/** The budget the admission check is meant to enforce, stated over unbounded
    integers, and its relation to the uint64 check the scheduler performs. */
module AdmissionBudget {
  import opened UInt64
  import opened SchedTypes
  import opened SchedResources

  /** The guaranteed footprint of everything promised plus `r` fits in RAM. */
  predicate PhysicalMemoryFits(res: WorkerResources, a: ActiveResources, r: Resources)
  {
    res.memReserved + a.memUsedMin + r.minMemory + r.baseMinMemory <= res.memPhysical
  }

  /** The worst-case footprint fits in RAM plus swap. */
  predicate VirtualMemoryFits(res: WorkerResources, a: ActiveResources, r: Resources)
  {
    res.memReserved + a.memUsedMax + r.maxMemory + r.baseMinMemory <= res.memPhysical + res.memSwap
  }

  /** The threads of everything promised plus `r` fit in the worker's CPUs. */
  predicate ThreadsFit(res: WorkerResources, a: ActiveResources, r: Resources)
  {
    a.cpuUse + r.threads(res.cpus) <= res.cpus
  }

  /** Every budget holds at once, or the worker ignores its limits. The GPU gate
      and the quotas are the scheduler's own tests; only the memory and thread
      sums are taken here over unbounded integers. */
  predicate Admissible(info: WorkerInfo, a: ActiveResources, r: Resources, q: Quotas)
  {
    var res := info.resources;
    info.ignoreResources
    || (&& PhysicalMemoryFits(res, a, r)
        && VirtualMemoryFits(res, a, r)
        && ThreadsFit(res, a, r)
        && !GpuGateRejects(res, a, r)
        && !QuotaExhausted(a, r, q))
  }

  /** None of the uint64 sums the check computes wraps around. */
  predicate SumsFit(res: WorkerResources, a: ActiveResources, r: Resources)
  {
    && res.memReserved + a.memUsedMin + r.minMemory + r.baseMinMemory < MODULUS
    && res.memReserved + a.memUsedMax + r.maxMemory + r.baseMinMemory < MODULUS
    && res.memSwap + res.memPhysical < MODULUS
    && a.cpuUse + r.threads(res.cpus) < MODULUS
  }

  /** When no sum wraps, the scheduler admits a request exactly when every budget holds. */
  lemma AdmissionMatchesBudget(info: WorkerInfo, a: ActiveResources, r: Resources, q: Quotas)
    requires SumsFit(info.resources, a, r)
    ensures CanHandleRequest(a, r, info, q) <==> Admissible(info, a, r, q)
  {
  }

  /** When no sum wraps, an admitted request leaves the bucket inside the worker's
      physical memory, virtual memory and CPUs. */
  lemma AdmittedStaysWithinCapacity(info: WorkerInfo, a: ActiveResources, r: Resources, q: Quotas)
    requires !info.ignoreResources
    requires SumsFit(info.resources, a, r)
    requires CanHandleRequest(a, r, info, q)
    ensures var res := info.resources; var a' := Add(res, a, r);
      && res.memReserved + a'.memUsedMin <= res.memPhysical
      && res.memReserved + a'.memUsedMax <= res.memPhysical + res.memSwap
      && a'.cpuUse <= res.cpus
  {
  }

  /** The sums are uint64 sums: on an ordinary idle worker, a request whose memory
      floor wraps around passes the physical-memory check although it does not fit. */
  lemma WrapAroundAdmits()
    ensures var res := WorkerResources(16, 0, 0, 8, []);
      var r := Resources(Other, MODULUS - 1, 1, 1, false, (c: u64) => 0);
      && !PhysicalMemoryFits(res, Idle, r)
      && CanHandleRequest(Idle, r, WorkerInfo(res, false), Quotas(1, 1))
  {
  }
}
