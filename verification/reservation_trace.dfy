/** Reservations on one usage bucket as a trace of events: a waiter is admitted and
    promises its resources, or any running reservation finishes and releases what it
    promised, in any order. The theorems say the counters always equal the running
    reservations' totals, return to where they started once every reservation has
    finished, and (on a worker that enforces its limits) stay within its capacity. */
module ReservationTrace {
  import opened UInt64
  import opened SchedTypes
  import opened SchedResources
  import opened AdmissionBudget

  datatype Option<T> = None | Some(value: T)

  /** An admitted reservation of `request`, or the end of the running reservation at `index`. */
  datatype Event = Reserve(request: Resources) | Release(index: nat)

  /** A bucket's counters together with the reservations currently promised on it. */
  datatype Bucket = Bucket(usage: ActiveResources, running: seq<Resources>)

  /** `rs` with its `i`-th element removed. */
  function Without(rs: seq<Resources>, i: nat): (rs': seq<Resources>)
    requires i < |rs|
    ensures |rs'| == |rs| - 1
    ensures forall k :: 0 <= k < i ==> rs'[k] == rs[k]
    ensures forall k :: i <= k < |rs'| ==> rs'[k] == rs[k + 1]
  {
    rs[..i] + rs[i + 1..]
  }

  /** One event, or None when it cannot happen now: a request that is not admitted
      keeps waiting, and only a running reservation can be released. */
  function Step(info: WorkerInfo, q: Quotas, b: Bucket, e: Event): Option<Bucket>
  {
    match e
    case Reserve(r) =>
      if CanHandleRequest(b.usage, r, info, q)
      then Some(Bucket(Add(info.resources, b.usage, r), b.running + [r]))
      else None
    case Release(i) =>
      if i < |b.running|
      then Some(Bucket(Free(info.resources, b.usage, b.running[i]), Without(b.running, i)))
      else None
  }

  function Run(info: WorkerInfo, q: Quotas, b: Bucket, es: seq<Event>): Option<Bucket>
    decreases |es|
  {
    if |es| == 0 then Some(b)
    else
      match Step(info, q, b, es[0])
      case None => None
      case Some(b') => Run(info, q, b', es[1..])
  }

  /** The counters after promising each of `rs` in turn, starting from `base`. */
  function Total(wr: WorkerResources, base: ActiveResources, rs: seq<Resources>): ActiveResources
    decreases |rs|
  {
    if |rs| == 0 then base
    else Add(wr, Total(wr, base, rs[..|rs| - 1]), rs[|rs| - 1])
  }

  /** Unbounded totals of a set of reservations: an independent reference for what
      the counters should hold. */
  datatype Tally = Tally(gpu: nat, ap: nat, p1: nat, p2: nat, cpu: nat, memMin: nat, memMax: nat)

  const NoTally := Tally(0, 0, 0, 0, 0, 0, 0)

  function Plus(s: Tally, t: Tally): Tally
  {
    Tally(s.gpu + t.gpu, s.ap + t.ap, s.p1 + t.p1, s.p2 + t.p2,
          s.cpu + t.cpu, s.memMin + t.memMin, s.memMax + t.memMax)
  }

  /** What one reservation adds to the totals on a worker with `cpus` CPUs. */
  function Contribution(cpus: u64, r: Resources): Tally
  {
    Tally(
      if r.canGpu then 1 else 0,
      if r.taskType == AddPiece then 1 else 0,
      if r.taskType == PreCommit1 then 1 else 0,
      if r.taskType == PreCommit2 then 1 else 0,
      r.threads(cpus), r.minMemory, r.maxMemory)
  }

  function TallyOf(cpus: u64, rs: seq<Resources>): Tally
    decreases |rs|
  {
    if |rs| == 0 then NoTally
    else Plus(TallyOf(cpus, rs[..|rs| - 1]), Contribution(cpus, rs[|rs| - 1]))
  }

  lemma TallyAppend(cpus: u64, rs: seq<Resources>, r: Resources)
    ensures TallyOf(cpus, rs + [r]) == Plus(TallyOf(cpus, rs), Contribution(cpus, r))
  {
    assert (rs + [r])[..|rs|] == rs;
  }

  lemma WithoutLast(rs: seq<Resources>, i: nat)
    requires i < |rs| - 1
    ensures Without(rs, i) == Without(rs[..|rs| - 1], i) + [rs[|rs| - 1]]
  {
  }

  /** Removing any one reservation takes exactly its contribution off the totals. */
  lemma {:induction false} TallyWithout(cpus: u64, rs: seq<Resources>, i: nat)
    requires i < |rs|
    ensures Plus(TallyOf(cpus, Without(rs, i)), Contribution(cpus, rs[i])) == TallyOf(cpus, rs)
    decreases |rs|
  {
    var n := |rs| - 1;
    var init := rs[..n];
    if i == n {
      assert Without(rs, i) == init;
    } else {
      var rest := Without(init, i);
      TallyWithout(cpus, init, i);
      assert init[i] == rs[i];
      WithoutLast(rs, i);
      TallyAppend(cpus, rest, rs[n]);
      PlusSwap(TallyOf(cpus, rest), Contribution(cpus, rs[n]), Contribution(cpus, rs[i]));
    }
  }

  lemma PlusSwap(s: Tally, x: Tally, y: Tally)
    ensures Plus(Plus(s, x), y) == Plus(Plus(s, y), x)
  {
  }

  /** Folding promises over a sound bucket keeps it sound and counts the GPU tasks. */
  lemma {:induction false} TotalGpu(wr: WorkerResources, base: ActiveResources, rs: seq<Resources>)
    requires GpuAccountingSound(base)
    ensures GpuAccountingSound(Total(wr, base, rs))
    ensures Total(wr, base, rs).gpuUsedNum == base.gpuUsedNum + TallyOf(wr.cpus, rs).gpu
    decreases |rs|
  {
    if |rs| > 0 {
      TotalGpu(wr, base, rs[..|rs| - 1]);
    }
  }

  /** Releasing one reservation commutes with promising another. */
  lemma FreeAddCommute(wr: WorkerResources, a: ActiveResources, x: Resources, y: Resources)
    requires GpuAccountingSound(a)
    requires x.canGpu ==> a.gpuUsedNum > 0
    ensures Free(wr, Add(wr, a, y), x) == Add(wr, Free(wr, a, x), y)
  {
    AddSubCommute(a.cpuUse, x.threads(wr.cpus), y.threads(wr.cpus));
    AddSubCommute(a.memUsedMin, x.minMemory, y.minMemory);
    AddSubCommute(a.memUsedMax, x.maxMemory, y.maxMemory);
  }

  /** Releasing any running reservation, in whatever order, leaves exactly the
      counters of the reservations still running. */
  lemma {:induction false} FreeFromTotal(wr: WorkerResources, base: ActiveResources, rs: seq<Resources>, i: nat)
    requires GpuAccountingSound(base)
    requires i < |rs|
    ensures Free(wr, Total(wr, base, rs), rs[i]) == Total(wr, base, Without(rs, i))
    decreases |rs|
  {
    var n := |rs| - 1;
    var init := rs[..n];
    TotalGpu(wr, base, init);
    if i == n {
      assert Without(rs, i) == init;
      FreeUndoesAdd(wr, Total(wr, base, init), rs[n]);
    } else {
      FreeFromTotal(wr, base, init, i);
      TallyWithout(wr.cpus, init, i);
      FreeAddCommute(wr, Total(wr, base, init), rs[i], rs[n]);
      var w := Without(rs, i);
      WithoutLast(rs, i);
      assert w[..|w| - 1] == Without(init, i);
    }
  }

  /** Every event keeps the counters equal to the fold of the running reservations. */
  lemma StepConserves(info: WorkerInfo, q: Quotas, base: ActiveResources, b: Bucket, e: Event)
    requires GpuAccountingSound(base)
    requires b.usage == Total(info.resources, base, b.running)
    requires Step(info, q, b, e).Some?
    ensures Step(info, q, b, e).value.usage == Total(info.resources, base, Step(info, q, b, e).value.running)
  {
    match e
    case Reserve(r) =>
      assert (b.running + [r])[..|b.running|] == b.running;
    case Release(i) =>
      FreeFromTotal(info.resources, base, b.running, i);
  }

  lemma {:induction false} RunConserves(info: WorkerInfo, q: Quotas, base: ActiveResources, b: Bucket, es: seq<Event>)
    requires GpuAccountingSound(base)
    requires b.usage == Total(info.resources, base, b.running)
    requires Run(info, q, b, es).Some?
    ensures Run(info, q, b, es).value.usage == Total(info.resources, base, Run(info, q, b, es).value.running)
    decreases |es|
  {
    if |es| > 0 {
      StepConserves(info, q, base, b, es[0]);
      RunConserves(info, q, base, Step(info, q, b, es[0]).value, es[1..]);
    }
  }

  /** Conservation: once every reservation of a trace has been released, in any
      order, every counter and the GPU flag are back where they started. */
  lemma BalancedTraceRestores(info: WorkerInfo, q: Quotas, base: ActiveResources, es: seq<Event>)
    requires GpuAccountingSound(base)
    requires Run(info, q, Bucket(base, []), es).Some?
    requires Run(info, q, Bucket(base, []), es).value.running == []
    ensures Run(info, q, Bucket(base, []), es).value.usage == base
  {
    RunConserves(info, q, base, Bucket(base, []), es);
  }

  /** The counters hold exactly the unbounded totals, with the busy flag set iff a GPU task runs. */
  ghost predicate Accounts(a: ActiveResources, t: Tally)
  {
    && a.gpuUsedNum == t.gpu && a.gpuUsed == (t.gpu > 0)
    && a.apParallelNum == t.ap && a.p1ParallelNum == t.p1 && a.p2ParallelNum == t.p2
    && a.cpuUse == t.cpu && a.memUsedMin == t.memMin && a.memUsedMax == t.memMax
  }

  /** The bucket respects the worker's capacity: threads within the CPUs, memory within
      RAM and RAM plus swap while anything runs, no GPU task on a worker with GPUs,
      and each quota-bearing count within its quota. */
  ghost predicate WithinBudget(info: WorkerInfo, q: Quotas, b: Bucket)
  {
    var res := info.resources;
    var t := TallyOf(res.cpus, b.running);
    && Accounts(b.usage, t)
    && t.cpu <= res.cpus
    && (|b.running| > 0 ==>
          && res.memReserved + t.memMin <= res.memPhysical
          && res.memReserved + t.memMax <= res.memPhysical + res.memSwap)
    && (|res.gpus| > 0 ==> t.gpu == 0)
    && (t.ap == 0 || t.ap <= q.apParallelMax)
    && (t.p1 == 0 || t.p1 <= q.p1ParallelMax)
  }

  /** A request whose sizes, added to the worker's capacities, stay below 2^64. */
  predicate FitsWorker(res: WorkerResources, r: Resources)
  {
    && res.memReserved + res.memPhysical + r.minMemory + r.baseMinMemory < MODULUS
    && res.memReserved + res.memPhysical + res.memSwap + r.maxMemory + r.baseMinMemory < MODULUS
    && res.cpus + r.threads(res.cpus) < MODULUS
  }

  predicate ReservationsFit(res: WorkerResources, es: seq<Event>)
  {
    forall k :: 0 <= k < |es| ==> es[k].Reserve? ==> FitsWorker(res, es[k].request)
  }

  lemma IdleWithinBudget(info: WorkerInfo, q: Quotas)
    ensures WithinBudget(info, q, Bucket(Idle, []))
  {
  }

  lemma ReserveStaysWithinBudget(info: WorkerInfo, q: Quotas, b: Bucket, r: Resources)
    requires !info.ignoreResources
    requires WithinBudget(info, q, b)
    requires FitsWorker(info.resources, r)
    requires CanHandleRequest(b.usage, r, info, q)
    ensures WithinBudget(info, q, Bucket(Add(info.resources, b.usage, r), b.running + [r]))
  {
    // The solver finds this proof unaided; these steps cut its cost by a third.
    var res := info.resources;
    var t := TallyOf(res.cpus, b.running);
    if |b.running| == 0 {
      assert t == NoTally;
    }
    assert SumsFit(res, b.usage, r);
    AdmissionMatchesBudget(info, b.usage, r, q);
    TallyAppend(res.cpus, b.running, r);
  }

  lemma ReleaseStaysWithinBudget(info: WorkerInfo, q: Quotas, b: Bucket, i: nat)
    requires WithinBudget(info, q, b)
    requires i < |b.running|
    ensures WithinBudget(info, q, Bucket(Free(info.resources, b.usage, b.running[i]), Without(b.running, i)))
  {
    TallyWithout(info.resources.cpus, b.running, i);
  }

  lemma StepStaysWithinBudget(info: WorkerInfo, q: Quotas, b: Bucket, e: Event)
    requires !info.ignoreResources
    requires WithinBudget(info, q, b)
    requires e.Reserve? ==> FitsWorker(info.resources, e.request)
    requires Step(info, q, b, e).Some?
    ensures WithinBudget(info, q, Step(info, q, b, e).value)
  {
    match e
    case Reserve(r) => ReserveStaysWithinBudget(info, q, b, r);
    case Release(i) => ReleaseStaysWithinBudget(info, q, b, i);
  }

  lemma {:induction false} RunStaysWithinBudget(info: WorkerInfo, q: Quotas, b: Bucket, es: seq<Event>)
    requires !info.ignoreResources
    requires WithinBudget(info, q, b)
    requires ReservationsFit(info.resources, es)
    requires Run(info, q, b, es).Some?
    ensures WithinBudget(info, q, Run(info, q, b, es).value)
    decreases |es|
  {
    if |es| > 0 {
      StepStaysWithinBudget(info, q, b, es[0]);
      assert ReservationsFit(info.resources, es[1..]) by {
        forall k | 0 <= k < |es| - 1
          ensures es[1..][k].Reserve? ==> FitsWorker(info.resources, es[1..][k].request)
        {
          assert es[1..][k] == es[k + 1];
        }
      }
      RunStaysWithinBudget(info, q, Step(info, q, b, es[0]).value, es[1..]);
    }
  }

  /** Safety of admission under any interleaving: on a worker that enforces its limits,
      every bucket reachable from idle keeps its threads within the CPUs and its memory
      within RAM and RAM plus swap, runs no GPU task if the worker has GPUs (the GPU
      gate as written never opens from idle), and keeps each quota-bearing count
      within its quota. */
  lemma ReachableRespectsCapacity(info: WorkerInfo, q: Quotas, es: seq<Event>)
    requires !info.ignoreResources
    requires ReservationsFit(info.resources, es)
    requires Run(info, q, Bucket(Idle, []), es).Some?
    ensures var res := info.resources; var b := Run(info, q, Bucket(Idle, []), es).value;
      && b.usage.cpuUse <= res.cpus
      && (|b.running| > 0 ==>
            && res.memReserved + b.usage.memUsedMin <= res.memPhysical
            && res.memReserved + b.usage.memUsedMax <= res.memPhysical + res.memSwap)
      && (|res.gpus| > 0 ==> b.usage.gpuUsedNum == 0 && !b.usage.gpuUsed
                             && forall k :: 0 <= k < |b.running| ==> !b.running[k].canGpu)
      && (b.usage.apParallelNum == 0 || b.usage.apParallelNum <= q.apParallelMax)
      && (b.usage.p1ParallelNum == 0 || b.usage.p1ParallelNum <= q.p1ParallelMax)
  {
    var res := info.resources;
    IdleWithinBudget(info, q);
    RunStaysWithinBudget(info, q, Bucket(Idle, []), es);
    var b := Run(info, q, Bucket(Idle, []), es).value;
    if |res.gpus| > 0 {
      forall k | 0 <= k < |b.running|
        ensures !b.running[k].canGpu
      {
        TallyWithout(res.cpus, b.running, k);
      }
    }
  }

  /** A task that occupies four threads on any worker. */
  function FourThreads(cpus: u64): u64
  {
    4
  }

  /** Eight CPUs, 16 GiB of RAM, no swap, no GPU: two 4-thread, 2 GiB tasks are
      admitted together, a third waits, and it is admitted once one of the first two
      has been released. */
  lemma EightCpuScenario()
    ensures var info := WorkerInfo(WorkerResources(16 * 0x4000_0000, 0, 0, 8, []), false);
      var q := Quotas(1, 1);
      var r := Resources(PreCommit2, 2 * 0x4000_0000, 2 * 0x4000_0000, 0, false, FourThreads);
      var idle := Bucket(Idle, []);
      && Run(info, q, idle, [Reserve(r), Reserve(r)]).Some?
      && Run(info, q, idle, [Reserve(r), Reserve(r)]).value.usage.cpuUse == 8
      && Run(info, q, idle, [Reserve(r), Reserve(r)]).value.usage.memUsedMin == 4 * 0x4000_0000
      && Run(info, q, idle, [Reserve(r), Reserve(r), Reserve(r)]).None?
      && Run(info, q, idle, [Reserve(r), Reserve(r), Release(0), Reserve(r)]).Some?
  {
    var info := WorkerInfo(WorkerResources(16 * 0x4000_0000, 0, 0, 8, []), false);
    var q := Quotas(1, 1);
    var r := Resources(PreCommit2, 2 * 0x4000_0000, 2 * 0x4000_0000, 0, false, FourThreads);
    var one := ActiveResources(false, 0, 0, 0, 1, 4, 2 * 0x4000_0000, 2 * 0x4000_0000);
    var two := ActiveResources(false, 0, 0, 0, 2, 8, 4 * 0x4000_0000, 4 * 0x4000_0000);
    var b1 := Bucket(one, [r]);
    var b2 := Bucket(two, [r, r]);
    assert r.threads(8) == 4;
    assert CanHandleRequest(Idle, r, info, q);
    assert Add(info.resources, Idle, r) == one;
    assert [] + [r] == [r];
    assert Step(info, q, Bucket(Idle, []), Reserve(r)) == Some(b1);
    assert Add(info.resources, one, r) == two;
    assert [r] + [r] == [r, r];
    assert Step(info, q, b1, Reserve(r)) == Some(b2);
    assert !CanHandleRequest(two, r, info, q);
    assert Step(info, q, b2, Release(0)) == Some(b1);
    assert [Reserve(r), Reserve(r)][1..] == [Reserve(r)];
    assert [Reserve(r), Reserve(r), Reserve(r)][1..][1..] == [Reserve(r)];
    assert [Reserve(r), Reserve(r), Release(0), Reserve(r)][1..][1..] == [Release(0), Reserve(r)];
    var idle := Bucket(Idle, []);
    assert Run(info, q, b2, []) == Some(b2);
    assert Run(info, q, b1, [Reserve(r)]) == Some(b2);
    assert Run(info, q, idle, [Reserve(r), Reserve(r)]) == Some(b2);
    assert Run(info, q, b2, [Reserve(r)]) == None;
    assert Run(info, q, idle, [Reserve(r), Reserve(r), Reserve(r)]) == None;
    assert Run(info, q, b2, [Release(0), Reserve(r)]) == Some(b2);
    assert Run(info, q, idle, [Reserve(r), Reserve(r), Release(0), Reserve(r)]) == Some(b2);
  }
}
