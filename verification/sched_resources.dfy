/** The accounting mutators, the admission predicate and the sequential
    reservation wrapper of one worker's usage bucket. */
module SchedResources {
  import opened UInt64
  import opened SchedTypes

  /** Promises the resources of `r` on a worker with resources `wr`. */
  function Add(wr: WorkerResources, a: ActiveResources, r: Resources): (a': ActiveResources)
    ensures r.canGpu ==> a'.gpuUsed && a'.gpuUsedNum == a.gpuUsedNum + 1
    ensures !r.canGpu ==> a'.gpuUsed == a.gpuUsed && a'.gpuUsedNum == a.gpuUsedNum
    ensures a'.apParallelNum == a.apParallelNum + (if r.taskType == AddPiece then 1 else 0)
    ensures a'.p1ParallelNum == a.p1ParallelNum + (if r.taskType == PreCommit1 then 1 else 0)
    ensures a'.p2ParallelNum == a.p2ParallelNum + (if r.taskType == PreCommit2 then 1 else 0)
    ensures a'.cpuUse == (a.cpuUse + r.threads(wr.cpus)) % MODULUS
    ensures a'.memUsedMin == (a.memUsedMin + r.minMemory) % MODULUS
    ensures a'.memUsedMax == (a.memUsedMax + r.maxMemory) % MODULUS
    ensures a.cpuUse + r.threads(wr.cpus) < MODULUS ==> a'.cpuUse == a.cpuUse + r.threads(wr.cpus)
    ensures a.memUsedMin + r.minMemory < MODULUS ==> a'.memUsedMin == a.memUsedMin + r.minMemory
    ensures a.memUsedMax + r.maxMemory < MODULUS ==> a'.memUsedMax == a.memUsedMax + r.maxMemory
    ensures GpuAccountingSound(a) ==> GpuAccountingSound(a')
  {
    var gpu := if r.canGpu then a.(gpuUsedNum := a.gpuUsedNum + 1, gpuUsed := true) else a;
    var counted :=
      match r.taskType
      case AddPiece => gpu.(apParallelNum := gpu.apParallelNum + 1)
      case PreCommit1 => gpu.(p1ParallelNum := gpu.p1ParallelNum + 1)
      case PreCommit2 => gpu.(p2ParallelNum := gpu.p2ParallelNum + 1)
      case Other => gpu;
    counted.(
      cpuUse := WrapAdd(counted.cpuUse, r.threads(wr.cpus)),
      memUsedMin := WrapAdd(counted.memUsedMin, r.minMemory),
      memUsedMax := WrapAdd(counted.memUsedMax, r.maxMemory))
  }

  /** Withdraws the resources of `r` again. The busy flag is cleared exactly when
      the GPU count drops to zero. */
  function Free(wr: WorkerResources, a: ActiveResources, r: Resources): (a': ActiveResources)
    ensures r.canGpu ==> a'.gpuUsedNum == a.gpuUsedNum - 1 && (a'.gpuUsed <==> a.gpuUsed && a'.gpuUsedNum != 0)
    ensures !r.canGpu ==> a'.gpuUsed == a.gpuUsed && a'.gpuUsedNum == a.gpuUsedNum
    ensures a'.apParallelNum == a.apParallelNum - (if r.taskType == AddPiece then 1 else 0)
    ensures a'.p1ParallelNum == a.p1ParallelNum - (if r.taskType == PreCommit1 then 1 else 0)
    ensures a'.p2ParallelNum == a.p2ParallelNum - (if r.taskType == PreCommit2 then 1 else 0)
    ensures a'.cpuUse == (a.cpuUse - r.threads(wr.cpus)) % MODULUS
    ensures a'.memUsedMin == (a.memUsedMin - r.minMemory) % MODULUS
    ensures a'.memUsedMax == (a.memUsedMax - r.maxMemory) % MODULUS
    ensures r.threads(wr.cpus) <= a.cpuUse ==> a'.cpuUse == a.cpuUse - r.threads(wr.cpus)
    ensures r.minMemory <= a.memUsedMin ==> a'.memUsedMin == a.memUsedMin - r.minMemory
    ensures r.maxMemory <= a.memUsedMax ==> a'.memUsedMax == a.memUsedMax - r.maxMemory
    ensures GpuAccountingSound(a) && (r.canGpu ==> a.gpuUsedNum > 0) ==> GpuAccountingSound(a')
  {
    var gpu :=
      if r.canGpu then
        var n := a.gpuUsedNum - 1;
        a.(gpuUsedNum := n, gpuUsed := if n == 0 then false else a.gpuUsed)
      else a;
    var counted :=
      match r.taskType
      case AddPiece => gpu.(apParallelNum := gpu.apParallelNum - 1)
      case PreCommit1 => gpu.(p1ParallelNum := gpu.p1ParallelNum - 1)
      case PreCommit2 => gpu.(p2ParallelNum := gpu.p2ParallelNum - 1)
      case Other => gpu;
    counted.(
      cpuUse := WrapSub(counted.cpuUse, r.threads(wr.cpus)),
      memUsedMin := WrapSub(counted.memUsedMin, r.minMemory),
      memUsedMax := WrapSub(counted.memUsedMax, r.maxMemory))
  }

  /** Releasing what was just promised restores every counter; the busy flag too
      when it tracked the GPU count beforehand. */
  lemma FreeUndoesAdd(wr: WorkerResources, a: ActiveResources, r: Resources)
    ensures var a' := Free(wr, Add(wr, a, r), r);
      && a'.gpuUsedNum == a.gpuUsedNum
      && a'.apParallelNum == a.apParallelNum
      && a'.p1ParallelNum == a.p1ParallelNum
      && a'.p2ParallelNum == a.p2ParallelNum
      && a'.cpuUse == a.cpuUse
      && a'.memUsedMin == a.memUsedMin
      && a'.memUsedMax == a.memUsedMax
    ensures GpuAccountingSound(a) ==> Free(wr, Add(wr, a, r), r) == a
  {
  }

  /** Promising again what was just released restores the bucket, provided a GPU
      task was being accounted for when a GPU task is released. */
  lemma AddUndoesFree(wr: WorkerResources, a: ActiveResources, r: Resources)
    requires GpuAccountingSound(a)
    requires r.canGpu ==> a.gpuUsedNum > 0
    ensures Add(wr, Free(wr, a, r), r) == a
  {
  }

  /** The memory floor the admission check compares with physical memory, summed
      left to right in uint64 as the source writes it. */
  function MinNeedMem(res: WorkerResources, a: ActiveResources, r: Resources): u64
  {
    WrapAdd(WrapAdd(WrapAdd(res.memReserved, a.memUsedMin), r.minMemory), r.baseMinMemory)
  }

  /** The worst-case footprint the admission check compares with virtual memory. */
  function MaxNeedMem(res: WorkerResources, a: ActiveResources, r: Resources): u64
  {
    WrapAdd(WrapAdd(WrapAdd(res.memReserved, a.memUsedMax), r.maxMemory), r.baseMinMemory)
  }

  /** Physical memory plus swap. */
  function VirtualMemory(res: WorkerResources): u64
  {
    WrapAdd(res.memSwap, res.memPhysical)
  }

  /** CPU threads in use once `r` runs too. */
  function ThreadsNeeded(res: WorkerResources, a: ActiveResources, r: Resources): u64
  {
    WrapAdd(a.cpuUse, r.threads(res.cpus))
  }

  /** The GPU gate as written: a GPU task on a worker with GPUs is turned away while
      the number of installed GPUs is at least the number of GPU tasks running. */
  predicate GpuGateRejects(res: WorkerResources, a: ActiveResources, r: Resources)
  {
    |res.gpus| > 0 && r.canGpu && |res.gpus| >= a.gpuUsedNum
  }

  /** The parallelism quota of the request's kind is used up; only AddPiece and
      PreCommit1 have one. */
  predicate QuotaExhausted(a: ActiveResources, r: Resources, q: Quotas)
  {
    match r.taskType
    case AddPiece => a.apParallelNum >= q.apParallelMax
    case PreCommit1 => a.p1ParallelNum >= q.p1ParallelMax
    case _ => false
  }

  /** Whether the worker can take `r` on top of what bucket `a` already promises. */
  function CanHandleRequest(a: ActiveResources, r: Resources, info: WorkerInfo, q: Quotas): (ok: bool)
    ensures info.ignoreResources ==> ok
    ensures !info.ignoreResources && MinNeedMem(info.resources, a, r) > info.resources.memPhysical ==> !ok
    ensures !info.ignoreResources && MaxNeedMem(info.resources, a, r) > VirtualMemory(info.resources) ==> !ok
    ensures !info.ignoreResources && ThreadsNeeded(info.resources, a, r) > info.resources.cpus ==> !ok
    ensures !info.ignoreResources && GpuGateRejects(info.resources, a, r) ==> !ok
    ensures !info.ignoreResources && QuotaExhausted(a, r, q) ==> !ok
    ensures !info.ignoreResources
            && MinNeedMem(info.resources, a, r) <= info.resources.memPhysical
            && MaxNeedMem(info.resources, a, r) <= VirtualMemory(info.resources)
            && ThreadsNeeded(info.resources, a, r) <= info.resources.cpus
            && !GpuGateRejects(info.resources, a, r)
            && !QuotaExhausted(a, r, q)
            ==> ok
    // Once admitted, the bucket's thread count stays within the worker's CPUs.
    ensures ok && !info.ignoreResources ==> Add(info.resources, a, r).cpuUse <= info.resources.cpus
  {
    if info.ignoreResources then true
    else
      var res := info.resources;
      if MinNeedMem(res, a, r) > res.memPhysical then false
      else if MaxNeedMem(res, a, r) > VirtualMemory(res) then false
      else if WrapAdd(a.cpuUse, r.threads(res.cpus)) > res.cpus then false
      else if |res.gpus| > 0 && r.canGpu && |res.gpus| >= a.gpuUsedNum then false
      else
        match r.taskType
        case AddPiece => a.apParallelNum < q.apParallelMax
        case PreCommit1 => a.p1ParallelNum < q.p1ParallelMax
        case _ => true
  }

  /** The GPU gate is not a free-GPU test: a GPU task is admitted on a worker with
      GPUs only while more GPU tasks than GPUs are already accounted for, so never
      on an idle worker. */
  lemma GpuAdmittedOnlyWhenOversubscribed(a: ActiveResources, r: Resources, info: WorkerInfo, q: Quotas)
    requires !info.ignoreResources && |info.resources.gpus| > 0 && r.canGpu
    ensures CanHandleRequest(a, r, info, q) ==> a.gpuUsedNum > |info.resources.gpus|
    ensures !CanHandleRequest(Idle, r, info, q)
  {
  }

  /** The PreCommit2 count and the GPU busy flag never influence admission. */
  lemma AdmissionIgnoresP2CountAndGpuFlag(a: ActiveResources, r: Resources, info: WorkerInfo, q: Quotas, p2: int, used: bool)
    ensures CanHandleRequest(a.(p2ParallelNum := p2, gpuUsed := used), r, info, q) == CanHandleRequest(a, r, info, q)
  {
  }

  /** Only AddPiece and PreCommit1 requests are gated on the parallel counts. */
  lemma QuotaOnlyForNamedKinds(a: ActiveResources, r: Resources, info: WorkerInfo, q: Quotas, ap: int, p1: int)
    requires r.taskType != AddPiece && r.taskType != PreCommit1
    ensures CanHandleRequest(a.(apParallelNum := ap, p1ParallelNum := p1), r, info, q) == CanHandleRequest(a, r, info, q)
  {
  }

  /** AddPiece admission depends on the AddPiece count exactly through its quota,
      and never on the PreCommit1 count; and symmetrically for PreCommit1. */
  lemma QuotaGatesOwnKind(a: ActiveResources, r: Resources, info: WorkerInfo, q: Quotas, n: int)
    requires !info.ignoreResources
    ensures r.taskType == AddPiece ==>
      CanHandleRequest(a.(p1ParallelNum := n), r, info, q) == CanHandleRequest(a, r, info, q)
    ensures r.taskType == PreCommit1 ==>
      CanHandleRequest(a.(apParallelNum := n), r, info, q) == CanHandleRequest(a, r, info, q)
    ensures r.taskType == AddPiece && n >= q.apParallelMax ==>
      !CanHandleRequest(a.(apParallelNum := n), r, info, q)
    ensures r.taskType == PreCommit1 && n >= q.p1ParallelMax ==>
      !CanHandleRequest(a.(p1ParallelNum := n), r, info, q)
  {
  }

  /** The outcome of one reservation: still waiting after every observed wake-up,
      or admitted at wake-up `wakeups`, with the bucket while the callback ran,
      the bucket after release, and the callback's error. */
  datatype Reservation<E> =
    | Waiting
    | Completed(wakeups: nat, running: ActiveResources, released: ActiveResources, err: E)

  /** Waits until the request is admitted, promises its resources, runs the callback,
      releases the resources and returns the callback's error. `observed` holds the
      bucket as found at the first check and at each later wake-up, as changed by
      other reservations in between. */
  method WithResources<E>(info: WorkerInfo, r: Resources, q: Quotas, observed: seq<ActiveResources>, cb: () -> E)
    returns (o: Reservation<E>)
    ensures o.Waiting? <==> forall k :: 0 <= k < |observed| ==> !CanHandleRequest(observed[k], r, info, q)
    ensures o.Completed? ==>
      && o.wakeups < |observed|
      && CanHandleRequest(observed[o.wakeups], r, info, q)
      && (forall k :: 0 <= k < o.wakeups ==> !CanHandleRequest(observed[k], r, info, q))
      && o.running == Add(info.resources, observed[o.wakeups], r)
      && o.err == cb()
      && o.released == Free(info.resources, o.running, r)
      && o.released.(gpuUsed := observed[o.wakeups].gpuUsed) == observed[o.wakeups]
      && (GpuAccountingSound(observed[o.wakeups]) ==> o.released == observed[o.wakeups])
  {
    var k := 0;
    while k < |observed| && !CanHandleRequest(observed[k], r, info, q)
      invariant 0 <= k <= |observed|
      invariant forall j :: 0 <= j < k ==> !CanHandleRequest(observed[j], r, info, q)
    {
      k := k + 1;
    }
    if k == |observed| {
      return Waiting;
    }
    var running := Add(info.resources, observed[k], r);
    var err := cb();
    var released := Free(info.resources, running, r);
    FreeUndoesAdd(info.resources, observed[k], r);
    o := Completed(k, running, released, err);
  }
}
