/** The records the scheduler's resource accounting works on: what a task needs,
    what a worker offers, and what is currently promised on one worker. */
module SchedTypes {
  import opened UInt64

  /** The task kinds the accounting tells apart. `Other` stands for every sealing
      task kind distinct from these three (commit, finalize, fetch, unseal, ...),
      none of which the accounting counts. */
  datatype TaskType = AddPiece | PreCommit1 | PreCommit2 | Other

  /** What one task needs. `threads` maps the worker's CPU count to the number of
      CPU threads the task occupies on that worker. */
  datatype Resources = Resources(
    taskType: TaskType,
    minMemory: u64,
    maxMemory: u64,
    baseMinMemory: u64,
    canGpu: bool,
    threads: u64 -> u64)

  /** What one worker offers; only the number of GPUs matters, not their names. */
  datatype WorkerResources = WorkerResources(
    memPhysical: u64,
    memSwap: u64,
    memReserved: u64,
    cpus: u64,
    gpus: seq<string>)

  datatype WorkerInfo = WorkerInfo(resources: WorkerResources, ignoreResources: bool)

  /** The per-worker parallelism limits for AddPiece and PreCommit1 tasks. */
  datatype Quotas = Quotas(apParallelMax: int, p1ParallelMax: int)

  /** What is currently promised on one worker (one usage bucket). */
  datatype ActiveResources = ActiveResources(
    gpuUsed: bool,
    gpuUsedNum: int,
    apParallelNum: int,
    p1ParallelNum: int,
    p2ParallelNum: int,
    cpuUse: u64,
    memUsedMin: u64,
    memUsedMax: u64)

  /** A freshly registered bucket: every counter zero. */
  const Idle: ActiveResources := ActiveResources(false, 0, 0, 0, 0, 0, 0, 0)

  /** The GPU count is a count (never negative) and the busy flag says whether it is positive. */
  predicate GpuAccountingSound(a: ActiveResources)
  {
    a.gpuUsedNum >= 0 && a.gpuUsed == (a.gpuUsedNum > 0)
  }
}
