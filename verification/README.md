# Worker resource accounting and admission of the sealing scheduler

This project models, in Dafny, how the sealing scheduler of a Filecoin storage
miner accounts for the resources promised on one worker and decides whether a
worker can take another task. The Go source is
`extern/sector-storage/sched_resources.go`.

- `activeResources` becomes `SchedTypes.ActiveResources`, an immutable record of
  counters. These are the GPU count and its busy flag, the AddPiece, PreCommit1
  and PreCommit2 parallel counts, the CPU threads in use, and the minimum and
  maximum memory in use.
- `add`, `free` and `canHandleRequest` become the pure functions
  `SchedResources.Add`, `SchedResources.Free` and `SchedResources.CanHandleRequest`.
- `withResources` becomes the method `SchedResources.WithResources`. Its wait loop
  runs over the bucket states observed at the first check and at each wake-up. It
  then promises the resources, runs the callback, releases the resources and
  returns the callback's error.
- Concurrent reservations on one bucket become the event trace of module
  `ReservationTrace`. Each event is either an admitted reservation or the release
  of any running reservation, in any order.

Modelling decisions:

- The uint64 fields wrap modulo 2^64, as Go's arithmetic does (`UInt64.WrapAdd`,
  `UInt64.WrapSub`). This covers the thread and memory counters, the request
  sizes and the worker capacities. Sums are taken left to right, as the source
  writes them, so `Free` needs no precondition. A `free` without a matching `add`
  wraps around exactly as it would in Go.
- The task counts and `gpuUsedNum` are Go `int` values and are modelled as
  unbounded `int`.
- `Resources.Threads` is not part of this model. It appears as the field
  `threads: u64 -> u64` of `Resources`.
- The task-type constants are not part of this model. The kinds that matter here
  are `AddPiece`, `PreCommit1` and `PreCommit2`. `Other` stands for every kind
  distinct from those three.
- `LO_AP_PARALLEL_NUM` and `LO_P1_PARALLEL_NUM` are not part of this model. They
  are the parameter record `Quotas`.
- The GPU gate is kept exactly as written at line 108. A GPU task on a worker
  with GPUs is rejected while `len(GPUs) >= gpuUsedNum`. So it is admitted only
  when more GPU tasks than GPUs are already accounted for, and never from idle.
  `GpuAdmittedOnlyWhenOversubscribed` and `ReachableRespectsCapacity` pin this.
- PreCommit2 tasks are counted, but nothing checks their count. Both halves are
  kept.
- The uint64 counters wrap around on an unmatched free rather than staying
  non-negative.

## Model

| member | source | states |
|---|---|---|
| `SchedResources.Add` | extern/sector-storage/sched_resources.go:31-49 | only the parallel count of the request's own kind grows, by one, and the other two are unchanged. The GPU fields change only for a GPU request, which sets the busy flag. Threads and memory grow by the request's amounts modulo 2^64, which is the plain sum whenever it fits. A sound GPU count/flag pair stays sound. |
| `SchedResources.Free` | extern/sector-storage/sched_resources.go:52-72 | it is the mirror image of `Add` on every counter: threads and memory shrink by the request's amounts modulo 2^64. For a GPU request the busy flag is cleared exactly when the count reaches zero. The GPU accounting stays sound when a GPU task was being counted. |
| `SchedResources.FreeUndoesAdd` | extern/sector-storage/sched_resources.go:31-72 | free after add with the same request restores all seven counters. It also restores the busy flag when the GPU accounting was sound. |
| `SchedResources.AddUndoesFree` | extern/sector-storage/sched_resources.go:31-72 | add after free restores the bucket. This needs a sound bucket that counts the GPU task being released. |
| `SchedResources.CanHandleRequest` | extern/sector-storage/sched_resources.go:76-132 | the request is always admitted when the worker ignores its resources. Otherwise it is rejected on each of these: memory floor above physical memory, footprint above physical plus swap, threads above CPUs, the GPU gate, or an exhausted AddPiece/PreCommit1 quota. It is admitted when none holds. On a worker that enforces its limits, admission keeps the bucket's threads within the CPUs. |
| `SchedResources.GpuAdmittedOnlyWhenOversubscribed` | extern/sector-storage/sched_resources.go:103-111 | on a GPU worker that does not ignore its resources, a GPU task is admitted only if more GPU tasks than GPUs already run. It is never admitted on an idle bucket. |
| `SchedResources.AdmissionIgnoresP2CountAndGpuFlag` | extern/sector-storage/sched_resources.go:102-128 | neither the PreCommit2 count nor the busy flag (whose check is commented out) affects admission. |
| `SchedResources.QuotaOnlyForNamedKinds` | extern/sector-storage/sched_resources.go:115-128 | for any kind other than AddPiece and PreCommit1, admission does not depend on the AddPiece or PreCommit1 counts. |
| `SchedResources.QuotaGatesOwnKind` | extern/sector-storage/sched_resources.go:115-128 | on a worker that enforces its limits, an AddPiece request is refused once the AddPiece count reaches its quota, and the PreCommit1 count does not matter to it. The same holds for PreCommit1 with the roles swapped. |
| `SchedResources.WithResources` | extern/sector-storage/sched_resources.go:10-28 | it waits exactly until the first observed state that admits the request. It runs the callback on the bucket with the request added and returns the callback's error unchanged. Afterwards it frees the request: all seven counters are back at their admitted values, and the busy flag too when the GPU accounting was sound. |
| `AdmissionBudget.AdmissionMatchesBudget` | extern/sector-storage/sched_resources.go:82-131 | when no uint64 sum wraps, admission holds exactly when the unbounded physical-memory, virtual-memory, thread, GPU and quota conditions all hold, or the worker ignores its resources. |
| `AdmissionBudget.AdmittedStaysWithinCapacity` | extern/sector-storage/sched_resources.go:84-100 | on a worker that enforces its limits and when no sum wraps, a bucket that admitted a request then fits in physical memory, in physical memory plus swap, and in the CPUs. |
| `AdmissionBudget.WrapAroundAdmits` | extern/sector-storage/sched_resources.go:84-88 | the memory floor is a uint64 sum: on an idle worker with 16 bytes of RAM and nothing reserved, a request whose floor wraps around passes the physical-memory check although it does not fit. |
| `ReservationTrace.TotalGpu` | extern/sector-storage/sched_resources.go:32-35 | promising any sequence of requests on a sound bucket keeps the GPU accounting sound. The GPU count grows by the number of GPU requests. |
| `ReservationTrace.FreeAddCommute` | extern/sector-storage/sched_resources.go:31-72 | releasing one reservation and promising another commute on a sound bucket, provided a GPU task is counted when the released one is a GPU request. |
| `ReservationTrace.FreeFromTotal` | extern/sector-storage/sched_resources.go:31-72 | starting from a sound bucket, releasing any one of the running reservations, in any order, gives exactly the counters of the reservations that remain. |
| `ReservationTrace.StepConserves` | extern/sector-storage/sched_resources.go:18-22 | every admission and every release keeps the counters equal to the fold of the running reservations over a sound starting bucket. |
| `ReservationTrace.RunConserves` | extern/sector-storage/sched_resources.go:18-22 | every trace of admissions and releases keeps the counters equal to the fold of the running reservations over a sound starting bucket. |
| `ReservationTrace.BalancedTraceRestores` | extern/sector-storage/sched_resources.go:18-22 | from a sound starting bucket, once every reservation of a trace has been released, in any order, the bucket equals its starting state. This includes the GPU flag. |
| `ReservationTrace.TallyWithout` | extern/sector-storage/sched_resources.go:52-72 | removing any running reservation takes exactly its contribution off the unbounded totals. |
| `ReservationTrace.ReserveStaysWithinBudget` | extern/sector-storage/sched_resources.go:76-132 | on a worker that enforces its limits, an admitted reservation keeps the counters equal to the unbounded totals and keeps every capacity bound and quota. This assumes the request's sizes plus the worker's capacities stay below 2^64. |
| `ReservationTrace.ReleaseStaysWithinBudget` | extern/sector-storage/sched_resources.go:52-72 | a release keeps the counters equal to the unbounded totals and keeps every capacity bound and quota. |
| `ReservationTrace.RunStaysWithinBudget` | extern/sector-storage/sched_resources.go:10-28 | every trace of admissions and releases on a worker that enforces its limits preserves the budget invariant, provided each admitted request's sizes plus the worker's capacities stay below 2^64. |
| `ReservationTrace.ReachableRespectsCapacity` | extern/sector-storage/sched_resources.go:76-132 | on a worker that enforces its limits, and with each admitted request's sizes plus the worker's capacities below 2^64, every bucket reachable from idle keeps its threads within the CPUs, and its memory within RAM and within RAM plus swap while tasks run. It keeps each quota-bearing count within its quota, and never runs a GPU task on a worker that has GPUs. |
| `ReservationTrace.EightCpuScenario` | extern/sector-storage/sched_resources.go:10-28 | on 8 CPUs and 16 GiB, two 4-thread 2 GiB tasks are admitted together, with 8 threads and 4 GiB in use. A third is refused until one of the first two is released. |

## Left out

- The wait loop's condition variable, its lazy creation, the caller's locker and the broadcast on release (lines 11-16 and 23-25) are left out. They are synchronisation. The waiting is modelled by the observed states passed to `WithResources`, and the interleaving of reservations by `ReservationTrace`.
- `SchedResources.WithResources`: the busy flag after release is pinned to its admitted value only when the GPU accounting was sound; the seven counters always are. Also, nothing else changes the bucket while the callback runs. Concurrent changes during the callback are covered by `ReservationTrace` instead.
- The `utilization` functions of `activeResources` and `workerHandle` (lines 134-165) are left out. They compute float64 ratios under the worker's locks.
- The `log.Debugf` calls, and the worker id and caller name that appear only in them, are left out. They do not affect control flow.
- The 64-bit signed overflow of the task counts and `gpuUsedNum` is left out. They are unbounded integers here because the overflow would need 2^63 tasks.
- The deduplication of `BaseMinMemory` per task type is left out. It is only a TODO at line 83 and is not implemented.
- `SchedResources.FreeUndoesAdd`: the busy flag is shown restored only when the GPU count is non-negative as well as tracked by the flag. With a negative count, left by an unmatched free, add followed by free sets the flag although it was clear.
- `AdmissionBudget.AdmissionMatchesBudget`: the match with the unbounded budget is stated only when no uint64 sum wraps. `WrapAroundAdmits` shows what happens otherwise.
- `ReservationTrace.ReachableRespectsCapacity`: this assumes every admitted request's sizes, added to the worker's capacities, stay below 2^64. Without that, the wrap-around shown by `WrapAroundAdmits` can admit a request that does not fit.
