/** A job and the rewrites a worker applies to it. Times are nanoseconds. The serialised form of a job
    is an injective image of its fields, so equality of jobs stands for equality of their bytes. */
module Jobs {
  import opened Wrappers

  type JobId = nat
  type Time = int

  datatype Status = Pending | Running | Completed | Failed | Retrying | Custom(name: string)

  datatype Job = Job(
    id: JobId, kind: string, payload: string, status: Status, priority: int,
    createdAt: Time, updatedAt: Time, scheduledAt: Time, startedAt: Option<Time>, completedAt: Option<Time>,
    retryCount: int, maxRetries: int, workerId: string, error: string)

  const SECOND: Time := 1_000_000_000

  /** Time.Unix: whole seconds, rounded down. */
  function Unix(t: Time): int {
    t / SECOND
  }

  function Started(j: Job, worker: string, now: Time): Job {
    j.(workerId := worker, status := Running, startedAt := Some(now), updatedAt := now)
  }

  function Succeeded(j: Job, now: Time): Job {
    j.(status := Completed, completedAt := Some(now), updatedAt := now)
  }

  function GivenUp(j: Job, message: string, now: Time): Job {
    j.(status := Failed, error := message, updatedAt := now)
  }

  function Attempted(j: Job, message: string, now: Time): Job {
    j.(error := message, retryCount := j.retryCount + 1, updatedAt := now)
  }
}
