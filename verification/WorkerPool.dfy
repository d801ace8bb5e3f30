/** What a worker does with one job, from Pop to the list the job ends in. */
module WorkerPool {
  import opened Wrappers
  import opened Jobs
  import opened RedisQueue

  /** No processor for the job's type, or the processor's own verdict. */
  datatype Outcome = Missing | Succeeds | Errs(message: string)

  /** Where a processed job goes. */
  datatype Ending = ToCompleted | ToFailed | ToRetry(delay: Time)

  /** UpdateJob stamps the job itself before it stores it. */
  function Stamped(j: Job, now: Time): Job {
    j.(updatedAt := now)
  }

  /** The job that is stored and handed on after processing, and where to. */
  function Ended(j: Job, outcome: Outcome, delay: Time, now: Time): (r: (Job, Ending))
    ensures r.1.ToCompleted? <==> outcome.Succeeds?
    ensures r.1.ToRetry? <==> outcome.Errs? && j.retryCount + 1 < j.maxRetries
    ensures r.1.ToRetry? ==> r.1.delay == delay
    ensures r.0.retryCount == j.retryCount + if outcome.Errs? then 1 else 0
    ensures r.0.error == match outcome
                         case Missing => "No processor found for job type: " + j.kind
                         case Succeeds => j.error
                         case Errs(message) => message
    ensures r.0.status == match r.1 case ToCompleted => Completed case ToFailed => Failed case ToRetry(_) => Retrying
  {
    match outcome
    case Missing => (GivenUp(j, "No processor found for job type: " + j.kind, now), ToFailed)
    case Succeeds => (Succeeded(j, now), ToCompleted)
    case Errs(message) =>
      var a := Attempted(j, message, now);
      if a.retryCount < a.maxRetries then (a.(status := Retrying), ToRetry(delay))
      else (GivenUp(a, message, now), ToFailed)
  }

  /** The remote operations of one round, in the order in which they are issued: the mover's read and the
      commands of its pipeline that get through, BRPOP, the note in the processing list, the two writes of
      the record, and the last two queue operations. */
  datatype Faults = Faults(
    read: bool, sent: nat, pop: Reply, note: Reply, running: Reply, stored: Reply, removal: Reply, write: Reply)

  /** The queue once the finished job has left the worker. */
  function Left(s: Store, j: Job, e: Ending, removedAt: Time, pushedAt: Time, removal: Reply, write: Reply): Store {
    var off := if removal.Lost? then s else s.(processing := Without(s.processing, j));
    if !removal.Done? || write.Lost? then off
    else
      match e
      case ToCompleted => off.(completed := [j] + off.completed)
      case ToFailed => off.(failed := [j] + off.failed)
      case ToRetry(delay) => Pushed(off, j.(scheduledAt := removedAt + delay), pushedAt)
  }

  /** The records once `j` has been written; a job without a record gets none. */
  function Recorded(stored: map<JobId, Job>, j: Job, write: Reply): map<JobId, Job> {
    if j.id in stored && !write.Lost? then stored[j.id := j] else stored
  }

  /** Readings of the clock during one round, in the order in which they are taken. */
  datatype Times = Times(pop: Time, start: Time, running: Time, end: Time, stored: Time, removed: Time, pushed: Time)

  class Worker {
    const id: string
    var isActive: bool
    var jobCount: nat

    constructor (id: string)
      ensures this.id == id && !isActive && jobCount == 0
    {
      this.id := id;
      isActive, jobCount := false, 0;
    }
  }

  class Pool {
    const queue: RedisClient
    var stored: map<JobId, Job>

    constructor (queue: RedisClient)
      ensures this.queue == queue && stored == map[]
    {
      this.queue := queue;
      stored := map[];
    }

    /** A job that is not stored stays out, but its copy in the worker is stamped all the same. */
    method UpdateJob(j: Job, now: Time, write: Reply) returns (j': Job, done: bool)
      modifies this`stored
      ensures j' == j.(updatedAt := now) && (done <==> write.Done? && j.id in old(stored))
      ensures stored == if j.id in old(stored) && !write.Lost? then old(stored)[j.id := j'] else old(stored)
    {
      j' := j.(updatedAt := now);
      if j.id in stored && !write.Lost? {
        stored := stored[j.id := j'];
      }
      return j', write.Done? && j.id in stored;
    }

    /** What every ending of a round does: the record, if there is one, and the processing list. */
    twostate predicate Closed(e: Job, f: Faults)
      reads this, queue
    {
      && stored == (if e.id in old(stored) && !f.stored.Lost? then old(stored)[e.id := e] else old(stored))
      && queue.processing == (if f.removal.Lost? then old(queue.processing) else Without(old(queue.processing), e))
    }

    method HandleJobSuccess(j: Job, t: Times, f: Faults)
      requires queue.Valid()
      modifies this`stored, queue
      ensures queue.Valid()
      ensures var e := j.(status := Completed, completedAt := Some(t.end), updatedAt := t.stored);
        && Closed(e, f)
        && queue.completed ==
             (if f.removal.Done? && !f.write.Lost? then [e] + old(queue.completed) else old(queue.completed))
      ensures queue.ready == old(queue.ready) && queue.delayed == old(queue.delayed)
      ensures queue.failed == old(queue.failed)
    {
      var e := j.(status := Completed, completedAt := Some(t.end), updatedAt := t.end);
      var found, done;
      e, found := UpdateJob(e, t.stored, f.stored);
      done := queue.Complete(e, f.removal, f.write);
    }

    method HandleJobFailure(j: Job, message: string, t: Times, f: Faults)
      requires queue.Valid()
      modifies this`stored, queue
      ensures queue.Valid()
      ensures var e := j.(status := Failed, error := message, updatedAt := t.stored);
        && Closed(e, f)
        && queue.failed == (if f.removal.Done? && !f.write.Lost? then [e] + old(queue.failed) else old(queue.failed))
      ensures queue.ready == old(queue.ready) && queue.delayed == old(queue.delayed)
      ensures queue.completed == old(queue.completed)
    {
      var e := j.(status := Failed, error := message, updatedAt := t.end);
      var found, done;
      e, found := UpdateJob(e, t.stored, f.stored);
      done := queue.Fail(e, f.removal, f.write);
    }

    /** The attempt counts; below the maximum the job comes back after the delay, and at it the job fails. */
    method HandleJobError(j: Job, message: string, delay: Time, t: Times, f: Faults)
      requires queue.Valid()
      modifies this`stored, queue
      ensures queue.Valid() && queue.completed == old(queue.completed)
      ensures j.retryCount + 1 < j.maxRetries ==>
        var e := j.(error := message, retryCount := j.retryCount + 1, status := Retrying, updatedAt := t.stored);
        var again := e.(scheduledAt := t.removed + delay);
        && Closed(e, f) && queue.failed == old(queue.failed)
        && if !f.removal.Done? || f.write.Lost? then
             queue.ready == old(queue.ready) && queue.delayed == old(queue.delayed)
           else if t.removed + delay > t.pushed then
             queue.ready == old(queue.ready) && queue.delayed == ZAdd(old(queue.delayed), again)
           else queue.ready == [again] + old(queue.ready) && queue.delayed == old(queue.delayed)
      ensures j.retryCount + 1 >= j.maxRetries ==>
        var e := j.(error := message, retryCount := j.retryCount + 1, status := Failed, updatedAt := t.stored);
        && Closed(e, f) && queue.ready == old(queue.ready) && queue.delayed == old(queue.delayed)
        && queue.failed == (if f.removal.Done? && !f.write.Lost? then [e] + old(queue.failed) else old(queue.failed))
    {
      var e := j.(error := message, retryCount := j.retryCount + 1, updatedAt := t.end);
      if e.retryCount < e.maxRetries {
        e := e.(status := Retrying);
        var found, done;
        e, found := UpdateJob(e, t.stored, f.stored);
        done := queue.Retry(e, delay, t.removed, t.pushed, f.removal, f.write);
      } else {
        HandleJobFailure(e, message, t, f);
      }
    }

    /** The job once it is the worker's: recorded as running, processed, recorded again and handed on. */
    method Handle(j: Job, id: string, outcome: Outcome, delay: Time, t: Times, f: Faults)
      requires queue.Valid()
      modifies this`stored, queue
      ensures queue.Valid()
      ensures var running := j.(workerId := id, status := Running, startedAt := Some(t.start), updatedAt := t.running);
        var (e, where) := Ended(running, outcome, delay, t.end);
        && queue.Contents() ==
             Left(old(queue.Contents()), Stamped(e, t.stored), where, t.removed, t.pushed, f.removal, f.write)
        && stored == Recorded(Recorded(old(stored), running, f.running), Stamped(e, t.stored), f.stored)
    {
      var e := j.(workerId := id, status := Running, startedAt := Some(t.start), updatedAt := t.start);
      var found;
      e, found := UpdateJob(e, t.running, f.running);
      match outcome {
        case Missing =>
          HandleJobFailure(e, "No processor found for job type: " + e.kind, t, f);
        case Errs(message) =>
          HandleJobError(e, message, delay, t, f);
        case Succeeds =>
          HandleJobSuccess(e, t, f);
      }
    }

    /** One round of a worker. The worker is idle again at the end whatever happened, and it counts
        exactly the rounds in which it got a job. */
    method ProcessJob(w: Worker, outcome: Outcome, delay: Time, t: Times, f: Faults)
      requires queue.Valid() && !w.isActive
      modifies this`stored, queue, w
      ensures queue.Valid() && !w.isActive
      ensures var moved := MovedPart(old(queue.Contents()), t.pop, f.read, f.sent);
        var taken := TakenFrom(moved, f.pop, f.note);
        if moved.ready == [] || !f.pop.Done? then
          queue.Contents() == taken && stored == old(stored) && w.jobCount == old(w.jobCount)
        else
          var j := moved.ready[|moved.ready| - 1];
          var running := j.(workerId := w.id, status := Running, startedAt := Some(t.start), updatedAt := t.running);
          var (e, where) := Ended(running, outcome, delay, t.end);
          && w.jobCount == old(w.jobCount) + 1
          && queue.Contents() == Left(taken, Stamped(e, t.stored), where, t.removed, t.pushed, f.removal, f.write)
          && stored == Recorded(Recorded(old(stored), running, f.running), Stamped(e, t.stored), f.stored)
    {
      var popped, ok := queue.Pop(t.pop, f.read, f.sent, f.pop, f.note);
      ghost var moved := MovedPart(old(queue.Contents()), t.pop, f.read, f.sent);
      TakenFromExactly(moved, queue.Contents(), f.pop, f.note);
      if popped.None? {
        return;
      }
      w.isActive, w.jobCount := true, w.jobCount + 1;
      Handle(popped.value, w.id, outcome, delay, t, f);
      w.isActive := false;
    }
  }
}
