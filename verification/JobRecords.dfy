/** As long as no push repeats an earlier one, the database record of a job fits the place the job is in. */
module JobRecords {
  import opened Jobs
  import opened WorkerPool
  import opened JobSystem
  import opened JobSums
  import opened Movers
  import opened ExactlyOnce
  import NoLoss

  /** What the system knows of one job: as submitted, as stored, and how often processed. */
  datatype Record = Record(origin: Job, stored: Job, attempts: nat)

  predicate Known(s: System, id: JobId) {
    id in s.origin && id in s.stored && id in s.attempts
  }

  function Rec(s: System, id: JobId): Record
    requires Known(s, id)
  {
    Record(s.origin[id], s.stored[id], s.attempts[id])
  }

  /** A job that waits is stored as it is, up to its schedule; a first attempt is as submitted, a
      later one is stored as retrying and has attempts left. */
  predicate FitsWaiting(r: Record, e: Job) {
    && r.stored.(scheduledAt := e.scheduledAt) == e
    && e.maxRetries == r.origin.maxRetries
    && e.retryCount == r.origin.retryCount + r.attempts
    && (if r.attempts == 0 then e == r.origin else e.status == Retrying && e.retryCount < e.maxRetries)
  }

  predicate FitsEnded(r: Record, j: Job, ending: Ending) {
    match ending
    case ToCompleted => j == r.stored && j.status == Completed
    case ToFailed => j == r.stored && j.status == Failed
    case ToRetry(_) => FitsWaiting(r, j) && 0 < r.attempts
  }

  predicate FitsHand(r: Record, p: Phase)
    requires InHand(p)
  {
    match p
    case Popped(j) => FitsWaiting(r, j)
    case Noted(j) => FitsWaiting(r, j)
    case Working(j) =>
      && j == r.stored && j.status == Running && 0 < r.attempts
      && j.maxRetries == r.origin.maxRetries && j.retryCount == r.origin.retryCount + r.attempts - 1
    case Closing(j, ending) => FitsEnded(r, j, ending) && (ending.ToRetry? ==> j == r.stored)
    case Leaving(j, ending) => FitsEnded(r, j, ending)
  }

  predicate WaitingOk(s: System, e: Job) {
    Known(s, e.id) && FitsWaiting(Rec(s, e.id), e)
  }

  predicate HandOk(s: System, p: Phase) {
    InHand(p) ==> Known(s, p.job.id) && FitsHand(Rec(s, p.job.id), p)
  }

  predicate DoneOk(s: System, e: Job, status: Status) {
    Known(s, e.id) && e == s.stored[e.id] && e.status == status
  }

  /** Where a waiting job is found; a delayed entry that has been pushed no longer counts. */
  predicate Waits(s: System, e: Job) {
    e in s.store.ready || (e in s.store.delayed && e !in s.pushed)
  }

  ghost predicate Consistent(s: System) {
    && Exact(s)
    && (forall e :: Waits(s, e) ==> WaitingOk(s, e))
    && (forall w :: 0 <= w < |s.workers| ==> HandOk(s, s.workers[w]))
    && (forall e :: e in s.store.completed ==> DoneOk(s, e, Completed))
    && (forall e :: e in s.store.failed ==> DoneOk(s, e, Failed))
    && (forall id :: id in s.origin ==> Known(s, id))
  }

  /** The job whose record a step rewrites. */
  predicate Rewrites(s: System, a: Action, id: JobId)
    requires Enabled(s, a)
  {
    match a
    case Submit(j) => j.id == id
    case Begin(w, _) => s.workers[w].job.id == id
    case Finish(w, _, _) => s.workers[w].job.id == id
    case _ => false
  }

  lemma RecordKeeps(s: System, a: Action, id: JobId)
    requires Enabled(s, a) && Known(s, id) && !Rewrites(s, a, id)
    ensures Known(Apply(s, a), id) && Rec(Apply(s, a), id) == Rec(s, id)
  {
    if a.Leave? {
      LeaveKeepsRecords(s, a.w);
    } else {
      match a
      case MoveOne(_) =>
      case Take(_) =>
      case Finish(_, _, _) =>
      case Begin(_, _) =>
      case Submit(_) =>
      case _ =>
    }
  }

  lemma LeaveKeepsRecords(s: System, w: nat)
    requires Enabled(s, Leave(w))
    ensures var t := Apply(s, Leave(w)); t.origin == s.origin && t.stored == s.stored && t.attempts == s.attempts
  {
    if s.workers[w].ending.ToRetry? {
      RetryState(s, w);
    }
  }

  /** A job in a list is not the one a step rewrites: that one is in hand, or new. */
  lemma ListedIsNotRewritten(s: System, a: Action, e: Job)
    requires Consistent(s) && Enabled(s, a) && Known(s, e.id)
    requires Waits(s, e) || e in s.store.completed || e in s.store.failed
    ensures !Rewrites(s, a, e.id)
  {
    if a.Begin? || a.Finish? {
      HandIsAlone(s, a.w);
    }
  }

  lemma OtherHandIsNotRewritten(s: System, a: Action, w: nat)
    requires Consistent(s) && Enabled(s, a) && w < |s.workers| && InHand(s.workers[w])
    requires a.Tick? || a.Submit? || a.w != w
    ensures !Rewrites(s, a, s.workers[w].job.id)
  {
    assert HandOk(s, s.workers[w]);
    if a.Begin? || a.Finish? {
      HandIsAlone(s, a.w);
    }
  }

  /** A worker's own step keeps the record of its job in order. */
  lemma OwnHandOk(s: System, a: Action)
    requires Enabled(s, a) && (a.Note? || a.Begin? || a.Finish? || a.Remove?)
    requires HandOk(s, s.workers[a.w])
    ensures var t := Apply(s, a); |t.workers| == |s.workers| && HandOk(t, t.workers[a.w])
    ensures Known(Apply(s, a), s.workers[a.w].job.id)
  {
    if a.Finish? {
      FinishOk(s, a.w, a.outcome, a.delay);
    } else {
      match a
      case Note(_) =>
      case Begin(_, _) =>
      case Remove(_) =>
    }
  }

  lemma FinishOk(s: System, w: nat, outcome: Outcome, delay: Time)
    requires Enabled(s, Finish(w, outcome, delay)) && HandOk(s, s.workers[w])
    ensures var t := Apply(s, Finish(w, outcome, delay));
      |t.workers| == |s.workers| && HandOk(t, t.workers[w]) && Known(t, s.workers[w].job.id)
  {
    match outcome
    case Missing =>
    case Succeeds =>
    case Errs(_) =>
  }

  lemma HandOkStep(s: System, a: Action, w: nat)
    requires Consistent(s) && Enabled(s, a) && Reliable(a) && w < |s.workers|
    ensures |Apply(s, a).workers| == |s.workers| && HandOk(Apply(s, a), Apply(s, a).workers[w])
  {
    NoLoss.OriginGrows(s, a);
    var t := Apply(s, a);
    assert HandOk(s, s.workers[w]);
    if a.Tick? || a.Submit? || a.w != w {
      NoLoss.Bystander(s, a, w);
      if InHand(s.workers[w]) {
        OtherHandIsNotRewritten(s, a, w);
        RecordKeeps(s, a, s.workers[w].job.id);
      }
    } else if a.Note? || a.Begin? || a.Finish? || a.Remove? {
      OwnHandOk(s, a);
    } else {
      OwnJob(s, a);
      if a.Leave? || a.MoveOne? {
        NotInHand(s, a);
      } else if a.Take? && s.store.ready != [] {
        var j := s.store.ready[|s.store.ready| - 1];
        assert Waits(s, j);
        RecordKeeps(s, a, j.id);
      }
    }
  }

  /** Every waiting job was waiting before, or was just submitted, or is a retry. */
  lemma WaitingSource(s: System, a: Action, e: Job)
    requires Exact(s) && Enabled(s, a) && Fresh(s, a) && Waits(Apply(s, a), e)
    ensures Waits(s, e) || (a.Submit? && e == a.j) || (a.Leave? && Retries(s.workers[a.w]) && e == s.workers[a.w].job)
  {
    PushedSource(s, a);
    if e in Apply(s, a).store.ready {
      ReadySourceOf(s, a, e);
      if e !in s.store.ready && (a.MoveOne? || a.MoveAll?) {
        FreshPush(s, a, e);
      }
    } else {
      DelayedSource(s, a, e);
    }
  }

  lemma WaitingOkStep(s: System, a: Action, e: Job)
    requires Consistent(s) && Enabled(s, a) && Reliable(a) && Fresh(s, a) && Waits(Apply(s, a), e)
    ensures WaitingOk(Apply(s, a), e)
  {
    WaitingSource(s, a, e);
    if Waits(s, e) {
      assert WaitingOk(s, e);
      ListedIsNotRewritten(s, a, e);
      RecordKeeps(s, a, e.id);
    } else if a.Leave? {
      assert HandOk(s, s.workers[a.w]);
      RecordKeeps(s, a, e.id);
    }
  }

  lemma DoneSource(s: System, a: Action, e: Job)
    requires Enabled(s, a)
    ensures e in Apply(s, a).store.completed ==>
      e in s.store.completed || (a.Leave? && s.workers[a.w].ending == ToCompleted && e == s.workers[a.w].job)
    ensures e in Apply(s, a).store.failed ==>
      e in s.store.failed || (a.Leave? && s.workers[a.w].ending == ToFailed && e == s.workers[a.w].job)
  {
    if a.Leave? && s.workers[a.w].ending.ToRetry? {
      RetryState(s, a.w);
    } else {
      match a
      case Leave(_) =>
      case Take(_) =>
      case MoveOne(_) =>
      case _ =>
    }
  }

  lemma StaysDone(s: System, a: Action, e: Job, status: Status)
    requires Consistent(s) && Enabled(s, a) && (e in s.store.completed || e in s.store.failed) && DoneOk(s, e, status)
    ensures DoneOk(Apply(s, a), e, status)
  {
    ListedIsNotRewritten(s, a, e);
    RecordKeeps(s, a, e.id);
  }

  lemma LeavesDone(s: System, w: nat)
    requires Consistent(s) && Enabled(s, Leave(w))
    ensures s.workers[w].ending == ToCompleted ==> DoneOk(Apply(s, Leave(w)), s.workers[w].job, Completed)
    ensures s.workers[w].ending == ToFailed ==> DoneOk(Apply(s, Leave(w)), s.workers[w].job, Failed)
  {
    assert HandOk(s, s.workers[w]);
    RecordKeeps(s, Leave(w), s.workers[w].job.id);
  }

  lemma DoneOkStep(s: System, a: Action, e: Job)
    requires Consistent(s) && Enabled(s, a) && Reliable(a)
    ensures e in Apply(s, a).store.completed ==> DoneOk(Apply(s, a), e, Completed)
    ensures e in Apply(s, a).store.failed ==> DoneOk(Apply(s, a), e, Failed)
  {
    DoneSource(s, a, e);
    if e in s.store.completed {
      StaysDone(s, a, e, Completed);
    }
    if e in s.store.failed {
      StaysDone(s, a, e, Failed);
    }
    if a.Leave? {
      LeavesDone(s, a.w);
    }
  }

  lemma KnownStep(s: System, a: Action, id: JobId)
    requires Consistent(s) && Enabled(s, a) && id in Apply(s, a).origin
    ensures Known(Apply(s, a), id)
  {
    NoLoss.OriginGrows(s, a);
    if id in s.origin {
      if Rewrites(s, a, id) {
        assert HandOk(s, s.workers[a.w]);
        OwnHandOk(s, a);
      } else {
        RecordKeeps(s, a, id);
      }
    }
  }

  lemma ConsistentStep(s: System, a: Action)
    requires Consistent(s) && Enabled(s, a) && Reliable(a) && Fresh(s, a)
    ensures Consistent(Apply(s, a))
  {
    var t := Apply(s, a);
    ExactStep(s, a);
    NoLoss.OriginGrows(s, a);
    forall e | Waits(t, e) ensures WaitingOk(t, e) {
      WaitingOkStep(s, a, e);
    }
    forall w: nat | w < |t.workers| ensures HandOk(t, t.workers[w]) {
      HandOkStep(s, a, w);
    }
    forall e ensures e in t.store.completed ==> DoneOk(t, e, Completed)
             ensures e in t.store.failed ==> DoneOk(t, e, Failed)
    {
      DoneOkStep(s, a, e);
    }
    forall id | id in t.origin ensures Known(t, id) {
      KnownStep(s, a, id);
    }
  }

  lemma InitialIsConsistent(s: System)
    requires Initial(s) && Exact(s)
    ensures Consistent(s)
  {
  }

  lemma {:induction false} ConsistentAt(acts: seq<Action>, s: seq<System>, i: nat)
    requires IsRun(acts, s) && i < |s| && FreshRun(acts, s, i)
    ensures Consistent(s[i])
  {
    if i == 0 {
      ExactAt(acts, s, 0);
      InitialIsConsistent(s[0]);
    } else {
      ConsistentAt(acts, s, i - 1);
      assert StepAt(acts, s, i - 1);
      ConsistentStep(s[i - 1], acts[i - 1]);
    }
  }

  function StatusFor(e: Ending): Status {
    match e
    case ToCompleted => Completed
    case ToFailed => Failed
    case ToRetry(_) => Retrying
  }

  /** The record of a finished job, and of one in the last steps of its round. */
  lemma ClosingRecords(s: System, w: nat)
    requires Consistent(s) && w < |s.workers| && (s.workers[w].Closing? || s.workers[w].Leaving?)
    ensures var p := s.workers[w];
      && p.job.id in s.stored && s.stored[p.job.id].(scheduledAt := p.job.scheduledAt) == p.job
      && p.job.status == StatusFor(p.ending)
  {
    assert HandOk(s, s.workers[w]);
  }

  lemma OpenRecords(s: System, e: Job)
    requires Consistent(s)
    ensures Waits(s, e) || Popped(e) in s.workers || Noted(e) in s.workers ==>
      && e.id in s.origin && e.id in s.stored && s.stored[e.id].(scheduledAt := e.scheduledAt) == e
      && (e == s.origin[e.id] || e.status == Retrying)
    ensures Working(e) in s.workers ==> e.id in s.stored && s.stored[e.id] == e && e.status == Running
  {
    forall w | 0 <= w < |s.workers| ensures HandOk(s, s.workers[w]) {
    }
  }

  /** The stored record of a job tells where it is: its status names the place, and it equals the queued
      job itself, up to the schedule of one that waits. */
  lemma StoredStatusMatchesPlace(acts: seq<Action>, s: seq<System>, i: nat, e: Job)
    requires IsRun(acts, s) && i < |s| && FreshRun(acts, s, i)
    ensures e in s[i].store.completed ==> e.id in s[i].stored && s[i].stored[e.id] == e && e.status == Completed
    ensures e in s[i].store.failed ==> e.id in s[i].stored && s[i].stored[e.id] == e && e.status == Failed
    ensures Waits(s[i], e) || Popped(e) in s[i].workers || Noted(e) in s[i].workers ==>
      && e.id in s[i].origin && e.id in s[i].stored && s[i].stored[e.id].(scheduledAt := e.scheduledAt) == e
      && (e == s[i].origin[e.id] || e.status == Retrying)
    ensures Working(e) in s[i].workers ==> e.id in s[i].stored && s[i].stored[e.id] == e && e.status == Running
    ensures forall w :: 0 <= w < |s[i].workers| && (s[i].workers[w].Closing? || s[i].workers[w].Leaving?) ==>
      var p := s[i].workers[w];
      && p.job.id in s[i].stored && s[i].stored[p.job.id].(scheduledAt := p.job.scheduledAt) == p.job
      && p.job.status == StatusFor(p.ending)
  {
    ConsistentAt(acts, s, i);
    OpenRecords(s[i], e);
    var t := s[i];
    forall w | 0 <= w < |t.workers| && (t.workers[w].Closing? || t.workers[w].Leaving?)
      ensures var p := t.workers[w];
        && p.job.id in t.stored && t.stored[p.job.id].(scheduledAt := p.job.scheduledAt) == p.job
        && p.job.status == StatusFor(p.ending)
    {
      ClosingRecords(t, w);
    }
  }
}
