/** Where every entry of the queue comes from: the steps of the run that made it what it is. */
module JobHistory {
  import opened Wrappers
  import opened Jobs
  import opened RedisQueue
  import opened WorkerPool
  import opened JobSystem
  import Movers
  import NoLoss
  import QueueOrder

  /** Step `k` finishes a job in the hands of its worker. */
  predicate FinishAt(acts: seq<Action>, s: seq<System>, k: int)
    requires |s| == |acts| + 1
  {
    0 <= k < |acts| && acts[k].Finish? && acts[k].w < |s[k].workers| && s[k].workers[acts[k].w].Working?
  }

  /** The processor succeeded, and `e` is the completed job. */
  predicate CompletedAt(acts: seq<Action>, s: seq<System>, k: int, e: Job)
    requires |s| == |acts| + 1
  {
    && FinishAt(acts, s, k) && acts[k].outcome.Succeeds?
    && var j := s[k].workers[acts[k].w].job;
       e == j.(status := Completed, completedAt := Some(s[k].clock), updatedAt := s[k].clock)
  }

  /** No processor, or an error in the last attempt. */
  predicate FailedAt(acts: seq<Action>, s: seq<System>, k: int, e: Job)
    requires |s| == |acts| + 1
  {
    && FinishAt(acts, s, k)
    && var j, now := s[k].workers[acts[k].w].job, s[k].clock;
       match acts[k].outcome
       case Missing =>
         e == j.(status := Failed, error := "No processor found for job type: " + j.kind, updatedAt := now)
       case Errs(message) =>
         && j.retryCount + 1 >= j.maxRetries
         && e == j.(status := Failed, error := message, retryCount := j.retryCount + 1, updatedAt := now)
       case Succeeds => false
  }

  /** An error with attempts left. */
  predicate RetryingAt(acts: seq<Action>, s: seq<System>, k: int, e: Job)
    requires |s| == |acts| + 1
  {
    && FinishAt(acts, s, k) && acts[k].outcome.Errs?
    && var j := s[k].workers[acts[k].w].job;
       && j.retryCount + 1 < j.maxRetries
       && e == j.(status := Retrying, error := acts[k].outcome.message, retryCount := j.retryCount + 1,
                  updatedAt := s[k].clock)
  }

  /** Then its worker's removal, at step `r`, schedules it anew: after the delay, counted from there. */
  ghost predicate RetriedAt(acts: seq<Action>, s: seq<System>, k: int, r: int, e: Job)
    requires |s| == |acts| + 1
  {
    && k < r < |acts| && FinishAt(acts, s, k) && acts[r] == Remove(acts[k].w)
    && e.scheduledAt == s[r].clock + acts[k].delay
    && RetryingAt(acts, s, k, e.(scheduledAt := s[k].workers[acts[k].w].job.scheduledAt))
  }

  predicate SubmittedAt(acts: seq<Action>, k: int, e: Job) {
    0 <= k < |acts| && acts[k] == Submit(e)
  }

  /** As submitted, or as a retry, by a step before `i`. */
  ghost predicate Entered(acts: seq<Action>, s: seq<System>, i: int, e: Job)
    requires |s| == |acts| + 1
  {
    (exists k :: k < i && SubmittedAt(acts, k, e)) || exists k, r :: r < i && RetriedAt(acts, s, k, r, e)
  }

  /** An entry as its worker has recorded it when it began. */
  ghost predicate BegunAt(acts: seq<Action>, s: seq<System>, k: int, j: Job)
    requires |s| == |acts| + 1
  {
    && 0 <= k < |acts| && acts[k].Begin? && acts[k].w < |s[k].workers| && s[k].workers[acts[k].w].Noted?
    && var e := s[k].workers[acts[k].w].job;
       && Entered(acts, s, k, e)
       && j == e.(workerId := acts[k].name, status := Running, startedAt := Some(s[k].clock), updatedAt := s[k].clock)
  }

  /** What a worker holds before step `i`. */
  ghost predicate HandExplained(acts: seq<Action>, s: seq<System>, i: int, w: int, p: Phase)
    requires |s| == |acts| + 1
  {
    match p
    case Resting => true
    case Moving(due, _) => forall e :: e in due ==> Entered(acts, s, i, e)
    case Popped(e) => Entered(acts, s, i, e)
    case Noted(e) => Entered(acts, s, i, e)
    case Working(j) => exists k :: k < i && BegunAt(acts, s, k, j)
    case Closing(e, ToCompleted) => exists k :: k < i && CompletedAt(acts, s, k, e)
    case Closing(e, ToFailed) => exists k :: k < i && FailedAt(acts, s, k, e)
    case Closing(e, ToRetry(delay)) =>
      exists k :: k < i && RetryingAt(acts, s, k, e) && acts[k].w == w && acts[k].delay == delay
    case Leaving(e, ToCompleted) => exists k :: k < i && CompletedAt(acts, s, k, e)
    case Leaving(e, ToFailed) => exists k :: k < i && FailedAt(acts, s, k, e)
    case Leaving(e, ToRetry(_)) => exists k, r :: r < i && RetriedAt(acts, s, k, r, e)
  }

  ghost predicate Explained(acts: seq<Action>, s: seq<System>, i: nat)
    requires |s| == |acts| + 1 && i < |s|
  {
    && (forall e :: e in s[i].store.ready || e in s[i].store.delayed ==> Entered(acts, s, i, e))
    && (forall e :: e in s[i].store.completed ==> exists k :: k < i && CompletedAt(acts, s, k, e))
    && (forall e :: e in s[i].store.failed ==> exists k :: k < i && FailedAt(acts, s, k, e))
    && (forall w :: 0 <= w < |s[i].workers| ==> HandExplained(acts, s, i, w, s[i].workers[w]))
  }

  /** Explanations stay. */
  lemma Later(acts: seq<Action>, s: seq<System>, i: nat, w: int, p: Phase)
    requires |s| == |acts| + 1 && HandExplained(acts, s, i, w, p)
    ensures HandExplained(acts, s, i + 1, w, p)
  {
  }

  // ---- One step ---------------------------------------------------------------------------------

  /** What is ready was ready or delayed, or has been submitted, retried or moved just now. */
  lemma ReadySource(s: System, a: Action, e: Job)
    requires Enabled(s, a) && e in Apply(s, a).store.ready
    ensures || e in s.store.ready || e in s.store.delayed || a == Submit(e)
            || (a.Leave? && s.workers[a.w].ending.ToRetry? && s.workers[a.w].job == e)
            || (a.MoveOne? && e in s.workers[a.w].due)
  {
    match a {
      case MoveAll(_) =>
        DueMembers(s.store.delayed, s.clock);
        NoLoss.ReverseMembers(Due(s.store.delayed, s.clock));
      case Submit(_) =>
      case Leave(_) =>
      case MoveOne(_) =>
      case Take(_) =>
      case Finish(_, _, _) =>
      case _ =>
    }
  }

  lemma WaitingStep(acts: seq<Action>, s: seq<System>, i: nat, e: Job)
    requires |s| == |acts| + 1 && i < |acts| && StepAt(acts, s, i) && Explained(acts, s, i)
    requires e in s[i + 1].store.ready || e in s[i + 1].store.delayed
    ensures Entered(acts, s, i + 1, e)
  {
    var a := acts[i];
    if e in s[i + 1].store.ready {
      ReadySource(s[i], a, e);
    } else {
      Movers.DelayedSource(s[i], a, e);
    }
    if a == Submit(e) {
      assert SubmittedAt(acts, i, e);
    } else if a.Leave? || a.MoveOne? {
      assert HandExplained(acts, s, i, a.w, s[i].workers[a.w]);
    }
  }

  /** The finished lists grow by what leaves a worker's hands. */
  lemma EndedSource(s: System, a: Action)
    requires Enabled(s, a)
    ensures var t := Apply(s, a).store;
      && t.completed == (if a.Leave? && s.workers[a.w].ending.ToCompleted?
                         then [s.workers[a.w].job] + s.store.completed else s.store.completed)
      && t.failed == (if a.Leave? && s.workers[a.w].ending.ToFailed?
                      then [s.workers[a.w].job] + s.store.failed else s.store.failed)
  {
    match a
    case Submit(_) =>
    case Leave(_) =>
    case MoveOne(_) =>
    case Take(_) =>
    case Finish(_, _, _) =>
    case _ =>
  }

  lemma EndedStep(acts: seq<Action>, s: seq<System>, i: nat, e: Job)
    requires |s| == |acts| + 1 && i < |acts| && StepAt(acts, s, i) && Explained(acts, s, i)
    ensures e in s[i + 1].store.completed ==> exists k :: k < i + 1 && CompletedAt(acts, s, k, e)
    ensures e in s[i + 1].store.failed ==> exists k :: k < i + 1 && FailedAt(acts, s, k, e)
  {
    EndedSource(s[i], acts[i]);
    if acts[i].Leave? {
      assert HandExplained(acts, s, i, acts[i].w, s[i].workers[acts[i].w]);
    }
  }

  /** A worker's own mover, pop, note and begin. */
  lemma OpeningStep(acts: seq<Action>, s: seq<System>, i: nat)
    requires |s| == |acts| + 1 && i < |acts| && StepAt(acts, s, i) && Explained(acts, s, i)
    requires var a := acts[i]; a.ReadDue? || a.MoveOne? || a.MoveAll? || a.Take? || a.Note? || a.Begin?
    ensures var w := acts[i].w;
      w < |s[i + 1].workers| && HandExplained(acts, s, i + 1, w, s[i + 1].workers[w])
  {
    var a := acts[i];
    assert HandExplained(acts, s, i, a.w, s[i].workers[a.w]);
    match a {
      case ReadDue(_) => DueMembers(s[i].store.delayed, s[i].clock);
      case MoveOne(w) =>
        assert forall e :: e in s[i].workers[w].due[1..] ==> e in s[i].workers[w].due;
      case Take(_) =>
        assert forall n :: 0 <= n < |s[i].store.ready| ==> Entered(acts, s, i, s[i].store.ready[n]);
      case Begin(_, _) => assert BegunAt(acts, s, i, s[i + 1].workers[a.w].job);
      case _ =>
    }
  }

  lemma FinishStep(acts: seq<Action>, s: seq<System>, i: nat)
    requires |s| == |acts| + 1 && i < |acts| && StepAt(acts, s, i) && acts[i].Finish?
    ensures var w := acts[i].w;
      w < |s[i + 1].workers| && HandExplained(acts, s, i + 1, w, s[i + 1].workers[w])
  {
    var e := s[i + 1].workers[acts[i].w].job;
    match s[i + 1].workers[acts[i].w].ending
    case ToCompleted => assert CompletedAt(acts, s, i, e);
    case ToFailed => assert FailedAt(acts, s, i, e);
    case ToRetry(_) => assert RetryingAt(acts, s, i, e);
  }

  lemma RemoveStep(acts: seq<Action>, s: seq<System>, i: nat)
    requires |s| == |acts| + 1 && i < |acts| && StepAt(acts, s, i) && Explained(acts, s, i) && acts[i].Remove?
    ensures var w := acts[i].w;
      w < |s[i + 1].workers| && HandExplained(acts, s, i + 1, w, s[i + 1].workers[w])
  {
    var w := acts[i].w;
    var p := s[i].workers[w];
    assert HandExplained(acts, s, i, w, p);
    if p.ending.ToRetry? {
      var k :| k < i && RetryingAt(acts, s, k, p.job) && acts[k].w == w && acts[k].delay == p.ending.delay;
      var e := s[i + 1].workers[w].job;
      assert p.job == e.(scheduledAt := s[k].workers[w].job.scheduledAt);
      assert RetriedAt(acts, s, k, i, e);
    }
  }

  lemma HandStep(acts: seq<Action>, s: seq<System>, i: nat, w: nat)
    requires |s| == |acts| + 1 && i < |acts| && StepAt(acts, s, i) && Explained(acts, s, i) && w < |s[i + 1].workers|
    ensures HandExplained(acts, s, i + 1, w, s[i + 1].workers[w])
  {
    var a := acts[i];
    NoLoss.OriginGrows(s[i], a);
    assert HandExplained(acts, s, i, w, s[i].workers[w]);
    if a.Tick? || a.Submit? || a.w != w {
      NoLoss.Bystander(s[i], a, w);
      Later(acts, s, i, w, s[i].workers[w]);
    } else if a.Finish? {
      FinishStep(acts, s, i);
    } else if a.Remove? {
      RemoveStep(acts, s, i);
    } else if a.Leave? {
      NoLoss.LeaveFrame(s[i], w);
    } else if !a.Abandon? {
      OpeningStep(acts, s, i);
    }
  }

  lemma ExplainedStep(acts: seq<Action>, s: seq<System>, i: nat)
    requires |s| == |acts| + 1 && i < |acts| && StepAt(acts, s, i) && Explained(acts, s, i)
    ensures Explained(acts, s, i + 1)
  {
    var t := s[i + 1];
    forall e | e in t.store.ready || e in t.store.delayed ensures Entered(acts, s, i + 1, e) {
      WaitingStep(acts, s, i, e);
    }
    forall e | e in t.store.completed || e in t.store.failed
      ensures e in t.store.completed ==> exists k :: k < i + 1 && CompletedAt(acts, s, k, e)
      ensures e in t.store.failed ==> exists k :: k < i + 1 && FailedAt(acts, s, k, e)
    {
      EndedStep(acts, s, i, e);
    }
    forall w | 0 <= w < |t.workers| ensures HandExplained(acts, s, i + 1, w, t.workers[w]) {
      HandStep(acts, s, i, w);
    }
  }

  /** On every run, whatever interleaves, fails or is repeated: what waits is as submitted or as a retry made
      it, what a worker holds follows from that, a completed job comes from a processor that succeeded, and a
      failed one from a missing processor or an error in the last attempt. */
  lemma {:induction false} EveryEntryIsExplained(acts: seq<Action>, s: seq<System>, i: nat)
    requires IsRun(acts, s) && i < |s|
    ensures Explained(acts, s, i)
  {
    if i > 0 {
      EveryEntryIsExplained(acts, s, i - 1);
      assert StepAt(acts, s, i - 1);
      ExplainedStep(acts, s, i - 1);
    }
  }

  // ---- Retries wait -----------------------------------------------------------------------------

  lemma {:induction false} ClockOrder(acts: seq<Action>, s: seq<System>, i: nat, k: nat)
    requires IsRun(acts, s) && i <= k < |s|
    ensures s[i].clock <= s[k].clock
    decreases k - i
  {
    if i < k {
      ClockOrder(acts, s, i, k - 1);
      assert StepAt(acts, s, k - 1);
      QueueOrder.ClockGrows(s[k - 1], acts[k - 1]);
    }
  }

  /** A job handed to a worker was submitted as it is, or an attempt of it failed at some step `k` and, up to
      the second that the mover's window opens early, the delay after that failure is over. */
  lemma RetriesWait(acts: seq<Action>, s: seq<System>, i: nat)
    requires IsRun(acts, s) && i < |acts| && acts[i].Take? && s[i].store.ready != []
    ensures |s[i + 1].taken| == |s[i].taken| + 1
    ensures var e := s[i + 1].taken[|s[i].taken|];
      || (exists k :: k < i && SubmittedAt(acts, k, e))
      || exists k, r :: r < i && RetriedAt(acts, s, k, r, e) && s[i].clock > s[k].clock + acts[k].delay - SECOND
  {
    QueueOrder.JobsAreNotEarly(acts, s, i);
    EveryEntryIsExplained(acts, s, i);
    assert StepAt(acts, s, i);
    var e := s[i + 1].taken[|s[i].taken|];
    assert e in s[i].store.ready;
    if !exists k :: k < i && SubmittedAt(acts, k, e) {
      var k, r :| r < i && RetriedAt(acts, s, k, r, e);
      ClockOrder(acts, s, k, r);
    }
  }
}
