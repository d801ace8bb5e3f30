/** No job is lost while workers interleave single Redis commands, stale mover snapshots included. */
module NoLoss {
  import opened Jobs
  import opened RedisQueue
  import opened JobSystem

  predicate Holds(s: System, w: nat, id: JobId) {
    w < |s.workers| && InHand(s.workers[w]) && s.workers[w].job.id == id
  }

  /** The job is ready, delayed, in some worker's hand, completed or failed. */
  ghost predicate Present(s: System, id: JobId) {
    || HasId(s.store.ready, id) || HasId(s.store.delayed, id)
    || HasId(s.store.completed, id) || HasId(s.store.failed, id)
    || exists w :: Holds(s, w, id)
  }

  /** A worker whose job will be back, if at all, with more than `rc` retries. */
  predicate Outgrows(p: Phase, x: Job) {
    && InHand(p) && p.job.id == x.id && p.job.retryCount >= x.retryCount
    && ((p.Closing? || p.Leaving?) && p.ending.ToRetry? ==> p.job.retryCount > x.retryCount)
  }

  predicate HandShadow(s: System, w: nat, x: Job) {
    w < |s.workers| && Outgrows(s.workers[w], x)
  }

  ghost predicate Ready(s: seq<Job>, x: Job) {
    exists e :: e in s && e.id == x.id && e.retryCount >= x.retryCount
  }

  ghost predicate Later(s: seq<Job>, x: Job) {
    exists e :: e in s && e.id == x.id && e.retryCount > x.retryCount
  }

  /** The sorted set may lose `x`: the job lives on elsewhere, or there as a later attempt. */
  ghost predicate Shadow(s: System, x: Job) {
    || Ready(s.store.ready, x) || Later(s.store.delayed, x)
    || HasId(s.store.completed, x.id) || HasId(s.store.failed, x.id)
    || exists w :: HandShadow(s, w, x)
  }

  ghost predicate Covered(s: System, w: nat)
    requires w < |s.workers|
  {
    var p := s.workers[w];
    p.Moving? && p.due != [] && p.dropNext ==> Shadow(s, p.due[0])
  }

  ghost predicate Safe(s: System) {
    && |s.workers| == |s.counts|
    && (forall w :: 0 <= w < |s.workers| ==> Covered(s, w))
    && (forall id :: id in s.origin ==> Present(s, id))
  }

  /** A worker that does not act keeps what it holds. */
  lemma Bystander(s: System, a: Action, w: nat)
    requires Enabled(s, a) && w < |s.workers| && (a.Tick? || a.Submit? || a.w != w)
    ensures |Apply(s, a).workers| == |s.workers| && Apply(s, a).workers[w] == s.workers[w]
  {
    match a
    case Tick(_) =>
    case Submit(_) =>
    case MoveOne(_) => SplitStepFrame(s, a);
    case Take(_) => SplitStepFrame(s, a);
    case Leave(v) => LeaveFrame(s, v);
    case Finish(_, _, _) =>
    case _ =>
  }

  /** The lists a step can only extend. */
  lemma ListsKeep(s: System, a: Action)
    requires Enabled(s, a)
    ensures forall e :: e in s.store.completed ==> e in Apply(s, a).store.completed
    ensures forall e :: e in s.store.failed ==> e in Apply(s, a).store.failed
    ensures !a.Take? ==> forall e :: e in s.store.ready ==> e in Apply(s, a).store.ready
  {
    if a.Leave? {
      LeaveExtends(s, a.w);
    } else if a.MoveOne? || a.Take? {
      MovesReady(s, a);
    }
  }

  lemma LeaveExtends(s: System, w: nat)
    requires Enabled(s, Leave(w))
    ensures var t := Apply(s, Leave(w)).store;
      && (t.completed == s.store.completed || t.completed == [s.workers[w].job] + s.store.completed)
      && (t.failed == s.store.failed || t.failed == [s.workers[w].job] + s.store.failed)
      && (t.ready == s.store.ready || t.ready == [s.workers[w].job] + s.store.ready)
  {
    if s.workers[w].ending.ToRetry? {
      assert Apply(s, Leave(w)).store == Pushed(s.store, s.workers[w].job, s.clock);
    }
  }

  lemma MovesReady(s: System, a: Action)
    requires Enabled(s, a) && (a.MoveOne? || a.Take?)
    ensures var t := Apply(s, a).store;
      && t.completed == s.store.completed && t.failed == s.store.failed
      && (a.MoveOne? ==> t.ready == s.store.ready || t.ready == [s.workers[a.w].due[0]] + s.store.ready)
  {
    match a
    case MoveOne(_) =>
    case Take(_) =>
  }

  /** Only the mover takes entries out of the sorted set. */
  lemma DelayedKeeps(s: System, a: Action)
    requires Enabled(s, a)
    requires !a.MoveAll? && (a.MoveOne? ==> !s.workers[a.w].dropNext)
    ensures forall e :: e in s.store.delayed ==> e in Apply(s, a).store.delayed
  {
    match a {
      case Submit(j) => InsertMembers(s.store.delayed, j);
      case Leave(w) => InsertMembers(s.store.delayed, s.workers[w].job);
      case _ =>
    }
  }

  lemma LaterStep(s: System, a: Action, x: Job, e: Job)
    requires Enabled(s, a) && e in s.store.delayed && e.id == x.id && e.retryCount > x.retryCount
    requires a.MoveOne? && s.workers[a.w].dropNext ==> s.workers[a.w].due[0] != e
    ensures Shadow(Apply(s, a), x)
  {
    var t := Apply(s, a);
    if a.MoveAll? {
      DueMembers(s.store.delayed, s.clock);
      ReverseMembers(Due(s.store.delayed, s.clock));
      if IsDue(e, s.clock) {
        assert e in t.store.ready;
      } else {
        assert e in t.store.delayed;
      }
    } else if a.MoveOne? && s.workers[a.w].dropNext {
      WithoutMembers(s.store.delayed, s.workers[a.w].due[0]);
      assert e in t.store.delayed;
    } else {
      DelayedKeeps(s, a);
      assert e in t.store.delayed;
    }
  }

  lemma {:induction false} ReverseMembers(z: seq<Job>)
    ensures forall e :: e in Reverse(z) <==> e in z
  {
    if z != [] {
      ReverseMembers(z[1..]);
      assert z == [z[0]] + z[1..];
    }
  }

  /** A job in hand either stays there or reaches a list with the retry count it must have. */
  lemma HandStep(s: System, a: Action, x: Job, w: nat)
    requires Enabled(s, a) && Reliable(a) && HandShadow(s, w, x)
    ensures Shadow(Apply(s, a), x)
  {
    var t := Apply(s, a);
    if a.Tick? || a.Submit? || a.w != w {
      Bystander(s, a, w);
      assert HandShadow(t, w, x);
    } else {
      match a {
        case Leave(_) =>
          var j := s.workers[w].job;
          InsertMembers(s.store.delayed, j);
          assert j in t.store.completed || j in t.store.failed || j in t.store.ready || j in t.store.delayed;
        case Note(_) => assert HandShadow(t, w, x);
        case Begin(_, _) => assert HandShadow(t, w, x);
        case Finish(_, _, _) => assert HandShadow(t, w, x);
        case Remove(_) => assert HandShadow(t, w, x);
      }
    }
  }

  lemma ReadyStep(s: System, a: Action, x: Job, e: Job)
    requires Enabled(s, a) && e in s.store.ready && e.id == x.id && e.retryCount >= x.retryCount
    ensures Shadow(Apply(s, a), x)
  {
    var t := Apply(s, a);
    ListsKeep(s, a);
    if a.Take? {
      var n := |s.store.ready|;
      assert s.store.ready == s.store.ready[..n - 1] + [s.store.ready[n - 1]];
      if e in s.store.ready[..n - 1] {
        assert e in t.store.ready;
      } else {
        assert HandShadow(t, a.w, x);
      }
    } else {
      assert e in t.store.ready;
    }
  }

  /** Whatever witnesses `x`, except perhaps the very entry that a mover drops. */
  lemma WitnessStep(s: System, a: Action, x: Job)
    requires Enabled(s, a) && Reliable(a) && Shadow(s, x)
    requires a.MoveOne? && s.workers[a.w].dropNext ==> s.workers[a.w].due[0].retryCount <= x.retryCount
    ensures Shadow(Apply(s, a), x)
  {
    ListsKeep(s, a);
    if e :| e in s.store.ready && e.id == x.id && e.retryCount >= x.retryCount {
      ReadyStep(s, a, x, e);
    } else if e :| e in s.store.delayed && e.id == x.id && e.retryCount > x.retryCount {
      LaterStep(s, a, x, e);
    } else if w: nat :| HandShadow(s, w, x) {
      HandStep(s, a, x, w);
    } else if e :| e in s.store.completed && e.id == x.id {
      assert e in Apply(s, a).store.completed;
    } else {
      var e :| e in s.store.failed && e.id == x.id;
      assert e in Apply(s, a).store.failed;
    }
  }

  /** Dropping `y` from the sorted set costs `x` nothing: what stands for `y` stands for `x`. */
  lemma ShadowStep(s: System, a: Action, x: Job)
    requires Enabled(s, a) && Reliable(a) && Shadow(s, x)
    requires a.MoveOne? ==> Covered(s, a.w)
    ensures Shadow(Apply(s, a), x)
  {
    if a.MoveOne? && s.workers[a.w].dropNext {
      var y := s.workers[a.w].due[0];
      if e :| e in s.store.delayed && e.id == x.id && e.retryCount > x.retryCount {
        if e == y {
          WitnessStep(s, a, y);
          ShadowWeakens(Apply(s, a), y, x);
        } else {
          LaterStep(s, a, x, e);
        }
      } else {
        NotDelayedStep(s, a, x);
      }
    } else {
      WitnessStep(s, a, x);
    }
  }

  lemma NotDelayedStep(s: System, a: Action, x: Job)
    requires Enabled(s, a) && Reliable(a) && Shadow(s, x) && !Later(s.store.delayed, x)
    ensures Shadow(Apply(s, a), x)
  {
    ListsKeep(s, a);
    if e :| e in s.store.ready && e.id == x.id && e.retryCount >= x.retryCount {
      ReadyStep(s, a, x, e);
    } else if w: nat :| HandShadow(s, w, x) {
      HandStep(s, a, x, w);
    } else if e :| e in s.store.completed && e.id == x.id {
      assert e in Apply(s, a).store.completed;
    } else {
      var e :| e in s.store.failed && e.id == x.id;
      assert e in Apply(s, a).store.failed;
    }
  }

  lemma ShadowWeakens(s: System, y: Job, x: Job)
    requires Shadow(s, y) && y.id == x.id && x.retryCount < y.retryCount
    ensures Shadow(s, x)
  {
    if w: nat :| HandShadow(s, w, y) {
      assert HandShadow(s, w, x);
    }
  }

  /** A job is present exactly when it casts the shadow of some earlier attempt. */
  lemma PresentHasShadow(s: System, id: JobId) returns (x: Job)
    requires Present(s, id)
    ensures x.id == id && Shadow(s, x)
  {
    if e :| e in s.store.ready && e.id == id {
      return e;
    } else if e :| e in s.store.delayed && e.id == id {
      return e.(retryCount := e.retryCount - 1);
    } else if e :| e in s.store.completed && e.id == id {
      return e;
    } else if e :| e in s.store.failed && e.id == id {
      return e;
    } else {
      var w: nat :| Holds(s, w, id);
      x := s.workers[w].job.(retryCount := s.workers[w].job.retryCount - 1);
      assert HandShadow(s, w, x);
    }
  }

  lemma ShadowIsPresent(s: System, x: Job)
    requires Shadow(s, x)
    ensures Present(s, x.id)
  {
    if w: nat :| HandShadow(s, w, x) {
      assert Holds(s, w, x.id);
    }
  }

  lemma SubmittedIsPresent(s: System, j: Job)
    requires Enabled(s, Submit(j))
    ensures Present(Apply(s, Submit(j)), j.id)
  {
    InsertMembers(s.store.delayed, j);
    var t := Apply(s, Submit(j));
    assert j in t.store.ready || j in t.store.delayed;
  }

  lemma CoveredStep(s: System, a: Action, w: nat)
    requires Safe(s) && Enabled(s, a) && Reliable(a) && w < |s.workers|
    ensures w < |Apply(s, a).workers| && Covered(Apply(s, a), w)
  {
    var t := Apply(s, a);
    assert Covered(s, w);
    if a.Tick? || a.Submit? || a.w != w {
      Bystander(s, a, w);
      var p := s.workers[w];
      if p.Moving? && p.due != [] && p.dropNext {
        assert a.MoveOne? ==> Covered(s, a.w);
        ShadowStep(s, a, p.due[0]);
      }
    } else if a.MoveOne? && !s.workers[w].dropNext {
      assert s.workers[w].due[0] in t.store.ready;
    } else {
      OwnPhase(s, a);
    }
  }

  lemma OwnPhase(s: System, a: Action)
    requires Enabled(s, a) && !a.Tick? && !a.Submit? && (a.MoveOne? ==> s.workers[a.w].dropNext)
    ensures |Apply(s, a).workers| == |s.workers|
    ensures Apply(s, a).workers[a.w].Moving? ==> !Apply(s, a).workers[a.w].dropNext
  {
    match a
    case MoveOne(_) =>
    case Take(_) =>
    case Leave(_) =>
    case Finish(_, _, _) =>
    case _ =>
  }

  lemma PresentStep(s: System, a: Action, id: JobId)
    requires Safe(s) && Enabled(s, a) && Reliable(a) && id in Apply(s, a).origin
    ensures Present(Apply(s, a), id)
  {
    if a.Submit? && a.j.id == id {
      SubmittedIsPresent(s, a.j);
    } else {
      OriginGrows(s, a);
      var x := PresentHasShadow(s, id);
      assert a.MoveOne? ==> Covered(s, a.w);
      ShadowStep(s, a, x);
      ShadowIsPresent(Apply(s, a), x);
    }
  }

  lemma OriginGrows(s: System, a: Action)
    requires Enabled(s, a)
    ensures Apply(s, a).origin == if a.Submit? then s.origin[a.j.id := a.j] else s.origin
    ensures |Apply(s, a).workers| == |s.workers| && |Apply(s, a).counts| == |s.counts|
  {
    if a.Leave? {
      LeaveFrame(s, a.w);
    } else if a.MoveOne? || a.Take? {
      SplitStepFrame(s, a);
    } else if a.Begin? || a.Finish? || a.Remove? {
      HandStepFrame(s, a);
    }
  }

  lemma LeaveFrame(s: System, w: nat)
    requires Enabled(s, Leave(w))
    ensures var t := Apply(s, Leave(w));
      t.workers == s.workers[w := Resting] && t.origin == s.origin && t.counts == s.counts
  {
    if s.workers[w].ending.ToRetry? {
      assert Apply(s, Leave(w)) == Queued(With(s, w, Resting), s.workers[w].job).(retries := s.retries + 1);
    }
  }

  lemma SplitStepFrame(s: System, a: Action)
    requires Enabled(s, a) && (a.MoveOne? || a.Take?)
    ensures var t := Apply(s, a);
      t.workers == s.workers[a.w := t.workers[a.w]] && t.origin == s.origin && t.counts == s.counts
  {
    match a
    case MoveOne(_) =>
    case Take(_) =>
  }

  lemma HandStepFrame(s: System, a: Action)
    requires Enabled(s, a) && (a.Begin? || a.Finish? || a.Remove?)
    ensures var t := Apply(s, a);
      t.origin == s.origin && |t.workers| == |s.workers| && |t.counts| == |s.counts|
  {
    match a
    case Begin(_, _) =>
    case Finish(_, _, _) =>
    case Remove(_) =>
  }

  lemma SafeStep(s: System, a: Action)
    requires Safe(s) && Enabled(s, a) && Reliable(a)
    ensures Safe(Apply(s, a))
  {
    OriginGrows(s, a);
    forall w: nat | w < |s.workers| ensures Covered(Apply(s, a), w) {
      CoveredStep(s, a, w);
    }
    forall id | id in Apply(s, a).origin ensures Present(Apply(s, a), id) {
      PresentStep(s, a, id);
    }
  }

  lemma {:induction false} SafeAt(acts: seq<Action>, s: seq<System>, i: nat)
    requires IsRun(acts, s) && i < |s| && forall k :: 0 <= k < i ==> Reliable(acts[k])
    ensures Safe(s[i])
  {
    if i > 0 {
      SafeAt(acts, s, i - 1);
      assert StepAt(acts, s, i - 1);
      SafeStep(s[i - 1], acts[i - 1]);
    }
  }

  /** At-least-once: in every interleaving, with any number of movers working on stale snapshots and
      pipelines breaking off anywhere, every accepted job is in at least one of the five places. */
  lemma NoJobIsLost(acts: seq<Action>, s: seq<System>, i: nat, id: JobId)
    requires IsRun(acts, s) && i < |s| && (forall k :: 0 <= k < i ==> Reliable(acts[k]))
    requires id in s[i].origin
    ensures Present(s[i], id)
  {
    SafeAt(acts, s, i);
  }
}
