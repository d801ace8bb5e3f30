/** What every run keeps about the entries of the sorted set and the snapshots of the movers, however
    the commands interleave and whichever fail. */
module Movers {
  import opened Jobs
  import opened RedisQueue
  import opened WorkerPool
  import opened JobSystem
  import opened JobSums
  import opened QueueOrder
  import NoLoss

  /** An entry is some attempt of an accepted job. */
  predicate Kin(s: System, e: Job) {
    && e.id in s.origin && e.id in s.attempts
    && e.maxRetries == s.origin[e.id].maxRetries && s.origin[e.id].retryCount <= e.retryCount
  }

  /** The first entry of a snapshot that its mover has not pushed. */
  function Next(p: Phase): nat
    requires p.Moving?
  {
    if p.dropNext then 1 else 0
  }

  /** What a mover has yet to push is still delayed or was pushed by another; what it drops it has pushed. */
  predicate SnapOk(s: System, w: nat)
    requires w < |s.workers|
  {
    var p := s.workers[w];
    p.Moving? ==>
      && (p.dropNext ==> p.due != [] && p.due[0] in s.pushed)
      && forall k :: Next(p) <= k < |p.due| ==> p.due[k] in s.store.delayed || p.due[k] in s.pushed
  }

  ghost predicate Lineage(s: System) {
    && 0 <= s.clock && SetOk(s.store.delayed) && |s.workers| == |s.counts|
    && (forall e :: e in s.store.ready ==> e in s.pushed)
    && (forall e :: e in s.pushed ==> Kin(s, e))
    && (forall e :: e in s.store.delayed ==> Kin(s, e))
    && (forall w :: 0 <= w < |s.workers| && InHand(s.workers[w]) ==> Kin(s, s.workers[w].job))
    && (forall w :: 0 <= w < |s.workers| ==> SnapOk(s, w))
    && (forall id :: id in s.origin ==> s.origin[id].id == id)
  }

  lemma KinKeeps(s: System, a: Action, e: Job)
    requires Enabled(s, a) && Kin(s, e)
    ensures Kin(Apply(s, a), e)
  {
    NoLoss.OriginGrows(s, a);
    AttemptsGrow(s, a);
  }

  lemma AttemptsGrow(s: System, a: Action)
    requires Enabled(s, a)
    ensures forall id :: id in s.attempts ==> id in Apply(s, a).attempts
    ensures a.Submit? ==> a.j.id in Apply(s, a).attempts
  {
    match a
    case MoveOne(_) =>
    case Take(_) =>
    case Leave(_) =>
    case Begin(_, _) =>
    case _ =>
  }

  /** The history only grows, by what the step pushes. */
  lemma PushedSource(s: System, a: Action)
    requires Enabled(s, a)
    ensures s.pushed <= Apply(s, a).pushed
    ensures forall e :: e in Apply(s, a).pushed ==>
      || e in s.pushed
      || (a.Submit? && e == a.j)
      || (a.Leave? && s.workers[a.w].ending.ToRetry? && e == s.workers[a.w].job)
      || (a.MoveOne? && !s.workers[a.w].dropNext && e == s.workers[a.w].due[0])
      || (a.MoveAll? && e in Due(s.store.delayed, s.clock))
  {
    match a
    case MoveOne(_) =>
    case Leave(_) =>
    case Take(_) =>
    case _ =>
  }

  lemma DelayedSource(s: System, a: Action, e: Job)
    requires Enabled(s, a) && e in Apply(s, a).store.delayed
    ensures || e in s.store.delayed || (a.Submit? && e == a.j)
            || (a.Leave? && s.workers[a.w].ending.ToRetry? && e == s.workers[a.w].job)
  {
    match a {
      case Submit(j) => InsertMembers(s.store.delayed, j);
      case Leave(w) => InsertMembers(s.store.delayed, s.workers[w].job);
      case MoveOne(w) => if s.workers[w].dropNext { WithoutMembers(s.store.delayed, s.workers[w].due[0]); }
      case MoveAll(_) => DueMembers(s.store.delayed, s.clock);
      case Take(_) =>
      case _ =>
    }
  }

  /** What leaves the sorted set has been pushed. */
  lemma DelayedLeaves(s: System, a: Action, e: Job)
    requires Enabled(s, a) && e in s.store.delayed && e !in Apply(s, a).store.delayed
    requires a.MoveOne? ==> SnapOk(s, a.w)
    ensures e in Apply(s, a).pushed
  {
    match a {
      case Submit(j) => InsertMembers(s.store.delayed, j);
      case Leave(w) => InsertMembers(s.store.delayed, s.workers[w].job);
      case MoveOne(w) => WithoutMembers(s.store.delayed, s.workers[w].due[0]);
      case MoveAll(_) => DueMembers(s.store.delayed, s.clock);
      case Take(_) =>
      case _ =>
    }
  }

  lemma ReadyIsPushed(s: System, a: Action)
    requires Enabled(s, a) && forall e :: e in s.store.ready ==> e in s.pushed
    ensures forall e :: e in Apply(s, a).store.ready ==> e in Apply(s, a).pushed
  {
    if a.MoveAll? {
      NoLoss.ReverseMembers(Due(s.store.delayed, s.clock));
    }
    match a
    case MoveOne(_) =>
    case MoveAll(_) =>
    case Leave(_) =>
    case Take(_) =>
    case _ =>
  }

  lemma HandKin(s: System, a: Action, w: nat)
    requires Lineage(s) && Enabled(s, a) && w < |Apply(s, a).workers| && InHand(Apply(s, a).workers[w])
    ensures Kin(Apply(s, a), Apply(s, a).workers[w].job)
  {
    NoLoss.OriginGrows(s, a);
    if a.Tick? || a.Submit? || a.w != w {
      NoLoss.Bystander(s, a, w);
      KinKeeps(s, a, s.workers[w].job);
    } else {
      OwnKin(s, a);
    }
  }

  /** `q` holds what `p` held, with at least as many retries. */
  predicate SameJob(p: Phase, q: Phase) {
    InHand(p) && InHand(q) && q.job.id == p.job.id && q.job.maxRetries == p.job.maxRetries
      && q.job.retryCount >= p.job.retryCount
  }

  lemma FinishJob(s: System, w: nat, outcome: Outcome, delay: Time)
    requires Enabled(s, Finish(w, outcome, delay))
    ensures SameJob(s.workers[w], Finished(s, w, outcome, delay).workers[w])
  {
    var (j, ending) := Ended(s.workers[w].job, outcome, delay, s.clock);
    assert j.retryCount >= s.workers[w].job.retryCount;
  }

  lemma TakeJob(s: System, w: nat)
    requires Enabled(s, Take(w))
    ensures InHand(Took(s, w).workers[w]) ==>
      s.store.ready != [] && Took(s, w).workers[w] == Popped(s.store.ready[|s.store.ready| - 1])
  {
  }

  /** A worker holds the job it took, rewritten at most in its retry count among what counts here. */
  lemma OwnJob(s: System, a: Action)
    requires Enabled(s, a) && !a.Tick? && !a.Submit?
    ensures a.w < |Apply(s, a).workers| && a.w < |s.workers|
    ensures InHand(Apply(s, a).workers[a.w]) && !a.Take? ==> SameJob(s.workers[a.w], Apply(s, a).workers[a.w])
    ensures InHand(Apply(s, a).workers[a.w]) && a.Take? ==>
      s.store.ready != [] && Apply(s, a).workers[a.w] == Popped(s.store.ready[|s.store.ready| - 1])
  {
    if a.Finish? {
      FinishJob(s, a.w, a.outcome, a.delay);
    } else if a.Take? {
      TakeJob(s, a.w);
    } else if a.MoveOne? || a.Leave? {
      NotInHand(s, a);
    }
  }

  lemma NotInHand(s: System, a: Action)
    requires Enabled(s, a) && (a.MoveOne? || a.Leave?)
    ensures a.w < |Apply(s, a).workers| && !InHand(Apply(s, a).workers[a.w])
  {
    match a
    case MoveOne(_) =>
    case Leave(_) =>
  }

  lemma OwnKin(s: System, a: Action)
    requires Lineage(s) && Enabled(s, a) && !a.Tick? && !a.Submit? && a.w < |Apply(s, a).workers|
    requires InHand(Apply(s, a).workers[a.w])
    ensures Kin(Apply(s, a), Apply(s, a).workers[a.w].job)
  {
    NoLoss.OriginGrows(s, a);
    AttemptsGrow(s, a);
    OwnJob(s, a);
    if a.Take? && s.store.ready != [] {
      var j := s.store.ready[|s.store.ready| - 1];
      assert j in s.pushed && Kin(s, j);
    } else {
      assert Kin(s, s.workers[a.w].job);
    }
  }

  lemma SnapStep(s: System, a: Action, w: nat)
    requires Lineage(s) && Enabled(s, a) && w < |Apply(s, a).workers|
    ensures SnapOk(Apply(s, a), w)
  {
    var t := Apply(s, a);
    NoLoss.OriginGrows(s, a);
    PushedSource(s, a);
    assert SnapOk(s, w);
    if a.Tick? || a.Submit? || a.w != w {
      NoLoss.Bystander(s, a, w);
      var p := s.workers[w];
      if p.Moving? {
        forall k | Next(p) <= k < |p.due| ensures p.due[k] in t.store.delayed || p.due[k] in t.pushed {
          if p.due[k] in s.store.delayed && p.due[k] !in t.store.delayed {
            assert a.MoveOne? ==> SnapOk(s, a.w);
            DelayedLeaves(s, a, p.due[k]);
          }
        }
      }
    } else {
      OwnSnap(s, a);
    }
  }

  lemma OwnSnap(s: System, a: Action)
    requires Lineage(s) && Enabled(s, a) && !a.Tick? && !a.Submit? && a.w < |Apply(s, a).workers|
    ensures SnapOk(Apply(s, a), a.w)
  {
    if a.MoveOne? {
      MoveSnap(s, a.w);
    } else if a.ReadDue? {
      DueMembers(s.store.delayed, s.clock);
    } else {
      NoSnap(s, a);
    }
  }

  lemma NoSnap(s: System, a: Action)
    requires Enabled(s, a) && !a.Tick? && !a.Submit? && !a.MoveOne? && !a.ReadDue?
    ensures a.w < |Apply(s, a).workers|
    ensures Apply(s, a).workers[a.w].Moving? ==> Apply(s, a).workers[a.w] == Moving([], false)
  {
    match a
    case Take(_) =>
    case Leave(_) =>
    case Finish(_, _, _) =>
    case _ =>
  }

  lemma MoveSnap(s: System, w: nat)
    requires Lineage(s) && Enabled(s, MoveOne(w))
    ensures SnapOk(Apply(s, MoveOne(w)), w)
  {
    var t := Apply(s, MoveOne(w));
    var p := s.workers[w];
    assert SnapOk(s, w);
    if p.dropNext {
      forall k | 0 <= k < |p.due[1..]| ensures p.due[1..][k] in t.store.delayed || p.due[1..][k] in t.pushed {
        var e := p.due[k + 1];
        WithoutMembers(s.store.delayed, p.due[0]);
        if e in s.store.delayed && e !in t.store.delayed {
          DelayedLeaves(s, MoveOne(w), e);
        }
      }
    }
  }

  lemma LineageStep(s: System, a: Action)
    requires Lineage(s) && Enabled(s, a)
    ensures Lineage(Apply(s, a))
  {
    var t := Apply(s, a);
    NoLoss.OriginGrows(s, a);
    SetStep(s, a);
    ReadyIsPushed(s, a);
    forall e | e in t.pushed ensures Kin(t, e) {
      PushedKin(s, a, e);
    }
    forall e | e in t.store.delayed ensures Kin(t, e) {
      DelayedSource(s, a, e);
      if e in s.store.delayed {
        KinKeeps(s, a, e);
      } else {
        NewKin(s, a, e);
      }
    }
    forall w | 0 <= w < |t.workers| && InHand(t.workers[w]) ensures Kin(t, t.workers[w].job) {
      HandKin(s, a, w);
    }
    forall w | 0 <= w < |t.workers| ensures SnapOk(t, w) {
      SnapStep(s, a, w);
    }
  }

  /** A submitted or retried job. */
  lemma NewKin(s: System, a: Action, e: Job)
    requires Lineage(s) && Enabled(s, a)
    requires (a.Submit? && e == a.j) || (a.Leave? && e == s.workers[a.w].job)
    ensures Kin(Apply(s, a), e)
  {
    NoLoss.OriginGrows(s, a);
    AttemptsGrow(s, a);
    if a.Leave? {
      assert Kin(s, e);
    }
  }

  lemma PushedKin(s: System, a: Action, e: Job)
    requires Lineage(s) && Enabled(s, a) && e in Apply(s, a).pushed
    ensures Kin(Apply(s, a), e)
  {
    PushedSource(s, a);
    DueMembers(s.store.delayed, s.clock);
    assert a.MoveOne? ==> SnapOk(s, a.w);
    if e in s.pushed || e in s.store.delayed {
      KinKeeps(s, a, e);
    } else {
      NewKin(s, a, e);
    }
  }

  lemma {:induction false} LineageAt(acts: seq<Action>, s: seq<System>, i: nat)
    requires IsRun(acts, s) && i < |s|
    ensures Lineage(s[i])
  {
    if i > 0 {
      LineageAt(acts, s, i - 1);
      assert StepAt(acts, s, i - 1);
      LineageStep(s[i - 1], acts[i - 1]);
    }
  }

  lemma RepushedIsKin(s: System, a: Action)
    requires Lineage(s) && Enabled(s, a)
    ensures forall e :: e in Repushed(s, a) ==> Kin(s, e)
  {
    if a.MoveAll? {
      UnpushedMembers(Due(s.store.delayed, s.clock), s.pushed);
    }
  }
}
