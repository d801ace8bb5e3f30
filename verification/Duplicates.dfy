/** How often a job is processed when movers interleave: two movers with one snapshot both push an
    entry, and every such repetition allows the job as many attempts again. */
module Duplicates {
  import opened Wrappers
  import opened Jobs
  import opened RedisQueue
  import opened WorkerPool
  import opened JobSystem
  import opened JobSums
  import opened Movers
  import NoLoss

  /** Attempts a waiting job has left. */
  function Remaining(j: Job): nat {
    if j.maxRetries - j.retryCount < 1 then 1 else j.maxRetries - j.retryCount
  }

  function RemainingOf(id: JobId): Job -> nat {
    (j: Job) => if j.id == id then Remaining(j) else 0
  }

  /** Attempts that the job in a worker's hand can still begin. */
  function HandRemaining(p: Phase): nat {
    match p
    case Resting => 0
    case Moving(_, _) => 0
    case Popped(j) => Remaining(j)
    case Noted(j) => Remaining(j)
    case Working(j) => Remaining(j) - 1
    case Closing(j, e) => if e.ToRetry? then Remaining(j) else 0
    case Leaving(j, e) => if e.ToRetry? then Remaining(j) else 0
  }

  function HandOf(id: JobId): Phase -> nat {
    (p: Phase) => if InHand(p) && p.job.id == id then HandRemaining(p) else 0
  }

  /** Attempts made and attempts still possible. */
  function Potential(s: System, id: JobId): nat
    requires id in s.attempts
  {
    s.attempts[id] + Waiting(s, RemainingOf(id)) + HandSum(s.workers, HandOf(id))
  }

  // ---- One step --------------------------------------------------------------------------------------

  lemma MoveAllPotential(s: System, w: nat, id: JobId)
    requires Lineage(s) && Enabled(s, MoveAll(w)) && id in s.attempts
    ensures id in Apply(s, MoveAll(w)).attempts
    ensures Potential(Apply(s, MoveAll(w)), id) == Potential(s, id) + Sum(Repushed(s, MoveAll(w)), RemainingOf(id))
  {
    HandUpdate(s.workers, w, Moving([], false), HandOf(id));
    MoveWaits(s, w, RemainingOf(id));
  }

  lemma MoveOnePotential(s: System, w: nat, id: JobId)
    requires Lineage(s) && Enabled(s, MoveOne(w)) && id in s.attempts
    ensures id in Apply(s, MoveOne(w)).attempts
    ensures Potential(Apply(s, MoveOne(w)), id) == Potential(s, id) + Sum(Repushed(s, MoveOne(w)), RemainingOf(id))
  {
    assert SnapOk(s, w);
    var due, drop := s.workers[w].due, s.workers[w].dropNext;
    HandUpdate(s.workers, w, if drop then Moving(due[1..], false) else Moving(due, true), HandOf(id));
    if drop {
      DropWaits(s, w, RemainingOf(id));
    } else {
      PushWaits(s, w, RemainingOf(id));
    }
  }

  lemma BeginPotential(s: System, w: nat, name: string, id: JobId)
    requires Enabled(s, Begin(w, name)) && id in s.attempts
    ensures id in Apply(s, Begin(w, name)).attempts && Potential(Apply(s, Begin(w, name)), id) == Potential(s, id)
  {
    HandUpdate(s.workers, w, Working(Started(s.workers[w].job, name, s.clock)), HandOf(id));
  }

  lemma FinishPotential(s: System, a: Action, id: JobId)
    requires Enabled(s, a) && a.Finish? && id in s.attempts
    ensures id in Apply(s, a).attempts && Potential(Apply(s, a), id) <= Potential(s, id)
  {
    var (j, ending) := Ended(s.workers[a.w].job, a.outcome, a.delay, s.clock);
    HandUpdate(s.workers, a.w, Closing(j, ending), HandOf(id));
  }

  lemma RemovePotential(s: System, w: nat, id: JobId)
    requires Enabled(s, Remove(w)) && id in s.attempts
    ensures id in Apply(s, Remove(w)).attempts && Potential(Apply(s, Remove(w)), id) == Potential(s, id)
  {
    HandUpdate(s.workers, w, Apply(s, Remove(w)).workers[w], HandOf(id));
  }

  lemma TakePotential(s: System, w: nat, id: JobId)
    requires Enabled(s, Take(w)) && id in s.attempts
    ensures id in Apply(s, Take(w)).attempts && Potential(Apply(s, Take(w)), id) == Potential(s, id)
  {
    if s.store.ready == [] {
      HandUpdate(s.workers, w, Resting, HandOf(id));
    } else {
      HandUpdate(s.workers, w, Popped(s.store.ready[|s.store.ready| - 1]), HandOf(id));
      TakeWaits(s, w, RemainingOf(id));
    }
  }

  lemma LeavePotential(s: System, w: nat, id: JobId)
    requires Lineage(s) && Enabled(s, Leave(w)) && id in s.attempts
    ensures id in Apply(s, Leave(w)).attempts && Potential(Apply(s, Leave(w)), id) <= Potential(s, id)
  {
    HandUpdate(s.workers, w, Resting, HandOf(id));
    if s.workers[w].ending.ToRetry? {
      RetryPotential(s, w, id);
    }
  }

  lemma RetryPotential(s: System, w: nat, id: JobId)
    requires Lineage(s) && Enabled(s, Leave(w)) && s.workers[w].ending.ToRetry? && id in s.attempts
    ensures id in Apply(s, Leave(w)).attempts && Potential(Apply(s, Leave(w)), id) <= Potential(s, id)
  {
    var r, j := With(s, w, Resting), s.workers[w].job;
    RetryState(s, w);
    HandUpdate(s.workers, w, Resting, HandOf(id));
    QueuedWaits(r, j, RemainingOf(id));
    assert Waiting(Apply(s, Leave(w)), RemainingOf(id)) == Waiting(Queued(r, j), RemainingOf(id));
  }

  lemma RestPotential(s: System, a: Action, id: JobId)
    requires Enabled(s, a) && (a.Tick? || a.ReadDue? || a.Note? || a.Abandon?) && id in s.attempts
    ensures id in Apply(s, a).attempts && Potential(Apply(s, a), id) <= Potential(s, id)
  {
    if !a.Tick? {
      HandUpdate(s.workers, a.w, Apply(s, a).workers[a.w], HandOf(id));
    }
  }

  lemma SubmitPotential(s: System, j: Job, id: JobId)
    requires Lineage(s) && Enabled(s, Submit(j)) && id in s.origin && id in s.attempts
    ensures id in Apply(s, Submit(j)).attempts && Potential(Apply(s, Submit(j)), id) <= Potential(s, id)
  {
    QueuedWaits(s, j, RemainingOf(id));
  }

  /** No step but a repeated push adds to what a job has been and can be given. */
  lemma PotentialStep(s: System, a: Action, id: JobId)
    requires Lineage(s) && Enabled(s, a) && id in s.origin && id in s.attempts
    ensures id in Apply(s, a).attempts
    ensures Potential(Apply(s, a), id) <= Potential(s, id) + Sum(Repushed(s, a), RemainingOf(id))
  {
    if a.MoveOne? {
      MoveOnePotential(s, a.w, id);
    } else if a.MoveAll? {
      MoveAllPotential(s, a.w, id);
    } else if a.Submit? {
      SubmitPotential(s, a.j, id);
    } else if a.Begin? {
      BeginPotential(s, a.w, a.name, id);
    } else if a.Finish? {
      FinishPotential(s, a, id);
    } else if a.Remove? {
      RemovePotential(s, a.w, id);
    } else if a.Take? {
      TakePotential(s, a.w, id);
    } else if a.Leave? {
      LeavePotential(s, a.w, id);
    } else {
      RestPotential(s, a, id);
    }
  }

  // ---- Submission ------------------------------------------------------------------------------------

  lemma {:induction false} NoneWeighs(z: seq<Job>, id: JobId)
    requires forall e :: e in z ==> e.id != id
    ensures Sum(z, RemainingOf(id)) == 0
  {
    if z != [] {
      assert z[0] in z && forall e :: e in z[1..] ==> e in z;
      NoneWeighs(z[1..], id);
    }
  }

  lemma {:induction false} NoneHolds(ws: seq<Phase>, id: JobId)
    requires forall w :: 0 <= w < |ws| && InHand(ws[w]) ==> ws[w].job.id != id
    ensures HandSum(ws, HandOf(id)) == 0
  {
    if ws != [] {
      assert forall w :: 0 <= w < |ws[1..]| ==> ws[1..][w] == ws[w + 1];
      NoneHolds(ws[1..], id);
    }
  }

  /** A new job can be given as many attempts as it has. */
  lemma SubmittedPotential(s: System, j: Job)
    requires Lineage(s) && Enabled(s, Submit(j))
    ensures j.id in Apply(s, Submit(j)).attempts && Potential(Apply(s, Submit(j)), j.id) <= Remaining(j)
  {
    assert forall e :: e in s.store.ready ==> e in s.pushed && Kin(s, e);
    UnpushedMembers(s.store.delayed, s.pushed);
    NoneWeighs(s.store.ready, j.id);
    NoneWeighs(Unpushed(s.store.delayed, s.pushed), j.id);
    NoneHolds(s.workers, j.id);
    QueuedWaits(s, j, RemainingOf(j.id));
  }

  // ---- Runs ------------------------------------------------------------------------------------------

  /** The attempts left to the entries of the job that have been pushed, so far, although they had been
      pushed before. */
  ghost function Repeated(acts: seq<Action>, s: seq<System>, i: nat, id: JobId): nat
    requires IsRun(acts, s) && i < |s|
  {
    if i == 0 then 0
    else
      assert StepAt(acts, s, i - 1);
      Repeated(acts, s, i - 1, id) + Sum(Repushed(s[i - 1], acts[i - 1]), RemainingOf(id))
  }

  lemma {:induction false} PotentialAt(acts: seq<Action>, s: seq<System>, i: nat, id: JobId)
    requires IsRun(acts, s) && i < |s| && id in s[i].origin
    ensures id in s[i].attempts
    ensures Potential(s[i], id) <= Remaining(s[i].origin[id]) + Repeated(acts, s, i, id)
  {
    if i > 0 {
      assert StepAt(acts, s, i - 1);
      LineageAt(acts, s, i - 1);
      NoLoss.OriginGrows(s[i - 1], acts[i - 1]);
      if id in s[i - 1].origin {
        PotentialAt(acts, s, i - 1, id);
        PotentialStep(s[i - 1], acts[i - 1], id);
      } else {
        SubmittedPotential(s[i - 1], acts[i - 1].j);
      }
    }
  }

  /** In every run, whatever interleaves and whatever fails, a job submitted with retry count r is
      processed at most max(1, MaxRetries - r) times, and for each push of an entry that had been
      pushed before at most as often again as that entry has attempts left. */
  lemma AttemptsAreBounded(acts: seq<Action>, s: seq<System>, i: nat, id: JobId)
    requires IsRun(acts, s) && i < |s| && id in s[i].origin
    ensures id in s[i].attempts
    ensures s[i].attempts[id] <= Remaining(s[i].origin[id]) + Repeated(acts, s, i, id)
  {
    PotentialAt(acts, s, i, id);
  }

  ghost predicate NoRepeats(acts: seq<Action>, s: seq<System>, i: nat)
    requires IsRun(acts, s) && i < |s|
  {
    forall k :: 0 <= k < i ==> StepAt(acts, s, k) && Repushed(s[k], acts[k]) == []
  }

  lemma {:induction false} NothingRepeated(acts: seq<Action>, s: seq<System>, i: nat, id: JobId)
    requires IsRun(acts, s) && i < |s| && NoRepeats(acts, s, i)
    ensures Repeated(acts, s, i, id) == 0
  {
    if i > 0 {
      NothingRepeated(acts, s, i - 1, id);
      assert StepAt(acts, s, i - 1);
    }
  }

  /** So without repeated pushes the retry test bounds the attempts. */
  lemma AttemptsWithoutRepeats(acts: seq<Action>, s: seq<System>, i: nat, id: JobId)
    requires IsRun(acts, s) && i < |s| && NoRepeats(acts, s, i) && id in s[i].origin
    ensures id in s[i].attempts && s[i].attempts[id] <= Remaining(s[i].origin[id])
  {
    AttemptsAreBounded(acts, s, i, id);
    NothingRepeated(acts, s, i, id);
  }

  // ---- A run in which the bound is reached -----------------------------------------------------------

  const JOB: Job := Job(1, "email", "", Pending, 5, 0, 0, SECOND, None, None, 0, 1, "", "")

  /** Two workers, one job with a single attempt; `made` attempts of it have begun. */
  predicate Shows(s: System, clock: Time, ready: seq<Job>, delayed: seq<Job>, p: Phase, q: Phase, made: nat) {
    && s.clock == clock && s.store.ready == ready && s.store.delayed == delayed && s.workers == [p, q]
    && |s.counts| == 2 && s.origin == map[1 := JOB] && 1 in s.attempts && s.attempts[1] == made
  }

  lemma Extend(acts: seq<Action>, s: seq<System>, a: Action) returns (more: seq<Action>, t: seq<System>)
    requires IsRun(acts, s) && Enabled(s[|acts|], a)
    ensures more == acts + [a] && t == s + [Apply(s[|acts|], a)] && IsRun(more, t)
  {
    more, t := acts + [a], s + [Apply(s[|acts|], a)];
    forall i | 0 <= i < |more| ensures StepAt(more, t, i) {
      assert i < |acts| ==> StepAt(acts, s, i);
    }
  }

  /** Both workers read the same snapshot. */
  lemma BothRead() returns (acts: seq<Action>, s: seq<System>)
    ensures IsRun(acts, s) && |acts| == 4 && forall k :: 0 <= k < |acts| ==> Reliable(acts[k])
    ensures Shows(s[4], SECOND, [], [JOB], Moving([JOB], false), Moving([JOB], false), 0)
  {
    var start := System(EMPTY, map[], 0, [Resting, Resting], false, [0, 0], 0, map[], map[], [], [], []);
    acts, s := [], [start];
    assert IsRun(acts, s);
    acts, s := Extend(acts, s, Submit(JOB));
    acts, s := Extend(acts, s, Tick(SECOND));
    assert Shows(s[2], SECOND, [], [JOB], Resting, Resting, 0);
    assert Due([JOB], SECOND) == [JOB];
    acts, s := Extend(acts, s, ReadDue(0));
    acts, s := Extend(acts, s, ReadDue(1));
  }

  /** Both push the entry, and both drop it. */
  lemma BothPush(acts0: seq<Action>, s0: seq<System>) returns (acts: seq<Action>, s: seq<System>)
    requires IsRun(acts0, s0) && |acts0| == 4 && forall k :: 0 <= k < |acts0| ==> Reliable(acts0[k])
    requires Shows(s0[4], SECOND, [], [JOB], Moving([JOB], false), Moving([JOB], false), 0)
    ensures IsRun(acts, s) && |acts| == 8 && forall k :: 0 <= k < |acts| ==> Reliable(acts[k])
    ensures Shows(s[8], SECOND, [JOB, JOB], [], Moving([], false), Moving([], false), 0)
  {
    acts, s := Extend(acts0, s0, MoveOne(0));
    assert Shows(s[5], SECOND, [JOB], [JOB], Moving([JOB], true), Moving([JOB], false), 0);
    acts, s := Extend(acts, s, MoveOne(1));
    assert Shows(s[6], SECOND, [JOB, JOB], [JOB], Moving([JOB], true), Moving([JOB], true), 0);
    acts, s := Extend(acts, s, MoveOne(0));
    assert Shows(s[7], SECOND, [JOB, JOB], [], Moving([], false), Moving([JOB], true), 0);
    acts, s := Extend(acts, s, MoveOne(1));
  }

  /** Each takes one of the two copies and begins it. */
  lemma BothBegin(acts0: seq<Action>, s0: seq<System>) returns (acts: seq<Action>, s: seq<System>)
    requires IsRun(acts0, s0) && |acts0| == 8 && forall k :: 0 <= k < |acts0| ==> Reliable(acts0[k])
    requires Shows(s0[8], SECOND, [JOB, JOB], [], Moving([], false), Moving([], false), 0)
    ensures IsRun(acts, s) && |acts| == 14 && forall k :: 0 <= k < |acts| ==> Reliable(acts[k])
    ensures s[14].origin == map[1 := JOB] && 1 in s[14].attempts && s[14].attempts[1] == 2
  {
    acts, s := Extend(acts0, s0, Take(0));
    assert Shows(s[9], SECOND, [JOB], [], Popped(JOB), Moving([], false), 0);
    acts, s := Extend(acts, s, Take(1));
    assert Shows(s[10], SECOND, [], [], Popped(JOB), Popped(JOB), 0);
    acts, s := Extend(acts, s, Note(0));
    acts, s := Extend(acts, s, Note(1));
    assert Shows(s[12], SECOND, [], [], Noted(JOB), Noted(JOB), 0);
    acts, s := Extend(acts, s, Begin(0, "w0"));
    acts, s := Extend(acts, s, Begin(1, "w1"));
  }

  /** Interleaved movers break the bound of the code's own retry test: a job with one attempt is
      processed twice although no operation fails. */
  lemma MoversRepeatAJob() returns (acts: seq<Action>, s: seq<System>)
    ensures IsRun(acts, s) && |acts| == 14 && forall k :: 0 <= k < |acts| ==> Reliable(acts[k])
    ensures 1 in s[14].origin && 1 in s[14].attempts && s[14].attempts[1] == 2 > Remaining(s[14].origin[1])
  {
    acts, s := BothRead();
    acts, s := BothPush(acts, s);
    acts, s := BothBegin(acts, s);
  }
}
