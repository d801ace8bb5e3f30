/** With a reliable store every job is in exactly one place precisely as long as no mover pushes an entry
    that has been pushed before; and the workers' counters add up in any case. */
module ExactlyOnce {
  import opened Jobs
  import opened RedisQueue
  import opened JobSystem
  import opened JobSums
  import opened Movers
  import NoLoss

  function Held(id: JobId): Phase -> nat {
    (p: Phase) => if InHand(p) && p.job.id == id then 1 else 0
  }

  /** Occurrences of a job over the five places; a delayed entry that has been pushed is on its way out. */
  function Places(s: System, id: JobId): nat {
    Waiting(s, OneOf(id)) + HandSum(s.workers, Held(id))
    + Sum(s.store.completed, OneOf(id)) + Sum(s.store.failed, OneOf(id))
  }

  /** The step pushes nothing that was pushed before. */
  predicate Fresh(s: System, a: Action)
    requires Enabled(s, a)
  {
    Repushed(s, a) == []
  }

  predicate Retries(p: Phase) {
    (p.Closing? || p.Leaving?) && p.ending.ToRetry?
  }

  /** What was pushed is no later than any attempt that still lives, and earlier than one to be queued. */
  ghost predicate Outdated(s: System, e: Job) {
    && (forall f :: f in s.store.ready && f.id == e.id ==> e.retryCount <= f.retryCount)
    && (forall f :: f in s.store.delayed && f !in s.pushed && f.id == e.id ==> e.retryCount < f.retryCount)
    && (forall w :: 0 <= w < |s.workers| ==> OlderThan(e, s.workers[w]))
  }

  predicate OlderThan(e: Job, p: Phase) {
    InHand(p) && p.job.id == e.id ==>
      e.retryCount <= p.job.retryCount && (Retries(p) ==> e.retryCount < p.job.retryCount)
  }

  ghost predicate OnePlace(s: System) {
    forall id :: Places(s, id) == if id in s.origin then 1 else 0
  }

  ghost predicate Exact(s: System) {
    Lineage(s) && OnePlace(s) && forall e :: e in s.pushed ==> Outdated(s, e)
  }

  // ---- A job that is somewhere is nowhere else -----------------------------------------------------

  lemma HandsCount(ws: seq<Phase>, w: nat, id: JobId)
    requires w < |ws| && Held(id)(ws[w]) == 1
    ensures HandSum(ws, Held(id)) >= 1
    ensures forall v :: 0 <= v < |ws| && v != w && InHand(ws[v]) && ws[v].job.id == id ==> HandSum(ws, Held(id)) >= 2
  {
    HandOfWorker(ws, w, Held(id));
    HandUpdate(ws, w, Resting, Held(id));
    forall v | 0 <= v < |ws| && v != w && InHand(ws[v]) && ws[v].job.id == id ensures HandSum(ws, Held(id)) >= 2 {
      HandOfWorker(ws[w := Resting], v, Held(id));
    }
  }

  /** A job in hand is nowhere else. */
  lemma HandIsAlone(s: System, w: nat)
    requires Exact(s) && w < |s.workers| && InHand(s.workers[w])
    ensures var id := s.workers[w].job.id;
      && id in s.origin
      && (forall e :: e in s.store.ready || e in s.store.completed || e in s.store.failed ==> e.id != id)
      && (forall e :: e in s.store.delayed && e !in s.pushed ==> e.id != id)
      && forall v :: 0 <= v < |s.workers| && v != w && InHand(s.workers[v]) ==> s.workers[v].job.id != id
  {
    var id := s.workers[w].job.id;
    HandsCount(s.workers, w, id);
    assert Places(s, id) <= 1;
    UnpushedMembers(s.store.delayed, s.pushed);
    CountIff(s.store.ready, id);
    CountIff(Unpushed(s.store.delayed, s.pushed), id);
    CountIff(s.store.completed, id);
    CountIff(s.store.failed, id);
  }

  /** A delayed entry that nobody has pushed is the only one of its job. */
  lemma DelayedIsAlone(s: System, x: Job)
    requires Exact(s) && x in s.store.delayed && x !in s.pushed
    ensures forall e :: e in s.store.ready || e in s.store.completed || e in s.store.failed ==> e.id != x.id
    ensures forall e :: e in s.store.delayed && e !in s.pushed && e.id == x.id ==> e == x
    ensures forall v :: 0 <= v < |s.workers| && InHand(s.workers[v]) ==> s.workers[v].job.id != x.id
  {
    var id := x.id;
    var z := Unpushed(s.store.delayed, s.pushed);
    UnpushedMembers(s.store.delayed, s.pushed);
    CountIff(z, id);
    assert HasId(z, id);
    assert Places(s, id) <= 1;
    CountIff(s.store.ready, id);
    CountIff(s.store.completed, id);
    CountIff(s.store.failed, id);
    forall e | e in z && e.id == id ensures e == x {
      if e != x { CountTwo(z, x, e); }
    }
    forall v | 0 <= v < |s.workers| && InHand(s.workers[v]) ensures s.workers[v].job.id != id {
      HandOfWorker(s.workers, v, Held(id));
    }
  }

  // ---- Places, step by step --------------------------------------------------------------------------

  lemma RetryIsNew(s: System, w: nat)
    requires Exact(s) && Enabled(s, Leave(w)) && s.workers[w].ending.ToRetry?
    ensures s.workers[w].job !in s.pushed && s.workers[w].job !in s.store.delayed
  {
    HandIsAlone(s, w);
    forall e | e in s.pushed ensures OlderThan(e, s.workers[w]) {
      assert Outdated(s, e);
    }
  }

  lemma RetryPlaces(s: System, w: nat, id: JobId)
    requires Exact(s) && Enabled(s, Leave(w)) && s.workers[w].ending.ToRetry?
    ensures Places(Apply(s, Leave(w)), id) == Places(s, id)
  {
    RetryIsNew(s, w);
    RetryState(s, w);
    HandUpdate(s.workers, w, Resting, Held(id));
    var r, j := With(s, w, Resting), s.workers[w].job;
    QueuedWaits(r, j, OneOf(id));
    assert Waiting(Apply(s, Leave(w)), OneOf(id)) == Waiting(Queued(r, j), OneOf(id));
  }

  lemma EndPlaces(s: System, w: nat, id: JobId)
    requires Enabled(s, Leave(w)) && !s.workers[w].ending.ToRetry?
    ensures Places(Apply(s, Leave(w)), id) == Places(s, id)
  {
    HandUpdate(s.workers, w, Resting, Held(id));
    if s.workers[w].ending.ToCompleted? {
      SumCons(s.workers[w].job, s.store.completed, OneOf(id));
    } else {
      SumCons(s.workers[w].job, s.store.failed, OneOf(id));
    }
  }

  lemma TakePlaces(s: System, w: nat, id: JobId)
    requires Enabled(s, Take(w))
    ensures Places(Apply(s, Take(w)), id) == Places(s, id)
  {
    if s.store.ready == [] {
      HandUpdate(s.workers, w, Resting, Held(id));
    } else {
      TakeWaits(s, w, OneOf(id));
      HandUpdate(s.workers, w, Popped(s.store.ready[|s.store.ready| - 1]), Held(id));
    }
  }

  /** A push of an entry that was pushed before is one more place, and any other push is none. */
  lemma MoverPlaces(s: System, a: Action, id: JobId)
    requires Lineage(s) && Enabled(s, a) && (a.MoveOne? || a.MoveAll?)
    ensures Places(Apply(s, a), id) == Places(s, id) + Sum(Repushed(s, a), OneOf(id))
  {
    if a.MoveAll? {
      MoveAllPlaces(s, a.w, id);
    } else {
      MoveOnePlaces(s, a.w, id);
    }
  }

  lemma MoveAllPlaces(s: System, w: nat, id: JobId)
    requires Lineage(s) && Enabled(s, MoveAll(w))
    ensures Places(Apply(s, MoveAll(w)), id) == Places(s, id) + Sum(Repushed(s, MoveAll(w)), OneOf(id))
  {
    HandUpdate(s.workers, w, Moving([], false), Held(id));
    MoveWaits(s, w, OneOf(id));
  }

  lemma MoveOnePlaces(s: System, w: nat, id: JobId)
    requires Lineage(s) && Enabled(s, MoveOne(w))
    ensures Places(Apply(s, MoveOne(w)), id) == Places(s, id) + Sum(Repushed(s, MoveOne(w)), OneOf(id))
  {
    assert SnapOk(s, w);
    var due, drop := s.workers[w].due, s.workers[w].dropNext;
    HandUpdate(s.workers, w, if drop then Moving(due[1..], false) else Moving(due, true), Held(id));
    if drop {
      DropWaits(s, w, OneOf(id));
    } else {
      PushWaits(s, w, OneOf(id));
    }
  }

  lemma SubmitPlaces(s: System, j: Job, id: JobId)
    requires Lineage(s) && Enabled(s, Submit(j))
    ensures Places(Apply(s, Submit(j)), id) == Places(s, id) + OneOf(id)(j)
  {
    assert forall e :: e in s.pushed || e in s.store.delayed ==> Kin(s, e);
    QueuedWaits(s, j, OneOf(id));
  }

  /** Steps that only move a worker from one phase to another with the same job. */
  lemma HandStepPlaces(s: System, a: Action, id: JobId)
    requires Enabled(s, a) && (a.ReadDue? || a.Note? || a.Begin? || a.Finish? || a.Remove?)
    ensures Places(Apply(s, a), id) == Places(s, id)
  {
    OwnJob(s, a);
    var p := Apply(s, a).workers[a.w];
    HandUpdate(s.workers, a.w, p, Held(id));
    HandStepFrame(s, a);
  }

  lemma HandStepFrame(s: System, a: Action)
    requires Enabled(s, a) && (a.ReadDue? || a.Note? || a.Begin? || a.Finish? || a.Remove?)
    ensures var t := Apply(s, a);
      && a.w < |t.workers| && t.workers == s.workers[a.w := t.workers[a.w]] && t.pushed == s.pushed
      && t.store.ready == s.store.ready && t.store.delayed == s.store.delayed
      && t.store.completed == s.store.completed && t.store.failed == s.store.failed
      && (InHand(t.workers[a.w]) <==> InHand(s.workers[a.w]))
  {
    match a
    case ReadDue(_) =>
    case Note(_) =>
    case Begin(_, _) =>
    case Finish(_, _, _) =>
    case Remove(_) =>
  }

  lemma LeavePlaces(s: System, w: nat, id: JobId)
    requires Exact(s) && Enabled(s, Leave(w))
    ensures Places(Apply(s, Leave(w)), id) == Places(s, id)
  {
    if s.workers[w].ending.ToRetry? {
      RetryPlaces(s, w, id);
    } else {
      EndPlaces(s, w, id);
    }
  }

  lemma PlacesStep(s: System, a: Action, id: JobId)
    requires Exact(s) && Enabled(s, a) && Reliable(a) && Fresh(s, a)
    ensures Places(Apply(s, a), id) == Places(s, id) + if a.Submit? && a.j.id == id then 1 else 0
  {
    match a
    case Tick(_) =>
    case Submit(j) => SubmitPlaces(s, j, id);
    case MoveOne(_) => MoverPlaces(s, a, id);
    case MoveAll(_) => MoverPlaces(s, a, id);
    case Take(w) => TakePlaces(s, w, id);
    case Leave(w) => LeavePlaces(s, w, id);
    case _ => HandStepPlaces(s, a, id);
  }

  lemma OnePlaceStep(s: System, a: Action)
    requires Exact(s) && Enabled(s, a) && Reliable(a) && Fresh(s, a)
    ensures OnePlace(Apply(s, a))
  {
    NoLoss.OriginGrows(s, a);
    forall id ensures Places(Apply(s, a), id) == if id in Apply(s, a).origin then 1 else 0 {
      PlacesStep(s, a, id);
    }
  }

  // ---- A retried job never has the bytes of an earlier attempt -------------------------------------

  lemma ReadySourceOf(s: System, a: Action, f: Job)
    requires Enabled(s, a) && f in Apply(s, a).store.ready
    ensures || f in s.store.ready || (a.Submit? && f == a.j)
            || (a.Leave? && Retries(s.workers[a.w]) && f == s.workers[a.w].job)
            || (a.MoveOne? && !s.workers[a.w].dropNext && f == s.workers[a.w].due[0])
            || (a.MoveAll? && f in Due(s.store.delayed, s.clock))
  {
    if a.MoveAll? {
      NoLoss.ReverseMembers(Due(s.store.delayed, s.clock));
    }
    match a
    case MoveOne(_) =>
    case Take(_) =>
    case Leave(_) =>
    case _ =>
  }

  /** What a fresh mover pushes nobody has pushed. */
  lemma FreshPush(s: System, a: Action, f: Job)
    requires Lineage(s) && Enabled(s, a) && Fresh(s, a)
    requires || (a.MoveOne? && !s.workers[a.w].dropNext && f == s.workers[a.w].due[0])
             || (a.MoveAll? && f in Due(s.store.delayed, s.clock))
    ensures f in s.store.delayed && f !in s.pushed
  {
    if a.MoveAll? {
      DueMembers(s.store.delayed, s.clock);
      UnpushedMembers(Due(s.store.delayed, s.clock), s.pushed);
    } else {
      assert SnapOk(s, a.w);
    }
  }

  lemma StaysOutdated(s: System, a: Action, e: Job)
    requires Exact(s) && Enabled(s, a) && Reliable(a) && Fresh(s, a) && e in s.pushed
    ensures Outdated(Apply(s, a), e)
  {
    var t := Apply(s, a);
    assert Outdated(s, e) && Kin(s, e);
    forall f | f in t.store.ready && f.id == e.id ensures e.retryCount <= f.retryCount {
      ReadyIsLater(s, a, e, f);
    }
    forall f | f in t.store.delayed && f !in t.pushed && f.id == e.id ensures e.retryCount < f.retryCount {
      DelayedIsLater(s, a, e, f);
    }
    forall w | 0 <= w < |t.workers| ensures OlderThan(e, t.workers[w]) {
      NoLoss.OriginGrows(s, a);
      StaysOlder(s, a, e, w);
    }
  }

  /** A delayed entry that nobody has pushed was there before, or has just been queued. */
  lemma UnpushedSource(s: System, a: Action, f: Job)
    requires Enabled(s, a) && f in Apply(s, a).store.delayed && f !in Apply(s, a).pushed
    ensures || (f in s.store.delayed && f !in s.pushed) || (a.Submit? && f == a.j)
            || (a.Leave? && Retries(s.workers[a.w]) && f == s.workers[a.w].job)
  {
    PushedSource(s, a);
    DelayedSource(s, a, f);
  }

  lemma DelayedIsLater(s: System, a: Action, e: Job, f: Job)
    requires Exact(s) && Enabled(s, a) && e in s.pushed
    requires f in Apply(s, a).store.delayed && f !in Apply(s, a).pushed && f.id == e.id
    ensures e.retryCount < f.retryCount
  {
    UnpushedSource(s, a, f);
    IsEarlier(s, a, e, f);
  }

  lemma IsEarlier(s: System, a: Action, e: Job, f: Job)
    requires Exact(s) && Enabled(s, a) && e in s.pushed && f.id == e.id
    requires || (f in s.store.delayed && f !in s.pushed) || (a.Submit? && f == a.j)
             || (a.Leave? && Retries(s.workers[a.w]) && f == s.workers[a.w].job)
    ensures e.retryCount < f.retryCount
  {
    assert Outdated(s, e) && Kin(s, e);
    if a.Leave? {
      assert OlderThan(e, s.workers[a.w]);
    }
  }

  lemma ReadyIsLater(s: System, a: Action, e: Job, f: Job)
    requires Exact(s) && Enabled(s, a) && Fresh(s, a) && e in s.pushed
    requires f in Apply(s, a).store.ready && f.id == e.id
    ensures e.retryCount <= f.retryCount
  {
    assert Outdated(s, e) && Kin(s, e);
    ReadySourceOf(s, a, f);
    if f !in s.store.ready {
      if a.Leave? { assert OlderThan(e, s.workers[a.w]); }
      if a.MoveOne? || a.MoveAll? { FreshPush(s, a, f); }
    }
  }

  lemma StaysOlder(s: System, a: Action, e: Job, w: nat)
    requires Enabled(s, a) && Outdated(s, e) && w < |Apply(s, a).workers|
    ensures OlderThan(e, Apply(s, a).workers[w])
  {
    NoLoss.OriginGrows(s, a);
    assert OlderThan(e, s.workers[w]);
    if a.Tick? || a.Submit? || a.w != w {
      NoLoss.Bystander(s, a, w);
    } else {
      OwnJob(s, a);
      RetriesLater(s, a);
    }
  }

  /** A worker retries only what it has just failed, as a later attempt. */
  lemma RetriesLater(s: System, a: Action)
    requires Enabled(s, a) && !a.Tick? && !a.Submit?
    ensures a.w < |Apply(s, a).workers|
    ensures Retries(Apply(s, a).workers[a.w]) ==>
      || (a.Finish? && Apply(s, a).workers[a.w].job.retryCount == s.workers[a.w].job.retryCount + 1)
      || (Retries(s.workers[a.w]) && Apply(s, a).workers[a.w].job.retryCount == s.workers[a.w].job.retryCount)
  {
    if a.MoveOne? || a.Leave? {
      NotInHand(s, a);
    } else {
      match a
      case Take(_) =>
      case Finish(_, _, _) =>
      case _ =>
    }
  }

  /** What is pushed now is the only copy of its job. */
  lemma NewPushIsAlone(s: System, a: Action, e: Job)
    requires Exact(s) && Enabled(s, a) && Fresh(s, a) && e in Apply(s, a).pushed && e !in s.pushed
    ensures a.Submit? || a.Leave? || a.MoveOne? || a.MoveAll?
    ensures a.Submit? || a.Leave? ==>
      (a.Submit? && e == a.j) || (a.Leave? && InHand(s.workers[a.w]) && e == s.workers[a.w].job)
    ensures a.MoveOne? || a.MoveAll? ==> e in s.store.delayed
    ensures forall f :: f in s.store.ready ==> f.id != e.id
    ensures forall f :: f in s.store.delayed && f !in s.pushed && f.id == e.id ==> f == e
    ensures forall v :: 0 <= v < |s.workers| && InHand(s.workers[v]) && (a.Leave? ==> v != a.w) ==>
      s.workers[v].job.id != e.id
  {
    PushedSource(s, a);
    if a.MoveOne? || a.MoveAll? {
      FreshPush(s, a, e);
      DelayedIsAlone(s, e);
    } else if a.Leave? {
      HandIsAlone(s, a.w);
    } else {
      assert forall f :: f in s.store.ready || f in s.store.delayed ==> Kin(s, f);
      assert forall v :: 0 <= v < |s.workers| && InHand(s.workers[v]) ==> Kin(s, s.workers[v].job);
    }
  }

  lemma BecomesOutdated(s: System, a: Action, e: Job)
    requires Exact(s) && Enabled(s, a) && Reliable(a) && Fresh(s, a) && e in Apply(s, a).pushed && e !in s.pushed
    ensures Outdated(Apply(s, a), e)
  {
    var t := Apply(s, a);
    NewPushIsAlone(s, a, e);
    PushedSource(s, a);
    NoLoss.OriginGrows(s, a);
    forall f | f in t.store.ready && f.id == e.id ensures f.retryCount >= e.retryCount {
      NewlyReady(s, a, e, f);
    }
    forall f | f in t.store.delayed && f !in t.pushed ensures f.id != e.id {
      DelayedSource(s, a, f);
    }
    forall w | 0 <= w < |t.workers| ensures OlderThan(e, t.workers[w]) {
      NobodyHolds(s, a, e, w);
    }
  }

  lemma NewlyReady(s: System, a: Action, e: Job, f: Job)
    requires Exact(s) && Enabled(s, a) && Fresh(s, a) && e in Apply(s, a).pushed && e !in s.pushed
    requires f in Apply(s, a).store.ready && f.id == e.id
    ensures f == e
  {
    NewPushIsAlone(s, a, e);
    ReadySourceOf(s, a, f);
    if f !in s.store.ready && (a.MoveOne? || a.MoveAll?) {
      FreshPush(s, a, f);
    }
  }

  lemma NobodyHolds(s: System, a: Action, e: Job, w: nat)
    requires Exact(s) && Enabled(s, a) && Reliable(a) && w < |Apply(s, a).workers|
    requires a.Submit? || a.Leave? || a.MoveOne? || a.MoveAll?
    requires forall v :: 0 <= v < |s.workers| && InHand(s.workers[v]) && (a.Leave? ==> v != a.w) ==>
      s.workers[v].job.id != e.id
    ensures OlderThan(e, Apply(s, a).workers[w])
  {
    NoLoss.OriginGrows(s, a);
    if a.Submit? || a.w != w {
      NoLoss.Bystander(s, a, w);
    } else {
      OwnJob(s, a);
      if a.Leave? || a.MoveOne? { NotInHand(s, a); }
    }
  }

  // ---- Runs ------------------------------------------------------------------------------------------

  lemma ExactStep(s: System, a: Action)
    requires Exact(s) && Enabled(s, a) && Reliable(a) && Fresh(s, a)
    ensures Exact(Apply(s, a))
  {
    LineageStep(s, a);
    OnePlaceStep(s, a);
    forall e | e in Apply(s, a).pushed ensures Outdated(Apply(s, a), e) {
      if e in s.pushed {
        StaysOutdated(s, a, e);
      } else {
        BecomesOutdated(s, a, e);
      }
    }
  }

  lemma {:induction false} NoHands(ws: seq<Phase>, id: JobId)
    requires forall w :: 0 <= w < |ws| ==> ws[w] == Resting
    ensures HandSum(ws, Held(id)) == 0
  {
    if ws != [] {
      NoHands(ws[1..], id);
    }
  }

  lemma InitialIsExact(s: System)
    requires Initial(s)
    ensures Exact(s)
  {
    forall id { NoHands(s.workers, id); }
  }

  /** Up to step `i` no operation failed and no mover pushed an entry that had been pushed before. */
  ghost predicate FreshRun(acts: seq<Action>, s: seq<System>, i: nat)
    requires IsRun(acts, s) && i < |s|
  {
    forall k :: 0 <= k < i ==> Reliable(acts[k]) && StepAt(acts, s, k) && Fresh(s[k], acts[k])
  }

  lemma {:induction false} ExactAt(acts: seq<Action>, s: seq<System>, i: nat)
    requires IsRun(acts, s) && i < |s| && FreshRun(acts, s, i)
    ensures Exact(s[i])
  {
    if i == 0 {
      InitialIsExact(s[0]);
    } else {
      ExactAt(acts, s, i - 1);
      assert StepAt(acts, s, i - 1);
      ExactStep(s[i - 1], acts[i - 1]);
    }
  }

  /** A repeated push puts its job into one place too many. */
  lemma RepeatIsSecondPlace(s: System, a: Action)
    requires Exact(s) && Enabled(s, a) && !Fresh(s, a)
    ensures !OnePlace(Apply(s, a))
  {
    var e := Repushed(s, a)[0];
    NoLoss.OriginGrows(s, a);
    MoverPlaces(s, a, e.id);
    SumOfMember(Repushed(s, a), e, OneOf(e.id));
    RepushedIsKin(s, a);
  }

  /** Exactly-once, exactly: in a run without failures every accepted job occurs once over all five
      places, and nothing else occurs, at every point up to `i`, if and only if until then no mover
      pushes an entry that has been pushed before. */
  lemma ExactlyOnceExactly(acts: seq<Action>, s: seq<System>, i: nat)
    requires IsRun(acts, s) && i < |s| && forall k :: 0 <= k < i ==> Reliable(acts[k])
    ensures (forall k :: 0 <= k <= i ==> OnePlace(s[k])) <==> FreshRun(acts, s, i)
  {
    if FreshRun(acts, s, i) {
      forall k | 0 <= k <= i ensures OnePlace(s[k]) {
        ExactAt(acts, s, k);
      }
    } else if forall k :: 0 <= k <= i ==> OnePlace(s[k]) {
      FirstRepeat(acts, s, i);
    }
  }

  lemma {:induction false} FirstRepeat(acts: seq<Action>, s: seq<System>, i: nat)
    requires IsRun(acts, s) && i < |s| && forall k :: 0 <= k < i ==> Reliable(acts[k])
    requires !FreshRun(acts, s, i)
    ensures exists k :: 0 <= k <= i && !OnePlace(s[k])
  {
    assert i > 0;
    if FreshRun(acts, s, i - 1) {
      ExactAt(acts, s, i - 1);
      assert StepAt(acts, s, i - 1);
      RepeatIsSecondPlace(s[i - 1], acts[i - 1]);
    } else {
      FirstRepeat(acts, s, i - 1);
    }
  }

  /** Movers that run as one step never repeat a push. */
  lemma {:induction false} AtomicMoversAreFresh(acts: seq<Action>, s: seq<System>, i: nat)
    requires IsRun(acts, s) && i < |s| && forall k :: 0 <= k < i ==> Reliable(acts[k]) && AtomicMover(acts[k])
    ensures FreshRun(acts, s, i) && forall e :: e in s[i].store.delayed ==> e !in s[i].pushed
  {
    if i > 0 {
      AtomicMoversAreFresh(acts, s, i - 1);
      assert StepAt(acts, s, i - 1);
      ExactAt(acts, s, i - 1);
      AtomicIsFresh(s[i - 1], acts[i - 1]);
      AtomicStep(s[i - 1], acts[i - 1]);
    }
  }

  lemma AtomicIsFresh(s: System, a: Action)
    requires Enabled(s, a) && AtomicMover(a) && forall e :: e in s.store.delayed ==> e !in s.pushed
    ensures Fresh(s, a)
  {
    DueMembers(s.store.delayed, s.clock);
    NonePushed(Due(s.store.delayed, s.clock), s.pushed);
  }

  lemma AtomicStep(s: System, a: Action)
    requires Exact(s) && Enabled(s, a) && Reliable(a) && AtomicMover(a)
    requires forall e :: e in s.store.delayed ==> e !in s.pushed
    ensures forall e :: e in Apply(s, a).store.delayed ==> e !in Apply(s, a).pushed
  {
    if a.Leave? && s.workers[a.w].ending.ToRetry? {
      RetryIsNew(s, a.w);
      RetryState(s, a.w);
      QueuedOnce(With(s, a.w, Resting), s.workers[a.w].job);
    } else if a.Submit? {
      SubmittedOnce(s, a.j);
    } else if a.MoveAll? {
      AllMoved(s, a.w);
    } else {
      StillStanding(s, a);
    }
  }

  lemma SubmittedOnce(s: System, j: Job)
    requires Lineage(s) && Enabled(s, Submit(j)) && forall e :: e in s.store.delayed ==> e !in s.pushed
    ensures forall e :: e in Apply(s, Submit(j)).store.delayed ==> e !in Apply(s, Submit(j)).pushed
  {
    assert forall e :: e in s.pushed || e in s.store.delayed ==> Kin(s, e);
    QueuedOnce(s, j);
    var t, q := Apply(s, Submit(j)), Queued(s, j);
    assert t.store == q.store && t.pushed == q.pushed;
  }

  lemma AllMoved(s: System, w: nat)
    requires Enabled(s, MoveAll(w)) && forall e :: e in s.store.delayed ==> e !in s.pushed
    ensures forall e :: e in Apply(s, MoveAll(w)).store.delayed ==> e !in Apply(s, MoveAll(w)).pushed
  {
    DueMembers(s.store.delayed, s.clock);
  }

  lemma StillStanding(s: System, a: Action)
    requires Enabled(s, a) && !a.Submit? && !a.MoveOne? && !a.MoveAll?
    requires a.Leave? ==> !s.workers[a.w].ending.ToRetry?
    ensures Apply(s, a).store.delayed == s.store.delayed && Apply(s, a).pushed == s.pushed
  {
    match a
    case Take(_) =>
    case Leave(_) =>
    case _ =>
  }

  lemma QueuedOnce(s: System, j: Job)
    requires j !in s.pushed && j !in s.store.delayed && forall e :: e in s.store.delayed ==> e !in s.pushed
    ensures forall e :: e in Queued(s, j).store.delayed ==> e !in Queued(s, j).pushed
  {
    InsertMembers(s.store.delayed, j);
  }

  /** A removal that fails loses the job: it is then in none of the five places, unless a pipeline that
      broke off has left its entry in the sorted set. */
  lemma AbandonedJobIsNowhere(s: System, w: nat)
    requires Exact(s) && Enabled(s, Abandon(w))
    ensures NoLoss.Present(Apply(s, Abandon(w)), s.workers[w].job.id) <==> HasId(s.store.delayed, s.workers[w].job.id)
  {
    var id := s.workers[w].job.id;
    var t := Apply(s, Abandon(w));
    HandIsAlone(s, w);
    forall v: nat | v < |t.workers| ensures !NoLoss.Holds(t, v, id) {
      assert t.workers == s.workers[w := Resting];
    }
  }

  // ---- Counters --------------------------------------------------------------------------------

  predicate InProgress(p: Phase) {
    p.Working? || p.Closing? || p.Leaving?
  }

  function Busy(ws: seq<Phase>): nat {
    if ws == [] then 0 else (if InProgress(ws[0]) then 1 else 0) + Busy(ws[1..])
  }

  function Total(ns: seq<nat>): nat {
    if ns == [] then 0 else ns[0] + Total(ns[1..])
  }

  lemma {:induction false} BusyUpdate(ws: seq<Phase>, w: nat, p: Phase)
    requires w < |ws|
    ensures Busy(ws[w := p]) + (if InProgress(ws[w]) then 1 else 0) == Busy(ws) + if InProgress(p) then 1 else 0
  {
    if w == 0 {
      assert ws[w := p][1..] == ws[1..];
    } else {
      assert ws[w := p][1..] == ws[1..][w - 1 := p];
      BusyUpdate(ws[1..], w - 1, p);
    }
  }

  lemma {:induction false} TotalUpdate(ns: seq<nat>, w: nat, n: nat)
    requires w < |ns|
    ensures Total(ns[w := n]) + ns[w] == Total(ns) + n
  {
    if w == 0 {
      assert ns[w := n][1..] == ns[1..];
    } else {
      assert ns[w := n][1..] == ns[1..][w - 1 := n];
      TotalUpdate(ns[1..], w - 1, n);
    }
  }

  predicate Balanced(s: System) {
    |s.workers| == |s.counts|
    && Total(s.counts) == |s.store.completed| + |s.store.failed| + s.retries + Busy(s.workers)
  }

  /** Leaving is what the finished lists and the retry counter record. */
  lemma LeaveBalances(s: System, w: nat)
    requires Balanced(s) && Enabled(s, Leave(w))
    ensures Balanced(Apply(s, Leave(w)))
  {
    BusyUpdate(s.workers, w, Resting);
    if s.workers[w].ending.ToRetry? {
      RetryState(s, w);
    } else {
      EndState(s, w);
    }
  }

  /** A job is counted as it goes into progress. */
  lemma BeginBalances(s: System, w: nat, name: string)
    requires Balanced(s) && Enabled(s, Begin(w, name))
    ensures Balanced(Apply(s, Begin(w, name)))
  {
    BusyUpdate(s.workers, w, Working(Started(s.workers[w].job, name, s.clock)));
    TotalUpdate(s.counts, w, s.counts[w] + 1);
  }

  lemma OthersBalance(s: System, a: Action)
    requires Balanced(s) && Enabled(s, a) && Reliable(a) && !a.Tick? && !a.Submit? && !a.Begin? && !a.Leave?
    ensures Balanced(Apply(s, a))
  {
    WorkersUpdate(s, a);
    OtherwiseUncounted(s, a);
    BusyUpdate(s.workers, a.w, Apply(s, a).workers[a.w]);
  }

  lemma BalancedStep(s: System, a: Action)
    requires Balanced(s) && Enabled(s, a) && Reliable(a)
    ensures Balanced(Apply(s, a))
  {
    if a.Leave? {
      LeaveBalances(s, a.w);
    } else if !a.Tick? && !a.Submit? {
      if a.Begin? {
        BeginBalances(s, a.w, a.name);
      } else {
        OthersBalance(s, a);
      }
    }
  }

  lemma OtherwiseUncounted(s: System, a: Action)
    requires Enabled(s, a) && Reliable(a) && !a.Tick? && !a.Submit? && !a.Begin? && !a.Leave?
    ensures var t := Apply(s, a);
      && t.counts == s.counts && t.retries == s.retries && |t.workers| == |s.workers|
      && t.store.completed == s.store.completed && t.store.failed == s.store.failed
      && (InProgress(t.workers[a.w]) <==> InProgress(s.workers[a.w]))
  {
    match a
    case MoveOne(_) =>
    case Take(_) =>
    case Finish(_, _, _) =>
    case _ =>
  }

  lemma WorkersUpdate(s: System, a: Action)
    requires Enabled(s, a) && !a.Tick? && !a.Submit?
    ensures |Apply(s, a).workers| == |s.workers| && Apply(s, a).workers == s.workers[a.w := Apply(s, a).workers[a.w]]
  {
    match a
    case MoveOne(_) => NoLoss.SplitStepFrame(s, a);
    case Take(_) => NoLoss.SplitStepFrame(s, a);
    case Leave(w) => NoLoss.LeaveFrame(s, w);
    case Finish(_, _, _) =>
    case _ =>
  }

  /** The workers' job counters always add up to the jobs completed, the jobs failed, the retries
      issued and the jobs being processed, even when movers duplicate jobs. */
  lemma {:induction false} CountersAddUp(acts: seq<Action>, s: seq<System>, i: nat)
    requires IsRun(acts, s) && i < |s| && forall k :: 0 <= k < i ==> Reliable(acts[k])
    ensures Balanced(s[i])
  {
    if i == 0 {
      AllZero(s[0].workers, s[0].counts);
    } else {
      CountersAddUp(acts, s, i - 1);
      assert StepAt(acts, s, i - 1);
      BalancedStep(s[i - 1], acts[i - 1]);
    }
  }

  lemma {:induction false} AllZero(ws: seq<Phase>, ns: seq<nat>)
    requires |ws| == |ns| && forall w :: 0 <= w < |ws| ==> ws[w] == Resting && ns[w] == 0
    ensures Busy(ws) == 0 && Total(ns) == 0
  {
    if ws != [] {
      AllZero(ws[1..], ns[1..]);
    }
  }
}
