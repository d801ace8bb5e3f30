/** With finitely many submissions, fair workers and advancing time, every job ends up completed or
    failed, although movers interleave and repeat one another's pushes. Runs are infinite here: a state
    and an action for every natural number. */
module Termination {
  import opened Jobs
  import opened RedisQueue
  import opened WorkerPool
  import opened JobSystem
  import opened JobSums
  import opened Movers
  import opened Duplicates
  import ExactlyOnce
  import NoLoss

  // ---- The measure -------------------------------------------------------------------------------

  /** What a ready job with `k` attempts left can cost: its way through a worker and, for each of `n`
      workers, one more push of the entry its retry becomes. */
  function Cost(n: nat, k: nat): nat {
    6 + if k <= 1 then 0 else n * (Cost(n, k - 1) + 2)
  }

  function ReadyCost(n: nat): Job -> nat {
    (j: Job) => Cost(n, Remaining(j))
  }

  /** One mover's handling of a delayed entry: the LPUSH, the ZREM and the job made ready. */
  function EntryCost(n: nat): Job -> nat {
    (j: Job) => Cost(n, Remaining(j)) + 2
  }

  /** A handling by every worker. */
  function AllHandle(n: nat, j: Job): nat {
    n * EntryCost(n)(j)
  }

  function RetryCost(n: nat, j: Job, e: Ending): nat {
    if e.ToRetry? then AllHandle(n, j) else 0
  }

  function OwnCost(n: nat, p: Phase): nat {
    match p
    case Resting => 0
    case Moving(due, dropNext) =>
      if dropNext && due != [] then 1 + Sum(due[1..], EntryCost(n)) else Sum(due, EntryCost(n))
    case Popped(j) => ReadyCost(n)(j) - 1
    case Noted(j) => ReadyCost(n)(j) - 2
    case Working(j) => ReadyCost(n)(j) - 3
    case Closing(j, e) => RetryCost(n, j, e) + 2
    case Leaving(j, e) => RetryCost(n, j, e) + 1
  }

  function Snapshot(p: Phase): seq<Job> {
    if p.Moving? then p.due else []
  }

  /** A worker's phase, and the delayed entries that it may still read. */
  function Share(n: nat, z: seq<Job>): Phase -> nat {
    (p: Phase) => OwnCost(n, p) + Sum(Unpushed(z, Snapshot(p)), EntryCost(n))
  }

  function Weight(s: System): nat {
    var n := |s.workers|;
    Sum(s.store.ready, ReadyCost(n)) + HandSum(s.workers, Share(n, s.store.delayed))
  }

  // ---- Sums of the measure -------------------------------------------------------------------------

  lemma {:induction false} SharesRise(ws: seq<Phase>, h: Phase -> nat, g: Phase -> nat, c: nat)
    requires forall p :: h(p) <= g(p) + c
    ensures HandSum(ws, h) <= HandSum(ws, g) + |ws| * c
  {
    if ws != [] {
      SharesRise(ws[1..], h, g, c);
    }
  }

  lemma {:induction false} UnpushedFewer(z: seq<Job>, j: Job, due: seq<Job>, f: Job -> nat)
    ensures Sum(Unpushed(Without(z, j), due), f) <= Sum(Unpushed(z, due), f)
  {
    if z != [] && z[0] != j {
      UnpushedFewer(z[1..], j, due, f);
      assert ([z[0]] + Without(z[1..], j))[1..] == Without(z[1..], j);
      SumCons(z[0], Unpushed(z[1..], due), f);
      SumCons(z[0], Unpushed(Without(z[1..], j), due), f);
    } else if z != [] {
      SumCons(z[0], Unpushed(z[1..], due), f);
    }
  }

  lemma {:induction false} UnpushedNone(z: seq<Job>)
    ensures Unpushed(z, []) == z
  {
    if z != [] {
      UnpushedNone(z[1..]);
    }
  }

  lemma {:induction false} UnpushedOfDue(z: seq<Job>, now: Time, due: seq<Job>)
    requires forall j :: j in z ==> (j in due <==> IsDue(j, now))
    ensures Unpushed(z, due) == NotDue(z, now)
  {
    if z != [] {
      assert z[0] in z && forall j :: j in z[1..] ==> j in z;
      UnpushedOfDue(z[1..], now, due);
    }
  }

  /** Reading the due entries only moves their cost into the snapshot. */
  lemma ReadShare(n: nat, z: seq<Job>, now: Time)
    ensures Share(n, z)(Moving(Due(z, now), false)) == Share(n, z)(Resting)
  {
    DueMembers(z, now);
    UnpushedOfDue(z, now, Due(z, now));
    UnpushedMove(z, [], now, EntryCost(n));
    UnpushedNone(z);
    UnpushedNone(Due(z, now));
    UnpushedNone(NotDue(z, now));
  }

  /** An inserted entry can be read by every worker. */
  lemma InsertShares(ws: seq<Phase>, n: nat, z: seq<Job>, j: Job)
    requires n == |ws|
    ensures HandSum(ws, Share(n, Insert(z, j))) <= HandSum(ws, Share(n, z)) + AllHandle(n, j)
  {
    forall p ensures Share(n, Insert(z, j))(p) <= Share(n, z)(p) + EntryCost(n)(j) {
      UnpushedInsert(z, Snapshot(p), j, EntryCost(n));
    }
    SharesRise(ws, Share(n, Insert(z, j)), Share(n, z), EntryCost(n)(j));
  }

  /** If every share falls, the sum falls at least by as much as any one worker's share. */
  lemma {:induction false} SharesFall(ws: seq<Phase>, h: Phase -> nat, g: Phase -> nat, w: nat)
    requires w < |ws| && forall p :: h(p) <= g(p)
    ensures HandSum(ws, h) + g(ws[w]) <= HandSum(ws, g) + h(ws[w])
  {
    if w == 0 {
      SharesRise(ws[1..], h, g, 0);
    } else {
      SharesFall(ws[1..], h, g, w - 1);
    }
  }

  lemma WithoutShares(ws: seq<Phase>, n: nat, z: seq<Job>, j: Job, w: nat)
    requires w < |ws|
    ensures HandSum(ws, Share(n, Without(z, j))) + Share(n, z)(ws[w])
         <= HandSum(ws, Share(n, z)) + Share(n, Without(z, j))(ws[w])
  {
    forall p ensures Share(n, Without(z, j))(p) <= Share(n, z)(p) {
      UnpushedFewer(z, j, Snapshot(p), EntryCost(n));
    }
    SharesFall(ws, Share(n, Without(z, j)), Share(n, z), w);
  }

  lemma NotDueShares(ws: seq<Phase>, n: nat, z: seq<Job>, now: Time, w: nat)
    requires w < |ws|
    ensures HandSum(ws, Share(n, NotDue(z, now))) + Share(n, z)(ws[w])
         <= HandSum(ws, Share(n, z)) + Share(n, NotDue(z, now))(ws[w])
  {
    forall p ensures Share(n, NotDue(z, now))(p) <= Share(n, z)(p) {
      UnpushedMove(z, Snapshot(p), now, EntryCost(n));
    }
    SharesFall(ws, Share(n, NotDue(z, now)), Share(n, z), w);
  }

  // ---- One step --------------------------------------------------------------------------------------

  /** A step that brings some job nearer to its end. */
  predicate Productive(s: System, a: Action)
    requires Enabled(s, a)
  {
    || a.MoveOne? || a.Note? || a.Begin? || a.Finish? || a.Remove? || a.Leave? || a.Abandon?
    || (a.Take? && s.store.ready != [])
    || (a.MoveAll? && Due(s.store.delayed, s.clock) != [])
  }

  /** No further submissions; a worker pops only when its pipeline has run to the end. */
  predicate Unbroken(s: System, a: Action)
    requires Enabled(s, a)
  {
    !a.Submit? && (a.Take? ==> s.workers[a.w].due == [])
  }

  /** A step that only moves worker `w` on, to a cheaper phase. */
  lemma PhaseWeight(s: System, t: System, w: nat)
    requires w < |s.workers| && w < |t.workers| && t.workers == s.workers[w := t.workers[w]]
    requires t.store.ready == s.store.ready && t.store.delayed == s.store.delayed
    requires Snapshot(t.workers[w]) == Snapshot(s.workers[w])
    requires OwnCost(|s.workers|, t.workers[w]) < OwnCost(|s.workers|, s.workers[w])
    ensures Weight(t) < Weight(s)
  {
    HandUpdate(s.workers, w, t.workers[w], Share(|s.workers|, s.store.delayed));
  }

  lemma BeginWeight(s: System, w: nat, name: string)
    requires Enabled(s, Begin(w, name))
    ensures Weight(Apply(s, Begin(w, name))) < Weight(s)
  {
    PhaseWeight(s, Apply(s, Begin(w, name)), w);
  }

  lemma FinishWeight(s: System, w: nat, outcome: Outcome, delay: Time)
    requires Enabled(s, Finish(w, outcome, delay))
    ensures Weight(Apply(s, Finish(w, outcome, delay))) < Weight(s)
  {
    EndingIsCheaper(|s.workers|, s.workers[w].job, outcome, delay, s.clock);
    PhaseWeight(s, Apply(s, Finish(w, outcome, delay)), w);
  }

  lemma EndingIsCheaper(n: nat, j: Job, outcome: Outcome, delay: Time, now: Time)
    ensures var (e, ending) := Ended(j, outcome, delay, now); OwnCost(n, Closing(e, ending)) < OwnCost(n, Working(j))
  {
    var (e, ending) := Ended(j, outcome, delay, now);
    assert ending.ToRetry? ==> Remaining(j) == Remaining(e) + 1;
  }

  lemma RemoveWeight(s: System, w: nat)
    requires Enabled(s, Remove(w))
    ensures Weight(Apply(s, Remove(w))) < Weight(s)
  {
    PhaseWeight(s, Apply(s, Remove(w)), w);
  }

  lemma NoteWeight(s: System, w: nat)
    requires Enabled(s, Note(w))
    ensures Weight(Apply(s, Note(w))) < Weight(s)
  {
    PhaseWeight(s, Apply(s, Note(w)), w);
  }

  lemma AbandonWeight(s: System, w: nat)
    requires Enabled(s, Abandon(w))
    ensures Weight(Apply(s, Abandon(w))) < Weight(s)
  {
    PhaseWeight(s, Apply(s, Abandon(w)), w);
  }

  /** A retry costs at most one handling by every worker. */
  lemma QueuedWeight(s: System, j: Job)
    requires |s.workers| > 0
    ensures Weight(Queued(s, j)) <= Weight(s) + AllHandle(|s.workers|, j)
  {
    if j.scheduledAt <= s.clock {
      ReadyWeight(s, j);
    } else {
      LaterWeight(s, j);
    }
  }

  lemma LaterWeight(s: System, j: Job)
    requires j.scheduledAt > s.clock
    ensures Weight(Queued(s, j)) <= Weight(s) + AllHandle(|s.workers|, j)
  {
    var n, z := |s.workers|, s.store.delayed;
    InsertShares(s.workers, n, z, j);
    DelayedOnly(s, if j in z then z else Insert(z, j), Queued(s, j), AllHandle(n, j));
  }

  lemma DelayedOnly(s: System, z: seq<Job>, t: System, c: nat)
    requires t.workers == s.workers && t.store.ready == s.store.ready && t.store.delayed == z
    requires HandSum(s.workers, Share(|s.workers|, z)) <= HandSum(s.workers, Share(|s.workers|, s.store.delayed)) + c
    ensures Weight(t) <= Weight(s) + c
  {
  }

  lemma ReadyWeight(s: System, j: Job)
    requires |s.workers| > 0 && j.scheduledAt <= s.clock
    ensures Weight(Queued(s, j)) <= Weight(s) + AllHandle(|s.workers|, j)
  {
    SumCons(j, s.store.ready, ReadyCost(|s.workers|));
    AtLeastOnce(|s.workers|, j);
  }

  lemma AtLeastOnce(n: nat, j: Job)
    requires n > 0
    ensures EntryCost(n)(j) <= AllHandle(n, j)
  {
  }

  lemma LeaveWeight(s: System, w: nat)
    requires Enabled(s, Leave(w))
    ensures Weight(Apply(s, Leave(w))) < Weight(s)
  {
    if s.workers[w].ending.ToRetry? {
      RetryWeight(s, w);
    } else {
      EndsAtRest(s, w);
      PhaseWeight(s, Apply(s, Leave(w)), w);
    }
  }

  lemma EndsAtRest(s: System, w: nat)
    requires Enabled(s, Leave(w)) && !s.workers[w].ending.ToRetry?
    ensures var t := Apply(s, Leave(w));
      t.workers == s.workers[w := Resting] && t.store.ready == s.store.ready && t.store.delayed == s.store.delayed
  {
  }

  lemma RetryWeight(s: System, w: nat)
    requires Enabled(s, Leave(w)) && s.workers[w].ending.ToRetry?
    ensures Weight(Apply(s, Leave(w))) < Weight(s)
  {
    var n := |s.workers|;
    HandUpdate(s.workers, w, Resting, Share(n, s.store.delayed));
    RetryState(s, w);
    QueuedWeight(With(s, w, Resting), s.workers[w].job);
    assert Weight(Apply(s, Leave(w))) == Weight(Queued(With(s, w, Resting), s.workers[w].job));
  }

  lemma TakeWeight(s: System, w: nat)
    requires Enabled(s, Take(w)) && s.store.ready != [] && s.workers[w].due == []
    ensures Weight(Apply(s, Take(w))) < Weight(s)
  {
    var n := |s.workers|;
    SumLast(s.store.ready, ReadyCost(n));
    HandUpdate(s.workers, w, Popped(s.store.ready[|s.store.ready| - 1]), Share(n, s.store.delayed));
  }

  lemma PushWeight(s: System, w: nat)
    requires Enabled(s, MoveOne(w)) && !s.workers[w].dropNext
    ensures Weight(Apply(s, MoveOne(w))) < Weight(s)
  {
    var n := |s.workers|;
    SumCons(s.workers[w].due[0], s.store.ready, ReadyCost(n));
    HandUpdate(s.workers, w, Moving(s.workers[w].due, true), Share(n, s.store.delayed));
  }

  /** Dropping an entry leaves the others that the worker has not read as they were. */
  lemma DropShare(n: nat, z: seq<Job>, due: seq<Job>)
    requires Distinct(z) && due != []
    ensures Share(n, Without(z, due[0]))(Moving(due[1..], false)) < Share(n, z)(Moving(due, true))
  {
    var rest := Without(z, due[0]);
    WithoutDistinct(z, due[0]);
    UnpushedWithout(z, due, due[0]);
    assert due == [due[0]] + due[1..];
    forall j | j in rest ensures j in due <==> j in due[1..] {
      WithoutGone(z, due[0]);
    }
    UnpushedSame(rest, due, due[1..]);
  }

  lemma {:induction false} WithoutGone(z: seq<Job>, j: Job)
    requires Distinct(z)
    ensures j !in Without(z, j)
  {
    if z != [] {
      assert z == [z[0]] + z[1..];
      DistinctCons(z[0], z[1..]);
      WithoutGone(z[1..], j);
    }
  }

  lemma DropWeight(s: System, w: nat)
    requires Enabled(s, MoveOne(w)) && s.workers[w].dropNext && Distinct(s.store.delayed)
    ensures Weight(Apply(s, MoveOne(w))) < Weight(s)
  {
    var n, z, due := |s.workers|, s.store.delayed, s.workers[w].due;
    var rest := Without(z, due[0]);
    DropShare(n, z, due);
    WithoutShares(s.workers, n, z, due[0], w);
    HandUpdate(s.workers, w, Moving(due[1..], false), Share(n, rest));
  }

  lemma {:induction false} TwoMore(s: seq<Job>, n: nat)
    ensures Sum(s, EntryCost(n)) == Sum(s, ReadyCost(n)) + 2 * |s|
  {
    if s != [] {
      TwoMore(s[1..], n);
    }
  }

  /** What the due entries cost a worker at rest. */
  lemma RestingShare(n: nat, z: seq<Job>, now: Time)
    ensures Share(n, z)(Resting)
         == Share(n, NotDue(z, now))(Resting) + Sum(Due(z, now), ReadyCost(n)) + 2 * |Due(z, now)|
    ensures Share(n, NotDue(z, now))(Moving([], false)) == Share(n, NotDue(z, now))(Resting)
  {
    UnpushedMove(z, [], now, EntryCost(n));
    UnpushedNone(z);
    UnpushedNone(Due(z, now));
    UnpushedNone(NotDue(z, now));
    TwoMore(Due(z, now), n);
  }

  /** The whole mover makes every due entry ready: no worker has to handle it any more. */
  lemma MoveAllWeight(s: System, w: nat)
    requires Enabled(s, MoveAll(w))
    ensures Weight(Apply(s, MoveAll(w))) + 2 * |Due(s.store.delayed, s.clock)| <= Weight(s)
  {
    var n, z, now := |s.workers|, s.store.delayed, s.clock;
    RestingShare(n, z, now);
    SumReverse(Due(z, now), ReadyCost(n));
    SumAppend(Reverse(Due(z, now)), s.store.ready, ReadyCost(n));
    NotDueShares(s.workers, n, z, now, w);
    HandUpdate(s.workers, w, Moving([], false), Share(n, NotDue(z, now)));
  }

  lemma ReadWeight(s: System, w: nat)
    requires Enabled(s, ReadDue(w))
    ensures Weight(Apply(s, ReadDue(w))) == Weight(s)
  {
    var n, z := |s.workers|, s.store.delayed;
    ReadShare(n, z, s.clock);
    HandUpdate(s.workers, w, Moving(Due(z, s.clock), false), Share(n, z));
  }

  lemma ProductiveStep(s: System, a: Action)
    requires Lineage(s) && Enabled(s, a) && Unbroken(s, a) && Productive(s, a)
    ensures Weight(Apply(s, a)) < Weight(s)
  {
    match a {
      case MoveOne(w) => if s.workers[w].dropNext { DropWeight(s, w); } else { PushWeight(s, w); }
      case MoveAll(w) => MoveAllWeight(s, w);
      case Take(w) => TakeWeight(s, w);
      case Note(w) => NoteWeight(s, w);
      case Begin(w, name) => BeginWeight(s, w, name);
      case Finish(w, outcome, delay) => FinishWeight(s, w, outcome, delay);
      case Remove(w) => RemoveWeight(s, w);
      case Leave(w) => LeaveWeight(s, w);
      case Abandon(w) => AbandonWeight(s, w);
    }
  }

  /** Nothing has been pushed or taken, and time has not gone back. */
  predicate Still(s: System, t: System) {
    s.store.ready == t.store.ready && s.store.delayed == t.store.delayed && s.clock <= t.clock
  }

  lemma NoneDueStays(z: seq<Job>, now: Time)
    requires Due(z, now) == []
    ensures Reverse(Due(z, now)) == [] && NotDue(z, now) == z
  {
    NoneDue(z, now);
  }

  lemma IdleStep(s: System, a: Action)
    requires Enabled(s, a) && Unbroken(s, a) && !Productive(s, a)
    ensures Weight(Apply(s, a)) <= Weight(s) && Still(s, Apply(s, a))
  {
    match a {
      case Tick(_) =>
      case ReadDue(w) => ReadWeight(s, w);
      case MoveAll(w) =>
        MoveAllWeight(s, w);
        NoneDueStays(s.store.delayed, s.clock);
        assert Reverse(Due(s.store.delayed, s.clock)) + s.store.ready == s.store.ready;
      case Take(w) => HandUpdate(s.workers, w, Resting, Share(|s.workers|, s.store.delayed));
    }
  }

  /** The measure never rises, it falls on every productive step, and every other step leaves the lists alone. */
  lemma WeightStep(s: System, a: Action)
    requires Lineage(s) && Enabled(s, a) && Unbroken(s, a)
    ensures Weight(Apply(s, a)) <= Weight(s)
    ensures if Productive(s, a) then Weight(Apply(s, a)) < Weight(s) else Still(s, Apply(s, a))
  {
    if Productive(s, a) {
      ProductiveStep(s, a);
    } else {
      IdleStep(s, a);
    }
  }

  // ---- Infinite runs -----------------------------------------------------------------------------

  ghost predicate NextAt(f: nat -> System, acts: nat -> Action, i: nat) {
    Enabled(f(i), acts(i)) && f(i + 1) == Apply(f(i), acts(i))
  }

  ghost predicate Goes(f: nat -> System, acts: nat -> Action, n: nat, i: nat) {
    NextAt(f, acts, i) && (n <= i ==> Unbroken(f(i), acts(i)))
  }

  predicate IsStepOf(a: Action, w: nat) {
    !a.Tick? && !a.Submit? && a.w == w
  }

  ghost predicate ActsAfter(acts: nat -> Action, w: nat, i: nat) {
    exists k: nat :: i <= k && IsStepOf(acts(k), w)
  }

  ghost predicate TimeReaches(f: nat -> System, t: Time, i: nat) {
    exists k: nat :: i <= k && t <= f(k).clock
  }

  /** From `n` on nothing is submitted and every pipeline runs to its end; every worker keeps acting and
      the clock keeps growing. */
  ghost predicate FairRun(f: nat -> System, acts: nat -> Action, n: nat) {
    && Initial(f(0)) && 0 < |f(0).workers|
    && (forall i: nat :: Goes(f, acts, n, i))
    && (forall w: nat, i: nat :: w < |f(0).workers| ==> ActsAfter(acts, w, i))
    && (forall t: Time, i: nat :: TimeReaches(f, t, i))
  }

  lemma {:induction false} SoundAt(f: nat -> System, acts: nat -> Action, n: nat, i: nat)
    requires FairRun(f, acts, n)
    ensures Lineage(f(i)) && |f(i).workers| == |f(0).workers|
  {
    if i > 0 {
      SoundAt(f, acts, n, i - 1);
      assert Goes(f, acts, n, i - 1);
      LineageStep(f(i - 1), acts(i - 1));
      NoLoss.OriginGrows(f(i - 1), acts(i - 1));
    }
  }

  lemma {:induction false} DueLater(z: seq<Job>, now: Time, later: Time)
    requires Due(z, now) != [] && now <= later
    ensures Due(z, later) != []
  {
    DueMembers(z, now);
    DueMembers(z, later);
    assert Due(z, now)[0] in Due(z, now);
    assert Due(z, now)[0] in Due(z, later);
  }

  /** `m` is the measure along the run. */
  ghost predicate Measures(m: nat -> nat, f: nat -> System) {
    forall i: nat :: MeasuresAt(m, f, i)
  }

  ghost predicate MeasuresAt(m: nat -> nat, f: nat -> System, i: nat) {
    m(i) == Weight(f(i))
  }

  /** Between two points the measure has fallen, or nothing has been pushed or taken. */
  predicate FallsOrStays(m: nat -> nat, f: nat -> System, i: nat, j: nat) {
    m(j) <= m(i) && (m(j) < m(i) || Still(f(i), f(j)))
  }

  lemma NextFallsOrStill(f: nat -> System, acts: nat -> Action, n: nat, m: nat -> nat, i: nat)
    requires FairRun(f, acts, n) && Measures(m, f) && n <= i
    ensures FallsOrStays(m, f, i, i + 1)
    ensures Goes(f, acts, n, i) && (Productive(f(i), acts(i)) ==> m(i + 1) < m(i))
  {
    SoundAt(f, acts, n, i);
    assert Goes(f, acts, n, i) && MeasuresAt(m, f, i) && MeasuresAt(m, f, i + 1);
    WeightStep(f(i), acts(i));
  }

  lemma {:induction false} FallsOrStill(f: nat -> System, acts: nat -> Action, n: nat, m: nat -> nat, i: nat, j: nat)
    requires FairRun(f, acts, n) && Measures(m, f) && n <= i <= j
    ensures FallsOrStays(m, f, i, j)
    decreases j
  {
    if i < j {
      FallsOrStill(f, acts, n, m, i, j - 1);
      NextFallsOrStill(f, acts, n, m, j - 1);
    }
  }

  /** A worker on its way: it holds a job, or entries to be pushed or dropped. */
  predicate OnTheWay(p: Phase) {
    InHand(p) || (p.Moving? && p.due != [])
  }

  /** No job is waiting, in hand or in a snapshot. */
  predicate Settled(s: System) {
    && s.store.ready == [] && s.store.delayed == []
    && forall w :: 0 <= w < |s.workers| ==> !OnTheWay(s.workers[w])
  }

  /** The worker's next step, before which it stays as it is. */
  lemma NextStepOf(f: nat -> System, acts: nat -> Action, n: nat, i: nat, w: nat) returns (k: nat)
    requires FairRun(f, acts, n) && n <= i && w < |f(i).workers|
    ensures i <= k && IsStepOf(acts(k), w) && w < |f(k).workers| && f(k).workers[w] == f(i).workers[w]
    ensures Goes(f, acts, n, k)
  {
    SoundAt(f, acts, n, i);
    assert ActsAfter(acts, w, i);
    var last: nat :| i <= last && IsStepOf(acts(last), w);
    k := FirstStepOf(f, acts, n, i, w, last);
  }

  lemma {:induction false} FirstStepOf(f: nat -> System, acts: nat -> Action, n: nat, i: nat, w: nat,
    last: nat)
    returns (k: nat)
    requires FairRun(f, acts, n) && n <= i <= last && w < |f(i).workers| && IsStepOf(acts(last), w)
    ensures i <= k && IsStepOf(acts(k), w) && w < |f(k).workers| && f(k).workers[w] == f(i).workers[w]
    ensures Goes(f, acts, n, k)
    decreases last - i
  {
    assert Goes(f, acts, n, i);
    if IsStepOf(acts(i), w) {
      k := i;
    } else {
      NoLoss.Bystander(f(i), acts(i), w);
      k := FirstStepOf(f, acts, n, i + 1, w, last);
    }
  }

  /** A productive step at `k` lowers the measure below what it was before. */
  lemma Lowered(f: nat -> System, acts: nat -> Action, n: nat, m: nat -> nat, i: nat, k: nat)
    requires FairRun(f, acts, n) && Measures(m, f) && n <= i <= k
    requires Goes(f, acts, n, k) && Productive(f(k), acts(k))
    ensures m(k + 1) < m(i)
  {
    FallsOrStill(f, acts, n, m, i, k);
    NextFallsOrStill(f, acts, n, m, k);
  }

  /** The next step of a worker on its way is productive. */
  lemma WayProgress(f: nat -> System, acts: nat -> Action, n: nat, m: nat -> nat, i: nat, w: nat) returns (k: nat)
    requires FairRun(f, acts, n) && Measures(m, f) && n <= i && w < |f(i).workers| && OnTheWay(f(i).workers[w])
    ensures i < k && m(k) < m(i)
  {
    k := NextStepOf(f, acts, n, i, w);
    Lowered(f, acts, n, m, i, k);
    k := k + 1;
  }

  /** So is that of a worker about to pop, if some job is ready. */
  lemma PopProgress(f: nat -> System, acts: nat -> Action, n: nat, m: nat -> nat, i: nat, w: nat) returns (k: nat)
    requires FairRun(f, acts, n) && Measures(m, f) && n <= i && w < |f(i).workers| && f(i).workers[w].Moving?
      && f(i).store.ready != []
    ensures i < k && m(k) < m(i)
  {
    k := NextStepOf(f, acts, n, i, w);
    FallsOrStill(f, acts, n, m, i, k);
    if m(k) == m(i) {
      Lowered(f, acts, n, m, i, k);
      k := k + 1;
    }
  }

  /** A worker at rest reads first, and pops or pushes then. */
  lemma RestProgress(f: nat -> System, acts: nat -> Action, n: nat, m: nat -> nat, i: nat, w: nat) returns (k: nat)
    requires FairRun(f, acts, n) && Measures(m, f) && n <= i && w < |f(i).workers| && f(i).workers[w].Resting?
    requires f(i).store.ready != [] || Due(f(i).store.delayed, f(i).clock) != []
    ensures i < k && m(k) < m(i)
  {
    k := NextStepOf(f, acts, n, i, w);
    FallsOrStill(f, acts, n, m, i, k);
    if m(k) == m(i) {
      if Productive(f(k), acts(k)) {
        Lowered(f, acts, n, m, i, k);
        k := k + 1;
      } else {
        if Due(f(i).store.delayed, f(i).clock) != [] {
          DueLater(f(i).store.delayed, f(i).clock, f(k).clock);
        }
        ReadsNext(f(k), acts(k), w);
        FallsOrStill(f, acts, n, m, i, k + 1);
        k := MovingProgress(f, acts, n, m, k + 1, w);
      }
    }
  }

  lemma ReadsNext(s: System, a: Action, w: nat)
    requires Enabled(s, a) && IsStepOf(a, w) && !Productive(s, a) && w < |s.workers| && s.workers[w].Resting?
    ensures var t := Apply(s, a);
      && w < |t.workers| && t.workers[w].Moving? && t.store == s.store
      && (s.store.ready != [] || Due(s.store.delayed, s.clock) != [] ==> OnTheWay(t.workers[w]) || t.store.ready != [])
  {
    if a.MoveAll? {
      NoneDueStays(s.store.delayed, s.clock);
      assert Reverse(Due(s.store.delayed, s.clock)) + s.store.ready == s.store.ready;
    }
  }

  lemma MovingProgress(f: nat -> System, acts: nat -> Action, n: nat, m: nat -> nat, i: nat, w: nat) returns (k: nat)
    requires FairRun(f, acts, n) && Measures(m, f) && n <= i && w < |f(i).workers| && f(i).workers[w].Moving?
    requires OnTheWay(f(i).workers[w]) || f(i).store.ready != []
    ensures i < k && m(k) < m(i)
  {
    if OnTheWay(f(i).workers[w]) {
      k := WayProgress(f, acts, n, m, i, w);
    } else {
      k := PopProgress(f, acts, n, m, i, w);
    }
  }

  /** When jobs are due, any worker gets on with one. */
  lemma DueProgress(f: nat -> System, acts: nat -> Action, n: nat, m: nat -> nat, i: nat, w: nat) returns (k: nat)
    requires FairRun(f, acts, n) && Measures(m, f) && n <= i && w < |f(i).workers|
    requires f(i).store.ready != [] || Due(f(i).store.delayed, f(i).clock) != []
    ensures i < k && m(k) < m(i)
  {
    if f(i).workers[w].Resting? {
      k := RestProgress(f, acts, n, m, i, w);
    } else if OnTheWay(f(i).workers[w]) {
      k := WayProgress(f, acts, n, m, i, w);
    } else if f(i).store.ready != [] {
      k := PopProgress(f, acts, n, m, i, w);
    } else {
      k := NextStepOf(f, acts, n, i, w);
      FallsOrStill(f, acts, n, m, i, k);
      if m(k) == m(i) {
        DueLater(f(i).store.delayed, f(i).clock, f(k).clock);
        FallsOrStill(f, acts, n, m, i, k + 1);
        k := RestProgress(f, acts, n, m, k + 1, w);
      }
    }
  }

  /** All jobs are delayed: in time the first is due. */
  lemma DelayedProgress(f: nat -> System, acts: nat -> Action, n: nat, m: nat -> nat, i: nat) returns (k: nat)
    requires FairRun(f, acts, n) && Measures(m, f) && n <= i && f(i).store.delayed != []
    ensures i < k && m(k) < m(i)
  {
    var e := f(i).store.delayed[0];
    assert TimeReaches(f, e.scheduledAt, i);
    k :| i <= k && e.scheduledAt <= f(k).clock;
    FallsOrStill(f, acts, n, m, i, k);
    if m(k) == m(i) {
      SoundAt(f, acts, n, k);
      DueMembers(f(k).store.delayed, f(k).clock);
      assert e in f(k).store.delayed && IsDue(e, f(k).clock);
      assert e in Due(f(k).store.delayed, f(k).clock);
      k := DueProgress(f, acts, n, m, k, 0);
    }
  }

  lemma {:induction false} Settles(f: nat -> System, acts: nat -> Action, n: nat, m: nat -> nat, i: nat)
    returns (k: nat)
    requires FairRun(f, acts, n) && Measures(m, f) && n <= i
    ensures i <= k && Settled(f(k))
    decreases m(i)
  {
    k := i;
    if !Settled(f(i)) {
      SoundAt(f, acts, n, i);
      if w: nat :| w < |f(i).workers| && OnTheWay(f(i).workers[w]) {
        k := WayProgress(f, acts, n, m, i, w);
      } else if f(i).store.ready != [] {
        k := DueProgress(f, acts, n, m, i, 0);
      } else {
        k := DelayedProgress(f, acts, n, m, i);
      }
      k := Settles(f, acts, n, m, k);
    }
  }

  lemma SettledWeight(s: System)
    requires Settled(s)
    ensures Weight(s) == 0
  {
    NothingToDo(s.workers, |s.workers|);
  }

  lemma {:induction false} NothingToDo(ws: seq<Phase>, n: nat)
    requires forall w :: 0 <= w < |ws| ==> !OnTheWay(ws[w])
    ensures HandSum(ws, Share(n, [])) == 0
  {
    if ws != [] {
      NothingToDo(ws[1..], n);
    }
  }

  lemma NobodyOnTheWay(s: System, w: nat)
    requires Weight(s) == 0 && w < |s.workers|
    ensures !OnTheWay(s.workers[w])
  {
    HandOfWorker(s.workers, w, Share(|s.workers|, s.store.delayed));
    assert OwnCost(|s.workers|, s.workers[w]) == 0;
  }

  lemma StaysSettled(f: nat -> System, acts: nat -> Action, n: nat, m: nat -> nat, k: nat, i: nat)
    requires FairRun(f, acts, n) && Measures(m, f) && n <= k <= i && Settled(f(k))
    ensures Settled(f(i))
  {
    assert MeasuresAt(m, f, k) && MeasuresAt(m, f, i);
    SettledWeight(f(k));
    FallsOrStill(f, acts, n, m, k, i);
    forall w: nat | w < |f(i).workers| ensures !OnTheWay(f(i).workers[w]) {
      NobodyOnTheWay(f(i), w);
    }
  }

  ghost predicate AllReliable(acts: nat -> Action) {
    forall i: nat :: Reliable(acts(i))
  }

  lemma {:induction false} SafeForever(f: nat -> System, acts: nat -> Action, n: nat, i: nat)
    requires FairRun(f, acts, n) && AllReliable(acts)
    ensures NoLoss.Safe(f(i))
  {
    if i > 0 {
      SafeForever(f, acts, n, i - 1);
      assert Goes(f, acts, n, i - 1);
      NoLoss.SafeStep(f(i - 1), acts(i - 1));
    }
  }

  /** From some point on, and for ever, no job is waiting or in hand, and if no operation fails every
      accepted job is completed or failed: also when movers interleave. */
  lemma EveryJobEnds(f: nat -> System, acts: nat -> Action, n: nat) returns (k: nat)
    requires FairRun(f, acts, n)
    ensures n <= k && forall i: nat :: k <= i ==> Settled(f(i))
    ensures AllReliable(acts) ==> forall i: nat, id: JobId :: k <= i && id in f(i).origin ==>
      HasId(f(i).store.completed, id) || HasId(f(i).store.failed, id)
  {
    var m := (i: nat) => Weight(f(i));
    assert forall i: nat :: MeasuresAt(m, f, i);
    k := Settles(f, acts, n, m, n);
    forall i: nat | k <= i ensures Settled(f(i)) {
      StaysSettled(f, acts, n, m, k, i);
    }
    if AllReliable(acts) {
      forall i: nat, id: JobId | k <= i && id in f(i).origin
        ensures HasId(f(i).store.completed, id) || HasId(f(i).store.failed, id)
      {
        SafeForever(f, acts, n, i);
        EndedIfSettled(f(i), id);
      }
    }
  }

  lemma EndedIfSettled(s: System, id: JobId)
    requires Settled(s) && NoLoss.Present(s, id)
    ensures HasId(s.store.completed, id) || HasId(s.store.failed, id)
  {
  }

  // ---- Runs without repeated pushes ------------------------------------------------------------------

  ghost predicate AllFresh(f: nat -> System, acts: nat -> Action) {
    forall i: nat :: FreshAt(f, acts, i)
  }

  ghost predicate FreshAt(f: nat -> System, acts: nat -> Action, i: nat) {
    NextAt(f, acts, i) && ExactlyOnce.Fresh(f(i), acts(i))
  }

  lemma {:induction false} ExactForever(f: nat -> System, acts: nat -> Action, n: nat, i: nat)
    requires FairRun(f, acts, n) && AllReliable(acts) && AllFresh(f, acts)
    ensures ExactlyOnce.Exact(f(i))
  {
    if i == 0 {
      ExactlyOnce.InitialIsExact(f(0));
    } else {
      ExactForever(f, acts, n, i - 1);
      assert FreshAt(f, acts, i - 1);
      ExactlyOnce.ExactStep(f(i - 1), acts(i - 1));
    }
  }

  lemma {:induction false} NobodyCounts(ws: seq<Phase>, id: JobId)
    requires forall w :: 0 <= w < |ws| ==> !InHand(ws[w])
    ensures HandSum(ws, ExactlyOnce.Held(id)) == 0
  {
    if ws != [] {
      NobodyCounts(ws[1..], id);
    }
  }

  /** If moreover no push repeats an earlier one, each job ends in exactly one of the two lists, once. */
  lemma EveryJobEndsOnce(f: nat -> System, acts: nat -> Action, n: nat) returns (k: nat)
    requires FairRun(f, acts, n) && AllReliable(acts) && AllFresh(f, acts)
    ensures n <= k && forall i: nat, id: JobId :: k <= i && id in f(i).origin ==>
      Sum(f(i).store.completed, OneOf(id)) + Sum(f(i).store.failed, OneOf(id)) == 1
  {
    k := EveryJobEnds(f, acts, n);
    forall i: nat, id: JobId | k <= i && id in f(i).origin
      ensures Sum(f(i).store.completed, OneOf(id)) + Sum(f(i).store.failed, OneOf(id)) == 1
    {
      assert Settled(f(i));
      ExactForever(f, acts, n, i);
      NobodyCounts(f(i).workers, id);
      assert ExactlyOnce.Places(f(i), id) == 1;
    }
  }
}
