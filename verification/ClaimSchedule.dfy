/** A leader loop that launches a heartbeat every `period`, each landing within `delay`, and claims that
    end within `limit`: for which of these leadership is exclusive. A heartbeat is stamped by the client,
    at any time between its launch and its landing. */
module ClaimSchedule {
  import opened Registry
  import opened ClaimProtocol

  /** A schedule, in milliseconds. A holder launches a heartbeat at least every `period`; if the loop is
      `timed` it also waits for the period to end, on a clock of whole milliseconds, unless the last one
      has landed, as for the two that open a tenure. */
  datatype Plan = Plan(limit: Time, period: Time, delay: Time, timed: bool)

  predicate Keeps(l: Plan, c: Cluster) {
    && (forall n :: n in c.phase ==>
          && (InClaim(c.phase[n]) ==> c.clock <= c.phase[n].now + l.limit)
          && (c.phase[n].Holding? ==> c.clock <= c.phase[n].fired + l.period))
    && (forall n :: n in c.late ==> forall f :: f in c.late[n] ==> c.clock <= f + l.delay)
  }

  predicate Stamped(a: Action) {
    a.Land? ==> a.launched <= a.stamp
  }

  predicate OnTime(l: Plan, c: Cluster, a: Action) {
    l.timed && a.Launch? && a.n in c.phase && c.phase[a.n].Holding? && a.n in c.late ==>
      c.phase[a.n].fired !in c.late[a.n] || c.clock + 1 >= c.phase[a.n].fired + l.period
  }

  predicate Proper(l: Plan, c: Cluster, a: Action) {
    Stamped(a) && OnTime(l, c, a)
  }

  ghost predicate ScheduledRun(acts: seq<Action>, s: seq<Cluster>, l: Plan) {
    && IsRun(acts, s)
    && (forall i :: 0 <= i < |acts| ==> Proper(l, s[i], acts[i]))
    && (forall i :: 0 <= i < |s| ==> Keeps(l, s[i]))
  }

  /** Nobody can hold a claim at all. */
  predicate NeverHolds(l: Plan) {
    l.limit < VERIFY_DELAY || l.period < 0 || l.delay < 0
  }

  /** Heartbeats of a tenure land one after the other, and those of earlier tenures before it starts. */
  predicate OneByOne(l: Plan) {
    l.timed && l.delay < VERIFY_DELAY && l.delay + 1 < l.period
  }

  /** How far behind the last launch a landing can set a holder's document back. */
  function Setback(l: Plan): Time {
    if OneByOne(l) then 0 else l.delay
  }

  /** A heartbeat lands while it still counts for the verification, a claimant's flag does not go stale
      before it verifies, and a holder's document, at most a period, a delay and a setback old once its first
      heartbeat has landed, is never too old for the count; nor is it before that, unless the first
      heartbeat lands while the next claimant still sleeps. With period 0 no time passes while a claim is held. */
  predicate Exclusive(l: Plan) {
    || NeverHolds(l)
    || (&& l.delay <= VERIFY_WINDOW
        && l.limit + l.delay <= STALE_AFTER
        && (l.period == 0 || Spaced(l)))
  }

  predicate Spaced(l: Plan) {
    && l.period + Setback(l) + l.delay <= ACTIVE_WINDOW + VERIFY_DELAY
    && (l.delay < VERIFY_DELAY
        || (l.limit <= VERIFY_WINDOW + VERIFY_DELAY && l.limit + 2 * l.delay <= ACTIVE_WINDOW + VERIFY_DELAY))
  }

  predicate Counted(p: Phase) {
    p.Raising? || p.Verifying?
  }

  // ---- One node ------------------------------------------------------------------------------

  /** A heartbeat of this tenure has landed, and the next one is on its way before the period is over. */
  ghost predicate Refreshed(l: Plan, p: Phase, seen: Time, late: multiset<Time>)
    requires p.Holding?
  {
    && seen + l.delay >= p.raisedAt
    && (seen + Setback(l) >= p.fired || exists f :: f in late && f <= seen + Setback(l) + l.period)
  }

  /** The heartbeat launched on success is still in flight. */
  ghost predicate FirstInFlight(l: Plan, p: Phase, late: multiset<Time>, before: Time)
    requires p.Holding?
  {
    exists f :: f in late && f <= p.now + l.limit && f <= before
  }

  ghost predicate Tended(l: Plan, c: Cluster, x: NodeId)
    requires WellFormed(c) && x in c.phase
  {
    var p := c.phase[x];
    Flagged(p) ==>
      && x in c.docs && c.docs[x].lastSeen + l.delay >= p.now
      && (p.Holding? ==>
            && p.raisedAt + VERIFY_DELAY <= p.now + l.limit
            && (Refreshed(l, p, c.docs[x].lastSeen, c.late[x]) || FirstInFlight(l, p, c.late[x], c.clock)))
  }

  /** Whoever claims has only heartbeats of earlier tenures in flight, and a timed holder at most one besides. */
  ghost predicate Apart(l: Plan, p: Phase, late: multiset<Time>) {
    && (InClaim(p) ==> forall f :: f in late ==> f <= p.now)
    && (OneByOne(l) && p.Holding? ==> forall f :: f in late ==> f <= p.now || f == p.fired)
  }

  /** All that the invariants say of one node. */
  ghost predicate Local(l: Plan, c: Cluster, x: NodeId)
    requires WellFormed(c) && x in c.phase
  {
    var p := c.phase[x];
    && Paced(c, p) && FlagKept(c, x) && Tended(l, c, x) && Apart(l, p, c.late[x])
    && (InClaim(p) ==> c.clock <= p.now + l.limit)
    && (p.Holding? ==> c.clock <= p.fired + l.period)
    && (forall f :: f in c.late[x] ==> f <= c.clock <= f + l.delay)
  }

  /** A step of somebody else leaves a node's phase and heartbeats alone and at most clears its stale flag. */
  lemma OthersLeave(c: Cluster, a: Action, x: NodeId)
    requires WellFormed(c) && Enabled(c, a) && x in c.phase && (a.Tick? || a.n != x)
    ensures var d := Apply(c, a);
      && x in d.phase && d.phase[x] == c.phase[x] && x in d.late && d.late[x] == c.late[x]
      && (x in d.docs <==> x in c.docs)
      && (x in c.docs ==> d.docs[x].lastSeen == c.docs[x].lastSeen)
      && (x in c.docs && d.docs[x].isLeader ==> c.docs[x].isLeader)
      && d.clock >= c.clock && (!a.Tick? ==> d.clock == c.clock)
  {
    match a {
      case Verify(_, _) =>
      case _ =>
    }
  }

  /** A node's own step towards its flag. */
  lemma OwnStep(c: Cluster, a: Action)
    requires WellFormed(c) && Enabled(c, a) && !a.Tick? && a.n in c.phase
    ensures var d := Apply(c, a);
      var p, q := c.phase[a.n], d.phase[a.n];
      && d.clock == c.clock && a.n in d.late
      && (Flagged(q) && !Flagged(p) ==>
        a.RaiseFlag? && q.now == p.now && q.raisedAt == c.clock && a.n in d.docs && d.docs[a.n].lastSeen == p.now)
      && (Flagged(q) && Flagged(p) ==> q.now == p.now && q.raisedAt == p.raisedAt)
      && (Flagged(q) && Flagged(p) && !a.Land? && a.n in c.docs ==> a.n in d.docs && d.docs[a.n] == c.docs[a.n])
      && (a.Land? ==> q == p && a.n in d.docs && d.docs[a.n].lastSeen == a.stamp && a.launched in c.late[a.n])
  {
    match a {
      case Verify(_, _) =>
      case _ =>
    }
  }

  /** What it does to its heartbeats. */
  lemma OwnHeartbeats(c: Cluster, a: Action)
    requires WellFormed(c) && Enabled(c, a) && !a.Tick? && a.n in c.phase
    ensures var d := Apply(c, a);
      var p, q := c.phase[a.n], d.phase[a.n];
      && (forall f :: f in d.late[a.n] ==> f in c.late[a.n] || f == c.clock)
      && (q.Holding? && !p.Holding? ==>
            && a.Verify? && p.Verifying? && p.wakeAt <= c.clock && d == Decide(c, a.n)
            && c.clock in d.late[a.n] && q.fired == c.clock)
      && (q.Holding? && p.Holding? && !a.Land? ==>
            && (forall f :: f in c.late[a.n] ==> f in d.late[a.n])
            && (q.fired == p.fired || (q.fired == c.clock && c.clock in d.late[a.n])))
      && (q.Holding? && p.Holding? && a.Land? ==> q.fired == p.fired)
  {
    match a {
      case Launch(_) =>
      case Verify(_, _) =>
      case _ =>
    }
  }

  /** A landing, whenever it was launched, brings the document within one delay of the clock; if they
      land one by one it brings it up to the last launch. */
  lemma LandTends(l: Plan, c: Cluster, a: Action)
    requires WellFormed(c) && Enabled(c, a) && a.Land? && Stamped(a) && a.n in c.phase
    requires Local(l, c, a.n)
    ensures WellFormed(Apply(c, a)) && a.n in Apply(c, a).phase && Tended(l, Apply(c, a), a.n)
    ensures a.n in Apply(c, a).docs && Apply(c, a).docs[a.n].lastSeen + l.delay >= c.clock
  {
    Members(c, a);
    OwnStep(c, a);
    OwnHeartbeats(c, a);
    assert a.launched in c.late[a.n];
  }

  /** What a claim keeps of its time, and what it adds in flight. */
  lemma OwnClaim(c: Cluster, a: Action)
    requires WellFormed(c) && Enabled(c, a) && !a.Tick? && a.n in c.phase
    ensures var d := Apply(c, a);
      var p, q := c.phase[a.n], d.phase[a.n];
      && (InClaim(q) ==> (InClaim(p) && q.now == p.now) || q.now == c.clock)
      && (InClaim(q) && a.n in c.late ==> a.n in d.late && forall f :: f in d.late[a.n] ==> f in c.late[a.n])
      && (q.Holding? ==> (InClaim(p) || p.Holding?) && q.now == p.now)
      && (q.Holding? && p.Holding? && !a.Launch? && a.n in c.late ==>
            q.fired == p.fired && forall f :: f in d.late[a.n] ==> f in c.late[a.n])
  {
    match a {
      case Verify(_, _) =>
      case _ =>
    }
  }

  /** The next heartbeat of a timed holder waits for the last one. */
  lemma LaunchWaits(l: Plan, c: Cluster, a: Action)
    requires WellFormed(c) && Enabled(c, a) && a.Launch? && OnTime(l, c, a) && Local(l, c, a.n) && OneByOne(l)
    ensures c.phase[a.n].fired !in c.late[a.n]
  {
    assert a.n in c.late;
  }

  lemma ApartStep(l: Plan, c: Cluster, a: Action, x: NodeId)
    requires WellFormed(c) && Enabled(c, a) && Proper(l, c, a) && x in c.phase && Local(l, c, x)
    ensures WellFormed(Apply(c, a)) && x in Apply(c, a).phase
    ensures Apart(l, Apply(c, a).phase[x], Apply(c, a).late[x])
  {
    Members(c, a);
    if a.Tick? || a.n != x {
      OthersLeave(c, a, x);
    } else {
      OwnClaim(c, a);
      OwnHeartbeats(c, a);
      if a.Launch? && OneByOne(l) {
        LaunchWaits(l, c, a);
      }
    }
  }

  lemma OwnTended(l: Plan, c: Cluster, a: Action)
    requires WellFormed(c) && Enabled(c, a) && !a.Tick? && Stamped(a) && a.n in c.phase && 0 <= l.delay
    requires Local(l, c, a.n)
    ensures WellFormed(Apply(c, a)) && a.n in Apply(c, a).phase && Tended(l, Apply(c, a), a.n)
  {
    Members(c, a);
    if a.Land? {
      LandTends(l, c, a);
    } else {
      OwnStep(c, a);
      OwnHeartbeats(c, a);
      var x := a.n;
      var d := Apply(c, a);
      var p, q := c.phase[x], d.phase[x];
      if q.Holding? && !p.Holding? {
        assert c.clock in d.late[x];
        assert FirstInFlight(l, q, d.late[x], d.clock);
      } else if q.Holding? {
        var seen := c.docs[x].lastSeen;
        if FirstInFlight(l, p, c.late[x], c.clock) {
          var f :| f in c.late[x] && f <= p.now + l.limit && f <= c.clock;
          assert f in d.late[x];
        } else if seen + Setback(l) < p.fired {
          var f :| f in c.late[x] && f <= seen + Setback(l) + l.period;
          assert f in d.late[x];
        } else if q.fired != p.fired {
          assert c.clock in d.late[x] && c.clock <= seen + Setback(l) + l.period;
        }
      }
    }
  }

  lemma TendedStep(l: Plan, c: Cluster, a: Action, x: NodeId)
    requires WellFormed(c) && Enabled(c, a) && Stamped(a) && x in c.phase && 0 <= l.delay
    requires Local(l, c, x)
    ensures WellFormed(Apply(c, a)) && x in Apply(c, a).phase && Tended(l, Apply(c, a), x)
  {
    Members(c, a);
    if a.Tick? || a.n != x {
      OthersLeave(c, a, x);
      if c.phase[x].Holding? && FirstInFlight(l, c.phase[x], c.late[x], c.clock) {
        assert FirstInFlight(l, c.phase[x], c.late[x], Apply(c, a).clock);
      }
    } else {
      OwnTended(l, c, a);
    }
  }

  // ---- Every run of a schedule -------------------------------------------------------------------

  ghost predicate Tracked(l: Plan, c: Cluster) {
    && Kept(c) && LaunchedBefore(c)
    && forall x :: x in c.phase ==> Tended(l, c, x) && Apart(l, c.phase[x], c.late[x])
  }

  lemma LocalOf(l: Plan, c: Cluster, x: NodeId)
    requires Tracked(l, c) && Keeps(l, c) && x in c.phase
    ensures Local(l, c, x)
  {
    assert Paced(c, c.phase[x]) && FlagKept(c, x) && Tended(l, c, x);
    assert x in c.late;
  }

  lemma LaunchedBeforeStep(c: Cluster, a: Action)
    requires WellFormed(c) && LaunchedBefore(c) && Enabled(c, a)
    ensures LaunchedBefore(Apply(c, a))
  {
    Members(c, a);
    var d := Apply(c, a);
    forall n | n in d.late ensures forall f :: f in d.late[n] ==> f <= d.clock {
      if a.Tick? || a.n != n {
        OthersLeave(c, a, n);
      } else {
        OwnHeartbeats(c, a);
        OwnStep(c, a);
      }
    }
  }

  lemma TrackedStep(l: Plan, c: Cluster, a: Action)
    requires Tracked(l, c) && Keeps(l, c) && Enabled(c, a) && Proper(l, c, a) && 0 <= l.delay
    ensures Tracked(l, Apply(c, a))
  {
    KeptStep(c, a);
    Members(c, a);
    LaunchedBeforeStep(c, a);
    var d := Apply(c, a);
    forall x | x in d.phase ensures Tended(l, d, x) && Apart(l, d.phase[x], d.late[x]) {
      LocalOf(l, c, x);
      TendedStep(l, c, a, x);
      ApartStep(l, c, a, x);
    }
  }

  lemma {:induction false} TrackedAt(l: Plan, acts: seq<Action>, s: seq<Cluster>, i: nat)
    requires ScheduledRun(acts, s, l) && 0 <= l.delay && i < |s|
    ensures Tracked(l, s[i])
  {
    if i > 0 {
      TrackedAt(l, acts, s, i - 1);
      assert StepAt(acts, s, i - 1);
      assert Keeps(l, s[i - 1]) && Proper(l, s[i - 1], acts[i - 1]);
      TrackedStep(l, s[i - 1], acts[i - 1]);
    }
  }

  function Max(a: int, b: int): int {
    if a < b then b else a
  }

  function Oldest(l: Plan): Time {
    Max(l.period + Setback(l), l.limit + l.delay) + l.delay
  }

  /** A holder's document is never older than a period, a setback and a delay, or a claim and two delays:
      the landing of an older heartbeat can set it back, and the next one may be a delay away. */
  lemma HolderIsFresh(l: Plan, c: Cluster, x: NodeId)
    requires WellFormed(c) && x in c.phase && c.phase[x].Holding? && Local(l, c, x) && 0 <= l.delay
    ensures Refreshed(l, c.phase[x], c.docs[x].lastSeen, c.late[x]) ==>
      c.clock <= c.docs[x].lastSeen + l.period + Setback(l) + l.delay
    ensures FirstInFlight(l, c.phase[x], c.late[x], c.clock) ==>
      c.clock <= c.docs[x].lastSeen + l.limit + 2 * l.delay
    ensures c.clock <= c.docs[x].lastSeen + Oldest(l)
  {
    var p := c.phase[x];
    var seen := c.docs[x].lastSeen;
    if FirstInFlight(l, p, c.late[x], c.clock) {
      var f :| f in c.late[x] && f <= p.now + l.limit && f <= c.clock;
    }
    if Refreshed(l, p, seen, c.late[x]) && seen + Setback(l) < p.fired {
      var f :| f in c.late[x] && f <= seen + Setback(l) + l.period;
    }
  }

  /** The freshness hypothesis discharged, for stamps taken anywhere between launch and landing. */
  lemma ScheduleKeepsHoldersFresh(acts: seq<Action>, s: seq<Cluster>, l: Plan)
    requires ScheduledRun(acts, s, l) && 0 <= l.delay
    ensures TimelyRun(acts, s, l.limit, Oldest(l))
  {
    var gap := Oldest(l);
    forall i | 0 <= i < |s| ensures Timely(s[i], l.limit, gap) {
      TrackedAt(l, acts, s, i);
      assert Keeps(l, s[i]);
      forall n | n in s[i].phase && s[i].phase[n].Holding?
        ensures n in s[i].docs && s[i].clock <= s[i].docs[n].lastSeen + gap
      {
        LocalOf(l, s[i], n);
        HolderIsFresh(l, s[i], n);
      }
    }
  }
}
