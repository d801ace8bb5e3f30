/** Schedules within ClaimSchedule.Exclusive never have two holders. What the proof follows is a pair:
    a node `x` whose flag is up and a claimant `b` that has counted nobody. */
module ClaimExclusive {
  import opened Registry
  import opened ClaimProtocol
  import opened ClaimSchedule

  /** The document of `x` was written after `b` read its clock, give or take one delay. */
  predicate Recent(l: Plan, c: Cluster, x: NodeId, b: NodeId)
    requires WellFormed(c) && x in c.phase && x in c.docs && b in c.phase && Counted(c.phase[b])
  {
    c.docs[x].lastSeen + l.delay >= c.phase[b].now
  }

  /** Since when `b` cannot have counted: it counts before it raises its flag. */
  function CountedBy(c: Cluster, b: NodeId): Time
    requires b in c.phase && Counted(c.phase[b])
  {
    if c.phase[b].Raising? then c.clock else c.phase[b].raisedAt
  }

  /** Why `b` counted nobody although the flag of `x` is up: it is recent, or it was too old, or it was
      raised later, or it had gone stale just before its first heartbeat landed. */
  ghost predicate Missed(l: Plan, c: Cluster, x: NodeId, b: NodeId)
    requires WellFormed(c) && x in c.phase && b in c.phase
  {
    l.period != 0 && x != b && Flagged(c.phase[x]) && Counted(c.phase[b]) && x in c.docs ==>
      var p := c.phase[x];
      || Recent(l, c, x, b)
      || c.docs[x].lastSeen + ACTIVE_WINDOW < c.phase[b].now
      || (p.raisedAt >= c.phase[b].now && c.docs[x].lastSeen == p.now)
      || (l.delay < VERIFY_DELAY && p.Holding? && exists f :: f in c.late[x] && f <= CountedBy(c, b))
  }

  /** A holder that held its claim when `b` raised its flag. */
  ghost predicate HeldBefore(l: Plan, c: Cluster, x: NodeId, b: NodeId)
    requires WellFormed(c) && x in c.phase && x in c.docs && b in c.phase
    requires c.phase[x].Holding? && c.phase[b].Verifying?
  {
    if l.period == 0 then c.clock <= c.phase[b].raisedAt
    else
      || Refreshed(l, c.phase[x], c.docs[x].lastSeen, c.late[x])
      || FirstInFlight(l, c.phase[x], c.late[x], c.phase[b].raisedAt)
  }

  /** While `b` verifies, a holder is recent, or held before `b` raised its flag. */
  ghost predicate Ordered(l: Plan, c: Cluster, x: NodeId, b: NodeId)
    requires WellFormed(c) && x in c.phase && b in c.phase
  {
    x != b && c.phase[x].Holding? && c.phase[b].Verifying? && x in c.docs ==>
      Recent(l, c, x, b) || HeldBefore(l, c, x, b)
  }

  lemma FlagIsUp(l: Plan, c: Cluster, x: NodeId)
    requires WellFormed(c) && x in c.phase && Local(l, c, x) && c.phase[x].Verifying?
    requires l.limit + l.delay <= STALE_AFTER
    ensures x in c.docs && c.docs[x].isLeader
  {
  }

  /** `b` counts and does not see `x`. */
  lemma CountMisses(l: Plan, c: Cluster, x: NodeId, b: NodeId)
    requires WellFormed(c) && x in c.phase && b in c.phase && x != b && Local(l, c, x) && Local(l, c, b)
    requires Exclusive(l) && !NeverHolds(l) && l.period != 0 && Flagged(c.phase[x]) && c.phase[b].Counting?
    requires FreshLeaders(c.docs, c.phase[b].now - ACTIVE_WINDOW) - {b} == {}
    ensures x in c.docs
    ensures || c.docs[x].lastSeen + ACTIVE_WINDOW < c.phase[b].now
            || (l.delay < VERIFY_DELAY && c.phase[x].Holding? && exists f :: f in c.late[x] && f <= c.clock)
  {
    if c.docs[x].isLeader {
      assert x !in FreshLeaders(c.docs, c.phase[b].now - ACTIVE_WINDOW) - {b};
    } else if c.phase[x].Verifying? {
      FlagIsUp(l, c, x);
    } else {
      HolderIsFresh(l, c, x);
      assert !Refreshed(l, c.phase[x], c.docs[x].lastSeen, c.late[x]);
      var f :| f in c.late[x] && f <= c.phase[x].now + l.limit && f <= c.clock;
    }
  }

  lemma MissedStep(l: Plan, c: Cluster, a: Action, x: NodeId, b: NodeId)
    requires WellFormed(c) && Enabled(c, a) && Proper(l, c, a) && x in c.phase && b in c.phase
    requires Local(l, c, x) && Local(l, c, b) && Missed(l, c, x, b) && Exclusive(l) && !NeverHolds(l)
    ensures WellFormed(Apply(c, a)) && x in Apply(c, a).phase && b in Apply(c, a).phase
    ensures Missed(l, Apply(c, a), x, b)
  {
    Members(c, a);
    if x == b {
    } else if a.Tick? || (a.n != x && a.n != b) {
      OthersLeave(c, a, x);
      OthersLeave(c, a, b);
    } else if a.n == x {
      MissedByOwner(l, c, a, b);
    } else {
      MissedByClaimant(l, c, a, x);
    }
  }

  /** A step of the flag's owner. */
  lemma MissedByOwner(l: Plan, c: Cluster, a: Action, b: NodeId)
    requires WellFormed(c) && Enabled(c, a) && Proper(l, c, a) && !a.Tick? && a.n in c.phase && b in c.phase && a.n != b
    requires Local(l, c, a.n) && Local(l, c, b) && Missed(l, c, a.n, b)
    ensures WellFormed(Apply(c, a)) && a.n in Apply(c, a).phase && b in Apply(c, a).phase
    ensures Missed(l, Apply(c, a), a.n, b)
  {
    Members(c, a);
    OthersLeave(c, a, b);
    OwnStep(c, a);
    OwnHeartbeats(c, a);
    if a.Land? {
      LandTends(l, c, a);
    }
  }

  /** A step of the claimant. */
  lemma MissedByClaimant(l: Plan, c: Cluster, a: Action, x: NodeId)
    requires WellFormed(c) && Enabled(c, a) && !a.Tick? && a.n in c.phase && x in c.phase && a.n != x
    requires Local(l, c, x) && Local(l, c, a.n) && Missed(l, c, x, a.n) && Exclusive(l) && !NeverHolds(l)
    ensures WellFormed(Apply(c, a)) && x in Apply(c, a).phase && a.n in Apply(c, a).phase
    ensures Missed(l, Apply(c, a), x, a.n)
  {
    Members(c, a);
    OthersLeave(c, a, x);
    ClaimantStep(c, a);
    if l.period != 0 && a.Count? && Flagged(c.phase[x]) && Counted(Apply(c, a).phase[a.n]) {
      CountMisses(l, c, x, a.n);
    }
  }

  lemma ClaimantStep(c: Cluster, a: Action)
    requires WellFormed(c) && Enabled(c, a) && !a.Tick? && a.n in c.phase
    ensures var d := Apply(c, a);
      var p, q := c.phase[a.n], d.phase[a.n];
      && (Counted(q) && !Counted(p) ==>
        && a.Count? && p.Counting? && q.Raising? && q.now == p.now
        && FreshLeaders(c.docs, p.now - ACTIVE_WINDOW) - {a.n} == {})
      && (Counted(q) && Counted(p) ==> q.now == p.now && (p.Verifying? ==> q.Verifying?))
      && (q.Verifying? && p.Verifying? ==> q.raisedAt == p.raisedAt)
      && (q.Verifying? && !p.Verifying? ==> p.Raising? && q.raisedAt == c.clock)
  {
    match a {
      case Verify(_, _) =>
      case _ =>
    }
  }

  /** Of two claimants that verify, the one that passes has read its clock so much later that its
      document will count for the other. */
  lemma PasserIsRecent(l: Plan, c: Cluster, x: NodeId, b: NodeId)
    requires WellFormed(c) && x in c.phase && b in c.phase && x != b
    requires c.phase[x].Verifying? && c.phase[b].Verifying? && Decide(c, x).phase[x].Holding?
    requires Local(l, c, x) && Local(l, c, b) && Exclusive(l) && !NeverHolds(l)
    ensures x in c.docs && Recent(l, c, x, b)
  {
    FlagIsUp(l, c, x);
    FlagIsUp(l, c, b);
    if c.docs[b].lastSeen >= c.phase[x].now - VERIFY_WINDOW {
      TwoMembers(FreshLeaders(c.docs, c.phase[x].now - VERIFY_WINDOW), x, b);
    }
  }

  lemma OrderedStep(l: Plan, c: Cluster, a: Action, x: NodeId, b: NodeId)
    requires WellFormed(c) && Enabled(c, a) && Proper(l, c, a) && x in c.phase && b in c.phase
    requires Local(l, c, x) && Local(l, c, b) && Ordered(l, c, x, b) && Exclusive(l) && !NeverHolds(l)
    requires Keeps(l, Apply(c, a))
    ensures WellFormed(Apply(c, a)) && x in Apply(c, a).phase && b in Apply(c, a).phase
    ensures Ordered(l, Apply(c, a), x, b)
  {
    Members(c, a);
    if x == b {
    } else if a.Tick? || (a.n != x && a.n != b) {
      OthersLeave(c, a, x);
      OthersLeave(c, a, b);
    } else if a.n == x {
      OrderedByOwner(l, c, a, b);
    } else {
      OthersLeave(c, a, x);
      ClaimantStep(c, a);
    }
  }

  lemma OrderedByOwner(l: Plan, c: Cluster, a: Action, b: NodeId)
    requires WellFormed(c) && Enabled(c, a) && Proper(l, c, a) && !a.Tick? && a.n in c.phase && b in c.phase && a.n != b
    requires Local(l, c, a.n) && Local(l, c, b) && Ordered(l, c, a.n, b) && Exclusive(l) && !NeverHolds(l)
    ensures WellFormed(Apply(c, a)) && a.n in Apply(c, a).phase && b in Apply(c, a).phase
    ensures Ordered(l, Apply(c, a), a.n, b)
  {
    var x := a.n;
    var d := Apply(c, a);
    Members(c, a);
    OthersLeave(c, a, b);
    OwnStep(c, a);
    OwnHeartbeats(c, a);
    if a.Land? {
      LandTends(l, c, a);
    } else if d.phase[x].Holding? && c.phase[b].Verifying? {
      if !c.phase[x].Holding? {
        PasserIsRecent(l, c, x, b);
      } else {
        LaunchKeepsOrder(l, c, a, b);
      }
    }
  }

  lemma LaunchKeepsOrder(l: Plan, c: Cluster, a: Action, b: NodeId)
    requires WellFormed(c) && Enabled(c, a) && !a.Tick? && !a.Land? && a.n in c.phase && b in c.phase && a.n != b
    requires Local(l, c, a.n) && Ordered(l, c, a.n, b) && c.phase[b].Verifying?
    requires c.phase[a.n].Holding? && Apply(c, a).phase[a.n].Holding?
    ensures WellFormed(Apply(c, a)) && b in Apply(c, a).phase && Ordered(l, Apply(c, a), a.n, b)
  {
    var x := a.n;
    var d := Apply(c, a);
    Members(c, a);
    OthersLeave(c, a, b);
    OwnStep(c, a);
    OwnHeartbeats(c, a);
    var p, seen, before := c.phase[x], c.docs[x].lastSeen, c.phase[b].raisedAt;
    if FirstInFlight(l, p, c.late[x], before) {
      var f :| f in c.late[x] && f <= p.now + l.limit && f <= before;
      assert f in d.late[x];
    } else if Refreshed(l, p, seen, c.late[x]) && seen + Setback(l) < p.fired {
      var f :| f in c.late[x] && f <= seen + Setback(l) + l.period;
      assert f in d.late[x];
    }
  }

  // ---- The verification --------------------------------------------------------------------------

  /** A holder that has been refreshed since is seen. */
  lemma RefreshedIsSeen(l: Plan, c: Cluster, b: NodeId, x: NodeId)
    requires WellFormed(c) && b in c.phase && x in c.phase && b != x
    requires c.phase[b].Verifying? && c.phase[b].wakeAt <= c.clock && c.phase[x].Holding?
    requires Local(l, c, b) && Local(l, c, x) && Missed(l, c, x, b) && Exclusive(l) && !NeverHolds(l) && l.period != 0
    requires Refreshed(l, c.phase[x], c.docs[x].lastSeen, c.late[x])
    ensures c.docs[x].isLeader && c.docs[x].lastSeen >= c.phase[b].now - VERIFY_WINDOW
  {
    HolderIsFresh(l, c, x);
  }

  /** A holder whose first heartbeat is still in flight is seen. */
  lemma UnrefreshedIsSeen(l: Plan, c: Cluster, b: NodeId, x: NodeId)
    requires WellFormed(c) && b in c.phase && x in c.phase && b != x
    requires c.phase[b].Verifying? && c.phase[b].wakeAt <= c.clock && c.phase[x].Holding?
    requires Local(l, c, b) && Local(l, c, x) && Missed(l, c, x, b) && Exclusive(l) && !NeverHolds(l) && l.period != 0
    requires FirstInFlight(l, c.phase[x], c.late[x], c.phase[b].raisedAt)
    ensures c.docs[x].isLeader && c.docs[x].lastSeen >= c.phase[b].now - VERIFY_WINDOW
  {
    var f :| f in c.late[x] && f <= c.phase[x].now + l.limit && f <= c.phase[b].raisedAt;
    assert c.phase[b].raisedAt + VERIFY_DELAY <= c.clock <= f + l.delay;
  }

  lemma HolderIsSeen(l: Plan, c: Cluster, b: NodeId, x: NodeId)
    requires WellFormed(c) && b in c.phase && x in c.phase && b != x
    requires c.phase[b].Verifying? && c.phase[b].wakeAt <= c.clock && c.phase[x].Holding?
    requires Local(l, c, b) && Local(l, c, x) && Missed(l, c, x, b) && Ordered(l, c, x, b)
    requires Exclusive(l) && !NeverHolds(l)
    ensures c.docs[x].isLeader && c.docs[x].lastSeen >= c.phase[b].now - VERIFY_WINDOW
  {
    if Recent(l, c, x, b) {
    } else if Refreshed(l, c.phase[x], c.docs[x].lastSeen, c.late[x]) {
      RefreshedIsSeen(l, c, b, x);
    } else {
      UnrefreshedIsSeen(l, c, b, x);
    }
  }

  // ---- Runs --------------------------------------------------------------------------------------

  ghost predicate Watched(l: Plan, c: Cluster) {
    && Tracked(l, c)
    && (forall x, b :: x in c.phase && b in c.phase ==> Missed(l, c, x, b))
    && (forall x, b :: x in c.phase && b in c.phase ==> Ordered(l, c, x, b))
  }

  lemma WatchedStep(l: Plan, c: Cluster, a: Action)
    requires Watched(l, c) && Enabled(c, a) && Proper(l, c, a) && Keeps(l, c) && Keeps(l, Apply(c, a))
    requires Exclusive(l) && !NeverHolds(l)
    ensures Watched(l, Apply(c, a))
  {
    var d := Apply(c, a);
    TrackedStep(l, c, a);
    Members(c, a);
    forall x, b | x in d.phase && b in d.phase ensures Missed(l, d, x, b) {
      LocalOf(l, c, x);
      LocalOf(l, c, b);
      assert Missed(l, c, x, b);
      MissedStep(l, c, a, x, b);
    }
    forall x, b | x in d.phase && b in d.phase ensures Ordered(l, d, x, b) {
      LocalOf(l, c, x);
      LocalOf(l, c, b);
      assert Ordered(l, c, x, b);
      OrderedStep(l, c, a, x, b);
    }
  }

  /** A claimant that passes verification leaves no earlier holder behind. */
  lemma ExclusiveStep(l: Plan, c: Cluster, a: Action)
    requires Watched(l, c) && Enabled(c, a) && Keeps(l, c) && AtMostOneHolder(c)
    requires Exclusive(l) && !NeverHolds(l)
    ensures AtMostOneHolder(Apply(c, a))
  {
    var d := Apply(c, a);
    if a.Verify? && d.phase[a.n].Holding? {
      var b := a.n;
      LocalOf(l, c, b);
      FlagIsUp(l, c, b);
      forall x | x in c.phase && c.phase[x].Holding? ensures false {
        LocalOf(l, c, x);
        assert Missed(l, c, x, b) && Ordered(l, c, x, b);
        HolderIsSeen(l, c, b, x);
        VerificationSees(c, b, x);
      }
    } else {
      NoNewHolder(c, a);
    }
  }

  lemma {:induction false} WatchedAt(l: Plan, acts: seq<Action>, s: seq<Cluster>, i: nat)
    requires ScheduledRun(acts, s, l) && i < |s| && Exclusive(l) && !NeverHolds(l)
    ensures Watched(l, s[i]) && AtMostOneHolder(s[i])
  {
    if i > 0 {
      WatchedAt(l, acts, s, i - 1);
      assert StepAt(acts, s, i - 1);
      assert Keeps(l, s[i - 1]) && Keeps(l, s[i]) && Proper(l, s[i - 1], acts[i - 1]);
      WatchedStep(l, s[i - 1], acts[i - 1]);
      ExclusiveStep(l, s[i - 1], acts[i - 1]);
    }
  }

  /** A claim that must end within 100 ms never ends, and a holder that must launch or land a heartbeat
      before it does so breaks its schedule at once. */
  lemma NoClaimFinishes(l: Plan, c: Cluster, a: Action)
    requires Kept(c) && Enabled(c, a) && NeverHolds(l) && Keeps(l, c) && Keeps(l, Apply(c, a))
    requires forall n :: n in c.phase ==> !c.phase[n].Holding?
    ensures forall n :: n in Apply(c, a).phase ==> !Apply(c, a).phase[n].Holding?
  {
    if a.Verify? {
      assert Paced(c, c.phase[a.n]);
      var d := Apply(c, a);
      if d.phase[a.n].Holding? {
        OwnHeartbeats(c, a);
        assert c.clock in d.late[a.n];
      }
    }
  }

  lemma {:induction false} NobodyHolds(l: Plan, acts: seq<Action>, s: seq<Cluster>, i: nat)
    requires ScheduledRun(acts, s, l) && i < |s| && NeverHolds(l)
    ensures forall n :: n in s[i].phase ==> !s[i].phase[n].Holding?
  {
    if i > 0 {
      NobodyHolds(l, acts, s, i - 1);
      KeptAt(acts, s, i - 1);
      assert Keeps(l, s[i - 1]) && Keeps(l, s[i]);
      assert StepAt(acts, s, i - 1);
      NoClaimFinishes(l, s[i - 1], acts[i - 1]);
    }
  }

  /** Mutual exclusion for every schedule within the bound. */
  lemma SchedulesAreExclusive(l: Plan, acts: seq<Action>, s: seq<Cluster>, i: nat)
    requires ScheduledRun(acts, s, l) && i < |s| && Exclusive(l)
    ensures AtMostOneHolder(s[i])
  {
    if NeverHolds(l) {
      NobodyHolds(l, acts, s, i);
    } else {
      WatchedAt(l, acts, s, i);
    }
  }
}
