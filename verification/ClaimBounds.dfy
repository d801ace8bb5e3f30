/** Exactly which schedules keep leadership exclusive, which ages of documents do, and what follows for
    the election interval that a deployment sets. */
module ClaimBounds {
  import opened Registry
  import opened ClaimProtocol
  import opened ClaimSchedule
  import opened ClaimExclusive
  import opened ClaimRuns
  import opened ClaimSplits
  import opened ClaimTerms

  // ---- From a cold start -------------------------------------------------------------------------

  ghost function Reach(l: Plan): iset<Cluster> {
    Reached(Within(l))
  }

  lemma ColdTwo(l: Plan, t: Time)
    ensures Closed(Within(l), Reach(l)) && Two(map[], t, Idle, Idle, NONE, NONE) in Reach(l)
  {
    ReachedIsClosed(Within(l));
    TwoFit(l, map[], t, Idle, Idle, NONE, NONE);
    Starts(Within(l), Two(map[], t, Idle, Idle, NONE, NONE));
  }

  lemma LoneOfTwo(docs: Docs, was: Time, t: Time, late: multiset<Time>)
    ensures Lone(Two(map[], was, Idle, Idle, NONE, NONE), A, docs, t, Idle, late)
         == Two(docs, t, Idle, Idle, late, NONE)
  {
    FirstMoves(map[], was, Idle, Idle, NONE, NONE, Idle, late);
  }

  /** A heartbeat of an earlier tenure of the first node is in flight since `t`. */
  lemma AfterTenure(l: Plan, t: Time)
    requires l.limit >= 100 && l.period >= 0 && t <= 0 <= t + l.delay
    ensures Closed(Within(l), Reach(l)) && Two(Past(A, t), 0, Idle, Idle, multiset{t}, NONE) in Reach(l)
  {
    ColdTwo(l, t - VERIFY_DELAY);
    EarlierTenure(l, Reach(l), Two(map[], t - VERIFY_DELAY, Idle, Idle, NONE, NONE), A);
    LoneOfTwo(Past(A, t), t - VERIFY_DELAY, t, multiset{t});
    TwoWait(l, Reach(l), Past(A, t), t, multiset{t});
  }

  lemma TwoWait(l: Plan, reach: iset<Cluster>, docs: Docs, t: Time, late: multiset<Time>)
    requires Closed(Within(l), reach) && Two(docs, t, Idle, Idle, late, NONE) in reach
    requires t <= 0 && forall f :: f in late ==> 0 <= f + l.delay
    ensures Two(docs, 0, Idle, Idle, late, NONE) in reach
  {
    Waits(l, reach, Two(docs, t, Idle, Idle, late, NONE), docs, t, 0, Idle, Idle, late, NONE);
  }

  lemma ColdThree(l: Plan, t: Time)
    ensures Closed(Within(l), Reach(l)) && Three(map[], t, Idle, Idle, Idle, NONE, NONE) in Reach(l)
  {
    ReachedIsClosed(Within(l));
    ThreeFit(l, map[], t, Idle, Idle, Idle, NONE, NONE);
    Starts(Within(l), Three(map[], t, Idle, Idle, Idle, NONE, NONE));
  }

  lemma LoneOfThree(docs: Docs, was: Time, t: Time, late: multiset<Time>)
    ensures Lone(Three(map[], was, Idle, Idle, Idle, NONE, NONE), B, docs, t, Idle, late)
         == Three(docs, t, Idle, Idle, Idle, NONE, late)
  {
    var c := Three(map[], was, Idle, Idle, Idle, NONE, NONE);
    assert c.phase[B := Idle] == c.phase;
    assert c.late[B := late] == map[A := NONE, B := late, X := NONE];
  }

  /** The same of the second node, beside a third one. */
  lemma AfterTenureOfThree(l: Plan, t: Time)
    requires l.limit >= 100 && l.period >= 0 && t <= 0 <= t + l.delay
    ensures Closed(Within(l), Reach(l))
    ensures Three(Past(B, t), 0, Idle, Idle, Idle, NONE, multiset{t}) in Reach(l)
  {
    ColdThree(l, t - VERIFY_DELAY);
    EarlierTenure(l, Reach(l), Three(map[], t - VERIFY_DELAY, Idle, Idle, Idle, NONE, NONE), B);
    LoneOfThree(Past(B, t), t - VERIFY_DELAY, t, multiset{t});
    ThreeWait(l, Reach(l), Past(B, t), t, multiset{t});
  }

  lemma ThreeWait(l: Plan, reach: iset<Cluster>, docs: Docs, t: Time, late: multiset<Time>)
    requires Closed(Within(l), reach) && Three(docs, t, Idle, Idle, Idle, NONE, late) in reach
    requires t <= 0 && forall f :: f in late ==> 0 <= f + l.delay
    ensures Three(docs, 0, Idle, Idle, Idle, NONE, late) in reach
  {
    Go3(l, reach, Three(docs, t, Idle, Idle, Idle, NONE, late), Tick(0), docs, 0, Idle, Idle, Idle, NONE, late);
  }

  lemma SlowPeriodsSplit(l: Plan)
    requires !NeverHolds(l) && l.period != 0 && l.delay <= 2_000 && l.period + Setback(l) + l.delay >= 3_101
    ensures exists d :: d in Reach(l) && TwoHolders(d)
  {
    if l.delay >= 100 {
      AfterTenure(l, 100 - l.delay);
      EarlierTenureSplits(l, Reach(l));
    } else {
      ColdTwo(l, 0);
      if OneByOne(l) {
        SlowTimersSplit(l, Reach(l));
      } else {
        SlowHeartbeatsSplit(l, Reach(l));
      }
    }
  }

  /** Every schedule outside the bound has a run with two holders, from a cold start, in which every claim
      writes a term above all others. */
  lemma OtherSchedulesSplit(l: Plan) returns (acts: seq<Action>, s: seq<Cluster>)
    requires !Exclusive(l)
    ensures ScheduledRun(acts, s, l) && Cold(s[0]) && Rising(acts, s) && TwoHolders(s[|acts|])
  {
    var reach := Reach(l);
    if l.delay >= 2_001 {
      AfterTenure(l, -2_001);
      OldHeartbeatSplits(l, reach);
    } else if l.limit + l.delay >= 10_001 {
      AfterTenureOfThree(l, -l.delay);
      StaleFlagSplits(l, reach);
    } else if l.period + Setback(l) + l.delay >= 3_101 {
      SlowPeriodsSplit(l);
    } else if l.limit >= 2_101 {
      ColdTwo(l, 0);
      SlowClaimsSplit(l, reach);
    } else {
      AfterTenure(l, -l.delay);
      SlowStartsSplit(l, reach);
    }
    var d :| d in reach && TwoHolders(d);
    acts, s := RunTo(l, d);
  }

  lemma RunTo(l: Plan, d: Cluster) returns (acts: seq<Action>, s: seq<Cluster>)
    requires d in Reach(l)
    ensures ScheduledRun(acts, s, l) && Cold(s[0]) && Rising(acts, s) && s[|acts|] == d
  {
    acts, s :| RunOf(Within(l), acts, s) && s[|acts|] == d;
    forall i | 0 <= i < |s| ensures Keeps(l, s[i]) {
      assert Within(l).ok(s[i]);
    }
    forall i | 0 <= i < |acts| ensures Proper(l, s[i], acts[i]) && Rises(s[i], acts[i]) {
      assert Within(l).may(s[i], acts[i]);
    }
  }

  // ---- The bound is exact ------------------------------------------------------------------------

  /** Whatever the registry and the heartbeats in flight at the start, and whatever terms claims write. */
  ghost predicate AlwaysOne(l: Plan) {
    forall acts, s, i :: ScheduledRun(acts, s, l) && 0 <= i < |s| ==> AtMostOneHolder(s[i])
  }

  /** From a cold start, with bids that pass the term validation of Raft. */
  ghost predicate AlwaysOneOfRaft(l: Plan, window: Time) {
    forall acts, s, i :: ScheduledRun(acts, s, l) && Cold(s[0]) && Validated(acts, s, window) && 0 <= i < |s| ==>
      AtMostOneHolder(s[i])
  }

  /** Over all runs of a schedule, and over those of Raft from a cold start alone, two nodes never hold a
      claim at once if and only if the schedule is within the bound. */
  lemma ExclusiveExactly(l: Plan, window: Time)
    ensures AlwaysOne(l) <==> Exclusive(l)
    ensures AlwaysOneOfRaft(l, window) <==> Exclusive(l)
  {
    if Exclusive(l) {
      forall acts, s, i | ScheduledRun(acts, s, l) && 0 <= i < |s| ensures AtMostOneHolder(s[i]) {
        SchedulesAreExclusive(l, acts, s, i);
      }
    } else {
      var acts, s := OtherSchedulesSplit(l);
      RisingIsValidated(acts, s, window);
      assert !AtMostOneHolder(s[|acts|]);
    }
  }

  // ---- The age of documents alone ------------------------------------------------------------------

  /** Every claim held is within its limit. */
  predicate Instant(l: Plan, c: Cluster) {
    forall n :: n in c.phase && c.phase[n].Holding? ==> c.clock <= c.phase[n].now + l.limit
  }

  lemma InstantAtNode(l: Plan, c: Cluster, a: Action, n: NodeId)
    requires Kept(c) && Enabled(c, a) && l.period == 0 && Keeps(l, c) && Keeps(l, Apply(c, a)) && n in c.phase
    requires c.phase[n].Holding? ==> c.clock <= c.phase[n].now + l.limit
    ensures n in Apply(c, a).phase
    ensures Apply(c, a).phase[n].Holding? ==> Apply(c, a).clock <= Apply(c, a).phase[n].now + l.limit
  {
    assert Paced(c, c.phase[n]);
    if a.Tick? || a.n != n {
      OthersLeave(c, a, n);
    } else {
      OwnStep(c, a);
      OwnHeartbeats(c, a);
    }
  }

  lemma InstantStep(l: Plan, c: Cluster, a: Action)
    requires Kept(c) && Enabled(c, a) && l.period == 0 && Keeps(l, c) && Keeps(l, Apply(c, a)) && Instant(l, c)
    ensures Instant(l, Apply(c, a))
  {
    Members(c, a);
    forall n | n in Apply(c, a).phase && Apply(c, a).phase[n].Holding?
      ensures Apply(c, a).clock <= Apply(c, a).phase[n].now + l.limit
    {
      InstantAtNode(l, c, a, n);
    }
  }

  /** With period 0 no time passes while a claim is held. */
  lemma {:induction false} InstantAt(l: Plan, acts: seq<Action>, s: seq<Cluster>, i: nat)
    requires ScheduledRun(acts, s, l) && l.period == 0 && 0 <= l.delay && i < |s|
    ensures Instant(l, s[i])
  {
    if i > 0 {
      InstantAt(l, acts, s, i - 1);
      KeptAt(acts, s, i - 1);
      assert StepAt(acts, s, i - 1);
      assert Keeps(l, s[i - 1]) && Keeps(l, s[i]);
      InstantStep(l, s[i - 1], acts[i - 1]);
    }
  }

  lemma InstantHoldersAreFresh(l: Plan, acts: seq<Action>, s: seq<Cluster>)
    requires ScheduledRun(acts, s, l) && l.period == 0 && 0 <= l.delay
    ensures TimelyRun(acts, s, l.limit, l.limit + l.delay)
  {
    forall i | 0 <= i < |s| ensures Timely(s[i], l.limit, l.limit + l.delay) {
      TrackedAt(l, acts, s, i);
      InstantAt(l, acts, s, i);
      assert Keeps(l, s[i]);
      forall n | n in s[i].phase && s[i].phase[n].Holding?
        ensures n in s[i].docs && s[i].clock <= s[i].docs[n].lastSeen + l.limit + l.delay
      {
        LocalOf(l, s[i], n);
      }
    }
  }

  lemma NoClaimFinishesInTime(c: Cluster, a: Action, limit: Time, gap: Time)
    requires Kept(c) && Enabled(c, a) && Timely(c, limit, gap) && limit < VERIFY_DELAY
    requires forall n :: n in c.phase ==> !c.phase[n].Holding?
    ensures forall n :: n in Apply(c, a).phase ==> !Apply(c, a).phase[n].Holding?
  {
    assert forall n :: n in c.phase && c.phase[n].Verifying? ==> c.phase[n].wakeAt > c.clock by {
      assert forall n :: n in c.phase ==> Paced(c, c.phase[n]);
    }
    NoNewHolder(c, a);
  }

  lemma {:induction false} NobodyHoldsInTime(acts: seq<Action>, s: seq<Cluster>, limit: Time, gap: Time, i: nat)
    requires TimelyRun(acts, s, limit, gap) && i < |s| && limit < VERIFY_DELAY
    ensures forall n :: n in s[i].phase ==> !s[i].phase[n].Holding?
  {
    if i > 0 {
      NobodyHoldsInTime(acts, s, limit, gap, i - 1);
      KeptAt(acts, s, i - 1);
      assert Timely(s[i - 1], limit, gap);
      assert StepAt(acts, s, i - 1);
      NoClaimFinishesInTime(s[i - 1], acts[i - 1], limit, gap);
    }
  }

  ghost predicate AlwaysOneInTime(limit: Time, gap: Time) {
    forall acts, s, i ::
      TimelyRun(acts, s, limit, gap) && ClientStamped(acts) && 0 <= i < |s| ==> AtMostOneHolder(s[i])
  }

  /** If all that is known is how long claims take and how old a holder's document gets, leadership is
      exclusive if and only if claims cannot finish or documents are at most 2.1 s old. */
  lemma FreshnessExactly(limit: Time, gap: Time)
    ensures AlwaysOneInTime(limit, gap) <==> limit < VERIFY_DELAY || gap <= VERIFY_WINDOW + VERIFY_DELAY
  {
    if limit < VERIFY_DELAY || gap <= VERIFY_WINDOW + VERIFY_DELAY {
      forall acts, s, i | TimelyRun(acts, s, limit, gap) && ClientStamped(acts) && 0 <= i < |s|
        ensures AtMostOneHolder(s[i])
      {
        if limit < VERIFY_DELAY {
          NobodyHoldsInTime(acts, s, limit, gap, i);
        } else {
          FreshHoldersAreUnique(acts, s, limit, gap, i);
        }
      }
    } else {
      var acts, s := OtherSchedulesSplit(Plan(100, 0, 2_001, false));
      InstantHoldersAreFresh(Plan(100, 0, 2_001, false), acts, s);
      forall i | 0 <= i < |s| ensures Timely(s[i], limit, gap) {
        assert Timely(s[i], 100, 2_101);
      }
      assert ClientStamped(acts);
      assert !AtMostOneHolder(s[|acts|]);
    }
  }

  // ---- Intervals ------------------------------------------------------------------------------------

  /** Durations of the factory and of the leader loop, in nanoseconds. */
  function HeartbeatTimeout(interval: nat): nat {
    if interval / 3 < 50_000_000 then 50_000_000 else interval / 3
  }

  function HeartbeatPeriod(interval: nat): nat {
    HeartbeatTimeout(interval) / 2
  }

  /** Whole milliseconds within which an event due after `d` nanoseconds shows on the clock. */
  function CeilMs(d: nat): nat {
    (d + 999_999) / 1_000_000
  }

  /** The schedule of a Raft leader, whose loop is a timer. */
  function RaftPlan(interval: nat, limit: Time, delay: Time): Plan {
    Plan(limit, CeilMs(HeartbeatPeriod(interval)), delay, true)
  }

  /** Validation looks for rivals seen within twice the heartbeat timeout. */
  function RivalWindow(interval: nat): Time {
    2 * HeartbeatTimeout(interval) / 1_000_000
  }

  /** Exactly the election intervals for which the leader loop of Raft keeps leadership exclusive: up to
      18.6 s less six write delays, or less twelve if a write can outlast the sleep of a claim, provided that
      claims and writes take less than 10 s together and claims are quick enough for such writes. */
  lemma IntervalsExactly(interval: nat, limit: Time, delay: Time)
    ensures AlwaysOneOfRaft(RaftPlan(interval, limit, delay), RivalWindow(interval)) <==>
      || limit < 100 || delay < 0
      || (&& limit + delay <= 10_000
          && interval <= 6_000_000 * (3_100 - (if delay < 100 then delay else 2 * delay)) + 5
          && (delay < 100 || (limit <= 2_100 && limit + 2 * delay <= 3_100)))
  {
    ExclusiveExactly(RaftPlan(interval, limit, delay), RivalWindow(interval));
    PeriodExactly(interval, 3_100 - 2 * delay);
    PeriodExactly(interval, 3_100 - delay);
  }

  lemma PeriodExactly(interval: nat, most: Time)
    ensures most >= 25 ==> (CeilMs(HeartbeatPeriod(interval)) <= most <==> interval <= 6_000_000 * most + 5)
    ensures CeilMs(HeartbeatPeriod(interval)) >= 25
  {
  }

  /** The documented default of 30 s splits leadership however fast claims and writes are. */
  lemma DefaultIntervalSplits(limit: Time, delay: Time)
    requires 100 <= limit && 0 <= delay
    ensures !AlwaysOneOfRaft(RaftPlan(30_000_000_000, limit, delay), RivalWindow(30_000_000_000))
  {
    ExclusiveExactly(RaftPlan(30_000_000_000, limit, delay), RivalWindow(30_000_000_000));
  }

  /** The 2 s recommended for Raft are exclusive if claims end within 2.1 s and writes take at most 0.5 s,
      even with more heartbeats than the timer launches. */
  lemma RecommendedIntervalIsExclusive(limit: Time, delay: Time)
    requires limit <= 2_100 && delay <= 500
    ensures AlwaysOne(RaftPlan(2_000_000_000, limit, delay))
    ensures AlwaysOne(RaftPlan(2_000_000_000, limit, delay).(timed := false))
  {
    ExclusiveExactly(RaftPlan(2_000_000_000, limit, delay), 0);
    ExclusiveExactly(RaftPlan(2_000_000_000, limit, delay).(timed := false), 0);
  }
}
