/** Schedules outside ClaimSchedule.Exclusive: each has a run that ends with two holders. */
module ClaimSplits {
  import opened Registry
  import opened ClaimProtocol
  import opened ClaimSchedule
  import opened ClaimRuns

  // ---- The ways to lose exclusivity ----------------------------------------------------------------

  /** Slow heartbeats, whenever launched: after the second lands the first still sets the document back,
      and then the next one is a period and a delay away. */
  lemma SlowHeartbeatsSplit(l: Plan, reach: iset<Cluster>)
    requires Closed(Within(l), reach) && Two(map[], 0, Idle, Idle, NONE, NONE) in reach && !l.timed
    requires l.limit >= 100 && l.period >= 1 && 0 <= l.delay <= 2_000 && l.period + 2 * l.delay >= 3_101
    ensures exists d :: d in reach && TwoHolders(d)
  {
    var f, u := OldHeartbeatLands(l, reach);
    FallsSilent(l, reach, 100, u, f, 3_101);
  }

  /** Slow timers: the next heartbeat is a period and a delay away. */
  lemma SlowTimersSplit(l: Plan, reach: iset<Cluster>)
    requires Closed(Within(l), reach) && Two(map[], 0, Idle, Idle, NONE, NONE) in reach
    requires l.limit >= 100 && l.period >= 1 && 0 <= l.delay <= 2_000 && l.period + l.delay >= 3_101
    ensures exists d :: d in reach && TwoHolders(d)
  {
    FirstHolds(l, reach, map[], NONE);
    FirstLands(l, reach, NONE);
    FallsSilent(l, reach, 100, 100, 100, 3_101);
  }

  /** Slow timers and writes that outlast the sleep of a claim: a heartbeat of an earlier tenure lands
      right after the first of the new one, and sets the document back by a delay. */
  lemma EarlierTenureSplits(l: Plan, reach: iset<Cluster>)
    requires Closed(Within(l), reach)
    requires Two(Past(A, 100 - l.delay), 0, Idle, Idle, multiset{100 - l.delay}, NONE) in reach
    requires l.limit >= 100 && l.period >= 1 && 100 <= l.delay <= 2_000 && l.period + 2 * l.delay >= 3_101
    ensures exists d :: d in reach && TwoHolders(d)
  {
    var past, one := multiset{100 - l.delay}, map[A := Claimed(100, 2)];
    FirstHolds(l, reach, Past(A, 100 - l.delay), past);
    FirstLands(l, reach, past);
    Lands(l, reach, Two(one, 100, Holding(0, 0, 100), Idle, past, NONE), one, 100, Holding(0, 0, 100), Idle, past, NONE,
      100 - l.delay, 100 - l.delay);
    assert Register(one, A, CLAIM_PROFILE, true, 100 - l.delay) == map[A := Claimed(100 - l.delay, 2)];
    assert past - multiset{100 - l.delay} == NONE;
    FallsSilent(l, reach, 100 - l.delay, 100, 100, 3_101 - l.delay);
  }

  /** No heartbeat lands from `u` on, and at `t` the document is too old for the count. */
  lemma FallsSilent(l: Plan, reach: iset<Cluster>, seen: Time, u: Time, f: Time, t: Time)
    requires Closed(Within(l), reach) && l.limit >= 100 && l.period >= 1 && 0 <= l.delay
    requires Two(map[A := Claimed(seen, 2)], u, Holding(0, 0, f), Idle, NONE, NONE) in reach
    requires f <= u <= t && u <= f + l.period && t == seen + 3_001 && t + 100 <= f + l.period + l.delay
    ensures exists d :: d in reach && TwoHolders(d)
  {
    var docs := map[A := Claimed(seen, 2)];
    var g, la := HoldsSilently(l, reach, Two(docs, u, Holding(0, 0, f), Idle, NONE, NONE), docs, u, t, Idle, NONE, NONE,
                               0, 0, f);
    SecondClaims(l, reach, docs, t, t + 100, 0, 0, g, la);
  }

  /** The second node claims at `t` while the document of the first is too old. */
  lemma SecondClaims(l: Plan, reach: iset<Cluster>, docs: Docs, t: Time, u: Time,
                     now: Time, r: Time, f: Time, la: multiset<Time>)
    requires Closed(Within(l), reach) && Two(docs, t, Holding(now, r, f), Idle, la, NONE) in reach
    requires Fits(l, t, Holding(now, r, f), la) && l.limit >= 100 && l.period >= 1 && 0 <= l.delay
    requires f <= t && u == t + 100 && u <= f + l.period + l.delay && forall g :: g in la ==> u <= g + l.delay
    requires B !in docs && Quiet(docs, t) && forall m :: m in docs ==> docs[m].term < 3
    requires forall m :: m in docs ==> docs[m].lastSeen < t - ACTIVE_WINDOW
    ensures exists d :: d in reach && TwoHolders(d)
  {
    var h, v, more := Holding(now, r, f), Asleep(t, t), docs[B := Claimed(t, 3)];
    SecondCounts(l, reach, Two(docs, t, h, Idle, la, NONE), docs, t, h, la, NONE);
    SecondRaises(l, reach, Two(docs, t, h, Raising(t), la, NONE), docs, t, t, h, la, NONE);
    var g, lb := HoldsSilently(l, reach, Two(more, t, h, v, la, NONE), more, t, u, v, la, NONE, now, r, f);
    OnlyOne(more, B, t - VERIFY_WINDOW);
    SecondPasses(l, reach, Two(more, u, Holding(now, r, g), v, lb, NONE), more, t, t, u, Holding(now, r, g), lb, NONE);
  }

  /** All that is left of an earlier tenure of the first node, if anything. */
  predicate Before(docs: Docs) {
    docs.Keys <= {A} && forall m :: m in docs ==> !docs[m].isLeader && docs[m].term < 2
  }

  /** The first node claims at once and holds from 100 on, with `past` in flight from earlier tenures. */
  lemma FirstHolds(l: Plan, reach: iset<Cluster>, docs: Docs, past: multiset<Time>)
    requires Closed(Within(l), reach) && Two(docs, 0, Idle, Idle, past, NONE) in reach && Before(docs)
    requires l.limit >= 100 && l.period >= 0 && 0 <= l.delay && forall f :: f in past ==> 100 <= f + l.delay
    ensures Two(map[A := Claimed(0, 2)], 100, Holding(0, 0, 100), Idle, past + multiset{100}, NONE) in reach
  {
    var one := map[A := Claimed(0, 2)];
    FirstCounts(l, reach, Two(docs, 0, Idle, Idle, past, NONE), docs, 0, Idle, past, NONE);
    FirstRaises(l, reach, Two(docs, 0, Raising(0), Idle, past, NONE), docs, 0, 0, Idle, past, NONE);
    assert docs[A := Claimed(0, 2)] == one;
    Waits(l, reach, Two(one, 0, Asleep(0, 0), Idle, past, NONE), one, 0, 100, Asleep(0, 0), Idle, past, NONE);
    OnlyOne(one, A, 0 - VERIFY_WINDOW);
    FirstPasses(l, reach, Two(one, 100, Asleep(0, 0), Idle, past, NONE), one, 0, 0, 100, Idle, past, NONE);
  }

  /** Its first heartbeat lands at once. */
  lemma FirstLands(l: Plan, reach: iset<Cluster>, past: multiset<Time>)
    requires Closed(Within(l), reach) && l.limit >= 100 && l.period >= 0 && 0 <= l.delay
    requires Two(map[A := Claimed(0, 2)], 100, Holding(0, 0, 100), Idle, past + multiset{100}, NONE) in reach
    requires forall f :: f in past ==> 100 <= f + l.delay
    ensures Two(map[A := Claimed(100, 2)], 100, Holding(0, 0, 100), Idle, past, NONE) in reach
  {
    var one, more := map[A := Claimed(0, 2)], past + multiset{100};
    Lands(l, reach, Two(one, 100, Holding(0, 0, 100), Idle, more, NONE), one, 100, Holding(0, 0, 100), Idle, more, NONE,
      100, 100);
    assert Register(one, A, CLAIM_PROFILE, true, 100) == map[A := Claimed(100, 2)];
    assert more - multiset{100} == past;
  }

  /** Its first heartbeat takes its whole delay and lands last. */
  lemma OldHeartbeatLands(l: Plan, reach: iset<Cluster>) returns (f: Time, u: Time)
    requires Closed(Within(l), reach) && Two(map[], 0, Idle, Idle, NONE, NONE) in reach && !l.timed
    requires l.limit >= 100 && l.period >= 1 && 0 <= l.delay
    ensures f == u == 100 + l.delay
    ensures Two(map[A := Claimed(100, 2)], u, Holding(0, 0, f), Idle, NONE, NONE) in reach
  {
    f, u := 100 + l.delay, 100 + l.delay;
    var first := multiset{100};
    FirstHolds(l, reach, map[], NONE);
    assert NONE + first == first;
    var g, seen := HoldsRefreshing(l, reach, Two(map[A := Claimed(0, 2)], 100, Holding(0, 0, 100), Idle, first, NONE),
                                   0, 100, u, first, 0, 0, 100);
    var docs := map[A := Claimed(seen, 2)];
    Refreshes(l, reach, Two(docs, u, Holding(0, 0, g), Idle, first, NONE), docs, u, Idle, first, NONE, 0, 0, g);
    assert Register(docs, A, CLAIM_PROFILE, true, u) == map[A := Claimed(u, 2)];
    Lands(l, reach, Two(map[A := Claimed(u, 2)], u, Holding(0, 0, u), Idle, first, NONE),
          map[A := Claimed(u, 2)], u, Holding(0, 0, u), Idle, first, NONE, 100, 100);
    assert Register(map[A := Claimed(u, 2)], A, CLAIM_PROFILE, true, 100) == map[A := Claimed(100, 2)];
    assert first - multiset{100} == NONE;
  }

  /** Slow claims: the second node counts before the first raises its flag, which is then too old. */
  lemma SlowClaimsSplit(l: Plan, reach: iset<Cluster>)
    requires Closed(Within(l), reach) && Two(map[], 0, Idle, Idle, NONE, NONE) in reach
    requires l.limit >= 2_101 && l.period >= 1 && l.delay >= 100
    ensures exists d :: d in reach && TwoHolders(d)
  {
    var none: Docs := map[];
    var one := map[A := Claimed(0, 2)];
    var wait, first := Raising(2_001), multiset{2_101};
    FirstCounts(l, reach, Two(none, 0, Idle, Idle, NONE, NONE), none, 0, Idle, NONE, NONE);
    Waits(l, reach, Two(none, 0, Raising(0), Idle, NONE, NONE), none, 0, 2_001, Raising(0), Idle, NONE, NONE);
    SecondCounts(l, reach, Two(none, 2_001, Raising(0), Idle, NONE, NONE), none, 2_001, Raising(0), NONE, NONE);
    FirstRaises(l, reach, Two(none, 2_001, Raising(0), wait, NONE, NONE), none, 0, 2_001, wait, NONE, NONE);
    assert none[A := Claimed(0, 2)] == one;
    Waits(l, reach, Two(one, 2_001, Asleep(0, 2_001), wait, NONE, NONE), one, 2_001, 2_101, Asleep(0, 2_001), wait,
      NONE, NONE);
    OnlyOne(one, A, 0 - VERIFY_WINDOW);
    FirstPasses(l, reach, Two(one, 2_101, Asleep(0, 2_001), wait, NONE, NONE), one, 0, 2_001, 2_101, wait, NONE, NONE);
    assert NONE + first == first;
    LateRaise(l, reach, one, first);
  }

  lemma LateRaise(l: Plan, reach: iset<Cluster>, one: Docs, first: multiset<Time>)
    requires one == map[A := Claimed(0, 2)] && first == multiset{2_101} && Closed(Within(l), reach)
    requires Two(one, 2_101, Holding(0, 2_001, 2_101), Raising(2_001), first, NONE) in reach
    requires l.limit >= 2_101 && l.period >= 1 && l.delay >= 100
    ensures exists d :: d in reach && TwoHolders(d)
  {
    var h, v, more := Holding(0, 2_001, 2_101), Asleep(2_001, 2_101), one[B := Claimed(2_001, 3)];
    SecondRaises(l, reach, Two(one, 2_101, h, Raising(2_001), first, NONE), one, 2_001, 2_101, h, first, NONE);
    var g, lb := HoldsSilently(l, reach, Two(more, 2_101, h, v, first, NONE), more, 2_101, 2_201, v, first, NONE, 0,
      2_001, 2_101);
    OnlyOne(more, B, 1);
    SecondPasses(l, reach, Two(more, 2_201, Holding(0, 2_001, g), v, lb, NONE), more, 2_001, 2_101, 2_201,
      Holding(0, 2_001, g), lb, NONE);
  }

  /** Slow claims and heartbeats together: a heartbeat of an earlier tenure sets the document back while
      the first node verifies, and its own first heartbeat takes its whole delay. */
  lemma SlowStartsSplit(l: Plan, reach: iset<Cluster>)
    requires Closed(Within(l), reach) && Two(Past(A, -l.delay), 0, Idle, Idle, multiset{-l.delay}, NONE) in reach
    requires 100 <= l.limit <= 2_100 && l.period >= 1 && 100 <= l.delay <= 2_000 && l.limit + 2 * l.delay >= 3_101
    ensures exists d :: d in reach && TwoHolders(d)
  {
    var back := map[A := Claimed(-l.delay, 2)];
    var first := multiset{l.limit};
    SetBack(l, reach);
    OnlyOne(back, A, 0 - VERIFY_WINDOW);
    FirstPasses(l, reach, Two(back, l.limit, Asleep(0, 0), Idle, NONE, NONE), back, 0, 0, l.limit, Idle, NONE, NONE);
    assert NONE + first == first;
    var t := if 3_001 - l.delay > l.limit then 3_001 - l.delay else l.limit;
    var f, la := HoldsSilently(l, reach, Two(back, l.limit, Holding(0, 0, l.limit), Idle, first, NONE),
                               back, l.limit, t, Idle, first, NONE, 0, 0, l.limit);
    SecondClaims(l, reach, back, t, t + 100, 0, 0, f, la);
  }

  lemma SetBack(l: Plan, reach: iset<Cluster>)
    requires Closed(Within(l), reach) && Two(Past(A, -l.delay), 0, Idle, Idle, multiset{-l.delay}, NONE) in reach
    requires 100 <= l.limit && 0 <= l.delay
    ensures Two(map[A := Claimed(-l.delay, 2)], l.limit, Asleep(0, 0), Idle, NONE, NONE) in reach
  {
    var docs := Past(A, -l.delay);
    var one, back := map[A := Claimed(0, 2)], map[A := Claimed(-l.delay, 2)];
    var late := multiset{-l.delay};
    FirstCounts(l, reach, Two(docs, 0, Idle, Idle, late, NONE), docs, 0, Idle, late, NONE);
    FirstRaises(l, reach, Two(docs, 0, Raising(0), Idle, late, NONE), docs, 0, 0, Idle, late, NONE);
    assert docs[A := Claimed(0, 2)] == one;
    Lands(l, reach, Two(one, 0, Asleep(0, 0), Idle, late, NONE), one, 0, Asleep(0, 0), Idle, late, NONE, -l.delay,
      -l.delay);
    assert Register(one, A, CLAIM_PROFILE, true, -l.delay) == back && late - multiset{-l.delay} == NONE;
    Waits(l, reach, Two(back, 0, Asleep(0, 0), Idle, NONE, NONE), back, 0, l.limit, Asleep(0, 0), Idle, NONE, NONE);
  }

  /** A heartbeat that lands too late to count: both nodes raise their flags together, one of an earlier
      tenure sets the first document back, and neither verification counts it. */
  lemma OldHeartbeatSplits(l: Plan, reach: iset<Cluster>)
    requires Closed(Within(l), reach) && Two(Past(A, -2_001), 0, Idle, Idle, OLD_BEAT, NONE) in reach
    requires l.limit >= 100 && l.period >= 0 && l.delay >= 2_001
    ensures exists d :: d in reach && TwoHolders(d)
  {
    var v := Asleep(0, 0);
    var back, first := map[A := Claimed(-2_001, 2), B := Claimed(0, 3)], NONE + multiset{100};
    BothRaise(l, reach);
    Waits(l, reach, Two(back, 0, v, v, NONE, NONE), back, 0, 100, v, v, NONE, NONE);
    OnlyOne(back, B, 0 - VERIFY_WINDOW);
    FirstPasses(l, reach, Two(back, 100, v, v, NONE, NONE), back, 0, 0, 100, v, NONE, NONE);
    SecondPasses(l, reach, Two(back, 100, Holding(0, 0, 100), v, first, NONE), back, 0, 0, 100, Holding(0, 0, 100),
      first, NONE);
  }

  const OLD_BEAT: multiset<Time> := multiset{-2_001}

  lemma BothRaise(l: Plan, reach: iset<Cluster>)
    requires Closed(Within(l), reach) && Two(Past(A, -2_001), 0, Idle, Idle, OLD_BEAT, NONE) in reach
    requires l.limit >= 100 && l.period >= 0 && l.delay >= 2_001
    ensures Two(map[A := Claimed(-2_001, 2), B := Claimed(0, 3)], 0, Asleep(0, 0), Asleep(0, 0), NONE, NONE) in reach
  {
    var docs := Past(A, -2_001);
    var v := Asleep(0, 0);
    var one, two := map[A := Claimed(0, 2)], map[A := Claimed(0, 2), B := Claimed(0, 3)];
    FirstCounts(l, reach, Two(docs, 0, Idle, Idle, OLD_BEAT, NONE), docs, 0, Idle, OLD_BEAT, NONE);
    SecondCounts(l, reach, Two(docs, 0, Raising(0), Idle, OLD_BEAT, NONE), docs, 0, Raising(0), OLD_BEAT, NONE);
    FirstRaises(l, reach, Two(docs, 0, Raising(0), Raising(0), OLD_BEAT, NONE), docs, 0, 0, Raising(0), OLD_BEAT, NONE);
    assert docs[A := Claimed(0, 2)] == one && one[B := Claimed(0, 3)] == two;
    SecondRaises(l, reach, Two(one, 0, v, Raising(0), OLD_BEAT, NONE), one, 0, 0, v, OLD_BEAT, NONE);
    Lands(l, reach, Two(two, 0, v, v, OLD_BEAT, NONE), two, 0, v, v, OLD_BEAT, NONE, -2_001, -2_001);
    assert Register(two, A, CLAIM_PROFILE, true, -2_001) == map[A := Claimed(-2_001, 2), B := Claimed(0, 3)];
    assert OLD_BEAT - multiset{-2_001} == NONE;
  }

  // ---- A flag that goes stale before its verification ---------------------------------------------

  /** A third node, which only clears flags, beside the two. */
  function Three(docs: Docs, clock: Time, pa: Phase, pb: Phase, px: Phase, la: multiset<Time>,
    lb: multiset<Time>): Cluster {
    Cluster(docs, clock, map[A := pa, B := pb, X := px], map[A := la, B := lb, X := NONE])
  }

  lemma ThreeFit(l: Plan, docs: Docs, clock: Time, pa: Phase, pb: Phase, px: Phase, la: multiset<Time>,
    lb: multiset<Time>)
    requires Fits(l, clock, pa, la) && Fits(l, clock, pb, lb) && Fits(l, clock, px, NONE)
    ensures WellFormed(Three(docs, clock, pa, pb, px, la, lb)) && Keeps(l, Three(docs, clock, pa, pb, px, la, lb))
  {
  }

  lemma Go3(l: Plan, reach: iset<Cluster>, c: Cluster, a: Action,
            docs: Docs, clock: Time, pa: Phase, pb: Phase, px: Phase, la: multiset<Time>, lb: multiset<Time>)
    requires c in reach && Closed(Within(l), reach) && WellFormed(c) && Enabled(c, a) && Proper(l, c, a) && Rises(c, a)
    requires Apply(c, a) == Three(docs, clock, pa, pb, px, la, lb)
    requires Fits(l, clock, pa, la) && Fits(l, clock, pb, lb) && Fits(l, clock, px, NONE)
    ensures Three(docs, clock, pa, pb, px, la, lb) in reach
  {
    ThreeFit(l, docs, clock, pa, pb, px, la, lb);
    Then(Within(l), reach, c, a);
  }

  lemma ThreeMove(docs: Docs, t: Time, pa: Phase, pb: Phase, px: Phase, la: multiset<Time>, lb: multiset<Time>,
    q: Phase)
    ensures At(Three(docs, t, pa, pb, px, la, lb), A, q) == Three(docs, t, q, pb, px, la, lb)
    ensures At(Three(docs, t, pa, pb, px, la, lb), B, q) == Three(docs, t, pa, q, px, la, lb)
  {
    var phase := map[A := pa, B := pb, X := px];
    assert phase[A := q] == map[A := q, B := pb, X := px];
    assert phase[B := q] == map[A := pa, B := q, X := px];
  }

  /** A count by one of the two finds nobody. */
  lemma OneOfThreeCounts(l: Plan, reach: iset<Cluster>, c: Cluster, n: NodeId)
    requires Closed(Within(l), reach) && c in reach && WellFormed(c) && Keeps(l, c) && 0 <= l.limit
    requires n in c.phase && c.phase[n] == Idle
    requires Quiet(c.docs, c.clock)
    ensures At(c, n, Raising(c.clock)) in reach
  {
    WithinYoung(l, c, n);
    QuietCount(c.docs, c.clock);
    Counts(Within(l), reach, c, n);
  }

  /** The second node raises its flag at 0, and its document is set back by a whole delay. */
  lemma OldFlag(l: Plan, reach: iset<Cluster>)
    requires Closed(Within(l), reach)
    requires Three(Past(B, -l.delay), 0, Idle, Idle, Idle, NONE, multiset{-l.delay}) in reach
    requires l.limit >= 100 && 0 <= l.delay
    ensures Three(map[B := Claimed(-l.delay, 2)], 0, Idle, Asleep(0, 0), Idle, NONE, NONE) in reach
  {
    var late, v := multiset{-l.delay}, Asleep(0, 0);
    var docs := Past(B, -l.delay);
    var c := Three(docs, 0, Idle, Idle, Idle, NONE, late);
    ThreeFit(l, docs, 0, Idle, Idle, Idle, NONE, late);
    OneOfThreeCounts(l, reach, c, B);
    ThreeMove(docs, 0, Idle, Idle, Idle, NONE, late, Raising(0));
    OldFlagRises(l, reach);
    OldFlagAges(l, reach);
  }

  lemma OldFlagRises(l: Plan, reach: iset<Cluster>)
    requires Closed(Within(l), reach)
    requires Three(Past(B, -l.delay), 0, Idle, Raising(0), Idle, NONE, multiset{-l.delay}) in reach
    requires l.limit >= 100 && 0 <= l.delay
    ensures Three(map[B := Claimed(0, 2)], 0, Idle, Asleep(0, 0), Idle, NONE, multiset{-l.delay}) in reach
  {
    var late, v := multiset{-l.delay}, Asleep(0, 0);
    var docs := Past(B, -l.delay);
    var c := Three(docs, 0, Idle, Raising(0), Idle, NONE, late);
    assert c.phase[B := v] == map[A := Idle, B := v, X := Idle] && docs[B := Claimed(0, 2)] == map[B := Claimed(0, 2)];
    Go3(l, reach, c, RaiseFlag(B, 2, true, true), map[B := Claimed(0, 2)], 0, Idle, v, Idle, NONE, late);
  }

  lemma OldFlagAges(l: Plan, reach: iset<Cluster>)
    requires Closed(Within(l), reach)
    requires Three(map[B := Claimed(0, 2)], 0, Idle, Asleep(0, 0), Idle, NONE, multiset{-l.delay}) in reach
    requires l.limit >= 100 && 0 <= l.delay
    ensures Three(map[B := Claimed(-l.delay, 2)], 0, Idle, Asleep(0, 0), Idle, NONE, NONE) in reach
  {
    var late, v, one, back := multiset{-l.delay}, Asleep(0, 0), map[B := Claimed(0, 2)], map[B := Claimed(-l.delay, 2)];
    var c := Three(one, 0, Idle, v, Idle, NONE, late);
    assert late - multiset{-l.delay} == NONE && Register(one, B, CLAIM_PROFILE, true, -l.delay) == back;
    assert c.late[B := NONE] == map[A := NONE, B := NONE, X := NONE];
    Go3(l, reach, c, Land(B, -l.delay, -l.delay), back, 0, Idle, v, Idle, NONE, NONE);
  }

  /** The first node claims at `t`, without counting the old flag. */
  lemma FreshFlag(l: Plan, reach: iset<Cluster>, t: Time)
    requires Closed(Within(l), reach) && t == STALE_AFTER + 1 - l.delay - VERIFY_DELAY
    requires Three(map[B := Claimed(-l.delay, 2)], 0, Idle, Asleep(0, 0), Idle, NONE, NONE) in reach
    requires 0 <= l.delay <= 2_000 && l.limit + l.delay >= 10_001
    ensures Three(map[A := Claimed(t, 3), B := Claimed(-l.delay, 2)], t, Asleep(t, t), Asleep(0, 0), Idle, NONE,
      NONE) in reach
  {
    var v, one := Asleep(0, 0), map[B := Claimed(-l.delay, 2)];
    Go3(l, reach, Three(one, 0, Idle, v, Idle, NONE, NONE), Tick(t), one, t, Idle, v, Idle, NONE, NONE);
    FreshFlagCounts(l, reach, one, t);
    FreshFlagRises(l, reach, one, t);
  }

  lemma FreshFlagCounts(l: Plan, reach: iset<Cluster>, one: Docs, t: Time)
    requires Closed(Within(l), reach) && one == map[B := Claimed(-l.delay, 2)] && 0 <= t <= l.limit
    requires t - STALE_AFTER <= -l.delay < t - ACTIVE_WINDOW
    requires Three(one, t, Idle, Asleep(0, 0), Idle, NONE, NONE) in reach
    ensures Three(one, t, Raising(t), Asleep(0, 0), Idle, NONE, NONE) in reach
  {
    var c := Three(one, t, Idle, Asleep(0, 0), Idle, NONE, NONE);
    ThreeFit(l, one, t, Idle, Asleep(0, 0), Idle, NONE, NONE);
    OneOfThreeCounts(l, reach, c, A);
    ThreeMove(one, t, Idle, Asleep(0, 0), Idle, NONE, NONE, Raising(t));
  }

  lemma FreshFlagRises(l: Plan, reach: iset<Cluster>, one: Docs, t: Time)
    requires Closed(Within(l), reach) && one == map[B := Claimed(-l.delay, 2)] && 0 <= t <= l.limit
    requires Three(one, t, Raising(t), Asleep(0, 0), Idle, NONE, NONE) in reach
    ensures Three(map[A := Claimed(t, 3), B := Claimed(-l.delay, 2)], t, Asleep(t, t), Asleep(0, 0), Idle, NONE,
      NONE) in reach
  {
    var c := Three(one, t, Raising(t), Asleep(0, 0), Idle, NONE, NONE);
    RaiseStep(c, A, t, 3);
    ThreeMove(one, t, Raising(t), Asleep(0, 0), Idle, NONE, NONE, Asleep(t, t));
    Go3(l, reach, c, RaiseFlag(A, 3, true, true), one[A := Claimed(t, 3)], t, Asleep(t, t), Asleep(0, 0), Idle, NONE,
      NONE);
    assert one[A := Claimed(t, 3)] == map[A := Claimed(t, 3), B := Claimed(-l.delay, 2)];
  }

  /** The third node clears the old flag as stale while its owner still verifies. */
  lemma OldFlagIsCleared(l: Plan, reach: iset<Cluster>, t: Time, u: Time, docs: Docs)
    requires Closed(Within(l), reach) && u == STALE_AFTER + 1 - l.delay && t == u - VERIFY_DELAY
    requires docs == map[A := Claimed(t, 3), B := Claimed(-l.delay, 2)]
    requires Three(docs, t, Asleep(t, t), Asleep(0, 0), Idle, NONE, NONE) in reach
    requires 0 <= l.delay <= 2_000 && l.limit + l.delay >= 10_001
    ensures Three(docs[B := docs[B].(isLeader := false)], u, Asleep(t, t), Asleep(0, 0), Cleared, NONE, NONE) in reach
  {
    var a, b := Asleep(t, t), Asleep(0, 0);
    Go3(l, reach, Three(docs, t, a, b, Idle, NONE, NONE), Tick(u), docs, u, a, b, Idle, NONE, NONE);
    ThirdClears(l, reach, u, docs, a, b);
    assert ClearStale(docs, u - STALE_AFTER) == docs[B := docs[B].(isLeader := false)];
  }

  lemma ThirdClears(l: Plan, reach: iset<Cluster>, u: Time, docs: Docs, a: Phase, b: Phase)
    requires Closed(Within(l), reach) && Three(docs, u, a, b, Idle, NONE, NONE) in reach
    requires Fits(l, u, a, NONE) && Fits(l, u, b, NONE)
    ensures Three(ClearStale(docs, u - STALE_AFTER), u, a, b, Cleared, NONE, NONE) in reach
  {
    var k := Clearing(u - STALE_AFTER);
    var c := Three(docs, u, a, b, Idle, NONE, NONE);
    assert c.phase[X := k] == map[A := a, B := b, X := k];
    Go3(l, reach, c, Begin(X), docs, u, a, b, k, NONE, NONE);
    var d := Three(docs, u, a, b, k, NONE, NONE);
    assert d.phase[X := Cleared] == map[A := a, B := b, X := Cleared];
    Go3(l, reach, d, Clear(X, true), ClearStale(docs, u - STALE_AFTER), u, a, b, Cleared, NONE, NONE);
  }

  /** Then each verification counts the first node alone. */
  lemma FreshFlagPasses(l: Plan, reach: iset<Cluster>, t: Time, u: Time, docs: Docs)
    requires Closed(Within(l), reach) && t + VERIFY_DELAY == u && 0 <= u <= l.limit && 0 <= l.delay && l.period >= 0
    requires docs.Keys == {A, B} && !docs[B].isLeader
    requires Three(docs, u, Asleep(t, t), Asleep(0, 0), Cleared, NONE, NONE) in reach
    ensures Three(docs, u, Holding(t, t, u), Asleep(0, 0), Cleared, NONE + multiset{u}, NONE) in reach
  {
    var a, f := Holding(t, t, u), NONE + multiset{u};
    OnlyOne(docs, A, t - VERIFY_WINDOW);
    var c := Three(docs, u, Asleep(t, t), Asleep(0, 0), Cleared, NONE, NONE);
    assert c.phase[A := a] == map[A := a, B := Asleep(0, 0), X := Cleared];
    assert c.late[A := f] == map[A := f, B := NONE, X := NONE];
    Go3(l, reach, c, Verify(A, true), docs, u, a, Asleep(0, 0), Cleared, f, NONE);
  }

  lemma OldFlagPasses(l: Plan, reach: iset<Cluster>, t: Time, u: Time, docs: Docs)
    requires Closed(Within(l), reach) && VERIFY_DELAY <= u <= l.limit && 0 <= l.delay && l.period >= 0
    requires docs.Keys == {A, B} && !docs[B].isLeader
    requires Three(docs, u, Holding(t, t, u), Asleep(0, 0), Cleared, NONE + multiset{u}, NONE) in reach
    ensures exists d :: d in reach && TwoHolders(d)
  {
    var a, b, f := Holding(t, t, u), Holding(0, 0, u), NONE + multiset{u};
    OnlyOne(docs, A, 0 - VERIFY_WINDOW);
    var d := Three(docs, u, a, Asleep(0, 0), Cleared, f, NONE);
    assert d.phase[B := b] == map[A := a, B := b, X := Cleared];
    assert d.late[B := f] == map[A := f, B := f, X := NONE];
    Go3(l, reach, d, Verify(B, true), docs, u, a, b, Cleared, f, f);
    var e := Three(docs, u, a, b, Cleared, f, f);
    assert A in e.phase && B in e.phase && TwoHolders(e);
  }

  lemma StaleFlagSplits(l: Plan, reach: iset<Cluster>)
    requires Closed(Within(l), reach)
    requires Three(Past(B, -l.delay), 0, Idle, Idle, Idle, NONE, multiset{-l.delay}) in reach
    requires 0 <= l.delay <= 2_000 && l.limit + l.delay >= 10_001 && l.period >= 0
    ensures exists d :: d in reach && TwoHolders(d)
  {
    var u := STALE_AFTER + 1 - l.delay;
    var t := u - VERIFY_DELAY;
    var docs := map[A := Claimed(t, 3), B := Claimed(-l.delay, 2)];
    OldFlag(l, reach);
    FreshFlag(l, reach, t);
    OldFlagIsCleared(l, reach, t, u, docs);
    var down := docs[B := docs[B].(isLeader := false)];
    FreshFlagPasses(l, reach, t, u, down);
    OldFlagPasses(l, reach, t, u, down);
  }
}
