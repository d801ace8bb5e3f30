/** The states that runs of a schedule reach, and the stretches of a claim from which such runs are made. */
module ClaimRuns {
  import opened Registry
  import opened ClaimProtocol
  import opened ClaimSchedule

  // ---- States reached by runs ----------------------------------------------------------------------

  /** Where runs start, and what their states and steps have to satisfy. */
  datatype Rule = Rule(from: Cluster -> bool, ok: Cluster -> bool, may: (Cluster, Action) -> bool)

  ghost predicate RunOf(k: Rule, acts: seq<Action>, s: seq<Cluster>) {
    && IsRun(acts, s) && k.from(s[0])
    && (forall i :: 0 <= i < |acts| ==> k.may(s[i], acts[i]))
    && (forall i :: 0 <= i < |s| ==> k.ok(s[i]))
  }

  ghost predicate Reaches(k: Rule, c: Cluster) {
    exists acts, s :: RunOf(k, acts, s) && s[|acts|] == c
  }

  /** A claim writes a term above all that stand in the registry. */
  predicate Rises(c: Cluster, a: Action) {
    a.RaiseFlag? ==> forall m :: m in c.docs ==> c.docs[m].term < a.term
  }

  /** An empty registry and nothing in flight. */
  predicate Cold(c: Cluster) {
    c.docs == map[] && forall n :: n in c.late ==> c.late[n] == multiset{}
  }

  /** The schedule from a cold start, with such terms. */
  function Within(l: Plan): Rule {
    Rule(c => Cold(c), c => Keeps(l, c), (c, a) => Proper(l, c, a) && Rises(c, a))
  }

  /** A set of states that steps do not leave, as long as they follow the rule. */
  ghost predicate Closed(k: Rule, r: iset<Cluster>) {
    forall c, a :: c in r && WellFormed(c) && Enabled(c, a) && k.may(c, a) && k.ok(Apply(c, a)) ==> Apply(c, a) in r
  }

  ghost function Reached(k: Rule): iset<Cluster> {
    iset c | Reaches(k, c)
  }

  lemma Starts(k: Rule, c: Cluster)
    requires Initial(c) && k.from(c) && k.ok(c)
    ensures c in Reached(k)
  {
    var acts: seq<Action> := [];
    assert RunOf(k, acts, [c]) && [c][|acts|] == c;
  }

  lemma Longer(acts: seq<Action>, s: seq<Cluster>, a: Action) returns (more: seq<Action>, t: seq<Cluster>)
    requires IsRun(acts, s) && WellFormed(s[|acts|]) && Enabled(s[|acts|], a)
    ensures more == acts + [a] && t == s + [Apply(s[|acts|], a)] && IsRun(more, t)
  {
    more, t := acts + [a], s + [Apply(s[|acts|], a)];
    forall i | 0 <= i < |more| ensures StepAt(more, t, i) {
      assert i < |acts| ==> StepAt(acts, s, i);
    }
  }

  lemma ReachedIsClosed(k: Rule)
    ensures Closed(k, Reached(k))
  {
    forall c, a | c in Reached(k) && WellFormed(c) && Enabled(c, a) && k.may(c, a) && k.ok(Apply(c, a))
      ensures Apply(c, a) in Reached(k)
    {
      var acts, s :| RunOf(k, acts, s) && s[|acts|] == c;
      var more, t := Longer(acts, s, a);
      assert RunOf(k, more, t) && t[|more|] == Apply(c, a);
    }
  }

  lemma Then(k: Rule, r: iset<Cluster>, c: Cluster, a: Action)
    requires Closed(k, r) && c in r && WellFormed(c) && Enabled(c, a) && k.may(c, a) && k.ok(Apply(c, a))
    ensures Apply(c, a) in r
  {
  }

  /** The steps of a claim up to its count are free. */
  ghost predicate Opens(k: Rule) {
    forall c, a: Action :: a.Begin? || a.Clear? || a.ReadNow? || a.Count? ==> k.may(c, a)
  }

  /** A phase that has just been entered. */
  predicate Young(p: Phase, clock: Time) {
    !p.Holding? && (InClaim(p) ==> p.now == clock)
  }

  /** A claim from its begin, at one reading of the clock, with nothing to clear. */
  lemma Begins(k: Rule, reach: iset<Cluster>, c: Cluster, n: NodeId)
    requires Closed(k, reach) && Opens(k) && c in reach && WellFormed(c) && n in c.phase && c.phase[n] == Idle
    requires ClearStale(c.docs, c.clock - STALE_AFTER) == c.docs
    requires forall p :: Young(p, c.clock) ==> k.ok(At(c, n, p))
    ensures At(c, n, Cleared) in reach
  {
    var p := Clearing(c.clock - STALE_AFTER);
    Then(k, reach, c, Begin(n));
    assert At(At(c, n, p), n, Cleared) == At(c, n, Cleared) && Young(Cleared, c.clock);
    assert Apply(At(c, n, p), Clear(n, true)) == At(c, n, Cleared);
    Then(k, reach, At(c, n, p), Clear(n, true));
  }

  /** And past the count, with nobody to count. */
  lemma Counts(k: Rule, reach: iset<Cluster>, c: Cluster, n: NodeId)
    requires Closed(k, reach) && Opens(k) && c in reach && WellFormed(c) && n in c.phase && c.phase[n] == Idle
    requires ClearStale(c.docs, c.clock - STALE_AFTER) == c.docs
    requires FreshLeaders(c.docs, c.clock - ACTIVE_WINDOW) - {n} == {}
    requires forall p :: Young(p, c.clock) ==> k.ok(At(c, n, p))
    ensures At(c, n, Raising(c.clock)) in reach
  {
    var p := Counting(c.clock);
    Begins(k, reach, c, n);
    assert At(At(c, n, Cleared), n, p) == At(c, n, p);
    Then(k, reach, At(c, n, Cleared), ReadNow(n));
    assert At(At(c, n, p), n, Raising(c.clock)) == At(c, n, Raising(c.clock));
    Then(k, reach, At(c, n, p), Count(n, true));
  }

  lemma WithinYoung(l: Plan, c: Cluster, n: NodeId)
    requires WellFormed(c) && n in c.phase && Keeps(l, c) && 0 <= l.limit
    ensures Opens(Within(l))
    ensures forall p :: Young(p, c.clock) ==> Within(l).ok(At(c, n, p))
  {
  }

  ghost predicate TwoHolders(c: Cluster) {
    exists m, n :: m in c.phase && n in c.phase && m != n && c.phase[m].Holding? && c.phase[n].Holding?
  }

  lemma OnlyOne(docs: Docs, n: NodeId, since: Time)
    requires forall m :: m in docs && docs[m].isLeader && docs[m].lastSeen >= since ==> m == n
    ensures |FreshLeaders(docs, since)| <= 1
  {
    var found := FreshLeaders(docs, since);
    assert found <= {n};
    assert found == {} || found == {n};
  }

  const A: NodeId := "a"
  const B: NodeId := "b"
  const X: NodeId := "x"
  const NONE: multiset<Time> := multiset{}

  function Two(docs: Docs, clock: Time, pa: Phase, pb: Phase, la: multiset<Time>, lb: multiset<Time>): Cluster {
    Cluster(docs, clock, map[A := pa, B := pb], map[A := la, B := lb])
  }

  predicate Fits(l: Plan, clock: Time, p: Phase, late: multiset<Time>) {
    && (InClaim(p) ==> clock <= p.now + l.limit)
    && (p.Holding? ==> clock <= p.fired + l.period)
    && (forall f :: f in late ==> clock <= f + l.delay)
  }

  lemma TwoFit(l: Plan, docs: Docs, clock: Time, pa: Phase, pb: Phase, la: multiset<Time>, lb: multiset<Time>)
    requires Fits(l, clock, pa, la) && Fits(l, clock, pb, lb)
    ensures WellFormed(Two(docs, clock, pa, pb, la, lb)) && Keeps(l, Two(docs, clock, pa, pb, la, lb))
  {
  }

  /** One step between two-node states. */
  lemma Go(l: Plan, reach: iset<Cluster>, c: Cluster, a: Action, docs: Docs, clock: Time, pa: Phase, pb: Phase,
    la: multiset<Time>, lb: multiset<Time>)
    requires c in reach && Closed(Within(l), reach) && WellFormed(c) && Enabled(c, a) && Proper(l, c, a) && Rises(c, a)
    requires Apply(c, a) == Two(docs, clock, pa, pb, la, lb)
    requires Fits(l, clock, pa, la) && Fits(l, clock, pb, lb)
    ensures Two(docs, clock, pa, pb, la, lb) in reach
  {
    TwoFit(l, docs, clock, pa, pb, la, lb);
    Then(Within(l), reach, c, a);
  }

  /** Nobody counts whose flag is down or too old for the count, though not yet stale. */
  predicate Quiet(docs: Docs, t: Time) {
    forall m :: m in docs ==> !docs[m].isLeader || t - STALE_AFTER <= docs[m].lastSeen < t - ACTIVE_WINDOW
  }

  lemma QuietCount(docs: Docs, t: Time)
    requires Quiet(docs, t)
    ensures ClearStale(docs, t - STALE_AFTER) == docs && FreshLeaders(docs, t - ACTIVE_WINDOW) == {}
  {
  }

  lemma FirstCounts(l: Plan, reach: iset<Cluster>, c: Cluster, docs: Docs, t: Time, pb: Phase, la: multiset<Time>,
    lb: multiset<Time>)
    requires c == Two(docs, t, Idle, pb, la, lb) && c in reach && Closed(Within(l), reach)
    requires Fits(l, t, Idle, la) && Fits(l, t, pb, lb) && 0 <= l.limit && Quiet(docs, t)
    ensures Two(docs, t, Raising(t), pb, la, lb) in reach
  {
    TwoFit(l, docs, t, Idle, pb, la, lb);
    WithinYoung(l, c, A);
    QuietCount(docs, t);
    Counts(Within(l), reach, c, A);
    FirstMoves(docs, t, Idle, pb, la, lb, Raising(t), la);
  }

  lemma SecondCounts(l: Plan, reach: iset<Cluster>, c: Cluster, docs: Docs, t: Time, pa: Phase, la: multiset<Time>,
    lb: multiset<Time>)
    requires c == Two(docs, t, pa, Idle, la, lb) && c in reach && Closed(Within(l), reach)
    requires Fits(l, t, pa, la) && Fits(l, t, Idle, lb) && 0 <= l.limit && Quiet(docs, t)
    ensures Two(docs, t, pa, Raising(t), la, lb) in reach
  {
    TwoFit(l, docs, t, pa, Idle, la, lb);
    WithinYoung(l, c, B);
    QuietCount(docs, t);
    Counts(Within(l), reach, c, B);
    SecondMoves(docs, t, pa, Idle, la, lb, Raising(t), lb);
  }

  function Claimed(now: Time, term: int): Doc {
    Doc(true, now, CLAIM_PROFILE, term)
  }

  function Asleep(now: Time, t: Time): Phase {
    Verifying(now, t, t + VERIFY_DELAY, 0, true)
  }

  // ---- What single steps make of a two-node state --------------------------------------------------

  lemma FirstMoves(docs: Docs, t: Time, pa: Phase, pb: Phase, la: multiset<Time>, lb: multiset<Time>, q: Phase,
    m: multiset<Time>)
    ensures At(Two(docs, t, pa, pb, la, lb), A, q) == Two(docs, t, q, pb, la, lb)
    ensures Two(docs, t, pa, pb, la, lb).late[A := m] == Two(docs, t, pa, pb, m, lb).late
  {
    var phase, late := map[A := pa, B := pb], map[A := la, B := lb];
    assert phase[A := q] == map[A := q, B := pb];
    assert late[A := m] == map[A := m, B := lb];
  }

  lemma SecondMoves(docs: Docs, t: Time, pa: Phase, pb: Phase, la: multiset<Time>, lb: multiset<Time>, q: Phase,
    m: multiset<Time>)
    ensures At(Two(docs, t, pa, pb, la, lb), B, q) == Two(docs, t, pa, q, la, lb)
    ensures Two(docs, t, pa, pb, la, lb).late[B := m] == Two(docs, t, pa, pb, la, m).late
  {
    var phase, late := map[A := pa, B := pb], map[A := la, B := lb];
    assert phase[B := q] == map[A := pa, B := q];
    assert late[B := m] == map[A := la, B := m];
  }

  lemma RaiseStep(c: Cluster, n: NodeId, now: Time, term: int)
    requires WellFormed(c) && n in c.phase && c.phase[n] == Raising(now)
    requires n in c.docs ==> c.docs[n].term != term
    ensures Enabled(c, RaiseFlag(n, term, true, true))
    ensures Apply(c, RaiseFlag(n, term, true, true))
         == At(c, n, Asleep(now, c.clock)).(docs := c.docs[n := Doc(true, now, CLAIM_PROFILE, term)])
  {
  }

  lemma PassStep(c: Cluster, n: NodeId, now: Time, r: Time)
    requires WellFormed(c) && n in c.phase && c.phase[n] == Asleep(now, r) && r + VERIFY_DELAY <= c.clock
    requires |FreshLeaders(c.docs, now - VERIFY_WINDOW)| <= 1
    ensures Enabled(c, Verify(n, true))
    ensures Apply(c, Verify(n, true))
         == At(c, n, Holding(now, r, c.clock)).(late := c.late[n := c.late[n] + multiset{c.clock}])
  {
  }

  lemma LaunchStep(c: Cluster, n: NodeId, now: Time, r: Time, f: Time)
    requires WellFormed(c) && n in c.phase && c.phase[n] == Holding(now, r, f)
    ensures Enabled(c, Launch(n))
    ensures Apply(c, Launch(n))
         == At(c, n, Holding(now, r, c.clock)).(late := c.late[n := c.late[n] + multiset{c.clock}])
  {
  }

  // ---- The stretches ---------------------------------------------------------------------------------

  lemma FirstRaises(l: Plan, reach: iset<Cluster>, c: Cluster, docs: Docs, now: Time, t: Time, pb: Phase,
    la: multiset<Time>, lb: multiset<Time>)
    requires c == Two(docs, t, Raising(now), pb, la, lb) && c in reach && Closed(Within(l), reach)
    requires Fits(l, t, Raising(now), la) && Fits(l, t, pb, lb) && forall m :: m in docs ==> docs[m].term < 2
    ensures Two(docs[A := Claimed(now, 2)], t, Asleep(now, t), pb, la, lb) in reach
  {
    RaiseStep(c, A, now, 2);
    FirstMoves(docs, t, Raising(now), pb, la, lb, Asleep(now, t), la);
    Go(l, reach, c, RaiseFlag(A, 2, true, true), docs[A := Claimed(now, 2)], t, Asleep(now, t), pb, la, lb);
  }

  lemma SecondRaises(l: Plan, reach: iset<Cluster>, c: Cluster, docs: Docs, now: Time, t: Time, pa: Phase,
    la: multiset<Time>, lb: multiset<Time>)
    requires c == Two(docs, t, pa, Raising(now), la, lb) && c in reach && Closed(Within(l), reach)
    requires Fits(l, t, pa, la) && Fits(l, t, Raising(now), lb) && forall m :: m in docs ==> docs[m].term < 3
    ensures Two(docs[B := Claimed(now, 3)], t, pa, Asleep(now, t), la, lb) in reach
  {
    RaiseStep(c, B, now, 3);
    SecondMoves(docs, t, pa, Raising(now), la, lb, Asleep(now, t), lb);
    Go(l, reach, c, RaiseFlag(B, 3, true, true), docs[B := Claimed(now, 3)], t, pa, Asleep(now, t), la, lb);
  }

  /** The clock moves while nothing is due. */
  lemma Waits(l: Plan, reach: iset<Cluster>, c: Cluster, docs: Docs, t: Time, u: Time, pa: Phase, pb: Phase,
    la: multiset<Time>, lb: multiset<Time>)
    requires c == Two(docs, t, pa, pb, la, lb) && c in reach && Closed(Within(l), reach) && t <= u
    requires Fits(l, u, pa, la) && Fits(l, u, pb, lb)
    ensures Two(docs, u, pa, pb, la, lb) in reach
  {
    Go(l, reach, c, Tick(u), docs, u, pa, pb, la, lb);
  }

  lemma FirstPasses(l: Plan, reach: iset<Cluster>, c: Cluster, docs: Docs, now: Time, r: Time, t: Time, pb: Phase,
    la: multiset<Time>, lb: multiset<Time>)
    requires c == Two(docs, t, Asleep(now, r), pb, la, lb) && c in reach && Closed(Within(l), reach)
      && r + VERIFY_DELAY <= t
    requires Fits(l, t, Asleep(now, r), la) && Fits(l, t, pb, lb) && 0 <= l.period && 0 <= l.delay
    requires |FreshLeaders(docs, now - VERIFY_WINDOW)| <= 1
    ensures Two(docs, t, Holding(now, r, t), pb, la + multiset{t}, lb) in reach
  {
    PassStep(c, A, now, r);
    FirstMoves(docs, t, Asleep(now, r), pb, la, lb, Holding(now, r, t), la + multiset{t});
    Go(l, reach, c, Verify(A, true), docs, t, Holding(now, r, t), pb, la + multiset{t}, lb);
  }

  lemma SecondPasses(l: Plan, reach: iset<Cluster>, c: Cluster, docs: Docs, now: Time, r: Time, t: Time, pa: Phase,
    la: multiset<Time>, lb: multiset<Time>)
    requires c == Two(docs, t, pa, Asleep(now, r), la, lb) && c in reach && Closed(Within(l), reach)
      && r + VERIFY_DELAY <= t
    requires Fits(l, t, pa, la) && Fits(l, t, Asleep(now, r), lb) && 0 <= l.period && 0 <= l.delay
    requires |FreshLeaders(docs, now - VERIFY_WINDOW)| <= 1 && pa.Holding?
    ensures exists d :: d in reach && TwoHolders(d)
  {
    PassStep(c, B, now, r);
    SecondMoves(docs, t, pa, Asleep(now, r), la, lb, Holding(now, r, t), lb + multiset{t});
    Go(l, reach, c, Verify(B, true), docs, t, pa, Holding(now, r, t), la, lb + multiset{t});
    TwoHold(docs, t, pa, Holding(now, r, t), la, lb + multiset{t});
  }

  lemma TwoHold(docs: Docs, t: Time, pa: Phase, pb: Phase, la: multiset<Time>, lb: multiset<Time>)
    requires pa.Holding? && pb.Holding?
    ensures TwoHolders(Two(docs, t, pa, pb, la, lb))
  {
    var d := Two(docs, t, pa, pb, la, lb);
    assert A in d.phase && B in d.phase && A != B;
  }

  // ---- An earlier tenure ---------------------------------------------------------------------------

  /** What a tenure of term 1 leaves behind that ended as soon as its claim held. */
  function Past(n: NodeId, t: Time): Docs {
    map[n := Doc(false, t, CLAIM_PROFILE, 1)]
  }

  predicate AllIdle(c: Cluster) {
    WellFormed(c) && Cold(c) && forall n :: n in c.phase ==> c.phase[n] == Idle
  }

  /** From the cold start `c` only `n` has acted. */
  function Lone(c: Cluster, n: NodeId, docs: Docs, t: Time, p: Phase, late: multiset<Time>): Cluster {
    Cluster(docs, t, c.phase[n := p], c.late[n := late])
  }

  lemma LoneGo(l: Plan, reach: iset<Cluster>, c: Cluster, n: NodeId, d: Cluster, a: Action, docs: Docs, t: Time,
    p: Phase, late: multiset<Time>)
    requires AllIdle(c) && n in c.phase && d in reach && Closed(Within(l), reach)
    requires WellFormed(d) && Enabled(d, a) && Proper(l, d, a) && Rises(d, a)
    requires Apply(d, a) == Lone(c, n, docs, t, p, late) && Fits(l, t, p, late)
    ensures Lone(c, n, docs, t, p, late) in reach
  {
    assert Keeps(l, Lone(c, n, docs, t, p, late));
    Then(Within(l), reach, d, a);
  }

  /** It claims, */
  lemma LoneRaises(l: Plan, reach: iset<Cluster>, c: Cluster, n: NodeId)
    requires Closed(Within(l), reach) && c in reach && AllIdle(c) && n in c.phase && l.limit >= 100
    ensures Lone(c, n, map[n := Claimed(c.clock, 1)], c.clock, Asleep(c.clock, c.clock), NONE) in reach
  {
    WithinYoung(l, c, n);
    Counts(Within(l), reach, c, n);
    var d := At(c, n, Raising(c.clock));
    RaiseStep(d, n, c.clock, 1);
    assert d.docs[n := Claimed(c.clock, 1)] == map[n := Claimed(c.clock, 1)] && c.late[n := NONE] == c.late;
    assert d.phase[n := Asleep(c.clock, c.clock)] == c.phase[n := Asleep(c.clock, c.clock)];
    LoneGo(l, reach, c, n, d, RaiseFlag(n, 1, true, true), map[n := Claimed(c.clock, 1)], c.clock,
           Asleep(c.clock, c.clock), NONE);
  }

  lemma LoneSleeps(l: Plan, reach: iset<Cluster>, c: Cluster, n: NodeId, now: Time, t: Time)
    requires Closed(Within(l), reach) && AllIdle(c) && n in c.phase && t == now + VERIFY_DELAY && l.limit >= 100
    requires Lone(c, n, map[n := Claimed(now, 1)], now, Asleep(now, now), NONE) in reach
    ensures Lone(c, n, map[n := Claimed(now, 1)], t, Asleep(now, now), NONE) in reach
  {
    var docs := map[n := Claimed(now, 1)];
    LoneGo(l, reach, c, n, Lone(c, n, docs, now, Asleep(now, now), NONE), Tick(t), docs, t, Asleep(now, now), NONE);
  }

  /** holds its claim, */
  lemma LoneHolds(l: Plan, reach: iset<Cluster>, c: Cluster, n: NodeId, now: Time, t: Time)
    requires Closed(Within(l), reach) && AllIdle(c) && n in c.phase && t == now + VERIFY_DELAY
    requires Lone(c, n, map[n := Claimed(now, 1)], now, Asleep(now, now), NONE) in reach
    requires l.limit >= 100 && l.period >= 0 && 0 <= l.delay
    ensures Lone(c, n, map[n := Claimed(now, 1)], t, Holding(now, now, t), multiset{t}) in reach
  {
    var docs := map[n := Claimed(now, 1)];
    LoneSleeps(l, reach, c, n, now, t);
    OnlyOne(docs, n, now - VERIFY_WINDOW);
    var d := Lone(c, n, docs, t, Asleep(now, now), NONE);
    PassStep(d, n, now, now);
    assert d.phase[n := Holding(now, now, t)] == c.phase[n := Holding(now, now, t)];
    assert d.late[n := multiset{t}] == c.late[n := multiset{t}] && NONE + multiset{t} == multiset{t};
    LoneGo(l, reach, c, n, d, Verify(n, true), docs, t, Holding(now, now, t), multiset{t});
  }

  /** and gives it up at once, while its first heartbeat is still in flight. */
  lemma EarlierTenure(l: Plan, reach: iset<Cluster>, c: Cluster, n: NodeId)
    requires Closed(Within(l), reach) && c in reach && AllIdle(c) && n in c.phase
    requires l.limit >= 100 && l.period >= 0 && 0 <= l.delay
    ensures var t := c.clock + VERIFY_DELAY;
      Lone(c, n, Past(n, t), t, Idle, multiset{t}) in reach
  {
    var t, docs := c.clock + VERIFY_DELAY, map[n := Claimed(c.clock, 1)];
    LoneRaises(l, reach, c, n);
    LoneHolds(l, reach, c, n, c.clock, t);
    var d := Lone(c, n, docs, t, Holding(c.clock, c.clock, t), multiset{t});
    assert d.phase[n := Idle] == c.phase[n := Idle];
    LoneGo(l, reach, c, n, d, StepDown(n), docs, t, Idle, multiset{t});
    assert Register(docs, n, CLAIM_PROFILE, false, t) == Past(n, t);
    LoneGo(l, reach, c, n, Lone(c, n, docs, t, Idle, multiset{t}), LowerFlag(n), Past(n, t), t, Idle, multiset{t});
  }

  // ---- A holder that keeps its heartbeats going ---------------------------------------------------

  lemma Launches(l: Plan, reach: iset<Cluster>, c: Cluster, docs: Docs, t: Time, pb: Phase, la: multiset<Time>,
    lb: multiset<Time>,
                 now: Time, r: Time, f: Time)
    requires c == Two(docs, t, Holding(now, r, f), pb, la, lb) && c in reach && Closed(Within(l), reach)
    requires Fits(l, t, pb, lb) && (forall g :: g in la ==> t <= g + l.delay) && 0 <= l.period && 0 <= l.delay
    requires !l.timed || t + 1 >= f + l.period
    ensures Two(docs, t, Holding(now, r, t), pb, la + multiset{t}, lb) in reach
  {
    var h, m := Holding(now, r, t), la + multiset{t};
    LaunchStep(c, A, now, r, f);
    FirstMoves(docs, t, Holding(now, r, f), pb, la, lb, h, m);
    Go(l, reach, c, Launch(A), docs, t, h, pb, m, lb);
  }

  /** It launches one whenever a period is over, and none lands. */
  lemma {:induction false} HoldsSilently(l: Plan, reach: iset<Cluster>, c: Cluster, docs: Docs, t: Time, u: Time,
    pb: Phase, la: multiset<Time>, lb: multiset<Time>,
                      now: Time, r: Time, f: Time)
    returns (f': Time, la': multiset<Time>)
    requires c == Two(docs, t, Holding(now, r, f), pb, la, lb) && c in reach && Closed(Within(l), reach) && f <= t <= u
    requires l.period >= 1 && 0 <= l.delay && u <= f + l.period + l.delay
    requires Fits(l, t, Holding(now, r, f), la) && Fits(l, u, pb, lb) && forall g :: g in la ==> u <= g + l.delay
    ensures Two(docs, u, Holding(now, r, f'), pb, la', lb) in reach
    ensures f <= f' <= u && Fits(l, u, Holding(now, r, f'), la')
    ensures forall g :: g in la' ==> g in la || g >= f + l.period
    decreases u - f
  {
    if u <= f + l.period {
      Waits(l, reach, c, docs, t, u, Holding(now, r, f), pb, la, lb);
      f', la' := f, la;
    } else {
      var v := f + l.period;
      var h, m := Holding(now, r, v), la + multiset{v};
      Waits(l, reach, c, docs, t, v, Holding(now, r, f), pb, la, lb);
      Launches(l, reach, Two(docs, v, Holding(now, r, f), pb, la, lb), docs, v, pb, la, lb, now, r, f);
      f', la' := HoldsSilently(l, reach, Two(docs, v, h, pb, m, lb), docs, v, u, pb, m, lb, now, r, v);
    }
  }

  /** Launched and landed at once, the flag is refreshed. */
  lemma Refreshes(l: Plan, reach: iset<Cluster>, c: Cluster, docs: Docs, t: Time, pb: Phase, la: multiset<Time>,
    lb: multiset<Time>,
                  now: Time, r: Time, f: Time)
    requires c == Two(docs, t, Holding(now, r, f), pb, la, lb) && c in reach && Closed(Within(l), reach) && A in docs
    requires Fits(l, t, pb, lb) && (forall g :: g in la ==> t <= g + l.delay) && 0 <= l.period && 0 <= l.delay
    requires !l.timed || t + 1 >= f + l.period
    ensures Two(Register(docs, A, CLAIM_PROFILE, true, t), t, Holding(now, r, t), pb, la, lb) in reach
  {
    var h, m := Holding(now, r, t), la + multiset{t};
    Launches(l, reach, c, docs, t, pb, la, lb, now, r, f);
    Lands(l, reach, Two(docs, t, h, pb, m, lb), docs, t, h, pb, m, lb, t, t);
    assert m - multiset{t} == la;
  }

  lemma Lands(l: Plan, reach: iset<Cluster>, c: Cluster, docs: Docs, t: Time, pa: Phase, pb: Phase,
    la: multiset<Time>, lb: multiset<Time>,
              launched: Time, stamp: Time)
    requires c == Two(docs, t, pa, pb, la, lb) && c in reach && Closed(Within(l), reach) && launched in la
      && launched <= stamp <= t
    requires Fits(l, t, pa, la) && Fits(l, t, pb, lb)
    ensures Two(Register(docs, A, CLAIM_PROFILE, true, stamp), t, pa, pb, la - multiset{launched}, lb) in reach
  {
    var m := la - multiset{launched};
    assert c.late[A := m] == map[A := m, B := lb];
    Go(l, reach, c, Land(A, launched, stamp), Register(docs, A, CLAIM_PROFILE, true, stamp), t, pa, pb, m, lb);
  }

  /** It refreshes its document whenever a period is over; only `la` stays in flight. */
  lemma {:induction false} HoldsRefreshing(l: Plan, reach: iset<Cluster>, c: Cluster, seen: Time, t: Time, u: Time,
    la: multiset<Time>, now: Time, r: Time, f: Time)
    returns (f': Time, seen': Time)
    requires c == Two(map[A := Claimed(seen, 2)], t, Holding(now, r, f), Idle, la, NONE) && c in reach
      && Closed(Within(l), reach)
    requires f <= t <= u && l.period >= 1 && 0 <= l.delay
    requires Fits(l, t, Holding(now, r, f), la) && forall g :: g in la ==> u <= g + l.delay
    ensures Two(map[A := Claimed(seen', 2)], u, Holding(now, r, f'), Idle, la, NONE) in reach
    ensures f <= f' <= u && Fits(l, u, Holding(now, r, f'), la)
    decreases u - f
  {
    var docs := map[A := Claimed(seen, 2)];
    if u <= f + l.period {
      Waits(l, reach, c, docs, t, u, Holding(now, r, f), Idle, la, NONE);
      f', seen' := f, seen;
    } else {
      var v := f + l.period;
      Waits(l, reach, c, docs, t, v, Holding(now, r, f), Idle, la, NONE);
      Refreshes(l, reach, Two(docs, v, Holding(now, r, f), Idle, la, NONE), docs, v, Idle, la, NONE, now, r, f);
      assert Register(docs, A, CLAIM_PROFILE, true, v) == map[A := Claimed(v, 2)];
      f', seen' := HoldsRefreshing(l, reach, Two(map[A := Claimed(v, 2)], v, Holding(now, r, v), Idle, la, NONE), v, v,
        u, la, now, r, v);
    }
  }
}
