/** AtomicClaimLeadership as it really runs: separate store operations of many nodes, interleaved
    with each other, with leader heartbeats that may land late, and with step-downs. */
module ClaimProtocol {
  import opened Registry

  /** Where a node stands. `Holding` means that a claim returned true and was not given up. */
  datatype Phase =
    | Idle
    | Clearing(stale: Time)
    | Cleared
    | Counting(now: Time)
    | Raising(now: Time)
    | Verifying(now: Time, raisedAt: Time, wakeAt: Time, retry: nat, changed: bool)
    | BackingOff
    | Holding(now: Time, raisedAt: Time, fired: Time)

  /** `late` holds, per node, the launch times of heartbeats whose write has not landed yet. */
  datatype Cluster = Cluster(docs: Docs, clock: Time, phase: map<NodeId, Phase>, late: map<NodeId, multiset<Time>>)

  datatype Action =
    | Tick(to: Time)
    | Begin(n: NodeId)
    | Clear(n: NodeId, ok: bool)
    | ReadNow(n: NodeId)
    | Count(n: NodeId, ok: bool)
    | RaiseFlag(n: NodeId, term: int, applied: bool, ok: bool)
    | Verify(n: NodeId, ok: bool)
    | BackOff(n: NodeId, applied: bool)
    | StepDown(n: NodeId)
    | LowerFlag(n: NodeId)
    | Launch(n: NodeId)
    | Land(n: NodeId, launched: Time, stamp: Time)
    | Drop(n: NodeId, launched: Time)       // a heartbeat that finds its node no longer leading

  predicate WellFormed(c: Cluster) {
    c.phase.Keys == c.late.Keys
  }

  predicate Enabled(c: Cluster, a: Action) {
    match a
    case Tick(to) => c.clock <= to
    case Begin(n) => n in c.phase && c.phase[n].Idle?
    case Clear(n, _) => n in c.phase && c.phase[n].Clearing?
    case ReadNow(n) => n in c.phase && c.phase[n].Cleared?
    case Count(n, _) => n in c.phase && c.phase[n].Counting?
    case RaiseFlag(n, _, applied, ok) => n in c.phase && c.phase[n].Raising? && (ok ==> applied)
    case Verify(n, _) => n in c.phase && c.phase[n].Verifying? && c.phase[n].wakeAt <= c.clock
    case BackOff(n, _) => n in c.phase && c.phase[n].BackingOff?
    case StepDown(n) => n in c.phase && c.phase[n].Holding?
    case LowerFlag(n) => n in c.phase && c.phase[n].Idle?
    case Launch(n) => n in c.phase && n in c.late && c.phase[n].Holding?
    case Land(n, launched, stamp) => n in c.late && launched in c.late[n] && stamp <= c.clock
    case Drop(n, launched) => n in c.phase && n in c.late && launched in c.late[n] && !c.phase[n].Holding?
  }

  function At(c: Cluster, n: NodeId, p: Phase): Cluster {
    c.(phase := c.phase[n := p])
  }

  /** What the verification decides once the leader count is known. */
  function Decide(c: Cluster, n: NodeId): Cluster
    requires WellFormed(c) && n in c.phase && c.phase[n].Verifying?
  {
    var p := c.phase[n];
    if |FreshLeaders(c.docs, p.now - VERIFY_WINDOW)| > 1 then At(c, n, BackingOff)
    else if p.changed then
      At(c, n, Holding(p.now, p.raisedAt, c.clock)).(late := c.late[n := c.late[n] + multiset{c.clock}])
    else At(c, n, Idle)
  }

  function Apply(c: Cluster, a: Action): Cluster
    requires WellFormed(c) && Enabled(c, a)
  {
    match a
    case Tick(to) => c.(clock := to)
    case Begin(n) => At(c, n, Clearing(c.clock - STALE_AFTER))
    case Clear(n, ok) =>
      if ok then At(c, n, Cleared).(docs := ClearStale(c.docs, c.phase[n].stale)) else At(c, n, Idle)
    case ReadNow(n) => At(c, n, Counting(c.clock))
    case Count(n, ok) =>
      var now := c.phase[n].now;
      if ok && FreshLeaders(c.docs, now - ACTIVE_WINDOW) - {n} == {} then At(c, n, Raising(now))
      else At(c, n, Idle)
    case RaiseFlag(n, term, applied, ok) =>
      var now := c.phase[n].now;
      var docs := if applied then Raise(c.docs, n, now, term) else c.docs;
      var changed := RaiseChanges(c.docs, n, now, term);
      At(c, n, if ok then Verifying(now, c.clock, c.clock + VERIFY_DELAY, 0, changed) else Idle).(docs := docs)
    case Verify(n, ok) =>
      var p := c.phase[n];
      if ok then Decide(c, n)
      else if p.retry + 1 < VERIFY_ATTEMPTS then
        At(c, n, p.(wakeAt := c.clock + VERIFY_BACKOFF, retry := p.retry + 1))
      else At(c, n, Idle)
    case BackOff(n, applied) =>
      At(c, n, Idle).(docs := if applied then Lower(c.docs, n) else c.docs)
    case StepDown(n) => At(c, n, Idle)
    case LowerFlag(n) => c.(docs := Register(c.docs, n, CLAIM_PROFILE, false, c.clock))
    case Launch(n) =>
      At(c, n, c.phase[n].(fired := c.clock)).(late := c.late[n := c.late[n] + multiset{c.clock}])
    case Land(n, launched, stamp) =>
      c.(docs := Register(c.docs, n, CLAIM_PROFILE, true, stamp),
         late := c.late[n := c.late[n] - multiset{launched}])
    case Drop(n, launched) => c.(late := c.late[n := c.late[n] - multiset{launched}])
  }

  /** No heartbeat was launched in the future. */
  predicate LaunchedBefore(c: Cluster) {
    forall n :: n in c.late ==> forall f :: f in c.late[n] ==> f <= c.clock
  }

  /** Any registry contents and any heartbeats still in flight, but nobody claims or holds. */
  predicate Initial(c: Cluster) {
    WellFormed(c) && LaunchedBefore(c) && forall n :: n in c.phase ==> c.phase[n].Idle?
  }

  predicate StepAt(acts: seq<Action>, s: seq<Cluster>, i: nat)
    requires |s| == |acts| + 1 && i < |acts|
  {
    WellFormed(s[i]) && Enabled(s[i], acts[i]) && s[i + 1] == Apply(s[i], acts[i])
  }

  ghost predicate IsRun(acts: seq<Action>, s: seq<Cluster>) {
    && |s| == |acts| + 1
    && Initial(s[0])
    && forall i :: 0 <= i < |acts| ==> StepAt(acts, s, i)
  }

  /** A heartbeat reads the clock for its stamp after it is launched and before it writes. */
  ghost predicate ClientStamped(acts: seq<Action>) {
    forall i :: 0 <= i < |acts| && acts[i].Land? ==> acts[i].launched <= acts[i].stamp
  }

  predicate InClaim(p: Phase) {
    p.Counting? || p.Raising? || p.Verifying?
  }

  /** A claim lasts at most `limit` from its `now`; a holder's document is at most `gap` old. */
  predicate Timely(c: Cluster, limit: Time, gap: Time) {
    forall n :: n in c.phase ==>
      && (InClaim(c.phase[n]) ==> c.clock <= c.phase[n].now + limit)
      && (c.phase[n].Holding? ==> n in c.docs && c.clock <= c.docs[n].lastSeen + gap)
  }

  ghost predicate TimelyRun(acts: seq<Action>, s: seq<Cluster>, limit: Time, gap: Time) {
    IsRun(acts, s) && forall i :: 0 <= i < |s| ==> Timely(s[i], limit, gap)
  }

  predicate AtMostOneHolder(c: Cluster) {
    forall m, n :: m in c.phase && n in c.phase && c.phase[m].Holding? && c.phase[n].Holding? ==> m == n
  }

  // ---- What every interleaving keeps --------------------------------------------------------

  predicate Flagged(p: Phase) {
    p.Verifying? || p.Holding?
  }

  /** The timing facts of one node's own phase. */
  predicate Paced(c: Cluster, p: Phase) {
    && (p.Clearing? ==> p.stale <= c.clock - STALE_AFTER)
    && (p.Counting? || p.Raising? ==> p.now <= c.clock)
    && (p.Verifying? ==> p.now <= p.raisedAt <= c.clock && p.raisedAt + VERIFY_DELAY <= p.wakeAt)
    && (p.Holding? ==> p.now <= p.raisedAt && p.raisedAt + VERIFY_DELAY <= c.clock && p.fired <= c.clock)
  }

  /** A raised flag can only have been lowered by others if it is already stale. */
  predicate FlagKept(c: Cluster, n: NodeId)
    requires n in c.phase
  {
    Flagged(c.phase[n]) ==> n in c.docs && (c.docs[n].isLeader || c.docs[n].lastSeen < c.clock - STALE_AFTER)
  }

  predicate Kept(c: Cluster) {
    && WellFormed(c)
    && (forall n :: n in c.phase ==> Paced(c, c.phase[n]))
    && (forall n :: n in c.phase ==> FlagKept(c, n))
  }

  /** Others only clear flags that are stale. */
  lemma KeptByOthers(c: Cluster, a: Action, m: NodeId)
    requires Kept(c) && Enabled(c, a) && m in c.phase && (a.Tick? || a.n != m)
    ensures m in Apply(c, a).phase && Paced(Apply(c, a), Apply(c, a).phase[m]) && FlagKept(Apply(c, a), m)
  {
    assert FlagKept(c, m) && Paced(c, c.phase[m]);
    if a.Clear? {
      assert Paced(c, c.phase[a.n]);
    }
  }

  /** A node on its way to its flag. */
  lemma KeptByClaimant(c: Cluster, a: Action)
    requires Kept(c) && Enabled(c, a) && !a.Tick? && !a.Verify? && !a.Land? && !a.Launch? && a.n in c.phase
    ensures a.n in Apply(c, a).phase && Paced(Apply(c, a), Apply(c, a).phase[a.n]) && FlagKept(Apply(c, a), a.n)
  {
    assert FlagKept(c, a.n) && Paced(c, c.phase[a.n]);
  }

  lemma KeptByHolder(c: Cluster, a: Action)
    requires Kept(c) && Enabled(c, a) && (a.Verify? || a.Land? || a.Launch?) && a.n in c.phase
    ensures a.n in Apply(c, a).phase && Paced(Apply(c, a), Apply(c, a).phase[a.n]) && FlagKept(Apply(c, a), a.n)
  {
    assert FlagKept(c, a.n) && Paced(c, c.phase[a.n]);
  }

  /** No step but the node's own false write or back-off, neither possible while its flag counts,
      lowers a flag that is still fresh. */
  lemma KeptAtNode(c: Cluster, a: Action, m: NodeId)
    requires Kept(c) && Enabled(c, a) && m in c.phase
    ensures m in Apply(c, a).phase && Paced(Apply(c, a), Apply(c, a).phase[m]) && FlagKept(Apply(c, a), m)
  {
    if a.Tick? || a.n != m {
      KeptByOthers(c, a, m);
    } else if a.Verify? || a.Land? || a.Launch? {
      KeptByHolder(c, a);
    } else {
      KeptByClaimant(c, a);
    }
  }

  lemma KeptStep(c: Cluster, a: Action)
    requires Kept(c) && Enabled(c, a)
    ensures Kept(Apply(c, a))
  {
    var d := Apply(c, a);
    assert d.phase.Keys == c.phase.Keys && d.late.Keys == c.late.Keys by { Members(c, a); }
    forall m | m in d.phase ensures Paced(d, d.phase[m]) && FlagKept(d, m) {
      KeptAtNode(c, a, m);
    }
  }

  lemma Members(c: Cluster, a: Action)
    requires WellFormed(c) && Enabled(c, a)
    ensures Apply(c, a).phase.Keys == c.phase.Keys && Apply(c, a).late.Keys == c.late.Keys
  {
  }

  /** When `n` passes verification its own flag and any other holder's flag that is recent enough
      for its window are both counted; so there is no such holder. */
  lemma VerificationSees(c: Cluster, n: NodeId, x: NodeId)
    requires Kept(c) && n in c.phase && x in c.phase && n != x
    requires c.phase[n].Verifying? && c.phase[x].Holding?
    requires c.docs[n].lastSeen >= c.phase[n].now - VERIFY_WINDOW && c.docs[n].isLeader
    requires c.docs[x].lastSeen >= c.phase[n].now - VERIFY_WINDOW && c.docs[x].isLeader
    ensures Decide(c, n).phase[n] == BackingOff
  {
    TwoMembers(FreshLeaders(c.docs, c.phase[n].now - VERIFY_WINDOW), n, x);
  }

  /** Only a passed verification makes a holder. */
  lemma NoNewHolder(c: Cluster, a: Action)
    requires WellFormed(c) && Enabled(c, a)
    requires a.Verify? ==> !Apply(c, a).phase[a.n].Holding? || c.phase[a.n].Holding?
    ensures forall n :: n in Apply(c, a).phase && Apply(c, a).phase[n].Holding? ==> n in c.phase && c.phase[n].Holding?
  {
    match a {
      case Verify(_, _) =>
      case _ =>
    }
  }

  lemma FreshHolderIsSeen(c: Cluster, n: NodeId, x: NodeId, gap: Time)
    requires Kept(c) && n in c.phase && x in c.phase && n != x && gap <= VERIFY_WINDOW + VERIFY_DELAY
    requires c.phase[n].Verifying? && c.phase[n].wakeAt <= c.clock && c.phase[x].Holding?
    requires c.clock <= c.docs[n].lastSeen + gap && c.clock <= c.docs[x].lastSeen + gap
    ensures Decide(c, n).phase[n] == BackingOff
  {
    assert FlagKept(c, n) && FlagKept(c, x) && Paced(c, c.phase[n]);
    VerificationSees(c, n, x);
  }

  /** One step under the 2.1 s bound, for heartbeats stamped at any earlier time. */
  lemma FreshStep(c: Cluster, a: Action, limit: Time, gap: Time)
    requires Kept(c) && Enabled(c, a) && AtMostOneHolder(c)
    requires gap <= VERIFY_WINDOW + VERIFY_DELAY
    requires Timely(c, limit, gap) && Timely(Apply(c, a), limit, gap)
    ensures AtMostOneHolder(Apply(c, a))
  {
    var d := Apply(c, a);
    if a.Verify? && d.phase[a.n].Holding? {
      var n := a.n;
      assert d.docs == c.docs && d.clock == c.clock && n in d.phase;
      forall x | x in c.phase && c.phase[x].Holding? ensures false {
        FreshHolderIsSeen(c, n, x, gap);
      }
    } else {
      NoNewHolder(c, a);
    }
  }

  lemma {:induction false} KeptAt(acts: seq<Action>, s: seq<Cluster>, i: nat)
    requires IsRun(acts, s) && i < |s|
    ensures Kept(s[i])
  {
    if i > 0 {
      KeptAt(acts, s, i - 1);
      assert StepAt(acts, s, i - 1);
      KeptStep(s[i - 1], acts[i - 1]);
    }
  }

  /** Mutual exclusion: whatever the interleaving, the claim durations and the heartbeat stamps, if
      every holder's document is at most 2.1 s old then no two nodes hold a claim at once. */
  lemma {:induction false} FreshHoldersAreUnique(
    acts: seq<Action>, s: seq<Cluster>, limit: Time, gap: Time, i: nat)
    requires TimelyRun(acts, s, limit, gap) && i < |s|
    requires gap <= VERIFY_WINDOW + VERIFY_DELAY
    ensures AtMostOneHolder(s[i])
  {
    if i > 0 {
      FreshHoldersAreUnique(acts, s, limit, gap, i - 1);
      KeptAt(acts, s, i - 1);
      assert Timely(s[i - 1], limit, gap) && Timely(s[i], limit, gap);
      assert StepAt(acts, s, i - 1);
      FreshStep(s[i - 1], acts[i - 1], limit, gap);
    }
  }
}
