/** The Bully election of a fixed set of nodes, with every registry operation a step of its own: the
    check reads and writes the registry piecemeal, in any map order, and the heartbeat, which runs
    beside it without the lock, reads the local flag and writes it later. */
module BullyProtocol {
  import opened Wrappers
  import opened Registry
  import opened NodePriority
  import opened BullyRules

  /** Where a node's check stands. */
  datatype Check =
    | NoCheck
    | Gathered(seen: map<NodeId, Time>)         // the registry read, and not yet rated
    | Scanning(todo: set<NodeId>, seen: map<NodeId, Time>, highest: int)
    | Deciding(highest: int, leader: Option<NodeId>)
    | Claiming                                  // about to read the leaders to clear
    | Sweeping(clear: set<NodeId>)
    | Announcing                                // local flag set, registry write pending
    | Retiring                                  // local flag cleared, registry write pending

  /** `beat` is the flag a heartbeat has read and not yet written. */
  datatype Node = Node(isLeader: bool, check: Check, beat: Option<bool>)

  datatype Cluster = Cluster(docs: Docs, clock: Time, timeout: Time, nodes: map<NodeId, Node>)

  datatype Action =
    | Tick(to: Time)
    | StartCheck(n: NodeId)
    | Rate(n: NodeId)
    | Scan(n: NodeId, m: NodeId)
    | EndScan(n: NodeId)
    | Decide(n: NodeId)
    | ReadLeaders(n: NodeId)
    | Sweep(n: NodeId, m: NodeId, profile: Profile)
    | EndSweep(n: NodeId)
    | Announce(n: NodeId, profile: Profile)
    | Retire(n: NodeId, profile: Profile)
    | BeatRead(n: NodeId)
    | BeatWrite(n: NodeId, profile: Profile)

  predicate Enabled(c: Cluster, a: Action) {
    match a
    case Tick(to) => c.clock <= to
    case StartCheck(n) => n in c.nodes && c.nodes[n].check.NoCheck?
    case Rate(n) => n in c.nodes && c.nodes[n].check.Gathered?
    case Scan(n, m) => n in c.nodes && c.nodes[n].check.Scanning? && m in c.nodes[n].check.todo
      && m in c.nodes[n].check.seen
    case EndScan(n) => n in c.nodes && c.nodes[n].check.Scanning? && c.nodes[n].check.todo == {}
    case Decide(n) => n in c.nodes && c.nodes[n].check.Deciding?
    case ReadLeaders(n) => n in c.nodes && c.nodes[n].check.Claiming?
    case Sweep(n, m, _) => n in c.nodes && c.nodes[n].check.Sweeping? && m in c.nodes[n].check.clear
    case EndSweep(n) => n in c.nodes && c.nodes[n].check.Sweeping? && c.nodes[n].check.clear == {}
    case Announce(n, _) => n in c.nodes && c.nodes[n].check.Announcing?
    case Retire(n, _) => n in c.nodes && c.nodes[n].check.Retiring?
    case BeatRead(n) => n in c.nodes && c.nodes[n].beat.None?
    case BeatWrite(n, _) => n in c.nodes && c.nodes[n].beat.Some?
  }

  /** The greatest priority among `n` itself and the recent nodes of `seen`. */
  ghost predicate IsHighest(h: int, n: NodeId, seen: map<NodeId, Time>, clock: Time, timeout: Time) {
    && h >= Priority(n)
    && (forall m :: m in seen && Recent(seen[m], clock, timeout) ==> Priority(m) <= h)
    && (h == Priority(n) || exists m :: m in seen && Recent(seen[m], clock, timeout) && Priority(m) == h)
  }

  function Set(c: Cluster, n: NodeId, check: Check): Cluster
    requires n in c.nodes
  {
    c.(nodes := c.nodes[n := c.nodes[n].(check := check)])
  }

  function Lead(c: Cluster, n: NodeId, isLeader: bool, check: Check): Cluster
    requires n in c.nodes
  {
    c.(nodes := c.nodes[n := c.nodes[n].(isLeader := isLeader, check := check)])
  }

  function Decided(c: Cluster, n: NodeId): Cluster
    requires Enabled(c, Decide(n))
  {
    var check := c.nodes[n].check;
    var leads := c.nodes[n].isLeader;
    var should := ShouldLead(n, check.highest, check.leader);
    if Yields(n, check.leader) then
      if leads then Lead(c, n, false, Retiring) else Set(c, n, NoCheck)
    else if should && !leads then Set(c, n, Claiming)
    else if !should && leads then Lead(c, n, false, Retiring)
    else Set(c, n, NoCheck)
  }

  function Scanned(c: Cluster, n: NodeId, m: NodeId): Cluster
    requires Enabled(c, Scan(n, m))
  {
    var check := c.nodes[n].check;
    if Recent(check.seen[m], c.clock, c.timeout) && Leads(c.docs, m, c.clock, c.timeout)
    then Set(c, n, Deciding(check.highest, Some(m)))
    else Set(c, n, check.(todo := check.todo - {m}))
  }

  ghost predicate Step(c: Cluster, a: Action, d: Cluster) {
    Enabled(c, a) &&
    match a
    case Tick(to) => d == c.(clock := to)
    case StartCheck(n) =>
      d == Set(c, n, Gathered(map m | m in Visible(c.docs, c.clock) :: c.docs[m].lastSeen))
    case Rate(n) =>
      var seen := c.nodes[n].check.seen;
      exists h :: IsHighest(h, n, seen, c.clock, c.timeout) && d == Set(c, n, Scanning(seen.Keys, seen, h))
    case Scan(n, m) => d == Scanned(c, n, m)
    case EndScan(n) => d == Set(c, n, Deciding(c.nodes[n].check.highest, None))
    case Decide(n) => d == Decided(c, n)
    case ReadLeaders(n) => d == Set(c, n, Sweeping(LowerLeaders(c.docs, n, c.clock)))
    case Sweep(n, m, profile) =>
      d == Set(c, n, Sweeping(c.nodes[n].check.clear - {m})).(docs := Register(c.docs, m, profile, false, c.clock))
    case EndSweep(n) => d == Lead(c, n, true, Announcing)
    case Announce(n, profile) => d == Set(c, n, NoCheck).(docs := Register(c.docs, n, profile, true, c.clock))
    case Retire(n, profile) => d == Set(c, n, NoCheck).(docs := Register(c.docs, n, profile, false, c.clock))
    case BeatRead(n) => d == c.(nodes := c.nodes[n := c.nodes[n].(beat := Some(c.nodes[n].isLeader))])
    case BeatWrite(n, profile) =>
      d == c.(docs := Register(c.docs, n, profile, c.nodes[n].beat.value, c.clock),
              nodes := c.nodes[n := c.nodes[n].(beat := None)])
  }

  ghost predicate StepAt(acts: seq<Action>, s: seq<Cluster>, i: nat)
    requires |s| == |acts| + 1 && i < |acts|
  {
    Step(s[i], acts[i], s[i + 1])
  }

  /** Runs start anywhere: any local flags, any checks and heartbeats under way, any registry contents. */
  ghost predicate IsRun(acts: seq<Action>, s: seq<Cluster>) {
    |s| == |acts| + 1 && forall i :: 0 <= i < |acts| ==> StepAt(acts, s, i)
  }

  /** Whenever another node reads the registry the top node is in it, and when that node rates what it
      has read the top node is still recent there. */
  predicate TopIsRecent(c: Cluster, a: Action, top: NodeId) {
    && (a.StartCheck? && a.n != top ==> top in Visible(c.docs, c.clock))
    && (a.Rate? && a.n != top && Enabled(c, a) && top in c.nodes[a.n].check.seen ==>
          Recent(c.nodes[a.n].check.seen[top], c.clock, c.timeout))
  }

  /** Fixed membership with distinct priorities below that of `top`. */
  predicate Ranked(c: Cluster, top: NodeId) {
    && top in c.nodes
    && c.docs.Keys <= c.nodes.Keys
    && forall n :: n in c.nodes && n != top ==> Priority(n) < Priority(top)
  }

  /** What a sweep and a claim may touch. */
  predicate InMembers(c: Cluster) {
    forall n :: n in c.nodes && c.nodes[n].check.Sweeping? ==> c.nodes[n].check.clear <= c.nodes.Keys
  }

  ghost predicate StableRun(acts: seq<Action>, s: seq<Cluster>, top: NodeId) {
    && IsRun(acts, s) && Ranked(s[0], top) && InMembers(s[0])
    && forall i :: 0 <= i < |acts| ==> TopIsRecent(s[i], acts[i], top)
  }

  /** A step touches one node; of the other documents it can only lower flags. */
  lemma OthersKeep(c: Cluster, a: Action, d: Cluster, n: NodeId)
    requires Step(c, a, d) && n in c.nodes && (a.Tick? || a.n != n)
    ensures n in d.nodes && d.nodes[n] == c.nodes[n]
    ensures n in d.docs && d.docs[n].isLeader ==> n in c.docs && c.docs[n].isLeader
    ensures !a.Sweep? || a.m != n ==> (n in c.docs <==> n in d.docs) && (n in c.docs ==> d.docs[n] == c.docs[n])
  {
    match a
    case Decide(_) =>
    case Scan(_, _) =>
    case StartCheck(_) =>
    case Rate(_) =>
    case Sweep(_, _, _) =>
    case _ =>
  }

  lemma Members(c: Cluster, a: Action, d: Cluster)
    requires Step(c, a, d)
    ensures d.nodes.Keys == c.nodes.Keys && d.timeout == c.timeout
    ensures d.docs.Keys <= c.docs.Keys + (if a.Tick? then {} else {a.n}) + if a.Sweep? then {a.m} else {}
    ensures !a.Tick? ==> a.n in c.nodes
  {
    match a
    case Decide(_) =>
    case Scan(_, _) =>
    case StartCheck(_) =>
    case Rate(_) =>
    case _ =>
  }

  lemma MembersStep(c: Cluster, a: Action, d: Cluster, top: NodeId)
    requires Step(c, a, d) && Ranked(c, top) && InMembers(c)
    ensures Ranked(d, top) && InMembers(d)
  {
    Members(c, a, d);
    forall n | n in d.nodes && d.nodes[n].check.Sweeping? ensures d.nodes[n].check.clear <= d.nodes.Keys {
      if a.Tick? || a.n != n {
        OthersKeep(c, a, d, n);
      } else if a.ReadLeaders? {
        assert LowerLeaders(c.docs, a.n, c.clock) <= c.docs.Keys;
      } else {
        SweepShrinks(c, a, d);
      }
    }
  }

  lemma SweepShrinks(c: Cluster, a: Action, d: Cluster)
    requires Step(c, a, d) && !a.Tick? && !a.ReadLeaders? && a.n in c.nodes
    ensures a.n in d.nodes
    ensures d.nodes[a.n].check.Sweeping? ==>
      c.nodes[a.n].check.Sweeping? && d.nodes[a.n].check.clear <= c.nodes[a.n].check.clear
  {
    match a
    case Decide(_) =>
    case Scan(_, _) =>
    case StartCheck(_) =>
    case Rate(_) =>
    case _ =>
  }
}
