/** From any state the top node becomes the only leader, and stays it. */
module BullyConvergence {
  import opened Wrappers
  import opened Registry
  import opened NodePriority
  import opened BullyRules
  import opened BullyProtocol

  // ---- A node other than the top one falls silent in four stages ---------------------------------

  /** Its check, started while the top node was recent, can only end without leadership. */
  predicate Outranked(c: Cluster, top: NodeId, n: NodeId)
    requires n in c.nodes
  {
    match c.nodes[n].check
    case NoCheck => !c.nodes[n].isLeader
    case Gathered(seen) => top in seen
    case Scanning(_, _, highest) => highest > Priority(n)
    case Deciding(highest, _) => highest > Priority(n)
    case Retiring => !c.nodes[n].isLeader
    case _ => false
  }

  predicate Flag(c: Cluster, n: NodeId) {
    n in c.docs && c.docs[n].isLeader
  }

  /** 0: a check that must end without leadership; 1: no local leadership; 2: nor in a heartbeat under
      way; 3: nor in the registry. */
  predicate Silent(c: Cluster, top: NodeId, n: NodeId, stage: nat)
    requires n in c.nodes
  {
    && Outranked(c, top, n)
    && (stage >= 1 ==> !c.nodes[n].isLeader)
    && (stage >= 2 ==> c.nodes[n].beat != Some(true))
    && (stage >= 3 ==> !Flag(c, n))
  }

  /** Each stage, once reached, is kept. */
  lemma SilentStep(c: Cluster, a: Action, d: Cluster, top: NodeId, n: NodeId, stage: nat)
    requires Step(c, a, d) && Ranked(c, top) && n in c.nodes && n != top && Silent(c, top, n, stage)
    requires TopIsRecent(c, a, top)
    ensures n in d.nodes && Silent(d, top, n, stage)
  {
    if a.Tick? || a.n != n {
      OthersKeep(c, a, d, n);
    } else if a.StartCheck? || a.Rate? {
      SilentOpening(c, a, d, top, stage);
    } else {
      match a {
        case Scan(_, m) =>
        case EndScan(_) =>
        case Decide(_) =>
        case Retire(_, _) =>
        case BeatRead(_) =>
        case BeatWrite(_, _) =>
      }
    }
  }

  /** The first two steps of a check. */
  lemma SilentOpening(c: Cluster, a: Action, d: Cluster, top: NodeId, stage: nat)
    requires Step(c, a, d) && Ranked(c, top) && (a.StartCheck? || a.Rate?) && a.n != top
    requires Silent(c, top, a.n, stage) && TopIsRecent(c, a, top)
    ensures a.n in d.nodes && Silent(d, top, a.n, stage)
  {
    if a.Rate? {
      RatingIsOutranked(c, a, d, top);
    }
  }

  lemma RatingIsOutranked(c: Cluster, a: Action, d: Cluster, top: NodeId)
    requires Step(c, a, d) && a.Rate? && Ranked(c, top) && a.n != top && TopIsRecent(c, a, top)
    requires top in c.nodes[a.n].check.seen
    ensures a.n in d.nodes && d.nodes[a.n].check.Scanning? && d.nodes[a.n].check.highest > Priority(a.n)
    ensures d.nodes[a.n].isLeader == c.nodes[a.n].isLeader && d.nodes[a.n].beat == c.nodes[a.n].beat
    ensures d.docs == c.docs
  {
    var seen := c.nodes[a.n].check.seen;
    var h :| IsHighest(h, a.n, seen, c.clock, c.timeout) && d == Set(c, a.n, Scanning(seen.Keys, seen, h));
    assert top in seen && Recent(seen[top], c.clock, c.timeout);
  }

  lemma {:induction false} RankedAt(acts: seq<Action>, s: seq<Cluster>, top: NodeId, i: nat)
    requires StableRun(acts, s, top) && i < |s|
    ensures Ranked(s[i], top) && InMembers(s[i]) && s[i].nodes.Keys == s[0].nodes.Keys
  {
    if i > 0 {
      RankedAt(acts, s, top, i - 1);
      assert StepAt(acts, s, i - 1);
      Members(s[i - 1], acts[i - 1], s[i]);
      MembersStep(s[i - 1], acts[i - 1], s[i], top);
    }
  }

  lemma {:induction false} SilentLater(
    acts: seq<Action>, s: seq<Cluster>, top: NodeId, n: NodeId, stage: nat, i: nat, j: nat)
    requires StableRun(acts, s, top) && i <= j < |s| && n in s[i].nodes && n != top && Silent(s[i], top, n, stage)
    ensures n in s[j].nodes && Silent(s[j], top, n, stage)
    decreases j
  {
    if i < j {
      SilentLater(acts, s, top, n, stage, i, j - 1);
      RankedAt(acts, s, top, j - 1);
      assert StepAt(acts, s, j - 1) && TopIsRecent(s[j - 1], acts[j - 1], top);
      SilentStep(s[j - 1], acts[j - 1], s[j], top, n, stage);
    }
  }

  /** Between `lo` and `hi` the node runs a check from start to end and then a full heartbeat. */
  ghost predicate ChecksThenBeats(acts: seq<Action>, s: seq<Cluster>, n: NodeId, lo: nat, hi: nat)
    requires |s| == |acts| + 1
  {
    exists p: nat, q: nat, r: nat, t: nat :: Round(acts, s, n, lo, hi, p, q, r, t)
  }

  predicate Round(acts: seq<Action>, s: seq<Cluster>, n: NodeId, lo: nat, hi: nat, p: nat, q: nat, r: nat, t: nat)
    requires |s| == |acts| + 1
  {
    && lo <= p < q <= r < t < hi <= |acts|
    && acts[p] == StartCheck(n)
    && n in s[q].nodes && s[q].nodes[n].check == NoCheck
    && acts[r] == BeatRead(n)
    && acts[t].BeatWrite? && acts[t].n == n
  }

  lemma CheckSilences(acts: seq<Action>, s: seq<Cluster>, top: NodeId, n: NodeId, p: nat, q: nat)
    requires StableRun(acts, s, top) && n in s[0].nodes && n != top
    requires p < q <= |acts| && acts[p] == StartCheck(n) && n in s[q].nodes && s[q].nodes[n].check == NoCheck
    ensures Silent(s[q], top, n, 1)
  {
    RankedAt(acts, s, top, p);
    assert StepAt(acts, s, p) && TopIsRecent(s[p], acts[p], top);
    SilentLater(acts, s, top, n, 0, p + 1, q);
  }

  lemma RoundSilences(acts: seq<Action>, s: seq<Cluster>, top: NodeId, n: NodeId, lo: nat, hi: nat)
    requires StableRun(acts, s, top) && n in s[0].nodes && n != top
    requires ChecksThenBeats(acts, s, n, lo, hi)
    ensures n in s[hi].nodes && Silent(s[hi], top, n, 3)
  {
    var p: nat, q: nat, r: nat, t: nat :| Round(acts, s, n, lo, hi, p, q, r, t);
    CheckSilences(acts, s, top, n, p, q);
    SilentLater(acts, s, top, n, 1, q, r);
    BeatSilences(acts, s, top, n, r, t);
    SilentLater(acts, s, top, n, 3, t + 1, hi);
  }

  lemma BeatSilences(acts: seq<Action>, s: seq<Cluster>, top: NodeId, n: NodeId, r: nat, t: nat)
    requires StableRun(acts, s, top) && n in s[0].nodes && n != top
    requires r < t < |acts| && acts[r] == BeatRead(n) && acts[t].BeatWrite? && acts[t].n == n
    requires n in s[r].nodes && Silent(s[r], top, n, 1)
    ensures n in s[t + 1].nodes && Silent(s[t + 1], top, n, 3)
  {
    assert StepAt(acts, s, r);
    SilentLater(acts, s, top, n, 2, r + 1, t);
    assert StepAt(acts, s, t) && TopIsRecent(s[t], acts[t], top);
    RankedAt(acts, s, top, t);
    SilentStep(s[t], acts[t], s[t + 1], top, n, 2);
  }

  // ---- The top node, once every other node is silent ---------------------------------------------

  predicate OthersSilent(c: Cluster, top: NodeId) {
    forall n :: n in c.nodes && n != top ==> Silent(c, top, n, 3)
  }

  lemma OthersSilentStep(c: Cluster, a: Action, d: Cluster, top: NodeId)
    requires Step(c, a, d) && Ranked(c, top) && OthersSilent(c, top)
    requires TopIsRecent(c, a, top)
    ensures OthersSilent(d, top)
  {
    Members(c, a, d);
    forall n | n in d.nodes && n != top ensures Silent(d, top, n, 3) {
      SilentStep(c, a, d, top, n, 3);
    }
  }

  /** A check that can only end in leadership. */
  predicate Unrivalled(c: Cluster, top: NodeId)
    requires top in c.nodes
  {
    match c.nodes[top].check
    case NoCheck => c.nodes[top].isLeader
    case Gathered(seen) => seen.Keys <= c.nodes.Keys
    case Scanning(_, _, highest) => highest == Priority(top)
    case Deciding(highest, leader) => highest == Priority(top) && (leader == None || leader == Some(top))
    case Announcing => c.nodes[top].isLeader
    case Retiring => false
    case _ => true
  }

  /** 0: such a check; 1: local leadership, so no further claim; 2: also in a heartbeat under way;
      3: also in the registry. */
  predicate Leading(c: Cluster, top: NodeId, stage: nat)
    requires top in c.nodes
  {
    && Unrivalled(c, top)
    && (stage >= 1 ==> c.nodes[top].isLeader && !c.nodes[top].check.Claiming? && !c.nodes[top].check.Sweeping?)
    && (stage >= 2 ==> c.nodes[top].beat != Some(false))
    && (stage >= 3 ==> Flag(c, top))
  }

  lemma RatingIsUnrivalled(c: Cluster, a: Action, d: Cluster, top: NodeId)
    requires Step(c, a, d) && a == Rate(top) && Ranked(c, top) && c.nodes[top].check.seen.Keys <= c.nodes.Keys
    ensures top in d.nodes && d.nodes[top].check.Scanning? && d.nodes[top].check.highest == Priority(top)
    ensures d.nodes[top].isLeader == c.nodes[top].isLeader && d.nodes[top].beat == c.nodes[top].beat
    ensures d.docs == c.docs
  {
    var seen := c.nodes[top].check.seen;
    var h :| IsHighest(h, a.n, seen, c.clock, c.timeout) && d == Set(c, a.n, Scanning(seen.Keys, seen, h));
    forall m | m in seen ensures Priority(m) <= Priority(top) {
      assert m in seen.Keys;
    }
  }

  lemma NobodyElseLeads(c: Cluster, top: NodeId, m: NodeId)
    requires Ranked(c, top) && OthersSilent(c, top)
    ensures m != top ==> !Leads(c.docs, m, c.clock, c.timeout)
  {
    assert m in c.docs ==> m in c.nodes;
    assert m in c.nodes && m != top ==> Silent(c, top, m, 3);
  }

  lemma NobodyElseSweeps(c: Cluster, a: Action, top: NodeId)
    requires Enabled(c, a) && OthersSilent(c, top)
    ensures a.Sweep? ==> a.n == top
  {
    assert a.Sweep? && a.n != top ==> Silent(c, top, a.n, 3);
  }

  lemma LeadingStep(c: Cluster, a: Action, d: Cluster, top: NodeId, stage: nat)
    requires Step(c, a, d) && Ranked(c, top) && OthersSilent(c, top) && Leading(c, top, stage)
    ensures top in d.nodes && Leading(d, top, stage)
  {
    if a.Tick? || a.n != top {
      OthersKeep(c, a, d, top);
      Members(c, a, d);
      NobodyElseSweeps(c, a, top);
    } else {
      match a {
        case StartCheck(_) => assert Visible(c.docs, c.clock).Keys <= c.docs.Keys;
        case Rate(_) => RatingIsUnrivalled(c, a, d, top);
        case Scan(_, m) => NobodyElseLeads(c, top, m);
        case EndScan(_) =>
        case Decide(_) =>
        case ReadLeaders(_) =>
        case Sweep(_, _, _) =>
        case EndSweep(_) =>
        case Announce(_, _) =>
        case BeatRead(_) =>
        case BeatWrite(_, _) =>
      }
    }
  }

  lemma {:induction false} LeadingLater(
    acts: seq<Action>, s: seq<Cluster>, top: NodeId, stage: nat, i: nat, j: nat)
    requires StableRun(acts, s, top) && i <= j < |s| && top in s[i].nodes
    requires OthersSilent(s[i], top) && Leading(s[i], top, stage)
    ensures top in s[j].nodes && OthersSilent(s[j], top) && Leading(s[j], top, stage)
    decreases j
  {
    if i < j {
      LeadingLater(acts, s, top, stage, i, j - 1);
      RankedAt(acts, s, top, j - 1);
      assert StepAt(acts, s, j - 1) && TopIsRecent(s[j - 1], acts[j - 1], top);
      OthersSilentStep(s[j - 1], acts[j - 1], s[j], top);
      LeadingStep(s[j - 1], acts[j - 1], s[j], top, stage);
    }
  }

  lemma {:induction false} OthersSilentLater(acts: seq<Action>, s: seq<Cluster>, top: NodeId, i: nat, j: nat)
    requires StableRun(acts, s, top) && i <= j < |s| && OthersSilent(s[i], top)
    ensures OthersSilent(s[j], top)
    decreases j
  {
    if i < j {
      OthersSilentLater(acts, s, top, i, j - 1);
      RankedAt(acts, s, top, j - 1);
      assert StepAt(acts, s, j - 1) && TopIsRecent(s[j - 1], acts[j - 1], top);
      OthersSilentStep(s[j - 1], acts[j - 1], s[j], top);
    }
  }

  lemma CheckCrowns(acts: seq<Action>, s: seq<Cluster>, top: NodeId, p: nat, q: nat)
    requires StableRun(acts, s, top) && p < q < |s| && OthersSilent(s[p], top)
    requires acts[p] == StartCheck(top) && top in s[q].nodes && s[q].nodes[top].check == NoCheck
    ensures OthersSilent(s[q], top) && Leading(s[q], top, 1)
  {
    RankedAt(acts, s, top, p);
    assert StepAt(acts, s, p);
    assert TopIsRecent(s[p], acts[p], top) && Visible(s[p].docs, s[p].clock).Keys <= s[p].docs.Keys;
    OthersSilentStep(s[p], acts[p], s[p + 1], top);
    LeadingLater(acts, s, top, 0, p + 1, q);
  }

  lemma BeatCrowns(acts: seq<Action>, s: seq<Cluster>, top: NodeId, r: nat, t: nat)
    requires StableRun(acts, s, top) && r < t < |acts| && OthersSilent(s[r], top)
    requires top in s[r].nodes && Leading(s[r], top, 1)
    requires acts[r] == BeatRead(top) && acts[t].BeatWrite? && acts[t].n == top
    ensures OthersSilent(s[t + 1], top) && top in s[t + 1].nodes && Leading(s[t + 1], top, 3)
  {
    RankedAt(acts, s, top, r);
    assert StepAt(acts, s, r) && TopIsRecent(s[r], acts[r], top);
    OthersSilentStep(s[r], acts[r], s[r + 1], top);
    assert Leading(s[r + 1], top, 2);
    LeadingLater(acts, s, top, 2, r + 1, t);
    RankedAt(acts, s, top, t);
    assert StepAt(acts, s, t) && TopIsRecent(s[t], acts[t], top);
    OthersSilentStep(s[t], acts[t], s[t + 1], top);
    LeadingStep(s[t], acts[t], s[t + 1], top, 2);
  }

  lemma RoundCrowns(acts: seq<Action>, s: seq<Cluster>, top: NodeId, lo: nat, hi: nat)
    requires StableRun(acts, s, top) && lo < |s| && OthersSilent(s[lo], top)
    requires ChecksThenBeats(acts, s, top, lo, hi)
    ensures OthersSilent(s[hi], top) && top in s[hi].nodes && Leading(s[hi], top, 3)
  {
    var p: nat, q: nat, r: nat, t: nat :| Round(acts, s, top, lo, hi, p, q, r, t);
    OthersSilentLater(acts, s, top, lo, p);
    CheckCrowns(acts, s, top, p, q);
    LeadingLater(acts, s, top, 1, q, r);
    BeatCrowns(acts, s, top, r, t);
    LeadingLater(acts, s, top, 3, t + 1, hi);
  }

  // ---- Convergence and stability -------------------------------------------------------------------

  /** Locally and in the registry, `top` leads and nobody else does. */
  predicate OnlyLeader(c: Cluster, top: NodeId) {
    forall n :: n in c.nodes ==>
      && (Flag(c, n) <==> n == top)
      && (c.nodes[n].isLeader <==> n == top)
  }

  /** Whatever the initial flags, checks, heartbeats and registry: once every other node has run a check
      and a heartbeat by `mid`, and then the top node one of each by `end`, the top node is the only
      leader at `end` and at every later point. */
  lemma TopNodePrevails(acts: seq<Action>, s: seq<Cluster>, top: NodeId, mid: nat, end: nat, i: nat)
    requires StableRun(acts, s, top) && mid <= end <= i < |s|
    requires forall n :: n in s[0].nodes && n != top ==> ChecksThenBeats(acts, s, n, 0, mid)
    requires ChecksThenBeats(acts, s, top, mid, end)
    ensures OnlyLeader(s[i], top)
  {
    RankedAt(acts, s, top, mid);
    forall n | n in s[mid].nodes && n != top ensures Silent(s[mid], top, n, 3) {
      RoundSilences(acts, s, top, n, 0, mid);
    }
    RoundCrowns(acts, s, top, mid, end);
    LeadingLater(acts, s, top, 3, end, i);
    assert OthersSilent(s[i], top);
  }

  // ---- Why the others must fall silent first -------------------------------------------------------

  lemma Extend(acts: seq<Action>, s: seq<Cluster>, a: Action, d: Cluster) returns (more: seq<Action>, t: seq<Cluster>)
    requires IsRun(acts, s) && Step(s[|acts|], a, d)
    ensures more == acts + [a] && t == s + [d] && IsRun(more, t)
  {
    more, t := acts + [a], s + [d];
    forall i | 0 <= i < |more| ensures StepAt(more, t, i) {
      assert i < |acts| ==> StepAt(acts, s, i);
    }
  }

  /** A heartbeat that read the flag of a lower node while that led writes it late; the top node, in the
      middle of its leadership, finds the flag and steps down. From every such state there is such a run. */
  lemma LateFlagDeposesTheTop(c: Cluster, top: NodeId, m: NodeId, profile: Profile)
    returns (acts: seq<Action>, s: seq<Cluster>)
    requires Ranked(c, top) && InMembers(c) && 0 < c.timeout && m in c.nodes && m != top
    requires c.nodes[top].isLeader && c.nodes[top].check == NoCheck && c.nodes[m].beat == Some(true)
    ensures acts == [BeatWrite(m, profile), StartCheck(top), Rate(top), Scan(top, m), Decide(top)]
    ensures StableRun(acts, s, top) && s[0] == c
    ensures top in s[5].nodes && !s[5].nodes[top].isLeader && s[5].nodes[top].check == Retiring
  {
    var c1 := c.(docs := Register(c.docs, m, profile, true, c.clock), nodes := c.nodes[m := c.nodes[m].(beat := None)]);
    acts, s := Extend([], [c], BeatWrite(m, profile), c1);
    assert !exists i :: 0 <= i < 1 && acts[i].StartCheck?;
    acts, s := CheckDeposes(acts, s, top, m);
  }

  /** A check of the leading top node that starts at once meets the new flag. */
  lemma CheckDeposes(acts0: seq<Action>, s0: seq<Cluster>, top: NodeId, m: NodeId)
    returns (acts: seq<Action>, s: seq<Cluster>)
    requires IsRun(acts0, s0) && |acts0| == 1
    requires var c := s0[1];
      && Ranked(c, top) && 0 < c.timeout && m != top && c.nodes[top].isLeader && c.nodes[top].check == NoCheck
      && m in c.docs && c.docs[m].isLeader && c.docs[m].lastSeen == c.clock
    ensures acts == acts0 + [StartCheck(top), Rate(top), Scan(top, m), Decide(top)] && IsRun(acts, s) && s[..2] == s0
    ensures top in s[5].nodes && !s[5].nodes[top].isLeader && s[5].nodes[top].check == Retiring
  {
    var c1 := Gathers(s0[1], top, m);
    acts, s := Extend(acts0, s0, StartCheck(top), c1);
    var c2 := StartsScan(c1, top, m);
    acts, s := Extend(acts, s, Rate(top), c2);
    FoundLeader(c2, top, m);
    var c3 := Set(c2, top, Deciding(Priority(top), Some(m)));
    acts, s := Extend(acts, s, Scan(top, m), c3);
    StepsDown(c3, top, m);
    acts, s := Extend(acts, s, Decide(top), Decided(c3, top));
  }

  lemma Gathers(c: Cluster, top: NodeId, m: NodeId) returns (d: Cluster)
    requires Ranked(c, top) && c.nodes[top].check == NoCheck && m in c.docs && c.docs[m].lastSeen == c.clock
    ensures Step(c, StartCheck(top), d) && Ranked(d, top)
    ensures d.docs == c.docs && d.clock == c.clock && d.timeout == c.timeout
    ensures d.nodes[top].isLeader == c.nodes[top].isLeader
    ensures var check := d.nodes[top].check;
      check.Gathered? && check.seen.Keys <= d.nodes.Keys && m in check.seen && check.seen[m] == c.clock
  {
    var seen := map n | n in Visible(c.docs, c.clock) :: c.docs[n].lastSeen;
    assert forall n :: n in seen ==> n in c.docs.Keys;
    d := Set(c, top, Gathered(seen));
  }

  lemma StartsScan(c: Cluster, top: NodeId, m: NodeId) returns (d: Cluster)
    requires Ranked(c, top) && c.nodes[top].check.Gathered? && c.nodes[top].check.seen.Keys <= c.nodes.Keys
    requires m in c.nodes[top].check.seen && c.nodes[top].check.seen[m] == c.clock
    ensures Step(c, Rate(top), d)
    ensures d.docs == c.docs && d.clock == c.clock && d.timeout == c.timeout && top in d.nodes
    ensures d.nodes[top].isLeader == c.nodes[top].isLeader
    ensures var check := d.nodes[top].check;
      check.Scanning? && check.highest == Priority(top) && m in check.todo && m in check.seen
        && check.seen[m] == c.clock
  {
    var seen := c.nodes[top].check.seen;
    assert forall n :: n in seen ==> n in seen.Keys;
    assert IsHighest(Priority(top), top, seen, c.clock, c.timeout);
    d := Set(c, top, Scanning(seen.Keys, seen, Priority(top)));
  }

  lemma StepsDown(c: Cluster, n: NodeId, m: NodeId)
    requires n in c.nodes && c.nodes[n].isLeader && m != n && c.nodes[n].check == Deciding(Priority(n), Some(m))
    ensures Decided(c, n) == Lead(c, n, false, Retiring)
  {
  }

  lemma FoundLeader(c: Cluster, n: NodeId, m: NodeId)
    requires Enabled(c, Scan(n, m)) && 0 < c.timeout && c.nodes[n].check.seen[m] == c.clock
    requires m in c.docs && c.docs[m].isLeader && c.docs[m].lastSeen == c.clock
    ensures Step(c, Scan(n, m), Set(c, n, Deciding(c.nodes[n].check.highest, Some(m))))
  {
  }

  // ---- Leadership is not preemptive ----------------------------------------------------------------

  /** The node does not lead, nor will it after a scan that finds another leader. */
  predicate Idle(c: Cluster, n: NodeId) {
    && n in c.nodes && !c.nodes[n].isLeader && c.nodes[n].beat != Some(true) && !Flag(c, n)
    && match c.nodes[n].check
       case NoCheck => true
       case Gathered(_) => true
       case Scanning(_, _, highest) => highest >= Priority(n)
       case Deciding(highest, leader) => highest >= Priority(n) && leader.Some? && leader.value != n
       case Retiring => true
       case _ => false
  }

  lemma IdleStep(c: Cluster, a: Action, d: Cluster, n: NodeId)
    requires Step(c, a, d) && Idle(c, n) && a != EndScan(n)
    ensures Idle(d, n)
  {
    if a.Tick? || a.n != n {
      OthersKeep(c, a, d, n);
    } else {
      match a {
        case StartCheck(_) =>
        case Rate(_) =>
        case Scan(_, m) =>
        case Decide(_) =>
        case Retire(_, _) =>
        case BeatRead(_) =>
        case BeatWrite(_, _) =>
      }
    }
  }

  /** A node that does not lead comes to lead only after a scan of its own found no leader, whatever
      its priority. */
  lemma {:induction false} LeadershipNeedsAFullScan(acts: seq<Action>, s: seq<Cluster>, n: NodeId, i: nat, j: nat)
    requires IsRun(acts, s) && i <= j < |s| && Idle(s[i], n)
    requires forall k :: i <= k < j ==> acts[k] != EndScan(n)
    ensures Idle(s[j], n)
    decreases j
  {
    if i < j {
      LeadershipNeedsAFullScan(acts, s, n, i, j - 1);
      assert StepAt(acts, s, j - 1);
      IdleStep(s[j - 1], acts[j - 1], s[j], n);
    }
  }

  /** From `i` to `j` the registry shows `m` as a recent leader, and no check of `n` takes so long that
      the time it read for `m` at its start is out of date when it comes to `m`. */
  ghost predicate Reigns(acts: seq<Action>, s: seq<Cluster>, n: NodeId, m: NodeId, i: nat, j: nat)
    requires |s| == |acts| + 1
  {
    && i <= j < |s|
    && (forall k :: i <= k <= j ==> Leads(s[k].docs, m, s[k].clock, s[k].timeout))
    && (forall p, q :: i <= p < q < j && acts[p] == StartCheck(n) && acts[q] == Scan(n, m) ==>
          m in s[p].docs && Recent(s[p].docs[m].lastSeen, s[q].clock, s[q].timeout))
  }

  /** A scan under way still has `m` before it. */
  ghost predicate WillMeet(acts: seq<Action>, s: seq<Cluster>, n: NodeId, m: NodeId, i: nat, k: nat)
    requires |s| == |acts| + 1 && k < |s| && n in s[k].nodes
  {
    var check := s[k].nodes[n].check;
    check.Gathered? || check.Scanning? ==>
      && m in check.seen && (check.Scanning? ==> m in check.todo)
      && exists p :: i <= p < k && acts[p] == StartCheck(n) && m in s[p].docs && check.seen[m] == s[p].docs[m].lastSeen
  }

  lemma MeetsStep(acts: seq<Action>, s: seq<Cluster>, n: NodeId, m: NodeId, i: nat, k: nat, j: nat)
    requires IsRun(acts, s) && Reigns(acts, s, n, m, i, j) && m != n && i <= k < j
    requires Idle(s[k], n) && WillMeet(acts, s, n, m, i, k)
    ensures acts[k] != EndScan(n)
    ensures n in s[k + 1].nodes && WillMeet(acts, s, n, m, i, k + 1)
  {
    var c, a, d := s[k], acts[k], s[k + 1];
    assert StepAt(acts, s, k);
    if a.Tick? || a.n != n {
      OthersKeep(c, a, d, n);
    } else if a.StartCheck? {
      assert m in Visible(c.docs, c.clock);
      assert i <= k < k + 1 && acts[k] == StartCheck(n);
    } else if a.Rate? {
      assert d.nodes[n].check.seen == c.nodes[n].check.seen;
    } else if a.Scan? {
      assert Leads(s[k].docs, m, s[k].clock, s[k].timeout);
    } else {
      OtherOwnSteps(c, a, d, n);
    }
  }

  lemma OtherOwnSteps(c: Cluster, a: Action, d: Cluster, n: NodeId)
    requires Step(c, a, d) && n in c.nodes && !a.Tick? && a.n == n && !a.StartCheck? && !a.Rate? && !a.Scan?
    ensures n in d.nodes
    ensures d.nodes[n].check.Gathered? || d.nodes[n].check.Scanning? ==>
      !a.EndScan? && d.nodes[n].check == c.nodes[n].check
  {
    match a
    case Decide(_) =>
    case _ =>
  }

  lemma {:induction false} MeetsLater(acts: seq<Action>, s: seq<Cluster>, n: NodeId, m: NodeId, i: nat, k: nat, j: nat)
    requires IsRun(acts, s) && Reigns(acts, s, n, m, i, j) && m != n && i <= k <= j
    requires Idle(s[i], n) && s[i].nodes[n].check == NoCheck
    ensures Idle(s[k], n) && WillMeet(acts, s, n, m, i, k)
    decreases k
  {
    if i < k {
      MeetsLater(acts, s, n, m, i, k - 1, j);
      MeetsStep(acts, s, n, m, i, k - 1, j);
      assert StepAt(acts, s, k - 1);
      IdleStep(s[k - 1], acts[k - 1], s[k], n);
    }
  }

  /** Leadership is not preemptive: while another node, even one of lower priority, is a recent leader in
      the registry, a node that does not lead does not come to lead. */
  lemma LeadersAreNotDeposed(acts: seq<Action>, s: seq<Cluster>, n: NodeId, m: NodeId, i: nat, j: nat)
    requires IsRun(acts, s) && Reigns(acts, s, n, m, i, j) && m != n
    requires Idle(s[i], n) && s[i].nodes[n].check == NoCheck
    ensures n in s[j].nodes && !s[j].nodes[n].isLeader && !Flag(s[j], n)
  {
    MeetsLater(acts, s, n, m, i, j, j);
  }
}
