/** An undisturbed check as a run of the protocol's steps. */
module BullyChecks {
  import opened Wrappers
  import opened Registry
  import opened BullyRules
  import opened BullyProtocol

  ghost predicate Reaches(c: Cluster, d: Cluster) {
    exists acts, s :: IsRun(acts, s) && s[0] == c && s[|acts|] == d
  }

  lemma Stays(c: Cluster)
    ensures Reaches(c, c)
  {
    assert IsRun([], [c]) && [c][0] == c;
  }

  /** One step, and then on. */
  lemma StepsOn(c: Cluster, a: Action, d: Cluster, e: Cluster)
    requires Step(c, a, d) && Reaches(d, e)
    ensures Reaches(c, e)
  {
    var acts, s :| IsRun(acts, s) && s[0] == d && s[|acts|] == e;
    var more, t := [a] + acts, [c] + s;
    forall i | 0 <= i < |more| ensures StepAt(more, t, i) {
      assert i > 0 ==> StepAt(acts, s, i - 1);
    }
    assert IsRun(more, t) && t[0] == c && t[|more|] == e;
  }

  lemma Joins(c: Cluster, d: Cluster, e: Cluster)
    requires Reaches(c, d) && Reaches(d, e)
    ensures Reaches(c, e)
  {
    var acts, s :| IsRun(acts, s) && s[0] == c && s[|acts|] == d;
    JoinsRun(acts, s, e);
  }

  lemma {:induction false} JoinsRun(acts: seq<Action>, s: seq<Cluster>, e: Cluster)
    requires IsRun(acts, s) && Reaches(s[|acts|], e)
    ensures Reaches(s[0], e)
    decreases |acts|
  {
    if acts != [] {
      var k := |acts| - 1;
      assert StepAt(acts, s, k);
      StepsOn(s[k], acts[k], s[k + 1], e);
      var less, t := acts[..k], s[..k + 1];
      forall i | 0 <= i < k ensures StepAt(less, t, i) {
        assert StepAt(acts, s, i);
      }
      JoinsRun(less, t, e);
    }
  }

  // ---- The scan ---------------------------------------------------------------------------------

  /** What a scan of `seen` can come back with. */
  ghost predicate Finds(c: Cluster, seen: map<NodeId, Time>, leader: Option<NodeId>) {
    match leader
    case Some(m) => m in seen && Recent(seen[m], c.clock, c.timeout) && Leads(c.docs, m, c.clock, c.timeout)
    case None =>
      forall m :: m in seen && Recent(seen[m], c.clock, c.timeout) ==> !Leads(c.docs, m, c.clock, c.timeout)
  }

  lemma {:induction false} ScansOut(
    c: Cluster, n: NodeId, todo: set<NodeId>, seen: map<NodeId, Time>, highest: int, leader: Option<NodeId>)
    requires n in c.nodes && c.nodes[n].check == Scanning(todo, seen, highest) && todo <= seen.Keys
    requires Finds(c, seen, leader) && (leader.Some? ==> leader.value in todo)
    ensures Reaches(c, Set(c, n, Deciding(highest, leader)))
    decreases todo
  {
    var d := Set(c, n, Deciding(highest, leader));
    Stays(d);
    if leader.Some? {
      StepsOn(c, Scan(n, leader.value), d, d);
    } else if todo == {} {
      StepsOn(c, EndScan(n), d, d);
    } else {
      var m :| m in todo;
      var next := Set(c, n, Scanning(todo - {m}, seen, highest));
      ScansOut(next, n, todo - {m}, seen, highest, leader);
      assert Set(next, n, Deciding(highest, leader)) == d;
      StepsOn(c, Scan(n, m), next, d);
    }
  }

  /** From the cache read to the decision. */
  lemma Decides(c: Cluster, n: NodeId, seen: map<NodeId, Time>, highest: int, leader: Option<NodeId>)
    requires n in c.nodes && c.nodes[n].check == Gathered(seen)
    requires IsHighest(highest, n, seen, c.clock, c.timeout) && Finds(c, seen, leader)
    ensures Reaches(c, Decided(Set(c, n, Deciding(highest, leader)), n))
  {
    var rated := Set(c, n, Scanning(seen.Keys, seen, highest));
    var found := Set(c, n, Deciding(highest, leader));
    ScansOut(rated, n, seen.Keys, seen, highest, leader);
    assert Set(rated, n, Deciding(highest, leader)) == found;
    StepsOn(c, Rate(n), rated, found);
    Stays(Decided(found, n));
    StepsOn(found, Decide(n), Decided(found, n), Decided(found, n));
    Joins(c, found, Decided(found, n));
  }

  // ---- The claim and the retirement ---------------------------------------------------------------

  /** The registry with the flags of `lower` down; RegisterNode refreshes their documents as well. */
  function Cleared(docs: Docs, lower: set<NodeId>, clock: Time): Docs {
    map m | m in docs :: if m in lower then docs[m].(isLeader := false, lastSeen := clock) else docs[m]
  }

  lemma {:induction false} SweepsOut(c: Cluster, n: NodeId, clear: set<NodeId>)
    requires n in c.nodes && c.nodes[n].check == Sweeping(clear) && clear <= c.docs.Keys
    ensures Reaches(c, Lead(c, n, true, Announcing).(docs := Cleared(c.docs, clear, c.clock)))
    decreases clear
  {
    var e := Lead(c, n, true, Announcing).(docs := Cleared(c.docs, clear, c.clock));
    if clear == {} {
      assert Cleared(c.docs, clear, c.clock) == c.docs;
      Stays(e);
      StepsOn(c, EndSweep(n), e, e);
    } else {
      var m :| m in clear;
      var docs := Register(c.docs, m, c.docs[m].profile, false, c.clock);
      var d := Set(c, n, Sweeping(clear - {m})).(docs := docs);
      SweepsOut(d, n, clear - {m});
      assert Cleared(docs, clear - {m}, c.clock) == Cleared(c.docs, clear, c.clock);
      assert Lead(d, n, true, Announcing).(docs := Cleared(c.docs, clear, c.clock)) == e;
      StepsOn(c, Sweep(n, m, c.docs[m].profile), d, e);
    }
  }

  /** After a decision to lead. */
  lemma Claims(c: Cluster, n: NodeId, profile: Profile)
    requires n in c.nodes && c.nodes[n].check.Claiming?
    ensures var docs := Cleared(c.docs, LowerLeaders(c.docs, n, c.clock), c.clock);
      Reaches(c, Lead(c, n, true, NoCheck).(docs := Register(docs, n, profile, true, c.clock)))
  {
    var lower := LowerLeaders(c.docs, n, c.clock);
    var docs := Cleared(c.docs, lower, c.clock);
    var sweeping := Set(c, n, Sweeping(lower));
    var announcing := Lead(c, n, true, Announcing).(docs := docs);
    var e := Lead(c, n, true, NoCheck).(docs := Register(docs, n, profile, true, c.clock));
    Stays(e);
    assert Set(announcing, n, NoCheck).(docs := e.docs) == e;
    StepsOn(announcing, Announce(n, profile), e, e);
    SweepsOut(sweeping, n, lower);
    assert Lead(sweeping, n, true, Announcing).(docs := docs) == announcing;
    Joins(sweeping, announcing, e);
    StepsOn(c, ReadLeaders(n), sweeping, e);
  }

  /** After a decision to step down. */
  lemma Retires(c: Cluster, n: NodeId, profile: Profile)
    requires n in c.nodes && c.nodes[n].check.Retiring?
    ensures Reaches(c, Set(c, n, NoCheck).(docs := Register(c.docs, n, profile, false, c.clock)))
  {
    var e := Set(c, n, NoCheck).(docs := Register(c.docs, n, profile, false, c.clock));
    Stays(e);
    StepsOn(c, Retire(n, profile), e, e);
  }

  /** Where a check leads: what the node decides, carried out. */
  ghost function Checked(c: Cluster, n: NodeId, profile: Profile, highest: int, leader: Option<NodeId>): Cluster
    requires n in c.nodes
  {
    var leads := c.nodes[n].isLeader;
    if ShouldLead(n, highest, leader) && !Yields(n, leader) then
      if leads then Set(c, n, NoCheck)
      else
        var docs := Cleared(c.docs, LowerLeaders(c.docs, n, c.clock), c.clock);
        Lead(c, n, true, NoCheck).(docs := Register(docs, n, profile, true, c.clock))
    else if leads then Lead(c, n, false, NoCheck).(docs := Register(c.docs, n, profile, false, c.clock))
    else Set(c, n, NoCheck)
  }

  lemma ChecksOut(
    c: Cluster, n: NodeId, profile: Profile, seen: map<NodeId, Time>, highest: int, leader: Option<NodeId>)
    requires n in c.nodes && c.nodes[n].check == Gathered(seen)
    requires IsHighest(highest, n, seen, c.clock, c.timeout) && Finds(c, seen, leader)
    ensures Reaches(c, Checked(c, n, profile, highest, leader))
  {
    var found := Set(c, n, Deciding(highest, leader));
    var d := Decided(found, n);
    var e := Checked(c, n, profile, highest, leader);
    Decides(c, n, seen, highest, leader);
    if d.nodes[n].check.Claiming? {
      Claims(d, n, profile);
      assert e == Lead(d, n, true, NoCheck).(docs := e.docs);
      Joins(c, d, e);
    } else if d.nodes[n].check.Retiring? {
      Retires(d, n, profile);
      assert e == Set(d, n, NoCheck).(docs := e.docs);
      Joins(c, d, e);
    } else {
      assert e == d;
    }
  }

  /** The node is about to rate what it has read. */
  predicate Begins(
    c: Cluster, n: NodeId, docs: Docs, clock: Time, timeout: Time, isLeader: bool, seen: map<NodeId, Time>)
  {
    && c.docs == docs && c.clock == clock && c.timeout == timeout
    && n in c.nodes && c.nodes[n].isLeader == isLeader && c.nodes[n].check == Gathered(seen)
  }

  /** The check is over, with this flag and this registry. */
  function Over(c: Cluster, n: NodeId, docs: Docs, isLeader: bool): Cluster
    requires n in c.nodes
  {
    Lead(c, n, isLeader, NoCheck).(docs := docs)
  }
}
