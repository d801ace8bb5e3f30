/** One node of the Bully election, updating its own fields and the shared registry in place. Each
    method runs undisturbed here; BullyProtocol interleaves the registry operations inside them. */
module BullyElection {
  import opened Wrappers
  import opened Registry
  import opened NodePriority
  import opened NodeStore
  import opened BullyRules
  import P = BullyProtocol
  import opened BullyChecks

  /** How the store operations of one check go: the leader queries that err, by the node asked about; whether
      reading the leaders to clear errs; the clearing writes that are lost; and the own registration. */
  datatype CheckFaults = CheckFaults(asked: set<NodeId>, listed: bool, lost: set<NodeId>, write: Reply)

  const NO_FAULTS := CheckFaults({}, false, {}, Done)

  class BullyNode {
    const nodeId: NodeId
    const profile: Profile
    const timeout: Time
    const storage: MongoStorage
    var isLeader: bool
    var seen: map<NodeId, Time>

    constructor (nodeId: NodeId, profile: Profile, timeout: Time, storage: MongoStorage)
      ensures this.nodeId == nodeId && this.profile == profile && this.timeout == timeout && this.storage == storage
      ensures !isLeader && seen == map[]
    {
      this.nodeId, this.profile, this.timeout, this.storage := nodeId, profile, timeout, storage;
      isLeader, seen := false, map[];
    }

    /** A read that errs leaves the cache as it is. */
    method UpdateNodes(clock: Time, errs: bool)
      modifies this`seen
      ensures errs ==> seen == old(seen)
      ensures !errs ==>
        && (forall m :: m in seen <==> m in storage.nodes && clock - storage.nodes[m].lastSeen <= VISIBLE_FOR)
        && (forall m :: m in seen ==> seen[m] == storage.nodes[m].lastSeen)
    {
      if errs {
        return;
      }
      var found := storage.GetNodes(clock);
      seen := map m | m in found :: found[m].lastSeen;
    }

    /** The greatest priority among the node itself and the recent cached nodes, in any map order. */
    method GetHighestPriority(clock: Time) returns (highest: int)
      ensures highest >= Priority(nodeId)
      ensures forall m :: m in seen && Recent(seen[m], clock, timeout) ==> Priority(m) <= highest
      ensures highest == Priority(nodeId)
           || exists m :: m in seen && Recent(seen[m], clock, timeout) && Priority(m) == highest
    {
      highest := CalculatePriority(nodeId);
      var todo := seen.Keys;
      while todo != {}
        invariant todo <= seen.Keys
        invariant highest >= Priority(nodeId)
        invariant forall m :: m in seen.Keys - todo && Recent(seen[m], clock, timeout) ==> Priority(m) <= highest
        invariant highest == Priority(nodeId)
               || exists m :: m in seen && Recent(seen[m], clock, timeout) && Priority(m) == highest
        decreases todo
      {
        var m :| m in todo;
        todo := todo - {m};
        var p := CalculatePriority(m);
        if p > highest && Recent(seen[m], clock, timeout) {
          highest := p;
        }
      }
    }

    /** Some recent cached node that the registry still shows as a recent leader, or none; a query that
        errs is skipped. */
    method GetCurrentLeader(clock: Time, errs: set<NodeId>) returns (leader: Option<NodeId>)
      ensures leader.Some? ==> var m := leader.value;
        m in seen && m !in errs && Recent(seen[m], clock, timeout) && Leads(storage.nodes, m, clock, timeout)
      ensures leader.None? ==>
        forall m :: m in seen && m !in errs && Recent(seen[m], clock, timeout) ==>
          !Leads(storage.nodes, m, clock, timeout)
    {
      var todo := seen.Keys;
      while todo != {}
        invariant todo <= seen.Keys
        invariant forall m :: m in seen.Keys - todo - errs && Recent(seen[m], clock, timeout) ==>
          !Leads(storage.nodes, m, clock, timeout)
        decreases todo
      {
        var m :| m in todo;
        todo := todo - {m};
        if Recent(seen[m], clock, timeout) {
          if m in errs {
            continue;
          }
          var found := storage.GetNodes(clock);
          if m in found && found[m].isLeader && Recent(found[m].lastSeen, clock, timeout) {
            return Some(m);
          }
        }
      }
      return None;
    }

    /** Lowers the flags of the visible leaders of lower priority, refreshing their documents, and no others,
        as far as its read and its writes get through. */
    method ClearExistingLeaders(clock: Time, errs: bool, lost: set<NodeId>)
      modifies storage
      ensures storage.nodes.Keys == old(storage.nodes).Keys
      ensures forall m :: m in old(storage.nodes) ==> var doc := old(storage.nodes)[m];
        storage.nodes[m] ==
          if !errs && m !in lost && m != nodeId && Priority(m) < Priority(nodeId)
             && doc.isLeader && clock - doc.lastSeen <= VISIBLE_FOR
          then doc.(isLeader := false, lastSeen := clock) else doc
    {
      if errs {
        return;
      }
      var todo := LowerLeaders(storage.nodes, nodeId, clock);
      ghost var lower := todo;
      while todo != {}
        invariant todo <= lower
        invariant storage.nodes.Keys == old(storage.nodes).Keys
        invariant forall m :: m in old(storage.nodes) ==> var doc := old(storage.nodes)[m];
          storage.nodes[m] ==
            if m in lower && m !in todo && m !in lost then doc.(isLeader := false, lastSeen := clock) else doc
        decreases todo
      {
        var m :| m in todo;
        todo := todo - {m};
        if m !in lost {
          storage.RegisterNode(m, storage.nodes[m].profile, false, clock);
        }
      }
    }

    /** The registry once the node has tried to lead: the visible leaders of lower priority are cleared, as
        far as that got through, and its own flag is up unless its registration was lost. */
    twostate predicate Claimed(clock: Time, f: CheckFaults)
      reads this, storage
    {
      && storage.nodes.Keys == (old(storage.nodes).Keys + if f.write.Lost? then {} else {nodeId})
      && (!f.write.Lost? ==> var term := if nodeId in old(storage.nodes) then old(storage.nodes)[nodeId].term else 0;
            storage.nodes[nodeId] == Doc(true, clock, profile, term))
      && (f.write.Lost? && nodeId in storage.nodes ==> storage.nodes[nodeId] == old(storage.nodes)[nodeId])
      && forall m :: m in old(storage.nodes) && m != nodeId ==> var doc := old(storage.nodes)[m];
           storage.nodes[m] ==
             if !f.listed && m !in f.lost && Priority(m) < Priority(nodeId)
                && doc.isLeader && clock - doc.lastSeen <= VISIBLE_FOR
             then doc.(isLeader := false, lastSeen := clock) else doc
    }

    /** A node whose own registration errs does not lead, although the registry may show its flag. A flag
        that stays up is of no lower priority, or out of sight, or its clearing failed. */
    method BecomeLeader(clock: Time, f: CheckFaults)
      modifies this`isLeader, storage
      ensures isLeader <==> f.write.Done?
      ensures Claimed(clock, f)
    {
      ClearExistingLeaders(clock, f.listed, f.lost);
      isLeader := true;
      if !f.write.Lost? {
        storage.RegisterNode(nodeId, profile, true, clock);
      }
      if !f.write.Done? {
        isLeader := false;
      }
    }

    twostate predicate SteppedDown(clock: Time, write: Reply)
      reads this, storage
    {
      storage.nodes ==
        if write.Lost? then old(storage.nodes) else Register(old(storage.nodes), nodeId, profile, false, clock)
    }

    /** The local flag falls even if the registry keeps it. */
    method StepDown(clock: Time, write: Reply)
      modifies this`isLeader, storage
      ensures !isLeader && SteppedDown(clock, write)
      ensures !write.Lost? ==> !storage.nodes[nodeId].isLeader
    {
      isLeader := false;
      if !write.Lost? {
        storage.RegisterNode(nodeId, profile, false, clock);
      }
    }

    method SendHeartbeat(clock: Time)
      modifies storage
      ensures storage.nodes == Register(old(storage.nodes), nodeId, profile, isLeader, clock)
      ensures storage.nodes[nodeId].isLeader == isLeader
    {
      storage.RegisterNode(nodeId, profile, isLeader, clock);
    }

    /** Some recent cached node is of higher priority. */
    predicate Outranked(clock: Time)
      reads this
    {
      exists m :: m in seen && clock - seen[m] < timeout && Priority(m) > Priority(nodeId)
    }

    /** An answered query shows the recent cached node `m` as a recent leader. */
    predicate Found(m: NodeId, clock: Time, asked: set<NodeId>)
      reads this, storage
    {
      && m in seen && clock - seen[m] < timeout && m !in asked
      && m in storage.nodes && storage.nodes[m].isLeader
      && clock - storage.nodes[m].lastSeen < timeout && clock - storage.nodes[m].lastSeen <= VISIBLE_FOR
    }

    predicate OtherFound(clock: Time, asked: set<NodeId>)
      reads this, storage
    {
      exists m :: m in seen && m != nodeId && Found(m, clock, asked)
    }

    twostate lemma ClaimedAsSwept(clock: Time)
      requires Claimed(clock, NO_FAULTS)
      ensures var swept := Cleared(old(storage.nodes), LowerLeaders(old(storage.nodes), nodeId, clock), clock);
        storage.nodes == Register(swept, nodeId, profile, true, clock)
    {
      var swept := Cleared(old(storage.nodes), LowerLeaders(old(storage.nodes), nodeId, clock), clock);
      var expected := Register(swept, nodeId, profile, true, clock);
      assert storage.nodes.Keys == expected.Keys;
      forall m | m in expected ensures storage.nodes[m] == expected[m] {
      }
    }

    /** An undisturbed check, any of whose store operations may fail. A node that is outranked, or that finds
        another leader and not itself, ends up not leading and writes nothing unless it led; one that is not
        outranked and finds nobody else ends up leading if it led before or its registration is answered. A
        node that steps down lowers its own flag alone, one that comes to lead claims the registry. Without
        failures the check is a run of the protocol's steps, in every cluster `c` that shows this state. */
    method CheckLeadership(clock: Time, f: CheckFaults, ghost c: P.Cluster)
      modifies this`isLeader, storage
      ensures old(Outranked(clock)) || old(OtherFound(clock, f.asked) && !Found(nodeId, clock, f.asked)) ==>
        !isLeader && (!old(isLeader) ==> storage.nodes == old(storage.nodes))
      ensures !old(Outranked(clock)) && !old(OtherFound(clock, f.asked)) ==>
        (isLeader <==> old(isLeader) || f.write.Done?) && (!old(isLeader) ==> Claimed(clock, f))
      ensures old(isLeader) && isLeader ==> storage.nodes == old(storage.nodes)
      ensures old(isLeader) && !isLeader ==> SteppedDown(clock, f.write)
      ensures !old(isLeader) && isLeader ==> f.write.Done? && Claimed(clock, f)
      ensures !old(isLeader) && !isLeader ==> storage.nodes == old(storage.nodes) || Claimed(clock, f)
      ensures f == NO_FAULTS && Begins(c, nodeId, old(storage.nodes), clock, timeout, old(isLeader), seen) ==>
        Reaches(c, Over(c, nodeId, storage.nodes, isLeader))
    {
      var highest := GetHighestPriority(clock);
      var leader := GetCurrentLeader(clock, f.asked);
      assert leader.Some? ==> Found(leader.value, clock, f.asked);
      if f == NO_FAULTS && Begins(c, nodeId, storage.nodes, clock, timeout, isLeader, seen) {
        ChecksOut(c, nodeId, profile, seen, highest, leader);
      }
      Decide(highest, leader, clock, f, c);
    }

    /** The second half of the check. */
    method Decide(highest: int, leader: Option<NodeId>, clock: Time, f: CheckFaults, ghost c: P.Cluster)
      requires highest >= Priority(nodeId)
      modifies this`isLeader, storage
      ensures highest == Priority(nodeId) && (leader == None || leader == Some(nodeId)) ==>
        && (isLeader <==> old(isLeader) || f.write.Done?)
        && if old(isLeader) then storage.nodes == old(storage.nodes) else Claimed(clock, f)
      ensures highest > Priority(nodeId) || (leader.Some? && leader.value != nodeId) ==>
        && !isLeader
        && if old(isLeader) then SteppedDown(clock, f.write) else storage.nodes == old(storage.nodes)
      ensures f == NO_FAULTS && Begins(c, nodeId, old(storage.nodes), clock, timeout, old(isLeader), seen) ==>
        Checked(c, nodeId, profile, highest, leader) == Over(c, nodeId, storage.nodes, isLeader)
    {
      var should := ShouldLead(nodeId, highest, leader);
      if Yields(nodeId, leader) {
        if isLeader {
          StepDown(clock, f.write);
        }
        return;
      }
      if should && !isLeader {
        BecomeLeader(clock, f);
        if f == NO_FAULTS {
          ClaimedAsSwept(clock);
        }
      } else if !should && isLeader {
        StepDown(clock, f.write);
      }
    }
  }
}
