/** One Raft node, updating its own fields in place and reading the shared registry. The bodies that
    take a lock which their caller already holds are modelled as completing. */
module RaftNode {
  import opened Wrappers
  import opened Registry
  import opened NodeStore

  datatype Role = Follower | Candidate | Leader

  /** More than half, with the integer division of the source. */
  predicate IsMajority(votes: nat, nodes: nat): (r: bool)
    ensures r <==> 2 * votes > nodes
  {
    votes > nodes / 2
  }

  /** What an election changes in a node. */
  datatype Local = Local(role: Role, term: int, votes: set<NodeId>)

  function Campaigned(l: Local, self: NodeId): Local {
    l.(term := l.term + 1, votes := {self})
  }

  /** A reply counts only for a candidate whose term is the request's. */
  function Counted(l: Local, from: NodeId, term: int, granted: bool): Local {
    if granted && l.role == Candidate && term == l.term then l.(votes := l.votes + {from}) else l
  }

  function Dropped(l: Local, term: int): Local {
    Local(Follower, if term > l.term then term else l.term, if l.role != Follower then {} else l.votes)
  }

  /** A bid for leadership: `seen` is the term after validation, `nodes` the number of visible nodes. */
  function Bid(l: Local, seen: int, valid: bool, nodes: nat, claimed: bool): Local {
    if l.role != Candidate then l
    else if !valid then Dropped(l, seen + 1)
    else if IsMajority(|l.votes|, nodes) && claimed then l.(role := Leader)
    else Dropped(l, l.term)
  }

  /** Another node's flag that is up in `term` and recent. */
  predicate Rival(docs: Docs, m: NodeId, self: NodeId, term: int, clock: Time, window: Time) {
    && m in docs && m != self && docs[m].isLeader
    && docs[m].term == term && clock - docs[m].lastSeen < window
  }

  /** No visible document has a higher term, and no rival is up in this one. */
  ghost predicate Consistent(docs: Docs, self: NodeId, term: int, clock: Time, window: Time) {
    forall m :: m in Visible(docs, clock) ==> docs[m].term <= term && !Rival(docs, m, self, term, clock, window)
  }

  class RaftNode {
    const nodeId: NodeId
    const heartbeatTimeout: Time
    const storage: MongoStorage
    var role: Role
    var currentTerm: int
    var votedFor: NodeId
    var votes: set<NodeId>

    function Now(): Local
      reads this
    {
      Local(role, currentTerm, votes)
    }

    constructor (nodeId: NodeId, heartbeatTimeout: Time, storage: MongoStorage)
      ensures this.nodeId == nodeId && this.heartbeatTimeout == heartbeatTimeout && this.storage == storage
      ensures role == Follower && currentTerm == 0 && votedFor == "" && votes == {}
    {
      this.nodeId, this.heartbeatTimeout, this.storage := nodeId, heartbeatTimeout, storage;
      role, currentTerm, votedFor, votes := Follower, 0, "", {};
    }

    /** The start of a campaign. */
    method StartCampaign()
      modifies this
      ensures role == old(role) && currentTerm == old(currentTerm) + 1 && votedFor == nodeId && votes == {nodeId}
      ensures Now() == Campaigned(old(Now()), nodeId)
    {
      currentTerm := currentTerm + 1;
      votedFor := nodeId;
      votes := {};
      votes := votes + {nodeId};
    }

    /** Exactly a granted vote of the current term counts, and nothing but the votes changes. */
    method HandleVoteResponse(from: NodeId, term: int, granted: bool)
      modifies this
      ensures role == old(role) && currentTerm == old(currentTerm) && votedFor == old(votedFor)
      ensures old(role) == Candidate && term == old(currentTerm) && granted ==> votes == old(votes) + {from}
      ensures old(role) != Candidate || term != old(currentTerm) || !granted ==> votes == old(votes)
      ensures Now() == Counted(old(Now()), from, term, granted)
    {
      if role != Candidate || term != currentTerm {
        return;
      }
      if granted {
        votes := votes + {from};
      }
    }

    method BecomeFollowerUnsafe(term: int)
      modifies this
      ensures role == Follower && currentTerm >= old(currentTerm) && currentTerm >= term
      ensures currentTerm == old(currentTerm) || currentTerm == term
      ensures votes == if old(role) == Follower then old(votes) else {}
      ensures Now() == Dropped(old(Now()), term)
      ensures votedFor == if term > old(currentTerm) then "" else old(votedFor)
    {
      if term > currentTerm {
        currentTerm := term;
        votedFor := "";
      }
      if role != Follower {
        role := Follower;
        votes := {};
      }
    }

    /** A visible document shows a higher term, and the node has taken it over. */
    twostate predicate TookOver(clock: Time)
      reads this, storage
    {
      && currentTerm > old(currentTerm) && votedFor == ""
      && exists m :: m in Visible(storage.nodes, clock) && currentTerm == storage.nodes[m].term
    }

    /** Succeeds exactly if the read does, no visible document has a higher term and no other leader of this
        term is recent, in any order of the documents. A failure of the documents is a higher term, which the
        node takes over, or a rival. */
    method ValidateTermConsistency(clock: Time, errs: bool) returns (ok: bool)
      modifies this`currentTerm, this`votedFor
      ensures ok <==> !errs && Consistent(storage.nodes, nodeId, old(currentTerm), clock, 2 * heartbeatTimeout)
      ensures ok || errs ==> currentTerm == old(currentTerm) && votedFor == old(votedFor)
      ensures !ok && !errs ==>
        || TookOver(clock)
        || (currentTerm == old(currentTerm) && votedFor == old(votedFor)
            && exists m :: m in Visible(storage.nodes, clock)
                 && Rival(storage.nodes, m, nodeId, currentTerm, clock, 2 * heartbeatTimeout))
    {
      if errs {
        return false;
      }
      var found := storage.GetNodes(clock);
      assert found == Visible(storage.nodes, clock);
      var todo := found.Keys;
      while todo != {}
        invariant todo <= found.Keys
        invariant currentTerm == old(currentTerm) && votedFor == old(votedFor)
        invariant forall m :: m in found.Keys - todo ==>
          && found[m].term <= currentTerm
          && !Rival(storage.nodes, m, nodeId, currentTerm, clock, 2 * heartbeatTimeout)
        decreases todo
      {
        var m :| m in todo;
        todo := todo - {m};
        if found[m].term > currentTerm {
          currentTerm := found[m].term;
          votedFor := "";
          return false;
        }
        if found[m].isLeader && found[m].term == currentTerm && m != nodeId
           && clock - found[m].lastSeen < 2 * heartbeatTimeout {
          assert Rival(storage.nodes, m, nodeId, old(currentTerm), clock, 2 * heartbeatTimeout);
          return false;
        }
      }
      return true;
    }

    /** A recent leader whose term is not behind. */
    predicate Heard(m: NodeId, term: int, clock: Time)
      reads this, storage
    {
      && m in Visible(storage.nodes, clock) && m != nodeId && storage.nodes[m].isLeader
      && clock - storage.nodes[m].lastSeen < heartbeatTimeout && storage.nodes[m].term >= term
    }

    /** As one step, hearing a leader never lowers the term. */
    method ReceiveHeartbeat(clock: Time, errs: bool) returns (heard: bool)
      modifies this`currentTerm, this`votedFor
      ensures heard <==> !errs && exists m :: m in storage.nodes && old(Heard(m, currentTerm, clock))
      ensures currentTerm >= old(currentTerm) && (!heard ==> currentTerm == old(currentTerm))
      ensures votedFor == if currentTerm > old(currentTerm) then "" else old(votedFor)
      ensures heard ==>
        exists m :: m in storage.nodes && old(Heard(m, currentTerm, clock)) && currentTerm == storage.nodes[m].term
    {
      if errs {
        return false;
      }
      var found := storage.GetNodes(clock);
      assert found == Visible(storage.nodes, clock);
      var todo := found.Keys;
      while todo != {}
        invariant todo <= found.Keys
        invariant currentTerm == old(currentTerm) && votedFor == old(votedFor)
        invariant forall m :: m in found.Keys - todo ==> !old(Heard(m, currentTerm, clock))
        decreases todo
      {
        var m :| m in todo;
        todo := todo - {m};
        if m != nodeId && found[m].isLeader && clock - found[m].lastSeen < heartbeatTimeout
           && found[m].term >= currentTerm {
          assert old(Heard(m, currentTerm, clock));
          if found[m].term > currentTerm {
            currentTerm := found[m].term;
            votedFor := "";
          }
          return true;
        }
      }
      return false;
    }

    /** As one step, a leader refreshes its document, unless the write is lost, and stays leader exactly if
        its read errs or shows no higher term and no other leader of its term. */
    method SendHeartbeats(stamp: Time, write: Reply, clock: Time, errs: bool)
      modifies this`role, this`currentTerm, this`votedFor, storage
      ensures old(role) != Leader ==>
        role == old(role) && currentTerm == old(currentTerm) && storage.nodes == old(storage.nodes)
      ensures old(role) == Leader ==>
        storage.nodes
        == Written(write, old(storage.nodes), Register(old(storage.nodes), nodeId, CLAIM_PROFILE, true, stamp))
      ensures old(role) == Leader ==>
        (role == Leader <==> errs || forall m :: m in Visible(storage.nodes, clock) ==>
           && storage.nodes[m].term <= old(currentTerm)
           && (m != nodeId && storage.nodes[m].isLeader ==> storage.nodes[m].term != old(currentTerm)))
      ensures role == Leader || role == Follower || role == old(role)
      ensures role == old(role) ==> currentTerm == old(currentTerm) && votedFor == old(votedFor)
      ensures role != old(role) ==>
        || TookOver(clock)
        || (currentTerm == old(currentTerm) && votedFor == old(votedFor)
            && exists m :: m in Visible(storage.nodes, clock) && m != nodeId && storage.nodes[m].isLeader
                 && storage.nodes[m].term == currentTerm)
    {
      if role != Leader {
        return;
      }
      if write != Lost {
        storage.RegisterNode(nodeId, CLAIM_PROFILE, true, stamp);
      }
      ghost var refreshed := storage.nodes;
      if errs {
        return;
      }
      var found := storage.GetNodes(clock);
      assert found == Visible(storage.nodes, clock);
      var todo := found.Keys;
      while todo != {}
        invariant todo <= found.Keys
        invariant role == Leader && currentTerm == old(currentTerm)
        invariant storage.nodes == refreshed
        invariant forall m :: m in found.Keys - todo ==>
          && found[m].term <= currentTerm
          && (m != nodeId && found[m].isLeader ==> found[m].term != currentTerm)
        decreases todo
      {
        var m :| m in todo;
        todo := todo - {m};
        if found[m].term > currentTerm {
          currentTerm := found[m].term;
          role := Follower;
          votedFor := "";
          return;
        }
        if found[m].isLeader && found[m].term == currentTerm && m != nodeId {
          role := Follower;
          return;
        }
      }
    }

    /** What a candidate needs before it claims, over the documents. */
    ghost predicate Eligible(clock: Time, unread: bool, uncounted: bool)
      reads this, storage
    {
      && !unread && Consistent(storage.nodes, nodeId, currentTerm, clock, 2 * heartbeatTimeout)
      && !uncounted && 2 * |votes| > |Visible(storage.nodes, clock)|
    }

    /** One bid, with the two reads of the documents that may err and the last registration that may fail.
        A candidate leads afterwards exactly if the documents are consistent, its votes are more than half of
        the visible nodes and its claim, made in no other case, returns true; every other outcome makes it a
        follower, without votes and in no lower term. A leader's document is in its term, with the flag up if
        the last registration is carried out. */
    method BecomeLeader(
      clock: Time, unread: bool, uncounted: bool,
      first: Time, now: Time, faults: Faults, before: Docs, between: Docs, others: seq<Docs>, stamp: Time, last: Reply)
      requires |others| == |faults.verify| == VERIFY_ATTEMPTS
      modifies this, storage
      ensures old(role) != Candidate ==>
        Now() == old(Now()) && votedFor == old(votedFor) && storage.nodes == old(storage.nodes)
      ensures old(role) == Candidate && !old(Eligible(clock, unread, uncounted)) ==>
        role == Follower && storage.nodes == old(storage.nodes)
      ensures old(role) == Candidate && old(Eligible(clock, unread, uncounted)) ==>
        var (docs, claim) :=
          Claimed(old(storage.nodes), nodeId, old(currentTerm), first, now, faults, before, between, others);
        && (role == Leader <==> claim == Ok(true))
        && storage.nodes == if claim == Ok(true) && last != Lost
                            then Register(docs, nodeId, CLAIM_PROFILE, true, stamp) else docs
      ensures old(role) == Candidate && role == Leader ==>
        && currentTerm == old(currentTerm) && votes == old(votes) && votedFor == old(votedFor)
        && nodeId in storage.nodes && storage.nodes[nodeId].term == currentTerm
      ensures old(role) == Candidate && role != Leader ==>
        && role == Follower && votes == {} && currentTerm >= old(currentTerm)
        && (currentTerm > old(currentTerm) <==>
              unread || !Consistent(old(storage.nodes), nodeId, old(currentTerm), clock, 2 * heartbeatTimeout))
      ensures exists seen, valid, claimed ::
        && seen >= old(currentTerm) && (valid ==> seen == old(currentTerm))
        && Now() == Bid(old(Now()), seen, valid, |Visible(old(storage.nodes), clock)|, claimed)
    {
      ghost var start := Now();
      ghost var nodes := |Visible(storage.nodes, clock)|;
      if role != Candidate {
        assert Now() == Bid(start, currentTerm, true, nodes, false);
        return;
      }
      var valid := ValidateTermConsistency(clock, unread);
      if !valid {
        ghost var seen := currentTerm;
        BecomeFollowerUnsafe(currentTerm + 1);
        assert Now() == Bid(start, seen, false, nodes, false);
        return;
      }
      var found := storage.GetNodes(clock);
      assert found == Visible(storage.nodes, clock);
      if uncounted || !IsMajority(|votes|, |found|) {
        BecomeFollowerUnsafe(currentTerm);
        assert Now() == Bid(start, start.term, true, nodes, false);
        return;
      }
      var claim := storage.AtomicClaimLeadership(nodeId, currentTerm, first, now, faults, before, between, others);
      if claim != Ok(true) {
        BecomeFollowerUnsafe(currentTerm);
        assert Now() == Bid(start, start.term, true, nodes, false);
        return;
      }
      role := Leader;
      assert Now() == Bid(start, start.term, true, nodes, true);
      ClaimWritesTerm(old(storage.nodes), nodeId, currentTerm, first, now, faults, before, between, others);
      if last != Lost {
        storage.RegisterNode(nodeId, CLAIM_PROFILE, true, stamp);
      }
    }
  }

  /** A successful claim leaves the claimant's document in the term claimed. */
  lemma ClaimWritesTerm(
    docs: Docs, n: NodeId, term: int, first: Time, now: Time, faults: Faults, before: Docs, between: Docs,
    others: seq<Docs>)
    requires |others| == |faults.verify| == VERIFY_ATTEMPTS
    requires Claimed(docs, n, term, first, now, faults, before, between, others).1 == Ok(true)
    ensures var nodes := Claimed(docs, n, term, first, now, faults, before, between, others).0;
      n in nodes && nodes[n].term == term
  {
    var found := Overlay(Overlay(ClearStale(docs, first - STALE_AFTER), n, before), n, between);
    var written := found[n := Doc(true, now, CLAIM_PROFILE, term)];
    SettleKeepsTerm(written, n, now - VERIFY_WINDOW, others, faults.verify, 0);
  }

  /** Nothing that interferes changes the claimant's term. */
  lemma {:induction false} SettleKeepsTerm(docs: Docs, n: NodeId, since: Time, others: seq<Docs>, fails: seq<bool>,
    k: nat)
    requires k <= VERIFY_ATTEMPTS == |others| == |fails| && n in docs
    ensures n in Settle(docs, n, since, others, fails, k).0
    ensures Settle(docs, n, since, others, fails, k).0[n].term == docs[n].term
    decreases VERIFY_ATTEMPTS - k
  {
    if k < VERIFY_ATTEMPTS && fails[k] {
      SettleKeepsTerm(Overlay(docs, n, others[k]), n, since, others, fails, k + 1);
    }
  }
}
