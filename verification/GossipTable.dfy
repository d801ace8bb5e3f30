/** The member table of a gossip node and the handlers that update it in place. */
module GossipTable {
  import opened Wrappers
  import opened Registry
  import opened NodeStore

  datatype State = Alive | Suspected | Failed

  /** `priority` is the entry of that name in the metadata, if it is a number. */
  datatype Member = Member(address: string, state: State, incarnation: int, lastSeen: Time, priority: Option<real>)

  datatype Entry = Entry(id: NodeId, member: Member)

  datatype Suspicion = Suspicion(target: NodeId, suspector: NodeId, incarnation: int)

  datatype Leadership = Leadership(leader: NodeId, term: int)

  type View = map<NodeId, Member>

  // ---- mergeMemberList ---------------------------------------------------------------------------

  /** A known member takes everything but the address from a newer record. */
  function Updated(known: Member, heard: Member): (r: Member)
    ensures r.address == known.address
    ensures heard.incarnation <= known.incarnation ==> r == known
    ensures heard.incarnation > known.incarnation ==> r.(address := heard.address) == heard
  {
    if heard.incarnation > known.incarnation then heard.(address := known.address) else known
  }

  function MergeOne(v: View, self: NodeId, e: Entry): View {
    if e.id == self then v
    else v[e.id := if e.id in v then Updated(v[e.id], e.member) else e.member]
  }

  function Merge(v: View, self: NodeId, list: seq<Entry>): View
    decreases |list|
  {
    if list == [] then v else Merge(MergeOne(v, self, list[0]), self, list[1..])
  }

  // ---- handleSuspicion and discoverNodes ---------------------------------------------------------

  function Suspect(v: View, s: Suspicion): View {
    if s.target in v && s.incarnation >= v[s.target].incarnation && v[s.target].state == Alive
    then v[s.target := v[s.target].(state := Suspected)] else v
  }

  /** Registry nodes join as alive with the current second as incarnation; known ones are only seen. */
  function Met(v: View, n: NodeId, doc: Doc, second: int, draw: map<NodeId, real>): Member {
    if n in v then v[n].(lastSeen := doc.lastSeen)
    else Member(doc.profile.address, Alive, second, doc.lastSeen, if n in draw then Some(draw[n]) else None)
  }

  function MetAll(v: View, found: Docs, which: set<NodeId>, second: int, draw: map<NodeId, real>): View
    requires which <= found.Keys
  {
    map n | n in v.Keys + which :: if n in which then Met(v, n, found[n], second, draw) else v[n]
  }

  function Discover(v: View, self: NodeId, found: Docs, second: int, draw: map<NodeId, real>): View {
    MetAll(v, found, found.Keys - {self}, second, draw)
  }

  lemma MetOneMore(v: View, found: Docs, which: set<NodeId>, n: NodeId, second: int, draw: map<NodeId, real>)
    requires which <= found.Keys && n in found && n !in which
    ensures var w := MetAll(v, found, which, second, draw);
      w[n := Met(w, n, found[n], second, draw)] == MetAll(v, found, which + {n}, second, draw)
  {
  }

  // ---- updateMemberStates ------------------------------------------------------------------------

  function Aged(m: Member, now: Time, suspicion: Time): Member {
    match m.state
    case Alive => if now - m.lastSeen > suspicion then m.(state := Suspected) else m
    case Suspected => if now - m.lastSeen > 2 * suspicion then m.(state := Failed) else m
    case Failed => m
  }

  predicate Expired(m: Member, later: Time, suspicion: Time) {
    m.state == Failed && later - m.lastSeen > 4 * suspicion
  }

  /** Ageing skips the node itself; removal, which reads the clock again, does not. */
  function AgedAll(v: View, self: NodeId, now: Time, suspicion: Time): View {
    map n | n in v :: if n == self then v[n] else Aged(v[n], now, suspicion)
  }

  function Sweep(v: View, self: NodeId, now: Time, later: Time, suspicion: Time): View {
    var aged := AgedAll(v, self, now, suspicion);
    map n | n in aged && !Expired(aged[n], later, suspicion) :: aged[n]
  }

  predicate SameAt(was: map<NodeId, Suspicion>, held: map<NodeId, Suspicion>, n: NodeId) {
    (n in held <==> n in was) && (n in was ==> held[n] == was[n])
  }

  /** A member that falls under suspicion is noted as suspected by this node, and the note on one that is
      given up goes; all other notes stay. */
  predicate Noted(
    v: View, self: NodeId, was: map<NodeId, Suspicion>, held: map<NodeId, Suspicion>, n: NodeId,
    now: Time, suspicion: Time)
  {
    if n in v && n != self && v[n].state == Alive && now - v[n].lastSeen > suspicion
    then n in held && held[n] == Suspicion(n, self, v[n].incarnation)
    else if n in v && n != self && v[n].state == Suspected && now - v[n].lastSeen > 2 * suspicion then n !in held
    else SameAt(was, held, n)
  }

  /** One more turn of the ageing loop, which leaves the notes on others alone. */
  lemma NotedOneMore(
    v: View, self: NodeId, was: map<NodeId, Suspicion>, held: map<NodeId, Suspicion>,
    next: map<NodeId, Suspicion>, todo: set<NodeId>, n: NodeId, now: Time, suspicion: Time)
    requires forall k :: k in todo ==> SameAt(was, held, k)
    requires forall k :: k !in todo ==> Noted(v, self, was, held, k, now, suspicion)
    requires n in todo && Noted(v, self, held, next, n, now, suspicion)
    requires forall k :: k != n ==> SameAt(held, next, k)
    ensures forall k :: k in todo - {n} ==> SameAt(was, next, k)
    ensures forall k :: k !in todo - {n} ==> Noted(v, self, was, next, k, now, suspicion)
  {
    forall k | k in todo - {n} ensures SameAt(was, next, k) {
      assert SameAt(was, held, k) && SameAt(held, next, k);
    }
    forall k | k !in todo - {n} ensures Noted(v, self, was, next, k, now, suspicion) {
      assert k != n ==> Noted(v, self, was, held, k, now, suspicion) && SameAt(held, next, k);
      assert SameAt(was, held, n);
    }
  }

  lemma NotedAlike(
    v: View, w: View, self: NodeId, was: map<NodeId, Suspicion>, held: map<NodeId, Suspicion>, n: NodeId,
    now: Time, suspicion: Time)
    requires Noted(v, self, was, held, n, now, suspicion) && n in v && n in w && v[n] == w[n]
    ensures Noted(w, self, was, held, n, now, suspicion)
  {
  }

  class GossipNode {
    const nodeId: NodeId
    const suspicionTimeout: Time
    const storage: MongoStorage
    const profile: Profile
    var members: View
    var suspicions: map<NodeId, Suspicion>
    var isLeader: bool
    var currentLeader: NodeId
    var leaderTerm: int

    constructor (nodeId: NodeId, profile: Profile, suspicionTimeout: Time, storage: MongoStorage)
      ensures this.nodeId == nodeId && this.suspicionTimeout == suspicionTimeout && this.storage == storage
      ensures this.profile == profile && members == map[] && suspicions == map[]
      ensures !isLeader && currentLeader == "" && leaderTerm == 0
    {
      this.nodeId, this.profile, this.suspicionTimeout, this.storage := nodeId, profile, suspicionTimeout, storage;
      members, suspicions := map[], map[];
      isLeader, currentLeader, leaderTerm := false, "", 0;
    }

    method MergeMemberList(list: seq<Entry>)
      modifies this`members
      ensures members == Merge(old(members), nodeId, list)
    {
      var i := 0;
      while i < |list|
        invariant 0 <= i <= |list|
        invariant Merge(members, nodeId, list[i..]) == Merge(old(members), nodeId, list)
      {
        var e := list[i];
        assert list[i..][1..] == list[i + 1..];
        if e.id != nodeId {
          if e.id !in members {
            members := members[e.id := e.member];
          } else {
            var existing := members[e.id];
            if e.member.incarnation > existing.incarnation {
              members := members[e.id := existing.(
                incarnation := e.member.incarnation, state := e.member.state,
                lastSeen := e.member.lastSeen, priority := e.member.priority)];
            } else {
              assert members[e.id := existing] == members;
            }
          }
        }
        i := i + 1;
      }
    }

    method HandleSuspicion(s: Suspicion)
      modifies this`members, this`suspicions
      ensures
        if s.target in old(members) && old(members)[s.target].state == Alive
           && s.incarnation >= old(members)[s.target].incarnation
        then
          && members == old(members)[s.target := old(members)[s.target].(state := Suspected)]
          && suspicions == old(suspicions)[s.target := s]
        else members == old(members) && suspicions == old(suspicions)
      ensures members == Suspect(old(members), s)
    {
      if s.target in members {
        var m := members[s.target];
        if s.incarnation >= m.incarnation && m.state == Alive {
          members := members[s.target := m.(state := Suspected)];
          suspicions := suspicions[s.target := s];
        }
      }
    }

    method Meet(n: NodeId, doc: Doc, second: int, draw: map<NodeId, real>)
      modifies this`members
      ensures members == old(members)[n := Met(old(members), n, doc, second, draw)]
    {
      if n !in members {
        var priority := if n in draw then Some(draw[n]) else None;
        members := members[n := Member(doc.profile.address, Alive, second, doc.lastSeen, priority)];
      } else {
        members := members[n := members[n].(lastSeen := doc.lastSeen)];
      }
    }

    /** Every other visible node is a member afterwards: one that was keeps its record with the time of its
        document, and a new one is alive. */
    method DiscoverNodes(clock: Time, second: int, draw: map<NodeId, real>)
      modifies this`members
      ensures forall n :: n in members <==>
        n in old(members) || (n != nodeId && n in storage.nodes && clock - storage.nodes[n].lastSeen <= VISIBLE_FOR)
      ensures forall n :: n in old(members) ==>
        members[n] ==
          if n != nodeId && n in storage.nodes && clock - storage.nodes[n].lastSeen <= VISIBLE_FOR
          then old(members)[n].(lastSeen := storage.nodes[n].lastSeen) else old(members)[n]
      ensures forall n :: n in members && n !in old(members) ==>
        && members[n].address == storage.nodes[n].profile.address && members[n].state == Alive
        && members[n].incarnation == second && members[n].lastSeen == storage.nodes[n].lastSeen
        && members[n].priority == if n in draw then Some(draw[n]) else None
      ensures members == Discover(old(members), nodeId, Visible(storage.nodes, clock), second, draw)
    {
      var found := storage.GetNodes(clock);
      assert found == Visible(storage.nodes, clock);
      MeetEach(found, second, draw);
    }

    method MeetEach(found: Docs, second: int, draw: map<NodeId, real>)
      modifies this`members
      ensures members == Discover(old(members), nodeId, found, second, draw)
    {
      ghost var before := members;
      ghost var met := {};
      var todo := found.Keys - {nodeId};
      ghost var all := todo;
      while todo != {}
        invariant met == all - todo && todo <= all
        invariant members == MetAll(before, found, met, second, draw)
        decreases todo
      {
        var n :| n in todo;
        MetOneMore(before, found, met, n, second, draw);
        Meet(n, found[n], second, draw);
        todo := todo - {n};
        assert met + {n} == all - todo;
        met := met + {n};
      }
      assert met == all;
    }

    /** One turn of the ageing loop. */
    method AgeOne(n: NodeId, now: Time)
      requires n in members
      modifies this`members, this`suspicions
      ensures members == old(members)[n := AgedAll(old(members), nodeId, now, suspicionTimeout)[n]]
      ensures Noted(old(members), nodeId, old(suspicions), suspicions, n, now, suspicionTimeout)
      ensures forall k :: k != n ==> SameAt(old(suspicions), suspicions, k)
    {
      if n != nodeId {
        var m := members[n];
        match m.state {
          case Alive =>
            if now - m.lastSeen > suspicionTimeout {
              members := members[n := m.(state := Suspected)];
              suspicions := suspicions[n := Suspicion(n, nodeId, m.incarnation)];
            }
          case Suspected =>
            if now - m.lastSeen > 2 * suspicionTimeout {
              members := members[n := m.(state := Failed)];
              suspicions := suspicions - {n};
            }
          case Failed =>
        }
      }
      assert members == old(members)[n := AgedAll(old(members), nodeId, now, suspicionTimeout)[n]];
    }

    /** The ageing loop, in any map order. */
    method AgeEach(now: Time)
      modifies this`members, this`suspicions
      ensures members == AgedAll(old(members), nodeId, now, suspicionTimeout)
      ensures forall n :: Noted(old(members), nodeId, old(suspicions), suspicions, n, now, suspicionTimeout)
    {
      ghost var v, was := members, suspicions;
      ghost var aged := AgedAll(v, nodeId, now, suspicionTimeout);
      var todo := members.Keys;
      while todo != {}
        invariant todo <= members.Keys == v.Keys
        invariant forall n :: n in members ==> members[n] == if n in todo then v[n] else aged[n]
        invariant forall n :: n in todo ==> SameAt(was, suspicions, n)
        invariant forall n :: n !in todo ==> Noted(v, nodeId, was, suspicions, n, now, suspicionTimeout)
        decreases todo
      {
        var n :| n in todo;
        ghost var before, held := members, suspicions;
        AgeOne(n, now);
        NotedAlike(before, v, nodeId, held, suspicions, n, now, suspicionTimeout);
        NotedOneMore(v, nodeId, was, held, suspicions, todo, n, now, suspicionTimeout);
        todo := todo - {n};
      }
    }

    /** Ages every other member once, then drops the long failed ones. */
    method UpdateMemberStates(now: Time, later: Time)
      modifies this`members, this`suspicions
      ensures forall n :: n in old(members) ==>
        var m, age := old(members)[n], now - old(members)[n].lastSeen;
        var state :=
          if n != nodeId && m.state == Alive && age > suspicionTimeout then Suspected
          else if n != nodeId && m.state == Suspected && age > 2 * suspicionTimeout then Failed else m.state;
        && (n in members <==> state != Failed || later - m.lastSeen <= 4 * suspicionTimeout)
        && (n in members ==> members[n] == m.(state := state))
      ensures members.Keys <= old(members).Keys
      ensures members == Sweep(old(members), nodeId, now, later, suspicionTimeout)
      ensures forall n :: Noted(old(members), nodeId, old(suspicions), suspicions, n, now, suspicionTimeout)
    {
      AgeEach(now);
      members := map n | n in members && !Expired(members[n], later, suspicionTimeout) :: members[n];
    }

    /** Only a strictly newer term changes the leader, so the term never falls. */
    method HandleLeadershipInfo(l: Leadership, clock: Time)
      modifies this`currentLeader, this`leaderTerm, this`isLeader, storage
      ensures leaderTerm == if l.term > old(leaderTerm) then l.term else old(leaderTerm)
      ensures l.term > old(leaderTerm) ==> currentLeader == l.leader && (isLeader <==> l.leader == nodeId)
      ensures l.term <= old(leaderTerm) ==> currentLeader == old(currentLeader) && isLeader == old(isLeader)
      ensures storage.nodes ==
        if l.term > old(leaderTerm) && l.leader != old(currentLeader)
        then Register(old(storage.nodes), nodeId, profile, l.leader == nodeId, clock) else old(storage.nodes)
    {
      if l.term > leaderTerm {
        var before := currentLeader;
        currentLeader, leaderTerm, isLeader := l.leader, l.term, l.leader == nodeId;
        if before != currentLeader {
          storage.RegisterNode(nodeId, profile, isLeader, clock);
        }
      }
    }
  }
}
