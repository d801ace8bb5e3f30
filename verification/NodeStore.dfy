/** MongoStorage's methods on the `nodes` collection, updating it in place. The claim runs as one call
    here; what other nodes write while it sleeps is an argument. ClaimProtocol lifts that limit. */
module NodeStore {
  import opened Wrappers
  import opened Registry
  import P = ClaimProtocol

  datatype ClaimResult = Ok(claimed: bool) | StoreError

  /** How the store operations of one claim go; `count` and `verify` tell which reads err. */
  datatype Faults = Faults(clear: Reply, count: bool, raise: Reply, verify: seq<bool>, lower: Reply)

  datatype Verdict = Alone | Conflict | Unknown

  /** The collection after other operations left `others` behind. They may also change the claimant's
      document, as a late heartbeat or a cleared flag does, but only a claim of its own changes its term. */
  function Overlay(docs: Docs, n: NodeId, others: Docs): Docs {
    map m | m in docs.Keys + others.Keys ::
      if m !in others then docs[m]
      else if m == n && n in docs then others[n].(term := docs[n].term)
      else others[m]
  }

  lemma OverlayNothing(docs: Docs, n: NodeId)
    ensures Overlay(docs, n, map[]) == docs
  {
    var none: Docs := map[];
    assert docs.Keys + none.Keys == docs.Keys;
  }

  /** Two recent leaders. */
  ghost predicate Crowded(docs: Docs, since: Time) {
    exists x, y :: x in docs && y in docs && x != y
      && docs[x].isLeader && docs[x].lastSeen >= since && docs[y].isLeader && docs[y].lastSeen >= since
  }

  lemma CrowdedExactly(docs: Docs, since: Time)
    ensures |FreshLeaders(docs, since)| > 1 <==> Crowded(docs, since)
  {
    var s := FreshLeaders(docs, since);
    if Crowded(docs, since) {
      var x, y :| x in docs && y in docs && x != y
        && docs[x].isLeader && docs[x].lastSeen >= since && docs[y].isLeader && docs[y].lastSeen >= since;
      TwoMembers(s, x, y);
    } else if |s| > 1 {
      var x :| x in s;
      assert |s - {x}| > 0;
      var y :| y in s - {x};
    }
  }

  /** What a write leaves behind. */
  function Written(o: Reply, was: Docs, becomes: Docs): Docs {
    if o == Lost then was else becomes
  }

  /** The verification loop from attempt `k` on: the first attempt that does not fail decides. */
  ghost function Settle(
    docs: Docs, n: NodeId, since: Time, others: seq<Docs>, fails: seq<bool>, k: nat): (Docs, Verdict)
    requires k <= VERIFY_ATTEMPTS == |others| == |fails|
    decreases VERIFY_ATTEMPTS - k
  {
    if k == VERIFY_ATTEMPTS then (docs, Unknown)
    else
      var seen := Overlay(docs, n, others[k]);
      if fails[k] then Settle(seen, n, since, others, fails, k + 1)
      else (seen, if Crowded(seen, since) then Conflict else Alone)
  }

  /** The loop, and the step-down after a conflict. */
  ghost function ClaimedFromVerify(
    docs: Docs, n: NodeId, now: Time, changed: bool, faults: Faults, others: seq<Docs>, k: nat): (Docs, ClaimResult)
    requires k <= VERIFY_ATTEMPTS == |others| == |faults.verify|
  {
    var (seen, verdict) := Settle(docs, n, now - VERIFY_WINDOW, others, faults.verify, k);
    match verdict
    case Unknown => (seen, StoreError)
    case Conflict =>
      (Written(faults.lower, seen, Lower(seen, n)), if faults.lower.Done? then Ok(false) else StoreError)
    case Alone => (seen, Ok(changed))
  }

  /** The write, which changes the collection exactly if it becomes another one. */
  ghost function ClaimedFromRaise(docs: Docs, n: NodeId, term: int, now: Time, faults: Faults, others: seq<Docs>)
    : (Docs, ClaimResult)
    requires |others| == |faults.verify| == VERIFY_ATTEMPTS
  {
    var written := docs[n := Doc(true, now, CLAIM_PROFILE, term)];
    if !faults.raise.Done? then (Written(faults.raise, docs, written), StoreError)
    else ClaimedFromVerify(written, n, now, written != docs, faults, others, 0)
  }

  ghost predicate ActiveElsewhere(docs: Docs, n: NodeId, now: Time) {
    exists m :: m in docs && m != n && docs[m].isLeader && now - docs[m].lastSeen <= ACTIVE_WINDOW
  }

  ghost function ClaimedFromCount(
    docs: Docs, n: NodeId, term: int, now: Time, faults: Faults, between: Docs, others: seq<Docs>): (Docs, ClaimResult)
    requires |others| == |faults.verify| == VERIFY_ATTEMPTS
  {
    if faults.count then (docs, StoreError)
    else if ActiveElsewhere(docs, n, now) then (docs, Ok(false))
    else ClaimedFromRaise(Overlay(docs, n, between), n, term, now, faults, others)
  }

  /** The collection and the answer of a whole call. */
  ghost function Claimed(
    docs: Docs, n: NodeId, term: int, first: Time, now: Time, faults: Faults, before: Docs, between: Docs,
    others: seq<Docs>): (Docs, ClaimResult)
    requires |others| == |faults.verify| == VERIFY_ATTEMPTS
  {
    var cleared := ClearStale(docs, first - STALE_AFTER);
    if !faults.clear.Done? then (Written(faults.clear, docs, cleared), StoreError)
    else ClaimedFromCount(Overlay(cleared, n, before), n, term, now, faults, between, others)
  }

  // ---- The call as steps of the protocol ---------------------------------------------------------

  /** The node holds exactly if the call returned true, over the same collection. */
  ghost predicate Ends(c: P.Cluster, n: NodeId, end: (Docs, ClaimResult)) {
    c.docs == end.0 && n in c.phase && (c.phase[n].Holding? <==> end.1 == Ok(true))
  }

  /** One node about to claim. */
  function Opening(docs: Docs, n: NodeId, clock: Time): P.Cluster {
    P.Cluster(docs, clock, map[n := P.Idle], map[n := multiset{}])
  }

  /** Others act and time passes. */
  function Meanwhile(c: P.Cluster, n: NodeId, others: Docs, clock: Time): P.Cluster {
    c.(docs := Overlay(c.docs, n, others), clock := clock)
  }

  /** Begin and Clear. */
  function PlayedClear(docs: Docs, n: NodeId, first: Time, reply: Reply): (c: P.Cluster)
    ensures P.WellFormed(c) && c.phase.Keys == {n}
    ensures c.docs == Written(reply, docs, ClearStale(docs, first - STALE_AFTER))
    ensures if reply.Lost? then c.phase[n].Idle? else c.phase[n].Cleared?
  {
    P.Apply(P.Apply(Opening(docs, n, first), P.Begin(n)), P.Clear(n, !reply.Lost?))
  }

  /** ReadNow and Count. */
  function PlayedCount(c: P.Cluster, n: NodeId, errs: bool): (d: P.Cluster)
    requires P.WellFormed(c) && n in c.phase && c.phase[n].Cleared?
    ensures P.WellFormed(d) && n in d.phase && d.docs == c.docs && d.clock == c.clock
    ensures d.phase[n] ==
      if !errs && FreshLeaders(c.docs, c.clock - ACTIVE_WINDOW) - {n} == {} then P.Raising(c.clock) else P.Idle
  {
    P.Apply(P.Apply(c, P.ReadNow(n)), P.Count(n, !errs))
  }

  /** RaiseFlag. */
  function PlayedRaise(c: P.Cluster, n: NodeId, term: int, reply: Reply): (d: P.Cluster)
    requires P.WellFormed(c) && n in c.phase && c.phase[n].Raising?
    ensures P.WellFormed(d) && n in d.phase
    ensures var now := c.phase[n].now;
      && d.docs == Written(reply, c.docs, Raise(c.docs, n, now, term))
      && (reply.Done? ==>
            d.phase[n] == P.Verifying(now, c.clock, c.clock + VERIFY_DELAY, 0, RaiseChanges(c.docs, n, now, term)))
      && (!reply.Done? ==> d.phase[n].Idle?)
  {
    P.Apply(c, P.RaiseFlag(n, term, !reply.Lost?, reply.Done?))
  }

  /** Verify, by a node that wakes up on time, and BackOff after a conflict. */
  function PlayedVerify(c: P.Cluster, n: NodeId, errs: bool, lower: Reply): (d: P.Cluster)
    requires P.WellFormed(c) && n in c.phase && c.phase[n].Verifying? && c.phase[n].wakeAt == c.clock
    ensures P.WellFormed(d) && n in d.phase
    ensures var p := c.phase[n];
      var conflict := |FreshLeaders(c.docs, p.now - VERIFY_WINDOW)| > 1;
      && d.docs == (if !errs && conflict then Written(lower, c.docs, Lower(c.docs, n)) else c.docs)
      && (d.phase[n].Holding? <==> !errs && !conflict && p.changed)
      && (d.phase[n].Verifying? <==> errs && p.retry + 1 < VERIFY_ATTEMPTS)
      && (d.phase[n].Verifying? ==>
            d.phase[n].now == p.now && d.phase[n].retry == p.retry + 1 && d.phase[n].changed == p.changed)
  {
    var d := P.Apply(c, P.Verify(n, !errs));
    if d.phase[n].BackingOff? then P.Apply(d, P.BackOff(n, !lower.Lost?)) else d
  }

  /** The verification steps from attempt `k` on. */
  ghost function PlayedLoop(c: P.Cluster, n: NodeId, others: seq<Docs>, faults: Faults, k: nat): (d: P.Cluster)
    requires P.WellFormed(c) && n in c.phase
    requires k <= VERIFY_ATTEMPTS == |others| == |faults.verify|
    ensures n in d.phase
    decreases VERIFY_ATTEMPTS - k
  {
    if k == VERIFY_ATTEMPTS || !c.phase[n].Verifying? then c
    else
      var woken := Meanwhile(c, n, others[k], c.phase[n].wakeAt);
      PlayedLoop(PlayedVerify(woken, n, faults.verify[k], faults.lower), n, others, faults, k + 1)
  }

  /** From the write on. */
  ghost function PlayedFromRaise(c: P.Cluster, n: NodeId, term: int, faults: Faults, others: seq<Docs>): (d: P.Cluster)
    requires P.WellFormed(c) && n in c.phase && c.phase[n].Raising?
    requires |others| == |faults.verify| == VERIFY_ATTEMPTS
    ensures n in d.phase
  {
    PlayedLoop(PlayedRaise(c, n, term, faults.raise), n, others, faults, 0)
  }

  /** From the count on. */
  ghost function PlayedFromCount(
    c: P.Cluster, n: NodeId, term: int, faults: Faults, between: Docs, others: seq<Docs>): (d: P.Cluster)
    requires P.WellFormed(c) && n in c.phase && c.phase[n].Cleared?
    requires |others| == |faults.verify| == VERIFY_ATTEMPTS
    ensures n in d.phase
  {
    var counted := PlayedCount(c, n, faults.count);
    if counted.phase[n].Idle? then counted
    else PlayedFromRaise(Meanwhile(counted, n, between, c.clock), n, term, faults, others)
  }

  /** The whole call, as steps of the protocol. A clearing without an answer goes on to a count that errs. */
  ghost function Played(
    docs: Docs, n: NodeId, term: int, first: Time, now: Time, faults: Faults, before: Docs, between: Docs,
    others: seq<Docs>): (d: P.Cluster)
    requires |others| == |faults.verify| == VERIFY_ATTEMPTS
    ensures n in d.phase
  {
    var cleared := PlayedClear(docs, n, first, faults.clear);
    if faults.clear.Lost? then cleared
    else if faults.clear.Unanswered? then PlayedCount(cleared, n, true)
    else PlayedFromCount(Meanwhile(cleared, n, before, now), n, term, faults, between, others)
  }

  lemma LoopIsOver(d: P.Cluster, n: NodeId, others: seq<Docs>, faults: Faults, k: nat)
    requires P.WellFormed(d) && n in d.phase && !d.phase[n].Verifying?
    requires k <= VERIFY_ATTEMPTS == |others| == |faults.verify|
    ensures PlayedLoop(d, n, others, faults, k) == d
  {
  }

  lemma SettlesAt(docs: Docs, n: NodeId, since: Time, others: seq<Docs>, fails: seq<bool>, k: nat)
    requires k < VERIFY_ATTEMPTS == |others| == |fails| && !fails[k]
    ensures var seen := Overlay(docs, n, others[k]);
      Settle(docs, n, since, others, fails, k)
      == (seen, if |FreshLeaders(seen, since)| > 1 then Conflict else Alone)
  {
    CrowdedExactly(Overlay(docs, n, others[k]), since);
  }

  /** An attempt that does not err settles the claim. */
  lemma LastVerification(c: P.Cluster, n: NodeId, others: seq<Docs>, faults: Faults, k: nat)
    requires P.WellFormed(c) && n in c.phase && c.phase[n].Verifying? && c.phase[n].retry == k
    requires k < VERIFY_ATTEMPTS == |others| == |faults.verify| && !faults.verify[k]
    ensures Ends(PlayedLoop(c, n, others, faults, k), n,
                 ClaimedFromVerify(c.docs, n, c.phase[n].now, c.phase[n].changed, faults, others, k))
  {
    var woken := Meanwhile(c, n, others[k], c.phase[n].wakeAt);
    var d := PlayedVerify(woken, n, false, faults.lower);
    LoopIsOver(d, n, others, faults, k + 1);
    SettlesAt(c.docs, n, c.phase[n].now - VERIFY_WINDOW, others, faults.verify, k);
  }

  /** The protocol's verification steps settle a claim as the loop does. */
  lemma {:induction false} LoopIsPlayed(c: P.Cluster, n: NodeId, others: seq<Docs>, faults: Faults, k: nat)
    requires P.WellFormed(c) && n in c.phase && c.phase[n].Verifying? && c.phase[n].retry == k
    requires k < VERIFY_ATTEMPTS == |others| == |faults.verify|
    ensures Ends(PlayedLoop(c, n, others, faults, k), n,
                 ClaimedFromVerify(c.docs, n, c.phase[n].now, c.phase[n].changed, faults, others, k))
    decreases VERIFY_ATTEMPTS - k
  {
    if !faults.verify[k] {
      LastVerification(c, n, others, faults, k);
    } else {
      var woken := Meanwhile(c, n, others[k], c.phase[n].wakeAt);
      var d := PlayedVerify(woken, n, true, faults.lower);
      if k + 1 < VERIFY_ATTEMPTS {
        LoopIsPlayed(d, n, others, faults, k + 1);
      } else {
        assert PlayedLoop(d, n, others, faults, k + 1) == d;
        assert Settle(d.docs, n, c.phase[n].now - VERIFY_WINDOW, others, faults.verify, k + 1) == (d.docs, Unknown);
      }
    }
  }

  lemma RaiseIsPlayed(c: P.Cluster, n: NodeId, term: int, faults: Faults, others: seq<Docs>)
    requires P.WellFormed(c) && n in c.phase && c.phase[n].Raising?
    requires |others| == |faults.verify| == VERIFY_ATTEMPTS
    ensures Ends(PlayedFromRaise(c, n, term, faults, others), n,
                 ClaimedFromRaise(c.docs, n, term, c.phase[n].now, faults, others))
  {
    var d := PlayedRaise(c, n, term, faults.raise);
    if faults.raise.Done? {
      LoopIsPlayed(d, n, others, faults, 0);
    }
  }

  lemma CountIsPlayed(c: P.Cluster, n: NodeId, term: int, faults: Faults, between: Docs, others: seq<Docs>)
    requires P.WellFormed(c) && n in c.phase && c.phase[n].Cleared?
    requires |others| == |faults.verify| == VERIFY_ATTEMPTS
    ensures Ends(PlayedFromCount(c, n, term, faults, between, others), n,
                 ClaimedFromCount(c.docs, n, term, c.clock, faults, between, others))
  {
    var d := PlayedCount(c, n, faults.count);
    NobodyElse(c.docs, n, c.clock);
    if !d.phase[n].Idle? {
      RaiseIsPlayed(Meanwhile(d, n, between, c.clock), n, term, faults, others);
    }
  }

  lemma NobodyElse(docs: Docs, n: NodeId, now: Time)
    ensures FreshLeaders(docs, now - ACTIVE_WINDOW) - {n} == {} <==> !ActiveElsewhere(docs, n, now)
  {
    if ActiveElsewhere(docs, n, now) {
      var m :| m in docs && m != n && docs[m].isLeader && now - docs[m].lastSeen <= ACTIVE_WINDOW;
      assert m in FreshLeaders(docs, now - ACTIVE_WINDOW) - {n};
    }
  }

  /** The call does what the protocol's own steps do when others act only in its gaps. */
  lemma ClaimIsPlayed(
    docs: Docs, n: NodeId, term: int, first: Time, now: Time, faults: Faults, before: Docs, between: Docs,
    others: seq<Docs>)
    requires |others| == |faults.verify| == VERIFY_ATTEMPTS
    ensures Ends(Played(docs, n, term, first, now, faults, before, between, others), n,
                 Claimed(docs, n, term, first, now, faults, before, between, others))
  {
    var cleared := PlayedClear(docs, n, first, faults.clear);
    if faults.clear.Done? {
      CountIsPlayed(Meanwhile(cleared, n, before, now), n, term, faults, between, others);
    }
  }

  class MongoStorage {
    var nodes: Docs

    constructor ()
      ensures nodes == map[]
    {
      nodes := map[];
    }

    method RegisterNode(n: NodeId, profile: Profile, isLeader: bool, clock: Time)
      modifies this
      ensures nodes.Keys == old(nodes).Keys + {n}
      ensures nodes[n].isLeader == isLeader && nodes[n].lastSeen == clock && nodes[n].profile == profile
      ensures nodes[n].term == if n in old(nodes) then old(nodes)[n].term else 0
      ensures forall m :: m in old(nodes) && m != n ==> nodes[m] == old(nodes)[m]
      ensures nodes == Register(old(nodes), n, profile, isLeader, clock)
    {
      var term := if n in nodes then nodes[n].term else 0;
      nodes := nodes[n := Doc(isLeader, clock, profile, term)];
    }

    method GetNodes(clock: Time) returns (found: Docs)
      ensures forall n :: n in found <==> n in nodes && clock - nodes[n].lastSeen <= VISIBLE_FOR
      ensures forall n :: n in found ==> found[n] == nodes[n]
    {
      found := Visible(nodes, clock);
    }

    /** `first` and `now` are the two readings of the clock; `before` and `between` are what other operations
        leave behind before the count and before the raise, `others[k]` before the k-th verification. */
    method AtomicClaimLeadership(
      n: NodeId, term: int, first: Time, now: Time, faults: Faults, before: Docs, between: Docs, others: seq<Docs>)
      returns (r: ClaimResult)
      requires |others| == |faults.verify| == VERIFY_ATTEMPTS
      modifies this
      ensures (nodes, r) == Claimed(old(nodes), n, term, first, now, faults, before, between, others)
    {
      var cleared := ClearStale(nodes, first - STALE_AFTER);
      nodes := Written(faults.clear, nodes, cleared);
      if faults.clear != Done {
        return StoreError;
      }
      nodes := Overlay(nodes, n, before);
      if faults.count {
        return StoreError;
      }
      NobodyElse(nodes, n, now);
      var active := FreshLeaders(nodes, now - ACTIVE_WINDOW) - {n};
      if |active| > 0 {
        return Ok(false);
      }
      nodes := Overlay(nodes, n, between);
      RaiseChangesExactly(nodes, n, now, term);
      var changed := RaiseChanges(nodes, n, now, term);
      nodes := Written(faults.raise, nodes, Raise(nodes, n, now, term));
      if faults.raise != Done {
        return StoreError;
      }
      r := Verify(n, now, changed, faults, others);
    }

    /** The verification loop and the step-down. */
    method Verify(n: NodeId, now: Time, changed: bool, faults: Faults, others: seq<Docs>)
      returns (r: ClaimResult)
      requires |others| == |faults.verify| == VERIFY_ATTEMPTS
      modifies this
      ensures (nodes, r) == ClaimedFromVerify(old(nodes), n, now, changed, faults, others, 0)
    {
      ghost var whole := Settle(nodes, n, now - VERIFY_WINDOW, others, faults.verify, 0);
      var retry := 0;
      while retry < VERIFY_ATTEMPTS
        invariant 0 <= retry <= VERIFY_ATTEMPTS
        invariant whole == Settle(nodes, n, now - VERIFY_WINDOW, others, faults.verify, retry)
      {
        nodes := Overlay(nodes, n, others[retry]);
        if faults.verify[retry] {
          if retry == VERIFY_ATTEMPTS - 1 {
            return StoreError;
          }
          retry := retry + 1;
          continue;
        }
        var leaders := FreshLeaders(nodes, now - VERIFY_WINDOW);
        CrowdedExactly(nodes, now - VERIFY_WINDOW);
        if |leaders| > 1 {
          nodes := Written(faults.lower, nodes, Lower(nodes, n));
          return if faults.lower == Done then Ok(false) else StoreError;
        }
        return Ok(changed);
      }
      return StoreError;
    }
  }

  /** With no interference a claim cannot conflict: the count that opened the way has the wider window. */
  lemma {:induction false} UndisturbedClaimIsAlone(
    docs: Docs, n: NodeId, now: Time, others: seq<Docs>, fails: seq<bool>, k: nat)
    requires k <= VERIFY_ATTEMPTS == |others| == |fails|
    requires forall i :: 0 <= i < |others| ==> others[i] == map[]
    requires FreshLeaders(docs, now - ACTIVE_WINDOW) <= {n}
    ensures Settle(docs, n, now - VERIFY_WINDOW, others, fails, k)
         == (docs, if exists i :: k <= i < |fails| && !fails[i] then Alone else Unknown)
    decreases VERIFY_ATTEMPTS - k
  {
    if k < VERIFY_ATTEMPTS {
      OverlayNothing(docs, n);
      if fails[k] {
        UndisturbedClaimIsAlone(docs, n, now, others, fails, k + 1);
      } else {
        assert forall x :: x in docs && docs[x].isLeader && docs[x].lastSeen >= now - VERIFY_WINDOW ==>
          x in FreshLeaders(docs, now - ACTIVE_WINDOW);
      }
    }
  }

  /** A call that nobody disturbs, some verification of which is answered, returns true if and only if no
      other flag was seen in the last 3 s and its own document is missing or not yet as it would write it. */
  lemma LoneCallSucceeds(
    docs: Docs, n: NodeId, term: int, first: Time, now: Time, faults: Faults, others: seq<Docs>)
    requires |others| == |faults.verify| == VERIFY_ATTEMPTS && (forall i :: 0 <= i < |others| ==> others[i] == map[])
    requires faults.clear.Done? && !faults.count && faults.raise.Done? && first <= now
    requires exists i :: 0 <= i < |faults.verify| && !faults.verify[i]
    ensures Claimed(docs, n, term, first, now, faults, map[], map[], others).1 == Ok(true)
       <==> && (forall m :: m in docs && m != n && docs[m].isLeader ==> now - docs[m].lastSeen > ACTIVE_WINDOW)
            && (n in docs ==>
                  || !docs[n].isLeader || docs[n].lastSeen != now
                  || docs[n].profile != CLAIM_PROFILE || docs[n].term != term)
  {
    var cleared := ClearStale(docs, first - STALE_AFTER);
    OverlayNothing(cleared, n);
    if !ActiveElsewhere(cleared, n, now) {
      var written := cleared[n := Doc(true, now, CLAIM_PROFILE, term)];
      RaiseChangesExactly(cleared, n, now, term);
      UndisturbedClaimIsAlone(written, n, now, others, faults.verify, 0);
    }
  }
}
