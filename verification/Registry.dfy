/** The `nodes` collection that every election algorithm shares, and the single store operations on it.
    A BSON date keeps whole milliseconds, so times are integers counting milliseconds. */
module Registry {
  type NodeId = string
  type Time = int

  datatype Profile = Profile(address: string, workerCount: int, version: string)

  /** A document without a `term` field decodes to term 0. */
  datatype Doc = Doc(isLeader: bool, lastSeen: Time, profile: Profile, term: int)

  type Docs = map<NodeId, Doc>

  const STALE_AFTER: Time := 10_000
  const ACTIVE_WINDOW: Time := 3_000
  const VERIFY_WINDOW: Time := 2_000
  const VERIFY_DELAY: Time := 100
  const VERIFY_BACKOFF: Time := 50
  const VERIFY_ATTEMPTS: nat := 3
  const VISIBLE_FOR: Time := 300_000

  const CLAIM_PROFILE := Profile("localhost:8080", 10, "1.0.0")

  /** UpdateMany: lower every flag last seen strictly before `stale`. */
  function ClearStale(docs: Docs, stale: Time): (r: Docs)
    ensures r.Keys == docs.Keys
    ensures forall n :: n in docs ==> r[n].isLeader == (docs[n].isLeader && docs[n].lastSeen >= stale)
    ensures forall n :: n in docs ==> r[n].(isLeader := docs[n].isLeader) == docs[n]
  {
    map n | n in docs ::
      if docs[n].isLeader && docs[n].lastSeen < stale then docs[n].(isLeader := false) else docs[n]
  }

  /** The documents a CountDocuments on `is_leader` and `last_seen` matches. */
  function FreshLeaders(docs: Docs, since: Time): set<NodeId> {
    set n | n in docs && docs[n].isLeader && docs[n].lastSeen >= since
  }

  /** UpdateOne with upsert, as the claim issues it: flag, time and term together. */
  function Raise(docs: Docs, n: NodeId, now: Time, term: int): Docs {
    docs[n := Doc(true, now, CLAIM_PROFILE, term)]
  }

  /** ModifiedCount + UpsertedCount > 0 for the write above. */
  predicate RaiseChanges(docs: Docs, n: NodeId, now: Time, term: int) {
    n !in docs || docs[n] != Doc(true, now, CLAIM_PROFILE, term)
  }

  /** The write counts as a change exactly if the collection is another one afterwards. */
  lemma RaiseChangesExactly(docs: Docs, n: NodeId, now: Time, term: int)
    ensures RaiseChanges(docs, n, now, term) <==> Raise(docs, n, now, term) != docs
  {
    if !RaiseChanges(docs, n, now, term) {
      assert Raise(docs, n, now, term) == docs;
    } else {
      assert n in docs ==> Raise(docs, n, now, term)[n] != docs[n];
    }
  }

  /** UpdateOne without upsert. */
  function Lower(docs: Docs, n: NodeId): (r: Docs)
    ensures r.Keys == docs.Keys
    ensures n in docs ==> !r[n].isLeader && r[n].(isLeader := docs[n].isLeader) == docs[n]
    ensures forall m :: m in docs && m != n ==> r[m] == docs[m]
  {
    if n in docs then docs[n := docs[n].(isLeader := false)] else docs
  }

  /** RegisterNode: an upsert that leaves `term` as it finds it. */
  function Register(docs: Docs, n: NodeId, profile: Profile, isLeader: bool, seen: Time): Docs {
    docs[n := Doc(isLeader, seen, profile, if n in docs then docs[n].term else 0)]
  }

  /** What GetNodes returns at time `clock`. */
  function Visible(docs: Docs, clock: Time): Docs {
    map n | n in docs && docs[n].lastSeen >= clock - VISIBLE_FOR :: docs[n]
  }

  lemma TwoMembers<T>(s: set<T>, x: T, y: T)
    requires x in s && y in s && x != y
    ensures |s| >= 2
  {
    assert {x, y} <= s;
    assert |s - {x, y}| == |s| - |{x, y}|;
  }
}
