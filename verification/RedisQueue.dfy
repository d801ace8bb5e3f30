/** The five Redis structures of the queue and the operations on them. Index 0 is the left end of a
    list; the sorted set is listed by score. */
module RedisQueue {
  import opened Wrappers
  import opened Jobs

  datatype Store = Store(
    ready: seq<Job>, delayed: seq<Job>, processing: seq<Job>, completed: seq<Job>, failed: seq<Job>)

  const EMPTY := Store([], [], [], [], [])

  function Score(j: Job): int {
    Unix(j.scheduledAt)
  }

  /** ZADD of a member that is not there yet. */
  function Insert(z: seq<Job>, j: Job): seq<Job> {
    if z == [] then [j]
    else if Score(j) < Score(z[0]) then [j] + z
    else [z[0]] + Insert(z[1..], j)
  }

  function ZAdd(z: seq<Job>, j: Job): seq<Job> {
    if j in z then z else Insert(z, j)
  }

  /** LREM with count 1, and ZREM: drop the first entry that matches. */
  function Without(s: seq<Job>, j: Job): seq<Job> {
    if s == [] then [] else if s[0] == j then s[1..] else [s[0]] + Without(s[1..], j)
  }

  /** What LREM would do if it compared job ids. */
  function WithoutId(s: seq<Job>, id: JobId): seq<Job> {
    if s == [] then [] else if s[0].id == id then s[1..] else [s[0]] + WithoutId(s[1..], id)
  }

  predicate IsDue(j: Job, now: Time) {
    0 <= Score(j) <= Unix(now)
  }

  /** ZRANGEBYSCORE from 0 to the current second. */
  function Due(z: seq<Job>, now: Time): seq<Job> {
    if z == [] then [] else if IsDue(z[0], now) then [z[0]] + Due(z[1..], now) else Due(z[1..], now)
  }

  function NotDue(z: seq<Job>, now: Time): seq<Job> {
    if z == [] then [] else if IsDue(z[0], now) then NotDue(z[1..], now) else [z[0]] + NotDue(z[1..], now)
  }

  function Reverse(s: seq<Job>): seq<Job> {
    if s == [] then [] else Reverse(s[1..]) + [s[0]]
  }

  predicate Sorted(z: seq<Job>) {
    forall i, k :: 0 <= i < k < |z| ==> Score(z[i]) <= Score(z[k])
  }

  predicate Distinct(z: seq<Job>) {
    forall i, k :: 0 <= i < k < |z| ==> z[i] != z[k]
  }

  /** Push routes by the schedule alone. */
  function Pushed(s: Store, j: Job, now: Time): Store {
    if j.scheduledAt > now then s.(delayed := ZAdd(s.delayed, j)) else s.(ready := [j] + s.ready)
  }

  /** moveDelayedJobs, undisturbed. */
  function Moved(s: Store, now: Time): Store {
    s.(ready := Reverse(Due(s.delayed, now)) + s.ready, delayed := NotDue(s.delayed, now))
  }

  lemma {:induction false} ReverseAppend(a: seq<Job>, b: seq<Job>)
    ensures Reverse(a + b) == Reverse(b) + Reverse(a)
  {
    if a == [] {
      assert a + b == b;
    } else {
      assert (a + b)[1..] == a[1..] + b;
      ReverseAppend(a[1..], b);
    }
  }

  lemma {:induction false} ReverseTwice(a: seq<Job>)
    ensures Reverse(Reverse(a)) == a && |Reverse(a)| == |a|
  {
    if a != [] {
      ReverseTwice(a[1..]);
      ReverseAppend(Reverse(a[1..]), [a[0]]);
      assert Reverse([a[0]]) == [a[0]];
    }
  }

  lemma {:induction false} DueMembers(z: seq<Job>, now: Time)
    ensures forall j :: j in Due(z, now) <==> j in z && IsDue(j, now)
    ensures forall j :: j in NotDue(z, now) <==> j in z && !IsDue(j, now)
  {
    if z != [] {
      DueMembers(z[1..], now);
    }
  }

  lemma OrderCons(h: Job, t: seq<Job>)
    requires Sorted(t) && forall j :: j in t ==> Score(h) <= Score(j)
    ensures Sorted([h] + t)
  {
  }

  lemma {:induction false} DueOrder(z: seq<Job>, now: Time)
    requires Sorted(z)
    ensures Sorted(Due(z, now)) && Sorted(NotDue(z, now))
  {
    if z != [] {
      DueOrder(z[1..], now);
      DueMembers(z[1..], now);
      assert forall j :: j in z[1..] ==> Score(z[0]) <= Score(j);
      if IsDue(z[0], now) {
        OrderCons(z[0], Due(z[1..], now));
      } else {
        OrderCons(z[0], NotDue(z[1..], now));
      }
    }
  }

  lemma {:induction false} InsertMembers(z: seq<Job>, j: Job)
    ensures forall k :: k in Insert(z, j) <==> k in z || k == j
  {
    if z != [] && Score(j) >= Score(z[0]) {
      InsertMembers(z[1..], j);
      assert z == [z[0]] + z[1..];
    }
  }

  lemma {:induction false} InsertOrder(z: seq<Job>, j: Job)
    requires Sorted(z)
    ensures Sorted(Insert(z, j))
  {
    if z != [] && Score(j) >= Score(z[0]) {
      InsertOrder(z[1..], j);
      InsertMembers(z[1..], j);
      assert forall k :: k in z[1..] ==> Score(z[0]) <= Score(k);
      OrderCons(z[0], Insert(z[1..], j));
    }
  }

  lemma DistinctCons(h: Job, t: seq<Job>)
    ensures Distinct([h] + t) <==> Distinct(t) && h !in t
  {
    var s := [h] + t;
    if Distinct(s) {
      forall i, k | 0 <= i < k < |t| ensures t[i] != t[k] {
        assert s[i + 1] != s[k + 1];
      }
      forall k | 0 <= k < |t| ensures t[k] != h {
        assert s[0] != s[k + 1];
      }
    }
  }

  /** Where a new member lands: after every member whose score is not larger. */
  lemma {:induction false} InsertAt(z: seq<Job>, j: Job, i: nat)
    requires i <= |z| && forall k :: 0 <= k < i ==> Score(z[k]) <= Score(j)
    requires i < |z| ==> Score(j) < Score(z[i])
    ensures Insert(z, j) == z[..i] + [j] + z[i..]
  {
    if i > 0 {
      InsertAt(z[1..], j, i - 1);
      assert z[..i] == [z[0]] + z[1..][..i - 1] && z[1..][i - 1..] == z[i..];
    }
  }

  /** In a set, removing drops the one copy; in a list without the value, it drops nothing. */
  lemma {:induction false} WithoutMembers(s: seq<Job>, j: Job)
    ensures forall k :: k != j ==> (k in Without(s, j) <==> k in s)
    ensures j !in s ==> Without(s, j) == s
    ensures forall k :: k in Without(s, j) ==> k in s
  {
    if s != [] && s[0] != j {
      WithoutMembers(s[1..], j);
      assert s == [s[0]] + s[1..];
    }
  }

  lemma {:induction false} WithoutDistinct(s: seq<Job>, j: Job)
    requires Distinct(s)
    ensures Distinct(Without(s, j)) && j !in Without(s, j)
  {
    if s != [] {
      assert s == [s[0]] + s[1..];
      DistinctCons(s[0], s[1..]);
      if s[0] != j {
        WithoutDistinct(s[1..], j);
        WithoutMembers(s[1..], j);
        DistinctCons(s[0], Without(s[1..], j));
      }
    }
  }

  lemma {:induction false} WithoutOrder(s: seq<Job>, j: Job)
    requires Sorted(s)
    ensures Sorted(Without(s, j))
  {
    if s != [] && s[0] != j {
      WithoutOrder(s[1..], j);
      WithoutMembers(s[1..], j);
      assert forall k :: k in s[1..] ==> Score(s[0]) <= Score(k);
    }
  }

  /** The mover's loop on a prefix of the snapshot: the rest of the set keeps its order. */
  lemma {:induction false} WithoutDue(z: seq<Job>, now: Time)
    requires Due(z, now) != [] && Distinct(z)
    ensures var rest := Without(z, Due(z, now)[0]);
      Due(rest, now) == Due(z, now)[1..] && NotDue(rest, now) == NotDue(z, now) && Distinct(rest)
  {
    WithoutDistinct(z, Due(z, now)[0]);
    if !IsDue(z[0], now) {
      DueMembers(z[1..], now);
      assert Due(z, now)[0] in Due(z[1..], now);
      WithoutDue(z[1..], now);
      assert Without(z, Due(z, now)[0]) == [z[0]] + Without(z[1..], Due(z, now)[0]);
    }
  }

  /** `t` is `s` without its first entry that matches, if there is one. */
  ghost predicate Dropped(s: seq<Job>, j: Job, t: seq<Job>) {
    if j in s then exists i :: 0 <= i < |s| && s[i] == j && j !in s[..i] && t == s[..i] + s[i + 1..] else t == s
  }

  lemma {:induction false} FirstAt(s: seq<Job>, j: Job) returns (i: nat)
    requires j in s
    ensures i < |s| && s[i] == j && j !in s[..i]
  {
    i := 0;
    while s[i] != j
      invariant i < |s| && j !in s[..i]
      decreases |s| - i
    {
      assert s[..i + 1] == s[..i] + [s[i]] && s == s[..i + 1] + s[i + 1..];
      i := i + 1;
    }
  }

  lemma {:induction false} WithoutAt(s: seq<Job>, j: Job, i: nat)
    requires i < |s| && s[i] == j && j !in s[..i]
    ensures Without(s, j) == s[..i] + s[i + 1..]
  {
    if i > 0 {
      assert s[..i] == [s[0]] + s[1..][..i - 1] && s[1..][i..] == s[i + 1..];
      WithoutAt(s[1..], j, i - 1);
    }
  }

  lemma WithoutDrops(s: seq<Job>, j: Job)
    ensures Dropped(s, j, Without(s, j))
  {
    if j in s {
      var i := FirstAt(s, j);
      WithoutAt(s, j, i);
    } else {
      WithoutMembers(s, j);
    }
  }

  /** A set without due entries is left as it is. */
  lemma NoneDue(z: seq<Job>, now: Time)
    requires Due(z, now) == []
    ensures NotDue(z, now) == z
  {
  }

  // ---- Operations that may fail --------------------------------------------------------------------

  /** The queue after the first `sent` commands of a pipeline over the snapshot `jobs`: LPUSH before ZREM
      for each entry. */
  function Carried(s: Store, jobs: seq<Job>, sent: nat): Store
    decreases |jobs|
  {
    if jobs == [] || sent == 0 then s
    else
      var pushed := s.(ready := [jobs[0]] + s.ready);
      if sent == 1 then pushed
      else Carried(pushed.(delayed := Without(s.delayed, jobs[0])), jobs[1..], sent - 2)
  }

  /** The mover: the read may fail, and the pipeline may break off. */
  function MovedPart(s: Store, now: Time, read: bool, sent: nat): Store {
    if read then Carried(s, Due(s.delayed, now), sent) else s
  }

  /** A pipeline that runs to its end moves exactly the due jobs, in the order of their scores. */
  lemma {:induction false} CarriedAll(s: Store, now: Time, sent: nat)
    requires Distinct(s.delayed) && sent >= 2 * |Due(s.delayed, now)|
    ensures MovedPart(s, now, true, sent) == Moved(s, now)
    decreases |s.delayed|
  {
    var jobs := Due(s.delayed, now);
    if jobs == [] {
      NoneDue(s.delayed, now);
      assert Reverse(jobs) + s.ready == s.ready;
    } else {
      var t := s.(ready := [jobs[0]] + s.ready, delayed := Without(s.delayed, jobs[0]));
      WithoutDue(s.delayed, now);
      DueMembers(s.delayed, now);
      assert jobs[0] in jobs;
      WithoutShorter(s.delayed, jobs[0]);
      CarriedAll(t, now, sent - 2);
      assert Reverse(jobs) + s.ready == Reverse(jobs[1..]) + t.ready;
    }
  }

  /** However far it gets, the pipeline keeps every job: it is on the ready list or still delayed. */
  lemma {:induction false} CarriedKeeps(s: Store, jobs: seq<Job>, sent: nat, j: Job)
    requires j in s.ready || j in s.delayed
    ensures var t := Carried(s, jobs, sent); j in t.ready || j in t.delayed
    decreases |jobs|
  {
    if jobs != [] && sent > 1 {
      var pushed := s.(ready := [jobs[0]] + s.ready, delayed := Without(s.delayed, jobs[0]));
      WithoutMembers(s.delayed, jobs[0]);
      CarriedKeeps(pushed, jobs[1..], sent - 2, j);
    }
  }

  lemma {:induction false} CarriedInOrder(s: Store, jobs: seq<Job>, sent: nat)
    requires Sorted(s.delayed) && Distinct(s.delayed)
    ensures var t := Carried(s, jobs, sent); Sorted(t.delayed) && Distinct(t.delayed)
    ensures var t := Carried(s, jobs, sent);
      t.processing == s.processing && t.completed == s.completed && t.failed == s.failed
    decreases |jobs|
  {
    if jobs != [] && sent > 1 {
      WithoutOrder(s.delayed, jobs[0]);
      WithoutDistinct(s.delayed, jobs[0]);
      CarriedInOrder(s.(ready := [jobs[0]] + s.ready, delayed := Without(s.delayed, jobs[0])), jobs[1..], sent - 2);
    }
  }

  lemma {:induction false} WithoutShorter(z: seq<Job>, j: Job)
    requires j in z
    ensures |Without(z, j)| == |z| - 1
  {
    if z[0] != j {
      WithoutShorter(z[1..], j);
    }
  }

  function Least(x: nat, y: nat): nat {
    if x <= y then x else y
  }

  /** The entries pushed are the first ones of the snapshot, newest first. */
  lemma {:induction false} CarriedReady(s: Store, jobs: seq<Job>, sent: nat)
    ensures Carried(s, jobs, sent).ready == Reverse(jobs[..Least((sent + 1) / 2, |jobs|)]) + s.ready
    decreases |jobs|
  {
    var p := Least((sent + 1) / 2, |jobs|);
    if p == 0 {
      assert jobs[..p] == [];
    } else if sent == 1 {
      assert jobs[..1] == [jobs[0]] && Reverse([jobs[0]]) == [jobs[0]];
    } else {
      var u := s.(ready := [jobs[0]] + s.ready, delayed := Without(s.delayed, jobs[0]));
      CarriedReady(u, jobs[1..], sent - 2);
      assert jobs[..p][1..] == jobs[1..][..p - 1] && jobs[..p][0] == jobs[0];
      assert Reverse(jobs[..p]) + s.ready == Reverse(jobs[1..][..p - 1]) + u.ready;
    }
  }

  /** The entries dropped are those whose ZREM got through too. */
  lemma {:induction false} CarriedDelayed(s: Store, jobs: seq<Job>, sent: nat)
    requires Distinct(s.delayed)
    ensures forall j :: j in Carried(s, jobs, sent).delayed <==>
      j in s.delayed && j !in jobs[..Least(sent / 2, |jobs|)]
    decreases |jobs|
  {
    var q := Least(sent / 2, |jobs|);
    if q > 0 {
      var u := s.(ready := [jobs[0]] + s.ready, delayed := Without(s.delayed, jobs[0]));
      WithoutDistinct(s.delayed, jobs[0]);
      WithoutMembers(s.delayed, jobs[0]);
      CarriedDelayed(u, jobs[1..], sent - 2);
      assert jobs[..q] == [jobs[0]] + jobs[1..][..q - 1];
    }
  }

  /** What BRPOP, and the LPUSH to the processing list that follows an answer, leave. */
  function TakenFrom(s: Store, pop: Reply, note: Reply): Store {
    if s.ready == [] || pop.Lost? then s
    else
      var j := s.ready[|s.ready| - 1];
      var t := s.(ready := s.ready[..|s.ready| - 1]);
      if pop.Done? && !note.Lost? then t.(processing := [j] + t.processing) else t
  }

  /** By what BRPOP and the note do. */
  lemma TakenFromExactly(s: Store, t: Store, pop: Reply, note: Reply)
    requires t.delayed == s.delayed && t.completed == s.completed && t.failed == s.failed
    requires s.ready == [] || pop.Lost? ==> t.ready == s.ready && t.processing == s.processing
    requires s.ready != [] && !pop.Lost? ==>
      exists j ::
        && s.ready == t.ready + [j]
        && t.processing == if pop.Done? && !note.Lost? then [j] + s.processing else s.processing
    ensures t == TakenFrom(s, pop, note)
  {
    if s.ready != [] && !pop.Lost? {
      var j :| s.ready == t.ready + [j]
        && t.processing == if pop.Done? && !note.Lost? then [j] + s.processing else s.processing;
      assert t.ready == s.ready[..|s.ready| - 1] && j == s.ready[|s.ready| - 1];
    }
  }

  class RedisClient {
    var ready: seq<Job>
    var delayed: seq<Job>
    var processing: seq<Job>
    var completed: seq<Job>
    var failed: seq<Job>

    function Contents(): Store
      reads this
    {
      Store(ready, delayed, processing, completed, failed)
    }

    /** The sorted set holds each member once and lists it by score. */
    predicate Valid()
      reads this
    {
      Sorted(delayed) && Distinct(delayed)
    }

    constructor ()
      ensures Valid() && Contents() == EMPTY
    {
      ready, delayed, processing, completed, failed := [], [], [], [], [];
    }

    /** ZADD: walk past the members whose score is not larger. */
    method ZAddDelayed(j: Job)
      requires Valid()
      modifies this`delayed
      ensures Valid() && delayed == ZAdd(old(delayed), j)
      ensures forall k :: k in delayed <==> k in old(delayed) || k == j
    {
      if j !in delayed {
        InsertOrder(delayed, j);
        InsertMembers(delayed, j);
        InsertDistinct(delayed, j);
        var i := 0;
        while i < |delayed| && Score(delayed[i]) <= Score(j)
          invariant 0 <= i <= |delayed|
          invariant forall k :: 0 <= k < i ==> Score(delayed[k]) <= Score(j)
        {
          i := i + 1;
        }
        InsertAt(delayed, j, i);
        delayed := delayed[..i] + [j] + delayed[i..];
      }
    }

    method Push(j: Job, now: Time, write: Reply) returns (done: bool)
      requires Valid()
      modifies this
      ensures Valid() && (done <==> write.Done?)
      ensures processing == old(processing) && completed == old(completed) && failed == old(failed)
      ensures write.Lost? ==> ready == old(ready) && delayed == old(delayed)
      ensures !write.Lost? && j.scheduledAt <= now ==> ready == [j] + old(ready) && delayed == old(delayed)
      ensures !write.Lost? && j.scheduledAt > now ==>
        && ready == old(ready) && delayed == ZAdd(old(delayed), j)
        && forall k :: k in delayed <==> k in old(delayed) || k == j
    {
      if !write.Lost? {
        if j.scheduledAt > now {
          ZAddDelayed(j);
        } else {
          ready := [j] + ready;
        }
      }
      return write.Done?;
    }

    /** The pipeline, command by command, as far as it gets: the first due jobs, by score, are pushed, and
        all of these but perhaps the last one leave the sorted set. */
    method MoveDelayedJobs(now: Time, read: bool, sent: nat)
      requires Valid()
      modifies this
      ensures Valid() && Contents() == MovedPart(old(Contents()), now, read, sent)
      ensures processing == old(processing) && completed == old(completed) && failed == old(failed)
      ensures !read ==> ready == old(ready) && delayed == old(delayed)
      ensures read ==>
        var due := Due(old(delayed), now);
        && ready == Reverse(due[..Least((sent + 1) / 2, |due|)]) + old(ready)
        && forall j :: j in delayed <==> j in old(delayed) && j !in due[..Least(sent / 2, |due|)]
    {
      if !read {
        return;
      }
      var jobs := Due(delayed, now);
      CarriedInOrder(Contents(), jobs, sent);
      CarriedReady(Contents(), jobs, sent);
      CarriedDelayed(Contents(), jobs, sent);
      var i, left := 0, sent;
      while i < |jobs| && left > 0
        invariant 0 <= i <= |jobs| && 0 <= left
        invariant Carried(Contents(), jobs[i..], left) == Carried(old(Contents()), jobs, sent)
      {
        assert jobs[i..][1..] == jobs[i + 1..];
        ready := [jobs[i]] + ready;
        if left > 1 {
          delayed := Without(delayed, jobs[i]);
        }
        i, left := if left > 1 then i + 1 else |jobs|, if left > 1 then left - 2 else 0;
      }
      assert Carried(Contents(), jobs[i..], left) == Contents();
    }

    /** Move the due jobs, take the oldest ready one, and note it in the processing list. A failing mover
        or note is ignored; without an answer to BRPOP the caller gets an error, and the oldest ready job, if
        there is one, is gone. */
    method Pop(now: Time, read: bool, sent: nat, pop: Reply, note: Reply) returns (r: Option<Job>, ok: bool)
      requires Valid()
      modifies this
      ensures Valid() && (ok <==> pop.Done?)
      ensures var moved := MovedPart(old(Contents()), now, read, sent);
        && delayed == moved.delayed
        && completed == moved.completed == old(completed) && failed == moved.failed == old(failed)
        && (r.Some? <==> ok && moved.ready != [])
        && (r.Some? ==> moved.ready == ready + [r.value])
        && (pop.Unanswered? && moved.ready != [] ==> exists lost :: moved.ready == ready + [lost])
        && (pop.Lost? || moved.ready == [] ==> ready == moved.ready)
        && processing == (if r.Some? && !note.Lost? then [r.value] + old(processing) else old(processing))
        && moved.processing == old(processing)
    {
      MoveDelayedJobs(now, read, sent);
      assert ready != [] ==> ready == ready[..|ready| - 1] + [ready[|ready| - 1]];
      if |ready| == 0 || pop.Lost? {
        return None, pop.Done?;
      }
      var j := ready[|ready| - 1];
      ready := ready[..|ready| - 1];
      if !pop.Done? {
        return None, false;
      }
      if !note.Lost? {
        processing := [j] + processing;
      }
      return Some(j), true;
    }

    /** LREM of the whole serialised job: at most one entry goes, and only an identical one. */
    method RemoveFromProcessing(j: Job, removal: Reply) returns (done: bool)
      modifies this`processing
      ensures done <==> removal.Done?
      ensures if removal.Lost? then processing == old(processing) else Dropped(old(processing), j, processing)
      ensures processing == if removal.Lost? then old(processing) else Without(old(processing), j)
    {
      WithoutDrops(processing, j);
      if !removal.Lost? {
        processing := Without(processing, j);
      }
      return removal.Done?;
    }

    /** The finished list is written only after an answered removal. */
    method Complete(j: Job, removal: Reply, write: Reply) returns (done: bool)
      requires Valid()
      modifies this
      ensures Valid() && (done <==> removal.Done? && write.Done?)
      ensures completed == if removal.Done? && !write.Lost? then [j] + old(completed) else old(completed)
      ensures ready == old(ready) && delayed == old(delayed) && failed == old(failed)
      ensures processing == if removal.Lost? then old(processing) else Without(old(processing), j)
    {
      done := RemoveFromProcessing(j, removal);
      if done {
        if !write.Lost? {
          completed := [j] + completed;
        }
        done := write.Done?;
      }
    }

    method Fail(j: Job, removal: Reply, write: Reply) returns (done: bool)
      requires Valid()
      modifies this
      ensures Valid() && (done <==> removal.Done? && write.Done?)
      ensures failed == if removal.Done? && !write.Lost? then [j] + old(failed) else old(failed)
      ensures ready == old(ready) && delayed == old(delayed) && completed == old(completed)
      ensures processing == if removal.Lost? then old(processing) else Without(old(processing), j)
    {
      done := RemoveFromProcessing(j, removal);
      if done {
        if !write.Lost? {
          failed := [j] + failed;
        }
        done := write.Done?;
      }
    }

    /** The job comes back with its new schedule, computed after the removal, and otherwise as it is: into the
        sorted set if that lies beyond a later clock reading, and to the head of the ready list if not. */
    method Retry(j: Job, delay: Time, removedAt: Time, pushedAt: Time, removal: Reply, write: Reply)
      returns (done: bool)
      requires Valid()
      modifies this
      ensures Valid() && (done <==> removal.Done? && write.Done?)
      ensures processing == if removal.Lost? then old(processing) else Without(old(processing), j)
      ensures completed == old(completed) && failed == old(failed)
      ensures !removal.Done? || write.Lost? ==> ready == old(ready) && delayed == old(delayed)
      ensures removal.Done? && !write.Lost? ==>
        var again := j.(scheduledAt := removedAt + delay);
        if removedAt + delay > pushedAt
        then ready == old(ready) && delayed == ZAdd(old(delayed), again) && again in delayed
        else ready == [again] + old(ready) && delayed == old(delayed)
    {
      done := RemoveFromProcessing(j, removal);
      if done {
        done := Push(j.(scheduledAt := removedAt + delay), pushedAt, write);
      }
    }
  }

  lemma {:induction false} InsertDistinct(z: seq<Job>, j: Job)
    requires Distinct(z) && j !in z
    ensures Distinct(Insert(z, j))
  {
    if z != [] && Score(j) >= Score(z[0]) {
      InsertDistinct(z[1..], j);
      InsertMembers(z[1..], j);
      assert z == [z[0]] + z[1..];
      DistinctCons(z[0], z[1..]);
      DistinctCons(z[0], Insert(z[1..], j));
    } else {
      DistinctCons(j, z);
      assert z == [] ==> [j] + z == [j];
    }
  }
}
