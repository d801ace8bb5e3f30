/** Sums over the lists of the queue, and which delayed entries still have to be pushed. */
module JobSums {
  import opened Jobs
  import opened RedisQueue
  import opened JobSystem

  function Sum(s: seq<Job>, f: Job -> nat): nat {
    if s == [] then 0 else f(s[0]) + Sum(s[1..], f)
  }

  lemma {:induction false} SumAppend(a: seq<Job>, b: seq<Job>, f: Job -> nat)
    ensures Sum(a + b, f) == Sum(a, f) + Sum(b, f)
  {
    if a == [] {
      assert a + b == b;
    } else {
      assert (a + b)[1..] == a[1..] + b;
      SumAppend(a[1..], b, f);
    }
  }

  lemma SumCons(j: Job, s: seq<Job>, f: Job -> nat)
    ensures Sum([j] + s, f) == f(j) + Sum(s, f)
  {
    assert ([j] + s)[1..] == s;
  }

  lemma SumLast(s: seq<Job>, f: Job -> nat)
    requires s != []
    ensures Sum(s, f) == Sum(s[..|s| - 1], f) + f(s[|s| - 1])
  {
    var j := s[|s| - 1];
    assert s == s[..|s| - 1] + [j];
    SumAppend(s[..|s| - 1], [j], f);
    assert [j][1..] == [];
  }

  lemma {:induction false} SumReverse(s: seq<Job>, f: Job -> nat)
    ensures Sum(Reverse(s), f) == Sum(s, f)
  {
    if s != [] {
      SumReverse(s[1..], f);
      SumAppend(Reverse(s[1..]), [s[0]], f);
      assert [s[0]][1..] == [];
    }
  }

  lemma {:induction false} SumInsert(z: seq<Job>, j: Job, f: Job -> nat)
    ensures Sum(Insert(z, j), f) == Sum(z, f) + f(j)
  {
    if z == [] {
      assert [j][1..] == [];
    } else if Score(j) < Score(z[0]) {
      SumCons(j, z, f);
    } else {
      SumInsert(z[1..], j, f);
      SumCons(z[0], Insert(z[1..], j), f);
    }
  }

  lemma {:induction false} SumOfMember(s: seq<Job>, j: Job, f: Job -> nat)
    requires j in s
    ensures f(j) <= Sum(s, f)
  {
    if s[0] != j {
      assert s == [s[0]] + s[1..];
      SumOfMember(s[1..], j, f);
    }
  }

  function OneOf(id: JobId): Job -> nat {
    (j: Job) => if j.id == id then 1 else 0
  }

  lemma {:induction false} CountIff(s: seq<Job>, id: JobId)
    ensures Sum(s, OneOf(id)) > 0 <==> HasId(s, id)
  {
    if s != [] {
      CountIff(s[1..], id);
      assert s == [s[0]] + s[1..];
      if s[0].id == id {
        assert s[0] in s;
      } else if HasId(s, id) {
        var e :| e in s && e.id == id;
        assert e in s[1..];
      }
    }
  }

  lemma {:induction false} CountTwo(s: seq<Job>, x: Job, y: Job)
    requires x in s && y in s && x != y && x.id == y.id
    ensures Sum(s, OneOf(x.id)) >= 2
  {
    assert s == [s[0]] + s[1..];
    if s[0] == x {
      SumOfMember(s[1..], y, OneOf(x.id));
    } else if s[0] == y {
      SumOfMember(s[1..], x, OneOf(x.id));
    } else {
      CountTwo(s[1..], x, y);
    }
  }

  // ---- Delayed entries that no mover has pushed ----------------------------------------------------

  /** A delayed entry that was pushed already only waits for its ZREM. */
  function Unpushed(z: seq<Job>, pushed: seq<Job>): seq<Job> {
    if z == [] then []
    else if z[0] in pushed then Unpushed(z[1..], pushed)
    else [z[0]] + Unpushed(z[1..], pushed)
  }

  function AlreadyPushed(z: seq<Job>, pushed: seq<Job>): seq<Job> {
    if z == [] then []
    else if z[0] in pushed then [z[0]] + AlreadyPushed(z[1..], pushed)
    else AlreadyPushed(z[1..], pushed)
  }

  lemma {:induction false} UnpushedMembers(z: seq<Job>, pushed: seq<Job>)
    ensures forall j :: j in Unpushed(z, pushed) <==> j in z && j !in pushed
    ensures forall j :: j in AlreadyPushed(z, pushed) <==> j in z && j in pushed
  {
    if z != [] {
      assert z == [z[0]] + z[1..];
      UnpushedMembers(z[1..], pushed);
    }
  }

  lemma {:induction false} NonePushed(z: seq<Job>, pushed: seq<Job>)
    requires forall j :: j in z ==> j !in pushed
    ensures AlreadyPushed(z, pushed) == []
  {
    if z != [] {
      assert z[0] in z && forall j :: j in z[1..] ==> j in z;
      NonePushed(z[1..], pushed);
    }
  }

  lemma {:induction false} UnpushedSum(z: seq<Job>, pushed: seq<Job>, f: Job -> nat)
    ensures Sum(Unpushed(z, pushed), f) + Sum(AlreadyPushed(z, pushed), f) == Sum(z, f)
  {
    if z != [] {
      UnpushedSum(z[1..], pushed, f);
      SumCons(z[0], Unpushed(z[1..], pushed), f);
      SumCons(z[0], AlreadyPushed(z[1..], pushed), f);
    }
  }

  /** Only which of its entries are among the pushed ones matters. */
  lemma {:induction false} UnpushedSame(z: seq<Job>, p: seq<Job>, q: seq<Job>)
    requires forall j :: j in z ==> (j in p <==> j in q)
    ensures Unpushed(z, p) == Unpushed(z, q)
  {
    if z != [] {
      assert z[0] in z && forall j :: j in z[1..] ==> j in z;
      UnpushedSame(z[1..], p, q);
    }
  }

  /** Removing an entry that was pushed changes nothing. */
  lemma {:induction false} UnpushedWithout(z: seq<Job>, pushed: seq<Job>, j: Job)
    requires j in pushed
    ensures Unpushed(Without(z, j), pushed) == Unpushed(z, pushed)
  {
    if z != [] && z[0] != j {
      UnpushedWithout(z[1..], pushed, j);
      assert ([z[0]] + Without(z[1..], j))[1..] == Without(z[1..], j);
    }
  }

  /** A first push takes one entry out of account. */
  lemma {:induction false} UnpushedPush(z: seq<Job>, pushed: seq<Job>, j: Job, f: Job -> nat)
    requires Distinct(z) && j in z && j !in pushed
    ensures Sum(Unpushed(z, pushed), f) == Sum(Unpushed(z, pushed + [j]), f) + f(j)
  {
    var t := z[1..];
    assert z == [z[0]] + t;
    DistinctCons(z[0], t);
    if z[0] == j {
      UnpushedSame(t, pushed, pushed + [j]);
      SumCons(j, Unpushed(t, pushed), f);
    } else {
      UnpushedPush(t, pushed, j, f);
      SumCons(z[0], Unpushed(t, pushed), f);
      SumCons(z[0], Unpushed(t, pushed + [j]), f);
    }
  }

  lemma {:induction false} UnpushedInsert(z: seq<Job>, pushed: seq<Job>, j: Job, f: Job -> nat)
    ensures Sum(Unpushed(Insert(z, j), pushed), f) == Sum(Unpushed(z, pushed), f) + if j in pushed then 0 else f(j)
  {
    UnpushedSum(Insert(z, j), pushed, f);
    UnpushedSum(z, pushed, f);
    SumInsert(z, j, f);
    AlreadyPushedInsert(z, pushed, j, f);
  }

  lemma {:induction false} AlreadyPushedInsert(z: seq<Job>, pushed: seq<Job>, j: Job, f: Job -> nat)
    ensures Sum(AlreadyPushed(Insert(z, j), pushed), f)
         == Sum(AlreadyPushed(z, pushed), f) + if j in pushed then f(j) else 0
  {
    if z == [] || Score(j) < Score(z[0]) {
      assert ([j] + z)[1..] == z;
      assert z == [] ==> Insert(z, j) == [j] + z;
      SumCons(j, AlreadyPushed(z, pushed), f);
    } else {
      var t := z[1..];
      AlreadyPushedInsert(t, pushed, j, f);
      assert ([z[0]] + Insert(t, j))[1..] == Insert(t, j);
      SumCons(z[0], AlreadyPushed(t, pushed), f);
      SumCons(z[0], AlreadyPushed(Insert(t, j), pushed), f);
    }
  }

  /** The whole mover pushes every due entry, and the rest stays. */
  lemma {:induction false} UnpushedMove(z: seq<Job>, pushed: seq<Job>, now: Time, f: Job -> nat)
    ensures Sum(Unpushed(z, pushed), f)
         == Sum(Unpushed(Due(z, now), pushed), f) + Sum(Unpushed(NotDue(z, now), pushed), f)
  {
    if z != [] {
      var t := z[1..];
      UnpushedMove(t, pushed, now, f);
      SumCons(z[0], Unpushed(t, pushed), f);
      SumCons(z[0], Unpushed(Due(t, now), pushed), f);
      SumCons(z[0], Unpushed(NotDue(t, now), pushed), f);
      assert ([z[0]] + Due(t, now))[1..] == Due(t, now) && ([z[0]] + NotDue(t, now))[1..] == NotDue(t, now);
    }
  }

  // ---- What waits ------------------------------------------------------------------------------------

  /** The jobs that wait to be taken, each counted once while a mover handles it. */
  function Waiting(s: System, f: Job -> nat): nat {
    Sum(s.store.ready, f) + Sum(Unpushed(s.store.delayed, s.pushed), f)
  }

  /** The entries that a step pushes although they were pushed before. */
  function Repushed(s: System, a: Action): seq<Job>
    requires Enabled(s, a)
  {
    match a
    case MoveOne(w) =>
      var j := s.workers[w].due[0];
      if !s.workers[w].dropNext && j in s.pushed then [j] else []
    case MoveAll(w) => AlreadyPushed(Due(s.store.delayed, s.clock), s.pushed)
    case _ => []
  }

  lemma PushWaits(s: System, w: nat, f: Job -> nat)
    requires Enabled(s, MoveOne(w)) && !s.workers[w].dropNext && Distinct(s.store.delayed)
    requires s.workers[w].due[0] in s.store.delayed || s.workers[w].due[0] in s.pushed
    ensures Waiting(Apply(s, MoveOne(w)), f) == Waiting(s, f) + Sum(Repushed(s, MoveOne(w)), f)
  {
    var j := s.workers[w].due[0];
    SumCons(j, s.store.ready, f);
    assert [j][1..] == [];
    if j in s.pushed {
      UnpushedSame(s.store.delayed, s.pushed, s.pushed + [j]);
      assert Repushed(s, MoveOne(w)) == [j];
    } else {
      UnpushedPush(s.store.delayed, s.pushed, j, f);
    }
  }

  lemma DropWaits(s: System, w: nat, f: Job -> nat)
    requires Enabled(s, MoveOne(w)) && s.workers[w].dropNext && s.workers[w].due[0] in s.pushed
    ensures Waiting(Apply(s, MoveOne(w)), f) == Waiting(s, f)
  {
    UnpushedWithout(s.store.delayed, s.pushed, s.workers[w].due[0]);
  }

  lemma MoveWaits(s: System, w: nat, f: Job -> nat)
    requires Enabled(s, MoveAll(w)) && Distinct(s.store.delayed)
    ensures Waiting(Apply(s, MoveAll(w)), f) == Waiting(s, f) + Sum(Repushed(s, MoveAll(w)), f)
  {
    var z, now := s.store.delayed, s.clock;
    DueMembers(z, now);
    UnpushedMove(z, s.pushed, now, f);
    UnpushedSum(Due(z, now), s.pushed, f);
    UnpushedSame(NotDue(z, now), s.pushed, s.pushed + Due(z, now));
    SumReverse(Due(z, now), f);
    SumAppend(Reverse(Due(z, now)), s.store.ready, f);
  }

  /** A submitted or retried job adds itself, unless its bytes are there already. */
  lemma QueuedWaits(s: System, j: Job, f: Job -> nat)
    requires Distinct(s.store.delayed)
    ensures Waiting(Queued(s, j), f) <= Waiting(s, f) + f(j)
    ensures j !in s.pushed && j !in s.store.delayed ==> Waiting(Queued(s, j), f) == Waiting(s, f) + f(j)
  {
    var z := s.store.delayed;
    if j.scheduledAt > s.clock {
      if j !in z {
        UnpushedInsert(z, s.pushed, j, f);
      }
    } else {
      SumCons(j, s.store.ready, f);
      if j in z && j !in s.pushed {
        UnpushedPush(z, s.pushed, j, f);
      } else {
        UnpushedSame(z, s.pushed, s.pushed + [j]);
      }
    }
  }

  lemma TakeWaits(s: System, w: nat, f: Job -> nat)
    requires Enabled(s, Take(w)) && s.store.ready != []
    ensures Waiting(Apply(s, Take(w)), f) + f(s.store.ready[|s.store.ready| - 1]) == Waiting(s, f)
  {
    SumLast(s.store.ready, f);
  }

  /** A retry is a push by a worker that rests. */
  lemma RetryState(s: System, w: nat)
    requires Enabled(s, Leave(w)) && s.workers[w].ending.ToRetry?
    ensures var t, q := Apply(s, Leave(w)), Queued(With(s, w, Resting), s.workers[w].job);
      t == q.(retries := s.retries + 1) && t.workers == s.workers[w := Resting]
      && t.store.completed == s.store.completed && t.store.failed == s.store.failed
  {
  }

  lemma EndState(s: System, w: nat)
    requires Enabled(s, Leave(w)) && !s.workers[w].ending.ToRetry?
    ensures var t := Apply(s, Leave(w));
      && t.workers == s.workers[w := Resting] && t.counts == s.counts && t.retries == s.retries
      && |t.store.completed| + |t.store.failed| == |s.store.completed| + |s.store.failed| + 1
  {
  }

  // ---- Hands -----------------------------------------------------------------------------------------

  function HandSum(ws: seq<Phase>, h: Phase -> nat): nat {
    if ws == [] then 0 else h(ws[0]) + HandSum(ws[1..], h)
  }

  /** Replacing one worker's phase exchanges its own share. */
  lemma {:induction false} HandUpdate(ws: seq<Phase>, w: nat, p: Phase, h: Phase -> nat)
    requires w < |ws|
    ensures HandSum(ws[w := p], h) + h(ws[w]) == HandSum(ws, h) + h(p)
  {
    if w == 0 {
      assert ws[w := p][1..] == ws[1..];
    } else {
      assert ws[w := p][1..] == ws[1..][w - 1 := p];
      HandUpdate(ws[1..], w - 1, p, h);
    }
  }

  lemma {:induction false} HandOfWorker(ws: seq<Phase>, w: nat, h: Phase -> nat)
    requires w < |ws|
    ensures h(ws[w]) <= HandSum(ws, h)
  {
    if w > 0 {
      HandOfWorker(ws[1..], w - 1, h);
    }
  }
}
