/** Merging member lists: the newest record of each member stays, and exactly when the order and the
    repetition of what arrives do not matter. */
module GossipMerge {
  import opened Registry
  import opened GossipTable

  /** A record without the address, which a merge never overwrites. */
  function Core(m: Member): Member {
    m.(address := "")
  }

  /** A record of `id` that the table held or some list brought. */
  ghost predicate Source(v: View, list: seq<Entry>, id: NodeId, m: Member) {
    (id in v && v[id] == m) || Entry(id, m) in list
  }

  /** `m` carries a record of `id` of the highest incarnation that was ever held or heard. */
  ghost predicate Newest(v: View, list: seq<Entry>, id: NodeId, m: Member) {
    && (exists n :: Source(v, list, id, n) && Core(n) == Core(m))
    && (forall n :: Source(v, list, id, n) ==> n.incarnation <= m.incarnation)
  }

  lemma MergeStep(v: View, self: NodeId, e: Entry, rest: seq<Entry>, id: NodeId, m: Member)
    requires id != self && id in MergeOne(v, self, e)
    requires Newest(MergeOne(v, self, e), rest, id, m)
    ensures Newest(v, [e] + rest, id, m)
  {
    var w := MergeOne(v, self, e);
    forall n | Source(v, [e] + rest, id, n) ensures n.incarnation <= m.incarnation {
      if Entry(id, n) in rest {
        assert Source(w, rest, id, n);
      } else {
        assert Source(w, rest, id, w[id]);
        assert n.incarnation <= w[id].incarnation;
      }
    }
    var n :| Source(w, rest, id, n) && Core(n) == Core(m);
    if Entry(id, n) in rest {
      assert Entry(id, n) in [e] + rest;
      assert Source(v, [e] + rest, id, n);
    } else if id in v && Core(v[id]) == Core(n) {
      assert Source(v, [e] + rest, id, v[id]);
    } else {
      assert e in [e] + rest && e == Entry(id, e.member);
      assert Source(v, [e] + rest, id, e.member);
    }
  }

  /** Whatever arrives in whatever order, the table ends with exactly the ids held or heard, each with
      its newest record; the node's own record is untouched. */
  lemma {:induction false} MergeKeepsNewest(v: View, self: NodeId, list: seq<Entry>)
    ensures var r := Merge(v, self, list);
      && (self in r <==> self in v) && (self in v ==> r[self] == v[self])
      && forall id :: id != self ==>
        && (id in r <==> exists m :: Source(v, list, id, m))
        && (id in r ==> Newest(v, list, id, r[id]))
    decreases |list|
  {
    var r := Merge(v, self, list);
    if list == [] {
      forall id | id != self
        ensures (id in r <==> exists m :: Source(v, list, id, m)) && (id in r ==> Newest(v, list, id, r[id]))
      {
        if id in v {
          assert Source(v, list, id, v[id]);
        }
      }
    } else {
      var e, rest := list[0], list[1..];
      assert list == [e] + rest;
      var w := MergeOne(v, self, e);
      MergeKeepsNewest(w, self, rest);
      forall id | id != self
        ensures (id in r <==> exists m :: Source(v, list, id, m)) && (id in r ==> Newest(v, list, id, r[id]))
      {
        SourcesAgree(v, self, e, rest, id);
        if id in r {
          if id in w {
            MergeStep(v, self, e, rest, id, r[id]);
          } else {
            NewcomerStep(v, self, e, rest, id, r[id]);
          }
        }
      }
    }
  }

  lemma SourcesAgree(v: View, self: NodeId, e: Entry, rest: seq<Entry>, id: NodeId)
    requires id != self
    ensures (exists m :: Source(v, [e] + rest, id, m)) <==> exists m :: Source(MergeOne(v, self, e), rest, id, m)
  {
    var w := MergeOne(v, self, e);
    if m :| Source(v, [e] + rest, id, m) {
      if Entry(id, m) in rest {
        assert Source(w, rest, id, m);
      } else {
        assert id in w;
        assert Source(w, rest, id, w[id]);
      }
    }
    if m :| Source(w, rest, id, m) {
      if Entry(id, m) in rest {
        assert Source(v, [e] + rest, id, m);
      } else if id in v {
        assert Source(v, [e] + rest, id, v[id]);
      } else {
        assert e == Entry(id, e.member);
        assert Source(v, [e] + rest, id, e.member);
      }
    }
  }

  /** An id that the first entry does not concern. */
  lemma NewcomerStep(v: View, self: NodeId, e: Entry, rest: seq<Entry>, id: NodeId, m: Member)
    requires id != self && id !in MergeOne(v, self, e)
    requires Newest(MergeOne(v, self, e), rest, id, m)
    ensures Newest(v, [e] + rest, id, m)
  {
    var w := MergeOne(v, self, e);
    assert e.id != id && id !in v;
    forall n ensures Source(v, [e] + rest, id, n) <==> Source(w, rest, id, n) {
    }
  }

  /** Two tables that differ at most in addresses. */
  predicate SameView(a: View, b: View) {
    a.Keys == b.Keys && forall id :: id in a ==> Core(a[id]) == Core(b[id])
  }

  // ---- When the order of arrival does not matter ---------------------------------------------------

  predicate Exceeds(v: View, id: NodeId, m: Member) {
    id in v ==> v[id].incarnation < m.incarnation
  }

  /** A record in the list that the merge can put into the table: nothing exceeds it. */
  ghost predicate Peak(v: View, list: seq<Entry>, id: NodeId, m: Member) {
    && Entry(id, m) in list && Exceeds(v, id, m)
    && forall n :: Entry(id, n) in list ==> n.incarnation <= m.incarnation
  }

  /** What the table holds of an id is what it held, or a peak of the list, but for the address. */
  ghost predicate Explained(v: View, list: seq<Entry>, id: NodeId, r: View) {
    if exists m :: Peak(v, list, id, m)
    then id in r && exists m :: Peak(v, list, id, m) && Core(m) == Core(r[id])
    else (id in r <==> id in v) && (id in v ==> r[id] == v[id])
  }

  lemma {:induction false} SomePeak(v: View, list: seq<Entry>, id: NodeId, m: Member)
    requires Entry(id, m) in list && Exceeds(v, id, m)
    ensures exists n :: Peak(v, list, id, n)
  {
    var e, rest := list[0], list[1..];
    assert list == [e] + rest;
    if n :| Entry(id, n) in rest && Exceeds(v, id, n) {
      SomePeak(v, rest, id, n);
      var k :| Peak(v, rest, id, k);
      if e.id == id && e.member.incarnation > k.incarnation {
        assert Peak(v, list, id, e.member);
      } else {
        assert Peak(v, list, id, k);
      }
    } else {
      assert e == Entry(id, m);
      assert Peak(v, list, id, m);
    }
  }

  lemma {:induction false} MergeExplained(v: View, self: NodeId, list: seq<Entry>, id: NodeId)
    requires id != self
    ensures Explained(v, list, id, Merge(v, self, list))
    decreases |list|
  {
    if list != [] {
      var e, rest := list[0], list[1..];
      assert list == [e] + rest;
      var w := MergeOne(v, self, e);
      MergeExplained(w, self, rest, id);
      if e.id == id && Exceeds(v, id, e.member) {
        RisingStep(v, self, e, rest);
      } else {
        LevelStep(v, self, e, rest, id);
      }
    }
  }

  /** An entry that changes nothing for the id. */
  lemma LevelStep(v: View, self: NodeId, e: Entry, rest: seq<Entry>, id: NodeId)
    requires id != self && !(e.id == id && Exceeds(v, id, e.member))
    requires Explained(MergeOne(v, self, e), rest, id, Merge(v, self, [e] + rest))
    ensures Explained(v, [e] + rest, id, Merge(v, self, [e] + rest))
  {
    var w := MergeOne(v, self, e);
    assert (id in w <==> id in v) && (id in v ==> w[id] == v[id]);
    forall m ensures Peak(v, [e] + rest, id, m) <==> Peak(w, rest, id, m) {
    }
  }

  /** An entry that the table takes over. */
  lemma RisingStep(v: View, self: NodeId, e: Entry, rest: seq<Entry>)
    requires e.id != self && Exceeds(v, e.id, e.member)
    requires Explained(MergeOne(v, self, e), rest, e.id, Merge(v, self, [e] + rest))
    ensures Explained(v, [e] + rest, e.id, Merge(v, self, [e] + rest))
  {
    var w, r := MergeOne(v, self, e), Merge(v, self, [e] + rest);
    forall m | Peak(w, rest, e.id, m) ensures Peak(v, [e] + rest, e.id, m) {
    }
    if m :| Peak(w, rest, e.id, m) && Core(m) == Core(r[e.id]) {
      assert Peak(v, [e] + rest, e.id, m);
    } else {
      forall n | Entry(e.id, n) in rest ensures n.incarnation <= e.member.incarnation {
        if n.incarnation > e.member.incarnation {
          SomePeak(w, rest, e.id, n);
        }
      }
      assert Peak(v, [e] + rest, e.id, e.member);
    }
  }

  /** For every other id the peaks differ at most in their addresses. */
  ghost predicate Unambiguous(v: View, self: NodeId, list: seq<Entry>) {
    forall id, m, n :: id != self && Peak(v, list, id, m) && Peak(v, list, id, n) ==> Core(m) == Core(n)
  }

  ghost predicate SameEntries(a: seq<Entry>, b: seq<Entry>) {
    forall e :: e in a <==> e in b
  }

  lemma SamePeaks(v: View, a: seq<Entry>, b: seq<Entry>)
    requires SameEntries(a, b)
    ensures forall id, m :: Peak(v, a, id, m) <==> Peak(v, b, id, m)
  {
  }

  lemma OrderIsFree(v: View, self: NodeId, a: seq<Entry>, b: seq<Entry>)
    requires SameEntries(a, b) && Unambiguous(v, self, a)
    ensures SameView(Merge(v, self, a), Merge(v, self, b))
  {
    var r, t := Merge(v, self, a), Merge(v, self, b);
    SamePeaks(v, a, b);
    MergeKeepsNewest(v, self, a);
    MergeKeepsNewest(v, self, b);
    forall id ensures id in r <==> id in t
              ensures id in r && id in t ==> Core(r[id]) == Core(t[id])
    {
      if id != self {
        MergeExplained(v, self, a, id);
        MergeExplained(v, self, b, id);
      }
    }
  }

  /** A peak that arrives first stays. */
  lemma FirstPeakStays(v: View, self: NodeId, list: seq<Entry>, id: NodeId, m: Member)
    requires id != self && Peak(v, list, id, m)
    ensures var r := Merge(v, self, [Entry(id, m)] + list); id in r && Core(r[id]) == Core(m)
  {
    var w := MergeOne(v, self, Entry(id, m));
    assert ([Entry(id, m)] + list)[1..] == list;
    MergeExplained(w, self, list, id);
    forall n ensures !Peak(w, list, id, n) {
    }
  }

  /** Of two peaks either can be made to stay, by a list of the same entries. */
  lemma OrderDecides(v: View, self: NodeId, a: seq<Entry>, id: NodeId, m: Member, n: Member) returns (b: seq<Entry>)
    requires id != self && Peak(v, a, id, m) && Peak(v, a, id, n) && Core(m) != Core(n)
    ensures SameEntries(a, b) && !SameView(Merge(v, self, a), Merge(v, self, b))
  {
    FirstPeakStays(v, self, a, id, m);
    FirstPeakStays(v, self, a, id, n);
    var r := Merge(v, self, a);
    var k := if id in r && Core(r[id]) == Core(m) then n else m;
    b := [Entry(id, k)] + a;
    assert id in Merge(v, self, b) && Core(Merge(v, self, b)[id]) == Core(k);
  }

  /** Exactly when order and repetition do not matter: every list of the same entries leaves the same
      view up to addresses, if and only if for each other id the entries of the list's highest
      incarnation, if above the one held, agree up to addresses. */
  lemma MergeIsOrderFreeExactly(v: View, self: NodeId, a: seq<Entry>)
    ensures (forall b :: SameEntries(a, b) ==> SameView(Merge(v, self, a), Merge(v, self, b))) <==>
      Unambiguous(v, self, a)
  {
    if Unambiguous(v, self, a) {
      forall b | SameEntries(a, b) ensures SameView(Merge(v, self, a), Merge(v, self, b)) {
        OrderIsFree(v, self, a, b);
      }
    } else {
      var id, m, n :| id != self && Peak(v, a, id, m) && Peak(v, a, id, n) && Core(m) != Core(n);
      var b := OrderDecides(v, self, a, id, m, n);
    }
  }

  // ---- Any number of lists ---------------------------------------------------------------------------

  function MergeLists(v: View, self: NodeId, lists: seq<seq<Entry>>): View
    decreases |lists|
  {
    if lists == [] then v else MergeLists(Merge(v, self, lists[0]), self, lists[1..])
  }

  function Joined(lists: seq<seq<Entry>>): seq<Entry> {
    if lists == [] then [] else lists[0] + Joined(lists[1..])
  }

  lemma {:induction false} MergeAppend(v: View, self: NodeId, a: seq<Entry>, b: seq<Entry>)
    ensures Merge(v, self, a + b) == Merge(Merge(v, self, a), self, b)
    decreases |a|
  {
    if a == [] {
      assert a + b == b;
    } else {
      assert (a + b)[1..] == a[1..] + b;
      MergeAppend(MergeOne(v, self, a[0]), self, a[1..], b);
    }
  }

  /** How the entries are cut into lists does not matter. */
  lemma {:induction false} ListsMergeAsOne(v: View, self: NodeId, lists: seq<seq<Entry>>)
    ensures MergeLists(v, self, lists) == Merge(v, self, Joined(lists))
    decreases |lists|
  {
    if lists != [] {
      ListsMergeAsOne(Merge(v, self, lists[0]), self, lists[1..]);
      MergeAppend(v, self, lists[0], Joined(lists[1..]));
    }
  }

  /** The same for gossip that comes in any number of lists, in any order and however often. */
  lemma GossipIsOrderFreeExactly(v: View, self: NodeId, lists: seq<seq<Entry>>)
    ensures (forall others :: SameEntries(Joined(lists), Joined(others)) ==>
              SameView(MergeLists(v, self, lists), MergeLists(v, self, others)))
       <==> Unambiguous(v, self, Joined(lists))
  {
    var a := Joined(lists);
    MergeIsOrderFreeExactly(v, self, a);
    ListsMergeAsOne(v, self, lists);
    if Unambiguous(v, self, a) {
      forall others | SameEntries(a, Joined(others))
        ensures SameView(MergeLists(v, self, lists), MergeLists(v, self, others))
      {
        ListsMergeAsOne(v, self, others);
      }
    } else {
      var b :| SameEntries(a, b) && !SameView(Merge(v, self, a), Merge(v, self, b));
      assert Joined([b]) == b;
      ListsMergeAsOne(v, self, [b]);
      assert SameEntries(a, Joined([b]));
    }
  }
}
