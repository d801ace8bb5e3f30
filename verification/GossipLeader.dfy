/** The leader choice over the member table, which Go iterates in an arbitrary order. */
module GossipLeader {
  import opened Wrappers
  import opened Registry
  import opened GossipTable

  // ---- Order on ids ------------------------------------------------------------------------------

  /** Go's string order. */
  predicate Before(a: NodeId, b: NodeId) {
    b != "" && (a == "" || a[0] < b[0] || (a[0] == b[0] && Before(a[1..], b[1..])))
  }

  /** Up to `i` the ids agree, and there `a` has the smaller character. */
  predicate SmallerAt(a: NodeId, b: NodeId, i: int) {
    0 <= i < |a| && i < |b| && a[..i] == b[..i] && a[i] < b[i]
  }

  lemma SmallerInTail(a: NodeId, b: NodeId, i: int)
    requires a != "" && b != "" && a[0] == b[0] && i > 0
    ensures SmallerAt(a, b, i) <==> SmallerAt(a[1..], b[1..], i - 1)
  {
    if i < |a| && i < |b| {
      assert a[..i] == [a[0]] + a[1..][..i - 1] && b[..i] == [b[0]] + b[1..][..i - 1];
      assert a[..i][1..] == a[1..][..i - 1] && b[..i][1..] == b[1..][..i - 1];
    }
  }

  lemma SameHead(a: NodeId, b: NodeId, i: int)
    requires SmallerAt(a, b, i)
    ensures if i == 0 then a[0] < b[0] else a[0] == b[0]
  {
    if i > 0 {
      assert a[0] == a[..i][0] == b[..i][0] == b[0];
    }
  }

  /** A proper prefix comes first, and otherwise the first character that differs decides. */
  lemma {:induction false} BeforeExactly(a: NodeId, b: NodeId)
    ensures Before(a, b) <==> a < b || exists i :: SmallerAt(a, b, i)
  {
    if a != "" && b != "" && a[0] == b[0] {
      BeforeExactly(a[1..], b[1..]);
      assert a == [a[0]] + a[1..] && b == [b[0]] + b[1..];
      if i :| SmallerAt(a, b, i) {
        SmallerInTail(a, b, i);
      }
      if i :| SmallerAt(a[1..], b[1..], i) {
        SmallerInTail(a, b, i + 1);
      }
    } else if a != "" && b != "" {
      assert a[0] < b[0] ==> SmallerAt(a, b, 0);
      forall i | SmallerAt(a, b, i) ensures i == 0 {
        SameHead(a, b, i);
      }
    }
  }

  lemma {:induction false} BeforeIsTotal(a: NodeId, b: NodeId)
    ensures a == b || Before(a, b) || Before(b, a)
    ensures !(Before(a, b) && Before(b, a))
  {
    if a != "" && b != "" {
      BeforeIsTotal(a[1..], b[1..]);
      if a[0] == b[0] && a[1..] == b[1..] {
        assert a == [a[0]] + a[1..] && b == [b[0]] + b[1..];
      }
    }
  }

  lemma {:induction false} BeforeIsTransitive(a: NodeId, b: NodeId, c: NodeId)
    requires Before(a, b) && Before(b, c)
    ensures Before(a, c)
  {
    if a != "" {
      if a[0] == b[0] && b[0] == c[0] {
        BeforeIsTransitive(a[1..], b[1..], c[1..]);
      }
    }
  }

  // ---- What the choice should be -----------------------------------------------------------------

  /** Alive, with a numeric priority that the loop's start value does not shut out. */
  predicate Eligible(v: View, id: NodeId) {
    id in v && v[id].state == Alive && v[id].priority.Some? && v[id].priority.value >= -1.0
  }

  /** Among the eligible members the greatest priority wins, then the smallest id. */
  predicate Best(v: View, id: NodeId) {
    && Eligible(v, id)
    && forall m :: m in v && Eligible(v, m) ==>
         v[m].priority.value < v[id].priority.value
         || (v[m].priority.value == v[id].priority.value && (m == id || Before(id, m)))
  }

  lemma BestIsUnique(v: View, a: NodeId, b: NodeId)
    requires Best(v, a) && Best(v, b)
    ensures a == b
  {
    BeforeIsTotal(a, b);
  }

  // ---- The two loops -------------------------------------------------------------------------------

  /** The second loop: "" stands for no choice yet. */
  function Pick(candidates: seq<NodeId>, soFar: NodeId): NodeId
    decreases |candidates|
  {
    if candidates == [] then soFar
    else Pick(candidates[1..], if Before(candidates[0], soFar) || soFar == "" then candidates[0] else soFar)
  }

  function Choice(candidates: seq<NodeId>): NodeId {
    if |candidates| == 1 then candidates[0] else Pick(candidates, "")
  }

  predicate Smallest(ids: seq<NodeId>, id: NodeId) {
    id in ids && forall m :: m in ids ==> m == id || Before(id, m)
  }

  lemma {:induction false} PickIsSmallest(candidates: seq<NodeId>, soFar: NodeId)
    requires "" !in candidates && soFar != ""
    ensures Smallest([soFar] + candidates, Pick(candidates, soFar))
    decreases |candidates|
  {
    if candidates != [] {
      var c := candidates[0];
      var next := if Before(c, soFar) then c else soFar;
      BeforeIsTotal(c, soFar);
      PickIsSmallest(candidates[1..], next);
      var p := Pick(candidates[1..], next);
      assert candidates == [c] + candidates[1..];
      forall m | m in [soFar] + candidates ensures m == p || Before(p, m) {
        if m !in [next] + candidates[1..] {
          assert Before(next, m);
          if p != next {
            assert next in [next] + candidates[1..];
            BeforeIsTransitive(p, next, m);
          }
        }
      }
      assert p in [next] + candidates[1..];
    }
  }

  lemma ChoiceIsSmallest(candidates: seq<NodeId>)
    requires candidates != [] && "" !in candidates
    ensures Smallest(candidates, Choice(candidates))
  {
    if |candidates| > 1 {
      assert candidates == [candidates[0]] + candidates[1..];
      PickIsSmallest(candidates[1..], candidates[0]);
    }
  }

  /** An empty id among several candidates is taken if it comes last and passed over if it comes
      first, so there the order of iteration decides. */
  lemma EmptyIdDependsOnOrder(others: seq<NodeId>)
    requires others != [] && "" !in others
    ensures Choice(others + [""]) == "" && Choice([""] + others) != ""
  {
    PickLast(others, "");
    assert ([""] + others)[1..] == others;
    assert Pick([""] + others, "") == Pick(others, "");
    PickIsSmallest(others[1..], others[0]);
    assert others == [others[0]] + others[1..];
    assert Pick(others, "") == Pick(others[1..], others[0]);
  }

  lemma {:induction false} PickLast(others: seq<NodeId>, soFar: NodeId)
    requires "" !in others && (others != [] || soFar != "")
    ensures Pick(others + [""], soFar) == ""
    decreases |others|
  {
    if others == [] {
      assert others + [""] == [""] && [""][1..] == [];
    } else {
      assert (others + [""])[1..] == others[1..] + [""];
      var next := if Before(others[0], soFar) || soFar == "" then others[0] else soFar;
      assert others[0] in others;
      PickLast(others[1..], next);
    }
  }

  /** The same candidates in some order. */
  ghost predicate Rearranged(a: seq<NodeId>, b: seq<NodeId>) {
    multiset(a) == multiset(b)
  }

  predicate NoneTwice(ids: seq<NodeId>) {
    forall i, k :: 0 <= i < k < |ids| ==> ids[i] != ids[k]
  }

  lemma SameSmallest(a: seq<NodeId>, b: seq<NodeId>)
    requires Rearranged(a, b) && a != [] && "" !in a
    ensures Choice(a) == Choice(b)
  {
    assert forall m :: m in a <==> m in multiset(a);
    assert forall m :: m in b <==> m in multiset(b);
    assert |a| == |multiset(a)| && |b| == |multiset(b)|;
    ChoiceIsSmallest(a);
    ChoiceIsSmallest(b);
    BeforeIsTotal(Choice(a), Choice(b));
  }

  lemma SplitAt<T>(s: seq<T>, k: nat) returns (left: seq<T>, right: seq<T>)
    requires k < |s|
    ensures s == left + [s[k]] + right && |left| == k
  {
    left, right := s[..k], s[k + 1..];
  }

  lemma MovesAway<T>(left: seq<T>, x: T, right: seq<T>)
    ensures multiset(left + [x] + right) == multiset(left + right + [x])
    ensures multiset(left + [x] + right) == multiset([x] + (left + right))
  {
  }

  lemma SplitAtEmpty(candidates: seq<NodeId>) returns (others: seq<NodeId>)
    requires NoneTwice(candidates) && "" in candidates && |candidates| > 1
    ensures others != [] && "" !in others
    ensures Rearranged(candidates, others + [""]) && Rearranged(candidates, [""] + others)
  {
    var k: nat :| k < |candidates| && candidates[k] == "";
    var left, right := SplitAt(candidates, k);
    others := left + right;
    forall i | 0 <= i < |others| ensures others[i] != "" {
      assert others[i] == candidates[if i < k then i else i + 1];
    }
    MovesAway(left, "", right);
  }

  /** Exactly when the order in which the map yields the candidates does not matter: none of them has an
      empty id, or there is only one. */
  lemma OrderDoesNotMatterExactly(candidates: seq<NodeId>)
    requires candidates != [] && NoneTwice(candidates)
    ensures (forall other :: Rearranged(candidates, other) ==> Choice(other) == Choice(candidates))
       <==> "" !in candidates || |candidates| == 1
  {
    if "" !in candidates {
      forall other | Rearranged(candidates, other) ensures Choice(other) == Choice(candidates) {
        SameSmallest(candidates, other);
      }
    } else if |candidates| == 1 {
      forall other | Rearranged(candidates, other) ensures other == candidates {
        assert |other| == |multiset(other)| == |multiset(candidates)| == 1;
        assert other[0] in multiset(other);
        assert candidates == [candidates[0]];
      }
    } else {
      var others := SplitAtEmpty(candidates);
      EmptyIdDependsOnOrder(others);
      assert Rearranged(candidates, others + [""]) && Rearranged(candidates, [""] + others);
    }
  }

  /** The first loop so far: the greatest priority seen, and who has it, in the order seen. */
  ghost predicate Tops(v: View, seen: set<NodeId>, highest: real, candidates: seq<NodeId>) {
    && highest >= -1.0
    && (forall m :: m in candidates <==> m in seen && Eligible(v, m) && v[m].priority.value == highest)
    && (forall m :: m in seen && Eligible(v, m) ==> v[m].priority.value <= highest)
    && (candidates == [] ==> highest == -1.0)
  }

  lemma TopsGiveBest(v: View, highest: real, candidates: seq<NodeId>)
    requires Tops(v, v.Keys, highest, candidates) && candidates != [] && "" !in candidates
    ensures Best(v, Choice(candidates))
  {
    ChoiceIsSmallest(candidates);
  }

  /** The loops over the table in whatever order the map yields its keys. */
  method ElectFrom(v: View) returns (leader: Option<NodeId>)
    ensures leader.None? <==> forall m :: m in v ==> !Eligible(v, m)
    ensures leader.Some? ==> Eligible(v, leader.value)
    ensures leader.Some? && "" !in v ==> Best(v, leader.value)
  {
    var candidates: seq<NodeId> := [];
    var highest := -1.0;
    var todo := v.Keys;
    while todo != {}
      invariant todo <= v.Keys
      invariant Tops(v, v.Keys - todo, highest, candidates)
      decreases todo
    {
      var id :| id in todo;
      todo := todo - {id};
      var m := v[id];
      if m.state == Alive && m.priority.Some? {
        if m.priority.value > highest {
          highest := m.priority.value;
          candidates := [id];
        } else if m.priority.value == highest {
          candidates := candidates + [id];
        }
      }
    }
    if |candidates| == 0 {
      return None;
    }
    if |candidates| == 1 {
      assert candidates[0] in candidates;
      if "" !in v {
        assert "" !in candidates;
        TopsGiveBest(v, highest, candidates);
      }
      return Some(candidates[0]);
    }
    var chosen: NodeId := "";
    var i := 0;
    while i < |candidates|
      invariant 0 <= i <= |candidates|
      invariant Pick(candidates, "") == Pick(candidates[i..], chosen)
      invariant if i == 0 then chosen == "" else chosen in candidates
    {
      if Before(candidates[i], chosen) || chosen == "" {
        chosen := candidates[i];
      }
      assert candidates[i..][1..] == candidates[i + 1..];
      i := i + 1;
    }
    if "" !in v {
      assert "" !in candidates;
      TopsGiveBest(v, highest, candidates);
    }
    return Some(chosen);
  }

  /** electLeader: the leader changes only when the choice does, and the term counts the changes. */
  method ElectLeader(g: GossipNode, clock: Time)
    modifies g`currentLeader, g`leaderTerm, g`isLeader, g.storage
    ensures (forall m :: m in g.members ==> !Eligible(g.members, m)) ==>
      g.currentLeader == old(g.currentLeader) && g.leaderTerm == old(g.leaderTerm) && g.isLeader == old(g.isLeader)
    ensures "" !in g.members && (exists m :: m in g.members && Eligible(g.members, m)) ==>
      Best(g.members, g.currentLeader)
    ensures g.leaderTerm == old(g.leaderTerm) + if g.currentLeader == old(g.currentLeader) then 0 else 1
    ensures g.currentLeader == old(g.currentLeader) ==> g.isLeader == old(g.isLeader)
    ensures g.currentLeader != old(g.currentLeader) ==> (g.isLeader <==> g.currentLeader == g.nodeId)
    ensures g.storage.nodes == if g.currentLeader == old(g.currentLeader) then old(g.storage.nodes)
      else Register(old(g.storage.nodes), g.nodeId, g.profile, g.isLeader, clock)
  {
    var choice := ElectFrom(g.members);
    if choice.None? || choice.value == g.currentLeader {
      return;
    }
    assert Eligible(g.members, choice.value);
    ghost var members := g.members;
    g.currentLeader := choice.value;
    g.leaderTerm := g.leaderTerm + 1;
    g.isLeader := choice.value == g.nodeId;
    g.storage.RegisterNode(g.nodeId, g.profile, g.isLeader, clock);
    assert g.members == members;
  }

  /** Nodes whose tables agree on who is alive and on priorities choose the same leader. */
  lemma EqualViewsAgree(v: View, w: View, a: NodeId, b: NodeId)
    requires v.Keys == w.Keys
    requires forall m :: m in v ==> v[m].state == w[m].state && v[m].priority == w[m].priority
    requires Best(v, a) && Best(w, b)
    ensures a == b
  {
    assert Best(w, a) by {
      forall m | m in w && Eligible(w, m)
        ensures w[m].priority.value < w[a].priority.value
             || (w[m].priority.value == w[a].priority.value && (m == a || Before(a, m)))
      {
        assert m in v && Eligible(v, m);
      }
    }
    BestIsUnique(w, a, b);
  }
}
