/** Suspicion, failure and removal: what every run keeps, and when an unheard member passes each stage. */
module GossipAgeing {
  import opened Wrappers
  import opened Registry
  import opened GossipTable
  import GossipMerge

  function Rank(s: State): nat {
    match s
    case Alive => 0
    case Suspected => 1
    case Failed => 2
  }

  // ---- Runs ---------------------------------------------------------------------------------------

  datatype Action =
    | Hear(list: seq<Entry>)
    | HearSuspicion(s: Suspicion)
    | Look(found: Docs, second: int, draw: map<NodeId, real>)
    | Age(now: Time, later: Time)

  predicate Enabled(a: Action) {
    a.Age? ==> a.now <= a.later
  }

  function Apply(v: View, self: NodeId, suspicion: Time, a: Action): View {
    match a
    case Hear(list) => Merge(v, self, list)
    case HearSuspicion(s) => Suspect(v, s)
    case Look(found, second, draw) => Discover(v, self, found, second, draw)
    case Age(now, later) => Sweep(v, self, now, later, suspicion)
  }

  predicate StepAt(acts: seq<Action>, s: seq<View>, self: NodeId, suspicion: Time, i: nat)
    requires |s| == |acts| + 1 && i < |acts|
  {
    Enabled(acts[i]) && s[i + 1] == Apply(s[i], self, suspicion, acts[i])
  }

  ghost predicate IsRun(acts: seq<Action>, s: seq<View>, self: NodeId, suspicion: Time) {
    |s| == |acts| + 1 && forall i :: 0 <= i < |acts| ==> StepAt(acts, s, self, suspicion, i)
  }

  /** Lexicographic order on incarnation and state. */
  predicate NotBack(m: Member, n: Member) {
    m.incarnation < n.incarnation || (m.incarnation == n.incarnation && Rank(m.state) <= Rank(n.state))
  }

  lemma {:induction false} MergeNotBack(v: View, self: NodeId, list: seq<Entry>, id: NodeId)
    requires id in v
    ensures id in Merge(v, self, list) && NotBack(v[id], Merge(v, self, list)[id])
    decreases |list|
  {
    if list != [] {
      MergeNotBack(MergeOne(v, self, list[0]), self, list[1..], id);
    }
  }

  /** One step moves no member back, and drops one only as failed and unheard for over four timeouts. */
  lemma StepNotBack(v: View, self: NodeId, suspicion: Time, a: Action, id: NodeId)
    requires Enabled(a) && id in v
    ensures var w := Apply(v, self, suspicion, a);
      if id in w then NotBack(v[id], w[id])
      else
        && a.Age? && a.later - v[id].lastSeen > 4 * suspicion
        && Rank(if id == self then v[id].state else Aged(v[id], a.now, suspicion).state) == 2
  {
    match a {
      case Hear(list) => MergeNotBack(v, self, list, id);
      case HearSuspicion(_) =>
      case Look(_, _, _) =>
      case Age(now, later) =>
        var aged := AgedAll(v, self, now, suspicion);
        assert aged[id] == if id == self then v[id] else Aged(v[id], now, suspicion);
    }
  }

  /** While a member stays in the table its incarnation and state never go back together. */
  lemma {:induction false} MembersNeverGoBack(
    acts: seq<Action>, s: seq<View>, self: NodeId, suspicion: Time, id: NodeId, i: nat, j: nat)
    requires IsRun(acts, s, self, suspicion) && i <= j < |s|
    requires forall k :: i <= k <= j ==> id in s[k]
    ensures NotBack(s[i][id], s[j][id])
    decreases j
  {
    if i < j {
      MembersNeverGoBack(acts, s, self, suspicion, id, i, j - 1);
      assert StepAt(acts, s, self, suspicion, j - 1);
      StepNotBack(s[j - 1], self, suspicion, acts[j - 1], id);
    }
  }

  /** A member leaves the table only in a sweep, as failed, unheard for more than four timeouts. */
  lemma OnlyFailedMembersLeave(
    acts: seq<Action>, s: seq<View>, self: NodeId, suspicion: Time, id: NodeId, i: nat)
    requires IsRun(acts, s, self, suspicion) && i < |acts| && id in s[i] && id !in s[i + 1]
    ensures acts[i].Age? && acts[i].later - s[i][id].lastSeen > 4 * suspicion
    ensures s[i][id].state == Failed
         || (id != self && s[i][id].state == Suspected && acts[i].now - s[i][id].lastSeen > 2 * suspicion)
  {
    assert StepAt(acts, s, self, suspicion, i);
    StepNotBack(s[i], self, suspicion, acts[i], id);
  }

  /** A node that is told of its own suspicion believes it for good: no later step makes its own
      record alive again, and none removes it. */
  lemma {:induction false} SelfStaysSuspected(
    acts: seq<Action>, s: seq<View>, self: NodeId, suspicion: Time, i: nat, j: nat)
    requires IsRun(acts, s, self, suspicion) && i <= j < |s|
    requires self in s[i] && s[i][self].state == Suspected
    ensures self in s[j] && s[j][self] == s[i][self]
    decreases j
  {
    if i < j {
      SelfStaysSuspected(acts, s, self, suspicion, i, j - 1);
      assert StepAt(acts, s, self, suspicion, j - 1);
      match acts[j - 1] {
        case Hear(list) => GossipMerge.MergeKeepsNewest(s[j - 1], self, list);
        case HearSuspicion(_) =>
        case Look(_, _, _) =>
        case Age(now, later) =>
          assert AgedAll(s[j - 1], self, now, suspicion)[self] == s[j - 1][self];
      }
    }
  }

  // ---- Detection times -----------------------------------------------------------------------------

  function Lookup(v: View, id: NodeId): Option<Member> {
    if id in v then Some(v[id]) else None
  }

  /** One member through one sweep; none if it is not in the table. */
  function Swept(m: Option<Member>, now: Time, later: Time, suspicion: Time): Option<Member> {
    if m.None? then None
    else
      var aged := Aged(m.value, now, suspicion);
      if Expired(aged, later, suspicion) then None else Some(aged)
  }

  /** A sweep of the table is a sweep of each other member. */
  lemma SweepIsPointwise(v: View, self: NodeId, now: Time, later: Time, suspicion: Time, id: NodeId)
    requires id != self
    ensures Lookup(Sweep(v, self, now, later, suspicion), id) == Swept(Lookup(v, id), now, later, suspicion)
  {
    var aged := AgedAll(v, self, now, suspicion);
    assert id in v ==> aged[id] == Aged(v[id], now, suspicion);
  }

  /** Alive, suspected, failed, removed. */
  function Stage(v: View, id: NodeId): nat {
    if id in v then Rank(v[id].state) else 3
  }

  /** The step brings no news of the member; sweeps are no news. */
  predicate NoNews(v: View, self: NodeId, suspicion: Time, a: Action, id: NodeId) {
    a.Age? || Lookup(Apply(v, self, suspicion, a), id) == Lookup(v, id)
  }

  /** Gossip with records no newer than the one held is no news. */
  lemma OldGossipIsNoNews(v: View, self: NodeId, suspicion: Time, list: seq<Entry>, id: NodeId)
    requires id in v && forall m :: Entry(id, m) in list ==> m.incarnation <= v[id].incarnation
    ensures NoNews(v, self, suspicion, Hear(list), id)
  {
    GossipMerge.MergeKeepsNewest(v, self, list);
    if id != self {
      GossipMerge.MergeExplained(v, self, list, id);
    }
  }

  /** From state `i` to state `j` nothing is heard of the member, and the sweeps read an advancing clock. */
  ghost predicate Unheard(
    acts: seq<Action>, s: seq<View>, self: NodeId, suspicion: Time, id: NodeId, i: nat, j: nat)
  {
    && IsRun(acts, s, self, suspicion) && i <= j < |s| && id != self && id in s[i] && 0 < suspicion
    && (forall k :: i <= k < j ==> NoNews(s[k], self, suspicion, acts[k], id))
    && (forall k, l :: i <= k < l < j && acts[k].Age? && acts[l].Age? ==> acts[k].now <= acts[l].now)
  }

  /** What one step does to an unheard member. */
  lemma StageStep(v: View, self: NodeId, suspicion: Time, a: Action, id: NodeId)
    requires 0 < suspicion && id != self && Enabled(a) && NoNews(v, self, suspicion, a, id)
    ensures var w := Apply(v, self, suspicion, a);
      && Stage(v, id) <= Stage(w, id)
      && (id in w ==> id in v && w[id].lastSeen == v[id].lastSeen)
      && (!a.Age? ==> Stage(w, id) == Stage(v, id))
      && (a.Age? && id in v ==> var age := a.now - v[id].lastSeen;
          && (age > suspicion ==> Stage(w, id) >= 1)
          && (age > 2 * suspicion && Stage(v, id) >= 1 ==> Stage(w, id) >= 2)
          && (age > 4 * suspicion && Stage(v, id) >= 1 ==> Stage(w, id) == 3)
          && (age <= suspicion && Stage(v, id) == 0 ==> Stage(w, id) == 0)
          && (age <= 2 * suspicion && Stage(v, id) <= 1 ==> Stage(w, id) <= 1)
          && (a.later - v[id].lastSeen <= 4 * suspicion ==> Stage(w, id) <= 2))
  {
    var w := Apply(v, self, suspicion, a);
    if a.Age? {
      SweepIsPointwise(v, self, a.now, a.later, suspicion, id);
      assert Lookup(w, id) == Swept(Lookup(v, id), a.now, a.later, suspicion);
    } else {
      assert Lookup(w, id) == Lookup(v, id);
    }
  }

  lemma UnheardPart(
    acts: seq<Action>, s: seq<View>, self: NodeId, suspicion: Time, id: NodeId, i: nat, k: nat, j: nat)
    requires Unheard(acts, s, self, suspicion, id, i, j) && i <= k <= j
    ensures Unheard(acts, s, self, suspicion, id, i, k)
  {
  }

  /** Stages only grow, and `LastSeen` stays. */
  lemma {:induction false} StageGrows(
    acts: seq<Action>, s: seq<View>, self: NodeId, suspicion: Time, id: NodeId, i: nat, k: nat, j: nat)
    requires Unheard(acts, s, self, suspicion, id, i, j) && i <= k <= j
    ensures Stage(s[k], id) <= Stage(s[j], id)
    ensures id in s[j] ==> s[j][id].lastSeen == s[i][id].lastSeen
    decreases j
  {
    if i < j {
      UnheardPart(acts, s, self, suspicion, id, i, j - 1, j);
      StageGrows(acts, s, self, suspicion, id, i, if k < j then k else i, j - 1);
      assert StepAt(acts, s, self, suspicion, j - 1);
      StageStep(s[j - 1], self, suspicion, acts[j - 1], id);
    }
  }

  /** The stage that a sweep at step `k` leaves the member in, at least. */
  lemma StageAfterSweep(
    acts: seq<Action>, s: seq<View>, self: NodeId, suspicion: Time, id: NodeId, i: nat, k: nat, j: nat)
    requires Unheard(acts, s, self, suspicion, id, i, j) && i <= k < j && acts[k].Age?
    ensures var age := acts[k].now - s[i][id].lastSeen;
      && (age > suspicion ==> Stage(s[j], id) >= 1)
      && (age > 2 * suspicion && Stage(s[k], id) >= 1 ==> Stage(s[j], id) >= 2)
      && (age > 4 * suspicion && Stage(s[k], id) >= 1 ==> Stage(s[j], id) == 3)
  {
    UnheardPart(acts, s, self, suspicion, id, i, k, j);
    StageGrows(acts, s, self, suspicion, id, i, k, k);
    StageGrows(acts, s, self, suspicion, id, i, k + 1, j);
    assert StepAt(acts, s, self, suspicion, k);
    StageStep(s[k], self, suspicion, acts[k], id);
  }

  predicate SweepIn(acts: seq<Action>, i: nat, j: nat, low: Time, period: Time) {
    exists k :: i <= k < j && k < |acts| && acts[k].Age? && low < acts[k].now <= low + period
  }

  /** Every window of one period between `from` and `until` contains a sweep. */
  ghost predicate Regular(acts: seq<Action>, i: nat, j: nat, from: Time, until: Time, period: Time) {
    forall t :: from <= t && t + period <= until ==> SweepIn(acts, i, j, t, period)
  }

  /** A sweep at a later reading of the clock is a later step. */
  lemma LaterSweep(
    acts: seq<Action>, s: seq<View>, self: NodeId, suspicion: Time, id: NodeId, i: nat, j: nat, k: nat, l: nat)
    requires Unheard(acts, s, self, suspicion, id, i, j) && i <= k < j && i <= l < j
    requires acts[k].Age? && acts[l].Age? && acts[k].now < acts[l].now
    requires acts[k].now - s[i][id].lastSeen > suspicion && acts[l].now - s[i][id].lastSeen > 2 * suspicion
    ensures Stage(s[j], id) >= 2
    ensures acts[l].now - s[i][id].lastSeen > 4 * suspicion ==> Stage(s[j], id) == 3
  {
    assert k < l;
    UnheardPart(acts, s, self, suspicion, id, i, l, j);
    StageAfterSweep(acts, s, self, suspicion, id, i, k, l);
    StageAfterSweep(acts, s, self, suspicion, id, i, l, j);
  }

  /** With a sweep at least every S/2, a member of which nothing is heard is suspected by 1.5 S, failed
      by 2.5 S and removed by 4.5 S after it was last seen. */
  lemma DetectedInTime(
    acts: seq<Action>, s: seq<View>, self: NodeId, suspicion: Time, id: NodeId, i: nat, j: nat, period: Time,
      until: Time)
    requires Unheard(acts, s, self, suspicion, id, i, j) && 0 < period && 2 * period <= suspicion
    requires Regular(acts, i, j, s[i][id].lastSeen, until, period)
    ensures until >= s[i][id].lastSeen + suspicion + period ==> Stage(s[j], id) >= 1
    ensures until >= s[i][id].lastSeen + 2 * suspicion + period ==> Stage(s[j], id) >= 2
    ensures until >= s[i][id].lastSeen + 4 * suspicion + period ==> id !in s[j]
  {
    var seen := s[i][id].lastSeen;
    if until >= seen + suspicion + period {
      assert SweepIn(acts, i, j, seen + suspicion, period);
      var k: nat :| i <= k < j && acts[k].Age? && seen + suspicion < acts[k].now <= seen + suspicion + period;
      StageAfterSweep(acts, s, self, suspicion, id, i, k, j);
      if until >= seen + 2 * suspicion + period {
        assert SweepIn(acts, i, j, seen + 2 * suspicion, period);
        var l: nat :| i <= l < j && acts[l].Age? && seen + 2 * suspicion < acts[l].now;
        LaterSweep(acts, s, self, suspicion, id, i, j, k, l);
      }
      if until >= seen + 4 * suspicion + period {
        assert SweepIn(acts, i, j, seen + 4 * suspicion, period);
        var l: nat :| i <= l < j && acts[l].Age? && seen + 4 * suspicion < acts[l].now;
        LaterSweep(acts, s, self, suspicion, id, i, j, k, l);
        RankIsAtMostTwo(s[j], id);
      }
    }
  }

  lemma RankIsAtMostTwo(v: View, id: NodeId)
    ensures Stage(v, id) == 3 <==> id !in v
  {
  }

  /** An alive member of which nothing is heard is not suspected while no sweep reads a clock later than
      S after it was last seen, not failed while none reads one later than 2 S, and not removed while
      none reads, for the removal, one later than 4 S. */
  lemma {:induction false} NotDetectedEarly(
    acts: seq<Action>, s: seq<View>, self: NodeId, suspicion: Time, id: NodeId, i: nat, j: nat)
    requires Unheard(acts, s, self, suspicion, id, i, j) && s[i][id].state == Alive
    ensures (forall k :: i <= k < j && acts[k].Age? ==> acts[k].now <= s[i][id].lastSeen + suspicion) ==>
      Stage(s[j], id) == 0
    ensures (forall k :: i <= k < j && acts[k].Age? ==> acts[k].now <= s[i][id].lastSeen + 2 * suspicion) ==>
      Stage(s[j], id) <= 1
    ensures (forall k :: i <= k < j && acts[k].Age? ==> acts[k].later <= s[i][id].lastSeen + 4 * suspicion) ==>
      id in s[j]
    decreases j
  {
    if i < j {
      UnheardPart(acts, s, self, suspicion, id, i, j - 1, j);
      NotDetectedEarly(acts, s, self, suspicion, id, i, j - 1);
      StageGrows(acts, s, self, suspicion, id, i, i, j - 1);
      assert StepAt(acts, s, self, suspicion, j - 1);
      StageStep(s[j - 1], self, suspicion, acts[j - 1], id);
      RankIsAtMostTwo(s[j], id);
    }
  }
}
