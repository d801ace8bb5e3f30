/** Two Raft nodes validate different terms over one registry and then both claim, one after the other,
    through the whole protocol of the claim: the later leader has the lower term. */
module RaftReversal {
  import opened Registry
  import opened ClaimProtocol
  import opened ClaimRuns
  import opened RaftNode

  /** No schedule is kept here, and terms need not rise. */
  function Any(): Rule {
    Rule(c => true, c => true, (c, a) => true)
  }

  const START: Cluster := Two(map[], 0, Idle, Idle, NONE, NONE)

  predicate Leads(c: Cluster, n: NodeId, term: int) {
    n in c.phase && c.phase[n].Holding? && n in c.docs && c.docs[n].term == term
  }

  ghost predicate LedBefore(acts: seq<Action>, s: seq<Cluster>, i: nat) {
    IsRun(acts, s) && s[0] == START && i < |s| && Leads(s[i], B, 2)
  }

  /** A state of a run from the start in which the second node has led in term 2. */
  ghost predicate ComesAfter(c: Cluster) {
    exists acts, s, i: nat :: LedBefore(acts, s, i) && i < |acts| && s[|acts|] == c
  }

  ghost function Afterwards(): iset<Cluster> {
    iset c | ComesAfter(c)
  }

  lemma AfterwardsIsClosed()
    ensures Closed(Any(), Afterwards())
  {
    forall c, a | c in Afterwards() && WellFormed(c) && Enabled(c, a)
      ensures Apply(c, a) in Afterwards()
    {
      var acts, s, i: nat :| LedBefore(acts, s, i) && i < |acts| && s[|acts|] == c;
      var more, t := Longer(acts, s, a);
      assert LedBefore(more, t, i) && i < |more| && t[|more|] == Apply(c, a);
    }
  }

  /** A state of a run from the start. */
  ghost predicate ComesFromStart(c: Cluster) {
    exists acts, s :: IsRun(acts, s) && s[0] == START && s[|acts|] == c
  }

  ghost function FromStart(): iset<Cluster> {
    iset c | ComesFromStart(c)
  }

  lemma FromStartIsClosed()
    ensures Closed(Any(), FromStart()) && START in FromStart()
  {
    forall c, a | c in FromStart() && WellFormed(c) && Enabled(c, a)
      ensures Apply(c, a) in FromStart()
    {
      var acts, s :| IsRun(acts, s) && s[0] == START && s[|acts|] == c;
      var more, t := Longer(acts, s, a);
      assert IsRun(more, t) && t[0] == START && t[|more|] == Apply(c, a);
    }
    var acts: seq<Action> := [];
    assert IsRun(acts, [START]) && [START][|acts|] == START;
  }

  function Flag(up: bool, seen: Time, term: int): Doc {
    Doc(up, seen, CLAIM_PROFILE, term)
  }

  const LATE: multiset<Time> := multiset{100}

  /** The second node claims in term 2 and holds from 100 on. */
  lemma HigherTermClaims(reach: iset<Cluster>)
    requires Closed(Any(), reach) && START in reach
    ensures Two(map[B := Flag(true, 0, 2)], 0, Idle, Asleep(0, 0), NONE, NONE) in reach
  {
    var none: Docs := map[];
    Counts(Any(), reach, START, B);
    SecondMoves(none, 0, Idle, Idle, NONE, NONE, Raising(0), NONE);
    var c := Two(none, 0, Idle, Raising(0), NONE, NONE);
    RaiseStep(c, B, 0, 2);
    SecondMoves(none, 0, Idle, Raising(0), NONE, NONE, Asleep(0, 0), NONE);
    assert none[B := Flag(true, 0, 2)] == map[B := Flag(true, 0, 2)];
    Then(Any(), reach, c, RaiseFlag(B, 2, true, true));
  }

  lemma HigherTermHolds(reach: iset<Cluster>)
    requires Closed(Any(), reach) && Two(map[B := Flag(true, 0, 2)], 0, Idle, Asleep(0, 0), NONE, NONE) in reach
    ensures Two(map[B := Flag(true, 0, 2)], 100, Idle, Holding(0, 0, 100), NONE, LATE) in reach
  {
    var docs := map[B := Flag(true, 0, 2)];
    Then(Any(), reach, Two(docs, 0, Idle, Asleep(0, 0), NONE, NONE), Tick(100));
    var c := Two(docs, 100, Idle, Asleep(0, 0), NONE, NONE);
    OnlyOne(docs, B, 0 - VERIFY_WINDOW);
    PassStep(c, B, 0, 0);
    assert NONE + multiset{100} == LATE;
    SecondMoves(docs, 100, Idle, Asleep(0, 0), NONE, NONE, Holding(0, 0, 100), LATE);
    Then(Any(), reach, c, Verify(B, true));
  }

  /** It steps down and lowers its flag. */
  lemma HigherTermRetires(reach: iset<Cluster>)
    requires Closed(Any(), reach) && Two(map[B := Flag(true, 0, 2)], 100, Idle, Idle, NONE, LATE) in reach
    ensures Two(map[B := Flag(false, 100, 2)], 100, Idle, Idle, NONE, LATE) in reach
  {
    var docs := map[B := Flag(true, 0, 2)];
    assert Register(docs, B, CLAIM_PROFILE, false, 100) == map[B := Flag(false, 100, 2)];
    Then(Any(), reach, Two(docs, 100, Idle, Idle, NONE, LATE), LowerFlag(B));
  }

  /** The first node, which validated before all this, claims in term 1. */
  lemma LowerTermClaims(reach: iset<Cluster>)
    requires Closed(Any(), reach) && Two(map[B := Flag(false, 100, 2)], 100, Idle, Idle, NONE, LATE) in reach
    ensures Two(map[A := Flag(true, 100, 1), B := Flag(false, 100, 2)], 100, Asleep(100, 100), Idle, NONE,
      LATE) in reach
  {
    var docs := map[B := Flag(false, 100, 2)];
    var c := Two(docs, 100, Idle, Idle, NONE, LATE);
    assert FreshLeaders(docs, 100 - ACTIVE_WINDOW) == {};
    Counts(Any(), reach, c, A);
    FirstMoves(docs, 100, Idle, Idle, NONE, LATE, Raising(100), NONE);
    var d := Two(docs, 100, Raising(100), Idle, NONE, LATE);
    RaiseStep(d, A, 100, 1);
    FirstMoves(docs, 100, Raising(100), Idle, NONE, LATE, Asleep(100, 100), NONE);
    assert docs[A := Flag(true, 100, 1)] == map[A := Flag(true, 100, 1), B := Flag(false, 100, 2)];
    Then(Any(), reach, d, RaiseFlag(A, 1, true, true));
  }

  lemma LowerTermHolds(reach: iset<Cluster>)
    requires Closed(Any(), reach)
    requires Two(map[A := Flag(true, 100, 1), B := Flag(false, 100, 2)], 100, Asleep(100, 100), Idle, NONE,
      LATE) in reach
    ensures exists d :: d in reach && Leads(d, A, 1)
  {
    var docs := map[A := Flag(true, 100, 1), B := Flag(false, 100, 2)];
    Then(Any(), reach, Two(docs, 100, Asleep(100, 100), Idle, NONE, LATE), Tick(200));
    var c := Two(docs, 200, Asleep(100, 100), Idle, NONE, LATE);
    OnlyOne(docs, A, 100 - VERIFY_WINDOW);
    PassStep(c, A, 100, 100);
    var m := NONE + multiset{200};
    FirstMoves(docs, 200, Asleep(100, 100), Idle, NONE, LATE, Holding(100, 100, 200), m);
    Then(Any(), reach, c, Verify(A, true));
    assert Leads(Two(docs, 200, Holding(100, 100, 200), Idle, m, LATE), A, 1);
  }

  lemma HigherTermHasLed()
    ensures Two(map[B := Flag(true, 0, 2)], 100, Idle, Idle, NONE, LATE) in Afterwards()
  {
    FromStartIsClosed();
    HigherTermClaims(FromStart());
    HigherTermHolds(FromStart());
    var docs, h := map[B := Flag(true, 0, 2)], Holding(0, 0, 100);
    var c := Two(docs, 100, Idle, h, NONE, LATE);
    var acts, s :| IsRun(acts, s) && s[0] == START && s[|acts|] == c;
    var more, t := Longer(acts, s, StepDown(B));
    SecondMoves(docs, 100, Idle, h, NONE, LATE, Idle, LATE);
    assert LedBefore(more, t, |acts|) && t[|more|] == Two(docs, 100, Idle, Idle, NONE, LATE);
  }

  /** Both validations succeed over the registry at the start, both claims succeed, and the term falls
      from 2 to 1 between the two leaders. */
  lemma LeadersReverse(window: Time) returns (acts: seq<Action>, s: seq<Cluster>, i: nat, j: nat)
    ensures IsRun(acts, s) && i < j < |s| && Leads(s[i], B, 2) && Leads(s[j], A, 1)
    ensures Consistent(s[0].docs, A, 1, s[0].clock, window) && Consistent(s[0].docs, B, 2, s[0].clock, window)
  {
    HigherTermHasLed();
    AfterwardsIsClosed();
    HigherTermRetires(Afterwards());
    LowerTermClaims(Afterwards());
    LowerTermHolds(Afterwards());
    var d :| d in Afterwards() && Leads(d, A, 1);
    acts, s, i :| LedBefore(acts, s, i) && i < |acts| && s[|acts|] == d;
    j := |acts|;
  }
}
