/** The terms that Raft leaders write into the registry. Each claim is split in two: the validation that
    reads the documents, and the write that raises the flag with the validated term. */
module RaftTerms {
  import opened Registry
  import opened RaftNode

  /** A validated claim that has not written yet; `at` counts the writes before its validation. */
  datatype Claim = Claim(term: int, at: nat)

  /** `raises` counts the writes of all claims so far. */
  datatype Store = Store(docs: Docs, clock: Time, window: Time, raises: nat, claims: map<NodeId, Claim>)

  datatype Action =
    | Tick(to: Time)
    | Validate(n: NodeId, term: int)
    | RaiseFlag(n: NodeId, now: Time)
    | Abandon(n: NodeId)                                             // the claim fails before its write
    | Clear(stale: Time)
    | LowerFlag(n: NodeId)
    | Write(n: NodeId, profile: Profile, isLeader: bool, seen: Time)  // RegisterNode

  /** A campaign runs in a term of at least 1 (RaftVotes.CampaignTermIsPositive). */
  ghost predicate Enabled(s: Store, a: Action) {
    match a
    case Tick(to) => s.clock <= to
    case Validate(n, term) => n !in s.claims && 1 <= term && Consistent(s.docs, n, term, s.clock, s.window)
    case RaiseFlag(n, _) => n in s.claims
    case Abandon(n) => n in s.claims
    case Clear(_) => true
    case LowerFlag(_) => true
    case Write(_, _, _, _) => true
  }

  function Apply(s: Store, a: Action): Store
    requires a.RaiseFlag? ==> a.n in s.claims
  {
    match a
    case Tick(to) => s.(clock := to)
    case Validate(n, term) => s.(claims := s.claims[n := Claim(term, s.raises)])
    case RaiseFlag(n, now) =>
      s.(docs := Raise(s.docs, n, now, s.claims[n].term), raises := s.raises + 1, claims := s.claims - {n})
    case Abandon(n) => s.(claims := s.claims - {n})
    case Clear(stale) => s.(docs := ClearStale(s.docs, stale))
    case LowerFlag(n) => s.(docs := Lower(s.docs, n))
    case Write(n, profile, isLeader, seen) => s.(docs := Register(s.docs, n, profile, isLeader, seen))
  }

  ghost predicate StepAt(acts: seq<Action>, s: seq<Store>, i: nat)
    requires |s| == |acts| + 1 && i < |acts|
  {
    Enabled(s[i], acts[i]) && s[i + 1] == Apply(s[i], acts[i])
  }

  ghost predicate IsRun(acts: seq<Action>, s: seq<Store>) {
    && |s| == |acts| + 1
    && s[0].claims == map[] && s[0].raises == 0
    && forall i :: 0 <= i < |acts| ==> StepAt(acts, s, i)
  }

  /** Every validation sees every document. */
  predicate AllSeen(acts: seq<Action>, s: seq<Store>)
    requires |s| == |acts| + 1
  {
    forall i :: 0 <= i < |acts| && acts[i].Validate? ==> Visible(s[i].docs, s[i].clock).Keys == s[i].docs.Keys
  }

  /** No claim writes between another's validation and its write. */
  predicate OneStepClaims(acts: seq<Action>, s: seq<Store>)
    requires |s| == |acts| + 1
  {
    forall i :: 0 <= i < |acts| && acts[i].RaiseFlag? && acts[i].n in s[i].claims ==>
      s[i].claims[acts[i].n].at == s[i].raises
  }

  predicate Tops(docs: Docs, term: int) {
    forall m :: m in docs ==> docs[m].term <= term
  }

  /** The term that the i-th step writes. */
  function Written(acts: seq<Action>, s: seq<Store>, i: nat): int
    requires |s| == |acts| + 1 && i < |acts| && acts[i].RaiseFlag? && acts[i].n in s[i].claims
  {
    s[i].claims[acts[i].n].term
  }

  /** No operation but a claim writes a term: the others keep what is there and add term 0. */
  lemma TermsKeep(s: Store, a: Action, m: NodeId)
    requires Enabled(s, a) && (a.RaiseFlag? ==> a.n != m)
    ensures m in s.docs ==> m in Apply(s, a).docs && Apply(s, a).docs[m].term == s.docs[m].term
    ensures m in Apply(s, a).docs && m !in s.docs ==> Apply(s, a).docs[m].term == 0
  {
  }

  /** A claim that no write has overtaken still tops the registry. */
  lemma {:induction false} ClaimStillTops(acts: seq<Action>, s: seq<Store>, i: nat, n: NodeId)
    requires IsRun(acts, s) && AllSeen(acts, s) && i <= |acts| && n in s[i].claims
    ensures 1 <= s[i].claims[n].term && s[i].claims[n].at <= s[i].raises
    ensures s[i].claims[n].at == s[i].raises ==> Tops(s[i].docs, s[i].claims[n].term)
  {
    if i > 0 {
      var a := acts[i - 1];
      assert StepAt(acts, s, i - 1);
      if a.Validate? && a.n == n {
        forall m | m in s[i].docs ensures s[i].docs[m].term <= a.term {
          assert m in Visible(s[i - 1].docs, s[i - 1].clock).Keys;
        }
      } else {
        ClaimStillTops(acts, s, i - 1, n);
        if s[i].claims[n].at == s[i].raises {
          forall m | m in s[i].docs ensures s[i].docs[m].term <= s[i].claims[n].term {
            TermsKeep(s[i - 1], a, m);
          }
        }
      }
    }
  }

  /** Registry term order, first half: every claim writes a term at least as large as every term there. */
  lemma ClaimsTopTheRegistry(acts: seq<Action>, s: seq<Store>, i: nat)
    requires IsRun(acts, s) && AllSeen(acts, s) && OneStepClaims(acts, s)
    requires i < |acts| && acts[i].RaiseFlag?
    ensures acts[i].n in s[i].claims && Tops(s[i].docs, Written(acts, s, i))
  {
    assert StepAt(acts, s, i);
    ClaimStillTops(acts, s, i, acts[i].n);
  }

  ghost predicate Reached(docs: Docs, term: int) {
    exists m :: m in docs && docs[m].term >= term
  }

  /** A term once written is never lost from the registry, although its document may be overwritten. */
  lemma {:induction false} ReachedStays(acts: seq<Action>, s: seq<Store>, i: nat, j: nat, term: int)
    requires IsRun(acts, s) && AllSeen(acts, s) && OneStepClaims(acts, s)
    requires i <= j <= |acts| && Reached(s[i].docs, term)
    ensures Reached(s[j].docs, term)
    decreases j - i
  {
    if i < j {
      ReachedStays(acts, s, i, j - 1, term);
      assert StepAt(acts, s, j - 1);
      var m :| m in s[j - 1].docs && s[j - 1].docs[m].term >= term;
      var a := acts[j - 1];
      if a.RaiseFlag? && a.n == m {
        ClaimsTopTheRegistry(acts, s, j - 1);
        assert m in s[j].docs && s[j].docs[m].term >= term;
      } else {
        TermsKeep(s[j - 1], a, m);
      }
    }
  }

  /** Second half: the terms of successive claims never decrease. */
  lemma LeaderTermsNeverFall(acts: seq<Action>, s: seq<Store>, i: nat, j: nat)
    requires IsRun(acts, s) && AllSeen(acts, s) && OneStepClaims(acts, s)
    requires i < j < |acts| && acts[i].RaiseFlag? && acts[j].RaiseFlag?
    ensures acts[i].n in s[i].claims && acts[j].n in s[j].claims
    ensures Written(acts, s, i) <= Written(acts, s, j)
  {
    assert StepAt(acts, s, i);
    ClaimsTopTheRegistry(acts, s, j);
    assert s[i + 1].docs[acts[i].n].term == Written(acts, s, i);
    ReachedStays(acts, s, i + 1, j, Written(acts, s, i));
  }

  /** A validated term tops the registry exactly if no document that has gone unseen for five minutes
      carries a higher one. */
  lemma ValidationTopsExactly(s: Store, n: NodeId, term: int)
    requires Enabled(s, Validate(n, term))
    ensures Tops(s.docs, term) <==>
      forall m :: m in s.docs && s.clock - s.docs[m].lastSeen > VISIBLE_FOR ==> s.docs[m].term <= term
  {
    if forall m :: m in s.docs && s.clock - s.docs[m].lastSeen > VISIBLE_FOR ==> s.docs[m].term <= term {
      forall m | m in s.docs ensures s.docs[m].term <= term {
        assert s.clock - s.docs[m].lastSeen <= VISIBLE_FOR ==> m in Visible(s.docs, s.clock);
      }
    }
  }

  // ---- One claim, exactly ----------------------------------------------------------------------------

  predicate WritesAt(acts: seq<Action>, q: int, m: NodeId) {
    0 <= q < |acts| && acts[q].RaiseFlag? && acts[q].n == m
  }

  /** A claim of `m` writes after step `k` and before step `i`. */
  ghost predicate Overwritten(acts: seq<Action>, k: nat, i: nat, m: NodeId) {
    exists q :: k < q < i && WritesAt(acts, q, m)
  }

  /** Without a write of its own a document keeps its term, and a new one has term 0. */
  lemma {:induction false} UnwrittenKeeps(acts: seq<Action>, s: seq<Store>, k: nat, i: nat, m: NodeId)
    requires IsRun(acts, s) && k <= i <= |acts| && forall q :: k <= q < i ==> !WritesAt(acts, q, m)
    ensures m in s[k].docs ==> m in s[i].docs && s[i].docs[m].term == s[k].docs[m].term
    ensures m in s[i].docs && m !in s[k].docs ==> s[i].docs[m].term == 0
    decreases i
  {
    if k < i {
      UnwrittenKeeps(acts, s, k, i - 1, m);
      assert StepAt(acts, s, i - 1) && !WritesAt(acts, i - 1, m);
      TermsKeep(s[i - 1], acts[i - 1], m);
    }
  }

  lemma {:induction false} LastWrite(acts: seq<Action>, k: nat, i: nat, m: NodeId) returns (q: nat)
    requires Overwritten(acts, k, i, m)
    ensures k < q < i && WritesAt(acts, q, m) && !Overwritten(acts, q, i, m)
    decreases i - k
  {
    q :| k < q < i && WritesAt(acts, q, m);
    if Overwritten(acts, q, i, m) {
      q := LastWrite(acts, q, i, m);
    }
  }

  /** A document that the validation cannot have seen. */
  predicate Hidden(s: Store, m: NodeId) {
    m in s.docs && s.clock - s.docs[m].lastSeen > VISIBLE_FOR
  }

  /** The claim validated in step `j` and written in step `i`. */
  predicate ClaimOf(acts: seq<Action>, s: seq<Store>, j: nat, i: nat) {
    && |s| == |acts| + 1 && j < i < |acts| && acts[j].Validate? && acts[i].RaiseFlag? && acts[i].n == acts[j].n
    && acts[i].n in s[i].claims && s[i].claims[acts[i].n].term == acts[j].term
  }

  /** What can spoil it: a higher term that was out of sight, or one that another claim wrote since. */
  ghost predicate Spoiled(acts: seq<Action>, s: seq<Store>, j: nat, i: nat, m: NodeId)
    requires ClaimOf(acts, s, j, i)
  {
    || (Hidden(s[j], m) && s[j].docs[m].term > acts[j].term && !Overwritten(acts, j, i, m))
    || exists k :: j < k < i && WritesAt(acts, k, m) && m in s[k].claims && Written(acts, s, k) > acts[j].term
                && !Overwritten(acts, k, i, m)
  }

  lemma SpoiledStays(acts: seq<Action>, s: seq<Store>, j: nat, i: nat, m: NodeId)
    requires IsRun(acts, s) && ClaimOf(acts, s, j, i) && Spoiled(acts, s, j, i, m)
    ensures m in s[i].docs && s[i].docs[m].term > acts[j].term
  {
    if Hidden(s[j], m) && s[j].docs[m].term > acts[j].term && !Overwritten(acts, j, i, m) {
      assert forall q :: j <= q < i ==> !WritesAt(acts, q, m);
      UnwrittenKeeps(acts, s, j, i, m);
    } else {
      var k: nat :| j < k < i && WritesAt(acts, k, m) && m in s[k].claims && Written(acts, s, k) > acts[j].term
        && !Overwritten(acts, k, i, m);
      assert StepAt(acts, s, k);
      UnwrittenKeeps(acts, s, k + 1, i, m);
    }
  }

  lemma HigherIsSpoiled(acts: seq<Action>, s: seq<Store>, j: nat, i: nat, m: NodeId)
    requires IsRun(acts, s) && ClaimOf(acts, s, j, i) && m in s[i].docs && s[i].docs[m].term > acts[j].term
    ensures Spoiled(acts, s, j, i, m)
  {
    assert StepAt(acts, s, j);
    if Overwritten(acts, j, i, m) {
      var q := LastWrite(acts, j, i, m);
      assert StepAt(acts, s, q);
      UnwrittenKeeps(acts, s, q + 1, i, m);
    } else {
      assert forall q :: j <= q < i ==> !WritesAt(acts, q, m);
      UnwrittenKeeps(acts, s, j, i, m);
      assert forall x :: x in s[j].docs && !Hidden(s[j], x) ==> x in Visible(s[j].docs, s[j].clock);
    }
  }

  /** A claim writes a term that tops the registry if and only if no document out of sight at its
      validation, and no write of another claim since, still stands with a higher one. */
  lemma ClaimTopsExactly(acts: seq<Action>, s: seq<Store>, j: nat, i: nat)
    requires IsRun(acts, s) && ClaimOf(acts, s, j, i)
    ensures Tops(s[i].docs, acts[j].term) <==> forall m :: !Spoiled(acts, s, j, i, m)
  {
    if Tops(s[i].docs, acts[j].term) {
      forall m ensures !Spoiled(acts, s, j, i, m) {
        if Spoiled(acts, s, j, i, m) {
          SpoiledStays(acts, s, j, i, m);
        }
      }
    } else {
      var m :| m in s[i].docs && s[i].docs[m].term > acts[j].term;
      HigherIsSpoiled(acts, s, j, i, m);
    }
  }
}
