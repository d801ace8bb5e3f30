/** Runs whose claims are bids of Raft: each writes a term that validateTermConsistency has accepted. */
module ClaimTerms {
  import opened Registry
  import opened ClaimProtocol
  import opened ClaimRuns
  import opened RaftNode

  /** The write of step `i` belongs to the claim that begins in step `j`. */
  predicate BeginOf(acts: seq<Action>, j: nat, i: nat) {
    && j < i < |acts| && acts[i].RaiseFlag? && acts[j] == Begin(acts[i].n)
    && forall k :: j < k < i ==> acts[k] != acts[j]
  }

  /** Whenever a claim begins, its term passes validation over the documents as they then are. */
  ghost predicate Validated(acts: seq<Action>, s: seq<Cluster>, window: Time) {
    |s| == |acts| + 1 && forall j: nat, i: nat :: BeginOf(acts, j, i) ==>
      Consistent(s[j].docs, acts[i].n, acts[i].term, s[j].clock, window)
  }

  /** Every claim writes a term above all that stand in the registry. */
  ghost predicate Rising(acts: seq<Action>, s: seq<Cluster>)
    requires |s| == |acts| + 1
  {
    forall i :: 0 <= i < |acts| ==> Rises(s[i], acts[i])
  }

  lemma TermRises(c: Cluster, a: Action, m: NodeId)
    requires WellFormed(c) && Enabled(c, a) && Rises(c, a) && m in c.docs
    ensures m in Apply(c, a).docs && c.docs[m].term <= Apply(c, a).docs[m].term
  {
    match a {
      case Verify(_, _) =>
      case _ =>
    }
  }

  lemma {:induction false} TermsRise(acts: seq<Action>, s: seq<Cluster>, j: nat, i: nat, m: NodeId)
    requires IsRun(acts, s) && Rising(acts, s) && j <= i < |s| && m in s[j].docs
    ensures m in s[i].docs && s[j].docs[m].term <= s[i].docs[m].term
    decreases i
  {
    if j < i {
      TermsRise(acts, s, j, i - 1, m);
      assert StepAt(acts, s, i - 1);
      TermRises(s[i - 1], acts[i - 1], m);
    }
  }

  /** Then each claim has been validated, whatever the window for rivals. */
  lemma RisingIsValidated(acts: seq<Action>, s: seq<Cluster>, window: Time)
    requires IsRun(acts, s) && Rising(acts, s)
    ensures Validated(acts, s, window)
  {
    forall j: nat, i: nat | BeginOf(acts, j, i)
      ensures Consistent(s[j].docs, acts[i].n, acts[i].term, s[j].clock, window)
    {
      forall m | m in s[j].docs ensures s[j].docs[m].term < acts[i].term {
        TermsRise(acts, s, j, i, m);
      }
    }
  }
}
