/** A lone claimant over runs of the interleaved protocol: from its begin to the end of its claim only it
    acts, at any pace, while its verification may err twice. */
module ClaimAlone {
  import opened Registry
  import opened ClaimProtocol

  ghost predicate Path(acts: seq<Action>, s: seq<Cluster>) {
    |s| == |acts| + 1 && forall i :: 0 <= i < |acts| ==> StepAt(acts, s, i)
  }

  /** Only `n` acts or the clock ticks, and apart from verifications no store operation errs. */
  predicate Solo(a: Action, n: NodeId) {
    && (a.Tick? || a.n == n)
    && (a.Clear? || a.Count? ==> a.ok)
    && (a.RaiseFlag? ==> a.ok)
  }

  predicate UnderWay(p: Phase) {
    p.Clearing? || p.Cleared? || p.Counting? || p.Raising? || p.Verifying?
  }

  /** One claim of `n`, from its begin to its end; it does not end by a third failed verification. */
  ghost predicate Claims(acts: seq<Action>, s: seq<Cluster>, n: NodeId) {
    && Path(acts, s) && 0 < |acts| && acts[0] == Begin(n)
    && (forall i :: 0 <= i < |acts| ==> Solo(acts[i], n))
    && (forall i :: 0 < i < |acts| ==> n in s[i].phase && UnderWay(s[i].phase[n]))
    && n in s[|acts|].phase && !UnderWay(s[|acts|].phase[n])
    && acts[|acts| - 1] != Verify(n, false)
  }

  /** No other flag was seen within 3 s of `now`. */
  predicate Alone(docs: Docs, n: NodeId, now: Time) {
    forall m :: m in docs && m != n && docs[m].isLeader ==> docs[m].lastSeen < now - ACTIVE_WINDOW
  }

  /** Other documents are as they were, except that flags stale at the begin may be down. */
  ghost predicate OthersKept(was: Docs, docs: Docs, n: NodeId, begin: Time) {
    forall m :: m != n ==>
      && (m in docs <==> m in was)
      && (m in was ==>
            docs[m] == was[m] || (docs[m] == was[m].(isLeader := false) && was[m].lastSeen < begin - STALE_AFTER))
  }

  lemma CountIffAlone(was: Docs, docs: Docs, n: NodeId, begin: Time, now: Time)
    requires OthersKept(was, docs, n, begin) && begin <= now
    ensures FreshLeaders(docs, now - ACTIVE_WINDOW) - {n} == {} <==> Alone(was, n, now)
  {
    if FreshLeaders(docs, now - ACTIVE_WINDOW) - {n} == {} {
      forall m | m in was && m != n && was[m].isLeader ensures was[m].lastSeen < now - ACTIVE_WINDOW {
        assert m !in FreshLeaders(docs, now - ACTIVE_WINDOW) - {n};
      }
    }
  }

  lemma VerifiesAlone(was: Docs, docs: Docs, n: NodeId, begin: Time, now: Time)
    requires OthersKept(was, docs, n, begin) && Alone(was, n, now)
    ensures |FreshLeaders(docs, now - VERIFY_WINDOW)| <= 1
  {
    var found := FreshLeaders(docs, now - VERIFY_WINDOW);
    assert found <= {n};
    assert found == {} || found == {n};
  }

  /** The write that raised the flag changed the document: there was none, or it had another flag, time,
      profile or term. */
  predicate Changed(acts: seq<Action>, s: seq<Cluster>, n: NodeId, r: int)
    requires |s| == |acts| + 1
  {
    && 0 <= r < |acts| && acts[r].RaiseFlag? && n in s[r].phase && s[r].phase[n].Raising?
    && (n in s[r].docs ==>
          var doc := s[r].docs[n];
          || !doc.isLeader || doc.lastSeen != s[r].phase[n].now
          || doc.profile != CLAIM_PROFILE || doc.term != acts[r].term)
  }

  predicate CountedAt(acts: seq<Action>, s: seq<Cluster>, n: NodeId, c: int, now: Time)
    requires |s| == |acts| + 1
  {
    0 < c < |acts| && acts[c] == Count(n, true) && n in s[c].phase && s[c].phase[n] == Counting(now)
  }

  /** No write so far. */
  predicate NoRaise(acts: seq<Action>, i: nat)
    requires i <= |acts|
  {
    forall r :: 0 <= r < i ==> !acts[r].RaiseFlag?
  }

  /** One write so far, and whether it changed the document. */
  ghost predicate RaisedOnce(acts: seq<Action>, s: seq<Cluster>, n: NodeId, i: nat, changed: bool)
    requires |s| == |acts| + 1 && i <= |acts|
  {
    exists q: nat :: q < i && acts[q].RaiseFlag? && (changed <==> Changed(acts, s, n, q))
      && forall r :: 0 <= r < i && acts[r].RaiseFlag? ==> r == q
  }

  ghost predicate CountedAlone(acts: seq<Action>, s: seq<Cluster>, n: NodeId, now: Time)
    requires |s| == |acts| + 1
  {
    s[0].clock <= now && Alone(s[0].docs, n, now) && exists c :: CountedAt(acts, s, n, c, now)
  }

  /** Where the claim stands after `i` steps. */
  ghost predicate Reached(acts: seq<Action>, s: seq<Cluster>, n: NodeId, i: nat)
    requires |s| == |acts| + 1 && i < |acts| && n in s[i].phase
  {
    && s[0].clock <= s[i].clock && OthersKept(s[0].docs, s[i].docs, n, s[0].clock)
    && match s[i].phase[n]
       case Clearing(stale) => stale == s[0].clock - STALE_AFTER && NoRaise(acts, i)
       case Cleared => NoRaise(acts, i)
       case Counting(now) => s[0].clock <= now && NoRaise(acts, i)
       case Raising(now) => CountedAlone(acts, s, n, now) && NoRaise(acts, i)
       case Verifying(now, _, _, _, changed) => CountedAlone(acts, s, n, now) && RaisedOnce(acts, s, n, i, changed)
       case _ => true
  }

  /** Steps that leave the phase alone, and the documents of others. */
  lemma QuietStep(acts: seq<Action>, s: seq<Cluster>, n: NodeId, i: nat)
    requires Claims(acts, s, n) && 0 < i && i + 1 < |acts| && Reached(acts, s, n, i)
    requires acts[i].Tick? || acts[i].Land? || acts[i].Drop?
    ensures Reached(acts, s, n, i + 1)
  {
    assert StepAt(acts, s, i) && Solo(acts[i], n);
    assert s[i + 1].phase[n] == s[i].phase[n];
    assert NoRaise(acts, i) ==> NoRaise(acts, i + 1);
    RaisedOnceStays(acts, s, n, i);
  }

  lemma RaisedOnceStays(acts: seq<Action>, s: seq<Cluster>, n: NodeId, i: nat)
    requires |s| == |acts| + 1 && i < |acts| && !acts[i].RaiseFlag?
    ensures forall changed :: RaisedOnce(acts, s, n, i, changed) ==> RaisedOnce(acts, s, n, i + 1, changed)
  {
    forall changed | RaisedOnce(acts, s, n, i, changed) ensures RaisedOnce(acts, s, n, i + 1, changed) {
      var q: nat :| q < i && acts[q].RaiseFlag? && (changed <==> Changed(acts, s, n, q))
        && forall r :: 0 <= r < i && acts[r].RaiseFlag? ==> r == q;
      assert forall r :: 0 <= r < i + 1 && acts[r].RaiseFlag? ==> r == q;
    }
  }

  /** The steps up to the count. */
  lemma EarlyStep(acts: seq<Action>, s: seq<Cluster>, n: NodeId, i: nat)
    requires Claims(acts, s, n) && 0 < i && i + 1 < |acts| && Reached(acts, s, n, i)
    requires acts[i].Clear? || acts[i].ReadNow? || acts[i].Count?
    ensures Reached(acts, s, n, i + 1)
  {
    assert StepAt(acts, s, i) && Solo(acts[i], n);
    assert NoRaise(acts, i + 1);
    if acts[i].Count? {
      var now := s[i].phase[n].now;
      CountIffAlone(s[0].docs, s[i].docs, n, s[0].clock, now);
      assert UnderWay(s[i + 1].phase[n]);
      assert CountedAt(acts, s, n, i, now);
    }
  }

  lemma RaisingStep(acts: seq<Action>, s: seq<Cluster>, n: NodeId, i: nat)
    requires Claims(acts, s, n) && 0 < i && i + 1 < |acts| && Reached(acts, s, n, i) && acts[i].RaiseFlag?
    ensures Reached(acts, s, n, i + 1)
  {
    assert StepAt(acts, s, i) && Solo(acts[i], n);
    var changed := s[i + 1].phase[n].changed;
    assert changed <==> Changed(acts, s, n, i);
    assert RaisedOnce(acts, s, n, i + 1, changed);
  }

  /** A verification that errs and is tried again. */
  lemma RetryStep(acts: seq<Action>, s: seq<Cluster>, n: NodeId, i: nat)
    requires Claims(acts, s, n) && 0 < i && i + 1 < |acts| && Reached(acts, s, n, i) && acts[i].Verify?
    ensures Reached(acts, s, n, i + 1)
  {
    assert StepAt(acts, s, i) && Solo(acts[i], n);
    assert UnderWay(s[i + 1].phase[n]);
    RaisedOnceStays(acts, s, n, i);
  }

  /** While a claim is under way its node can do nothing else. */
  lemma OnlyClaimSteps(c: Cluster, a: Action, n: NodeId)
    requires WellFormed(c) && Enabled(c, a) && n in c.phase && UnderWay(c.phase[n]) && Solo(a, n)
    ensures || a.Tick? || a.Land? || a.Drop? || a.RaiseFlag? || a.Verify?
            || a.Clear? || a.ReadNow? || a.Count?
  {
  }

  lemma ReachedStep(acts: seq<Action>, s: seq<Cluster>, n: NodeId, i: nat)
    requires Claims(acts, s, n) && 0 < i && i + 1 < |acts| && Reached(acts, s, n, i)
    ensures Reached(acts, s, n, i + 1)
  {
    var a := acts[i];
    assert StepAt(acts, s, i) && Solo(a, n) && UnderWay(s[i].phase[n]);
    OnlyClaimSteps(s[i], a, n);
    if a.Tick? || a.Land? || a.Drop? {
      QuietStep(acts, s, n, i);
    } else if a.RaiseFlag? {
      RaisingStep(acts, s, n, i);
    } else if a.Verify? {
      RetryStep(acts, s, n, i);
    } else {
      EarlyStep(acts, s, n, i);
    }
  }

  lemma {:induction false} ReachedAt(acts: seq<Action>, s: seq<Cluster>, n: NodeId, i: nat)
    requires Claims(acts, s, n) && 0 < i < |acts|
    ensures n in s[i].phase && Reached(acts, s, n, i)
  {
    if i == 1 {
      assert StepAt(acts, s, 0);
      assert NoRaise(acts, 1);
    } else {
      ReachedAt(acts, s, n, i - 1);
      ReachedStep(acts, s, n, i - 1);
    }
  }

  /** A lone claimant succeeds if and only if no other flag was seen within the last 3 s of its reading
      of the clock and its own write changed the document; it never has to back off. */
  lemma LoneClaimSucceeds(acts: seq<Action>, s: seq<Cluster>, n: NodeId) returns (c: nat, now: Time)
    requires Claims(acts, s, n)
    ensures CountedAt(acts, s, n, c, now) && !s[|acts|].phase[n].BackingOff?
    ensures s[|acts|].phase[n].Holding? <==> Alone(s[0].docs, n, now) && exists r :: Changed(acts, s, n, r)
  {
    var k := |acts|;
    assert StepAt(acts, s, k - 1) && Solo(acts[k - 1], n);
    assert k > 1;
    ReachedAt(acts, s, n, k - 1);
    assert UnderWay(s[k - 1].phase[n]);
    if acts[k - 1].Count? {
      c, now := k - 1, s[k - 1].phase[n].now;
      CountIffAlone(s[0].docs, s[k - 1].docs, n, s[0].clock, now);
    } else {
      c, now := VerificationEnds(acts, s, n);
    }
  }

  lemma VerificationEnds(acts: seq<Action>, s: seq<Cluster>, n: NodeId) returns (c: nat, now: Time)
    requires Claims(acts, s, n) && |acts| > 1 && acts[|acts| - 1] == Verify(n, true)
    requires n in s[|acts| - 1].phase && s[|acts| - 1].phase[n].Verifying? && Reached(acts, s, n, |acts| - 1)
    ensures CountedAt(acts, s, n, c, now) && !s[|acts|].phase[n].BackingOff?
    ensures s[|acts|].phase[n].Holding? <==> Alone(s[0].docs, n, now) && exists r :: Changed(acts, s, n, r)
  {
    var k := |acts| - 1;
    assert StepAt(acts, s, k);
    var p := s[k].phase[n];
    now := p.now;
    c :| CountedAt(acts, s, n, c, now);
    VerifiesAlone(s[0].docs, s[k].docs, n, s[0].clock, now);
    var q: nat :| q < k && acts[q].RaiseFlag? && (p.changed <==> Changed(acts, s, n, q))
      && forall r :: 0 <= r < k && acts[r].RaiseFlag? ==> r == q;
    assert forall r :: Changed(acts, s, n, r) ==> r == q;
  }
}
