/** What the processing list really holds. Its entries are jobs as popped; the removals compare them
    with jobs as rewritten by the worker. */
module ProcessingList {
  import opened Jobs
  import opened RedisQueue
  import opened JobSystem
  import opened JobSums
  import opened ExactlyOnce
  import opened JobRecords
  import Movers
  import NoLoss

  /** Every submission so far was pending. */
  predicate AllPending(s: System) {
    forall id :: id in s.origin ==> s.origin[id].status == Pending
  }

  /** A noted job is older than the attempt in progress, unless it is that attempt. */
  ghost predicate NotedOk(s: System, e: Job) {
    && Known(s, e.id) && (e.status == Pending || e.status == Retrying)
    && (e.retryCount < s.origin[e.id].retryCount + s.attempts[e.id]
        || (e.retryCount == s.origin[e.id].retryCount + s.attempts[e.id] && Noted(e) in s.workers))
  }

  ghost predicate Unpruned(s: System) {
    && Consistent(s) && !s.byId && AllPending(s)
    && s.store.processing == Reverse(s.noted)
    && forall e :: e in s.noted ==> NotedOk(s, e)
  }

  /** The value a worker removes was never noted: its status has changed, or its retry count has. */
  lemma RemovalMatchesNothing(s: System, w: nat)
    requires Unpruned(s) && Enabled(s, Remove(w))
    ensures s.workers[w].job !in s.store.processing
    ensures Apply(s, Remove(w)).store.processing == s.store.processing
  {
    var j := s.workers[w].job;
    NoLoss.ReverseMembers(s.noted);
    assert HandOk(s, s.workers[w]);
    if j in s.noted {
      assert NotedOk(s, j);
      if Noted(j) in s.workers {
        var v :| 0 <= v < |s.workers| && s.workers[v] == Noted(j);
        HandIsAlone(s, w);
      }
    }
    WithoutMembers(s.store.processing, j);
  }

  lemma OtherStepsOnProcessing(s: System, a: Action)
    requires Enabled(s, a) && !a.Note? && !a.Remove?
    ensures Apply(s, a).store.processing == s.store.processing && Apply(s, a).noted == s.noted
    ensures Apply(s, a).byId == s.byId
  {
    if a.Leave? && s.workers[a.w].ending.ToRetry? {
      RetryState(s, a.w);
    } else {
      match a
      case MoveOne(_) =>
      case Take(_) =>
      case Leave(_) =>
      case _ =>
    }
  }

  lemma NotedOkStep(s: System, a: Action, e: Job)
    requires Unpruned(s) && Enabled(s, a) && Reliable(a) && e in s.noted
    ensures NotedOk(Apply(s, a), e)
  {
    var t := Apply(s, a);
    assert NotedOk(s, e);
    if a.Begin? && s.workers[a.w].job.id == e.id {
      assert t.origin[e.id] == s.origin[e.id] && t.attempts[e.id] == s.attempts[e.id] + 1;
    } else {
      AttemptsStay(s, a, e.id);
      if Noted(e) in s.workers {
        StaysNoted(s, a, e);
      }
    }
  }

  lemma AttemptsStay(s: System, a: Action, id: JobId)
    requires Enabled(s, a) && Known(s, id) && (a.Begin? ==> s.workers[a.w].job.id != id)
    ensures Known(Apply(s, a), id)
    ensures Apply(s, a).origin[id] == s.origin[id] && Apply(s, a).attempts[id] == s.attempts[id]
  {
    if Rewrites(s, a, id) {
      assert a.Finish?;
      assert Apply(s, a).attempts == s.attempts && id in Apply(s, a).stored;
    } else {
      RecordKeeps(s, a, id);
    }
  }

  /** A worker that has noted a job keeps it until it begins. */
  lemma StaysNoted(s: System, a: Action, e: Job)
    requires Enabled(s, a) && Noted(e) in s.workers && (a.Begin? ==> s.workers[a.w].job.id != e.id)
    ensures Noted(e) in Apply(s, a).workers
  {
    var w: nat :| w < |s.workers| && s.workers[w] == Noted(e);
    NoLoss.Bystander(s, a, w);
    assert Apply(s, a).workers[w] == Noted(e);
  }

  lemma NewNote(s: System, w: nat)
    requires Unpruned(s) && Enabled(s, Note(w))
    ensures NotedOk(Apply(s, Note(w)), s.workers[w].job)
  {
    var t := Apply(s, Note(w));
    assert HandOk(s, s.workers[w]);
    assert t.workers[w] == Noted(s.workers[w].job);
    assert s.workers[w].job.id in s.origin;
  }

  lemma UnprunedStep(s: System, a: Action)
    requires Unpruned(s) && Enabled(s, a) && Reliable(a) && Fresh(s, a)
    requires a.Submit? ==> a.j.status == Pending
    ensures Unpruned(Apply(s, a))
  {
    ConsistentStep(s, a);
    HistoryStep(s, a);
    PendingStep(s, a);
    AllNotedStep(s, a);
  }

  lemma PendingStep(s: System, a: Action)
    requires AllPending(s) && Enabled(s, a) && (a.Submit? ==> a.j.status == Pending)
    ensures AllPending(Apply(s, a))
  {
    NoLoss.OriginGrows(s, a);
  }

  lemma AllNotedStep(s: System, a: Action)
    requires Unpruned(s) && Enabled(s, a) && Reliable(a)
    ensures forall e :: e in Apply(s, a).noted ==> NotedOk(Apply(s, a), e)
  {
    HistoryStep(s, a);
    forall e | e in Apply(s, a).noted ensures NotedOk(Apply(s, a), e) {
      if e in s.noted {
        NotedOkStep(s, a, e);
      } else {
        NewNote(s, a.w);
      }
    }
  }

  lemma HistoryStep(s: System, a: Action)
    requires Unpruned(s) && Enabled(s, a)
    ensures var t := Apply(s, a);
      && !t.byId && t.store.processing == Reverse(t.noted)
      && t.noted == if a.Note? then s.noted + [s.workers[a.w].job] else s.noted
  {
    if a.Note? {
      ReverseAppend(s.noted, [s.workers[a.w].job]);
      assert Reverse([s.workers[a.w].job]) == [s.workers[a.w].job];
    } else if a.Remove? {
      RemovalMatchesNothing(s, a.w);
    } else {
      OtherStepsOnProcessing(s, a);
    }
  }

  lemma {:induction false} UnprunedAt(acts: seq<Action>, s: seq<System>, i: nat)
    requires IsRun(acts, s) && i < |s| && !s[0].byId && FreshRun(acts, s, i)
    requires forall k :: 0 <= k < i && acts[k].Submit? ==> acts[k].j.status == Pending
    ensures Unpruned(s[i])
  {
    ConsistentAt(acts, s, i);
    if i > 0 {
      UnprunedAt(acts, s, i - 1);
      assert StepAt(acts, s, i - 1);
      UnprunedStep(s[i - 1], acts[i - 1]);
    }
  }

  /** As the code compares, no removal ever matches: the processing list is the history of pops, newest first. */
  lemma ProcessingListIsPopHistory(acts: seq<Action>, s: seq<System>, i: nat)
    requires IsRun(acts, s) && i < |s| && !s[0].byId && FreshRun(acts, s, i)
    requires forall k :: 0 <= k < i && acts[k].Submit? ==> acts[k].j.status == Pending
    ensures s[i].store.processing == Reverse(s[i].noted)
    ensures i < |acts| && acts[i].Remove? ==> s[i + 1].store.processing == s[i].store.processing
  {
    UnprunedAt(acts, s, i);
    if i < |acts| && acts[i].Remove? {
      assert StepAt(acts, s, i);
      RemovalMatchesNothing(s[i], acts[i].w);
    }
  }

  // ---- If removals compared ids ----------------------------------------------------------------

  predicate Listed(p: Phase) {
    p.Noted? || p.Working? || p.Closing?
  }

  function InFlight(ws: seq<Phase>, id: JobId): nat {
    if ws == [] then 0
    else (if Listed(ws[0]) && ws[0].job.id == id then 1 else 0) + InFlight(ws[1..], id)
  }

  lemma {:induction false} InFlightUpdate(ws: seq<Phase>, w: nat, p: Phase, id: JobId)
    requires w < |ws|
    ensures InFlight(ws[w := p], id) + (if Listed(ws[w]) && ws[w].job.id == id then 1 else 0)
         == InFlight(ws, id) + if Listed(p) && p.job.id == id then 1 else 0
  {
    if w == 0 {
      assert ws[w := p][1..] == ws[1..];
    } else {
      assert ws[w := p][1..] == ws[1..][w - 1 := p];
      InFlightUpdate(ws[1..], w - 1, p, id);
    }
  }

  lemma {:induction false} CountWithoutId(s: seq<Job>, x: JobId, id: JobId)
    requires Sum(s, OneOf(x)) > 0
    ensures Sum(WithoutId(s, x), OneOf(id)) == Sum(s, OneOf(id)) - if x == id then 1 else 0
  {
    if s[0].id != x {
      CountWithoutId(s[1..], x, id);
      SumCons(s[0], WithoutId(s[1..], x), OneOf(id));
    }
  }

  ghost predicate Mirrors(s: System) {
    s.byId && forall id :: Sum(s.store.processing, OneOf(id)) == InFlight(s.workers, id)
  }

  lemma MirrorsStep(s: System, a: Action)
    requires Mirrors(s) && Enabled(s, a) && Reliable(a)
    ensures Mirrors(Apply(s, a))
  {
    var t := Apply(s, a);
    NoLoss.OriginGrows(s, a);
    assert t.byId by {
      if !a.Note? && !a.Remove? {
        OtherStepsOnProcessing(s, a);
      }
    }
    forall id ensures Sum(t.store.processing, OneOf(id)) == InFlight(t.workers, id) {
      if a.Note? {
        SumCons(s.workers[a.w].job, s.store.processing, OneOf(id));
        InFlightUpdate(s.workers, a.w, t.workers[a.w], id);
      } else if a.Remove? {
        var x := s.workers[a.w].job.id;
        InFlightUpdate(s.workers, a.w, t.workers[a.w], x);
        InFlightUpdate(s.workers, a.w, t.workers[a.w], id);
        CountWithoutId(s.store.processing, x, id);
      } else {
        OtherStepsOnProcessing(s, a);
        UnlistedStep(s, a, id);
      }
    }
  }

  lemma UnlistedStep(s: System, a: Action, id: JobId)
    requires Enabled(s, a) && Reliable(a) && !a.Note? && !a.Remove?
    ensures InFlight(Apply(s, a).workers, id) == InFlight(s.workers, id)
  {
    if !a.Tick? && !a.Submit? {
      WorkersUpdate(s, a);
      InFlightUpdate(s.workers, a.w, Apply(s, a).workers[a.w], id);
      SameListing(s, a);
    }
  }

  lemma SameListing(s: System, a: Action)
    requires Enabled(s, a) && Reliable(a) && !a.Tick? && !a.Submit? && !a.Note? && !a.Remove?
    ensures |Apply(s, a).workers| == |s.workers|
    ensures var p, q := s.workers[a.w], Apply(s, a).workers[a.w];
      (Listed(p) <==> Listed(q)) && (Listed(p) ==> p.job.id == q.job.id)
  {
    if a.MoveOne? || a.Leave? {
      Movers.NotInHand(s, a);
      NoLoss.OriginGrows(s, a);
    } else {
      match a
      case Take(_) =>
      case Finish(_, _, _) =>
      case _ =>
    }
  }

  /** If it compared ids, the list would hold exactly the jobs in the workers' hands, however the
      commands interleave. */
  lemma {:induction false} ByIdListIsInHand(acts: seq<Action>, s: seq<System>, i: nat, id: JobId)
    requires IsRun(acts, s) && i < |s| && s[0].byId
    requires forall k :: 0 <= k < i ==> Reliable(acts[k])
    ensures Sum(s[i].store.processing, OneOf(id)) == InFlight(s[i].workers, id)
  {
    MirrorsAt(acts, s, i);
  }

  lemma {:induction false} MirrorsAt(acts: seq<Action>, s: seq<System>, i: nat)
    requires IsRun(acts, s) && i < |s| && s[0].byId
    requires forall k :: 0 <= k < i ==> Reliable(acts[k])
    ensures Mirrors(s[i])
  {
    if i == 0 {
      NothingInFlight(s[0].workers);
    } else {
      MirrorsAt(acts, s, i - 1);
      assert StepAt(acts, s, i - 1);
      MirrorsStep(s[i - 1], acts[i - 1]);
    }
  }

  lemma {:induction false} NothingInFlight(ws: seq<Phase>)
    requires forall w :: 0 <= w < |ws| ==> ws[w] == Resting
    ensures forall id :: InFlight(ws, id) == 0
  {
    if ws != [] {
      NothingInFlight(ws[1..]);
    }
  }
}
