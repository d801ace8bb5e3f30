/** When delayed jobs come out, and in which order jobs come out. These hold in every interleaving. */
module QueueOrder {
  import opened Jobs
  import opened RedisQueue
  import opened JobSystem
  import NoLoss

  /** The mover's window opens exactly at the start of the scheduled second. */
  lemma DueFromScheduledSecond(j: Job, now: Time)
    requires 0 <= j.scheduledAt
    ensures IsDue(j, now) <==> Unix(j.scheduledAt) * SECOND <= now
  {
  }

  predicate NotEarly(j: Job, now: Time) {
    j.scheduledAt < now + SECOND
  }

  lemma DueIsNotEarly(z: seq<Job>, now: Time)
    ensures forall j :: j in Due(z, now) ==> NotEarly(j, now)
  {
    DueMembers(z, now);
  }

  /** What was pushed is what was taken, followed by what is still ready. */
  predicate Fifo(s: System) {
    s.pushed == s.taken + Reverse(s.store.ready)
  }

  /** The sorted set is one, with scores from 0 on. */
  predicate SetOk(z: seq<Job>) {
    Sorted(z) && Distinct(z) && forall e :: e in z ==> 0 <= Score(e)
  }

  ghost predicate NoneEarly(s: System) {
    && (forall e :: e in s.store.ready ==> NotEarly(e, s.clock))
    && (forall w, e :: 0 <= w < |s.workers| && s.workers[w].Moving? && e in s.workers[w].due ==> NotEarly(e, s.clock))
  }

  ghost predicate Ordered(s: System) {
    0 <= s.clock && Fifo(s) && SetOk(s.store.delayed) && NoneEarly(s)
  }

  /** A left push is the newest entry of the history. */
  lemma PushedLast(s: System, j: Job)
    requires Fifo(s)
    ensures s.pushed + [j] == s.taken + Reverse([j] + s.store.ready)
  {
    ReverseAppend([j], s.store.ready);
    assert Reverse([j]) == [j];
  }

  lemma FifoMoveAll(s: System, w: nat)
    requires Fifo(s) && Enabled(s, MoveAll(w))
    ensures Fifo(Apply(s, MoveAll(w)))
  {
    var due := Due(s.store.delayed, s.clock);
    ReverseAppend(Reverse(due), s.store.ready);
    ReverseTwice(due);
    assert s.taken + (Reverse(s.store.ready) + due) == (s.taken + Reverse(s.store.ready)) + due;
  }

  lemma FifoTake(s: System, w: nat)
    requires Fifo(s) && Enabled(s, Take(w))
    ensures Fifo(Apply(s, Take(w)))
  {
    var r := s.store.ready;
    if r != [] {
      var last := r[|r| - 1];
      assert r == r[..|r| - 1] + [last];
      ReverseAppend(r[..|r| - 1], [last]);
      assert Reverse([last]) == [last];
      assert s.taken + ([last] + Reverse(r[..|r| - 1])) == (s.taken + [last]) + Reverse(r[..|r| - 1]);
    }
  }

  /** A push through Queued. */
  lemma FifoQueued(s: System, j: Job)
    requires Fifo(s)
    ensures Fifo(Queued(s, j))
  {
    PushedLast(s, j);
  }

  lemma FifoStep(s: System, a: Action)
    requires Fifo(s) && Enabled(s, a)
    ensures Fifo(Apply(s, a))
  {
    match a
    case Submit(j) => FifoQueued(s, j);
    case MoveOne(w) => PushedLast(s, s.workers[w].due[0]);
    case MoveAll(w) => FifoMoveAll(s, w);
    case Take(w) => FifoTake(s, w);
    case Leave(w) => FifoLeave(s, w);
    case Finish(_, _, _) =>
    case _ =>
  }

  lemma FifoLeave(s: System, w: nat)
    requires Fifo(s) && Enabled(s, Leave(w))
    ensures Fifo(Apply(s, Leave(w)))
  {
    if s.workers[w].ending.ToRetry? {
      FifoQueued(s, s.workers[w].job);
      assert Apply(s, Leave(w)) == Queued(With(s, w, Resting), s.workers[w].job).(retries := s.retries + 1);
    }
  }

  lemma ZAddOk(z: seq<Job>, j: Job)
    requires SetOk(z) && 0 <= Score(j)
    ensures SetOk(ZAdd(z, j))
  {
    if j !in z {
      InsertMembers(z, j);
      InsertOrder(z, j);
      InsertDistinct(z, j);
    }
  }

  lemma {:induction false} NotDueDistinct(z: seq<Job>, now: Time)
    requires Distinct(z)
    ensures Distinct(NotDue(z, now))
  {
    if z != [] {
      assert z == [z[0]] + z[1..];
      DistinctCons(z[0], z[1..]);
      NotDueDistinct(z[1..], now);
      DueMembers(z[1..], now);
      DistinctCons(z[0], NotDue(z[1..], now));
    }
  }

  lemma SetStep(s: System, a: Action)
    requires 0 <= s.clock && SetOk(s.store.delayed) && Enabled(s, a)
    ensures 0 <= Apply(s, a).clock && SetOk(Apply(s, a).store.delayed)
  {
    var z := s.store.delayed;
    ClockGrows(s, a);
    match a {
      case Submit(j) =>
        if j.scheduledAt > s.clock { ZAddOk(z, j); }
      case Leave(w) =>
        LeaveDelayed(s, w);
        if s.workers[w].job.scheduledAt > s.clock { ZAddOk(z, s.workers[w].job); }
      case MoveOne(w) => DropKeepsOrder(s, w);
      case MoveAll(w) =>
        DueMembers(z, s.clock);
        DueOrder(z, s.clock);
        NotDueDistinct(z, s.clock);
      case _ => DelayedStays(s, a);
    }
  }

  lemma DropKeepsOrder(s: System, w: nat)
    requires SetOk(s.store.delayed) && Enabled(s, MoveOne(w))
    ensures SetOk(Apply(s, MoveOne(w)).store.delayed)
  {
    var z, x := s.store.delayed, s.workers[w].due[0];
    WithoutMembers(z, x);
    WithoutOrder(z, x);
    WithoutDistinct(z, x);
  }

  lemma LeaveDelayed(s: System, w: nat)
    requires Enabled(s, Leave(w))
    ensures Apply(s, Leave(w)).store.delayed ==
      if s.workers[w].ending.ToRetry? then Pushed(s.store, s.workers[w].job, s.clock).delayed else s.store.delayed
  {
    if s.workers[w].ending.ToRetry? {
      assert Apply(s, Leave(w)).store == Pushed(s.store, s.workers[w].job, s.clock);
    }
  }

  lemma DelayedStays(s: System, a: Action)
    requires Enabled(s, a) && !a.Submit? && !a.Leave? && !a.MoveOne? && !a.MoveAll?
    ensures Apply(s, a).store.delayed == s.store.delayed
  {
    match a
    case Take(_) =>
    case Finish(_, _, _) =>
    case _ =>
  }

  /** Whatever reaches the ready list is due, was ready, or was pushed with a schedule in the past. */
  lemma ReadySource(s: System, a: Action, e: Job)
    requires Enabled(s, a) && e in Apply(s, a).store.ready
    ensures || e in s.store.ready || e.scheduledAt <= s.clock
            || (a.MoveAll? && e in Due(s.store.delayed, s.clock))
            || (a.MoveOne? && e in s.workers[a.w].due)
  {
    match a {
      case MoveAll(_) => NoLoss.ReverseMembers(Due(s.store.delayed, s.clock));
      case MoveOne(_) =>
      case Take(_) =>
      case Leave(_) =>
      case Submit(_) =>
      case Finish(_, _, _) =>
      case _ =>
    }
  }

  lemma MovingSource(s: System, a: Action, w: nat)
    requires Enabled(s, a) && w < |Apply(s, a).workers| && Apply(s, a).workers[w].Moving?
    ensures w < |s.workers| && forall e :: e in Apply(s, a).workers[w].due ==>
      e in Due(s.store.delayed, s.clock) || (s.workers[w].Moving? && e in s.workers[w].due)
  {
    NoLoss.OriginGrows(s, a);
    if a.Tick? || a.Submit? || a.w != w {
      NoLoss.Bystander(s, a, w);
    } else {
      OwnSnapshot(s, a);
    }
  }

  lemma OwnSnapshot(s: System, a: Action)
    requires Enabled(s, a) && !a.Tick? && !a.Submit?
    ensures a.w < |Apply(s, a).workers|
    ensures var p, q := s.workers[a.w], Apply(s, a).workers[a.w];
      q.Moving? ==>
        || q.due == []
        || (a.ReadDue? && q.due == Due(s.store.delayed, s.clock))
        || (p.Moving? && (q.due == p.due || q.due == p.due[1..]))
  {
    if a.Leave? {
      NoLoss.LeaveFrame(s, a.w);
    } else {
      match a
      case MoveOne(_) =>
      case Take(_) =>
      case Finish(_, _, _) =>
      case _ =>
    }
  }

  lemma NoneEarlyStep(s: System, a: Action)
    requires NoneEarly(s) && Enabled(s, a)
    ensures NoneEarly(Apply(s, a))
  {
    var t := Apply(s, a);
    DueIsNotEarly(s.store.delayed, s.clock);
    ClockGrows(s, a);
    forall e | e in t.store.ready ensures NotEarly(e, t.clock) {
      ReadySource(s, a, e);
    }
    forall w, e | 0 <= w < |t.workers| && t.workers[w].Moving? && e in t.workers[w].due ensures NotEarly(e, t.clock) {
      MovingSource(s, a, w);
      assert NotEarly(e, s.clock);
    }
  }

  lemma ClockGrows(s: System, a: Action)
    requires Enabled(s, a)
    ensures s.clock <= Apply(s, a).clock && (!a.Tick? ==> Apply(s, a).clock == s.clock)
  {
    if a.Leave? {
      if s.workers[a.w].ending.ToRetry? {
        assert Apply(s, a) == Queued(With(s, a.w, Resting), s.workers[a.w].job).(retries := s.retries + 1);
      }
    } else {
      match a
      case MoveOne(_) =>
      case Take(_) =>
      case Submit(_) =>
      case Finish(_, _, _) =>
      case _ =>
    }
  }

  lemma OrderedStep(s: System, a: Action)
    requires Ordered(s) && Enabled(s, a)
    ensures Ordered(Apply(s, a))
  {
    FifoStep(s, a);
    SetStep(s, a);
    NoneEarlyStep(s, a);
  }

  lemma {:induction false} OrderedAt(acts: seq<Action>, s: seq<System>, i: nat)
    requires IsRun(acts, s) && i < |s|
    ensures Ordered(s[i])
  {
    if i > 0 {
      OrderedAt(acts, s, i - 1);
      assert StepAt(acts, s, i - 1);
      OrderedStep(s[i - 1], acts[i - 1]);
    }
  }

  /** A job is handed to a worker strictly less than one second before its schedule. */
  lemma JobsAreNotEarly(acts: seq<Action>, s: seq<System>, i: nat)
    requires IsRun(acts, s) && i < |acts| && acts[i].Take? && s[i].store.ready != []
    ensures |s[i + 1].taken| == |s[i].taken| + 1
    ensures var j := s[i + 1].taken[|s[i].taken|];
      Popped(j) in s[i + 1].workers && j.scheduledAt < s[i].clock + SECOND
  {
    OrderedAt(acts, s, i);
    assert StepAt(acts, s, i);
    var j := s[i + 1].taken[|s[i].taken|];
    assert s[i + 1].workers[acts[i].w] == Popped(j);
    assert j in s[i].store.ready && NotEarly(j, s[i].clock);
  }

  /** Ready jobs come out in the order in which they were pushed, whoever pushed them. */
  lemma FirstInFirstOut(acts: seq<Action>, s: seq<System>, i: nat)
    requires IsRun(acts, s) && i < |s|
    ensures s[i].taken <= s[i].pushed
    ensures |s[i].pushed| == |s[i].taken| + |s[i].store.ready|
  {
    OrderedAt(acts, s, i);
    ReverseTwice(s[i].store.ready);
  }

  /** One undisturbed mover pushes exactly the due jobs, by non-decreasing scheduled second; by
      FirstInFirstOut they come out in this order and after all that was ready before. */
  lemma BatchBySecond(acts: seq<Action>, s: seq<System>, i: nat)
    requires IsRun(acts, s) && i < |acts| && acts[i].MoveAll?
    ensures s[i].pushed <= s[i + 1].pushed
    ensures var batch := s[i + 1].pushed[|s[i].pushed|..];
      && Sorted(batch)
      && (forall j :: j in batch <==> j in s[i].store.delayed && Unix(j.scheduledAt) <= Unix(s[i].clock))
      && (forall j :: j in batch ==> j !in s[i + 1].store.delayed)
  {
    OrderedAt(acts, s, i);
    assert StepAt(acts, s, i);
    var due := Due(s[i].store.delayed, s[i].clock);
    DueMembers(s[i].store.delayed, s[i].clock);
    DueOrder(s[i].store.delayed, s[i].clock);
    assert s[i + 1].pushed[|s[i].pushed|..] == due;
  }
}
