/** A round of the pool's own method as a run of one worker's commands in the interleaved system. */
module JobRounds {
  import opened Wrappers
  import opened Jobs
  import opened RedisQueue
  import opened WorkerPool
  import opened JobSystem

  ghost predicate Path(acts: seq<Action>, s: seq<System>) {
    |s| == |acts| + 1 && forall i :: 0 <= i < |acts| ==> StepAt(acts, s, i)
  }

  ghost predicate Reaches(s: System, t: System) {
    exists acts, states :: Path(acts, states) && states[0] == s && states[|acts|] == t
  }

  lemma Stays(s: System)
    ensures Reaches(s, s)
  {
    assert Path([], [s]) && [s][0] == s;
  }

  /** First a run, and then one more step. */
  lemma StepsOn(s: System, t: System, a: Action)
    requires Reaches(s, t) && Enabled(t, a)
    ensures Reaches(s, Apply(t, a))
  {
    var acts, states :| Path(acts, states) && states[0] == s && states[|acts|] == t;
    var more, all := acts + [a], states + [Apply(t, a)];
    forall i | 0 <= i < |more| ensures StepAt(more, all, i) {
      assert i < |acts| ==> StepAt(acts, states, i);
    }
    assert Path(more, all) && all[0] == s && all[|more|] == Apply(t, a);
  }

  /** `t` differs from `s` in the queue, the histories and counters, and in the phase of worker `w`. */
  predicate Beside(s: System, t: System, w: nat) {
    && t.byId == s.byId && |t.workers| == |s.workers| == |s.counts| == |t.counts|
    && w < |s.workers| && t.workers == s.workers[w := t.workers[w]]
  }

  /** The worker stands at `t` after a run from `s`. */
  ghost predicate Stands(s: System, t: System, w: nat, p: Phase, clock: Time) {
    Beside(s, t, w) && Reaches(s, t) && t.workers[w] == p && t.clock == clock
  }

  lemma Waits(s: System, t: System, w: nat, p: Phase, clock: Time, later: Time) returns (u: System)
    requires Stands(s, t, w, p, clock) && clock <= later
    ensures Stands(s, u, w, p, later) && u == t.(clock := later)
  {
    u := Apply(t, Tick(later));
    StepsOn(s, t, Tick(later));
  }

  // ---- Mover and pop ----------------------------------------------------------------------------

  lemma {:induction false} Pipelines(s: System, t: System, w: nat, due: seq<Job>, sent: nat) returns (u: System)
    requires Stands(s, t, w, Moving(due, false), t.clock)
    ensures Beside(s, u, w) && Stands(s, u, w, u.workers[w], t.clock) && u.workers[w].Moving?
    ensures u.store == Carried(t.store, due, sent) && u.stored == t.stored
    decreases |due|
  {
    u := t;
    if due != [] && sent > 0 {
      var pushed := Apply(t, MoveOne(w));
      StepsOn(s, t, MoveOne(w));
      u := pushed;
      if sent > 1 {
        var dropped := Apply(pushed, MoveOne(w));
        StepsOn(s, pushed, MoveOne(w));
        u := Pipelines(s, dropped, w, due[1..], sent - 2);
      }
    }
  }

  lemma Moves(s: System, t: System, w: nat, read: bool, sent: nat) returns (u: System)
    requires Stands(s, t, w, Resting, t.clock)
    ensures Beside(s, u, w) && Stands(s, u, w, u.workers[w], t.clock) && u.workers[w].Moving?
    ensures u.store == MovedPart(t.store, t.clock, read, sent) && u.stored == t.stored
  {
    u := Apply(t, ReadDue(w));
    StepsOn(s, t, ReadDue(w));
    if read {
      u := Pipelines(s, u, w, Due(t.store.delayed, t.clock), sent);
    }
  }

  /** BRPOP and the note; a pop without an answer loses the job that it takes. */
  lemma Pops(s: System, t: System, w: nat, pop: Reply, note: Reply) returns (u: System)
    requires Beside(s, t, w) && Stands(s, t, w, t.workers[w], t.clock) && t.workers[w].Moving?
    requires !pop.Lost? && !note.Lost?
    ensures u.store == TakenFrom(t.store, pop, note) && u.stored == t.stored
    ensures Stands(s, u, w,
      if t.store.ready == [] || pop.Unanswered? then Resting else Noted(t.store.ready[|t.store.ready| - 1]), t.clock)
  {
    u := Apply(t, Take(w));
    StepsOn(s, t, Take(w));
    if t.store.ready != [] {
      u := Receives(s, u, w, t.store.ready[|t.store.ready| - 1], pop.Done?);
    }
  }

  lemma Receives(s: System, t: System, w: nat, j: Job, answered: bool) returns (u: System)
    requires Stands(s, t, w, Popped(j), t.clock)
    ensures Stands(s, u, w, if answered then Noted(j) else Resting, t.clock) && u.stored == t.stored
    ensures u.store == if answered then t.store.(processing := [j] + t.store.processing) else t.store
  {
    if answered {
      u := Apply(t, Note(w));
      StepsOn(s, t, Note(w));
    } else {
      u := GivesUp(s, t, w, Popped(j));
    }
  }

  // ---- Work and ending --------------------------------------------------------------------------

  lemma Begins(s: System, t: System, w: nat, j: Job, name: string) returns (u: System)
    requires Stands(s, t, w, Noted(j), t.clock)
    ensures var e := j.(workerId := name, status := Running, startedAt := Some(t.clock), updatedAt := t.clock);
      Stands(s, u, w, Working(e), t.clock) && u.store == t.store && u.stored == Recorded(t.stored, e, Done)
  {
    u := Apply(t, Begin(w, name));
    StepsOn(s, t, Begin(w, name));
  }

  lemma Finishes(s: System, t: System, w: nat, j: Job, outcome: Outcome, delay: Time) returns (u: System)
    requires Stands(s, t, w, Working(j), t.clock)
    ensures var (e, ending) := Ended(j, outcome, delay, t.clock);
      Stands(s, u, w, Closing(e, ending), t.clock) && u.store == t.store && u.stored == Recorded(t.stored, e, Done)
  {
    u := Apply(t, Finish(w, outcome, delay));
    StepsOn(s, t, Finish(w, outcome, delay));
  }

  /** The removal and the last push; where either fails the worker gives the job up. */
  lemma Leaves(s: System, t: System, w: nat, e: Job, ending: Ending, pushedAt: Time, removal: Reply, write: Reply)
    returns (u: System)
    requires Stands(s, t, w, Closing(e, ending), t.clock) && !t.byId && t.clock <= pushedAt
    ensures Stands(s, u, w, Resting, u.clock)
    ensures u.store == Left(t.store, e, ending, t.clock, pushedAt, removal, write) && u.stored == t.stored
  {
    if removal.Lost? {
      u := GivesUp(s, t, w, Closing(e, ending));
    } else {
      u := Removes(s, t, w, e, ending);
      if !removal.Done? || write.Lost? {
        u := GivesUp(s, u, w, u.workers[w]);
      } else {
        u := Pushes(s, u, w, pushedAt);
      }
    }
  }

  lemma GivesUp(s: System, t: System, w: nat, p: Phase) returns (u: System)
    requires Stands(s, t, w, p, t.clock) && (p.Popped? || p.Closing? || p.Leaving?)
    ensures Stands(s, u, w, Resting, t.clock) && u.store == t.store && u.stored == t.stored
  {
    u := Apply(t, Abandon(w));
    StepsOn(s, t, Abandon(w));
  }

  lemma Removes(s: System, t: System, w: nat, e: Job, ending: Ending) returns (u: System)
    requires Stands(s, t, w, Closing(e, ending), t.clock) && !t.byId
    ensures var again := if ending.ToRetry? then e.(scheduledAt := t.clock + ending.delay) else e;
      Stands(s, u, w, Leaving(again, ending), t.clock)
    ensures u.store == t.store.(processing := Without(t.store.processing, e)) && u.stored == t.stored
  {
    u := Apply(t, Remove(w));
    StepsOn(s, t, Remove(w));
  }

  lemma Pushes(s: System, t: System, w: nat, pushedAt: Time) returns (u: System)
    requires Beside(s, t, w) && Stands(s, t, w, t.workers[w], t.clock) && t.workers[w].Leaving? && t.clock <= pushedAt
    ensures Stands(s, u, w, Resting, pushedAt) && u.stored == t.stored
    ensures var j := t.workers[w].job;
      u.store == match t.workers[w].ending
                 case ToCompleted => t.store.(completed := [j] + t.store.completed)
                 case ToFailed => t.store.(failed := [j] + t.store.failed)
                 case ToRetry(_) => Pushed(t.store, j, pushedAt)
  {
    var v := Waits(s, t, w, t.workers[w], t.clock, pushedAt);
    u := Apply(v, Leave(w));
    StepsOn(s, v, Leave(w));
  }

  // ---- The round --------------------------------------------------------------------------------

  /** The clock readings come in order, and each stamp is taken with the record it stamps. */
  predicate InOrder(t: Times) {
    t.pop <= t.start == t.running <= t.end == t.stored <= t.removed <= t.pushed
  }

  /** What the interleaved system has fail: anything but the pop itself, the note and the records. */
  predicate Covered(f: Faults) {
    !f.pop.Lost? && !f.note.Lost? && !f.running.Lost? && !f.stored.Lost?
  }

  /** The queue and the records after a round of the pool's method, job or no job, are those after a run of
      one resting worker's commands, whatever the others are doing; every other worker stays where it is. */
  lemma RoundIsRun(s: System, w: nat, name: string, outcome: Outcome, delay: Time, t: Times, f: Faults)
    returns (d: System)
    requires IsWorker(s, w) && s.workers[w].Resting? && !s.byId && s.clock <= t.pop && InOrder(t) && Covered(f)
    ensures Stands(s, d, w, Resting, d.clock)
    ensures var taken := TakenFrom(MovedPart(s.store, t.pop, f.read, f.sent), f.pop, f.note);
      var ready := MovedPart(s.store, t.pop, f.read, f.sent).ready;
      if ready == [] || !f.pop.Done? then d.store == taken && d.stored == s.stored
      else
        var j := ready[|ready| - 1];
        var running := j.(workerId := name, status := Running, startedAt := Some(t.start), updatedAt := t.running);
        var (e, ending) := Ended(running, outcome, delay, t.end);
        && d.store == Left(taken, Stamped(e, t.stored), ending, t.removed, t.pushed, f.removal, f.write)
        && d.stored == Recorded(Recorded(s.stored, running, f.running), Stamped(e, t.stored), f.stored)
  {
    Stays(s);
    d := Waits(s, s, w, Resting, s.clock, t.pop);
    var moved := Moves(s, d, w, f.read, f.sent);
    d := Pops(s, moved, w, f.pop, f.note);
    if moved.store.ready != [] && f.pop.Done? {
      d := Works(s, d, w, moved.store.ready[|moved.store.ready| - 1], name, outcome, delay, t, f);
    }
  }

  lemma Works(
    s: System, u: System, w: nat, j: Job, name: string, outcome: Outcome, delay: Time, t: Times, f: Faults)
    returns (d: System)
    requires Stands(s, u, w, Noted(j), u.clock) && !s.byId && u.clock == t.pop && InOrder(t) && Covered(f)
    ensures Stands(s, d, w, Resting, d.clock)
    ensures var running := j.(workerId := name, status := Running, startedAt := Some(t.start), updatedAt := t.running);
      var (e, ending) := Ended(running, outcome, delay, t.end);
      && d.store == Left(u.store, Stamped(e, t.stored), ending, t.removed, t.pushed, f.removal, f.write)
      && d.stored == Recorded(Recorded(u.stored, running, f.running), Stamped(e, t.stored), f.stored)
  {
    var running := j.(workerId := name, status := Running, startedAt := Some(t.start), updatedAt := t.running);
    var (e, ending) := Ended(running, outcome, delay, t.end);
    d := Waits(s, u, w, Noted(j), t.pop, t.start);
    d := Begins(s, d, w, j, name);
    d := Waits(s, d, w, Working(running), t.start, t.end);
    d := Finishes(s, d, w, running, outcome, delay);
    d := Waits(s, d, w, Closing(e, ending), t.end, t.removed);
    d := Leaves(s, d, w, e, ending, t.pushed, f.removal, f.write);
  }
}
