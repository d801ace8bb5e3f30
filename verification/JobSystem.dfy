/** Any number of workers interleaving single Redis commands and single database writes over one
    queue, with submissions at any time and an advancing clock. */
module JobSystem {
  import opened Jobs
  import opened RedisQueue
  import opened WorkerPool

  /** Where a worker is within a round, and the job it has in hand. A mover keeps the rest of its
      snapshot; its next command is the LPUSH of the first job or, if `dropNext`, the ZREM of it. */
  datatype Phase =
    | Resting
    | Moving(due: seq<Job>, dropNext: bool)
    | Popped(job: Job)                    // taken off the ready list
    | Noted(job: Job)                     // written to the processing list
    | Working(job: Job)                   // stored as running, with the processor
    | Closing(job: Job, ending: Ending)   // stored with its new status
    | Leaving(job: Job, ending: Ending)   // removed from the processing list

  /** `byId` chooses how LREM compares; the code has it false. `pushed`, `taken` and `noted` are the
      histories of the ready and processing lists, `attempts` counts processings per job. */
  datatype System = System(
    store: Store, stored: map<JobId, Job>, clock: Time, workers: seq<Phase>, byId: bool,
    counts: seq<nat>, retries: nat, origin: map<JobId, Job>, attempts: map<JobId, nat>,
    pushed: seq<Job>, taken: seq<Job>, noted: seq<Job>)

  datatype Action =
    | Tick(to: Time)
    | Submit(j: Job)
    | ReadDue(w: nat)           // ZRANGEBYSCORE alone
    | MoveOne(w: nat)           // one command of the pipeline
    | MoveAll(w: nat)           // the whole mover as one step
    | Take(w: nat)              // BRPOP; a pipeline that broke off is abandoned
    | Note(w: nat)
    | Begin(w: nat, name: string)
    | Finish(w: nat, outcome: Outcome, delay: Time)
    | Remove(w: nat)
    | Leave(w: nat)
    | Abandon(w: nat)           // the job taken never reaches the worker, or its removal or last push fails

  function TakeOut(s: seq<Job>, j: Job, byId: bool): seq<Job> {
    if byId then WithoutId(s, j.id) else Without(s, j)
  }

  predicate IsWorker(s: System, w: nat) {
    w < |s.workers| && |s.workers| == |s.counts|
  }

  predicate Enabled(s: System, a: Action) {
    match a
    case Tick(to) => s.clock <= to
    case Submit(j) => j.id !in s.origin
    case ReadDue(w) => IsWorker(s, w) && s.workers[w].Resting?
    case MoveOne(w) => IsWorker(s, w) && s.workers[w].Moving? && s.workers[w].due != []
    case MoveAll(w) => IsWorker(s, w) && s.workers[w].Resting?
    case Take(w) => IsWorker(s, w) && s.workers[w].Moving?
    case Note(w) => IsWorker(s, w) && s.workers[w].Popped?
    case Begin(w, _) => IsWorker(s, w) && s.workers[w].Noted?
    case Finish(w, _, _) => IsWorker(s, w) && s.workers[w].Working?
    case Remove(w) => IsWorker(s, w) && s.workers[w].Closing?
    case Leave(w) => IsWorker(s, w) && s.workers[w].Leaving?
    case Abandon(w) => IsWorker(s, w) && (s.workers[w].Popped? || s.workers[w].Closing? || s.workers[w].Leaving?)
  }

  function With(s: System, w: nat, p: Phase): System
    requires w < |s.workers|
  {
    s.(workers := s.workers[w := p])
  }

  /** Push, with its trace in the history of the ready list. */
  function Queued(s: System, j: Job): System {
    s.(store := Pushed(s.store, j, s.clock), pushed := if j.scheduledAt > s.clock then s.pushed else s.pushed + [j])
  }

  function MovedOne(s: System, w: nat): System
    requires Enabled(s, MoveOne(w))
  {
    var due := s.workers[w].due;
    if s.workers[w].dropNext then
      With(s, w, Moving(due[1..], false)).(store := s.store.(delayed := Without(s.store.delayed, due[0])))
    else
      With(s, w, Moving(due, true)).(
        store := s.store.(ready := [due[0]] + s.store.ready), pushed := s.pushed + [due[0]])
  }

  function Took(s: System, w: nat): System
    requires Enabled(s, Take(w))
  {
    var n := |s.store.ready|;
    if n == 0 then With(s, w, Resting)
    else
      var j := s.store.ready[n - 1];
      With(s, w, Popped(j)).(store := s.store.(ready := s.store.ready[..n - 1]), taken := s.taken + [j])
  }

  function Update(m: map<JobId, Job>, j: Job): map<JobId, Job> {
    if j.id in m then m[j.id := j] else m
  }

  function Began(s: System, w: nat, name: string): System
    requires Enabled(s, Begin(w, name))
  {
    var j := Started(s.workers[w].job, name, s.clock);
    With(s, w, Working(j)).(
      stored := Update(s.stored, j),
      counts := s.counts[w := s.counts[w] + 1],
      attempts := s.attempts[j.id := (if j.id in s.attempts then s.attempts[j.id] else 0) + 1])
  }

  function Finished(s: System, w: nat, outcome: Outcome, delay: Time): System
    requires Enabled(s, Finish(w, outcome, delay))
  {
    var (j, ending) := Ended(s.workers[w].job, outcome, delay, s.clock);
    With(s, w, Closing(j, ending)).(stored := Update(s.stored, j))
  }

  function Removed(s: System, w: nat): System
    requires Enabled(s, Remove(w))
  {
    var j := s.workers[w].job;
    var e := s.workers[w].ending;
    var j' := if e.ToRetry? then j.(scheduledAt := s.clock + e.delay) else j;
    With(s, w, Leaving(j', e)).(
      store := s.store.(processing := TakeOut(s.store.processing, j, s.byId)))
  }

  function LeftBehind(s: System, w: nat): System
    requires Enabled(s, Leave(w))
  {
    var j := s.workers[w].job;
    var t := With(s, w, Resting);
    match s.workers[w].ending
    case ToCompleted => t.(store := s.store.(completed := [j] + s.store.completed))
    case ToFailed => t.(store := s.store.(failed := [j] + s.store.failed))
    case ToRetry(_) => Queued(t, j).(retries := s.retries + 1)
  }

  function Apply(s: System, a: Action): System
    requires Enabled(s, a)
  {
    match a
    case Tick(to) => s.(clock := to)
    case Submit(j) =>
      Queued(s.(stored := s.stored[j.id := j], origin := s.origin[j.id := j], attempts := s.attempts[j.id := 0]), j)
    case ReadDue(w) => With(s, w, Moving(Due(s.store.delayed, s.clock), false))
    case MoveOne(w) => MovedOne(s, w)
    case MoveAll(w) =>
      With(s, w, Moving([], false)).(
        store := Moved(s.store, s.clock), pushed := s.pushed + Due(s.store.delayed, s.clock))
    case Take(w) => Took(s, w)
    case Note(w) =>
      var j := s.workers[w].job;
      With(s, w, Noted(j)).(store := s.store.(processing := [j] + s.store.processing), noted := s.noted + [j])
    case Begin(w, name) => Began(s, w, name)
    case Finish(w, outcome, delay) => Finished(s, w, outcome, delay)
    case Remove(w) => Removed(s, w)
    case Leave(w) => LeftBehind(s, w)
    case Abandon(w) => With(s, w, Resting)
  }

  /** Nothing submitted yet; every worker at rest. */
  predicate Initial(s: System) {
    && s.store == EMPTY && s.stored == map[] && 0 <= s.clock
    && |s.workers| == |s.counts|
    && (forall w :: 0 <= w < |s.workers| ==> s.workers[w] == Resting && s.counts[w] == 0)
    && s.retries == 0 && s.origin == map[] && s.attempts == map[]
    && s.pushed == [] && s.taken == [] && s.noted == []
  }

  predicate StepAt(acts: seq<Action>, s: seq<System>, i: nat)
    requires |s| == |acts| + 1 && i < |acts|
  {
    Enabled(s[i], acts[i]) && s[i + 1] == Apply(s[i], acts[i])
  }

  ghost predicate IsRun(acts: seq<Action>, s: seq<System>) {
    && |s| == |acts| + 1
    && Initial(s[0])
    && forall i :: 0 <= i < |acts| ==> StepAt(acts, s, i)
  }

  /** No queue operation on a job in hand fails. */
  predicate Reliable(a: Action) {
    !a.Abandon?
  }

  /** The mover runs as one step. */
  predicate AtomicMover(a: Action) {
    !a.ReadDue? && !a.MoveOne?
  }

  predicate InHand(p: Phase) {
    p.Popped? || p.Noted? || p.Working? || p.Closing? || p.Leaving?
  }

  predicate HasId(s: seq<Job>, id: JobId) {
    exists e :: e in s && e.id == id
  }
}
