/**
 Runs of the durable queue: enqueues, control requests, worker deliveries,
 failures, crashes and stalled-job recovery, in any order.  Every step sees an
 arbitrary ledger of tool executions.

 A delivery is known by its job only, so the deliveries of each kind are
 multisets of jobs.  `recover_stalled` decides in one transaction and calls the
 framework's retry afterwards, so the two are separate steps.
 */
module WorkerRuntime {
  import opened Wrappers
  import T = ToolActions
  import opened TaskQueue

  datatype Work = Work(
    queue: Queue,
    fetched: multiset<JobId>,   // deliveries before their claim block
    running: multiset<JobId>,   // deliveries whose claim block accepted the task
    decided: multiset<JobId>,   // recoveries that decided to retry and have not yet done so
    overlaps: multiset<TaskId>, // retries decided while the job was still queued, delivered or being recovered
    loaded: set<(TaskId, Task)> // task values read by an earlier transaction
  )

  const NO_WORK := Work(Queue(map[], map[], 0), multiset{}, multiset{}, multiset{}, multiset{}, {})

  datatype WorkStep =
    | Create(id: TaskId)
    | Enqueue(id: TaskId, resume: bool)
    | Control(id: TaskId, cancel: bool)
    | Transition(id: TaskId, to: Status)
    | Park(id: TaskId)
    | Plan(id: TaskId)
    | StartTaskStep(id: TaskId)
    | Load(id: TaskId)
    | SaveLoaded(id: TaskId, task: Task)
    | Fetch(job: JobId)
    | Deliver(job: JobId, authorized: bool)
    | Complete(job: JobId)
    | Fail(job: JobId, retryable: bool, rescheduled: bool)
    | CrashFetched(job: JobId)
    | CrashRunning(job: JobId)
    | RecoverDecide(job: JobId)
    | RecoverRetry(job: JobId)
    | RecoverFinish(job: JobId)

  /** Deliveries, queue entries and pending retries that could still lead to a claim of this job. */
  function Tokens(w: Work, j: JobId): nat {
    (if j in w.queue.jobs && w.queue.jobs[j].status.Todo? then 1 else 0) + w.fetched[j] + w.decided[j]
  }

  function DeliverStep(w: Work, l: T.Ledger, j: JobId, authorized: bool): Work {
    if w.fetched[j] == 0 then w
    else
      var (q, started) := Delivering(w.queue, l, j, authorized);
      if started then w.(queue := q, fetched := w.fetched - multiset{j}, running := w.running + multiset{j})
      else w.(queue := SetJob(q, j, Doing, Ended), fetched := w.fetched - multiset{j})
  }

  function FailStep(w: Work, l: T.Ledger, j: JobId, retryable: bool, rescheduled: bool, maxRetries: nat): Work {
    if w.running[j] == 0 || j !in w.queue.jobs then w
    else
      var (q, raised) := FailingRun(w.queue, l, w.queue.jobs[j].task, retryable, maxRetries);
      w.(queue := SetJob(q, j, Doing, if raised && rescheduled then Todo else Ended), running := w.running - multiset{j})
  }

  function RecoverStep(w: Work, l: T.Ledger, j: JobId, maxRetries: nat): Work {
    var (q, recovery) := Recovering(w.queue, l, j, maxRetries);
    if !recovery.Retry? then w.(queue := q)
    else w.(decided := w.decided + multiset{j},
            overlaps := if Tokens(w, j) + w.running[j] > 0 then w.overlaps + multiset{w.queue.jobs[j].task} else w.overlaps)
  }

  function NextWork(w: Work, l: T.Ledger, step: WorkStep, maxRetries: nat): Work {
    match step
    case Create(id) => w.(queue := Creating(w.queue, id))
    case Enqueue(id, resume) => w.(queue := Enqueueing(w.queue, l, id, resume).0)
    case Control(id, cancel) => w.(queue := Controlling(w.queue, id, cancel).0)
    case Transition(id, to) => w.(queue := Transitioning(w.queue, id, to).0)
    case Park(id) => w.(queue := Parking(w.queue, id))
    case Plan(id) => w.(queue := Planning(w.queue, id))
    case StartTaskStep(id) => w.(queue := Stepping(w.queue, id))
    case Load(id) => if id in w.queue.tasks then w.(loaded := w.loaded + {(id, w.queue.tasks[id].task)}) else w
    case SaveLoaded(id, task) => if (id, task) in w.loaded then w.(queue := SavingLoaded(w.queue, id, task).0) else w
    case Fetch(j) =>
      if j in w.queue.jobs && w.queue.jobs[j].status.Todo?
      then w.(queue := SetJob(w.queue, j, Todo, Doing), fetched := w.fetched + multiset{j}) else w
    case Deliver(j, authorized) => DeliverStep(w, l, j, authorized)
    case Complete(j) =>
      if w.running[j] > 0 then w.(queue := SetJob(w.queue, j, Doing, Ended), running := w.running - multiset{j}) else w
    case Fail(j, retryable, rescheduled) => FailStep(w, l, j, retryable, rescheduled, maxRetries)
    case CrashFetched(j) => w.(fetched := w.fetched - multiset{j})
    case CrashRunning(j) => w.(running := w.running - multiset{j})
    case RecoverDecide(j) => RecoverStep(w, l, j, maxRetries)
    case RecoverRetry(j) =>
      if w.decided[j] > 0 then w.(queue := SetJob(w.queue, j, Doing, Todo), decided := w.decided - multiset{j}) else w
    case RecoverFinish(j) => w.(queue := SetJob(w.queue, j, Doing, Ended))
  }

  function RunWork(w: Work, steps: seq<(T.Ledger, WorkStep)>, maxRetries: nat): Work
    decreases |steps|
  {
    if steps == [] then w else RunWork(NextWork(w, steps[0].0, steps[0].1, maxRetries), steps[1..], maxRetries)
  }

  // -------------------------------------------------------------- invariants

  /** A value loaded earlier is out of date or exactly the current one. */
  ghost predicate LoadedOk(w: Work) {
    forall id, task {:trigger (id, task) in w.loaded} | (id, task) in w.loaded ::
      && id in w.queue.tasks
      && task.version <= w.queue.tasks[id].task.version
      && (task.version == w.queue.tasks[id].task.version ==> task == w.queue.tasks[id].task)
  }

  ghost predicate JobsKnown(w: Work) {
    forall j | j in w.fetched || j in w.running || j in w.decided :: j in w.queue.jobs
  }

  function Enqueues(row: Row): nat { multiset(row.events)[TaskEnqueued] }

  /** The attempts of one task, with everything that may still become an attempt, stay within the bound. */
  ghost predicate AttemptsOk(w: Work, id: TaskId, maxRetries: nat)
    requires id in w.queue.tasks
  {
    var row := w.queue.tasks[id];
    && row.task.attempts == multiset(row.events)[WorkerStarted]
    && match row.task.job
       case None => row.task.attempts == 0
       case Some(j) =>
         && Enqueues(row) > 0
         && Tokens(w, j) + w.running[j] <= 1 + w.overlaps[id]
         && row.task.attempts + Tokens(w, j) <= Enqueues(row) + maxRetries + w.overlaps[id]
  }

  ghost predicate WorkOk(w: Work, maxRetries: nat) {
    && GenerationsOk(w.queue)
    && LoadedOk(w)
    && JobsKnown(w)
    && forall id {:trigger AttemptsOk(w, id, maxRetries)} | id in w.queue.tasks :: AttemptsOk(w, id, maxRetries)
  }

  // ------------------------------------------------------------------- frames

  /** The rows of a step that writes at most one task, and how: not an enqueue, not a worker start. */
  ghost predicate QuietRow(row: Row, row': Row) {
    || row' == row
    || (&& |row'.events| == |row.events| + 1 && row'.events[..|row.events|] == row.events
        && !row'.events[|row.events|].TaskEnqueued? && !row'.events[|row.events|].WorkerStarted?
        && row'.task.version == row.task.version + 1
        && row'.task.job == row.task.job && row'.task.queuedVersion == row.task.queuedVersion
        && row'.task.attempts == row.task.attempts)
  }

  /** No job gains a chance to be claimed. */
  ghost predicate NoNewTokens(w: Work, w': Work) {
    forall j :: Tokens(w', j) <= Tokens(w, j) && Tokens(w', j) + w'.running[j] <= Tokens(w, j) + w.running[j]
  }

  ghost predicate QuietStep(w: Work, w': Work, id: TaskId) {
    && SameJobs(w.queue, w'.queue)
    && w'.queue.tasks.Keys == w.queue.tasks.Keys
    && (forall x | x in w.queue.tasks && x != id :: w'.queue.tasks[x] == w.queue.tasks[x])
    && (id in w.queue.tasks ==> QuietRow(w.queue.tasks[id], w'.queue.tasks[id]))
    && w'.overlaps == w.overlaps && w'.loaded == w.loaded && JobsKnown(w')
  }

  lemma QuietCounts(row: Row, row': Row)
    requires QuietRow(row, row')
    ensures Enqueues(row') == Enqueues(row)
    ensures multiset(row'.events)[WorkerStarted] == multiset(row.events)[WorkerStarted]
  {
    if row' != row {
      assert row'.events == row.events + [row'.events[|row.events|]];
    }
  }

  lemma QuietKeepsGenerations(w: Work, w': Work, id: TaskId)
    requires GenerationsOk(w.queue) && LoadedOk(w) && QuietStep(w, w', id)
    ensures GenerationsOk(w'.queue) && LoadedOk(w')
    ensures forall j | j in w.queue.jobs :: Current(w'.queue, j) == Current(w.queue, j)
  {
    if id in w.queue.tasks && w'.queue.tasks[id] != w.queue.tasks[id] {
      MoveKeepsGenerations(w.queue, w'.queue, id);
    } else {
      assert w'.queue.tasks == w.queue.tasks;
      MoveKeepsGenerations(w.queue, w'.queue, id);
    }
  }

  lemma QuietKeepsWork(w: Work, w': Work, id: TaskId, maxRetries: nat)
    requires WorkOk(w, maxRetries) && QuietStep(w, w', id) && NoNewTokens(w, w')
    ensures WorkOk(w', maxRetries)
  {
    QuietKeepsGenerations(w, w', id);
    forall x | x in w'.queue.tasks ensures AttemptsOk(w', x, maxRetries) {
      assert AttemptsOk(w, x, maxRetries);
      if x == id { QuietCounts(w.queue.tasks[x], w'.queue.tasks[x]); }
    }
  }

  // ---------------------------------------------------------- step by step

  /** A write of one row that keeps its job, and changes no job but to end or withdraw it. */
  lemma WriteIsQuiet(w: Work, q: Queue, id: TaskId, task: Task, event: Event)
    requires JobsKnown(w) && id in w.queue.tasks
    requires q.tasks == w.queue.tasks[id := Save(w.queue.tasks[id], task, event)]
    requires SameJobs(w.queue, q)
    requires forall j | j in q.jobs && q.jobs[j].status.Todo? :: w.queue.jobs[j].status.Todo?
    requires !event.TaskEnqueued? && !event.WorkerStarted?
    requires && task.version == w.queue.tasks[id].task.version && task.job == w.queue.tasks[id].task.job
             && task.queuedVersion == w.queue.tasks[id].task.queuedVersion && task.attempts == w.queue.tasks[id].task.attempts
    ensures QuietStep(w, w.(queue := q), id)
    ensures NoNewTokens(w, w.(queue := q))
  {
  }

  lemma ControlKeepsWork(w: Work, id: TaskId, cancel: bool, maxRetries: nat)
    requires WorkOk(w, maxRetries)
    ensures WorkOk(w.(queue := Controlling(w.queue, id, cancel).0), maxRetries)
  {
    var (q, r) := Controlling(w.queue, id, cancel);
    if r.Ok? {
      var task := r.value.(version := w.queue.tasks[id].task.version);
      assert q.tasks[id].task == r.value;
      WriteIsQuiet(w, q, id, task, ControlRequested);
      QuietKeepsWork(w, w.(queue := q), id, maxRetries);
    }
  }

  lemma TransitionKeepsWork(w: Work, id: TaskId, to: Status, maxRetries: nat)
    requires WorkOk(w, maxRetries)
    ensures WorkOk(w.(queue := Transitioning(w.queue, id, to).0), maxRetries)
  {
    var (q, r) := Transitioning(w.queue, id, to);
    if r.Ok? {
      WriteIsQuiet(w, q, id, w.queue.tasks[id].task.(status := to), StatusChanged(to));
      QuietKeepsWork(w, w.(queue := q), id, maxRetries);
    }
  }

  lemma ParkKeepsWork(w: Work, id: TaskId, maxRetries: nat)
    requires WorkOk(w, maxRetries)
    ensures WorkOk(w.(queue := Parking(w.queue, id)), maxRetries)
  {
    if id in w.queue.tasks {
      WriteIsQuiet(w, Parking(w.queue, id), id, w.queue.tasks[id].task.(status := WaitingUser), StatusChanged(WaitingUser));
      QuietKeepsWork(w, w.(queue := Parking(w.queue, id)), id, maxRetries);
    }
  }

  lemma PlanKeepsWork(w: Work, id: TaskId, maxRetries: nat)
    requires WorkOk(w, maxRetries)
    ensures WorkOk(w.(queue := Planning(w.queue, id)), maxRetries)
  {
    if id in w.queue.tasks && !w.queue.tasks[id].task.planned {
      WriteIsQuiet(w, Planning(w.queue, id), id, w.queue.tasks[id].task.(planned := true), PlanCreated);
      QuietKeepsWork(w, w.(queue := Planning(w.queue, id)), id, maxRetries);
    }
  }

  lemma StepKeepsWork(w: Work, id: TaskId, maxRetries: nat)
    requires WorkOk(w, maxRetries)
    ensures WorkOk(w.(queue := Stepping(w.queue, id)), maxRetries)
  {
    if id in w.queue.tasks && w.queue.tasks[id].task.status.Running? {
      WriteIsQuiet(w, Stepping(w.queue, id), id, w.queue.tasks[id].task, StepStarted);
      QuietKeepsWork(w, w.(queue := Stepping(w.queue, id)), id, maxRetries);
    }
  }

  /** The compare-and-swap of a task loaded earlier only ever writes the current value back. */
  lemma SaveLoadedKeepsWork(w: Work, id: TaskId, task: Task, maxRetries: nat)
    requires WorkOk(w, maxRetries) && (id, task) in w.loaded
    ensures WorkOk(w.(queue := SavingLoaded(w.queue, id, task).0), maxRetries)
    ensures SavingLoaded(w.queue, id, task).1.Ok? ==> task == w.queue.tasks[id].task
  {
    var (q, r) := SavingLoaded(w.queue, id, task);
    if r.Ok? {
      WriteIsQuiet(w, q, id, task, AnswerSaved);
      QuietKeepsWork(w, w.(queue := q), id, maxRetries);
    }
  }

  /** What the framework may do to job `j`: move its state and its counts, giving no more chances than it takes. */
  ghost predicate JobMoves(w: Work, w': Work, j: JobId) {
    && w'.queue.tasks == w.queue.tasks && SameJobs(w.queue, w'.queue)
    && w'.overlaps == w.overlaps && w'.loaded == w.loaded
    && (forall k | k != j ::
          && w'.fetched[k] == w.fetched[k] && w'.running[k] == w.running[k] && w'.decided[k] == w.decided[k]
          && (k in w.queue.jobs ==> w'.queue.jobs[k] == w.queue.jobs[k]))
    && (w'.fetched[j] + w'.running[j] + w'.decided[j] > 0 ==> j in w.queue.jobs)
    && Tokens(w', j) <= Tokens(w, j) && Tokens(w', j) + w'.running[j] <= Tokens(w, j) + w.running[j]
  }

  lemma JobMoveKeepsWork(w: Work, w': Work, j: JobId, maxRetries: nat)
    requires WorkOk(w, maxRetries) && JobMoves(w, w', j)
    ensures WorkOk(w', maxRetries)
  {
    forall k ensures Tokens(w', k) <= Tokens(w, k) && Tokens(w', k) + w'.running[k] <= Tokens(w, k) + w.running[k] {
    }
    forall k | k in w'.fetched || k in w'.running || k in w'.decided ensures k in w'.queue.jobs {
      if k != j { assert k in w.fetched || k in w.running || k in w.decided; }
    }
    QuietKeepsWork(w, w', 0, maxRetries);
  }

  lemma FetchMoves(w: Work, j: JobId)
    requires j in w.queue.jobs && w.queue.jobs[j].status.Todo?
    ensures JobMoves(w, w.(queue := SetJob(w.queue, j, Todo, Doing), fetched := w.fetched + multiset{j}), j)
  {
  }

  lemma RecoverRetryMoves(w: Work, j: JobId)
    requires JobsKnown(w) && w.decided[j] > 0
    ensures JobMoves(w, w.(queue := SetJob(w.queue, j, Doing, Todo), decided := w.decided - multiset{j}), j)
  {
  }

  lemma EndedMoves(w: Work, j: JobId)
    requires JobsKnown(w)
    ensures JobMoves(w, w.(queue := SetJob(w.queue, j, Doing, Ended)), j)
  {
  }

  lemma RunningEnds(w: Work, j: JobId, maxRetries: nat)
    requires WorkOk(w, maxRetries)
    ensures WorkOk(w.(running := w.running - multiset{j}), maxRetries)
  {
    assert JobMoves(w, w.(running := w.running - multiset{j}), j);
    JobMoveKeepsWork(w, w.(running := w.running - multiset{j}), j, maxRetries);
  }

  lemma FetchedEnds(w: Work, j: JobId, maxRetries: nat)
    requires WorkOk(w, maxRetries)
    ensures WorkOk(w.(fetched := w.fetched - multiset{j}), maxRetries)
  {
    assert JobMoves(w, w.(fetched := w.fetched - multiset{j}), j);
    JobMoveKeepsWork(w, w.(fetched := w.fetched - multiset{j}), j, maxRetries);
  }

  lemma EndedKeepsWork(w: Work, j: JobId, maxRetries: nat)
    requires WorkOk(w, maxRetries)
    ensures WorkOk(w.(queue := SetJob(w.queue, j, Doing, Ended)), maxRetries)
  {
    EndedMoves(w, j);
    JobMoveKeepsWork(w, w.(queue := SetJob(w.queue, j, Doing, Ended)), j, maxRetries);
  }

  lemma FetchKeepsWork(w: Work, l: T.Ledger, step: WorkStep, maxRetries: nat)
    requires WorkOk(w, maxRetries) && step.Fetch?
    ensures WorkOk(NextWork(w, l, step, maxRetries), maxRetries)
  {
    var j := step.job;
    if j in w.queue.jobs && w.queue.jobs[j].status.Todo? {
      FetchMoves(w, j);
      JobMoveKeepsWork(w, w.(queue := SetJob(w.queue, j, Todo, Doing), fetched := w.fetched + multiset{j}), j, maxRetries);
    }
  }

  lemma RetryKeepsWork(w: Work, l: T.Ledger, step: WorkStep, maxRetries: nat)
    requires WorkOk(w, maxRetries) && step.RecoverRetry?
    ensures WorkOk(NextWork(w, l, step, maxRetries), maxRetries)
  {
    var j := step.job;
    if w.decided[j] > 0 {
      RecoverRetryMoves(w, j);
      JobMoveKeepsWork(w, w.(queue := SetJob(w.queue, j, Doing, Todo), decided := w.decided - multiset{j}), j, maxRetries);
    }
  }

  lemma CompleteKeepsWork(w: Work, l: T.Ledger, step: WorkStep, maxRetries: nat)
    requires WorkOk(w, maxRetries) && step.Complete?
    ensures WorkOk(NextWork(w, l, step, maxRetries), maxRetries)
  {
    EndedKeepsWork(w, step.job, maxRetries);
    RunningEnds(w.(queue := SetJob(w.queue, step.job, Doing, Ended)), step.job, maxRetries);
  }

  lemma FetchedCrashKeepsWork(w: Work, l: T.Ledger, step: WorkStep, maxRetries: nat)
    requires WorkOk(w, maxRetries) && step.CrashFetched?
    ensures WorkOk(NextWork(w, l, step, maxRetries), maxRetries)
  {
    FetchedEnds(w, step.job, maxRetries);
  }

  lemma RunningCrashKeepsWork(w: Work, l: T.Ledger, step: WorkStep, maxRetries: nat)
    requires WorkOk(w, maxRetries) && step.CrashRunning?
    ensures WorkOk(NextWork(w, l, step, maxRetries), maxRetries)
  {
    RunningEnds(w, step.job, maxRetries);
  }

  lemma FinishedKeepsWork(w: Work, l: T.Ledger, step: WorkStep, maxRetries: nat)
    requires WorkOk(w, maxRetries) && step.RecoverFinish?
    ensures WorkOk(NextWork(w, l, step, maxRetries), maxRetries)
  {
    EndedKeepsWork(w, step.job, maxRetries);
  }

  lemma BookkeepingKeepsWork(w: Work, l: T.Ledger, step: WorkStep, maxRetries: nat)
    requires WorkOk(w, maxRetries)
    requires step.Fetch? || step.Complete? || step.CrashFetched? || step.CrashRunning? || step.RecoverRetry? || step.RecoverFinish?
    ensures WorkOk(NextWork(w, l, step, maxRetries), maxRetries)
  {
    match step
    case Fetch(_) => FetchKeepsWork(w, l, step, maxRetries);
    case RecoverRetry(_) => RetryKeepsWork(w, l, step, maxRetries);
    case Complete(_) => CompleteKeepsWork(w, l, step, maxRetries);
    case CrashFetched(_) => FetchedCrashKeepsWork(w, l, step, maxRetries);
    case CrashRunning(_) => RunningCrashKeepsWork(w, l, step, maxRetries);
    case RecoverFinish(_) => FinishedKeepsWork(w, l, step, maxRetries);
  }

  // ------------------------------------------------- steps that move attempts

  /** What an accepted delivery changes: one row, and one delivery from fetched to running. */
  ghost predicate Accepted(w: Work, w': Work, j: JobId, id: TaskId, row': Row) {
    && id in w.queue.tasks && w' == w.(queue := w'.queue, fetched := w.fetched - multiset{j}, running := w.running + multiset{j})
    && w'.queue.jobs == w.queue.jobs && w'.queue.nextJob == w.queue.nextJob
    && w'.queue.tasks == w.queue.tasks[id := row'] && w.queue.tasks[id].task.job == Some(j)
    && row'.events == w.queue.tasks[id].events + [WorkerStarted]
    && row'.task.version == w.queue.tasks[id].task.version + 1 && row'.task.attempts == w.queue.tasks[id].task.attempts + 1
    && row'.task.job == Some(j) && row'.task.queuedVersion == w.queue.tasks[id].task.queuedVersion
  }

  lemma DeliveryAccepts(w: Work, l: T.Ledger, j: JobId)
    requires w.fetched[j] > 0 && Delivering(w.queue, l, j, true).1
    ensures var w' := DeliverStep(w, l, j, true);
            var id := w.queue.jobs[j].task;
            id in w'.queue.tasks && Accepted(w, w', j, id, w'.queue.tasks[id])
  {
  }

  lemma AcceptedAttempts(w: Work, w': Work, j: JobId, id: TaskId, row': Row, maxRetries: nat)
    requires Accepted(w, w', j, id, row') && w.fetched[j] > 0 && AttemptsOk(w, id, maxRetries)
    ensures AttemptsOk(w', id, maxRetries)
  {
    assert Enqueues(row') == Enqueues(w.queue.tasks[id]);
    assert multiset(row'.events)[WorkerStarted] == multiset(w.queue.tasks[id].events)[WorkerStarted] + 1;
    assert Tokens(w', j) == Tokens(w, j) - 1;
  }

  lemma AcceptedOther(w: Work, w': Work, j: JobId, id: TaskId, row': Row, x: TaskId, maxRetries: nat)
    requires Accepted(w, w', j, id, row') && x in w.queue.tasks && x != id && AttemptsOk(w, x, maxRetries)
    requires TaskOk(w.queue, x) && TaskOk(w.queue, id)
    ensures AttemptsOk(w', x, maxRetries)
  {
    assert w'.queue.tasks[x] == w.queue.tasks[x];
  }

  lemma AcceptedKeepsQueue(w: Work, w': Work, j: JobId, id: TaskId, row': Row)
    requires Accepted(w, w', j, id, row') && GenerationsOk(w.queue) && LoadedOk(w) && JobsKnown(w) && w.fetched[j] > 0
    ensures GenerationsOk(w'.queue) && LoadedOk(w') && JobsKnown(w')
  {
    MoveKeepsGenerations(w.queue, w'.queue, id);
    assert forall k | k in w'.running :: k in w.running || k == j;
  }

  /** An accepted delivery turns one token into one attempt. */
  lemma AcceptedKeepsWork(w: Work, l: T.Ledger, j: JobId, maxRetries: nat)
    requires WorkOk(w, maxRetries) && w.fetched[j] > 0 && Delivering(w.queue, l, j, true).1
    ensures WorkOk(DeliverStep(w, l, j, true), maxRetries)
  {
    var w' := DeliverStep(w, l, j, true);
    var id := w.queue.jobs[j].task;
    DeliveryAccepts(w, l, j);
    AcceptedKeepsQueue(w, w', j, id, w'.queue.tasks[id]);
    forall x | x in w'.queue.tasks ensures AttemptsOk(w', x, maxRetries) {
      assert AttemptsOk(w, x, maxRetries) && TaskOk(w.queue, x) && TaskOk(w.queue, id);
      if x == id {
        AcceptedAttempts(w, w', j, id, w'.queue.tasks[id], maxRetries);
      } else {
        AcceptedOther(w, w', j, id, w'.queue.tasks[id], x, maxRetries);
      }
    }
  }

  /** A refused delivery is a quiet write, after which its job ends. */
  lemma RefusedKeepsWork(w: Work, l: T.Ledger, j: JobId, authorized: bool, maxRetries: nat)
    requires WorkOk(w, maxRetries) && w.fetched[j] > 0 && !Delivering(w.queue, l, j, authorized).1
    ensures WorkOk(DeliverStep(w, l, j, authorized), maxRetries)
  {
    var q := Delivering(w.queue, l, j, authorized).0;
    var m := w.(queue := q);
    if q != w.queue {
      var id := w.queue.jobs[j].task;
      var status := q.tasks[id].task.status;
      WriteIsQuiet(w, q, id, w.queue.tasks[id].task.(status := status), StatusChanged(status));
      QuietKeepsWork(w, m, id, maxRetries);
    }
    EndedKeepsWork(m, j, maxRetries);
    FetchedEnds(m.(queue := SetJob(q, j, Doing, Ended)), j, maxRetries);
  }

  /** Rescheduling a job within the retry limit turns its delivery back into a token. */
  lemma RescheduledKeepsWork(w: Work, j: JobId, maxRetries: nat)
    requires WorkOk(w, maxRetries) && w.running[j] > 0
    requires j in w.queue.jobs && w.queue.jobs[j].task in w.queue.tasks
    requires w.queue.tasks[w.queue.jobs[j].task].task.attempts <= maxRetries
    ensures WorkOk(w.(queue := SetJob(w.queue, j, Doing, Todo), running := w.running - multiset{j}), maxRetries)
  {
    var w' := w.(queue := SetJob(w.queue, j, Doing, Todo), running := w.running - multiset{j});
    MoveKeepsGenerations(w.queue, w'.queue, w.queue.jobs[j].task);
    forall x | x in w'.queue.tasks ensures AttemptsOk(w', x, maxRetries) {
      assert AttemptsOk(w, x, maxRetries) && TaskOk(w.queue, x);
    }
  }

  lemma FailKeepsWork(w: Work, l: T.Ledger, j: JobId, retryable: bool, rescheduled: bool, maxRetries: nat)
    requires WorkOk(w, maxRetries)
    ensures WorkOk(FailStep(w, l, j, retryable, rescheduled, maxRetries), maxRetries)
  {
    if w.running[j] > 0 && j in w.queue.jobs {
      assert JobOk(w.queue, j);
      var id := w.queue.jobs[j].task;
      var (q, raised) := FailingRun(w.queue, l, id, retryable, maxRetries);
      var m := w.(queue := q);
      WriteIsQuiet(w, q, id, w.queue.tasks[id].task.(status := q.tasks[id].task.status), WorkerFailure);
      QuietKeepsWork(w, m, id, maxRetries);
      if raised && rescheduled {
        RescheduledKeepsWork(m, j, maxRetries);
      } else {
        EndedKeepsWork(m, j, maxRetries);
        RunningEnds(m.(queue := SetJob(q, j, Doing, Ended)), j, maxRetries);
      }
    }
  }

  lemma RetryDecidedKeepsWork(w: Work, l: T.Ledger, j: JobId, maxRetries: nat)
    requires WorkOk(w, maxRetries) && RecoveryOf(w.queue, l, j, maxRetries).Retry?
    ensures WorkOk(RecoverStep(w, l, j, maxRetries), maxRetries)
  {
    var w' := RecoverStep(w, l, j, maxRetries);
    forall x | x in w'.queue.tasks ensures AttemptsOk(w', x, maxRetries) {
      assert AttemptsOk(w, x, maxRetries) && TaskOk(w.queue, x);
    }
  }

  lemma RecoverKeepsWork(w: Work, l: T.Ledger, j: JobId, maxRetries: nat)
    requires WorkOk(w, maxRetries)
    ensures WorkOk(RecoverStep(w, l, j, maxRetries), maxRetries)
  {
    var (q, recovery) := Recovering(w.queue, l, j, maxRetries);
    if recovery.Retry? {
      RetryDecidedKeepsWork(w, l, j, maxRetries);
    } else if q != w.queue {
      var id := w.queue.jobs[j].task;
      var status := q.tasks[id].task.status;
      WriteIsQuiet(w, q, id, w.queue.tasks[id].task.(status := status), StatusChanged(status));
      QuietKeepsWork(w, w.(queue := q), id, maxRetries);
    }
  }

  /** What a granted enqueue changes: the row of its task, and one fresh job. */
  ghost predicate Installed(w: Work, w': Work, id: TaskId, row': Row) {
    && id in w.queue.tasks && w' == w.(queue := w'.queue)
    && w'.queue.tasks == w.queue.tasks[id := row']
    && w'.queue.jobs == w.queue.jobs[w.queue.nextJob := Job(id, row'.task.version, Todo)]
    && row'.events == w.queue.tasks[id].events + [TaskEnqueued]
    && row'.task.version == w.queue.tasks[id].task.version + 1
    && row'.task.attempts == w.queue.tasks[id].task.attempts && row'.task.job == Some(w.queue.nextJob)
  }

  lemma EnqueueInstalls(w: Work, l: T.Ledger, id: TaskId, resume: bool)
    requires Enqueueing(w.queue, l, id, resume).1.Ok?
    ensures var w' := w.(queue := Enqueueing(w.queue, l, id, resume).0);
            id in w'.queue.tasks && Installed(w, w', id, w'.queue.tasks[id])
  {
  }

  lemma FreshJobUnseen(w: Work)
    requires JobsKnown(w) && w.queue.nextJob !in w.queue.jobs
    ensures var j := w.queue.nextJob; w.fetched[j] == 0 && w.running[j] == 0 && w.decided[j] == 0
  {
    var j := w.queue.nextJob;
    assert j !in w.fetched && j !in w.running && j !in w.decided;
  }

  lemma InstalledAttempts(w: Work, w': Work, id: TaskId, row': Row, maxRetries: nat)
    requires Installed(w, w', id, row') && JobsKnown(w) && w.queue.nextJob !in w.queue.jobs && AttemptsOk(w, id, maxRetries)
    requires w.queue.tasks[id].task.job.Some? ==> w.queue.tasks[id].task.attempts <= Enqueues(w.queue.tasks[id]) + maxRetries + w.overlaps[id]
    ensures AttemptsOk(w', id, maxRetries)
  {
    FreshJobUnseen(w);
    assert Tokens(w', w.queue.nextJob) == 1;
    assert Enqueues(row') == Enqueues(w.queue.tasks[id]) + 1;
    assert multiset(row'.events)[WorkerStarted] == multiset(w.queue.tasks[id].events)[WorkerStarted];
  }

  lemma OtherAttempts(w: Work, w': Work, id: TaskId, row': Row, x: TaskId, maxRetries: nat)
    requires Installed(w, w', id, row') && x in w.queue.tasks && x != id && AttemptsOk(w, x, maxRetries)
    requires w.queue.nextJob !in w.queue.jobs && TaskOk(w.queue, x)
    ensures AttemptsOk(w', x, maxRetries)
  {
    assert w'.queue.tasks[x] == w.queue.tasks[x];
  }

  lemma InstalledKeepsLoaded(w: Work, w': Work, id: TaskId, row': Row)
    requires Installed(w, w', id, row') && LoadedOk(w) && JobsKnown(w)
    ensures LoadedOk(w') && JobsKnown(w')
  {
  }

  /** An enqueue brings one token and one more attempt to the bound. */
  lemma EnqueueKeepsWork(w: Work, l: T.Ledger, id: TaskId, resume: bool, maxRetries: nat)
    requires WorkOk(w, maxRetries)
    ensures WorkOk(w.(queue := Enqueueing(w.queue, l, id, resume).0), maxRetries)
  {
    var (q, r) := Enqueueing(w.queue, l, id, resume);
    EnqueueKeepsGenerations(w.queue, l, id, resume);
    if r.Ok? {
      var w' := w.(queue := q);
      EnqueueInstalls(w, l, id, resume);
      InstalledKeepsLoaded(w, w', id, q.tasks[id]);
      forall x | x in q.tasks ensures AttemptsOk(w', x, maxRetries) {
        assert AttemptsOk(w, x, maxRetries) && TaskOk(w.queue, x);
        if x == id {
          InstalledAttempts(w, w', id, q.tasks[id], maxRetries);
        } else {
          OtherAttempts(w, w', id, q.tasks[id], x, maxRetries);
        }
      }
    }
  }

  lemma CreateKeepsGenerations(q: Queue, id: TaskId)
    requires GenerationsOk(q) && id !in q.tasks
    ensures GenerationsOk(Creating(q, id))
  {
    var q' := Creating(q, id);
    forall j | j in q'.jobs ensures JobOk(q', j) { assert JobOk(q, j); }
    forall x | x in q'.tasks ensures TaskOk(q', x) {
      if x != id { assert TaskOk(q, x); }
    }
  }

  lemma CreateKeepsAttempts(w: Work, w': Work, id: TaskId, maxRetries: nat)
    requires WorkOk(w, maxRetries) && id !in w.queue.tasks && w' == w.(queue := Creating(w.queue, id))
    ensures forall x {:trigger AttemptsOk(w', x, maxRetries)} | x in w'.queue.tasks :: AttemptsOk(w', x, maxRetries)
  {
    forall x | x in w'.queue.tasks ensures AttemptsOk(w', x, maxRetries) {
      if x != id {
        assert AttemptsOk(w, x, maxRetries);
        assert w'.queue.tasks[x] == w.queue.tasks[x];
      }
    }
  }

  lemma CreateKeepsWork(w: Work, id: TaskId, maxRetries: nat)
    requires WorkOk(w, maxRetries)
    ensures WorkOk(w.(queue := Creating(w.queue, id)), maxRetries)
  {
    var w' := w.(queue := Creating(w.queue, id));
    if id !in w.queue.tasks {
      CreateKeepsGenerations(w.queue, id);
      CreateKeepsAttempts(w, w', id, maxRetries);
      assert LoadedOk(w') && JobsKnown(w');
    } else {
      assert w' == w;
    }
  }

  lemma LoadKeepsWork(w: Work, id: TaskId, maxRetries: nat)
    requires WorkOk(w, maxRetries) && id in w.queue.tasks
    ensures WorkOk(w.(loaded := w.loaded + {(id, w.queue.tasks[id].task)}), maxRetries)
  {
    var w' := w.(loaded := w.loaded + {(id, w.queue.tasks[id].task)});
    forall x | x in w'.queue.tasks ensures AttemptsOk(w', x, maxRetries) { assert AttemptsOk(w, x, maxRetries); }
  }

  lemma StoreKeepsWork(w: Work, l: T.Ledger, step: WorkStep, maxRetries: nat)
    requires WorkOk(w, maxRetries)
    requires StoreStep(step)
    ensures WorkOk(NextWork(w, l, step, maxRetries), maxRetries)
  {
    match step
    case Create(id) => CreateKeepsWork(w, id, maxRetries);
    case Enqueue(id, resume) => EnqueueKeepsWork(w, l, id, resume, maxRetries);
    case Control(id, cancel) => ControlKeepsWork(w, id, cancel, maxRetries);
    case Transition(id, to) => TransitionKeepsWork(w, id, to, maxRetries);
    case Park(id) => ParkKeepsWork(w, id, maxRetries);
    case Plan(id) => PlanKeepsWork(w, id, maxRetries);
    case StartTaskStep(id) => StepKeepsWork(w, id, maxRetries);
  }

  lemma DeliverKeepsWork(w: Work, l: T.Ledger, j: JobId, authorized: bool, maxRetries: nat)
    requires WorkOk(w, maxRetries)
    ensures WorkOk(DeliverStep(w, l, j, authorized), maxRetries)
  {
    if w.fetched[j] > 0 {
      if Delivering(w.queue, l, j, authorized).1 {
        AcceptedKeepsWork(w, l, j, maxRetries);
      } else {
        RefusedKeepsWork(w, l, j, authorized, maxRetries);
      }
    }
  }

  predicate StoreStep(step: WorkStep) {
    step.Create? || step.Enqueue? || step.Control? || step.Transition? || step.Park? || step.Plan? || step.StartTaskStep?
  }

  lemma NextKeepsWork(w: Work, l: T.Ledger, step: WorkStep, maxRetries: nat)
    requires WorkOk(w, maxRetries)
    ensures WorkOk(NextWork(w, l, step, maxRetries), maxRetries)
  {
    if StoreStep(step) {
      StoreKeepsWork(w, l, step, maxRetries);
    } else if step.Load? {
      if step.id in w.queue.tasks { LoadKeepsWork(w, step.id, maxRetries); }
    } else if step.SaveLoaded? {
      if (step.id, step.task) in w.loaded { SaveLoadedKeepsWork(w, step.id, step.task, maxRetries); }
    } else if step.Deliver? {
      DeliverKeepsWork(w, l, step.job, step.authorized, maxRetries);
    } else if step.Fail? {
      FailKeepsWork(w, l, step.job, step.retryable, step.rescheduled, maxRetries);
    } else if step.RecoverDecide? {
      RecoverKeepsWork(w, l, step.job, maxRetries);
    } else {
      BookkeepingKeepsWork(w, l, step, maxRetries);
    }
  }

  lemma {:induction false} RunKeepsWork(w: Work, steps: seq<(T.Ledger, WorkStep)>, maxRetries: nat)
    requires WorkOk(w, maxRetries)
    ensures WorkOk(RunWork(w, steps, maxRetries), maxRetries)
    decreases |steps|
  {
    if steps != [] {
      NextKeepsWork(w, steps[0].0, steps[0].1, maxRetries);
      RunKeepsWork(NextWork(w, steps[0].0, steps[0].1, maxRetries), steps[1..], maxRetries);
    }
  }
}
