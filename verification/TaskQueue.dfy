/**
 The durable task record and its job queue: enqueueing, control requests, the
 optimistic task store, the worker's claim and failure blocks, and the recovery
 of stalled jobs.  Each function is one transaction; the classes at the end
 perform them in place.
 */
module TaskQueue {
  import opened Wrappers
  import T = ToolActions

  type TaskId = T.TaskId
  type JobId = nat

  datatype Status = Pending | Queued | Running | Paused | WaitingUser | Completed | Failed | Cancelled | RequiresReconciliation

  datatype Task = Task(
    status: Status,
    version: nat,
    job: Option<JobId>,
    queuedVersion: Option<nat>,
    attempts: nat,
    planned: bool,
    pauseRequested: bool,
    cancelRequested: bool)

  const NEW_TASK := Task(Pending, 0, None, None, 0, false, false, false)

  datatype Event =
    | TaskCreated | TaskEnqueued | ControlRequested | StatusChanged(to: Status) | PlanCreated | StepStarted
    | WorkerStarted | WorkerFailure | AnswerSaved

  datatype Row = Row(task: Task, events: seq<Event>)

  /** Only ids cross the queue boundary: the task, and the version it was queued at. */
  datatype JobStatus = Todo | Doing | Ended

  datatype Job = Job(task: TaskId, expectedVersion: nat, status: JobStatus)

  datatype Queue = Queue(tasks: map<TaskId, Row>, jobs: map<JobId, Job>, nextJob: JobId)

  /** `save_task`: every write moves the version. */
  function Save(row: Row, task: Task, event: Event): Row {
    Row(task.(version := task.version + 1), row.events + [event])
  }

  function Write(q: Queue, id: TaskId, task: Task, event: Event): Queue
    requires id in q.tasks
  {
    q.(tasks := q.tasks[id := Save(q.tasks[id], task, event)])
  }

  function Creating(q: Queue, id: TaskId): Queue {
    if id in q.tasks then q else q.(tasks := q.tasks[id := Row(NEW_TASK, [TaskCreated])])
  }

  /** An approval of this task still waits for a human. */
  predicate AwaitsApproval(l: T.Ledger, id: TaskId) {
    exists a | a in l.approvals :: l.approvals[a].task == id && l.approvals[a].status.Pending?
  }

  /** The queueing lock: one job per task may wait in the queue. */
  predicate LockHeld(q: Queue, id: TaskId) {
    exists j | j in q.jobs :: q.jobs[j].task == id && q.jobs[j].status.Todo?
  }

  function Enqueueing(q: Queue, l: T.Ledger, id: TaskId, resume: bool): (Queue, Result<Task>) {
    if id !in q.tasks then (q, Err(RecordNotFound))
    else
      var task := q.tasks[id].task;
      var legal := if resume then task.status in {Paused, WaitingUser, Status.Failed} else task.status.Pending?;
      if !legal || task.cancelRequested || AwaitsApproval(l, id) || LockHeld(q, id) then (q, Err(TaskConflict))
      else
        var task' := task.(status := Queued, pauseRequested := false,
                           queuedVersion := Some(task.version + 1), job := Some(q.nextJob));
        var q' := Write(q, id, task', TaskEnqueued);
        (q'.(jobs := q.jobs[q.nextJob := Job(id, task.version + 1, Todo)], nextJob := q.nextJob + 1),
         Ok(q'.tasks[id].task))
  }

  /** Cancelling a queued job removes it from the queue; one that runs is left alone. */
  function Withdrawn(jobs: map<JobId, Job>, job: Option<JobId>): map<JobId, Job> {
    if job.Some? && job.value in jobs && jobs[job.value].status.Todo?
    then jobs[job.value := jobs[job.value].(status := Ended)] else jobs
  }

  function Controlling(q: Queue, id: TaskId, cancel: bool): (Queue, Result<Task>) {
    if id !in q.tasks then (q, Err(RecordNotFound))
    else
      var task := q.tasks[id].task;
      if task.status in {Completed, Cancelled, RequiresReconciliation} then (q, Err(TaskConflict))
      else
        var asked := if cancel then task.(cancelRequested := true) else task.(pauseRequested := true);
        var task' := if task.status.Running? then asked else asked.(status := if cancel then Cancelled else Paused);
        var q' := Write(q, id, task', ControlRequested);
        (if task.status.Running? then q' else q'.(jobs := Withdrawn(q.jobs, task.job)), Ok(q'.tasks[id].task))
  }

  /** `TaskStore.transition` refuses moves outside this table. */
  predicate Legal(from: Status, to: Status) {
    match to
    case Running => from in {Pending, Queued, Paused, WaitingUser, Failed}
    case Paused => from in {Running, Pending, Queued}
    case Cancelled => from in {Pending, Queued, Running, Paused, WaitingUser, Failed}
    case Completed => from.Running?
    case Failed => from.Running?
    case WaitingUser => from.Running?
    case _ => false
  }

  function Transitioning(q: Queue, id: TaskId, to: Status): (Queue, Result<Task>) {
    if id !in q.tasks then (q, Err(RecordNotFound))
    else if !Legal(q.tasks[id].task.status, to) then (q, Err(TaskConflict))
    else
      var q' := Write(q, id, q.tasks[id].task.(status := to), StatusChanged(to));
      (q', Ok(q'.tasks[id].task))
  }

  /** `wait_for_approval` writes the status without looking at it. */
  function Parking(q: Queue, id: TaskId): Queue {
    if id !in q.tasks then q
    else Write(q, id, q.tasks[id].task.(status := WaitingUser), StatusChanged(WaitingUser))
  }

  function Planning(q: Queue, id: TaskId): Queue {
    if id !in q.tasks || q.tasks[id].task.planned then q
    else Write(q, id, q.tasks[id].task.(planned := true), PlanCreated)
  }

  /** `start_step` when the step may start: only a running task moves. */
  function Stepping(q: Queue, id: TaskId): Queue {
    if id !in q.tasks || !q.tasks[id].task.status.Running? then q
    else Write(q, id, q.tasks[id].task, StepStarted)
  }

  /** `_save` of a task loaded in an earlier transaction: a compare-and-swap on the version. */
  function SavingLoaded(q: Queue, id: TaskId, loaded: Task): (Queue, Result<Task>) {
    if id !in q.tasks || q.tasks[id].task.version != loaded.version then (q, Err(TaskConflict))
    else
      var q' := Write(q, id, loaded, AnswerSaved);
      (q', Ok(q'.tasks[id].task))
  }

  // ------------------------------------------------------------------- worker

  /** A write reached an external provider and its outcome is unknown, or it failed. */
  predicate AmbiguousExecution(e: T.Execution, id: TaskId) {
    && e.task == Some(id)
    && (e.status.Running? || e.status.Failed?)
    && !e.key.tool.operation.Read?
    && !e.key.tool.native
  }

  predicate AmbiguousWrite(l: T.Ledger, id: TaskId) {
    exists e | e in l.executions :: AmbiguousExecution(l.executions[e], id)
  }

  /** Does this delivery carry the task's current generation? */
  predicate Current(q: Queue, j: JobId) {
    && j in q.jobs && q.jobs[j].task in q.tasks
    && q.tasks[q.jobs[j].task].task.job == Some(j)
    && q.tasks[q.jobs[j].task].task.queuedVersion == Some(q.jobs[j].expectedVersion)
  }

  /** The claim block of `execute_task`.  The flag says whether the task now runs under this delivery. */
  function Delivering(q: Queue, l: T.Ledger, j: JobId, authorized: bool): (Queue, bool) {
    if !Current(q, j) then (q, false)
    else
      var id := q.jobs[j].task;
      var task := q.tasks[id].task;
      if !task.status.Queued? && !task.status.Running? then (q, false)
      else if task.cancelRequested || task.pauseRequested then
        var status := if task.cancelRequested then Cancelled else Paused;
        (Write(q, id, task.(status := status), StatusChanged(status)), false)
      else if AmbiguousWrite(l, id) then
        (Write(q, id, task.(status := RequiresReconciliation), StatusChanged(RequiresReconciliation)), false)
      else if !authorized then
        (Write(q, id, task.(status := Failed), StatusChanged(Failed)), false)
      else
        (Write(q, id, task.(status := Running, attempts := task.attempts + 1), WorkerStarted), true)
  }

  /** The failure block of `execute_task`.  The flag says whether a retryable error is raised to the queue. */
  function FailingRun(q: Queue, l: T.Ledger, id: TaskId, retryable: bool, maxRetries: nat): (Queue, bool) {
    if id !in q.tasks then (q, false)
    else
      var task := q.tasks[id].task;
      var ambiguous := AmbiguousWrite(l, id);
      var retry := !ambiguous && retryable;
      var status :=
        if task.cancelRequested then Cancelled
        else if ambiguous then RequiresReconciliation
        else if retry && task.attempts <= maxRetries then Queued
        else if task.status !in {Paused, WaitingUser, Completed} then Failed
        else task.status;
      (Write(q, id, task.(status := status), WorkerFailure), retry && status.Queued?)
  }

  datatype Recovery = Retry | Reconcile | Exhausted | Ignore

  /** The decision `recover_stalled` takes for one stalled job. */
  function RecoveryOf(q: Queue, l: T.Ledger, j: JobId, maxRetries: nat): Recovery {
    if j !in q.jobs || q.jobs[j].task !in q.tasks then Ignore
    else
      var task := q.tasks[q.jobs[j].task].task;
      if task.job != Some(j) || (!task.status.Queued? && !task.status.Running?) then Ignore
      else if AmbiguousWrite(l, q.jobs[j].task) then Reconcile
      else if task.attempts > maxRetries then Exhausted
      else Retry
  }

  function Recovering(q: Queue, l: T.Ledger, j: JobId, maxRetries: nat): (Queue, Recovery) {
    var recovery := RecoveryOf(q, l, j, maxRetries);
    var q' :=
      match recovery
      case Reconcile =>
        Write(q, q.jobs[j].task, q.tasks[q.jobs[j].task].task.(status := RequiresReconciliation), StatusChanged(RequiresReconciliation))
      case Exhausted =>
        Write(q, q.jobs[j].task, q.tasks[q.jobs[j].task].task.(status := Failed), StatusChanged(Failed))
      case _ => q;
    (q', recovery)
  }

  /** The framework's own bookkeeping for a job. */
  function SetJob(q: Queue, j: JobId, from: JobStatus, to: JobStatus): Queue {
    if j in q.jobs && q.jobs[j].status == from then q.(jobs := q.jobs[j := q.jobs[j].(status := to)]) else q
  }

  // ------------------------------------------------------- what each operation decides

  /** The task row carries this delivery's job and was queued at its version. */
  predicate Carries(q: Queue, j: JobId, id: TaskId) {
    && j in q.jobs && q.jobs[j].task == id && id in q.tasks
    && q.tasks[id].task.job == Some(j) && q.tasks[id].task.queuedVersion == Some(q.jobs[j].expectedVersion)
  }

  /** Only this task's row was written, with one new version and one event. */
  predicate WroteTask(q: Queue, q': Queue, id: TaskId, event: Event) {
    && id in q.tasks && id in q'.tasks && q' == q.(tasks := q.tasks[id := q'.tasks[id]])
    && q'.tasks[id].task.version == q.tasks[id].task.version + 1 && q'.tasks[id].events == q.tasks[id].events + [event]
  }

  /**
   A delivery starts a task exactly when it is the task's current job, the task waits or runs,
   neither cancelling nor pausing was requested, no external write is unknown, and it is
   authorized. A request to cancel cancels, one to pause pauses, an unknown write asks for
   reconciliation and a lost authorization fails the task, in this order; a stale delivery or
   an idle task changes nothing.
   */
  lemma DeliveringExactly(q: Queue, l: T.Ledger, j: JobId, id: TaskId, authorized: bool)
    requires j in q.jobs && q.jobs[j].task == id
    ensures var (q', started) := Delivering(q, l, j, authorized);
            if !Carries(q, j, id) || !(q.tasks[id].task.status.Queued? || q.tasks[id].task.status.Running?)
            then q' == q && !started
            else
              var task := q.tasks[id].task;
              var status := if task.cancelRequested then Cancelled
                            else if task.pauseRequested then Paused
                            else if AmbiguousWrite(l, id) then RequiresReconciliation
                            else if !authorized then Status.Failed
                            else Running;
              && (started <==> !task.cancelRequested && !task.pauseRequested && !AmbiguousWrite(l, id) && authorized)
              && WroteTask(q, q', id, if started then WorkerStarted else StatusChanged(status))
              && q'.tasks[id].task == task.(version := task.version + 1, status := status, attempts := task.attempts + if started then 1 else 0)
  {
  }

  /** A write of the task to an external provider whose outcome is unknown, or that failed. */
  lemma AmbiguousExactly(l: T.Ledger, id: TaskId)
    ensures AmbiguousWrite(l, id) <==>
            exists e | e in l.executions ::
              var row := l.executions[e];
              row.task == Some(id) && (row.status.Running? || row.status.Failed?)
              && !row.key.tool.operation.Read? && !row.key.tool.native
  {
    if e :| e in l.executions && l.executions[e].task == Some(id) && (l.executions[e].status.Running? || l.executions[e].status.Failed?)
            && !l.executions[e].key.tool.operation.Read? && !l.executions[e].key.tool.native {
      assert AmbiguousExecution(l.executions[e], id);
    }
    if AmbiguousWrite(l, id) {
      var e :| e in l.executions && AmbiguousExecution(l.executions[e], id);
      assert e in l.executions;
    }
  }

  /**
   Enqueueing succeeds exactly for a task in a status to start from, or to resume from, that
   was not cancelled, awaits no approval and has no job waiting. It queues the task at its
   next version under a fresh job and forgets a request to pause; a refusal changes nothing.
   */
  lemma EnqueueingExactly(q: Queue, l: T.Ledger, id: TaskId, resume: bool)
    ensures var (q', r) := Enqueueing(q, l, id, resume);
            && (r.Ok? <==>
                  && id in q.tasks && !q.tasks[id].task.cancelRequested
                  && (if resume then q.tasks[id].task.status in {Paused, WaitingUser, Status.Failed} else q.tasks[id].task.status == Status.Pending)
                  && (forall a | a in l.approvals && l.approvals[a].task == id :: !l.approvals[a].status.Pending?)
                  && (forall j | j in q.jobs && q.jobs[j].task == id :: !q.jobs[j].status.Todo?))
            && (r.Err? ==> q' == q)
            && (r.Ok? ==>
                  var task := q.tasks[id].task;
                  && id in q'.tasks && q'.tasks == q.tasks[id := q'.tasks[id]] && q'.nextJob == q.nextJob + 1
                  && q'.tasks[id].task == Task(Queued, task.version + 1, Some(q.nextJob), Some(task.version + 1), task.attempts,
                                               task.planned, false, false)
                  && q'.tasks[id].events == q.tasks[id].events + [TaskEnqueued]
                  && q'.jobs == q.jobs[q.nextJob := Job(id, task.version + 1, Todo)])
  {
  }

  /**
   A request to pause or cancel is refused exactly for a finished task. On a running task it
   only leaves its mark; any other task is paused or cancelled at once and its waiting job
   withdrawn.
   */
  lemma ControllingExactly(q: Queue, id: TaskId, cancel: bool)
    ensures var (q', r) := Controlling(q, id, cancel);
            && (r.Ok? <==> id in q.tasks && q.tasks[id].task.status !in {Completed, Cancelled, RequiresReconciliation})
            && (r.Err? ==> q' == q)
            && (r.Ok? ==>
                  var task := q.tasks[id].task;
                  && id in q'.tasks && q'.tasks == q.tasks[id := q'.tasks[id]] && q'.nextJob == q.nextJob && q'.jobs.Keys == q.jobs.Keys
                  && q'.tasks[id].task == Task(
                       if task.status.Running? then Running else if cancel then Cancelled else Paused,
                       task.version + 1, task.job, task.queuedVersion, task.attempts, task.planned,
                       task.pauseRequested || !cancel, task.cancelRequested || cancel)
                  && q'.tasks[id].events == q.tasks[id].events + [ControlRequested]
                  && forall j | j in q.jobs ::
                       q'.jobs[j] == if !task.status.Running? && task.job == Some(j) && q.jobs[j].status.Todo?
                                     then q.jobs[j].(status := Ended) else q.jobs[j])
  {
  }

  /** Nothing leads out of a finished status, nothing but running finishes, and running starts anywhere else. */
  lemma TransitioningExactly(q: Queue, id: TaskId, to: Status)
    ensures var (q', r) := Transitioning(q, id, to);
            && (r.Err? ==> q' == q)
            && (r.Ok? ==> WroteTask(q, q', id, StatusChanged(to))
                          && q'.tasks[id].task == q.tasks[id].task.(version := q.tasks[id].task.version + 1, status := to))
            && (r.Ok? <==>
                  && id in q.tasks && !(to.Pending? || to.Queued? || to.RequiresReconciliation?)
                  && var from := q.tasks[id].task.status;
                     && !(from.Completed? || from.Cancelled? || from.RequiresReconciliation? || from == to)
                     && (to.Completed? || to.Failed? || to.WaitingUser? ==> from.Running?)
                     && (to.Paused? ==> !(from.WaitingUser? || from.Failed?)))
  {
  }

  /** Parking for an approval, planning and starting a step change at most the status, or that there is a plan. */
  lemma SteppingExactly(q: Queue, id: TaskId)
    requires id in q.tasks
    ensures var task, next := q.tasks[id].task, q.tasks[id].task.version + 1;
            && WroteTask(q, Parking(q, id), id, StatusChanged(WaitingUser))
            && Parking(q, id).tasks[id].task == task.(version := next, status := WaitingUser)
            && (if task.planned then Planning(q, id) == q
                else WroteTask(q, Planning(q, id), id, PlanCreated)
                     && Planning(q, id).tasks[id].task == task.(version := next, planned := true))
            && (if !task.status.Running? then Stepping(q, id) == q
                else WroteTask(q, Stepping(q, id), id, StepStarted) && Stepping(q, id).tasks[id].task == task.(version := next))
  {
  }

  /**
   A failure block ends in the first that applies: cancelled, reconciliation, queued for a
   retryable error within the limit, or failed, unless the task was parked, paused or done
   meanwhile; it asks the queue for a retry exactly when it leaves the task queued for one.
   */
  lemma FailingExactly(q: Queue, l: T.Ledger, id: TaskId, retryable: bool, maxRetries: nat)
    requires id in q.tasks
    ensures var (q', raised) := FailingRun(q, l, id, retryable, maxRetries);
            var task := q.tasks[id].task;
            && WroteTask(q, q', id, WorkerFailure)
            && q'.tasks[id].task == task.(version := task.version + 1, status := q'.tasks[id].task.status)
            && (task.cancelRequested ==> q'.tasks[id].task.status.Cancelled? && !raised)
            && (!task.cancelRequested && AmbiguousWrite(l, id) ==> q'.tasks[id].task.status.RequiresReconciliation? && !raised)
            && (!task.cancelRequested && !AmbiguousWrite(l, id) && retryable && task.attempts <= maxRetries ==>
                  q'.tasks[id].task.status.Queued? && raised)
            && (!task.cancelRequested && !AmbiguousWrite(l, id) && !(retryable && task.attempts <= maxRetries) ==>
                  && !raised
                  && q'.tasks[id].task.status ==
                     if task.status in {Paused, WaitingUser, Completed} then task.status else Status.Failed)
  {
  }

  /** A stalled job is retried exactly when it is the job of a waiting or running task with all writes known and attempts left. */
  lemma RecoveringExactly(q: Queue, l: T.Ledger, j: JobId, maxRetries: nat)
    ensures var (q', recovery) := Recovering(q, l, j, maxRetries);
            var active := j in q.jobs && q.jobs[j].task in q.tasks && q.tasks[q.jobs[j].task].task.job == Some(j)
                          && q.tasks[q.jobs[j].task].task.status in {Queued, Running};
            && (!active ==> recovery.Ignore? && q' == q)
            && (active ==>
                  var id := q.jobs[j].task;
                  var task := q.tasks[id].task;
                  if AmbiguousWrite(l, id) then
                    recovery.Reconcile? && WroteTask(q, q', id, StatusChanged(RequiresReconciliation))
                    && q'.tasks[id].task == task.(version := task.version + 1, status := RequiresReconciliation)
                  else if task.attempts > maxRetries then
                    recovery.Exhausted? && WroteTask(q, q', id, StatusChanged(Status.Failed))
                    && q'.tasks[id].task == task.(version := task.version + 1, status := Status.Failed)
                  else recovery.Retry? && q' == q)
  {
  }

  datatype Counts = Counts(retried: nat, reconciliation: nat, ignored: nat)

  /** A whole sweep of `recover_stalled`, undisturbed: decide, then retry or finish each job. */
  function RecoveringAll(q: Queue, l: T.Ledger, stalled: seq<JobId>, maxRetries: nat): (Queue, Counts) {
    if stalled == [] then (q, Counts(0, 0, 0))
    else
      var n, j := |stalled| - 1, stalled[|stalled| - 1];
      var (before, c) := RecoveringAll(q, l, stalled[..n], maxRetries);
      var (after, recovery) := Recovering(before, l, j, maxRetries);
      if recovery.Retry? then (SetJob(after, j, Doing, Todo), c.(retried := c.retried + 1))
      else (SetJob(after, j, Doing, Ended),
            c.(ignored := c.ignored + 1, reconciliation := c.reconciliation + if recovery.Reconcile? then 1 else 0))
  }

  /** A sweep counts every stalled job once, leaves none of them running, and touches no other job. */
  lemma {:induction false} SweepSettlesEveryJob(q: Queue, l: T.Ledger, stalled: seq<JobId>, maxRetries: nat)
    ensures var (q', c) := RecoveringAll(q, l, stalled, maxRetries);
            && c.retried + c.ignored == |stalled| && c.reconciliation <= c.ignored
            && q'.jobs.Keys == q.jobs.Keys
            && (forall j | j in q.jobs && j in stalled :: !q'.jobs[j].status.Doing?)
            && (forall j | j in q.jobs && (j !in stalled || !q.jobs[j].status.Doing?) :: q'.jobs[j] == q.jobs[j])
  {
    if stalled != [] {
      var before, j := stalled[..|stalled| - 1], stalled[|stalled| - 1];
      SweepSettlesEveryJob(q, l, before, maxRetries);
      assert stalled == before + [j];
      SettlingOne(RecoveringAll(q, l, before, maxRetries).0, l, j, maxRetries);
    }
  }

  /** Each stalled job in turn is retried or finished as decided for it, and counted as that. */
  lemma SweepDecides(q: Queue, l: T.Ledger, stalled: seq<JobId>, j: JobId, maxRetries: nat)
    ensures var (before, c) := RecoveringAll(q, l, stalled, maxRetries);
            var (after, c') := RecoveringAll(q, l, stalled + [j], maxRetries);
            var (settled, recovery) := Recovering(before, l, j, maxRetries);
            && after.tasks == settled.tasks
            && c'.retried - c.retried == (if recovery.Retry? then 1 else 0)
            && c'.ignored - c.ignored == (if recovery.Retry? then 0 else 1)
            && c'.reconciliation - c.reconciliation == (if recovery.Reconcile? then 1 else 0)
            && (j in before.jobs && before.jobs[j].status.Doing? ==>
                  after.jobs[j].status == if recovery.Retry? then Todo else Ended)
  {
    assert (stalled + [j])[..|stalled|] == stalled;
  }

  lemma SettlingOne(q: Queue, l: T.Ledger, j: JobId, maxRetries: nat)
    ensures Recovering(q, l, j, maxRetries).0.jobs == q.jobs
  {
  }

  /** A sweep never retries a task with an unknown external write: its status stays or asks for reconciliation. */
  lemma {:induction false} SweepKeepsQuarantine(q: Queue, l: T.Ledger, stalled: seq<JobId>, maxRetries: nat, id: TaskId)
    requires id in q.tasks && AmbiguousWrite(l, id)
    ensures var q' := RecoveringAll(q, l, stalled, maxRetries).0;
            id in q'.tasks && q'.tasks[id].task.attempts == q.tasks[id].task.attempts
            && (q'.tasks[id].task.status == q.tasks[id].task.status || q'.tasks[id].task.status.RequiresReconciliation?)
  {
    if stalled != [] {
      SweepKeepsQuarantine(q, l, stalled[..|stalled| - 1], maxRetries, id);
    }
  }

  // -------------------------------------------------------------- generations

  /** Which jobs of a task exist, and which one is current. */
  ghost predicate JobOk(q: Queue, j: JobId)
    requires j in q.jobs
  {
    && j < q.nextJob
    && q.jobs[j].task in q.tasks
    && var task := q.tasks[q.jobs[j].task].task;
       && task.job.Some? && j <= task.job.value
       && q.jobs[j].expectedVersion <= task.version
       && task.queuedVersion.Some?
       && (j == task.job.value ==> q.jobs[j].expectedVersion == task.queuedVersion.value)
       && (j < task.job.value ==> q.jobs[j].expectedVersion < task.queuedVersion.value)
  }

  ghost predicate TaskOk(q: Queue, id: TaskId)
    requires id in q.tasks
  {
    var task := q.tasks[id].task;
    task.job.Some? ==> task.job.value in q.jobs && q.jobs[task.job.value].task == id
  }

  ghost predicate GenerationsOk(q: Queue) {
    && (forall j {:trigger JobOk(q, j)} | j in q.jobs :: JobOk(q, j))
    && (forall id {:trigger TaskOk(q, id)} | id in q.tasks :: TaskOk(q, id))
  }

  /** What any write to one task may do to the queue columns: nothing but move the version. */
  ghost predicate Moves(q: Queue, q': Queue, id: TaskId) {
    && id in q.tasks && q'.tasks.Keys == q.tasks.Keys
    && (forall x | x in q.tasks && x != id :: q'.tasks[x] == q.tasks[x])
    && q'.tasks[id].task.version == q.tasks[id].task.version + 1
    && q'.tasks[id].task.job == q.tasks[id].task.job
    && q'.tasks[id].task.queuedVersion == q.tasks[id].task.queuedVersion
  }

  ghost predicate SameJobs(q: Queue, q': Queue) {
    && q'.nextJob == q.nextJob && q'.jobs.Keys == q.jobs.Keys
    && forall j | j in q.jobs :: q'.jobs[j].task == q.jobs[j].task && q'.jobs[j].expectedVersion == q.jobs[j].expectedVersion
  }

  lemma MoveKeepsGenerations(q: Queue, q': Queue, id: TaskId)
    requires GenerationsOk(q) && SameJobs(q, q') && (q'.tasks == q.tasks || Moves(q, q', id))
    ensures GenerationsOk(q')
    ensures forall j | j in q.jobs :: Current(q', j) == Current(q, j)
  {
    forall j | j in q'.jobs ensures JobOk(q', j) && Current(q', j) == Current(q, j) { assert JobOk(q, j); }
    forall x | x in q'.tasks ensures TaskOk(q', x) { assert TaskOk(q, x); }
  }

  /** An enqueue installs a job newer than every other, at a larger version, and supersedes the rest. */
  lemma EnqueueKeepsGenerations(q: Queue, l: T.Ledger, id: TaskId, resume: bool)
    requires GenerationsOk(q)
    ensures
      var (q', r) := Enqueueing(q, l, id, resume);
      && GenerationsOk(q')
      && (r.Err? ==> q' == q)
      && (r.Ok? ==>
            && q.nextJob !in q.jobs && Current(q', q.nextJob)
            && (forall j | j in q.jobs && q.jobs[j].task == id ::
                  j < q.nextJob && q.jobs[j].expectedVersion < q'.jobs[q.nextJob].expectedVersion && !Current(q', j))
            && (forall j | j in q.jobs && q.jobs[j].task != id :: Current(q', j) == Current(q, j)))
  {
    var (q', r) := Enqueueing(q, l, id, resume);
    if r.Ok? {
      assert forall j | j in q.jobs :: JobOk(q, j) && j < q.nextJob;
      forall j | j in q'.jobs
        ensures JobOk(q', j) && (j != q.nextJob ==> j < q.nextJob)
      {
        if j != q.nextJob { assert JobOk(q, j); }
      }
      forall x | x in q'.tasks ensures TaskOk(q', x) { assert TaskOk(q, x); }
    }
  }

  // ------------------------------------------------------------------- tables

  /** The task and job tables, written in place by the queue, the task store and the worker. */
  class TaskTables {
    var tasks: map<TaskId, Row>
    var jobs: map<JobId, Job>
    var nextJob: JobId

    ghost function State(): Queue
      reads this
    {
      Queue(tasks, jobs, nextJob)
    }

    constructor ()
      ensures State() == Queue(map[], map[], 0) && GenerationsOk(State())
    {
      tasks, jobs, nextJob := map[], map[], 0;
    }

    method SaveTask(id: TaskId, task: Task, event: Event)
      requires id in tasks
      modifies this`tasks
      ensures State() == Write(old(State()), id, task, event)
    {
      var moved := task.(version := task.version + 1);
      tasks := tasks[id := Row(moved, tasks[id].events + [event])];
    }

    method Enqueue(l: T.Ledger, id: TaskId, resume: bool) returns (r: Result<Task>)
      modifies this
      ensures (State(), r) == Enqueueing(old(State()), l, id, resume)
    {
      if id !in tasks {
        return Err(RecordNotFound);
      }
      var task := tasks[id].task;
      var legal := if resume then {Paused, WaitingUser, Status.Failed} else {Status.Pending};
      if task.status !in legal || task.cancelRequested {
        return Err(TaskConflict);
      }
      if AwaitsApproval(l, id) {
        return Err(TaskConflict);
      }
      if exists j | j in jobs :: jobs[j].task == id && jobs[j].status.Todo? {
        return Err(TaskConflict);
      }
      var expected := task.version + 1;
      task := task.(status := Queued, pauseRequested := false, queuedVersion := Some(expected), job := Some(nextJob));
      jobs := jobs[nextJob := Job(id, expected, Todo)];
      nextJob := nextJob + 1;
      SaveTask(id, task, TaskEnqueued);
      return Ok(tasks[id].task);
    }

    /** Removes a job that still waits from the queue. */
    method WithdrawJob(job: Option<JobId>)
      modifies this`jobs
      ensures jobs == Withdrawn(old(jobs), job)
    {
      if job.Some? && job.value in jobs && jobs[job.value].status.Todo? {
        jobs := jobs[job.value := jobs[job.value].(status := Ended)];
      }
    }

    method RequestControl(id: TaskId, cancel: bool) returns (r: Result<Task>)
      modifies this
      ensures (State(), r) == Controlling(old(State()), id, cancel)
    {
      if id !in tasks {
        return Err(RecordNotFound);
      }
      var task := tasks[id].task;
      if task.status !in {Status.Pending, Queued, Running, Paused, WaitingUser, Status.Failed} {
        return Err(TaskConflict);
      }
      if cancel {
        task := task.(cancelRequested := true);
      } else {
        task := task.(pauseRequested := true);
      }
      if !task.status.Running? {
        WithdrawJob(task.job);
        task := task.(status := if cancel then Cancelled else Paused);
      }
      SaveTask(id, task, ControlRequested);
      return Ok(tasks[id].task);
    }

    method Transition(id: TaskId, to: Status) returns (r: Result<Task>)
      modifies this`tasks
      ensures (State(), r) == Transitioning(old(State()), id, to)
    {
      if id !in tasks {
        return Err(RecordNotFound);
      }
      if !Legal(tasks[id].task.status, to) {
        return Err(TaskConflict);
      }
      SaveTask(id, tasks[id].task.(status := to), StatusChanged(to));
      return Ok(tasks[id].task);
    }

    method WaitForApproval(id: TaskId)
      modifies this`tasks
      ensures State() == Parking(old(State()), id)
    {
      if id in tasks {
        SaveTask(id, tasks[id].task.(status := WaitingUser), StatusChanged(WaitingUser));
      }
    }

    /** The claim block of `execute_task`. */
    method ClaimDelivery(l: T.Ledger, j: JobId, authorized: bool) returns (started: bool)
      modifies this`tasks
      ensures (State(), started) == Delivering(old(State()), l, j, authorized)
    {
      if j !in jobs || jobs[j].task !in tasks {
        return false;
      }
      var id := jobs[j].task;
      var task := tasks[id].task;
      if task.job != Some(j) || task.queuedVersion != Some(jobs[j].expectedVersion) {
        return false;
      }
      if task.status !in {Queued, Running} {
        return false;
      }
      if task.cancelRequested || task.pauseRequested {
        var status := if task.cancelRequested then Cancelled else Paused;
        SaveTask(id, task.(status := status), StatusChanged(status));
        return false;
      }
      if AmbiguousWrite(l, id) {
        SaveTask(id, task.(status := RequiresReconciliation), StatusChanged(RequiresReconciliation));
        return false;
      }
      if !authorized {
        SaveTask(id, task.(status := Failed), StatusChanged(Failed));
        return false;
      }
      task := task.(status := Running, attempts := task.attempts + 1);
      SaveTask(id, task, WorkerStarted);
      return true;
    }

    /** The failure block of `execute_task`. */
    method HandleFailure(l: T.Ledger, id: TaskId, retryable: bool, maxRetries: nat) returns (raised: bool)
      modifies this`tasks
      ensures (State(), raised) == FailingRun(old(State()), l, id, retryable, maxRetries)
    {
      if id !in tasks {
        return false;
      }
      var current := tasks[id].task;
      var ambiguous := AmbiguousWrite(l, id);
      if current.cancelRequested {
        current := current.(status := Cancelled);
      } else if ambiguous {
        current := current.(status := RequiresReconciliation);
      } else if retryable && current.attempts <= maxRetries {
        current := current.(status := Queued);
      } else if current.status !in {Paused, WaitingUser, Completed} {
        current := current.(status := Failed);
      }
      SaveTask(id, current, WorkerFailure);
      return !ambiguous && retryable && current.status.Queued?;
    }

    method FinishJob(j: JobId, status: JobStatus)
      modifies this`jobs
      ensures State() == SetJob(old(State()), j, Doing, status)
    {
      if j in jobs && jobs[j].status.Doing? {
        jobs := jobs[j := jobs[j].(status := status)];
      }
    }

    /** Takes the decision for one stalled job and records it in the task. */
    method SettleStalled(l: T.Ledger, j: JobId, maxRetries: nat) returns (retry: bool, reconciled: bool)
      modifies this`tasks
      ensures var (q, recovery) := Recovering(old(State()), l, j, maxRetries);
              State() == q && retry == recovery.Retry? && reconciled == recovery.Reconcile?
    {
      retry := j in jobs && jobs[j].task in tasks && tasks[jobs[j].task].task.job == Some(j)
               && tasks[jobs[j].task].task.status in {Queued, Running};
      reconciled := false;
      if retry && AmbiguousWrite(l, jobs[j].task) {
        SaveTask(jobs[j].task, tasks[jobs[j].task].task.(status := RequiresReconciliation), StatusChanged(RequiresReconciliation));
        retry, reconciled := false, true;
      } else if retry && tasks[jobs[j].task].task.attempts > maxRetries {
        SaveTask(jobs[j].task, tasks[jobs[j].task].task.(status := Failed), StatusChanged(Failed));
        retry := false;
      }
    }

    /** One undisturbed sweep over the jobs the framework reports as stalled. */
    method RecoverStalled(l: T.Ledger, stalled: seq<JobId>, maxRetries: nat) returns (counts: Counts)
      modifies this
      ensures (State(), counts) == RecoveringAll(old(State()), l, stalled, maxRetries)
    {
      counts := Counts(0, 0, 0);
      var i := 0;
      while i < |stalled|
        invariant 0 <= i <= |stalled|
        invariant (State(), counts) == RecoveringAll(old(State()), l, stalled[..i], maxRetries)
      {
        assert stalled[..i + 1][..i] == stalled[..i];
        var retry, reconciled := SettleStalled(l, stalled[i], maxRetries);
        if reconciled {
          counts := counts.(reconciliation := counts.reconciliation + 1);
        }
        if retry {
          FinishJob(stalled[i], Todo);
          counts := counts.(retried := counts.retried + 1);
        } else {
          FinishJob(stalled[i], Ended);
          counts := counts.(ignored := counts.ignored + 1);
        }
        i := i + 1;
      }
      assert stalled[..i] == stalled;
    }
  }
}
