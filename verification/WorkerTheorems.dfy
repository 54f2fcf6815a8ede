/**
 What holds over whole runs of the durable queue: generations, bounded attempts, and the
 quarantine of tasks with an unknown external write.
 */
module WorkerTheorems {
  import opened Wrappers
  import T = ToolActions
  import opened TaskQueue
  import opened WorkerRuntime

  // ---------------------------------------------------- how the queue advances

  /** A row moves by raising its version; its job changes only to one never seen before. */
  ghost predicate RowAdvances(q: Queue, row: Row, row': Row) {
    || row' == row
    || (&& row'.task.version > row.task.version
        && if row'.task.job == row.task.job then row'.task.queuedVersion == row.task.queuedVersion
           else && row'.task.job == Some(q.nextJob)
                && row'.task.queuedVersion.Some? && row'.task.queuedVersion.value > row.task.version)
  }

  /** The queue after a step in which at most the task `started` gained an attempt. */
  ghost predicate Advances(q: Queue, q': Queue, started: Option<TaskId>) {
    && (forall id {:trigger id in q'.tasks} | id in q.tasks ::
          && id in q'.tasks && RowAdvances(q, q.tasks[id], q'.tasks[id])
          && (started != Some(id) ==> q'.tasks[id].task.attempts == q.tasks[id].task.attempts))
    && (forall j {:trigger j in q'.jobs} | j in q.jobs ::
          j in q'.jobs && q'.jobs[j].task == q.jobs[j].task && q'.jobs[j].expectedVersion == q.jobs[j].expectedVersion)
  }

  ghost predicate NextJobUnused(q: Queue) {
    q.nextJob !in q.jobs && forall x | x in q.tasks :: q.tasks[x].task.job != Some(q.nextJob)
  }

  lemma CreateAdvances(q: Queue, id: TaskId)
    ensures Advances(q, Creating(q, id), None)
  {
  }

  lemma EnqueueAdvances(q: Queue, l: T.Ledger, id: TaskId, resume: bool)
    requires NextJobUnused(q)
    ensures Advances(q, Enqueueing(q, l, id, resume).0, None)
  {
  }

  lemma ControlAdvances(q: Queue, id: TaskId, cancel: bool)
    ensures Advances(q, Controlling(q, id, cancel).0, None)
  {
  }

  lemma StoreAdvances(q: Queue, id: TaskId, to: Status)
    ensures Advances(q, Transitioning(q, id, to).0, None)
    ensures Advances(q, Parking(q, id), None) && Advances(q, Planning(q, id), None) && Advances(q, Stepping(q, id), None)
  {
  }

  lemma DeliveringAdvances(q: Queue, l: T.Ledger, j: JobId, authorized: bool)
    ensures var (q', started) := Delivering(q, l, j, authorized);
            Advances(q, q', if started then Some(q.jobs[j].task) else None)
  {
  }

  lemma RecoveringAdvances(q: Queue, l: T.Ledger, j: JobId, maxRetries: nat)
    ensures Advances(q, Recovering(q, l, j, maxRetries).0, None)
  {
  }

  lemma FailingAdvances(q: Queue, l: T.Ledger, id: TaskId, retryable: bool, maxRetries: nat)
    ensures Advances(q, FailingRun(q, l, id, retryable, maxRetries).0, None)
  {
  }

  lemma NextJobIsFresh(q: Queue)
    requires GenerationsOk(q)
    ensures NextJobUnused(q)
  {
    assert forall j | j in q.jobs :: JobOk(q, j) && j < q.nextJob;
    forall x | x in q.tasks ensures q.tasks[x].task.job != Some(q.nextJob) {
      assert TaskOk(q, x);
    }
  }

  lemma SetJobAdvances(q: Queue, q': Queue, started: Option<TaskId>, j: JobId, from: JobStatus, to: JobStatus)
    requires Advances(q, q', started)
    ensures Advances(q, SetJob(q', j, from, to), started)
  {
  }

  /** The task that a step starts on a worker. */
  function Started(w: Work, l: T.Ledger, step: WorkStep): Option<TaskId> {
    if step.Deliver? && w.fetched[step.job] > 0 && Delivering(w.queue, l, step.job, step.authorized).1
    then Some(w.queue.jobs[step.job].task) else None
  }

  lemma StoreStepsAdvance(w: Work, l: T.Ledger, step: WorkStep, maxRetries: nat)
    requires WorkOk(w, maxRetries)
    requires StoreStep(step)
    ensures Advances(w.queue, NextWork(w, l, step, maxRetries).queue, None)
  {
    NextJobIsFresh(w.queue);
    match step
    case Enqueue(id, resume) => EnqueueAdvances(w.queue, l, id, resume);
    case Control(id, cancel) => ControlAdvances(w.queue, id, cancel);
    case Transition(id, to) => StoreAdvances(w.queue, id, to);
    case Create(id) => CreateAdvances(w.queue, id);
    case Park(id) => StoreAdvances(w.queue, id, Paused);
    case Plan(id) => StoreAdvances(w.queue, id, Paused);
    case StartTaskStep(id) => StoreAdvances(w.queue, id, Paused);
  }

  lemma BookkeepingAdvances(w: Work, l: T.Ledger, step: WorkStep, maxRetries: nat)
    requires step.Fetch? || step.RecoverRetry? || step.Complete? || step.RecoverFinish? || step.CrashFetched? || step.CrashRunning?
    ensures Advances(w.queue, NextWork(w, l, step, maxRetries).queue, None)
  {
    var q, j := w.queue, step.job;
    assert Advances(q, q, None);
    SetJobAdvances(q, q, None, j, Todo, Doing);
    SetJobAdvances(q, q, None, j, Doing, Todo);
    SetJobAdvances(q, q, None, j, Doing, Ended);
    assert NextWork(w, l, step, maxRetries).queue in {q, SetJob(q, j, Todo, Doing), SetJob(q, j, Doing, Todo), SetJob(q, j, Doing, Ended)};
  }

  lemma DeliverAdvances(w: Work, l: T.Ledger, step: WorkStep, maxRetries: nat)
    requires step.Deliver?
    ensures Advances(w.queue, NextWork(w, l, step, maxRetries).queue, Started(w, l, step))
  {
    if w.fetched[step.job] > 0 {
      DeliveringAdvances(w.queue, l, step.job, step.authorized);
      SetJobAdvances(w.queue, Delivering(w.queue, l, step.job, step.authorized).0, Started(w, l, step), step.job, Doing, Ended);
    }
  }

  lemma FailAdvances(w: Work, l: T.Ledger, step: WorkStep, maxRetries: nat)
    requires step.Fail?
    ensures Advances(w.queue, NextWork(w, l, step, maxRetries).queue, None)
  {
    var j := step.job;
    if w.running[j] > 0 && j in w.queue.jobs {
      var (q, raised) := FailingRun(w.queue, l, w.queue.jobs[j].task, step.retryable, maxRetries);
      FailingAdvances(w.queue, l, w.queue.jobs[j].task, step.retryable, maxRetries);
      SetJobAdvances(w.queue, q, None, j, Doing, if raised && step.rescheduled then Todo else Ended);
    }
  }

  lemma RecoverAdvances(w: Work, l: T.Ledger, step: WorkStep, maxRetries: nat)
    requires step.RecoverDecide?
    ensures Advances(w.queue, NextWork(w, l, step, maxRetries).queue, None)
  {
    RecoveringAdvances(w.queue, l, step.job, maxRetries);
  }

  /** Versions only grow, a task's job is only ever replaced by a fresh one, and only a claim adds an attempt. */
  lemma NextAdvances(w: Work, l: T.Ledger, step: WorkStep, maxRetries: nat)
    requires WorkOk(w, maxRetries)
    ensures Advances(w.queue, NextWork(w, l, step, maxRetries).queue, Started(w, l, step))
  {
    if step.Deliver? {
      DeliverAdvances(w, l, step, maxRetries);
    } else if step.Fail? {
      FailAdvances(w, l, step, maxRetries);
    } else if step.RecoverDecide? {
      RecoverAdvances(w, l, step, maxRetries);
    } else if StoreStep(step) {
      StoreStepsAdvance(w, l, step, maxRetries);
    } else if step.SaveLoaded? {
      if (step.id, step.task) in w.loaded { SaveAdvances(w, step.id, step.task, maxRetries); }
    } else if !step.Load? {
      BookkeepingAdvances(w, l, step, maxRetries);
    }
  }

  lemma SaveAdvances(w: Work, id: TaskId, task: Task, maxRetries: nat)
    requires WorkOk(w, maxRetries) && (id, task) in w.loaded
    ensures Advances(w.queue, SavingLoaded(w.queue, id, task).0, None)
  {
    SaveLoadedKeepsWork(w, id, task, maxRetries);
  }

  /** Once superseded, a job never claims its task again: its deliveries change nothing, forever. */
  lemma {:induction false} SupersededForever(w: Work, steps: seq<(T.Ledger, WorkStep)>, maxRetries: nat, j: JobId)
    requires WorkOk(w, maxRetries) && j in w.queue.jobs && !Current(w.queue, j)
    ensures var q := RunWork(w, steps, maxRetries).queue;
            && !Current(q, j)
            && forall l: T.Ledger, authorized: bool :: Delivering(q, l, j, authorized) == (q, false)
    decreases |steps|
  {
    if steps != [] {
      var w' := NextWork(w, steps[0].0, steps[0].1, maxRetries);
      NextKeepsWork(w, steps[0].0, steps[0].1, maxRetries);
      NextAdvances(w, steps[0].0, steps[0].1, maxRetries);
      assert JobOk(w.queue, j) && j in w'.queue.jobs && w.queue.jobs[j].task in w'.queue.tasks;
      SupersededForever(w', steps[1..], maxRetries, j);
    }
  }

  /** Two deliveries that can both claim a task carry the same job. */
  lemma OneClaimablePerTask(steps: seq<(T.Ledger, WorkStep)>, maxRetries: nat, j: JobId, k: JobId)
    requires var q := RunWork(NO_WORK, steps, maxRetries).queue;
             j in q.jobs && k in q.jobs && q.jobs[j].task == q.jobs[k].task && Current(q, j) && k != j
    ensures var q := RunWork(NO_WORK, steps, maxRetries).queue;
            k < j && q.jobs[k].expectedVersion < q.jobs[j].expectedVersion && !Current(q, k)
  {
    RunKeepsWork(NO_WORK, steps, maxRetries);
    var q := RunWork(NO_WORK, steps, maxRetries).queue;
    assert JobOk(q, j) && JobOk(q, k);
  }

  // ------------------------------------------------------------ bounded retries

  /**
   Over whole runs the attempts of a task are the worker starts in its log, and they
   exceed its enqueues by at most the retry limit and the overlapping recoveries.
   */
  lemma AttemptsBounded(steps: seq<(T.Ledger, WorkStep)>, maxRetries: nat, id: TaskId)
    requires id in RunWork(NO_WORK, steps, maxRetries).queue.tasks
    ensures
      var w := RunWork(NO_WORK, steps, maxRetries);
      var row := w.queue.tasks[id];
      && row.task.attempts == multiset(row.events)[WorkerStarted]
      && row.task.attempts <= Enqueues(row) + maxRetries + w.overlaps[id]
  {
    RunKeepsWork(NO_WORK, steps, maxRetries);
    assert AttemptsOk(RunWork(NO_WORK, steps, maxRetries), id, maxRetries);
  }

  // ---------------------------------------------------------------- quarantine

  /** While an external write of the task has an unknown outcome, no step starts the task again. */
  lemma QuarantineHolds(w: Work, l: T.Ledger, step: WorkStep, maxRetries: nat, id: TaskId)
    requires WorkOk(w, maxRetries) && id in w.queue.tasks && AmbiguousWrite(l, id)
    ensures id in NextWork(w, l, step, maxRetries).queue.tasks
    ensures NextWork(w, l, step, maxRetries).queue.tasks[id].task.attempts == w.queue.tasks[id].task.attempts
  {
    NextAdvances(w, l, step, maxRetries);
  }

  // ------------------------------------------------------- cancelling and pausing

  /** Requests to cancel stand; so do requests to pause, except on the task enqueued. */
  ghost predicate RequestsStand(q: Queue, q': Queue, enqueued: Option<TaskId>) {
    forall id {:trigger id in q'.tasks} | id in q.tasks ::
      && id in q'.tasks
      && (q.tasks[id].task.cancelRequested ==> q'.tasks[id].task.cancelRequested)
      && (q.tasks[id].task.pauseRequested && enqueued != Some(id) ==> q'.tasks[id].task.pauseRequested)
  }

  lemma EnqueueLetsRequestsStand(q: Queue, l: T.Ledger, id: TaskId, resume: bool)
    ensures RequestsStand(q, Enqueueing(q, l, id, resume).0, Some(id))
  {
    EnqueueingExactly(q, l, id, resume);
  }

  lemma ControlLetsRequestsStand(q: Queue, id: TaskId, cancel: bool)
    ensures RequestsStand(q, Controlling(q, id, cancel).0, None)
  {
  }

  lemma StoreLetsRequestsStand(q: Queue, id: TaskId, to: Status)
    ensures RequestsStand(q, Creating(q, id), None) && RequestsStand(q, Transitioning(q, id, to).0, None)
    ensures RequestsStand(q, Parking(q, id), None) && RequestsStand(q, Planning(q, id), None) && RequestsStand(q, Stepping(q, id), None)
  {
  }

  lemma DeliveryLetsRequestsStand(q: Queue, l: T.Ledger, j: JobId, authorized: bool)
    ensures RequestsStand(q, Delivering(q, l, j, authorized).0, None)
  {
  }

  lemma FailureLetsRequestsStand(q: Queue, l: T.Ledger, id: TaskId, retryable: bool, maxRetries: nat)
    ensures RequestsStand(q, FailingRun(q, l, id, retryable, maxRetries).0, None)
  {
  }

  lemma RecoveryLetsRequestsStand(q: Queue, l: T.Ledger, j: JobId, maxRetries: nat)
    ensures RequestsStand(q, Recovering(q, l, j, maxRetries).0, None)
  {
  }

  lemma SetJobKeepsTasks(q: Queue, j: JobId, from: JobStatus, to: JobStatus)
    ensures SetJob(q, j, from, to).tasks == q.tasks
  {
  }

  function EnqueuedBy(step: WorkStep): Option<TaskId> {
    if step.Enqueue? then Some(step.id) else None
  }

  lemma StoreStepsLetStand(w: Work, l: T.Ledger, step: WorkStep, maxRetries: nat)
    requires StoreStep(step)
    ensures RequestsStand(w.queue, NextWork(w, l, step, maxRetries).queue, EnqueuedBy(step))
  {
    match step
    case Enqueue(id, resume) => EnqueueLetsRequestsStand(w.queue, l, id, resume);
    case Control(id, cancel) => ControlLetsRequestsStand(w.queue, id, cancel);
    case Transition(id, to) => StoreLetsRequestsStand(w.queue, id, to);
    case Create(id) => StoreLetsRequestsStand(w.queue, id, Paused);
    case Park(id) => StoreLetsRequestsStand(w.queue, id, Paused);
    case Plan(id) => StoreLetsRequestsStand(w.queue, id, Paused);
    case StartTaskStep(id) => StoreLetsRequestsStand(w.queue, id, Paused);
  }

  lemma DeliverLetsStand(w: Work, l: T.Ledger, step: WorkStep, maxRetries: nat)
    requires step.Deliver?
    ensures RequestsStand(w.queue, NextWork(w, l, step, maxRetries).queue, None)
  {
    DeliveryLetsRequestsStand(w.queue, l, step.job, step.authorized);
    SetJobKeepsTasks(Delivering(w.queue, l, step.job, step.authorized).0, step.job, Doing, Ended);
  }

  lemma FailLetsStand(w: Work, l: T.Ledger, step: WorkStep, maxRetries: nat)
    requires step.Fail?
    ensures RequestsStand(w.queue, NextWork(w, l, step, maxRetries).queue, None)
  {
    if step.job in w.queue.jobs {
      FailureLetsRequestsStand(w.queue, l, w.queue.jobs[step.job].task, step.retryable, maxRetries);
    }
  }

  lemma RecoverLetsStand(w: Work, l: T.Ledger, step: WorkStep, maxRetries: nat)
    requires step.RecoverDecide?
    ensures RequestsStand(w.queue, NextWork(w, l, step, maxRetries).queue, None)
  {
    RecoveryLetsRequestsStand(w.queue, l, step.job, maxRetries);
  }

  lemma FetchKeepsTasks(w: Work, l: T.Ledger, step: WorkStep, maxRetries: nat)
    requires step.Fetch? || step.RecoverRetry?
    ensures NextWork(w, l, step, maxRetries).queue.tasks == w.queue.tasks
  {
  }

  lemma EndKeepsTasks(w: Work, l: T.Ledger, step: WorkStep, maxRetries: nat)
    requires step.Complete? || step.RecoverFinish?
    ensures NextWork(w, l, step, maxRetries).queue.tasks == w.queue.tasks
  {
  }

  lemma CrashKeepsTasks(w: Work, l: T.Ledger, step: WorkStep, maxRetries: nat)
    requires step.CrashFetched? || step.CrashRunning? || step.Load?
    ensures NextWork(w, l, step, maxRetries).queue.tasks == w.queue.tasks
  {
  }

  lemma SaveLetsStand(w: Work, l: T.Ledger, step: WorkStep, maxRetries: nat)
    requires WorkOk(w, maxRetries) && step.SaveLoaded?
    ensures RequestsStand(w.queue, NextWork(w, l, step, maxRetries).queue, None)
  {
    if (step.id, step.task) in w.loaded { SaveLoadedKeepsWork(w, step.id, step.task, maxRetries); }
  }

  lemma NextLetsRequestsStand(w: Work, l: T.Ledger, step: WorkStep, maxRetries: nat)
    requires WorkOk(w, maxRetries)
    ensures RequestsStand(w.queue, NextWork(w, l, step, maxRetries).queue, EnqueuedBy(step))
  {
    if StoreStep(step) {
      StoreStepsLetStand(w, l, step, maxRetries);
    } else if step.Deliver? {
      DeliverLetsStand(w, l, step, maxRetries);
    } else if step.Fail? {
      FailLetsStand(w, l, step, maxRetries);
    } else if step.RecoverDecide? {
      RecoverLetsStand(w, l, step, maxRetries);
    } else if step.SaveLoaded? {
      SaveLetsStand(w, l, step, maxRetries);
    } else if step.Fetch? || step.RecoverRetry? {
      FetchKeepsTasks(w, l, step, maxRetries);
    } else if step.Complete? || step.RecoverFinish? {
      EndKeepsTasks(w, l, step, maxRetries);
    } else {
      CrashKeepsTasks(w, l, step, maxRetries);
    }
  }

  /** No step starts a task while a request to cancel or pause it stands. */
  lemma RequestsStopStarts(w: Work, l: T.Ledger, step: WorkStep, id: TaskId)
    requires id in w.queue.tasks && (w.queue.tasks[id].task.cancelRequested || w.queue.tasks[id].task.pauseRequested)
    ensures Started(w, l, step) != Some(id)
  {
    if step.Deliver? && step.job in w.queue.jobs && w.queue.jobs[step.job].task == id {
      DeliveringExactly(w.queue, l, step.job, id, step.authorized);
    }
  }

  /** From the moment a request to cancel a task is accepted, no step of any continuation starts it on a worker. */
  lemma {:induction false} CancelledNeverStarts(w: Work, steps: seq<(T.Ledger, WorkStep)>, maxRetries: nat, id: TaskId)
    requires WorkOk(w, maxRetries) && id in w.queue.tasks && w.queue.tasks[id].task.cancelRequested
    ensures var q := RunWork(w, steps, maxRetries).queue;
            && id in q.tasks && q.tasks[id].task.cancelRequested
            && q.tasks[id].task.attempts == w.queue.tasks[id].task.attempts
    decreases |steps|
  {
    if steps != [] {
      var l, step := steps[0].0, steps[0].1;
      NextKeepsWork(w, l, step, maxRetries);
      NextAdvances(w, l, step, maxRetries);
      NextLetsRequestsStand(w, l, step, maxRetries);
      RequestsStopStarts(w, l, step, id);
      CancelledNeverStarts(NextWork(w, l, step, maxRetries), steps[1..], maxRetries, id);
    }
  }

  /** Once a request to pause a task is accepted, no step starts it until it is enqueued again. */
  lemma {:induction false} PausedUntilEnqueued(w: Work, steps: seq<(T.Ledger, WorkStep)>, maxRetries: nat, id: TaskId)
    requires WorkOk(w, maxRetries) && id in w.queue.tasks && w.queue.tasks[id].task.pauseRequested
    requires forall i | 0 <= i < |steps| :: EnqueuedBy(steps[i].1) != Some(id)
    ensures var q := RunWork(w, steps, maxRetries).queue;
            && id in q.tasks && q.tasks[id].task.pauseRequested
            && q.tasks[id].task.attempts == w.queue.tasks[id].task.attempts
    decreases |steps|
  {
    if steps != [] {
      var l, step := steps[0].0, steps[0].1;
      NextKeepsWork(w, l, step, maxRetries);
      NextAdvances(w, l, step, maxRetries);
      NextLetsRequestsStand(w, l, step, maxRetries);
      RequestsStopStarts(w, l, step, id);
      PausedUntilEnqueued(NextWork(w, l, step, maxRetries), steps[1..], maxRetries, id);
    }
  }

  /** A waiting job that is fetched and delivered starts its task, if nothing stands against it. */
  lemma WaitingJobStarts(w: Work, l: T.Ledger, j: JobId, id: TaskId, maxRetries: nat)
    requires Carries(w.queue, j, id) && w.queue.jobs[j].status.Todo? && w.queue.tasks[id].task.status.Queued?
    requires !w.queue.tasks[id].task.cancelRequested && !w.queue.tasks[id].task.pauseRequested && !AmbiguousWrite(l, id)
    ensures var w' := NextWork(NextWork(w, l, Fetch(j), maxRetries), l, Deliver(j, true), maxRetries);
            && id in w'.queue.tasks && w'.queue.tasks[id].task.status.Running? && w'.running[j] > 0
            && w'.queue.tasks[id].task.attempts == w.queue.tasks[id].task.attempts + 1
  {
    var fetched := NextWork(w, l, Fetch(j), maxRetries);
    assert fetched.queue == SetJob(w.queue, j, Todo, Doing) && fetched.fetched[j] > 0;
    assert Carries(fetched.queue, j, id) && fetched.queue.tasks == w.queue.tasks;
    DeliveringExactly(fetched.queue, l, j, id, true);
  }

  /**
   A paused task goes on when it is resumed: enqueued, fetched and delivered, it runs as its
   next attempt, whatever its old request to pause.
   */
  lemma ResumedStarts(w: Work, l: T.Ledger, id: TaskId, maxRetries: nat)
    requires Enqueueing(w.queue, l, id, true).1.Ok? && !AmbiguousWrite(l, id)
    ensures var j := w.queue.nextJob;
            var queued := NextWork(w, l, WorkStep.Enqueue(id, true), maxRetries);
            var w' := NextWork(NextWork(queued, l, Fetch(j), maxRetries), l, Deliver(j, true), maxRetries);
            && id in w.queue.tasks && id in w'.queue.tasks && w'.queue.tasks[id].task.status.Running? && w'.running[j] > 0
            && w'.queue.tasks[id].task.attempts == w.queue.tasks[id].task.attempts + 1
  {
    EnqueueingExactly(w.queue, l, id, true);
    var queued := NextWork(w, l, WorkStep.Enqueue(id, true), maxRetries);
    WaitingJobStarts(queued, l, w.queue.nextJob, id, maxRetries);
  }

  /**
   A retryable failure within the limit runs again: rescheduled, fetched and delivered, the
   task starts its next attempt.
   */
  lemma FailedStartsAgain(w: Work, l: T.Ledger, j: JobId, id: TaskId, maxRetries: nat)
    requires w.running[j] > 0 && Carries(w.queue, j, id) && w.queue.jobs[j].status.Doing?
    requires !AmbiguousWrite(l, id) && w.queue.tasks[id].task.attempts <= maxRetries
    requires !w.queue.tasks[id].task.cancelRequested && !w.queue.tasks[id].task.pauseRequested
    ensures var failed := NextWork(w, l, Fail(j, true, true), maxRetries);
            var w' := NextWork(NextWork(failed, l, Fetch(j), maxRetries), l, Deliver(j, true), maxRetries);
            && id in w'.queue.tasks && w'.queue.tasks[id].task.status.Running?
            && w'.queue.tasks[id].task.attempts == w.queue.tasks[id].task.attempts + 1
  {
    FailingExactly(w.queue, l, id, true, maxRetries);
    var failed := NextWork(w, l, Fail(j, true, true), maxRetries);
    assert failed.queue.jobs[j].status.Todo?;
    WaitingJobStarts(failed, l, j, id, maxRetries);
  }
}
