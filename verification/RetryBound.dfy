/**
 The retry bound is exact: for every retry limit, every number of enqueues and every number
 of overlapping recoveries there is a run that needs all the attempts the bound allows.

 The run has one task.  Its job crashes after each claim until the attempts reach the
 limit; then recoveries are decided while a delivery is on its way, and each of them still
 starts the task once; in the end the task is paused and enqueued again.
 */
module RetryBound {
  import opened Wrappers
  import T = ToolActions
  import opened TaskQueue
  import opened WorkerRuntime
  import opened WorkerTheorems

  type Run = seq<(T.Ledger, WorkStep)>

  /**
   What counts of task 0 and of the one job that can still claim it: the enqueues, claims and
   overlapping recoveries, and the job's deliveries, running workers and decided retries.
   */
  datatype Stage = Stage(
    enqueues: nat, attempts: nat, overlaps: nat, status: JobStatus, fetched: nat, running: nat, decided: nat)

  /** Job `j` is current for task 0, which waits or runs undisturbed, and no other job waits. */
  ghost predicate Claimable(q: Queue, j: JobId) {
    && 0 in q.tasks && j in q.jobs && q.jobs[j].task == 0 && Current(q, j) && q.nextJob == j + 1
    && (q.tasks[0].task.status.Queued? || q.tasks[0].task.status.Running?)
    && !q.tasks[0].task.pauseRequested && !q.tasks[0].task.cancelRequested
    && forall k {:trigger q.jobs[k]} | k in q.jobs && k != j :: !q.jobs[k].status.Todo?
  }

  ghost predicate At(w: Work, j: JobId, p: Stage) {
    && Claimable(w.queue, j)
    && p == Stage(Enqueues(w.queue.tasks[0]), w.queue.tasks[0].task.attempts, w.overlaps[0],
                  w.queue.jobs[j].status, w.fetched[j], w.running[j], w.decided[j])
  }

  // --------------------------------------------------------------------- turns

  datatype Turn = Fetched | Delivered | Crashed | Decided | Retried | Requeued

  /** The steps of one turn. */
  function Steps(turn: Turn, j: JobId): seq<WorkStep> {
    match turn
    case Fetched => [Fetch(j)]
    case Delivered => [Deliver(j, true)]
    case Crashed => [CrashRunning(j)]
    case Decided => [RecoverDecide(j)]
    case Retried => [RecoverRetry(j)]
    case Requeued => [WorkStep.Transition(0, Paused), WorkStep.Enqueue(0, true)]
  }

  predicate Open(p: Stage, turn: Turn, limit: nat) {
    match turn
    case Fetched => p.status.Todo?
    case Delivered => p.status.Doing? && p.fetched > 0
    case Crashed => p.running > 0
    case Decided => p.status.Doing? && p.attempts <= limit
    case Retried => p.status.Doing? && p.decided > 0
    case Requeued => p.status.Doing?
  }

  /** A recovery overlaps exactly if the job is still on its way, running or being recovered. */
  function After(p: Stage, turn: Turn, limit: nat): Stage
    requires Open(p, turn, limit)
  {
    match turn
    case Fetched => p.(status := Doing, fetched := p.fetched + 1)
    case Delivered => p.(attempts := p.attempts + 1, fetched := p.fetched - 1, running := p.running + 1)
    case Crashed => p.(running := p.running - 1)
    case Decided =>
      p.(overlaps := p.overlaps + (if p.fetched + p.running + p.decided > 0 then 1 else 0), decided := p.decided + 1)
    case Retried => p.(status := Todo, decided := p.decided - 1)
    case Requeued => p.(enqueues := p.enqueues + 1, status := Todo, fetched := 0, running := 0, decided := 0)
  }

  // ------------------------------------------------------ turns are steps of the system

  lemma FetchTurn(w: Work, j: JobId, p: Stage, limit: nat)
    requires At(w, j, p) && Open(p, Fetched, limit)
    ensures At(NextWork(w, T.EMPTY, Fetch(j), limit), j, After(p, Fetched, limit))
  {
    var w' := NextWork(w, T.EMPTY, Fetch(j), limit);
    assert w'.queue.tasks == w.queue.tasks && w'.queue.jobs == w.queue.jobs[j := w.queue.jobs[j].(status := Doing)];
  }

  lemma DeliverTurn(w: Work, j: JobId, p: Stage, limit: nat)
    requires At(w, j, p) && Open(p, Delivered, limit)
    ensures At(NextWork(w, T.EMPTY, Deliver(j, true), limit), j, After(p, Delivered, limit))
  {
    var w' := NextWork(w, T.EMPTY, Deliver(j, true), limit);
    var task := w.queue.tasks[0].task;
    assert Delivering(w.queue, T.EMPTY, j, true)
        == (Write(w.queue, 0, task.(status := Running, attempts := task.attempts + 1), WorkerStarted), true);
    assert w'.queue.jobs == w.queue.jobs;
    assert w'.queue.tasks[0].events == w.queue.tasks[0].events + [WorkerStarted];
  }

  lemma CrashTurn(w: Work, j: JobId, p: Stage, limit: nat)
    requires At(w, j, p) && Open(p, Crashed, limit)
    ensures At(NextWork(w, T.EMPTY, CrashRunning(j), limit), j, After(p, Crashed, limit))
  {
    assert NextWork(w, T.EMPTY, CrashRunning(j), limit) == w.(running := w.running - multiset{j});
  }

  lemma DecideTurn(w: Work, j: JobId, p: Stage, limit: nat)
    requires At(w, j, p) && Open(p, Decided, limit)
    ensures At(NextWork(w, T.EMPTY, RecoverDecide(j), limit), j, After(p, Decided, limit))
  {
    assert RecoveryOf(w.queue, T.EMPTY, j, limit) == Retry;
    var w' := NextWork(w, T.EMPTY, RecoverDecide(j), limit);
    assert w'.queue == w.queue && w'.decided == w.decided + multiset{j};
    assert Tokens(w, j) + w.running[j] == p.fetched + p.running + p.decided;
  }

  lemma RetryTurn(w: Work, j: JobId, p: Stage, limit: nat)
    requires At(w, j, p) && Open(p, Retried, limit)
    ensures At(NextWork(w, T.EMPTY, RecoverRetry(j), limit), j, After(p, Retried, limit))
  {
    var w' := NextWork(w, T.EMPTY, RecoverRetry(j), limit);
    assert w'.queue.tasks == w.queue.tasks && w'.queue.jobs == w.queue.jobs[j := w.queue.jobs[j].(status := Todo)];
  }

  lemma NextJobUnknown(w: Work, limit: nat)
    requires WorkOk(w, limit)
    ensures var j := w.queue.nextJob; w.fetched[j] == 0 && w.running[j] == 0 && w.decided[j] == 0
  {
    NextJobIsFresh(w.queue);
  }

  /** Pausing the task and enqueueing it again installs a new job. */
  lemma RequeueTurn(w: Work, j: JobId, p: Stage, limit: nat)
    requires At(w, j, p) && Open(p, Requeued, limit) && WorkOk(w, limit)
    ensures var paused := NextWork(w, T.EMPTY, WorkStep.Transition(0, Paused), limit);
            At(NextWork(paused, T.EMPTY, WorkStep.Enqueue(0, true), limit), j + 1, After(p, Requeued, limit))
  {
    var q, events := w.queue, w.queue.tasks[0].events;
    var w1 := NextWork(w, T.EMPTY, WorkStep.Transition(0, Paused), limit);
    assert w1 == w.(queue := Write(q, 0, q.tasks[0].task.(status := Paused), StatusChanged(Paused)));
    var w2 := NextWork(w1, T.EMPTY, WorkStep.Enqueue(0, true), limit);
    assert !LockHeld(w1.queue, 0) && !AwaitsApproval(T.EMPTY, 0);
    assert w1.queue.tasks[0].events == events + [StatusChanged(Paused)];
    assert w2.queue.tasks[0].events == events + [StatusChanged(Paused)] + [TaskEnqueued];
    NextJobUnknown(w, limit);
  }

  // ----------------------------------------------------------------------- runs

  function RunOf(steps: seq<WorkStep>): Run {
    if steps == [] then [] else [(T.EMPTY, steps[0])] + RunOf(steps[1..])
  }

  lemma RunOfOne(w: Work, step: WorkStep, limit: nat)
    ensures RunWork(w, RunOf([step]), limit) == NextWork(w, T.EMPTY, step, limit)
  {
    assert [step][1..] == [] && RunOf([step])[1..] == [];
  }

  lemma RunOfTwo(w: Work, a: WorkStep, b: WorkStep, limit: nat)
    ensures RunWork(w, RunOf([a, b]), limit) == NextWork(NextWork(w, T.EMPTY, a, limit), T.EMPTY, b, limit)
  {
    assert [a, b][1..] == [b] && RunOf([a, b])[1..] == RunOf([b]);
    RunOfOne(NextWork(w, T.EMPTY, a, limit), b, limit);
  }

  lemma {:induction false} RunAppend(w: Work, xs: Run, ys: Run, limit: nat)
    ensures RunWork(w, xs + ys, limit) == RunWork(RunWork(w, xs, limit), ys, limit)
    decreases |xs|
  {
    if xs == [] {
      assert xs + ys == ys;
    } else {
      assert (xs + ys)[1..] == xs[1..] + ys;
      RunAppend(NextWork(w, xs[0].0, xs[0].1, limit), xs[1..], ys, limit);
    }
  }

  /** The job that can claim after a turn. */
  function JobAfter(turn: Turn, j: JobId): JobId {
    if turn.Requeued? then j + 1 else j
  }

  lemma TurnRuns(w: Work, j: JobId, p: Stage, turn: Turn, limit: nat)
    requires At(w, j, p) && Open(p, turn, limit) && WorkOk(w, limit)
    ensures At(RunWork(w, RunOf(Steps(turn, j)), limit), JobAfter(turn, j), After(p, turn, limit))
  {
    match turn
    case Fetched => FetchTurn(w, j, p, limit); RunOfOne(w, Fetch(j), limit);
    case Delivered => DeliverTurn(w, j, p, limit); RunOfOne(w, Deliver(j, true), limit);
    case Crashed => CrashTurn(w, j, p, limit); RunOfOne(w, CrashRunning(j), limit);
    case Decided => DecideTurn(w, j, p, limit); RunOfOne(w, RecoverDecide(j), limit);
    case Retried => RetryTurn(w, j, p, limit); RunOfOne(w, RecoverRetry(j), limit);
    case Requeued => RequeueTurn(w, j, p, limit); RunOfTwo(w, WorkStep.Transition(0, Paused), WorkStep.Enqueue(0, true), limit);
  }

  /** From stage `p` the turns, each open in its place, lead to stage `p'`. */
  predicate Leads(p: Stage, turns: seq<Turn>, p': Stage, limit: nat)
    decreases |turns|
  {
    if turns == [] then p == p'
    else Open(p, turns[0], limit) && Leads(After(p, turns[0], limit), turns[1..], p', limit)
  }

  lemma {:induction false} TurnsRun(w: Work, j: JobId, p: Stage, turns: seq<Turn>, p': Stage, limit: nat) returns (xs: Run, k: JobId)
    requires At(w, j, p) && Leads(p, turns, p', limit) && WorkOk(w, limit)
    ensures At(RunWork(w, xs, limit), k, p')
    decreases |turns|
  {
    if turns == [] {
      xs, k := [], j;
    } else {
      var first := RunOf(Steps(turns[0], j));
      TurnRuns(w, j, p, turns[0], limit);
      RunKeepsWork(w, first, limit);
      var rest;
      rest, k := TurnsRun(RunWork(w, first, limit), JobAfter(turns[0], j), After(p, turns[0], limit), turns[1..], p', limit);
      RunAppend(w, first, rest, limit);
      xs := first + rest;
    }
  }

  const ENQUEUED := Stage(1, 0, 0, Todo, 0, 0, 0)

  lemma Beginning(limit: nat)
    ensures At(RunWork(NO_WORK, RunOf([WorkStep.Create(0), WorkStep.Enqueue(0, false)]), limit), 0, ENQUEUED)
  {
    var w1 := NextWork(NO_WORK, T.EMPTY, WorkStep.Create(0), limit);
    var w2 := NextWork(w1, T.EMPTY, WorkStep.Enqueue(0, false), limit);
    assert w2.queue.tasks[0].events == [TaskCreated, TaskEnqueued];
    RunOfTwo(NO_WORK, WorkStep.Create(0), WorkStep.Enqueue(0, false), limit);
  }

  // ------------------------------------------------------------------ composing turns

  lemma {:induction false} LeadsOn(p: Stage, xs: seq<Turn>, p1: Stage, ys: seq<Turn>, p2: Stage, limit: nat)
    requires Leads(p, xs, p1, limit) && Leads(p1, ys, p2, limit)
    ensures Leads(p, xs + ys, p2, limit)
    decreases |xs|
  {
    if xs == [] {
      assert xs + ys == ys;
    } else {
      assert (xs + ys)[1..] == xs[1..] + ys;
      LeadsOn(After(p, xs[0], limit), xs[1..], p1, ys, p2, limit);
    }
  }

  lemma Single(p: Stage, turn: Turn, limit: nat)
    requires Open(p, turn, limit)
    ensures Leads(p, [turn], After(p, turn, limit), limit)
  {
    assert [turn][1..] == [];
  }

  lemma Double(p: Stage, a: Turn, b: Turn, limit: nat)
    requires Open(p, a, limit) && Open(After(p, a, limit), b, limit)
    ensures Leads(p, [a, b], After(After(p, a, limit), b, limit), limit)
  {
    assert [a, b][1..] == [b];
    Single(After(p, a, limit), b, limit);
  }

  /** A claim whose worker crashes and whose job is recovered costs an attempt and no overlap. */
  lemma CrashRound(a: nat, limit: nat) returns (xs: seq<Turn>)
    requires a < limit
    ensures Leads(ENQUEUED.(attempts := a), xs, ENQUEUED.(attempts := a + 1), limit)
  {
    var p0 := ENQUEUED.(attempts := a);
    var p2 := Stage(1, a + 1, 0, Doing, 0, 1, 0);
    var p3 := Stage(1, a + 1, 0, Doing, 0, 0, 0);
    Double(p0, Fetched, Delivered, limit);
    Single(p2, Crashed, limit);
    Double(p3, Decided, Retried, limit);
    LeadsOn(p2, [Crashed], p3, [Decided, Retried], ENQUEUED.(attempts := a + 1), limit);
    LeadsOn(p0, [Fetched, Delivered], p2, [Crashed] + [Decided, Retried], ENQUEUED.(attempts := a + 1), limit);
    xs := [Fetched, Delivered] + ([Crashed] + [Decided, Retried]);
  }

  lemma {:induction false} Climb(a: nat, limit: nat) returns (xs: seq<Turn>)
    requires a <= limit
    ensures Leads(ENQUEUED.(attempts := a), xs, ENQUEUED.(attempts := limit), limit)
    decreases limit - a
  {
    xs := [];
    if a < limit {
      var round := CrashRound(a, limit);
      xs := Climb(a + 1, limit);
      LeadsOn(ENQUEUED.(attempts := a), round, ENQUEUED.(attempts := a + 1), xs, ENQUEUED.(attempts := limit), limit);
      xs := round + xs;
    }
  }

  /** Recoveries decided while the same delivery is on its way. */
  lemma {:induction false} Overlapping(n: nat, more: nat, limit: nat) returns (xs: seq<Turn>)
    ensures Leads(Stage(1, limit, n, Doing, 1, 0, n), xs, Stage(1, limit, n + more, Doing, 1, 0, n + more), limit)
    decreases more
  {
    xs := [];
    if more > 0 {
      var p := Stage(1, limit, n, Doing, 1, 0, n);
      Single(p, Decided, limit);
      xs := Overlapping(n + 1, more - 1, limit);
      LeadsOn(p, [Decided], Stage(1, limit, n + 1, Doing, 1, 0, n + 1), xs, Stage(1, limit, n + more, Doing, 1, 0, n + more), limit);
      xs := [Decided] + xs;
    }
  }

  /** Each pending recovery starts the task once more, whatever the limit. */
  lemma {:induction false} Draining(a: nat, n: nat, running: nat, decided: nat, limit: nat) returns (xs: seq<Turn>)
    ensures Leads(Stage(1, a, n, Doing, 0, running, decided), xs, Stage(1, a + decided, n, Doing, 0, running + decided, 0), limit)
    decreases decided
  {
    xs := [];
    if decided > 0 {
      var p := Stage(1, a, n, Doing, 0, running, decided);
      var p1 := Stage(1, a, n, Todo, 0, running, decided - 1);
      var p3 := Stage(1, a + 1, n, Doing, 0, running + 1, decided - 1);
      var last := Stage(1, a + decided, n, Doing, 0, running + decided, 0);
      Single(p, Retried, limit);
      Double(p1, Fetched, Delivered, limit);
      xs := Draining(a + 1, n, running + 1, decided - 1, limit);
      LeadsOn(p1, [Fetched, Delivered], p3, xs, last, limit);
      LeadsOn(p, [Retried], p1, [Fetched, Delivered] + xs, last, limit);
      xs := [Retried] + ([Fetched, Delivered] + xs);
    }
  }

  /** Each further enqueue buys one more attempt. */
  lemma {:induction false} Resuming(p: Stage, more: nat, limit: nat) returns (xs: seq<Turn>, last: Stage)
    requires p.status.Doing?
    ensures Leads(p, xs, last, limit)
    ensures last.enqueues == p.enqueues + more && last.attempts == p.attempts + more && last.overlaps == p.overlaps
    decreases more
  {
    xs, last := [], p;
    if more > 0 {
      var p1 := p.(enqueues := p.enqueues + 1, status := Todo, fetched := 0, running := 0, decided := 0);
      var p3 := p1.(attempts := p.attempts + 1, status := Doing, running := 1);
      Single(p, Requeued, limit);
      Double(p1, Fetched, Delivered, limit);
      xs, last := Resuming(p3, more - 1, limit);
      LeadsOn(p1, [Fetched, Delivered], p3, xs, last, limit);
      LeadsOn(p, [Requeued], p1, [Fetched, Delivered] + xs, last, limit);
      xs := [Requeued] + ([Fetched, Delivered] + xs);
    }
  }

  /** The last claim within the limit, and one for each recovery that overlaps with it. */
  lemma LastClaims(n: nat, limit: nat) returns (xs: seq<Turn>)
    ensures Leads(Stage(1, limit, n, Doing, 1, 0, n), xs, Stage(1, 1 + limit + n, n, Doing, 0, 1 + n, 0), limit)
  {
    var p := Stage(1, limit, n, Doing, 1, 0, n);
    Single(p, Delivered, limit);
    xs := Draining(limit + 1, n, 1, n, limit);
    LeadsOn(p, [Delivered], Stage(1, limit + 1, n, Doing, 0, 1, n), xs, Stage(1, 1 + limit + n, n, Doing, 0, 1 + n, 0), limit);
    xs := [Delivered] + xs;
  }

  /** The claims of one enqueue: the limit, one more, and one for each overlap. */
  lemma OneEnqueue(limit: nat, n: nat) returns (xs: seq<Turn>)
    ensures Leads(ENQUEUED, xs, Stage(1, 1 + limit + n, n, Doing, 0, 1 + n, 0), limit)
  {
    var top := ENQUEUED.(attempts := limit);
    var p1, p2, last := Stage(1, limit, 0, Doing, 1, 0, 0), Stage(1, limit, n, Doing, 1, 0, n), Stage(1, 1 + limit + n, n, Doing, 0, 1 + n, 0);
    var climb := Climb(0, limit);
    var overlap := Overlapping(0, n, limit);
    var claims := LastClaims(n, limit);
    Single(top, Fetched, limit);
    LeadsOn(p1, overlap, p2, claims, last, limit);
    LeadsOn(top, [Fetched], p1, overlap + claims, last, limit);
    LeadsOn(ENQUEUED, climb, top, [Fetched] + (overlap + claims), last, limit);
    xs := climb + ([Fetched] + (overlap + claims));
  }

  // ------------------------------------------------------------------ main results

  /** Task `id` was enqueued `enqueues` times and retried while already on its way `overlaps` times. */
  ghost predicate Counts(w: Work, id: TaskId, enqueues: nat, overlaps: nat) {
    id in w.queue.tasks && Enqueues(w.queue.tasks[id]) == enqueues && w.overlaps[id] == overlaps
  }

  /** Every term of the bound is needed in full: some run makes all the attempts that it allows. */
  lemma BoundIsReached(limit: nat, enqueues: nat, overlaps: nat) returns (xs: Run)
    requires enqueues > 0
    ensures var w := RunWork(NO_WORK, xs, limit);
            Counts(w, 0, enqueues, overlaps) && w.queue.tasks[0].task.attempts == enqueues + limit + overlaps
  {
    var begin := RunOf([WorkStep.Create(0), WorkStep.Enqueue(0, false)]);
    Beginning(limit);
    EmptyOk(limit);
    RunKeepsWork(NO_WORK, begin, limit);
    var one := OneEnqueue(limit, overlaps);
    var p := Stage(1, 1 + limit + overlaps, overlaps, Doing, 0, 1 + overlaps, 0);
    var more, last := Resuming(p, enqueues - 1, limit);
    LeadsOn(ENQUEUED, one, p, more, last, limit);
    var rest, k := TurnsRun(RunWork(NO_WORK, begin, limit), 0, ENQUEUED, one + more, last, limit);
    RunAppend(NO_WORK, begin, rest, limit);
    xs := begin + rest;
  }

  lemma EmptyOk(limit: nat)
    ensures WorkOk(NO_WORK, limit)
  {
  }

  /** The task keeps within `enqueues + retries` attempts in this run. */
  ghost predicate Within(xs: Run, limit: nat, id: TaskId, enqueues: nat, overlaps: nat, retries: int) {
    var w := RunWork(NO_WORK, xs, limit);
    Counts(w, id, enqueues, overlaps) ==> w.queue.tasks[id].task.attempts <= enqueues + retries
  }

  /**
   The exact retry bound: for every limit, number of enqueues and number of overlapping
   recoveries, the retries that every such run keeps within are those from the limit plus
   the overlaps on.
   */
  lemma RetriesExactly(limit: nat, enqueues: nat, overlaps: nat, retries: int)
    requires enqueues > 0
    ensures (forall xs: Run, id: TaskId :: Within(xs, limit, id, enqueues, overlaps, retries)) <==> limit + overlaps <= retries
  {
    forall xs: Run, id: TaskId | limit + overlaps <= retries ensures Within(xs, limit, id, enqueues, overlaps, retries) {
      if id in RunWork(NO_WORK, xs, limit).queue.tasks { AttemptsBounded(xs, limit, id); }
    }
    if limit + overlaps > retries {
      var xs := BoundIsReached(limit, enqueues, overlaps);
      assert !Within(xs, limit, 0, enqueues, overlaps, retries);
    }
  }

  /** Retries stay within the configured limit exactly when no recovery overlaps. */
  lemma LimitHoldsWithoutOverlaps(limit: nat, enqueues: nat, overlaps: nat)
    requires enqueues > 0
    ensures (forall xs: Run, id: TaskId :: Within(xs, limit, id, enqueues, overlaps, limit)) <==> overlaps == 0
  {
    RetriesExactly(limit, enqueues, overlaps, limit);
  }

  /** Under any limit, a single recovery that overlaps buys an attempt beyond it. */
  lemma OverlapBuysAnAttempt(limit: nat)
    ensures exists xs: Run ::
      var w := RunWork(NO_WORK, xs, limit);
      Counts(w, 0, 1, 1) && w.queue.tasks[0].task.attempts == 1 + limit + 1
  {
    var xs := BoundIsReached(limit, 1, 1);
  }
}
