/**
 The whole protocol: graph processes and human decisions over the action ledger,
 interleaved with the job queue and its workers, which read that ledger.
 */
module DurableSystem {
  import opened Wrappers
  import T = ToolActions
  import Q = TaskQueue
  import P = Protocol
  import PT = ProtocolTheorems
  import W = WorkerRuntime
  import WT = WorkerTheorems

  datatype System = System(actions: P.Actions, work: W.Work)

  const INITIAL := System(P.NO_ACTIONS, W.NO_WORK)

  datatype SystemStep = Act(act: P.Step) | Work(job: W.WorkStep)

  function NextSystem(policy: T.Policy, maxRetries: nat, s: System, step: SystemStep): System {
    match step
    case Act(act) => s.(actions := P.Next(policy, s.actions, act))
    case Work(job) => s.(work := W.NextWork(s.work, s.actions.ledger, job, maxRetries))
  }

  function RunSystem(policy: T.Policy, maxRetries: nat, s: System, steps: seq<SystemStep>): System
    decreases |steps|
  {
    if steps == [] then s else RunSystem(policy, maxRetries, NextSystem(policy, maxRetries, s, steps[0]), steps[1..])
  }

  ghost predicate SystemOk(policy: T.Policy, maxRetries: nat, s: System) {
    P.Safe(policy, s.actions) && W.WorkOk(s.work, maxRetries)
  }

  lemma {:induction false} RunKeepsSystem(policy: T.Policy, maxRetries: nat, s: System, steps: seq<SystemStep>)
    requires SystemOk(policy, maxRetries, s)
    ensures SystemOk(policy, maxRetries, RunSystem(policy, maxRetries, s, steps))
    decreases |steps|
  {
    if steps != [] {
      match steps[0] {
        case Act(act) => P.NextKeepsSafe(policy, s.actions, act);
        case Work(job) => W.NextKeepsWork(s.work, s.actions.ledger, job, maxRetries);
      }
      RunKeepsSystem(policy, maxRetries, NextSystem(policy, maxRetries, s, steps[0]), steps[1..]);
    }
  }

  function Acts(steps: seq<SystemStep>): seq<P.Step> {
    if steps == [] then [] else (if steps[0].Act? then [steps[0].act] else []) + Acts(steps[1..])
  }

  /** Queue and workers never touch the action ledger: the actions of a run are those of its own steps. */
  lemma {:induction false} ActionsOfRun(policy: T.Policy, maxRetries: nat, s: System, steps: seq<SystemStep>)
    ensures RunSystem(policy, maxRetries, s, steps).actions == P.Run(policy, s.actions, Acts(steps))
    decreases |steps|
  {
    if steps != [] {
      ActionsOfRun(policy, maxRetries, NextSystem(policy, maxRetries, s, steps[0]), steps[1..]);
      if steps[0].Act? {
        assert Acts(steps)[1..] == Acts(steps[1..]);
      } else {
        assert Acts(steps) == Acts(steps[1..]);
      }
    }
  }

  /**
   On every interleaving of requests, decisions, claims, provider calls, finishes,
   cancellations, enqueues, deliveries, crashes and recoveries, each durable intent
   causes at most one provider call, and the retries of each task stay bounded.
   */
  lemma OneCallPerIntent(policy: T.Policy, maxRetries: nat, steps: seq<SystemStep>)
    ensures
      var s := RunSystem(policy, maxRetries, INITIAL, steps);
      && (forall i, j | 0 <= i < j < |s.actions.calls| && P.Durable(policy, s.actions.calls[i].intent.tool) ::
            !PT.SameIntent(s.actions.calls[i], s.actions.calls[j]))
      && (forall id | id in s.work.queue.tasks ::
            s.work.queue.tasks[id].task.attempts <= W.Enqueues(s.work.queue.tasks[id]) + maxRetries + s.work.overlaps[id])
  {
    ActionsOfRun(policy, maxRetries, INITIAL, steps);
    PT.AtMostOneCall(policy, Acts(steps));
    RunKeepsSystem(policy, maxRetries, INITIAL, steps);
    var w := RunSystem(policy, maxRetries, INITIAL, steps).work;
    forall id | id in w.queue.tasks ensures w.queue.tasks[id].task.attempts <= W.Enqueues(w.queue.tasks[id]) + maxRetries + w.overlaps[id] {
      assert W.AttemptsOk(w, id, maxRetries);
    }
  }

  /** What a step leaves alone while the outcome of execution `e` of task `id` is unknown. */
  ghost predicate Quarantined(s: System, t: System, e: T.ExecutionId, id: T.TaskId)
    requires e in s.actions.ledger.executions && id in s.work.queue.tasks
  {
    && e in t.actions.ledger.executions && t.actions.ledger.executions[e] == s.actions.ledger.executions[e]
    && s.actions.calls <= t.actions.calls
    && (forall i | |s.actions.calls| <= i < |t.actions.calls| :: t.actions.calls[i].execution != e)
    && id in t.work.queue.tasks && t.work.queue.tasks[id].task.attempts == s.work.queue.tasks[id].task.attempts
  }

  /** An execution of the task that writes to an external provider. */
  predicate ExternalWrite(e: T.Execution, id: T.TaskId) {
    e.task == Some(id) && !e.key.tool.operation.Read? && !e.key.tool.native
  }

  lemma QuarantineNext(policy: T.Policy, maxRetries: nat, s: System, step: SystemStep, e: T.ExecutionId, id: T.TaskId)
    requires SystemOk(policy, maxRetries, s)
    requires PT.Stuck(s.actions, e) && ExternalWrite(s.actions.ledger.executions[e], id)
    requires id in s.work.queue.tasks
    ensures var t := NextSystem(policy, maxRetries, s, step);
            SystemOk(policy, maxRetries, t) && PT.Stuck(t.actions, e) && Quarantined(s, t, e, id)
  {
    match step
    case Act(act) =>
      P.NextKeepsSafe(policy, s.actions, act);
      PT.NextKeepsStuck(policy, s.actions, act, e);
      PT.NextKeepsStuckRow(policy, s.actions, act, e);
      PT.NextCallsOthers(policy, s.actions, act, e);
    case Work(job) =>
      W.NextKeepsWork(s.work, s.actions.ledger, job, maxRetries);
      Q.AmbiguousExactly(s.actions.ledger, id);
      WT.QuarantineHolds(s.work, s.actions.ledger, job, maxRetries, id);
  }

  /**
   Once an external write of a task has an unknown outcome, then on every continuation
   its row never changes, no call is made under it, and no worker starts the task again.
   */
  lemma {:induction false} UnknownOutcomeQuarantinesTask(
      policy: T.Policy, maxRetries: nat, s: System, steps: seq<SystemStep>, e: T.ExecutionId, id: T.TaskId)
    requires SystemOk(policy, maxRetries, s)
    requires PT.Stuck(s.actions, e) && ExternalWrite(s.actions.ledger.executions[e], id)
    requires id in s.work.queue.tasks
    ensures Quarantined(s, RunSystem(policy, maxRetries, s, steps), e, id)
    decreases |steps|
  {
    if steps != [] {
      QuarantineNext(policy, maxRetries, s, steps[0], e, id);
      UnknownOutcomeQuarantinesTask(policy, maxRetries, NextSystem(policy, maxRetries, s, steps[0]), steps[1..], e, id);
    }
  }
}
