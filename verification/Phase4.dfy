/**
 The service that drives the ledger: `execute`, `guard_call` and `decide` as sequential
 code.  An undisturbed execution performs exactly the steps of one process of the
 protocol, so everything proved about the interleaved protocol holds for this code.
 */
module Phase4 {
  import opened Wrappers
  import T = ToolActions
  import Q = TaskQueue
  import P = Protocol
  import PT = ProtocolTheorems

  datatype Receipt = Replayed(status: T.ExecutionStatus) | Finished(status: T.ExecutionStatus)

  /** The steps of process `pid`; `answer` is what the interrupt returns, if the graph was resumed there. */
  function ExecuteSteps(pid: P.Pid, intent: P.Intent, answer: Option<T.ApprovalId>, connected: bool, success: bool): seq<P.Step> {
    [P.Start(pid, intent), P.Review(pid)] + (if answer.Some? then [P.Resume(pid, answer.value)] else [])
    + [P.Claim(pid), P.CallProvider(pid, connected, success), P.Finish(pid)]
  }

  /** The ledger and the call log after one process has run alone. */
  function Executing(
    policy: T.Policy, l: T.Ledger, calls: seq<P.Call>, intent: P.Intent, answer: Option<T.ApprovalId>, connected: bool, success: bool)
    : (T.Ledger, seq<P.Call>)
  {
    var a := P.Run(policy, P.Actions(l, map[], calls, []), ExecuteSteps(0, intent, answer, connected, success));
    (a.ledger, a.calls)
  }

  function Requested(policy: T.Policy, l: T.Ledger, calls: seq<P.Call>, intent: P.Intent): P.Actions {
    P.StartStep(policy, P.Actions(l, map[], calls, []), 0, intent)
  }

  function Answered(policy: T.Policy, a: P.Actions, answer: Option<T.ApprovalId>): P.Actions {
    var b := P.ReviewStep(a, 0);
    if answer.Some? then P.ResumeStep(policy, b, 0, answer.value) else b
  }

  function Performed(policy: T.Policy, a: P.Actions, connected: bool, success: bool): P.Actions {
    P.FinishStep(P.CallStep(policy, P.ClaimStep(policy, a, 0), 0, connected, success), 0)
  }

  lemma RunOne(policy: T.Policy, a: P.Actions, step: P.Step, rest: seq<P.Step>)
    ensures P.Run(policy, a, [step] + rest) == P.Run(policy, P.Next(policy, a, step), rest)
  {
    assert ([step] + rest)[1..] == rest;
  }

  lemma RunPerforms(policy: T.Policy, a: P.Actions, connected: bool, success: bool)
    ensures P.Run(policy, a, [P.Claim(0), P.CallProvider(0, connected, success), P.Finish(0)]) == Performed(policy, a, connected, success)
  {
    var finish := [P.Finish(0)];
    var call := [P.CallProvider(0, connected, success)] + finish;
    assert [P.Claim(0), P.CallProvider(0, connected, success), P.Finish(0)] == [P.Claim(0)] + call;
    assert finish == finish + [];
    RunOne(policy, a, P.Claim(0), call);
    var b := P.ClaimStep(policy, a, 0);
    RunOne(policy, b, P.CallProvider(0, connected, success), finish);
    RunOne(policy, P.CallStep(policy, b, 0, connected, success), P.Finish(0), []);
  }

  /** The run of one process, phase by phase. */
  lemma RunIsPhases(
    policy: T.Policy, l: T.Ledger, calls: seq<P.Call>, intent: P.Intent, answer: Option<T.ApprovalId>, connected: bool, success: bool)
    ensures var a := Performed(policy, Answered(policy, Requested(policy, l, calls, intent), answer), connected, success);
            Executing(policy, l, calls, intent, answer, connected, success) == (a.ledger, a.calls)
  {
    var start := P.Actions(l, map[], calls, []);
    var last := [P.Claim(0), P.CallProvider(0, connected, success), P.Finish(0)];
    var resumed := if answer.Some? then [P.Resume(0, answer.value)] + last else last;
    assert ExecuteSteps(0, intent, answer, connected, success) == [P.Start(0, intent)] + ([P.Review(0)] + resumed);
    RunOne(policy, start, P.Start(0, intent), [P.Review(0)] + resumed);
    var a := Requested(policy, l, calls, intent);
    RunOne(policy, a, P.Review(0), resumed);
    if answer.Some? {
      RunOne(policy, P.ReviewStep(a, 0), P.Resume(0, answer.value), last);
    }
    RunPerforms(policy, Answered(policy, a, answer), connected, success);
  }

  /** An execution keeps the protocol safe, whatever ran before and is still in flight. */
  lemma ExecutionIsSafe(
    policy: T.Policy, before: seq<P.Step>, pid: P.Pid, intent: P.Intent, answer: Option<T.ApprovalId>, connected: bool, success: bool)
    ensures P.Safe(policy, P.Run(policy, P.Run(policy, P.NO_ACTIONS, before), ExecuteSteps(pid, intent, answer, connected, success)))
  {
    PT.RunKeepsSafe(policy, P.NO_ACTIONS, before);
    PT.RunKeepsSafe(policy, P.Run(policy, P.NO_ACTIONS, before), ExecuteSteps(pid, intent, answer, connected, success));
  }

  /** A running task is parked while the approval of its execution is pending. */
  function Parked(q: Q.Queue, l: T.Ledger, intent: P.Intent, id: T.ExecutionId): Q.Queue {
    if id in l.executions && l.executions[id].approval.Some? && l.executions[id].approval.value in l.approvals
       && l.approvals[l.executions[id].approval.value].status.Pending? && !l.approvals[l.executions[id].approval.value].consumed
       && intent.context.task.Some? && intent.context.task.value in q.tasks
       && q.tasks[intent.context.task.value].task.status.Running?
    then Q.Parking(q, intent.context.task.value) else q
  }

  /** What an execution reports: a fresh outcome exactly if it finished a claim, success only after a call. */
  ghost predicate Reports(r: Result<Receipt>, before: seq<P.Call>, after: seq<P.Call>, success: bool) {
    && before <= after && |after| <= |before| + 1
    && (|after| > |before| ==> r == Ok(Finished(if success then T.Succeeded else T.Failed)))
    && (r.Ok? && r.value.Finished? && |after| == |before| ==> r.value.status.Failed?)
    && (r.Ok? && r.value.Replayed? ==>
          |after| == |before| && (r.value.status.Succeeded? || r.value.status.Rejected? || r.value.status.Cancelled?))
  }

  function ParkedBy(policy: T.Policy, q: Q.Queue, l: T.Ledger, intent: P.Intent): Q.Queue {
    if !policy.accepts(intent.tool, intent.arguments) then q
    else
      var (l', r) := T.Requesting(l, intent.tool, intent.arguments, intent.context, policy.requiresApproval(intent.tool));
      if r.Err? then q else Parked(q, l', intent, r.value)
  }

  /** An execution without an approval, or whose approval was consumed. */
  predicate NeedsNoAnswer(l: T.Ledger, id: T.ExecutionId) {
    && id in l.executions
    && (l.executions[id].approval.Some? ==>
          l.executions[id].approval.value in l.approvals && l.approvals[l.executions[id].approval.value].consumed)
  }

  /** The outcome of an execution that was carried out, or rejected. */
  function Outcome(l: T.Ledger, id: T.ExecutionId): Option<T.ExecutionStatus> {
    if NeedsNoAnswer(l, id) && (l.executions[id].status.Succeeded? || l.executions[id].status.Rejected?)
    then Some(l.executions[id].status) else None
  }

  /** The same for an intent. */
  function Settled(policy: T.Policy, l: T.Ledger, intent: P.Intent): Option<T.ExecutionStatus> {
    var key := T.KeyOf(intent.tool, intent.arguments, intent.context, policy.requiresApproval(intent.tool), l.nextId);
    if policy.accepts(intent.tool, intent.arguments) && key in l.index then Outcome(l, l.index[key]) else None
  }

  /**
   Requesting parks a running task for a new sensitive intent. It parks nothing for an intent
   that the policy does not accept, for an idle task, or for a new intent that needs no approval.
   */
  lemma RequestParks(policy: T.Policy, q: Q.Queue, l: T.Ledger, intent: P.Intent, task: T.TaskId)
    requires intent.context.task == Some(task) && task in q.tasks
    requires T.KeyOf(intent.tool, intent.arguments, intent.context, policy.requiresApproval(intent.tool), l.nextId) !in l.index
    ensures var q' := ParkedBy(policy, q, l, intent);
            if policy.accepts(intent.tool, intent.arguments) && policy.requiresApproval(intent.tool) && intent.context.step.Some?
               && q.tasks[task].task.status.Running?
            then Q.WroteTask(q, q', task, Q.StatusChanged(Q.WaitingUser)) && q'.tasks[task].task.status.WaitingUser?
            else q' == q
  {
  }

  /** Only a running task with a pending approval is parked, and its job, attempts and requests stay. */
  lemma ParksOnlyRunning(policy: T.Policy, q: Q.Queue, l: T.Ledger, intent: P.Intent)
    ensures var q' := ParkedBy(policy, q, l, intent);
            q' == q ||
            (intent.context.task.Some? && policy.accepts(intent.tool, intent.arguments)
             && var id := intent.context.task.value;
                var l' := T.Requesting(l, intent.tool, intent.arguments, intent.context, policy.requiresApproval(intent.tool)).0;
                && Q.WroteTask(q, q', id, Q.StatusChanged(Q.WaitingUser)) && q.tasks[id].task.status.Running?
                && q'.tasks[id].task == q.tasks[id].task.(version := q.tasks[id].task.version + 1, status := Q.WaitingUser)
                && exists a | a in l'.approvals :: l'.approvals[a].status.Pending? && !l'.approvals[a].consumed)
  {
  }

  class Phase4Services {
    const policy: T.Policy
    const actions: T.ToolActionStore
    const tasks: Q.TaskTables
    ghost var calls: seq<P.Call>

    constructor (p: T.Policy, a: T.ToolActionStore, t: Q.TaskTables)
      ensures policy == p && actions == a && tasks == t && calls == []
    {
      policy, actions, tasks := p, a, t;
      calls := [];
    }

    /** Whether the provider may be called with these arguments under this claim. */
    method GuardCall(tool: T.Tool, arguments: T.Arguments, id: T.ExecutionId) returns (ok: bool)
      ensures ok == P.Guard(policy, actions.State(), tool, arguments, id)
    {
      if !policy.accepts(tool, arguments) {
        return false;
      }
      if policy.requiresApproval(tool) {
        if id !in actions.executions {
          return false;
        }
        var execution := actions.executions[id];
        if !execution.status.Running? || execution.key.tool != tool || execution.arguments != arguments {
          return false;
        }
        if execution.approval.None? || execution.approval.value !in actions.approvals {
          return false;
        }
        var approval := actions.approvals[execution.approval.value];
        if !approval.consumed || !(approval.status.Approved? || approval.status.Edited?) {
          return false;
        }
      }
      return true;
    }

    /** Calls the provider once under a granted claim, and records the outcome. */
    method CallOnce(intent: P.Intent, id: T.ExecutionId, arguments: T.Arguments, connected: bool, success: bool, ghost a: P.Actions)
      returns (r: Result<Receipt>)
      requires a.ledger == actions.State() && a.calls == calls
      requires a.processes == map[0 := P.Claimed(intent, id, arguments)]
      requires id in actions.executions && actions.executions[id].status.Running?
      modifies this`calls, actions
      ensures r.Ok? && r.value.Finished? && Reports(r, old(calls), calls, success)
      ensures var b := P.FinishStep(P.CallStep(policy, a, 0, connected, success), 0);
              actions.State() == b.ledger && calls == b.calls
    {
      var guarded := GuardCall(intent.tool, arguments, id);
      var succeeded := false;
      if connected && guarded {
        calls := calls + [P.Call(intent, id, arguments)];
        succeeded := success;
      }
      var finished := actions.Finish(id, succeeded);
      return Ok(Finished(finished.value));
    }

    /** Asks for the claim, after one more look at the policy. */
    method TryClaim(intent: P.Intent, id: T.ExecutionId, arguments: T.Arguments, ghost a: P.Actions)
      returns (r: Result<T.ClaimResult>)
      requires a.ledger == actions.State() && a.calls == calls
      requires a.processes == map[0 := P.Ready(intent, id, arguments)]
      modifies actions
      ensures var b := P.ClaimStep(policy, a, 0);
              && actions.State() == b.ledger && b.calls == calls
              && (if r.Ok? && r.value.Claimed?
                  then b.processes == map[0 := P.Claimed(intent, id, arguments)]
                       && id in actions.executions && actions.executions[id].status.Running?
                  else 0 !in b.processes)
      ensures r.Ok? && r.value.Replayed? ==> r.value.status.Succeeded? || r.value.status.Rejected? || r.value.status.Cancelled?
      ensures policy.accepts(intent.tool, arguments) ==> r == T.Claiming(old(actions.State()), id).1
    {
      if !policy.accepts(intent.tool, arguments) {
        return Err(ValueError);
      }
      r := actions.Claim(id);
    }

    /** Claims the execution and, if the claim is granted, calls the provider. */
    method Perform(intent: P.Intent, id: T.ExecutionId, arguments: T.Arguments, connected: bool, success: bool, ghost a: P.Actions)
      returns (r: Result<Receipt>)
      requires a.ledger == actions.State() && a.calls == calls
      requires a.processes == map[0 := P.Ready(intent, id, arguments)]
      modifies this`calls, actions
      ensures Reports(r, old(calls), calls, success)
      ensures var b := Performed(policy, a, connected, success); actions.State() == b.ledger && calls == b.calls
      ensures var claimed := T.Claiming(old(actions.State()), id).1;
              policy.accepts(intent.tool, arguments) && claimed.Ok? && claimed.value.Replayed? ==> r == Ok(Replayed(claimed.value.status))
    {
      var claimed := TryClaim(intent, id, arguments, a);
      if claimed.Ok? && claimed.value.Claimed? {
        r := CallOnce(intent, id, arguments, connected, success, P.ClaimStep(policy, a, 0));
        return;
      }
      NothingCalled(policy, P.ClaimStep(policy, a, 0), connected, success);
      r := if claimed.Err? then Err(claimed.error) else Ok(Replayed(claimed.value.status));
    }

    /** Parks a running task whose approval is pending. */
    method ParkTask(task: Option<T.TaskId>, pending: bool)
      modifies tasks
      ensures var q := old(tasks.State());
              tasks.State() ==
                if pending && task.Some? && task.value in q.tasks && q.tasks[task.value].task.status.Running?
                then Q.Parking(q, task.value) else q
    {
      if task.Some? && task.value in tasks.tasks && tasks.tasks[task.value].task.status.Running? && pending {
        tasks.WaitForApproval(task.value);
      }
    }

    /** The arguments to execute with, once the approval has been dealt with; an error ends the execution. */
    method Review(intent: P.Intent, id: T.ExecutionId, answer: Option<T.ApprovalId>, ghost a: P.Actions)
      returns (r: Result<T.Arguments>)
      requires a.ledger == actions.State() && a.calls == calls
      requires a.processes == map[0 := P.Requested(intent, id)]
      modifies tasks
      ensures tasks.State() == Parked(old(tasks.State()), actions.State(), intent, id)
      ensures var b := Answered(policy, a, answer);
              && b.ledger == actions.State() && b.calls == calls
              && (r.Ok? ==> b.processes == map[0 := P.Ready(intent, id, r.value)])
              && (r.Err? ==> 0 !in b.processes || b.processes[0].Reviewed?)
      ensures NeedsNoAnswer(actions.State(), id) ==> r == Ok(intent.arguments)
    {
      if id !in actions.executions {
        return Err(RecordNotFound);
      }
      var execution := actions.executions[id];
      if execution.approval.None? {
        return Ok(intent.arguments);
      }
      if execution.approval.value !in actions.approvals {
        return Err(RecordNotFound);
      }
      var approval := actions.approvals[execution.approval.value];
      if approval.consumed {
        return Ok(intent.arguments);
      }
      ParkTask(intent.context.task, approval.status.Pending?);
      if answer.None? {
        return Err(TaskConflict);
      }
      if answer.value != execution.approval.value || approval.status.Pending? {
        return Err(TaskConflict);
      }
      var arguments := approval.Effective();
      if !policy.accepts(intent.tool, arguments) {
        return Err(ValueError);
      }
      return Ok(arguments);
    }

    /** What follows a recorded request. */
    method Proceed(intent: P.Intent, id: T.ExecutionId, answer: Option<T.ApprovalId>, connected: bool, success: bool, ghost a: P.Actions)
      returns (r: Result<Receipt>)
      requires a.ledger == actions.State() && a.calls == calls
      requires a.processes == map[0 := P.Requested(intent, id)]
      modifies this`calls, actions, tasks
      ensures var b := Performed(policy, Answered(policy, a, answer), connected, success); actions.State() == b.ledger && calls == b.calls
      ensures tasks.State() == Parked(old(tasks.State()), a.ledger, intent, id)
      ensures Reports(r, old(calls), calls, success)
      ensures policy.accepts(intent.tool, intent.arguments) && Outcome(a.ledger, id).Some? ==>
                r == Ok(Replayed(Outcome(a.ledger, id).value))
    {
      var arguments := Review(intent, id, answer, a);
      if arguments.Err? {
        NothingPerformed(policy, Answered(policy, a, answer), connected, success);
        return Err(arguments.error);
      }
      r := Perform(intent, id, arguments.value, connected, success, Answered(policy, a, answer));
    }

    /** Requests, waits for the human answer, claims, calls, and records: the steps of one process. */
    method Execute(intent: P.Intent, answer: Option<T.ApprovalId>, connected: bool, success: bool) returns (r: Result<Receipt>)
      modifies this`calls, actions, tasks
      ensures (actions.State(), calls) ==
              Executing(policy, old(actions.State()), old(calls), intent, answer, connected, success)
      ensures tasks.State() == ParkedBy(policy, old(tasks.State()), old(actions.State()), intent)
      ensures Reports(r, old(calls), calls, success)
      ensures Settled(policy, old(actions.State()), intent).Some? ==>
                r == Ok(Replayed(Settled(policy, old(actions.State()), intent).value)) && calls == old(calls)
    {
      RunIsPhases(policy, actions.State(), calls, intent, answer, connected, success);
      ghost var a := Requested(policy, actions.State(), calls, intent);
      if !policy.accepts(intent.tool, intent.arguments) {
        NothingHappens(policy, a, answer, connected, success);
        return Err(ValueError);
      }
      var requested := actions.Request(intent.tool, intent.arguments, intent.context, policy.requiresApproval(intent.tool));
      if requested.Err? {
        NothingHappens(policy, a, answer, connected, success);
        return Err(requested.error);
      }
      r := Proceed(intent, requested.value, answer, connected, success, a);
    }

    /**
     A human decision; the task resumes only once none of its approvals is pending. In worker
     mode that is an enqueue; inline, the run that follows is a process of the protocol.
     */
    method Decide(id: T.ApprovalId, verdict: T.Verdict, worker: bool) returns (r: Result<T.Approval>)
      modifies actions, tasks
      ensures var l := old(actions.State());
              var q := old(tasks.State());
              var waiting := id in l.approvals && l.approvals[id].task in q.tasks
                             && q.tasks[l.approvals[id].task].task.status.WaitingUser?;
              var (l', decided) := T.Deciding(l, policy, id, verdict);
              if !waiting || decided.Err? then r.Err? && actions.State() == l && tasks.State() == q
              else
                && actions.State() == l'
                && (if !worker || Q.AwaitsApproval(l', decided.value.task) then r == decided && tasks.State() == q
                    else
                      var (q', queued) := Q.Enqueueing(q, l', decided.value.task, true);
                      tasks.State() == q' && (r.Ok? <==> queued.Ok?) && (r.Ok? ==> r == decided))
    {
      if id !in actions.approvals || actions.approvals[id].task !in tasks.tasks {
        return Err(RecordNotFound);
      }
      var task := actions.approvals[id].task;
      if !tasks.tasks[task].task.status.WaitingUser? {
        return Err(TaskConflict);
      }
      r := actions.Decide(policy, id, verdict);
      if r.Err? {
        return;
      }
      ghost var l := actions.State();
      if exists a | a in actions.approvals :: actions.approvals[a].task == task && actions.approvals[a].status.Pending? {
        assert Q.AwaitsApproval(l, task);
        return;
      }
      if !worker {
        return;
      }
      assert !Q.AwaitsApproval(l, task);
      var ledger := T.Ledger(actions.executions, actions.approvals, actions.index, actions.nextId);
      var queued := tasks.Enqueue(ledger, task, true);
      if queued.Err? {
        return Err(queued.error);
      }
    }
  }

  lemma NothingHappens(policy: T.Policy, a: P.Actions, answer: Option<T.ApprovalId>, connected: bool, success: bool)
    requires a.processes == map[]
    ensures Performed(policy, Answered(policy, a, answer), connected, success) == a
  {
  }

  lemma NothingCalled(policy: T.Policy, a: P.Actions, connected: bool, success: bool)
    requires 0 !in a.processes
    ensures P.FinishStep(P.CallStep(policy, a, 0, connected, success), 0) == a
  {
  }

  lemma NothingPerformed(policy: T.Policy, a: P.Actions, connected: bool, success: bool)
    requires 0 !in a.processes || a.processes[0].Reviewed?
    ensures Performed(policy, a, connected, success) == a
  {
  }
}
