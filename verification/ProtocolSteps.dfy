/**
 What each step of the side-effect protocol decides for its process, and what a recorded
 success means: exactly one call of the provider.
 */
module ProtocolSteps {
  import opened Wrappers
  import T = ToolActions
  import opened Protocol
  import PT = ProtocolTheorems

  /** Only the process moved, and the ledger as given; `None` stands for its end. */
  ghost predicate Moved(a: Actions, a': Actions, pid: Pid, process: Option<Process>) {
    && a'.calls == a.calls && a'.decisions == a.decisions
    && a'.processes == if process.Some? then a.processes[pid := process.value] else a.processes - {pid}
  }

  /** A process starts exactly if the policy accepts its arguments and the request is recorded or found. */
  lemma StartExactly(policy: T.Policy, a: Actions, pid: Pid, intent: Intent)
    requires pid !in a.processes
    ensures
      var a' := Next(policy, a, Start(pid, intent));
      var (l, r) := T.Requesting(a.ledger, intent.tool, intent.arguments, intent.context, policy.requiresApproval(intent.tool));
      if policy.accepts(intent.tool, intent.arguments) && r.Ok?
      then Moved(a, a', pid, Some(Requested(intent, r.value))) && a'.ledger == l
      else a' == a
  {
  }

  /**
   A review goes straight to the claim without an approval, or with one that was consumed, so
   that a repeated execution is answered by the claim; otherwise it shows the approval as it is.
   */
  lemma ReviewExactly(policy: T.Policy, a: Actions, pid: Pid)
    requires Safe(policy, a) && pid in a.processes && a.processes[pid].Requested?
    ensures
      var p := a.processes[pid];
      var a' := Next(policy, a, Review(pid));
      && a'.ledger == a.ledger && p.execution in a.ledger.executions
      && match a.ledger.executions[p.execution].approval
         case None => Moved(a, a', pid, Some(Ready(p.intent, p.execution, p.intent.arguments)))
         case Some(id) =>
           && id in a.ledger.approvals
           && Moved(a, a', pid,
                Some(if a.ledger.approvals[id].consumed then Ready(p.intent, p.execution, p.intent.arguments)
                     else Reviewed(p.intent, p.execution, id, a.ledger.approvals[id])))
  {
    assert ProcessOk(a.ledger, a.processes[pid]);
    assert T.ExecutionOk(a.ledger, a.processes[pid].execution);
  }

  /** After the interrupt a process goes on exactly if the answer names the approval it was shown, decided, with acceptable arguments. */
  lemma ResumeExactly(policy: T.Policy, a: Actions, pid: Pid, answer: T.ApprovalId)
    requires pid in a.processes && a.processes[pid].Reviewed?
    ensures
      var p := a.processes[pid];
      var a' := Next(policy, a, Resume(pid, answer));
      var shown := if p.snapshot.edited.Some? && p.snapshot.edited.value != map[] then p.snapshot.edited.value else p.snapshot.arguments;
      && a'.ledger == a.ledger
      && Moved(a, a', pid,
           if answer == p.approval && !p.snapshot.status.Pending? && policy.accepts(p.intent.tool, shown)
           then Some(Ready(p.intent, p.execution, shown)) else None)
  {
  }

  /** The provider is called exactly if it is connected and the guard passes, with the arguments of the claim; only then is there success. */
  lemma CallExactly(policy: T.Policy, a: Actions, pid: Pid, connected: bool, success: bool)
    requires pid in a.processes && a.processes[pid].Claimed?
    ensures
      var p := a.processes[pid];
      var a' := Next(policy, a, CallProvider(pid, connected, success));
      var called := connected && Guard(policy, a.ledger, p.intent.tool, p.arguments, p.execution);
      && a'.ledger == a.ledger && a'.decisions == a.decisions
      && a'.calls == a.calls + (if called then [Call(p.intent, p.execution, p.arguments)] else [])
      && a'.processes == a.processes[pid := Returned(p.intent, p.execution, called && success)]
  {
  }

  /** In any ledger, the guard of a sensitive tool refuses unless every one of its checks passes. */
  lemma GuardExactly(policy: T.Policy, l: T.Ledger, tool: T.Tool, arguments: T.Arguments, id: T.ExecutionId)
    ensures !policy.accepts(tool, arguments) ==> !Guard(policy, l, tool, arguments, id)
    ensures policy.accepts(tool, arguments) && !policy.requiresApproval(tool) ==> Guard(policy, l, tool, arguments, id)
    ensures policy.accepts(tool, arguments) && policy.requiresApproval(tool) ==>
              (Guard(policy, l, tool, arguments, id) <==>
                 exists e, a: T.Approval {:trigger Backs(l, id, e, a)} ::
                   Backs(l, id, e, a) && e.status.Running? && e.key.tool == tool && e.arguments == arguments
                   && a.consumed && (a.status.Approved? || a.status.Edited?))
  {
    if id in l.executions && l.executions[id].approval.Some? && l.executions[id].approval.value in l.approvals {
      assert Backs(l, id, l.executions[id], l.approvals[l.executions[id].approval.value]);
    }
  }

  /** The execution row, and the approval it names. */
  ghost predicate Backs(l: T.Ledger, id: T.ExecutionId, e: T.Execution, a: T.Approval) {
    id in l.executions && e == l.executions[id] && e.approval.Some? && e.approval.value in l.approvals && a == l.approvals[e.approval.value]
  }

  // -------------------------------------------------------------- what success means

  ghost predicate Logged(calls: seq<Call>, e: T.ExecutionId) {
    exists i {:trigger calls[i]} | 0 <= i < |calls| :: calls[i].execution == e
  }

  /** Whoever reports success, or is recorded as succeeded, has called the provider. */
  ghost predicate SuccessLogged(a: Actions) {
    && (forall p {:trigger a.processes[p]} | p in a.processes && a.processes[p].Returned? && a.processes[p].success ::
          Logged(a.calls, a.processes[p].execution))
    && (forall e {:trigger a.ledger.executions[e]} | e in a.ledger.executions && a.ledger.executions[e].status.Succeeded? ::
          Logged(a.calls, e))
  }

  /** What became succeeded, in a ledger or among the processes, was called. */
  ghost predicate NewSuccessCalled(a: Actions, a': Actions) {
    && a.calls <= a'.calls
    && (forall p {:trigger a'.processes[p]} | p in a'.processes && a'.processes[p].Returned? && a'.processes[p].success ::
          (p in a.processes && a'.processes[p] == a.processes[p]) || Logged(a'.calls, a'.processes[p].execution))
    && (forall e {:trigger a'.ledger.executions[e]} | e in a'.ledger.executions && a'.ledger.executions[e].status.Succeeded? ::
          (e in a.ledger.executions && a.ledger.executions[e].status.Succeeded?) || Logged(a.calls, e))
  }

  lemma LoggedLonger(calls: seq<Call>, calls': seq<Call>, e: T.ExecutionId)
    requires Logged(calls, e) && calls <= calls'
    ensures Logged(calls', e)
  {
    var i :| 0 <= i < |calls| && calls[i].execution == e;
    assert calls'[i].execution == e;
  }

  lemma SuccessStaysLogged(a: Actions, a': Actions)
    requires SuccessLogged(a) && NewSuccessCalled(a, a')
    ensures SuccessLogged(a')
  {
    forall p | p in a'.processes && a'.processes[p].Returned? && a'.processes[p].success ensures Logged(a'.calls, a'.processes[p].execution) {
      if !Logged(a'.calls, a'.processes[p].execution) { LoggedLonger(a.calls, a'.calls, a.processes[p].execution); }
    }
    forall e | e in a'.ledger.executions && a'.ledger.executions[e].status.Succeeded? ensures Logged(a'.calls, e) {
      assert e in a.ledger.executions && a.ledger.executions[e].status.Succeeded? ==> Logged(a.calls, e);
      LoggedLonger(a.calls, a'.calls, e);
    }
  }

  lemma CallLogs(policy: T.Policy, a: Actions, pid: Pid, connected: bool, success: bool)
    ensures NewSuccessCalled(a, Next(policy, a, CallProvider(pid, connected, success)))
  {
    var a' := Next(policy, a, CallProvider(pid, connected, success));
    if a'.calls != a.calls { assert a'.calls[|a.calls|].execution == a.processes[pid].execution; }
  }

  lemma FinishLogs(policy: T.Policy, a: Actions, pid: Pid)
    requires SuccessLogged(a)
    ensures NewSuccessCalled(a, Next(policy, a, Finish(pid)))
  {
    if pid in a.processes && a.processes[pid].Returned? {
      assert a.processes[pid].success ==> Logged(a.calls, a.processes[pid].execution);
    }
  }

  lemma RequestsAndClaimsLog(policy: T.Policy, a: Actions, step: Step)
    requires step.Start? || step.Claim?
    ensures NewSuccessCalled(a, Next(policy, a, step))
  {
  }

  lemma ReviewsLog(policy: T.Policy, a: Actions, step: Step)
    requires step.Review? || step.Resume? || step.Crash?
    ensures NewSuccessCalled(a, Next(policy, a, step))
  {
  }

  lemma DecisionsLog(policy: T.Policy, a: Actions, step: Step)
    requires step.Decide? || step.CancelPending?
    ensures NewSuccessCalled(a, Next(policy, a, step))
  {
  }

  lemma NextLogs(policy: T.Policy, a: Actions, step: Step)
    requires SuccessLogged(a)
    ensures SuccessLogged(Next(policy, a, step))
  {
    match step {
      case CallProvider(pid, connected, success) => CallLogs(policy, a, pid, connected, success);
      case Finish(pid) => FinishLogs(policy, a, pid);
      case Start(_, _) => RequestsAndClaimsLog(policy, a, step);
      case Claim(_) => RequestsAndClaimsLog(policy, a, step);
      case Review(_) => ReviewsLog(policy, a, step);
      case Resume(_, _) => ReviewsLog(policy, a, step);
      case Crash(_) => ReviewsLog(policy, a, step);
      case Decide(_, _) => DecisionsLog(policy, a, step);
      case CancelPending(_) => DecisionsLog(policy, a, step);
    }
    SuccessStaysLogged(a, Next(policy, a, step));
  }

  lemma {:induction false} RunLogs(policy: T.Policy, a: Actions, steps: seq<Step>)
    requires SuccessLogged(a)
    ensures SuccessLogged(Run(policy, a, steps))
    decreases |steps|
  {
    if steps != [] {
      NextLogs(policy, a, steps[0]);
      RunLogs(policy, Next(policy, a, steps[0]), steps[1..]);
    }
  }

  ghost predicate LoggedOnce(calls: seq<Call>, e: T.ExecutionId) {
    exists i {:trigger calls[i]} | 0 <= i < |calls| ::
      calls[i].execution == e && forall j | 0 <= j < |calls| && j != i :: calls[j].execution != e
  }

  lemma OnlyOnce(calls: seq<Call>, e: T.ExecutionId)
    requires Logged(calls, e) && forall i, j | 0 <= i < j < |calls| :: calls[i].execution != calls[j].execution
    ensures LoggedOnce(calls, e)
  {
    var i :| 0 <= i < |calls| && calls[i].execution == e;
    forall j | 0 <= j < |calls| && j != i ensures calls[j].execution != e {
      var c, d := calls[i], calls[j];
    }
  }

  /** On every run, an execution recorded as succeeded has called the provider exactly once. */
  lemma SucceededWasCalledOnce(policy: T.Policy, steps: seq<Step>, e: T.ExecutionId)
    ensures
      var a := Run(policy, NO_ACTIONS, steps);
      e in a.ledger.executions && a.ledger.executions[e].status.Succeeded? ==> LoggedOnce(a.calls, e)
  {
    var a := Run(policy, NO_ACTIONS, steps);
    RunLogs(policy, NO_ACTIONS, steps);
    PT.RunKeepsSafe(policy, NO_ACTIONS, steps);
    if e in a.ledger.executions && a.ledger.executions[e].status.Succeeded? {
      OnlyOnce(a.calls, e);
    }
  }
}
