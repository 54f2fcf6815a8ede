/**
 The durable side-effect protocol: graph processes, human decisions and cancellation,
 interleaved one transaction at a time.

 `calls` and `decisions` are logs kept for the proofs.  A process may stop at any
 moment (`Crash`): an exception, a graph interrupt and a killed worker all look
 the same.  Checks of the source that only remove runs are dropped where the
 theorems do not need them: whether the task was seen RUNNING before it is
 parked, whether it was seen WAITING_USER before a decision, and authorization.
 */
module Protocol {
  import opened Wrappers
  import T = ToolActions

  type Pid = nat

  datatype Intent = Intent(context: T.Context, tool: T.Tool, arguments: T.Arguments)

  /** Where one run of `Phase4Services.execute` stands between two transactions. */
  datatype Process =
    | Requested(intent: Intent, execution: T.ExecutionId)
    | Reviewed(intent: Intent, execution: T.ExecutionId, approval: T.ApprovalId, snapshot: T.Approval)
    | Ready(intent: Intent, execution: T.ExecutionId, arguments: T.Arguments)
    | Claimed(intent: Intent, execution: T.ExecutionId, arguments: T.Arguments)
    | Returned(intent: Intent, execution: T.ExecutionId, success: bool)
  {
    predicate HoldsClaim() { Claimed? || Returned? }
  }

  datatype Call = Call(intent: Intent, execution: T.ExecutionId, arguments: T.Arguments)

  /** What a human answered, as it was answered. */
  datatype Decision = Decision(approval: T.ApprovalId, verdict: T.Verdict)

  datatype Actions = Actions(
    ledger: T.Ledger,
    processes: map<Pid, Process>,
    calls: seq<Call>,
    decisions: seq<Decision>)

  const NO_ACTIONS := Actions(T.EMPTY, map[], [], [])

  datatype Step =
    | Start(pid: Pid, intent: Intent)
    | Review(pid: Pid)
    | Resume(pid: Pid, answer: T.ApprovalId)
    | Claim(pid: Pid)
    | CallProvider(pid: Pid, connected: bool, success: bool)
    | Finish(pid: Pid)
    | Crash(pid: Pid)
    | Decide(approval: T.ApprovalId, verdict: T.Verdict)
    | CancelPending(task: T.TaskId)

  /** The provider-side guard of the registry. */
  predicate Guard(policy: T.Policy, l: T.Ledger, tool: T.Tool, arguments: T.Arguments, id: T.ExecutionId) {
    && policy.accepts(tool, arguments)
    && (policy.requiresApproval(tool) ==>
          && id in l.executions
          && l.executions[id].status.Running?
          && l.executions[id].key.tool == tool
          && l.executions[id].arguments == arguments
          && l.executions[id].approval.Some? && l.executions[id].approval.value in l.approvals
          && var approval := l.approvals[l.executions[id].approval.value];
             approval.consumed && (approval.status.Approved? || approval.status.Edited?))
  }

  function Gone(a: Actions, pid: Pid): Actions {
    a.(processes := a.processes - {pid})
  }

  function At(a: Actions, pid: Pid, p: Process): Actions {
    a.(processes := a.processes[pid := p])
  }

  function StartStep(policy: T.Policy, a: Actions, pid: Pid, intent: Intent): Actions {
    if pid in a.processes || !policy.accepts(intent.tool, intent.arguments) then a
    else
      var (l, r) := T.Requesting(a.ledger, intent.tool, intent.arguments, intent.context, policy.requiresApproval(intent.tool));
      if r.Err? then a else At(a.(ledger := l), pid, Requested(intent, r.value))
  }

  function ReviewStep(a: Actions, pid: Pid): Actions {
    if pid !in a.processes || !a.processes[pid].Requested? then a
    else
      var p := a.processes[pid];
      if p.execution !in a.ledger.executions then Gone(a, pid)
      else if a.ledger.executions[p.execution].approval.None? then At(a, pid, Ready(p.intent, p.execution, p.intent.arguments))
      else
        var id := a.ledger.executions[p.execution].approval.value;
        if id !in a.ledger.approvals then Gone(a, pid)
        else if a.ledger.approvals[id].consumed then At(a, pid, Ready(p.intent, p.execution, p.intent.arguments))
        else At(a, pid, Reviewed(p.intent, p.execution, id, a.ledger.approvals[id]))
  }

  /** The interrupt returned `answer`; decision and arguments come from the approval read before it. */
  function ResumeStep(policy: T.Policy, a: Actions, pid: Pid, answer: T.ApprovalId): Actions {
    if pid !in a.processes || !a.processes[pid].Reviewed? then a
    else
      var p := a.processes[pid];
      if answer != p.approval || p.snapshot.status.Pending? || !policy.accepts(p.intent.tool, p.snapshot.Effective()) then Gone(a, pid)
      else At(a, pid, Ready(p.intent, p.execution, p.snapshot.Effective()))
  }

  function ClaimStep(policy: T.Policy, a: Actions, pid: Pid): Actions {
    if pid !in a.processes || !a.processes[pid].Ready? then a
    else
      var p := a.processes[pid];
      if !policy.accepts(p.intent.tool, p.arguments) then Gone(a, pid)
      else
        var (l, r) := T.Claiming(a.ledger, p.execution);
        if r.Ok? && r.value.Claimed? then At(a.(ledger := l), pid, Claimed(p.intent, p.execution, p.arguments))
        else Gone(a.(ledger := l), pid)
  }

  function CallStep(policy: T.Policy, a: Actions, pid: Pid, connected: bool, success: bool): Actions {
    if pid !in a.processes || !a.processes[pid].Claimed? then a
    else
      var p := a.processes[pid];
      if connected && Guard(policy, a.ledger, p.intent.tool, p.arguments, p.execution) then
        At(a.(calls := a.calls + [Call(p.intent, p.execution, p.arguments)]), pid, Returned(p.intent, p.execution, success))
      else At(a, pid, Returned(p.intent, p.execution, false))
  }

  function FinishStep(a: Actions, pid: Pid): Actions {
    if pid !in a.processes || !a.processes[pid].Returned? then a
    else
      var p := a.processes[pid];
      Gone(a.(ledger := T.Finishing(a.ledger, p.execution, p.success).0), pid)
  }

  function DecideStep(policy: T.Policy, a: Actions, id: T.ApprovalId, verdict: T.Verdict): Actions {
    var (l, r) := T.Deciding(a.ledger, policy, id, verdict);
    if r.Err? then a
    else a.(ledger := l, decisions := a.decisions + [Decision(id, verdict)])
  }

  function Next(policy: T.Policy, a: Actions, step: Step): Actions {
    match step
    case Start(pid, intent) => StartStep(policy, a, pid, intent)
    case Review(pid) => ReviewStep(a, pid)
    case Resume(pid, answer) => ResumeStep(policy, a, pid, answer)
    case Claim(pid) => ClaimStep(policy, a, pid)
    case CallProvider(pid, connected, success) => CallStep(policy, a, pid, connected, success)
    case Finish(pid) => FinishStep(a, pid)
    case Crash(pid) => Gone(a, pid)
    case Decide(approval, verdict) => DecideStep(policy, a, approval, verdict)
    case CancelPending(task) => a.(ledger := T.Cancelling(a.ledger, task))
  }

  function Run(policy: T.Policy, a: Actions, steps: seq<Step>): Actions
    decreases |steps|
  {
    if steps == [] then a else Run(policy, Next(policy, a, steps[0]), steps[1..])
  }

  // ---------------------------------------------------- how the ledger evolves

  ghost predicate ExecutionEvolves(e: T.Execution, e': T.Execution) {
    && e'.key == e.key && e'.task == e.task && e'.approval == e.approval
    && (e.Granted() ==> e'.Granted() && e'.arguments == e.arguments)
    && (e.status.Succeeded? || e.status.Failed? ==> e' == e)
  }

  ghost predicate ApprovalEvolves(a: T.Approval, a': T.Approval) {
    && a'.task == a.task && a'.tool == a.tool && a'.arguments == a.arguments && a'.execution == a.execution
    && (a.consumed ==> a' == a)
    && (!a.status.Pending? ==> a'.edited == a.edited && (a'.status == a.status || a'.status.Withdrawn?))
  }

  ghost predicate ExecutionMoves(l: T.Ledger, l': T.Ledger, e: T.ExecutionId)
    requires e in l.executions
  {
    e in l'.executions && ExecutionEvolves(l.executions[e], l'.executions[e])
  }

  ghost predicate ApprovalMoves(l: T.Ledger, l': T.Ledger, a: T.ApprovalId)
    requires a in l.approvals
  {
    a in l'.approvals && ApprovalEvolves(l.approvals[a], l'.approvals[a])
  }

  /** Rows are never removed, and move only forward. */
  ghost predicate Evolves(l: T.Ledger, l': T.Ledger) {
    && (forall e {:trigger ExecutionMoves(l, l', e)} | e in l.executions :: ExecutionMoves(l, l', e))
    && (forall a {:trigger ApprovalMoves(l, l', a)} | a in l.approvals :: ApprovalMoves(l, l', a))
  }

  /** Claims other than that of `except` are left standing. */
  ghost predicate ClaimsStand(l: T.Ledger, l': T.Ledger, except: Option<T.ExecutionId>) {
    forall e | e in l.executions && l.executions[e].status.Running? && except != Some(e) ::
      e in l'.executions && l'.executions[e] == l.executions[e]
  }

  lemma RequestEvolves(l: T.Ledger, tool: T.Tool, arguments: T.Arguments, context: T.Context, requiresApproval: bool)
    requires T.Consistent(l)
    ensures var l' := T.Requesting(l, tool, arguments, context, requiresApproval).0;
            Evolves(l, l') && ClaimsStand(l, l', None)
  {
    var l' := T.Requesting(l, tool, arguments, context, requiresApproval).0;
    forall e | e in l.executions ensures e in l'.executions && l'.executions[e] == l.executions[e] {
      assert T.ExecutionOk(l, e);
    }
    forall a | a in l.approvals ensures a in l'.approvals && l'.approvals[a] == l.approvals[a] {
      assert T.ApprovalOk(l, a);
    }
  }

  lemma DecideEvolves(l: T.Ledger, policy: T.Policy, id: T.ApprovalId, verdict: T.Verdict)
    ensures var l' := T.Deciding(l, policy, id, verdict).0;
            Evolves(l, l') && ClaimsStand(l, l', None)
  {
  }

  /** One pair of rows that moves forward moves the whole ledger forward. */
  lemma PairEvolves(l: T.Ledger, l': T.Ledger, id: T.ExecutionId, a: Option<T.ApprovalId>)
    requires id in l.executions && id in l'.executions && l'.executions == l.executions[id := l'.executions[id]]
    requires ExecutionEvolves(l.executions[id], l'.executions[id])
    requires match a
             case None => l'.approvals == l.approvals
             case Some(x) => && x in l.approvals && x in l'.approvals && l'.approvals == l.approvals[x := l'.approvals[x]]
                             && ApprovalEvolves(l.approvals[x], l'.approvals[x])
    ensures Evolves(l, l')
  {
  }

  lemma ClaimEvolves(l: T.Ledger, id: T.ExecutionId)
    ensures var l' := T.Claiming(l, id).0;
            Evolves(l, l') && ClaimsStand(l, l', None)
  {
    var (l', r) := T.Claiming(l, id);
    if l' != l {
      PairEvolves(l, l', id, l.executions[id].approval);
    }
  }

  lemma FinishEvolves(l: T.Ledger, id: T.ExecutionId, success: bool)
    ensures var l' := T.Finishing(l, id, success).0;
            Evolves(l, l') && ClaimsStand(l, l', Some(id))
  {
    var l' := T.Finishing(l, id, success).0;
    if l' != l {
      PairEvolves(l, l', id, None);
    }
  }

  lemma CancelRowEvolves(l: T.Ledger, task: T.TaskId, e: T.ExecutionId)
    requires T.Consistent(l) && e in l.executions
    ensures ExecutionEvolves(l.executions[e], T.Cancelling(l, task).executions[e])
    ensures l.executions[e].status.Running? ==> T.Cancelling(l, task).executions[e] == l.executions[e]
  {
    T.CancelTouchesOnlyWaiting(l, task, e);
  }

  lemma CancelEvolves(l: T.Ledger, task: T.TaskId)
    requires T.Consistent(l)
    ensures Evolves(l, T.Cancelling(l, task)) && ClaimsStand(l, T.Cancelling(l, task), None)
  {
    forall e | e in l.executions {
      CancelRowEvolves(l, task, e);
    }
  }

  // ------------------------------------------------------- the safety invariant

  /** The durable identity of an intent: the unique key without its nonce. */
  function Identity(intent: Intent): T.IntentKey {
    T.KeyOf(intent.tool, intent.arguments, intent.context, true, 0)
  }

  /** A snapshot taken before the claim still tells the arguments of the decision it shows. */
  ghost predicate SnapshotOk(snapshot: T.Approval, current: T.Approval) {
    && !snapshot.status.Pending? ==> !current.status.Pending? && current.Effective() == snapshot.Effective()
  }

  ghost predicate Attached(l: T.Ledger, intent: Intent, execution: T.ExecutionId) {
    execution in l.executions && l.executions[execution].key.(nonce := None) == Identity(intent)
  }

  ghost predicate ProcessOk(l: T.Ledger, p: Process) {
    match p
    case Requested(intent, e) => Attached(l, intent, e)
    case Reviewed(intent, e, id, snapshot) =>
      && Attached(l, intent, e)
      && l.executions[e].approval == Some(id)
      && id in l.approvals && SnapshotOk(snapshot, l.approvals[id])
    case Ready(intent, e, arguments) => Attached(l, intent, e) && Bound(l, l.executions[e], arguments)
    case Claimed(intent, e, arguments) =>
      Attached(l, intent, e) && l.executions[e].status.Running? && l.executions[e].arguments == arguments
    case Returned(intent, e, _) => Attached(l, intent, e) && l.executions[e].status.Running?
  }

  /** Arguments about to be claimed are those of the decision, unless the claim can no longer be granted. */
  ghost predicate Bound(l: T.Ledger, e: T.Execution, arguments: T.Arguments) {
    match e.approval
    case None => arguments == e.key.arguments
    case Some(id) =>
      id in l.approvals && (l.approvals[id].consumed || (!l.approvals[id].status.Pending? && l.approvals[id].Effective() == arguments))
  }

  /** No two processes hold the claim of one execution. */
  ghost predicate OneClaimant(processes: map<Pid, Process>) {
    forall p, q | p in processes && q in processes && p != q && processes[p].HoldsClaim() && processes[q].HoldsClaim() ::
      processes[p].execution != processes[q].execution
  }

  ghost predicate CallOk(policy: T.Policy, l: T.Ledger, c: Call) {
    && c.execution in l.executions
    && l.executions[c.execution].key.(nonce := None) == Identity(c.intent)
    && l.executions[c.execution].Granted()
    && l.executions[c.execution].arguments == c.arguments
    && policy.accepts(c.intent.tool, c.arguments)
  }

  /** Every logged call is backed by a granted claim, and no claim backs two. */
  ghost predicate CallsOk(policy: T.Policy, a: Actions) {
    && (forall i {:trigger CallOk(policy, a.ledger, a.calls[i])} | 0 <= i < |a.calls| :: CallOk(policy, a.ledger, a.calls[i]))
    && (forall i, j | 0 <= i < j < |a.calls| :: a.calls[i].execution != a.calls[j].execution)
    && (forall p, i | p in a.processes && a.processes[p].Claimed? && 0 <= i < |a.calls| ::
          a.calls[i].execution != a.processes[p].execution)
  }

  /** The row says what the human answered. */
  ghost predicate Answers(d: Decision, approval: T.Approval) {
    match d.verdict
    case Approve => approval.status.Approved? && approval.Effective() == approval.arguments
    case Edit(edits) => approval.status.Edited? && approval.Effective() == approval.arguments + edits && edits.Keys <= {T.Title, T.Body}
    case Reject => approval.status.Declined?
    case Invalid => false
  }

  ghost predicate Recorded(decisions: seq<Decision>, id: T.ApprovalId, approval: T.Approval) {
    exists i :: 0 <= i < |decisions| && decisions[i].approval == id && Answers(decisions[i], approval)
  }

  /** Each approval is decided at most once, and a decided one is in the log as it was decided. */
  ghost predicate DecisionsOk(l: T.Ledger, decisions: seq<Decision>) {
    && (forall i | 0 <= i < |decisions| ::
          decisions[i].approval in l.approvals && !l.approvals[decisions[i].approval].status.Pending?)
    && (forall i, j | 0 <= i < j < |decisions| :: decisions[i].approval != decisions[j].approval)
    && (forall id {:trigger Recorded(decisions, id, l.approvals[id])} | id in l.approvals && l.approvals[id].Decided() ::
          Recorded(decisions, id, l.approvals[id]))
  }

  /** Tools whose intents are keyed without a nonce: sensitive ones, and external writes. */
  predicate Durable(policy: T.Policy, tool: T.Tool) {
    policy.requiresApproval(tool) || !(tool.operation.Read? || tool.native)
  }

  /** An execution has an approval exactly when its tool needs one; durable intents carry no nonce. */
  ghost predicate PolicyOk(policy: T.Policy, l: T.Ledger) {
    forall e | e in l.executions ::
      && (l.executions[e].approval.Some? <==> policy.requiresApproval(l.executions[e].key.tool))
      && (Durable(policy, l.executions[e].key.tool) ==> l.executions[e].key.nonce.None?)
  }

  ghost predicate Safe(policy: T.Policy, a: Actions) {
    && T.Consistent(a.ledger)
    && PolicyOk(policy, a.ledger)
    && (forall p {:trigger ProcessOk(a.ledger, a.processes[p])} | p in a.processes :: ProcessOk(a.ledger, a.processes[p]))
    && OneClaimant(a.processes)
    && CallsOk(policy, a)
    && DecisionsOk(a.ledger, a.decisions)
  }

  // -------------------------------------------------------------------- frames

  lemma ProcessStays(l: T.Ledger, l': T.Ledger, p: Process)
    requires Evolves(l, l') && ProcessOk(l, p)
    requires p.HoldsClaim() ==> p.execution in l'.executions && l'.executions[p.execution] == l.executions[p.execution]
    ensures ProcessOk(l', p)
  {
    assert ExecutionMoves(l, l', p.execution);
    match p
    case Reviewed(_, _, id, snapshot) => assert ApprovalMoves(l, l', id);
    case Ready(_, e, _) =>
      if l.executions[e].approval.Some? {
        var id := l.executions[e].approval.value;
        assert ApprovalMoves(l, l', id);
      }
    case _ =>
  }

  lemma CallStays(policy: T.Policy, l: T.Ledger, l': T.Ledger, c: Call)
    requires Evolves(l, l') && CallOk(policy, l, c)
    ensures CallOk(policy, l', c)
  {
    assert ExecutionMoves(l, l', c.execution);
  }

  /** What a step may do to the process table: change at most `pid`. */
  ghost predicate OnlyProcess(a: Actions, a': Actions, pid: Pid) {
    forall q | q in a'.processes && q != pid :: q in a.processes && a'.processes[q] == a.processes[q]
  }

  /** The process after the step holds a claim only if nobody held it and no call was made under it. */
  ghost predicate ClaimIsNew(a: Actions, p: Process) {
    && !p.Returned?
    && (p.Claimed? ==>
          && (forall q | q in a.processes && a.processes[q].HoldsClaim() :: a.processes[q].execution != p.execution)
          && (forall i | 0 <= i < |a.calls| :: a.calls[i].execution != p.execution))
  }

  /** No approval becomes decided. */
  ghost predicate NothingDecided(l: T.Ledger, l': T.Ledger) {
    forall id | id in l'.approvals && l'.approvals[id].Decided() ::
      id in l.approvals && l.approvals[id].Decided()
      && l.approvals[id].status == l'.approvals[id].status && l.approvals[id].Effective() == l'.approvals[id].Effective()
  }

  function HeldBy(a: Actions, pid: Pid): Option<T.ExecutionId> {
    if pid in a.processes && a.processes[pid].HoldsClaim() then Some(a.processes[pid].execution) else None
  }

  ghost predicate LedgerMoves(policy: T.Policy, a: Actions, a': Actions, pid: Pid) {
    && T.Consistent(a'.ledger) && PolicyOk(policy, a'.ledger)
    && Evolves(a.ledger, a'.ledger)
    && OnlyProcess(a, a', pid)
    && a'.calls == a.calls
    && ClaimsStand(a.ledger, a'.ledger, HeldBy(a, pid))
    && (pid in a'.processes ==> ProcessOk(a'.ledger, a'.processes[pid]) && ClaimIsNew(a, a'.processes[pid]))
  }

  lemma FrameProcesses(policy: T.Policy, a: Actions, a': Actions, pid: Pid)
    requires Safe(policy, a) && LedgerMoves(policy, a, a', pid)
    ensures forall q | q in a'.processes :: ProcessOk(a'.ledger, a'.processes[q])
  {
    forall q | q in a'.processes && q != pid ensures ProcessOk(a'.ledger, a'.processes[q]) {
      ProcessStays(a.ledger, a'.ledger, a.processes[q]);
    }
  }

  lemma FrameClaimants(policy: T.Policy, a: Actions, a': Actions, pid: Pid)
    requires OneClaimant(a.processes) && OnlyProcess(a, a', pid)
    requires pid in a'.processes ==> ClaimIsNew(a, a'.processes[pid])
    ensures OneClaimant(a'.processes)
  {
  }

  lemma FrameCalls(policy: T.Policy, a: Actions, a': Actions, pid: Pid)
    requires CallsOk(policy, a) && LedgerMoves(policy, a, a', pid)
    ensures CallsOk(policy, a')
  {
    forall i | 0 <= i < |a'.calls| ensures CallOk(policy, a'.ledger, a'.calls[i]) {
      CallStays(policy, a.ledger, a'.ledger, a.calls[i]);
    }
  }

  lemma FrameDecisions(a: Actions, a': Actions)
    requires DecisionsOk(a.ledger, a.decisions) && Evolves(a.ledger, a'.ledger) && NothingDecided(a.ledger, a'.ledger) && a'.decisions == a.decisions
    ensures DecisionsOk(a'.ledger, a'.decisions)
  {
    forall i | 0 <= i < |a'.decisions|
      ensures a'.decisions[i].approval in a'.ledger.approvals && !a'.ledger.approvals[a'.decisions[i].approval].status.Pending?
    {
      var id := a.decisions[i].approval;
      assert ApprovalMoves(a.ledger, a'.ledger, id);
    }
    forall id | id in a'.ledger.approvals && a'.ledger.approvals[id].Decided()
      ensures Recorded(a'.decisions, id, a'.ledger.approvals[id])
    {
      assert ApprovalMoves(a.ledger, a'.ledger, id);
      assert Recorded(a.decisions, id, a.ledger.approvals[id]);
    }
  }

  lemma Frame(policy: T.Policy, a: Actions, a': Actions, pid: Pid)
    requires Safe(policy, a) && LedgerMoves(policy, a, a', pid)
    requires NothingDecided(a.ledger, a'.ledger) && a'.decisions == a.decisions
    ensures Safe(policy, a')
  {
    FrameProcesses(policy, a, a', pid);
    FrameClaimants(policy, a, a', pid);
    FrameCalls(policy, a, a', pid);
    FrameDecisions(a, a');
  }

  // ------------------------------------------------- every step keeps it safe

  lemma StartKeepsSafe(policy: T.Policy, a: Actions, pid: Pid, intent: Intent)
    requires Safe(policy, a)
    ensures Safe(policy, StartStep(policy, a, pid, intent))
  {
    var a' := StartStep(policy, a, pid, intent);
    if a' != a {
      var needs := policy.requiresApproval(intent.tool);
      T.RequestKeepsConsistent(a.ledger, intent.tool, intent.arguments, intent.context, needs);
      RequestEvolves(a.ledger, intent.tool, intent.arguments, intent.context, needs);
      RequestFacts(policy, a.ledger, intent);
      Frame(policy, a, a', pid);
    }
  }

  /** What a request does: it finds the row of its key, fails, or inserts one fresh row. */
  lemma RequestShape(policy: T.Policy, l: T.Ledger, intent: Intent)
    requires T.Consistent(l)
    ensures
      var needs := policy.requiresApproval(intent.tool);
      var key := T.KeyOf(intent.tool, intent.arguments, intent.context, needs, l.nextId);
      var (l', r) := T.Requesting(l, intent.tool, intent.arguments, intent.context, needs);
      if l' == l
      then r.Ok? ==> r.value in l.executions && l.executions[r.value].key == key
      else && r.Ok?
           && (forall e | e in l'.executions && e != r.value :: e in l.executions && l'.executions[e] == l.executions[e])
           && (forall id | id in l'.approvals :: l'.approvals[id].status.Pending? || (id in l.approvals && l'.approvals[id] == l.approvals[id]))
           && r.value in l'.executions && l'.executions[r.value].key == key
           && (l'.executions[r.value].approval.Some? <==> needs)
  {
    var needs := policy.requiresApproval(intent.tool);
    var key := T.KeyOf(intent.tool, intent.arguments, intent.context, needs, l.nextId);
    if key in l.index {
      assert T.KeyOk(l, key);
    }
  }

  lemma RequestFacts(policy: T.Policy, l: T.Ledger, intent: Intent)
    requires T.Consistent(l) && PolicyOk(policy, l)
    ensures
      var (l', r) := T.Requesting(l, intent.tool, intent.arguments, intent.context, policy.requiresApproval(intent.tool));
      && PolicyOk(policy, l') && NothingDecided(l, l')
      && (r.Ok? ==> ProcessOk(l', Requested(intent, r.value)))
  {
    RequestShape(policy, l, intent);
  }

  /** Steps that only read the ledger. */
  lemma ReadKeepsSafe(policy: T.Policy, a: Actions, a': Actions, pid: Pid)
    requires Safe(policy, a)
    requires a'.ledger == a.ledger && a'.calls == a.calls && a'.decisions == a.decisions && OnlyProcess(a, a', pid)
    requires pid in a'.processes ==> ProcessOk(a.ledger, a'.processes[pid]) && !a'.processes[pid].HoldsClaim()
    ensures Safe(policy, a')
  {
    Frame(policy, a, a', pid);
  }

  lemma ReviewKeepsSafe(policy: T.Policy, a: Actions, pid: Pid)
    requires Safe(policy, a)
    ensures Safe(policy, ReviewStep(a, pid))
  {
    if pid in a.processes && a.processes[pid].Requested? {
      assert ProcessOk(a.ledger, a.processes[pid]);
      assert T.ExecutionOk(a.ledger, a.processes[pid].execution);
      ReadKeepsSafe(policy, a, ReviewStep(a, pid), pid);
    }
  }

  lemma ResumeKeepsSafe(policy: T.Policy, a: Actions, pid: Pid, answer: T.ApprovalId)
    requires Safe(policy, a)
    ensures Safe(policy, ResumeStep(policy, a, pid, answer))
  {
    if pid in a.processes && a.processes[pid].Reviewed? {
      assert ProcessOk(a.ledger, a.processes[pid]);
      ReadKeepsSafe(policy, a, ResumeStep(policy, a, pid, answer), pid);
    }
  }

  /** What a claim may change: the status and arguments of its row, and the consumption of approvals. */
  ghost predicate ClaimShape(l: T.Ledger, l': T.Ledger, id: T.ExecutionId) {
    && (forall e {:trigger e in l'.executions} :: e in l'.executions <==> e in l.executions)
    && (forall e {:trigger l'.executions[e]} | e in l.executions ::
          (e != id ==> l'.executions[e] == l.executions[e])
          && l'.executions[e].key == l.executions[e].key && l'.executions[e].approval == l.executions[e].approval)
    && (forall a {:trigger a in l'.approvals} :: a in l'.approvals <==> a in l.approvals)
    && (forall a {:trigger l'.approvals[a]} | a in l.approvals ::
          l'.approvals[a] == l.approvals[a] || l'.approvals[a] == l.approvals[a].(consumed := true))
  }

  lemma ClaimHasShape(l: T.Ledger, id: T.ExecutionId)
    ensures ClaimShape(l, T.Claiming(l, id).0, id)
  {
  }

  lemma ClaimKeepsPolicy(policy: T.Policy, l: T.Ledger, id: T.ExecutionId)
    requires PolicyOk(policy, l)
    ensures PolicyOk(policy, T.Claiming(l, id).0)
  {
    ClaimHasShape(l, id);
    ShapeKeepsPolicy(policy, l, T.Claiming(l, id).0, id);
  }

  lemma ShapeKeepsPolicy(policy: T.Policy, l: T.Ledger, l': T.Ledger, id: T.ExecutionId)
    requires PolicyOk(policy, l) && ClaimShape(l, l', id)
    ensures PolicyOk(policy, l')
  {
  }

  lemma ClaimDecidesNothing(l: T.Ledger, id: T.ExecutionId)
    ensures NothingDecided(l, T.Claiming(l, id).0)
  {
    ClaimHasShape(l, id);
  }

  /** A granted claim binds the arguments the process carries, and was never granted before. */
  lemma ClaimBinds(l: T.Ledger, id: T.ExecutionId, arguments: T.Arguments)
    requires T.Consistent(l) && id in l.executions && Bound(l, l.executions[id], arguments)
    ensures
      var (l', r) := T.Claiming(l, id);
      r.Ok? && r.value.Claimed? ==>
        && !l.executions[id].Granted() && l'.executions[id].status.Running?
        && l'.executions[id].key == l.executions[id].key
        && l'.executions[id].arguments == arguments
  {
    assert T.ExecutionOk(l, id);
  }

  lemma UngrantedIsUnclaimed(policy: T.Policy, a: Actions, p: Process)
    requires Safe(policy, a) && p.Claimed?
    requires p.execution in a.ledger.executions && !a.ledger.executions[p.execution].Granted()
    ensures ClaimIsNew(a, p)
  {
    forall q | q in a.processes && a.processes[q].HoldsClaim() ensures a.processes[q].execution != p.execution {
      assert ProcessOk(a.ledger, a.processes[q]);
    }
    forall i | 0 <= i < |a.calls| ensures a.calls[i].execution != p.execution {
      assert CallOk(policy, a.ledger, a.calls[i]);
    }
  }

  /** The process that holds the new claim, if the claim was granted. */
  lemma ClaimantOk(policy: T.Policy, a: Actions, pid: Pid)
    requires Safe(policy, a) && pid in a.processes && a.processes[pid].Ready?
    ensures var a' := ClaimStep(policy, a, pid);
            pid in a'.processes ==> ProcessOk(a'.ledger, a'.processes[pid]) && ClaimIsNew(a, a'.processes[pid])
  {
    var p, a' := a.processes[pid], ClaimStep(policy, a, pid);
    assert ProcessOk(a.ledger, p);
    if pid in a'.processes {
      ClaimBinds(a.ledger, p.execution, p.arguments);
      UngrantedIsUnclaimed(policy, a, a'.processes[pid]);
    }
  }

  lemma ClaimMoves(policy: T.Policy, a: Actions, pid: Pid)
    requires Safe(policy, a) && pid in a.processes && a.processes[pid].Ready?
    ensures LedgerMoves(policy, a, ClaimStep(policy, a, pid), pid)
  {
    var p := a.processes[pid];
    ClaimantOk(policy, a, pid);
    T.ClaimKeepsConsistent(a.ledger, p.execution);
    ClaimEvolves(a.ledger, p.execution);
    ClaimKeepsPolicy(policy, a.ledger, p.execution);
  }

  lemma ClaimKeepsSafe(policy: T.Policy, a: Actions, pid: Pid)
    requires Safe(policy, a)
    ensures Safe(policy, ClaimStep(policy, a, pid))
  {
    if pid in a.processes && a.processes[pid].Ready? {
      ClaimMoves(policy, a, pid);
      ClaimDecidesNothing(a.ledger, a.processes[pid].execution);
      Frame(policy, a, ClaimStep(policy, a, pid), pid);
    }
  }

  lemma FinishKeepsSafe(policy: T.Policy, a: Actions, pid: Pid)
    requires Safe(policy, a)
    ensures Safe(policy, FinishStep(a, pid))
  {
    if pid in a.processes && a.processes[pid].Returned? {
      var p := a.processes[pid];
      assert ProcessOk(a.ledger, p);
      T.FinishKeepsConsistent(a.ledger, p.execution, p.success);
      FinishEvolves(a.ledger, p.execution, p.success);
      Frame(policy, a, FinishStep(a, pid), pid);
    }
  }

  lemma CancelKeepsSafe(policy: T.Policy, a: Actions, task: T.TaskId)
    requires Safe(policy, a)
    ensures Safe(policy, a.(ledger := T.Cancelling(a.ledger, task)))
  {
    T.CancelPendingKeepsConsistent(a.ledger, task);
    CancelEvolves(a.ledger, task);
    var a' := a.(ledger := T.Cancelling(a.ledger, task));
    FrameLedgerOnly(policy, a, a');
  }

  lemma FrameLedgerOnly(policy: T.Policy, a: Actions, a': Actions)
    requires Safe(policy, a)
    requires T.Consistent(a'.ledger) && PolicyOk(policy, a'.ledger)
    requires Evolves(a.ledger, a'.ledger) && ClaimsStand(a.ledger, a'.ledger, None)
    requires a'.calls == a.calls && a'.processes == a.processes
    ensures (forall q | q in a'.processes :: ProcessOk(a'.ledger, a'.processes[q])) && OneClaimant(a'.processes) && CallsOk(policy, a')
    ensures a'.decisions == a.decisions && NothingDecided(a.ledger, a'.ledger) ==> Safe(policy, a')
  {
    forall q | q in a'.processes ensures ProcessOk(a'.ledger, a'.processes[q]) {
      ProcessStays(a.ledger, a'.ledger, a.processes[q]);
    }
    forall i | 0 <= i < |a'.calls| ensures CallOk(policy, a'.ledger, a'.calls[i]) {
      CallStays(policy, a.ledger, a'.ledger, a.calls[i]);
    }
    if a'.decisions == a.decisions && NothingDecided(a.ledger, a'.ledger) {
      FrameDecisions(a, a');
    }
  }

  lemma DecideKeepsSafe(policy: T.Policy, a: Actions, id: T.ApprovalId, verdict: T.Verdict)
    requires Safe(policy, a)
    ensures Safe(policy, DecideStep(policy, a, id, verdict))
  {
    var a' := DecideStep(policy, a, id, verdict);
    T.DecideKeepsConsistent(a.ledger, policy, id, verdict);
    DecideEvolves(a.ledger, policy, id, verdict);
    if a' != a {
      FrameLedgerOnly(policy, a, a');
      DecisionIsRecorded(policy, a, id, verdict);
    }
  }

  lemma DecisionIsRecorded(policy: T.Policy, a: Actions, id: T.ApprovalId, verdict: T.Verdict)
    requires DecisionsOk(a.ledger, a.decisions) && T.Consistent(a.ledger) && T.Deciding(a.ledger, policy, id, verdict).1.Ok?
    ensures var a' := DecideStep(policy, a, id, verdict); DecisionsOk(a'.ledger, a'.decisions)
  {
    var a' := DecideStep(policy, a, id, verdict);
    forall x | x in a'.ledger.approvals && a'.ledger.approvals[x].Decided()
      ensures Recorded(a'.decisions, x, a'.ledger.approvals[x])
    {
      if x == id {
        T.ApprovalIsCoupled(a.ledger, id);
        AnswerIsWritten(a.ledger, policy, id, verdict);
        assert a'.decisions[|a.decisions|] == Decision(id, verdict);
      } else {
        assert Recorded(a.decisions, x, a.ledger.approvals[x]);
        var i :| 0 <= i < |a.decisions| && a.decisions[i].approval == x && Answers(a.decisions[i], a.ledger.approvals[x]);
        assert a'.decisions[i] == a.decisions[i];
      }
    }
  }

  lemma AnswerIsWritten(l: T.Ledger, policy: T.Policy, id: T.ApprovalId, verdict: T.Verdict)
    requires T.Deciding(l, policy, id, verdict).1.Ok? && T.EditRecorded(l.approvals[id])
    ensures Answers(Decision(id, verdict), T.Deciding(l, policy, id, verdict).0.approvals[id])
  {
    if verdict.Edit? {
      var x :| x in verdict.edits;
      assert x in l.approvals[id].arguments + verdict.edits;
    }
  }

  lemma CallIsBacked(policy: T.Policy, a: Actions, pid: Pid, connected: bool, success: bool)
    requires Safe(policy, a)
    ensures CallsOk(policy, CallStep(policy, a, pid, connected, success))
  {
    if pid in a.processes && a.processes[pid].Claimed? {
      assert ProcessOk(a.ledger, a.processes[pid]);
    }
  }

  lemma CallKeepsSafe(policy: T.Policy, a: Actions, pid: Pid, connected: bool, success: bool)
    requires Safe(policy, a)
    ensures Safe(policy, CallStep(policy, a, pid, connected, success))
  {
    var a' := CallStep(policy, a, pid, connected, success);
    CallIsBacked(policy, a, pid, connected, success);
    forall q | q in a'.processes ensures ProcessOk(a'.ledger, a'.processes[q]) {
      assert ProcessOk(a.ledger, a.processes[q]);
    }
  }

  // ------------------------------------------------------------------ theorems

  lemma NextKeepsSafe(policy: T.Policy, a: Actions, step: Step)
    requires Safe(policy, a)
    ensures Safe(policy, Next(policy, a, step))
  {
    match step
    case Start(pid, intent) => StartKeepsSafe(policy, a, pid, intent);
    case Review(pid) => ReviewKeepsSafe(policy, a, pid);
    case Resume(pid, answer) => ResumeKeepsSafe(policy, a, pid, answer);
    case Claim(pid) => ClaimKeepsSafe(policy, a, pid);
    case CallProvider(pid, connected, success) => CallKeepsSafe(policy, a, pid, connected, success);
    case Finish(pid) => FinishKeepsSafe(policy, a, pid);
    case Crash(pid) => ReadKeepsSafe(policy, a, Gone(a, pid), pid);
    case Decide(approval, verdict) => DecideKeepsSafe(policy, a, approval, verdict);
    case CancelPending(task) => CancelKeepsSafe(policy, a, task);
  }
}
