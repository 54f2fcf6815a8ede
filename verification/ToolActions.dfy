/**
 The durable intent, approval and single-claim ledger for external tools.

 Rows are maps from ids to records.  Every method of the store is one database
 transaction; it is proved equal to a function on ledger values, and the
 invariant `Consistent` is proved about those functions.  A hash stands for
 what it hashes (hashes are injective), and `identity()` draws the next number.
 */
module ToolActions {
  import opened Wrappers

  type TaskId = nat
  type StepId = nat
  type RunId = nat
  type ExecutionId = nat
  type ApprovalId = nat

  /** A tool argument: the two fields a human may edit, or any other. */
  datatype Field = Title | Body | Other(name: string)

  type Arguments = map<Field, string>

  datatype Operation = Read | Write | Delete | Execute

  datatype Tool = Tool(name: string, native: bool, operation: Operation)

  /** Trusted local policy, fixed while the system runs. */
  datatype Policy = Policy(requiresApproval: Tool -> bool, accepts: (Tool, Arguments) -> bool)

  /** The caller's context: a durable task step, or a chat run without a task. */
  datatype Context = Context(task: Option<TaskId>, step: Option<StepId>, run: RunId)

  datatype Owner = TaskOwner(task: TaskId) | RunOwner(run: RunId)

  datatype IntentKey = IntentKey(
    owner: Owner, step: Option<StepId>, tool: Tool, arguments: Arguments, nonce: Option<nat>)

  datatype ExecutionStatus = Requested | WaitingApproval | Running | Succeeded | Failed | Rejected | Cancelled

  datatype Execution = Execution(
    key: IntentKey,
    task: Option<TaskId>,
    arguments: Arguments,
    requestedArguments: Option<Arguments>,
    approval: Option<ApprovalId>,
    status: ExecutionStatus)
  {
    /** The claim was granted: the provider may have been called. */
    predicate Granted() {
      status.Running? || status.Succeeded? || status.Failed?
    }
  }

  datatype ApprovalStatus = Pending | Approved | Declined | Edited | Expired | Withdrawn

  datatype Approval = Approval(
    task: TaskId,
    tool: Tool,
    arguments: Arguments,
    status: ApprovalStatus,
    edited: Option<Arguments>,
    consumed: bool,
    execution: ExecutionId)
  {
    /** `edited_arguments or arguments`: an empty dictionary counts as absent. */
    function Effective(): Arguments {
      if edited.Some? && edited.value != map[] then edited.value else arguments
    }

    predicate Decided() {
      status.Approved? || status.Declined? || status.Edited?
    }
  }

  datatype Ledger = Ledger(
    executions: map<ExecutionId, Execution>,
    approvals: map<ApprovalId, Approval>,
    index: map<IntentKey, ExecutionId>,
    nextId: nat)

  const EMPTY := Ledger(map[], map[], map[], 0)

  datatype Verdict = Approve | Edit(edits: Arguments) | Reject | Invalid

  datatype ClaimResult = Claimed(arguments: Arguments) | Replayed(status: ExecutionStatus)

  // ---------------------------------------------------------------- invariant

  ghost predicate OnlyTitleOrBodyDiffer(x: Arguments, y: Arguments) {
    forall name :: Other(name) in x || Other(name) in y ==>
      Other(name) in x && Other(name) in y && x[Other(name)] == y[Other(name)]
  }

  /** How the status columns of an intent and of its approval move together. */
  ghost predicate StatusesAgree(e: ExecutionStatus, a: ApprovalStatus, consumed: bool) {
    match a
    case Pending => !consumed && e.WaitingApproval?
    case Approved => if consumed then e.Running? || e.Succeeded? || e.Failed? else e.WaitingApproval?
    case Edited => if consumed then e.Running? || e.Succeeded? || e.Failed? else e.WaitingApproval?
    case Declined => if consumed then e.Rejected? else e.WaitingApproval?
    case Withdrawn => !consumed && e.Cancelled?
    case Expired => false
  }

  ghost predicate EditRecorded(a: Approval) {
    && (a.status.Edited? ==> a.edited.Some?)
    && (a.edited.Some? ==> a.edited.value != map[] && (a.status.Edited? || a.status.Withdrawn?))
    && OnlyTitleOrBodyDiffer(a.Effective(), a.arguments)
  }

  ghost predicate Coupled(e: Execution, a: Approval) {
    && a.arguments == e.key.arguments
    && a.tool == e.key.tool
    && e.task == Some(a.task)
    && StatusesAgree(e.status, a.status, a.consumed)
    && EditRecorded(a)
    && (e.status.WaitingApproval? ==> e.arguments == e.key.arguments)
    && (e.Granted() ==> e.arguments == a.Effective())
  }

  ghost predicate Unapproved(e: Execution) {
    (e.status.Requested? || e.Granted()) && e.arguments == e.key.arguments
  }

  ghost predicate ExecutionOk(l: Ledger, e: ExecutionId)
    requires e in l.executions
  {
    var value := l.executions[e];
    && e < l.nextId
    && value.key in l.index && l.index[value.key] == e
    && match value.approval
       case None => Unapproved(value)
       case Some(a) => a in l.approvals && l.approvals[a].execution == e && Coupled(value, l.approvals[a])
  }

  ghost predicate ApprovalOk(l: Ledger, a: ApprovalId)
    requires a in l.approvals
  {
    && a < l.nextId
    && l.approvals[a].execution in l.executions
    && l.executions[l.approvals[a].execution].approval == Some(a)
  }

  ghost predicate KeyOk(l: Ledger, k: IntentKey)
    requires k in l.index
  {
    && l.index[k] in l.executions
    && l.executions[l.index[k]].key == k
    && (k.nonce.Some? ==> k.nonce.value < l.nextId)
  }

  ghost predicate Consistent(l: Ledger) {
    && (forall e {:trigger ExecutionOk(l, e)} | e in l.executions :: ExecutionOk(l, e))
    && (forall a {:trigger ApprovalOk(l, a)} | a in l.approvals :: ApprovalOk(l, a))
    && (forall k {:trigger KeyOk(l, k)} | k in l.index :: KeyOk(l, k))
  }

  // ------------------------------------------------------------- transactions

  function KeyOf(tool: Tool, arguments: Arguments, context: Context, requiresApproval: bool, unique: nat): IntentKey {
    IntentKey(
      if context.task.Some? then TaskOwner(context.task.value) else RunOwner(context.run),
      context.step, tool, arguments,
      if !requiresApproval && (tool.operation.Read? || tool.native) then Some(unique) else None)
  }

  function Requesting(l: Ledger, tool: Tool, arguments: Arguments, context: Context, requiresApproval: bool)
    : (Ledger, Result<ExecutionId>)
  {
    var key := KeyOf(tool, arguments, context, requiresApproval, l.nextId);
    if key in l.index then (l, Ok(l.index[key]))
    else if requiresApproval && (context.task.None? || context.step.None?) then (l, Err(TaskConflict))
    else
      var id := l.nextId;
      if requiresApproval then
        var approval := Approval(context.task.value, tool, arguments, Pending, None, false, id);
        var value := Execution(key, context.task, arguments, None, Some(id + 1), WaitingApproval);
        (Ledger(l.executions[id := value], l.approvals[id + 1 := approval], l.index[key := id], id + 2), Ok(id))
      else
        var value := Execution(key, context.task, arguments, None, None, Requested);
        (Ledger(l.executions[id := value], l.approvals, l.index[key := id], id + 1), Ok(id))
  }

  /** The approval row once decided, or why it cannot be. */
  function Decided(policy: Policy, approval: Approval, verdict: Verdict): Result<Approval> {
    if !approval.status.Pending? || approval.consumed then Err(TaskConflict)
    else
      match verdict
      case Invalid => Err(ValueError)
      case Reject => Ok(approval.(status := Declined))
      case Approve =>
        if policy.accepts(approval.tool, approval.arguments) then Ok(approval.(status := Approved)) else Err(ValueError)
      case Edit(edits) =>
        var arguments := approval.arguments + edits;
        if edits == map[] || edits.Keys - {Title, Body} != {} then Err(ValueError)
        else if !policy.accepts(approval.tool, arguments) then Err(ValueError)
        else Ok(approval.(status := Edited, edited := Some(arguments)))
  }

  function Deciding(l: Ledger, policy: Policy, id: ApprovalId, verdict: Verdict): (Ledger, Result<Approval>) {
    if id !in l.approvals then (l, Err(RecordNotFound))
    else
      var r := Decided(policy, l.approvals[id], verdict);
      (if r.Ok? then l.(approvals := l.approvals[id := r.value]) else l, r)
  }

  function Claiming(l: Ledger, id: ExecutionId): (Ledger, Result<ClaimResult>) {
    if id !in l.executions then (l, Err(RecordNotFound))
    else
      var value := l.executions[id];
      if value.status.Succeeded? || value.status.Rejected? || value.status.Cancelled? then (l, Ok(Replayed(value.status)))
      else if value.status.Running? || value.status.Failed? then (l, Err(TaskConflict))
      else if value.approval.None? then
        (l.(executions := l.executions[id := value.(status := Running)]), Ok(Claimed(value.arguments)))
      else if value.approval.value !in l.approvals then (l, Err(RecordNotFound))
      else
        var approval := l.approvals[value.approval.value];
        if approval.consumed || approval.status.Pending? then (l, Err(TaskConflict))
        else if !approval.Decided() then (l, Err(TaskConflict))
        else
          var bound := if approval.edited.Some? && approval.edited.value != map[]
                       then value.(requestedArguments := Some(value.arguments), arguments := approval.edited.value)
                       else value;
          var approvals := l.approvals[value.approval.value := approval.(consumed := true)];
          if approval.status.Declined? then
            (l.(executions := l.executions[id := bound.(status := Rejected)], approvals := approvals), Ok(Replayed(Rejected)))
          else
            (l.(executions := l.executions[id := bound.(status := Running)], approvals := approvals), Ok(Claimed(bound.arguments)))
  }

  function Finishing(l: Ledger, id: ExecutionId, success: bool): (Ledger, Result<ExecutionStatus>) {
    if id !in l.executions then (l, Err(RecordNotFound))
    else if !l.executions[id].status.Running? then (l, Err(TaskConflict))
    else
      var status := if success then Succeeded else Failed;
      (l.(executions := l.executions[id := l.executions[id].(status := status)]), Ok(status))
  }

  predicate Cancellable(a: Approval, task: TaskId) {
    a.task == task && !a.consumed && (a.status.Pending? || a.Decided())
  }

  /** The ledger after `cancel_pending`: every open approval of the task, and its execution, is cancelled. */
  function Cancelling(l: Ledger, task: TaskId): Ledger {
    CancellingAmong(l, task, l.approvals.Keys)
  }

  /** The same restricted to the approvals in `rows`. */
  function CancellingAmong(l: Ledger, task: TaskId, rows: set<ApprovalId>): Ledger {
    l.(approvals := map a | a in l.approvals ::
                      if a in rows && Cancellable(l.approvals[a], task)
                      then l.approvals[a].(status := Withdrawn) else l.approvals[a],
       executions := map e | e in l.executions :: CancelledRow(l, task, rows, l.executions[e]))
  }

  function CancelledRow(l: Ledger, task: TaskId, rows: set<ApprovalId>, value: Execution): Execution {
    if value.approval.Some? && value.approval.value in l.approvals && value.approval.value in rows
       && Cancellable(l.approvals[value.approval.value], task)
    then value.(status := Cancelled) else value
  }

  // ------------------------------------------------------ what each transaction decides

  /** The owner, step, tool and arguments that make an intent what it is. */
  predicate SameIntent(c: Context, tool: Tool, arguments: Arguments, c': Context, tool': Tool, arguments': Arguments) {
    && c.task == c'.task && (c.task.None? ==> c.run == c'.run) && c.step == c'.step && tool == tool' && arguments == arguments'
  }

  /** Two intents share a key exactly if they are the same; reads and native calls never share one. */
  lemma KeysAreIntents(
    c: Context, tool: Tool, arguments: Arguments, c': Context, tool': Tool, arguments': Arguments, needs: bool, m: nat, n: nat)
    requires m != n
    ensures KeyOf(tool, arguments, c, needs, m) == KeyOf(tool', arguments', c', needs, n)
            <==> SameIntent(c, tool, arguments, c', tool', arguments') && (needs || !(tool.operation.Read? || tool.native))
  {
  }

  /**
   A request raises exactly for a new sensitive intent without a task step. A known intent is
   found unchanged; a new one is recorded with its own tool and arguments, waiting for its own
   pending approval exactly if it needs one.
   */
  lemma RequestingExactly(l: Ledger, tool: Tool, arguments: Arguments, c: Context, needs: bool)
    requires Consistent(l)
    ensures var (l', r) := Requesting(l, tool, arguments, c, needs);
            var known := KeyOf(tool, arguments, c, needs, l.nextId) in l.index;
            && (r.Err? <==> !known && needs && (c.task.None? || c.step.None?))
            && (known || r.Err? ==> l' == l)
            && (r.Ok? ==>
                  && r.value in l'.executions && l'.executions[r.value].key.tool == tool && l'.executions[r.value].key.arguments == arguments)
            && (r.Ok? && !known ==>
                  var e := l'.executions[r.value];
                  && r.value !in l.executions && l'.executions == l.executions[r.value := e]
                  && e.task == c.task && e.arguments == arguments
                  && (if needs
                      then e.status.WaitingApproval? && e.approval.Some? && e.approval.value !in l.approvals
                           && l'.approvals == l.approvals[e.approval.value := l'.approvals[e.approval.value]]
                           && var a := l'.approvals[e.approval.value];
                              a.status.Pending? && !a.consumed && a.tool == tool && a.arguments == arguments && Some(a.task) == c.task
                      else e.status.Requested? && e.approval.None? && l'.approvals == l.approvals))
  {
    KnownIds(l);
    var key := KeyOf(tool, arguments, c, needs, l.nextId);
    if key in l.index { assert KeyOk(l, key); }
  }

  /** The answers that a row accepts. */
  predicate Acceptable(policy: Policy, a: Approval, verdict: Verdict) {
    && a.status.Pending? && !a.consumed
    && match verdict
       case Reject => true
       case Approve => policy.accepts(a.tool, a.arguments)
       case Edit(edits) => edits != map[] && edits.Keys <= {Title, Body} && policy.accepts(a.tool, a.arguments + edits)
       case Invalid => false
  }

  /**
   A decision succeeds exactly for an open approval and an acceptable answer. Rejecting
   declines it, approving approves it as requested, and editing binds the requested arguments
   with the edits; nothing else changes.
   */
  lemma DecidingExactly(l: Ledger, policy: Policy, id: ApprovalId, verdict: Verdict)
    requires Consistent(l)
    ensures var (l', r) := Deciding(l, policy, id, verdict);
            && (r.Ok? <==> id in l.approvals && Acceptable(policy, l.approvals[id], verdict))
            && (r.Err? ==> l' == l)
            && (r.Ok? ==>
                  var a, a' := l.approvals[id], l'.approvals[id];
                  && l' == l.(approvals := l.approvals[id := a'])
                  && a'.status == (match verdict case Reject => Declined case Approve => Approved case _ => Edited)
                  && a'.Effective() == (if verdict.Edit? then a.arguments + verdict.edits else a.arguments)
                  && a' == a.(status := a'.status, edited := a'.edited) && r.value == a')
  {
    if id in l.approvals {
      ApprovalIsCoupled(l, id);
      if verdict.Edit? && verdict.edits != map[] {
        var x :| x in verdict.edits;
        assert x in l.approvals[id].arguments + verdict.edits;
        assert verdict.edits.Keys - {Title, Body} == {} <==> verdict.edits.Keys <= {Title, Body};
      }
    }
  }

  /** An intent that may run when it is claimed: it needs no approval, or has an unused positive one. */
  predicate Claimable(l: Ledger, id: ExecutionId) {
    && id in l.executions
    && match l.executions[id].approval
       case None => l.executions[id].status.Requested?
       case Some(a) =>
         && l.executions[id].status.WaitingApproval? && a in l.approvals && !l.approvals[a].consumed
         && (l.approvals[a].status.Approved? || l.approvals[a].status.Edited?)
  }

  /**
   A claim is granted exactly for an intent that may run, with the arguments last decided;
   it consumes the approval and changes nothing else. A declined intent is rejected, a
   finished one is replayed as it is, and everything else raises.
   */
  lemma ClaimingExactly(l: Ledger, id: ExecutionId)
    requires Consistent(l) && id in l.executions
    ensures var (l', r) := Claiming(l, id);
            var e := l.executions[id];
            && (r.Ok? && r.value.Claimed? <==> Claimable(l, id))
            && (Claimable(l, id) ==>
                  && l'.executions == l.executions[id := l'.executions[id]]
                  && l'.executions[id].status.Running? && l'.executions[id].key == e.key && l'.executions[id].approval == e.approval
                  && r.value.arguments == l'.executions[id].arguments
                  && l'.executions[id].arguments == (if e.approval.Some? then l.approvals[e.approval.value].Effective() else e.arguments)
                  && l'.approvals == (if e.approval.Some?
                                      then l.approvals[e.approval.value := l.approvals[e.approval.value].(consumed := true)]
                                      else l.approvals))
            && (e.status.Succeeded? || e.status.Rejected? || e.status.Cancelled? ==> l' == l && r == Ok(Replayed(e.status)))
            && (e.status.Running? || e.status.Failed? ==> l' == l && r == Err(TaskConflict))
            && (e.status.WaitingApproval? ==>
                  && e.approval.Some? && e.approval.value in l.approvals
                  && (l.approvals[e.approval.value].status.Pending? ==> l' == l && r == Err(TaskConflict))
                  && (l.approvals[e.approval.value].status.Declined? ==>
                        r == Ok(Replayed(Rejected)) && l'.executions[id].status.Rejected? && l'.approvals[e.approval.value].consumed))
  {
    assert ExecutionOk(l, id);
  }

  /** Only a running execution finishes; afterwards claiming it replays the success or is refused for the failure. */
  lemma FinishingExactly(l: Ledger, id: ExecutionId, success: bool)
    ensures var (l', r) := Finishing(l, id, success);
            && (r.Ok? <==> id in l.executions && l.executions[id].status.Running?)
            && (r.Err? ==> l' == l)
            && (r.Ok? ==>
                  && id in l'.executions && l'.approvals == l.approvals && l'.index == l.index && l'.nextId == l.nextId
                  && l'.executions == l.executions[id := l'.executions[id]]
                  && l'.executions[id] == l.executions[id].(status := r.value)
                  && (r.value.Succeeded? || r.value.Failed?)
                  && Claiming(l', id) == (l', if success then Ok(Replayed(Succeeded)) else Err(TaskConflict)))
  {
  }

  /** Cancelling withdraws exactly the open approvals of the task, and cancels the executions of exactly those. */
  lemma CancellingExactly(l: Ledger, task: TaskId, a: ApprovalId)
    requires Consistent(l) && a in l.approvals
    ensures var l' := Cancelling(l, task);
            var open := l.approvals[a].task == task && !l.approvals[a].consumed && !l.approvals[a].status.Withdrawn?;
            var e := l.approvals[a].execution;
            && a in l'.approvals && l'.approvals[a] == (if open then l.approvals[a].(status := Withdrawn) else l.approvals[a])
            && e in l.executions && e in l'.executions
            && l'.executions[e] == (if open then l.executions[e].(status := Cancelled) else l.executions[e])
  {
    assert ApprovalOk(l, a) && ExecutionOk(l, l.approvals[a].execution);
  }

  lemma CancellingSpares(l: Ledger, task: TaskId, e: ExecutionId)
    requires Consistent(l) && e in l.executions && (l.executions[e].approval.None? || l.executions[e].task != Some(task))
    ensures e in Cancelling(l, task).executions && Cancelling(l, task).executions[e] == l.executions[e]
  {
    assert ExecutionOk(l, e);
  }

  // ---------------------------------------------- every transaction keeps the invariant

  /** `l'` holds one more execution, and its approval if it has one, under the next ids and a new key. */
  ghost predicate Inserted(l: Ledger, l': Ledger, key: IntentKey, value: Execution, approval: Option<Approval>) {
    && key !in l.index && value.key == key && l'.index == l.index[key := l.nextId]
    && l'.executions == l.executions[l.nextId := value]
    && (key.nonce.Some? ==> key.nonce.value == l.nextId)
    && match approval
       case None => l'.approvals == l.approvals && l'.nextId == l.nextId + 1 && Unapproved(value) && value.approval.None?
       case Some(a) =>
         && l'.approvals == l.approvals[l.nextId + 1 := a] && l'.nextId == l.nextId + 2
         && value.approval == Some(l.nextId + 1) && a.execution == l.nextId && Coupled(value, a)
  }

  lemma KnownIds(l: Ledger)
    requires Consistent(l)
    ensures forall e | e in l.executions :: e < l.nextId
    ensures forall a | a in l.approvals :: a < l.nextId
  {
    forall e | e in l.executions ensures e < l.nextId { assert ExecutionOk(l, e); }
    forall a | a in l.approvals ensures a < l.nextId { assert ApprovalOk(l, a); }
  }

  lemma InsertedExecution(l: Ledger, l': Ledger, key: IntentKey, value: Execution, approval: Option<Approval>, e: ExecutionId)
    requires Consistent(l) && Inserted(l, l', key, value, approval) && e in l'.executions
    ensures ExecutionOk(l', e)
  {
    KnownIds(l);
    if e in l.executions {
      assert ExecutionOk(l, e);
    }
  }

  lemma InsertedApproval(l: Ledger, l': Ledger, key: IntentKey, value: Execution, approval: Option<Approval>, a: ApprovalId)
    requires Consistent(l) && Inserted(l, l', key, value, approval) && a in l'.approvals
    ensures ApprovalOk(l', a)
  {
    KnownIds(l);
    if a in l.approvals {
      assert ApprovalOk(l, a);
    }
  }

  lemma InsertedKey(l: Ledger, l': Ledger, key: IntentKey, value: Execution, approval: Option<Approval>, k: IntentKey)
    requires Consistent(l) && Inserted(l, l', key, value, approval) && k in l'.index
    ensures KeyOk(l', k)
  {
    KnownIds(l);
    if k != key {
      assert KeyOk(l, k);
    }
  }

  lemma RequestKeepsConsistent(l: Ledger, tool: Tool, arguments: Arguments, context: Context, requiresApproval: bool)
    requires Consistent(l)
    ensures Consistent(Requesting(l, tool, arguments, context, requiresApproval).0)
  {
    var l' := Requesting(l, tool, arguments, context, requiresApproval).0;
    if l' != l {
      var key, value := KeyOf(tool, arguments, context, requiresApproval, l.nextId), l'.executions[l.nextId];
      var approval := if requiresApproval then Some(l'.approvals[l.nextId + 1]) else None;
      assert Inserted(l, l', key, value, approval);
      forall e | e in l'.executions ensures ExecutionOk(l', e) {
        InsertedExecution(l, l', key, value, approval, e);
      }
      forall a | a in l'.approvals ensures ApprovalOk(l', a) {
        InsertedApproval(l, l', key, value, approval, a);
      }
      forall k | k in l'.index ensures KeyOk(l', k) {
        InsertedKey(l, l', key, value, approval, k);
      }
    }
  }

  /** A decision keeps the coupling, changes only title or body, and leaves acceptable arguments. */
  lemma DecisionKeepsCoupling(e: Execution, policy: Policy, a: Approval, verdict: Verdict)
    requires Coupled(e, a)
    requires Decided(policy, a, verdict).Ok?
    ensures Coupled(e, Decided(policy, a, verdict).value)
    ensures OnlyTitleOrBodyDiffer(Decided(policy, a, verdict).value.Effective(), a.arguments)
    ensures !verdict.Reject? ==> policy.accepts(a.tool, Decided(policy, a, verdict).value.Effective())
  {
    if verdict.Edit? {
      assert verdict.edits.Keys <= {Title, Body};
      assert forall name :: Other(name) !in verdict.edits;
    }
  }

  lemma ApprovalIsCoupled(l: Ledger, id: ApprovalId)
    requires Consistent(l) && id in l.approvals
    ensures var e := l.approvals[id].execution; e in l.executions && Coupled(l.executions[e], l.approvals[id])
    ensures EditRecorded(l.approvals[id])
  {
    assert ApprovalOk(l, id) && ExecutionOk(l, l.approvals[id].execution);
  }

  lemma DecideKeepsConsistent(l: Ledger, policy: Policy, id: ApprovalId, verdict: Verdict)
    requires Consistent(l)
    ensures Consistent(Deciding(l, policy, id, verdict).0)
  {
    var (l', r) := Deciding(l, policy, id, verdict);
    if r.Ok? {
      assert ApprovalOk(l, id) && ExecutionOk(l, l.approvals[id].execution);
      DecisionKeepsCoupling(l.executions[l.approvals[id].execution], policy, l.approvals[id], verdict);
      forall e | e in l'.executions ensures ExecutionOk(l', e) { assert ExecutionOk(l, e); }
      forall a | a in l'.approvals ensures ApprovalOk(l', a) { assert ApprovalOk(l, a); }
      forall k | k in l'.index ensures KeyOk(l', k) { assert KeyOk(l, k); }
    }
  }

  /** Replacing one execution, and its own approval, by a coupled pair keeps the ledger consistent. */
  lemma ReplacePair(l: Ledger, e: ExecutionId, value: Execution, l': Ledger)
    requires Consistent(l) && e in l.executions
    requires value.key == l.executions[e].key && value.approval == l.executions[e].approval
    requires l'.index == l.index && l'.nextId == l.nextId && l'.executions == l.executions[e := value]
    requires match value.approval
             case None => l'.approvals == l.approvals && Unapproved(value)
             case Some(a) => && l'.approvals.Keys == l.approvals.Keys && a in l'.approvals
                             && (forall b | b in l.approvals && b != a :: l'.approvals[b] == l.approvals[b])
                             && l'.approvals[a].execution == e && Coupled(value, l'.approvals[a])
    ensures Consistent(l')
  {
    assert ExecutionOk(l, e);
    forall x | x in l'.executions ensures ExecutionOk(l', x) { assert ExecutionOk(l, x); }
    forall a | a in l'.approvals ensures ApprovalOk(l', a) { assert ApprovalOk(l, a); }
    forall k | k in l'.index ensures KeyOk(l', k) { assert KeyOk(l, k); }
  }

  lemma ClaimKeepsConsistent(l: Ledger, id: ExecutionId)
    requires Consistent(l)
    ensures Consistent(Claiming(l, id).0)
  {
    var l' := Claiming(l, id).0;
    if l' != l {
      assert ExecutionOk(l, id);
      ReplacePair(l, id, l'.executions[id], l');
    }
  }

  lemma FinishKeepsConsistent(l: Ledger, id: ExecutionId, success: bool)
    requires Consistent(l)
    ensures Consistent(Finishing(l, id, success).0)
  {
    var l' := Finishing(l, id, success).0;
    if l' != l {
      assert ExecutionOk(l, id);
      ReplacePair(l, id, l'.executions[id], l');
    }
  }

  lemma CancelPendingKeepsConsistent(l: Ledger, task: TaskId)
    requires Consistent(l)
    ensures Consistent(Cancelling(l, task))
  {
    var l' := Cancelling(l, task);
    forall e | e in l'.executions ensures ExecutionOk(l', e) { CancelKeepsCoupling(l, task, e); }
    forall a | a in l'.approvals ensures ApprovalOk(l', a) { assert ApprovalOk(l, a); }
    forall k | k in l'.index ensures KeyOk(l', k) { assert KeyOk(l, k); }
  }

  lemma CancelKeepsCoupling(l: Ledger, task: TaskId, e: ExecutionId)
    requires e in l.executions && ExecutionOk(l, e)
    ensures ExecutionOk(Cancelling(l, task), e)
  {
  }

  /** `cancel_pending` never touches an execution whose claim was granted: only waiting ones change. */
  lemma CancelTouchesOnlyWaiting(l: Ledger, task: TaskId, e: ExecutionId)
    requires Consistent(l) && e in l.executions
    ensures Cancelling(l, task).executions[e] in {l.executions[e], l.executions[e].(status := Cancelled)}
    ensures Cancelling(l, task).executions[e] != l.executions[e] ==> l.executions[e].status.WaitingApproval?
  {
    assert ExecutionOk(l, e);
  }

  /** Each approval belongs to one execution, which still waits while the approval is open. */
  ghost predicate Linked(l: Ledger) {
    && (forall a | a in l.approvals ::
          && l.approvals[a].execution in l.executions
          && l.executions[l.approvals[a].execution].approval == Some(a)
          && (Cancellable(l.approvals[a], l.approvals[a].task) ==> l.executions[l.approvals[a].execution].status.WaitingApproval?))
    && (forall e | e in l.executions && l.executions[e].approval.Some? && l.executions[e].approval.value in l.approvals ::
          l.approvals[l.executions[e].approval.value].execution == e)
  }

  lemma ConsistentLinked(l: Ledger)
    requires Consistent(l)
    ensures Linked(l)
  {
    forall e | e in l.executions && l.executions[e].approval.Some?
      ensures l.executions[e].approval.value in l.approvals && l.approvals[l.executions[e].approval.value].execution == e
    {
      assert ExecutionOk(l, e);
    }
    forall a | a in l.approvals
      ensures && l.approvals[a].execution in l.executions
              && l.executions[l.approvals[a].execution].approval == Some(a)
              && (Cancellable(l.approvals[a], l.approvals[a].task) ==>
                    l.executions[l.approvals[a].execution].status.WaitingApproval?)
    {
      assert ApprovalOk(l, a) && ExecutionOk(l, l.approvals[a].execution);
    }
  }

  /** The writes of one iteration of the loop in `cancel_pending`. */
  function Withdrawing(l: Ledger, id: ApprovalId): Ledger
    requires id in l.approvals && l.approvals[id].execution in l.executions
  {
    var e := l.approvals[id].execution;
    l.(approvals := l.approvals[id := l.approvals[id].(status := Withdrawn)],
       executions := if l.executions[e].status.Running? then l.executions
                     else l.executions[e := l.executions[e].(status := Cancelled)])
  }

  /** One iteration of the loop in `cancel_pending`. */
  lemma CancelOneRow(l: Ledger, task: TaskId, done: set<ApprovalId>, id: ApprovalId)
    requires Linked(l) && id in l.approvals && id !in done
    ensures
      var m, m', e := CancellingAmong(l, task, done), CancellingAmong(l, task, done + {id}), l.approvals[id].execution;
      && m.approvals[id] == l.approvals[id] && e in m.executions
      && m' == if Cancellable(l.approvals[id], task) then Withdrawing(m, id) else m
  {
    var m, m', e := CancellingAmong(l, task, done), CancellingAmong(l, task, done + {id}), l.approvals[id].execution;
    if Cancellable(l.approvals[id], task) {
      assert m'.approvals == m.approvals[id := l.approvals[id].(status := Withdrawn)];
      assert m'.executions == m.executions[e := m.executions[e].(status := Cancelled)];
    } else {
      assert m'.approvals == m.approvals;
      assert m'.executions == m.executions;
    }
  }

  lemma CancelNothing(l: Ledger, task: TaskId)
    ensures CancellingAmong(l, task, {}) == l
  {
    assert CancellingAmong(l, task, {}).approvals == l.approvals;
    assert CancellingAmong(l, task, {}).executions == l.executions;
  }

  lemma CancelOthersUntouched(l: Ledger, task: TaskId, done: set<ApprovalId>)
    requires forall a | a in l.approvals && a !in done :: l.approvals[a].task != task
    ensures CancellingAmong(l, task, done) == Cancelling(l, task)
  {
    assert CancellingAmong(l, task, done).approvals == Cancelling(l, task).approvals;
    assert CancellingAmong(l, task, done).executions == Cancelling(l, task).executions;
  }

  // ------------------------------------------------------------------- store

  /** The two tables and the unique index on the intent key. */
  class ToolActionStore {
    var executions: map<ExecutionId, Execution>
    var approvals: map<ApprovalId, Approval>
    var index: map<IntentKey, ExecutionId>
    var nextId: nat

    ghost function State(): Ledger
      reads this
    {
      Ledger(executions, approvals, index, nextId)
    }

    constructor ()
      ensures State() == EMPTY && Consistent(State())
    {
      executions, approvals, index, nextId := map[], map[], map[], 0;
    }

    method Identity() returns (id: nat)
      modifies this`nextId
      ensures id == old(nextId) && nextId == id + 1
    {
      id := nextId;
      nextId := nextId + 1;
    }

    method Request(tool: Tool, arguments: Arguments, context: Context, requiresApproval: bool)
      returns (r: Result<ExecutionId>)
      modifies this
      ensures (State(), r) == Requesting(old(State()), tool, arguments, context, requiresApproval)
    {
      var key := KeyOf(tool, arguments, context, requiresApproval, nextId);
      if key in index {
        return Ok(index[key]);
      }
      if requiresApproval && (context.task.None? || context.step.None?) {
        return Err(TaskConflict);
      }
      var id := Identity();
      var value := Execution(key, context.task, arguments, None, None, Requested);
      index := index[key := id];
      executions := executions[id := value];
      if requiresApproval {
        var approvalId := Identity();
        var approval := Approval(context.task.value, tool, arguments, Pending, None, false, id);
        approvals := approvals[approvalId := approval];
        value := value.(approval := Some(approvalId), status := WaitingApproval);
        executions := executions[id := value];
        assert executions == old(executions)[id := value];
      }
      return Ok(id);
    }

    method Decide(policy: Policy, id: ApprovalId, verdict: Verdict) returns (r: Result<Approval>)
      modifies this`approvals
      ensures (State(), r) == Deciding(old(State()), policy, id, verdict)
    {
      if id !in approvals {
        return Err(RecordNotFound);
      }
      var approval := approvals[id];
      if !approval.status.Pending? || approval.consumed {
        return Err(TaskConflict);
      }
      var arguments := approval.arguments;
      match verdict {
        case Invalid =>
          return Err(ValueError);
        case Edit(edits) =>
          if edits == map[] || edits.Keys - {Title, Body} != {} {
            return Err(ValueError);
          }
          arguments := arguments + edits;
          if !policy.accepts(approval.tool, arguments) {
            return Err(ValueError);
          }
          approval := approval.(edited := Some(arguments), status := Edited);
        case Approve =>
          if !policy.accepts(approval.tool, arguments) {
            return Err(ValueError);
          }
          approval := approval.(status := Approved);
        case Reject =>
          approval := approval.(status := Declined);
      }
      approvals := approvals[id := approval];
      return Ok(approval);
    }

    method Claim(id: ExecutionId) returns (r: Result<ClaimResult>)
      modifies this`executions, this`approvals
      ensures (State(), r) == Claiming(old(State()), id)
    {
      if id !in executions {
        return Err(RecordNotFound);
      }
      var value := executions[id];
      if value.status.Succeeded? || value.status.Rejected? || value.status.Cancelled? {
        return Ok(Replayed(value.status));
      }
      if value.status.Running? || value.status.Failed? {
        return Err(TaskConflict);
      }
      if value.approval.Some? {
        if value.approval.value !in approvals {
          return Err(RecordNotFound);
        }
        var approval := approvals[value.approval.value];
        if approval.consumed || approval.status.Pending? || !approval.Decided() {
          return Err(TaskConflict);
        }
        approval := approval.(consumed := true);
        if approval.edited.Some? && approval.edited.value != map[] {
          value := value.(requestedArguments := Some(value.arguments), arguments := approval.edited.value);
        }
        approvals := approvals[value.approval.value := approval];
        if approval.status.Declined? {
          value := value.(status := Rejected);
          executions := executions[id := value];
          return Ok(Replayed(Rejected));
        }
      }
      value := value.(status := Running);
      executions := executions[id := value];
      return Ok(Claimed(value.arguments));
    }

    method Finish(id: ExecutionId, success: bool) returns (r: Result<ExecutionStatus>)
      modifies this`executions
      ensures (State(), r) == Finishing(old(State()), id, success)
    {
      if id !in executions {
        return Err(RecordNotFound);
      }
      var value := executions[id];
      if !value.status.Running? {
        return Err(TaskConflict);
      }
      value := value.(status := if success then Succeeded else Failed);
      executions := executions[id := value];
      return Ok(value.status);
    }

    method Withdraw(id: ApprovalId)
      requires id in approvals && approvals[id].execution in executions
      modifies this`executions, this`approvals
      ensures State() == Withdrawing(old(State()), id)
    {
      var approval := approvals[id];
      approvals := approvals[id := approval.(status := Withdrawn)];
      var value := executions[approval.execution];
      if !value.status.Running? {
        executions := executions[approval.execution := value.(status := Cancelled)];
      }
    }

    method CancelPending(task: TaskId)
      requires Linked(State())
      modifies this`executions, this`approvals
      ensures State() == Cancelling(old(State()), task)
    {
      ghost var l, done := State(), {};
      var rows := set a | a in approvals && approvals[a].task == task;
      CancelNothing(l, task);
      while rows != {}
        invariant rows !! done && rows <= l.approvals.Keys
        invariant forall a | a in l.approvals && l.approvals[a].task == task :: a in rows || a in done
        invariant forall a | a in rows :: l.approvals[a].task == task
        invariant State() == CancellingAmong(l, task, done)
      {
        var id :| id in rows;
        CancelOneRow(l, task, done, id);
        rows := rows - {id};
        if !approvals[id].consumed && (approvals[id].status.Pending? || approvals[id].Decided()) {
          Withdraw(id);
        }
        done := done + {id};
      }
      CancelOthersUntouched(l, task, done);
    }
  }
}
