/**
 What holds in every reachable state of the durable side-effect protocol, and on every
 continuation of it: one call per intent, one decision per call, and unknown outcomes that stay.
 */
module ProtocolTheorems {
  import opened Wrappers
  import T = ToolActions
  import opened Protocol

  lemma {:induction false} RunKeepsSafe(policy: T.Policy, a: Actions, steps: seq<Step>)
    requires Safe(policy, a)
    ensures Safe(policy, Run(policy, a, steps))
    decreases |steps|
  {
    if steps != [] {
      NextKeepsSafe(policy, a, steps[0]);
      RunKeepsSafe(policy, Next(policy, a, steps[0]), steps[1..]);
    }
  }

  /** In every reachable state the approvals of a task may be cancelled in any order. */
  lemma ReachableLinked(policy: T.Policy, steps: seq<Step>)
    ensures T.Linked(Run(policy, NO_ACTIONS, steps).ledger)
  {
    RunKeepsSafe(policy, NO_ACTIONS, steps);
    T.ConsistentLinked(Run(policy, NO_ACTIONS, steps).ledger);
  }

  /** Two calls for one intent: the same task or run, step, tool and requested arguments. */
  predicate SameIntent(c: Call, d: Call) {
    T.SameIntent(c.intent.context, c.intent.tool, c.intent.arguments, d.intent.context, d.intent.tool, d.intent.arguments)
  }

  /** At most one provider call per execution, and at most one per durable intent, on every run. */
  lemma AtMostOneCall(policy: T.Policy, steps: seq<Step>)
    ensures
      var calls := Run(policy, NO_ACTIONS, steps).calls;
      forall i, j | 0 <= i < j < |calls| ::
        && calls[i].execution != calls[j].execution
        && (Durable(policy, calls[i].intent.tool) ==> !SameIntent(calls[i], calls[j]))
  {
    var a := Run(policy, NO_ACTIONS, steps);
    RunKeepsSafe(policy, NO_ACTIONS, steps);
    forall i, j | 0 <= i < j < |a.calls| && Durable(policy, a.calls[i].intent.tool)
      ensures !SameIntent(a.calls[i], a.calls[j])
    {
      var c, d := a.calls[i], a.calls[j];
      assert CallOk(policy, a.ledger, c) && CallOk(policy, a.ledger, d);
      assert T.ExecutionOk(a.ledger, c.execution) && T.ExecutionOk(a.ledger, d.execution);
      T.KeysAreIntents(c.intent.context, c.intent.tool, c.intent.arguments, d.intent.context, d.intent.tool, d.intent.arguments, true, 0, 1);
    }
  }

  /** The arguments a human let through: as requested, or with the edits merged in. */
  function Allowed(verdict: T.Verdict, requested: T.Arguments): Option<T.Arguments> {
    match verdict
    case Approve => Some(requested)
    case Edit(edits) => if edits.Keys <= {T.Title, T.Body} then Some(requested + edits) else None
    case Reject => None
    case Invalid => None
  }

  /** `k` is the one answer a human gave to the approval of this execution, and it lets exactly these arguments through. */
  ghost predicate AuthorizedBy(a: Actions, execution: T.ExecutionId, requested: T.Arguments, arguments: T.Arguments, k: nat)
    requires k < |a.decisions|
  {
    && execution in a.ledger.executions
    && a.ledger.executions[execution].approval == Some(a.decisions[k].approval)
    && Allowed(a.decisions[k].verdict, requested) == Some(arguments)
    && (forall m | 0 <= m < |a.decisions| && a.decisions[m].approval == a.decisions[k].approval :: m == k)
  }

  /** A granted sensitive execution rests on the one answer of a human. */
  lemma GrantIsAuthorized(policy: T.Policy, a: Actions, e: T.ExecutionId) returns (k: nat)
    requires Safe(policy, a) && e in a.ledger.executions && a.ledger.executions[e].Granted() && a.ledger.executions[e].approval.Some?
    ensures k < |a.decisions| && AuthorizedBy(a, e, a.ledger.executions[e].key.arguments, a.ledger.executions[e].arguments, k)
  {
    assert T.ExecutionOk(a.ledger, e);
    var id := a.ledger.executions[e].approval.value;
    assert Recorded(a.decisions, id, a.ledger.approvals[id]);
    k :| 0 <= k < |a.decisions| && a.decisions[k].approval == id && Answers(a.decisions[k], a.ledger.approvals[id]);
  }

  /**
   Every call of a sensitive tool rests on the one answer a human gave to its approval, which
   it consumed: the human approved, and the call carries the requested arguments, or edited,
   and it carries these with the edits; and no other call uses that approval.
   */
  lemma CallsAreAuthorized(policy: T.Policy, steps: seq<Step>, i: nat)
    requires i < |Run(policy, NO_ACTIONS, steps).calls|
    requires policy.requiresApproval(Run(policy, NO_ACTIONS, steps).calls[i].intent.tool)
    ensures
      var a := Run(policy, NO_ACTIONS, steps);
      var c := a.calls[i];
      && (exists k: nat | k < |a.decisions| :: AuthorizedBy(a, c.execution, c.intent.arguments, c.arguments, k))
      && c.execution in a.ledger.executions && a.ledger.executions[c.execution].approval.Some?
      && var id := a.ledger.executions[c.execution].approval.value;
         && id in a.ledger.approvals && a.ledger.approvals[id].consumed
         && policy.accepts(c.intent.tool, c.arguments)
         && (forall j | 0 <= j < |a.calls| && a.calls[j].execution in a.ledger.executions
                        && a.ledger.executions[a.calls[j].execution].approval == Some(id) :: j == i)
  {
    var a := Run(policy, NO_ACTIONS, steps);
    RunKeepsSafe(policy, NO_ACTIONS, steps);
    var c := a.calls[i];
    assert CallOk(policy, a.ledger, c) && T.ExecutionOk(a.ledger, c.execution);
    assert a.ledger.executions[c.execution].key.tool == c.intent.tool;
    var id := a.ledger.executions[c.execution].approval.value;
    var k := GrantIsAuthorized(policy, a, c.execution);
    forall j | 0 <= j < |a.calls| && a.calls[j].execution in a.ledger.executions
               && a.ledger.executions[a.calls[j].execution].approval == Some(id)
      ensures j == i
    {
      OneApprovalPerExecution(a.ledger, c.execution, a.calls[j].execution);
    }
  }

  lemma OneApprovalPerExecution(l: T.Ledger, e: T.ExecutionId, f: T.ExecutionId)
    requires T.Consistent(l) && e in l.executions && f in l.executions
    requires l.executions[e].approval.Some? && l.executions[f].approval == l.executions[e].approval
    ensures e == f
  {
    assert T.ExecutionOk(l, e) && T.ExecutionOk(l, f);
  }

  /** Arguments are checked against the policy before they are claimed. */
  ghost predicate ClaimsAccepted(policy: T.Policy, a: Actions) {
    forall p | p in a.processes && a.processes[p].Claimed? ::
      policy.accepts(a.processes[p].intent.tool, a.processes[p].arguments)
  }

  lemma NextKeepsAccepted(policy: T.Policy, a: Actions, step: Step)
    requires ClaimsAccepted(policy, a)
    ensures ClaimsAccepted(policy, Next(policy, a, step))
  {
  }

  lemma {:induction false} RunKeepsAccepted(policy: T.Policy, a: Actions, steps: seq<Step>)
    requires ClaimsAccepted(policy, a)
    ensures ClaimsAccepted(policy, Run(policy, a, steps))
    decreases |steps|
  {
    if steps != [] {
      NextKeepsAccepted(policy, a, steps[0]);
      RunKeepsAccepted(policy, Next(policy, a, steps[0]), steps[1..]);
    }
  }

  /** The guard in front of the provider never refuses a process that holds its claim. */
  lemma GuardAgreesWithClaim(policy: T.Policy, steps: seq<Step>, pid: Pid)
    requires pid in Run(policy, NO_ACTIONS, steps).processes && Run(policy, NO_ACTIONS, steps).processes[pid].Claimed?
    ensures
      var a := Run(policy, NO_ACTIONS, steps);
      var p := a.processes[pid];
      Guard(policy, a.ledger, p.intent.tool, p.arguments, p.execution)
  {
    RunKeepsAccepted(policy, NO_ACTIONS, steps);
    var a := Run(policy, NO_ACTIONS, steps);
    RunKeepsSafe(policy, NO_ACTIONS, steps);
    var p := a.processes[pid];
    assert ProcessOk(a.ledger, p) && T.ExecutionOk(a.ledger, p.execution);
    assert a.ledger.executions[p.execution].key.tool == p.intent.tool;
  }

  /**
   Whoever holds the claim, the guard lets a sensitive call through only under a running
   execution of that tool, with exactly the arguments that a human let through.
   */
  lemma GuardMeansAuthorized(policy: T.Policy, steps: seq<Step>, tool: T.Tool, arguments: T.Arguments, e: T.ExecutionId)
    requires policy.requiresApproval(tool) && Guard(policy, Run(policy, NO_ACTIONS, steps).ledger, tool, arguments, e)
    ensures
      var a := Run(policy, NO_ACTIONS, steps);
      && policy.accepts(tool, arguments)
      && e in a.ledger.executions && a.ledger.executions[e].status.Running? && a.ledger.executions[e].key.tool == tool
      && exists k: nat | k < |a.decisions| :: AuthorizedBy(a, e, a.ledger.executions[e].key.arguments, arguments, k)
  {
    RunKeepsSafe(policy, NO_ACTIONS, steps);
    var k := GrantIsAuthorized(policy, Run(policy, NO_ACTIONS, steps), e);
  }

  // --------------------------------------------------------------- rejections stay

  /** The approval was rejected, or cancelled after that. */
  ghost predicate Refused(l: T.Ledger, id: T.ApprovalId, e: T.ExecutionId) {
    id in l.approvals && l.approvals[id].execution == e && (l.approvals[id].status.Declined? || l.approvals[id].status.Withdrawn?)
  }

  lemma EvolvesItself(l: T.Ledger)
    ensures Evolves(l, l)
  {
  }

  lemma StartEvolves(policy: T.Policy, a: Actions, pid: Pid, intent: Intent)
    requires Safe(policy, a)
    ensures Evolves(a.ledger, StartStep(policy, a, pid, intent).ledger)
  {
    EvolvesItself(a.ledger);
    RequestEvolves(a.ledger, intent.tool, intent.arguments, intent.context, policy.requiresApproval(intent.tool));
  }

  lemma ClaimStepEvolves(policy: T.Policy, a: Actions, pid: Pid)
    ensures Evolves(a.ledger, ClaimStep(policy, a, pid).ledger)
  {
    EvolvesItself(a.ledger);
    if pid in a.processes { ClaimEvolves(a.ledger, a.processes[pid].execution); }
  }

  lemma FinishStepEvolves(a: Actions, pid: Pid)
    ensures Evolves(a.ledger, FinishStep(a, pid).ledger)
  {
    EvolvesItself(a.ledger);
    if pid in a.processes && a.processes[pid].Returned? {
      FinishEvolves(a.ledger, a.processes[pid].execution, a.processes[pid].success);
    }
  }

  lemma NextEvolves(policy: T.Policy, a: Actions, step: Step)
    requires Safe(policy, a)
    ensures Evolves(a.ledger, Next(policy, a, step).ledger)
  {
    EvolvesItself(a.ledger);
    match step
    case Start(pid, intent) => StartEvolves(policy, a, pid, intent);
    case Claim(pid) => ClaimStepEvolves(policy, a, pid);
    case Finish(pid) => FinishStepEvolves(a, pid);
    case Decide(approval, verdict) => DecideEvolves(a.ledger, policy, approval, verdict);
    case CancelPending(task) => CancelEvolves(a.ledger, task);
    case Review(_) =>
    case Resume(_, _) =>
    case CallProvider(_, _, _) =>
    case Crash(_) =>
  }

  lemma {:induction false} RunKeepsRefused(policy: T.Policy, a: Actions, steps: seq<Step>, id: T.ApprovalId, e: T.ExecutionId)
    requires Safe(policy, a) && Refused(a.ledger, id, e)
    ensures Safe(policy, Run(policy, a, steps)) && Refused(Run(policy, a, steps).ledger, id, e)
    decreases |steps|
  {
    if steps != [] {
      NextKeepsSafe(policy, a, steps[0]);
      NextEvolves(policy, a, steps[0]);
      assert ApprovalMoves(a.ledger, Next(policy, a, steps[0]).ledger, id);
      RunKeepsRefused(policy, Next(policy, a, steps[0]), steps[1..], id, e);
    }
  }

  lemma RefusedUncalled(policy: T.Policy, a: Actions, id: T.ApprovalId, e: T.ExecutionId)
    requires Safe(policy, a) && Refused(a.ledger, id, e)
    ensures forall i | 0 <= i < |a.calls| :: a.calls[i].execution != e
  {
    T.ApprovalIsCoupled(a.ledger, id);
    forall i | 0 <= i < |a.calls| ensures a.calls[i].execution != e {
      assert CallOk(policy, a.ledger, a.calls[i]);
    }
  }

  /** After a human has rejected, no call was made and none will ever be made under that execution. */
  lemma RejectedNeverCalled(policy: T.Policy, before: seq<Step>, id: T.ApprovalId, after: seq<Step>)
    requires T.Deciding(Run(policy, NO_ACTIONS, before).ledger, policy, id, T.Reject).1.Ok?
    ensures var a := Run(policy, NO_ACTIONS, before);
            var calls := Run(policy, Next(policy, a, Decide(id, T.Reject)), after).calls;
            id in a.ledger.approvals && forall i | 0 <= i < |calls| :: calls[i].execution != a.ledger.approvals[id].execution
  {
    var a := Run(policy, NO_ACTIONS, before);
    RunKeepsSafe(policy, NO_ACTIONS, before);
    RejectionLasts(policy, a, id, after);
  }

  lemma RejectionLasts(policy: T.Policy, a: Actions, id: T.ApprovalId, after: seq<Step>)
    requires Safe(policy, a) && T.Deciding(a.ledger, policy, id, T.Reject).1.Ok?
    ensures var calls := Run(policy, Next(policy, a, Decide(id, T.Reject)), after).calls;
            id in a.ledger.approvals && forall i | 0 <= i < |calls| :: calls[i].execution != a.ledger.approvals[id].execution
  {
    var a' := Next(policy, a, Decide(id, T.Reject));
    T.DecidingExactly(a.ledger, policy, id, T.Reject);
    NextKeepsSafe(policy, a, Decide(id, T.Reject));
    RunKeepsRefused(policy, a', after, id, a.ledger.approvals[id].execution);
    RefusedUncalled(policy, Run(policy, a', after), id, a.ledger.approvals[id].execution);
  }

  // ---------------------------------------------------------- approvals are carried out

  /** A new sensitive intent of a task step that the policy accepts. */
  predicate NewIntent(policy: T.Policy, a: Actions, pid: Pid, intent: Intent) {
    && pid !in a.processes && policy.requiresApproval(intent.tool) && policy.accepts(intent.tool, intent.arguments)
    && intent.context.task.Some? && intent.context.step.Some?
    && T.KeyOf(intent.tool, intent.arguments, intent.context, true, a.ledger.nextId) !in a.ledger.index
  }

  lemma IntentStarted(policy: T.Policy, a: Actions, pid: Pid, intent: Intent) returns (b: Actions)
    requires Safe(policy, a) && NewIntent(policy, a, pid, intent)
    ensures b == Next(policy, a, Start(pid, intent)) && Safe(policy, b) && b.calls == a.calls
    ensures pid in b.processes && b.processes[pid].Requested? && b.processes[pid].intent == intent
    ensures var e := b.processes[pid].execution;
            && e in b.ledger.executions && b.ledger.executions[e].status.WaitingApproval?
            && b.ledger.executions[e].approval.Some? && b.ledger.executions[e].approval.value in b.ledger.approvals
            && var approval := b.ledger.approvals[b.ledger.executions[e].approval.value];
               approval.status.Pending? && !approval.consumed && approval.tool == intent.tool && approval.arguments == intent.arguments
  {
    T.RequestingExactly(a.ledger, intent.tool, intent.arguments, intent.context, true);
    b := Next(policy, a, Start(pid, intent));
    NextKeepsSafe(policy, a, Start(pid, intent));
  }

  /** Process `pid` after a new intent was requested and decided. */
  lemma IntentDecided(policy: T.Policy, a: Actions, pid: Pid, intent: Intent, verdict: T.Verdict)
    returns (e: T.ExecutionId, id: T.ApprovalId, b: Actions)
    requires Safe(policy, a) && NewIntent(policy, a, pid, intent)
    requires Allowed(verdict, intent.arguments).Some? && policy.accepts(intent.tool, Allowed(verdict, intent.arguments).value)
    requires verdict.Edit? ==> verdict.edits != map[]
    ensures b == Next(policy, Next(policy, a, Start(pid, intent)), Decide(id, verdict)) && Safe(policy, b) && b.calls == a.calls
    ensures pid in b.processes && b.processes[pid] == Requested(intent, e)
    ensures e in b.ledger.executions && b.ledger.executions[e].status.WaitingApproval? && b.ledger.executions[e].approval == Some(id)
    ensures id in b.ledger.approvals && !b.ledger.approvals[id].consumed && !b.ledger.approvals[id].status.Pending?
    ensures b.ledger.approvals[id].Effective() == Allowed(verdict, intent.arguments).value && T.Claimable(b.ledger, e)
  {
    var started := IntentStarted(policy, a, pid, intent);
    e := started.processes[pid].execution;
    id := started.ledger.executions[e].approval.value;
    b := Next(policy, started, Decide(id, verdict));
    NextKeepsSafe(policy, started, Decide(id, verdict));
    AnswerGiven(policy, started, e, id, intent, verdict);
  }

  /** A positive answer lets through its arguments and changes nothing else. */
  lemma AnswerGiven(policy: T.Policy, a: Actions, e: T.ExecutionId, id: T.ApprovalId, intent: Intent, verdict: T.Verdict)
    requires T.Consistent(a.ledger) && e in a.ledger.executions && a.ledger.executions[e].status.WaitingApproval?
    requires a.ledger.executions[e].approval == Some(id) && id in a.ledger.approvals
    requires var approval := a.ledger.approvals[id];
             approval.status.Pending? && !approval.consumed && approval.tool == intent.tool && approval.arguments == intent.arguments
    requires Allowed(verdict, intent.arguments).Some? && policy.accepts(intent.tool, Allowed(verdict, intent.arguments).value)
    requires verdict.Edit? ==> verdict.edits != map[]
    ensures var b := Next(policy, a, Decide(id, verdict));
            && b.calls == a.calls && b.processes == a.processes && b.ledger.executions == a.ledger.executions
            && id in b.ledger.approvals && !b.ledger.approvals[id].consumed && !b.ledger.approvals[id].status.Pending?
            && b.ledger.approvals[id].Effective() == Allowed(verdict, intent.arguments).value && T.Claimable(b.ledger, e)
  {
    T.DecidingExactly(a.ledger, policy, id, verdict);
  }

  /** What is decided positively can be resumed, claimed and called. */
  lemma DecidedIsCalled(policy: T.Policy, b: Actions, pid: Pid, intent: Intent, e: T.ExecutionId, id: T.ApprovalId, arguments: T.Arguments)
    returns (d: Actions)
    requires Safe(policy, b) && pid in b.processes && b.processes[pid] == Requested(intent, e)
    requires T.Claimable(b.ledger, e) && b.ledger.executions[e].approval == Some(id) && b.ledger.approvals[id].Effective() == arguments
    requires policy.accepts(intent.tool, arguments)
    ensures var c := Next(policy, Next(policy, b, Review(pid)), Resume(pid, id));
            d == Next(policy, c, Claim(pid)) && Safe(policy, d) && d.calls == b.calls
    ensures pid in d.processes && d.processes[pid] == Claimed(intent, e, arguments)
  {
    var reviewed := Next(policy, b, Review(pid));
    var resumed := Next(policy, reviewed, Resume(pid, id));
    assert resumed.processes[pid] == Ready(intent, e, arguments) && resumed.ledger == b.ledger;
    NextKeepsSafe(policy, b, Review(pid));
    NextKeepsSafe(policy, reviewed, Resume(pid, id));
    T.ClaimingExactly(b.ledger, e);
    d := Next(policy, resumed, Claim(pid));
    NextKeepsSafe(policy, resumed, Claim(pid));
  }

  /**
   An approved or edited intent is carried out: after the request and the answer, review,
   resumption, claim and call in a row make exactly one call, with the arguments let through,
   and finishing records how it went.
   */
  lemma ApprovedIsCalled(policy: T.Policy, before: seq<Step>, pid: Pid, intent: Intent, verdict: T.Verdict, success: bool)
    returns (e: T.ExecutionId, id: T.ApprovalId)
    requires NewIntent(policy, Run(policy, NO_ACTIONS, before), pid, intent)
    requires Allowed(verdict, intent.arguments).Some? && policy.accepts(intent.tool, Allowed(verdict, intent.arguments).value)
    requires verdict.Edit? ==> verdict.edits != map[]
    ensures
      var a := Run(policy, NO_ACTIONS, before);
      var z := Run(policy, a, [Start(pid, intent), Decide(id, verdict), Review(pid), Resume(pid, id), Claim(pid),
                               CallProvider(pid, true, success), Finish(pid)]);
      && z.calls == a.calls + [Call(intent, e, Allowed(verdict, intent.arguments).value)]
      && e in z.ledger.executions && z.ledger.executions[e].status == if success then T.Succeeded else T.Failed
  {
    var a := Run(policy, NO_ACTIONS, before);
    RunKeepsSafe(policy, NO_ACTIONS, before);
    var b, d;
    e, id, b := IntentDecided(policy, a, pid, intent, verdict);
    d := DecidedIsCalled(policy, b, pid, intent, e, id, Allowed(verdict, intent.arguments).value);
    ClaimedIsCalled(policy, d, pid, success);
    SevenSteps(policy, a, Start(pid, intent), Decide(id, verdict), Review(pid), Resume(pid, id), Claim(pid),
               CallProvider(pid, true, success), Finish(pid));
  }

  /** A claim in hand makes its call and records the outcome. */
  lemma ClaimedIsCalled(policy: T.Policy, d: Actions, pid: Pid, success: bool)
    requires Safe(policy, d) && pid in d.processes && d.processes[pid].Claimed?
    requires policy.accepts(d.processes[pid].intent.tool, d.processes[pid].arguments)
    ensures var p := d.processes[pid];
            var z := Next(policy, Next(policy, d, CallProvider(pid, true, success)), Finish(pid));
            && z.calls == d.calls + [Call(p.intent, p.execution, p.arguments)]
            && p.execution in z.ledger.executions
            && z.ledger.executions[p.execution].status == if success then T.Succeeded else T.Failed
  {
    var p := d.processes[pid];
    assert ProcessOk(d.ledger, p) && T.ExecutionOk(d.ledger, p.execution);
    assert d.ledger.executions[p.execution].key.tool == p.intent.tool;
    assert Guard(policy, d.ledger, p.intent.tool, p.arguments, p.execution);
  }

  lemma RunFirst(policy: T.Policy, a: Actions, step: Step, rest: seq<Step>)
    ensures Run(policy, a, [step] + rest) == Run(policy, Next(policy, a, step), rest)
  {
    assert ([step] + rest)[1..] == rest;
  }

  lemma SevenSteps(policy: T.Policy, a: Actions, s1: Step, s2: Step, s3: Step, s4: Step, s5: Step, s6: Step, s7: Step)
    ensures var b := Next(policy, Next(policy, a, s1), s2);
            var d := Next(policy, Next(policy, Next(policy, b, s3), s4), s5);
            Run(policy, a, [s1, s2, s3, s4, s5, s6, s7]) == Next(policy, Next(policy, d, s6), s7)
  {
    var a1 := Next(policy, a, s1);
    var a2 := Next(policy, a1, s2);
    var a3 := Next(policy, a2, s3);
    var a4 := Next(policy, a3, s4);
    var a5 := Next(policy, a4, s5);
    RunFirst(policy, a, s1, [s2, s3, s4, s5, s6, s7]);
    RunFirst(policy, a1, s2, [s3, s4, s5, s6, s7]);
    RunFirst(policy, a2, s3, [s4, s5, s6, s7]);
    RunFirst(policy, a3, s4, [s5, s6, s7]);
    RunFirst(policy, a4, s5, [s6, s7]);
    RunFirst(policy, a5, s6, [s7]);
    RunFirst(policy, Next(policy, a5, s6), s7, []);
    assert [s7] + [] == [s7];
    assert [s1] + [s2, s3, s4, s5, s6, s7] == [s1, s2, s3, s4, s5, s6, s7];
  }

  // ----------------------------------------------------- unknown outcomes stay

  /** The claim of `e` was granted and no process can finish it any more: it failed, or its process is gone. */
  ghost predicate Stuck(a: Actions, e: T.ExecutionId) {
    && e in a.ledger.executions
    && (a.ledger.executions[e].status.Failed?
        || (a.ledger.executions[e].status.Running?
            && forall p | p in a.processes && a.processes[p].HoldsClaim() :: a.processes[p].execution != e))
  }

  lemma StuckUnclaimed(policy: T.Policy, a: Actions, e: T.ExecutionId)
    requires Safe(policy, a) && Stuck(a, e)
    ensures forall p | p in a.processes && a.processes[p].HoldsClaim() :: a.processes[p].execution != e
  {
    forall p | p in a.processes && a.processes[p].HoldsClaim() ensures a.processes[p].execution != e {
      assert ProcessOk(a.ledger, a.processes[p]);
    }
  }

  lemma RequestLeavesRow(l: T.Ledger, intent: Intent, requiresApproval: bool, e: T.ExecutionId)
    requires T.Consistent(l) && e in l.executions
    ensures var l' := T.Requesting(l, intent.tool, intent.arguments, intent.context, requiresApproval).0;
            e in l'.executions && l'.executions[e] == l.executions[e]
  {
    assert T.ExecutionOk(l, e);
  }

  lemma ClaimLeavesRow(l: T.Ledger, id: T.ExecutionId, e: T.ExecutionId)
    requires e in l.executions && (l.executions[e].status.Failed? || l.executions[e].status.Running?)
    ensures var l' := T.Claiming(l, id).0; e in l'.executions && l'.executions[e] == l.executions[e]
  {
  }

  lemma CancelLeavesRow(l: T.Ledger, task: T.TaskId, e: T.ExecutionId)
    requires T.Consistent(l) && e in l.executions && (l.executions[e].status.Failed? || l.executions[e].status.Running?)
    ensures var l' := T.Cancelling(l, task); e in l'.executions && l'.executions[e] == l.executions[e]
  {
    T.CancelTouchesOnlyWaiting(l, task, e);
  }

  lemma FinishLeavesRow(policy: T.Policy, a: Actions, pid: Pid, e: T.ExecutionId)
    requires Safe(policy, a) && Stuck(a, e)
    ensures var l' := FinishStep(a, pid).ledger; e in l'.executions && l'.executions[e] == a.ledger.executions[e]
  {
    StuckUnclaimed(policy, a, e);
  }

  lemma NextKeepsStuckRow(policy: T.Policy, a: Actions, step: Step, e: T.ExecutionId)
    requires Safe(policy, a) && Stuck(a, e)
    ensures e in Next(policy, a, step).ledger.executions
    ensures Next(policy, a, step).ledger.executions[e] == a.ledger.executions[e]
  {
    match step
    case Start(_, intent) => RequestLeavesRow(a.ledger, intent, policy.requiresApproval(intent.tool), e);
    case Claim(pid) => if pid in a.processes { ClaimLeavesRow(a.ledger, a.processes[pid].execution, e); }
    case Finish(pid) => FinishLeavesRow(policy, a, pid, e);
    case CancelPending(task) => CancelLeavesRow(a.ledger, task, e);
    case Review(_) =>
    case Resume(_, _) =>
    case CallProvider(_, _, _) =>
    case Crash(_) =>
    case Decide(_, _) =>
  }

  /** No step gives a process a claim of `e`. */
  lemma NextKeepsUnclaimed(policy: T.Policy, a: Actions, step: Step, e: T.ExecutionId)
    requires Safe(policy, a) && Stuck(a, e)
    ensures var a' := Next(policy, a, step);
            forall p | p in a'.processes && a'.processes[p].HoldsClaim() :: a'.processes[p].execution != e
  {
    StuckUnclaimed(policy, a, e);
  }

  lemma NextKeepsStuck(policy: T.Policy, a: Actions, step: Step, e: T.ExecutionId)
    requires Safe(policy, a) && Stuck(a, e)
    ensures Stuck(Next(policy, a, step), e)
  {
    NextKeepsUnclaimed(policy, a, step, e);
    NextKeepsStuckRow(policy, a, step, e);
  }

  lemma NextCallsOthers(policy: T.Policy, a: Actions, step: Step, e: T.ExecutionId)
    requires Safe(policy, a) && Stuck(a, e)
    ensures a.calls <= Next(policy, a, step).calls
    ensures forall i | |a.calls| <= i < |Next(policy, a, step).calls| :: Next(policy, a, step).calls[i].execution != e
  {
    StuckUnclaimed(policy, a, e);
  }

  /** An unknown outcome is never retried: the row never changes again and no later call uses it. */
  lemma {:induction false} StuckForever(policy: T.Policy, a: Actions, steps: seq<Step>, e: T.ExecutionId)
    requires Safe(policy, a) && Stuck(a, e)
    ensures Stuck(Run(policy, a, steps), e)
    ensures Run(policy, a, steps).ledger.executions[e] == a.ledger.executions[e]
    ensures |a.calls| <= |Run(policy, a, steps).calls|
    ensures forall i | |a.calls| <= i < |Run(policy, a, steps).calls| :: Run(policy, a, steps).calls[i].execution != e
    decreases |steps|
  {
    if steps != [] {
      var a' := Next(policy, a, steps[0]);
      NextKeepsSafe(policy, a, steps[0]);
      NextKeepsStuckRow(policy, a, steps[0], e);
      NextKeepsStuck(policy, a, steps[0], e);
      NextCallsOthers(policy, a, steps[0], e);
      StuckForever(policy, a', steps[1..], e);
      CallsKept(policy, a', steps[1..]);
    }
  }

  lemma {:induction false} CallsKept(policy: T.Policy, a: Actions, steps: seq<Step>)
    ensures a.calls <= Run(policy, a, steps).calls
    decreases |steps|
  {
    if steps != [] {
      CallsKept(policy, Next(policy, a, steps[0]), steps[1..]);
    }
  }
}
