/**
 Whole runs of the agent ledger: conservation, the finalizer's share, and the finality of
 a denial.
 */
module BudgetRuns {
  import opened Wrappers
  import opened Basics
  import B = BudgetManager
  import opened AgentRuns
  import opened BudgetConservation

  datatype Step =
    | CreateSupervisor(task: Option<nat>, limits: Option<B.Limits>, now: int)
    | CreateDelegation(q: Request, maximum: int, now: int)
    | ReserveLlm(id: nat, callLimit: int, iterationLimit: int, phase: B.Phase, now: int)
    | CountCall(id: nat, kind: Counter, limit: int, now: int)
    | AddUsage(id: nat, total: Option<int>)
    | RecordPreCalls(id: nat, analyzer: nat, router: nat)
    | PauseBudget(id: nat, now: int)

  function Next(st: Store, step: Step): (Store, Option<Error>) {
    match step
    case CreateSupervisor(task, limits, now) => (CreatingSupervisor(st, task, limits, now).0, None)
    case CreateDelegation(q, maximum, now) =>
      var (st', r) := CreatingDelegation(st, q, maximum, now);
      (st', if r.Ok? then None else Some(r.error))
    case ReserveLlm(id, callLimit, iterationLimit, phase, now) => ReservingLlm(st, id, callLimit, iterationLimit, phase, now)
    case CountCall(id, kind, limit, now) => CountingCall(st, id, kind, limit, now)
    case AddUsage(id, total) => AddingUsage(st, id, total)
    case RecordPreCalls(id, analyzer, router) => RecordingPreCalls(st, id, analyzer, router)
    case PauseBudget(id, now) => Pausing(st, id, now)
  }

  /** The caller's side of the bargain, checkable before the call. */
  predicate Admissible(st: Store, step: Step) {
    match step
    case CreateSupervisor(_, limits, _) => limits.Some? ==> B.ValidLimits(limits.value)
    case CreateDelegation(q, _, _) => Delegable(st, q)
    case CountCall(id, kind, _, _) => !Bypasses(st, id, kind)
    case RecordPreCalls(id, analyzer, router) => Recordable(st, id, analyzer, router)
    case ReserveLlm(_, _, _, _, _) => true
    case AddUsage(_, _) => true
    case PauseBudget(_, _) => true
  }

  function After(st: Store, steps: seq<Step>): Store
    decreases |steps|
  {
    if steps == [] then st else After(Next(st, steps[0]).0, steps[1..])
  }

  predicate AllAdmissible(st: Store, steps: seq<Step>)
    decreases |steps|
  {
    steps == [] || (Admissible(st, steps[0]) && AllAdmissible(Next(st, steps[0]).0, steps[1..]))
  }

  lemma NextKeepsLedger(st: Store, step: Step)
    requires LedgerOk(st) && Admissible(st, step)
    ensures LedgerOk(Next(st, step).0)
  {
    match step
    case CreateSupervisor(task, limits, now) => CreateSupervisorKeepsLedger(st, task, limits, now);
    case CreateDelegation(q, maximum, now) => CreateDelegationKeepsLedger(st, q, maximum, now);
    case ReserveLlm(id, callLimit, iterationLimit, phase, now) =>
      ReserveLlmKeepsLedger(st, id, callLimit, iterationLimit, phase, now);
    case CountCall(id, kind, limit, now) => CountCallKeepsLedger(st, id, kind, limit, now);
    case AddUsage(id, total) => AddUsageKeepsLedger(st, id, total);
    case RecordPreCalls(id, analyzer, router) => RecordPreKeepsLedger(st, id, analyzer, router);
    case PauseBudget(id, now) => PauseKeepsLedger(st, id, now);
  }

  /** Over every run of the operations, each budget equals the sums over its rows. */
  lemma {:induction false} RunConserves(st: Store, steps: seq<Step>)
    requires LedgerOk(st) && AllAdmissible(st, steps)
    ensures LedgerOk(After(st, steps))
    decreases |steps|
  {
    if steps != [] {
      NextKeepsLedger(st, steps[0]);
      RunConserves(Next(st, steps[0]).0, steps[1..]);
    }
  }

  /** A step that raises changes nothing but, on a denial, the exhaustion marks of one budget. */
  lemma ErrorsChangeNoCounter(st: Store, step: Step)
    requires LedgerOk(st) && Admissible(st, step) && Next(st, step).1.Some?
    ensures var st' := Next(st, step).0;
            st' == st || exists i: nat {:trigger OnlyMarked(st, st', i)} | i < |st.runs| && RunOk(st.runs, i) :: OnlyMarked(st, st', i)
  {
    match step
    case CreateSupervisor(task, limits, now) =>
    case CreateDelegation(q, maximum, now) => CreateDelegationKeepsLedger(st, q, maximum, now);
    case ReserveLlm(id, callLimit, iterationLimit, phase, now) =>
      ReserveLlmKeepsLedger(st, id, callLimit, iterationLimit, phase, now);
    case CountCall(id, kind, limit, now) => CountCallKeepsLedger(st, id, kind, limit, now);
    case AddUsage(id, total) =>
    case RecordPreCalls(id, analyzer, router) =>
    case PauseBudget(id, now) =>
  }

  // -------------------------------------------------------- where the balance is lost

  lemma TwoSteps(st: Store, a: Step, b: Step)
    ensures After(st, [a]) == Next(st, a).0
    ensures After(st, [a, b]) == Next(Next(st, a).0, b).0
  {
    assert [a][1..] == [] && [a, b][1..] == [b] && [b][1..] == [];
    assert After(Next(st, a).0, [b]) == Next(Next(st, a).0, b).0;
  }

  /** A ledger with one supervisor. */
  function OneSupervisor(limits: B.Limits): Store {
    Store([NewRun(Supervisor, None, None, Some(B.Initial(limits, 0)))], [])
  }

  lemma SupervisorCreated(limits: B.Limits)
    ensures Next(EMPTY, CreateSupervisor(None, Some(limits), 0)).0 == OneSupervisor(limits) && LedgerOk(OneSupervisor(limits))
  {
    CreateSupervisorKeepsLedger(EMPTY, None, Some(limits), 0);
    assert CreatingSupervisor(EMPTY, None, Some(limits), 0).0.runs == OneSupervisor(limits).runs;
  }

  lemma FirstCallReserved(limits: B.Limits)
    requires B.ValidLimits(limits)
    ensures var st := ReservingLlm(OneSupervisor(limits), 0, 1, 0, B.QueryAnalyzer, 0).0;
            LedgerOk(st) && |st.runs| == 1 && st.runs[0].agent.Supervisor? && st.runs[0].budget.Some?
            && st.runs[0].budget.value.llmCalls == 1
  {
    SupervisorCreated(limits);
    ReserveLlmKeepsLedger(OneSupervisor(limits), 0, 1, 0, B.QueryAnalyzer, 0);
    assert B.Refusal(B.Resume(B.Initial(limits, 0), 0), B.LlmCalls, B.QueryAnalyzer, 0).None?;
  }

  lemma CallAfterCreation(limits: B.Limits)
    ensures After(EMPTY, [CreateSupervisor(None, Some(limits), 0), ReserveLlm(0, 1, 0, B.QueryAnalyzer, 0)])
         == ReservingLlm(OneSupervisor(limits), 0, 1, 0, B.QueryAnalyzer, 0).0
  {
    TwoSteps(EMPTY, CreateSupervisor(None, Some(limits), 0), ReserveLlm(0, 1, 0, B.QueryAnalyzer, 0));
    SupervisorCreated(limits);
  }

  lemma LateRecording(st: Store, analyzer: nat, router: nat)
    requires LedgerOk(st) && |st.runs| == 1 && st.runs[0].agent.Supervisor?
    requires st.runs[0].budget.Some? && st.runs[0].budget.value.llmCalls == 1
    ensures !LedgerOk(Next(st, RecordPreCalls(0, analyzer, router)).0)
  {
    RecordPreExactly(st, 0, analyzer, router);
  }

  /** Under any limits, earlier calls recorded after the first reserved call break the balance. */
  lemma LateRecordingBreaks(limits: B.Limits, analyzer: nat, router: nat)
    requires B.ValidLimits(limits)
    ensures var st := After(EMPTY, [CreateSupervisor(None, Some(limits), 0), ReserveLlm(0, 1, 0, B.QueryAnalyzer, 0)]);
            LedgerOk(st) && !LedgerOk(Next(st, RecordPreCalls(0, analyzer, router)).0)
  {
    CallAfterCreation(limits);
    FirstCallReserved(limits);
    LateRecording(ReservingLlm(OneSupervisor(limits), 0, 1, 0, B.QueryAnalyzer, 0).0, analyzer, router);
  }

  /** Under any limits, a supervisor's call counted without a reservation breaks the balance. */
  lemma UnreservedCallBreaks(limits: B.Limits, limit: int, now: int)
    requires B.ValidLimits(limits) && limit > 0
    ensures var st := After(EMPTY, [CreateSupervisor(None, Some(limits), 0)]);
            var (st', error) := Next(st, CountCall(0, LlmCalls, limit, now));
            LedgerOk(st) && error.None? && !LedgerOk(st')
  {
    var create := CreateSupervisor(None, Some(limits), 0);
    TwoSteps(EMPTY, create, create);
    SupervisorCreated(limits);
    CountCallExactly(OneSupervisor(limits), 0, LlmCalls, limit, now);
  }

  // ------------------------------------------------------------- one budget over time

  /** What a step may do to a budget. */
  datatype Move =
    | Kept
    | Reserved(kind: B.Kind, phase: B.Phase, at: int)
    | Sampled(total: Option<int>)
    | Recorded(analyzer: nat, router: nat)
    | Paused(at: int)

  function Moved(b: B.Budget, move: Move): B.Budget {
    match move
    case Kept => b
    case Reserved(kind, phase, at) => B.Reserving(B.Resume(b, at), kind, phase, at).0
    case Sampled(total) => UsedBudget(b, total)
    case Recorded(analyzer, router) => PreCounted(b, analyzer, router)
    case Paused(at) => B.Pause(b, at)
  }

  /** The move of a step on the budget of supervisor `s`. */
  function MoveOf(st: Store, step: Step, s: nat): Move
    requires s < |st.runs|
  {
    match step
    case CreateSupervisor(_, _, _) => Kept
    case CreateDelegation(q, maximum, now) =>
      if Find(st.delegations, q.id).None? && CountRows(st.delegations, DelegatedBy(q.supervisor)) < maximum && q.supervisor == s then
        Reserved(B.Delegations, RequestPhase(q.agent, q.revision), now)
      else Kept
    case ReserveLlm(id, callLimit, iterationLimit, phase, now) =>
      if Charges(st, id, s) && !(st.runs[id].llmCalls >= callLimit || (iterationLimit != 0 && st.runs[id].iterations >= iterationLimit))
      then Reserved(B.LlmCalls, phase, now) else Kept
    case CountCall(id, kind, limit, now) =>
      if Charges(st, id, s) && kind.ToolCalls? && st.runs[id].toolCalls < limit then Reserved(B.ToolCalls, B.Model, now) else Kept
    case AddUsage(id, total) => if Charges(st, id, s) then Sampled(total) else Kept
    case RecordPreCalls(id, analyzer, router) => if id == s then Recorded(analyzer, router) else Kept
    case PauseBudget(id, now) => if id == s then Paused(now) else Kept
  }

  predicate Charges(st: Store, id: nat, s: nat) {
    id < |st.runs| && (if st.runs[id].agent.Supervisor? then id == s else st.runs[id].supervisor == Some(s))
  }

  ghost predicate BudgetAt(st: Store, s: nat, b: B.Budget) {
    s < |st.runs| && st.runs[s].budget == Some(b)
  }

  lemma ChargesItsOwner(st: Store, id: nat, s: nat)
    requires LedgerOk(st) && id < |st.runs|
    ensures RunOk(st.runs, id) && (Charges(st, id, s) <==> s == Owner(st.runs, id))
  {
    OwnerIsBudgetOwner(st, id);
  }

  lemma ReservationMoves(st: Store, id: nat, kind: B.Kind, phase: B.Phase, now: int, s: nat, b: B.Budget)
    requires LedgerOk(st) && id < |st.runs| && BudgetAt(st, s, b)
    ensures var st' := ReservingBudget(st, id, kind, phase, now).0;
            BudgetAt(st', s, if Charges(st, id, s) then Moved(b, Reserved(kind, phase, now)) else b)
    ensures Charges(st, id, s) ==>
              (ReservingBudget(st, id, kind, phase, now).1.Some? <==> B.Refusal(B.Resume(b, now), kind, phase, now).Some?)
  {
    ReservingSaves(st, id, kind, phase, now);
    ChargesItsOwner(st, id, s);
    ReservedIsMoved(b, kind, phase, now);
  }

  lemma ReservedIsMoved(b: B.Budget, kind: B.Kind, phase: B.Phase, now: int)
    ensures ReservedBudget(Some(b), kind, phase, now) == Some(Moved(b, Reserved(kind, phase, now)))
  {
  }

  lemma DelegationMoves(st: Store, q: Request, maximum: int, now: int, s: nat, b: B.Budget)
    requires LedgerOk(st) && Delegable(st, q) && BudgetAt(st, s, b)
    ensures var step := CreateDelegation(q, maximum, now); BudgetAt(Next(st, step).0, s, Moved(b, MoveOf(st, step, s)))
  {
    if q.supervisor < |st.runs| {
      ReservationMoves(st, q.supervisor, B.Delegations, RequestPhase(q.agent, q.revision), now, s, b);
    }
  }

  lemma CallMoves(st: Store, step: Step, s: nat, b: B.Budget)
    requires LedgerOk(st) && BudgetAt(st, s, b) && (step.ReserveLlm? || step.CountCall?)
    ensures BudgetAt(Next(st, step).0, s, Moved(b, MoveOf(st, step, s)))
  {
    if step.id < |st.runs| {
      if step.ReserveLlm? {
        ReservationMoves(st, step.id, B.LlmCalls, step.phase, step.now, s, b);
      } else {
        ReservationMoves(st, step.id, B.ToolCalls, B.Model, step.now, s, b);
      }
    }
  }

  lemma UsageMoves(st: Store, step: Step, s: nat, b: B.Budget)
    requires LedgerOk(st) && BudgetAt(st, s, b) && step.AddUsage?
    ensures BudgetAt(Next(st, step).0, s, Moved(b, MoveOf(st, step, s)))
  {
    if step.id < |st.runs| {
      UsageSaves(st, step.id, step.total);
      ChargesItsOwner(st, step.id, s);
      assert SampledBudget(Some(b), step.total) == Some(Moved(b, Sampled(step.total)));
    }
  }

  lemma NextMoves(st: Store, step: Step, s: nat, b: B.Budget)
    requires LedgerOk(st) && Admissible(st, step) && BudgetAt(st, s, b)
    ensures BudgetAt(Next(st, step).0, s, Moved(b, MoveOf(st, step, s)))
  {
    match step
    case CreateSupervisor(task, limits, now) =>
    case CreateDelegation(q, maximum, now) => DelegationMoves(st, q, maximum, now, s, b);
    case ReserveLlm(_, _, _, _, _) => CallMoves(st, step, s, b);
    case CountCall(_, _, _, _) => CallMoves(st, step, s, b);
    case AddUsage(_, _) => UsageMoves(st, step, s, b);
    case RecordPreCalls(_, _, _) =>
    case PauseBudget(_, _) =>
  }

  // ------------------------------------------------------------- the finalizer's share

  /** Calls made before the run fit beside the share held back for the finalizing phases. */
  predicate Fits(st: Store, step: Step) {
    step.RecordPreCalls? && step.id < |st.runs| && st.runs[step.id].budget.Some? ==>
      var limits := st.runs[step.id].budget.value.limits;
      step.analyzer + step.router <= limits.llmCalls - B.HeldBack(limits)
  }

  predicate AllFit(st: Store, steps: seq<Step>)
    decreases |steps|
  {
    steps == [] || (Fits(st, steps[0]) && AllFit(Next(st, steps[0]).0, steps[1..]))
  }

  ghost predicate ShareAt(st: Store, s: nat)
    requires s < |st.runs|
  {
    st.runs[s].budget.Some? ==> B.ShareKept(st.runs[s].budget.value)
  }

  ghost predicate SharesKept(st: Store) {
    forall s {:trigger ShareAt(st, s)} | 0 <= s < |st.runs| :: ShareAt(st, s)
  }

  lemma RecordingKeepsShare(b: B.Budget, analyzer: nat, router: nat)
    requires B.ShareKept(b) && b.llmCalls == 0 && analyzer + router <= b.limits.llmCalls - B.HeldBack(b.limits)
    ensures B.ShareKept(PreCounted(b, analyzer, router))
  {
    PrePhasesSize(analyzer, router);
    assert B.FinalizerCalls(PrePhases(analyzer, router)) == 0;
  }

  lemma MoveKeepsShare(b: B.Budget, move: Move)
    requires B.ShareKept(b)
    requires move.Recorded? ==> b.llmCalls == 0 && move.analyzer + move.router <= b.limits.llmCalls - B.HeldBack(b.limits)
    ensures B.ShareKept(Moved(b, move))
  {
    match move
    case Reserved(kind, phase, at) => B.ReservingKeepsShare(B.Resume(b, at), kind, phase, at);
    case Recorded(analyzer, router) => RecordingKeepsShare(b, analyzer, router);
    case Kept =>
    case Sampled(_) =>
    case Paused(_) =>
  }

  lemma RecordMeansFresh(st: Store, step: Step, s: nat, b: B.Budget)
    requires LedgerOk(st) && Admissible(st, step) && BudgetAt(st, s, b) && MoveOf(st, step, s).Recorded?
    ensures b.llmCalls == 0
  {
    assert RunOk(st.runs, s);
  }

  lemma {:induction false} FreshShare(limits: B.Limits, now: int)
    requires B.ValidLimits(limits)
    ensures B.ShareKept(B.Initial(limits, now))
  {
  }

  /** The rows a step adds are at the end; a new supervisor starts with its share untouched. */
  lemma NewRowsAreFresh(st: Store, step: Step, s: nat)
    requires LedgerOk(st) && Admissible(st, step) && |st.runs| <= s < |Next(st, step).0.runs|
    ensures ShareAt(Next(st, step).0, s)
  {
    match step
    case CreateSupervisor(task, limits, now) => if limits.Some? { FreshShare(limits.value, now); }
    case CreateDelegation(_, _, _) =>
    case ReserveLlm(id, _, _, phase, now) => if id < |st.runs| { ReservingSaves(st, id, B.LlmCalls, phase, now); }
    case CountCall(id, _, _, now) => if id < |st.runs| { ReservingSaves(st, id, B.ToolCalls, B.Model, now); }
    case AddUsage(id, total) => if id < |st.runs| { UsageSaves(st, id, total); }
    case RecordPreCalls(_, _, _) =>
    case PauseBudget(_, _) =>
  }

  /** Saving an owner's budget neither removes rows nor gives a budget to a row without one. */
  lemma ReservationKeepsNone(st: Store, id: nat, kind: B.Kind, phase: B.Phase, now: int, s: nat)
    requires LedgerOk(st) && id < |st.runs| && s < |st.runs| && st.runs[s].budget.None?
    ensures var st' := ReservingBudget(st, id, kind, phase, now).0; |st'.runs| == |st.runs| && st'.runs[s].budget.None?
  {
    ReservingSaves(st, id, kind, phase, now);
  }

  lemma CallsKeepNone(st: Store, step: Step, s: nat)
    requires LedgerOk(st) && s < |st.runs| && st.runs[s].budget.None? && (step.ReserveLlm? || step.CountCall?)
    ensures s < |Next(st, step).0.runs| && Next(st, step).0.runs[s].budget.None?
  {
    if step.id < |st.runs| {
      if step.ReserveLlm? {
        ReservationKeepsNone(st, step.id, B.LlmCalls, step.phase, step.now, s);
      } else {
        ReservationKeepsNone(st, step.id, B.ToolCalls, B.Model, step.now, s);
      }
    }
  }

  lemma UsageKeepsNone(st: Store, id: nat, total: Option<int>, s: nat)
    requires LedgerOk(st) && s < |st.runs| && st.runs[s].budget.None?
    ensures s < |AddingUsage(st, id, total).0.runs| && AddingUsage(st, id, total).0.runs[s].budget.None?
  {
    if id < |st.runs| { UsageSaves(st, id, total); }
  }

  /** Operations neither remove rows nor give a budget to an existing row. */
  lemma BudgetsStay(st: Store, step: Step, s: nat)
    requires LedgerOk(st) && s < |st.runs| && st.runs[s].budget.None?
    ensures s < |Next(st, step).0.runs| && Next(st, step).0.runs[s].budget.None?
  {
    match step
    case CreateSupervisor(_, _, _) =>
    case CreateDelegation(q, _, now) =>
      if q.supervisor < |st.runs| {
        ReservationKeepsNone(st, q.supervisor, B.Delegations, RequestPhase(q.agent, q.revision), now, s);
      }
    case ReserveLlm(_, _, _, _, _) => CallsKeepNone(st, step, s);
    case CountCall(_, _, _, _) => CallsKeepNone(st, step, s);
    case AddUsage(id, total) => UsageKeepsNone(st, id, total, s);
    case RecordPreCalls(_, _, _) =>
    case PauseBudget(_, _) =>
  }

  lemma NextKeepsShares(st: Store, step: Step)
    requires LedgerOk(st) && Admissible(st, step) && Fits(st, step) && SharesKept(st)
    ensures SharesKept(Next(st, step).0)
  {
    var st' := Next(st, step).0;
    forall s | 0 <= s < |st'.runs| ensures ShareAt(st', s) {
      if s < |st.runs| {
        assert ShareAt(st, s);
        if st.runs[s].budget.Some? {
          var b := st.runs[s].budget.value;
          NextMoves(st, step, s, b);
          if MoveOf(st, step, s).Recorded? { RecordMeansFresh(st, step, s, b); }
          MoveKeepsShare(b, MoveOf(st, step, s));
        } else {
          BudgetsStay(st, step, s);
        }
      } else {
        NewRowsAreFresh(st, step, s);
      }
    }
  }

  lemma {:induction false} RunKeepsShares(st: Store, steps: seq<Step>)
    requires LedgerOk(st) && AllAdmissible(st, steps) && AllFit(st, steps) && SharesKept(st)
    ensures LedgerOk(After(st, steps)) && SharesKept(After(st, steps))
    decreases |steps|
  {
    if steps != [] {
      NextKeepsLedger(st, steps[0]);
      NextKeepsShares(st, steps[0]);
      RunKeepsShares(Next(st, steps[0]).0, steps[1..]);
    }
  }

  /**
   In every reachable state no budget counts more LLM calls than its maximum, and as long as
   fewer than min(4, maximum - 1) finalizing calls have run, one more is not refused for its count.
   */
  lemma FinalizerShare(steps: seq<Step>, s: nat, b: B.Budget, phase: B.Phase, now: int)
    requires AllAdmissible(EMPTY, steps) && AllFit(EMPTY, steps) && BudgetAt(After(EMPTY, steps), s, b)
    ensures b.llmCalls <= b.limits.llmCalls
    ensures phase in {B.FinalSynthesis, B.Grounding, B.AnswerRevision, B.Memory}
            && B.FinalizerCalls(b.phases) < Min(4, b.limits.llmCalls - 1) ==>
              B.Reserving(B.Resume(b, now), B.LlmCalls, phase, now).1 != Some(B.NoLlmCalls)
  {
    RunKeepsShares(EMPTY, steps);
    assert ShareAt(After(EMPTY, steps), s);
    if B.Finalizer(phase) && B.FinalizerCalls(b.phases) < B.HeldBack(b.limits) {
      B.FinalizerIsServed(B.Resume(b, now), phase, now);
    }
  }

  // ------------------------------------------------------------- the finality of a denial

  ghost predicate Denied(b: B.Budget, reason: B.Reason) {
    b.exhausted && b.reasons != [] && b.reasons[0] == reason
  }

  lemma MoveKeepsDenied(b: B.Budget, move: Move, reason: B.Reason)
    requires Denied(b, reason)
    ensures Denied(Moved(b, move), reason)
  {
    if move.Reserved? {
      B.ExhaustionIsSticky(B.Resume(b, move.at), move.kind, move.phase, move.at);
    }
  }

  lemma {:induction false} RunKeepsDenied(st: Store, steps: seq<Step>, s: nat, b: B.Budget, reason: B.Reason)
    requires LedgerOk(st) && AllAdmissible(st, steps) && BudgetAt(st, s, b) && Denied(b, reason)
    ensures LedgerOk(After(st, steps))
    ensures exists b': B.Budget {:trigger BudgetAt(After(st, steps), s, b')} :: BudgetAt(After(st, steps), s, b') && Denied(b', reason)
    decreases |steps|
  {
    if steps != [] {
      NextKeepsLedger(st, steps[0]);
      NextMoves(st, steps[0], s, b);
      var move := MoveOf(st, steps[0], s);
      MoveKeepsDenied(b, move, reason);
      RunKeepsDenied(Next(st, steps[0]).0, steps[1..], s, Moved(b, move), reason);
    } else {
      assert BudgetAt(After(st, steps), s, b);
    }
  }

  /**
   Once a budget has denied a reservation, then after any further operations every
   reservation outside the finalizing phases, of any kind and by any run charged to that
   budget, is denied for the same first reason, raises, and moves no counter.
   */
  lemma DenialIsFinal(st: Store, steps: seq<Step>, step: Step, s: nat, b: B.Budget, reason: B.Reason)
    requires LedgerOk(st) && AllAdmissible(st, steps) && BudgetAt(st, s, b) && Denied(b, reason)
    requires var later := After(st, steps);
             && Admissible(later, step) && s < |later.runs|
             && MoveOf(later, step, s).Reserved?
             && MoveOf(later, step, s).phase !in {B.FinalSynthesis, B.Grounding, B.AnswerRevision, B.Memory}
    ensures var later := After(st, steps);
            var move := MoveOf(later, step, s);
            && Next(later, step).1 == Some(BudgetExhausted)
            && later.runs[s].budget.Some?
            && B.Reserving(B.Resume(later.runs[s].budget.value, move.at), move.kind, move.phase, move.at).1 == Some(reason)
            && B.SameCounters(later.runs[s].budget.value, Moved(later.runs[s].budget.value, move))
  {
    RunKeepsDenied(st, steps, s, b, reason);
    var later := After(st, steps);
    var b' :| BudgetAt(later, s, b') && Denied(b', reason);
    var move := MoveOf(later, step, s);
    B.ExhaustionIsSticky(B.Resume(b', move.at), move.kind, move.phase, move.at);
    DeniedRaises(later, step, s, b', reason);
  }

  lemma DeniedRaises(st: Store, step: Step, s: nat, b: B.Budget, reason: B.Reason)
    requires LedgerOk(st) && BudgetAt(st, s, b) && Denied(b, reason)
    requires MoveOf(st, step, s).Reserved? && !B.Finalizer(MoveOf(st, step, s).phase)
    requires Admissible(st, step)
    ensures Next(st, step).1 == Some(BudgetExhausted)
  {
    match step
    case CreateDelegation(q, _, now) =>
      assert RunOk(st.runs, q.supervisor);
      ReservationMoves(st, q.supervisor, B.Delegations, RequestPhase(q.agent, q.revision), now, s, b);
      ReservingSaves(st, q.supervisor, B.Delegations, RequestPhase(q.agent, q.revision), now);
    case ReserveLlm(id, _, _, phase, now) =>
      ReservationMoves(st, id, B.LlmCalls, phase, now, s, b);
      ReservingSaves(st, id, B.LlmCalls, phase, now);
    case CountCall(id, _, _, now) =>
      ReservationMoves(st, id, B.ToolCalls, B.Model, now, s, b);
      ReservingSaves(st, id, B.ToolCalls, B.Model, now);
    case CreateSupervisor(_, _, _) =>
    case AddUsage(_, _) =>
    case RecordPreCalls(_, _, _) =>
    case PauseBudget(_, _) =>
  }
}
