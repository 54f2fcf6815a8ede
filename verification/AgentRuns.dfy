/**
 The ledger of agent runs: a supervisor's row holds the budget, and the calls of the
 supervisor and of every run delegated by it are charged to that budget.

 A row's index is its id. Each operation is one transaction; an exception rolls it back,
 except that a budget denial is committed before it is raised.
 */
module AgentRuns {
  import opened Wrappers
  import B = BudgetManager

  datatype Agent = Supervisor | ReviewAgent | OtherAgent

  datatype UsageStatus = Unavailable | Partial | Available

  datatype Run = Run(
    agent: Agent, task: Option<nat>, supervisor: Option<nat>,
    llmCalls: nat, toolCalls: nat, iterations: nat,
    tokens: Option<int>, samples: nat, usage: UsageStatus,
    phases: multiset<B.Phase>, budget: Option<B.Budget>)

  datatype Delegation = Delegation(id: nat, supervisor: nat, run: nat, agent: Agent, revision: bool)

  datatype Store = Store(runs: seq<Run>, delegations: seq<Delegation>)

  datatype Counter = LlmCalls | ToolCalls | Iterations

  datatype Request = Request(id: nat, supervisor: nat, task: Option<nat>, agent: Agent, revision: bool)

  const EMPTY: Store := Store([], [])

  function NewRun(agent: Agent, task: Option<nat>, supervisor: Option<nat>, budget: Option<B.Budget>): Run {
    Run(agent, task, supervisor, 0, 0, 0, None, 0, Unavailable, multiset{}, budget)
  }

  function SaveRun(st: Store, id: nat, run: Run): Store
    requires id < |st.runs|
  {
    st.(runs := st.runs[id := run])
  }

  // ------------------------------------------------------------------ operations

  function SupervisorOf(runs: seq<Run>, task: nat): Option<nat> {
    if runs == [] then None
    else
      var found := SupervisorOf(runs[..|runs| - 1], task);
      var last := runs[|runs| - 1];
      if found.Some? then found
      else if last.agent.Supervisor? && last.task == Some(task) then Some(|runs| - 1)
      else None
  }

  function CreatingSupervisor(st: Store, task: Option<nat>, limits: Option<B.Limits>, now: int): (Store, nat) {
    var known := if task.Some? then SupervisorOf(st.runs, task.value) else None;
    if known.Some? then (st, known.value)
    else
      var budget := if limits.Some? then Some(B.Initial(limits.value, now)) else None;
      (st.(runs := st.runs + [NewRun(Supervisor, task, None, budget)]), |st.runs|)
  }

  /** The row that holds the budget a run is charged to; `Err` if that row is missing. */
  function BudgetOwner(st: Store, id: nat): (r: Result<Option<nat>>)
    requires id < |st.runs|
    ensures r.Ok? && r.value.Some? ==> r.value.value < |st.runs|
  {
    var run := st.runs[id];
    if run.agent.Supervisor? then Ok(Some(id))
    else
      match run.supervisor
      case None => Ok(None)
      case Some(s) => if s < |st.runs| then Ok(Some(s)) else Err(RecordNotFound)
  }

  /** A reservation against the owner's budget; a denial is saved as well. */
  function ReservingBudget(st: Store, id: nat, kind: B.Kind, phase: B.Phase, now: int): (r: (Store, Option<Error>))
    requires id < |st.runs|
    ensures |r.0.runs| == |st.runs| && r.0.delegations == st.delegations
  {
    match BudgetOwner(st, id)
    case Err(e) => (st, Some(e))
    case Ok(None) => (st, None)
    case Ok(Some(s)) =>
      match st.runs[s].budget
      case None => (st, None)
      case Some(b) =>
        var (b', refused) := B.Reserving(B.Resume(b, now), kind, phase, now);
        (SaveRun(st, s, st.runs[s].(budget := Some(b'))), if refused.Some? then Some(BudgetExhausted) else None)
  }

  function Find(delegations: seq<Delegation>, id: nat): Option<Delegation> {
    if delegations == [] then None
    else if delegations[|delegations| - 1].id == id then Some(delegations[|delegations| - 1])
    else Find(delegations[..|delegations| - 1], id)
  }

  function CountRows(delegations: seq<Delegation>, of: Delegation -> bool): nat {
    if delegations == [] then 0
    else CountRows(delegations[..|delegations| - 1], of) + if of(delegations[|delegations| - 1]) then 1 else 0
  }

  function RequestPhase(agent: Agent, revision: bool): B.Phase {
    if agent.ReviewAgent? then B.Reviewer else if revision then B.Supplementary else B.Model
  }

  function DelegatedBy(s: nat): Delegation -> bool {
    (d: Delegation) => d.supervisor == s
  }

  function CreatingDelegation(st: Store, q: Request, maximum: int, now: int): (Store, Result<Delegation>) {
    var known := Find(st.delegations, q.id);
    if known.Some? then (st, Ok(known.value))
    else if CountRows(st.delegations, DelegatedBy(q.supervisor)) >= maximum then (st, Err(TaskConflict))
    else if q.supervisor >= |st.runs| then (st, Err(RecordNotFound))
    else
      var (st', denied) := ReservingBudget(st, q.supervisor, B.Delegations, RequestPhase(q.agent, q.revision), now);
      if denied.Some? then (st', Err(denied.value))
      else
        var row := Delegation(q.id, q.supervisor, |st.runs|, q.agent, q.revision);
        (Store(st'.runs + [NewRun(q.agent, q.task, Some(q.supervisor), None)], st'.delegations + [row]), Ok(row))
  }

  function CountedLlm(run: Run, phase: B.Phase, iterating: bool): Run {
    run.(llmCalls := run.llmCalls + 1, phases := run.phases + multiset{phase},
         iterations := run.iterations + (if iterating then 1 else 0))
  }

  /** `iterationLimit` of zero means no limit and no counting. */
  function ReservingLlm(st: Store, id: nat, callLimit: int, iterationLimit: int, phase: B.Phase, now: int): (Store, Option<Error>) {
    if id >= |st.runs| then (st, Some(RecordNotFound))
    else if st.runs[id].llmCalls >= callLimit || (iterationLimit != 0 && st.runs[id].iterations >= iterationLimit) then
      (st, Some(TaskConflict))
    else
      var (st', denied) := ReservingBudget(st, id, B.LlmCalls, phase, now);
      if denied.Some? then (st', denied)
      else (SaveRun(st', id, CountedLlm(st'.runs[id], phase, iterationLimit != 0)), None)
  }

  function CounterOf(run: Run, kind: Counter): nat {
    match kind
    case LlmCalls => run.llmCalls
    case ToolCalls => run.toolCalls
    case Iterations => run.iterations
  }

  function Counted(run: Run, kind: Counter): Run {
    match kind
    case LlmCalls => run.(llmCalls := run.llmCalls + 1)
    case ToolCalls => run.(toolCalls := run.toolCalls + 1)
    case Iterations => run.(iterations := run.iterations + 1)
  }

  function CountingCall(st: Store, id: nat, kind: Counter, limit: int, now: int): (Store, Option<Error>) {
    if id >= |st.runs| then (st, Some(RecordNotFound))
    else if CounterOf(st.runs[id], kind) >= limit then (st, Some(TaskConflict))
    else
      var (st', denied) := if kind.ToolCalls? then ReservingBudget(st, id, B.ToolCalls, B.Model, now) else (st, None);
      if denied.Some? then (st', denied)
      else (SaveRun(st', id, Counted(st'.runs[id], kind)), None)
  }

  function Used(run: Run, total: Option<int>): Run {
    var r := match total
      case None => run
      case Some(n) => run.(tokens := Some((if run.tokens.Some? then run.tokens.value else 0) + n), samples := run.samples + 1);
    if r.samples == r.llmCalls then r.(usage := Available)
    else if r.tokens.Some? then r.(usage := Partial)
    else r
  }

  function UsedBudget(b: B.Budget, total: Option<int>): B.Budget {
    var b' := match total
      case None => b
      case Some(n) => b.(knownTokens := b.knownTokens + n, samples := b.samples + 1);
    b'.(tokensUsed := if b'.samples == b'.llmCalls then Some(b'.knownTokens) else None)
  }

  function AddingUsage(st: Store, id: nat, total: Option<int>): (Store, Option<Error>) {
    if id >= |st.runs| then (st, Some(RecordNotFound))
    else
      var st' := SaveRun(st, id, Used(st.runs[id], total));
      match BudgetOwner(st', id)
      case Err(e) => (st, Some(e))
      case Ok(None) => (st', None)
      case Ok(Some(s)) =>
        match st'.runs[s].budget
        case None => (st', None)
        case Some(b) => (SaveRun(st', s, st'.runs[s].(budget := Some(UsedBudget(b, total)))), None)
  }

  function PrePhases(analyzer: nat, router: nat): multiset<B.Phase> {
    multiset{}[B.QueryAnalyzer := analyzer][B.Router := router]
  }

  function PreCounted(b: B.Budget, analyzer: nat, router: nat): B.Budget {
    var b' := b.(llmCalls := b.llmCalls + analyzer + router, phases := PrePhases(analyzer, router));
    if b'.llmCalls >= b'.limits.llmCalls then b'.(exhausted := true, reasons := b'.reasons + [B.NoLlmCalls]) else b'
  }

  function RecordingPreCalls(st: Store, id: nat, analyzer: nat, router: nat): (Store, Option<Error>) {
    if id >= |st.runs| then (st, Some(RecordNotFound))
    else
      var run := st.runs[id];
      (SaveRun(st, id, run.(llmCalls := run.llmCalls + analyzer + router, phases := PrePhases(analyzer, router),
         budget := if run.budget.Some? then Some(PreCounted(run.budget.value, analyzer, router)) else None)), None)
  }

  function Pausing(st: Store, id: nat, now: int): (Store, Option<Error>) {
    if id >= |st.runs| then (st, Some(RecordNotFound))
    else if st.runs[id].budget.None? then (st, None)
    else (SaveRun(st, id, st.runs[id].(budget := Some(B.Pause(st.runs[id].budget.value, now)))), None)
  }

  // ------------------------------------------------------ what each operation decides

  lemma {:induction false} SupervisorOfExactly(runs: seq<Run>, task: nat)
    ensures match SupervisorOf(runs, task)
            case None => forall i | 0 <= i < |runs| :: !(runs[i].agent.Supervisor? && runs[i].task == Some(task))
            case Some(s) =>
              && s < |runs| && runs[s].agent.Supervisor? && runs[s].task == Some(task)
              && forall i | 0 <= i < s :: !(runs[i].agent.Supervisor? && runs[i].task == Some(task))
  {
    if runs != [] {
      SupervisorOfExactly(runs[..|runs| - 1], task);
      assert forall i | 0 <= i < |runs| - 1 :: runs[i] == runs[..|runs| - 1][i];
    }
  }

  lemma {:induction false} FindExactly(delegations: seq<Delegation>, id: nat)
    ensures Find(delegations, id).Some? <==> exists i | 0 <= i < |delegations| :: delegations[i].id == id
    ensures Find(delegations, id).Some? ==> Find(delegations, id).value in delegations && Find(delegations, id).value.id == id
  {
    if delegations != [] {
      FindExactly(delegations[..|delegations| - 1], id);
      assert forall i | 0 <= i < |delegations| - 1 :: delegations[i] == delegations[..|delegations| - 1][i];
    }
  }

  /** A task has one supervisor: it is found again instead of created; a new run without a task is always created, blank. */
  lemma SupervisorCreatedExactly(st: Store, task: Option<nat>, limits: Option<B.Limits>, now: int)
    ensures var (st', s) := CreatingSupervisor(st, task, limits, now);
            var known := task.Some? && exists i | 0 <= i < |st.runs| :: st.runs[i].agent.Supervisor? && st.runs[i].task == task;
            && s < |st'.runs| && st'.runs[s].agent.Supervisor? && st'.runs[s].task == task && st'.delegations == st.delegations
            && (known ==> st' == st)
            && (!known ==>
                  && s == |st.runs| && st'.runs[..s] == st.runs && |st'.runs| == s + 1 && st'.runs[s].supervisor.None?
                  && st'.runs[s].llmCalls == 0 && st'.runs[s].toolCalls == 0 && st'.runs[s].iterations == 0 && st'.runs[s].tokens.None?
                  && (limits.Some? <==> st'.runs[s].budget.Some?)
                  && (limits.Some? ==>
                        var b := st'.runs[s].budget.value;
                        b.limits == limits.value && b.startedAt == now && b.llmCalls == 0 && b.toolCalls == 0 && b.delegations == 0 && !b.exhausted))
  {
    if task.Some? { SupervisorOfExactly(st.runs, task.value); }
  }

  /** An operation that names a run and a limit fails exactly if the run is unknown, the limit is reached, or the budget refuses. */
  lemma CallsExactly(st: Store, id: nat, kind: Counter, limit: int, now: int)
    ensures var (st', error) := CountingCall(st, id, kind, limit, now);
            && (error.None? <==>
                  && id < |st.runs|
                  && (match kind case LlmCalls => st.runs[id].llmCalls case ToolCalls => st.runs[id].toolCalls case Iterations => st.runs[id].iterations)
                     < limit
                  && (kind.ToolCalls? ==> ReservingBudget(st, id, B.ToolCalls, B.Model, now).1.None?))
            && (error.None? ==>
                  && |st'.runs| == |st.runs|
                  && st'.runs[id].llmCalls == st.runs[id].llmCalls + (if kind.LlmCalls? then 1 else 0)
                  && st'.runs[id].toolCalls == st.runs[id].toolCalls + (if kind.ToolCalls? then 1 else 0)
                  && st'.runs[id].iterations == st.runs[id].iterations + (if kind.Iterations? then 1 else 0))
  {
  }

  /** `iterationLimit` of zero means no limit. */
  lemma ReservingLlmExactly(st: Store, id: nat, callLimit: int, iterationLimit: int, phase: B.Phase, now: int)
    ensures var (st', error) := ReservingLlm(st, id, callLimit, iterationLimit, phase, now);
            && (error.None? <==>
                  && id < |st.runs| && st.runs[id].llmCalls < callLimit
                  && (iterationLimit == 0 || st.runs[id].iterations < iterationLimit)
                  && ReservingBudget(st, id, B.LlmCalls, phase, now).1.None?)
            && (error.None? ==>
                  && |st'.runs| == |st.runs|
                  && st'.runs[id].llmCalls == st.runs[id].llmCalls + 1 && st'.runs[id].toolCalls == st.runs[id].toolCalls
                  && st'.runs[id].iterations == st.runs[id].iterations + (if iterationLimit == 0 then 0 else 1)
                  && st'.runs[id].phases == st.runs[id].phases + multiset{phase})
  {
  }

  /** A known delegation is returned; a new one needs room among the supervisor's and a granted reservation, and starts a blank run. */
  lemma DelegatingExactly(st: Store, q: Request, maximum: int, now: int)
    ensures var (st', r) := CreatingDelegation(st, q, maximum, now);
            var known := exists i | 0 <= i < |st.delegations| :: st.delegations[i].id == q.id;
            var phase := if q.agent.ReviewAgent? then B.Reviewer else if q.revision then B.Supplementary else B.Model;
            && (known ==> st' == st && r.Ok? && r.value in st.delegations && r.value.id == q.id)
            && (!known ==>
                  && (r.Ok? <==>
                        && CountRows(st.delegations, DelegatedBy(q.supervisor)) < maximum && q.supervisor < |st.runs|
                        && ReservingBudget(st, q.supervisor, B.Delegations, phase, now).1.None?)
                  && (r.Ok? ==>
                        && r.value == Delegation(q.id, q.supervisor, |st.runs|, q.agent, q.revision)
                        && st'.delegations == st.delegations + [r.value] && |st'.runs| == |st.runs| + 1
                        && var run := st'.runs[|st.runs|];
                           && run.agent == q.agent && run.task == q.task && run.supervisor == Some(q.supervisor) && run.budget.None?
                           && run.llmCalls == 0 && run.toolCalls == 0 && run.iterations == 0 && run.tokens.None?))
  {
    FindExactly(st.delegations, q.id);
  }

  /** A sample adds to the known tokens; usage is complete exactly when every call has its sample. */
  lemma SamplingExactly(run: Run, total: Option<int>)
    ensures var run' := Used(run, total);
            && run'.samples == run.samples + (if total.Some? then 1 else 0)
            && (total.None? ==> run'.tokens == run.tokens)
            && (total.Some? ==> run'.tokens == Some((if run.tokens.Some? then run.tokens.value else 0) + total.value))
            && (run'.samples == run.llmCalls ==> run'.usage.Available?)
            && (run'.samples != run.llmCalls ==> run'.usage == if run'.tokens.Some? then Partial else run.usage)
            && run' == run.(samples := run'.samples, tokens := run'.tokens, usage := run'.usage)
  {
  }

  lemma SamplingBudgetExactly(b: B.Budget, total: Option<int>)
    ensures var b' := UsedBudget(b, total);
            && b'.samples == b.samples + (if total.Some? then 1 else 0)
            && b'.knownTokens == b.knownTokens + (if total.Some? then total.value else 0)
            && (b'.tokensUsed.Some? <==> b'.samples == b.llmCalls) && (b'.tokensUsed.Some? ==> b'.tokensUsed.value == b'.knownTokens)
            && b' == b.(samples := b'.samples, knownTokens := b'.knownTokens, tokensUsed := b'.tokensUsed)
  {
  }

  /** Calls made before are added, replace the phases, and exhaust a budget that they fill. */
  lemma RecordingExactly(b: B.Budget, analyzer: nat, router: nat)
    ensures var b' := PreCounted(b, analyzer, router);
            && b'.llmCalls == b.llmCalls + analyzer + router
            && b'.phases[B.QueryAnalyzer] == analyzer && b'.phases[B.Router] == router
            && (forall p | p != B.QueryAnalyzer && p != B.Router :: b'.phases[p] == 0)
            && (b'.exhausted <==> b.exhausted || b'.llmCalls >= b.limits.llmCalls)
            && b'.reasons == b.reasons + (if b'.llmCalls >= b.limits.llmCalls then [B.NoLlmCalls] else [])
            && b' == b.(llmCalls := b'.llmCalls, phases := b'.phases, exhausted := b'.exhausted, reasons := b'.reasons)
  {
  }

  // ----------------------------------------------------------------- conservation

  /** Run `i` is the supervisor `s` or was delegated by it. */
  predicate ChargedTo(runs: seq<Run>, i: nat, s: nat)
    requires i < |runs|
  {
    i == s || runs[i].supervisor == Some(s)
  }

  function Total(runs: seq<Run>, s: nat, of: Run -> int): int {
    if runs == [] then 0
    else
      var n := |runs| - 1;
      Total(runs[..n], s, of) + if ChargedTo(runs, n, s) then of(runs[n]) else 0
  }

  function LlmOf(): Run -> int { (r: Run) => r.llmCalls }

  function ToolsOf(): Run -> int { (r: Run) => r.toolCalls }

  function TokensOf(): Run -> int { (r: Run) => if r.tokens.Some? then r.tokens.value else 0 }

  function SamplesOf(): Run -> int { (r: Run) => r.samples }

  function PhaseOf(p: B.Phase): Run -> int { (r: Run) => r.phases[p] }

  function ReviewsBy(s: nat): Delegation -> bool {
    (d: Delegation) => d.supervisor == s && d.agent.ReviewAgent?
  }

  function RevisionsBy(s: nat): Delegation -> bool {
    (d: Delegation) => d.supervisor == s && !d.agent.ReviewAgent? && d.revision
  }

  /** The calls and tokens of a budget are the sums over the rows charged to it. */
  ghost predicate CallsBalance(runs: seq<Run>, s: nat, b: B.Budget) {
    && b.llmCalls == Total(runs, s, LlmOf())
    && b.toolCalls == Total(runs, s, ToolsOf())
    && b.knownTokens == Total(runs, s, TokensOf())
    && b.samples == Total(runs, s, SamplesOf())
  }

  /** Every counted call has its phase, and the phases are those of the rows. */
  ghost predicate PhasesBalance(runs: seq<Run>, s: nat, b: B.Budget) {
    && (forall p {:trigger b.phases[p]} :: b.phases[p] == Total(runs, s, PhaseOf(p)))
    && |b.phases| == b.llmCalls
  }

  ghost predicate RowsBalance(delegations: seq<Delegation>, s: nat, b: B.Budget) {
    && b.delegations == CountRows(delegations, DelegatedBy(s))
    && b.reviews == CountRows(delegations, ReviewsBy(s))
    && b.redelegations == CountRows(delegations, RevisionsBy(s))
  }

  ghost predicate Balanced(st: Store, s: nat)
    requires s < |st.runs|
  {
    st.runs[s].budget.Some? ==>
      var b := st.runs[s].budget.value;
      CallsBalance(st.runs, s, b) && PhasesBalance(st.runs, s, b) && RowsBalance(st.delegations, s, b)
  }

  /** Only supervisors hold budgets, and every other run was delegated by a supervisor. */
  ghost predicate RunOk(runs: seq<Run>, i: nat)
    requires i < |runs|
  {
    var r := runs[i];
    if r.agent.Supervisor? then r.supervisor.None?
    else r.budget.None? && r.supervisor.Some? && r.supervisor.value < |runs| && runs[r.supervisor.value].agent.Supervisor?
  }

  ghost predicate LedgerOk(st: Store) {
    && (forall i {:trigger RunOk(st.runs, i)} | 0 <= i < |st.runs| :: RunOk(st.runs, i))
    && (forall d {:trigger st.delegations[d]} | 0 <= d < |st.delegations| :: st.delegations[d].supervisor < |st.runs|)
    && (forall s {:trigger Balanced(st, s)} | 0 <= s < |st.runs| :: Balanced(st, s))
  }

  // ---------------------------------------------------------------------- as written

  class AgentRunStore {
    var rows: Store

    constructor ()
      ensures rows == EMPTY
    {
      rows := EMPTY;
    }

    method BudgetOwnerRow(id: nat) returns (owner: Result<Option<nat>>)
      requires id < |rows.runs|
      ensures owner == BudgetOwner(rows, id)
    {
      var run := rows.runs[id];
      if run.agent.Supervisor? {
        return Ok(Some(id));
      }
      var supervisor := run.supervisor;
      if supervisor.None? {
        return Ok(None);
      }
      if supervisor.value >= |rows.runs| {
        return Err(RecordNotFound);
      }
      return Ok(supervisor);
    }

    /** Saves the owner's row even when the reservation is denied. */
    method ReserveBudget(id: nat, kind: B.Kind, phase: B.Phase, now: int) returns (error: Option<Error>)
      requires id < |rows.runs|
      modifies this
      ensures (rows, error) == ReservingBudget(old(rows), id, kind, phase, now)
    {
      var owner := BudgetOwnerRow(id);
      if owner.Err? {
        return Some(owner.error);
      }
      if owner.value.None? || rows.runs[owner.value.value].budget.None? {
        return None;
      }
      var supervisor := rows.runs[owner.value.value];
      var budget := B.Resume(supervisor.budget.value, now);
      var (state, reason) := B.Reserving(budget, kind, phase, now);
      supervisor := supervisor.(budget := Some(state));
      rows := SaveRun(rows, owner.value.value, supervisor);
      if reason.Some? {
        return Some(BudgetExhausted);
      }
      return None;
    }

    method ReserveLlm(id: nat, callLimit: int, iterationLimit: int, phase: B.Phase, now: int) returns (error: Option<Error>)
      modifies this
      ensures (rows, error) == ReservingLlm(old(rows), id, callLimit, iterationLimit, phase, now)
    {
      if id >= |rows.runs| {
        return Some(RecordNotFound);
      }
      var run := rows.runs[id];
      if run.llmCalls >= callLimit || (iterationLimit != 0 && run.iterations >= iterationLimit) {
        return Some(TaskConflict);
      }
      error := ReserveBudget(id, B.LlmCalls, phase, now);
      if error.Some? {
        return;
      }
      // The reservation may have saved this very row, so it is read again.
      run := rows.runs[id];
      run := run.(llmCalls := run.llmCalls + 1);
      run := run.(phases := run.phases + multiset{phase});
      if iterationLimit != 0 {
        run := run.(iterations := run.iterations + 1);
      }
      rows := SaveRun(rows, id, run);
    }

    method CountCall(id: nat, kind: Counter, limit: int, now: int) returns (error: Option<Error>)
      modifies this
      ensures (rows, error) == CountingCall(old(rows), id, kind, limit, now)
    {
      if id >= |rows.runs| {
        return Some(RecordNotFound);
      }
      var run := rows.runs[id];
      if CounterOf(run, kind) >= limit {
        return Some(TaskConflict);
      }
      if kind.ToolCalls? {
        error := ReserveBudget(id, B.ToolCalls, B.Model, now);
        if error.Some? {
          return;
        }
        run := rows.runs[id];
      }
      rows := SaveRun(rows, id, Counted(run, kind));
      error := None;
    }

    /** Adds a token sample to one row. */
    method SampleRun(id: nat, total: Option<int>)
      requires id < |rows.runs|
      modifies this
      ensures rows == SaveRun(old(rows), id, Used(old(rows).runs[id], total))
    {
      var run := rows.runs[id];
      if total.Some? {
        run := run.(tokens := Some((if run.tokens.Some? then run.tokens.value else 0) + total.value));
        run := run.(samples := run.samples + 1);
      }
      if run.samples == run.llmCalls {
        run := run.(usage := Available);
      } else if run.tokens.Some? {
        run := run.(usage := Partial);
      }
      rows := SaveRun(rows, id, run);
    }

    method AddUsage(id: nat, total: Option<int>) returns (error: Option<Error>)
      modifies this
      ensures (rows, error) == AddingUsage(old(rows), id, total)
    {
      if id >= |rows.runs| {
        return Some(RecordNotFound);
      }
      var before := rows;
      SampleRun(id, total);
      var owner := BudgetOwnerRow(id);
      if owner.Err? {
        rows := before;
        return Some(owner.error);
      }
      error := None;
      if owner.value.Some? && rows.runs[owner.value.value].budget.Some? {
        var supervisor := rows.runs[owner.value.value];
        var budget := supervisor.budget.value;
        if total.Some? {
          budget := budget.(knownTokens := budget.knownTokens + total.value);
          budget := budget.(samples := budget.samples + 1);
        }
        budget := budget.(tokensUsed := if budget.samples == budget.llmCalls then Some(budget.knownTokens) else None);
        rows := SaveRun(rows, owner.value.value, supervisor.(budget := Some(budget)));
      }
    }

    method CreateDelegation(q: Request, maximum: int, now: int) returns (r: Result<Delegation>)
      modifies this
      ensures (rows, r) == CreatingDelegation(old(rows), q, maximum, now)
    {
      var known := Find(rows.delegations, q.id);
      if known.Some? {
        return Ok(known.value);
      }
      var count := CountRows(rows.delegations, DelegatedBy(q.supervisor));
      if count >= maximum {
        return Err(TaskConflict);
      }
      if q.supervisor >= |rows.runs| {
        return Err(RecordNotFound);
      }
      var phase := if q.agent.ReviewAgent? then B.Reviewer else if q.revision then B.Supplementary else B.Model;
      var denied := ReserveBudget(q.supervisor, B.Delegations, phase, now);
      if denied.Some? {
        return Err(denied.value);
      }
      var run := NewRun(q.agent, q.task, Some(q.supervisor), None);
      var row := Delegation(q.id, q.supervisor, |rows.runs|, q.agent, q.revision);
      rows := rows.(runs := rows.runs + [run]);
      rows := rows.(delegations := rows.delegations + [row]);
      r := Ok(row);
    }

    method RecordPreOrchestrationCalls(id: nat, analyzer: nat, router: nat) returns (error: Option<Error>)
      modifies this
      ensures (rows, error) == RecordingPreCalls(old(rows), id, analyzer, router)
    {
      if id >= |rows.runs| {
        return Some(RecordNotFound);
      }
      var run := rows.runs[id];
      var phases := PrePhases(analyzer, router);
      run := run.(llmCalls := run.llmCalls + analyzer + router);
      run := run.(phases := phases);
      if run.budget.Some? {
        var budget := run.budget.value;
        budget := budget.(llmCalls := budget.llmCalls + analyzer + router);
        budget := budget.(phases := phases);
        if budget.llmCalls >= budget.limits.llmCalls {
          budget := budget.(exhausted := true);
          budget := budget.(reasons := budget.reasons + [B.NoLlmCalls]);
        }
        run := run.(budget := Some(budget));
      }
      rows := SaveRun(rows, id, run);
      error := None;
    }
  }
}
