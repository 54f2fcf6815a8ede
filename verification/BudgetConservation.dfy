/**
 Conservation of the shared budget: over every run of the ledger's operations the counters
 of a budget are the sums over the rows charged to it, and a denial moves none of them.
 */
module BudgetConservation {
  import opened Wrappers
  import B = BudgetManager
  import opened AgentRuns

  // ------------------------------------------------------------------ sums

  lemma {:induction false} TotalUpdate(runs: seq<Run>, i: nat, r: Run, s: nat, of: Run -> int)
    requires i < |runs| && r.supervisor == runs[i].supervisor
    ensures Total(runs[i := r], s, of) == Total(runs, s, of) + if ChargedTo(runs, i, s) then of(r) - of(runs[i]) else 0
  {
    var n := |runs| - 1;
    if i < n {
      assert runs[i := r][..n] == runs[..n][i := r];
      TotalUpdate(runs[..n], i, r, s, of);
    } else {
      assert runs[i := r][..n] == runs[..n];
    }
  }

  lemma TotalAppend(runs: seq<Run>, r: Run, s: nat, of: Run -> int)
    ensures Total(runs + [r], s, of) ==
            Total(runs, s, of) + if s == |runs| || r.supervisor == Some(s) then of(r) else 0
  {
    assert (runs + [r])[..|runs|] == runs;
  }

  lemma {:induction false} NothingCharged(runs: seq<Run>, s: nat, of: Run -> int)
    requires |runs| <= s && forall i | 0 <= i < |runs| :: runs[i].supervisor != Some(s)
    ensures Total(runs, s, of) == 0
  {
    if runs != [] {
      NothingCharged(runs[..|runs| - 1], s, of);
    }
  }

  // ------------------------------------------------------------- one row, one budget

  /** The supervisor whose budget a row is charged to. */
  function Owner(runs: seq<Run>, i: nat): nat
    requires i < |runs| && RunOk(runs, i)
  {
    if runs[i].agent.Supervisor? then i else runs[i].supervisor.value
  }

  /** A change of a budget that matches the change of a row charged to it. */
  ghost predicate Matches(b: B.Budget, b': B.Budget, r: Run, r': Run) {
    && b'.llmCalls - b.llmCalls == r'.llmCalls - r.llmCalls
    && b'.toolCalls - b.toolCalls == r'.toolCalls - r.toolCalls
    && b'.knownTokens - b.knownTokens == TokensOf()(r') - TokensOf()(r)
    && b'.samples - b.samples == r'.samples - r.samples
    && (forall p {:trigger b'.phases[p]} :: b'.phases[p] + r.phases[p] == b.phases[p] + r'.phases[p])
    && (|b.phases| == b.llmCalls ==> |b'.phases| == b'.llmCalls)
    && b'.delegations == b.delegations && b'.reviews == b.reviews && b'.redelegations == b.redelegations
  }

  ghost predicate SameIdentity(r: Run, r': Run) {
    r'.agent == r.agent && r'.supervisor == r.supervisor && r'.budget == r.budget
  }

  /** The rows after a budget and then a row have been saved. */
  function Saved(runs: seq<Run>, s: nat, budget: Option<B.Budget>, i: nat, r: Run): seq<Run>
    requires s < |runs| && i < |runs|
  {
    runs[s := runs[s].(budget := budget)][i := r]
  }

  lemma TotalsSaved(runs: seq<Run>, s: nat, budget: Option<B.Budget>, i: nat, r: Run, t: nat, of: Run -> int)
    requires s < |runs| && i < |runs| && r.supervisor == runs[i].supervisor
    requires of(runs[s].(budget := budget)) == of(runs[s])
    ensures Total(Saved(runs, s, budget, i, r), t, of) ==
            Total(runs, t, of) + if ChargedTo(runs, i, t) then of(r) - of(runs[i]) else 0
  {
    var runs1 := runs[s := runs[s].(budget := budget)];
    TotalUpdate(runs, s, runs[s].(budget := budget), t, of);
    TotalUpdate(runs1, i, r, t, of);
  }

  lemma OwnBalance(runs: seq<Run>, delegations: seq<Delegation>, s: nat, i: nat, b: B.Budget, b': B.Budget, r: Run)
    requires s < |runs| && i < |runs| && ChargedTo(runs, i, s) && r.supervisor == runs[i].supervisor
    requires CallsBalance(runs, s, b) && PhasesBalance(runs, s, b) && RowsBalance(delegations, s, b)
    requires Matches(b, b', runs[i], r)
    ensures CallsBalance(Saved(runs, s, Some(b'), i, r), s, b')
    ensures PhasesBalance(Saved(runs, s, Some(b'), i, r), s, b')
    ensures RowsBalance(delegations, s, b')
  {
    TotalsSaved(runs, s, Some(b'), i, r, s, LlmOf());
    TotalsSaved(runs, s, Some(b'), i, r, s, ToolsOf());
    TotalsSaved(runs, s, Some(b'), i, r, s, TokensOf());
    TotalsSaved(runs, s, Some(b'), i, r, s, SamplesOf());
    forall p {:trigger b'.phases[p]} ensures b'.phases[p] == Total(Saved(runs, s, Some(b'), i, r), s, PhaseOf(p)) {
      TotalsSaved(runs, s, Some(b'), i, r, s, PhaseOf(p));
      assert b.phases[p] == Total(runs, s, PhaseOf(p));
    }
  }

  lemma OtherBalance(runs: seq<Run>, s: nat, budget: Option<B.Budget>, i: nat, r: Run, t: nat, b: B.Budget)
    requires s < |runs| && i < |runs| && r.supervisor == runs[i].supervisor && !ChargedTo(runs, i, t)
    requires CallsBalance(runs, t, b) && PhasesBalance(runs, t, b)
    ensures CallsBalance(Saved(runs, s, budget, i, r), t, b) && PhasesBalance(Saved(runs, s, budget, i, r), t, b)
  {
    TotalsSaved(runs, s, budget, i, r, t, LlmOf());
    TotalsSaved(runs, s, budget, i, r, t, ToolsOf());
    TotalsSaved(runs, s, budget, i, r, t, TokensOf());
    TotalsSaved(runs, s, budget, i, r, t, SamplesOf());
    forall p {:trigger b.phases[p]} ensures b.phases[p] == Total(Saved(runs, s, budget, i, r), t, PhaseOf(p)) {
      TotalsSaved(runs, s, budget, i, r, t, PhaseOf(p));
    }
  }

  /** A row and its owner's budget move together: everything stays in balance. */
  lemma SavedKeepsLedger(st: Store, i: nat, budget: Option<B.Budget>, r: Run)
    requires LedgerOk(st) && i < |st.runs| && RunOk(st.runs, i)
    requires var s := Owner(st.runs, i);
             && (budget.Some? <==> st.runs[s].budget.Some?)
             && (budget.Some? ==> Matches(st.runs[s].budget.value, budget.value, st.runs[i], r))
             && SameIdentity(if s == i then st.runs[i].(budget := budget) else st.runs[i], r)
    ensures LedgerOk(st.(runs := Saved(st.runs, Owner(st.runs, i), budget, i, r)))
  {
    var s := Owner(st.runs, i);
    var runs := Saved(st.runs, s, budget, i, r);
    var st' := st.(runs := runs);
    forall k | 0 <= k < |runs| ensures RunOk(runs, k) {
      assert RunOk(st.runs, k);
    }
    forall t | 0 <= t < |runs| ensures Balanced(st', t) {
      assert Balanced(st, t) && RunOk(st.runs, t) && RunOk(st.runs, s);
      if runs[t].budget.Some? {
        if t == s {
          OwnBalance(st.runs, st.delegations, s, i, st.runs[s].budget.value, budget.value, r);
        } else {
          assert runs[t] == st.runs[t];
          OtherBalance(st.runs, s, budget, i, r, t, st.runs[t].budget.value);
        }
      }
    }
  }

  // ------------------------------------------------------------------ operations

  lemma OwnerIsBudgetOwner(st: Store, i: nat)
    requires LedgerOk(st) && i < |st.runs|
    ensures RunOk(st.runs, i) && BudgetOwner(st, i) == Ok(Some(Owner(st.runs, i)))
    ensures RunOk(st.runs, Owner(st.runs, i)) && st.runs[Owner(st.runs, i)].agent.Supervisor?
    ensures ChargedTo(st.runs, i, Owner(st.runs, i))
  {
    assert RunOk(st.runs, i);
    assert RunOk(st.runs, Owner(st.runs, i));
  }

  lemma ChargeMatches(b: B.Budget, kind: B.Kind, phase: B.Phase, now: int, r: Run, r': Run)
    requires !kind.Delegations? && B.Refusal(B.Resume(b, now), kind, phase, now).None?
    requires kind.LlmCalls? ==> r'.llmCalls == r.llmCalls + 1 && r'.phases == r.phases + multiset{phase} && r'.toolCalls == r.toolCalls
    requires kind.ToolCalls? ==> r'.toolCalls == r.toolCalls + 1 && r'.llmCalls == r.llmCalls && r'.phases == r.phases
    requires r'.tokens == r.tokens && r'.samples == r.samples
    ensures Matches(b, B.Reserving(B.Resume(b, now), kind, phase, now).0, r, r')
  {
  }

  lemma DenialMatches(b: B.Budget, kind: B.Kind, phase: B.Phase, now: int, r: Run, r': Run)
    requires B.Refusal(B.Resume(b, now), kind, phase, now).Some?
    requires r' == r.(budget := r'.budget)
    ensures Matches(b, B.Reserving(B.Resume(b, now), kind, phase, now).0, r, r')
    ensures B.SameCounters(b, B.Reserving(B.Resume(b, now), kind, phase, now).0)
  {
  }

  /** The row `i` once its owner's budget has been saved. */
  function Reloaded(st: Store, i: nat, budget: Option<B.Budget>): Run
    requires i < |st.runs| && RunOk(st.runs, i)
  {
    if st.runs[i].agent.Supervisor? then st.runs[i].(budget := budget) else st.runs[i]
  }

  /** The owner's budget after a reservation. */
  function ReservedBudget(budget: Option<B.Budget>, kind: B.Kind, phase: B.Phase, now: int): Option<B.Budget> {
    if budget.None? then None else Some(B.Reserving(B.Resume(budget.value, now), kind, phase, now).0)
  }

  lemma ReservingSaves(st: Store, i: nat, kind: B.Kind, phase: B.Phase, now: int)
    requires LedgerOk(st) && i < |st.runs|
    ensures var (st', denied) := ReservingBudget(st, i, kind, phase, now);
            RunOk(st.runs, i) &&
            var s := Owner(st.runs, i);
            var budget := ReservedBudget(st.runs[s].budget, kind, phase, now);
            && st' == st.(runs := st.runs[s := st.runs[s].(budget := budget)])
            && st'.runs[i] == Reloaded(st, i, budget)
            && (denied.Some? <==>
                 (st.runs[s].budget.Some? && B.Refusal(B.Resume(st.runs[s].budget.value, now), kind, phase, now).Some?))
            && (denied.Some? ==> denied.value.BudgetExhausted?)
  {
    OwnerIsBudgetOwner(st, i);
    var s := Owner(st.runs, i);
    if st.runs[s].budget.None? {
      assert st.runs[s := st.runs[s]] == st.runs;
    }
  }

  /** A denial leaves every row and every counter as it was: only the owner's budget is marked exhausted. */
  ghost predicate OnlyMarked(st: Store, st': Store, i: nat)
    requires i < |st.runs| && RunOk(st.runs, i)
  {
    var s := Owner(st.runs, i);
    && st.runs[s].budget.Some?
    && exists b: B.Budget {:trigger B.SameCounters(st.runs[s].budget.value, b)} ::
         B.SameCounters(st.runs[s].budget.value, b) && b.exhausted
         && st' == st.(runs := st.runs[s := st.runs[s].(budget := Some(b))])
  }

  lemma DenialMarks(st: Store, i: nat, kind: B.Kind, phase: B.Phase, now: int)
    requires LedgerOk(st) && i < |st.runs|
    requires ReservingBudget(st, i, kind, phase, now).1.Some?
    ensures RunOk(st.runs, i) && OnlyMarked(st, ReservingBudget(st, i, kind, phase, now).0, i)
  {
    ReservingSaves(st, i, kind, phase, now);
    var b := st.runs[Owner(st.runs, i)].budget.value;
    var budget := ReservedBudget(Some(b), kind, phase, now);
    DenialMatches(b, kind, phase, now, st.runs[i], Reloaded(st, i, budget));
    assert B.SameCounters(b, budget.value) && budget.value.exhausted;
  }

  lemma DenialKeepsLedger(st: Store, i: nat, kind: B.Kind, phase: B.Phase, now: int)
    requires LedgerOk(st) && i < |st.runs|
    requires ReservingBudget(st, i, kind, phase, now).1.Some?
    ensures var st' := ReservingBudget(st, i, kind, phase, now).0;
            LedgerOk(st') && RunOk(st.runs, i) && OnlyMarked(st, st', i)
  {
    ReservingSaves(st, i, kind, phase, now);
    DenialMarks(st, i, kind, phase, now);
    var s := Owner(st.runs, i);
    var b := st.runs[s].budget.value;
    var budget := ReservedBudget(Some(b), kind, phase, now);
    var r := Reloaded(st, i, budget);
    DenialMatches(b, kind, phase, now, st.runs[i], r);
    SavedKeepsLedger(st, i, budget, r);
    SavedTwice(st.runs, s, budget, i, r);
  }

  /** Saving a row as the owner's save left it changes nothing more. */
  lemma SavedTwice(runs: seq<Run>, s: nat, budget: Option<B.Budget>, i: nat, r: Run)
    requires s < |runs| && i < |runs| && r == runs[s := runs[s].(budget := budget)][i]
    ensures Saved(runs, s, budget, i, r) == runs[s := runs[s].(budget := budget)]
  {
  }

  lemma ReserveLlmKeepsLedger(st: Store, id: nat, callLimit: int, iterationLimit: int, phase: B.Phase, now: int)
    requires LedgerOk(st)
    ensures var (st', error) := ReservingLlm(st, id, callLimit, iterationLimit, phase, now);
            && LedgerOk(st')
            && (error.Some? ==> st' == st || (id < |st.runs| && RunOk(st.runs, id) && OnlyMarked(st, st', id)))
  {
    if id < |st.runs| && ReservingLlm(st, id, callLimit, iterationLimit, phase, now).0 != st {
      ReservingSaves(st, id, B.LlmCalls, phase, now);
      if ReservingBudget(st, id, B.LlmCalls, phase, now).1.Some? {
        DenialKeepsLedger(st, id, B.LlmCalls, phase, now);
      } else {
        var s := Owner(st.runs, id);
        var budget := ReservedBudget(st.runs[s].budget, B.LlmCalls, phase, now);
        var r := CountedLlm(Reloaded(st, id, budget), phase, iterationLimit != 0);
        if budget.Some? {
          ChargeMatches(st.runs[s].budget.value, B.LlmCalls, phase, now, st.runs[id], r);
        }
        SavedKeepsLedger(st, id, budget, r);
      }
    }
  }

  /** Whether counting a call bypasses the budget it should be charged to. */
  predicate Bypasses(st: Store, id: nat, kind: Counter) {
    kind.LlmCalls? && id < |st.runs| && BudgetOwner(st, id).Ok? && BudgetOwner(st, id).value.Some?
    && st.runs[BudgetOwner(st, id).value.value].budget.Some?
  }

  lemma CountCallKeepsLedger(st: Store, id: nat, kind: Counter, limit: int, now: int)
    requires LedgerOk(st) && !Bypasses(st, id, kind)
    ensures var (st', error) := CountingCall(st, id, kind, limit, now);
            && LedgerOk(st')
            && (error.Some? ==> st' == st || (id < |st.runs| && RunOk(st.runs, id) && OnlyMarked(st, st', id)))
  {
    if id < |st.runs| && CounterOf(st.runs[id], kind) < limit {
      OwnerIsBudgetOwner(st, id);
      var s := Owner(st.runs, id);
      if kind.ToolCalls? {
        ReservingSaves(st, id, B.ToolCalls, B.Model, now);
        if ReservingBudget(st, id, B.ToolCalls, B.Model, now).1.Some? {
          DenialKeepsLedger(st, id, B.ToolCalls, B.Model, now);
        } else {
          var budget := ReservedBudget(st.runs[s].budget, B.ToolCalls, B.Model, now);
          var r := Counted(Reloaded(st, id, budget), kind);
          if budget.Some? {
            ChargeMatches(st.runs[s].budget.value, B.ToolCalls, B.Model, now, st.runs[id], r);
          }
          SavedKeepsLedger(st, id, budget, r);
        }
      } else {
        var budget := st.runs[s].budget;
        var r := Counted(st.runs[id], kind);
        SavedKeepsLedger(st, id, budget, r);
        assert st.runs[s := st.runs[s].(budget := budget)] == st.runs;
      }
    }
  }

  lemma UsageMatches(b: B.Budget, total: Option<int>, r: Run, r': Run)
    requires r' == Used(r, total).(budget := r'.budget)
    ensures Matches(b, UsedBudget(b, total), r, r')
  {
  }

  lemma OwnerStays(st: Store, id: nat, total: Option<int>)
    requires LedgerOk(st) && id < |st.runs|
    ensures RunOk(st.runs, id)
    ensures var st', s := SaveRun(st, id, Used(st.runs[id], total)), Owner(st.runs, id);
            BudgetOwner(st', id) == Ok(Some(s)) && st'.runs[s].budget == st.runs[s].budget
  {
    OwnerIsBudgetOwner(st, id);
  }

  /** The owner's budget after a token sample. */
  function SampledBudget(budget: Option<B.Budget>, total: Option<int>): Option<B.Budget> {
    if budget.None? then None else Some(UsedBudget(budget.value, total))
  }

  /** Two saves of different rows commute; of one row, the fields add up. */
  lemma SavesCommute(st: Store, s: nat, id: nat, total: Option<int>)
    requires s < |st.runs| && id < |st.runs| && RunOk(st.runs, id) && s == Owner(st.runs, id)
    ensures var st' := SaveRun(st, id, Used(st.runs[id], total));
            var budget := SampledBudget(st.runs[s].budget, total);
            Saved(st.runs, s, budget, id, Used(Reloaded(st, id, budget), total)) == st'.runs[s := st'.runs[s].(budget := budget)]
  {
    var budget := SampledBudget(st.runs[s].budget, total);
    if s == id {
      assert Used(st.runs[id], total).(budget := budget) == Used(st.runs[id].(budget := budget), total);
    }
  }

  /** Saving the row first and the reloaded owner second is the same as the other way round. */
  lemma UsageSaves(st: Store, id: nat, total: Option<int>)
    requires LedgerOk(st) && id < |st.runs|
    ensures RunOk(st.runs, id) &&
            var s := Owner(st.runs, id);
            var budget := SampledBudget(st.runs[s].budget, total);
            AddingUsage(st, id, total) ==
              (st.(runs := Saved(st.runs, s, budget, id, Used(Reloaded(st, id, budget), total))), None)
  {
    OwnerStays(st, id, total);
    var s := Owner(st.runs, id);
    SavesCommute(st, s, id, total);
    var st' := SaveRun(st, id, Used(st.runs[id], total));
    if st.runs[s].budget.None? {
      assert st'.runs[s].(budget := None) == st'.runs[s];
      assert st'.runs[s := st'.runs[s]] == st'.runs;
    }
  }

  lemma AddUsageKeepsLedger(st: Store, id: nat, total: Option<int>)
    requires LedgerOk(st)
    ensures LedgerOk(AddingUsage(st, id, total).0)
  {
    if id < |st.runs| {
      UsageSaves(st, id, total);
      var s := Owner(st.runs, id);
      var budget := SampledBudget(st.runs[s].budget, total);
      var r := Used(Reloaded(st, id, budget), total);
      if budget.Some? {
        UsageMatches(st.runs[s].budget.value, total, st.runs[id], r);
      }
      SavedKeepsLedger(st, id, budget, r);
    }
  }

  lemma PauseKeepsLedger(st: Store, id: nat, now: int)
    requires LedgerOk(st)
    ensures LedgerOk(Pausing(st, id, now).0)
  {
    if id < |st.runs| && st.runs[id].budget.Some? {
      OwnerIsBudgetOwner(st, id);
      var budget := Some(B.Pause(st.runs[id].budget.value, now));
      SavedKeepsLedger(st, id, budget, st.runs[id].(budget := budget));
      assert Pausing(st, id, now).0.runs == Saved(st.runs, id, budget, id, st.runs[id].(budget := budget));
    }
  }

  // ---------------------------------------------------------------------- new rows

  lemma CountAppend(rows: seq<Delegation>, d: Delegation, of: Delegation -> bool)
    ensures CountRows(rows + [d], of) == CountRows(rows, of) + if of(d) then 1 else 0
  {
    assert (rows + [d])[..|rows|] == rows;
  }

  lemma {:induction false} NoRows(rows: seq<Delegation>, of: Delegation -> bool)
    requires forall i | 0 <= i < |rows| :: !of(rows[i])
    ensures CountRows(rows, of) == 0
  {
    if rows != [] { NoRows(rows[..|rows| - 1], of); }
  }

  ghost predicate Blank(r: Run) {
    r.llmCalls == 0 && r.toolCalls == 0 && r.tokens.None? && r.samples == 0 && r.phases == multiset{}
  }

  /** A blank row changes no sum of a supervisor that already exists. */
  lemma AppendKeepsBalance(runs: seq<Run>, r: Run, s: nat, b: B.Budget)
    requires s < |runs| && Blank(r) && CallsBalance(runs, s, b) && PhasesBalance(runs, s, b)
    ensures CallsBalance(runs + [r], s, b) && PhasesBalance(runs + [r], s, b)
  {
    TotalAppend(runs, r, s, LlmOf());
    TotalAppend(runs, r, s, ToolsOf());
    TotalAppend(runs, r, s, TokensOf());
    TotalAppend(runs, r, s, SamplesOf());
    forall p {:trigger b.phases[p]} ensures b.phases[p] == Total(runs + [r], s, PhaseOf(p)) {
      TotalAppend(runs, r, s, PhaseOf(p));
    }
  }

  /** A new supervisor starts with nothing charged to it. */
  lemma FreshBalance(st: Store, r: Run, limits: B.Limits, now: int)
    requires LedgerOk(st) && Blank(r)
    ensures CallsBalance(st.runs + [r], |st.runs|, B.Initial(limits, now))
    ensures PhasesBalance(st.runs + [r], |st.runs|, B.Initial(limits, now))
    ensures RowsBalance(st.delegations, |st.runs|, B.Initial(limits, now))
  {
    var runs, s, b := st.runs, |st.runs|, B.Initial(limits, now);
    forall i | 0 <= i < |runs| ensures runs[i].supervisor != Some(s) {
      assert RunOk(runs, i);
    }
    NothingCharged(runs, s, LlmOf());
    NothingCharged(runs, s, ToolsOf());
    NothingCharged(runs, s, TokensOf());
    NothingCharged(runs, s, SamplesOf());
    TotalAppend(runs, r, s, LlmOf());
    TotalAppend(runs, r, s, ToolsOf());
    TotalAppend(runs, r, s, TokensOf());
    TotalAppend(runs, r, s, SamplesOf());
    forall p {:trigger b.phases[p]} ensures b.phases[p] == Total(runs + [r], s, PhaseOf(p)) {
      NothingCharged(runs, s, PhaseOf(p));
      TotalAppend(runs, r, s, PhaseOf(p));
    }
    NoRows(st.delegations, DelegatedBy(s));
    NoRows(st.delegations, ReviewsBy(s));
    NoRows(st.delegations, RevisionsBy(s));
  }

  lemma CreateSupervisorKeepsLedger(st: Store, task: Option<nat>, limits: Option<B.Limits>, now: int)
    requires LedgerOk(st)
    ensures LedgerOk(CreatingSupervisor(st, task, limits, now).0)
  {
    var st' := CreatingSupervisor(st, task, limits, now).0;
    if st' != st {
      var budget := if limits.Some? then Some(B.Initial(limits.value, now)) else None;
      var r := NewRun(Supervisor, task, None, budget);
      forall i | 0 <= i < |st'.runs| ensures RunOk(st'.runs, i) {
        if i < |st.runs| { assert RunOk(st.runs, i); }
      }
      forall s | 0 <= s < |st'.runs| ensures Balanced(st', s) {
        if s < |st.runs| {
          assert Balanced(st, s) && st'.runs[s] == st.runs[s];
          if st.runs[s].budget.Some? { AppendKeepsBalance(st.runs, r, s, st.runs[s].budget.value); }
        } else if limits.Some? {
          FreshBalance(st, r, limits.value, now);
        }
      }
    }
  }

  /** A request that names a supervisor's run and asks for another kind of agent. */
  predicate Delegable(st: Store, q: Request) {
    q.supervisor < |st.runs| ==> st.runs[q.supervisor].agent.Supervisor? && !q.agent.Supervisor?
  }

  lemma RowCounted(delegations: seq<Delegation>, row: Delegation, b: B.Budget, s: nat)
    requires row.supervisor == s && RowsBalance(delegations, s, b)
    ensures RowsBalance(delegations + [row], s, B.Charge(b, B.Delegations, RequestPhase(row.agent, row.revision)))
  {
    CountAppend(delegations, row, DelegatedBy(s));
    CountAppend(delegations, row, ReviewsBy(s));
    CountAppend(delegations, row, RevisionsBy(s));
  }

  lemma RowOfOther(delegations: seq<Delegation>, row: Delegation, b: B.Budget, s: nat)
    requires row.supervisor != s && RowsBalance(delegations, s, b)
    ensures RowsBalance(delegations + [row], s, b)
  {
    CountAppend(delegations, row, DelegatedBy(s));
    CountAppend(delegations, row, ReviewsBy(s));
    CountAppend(delegations, row, RevisionsBy(s));
  }

  /** Saving a budget changes no row's calls. */
  lemma BudgetSaved(runs: seq<Run>, s: nat, budget: Option<B.Budget>, t: nat, b: B.Budget)
    requires s < |runs| && CallsBalance(runs, t, b) && PhasesBalance(runs, t, b)
    ensures var runs1 := runs[s := runs[s].(budget := budget)]; CallsBalance(runs1, t, b) && PhasesBalance(runs1, t, b)
  {
    var r := runs[s].(budget := budget);
    TotalUpdate(runs, s, r, t, LlmOf());
    TotalUpdate(runs, s, r, t, ToolsOf());
    TotalUpdate(runs, s, r, t, TokensOf());
    TotalUpdate(runs, s, r, t, SamplesOf());
    forall p {:trigger b.phases[p]} ensures b.phases[p] == Total(runs[s := r], t, PhaseOf(p)) {
      TotalUpdate(runs, s, r, t, PhaseOf(p));
    }
  }

  lemma SameCalls(runs: seq<Run>, s: nat, b: B.Budget, b': B.Budget)
    requires CallsBalance(runs, s, b) && PhasesBalance(runs, s, b)
    requires b'.llmCalls == b.llmCalls && b'.toolCalls == b.toolCalls && b'.knownTokens == b.knownTokens
    requires b'.samples == b.samples && b'.phases == b.phases
    ensures CallsBalance(runs, s, b') && PhasesBalance(runs, s, b')
  {
  }

  ghost predicate Granted(b: B.Budget, b': B.Budget, phase: B.Phase) {
    exists now: int {:trigger B.Resume(b, now)} :: b' == B.Charge(B.Resume(b, now), B.Delegations, phase)
  }

  /** A granted delegation adds a row, a blank run and a charge to the same supervisor. */
  lemma DelegationAdded(st: Store, q: Request, budget: Option<B.Budget>)
    requires LedgerOk(st) && q.supervisor < |st.runs| && Delegable(st, q)
    requires var before := st.runs[q.supervisor].budget;
             && (budget.Some? <==> before.Some?)
             && (budget.Some? ==> Granted(before.value, budget.value, RequestPhase(q.agent, q.revision)))
    ensures var s := q.supervisor;
            var row := Delegation(q.id, s, |st.runs|, q.agent, q.revision);
            LedgerOk(Store(st.runs[s := st.runs[s].(budget := budget)] + [NewRun(q.agent, q.task, Some(s), None)],
                           st.delegations + [row]))
  {
    var s := q.supervisor;
    var row := Delegation(q.id, s, |st.runs|, q.agent, q.revision);
    var r := NewRun(q.agent, q.task, Some(s), None);
    var runs1 := st.runs[s := st.runs[s].(budget := budget)];
    var st' := Store(runs1 + [r], st.delegations + [row]);
    assert RunOk(st.runs, s);
    forall i | 0 <= i < |st'.runs| ensures RunOk(st'.runs, i) {
      if i < |st.runs| { assert RunOk(st.runs, i); }
    }
    forall t | 0 <= t < |st'.runs| ensures Balanced(st', t) {
      if t < |st.runs| && st'.runs[t].budget.Some? {
        assert Balanced(st, t);
        var b := st.runs[t].budget.value;
        BudgetSaved(st.runs, s, budget, t, b);
        AppendKeepsBalance(runs1, r, t, b);
        if t == s {
          DelegationBalance(st, q, b, budget.value, runs1 + [r]);
        } else {
          RowOfOther(st.delegations, row, b, t);
        }
      }
    }
  }

  lemma DelegationBalance(st: Store, q: Request, b: B.Budget, b': B.Budget, runs: seq<Run>)
    requires Granted(b, b', RequestPhase(q.agent, q.revision))
    requires CallsBalance(runs, q.supervisor, b) && PhasesBalance(runs, q.supervisor, b)
    requires RowsBalance(st.delegations, q.supervisor, b)
    ensures CallsBalance(runs, q.supervisor, b') && PhasesBalance(runs, q.supervisor, b')
    ensures RowsBalance(st.delegations + [Delegation(q.id, q.supervisor, |st.runs|, q.agent, q.revision)], q.supervisor, b')
  {
    var now :| b' == B.Charge(B.Resume(b, now), B.Delegations, RequestPhase(q.agent, q.revision));
    SameCalls(runs, q.supervisor, b, b');
    RowCounted(st.delegations, Delegation(q.id, q.supervisor, |st.runs|, q.agent, q.revision), B.Resume(b, now), q.supervisor);
  }

  lemma CreateDelegationKeepsLedger(st: Store, q: Request, maximum: int, now: int)
    requires LedgerOk(st) && Delegable(st, q)
    ensures var (st', r) := CreatingDelegation(st, q, maximum, now);
            && LedgerOk(st')
            && (r.Err? ==> st' == st || (q.supervisor < |st.runs| && RunOk(st.runs, q.supervisor) && OnlyMarked(st, st', q.supervisor)))
  {
    var (st', r) := CreatingDelegation(st, q, maximum, now);
    if q.supervisor < |st.runs| && st' != st {
      var phase := RequestPhase(q.agent, q.revision);
      ReservingSaves(st, q.supervisor, B.Delegations, phase, now);
      if ReservingBudget(st, q.supervisor, B.Delegations, phase, now).1.Some? {
        DenialKeepsLedger(st, q.supervisor, B.Delegations, phase, now);
      } else {
        var budget := ReservedBudget(st.runs[q.supervisor].budget, B.Delegations, phase, now);
        if budget.Some? {
          assert Granted(st.runs[q.supervisor].budget.value, budget.value, phase) by {
            assert budget.value == B.Charge(B.Resume(st.runs[q.supervisor].budget.value, now), B.Delegations, phase);
          }
        }
        DelegationAdded(st, q, budget);
      }
    }
  }

  // ------------------------------------------------------ calls made before the run

  /**
   Recording earlier calls is in order on a supervisor whose budget has counted no call yet;
   on a delegated run whose owner has a budget, only if there is nothing to record or erase.
   */
  predicate Recordable(st: Store, id: nat, analyzer: nat, router: nat) {
    id < |st.runs| ==>
      var run := st.runs[id];
      if run.agent.Supervisor? then run.budget.Some? ==> run.budget.value.llmCalls == 0
      else
        run.supervisor.Some? && run.supervisor.value < |st.runs|
        && (st.runs[run.supervisor.value].budget.Some? ==> analyzer + router == 0 && run.phases == multiset{})
  }

  lemma {:induction false} TotalPositive(runs: seq<Run>, s: nat, i: nat, of: Run -> int)
    requires i < |runs| && ChargedTo(runs, i, s) && forall k | 0 <= k < |runs| :: of(runs[k]) >= 0
    ensures 0 <= of(runs[i]) <= Total(runs, s, of)
  {
    var n := |runs| - 1;
    if i < n {
      TotalPositive(runs[..n], s, i, of);
    } else {
      TotalNatural(runs[..n], s, of);
    }
  }

  lemma {:induction false} TotalNatural(runs: seq<Run>, s: nat, of: Run -> int)
    requires forall k | 0 <= k < |runs| :: of(runs[k]) >= 0
    ensures Total(runs, s, of) >= 0
  {
    if runs != [] {
      TotalNatural(runs[..|runs| - 1], s, of);
    }
  }

  lemma NoPhasesYet(b: B.Budget, p: B.Phase)
    requires |b.phases| == 0
    ensures b.phases[p] == 0
  {
    if b.phases[p] > 0 { assert p in b.phases; }
  }

  lemma PreCallsMatch(runs: seq<Run>, s: nat, b: B.Budget, analyzer: nat, router: nat, r: Run)
    requires s < |runs| && CallsBalance(runs, s, b) && PhasesBalance(runs, s, b) && b.llmCalls == 0
    requires r.llmCalls == runs[s].llmCalls + analyzer + router && r.phases == PrePhases(analyzer, router)
    requires r.toolCalls == runs[s].toolCalls && r.tokens == runs[s].tokens && r.samples == runs[s].samples
    ensures Matches(b, PreCounted(b, analyzer, router), runs[s], r)
  {
    forall p ensures b.phases[p] == 0 && runs[s].phases[p] == 0 {
      NoPhasesYet(b, p);
      assert b.phases[p] == Total(runs, s, PhaseOf(p));
      TotalPositive(runs, s, s, PhaseOf(p));
    }
  }

  lemma NothingRecordedMatches(b: B.Budget, r: Run)
    requires r.phases == multiset{}
    ensures Matches(b, b, r, r.(phases := PrePhases(0, 0)))
  {
    assert PrePhases(0, 0) == multiset{};
  }

  /** The owner's budget and the row itself after recording earlier calls. */
  function RecordedBudget(st: Store, id: nat, analyzer: nat, router: nat): Option<B.Budget>
    requires id < |st.runs| && RunOk(st.runs, id)
  {
    var s := Owner(st.runs, id);
    var before := st.runs[s].budget;
    if before.None? || s != id then before else Some(PreCounted(before.value, analyzer, router))
  }

  function RecordedRun(st: Store, id: nat, analyzer: nat, router: nat): Run
    requires id < |st.runs| && RunOk(st.runs, id)
  {
    Reloaded(st, id, RecordedBudget(st, id, analyzer, router)).(
      llmCalls := st.runs[id].llmCalls + analyzer + router, phases := PrePhases(analyzer, router))
  }

  lemma RecordPreSaves(st: Store, id: nat, analyzer: nat, router: nat)
    requires id < |st.runs| && RunOk(st.runs, id)
    ensures RecordingPreCalls(st, id, analyzer, router).0 ==
            st.(runs := Saved(st.runs, Owner(st.runs, id), RecordedBudget(st, id, analyzer, router), id, RecordedRun(st, id, analyzer, router)))
  {
    var s := Owner(st.runs, id);
    if s != id {
      assert st.runs[s].(budget := st.runs[s].budget) == st.runs[s];
      assert st.runs[s := st.runs[s]] == st.runs;
    }
  }

  lemma RecordPreMatches(st: Store, id: nat, analyzer: nat, router: nat)
    requires LedgerOk(st) && id < |st.runs| && RunOk(st.runs, id) && Recordable(st, id, analyzer, router)
    requires st.runs[Owner(st.runs, id)].budget.Some?
    ensures Matches(st.runs[Owner(st.runs, id)].budget.value, RecordedBudget(st, id, analyzer, router).value,
                    st.runs[id], RecordedRun(st, id, analyzer, router))
  {
    var s := Owner(st.runs, id);
    var b := st.runs[s].budget.value;
    assert Balanced(st, s);
    if s == id {
      PreCallsMatch(st.runs, s, b, analyzer, router, RecordedRun(st, id, analyzer, router));
    } else {
      NothingRecordedMatches(b, st.runs[id]);
    }
  }

  lemma RecordPreKeepsLedger(st: Store, id: nat, analyzer: nat, router: nat)
    requires LedgerOk(st) && Recordable(st, id, analyzer, router)
    ensures LedgerOk(RecordingPreCalls(st, id, analyzer, router).0)
  {
    if id < |st.runs| {
      OwnerIsBudgetOwner(st, id);
      RecordPreSaves(st, id, analyzer, router);
      if st.runs[Owner(st.runs, id)].budget.Some? {
        RecordPreMatches(st, id, analyzer, router);
      }
      SavedKeepsLedger(st, id, RecordedBudget(st, id, analyzer, router), RecordedRun(st, id, analyzer, router));
    }
  }

  // ----------------------------------------------------------- exactly these conditions

  lemma PrePhasesSize(analyzer: nat, router: nat)
    ensures |PrePhases(analyzer, router)| == analyzer + router
  {
  }

  /** Recording earlier calls keeps the ledger in balance exactly when they are recordable. */
  lemma RecordPreExactly(st: Store, id: nat, analyzer: nat, router: nat)
    requires LedgerOk(st)
    ensures LedgerOk(RecordingPreCalls(st, id, analyzer, router).0) <==> Recordable(st, id, analyzer, router)
  {
    var st' := RecordingPreCalls(st, id, analyzer, router).0;
    if Recordable(st, id, analyzer, router) {
      RecordPreKeepsLedger(st, id, analyzer, router);
    } else {
      OwnerIsBudgetOwner(st, id);
      var s := Owner(st.runs, id);
      assert Balanced(st, s);
      PrePhasesSize(analyzer, router);
      if LedgerOk(st') {
        assert Balanced(st', s);
        if s != id {
          RecordedOnDelegated(st, id, analyzer, router, s);
        }
        assert false;
      }
    }
  }

  lemma RecordedOnDelegated(st: Store, id: nat, analyzer: nat, router: nat, s: nat)
    requires LedgerOk(st) && id < |st.runs| && s < |st.runs| && s != id && st.runs[id].supervisor == Some(s)
    requires st.runs[s].budget.Some? && (analyzer + router > 0 || st.runs[id].phases != multiset{})
    requires st.runs[id].budget.None?
    ensures !Balanced(RecordingPreCalls(st, id, analyzer, router).0, s)
  {
    var st' := RecordingPreCalls(st, id, analyzer, router).0;
    var r := st'.runs[id];
    assert Balanced(st, s);
    TotalUpdate(st.runs, id, r, s, LlmOf());
    if analyzer + router == 0 {
      var p :| p in st.runs[id].phases;
      assert PrePhases(0, 0) == multiset{};
      TotalUpdate(st.runs, id, r, s, PhaseOf(p));
      var b := st.runs[s].budget.value;
      assert b.phases[p] == Total(st.runs, s, PhaseOf(p));
      assert r.phases[p] == 0;
      assert b.phases[p] != Total(st'.runs, s, PhaseOf(p));
    }
  }

  /** Counting an LLM call without a reservation breaks the balance exactly when a budget is bypassed. */
  lemma CountCallExactly(st: Store, id: nat, kind: Counter, limit: int, now: int)
    requires LedgerOk(st) && CountingCall(st, id, kind, limit, now).1.None?
    ensures LedgerOk(CountingCall(st, id, kind, limit, now).0) <==> !Bypasses(st, id, kind)
  {
    if Bypasses(st, id, kind) {
      var st' := CountingCall(st, id, kind, limit, now).0;
      OwnerIsBudgetOwner(st, id);
      var s := Owner(st.runs, id);
      TotalUpdate(st.runs, id, Counted(st.runs[id], kind), s, LlmOf());
      assert Balanced(st, s);
      assert !Balanced(st', s);
    } else {
      CountCallKeepsLedger(st, id, kind, limit, now);
    }
  }
}
