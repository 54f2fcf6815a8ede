/**
 The wall time of a shared budget and the reasons of its denials, over whole runs: only the
 seconds in which the budget was not paused count, and no reason is listed twice.
 */
module BudgetClock {
  import opened Wrappers
  import opened Basics
  import B = BudgetManager
  import opened AgentRuns
  import opened BudgetConservation
  import opened BudgetRuns

  /** What a run does to the budget of supervisor `s`, move by move. */
  function MovesOf(st: Store, steps: seq<Step>, s: nat): seq<Move>
    requires s < |st.runs|
    decreases |steps|
  {
    if steps == [] then []
    else
      var st' := Next(st, steps[0]).0;
      [MoveOf(st, steps[0], s)] + if s < |st'.runs| then MovesOf(st', steps[1..], s) else []
  }

  function Folded(b: B.Budget, moves: seq<Move>): B.Budget {
    if moves == [] then b else Moved(Folded(b, moves[..|moves| - 1]), moves[|moves| - 1])
  }

  lemma {:induction false} FoldFirst(b: B.Budget, move: Move, rest: seq<Move>)
    ensures Folded(b, [move] + rest) == Folded(Moved(b, move), rest)
  {
    var all := [move] + rest;
    if rest == [] {
      assert all[..0] == [];
    } else {
      var n := |rest| - 1;
      FoldFirst(b, move, rest[..n]);
      assert all[..n + 1] == [move] + rest[..n];
    }
  }

  /** A budget at the end of a run is its moves applied in turn. */
  lemma {:induction false} RunFolds(st: Store, steps: seq<Step>, s: nat, b: B.Budget)
    requires LedgerOk(st) && AllAdmissible(st, steps) && BudgetAt(st, s, b)
    ensures BudgetAt(After(st, steps), s, Folded(b, MovesOf(st, steps, s)))
    decreases |steps|
  {
    if steps != [] {
      NextKeepsLedger(st, steps[0]);
      NextMoves(st, steps[0], s, b);
      var st', move := Next(st, steps[0]).0, MoveOf(st, steps[0], s);
      RunFolds(st', steps[1..], s, Moved(b, move));
      FoldFirst(b, move, MovesOf(st', steps[1..], s));
    }
  }

  // ---------------------------------------------------------------------- limits

  ghost predicate WithinLimits(b: B.Budget) {
    && b.toolCalls <= b.limits.toolCalls && b.delegations <= b.limits.delegations
    && b.reviews <= b.limits.reviews && b.redelegations <= b.limits.redelegations
  }

  lemma MoveKeepsLimits(b: B.Budget, move: Move)
    requires WithinLimits(b)
    ensures WithinLimits(Moved(b, move)) && Moved(b, move).limits == b.limits
  {
    if move.Reserved? { B.ReservingExactly(B.Resume(b, move.at), move.kind, move.phase, move.at); }
  }

  lemma {:induction false} FoldKeepsLimits(b: B.Budget, moves: seq<Move>)
    requires WithinLimits(b)
    ensures WithinLimits(Folded(b, moves)) && Folded(b, moves).limits == b.limits
  {
    if moves != [] {
      FoldKeepsLimits(b, moves[..|moves| - 1]);
      MoveKeepsLimits(Folded(b, moves[..|moves| - 1]), moves[|moves| - 1]);
    }
  }

  /** Over every run, tool calls, delegations, reviews and redelegations stay within the limits a budget was created with. */
  lemma LimitsHold(st: Store, steps: seq<Step>, s: nat, limits: B.Limits, start: int)
    requires LedgerOk(st) && AllAdmissible(st, steps) && BudgetAt(st, s, B.Initial(limits, start))
    ensures s < |After(st, steps).runs| && After(st, steps).runs[s].budget.Some?
    ensures var b := After(st, steps).runs[s].budget.value;
            && b.limits == limits && b.toolCalls <= limits.toolCalls && b.delegations <= limits.delegations
            && b.reviews <= limits.reviews && b.redelegations <= limits.redelegations
  {
    RunFolds(st, steps, s, B.Initial(limits, start));
    FoldKeepsLimits(B.Initial(limits, start), MovesOf(st, steps, s));
  }

  /**
   In every reachable state a step that reserves succeeds against the budget exactly if no
   denial stands against it and count, wall time and tokens are below their limits; the wall
   time is that without the pauses.
   */
  lemma GrantedExactly(st: Store, step: Step, s: nat, b: B.Budget)
    requires LedgerOk(st) && Admissible(st, step) && BudgetAt(st, s, b) && MoveOf(st, step, s).Reserved?
    ensures var move := MoveOf(st, step, s);
            Next(st, step).1 != Some(BudgetExhausted) <==>
              && B.NotDenied(b, move.phase) && B.CountLeft(b, move.kind, move.phase)
              && B.Elapsed(B.Resume(b, move.at), move.at) < b.limits.wallTime
              && (b.limits.tokens.Some? ==> b.knownTokens < b.limits.tokens.value)
  {
    var move := MoveOf(st, step, s);
    B.ReservingExactly(B.Resume(b, move.at), move.kind, move.phase, move.at);
    StepReserves(st, step, s, b);
  }

  /** A step that reserves raises for the budget exactly if the reservation is refused. */
  lemma StepReserves(st: Store, step: Step, s: nat, b: B.Budget)
    requires LedgerOk(st) && Admissible(st, step) && BudgetAt(st, s, b) && MoveOf(st, step, s).Reserved?
    ensures var move := MoveOf(st, step, s);
            Next(st, step).1 == Some(BudgetExhausted) <==>
              B.Reserving(B.Resume(b, move.at), move.kind, move.phase, move.at).1.Some?
  {
    match step
    case CreateDelegation(q, _, now) =>
      assert RunOk(st.runs, q.supervisor);
      ReservationMoves(st, q.supervisor, B.Delegations, RequestPhase(q.agent, q.revision), now, s, b);
      ReservingSaves(st, q.supervisor, B.Delegations, RequestPhase(q.agent, q.revision), now);
    case ReserveLlm(id, _, _, phase, now) =>
      ReservationMoves(st, id, B.LlmCalls, phase, now, s, b);
      ReservingSaves(st, id, B.LlmCalls, phase, now);
    case CountCall(id, _, _, now) =>
      ReservationMoves(st, id, B.ToolCalls, B.Model, now, s, b);
      ReservingSaves(st, id, B.ToolCalls, B.Model, now);
    case CreateSupervisor(_, _, _) =>
    case AddUsage(_, _) =>
    case RecordPreCalls(_, _, _) =>
    case PauseBudget(_, _) =>
  }

  // ------------------------------------------------------------------------ time

  /** The time of a move that looks at the clock. */
  function TimeOf(move: Move): Option<int> {
    match move
    case Reserved(_, _, at) => Some(at)
    case Paused(at) => Some(at)
    case Kept => None
    case Sampled(_) => None
    case Recorded(_, _) => None
  }

  function LastTime(moves: seq<Move>, start: int): int {
    if moves == [] then start
    else if TimeOf(moves[|moves| - 1]).Some? then TimeOf(moves[|moves| - 1]).value
    else LastTime(moves[..|moves| - 1], start)
  }

  /** The clock does not run backwards. */
  predicate Ordered(moves: seq<Move>, start: int) {
    moves != [] ==>
      var before, last := moves[..|moves| - 1], moves[|moves| - 1];
      Ordered(before, start) && (TimeOf(last).Some? ==> LastTime(before, start) <= TimeOf(last).value)
  }

  /** The seconds until `now` in which the budget was not paused: a pause stops them, a reservation starts them again. */
  function ActiveSeconds(moves: seq<Move>, start: int, now: int): int {
    if moves == [] then now - start
    else
      var before, last := moves[..|moves| - 1], moves[|moves| - 1];
      match last
      case Paused(at) => ActiveSeconds(before, start, at)
      case Reserved(_, _, at) => ActiveSeconds(before, start, at) + now - at
      case Kept => ActiveSeconds(before, start, now)
      case Sampled(_) => ActiveSeconds(before, start, now)
      case Recorded(_, _) => ActiveSeconds(before, start, now)
  }

  /** What one move does to the time fields. */
  lemma MoveOfTime(b: B.Budget, move: Move)
    ensures var b' := Moved(b, move);
            && b'.startedAt == b.startedAt
            && match move
               case Paused(at) => b'.pausedSeconds == b.pausedSeconds && b'.pausedAt == Some(if b.pausedAt.Some? then b.pausedAt.value else at)
               case Reserved(_, _, at) => b'.pausedAt.None? && b'.pausedSeconds == B.Resume(b, at).pausedSeconds
               case Kept => b'.pausedAt == b.pausedAt && b'.pausedSeconds == b.pausedSeconds
               case Sampled(_) => b'.pausedAt == b.pausedAt && b'.pausedSeconds == b.pausedSeconds
               case Recorded(_, _) => b'.pausedAt == b.pausedAt && b'.pausedSeconds == b.pausedSeconds
  {
  }

  /** Wall time net of the pauses, before it is cut at zero. */
  function Net(b: B.Budget, now: int): int {
    now - b.startedAt - b.pausedSeconds - if b.pausedAt.Some? then now - b.pausedAt.value else 0
  }

  lemma {:induction false} NetIsActive(limits: B.Limits, moves: seq<Move>, start: int, now: int)
    requires Ordered(moves, start) && LastTime(moves, start) <= now
    ensures var b := Folded(B.Initial(limits, start), moves);
            && Net(b, now) == ActiveSeconds(moves, start, now) >= 0
            && start <= LastTime(moves, start)
            && (b.pausedAt.Some? ==> b.pausedAt.value <= LastTime(moves, start))
  {
    if moves != [] {
      var before, last := moves[..|moves| - 1], moves[|moves| - 1];
      MoveOfTime(Folded(B.Initial(limits, start), before), last);
      NetIsActive(limits, before, start, if TimeOf(last).Some? then TimeOf(last).value else now);
    }
  }

  /**
   The elapsed time of a budget, which its wall-time limit is checked against, is at every
   moment of a run the time since its creation without the pauses.
   */
  lemma ElapsedIsActiveTime(st: Store, steps: seq<Step>, s: nat, limits: B.Limits, start: int, now: int)
    requires LedgerOk(st) && AllAdmissible(st, steps) && BudgetAt(st, s, B.Initial(limits, start))
    requires Ordered(MovesOf(st, steps, s), start) && LastTime(MovesOf(st, steps, s), start) <= now
    ensures s < |After(st, steps).runs| && After(st, steps).runs[s].budget.Some?
    ensures B.Elapsed(After(st, steps).runs[s].budget.value, now) == ActiveSeconds(MovesOf(st, steps, s), start, now)
  {
    RunFolds(st, steps, s, B.Initial(limits, start));
    NetIsActive(limits, MovesOf(st, steps, s), start, now);
  }

  // --------------------------------------------------------------------- reasons

  /** A budget with no LLM call yet was not refused one. */
  ghost predicate Listed(b: B.Budget) {
    B.ValidLimits(b.limits) && Distinct(b.reasons) && (b.llmCalls == 0 ==> B.NoLlmCalls !in b.reasons)
  }

  lemma ExhaustKeepsDistinct(b: B.Budget, reason: B.Reason)
    requires Distinct(b.reasons)
    ensures Distinct(B.Exhaust(b, reason).reasons)
    ensures forall x | x in B.Exhaust(b, reason).reasons :: x in b.reasons || x == reason
  {
  }

  lemma FirstCallNotRefused(b: B.Budget, kind: B.Kind, phase: B.Phase, now: int)
    requires Listed(b) && b.llmCalls == 0
    ensures B.Refusal(b, kind, phase, now) != Some(B.NoLlmCalls)
  {
  }

  lemma ReservingKeepsListed(b: B.Budget, kind: B.Kind, phase: B.Phase, now: int)
    requires Listed(b)
    ensures Listed(B.Reserving(b, kind, phase, now).0)
  {
    var refused := B.Refusal(b, kind, phase, now);
    if refused.Some? {
      ExhaustKeepsDistinct(b, refused.value);
      if b.llmCalls == 0 { FirstCallNotRefused(b, kind, phase, now); }
    } else {
      assert B.Charge(b, kind, phase).reasons == b.reasons;
    }
  }

  /** Recording earlier calls appends a reason without looking: it is listed twice exactly if it was listed before. */
  lemma RecordingListsExactly(b: B.Budget, analyzer: nat, router: nat)
    requires Distinct(b.reasons)
    ensures Distinct(PreCounted(b, analyzer, router).reasons) <==>
            !(b.llmCalls + analyzer + router >= b.limits.llmCalls && B.NoLlmCalls in b.reasons)
  {
    var reasons := PreCounted(b, analyzer, router).reasons;
    if b.llmCalls + analyzer + router >= b.limits.llmCalls && B.NoLlmCalls in b.reasons {
      var i :| 0 <= i < |b.reasons| && b.reasons[i] == B.NoLlmCalls;
      assert reasons[i] == reasons[|b.reasons|];
    }
  }

  lemma MoveKeepsListed(b: B.Budget, move: Move)
    requires Listed(b) && (move.Recorded? ==> b.llmCalls == 0)
    ensures Listed(Moved(b, move))
  {
    match move
    case Reserved(kind, phase, at) => ReservingKeepsListed(B.Resume(b, at), kind, phase, at);
    case Recorded(analyzer, router) => RecordingListsExactly(b, analyzer, router);
    case Paused(_) =>
    case Kept =>
    case Sampled(_) =>
  }

  /** Over every run, a budget lists each reason once. */
  lemma {:induction false} ReasonsListedOnce(st: Store, steps: seq<Step>, s: nat, b: B.Budget)
    requires LedgerOk(st) && AllAdmissible(st, steps) && BudgetAt(st, s, b) && Listed(b)
    ensures s < |After(st, steps).runs| && After(st, steps).runs[s].budget.Some?
    ensures Distinct(After(st, steps).runs[s].budget.value.reasons)
    decreases |steps|
  {
    if steps != [] {
      NextKeepsLedger(st, steps[0]);
      NextMoves(st, steps[0], s, b);
      var move := MoveOf(st, steps[0], s);
      if move.Recorded? { RecordMeansFresh(st, steps[0], s, b); }
      MoveKeepsListed(b, move);
      ReasonsListedOnce(Next(st, steps[0]).0, steps[1..], s, Moved(b, move));
    }
  }
}
