/**
 The shared budget of a multi-agent run: reservations, denials, pauses, and the calls held
 back for the finalizing phases.
 */
module BudgetManager {
  import opened Wrappers
  import opened Basics

  datatype Phase =
    | QueryAnalyzer | Router | Model | Reviewer | Supplementary
    | FinalSynthesis | Grounding | AnswerRevision | Memory
    | OtherPhase(name: nat)

  datatype Kind = LlmCalls | ToolCalls | Delegations

  datatype Reason =
    | NoLlmCalls | NoToolCalls | NoDelegations | NoReviewRounds | NoRedelegations | NoWallTime | NoTokens

  datatype Limits = Limits(
    delegations: nat, llmCalls: nat, toolCalls: nat, tokens: Option<nat>, wallTime: int, reviews: nat, redelegations: nat)

  predicate ValidLimits(l: Limits) {
    l.delegations >= 1 && l.llmCalls >= 1 && l.toolCalls >= 1 && l.wallTime > 0 && (l.tokens.Some? ==> l.tokens.value >= 1)
  }

  /** Times are whole seconds of one clock; `phases` holds one element for each counted call. */
  datatype Budget = Budget(
    limits: Limits, startedAt: int, pausedAt: Option<int>, pausedSeconds: int,
    llmCalls: nat, toolCalls: nat, delegations: nat, reviews: nat, redelegations: nat,
    knownTokens: int, samples: nat, tokensUsed: Option<int>,
    exhausted: bool, reasons: seq<Reason>, phases: multiset<Phase>)

  function Initial(limits: Limits, now: int): Budget {
    Budget(limits, now, None, 0, 0, 0, 0, 0, 0, 0, 0, None, false, [], multiset{})
  }

  predicate Finalizer(phase: Phase) {
    phase.FinalSynthesis? || phase.Grounding? || phase.AnswerRevision? || phase.Memory?
  }

  /** LLM calls held back for the finalizing phases. */
  function HeldBack(l: Limits): nat {
    Min(4, Max(0, l.llmCalls - 1))
  }

  function Elapsed(b: Budget, now: int): int {
    Max(0, now - b.startedAt - b.pausedSeconds - if b.pausedAt.Some? then Max(0, now - b.pausedAt.value) else 0)
  }

  function Pause(b: Budget, now: int): Budget {
    if b.pausedAt.Some? then b else b.(pausedAt := Some(now))
  }

  function Resume(b: Budget, now: int): Budget {
    if b.pausedAt.None? then b
    else b.(pausedAt := None, pausedSeconds := b.pausedSeconds + Max(0, now - b.pausedAt.value))
  }

  /** Why a reservation is refused, in the order in which the reasons are checked. */
  function Refusal(b: Budget, kind: Kind, phase: Phase, now: int): Option<Reason> {
    if b.exhausted && !Finalizer(phase) && b.reasons != [] then Some(b.reasons[0])
    else if kind.LlmCalls? && b.llmCalls >= b.limits.llmCalls - (if Finalizer(phase) then 0 else HeldBack(b.limits)) then
      Some(NoLlmCalls)
    else if kind.ToolCalls? && b.toolCalls >= b.limits.toolCalls then Some(NoToolCalls)
    else if kind.Delegations? && b.delegations >= b.limits.delegations then Some(NoDelegations)
    else if kind.Delegations? && phase.Reviewer? && b.reviews >= b.limits.reviews then Some(NoReviewRounds)
    else if kind.Delegations? && phase.Supplementary? && b.redelegations >= b.limits.redelegations then Some(NoRedelegations)
    else if Elapsed(b, now) >= b.limits.wallTime then Some(NoWallTime)
    else if b.limits.tokens.Some? && b.knownTokens >= b.limits.tokens.value then Some(NoTokens)
    else None
  }

  /** Marking a budget exhausted keeps the first reason and lists each reason once. */
  function Exhaust(b: Budget, reason: Reason): Budget {
    b.(exhausted := true, reasons := if reason in b.reasons then b.reasons else b.reasons + [reason])
  }

  function Charge(b: Budget, kind: Kind, phase: Phase): Budget {
    match kind
    case LlmCalls => b.(llmCalls := b.llmCalls + 1, phases := b.phases + multiset{phase})
    case ToolCalls => b.(toolCalls := b.toolCalls + 1)
    case Delegations =>
      b.(delegations := b.delegations + 1,
         reviews := b.reviews + (if phase.Reviewer? then 1 else 0),
         redelegations := b.redelegations + (if phase.Supplementary? then 1 else 0))
  }

  function Reserving(b: Budget, kind: Kind, phase: Phase, now: int): (Budget, Option<Reason>) {
    match Refusal(b, kind, phase, now)
    case Some(reason) => (Exhaust(b, reason), Some(reason))
    case None => (Charge(b, kind, phase), None)
  }

  /** The counters a reservation may move. */
  predicate SameCounters(a: Budget, b: Budget) {
    && a.limits == b.limits && a.llmCalls == b.llmCalls && a.toolCalls == b.toolCalls && a.delegations == b.delegations
    && a.reviews == b.reviews && a.redelegations == b.redelegations && a.knownTokens == b.knownTokens
    && a.samples == b.samples && a.phases == b.phases
  }

  // ------------------------------------------------------- what a reservation decides

  /** The count that a reservation of this kind and phase moves is below what it may reach. */
  predicate CountLeft(b: Budget, kind: Kind, phase: Phase) {
    match kind
    case LlmCalls =>
      b.llmCalls < b.limits.llmCalls
                   - if phase in {FinalSynthesis, Grounding, AnswerRevision, Memory} then 0 else Min(4, Max(0, b.limits.llmCalls - 1))
    case ToolCalls => b.toolCalls < b.limits.toolCalls
    case Delegations =>
      && b.delegations < b.limits.delegations
      && (phase == Reviewer ==> b.reviews < b.limits.reviews)
      && (phase == Supplementary ==> b.redelegations < b.limits.redelegations)
  }

  /** No denial stands against the phase; finalizing phases are exempt. */
  predicate NotDenied(b: Budget, phase: Phase) {
    phase in {FinalSynthesis, Grounding, AnswerRevision, Memory} || !b.exhausted || b.reasons == []
  }

  /**
   A reservation is granted exactly if no denial stands against it, its count is below its
   limit (beside the calls held back for finalizing), wall time is left, and the known tokens
   are below their limit if there is one. Granting moves its counts by one and nothing else.
   */
  lemma ReservingExactly(b: Budget, kind: Kind, phase: Phase, now: int)
    ensures var (b', refused) := Reserving(b, kind, phase, now);
            && (refused.None? <==>
                  && NotDenied(b, phase) && CountLeft(b, kind, phase)
                  && Elapsed(b, now) < b.limits.wallTime && (b.limits.tokens.Some? ==> b.knownTokens < b.limits.tokens.value))
            && (refused.None? ==>
                  && b'.llmCalls == b.llmCalls + (if kind.LlmCalls? then 1 else 0)
                  && b'.toolCalls == b.toolCalls + (if kind.ToolCalls? then 1 else 0)
                  && b'.delegations == b.delegations + (if kind.Delegations? then 1 else 0)
                  && b'.reviews == b.reviews + (if kind.Delegations? && phase == Reviewer then 1 else 0)
                  && b'.redelegations == b.redelegations + (if kind.Delegations? && phase == Supplementary then 1 else 0)
                  && b'.phases == b.phases + (if kind.LlmCalls? then multiset{phase} else multiset{})
                  && b' == b.(llmCalls := b'.llmCalls, toolCalls := b'.toolCalls, delegations := b'.delegations,
                              reviews := b'.reviews, redelegations := b'.redelegations, phases := b'.phases))
  {
  }

  /** Whether a reason to refuse applies. */
  predicate Applies(b: Budget, kind: Kind, phase: Phase, now: int, reason: Reason) {
    match reason
    case NoLlmCalls => kind.LlmCalls? && !CountLeft(b, kind, phase)
    case NoToolCalls => kind.ToolCalls? && b.toolCalls >= b.limits.toolCalls
    case NoDelegations => kind.Delegations? && b.delegations >= b.limits.delegations
    case NoReviewRounds => kind.Delegations? && phase == Reviewer && b.reviews >= b.limits.reviews
    case NoRedelegations => kind.Delegations? && phase == Supplementary && b.redelegations >= b.limits.redelegations
    case NoWallTime => Elapsed(b, now) >= b.limits.wallTime
    case NoTokens => b.limits.tokens.Some? && b.knownTokens >= b.limits.tokens.value
  }

  /** A refusal gives the first reason of an earlier denial, or one that applies now. */
  lemma RefusalHasReason(b: Budget, kind: Kind, phase: Phase, now: int)
    ensures var (b', refused) := Reserving(b, kind, phase, now);
            refused.Some? ==>
              && (if NotDenied(b, phase) then Applies(b, kind, phase, now, refused.value) else refused.value == b.reasons[0])
              && b'.exhausted && refused.value in b'.reasons && b.reasons <= b'.reasons
  {
  }

  // -------------------------------------------------------------- finalizer reserve

  function NonFinalizerCalls(phases: multiset<Phase>): int {
    |phases| - FinalizerCalls(phases)
  }

  function FinalizerCalls(phases: multiset<Phase>): nat {
    phases[FinalSynthesis] + phases[Grounding] + phases[AnswerRevision] + phases[Memory]
  }

  /** A budget whose bookkeeping is in order and whose ordinary calls left the finalizer's share alone. */
  ghost predicate ShareKept(b: Budget) {
    && ValidLimits(b.limits)
    && |b.phases| == b.llmCalls <= b.limits.llmCalls
    && NonFinalizerCalls(b.phases) <= b.limits.llmCalls - HeldBack(b.limits)
    && (b.exhausted <==> b.reasons != [])
  }

  lemma PhaseAdded(phases: multiset<Phase>, phase: Phase)
    ensures var after := phases + multiset{phase};
            && |after| == |phases| + 1
            && FinalizerCalls(after) == FinalizerCalls(phases) + (if Finalizer(phase) then 1 else 0)
  {
  }

  /** Reservations of any kind keep the finalizer's share, and a denial moves no counter. */
  lemma ReservingKeepsShare(b: Budget, kind: Kind, phase: Phase, now: int)
    requires ShareKept(b)
    ensures var (b', refused) := Reserving(b, kind, phase, now);
            ShareKept(b') && (refused.Some? ==> SameCounters(b, b') && b'.exhausted)
  {
    PhaseAdded(b.phases, phase);
  }

  /** As long as fewer finalizing calls than were held back have run, none is refused for the call count. */
  lemma FinalizerIsServed(b: Budget, phase: Phase, now: int)
    requires ShareKept(b) && Finalizer(phase) && FinalizerCalls(b.phases) < HeldBack(b.limits)
    ensures var (b', refused) := Reserving(b, LlmCalls, phase, now);
            && refused != Some(NoLlmCalls)
            && (refused.None? ==> FinalizerCalls(b'.phases) == FinalizerCalls(b.phases) + 1)
  {
    PhaseAdded(b.phases, phase);
  }

  /** After a denial, every later reservation outside the finalizing phases fails with the same first reason. */
  lemma ExhaustionIsSticky(b: Budget, kind: Kind, phase: Phase, now: int)
    requires b.exhausted && b.reasons != []
    ensures var (b', refused) := Reserving(b, kind, phase, now);
            && b'.exhausted && b'.reasons != [] && b'.reasons[0] == b.reasons[0]
            && (!Finalizer(phase) ==> refused == Some(b.reasons[0]) && SameCounters(b, b'))
  {
  }

  // --------------------------------------------------------------------- as written

  class Ledger {
    var state: Budget

    constructor (limits: Limits, now: int)
      ensures state == Initial(limits, now)
    {
      state := Initial(limits, now);
    }

    method Reserve(kind: Kind, phase: Phase, now: int) returns (reason: Option<Reason>)
      requires state.exhausted ==> state.reasons != []
      modifies this
      ensures (state, reason) == Reserving(old(state), kind, phase, now)
    {
      var limits := state.limits;
      var elapsed := Elapsed(state, now);
      var finalizer := Finalizer(phase);
      reason := None;
      if state.exhausted && !finalizer {
        reason := Some(state.reasons[0]);
      } else if kind.LlmCalls? && state.llmCalls >= limits.llmCalls - (if finalizer then 0 else Min(4, Max(0, limits.llmCalls - 1))) {
        reason := Some(NoLlmCalls);
      } else if kind.ToolCalls? && state.toolCalls >= limits.toolCalls {
        reason := Some(NoToolCalls);
      } else if kind.Delegations? && state.delegations >= limits.delegations {
        reason := Some(NoDelegations);
      } else if kind.Delegations? && phase.Reviewer? && state.reviews >= limits.reviews {
        reason := Some(NoReviewRounds);
      } else if kind.Delegations? && phase.Supplementary? && state.redelegations >= limits.redelegations {
        reason := Some(NoRedelegations);
      } else if elapsed >= limits.wallTime {
        reason := Some(NoWallTime);
      } else if limits.tokens.Some? && state.knownTokens >= limits.tokens.value {
        reason := Some(NoTokens);
      }
      if reason.Some? {
        state := Exhaust(state, reason.value);
        return;
      }
      match kind {
        case LlmCalls =>
          state := state.(llmCalls := state.llmCalls + 1);
        case ToolCalls =>
          state := state.(toolCalls := state.toolCalls + 1);
        case Delegations =>
          state := state.(delegations := state.delegations + 1);
      }
      if kind.Delegations? && phase.Reviewer? {
        state := state.(reviews := state.reviews + 1);
      }
      if kind.Delegations? && phase.Supplementary? {
        state := state.(redelegations := state.redelegations + 1);
      }
      if kind.LlmCalls? {
        state := state.(phases := state.phases + multiset{phase});
      }
    }
  }
}
