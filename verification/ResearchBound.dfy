/**
 When the step bound of the research graph is attained: the settings under which some run
 makes exactly `StepBound` visits, and the default settings as one of them.
 */
module ResearchBound {
  import opened Wrappers
  import opened Basics
  import opened ResearchGraph
  import opened ResearchReservation

  /** The steps that a single plan can have. */
  function PlanSize(c: Config): nat {
    if c.plannerEnabled then c.maxPlanSteps else 1
  }

  predicate HasExternal(c: Config) {
    Web in c.available || Arxiv in c.available
  }

  /** The corrections a run may use, each of which takes an attempt. */
  function Corrections(c: Config): nat {
    RewriteLimit(c) + c.maxReplan + 1
  }

  /** The attempts suffice for all corrections, and the plans and corrections can spend them all. */
  predicate Spendable(c: Config) {
    Corrections(c) + 1 <= c.maxIterations <= PlanSize(c) * (1 + c.maxReplan) + RewriteLimit(c) + 1
  }

  /** Every allowance that the bound counts can be used. */
  predicate Usable(c: Config) {
    && (RewriteLimit(c) > 0 ==> c.selfCorrect) && (c.maxReplan > 0 ==> c.plannerEnabled) && HasExternal(c)
  }

  predicate Attainable(c: Config) {
    Spendable(c) && Usable(c) && c.groundingCheck && c.answerRevisionMax > 0
  }

  /** The corrections made so far. */
  function Used(s: State): int {
    s.rewrites + s.replans + if s.fallbackDone then 1 else 0
  }

  /** The plan steps that could have been made so far. */
  function Capacity(c: Config, s: State): int {
    PlanSize(c) * (1 + s.replans) + s.rewrites + if s.fallbackDone then 1 else 0
  }

  // ------------------------------------------------ attained only if every allowance is used

  ghost predicate UsedOk(c: Config, s: State) {
    && (s.rewrites > 0 ==> c.selfCorrect) && (s.replans > 0 ==> c.plannerEnabled) && (s.fallbackDone ==> HasExternal(c))
  }

  /** What holds while a run wastes no visit. */
  ghost predicate Thrifty(c: Config, n: Node, s: State) {
    match n
    case QueryAnalyzer => Used(s) == 0 && s.attempts == 0 && s.revisions == 0
    case SimplePlan => Used(s) == 0 && s.attempts == 0 && s.revisions == 0
    case Planner => Used(s) == 0 && s.attempts == 0 && s.revisions == 0 && c.plannerEnabled
    case Executor => UsedOk(c, s) && Used(s) + s.step <= s.attempts && s.attempts + |s.plan| - s.step <= Capacity(c, s) && s.revisions == 0
    case StepEvaluator =>
      UsedOk(c, s) && Used(s) + s.step + 1 <= s.attempts && s.attempts + |s.plan| - s.step - 1 <= Capacity(c, s) && s.revisions == 0
    case EvidenceGrader => Graded(c, s)
    case QueryRefiner => Graded(c, s) && c.selfCorrect
    case Replanner => Graded(c, s) && c.plannerEnabled
    case ExternalFallback => Graded(c, s) && HasExternal(c)
    case Generator => Spendable(c) && Usable(c) && s.revisions == 0
    case Verifier => Spendable(c) && Usable(c) && (s.revisions > 0 ==> c.groundingCheck)
    case AnswerRevision => Spendable(c) && Usable(c) && c.groundingCheck
    case CitationValidator => Spendable(c) && Usable(c) && (c.answerRevisionMax > 0 ==> c.groundingCheck)
    case End => Spendable(c) && Usable(c) && (c.answerRevisionMax > 0 ==> c.groundingCheck)
  }

  ghost predicate Graded(c: Config, s: State) {
    UsedOk(c, s) && Used(s) + 1 <= s.attempts <= Capacity(c, s) && s.revisions == 0
  }

  /** A visit that lowers the measure by one only. */
  ghost predicate Exact(c: Config, n: Node, s: State, n': Node, s': State) {
    Remaining(c, n', s') == Remaining(c, n, s) - 1
  }

  lemma PlanFits(c: Config, s: State, proposal: Option<seq<PlanStep>>)
    requires c.maxPlanSteps > 0
    ensures |PlannerNode(c, s, proposal).plan| <= c.maxPlanSteps
  {
    LimitFits(c, s);
    PlannedSize(s, AdmittedSteps(c, s, proposal));
  }

  lemma AnalysisThrifty(c: Config, s: State, o: Oracle)
    requires ValidConfig(c) && Bounded(c, QueryAnalyzer, s)
    ensures var (n', s') := Visit(c, QueryAnalyzer, s, o); Exact(c, QueryAnalyzer, s, n', s') ==> Thrifty(c, n', s')
  {
    var s' := Analyze(c, s.scope, o.analysis);
    assert Used(s') == 0 && s'.attempts == 0 && s'.revisions == 0;
    assert Unspent(c, s') == Unspent(c, s) > 0;
  }

  /** A plan made for a run that has used `Used` corrections so far, at the start of its execution. */
  lemma PlanThrifty(c: Config, s: State)
    requires UsedOk(c, s) && s.step == 0 && s.revisions == 0
    requires Used(s) <= s.attempts && s.attempts + |s.plan| <= Capacity(c, s)
    ensures Thrifty(c, Executor, s)
  {
  }

  /** What one more correction adds to the capacity. */
  lemma CapacityGrows(c: Config, s: State, s': State)
    requires s'.attempts == s.attempts && Graded(c, s)
    requires (s'.rewrites == s.rewrites + 1 && s'.replans == s.replans && s'.fallbackDone == s.fallbackDone && |s'.plan| == 1)
          || (s'.rewrites == s.rewrites && s'.replans == s.replans && s'.fallbackDone && !s.fallbackDone && |s'.plan| == 1)
          || (s'.rewrites == s.rewrites && s'.replans == s.replans + 1 && s'.fallbackDone == s.fallbackDone && |s'.plan| <= PlanSize(c))
    ensures Used(s') <= s'.attempts && s'.attempts + |s'.plan| <= Capacity(c, s')
  {
    assert PlanSize(c) * (1 + (s.replans + 1)) == PlanSize(c) * (1 + s.replans) + PlanSize(c);
  }

  lemma FirstCapacity(c: Config, s: State)
    requires Used(s) == 0
    ensures Capacity(c, s) == PlanSize(c)
  {
  }

  lemma SimplePlanThrifty(c: Config, s: State)
    requires ValidConfig(c) && Thrifty(c, SimplePlan, s)
    ensures Thrifty(c, Executor, SimplePlanNode(s))
  {
    FirstCapacity(c, SimplePlanNode(s));
    PlanThrifty(c, SimplePlanNode(s));
  }

  lemma PlannerThrifty(c: Config, s: State, proposal: Option<seq<PlanStep>>)
    requires ValidConfig(c) && Thrifty(c, Planner, s)
    ensures Thrifty(c, Executor, PlannerNode(c, s, proposal))
  {
    var s' := PlannerNode(c, s, proposal);
    PlannerPlans(c, s, proposal);
    PlanFits(c, s, proposal);
    FirstCapacity(c, s');
    PlanThrifty(c, s');
  }

  lemma PlanningThrifty(c: Config, n: Node, s: State, o: Oracle)
    requires ValidConfig(c) && Thrifty(c, n, s) && (n.SimplePlan? || n.Planner?)
    ensures var (n', s') := Visit(c, n, s, o); Thrifty(c, n', s')
  {
    if n.Planner? {
      PlannerThrifty(c, s, o.proposal);
    } else {
      SimplePlanThrifty(c, s);
    }
  }

  lemma Replanned(c: Config, s: State, proposal: Option<seq<PlanStep>>)
    requires c.maxPlanSteps > 0 && c.plannerEnabled
    ensures var s' := ReplannerNode(c, s, proposal);
            && 0 < |s'.plan| <= PlanSize(c) && s'.step == 0 && SameCounters(s, s') && s'.replans == s.replans + 1
  {
    PlannerPlans(c, s, proposal);
    PlanFits(c, s, proposal);
  }

  lemma ReplanThrifty(c: Config, s: State, s': State)
    requires Graded(c, s) && c.plannerEnabled
    requires |s'.plan| <= PlanSize(c) && s'.step == 0 && SameCounters(s, s') && s'.replans == s.replans + 1
    ensures Thrifty(c, Executor, s')
  {
    CapacityGrows(c, s, s');
    PlanThrifty(c, s');
  }

  lemma ReplannerThrifty(c: Config, s: State, proposal: Option<seq<PlanStep>>)
    requires ValidConfig(c) && Thrifty(c, Replanner, s)
    ensures Thrifty(c, Executor, ReplannerNode(c, s, proposal))
  {
    Replanned(c, s, proposal);
    ReplanThrifty(c, s, ReplannerNode(c, s, proposal));
  }

  lemma ReplanningThrifty(c: Config, s: State, o: Oracle)
    requires ValidConfig(c) && Thrifty(c, Replanner, s)
    ensures var (n', s') := Visit(c, Replanner, s, o); Thrifty(c, n', s')
  {
    ReplannerThrifty(c, s, o.proposal);
  }

  lemma ExecutionThrifty(c: Config, n: Node, s: State, o: Oracle)
    requires Bounded(c, n, s) && Thrifty(c, n, s) && (n.Executor? || n.StepEvaluator?)
    ensures var (n', s') := Visit(c, n, s, o); Thrifty(c, n', s')
  {
    if n.Executor? {
      ExecutorSpends(c, s, o.tools);
    } else {
      StepIsEvaluated(c, s);
    }
  }

  /** An answer wastes nothing only when every attempt and every correction is spent. */
  lemma AnswerSpent(c: Config, s: State)
    requires Bounded(c, EvidenceGrader, s) && Graded(c, s) && Unspent(c, s) == 0
    ensures Spendable(c) && Usable(c)
  {
    assert s.attempts == c.maxIterations && s.rewrites == RewriteLimit(c) && s.replans == c.maxReplan && s.fallbackDone;
  }

  lemma ExternalMeansSource(c: Config, scope: Scope)
    requires ExternalAllowed(c, scope)
    ensures HasExternal(c)
  {
    AllowedSources(c, scope, EXTERNAL);
    assert Allowed(c, scope, EXTERNAL)[0] in Allowed(c, scope, EXTERNAL);
  }

  lemma ChoiceThrifty(c: Config, s: State, n': Node, s': State)
    requires Bounded(c, EvidenceGrader, s) && Graded(c, s) && SameCounters(s, s') && s'.replans == s.replans
    requires n' == RouteAfterGrading(c, s') && Exact(c, EvidenceGrader, s, n', s')
    ensures Thrifty(c, n', s')
  {
    RouteIsCorrection(c, s');
    match n'
    case Generator => AnswerSpent(c, s);
    case ExternalFallback => ExternalMeansSource(c, s'.scope);
    case QueryRefiner =>
    case Replanner =>
  }

  lemma GradingThrifty(c: Config, s: State, o: Oracle)
    requires Bounded(c, EvidenceGrader, s) && Thrifty(c, EvidenceGrader, s)
    ensures var (n', s') := Visit(c, EvidenceGrader, s, o); Exact(c, EvidenceGrader, s, n', s') ==> Thrifty(c, n', s')
  {
    GraderKeepsCounters(s, o.grade);
    var s' := GraderNode(s, o.grade);
    if Exact(c, EvidenceGrader, s, RouteAfterGrading(c, s'), s') {
      ChoiceThrifty(c, s, RouteAfterGrading(c, s'), s');
    }
  }

  lemma CorrectionThrifty(c: Config, n: Node, s: State, o: Oracle)
    requires Thrifty(c, n, s) && Bounded(c, n, s) && (n.QueryRefiner? || n.ExternalFallback?)
    ensures var (n', s') := Visit(c, n, s, o); Thrifty(c, n', s')
  {
    if n.QueryRefiner? {
      RefinerPlans(c, s, o.refinement);
      CapacityGrows(c, s, RefinerNode(c, s, o.refinement));
      PlanThrifty(c, RefinerNode(c, s, o.refinement));
    } else {
      FallbackPlans(c, s);
      CapacityGrows(c, s, FallbackNode(c, s));
      PlanThrifty(c, FallbackNode(c, s));
    }
  }

  lemma VerifierThrifty(c: Config, s: State, o: Oracle)
    requires Bounded(c, Verifier, s) && Thrifty(c, Verifier, s)
    ensures var (n', s') := Visit(c, Verifier, s, o); Exact(c, Verifier, s, n', s') ==> Thrifty(c, n', s')
  {
    var s' := VerifierNode(c, s, o.grounded);
    assert SameCounters(s, s') && s'.replans == s.replans;
    assert RouteAfterVerification(c, s').AnswerRevision? ==> c.groundingCheck;
  }

  lemma AnsweringThrifty(c: Config, n: Node, s: State, o: Oracle)
    requires Thrifty(c, n, s) && (n.Generator? || n.AnswerRevision? || n.CitationValidator?)
    ensures var (n', s') := Visit(c, n, s, o); Thrifty(c, n', s')
  {
  }

  lemma VisitThrifty(c: Config, n: Node, s: State, o: Oracle)
    requires ValidConfig(c) && n != End && Bounded(c, n, s) && Thrifty(c, n, s)
    ensures var (n', s') := Visit(c, n, s, o); Exact(c, n, s, n', s') ==> Thrifty(c, n', s')
  {
    match n
    case QueryAnalyzer => AnalysisThrifty(c, s, o);
    case SimplePlan | Planner => PlanningThrifty(c, n, s, o);
    case Replanner => ReplanningThrifty(c, s, o);
    case Executor | StepEvaluator => ExecutionThrifty(c, n, s, o);
    case EvidenceGrader => GradingThrifty(c, s, o);
    case QueryRefiner | ExternalFallback => CorrectionThrifty(c, n, s, o);
    case Verifier => VerifierThrifty(c, s, o);
    case Generator | AnswerRevision | CitationValidator => AnsweringThrifty(c, n, s, o);
  }

  /** A run that uses the whole measure wastes no visit and ends. */
  lemma {:induction false} WholeMeasureUsed(c: Config, n: Node, s: State, oracles: seq<Oracle>)
    requires ValidConfig(c) && Bounded(c, n, s) && Thrifty(c, n, s) && 0 <= Remaining(c, n, s)
    requires Run(c, n, s, oracles).2 == Remaining(c, n, s)
    ensures Spendable(c) && Usable(c) && (c.answerRevisionMax > 0 ==> c.groundingCheck)
    decreases |oracles|
  {
    if n == End || oracles == [] {
      EndOfMeasure(c, n, s);
    } else {
      var (n', s') := Visit(c, n, s, oracles[0]);
      VisitDecreases(c, n, s, oracles[0]);
      RunDecreases(c, n', s', oracles[1..]);
      VisitThrifty(c, n, s, oracles[0]);
      WholeMeasureUsed(c, n', s', oracles[1..]);
    }
  }

  lemma OnlyAttainable(c: Config, scope: Scope, oracles: seq<Oracle>)
    requires ValidConfig(c) && Run(c, QueryAnalyzer, Initial(scope), oracles).2 == StepBound(c)
    ensures Attainable(c)
  {
    StartIsBounded(c, scope);
    RunDecreases(c, QueryAnalyzer, Initial(scope), oracles);
    WholeMeasureUsed(c, QueryAnalyzer, Initial(scope), oracles);
  }

  // -------------------------------------------------- attained whenever they can be used

  const STEP: PlanStep := PlanStep("facet", [])

  function Steps(k: nat): (plan: seq<PlanStep>)
    ensures |plan| == k && forall i | 0 <= i < k :: plan[i] == STEP
  {
    seq(k, _ => STEP)
  }

  /** Answers that are never satisfied, with a plan of `k` steps. */
  function Hard(k: nat): Oracle {
    Oracle(Analysis(Research, [], "question", false, false, false), Some(Steps(k)),
           _ => Raised, Some(Grade(false, false)), Refinement.Failed, None)
  }

  /** The corrections still to come. */
  function Outstanding(c: Config, s: State): int {
    Corrections(c) - Used(s)
  }

  /** Attempts that are neither spent or planned (`committed`) nor kept for an outstanding correction. */
  function Slack(c: Config, s: State, committed: int): int {
    c.maxIterations - committed - Outstanding(c, s)
  }

  /** The slack can still be spent by longer plans of the replans to come. */
  ghost predicate Absorbs(c: Config, s: State, committed: int) {
    0 <= Slack(c, s, committed) <= (PlanSize(c) - 1) * (c.maxReplan - s.replans)
  }

  /** The steps the next plan should have. */
  function NextPlan(c: Config, s: State): int {
    Min(c.maxPlanSteps, c.maxIterations - s.attempts - Outstanding(c, s) + if s.attempts == 0 then 0 else 1)
  }

  /** A step without sources of its own is admitted. */
  predicate Admits(c: Config, s: State) {
    Selected(s, Allowed(c, s.scope, s.selected)) != []
  }

  ghost predicate Unsatisfied(c: Config, s: State) {
    && s.scope.WorkspaceAndExternal? && s.isComplex && s.needsRetrieval && s.evidence == {} && Admits(c, s) && s.revisions == 0
    && (s.replans > 0 ==> s.rewrites == RewriteLimit(c)) && (s.fallbackDone ==> s.replans == c.maxReplan && s.rewrites == RewriteLimit(c))
    && s.rewrites <= RewriteLimit(c) && s.replans <= c.maxReplan
  }

  /** The states of a run that uses everything. */
  ghost predicate Longest(c: Config, n: Node, s: State) {
    match n
    case QueryAnalyzer => s == Initial(WorkspaceAndExternal)
    case SimplePlan => Unsatisfied(c, s) && Used(s) == 0 && s.attempts == 0 && !c.plannerEnabled
    case Planner => Unsatisfied(c, s) && Used(s) == 0 && s.attempts == 0 && c.plannerEnabled
    case Executor => Unsatisfied(c, s) && s.step < |s.plan| && Absorbs(c, s, s.attempts + |s.plan| - s.step)
    case StepEvaluator =>
      Unsatisfied(c, s) && 0 < s.attempts && s.step < |s.plan| && Absorbs(c, s, s.attempts + |s.plan| - s.step - 1)
    case EvidenceGrader => Unsatisfied(c, s) && 0 < s.attempts && Absorbs(c, s, s.attempts)
    case QueryRefiner => Unsatisfied(c, s) && 0 < s.attempts && Absorbs(c, s, s.attempts) && s.rewrites < RewriteLimit(c)
    case Replanner =>
      Unsatisfied(c, s) && 0 < s.attempts && Absorbs(c, s, s.attempts) && s.rewrites == RewriteLimit(c) && s.replans < c.maxReplan
    case ExternalFallback =>
      Unsatisfied(c, s) && 0 < s.attempts && Absorbs(c, s, s.attempts) && s.rewrites == RewriteLimit(c) && s.replans == c.maxReplan
      && !s.fallbackDone
    case Generator => s.needsRetrieval && s.evidence == {} && s.revisions == 0
    case Verifier => s.needsRetrieval && s.evidence == {} && s.revisions <= 1
    case AnswerRevision => s.needsRetrieval && s.evidence == {} && s.revisions == 0
    case CitationValidator => s.revisions == 1
    case End => s.revisions == 1
  }

  ghost predicate CountsDown(c: Config, n: Node, s: State, n': Node, s': State) {
    Longest(c, n', s') && Exact(c, n, s, n', s')
  }

  // --- sources

  lemma AllowedAgain(c: Config, scope: Scope, s: seq<Source>, t: seq<Source>, x: Source)
    requires x in Allowed(c, scope, s) && x in t
    ensures x in Allowed(c, scope, t)
  {
    var p, q := PreferWorkspace(c, s), PreferWorkspace(c, t);
    var i :| 0 <= i < |p| && p[i] == x;
    var j :| 0 <= j < |t| && t[j] == x;
    assert q[j] == x;
  }

  lemma {:induction false} SelectedMember(s: State, sources: seq<Source>, x: Source)
    ensures x in Selected(s, sources) <==> x in sources && x in s.selected
  {
    if sources != [] { SelectedMember(s, sources[1..], x); }
  }

  lemma AdmitsOne(c: Config, s: State, x: Source)
    requires x in s.selected && x in Allowed(c, s.scope, s.selected)
    ensures Admits(c, s)
  {
    SelectedMember(s, Allowed(c, s.scope, s.selected), x);
  }

  /** Narrowing the selection to what is allowed keeps it admissible. */
  lemma AdmitsStays(c: Config, s: State, s': State)
    requires Admits(c, s) && s'.scope == s.scope && s'.selected == Allowed(c, s.scope, s.selected)
    ensures Admits(c, s')
  {
    var x := Selected(s, Allowed(c, s.scope, s.selected))[0];
    SelectedMember(s, Allowed(c, s.scope, s.selected), x);
    AllowedAgain(c, s.scope, s.selected, s'.selected, x);
    AdmitsOne(c, s', x);
  }

  lemma {:induction false} AllAdmitted(c: Config, s: State, proposed: seq<PlanStep>)
    requires Admits(c, s) && forall i | 0 <= i < |proposed| :: proposed[i] == STEP
    ensures |Admitted(c, s, proposed)| == |proposed|
  {
    if proposed != [] { AllAdmitted(c, s, proposed[..|proposed| - 1]); }
  }

  lemma FallbackIsOpen(c: Config)
    requires HasExternal(c)
    ensures ExternalAllowed(c, WorkspaceAndExternal)
  {
    var x := if Web in c.available then Web else Arxiv;
    AllowedKeeps(c, WorkspaceAndExternal, EXTERNAL, x);
  }

  /** The analysis of a research question selects something. */
  lemma SomethingSelected(c: Config, s': State)
    requires HasExternal(c) && s' == Analyze(c, WorkspaceAndExternal, Hard(0).analysis)
    ensures s'.selected != [] && Admits(c, s')
  {
    var local := Allowed(c, WorkspaceAndExternal, LOCAL);
    if local != [] {
      AllowedAgain(c, WorkspaceAndExternal, LOCAL, local, local[0]);
      AdmitsOne(c, s', local[0]);
    } else {
      var x := if Web in c.available then Web else Arxiv;
      var found := SourcesForQueryType(c, Research, []);
      assert x in found;
      AllowedKeeps(c, WorkspaceAndExternal, found, x);
      AllowedAgain(c, WorkspaceAndExternal, found, s'.selected, x);
      AdmitsOne(c, s', x);
    }
  }

  // --- arithmetic of the plans

  /** Multiples of a plan's further steps. */
  lemma Product(m: int, p: int)
    requires m >= 1 && p >= 0
    ensures (m - 1) * p >= 0 && m * (1 + p) == m + (m - 1) * p + p
    ensures p > 0 ==> (m - 1) * p == (m - 1) * (p - 1) + (m - 1)
  {
  }

  lemma FirstPlanAbsorbs(c: Config)
    requires ValidConfig(c) && Spendable(c)
    ensures var k := Min(PlanSize(c), c.maxIterations - Corrections(c));
            && 1 <= k <= c.maxIterations - 1
            && 0 <= c.maxIterations - k - Corrections(c) <= (PlanSize(c) - 1) * c.maxReplan
  {
    Product(PlanSize(c), c.maxReplan);
  }

  lemma NextPlanAbsorbs(m: int, slack: int, replans: int)
    requires m >= 1 && replans > 0 && 0 <= slack <= (m - 1) * replans
    ensures var k := Min(m, 1 + slack); 1 <= k && 0 <= slack + 1 - k <= (m - 1) * (replans - 1)
  {
    Product(m, replans);
    Product(m, replans - 1);
  }

  // --- visits

  ghost predicate SameQuestion(s: State, t: State) {
    SameCounters(s, t) && t.needsRetrieval == s.needsRetrieval && t.evidence == s.evidence
  }

  lemma AdmitsSame(c: Config, s: State, t: State)
    requires Admits(c, s) && t.scope == s.scope && t.selected == s.selected
    ensures Admits(c, t)
  {
    var x := Selected(s, Allowed(c, s.scope, s.selected))[0];
    SelectedMember(s, Allowed(c, s.scope, s.selected), x);
    AdmitsOne(c, t, x);
  }

  lemma PlanHas(c: Config, s: State, k: nat)
    requires Admits(c, s) && 1 <= k <= c.maxPlanSteps && k <= c.maxIterations - s.attempts - 1
    ensures var s' := PlannerNode(c, s, Some(Steps(k)));
            |s'.plan| == k && s'.step == 0 && SameQuestion(s, s') && s'.replans == s.replans
  {
    assert PlanLimit(c, s) >= k;
    assert Steps(k)[..k] == Steps(k);
    AllAdmitted(c, s, Steps(k));
    assert AdmittedSteps(c, s, Some(Steps(k))) == Admitted(c, s, Steps(k));
    PlannerPlans(c, s, Some(Steps(k)));
  }

  lemma AnalysisCounts(c: Config, s: State, k: nat)
    requires ValidConfig(c) && Attainable(c) && Longest(c, QueryAnalyzer, s)
    ensures var (n', s') := Visit(c, QueryAnalyzer, s, Hard(k)); CountsDown(c, QueryAnalyzer, s, n', s')
  {
    var s' := Analyze(c, WorkspaceAndExternal, Hard(k).analysis);
    SomethingSelected(c, s');
    assert s'.needsRetrieval && s'.isComplex && s'.scope.WorkspaceAndExternal? && s'.evidence == {};
    assert Used(s') == 0 && s'.attempts == 0 && s'.revisions == 0;
    assert Unspent(c, s') == Unspent(c, s);
  }

  /** A first plan of the right size starts an execution that counts down. */
  lemma FirstPlanCounts(c: Config, n: Node, s: State, s': State)
    requires ValidConfig(c) && Attainable(c) && Longest(c, n, s) && (n.SimplePlan? || n.Planner?)
    requires |s'.plan| == Min(PlanSize(c), c.maxIterations - Corrections(c))
    requires s'.step == 0 && SameQuestion(s, s') && s'.replans == s.replans
    ensures CountsDown(c, n, s, Executor, s')
  {
    FirstPlanAbsorbs(c);
    AdmitsSame(c, s, s');
  }

  lemma SimplePlanCounts(c: Config, s: State, o: Oracle)
    requires ValidConfig(c) && Attainable(c) && Longest(c, SimplePlan, s)
    ensures var (n', s') := Visit(c, SimplePlan, s, o); CountsDown(c, SimplePlan, s, n', s')
  {
    FirstPlanAbsorbs(c);
    FirstPlanCounts(c, SimplePlan, s, SimplePlanNode(s));
  }

  lemma PlannerCounts(c: Config, s: State) returns (o: Oracle)
    requires ValidConfig(c) && Attainable(c) && Longest(c, Planner, s)
    ensures var (n', s') := Visit(c, Planner, s, o); CountsDown(c, Planner, s, n', s')
  {
    FirstPlanAbsorbs(c);
    var k := Min(c.maxPlanSteps, c.maxIterations - Corrections(c));
    PlanHas(c, s, k);
    FirstPlanCounts(c, Planner, s, PlannerNode(c, s, Some(Steps(k))));
    o := Hard(k);
  }

  lemma {:induction false} NothingRetrieved(query: string, sources: seq<Source>, tools: nat -> ToolOutcome, h: Harvest)
    requires h.evidence == {} && forall i :: tools(i).Raised?
    ensures Retrieve(query, sources, tools, h).evidence == {}
  {
    if sources != [] { NothingRetrieved(query, sources[..|sources| - 1], tools, h); }
  }

  lemma ExecutorFindsNothing(c: Config, s: State, tools: nat -> ToolOutcome)
    requires s.step < |s.plan| && s.attempts < c.maxIterations && s.evidence == {} && forall i :: tools(i).Raised?
    ensures var s' := ExecutorNode(c, s, tools);
            s'.evidence == {} && s'.needsRetrieval == s.needsRetrieval && s'.isComplex == s.isComplex && s'.selected == s.selected
  {
    var step := s.plan[s.step];
    NothingRetrieved(step.query, Allowed(c, s.scope, step.sources), tools, Harvest(s.evidence, s.pool, 0));
    assert ExecutorNode(c, s, tools) == Executing(c, s, step, tools);
  }

  /** While something is outstanding or planned, an attempt is left. */
  lemma AttemptLeft(c: Config, s: State)
    requires Longest(c, Executor, s)
    ensures s.attempts < c.maxIterations
  {
  }

  lemma ExecutedCounts(c: Config, s: State, s': State)
    requires Longest(c, Executor, s) && Admits(c, s')
    requires s'.attempts == s.attempts + 1 && s'.plan == s.plan && s'.step == s.step && s'.replans == s.replans
    requires s'.rewrites == s.rewrites && s'.revisions == s.revisions && s'.fallbackDone == s.fallbackDone && s'.scope == s.scope
    requires s'.evidence == {} && s'.needsRetrieval == s.needsRetrieval && s'.isComplex == s.isComplex
    ensures CountsDown(c, Executor, s, StepEvaluator, s')
  {
  }

  lemma ExecutorCounts(c: Config, s: State, tools: nat -> ToolOutcome)
    requires Longest(c, Executor, s) && forall i :: tools(i).Raised?
    ensures CountsDown(c, Executor, s, StepEvaluator, ExecutorNode(c, s, tools))
  {
    AttemptLeft(c, s);
    ExecutorSpends(c, s, tools);
    ExecutorFindsNothing(c, s, tools);
    AdmitsSame(c, s, ExecutorNode(c, s, tools));
    ExecutedCounts(c, s, ExecutorNode(c, s, tools));
  }

  lemma StepKeepsQuestion(c: Config, s: State)
    ensures SameQuestion(s, StepEvaluatorNode(c, s))
  {
  }

  lemma EvaluatorCounts(c: Config, s: State)
    requires Longest(c, StepEvaluator, s)
    ensures var s' := StepEvaluatorNode(c, s); CountsDown(c, StepEvaluator, s, RouteAfterStep(c, s'), s')
  {
    var s' := StepEvaluatorNode(c, s);
    StepIsEvaluated(c, s);
    StepKeepsQuestion(c, s);
    AdmitsSame(c, s, s');
    if s'.step < |s'.plan| { AttemptLeft(c, s'); }
  }

  /** With an attempt for every outstanding correction and nothing satisfied, grading asks for the next one. */
  lemma RouteCorrects(c: Config, s: State)
    requires ValidConfig(c) && Attainable(c) && Unsatisfied(c, s) && Absorbs(c, s, s.attempts)
    requires !s.sufficient && !s.gradingFailed
    ensures var n := RouteAfterGrading(c, s);
            if s.rewrites < RewriteLimit(c) then n.QueryRefiner?
            else if s.replans < c.maxReplan then n.Replanner?
            else if !s.fallbackDone then n.ExternalFallback?
            else n.Generator? && Unspent(c, s) == 0
  {
    FallbackIsOpen(c);
    assert c.maxIterations - s.attempts >= Outstanding(c, s);
  }

  lemma GraderCounts(c: Config, s: State, k: nat)
    requires ValidConfig(c) && Attainable(c) && Longest(c, EvidenceGrader, s)
    ensures var (n', s') := Visit(c, EvidenceGrader, s, Hard(k)); CountsDown(c, EvidenceGrader, s, n', s')
  {
    var s' := GraderNode(s, Hard(k).grade);
    GraderKeepsCounters(s, Hard(k).grade);
    GradedCounts(c, s, s');
  }

  lemma GradedCounts(c: Config, s: State, s': State)
    requires ValidConfig(c) && Attainable(c) && Longest(c, EvidenceGrader, s)
    requires SameQuestion(s, s') && s'.replans == s.replans && !s'.sufficient && !s'.gradingFailed
    ensures CountsDown(c, EvidenceGrader, s, RouteAfterGrading(c, s'), s')
  {
    AdmitsSame(c, s, s');
    RouteCorrects(c, s');
  }

  /** A correction whose plan has one step takes the attempt that was kept for it. */
  lemma SingleStepCounts(c: Config, n: Node, s: State, s': State)
    requires Longest(c, n, s) && (n.QueryRefiner? || n.ExternalFallback?)
    requires Unsatisfied(c, s') && s'.attempts == s.attempts && s'.replans == s.replans && s'.step == 0 && |s'.plan| == 1
    requires Used(s') == Used(s) + 1 && Unspent(c, s') == Unspent(c, s) - 2
    ensures CountsDown(c, n, s, Executor, s')
  {
    assert Slack(c, s', s'.attempts + 1) == Slack(c, s, s.attempts);
  }

  /** A replan of the right size takes its own attempt and as much of the slack as it can. */
  lemma ReplanCounts(c: Config, s: State, s': State)
    requires ValidConfig(c) && Longest(c, Replanner, s)
    requires Unsatisfied(c, s') && s'.attempts == s.attempts && s'.step == 0 && s'.replans == s.replans + 1
    requires Used(s') == Used(s) + 1 && Unspent(c, s') == Unspent(c, s) - 2
    requires |s'.plan| == Min(PlanSize(c), 1 + Slack(c, s, s.attempts))
    ensures CountsDown(c, Replanner, s, Executor, s')
  {
    NextPlanAbsorbs(PlanSize(c), Slack(c, s, s.attempts), c.maxReplan - s.replans);
    assert Slack(c, s', s'.attempts + |s'.plan|) == Slack(c, s, s.attempts) + 1 - |s'.plan|;
  }

  lemma RefinerKeepsQuestion(c: Config, s: State, r: Refinement)
    ensures var s' := RefinerNode(c, s, r);
            && s'.isComplex == s.isComplex && s'.needsRetrieval == s.needsRetrieval && s'.evidence == s.evidence
            && s'.selected == Allowed(c, s.scope, s.selected)
  {
  }

  lemma RefinerCounts(c: Config, s: State, r: Refinement)
    requires ValidConfig(c) && Attainable(c) && Longest(c, QueryRefiner, s)
    ensures CountsDown(c, QueryRefiner, s, Executor, RefinerNode(c, s, r))
  {
    var s' := RefinerNode(c, s, r);
    RefinerPlans(c, s, r);
    RefinerKeepsQuestion(c, s, r);
    AdmitsStays(c, s, s');
    SingleStepCounts(c, QueryRefiner, s, s');
  }

  lemma FallbackKeepsQuestion(c: Config, s: State)
    ensures var s' := FallbackNode(c, s);
            && s'.isComplex == s.isComplex && s'.needsRetrieval == s.needsRetrieval && s'.evidence == s.evidence
            && s'.selected == s.selected
  {
  }

  lemma FallbackCounts(c: Config, s: State)
    requires ValidConfig(c) && Attainable(c) && Longest(c, ExternalFallback, s)
    ensures CountsDown(c, ExternalFallback, s, Executor, FallbackNode(c, s))
  {
    var s' := FallbackNode(c, s);
    FallbackPlans(c, s);
    FallbackKeepsQuestion(c, s);
    AdmitsSame(c, s, s');
    SingleStepCounts(c, ExternalFallback, s, s');
  }

  /** A replan has room for one step and the slack, up to its size. */
  lemma ReplanSize(c: Config, s: State) returns (k: nat)
    requires ValidConfig(c) && Attainable(c) && Longest(c, Replanner, s)
    ensures c.plannerEnabled && k == Min(PlanSize(c), 1 + Slack(c, s, s.attempts))
    ensures 1 <= k <= c.maxPlanSteps && k <= c.maxIterations - s.attempts - 1
  {
    NextPlanAbsorbs(PlanSize(c), Slack(c, s, s.attempts), c.maxReplan - s.replans);
    k := Min(PlanSize(c), 1 + Slack(c, s, s.attempts));
  }

  lemma ReplanHas(c: Config, s: State, k: nat)
    requires Admits(c, s) && 1 <= k <= c.maxPlanSteps && k <= c.maxIterations - s.attempts - 1
    ensures var s' := ReplannerNode(c, s, Some(Steps(k)));
            |s'.plan| == k && s'.step == 0 && SameQuestion(s, s') && s'.replans == s.replans + 1
  {
    PlanHas(c, s, k);
  }

  lemma ReplanReady(c: Config, s: State, s': State)
    requires ValidConfig(c) && Attainable(c) && Longest(c, Replanner, s)
    requires s'.step == 0 && SameQuestion(s, s') && s'.replans == s.replans + 1
    requires |s'.plan| == Min(PlanSize(c), 1 + Slack(c, s, s.attempts))
    ensures CountsDown(c, Replanner, s, Executor, s')
  {
    AdmitsSame(c, s, s');
    ReplanCounts(c, s, s');
  }

  lemma ReplanNodeCounts(c: Config, s: State, k: nat)
    requires ValidConfig(c) && Attainable(c) && Longest(c, Replanner, s)
    requires k == Min(PlanSize(c), 1 + Slack(c, s, s.attempts))
    requires 1 <= k <= c.maxPlanSteps && k <= c.maxIterations - s.attempts - 1
    ensures CountsDown(c, Replanner, s, Executor, ReplannerNode(c, s, Some(Steps(k))))
  {
    ReplanHas(c, s, k);
    ReplanReady(c, s, ReplannerNode(c, s, Some(Steps(k))));
  }

  lemma ReplannerCounts(c: Config, s: State) returns (o: Oracle)
    requires ValidConfig(c) && Attainable(c) && Longest(c, Replanner, s)
    ensures var next := Visit(c, Replanner, s, o); CountsDown(c, Replanner, s, next.0, next.1)
  {
    var k := ReplanSize(c, s);
    o := Hard(k);
    ReplanNodeCounts(c, s, k);
  }

  lemma VerifierCounts(c: Config, s: State)
    requires Attainable(c) && Longest(c, Verifier, s)
    ensures var s' := VerifierNode(c, s, None); CountsDown(c, Verifier, s, RouteAfterVerification(c, s'), s')
  {
    var s' := VerifierNode(c, s, None);
    assert s'.verified == Some(false) && SameQuestion(s, s');
  }

  lemma AnswerCounts(c: Config, n: Node, s: State, o: Oracle)
    requires Attainable(c) && Longest(c, n, s) && (n.Generator? || n.AnswerRevision? || n.CitationValidator?)
    ensures var (n', s') := Visit(c, n, s, o); CountsDown(c, n, s, n', s')
  {
  }

  lemma LongestStep(c: Config, n: Node, s: State, o: Oracle)
    requires ValidConfig(c) && Attainable(c) && Longest(c, n, s) && o == Hard(0)
    requires n.Executor? || n.StepEvaluator? || n.EvidenceGrader? || n.QueryRefiner? || n.ExternalFallback?
    ensures var (n', s') := Visit(c, n, s, o); CountsDown(c, n, s, n', s')
  {
    match n
    case Executor => ExecutorCounts(c, s, o.tools);
    case StepEvaluator => EvaluatorCounts(c, s);
    case EvidenceGrader => GraderCounts(c, s, 0);
    case QueryRefiner => RefinerCounts(c, s, o.refinement);
    case ExternalFallback => FallbackCounts(c, s);
  }

  lemma LongestAnswer(c: Config, n: Node, s: State, o: Oracle)
    requires Attainable(c) && Longest(c, n, s) && o.grounded.None?
    requires n.Generator? || n.Verifier? || n.AnswerRevision? || n.CitationValidator?
    ensures var (n', s') := Visit(c, n, s, o); CountsDown(c, n, s, n', s')
  {
    if n.Verifier? {
      VerifierCounts(c, s);
    } else {
      AnswerCounts(c, n, s, o);
    }
  }

  /** In every state of the longest run some answer goes on with it. */
  lemma LongestVisit(c: Config, n: Node, s: State) returns (o: Oracle)
    requires ValidConfig(c) && Attainable(c) && n != End && Longest(c, n, s)
    ensures var (n', s') := Visit(c, n, s, o); CountsDown(c, n, s, n', s')
  {
    o := Hard(0);
    if n.Planner? {
      o := PlannerCounts(c, s);
    } else if n.Replanner? {
      o := ReplannerCounts(c, s);
    } else if n.QueryAnalyzer? {
      AnalysisCounts(c, s, 0);
    } else if n.SimplePlan? {
      SimplePlanCounts(c, s, o);
    } else if n.Generator? || n.Verifier? || n.AnswerRevision? || n.CitationValidator? {
      LongestAnswer(c, n, s, o);
    } else {
      LongestStep(c, n, s, o);
    }
  }

  lemma RunFirst(c: Config, n: Node, s: State, o: Oracle, rest: seq<Oracle>)
    requires n != End
    ensures var (n', s') := Visit(c, n, s, o); Run(c, n, s, [o] + rest).2 == Run(c, n', s', rest).2 + 1
  {
    assert ([o] + rest)[1..] == rest;
  }

  lemma {:induction false} LongestRun(c: Config, n: Node, s: State) returns (oracles: seq<Oracle>)
    requires ValidConfig(c) && Attainable(c) && Longest(c, n, s) && Bounded(c, n, s) && 0 <= Remaining(c, n, s)
    ensures Run(c, n, s, oracles).2 == Remaining(c, n, s)
    decreases Remaining(c, n, s)
  {
    oracles := [];
    if n != End {
      var o := LongestVisit(c, n, s);
      var (n', s') := Visit(c, n, s, o);
      VisitDecreases(c, n, s, o);
      oracles := LongestRun(c, n', s');
      RunFirst(c, n, s, o, oracles);
      oracles := [o] + oracles;
    }
  }

  /** Some run makes `visits` visits. */
  ghost predicate Makes(c: Config, scope: Scope, oracles: seq<Oracle>, visits: int) {
    Run(c, QueryAnalyzer, Initial(scope), oracles).2 == visits
  }

  lemma BoundIsAttained(c: Config) returns (oracles: seq<Oracle>)
    requires ValidConfig(c) && Attainable(c)
    ensures Makes(c, WorkspaceAndExternal, oracles, StepBound(c))
  {
    var start := Initial(WorkspaceAndExternal);
    StartIsBounded(c, WorkspaceAndExternal);
    assert Remaining(c, QueryAnalyzer, start) == StepBound(c);
    oracles := LongestRun(c, QueryAnalyzer, start);
  }

  /**
   Exactly these settings let a run reach the bound: an external source, self-correction and
   planning where rewrites and replans are allowed, a grounding check with a revision, at
   least one attempt more than corrections, and no more attempts than plans and corrections
   can spend.
   */
  lemma BoundAttainedExactly(c: Config)
    requires ValidConfig(c)
    ensures (exists scope: Scope, oracles: seq<Oracle> :: Makes(c, scope, oracles, StepBound(c))) <==> Attainable(c)
  {
    forall scope: Scope, oracles: seq<Oracle> | Makes(c, scope, oracles, StepBound(c)) ensures Attainable(c) {
      OnlyAttainable(c, scope, oracles);
    }
    if Attainable(c) {
      var oracles := BoundIsAttained(c);
    }
  }

  /** The default settings, with one local and one external source. */
  function Defaults(): Config {
    Config([Pdf, Web], true, 6, 8, 1, true, 2, true, 1)
  }

  /** With the defaults thirty-two visits are needed. */
  lemma DefaultsReachTheBound() returns (oracles: seq<Oracle>)
    ensures StepBound(Defaults()) == 32 && Makes(Defaults(), WorkspaceAndExternal, oracles, 32)
  {
    oracles := BoundIsAttained(Defaults());
  }
}
