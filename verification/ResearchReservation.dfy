/**
 The attempt held back for the external fallback, over whole runs of the research graph:
 when grading is followed by an answer, and what a chosen fallback retrieves.
 */
module ResearchReservation {
  import opened Wrappers
  import opened Basics
  import opened ResearchGraph

  // --------------------------------------------------------------- reservation

  /** An attempt is still held back for the external fallback. */
  predicate Holding(c: Config, s: State) {
    ExternalAllowed(c, s.scope) && !s.fallbackDone
  }

  /** Attempts spent plus plan steps not yet executed, when node `n` is entered. */
  function Committed(n: Node, s: State): int {
    match n
    case Executor => s.attempts + |s.plan| - s.step
    case StepEvaluator => s.attempts + |s.plan| - s.step - 1
    case QueryRefiner => s.attempts + 1
    case Replanner => s.attempts + 1
    case EvidenceGrader => s.attempts
    case QueryAnalyzer => 0
    case SimplePlan => 1
    case Planner => 1
    case ExternalFallback => 0
    case Generator => 0
    case Verifier => 0
    case AnswerRevision => 0
    case CitationValidator => 0
    case End => 0
  }

  ghost predicate Reserved(c: Config, n: Node, s: State) {
    Holding(c, s) ==> Committed(n, s) <= c.maxIterations - 1
  }

  lemma LimitFits(c: Config, s: State)
    requires c.maxPlanSteps > 0
    ensures 1 <= PlanLimit(c, s) <= Max(1, c.maxIterations - s.attempts - Reserve(c, s))
  {
  }

  lemma PlannedSize(s: State, steps: seq<PlanStep>)
    ensures |Planned(s, steps).plan| == if steps == [] then 1 else |steps|
  {
  }

  lemma AdmittedFits(c: Config, s: State, proposal: Option<seq<PlanStep>>)
    requires c.maxPlanSteps > 0
    ensures |PlannerNode(c, s, proposal).plan| <= Max(1, c.maxIterations - s.attempts - Reserve(c, s))
  {
    LimitFits(c, s);
    PlannedSize(s, AdmittedSteps(c, s, proposal));
  }

  lemma PlanReserves(c: Config, n: Node, s: State, o: Oracle)
    requires ValidConfig(c) && c.maxIterations >= 2 && Bounded(c, n, s) && Reserved(c, n, s)
    requires n.Planner? || n.Replanner?
    ensures var (n', s') := Visit(c, n, s, o); Reserved(c, n', s')
  {
    PlannerPlans(c, s, o.proposal);
    AdmittedFits(c, s, o.proposal);
  }

  lemma AnalysisReserves(c: Config, s: State, o: Oracle)
    requires ValidConfig(c) && c.maxIterations >= 2
    ensures var (n', s') := Visit(c, QueryAnalyzer, s, o); Reserved(c, n', s')
  {
    var s' := Analyze(c, s.scope, o.analysis);
    assert s'.attempts == 0;
    assert !s'.needsRetrieval ==> RouteAfterAnalysis(c, s').Generator?;
  }

  lemma GradingReserves(c: Config, s: State, o: Oracle)
    requires ValidConfig(c) && Reserved(c, EvidenceGrader, s) && c.maxIterations >= 2
    ensures var (n', s') := Visit(c, EvidenceGrader, s, o); Reserved(c, n', s')
  {
    var s' := GraderNode(s, o.grade);
    GraderKeepsCounters(s, o.grade);
    ChoiceReserves(c, s, RouteAfterGrading(c, s'), s');
  }

  lemma ChoiceReserves(c: Config, s: State, n': Node, s': State)
    requires c.maxIterations >= 2 && SameCounters(s, s') && n' == RouteAfterGrading(c, s')
    ensures Reserved(c, n', s')
  {
    RouteKeepsReserve(c, s');
  }

  /** Refining and replanning are chosen only when an attempt beyond the reserved one remains. */
  lemma RouteKeepsReserve(c: Config, s: State)
    requires c.maxIterations >= 2
    ensures var n := RouteAfterGrading(c, s);
            n.QueryRefiner? || n.Replanner? ==> s.attempts + 1 + Reserve(c, s) <= c.maxIterations
    ensures var n := RouteAfterGrading(c, s); n.QueryRefiner? || n.Replanner? || n.ExternalFallback? || n.Generator?
  {
  }

  lemma ExecutionReserves(c: Config, n: Node, s: State, o: Oracle)
    requires ValidConfig(c) && Bounded(c, n, s) && Reserved(c, n, s) && (n.Executor? || n.StepEvaluator?)
    requires c.maxIterations >= 2
    ensures var (n', s') := Visit(c, n, s, o); Reserved(c, n', s')
  {
    if n.Executor? {
      ExecutorSpends(c, s, o.tools);
    } else {
      StepIsEvaluated(c, s);
    }
  }

  lemma VisitReserves(c: Config, n: Node, s: State, o: Oracle)
    requires ValidConfig(c) && c.maxIterations >= 2 && n != End && Bounded(c, n, s) && Reserved(c, n, s)
    ensures var (n', s') := Visit(c, n, s, o); Reserved(c, n', s')
  {
    match n
    case QueryAnalyzer => AnalysisReserves(c, s, o);
    case Planner | Replanner => PlanReserves(c, n, s, o);
    case Executor | StepEvaluator => ExecutionReserves(c, n, s, o);
    case EvidenceGrader => GradingReserves(c, s, o);
    case SimplePlan | QueryRefiner | ExternalFallback | Generator | Verifier | AnswerRevision | CitationValidator =>
  }

  lemma {:induction false} RunReserves(c: Config, n: Node, s: State, oracles: seq<Oracle>)
    requires ValidConfig(c) && c.maxIterations >= 2 && Bounded(c, n, s) && Reserved(c, n, s)
    ensures var (n', s', _) := Run(c, n, s, oracles); Bounded(c, n', s') && Reserved(c, n', s')
    decreases |oracles|
  {
    if n != End && oracles != [] {
      VisitDecreases(c, n, s, oracles[0]);
      VisitReserves(c, n, s, oracles[0]);
      var (n', s') := Visit(c, n, s, oracles[0]);
      RunReserves(c, n', s', oracles[1..]);
    }
  }

  predicate CorrectionLeft(c: Config, s: State) {
    || (c.selfCorrect && s.rewrites < Min(2, c.rewriteMax))
    || (s.isComplex && s.replans < c.maxReplan && c.plannerEnabled)
  }

  /** The model graded the evidence, there is some, and it is relevant and sufficient. */
  predicate GradedEnough(s: State, grade: Option<Grade>) {
    grade.Some? && grade.value.relevant && grade.value.sufficient && s.evidence != {}
  }

  /**
   With two attempts or more, grading is followed by an answer exactly when the model graded
   evidence relevant and sufficient, grading failed, or no fallback is left to run and neither
   attempts nor corrections remain.
   */
  lemma AnsweringNeedsAReason(c: Config, scope: Scope, oracles: seq<Oracle>, o: Oracle)
    requires ValidConfig(c) && c.maxIterations >= 2
    ensures var (n, s, _) := Run(c, QueryAnalyzer, Initial(scope), oracles);
            n.EvidenceGrader? ==>
              (Visit(c, n, s, o).0.Generator? <==>
                GradedEnough(s, o.grade) || o.grade.None?
                || (!Holding(c, s) && (s.attempts == c.maxIterations || !CorrectionLeft(c, s))))
  {
    var (n, s, _) := Run(c, QueryAnalyzer, Initial(scope), oracles);
    StartReserves(c, scope);
    RunReserves(c, QueryAnalyzer, Initial(scope), oracles);
    if n.EvidenceGrader? {
      GradingExplained(c, s, o);
    }
  }

  /** A rewrite if one is left, then a replan if one is left, each only beside the attempt held back, and then the fallback. */
  predicate CorrectsInOrder(c: Config, s: State, n: Node) {
    var room := s.attempts + (if Holding(c, s) then 1 else 0) < c.maxIterations;
    var rewrite := c.selfCorrect && s.rewrites < Min(2, c.rewriteMax);
    var replan := s.isComplex && s.replans < c.maxReplan && c.plannerEnabled;
    && (n.QueryRefiner? <==> room && rewrite)
    && (n.Replanner? <==> room && !rewrite && replan)
    && (n.ExternalFallback? <==> Holding(c, s) && !(room && (rewrite || replan)))
  }

  /** Evidence graded as not enough is followed by the corrections in this order. */
  lemma CorrectionsInOrder(c: Config, scope: Scope, oracles: seq<Oracle>, o: Oracle)
    requires ValidConfig(c) && c.maxIterations >= 2
    ensures var (n, s, _) := Run(c, QueryAnalyzer, Initial(scope), oracles);
            n.EvidenceGrader? && !GradedEnough(s, o.grade) && o.grade.Some? ==> CorrectsInOrder(c, s, Visit(c, n, s, o).0)
  {
    var (n, s, _) := Run(c, QueryAnalyzer, Initial(scope), oracles);
    StartReserves(c, scope);
    RunReserves(c, QueryAnalyzer, Initial(scope), oracles);
    if n.EvidenceGrader? && !GradedEnough(s, o.grade) && o.grade.Some? {
      GradingOrders(c, s, o);
    }
  }

  lemma GradingOrders(c: Config, s: State, o: Oracle)
    requires s.attempts <= c.maxIterations && Reserved(c, EvidenceGrader, s) && o.grade.Some? && !GradedEnough(s, o.grade)
    ensures CorrectsInOrder(c, s, Visit(c, EvidenceGrader, s, o).0)
  {
    GraderKeepsCounters(s, o.grade);
    RouteOrders(c, s, GraderNode(s, o.grade));
  }

  lemma RouteOrders(c: Config, s: State, s': State)
    requires s.attempts <= c.maxIterations && Reserved(c, EvidenceGrader, s)
    requires SameCounters(s, s') && s'.replans == s.replans && !s'.sufficient && !s'.gradingFailed
    ensures CorrectsInOrder(c, s, RouteAfterGrading(c, s'))
  {
  }

  lemma StartReserves(c: Config, scope: Scope)
    requires ValidConfig(c) && c.maxIterations >= 2
    ensures Bounded(c, QueryAnalyzer, Initial(scope)) && Reserved(c, QueryAnalyzer, Initial(scope))
  {
  }

  lemma GradingExplained(c: Config, s: State, o: Oracle)
    requires s.attempts <= c.maxIterations && Reserved(c, EvidenceGrader, s)
    ensures Visit(c, EvidenceGrader, s, o).0.Generator? <==>
              GradedEnough(s, o.grade) || o.grade.None?
              || (!Holding(c, s) && (s.attempts == c.maxIterations || !CorrectionLeft(c, s)))
  {
    GraderKeepsCounters(s, o.grade);
    RouteExplained(c, GraderNode(s, o.grade));
  }

  lemma RouteExplained(c: Config, s: State)
    requires s.attempts <= c.maxIterations
    requires Holding(c, s) ==> s.attempts <= c.maxIterations - 1
    ensures RouteAfterGrading(c, s).Generator? <==>
              s.sufficient || s.gradingFailed
              || (!Holding(c, s) && (s.attempts == c.maxIterations || !CorrectionLeft(c, s)))
  {
  }

  ghost predicate SpentAtGrading(n: Node, s: State) {
    && (n.EvidenceGrader? || n.StepEvaluator? ==> s.attempts == 1)
    && !n.ExternalFallback? && !n.QueryRefiner? && !n.Replanner?
  }

  lemma OneAttemptVisit(c: Config, n: Node, s: State, o: Oracle)
    requires ValidConfig(c) && c.maxIterations == 1 && n != End && Bounded(c, n, s) && SpentAtGrading(n, s)
    ensures var (n', s') := Visit(c, n, s, o); SpentAtGrading(n', s')
  {
    match n
    case EvidenceGrader => OneAttemptGrading(c, s, o);
    case Executor | StepEvaluator => OneAttemptExecution(c, n, s, o);
    case QueryAnalyzer =>
      assert !RouteAfterAnalysis(c, Analyze(c, s.scope, o.analysis)).EvidenceGrader?;
    case Verifier =>
      assert !RouteAfterVerification(c, VerifierNode(c, s, o.grounded)).EvidenceGrader?;
    case SimplePlan | Planner | Generator | AnswerRevision | CitationValidator =>
  }

  lemma OneAttemptGrading(c: Config, s: State, o: Oracle)
    requires c.maxIterations == 1 && s.attempts == 1
    ensures Visit(c, EvidenceGrader, s, o).0 == Generator
  {
    assert GraderNode(s, o.grade).attempts == 1;
  }

  lemma OneAttemptExecution(c: Config, n: Node, s: State, o: Oracle)
    requires c.maxIterations == 1 && Bounded(c, n, s) && (n.Executor? || n.StepEvaluator?) && SpentAtGrading(n, s)
    ensures var (n', s') := Visit(c, n, s, o); SpentAtGrading(n', s')
  {
  }

  lemma {:induction false} OneAttemptRun(c: Config, n: Node, s: State, oracles: seq<Oracle>)
    requires ValidConfig(c) && c.maxIterations == 1 && Bounded(c, n, s) && SpentAtGrading(n, s)
    ensures var (n', s', _) := Run(c, n, s, oracles); SpentAtGrading(n', s')
    decreases |oracles|
  {
    if n != End && oracles != [] {
      VisitDecreases(c, n, s, oracles[0]);
      var (n', s') := Visit(c, n, s, oracles[0]);
      OneAttemptVisit(c, n, s, oracles[0]);
      OneAttemptRun(c, n', s', oracles[1..]);
    }
  }

  /**
   With a single attempt nothing can be held back: every grading is followed by an answer,
   whatever it found and although the fallback has not run, and no run reaches the fallback.
   */
  lemma OneAttemptAnswersAnyway(c: Config, scope: Scope, oracles: seq<Oracle>, o: Oracle)
    requires ValidConfig(c) && c.maxIterations == 1
    ensures var (n, s, _) := Run(c, QueryAnalyzer, Initial(scope), oracles);
            n != ExternalFallback && (n.EvidenceGrader? ==> Visit(c, n, s, o).0 == Generator)
  {
    var (n, s, _) := Run(c, QueryAnalyzer, Initial(scope), oracles);
    OneAttemptRun(c, QueryAnalyzer, Initial(scope), oracles);
    if n.EvidenceGrader? {
      OneAttemptGrading(c, s, o);
    }
  }

  // ------------------------------------------------------------------ fallback

  /** What an executor visit adds to the pool: one entry for each source, in order. */
  lemma {:induction false} RetrieveCalls(query: string, sources: seq<Source>, tools: nat -> ToolOutcome, h: Harvest)
    ensures var r := Retrieve(query, sources, tools, h);
            && r.pool[..|h.pool|] == h.pool
            && |r.pool| == |h.pool| + |sources|
            && (forall i | 0 <= i < |sources| ::
                 r.pool[|h.pool| + i] == Retrieved(sources[i], query, Success(tools(i))))
  {
    if sources != [] {
      RetrieveCalls(query, sources[..|sources| - 1], tools, h);
    }
  }

  lemma AllowedSources(c: Config, scope: Scope, s: seq<Source>)
    ensures forall x | x in Allowed(c, scope, s) ::
              x in c.available && InScope(scope, x) && (x in s || (x.Workspace? && Pdf in s))
  {
    var t := PreferWorkspace(c, s);
    forall x | x in Allowed(c, scope, s)
      ensures x in c.available && InScope(scope, x) && (x in s || (x.Workspace? && Pdf in s))
    {
      assert x in Filter(c, scope, t);
      assert x in t;
      var i :| 0 <= i < |t| && t[i] == x;
      assert s[i] in s;
    }
  }

  lemma AllowedKeeps(c: Config, scope: Scope, s: seq<Source>, x: Source)
    requires x in s && x in c.available && InScope(scope, x) && !x.Pdf?
    ensures x in Allowed(c, scope, s)
  {
    var t := PreferWorkspace(c, s);
    var i :| 0 <= i < |s| && s[i] == x;
    assert t[i] == x;
  }

  lemma ExternalIsAllowed(c: Config, scope: Scope, x: Source)
    requires x in Allowed(c, scope, EXTERNAL)
    ensures (x.Web? || x.Arxiv?) && Allowed(c, scope, [x]) != []
  {
    AllowedSources(c, scope, EXTERNAL);
    AllowedKeeps(c, scope, [x], x);
  }

  lemma OnlyExternal(c: Config, scope: Scope, x: Source)
    requires x.Web? || x.Arxiv?
    ensures forall y | y in Allowed(c, scope, [x]) :: y in EXTERNAL && y in c.available && InScope(scope, y)
  {
    AllowedSources(c, scope, [x]);
  }

  lemma FallbackHasSources(c: Config, s: State)
    requires ExternalAllowed(c, s.scope)
    ensures var plan := FallbackNode(c, s).plan;
            && |plan| == 1 && plan[0].sources != []
            && (forall x | x in plan[0].sources :: x in EXTERNAL && x in c.available && InScope(s.scope, x))
  {
    var first := Allowed(c, s.scope, EXTERNAL)[0];
    ExternalIsAllowed(c, s.scope, first);
    OnlyExternal(c, s.scope, Web);
    OnlyExternal(c, s.scope, Arxiv);
  }

  lemma ExternalSourcesSurvive(c: Config, scope: Scope, s: seq<Source>)
    requires s != [] && forall x | x in s :: x in EXTERNAL && x in c.available && InScope(scope, x)
    ensures Allowed(c, scope, s) != []
    ensures forall x | x in Allowed(c, scope, s) :: x in EXTERNAL
  {
    assert s[0] in s;
    AllowedKeeps(c, scope, s, s[0]);
    AllowedSources(c, scope, s);
    assert Pdf !in s;
  }

  /** What a retrieval at external sources leaves behind. */
  ghost predicate CalledExternal(s: State, t: State) {
    && t.attempts == s.attempts + 1
    && |t.pool| > |s.pool| && t.pool[..|s.pool|] == s.pool
    && t.toolCalls - s.toolCalls == |t.pool| - |s.pool|
    && (forall i | |s.pool| <= i < |t.pool| :: t.pool[i].source in EXTERNAL && t.pool[i].query == s.query)
  }

  /**
   A chosen fallback always retrieves: the next two visits are the fallback and an executor
   visit that spends one attempt and calls at least one external tool with the user's query.
   */
  lemma FallbackRetrieves(c: Config, scope: Scope, oracles: seq<Oracle>, o: Oracle, p: Oracle)
    requires ValidConfig(c)
    ensures var (n, s, _) := Run(c, QueryAnalyzer, Initial(scope), oracles);
            n.ExternalFallback? ==>
              var (n', s') := Visit(c, ExternalFallback, s, o);
              n' == Executor && CalledExternal(s, Visit(c, Executor, s', p).1)
  {
    StartIsBounded(c, scope);
    RunDecreases(c, QueryAnalyzer, Initial(scope), oracles);
    var (n, s, _) := Run(c, QueryAnalyzer, Initial(scope), oracles);
    if n.ExternalFallback? {
      FallbackVisits(c, s, o, p);
    }
  }

  lemma FallbackVisits(c: Config, s: State, o: Oracle, p: Oracle)
    requires Bounded(c, ExternalFallback, s)
    ensures var (n', s') := Visit(c, ExternalFallback, s, o);
            n' == Executor && CalledExternal(s, Visit(c, Executor, s', p).1)
  {
    FallbackStep(c, s, p);
    ExecutorVisits(c, FallbackNode(c, s), p);
  }

  lemma ExecutorVisits(c: Config, s: State, p: Oracle)
    ensures Visit(c, Executor, s, p).1 == ExecutorNode(c, s, p.tools)
  {
  }

  lemma FallbackStep(c: Config, s: State, p: Oracle)
    requires Bounded(c, ExternalFallback, s)
    ensures CalledExternal(s, ExecutorNode(c, FallbackNode(c, s), p.tools))
  {
    var s' := FallbackNode(c, s);
    FallbackHasSources(c, s);
    assert s'.step == 0 && s'.attempts < c.maxIterations && s'.plan[0].query == s.query;
    ExternalSourcesSurvive(c, s.scope, s'.plan[0].sources);
    ExecutingCalls(c, s', s'.plan[0], p.tools);
    assert ExecutorNode(c, s', p.tools) == Executing(c, s', s'.plan[0], p.tools);
  }

  lemma NewEntries(step: PlanStep, sources: seq<Source>, tools: nat -> ToolOutcome, h: Harvest)
    requires forall x | x in sources :: x in EXTERNAL
    ensures var pool := Retrieve(step.query, sources, tools, h).pool;
            && |pool| == |h.pool| + |sources| && pool[..|h.pool|] == h.pool
            && (forall i | |h.pool| <= i < |pool| :: pool[i].source in EXTERNAL && pool[i].query == step.query)
  {
    RetrieveCalls(step.query, sources, tools, h);
    var pool := Retrieve(step.query, sources, tools, h).pool;
    forall i | |h.pool| <= i < |pool| ensures pool[i].source in EXTERNAL && pool[i].query == step.query {
      assert pool[|h.pool| + (i - |h.pool|)].source == sources[i - |h.pool|];
    }
  }

  lemma ExecutingCalls(c: Config, s: State, step: PlanStep, tools: nat -> ToolOutcome)
    requires Allowed(c, s.scope, step.sources) != [] && step.query == s.query
    requires forall x | x in Allowed(c, s.scope, step.sources) :: x in EXTERNAL
    ensures CalledExternal(s, Executing(c, s, step, tools))
  {
    NewEntries(step, Allowed(c, s.scope, step.sources), tools, Harvest(s.evidence, s.pool, 0));
  }
}
