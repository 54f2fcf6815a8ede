/**
 The source policy over whole runs of the research graph: which tools may be called, local
 evidence first, and when the requested scope is left.
 */
module ResearchPolicy {
  import opened Wrappers
  import opened Basics
  import opened ResearchGraph
  import opened ResearchReservation

  // ------------------------------------------------------------- source policy

  predicate LocalOnly(sources: seq<Source>) {
    forall x | x in sources :: x in LOCAL
  }

  /** A local source may be searched, and the external fallback has not run. */
  predicate LocalFirst(c: Config, s: State) {
    Allowed(c, s.scope, LOCAL) != [] && !s.fallbackDone
  }

  /** A tool call that the scope and the configuration admit. */
  predicate CallAdmitted(c: Config, scope: Scope, r: Retrieved) {
    r.source in c.available && InScope(scope, r.source)
  }

  predicate LocalPlan(plan: seq<PlanStep>) {
    forall i | 0 <= i < |plan| :: LocalOnly(plan[i].sources)
  }

  ghost predicate CallsOk(c: Config, scope: Scope, local: bool, pool: seq<Retrieved>) {
    && (forall i {:trigger pool[i]} | 0 <= i < |pool| :: CallAdmitted(c, scope, pool[i]))
    && (local ==> forall i {:trigger pool[i]} | 0 <= i < |pool| :: pool[i].source in LOCAL)
  }

  ghost predicate PolicyOk(c: Config, n: Node, s: State) {
    && CallsOk(c, s.scope, LocalFirst(c, s), s.pool)
    && (n.QueryAnalyzer? ==> s.pool == [])
    && (LocalFirst(c, s) && !n.QueryAnalyzer? ==> LocalOnly(s.selected))
    && (LocalFirst(c, s) && (n.Executor? || n.StepEvaluator?) ==> LocalPlan(s.plan))
  }

  lemma LocalStaysLocal(c: Config, scope: Scope, sources: seq<Source>)
    requires LocalOnly(sources)
    ensures LocalOnly(Allowed(c, scope, sources))
  {
    AllowedSources(c, scope, sources);
  }

  lemma AnalysisKeepsPolicy(c: Config, s: State, o: Oracle)
    requires PolicyOk(c, QueryAnalyzer, s)
    ensures var (n', s') := Visit(c, QueryAnalyzer, s, o); PolicyOk(c, n', s')
  {
    var s' := Analyze(c, s.scope, o.analysis);
    LocalStaysLocal(c, s'.scope, LOCAL);
    assert LocalFirst(c, s') ==> s'.selected == Allowed(c, s'.scope, LOCAL);
    assert s'.pool == [];
    assert !RouteAfterAnalysis(c, s').Executor? && !RouteAfterAnalysis(c, s').StepEvaluator?;
  }

  lemma {:induction false} AdmittedIsSelected(c: Config, s: State, proposed: seq<PlanStep>)
    requires LocalOnly(s.selected)
    ensures LocalPlan(Admitted(c, s, proposed))
  {
    if proposed != [] {
      var last := proposed[|proposed| - 1];
      AdmittedIsSelected(c, s, proposed[..|proposed| - 1]);
      SelectedIsSelected(s, Allowed(c, s.scope, if last.sources == [] then s.selected else last.sources));
    }
  }

  lemma {:induction false} SelectedIsSelected(s: State, sources: seq<Source>)
    ensures forall x | x in Selected(s, sources) :: x in s.selected
  {
    if sources != [] { SelectedIsSelected(s, sources[1..]); }
  }

  lemma PlannerKeepsPolicy(c: Config, s: State, proposal: Option<seq<PlanStep>>)
    requires LocalOnly(s.selected)
    ensures LocalPlan(PlannerNode(c, s, proposal).plan)
  {
    if proposal.Some? {
      AdmittedIsSelected(c, s, proposal.value[..Min(|proposal.value|, PlanLimit(c, s))]);
    }
  }

  lemma PlanningKeepsPolicy(c: Config, n: Node, s: State, o: Oracle)
    requires PolicyOk(c, n, s) && (n.SimplePlan? || n.Planner? || n.Replanner?)
    ensures var (n', s') := Visit(c, n, s, o); PolicyOk(c, n', s')
  {
    var (n', s') := Visit(c, n, s, o);
    if !n.SimplePlan? {
      PlannerPlans(c, s, o.proposal);
    }
    assert s'.pool == s.pool && s'.scope == s.scope && s'.selected == s.selected && s'.fallbackDone == s.fallbackDone;
    if LocalFirst(c, s) && !n.SimplePlan? {
      PlannerKeepsPolicy(c, s, o.proposal);
    }
  }

  lemma ExecutorKeepsPolicy(c: Config, s: State, o: Oracle)
    requires PolicyOk(c, Executor, s)
    ensures PolicyOk(c, StepEvaluator, ExecutorNode(c, s, o.tools))
  {
    if s.step < |s.plan| && s.attempts < c.maxIterations {
      var step := s.plan[s.step];
      var s' := Executing(c, s, step, o.tools);
      assert s'.scope == s.scope && s'.selected == s.selected && s'.fallbackDone == s.fallbackDone && s'.plan == s.plan;
      HarvestKeepsPolicy(c, s.scope, LocalFirst(c, s), step, o.tools, s.evidence, s.pool);
      assert CallsOk(c, s'.scope, LocalFirst(c, s'), s'.pool);
    }
  }

  lemma HarvestKeepsPolicy(
    c: Config, scope: Scope, local: bool, step: PlanStep, tools: nat -> ToolOutcome, evidence: set<nat>, pool: seq<Retrieved>)
    requires CallsOk(c, scope, local, pool)
    requires local ==> LocalOnly(step.sources)
    ensures CallsOk(c, scope, local, Retrieve(step.query, Allowed(c, scope, step.sources), tools, Harvest(evidence, pool, 0)).pool)
  {
    AllowedSources(c, scope, step.sources);
    if local { LocalStaysLocal(c, scope, step.sources); }
    RetrievalKeepsPolicy(c, scope, local, step.query, Allowed(c, scope, step.sources), tools, Harvest(evidence, pool, 0));
  }

  lemma RetrievalKeepsPolicy(
    c: Config, scope: Scope, local: bool, query: string, sources: seq<Source>, tools: nat -> ToolOutcome, h: Harvest)
    requires CallsOk(c, scope, local, h.pool)
    requires forall x | x in sources :: x in c.available && InScope(scope, x)
    requires local ==> LocalOnly(sources)
    ensures CallsOk(c, scope, local, Retrieve(query, sources, tools, h).pool)
  {
    RetrieveCalls(query, sources, tools, h);
    PoolGrows(c, scope, local, h.pool, Retrieve(query, sources, tools, h).pool, sources);
  }

  lemma PoolGrows(
    c: Config, scope: Scope, local: bool, pool: seq<Retrieved>, pool': seq<Retrieved>, sources: seq<Source>)
    requires CallsOk(c, scope, local, pool)
    requires |pool'| == |pool| + |sources| && pool'[..|pool|] == pool
    requires forall i | 0 <= i < |sources| :: pool'[|pool| + i].source == sources[i]
    requires forall x | x in sources :: x in c.available && InScope(scope, x)
    requires local ==> LocalOnly(sources)
    ensures CallsOk(c, scope, local, pool')
  {
    forall i | 0 <= i < |pool'|
      ensures CallAdmitted(c, scope, pool'[i]) && (local ==> pool'[i].source in LOCAL)
    {
      if i < |pool| {
        assert pool'[i] == pool'[..|pool|][i] == pool[i];
      } else {
        assert pool'[|pool| + (i - |pool|)].source == sources[i - |pool|];
        assert sources[i - |pool|] in sources;
      }
    }
  }

  lemma RefinerKeepsPolicy(c: Config, s: State, o: Oracle)
    requires PolicyOk(c, QueryRefiner, s)
    ensures PolicyOk(c, Executor, RefinerNode(c, s, o.refinement))
  {
    var s' := RefinerNode(c, s, o.refinement);
    assert s'.pool == s.pool && s'.scope == s.scope && s'.fallbackDone == s.fallbackDone;
    if LocalFirst(c, s) {
      LocalStaysLocal(c, s.scope, LOCAL);
      LocalStaysLocal(c, s.scope, s.selected);
      assert s'.plan[0].sources == Allowed(c, s.scope, LOCAL);
    }
  }

  /** Nodes that neither plan nor call tools. */
  lemma OtherNodesKeepPolicy(c: Config, n: Node, s: State, s': State)
    requires PolicyOk(c, n, s) && !n.QueryAnalyzer? && !n.Executor? && !n.StepEvaluator?
    requires s'.pool == s.pool && s'.scope == s.scope && s'.selected == s.selected && s'.fallbackDone == s.fallbackDone
    ensures forall n': Node :: !n'.QueryAnalyzer? && !n'.Executor? && !n'.StepEvaluator? ==> PolicyOk(c, n', s')
  {
  }

  lemma StepKeepsPolicy(c: Config, s: State, o: Oracle)
    requires PolicyOk(c, StepEvaluator, s)
    ensures var (n', s') := Visit(c, StepEvaluator, s, o); PolicyOk(c, n', s')
  {
  }

  lemma ChoiceKeepsPolicy(c: Config, s: State, n': Node, s': State)
    requires PolicyOk(c, EvidenceGrader, s) && SameCounters(s, s') && s'.pool == s.pool
    requires n'.QueryRefiner? || n'.Replanner? || n'.ExternalFallback? || n'.Generator?
    ensures PolicyOk(c, n', s')
  {
  }

  lemma GradingKeepsPolicy(c: Config, s: State, o: Oracle)
    requires PolicyOk(c, EvidenceGrader, s)
    ensures var (n', s') := Visit(c, EvidenceGrader, s, o); PolicyOk(c, n', s')
  {
    var s' := GraderNode(s, o.grade);
    GraderKeepsCounters(s, o.grade);
    RouteIsCorrection(c, s');
    ChoiceKeepsPolicy(c, s, RouteAfterGrading(c, s'), s');
  }

  lemma FallbackKeepsPolicy(c: Config, s: State)
    requires PolicyOk(c, ExternalFallback, s)
    ensures PolicyOk(c, Executor, FallbackNode(c, s))
  {
    assert FallbackNode(c, s).fallbackDone;
  }

  lemma FinishingKeepsPolicy(c: Config, n: Node, s: State, o: Oracle)
    requires PolicyOk(c, n, s)
    requires n.Generator? || n.Verifier? || n.AnswerRevision? || n.CitationValidator?
    ensures var (n', s') := Visit(c, n, s, o); PolicyOk(c, n', s')
  {
    var (n', s') := Visit(c, n, s, o);
    OtherNodesKeepPolicy(c, n, s, s');
  }

  lemma VisitKeepsPolicy(c: Config, n: Node, s: State, o: Oracle)
    requires n != End && PolicyOk(c, n, s)
    ensures var (n', s') := Visit(c, n, s, o); PolicyOk(c, n', s')
  {
    match n
    case QueryAnalyzer => AnalysisKeepsPolicy(c, s, o);
    case SimplePlan | Planner | Replanner => PlanningKeepsPolicy(c, n, s, o);
    case Executor => ExecutorKeepsPolicy(c, s, o);
    case StepEvaluator => StepKeepsPolicy(c, s, o);
    case EvidenceGrader => GradingKeepsPolicy(c, s, o);
    case QueryRefiner => RefinerKeepsPolicy(c, s, o);
    case ExternalFallback => FallbackKeepsPolicy(c, s);
    case Generator | Verifier | AnswerRevision | CitationValidator => FinishingKeepsPolicy(c, n, s, o);
  }

  lemma WorkingFixesScope(c: Config, n: Node, s: State, o: Oracle)
    requires n.Executor? || n.StepEvaluator? || n.EvidenceGrader?
    ensures var (n', s') := Visit(c, n, s, o); s'.scope == s.scope && !n'.QueryAnalyzer?
  {
    match n
    case Executor => if s.step < |s.plan| && s.attempts < c.maxIterations { ExecutorSpends(c, s, o.tools); }
    case StepEvaluator => StepIsEvaluated(c, s);
    case EvidenceGrader =>
      GraderKeepsCounters(s, o.grade);
      RouteIsCorrection(c, GraderNode(s, o.grade));
  }

  /** Only the analysis sets the scope, and it is visited once. */
  lemma ScopeIsFixed(c: Config, n: Node, s: State, o: Oracle)
    requires n != End && !n.QueryAnalyzer?
    ensures var (n', s') := Visit(c, n, s, o); s'.scope == s.scope && !n'.QueryAnalyzer?
  {
    match n
    case Planner | Replanner => PlannerPlans(c, s, o.proposal);
    case Executor | StepEvaluator | EvidenceGrader => WorkingFixesScope(c, n, s, o);
    case SimplePlan | QueryRefiner | ExternalFallback | Generator | Verifier | AnswerRevision | CitationValidator =>
  }

  lemma {:induction false} RunKeepsPolicy(c: Config, n: Node, s: State, oracles: seq<Oracle>)
    requires PolicyOk(c, n, s)
    ensures var (n', s', _) := Run(c, n, s, oracles);
            PolicyOk(c, n', s') && (!n.QueryAnalyzer? ==> s'.scope == s.scope)
    decreases |oracles|
  {
    if n != End && oracles != [] {
      VisitKeepsPolicy(c, n, s, oracles[0]);
      if !n.QueryAnalyzer? { ScopeIsFixed(c, n, s, oracles[0]); }
      var (n', s') := Visit(c, n, s, oracles[0]);
      RunKeepsPolicy(c, n', s', oracles[1..]);
    }
  }

  /**
   In every run, whatever the models propose: only available sources inside the scope are
   called, and while a local source may be searched nothing external is called before the
   fallback runs.
   */
  lemma LocalEvidenceFirst(c: Config, scope: Scope, oracles: seq<Oracle>)
    ensures var (_, s, _) := Run(c, QueryAnalyzer, Initial(scope), oracles); CallsOk(c, s.scope, LocalFirst(c, s), s.pool)
  {
    RunKeepsPolicy(c, QueryAnalyzer, Initial(scope), oracles);
  }

  /**
   A call is inside the requested scope unless the request asked for external sources only
   and the question was read as "only the documents"; then every call is outside it.
   */
  lemma RequestedScopeKept(c: Config, scope: Scope, oracles: seq<Oracle>, i: nat)
    requires oracles != []
    requires i < |Run(c, QueryAnalyzer, Initial(scope), oracles).1.pool|
    ensures var r := Run(c, QueryAnalyzer, Initial(scope), oracles).1.pool[i];
            InScope(scope, r.source) <==> !(scope.External? && oracles[0].analysis.narrowed)
  {
    var s0 := Initial(scope);
    var (n', s') := Visit(c, QueryAnalyzer, s0, oracles[0]);
    VisitKeepsPolicy(c, QueryAnalyzer, s0, oracles[0]);
    RunKeepsPolicy(c, n', s', oracles[1..]);
    var (_, s, _) := Run(c, n', s', oracles[1..]);
    assert s == Run(c, QueryAnalyzer, s0, oracles).1;
    assert !RouteAfterAnalysis(c, s').QueryAnalyzer?;
    assert s.scope == s'.scope == if oracles[0].analysis.narrowed then WorkspaceOnly else scope;
    assert CallAdmitted(c, s.scope, s.pool[i]);
  }

  // ------------------------------------------------- a request answered from elsewhere

  /** The workspace and the web, and a question about documents read as "only the documents". */
  function Mixed(): Config {
    Config([Workspace, Web], false, 6, 8, 1, true, 2, true, 1)
  }

  function OnlyDocuments(): Oracle {
    Oracle(Analysis(Document, [], "question", true, false, false), None, _ => Raised, None, Refinement.Failed, None)
  }

  lemma WorkspaceIsAllowed(sources: seq<Source>)
    requires sources == [Workspace] || sources == LOCAL
    ensures Allowed(Mixed(), WorkspaceOnly, sources) == [Workspace]
  {
    var c := Mixed();
    var preferred := PreferWorkspace(c, sources);
    assert [Workspace][1..] == [] && [Workspace][..0] == [];
    assert Filter(c, WorkspaceOnly, []) == [];
    assert Filter(c, WorkspaceOnly, [Workspace]) == [Workspace];
    if sources == LOCAL {
      assert preferred == [Workspace, Workspace] && preferred[1..] == [Workspace];
      assert Filter(c, WorkspaceOnly, preferred) == [Workspace, Workspace];
      assert [Workspace, Workspace][..1] == [Workspace];
    } else {
      assert preferred == [Workspace];
    }
    assert Unique([Workspace]) == [Workspace];
  }

  lemma AnalyzedOnlyDocuments()
    ensures var (n, s) := Visit(Mixed(), QueryAnalyzer, Initial(External), OnlyDocuments());
            n == SimplePlan && s.selected == [Workspace] && s.scope == WorkspaceOnly && s.pool == [] && s.attempts == 0
  {
    WorkspaceIsAllowed(LOCAL);
  }

  lemma SearchesWorkspace(s: State)
    requires s.selected == [Workspace] && s.scope == WorkspaceOnly && s.pool == [] && s.attempts == 0
    ensures var s' := ExecutorNode(Mixed(), SimplePlanNode(s), OnlyDocuments().tools);
            |s'.pool| == 1 && s'.pool[0].source == Workspace
  {
    var s1 := SimplePlanNode(s);
    assert s1.plan[0] == PlanStep(s.query, [Workspace]) && s1.attempts < Mixed().maxIterations;
    WorkspaceIsAllowed([Workspace]);
    RetrieveCalls(s.query, [Workspace], OnlyDocuments().tools, Harvest(s1.evidence, s1.pool, 0));
  }

  lemma RunFirst(c: Config, n: Node, s: State, o: Oracle, rest: seq<Oracle>)
    requires n != End
    ensures var (n', s') := Visit(c, n, s, o); Run(c, n, s, [o] + rest).1 == Run(c, n', s', rest).1
  {
    assert ([o] + rest)[1..] == rest;
  }

  lemma ThreeVisits(c: Config, s: State, o: Oracle)
    requires Visit(c, QueryAnalyzer, s, o).0 == SimplePlan
    ensures Run(c, QueryAnalyzer, s, [o, o, o]).1 == ExecutorNode(c, SimplePlanNode(Visit(c, QueryAnalyzer, s, o).1), o.tools)
  {
    var s1 := Visit(c, QueryAnalyzer, s, o).1;
    RunFirst(c, QueryAnalyzer, s, o, [o, o]);
    RunFirst(c, SimplePlan, s1, o, [o]);
    RunFirst(c, Executor, SimplePlanNode(s1), o, []);
    assert [o, o, o] == [o] + [o, o] && [o, o] == [o] + [o] && [o] == [o] + [];
  }

  /** Asked for external sources only, this run searches the workspace. */
  lemma ExternalRequestServedLocally(c: Config, o: Oracle)
    requires c == Mixed() && o == OnlyDocuments()
    ensures var pool := Run(c, QueryAnalyzer, Initial(External), [o, o, o]).1.pool;
            |pool| == 1 && pool[0].source == Workspace && !InScope(External, pool[0].source)
  {
    AnalyzedOnlyDocuments();
    ThreeVisits(c, Initial(External), o);
    SearchesWorkspace(Visit(c, QueryAnalyzer, Initial(External), o).1);
  }
}
