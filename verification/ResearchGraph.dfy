/**
 The bounded research graph: planner, executor, grading, refiner, replanner,
 fallback, generator and verifier, wired as a cyclic state machine.

 Every answer of a model or a tool is an arbitrary part of the `Oracle` of a node
 visit, and every exception a node catches is a missing answer.
 */
module ResearchGraph {
  import opened Wrappers
  import opened Basics

  datatype Source = Pdf | Workspace | Web | Arxiv

  datatype Scope = WorkspaceOnly | WorkspaceAndExternal | External

  datatype QueryType = Direct | Document | WebQuery | ArxivQuery | Research

  datatype Config = Config(
    available: seq<Source>,
    plannerEnabled: bool,
    maxPlanSteps: nat,
    maxIterations: nat,
    maxReplan: nat,
    selfCorrect: bool,
    rewriteMax: nat,
    groundingCheck: bool,
    answerRevisionMax: nat)

  /** The settings are positive integers where the configuration demands it. */
  predicate ValidConfig(c: Config) {
    c.maxPlanSteps > 0 && c.maxIterations > 0
  }

  datatype PlanStep = PlanStep(query: string, sources: seq<Source>)

  datatype Progress = PendingStep | CompletedStep | FailedStep

  datatype ToolOutcome = Items(ids: seq<nat>) | Text(unavailable: bool) | Raised

  datatype Retrieved = Retrieved(source: Source, query: string, success: bool)

  datatype State = State(
    scope: Scope,
    queryType: QueryType,
    query: string,
    academic: bool,
    needsRetrieval: bool,
    isComplex: bool,
    selected: seq<Source>,
    plan: seq<PlanStep>,
    step: nat,
    taskPlan: Option<seq<Progress>>,
    planIsTaskPlan: bool,
    attempts: nat,
    toolCalls: nat,
    results: seq<Progress>,
    evidence: set<nat>,
    pool: seq<Retrieved>,
    sufficient: bool,
    gradingFailed: bool,
    rewrites: nat,
    replans: nat,
    fallbackDone: bool,
    verified: Option<bool>,
    revisions: nat)

  datatype Analysis = Analysis(
    queryType: QueryType, proposed: seq<Source>, query: string, narrowed: bool, comparative: bool, academic: bool)

  datatype Grade = Grade(relevant: bool, sufficient: bool)

  datatype Refinement = Refined(query: string, sources: seq<Source>) | Unparsed | Failed

  datatype Oracle = Oracle(
    analysis: Analysis,
    proposal: Option<seq<PlanStep>>,
    tools: nat -> ToolOutcome,
    grade: Option<Grade>,
    refinement: Refinement,
    grounded: Option<bool>)

  datatype Node =
    | QueryAnalyzer | SimplePlan | Planner | Executor | StepEvaluator | EvidenceGrader
    | QueryRefiner | Replanner | ExternalFallback | Generator | Verifier | AnswerRevision | CitationValidator | End

  // ------------------------------------------------------------ source policy

  /** `list(dict.fromkeys(s))`: the first occurrence of each element, in order. */
  function Unique(s: seq<Source>): (r: seq<Source>)
    ensures forall x :: x in r <==> x in s
  {
    if s == [] then []
    else
      var r := Unique(s[..|s| - 1]);
      assert s == s[..|s| - 1] + [s[|s| - 1]];
      if s[|s| - 1] in r then r else r + [s[|s| - 1]]
  }

  function Filter(c: Config, scope: Scope, s: seq<Source>): (r: seq<Source>)
    ensures forall x :: x in r <==> x in s && x in c.available && InScope(scope, x)
  {
    if s == [] then []
    else
      var rest := Filter(c, scope, s[1..]);
      assert s == [s[0]] + s[1..];
      if s[0] in c.available && InScope(scope, s[0]) then [s[0]] + rest else rest
  }

  predicate InScope(scope: Scope, x: Source) {
    && (scope.WorkspaceOnly? ==> x.Pdf? || x.Workspace?)
    && (scope.External? ==> x.Web? || x.Arxiv?)
  }

  function PreferWorkspace(c: Config, s: seq<Source>): (r: seq<Source>)
    ensures |r| == |s|
    ensures forall i | 0 <= i < |s| :: r[i] == if s[i].Pdf? && Workspace in c.available then Workspace else s[i]
  {
    seq(|s|, i requires 0 <= i < |s| => if s[i].Pdf? && Workspace in c.available then Workspace else s[i])
  }

  function Allowed(c: Config, scope: Scope, s: seq<Source>): seq<Source> {
    Unique(Filter(c, scope, PreferWorkspace(c, s)))
  }

  const EXTERNAL: seq<Source> := [Web, Arxiv]
  const LOCAL: seq<Source> := [Workspace, Pdf]

  predicate ExternalAllowed(c: Config, scope: Scope) {
    Allowed(c, scope, EXTERNAL) != []
  }

  function Available(c: Config, s: seq<Source>): seq<Source> {
    if s == [] then []
    else if s[0] in c.available then [s[0]] + Available(c, s[1..]) else Available(c, s[1..])
  }

  function SourcesForQueryType(c: Config, t: QueryType, proposed: seq<Source>): seq<Source> {
    if t.Direct? then []
    else
      var candidates := match t
        case Document => [Pdf]
        case WebQuery => [Web]
        case ArxivQuery => [Arxiv]
        case _ => proposed;
      var sources := Available(c, candidates);
      Unique(if t.Research? && sources == [] then c.available else sources)
  }

  // --------------------------------------------------------------------- nodes

  function Analyze(c: Config, scope: Scope, a: Analysis): State {
    var found := SourcesForQueryType(c, a.queryType, a.proposed);
    var scope' := if a.narrowed then WorkspaceOnly else scope;
    var local := Allowed(c, scope', LOCAL);
    var allowed := Allowed(c, scope', found);
    var sources :=
      if local != [] then local
      else if scope'.External? && allowed == [] then Allowed(c, scope', EXTERNAL)
      else allowed;
    var needs := sources != [] && !a.queryType.Direct?;
    State(scope', a.queryType, a.query, a.academic, needs,
          needs && (a.comparative || a.queryType.Research?), sources,
          [], 0, None, false, 0, 0, [], {}, [], false, false, 0, 0, false, None, 0)
  }

  function SimplePlanNode(s: State): State {
    s.(plan := [PlanStep(s.query, s.selected)], step := 0, planIsTaskPlan := false)
  }

  function Reserve(c: Config, s: State): nat {
    if ExternalAllowed(c, s.scope) && !s.fallbackDone then 1 else 0
  }

  function Selected(s: State, sources: seq<Source>): seq<Source> {
    if sources == [] then []
    else (if sources[0] in s.selected then [sources[0]] else []) + Selected(s, sources[1..])
  }

  /** The steps of a proposal that survive the source policy. */
  function Admitted(c: Config, s: State, proposed: seq<PlanStep>): (r: seq<PlanStep>)
    ensures |r| <= |proposed|
  {
    if proposed == [] then []
    else
      var last := proposed[|proposed| - 1];
      var rest := Admitted(c, s, proposed[..|proposed| - 1]);
      var sources := Selected(s, Allowed(c, s.scope, if last.sources == [] then s.selected else last.sources));
      if sources == [] then rest else rest + [PlanStep(last.query, sources)]
  }

  function PlanLimit(c: Config, s: State): nat {
    Min(c.maxPlanSteps, Max(1, c.maxIterations - s.attempts - Reserve(c, s)))
  }

  function Pending(count: nat): (r: seq<Progress>)
    ensures |r| == count && forall i | 0 <= i < count :: r[i].PendingStep?
  {
    seq(count, _ => PendingStep)
  }

  /** A plan of admitted steps, or a single step over the selected sources if there is none. */
  function Planned(s: State, steps: seq<PlanStep>): State {
    var plan := if |steps| == 0 then [PlanStep(s.query, s.selected)] else steps;
    s.(plan := plan, step := 0, taskPlan := Some(Pending(|plan|)), planIsTaskPlan := true)
  }

  function AdmittedSteps(c: Config, s: State, proposal: Option<seq<PlanStep>>): seq<PlanStep> {
    if proposal.None? then [] else Admitted(c, s, proposal.value[..Min(|proposal.value|, PlanLimit(c, s))])
  }

  function PlannerNode(c: Config, s: State, proposal: Option<seq<PlanStep>>): State {
    Planned(s, AdmittedSteps(c, s, proposal))
  }

  function ReplannerNode(c: Config, s: State, proposal: Option<seq<PlanStep>>): State {
    PlannerNode(c, s, proposal).(replans := s.replans + 1)
  }

  /** What one tool adds: its evidence, whether it succeeded. */
  function Success(o: ToolOutcome): bool {
    (o.Items? && o.ids != []) || (o.Text? && !o.unavailable)
  }

  function Found(o: ToolOutcome): set<nat> {
    if o.Items? then set i | i in o.ids else {}
  }

  datatype Harvest = Harvest(evidence: set<nat>, pool: seq<Retrieved>, failures: nat)

  function Retrieve(query: string, sources: seq<Source>, tools: nat -> ToolOutcome, h: Harvest): (r: Harvest)
    ensures |r.pool| == |h.pool| + |sources|
    ensures h.evidence <= r.evidence
  {
    if sources == [] then h
    else
      var n := |sources| - 1;
      var before := Retrieve(query, sources[..n], tools, h);
      Harvest(before.evidence + Found(tools(n)),
              before.pool + [Retrieved(sources[n], query, Success(tools(n)))],
              before.failures + if Success(tools(n)) then 0 else 1)
  }

  /** One plan step: every allowed source is asked, and the step costs one attempt. */
  function Executing(c: Config, s: State, step: PlanStep, tools: nat -> ToolOutcome): State {
    var sources := Allowed(c, s.scope, step.sources);
    var h := Retrieve(step.query, sources, tools, Harvest(s.evidence, s.pool, 0));
    s.(evidence := h.evidence, pool := h.pool, toolCalls := s.toolCalls + |sources|,
       results := s.results + [if h.failures == |sources| then FailedStep else CompletedStep],
       attempts := s.attempts + 1)
  }

  function ExecutorNode(c: Config, s: State, tools: nat -> ToolOutcome): State {
    if s.step >= |s.plan| || s.attempts >= c.maxIterations then s.(step := |s.plan|)
    else Executing(c, s, s.plan[s.step], tools)
  }

  /** Progress after a step: its own result, and failure for the rest once the attempts are spent. */
  function Marked(marks: seq<Progress>, index: nat, result: Option<Progress>, spent: bool): (r: seq<Progress>)
    ensures |r| == |marks|
  {
    seq(|marks|, i requires 0 <= i < |marks| =>
      if i == index && result.Some? then result.value
      else if i > index && spent then FailedStep
      else marks[i])
  }

  function Evaluated(c: Config, s: State, marks: seq<Progress>): seq<Progress> {
    Marked(marks, s.step, if s.results == [] then None else Some(s.results[|s.results| - 1]), s.attempts >= c.maxIterations)
  }

  function StepEvaluatorNode(c: Config, s: State): State {
    s.(step := s.step + 1,
       taskPlan := if s.taskPlan.Some? && s.planIsTaskPlan then Some(Evaluated(c, s, s.taskPlan.value)) else s.taskPlan)
  }

  function GraderNode(s: State, grade: Option<Grade>): State {
    match grade
    case Some(g) => s.(sufficient := g.sufficient && g.relevant && s.evidence != {}, gradingFailed := false)
    case None => s.(sufficient := false, gradingFailed := true)
  }

  function RefinementSources(c: Config, s: State, proposed: seq<Source>): seq<Source> {
    var candidates := match s.queryType
      case Document => [Pdf]
      case WebQuery => [Web]
      case ArxivQuery => [Arxiv]
      case _ => proposed;
    var sources := Unique(Available(c, candidates));
    if sources == [] then s.selected else sources
  }

  function RefinerNode(c: Config, s: State, r: Refinement): State {
    var step := match r
      case Refined(query, sources) =>
        var found := RefinementSources(c, s, sources);
        if query == "" || found == [] then PlanStep(s.query, RefinementSources(c, s, s.selected)) else PlanStep(query, found)
      case Unparsed => PlanStep(s.query, RefinementSources(c, s, s.selected))
      case Failed => PlanStep(s.query, s.selected);
    var local := Allowed(c, s.scope, LOCAL);
    var sources := if local != [] && !s.fallbackDone then local else Allowed(c, s.scope, step.sources);
    s.(plan := [PlanStep(step.query, sources)], step := 0, rewrites := s.rewrites + 1, planIsTaskPlan := false,
       selected := Allowed(c, s.scope, s.selected))
  }

  function FallbackNode(c: Config, s: State): State {
    var first := Allowed(c, s.scope, [if s.academic then Arxiv else Web]);
    var sources := if first != [] then first else Allowed(c, s.scope, [if s.academic then Web else Arxiv]);
    s.(plan := [PlanStep(s.query, sources)], step := 0, fallbackDone := true, planIsTaskPlan := false)
  }

  function Verdict(c: Config, s: State, grounded: Option<bool>): Option<bool> {
    if !s.needsRetrieval || !c.groundingCheck then None
    else if s.evidence == {} then Some(false)
    else Some(grounded == Some(true))
  }

  function VerifierNode(c: Config, s: State, grounded: Option<bool>): State {
    s.(verified := Verdict(c, s, grounded))
  }

  // ---------------------------------------------------- the nodes that loop, as written

  method AdmitSteps(c: Config, s: State, proposed: seq<PlanStep>) returns (steps: seq<PlanStep>)
    ensures steps == Admitted(c, s, proposed)
  {
    steps := [];
    for index := 0 to |proposed|
      invariant steps == Admitted(c, s, proposed[..index])
    {
      var step := proposed[index];
      var sources := Selected(s, Allowed(c, s.scope, if step.sources == [] then s.selected else step.sources));
      assert proposed[..index + 1][..index] == proposed[..index];
      if sources != [] {
        steps := steps + [PlanStep(step.query, sources)];
      }
    }
    assert proposed[..|proposed|] == proposed;
  }

  method CallTools(query: string, sources: seq<Source>, tools: nat -> ToolOutcome, evidence0: set<nat>, pool0: seq<Retrieved>)
    returns (evidence: set<nat>, pool: seq<Retrieved>, failures: nat)
    ensures Harvest(evidence, pool, failures) == Retrieve(query, sources, tools, Harvest(evidence0, pool0, 0))
  {
    evidence, pool, failures := evidence0, pool0, 0;
    for i := 0 to |sources|
      invariant Harvest(evidence, pool, failures) == Retrieve(query, sources[..i], tools, Harvest(evidence0, pool0, 0))
    {
      assert sources[..i + 1][..i] == sources[..i];
      var success := Success(tools(i));
      evidence := evidence + Found(tools(i));
      if !success {
        failures := failures + 1;
      }
      pool := pool + [Retrieved(sources[i], query, success)];
    }
    assert sources[..|sources|] == sources;
  }

  method MarkSteps(marks0: seq<Progress>, index: nat, result: Option<Progress>, spent: bool) returns (marks: seq<Progress>)
    ensures marks == Marked(marks0, index, result, spent)
  {
    marks := marks0;
    if index < |marks| && result.Some? {
      marks := marks[index := result.value];
    }
    if spent {
      ghost var before := marks;
      var i := index + 1;
      while i < |marks|
        invariant index < i && |marks| == |before|
        invariant forall k | 0 <= k < |marks| :: marks[k] == if index < k < i then FailedStep else before[k]
      {
        marks := marks[i := FailedStep];
        i := i + 1;
      }
    }
  }

  // ------------------------------------------------------------------- routing

  function RouteAfterAnalysis(c: Config, s: State): Node {
    if !s.needsRetrieval then Generator
    else if s.isComplex && c.plannerEnabled then Planner else SimplePlan
  }

  function RouteAfterStep(c: Config, s: State): Node {
    if s.step < |s.plan| && s.attempts < c.maxIterations then Executor else EvidenceGrader
  }

  function RouteAfterGrading(c: Config, s: State): Node {
    if s.sufficient || s.gradingFailed || s.attempts >= c.maxIterations then Generator
    else
      var remaining := c.maxIterations - s.attempts;
      if c.selfCorrect && s.rewrites < Min(2, c.rewriteMax) && remaining > Reserve(c, s) then QueryRefiner
      else if s.isComplex && s.replans < c.maxReplan && c.plannerEnabled && remaining > Reserve(c, s) then Replanner
      else if !s.fallbackDone && ExternalAllowed(c, s.scope) then ExternalFallback
      else Generator
  }

  function RouteAfterVerification(c: Config, s: State): Node {
    if s.verified == Some(false) && s.revisions < Min(1, c.answerRevisionMax) then AnswerRevision else CitationValidator
  }

  /** One node visit: the node's update, then its outgoing edge. */
  function Visit(c: Config, n: Node, s: State, o: Oracle): (Node, State)
    requires n != End
  {
    match n
    case QueryAnalyzer => var s' := Analyze(c, s.scope, o.analysis); (RouteAfterAnalysis(c, s'), s')
    case SimplePlan => (Executor, SimplePlanNode(s))
    case Planner => (Executor, PlannerNode(c, s, o.proposal))
    case Executor => (StepEvaluator, ExecutorNode(c, s, o.tools))
    case StepEvaluator => var s' := StepEvaluatorNode(c, s); (RouteAfterStep(c, s'), s')
    case EvidenceGrader => var s' := GraderNode(s, o.grade); (RouteAfterGrading(c, s'), s')
    case QueryRefiner => (Executor, RefinerNode(c, s, o.refinement))
    case Replanner => (Executor, ReplannerNode(c, s, o.proposal))
    case ExternalFallback => (Executor, FallbackNode(c, s))
    case Generator => (Verifier, s)
    case Verifier => var s' := VerifierNode(c, s, o.grounded); (RouteAfterVerification(c, s'), s')
    case AnswerRevision => (Verifier, s.(revisions := s.revisions + 1))
    case CitationValidator => (End, s)
  }

  /** The node and state reached with the given answers, and the number of visits made. */
  function Run(c: Config, n: Node, s: State, oracles: seq<Oracle>): (Node, State, nat)
    decreases |oracles|
  {
    if n == End || oracles == [] then (n, s, 0)
    else
      var (n', s') := Visit(c, n, s, oracles[0]);
      var (last, t, visits) := Run(c, n', s', oracles[1..]);
      (last, t, visits + 1)
  }

  // --------------------------------------------------------------- termination

  function RewriteLimit(c: Config): nat { Min(2, c.rewriteMax) }

  function RevisionLimit(c: Config): nat { Min(1, c.answerRevisionMax) }

  /** What holds whenever a node is entered. */
  ghost predicate Bounded(c: Config, n: Node, s: State) {
    && s.attempts <= c.maxIterations
    && s.rewrites <= RewriteLimit(c) && s.replans <= c.maxReplan && s.revisions <= RevisionLimit(c)
    && (n.QueryAnalyzer? || n.SimplePlan? || n.Planner? ==>
          s.attempts == 0 && s.rewrites == 0 && s.replans == 0 && s.revisions == 0 && !s.fallbackDone)
    && (n.Executor? ==> s.step < |s.plan| && s.attempts < c.maxIterations)
    && (n.StepEvaluator? ==> s.step < |s.plan|)
    && (n.QueryRefiner? ==> s.attempts < c.maxIterations && s.rewrites < RewriteLimit(c))
    && (n.Replanner? ==> s.attempts < c.maxIterations && s.replans < c.maxReplan)
    && (n.ExternalFallback? ==> s.attempts < c.maxIterations && !s.fallbackDone && ExternalAllowed(c, s.scope))
    && (n.AnswerRevision? ==> s.revisions < RevisionLimit(c))
  }

  /** Attempts and corrections still unspent, each worth two visits. */
  function Unspent(c: Config, s: State): int {
    2 * (c.maxIterations - s.attempts)
    + 2 * (RewriteLimit(c) - s.rewrites + c.maxReplan - s.replans + if s.fallbackDone then 0 else 1)
  }

  function Finishing(c: Config, s: State): int {
    2 + 2 * (RevisionLimit(c) - s.revisions)
  }

  /** An upper bound on the visits still to come when node `n` is entered. */
  function Remaining(c: Config, n: Node, s: State): int {
    match n
    case QueryAnalyzer => Unspent(c, s) + Finishing(c, s) + 4
    case SimplePlan => Unspent(c, s) + Finishing(c, s) + 3
    case Planner => Unspent(c, s) + Finishing(c, s) + 3
    case Executor => Unspent(c, s) + Finishing(c, s) + 2
    case StepEvaluator => Unspent(c, s) + Finishing(c, s) + 3
    case EvidenceGrader => Unspent(c, s) + Finishing(c, s) + 2
    case QueryRefiner => Unspent(c, s) + Finishing(c, s) + 1
    case Replanner => Unspent(c, s) + Finishing(c, s) + 1
    case ExternalFallback => Unspent(c, s) + Finishing(c, s) + 1
    case Generator => Finishing(c, s) + 1
    case Verifier => Finishing(c, s)
    case AnswerRevision => Finishing(c, s) - 1
    case CitationValidator => 1
    case End => 0
  }

  /** The bound on a whole run: attempts, corrections, and the fixed path around them. */
  function StepBound(c: Config): int {
    2 * c.maxIterations + 2 * (RewriteLimit(c) + c.maxReplan + 1) + 8
  }

  function Initial(scope: Scope): State {
    State(scope, Direct, "", false, false, false, [], [], 0, None, false, 0, 0, [], {}, [], false, false, 0, 0, false, None, 0)
  }

  /** The counters a node may spend, and the choices fixed by the analysis. */
  ghost predicate SameCounters(s: State, t: State) {
    && s.scope == t.scope && s.selected == t.selected && s.isComplex == t.isComplex
    && s.attempts == t.attempts && s.rewrites == t.rewrites && s.revisions == t.revisions
    && s.fallbackDone == t.fallbackDone
  }

  lemma PlannedFacts(s: State, steps: seq<PlanStep>)
    ensures var s' := Planned(s, steps);
            && 0 < |s'.plan| && s'.step == 0 && SameCounters(s, s') && s'.replans == s.replans
  {
  }

  lemma PlannerPlans(c: Config, s: State, proposal: Option<seq<PlanStep>>)
    ensures var s' := PlannerNode(c, s, proposal);
            && 0 < |s'.plan| && s'.step == 0 && SameCounters(s, s') && s'.replans == s.replans
  {
    PlannedFacts(s, AdmittedSteps(c, s, proposal));
  }

  /** What one visit owes the termination argument. */
  ghost predicate Progresses(c: Config, n: Node, s: State, n': Node, s': State) {
    && Bounded(c, n', s')
    && 0 <= Remaining(c, n', s') < Remaining(c, n, s)
    && s'.attempts == s.attempts + (if n.Executor? then 1 else 0)
  }

  lemma AnalysisProgresses(c: Config, s: State, o: Oracle)
    requires ValidConfig(c) && Bounded(c, QueryAnalyzer, s)
    ensures var (n', s') := Visit(c, QueryAnalyzer, s, o); Progresses(c, QueryAnalyzer, s, n', s')
  {
    var s' := Analyze(c, s.scope, o.analysis);
    assert s'.attempts == 0 && s'.rewrites == 0 && s'.replans == 0 && s'.revisions == 0 && !s'.fallbackDone;
  }

  lemma PlanningProgresses(c: Config, n: Node, s: State, o: Oracle)
    requires ValidConfig(c) && Bounded(c, n, s) && (n.SimplePlan? || n.Planner?)
    ensures var (n', s') := Visit(c, n, s, o); Progresses(c, n, s, n', s')
  {
    if n.Planner? {
      PlannerPlans(c, s, o.proposal);
    } else {
      assert SameCounters(s, SimplePlanNode(s));
    }
  }

  lemma ReplanningProgresses(c: Config, s: State, o: Oracle)
    requires ValidConfig(c) && Bounded(c, Replanner, s)
    ensures var (n', s') := Visit(c, Replanner, s, o); Progresses(c, Replanner, s, n', s')
  {
    PlannerPlans(c, s, o.proposal);
  }

  /** What an executor visit does to the counters while an attempt and a step are left. */
  lemma ExecutorSpends(c: Config, s: State, tools: nat -> ToolOutcome)
    requires s.step < |s.plan| && s.attempts < c.maxIterations
    ensures var s' := ExecutorNode(c, s, tools);
            && s'.attempts == s.attempts + 1 && s'.plan == s.plan && s'.step == s.step && s'.replans == s.replans
            && s'.rewrites == s.rewrites && s'.revisions == s.revisions && s'.fallbackDone == s.fallbackDone
            && s'.scope == s.scope
  {
    assert ExecutorNode(c, s, tools) == Executing(c, s, s.plan[s.step], tools);
  }

  lemma ExecutorProgresses(c: Config, s: State, o: Oracle)
    requires ValidConfig(c) && Bounded(c, Executor, s)
    ensures Progresses(c, Executor, s, StepEvaluator, ExecutorNode(c, s, o.tools))
  {
    ExecutorSpends(c, s, o.tools);
  }

  lemma StepIsEvaluated(c: Config, s: State)
    ensures var s' := StepEvaluatorNode(c, s);
            && SameCounters(s, s') && s'.step == s.step + 1 && s'.plan == s.plan && s'.replans == s.replans
  {
  }

  lemma EvaluatorProgresses(c: Config, s: State)
    requires ValidConfig(c) && Bounded(c, StepEvaluator, s)
    ensures var s' := StepEvaluatorNode(c, s); Progresses(c, StepEvaluator, s, RouteAfterStep(c, s'), s')
  {
    StepIsEvaluated(c, s);
  }

  lemma ExecutionProgresses(c: Config, n: Node, s: State, o: Oracle)
    requires ValidConfig(c) && Bounded(c, n, s) && (n.Executor? || n.StepEvaluator?)
    ensures var (n', s') := Visit(c, n, s, o); Progresses(c, n, s, n', s')
  {
    if n.Executor? {
      ExecutorProgresses(c, s, o);
    } else {
      EvaluatorProgresses(c, s);
    }
  }

  lemma GraderKeepsCounters(s: State, grade: Option<Grade>)
    ensures var s' := GraderNode(s, grade);
            && SameCounters(s, s') && s'.replans == s.replans && s'.plan == s.plan && s'.step == s.step && s'.pool == s.pool
            && s'.results == s.results && s'.taskPlan == s.taskPlan && s'.planIsTaskPlan == s.planIsTaskPlan
            && s'.evidence == s.evidence && s'.needsRetrieval == s.needsRetrieval
  {
  }

  lemma RouteIsCorrection(c: Config, s: State)
    ensures var n := RouteAfterGrading(c, s); n.QueryRefiner? || n.Replanner? || n.ExternalFallback? || n.Generator?
  {
  }

  /** Whatever grading chooses keeps the bounds and lowers the measure. */
  lemma ChoiceProgresses(c: Config, s: State, n': Node, s': State)
    requires ValidConfig(c) && Bounded(c, EvidenceGrader, s) && SameCounters(s, s') && s'.replans == s.replans
    requires n' == RouteAfterGrading(c, s')
    ensures Progresses(c, EvidenceGrader, s, n', s')
  {
    RoutePromises(c, s');
  }

  lemma GradingProgresses(c: Config, s: State, o: Oracle)
    requires ValidConfig(c) && Bounded(c, EvidenceGrader, s)
    ensures var (n', s') := Visit(c, EvidenceGrader, s, o); Progresses(c, EvidenceGrader, s, n', s')
  {
    var s' := GraderNode(s, o.grade);
    GraderKeepsCounters(s, o.grade);
    ChoiceProgresses(c, s, RouteAfterGrading(c, s'), s');
  }

  /** A correction is chosen only while its own allowance and an attempt remain. */
  lemma RoutePromises(c: Config, s: State)
    requires s.attempts <= c.maxIterations
    ensures var n := RouteAfterGrading(c, s);
            && (n.QueryRefiner? || n.Replanner? || n.ExternalFallback? || n.Generator?)
            && (!n.Generator? ==> s.attempts < c.maxIterations)
            && (n.QueryRefiner? ==> s.rewrites < RewriteLimit(c))
            && (n.Replanner? ==> s.replans < c.maxReplan)
            && (n.ExternalFallback? ==> !s.fallbackDone && ExternalAllowed(c, s.scope))
  {
  }

  lemma RefinerPlans(c: Config, s: State, r: Refinement)
    ensures var s' := RefinerNode(c, s, r);
            && |s'.plan| == 1 && s'.step == 0 && s'.rewrites == s.rewrites + 1 && s'.replans == s.replans
            && s'.attempts == s.attempts && s'.revisions == s.revisions && s'.fallbackDone == s.fallbackDone && s'.scope == s.scope
  {
  }

  lemma FallbackPlans(c: Config, s: State)
    ensures var s' := FallbackNode(c, s);
            && |s'.plan| == 1 && s'.step == 0 && s'.rewrites == s.rewrites && s'.replans == s.replans
            && s'.attempts == s.attempts && s'.revisions == s.revisions && s'.fallbackDone && s'.scope == s.scope
  {
  }

  lemma CorrectionProgresses(c: Config, n: Node, s: State, o: Oracle)
    requires ValidConfig(c) && Bounded(c, n, s) && (n.QueryRefiner? || n.ExternalFallback?)
    ensures var (n', s') := Visit(c, n, s, o); Progresses(c, n, s, n', s')
  {
    if n.QueryRefiner? {
      RefinerPlans(c, s, o.refinement);
    } else {
      FallbackPlans(c, s);
    }
  }

  lemma AnsweringProgresses(c: Config, n: Node, s: State, o: Oracle)
    requires ValidConfig(c) && Bounded(c, n, s) && (n.Generator? || n.AnswerRevision? || n.CitationValidator?)
    ensures var (n', s') := Visit(c, n, s, o); Progresses(c, n, s, n', s')
  {
  }

  lemma VerificationProgresses(c: Config, s: State, o: Oracle)
    requires ValidConfig(c) && Bounded(c, Verifier, s)
    ensures var (n', s') := Visit(c, Verifier, s, o); Progresses(c, Verifier, s, n', s')
  {
    var s' := VerifierNode(c, s, o.grounded);
    assert SameCounters(s, s') && s'.replans == s.replans;
  }

  /** Every visit spends at least one unit of the measure; an executor visit spends exactly one attempt. */
  lemma VisitDecreases(c: Config, n: Node, s: State, o: Oracle)
    requires ValidConfig(c) && n != End && Bounded(c, n, s)
    ensures var (n', s') := Visit(c, n, s, o); Progresses(c, n, s, n', s')
  {
    match n
    case QueryAnalyzer => AnalysisProgresses(c, s, o);
    case SimplePlan | Planner => PlanningProgresses(c, n, s, o);
    case Replanner => ReplanningProgresses(c, s, o);
    case Executor | StepEvaluator => ExecutionProgresses(c, n, s, o);
    case EvidenceGrader => GradingProgresses(c, s, o);
    case QueryRefiner | ExternalFallback => CorrectionProgresses(c, n, s, o);
    case Generator | AnswerRevision | CitationValidator => AnsweringProgresses(c, n, s, o);
    case Verifier => VerificationProgresses(c, s, o);
  }

  lemma {:induction false} RunDecreases(c: Config, n: Node, s: State, oracles: seq<Oracle>)
    requires ValidConfig(c) && Bounded(c, n, s) && 0 <= Remaining(c, n, s)
    ensures var (n', s', visits) := Run(c, n, s, oracles);
            && Bounded(c, n', s') && 0 <= Remaining(c, n', s') <= Remaining(c, n, s) - visits
            && visits <= |oracles| && (n' == End || visits == |oracles|)
    decreases |oracles|
  {
    if n != End && oracles != [] {
      VisitDecreases(c, n, s, oracles[0]);
      var (n', s') := Visit(c, n, s, oracles[0]);
      RunDecreases(c, n', s', oracles[1..]);
    }
  }

  lemma StartIsBounded(c: Config, scope: Scope)
    requires ValidConfig(c)
    ensures Bounded(c, QueryAnalyzer, Initial(scope)) && 0 <= Remaining(c, QueryAnalyzer, Initial(scope)) <= StepBound(c)
  {
  }

  /** A measure that is used up means the end. */
  lemma EndOfMeasure(c: Config, n: Node, s: State)
    requires Bounded(c, n, s) && Remaining(c, n, s) <= 0
    ensures n == End
  {
  }

  /** Whatever the models and tools answer, the graph ends within the bound. */
  lemma RunTerminates(c: Config, scope: Scope, oracles: seq<Oracle>)
    requires ValidConfig(c)
    ensures var (n, s, visits) := Run(c, QueryAnalyzer, Initial(scope), oracles);
            && visits <= StepBound(c)
            && (|oracles| >= StepBound(c) ==> n == End)
            && s.attempts <= c.maxIterations
  {
    StartIsBounded(c, scope);
    RunDecreases(c, QueryAnalyzer, Initial(scope), oracles);
    var (n, s, visits) := Run(c, QueryAnalyzer, Initial(scope), oracles);
    if visits >= StepBound(c) { EndOfMeasure(c, n, s); }
  }
}
