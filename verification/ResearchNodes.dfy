/**
 What each node of the research graph makes of the answers it gets: which sources are
 selected and planned, what an execution collects, and when an answer is revised.
 */
module ResearchNodes {
  import opened Wrappers
  import opened Basics
  import opened ResearchGraph
  import opened ResearchReservation

  // ---------------------------------------------------------------- allowed sources

  /** A source that may be asked: available, in scope, and not the plain reader of a workspace that is itself available. */
  predicate Askable(c: Config, scope: Scope, x: Source) {
    x in c.available && !(x.Pdf? && Workspace in c.available)
    && match scope
       case WorkspaceOnly => x.Pdf? || x.Workspace?
       case External => x.Web? || x.Arxiv?
       case WorkspaceAndExternal => true
  }

  lemma {:induction false} UniqueOnce(s: seq<Source>)
    ensures Distinct(Unique(s))
  {
    if s != [] { UniqueOnce(s[..|s| - 1]); }
  }

  /** Exactly the askable ones are allowed, each once, the workspace standing in for its reader. */
  lemma AllowedExactly(c: Config, scope: Scope, s: seq<Source>, x: Source)
    ensures Distinct(Allowed(c, scope, s))
    ensures x in Allowed(c, scope, s) <==> Askable(c, scope, x) && (x in s || (x.Workspace? && Pdf in s))
  {
    var t := PreferWorkspace(c, s);
    UniqueOnce(Filter(c, scope, t));
    if Askable(c, scope, x) && (x in s || (x.Workspace? && Pdf in s)) {
      var y := if x in s then x else Pdf;
      var i :| 0 <= i < |s| && s[i] == y;
      assert t[i] == x;
    }
    if x in t {
      var i :| 0 <= i < |t| && t[i] == x;
      assert s[i] in s;
    }
  }

  /** Everything is asked in the order in which the sources first name it. */
  ghost predicate FirstNamed(s: seq<Source>, r: seq<Source>) {
    forall i, j {:trigger r[i], r[j]} | 0 <= i < j < |r| :: NamedBefore(s, r[i], r[j])
  }

  /** Some prefix of the sources names `x` and not yet `y`. */
  ghost predicate NamedBefore(s: seq<Source>, x: Source, y: Source) {
    exists k {:trigger s[..k]} | 0 <= k <= |s| :: x in s[..k] && y !in s[..k]
  }

  lemma NamedBeforeMore(s: seq<Source>, z: Source, x: Source, y: Source)
    requires NamedBefore(s, x, y)
    ensures NamedBefore(s + [z], x, y)
  {
    var k :| 0 <= k <= |s| && x in s[..k] && y !in s[..k];
    assert (s + [z])[..k] == s[..k];
  }

  lemma NamedBeforeNew(s: seq<Source>, z: Source, x: Source)
    requires x in s && z !in s
    ensures NamedBefore(s + [z], x, z)
  {
    assert (s + [z])[..|s|] == s;
  }

  lemma {:induction false} UniqueOrders(s: seq<Source>)
    ensures FirstNamed(s, Unique(s))
  {
    if s != [] {
      var rest, z := s[..|s| - 1], s[|s| - 1];
      UniqueOrders(rest);
      assert s == rest + [z];
      forall i, j {:trigger Unique(s)[i], Unique(s)[j]} | 0 <= i < j < |Unique(s)|
        ensures NamedBefore(s, Unique(s)[i], Unique(s)[j])
      {
        if j < |Unique(rest)| {
          assert NamedBefore(rest, Unique(rest)[i], Unique(rest)[j]);
          NamedBeforeMore(rest, z, Unique(s)[i], Unique(s)[j]);
        } else {
          NamedBeforeNew(rest, z, Unique(s)[i]);
        }
      }
    }
  }

  lemma {:induction false} FilterConcat(c: Config, scope: Scope, a: seq<Source>, b: seq<Source>)
    ensures Filter(c, scope, a + b) == Filter(c, scope, a) + Filter(c, scope, b)
  {
    if a == [] {
      assert a + b == b;
    } else {
      FilterConcat(c, scope, a[1..], b);
      assert (a + b)[1..] == a[1..] + b;
      FilterBoth(c, scope, a, a + b, Filter(c, scope, a[1..]), Filter(c, scope, b));
    }
  }

  lemma FilterBoth(c: Config, scope: Scope, a: seq<Source>, ab: seq<Source>, rest: seq<Source>, more: seq<Source>)
    requires a != [] && ab != [] && ab[0] == a[0]
    requires rest == Filter(c, scope, a[1..]) && Filter(c, scope, ab[1..]) == rest + more
    ensures Filter(c, scope, ab) == Filter(c, scope, a) + more
  {
    var first := if a[0] in c.available && InScope(scope, a[0]) then [a[0]] else [];
    FilterFirst(c, scope, ab, rest + more);
    FilterFirst(c, scope, a, rest);
    Regroup(first, rest, more, Filter(c, scope, ab), Filter(c, scope, a));
  }

  lemma Regroup(first: seq<Source>, rest: seq<Source>, more: seq<Source>, all: seq<Source>, front: seq<Source>)
    requires all == first + (rest + more) && front == first + rest
    ensures all == front + more
  {
  }

  lemma FilterFirst(c: Config, scope: Scope, s: seq<Source>, rest: seq<Source>)
    requires s != [] && rest == Filter(c, scope, s[1..])
    ensures Filter(c, scope, s) == (if s[0] in c.available && InScope(scope, s[0]) then [s[0]] else []) + rest
  {
  }

  /** What is allowed is asked in the order of the proposal, after the workspace has replaced its reader. */
  lemma AllowedOrders(c: Config, scope: Scope, s: seq<Source>)
    ensures FirstNamed(PreferWorkspace(c, s), Allowed(c, scope, s))
  {
    var t := PreferWorkspace(c, s);
    var f := Filter(c, scope, t);
    UniqueOrders(f);
    forall i, j {:trigger Unique(f)[i], Unique(f)[j]} | 0 <= i < j < |Unique(f)|
      ensures NamedBefore(t, Unique(f)[i], Unique(f)[j])
    {
      assert Unique(f)[i] in Unique(f) && Unique(f)[j] in Unique(f);
      FilteredBefore(c, scope, t, Unique(f)[i], Unique(f)[j]);
    }
  }

  /** Of two that pass the filter, the one named first afterwards was named first before. */
  lemma {:induction false} FilteredBefore(c: Config, scope: Scope, t: seq<Source>, x: Source, y: Source)
    requires NamedBefore(Filter(c, scope, t), x, y) && y in Filter(c, scope, t)
    ensures NamedBefore(t, x, y)
  {
    if t != [] {
      var rest, z := t[..|t| - 1], t[|t| - 1];
      var f := Filter(c, scope, rest);
      assert t == rest + [z];
      FilterOne(c, scope, rest, z);
      BeforeTheLast(f, Filter(c, scope, t), x, y);
      if y in f {
        FilteredBefore(c, scope, rest, x, y);
        NamedBeforeMore(rest, z, x, y);
      } else {
        NamedBeforeOnly(c, scope, rest, z, x, y);
      }
    }
  }

  lemma FilterOne(c: Config, scope: Scope, rest: seq<Source>, z: Source)
    ensures var f, g := Filter(c, scope, rest), Filter(c, scope, rest + [z]);
            g == f || g == f + [z]
  {
    FilterConcat(c, scope, rest, [z]);
    assert [z][1..] == [];
  }

  /** What is named before a later one stands before the last place. */
  lemma BeforeTheLast(f: seq<Source>, g: seq<Source>, x: Source, y: Source)
    requires (g == f || exists z :: g == f + [z]) && NamedBefore(g, x, y) && y in g
    ensures x in f && (y in f ==> NamedBefore(f, x, y))
  {
    var k :| 0 <= k <= |g| && x in g[..k] && y !in g[..k];
    assert g[..|g|] == g;
    assert f[..k] == g[..k];
  }

  lemma NamedBeforeOnly(c: Config, scope: Scope, rest: seq<Source>, z: Source, x: Source, y: Source)
    requires x in Filter(c, scope, rest) && y !in Filter(c, scope, rest) && y in Filter(c, scope, rest + [z])
    ensures NamedBefore(rest + [z], x, y)
  {
    NamedBeforeNew(rest, z, x);
  }

  // ---------------------------------------------------------------------- analysis

  /** What the analysis found for the question, before scope and preference. */
  predicate Found(c: Config, a: Analysis, x: Source) {
    x in c.available
    && match a.queryType
       case Direct => false
       case Document => x.Pdf?
       case WebQuery => x.Web?
       case ArxivQuery => x.Arxiv?
       case Research => x in a.proposed || forall y | y in a.proposed :: y !in c.available
  }

  predicate HasLocal(c: Config, scope: Scope) {
    !scope.External? && (Workspace in c.available || Pdf in c.available)
  }

  lemma {:induction false} AvailableMember(c: Config, s: seq<Source>, x: Source)
    ensures x in Available(c, s) <==> x in s && x in c.available
  {
    if s != [] { AvailableMember(c, s[1..], x); }
  }

  lemma SourcesFound(c: Config, a: Analysis, x: Source)
    ensures x in SourcesForQueryType(c, a.queryType, a.proposed) <==> Found(c, a, x)
  {
    AvailableMember(c, a.proposed, x);
    AvailableMember(c, [Pdf], x);
    AvailableMember(c, [Web], x);
    AvailableMember(c, [Arxiv], x);
    var known := Available(c, a.proposed);
    if known != [] {
      AvailableMember(c, a.proposed, known[0]);
      assert known[0] in known;
    } else {
      forall y | y in a.proposed ensures y !in c.available { AvailableMember(c, a.proposed, y); }
    }
  }

  /** Whether any source of the question may be asked. */
  ghost predicate SomeFound(c: Config, scope: Scope, a: Analysis) {
    exists x: Source :: FoundAskable(c, scope, a, x)
  }

  predicate FoundAskable(c: Config, scope: Scope, a: Analysis, x: Source) {
    Askable(c, scope, x) && (Found(c, a, x) || (x.Workspace? && Found(c, a, Pdf)))
  }

  /**
   The analysis selects the local source if there is one in scope; otherwise what it found,
   or, for a request for external sources that found none, every external source. The
   question is retrieved for if something was selected and it is not direct, and then
   planned if it compares or researches and planning is enabled.
   */
  lemma AnalysisSelects(c: Config, s: State, o: Oracle, x: Source)
    ensures var a := o.analysis;
            var scope := if a.narrowed then WorkspaceOnly else s.scope;
            var (n', s') := Visit(c, QueryAnalyzer, s, o);
            && s'.scope == scope && s'.query == a.query && s'.academic == a.academic
            && (x in s'.selected <==>
                 if HasLocal(c, scope) then Askable(c, scope, x) && (x.Workspace? || x.Pdf?)
                 else if scope.External? && !SomeFound(c, scope, a) then Askable(c, scope, x)
                 else FoundAskable(c, scope, a, x))
            && (s'.needsRetrieval <==> s'.selected != [] && !a.queryType.Direct?)
            && (n' == if !s'.needsRetrieval then Generator
                      else if (a.comparative || a.queryType.Research?) && c.plannerEnabled then Planner else SimplePlan)
            && (s'.isComplex <==> s'.needsRetrieval && (a.comparative || a.queryType.Research?))
  {
    var a := o.analysis;
    var scope := if a.narrowed then WorkspaceOnly else s.scope;
    var found := SourcesForQueryType(c, a.queryType, a.proposed);
    SourcesFound(c, a, x);
    SourcesFound(c, a, Pdf);
    AllowedExactly(c, scope, LOCAL, x);
    AllowedExactly(c, scope, found, x);
    AllowedExactly(c, scope, EXTERNAL, x);
    LocalExists(c, scope);
    FoundExists(c, scope, a);
  }

  lemma LocalExists(c: Config, scope: Scope)
    ensures Allowed(c, scope, LOCAL) != [] <==> HasLocal(c, scope)
  {
    AllowedExactly(c, scope, LOCAL, Workspace);
    AllowedExactly(c, scope, LOCAL, Pdf);
    var local := Allowed(c, scope, LOCAL);
    if local != [] {
      AllowedExactly(c, scope, LOCAL, local[0]);
      assert local[0] in local;
    }
  }

  lemma FoundExists(c: Config, scope: Scope, a: Analysis)
    ensures Allowed(c, scope, SourcesForQueryType(c, a.queryType, a.proposed)) != [] <==> SomeFound(c, scope, a)
  {
    var found := SourcesForQueryType(c, a.queryType, a.proposed);
    var allowed := Allowed(c, scope, found);
    SourcesFound(c, a, Pdf);
    if allowed != [] {
      var x := allowed[0];
      assert x in allowed;
      AllowedExactly(c, scope, found, x);
      SourcesFound(c, a, x);
      assert FoundAskable(c, scope, a, x);
    }
    if x: Source :| FoundAskable(c, scope, a, x) {
      AllowedExactly(c, scope, found, x);
      SourcesFound(c, a, x);
    }
  }

  /** Without planning the question is asked once, of everything selected. */
  lemma SimplePlanExactly(c: Config, s: State, o: Oracle)
    ensures var (n', s') := Visit(c, SimplePlan, s, o);
            n' == Executor && s' == s.(plan := [PlanStep(s.query, s.selected)], step := 0, planIsTaskPlan := false)
  {
  }

  // ---------------------------------------------------------------------- planning

  /** A proposed step may ask `x`: it names it, or names nothing, and `x` was selected. */
  predicate StepAsks(c: Config, s: State, step: PlanStep, x: Source) {
    Askable(c, s.scope, x) && x in s.selected
    && (step.sources == [] || x in step.sources || (x.Workspace? && Pdf in step.sources))
  }

  ghost predicate StepAdmitted(c: Config, s: State, step: PlanStep) {
    exists x: Source :: StepAsks(c, s, step, x)
  }

  lemma {:induction false} SelectedExactly(s: State, sources: seq<Source>, x: Source)
    ensures x in Selected(s, sources) <==> x in sources && x in s.selected
  {
    if sources != [] { SelectedExactly(s, sources[1..], x); }
  }

  /** The sources of a step after the policy. */
  function StepSources(c: Config, s: State, step: PlanStep): seq<Source> {
    Selected(s, Allowed(c, s.scope, if step.sources == [] then s.selected else step.sources))
  }

  lemma StepSourcesExactly(c: Config, s: State, step: PlanStep, x: Source)
    ensures x in StepSources(c, s, step) <==> StepAsks(c, s, step, x)
  {
    var named := if step.sources == [] then s.selected else step.sources;
    SelectedExactly(s, Allowed(c, s.scope, named), x);
    AllowedExactly(c, s.scope, named, x);
  }

  lemma AdmittedExactly(c: Config, s: State, step: PlanStep)
    ensures StepSources(c, s, step) != [] <==> StepAdmitted(c, s, step)
  {
    var sources := StepSources(c, s, step);
    if sources != [] {
      assert sources[0] in sources;
      StepSourcesExactly(c, s, step, sources[0]);
    }
    if x: Source :| StepAsks(c, s, step, x) { StepSourcesExactly(c, s, step, x); }
  }

  /** The planned step is the proposed one with the sources it may ask. */
  ghost predicate StepPlanned(c: Config, s: State, proposed: PlanStep, planned: PlanStep) {
    planned.query == proposed.query && forall x {:trigger x in planned.sources} :: x in planned.sources <==> StepAsks(c, s, proposed, x)
  }

  /** The plan holds exactly the proposed steps that may ask something, in order. */
  ghost predicate Plans(c: Config, s: State, proposed: seq<PlanStep>, plan: seq<PlanStep>) {
    if proposed == [] then plan == []
    else
      var n := |proposed| - 1;
      if StepAdmitted(c, s, proposed[n])
      then plan != [] && StepPlanned(c, s, proposed[n], plan[|plan| - 1]) && Plans(c, s, proposed[..n], plan[..|plan| - 1])
      else Plans(c, s, proposed[..n], plan)
  }

  lemma {:induction false} PlanningAdmits(c: Config, s: State, proposed: seq<PlanStep>)
    ensures Plans(c, s, proposed, Admitted(c, s, proposed))
  {
    if proposed != [] {
      var n := |proposed| - 1;
      PlanningAdmits(c, s, proposed[..n]);
      AdmittedExactly(c, s, proposed[n]);
      var planned := PlanStep(proposed[n].query, StepSources(c, s, proposed[n]));
      forall x {:trigger x in planned.sources} ensures x in planned.sources <==> StepAsks(c, s, proposed[n], x) {
        StepSourcesExactly(c, s, proposed[n], x);
      }
      var before := Admitted(c, s, proposed[..n]);
      assert (before + [planned])[..|before|] == before;
    }
  }

  /**
   A proposal is cut to the step limit and to the attempts left beside the held-back one, but
   not below one step; if none of its steps is admitted, or there was no proposal, the plan is
   the question itself at the selected sources.
   */
  lemma PlannerPlansExactly(c: Config, s: State, proposal: Option<seq<PlanStep>>) returns (steps: seq<PlanStep>, kept: seq<PlanStep>)
    requires c.maxPlanSteps > 0
    ensures var size := Min(c.maxPlanSteps, Max(1, c.maxIterations - s.attempts - if Holding(c, s) then 1 else 0));
            steps == if proposal.None? then [] else proposal.value[..Min(|proposal.value|, size)]
    ensures Plans(c, s, steps, kept)
    ensures PlannerNode(c, s, proposal).plan == if kept == [] then [PlanStep(s.query, s.selected)] else kept
  {
    steps := if proposal.None? then [] else proposal.value[..Min(|proposal.value|, PlanLimit(c, s))];
    kept := AdmittedSteps(c, s, proposal);
    PlanningAdmits(c, s, steps);
    assert Admitted(c, s, []) == [];
  }

  // ------------------------------------------------------------------ retrieval

  /** A tool answered with evidence, or with a text that does not say it was unavailable. */
  predicate Answered(o: ToolOutcome) {
    match o
    case Items(ids) => ids != []
    case Text(unavailable) => !unavailable
    case Raised => false
  }

  /** What a retrieval of some sources adds. */
  ghost predicate Collected(
    query: string, sources: seq<Source>, tools: nat -> ToolOutcome, before: Harvest, after: Harvest)
  {
    && |after.pool| == |before.pool| + |sources| && after.pool[..|before.pool|] == before.pool
    && (forall i | 0 <= i < |sources| :: after.pool[|before.pool| + i] == Retrieved(sources[i], query, Answered(tools(i))))
    && (forall e {:trigger e in after.evidence} :: e in after.evidence <==>
          e in before.evidence || exists i | 0 <= i < |sources| :: tools(i).Items? && e in tools(i).ids)
    && 0 <= after.failures - before.failures <= |sources|
    && (after.failures - before.failures == |sources| <==> forall i | 0 <= i < |sources| :: !Answered(tools(i)))
  }

  lemma {:induction false} RetrieveCollects(query: string, sources: seq<Source>, tools: nat -> ToolOutcome, h: Harvest)
    ensures Collected(query, sources, tools, h, Retrieve(query, sources, tools, h))
  {
    if sources != [] {
      var n := |sources| - 1;
      RetrieveCollects(query, sources[..n], tools, h);
      var before, after := Retrieve(query, sources[..n], tools, h), Retrieve(query, sources, tools, h);
      forall e {:trigger e in after.evidence} ensures e in after.evidence <==>
        e in h.evidence || exists i | 0 <= i < |sources| :: tools(i).Items? && e in tools(i).ids
      {
        assert e in after.evidence <==> e in before.evidence || (tools(n).Items? && e in tools(n).ids);
      }
    }
  }

  /**
   An execution asks exactly the allowed sources of its step, with the step's query, and adds
   their evidence; the step is completed exactly if one of them answered, and costs one
   attempt. Without a step or an attempt left nothing is asked.
   */
  lemma ExecutionCollects(c: Config, s: State, tools: nat -> ToolOutcome)
    ensures var s' := ExecutorNode(c, s, tools);
            if s.step < |s.plan| && s.attempts < c.maxIterations then
              var sources := Allowed(c, s.scope, s.plan[s.step].sources);
              var failures := Retrieve(s.plan[s.step].query, sources, tools, Harvest(s.evidence, s.pool, 0)).failures;
              && Collected(s.plan[s.step].query, sources, tools, Harvest(s.evidence, s.pool, 0), Harvest(s'.evidence, s'.pool, failures))
              && s'.attempts == s.attempts + 1 && s'.toolCalls == s.toolCalls + |sources|
              && |s'.results| == |s.results| + 1 && s'.results[..|s.results|] == s.results
              && s'.results[|s.results|] == (if exists i | 0 <= i < |sources| :: Answered(tools(i)) then CompletedStep else FailedStep)
            else s' == s.(step := |s.plan|)
  {
    if s.step < |s.plan| && s.attempts < c.maxIterations {
      var sources := Allowed(c, s.scope, s.plan[s.step].sources);
      RetrieveCollects(s.plan[s.step].query, sources, tools, Harvest(s.evidence, s.pool, 0));
    }
  }

  // ---------------------------------------------------------------- corrections

  /** What a rewrite may ask: the kind of the question decides, or the rewrite itself. */
  predicate RewriteAsks(c: Config, s: State, proposed: seq<Source>, x: Source) {
    x in c.available
    && match s.queryType
       case Document => x.Pdf?
       case WebQuery => x.Web?
       case ArxivQuery => x.Arxiv?
       case Direct => x in proposed
       case Research => x in proposed
  }

  lemma RewriteSources(c: Config, s: State, proposed: seq<Source>, x: Source)
    ensures (exists y: Source :: RewriteAsks(c, s, proposed, y)) ==>
              (x in RefinementSources(c, s, proposed) <==> RewriteAsks(c, s, proposed, x))
    ensures !(exists y: Source :: RewriteAsks(c, s, proposed, y)) ==> RefinementSources(c, s, proposed) == s.selected
  {
    var candidates := match s.queryType
      case Document => [Pdf]
      case WebQuery => [Web]
      case ArxivQuery => [Arxiv]
      case _ => proposed;
    var sources := Unique(Available(c, candidates));
    AvailableMember(c, candidates, x);
    if sources != [] {
      assert sources[0] in sources;
      AvailableMember(c, candidates, sources[0]);
      assert RewriteAsks(c, s, proposed, sources[0]);
    }
    if y: Source :| RewriteAsks(c, s, proposed, y) { AvailableMember(c, candidates, y); }
  }

  /**
   A rewrite plans one step: the rewritten query if there is one, else the question; at the
   local source while there is one and the fallback has not run, else at the allowed sources
   of the rewrite. It counts as one rewrite.
   */
  lemma RefinerPlansExactly(c: Config, s: State, r: Refinement)
    ensures var s' := RefinerNode(c, s, r);
            var proposed := if r.Refined? then RefinementSources(c, s, r.sources) else [];
            var taken := r.Refined? && r.query != "" && proposed != [];
            && |s'.plan| == 1 && s'.step == 0 && s'.rewrites == s.rewrites + 1 && !s'.planIsTaskPlan
            && s'.plan[0].query == (if taken then r.query else s.query)
            && s'.plan[0].sources ==
               (if HasLocal(c, s.scope) && !s.fallbackDone then Allowed(c, s.scope, LOCAL)
                else Allowed(c, s.scope, if taken then proposed else if r.Failed? then s.selected else RefinementSources(c, s, s.selected)))
  {
    LocalExists(c, s.scope);
  }

  /** The fallback asks arXiv for an academic question and the web otherwise, or the other one if that may not be asked. */
  lemma FallbackAsks(c: Config, s: State)
    ensures var first := if s.academic then Arxiv else Web;
            var second := if s.academic then Web else Arxiv;
            FallbackNode(c, s).plan == [PlanStep(s.query,
              if Askable(c, s.scope, first) then [first] else if Askable(c, s.scope, second) then [second] else [])]
  {
    AllowedOne(c, s.scope, Arxiv);
    AllowedOne(c, s.scope, Web);
  }

  lemma AllowedOne(c: Config, scope: Scope, x: Source)
    requires x.Web? || x.Arxiv?
    ensures Allowed(c, scope, [x]) == if Askable(c, scope, x) then [x] else []
  {
    assert PreferWorkspace(c, [x]) == [x];
    assert [x][1..] == [] && [x][..0] == [];
    assert Filter(c, scope, []) == [];
    assert Unique([x]) == [x];
  }

  // ------------------------------------------------------------------- verification

  /** An answer is revised exactly when it is to be checked, was not shown to be grounded in evidence, and may still be revised. */
  lemma RevisedExactly(c: Config, s: State, o: Oracle)
    ensures Visit(c, Verifier, s, o).0 ==
              if c.groundingCheck && s.needsRetrieval && (s.evidence == {} || o.grounded != Some(true))
                 && s.revisions == 0 && c.answerRevisionMax > 0
              then AnswerRevision else CitationValidator
  {
  }
}
