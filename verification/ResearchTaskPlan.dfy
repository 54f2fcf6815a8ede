/**
 What a task plan says when it is graded: every step has its own result, and the steps
 that were never reached are marked failed.
 */
module ResearchTaskPlan {
  import opened Wrappers
  import opened ResearchGraph

  ghost predicate Settled(marks: seq<Progress>) {
    forall i | 0 <= i < |marks| :: !marks[i].PendingStep?
  }

  /** The first `k` marks are the last `k` results, in order. */
  ghost predicate Recorded(marks: seq<Progress>, results: seq<Progress>, k: int) {
    && 0 <= k <= |results| && k <= |marks|
    && forall i {:trigger marks[i]} | 0 <= i < k :: marks[i] == results[|results| - k + i]
  }

  /** The task plan of the plan being run, when node `n` is entered. */
  ghost predicate MarksOk(c: Config, n: Node, s: State) {
    match s.taskPlan
    case None => !s.planIsTaskPlan
    case Some(marks) =>
      if !s.planIsTaskPlan then Settled(marks)
      else
        && |marks| == |s.plan|
        && (n.Executor? ==> Recorded(marks, s.results, s.step))
        && (n.StepEvaluator? ==> s.results != [] && Recorded(marks, s.results[..|s.results| - 1], s.step))
        && (n.EvidenceGrader? ==> GradedMarks(c, s, marks))
        && (!n.Executor? && !n.StepEvaluator? ==> Settled(marks))
  }

  /** Executed steps carry their results; the others failed, and only because the attempts are spent. */
  ghost predicate GradedMarks(c: Config, s: State, marks: seq<Progress>) {
    && Recorded(marks, s.results, s.step)
    && (forall i {:trigger marks[i]} | s.step <= i < |marks| :: marks[i].FailedStep?)
    && (s.step < |marks| ==> s.attempts >= c.maxIterations)
  }

  ghost predicate TasksOk(c: Config, n: Node, s: State) {
    && Settled(s.results)
    && MarksOk(c, n, s)
    && (n.SimplePlan? || n.Planner? ==> s.taskPlan.None? && s.results == [])
  }

  lemma PlannerStartsTasks(c: Config, s: State, proposal: Option<seq<PlanStep>>)
    ensures var s' := PlannerNode(c, s, proposal);
            && s'.taskPlan.Some? && s'.planIsTaskPlan && |s'.taskPlan.value| == |s'.plan| && s'.step == 0
            && s'.results == s.results
  {
  }

  lemma EvaluatorSettles(c: Config, s: State)
    requires s.step < |s.plan| && TasksOk(c, StepEvaluator, s)
    ensures var s' := StepEvaluatorNode(c, s); TasksOk(c, RouteAfterStep(c, s'), s')
  {
    var s' := StepEvaluatorNode(c, s);
    if s.taskPlan.Some? && s.planIsTaskPlan {
      MarksAfterStep(c, s, s.taskPlan.value);
      if RouteAfterStep(c, s').EvidenceGrader? {
        assert Settled(s'.taskPlan.value);
      }
    }
  }

  lemma MarksAfterStep(c: Config, s: State, marks: seq<Progress>)
    requires s.step < |marks| && s.results != [] && Settled(s.results)
    requires Recorded(marks, s.results[..|s.results| - 1], s.step)
    ensures var marks' := Evaluated(c, s, marks);
            && |marks'| == |marks|
            && Recorded(marks', s.results, s.step + 1)
            && (forall i {:trigger marks'[i]} | 0 <= i <= s.step :: !marks'[i].PendingStep?)
            && (s.attempts >= c.maxIterations ==>
                 forall i {:trigger marks'[i]} | s.step < i < |marks'| :: marks'[i].FailedStep?)
  {
    var marks' := Evaluated(c, s, marks);
    var n := |s.results|;
    forall i | 0 <= i <= s.step ensures marks'[i] == s.results[n - (s.step + 1) + i] {
      if i < s.step {
        assert marks[i] == s.results[..n - 1][n - 1 - s.step + i];
      }
    }
  }

  lemma ExecutorRecords(c: Config, s: State, o: Oracle)
    requires TasksOk(c, Executor, s) && s.step < |s.plan| && s.attempts < c.maxIterations
    ensures TasksOk(c, StepEvaluator, ExecutorNode(c, s, o.tools))
  {
    var s' := Executing(c, s, s.plan[s.step], o.tools);
    assert |s'.results| == |s.results| + 1 && s'.results[..|s'.results| - 1] == s.results;
    assert s'.taskPlan == s.taskPlan && s'.planIsTaskPlan == s.planIsTaskPlan && s'.plan == s.plan && s'.step == s.step;
    assert Settled(s'.results);
  }

  /** Nodes that leave the plan and its marks alone. */
  lemma MarksKept(c: Config, n: Node, s: State, n': Node, s': State)
    requires TasksOk(c, n, s)
    requires !n.Executor? && !n.StepEvaluator? && !n.QueryAnalyzer? && !n.SimplePlan? && !n.Planner?
    requires s'.results == s.results && s'.taskPlan == s.taskPlan
    requires (s'.plan == s.plan && s'.planIsTaskPlan == s.planIsTaskPlan
              && !n'.Executor? && !n'.StepEvaluator? && !n'.EvidenceGrader?)
             || !s'.planIsTaskPlan
    requires !n'.SimplePlan? && !n'.Planner?
    ensures TasksOk(c, n', s')
  {
  }

  lemma GraderKeepsTasks(c: Config, s: State, o: Oracle)
    requires TasksOk(c, EvidenceGrader, s)
    ensures var (n', s') := Visit(c, EvidenceGrader, s, o); TasksOk(c, n', s')
  {
    var s' := GraderNode(s, o.grade);
    GraderKeepsCounters(s, o.grade);
    RouteIsCorrection(c, s');
    MarksKept(c, EvidenceGrader, s, RouteAfterGrading(c, s'), s');
  }

  lemma CorrectionKeepsTasks(c: Config, n: Node, s: State, o: Oracle)
    requires TasksOk(c, n, s) && (n.QueryRefiner? || n.ExternalFallback?)
    ensures var (n', s') := Visit(c, n, s, o); TasksOk(c, n', s')
  {
    var (n', s') := Visit(c, n, s, o);
    assert !s'.planIsTaskPlan && s'.results == s.results && s'.taskPlan == s.taskPlan;
    MarksKept(c, n, s, n', s');
  }

  lemma PlanningStartsTasks(c: Config, n: Node, s: State, o: Oracle)
    requires TasksOk(c, n, s) && (n.SimplePlan? || n.Planner? || n.Replanner?)
    ensures var (n', s') := Visit(c, n, s, o); TasksOk(c, n', s')
  {
    if !n.SimplePlan? { PlannerStartsTasks(c, s, o.proposal); }
  }

  lemma AnalysisStartsTasks(c: Config, s: State, o: Oracle)
    ensures var (n', s') := Visit(c, QueryAnalyzer, s, o); TasksOk(c, n', s')
  {
    var s' := Analyze(c, s.scope, o.analysis);
    assert s'.taskPlan.None? && !s'.planIsTaskPlan && s'.results == [];
  }

  lemma FinishingKeepsTasks(c: Config, n: Node, s: State, o: Oracle)
    requires TasksOk(c, n, s)
    requires n.Generator? || n.Verifier? || n.AnswerRevision? || n.CitationValidator?
    ensures var (n', s') := Visit(c, n, s, o); TasksOk(c, n', s')
  {
    var (n', s') := Visit(c, n, s, o);
    MarksKept(c, n, s, n', s');
  }

  lemma VisitKeepsTasks(c: Config, n: Node, s: State, o: Oracle)
    requires n != End && Bounded(c, n, s) && TasksOk(c, n, s)
    ensures var (n', s') := Visit(c, n, s, o); TasksOk(c, n', s')
  {
    match n
    case QueryAnalyzer => AnalysisStartsTasks(c, s, o);
    case SimplePlan | Planner | Replanner => PlanningStartsTasks(c, n, s, o);
    case Executor => ExecutorRecords(c, s, o);
    case StepEvaluator => EvaluatorSettles(c, s);
    case EvidenceGrader => GraderKeepsTasks(c, s, o);
    case QueryRefiner | ExternalFallback => CorrectionKeepsTasks(c, n, s, o);
    case Generator | Verifier | AnswerRevision | CitationValidator => FinishingKeepsTasks(c, n, s, o);
  }

  lemma {:induction false} RunKeepsTasks(c: Config, n: Node, s: State, oracles: seq<Oracle>)
    requires ValidConfig(c) && Bounded(c, n, s) && TasksOk(c, n, s)
    ensures var (n', s', _) := Run(c, n, s, oracles); TasksOk(c, n', s')
    decreases |oracles|
  {
    if n != End && oracles != [] {
      VisitDecreases(c, n, s, oracles[0]);
      VisitKeepsTasks(c, n, s, oracles[0]);
      var (n', s') := Visit(c, n, s, oracles[0]);
      RunKeepsTasks(c, n', s', oracles[1..]);
    }
  }

  /**
   Whenever grading starts with a task plan, its executed steps carry exactly the results
   of the executor visits, in order, and the rest are failed because no attempt was left;
   in every later node no step of the task plan is pending.
   */
  lemma TaskPlanSettled(c: Config, scope: Scope, oracles: seq<Oracle>)
    requires ValidConfig(c)
    ensures var (n, s, _) := Run(c, QueryAnalyzer, Initial(scope), oracles);
            && (n.EvidenceGrader? && s.planIsTaskPlan ==> s.taskPlan.Some? && GradedMarks(c, s, s.taskPlan.value))
            && (!n.Executor? && !n.StepEvaluator? && s.taskPlan.Some? ==> Settled(s.taskPlan.value))
  {
    RunKeepsTasks(c, QueryAnalyzer, Initial(scope), oracles);
  }
}
