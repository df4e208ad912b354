/**
 * The smart-balance formula as the source writes it. Its dependency part
 * calls `count_blocked_tasks(task_data, all_tasks)`, but `task_data` is not a
 * parameter, local or global of `calculate_smart_balance`, so every call that
 * reaches that line raises NameError. The handlers then skip the task. The
 * rest of the model uses `Scoring.PriorityScore`, which passes the scored
 * task's id, as the test suite expects.
 */
module Findings {
  import opened Wrappers
  import opened TaskModel
  import opened Scoring
  import opened Views
  import opened ScoringProperties

  /** `calculate_priority_score` as written: the smart-balance path raises. */
  function PriorityScoreAsWritten(t: Task, allTasks: seq<Task>, strategy: string, today: int): (r: Result<real, Fault>)
    ensures StrategyNamed(strategy) != SmartBalance ==> r == PriorityScore(t, allTasks, strategy, today)
    ensures r.Failure? && r.error == UndefinedName <==> Scorable(t) && StrategyNamed(strategy) == SmartBalance
  {
    if t.due.NoDue? || t.importance < 1 || t.importance > 10 then Success(0.0)
    else if t.due.Unparseable? then Failure(BadDateFormat)
    else if StrategyNamed(strategy) == SmartBalance then Failure(UndefinedName)
    else PriorityScore(t, allTasks, strategy, today)
  }

  /** One task through the handlers' `try` block, with the as-written scoring. */
  function AnalyzedAsWritten(t: Task, allTasks: seq<Task>, strategy: string, today: int): (r: Result<ScoredTask, Fault>)
    ensures r.Success? ==> r.value.task == t
  {
    match PriorityScoreAsWritten(t, allTasks, strategy, today)
    case Failure(f) => Failure(f)
    case Success(score) =>
      match Explain(t, strategy, today)
      case Failure(f) => Failure(f)
      case Success(tags) => Success(ScoredTask(t, score, tags))
  }

  /**
   * Every task that can be scored is dropped under `smart_balance` as written,
   * while the corrected scoring keeps it; only the strategies other than the
   * default agree.
   */
  lemma AsWrittenDropsScorableTasks(t: Task, allTasks: seq<Task>, strategy: string, today: int)
    requires Scorable(t)
    ensures StrategyNamed(strategy) == SmartBalance ==>
      AnalyzedAsWritten(t, allTasks, strategy, today) == Failure(UndefinedName)
        && Analyzed(t, allTasks, strategy, today).Success?
    ensures StrategyNamed(strategy) != SmartBalance ==>
      AnalyzedAsWritten(t, allTasks, strategy, today) == Analyzed(t, allTasks, strategy, today)
  {
  }

  /**
   * The overdue task of the test suite (due two days ago, 3 hours,
   * importance 7) raises as written, whereas the corrected score is 74.5.
   */
  lemma OverdueTestRaisesAsWritten(today: int)
    ensures var t := Task(1, OnDay(today - 2), 3.0, 7, []);
      && PriorityScoreAsWritten(t, [t], "smart_balance", today) == Failure(UndefinedName)
      && PriorityScore(t, [t], "smart_balance", today) == Success(74.5)
  {
    var t := Task(1, OnDay(today - 2), 3.0, 7, []);
    assert [t][..0] == [];
    assert BlockedCount(1, [t]) == 0;
  }
}
