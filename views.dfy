/**
 * The two request handlers and the explanation they attach to each task:
 * score every task, keep those whose scoring and explanation succeed, sort
 * them by score (highest first, stable) and return all of them (analyze) or
 * the first three (suggest). HTTP framing is replaced by a `Result`.
 */
module Views {
  import opened Wrappers
  import opened TaskModel
  import opened Scoring
  import opened Ranking

  // ---------------------------------------------------------------------
  // Explanation
  // ---------------------------------------------------------------------

  /** Rule 1: at most one tag for the due date. */
  function DueTag(days: int): seq<Reason> {
    if days < 0 then [Overdue]
    else if days == 0 then [DueToday]
    else if days <= 3 then [DueVerySoon]
    else []
  }

  /** Rule 2: at most one tag for the importance tier. */
  function ImportanceTag(importance: int): seq<Reason> {
    if importance >= 8 then [HighImportance]
    else if importance <= 3 then [LowImportance]
    else []
  }

  /** Rule 3: the quick-win tag. */
  function EffortTag(hours: real): seq<Reason> {
    if hours <= 2.0 then [QuickWin] else []
  }

  /** Rule 4: one label per non-default strategy. */
  function StrategyTag(strategy: Strategy): seq<Reason> {
    match strategy
    case FastestWins => [LowEffortPrioritized]
    case HighImpact => [ImpactPrioritized]
    case DeadlineDriven => [DeadlinePrioritized]
    case SmartBalance => []
  }

  /** The reason tags: the four rules in order, or the fallback if none fired. */
  function Reasons(days: int, importance: int, hours: real, strategy: Strategy): seq<Reason> {
    var tags := DueTag(days) + ImportanceTag(importance) + EffortTag(hours) + StrategyTag(strategy);
    if tags == [] then [BalancedPriority] else tags
  }

  /**
   * The explanation of one task. The source computes the days until the due
   * date without checking that there is one, so a missing date raises here,
   * as does a date string that does not parse.
   */
  function Explain(t: Task, strategy: string, today: int): Result<seq<Reason>, Fault> {
    match t.due
    case NoDue => Failure(MissingDueDate)
    case Unparseable => Failure(BadDateFormat)
    case OnDay(day) => Success(Reasons(day - today, t.importance, t.hours, StrategyNamed(strategy)))
  }

  /**
   * The explanation as the source builds it. A missing or unparseable due
   * date raises before any tag is built. The score is accepted and, as in
   * the source, not used.
   */
  method GenerateExplanation(t: Task, score: real, strategy: string, today: int)
    returns (r: Result<seq<Reason>, Fault>)
    ensures r == Explain(t, strategy, today)
    ensures r.Success? <==> t.due.OnDay?
  {
    if t.due.NoDue? {
      return Failure(MissingDueDate);
    }
    if t.due.Unparseable? {
      return Failure(BadDateFormat);
    }
    var days := t.due.day - today;
    var reasons := CollectReasons(days, t.importance, t.hours, strategy);
    return Success(reasons);
  }

  /** The tags of a dated task, appended rule by rule as the source does. */
  method CollectReasons(days: int, importance: int, hours: real, strategy: string)
    returns (reasons: seq<Reason>)
    ensures reasons == Reasons(days, importance, hours, StrategyNamed(strategy))
  {
    reasons := [];
    if days < 0 {
      reasons := reasons + [Overdue];
    } else if days == 0 {
      reasons := reasons + [DueToday];
    } else if days <= 3 {
      reasons := reasons + [DueVerySoon];
    }
    assert reasons == DueTag(days);
    if importance >= 8 {
      reasons := reasons + [HighImportance];
    } else if importance <= 3 {
      reasons := reasons + [LowImportance];
    }
    assert reasons == DueTag(days) + ImportanceTag(importance);
    if hours <= 2.0 {
      reasons := reasons + [QuickWin];
    }
    ghost var fired := DueTag(days) + ImportanceTag(importance) + EffortTag(hours);
    assert reasons == fired;
    ghost var named := StrategyNamed(strategy);
    if strategy == "fastest_wins" {
      assert named == FastestWins;
      reasons := reasons + [LowEffortPrioritized];
    } else if strategy == "high_impact" {
      assert named == HighImpact;
      reasons := reasons + [ImpactPrioritized];
    } else if strategy == "deadline_driven" {
      assert named == DeadlineDriven;
      reasons := reasons + [DeadlinePrioritized];
    } else {
      assert named == SmartBalance;
    }
    assert reasons == fired + StrategyTag(named);
    if reasons == [] {
      reasons := reasons + [BalancedPriority];
    }
  }

  // ---------------------------------------------------------------------
  // Scoring every task of a request
  // ---------------------------------------------------------------------

  /** One task through scoring and explanation, as the handlers' `try` block does it. */
  function Analyzed(t: Task, allTasks: seq<Task>, strategy: string, today: int): (r: Result<ScoredTask, Fault>)
    ensures r.Success? <==> t.due.OnDay?
    ensures r.Success? ==> r.value.task == t
    ensures t.due.OnDay? && !ValidImportance(t.importance) ==> r.Success? && r.value.priorityScore == 0.0
  {
    match PriorityScore(t, allTasks, strategy, today)
    case Failure(f) => Failure(f)
    case Success(score) =>
      match Explain(t, strategy, today)
      case Failure(f) => Failure(f)
      case Success(tags) => Success(ScoredTask(t, score, tags))
  }

  /** The tasks of `ts` that survive, scored against `allTasks`, in input order. */
  function ScoredTasks(ts: seq<Task>, allTasks: seq<Task>, strategy: string, today: int): seq<ScoredTask>
    decreases |ts|
  {
    if ts == [] then []
    else
      ScoredTasks(ts[..|ts| - 1], allTasks, strategy, today)
        + match Analyzed(ts[|ts| - 1], allTasks, strategy, today)
          case Success(x) => [x]
          case Failure(_) => []
  }

  /** The scoring loop shared by both handlers; failing tasks are skipped. */
  method ScoreTasks(tasks: seq<Task>, strategy: string, today: int) returns (analyzed: seq<ScoredTask>)
    ensures analyzed == ScoredTasks(tasks, tasks, strategy, today)
    ensures forall k :: 0 <= k < |analyzed| ==> analyzed[k].task in tasks && analyzed[k].task.due.OnDay?
  {
    analyzed := [];
    var i := 0;
    while i < |tasks|
      invariant 0 <= i <= |tasks|
      invariant analyzed == ScoredTasks(tasks[..i], tasks, strategy, today)
      invariant forall k :: 0 <= k < |analyzed| ==> analyzed[k].task in tasks && analyzed[k].task.due.OnDay?
    {
      assert tasks[..i + 1][..i] == tasks[..i];
      var t := tasks[i];
      var score := PriorityScore(t, tasks, strategy, today);
      if score.Success? {
        var explanation := GenerateExplanation(t, score.value, strategy, today);
        if explanation.Success? {
          analyzed := analyzed + [ScoredTask(t, score.value, explanation.value)];
        }
      }
      i := i + 1;
    }
    assert tasks[..i] == tasks;
  }

  // ---------------------------------------------------------------------
  // The handlers
  // ---------------------------------------------------------------------

  datatype RequestError = NoTasksProvided | CircularDependenciesDetected

  /** Sorts a list of scored tasks through an array, as `list.sort` does in place. */
  method SortedCopy(s: seq<ScoredTask>) returns (r: seq<ScoredTask>)
    ensures r == SortDesc(s)
    ensures SortedDesc(r) && multiset(r) == multiset(s)
    ensures forall v :: WithScore(r, v) == WithScore(s, v)
  {
    var a := new ScoredTask[|s|](k requires 0 <= k < |s| => s[k]);
    assert a[..] == s;
    SortByScore(a);
    r := a[..];
    SortDescSorted(s);
    SortDescPermutation(s);
    forall v
      ensures WithScore(r, v) == WithScore(s, v)
    {
      SortDescStable(s, v);
    }
  }

  /**
   * Analyze: reject an empty list, then a direct mutual dependency; otherwise
   * every surviving task, highest score first, ties in input order.
   */
  method AnalyzeTasks(tasks: seq<Task>, strategy: string, today: int)
    returns (r: Result<seq<ScoredTask>, RequestError>)
    ensures r == Failure(NoTasksProvided) <==> tasks == []
    ensures r == Failure(CircularDependenciesDetected) <==> tasks != [] && HasDirectCycle(tasks)
    ensures r.Success? ==> r.value == SortDesc(ScoredTasks(tasks, tasks, strategy, today))
    ensures r.Success? ==> SortedDesc(r.value)
    ensures r.Success? ==> multiset(r.value) == multiset(ScoredTasks(tasks, tasks, strategy, today))
    ensures r.Success? ==> forall v :: WithScore(r.value, v) == WithScore(ScoredTasks(tasks, tasks, strategy, today), v)
  {
    if tasks == [] {
      return Failure(NoTasksProvided);
    }
    var cyclic := DetectCircularDependencies(tasks);
    if cyclic {
      return Failure(CircularDependenciesDetected);
    }
    var analyzed := ScoreTasks(tasks, strategy, today);
    var sorted := SortedCopy(analyzed);
    return Success(sorted);
  }

  /**
   * Suggest: reject an empty list (no cycle check); otherwise the first three
   * of the sorted survivors.
   */
  method SuggestTasks(tasks: seq<Task>, strategy: string, today: int)
    returns (r: Result<seq<ScoredTask>, RequestError>)
    ensures r.Failure? <==> tasks == []
    ensures r.Failure? ==> r.error == NoTasksProvided
    ensures r.Success? ==> r.value == Take(SortDesc(ScoredTasks(tasks, tasks, strategy, today)), 3)
    ensures r.Success? ==> |r.value| <= 3 && SortedDesc(r.value)
    ensures r.Success? ==> multiset(r.value) <= multiset(ScoredTasks(tasks, tasks, strategy, today))
    ensures r.Success? ==> var ranked := SortDesc(ScoredTasks(tasks, tasks, strategy, today));
      forall i, j :: 0 <= i < |r.value| <= j < |ranked| ==> ranked[j].priorityScore <= r.value[i].priorityScore
  {
    if tasks == [] {
      return Failure(NoTasksProvided);
    }
    var analyzed := ScoreTasks(tasks, strategy, today);
    var sorted := SortedCopy(analyzed);
    var top := Take(sorted, 3);
    TakeIsHighest(sorted, 3);
    TakeSubMultiset(sorted, 3);
    return Success(top);
  }
}
