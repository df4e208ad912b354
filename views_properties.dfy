/**
 * Properties of the explanation tags and of the set of tasks the handlers
 * return.
 */
module ViewsProperties {
  import opened Wrappers
  import opened TaskModel
  import opened Scoring
  import opened Ranking
  import opened Views

  // ---------------------------------------------------------------------
  // Explanation
  // ---------------------------------------------------------------------

  /** Which rule a tag comes from: due date, importance, effort, strategy, fallback. */
  function TagRule(tag: Reason): nat {
    match tag
    case Overdue | DueToday | DueVerySoon => 0
    case HighImportance | LowImportance => 1
    case QuickWin => 2
    case LowEffortPrioritized | ImpactPrioritized | DeadlinePrioritized => 3
    case BalancedPriority => 4
  }

  /** Distinct tags have distinct texts, so the texts identify the rules that fired. */
  lemma LabelsDistinct(a: Reason, b: Reason)
    requires a != b
    ensures Label(a) != Label(b)
  {
    if |Label(a)| == |Label(b)| {
      assert Label(a)[0] != Label(b)[0];
    }
  }

  /** None of the four rules produces a tag. */
  predicate NoRuleFires(days: int, importance: int, hours: real, strategy: Strategy) {
    days > 3 && 3 < importance < 8 && hours > 2.0 && strategy == SmartBalance
  }

  /** The tags the four rules produce, before the fallback. */
  function Fired(days: int, importance: int, hours: real, strategy: Strategy): seq<Reason> {
    DueTag(days) + ImportanceTag(importance) + EffortTag(hours) + StrategyTag(strategy)
  }

  predicate InRuleOrder(f: seq<Reason>) {
    forall i, j :: 0 <= i < j < |f| ==> TagRule(f[i]) < TagRule(f[j])
  }

  lemma ConcatInRuleOrder(a: seq<Reason>, b: seq<Reason>, bound: nat)
    requires InRuleOrder(a) && InRuleOrder(b)
    requires forall x :: x in a ==> TagRule(x) < bound
    requires forall y :: y in b ==> bound <= TagRule(y)
    ensures InRuleOrder(a + b)
  {
    var ab := a + b;
    forall i, j | 0 <= i < j < |ab|
      ensures TagRule(ab[i]) < TagRule(ab[j])
    {
      if j < |a| {
        assert ab[i] == a[i] && ab[j] == a[j];
      } else if i >= |a| {
        assert ab[i] == b[i - |a|] && ab[j] == b[j - |a|];
      } else {
        assert ab[i] == a[i] && ab[j] == b[j - |a|];
        assert a[i] in a && b[j - |a|] in b;
      }
    }
  }

  /** Each rule contributes at most one tag, of its own rule. */
  predicate OneOfRule(f: seq<Reason>, rule: nat) {
    |f| <= 1 && forall x :: x in f ==> TagRule(x) == rule
  }

  lemma RuleTagsAreSingle(days: int, importance: int, hours: real, strategy: Strategy)
    ensures OneOfRule(DueTag(days), 0) && OneOfRule(ImportanceTag(importance), 1)
    ensures OneOfRule(EffortTag(hours), 2) && OneOfRule(StrategyTag(strategy), 3)
  {
  }

  /**
   * The rules' tags appear in the fixed order due date, importance, effort,
   * strategy, each rule adding at most one, so there are at most four.
   */
  lemma FiredInRuleOrder(days: int, importance: int, hours: real, strategy: Strategy)
    ensures var f := Fired(days, importance, hours, strategy);
      && |f| <= 4 && InRuleOrder(f) && BalancedPriority !in f
  {
    RuleTagsAreSingle(days, importance, hours, strategy);
    var d, m, e, s := DueTag(days), ImportanceTag(importance), EffortTag(hours), StrategyTag(strategy);
    ConcatInRuleOrder(d, m, 1);
    ConcatInRuleOrder(d + m, e, 2);
    ConcatInRuleOrder(d + m + e, s, 3);
  }

  /**
   * There is always at least one tag and at most four, in rule order, and the
   * fallback appears exactly when no rule fired, and then alone.
   */
  lemma ReasonsShape(days: int, importance: int, hours: real, strategy: Strategy)
    ensures var r := Reasons(days, importance, hours, strategy);
      && 1 <= |r| <= 4
      && InRuleOrder(r)
      && ((BalancedPriority in r) <==> NoRuleFires(days, importance, hours, strategy))
      && (NoRuleFires(days, importance, hours, strategy) ==> r == [BalancedPriority])
  {
    FiredInRuleOrder(days, importance, hours, strategy);
    assert (Fired(days, importance, hours, strategy) == []) <==> NoRuleFires(days, importance, hours, strategy);
  }

  /** A tag of a given rule is in the explanation exactly when that rule produced it. */
  lemma ReasonsByRule(days: int, importance: int, hours: real, strategy: Strategy, x: Reason)
    ensures var r := Reasons(days, importance, hours, strategy);
      && (TagRule(x) == 0 ==> (x in r <==> x in DueTag(days)))
      && (TagRule(x) == 1 ==> (x in r <==> x in ImportanceTag(importance)))
      && (TagRule(x) == 2 ==> (x in r <==> x in EffortTag(hours)))
      && (TagRule(x) == 3 ==> (x in r <==> x in StrategyTag(strategy)))
  {
    RuleTagsAreSingle(days, importance, hours, strategy);
  }

  /** The due-date tags are exact; more than three days away gives none. */
  lemma DueTagsExact(days: int, importance: int, hours: real, strategy: Strategy)
    ensures var r := Reasons(days, importance, hours, strategy);
      && ((Overdue in r) <==> days < 0)
      && ((DueToday in r) <==> days == 0)
      && ((DueVerySoon in r) <==> 1 <= days <= 3)
      && (days > 3 ==> forall i :: 0 <= i < |r| ==> TagRule(r[i]) != 0)
  {
    var r := Reasons(days, importance, hours, strategy);
    ReasonsByRule(days, importance, hours, strategy, Overdue);
    ReasonsByRule(days, importance, hours, strategy, DueToday);
    ReasonsByRule(days, importance, hours, strategy, DueVerySoon);
    if days > 3 {
      forall i | 0 <= i < |r|
        ensures TagRule(r[i]) != 0
      {
        ReasonsByRule(days, importance, hours, strategy, r[i]);
      }
    }
  }

  /** Importance 8 and above is "High", 3 and below is "Low", 4 to 7 gives no tag. */
  lemma ImportanceTagsExact(days: int, importance: int, hours: real, strategy: Strategy)
    ensures var r := Reasons(days, importance, hours, strategy);
      && ((HighImportance in r) <==> importance >= 8)
      && ((LowImportance in r) <==> importance <= 3)
  {
    ReasonsByRule(days, importance, hours, strategy, HighImportance);
    ReasonsByRule(days, importance, hours, strategy, LowImportance);
  }

  /** "Quick win" appears exactly for at most two hours. */
  lemma QuickWinTagExact(days: int, importance: int, hours: real, strategy: Strategy)
    ensures (QuickWin in Reasons(days, importance, hours, strategy)) <==> hours <= 2.0
  {
    ReasonsByRule(days, importance, hours, strategy, QuickWin);
  }

  /**
   * Each non-default strategy adds exactly its label; `smart_balance` (which
   * every unrecognised name selects) adds no strategy tag.
   */
  lemma StrategyTagsExact(days: int, importance: int, hours: real, strategy: Strategy)
    ensures var r := Reasons(days, importance, hours, strategy);
      && ((LowEffortPrioritized in r) <==> strategy == FastestWins)
      && ((ImpactPrioritized in r) <==> strategy == HighImpact)
      && ((DeadlinePrioritized in r) <==> strategy == DeadlineDriven)
      && ((forall i :: 0 <= i < |r| ==> TagRule(r[i]) != 3) <==> strategy == SmartBalance)
  {
    var r := Reasons(days, importance, hours, strategy);
    ReasonsByRule(days, importance, hours, strategy, LowEffortPrioritized);
    ReasonsByRule(days, importance, hours, strategy, ImpactPrioritized);
    ReasonsByRule(days, importance, hours, strategy, DeadlinePrioritized);
    if strategy == SmartBalance {
      forall i | 0 <= i < |r|
        ensures TagRule(r[i]) != 3
      {
        ReasonsByRule(days, importance, hours, strategy, r[i]);
      }
    } else {
      var tag := StrategyTag(strategy)[0];
      ReasonsByRule(days, importance, hours, strategy, tag);
      var i :| 0 <= i < |r| && r[i] == tag;
    }
  }

  // ---------------------------------------------------------------------
  // Which tasks the handlers return
  // ---------------------------------------------------------------------

  /** The tasks of `ts` that have a due date, in input order. */
  function Dated(ts: seq<Task>): seq<Task>
    decreases |ts|
  {
    if ts == [] then []
    else Dated(ts[..|ts| - 1]) + (if ts[|ts| - 1].due.OnDay? then [ts[|ts| - 1]] else [])
  }

  /** The input records underneath a list of scored tasks. */
  function TasksOf(s: seq<ScoredTask>): (r: seq<Task>)
    ensures |r| == |s|
    decreases |s|
  {
    if s == [] then [] else TasksOf(s[..|s| - 1]) + [s[|s| - 1].task]
  }

  /**
   * The survivors are exactly the dated tasks, in input order and unchanged:
   * a missing or unparseable due date drops a task, nothing else does.
   */
  lemma {:induction false} SurvivorsAreDatedTasks(ts: seq<Task>, allTasks: seq<Task>, strategy: string, today: int)
    ensures TasksOf(ScoredTasks(ts, allTasks, strategy, today)) == Dated(ts)
    decreases |ts|
  {
    if ts != [] {
      var init := ts[..|ts| - 1];
      var prefix := ScoredTasks(init, allTasks, strategy, today);
      SurvivorsAreDatedTasks(init, allTasks, strategy, today);
      var a := Analyzed(ts[|ts| - 1], allTasks, strategy, today);
      if a.Success? {
        assert (prefix + [a.value])[..|prefix|] == prefix;
      } else {
        assert prefix + [] == prefix;
      }
    }
  }

  /**
   * A scored task is returned exactly when it is the scoring and explanation of
   * some input task: the input record itself, its score and its tags.
   */
  lemma {:induction false} ScoredTasksMembers(ts: seq<Task>, allTasks: seq<Task>, strategy: string, today: int, x: ScoredTask)
    ensures x in ScoredTasks(ts, allTasks, strategy, today) <==>
      exists i :: 0 <= i < |ts| && Analyzed(ts[i], allTasks, strategy, today) == Success(x)
    ensures x in ScoredTasks(ts, allTasks, strategy, today) ==>
      x.task in ts && PriorityScore(x.task, allTasks, strategy, today) == Success(x.priorityScore)
        && Explain(x.task, strategy, today) == Success(x.priorityExplanation)
    decreases |ts|
  {
    if ts != [] {
      var init := ts[..|ts| - 1];
      ScoredTasksMembers(init, allTasks, strategy, today, x);
      if exists i :: 0 <= i < |ts| && Analyzed(ts[i], allTasks, strategy, today) == Success(x) {
        var i :| 0 <= i < |ts| && Analyzed(ts[i], allTasks, strategy, today) == Success(x);
        if i < |init| {
          assert init[i] == ts[i];
        }
      }
      if exists i :: 0 <= i < |init| && Analyzed(init[i], allTasks, strategy, today) == Success(x) {
        var i :| 0 <= i < |init| && Analyzed(init[i], allTasks, strategy, today) == Success(x);
        assert ts[i] == init[i];
      }
    }
  }

  /**
   * A dated task with out-of-range importance is kept, with score 0; a task
   * without a due date is never kept, whatever its importance.
   */
  lemma InvalidImportanceKeptAtZero(ts: seq<Task>, strategy: string, today: int, i: int)
    requires 0 <= i < |ts| && ts[i].due.OnDay? && !ValidImportance(ts[i].importance)
    ensures exists x :: x in ScoredTasks(ts, ts, strategy, today) && x.task == ts[i] && x.priorityScore == 0.0
  {
    var x := Analyzed(ts[i], ts, strategy, today).value;
    ScoredTasksMembers(ts, ts, strategy, today, x);
  }

  lemma UndatedTaskDropped(ts: seq<Task>, strategy: string, today: int, x: ScoredTask)
    requires x in ScoredTasks(ts, ts, strategy, today)
    ensures x.task.due.OnDay?
  {
    ScoredTasksMembers(ts, ts, strategy, today, x);
  }
}
