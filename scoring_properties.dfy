/**
 * Properties of the priority engine that relate several calls or hold for
 * every input: the guard, each strategy's formula, the effort and blocking
 * comparisons, and what the cycle check does and does not detect.
 */
module ScoringProperties {
  import opened Wrappers
  import opened TaskModel
  import opened Scoring

  /** A task that can be scored: it has a date and a valid importance. */
  predicate Scorable(t: Task) {
    t.due.OnDay? && ValidImportance(t.importance)
  }

  // ---------------------------------------------------------------------
  // Guard and dispatch
  // ---------------------------------------------------------------------

  /** Missing due date or importance out of range: 0 under every strategy. */
  lemma GuardGivesZero(t: Task, allTasks: seq<Task>, today: int)
    requires t.due.NoDue? || !ValidImportance(t.importance)
    ensures forall strategy :: PriorityScore(t, allTasks, strategy, today) == Success(0.0)
  {
  }

  /** `high_impact` is exactly ten times the importance, whatever else differs. */
  lemma HighImpactIgnoresAllButImportance(t: Task, u: Task, allT: seq<Task>, allU: seq<Task>, today: int, todayU: int)
    requires Scorable(t) && Scorable(u) && t.importance == u.importance
    ensures PriorityScore(t, allT, "high_impact", today) == Success((t.importance * 10) as real)
    ensures PriorityScore(t, allT, "high_impact", today) == PriorityScore(u, allU, "high_impact", todayU)
  {
  }

  /** An unrecognised strategy name scores exactly like `smart_balance`. */
  lemma UnknownStrategyIsSmartBalance(t: Task, allTasks: seq<Task>, strategy: string, today: int)
    requires strategy != "fastest_wins" && strategy != "high_impact" && strategy != "deadline_driven"
    ensures PriorityScore(t, allTasks, strategy, today) == PriorityScore(t, allTasks, "smart_balance", today)
  {
  }

  // ---------------------------------------------------------------------
  // fastest_wins
  // ---------------------------------------------------------------------

  /**
   * `fastest_wins` at the entry point: the effort part `max(0, 50 - 5·hours)`
   * plus 5·importance, at least 5·importance, and the same for any two tasks
   * of equal hours and importance whatever their dates, ids, dependencies and
   * task lists.
   */
  lemma FastestWinsAtEntry(t: Task, u: Task, allT: seq<Task>, allU: seq<Task>, today: int, todayU: int)
    requires Scorable(t) && Scorable(u) && t.hours == u.hours && t.importance == u.importance
    ensures PriorityScore(t, allT, "fastest_wins", today).Success?
    ensures var effort := 50.0 - 5.0 * t.hours;
      PriorityScore(t, allT, "fastest_wins", today).value
        == (if effort > 0.0 then effort else 0.0) + 5.0 * t.importance as real
    ensures PriorityScore(t, allT, "fastest_wins", today).value >= 5.0 * t.importance as real
    ensures t.hours >= 10.0 ==> PriorityScore(t, allT, "fastest_wins", today).value == 5.0 * t.importance as real
    ensures PriorityScore(t, allT, "fastest_wins", today) == PriorityScore(u, allU, "fastest_wins", todayU)
  {
  }

  /** At the entry point, more hours never raise the `fastest_wins` score. */
  lemma FastestWinsAtEntryNonIncreasing(t: Task, u: Task, allT: seq<Task>, allU: seq<Task>, today: int, todayU: int)
    requires Scorable(t) && Scorable(u) && t.importance == u.importance && t.hours <= u.hours
    ensures PriorityScore(u, allU, "fastest_wins", todayU).value <= PriorityScore(t, allT, "fastest_wins", today).value
  {
    FastestWinsNonIncreasing(t.hours, u.hours, t.importance);
  }

  /** More hours never raise the `fastest_wins` score. */
  lemma FastestWinsNonIncreasing(h1: real, h2: real, importance: int)
    requires h1 <= h2
    ensures FastestWinsScore(h2, importance) <= FastestWinsScore(h1, importance)
  {
  }

  // ---------------------------------------------------------------------
  // deadline_driven
  // ---------------------------------------------------------------------

  /** Later deadlines never raise the urgency tier. */
  lemma DeadlineUrgencyNonIncreasing(d1: int, d2: int)
    requires d1 <= d2
    ensures DeadlineUrgency(d2) <= DeadlineUrgency(d1)
  {
  }

  /**
   * `deadline_driven` at the entry point: urgency tier by days until due plus
   * 2·importance, in 2..120, and the same for any two tasks with as many days
   * left and equal importance whatever their hours, ids, dependencies and
   * task lists.
   */
  lemma DeadlineDrivenAtEntry(t: Task, u: Task, allT: seq<Task>, allU: seq<Task>, today: int, todayU: int)
    requires Scorable(t) && Scorable(u) && t.importance == u.importance
    requires t.due.day - today == u.due.day - todayU
    ensures PriorityScore(t, allT, "deadline_driven", today).Success?
    ensures var days := t.due.day - today;
      var urgency := if days < 0 then 100 else if days == 0 then 90 else if days <= 3 then 70
        else if days <= 7 then 50 else if 40 - days > 0 then 40 - days else 0;
      PriorityScore(t, allT, "deadline_driven", today).value == (urgency + 2 * t.importance) as real
    ensures 2.0 <= PriorityScore(t, allT, "deadline_driven", today).value <= 120.0
    ensures PriorityScore(t, allT, "deadline_driven", today) == PriorityScore(u, allU, "deadline_driven", todayU)
  {
  }

  /** At the entry point, a later deadline never raises the `deadline_driven` score. */
  lemma DeadlineDrivenAtEntryNonIncreasing(t: Task, u: Task, allT: seq<Task>, allU: seq<Task>, today: int, todayU: int)
    requires Scorable(t) && Scorable(u) && t.importance == u.importance
    requires t.due.day - today <= u.due.day - todayU
    ensures PriorityScore(u, allU, "deadline_driven", todayU).value <= PriorityScore(t, allT, "deadline_driven", today).value
  {
    DeadlineUrgencyNonIncreasing(t.due.day - today, u.due.day - todayU);
  }

  /**
   * The documented range "0-100" is exceeded: an overdue task of importance 10
   * scores 120 under `deadline_driven`.
   */
  lemma DeadlineDrivenReaches120(t: Task, allTasks: seq<Task>, today: int)
    requires t.due.OnDay? && t.due.day < today && t.importance == 10
    ensures PriorityScore(t, allTasks, "deadline_driven", today) == Success(120.0)
  {
  }

  // ---------------------------------------------------------------------
  // smart_balance
  // ---------------------------------------------------------------------

  /**
   * `smart_balance` at the entry point: urgency, 3.5·importance, effort and
   * the bonus for the tasks that list this task's id, in 5.5..100.
   */
  lemma SmartBalanceAtEntry(t: Task, allTasks: seq<Task>, today: int)
    requires Scorable(t)
    ensures PriorityScore(t, allTasks, "smart_balance", today).Success?
    ensures PriorityScore(t, allTasks, "smart_balance", today).value
      == SmartUrgency(t.due.day - today) + 3.5 * t.importance as real + SmartEffort(t.hours)
        + DependencyBonus(BlockedCount(t.id, allTasks))
    ensures 5.5 <= PriorityScore(t, allTasks, "smart_balance", today).value <= 100.0
  {
  }

  /** Later deadlines never raise the smart-balance urgency. */
  lemma SmartUrgencyNonIncreasing(d1: int, d2: int)
    requires d1 <= d2
    ensures SmartUrgency(d2) <= SmartUrgency(d1)
  {
  }

  /** More hours never raise the effort component. */
  lemma SmartEffortNonIncreasing(h1: real, h2: real)
    requires h1 <= h2
    ensures SmartEffort(h2) <= SmartEffort(h1)
  {
  }

  /** Whole hundredths: `round(x, 2)` leaves such a value unchanged. */
  ghost predicate WholeHundredths(x: real) {
    (x * 100.0).Floor as real == x * 100.0
  }

  /** The smart-balance total already has at most two decimals. */
  lemma SmartBalanceTwoDecimals(days: int, importance: int, hours: real, taskId: int, allTasks: seq<Task>)
    ensures WholeHundredths(SmartBalanceScore(days, importance, hours, taskId, allTasks))
  {
    var u := SmartUrgency(days);
    var urgency := if days < 0 then 4000
      else if days == 0 then 3500
      else if days <= 3 then 3000
      else if days <= 7 then 2000
      else if 30 - days > 0 then 50 * (30 - days) else 0;
    assert u * 100.0 == urgency as real;
    var e := SmartEffort(hours);
    var effort := if hours <= 2.0 then 1500 else if hours <= 4.0 then 1000 else if hours <= 8.0 then 500 else 200;
    assert e * 100.0 == effort as real;
    var blocked := BlockedCount(taskId, allTasks);
    var d := DependencyBonus(blocked);
    var dependency := if blocked * 5 < 10 then 500 * blocked else 1000;
    assert d * 100.0 == dependency as real;
    var i := importance as real * 3.5;
    assert i * 100.0 == (350 * importance) as real;
    var hundredths := urgency + 350 * importance + effort + dependency;
    assert (u + i + e + d) * 100.0 == u * 100.0 + i * 100.0 + e * 100.0 + d * 100.0;
    WholeHundredthsOf(u + i + e + d, hundredths);
  }

  /** A real whose hundredfold is an integer is a whole number of hundredths. */
  lemma WholeHundredthsOf(x: real, n: int)
    requires x * 100.0 == n as real
    ensures WholeHundredths(x)
  {
  }

  /**
   * Two tasks that differ only in effort: the one of at most 2 hours outscores
   * the one of more than 8 hours under `smart_balance`.
   */
  lemma QuickWinBeatsLongTask(quick: Task, long: Task, allQ: seq<Task>, allL: seq<Task>, today: int)
    requires Scorable(quick) && quick.due == long.due && quick.importance == long.importance
    requires BlockedCount(quick.id, allQ) == BlockedCount(long.id, allL)
    requires quick.hours <= 2.0 && long.hours > 8.0
    ensures PriorityScore(quick, allQ, "smart_balance", today).value
          > PriorityScore(long, allL, "smart_balance", today).value
  {
  }

  /**
   * Blocking more tasks never lowers the smart-balance score, and blocking
   * strictly more when the other blocks fewer than two raises it.
   */
  lemma BlockingRaisesScore(a: Task, b: Task, allTasks: seq<Task>, today: int)
    requires Scorable(a) && a.due == b.due && a.importance == b.importance && a.hours == b.hours
    requires BlockedCount(a.id, allTasks) >= BlockedCount(b.id, allTasks)
    ensures PriorityScore(a, allTasks, "smart_balance", today).value
         >= PriorityScore(b, allTasks, "smart_balance", today).value
    ensures BlockedCount(a.id, allTasks) > BlockedCount(b.id, allTasks) && BlockedCount(b.id, allTasks) < 2 ==>
      PriorityScore(a, allTasks, "smart_balance", today).value
        > PriorityScore(b, allTasks, "smart_balance", today).value
  {
  }

  /** An overdue task of importance 7 and 3 hours scores at least 74.5. */
  lemma OverdueScoresHigh(t: Task, allTasks: seq<Task>, today: int)
    requires t.due.OnDay? && t.due.day < today && t.importance == 7 && t.hours == 3.0
    ensures PriorityScore(t, allTasks, "smart_balance", today).value >= 74.5
    ensures PriorityScore(t, allTasks, "smart_balance", today).value > 70.0
  {
  }

  // ---------------------------------------------------------------------
  // Blocked tasks
  // ---------------------------------------------------------------------

  /** The count is zero exactly when no task names the id among its dependencies. */
  lemma {:induction false} BlockedCountZeroIff(id: int, allTasks: seq<Task>)
    ensures BlockedCount(id, allTasks) == 0 <==> forall k :: 0 <= k < |allTasks| ==> id !in allTasks[k].deps
    decreases |allTasks|
  {
    if allTasks != [] {
      var init := allTasks[..|allTasks| - 1];
      BlockedCountZeroIff(id, init);
      assert forall k :: 0 <= k < |init| ==> init[k] == allTasks[k];
    }
  }

  /**
   * The count equals the list length exactly when every task names the id.
   */
  lemma {:induction false} BlockedCountFullIff(id: int, allTasks: seq<Task>)
    ensures BlockedCount(id, allTasks) == |allTasks| <==> forall k :: 0 <= k < |allTasks| ==> id in allTasks[k].deps
    decreases |allTasks|
  {
    if allTasks != [] {
      var init := allTasks[..|allTasks| - 1];
      BlockedCountFullIff(id, init);
      assert forall k :: 0 <= k < |init| ==> init[k] == allTasks[k];
    }
  }

  /** The blocking scenario of the test suite: task 1 blocks task 2, due in 7 days. */
  lemma BlockingTaskOutscoresDependent(today: int)
    ensures var blocking := Task(1, OnDay(today + 7), 3.0, 5, []);
            var dependent := Task(2, OnDay(today + 7), 3.0, 5, [1]);
            var all := [blocking, dependent];
            PriorityScore(blocking, all, "smart_balance", today).value
              > PriorityScore(dependent, all, "smart_balance", today).value
  {
    var blocking := Task(1, OnDay(today + 7), 3.0, 5, []);
    var dependent := Task(2, OnDay(today + 7), 3.0, 5, [1]);
    var all := [blocking, dependent];
    assert all[..1] == [blocking];
    assert BlockedCount(1, all) == 1;
    assert BlockedCount(2, all) == 0;
  }

  // ---------------------------------------------------------------------
  // Direct circular dependencies
  // ---------------------------------------------------------------------

  predicate UniqueIds(tasks: seq<Task>) {
    forall a, b :: 0 <= a < b < |tasks| ==> tasks[a].id != tasks[b].id
  }

  predicate MutuallyDependent(tasks: seq<Task>, a: int, b: int)
    requires 0 <= a < |tasks| && 0 <= b < |tasks|
  {
    tasks[b].id in tasks[a].deps && tasks[a].id in tasks[b].deps
  }

  /**
   * With unique ids, the check reports a cycle exactly when two tasks (possibly
   * one task with itself) each list the other as a dependency.
   */
  lemma DirectCycleIffMutualPair(tasks: seq<Task>)
    requires UniqueIds(tasks)
    ensures HasDirectCycle(tasks) <==>
      exists a, b :: 0 <= a < |tasks| && 0 <= b < |tasks| && MutuallyDependent(tasks, a, b)
  {
    if HasDirectCycle(tasks) {
      var i, k :| 0 <= i < |tasks| && 0 <= k < |tasks[i].deps| && DependsBack(tasks, i, k);
      var j := FirstWithId(tasks, tasks[i].deps[k]).value;
      assert MutuallyDependent(tasks, i, j);
    }
    if exists a, b :: 0 <= a < |tasks| && 0 <= b < |tasks| && MutuallyDependent(tasks, a, b) {
      var a, b :| 0 <= a < |tasks| && 0 <= b < |tasks| && MutuallyDependent(tasks, a, b);
      var k :| 0 <= k < |tasks[a].deps| && tasks[a].deps[k] == tasks[b].id;
      FirstWithIdIs(tasks, tasks[b].id, b);
      assert DependsBack(tasks, a, k);
    }
  }

  /** A task that lists its own (unique) id is reported as a cycle. */
  lemma SelfDependencyDetected(tasks: seq<Task>, i: int)
    requires UniqueIds(tasks) && 0 <= i < |tasks| && tasks[i].id in tasks[i].deps
    ensures HasDirectCycle(tasks)
  {
    DirectCycleIffMutualPair(tasks);
    assert MutuallyDependent(tasks, i, i);
  }

  /** A dependency on an id that names no task never counts. */
  lemma DanglingDependencyIgnored(tasks: seq<Task>, i: int, k: int)
    requires 0 <= i < |tasks| && 0 <= k < |tasks[i].deps|
    requires forall j :: 0 <= j < |tasks| ==> tasks[j].id != tasks[i].deps[k]
    ensures !DependsBack(tasks, i, k)
  {
  }

  /** The test suite's mutual pair is detected. */
  lemma MutualPairExample()
    ensures HasDirectCycle([Task(1, OnDay(0), 2.0, 5, [2]), Task(2, OnDay(0), 2.0, 5, [1])])
  {
    var tasks := [Task(1, OnDay(0), 2.0, 5, [2]), Task(2, OnDay(0), 2.0, 5, [1])];
    assert FirstWithId(tasks, 2) == Some(1);
    assert DependsBack(tasks, 0, 0);
  }

  /** The test suite's one-way dependency is not a cycle. */
  lemma OneWayExample()
    ensures !HasDirectCycle([Task(1, OnDay(0), 2.0, 5, []), Task(2, OnDay(0), 2.0, 5, [1])])
  {
    var tasks := [Task(1, OnDay(0), 2.0, 5, []), Task(2, OnDay(0), 2.0, 5, [1])];
    assert FirstWithId(tasks, 1) == Some(0);
  }

  /** A three-task cycle 1 -> 2 -> 3 -> 1 is not detected: only direct pairs are. */
  lemma ThreeCycleNotDetected()
    ensures !HasDirectCycle([Task(1, OnDay(0), 1.0, 5, [2]), Task(2, OnDay(0), 1.0, 5, [3]), Task(3, OnDay(0), 1.0, 5, [1])])
  {
    var tasks := [Task(1, OnDay(0), 1.0, 5, [2]), Task(2, OnDay(0), 1.0, 5, [3]), Task(3, OnDay(0), 1.0, 5, [1])];
    assert FirstWithId(tasks, 2) == Some(1);
    assert FirstWithId(tasks, 3) == Some(2);
    assert FirstWithId(tasks, 1) == Some(0);
  }

  /**
   * With repeated ids a mutual pair can go unreported: each lookup finds an
   * earlier task with the same id that lists nothing.
   */
  lemma RepeatedIdsHideMutualPair()
    ensures var tasks := [Task(1, OnDay(0), 1.0, 5, []), Task(2, OnDay(0), 1.0, 5, []),
                          Task(1, OnDay(0), 1.0, 5, [2]), Task(2, OnDay(0), 1.0, 5, [1])];
            MutuallyDependent(tasks, 2, 3) && !HasDirectCycle(tasks)
  {
    var tasks := [Task(1, OnDay(0), 1.0, 5, []), Task(2, OnDay(0), 1.0, 5, []),
                  Task(1, OnDay(0), 1.0, 5, [2]), Task(2, OnDay(0), 1.0, 5, [1])];
    assert FirstWithId(tasks, 1) == Some(0);
    assert FirstWithId(tasks, 2) == Some(1);
  }
}
