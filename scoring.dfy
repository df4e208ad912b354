/**
 * The priority engine: four scoring formulas, the guarded dispatch between
 * them, the count of tasks a task blocks, and the direct-cycle check.
 */
module Scoring {
  import opened Wrappers
  import opened TaskModel

  // ---------------------------------------------------------------------
  // The four formulas
  // ---------------------------------------------------------------------

  /** `fastest_wins`: linear effort reward, floored at 0, plus 5 per importance point. */
  function FastestWinsScore(hours: real, importance: int): (r: real)
    ensures r >= (5 * importance) as real
    ensures hours >= 0.0 ==> r <= (50 + 5 * importance) as real
    ensures hours >= 10.0 ==> r == (5 * importance) as real
  {
    var effort := if 50.0 - hours * 5.0 > 0.0 then 50.0 - hours * 5.0 else 0.0;
    effort + (importance * 5) as real
  }

  /** `high_impact`: importance alone. */
  function HighImpactScore(importance: int): (r: real)
    ensures ValidImportance(importance) ==> 10.0 <= r <= 100.0
  {
    (importance * 10) as real
  }

  /** Urgency tiers of `deadline_driven`. */
  function DeadlineUrgency(days: int): (u: int)
    ensures 0 <= u <= 100
    ensures u == 100 <==> days < 0
    ensures u == 90 <==> days == 0
  {
    if days < 0 then 100
    else if days == 0 then 90
    else if days <= 3 then 70
    else if days <= 7 then 50
    else if 40 - days > 0 then 40 - days else 0
  }

  /** `deadline_driven`: urgency plus 2 per importance point. */
  function DeadlineDrivenScore(days: int, importance: int): (r: real)
    ensures ValidImportance(importance) ==> 2.0 <= r <= 120.0
  {
    (DeadlineUrgency(days) + importance * 2) as real
  }

  /** Urgency component of `smart_balance` (0 to 40 points). */
  function SmartUrgency(days: int): (u: real)
    ensures 0.0 <= u <= 40.0
    ensures u == 40.0 <==> days < 0
  {
    if days < 0 then 40.0
    else if days == 0 then 35.0
    else if days <= 3 then 30.0
    else if days <= 7 then 20.0
    else if 15.0 - days as real * 0.5 > 0.0 then 15.0 - days as real * 0.5 else 0.0
  }

  /** Effort component of `smart_balance`: quick wins get the bonus. */
  function SmartEffort(hours: real): (e: real)
    ensures e == 15.0 || e == 10.0 || e == 5.0 || e == 2.0
    ensures e == 15.0 <==> hours <= 2.0
    ensures e == 2.0 <==> hours > 8.0
  {
    if hours <= 2.0 then 15.0
    else if hours <= 4.0 then 10.0
    else if hours <= 8.0 then 5.0
    else 2.0
  }

  /** Dependency component of `smart_balance`: 5 per blocked task, capped at 10. */
  function DependencyBonus(blocked: nat): (d: real)
    ensures 0.0 <= d <= 10.0
    ensures d == 0.0 <==> blocked == 0
    ensures d == 10.0 <==> blocked >= 2
  {
    if blocked * 5 < 10 then (blocked * 5) as real else 10.0
  }

  /**
   * `smart_balance`. The source computes the dependency part from `task_data`,
   * a name that is not bound inside that function (see module Findings); this
   * model passes the id of the task being scored, which is what was meant.
   * The source rounds the total to two decimals; every component is a
   * multiple of 0.5, so the rounding never changes it (SmartBalanceTwoDecimals).
   */
  function SmartBalanceScore(days: int, importance: int, hours: real, taskId: int, allTasks: seq<Task>): (r: real)
    ensures ValidImportance(importance) ==> 5.5 <= r <= 100.0
  {
    SmartUrgency(days) + importance as real * 3.5 + SmartEffort(hours)
      + DependencyBonus(BlockedCount(taskId, allTasks))
  }

  // ---------------------------------------------------------------------
  // Guard and dispatch
  // ---------------------------------------------------------------------

  /**
   * The score of one task under the named strategy. A missing due date or an
   * importance outside 1..10 gives 0 (scoring.py:15-17); otherwise an unparseable
   * date is the one way scoring fails.
   */
  function PriorityScore(t: Task, allTasks: seq<Task>, strategy: string, today: int): (r: Result<real, Fault>)
    ensures t.due.NoDue? || !ValidImportance(t.importance) ==> r == Success(0.0)
    ensures r.Failure? <==> t.due.Unparseable? && ValidImportance(t.importance)
    ensures r.Failure? ==> r.error == BadDateFormat
    ensures r.Success? ==> 0.0 <= r.value
    ensures r.Success? && t.hours >= 0.0 ==> r.value <= 120.0
  {
    if t.due.NoDue? || t.importance < 1 || t.importance > 10 then Success(0.0)
    else if t.due.Unparseable? then Failure(BadDateFormat)
    else
      var days := t.due.day - today;
      match StrategyNamed(strategy)
      case FastestWins => Success(FastestWinsScore(t.hours, t.importance))
      case HighImpact => Success(HighImpactScore(t.importance))
      case DeadlineDriven => Success(DeadlineDrivenScore(days, t.importance))
      case SmartBalance => Success(SmartBalanceScore(days, t.importance, t.hours, t.id, allTasks))
  }

  // ---------------------------------------------------------------------
  // Blocked tasks
  // ---------------------------------------------------------------------

  /** The number of tasks in `allTasks` whose dependency list names `id`. */
  function BlockedCount(id: int, allTasks: seq<Task>): (n: nat)
    ensures n <= |allTasks|
    decreases |allTasks|
  {
    if allTasks == [] then 0
    else BlockedCount(id, allTasks[..|allTasks| - 1]) + (if id in allTasks[|allTasks| - 1].deps then 1 else 0)
  }

  /** The counting loop of the source; an empty (or absent) list counts 0. */
  method CountBlockedTasks(t: Task, allTasks: seq<Task>) returns (blocked: nat)
    ensures blocked == BlockedCount(t.id, allTasks)
    ensures blocked <= |allTasks|
  {
    if allTasks == [] {
      return 0;
    }
    blocked := 0;
    var i := 0;
    while i < |allTasks|
      invariant 0 <= i <= |allTasks|
      invariant blocked == BlockedCount(t.id, allTasks[..i])
    {
      assert allTasks[..i + 1][..i] == allTasks[..i];
      if t.id in allTasks[i].deps {
        blocked := blocked + 1;
      }
      i := i + 1;
    }
    assert allTasks[..i] == allTasks;
  }

  // ---------------------------------------------------------------------
  // Direct circular dependencies
  // ---------------------------------------------------------------------

  /** The index of the first task with the given id, as `next(...)` finds it. */
  function FirstWithId(tasks: seq<Task>, id: int): (r: Option<nat>)
    ensures r.Some? ==> r.value < |tasks| && tasks[r.value].id == id
    ensures r.Some? ==> forall k :: 0 <= k < r.value ==> tasks[k].id != id
    ensures r.None? <==> forall k :: 0 <= k < |tasks| ==> tasks[k].id != id
  {
    if tasks == [] then None
    else if tasks[0].id == id then Some(0)
    else match FirstWithId(tasks[1..], id)
      case Some(k) => Some(k + 1)
      case None => None
  }

  /** The `k`-th dependency of task `i` resolves to a task that lists `i`'s id back. */
  predicate DependsBack(tasks: seq<Task>, i: int, k: int)
    requires 0 <= i < |tasks| && 0 <= k < |tasks[i].deps|
  {
    match FirstWithId(tasks, tasks[i].deps[k])
    case Some(j) => tasks[i].id in tasks[j].deps
    case None => false
  }

  /** What the cycle check reports: some dependency points straight back. */
  predicate HasDirectCycle(tasks: seq<Task>) {
    exists i, k :: 0 <= i < |tasks| && 0 <= k < |tasks[i].deps| && DependsBack(tasks, i, k)
  }

  /** The linear search for a task by id. */
  method FindTask(tasks: seq<Task>, id: int) returns (r: Option<nat>)
    ensures r == FirstWithId(tasks, id)
  {
    var i := 0;
    while i < |tasks|
      invariant 0 <= i <= |tasks|
      invariant forall k :: 0 <= k < i ==> tasks[k].id != id
    {
      if tasks[i].id == id {
        FirstWithIdIs(tasks, id, i);
        return Some(i);
      }
      i := i + 1;
    }
    return None;
  }

  lemma FirstWithIdIs(tasks: seq<Task>, id: int, i: nat)
    requires i < |tasks| && tasks[i].id == id
    requires forall k :: 0 <= k < i ==> tasks[k].id != id
    ensures FirstWithId(tasks, id) == Some(i)
  {
    var r := FirstWithId(tasks, id);
    assert r.Some? by {
      assert !(forall k :: 0 <= k < |tasks| ==> tasks[k].id != id);
    }
  }

  /** The nested loops of the source, returning on the first pair found. */
  method DetectCircularDependencies(tasks: seq<Task>) returns (found: bool)
    ensures found == HasDirectCycle(tasks)
  {
    var i := 0;
    while i < |tasks|
      invariant 0 <= i <= |tasks|
      invariant forall i', k :: 0 <= i' < i && 0 <= k < |tasks[i'].deps| ==> !DependsBack(tasks, i', k)
    {
      var deps := tasks[i].deps;
      var k := 0;
      while k < |deps|
        invariant 0 <= k <= |deps|
        invariant forall k' :: 0 <= k' < k ==> !DependsBack(tasks, i, k')
      {
        var dep := FindTask(tasks, deps[k]);
        if dep.Some? && tasks[i].id in tasks[dep.value].deps {
          assert DependsBack(tasks, i, k);
          return true;
        }
        k := k + 1;
      }
      i := i + 1;
    }
    return false;
  }
}
