# Task priority engine — a Dafny model

This project models the task-priority engine of a small task-analyzer web
service and proves properties of it. A request carries a list of tasks (id,
due date, estimated hours, importance 1–10, ids of the tasks it depends on)
and a strategy name; the engine scores every task under that strategy,
attaches a score and a list of reason tags to it, and returns the tasks
sorted by score, highest first — all of them (`analyze`) or the first three
(`suggest`). `analyze` first rejects a request in which two tasks depend on
each other directly.

Files and modules:

- `wrappers.dfy` — `Option` and `Result`, standing in for the exceptions of the source.
- `task_model.dfy` — `TaskModel`: the task record, the due date as the boundary sees it (`NoDue`, `Unparseable`, `OnDay(day)`), strategies and their names, the reason tags and their texts, the scored task, the reasons a task is skipped.
- `scoring.dfy` — `Scoring`: the four formulas, the guarded dispatch, the count of blocked tasks (a loop, proved against `BlockedCount`) and the direct-cycle check (nested loops with a linear search, proved against `HasDirectCycle`).
- `scoring_properties.dfy` — `ScoringProperties`: lemmas about the formulas and the cycle check.
- `ranking.dfy` — `Ranking`: the stable descending order. `SortDesc` is a functional insertion sort used as the reference; `SortByScore` sorts an array in place and is proved to produce it; lemmas prove the reference sorted, a permutation, and stable.
- `views.dfy` — `Views`: the explanation (tags appended one rule at a time, proved against `Reasons`), the per-task `try` block, the scoring loop, and the two handlers.
- `views_properties.dfy` — `ViewsProperties`: lemmas about the tags and about which tasks the handlers return.
- `findings.dfy` — `Findings`: the smart-balance scoring as the source writes it (see Findings).

"Today" is a parameter: every due date is a day number and the days until
due are `day - today`. Scores are exact `real`s.

Three behaviours of the code worth noting, which the model follows:

- A task without a due date scores 0 at the guard (scoring.py:15-17). Neither handler returns it, though: the explanation subtracts `today` from the missing date without a check (views.py:92-93), which raises, and the handlers skip a task that raises (views.py:38-40). The model drops the task (`Views.Explain`, `ViewsProperties.SurvivorsAreDatedTasks`).
- A due date string that does not parse makes `strptime` raise (scoring.py:22), after the guard. When the importance is out of range, the guard returns 0 first, but the explanation's own `strptime` (views.py:88-90) raises instead. Either way a task with a bad date is dropped, whatever its importance.
- The docstring at scoring.py:6 says scores lie between 0 and 100. `deadline_driven` reaches 120 (`ScoringProperties.DeadlineDrivenReaches120`), and `fastest_wins` has no upper bound for negative hours.

## Model

| member | source | states |
|---|---|---|
| `TaskModel.StrategyNamed` | backend/tasks/scoring.py:28-35 | each of the three names selects its strategy, and every other name (including none) selects smart balance |
| `Scoring.FastestWinsScore` | backend/tasks/scoring.py:38-43 | the score is at least 5·importance, at most 50 + 5·importance for non-negative hours, and exactly 5·importance from 10 hours on |
| `Scoring.HighImpactScore` | backend/tasks/scoring.py:46-48 | a valid importance gives a score between 10 and 100 |
| `Scoring.DeadlineUrgency` | backend/tasks/scoring.py:53-62 | urgency lies in 0..100, is 100 exactly when overdue and 90 exactly when due today |
| `Scoring.DeadlineDrivenScore` | backend/tasks/scoring.py:51-65 | a valid importance gives a score in 2..120 |
| `Scoring.SmartUrgency` | backend/tasks/scoring.py:71-81 | urgency lies in 0..40 and is 40 exactly when overdue |
| `Scoring.SmartEffort` | backend/tasks/scoring.py:86-94 | effort is one of 15, 10, 5, 2; 15 exactly for at most 2 hours, 2 exactly above 8 hours |
| `Scoring.DependencyBonus` | backend/tasks/scoring.py:96-98 | the bonus lies in 0..10, is 0 exactly when nothing is blocked and reaches the cap of 10 exactly from two blocked tasks |
| `Scoring.SmartBalanceScore` | backend/tasks/scoring.py:68-101 | a valid importance gives a total in 5.5..100 |
| `Scoring.PriorityScore` | backend/tasks/scoring.py:3-35 | a missing due date or importance outside 1..10 gives 0; scoring fails exactly for an unparseable date with valid importance; every score is non-negative and, for non-negative hours, at most 120 |
| `Scoring.BlockedCount` | backend/tasks/scoring.py:104-116 | the number of tasks naming the id is at most the number of tasks |
| `Scoring.CountBlockedTasks` | backend/tasks/scoring.py:104-116 | the counting loop returns exactly `BlockedCount`, 0 for an empty list |
| `Scoring.FirstWithId` | backend/tasks/scoring.py:128 | the result is the index of the first task with that id, or none exactly when no task has it |
| `Scoring.FindTask` | backend/tasks/scoring.py:128 | the linear search returns exactly `FirstWithId` |
| `Scoring.DetectCircularDependencies` | backend/tasks/scoring.py:119-134 | the nested loops return true exactly when some dependency resolves (first task with that id) to a task listing the depending task's id back |
| `ScoringProperties.GuardGivesZero` | backend/tasks/scoring.py:15-17 | a missing due date or out-of-range importance scores 0 under every strategy name, whatever the other tasks and the date |
| `ScoringProperties.HighImpactIgnoresAllButImportance` | backend/tasks/scoring.py:30-31 | under `high_impact` a dated task with valid importance scores exactly 10·importance, independent of hours, date, dependencies and other tasks |
| `ScoringProperties.UnknownStrategyIsSmartBalance` | backend/tasks/scoring.py:34-35 | an unrecognised strategy name scores exactly as `smart_balance` |
| `ScoringProperties.FastestWinsAtEntry` | backend/tasks/scoring.py:28-29 | under `fastest_wins` a scorable task scores max(0, 50 − 5·hours) + 5·importance: at least 5·importance, exactly that from 10 hours on, and independent of date, id, dependencies and task list |
| `ScoringProperties.FastestWinsAtEntryNonIncreasing` | backend/tasks/scoring.py:28-29 | of two scorable tasks of equal importance under `fastest_wins`, the one with more hours never scores higher |
| `ScoringProperties.FastestWinsNonIncreasing` | backend/tasks/scoring.py:41 | more hours never raise the `fastest_wins` score |
| `ScoringProperties.DeadlineUrgencyNonIncreasing` | backend/tasks/scoring.py:53-62 | later due dates never raise the deadline urgency |
| `ScoringProperties.DeadlineDrivenAtEntry` | backend/tasks/scoring.py:32-33 | under `deadline_driven` a scorable task scores its urgency tier (100, 90, 70, 50, max(0, 40 − days)) plus 2·importance, within 2..120, independent of hours, id, dependencies and task list |
| `ScoringProperties.DeadlineDrivenAtEntryNonIncreasing` | backend/tasks/scoring.py:32-33 | of two scorable tasks of equal importance under `deadline_driven`, the one with more days left never scores higher |
| `ScoringProperties.DeadlineDrivenReaches120` | backend/tasks/scoring.py:6 | an overdue task of importance 10 scores 120 under `deadline_driven`, above the documented 0-100 |
| `ScoringProperties.SmartBalanceAtEntry` | backend/tasks/scoring.py:34-35 | under `smart_balance` a scorable task scores urgency + 3.5·importance + effort + the bonus for the tasks listing its id, within 5.5..100 |
| `ScoringProperties.SmartUrgencyNonIncreasing` | backend/tasks/scoring.py:71-81 | later due dates never raise the smart-balance urgency |
| `ScoringProperties.SmartEffortNonIncreasing` | backend/tasks/scoring.py:87-94 | more hours never raise the effort component |
| `ScoringProperties.SmartBalanceTwoDecimals` | backend/tasks/scoring.py:100-101 | the smart-balance total is a whole number of hundredths, so rounding to two decimals leaves it unchanged |
| `ScoringProperties.QuickWinBeatsLongTask` | backend/tasks/tests.py:29-53 | of two tasks differing only in effort, the one of at most 2 hours outscores the one above 8 hours under `smart_balance` |
| `ScoringProperties.BlockingRaisesScore` | backend/tasks/scoring.py:96-98 | blocking at least as many tasks never lowers the smart-balance score; blocking strictly more, when the other blocks fewer than two, raises it |
| `ScoringProperties.OverdueScoresHigh` | backend/tasks/tests.py:12-26 | an overdue task of importance 7 and 3 hours scores at least 74.5, so above 70 |
| `ScoringProperties.BlockedCountZeroIff` | backend/tasks/scoring.py:112-116 | the count is 0 exactly when no task lists the id |
| `ScoringProperties.BlockedCountFullIff` | backend/tasks/scoring.py:112-116 | the count equals the number of tasks exactly when every task lists the id |
| `ScoringProperties.BlockingTaskOutscoresDependent` | backend/tasks/tests.py:56-82 | of the test's two tasks due in 7 days, the one the other depends on scores higher |
| `ScoringProperties.DirectCycleIffMutualPair` | backend/tasks/scoring.py:119-134 | with unique ids, a cycle is reported exactly when two tasks (or one with itself) each list the other |
| `ScoringProperties.SelfDependencyDetected` | backend/tasks/scoring.py:126-132 | with unique ids, a task listing its own id is reported |
| `ScoringProperties.DanglingDependencyIgnored` | backend/tasks/scoring.py:128-129 | a dependency on an id no task has never counts |
| `ScoringProperties.MutualPairExample` | backend/tasks/tests.py:85-107 | tasks 1→2 and 2→1 are reported |
| `ScoringProperties.OneWayExample` | backend/tasks/tests.py:110-132 | a single one-way dependency is not reported |
| `ScoringProperties.ThreeCycleNotDetected` | backend/tasks/scoring.py:121 | the cycle 1→2→3→1 is not reported: only direct pairs are checked |
| `ScoringProperties.RepeatedIdsHideMutualPair` | backend/tasks/scoring.py:128 | when ids repeat, a mutual pair can go unreported because the lookup finds the first task with the id |
| `Ranking.Take` | backend/tasks/views.py:75 | the slice has min(n, length) elements and is a prefix |
| `Ranking.SortDescSorted` | backend/tasks/views.py:43 | the sorted list is non-increasing by score |
| `Ranking.SortDescPermutation` | backend/tasks/views.py:43 | the sorted list is a permutation of its input |
| `Ranking.SortDescStable` | backend/tasks/views.py:43 | for every score, the tasks with that score appear in input order |
| `Ranking.TakeIsHighest` | backend/tasks/views.py:74-75 | the first n of a sorted list are sorted and score at least as high as every task after them |
| `Ranking.TakeSubMultiset` | backend/tasks/views.py:75 | the first n tasks are drawn from the list: a sub-multiset of it |
| `Ranking.SortByScore` | backend/tasks/views.py:43 | the in-place sort leaves the array holding `SortDesc` of its old contents |
| `Views.GenerateExplanation` | backend/tasks/views.py:80-123 | the appended tags are exactly `Explain`; the explanation fails exactly for a missing or unparseable due date |
| `Views.CollectReasons` | backend/tasks/views.py:96-121 | the appends leave exactly `Reasons` of the days until due, importance, hours and named strategy |
| `Views.Analyzed` | backend/tasks/views.py:33-40 | a task is kept exactly when it has a parseable due date; the kept record is the input task; a dated task with out-of-range importance is kept with score 0 |
| `Views.ScoreTasks` | backend/tasks/views.py:31-40 | the loop returns exactly `ScoredTasks`; every kept record is an input task with a due date |
| `Views.SortedCopy` | backend/tasks/views.py:43 | the result is `SortDesc` of the input: sorted, a permutation, stable |
| `Views.AnalyzeTasks` | backend/tasks/views.py:9-45 | an empty list gives "No tasks provided"; otherwise a direct cycle gives "Circular dependencies detected"; otherwise the survivors sorted non-increasing by score, a permutation of the survivors, equal scores in input order |
| `Views.SuggestTasks` | backend/tasks/views.py:48-77 | only an empty list is rejected (no cycle check); otherwise the first min(3, n) of the sorted survivors, each scoring at least as high as every survivor left out |
| `ViewsProperties.LabelsDistinct` | backend/tasks/views.py:98-121 | distinct tags have distinct texts |
| `ViewsProperties.RuleTagsAreSingle` | backend/tasks/views.py:98-118 | each of the four rules adds at most one tag, of its own kind |
| `ViewsProperties.ConcatInRuleOrder` | backend/tasks/views.py:96-118 | appending tags of later rules to tags of earlier rules keeps the rule order |
| `ViewsProperties.FiredInRuleOrder` | backend/tasks/views.py:96-118 | the rules' tags come in the order due date, importance, effort, strategy; at most four; never the fallback |
| `ViewsProperties.ReasonsShape` | backend/tasks/views.py:96-121 | there are 1 to 4 tags in rule order; "Balanced priority" appears exactly when no rule fired, and then alone |
| `ViewsProperties.ReasonsByRule` | backend/tasks/views.py:98-118 | a tag is in the explanation exactly when its own rule produced it |
| `ViewsProperties.DueTagsExact` | backend/tasks/views.py:98-103 | "OVERDUE" iff overdue, "Due today" iff due today, "Due very soon" iff 1 to 3 days; no due tag beyond 3 days |
| `ViewsProperties.ImportanceTagsExact` | backend/tasks/views.py:105-108 | "High importance" iff importance ≥ 8, "Low importance" iff importance ≤ 3 |
| `ViewsProperties.QuickWinTagExact` | backend/tasks/views.py:110-111 | "Quick win" iff at most 2 hours |
| `ViewsProperties.StrategyTagsExact` | backend/tasks/views.py:113-118 | each non-default strategy adds exactly its label; no strategy tag exactly under smart balance |
| `ViewsProperties.SurvivorsAreDatedTasks` | backend/tasks/views.py:32-40 | the records the scoring loop keeps are exactly the input tasks having a due date, in input order |
| `ViewsProperties.ScoredTasksMembers` | backend/tasks/views.py:34-37 | a scored task is returned exactly when it is some input task with its own score and explanation attached |
| `ViewsProperties.InvalidImportanceKeptAtZero` | backend/tasks/views.py:34-37 | a dated task with out-of-range importance is returned with score 0 |
| `ViewsProperties.UndatedTaskDropped` | backend/tasks/views.py:36-40 | every returned task has a due date |
| `Findings.PriorityScoreAsWritten` | backend/tasks/scoring.py:97 | as written, scoring raises exactly for a dated, valid task under smart balance, and agrees with the corrected scoring under the other strategies |
| `Findings.AnalyzedAsWritten` | backend/tasks/views.py:33-40 | the record kept as written is the input task |
| `Findings.AsWrittenDropsScorableTasks` | backend/tasks/scoring.py:97 | as written the handlers drop every scorable task under smart balance, which the corrected model keeps |
| `Findings.OverdueTestRaisesAsWritten` | backend/tasks/tests.py:12-26 | the test's overdue task raises as written; the corrected score is 74.5 |

## Left out

- HTTP plumbing (`@api_view`, `request.data`, `Response`, status codes): the handlers take the task list and strategy name and return a `Result`. A request without a strategy is one whose caller passes `"smart_balance"`.
- Date parsing and the clock (`strptime`, `date.today()`): a due date arrives as `NoDue`, `Unparseable` or a day number, and "today" is a parameter.
- Missing dictionary keys: the source defaults a missing importance to 5, hours to 0 and dependencies to the empty list. The model's record always has these fields, so the defaults are applied before it. `title` is not kept. Malformed field types (non-numeric hours, a non-list of dependencies) are not modelled.
- `all_tasks=None`: treated as the empty list, which gives the same count.
- IEEE floating point and `round`: scores are exact reals. `SmartBalanceTwoDecimals` shows that rounding is the identity on the smart-balance total.
- Joining the tags into one string with the (mojibake) bullet separator: the explanation is kept as the list of tags, and `Label` gives each tag's exact text.
- Attaching `priority_score` and `priority_explanation` to the caller's dictionaries in place: the model builds a new `ScoredTask` value. Two effects are therefore not captured: a dictionary whose explanation raised keeps a stray `priority_score`, and each returned task is the same object as the input one.
- Python's sort algorithm: only its result is modelled (a stable sort, descending by score). The model reaches it by insertion sort.
- The ORM model, the serializer, static-file serving and the browser front end are not part of this model; they hold no engine logic.

## Findings

| source | as written | input that shows it | evidently intended | confidence | as-written member | corrected member |
|---|---|---|---|---|---|---|
| backend/tasks/scoring.py:97 | `count_blocked_tasks(task_data, all_tasks)` inside `calculate_smart_balance`, where `task_data` is unbound, so the call raises NameError and the handlers skip the task | the test's overdue task (due 2 days ago, 3 hours, importance 7) under `smart_balance` | count the tasks blocked by the task being scored, giving 74.5 for that task | not executed | `Findings.AsWrittenDropsScorableTasks` | `ScoringProperties.OverdueScoresHigh` |
