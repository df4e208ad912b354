/**
 * The task record shared by the scoring engine and the request handlers.
 * Dates are day numbers; "today" is always passed in explicitly.
 */
module TaskModel {

  /** What the boundary found in a task's `due_date` field. */
  datatype Due =
    | NoDue              // absent, null or empty: falsy for the guard
    | Unparseable        // a string that is not a `YYYY-MM-DD` date
    | OnDay(day: int)    // a calendar date, as a day number

  /** A submitted task; `title` plays no part in scoring and is not kept. */
  datatype Task = Task(id: int, due: Due, hours: real, importance: int, deps: seq<int>)

  /** The reason tags an explanation is made of; `Label` gives each one's text. */
  datatype Reason =
    | Overdue | DueToday | DueVerySoon
    | HighImportance | LowImportance
    | QuickWin
    | LowEffortPrioritized | ImpactPrioritized | DeadlinePrioritized
    | BalancedPriority

  function Label(r: Reason): string {
    match r
    case Overdue => "OVERDUE"
    case DueToday => "Due today"
    case DueVerySoon => "Due very soon"
    case HighImportance => "High importance"
    case LowImportance => "Low importance"
    case QuickWin => "Quick win"
    case LowEffortPrioritized => "Low effort prioritized"
    case ImpactPrioritized => "Impact prioritized"
    case DeadlinePrioritized => "Deadline prioritized"
    case BalancedPriority => "Balanced priority"
  }

  /** A task with the two derived fields the handlers attach to it. */
  datatype ScoredTask = ScoredTask(task: Task, priorityScore: real, priorityExplanation: seq<Reason>)

  /** Why a task is skipped: each stands for an exception the source raises. */
  datatype Fault =
    | BadDateFormat      // `strptime` rejects the date string
    | MissingDueDate     // date arithmetic on a missing due date
    | UndefinedName      // the unbound `task_data` in the smart-balance formula

  datatype Strategy = SmartBalance | FastestWins | HighImpact | DeadlineDriven

  /** Strategy selection by name; every unrecognised name means smart balance. */
  function StrategyNamed(name: string): (s: Strategy)
    ensures s == FastestWins <==> name == "fastest_wins"
    ensures s == HighImpact <==> name == "high_impact"
    ensures s == DeadlineDriven <==> name == "deadline_driven"
  {
    if name == "fastest_wins" then FastestWins
    else if name == "high_impact" then HighImpact
    else if name == "deadline_driven" then DeadlineDriven
    else SmartBalance
  }

  predicate ValidImportance(importance: int) {
    1 <= importance <= 10
  }
}
