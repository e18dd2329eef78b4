/** The board detail dialog: its local task list, the add-task form and its
    open flag, the analytics panel computed from the list, and the colour of a
    progress bar. */
module BoardDetail {
  import opened Common
  import opened Text

  datatype Status = Todo | InProgress | Review | Done

  datatype Priority = Low | Medium | High

  /** `progress` is a percentage; the dialog only ever stores whole numbers. */
  datatype BoardTask = BoardTask(
    id: string,
    title: string,
    description: string,
    status: Status,
    assignee: string,
    dueDate: string,
    priority: Priority,
    progress: int)

  /** The add-task form (`newTask`). */
  datatype TaskForm = TaskForm(
    title: string,
    description: string,
    status: Status,
    assignee: string,
    dueDate: string,
    priority: Priority,
    progress: int)

  const EMPTY_FORM := TaskForm("", "", Todo, "", "", Medium, 0)

  const SEED_TASKS: seq<BoardTask> := [
    BoardTask("1", "Design Homepage", "Create a modern and responsive homepage design",
              InProgress, "John Doe", "2024-04-01", High, 75),
    BoardTask("2", "Implement Authentication", "Set up user authentication system",
              Todo, "Jane Smith", "2024-04-05", High, 0),
    BoardTask("3", "Database Schema", "Design and implement database schema",
              Review, "Mike Johnson", "2024-04-03", Medium, 90)
  ]

  /** What a submitted form becomes: every form field is copied, then the
      status is forced to `todo` and the progress to 0. */
  function TaskFromForm(id: string, form: TaskForm): BoardTask
  {
    BoardTask(id, form.title, form.description, Todo, form.assignee, form.dueDate, form.priority, 0)
  }

  class BoardDetailModal {
    var tasks: seq<BoardTask>
    var newTask: TaskForm
    var isAddingTask: bool

    constructor ()
      ensures tasks == SEED_TASKS && newTask == EMPTY_FORM && !isAddingTask
      ensures Valid()
    {
      tasks := SEED_TASKS;
      newTask := EMPTY_FORM;
      isAddingTask := false;
    }

    /** The list is never empty: it starts with three tasks and only grows. */
    predicate Valid()
      reads this
    {
      |tasks| > 0
    }

    /** `handleAddTask`. `nowId` is the id drawn from the clock. */
    method HandleAddTask(nowId: string)
      modifies this
      ensures AllWhitespace(old(newTask.title)) ==> unchanged(this)
      ensures !AllWhitespace(old(newTask.title)) ==>
                && tasks == old(tasks) + [TaskFromForm(nowId, old(newTask))]
                && newTask == EMPTY_FORM
                && !isAddingTask
      ensures old(Valid()) ==> Valid()
    {
      TrimEmptyIffBlank(newTask.title);
      if Trim(newTask.title) == "" {
        return;
      }
      var task := TaskFromForm(nowId, newTask);
      tasks := tasks + [task];
      newTask := EMPTY_FORM;
      isAddingTask := false;
    }

    /** The analytics panel for the current list. */
    function Analytics(): (a: BoardAnalytics)
      requires Valid()
      reads this
      ensures a.totalTasks == |tasks|
      ensures a.completedTasks + a.inProgressTasks <= a.totalTasks
    {
      AnalyticsCounts(tasks);
      CalculateAnalytics(tasks)
    }
  }

  /** The method's effect on the list, as a value: exactly one task is added,
      at the end, and the earlier tasks keep their places. */
  lemma AddTaskKeepsEarlierTasks(tasks: seq<BoardTask>, id: string, form: TaskForm)
    ensures var r := tasks + [TaskFromForm(id, form)];
      && |r| == |tasks| + 1
      && r[..|tasks|] == tasks
      && r[|tasks|].status == Todo && r[|tasks|].progress == 0
      && r[|tasks|].title == form.title && r[|tasks|].priority == form.priority
  {
  }

  function IsDone(): BoardTask -> bool { (t: BoardTask) => t.status == Done }
  function IsInProgress(): BoardTask -> bool { (t: BoardTask) => t.status == InProgress }
  function IsDoneOrInProgress(): BoardTask -> bool { (t: BoardTask) => t.status == Done || t.status == InProgress }
  function IsHighPriority(): BoardTask -> bool { (t: BoardTask) => t.priority == High }

  function Progresses(tasks: seq<BoardTask>): (r: seq<int>)
    ensures |r| == |tasks|
    ensures forall i :: 0 <= i < |tasks| ==> r[i] == tasks[i].progress
  {
    seq(|tasks|, i requires 0 <= i < |tasks| => tasks[i].progress)
  }

  datatype BoardAnalytics = BoardAnalytics(
    totalTasks: nat,
    completedTasks: nat,
    inProgressTasks: nat,
    highPriorityTasks: nat,
    averageProgress: real,
    completionRate: real)

  /** `calculateAnalytics`; both divisions are by the number of tasks, unguarded. */
  function CalculateAnalytics(tasks: seq<BoardTask>): BoardAnalytics
    requires |tasks| > 0
  {
    var totalTasks := |tasks|;
    var completedTasks := CountIf(tasks, IsDone());
    var inProgressTasks := CountIf(tasks, IsInProgress());
    var highPriorityTasks := CountIf(tasks, IsHighPriority());
    var averageProgress := Sum(Progresses(tasks)) as real / totalTasks as real;
    BoardAnalytics(totalTasks, completedTasks, inProgressTasks, highPriorityTasks, averageProgress,
                   (completedTasks as real / totalTasks as real) * 100.0)
  }

  /** Only `done` counts as completed and only `in-progress` as in progress,
      so `review` and `todo` tasks are in neither count and the two counts
      together never exceed the total. */
  lemma AnalyticsCounts(tasks: seq<BoardTask>)
    requires |tasks| > 0
    ensures var a := CalculateAnalytics(tasks);
      && a.totalTasks == |tasks|
      && a.completedTasks + a.inProgressTasks == CountIf(tasks, IsDoneOrInProgress())
      && a.completedTasks + a.inProgressTasks <= a.totalTasks
      && a.highPriorityTasks <= a.totalTasks
  {
    CountIfDisjoint(tasks, IsDone(), IsInProgress(), IsDoneOrInProgress());
    CountIfBound(tasks, IsDoneOrInProgress());
    CountIfBound(tasks, IsHighPriority());
  }

  /** Adding a `review` or `todo` task changes neither the completed nor the
      in-progress count; it only lowers the completion rate's share. */
  lemma ReviewAndTodoAreUncounted(tasks: seq<BoardTask>, t: BoardTask)
    requires |tasks| > 0
    requires t.status == Review || t.status == Todo
    ensures CalculateAnalytics(tasks + [t]).completedTasks == CalculateAnalytics(tasks).completedTasks
    ensures CalculateAnalytics(tasks + [t]).inProgressTasks == CalculateAnalytics(tasks).inProgressTasks
    ensures CalculateAnalytics(tasks + [t]).totalTasks == |tasks| + 1
  {
    assert (tasks + [t])[..|tasks + [t]| - 1] == tasks;
  }

  /** The completion rate is the share of `done` tasks in percent, in [0, 100]. */
  lemma CompletionRateRange(tasks: seq<BoardTask>)
    requires |tasks| > 0
    ensures var a := CalculateAnalytics(tasks);
      && a.completionRate * |tasks| as real == a.completedTasks as real * 100.0
      && 0.0 <= a.completionRate <= 100.0
  {
    CountIfBound(tasks, IsDone());
    PercentOf(CountIf(tasks, IsDone()), |tasks|);
  }

  /** The average progress is the progress sum over the total, and lies in
      [0, 100] when every task's progress does. */
  lemma AverageProgressRange(tasks: seq<BoardTask>)
    requires |tasks| > 0
    ensures CalculateAnalytics(tasks).averageProgress * |tasks| as real == Sum(Progresses(tasks)) as real
    ensures (forall i :: 0 <= i < |tasks| ==> 0 <= tasks[i].progress <= 100) ==>
              0.0 <= CalculateAnalytics(tasks).averageProgress <= 100.0
  {
    var s := Sum(Progresses(tasks)) as real;
    var n := |tasks| as real;
    if forall i :: 0 <= i < |tasks| ==> 0 <= tasks[i].progress <= 100 {
      SumBounds(Progresses(tasks), 0, 100);
      DivBounds(s, n, 0.0, 100.0);
    } else {
      assert (s / n) * n == s;
    }
  }

  /** The panel as shown for the seed list: three tasks, none done, one in
      progress, two high priority, average progress 55. */
  lemma SeedAnalytics()
    ensures CalculateAnalytics(SEED_TASKS) == BoardAnalytics(3, 0, 1, 2, 55.0, 0.0)
  {
    SumOfThree(75, 0, 90);
    assert Progresses(SEED_TASKS) == [75, 0, 90];
    var one, two := SEED_TASKS[..1], SEED_TASKS[..2];
    assert two[..1] == one && SEED_TASKS[..2] == two && one[..0] == [];
    assert one == [SEED_TASKS[0]] && SEED_TASKS[0].status == InProgress && SEED_TASKS[0].priority == High;
    assert IsInProgress()(one[0]) && IsHighPriority()(one[0]) && !IsDone()(one[0]);
    assert CountIf(one, IsDone()) == 0;
    assert CountIf(one, IsInProgress()) == 1;
    assert CountIf(one, IsHighPriority()) == 1;
    assert CountIf(two, IsDone()) == 0 && CountIf(two, IsInProgress()) == 1 && CountIf(two, IsHighPriority()) == 2;
  }

  datatype ProgressColor = Green | Blue | Yellow

  /** `getProgressColor`: thresholds at 80 and 50. */
  function GetProgressColor(progress: int): ProgressColor
  {
    if progress >= 80 then Green
    else if progress >= 50 then Blue
    else Yellow
  }

  /** Each colour covers exactly one band of progress values. */
  lemma ProgressColorBands(progress: int)
    ensures GetProgressColor(progress) == Green <==> progress >= 80
    ensures GetProgressColor(progress) == Blue <==> 50 <= progress < 80
    ensures GetProgressColor(progress) == Yellow <==> progress < 50
  {
  }

  /** More progress never gives a colour of a lower band. */
  lemma ProgressColorMonotone(p: int, q: int)
    requires p <= q
    ensures GetProgressColor(p) == Green ==> GetProgressColor(q) == Green
    ensures GetProgressColor(q) == Yellow ==> GetProgressColor(p) == Yellow
  {
  }
}
