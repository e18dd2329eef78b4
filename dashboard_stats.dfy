/** The dashboard statistics route: status counts over the caller's task rows
    and three rates guarded against an empty list. */
module DashboardStats {
  import opened Common
  import opened Tasks

  datatype Stats = Stats(
    totalTasks: nat,
    completedTasks: nat,
    inProgressTasks: nat,
    todoTasks: nat,
    completionRate: real,
    productivityRate: real,
    projectProgress: real)

  /** What the route computes from the fetched rows. */
  function DashboardStats(tasks: seq<TaskRow>): Stats
  {
    var totalTasks := |tasks|;
    var completedTasks := CountStatus(tasks, COMPLETED);
    var inProgressTasks := CountStatus(tasks, IN_PROGRESS);
    var todoTasks := CountStatus(tasks, TODO);
    var completionRate := if totalTasks > 0 then (completedTasks as real / totalTasks as real) * 100.0 else 0.0;
    var productivityRate :=
      if totalTasks > 0 then ((completedTasks + inProgressTasks) as real / totalTasks as real) * 100.0 else 0.0;
    var projectProgress := if totalTasks > 0 then (completedTasks as real / totalTasks as real) * 100.0 else 0.0;
    Stats(totalTasks, completedTasks, inProgressTasks, todoTasks, completionRate, productivityRate, projectProgress)
  }

  /** The total is the number of rows; each status count is a count of rows
      with that status and at most the total; the three counts add up to the
      total exactly when every row has a known status. */
  lemma CountsAgainstTotal(tasks: seq<TaskRow>)
    ensures var s := DashboardStats(tasks);
      && s.totalTasks == |tasks|
      && s.completedTasks == CountIf(tasks, HasStatus(COMPLETED))
      && s.inProgressTasks == CountIf(tasks, HasStatus(IN_PROGRESS))
      && s.todoTasks == CountIf(tasks, HasStatus(TODO))
      && s.completedTasks + s.inProgressTasks + s.todoTasks <= s.totalTasks
      && (KnownStatuses(tasks) <==> s.completedTasks + s.inProgressTasks + s.todoTasks == s.totalTasks)
  {
    StatusCountsPartition(tasks);
    if !KnownStatuses(tasks) {
      UnknownStatusIsUncounted(tasks);
    }
  }

  /** A row with none of the three statuses makes the counts fall short of the total. */
  lemma {:induction false} UnknownStatusIsUncounted(tasks: seq<TaskRow>)
    requires !KnownStatuses(tasks)
    ensures CountStatus(tasks, TODO) + CountStatus(tasks, IN_PROGRESS) + CountStatus(tasks, COMPLETED) < |tasks|
  {
    var init := tasks[..|tasks| - 1];
    var last := tasks[|tasks| - 1];
    StatusCountsPartition(init);
    if KnownStatuses(init) {
      assert last.status !in {TODO, IN_PROGRESS, COMPLETED} by {
        var i :| 0 <= i < |tasks| && tasks[i].status !in {TODO, IN_PROGRESS, COMPLETED};
      }
    } else {
      UnknownStatusIsUncounted(init);
    }
  }

  /** Without rows every rate is 0. */
  lemma NoTasksNoRates()
    ensures var s := DashboardStats([]);
      s.completionRate == 0.0 && s.productivityRate == 0.0 && s.projectProgress == 0.0
  {
  }

  /** The completion rate is the completed share in percent, in [0, 100]. */
  lemma CompletionRateRange(tasks: seq<TaskRow>)
    ensures var s := DashboardStats(tasks);
      && (|tasks| > 0 ==> s.completionRate * |tasks| as real == s.completedTasks as real * 100.0)
      && 0.0 <= s.completionRate <= 100.0
  {
    var s := DashboardStats(tasks);
    StatusCountsPartition(tasks);
    if |tasks| > 0 {
      PercentOf(s.completedTasks, |tasks|);
    }
  }

  /** The productivity rate counts in-progress rows as well as completed ones,
      so it lies between the completion rate and 100. */
  lemma ProductivityRateRange(tasks: seq<TaskRow>)
    ensures var s := DashboardStats(tasks);
      && (|tasks| > 0 ==>
            s.productivityRate * |tasks| as real == (s.completedTasks + s.inProgressTasks) as real * 100.0)
      && s.completionRate <= s.productivityRate <= 100.0
  {
    var s := DashboardStats(tasks);
    StatusCountsPartition(tasks);
    if |tasks| > 0 {
      PercentOf(s.completedTasks, |tasks|);
      PercentOf(s.completedTasks + s.inProgressTasks, |tasks|);
      PercentMonotone(s.completedTasks, s.completedTasks + s.inProgressTasks, |tasks|);
    }
  }

  /** Project progress is computed by the same expression as the completion rate. */
  lemma ProjectProgressIsCompletionRate(tasks: seq<TaskRow>)
    ensures DashboardStats(tasks).projectProgress == DashboardStats(tasks).completionRate
  {
  }

  /** Every figure is unchanged when the rows come in another order. */
  lemma StatsOrderIndependent(a: seq<TaskRow>, b: seq<TaskRow>)
    requires multiset(a) == multiset(b)
    ensures DashboardStats(a) == DashboardStats(b)
  {
    assert |a| == |multiset(a)| == |multiset(b)| == |b|;
    CountStatusPermutation(a, b, COMPLETED);
    CountStatusPermutation(a, b, IN_PROGRESS);
    CountStatusPermutation(a, b, TODO);
  }

  lemma PercentMonotone(a: nat, b: nat, total: nat)
    requires 0 < total && a <= b
    ensures (a as real / total as real) * 100.0 <= (b as real / total as real) * 100.0
  {
  }
}
