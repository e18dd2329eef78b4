/** The analytics route: a 6-slot histogram of task creation by 30-day
    "month", a 7-slot histogram by day, the status distribution and the three
    key metrics. The instant the route reads with `new Date()` is the explicit
    parameter `asOf`; the counts the route asks the database for are inputs. */
module Analytics {
  import opened Common
  import opened Tasks

  const MS_PER_DAY: int := 1000 * 60 * 60 * 24
  const MS_PER_30_DAYS: int := MS_PER_DAY * 30
  const MONTH_SLOTS: nat := 6
  const DAY_SLOTS: nat := 7

  /** A chart series: one label per slot and one value per slot. */
  datatype Series<T> = Series(labels: seq<string>, data: seq<T>)

  /** The slot a task created at `createdAt` falls in: the newest slot is
      `slots - 1`, and each `width` milliseconds of age moves one slot back.
      Dafny's `/` floors for a positive divisor, like `Math.floor` of the quotient. */
  function BucketIndex(createdAt: int, asOf: int, slots: nat, width: int): int
    requires width > 0
  {
    (slots - 1) - (asOf - createdAt) / width
  }

  function InBucket(asOf: int, slots: nat, width: int, k: int): TaskRow -> bool
    requires width > 0
  {
    (t: TaskRow) => BucketIndex(t.createdAt, asOf, slots, width) == k
  }

  function BucketBelow(asOf: int, slots: nat, width: int, n: int): TaskRow -> bool
    requires width > 0
  {
    (t: TaskRow) => 0 <= BucketIndex(t.createdAt, asOf, slots, width) < n
  }

  /** The tasks the histogram counts: those whose slot index is in range. */
  function InWindow(asOf: int, slots: nat, width: int): TaskRow -> bool
    requires width > 0
  {
    BucketBelow(asOf, slots, width, slots)
  }

  /** Slot `k` of the histogram: the number of tasks whose slot is `k`. */
  function Histogram(tasks: seq<TaskRow>, asOf: int, slots: nat, width: int): seq<nat>
    requires width > 0
  {
    seq(slots, k => CountIf(tasks, InBucket(asOf, slots, width, k)))
  }

  /** The loop shared by `processMonthlyStats` and `processWeeklyStats`:
      `Array(slots).fill(0)` and one `data[index]++` per task whose index is in range. */
  method Tally(tasks: seq<TaskRow>, asOf: int, slots: nat, width: int) returns (data: seq<nat>)
    requires width > 0
    ensures data == Histogram(tasks, asOf, slots, width)
  {
    var counts := new nat[slots](_ => 0);
    for i := 0 to |tasks|
      invariant forall k :: 0 <= k < slots ==> counts[k] == CountIf(tasks[..i], InBucket(asOf, slots, width, k))
    {
      assert tasks[..i + 1][..i] == tasks[..i];
      var index := BucketIndex(tasks[i].createdAt, asOf, slots, width);
      if 0 <= index < slots {
        counts[index] := counts[index] + 1;
      }
    }
    assert tasks[..|tasks|] == tasks;
    data := counts[..];
  }

  /** `processMonthlyStats`. `monthName(i)` is the short name of the month `i`
      months before `asOf`; the labels run oldest first and end with the month of `asOf`. */
  method ProcessMonthlyStats(tasks: seq<TaskRow>, asOf: int, monthName: nat -> string)
    returns (stats: Series<nat>)
    ensures |stats.labels| == MONTH_SLOTS && |stats.data| == MONTH_SLOTS
    ensures forall k :: 0 <= k < MONTH_SLOTS ==> stats.labels[k] == monthName(MONTH_SLOTS - 1 - k)
    ensures stats.data == Histogram(tasks, asOf, MONTH_SLOTS, MS_PER_30_DAYS)
  {
    var labels := seq(MONTH_SLOTS, k requires 0 <= k < MONTH_SLOTS => monthName(MONTH_SLOTS - 1 - k));
    var data := Tally(tasks, asOf, MONTH_SLOTS, MS_PER_30_DAYS);
    stats := Series(labels, data);
  }

  /** `processWeeklyStats`. `dayName(i)` is the short weekday name of the day
      `i` days before `asOf`; the labels end with the weekday of `asOf`. */
  method ProcessWeeklyStats(tasks: seq<TaskRow>, asOf: int, dayName: nat -> string)
    returns (stats: Series<nat>)
    ensures |stats.labels| == DAY_SLOTS && |stats.data| == DAY_SLOTS
    ensures forall k :: 0 <= k < DAY_SLOTS ==> stats.labels[k] == dayName(DAY_SLOTS - 1 - k)
    ensures stats.data == Histogram(tasks, asOf, DAY_SLOTS, MS_PER_DAY)
  {
    var labels := seq(DAY_SLOTS, k requires 0 <= k < DAY_SLOTS => dayName(DAY_SLOTS - 1 - k));
    var data := Tally(tasks, asOf, DAY_SLOTS, MS_PER_DAY);
    stats := Series(labels, data);
  }

  /** A task is counted exactly when its age is in [0, slots * width): a task
      created in the future, or `slots * width` milliseconds ago or earlier,
      falls outside every slot. */
  lemma BucketInRangeIffAge(createdAt: int, asOf: int, slots: nat, width: int)
    requires width > 0
    ensures 0 <= BucketIndex(createdAt, asOf, slots, width) < slots
        <==> 0 <= asOf - createdAt < slots * width
  {
    var age := asOf - createdAt;
    var q := age / width;
    assert age == q * width + age % width && 0 <= age % width < width;
    if 0 <= q < slots {
      MulMonotone(0, q, width);
      MulMonotone(q + 1, slots, width);
      assert (q + 1) * width == q * width + width;
    } else if q < 0 {
      MulMonotone(q, -1, width);
    } else {
      MulMonotone(slots, q, width);
    }
  }

  lemma MulMonotone(a: int, b: int, w: int)
    requires a <= b && w > 0
    ensures a * w <= b * w
  {
  }

  /** The monthly histogram counts a task exactly when it is less than 180
      days old and not created after `asOf`. */
  lemma MonthlyWindow(createdAt: int, asOf: int)
    ensures 0 <= BucketIndex(createdAt, asOf, MONTH_SLOTS, MS_PER_30_DAYS) < MONTH_SLOTS
        <==> asOf - 180 * MS_PER_DAY < createdAt <= asOf
  {
    BucketInRangeIffAge(createdAt, asOf, MONTH_SLOTS, MS_PER_30_DAYS);
  }

  /** The daily histogram counts a task exactly when it is less than 7 days
      old and not created after `asOf`. */
  lemma WeeklyWindow(createdAt: int, asOf: int)
    ensures 0 <= BucketIndex(createdAt, asOf, DAY_SLOTS, MS_PER_DAY) < DAY_SLOTS
        <==> asOf - 7 * MS_PER_DAY < createdAt <= asOf
  {
    BucketInRangeIffAge(createdAt, asOf, DAY_SLOTS, MS_PER_DAY);
  }

  /** A task created at `asOf` lands in the newest slot of both histograms. */
  lemma CreatedNowLandsLast(asOf: int)
    ensures BucketIndex(asOf, asOf, MONTH_SLOTS, MS_PER_30_DAYS) == MONTH_SLOTS - 1
    ensures BucketIndex(asOf, asOf, DAY_SLOTS, MS_PER_DAY) == DAY_SLOTS - 1
  {
  }

  /** Adding one task to the input raises the slot it falls in by one and no
      other slot; a task outside the window changes nothing. */
  lemma HistogramAddTask(tasks: seq<TaskRow>, t: TaskRow, asOf: int, slots: nat, width: int)
    requires width > 0
    ensures var k := BucketIndex(t.createdAt, asOf, slots, width);
      Histogram(tasks + [t], asOf, slots, width)
        == if 0 <= k < slots then Histogram(tasks, asOf, slots, width)[k := Histogram(tasks, asOf, slots, width)[k] + 1]
           else Histogram(tasks, asOf, slots, width)
  {
    var after, before := Histogram(tasks + [t], asOf, slots, width), Histogram(tasks, asOf, slots, width);
    assert (tasks + [t])[..|tasks|] == tasks;
    forall j | 0 <= j < slots
      ensures after[j] == before[j] + (if BucketIndex(t.createdAt, asOf, slots, width) == j then 1 else 0)
    {
    }
  }

  lemma {:induction false} HistogramPrefixSum(tasks: seq<TaskRow>, asOf: int, slots: nat, width: int, n: nat)
    requires width > 0
    requires n <= slots
    ensures Sum(Histogram(tasks, asOf, slots, width)[..n]) == CountIf(tasks, BucketBelow(asOf, slots, width, n))
  {
    var h := Histogram(tasks, asOf, slots, width);
    if n == 0 {
      CountIfNone(tasks, BucketBelow(asOf, slots, width, 0));
    } else {
      HistogramPrefixSum(tasks, asOf, slots, width, n - 1);
      assert h[..n][..n - 1] == h[..n - 1];
      CountIfDisjoint(tasks, BucketBelow(asOf, slots, width, n - 1), InBucket(asOf, slots, width, n - 1),
                      BucketBelow(asOf, slots, width, n));
    }
  }

  lemma {:induction false} CountIfNone(tasks: seq<TaskRow>, p: TaskRow -> bool)
    requires forall t :: !p(t)
    ensures CountIf(tasks, p) == 0
  {
    if tasks != [] {
      CountIfNone(tasks[..|tasks| - 1], p);
    }
  }

  /** Each task adds to at most one slot: the slots add up to the number of
      tasks in the window, which is at most the number of tasks, and equals it
      when every task is in the window. */
  lemma HistogramTotal(tasks: seq<TaskRow>, asOf: int, slots: nat, width: int)
    requires width > 0
    ensures Sum(Histogram(tasks, asOf, slots, width)) == CountIf(tasks, InWindow(asOf, slots, width))
    ensures Sum(Histogram(tasks, asOf, slots, width)) <= |tasks|
    ensures (forall i :: 0 <= i < |tasks| ==> 0 <= asOf - tasks[i].createdAt < slots * width)
        ==> Sum(Histogram(tasks, asOf, slots, width)) == |tasks|
  {
    var h := Histogram(tasks, asOf, slots, width);
    HistogramPrefixSum(tasks, asOf, slots, width, slots);
    assert h[..slots] == h;
    CountIfBound(tasks, InWindow(asOf, slots, width));
    if forall i :: 0 <= i < |tasks| ==> 0 <= asOf - tasks[i].createdAt < slots * width {
      forall i | 0 <= i < |tasks|
        ensures InWindow(asOf, slots, width)(tasks[i])
      {
        BucketInRangeIffAge(tasks[i].createdAt, asOf, slots, width);
      }
      CountIfAll(tasks, InWindow(asOf, slots, width));
    }
  }

  /** Slot assignment does not depend on the order in which tasks are visited. */
  lemma HistogramOrderIndependent(a: seq<TaskRow>, b: seq<TaskRow>, asOf: int, slots: nat, width: int)
    requires width > 0
    requires multiset(a) == multiset(b)
    ensures Histogram(a, asOf, slots, width) == Histogram(b, asOf, slots, width)
  {
    forall k | 0 <= k < slots
      ensures Histogram(a, asOf, slots, width)[k] == Histogram(b, asOf, slots, width)[k]
    {
      CountIfPermutation(a, b, InBucket(asOf, slots, width, k));
    }
  }

  /** The status order the distribution queries, position by position with its labels. */
  const DISTRIBUTION_STATUSES: seq<string> := [TODO, IN_PROGRESS, COMPLETED]
  const DISTRIBUTION_LABELS: seq<string> := ["To Do", "In Progress", "Completed"]

  /** `processTaskDistribution`: `countOf(status)` is the database count of the
      scope's tasks with that status. */
  function ProcessTaskDistribution(countOf: string -> nat): (r: Series<nat>)
  {
    Series(DISTRIBUTION_LABELS, seq(3, i requires 0 <= i < 3 => countOf(DISTRIBUTION_STATUSES[i])))
  }

  /** The distribution has three slots; slot i is labelled with the display
      name of the i-th queried status and holds that status's count; when the
      counts are taken over one list of rows with known statuses, the slots add
      up to the length of that list. */
  lemma DistributionShape(countOf: string -> nat, tasks: seq<TaskRow>)
    ensures var r := ProcessTaskDistribution(countOf);
      && r.labels == ["To Do", "In Progress", "Completed"]
      && r.data == [countOf("TODO"), countOf("IN_PROGRESS"), countOf("COMPLETED")]
    ensures (forall s :: countOf(s) == CountStatus(tasks, s)) && KnownStatuses(tasks)
        ==> Sum(ProcessTaskDistribution(countOf).data) == |tasks|
  {
    var d := ProcessTaskDistribution(countOf).data;
    assert d == [countOf(TODO), countOf(IN_PROGRESS), countOf(COMPLETED)];
    SumOfThree(countOf(TODO), countOf(IN_PROGRESS), countOf(COMPLETED));
    StatusCountsPartition(tasks);
  }

  datatype KeyMetrics = KeyMetrics(completionRate: real, productivityRate: real, projectProgress: real)

  /** `calculateKeyMetrics`, with the four database counts as inputs: all
      tasks of the scope, the completed ones, those completed in the last 7
      days, and those in progress. */
  function CalculateKeyMetrics(totalTasks: nat, completedTasks: nat, recentCompletedTasks: nat, inProgressTasks: nat)
    : KeyMetrics
  {
    var completionRate := if totalTasks > 0 then (completedTasks as real / totalTasks as real) * 100.0 else 0.0;
    var productivityRate := (recentCompletedTasks as real / 7.0) * 100.0;
    var projectProgress :=
      if totalTasks > 0 then ((completedTasks as real + inProgressTasks as real * 0.5) / totalTasks as real) * 100.0
      else 0.0;
    KeyMetrics(completionRate, productivityRate, projectProgress)
  }

  /** The completion rate is the completed share of all tasks, in percent; it
      is 0 without tasks and lies in [0, 100] when the completed tasks are
      among all tasks. */
  lemma CompletionRateRange(totalTasks: nat, completedTasks: nat, recentCompletedTasks: nat, inProgressTasks: nat)
    ensures var m := CalculateKeyMetrics(totalTasks, completedTasks, recentCompletedTasks, inProgressTasks);
      && (totalTasks == 0 ==> m.completionRate == 0.0)
      && (totalTasks > 0 ==> m.completionRate * totalTasks as real == completedTasks as real * 100.0)
      && (completedTasks <= totalTasks ==> 0.0 <= m.completionRate <= 100.0)
  {
    var m := CalculateKeyMetrics(totalTasks, completedTasks, recentCompletedTasks, inProgressTasks);
    if totalTasks > 0 {
      RatioTimesDenominator(completedTasks as real, totalTasks as real);
      if completedTasks <= totalTasks {
        RatioAtMostOne(completedTasks as real, totalTasks as real);
      }
    }
  }

  lemma RatioTimesDenominator(x: real, y: real)
    requires y > 0.0
    ensures (x / y) * 100.0 * y == x * 100.0
  {
  }

  lemma RatioAtMostOne(x: real, y: real)
    requires 0.0 <= x <= y && y > 0.0
    ensures 0.0 <= x / y <= 1.0
  {
  }

  /** The productivity rate is the number of tasks completed in the last 7
      days, per day, times 100, with no cap: 0 such tasks give 0, 7 give 100,
      14 give 200. */
  lemma ProductivityRateScale(totalTasks: nat, completedTasks: nat, recentCompletedTasks: nat, inProgressTasks: nat)
    ensures var m := CalculateKeyMetrics(totalTasks, completedTasks, recentCompletedTasks, inProgressTasks);
      && m.productivityRate * 7.0 == recentCompletedTasks as real * 100.0
      && (m.productivityRate == 0.0 <==> recentCompletedTasks == 0)
      && (recentCompletedTasks == 7 ==> m.productivityRate == 100.0)
      && (recentCompletedTasks == 14 ==> m.productivityRate == 200.0)
  {
  }

  /** Project progress weighs in-progress tasks as half done: it is 0 without
      tasks, never below the completion rate, and at most 100 when completed
      and in-progress tasks are among all tasks. */
  lemma ProjectProgressRange(totalTasks: nat, completedTasks: nat, recentCompletedTasks: nat, inProgressTasks: nat)
    ensures var m := CalculateKeyMetrics(totalTasks, completedTasks, recentCompletedTasks, inProgressTasks);
      && (totalTasks == 0 ==> m.projectProgress == 0.0)
      && (totalTasks > 0 ==>
            m.projectProgress * totalTasks as real == (completedTasks as real + 0.5 * inProgressTasks as real) * 100.0)
      && m.projectProgress >= m.completionRate
      && (completedTasks + inProgressTasks <= totalTasks ==> m.projectProgress <= 100.0)
  {
    var m := CalculateKeyMetrics(totalTasks, completedTasks, recentCompletedTasks, inProgressTasks);
    if totalTasks > 0 {
      var t := totalTasks as real;
      var c := completedTasks as real;
      var w := completedTasks as real + inProgressTasks as real * 0.5;
      RatioTimesDenominator(w, t);
      RatioMonotone(c, w, t);
      if completedTasks + inProgressTasks <= totalTasks {
        RatioAtMostOne(w, t);
      }
    }
  }

  lemma RatioMonotone(x: real, z: real, y: real)
    requires x <= z && y > 0.0
    ensures x / y <= z / y
  {
  }

  /** With 10 tasks, 4 completed and 2 in progress, project progress is 50. */
  lemma ProjectProgressExample()
    ensures CalculateKeyMetrics(10, 4, 0, 2).projectProgress == 50.0
  {
  }
}
