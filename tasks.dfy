/** Task rows as the analytics and dashboard routes read from the database
    (`select: { id, title, status, createdAt, completedAt }`), and counting
    them by status. Timestamps are milliseconds since the epoch. */
module Tasks {
  import opened Common

  const TODO := "TODO"
  const IN_PROGRESS := "IN_PROGRESS"
  const COMPLETED := "COMPLETED"

  /** Status is the stored string; the routes compare it with the three names above. */
  datatype TaskRow = TaskRow(
    id: string,
    title: string,
    status: string,
    createdAt: int,
    completedAt: Option<int>)

  function HasStatus(status: string): TaskRow -> bool
  {
    (t: TaskRow) => t.status == status
  }

  function HasStatusIn(statuses: set<string>): TaskRow -> bool
  {
    (t: TaskRow) => t.status in statuses
  }

  /** `tasks.filter(task => task.status === status).length`. */
  function CountStatus(tasks: seq<TaskRow>, status: string): nat
  {
    CountIf(tasks, HasStatus(status))
  }

  predicate KnownStatuses(tasks: seq<TaskRow>)
  {
    forall i :: 0 <= i < |tasks| ==> tasks[i].status in {TODO, IN_PROGRESS, COMPLETED}
  }

  /** The three status counts never exceed the number of rows, and add up to
      it exactly when every row has one of the three statuses. */
  lemma StatusCountsPartition(tasks: seq<TaskRow>)
    ensures CountStatus(tasks, TODO) + CountStatus(tasks, IN_PROGRESS) + CountStatus(tasks, COMPLETED) <= |tasks|
    ensures KnownStatuses(tasks) ==>
      CountStatus(tasks, TODO) + CountStatus(tasks, IN_PROGRESS) + CountStatus(tasks, COMPLETED) == |tasks|
  {
    var two := HasStatusIn({TODO, IN_PROGRESS});
    var three := HasStatusIn({TODO, IN_PROGRESS, COMPLETED});
    CountIfDisjoint(tasks, HasStatus(TODO), HasStatus(IN_PROGRESS), two);
    CountIfDisjoint(tasks, two, HasStatus(COMPLETED), three);
    CountIfBound(tasks, three);
    if KnownStatuses(tasks) {
      CountIfAll(tasks, three);
    }
  }

  /** Counting by status does not depend on the order of the rows. */
  lemma CountStatusPermutation(a: seq<TaskRow>, b: seq<TaskRow>, status: string)
    requires multiset(a) == multiset(b)
    ensures CountStatus(a, status) == CountStatus(b, status)
  {
    CountIfPermutation(a, b, HasStatus(status));
  }
}
