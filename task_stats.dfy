/**
 * The summary counts of `GET /api/tasks/stats/summary`
 * (src/routes/tasks.js): eight owner-scoped counts over one snapshot of
 * the store.
 */
module TaskStats {
  import opened Values
  import opened TaskModel
  import TaskQuery

  /** The condition of one of the eight `countDocuments` calls, besides the owner. */
  datatype CountQuery =
    | WithStatus(status: Status)
    | WithPriority(priority: Priority)
    | OverdueAt(now: nat)
    | AllOwned

  /** Whether a task is counted by `q` for `caller`. A task without a due date is never overdue. */
  predicate Counted(t: Task, caller: string, q: CountQuery)
  {
    t.userId == caller &&
    match q
    case WithStatus(s) => t.status == s
    case WithPriority(p) => t.priority == p
    case OverdueAt(now) => t.dueDate.Some? && t.dueDate.value < now && t.status != Completed
    case AllOwned => true
  }

  /** `Task.countDocuments({ userId: caller, ...q })`. */
  function Count(ts: seq<Task>, caller: string, q: CountQuery): (n: nat)
    ensures n <= |ts|
  {
    if ts == [] then 0
    else (if Counted(ts[0], caller, q) then 1 else 0) + Count(ts[1..], caller, q)
  }

  /** The JSON body: `{ status: {...}, priority: {...}, overdue, total }`. */
  datatype Summary = Summary(
    pending: nat, inProgress: nat, completed: nat,
    high: nat, medium: nat, low: nat,
    overdue: nat, total: nat)

  /** The eight counts for `caller` at time `now`. */
  function SummaryOf(ts: seq<Task>, caller: string, now: nat): (s: Summary)
    ensures s.pending + s.inProgress + s.completed == s.total
    ensures s.high + s.medium + s.low == s.total
    ensures s.overdue <= s.total - s.completed
    ensures s.total <= |ts|
  {
    StatusCountsPartition(ts, caller);
    PriorityCountsPartition(ts, caller);
    OverdueExcludesCompleted(ts, caller, now);
    Summary(
      Count(ts, caller, WithStatus(Pending)),
      Count(ts, caller, WithStatus(InProgress)),
      Count(ts, caller, WithStatus(Completed)),
      Count(ts, caller, WithPriority(High)),
      Count(ts, caller, WithPriority(Medium)),
      Count(ts, caller, WithPriority(Low)),
      Count(ts, caller, OverdueAt(now)),
      Count(ts, caller, AllOwned))
  }

  /** Every owned task has exactly one of the three statuses. */
  lemma {:induction false} StatusCountsPartition(ts: seq<Task>, caller: string)
    ensures Count(ts, caller, WithStatus(Pending)) + Count(ts, caller, WithStatus(InProgress))
            + Count(ts, caller, WithStatus(Completed)) == Count(ts, caller, AllOwned)
  {
    if ts != [] {
      StatusCountsPartition(ts[1..], caller);
    }
  }

  /** Every owned task has exactly one of the three priorities. */
  lemma {:induction false} PriorityCountsPartition(ts: seq<Task>, caller: string)
    ensures Count(ts, caller, WithPriority(High)) + Count(ts, caller, WithPriority(Medium))
            + Count(ts, caller, WithPriority(Low)) == Count(ts, caller, AllOwned)
  {
    if ts != [] {
      PriorityCountsPartition(ts[1..], caller);
    }
  }

  /** An overdue task is never a completed one, so the two counts fit in the total together. */
  lemma {:induction false} OverdueExcludesCompleted(ts: seq<Task>, caller: string, now: nat)
    ensures Count(ts, caller, OverdueAt(now)) + Count(ts, caller, WithStatus(Completed))
            <= Count(ts, caller, AllOwned)
  {
    if ts != [] {
      OverdueExcludesCompleted(ts[1..], caller, now);
    }
  }

  /** A caller who owns no task gets zero in every count. */
  lemma {:induction false} NoOwnedTasksCountsZero(ts: seq<Task>, caller: string, q: CountQuery)
    requires forall i :: 0 <= i < |ts| ==> ts[i].userId != caller
    ensures Count(ts, caller, q) == 0
  {
    if ts != [] {
      NoOwnedTasksCountsZero(ts[1..], caller, q);
    }
  }

  /** The summary of a caller who owns no task is all zeros. */
  lemma NoOwnedTasksSummaryZero(ts: seq<Task>, caller: string, now: nat)
    requires forall i :: 0 <= i < |ts| ==> ts[i].userId != caller
    ensures SummaryOf(ts, caller, now) == Summary(0, 0, 0, 0, 0, 0, 0, 0)
  {
    NoOwnedTasksCountsZero(ts, caller, WithStatus(Pending));
    NoOwnedTasksCountsZero(ts, caller, WithStatus(InProgress));
    NoOwnedTasksCountsZero(ts, caller, WithStatus(Completed));
    NoOwnedTasksCountsZero(ts, caller, WithPriority(High));
    NoOwnedTasksCountsZero(ts, caller, WithPriority(Medium));
    NoOwnedTasksCountsZero(ts, caller, WithPriority(Low));
    NoOwnedTasksCountsZero(ts, caller, OverdueAt(now));
    NoOwnedTasksCountsZero(ts, caller, AllOwned);
  }

  /**
   * The summary total is the list's total for an unfiltered query, and the
   * per-status count is the list's total when filtering by that status:
   * the two endpoints count the same tasks.
   */
  lemma {:induction false} CountAgreesWithList(ts: seq<Task>, caller: string, status: Option<Status>,
                                               regex: (string, string) -> bool)
    ensures var f := TaskQuery.BuildFilter(caller, status, None, None);
            |TaskQuery.Select(ts, f, regex)|
              == Count(ts, caller, if status.Some? then WithStatus(status.value) else AllOwned)
  {
    if ts != [] {
      CountAgreesWithList(ts[1..], caller, status, regex);
    }
  }
}
