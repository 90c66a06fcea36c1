/** The task record and its two enumerations (src/models/Task.js). */
module TaskModel {
  import opened Values

  datatype Status = Pending | InProgress | Completed
  datatype Priority = Low | Medium | High

  /** The string stored for each status. */
  function StatusName(s: Status): string
  {
    match s
    case Pending => "pending"
    case InProgress => "in_progress"
    case Completed => "completed"
  }

  /** The string stored for each priority. */
  function PriorityName(p: Priority): string
  {
    match p
    case Low => "low"
    case Medium => "medium"
    case High => "high"
  }

  /**
   * A stored task. Times are milliseconds since the epoch (dates before
   * the epoch are not modelled); `id` and
   * `userId` are the hexadecimal strings of the database's object ids.
   */
  datatype Task = Task(
    id: string,
    userId: string,
    title: string,
    description: Option<string>,
    status: Status,
    priority: Priority,
    dueDate: Option<nat>,
    createdAt: nat,
    updatedAt: nat)
}
