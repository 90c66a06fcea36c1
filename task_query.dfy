/**
 * How the task list builds its store query (src/routes/tasks.js): the
 * owner-scoped filter, the records it selects, and the sort it asks for.
 */
module TaskQuery {
  import opened Values
  import opened TaskModel

  /**
   * The `filter` object: always the owner, then status and priority when
   * given, then a title-or-description search when the term is non-empty.
   */
  datatype TaskFilter = TaskFilter(
    userId: string,
    status: Option<Status>,
    priority: Option<Priority>,
    search: Option<string>)

  /** Builds the filter field by field, as the handler does. */
  function BuildFilter(caller: string, status: Option<Status>, priority: Option<Priority>,
                       search: Option<string>): (f: TaskFilter)
    ensures f.userId == caller
    ensures f.status == status && f.priority == priority
    ensures f.search.Some? <==> search.Some? && search.value != ""
    ensures f.search.Some? ==> f.search == search
  {
    var f := TaskFilter(caller, None, None, None);
    var f := if status.Some? then f.(status := status) else f;
    var f := if priority.Some? then f.(priority := priority) else f;
    var f := if search.Some? && search.value != "" then f.(search := search) else f;
    f
  }

  /**
   * Whether a stored task satisfies the filter. `regex(text, term)` is the
   * store's case-insensitive regular-expression match, left uninterpreted;
   * a task without a description never matches on its description.
   */
  predicate Matches(t: Task, f: TaskFilter, regex: (string, string) -> bool)
  {
    && t.userId == f.userId
    && (f.status.Some? ==> t.status == f.status.value)
    && (f.priority.Some? ==> t.priority == f.priority.value)
    && (f.search.Some? ==>
          regex(t.title, f.search.value)
          || (t.description.Some? && regex(t.description.value, f.search.value)))
  }

  /** The tasks `Task.find(filter)` and `Task.countDocuments(filter)` see, in store order. */
  function Select(ts: seq<Task>, f: TaskFilter, regex: (string, string) -> bool): (r: seq<Task>)
    ensures |r| <= |ts|
    ensures forall i :: 0 <= i < |r| ==> Matches(r[i], f, regex)
    ensures forall t :: t in ts && Matches(t, f, regex) ==> t in r
    ensures multiset(r) <= multiset(ts)
  {
    if ts == [] then []
    else
      var rest := Select(ts[1..], f, regex);
      assert ts == [ts[0]] + ts[1..];
      if Matches(ts[0], f, regex) then [ts[0]] + rest else rest
  }

  /** Every selected task belongs to the caller named in the filter. */
  lemma SelectIsOwnerScoped(ts: seq<Task>, f: TaskFilter, regex: (string, string) -> bool, t: Task)
    requires t in Select(ts, f, regex)
    ensures t.userId == f.userId && t in ts
  {
    var r := Select(ts, f, regex);
    assert multiset(r)[t] > 0;
  }

  /** Selecting over two stores appended is selecting over each of them. */
  lemma {:induction false} SelectAppend(a: seq<Task>, b: seq<Task>, f: TaskFilter, regex: (string, string) -> bool)
    ensures Select(a + b, f, regex) == Select(a, f, regex) + Select(b, f, regex)
  {
    if a == [] {
      assert a + b == b;
    } else {
      assert (a + b)[1..] == a[1..] + b;
      SelectAppend(a[1..], b, f, regex);
    }
  }

  /** Tasks of other owners never change what a caller's query selects. */
  lemma {:induction false} SelectIgnoresOtherOwners(ts: seq<Task>, t: Task, f: TaskFilter,
                                                     regex: (string, string) -> bool)
    requires t.userId != f.userId
    ensures Select(ts + [t], f, regex) == Select(ts, f, regex)
  {
    SelectAppend(ts, [t], f, regex);
    assert [t][1..] == [];
  }

  // ---- Sorting -------------------------------------------------------------

  datatype SortDirection = Ascending | Descending

  /** `sortOrder === "asc" ? 1 : -1`: only the exact string "asc" sorts upwards. */
  function SortOrderOf(raw: Option<string>): (d: SortDirection)
    ensures d == Ascending <==> raw == Some("asc")
  {
    if raw == Some("asc") then Ascending else Descending
  }

  /** `sortBy || "createdAt"`: a missing or empty field name sorts by creation time. */
  function SortFieldOf(raw: Option<string>): (field: string)
    ensures raw.Some? && raw.value != "" ==> field == raw.value
    ensures raw.None? || raw.value == "" ==> field == "createdAt"
  {
    match raw
    case Some(s) => if s != "" then s else "createdAt"
    case None => "createdAt"
  }

  /**
   * The rank the store sorts a status by: the stored strings in
   * lexicographic order ("completed" < "in_progress" < "pending").
   */
  function StatusRank(s: Status): int
  {
    match s
    case Completed => 0
    case InProgress => 1
    case Pending => 2
  }

  /** As StatusRank, for "high" < "low" < "medium". */
  function PriorityRank(p: Priority): int
  {
    match p
    case High => 0
    case Low => 1
    case Medium => 2
  }

  /** Lexicographic order on strings, the order the store sorts strings by. */
  predicate LexLess(a: string, b: string)
  {
    if a == [] then b != []
    else if b == [] then false
    else if a[0] != b[0] then a[0] < b[0]
    else LexLess(a[1..], b[1..])
  }

  /** The status ranks agree with the order of the stored strings. */
  lemma StatusRankIsNameOrder(a: Status, b: Status)
    ensures StatusRank(a) < StatusRank(b) <==> LexLess(StatusName(a), StatusName(b))
  {
    if a == b {
      LexLessIrreflexive(StatusName(a));
    } else {
      // the three names already differ in their first letter
      assert StatusName(a)[0] != StatusName(b)[0];
    }
  }

  /** The priority ranks agree with the order of the stored strings. */
  lemma PriorityRankIsNameOrder(a: Priority, b: Priority)
    ensures PriorityRank(a) < PriorityRank(b) <==> LexLess(PriorityName(a), PriorityName(b))
  {
    if a == b {
      LexLessIrreflexive(PriorityName(a));
    } else {
      assert PriorityName(a)[0] != PriorityName(b)[0];
    }
  }

  lemma {:induction false} LexLessIrreflexive(a: string)
    ensures !LexLess(a, a)
  {
    if a != [] {
      LexLessIrreflexive(a[1..]);
    }
  }

  /** The fields the store can order tasks by; other names order nothing. */
  datatype SortField = ByCreatedAt | ByUpdatedAt | ByDueDate | ByStatus | ByPriority | Unordered

  /** The stored name of an orderable field. */
  function FieldName(key: SortField): string
    requires !key.Unordered?
  {
    match key
    case ByCreatedAt => "createdAt"
    case ByUpdatedAt => "updatedAt"
    case ByDueDate => "dueDate"
    case ByStatus => "status"
    case ByPriority => "priority"
  }

  /** The field a `sortBy` name refers to: one of the five orderable fields when it names one. */
  function FieldOf(name: string): (key: SortField)
    ensures key.Unordered? <==> name !in {"createdAt", "updatedAt", "dueDate", "status", "priority"}
    ensures !key.Unordered? ==> FieldName(key) == name
  {
    if name == "createdAt" then ByCreatedAt
    else if name == "updatedAt" then ByUpdatedAt
    else if name == "dueDate" then ByDueDate
    else if name == "status" then ByStatus
    else if name == "priority" then ByPriority
    else Unordered
  }

  /** Every orderable field is read back from its name. */
  lemma FieldNamesRoundTrip(key: SortField)
    requires !key.Unordered?
    ensures FieldOf(FieldName(key)) == key
  {
  }

  /**
   * The key a task is sorted by for a given field. A missing due date sorts
   * before every date. Fields without a modelled order compare equal.
   */
  function SortKey(t: Task, key: SortField): (k: int)
    ensures k >= -1
    ensures k == -1 <==> key == ByDueDate && t.dueDate.None?
    ensures key == ByDueDate && t.dueDate.Some? ==> k == t.dueDate.value
    ensures key == ByCreatedAt ==> k == t.createdAt
    ensures key == ByUpdatedAt ==> k == t.updatedAt
    ensures key == Unordered ==> k == 0
  {
    match key
    case ByCreatedAt => t.createdAt
    case ByUpdatedAt => t.updatedAt
    case ByDueDate => (match t.dueDate case Some(d) => d case None => -1)
    case ByStatus => StatusRank(t.status)
    case ByPriority => PriorityRank(t.priority)
    case Unordered => 0
  }

  /** The key in the direction asked for: descending order sorts the negated key upwards. */
  function DirectedKey(t: Task, key: SortField, dir: SortDirection): int
  {
    if dir == Ascending then SortKey(t, key) else -SortKey(t, key)
  }

  /** `s` is in the order `.sort({ [key]: dir })` asks for. */
  predicate SortedBy(s: seq<Task>, key: SortField, dir: SortDirection)
  {
    forall i, j :: 0 <= i < j < |s| ==> DirectedKey(s[i], key, dir) <= DirectedKey(s[j], key, dir)
  }

  /** Puts `t` before the first task whose key is not smaller. */
  function Insert(t: Task, s: seq<Task>, key: SortField, dir: SortDirection): (r: seq<Task>)
    ensures multiset(r) == multiset(s) + multiset{t}
    ensures |r| == |s| + 1
  {
    if s == [] then [t]
    else if DirectedKey(t, key, dir) <= DirectedKey(s[0], key, dir) then [t] + s
    else
      assert s == [s[0]] + s[1..];
      [s[0]] + Insert(t, s[1..], key, dir)
  }

  /** A bound below `t` and below every task of `s` stays below every task of the insertion. */
  lemma {:induction false} InsertKeepsLowerBound(t: Task, s: seq<Task>, key: SortField, dir: SortDirection, lb: int)
    requires lb <= DirectedKey(t, key, dir)
    requires forall i :: 0 <= i < |s| ==> lb <= DirectedKey(s[i], key, dir)
    ensures forall i :: 0 <= i < |Insert(t, s, key, dir)| ==> lb <= DirectedKey(Insert(t, s, key, dir)[i], key, dir)
  {
    if s != [] && DirectedKey(t, key, dir) > DirectedKey(s[0], key, dir) {
      InsertKeepsLowerBound(t, s[1..], key, dir, lb);
    }
  }

  /** Inserting into a sorted sequence keeps it sorted. */
  lemma {:induction false} InsertKeepsSorted(t: Task, s: seq<Task>, key: SortField, dir: SortDirection)
    requires SortedBy(s, key, dir)
    ensures SortedBy(Insert(t, s, key, dir), key, dir)
  {
    if s != [] && DirectedKey(t, key, dir) > DirectedKey(s[0], key, dir) {
      var rest := Insert(t, s[1..], key, dir);
      assert SortedBy(s[1..], key, dir) by {
        forall i, j | 0 <= i < j < |s[1..]|
          ensures DirectedKey(s[1..][i], key, dir) <= DirectedKey(s[1..][j], key, dir)
        {
          assert s[1..][i] == s[i + 1] && s[1..][j] == s[j + 1];
        }
      }
      InsertKeepsSorted(t, s[1..], key, dir);
      InsertKeepsLowerBound(t, s[1..], key, dir, DirectedKey(s[0], key, dir));
      var r := [s[0]] + rest;
      assert r == Insert(t, s, key, dir);
      forall i, j | 0 <= i < j < |r|
        ensures DirectedKey(r[i], key, dir) <= DirectedKey(r[j], key, dir)
      {
        if i > 0 {
          assert r[i] == rest[i - 1] && r[j] == rest[j - 1];
        } else {
          assert r[j] == rest[j - 1];
        }
      }
    }
  }

  /**
   * The order the store hands the selected tasks back in: sorted by the
   * key and a permutation of what was selected. This model keeps ties in
   * store order; the contract promises nothing about ties.
   */
  function SortBy(s: seq<Task>, key: SortField, dir: SortDirection): (r: seq<Task>)
    ensures SortedBy(r, key, dir)
    ensures multiset(r) == multiset(s)
    ensures |r| == |s|
  {
    if s == [] then []
    else
      assert s == [s[0]] + s[1..];
      var sorted := SortBy(s[1..], key, dir);
      InsertKeepsSorted(s[0], sorted, key, dir);
      Insert(s[0], sorted, key, dir)
  }
}
