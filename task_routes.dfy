/**
 * The task routes (src/routes/tasks.js): an owner-scoped task table and
 * one method per route. The authenticated caller's id is a parameter; the
 * request schemas' outcomes are inputs.
 */
module TaskRoutes {
  import opened Values
  import opened TaskModel
  import opened Pagination
  import opened TaskQuery
  import opened TaskStats

  const InvalidIdMessage := "Invalid task ID format"
  const NotFoundMessage := "Task not found"
  const DeletedMessage := "Task deleted successfully"

  predicate IsHexDigit(c: char)
  {
    '0' <= c <= '9' || 'a' <= c <= 'f' || 'A' <= c <= 'F'
  }

  predicate IsLowerHexDigit(c: char)
  {
    '0' <= c <= '9' || 'a' <= c <= 'f'
  }

  /**
   * `/^[0-9a-fA-F]{24}$/`: exactly 24 hexadecimal digits, nothing before or
   * after; such a string reads as an object id's 24 lower-case hex digits.
   */
  predicate IsObjectIdShape(id: string)
    ensures IsObjectIdShape(id) ==> |id| == 24 && forall i :: 0 <= i < |id| ==> IsLowerHexDigit(LowerHexDigit(id[i]))
  {
    |id| == 24 && forall i :: 0 <= i < |id| ==> IsHexDigit(id[i])
  }

  /** A malformed id and ids of the wrong length or alphabet are refused; 24 hex digits in either case pass. */
  lemma IdShapeExamples()
    ensures !IsObjectIdShape("not-a-valid-id")
    ensures !IsObjectIdShape("65a1b2c3d4e5f6a7b8c9d0e")
    ensures !IsObjectIdShape("65a1b2c3d4e5f6a7b8c9d0eg")
    ensures IsObjectIdShape("65a1b2c3d4e5f6a7b8c9d0eF")
  {
    assert !IsHexDigit("65a1b2c3d4e5f6a7b8c9d0eg"[23]);
  }

  /** One hex digit as the store reads it: letter case does not matter. */
  function LowerHexDigit(c: char): char
  {
    if 'A' <= c <= 'F' then (c as int - 'A' as int + 'a' as int) as char else c
  }

  /** The id string an object id prints as: its hex digits in lower case. */
  function CanonicalId(id: string): (r: string)
    ensures |r| == |id|
    ensures forall i :: 0 <= i < |id| ==> r[i] == LowerHexDigit(id[i])
  {
    seq(|id|, i requires 0 <= i < |id| => LowerHexDigit(id[i]))
  }

  /** What a stored object id looks like as a string: 24 lower-case hex digits. */
  predicate IsStoredId(id: string)
  {
    IsObjectIdShape(id) && forall i :: 0 <= i < |id| ==> !('A' <= id[i] <= 'F')
  }

  /** A stored id is already in canonical form, and a well-shaped id becomes a stored one. */
  lemma CanonicalIdOfStoredId(id: string)
    ensures IsStoredId(id) ==> CanonicalId(id) == id
    ensures IsObjectIdShape(id) ==> IsStoredId(CanonicalId(id))
  {
  }

  /** The validated query string of `GET /api/tasks`; page and limit as `parseInt` read them (None: missing or NaN). */
  datatype ListQuery = ListQuery(
    status: Option<Status>,
    priority: Option<Priority>,
    page: Option<nat>,
    limit: Option<nat>,
    sortBy: Option<string>,
    sortOrder: Option<string>,
    search: Option<string>)

  /** The validated body of `POST /api/tasks`; it may carry a `userId` of its own. */
  datatype TaskInput = TaskInput(
    title: string,
    description: Option<string>,
    status: Option<Status>,
    priority: Option<Priority>,
    dueDate: Option<nat>,
    userId: Option<string>)

  /** The validated body of `PUT /api/tasks/:id`: every field optional. */
  datatype TaskPatch = TaskPatch(
    title: Option<string>,
    description: Option<string>,
    status: Option<Status>,
    priority: Option<Priority>,
    dueDate: Option<nat>)

  /** `{ tasks, pagination: { total, page, pages, limit } }`. */
  datatype ListPage = ListPage(tasks: seq<Task>, total: nat, page: nat, pages: nat, limit: nat)

  /**
   * The task a lookup by `{ _id: id, userId: caller }` finds: the store
   * turns the requested id into an object id, so its letter case is ignored.
   */
  predicate Owns(t: Task, id: string, caller: string)
  {
    t.id == CanonicalId(id) && t.userId == caller
  }

  /** The index of the first task with this id owned by this caller, if any. */
  function FindOwned(ts: seq<Task>, id: string, caller: string): (r: Option<nat>)
    ensures r.Some? ==> r.value < |ts| && Owns(ts[r.value], id, caller)
    ensures r.Some? ==> forall k :: 0 <= k < r.value ==> !Owns(ts[k], id, caller)
    ensures r.None? <==> forall k :: 0 <= k < |ts| ==> !Owns(ts[k], id, caller)
  {
    if ts == [] then None
    else if Owns(ts[0], id, caller) then Some(0)
    else
      match FindOwned(ts[1..], id, caller)
      case None => None
      case Some(k) => Some(k + 1)
  }

  /**
   * The record `Task.create` stores: spread body, then defaults, then the
   * caller as owner, so a `userId` in the body never decides the owner.
   */
  function NewTask(input: TaskInput, caller: string, id: string, now: nat): (r: Task)
    ensures r.id == id && r.userId == caller
    ensures r.title == input.title && r.description == input.description && r.dueDate == input.dueDate
    ensures input.status.None? ==> r.status == Pending
    ensures input.priority.None? ==> r.priority == Medium
    ensures input.status.Some? ==> r.status == input.status.value
    ensures input.priority.Some? ==> r.priority == input.priority.value
    ensures r.createdAt == now == r.updatedAt
  {
    Task(
      id := id,
      userId := caller,
      title := input.title,
      description := input.description,
      status := if input.status.Some? then input.status.value else Pending,
      priority := if input.priority.Some? then input.priority.value else Medium,
      dueDate := input.dueDate,
      createdAt := now,
      updatedAt := now)
  }

  /**
   * `findOneAndUpdate` with `{ ...patch, updatedAt: now }`: supplied fields
   * replace, others stay; id, owner and creation time never change.
   */
  function Patched(t: Task, patch: TaskPatch, now: nat): (r: Task)
    ensures r.id == t.id && r.userId == t.userId && r.createdAt == t.createdAt
    ensures r.updatedAt == now
    ensures r.title == (if patch.title.Some? then patch.title.value else t.title)
    ensures patch.description.Some? ==> r.description == patch.description
    ensures patch.description.None? ==> r.description == t.description
    ensures patch.status.Some? ==> r.status == patch.status.value
    ensures patch.status.None? ==> r.status == t.status
    ensures patch.priority.Some? ==> r.priority == patch.priority.value
    ensures patch.priority.None? ==> r.priority == t.priority
    ensures patch.dueDate.Some? ==> r.dueDate == patch.dueDate
    ensures patch.dueDate.None? ==> r.dueDate == t.dueDate
  {
    t.(
      title := if patch.title.Some? then patch.title.value else t.title,
      description := if patch.description.Some? then patch.description else t.description,
      status := if patch.status.Some? then patch.status.value else t.status,
      priority := if patch.priority.Some? then patch.priority.value else t.priority,
      dueDate := if patch.dueDate.Some? then patch.dueDate else t.dueDate,
      updatedAt := now)
  }

  predicate UniqueIds(ts: seq<Task>)
  {
    forall i, j :: 0 <= i < j < |ts| ==> ts[i].id != ts[j].id
  }

  // ---- What create and update write --------------------------------------

  /** An empty body changes nothing but the update time. */
  lemma EmptyPatchOnlyRefreshes(t: Task, now: nat)
    ensures Patched(t, TaskPatch(None, None, None, None, None), now) == t.(updatedAt := now)
  {
  }

  // ---- How the routes see each other's effects ----------------------------

  /** A task with this id owned by someone else is exactly as invisible as a missing one. */
  lemma ForeignTaskIsNotFound(ts: seq<Task>, id: string, caller: string)
    requires forall k :: 0 <= k < |ts| && ts[k].id == CanonicalId(id) ==> ts[k].userId != caller
    ensures FindOwned(ts, id, caller) == None
  {
  }

  /** Asking in upper case finds the same task as asking in lower case. */
  lemma {:induction false} LookupIgnoresIdCase(ts: seq<Task>, id: string, caller: string)
    requires IsObjectIdShape(id)
    ensures FindOwned(ts, id, caller) == FindOwned(ts, CanonicalId(id), caller)
  {
    CanonicalIdOfStoredId(CanonicalId(id));
    if ts != [] {
      LookupIgnoresIdCase(ts[1..], id, caller);
    }
  }

  /** A stored lower-case id requested with upper-case digits is found. */
  lemma UpperCaseRequestFindsTask(t: Task, caller: string)
    requires t.id == "65a1b2c3d4e5f6a7b8c9d0ef" && t.userId == caller
    ensures FindOwned([t], "65A1B2C3D4E5F6A7B8C9D0EF", caller) == Some(0)
  {
    var asked := "65A1B2C3D4E5F6A7B8C9D0EF";
    var lower := CanonicalId(asked);
    assert forall i :: 0 <= i < 24 ==> lower[i] == t.id[i];
    assert lower == t.id;
  }

  /** A task created with a fresh id is the one a later lookup by that id finds. */
  lemma {:induction false} CreatedTaskIsFound(ts: seq<Task>, input: TaskInput, caller: string,
                                              id: string, now: nat)
    requires IsStoredId(id)
    requires forall k :: 0 <= k < |ts| ==> ts[k].id != id
    ensures FindOwned(ts + [NewTask(input, caller, id, now)], id, caller) == Some(|ts|)
  {
    CanonicalIdOfStoredId(id);
    var all := ts + [NewTask(input, caller, id, now)];
    assert Owns(all[|ts|], id, caller);
    assert forall k :: 0 <= k < |ts| ==> all[k] == ts[k];
  }

  /** Creating a task adds exactly one to the caller's unfiltered list. */
  lemma {:induction false} CreateAddsOneToOwnList(ts: seq<Task>, input: TaskInput, caller: string,
                                                  id: string, now: nat, regex: (string, string) -> bool)
    ensures var f := BuildFilter(caller, None, None, None);
            Select(ts + [NewTask(input, caller, id, now)], f, regex)
              == Select(ts, f, regex) + [NewTask(input, caller, id, now)]
  {
    var f := BuildFilter(caller, None, None, None);
    var t := NewTask(input, caller, id, now);
    SelectAppend(ts, [t], f, regex);
    assert [t][1..] == [];
  }

  /** Replacing a task of another owner leaves a filter's selection unchanged. */
  lemma {:induction false} SelectIgnoresForeignUpdate(ts: seq<Task>, i: nat, t: Task, f: TaskFilter,
                                                      regex: (string, string) -> bool)
    requires i < |ts|
    requires ts[i].userId != f.userId && t.userId != f.userId
    ensures Select(ts[i := t], f, regex) == Select(ts, f, regex)
  {
    if i == 0 {
      assert ts[i := t][1..] == ts[1..];
    } else {
      assert ts[i := t][1..] == ts[1..][i - 1 := t];
      SelectIgnoresForeignUpdate(ts[1..], i - 1, t, f, regex);
    }
  }

  /** Removing a task of another owner leaves a filter's selection unchanged. */
  lemma {:induction false} SelectIgnoresForeignRemoval(ts: seq<Task>, i: nat, f: TaskFilter,
                                                       regex: (string, string) -> bool)
    requires i < |ts|
    requires ts[i].userId != f.userId
    ensures Select(ts[..i] + ts[i + 1..], f, regex) == Select(ts, f, regex)
  {
    assert ts == ts[..i] + ([ts[i]] + ts[i + 1..]);
    SelectAppend(ts[..i], [ts[i]] + ts[i + 1..], f, regex);
    SelectAppend([ts[i]], ts[i + 1..], f, regex);
    SelectAppend(ts[..i], ts[i + 1..], f, regex);
    assert [ts[i]][1..] == [];
  }

  /**
   * After the caller updates one of their tasks, every other user's list
   * (under any filter of theirs) is what it was.
   */
  lemma UpdateInvisibleToOthers(ts: seq<Task>, id: string, caller: string, patch: TaskPatch, now: nat,
                                f: TaskFilter, regex: (string, string) -> bool)
    requires FindOwned(ts, id, caller).Some?
    requires f.userId != caller
    ensures var i := FindOwned(ts, id, caller).value;
            Select(ts[i := Patched(ts[i], patch, now)], f, regex) == Select(ts, f, regex)
  {
    var i := FindOwned(ts, id, caller).value;
    SelectIgnoresForeignUpdate(ts, i, Patched(ts[i], patch, now), f, regex);
  }

  /** After the caller deletes one of their tasks, every other user's list is what it was. */
  lemma DeleteInvisibleToOthers(ts: seq<Task>, id: string, caller: string,
                                f: TaskFilter, regex: (string, string) -> bool)
    requires FindOwned(ts, id, caller).Some?
    requires f.userId != caller
    ensures var i := FindOwned(ts, id, caller).value;
            Select(ts[..i] + ts[i + 1..], f, regex) == Select(ts, f, regex)
  {
    SelectIgnoresForeignRemoval(ts, FindOwned(ts, id, caller).value, f, regex);
  }

  /** Two tasks created by a caller who had none list as two on the default page. */
  lemma {:induction false} TwoCreatedTasksList(ts: seq<Task>, caller: string, a: TaskInput, b: TaskInput,
                                               idA: string, idB: string, now: nat,
                                               regex: (string, string) -> bool,
                                               key: SortField, dir: SortDirection)
    requires forall k :: 0 <= k < |ts| ==> ts[k].userId != caller
    ensures var f := BuildFilter(caller, None, None, None);
            var matching := Select(ts + [NewTask(a, caller, idA, now)] + [NewTask(b, caller, idB, now)], f, regex);
            && |matching| == 2
            && |Window(SortBy(matching, key, dir), Skip(PageNumber(None), PageSize(None)), PageSize(None))| == 2
  {
    var f := BuildFilter(caller, None, None, None);
    var ta := NewTask(a, caller, idA, now);
    var tb := NewTask(b, caller, idB, now);
    NoOwnedTasksSelectNothing(ts, f, regex);
    TwoMatchingAppended(ts, ta, tb, f, regex);
    var matching := Select(ts + [ta] + [tb], f, regex);
    DefaultPageHoldsShortList(matching, key, dir);
  }

  /** Two matching tasks appended to a store with no match are selected in the order they were added. */
  lemma {:induction false} TwoMatchingAppended(ts: seq<Task>, x: Task, y: Task, f: TaskFilter,
                                               regex: (string, string) -> bool)
    requires Select(ts, f, regex) == []
    requires Matches(x, f, regex) && Matches(y, f, regex)
    ensures Select(ts + [x] + [y], f, regex) == [x, y]
  {
    SelectOne(x, f, regex);
    SelectOne(y, f, regex);
    SelectAppend(ts, [x], f, regex);
    SelectAppend(ts + [x], [y], f, regex);
  }

  /** A store of one matching task selects that task. */
  lemma SelectOne(t: Task, f: TaskFilter, regex: (string, string) -> bool)
    requires Matches(t, f, regex)
    ensures Select([t], f, regex) == [t]
  {
    assert [t][1..] == [];
  }

  /** With no page or limit given, a selection of at most ten tasks lists in full. */
  lemma DefaultPageHoldsShortList(matching: seq<Task>, key: SortField, dir: SortDirection)
    requires |matching| <= DefaultLimit
    ensures |Window(SortBy(matching, key, dir), Skip(PageNumber(None), PageSize(None)), PageSize(None))| == |matching|
  {
  }

  /** Two matching tasks at `limit=1` make two pages, and page 2 holds one task. */
  lemma TwoTasksMakeTwoPagesOfOne(matching: seq<Task>, key: SortField, dir: SortDirection)
    requires |matching| == 2
    ensures PageCount(|matching|, PageSize(Some(1))) == 2
    ensures |Window(SortBy(matching, key, dir), Skip(PageNumber(Some(2)), PageSize(Some(1))), PageSize(Some(1)))| == 1
  {
  }

  lemma {:induction false} NoOwnedTasksSelectNothing(ts: seq<Task>, f: TaskFilter, regex: (string, string) -> bool)
    requires forall k :: 0 <= k < |ts| ==> ts[k].userId != f.userId
    ensures Select(ts, f, regex) == []
  {
    if ts != [] {
      NoOwnedTasksSelectNothing(ts[1..], f, regex);
    }
  }

  /** Every task on a page is a stored task that matches the filter. */
  lemma PageComesFromSelection(ts: seq<Task>, f: TaskFilter, regex: (string, string) -> bool,
                               key: SortField, dir: SortDirection, skip: nat, limit: nat)
    ensures var page := Window(SortBy(Select(ts, f, regex), key, dir), skip, limit);
            forall i :: 0 <= i < |page| ==> page[i] in ts && Matches(page[i], f, regex)
  {
    var matching := Select(ts, f, regex);
    var ordered := SortBy(matching, key, dir);
    var page := Window(ordered, skip, limit);
    forall i | 0 <= i < |page| ensures page[i] in ts && Matches(page[i], f, regex) {
      var t := page[i];
      assert t == ordered[skip + i];
      assert multiset(ordered)[t] > 0;
      assert multiset(matching)[t] > 0;
      assert multiset(ts)[t] > 0;
      var k :| 0 <= k < |matching| && matching[k] == t;
    }
  }

  /** The task collection, in store order. */
  class TaskStore {
    var tasks: seq<Task>

    /** Object ids are unique in the collection and print as lower-case hex. */
    ghost predicate Valid()
      reads this
    {
      UniqueIds(tasks) && forall k :: 0 <= k < |tasks| ==> IsStoredId(tasks[k].id)
    }

    constructor ()
      ensures Valid() && tasks == []
    {
      tasks := [];
    }

    /** `GET /api/tasks`: one page of the caller's matching tasks and the count of all of them. */
    method List(caller: string, query: Validation<ListQuery>, regex: (string, string) -> bool)
      returns (r: Reply<ListPage>)
      ensures query.error.Some? ==> r == Refused(400, query.error.value)
      ensures query.error.None? ==>
        var q := query.value;
        var f := BuildFilter(caller, q.status, q.priority, q.search);
        var page := PageNumber(q.page);
        var limit := PageSize(q.limit);
        var matching := Select(tasks, f, regex);
        && r.Done? && r.code == 200
        && r.body.page == page && r.body.limit == limit
        && r.body.total == |matching|
        && r.body.pages == PageCount(|matching|, limit)
        && r.body.tasks == Window(SortBy(matching, FieldOf(SortFieldOf(q.sortBy)), SortOrderOf(q.sortOrder)),
                                  Skip(page, limit), limit)
      ensures r.Done? ==> |r.body.tasks| <= r.body.limit
      ensures r.Done? ==> forall i :: 0 <= i < |r.body.tasks| ==>
        var t := r.body.tasks[i];
        && t in tasks && t.userId == caller
        && (query.value.status.Some? ==> t.status == query.value.status.value)
        && (query.value.priority.Some? ==> t.priority == query.value.priority.value)
    {
      if query.error.Some? {
        return Refused(400, query.error.value);
      }
      var q := query.value;
      var page := PageNumber(q.page);
      var limit := PageSize(q.limit);
      var sortBy := SortFieldOf(q.sortBy);
      var sortOrder := SortOrderOf(q.sortOrder);
      var filter := BuildFilter(caller, q.status, q.priority, q.search);
      var skip := Skip(page, limit);
      var matching := Select(tasks, filter, regex);
      var ordered := SortBy(matching, FieldOf(sortBy), sortOrder);
      var found := Window(ordered, skip, limit);
      var total := |matching|;
      PageComesFromSelection(tasks, filter, regex, FieldOf(sortBy), sortOrder, skip, limit);
      r := Done(200, ListPage(found, total, page, PageCount(total, limit), limit));
    }

    /** `GET /api/tasks/:id`. */
    method Get(caller: string, id: string) returns (r: Reply<Task>)
      ensures !IsObjectIdShape(id) ==> r == Refused(400, InvalidIdMessage)
      ensures IsObjectIdShape(id) ==>
        (r == Refused(404, NotFoundMessage) <==> forall k :: 0 <= k < |tasks| ==> !Owns(tasks[k], id, caller))
      ensures IsObjectIdShape(id) && FindOwned(tasks, id, caller).Some? ==>
        r == Done(200, tasks[FindOwned(tasks, id, caller).value])
      ensures r.Done? ==> r.code == 200 && r.body in tasks && Owns(r.body, id, caller)
      ensures r.Refused? ==> r.code in {400, 404}
    {
      if !IsObjectIdShape(id) {
        return Refused(400, InvalidIdMessage);
      }
      match FindOwned(tasks, id, caller)
      case None =>
        r := Refused(404, NotFoundMessage);
      case Some(i) =>
        r := Done(200, tasks[i]);
    }

    /** `POST /api/tasks`. `newId` is the fresh object id the store assigns. */
    method Create(caller: string, body: Validation<TaskInput>, newId: string, now: nat)
      returns (r: Reply<Task>)
      requires Valid()
      requires IsStoredId(newId)
      requires forall k :: 0 <= k < |tasks| ==> tasks[k].id != newId
      modifies this
      ensures Valid()
      ensures body.error.Some? ==> r == Refused(400, body.error.value) && tasks == old(tasks)
      ensures body.error.None? ==>
        && r == Done(201, NewTask(body.value, caller, newId, now))
        && tasks == old(tasks) + [r.body]
    {
      if body.error.Some? {
        return Refused(400, body.error.value);
      }
      var created := NewTask(body.value, caller, newId, now);
      tasks := tasks + [created];
      r := Done(201, created);
    }

    /** `PUT /api/tasks/:id`: the id shape is checked before the body. */
    method Update(caller: string, id: string, body: Validation<TaskPatch>, now: nat)
      returns (r: Reply<Task>)
      requires Valid()
      modifies this
      ensures Valid()
      ensures !IsObjectIdShape(id) ==> r == Refused(400, InvalidIdMessage) && tasks == old(tasks)
      ensures IsObjectIdShape(id) && body.error.Some? ==>
        r == Refused(400, body.error.value) && tasks == old(tasks)
      ensures IsObjectIdShape(id) && body.error.None? ==>
        match FindOwned(old(tasks), id, caller)
        case None => r == Refused(404, NotFoundMessage) && tasks == old(tasks)
        case Some(i) =>
          && tasks == old(tasks)[i := Patched(old(tasks)[i], body.value, now)]
          && r == Done(200, tasks[i])
    {
      if !IsObjectIdShape(id) {
        return Refused(400, InvalidIdMessage);
      }
      if body.error.Some? {
        return Refused(400, body.error.value);
      }
      match FindOwned(tasks, id, caller)
      case None =>
        r := Refused(404, NotFoundMessage);
      case Some(i) =>
        var updated := Patched(tasks[i], body.value, now);
        tasks := tasks[i := updated];
        r := Done(200, updated);
    }

    /** `DELETE /api/tasks/:id`. */
    method Delete(caller: string, id: string) returns (r: Reply<string>)
      requires Valid()
      modifies this
      ensures Valid()
      ensures !IsObjectIdShape(id) ==> r == Refused(400, InvalidIdMessage) && tasks == old(tasks)
      ensures IsObjectIdShape(id) ==>
        match FindOwned(old(tasks), id, caller)
        case None => r == Refused(404, NotFoundMessage) && tasks == old(tasks)
        case Some(i) =>
          && tasks == old(tasks)[..i] + old(tasks)[i + 1..]
          && r == Done(200, DeletedMessage)
      ensures r.Done? ==> forall k :: 0 <= k < |tasks| ==> tasks[k].id != CanonicalId(id)
    {
      if !IsObjectIdShape(id) {
        return Refused(400, InvalidIdMessage);
      }
      match FindOwned(tasks, id, caller)
      case None =>
        r := Refused(404, NotFoundMessage);
      case Some(i) =>
        tasks := tasks[..i] + tasks[i + 1..];
        r := Done(200, DeletedMessage);
    }

    /** `GET /api/tasks/stats/summary`: read-only. */
    method Stats(caller: string, now: nat) returns (r: Reply<Summary>)
      ensures r == Done(200, SummaryOf(tasks, caller, now))
      ensures r.body.pending + r.body.inProgress + r.body.completed == r.body.total
      ensures r.body.high + r.body.medium + r.body.low == r.body.total
      ensures r.body.overdue <= r.body.total - r.body.completed
    {
      r := Done(200, SummaryOf(tasks, caller, now));
    }
  }
}
