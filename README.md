# Task-management API: a Dafny model of its handler logic

This project models the request-handling logic of a small task-management
HTTP API with Dafny, and proves properties of the model:

- the task routes (`GET/POST /api/tasks`, `GET/PUT/DELETE /api/tasks/:id`,
  `GET /api/tasks/stats/summary`) over an owner-scoped task collection;
- the central error responder that turns a thrown error into
  `{ success: false, error, stack? }` and a status code;
- the `register` and `login` routes over a user table keyed by email.

Stored state that the routes change in place is a class: `TaskRoutes.TaskStore`
holds the task collection as a sequence in store order, and
`AuthRoutes.UserTable` holds the users as a map from email to user. The
routes that only read (list, get, stats) are methods that change nothing, and
login is a function of the table. The arithmetic and query pieces are pure
functions: page and limit defaults, skip, `ceil(total / limit)`, the filter
the list builds, the selection and sort the store performs, the eight
summary counts and the 24-hex-digit id check.

The authenticated caller's id, the current time, the fresh object id the
store assigns, and each request schema's outcome (a value, plus the first
error message when the schema failed) are parameters. The store's
case-insensitive regular-expression match, password hashing, password
comparison and token signing are uninterpreted. Hashing and comparison are
function parameters. A token is the term `Token(userId, secret, expiresIn)`
naming what was signed.

Files and modules:

| file | module | contents |
|---|---|---|
| values.dfy | Values | `Option`, `Validation` (schema outcome), `Reply` (status + body or error) |
| task_model.dfy | TaskModel | status and priority enumerations, the task record |
| pagination.dfy | Pagination | page/limit defaults, skip, page count, the page window |
| task_query.dfy | TaskQuery | filter construction, selection, sort keys and the sort |
| task_stats.dfy | TaskStats | the eight summary counts and their relations |
| task_routes.dfy | TaskRoutes | id shape check, create/update records, `TaskStore` and its route methods |
| error_handler.dfy | ErrorHandler | error classification and the error reply |
| auth_routes.dfy | AuthRoutes | `UserTable.Register`, `Login`, token and expiry |

Behaviour of the code that the model keeps, where a reader might expect
otherwise:

- The error responder maps only cast errors (404), duplicate keys (400) and
  validation errors (400). Every other error keeps its own status code, or
  gets 500. There is no 401 mapping in it.
- In `auth.js` a schema error stops the request only when its first message
  is non-empty (`error?.details?.[0]?.message`). In `tasks.js` any schema
  error stops it.
- `page` and `limit` fall back to 1 and 10 when they are missing, when they
  do not parse, or when they are 0 (`parseInt(...) || default`). The handler
  enforces no other bound.
- Register saves the user before it looks for the signing secret. So with
  no secret configured, it answers 500 and the user is already stored. A
  retry then answers "User already exists with this email".
- The stack is in the error body only in development mode, and only when the
  error has one, because JSON drops a key whose value is undefined.

## Model

| member | source | states |
|---|---|---|
| `TaskModel.StatusName` | src/models/Task.js:3-7 | the stored string of each status: "pending", "in_progress", "completed" (a definition, no contract) |
| `TaskModel.PriorityName` | src/models/Task.js:9-13 | the stored string of each priority: "low", "medium", "high" (a definition, no contract) |
| `Pagination.OrDefault` | src/routes/tasks.js:31-32 | a parsed non-zero value is kept; missing, unparsable or 0 gives the default; the result is at least 1 |
| `Pagination.PageNumber` | src/routes/tasks.js:31 | page defaults to 1 when missing, unparsable or 0 |
| `Pagination.PageSize` | src/routes/tasks.js:32 | limit defaults to 10 when missing, unparsable or 0 |
| `Pagination.Skip` | src/routes/tasks.js:49 | page 1 skips nothing, and page p+1 starts where page p ends: skip + limit = page * limit |
| `Pagination.PageCount` | src/routes/tasks.js:60 | pages is the ceiling of total/limit: `total <= pages*limit`, `(pages-1)*limit < total`, and 0 pages exactly for 0 records |
| `Pagination.Window` | src/routes/tasks.js:49-53 | skip then limit: at most `limit` records, element i is record skip+i, empty when skip is past the data |
| `Pagination.EveryRecordOnItsPage` | src/routes/tasks.js:49-61 | record k lies on page k/limit+1, which is within 1..pages, at offset k mod limit |
| `Pagination.PagePastDataIsEmpty` | src/routes/tasks.js:49-61 | a page number beyond the page count yields an empty page |
| `TaskQuery.BuildFilter` | src/routes/tasks.js:39-47 | the filter always holds the caller; status and priority exactly when given; the search term exactly when non-empty |
| `TaskQuery.Matches` | src/routes/tasks.js:39-47 | the meaning of the filter document (a definition, no contract): same owner; equal status and priority when the filter holds them; when it holds a search term, the regex matches the title or the description |
| `TaskQuery.Select` | src/routes/tasks.js:50-54 | find and count see exactly the stored tasks matching the filter (sound and complete), a sub-multiset of the store |
| `TaskQuery.SelectIsOwnerScoped` | src/routes/tasks.js:39 | every selected task belongs to the filter's owner and is stored |
| `TaskQuery.SelectAppend` | src/routes/tasks.js:50-54 | selection distributes over appending stores |
| `TaskQuery.SelectIgnoresOtherOwners` | src/routes/tasks.js:39 | a task of another owner never changes a caller's selection |
| `TaskQuery.SortOrderOf` | src/routes/tasks.js:36 | ascending exactly for the string "asc"; anything else, absent included, is descending |
| `TaskQuery.SortFieldOf` | src/routes/tasks.js:35 | the sort field defaults to "createdAt" when missing or empty |
| `TaskQuery.StatusRankIsNameOrder` | src/routes/tasks.js:51 | sorting by status ranks statuses in the lexicographic order of their stored strings |
| `TaskQuery.PriorityRankIsNameOrder` | src/routes/tasks.js:51 | sorting by priority ranks priorities in the lexicographic order of their stored strings |
| `TaskQuery.FieldOf` | src/routes/tasks.js:51 | "createdAt", "updatedAt", "dueDate", "status" and "priority" each select their own field, named back by `FieldName`; every other name orders nothing |
| `TaskQuery.FieldNamesRoundTrip` | src/routes/tasks.js:51 | every orderable field is read back from its name |
| `TaskQuery.SortKey` | src/routes/tasks.js:51 | times and due dates are keyed by their value; a missing due date is the only key below every date; a field without a modelled order keys every task equally |
| `TaskQuery.DirectedKey` | src/routes/tasks.js:51 | the `sortOrder` of line 36 applied to the key: ascending keeps it, descending negates it, so both directions sort the directed key upwards (a definition, no contract) |
| `TaskQuery.Insert` | src/routes/tasks.js:51 | inserting into a sorted sequence keeps it sorted and adds exactly that task |
| `TaskQuery.SortBy` | src/routes/tasks.js:51 | the sorted result is ordered by the key in the requested direction and is a permutation of the selection |
| `TaskStats.Counted` | src/routes/tasks.js:159-166 | the conditions of the eight counts: the caller's own tasks, with a given status, with a given priority, overdue (a due date before now and not completed), or all (a definition, no contract) |
| `TaskStats.Count` | src/routes/tasks.js:159-166 | a count never exceeds the number of stored tasks |
| `TaskStats.SummaryOf` | src/routes/tasks.js:157-172 | pending+inProgress+completed = total, high+medium+low = total, overdue <= total - completed |
| `TaskStats.StatusCountsPartition` | src/routes/tasks.js:159-166 | the three status counts add up to the owner's total |
| `TaskStats.PriorityCountsPartition` | src/routes/tasks.js:162-166 | the three priority counts add up to the owner's total |
| `TaskStats.OverdueExcludesCompleted` | src/routes/tasks.js:161-166 | overdue and completed tasks are disjoint within the total |
| `TaskStats.NoOwnedTasksCountsZero` | src/routes/tasks.js:157-167 | every count is 0 for a caller who owns no task |
| `TaskStats.NoOwnedTasksSummaryZero` | src/routes/tasks.js:157-172 | the summary of a caller without tasks is all zeros |
| `TaskStats.CountAgreesWithList` | src/routes/tasks.js:159-166 | the summary's total and per-status counts equal the list's totals for the same conditions |
| `TaskRoutes.IdShapeExamples` | src/routes/tasks.js:74 | a malformed id, 23 digits and a non-hex digit fail the shape; 24 mixed-case hex digits pass |
| `TaskRoutes.IsObjectIdShape` | src/routes/tasks.js:74 | exactly 24 hex digits of either case; such an id reads, lower-cased, as the 24 lower-case hex digits of an object id |
| `TaskRoutes.CanonicalId` | src/routes/tasks.js:77 | the object id the store compares: the same length, each hex letter lower-cased |
| `TaskRoutes.CanonicalIdOfStoredId` | src/routes/tasks.js:77 | a stored id is its own canonical form, and the canonical form of a well-shaped id is a stored id |
| `TaskRoutes.Owns` | src/routes/tasks.js:77 | the `{ _id: id, userId }` lookup filter, also used at lines 122 and 143: the stored id equals the requested id lower-cased, and the owner is the caller (a definition, no contract) |
| `TaskRoutes.FindOwned` | src/routes/tasks.js:77 | finds the first task with that id (letter case ignored) AND that owner; none exactly when no stored task has both |
| `TaskRoutes.NewTask` | src/routes/tasks.js:95-100 | the created record has the given id and the caller as owner even when the body carried a userId; title, description and due date from the body; omitted status and priority become pending and medium, given ones are kept; created and updated times are now |
| `TaskRoutes.Patched` | src/routes/tasks.js:120-125 | an update keeps id, owner and creation time and sets updatedAt to now; each supplied field takes the new value and each unsupplied one keeps the old |
| `TaskRoutes.EmptyPatchOnlyRefreshes` | src/routes/tasks.js:120 | an empty body changes only updatedAt |
| `TaskRoutes.ForeignTaskIsNotFound` | src/routes/tasks.js:77-80 | a task with that id owned by someone else is not found |
| `TaskRoutes.LookupIgnoresIdCase` | src/routes/tasks.js:77 | a lookup by a well-shaped id finds the same task as a lookup by its lower-cased form |
| `TaskRoutes.UpperCaseRequestFindsTask` | src/routes/tasks.js:77 | a task stored as "65a1b2c3d4e5f6a7b8c9d0ef" is found when requested as "65A1B2C3D4E5F6A7B8C9D0EF" |
| `TaskRoutes.CreatedTaskIsFound` | src/routes/tasks.js:77-101 | a task created with a fresh id in stored form is what a lookup by that id and owner finds |
| `TaskRoutes.CreateAddsOneToOwnList` | src/routes/tasks.js:95-101 | creating a task appends exactly that task to the caller's unfiltered selection |
| `TaskRoutes.SelectIgnoresForeignUpdate` | src/routes/tasks.js:121-125 | replacing another owner's task leaves a filter's selection unchanged |
| `TaskRoutes.SelectIgnoresForeignRemoval` | src/routes/tasks.js:143 | removing another owner's task leaves a filter's selection unchanged |
| `TaskRoutes.UpdateInvisibleToOthers` | src/routes/tasks.js:121-125 | the caller's update leaves every other user's list unchanged |
| `TaskRoutes.DeleteInvisibleToOthers` | src/routes/tasks.js:143-147 | the caller's delete leaves every other user's list unchanged |
| `TaskRoutes.TwoCreatedTasksList` | tests/public.test.js:139-152 | two tasks created by a caller with none are the caller's two matches, and the default page lists both |
| `TaskRoutes.DefaultPageHoldsShortList` | src/routes/tasks.js:31-53 | without page or limit, a selection of at most ten tasks is listed in full |
| `TaskRoutes.TwoTasksMakeTwoPagesOfOne` | src/routes/tasks.js:49-60 | two matches at limit 1 make two pages, and page 2 holds one task |
| `TaskRoutes.NoOwnedTasksSelectNothing` | src/routes/tasks.js:39-54 | a caller without tasks selects nothing |
| `TaskRoutes.TaskStore.List` | src/routes/tasks.js:23-63 | schema error gives 400 with its message; otherwise 200 with the sorted window of the caller's matching tasks, total = all matches, pages = ceil(total/limit), at most limit tasks, each owned by the caller and equal to the requested status/priority |
| `TaskRoutes.TaskStore.Get` | src/routes/tasks.js:71-81 | a malformed id gives 400 "Invalid task ID format"; 404 "Task not found" exactly when no task has that id and owner; otherwise 200 with the first task the lookup finds |
| `TaskRoutes.TaskStore.Create` | src/routes/tasks.js:89-102 | schema error gives 400 and no change; otherwise 201 with the new task, which is appended and the store is otherwise unchanged; stored ids stay unique lower-case object ids |
| `TaskRoutes.TaskStore.Update` | src/routes/tasks.js:110-129 | id shape checked before the body (400 either way, no change); no owned match gives 404 and no change; otherwise only that task is replaced by its patched version, 200 |
| `TaskRoutes.TaskStore.Delete` | src/routes/tasks.js:137-147 | malformed id gives 400, no owned match gives 404, neither changes the store; otherwise exactly that task is removed, no task with that id remains, reply "Task deleted successfully" |
| `TaskRoutes.TaskStore.Stats` | src/routes/tasks.js:155-173 | read-only 200 with the summary counts, which partition the total and bound overdue |
| `ErrorHandler.Join` | src/middleware/errorHandler.js:18-20 | no messages join to the empty string; a join starts with the first message |
| `ErrorHandler.JoinAppend` | src/middleware/errorHandler.js:18-20 | joined messages stay in order: the join of a+b is join(a), separator, join(b) |
| `ErrorHandler.JoinEmptyIff` | src/middleware/errorHandler.js:18-20 | the join is empty only for no message or a single empty one |
| `ErrorHandler.Classify` | src/middleware/errorHandler.js:2-22 | the last matching rule wins: a ValidationError gives its joined messages and 400; else code 11000 gives "Duplicate field value entered" and 400; else a CastError gives "Resource not found" and 404; else the error's own message and status code |
| `ErrorHandler.StatusOr` | src/middleware/errorHandler.js:24 | `statusCode || 500`: an absent or zero status code gives the fallback, any other is kept (a definition, no contract) |
| `ErrorHandler.MessageOr` | src/middleware/errorHandler.js:26 | `message || 'Server Error'`: an absent or empty message gives the fallback, any other is kept (a definition, no contract) |
| `ErrorHandler.HandleError` | src/middleware/errorHandler.js:1-28 | success is false; the stack is present only in development; ValidationError gives 400 with the joined messages; code 11000 (if not a ValidationError) gives 400 "Duplicate field value entered"; CastError (without code 11000) gives 404 "Resource not found"; anything else keeps a non-zero statusCode or 500 and a non-empty message or "Server Error" |
| `ErrorHandler.ValidationMessagesJoined` | src/middleware/errorHandler.js:17-22 | a validation error with non-empty messages answers 400 with them joined by ", " |
| `ErrorHandler.ValidationOverridesEarlierRules` | src/middleware/errorHandler.js:7-22 | a validation error's reply does not depend on its code, status code or message: checked last, it wins |
| `ErrorHandler.DuplicateKeyOverridesCast` | src/middleware/errorHandler.js:7-15 | a CastError carrying code 11000 answers 400 "Duplicate field value entered" |
| `ErrorHandler.EmptyValidationErrorFallsBack` | src/middleware/errorHandler.js:17-26 | a validation error without field messages answers 400 "Server Error" |
| `ErrorHandler.ZeroStatusIs500` | src/middleware/errorHandler.js:24 | an own status code of 0 is falsy and answers 500 |
| `ErrorHandler.StackOnlyInDevelopment` | src/middleware/errorHandler.js:27 | the body has a stack exactly in development mode when the error has one |
| `AuthRoutes.Rejects` | src/routes/auth.js:14 | a schema result stops register (line 14) and login (line 59) exactly when it has a non-empty first message (a definition, no contract) |
| `AuthRoutes.ExpiresIn` | src/routes/auth.js:37 | the expiry is JWT_EXPIRES_IN when set and non-empty, else "24h" |
| `AuthRoutes.SignToken` | src/routes/auth.js:29-38 | no token exactly when the secret is missing or empty; otherwise the token signs `{userId}` with the secret and the expiry |
| `AuthRoutes.PublicView` | src/routes/auth.js:89-93 | the reply's `user` object, also built at lines 43-47: id, name and email, never the password hash (a definition, no contract) |
| `AuthRoutes.NewUser` | src/routes/auth.js:26 | the saved user has the given email and the hash of the given password, and shows as the new id with the given name and email |
| `AuthRoutes.Login` | src/routes/auth.js:55-94 | schema error 400; unknown email and wrong password both 401 "Invalid credentials"; a matching password with no secret 500 "JWT secret not configured"; 200 exactly when the email is known, the password matches and a secret is set, and then the whole body: "Login successful", a token over the user's id and `{id, name, email}` |
| `AuthRoutes.UnknownEmailLooksLikeWrongPassword` | src/routes/auth.js:64-73 | an unknown email and a wrong password get identical replies |
| `AuthRoutes.UserTable.Register` | src/routes/auth.js:10-48 | schema error 400 and no change; known email 400 "User already exists with this email" and no change; otherwise exactly one user is added, then 500 if no secret, else 201 with a token and `{id, name, email}` |
| `AuthRoutes.RegisterThenLogin` | src/routes/auth.js:64-94 | after a registration saved a user, logging in with the same email and password answers 200 with that user's id, provided the password comparison accepts the password against its own hash and a signing secret is set (without a secret both routes answer 500) |
| `AuthRoutes.RegisterTwice` | tests/public.test.js:68-83 | a second registration of the same email answers 400 and the table keeps the single first user |

## Left out

- The request schemas (src/utils/validation.js) are empty stubs in the source. Each schema's outcome is an input: a value plus, on failure, its first message.
- The authentication middleware (src/middleware/auth.js) is mostly unfinished in the source. The authenticated caller's id is a parameter of every task route.
- The user model (src/models/User.js) is not part of this model. What it does to a password when it saves it is the function parameter `hash`.
- The Mongoose task schema (src/models/Task.js:15-35) is unfinished in the source. Only the two enumerations are modelled. Title trimming and length limits belong to the schemas.
- The store's `$regex` search with the `i` option is the uninterpreted predicate `regex(text, term)`.
- SortBy: it states sortedness and permutation only. The store also leaves the order of ties open. The model keeps ties in store order.
- TaskQuery.SortKey: sorting by string fields other than status and priority (such as title) is not modelled. Such fields, and fields no task has, compare equal.
- Object-id generation and automatic timestamps are not modelled. Create and Register take the new id and the time `now` as parameters. Create requires that the id is not already stored, which the database guarantees, and that it is in the form an object id prints as: 24 lower-case hex digits.
- The conversion of a requested id into an object id is modelled only for the ids the handlers pass on, which already have the 24-hex-digit shape: it lower-cases the hex letters.
- `page` and `limit` are modelled as non-negative parsed numbers, because the query schema is meant to demand values of at least 1; in the source that schema is still an empty stub (src/utils/validation.js:28-35). What the store does with a negative skip or limit is not modelled. Neither is a maximum on limit, which the schema is meant to enforce.
- Times are non-negative milliseconds. Dates before 1970 are not modelled.
- An update body carrying fields outside the update schema (such as `userId`) is not modelled.
- The concurrent `Promise.all` of the stats route is not modelled. The eight counts are taken over one snapshot.
- Interleaving of requests is not modelled: each route runs as one atomic step over one snapshot of the store, although the source can interleave with other requests at every `await`. Two places where this matters:
  - Register checks and then saves in two steps, `User.findOne` (src/routes/auth.js:20) and `user.save()` (src/routes/auth.js:27). Two concurrent registrations of one email can both pass the check. Keying the table by email makes email uniqueness hold by construction, so the model does not show this.
  - List reads the store twice, `Task.find` (src/routes/tasks.js:50-53) and `Task.countDocuments` (src/routes/tasks.js:54). A create or delete in between can make `total` disagree with the page. In the model both reads see the same store.
- The `catch` branches are not modelled: the 500 "Internal server error" of the task routes and the `err.message` replies of the auth routes. These cover database failures and crashes such as a schema error without `details`. The `console.log` and `console.error` calls are left out too.
- In the error responder, a ValidationError without an `errors` object is not modelled (`Object.values(undefined)` throws). Express's own rejection of an invalid status code is not modelled either.
- bcrypt comparison and JWT signing are external cryptography, kept uninterpreted. JWT verification belongs to the middleware, which is not modelled.
- src/server.js, tests/setup.js and jest.config.js are process setup and test harness: database connection, listening, environment loading.
