# TaskFlow server actions in Dafny

TaskFlow is a small project and task manager built on Next.js. Its behaviour lives in the
server actions under `app/actions/`, in the route guard `middleware.ts` and in the CSRF
helpers `lib/csrf.ts`. This project models those parts in Dafny and proves properties of them.

The modules are:

- **common.dfy** holds the shared values: `Option`, the `ActionResult` that every mutating action
  returns (`Success(id?)`, or `Failure` with a map from field names to messages, where `_form`
  holds form-level errors), and the decimal rendering used in labels and messages.
- **model.dfy** holds the rows of the four tables (users, projects, tasks, notifications). It also
  models bcrypt's password check through the 72 key bytes it derives from a password (`BcryptKey`).
- **schema.dfy** holds the zod schemas, applied to what `FormData.get` returns. A missing field is
  `None` (`null`), so it fails `.optional()` and `.default(...)`. Every field is checked, and each
  failure is reported under its own name.
- **tables.dfy** holds the `where` filters and bulk writes as functions on maps: e-mail lookup,
  authentication, ownership, the task cascade of a project delete, and marking all notifications
  read. It also holds the integrity constraints of the tables (`Consistent`) and the lemmas that
  each kind of write keeps them.
- **ordering.dfy** holds ordered queries (`orderBy ... desc`, `take`) and JavaScript's
  `sort(...).slice(0, n)`.
- **triggers.dfy** holds the three notification trigger rules: the 24-hour due window, the
  self-assignment exclusion and the project-owner notice.
- **actions.dfy** holds `class Store`: the four tables as map fields plus the `user_id` cookie as
  `session`. Each server action of `auth.ts`, `projects.ts`, `tasks.ts` and `notifications.ts`
  is a method or a read-only function on it. Every mutating method states:
  - each error result in the source's order;
  - that no error path writes anything;
  - the exact new state on success;
  - that the integrity invariant `Valid()` is kept.
- **analytics.dfy** holds the dashboard aggregations: status and priority charts (a counting fold),
  the weekly completion loop, the productivity counts and the recent-activity feed.
- **middleware.dfy** holds the redirect decision of `middleware.ts` and its path matcher.
- **csrf.dfy** holds token generation as the hex encoding of 32 bytes kept in a cookie, and token
  verification.

Several inputs are parameters of the model:

- Each action's `try ... catch` is a `storageFails` flag: when it is set, the catch block's
  generic error comes back and nothing is written.
- Fresh ids (`cuid()`) and the clock (`now`, `@updatedAt`) are passed in.
- Date parsing (`new Date(s)`), the date-fns week functions and `randomBytes(32)` are passed in.
- So is the row order of a query without `orderBy`.

## Model

| member | source | states |
|---|---|---|
| Common.NatToString | app/actions/analytics.ts:124-125 | a number in a template literal is rendered as decimal digits with no leading zero |
| Common.NatToStringRoundTrip | app/actions/analytics.ts:124-125 | the rendered label reads back as the number it came from |
| Common.NatToStringInjective | app/actions/analytics.ts:124-125 | different week numbers give different "Week n" labels |
| Model.BcryptKey | app/actions/auth.ts:50 | the digest depends on exactly 72 key bytes: the first 72 UTF-8 bytes of a long password, or a short password's bytes followed by NUL and repeated |
| Model.Hash | app/actions/auth.ts:50 | `bcrypt.hash(password, 10)` uses cost 10, and the password it was made from is accepted by `compare` |
| Model.Compare | app/actions/auth.ts:108 | `bcrypt.compare` accepts a password exactly when it yields the digest's key bytes |
| Model.LongPasswordsCollide | app/actions/auth.ts:108 | two passwords that agree on their first 72 UTF-8 bytes each sign in against the other's hash |
| Schema.Utf16Length | app/actions/auth.ts:10-12 | zod's `min` compares the JavaScript length: one unit per character, two for a character outside the Basic Multilingual Plane, so between the character count and twice it |
| Schema.ValidateProject | app/actions/projects.ts:8-11 | parsing succeeds exactly when the name is non-empty and a description is present, and then yields those values; otherwise every failing field, and only those, is reported with its message |
| Schema.ValidateTask | app/actions/tasks.ts:8-15 | succeeds exactly when the title and projectId are non-empty, a description is present, and the status and priority are enum members (a missing one fails, since the defaults ignore `null`); dueDate never fails; otherwise each failing field is reported with zod's message |
| Schema.ValidateSignup | app/actions/auth.ts:9-13 | succeeds exactly when the name is at least 2 UTF-16 units long, the e-mail is valid and the password at least 8 units long; otherwise each failing field is reported |
| Schema.AstralNameAccepted | app/actions/auth.ts:10 | a one-character name outside the Basic Multilingual Plane is long enough for `min(2)` |
| Schema.ValidateLogin | app/actions/auth.ts:15-18 | succeeds exactly when the e-mail is valid and the password is non-empty; otherwise each failing field is reported |
| Tables.FindUserByEmail | app/actions/auth.ts:96-98 | finds the user registered under the e-mail, or reports that no user has it |
| Tables.Authenticate | app/actions/auth.ts:96-115 | signs in a user exactly when one is registered under the e-mail and the password matches its hash; an unknown e-mail and a wrong password give the same None |
| Tables.SignupThenLogin | app/actions/auth.ts:38-59 | adding a user with a fresh e-mail keeps e-mails unique, and authenticating with that e-mail and password then finds exactly the new user |
| Tables.CascadeDelete | app/actions/projects.ts:197-200 | removes exactly the tasks of the project and leaves every other task as it was |
| Tables.MarkAllRead | app/actions/notifications.ts:78-86 | sets `isRead` on the user's notifications and changes no other user's notification or key |
| Tables.MarkAllReadSettles | app/actions/notifications.ts:78-86 | afterwards the user has no unread notification, and doing it again changes nothing |
| Tables.MarkAllReadClears | app/actions/notifications.ts:78-86 | every notification of the user is read afterwards |
| Tables.AddUserConsistent | app/actions/auth.ts:53-59 | inserting a user under a fresh e-mail keeps the table constraints |
| Tables.PutProjectConsistent | app/actions/projects.ts:38-46 | writing a project owned by an existing user keeps the table constraints |
| Tables.DropProjectConsistent | app/actions/projects.ts:197-204 | deleting a project together with its tasks leaves no task pointing at a missing project |
| Tables.PutTaskConsistent | app/actions/tasks.ts:61-71 | writing a task under an existing project, with a valid priority and an existing assignee, keeps the table constraints |
| Tables.DropTaskConsistent | app/actions/tasks.ts:239-241 | deleting a task keeps the table constraints |
| Tables.PutNotificationConsistent | app/actions/notifications.ts:116-127 | writing a notification under its own id keeps the table constraints |
| Tables.MarkAllReadConsistent | app/actions/notifications.ts:78-86 | the bulk read update keeps the table constraints |
| Ordering.EnumerationSize | app/actions/analytics.ts:16-26 | a list of query rows with each row once is as long as the set of rows |
| Ordering.Listing | app/actions/projects.ts:65-72 | an ordered query returns every matching row once, newest key first |
| Ordering.TakeOfListing | app/actions/notifications.ts:18-24 | `take: n` on an ordered query keeps min(n, rows) distinct rows in order, and no row left out is newer than a row kept |
| Ordering.SliceTo | app/actions/analytics.ts:305 | `slice(0, end)` keeps a prefix of the length JavaScript gives, a negative end counting back from the end |
| Ordering.Insert | app/actions/analytics.ts:304 | inserting into a descending list keeps it descending and adds exactly the one element |
| Ordering.SortDesc | app/actions/analytics.ts:304 | the sort is a permutation of its input, ordered by descending key |
| Ordering.PrefixOf | app/actions/analytics.ts:305 | a prefix of a sorted list stays sorted, takes nothing twice, and keeps the largest keys |
| Triggers.DueSoon | app/actions/notifications.ts:153-155 | the whole-millisecond test equals `diffHours > 0 && diffHours <= 24` on the real-valued hours until the due date |
| Triggers.HoursUntil | app/actions/notifications.ts:153-159 | `Math.ceil` of the hours until the due date: the least whole number of hours covering the remaining time |
| Triggers.DueSoonHours | app/actions/notifications.ts:153-159 | a due-soon reminder always announces between 1 and 24 hours |
| Triggers.DueReminder | app/actions/notifications.ts:148-166 | there is a reminder exactly when the task has an assignee and a due date later than now and at most 24 hours ahead; it goes to the assignee as "task_due" about the task, with the rounded-up hour count in the message |
| Triggers.DueMessageHours | app/actions/notifications.ts:159 | the reminder's text determines the hour count it announces |
| Triggers.AssignedNotice | app/actions/notifications.ts:184-196 | there is a notice exactly when the task has an assignee other than the assigner; it goes to the assignee as "task_assigned" about the task |
| Triggers.ProjectUpdateNotice | app/actions/notifications.ts:212-220 | the notice goes to the project's owner as "project_update" about the project |
| Actions.Store.CurrentUserId | app/actions/auth.ts:140-162 | the user an action acts for is the one `getCurrentUser` returns: the cookie's id, when it names a stored user |
| Actions.Store.GetCurrentUser | app/actions/auth.ts:140-162 | null without a cookie, with an empty cookie, for an unknown id or when the lookup fails; otherwise that user's id, name and e-mail |
| Actions.Store.Signup | app/actions/auth.ts:20-77 | field errors, a storage failure and a taken e-mail each return their own error and leave the users and the cookie unchanged; on success exactly one user is added, holding `Hash(password)`, the cookie names the new id and login with the same e-mail and password finds it |
| Actions.Store.Login | app/actions/auth.ts:79-133 | field errors and storage failures return their own error; an unknown e-mail and a wrong password return the same `_form` error; on success the cookie names the user registered under that e-mail |
| Actions.Store.Logout | app/actions/auth.ts:135-138 | the cookie is gone, `getCurrentUser` returns null afterwards, and `Valid()` holds afterwards exactly when it held before |
| Actions.SignupLoginRoundTrip | app/actions/auth.ts:50-125 | after a successful signup, login with the same e-mail and password succeeds with the new user's id and signs that user in |
| Actions.Store.CreateProject | app/actions/projects.ts:13-55 | not logged in, invalid fields and storage failure each return their own error and add nothing; on success exactly one project owned by the caller is added, with the given name and description, and its id is returned |
| Actions.Store.GetProjects | app/actions/projects.ts:57-79 | [] without a user; otherwise exactly the caller's projects, each once, most recently updated first |
| Actions.Store.GetProject | app/actions/projects.ts:81-108 | null for a missing project, a foreign project or without a user; otherwise the project with exactly its tasks, newest-updated first |
| Actions.Store.UpdateProject | app/actions/projects.ts:110-168 | login is checked first, then validation (so a foreign project still gets field errors), then ownership; each failure writes nothing; on success only that project's name, description and update time change |
| Actions.Store.DeleteProject | app/actions/projects.ts:170-215 | a failed check deletes neither the project nor its tasks; on success the project and exactly its tasks are gone and every other row is kept |
| Actions.StoredDueDate | app/actions/tasks.ts:67 | a missing or empty due-date field is stored as null; otherwise the stored value is the parsed date, and it is null only when the date cannot be read |
| Actions.DueDateRejected | app/actions/tasks.ts:61-80 | a write is rejected for its due date only when the field is non-empty and cannot be read as a date |
| Actions.Store.CreateTask | app/actions/tasks.ts:17-82 | login, then validation, then ownership of the named project; a missing or foreign project adds nothing; an unreadable due date fails the write; on success one task is added under that project, assigned to the caller, with no due date for an empty or missing field |
| Actions.Store.UpdateTaskStatus | app/actions/tasks.ts:84-131 | not logged in, "Task not found" and "You do not have permission to update this task", in that order, write nothing; on success only the task's status (stored unchecked) and update time change |
| Actions.Store.UpdateTask | app/actions/tasks.ts:133-204 | the same checks after validation; on success the task's fields change but its project never does |
| Actions.Store.DeleteTask | app/actions/tasks.ts:206-252 | exactly that task is removed when the caller owns its project; every failure writes nothing |
| Actions.Store.GetTasks | app/actions/tasks.ts:254-288 | [] for no user or a missing or foreign project; otherwise exactly the project's tasks, newest-updated first |
| Actions.Store.GetTask | app/actions/tasks.ts:290-325 | the task exactly when its parent project belongs to the caller, otherwise null |
| Actions.Store.GetNotifications | app/actions/notifications.ts:8-31 | [] without a user; otherwise at most `limit` distinct notifications of the caller, unread ones only unless `includeRead`, newest first, none left out newer than one returned |
| Actions.Store.MarkNotificationAsRead | app/actions/notifications.ts:34-64 | sets `isRead` only on the notification with that id and the caller's user id; a missing or foreign id gives the generic error; nothing else changes |
| Actions.Store.MarkAllNotificationsAsRead | app/actions/notifications.ts:67-97 | without a user nothing changes; on success all of the caller's notifications are read and other users' are unchanged |
| Actions.Store.CreateNotification | app/actions/notifications.ts:100-135 | inserts one unread notification with the given fields, unless the write fails |
| Actions.Store.CreateTaskDueNotification | app/actions/notifications.ts:138-171 | succeeds exactly for an existing task with an assignee and a due date, and notifies the assignee only inside the 24-hour window |
| Actions.Store.CreateTaskAssignedNotification | app/actions/notifications.ts:174-200 | creates nothing for a missing task, no assignee or self-assignment; otherwise notifies the assignee |
| Actions.Store.CreateProjectUpdateNotification | app/actions/notifications.ts:203-228 | notifies the owner of an existing project and creates nothing for a missing one |
| Analytics.Bump | app/actions/analytics.ts:28-35 | one more occurrence of the key, and the total grows by one |
| Analytics.BumpKeys | app/actions/analytics.ts:28-35 | counting a key keeps the keys in place and appends the key when it is new |
| Analytics.EnumKeysOrdinary | app/actions/analytics.ts:28-35 | no status or priority the schemas admit is a property name of `Object.prototype` |
| Analytics.Tally | app/actions/analytics.ts:28-35 | the `reduce` gives one bucket per distinct key, counting its occurrences, with counts summing to the number of rows |
| Analytics.TallyBuckets | app/actions/analytics.ts:28-35 | each bucket's count is the number of occurrences of its key, and there are as many buckets as distinct keys |
| Analytics.Chart | app/actions/analytics.ts:38-46 | one named entry per bucket, and the values add up to the bucket total |
| Analytics.ColumnCount | app/actions/analytics.ts:16-35 | a value occurs in a query's column as often as there are rows holding it |
| Analytics.Distribution | app/actions/analytics.ts:28-46 | one entry per distinct key, valued by the number of rows with that key, the values summing to the row count |
| Analytics.StatusLabel | app/actions/analytics.ts:38-43 | "todo" is shown as "To Do", "in-progress" as "In Progress", and every other status as "Completed" |
| Analytics.TaskStatusDistribution | app/actions/analytics.ts:8-51 | [] without a user; otherwise the caller's tasks charted by status, named "To Do", "In Progress" or "Completed" |
| Analytics.StatusNames | app/actions/analytics.ts:38-46 | every status chart name is one of the three labels |
| Analytics.UpperChar | app/actions/analytics.ts:85 | `toUpperCase` maps a lower-case ASCII letter to its capital and leaves other characters alone |
| Analytics.Capitalize | app/actions/analytics.ts:85 | the same length, the first character upper-cased and the rest unchanged |
| Analytics.TaskPriorityDistribution | app/actions/analytics.ts:54-92 | [] without a user; otherwise the caller's tasks charted by capitalised priority, each name "Low", "Medium" or "High" |
| Analytics.PriorityNames | app/actions/analytics.ts:84-87 | every priority chart name is one of the three capitalised levels |
| Analytics.PriorityLevelName | app/actions/analytics.ts:85 | capitalising a priority level gives "Low", "Medium" or "High" |
| Analytics.RecentWeeks | app/actions/analytics.ts:107-128 | the entry at position j counts back `i - 1 - j` weeks |
| Analytics.RecentWeeksLabels | app/actions/analytics.ts:107-128 | the weeks are labelled "Week 1" up to "Week n", oldest first, each counting the tasks completed in its window |
| Analytics.WeeklyTaskCompletion | app/actions/analytics.ts:95-135 | [] without a user; otherwise exactly `weeks` entries (none for a non-positive count), the loop building the oldest-first chart |
| Analytics.ProductivitySummary | app/actions/analytics.ts:138-203 | all zero without a user; otherwise the caller's task count, completed count and this and last week's completions, with completed ≤ total and each week's count ≤ completed |
| Analytics.ActivityIds | app/actions/analytics.ts:280-300 | a task activity is a completion exactly when the task is completed; ids carry the "project-" or "task-" prefix and never clash |
| Analytics.Activities | app/actions/analytics.ts:280-300 | the project activities then the task activities, all attributed to the caller |
| Analytics.Feed | app/actions/analytics.ts:303-305 | the merged activities sorted newest first and cut by `slice(0, limit)`: exactly min(limit, n) of the n entries for a non-negative limit, n + limit (at least 0) for a negative one, and none cut newer than one kept |
| Analytics.RecentProjects | app/actions/analytics.ts:264-268 | min(5, owned) of the caller's projects, distinct, newest first, and none left out updated later than one taken |
| Analytics.RecentTasks | app/actions/analytics.ts:270-277 | min(5, owned) of the tasks in the caller's projects, distinct, newest first, and none left out updated later than one taken |
| Analytics.DisplayName | app/actions/analytics.ts:287 | `user.name || user.email`: the name when it is non-empty, the email otherwise |
| Analytics.GetRecentActivities | app/actions/analytics.ts:254-310 | empty without a login or on a storage failure; otherwise newest first, drawn from the activities of `RecentProjects` and `RecentTasks`, exactly min(limit, n) of those n entries for a non-negative limit and n + limit (at least 0) for a negative one, none cut newer than one kept, all attributed to the caller |
| Middleware.Guard | middleware.ts:4-19 | a present, non-empty cookie on "/login" or "/signup" redirects to "/dashboard"; no cookie on a path starting with "/dashboard" redirects to "/login"; everything else passes |
| Middleware.Route | middleware.ts:21-23 | the guard runs only on "/dashboard", paths below it and the two auth pages |
| Middleware.RedirectsExclusive | middleware.ts:9-16 | a signed-in visitor is never sent to the login page, and a signed-out one never to the dashboard |
| Middleware.RedirectTargetServed | middleware.ts:9-18 | the middleware never redirects to a path it would itself redirect for the same cookie |
| Middleware.GuardedPaths | middleware.ts:14-23 | every page below "/dashboard/" is guarded; "/dashboards" is not matched |
| Csrf.HexEncode | lib/csrf.ts:6 | two lower-case hex digits per byte |
| Csrf.HexRoundTrip | lib/csrf.ts:6 | the hex encoding reads back as the bytes it came from |
| Csrf.HexEncodeInjective | lib/csrf.ts:6 | different random bytes give different tokens |
| Csrf.CsrfCookies.GenerateCsrfToken | lib/csrf.ts:5-14 | the token is the 64-character lower-case hex form of the 32 random bytes, it is stored as the cookie, and it then verifies |
| Csrf.CsrfCookies.VerifyCsrfToken | lib/csrf.ts:17-21 | false without a non-empty cookie; otherwise true exactly when the token equals the cookie |

## Left out

- Model.Hash: the digest keeps bcrypt's 72 key bytes so that `Compare` can decide a match. The salt, the Blowfish computation, its one-way property and the cost of hashing are not modelled.
- Schema.ValidEmail: zod's e-mail regular expression is replaced by a simpler pattern (one `@`, a non-empty local part, a dot inside the domain, no spaces).
- Actions.Store: inside the actions the signed-in user is read from the cookie and the users table. A failing lookup inside `getCurrentUser`, which makes an action answer "You must be logged in", is modelled only in `GetCurrentUser`.
- Actions.Store.DeleteProject: the source deletes the tasks and then the project in two separate calls. A failure between the two calls would leave the tasks deleted, but the model treats the operation as one atomic step. Every action likewise fails before writing anything.
- Concurrency: races between requests (for example two signups with the same e-mail) are not modelled. Actions are sequential steps.
- `revalidatePath`, the redirect after logout, and the cookie options (`httpOnly`, `secure`, `maxAge`, `sameSite`) have no effect on the modelled state.
- Analytics.ProductivitySummary: `averageCompletionTime` (floating-point hours) and the query behind it are not modelled.
- Calendar: `startOfWeek`, `endOfWeek` and `subWeeks` from date-fns are abstract functions on millisecond timestamps, and `new Date(s)` is an abstract parser.
- Analytics.WeeklyTaskCompletion: `weeks` is an integer. A fractional argument is not modelled.
- Actions.Store.GetNotifications: `limit` is a natural number. Prisma's negative `take` is not modelled.
- Analytics.TaskStatusDistribution: states which entries the chart has, not their order. `Object.entries` lists integer-like keys first and then insertion order.
- Analytics.TaskStatusDistribution: counts every status as an ordinary key. The source counts into a plain `{}`, and `updateTaskStatus` stores any string. For a status in `Analytics.ObjectPrototypeKeys` the source differs: `"__proto__"` never becomes an entry, so the values no longer add up to the task count. A status such as "constructor" or "toString" gets a string value built from the inherited function. These keys are not modelled; the statuses and priorities the schemas admit are not among them (`EnumKeysOrdinary`).
- Analytics.TaskPriorityDistribution: states which entries the chart has, not their order, for the same reason.
- Ordering.SortDesc: the order among activities with equal timestamps is not stated.
- Analytics.GetRecentActivities: the order among equal timestamps is not stated either.
- Analytics.Capitalize: `toUpperCase` is modelled for ASCII letters only.
- Queries without `orderBy` (the rows of the two distribution queries) take their row order as a parameter. The contracts hold for every order.
- The Prisma schema is not part of this model. The following are taken as given: the `@updatedAt` bump on every update, the "active" project status default, and the unique index on `User.email`.
- `crypto.randomBytes` is the `random` parameter of `GenerateCsrfToken`.
- Middleware.RedirectTargetServed: is about the middleware alone, which only checks that the cookie is present. The dashboard layout (app/dashboard/layout.tsx) redirects to "/login" when `getCurrentUser` finds no user, and the middleware then sends "/login" back to "/dashboard". A cookie naming no stored user therefore loops between the two. The layout is not part of this model.
- Middleware: Next.js matching of `"/dashboard/:path*"` is taken to mean "/dashboard" itself and every path below it.
