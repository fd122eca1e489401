# ApplyFlow in Dafny

ApplyFlow is a job-application tracker. A user saves vacancies and moves an
application for each through a seven-stage pipeline:
saved, applied, screening, test, interview, offer, rejected. Each application
carries a "next step" with an optional due date. The dashboard turns those due
dates into overdue, today and upcoming reminders, and shows counts, a status
distribution and conversion rates. A todo list and a sign-in round it off.

The repository holds two variants, and both are modelled:

- `applyflow/`, with its shared `app/api/vacancies`, `app/api/analytics` and
  `lib/auth.ts`, keeps its data in SQLite (`applyflow/lib/db.ts`). Its
  routes work under a fixed test account. Its client pages are the dashboard,
  the kanban board, the todo list and the add-vacancy form.
- The Supabase variant (`app/dashboard/page.tsx` and `components/`) reads
  and writes through the Supabase client. Its parts are a dashboard page, a
  drag-and-drop board with optimistic updates, a next-step modal and a
  vacancy edit modal.

How the model is built:

- The SQLite store is a class `Db.Database` whose four tables are sequences
  in insertion order. A write statement is a method that keeps the primary
  keys, the unique email and the foreign keys (`Valid`). Each SELECT is a
  function over the tables.
- A route is a method over the store. Its request body is a parameter, and
  `None` stands for a body that is not JSON.
- A React component whose state changes is a class with that state as fields.
  Requests it sends, callbacks it invokes and refreshes it asks for are
  recorded in sequence fields or counters. Their outcomes are inputs.
- Clock readings (`now`), fresh ids and session tokens are parameters.
- Times are milliseconds since the epoch. `DATE` values are day numbers, and
  the local time zone is UTC.

Files:

- `base.dfy` holds JavaScript truthiness, filtering, sorting, trimming,
  splitting, day arithmetic and percentages, plus the HTTP response type.
- `pipeline.dfy` holds the status, source and priority enumerations.
- `db.dfy` is the store.
- `analytics.dfy`, `routes.dfy` and `auth.dfy` are the server side.
- The other files are the client side.

## Model

| member | source | states |
|---|---|---|
| Pipeline.AllStatusesComplete | applyflow/lib/db.ts:49 | The status list names each of the seven statuses allowed by the CHECK exactly once. |
| Pipeline.ParseStatus | applyflow/lib/db.ts:49 | Accepts exactly the seven status texts, and the parsed status prints back to the same text. |
| Pipeline.ParseSource | applyflow/lib/db.ts:33 | Accepts exactly the six source texts of the CHECK, with a round trip to the text. |
| Pipeline.ParsePriority | applyflow/lib/db.ts:90 | Accepts exactly high, medium and low, with a round trip to the text. |
| Db.StoredSource | applyflow/lib/db.ts:33 | A NULL source is stored as NULL; a source that passes the CHECK is stored as the source with that name. |
| Db.InsertOrIgnoreUser | applyflow/lib/db.ts:116-118 | The table is unchanged exactly when the id or the email is taken; otherwise the new row is appended. Uniqueness of id and email is preserved. |
| Db.UpdateVacancyRows | applyflow/lib/db.ts:154-165 | Only the owner's row with that id changes. It takes the new fields and `updated_at`. Ids, owners and creation times of all rows are kept. |
| Db.SetApplicationStatus | applyflow/lib/db.ts:206-215 | Only the owner's row changes. It takes the status, the next step, the due date and the applied date, and both `updated_at` and the status-change time become now. Id, owner, vacancy and creation time are kept everywhere. |
| Db.SetApplicationNextStep | applyflow/lib/db.ts:217-223 | Only the owner's row changes, and only in its next step, due date and `updated_at`. The status and the status-change time are never touched. |
| Db.UpdateTodoRows | applyflow/lib/db.ts:288-297 | Only the owner's row changes. It takes the new fields; id, owner, application and creation time are kept. |
| Db.DeleteTodoRows | applyflow/lib/db.ts:299-301 | Removes exactly the owner's rows with that id and keeps every other row. The table never grows. When no row matches, the table is unchanged. |
| Db.DeleteTodoRowsIsFilter | applyflow/lib/db.ts:299-301 | The delete keeps exactly the rows that do not match both the id and the owner, in their table order. |
| Db.UserByEmail | applyflow/lib/db.ts:124-126 | Returns a stored user with that email, and returns none exactly when no such user exists. |
| Db.UserById | applyflow/lib/db.ts:120-122 | Returns a stored user with that id, and returns none exactly when no such user exists. |
| Db.VacancyById | applyflow/lib/db.ts:138-152 | Returns only a vacancy with that id owned by that user, and returns none exactly when no such row exists. Another user's vacancy is never returned. |
| Db.VacanciesByUser | applyflow/lib/db.ts:134-136 | Returns exactly the user's vacancies, as a permutation of them, ordered by creation time descending. |
| Db.Join | applyflow/lib/db.ts:173-188 | For the inner join on `vacancy_id`: every row pairs an application with its own vacancy, and every application whose vacancy exists appears. |
| Db.JoinApps | applyflow/lib/db.ts:173-188 | The applications of the join are exactly the applications whose vacancy exists, each once and in table order. |
| Db.AppsPermutation | applyflow/lib/db.ts:187 | Reordering joined rows (as `ORDER BY` does) reorders their applications alike. |
| Db.ByUserApps | applyflow/lib/db.ts:173-188 | The sorted join of the user's applications holds exactly the user's applications that have a vacancy, each as often as in the table. |
| Db.ApplicationsByUser | applyflow/lib/db.ts:173-188 | The applications returned are a permutation of the user's applications that have a vacancy, so each appears exactly once. Each is joined with its own vacancy, and they come newest first. |
| Db.ApplicationById | applyflow/lib/db.ts:190-204 | Returns the owner's application with that id joined with its vacancy. None means no such application has a vacancy. |
| Db.StalledApplications | applyflow/lib/db.ts:233-243 | The applications returned are, in table order and each once, exactly those of the user that have a vacancy, were not updated for more than seven days and are neither offer nor rejected. Their number is the stalled count of the report. |
| Db.IsStalled | applyflow/lib/db.ts:240-242 | An application is stalled exactly when it belongs to the user, was last updated more than seven days ago and is saved, applied, screening, test or interview. |
| Db.OverdueReminders | applyflow/lib/db.ts:245-255 | The applications returned are, in table order and each once, exactly those of the user that have a vacancy, are due before today and are neither offer nor rejected. A NULL due date never qualifies. |
| Db.Groups | applyflow/lib/db.ts:226-231 | One group per status present, carrying that status's count. Groups are positive and distinct. |
| Db.StatusDistribution | applyflow/lib/db.ts:226-231 | A status has a group exactly when the user has an application in it. The group's count is that number, and no status appears twice. |
| Db.GroupsSum | applyflow/lib/db.ts:226-231 | The counts of the groups add up to the per-status counts. |
| Db.SumByStatusCons | applyflow/lib/db.ts:226-231 | One more row adds one to the count of exactly its status. |
| Db.SumByStatusNone | applyflow/lib/db.ts:226-231 | Without rows, every status count is zero. |
| Db.OccursOnce | applyflow/lib/db.ts:49 | Each status occurs once in the status list. |
| Db.CountsPartitionOwned | applyflow/lib/db.ts:226-231 | The seven per-status counts add up to the user's number of applications. |
| Db.DistributionTotal | applyflow/lib/db.ts:226-231 | The counts of the GROUP BY rows add up to the user's number of applications. |
| Db.SumCounts | applyflow/lib/db.ts:226-231 | No group's count exceeds the sum, and the sum is zero exactly when every count is zero. |
| Db.TodoOrderIsTotalPreorder | applyflow/lib/db.ts:277-286 | The todo ORDER BY is a total preorder, so sorting by it is well defined. |
| Db.TodosByUser | applyflow/lib/db.ts:277-286 | Returns exactly the user's todos, as a permutation. They are ordered by priority high, medium, low; then by due date with NULL first; then newest first. |
| Db.PriorityRank | applyflow/lib/db.ts:278-282 | Ranks lie in 1..3; rank 1 is exactly high and rank 3 exactly low. |
| Db.DueBefore | applyflow/lib/db.ts:283 | Only a dated todo can come after; a todo never comes before itself; an undated todo comes before exactly the dated ones; two dated todos go by day. |
| Db.TodoOrder | applyflow/lib/db.ts:277-286 | Priority decides first: a todo never precedes one of higher priority, and between different priorities the order is the rank order. With equal priority and different due dates, the due date decides. |
| Db.TodoOrderFields | applyflow/lib/db.ts:277-286 | A list sorted by the todo order satisfies each of the three ORDER BY keys. |
| Db.DeleteKeepsUnique | applyflow/lib/db.ts:299-301 | Deleting todos keeps the todo ids unique. |
| Db.Database.constructor | applyflow/lib/db.ts:15-20 | An empty store satisfies every key constraint. |
| Db.Database.CreateUser | applyflow/lib/db.ts:116-118 | The users table becomes the insert-or-ignore result, and the store stays valid. |
| Db.Database.CreateVacancy | applyflow/lib/db.ts:129-132 | Succeeds exactly when the id is free, the user exists and the source passes the CHECK. It then appends the row; on failure nothing changes. |
| Db.Database.UpdateVacancy | applyflow/lib/db.ts:154-165 | A valid source updates the owner's row. An invalid source fails exactly when it would hit an owned row, and changes nothing. |
| Db.Database.CreateApplication | applyflow/lib/db.ts:168-171 | Succeeds exactly when the id is free, the user and the vacancy exist and the status passes the CHECK. The row then gets no applied date and now as all three times; on failure nothing changes. |
| Db.Database.UpdateApplicationStatus | applyflow/lib/db.ts:206-215 | A valid status text updates the owner's row. An invalid one fails exactly when a row is selected, and changes nothing. |
| Db.Database.UpdateApplicationNextStep | applyflow/lib/db.ts:217-223 | The next-step update is applied and the store stays valid. |
| Db.Database.KeysKept | applyflow/lib/db.ts:206-223 | An update that keeps ids, owners and vacancies keeps id uniqueness and the foreign keys. |
| Db.Database.CreateTodo | applyflow/lib/db.ts:272-275 | Succeeds exactly when the id is free, the user and any named application exist and the priority passes the CHECK. It then appends the row; otherwise nothing changes. |
| Db.Database.UpdateTodo | applyflow/lib/db.ts:288-297 | A valid priority updates the owner's row. An invalid one fails exactly when a row is selected, and changes nothing. |
| Db.Database.DeleteTodo | applyflow/lib/db.ts:299-301 | Removes exactly the owner's todos with that id, and the store stays valid. |
| Analytics.CountOr | app/api/analytics/route.ts:34-57 | `find(...)?.count \|\| d`: d when the status has no group. Any other answer is the count of a group of that status. |
| Analytics.Total | app/api/analytics/route.ts:30 | The `reduce` total: no status count exceeds it, and it is zero exactly when every count is zero. |
| Analytics.FallbackUnreachable | app/api/analytics/route.ts:41-57 | Under the guard `(x \|\| 0) > 0` the `\|\| 1` fallback never changes the divisor. |
| Analytics.SavedToApplied | app/api/analytics/route.ts:35-36 | Never negative. It is the applied count as a percentage of the total: zero without applications, otherwise rate times total is applied times 100. |
| Analytics.Conversion | app/api/analytics/route.ts:41-57 | Never negative. It is the target stage's count as a percentage of the source stage's: zero when the source stage is empty, otherwise rate times source is target times 100. The `\|\| 1` divisor is never the fallback. |
| Analytics.ConversionMetrics | app/api/analytics/route.ts:31-59 | Four stages with their labels. Each count is the count of its target status, and each conversion is its guarded ratio. |
| Analytics.Assemble | app/api/analytics/route.ts:70-79 | The response carries the distribution, the stalled and overdue counts, the stages, the fixed time-in-stage table and the total. |
| Analytics.CountOrDistribution | app/api/analytics/route.ts:34-57 | Looking up a status in the store's distribution gives the user's count for it. |
| Analytics.StageOfStore | app/api/analytics/route.ts:41-57 | Over the store, each later conversion is target count over source count, times 100, and zero for an empty source. |
| Analytics.MetricsOfStore | app/api/analytics/route.ts:30-59 | Over the store, the total is the user's number of applications. Each stage count is the user's count in that status, and the first conversion is applied over the total. |
| Analytics.Get | app/api/analytics/route.ts:18-83 | The user is ensured first. A throwing query gives only a 500 and never a partial report; otherwise it answers 200 with the report assembled from the three queries. |
| Client.FromRowAsWritten | applyflow/lib/db.ts:173-188 | Under the keys the client reads, a row of the statement as written carries id, status and vacancy names, but no next step and no due date. |
| Client.FromRow | applyflow/app/dashboard/page.tsx:109 | The intended conversion carries the next step and its due date over from the row. |
| Client.FromRows | applyflow/app/dashboard/page.tsx:85 | Converts the list element by element, keeping its length and order. |
| Client.FromRowsAsWritten | applyflow/app/dashboard/page.tsx:85 | The list as received from the statement as written, element by element. |
| Dashboard.DueInstant | applyflow/app/dashboard/page.tsx:110 | A due date is the midnight that starts its day. |
| Dashboard.BucketByDay | applyflow/app/dashboard/page.tsx:99-120 | With d the due day and t today, the buckets are: overdue iff d < t, today iff d = t, upcoming iff t < d <= t+7, and no list iff d > t+7 or there is no due date. |
| Dashboard.BucketOf | applyflow/app/dashboard/page.tsx:108-119 | An application without a due date is in no list. Overdue means a due day before today, today means the due day is today, and upcoming means a due day after today and at most seven days later. |
| Dashboard.BucketIgnoresStatus | applyflow/app/dashboard/page.tsx:108-119 | The bucket does not depend on the status, so closed applications are still bucketed. |
| Dashboard.Bucketed | applyflow/app/dashboard/page.tsx:104-120 | A bucket holds exactly the applications of the list that fall into it. |
| Dashboard.BucketedAppend | applyflow/app/dashboard/page.tsx:108-120 | Bucketing distributes over concatenation, so every list keeps the input order. |
| Dashboard.BucketedSnoc | applyflow/app/dashboard/page.tsx:108-119 | One more application joins the end of exactly its own bucket and no other. |
| Dashboard.BucketsDisjoint | applyflow/app/dashboard/page.tsx:112-118 | No application is in two reminder lists. |
| Dashboard.BucketReminders | applyflow/app/dashboard/page.tsx:104-120 | The `forEach` loop leaves each array equal to its bucket of the whole list. |
| Dashboard.CountIn | applyflow/app/dashboard/page.tsx:321 | A status count never exceeds the number of applications. |
| Dashboard.CountInMono | applyflow/app/dashboard/page.tsx:458-478 | Counting over more statuses counts at least as many. |
| Dashboard.CountInUnion | applyflow/app/dashboard/page.tsx:423-425 | Counts over disjoint status sets add up. |
| Dashboard.CountInEvery | applyflow/app/dashboard/page.tsx:423-425 | Counting over all statuses counts every application. |
| Dashboard.ActiveCount | applyflow/app/dashboard/page.tsx:321 | The active count never exceeds the number of applications. |
| Dashboard.ActivePlusClosed | applyflow/app/dashboard/page.tsx:321 | Active plus offer-or-rejected is every application. |
| Dashboard.PerStatus | applyflow/app/dashboard/page.tsx:423-425 | One count per listed status, each the number of applications in it. |
| Dashboard.PerStatusSum | applyflow/app/dashboard/page.tsx:423-425 | Counts over distinct statuses add up to the count over their set. |
| Dashboard.CountInZero | applyflow/app/dashboard/page.tsx:423-425 | No status counts nothing. |
| Dashboard.DistributionAddsUp | applyflow/app/dashboard/page.tsx:423-425 | The seven counts of the distribution panel add up to the number of applications. |
| Base.Rate | applyflow/app/dashboard/page.tsx:458-478 | The rate is the numerator as a percentage of the denominator (rate times denominator is numerator times 100), and 0 for a zero denominator. |
| Base.RateAtMostHundred | applyflow/app/dashboard/page.tsx:458-478 | A part over its whole is at most 100. |
| Dashboard.StatusPercentage | applyflow/app/dashboard/page.tsx:425 | The number of applications with the status, as a percentage of all applications (0 without applications), between 0 and 100. |
| Dashboard.ConversionFunnel | applyflow/app/dashboard/page.tsx:458-478 | Saved-to-applied is the applications past saved as a percentage of all; applied-to-interview is those at interview or offer as a percentage of those past saved; interview-to-offer is the offers as a percentage of those at interview or offer. Each is 0 for a zero denominator and lies between 0 and 100. |
| Dashboard.AsWrittenNeverBuckets | applyflow/app/dashboard/page.tsx:109 | With rows as the API sends them, every reminder list is empty. |
| Dashboard.OverdueRowLost | applyflow/lib/db.ts:173-188 | A row due yesterday is overdue under the intended conversion, and in no list as written. |
| Dashboard.LoadReminders | applyflow/app/dashboard/page.tsx:79-124 | The applications are replaced by the converted rows only when their fetch succeeds. When the analytics fetch succeeds, the three lists become the buckets of the applications this load fetched, and all three are empty when the applications fetch failed. When it fails, the lists keep their previous contents. |
| Kanban.ApplicationsByStatus | applyflow/components/kanban-board.tsx:115-117 | A column holds exactly the applications with its status. |
| Kanban.EachApplicationInOneColumn | applyflow/components/kanban-board.tsx:14-22 | Every application is shown in exactly one of the seven columns. |
| Kanban.DiffDaysIsDayDifference | applyflow/components/kanban-board.tsx:230-241 | Rounding up the time to a due day's midnight gives the difference in day numbers. |
| Kanban.UrgencyByDay | applyflow/components/kanban-board.tsx:230-241 | Overdue iff the due day is before today; urgent iff it is today to three days ahead; normal otherwise. A card is overdue exactly when the dashboard lists it as overdue. |
| Kanban.NextStepStatus | applyflow/components/kanban-board.tsx:230-241 | A card without a due date is normal. Overdue needs a due day before today, and urgent needs one from today to three days ahead. |
| Kanban.Toggle | applyflow/components/kanban-board.tsx:184-192 | The card's membership flips and no other card changes. |
| Kanban.ToggleTwice | applyflow/components/kanban-board.tsx:184-192 | Toggling twice restores the set. |
| Kanban.UpdateStatusTarget | applyflow/components/kanban-board.tsx:478 | A saved application goes to applied; any other status is kept. |
| Kanban.SubmittedDueDate | applyflow/components/kanban-board.tsx:39 | An empty date is handed on as undefined, any other text as is. |
| Kanban.Board.constructor | applyflow/components/kanban-board.tsx:100-113 | Nothing dragged, the modal closed, no card expanded. |
| Kanban.Board.DragStart | applyflow/components/kanban-board.tsx:119-121 | Records the dragged application. |
| Kanban.Board.Drop | applyflow/components/kanban-board.tsx:127-149 | The same column, or nothing dragged, clears the drag. Offer and rejected call the callback at once, with the next step or 'Status updated'. Any other column opens the modal for that target and clears the drag. |
| Kanban.Board.ModalConfirm | applyflow/components/kanban-board.tsx:173-178 | Forwards the change only when the modal holds an application and a target, and always closes the modal. |
| Kanban.Board.ModalClose | applyflow/components/kanban-board.tsx:180-182 | Closes the modal. |
| Kanban.Board.ToggleCardExpansion | applyflow/components/kanban-board.tsx:184-192 | The expanded set becomes its toggle. |
| Kanban.Board.OpenUpdateStatus | applyflow/components/kanban-board.tsx:473-479 | Opens the modal with the card and its next-status target. |
| SupabaseDashboard.TodayReminders | app/dashboard/page.tsx:36-40 | Exactly the applications due on the current day, keeping the creation order of the fetch. |
| SupabaseDashboard.OverdueReminders | app/dashboard/page.tsx:42-46 | Exactly the applications due on an earlier day, keeping the creation order. |
| SupabaseDashboard.RemindersPartition | app/dashboard/page.tsx:36-46 | The two lists are disjoint. No due date, or a later one, is in neither, and status plays no part. |
| SupabaseDashboard.Applications | app/dashboard/page.tsx:33 | Missing data is an empty list. |
| SupabaseDashboard.StatusesArePipeline | app/dashboard/page.tsx:48-56 | The columns are the seven statuses in pipeline order. |
| SupabaseKanban.Optimistic | components/kanban-board.tsx:192-211 | The dragged application gets the new status; every other element, the length and the order are kept. |
| SupabaseKanban.RequiresNextStep | components/kanban-board.tsx:190 | A next step is asked for exactly the applied, screening, test and interview columns. |
| SupabaseKanban.OptimisticColumns | components/kanban-board.tsx:192-211 | After the rewrite, a column holds its other applications plus the dragged one exactly when it is the target. |
| SupabaseKanban.ApplicationsByStatus | components/kanban-board.tsx:260-263 | Each listed status maps to exactly the applications with that status. |
| SupabaseKanban.ByStatusPartition | components/kanban-board.tsx:260-263 | An application with a listed status is in exactly one column. |
| SupabaseKanban.Board.constructor | components/kanban-board.tsx:130-136 | The list starts as the initial applications, with no drag, no modal and no error. |
| SupabaseKanban.Board.DragStart | components/kanban-board.tsx:171-173 | Records the active id. |
| SupabaseKanban.Dragged | components/kanban-board.tsx:183 | The dragged application has the active id and is on the board; there is none exactly when no application has that id. |
| SupabaseKanban.TargetColumn | components/kanban-board.tsx:154-164 | A column target resolves to its own status. A card target resolves to the status of an application with that id, and to none exactly when no application has it. |
| SupabaseKanban.CardLiesInItsColumn | components/kanban-board.tsx:154-164 | With unique ids, a card resolves to its own application's status, so a drop onto any card of the dragged card's column moves nothing. |
| SupabaseKanban.DragEndAsWritten | components/kanban-board.tsx:175-202 | As written, a move takes the raw `over.id` as the new status text, the modal decision compares that text with offer, rejected and saved, and the rewrite gives the dragged card that text. An unknown dragged card moves nothing. |
| SupabaseKanban.RequiresNextStepText | components/kanban-board.tsx:190 | As written: any over id that names no status asks for a next step; on a status name it agrees with the corrected column test. |
| SupabaseKanban.OptimisticText | components/kanban-board.tsx:198-202 | As written: the dragged card takes the over id as its status text; every other card, the length and the order are kept. |
| SupabaseKanban.AsWrittenCardDropLosesCard | components/kanban-board.tsx:181-202 | As written, a drop onto a card whose id is no status text opens the next-step modal with that id as the status. The dragged card stays on the board but its status matches no column. |
| SupabaseKanban.SiblingCardDrop | components/kanban-board.tsx:181-202 | Dragging one applied card onto another applied card opens the modal for status "a2" as written; resolved through the card's column, nothing moves. |
| SupabaseKanban.AsWrittenAgreesOnColumns | components/kanban-board.tsx:175-211 | On a column target, the as-written drag end and the resolved one agree on whether anything moves, on the modal decision and on the rewritten list. |
| SupabaseKanban.Board.DragEnd | components/kanban-board.tsx:175-225 | No target changes nothing. The target is resolved to a column: a column is itself, and a card is its application's column. An unresolved card, an unknown dragged card or the same column only clears the drag. A column that needs a next step opens the modal over the optimistic list. Offer, rejected and saved send the update at once; failure reverts to the initial list and success asks for a refresh. |
| SupabaseKanban.Board.NextStepSubmit | components/kanban-board.tsx:227-258 | Without a pending change nothing happens. Otherwise it sends the status with the next step and due date, reverts and shows the message on failure or refreshes on success, and resets the modal and the drag. |
| SupabaseKanban.Board.CloseModal | components/kanban-board.tsx:294-299 | Hides the modal, reverts the optimistic list and clears the drag. |
| NextStepDialog.NextStepModal.constructor | components/next-step-modal.tsx:35-38 | The fields start from the application's next step and due date. |
| NextStepDialog.NextStepModal.SetNextStep | components/next-step-modal.tsx:35 | Sets the text of the next step. |
| NextStepDialog.NextStepModal.SetDueDate | components/next-step-modal.tsx:36-38 | Sets the due date. |
| NextStepDialog.NextStepModal.HandleSubmit | components/next-step-modal.tsx:40-47 | A blank next step submits nothing. Otherwise the untrimmed text is submitted with the date, where an empty date is null. |
| NextStepDialog.SubmittedNotBlank | components/next-step-modal.tsx:42-45 | Every submitted next step has a non-space character. |
| Auth.Created | lib/auth.ts:15-21 | The token is added with the user and an expiry seven days ahead; every other token is kept. |
| Auth.Validated | lib/auth.ts:24-35 | Returns the user exactly when the token is known and not past its expiry. |
| Auth.AfterValidate | lib/auth.ts:29-31 | An expired token is dropped; otherwise the map is unchanged. |
| Auth.SessionLifetime | lib/auth.ts:15-35 | A session validates exactly until seven days after creation, inclusive, and the first validation after that drops it. |
| Auth.DestroyIdempotent | lib/auth.ts:38-40 | Destroying twice is destroying once, and no other token is affected. |
| Auth.SessionStore.constructor | lib/auth.ts:5 | The session map starts empty. |
| Auth.SessionStore.CreateSession | lib/auth.ts:15-21 | Stores the session and returns its token. |
| Auth.SessionStore.ValidateSession | lib/auth.ts:24-35 | The answer and the new map are those of validation. |
| Auth.SessionStore.DestroySession | lib/auth.ts:38-40 | Removes exactly that token. |
| Auth.SignUp | lib/auth.ts:43-61 | A taken email gives null and changes nothing. Otherwise the user is inserted and read back by the fresh id, with that email. |
| Auth.SignIn | lib/auth.ts:63-81 | The password plays no part. An existing user is reused, or else one is created; the user is stored, and a session is always opened for it. |
| Auth.GetCurrentUser | lib/auth.ts:84-103 | A bearer header or a session cookie yields the user with the test email; neither yields none. |
| Auth.HasBearer | lib/auth.ts:86-87 | A header that passes is `Bearer ` followed by some token. |
| Auth.HasSessionCookie | lib/auth.ts:93-98 | A missing or empty cookie header has no session cookie. |
| Auth.SessionPieceOf | lib/auth.ts:93-98 | A session cookie is found only as one of the `;`-separated pieces of the header, and that piece names the session. |
| Auth.IsSessionPiece | lib/auth.ts:96 | A piece that names the session is, once trimmed, `applyflow_session=` followed by some value. |
| Auth.SessionPieceOfAnyValue | lib/auth.ts:96 | Conversely, a piece that trims to `applyflow_session=` and any value, the empty one included, names the session. |
| Auth.TokenNeverChecked | lib/auth.ts:86-90 | Two bearer headers with different tokens give the same user. |
| Auth.BearerPrefix | lib/auth.ts:87 | Any `Bearer ` header passes the prefix test. |
| Auth.SessionCookieFound | lib/auth.ts:93-100 | A session cookie after other cookies is found, whatever its value. |
| Auth.PieceFound | lib/auth.ts:93-98 | A session piece anywhere in the split header is found. |
| Auth.CookiePieceMatches | lib/auth.ts:96 | A session piece survives trimming and still starts with the cookie name. |
| Auth.SplitLast | lib/auth.ts:95 | Splitting `a;b`, where b holds no separator, ends with b. |
| Auth.SplitNoSep | lib/auth.ts:95 | A string without the separator splits into itself. |
| Auth.TrimNoSpaceEnds | lib/auth.ts:96 | Trimming keeps a string without whitespace at its ends. |
| SignInRoute.CookieMatchesSession | applyflow/app/api/auth/signin/route.ts:38 | The cookie's max age is exactly the session lifetime. |
| SignInRoute.SessionCookieFor | applyflow/app/api/auth/signin/route.ts:34-39 | The cookie is named after the session, holds the token, is httpOnly and lax, and is secure exactly in production. |
| SignInRoute.Post | applyflow/app/api/auth/signin/route.ts:4-49 | An unreadable body gives 500, and a falsy email or password gives 400; neither changes the users or the sessions. Otherwise it answers 200 with a stored user and the token. The session store gains exactly that token's seven-day session, matching the cookie's max-age, and keeps every other session. The users table gains a row only for an unknown email. |
| VacanciesRoute.SourceCheckAgrees | app/api/vacancies/route.ts:50-53 | The route's source list is the CHECK list, so an accepted form never trips the CHECK. |
| VacanciesRoute.MissingRequired | app/api/vacancies/route.ts:41 | A form passes exactly when company name, role title and link are all present and non-empty. |
| VacanciesRoute.InvalidSource | app/api/vacancies/route.ts:49-51 | A source is rejected exactly when it is non-empty and names none of the six sources. |
| VacanciesRoute.FieldsOf | app/api/vacancies/route.ts:57-67 | The required fields go as given and the optional ones `\|\| null`. |
| VacanciesRoute.NewVacancy | app/api/vacancies/route.ts:57-67 | The inserted row belongs to the test user, with its times at now. It has a source exactly when one was given, and then the named one. |
| VacanciesRoute.Get | app/api/vacancies/route.ts:6-23 | Answers 200 with exactly the test user's vacancies, newest first. |
| VacanciesRoute.Post | app/api/vacancies/route.ts:25-87 | The user is ensured first. The 400s come in order and change nothing. A failed vacancy insert gives 500 with nothing stored. A failed application insert gives 500 but keeps the vacancy. Success stores the vacancy and a saved application with the review next step, and answers 201 with the stored vacancy. |
| ApplicationsRoute.Get | applyflow/app/api/applications/route.ts:6-29 | The test user is ensured, and its joined applications are returned newest first. |
| ApplicationsRoute.Post | applyflow/app/api/applications/route.ts:31-71 | 401 without a user, then 500 for an unreadable body, 400 without a vacancy id or next step, and 404 for a vacancy not owned. It succeeds exactly when all of these pass and the insert is accepted. The answer is 201 with the inserted row and its vacancy; every error changes nothing. |
| ApplicationsRoute.UniqueVacancy | applyflow/lib/db.ts:26 | Two vacancy rows with the same id are the same row. |
| TodosRoute.ToApi | applyflow/app/api/todos/route.ts:14-17 | The stored integer `completed` becomes a boolean, true exactly when it is non-zero; every other field is kept. |
| TodosRoute.ToApiList | applyflow/app/api/todos/route.ts:14-17 | Converts each todo in order. |
| TodosRoute.NewTodo | applyflow/app/api/todos/route.ts:47-56 | The inserted row has the defaults: no application, empty description, medium priority, not completed. |
| TodosRoute.Get | applyflow/app/api/todos/route.ts:5-24 | Answers 200 with exactly the test user's todos, ordered by priority, then due date, then recency, each with a boolean `completed`. |
| TodosRoute.Post | applyflow/app/api/todos/route.ts:26-68 | 400 without a title. Success holds exactly when the insert is accepted; it appends the row and answers 201 with it, not completed. An error changes no todo. |
| TodoListView.ForApplication | applyflow/components/todo-list.tsx:26-29 | Without an application prop every todo is shown; with one, exactly that application's todos are. |
| TodoListView.ReplaceById | applyflow/components/todo-list.tsx:51-53 | The todo with that id is replaced; the others and the length are kept. |
| TodoListView.ReplaceKeepsIds | applyflow/components/todo-list.tsx:51-53 | Replacing by the server copy keeps every id. Replacing an unknown id changes nothing. |
| TodoListView.RemoveById | applyflow/components/todo-list.tsx:72 | Exactly the todos with that id are removed. |
| TodoListView.RemoveByIdCount | applyflow/components/todo-list.tsx:72 | The list shrinks by the number of matching todos, and removing again changes nothing. |
| TodoListView.CreateRequest | applyflow/components/todo-list.tsx:88-92 | The untrimmed title, the application prop and priority medium. |
| TodoListView.TodoList.constructor | applyflow/components/todo-list.tsx:11-14 | No todos, loading, an empty title and the form hidden. |
| TodoListView.TodoList.LoadTodos | applyflow/components/todo-list.tsx:21-36 | Success shows the todos for the prop; loading ends either way. |
| TodoListView.TodoList.ToggleTodo | applyflow/components/todo-list.tsx:38-63 | Sends the toggle. Success replaces the todo with the server copy; failure keeps the list. |
| TodoListView.TodoList.DeleteTodo | applyflow/components/todo-list.tsx:65-77 | Sends the delete. Success removes the todo; failure keeps the list. |
| TodoListView.TodoList.AddTodo | applyflow/components/todo-list.tsx:79-111 | A blank title sends nothing. A created todo goes first, the title clears and the form hides; on failure the list, the title and the form stay. |
| TodoListView.TodoList.ToggleForm | applyflow/components/todo-list.tsx:139 | Flips the form. |
| TodoListView.SentTitleAccepted | applyflow/components/todo-list.tsx:81 | A title the list sends passes the route's title check. |
| VacancyForms.WithDefaults | applyflow/components/add-vacancy-form.tsx:23-31 | Each text field is the given value `\|\| ''`, and the source is as given. |
| VacancyForms.ToPartial | components/edit-vacancy-modal.tsx:30-50 | A full form as a record with every field present. |
| VacancyForms.DefaultsOfFull | components/edit-vacancy-modal.tsx:30-50 | Filling in defaults of a full form changes nothing. |
| VacancyForms.Validate | applyflow/components/add-vacancy-form.tsx:43-52 | The required message iff company, role or link is blank after trimming. Otherwise the URL message iff the link does not parse. Otherwise none. |
| VacancyForms.RequiredBeforeUrl | components/edit-vacancy-modal.tsx:63-72 | A blank required field is reported before a bad link. |
| VacancyForms.EmptyFormRejected | components/edit-vacancy-modal.tsx:63-66 | An empty edit form never passes. |
| VacancyForms.OutcomeError | applyflow/components/add-vacancy-form.tsx:55-56 | A thrown Error leaves its message and anything else thrown leaves the fallback; success leaves none. |
| VacancyForms.SetField | applyflow/components/add-vacancy-form.tsx:62-64 | Exactly the named field takes the value. |
| VacancyForms.AddVacancyForm.constructor | applyflow/components/add-vacancy-form.tsx:23-34 | The form starts from the initial data with text defaults, and no error. |
| VacancyForms.AddVacancyForm.HandleSubmit | applyflow/components/add-vacancy-form.tsx:36-60 | A failed validation shows its message and submits nothing. A passing form is submitted as typed, and the error is what the callback left ('An error occurred' for non-Errors). Submitting ends either way. |
| VacancyForms.AddVacancyForm.HandleInputChange | applyflow/components/add-vacancy-form.tsx:62-64 | One field changes. |
| VacancyForms.EditVacancyModal.constructor | components/edit-vacancy-modal.tsx:23-25 | An empty form, no error, not submitting. |
| VacancyForms.EditVacancyModal.Load | components/edit-vacancy-modal.tsx:28-52 | An open modal with a vacancy loads its fields with text defaults; otherwise the form stays. |
| VacancyForms.EditVacancyModal.HandleSubmit | components/edit-vacancy-modal.tsx:54-83 | Without a vacancy nothing happens. A failed validation shows its message. A passing form is saved under the vacancy id. The modal closes only when saving resolved; otherwise it shows the message or 'Failed to update vacancy'. |
| VacancyForms.EditVacancyModal.HandleClose | components/edit-vacancy-modal.tsx:85-89 | Clears the error and the form, and closes. |
| VacancyForms.LoadedRequired | components/edit-vacancy-modal.tsx:30-72 | A loaded vacancy fails the required check exactly when its company, role or link is blank. |
| VacancyForms.BlankOrElse | components/edit-vacancy-modal.tsx:30-50 | Defaulting an absent field to '' does not change whether it is blank. |

## Left out

- Network and I/O: `fetch`, JSON parsing, response `ok` flags, Supabase client calls and `router.refresh` are replaced by their outcomes as inputs. Requests, callbacks and refreshes are recorded as sequences and counters.
- Randomness and clocks: `generateId`, `generateSessionToken`, `Date.now()` and `new Date()` are parameters.
- Time zones and date text: local midnight is UTC midnight, and a due date is a day number. Parsing of `YYYY-MM-DD` text and the `toDateString` comparison are modelled as day equality.
- Dates on the applyflow board: `StatusChangeModal` hands on the date text. Its parsing when the route stores it is not modelled.
- URL validity: `new URL(link)` is a predicate parameter `parses`.
- Presentation: rendering, styles, dnd-kit sensors, `Math.round` and the percentage formatting. Rates are exact reals before rounding.
- Concurrency: React batching and interleaved requests. Each handler runs to completion, and an `await` is one step whose outcome is an input.
- Exceptions: a statement that throws in a GET route, other than the analytics route, is not modelled. Those GET methods always answer 200.
- GROUP BY order: SQLite does not promise an order for `GROUP BY status` rows. The model lists them in pipeline order, and every property about them is order-independent.
- Contacts: the contacts table and its statements (`applyflow/lib/db.ts:59-77` and `:258-269`) are not used by any modelled operation.
- Supabase row-level security: the Supabase updates filter on `id` only and rely on the server's policies, which are not part of this model.
- Client auth helpers: the `localStorage` helpers in `lib/auth.ts:105-129` are browser-only.
- Other routes: the status transition route and the per-id routes (`app/api/applications/[id]/status`, `app/api/todos/[id]`, `app/api/vacancies/[id]`) are not part of this model. Their statements are modelled in `Db`.
- Test account: the list and create routes work under the fixed account `hmj234c37ammjias6tj` / `test-user@example.com`. `getCurrentUser`, however, answers with the user stored under `test@example.com`. Both constants are kept as written.
- Analytics.Get: takes the user id and email as parameters; the route always passes the fixed test account.
- SignInRoute.Post: the 401 branch of the route is unreachable in the model. `signIn` only returns null when the store throws, and store errors inside `signIn` are not modelled.
- VacanciesRoute.Post: the two inserts are not in a transaction. A failed application insert leaves the vacancy stored, and the model states this rather than hiding it.
- VacanciesRoute.Post: the shared route imports the SQLite `dbStatements` and is modelled against `Db`.
- TodoListView.ForApplication: filters on the camelCase `applicationId`, while `SELECT *` rows carry `application_id`. The only caller in view, `applyflow/app/dashboard/page.tsx:407`, passes no application, so the filter never runs. The model uses the camelCase field.
- VacancyForms.EditVacancyModal: reads camelCase fields of the vacancy. Which `Vacancy` type module resolves there is not part of this model, so the fields are taken as given.
- NextStepDialog.NextStepModal: the date input's text is `Option<Day>`, with `None` for the empty string.
- SupabaseKanban.Board.DragEnd: resolves a card target to its application's column, as the unused `findColumn` (components/kanban-board.tsx:154-164) would. The code as written casts the card's id to a status; that behaviour is `SupabaseKanban.DragEndAsWritten` (see Findings). A card target that is not on the board ends the drag without a move; the source never decides this case because `findColumn` is never called.
- SupabaseKanban.DragEndAsWritten: covers one drop from a board whose cards all carry pipeline statuses. What follows once a card's status is an id is not modelled: a later drag of that card, and the modal submitting that id to the `applications` table.
- Kanban.Board.Drop: the applyflow board opens the next-step modal for every target except offer and rejected, saved included. The Supabase board updates saved directly. Both are modelled as written.

## Findings

| source | as written | input that shows it | evidently intended | confidence | as-written member | corrected member |
|---|---|---|---|---|---|---|
| applyflow/lib/db.ts:173-188 | `getApplicationsByUserId` returns `a.*`, so the next step and its due date reach the client under the snake_case keys `next_step` and `next_step_due_date`. The dashboard reads `app.nextStepDueDate` (applyflow/app/dashboard/page.tsx:109) and the board reads `nextStep`; only the vacancy fields and `vacancyId` get camelCase aliases. | An application with `next_step_due_date` one day before today: the dashboard lists it in no reminder list. | The due date and next step reach the client under the camelCase keys, so the application is listed as overdue. | medium, not executed | Client.FromRowAsWritten, Dashboard.AsWrittenNeverBuckets, Dashboard.OverdueRowLost | Client.FromRow, Dashboard.LoadReminders |
| components/kanban-board.tsx:180-202 | `over.id as ApplicationStatus` is a type cast, not a check. Every card is a drop target (`useSortable({ id: application.id })`, :97-100) next to the columns (:60-63), so `over` is often a card. Its application id then becomes the new status: `requiresNextStep` holds, the modal opens with that id, and the optimistic rewrite gives the dragged card that id as its status. | Drag card `a1` (applied) onto its sibling card `a2` in the applied column: the modal opens for status "a2", and `a1` shows in no column. | A card target is resolved to its application's column, as the unused `findColumn` (:154-164) does; a drop onto a sibling in the same column moves nothing. | high, not executed | SupabaseKanban.DragEndAsWritten, SupabaseKanban.AsWrittenCardDropLosesCard, SupabaseKanban.SiblingCardDrop | SupabaseKanban.TargetColumn, SupabaseKanban.CardLiesInItsColumn, SupabaseKanban.Board.DragEnd |
