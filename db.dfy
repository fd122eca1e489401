/** The SQLite store behind the tracker: four tables held as sequences in
    insertion (rowid) order, the write statements as methods of `Database`
    and the SELECT statements as functions over the table contents.

    Timestamps (`DATETIME`, `CURRENT_TIMESTAMP`) are milliseconds and `DATE`
    columns are day numbers; `now` is always an argument. A statement that
    SQLite would abort (duplicate primary key, a foreign key with
    `foreign_keys = ON`, a failed CHECK) returns `ok == false` and changes
    nothing. */
module Db {
  import opened Base
  import opened Pipeline

  type Millis = int
  type Day = int

  /** `datetime('now', '-7 days')`: the staleness horizon. */
  const StalledAfterMs: int := 7 * DayMs

  datatype UserRow = UserRow(id: string, email: string, createdAt: Millis, updatedAt: Millis)

  datatype VacancyRow = VacancyRow(
    id: string, userId: string, createdAt: Millis, updatedAt: Millis,
    companyName: string, roleTitle: string, link: string, source: Option<Source>,
    salaryRange: Option<string>, location: Option<string>, notes: Option<string>)

  datatype ApplicationRow = ApplicationRow(
    id: string, userId: string, vacancyId: string, createdAt: Millis, updatedAt: Millis,
    status: Status, appliedDate: Option<Day>, lastStatusChangeAt: Millis,
    nextStep: Option<string>, nextStepDueDate: Option<Day>)

  /** `completed` is the integer SQLite stores for the BOOLEAN column. */
  datatype TodoRow = TodoRow(
    id: string, userId: string, applicationId: Option<string>, createdAt: Millis, updatedAt: Millis,
    title: string, description: Option<string>, completed: int, priority: Priority, dueDate: Option<Day>)

  /** The values bound to the vacancy columns by createVacancy and
      updateVacancy; `source` is the unchecked text. */
  datatype VacancyFields = VacancyFields(
    companyName: string, roleTitle: string, link: string, source: Option<string>,
    salaryRange: Option<string>, location: Option<string>, notes: Option<string>)

  /** A row of a SELECT that joins an application with its vacancy. */
  datatype AppWithVacancy = AppWithVacancy(app: ApplicationRow, vacancy: VacancyRow)

  /** One row of `SELECT status, COUNT(*) ... GROUP BY status`. */
  datatype StatusCount = StatusCount(status: Status, count: nat)

  // ---------------------------------------------------------------------------
  // Keys and CHECK constraints

  predicate HasUserId(users: seq<UserRow>, id: string) {
    exists u :: u in users && u.id == id
  }

  predicate HasEmail(users: seq<UserRow>, email: string) {
    exists u :: u in users && u.email == email
  }

  predicate HasVacancy(vacancies: seq<VacancyRow>, id: string) {
    exists v :: v in vacancies && v.id == id
  }

  predicate HasApplication(applications: seq<ApplicationRow>, id: string) {
    exists a :: a in applications && a.id == id
  }

  predicate HasTodo(todos: seq<TodoRow>, id: string) {
    exists t :: t in todos && t.id == id
  }

  /** `source TEXT CHECK(source IN (...))`: NULL passes, text must be one of the six. */
  predicate SourceAllowed(source: Option<string>) {
    source.None? || ParseSource(source.value).Some?
  }

  function StoredSource(source: Option<string>): (r: Option<Source>)
    requires SourceAllowed(source)
    ensures r.None? <==> source.None?
    ensures r.Some? ==> SourceName(r.value) == source.value
  {
    if source.None? then None else ParseSource(source.value)
  }

  ghost predicate UniqueUsers(users: seq<UserRow>) {
    forall i, j :: 0 <= i < j < |users| ==> users[i].id != users[j].id && users[i].email != users[j].email
  }

  ghost predicate UniqueVacancies(vacancies: seq<VacancyRow>) {
    forall i, j :: 0 <= i < j < |vacancies| ==> vacancies[i].id != vacancies[j].id
  }

  ghost predicate UniqueApplications(applications: seq<ApplicationRow>) {
    forall i, j :: 0 <= i < j < |applications| ==> applications[i].id != applications[j].id
  }

  ghost predicate UniqueTodos(todos: seq<TodoRow>) {
    forall i, j :: 0 <= i < j < |todos| ==> todos[i].id != todos[j].id
  }

  // ---------------------------------------------------------------------------
  // Writes, as functions of the table before the statement

  /** `INSERT OR IGNORE INTO users (id, email)`: a row is added only when
      neither its id nor its email is taken; otherwise the table is as before. */
  function InsertOrIgnoreUser(users: seq<UserRow>, id: string, email: string, now: Millis): (r: seq<UserRow>)
    ensures r == users <==> HasUserId(users, id) || HasEmail(users, email)
    ensures r != users ==> r == users + [UserRow(id, email, now, now)]
    ensures !HasEmail(users, email) ==> HasUserId(r, id)
    ensures UniqueUsers(users) ==> UniqueUsers(r)
  {
    if HasUserId(users, id) || HasEmail(users, email) then users
    else
      var r := users + [UserRow(id, email, now, now)];
      assert r[|users|] in r;
      r
  }

  /** `UPDATE vacancies SET <fields>, updated_at = CURRENT_TIMESTAMP WHERE id = ? AND user_id = ?`. */
  function UpdateVacancyRows(rows: seq<VacancyRow>, f: VacancyFields, id: string, userId: string, now: Millis): (r: seq<VacancyRow>)
    requires SourceAllowed(f.source)
    ensures |r| == |rows|
    ensures forall i :: 0 <= i < |rows| && (rows[i].id != id || rows[i].userId != userId) ==> r[i] == rows[i]
    ensures forall i :: 0 <= i < |rows| ==>
      r[i].id == rows[i].id && r[i].userId == rows[i].userId && r[i].createdAt == rows[i].createdAt
    ensures forall i :: 0 <= i < |rows| && rows[i].id == id && rows[i].userId == userId ==>
      r[i].companyName == f.companyName && r[i].roleTitle == f.roleTitle && r[i].link == f.link
      && r[i].source == StoredSource(f.source) && r[i].salaryRange == f.salaryRange
      && r[i].location == f.location && r[i].notes == f.notes && r[i].updatedAt == now
  {
    seq(|rows|, i requires 0 <= i < |rows| =>
      if rows[i].id == id && rows[i].userId == userId then
        rows[i].(companyName := f.companyName, roleTitle := f.roleTitle, link := f.link,
                 source := StoredSource(f.source), salaryRange := f.salaryRange,
                 location := f.location, notes := f.notes, updatedAt := now)
      else rows[i])
  }

  /** `UPDATE applications SET status, last_status_change_at, next_step,
      next_step_due_date, applied_date, updated_at WHERE id = ? AND user_id = ?`:
      only the owner's row with that id changes, and in it id, user_id,
      vacancy_id and created_at are kept. */
  function SetApplicationStatus(rows: seq<ApplicationRow>, status: Status, nextStep: Option<string>,
                                dueDate: Option<Day>, appliedDate: Option<Day>, id: string, userId: string,
                                now: Millis): (r: seq<ApplicationRow>)
    ensures |r| == |rows|
    ensures forall i :: 0 <= i < |rows| && (rows[i].id != id || rows[i].userId != userId) ==> r[i] == rows[i]
    ensures forall i :: 0 <= i < |rows| ==>
      r[i].id == rows[i].id && r[i].userId == rows[i].userId
      && r[i].vacancyId == rows[i].vacancyId && r[i].createdAt == rows[i].createdAt
    ensures forall i :: 0 <= i < |rows| && rows[i].id == id && rows[i].userId == userId ==>
      r[i].status == status && r[i].lastStatusChangeAt == now && r[i].nextStep == nextStep
      && r[i].nextStepDueDate == dueDate && r[i].appliedDate == appliedDate && r[i].updatedAt == now
  {
    seq(|rows|, i requires 0 <= i < |rows| =>
      if rows[i].id == id && rows[i].userId == userId then
        rows[i].(status := status, lastStatusChangeAt := now, nextStep := nextStep,
                 nextStepDueDate := dueDate, appliedDate := appliedDate, updatedAt := now)
      else rows[i])
  }

  /** `UPDATE applications SET next_step, next_step_due_date, updated_at
      WHERE id = ? AND user_id = ?`: the status and the time of the last
      status change are never touched. */
  function SetApplicationNextStep(rows: seq<ApplicationRow>, nextStep: Option<string>, dueDate: Option<Day>,
                                  id: string, userId: string, now: Millis): (r: seq<ApplicationRow>)
    ensures |r| == |rows|
    ensures forall i :: 0 <= i < |rows| && (rows[i].id != id || rows[i].userId != userId) ==> r[i] == rows[i]
    ensures forall i :: 0 <= i < |rows| ==>
      r[i].id == rows[i].id && r[i].userId == rows[i].userId && r[i].vacancyId == rows[i].vacancyId
      && r[i].createdAt == rows[i].createdAt && r[i].status == rows[i].status
      && r[i].lastStatusChangeAt == rows[i].lastStatusChangeAt && r[i].appliedDate == rows[i].appliedDate
    ensures forall i :: 0 <= i < |rows| && rows[i].id == id && rows[i].userId == userId ==>
      r[i].nextStep == nextStep && r[i].nextStepDueDate == dueDate && r[i].updatedAt == now
  {
    seq(|rows|, i requires 0 <= i < |rows| =>
      if rows[i].id == id && rows[i].userId == userId then
        rows[i].(nextStep := nextStep, nextStepDueDate := dueDate, updatedAt := now)
      else rows[i])
  }

  /** `UPDATE todos SET title, description, completed, priority, due_date,
      updated_at WHERE id = ? AND user_id = ?`. */
  function UpdateTodoRows(rows: seq<TodoRow>, title: string, description: Option<string>, completed: int,
                          priority: Priority, dueDate: Option<Day>, id: string, userId: string,
                          now: Millis): (r: seq<TodoRow>)
    ensures |r| == |rows|
    ensures forall i :: 0 <= i < |rows| && (rows[i].id != id || rows[i].userId != userId) ==> r[i] == rows[i]
    ensures forall i :: 0 <= i < |rows| ==>
      r[i].id == rows[i].id && r[i].userId == rows[i].userId
      && r[i].applicationId == rows[i].applicationId && r[i].createdAt == rows[i].createdAt
    ensures forall i :: 0 <= i < |rows| && rows[i].id == id && rows[i].userId == userId ==>
      r[i].title == title && r[i].description == description && r[i].completed == completed
      && r[i].priority == priority && r[i].dueDate == dueDate && r[i].updatedAt == now
  {
    seq(|rows|, i requires 0 <= i < |rows| =>
      if rows[i].id == id && rows[i].userId == userId then
        rows[i].(title := title, description := description, completed := completed,
                 priority := priority, dueDate := dueDate, updatedAt := now)
      else rows[i])
  }

  /** `DELETE FROM todos WHERE id = ? AND user_id = ?`: exactly the owner's
      rows with that id go, every other row stays; `DeleteTodoRowsIsFilter`
      shows they keep their order. */
  function DeleteTodoRows(rows: seq<TodoRow>, id: string, userId: string): (r: seq<TodoRow>)
    ensures forall t :: t in r <==> t in rows && (t.id != id || t.userId != userId)
    ensures |r| <= |rows|
    ensures (forall t :: t in rows ==> t.id != id || t.userId != userId) ==> r == rows
  {
    if rows == [] then []
    else
      var rest := DeleteTodoRows(rows[1..], id, userId);
      if rows[0].id == id && rows[0].userId == userId then rest
      else
        assert rows == [rows[0]] + rows[1..];
        [rows[0]] + rest
  }

  /** The delete keeps exactly the rows that do not match both keys, in their
      table order. */
  lemma {:induction false} DeleteTodoRowsIsFilter(rows: seq<TodoRow>, id: string, userId: string)
    ensures DeleteTodoRows(rows, id, userId) == Filter(rows, (t: TodoRow) => t.id != id || t.userId != userId)
  {
    if rows != [] {
      DeleteTodoRowsIsFilter(rows[1..], id, userId);
    }
  }

  // ---------------------------------------------------------------------------
  // Reads

  /** `SELECT * FROM users WHERE email = ?`. */
  function UserByEmail(users: seq<UserRow>, email: string): (r: Option<UserRow>)
    ensures r.Some? ==> r.value in users && r.value.email == email
    ensures r.None? <==> !HasEmail(users, email)
  {
    FindFirst(users, (u: UserRow) => u.email == email)
  }

  /** `SELECT * FROM users WHERE id = ?`. */
  function UserById(users: seq<UserRow>, id: string): (r: Option<UserRow>)
    ensures r.Some? ==> r.value in users && r.value.id == id
    ensures r.None? <==> !HasUserId(users, id)
  {
    FindFirst(users, (u: UserRow) => u.id == id)
  }

  /** `SELECT ... FROM vacancies WHERE id = ? AND user_id = ?`: another
      user's vacancy is never returned. */
  function VacancyById(vacancies: seq<VacancyRow>, id: string, userId: string): (r: Option<VacancyRow>)
    ensures r.Some? ==> r.value in vacancies && r.value.id == id && r.value.userId == userId
    ensures r.None? <==> forall v :: v in vacancies ==> v.id != id || v.userId != userId
  {
    FindFirst(vacancies, (v: VacancyRow) => v.id == id && v.userId == userId)
  }

  predicate NewerFirst(a: VacancyRow, b: VacancyRow) {
    a.createdAt >= b.createdAt
  }

  /** `SELECT * FROM vacancies WHERE user_id = ? ORDER BY created_at DESC`:
      exactly the user's rows, newest first. */
  function VacanciesByUser(vacancies: seq<VacancyRow>, userId: string): (r: seq<VacancyRow>)
    ensures multiset(r) == multiset(Filter(vacancies, (v: VacancyRow) => v.userId == userId))
    ensures forall v :: v in r <==> v in vacancies && v.userId == userId
    ensures forall i, j :: 0 <= i < j < |r| ==> r[i].createdAt >= r[j].createdAt
  {
    var owned := Filter(vacancies, (v: VacancyRow) => v.userId == userId);
    var r := SortBy(owned, NewerFirst);
    SortBySorted(owned, NewerFirst);
    assert forall v :: v in r <==> v in multiset(owned);
    r
  }

  /** The application rows of joined results, in order. */
  function Apps(r: seq<AppWithVacancy>): (s: seq<ApplicationRow>)
    ensures |s| == |r|
  {
    if r == [] then [] else [r[0].app] + Apps(r[1..])
  }

  /** Taking one result out takes its application row out of the rows. */
  lemma {:induction false} AppsRemoveAt(ys: seq<AppWithVacancy>, k: nat)
    requires k < |ys|
    ensures multiset(Apps(ys)) == multiset{ys[k].app} + multiset(Apps(ys[..k] + ys[k + 1..]))
  {
    if k == 0 {
      assert ys[..0] + ys[1..] == ys[1..];
    } else {
      var tail := ys[1..];
      AppsRemoveAt(tail, k - 1);
      assert ys[..k] + ys[k + 1..] == [ys[0]] + (tail[..k - 1] + tail[k..]);
      assert tail[k - 1] == ys[k];
    }
  }

  /** Reordering joined results reorders their application rows alike. */
  lemma {:induction false} AppsPermutation(xs: seq<AppWithVacancy>, ys: seq<AppWithVacancy>)
    requires multiset(xs) == multiset(ys)
    ensures multiset(Apps(xs)) == multiset(Apps(ys))
  {
    if xs == [] {
      assert |ys| == |multiset(ys)| == 0;
    } else {
      var x := xs[0];
      assert x in multiset(ys);
      var k :| 0 <= k < |ys| && ys[k] == x;
      var rest := ys[..k] + ys[k + 1..];
      RemoveAt(ys, k);
      RemoveAt(xs, 0);
      assert xs[..0] + xs[1..] == xs[1..];
      Cancel(x, multiset(xs[1..]), multiset(rest));
      AppsPermutation(xs[1..], rest);
      AppsRemoveAt(ys, k);
      AppsRemoveAt(xs, 0);
    }
  }

  /** `JOIN vacancies v ON a.vacancy_id = v.id`: each application, in order,
      paired with its vacancy; an application without one is dropped. */
  function Join(apps: seq<ApplicationRow>, vacancies: seq<VacancyRow>): (r: seq<AppWithVacancy>)
    ensures |r| <= |apps|
    ensures forall x :: x in r ==> x.app in apps && x.vacancy in vacancies && x.vacancy.id == x.app.vacancyId
    ensures forall a :: a in apps && HasVacancy(vacancies, a.vacancyId) ==> exists x :: x in r && x.app == a
    ensures (forall a :: a in apps ==> HasVacancy(vacancies, a.vacancyId)) ==> |r| == |apps|
  {
    if apps == [] then []
    else
      var v := FindFirst(vacancies, (v: VacancyRow) => v.id == apps[0].vacancyId);
      var rest := Join(apps[1..], vacancies);
      assert forall a :: a in apps ==> a == apps[0] || a in apps[1..];
      if v.Some? then
        var r := [AppWithVacancy(apps[0], v.value)] + rest;
        assert r[0] in r;
        r
      else rest
  }

  /** The join keeps exactly the applications that have a vacancy, each
      once and in their order. */
  lemma {:induction false} JoinApps(apps: seq<ApplicationRow>, vacancies: seq<VacancyRow>)
    ensures Apps(Join(apps, vacancies)) == Filter(apps, (a: ApplicationRow) => HasVacancy(vacancies, a.vacancyId))
  {
    if apps != [] {
      JoinApps(apps[1..], vacancies);
      var v := FindFirst(vacancies, (v: VacancyRow) => v.id == apps[0].vacancyId);
      assert v.Some? <==> HasVacancy(vacancies, apps[0].vacancyId);
      var rest := Join(apps[1..], vacancies);
      if v.Some? {
        var r := [AppWithVacancy(apps[0], v.value)] + rest;
        assert r[1..] == rest;
      }
    }
  }

  predicate OlderAppLast(a: AppWithVacancy, b: AppWithVacancy) {
    a.app.createdAt >= b.app.createdAt
  }

  /** The user's sorted join holds the application rows of the user that
      have a vacancy, each as often as in the table. */
  lemma ByUserApps(apps: seq<ApplicationRow>, vacancies: seq<VacancyRow>, userId: string)
    ensures multiset(Apps(SortBy(Join(Filter(apps, (a: ApplicationRow) => a.userId == userId), vacancies), OlderAppLast))) ==
      multiset(Filter(apps, (a: ApplicationRow) => a.userId == userId && HasVacancy(vacancies, a.vacancyId)))
  {
    var owned := (a: ApplicationRow) => a.userId == userId;
    var joined := Join(Filter(apps, owned), vacancies);
    JoinApps(Filter(apps, owned), vacancies);
    FilterFilter(apps, owned, (a: ApplicationRow) => HasVacancy(vacancies, a.vacancyId),
                 (a: ApplicationRow) => a.userId == userId && HasVacancy(vacancies, a.vacancyId));
    AppsPermutation(SortBy(joined, OlderAppLast), joined);
  }

  /** `getApplicationsByUserId`: the user's applications joined with their
      vacancies, each exactly once, newest first. */
  function ApplicationsByUser(apps: seq<ApplicationRow>, vacancies: seq<VacancyRow>, userId: string): (r: seq<AppWithVacancy>)
    ensures multiset(Apps(r)) ==
      multiset(Filter(apps, (a: ApplicationRow) => a.userId == userId && HasVacancy(vacancies, a.vacancyId)))
    ensures forall x :: x in r ==> x.app in apps && x.app.userId == userId && x.vacancy.id == x.app.vacancyId
    ensures forall a :: a in apps && a.userId == userId && HasVacancy(vacancies, a.vacancyId) ==>
      exists x :: x in r && x.app == a
    ensures forall i, j :: 0 <= i < j < |r| ==> r[i].app.createdAt >= r[j].app.createdAt
  {
    var owned := Filter(apps, (a: ApplicationRow) => a.userId == userId);
    var joined := Join(owned, vacancies);
    var r := SortBy(joined, OlderAppLast);
    assert forall x :: x in r ==> x in joined by {
      assert forall x :: x in r <==> x in multiset(joined);
    }
    assert forall x :: x in joined ==> x in r by {
      assert forall x :: x in r <==> x in multiset(joined);
    }
    assert forall x :: x in r ==> x.app in apps && x.app.userId == userId && x.vacancy.id == x.app.vacancyId;
    assert forall a :: a in apps && a.userId == userId && HasVacancy(vacancies, a.vacancyId) ==>
      exists x :: x in r && x.app == a by {
      forall a | a in apps && a.userId == userId && HasVacancy(vacancies, a.vacancyId)
        ensures exists x :: x in r && x.app == a
      {
        assert a in owned;
        var x :| x in joined && x.app == a;
        assert x in r;
      }
    }
    assert SortedBy(r, OlderAppLast) by {
      SortBySorted(joined, OlderAppLast);
    }
    assert multiset(Apps(r)) ==
      multiset(Filter(apps, (a: ApplicationRow) => a.userId == userId && HasVacancy(vacancies, a.vacancyId))) by {
      ByUserApps(apps, vacancies, userId);
    }
    r
  }

  /** `getApplicationById`: the owner's application with that id, joined with
      its vacancy. */
  function ApplicationById(apps: seq<ApplicationRow>, vacancies: seq<VacancyRow>, id: string, userId: string): (r: Option<AppWithVacancy>)
    ensures r.Some? ==> (r.value.app in apps && r.value.app.id == id && r.value.app.userId == userId
                         && r.value.vacancy in vacancies && r.value.vacancy.id == r.value.app.vacancyId)
    ensures r.None? ==> forall a :: a in apps && a.id == id && a.userId == userId ==> !HasVacancy(vacancies, a.vacancyId)
  {
    var joined := Join(Filter(apps, (a: ApplicationRow) => a.id == id && a.userId == userId), vacancies);
    if joined == [] then None else
      assert joined[0] in joined;
      Some(joined[0])
  }

  /** The criterion of getStalledApplications: untouched (by updated_at) for
      more than seven days and not closed as offer or rejected. */
  predicate IsStalled(a: ApplicationRow, userId: string, now: Millis)
    ensures IsStalled(a, userId, now) <==>
      a.userId == userId && now - a.updatedAt > 7 * DayMs && a.status in {Saved, Applied, Screening, Test, Interview}
  {
    a.userId == userId && a.updatedAt < now - StalledAfterMs && !IsTerminal(a.status)
  }

  function StalledApplications(apps: seq<ApplicationRow>, vacancies: seq<VacancyRow>, userId: string, now: Millis): (r: seq<AppWithVacancy>)
    ensures Apps(r) == Filter(apps, (a: ApplicationRow) => IsStalled(a, userId, now) && HasVacancy(vacancies, a.vacancyId))
    ensures forall x :: x in r ==> x.app in apps && IsStalled(x.app, userId, now)
    ensures forall a :: a in apps && IsStalled(a, userId, now) && HasVacancy(vacancies, a.vacancyId) ==>
      exists x :: x in r && x.app == a
  {
    var stalled := (a: ApplicationRow) => IsStalled(a, userId, now);
    FilterFilter(apps, stalled, (a: ApplicationRow) => HasVacancy(vacancies, a.vacancyId),
                 (a: ApplicationRow) => IsStalled(a, userId, now) && HasVacancy(vacancies, a.vacancyId));
    JoinApps(Filter(apps, stalled), vacancies);
    Join(Filter(apps, stalled), vacancies)
  }

  /** The criterion of getOverdueReminders: a due date strictly before today
      (NULL never compares) and not closed as offer or rejected. */
  predicate IsOverdue(a: ApplicationRow, userId: string, today: Day) {
    a.userId == userId && a.nextStepDueDate.Some? && a.nextStepDueDate.value < today && !IsTerminal(a.status)
  }

  function OverdueReminders(apps: seq<ApplicationRow>, vacancies: seq<VacancyRow>, userId: string, today: Day): (r: seq<AppWithVacancy>)
    ensures Apps(r) == Filter(apps, (a: ApplicationRow) => IsOverdue(a, userId, today) && HasVacancy(vacancies, a.vacancyId))
    ensures forall x :: x in r ==> x.app in apps && IsOverdue(x.app, userId, today)
    ensures forall a :: a in apps && IsOverdue(a, userId, today) && HasVacancy(vacancies, a.vacancyId) ==>
      exists x :: x in r && x.app == a
  {
    var overdue := (a: ApplicationRow) => IsOverdue(a, userId, today);
    FilterFilter(apps, overdue, (a: ApplicationRow) => HasVacancy(vacancies, a.vacancyId),
                 (a: ApplicationRow) => IsOverdue(a, userId, today) && HasVacancy(vacancies, a.vacancyId));
    JoinApps(Filter(apps, overdue), vacancies);
    Join(Filter(apps, overdue), vacancies)
  }

  /** The number of the user's applications in status `s`. */
  function CountStatus(apps: seq<ApplicationRow>, userId: string, s: Status): nat {
    if apps == [] then 0
    else (if apps[0].userId == userId && apps[0].status == s then 1 else 0) + CountStatus(apps[1..], userId, s)
  }

  /** The number of the user's applications. */
  function CountOwned(apps: seq<ApplicationRow>, userId: string): nat {
    if apps == [] then 0
    else (if apps[0].userId == userId then 1 else 0) + CountOwned(apps[1..], userId)
  }

  /** One group per status of `statuses` that has rows, in that order. */
  function Groups(apps: seq<ApplicationRow>, userId: string, statuses: seq<Status>): (r: seq<StatusCount>)
    ensures forall g :: g in r ==> g.status in statuses && g.count > 0 && g.count == CountStatus(apps, userId, g.status)
    ensures forall s :: s in statuses && CountStatus(apps, userId, s) > 0 ==> exists g :: g in r && g.status == s
    ensures (forall i, j :: 0 <= i < j < |statuses| ==> statuses[i] != statuses[j]) ==>
      forall i, j :: 0 <= i < j < |r| ==> r[i].status != r[j].status
  {
    if statuses == [] then []
    else
      var rest := Groups(apps, userId, statuses[1..]);
      var n := CountStatus(apps, userId, statuses[0]);
      assert forall s :: s in statuses ==> s == statuses[0] || s in statuses[1..];
      if n > 0 then
        var r := [StatusCount(statuses[0], n)] + rest;
        assert r[0] in r;
        assert (forall i, j :: 0 <= i < j < |statuses| ==> statuses[i] != statuses[j]) ==> statuses[0] !in statuses[1..];
        r
      else rest
  }

  /** `SELECT status, COUNT(*) FROM applications WHERE user_id = ? GROUP BY
      status`: one row per status present, each with a positive count. */
  function StatusDistribution(apps: seq<ApplicationRow>, userId: string): (r: seq<StatusCount>)
    ensures forall g :: g in r ==> g.count > 0 && g.count == CountStatus(apps, userId, g.status)
    ensures forall s :: CountStatus(apps, userId, s) > 0 <==> exists g :: g in r && g.status == s
    ensures forall i, j :: 0 <= i < j < |r| ==> r[i].status != r[j].status
  {
    AllStatusesComplete(Saved);
    forall s ensures s in AllStatuses { AllStatusesComplete(s); }
    Groups(apps, userId, AllStatuses)
  }

  /** The sum of the counts: no count exceeds it, and it is zero only when
      every count is. */
  function SumCounts(groups: seq<StatusCount>): (r: nat)
    ensures forall g :: g in groups ==> g.count <= r
    ensures r == 0 <==> forall g :: g in groups ==> g.count == 0
  {
    if groups == [] then 0 else groups[0].count + SumCounts(groups[1..])
  }

  function SumByStatus(apps: seq<ApplicationRow>, userId: string, statuses: seq<Status>): nat {
    if statuses == [] then 0 else CountStatus(apps, userId, statuses[0]) + SumByStatus(apps, userId, statuses[1..])
  }

  lemma {:induction false} GroupsSum(apps: seq<ApplicationRow>, userId: string, statuses: seq<Status>)
    ensures SumCounts(Groups(apps, userId, statuses)) == SumByStatus(apps, userId, statuses)
  {
    if statuses != [] {
      GroupsSum(apps, userId, statuses[1..]);
    }
  }

  /** Adding one row to the front adds one to exactly the counts of its status. */
  lemma {:induction false} SumByStatusCons(apps: seq<ApplicationRow>, userId: string, statuses: seq<Status>)
    requires apps != []
    ensures SumByStatus(apps, userId, statuses)
         == SumByStatus(apps[1..], userId, statuses)
          + (if apps[0].userId == userId then Occurrences(statuses, apps[0].status) else 0)
  {
    if statuses != [] {
      SumByStatusCons(apps, userId, statuses[1..]);
    }
  }

  lemma {:induction false} SumByStatusNone(apps: seq<ApplicationRow>, userId: string, statuses: seq<Status>)
    requires apps == []
    ensures SumByStatus(apps, userId, statuses) == 0
  {
    if statuses != [] {
      SumByStatusNone(apps, userId, statuses[1..]);
    }
  }

  function Occurrences(statuses: seq<Status>, s: Status): nat {
    if statuses == [] then 0 else (if statuses[0] == s then 1 else 0) + Occurrences(statuses[1..], s)
  }

  lemma OccursOnce(s: Status)
    ensures Occurrences(AllStatuses, s) == 1
  {
    assert Occurrences([Rejected], s) == (if s == Rejected then 1 else 0) by {
      assert [Rejected][1..] == [];
    }
    assert Occurrences([Offer, Rejected], s) == (if s in {Offer, Rejected} then 1 else 0) by {
      assert [Offer, Rejected][1..] == [Rejected];
    }
    assert Occurrences([Interview, Offer, Rejected], s) == (if s in {Interview, Offer, Rejected} then 1 else 0) by {
      assert [Interview, Offer, Rejected][1..] == [Offer, Rejected];
    }
    assert Occurrences([Test, Interview, Offer, Rejected], s)
        == (if s in {Test, Interview, Offer, Rejected} then 1 else 0) by {
      assert [Test, Interview, Offer, Rejected][1..] == [Interview, Offer, Rejected];
    }
    assert Occurrences([Screening, Test, Interview, Offer, Rejected], s)
        == (if s in {Screening, Test, Interview, Offer, Rejected} then 1 else 0) by {
      assert [Screening, Test, Interview, Offer, Rejected][1..] == [Test, Interview, Offer, Rejected];
    }
    assert Occurrences([Applied, Screening, Test, Interview, Offer, Rejected], s) == (if s != Saved then 1 else 0) by {
      assert [Applied, Screening, Test, Interview, Offer, Rejected][1..] == [Screening, Test, Interview, Offer, Rejected];
    }
    assert AllStatuses[1..] == [Applied, Screening, Test, Interview, Offer, Rejected];
  }

  /** The per-status counts over the seven statuses add up to the user's
      number of applications. */
  lemma {:induction false} CountsPartitionOwned(apps: seq<ApplicationRow>, userId: string)
    ensures SumByStatus(apps, userId, AllStatuses) == CountOwned(apps, userId)
  {
    if apps == [] {
      SumByStatusNone(apps, userId, AllStatuses);
    } else {
      CountsPartitionOwned(apps[1..], userId);
      SumByStatusCons(apps, userId, AllStatuses);
      OccursOnce(apps[0].status);
      assert CountOwned(apps, userId) == (if apps[0].userId == userId then 1 else 0) + CountOwned(apps[1..], userId);
    }
  }

  /** The distribution's counts add up to the user's number of applications. */
  lemma DistributionTotal(apps: seq<ApplicationRow>, userId: string)
    ensures SumCounts(StatusDistribution(apps, userId)) == CountOwned(apps, userId)
  {
    GroupsSum(apps, userId, AllStatuses);
    CountsPartitionOwned(apps, userId);
  }

  /** Todo ordering: priority high, medium, low ... */
  function PriorityRank(p: Priority): (r: int)
    ensures 1 <= r <= 3
    ensures r == 1 <==> p == High
    ensures r == 3 <==> p == Low
  {
    match p
    case High => 1
    case Medium => 2
    case Low => 3
  }

  /** ... then `due_date ASC`, where SQLite puts NULL first ... */
  predicate DueBefore(a: Option<Day>, b: Option<Day>)
    ensures DueBefore(a, b) ==> b.Some? && a != b
    ensures a.None? ==> (DueBefore(a, b) <==> b.Some?)
    ensures a.Some? && b.Some? ==> (DueBefore(a, b) <==> a.value < b.value)
  {
    (a.None? && b.Some?) || (a.Some? && b.Some? && a.value < b.value)
  }

  /** ... then `created_at DESC`. */
  predicate TodoOrder(a: TodoRow, b: TodoRow)
    ensures TodoOrder(a, b) ==> PriorityRank(a.priority) <= PriorityRank(b.priority)
    ensures a.priority != b.priority ==> (TodoOrder(a, b) <==> PriorityRank(a.priority) < PriorityRank(b.priority))
    ensures a.priority == b.priority && a.dueDate != b.dueDate ==> (TodoOrder(a, b) <==> DueBefore(a.dueDate, b.dueDate))
  {
    PriorityRank(a.priority) < PriorityRank(b.priority)
    || (PriorityRank(a.priority) == PriorityRank(b.priority)
        && (DueBefore(a.dueDate, b.dueDate) || (a.dueDate == b.dueDate && a.createdAt >= b.createdAt)))
  }

  lemma TodoOrderIsTotalPreorder()
    ensures TotalPreorder(TodoOrder)
  {
  }

  /** `getTodosByUserId`: exactly the user's todos, ordered by priority, then
      by due date with undated first, then newest first. */
  function TodosByUser(todos: seq<TodoRow>, userId: string): (r: seq<TodoRow>)
    ensures multiset(r) == multiset(Filter(todos, (t: TodoRow) => t.userId == userId))
    ensures forall t :: t in r <==> t in todos && t.userId == userId
    ensures forall i, j :: 0 <= i < j < |r| ==> PriorityRank(r[i].priority) <= PriorityRank(r[j].priority)
    ensures forall i, j :: 0 <= i < j < |r| && r[i].priority == r[j].priority ==>
      !DueBefore(r[j].dueDate, r[i].dueDate)
    ensures forall i, j :: 0 <= i < j < |r| && r[i].priority == r[j].priority && r[i].dueDate == r[j].dueDate ==>
      r[i].createdAt >= r[j].createdAt
  {
    var owned := Filter(todos, (t: TodoRow) => t.userId == userId);
    var r := SortBy(owned, TodoOrder);
    TodoOrderIsTotalPreorder();
    SortBySorted(owned, TodoOrder);
    TodoOrderFields(r);
    assert forall t :: t in r <==> t in multiset(owned);
    r
  }

  lemma TodoOrderFields(r: seq<TodoRow>)
    requires SortedBy(r, TodoOrder)
    ensures forall i, j :: 0 <= i < j < |r| ==> PriorityRank(r[i].priority) <= PriorityRank(r[j].priority)
    ensures forall i, j :: 0 <= i < j < |r| && r[i].priority == r[j].priority ==>
      !DueBefore(r[j].dueDate, r[i].dueDate)
    ensures forall i, j :: 0 <= i < j < |r| && r[i].priority == r[j].priority && r[i].dueDate == r[j].dueDate ==>
      r[i].createdAt >= r[j].createdAt
  {
    forall i, j | 0 <= i < j < |r| ensures TodoOrder(r[i], r[j]) { }
  }

  // ---------------------------------------------------------------------------
  // The store

  /** True when some row matches `WHERE id = ? AND user_id = ?`. */
  predicate OwnsVacancy(vacancies: seq<VacancyRow>, id: string, userId: string) {
    exists v :: v in vacancies && v.id == id && v.userId == userId
  }

  predicate OwnsApplication(apps: seq<ApplicationRow>, id: string, userId: string) {
    exists a :: a in apps && a.id == id && a.userId == userId
  }

  predicate OwnsTodo(todos: seq<TodoRow>, id: string, userId: string) {
    exists t :: t in todos && t.id == id && t.userId == userId
  }

  class Database {
    var users: seq<UserRow>
    var vacancies: seq<VacancyRow>
    var applications: seq<ApplicationRow>
    var todos: seq<TodoRow>

    /** Primary keys and the UNIQUE email hold, and every foreign key names an
        existing row (`foreign_keys = ON`). */
    ghost predicate Valid()
      reads this
    {
      && UniqueUsers(users) && UniqueVacancies(vacancies)
      && UniqueApplications(applications) && UniqueTodos(todos)
      && (forall v :: v in vacancies ==> HasUserId(users, v.userId))
      && (forall a :: a in applications ==> HasUserId(users, a.userId) && HasVacancy(vacancies, a.vacancyId))
      && (forall t :: t in todos ==>
            HasUserId(users, t.userId) && (t.applicationId.Some? ==> HasApplication(applications, t.applicationId.value)))
    }

    constructor ()
      ensures Valid()
      ensures users == [] && vacancies == [] && applications == [] && todos == []
    {
      users, vacancies, applications, todos := [], [], [], [];
    }

    /** createUser (INSERT OR IGNORE). */
    method CreateUser(id: string, email: string, now: Millis)
      requires Valid()
      modifies this`users
      ensures Valid()
      ensures users == InsertOrIgnoreUser(old(users), id, email, now)
    {
      var before := users;
      users := InsertOrIgnoreUser(users, id, email, now);
      assert forall u :: u in before ==> u in users;
    }

    /** createVacancy: fails on a taken id, an unknown user or a source
        outside the CHECK list. */
    method CreateVacancy(id: string, userId: string, f: VacancyFields, now: Millis) returns (ok: bool)
      requires Valid()
      modifies this`vacancies
      ensures Valid()
      ensures ok <==> !HasVacancy(old(vacancies), id) && HasUserId(users, userId) && SourceAllowed(f.source)
      ensures ok ==> vacancies == old(vacancies) + [VacancyRow(id, userId, now, now, f.companyName, f.roleTitle,
                                       f.link, StoredSource(f.source), f.salaryRange, f.location, f.notes)]
      ensures !ok ==> vacancies == old(vacancies)
    {
      ok := !HasVacancy(vacancies, id) && HasUserId(users, userId) && SourceAllowed(f.source);
      if ok {
        var before := vacancies;
        vacancies := vacancies + [VacancyRow(id, userId, now, now, f.companyName, f.roleTitle,
                                             f.link, StoredSource(f.source), f.salaryRange, f.location, f.notes)];
        assert forall v :: v in before ==> v in vacancies;
      }
    }

    /** updateVacancy: the CHECK on source is only tried on a row the WHERE
        clause selects. */
    method UpdateVacancy(f: VacancyFields, id: string, userId: string, now: Millis) returns (ok: bool)
      requires Valid()
      modifies this`vacancies
      ensures Valid()
      ensures ok <==> SourceAllowed(f.source) || !OwnsVacancy(old(vacancies), id, userId)
      ensures SourceAllowed(f.source) ==> vacancies == UpdateVacancyRows(old(vacancies), f, id, userId, now)
      ensures !SourceAllowed(f.source) ==> vacancies == old(vacancies)
    {
      if SourceAllowed(f.source) {
        var before := vacancies;
        vacancies := UpdateVacancyRows(vacancies, f, id, userId, now);
        forall x | HasVacancy(before, x) ensures HasVacancy(vacancies, x) {
          var v :| v in before && v.id == x;
          var i :| 0 <= i < |before| && before[i] == v;
          assert vacancies[i] in vacancies;
        }
        forall v | v in vacancies ensures HasUserId(users, v.userId) {
          var i :| 0 <= i < |vacancies| && vacancies[i] == v;
          assert before[i] in before;
        }
        ok := true;
      } else {
        ok := !OwnsVacancy(vacancies, id, userId);
      }
    }

    /** createApplication: status and due date as given, no applied date,
        both timestamps and the status-change time set to now. */
    method CreateApplication(id: string, userId: string, vacancyId: string, status: string,
                             nextStep: Option<string>, dueDate: Option<Day>, now: Millis) returns (ok: bool)
      requires Valid()
      modifies this`applications
      ensures Valid()
      ensures ok <==> !HasApplication(old(applications), id) && HasUserId(users, userId)
                      && HasVacancy(vacancies, vacancyId) && ParseStatus(status).Some?
      ensures ok ==> (applications == old(applications) +
        [ApplicationRow(id, userId, vacancyId, now, now, ParseStatus(status).value, None, now, nextStep, dueDate)])
      ensures !ok ==> applications == old(applications)
    {
      var parsed := ParseStatus(status);
      ok := !HasApplication(applications, id) && HasUserId(users, userId) && HasVacancy(vacancies, vacancyId) && parsed.Some?;
      if ok {
        var before := applications;
        applications := applications + [ApplicationRow(id, userId, vacancyId, now, now, parsed.value, None, now, nextStep, dueDate)];
        assert forall a :: a in before ==> a in applications;
      }
    }

    /** updateApplicationStatus: the status text must pass the CHECK on a
        selected row. */
    method UpdateApplicationStatus(status: string, nextStep: Option<string>, dueDate: Option<Day>,
                                   appliedDate: Option<Day>, id: string, userId: string, now: Millis) returns (ok: bool)
      requires Valid()
      modifies this`applications
      ensures Valid()
      ensures ok <==> ParseStatus(status).Some? || !OwnsApplication(old(applications), id, userId)
      ensures ParseStatus(status).Some? ==>
        applications == SetApplicationStatus(old(applications), ParseStatus(status).value, nextStep, dueDate, appliedDate, id, userId, now)
      ensures ParseStatus(status).None? ==> applications == old(applications)
    {
      var parsed := ParseStatus(status);
      if parsed.Some? {
        var before := applications;
        applications := SetApplicationStatus(applications, parsed.value, nextStep, dueDate, appliedDate, id, userId, now);
        KeysKept(before, applications);
        ok := true;
      } else {
        ok := !OwnsApplication(applications, id, userId);
      }
    }

    /** updateApplicationNextStep. */
    method UpdateApplicationNextStep(nextStep: Option<string>, dueDate: Option<Day>, id: string, userId: string, now: Millis)
      requires Valid()
      modifies this`applications
      ensures Valid()
      ensures applications == SetApplicationNextStep(old(applications), nextStep, dueDate, id, userId, now)
    {
      var before := applications;
      applications := SetApplicationNextStep(applications, nextStep, dueDate, id, userId, now);
      KeysKept(before, applications);
    }

    /** The foreign keys of the applications table survive an update that keeps
        id, user_id and vacancy_id of every row. */
    lemma KeysKept(before: seq<ApplicationRow>, after: seq<ApplicationRow>)
      requires |after| == |before|
      requires forall i :: 0 <= i < |before| ==>
        after[i].id == before[i].id && after[i].userId == before[i].userId && after[i].vacancyId == before[i].vacancyId
      requires UniqueApplications(before)
      requires forall a :: a in before ==> HasUserId(users, a.userId) && HasVacancy(vacancies, a.vacancyId)
      ensures UniqueApplications(after)
      ensures forall a :: a in after ==> HasUserId(users, a.userId) && HasVacancy(vacancies, a.vacancyId)
      ensures forall x :: HasApplication(before, x) <==> HasApplication(after, x)
    {
      forall a | a in after ensures HasUserId(users, a.userId) && HasVacancy(vacancies, a.vacancyId) {
        var i :| 0 <= i < |after| && after[i] == a;
        assert before[i] in before;
      }
      forall x ensures HasApplication(before, x) <==> HasApplication(after, x) {
        if HasApplication(before, x) {
          var a :| a in before && a.id == x;
          var i :| 0 <= i < |before| && before[i] == a;
          assert after[i] in after;
        }
        if HasApplication(after, x) {
          var a :| a in after && a.id == x;
          var i :| 0 <= i < |after| && after[i] == a;
          assert before[i] in before;
        }
      }
    }

    /** createTodo: fails on a taken id, an unknown user or application, or a
        priority outside the CHECK list. */
    method CreateTodo(id: string, userId: string, applicationId: Option<string>, title: string,
                      description: Option<string>, priority: string, dueDate: Option<Day>, completed: int,
                      now: Millis) returns (ok: bool)
      requires Valid()
      modifies this`todos
      ensures Valid()
      ensures ok <==> !HasTodo(old(todos), id) && HasUserId(users, userId)
                      && (applicationId.Some? ==> HasApplication(applications, applicationId.value))
                      && ParsePriority(priority).Some?
      ensures ok ==> (todos == old(todos) +
        [TodoRow(id, userId, applicationId, now, now, title, description, completed, ParsePriority(priority).value, dueDate)])
      ensures !ok ==> todos == old(todos)
    {
      var parsed := ParsePriority(priority);
      ok := !HasTodo(todos, id) && HasUserId(users, userId)
            && (applicationId.Some? ==> HasApplication(applications, applicationId.value)) && parsed.Some?;
      if ok {
        var before := todos;
        todos := todos + [TodoRow(id, userId, applicationId, now, now, title, description, completed, parsed.value, dueDate)];
        assert forall t :: t in before ==> t in todos;
      }
    }

    /** updateTodo: the priority text must pass the CHECK on a selected row. */
    method UpdateTodo(title: string, description: Option<string>, completed: int, priority: string,
                      dueDate: Option<Day>, id: string, userId: string, now: Millis) returns (ok: bool)
      requires Valid()
      modifies this`todos
      ensures Valid()
      ensures ok <==> ParsePriority(priority).Some? || !OwnsTodo(old(todos), id, userId)
      ensures ParsePriority(priority).Some? ==>
        todos == UpdateTodoRows(old(todos), title, description, completed, ParsePriority(priority).value, dueDate, id, userId, now)
      ensures ParsePriority(priority).None? ==> todos == old(todos)
    {
      var parsed := ParsePriority(priority);
      if parsed.Some? {
        var before := todos;
        todos := UpdateTodoRows(todos, title, description, completed, parsed.value, dueDate, id, userId, now);
        forall t | t in todos
          ensures HasUserId(users, t.userId) && (t.applicationId.Some? ==> HasApplication(applications, t.applicationId.value))
        {
          var i :| 0 <= i < |todos| && todos[i] == t;
          assert before[i] in before;
        }
        ok := true;
      } else {
        ok := !OwnsTodo(todos, id, userId);
      }
    }

    /** deleteTodo. */
    method DeleteTodo(id: string, userId: string)
      requires Valid()
      modifies this`todos
      ensures Valid()
      ensures todos == DeleteTodoRows(old(todos), id, userId)
    {
      var before := todos;
      todos := DeleteTodoRows(todos, id, userId);
      DeleteKeepsUnique(before, id, userId);
    }
  }

  /** Dropping the first row keeps the ids distinct. */
  lemma UniqueTail(rows: seq<TodoRow>)
    requires rows != [] && UniqueTodos(rows)
    ensures UniqueTodos(rows[1..])
  {
    forall i, j | 0 <= i < j < |rows[1..]| ensures rows[1..][i].id != rows[1..][j].id {
      assert rows[1..][i] == rows[i + 1] && rows[1..][j] == rows[j + 1];
    }
  }

  /** A row whose id is new keeps the ids distinct in front of the rest. */
  lemma UniqueCons(t: TodoRow, rest: seq<TodoRow>)
    requires UniqueTodos(rest) && forall u :: u in rest ==> u.id != t.id
    ensures UniqueTodos([t] + rest)
  {
    var r := [t] + rest;
    forall i, j | 0 <= i < j < |r| ensures r[i].id != r[j].id {
      if i == 0 {
        assert r[j] == rest[j - 1] && rest[j - 1] in rest;
      } else {
        assert r[i] == rest[i - 1] && r[j] == rest[j - 1];
      }
    }
  }

  lemma {:induction false} DeleteKeepsUnique(rows: seq<TodoRow>, id: string, userId: string)
    requires UniqueTodos(rows)
    ensures UniqueTodos(DeleteTodoRows(rows, id, userId))
  {
    if rows != [] {
      UniqueTail(rows);
      DeleteKeepsUnique(rows[1..], id, userId);
      var rest := DeleteTodoRows(rows[1..], id, userId);
      if rows[0].id != id || rows[0].userId != userId {
        forall t | t in rest ensures t.id != rows[0].id {
          var i :| 0 <= i < |rows[1..]| && rows[1..][i] == t;
          assert rows[i + 1] == t;
        }
        UniqueCons(rows[0], rest);
      }
    }
  }
}
