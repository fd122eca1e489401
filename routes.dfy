/** The fixed account the list and create routes work under while their
    authentication check is switched off. */
module TestAccount {
  const TestUserId: string := "hmj234c37ammjias6tj"
  const TestUserEmail: string := "test-user@example.com"
}

/** /api/vacancies over the SQLite store. A request body that is not JSON is
    `None`; fresh ids are parameters. There is no transaction around the
    two inserts of POST. */
module VacanciesRoute {
  import opened Base
  import opened Pipeline
  import opened Db
  import opened Http
  import opened TestAccount

  /** The request body; absent keys and JSON null are `None`. */
  datatype VacancyForm = VacancyForm(
    companyName: Option<string>, roleTitle: Option<string>, link: Option<string>, source: Option<string>,
    salaryRange: Option<string>, location: Option<string>, notes: Option<string>)

  const ValidSources: seq<string> := ["linkedin", "hh", "indeed", "telegram", "direct", "other"]

  const InitialNextStep: string := "Review and apply to this vacancy"

  /** One of the three required fields is falsy: a form that passes holds
      non-empty text in all three. */
  predicate MissingRequired(form: VacancyForm)
    ensures !MissingRequired(form) <==>
      && form.companyName.Some? && |form.companyName.value| > 0
      && form.roleTitle.Some? && |form.roleTitle.value| > 0
      && form.link.Some? && |form.link.value| > 0
  {
    !Truthy(form.companyName) || !Truthy(form.roleTitle) || !Truthy(form.link)
  }

  /** A truthy source outside the list: exactly a non-empty source that
      names no source of the pipeline. */
  predicate InvalidSource(form: VacancyForm)
    ensures InvalidSource(form) <==> Truthy(form.source) && ParseSource(form.source.value).None?
  {
    if Truthy(form.source) && ParseSource(form.source.value).Some? then
      assert SourceName(ParseSource(form.source.value).value) == form.source.value;
      false
    else
      Truthy(form.source) && form.source.value !in ValidSources
  }

  /** The route's list is the CHECK list of the `source` column, so a form
      the route accepts never trips that CHECK. */
  lemma SourceCheckAgrees(form: VacancyForm)
    ensures forall s :: s in ValidSources <==> ParseSource(s).Some?
    ensures !InvalidSource(form) ==> SourceAllowed(OrNull(form.source))
  {
    forall s ensures s in ValidSources <==> ParseSource(s).Some? {
      if ParseSource(s).Some? {
        var src := ParseSource(s).value;
        assert SourceName(src) == s;
      }
    }
  }

  /** The values bound to createVacancy: optional fields `|| null`. */
  function FieldsOf(form: VacancyForm): (f: VacancyFields)
    requires !MissingRequired(form)
    ensures f.companyName == form.companyName.value && f.roleTitle == form.roleTitle.value && f.link == form.link.value
    ensures f.source == OrNull(form.source) && f.salaryRange == OrNull(form.salaryRange)
    ensures f.location == OrNull(form.location) && f.notes == OrNull(form.notes)
  {
    VacancyFields(form.companyName.value, form.roleTitle.value, form.link.value,
                  OrNull(form.source), OrNull(form.salaryRange), OrNull(form.location), OrNull(form.notes))
  }

  /** The row a successful POST inserts. */
  function NewVacancy(form: VacancyForm, id: string, now: Millis): (v: VacancyRow)
    requires !MissingRequired(form) && !InvalidSource(form)
    ensures v.id == id && v.userId == TestUserId && v.createdAt == now && v.updatedAt == now
    ensures v.companyName == form.companyName.value && v.roleTitle == form.roleTitle.value && v.link == form.link.value
    ensures v.source.Some? <==> Truthy(form.source)
    ensures v.source.Some? ==> SourceName(v.source.value) == form.source.value
  {
    SourceCheckAgrees(form);
    var f := FieldsOf(form);
    VacancyRow(id, TestUserId, now, now, f.companyName, f.roleTitle, f.link, StoredSource(f.source),
               f.salaryRange, f.location, f.notes)
  }

  /** GET: the test user's vacancies, newest first. */
  method Get(db: Database) returns (resp: Response<seq<VacancyRow>>)
    ensures resp == Reply(200, VacanciesByUser(db.vacancies, TestUserId))
  {
    resp := Reply(200, VacanciesByUser(db.vacancies, TestUserId));
  }

  /** POST: make sure the test user exists, validate, insert the vacancy and
      a saved application for it, and answer 201 with the stored vacancy. A
      failed insert answers 500; when the second insert fails the vacancy
      stays. */
  method Post(db: Database, body: Option<VacancyForm>, vacancyId: string, applicationId: string, now: Millis)
    returns (resp: Response<VacancyRow>)
    requires db.Valid()
    modifies db`users, db`vacancies, db`applications
    ensures db.Valid()
    ensures db.users == InsertOrIgnoreUser(old(db.users), TestUserId, TestUserEmail, now)
    ensures body.None? ==> resp == Error(500, InternalServerError)
    ensures body.Some? && MissingRequired(body.value) ==>
      resp == Error(400, "Company name, role title, and link are required")
    ensures body.Some? && !MissingRequired(body.value) && InvalidSource(body.value) ==>
      resp == Error(400, "Invalid source")
    ensures resp.Error? && resp.status == 400 ==>
      db.vacancies == old(db.vacancies) && db.applications == old(db.applications)
    ensures body.Some? && !MissingRequired(body.value) && !InvalidSource(body.value) ==>
      var inserted := !HasVacancy(old(db.vacancies), vacancyId) && HasUserId(db.users, TestUserId);
      && (!inserted ==> resp == Error(500, InternalServerError)
                        && db.vacancies == old(db.vacancies) && db.applications == old(db.applications))
      && (inserted ==> db.vacancies == old(db.vacancies) + [NewVacancy(body.value, vacancyId, now)])
      && (inserted && HasApplication(old(db.applications), applicationId) ==>
            resp == Error(500, InternalServerError) && db.applications == old(db.applications))
      && (inserted && !HasApplication(old(db.applications), applicationId) ==>
            && resp == Reply(201, NewVacancy(body.value, vacancyId, now))
            && db.applications == old(db.applications) +
                 [ApplicationRow(applicationId, TestUserId, vacancyId, now, now, Saved, None, now, Some(InitialNextStep), None)])
    ensures body.None? ==> db.vacancies == old(db.vacancies) && db.applications == old(db.applications)
  {
    db.CreateUser(TestUserId, TestUserEmail, now);
    if body.None? {
      return Error(500, InternalServerError);
    }
    var form := body.value;
    if MissingRequired(form) {
      return Error(400, "Company name, role title, and link are required");
    }
    if InvalidSource(form) {
      return Error(400, "Invalid source");
    }
    SourceCheckAgrees(form);
    var ok := db.CreateVacancy(vacancyId, TestUserId, FieldsOf(form), now);
    if !ok {
      return Error(500, InternalServerError);
    }
    ok := db.CreateApplication(applicationId, TestUserId, vacancyId, "saved", Some(InitialNextStep), None, now);
    if !ok {
      assert HasVacancy(db.vacancies, vacancyId) by {
        assert db.vacancies[|db.vacancies| - 1] in db.vacancies;
      }
      return Error(500, InternalServerError);
    }
    var vacancy := VacancyById(db.vacancies, vacancyId, TestUserId);
    var row := NewVacancy(form, vacancyId, now);
    assert row in db.vacancies by {
      assert db.vacancies[|db.vacancies| - 1] == row;
    }
    assert vacancy == Some(row) by {
      assert forall v :: v in old(db.vacancies) ==> v.id != vacancyId;
    }
    resp := Reply(201, vacancy.value);
  }
}

/** /api/applications in the SQLite variant. */
module ApplicationsRoute {
  import opened Base
  import opened Pipeline
  import opened Db
  import opened Http
  import opened TestAccount
  import Auth

  /** The POST body; `nextStepDueDate` is `None` for a missing or empty date. */
  datatype ApplicationRequest = ApplicationRequest(
    vacancyId: Option<string>, nextStep: Option<string>, status: Option<string>, nextStepDueDate: Option<Day>)

  /** GET: make sure the test user exists and list its applications joined
      with their vacancies, newest first. */
  method Get(db: Database, now: Millis) returns (resp: Response<seq<AppWithVacancy>>)
    requires db.Valid()
    modifies db`users
    ensures db.Valid()
    ensures db.users == InsertOrIgnoreUser(old(db.users), TestUserId, TestUserEmail, now)
    ensures resp == Reply(200, ApplicationsByUser(db.applications, db.vacancies, TestUserId))
  {
    db.CreateUser(TestUserId, TestUserEmail, now);
    resp := Reply(200, ApplicationsByUser(db.applications, db.vacancies, TestUserId));
  }

  /** POST: 401 without a current user, 400 without a vacancy id or next
      step, 404 unless the vacancy belongs to the user, otherwise insert the
      application (status `|| 'saved'`) and answer 201 with it joined with its
      vacancy; a status the CHECK refuses, or a taken id, gives 500. */
  method Post(db: Database, authorization: Option<string>, cookie: Option<string>,
              body: Option<ApplicationRequest>, applicationId: string, now: Millis)
    returns (resp: Response<AppWithVacancy>)
    requires db.Valid()
    modifies db`applications
    ensures db.Valid()
    ensures var user := Auth.GetCurrentUser(db.users, authorization, cookie);
      && (user.None? ==> resp == Error(401, "Unauthorized"))
      && (user.Some? && body.None? ==> resp == Error(500, InternalServerError))
      && (user.Some? && body.Some? && !(Truthy(body.value.vacancyId) && Truthy(body.value.nextStep)) ==>
            resp == Error(400, "Vacancy ID and next step are required"))
      && (user.Some? && body.Some? && Truthy(body.value.vacancyId) && Truthy(body.value.nextStep)
          && VacancyById(db.vacancies, body.value.vacancyId.value, user.value.id).None? ==>
            resp == Error(404, "Vacancy not found"))
    ensures resp.Error? && resp.status != 500 ==> db.applications == old(db.applications)
    ensures resp.Reply? <==>
      var user := Auth.GetCurrentUser(db.users, authorization, cookie);
      && user.Some? && body.Some? && Truthy(body.value.vacancyId) && Truthy(body.value.nextStep)
      && VacancyById(db.vacancies, body.value.vacancyId.value, user.value.id).Some?
      && !HasApplication(old(db.applications), applicationId)
      && ParseStatus(OrElse(body.value.status, "saved")).Some?
    ensures resp.Reply? ==>
      var user := Auth.GetCurrentUser(db.users, authorization, cookie).value;
      var req := body.value;
      var row := ApplicationRow(applicationId, user.id, req.vacancyId.value, now, now,
                                ParseStatus(OrElse(req.status, "saved")).value, None, now, req.nextStep, req.nextStepDueDate);
      && db.applications == old(db.applications) + [row]
      && resp.status == 201 && resp.body.app == row
      && resp.body.vacancy == VacancyById(db.vacancies, req.vacancyId.value, user.id).value
    ensures resp.Error? ==> db.applications == old(db.applications)
  {
    var user := Auth.GetCurrentUser(db.users, authorization, cookie);
    if user.None? {
      return Error(401, "Unauthorized");
    }
    if body.None? {
      return Error(500, InternalServerError);
    }
    var req := body.value;
    if !Truthy(req.vacancyId) || !Truthy(req.nextStep) {
      return Error(400, "Vacancy ID and next step are required");
    }
    var vacancy := VacancyById(db.vacancies, req.vacancyId.value, user.value.id);
    if vacancy.None? {
      return Error(404, "Vacancy not found");
    }
    assert HasUserId(db.users, user.value.id);
    assert HasVacancy(db.vacancies, req.vacancyId.value);
    var status := OrElse(req.status, "saved");
    var ok := db.CreateApplication(applicationId, user.value.id, req.vacancyId.value, status,
                                   req.nextStep, req.nextStepDueDate, now);
    if !ok {
      return Error(500, InternalServerError);
    }
    var row := ApplicationRow(applicationId, user.value.id, req.vacancyId.value, now, now,
                              ParseStatus(status).value, None, now, req.nextStep, req.nextStepDueDate);
    var found := ApplicationById(db.applications, db.vacancies, applicationId, user.value.id);
    assert row in db.applications by {
      assert db.applications[|db.applications| - 1] == row;
    }
    assert found.value.app == row by {
      assert forall a :: a in old(db.applications) ==> a.id != applicationId;
    }
    UniqueVacancy(db.vacancies, vacancy.value, found.value.vacancy);
    resp := Reply(201, found.value);
  }

  /** Two vacancy rows with the same id are the same row. */
  lemma UniqueVacancy(vacancies: seq<VacancyRow>, v: VacancyRow, w: VacancyRow)
    requires UniqueVacancies(vacancies)
    requires v in vacancies && w in vacancies && v.id == w.id
    ensures v == w
  {
    var i :| 0 <= i < |vacancies| && vacancies[i] == v;
    var j :| 0 <= j < |vacancies| && vacancies[j] == w;
    assert i == j;
  }
}

/** /api/todos in the SQLite variant: the stored integer `completed` goes
    out as a boolean. */
module TodosRoute {
  import opened Base
  import opened Pipeline
  import opened Db
  import opened Http
  import opened TestAccount

  /** A todo as the route sends it. */
  datatype ApiTodo = ApiTodo(
    id: string, userId: string, applicationId: Option<string>, createdAt: Millis, updatedAt: Millis,
    title: string, description: Option<string>, completed: bool, priority: Priority, dueDate: Option<Day>)

  /** `{ ...todo, completed: Boolean(todo.completed) }`. */
  function ToApi(t: TodoRow): (r: ApiTodo)
    ensures r.completed <==> t.completed != 0
    ensures r.id == t.id && r.userId == t.userId && r.applicationId == t.applicationId
    ensures r.title == t.title && r.description == t.description && r.priority == t.priority && r.dueDate == t.dueDate
    ensures r.createdAt == t.createdAt && r.updatedAt == t.updatedAt
  {
    ApiTodo(t.id, t.userId, t.applicationId, t.createdAt, t.updatedAt, t.title, t.description,
            t.completed != 0, t.priority, t.dueDate)
  }

  /** The response list: the user's todos in store order, each converted. */
  function ToApiList(todos: seq<TodoRow>): (r: seq<ApiTodo>)
    ensures |r| == |todos|
    ensures forall i :: 0 <= i < |todos| ==> r[i] == ToApi(todos[i])
  {
    seq(|todos|, i requires 0 <= i < |todos| => ToApi(todos[i]))
  }

  /** The POST body. */
  datatype TodoRequest = TodoRequest(
    title: Option<string>, applicationId: Option<string>, description: Option<string>,
    priority: Option<string>, dueDate: Option<Day>)

  /** The row a successful POST inserts: defaults `null`, `''`, `'medium'`,
      not completed. */
  function NewTodo(req: TodoRequest, id: string, now: Millis): (t: TodoRow)
    requires Truthy(req.title) && ParsePriority(OrElse(req.priority, "medium")).Some?
    ensures t.id == id && t.userId == TestUserId && t.title == req.title.value && t.completed == 0
    ensures t.applicationId == OrNull(req.applicationId)
    ensures t.description == Some(OrElse(req.description, ""))
    ensures !Truthy(req.priority) ==> t.priority == Medium
    ensures Truthy(req.priority) ==> PriorityName(t.priority) == req.priority.value
    ensures t.dueDate == req.dueDate && t.createdAt == now && t.updatedAt == now
  {
    TodoRow(id, TestUserId, OrNull(req.applicationId), now, now, req.title.value, Some(OrElse(req.description, "")),
            0, ParsePriority(OrElse(req.priority, "medium")).value, req.dueDate)
  }

  /** GET: the test user's todos in priority, due date, recency order. */
  method Get(db: Database) returns (resp: Response<seq<ApiTodo>>)
    ensures resp == Reply(200, ToApiList(TodosByUser(db.todos, TestUserId)))
  {
    resp := Reply(200, ToApiList(TodosByUser(db.todos, TestUserId)));
  }

  /** POST: make sure the test user exists; 400 without a title; otherwise
      insert with the defaults and answer 201 with the stored todo. A failed
      insert (priority outside the CHECK list, an unknown application, a
      taken id) answers 500. */
  method Post(db: Database, body: Option<TodoRequest>, todoId: string, now: Millis) returns (resp: Response<ApiTodo>)
    requires db.Valid()
    modifies db`users, db`todos
    ensures db.Valid()
    ensures db.users == InsertOrIgnoreUser(old(db.users), TestUserId, TestUserEmail, now)
    ensures body.None? ==> resp == Error(500, InternalServerError)
    ensures body.Some? && !Truthy(body.value.title) ==> resp == Error(400, "Title is required")
    ensures resp.Reply? <==>
      && body.Some? && Truthy(body.value.title)
      && !HasTodo(old(db.todos), todoId) && HasUserId(db.users, TestUserId)
      && (Truthy(body.value.applicationId) ==> HasApplication(db.applications, body.value.applicationId.value))
      && ParsePriority(OrElse(body.value.priority, "medium")).Some?
    ensures resp.Reply? ==>
      && db.todos == old(db.todos) + [NewTodo(body.value, todoId, now)]
      && resp == Reply(201, ToApi(NewTodo(body.value, todoId, now)))
      && !resp.body.completed
    ensures resp.Error? ==> db.todos == old(db.todos)
  {
    db.CreateUser(TestUserId, TestUserEmail, now);
    if body.None? {
      return Error(500, InternalServerError);
    }
    var req := body.value;
    if !Truthy(req.title) {
      return Error(400, "Title is required");
    }
    var ok := db.CreateTodo(todoId, TestUserId, OrNull(req.applicationId), req.title.value,
                            Some(OrElse(req.description, "")), OrElse(req.priority, "medium"), req.dueDate, 0, now);
    if !ok {
      return Error(500, InternalServerError);
    }
    var row := NewTodo(req, todoId, now);
    assert db.todos[|db.todos| - 1] == row;
    var listed := TodosByUser(db.todos, TestUserId);
    var found := FindFirst(listed, (t: TodoRow) => t.id == todoId);
    assert row in listed;
    assert found == Some(row) by {
      assert forall t :: t in old(db.todos) ==> t.id != todoId;
    }
    resp := Reply(201, ToApi(found.value));
  }
}
