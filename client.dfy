/** The application record as the applyflow pages and board read it from
    GET /api/applications, with camelCase keys, and the conversion of a
    joined store row into that record. */
module Client {
  import opened Base
  import opened Pipeline
  import opened Db

  /** The fields of an application that the dashboard and the board use.
      A due date is a day number; `None` stands for null, undefined and "". */
  datatype Application = Application(
    id: string,
    vacancyId: string,
    status: Status,
    nextStep: Option<string>,
    nextStepDueDate: Option<Day>,
    companyName: string,
    roleTitle: string)

  /** What the client finds under its keys in the JSON of a row from
      getApplicationsByUserId as the statement is written: `a.*` keeps the
      snake_case names `next_step` and `next_step_due_date`, while only the
      vacancy columns and `vacancy_id` get camelCase aliases, so the keys
      `nextStep` and `nextStepDueDate` are absent. */
  function FromRowAsWritten(x: AppWithVacancy): (r: Application)
    ensures r.id == x.app.id && r.vacancyId == x.app.vacancyId && r.status == x.app.status
    ensures r.companyName == x.vacancy.companyName && r.roleTitle == x.vacancy.roleTitle
    ensures r.nextStep.None? && r.nextStepDueDate.None?
  {
    Application(x.app.id, x.app.vacancyId, x.app.status, None, None, x.vacancy.companyName, x.vacancy.roleTitle)
  }

  /** The conversion the client evidently expects: the next step and its due
      date carried over from the row. */
  function FromRow(x: AppWithVacancy): (r: Application)
    ensures r.id == x.app.id && r.vacancyId == x.app.vacancyId && r.status == x.app.status
    ensures r.companyName == x.vacancy.companyName && r.roleTitle == x.vacancy.roleTitle
    ensures r.nextStep == x.app.nextStep && r.nextStepDueDate == x.app.nextStepDueDate
  {
    Application(x.app.id, x.app.vacancyId, x.app.status, x.app.nextStep, x.app.nextStepDueDate,
                x.vacancy.companyName, x.vacancy.roleTitle)
  }

  /** The list the dashboard holds after loading. */
  function FromRows(rows: seq<AppWithVacancy>): (r: seq<Application>)
    ensures |r| == |rows|
    ensures forall i :: 0 <= i < |rows| ==> r[i] == FromRow(rows[i])
  {
    seq(|rows|, i requires 0 <= i < |rows| => FromRow(rows[i]))
  }

  /** The list as the client receives it from the statement as written. */
  function FromRowsAsWritten(rows: seq<AppWithVacancy>): (r: seq<Application>)
    ensures |r| == |rows|
    ensures forall i :: 0 <= i < |rows| ==> r[i] == FromRowAsWritten(rows[i])
  {
    seq(|rows|, i requires 0 <= i < |rows| => FromRowAsWritten(rows[i]))
  }
}
