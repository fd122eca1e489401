/** The record the Supabase variant fetches: an application row with the
    names of its vacancy nested under `vacancies`. */
module SupabaseTypes {
  import opened Base
  import opened Pipeline

  type Millis = int
  type Day = int

  datatype VacancyNames = VacancyNames(companyName: string, roleTitle: string)

  datatype ApplicationWithVacancy = ApplicationWithVacancy(
    id: string,
    userId: string,
    vacancyId: string,
    createdAt: Millis,
    updatedAt: Millis,
    status: Status,
    appliedDate: Option<Day>,
    lastStatusChangeAt: Millis,
    nextStep: string,
    nextStepDueDate: Option<Day>,
    vacancies: VacancyNames)

  /** `.order("created_at", { ascending: true })`. */
  predicate CreatedNoLater(a: ApplicationWithVacancy, b: ApplicationWithVacancy) {
    a.createdAt <= b.createdAt
  }
}

/** The Supabase dashboard page: the two reminder filters over the fetched
    list and the fixed column order. */
module SupabaseDashboard {
  import opened Base
  import opened Pipeline
  import opened SupabaseTypes

  /** `dayjs(due).isSame(today, "day")`. */
  predicate DueToday(app: ApplicationWithVacancy, now: Millis) {
    app.nextStepDueDate.Some? && app.nextStepDueDate.value == DayOf(now)
  }

  /** `dayjs(due).isBefore(today, "day")`. */
  predicate DueBeforeToday(app: ApplicationWithVacancy, now: Millis) {
    app.nextStepDueDate.Some? && app.nextStepDueDate.value < DayOf(now)
  }

  /** `todayReminders`: exactly the applications due on the current day, in
      fetched order. */
  function TodayReminders(apps: seq<ApplicationWithVacancy>, now: Millis): (r: seq<ApplicationWithVacancy>)
    ensures forall a :: a in r <==> a in apps && DueToday(a, now)
    ensures SortedBy(apps, CreatedNoLater) ==> SortedBy(r, CreatedNoLater)
  {
    var p := (a: ApplicationWithVacancy) => DueToday(a, now);
    if SortedBy(apps, CreatedNoLater) then
      FilterSorted(apps, p, CreatedNoLater);
      Filter(apps, p)
    else
      Filter(apps, p)
  }

  /** `overdueReminders`: exactly the applications due on an earlier day, in
      fetched order. */
  function OverdueReminders(apps: seq<ApplicationWithVacancy>, now: Millis): (r: seq<ApplicationWithVacancy>)
    ensures forall a :: a in r <==> a in apps && DueBeforeToday(a, now)
    ensures SortedBy(apps, CreatedNoLater) ==> SortedBy(r, CreatedNoLater)
  {
    var p := (a: ApplicationWithVacancy) => DueBeforeToday(a, now);
    if SortedBy(apps, CreatedNoLater) then
      FilterSorted(apps, p, CreatedNoLater);
      Filter(apps, p)
    else
      Filter(apps, p)
  }

  /** The two lists never share an application; one without a due date, or
      due after today, is in neither; status plays no part. */
  lemma RemindersPartition(apps: seq<ApplicationWithVacancy>, now: Millis, a: ApplicationWithVacancy)
    ensures !(a in TodayReminders(apps, now) && a in OverdueReminders(apps, now))
    ensures a.nextStepDueDate.None? ==> a !in TodayReminders(apps, now) && a !in OverdueReminders(apps, now)
    ensures a.nextStepDueDate.Some? && a.nextStepDueDate.value > DayOf(now) ==>
      a !in TodayReminders(apps, now) && a !in OverdueReminders(apps, now)
    ensures forall s :: DueToday(a.(status := s), now) == DueToday(a, now)
                     && DueBeforeToday(a.(status := s), now) == DueBeforeToday(a, now)
  {
  }

  /** `applicationsData || []`. */
  function Applications(data: Option<seq<ApplicationWithVacancy>>): (r: seq<ApplicationWithVacancy>)
    ensures data.None? ==> r == []
    ensures data.Some? ==> r == data.value
  {
    if data.Some? then data.value else []
  }

  /** The column list handed to the board. */
  const Statuses: seq<Status> := [Saved, Applied, Screening, Test, Interview, Offer, Rejected]

  /** The columns are the seven statuses of the union, each once, in
      pipeline order. */
  lemma StatusesArePipeline()
    ensures Statuses == AllStatuses
    ensures forall s :: s in Statuses
  {
    forall s ensures s in Statuses {
      AllStatusesComplete(s);
    }
  }
}
