/** The applyflow dashboard: reminder bucketing in `loadData`, the Active
    Applications figure, the per-status distribution and the conversion
    funnel computed on the client. */
module Dashboard {
  import opened Base
  import opened Pipeline
  import opened Db
  import opened Client

  // ---------------------------------------------------------------------------
  // Reminder buckets

  datatype Bucket = Overdue | DueToday | Upcoming | Unlisted

  /** `new Date('YYYY-MM-DD')`: midnight at the start of that day. */
  function DueInstant(d: Day): (t: Millis)
    ensures DayOf(t) == d && StartOfDay(t) == t
  {
    d * DayMs
  }

  /** The if/else-if chain of the loop body: before today's midnight, the
      same calendar date as today, no later than seven days after today's
      midnight, or none of these. An application without a due date is in
      no list. Every listed application has a due day at most a week after
      today's. */
  function BucketOf(app: Application, now: Millis): (r: Bucket)
    ensures app.nextStepDueDate.None? ==> r == Unlisted
    ensures r == Overdue ==> app.nextStepDueDate.Some? && app.nextStepDueDate.value < DayOf(now)
    ensures r == DueToday ==> app.nextStepDueDate == Some(DayOf(now))
    ensures r == Upcoming ==> app.nextStepDueDate.Some? && DayOf(now) < app.nextStepDueDate.value <= DayOf(now) + 7
  {
    if app.nextStepDueDate.None? then Unlisted
    else
      var due := DueInstant(app.nextStepDueDate.value);
      var today := StartOfDay(now);
      var weekFromNow := today + 7 * DayMs;
      assert today == DayOf(now) * DayMs;
      if due < today then Overdue
      else if DayOf(due) == DayOf(today) then DueToday
      else if due <= weekFromNow then Upcoming
      else Unlisted
  }

  /** The buckets in whole days: with `d` the due day and `t` today, overdue
      is `d < t`, today is `d == t`, upcoming is `t < d <= t + 7`; a later
      day or no due date is in no list. */
  lemma BucketByDay(app: Application, now: Millis)
    ensures app.nextStepDueDate.None? ==> BucketOf(app, now) == Unlisted
    ensures app.nextStepDueDate.Some? ==>
      var d := app.nextStepDueDate.value;
      var t := DayOf(now);
      && (BucketOf(app, now) == Overdue <==> d < t)
      && (BucketOf(app, now) == DueToday <==> d == t)
      && (BucketOf(app, now) == Upcoming <==> t < d <= t + 7)
      && (BucketOf(app, now) == Unlisted <==> t + 7 < d)
  {
    if app.nextStepDueDate.Some? {
      var d := app.nextStepDueDate.value;
      var t := DayOf(now);
      assert StartOfDay(now) == t * DayMs;
      assert d < t <==> d * DayMs < t * DayMs;
      assert d <= t + 7 <==> d * DayMs <= t * DayMs + 7 * DayMs;
    }
  }

  /** Bucketing never looks at the status: a closed application with a past
      due date is still overdue. */
  lemma BucketIgnoresStatus(app: Application, s: Status, now: Millis)
    ensures BucketOf(app.(status := s), now) == BucketOf(app, now)
  {
  }

  /** The applications of bucket `b`, in list order. */
  function Bucketed(apps: seq<Application>, now: Millis, b: Bucket): (r: seq<Application>)
    ensures |r| <= |apps|
    ensures forall a :: a in r <==> a in apps && BucketOf(a, now) == b
  {
    Filter(apps, (a: Application) => BucketOf(a, now) == b)
  }

  /** Bucketing is taken element by element: bucketing a concatenation
      concatenates the buckets, so each list keeps the input order. */
  lemma BucketedAppend(xs: seq<Application>, ys: seq<Application>, now: Millis, b: Bucket)
    ensures Bucketed(xs + ys, now, b) == Bucketed(xs, now, b) + Bucketed(ys, now, b)
  {
    FilterAppend(xs, ys, (a: Application) => BucketOf(a, now) == b);
  }

  /** One more application adds itself to exactly its own bucket. */
  lemma BucketedSnoc(xs: seq<Application>, a: Application, now: Millis, b: Bucket)
    ensures Bucketed(xs + [a], now, b) == Bucketed(xs, now, b) + (if BucketOf(a, now) == b then [a] else [])
  {
    BucketedAppend(xs, [a], now, b);
    assert [a][1..] == [];
  }

  /** No application is in two lists. */
  lemma BucketsDisjoint(apps: seq<Application>, now: Millis, a: Application)
    ensures a in Bucketed(apps, now, Overdue) ==> a !in Bucketed(apps, now, DueToday) && a !in Bucketed(apps, now, Upcoming)
    ensures a in Bucketed(apps, now, DueToday) ==> a !in Bucketed(apps, now, Upcoming)
  {
  }

  /** The `apps.forEach` loop of `loadData`, pushing onto three arrays. */
  method BucketReminders(apps: seq<Application>, now: Millis)
    returns (overdue: seq<Application>, today: seq<Application>, upcoming: seq<Application>)
    ensures overdue == Bucketed(apps, now, Overdue)
    ensures today == Bucketed(apps, now, DueToday)
    ensures upcoming == Bucketed(apps, now, Upcoming)
  {
    overdue, today, upcoming := [], [], [];
    var i := 0;
    while i < |apps|
      invariant 0 <= i <= |apps|
      invariant overdue == Bucketed(apps[..i], now, Overdue)
      invariant today == Bucketed(apps[..i], now, DueToday)
      invariant upcoming == Bucketed(apps[..i], now, Upcoming)
    {
      var app := apps[i];
      assert apps[..i + 1] == apps[..i] + [app];
      BucketedSnoc(apps[..i], app, now, Overdue);
      BucketedSnoc(apps[..i], app, now, DueToday);
      BucketedSnoc(apps[..i], app, now, Upcoming);
      if app.nextStepDueDate.Some? {
        var due := DueInstant(app.nextStepDueDate.value);
        var midnight := StartOfDay(now);
        var weekFromNow := midnight + 7 * DayMs;
        if due < midnight {
          overdue := overdue + [app];
        } else if DayOf(due) == DayOf(midnight) {
          today := today + [app];
        } else if due <= weekFromNow {
          upcoming := upcoming + [app];
        }
      }
      i := i + 1;
    }
    assert apps[..i] == apps;
  }

  // ---------------------------------------------------------------------------
  // Counts, distribution and funnel

  /** The number of applications whose status is in `statuses`. */
  function CountIn(apps: seq<Application>, statuses: set<Status>): (r: nat)
    ensures r <= |apps|
  {
    if apps == [] then 0
    else (if apps[0].status in statuses then 1 else 0) + CountIn(apps[1..], statuses)
  }

  lemma {:induction false} CountInMono(apps: seq<Application>, s: set<Status>, t: set<Status>)
    requires s <= t
    ensures CountIn(apps, s) <= CountIn(apps, t)
  {
    if apps != [] {
      CountInMono(apps[1..], s, t);
    }
  }

  lemma {:induction false} CountInUnion(apps: seq<Application>, s: set<Status>, t: set<Status>)
    requires s !! t
    ensures CountIn(apps, s + t) == CountIn(apps, s) + CountIn(apps, t)
  {
    if apps != [] {
      CountInUnion(apps[1..], s, t);
    }
  }

  lemma {:induction false} CountInEvery(apps: seq<Application>, s: set<Status>)
    requires forall x: Status :: x in s
    ensures CountIn(apps, s) == |apps|
  {
    if apps != [] {
      CountInEvery(apps[1..], s);
    }
  }

  const ClosedStatuses: set<Status> := {Offer, Rejected}

  /** `applications.filter(app => app.status !== 'rejected' && app.status !== 'offer').length`. */
  function ActiveCount(apps: seq<Application>): (r: nat)
    ensures r <= |apps|
  {
    if apps == [] then 0
    else (if apps[0].status != Rejected && apps[0].status != Offer then 1 else 0) + ActiveCount(apps[1..])
  }

  /** Every application is either active or closed as offer or rejected. */
  lemma {:induction false} ActivePlusClosed(apps: seq<Application>)
    ensures ActiveCount(apps) + CountIn(apps, ClosedStatuses) == |apps|
  {
    if apps != [] {
      ActivePlusClosed(apps[1..]);
    }
  }

  /** The status distribution on the client: one count per status of the list. */
  function PerStatus(apps: seq<Application>, statuses: seq<Status>): (r: seq<nat>)
    ensures |r| == |statuses|
    ensures forall i :: 0 <= i < |statuses| ==> r[i] == CountIn(apps, {statuses[i]})
  {
    seq(|statuses|, i requires 0 <= i < |statuses| => CountIn(apps, {statuses[i]}))
  }

  function Sum(xs: seq<nat>): nat {
    if xs == [] then 0 else xs[0] + Sum(xs[1..])
  }

  /** The counts over a list of distinct statuses add up to the count over
      the set of them. */
  lemma {:induction false} PerStatusSum(apps: seq<Application>, statuses: seq<Status>)
    requires forall i, j :: 0 <= i < j < |statuses| ==> statuses[i] != statuses[j]
    ensures Sum(PerStatus(apps, statuses)) == CountIn(apps, set s | s in statuses)
  {
    if statuses == [] {
      assert (set s | s in statuses) == {};
      CountInZero(apps);
    } else {
      var rest := statuses[1..];
      PerStatusSum(apps, rest);
      assert PerStatus(apps, statuses)[1..] == PerStatus(apps, rest);
      assert (set s | s in statuses) == {statuses[0]} + (set s | s in rest);
      assert statuses[0] !in rest;
      CountInUnion(apps, {statuses[0]}, set s | s in rest);
    }
  }

  lemma {:induction false} CountInZero(apps: seq<Application>)
    ensures CountIn(apps, {}) == 0
  {
    if apps != [] {
      CountInZero(apps[1..]);
    }
  }

  /** The seven per-status counts of the distribution panel add up to the
      number of applications. */
  lemma DistributionAddsUp(apps: seq<Application>)
    ensures Sum(PerStatus(apps, AllStatuses)) == |apps|
  {
    PerStatusSum(apps, AllStatuses);
    var every := set s | s in AllStatuses;
    forall x: Status ensures x in every {
      AllStatusesComplete(x);
    }
    CountInEvery(apps, every);
  }

  /** The percentage shown next to a status: the share of the applications
      that have that status, out of 100, and 0 for an empty list. */
  function StatusPercentage(apps: seq<Application>, s: Status): (r: real)
    ensures IsPercentage(r, CountIn(apps, {s}), |apps|)
    ensures 0.0 <= r <= 100.0
  {
    RateAtMostHundred(CountIn(apps, {s}), |apps|);
    Rate(CountIn(apps, {s}), |apps|)
  }

  const AppliedOnward: set<Status> := {Applied, Screening, Test, Interview, Offer}
  const InterviewOnward: set<Status> := {Interview, Offer}

  datatype Funnel = Funnel(savedToApplied: real, appliedToInterview: real, interviewToOffer: real)

  /** The three conversion rates: the share of all applications that got
      past saved, of those the share that reached an interview, and of
      those the share that got an offer, each out of 100 and 0 when its
      denominator is 0. Each numerator's statuses are a subset of its
      denominator's, so each rate lies between 0 and 100. */
  function ConversionFunnel(apps: seq<Application>): (r: Funnel)
    ensures IsPercentage(r.savedToApplied, CountIn(apps, AppliedOnward), |apps|)
    ensures IsPercentage(r.appliedToInterview, CountIn(apps, InterviewOnward), CountIn(apps, AppliedOnward))
    ensures IsPercentage(r.interviewToOffer, CountIn(apps, {Offer}), CountIn(apps, InterviewOnward))
    ensures 0.0 <= r.savedToApplied <= 100.0
    ensures 0.0 <= r.appliedToInterview <= 100.0
    ensures 0.0 <= r.interviewToOffer <= 100.0
  {
    var applied := CountIn(apps, AppliedOnward);
    var interviewed := CountIn(apps, InterviewOnward);
    var offers := CountIn(apps, {Offer});
    CountInMono(apps, InterviewOnward, AppliedOnward);
    CountInMono(apps, {Offer}, InterviewOnward);
    RateAtMostHundred(applied, |apps|);
    RateAtMostHundred(interviewed, applied);
    RateAtMostHundred(offers, interviewed);
    Funnel(Rate(applied, |apps|), Rate(interviewed, applied), Rate(offers, interviewed))
  }

  // ---------------------------------------------------------------------------
  // Loading the list

  /** With the rows converted as the API sends them, no application ever has
      a due date, so every reminder list stays empty. */
  lemma AsWrittenNeverBuckets(rows: seq<AppWithVacancy>, now: Millis, b: Bucket)
    requires b != Unlisted
    ensures forall a :: a !in Bucketed(FromRowsAsWritten(rows), now, b)
  {
    var apps := FromRowsAsWritten(rows);
    var r := Bucketed(apps, now, b);
    forall a | a in apps ensures BucketOf(a, now) == Unlisted {
      var i :| 0 <= i < |apps| && apps[i] == a;
    }
  }

  /** A row due yesterday: converted as evidently intended it is overdue,
      converted as the API sends it it is in no list. */
  lemma OverdueRowLost()
    ensures var now := 10 * DayMs;
      var row := AppWithVacancy(
        ApplicationRow("a1", "u1", "v1", 0, 0, Applied, None, 0, Some("Call back"), Some(9)),
        VacancyRow("v1", "u1", 0, 0, "Acme", "Engineer", "https://acme.example/jobs/1", None, None, None, None));
      && BucketOf(FromRow(row), now) == Overdue
      && BucketOf(FromRowAsWritten(row), now) == Unlisted
  {
    var now := 10 * DayMs;
    assert DayOf(now) == 10;
    assert StartOfDay(now) == now;
  }

  /** `loadData`: the applications are replaced only when their fetch
      succeeds (`appsOk`); the reminder lists are recomputed only when the
      analytics fetch succeeds (`analyticsOk`), from the applications this
      load fetched, which are none when their fetch failed. Whatever is not
      set keeps its previous value. */
  method LoadReminders(rows: seq<AppWithVacancy>, now: Millis, appsOk: bool, analyticsOk: bool,
                       prevApps: seq<Application>, prevOverdue: seq<Application>,
                       prevToday: seq<Application>, prevUpcoming: seq<Application>)
    returns (apps: seq<Application>, overdue: seq<Application>, today: seq<Application>, upcoming: seq<Application>)
    ensures apps == if appsOk then FromRows(rows) else prevApps
    ensures analyticsOk ==>
      var loaded := if appsOk then FromRows(rows) else [];
      && overdue == Bucketed(loaded, now, Overdue)
      && today == Bucketed(loaded, now, DueToday)
      && upcoming == Bucketed(loaded, now, Upcoming)
    ensures analyticsOk && !appsOk ==> overdue == [] && today == [] && upcoming == []
    ensures !analyticsOk ==> overdue == prevOverdue && today == prevToday && upcoming == prevUpcoming
  {
    var loaded: seq<Application> := [];
    apps := prevApps;
    if appsOk {
      loaded := FromRows(rows);
      apps := loaded;
    }
    overdue, today, upcoming := prevOverdue, prevToday, prevUpcoming;
    if analyticsOk {
      overdue, today, upcoming := BucketReminders(loaded, now);
    }
  }
}
