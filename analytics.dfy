/** GET /api/analytics: the status distribution, the sizes of the stalled and
    overdue queries, the four stage conversions with their zero guards and
    the fixed time-in-stage table, all for one user. */
module Analytics {
  import opened Base
  import opened Pipeline
  import opened Db
  import opened Http

  datatype Stage = Stage(stage: string, count: nat, conversion: real)

  datatype StageTime = StageTime(status: Status, medianTime: nat)

  datatype Report = Report(
    statusDistribution: seq<StatusCount>,
    stalledApplications: nat,
    overdueReminders: nat,
    conversionMetrics: seq<Stage>,
    timeInStage: seq<StageTime>,
    totalApplications: nat)

  /** `dist.find(s => s.status === st)?.count || d`: the count of the first
      group of that status, or `d` when there is none or its count is 0. */
  function CountOr(dist: seq<StatusCount>, st: Status, d: nat): (r: nat)
    ensures (forall g :: g in dist ==> g.status != st) ==> r == d
    ensures r != d ==> exists g :: g in dist && g.status == st && g.count == r
    ensures d > 0 ==> r > 0
  {
    var g := FindFirst(dist, (g: StatusCount) => g.status == st);
    if g.Some? && g.value.count != 0 then g.value.count else d
  }

  /** Under the guard `(x || 0) > 0` the fallback of `x || 1` is never taken. */
  lemma FallbackUnreachable(dist: seq<StatusCount>, st: Status)
    requires CountOr(dist, st, 0) > 0
    ensures CountOr(dist, st, 1) == CountOr(dist, st, 0)
  {
  }

  /** The route's sum over the distribution: no count exceeds it, and it is
      zero only when every count is. */
  function Total(dist: seq<StatusCount>): (r: nat)
    ensures forall g :: g in dist ==> g.count <= r
    ensures r == 0 <==> forall g :: g in dist ==> g.count == 0
  {
    SumCounts(dist)
  }

  /** The first stage: applied over all applications, 0 when there are none. */
  function SavedToApplied(dist: seq<StatusCount>): (r: real)
    ensures r >= 0.0
    ensures IsPercentage(r, CountOr(dist, Applied, 0), Total(dist))
  {
    Rate(CountOr(dist, Applied, 0), Total(dist))
  }

  /** A later stage: `to` over `from`, guarded by `(from || 0) > 0` and
      divided by `from || 1`. */
  function Conversion(dist: seq<StatusCount>, from: Status, to: Status): (r: real)
    ensures r >= 0.0
    ensures IsPercentage(r, CountOr(dist, to, 0), CountOr(dist, from, 0))
  {
    if CountOr(dist, from, 0) > 0 then
      FallbackUnreachable(dist, from);
      Rate(CountOr(dist, to, 0), CountOr(dist, from, 1))
    else 0.0
  }

  /** The `conversionMetrics` array. */
  function ConversionMetrics(dist: seq<StatusCount>): (r: seq<Stage>)
    ensures |r| == 4
    ensures r[0].stage == "saved → applied" && r[1].stage == "applied → screening"
         && r[2].stage == "screening → interview" && r[3].stage == "interview → offer"
    ensures r[0].count == CountOr(dist, Applied, 0) && r[1].count == CountOr(dist, Screening, 0)
         && r[2].count == CountOr(dist, Interview, 0) && r[3].count == CountOr(dist, Offer, 0)
    ensures r[0].conversion == SavedToApplied(dist)
    ensures r[1].conversion == Conversion(dist, Applied, Screening)
    ensures r[2].conversion == Conversion(dist, Screening, Interview)
    ensures r[3].conversion == Conversion(dist, Interview, Offer)
    ensures r[0].conversion >= 0.0 && r[1].conversion >= 0.0 && r[2].conversion >= 0.0 && r[3].conversion >= 0.0
  {
    var s0 := Stage("saved → applied", CountOr(dist, Applied, 0), SavedToApplied(dist));
    var s1 := Stage("applied → screening", CountOr(dist, Screening, 0), Conversion(dist, Applied, Screening));
    var s2 := Stage("screening → interview", CountOr(dist, Interview, 0), Conversion(dist, Screening, Interview));
    var s3 := Stage("interview → offer", CountOr(dist, Offer, 0), Conversion(dist, Interview, Offer));
    [s0, s1, s2, s3]
  }

  /** The fixed median days per open stage. */
  const TimeInStage: seq<StageTime> :=
    [StageTime(Saved, 1), StageTime(Applied, 3), StageTime(Screening, 7), StageTime(Test, 5), StageTime(Interview, 14)]

  /** The response object of a successful request. */
  function Assemble(dist: seq<StatusCount>, stalled: nat, overdue: nat): (r: Report)
    ensures r.statusDistribution == dist
    ensures r.stalledApplications == stalled && r.overdueReminders == overdue
    ensures r.conversionMetrics == ConversionMetrics(dist)
    ensures r.timeInStage == TimeInStage
    ensures r.totalApplications == Total(dist)
  {
    Report(dist, stalled, overdue, ConversionMetrics(dist), TimeInStage, Total(dist))
  }

  /** Looking a status up in the store's distribution gives its count. */
  lemma CountOrDistribution(apps: seq<ApplicationRow>, userId: string, st: Status)
    ensures CountOr(StatusDistribution(apps, userId), st, 0) == CountStatus(apps, userId, st)
  {
    var dist := StatusDistribution(apps, userId);
    var g := FindFirst(dist, (g: StatusCount) => g.status == st);
    if CountStatus(apps, userId, st) > 0 {
      assert g.Some?;
    }
  }

  /** Over the store, a later stage's conversion is the target status count
      over the source status count, times 100, and 0 when the source is empty. */
  lemma StageOfStore(apps: seq<ApplicationRow>, userId: string, from: Status, to: Status)
    ensures CountStatus(apps, userId, from) == 0 ==> Conversion(StatusDistribution(apps, userId), from, to) == 0.0
    ensures CountStatus(apps, userId, from) > 0 ==>
      Conversion(StatusDistribution(apps, userId), from, to)
        == (CountStatus(apps, userId, to) as real) / (CountStatus(apps, userId, from) as real) * 100.0
  {
    CountOrDistribution(apps, userId, from);
    CountOrDistribution(apps, userId, to);
    if CountStatus(apps, userId, from) > 0 {
      FallbackUnreachable(StatusDistribution(apps, userId), from);
    }
  }

  /** Over the store, the report's figures are the user's own counts: the
      total is the number of the user's applications, each stage count the
      number in its target status, and each conversion the target count
      over the source count (over the total for the first stage). */
  lemma {:induction false} MetricsOfStore(apps: seq<ApplicationRow>, userId: string)
    ensures Total(StatusDistribution(apps, userId)) == CountOwned(apps, userId)
    ensures var m := ConversionMetrics(StatusDistribution(apps, userId));
      && m[0].count == CountStatus(apps, userId, Applied)
      && m[1].count == CountStatus(apps, userId, Screening)
      && m[2].count == CountStatus(apps, userId, Interview)
      && m[3].count == CountStatus(apps, userId, Offer)
    ensures CountOwned(apps, userId) == 0 ==> SavedToApplied(StatusDistribution(apps, userId)) == 0.0
    ensures CountOwned(apps, userId) > 0 ==>
      SavedToApplied(StatusDistribution(apps, userId))
        == (CountStatus(apps, userId, Applied) as real) / (CountOwned(apps, userId) as real) * 100.0
  {
    DistributionTotal(apps, userId);
    CountOrDistribution(apps, userId, Applied);
    CountOrDistribution(apps, userId, Screening);
    CountOrDistribution(apps, userId, Interview);
    CountOrDistribution(apps, userId, Offer);
  }

  /** GET: ensure the user, run the three queries, assemble. A statement that
      throws (`fails`) turns the whole answer into a 500 with a fixed message;
      no partial report is ever returned. */
  method Get(db: Database, userId: string, email: string, now: Millis, fails: bool) returns (resp: Response<Report>)
    requires db.Valid()
    modifies db`users
    ensures db.Valid()
    ensures db.users == InsertOrIgnoreUser(old(db.users), userId, email, now)
    ensures resp.Error? <==> fails
    ensures resp.Error? ==> resp.status == 500 && resp.message == InternalServerError
    ensures resp.Reply? ==> resp.status == 200 && resp.body == Assemble(
      StatusDistribution(db.applications, userId),
      |StalledApplications(db.applications, db.vacancies, userId, now)|,
      |OverdueReminders(db.applications, db.vacancies, userId, DayOf(now))|)
  {
    db.CreateUser(userId, email, now);
    if fails {
      return Error(500, InternalServerError);
    }
    var dist := StatusDistribution(db.applications, userId);
    var stalled := StalledApplications(db.applications, db.vacancies, userId, now);
    var overdue := OverdueReminders(db.applications, db.vacancies, userId, DayOf(now));
    resp := Reply(200, Assemble(dist, |stalled|, |overdue|));
  }
}
