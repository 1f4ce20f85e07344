/** The fetcher: the shape of the analytics response, the week-start arithmetic
    and the time windows and variables of the two analytics queries.

    The network round trip itself (client construction, headers, JSON decoding)
    is not modelled: its outcome is a FetchResult handed to the exporter. */
module Fetcher {
  import opened Calendar

  /** A float64 of the response, carried as its IEEE 754 bit pattern and never
      inspected. */
  type Float64 = bv64

  datatype Dimensions = Dimensions(scriptName: string, status: string)

  datatype Quantiles = Quantiles(
    cpuTimeP25: Float64, cpuTimeP50: Float64, cpuTimeP75: Float64,
    cpuTimeP90: Float64, cpuTimeP99: Float64, cpuTimeP999: Float64)

  datatype Sum = Sum(errors: int, requests: int, subrequests: int)

  /** One row of workersInvocationsAdaptive. A query fills only the fields it
      selects; the others keep their zero values. */
  datatype Invocation = Invocation(dimensions: Dimensions, quantiles: Quantiles, sum: Sum)

  datatype Account = Account(workersInvocationsAdaptive: seq<Invocation>)

  datatype Viewer = Viewer(accounts: seq<Account>)

  datatype ResponseStruct = ResponseStruct(viewer: Viewer)

  /** The error returned by the GraphQL client (transport, credential or
      decoding failure); the exporter only tests whether there is one. */
  datatype FetchError = FetchError(message: string)

  /** What fetchMetrics returns: the decoded response, or an error. */
  datatype FetchResult = Ok(data: ResponseStruct) | Err(error: FetchError)

  datatype Fetcher = Fetcher(cloudflareEndpoint: string, cloudflareToken: string, cloudFlareAccountId: string)

  /** The two query texts: both filter on the account and on a datetime range;
      the first selects sum and dimensions, the second quantiles and dimensions. */
  datatype Template = RequestCountQuery | CpuTimeQuery

  /** A bound query variable. A Timestamp stands for the RFC 3339 text of an
      instant (whole seconds since the epoch). */
  datatype VarValue = Text(text: string) | Timestamp(unixSeconds: int)

  datatype Request = Request(query: Template, vars: map<string, VarValue>)

  /** A datetime filter [start, end], both ends inclusive, in Unix seconds. */
  datatype Window = Window(start: int, end: int)

  const OneMinute: int := 60
  const SecondsPerWeek: int := 7 * 86400

  /** WeekStart as a day number: 1 January of year, stepped back by its
      Weekday() to the Sunday on or before it, then week * 7 days on. */
  function WeekStartDay(year: int, week: int): int {
    var jan1 := FirstDayOfYear(year);
    var sunday := jan1 - Weekday(jan1);
    sunday + week * 7
  }

  /** WeekStart(year, week): the instant of midnight UTC of WeekStartDay. */
  function WeekStart(year: int, week: int): int {
    Midnight(WeekStartDay(year, week))
  }

  /** WeekStart always lands on midnight UTC of a Sunday. */
  lemma WeekStartIsSundayMidnight(year: int, week: int)
    ensures WeekStart(year, week) % 86400 == 0
    ensures DayOf(WeekStart(year, week)) == WeekStartDay(year, week)
    ensures Weekday(WeekStartDay(year, week)) == Sunday
  {
    var jan1 := FirstDayOfYear(year);
    var q := (jan1 + Thursday) / 7;
    assert jan1 + Thursday == 7 * q + Weekday(jan1);
    assert WeekStartDay(year, week) + Thursday == 7 * (q + week);
  }

  /** Week 0 starts on 1 January or at most six days before it. */
  lemma WeekStartWeekZero(year: int)
    ensures Midnight(FirstDayOfYear(year)) - 6 * 86400 <= WeekStart(year, 0) <= Midnight(FirstDayOfYear(year))
  {
  }

  /** Week w starts exactly w weeks after week 0, so consecutive weeks are
      seven days apart. */
  lemma WeekStartStep(year: int, week: int)
    ensures WeekStart(year, week) == WeekStart(year, 0) + week * SecondsPerWeek
    ensures WeekStart(year, week + 1) == WeekStart(year, week) + SecondsPerWeek
  {
  }

  /** The window of FetchRequestCount: from WeekStart of the ISO year and week
      of now, to now. */
  function RequestCountWindow(now: int): Window {
    var yw := IsoWeek(DayOf(now));
    Window(WeekStart(yw.0, yw.1), now)
  }

  /** The window of FetchCpuTime: the minute ending at now. */
  function CpuTimeWindow(now: int): Window {
    Window(now - OneMinute, now)
  }

  /** The variables fetchMetrics binds on every query. */
  function Variables(fetcher: Fetcher, window: Window): map<string, VarValue> {
    map["account" := Text(fetcher.cloudFlareAccountId),
        "start" := Timestamp(window.start),
        "end" := Timestamp(window.end)]
  }

  /** The query FetchRequestCount sends when the clock reads now. */
  function RequestCountRequest(fetcher: Fetcher, now: int): (r: Request)
    ensures r.query == RequestCountQuery
    ensures r.vars.Keys == {"account", "start", "end"}
    ensures r.vars["account"] == Text(fetcher.cloudFlareAccountId)
    ensures r.vars["end"] == Timestamp(now)
    ensures r.vars["start"] == Timestamp(WeekStart(IsoWeek(DayOf(now)).0, IsoWeek(DayOf(now)).1))
  {
    Request(RequestCountQuery, Variables(fetcher, RequestCountWindow(now)))
  }

  /** The query FetchCpuTime sends when the clock reads now. */
  function CpuTimeRequest(fetcher: Fetcher, now: int): (r: Request)
    ensures r.query == CpuTimeQuery
    ensures r.vars.Keys == {"account", "start", "end"}
    ensures r.vars["account"] == Text(fetcher.cloudFlareAccountId)
    ensures r.vars["end"] == Timestamp(now)
    ensures r.vars["start"] == Timestamp(now - 60)
  {
    Request(CpuTimeQuery, Variables(fetcher, CpuTimeWindow(now)))
  }

  /** The CPU-time window is exactly one minute long and ends at now. */
  lemma CpuTimeWindowIsLastMinute(now: int)
    ensures CpuTimeWindow(now).end == now
    ensures CpuTimeWindow(now).end - CpuTimeWindow(now).start == 60
  {
  }

  // ----- The week start as written, against ISO 8601 weeks -----

  /** WeekStartDay(y, w) against the Monday that begins ISO week w of y: when
      1 January of y is a Sunday to Thursday it is the Sunday that ENDS that
      ISO week; when it is a Friday or Saturday it is the Sunday just before
      the ISO week begins. */
  lemma WeekStartAgainstIsoWeek(year: int, week: int)
    ensures WeekStartDay(year, week) == IsoWeekMonday(year, week) +
      (if Weekday(FirstDayOfYear(year)) <= Thursday then 6 else -1)
  {
    SundayAgainstWeekOne(FirstDayOfYear(year));
  }

  /** For a 1 January jan1: the Sunday on or before it, against the Monday of
      the week holding 4 January. */
  lemma SundayAgainstWeekOne(jan1: int)
    ensures jan1 - Weekday(jan1) == (jan1 + 3 - IsoDayIndex(jan1 + 3)) - 7 +
      (if Weekday(jan1) <= Thursday then 6 else -1)
  {
    var q := (jan1 + Thursday) / 7;
    var wd := Weekday(jan1);
    assert jan1 + Thursday == 7 * q + wd;
    if wd < 4 {
      assert Weekday(jan1 + 3) == wd + 3;
    } else {
      assert jan1 + 3 + Thursday == 7 * (q + 1) + (wd - 4);
      assert Weekday(jan1 + 3) == wd - 4;
    }
  }

  /** As written, the start of the request-count window is never the Monday
      that begins the current ISO week: it is either the Sunday that ends the
      current ISO week (six days after its Monday) or the Sunday before it. */
  lemma RequestCountWindowAsWritten(now: int)
    ensures var monday := DayOf(now) - IsoDayIndex(DayOf(now));
      RequestCountWindow(now).start == Midnight(monday + 6) ||
      RequestCountWindow(now).start == Midnight(monday - 1)
  {
    var d := DayOf(now);
    var yw := IsoWeek(d);
    IsoWeekContains(d);
    WeekStartAgainstIsoWeek(yw.0, yw.1);
  }

  /** On Wednesday 3 January 2024, 12:00 UTC, ISO week 1 of 2024 is current
      and the request-count window starts on Sunday 7 January 2024, after now. */
  lemma RequestCountWindowStartsAfterNow()
    ensures var now := 1704283200;
      RequestCountWindow(now).start == 1704585600 && RequestCountWindow(now).start > now
  {
    var now := 1704283200;
    var d := DayOf(now);
    assert d == 19725;
    assert FirstDayOfYear(2024) == 19723 && FirstDayOfYear(2025) == 20089;
    assert ThursdayOf(d) == 19726;
    YearOfDayUnique(19726, 2024);
    assert IsoWeek(d) == (2024, 1);
    assert WeekStartDay(2024, 1) == 19729;
  }

  // ----- The evidently intended week start -----

  /** The start of ISO week w of ISO year y: midnight UTC of its Monday. */
  function IsoWeekStart(year: int, week: int): int {
    Midnight(IsoWeekMonday(year, week))
  }

  /** The request-count window as the comment "since the beginning of the
      week" describes it: from the Monday that begins the ISO week of now. */
  function IntendedRequestCountWindow(now: int): Window {
    var yw := IsoWeek(DayOf(now));
    Window(IsoWeekStart(yw.0, yw.1), now)
  }

  /** The intended window starts at midnight of a Monday, no later than now and
      less than a week before it. */
  lemma IntendedRequestCountWindowContainsNow(now: int)
    ensures IntendedRequestCountWindow(now).start <= now < IntendedRequestCountWindow(now).start + SecondsPerWeek
    ensures IntendedRequestCountWindow(now).start % 86400 == 0
    ensures IsoDayIndex(DayOf(IntendedRequestCountWindow(now).start)) == 0
  {
    var d := DayOf(now);
    IsoWeekContains(d);
    assert IntendedRequestCountWindow(now).start == Midnight(d - IsoDayIndex(d));
    MondayBeforeInstant(now);
  }

  /** Midnight of the Monday of the ISO week holding now. */
  lemma MondayBeforeInstant(now: int)
    ensures var start := Midnight(DayOf(now) - IsoDayIndex(DayOf(now)));
      start <= now < start + SecondsPerWeek && start % 86400 == 0 && IsoDayIndex(DayOf(start)) == 0
  {
    var d := DayOf(now);
    var monday := d - IsoDayIndex(d);
    assert DayOf(monday * 86400) == monday;
    WeekMonday(d);
  }

  /** The request-count query with the corrected window: the same variables,
      with a start at midnight of the Monday of the current ISO week. */
  function IntendedRequestCountRequest(fetcher: Fetcher, now: int): (r: Request)
    ensures r.query == RequestCountQuery
    ensures r.vars.Keys == {"account", "start", "end"}
    ensures r.vars["account"] == Text(fetcher.cloudFlareAccountId)
    ensures r.vars["end"] == Timestamp(now)
    ensures r.vars["start"].Timestamp? && var start := r.vars["start"].unixSeconds;
      start <= now < start + SecondsPerWeek && start % 86400 == 0 && IsoDayIndex(DayOf(start)) == 0
  {
    IntendedRequestCountWindowContainsNow(now);
    Request(RequestCountQuery, Variables(fetcher, IntendedRequestCountWindow(now)))
  }
}
