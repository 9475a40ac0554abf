/** run_pipeline.py: the command-line date modes of `main`, the defaulting
    of missing dates in `run_pipeline`, and the success of a run. Days are
    proleptic Gregorian ordinals, as Python's `date.toordinal` counts them. */
module Pipeline {
  import opened Tables
  import opened Extraction
  import W = WeatherTransformer
  import C = CollisionsTransformer
  import A = Accumulation

  // ---------------------------------------------------------------------
  // Calendar arithmetic
  // ---------------------------------------------------------------------

  function IsLeap(year: int): bool {
    year % 4 == 0 && (year % 100 != 0 || year % 400 == 0)
  }

  /** Days in the months of a year before `month`. */
  function DaysBeforeMonth(year: int, month: nat): (r: nat)
    ensures month <= 1 ==> r == 0
    ensures 1 <= month ==> 28 * (month - 1) <= r <= 31 * (month - 1)
  {
    if month <= 1 then 0 else DaysBeforeMonth(year, month - 1) + MonthLength(year, month - 1)
  }

  function MonthLength(year: int, month: nat): (r: nat)
    ensures 28 <= r <= 31
  {
    if month == 2 then (if IsLeap(year) then 29 else 28)
    else if month == 4 || month == 6 || month == 9 || month == 11 then 30
    else 31
  }

  /** `date.toordinal()`: 0001-01-01 is day 1. */
  function Ordinal(d: Date): int {
    var y := d.year - 1;
    y * 365 + y / 4 - y / 100 + y / 400 + DaysBeforeMonth(d.year, d.month) + d.day
  }

  /** Two days of the same month are as many ordinals apart as their
      day-of-month numbers. */
  lemma SameMonthDistance(d: Date, e: Date)
    requires d.year == e.year && d.month == e.month
    ensures Ordinal(e) - Ordinal(d) == e.day - d.day
  {
  }

  /** The first days of two consecutive months of a year are as many
      ordinals apart as the earlier month has days. */
  lemma NextMonthDistance(year: nat, month: nat)
    requires 1 <= month
    ensures Ordinal(Date(year, month + 1, 1)) - Ordinal(Date(year, month, 1)) == MonthLength(year, month)
  {
  }

  // ---------------------------------------------------------------------
  // Date arguments
  // ---------------------------------------------------------------------

  /** What `datetime.strptime(text, "%Y-%m-%d")` makes of a date string:
      the empty string (falsy in `main`), a string it rejects, or a day. */
  datatype DateText = Blank | Malformed | Parsed(n: int)

  /** A command-line value Python treats as true: given and not empty. */
  predicate Truthy(arg: Option<DateText>) {
    arg.Some? && !arg.value.Blank?
  }

  const HistoricalStart := Ordinal(Date(2024, 1, 1))
  const HistoricalEnd := Ordinal(Date(2024, 1, 30))
  const TestStart := Ordinal(Date(2024, 1, 1))
  const TestEnd := Ordinal(Date(2024, 1, 2))

  /** The parsed command line. */
  datatype Arguments = Arguments(
    startDate: Option<DateText>,
    endDate: Option<DateText>,
    days: int,
    test: bool,
    historical: bool)

  /** The dates `main` hands to `run_pipeline`: `--historical` wins over
      `--test`, which wins over explicit dates; with neither flag nor any
      truthy date, both are left to the defaults. */
  function Selection(args: Arguments): (r: (Option<DateText>, Option<DateText>))
    ensures args.historical ==> r == (Some(Parsed(HistoricalStart)), Some(Parsed(HistoricalEnd)))
    ensures !args.historical && args.test ==> r == (Some(Parsed(TestStart)), Some(Parsed(TestEnd)))
    ensures !args.historical && !args.test && (Truthy(args.startDate) || Truthy(args.endDate)) ==>
              r == (args.startDate, args.endDate)
    ensures !args.historical && !args.test && !Truthy(args.startDate) && !Truthy(args.endDate) ==>
              r == (None, None)
    ensures r.0.Some? && r.0.value.Parsed? && r.1.Some? && r.1.value.Parsed? && (args.historical || args.test) ==>
              r.0.value.n == Ordinal(Date(2024, 1, 1))
  {
    if args.historical then (Some(Parsed(HistoricalStart)), Some(Parsed(HistoricalEnd)))
    else if args.test then (Some(Parsed(TestStart)), Some(Parsed(TestEnd)))
    else if Truthy(args.startDate) || Truthy(args.endDate) then (args.startDate, args.endDate)
    else (None, None)
  }

  /** The if/elif chain of `main` that sets `start_date` and `end_date`. */
  method SelectDates(args: Arguments) returns (start: Option<DateText>, end: Option<DateText>)
    ensures (start, end) == Selection(args)
  {
    if args.historical {
      start := Some(Parsed(HistoricalStart));
      end := Some(Parsed(HistoricalEnd));
    } else if args.test {
      start := Some(Parsed(TestStart));
      end := Some(Parsed(TestEnd));
    } else if Truthy(args.startDate) || Truthy(args.endDate) {
      start := args.startDate;
      end := args.endDate;
    } else {
      start := None;
      end := None;
    }
  }

  // ---------------------------------------------------------------------
  // Default dates and the day count
  // ---------------------------------------------------------------------

  /** `get_default_dates(days)`: the range ends yesterday and spans `days`
      days, both ends included. */
  function DefaultDates(today: int, days: int): (r: (int, int))
    ensures r.1 == today - 1
    ensures r.1 - r.0 + 1 == days
  {
    var end := today - 1;
    (end - (days - 1), end)
  }

  /** The dates after `run_pipeline` has filled in the missing ones. */
  function Filled(start: Option<DateText>, end: Option<DateText>, days: int, today: int): (r: (DateText, DateText))
    ensures start.Some? ==> r.0 == start.value
    ensures end.Some? ==> r.1 == end.value
    ensures start.None? ==> r.0 == Parsed(DefaultDates(today, days).0)
    ensures end.None? ==> r.1 == Parsed(DefaultDates(today, days).1)
  {
    var defaults := DefaultDates(today, days);
    (if start.Some? then start.value else Parsed(defaults.0),
     if end.Some? then end.value else Parsed(defaults.1))
  }

  /** Lines 72-79 of `run_pipeline`: a given date is never replaced; a
      missing one is taken from `get_default_dates`. */
  method FillDates(start: Option<DateText>, end: Option<DateText>, days: int, today: int)
    returns (s: DateText, e: DateText)
    ensures (s, e) == Filled(start, end, days, today)
  {
    var startDate := start;
    var endDate := end;
    if startDate.None? || endDate.None? {
      var defaults := DefaultDates(today, days);
      if startDate.None? {
        startDate := Some(Parsed(defaults.0));
      }
      if endDate.None? {
        endDate := Some(Parsed(defaults.1));
      }
    }
    s, e := startDate.value, endDate.value;
  }

  /** `days_range`: the inclusive number of days, or None when `strptime`
      raises on either date. */
  function DaysRange(start: DateText, end: DateText): (r: Option<int>)
    ensures r.Some? <==> start.Parsed? && end.Parsed?
    ensures r.Some? ==> r.value == end.n - start.n + 1
  {
    if start.Parsed? && end.Parsed? then Some(end.n - start.n + 1) else None
  }

  /** The historical mode covers thirty days and the test mode two. */
  lemma {:induction false} FixedModeSpans(args: Arguments)
    requires args.historical || args.test
    ensures var r := Selection(args);
            && r.0.Some? && r.1.Some?
            && DaysRange(r.0.value, r.1.value) == Some(if args.historical then 30 else 2)
  {
    SameMonthDistance(Date(2024, 1, 1), Date(2024, 1, 30));
    SameMonthDistance(Date(2024, 1, 1), Date(2024, 1, 2));
  }

  /** Without any date arguments the run covers exactly `days` days ending
      yesterday, and extracts one date per day when `days` is positive. */
  lemma DefaultRunSpan(days: int, today: int, p: Platform)
    ensures var r := Filled(None, None, days, today);
            && DaysRange(r.0, r.1) == Some(days)
            && r.1 == Parsed(today - 1)
            && |DateRange(r.0.n, r.1.n, p)| == if days >= 1 then days else 0
  {
  }

  // ---------------------------------------------------------------------
  // A run
  // ---------------------------------------------------------------------

  /** What `run_loading` did: returned a flag, could not be imported, or
      raised. */
  datatype LoadOutcome = Returned(loaded: bool) | ImportFailed | LoadRaised

  /** The summary's "Database Load" entry. */
  datatype LoadStatus = Skipped | Succeeded | LoadFailed

  /** The loading phase: skipped without a database, otherwise the returned
      flag; an import failure counts as success and an exception as failure. */
  function LoadPhase(skipDatabase: bool, outcome: LoadOutcome): (r: LoadStatus)
    ensures r == Skipped <==> skipDatabase
    ensures r == LoadFailed <==> !skipDatabase && (outcome == Returned(false) || outcome == LoadRaised)
  {
    if skipDatabase then Skipped
    else match outcome
      case Returned(loaded) => if loaded then Succeeded else LoadFailed
      case ImportFailed => Succeeded
      case LoadRaised => LoadFailed
  }

  /** Lines 167-190 of `run_pipeline`: the `success` flag of the loading
      phase, as its summary reports it. */
  method Loading(skipDatabase: bool, outcome: LoadOutcome) returns (status: LoadStatus)
    ensures status == LoadPhase(skipDatabase, outcome)
  {
    var success := true;
    status := Skipped;
    if !skipDatabase {
      match outcome {
        case Returned(loaded) =>
          success := loaded;
        case ImportFailed =>
          success := true;
        case LoadRaised =>
          success := false;
      }
      status := if success then Succeeded else LoadFailed;
    }
  }

  /** Everything a run depends on besides its dates. */
  datatype Environment = Environment(
    today: int,
    api: ApiOutcome,
    weatherMaster: Option<seq<W.WeatherRecord>>,
    collisionsMaster: Option<seq<C.CollisionRecord>>,
    boroughs: set<string>,
    skipDatabase: bool,
    load: LoadOutcome,
    p: Platform)

  /** Both frames extracted for the days `start..end` pass their
      transformers. */
  predicate Transforms(start: int, end: int, env: Environment) {
    && W.CleanWeather(WeatherSample(DateRange(start, end, env.p)), env.p).Ok?
    && C.CleanCollisions(CollisionsFor((start, end), env.api, env.p), env.p, env.boroughs).Ok?
  }

  /** `run_pipeline` returns True exactly when both dates parse and both
      extracted frames pass their transformers; the loading phase never
      decides it. */
  predicate Succeeds(start: Option<DateText>, end: Option<DateText>, days: int, env: Environment) {
    var (s, e) := Filled(start, end, days, env.today);
    DaysRange(s, e).Some? && Transforms(s.n, e.n, env)
  }

  /** The extraction and transformation phases over parsed dates. */
  method ExtractAndTransform(start: int, end: int, env: Environment) returns (ok: bool)
    ensures ok <==> Transforms(start, end, env)
  {
    var weather, collisions := RunExtraction(Some(start), Some(end), env.today, env.api, env.p);
    var transformed := A.RunTransformation(weather, collisions, env.weatherMaster, env.collisionsMaster,
                                           env.p, env.boroughs);
    ok := transformed.Ok?;
  }

  /** `run_pipeline`: the returned flag and, on success, the summary's
      database entry. */
  method RunPipeline(start: Option<DateText>, end: Option<DateText>, days: int, env: Environment)
    returns (ok: bool, status: Option<LoadStatus>)
    ensures ok <==> Succeeds(start, end, days, env)
    ensures ok ==> status == Some(LoadPhase(env.skipDatabase, env.load))
    ensures !ok ==> status.None?
  {
    var s, e := FillDates(start, end, days, env.today);
    var daysRange := DaysRange(s, e);
    if daysRange.None? {
      return false, None;
    }
    var transformed := ExtractAndTransform(s.n, e.n, env);
    if !transformed {
      return false, None;
    }
    var loadStatus := Loading(env.skipDatabase, env.load);
    return true, Some(loadStatus);
  }

  /** The sample weather frame always fails the hourly weather transformer,
      so no run of the pipeline succeeds. */
  lemma NoRunSucceeds(start: Option<DateText>, end: Option<DateText>, days: int, env: Environment)
    ensures !Succeeds(start, end, days, env)
  {
    var (s, e) := Filled(start, end, days, env.today);
    if DaysRange(s, e).Some? {
      SampleWeatherIsNotHourly(DateRange(s.n, e.n, env.p), env.p);
    }
  }

  /** `main`: the selected dates, the run, and the process exit code, which
      is 0 exactly when the run succeeds. */
  method RunMain(args: Arguments, env: Environment) returns (code: int)
    ensures var (start, end) := Selection(args);
            code == if Succeeds(start, end, args.days, env) then 0 else 1
    ensures code == 1
  {
    var start, end := SelectDates(args);
    var ok, _ := RunPipeline(start, end, args.days, env);
    code := if ok then 0 else 1;
    NoRunSucceeds(start, end, args.days, env);
  }
}
