/** src/extract.py: the two extractors and their deterministic sample
    generators. Days are day counts; `Platform.calendar` turns a day count
    into the calendar date `pd.date_range` yields for it. */
module Extraction {
  import opened Strings
  import opened Tables
  import opened Sequences
  import W = WeatherTransformer

  // ---------------------------------------------------------------------
  // Number formatting: `f"{n:0wd}"` and the `strftime` fields
  // ---------------------------------------------------------------------

  function DigitChar(d: nat): (c: char)
    requires d < 10
    ensures '0' <= c <= '9'
  {
    ('0' as int + d) as char
  }

  function Pow10(w: nat): (r: nat)
    ensures r >= 1
  {
    if w == 0 then 1 else 10 * Pow10(w - 1)
  }

  /** The decimal digits of `n`, left-padded with zeros to at least `w`
      characters; a number that needs more digits is not cut. */
  function ZeroPad(n: nat, w: nat): (r: string)
    ensures |r| >= 1 && |r| >= w
    ensures forall i :: 0 <= i < |r| ==> '0' <= r[i] <= '9'
    decreases n, w
  {
    if n < 10 && w <= 1 then [DigitChar(n)]
    else ZeroPad(n / 10, if w > 0 then w - 1 else 0) + [DigitChar(n % 10)]
  }

  /** A number below 10^w takes exactly `w` characters. */
  lemma {:induction false} ZeroPadWidth(n: nat, w: nat)
    requires 1 <= w && n < Pow10(w)
    ensures |ZeroPad(n, w)| == w
    decreases n, w
  {
    if !(n < 10 && w <= 1) {
      if w == 1 {
        assert false;
      }
      ZeroPadWidth(n / 10, w - 1);
    }
  }

  /** Different numbers are printed differently. */
  lemma {:induction false} ZeroPadInjective(n: nat, m: nat, w: nat)
    requires ZeroPad(n, w) == ZeroPad(m, w)
    ensures n == m
    decreases n, w
  {
    var a := ZeroPad(n, w);
    if n < 10 && w <= 1 {
      if !(m < 10 && w <= 1) {
        assert false;
      }
    } else if m < 10 && w <= 1 {
      assert false;
    } else {
      var w' := if w > 0 then w - 1 else 0;
      assert a[..|a| - 1] == ZeroPad(n / 10, w') && a[|a| - 1] == DigitChar(n % 10);
      var b := ZeroPad(m, w);
      assert b[..|b| - 1] == ZeroPad(m / 10, w') && b[|b| - 1] == DigitChar(m % 10);
      ZeroPadInjective(n / 10, m / 10, w');
    }
  }

  lemma ZeroPadExamples()
    ensures ZeroPad(7, 4) == "0007"
    ensures ZeroPad(12345, 4) == "12345"
  {
    assert ZeroPad(0, 1) == "0";
    assert ZeroPad(0, 2) == "00";
    assert ZeroPad(0, 3) == "000";
    assert ZeroPad(1, 0) == "1";
    assert ZeroPad(12, 1) == "12";
    assert ZeroPad(123, 2) == "123";
    assert ZeroPad(1234, 3) == "1234";
  }

  /** `strftime` of the year, month and day, separated by `sep`. */
  function Stamp(d: Date, sep: string): string {
    ZeroPad(d.year, 4) + sep + ZeroPad(d.month, 2) + sep + ZeroPad(d.day, 2)
  }

  /** A date pandas can represent: a four-digit year, a month and a day. */
  predicate CalendarDate(d: Date) {
    d.year < 10000 && 1 <= d.month <= 12 && 1 <= d.day <= 31
  }

  /** The compact stamp of a calendar date has eight characters and tells
      the date apart from every other calendar date. */
  lemma StampInjective(d: Date, e: Date)
    requires CalendarDate(d) && CalendarDate(e)
    requires Stamp(d, "") == Stamp(e, "")
    ensures d == e && |Stamp(d, "")| == 8
  {
    ZeroPadWidth(d.year, 4);
    ZeroPadWidth(e.year, 4);
    ZeroPadWidth(d.month, 2);
    ZeroPadWidth(e.month, 2);
    ZeroPadWidth(d.day, 2);
    ZeroPadWidth(e.day, 2);
    var s := Stamp(d, "");
    var t := Stamp(e, "");
    assert s[..4] == ZeroPad(d.year, 4) && t[..4] == ZeroPad(e.year, 4);
    assert s[4..6] == ZeroPad(d.month, 2) && t[4..6] == ZeroPad(e.month, 2);
    assert s[6..] == ZeroPad(d.day, 2) && t[6..] == ZeroPad(e.day, 2);
    ZeroPadInjective(d.year, e.year, 4);
    ZeroPadInjective(d.month, e.month, 2);
    ZeroPadInjective(d.day, e.day, 2);
  }

  // ---------------------------------------------------------------------
  // Date ranges and the extractors' defaults
  // ---------------------------------------------------------------------

  /** `pd.date_range(start, end, freq='D')`: every day from `start` to
      `end`, both included; empty when `start` is after `end`. */
  function DateRange(start: int, end: int, p: Platform): (r: seq<Date>)
    ensures |r| == if start <= end then end - start + 1 else 0
    ensures forall i :: 0 <= i < |r| ==> r[i] == p.calendar(start + i)
  {
    if start <= end then seq(end - start + 1, i => p.calendar(start + i)) else []
  }

  /** The defaults both extractors apply: `end` is today and `start` is
      thirty days before today, each only when not given. */
  function ExtractionRange(start: Option<int>, end: Option<int>, today: int): (r: (int, int))
    ensures start.Some? ==> r.0 == start.value
    ensures end.Some? ==> r.1 == end.value
    ensures start.None? ==> r.0 == today - 30
    ensures end.None? ==> r.1 == today
    ensures start.None? && end.None? ==> r.1 - r.0 + 1 == 31
  {
    (start.GetOr(today - 30), end.GetOr(today))
  }

  // ---------------------------------------------------------------------
  // WeatherExtractor.extract: the sample rows
  // ---------------------------------------------------------------------

  const WeatherSampleColumns: seq<string> :=
    ["date", "borough", "temperature", "precipitation", "condition", "wind_speed"]

  function SampleTemperature(day: nat): (t: int)
    ensures 40 <= t <= 59
  {
    40 + day % 20
  }

  function SampleWindSpeed(day: nat): (w: int)
    ensures 5 <= w <= 19
  {
    5 + day % 15
  }

  /** Every fourth day of the month is a rain day. */
  predicate RainDay(day: nat) {
    day % 4 == 0
  }

  function SamplePrecipitation(day: nat): (r: real)
    ensures !RainDay(day) ==> r == 0.0
    ensures 0.0 <= r <= 0.9
  {
    if RainDay(day) then 0.1 * (day % 10) as real else 0.0
  }

  /** One sample weather row: it depends only on the date and the borough. */
  function WeatherSampleRow(d: Date, borough: string): Row {
    map["date" := Day(d),
        "borough" := Text(borough),
        "temperature" := Num(SampleTemperature(d.day) as real),
        "precipitation" := Num(SamplePrecipitation(d.day)),
        "condition" := Text(if RainDay(d.day) then "Rain" else "Clear"),
        "wind_speed" := Num(SampleWindSpeed(d.day) as real)]
  }

  /** A sample weather row holds exactly the sample columns. */
  lemma WeatherRowColumns(d: Date, borough: string)
    ensures WeatherSampleRow(d, borough).Keys == set c | c in WeatherSampleColumns
  {
  }

  /** A sample weather row carries the date and borough it was made for,
      and rain exactly on rain days. */
  lemma WeatherRowCells(d: Date, borough: string)
    ensures var r := WeatherSampleRow(d, borough);
            && Get(r, "date") == Day(d) && Get(r, "borough") == Text(borough)
            && (Get(r, "condition") == Text("Rain") <==> RainDay(d.day))
            && (Get(r, "condition") == Text("Rain") || Get(r, "condition") == Text("Clear"))
            && (!RainDay(d.day) ==> Get(r, "precipitation") == Num(0.0))
  {
  }

  /** The temperature and wind readings lie within the sample's ranges. */
  lemma WeatherRowReadings(d: Date, borough: string)
    ensures var r := WeatherSampleRow(d, borough);
            && Get(r, "temperature").Num? && 40.0 <= Get(r, "temperature").x <= 59.0
            && Get(r, "wind_speed").Num? && 5.0 <= Get(r, "wind_speed").x <= 19.0
  {
  }

  /** The five rows of one date, in borough order. */
  function WeatherSampleDay(d: Date): seq<Row> {
    seq(5, b requires 0 <= b < 5 => WeatherSampleRow(d, FiveBoroughs[b]))
  }

  lemma WeatherDayAt(d: Date, b: nat)
    requires b < 5
    ensures |WeatherSampleDay(d)| == 5 && WeatherSampleDay(d)[b] == WeatherSampleRow(d, FiveBoroughs[b])
  {
  }

  /** The rows the nested loop appends, date by date. */
  function WeatherSampleRows(dates: seq<Date>): seq<Row> {
    Flatten(dates, WeatherSampleDay)
  }

  /** `pd.DataFrame(weather_data)`: no columns at all when nothing was
      appended. */
  function WeatherSample(dates: seq<Date>): Frame {
    if dates == [] then EmptyFrame else Frame(WeatherSampleColumns, WeatherSampleRows(dates))
  }

  /** Exactly one row per date and borough. */
  lemma {:induction false} WeatherSampleCount(dates: seq<Date>)
    ensures |WeatherSampleRows(dates)| == 5 * |dates|
  {
    if dates != [] {
      WeatherSampleCount(dates[..|dates| - 1]);
    }
  }

  /** Row 5k+b is the row of the k-th date and the b-th borough. */
  lemma WeatherSampleAt(dates: seq<Date>, k: nat, b: nat)
    requires k < |dates| && b < 5
    ensures 5 * k + b < |WeatherSampleRows(dates)|
    ensures WeatherSampleRows(dates)[5 * k + b] == WeatherSampleRow(dates[k], FiveBoroughs[b])
  {
    WeatherSampleCount(dates[..k]);
    WeatherDayAt(dates[k], b);
    FlattenAt(dates, WeatherSampleDay, k, b);
  }

  /** The inner loop: one row per borough of one date. */
  method AppendWeatherDay(rows: seq<Row>, d: Date) returns (r: seq<Row>)
    ensures r == rows + WeatherSampleDay(d)
  {
    var boroughs := FiveBoroughs;
    ghost var day := WeatherSampleDay(d);
    r := rows;
    for b := 0 to 5
      invariant r == rows + day[..b]
    {
      var row := WeatherSampleRow(d, boroughs[b]);
      WeatherDayAt(d, b);
      assert day[..b + 1] == day[..b] + [row];
      r := r + [row];
    }
    assert day[..5] == day;
  }

  /** The nested loop of `WeatherExtractor.extract`. */
  method SampleWeather(dates: seq<Date>) returns (f: Frame)
    ensures f == WeatherSample(dates)
  {
    var rows: seq<Row> := [];
    for k := 0 to |dates|
      invariant rows == WeatherSampleRows(dates[..k])
    {
      rows := AppendWeatherDay(rows, dates[k]);
      FlattenSnoc(dates, WeatherSampleDay, k);
    }
    assert dates[..|dates|] == dates;
    if rows == [] {
      f := EmptyFrame;
    } else {
      f := Frame(WeatherSampleColumns, rows);
    }
    WeatherSampleCount(dates);
  }

  /** `WeatherExtractor.extract`; `today` is `datetime.now()` as a day count. */
  method ExtractWeather(start: Option<int>, end: Option<int>, today: int, p: Platform) returns (f: Frame)
    ensures var range := ExtractionRange(start, end, today);
            f == WeatherSample(DateRange(range.0, range.1, p))
  {
    var range := ExtractionRange(start, end, today);
    f := SampleWeather(DateRange(range.0, range.1, p));
  }

  /** The sample frame has no `datetime` column, so the hourly weather
      transformer rejects it. */
  lemma SampleWeatherIsNotHourly(dates: seq<Date>, p: Platform)
    ensures W.CleanWeather(WeatherSample(dates), p) == Fail(MissingColumn("datetime"))
  {
    var cols := WeatherSample(dates).columns;
    forall c | c in cols ensures NormalizeColumnName(c) != "datetime" {
      SampleColumnName(c);
    }
    W.MissingDatetimeFails(WeatherSample(dates), p);
  }

  lemma SampleColumnName(c: string)
    requires c in WeatherSampleColumns
    ensures NormalizeColumnName(c) != "datetime"
  {
    if c == "temperature" {
      PlainName("temperature");
    } else if c == "precipitation" {
      PlainName("precipitation");
    } else if c == "condition" {
      PlainName("condition");
    } else if c == "wind_speed" {
      PlainName("wind_speed");
    }
  }

  /** A lower-case name without spaces is its own normal form. */
  lemma PlainName(c: string)
    requires forall i :: 0 <= i < |c| ==> 'a' <= c[i] <= 'z' || c[i] == '_'
    ensures NormalizeColumnName(c) == c
  {
    LowerFixed(c);
    StripFixed(c);
    ReplaceFixed(c, ' ', '_');
  }

  // ---------------------------------------------------------------------
  // CollisionExtractor._create_sample_data
  // ---------------------------------------------------------------------

  const CollisionSampleColumns: seq<string> :=
    ["collision_id", "crash_date", "borough", "persons_injured", "persons_killed",
     "contributing_factor_vehicle_1", "vehicle_type_code1", "latitude", "longitude"]

  const SampleFactors: seq<string> := ["Driver Inattention", "Failure to Yield", "Following Too Closely"]

  const SampleVehicles: seq<string> := ["Sedan", "SUV", "Taxi", "Truck"]

  /** 80 to 149 collisions on each day. */
  function DailyCount(d: Date): (n: nat)
    ensures 80 <= n <= 149
  {
    80 + d.day % 70
  }

  /** `f"COL_{date.strftime('%Y%m%d')}_{i:04d}"`. */
  function SampleId(d: Date, i: nat): string {
    "COL_" + Stamp(d, "") + "_" + ZeroPad(i, 4)
  }

  /** The i-th sample collision of a date. */
  function CollisionSampleRow(d: Date, i: nat): Row {
    map["collision_id" := Text(SampleId(d, i)),
        "crash_date" := Text(Stamp(d, "-") + "T00:00:00"),
        "borough" := Text(FiveBoroughs[i % 5]),
        "persons_injured" := Num(if i % 10 == 0 then 1.0 else 0.0),
        "persons_killed" := Num(if i % 100 == 0 then 1.0 else 0.0),
        "contributing_factor_vehicle_1" := Text(SampleFactors[i % 3]),
        "vehicle_type_code1" := Text(SampleVehicles[i % 4]),
        "latitude" := Num(40.7128 + (i % 100) as real * 0.001),
        "longitude" := Num(-74.0060 + (i % 100) as real * 0.001)]
  }

  /** The id, timestamp, borough and casualty cells of a sample collision. */
  lemma CollisionRowCells(d: Date, i: nat)
    ensures var r := CollisionSampleRow(d, i);
            && Get(r, "collision_id") == Text(SampleId(d, i))
            && Get(r, "crash_date") == Text(Stamp(d, "-") + "T00:00:00")
            && Get(r, "borough") == Text(FiveBoroughs[i % 5])
            && Get(r, "persons_injured") == Num(if i % 10 == 0 then 1.0 else 0.0)
            && Get(r, "persons_killed") == Num(if i % 100 == 0 then 1.0 else 0.0)
  {
  }

  /** A sample row holds exactly the sample columns. */
  lemma CollisionRowColumns(d: Date, i: nat)
    ensures CollisionSampleRow(d, i).Keys == set c | c in CollisionSampleColumns
  {
  }

  lemma HundredsAreTens(i: nat)
    requires i % 100 == 0
    ensures i % 10 == 0
  {
    assert i == 10 * (10 * (i / 100));
  }

  /** A sample fatality is always also an injury. */
  lemma KilledImpliesInjured(d: Date, i: nat)
    ensures Get(CollisionSampleRow(d, i), "persons_killed") == Num(1.0) ==>
              Get(CollisionSampleRow(d, i), "persons_injured") == Num(1.0)
  {
    CollisionRowCells(d, i);
    if i % 100 == 0 {
      HundredsAreTens(i);
    }
  }

  function CollisionSampleDay(d: Date): seq<Row> {
    seq(DailyCount(d), i requires 0 <= i < DailyCount(d) => CollisionSampleRow(d, i))
  }

  lemma CollisionDayAt(d: Date, i: nat)
    requires i < DailyCount(d)
    ensures |CollisionSampleDay(d)| == DailyCount(d) && CollisionSampleDay(d)[i] == CollisionSampleRow(d, i)
  {
  }

  /** The rows the nested loop appends, date by date. */
  function CollisionSampleRows(dates: seq<Date>): seq<Row> {
    Flatten(dates, CollisionSampleDay)
  }

  function CollisionSample(dates: seq<Date>): Frame {
    if dates == [] then EmptyFrame else Frame(CollisionSampleColumns, CollisionSampleRows(dates))
  }

  /** The number of sample collisions over a list of dates. */
  function TotalCount(dates: seq<Date>): nat {
    if dates == [] then 0 else TotalCount(dates[..|dates| - 1]) + DailyCount(dates[|dates| - 1])
  }

  lemma {:induction false} CollisionSampleCount(dates: seq<Date>)
    ensures |CollisionSampleRows(dates)| == TotalCount(dates)
    ensures 80 * |dates| <= TotalCount(dates) <= 149 * |dates|
  {
    if dates != [] {
      CollisionSampleCount(dates[..|dates| - 1]);
    }
  }

  /** The rows of the k-th date follow those of the dates before it, in
      the order of `i`. */
  lemma CollisionSampleAt(dates: seq<Date>, k: nat, i: nat)
    requires k < |dates| && i < DailyCount(dates[k])
    ensures TotalCount(dates[..k]) + i < |CollisionSampleRows(dates)|
    ensures CollisionSampleRows(dates)[TotalCount(dates[..k]) + i] == CollisionSampleDay(dates[k])[i]
  {
    CollisionSampleCount(dates[..k]);
    FlattenAt(dates, CollisionSampleDay, k, i);
  }

  function CollisionId(r: Row): Cell {
    Get(r, "collision_id")
  }

  /** The ids of one date's rows are distinct. */
  lemma SampleDayIds(d: Date)
    ensures UniqueKeys(CollisionSampleDay(d), CollisionId)
  {
    var day := CollisionSampleDay(d);
    forall i, j | 0 <= i < j < |day| ensures CollisionId(day[i]) != CollisionId(day[j]) {
      DayIdsDistinct(d, i, j);
    }
  }

  lemma DayIdsDistinct(d: Date, i: nat, j: nat)
    requires i < j < DailyCount(d)
    ensures CollisionId(CollisionSampleDay(d)[i]) != CollisionId(CollisionSampleDay(d)[j])
  {
    CollisionDayAt(d, i);
    CollisionDayAt(d, j);
    CollisionRowCells(d, i);
    CollisionRowCells(d, j);
    if SampleId(d, i) == SampleId(d, j) {
      SameDayIds(d, i, j);
    }
  }

  /** Ids of one date differ in their last four digits. */
  lemma SameDayIds(d: Date, i: nat, j: nat)
    requires i < 10000 && j < 10000 && SampleId(d, i) == SampleId(d, j)
    ensures i == j
  {
    ZeroPadWidth(i, 4);
    ZeroPadWidth(j, 4);
    var a := SampleId(d, i);
    assert a[|a| - 4..] == ZeroPad(i, 4);
    assert a[|a| - 4..] == ZeroPad(j, 4);
    ZeroPadInjective(i, j, 4);
  }

  /** Characters 4 to 12 of an id are the compact stamp of its date. */
  lemma IdStamp(d: Date, i: nat)
    requires CalendarDate(d)
    ensures |SampleId(d, i)| >= 12 && SampleId(d, i)[4..12] == Stamp(d, "")
  {
    ZeroPadWidth(d.year, 4);
    ZeroPadWidth(d.month, 2);
    ZeroPadWidth(d.day, 2);
    var s := Stamp(d, "");
    assert |s| == 8;
    var tail := "_" + ZeroPad(i, 4);
    assert SampleId(d, i) == "COL_" + s + tail;
  }

  /** Ids of different calendar dates differ. */
  lemma SampleIdsOfDates(d: Date, e: Date, i: nat, j: nat)
    requires CalendarDate(d) && CalendarDate(e) && d != e
    ensures SampleId(d, i) != SampleId(e, j)
  {
    if SampleId(d, i) == SampleId(e, j) {
      IdStamp(d, i);
      IdStamp(e, j);
      StampInjective(d, e);
    }
  }

  /** Every id of the sample carries the stamp of one of its dates. */
  lemma SampleIdsFromDates(dates: seq<Date>, k: nat)
    requires k < |CollisionSampleRows(dates)|
    ensures exists m, i :: 0 <= m < |dates| && CollisionId(CollisionSampleRows(dates)[k]) == Text(SampleId(dates[m], i))
  {
    FlattenElement(dates, CollisionSampleDay, k);
    var m, i :| 0 <= m < |dates| && 0 <= i < |CollisionSampleDay(dates[m])| &&
                CollisionSampleRows(dates)[k] == CollisionSampleDay(dates[m])[i];
    CollisionDayAt(dates[m], i);
    CollisionRowCells(dates[m], i);
  }

  /** Within one run every collision id is unique, provided the dates are
      distinct calendar dates, as those of a `pd.date_range` are. */
  lemma SampleIdsUnique(dates: seq<Date>)
    requires forall k :: 0 <= k < |dates| ==> CalendarDate(dates[k])
    requires forall j, k :: 0 <= j < k < |dates| ==> dates[j] != dates[k]
    ensures UniqueKeys(CollisionSampleRows(dates), CollisionId)
  {
    forall m | 0 <= m < |dates| ensures UniqueKeys(CollisionSampleDay(dates[m]), CollisionId) {
      SampleDayIds(dates[m]);
    }
    forall m, n, i, j | 0 <= m < n < |dates| && 0 <= i < |CollisionSampleDay(dates[m])| && 0 <= j < |CollisionSampleDay(dates[n])|
      ensures CollisionId(CollisionSampleDay(dates[m])[i]) != CollisionId(CollisionSampleDay(dates[n])[j])
    {
      DayIdsOfDates(dates[m], dates[n], i, j);
    }
    FlattenUnique(dates, CollisionSampleDay, CollisionId);
  }

  /** Rows of different calendar dates carry different ids. */
  lemma DayIdsOfDates(d: Date, e: Date, i: nat, j: nat)
    requires CalendarDate(d) && CalendarDate(e) && d != e
    requires i < |CollisionSampleDay(d)| && j < |CollisionSampleDay(e)|
    ensures CollisionId(CollisionSampleDay(d)[i]) != CollisionId(CollisionSampleDay(e)[j])
  {
    CollisionDayAt(d, i);
    CollisionDayAt(e, j);
    CollisionRowCells(d, i);
    CollisionRowCells(e, j);
    SampleIdsOfDates(d, e, i, j);
  }

  /** The inner loop: the collisions of one date, in the order of `i`. */
  method AppendCollisionDay(rows: seq<Row>, d: Date) returns (r: seq<Row>)
    ensures r == rows + CollisionSampleDay(d)
  {
    var daily := DailyCount(d);
    ghost var day := CollisionSampleDay(d);
    r := rows;
    for i := 0 to daily
      invariant r == rows + day[..i]
    {
      var row := CollisionSampleRow(d, i);
      CollisionDayAt(d, i);
      assert day[..i + 1] == day[..i] + [row];
      r := r + [row];
    }
    assert day[..daily] == day;
  }

  /** The nested loop of `_create_sample_data`. */
  method SampleCollisions(dates: seq<Date>) returns (f: Frame)
    ensures f == CollisionSample(dates)
  {
    var rows: seq<Row> := [];
    for k := 0 to |dates|
      invariant rows == CollisionSampleRows(dates[..k])
    {
      rows := AppendCollisionDay(rows, dates[k]);
      FlattenSnoc(dates, CollisionSampleDay, k);
    }
    assert dates[..|dates|] == dates;
    if rows == [] {
      f := EmptyFrame;
    } else {
      f := Frame(CollisionSampleColumns, rows);
    }
    CollisionSampleCount(dates);
  }

  // ---------------------------------------------------------------------
  // CollisionExtractor.extract and run_extraction
  // ---------------------------------------------------------------------

  /** What the NYC Open Data request gave: a status and the frame built
      from its JSON body, or an exception. */
  datatype ApiOutcome = Response(status: int, data: Frame) | Raised

  /** The frame the collision extractor returns: the fetched records when
      the request answered 200 with a non-empty frame, the sample otherwise. */
  function CollisionsFor(range: (int, int), api: ApiOutcome, p: Platform): (f: Frame)
    ensures api.Response? && api.status == 200 && !IsEmpty(api.data) ==> f == api.data
    ensures !(api.Response? && api.status == 200 && !IsEmpty(api.data)) ==>
              f == CollisionSample(DateRange(range.0, range.1, p))
  {
    match api
    case Response(status, data) =>
      if status == 200 && !IsEmpty(data) then data
      else CollisionSample(DateRange(range.0, range.1, p))
    case Raised => CollisionSample(DateRange(range.0, range.1, p))
  }

  method ExtractCollisions(start: Option<int>, end: Option<int>, today: int, api: ApiOutcome, p: Platform)
    returns (f: Frame)
    ensures f == CollisionsFor(ExtractionRange(start, end, today), api, p)
  {
    var range := ExtractionRange(start, end, today);
    if api.Response? && api.status == 200 && !IsEmpty(api.data) {
      f := api.data;
    } else {
      f := SampleCollisions(DateRange(range.0, range.1, p));
    }
  }

  /** `run_extraction`: the weather frame, then the collision frame, both
      over the same defaulted range. */
  method RunExtraction(start: Option<int>, end: Option<int>, today: int, api: ApiOutcome, p: Platform)
    returns (weather: Frame, collisions: Frame)
    ensures var range := ExtractionRange(start, end, today);
            && weather == WeatherSample(DateRange(range.0, range.1, p))
            && collisions == CollisionsFor(range, api, p)
  {
    weather := ExtractWeather(start, end, today, p);
    collisions := ExtractCollisions(start, end, today, api, p);
  }
}
