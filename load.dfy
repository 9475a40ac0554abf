/** src/load.py: the dashboard's loaders. Each reads a master file,
    converts its date columns, adds the old column names as copies of the
    new ones and coerces the numeric columns; the merge and the summary
    guard against empty inputs. The file read itself is a parameter: None
    is a missing or unreadable file. */
module Loading {
  import opened Strings
  import opened Tables
  import opened Sequences

  /** What distinguishes the two loaders: the second date column and whether
      `date` is its `.dt.date` (weather) or a plain copy (collisions), the
      (new name, old name) compatibility pairs and the numeric columns. */
  datatype LoadConfig = LoadConfig(
    second: string,
    takeDate: bool,
    pairs: seq<(string, string)>,
    numeric: seq<string>)

  /** `load_collision_data`. */
  const CollisionLoad := LoadConfig(
    "crash_date", false,
    [("number_of_persons_injured", "persons_injured"),
     ("number_of_persons_killed", "persons_killed"),
     ("number_of_pedestrians_injured", "pedestrians_injured"),
     ("number_of_pedestrians_killed", "pedestrians_killed"),
     ("number_of_cyclist_injured", "cyclists_injured"),
     ("number_of_cyclist_killed", "cyclists_killed")],
    ["persons_injured", "persons_killed", "pedestrians_injured", "pedestrians_killed",
     "cyclists_injured", "cyclists_killed"])

  /** `load_weather_data`. */
  const WeatherLoad := LoadConfig(
    "datetime", true,
    [("temperature_2m", "temperature"),
     ("weather_category", "condition"),
     ("weather_severity", "severity")],
    ["temperature", "precipitation", "wind_speed_10m", "visibility"])

  /** The configuration's names do not collide: the date columns are neither
      numeric nor compatibility names, every pair has its own old name, and
      every new name is read as it is stored. */
  predicate WellFormed(cfg: LoadConfig) {
    DatesApart(cfg) && SourcesDistinct(cfg.pairs) && NewNamesRaw(cfg)
  }

  /** The date columns are neither numeric nor named by an alias pair. */
  predicate DatesApart(cfg: LoadConfig) {
    && cfg.second != "date"
    && "date" !in cfg.numeric && cfg.second !in cfg.numeric
    && (forall k :: 0 <= k < |cfg.pairs| ==>
          && cfg.pairs[k].0 != "date" && cfg.pairs[k].0 != cfg.second
          && cfg.pairs[k].1 != "date" && cfg.pairs[k].1 != cfg.second)
  }

  /** Every pair has its own old name. */
  predicate SourcesDistinct(pairs: seq<(string, string)>) {
    forall j, k :: 0 <= j < k < |pairs| ==> pairs[j].1 != pairs[k].1
  }

  /** No new name is coerced. */
  predicate NewNamesRaw(cfg: LoadConfig) {
    forall k :: 0 <= k < |cfg.pairs| ==> cfg.pairs[k].0 !in cfg.numeric
  }

  lemma CollisionDatesApart()
    ensures DatesApart(CollisionLoad)
  {
  }

  lemma CollisionSourcesDistinct()
    ensures SourcesDistinct(CollisionLoad.pairs)
  {
  }

  lemma CollisionNewNamesRaw()
    ensures NewNamesRaw(CollisionLoad)
  {
  }

  lemma CollisionLoadWellFormed()
    ensures WellFormed(CollisionLoad)
  {
    CollisionDatesApart();
    CollisionSourcesDistinct();
    CollisionNewNamesRaw();
  }

  lemma WeatherLoadWellFormed()
    ensures WellFormed(WeatherLoad)
  {
  }

  // ---------------------------------------------------------------------
  // The date conversions
  // ---------------------------------------------------------------------

  /** `date` when derived from the second date column. */
  function DeriveDate(cfg: LoadConfig, c: Cell, p: Platform): Cell {
    if cfg.takeDate then p.dateOf(c) else c
  }

  /** Some `pd.to_datetime` of the date step raises. */
  predicate DatesFail(f: Frame, cfg: LoadConfig, p: Platform) {
    || ("date" in f.columns && !AllConvert(f, "date", p.toTimestamp))
    || (cfg.second in f.columns && !AllConvert(f, cfg.second, p.toTimestamp))
  }

  /** The `date` step: `date` and the second date column are parsed when
      present, and `date` is derived from the second one when it is absent. */
  function DatedFrame(f: Frame, cfg: LoadConfig, p: Platform): (r: Option<Frame>)
    requires cfg.second != "date"
    ensures r.None? <==> DatesFail(f, cfg, p)
    ensures r.Some? ==> |r.value.rows| == |f.rows|
    ensures r.Some? ==> forall c :: c in r.value.columns <==> c in f.columns || (c == "date" && cfg.second in f.columns)
    ensures r.Some? ==> forall i, c :: 0 <= i < |f.rows| && c != "date" && c != cfg.second ==>
                          Get(r.value.rows[i], c) == Get(f.rows[i], c)
    ensures r.Some? && "date" in f.columns ==>
              forall i :: 0 <= i < |f.rows| ==> Some(Get(r.value.rows[i], "date")) == p.toTimestamp(Get(f.rows[i], "date"))
    ensures r.Some? && cfg.second in f.columns ==>
              forall i :: 0 <= i < |f.rows| ==>
                Some(Get(r.value.rows[i], cfg.second)) == p.toTimestamp(Get(f.rows[i], cfg.second))
    ensures r.Some? && "date" !in f.columns && cfg.second in f.columns ==>
              forall i :: 0 <= i < |f.rows| ==>
                Get(r.value.rows[i], "date") == DeriveDate(cfg, Get(r.value.rows[i], cfg.second), p)
  {
    var first := if "date" in f.columns then DeriveColumn(f, "date", "date", p.toTimestamp) else Some(f);
    if first.None? then None
    else
      var d := first.value;
      assert forall i :: 0 <= i < |f.rows| ==> Get(d.rows[i], cfg.second) == Get(f.rows[i], cfg.second);
      if cfg.second !in d.columns then Some(d)
      else
        var second := DeriveColumn(d, cfg.second, cfg.second, p.toTimestamp);
        if second.None? then None
        else if "date" in d.columns then second
        else Some(WithColumn(second.value, "date", row => DeriveDate(cfg, Get(row, cfg.second), p)))
  }

  /** What a loader returns: the empty frame when the file cannot be read or
      a date does not parse, the converted, aliased and coerced frame
      otherwise. */
  function Loaded(file: Option<Frame>, cfg: LoadConfig, p: Platform): Frame
    requires cfg.second != "date"
  {
    if file.None? then EmptyFrame
    else
      var dated := DatedFrame(file.value, cfg, p);
      if dated.None? then EmptyFrame
      else Coerced(Aliased(dated.value, cfg.pairs), cfg.numeric, p)
  }

  /** The body shared by both loaders: the two `for` loops run over the
      compatibility pairs and the numeric columns. */
  method LoadMaster(file: Option<Frame>, cfg: LoadConfig, p: Platform) returns (r: Frame)
    requires cfg.second != "date"
    ensures r == Loaded(file, cfg, p)
  {
    if file.None? {
      return EmptyFrame;
    }
    var dated := DatedFrame(file.value, cfg, p);
    if dated.None? {
      return EmptyFrame;
    }
    var df := AddCompatColumns(dated.value, cfg.pairs);
    r := CoerceColumns(df, cfg.numeric, p);
  }

  method LoadCollisionData(file: Option<Frame>, p: Platform) returns (r: Frame)
    ensures r == Loaded(file, CollisionLoad, p)
  {
    r := LoadMaster(file, CollisionLoad, p);
  }

  method LoadWeatherData(file: Option<Frame>, p: Platform) returns (r: Frame)
    ensures r == Loaded(file, WeatherLoad, p)
  {
    r := LoadMaster(file, WeatherLoad, p);
  }

  // ---------------------------------------------------------------------
  // What the loaders promise
  // ---------------------------------------------------------------------

  /** A missing file and a date that does not parse both give the empty
      frame; a file that is not empty and whose dates parse never does. */
  lemma {:induction false} LoadedEmptyOnError(file: Option<Frame>, cfg: LoadConfig, p: Platform)
    requires cfg.second != "date"
    ensures file.None? ==> Loaded(file, cfg, p) == EmptyFrame
    ensures file.Some? && DatesFail(file.value, cfg, p) ==> Loaded(file, cfg, p) == EmptyFrame
    ensures file.Some? && !DatesFail(file.value, cfg, p) && !IsEmpty(file.value) ==>
              !IsEmpty(Loaded(file, cfg, p))
  {
    if file.Some? && !DatesFail(file.value, cfg, p) && !IsEmpty(file.value) {
      var d := DatedFrame(file.value, cfg, p).value;
      AliasedOnlyAdds(d, cfg.pairs);
      CoercedCells(Aliased(d, cfg.pairs), cfg.numeric, p);
      assert file.value.columns[0] in d.columns;
    }
  }

  /** Loading keeps every column of the file and the number of rows; the
      numeric columns read as parsed-or-0, the date columns as parsed, and
      every other column as it was stored. */
  lemma {:induction false} LoadedCells(f: Frame, cfg: LoadConfig, p: Platform)
    requires WellFormed(cfg) && !DatesFail(f, cfg, p)
    ensures var r := Loaded(Some(f), cfg, p);
            && |r.rows| == |f.rows|
            && (forall c :: c in f.columns ==> c in r.columns)
            && (forall i, c :: 0 <= i < |f.rows| && c in f.columns && c in cfg.numeric ==>
                  Get(r.rows[i], c) == Num(ToNumeric(Get(f.rows[i], c), p)))
            && (forall i, c ::
                  0 <= i < |f.rows| && c in f.columns && c !in cfg.numeric && c != "date" && c != cfg.second ==>
                  Get(r.rows[i], c) == Get(f.rows[i], c))
  {
    var d := DatedFrame(f, cfg, p).value;
    var a := Aliased(d, cfg.pairs);
    AliasedOnlyAdds(d, cfg.pairs);
    CoercedCells(a, cfg.numeric, p);
    var r := Loaded(Some(f), cfg, p);
    assert r == Coerced(a, cfg.numeric, p);
    forall i, c | 0 <= i < |f.rows| && c in f.columns && c in cfg.numeric
      ensures Get(r.rows[i], c) == Num(ToNumeric(Get(f.rows[i], c), p))
    {
      assert c != "date" && c != cfg.second;
      assert Get(a.rows[i], c) == Get(d.rows[i], c);
    }
  }

  /** The date columns after loading: `date` is the parsed `date` when
      there was one, otherwise it is derived from the parsed second column;
      there is a `date` column whenever there was either. */
  lemma {:induction false} LoadedDates(f: Frame, cfg: LoadConfig, p: Platform)
    requires WellFormed(cfg) && !DatesFail(f, cfg, p)
    ensures var r := Loaded(Some(f), cfg, p);
            && |r.rows| == |f.rows|
            && ("date" in f.columns || cfg.second in f.columns ==> "date" in r.columns)
            && ("date" in f.columns ==>
                  forall i :: 0 <= i < |f.rows| ==> Some(Get(r.rows[i], "date")) == p.toTimestamp(Get(f.rows[i], "date")))
            && ("date" !in f.columns && cfg.second in f.columns ==>
                  forall i :: 0 <= i < |f.rows| ==>
                    && Some(Get(r.rows[i], cfg.second)) == p.toTimestamp(Get(f.rows[i], cfg.second))
                    && Get(r.rows[i], "date") == DeriveDate(cfg, Get(r.rows[i], cfg.second), p))
  {
    var d := DatedFrame(f, cfg, p).value;
    var a := Aliased(d, cfg.pairs);
    AliasedOnlyAdds(d, cfg.pairs);
    CoercedCells(a, cfg.numeric, p);
    var r := Loaded(Some(f), cfg, p);
    assert r == Coerced(a, cfg.numeric, p);
    forall i | 0 <= i < |f.rows| && "date" in d.columns
      ensures Get(r.rows[i], "date") == Get(d.rows[i], "date")
    {
      assert Get(a.rows[i], "date") == Get(d.rows[i], "date");
    }
    forall i | 0 <= i < |f.rows| && cfg.second in d.columns
      ensures Get(r.rows[i], cfg.second) == Get(d.rows[i], cfg.second)
    {
      assert Get(a.rows[i], cfg.second) == Get(d.rows[i], cfg.second);
    }
  }

  /** The compatibility columns: when the file has a new name but not its
      old one, the old name becomes a copy of the new column (parsed-or-0
      when the old name is numeric); no column is renamed or removed. */
  lemma {:induction false} LoadedAliases(f: Frame, cfg: LoadConfig, p: Platform, k: nat)
    requires WellFormed(cfg) && !DatesFail(f, cfg, p)
    requires k < |cfg.pairs| && cfg.pairs[k].0 in f.columns && cfg.pairs[k].1 !in f.columns
    ensures var r := Loaded(Some(f), cfg, p);
            var (newName, oldName) := cfg.pairs[k];
            && |r.rows| == |f.rows|
            && newName in r.columns && oldName in r.columns
            && forall i :: 0 <= i < |f.rows| ==>
                 Get(r.rows[i], oldName) ==
                   if oldName in cfg.numeric then Num(ToNumeric(Get(f.rows[i], newName), p))
                   else Get(f.rows[i], newName)
  {
    var (newName, oldName) := cfg.pairs[k];
    var d := DatedFrame(f, cfg, p).value;
    var a := Aliased(d, cfg.pairs);
    assert newName in d.columns && oldName !in d.columns;
    AliasedOnlyAdds(d, cfg.pairs);
    AliasedCopies(d, cfg.pairs, k);
    CoercedCells(a, cfg.numeric, p);
    forall i | 0 <= i < |f.rows|
      ensures Get(a.rows[i], oldName) == Get(f.rows[i], newName)
    {
      assert Get(d.rows[i], newName) == Get(f.rows[i], newName);
    }
  }

  // ---------------------------------------------------------------------
  // merge_weather_collision_data and get_data_summary
  // ---------------------------------------------------------------------

  /** `merge_weather_collision_data`: empty when either input is empty;
      otherwise the left join of the collisions with the weather, which is
      first aggregated per date and borough when it is hourly. The
      aggregation and the join are pandas' and passed in. */
  method MergeWeatherCollisionData(collisions: Frame, weather: Frame,
                                   aggregate: Frame -> Frame, join: (Frame, Frame) -> Frame)
    returns (r: Frame)
    ensures IsEmpty(collisions) || IsEmpty(weather) ==> r == EmptyFrame
    ensures !IsEmpty(collisions) && !IsEmpty(weather) ==>
              r == join(collisions, if "datetime" in weather.columns then aggregate(weather) else weather)
  {
    if IsEmpty(collisions) || IsEmpty(weather) {
      return EmptyFrame;
    }
    var daily := if "datetime" in weather.columns then aggregate(weather) else weather;
    r := join(collisions, daily);
  }

  /** `collisions[column].sum()` of a parsed-or-0 column. */
  function ColumnSum(rows: seq<Row>, column: string, p: Platform): real {
    if rows == [] then 0.0
    else ColumnSum(rows[..|rows| - 1], column, p) + ToNumeric(Get(rows[|rows| - 1], column), p)
  }

  /** A sum of counts is never negative. */
  lemma {:induction false} ColumnSumNonNegative(rows: seq<Row>, column: string, p: Platform)
    requires forall i :: 0 <= i < |rows| ==> ToNumeric(Get(rows[i], column), p) >= 0.0
    ensures ColumnSum(rows, column, p) >= 0.0
  {
    if rows != [] {
      ColumnSumNonNegative(rows[..|rows| - 1], column, p);
    }
  }

  /** The instants of the non-NaT cells of a column. */
  function Instants(rows: seq<Row>, column: string, p: Platform): (r: seq<int>)
    ensures forall k :: 0 <= k < |r| ==> exists i :: 0 <= i < |rows| && p.instant(Get(rows[i], column)) == Some(r[k])
    ensures forall i :: 0 <= i < |rows| && p.instant(Get(rows[i], column)).Some? ==>
              p.instant(Get(rows[i], column)).value in r
  {
    if rows == [] then []
    else
      var front := Instants(rows[..|rows| - 1], column, p);
      var last := p.instant(Get(rows[|rows| - 1], column));
      assert forall i :: 0 <= i < |rows| - 1 ==> rows[..|rows| - 1][i] == rows[i];
      front + (if last.Some? then [last.value] else [])
  }

  /** The smallest element; None for an empty sequence. */
  function Min(s: seq<int>): (r: Option<int>)
    ensures r.None? <==> s == []
    ensures r.Some? ==> r.value in s && forall k :: 0 <= k < |s| ==> r.value <= s[k]
  {
    if s == [] then None
    else
      var rest := Min(s[1..]);
      if rest.Some? && rest.value < s[0] then rest else Some(s[0])
  }

  /** The largest element; None for an empty sequence. */
  function Max(s: seq<int>): (r: Option<int>)
    ensures r.None? <==> s == []
    ensures r.Some? ==> r.value in s && forall k :: 0 <= k < |s| ==> s[k] <= r.value
  {
    if s == [] then None
    else
      var rest := Max(s[1..]);
      if rest.Some? && rest.value > s[0] then rest else Some(s[0])
  }

  /** What `min()` or `max()` of a timestamp column gives: NaT when every
      cell is NaT, a timestamp otherwise. Both are truthy. */
  datatype Bound = NaT | Stamp(t: int)

  /** `(end - start).days + 1`: NaN when a bound is NaT. */
  datatype DayCount = NaNDays | Days(n: int)

  const NanosPerDay := 86_400_000_000_000

  datatype Summary = Summary(
    totalCollisions: nat,
    totalInjured: real,
    totalKilled: real,
    dateStart: Option<Bound>,
    dateEnd: Option<Bound>,
    boroughs: set<Cell>,
    hasSeverity: bool,
    hasWeather: bool,
    hasTemperature: bool,
    hasCondition: bool,
    days: Option<DayCount>,
    avgDailyCollisions: Option<real>)

  function AsBound(t: Option<int>): (b: Bound)
    ensures b.NaT? <==> t.None?
    ensures t.Some? ==> b == Stamp(t.value)
  {
    if t.None? then NaT else Stamp(t.value)
  }

  /** `collisions['date'].min()` and `.max()`, which skip NaT; None without a
      `date` column. */
  function DateBounds(collisions: Frame, p: Platform): (r: (Option<Bound>, Option<Bound>))
    ensures r.0.Some? <==> "date" in collisions.columns
    ensures r.1.Some? <==> "date" in collisions.columns
  {
    if "date" in collisions.columns
    then (Some(AsBound(Min(Instants(collisions.rows, "date", p)))),
          Some(AsBound(Max(Instants(collisions.rows, "date", p)))))
    else (None, None)
  }

  /** The bounds are both NaT or both timestamps, the first never after the
      last, and between them lies every timestamp of the column. */
  lemma BoundsOrdered(collisions: Frame, p: Platform)
    requires "date" in collisions.columns
    ensures var (start, end) := DateBounds(collisions, p);
            start.value.NaT? <==> end.value.NaT?
    ensures var (start, end) := DateBounds(collisions, p);
            start.value.NaT? <==> forall i :: 0 <= i < |collisions.rows| ==> p.instant(Get(collisions.rows[i], "date")).None?
    ensures var (start, end) := DateBounds(collisions, p);
            start.value.Stamp? ==>
              forall i :: 0 <= i < |collisions.rows| && p.instant(Get(collisions.rows[i], "date")).Some? ==>
                start.value.t <= p.instant(Get(collisions.rows[i], "date")).value <= end.value.t
  {
    var ts := Instants(collisions.rows, "date", p);
    if ts != [] {
      assert Min(ts).value <= ts[0] <= Max(ts).value;
      var k :| 0 <= k < |collisions.rows| && p.instant(Get(collisions.rows[k], "date")) == Some(ts[0]);
    }
  }

  /** `(end - start).days + 1` for truthy bounds: whole days between the two
      instants, rounded down, plus one; NaN when either bound is NaT. */
  function DaySpan(start: Bound, end: Bound): (r: DayCount)
    ensures r.NaNDays? <==> start.NaT? || end.NaT?
    ensures r.Days? ==> (r.n - 1) * NanosPerDay <= end.t - start.t < r.n * NanosPerDay
  {
    if start.NaT? || end.NaT? then NaNDays else Days((end.t - start.t) / NanosPerDay + 1)
  }

  /** Two instants less than a day apart, on different calendar days, still
      span one day: the count is of elapsed whole days, not of dates. */
  lemma HalfDayApartIsOneDay(start: int)
    ensures DaySpan(Stamp(start), Stamp(start + NanosPerDay / 2)) == Days(1)
  {
  }

  /** `total_collisions / days if days > 0 else 0`; NaN is not positive. */
  function DailyRate(total: nat, days: DayCount): (r: real)
    ensures days.Days? && days.n > 0 ==> r == total as real / days.n as real
    ensures !(days.Days? && days.n > 0) ==> r == 0.0
  {
    if days.Days? && days.n > 0 then total as real / days.n as real else 0.0
  }

  /** `collisions['borough'].unique()`, as a set of cells. */
  function BoroughCells(collisions: Frame): (r: set<Cell>)
    ensures "borough" !in collisions.columns ==> r == {}
    ensures forall i :: 0 <= i < |collisions.rows| && "borough" in collisions.columns ==>
              Get(collisions.rows[i], "borough") in r
    ensures forall c :: c in r ==> exists i :: 0 <= i < |collisions.rows| && Get(collisions.rows[i], "borough") == c
  {
    if "borough" in collisions.columns
    then set i | 0 <= i < |collisions.rows| :: Get(collisions.rows[i], "borough")
    else {}
  }

  /** A count column's sum, or 0 without the column. */
  function CountTotal(collisions: Frame, column: string, p: Platform): real {
    if column in collisions.columns then ColumnSum(collisions.rows, column, p) else 0.0
  }

  /** `get_data_summary`: `{}` for an empty collision frame; otherwise the
      counts, the date bounds and, when both bounds are truthy (a `date`
      column exists), the day count and the collisions per day. */
  function DataSummary(collisions: Frame, weather: Frame, p: Platform): (r: Option<Summary>)
    ensures r.None? <==> IsEmpty(collisions)
    ensures r.Some? ==> r.value.totalCollisions == |collisions.rows|
    ensures r.Some? ==> (r.value.dateStart, r.value.dateEnd) == DateBounds(collisions, p)
    ensures r.Some? ==> (r.value.days.Some? <==> "date" in collisions.columns)
    ensures r.Some? ==> (r.value.avgDailyCollisions.Some? <==> "date" in collisions.columns)
    ensures r.Some? && r.value.days.Some? ==>
              && r.value.days.value == DaySpan(r.value.dateStart.value, r.value.dateEnd.value)
              && r.value.avgDailyCollisions == Some(DailyRate(|collisions.rows|, r.value.days.value))
    ensures r.Some? && r.value.days.Some? && r.value.days.value.Days? ==>
              && r.value.days.value.n >= 1
              && r.value.avgDailyCollisions == Some(|collisions.rows| as real / r.value.days.value.n as real)
    ensures r.Some? && r.value.days == Some(NaNDays) ==> r.value.avgDailyCollisions == Some(0.0)
    ensures r.Some? && r.value.dateStart.Some? && r.value.dateEnd.Some? ==>
              && (r.value.dateStart.value.NaT? <==> r.value.dateEnd.value.NaT?)
              && (r.value.dateStart.value.Stamp? ==>
                    forall i :: 0 <= i < |collisions.rows| && p.instant(Get(collisions.rows[i], "date")).Some? ==>
                      r.value.dateStart.value.t <= p.instant(Get(collisions.rows[i], "date")).value <= r.value.dateEnd.value.t)
    ensures r.Some? ==> r.value.boroughs == BoroughCells(collisions)
  {
    if IsEmpty(collisions) then None
    else
      var bounds := DateBounds(collisions, p);
      var days := if bounds.0.Some? && bounds.1.Some?
                  then (BoundsOrdered(collisions, p); Some(DaySpan(bounds.0.value, bounds.1.value)))
                  else None;
      Some(Summary(
        |collisions.rows|,
        CountTotal(collisions, "persons_injured", p),
        CountTotal(collisions, "persons_killed", p),
        bounds.0,
        bounds.1,
        BoroughCells(collisions),
        "severity_level" in collisions.columns,
        !IsEmpty(weather),
        "temperature" in weather.columns,
        "condition" in weather.columns,
        days,
        if days.Some? then Some(DailyRate(|collisions.rows|, days.value)) else None))
  }
}
