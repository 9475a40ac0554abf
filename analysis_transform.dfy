/** src/transform.py: the simple analysis-format transformers. Each copies
    its frame, fills in default columns, cleans a few of them and projects
    the frame onto a fixed list of output columns; an empty input, and any
    exception on the way, gives an empty frame. */
module AnalysisTransform {
  import opened Strings
  import opened Tables

  const WeatherNumeric: seq<string> := ["temperature", "precipitation", "wind_speed"]

  const WeatherFinal: seq<string> :=
    ["date", "borough", "temperature", "precipitation", "condition", "wind_speed"]

  const CollisionFinal: seq<string> :=
    ["date", "borough", "collisions", "persons_injured", "persons_killed", "weather_condition"]

  // ---------------------------------------------------------------------
  // transform_weather_data
  // ---------------------------------------------------------------------

  /** The `date` step raises: `pd.to_datetime` fails on some cell of the
      column it reads. */
  predicate WeatherDateFails(f: Frame, p: Platform) {
    if "date" !in f.columns && "datetime" in f.columns then !AllConvert(f, "datetime", c => ToDate(c, p))
    else if "date" in f.columns then !AllConvert(f, "date", p.toTimestamp)
    else false
  }

  /** The columns present just before the final projection. */
  function WeatherPresent(f: Frame): seq<string> {
    f.columns + ["borough", "condition"] + (if "datetime" in f.columns then ["date"] else [])
  }

  /** The `date` step of `transform_weather_data`: `date` parsed in place,
      or derived from `datetime` when there is no `date`; None when the
      parse raises. Every other column is left as it was. */
  method ParseWeatherDates(weather: Frame, p: Platform) returns (r: Option<Frame>)
    ensures r.None? <==> WeatherDateFails(weather, p)
    ensures r.Some? ==> |r.value.rows| == |weather.rows|
    ensures r.Some? ==> forall c :: c in r.value.columns <==>
                          c in weather.columns || (c == "date" && "datetime" in weather.columns)
    ensures r.Some? ==> forall i, c :: 0 <= i < |weather.rows| && c != "date" ==>
                          Get(r.value.rows[i], c) == Get(weather.rows[i], c)
    ensures r.Some? && "date" in weather.columns ==>
              forall i :: 0 <= i < |weather.rows| ==>
                Some(Get(r.value.rows[i], "date")) == p.toTimestamp(Get(weather.rows[i], "date"))
    ensures r.Some? && "date" !in weather.columns && "datetime" in weather.columns ==>
              forall i :: 0 <= i < |weather.rows| ==>
                Some(Get(r.value.rows[i], "date")) == ToDate(Get(weather.rows[i], "datetime"), p)
  {
    if "date" !in weather.columns && "datetime" in weather.columns {
      r := DeriveColumn(weather, "datetime", "date", c => ToDate(c, p));
    } else if "date" in weather.columns {
      r := DeriveColumn(weather, "date", "date", p.toTimestamp);
    } else {
      r := Some(weather);
    }
  }

  /** The literal column names of `transform_weather_data` are distinct
      where they need to be. */
  lemma WeatherNames()
    ensures "borough" !in WeatherNumeric && "condition" !in WeatherNumeric && "date" !in WeatherNumeric
    ensures "borough" != "condition" && "date" != "borough" && "date" != "condition"
    ensures WeatherFinal[0] == "date" && WeatherFinal[1] == "borough" && WeatherFinal[4] == "condition"
    ensures forall c :: c in WeatherNumeric ==> c in WeatherFinal && c != "borough" && c != "condition"
  {
  }

  /** The borough and condition defaults and the numeric coercion of
      `transform_weather_data`. */
  method DefaultWeatherColumns(df: Frame, p: Platform) returns (g: Frame)
    ensures forall c :: c in g.columns <==> c in df.columns + ["borough", "condition"]
    ensures |g.rows| == |df.rows|
    ensures forall i :: 0 <= i < |df.rows| ==>
              Get(g.rows[i], "borough") == CellOr(df.rows[i], df, "borough", Text("UNKNOWN"))
    ensures forall i :: 0 <= i < |df.rows| ==>
              Get(g.rows[i], "condition") == CellOr(df.rows[i], df, "condition", Text("Clear"))
    ensures forall i, c :: 0 <= i < |df.rows| && c in WeatherNumeric && c in df.columns ==>
              Get(g.rows[i], c) == Num(ToNumeric(Get(df.rows[i], c), p))
    ensures forall i, c :: 0 <= i < |df.rows| && c !in WeatherNumeric && c != "borough" && c != "condition" ==>
              Get(g.rows[i], c) == Get(df.rows[i], c)
  {
    WeatherNames();
    var g1 := WithDefault(df, "borough", Text("UNKNOWN"));
    var g2 := CoerceColumns(g1, WeatherNumeric, p);
    CoercedCells(g1, WeatherNumeric, p);
    g := WithDefault(g2, "condition", Text("Clear"));
    forall i | 0 <= i < |df.rows|
      ensures Get(g.rows[i], "borough") == CellOr(df.rows[i], df, "borough", Text("UNKNOWN"))
    {
      assert Get(g2.rows[i], "borough") == Get(g1.rows[i], "borough");
    }
    forall i | 0 <= i < |df.rows|
      ensures Get(g.rows[i], "condition") == CellOr(df.rows[i], df, "condition", Text("Clear"))
    {
      assert Get(g2.rows[i], "condition") == Get(g1.rows[i], "condition");
    }
    forall i, c | 0 <= i < |df.rows| && c in WeatherNumeric && c in df.columns
      ensures Get(g.rows[i], c) == Num(ToNumeric(Get(df.rows[i], c), p))
    {
      assert Get(g1.rows[i], c) == Get(df.rows[i], c);
    }
  }

  /** The rest of `transform_weather_data`: the defaults, the coercion and
      the projection. */
  method FillWeatherColumns(df: Frame, p: Platform) returns (r: Frame)
    ensures r.columns == Available(WeatherFinal, df.columns + ["borough", "condition"])
    ensures |r.rows| == |df.rows|
    ensures forall i :: 0 <= i < |df.rows| ==>
              Get(r.rows[i], "borough") == CellOr(df.rows[i], df, "borough", Text("UNKNOWN"))
    ensures forall i :: 0 <= i < |df.rows| ==>
              Get(r.rows[i], "condition") == CellOr(df.rows[i], df, "condition", Text("Clear"))
    ensures "date" in df.columns ==>
              forall i :: 0 <= i < |df.rows| ==> Get(r.rows[i], "date") == Get(df.rows[i], "date")
    ensures forall i, c :: 0 <= i < |df.rows| && c in WeatherNumeric && c in df.columns ==>
              Get(r.rows[i], c) == Num(ToNumeric(Get(df.rows[i], c), p))
  {
    WeatherNames();
    var g := DefaultWeatherColumns(df, p);
    AvailableSameMembers(WeatherFinal, g.columns, df.columns + ["borough", "condition"]);
    r := Project(g, WeatherFinal);
    assert "borough" in r.columns && "condition" in r.columns;
    assert "date" in df.columns ==> "date" in r.columns;
    assert forall c :: c in WeatherNumeric && c in df.columns ==> c in r.columns;
  }

  /** `transform_weather_data`. On success no row is dropped; the columns
      are the final list filtered to those present, in the list's order; the
      borough defaults to UNKNOWN and is not remapped, the condition defaults
      to Clear, the numeric columns read as parsed-or-0 and the date column
      is parsed (from `datetime` when there is no `date`). */
  method TransformWeatherData(weather: Frame, p: Platform) returns (r: Frame)
    ensures IsEmpty(weather) || WeatherDateFails(weather, p) ==> r == EmptyFrame
    ensures !IsEmpty(weather) && !WeatherDateFails(weather, p) ==>
              r.columns == Available(WeatherFinal, WeatherPresent(weather)) && |r.rows| == |weather.rows|
    ensures !IsEmpty(weather) && !WeatherDateFails(weather, p) ==>
              forall i :: 0 <= i < |weather.rows| ==>
                Get(r.rows[i], "borough") == CellOr(weather.rows[i], weather, "borough", Text("UNKNOWN"))
                && Get(r.rows[i], "condition") == CellOr(weather.rows[i], weather, "condition", Text("Clear"))
    ensures !IsEmpty(weather) && !WeatherDateFails(weather, p) ==>
              forall i, c :: 0 <= i < |weather.rows| && c in WeatherNumeric && c in weather.columns ==>
                Get(r.rows[i], c) == Num(ToNumeric(Get(weather.rows[i], c), p))
    ensures !IsEmpty(weather) && !WeatherDateFails(weather, p) && "date" in weather.columns ==>
              forall i :: 0 <= i < |weather.rows| ==>
                Some(Get(r.rows[i], "date")) == p.toTimestamp(Get(weather.rows[i], "date"))
    ensures !IsEmpty(weather) && !WeatherDateFails(weather, p) && "date" !in weather.columns
            && "datetime" in weather.columns ==>
              forall i :: 0 <= i < |weather.rows| ==>
                Some(Get(r.rows[i], "date")) == ToDate(Get(weather.rows[i], "datetime"), p)
  {
    if IsEmpty(weather) {
      return EmptyFrame;
    }
    var parsed := ParseWeatherDates(weather, p);
    if parsed.None? {
      return EmptyFrame;
    }
    r := FinishWeather(weather, parsed.value, p);
  }

  /** The steps of `transform_weather_data` after the date, stated about
      the frame before the date step. */
  method FinishWeather(weather: Frame, df: Frame, p: Platform) returns (r: Frame)
    requires |df.rows| == |weather.rows|
    requires forall c :: c in df.columns <==> c in weather.columns || (c == "date" && "datetime" in weather.columns)
    requires forall i, c :: 0 <= i < |weather.rows| && c != "date" ==> Get(df.rows[i], c) == Get(weather.rows[i], c)
    ensures r.columns == Available(WeatherFinal, WeatherPresent(weather)) && |r.rows| == |weather.rows|
    ensures forall i :: 0 <= i < |weather.rows| ==>
              Get(r.rows[i], "borough") == CellOr(weather.rows[i], weather, "borough", Text("UNKNOWN"))
              && Get(r.rows[i], "condition") == CellOr(weather.rows[i], weather, "condition", Text("Clear"))
    ensures forall i, c :: 0 <= i < |weather.rows| && c in WeatherNumeric && c in weather.columns ==>
              Get(r.rows[i], c) == Num(ToNumeric(Get(weather.rows[i], c), p))
    ensures "date" in df.columns ==>
              forall i :: 0 <= i < |weather.rows| ==> Get(r.rows[i], "date") == Get(df.rows[i], "date")
  {
    WeatherNames();
    r := FillWeatherColumns(df, p);
    AvailableSameMembers(WeatherFinal, df.columns + ["borough", "condition"], WeatherPresent(weather));
    assert ("borough" in df.columns <==> "borough" in weather.columns)
        && ("condition" in df.columns <==> "condition" in weather.columns);
    assert forall c :: c in WeatherNumeric ==> (c in df.columns <==> c in weather.columns);
  }

  // ---------------------------------------------------------------------
  // transform_collision_data
  // ---------------------------------------------------------------------

  /** `borough_mapping` followed by `.fillna('OTHER')`. */
  function MapBorough(s: string): (r: string)
    ensures r in FiveBoroughs || r == "OTHER"
    ensures r == s <==> s in FiveBoroughs || s == "OTHER"
  {
    if s in FiveBoroughs then s else if s == "STATEN IS" then "STATEN ISLAND" else "OTHER"
  }

  /** The abbreviation is the only name that is rewritten to another
      borough, and mapping a mapped name changes nothing. */
  lemma MapBoroughFacts(s: string)
    ensures MapBorough("STATEN IS") == "STATEN ISLAND"
    ensures MapBorough(MapBorough(s)) == MapBorough(s)
    ensures MapBorough(s) in FiveBoroughs && MapBorough(s) != s ==> s == "STATEN IS"
  {
  }

  /** A frame without a borough column gets UNKNOWN, which the mapping
      turns into OTHER. */
  lemma MissingBoroughIsOther(p: Platform)
    ensures MapBorough(CleanUpper(StrOf(Text("UNKNOWN"), p))) == "OTHER"
  {
    var u := "UNKNOWN";
    UpperFixed(u);
    StripFixed(u);
    assert CleanUpper(StrOf(Text(u), p)) == u;
    UnknownIsOther();
  }

  lemma UnknownIsOther()
    ensures MapBorough("UNKNOWN") == "OTHER"
  {
  }

  /** `.map(borough_mapping).fillna('OTHER')` on one cell. */
  function MapCell(c: Cell): Cell {
    if c.Text? then Text(MapBorough(c.s)) else Text("OTHER")
  }

  /** The cleaned borough of one row: `astype(str).str.upper().str.strip()`,
      then the mapping. */
  function CollisionBorough(row: Row, f: Frame, p: Platform): string {
    MapBorough(CleanUpper(StrOf(CellOr(row, f, "borough", Text("UNKNOWN")), p)))
  }

  /** The `date` step raises: `pd.to_datetime` fails on some `crash_date`. */
  predicate CollisionDateFails(f: Frame, p: Platform) {
    "crash_date" in f.columns && !AllConvert(f, "crash_date", c => ToDate(c, p))
  }

  /** A count column: parsed-or-0 when present, 0 otherwise. */
  function CountCell(row: Row, f: Frame, column: string, p: Platform): Cell {
    Num(if column in f.columns then ToNumeric(Get(row, column), p) else 0.0)
  }

  /** The literal column names of `transform_collision_data` are distinct. */
  lemma CollisionNames()
    ensures CollisionFinal == ["date", "borough", "collisions", "persons_injured", "persons_killed", "weather_condition"]
    ensures "date" in CollisionFinal && "borough" in CollisionFinal && "collisions" in CollisionFinal
    ensures "persons_injured" in CollisionFinal && "persons_killed" in CollisionFinal
    ensures "weather_condition" in CollisionFinal
    ensures "date" != "borough" && "date" != "collisions" && "date" != "persons_injured"
    ensures "date" != "persons_killed" && "date" != "weather_condition"
    ensures "borough" != "collisions" && "borough" != "persons_injured"
    ensures "borough" != "persons_killed" && "borough" != "weather_condition"
    ensures "collisions" != "persons_killed" && "collisions" != "persons_injured"
    ensures "collisions" != "weather_condition" && "persons_killed" != "persons_injured"
    ensures "persons_killed" != "weather_condition" && "persons_injured" != "weather_condition"
  {
  }

  /** The `date` step of `transform_collision_data`: the date part of
      `crash_date`, or `today` for every row when there is no `crash_date`;
      None when the parse raises. */
  method CollisionDates(collisions: Frame, p: Platform, today: Date) returns (r: Option<Frame>)
    ensures r.None? <==> CollisionDateFails(collisions, p)
    ensures r.Some? ==> |r.value.rows| == |collisions.rows|
    ensures r.Some? ==> forall c :: c in r.value.columns <==> c in collisions.columns || c == "date"
    ensures r.Some? ==> forall i, c :: 0 <= i < |collisions.rows| && c != "date" ==>
                          Get(r.value.rows[i], c) == Get(collisions.rows[i], c)
    ensures r.Some? ==> forall i :: 0 <= i < |collisions.rows| ==>
                          Some(Get(r.value.rows[i], "date")) ==
                            if "crash_date" in collisions.columns
                            then ToDate(Get(collisions.rows[i], "crash_date"), p)
                            else Some(Day(today))
  {
    if "crash_date" in collisions.columns {
      r := DeriveColumn(collisions, "crash_date", "date", c => ToDate(c, p));
    } else {
      r := Some(WithColumn(collisions, "date", row => Day(today)));
    }
  }

  /** The borough steps of `transform_collision_data`: the UNKNOWN default,
      the upper-cased and stripped text, and the mapping. */
  method CleanBoroughs(df: Frame, p: Platform) returns (g: Frame)
    ensures forall c :: c in g.columns <==> c in df.columns || c == "borough"
    ensures |g.rows| == |df.rows|
    ensures forall i :: 0 <= i < |df.rows| ==> Get(g.rows[i], "borough") == Text(CollisionBorough(df.rows[i], df, p))
    ensures forall i, c :: 0 <= i < |df.rows| && c != "borough" ==> Get(g.rows[i], c) == Get(df.rows[i], c)
  {
    var g1 := WithDefault(df, "borough", Text("UNKNOWN"));
    var g2 := WithColumn(g1, "borough", row => Text(CleanUpper(StrOf(Get(row, "borough"), p))));
    g := WithColumn(g2, "borough", row => MapCell(Get(row, "borough")));
  }

  /** `df[column] = pd.to_numeric(df[column], errors='coerce').fillna(0)`
      when the column is present, `df[column] = 0` otherwise. */
  function CountColumn(f: Frame, column: string, p: Platform): (r: Frame)
    ensures forall c :: c in r.columns <==> c in f.columns || c == column
    ensures |r.rows| == |f.rows|
    ensures forall i :: 0 <= i < |f.rows| ==> Get(r.rows[i], column) == CountCell(f.rows[i], f, column, p)
    ensures forall i, c :: 0 <= i < |f.rows| && c != column ==> Get(r.rows[i], c) == Get(f.rows[i], c)
  {
    if column in f.columns then WithColumn(f, column, row => Num(ToNumeric(Get(row, column), p)))
    else WithColumn(f, column, row => Num(0.0))
  }

  /** The `collisions`, `persons_killed` and `persons_injured` steps of
      `transform_collision_data`. */
  method FillInjuries(df: Frame, p: Platform) returns (g: Frame)
    ensures forall c :: c in g.columns <==>
              c in df.columns || c == "collisions" || c == "persons_killed" || c == "persons_injured"
    ensures |g.rows| == |df.rows|
    ensures forall i :: 0 <= i < |df.rows| ==>
              && Get(g.rows[i], "collisions") == Num(1.0)
              && Get(g.rows[i], "persons_injured") == CountCell(df.rows[i], df, "persons_injured", p)
              && Get(g.rows[i], "persons_killed") == CountCell(df.rows[i], df, "persons_killed", p)
    ensures forall i, c :: 0 <= i < |df.rows| && c != "collisions" && c != "persons_killed" && c != "persons_injured" ==>
              Get(g.rows[i], c) == Get(df.rows[i], c)
  {
    CollisionNames();
    var g1 := WithColumn(df, "collisions", row => Num(1.0));
    g := FillCasualties(g1, p);
  }

  /** The `persons_killed` and `persons_injured` steps. */
  method FillCasualties(df: Frame, p: Platform) returns (g: Frame)
    ensures forall c :: c in g.columns <==> c in df.columns || c == "persons_killed" || c == "persons_injured"
    ensures |g.rows| == |df.rows|
    ensures forall i :: 0 <= i < |df.rows| ==>
              && Get(g.rows[i], "persons_injured") == CountCell(df.rows[i], df, "persons_injured", p)
              && Get(g.rows[i], "persons_killed") == CountCell(df.rows[i], df, "persons_killed", p)
    ensures forall i, c :: 0 <= i < |df.rows| && c != "persons_killed" && c != "persons_injured" ==>
              Get(g.rows[i], c) == Get(df.rows[i], c)
  {
    CollisionNames();
    var g1 := CountColumn(df, "persons_killed", p);
    g := CountColumn(g1, "persons_injured", p);
  }

  /** The count and condition steps of `transform_collision_data`. */
  method FillCounts(df: Frame, p: Platform) returns (g: Frame)
    ensures forall c :: c in g.columns <==>
              c in df.columns || c == "collisions" || c == "persons_killed" || c == "persons_injured"
              || c == "weather_condition"
    ensures |g.rows| == |df.rows|
    ensures forall i :: 0 <= i < |df.rows| ==>
              && Get(g.rows[i], "collisions") == Num(1.0)
              && Get(g.rows[i], "persons_injured") == CountCell(df.rows[i], df, "persons_injured", p)
              && Get(g.rows[i], "persons_killed") == CountCell(df.rows[i], df, "persons_killed", p)
              && Get(g.rows[i], "weather_condition") == CellOr(df.rows[i], df, "weather_condition", Text("Clear"))
    ensures forall i, c :: 0 <= i < |df.rows| && c != "collisions" && c != "persons_killed"
                           && c != "persons_injured" && c != "weather_condition" ==>
              Get(g.rows[i], c) == Get(df.rows[i], c)
  {
    CollisionNames();
    var g3 := FillInjuries(df, p);
    g := WithDefault(g3, "weather_condition", Text("Clear"));
    assert "weather_condition" in g3.columns <==> "weather_condition" in df.columns;
    forall i | 0 <= i < |df.rows|
      ensures Get(g.rows[i], "weather_condition") == CellOr(df.rows[i], df, "weather_condition", Text("Clear"))
    {
      assert Get(g3.rows[i], "weather_condition") == Get(df.rows[i], "weather_condition");
    }
  }

  /** The steps of `transform_collision_data` after the date: borough
      cleaning, the counts, the condition default and the projection. */
  method FinishCollisions(d: Frame, p: Platform) returns (r: Frame)
    requires "date" in d.columns
    ensures r.columns == CollisionFinal && |r.rows| == |d.rows|
    ensures forall i :: 0 <= i < |d.rows| ==> Get(r.rows[i], "date") == Get(d.rows[i], "date")
    ensures forall i :: 0 <= i < |d.rows| ==>
              && Get(r.rows[i], "borough") == Text(CollisionBorough(d.rows[i], d, p))
              && Get(r.rows[i], "collisions") == Num(1.0)
              && Get(r.rows[i], "persons_injured") == CountCell(d.rows[i], d, "persons_injured", p)
              && Get(r.rows[i], "persons_killed") == CountCell(d.rows[i], d, "persons_killed", p)
              && Get(r.rows[i], "weather_condition") == CellOr(d.rows[i], d, "weather_condition", Text("Clear"))
  {
    var g := CleanAndCount(d, p);
    AvailableAll(CollisionFinal, g.columns);
    r := Project(g, CollisionFinal);
    CollisionNames();
  }

  /** The borough, count and condition steps before the final projection. */
  method CleanAndCount(d: Frame, p: Platform) returns (g: Frame)
    requires "date" in d.columns
    ensures forall c :: c in CollisionFinal ==> c in g.columns
    ensures |g.rows| == |d.rows|
    ensures forall i :: 0 <= i < |d.rows| ==> Get(g.rows[i], "date") == Get(d.rows[i], "date")
    ensures forall i :: 0 <= i < |d.rows| ==>
              && Get(g.rows[i], "borough") == Text(CollisionBorough(d.rows[i], d, p))
              && Get(g.rows[i], "collisions") == Num(1.0)
              && Get(g.rows[i], "persons_injured") == CountCell(d.rows[i], d, "persons_injured", p)
              && Get(g.rows[i], "persons_killed") == CountCell(d.rows[i], d, "persons_killed", p)
              && Get(g.rows[i], "weather_condition") == CellOr(d.rows[i], d, "weather_condition", Text("Clear"))
  {
    CollisionNames();
    var b := CleanBoroughs(d, p);
    g := FillCounts(b, p);
    assert forall i :: 0 <= i < |d.rows| ==> Get(g.rows[i], "borough") == Get(b.rows[i], "borough");
    assert "persons_injured" in b.columns <==> "persons_injured" in d.columns;
    assert "persons_killed" in b.columns <==> "persons_killed" in d.columns;
    assert "weather_condition" in b.columns <==> "weather_condition" in d.columns;
  }

  /** `transform_collision_data`; `today` is `pd.Timestamp.now().date()`.
      On success no row is dropped and the columns are exactly the final
      list; every row counts one collision, its borough is one of the five
      names or OTHER, and absent counts and condition are 0 and Clear. */
  method TransformCollisionData(collisions: Frame, p: Platform, today: Date) returns (r: Frame)
    ensures IsEmpty(collisions) || CollisionDateFails(collisions, p) ==> r == EmptyFrame
    ensures !IsEmpty(collisions) && !CollisionDateFails(collisions, p) ==>
              r.columns == CollisionFinal && |r.rows| == |collisions.rows|
    ensures !IsEmpty(collisions) && !CollisionDateFails(collisions, p) ==>
              forall i :: 0 <= i < |collisions.rows| ==>
                var row := collisions.rows[i];
                && Some(Get(r.rows[i], "date")) ==
                     (if "crash_date" in collisions.columns then ToDate(Get(row, "crash_date"), p) else Some(Day(today)))
                && Get(r.rows[i], "borough") == Text(CollisionBorough(row, collisions, p))
                && Get(r.rows[i], "collisions") == Num(1.0)
                && Get(r.rows[i], "persons_injured") == CountCell(row, collisions, "persons_injured", p)
                && Get(r.rows[i], "persons_killed") == CountCell(row, collisions, "persons_killed", p)
                && Get(r.rows[i], "weather_condition") == CellOr(row, collisions, "weather_condition", Text("Clear"))
  {
    if IsEmpty(collisions) {
      return EmptyFrame;
    }
    var dated := CollisionDates(collisions, p, today);
    if dated.None? {
      return EmptyFrame;
    }
    var d := dated.value;
    CollisionNames();
    r := FinishCollisions(d, p);
    assert "borough" in d.columns <==> "borough" in collisions.columns;
    assert "persons_injured" in d.columns <==> "persons_injured" in collisions.columns;
    assert "persons_killed" in d.columns <==> "persons_killed" in collisions.columns;
    assert "weather_condition" in d.columns <==> "weather_condition" in collisions.columns;
  }
}
