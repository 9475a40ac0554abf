/** `WeatherTransformer` of transform_UPDATED.py: hourly weather rows are
    parsed, coerced, rounded, given time and weather features, and
    de-duplicated on (borough, datetime), keeping the first row. */
module WeatherTransformer {
  import opened Strings
  import opened Tables
  import opened Sequences

  datatype Season = Winter | Spring | Summer | Fall
  datatype Category = Snow | Rain | Fog | Wind | Clear
  datatype Severity = Light | Moderate | Severe | Heavy

  /** `_get_season`: December to February is winter, March to May spring,
      June to August summer; every other value, months 9 to 11 and anything
      that is not a month, is fall. */
  function GetSeason(month: int): (s: Season)
    ensures s == Winter <==> month == 12 || month == 1 || month == 2
    ensures s == Spring <==> 3 <= month <= 5
    ensures s == Summer <==> 6 <= month <= 8
    ensures s == Fall <==> !(1 <= month <= 8 || month == 12)
  {
    if month == 12 || month == 1 || month == 2 then Winter
    else if month == 3 || month == 4 || month == 5 then Spring
    else if month == 6 || month == 7 || month == 8 then Summer
    else Fall
  }

  /** Seasons are the calendar quarters shifted back by one month: month m
      of the year falls in quarter (m mod 12) div 3. */
  lemma SeasonsAreShiftedQuarters(month: int)
    requires 1 <= month <= 12
    ensures GetSeason(month) == [Winter, Spring, Summer, Fall][(month % 12) / 3]
  {
  }

  /** The measurement columns of one row after `pd.to_numeric(...).fillna(0)`
      and rounding; None where the column is absent from the frame. */
  datatype Readings = Readings(
    temperature: Option<real>, precipitation: Option<real>, visibility: Option<real>,
    rain: Option<real>, showers: Option<real>, snowfall: Option<real>, wind: Option<real>)

  /** `row.get('rain', 0) + row.get('showers', 0) + row.get('precipitation', 0)`. */
  function RainTotal(r: Readings): real {
    r.rain.GetOr(0.0) + r.showers.GetOr(0.0) + r.precipitation.GetOr(0.0)
  }

  function Snowfall(r: Readings): real { r.snowfall.GetOr(0.0) }

  /** A missing visibility column reads as 10000. */
  function Visibility(r: Readings): real { r.visibility.GetOr(10000.0) }

  function WindSpeed(r: Readings): real { r.wind.GetOr(0.0) }

  /** `_categorize_weather`: the first rule that holds, in the order snow,
      rain, fog, wind; CLEAR when none does. */
  function CategorizeWeather(r: Readings): (c: Category)
    ensures c == Snow <==> Snowfall(r) > 0.0
    ensures c == Rain <==> Snowfall(r) <= 0.0 && RainTotal(r) > 0.0
    ensures c == Fog <==> Snowfall(r) <= 0.0 && RainTotal(r) <= 0.0 && Visibility(r) < 5000.0
    ensures c == Wind <==> Snowfall(r) <= 0.0 && RainTotal(r) <= 0.0 && Visibility(r) >= 5000.0
                           && WindSpeed(r) > 30.0
    ensures c == Clear <==> Snowfall(r) <= 0.0 && RainTotal(r) <= 0.0 && Visibility(r) >= 5000.0
                            && WindSpeed(r) <= 30.0
  {
    if Snowfall(r) > 0.0 then Snow
    else if RainTotal(r) > 0.0 then Rain
    else if Visibility(r) < 5000.0 then Fog
    else if WindSpeed(r) > 30.0 then Wind
    else Clear
  }

  /** `_assess_severity`: a ladder of thresholds over snow, rain, visibility
      and wind, first match wins, LIGHT when nothing matches. */
  function AssessSeverity(r: Readings): (s: Severity)
    ensures Snowfall(r) > 5.0 ==> s == Heavy
    ensures Snowfall(r) <= 5.0 ==> (RainTotal(r) > 10.0 <==> s == Heavy)
    ensures Snowfall(r) <= 5.0 && RainTotal(r) <= 10.0 ==>
              (RainTotal(r) > 5.0 ==> s == Moderate)
    ensures Snowfall(r) <= 5.0 && RainTotal(r) <= 5.0 ==>
              (Visibility(r) < 1000.0 ==> s == Severe)
              && (1000.0 <= Visibility(r) < 3000.0 ==> s == Moderate)
    ensures Snowfall(r) <= 5.0 && RainTotal(r) <= 5.0 && Visibility(r) >= 3000.0 ==>
              (WindSpeed(r) > 50.0 ==> s == Severe)
              && (30.0 < WindSpeed(r) <= 50.0 ==> s == Moderate)
              && (WindSpeed(r) <= 30.0 <==> s == Light)
  {
    if Snowfall(r) > 5.0 then Heavy
    else if RainTotal(r) > 10.0 then Heavy
    else if RainTotal(r) > 5.0 then Moderate
    else if Visibility(r) < 1000.0 then Severe
    else if Visibility(r) < 3000.0 then Moderate
    else if WindSpeed(r) > 50.0 then Severe
    else if WindSpeed(r) > 30.0 then Moderate
    else Light
  }

  /** Snowfall 2 with rain 1 is SNOW: the snow rule comes first. */
  lemma SnowBeforeRain()
    ensures CategorizeWeather(Readings(None, None, None, Some(1.0), None, Some(2.0), None)) == Snow
  {
  }

  /** Without a visibility column the FOG rule never fires. */
  lemma MissingVisibilityNeverFog(r: Readings)
    requires r.visibility.None?
    ensures CategorizeWeather(r) != Fog
  {
  }

  /** The two classifiers agree: clear weather is always LIGHT, HEAVY
      weather is always snow or rain, and SEVERE weather is never clear. */
  lemma ClassifiersAgree(r: Readings)
    ensures CategorizeWeather(r) == Clear ==> AssessSeverity(r) == Light
    ensures AssessSeverity(r) == Heavy ==> CategorizeWeather(r) in {Snow, Rain}
    ensures AssessSeverity(r) == Severe ==> CategorizeWeather(r) != Clear
  {
  }

  /** `is_rush_hour`: hours 7-9 and 16-19. */
  predicate RushHour(hour: int) {
    hour in {7, 8, 9, 16, 17, 18, 19}
  }

  /** `is_night`: from 20:00 to 05:59. */
  predicate NightHour(hour: int) {
    hour >= 20 || hour < 6
  }

  /** No hour is both a rush hour and a night hour. */
  lemma RushHourIsNeverNight(hour: int)
    ensures !(RushHour(hour) && NightHour(hour))
  {
  }

  /** `dt.day_name()`. */
  function DayName(weekday: int): Option<string> {
    if 0 <= weekday < 7
    then Some(["Monday", "Tuesday", "Wednesday", "Thursday", "Friday", "Saturday", "Sunday"][weekday])
    else None
  }

  /** One output row of `WeatherTransformer.transform`. Fields derived from
      the timestamp are None (NaN) when the timestamp did not parse. */
  datatype WeatherRecord = WeatherRecord(
    borough: Option<string>,
    datetime: Option<LocalTime>,
    readings: Readings,
    hour: Option<int>,
    dayName: Option<string>,
    isWeekend: bool,
    isRushHour: bool,
    isNight: bool,
    month: Option<int>,
    season: Season,
    category: Category,
    severity: Severity)

  /** The natural key of the weather domain. */
  function WeatherKey(r: WeatherRecord): (Option<string>, Option<LocalTime>) {
    (r.borough, r.datetime)
  }

  /** Weather sorts by `datetime`; NaT sorts last. */
  function WeatherRank(r: WeatherRecord): Rank {
    if r.datetime.Some? then At(r.datetime.value.instant) else Missing
  }

  /** Where each referenced column of the raw frame is. */
  datatype WeatherColumns = WeatherColumns(
    datetime: string, borough: string,
    temperature: Option<string>, precipitation: Option<string>, visibility: Option<string>,
    rain: Option<string>, showers: Option<string>, snowfall: Option<string>, wind: Option<string>)

  /** Column lookups in the order the transformer touches them; `datetime`
      (line 38) and `borough` (the de-duplication, line 82) are required. */
  function ResolveColumns(f: Frame): (r: Result<WeatherColumns>)
    ensures Matching(f.columns, "datetime", []) == [] ==> r == Fail(MissingColumn("datetime"))
    ensures r.Ok? ==> (r.value.visibility.None? <==> Matching(f.columns, "visibility", []) == [])
  {
    var datetime :- Require(f, "datetime", []);
    var temperature :- Resolve(f, "temperature_2m", []);
    var precipitation :- Resolve(f, "precipitation", []);
    var visibility :- Resolve(f, "visibility", []);
    var rain :- Resolve(f, "rain", []);
    var showers :- Resolve(f, "showers", []);
    var snowfall :- Resolve(f, "snowfall", []);
    var wind :- Resolve(f, "wind_speed_10m", []);
    var borough :- Require(f, "borough", []);
    Ok(WeatherColumns(datetime, borough, temperature, precipitation, visibility,
                      rain, showers, snowfall, wind))
  }

  /** `round(2)`: the nearest hundredth, ties to even; a missing value stays missing. */
  function RoundTo2(v: Option<real>): (r: Option<real>)
    ensures r.Some? <==> v.Some?
    ensures v.Some? ==> v.value - 0.005 <= r.value <= v.value + 0.005
    ensures v.Some? ==> (r.value * 100.0).Floor as real == r.value * 100.0
  {
    if v.None? then None
    else
      var n := RoundHalfEven(v.value * 100.0);
      assert (n as real / 100.0) * 100.0 == n as real;
      Some(n as real / 100.0)
  }

  /** `round(-2)`: the nearest multiple of 100, ties to even; a missing value
      stays missing. */
  function RoundToHundred(v: Option<real>): (r: Option<real>)
    ensures r.Some? <==> v.Some?
    ensures v.Some? ==> v.value - 50.0 <= r.value <= v.value + 50.0
    ensures v.Some? ==> (r.value / 100.0).Floor as real * 100.0 == r.value
  {
    if v.None? then None
    else
      var n := RoundHalfEven(v.value / 100.0);
      assert (n as real * 100.0) / 100.0 == n as real;
      Some(n as real * 100.0)
  }

  /** One raw row after numeric cleanup, features and borough cleanup. */
  function CleanRow(row: Row, cols: WeatherColumns, p: Platform): (rec: WeatherRecord)
    ensures rec.datetime == p.toLocalTime(Get(row, cols.datetime))
    ensures rec.isRushHour <==> rec.hour.Some? && RushHour(rec.hour.value)
    ensures rec.isNight <==> rec.hour.Some? && NightHour(rec.hour.value)
    ensures rec.isWeekend <==> rec.datetime.Some? && rec.datetime.value.weekday >= 5
    ensures rec.hour.Some? <==> rec.datetime.Some?
    ensures rec.datetime.Some? ==> rec.hour.value == rec.datetime.value.hour
    ensures rec.datetime.Some? ==> rec.season == GetSeason(rec.datetime.value.month)
    ensures rec.datetime.None? ==> rec.season == Fall
    ensures rec.category == CategorizeWeather(rec.readings)
    ensures rec.severity == AssessSeverity(rec.readings)
    ensures rec.borough.Some? <==> Get(row, cols.borough).Text?
    ensures rec.borough.Some? ==> rec.borough.value == CleanUpper(Get(row, cols.borough).s)
    ensures rec.readings == Readings(
              RoundTo2(Reading(row, cols.temperature, p)),
              Reading(row, cols.precipitation, p),
              RoundToHundred(Reading(row, cols.visibility, p)),
              Reading(row, cols.rain, p),
              Reading(row, cols.showers, p),
              Reading(row, cols.snowfall, p),
              RoundTo2(Reading(row, cols.wind, p)))
    ensures rec.month.Some? <==> rec.datetime.Some?
    ensures rec.datetime.Some? ==> rec.month.value == rec.datetime.value.month
    ensures rec.dayName == if rec.datetime.Some? then DayName(rec.datetime.value.weekday) else None
  {
    var dt := p.toLocalTime(Get(row, cols.datetime));
    var readings := Readings(
      RoundTo2(Reading(row, cols.temperature, p)),
      Reading(row, cols.precipitation, p),
      RoundToHundred(Reading(row, cols.visibility, p)),
      Reading(row, cols.rain, p),
      Reading(row, cols.showers, p),
      Reading(row, cols.snowfall, p),
      RoundTo2(Reading(row, cols.wind, p)));
    var hour := if dt.Some? then Some(dt.value.hour) else None;
    var month := if dt.Some? then Some(dt.value.month) else None;
    var borough := match Get(row, cols.borough)
      case Text(s) => Some(CleanUpper(s))
      case _ => None;
    WeatherRecord(
      borough, dt, readings, hour,
      if dt.Some? then DayName(dt.value.weekday) else None,
      dt.Some? && dt.value.weekday >= 5,
      hour.Some? && RushHour(hour.value),
      hour.Some? && NightHour(hour.value),
      month,
      if month.Some? then GetSeason(month.value) else Fall,
      CategorizeWeather(readings),
      AssessSeverity(readings))
  }

  function CleanRows(rows: seq<Row>, cols: WeatherColumns, p: Platform): (r: seq<WeatherRecord>)
    ensures |r| == |rows|
    ensures forall i :: 0 <= i < |rows| ==> r[i] == CleanRow(rows[i], cols, p)
  {
    seq(|rows|, i requires 0 <= i < |rows| => CleanRow(rows[i], cols, p))
  }

  /** What `transform` returns for the raw frame `f`. */
  function CleanWeather(f: Frame, p: Platform): Result<seq<WeatherRecord>> {
    var cols :- ResolveColumns(f);
    Ok(DedupFirst(CleanRows(f.rows, cols, p), WeatherKey))
  }

  /** A frame with no column that names visibility yields no FOG record:
      the reading is missing in every cleaned row. */
  lemma FrameWithoutVisibilityHasNoFog(f: Frame, p: Platform)
    requires Matching(f.columns, "visibility", []) == []
    requires CleanWeather(f, p).Ok?
    ensures forall i :: 0 <= i < |CleanWeather(f, p).value| ==> CleanWeather(f, p).value[i].category != Fog
  {
    var cols := ResolveColumns(f).value;
    var cleaned := CleanRows(f.rows, cols, p);
    forall i | 0 <= i < |cleaned| ensures cleaned[i].category != Fog {
      MissingVisibilityNeverFog(cleaned[i].readings);
    }
    DedupFirstKeeps(cleaned, WeatherKey, (w: WeatherRecord) => w.category != Fog);
  }

  /** `WeatherTransformer.transform`: rows are cleaned one by one, then the
      first row per (borough, datetime) is kept. */
  method Transform(f: Frame, p: Platform) returns (r: Result<seq<WeatherRecord>>)
    ensures r == CleanWeather(f, p)
  {
    var resolved := ResolveColumns(f);
    if resolved.Fail? {
      return Fail(resolved.error);
    }
    var cols := resolved.value;
    var cleaned := CleanEach(f.rows, cols, p);
    var kept := KeepFirst(cleaned, WeatherKey);
    return Ok(kept);
  }

  /** The per-row cleanup loop of `transform`. */
  method CleanEach(rows: seq<Row>, cols: WeatherColumns, p: Platform) returns (cleaned: seq<WeatherRecord>)
    ensures cleaned == CleanRows(rows, cols, p)
  {
    cleaned := [];
    for i := 0 to |rows|
      invariant cleaned == CleanRows(rows, cols, p)[..i]
    {
      cleaned := cleaned + [CleanRow(rows[i], cols, p)];
    }
  }

  /** The transformed batch holds at most one row per (borough, datetime),
      covers every key of the cleaned input, keeps the first row of each key
      and keeps the input order; it never has more rows than the input. */
  lemma {:induction false} CleanWeatherDeduplicates(f: Frame, p: Platform)
    requires CleanWeather(f, p).Ok?
    ensures var out := CleanWeather(f, p).value;
            var all := CleanRows(f.rows, ResolveColumns(f).value, p);
            && UniqueKeys(out, WeatherKey)
            && Keys(out, WeatherKey) == Keys(all, WeatherKey)
            && (forall i :: 0 <= i < |out| ==> out[i] == FirstFor(all, WeatherKey, WeatherKey(out[i])))
            && Subsequence(out, all)
            && |out| <= |f.rows|
  {
    var all := CleanRows(f.rows, ResolveColumns(f).value, p);
    var out := DedupFirst(all, WeatherKey);
    UniqueKeysCount(out, WeatherKey);
    KeysSubsetCount(all, WeatherKey);
  }

  /** A raw frame without a `datetime` column raises KeyError. */
  lemma MissingDatetimeFails(f: Frame, p: Platform)
    requires forall c :: c in f.columns ==> NormalizeColumnName(c) != "datetime"
    ensures CleanWeather(f, p) == Fail(MissingColumn("datetime"))
  {
    forall c | c in f.columns ensures CanonicalName(c, []) != "datetime" {
    }
  }
}
