/** `CollisionsTransformer` of transform_UPDATED.py: raw NYC collision rows
    get their alias columns renamed, a parsed `crash_datetime`, a cleaned and
    filtered borough, eight integer injury counts and a severity level; rows
    without an id or a timestamp are dropped and the first row per
    `collision_id` is kept. */
module CollisionsTransformer {
  import opened Strings
  import opened Tables
  import opened Sequences

  /** `column_mapping`: the long NYC Open Data names and the short names the
      rest of the transformer uses. */
  const ColumnMapping: seq<(string, string)> := [
    ("number_of_persons_injured", "persons_injured"),
    ("number_of_persons_killed", "persons_killed"),
    ("number_of_pedestrians_injured", "pedestrians_injured"),
    ("number_of_pedestrians_killed", "pedestrians_killed"),
    ("number_of_cyclist_injured", "cyclists_injured"),
    ("number_of_cyclist_killed", "cyclists_killed"),
    ("number_of_motorist_injured", "motorists_injured"),
    ("number_of_motorist_killed", "motorists_killed")]

  /** The eight injury and fatality counts of a collision. */
  datatype Counts = Counts(
    personsInjured: int, personsKilled: int,
    pedestriansInjured: int, pedestriansKilled: int,
    cyclistsInjured: int, cyclistsKilled: int,
    motoristsInjured: int, motoristsKilled: int)

  /** `total_involved`: the sum of the eight counts. */
  function TotalInvolved(c: Counts): int {
    c.personsInjured + c.personsKilled + c.pedestriansInjured + c.pedestriansKilled
    + c.cyclistsInjured + c.cyclistsKilled + c.motoristsInjured + c.motoristsKilled
  }

  predicate NonNegative(c: Counts) {
    c.personsInjured >= 0 && c.personsKilled >= 0 && c.pedestriansInjured >= 0
    && c.pedestriansKilled >= 0 && c.cyclistsInjured >= 0 && c.cyclistsKilled >= 0
    && c.motoristsInjured >= 0 && c.motoristsKilled >= 0
  }

  /** `severity_level`; `NoInjury` is the source's 'NONE'. */
  datatype Level = Fatal | Severe | Moderate | Minor | NoInjury

  /** `_determine_severity`: first match in the order FATAL (someone
      killed), SEVERE (three or more injured), MODERATE (someone injured),
      MINOR (anyone counted at all), NONE. */
  function DetermineSeverity(c: Counts): (l: Level)
    ensures l == Fatal <==> c.personsKilled > 0
    ensures l == Severe <==> c.personsKilled <= 0 && c.personsInjured >= 3
    ensures l == Moderate <==> c.personsKilled <= 0 && 0 < c.personsInjured < 3
    ensures l == Minor <==> c.personsKilled <= 0 && c.personsInjured <= 0 && TotalInvolved(c) > 0
    ensures l == NoInjury <==> c.personsKilled <= 0 && c.personsInjured <= 0 && TotalInvolved(c) <= 0
  {
    if c.personsKilled > 0 then Fatal
    else if c.personsInjured >= 3 then Severe
    else if c.personsInjured > 0 then Moderate
    else if TotalInvolved(c) > 0 then Minor
    else NoInjury
  }

  /** One person killed and five injured is FATAL, not SEVERE: the fatality
      rule is tried first. */
  lemma FatalOutranksInjuries()
    ensures DetermineSeverity(Counts(5, 1, 0, 0, 0, 0, 0, 0)) == Fatal
  {
  }

  /** With counts that are not negative, NONE means nobody was counted, and
      MINOR means only pedestrians, cyclists or motorists were. */
  lemma NoInjuryMeansNobodyCounted(c: Counts)
    requires NonNegative(c)
    ensures DetermineSeverity(c) == NoInjury <==> TotalInvolved(c) == 0
    ensures DetermineSeverity(c) == Minor ==>
              c.personsInjured == 0 && c.personsKilled == 0 && TotalInvolved(c) > 0
  {
  }

  /** A time whose hour part (the text before the first ':') is a single
      character gets a leading '0'; every other time is left alone. */
  function PadHour(t: string): (r: string)
    ensures r == t || r == "0" + t
    ensures r != t <==> ':' in t && |Before(t, ':')| == 1
    ensures ':' in t ==> ':' in r && |Before(r, ':')| != 1
  {
    if ':' in t && |Before(t, ':')| == 1 then "0" + t else t
  }

  /** "9:15" becomes "09:15". */
  lemma PadsOneDigitHour()
    ensures PadHour("9:15") == "09:15"
  {
    assert Before("9:15", ':') == "9";
  }

  /** "10:30" and a time without ':' stay as they are. */
  lemma KeepsTwoDigitHour()
    ensures PadHour("10:30") == "10:30"
  {
    assert Before("10:30", ':') == "10";
  }

  lemma KeepsTimeWithoutColon()
    ensures PadHour("915") == "915"
  {
  }

  /** The default time is already clean, so a row without a time column
      gets "00:00" whether or not it is stripped and padded. */
  lemma MidnightIsClean()
    ensures PadHour(Strip("00:00")) == "00:00"
  {
    StripFixed("00:00");
    assert Before("00:00", ':') == "00";
  }

  /** Padding twice is padding once. */
  lemma PadHourIdempotent(t: string)
    ensures PadHour(PadHour(t)) == PadHour(t)
  {
  }

  /** Where each referenced column of the raw frame is, after normalisation
      and `column_mapping`; None where the column is absent. */
  datatype CollisionColumns = CollisionColumns(
    crashDate: Option<string>, crashTime: Option<string>, borough: Option<string>,
    personsInjured: Option<string>, personsKilled: Option<string>,
    pedestriansInjured: Option<string>, pedestriansKilled: Option<string>,
    cyclistsInjured: Option<string>, cyclistsKilled: Option<string>,
    motoristsInjured: Option<string>, motoristsKilled: Option<string>,
    collisionId: string)

  /** Column lookups in the order the transformer touches them. Only
      `collision_id` is required: `dropna(subset=['collision_id', ...])`
      raises KeyError without it; every other column has a default. */
  function ResolveColumns(f: Frame): (r: Result<CollisionColumns>)
    ensures r.Ok? ==> r.value.collisionId in f.columns
                      && CanonicalName(r.value.collisionId, ColumnMapping) == "collision_id"
    ensures Matching(f.columns, "collision_id", ColumnMapping) == [] ==> r.Fail?
  {
    var date :- Resolve(f, "crash_date", ColumnMapping);
    var time :- Resolve(f, "crash_time", ColumnMapping);
    var borough :- Resolve(f, "borough", ColumnMapping);
    var pi :- Resolve(f, "persons_injured", ColumnMapping);
    var pk :- Resolve(f, "persons_killed", ColumnMapping);
    var di :- Resolve(f, "pedestrians_injured", ColumnMapping);
    var dk :- Resolve(f, "pedestrians_killed", ColumnMapping);
    var ci :- Resolve(f, "cyclists_injured", ColumnMapping);
    var ck :- Resolve(f, "cyclists_killed", ColumnMapping);
    var mi :- Resolve(f, "motorists_injured", ColumnMapping);
    var mk :- Resolve(f, "motorists_killed", ColumnMapping);
    var id :- Require(f, "collision_id", ColumnMapping);
    Ok(CollisionColumns(date, time, borough, pi, pk, di, dk, ci, ck, mi, mk, id))
  }

  /** `str(row.get(column, default))`. */
  function TextOr(row: Row, column: Option<string>, default: string, p: Platform): string {
    if column.None? then default else StrOf(Get(row, column.value), p)
  }

  /** The crash date text: everything before the first 'T' of `crash_date`
      ("" when the column is absent). */
  function DatePart(row: Row, cols: CollisionColumns, p: Platform): (d: string)
    ensures 'T' !in d
    ensures d <= TextOr(row, cols.crashDate, "", p)
    ensures var text := TextOr(row, cols.crashDate, "", p);
            if 'T' in text then |d| < |text| && text[|d|] == 'T' else d == text
  {
    Before(TextOr(row, cols.crashDate, "", p), 'T')
  }

  /** The crash time text: `crash_time` ("00:00" when the column is absent),
      stripped, with a one-character hour zero-padded. */
  function TimePart(row: Row, cols: CollisionColumns, p: Platform): (t: string)
    ensures cols.crashTime.None? ==> t == "00:00"
    ensures cols.crashTime.Some? ==>
              var s := Strip(TextOr(row, cols.crashTime, "00:00", p));
              (t == s || t == "0" + s) && (t != s <==> ':' in s && |Before(s, ':')| == 1)
    ensures ':' in t ==> |Before(t, ':')| != 1
  {
    if cols.crashTime.None? then "00:00" else PadHour(Strip(TextOr(row, cols.crashTime, "00:00", p)))
  }

  /** `_parse_crash_datetime` for one row: the date and time joined by a
      space and parsed; None (NaT) when the text does not parse. */
  function CrashDatetime(row: Row, cols: CollisionColumns, p: Platform): Option<int> {
    p.toInstant(DatePart(row, cols, p) + " " + TimePart(row, cols, p))
  }

  /** The timestamps of a prefix of the rows, in row order. */
  function CrashDatetimes(rows: seq<Row>, cols: CollisionColumns, p: Platform): (r: seq<Option<int>>)
    ensures |r| == |rows|
    ensures forall i {:trigger r[i]} :: 0 <= i < |rows| ==> r[i] == CrashDatetime(rows[i], cols, p)
  {
    if rows == [] then []
    else
      var front := rows[..|rows| - 1];
      assert forall i :: 0 <= i < |front| ==> front[i] == rows[i];
      CrashDatetimes(front, cols, p) + [CrashDatetime(rows[|rows| - 1], cols, p)]
  }

  /** `_parse_crash_datetime`: one parsed timestamp per row, appended in
      row order. */
  method ParseCrashDatetimes(rows: seq<Row>, cols: CollisionColumns, p: Platform)
    returns (datetimes: seq<Option<int>>)
    ensures datetimes == CrashDatetimes(rows, cols, p)
  {
    datetimes := [];
    for i := 0 to |rows|
      invariant datetimes == CrashDatetimes(rows[..i], cols, p)
    {
      assert rows[..i + 1][..i] == rows[..i];
      datetimes := datetimes + [CrashDatetime(rows[i], cols, p)];
    }
    assert rows[..|rows|] == rows;
  }

  /** `df['borough'].fillna('UNKNOWN').str.upper().str.strip()`: a null cell
      becomes UNKNOWN, text is upper-cased and stripped, and any other value
      becomes NaN (None), which no borough list contains. */
  function CleanBorough(c: Cell): (r: Option<string>)
    ensures c.Null? ==> r == Some("UNKNOWN")
    ensures c.Text? ==> r == Some(CleanUpper(c.s))
    ensures r.None? <==> !c.Null? && !c.Text?
  {
    match c
    case Null => Some("UNKNOWN")
    case Text(s) => Some(CleanUpper(s))
    case _ => None
  }

  /** `df[col] = 0` when absent, then `pd.to_numeric(errors='coerce')
      .fillna(0).astype(int)`. */
  function Count(row: Row, column: Option<string>, p: Platform): (n: int)
    ensures column.None? ==> n == 0
    ensures column.Some? ==> n == Trunc(ToNumeric(Get(row, column.value), p))
    ensures column.Some? && Get(row, column.value).Num? ==> n == Trunc(Get(row, column.value).x)
    ensures column.Some? && Get(row, column.value).Null? ==> n == 0
  {
    if column.None? then 0 else Trunc(ToNumeric(Get(row, column.value), p))
  }

  /** One output row of `CollisionsTransformer.transform`. `borough` is None
      when the frame has no borough column, and also when its cell is not
      text; `collisionId` is the raw id cell. */
  datatype CollisionRecord = CollisionRecord(
    collisionId: Cell,
    crashDatetime: Option<int>,
    borough: Option<string>,
    counts: Counts,
    hasInjuries: bool,
    hasFatalities: bool,
    totalInvolved: int,
    severity: Level)

  function CollisionKey(r: CollisionRecord): Cell {
    r.collisionId
  }

  /** Collisions sort by `crash_datetime`; NaT sorts last. */
  function CollisionRank(r: CollisionRecord): Rank {
    if r.crashDatetime.Some? then At(r.crashDatetime.value) else Missing
  }

  /** A raw row with its parsed timestamp, as the rest of `transform`
      leaves it. */
  function BuildRecord(row: Row, cols: CollisionColumns, dt: Option<int>, p: Platform): (rec: CollisionRecord)
    ensures rec.collisionId == Get(row, cols.collisionId)
    ensures rec.crashDatetime == dt
    ensures cols.borough.Some? ==> rec.borough == CleanBorough(Get(row, cols.borough.value))
    ensures rec.counts == Counts(Count(row, cols.personsInjured, p), Count(row, cols.personsKilled, p),
                                 Count(row, cols.pedestriansInjured, p), Count(row, cols.pedestriansKilled, p),
                                 Count(row, cols.cyclistsInjured, p), Count(row, cols.cyclistsKilled, p),
                                 Count(row, cols.motoristsInjured, p), Count(row, cols.motoristsKilled, p))
    ensures cols.borough.None? ==> rec.borough.None?
    ensures rec.hasInjuries <==> rec.counts.personsInjured > 0
    ensures rec.hasFatalities <==> rec.counts.personsKilled > 0
    ensures rec.totalInvolved == TotalInvolved(rec.counts)
    ensures rec.severity == DetermineSeverity(rec.counts)
  {
    var counts := Counts(
      Count(row, cols.personsInjured, p), Count(row, cols.personsKilled, p),
      Count(row, cols.pedestriansInjured, p), Count(row, cols.pedestriansKilled, p),
      Count(row, cols.cyclistsInjured, p), Count(row, cols.cyclistsKilled, p),
      Count(row, cols.motoristsInjured, p), Count(row, cols.motoristsKilled, p));
    CollisionRecord(
      Get(row, cols.collisionId),
      dt,
      if cols.borough.Some? then CleanBorough(Get(row, cols.borough.value)) else None,
      counts,
      counts.personsInjured > 0,
      counts.personsKilled > 0,
      TotalInvolved(counts),
      DetermineSeverity(counts))
  }

  function CleanRows(rows: seq<Row>, cols: CollisionColumns, p: Platform): (r: seq<CollisionRecord>)
    ensures |r| == |rows|
    ensures forall i :: 0 <= i < |rows| ==>
              r[i] == BuildRecord(rows[i], cols, CrashDatetime(rows[i], cols, p), p)
  {
    seq(|rows|, i requires 0 <= i < |rows| => BuildRecord(rows[i], cols, CrashDatetime(rows[i], cols, p), p))
  }

  /** The rows that survive the borough filter (only when the frame has a
      borough column) and `dropna(subset=['collision_id', 'crash_datetime'])`. */
  predicate Survives(r: CollisionRecord, cols: CollisionColumns, boroughs: set<string>) {
    (cols.borough.Some? ==> r.borough.Some? && r.borough.value in boroughs + {"UNKNOWN"})
    && !r.collisionId.Null?
    && r.crashDatetime.Some?
  }

  /** What `transform` returns for the raw frame `f`; `boroughs` is the key
      set of the configured `BOROUGHS`. */
  function CleanCollisions(f: Frame, p: Platform, boroughs: set<string>): Result<seq<CollisionRecord>> {
    var cols :- ResolveColumns(f);
    Ok(DedupFirst(Surviving(f, cols, p, boroughs), CollisionKey))
  }

  /** `CollisionsTransformer.transform`. */
  method Transform(f: Frame, p: Platform, boroughs: set<string>) returns (r: Result<seq<CollisionRecord>>)
    ensures r == CleanCollisions(f, p, boroughs)
  {
    var resolved := ResolveColumns(f);
    if resolved.Fail? {
      return Fail(resolved.error);
    }
    var kept := CleanResolved(f, resolved.value, p, boroughs);
    return Ok(kept);
  }

  /** The body of `transform` once the columns are known: the timestamps,
      the cleaned records, the filters and the de-duplication. */
  method CleanResolved(f: Frame, cols: CollisionColumns, p: Platform, boroughs: set<string>)
    returns (kept: seq<CollisionRecord>)
    ensures kept == DedupFirst(Surviving(f, cols, p, boroughs), CollisionKey)
  {
    var datetimes := ParseCrashDatetimes(f.rows, cols, p);
    var records := BuildRecords(f.rows, cols, datetimes, p);
    RecordsAreClean(f.rows, cols, p);
    var valid := Filter(records, r => Survives(r, cols, boroughs));
    kept := KeepFirst(valid, CollisionKey);
  }

  /** One record per row, built with that row's timestamp. */
  function BuildRecords(rows: seq<Row>, cols: CollisionColumns, datetimes: seq<Option<int>>, p: Platform)
    : (r: seq<CollisionRecord>)
    requires |datetimes| == |rows|
    ensures |r| == |rows|
    ensures forall i :: 0 <= i < |rows| ==> r[i] == BuildRecord(rows[i], cols, datetimes[i], p)
  {
    seq(|rows|, i requires 0 <= i < |rows| => BuildRecord(rows[i], cols, datetimes[i], p))
  }

  /** Building from the parsed timestamps is cleaning row by row. */
  lemma RecordsAreClean(rows: seq<Row>, cols: CollisionColumns, p: Platform)
    ensures BuildRecords(rows, cols, CrashDatetimes(rows, cols, p), p) == CleanRows(rows, cols, p)
  {
    var datetimes := CrashDatetimes(rows, cols, p);
    var records := BuildRecords(rows, cols, datetimes, p);
    var clean := CleanRows(rows, cols, p);
    forall i | 0 <= i < |rows| ensures records[i] == clean[i] {
      assert datetimes[i] == CrashDatetime(rows[i], cols, p);
    }
  }

  /** The rows of a raw frame that survive filtering, before de-duplication. */
  function Surviving(f: Frame, cols: CollisionColumns, p: Platform, boroughs: set<string>): seq<CollisionRecord> {
    Filter(CleanRows(f.rows, cols, p), r => Survives(r, cols, boroughs))
  }

  lemma CleanCollisionsIs(f: Frame, p: Platform, boroughs: set<string>)
    requires ResolveColumns(f).Ok?
    ensures CleanCollisions(f, p, boroughs)
            == Ok(DedupFirst(Surviving(f, ResolveColumns(f).value, p, boroughs), CollisionKey))
  {
  }

  /** Every transformed collision has an id, a parsed timestamp and (when
      the frame has a borough column) a borough from the configured set or
      UNKNOWN. */
  lemma {:induction false} CleanCollisionsFilters(f: Frame, p: Platform, boroughs: set<string>)
    requires CleanCollisions(f, p, boroughs).Ok?
    ensures var out := CleanCollisions(f, p, boroughs).value;
            forall i :: 0 <= i < |out| ==> Survives(out[i], ResolveColumns(f).value, boroughs)
  {
    var cols := ResolveColumns(f).value;
    var valid := Surviving(f, cols, p, boroughs);
    CleanCollisionsIs(f, p, boroughs);
    DedupFirstKeeps(valid, CollisionKey, r => Survives(r, cols, boroughs));
  }

  /** No id occurs twice in the transformed batch; each id's row is the first
      surviving row with that id; every surviving id is present; the input
      order is kept and there are never more rows than in the input. */
  lemma {:induction false} CleanCollisionsDeduplicates(f: Frame, p: Platform, boroughs: set<string>)
    requires CleanCollisions(f, p, boroughs).Ok?
    ensures var out := CleanCollisions(f, p, boroughs).value;
            var valid := Surviving(f, ResolveColumns(f).value, p, boroughs);
            && UniqueKeys(out, CollisionKey)
            && Keys(out, CollisionKey) == Keys(valid, CollisionKey)
            && (forall i :: 0 <= i < |out| ==> out[i] == FirstFor(valid, CollisionKey, out[i].collisionId))
            && Subsequence(out, valid)
            && |out| <= |f.rows|
  {
    var cols := ResolveColumns(f).value;
    var valid := Surviving(f, cols, p, boroughs);
    CleanCollisionsIs(f, p, boroughs);
    var out := DedupFirst(valid, CollisionKey);
    UniqueKeysCount(out, CollisionKey);
    KeysSubsetCount(valid, CollisionKey);
  }

  /** A row of a frame with a borough column survives exactly when its
      borough cleans to a configured name or UNKNOWN (a null borough always
      does), its id is not null and its timestamp parses. */
  lemma RowSurvival(row: Row, cols: CollisionColumns, p: Platform, boroughs: set<string>)
    requires cols.borough.Some?
    ensures var rec := BuildRecord(row, cols, CrashDatetime(row, cols, p), p);
            var c := Get(row, cols.borough.value);
            Survives(rec, cols, boroughs) <==>
              (c.Null? || (c.Text? && CleanUpper(c.s) in boroughs + {"UNKNOWN"}))
              && !Get(row, cols.collisionId).Null?
              && CrashDatetime(row, cols, p).Some?
  {
  }

  /** A raw frame without a `collision_id` column raises an error. */
  lemma MissingIdFails(f: Frame, p: Platform, boroughs: set<string>)
    requires forall c :: c in f.columns ==> NormalizeColumnName(c) != "collision_id"
    ensures CleanCollisions(f, p, boroughs).Fail?
  {
    assert forall j :: 0 <= j < |ColumnMapping| ==> ColumnMapping[j].1 != "collision_id";
    forall c | c in f.columns ensures CanonicalName(c, ColumnMapping) != "collision_id" {
      RenamedAvoids(NormalizeColumnName(c), ColumnMapping, "collision_id");
    }
    assert Matching(f.columns, "collision_id", ColumnMapping) == [];
  }
}
