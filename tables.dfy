/** Values, rows and frames: the pandas vocabulary the pipeline is written in.

    A frame is a list of column names and a list of rows; a row maps column
    names to cells. A column is present when its name is in `columns`; a
    present column whose cell a row lacks reads as a null cell. */
module Tables {
  import opened Strings

  datatype Option<T> = None | Some(value: T) {
    function GetOr(default: T): T {
      if Some? then value else default
    }
  }

  /** The exceptions the transformers raise on an unusable schema. */
  datatype Error =
    | MissingColumn(name: string)     // `df[name]` on an absent column: KeyError
    | DuplicateColumn(name: string)   // a referenced label that appears twice

  datatype Result<T> = Ok(value: T) | Fail(error: Error) {
    predicate IsFailure() { Fail? }
    function PropagateFailure<U>(): Result<U> requires Fail? { Fail(error) }
    function Extract(): T requires Ok? { value }
  }

  /** A calendar date; `pd.date_range` yields these. */
  datatype Date = Date(year: nat, month: nat, day: nat)

  /** The five borough names the sample generators cycle through and the
      legacy borough map keeps as they are. */
  const FiveBoroughs: seq<string> := ["MANHATTAN", "BROOKLYN", "QUEENS", "BRONX", "STATEN ISLAND"]

  /** A parsed, zone-converted weather timestamp: its position on the time
      line and the calendar fields the features are computed from
      (`weekday` counts Monday as 0, as `dayofweek` does). */
  datatype LocalTime = LocalTime(instant: int, month: int, hour: int, weekday: int)

  /** One cell of a frame. `Null` is pandas' NaN/None/NaT. */
  datatype Cell = Null | Text(s: string) | Num(x: real) | Day(d: Date)

  /** What the pipeline takes from pandas and Python without this model
      restating it: rendering values as text, number and timestamp parsing,
      and calendar fields of parsed timestamps. */
  datatype Platform = Platform(
    show: Cell -> string,                    // str() of a number or timestamp cell
    toNumber: Cell -> Option<real>,          // pd.to_numeric of a text or timestamp cell; None is NaN
    toLocalTime: Cell -> Option<LocalTime>,  // pd.to_datetime(utc=True, errors='coerce') then tz_convert
    toInstant: string -> Option<int>,        // pd.to_datetime(text, errors='coerce'); None is NaT
    toTimestamp: Cell -> Option<Cell>,       // pd.to_datetime without coercion; None means it raises
    dateOf: Cell -> Cell,                    // `.dt.date` of a timestamp cell
    instant: Cell -> Option<int>,            // nanoseconds since the epoch of a timestamp cell; None for NaT
    calendar: int -> Date)                   // the calendar date of a day count

  type Row = map<string, Cell>

  datatype Frame = Frame(columns: seq<string>, rows: seq<Row>)

  /** `pd.DataFrame()`. */
  const EmptyFrame := Frame([], [])

  /** `df.empty`: no rows or no columns. */
  predicate IsEmpty(f: Frame) {
    |f.columns| == 0 || |f.rows| == 0
  }

  function Get(r: Row, column: string): Cell {
    if column in r then r[column] else Null
  }

  /** Python's `str(value)`. */
  function StrOf(c: Cell, p: Platform): string {
    match c
    case Text(s) => s
    case Null => "nan"
    case _ => p.show(c)
  }

  /** `pd.to_numeric(value, errors='coerce')` followed by `.fillna(0)`. */
  function ToNumeric(c: Cell, p: Platform): (r: real)
    ensures c.Null? ==> r == 0.0
    ensures c.Num? ==> r == c.x
  {
    match c
    case Null => 0.0
    case Num(x) => x
    case _ => p.toNumber(c).GetOr(0.0)
  }

  /** `.astype(int)`: truncation toward zero. */
  function Trunc(x: real): (r: int)
    ensures 0.0 <= x ==> 0 <= r && r as real <= x < r as real + 1.0
    ensures x < 0.0 ==> r <= 0 && r as real - 1.0 < x <= r as real
  {
    if 0.0 <= x then x.Floor else -((-x).Floor)
  }

  /** numpy's `round()`: to the nearest integer, ties to even. */
  function RoundHalfEven(x: real): (r: int)
    ensures x - 0.5 <= r as real <= x + 0.5
    ensures r as real == x - 0.5 || r as real == x + 0.5 ==> r % 2 == 0
  {
    var f := x.Floor;
    var d := x - f as real;
    if d < 0.5 then f
    else if d > 0.5 then f + 1
    else if f % 2 == 0 then f else f + 1
  }

  /** `df[column] = g(row)` for every row: the column is overwritten when
      present and appended otherwise. */
  function WithColumn(f: Frame, column: string, g: Row -> Cell): (r: Frame)
    ensures r.columns == if column in f.columns then f.columns else f.columns + [column]
    ensures |r.rows| == |f.rows|
    ensures forall i :: 0 <= i < |f.rows| ==> Get(r.rows[i], column) == g(f.rows[i])
    ensures forall i, c :: 0 <= i < |f.rows| && c != column ==> Get(r.rows[i], c) == Get(f.rows[i], c)
  {
    Frame(if column in f.columns then f.columns else f.columns + [column],
          seq(|f.rows|, i requires 0 <= i < |f.rows| => f.rows[i][column := g(f.rows[i])]))
  }

  /** The cell of a column, or the value a transformer assigns when the
      column is absent. */
  function CellOr(row: Row, f: Frame, column: string, default: Cell): Cell {
    if column in f.columns then Get(row, column) else default
  }

  /** `if column not in df.columns: df[column] = value`. */
  function WithDefault(f: Frame, column: string, value: Cell): (r: Frame)
    ensures r.columns == if column in f.columns then f.columns else f.columns + [column]
    ensures |r.rows| == |f.rows|
    ensures forall i :: 0 <= i < |f.rows| ==> Get(r.rows[i], column) == CellOr(f.rows[i], f, column, value)
    ensures forall i, c :: 0 <= i < |f.rows| && c != column ==> Get(r.rows[i], c) == Get(f.rows[i], c)
  {
    if column in f.columns then f else WithColumn(f, column, row => value)
  }

  /** The names of `wanted` that occur in `present`, in the order of `wanted`. */
  function Available(wanted: seq<string>, present: seq<string>): (r: seq<string>)
    ensures forall c :: c in r <==> c in wanted && c in present
    ensures |r| <= |wanted|
  {
    if wanted == [] then []
    else (if wanted[0] in present then [wanted[0]] else []) + Available(wanted[1..], present)
  }

  /** The selection depends only on which names are present. */
  lemma {:induction false} AvailableSameMembers(wanted: seq<string>, a: seq<string>, b: seq<string>)
    requires forall c :: c in a <==> c in b
    ensures Available(wanted, a) == Available(wanted, b)
  {
    if wanted != [] {
      AvailableSameMembers(wanted[1..], a, b);
    }
  }

  /** When every wanted name is present, all of them are selected, in order. */
  lemma {:induction false} AvailableAll(wanted: seq<string>, present: seq<string>)
    requires forall c :: c in wanted ==> c in present
    ensures Available(wanted, present) == wanted
  {
    if wanted != [] {
      AvailableAll(wanted[1..], present);
      assert [wanted[0]] + wanted[1..] == wanted;
    }
  }

  /** `df[[c for c in wanted if c in df.columns]]`. */
  function Project(f: Frame, wanted: seq<string>): (r: Frame)
    ensures r.columns == Available(wanted, f.columns)
    ensures |r.rows| == |f.rows|
    ensures forall i, c :: 0 <= i < |f.rows| && c in r.columns ==> Get(r.rows[i], c) == Get(f.rows[i], c)
    ensures forall i :: 0 <= i < |f.rows| ==> r.rows[i].Keys <= set c | c in r.columns
  {
    var cols := Available(wanted, f.columns);
    Frame(cols, seq(|f.rows|, i requires 0 <= i < |f.rows| =>
                      map c | c in f.rows[i] && c in cols :: f.rows[i][c]))
  }

  // ---------------------------------------------------------------------
  // `for col in numeric_cols: if col in df.columns:
  //      df[col] = pd.to_numeric(df[col], errors='coerce').fillna(0)`
  // ---------------------------------------------------------------------

  function CoerceOne(f: Frame, column: string, p: Platform): Frame {
    if column in f.columns then WithColumn(f, column, r => Num(ToNumeric(Get(r, column), p))) else f
  }

  /** The frame after coercing each listed column that is present. */
  function Coerced(f: Frame, columns: seq<string>, p: Platform): Frame
    decreases |columns|
  {
    if columns == [] then f else Coerced(CoerceOne(f, columns[0], p), columns[1..], p)
  }

  method CoerceColumns(f: Frame, columns: seq<string>, p: Platform) returns (df: Frame)
    ensures df == Coerced(f, columns, p)
  {
    df := f;
    for i := 0 to |columns|
      invariant Coerced(df, columns[i..], p) == Coerced(f, columns, p)
    {
      assert columns[i..][1..] == columns[i + 1..];
      df := CoerceOne(df, columns[i], p);
    }
  }

  /** Coercion keeps the columns and the number of rows, leaves every cell of
      an unlisted column as it was, and turns every cell of a listed, present
      column into the number it parses as (0 when it does not parse). */
  lemma {:induction false} CoercedCells(f: Frame, columns: seq<string>, p: Platform)
    ensures Coerced(f, columns, p).columns == f.columns
    ensures |Coerced(f, columns, p).rows| == |f.rows|
    ensures forall i, c :: 0 <= i < |f.rows| && c !in columns ==>
              Get(Coerced(f, columns, p).rows[i], c) == Get(f.rows[i], c)
    ensures forall i, c :: 0 <= i < |f.rows| && c in columns && c in f.columns ==>
              Get(Coerced(f, columns, p).rows[i], c) == Num(ToNumeric(Get(f.rows[i], c), p))
    decreases |columns|
  {
    if columns != [] {
      var g := CoerceOne(f, columns[0], p);
      CoercedCells(g, columns[1..], p);
      forall i, c | 0 <= i < |f.rows| && c != columns[0]
        ensures Get(g.rows[i], c) == Get(f.rows[i], c)
      {
      }
      forall i, c | 0 <= i < |f.rows| && c !in columns
        ensures Get(Coerced(f, columns, p).rows[i], c) == Get(f.rows[i], c)
      {
        assert c !in columns[1..];
      }
      forall i, c | 0 <= i < |f.rows| && c in columns && c in f.columns
        ensures Get(Coerced(f, columns, p).rows[i], c) == Num(ToNumeric(Get(f.rows[i], c), p))
      {
        if c == columns[0] {
          assert Get(g.rows[i], c) == Num(ToNumeric(Get(f.rows[i], c), p));
        }
      }
    }
  }

  // ---------------------------------------------------------------------
  // `for new_col, old_col in column_mapping.items():
  //      if new_col in df.columns and old_col not in df.columns:
  //          df[old_col] = df[new_col]`
  // ---------------------------------------------------------------------

  function AliasOne(f: Frame, pair: (string, string)): Frame {
    if pair.0 in f.columns && pair.1 !in f.columns then WithColumn(f, pair.1, r => Get(r, pair.0)) else f
  }

  /** The frame after adding each old column name as a copy of its new one. */
  function Aliased(f: Frame, pairs: seq<(string, string)>): Frame
    decreases |pairs|
  {
    if pairs == [] then f else Aliased(AliasOne(f, pairs[0]), pairs[1..])
  }

  method AddCompatColumns(f: Frame, pairs: seq<(string, string)>) returns (df: Frame)
    ensures df == Aliased(f, pairs)
  {
    df := f;
    for i := 0 to |pairs|
      invariant Aliased(df, pairs[i..]) == Aliased(f, pairs)
    {
      assert pairs[i..][1..] == pairs[i + 1..];
      df := AliasOne(df, pairs[i]);
    }
  }

  /** Aliasing only adds columns: the old column list is a prefix of the new
      one, the number of rows is kept and every cell of a column that was
      present is unchanged. */
  lemma {:induction false} AliasedOnlyAdds(f: Frame, pairs: seq<(string, string)>)
    ensures f.columns <= Aliased(f, pairs).columns
    ensures |Aliased(f, pairs).rows| == |f.rows|
    ensures forall i, c :: 0 <= i < |f.rows| && c in f.columns ==>
              Get(Aliased(f, pairs).rows[i], c) == Get(f.rows[i], c)
    decreases |pairs|
  {
    if pairs != [] {
      var g := AliasOne(f, pairs[0]);
      AliasOneOnlyAdds(f, pairs[0]);
      AliasedOnlyAdds(g, pairs[1..]);
      assert Aliased(f, pairs) == Aliased(g, pairs[1..]);
      forall i, c | 0 <= i < |f.rows| && c in f.columns
        ensures Get(Aliased(f, pairs).rows[i], c) == Get(f.rows[i], c)
      {
        assert c in g.columns;
      }
    }
  }

  lemma AliasOneOnlyAdds(f: Frame, pair: (string, string))
    ensures f.columns <= AliasOne(f, pair).columns
    ensures |AliasOne(f, pair).rows| == |f.rows|
    ensures forall i, c :: 0 <= i < |f.rows| && c in f.columns ==>
              Get(AliasOne(f, pair).rows[i], c) == Get(f.rows[i], c)
  {
  }

  /** When a new name is present and its old name is absent (and no other
      pair targets that old name), the old name becomes a column holding a
      copy of the new column, row by row. */
  lemma {:induction false} AliasedCopies(f: Frame, pairs: seq<(string, string)>, k: nat)
    requires k < |pairs|
    requires pairs[k].0 in f.columns && pairs[k].1 !in f.columns
    requires forall j :: 0 <= j < |pairs| && j != k ==> pairs[j].1 != pairs[k].1
    ensures pairs[k].1 in Aliased(f, pairs).columns
    ensures |Aliased(f, pairs).rows| == |f.rows|
    ensures forall i :: 0 <= i < |f.rows| ==>
              Get(Aliased(f, pairs).rows[i], pairs[k].1) == Get(f.rows[i], pairs[k].0)
    decreases |pairs|
  {
    var g := AliasOne(f, pairs[0]);
    AliasedOnlyAdds(f, pairs);
    if k == 0 {
      AliasedOnlyAdds(g, pairs[1..]);
    } else {
      assert pairs[k].1 != pairs[0].1;
      assert pairs[1..][k - 1] == pairs[k];
      forall i | 0 <= i < |f.rows|
        ensures Get(g.rows[i], pairs[k].0) == Get(f.rows[i], pairs[k].0)
      {
      }
      AliasedCopies(g, pairs[1..], k - 1);
    }
  }

  // ---------------------------------------------------------------------
  // `df[to] = pd.to_datetime(df[from])` and the like: raises if any cell of
  // `from` fails to convert.
  // ---------------------------------------------------------------------

  predicate AllConvert(f: Frame, from: string, conv: Cell -> Option<Cell>) {
    forall i :: 0 <= i < |f.rows| ==> conv(Get(f.rows[i], from)).Some?
  }

  /** The frame with column `to` computed from column `from` cell by cell,
      or None (the call raised) when some cell does not convert. */
  function DeriveColumn(f: Frame, from: string, to: string, conv: Cell -> Option<Cell>): (r: Option<Frame>)
    ensures r.Some? <==> AllConvert(f, from, conv)
    ensures r.Some? ==> r.value.columns == (if to in f.columns then f.columns else f.columns + [to])
    ensures r.Some? ==> |r.value.rows| == |f.rows|
    ensures r.Some? ==> forall i, c :: 0 <= i < |f.rows| && c != to ==>
                          Get(r.value.rows[i], c) == Get(f.rows[i], c)
    ensures r.Some? ==> forall i :: 0 <= i < |f.rows| ==>
                          Some(Get(r.value.rows[i], to)) == conv(Get(f.rows[i], from))
  {
    if AllConvert(f, from, conv)
    then Some(WithColumn(f, to, row => conv(Get(row, from)).GetOr(Null)))
    else None
  }

  /** `pd.to_datetime(value).dt.date`; None when the conversion raises. */
  function ToDate(c: Cell, p: Platform): (r: Option<Cell>)
    ensures r.Some? <==> p.toTimestamp(c).Some?
  {
    match p.toTimestamp(c)
    case Some(t) => Some(p.dateOf(t))
    case None => None
  }

  // ---------------------------------------------------------------------
  // Column lookup after `df.columns.str.lower().str.strip().str.replace(" ", "_")`
  // and `df.rename(columns=...)`.
  // ---------------------------------------------------------------------

  /** The name a frame column is known by after the renaming pairs. */
  function Renamed(name: string, renames: seq<(string, string)>): string {
    if renames == [] then name
    else if renames[0].0 == name then renames[0].1
    else Renamed(name, renames[1..])
  }

  /** A name that is not `want` is never renamed to `want` by pairs none of
      whose targets is `want`. */
  lemma {:induction false} RenamedAvoids(name: string, renames: seq<(string, string)>, want: string)
    requires name != want
    requires forall j :: 0 <= j < |renames| ==> renames[j].1 != want
    ensures Renamed(name, renames) != want
  {
    if renames != [] && renames[0].0 != name {
      assert forall j :: 0 <= j < |renames[1..]| ==> renames[1..][j] == renames[j + 1];
      RenamedAvoids(name, renames[1..], want);
    }
  }

  /** The name a raw column is known by inside a transformer. */
  function CanonicalName(column: string, renames: seq<(string, string)>): string {
    Renamed(NormalizeColumnName(column), renames)
  }

  /** The raw columns that a transformer sees under the name `want`. */
  function Matching(columns: seq<string>, want: string, renames: seq<(string, string)>): (r: seq<string>)
    ensures forall c :: c in r <==> c in columns && CanonicalName(c, renames) == want
    ensures |r| <= |columns|
    ensures (forall c :: c in columns ==> CanonicalName(c, renames) != want) ==> r == []
  {
    if columns == [] then []
    else (if CanonicalName(columns[0], renames) == want then [columns[0]] else [])
         + Matching(columns[1..], want, renames)
  }

  /** The raw column a transformer reads as `want`: absent (None), exactly one,
      or an error when the label would occur twice. */
  function Resolve(f: Frame, want: string, renames: seq<(string, string)>): (r: Result<Option<string>>)
    ensures r.Ok? && r.value.None? <==> Matching(f.columns, want, renames) == []
    ensures r.Ok? && r.value.Some? <==> |Matching(f.columns, want, renames)| == 1
    ensures r.Ok? && r.value.Some? ==>
              r.value.value in f.columns && CanonicalName(r.value.value, renames) == want
    ensures r.Fail? ==> r.error == DuplicateColumn(want)
  {
    var m := Matching(f.columns, want, renames);
    if |m| == 0 then Ok(None)
    else if |m| == 1 then Ok(Some(m[0]))
    else Fail(DuplicateColumn(want))
  }

  /** A referenced column the code cannot do without: `df[want]` raises
      KeyError when it is absent. */
  function Require(f: Frame, want: string, renames: seq<(string, string)>): (r: Result<string>)
    ensures r.Ok? <==> |Matching(f.columns, want, renames)| == 1
    ensures r.Ok? ==> r.value in f.columns && CanonicalName(r.value, renames) == want
    ensures Matching(f.columns, want, renames) == [] ==> r == Fail(MissingColumn(want))
    ensures |Matching(f.columns, want, renames)| > 1 ==> r == Fail(DuplicateColumn(want))
  {
    var c :- Resolve(f, want, renames);
    if c.None? then Fail(MissingColumn(want)) else Ok(c.value)
  }

  /** The numeric value of an optional column in a row: None when the column
      is absent, parsed-or-0 otherwise. */
  function Reading(r: Row, column: Option<string>, p: Platform): (v: Option<real>)
    ensures v.Some? <==> column.Some?
    ensures column.Some? ==> v.value == ToNumeric(Get(r, column.value), p)
    ensures column.Some? && Get(r, column.value).Null? ==> v == Some(0.0)
  {
    if column.None? then None else Some(ToNumeric(Get(r, column.value), p))
  }
}
