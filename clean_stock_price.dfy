/** The silver cleaner: resolves the trading date from `time` or `date`, renames
    `close` to `close_price`, normalises dates to midnight, coerces the price and
    volume columns to numbers (volume clamped to zero and above), stamps the
    exchange, source and ingestion time, and drops rows lacking a symbol, a date or
    a close. */
module SilverCleaner {
  import opened Wrappers
  import opened Values
  import opened Tables
  import opened Subsequences

  datatype CleanError =
    | NoDateColumn
    | UnparseableDates
    | NoVolumeColumn
    | DuplicateClosePrice    // TypeError: `close` renamed onto an existing `close_price`
    | DropColumnsMissing(cols: set<string>)

  const DateCandidates: seq<string> := ["time", "date"]
  const PriceColumns: seq<string> := ["open", "high", "low", "close_price"]
  const KeyColumns: set<string> := {"symbol", "trading_date", "close_price"}

  // ---------------------------------------------------------------------------
  // Numeric coercion
  // ---------------------------------------------------------------------------

  /** `to_numeric(errors="coerce")` on one value: numbers stay, text is read as a
      number, anything else (and unreadable text) becomes null. */
  function NumericValue(v: Value): (r: Value)
    ensures r.Null? || r.IntV? || r.RealV?
    ensures NumericOf(r) == NumericOf(v)
  {
    match v
    case IntV(_) => v
    case RealV(_) => v
    case TextV(s) => (match ParseNumber(s) case Some(n) => n case None => Null)
    case _ => Null
  }

  function AsReal(v: Value): (r: Value)
    ensures NumericOf(r) == NumericOf(v)
    ensures v.IntV? || v.RealV? ==> r.RealV?
    ensures v.Null? ==> r.Null?
  {
    if v.IntV? then RealV(v.i as real) else v
  }

  predicate AllIntOrNull(vs: seq<Value>, allowNull: bool) {
    forall i :: 0 <= i < |vs| ==> vs[i].IntV? || (allowNull && vs[i].Null?)
  }

  /** The coerced column and its dtype: integer when every value is an integer (an
      integer column may keep its nulls), float otherwise. */
  function ToNumeric(cells: seq<Value>, dt: DType): (r: (seq<Value>, DType))
    ensures |r.0| == |cells| && r.1 in {IntType, FloatType}
    ensures forall i :: 0 <= i < |cells| ==> Fits(r.0[i], r.1) && NumericOf(r.0[i]) == NumericOf(cells[i])
    ensures forall i :: 0 <= i < |cells| ==> (r.0[i].Null? <==> NumericOf(cells[i]).None?)
  {
    var vs := seq(|cells|, i requires 0 <= i < |cells| => NumericValue(cells[i]));
    if AllIntOrNull(vs, dt == IntType) then (vs, IntType)
    else (seq(|vs|, i requires 0 <= i < |vs| => AsReal(vs[i])), FloatType)
  }

  /** The zero `fillna(0)` and the clamp write into a column of dtype `dt`. */
  function Zero(dt: DType): Value {
    if dt == IntType then IntV(0) else RealV(0.0)
  }

  /** A volume cell after the clamp, from the raw cell `raw`: a number no less than
      zero stays what it was, anything else is zero of the column's dtype. */
  predicate VolumeFrom(out: Value, raw: Value, dt: DType) {
    var v := NumericOf(raw);
    if v.Some? && v.value >= 0.0 then NumericOf(out) == v else out == Zero(dt)
  }

  /** `fillna(0)` and the `< 0` clamp on the coerced volume. */
  function ClampVolume(v: Value, dt: DType): (r: Value)
    ensures NumericOf(r).Some? && NumericOf(r).value >= 0.0
    ensures NumericOf(v).Some? && NumericOf(v).value >= 0.0 ==> r == v
    ensures !(NumericOf(v).Some? && NumericOf(v).value >= 0.0) ==> r == Zero(dt)
  {
    if NumericOf(v).Some? && NumericOf(v).value >= 0.0 then v else Zero(dt)
  }

  // ---------------------------------------------------------------------------
  // The steps
  // ---------------------------------------------------------------------------

  /** Step 1: `trading_date` copied from the first of `time`, `date`; both dropped. */
  function ResolveDate(t: Table): (r: Result<Table, CleanError>)
    ensures r.Err? <==> "time" !in t.dtypes && "date" !in t.dtypes
    ensures r.Ok? ==> "trading_date" in r.value.dtypes
    ensures r.Ok? ==> var src := if "time" in t.dtypes then "time" else "date";
      r.value.dtypes == (t.dtypes - {"time", "date"})["trading_date" := t.dtypes[src]]
      && |r.value.rows| == |t.rows|
      && forall i :: 0 <= i < |t.rows| ==> r.value.rows[i] == (t.rows[i] - {"time", "date"})["trading_date" := Cell(t.rows[i], src)]
  {
    match FirstPresent(t, DateCandidates)
    case None => Err(NoDateColumn)
    case Some(src) =>
      var withDate := SetColumn(t, "trading_date", t.dtypes[src], Column(t, src));
      Ok(DropColumns(withDate, {"time", "date"}))
  }

  /** `rename(columns={"close": "close_price"})`. A table that already has
      `close_price` would then hold two columns of that name; `Prepared` reports the
      error that causes in step 3 and never uses this result. */
  function RenameClose(t: Table): (r: Table)
    ensures "close" !in r.dtypes && |r.rows| == |t.rows|
    ensures "trading_date" in t.dtypes ==> "trading_date" in r.dtypes
    ensures "close" in t.dtypes ==> r.dtypes == (t.dtypes - {"close"})["close_price" := t.dtypes["close"]]
    ensures "close" !in t.dtypes ==> r == t
    ensures "close" in t.dtypes ==> forall i :: 0 <= i < |t.rows| ==>
              r.rows[i] == (t.rows[i] - {"close"})["close_price" := Cell(t.rows[i], "close")]
  {
    if "close" in t.dtypes then
      DropColumns(SetColumn(t, "close_price", t.dtypes["close"], Column(t, "close")), {"close"})
    else t
  }

  /** Step 2: `trading_date` at midnight. A datetime column is normalised; any other
      column is parsed first, and one value that does not parse is an error. */
  function NormalizeDates(t: Table): (r: Result<Table, CleanError>)
    requires "trading_date" in t.dtypes
    ensures r.Err? <==> !IsDatetime(t, "trading_date") &&
                        exists i :: 0 <= i < |t.rows| && ToDatetime(Cell(t.rows[i], "trading_date")).Null?
    ensures r.Ok? ==> r.value.dtypes == t.dtypes["trading_date" := DateTimeType] && |r.value.rows| == |t.rows|
    ensures r.Ok? ==> forall i :: 0 <= i < |t.rows| ==>
              r.value.rows[i] == t.rows[i]["trading_date" := Normalize(ToDatetime(Cell(t.rows[i], "trading_date")))]
  {
    var parsed := seq(|t.rows|, i requires 0 <= i < |t.rows| => ToDatetime(Cell(t.rows[i], "trading_date")));
    if !IsDatetime(t, "trading_date") && exists i :: 0 <= i < |t.rows| && parsed[i].Null? then Err(UnparseableDates)
    else Ok(SetColumn(t, "trading_date", DateTimeType, seq(|t.rows|, i requires 0 <= i < |t.rows| => Normalize(parsed[i]))))
  }

  /** A coerced cell: the number the raw cell denotes, null exactly when it denotes
      none. */
  predicate NumericCopy(out: Value, raw: Value) {
    NumericOf(out) == NumericOf(raw) && (out.Null? <==> NumericOf(raw).None?)
  }

  function CoerceColumn(t: Table, c: string): (r: Table)
    requires c in t.dtypes
    ensures r.dtypes.Keys == t.dtypes.Keys && |r.rows| == |t.rows|
    ensures r.dtypes[c] in {IntType, FloatType}
    ensures forall d :: d in t.dtypes && d != c ==> r.dtypes[d] == t.dtypes[d]
    ensures forall i :: 0 <= i < |t.rows| ==>
              (r.rows[i].Keys == t.rows[i].Keys + {c}
               && (forall d :: d != c ==> Cell(r.rows[i], d) == Cell(t.rows[i], d))
               && NumericCopy(Cell(r.rows[i], c), Cell(t.rows[i], c))
               && Fits(Cell(r.rows[i], c), r.dtypes[c]))
  {
    var n := ToNumeric(Column(t, c), t.dtypes[c]);
    SetColumn(t, c, n.1, n.0)
  }

  /** Step 3: each present price column coerced to a number. */
  function CoercePrices(t: Table, cols: seq<string>): (r: Table)
    ensures r.dtypes.Keys == t.dtypes.Keys && |r.rows| == |t.rows|
    ensures forall d :: d in t.dtypes && d !in cols ==> r.dtypes[d] == t.dtypes[d]
    ensures forall i, d :: 0 <= i < |t.rows| && d !in cols ==> Cell(r.rows[i], d) == Cell(t.rows[i], d)
    ensures forall i, d :: 0 <= i < |t.rows| && d in cols && d in t.dtypes ==>
              NumericCopy(Cell(r.rows[i], d), Cell(t.rows[i], d))
    decreases |cols|
  {
    if cols == [] then t
    else
      var s := if cols[0] in t.dtypes then CoerceColumn(t, cols[0]) else t;
      var r := CoercePrices(s, cols[1..]);
      forall i, d | 0 <= i < |t.rows| && d !in cols ensures Cell(r.rows[i], d) == Cell(t.rows[i], d) {
        assert d !in cols[1..];
        assert Cell(r.rows[i], d) == Cell(s.rows[i], d);
      }
      forall i, d | 0 <= i < |t.rows| && d in cols && d in t.dtypes
        ensures NumericCopy(Cell(r.rows[i], d), Cell(t.rows[i], d))
      {
        if d in cols[1..] {
          assert NumericCopy(Cell(r.rows[i], d), Cell(s.rows[i], d));
          if d == cols[0] {
            assert NumericCopy(Cell(s.rows[i], d), Cell(t.rows[i], d));
          } else {
            assert Cell(s.rows[i], d) == Cell(t.rows[i], d);
          }
        } else {
          assert d == cols[0];
          assert Cell(r.rows[i], d) == Cell(s.rows[i], d);
        }
      }
      r
  }

  /** Step 3: volume coerced, nulls filled with 0 and negatives set to 0. Without a
      volume column the coercion yields a scalar NaN, which has no `fillna`. */
  function CoerceVolume(t: Table): (r: Result<Table, CleanError>)
    ensures r.Err? <==> "volume" !in t.dtypes
    ensures r.Ok? ==> r.value.dtypes.Keys == t.dtypes.Keys && |r.value.rows| == |t.rows|
    ensures r.Ok? ==> forall x :: x in t.dtypes && x != "volume" ==> r.value.dtypes[x] == t.dtypes[x]
    ensures r.Ok? ==> r.value.dtypes["volume"] in {IntType, FloatType}
    ensures r.Ok? ==> forall i :: 0 <= i < |t.rows| ==>
              (forall d :: d != "volume" ==> Cell(r.value.rows[i], d) == Cell(t.rows[i], d))
              && NumericOf(Cell(r.value.rows[i], "volume")).Some?
              && NumericOf(Cell(r.value.rows[i], "volume")).value >= 0.0
              && VolumeFrom(Cell(r.value.rows[i], "volume"), Cell(t.rows[i], "volume"), r.value.dtypes["volume"])
  {
    if "volume" !in t.dtypes then Err(NoVolumeColumn)
    else
      var n := ToNumeric(Column(t, "volume"), t.dtypes["volume"]);
      Ok(SetColumn(t, "volume", n.1, seq(|t.rows|, i requires 0 <= i < |t.rows| => ClampVolume(n.0[i], n.1))))
  }

  /** Step 4: the metadata columns, the same in every row. */
  function Stamp(t: Table, exchange: string, source: string, now: Value): (r: Table)
    ensures r.dtypes == t.dtypes["exchange" := ObjectType]["source" := ObjectType]["ingestion_time" := DateTimeType]
    ensures |r.rows| == |t.rows|
    ensures forall i :: 0 <= i < |t.rows| ==>
              r.rows[i] == t.rows[i]["exchange" := TextV(exchange)]["source" := TextV(source)]["ingestion_time" := now]
  {
    var n := |t.rows|;
    var a := SetColumn(t, "exchange", ObjectType, seq(n, _ => TextV(exchange)));
    var b := SetColumn(a, "source", ObjectType, seq(n, _ => TextV(source)));
    SetColumn(b, "ingestion_time", DateTimeType, seq(n, _ => now))
  }

  predicate Complete(r: Row) {
    Cell(r, "symbol") != Null && Cell(r, "trading_date") != Null && Cell(r, "close_price") != Null
  }

  /** The rows with a symbol, a date and a close, in order. */
  function CompleteRows(rows: seq<Row>): (r: seq<Row>)
    ensures |r| <= |rows|
    ensures forall k :: 0 <= k < |r| ==> Complete(r[k]) && r[k] in rows
    ensures forall k :: 0 <= k < |rows| && Complete(rows[k]) ==> rows[k] in r
  {
    if rows == [] then []
    else
      var rest := CompleteRows(rows[1..]);
      assert forall k :: 1 <= k < |rows| ==> rows[k] == rows[1..][k - 1];
      (if Complete(rows[0]) then [rows[0]] else []) + rest
  }

  /** Step 5: `dropna(subset=["symbol", "trading_date", "close_price"])`; a subset
      column the table lacks is a KeyError. */
  function DropIncomplete(t: Table): (r: Result<Table, CleanError>)
    ensures r.Err? <==> !(KeyColumns <= t.dtypes.Keys)
    ensures r.Ok? ==> r.value == Table(t.dtypes, CompleteRows(t.rows))
  {
    if KeyColumns <= t.dtypes.Keys then Ok(Table(t.dtypes, CompleteRows(t.rows)))
    else Err(DropColumnsMissing(KeyColumns - t.dtypes.Keys))
  }

  /** The table after steps 1 to 4, before incomplete rows are dropped. When the
      rename leaves two `close_price` columns, `df["close_price"]` in step 3 is a
      frame, which `to_numeric` refuses. */
  function Prepared(t: Table, exchange: string, source: string, now: Value): Result<Table, CleanError> {
    match ResolveDate(t)
    case Err(e) => Err(e)
    case Ok(a) =>
      var b := RenameClose(a);
      assert "trading_date" in b.dtypes;
      match NormalizeDates(b)
      case Err(e) => Err(e)
      case Ok(c) =>
        if "close" in a.dtypes && "close_price" in a.dtypes then Err(DuplicateClosePrice)
        else
        var d := CoercePrices(c, PriceColumns);
        match CoerceVolume(d)
        case Err(e) => Err(e)
        case Ok(e) => Ok(Stamp(e, exchange, source, now))
  }

  /** `clean_stock_price(df, exchange, source)` with the clock reading `now` for
      `datetime.utcnow()`. An absent or empty input gives the empty table. */
  function CleanStockPrice(df: Option<Table>, exchange: string, source: string, now: Value): Result<Table, CleanError> {
    if df.None? || IsEmpty(df.value) then Ok(EmptyTable)
    else match Prepared(df.value, exchange, source, now)
      case Err(e) => Err(e)
      case Ok(p) => DropIncomplete(p)
  }

  // ---------------------------------------------------------------------------
  // Properties
  // ---------------------------------------------------------------------------

  lemma EmptyInputGivesEmpty(df: Option<Table>, exchange: string, source: string, now: Value)
    requires df.None? || IsEmpty(df.value)
    ensures CleanStockPrice(df, exchange, source, now) == Ok(EmptyTable)
  {
  }

  lemma NoDateColumnRejected(t: Table, exchange: string, source: string, now: Value)
    requires !IsEmpty(t) && "time" !in t.dtypes && "date" !in t.dtypes
    ensures CleanStockPrice(Some(t), exchange, source, now) == Err(NoDateColumn)
  {
  }

  /** Every row of a cleaned table: the trading date at midnight, a present close, a
      symbol, a volume that is a number no less than zero, and the given exchange
      and source; the raw date columns and `close` are gone, and the date column is
      datetime. */
  predicate Cleaned(r: Table, exchange: string, source: string, now: Value) {
    "time" !in r.dtypes && "date" !in r.dtypes && "close" !in r.dtypes
    && IsDatetime(r, "trading_date")
    && "exchange" in r.dtypes && "source" in r.dtypes && "volume" in r.dtypes
    && forall k :: 0 <= k < |r.rows| ==>
         Complete(r.rows[k])
         && Cell(r.rows[k], "trading_date").DateTimeV? && Cell(r.rows[k], "trading_date").secs == 0
         && NumericOf(Cell(r.rows[k], "volume")).Some? && NumericOf(Cell(r.rows[k], "volume")).value >= 0.0
         && Cell(r.rows[k], "exchange") == TextV(exchange) && Cell(r.rows[k], "source") == TextV(source)
         && Cell(r.rows[k], "ingestion_time") == now
  }

  /** What steps 1 to 4 give every row, before the drop. */
  predicate PreparedRow(r: Row, exchange: string, source: string, now: Value) {
    (Cell(r, "trading_date").Null? || (Cell(r, "trading_date").DateTimeV? && Cell(r, "trading_date").secs == 0))
    && NumericOf(Cell(r, "volume")).Some? && NumericOf(Cell(r, "volume")).value >= 0.0
    && Cell(r, "exchange") == TextV(exchange) && Cell(r, "source") == TextV(source)
    && Cell(r, "ingestion_time") == now
  }

  predicate MidnightOrNull(v: Value) {
    v.Null? || (v.DateTimeV? && v.secs == 0)
  }

  lemma DatesAtMidnight(b: Table, i: nat)
    requires "trading_date" in b.dtypes && NormalizeDates(b).Ok? && i < |b.rows|
    ensures MidnightOrNull(Cell(NormalizeDates(b).value.rows[i], "trading_date"))
  {
  }

  lemma PricesKeepDate(c: Table, i: nat)
    requires i < |c.rows|
    ensures Cell(CoercePrices(c, PriceColumns).rows[i], "trading_date") == Cell(c.rows[i], "trading_date")
  {
    assert "trading_date" !in PriceColumns;
  }

  lemma VolumeKeepsDate(d: Table, i: nat)
    requires CoerceVolume(d).Ok? && i < |d.rows|
    ensures Cell(CoerceVolume(d).value.rows[i], "trading_date") == Cell(d.rows[i], "trading_date")
    ensures NumericOf(Cell(CoerceVolume(d).value.rows[i], "volume")).Some?
    ensures NumericOf(Cell(CoerceVolume(d).value.rows[i], "volume")).value >= 0.0
  {
  }

  lemma StampKeeps(e: Table, exchange: string, source: string, now: Value, i: nat)
    requires i < |e.rows|
    ensures var p := Stamp(e, exchange, source, now);
      Cell(p.rows[i], "trading_date") == Cell(e.rows[i], "trading_date")
      && Cell(p.rows[i], "volume") == Cell(e.rows[i], "volume")
      && Cell(p.rows[i], "exchange") == TextV(exchange) && Cell(p.rows[i], "source") == TextV(source)
      && Cell(p.rows[i], "ingestion_time") == now
  {
  }

  lemma PricesKeepColumns(c: Table)
    ensures CoercePrices(c, PriceColumns).dtypes.Keys == c.dtypes.Keys
    ensures "trading_date" in c.dtypes ==>
              CoercePrices(c, PriceColumns).dtypes["trading_date"] == c.dtypes["trading_date"]
  {
    assert "trading_date" !in PriceColumns;
  }

  lemma VolumeKeepsColumns(d: Table)
    requires CoerceVolume(d).Ok?
    ensures CoerceVolume(d).value.dtypes.Keys == d.dtypes.Keys
    ensures "trading_date" in d.dtypes ==> CoerceVolume(d).value.dtypes["trading_date"] == d.dtypes["trading_date"]
  {
  }

  lemma StampAddsColumns(e: Table, exchange: string, source: string, now: Value)
    ensures Stamp(e, exchange, source, now).dtypes.Keys == e.dtypes.Keys + {"exchange", "source", "ingestion_time"}
    ensures "trading_date" in e.dtypes ==> Stamp(e, exchange, source, now).dtypes["trading_date"] == e.dtypes["trading_date"]
  {
  }

  /** Steps 3 and 4 after a successful step 2: they add the metadata columns and keep
      the absence of the raw date columns and the datetime dtype of `trading_date`. */
  lemma LaterStepsColumns(c: Table, exchange: string, source: string, now: Value)
    requires CoerceVolume(CoercePrices(c, PriceColumns)).Ok?
    requires "time" !in c.dtypes && "date" !in c.dtypes && "close" !in c.dtypes && IsDatetime(c, "trading_date")
    ensures var p := Stamp(CoerceVolume(CoercePrices(c, PriceColumns)).value, exchange, source, now);
      "time" !in p.dtypes && "date" !in p.dtypes && "close" !in p.dtypes && IsDatetime(p, "trading_date")
      && "exchange" in p.dtypes && "source" in p.dtypes && "volume" in p.dtypes
  {
    var d := CoercePrices(c, PriceColumns);
    PricesKeepColumns(c);
    VolumeKeepsColumns(d);
    var e := CoerceVolume(d).value;
    StampAddsColumns(e, exchange, source, now);
    StampedColumns(c.dtypes, e.dtypes, Stamp(e, exchange, source, now).dtypes);
  }

  /** The column facts behind `LaterStepsColumns`, on the dtype maps alone. */
  lemma StampedColumns(c: map<string, DType>, e: map<string, DType>, p: map<string, DType>)
    requires e.Keys == c.Keys && "volume" in e
    requires p.Keys == e.Keys + {"exchange", "source", "ingestion_time"}
    requires "time" !in c && "date" !in c && "close" !in c
    requires "trading_date" in c && "trading_date" in p && p["trading_date"] == c["trading_date"]
    ensures "time" !in p && "date" !in p && "close" !in p && "exchange" in p && "source" in p && "volume" in p
    ensures p["trading_date"] == c["trading_date"]
  {
  }

  /** Steps 3 and 4 after a successful step 2: what they give every row. */
  lemma LaterStepsRows(c: Table, exchange: string, source: string, now: Value)
    requires CoerceVolume(CoercePrices(c, PriceColumns)).Ok?
    requires forall i :: 0 <= i < |c.rows| ==> MidnightOrNull(Cell(c.rows[i], "trading_date"))
    ensures var p := Stamp(CoerceVolume(CoercePrices(c, PriceColumns)).value, exchange, source, now);
      forall i :: 0 <= i < |p.rows| ==> PreparedRow(p.rows[i], exchange, source, now)
  {
    var d := CoercePrices(c, PriceColumns);
    var e := CoerceVolume(d).value;
    var p := Stamp(e, exchange, source, now);
    forall i | 0 <= i < |p.rows| ensures PreparedRow(p.rows[i], exchange, source, now) {
      PricesKeepDate(c, i);
      VolumeKeepsDate(d, i);
      StampKeeps(e, exchange, source, now, i);
    }
  }

  /** Steps 1 and 2: the raw date columns and `close` are gone, and `trading_date` is
      a datetime column whose cells are midnight timestamps or null. */
  lemma EarlyStepsEstablish(t: Table)
    requires ResolveDate(t).Ok?
    requires NormalizeDates(RenameClose(ResolveDate(t).value)).Ok?
    ensures var c := NormalizeDates(RenameClose(ResolveDate(t).value)).value;
      "time" !in c.dtypes && "date" !in c.dtypes && "close" !in c.dtypes && IsDatetime(c, "trading_date")
      && forall i :: 0 <= i < |c.rows| ==> MidnightOrNull(Cell(c.rows[i], "trading_date"))
  {
    var b := RenameClose(ResolveDate(t).value);
    var c := NormalizeDates(b).value;
    forall i | 0 <= i < |c.rows| ensures MidnightOrNull(Cell(c.rows[i], "trading_date")) {
      DatesAtMidnight(b, i);
    }
  }

  /** A successful preparation passes every step. */
  lemma PreparedSteps(t: Table, exchange: string, source: string, now: Value)
    requires Prepared(t, exchange, source, now).Ok?
    ensures !("close" in t.dtypes && "close_price" in t.dtypes)
    ensures ResolveDate(t).Ok? && NormalizeDates(RenameClose(ResolveDate(t).value)).Ok?
    ensures var c := NormalizeDates(RenameClose(ResolveDate(t).value)).value;
      CoerceVolume(CoercePrices(c, PriceColumns)).Ok?
      && Prepared(t, exchange, source, now).value
         == Stamp(CoerceVolume(CoercePrices(c, PriceColumns)).value, exchange, source, now)
  {
    ResolveKeepsColumn(t, "close");
    ResolveKeepsColumn(t, "close_price");
  }

  /** The columns of a successful preparation. */
  lemma PreparedColumns(t: Table, exchange: string, source: string, now: Value)
    requires Prepared(t, exchange, source, now).Ok?
    ensures var p := Prepared(t, exchange, source, now).value;
      "time" !in p.dtypes && "date" !in p.dtypes && "close" !in p.dtypes && IsDatetime(p, "trading_date")
      && "exchange" in p.dtypes && "source" in p.dtypes && "volume" in p.dtypes
  {
    PreparedSteps(t, exchange, source, now);
    EarlyStepsEstablish(t);
    LaterStepsColumns(NormalizeDates(RenameClose(ResolveDate(t).value)).value, exchange, source, now);
  }

  /** The rows of a successful preparation. */
  lemma PreparedRows(t: Table, exchange: string, source: string, now: Value)
    requires Prepared(t, exchange, source, now).Ok?
    ensures var p := Prepared(t, exchange, source, now).value;
      forall i :: 0 <= i < |p.rows| ==> PreparedRow(p.rows[i], exchange, source, now)
  {
    PreparedSteps(t, exchange, source, now);
    EarlyStepsEstablish(t);
    LaterStepsRows(NormalizeDates(RenameClose(ResolveDate(t).value)).value, exchange, source, now);
  }

  /** What a successful clean of a non-empty table guarantees. */
  lemma CleanEstablishes(t: Table, exchange: string, source: string, now: Value)
    requires !IsEmpty(t)
    requires CleanStockPrice(Some(t), exchange, source, now).Ok?
    ensures Cleaned(CleanStockPrice(Some(t), exchange, source, now).value, exchange, source, now)
  {
    var p := Prepared(t, exchange, source, now).value;
    PreparedColumns(t, exchange, source, now);
    PreparedRows(t, exchange, source, now);
    var r := CleanStockPrice(Some(t), exchange, source, now).value;
    assert r == Table(p.dtypes, CompleteRows(p.rows));
    forall k | 0 <= k < |r.rows| ensures PreparedRow(r.rows[k], exchange, source, now) {
      var i :| 0 <= i < |p.rows| && p.rows[i] == r.rows[k];
    }
  }

  /** The column the close comes from: `close` when present, else `close_price`. */
  function CloseSource(t: Table): string {
    if "close" in t.dtypes then "close" else "close_price"
  }

  /** Which rows `dropna` keeps. */
  function CompleteMask(rows: seq<Row>): (m: seq<bool>)
    ensures |m| == |rows| && forall j :: 0 <= j < |rows| ==> (m[j] <==> Complete(rows[j]))
  {
    seq(|rows|, j requires 0 <= j < |rows| => Complete(rows[j]))
  }

  /** `dropna` keeps exactly the complete rows, in their order. */
  lemma {:induction false} CompleteRowsInOrder(rows: seq<Row>)
    ensures Selects(CompleteRows(rows), rows, CompleteMask(rows))
  {
    if rows == [] {
      SelectsNothing(rows, CompleteMask(rows));
    } else {
      CompleteRowsInOrder(rows[1..]);
      assert CompleteMask(rows)[1..] == CompleteMask(rows[1..]) by {
        forall j | 0 <= j < |rows| - 1 ensures CompleteMask(rows)[1..][j] == CompleteMask(rows[1..])[j] {
          assert rows[1..][j] == rows[j + 1];
        }
      }
      assert CompleteRows(rows) == (if Complete(rows[0]) then [rows[0]] else []) + CompleteRows(rows[1..]);
      assert [] + CompleteRows(rows[1..]) == CompleteRows(rows[1..]);
      SelectsStep(CompleteRows(rows[1..]), rows, CompleteMask(rows));
    }
  }

  /** Row `j` of a successful preparation comes from input row `j`: its close is the
      coerced close of the input. */
  lemma PreparedCloseTrace(t: Table, exchange: string, source: string, now: Value, j: nat)
    requires Prepared(t, exchange, source, now).Ok? && j < |t.rows|
    ensures var p := Prepared(t, exchange, source, now).value;
      |p.rows| == |t.rows|
      && ("close_price" in p.dtypes ==> "close" in t.dtypes || "close_price" in t.dtypes)
      && ("close" in t.dtypes || "close_price" in t.dtypes ==>
            NumericCopy(Cell(p.rows[j], "close_price"), Cell(t.rows[j], CloseSource(t))))
  {
    PreparedSteps(t, exchange, source, now);
    var b := RenameClose(ResolveDate(t).value);
    EarlyClose(t, j);
    var c := NormalizeDates(b).value;
    NormalizeKeeps(b, j, "close_price");
    var d := CoercePrices(c, PriceColumns);
    assert "close_price" in PriceColumns;
    LateClose(d, exchange, source, now, j);
  }

  /** Steps 1 and 2 put the input's close under `close_price`. */
  lemma EarlyClose(t: Table, j: nat)
    requires ResolveDate(t).Ok? && j < |t.rows| && !("close" in t.dtypes && "close_price" in t.dtypes)
    ensures var b := RenameClose(ResolveDate(t).value);
      Cell(b.rows[j], "close_price") == Cell(t.rows[j], CloseSource(t))
      && ("close_price" in b.dtypes <==> "close" in t.dtypes || "close_price" in t.dtypes)
  {
    var a := ResolveDate(t).value;
    ResolveKeeps(t, j, "close");
    ResolveKeeps(t, j, "close_price");
    RenameCloseCells(a, j);
  }

  /** The volume step and the stamp leave `close_price` as it is. */
  lemma LateClose(d: Table, exchange: string, source: string, now: Value, j: nat)
    requires CoerceVolume(d).Ok? && j < |d.rows|
    ensures var p := Stamp(CoerceVolume(d).value, exchange, source, now);
      Cell(p.rows[j], "close_price") == Cell(d.rows[j], "close_price")
      && ("close_price" in p.dtypes <==> "close_price" in d.dtypes)
  {
    StampKeepsCell(CoerceVolume(d).value, exchange, source, now, j, "close_price");
  }

  /** Row `j` of a successful preparation comes from input row `j`: its volume is
      the clamped volume of the input. */
  lemma PreparedVolumeTrace(t: Table, exchange: string, source: string, now: Value, j: nat)
    requires Prepared(t, exchange, source, now).Ok? && j < |t.rows|
    ensures var p := Prepared(t, exchange, source, now).value;
      |p.rows| == |t.rows| && "volume" in p.dtypes
      && VolumeFrom(Cell(p.rows[j], "volume"), Cell(t.rows[j], "volume"), p.dtypes["volume"])
  {
    PreparedSteps(t, exchange, source, now);
    var a := ResolveDate(t).value;
    var b := RenameClose(a);
    ResolveKeeps(t, j, "volume");
    RenameCloseCells(a, j);
    var c := NormalizeDates(b).value;
    NormalizeKeeps(b, j, "volume");
    var d := CoercePrices(c, PriceColumns);
    assert "volume" !in PriceColumns;
    LateVolume(d, exchange, source, now, j);
  }

  /** The volume step clamps the volume and the stamp keeps it. */
  lemma LateVolume(d: Table, exchange: string, source: string, now: Value, j: nat)
    requires CoerceVolume(d).Ok? && j < |d.rows|
    ensures var p := Stamp(CoerceVolume(d).value, exchange, source, now);
      "volume" in p.dtypes && VolumeFrom(Cell(p.rows[j], "volume"), Cell(d.rows[j], "volume"), p.dtypes["volume"])
  {
    StampKeepsCell(CoerceVolume(d).value, exchange, source, now, j, "volume");
  }

  lemma ResolveKeeps(t: Table, j: nat, c: string)
    requires ResolveDate(t).Ok? && j < |t.rows| && c !in {"trading_date", "time", "date"}
    ensures Cell(ResolveDate(t).value.rows[j], c) == Cell(t.rows[j], c)
    ensures c in ResolveDate(t).value.dtypes <==> c in t.dtypes
  {
    ResolveKeepsColumn(t, c);
  }

  lemma ResolveKeepsColumn(t: Table, c: string)
    requires ResolveDate(t).Ok? && c !in {"trading_date", "time", "date"}
    ensures c in ResolveDate(t).value.dtypes <==> c in t.dtypes
  {
  }

  lemma RenameCloseCells(a: Table, j: nat)
    requires j < |a.rows| && !("close" in a.dtypes && "close_price" in a.dtypes)
    ensures var b := RenameClose(a);
      Cell(b.rows[j], "close_price") == Cell(a.rows[j], if "close" in a.dtypes then "close" else "close_price")
      && Cell(b.rows[j], "volume") == Cell(a.rows[j], "volume")
      && ("close_price" in b.dtypes <==> "close" in a.dtypes || "close_price" in a.dtypes)
      && ("volume" in b.dtypes <==> "volume" in a.dtypes)
  {
  }

  lemma NormalizeKeeps(b: Table, j: nat, c: string)
    requires "trading_date" in b.dtypes && NormalizeDates(b).Ok? && j < |b.rows| && c != "trading_date"
    ensures Cell(NormalizeDates(b).value.rows[j], c) == Cell(b.rows[j], c)
    ensures c in NormalizeDates(b).value.dtypes <==> c in b.dtypes
  {
  }

  lemma StampKeepsCell(e: Table, exchange: string, source: string, now: Value, i: nat, c: string)
    requires i < |e.rows| && c !in {"exchange", "source", "ingestion_time"}
    ensures var p := Stamp(e, exchange, source, now);
      Cell(p.rows[i], c) == Cell(e.rows[i], c) && (c in p.dtypes <==> c in e.dtypes)
      && (c in e.dtypes ==> p.dtypes[c] == e.dtypes[c])
  {
  }

  /** A successful clean keeps, in order, exactly the prepared rows with a symbol, a
      date and a close; prepared row `j` carries the coerced close and the clamped
      volume of input row `j`. */
  lemma CleanRowsTrace(t: Table, exchange: string, source: string, now: Value)
    requires !IsEmpty(t) && CleanStockPrice(Some(t), exchange, source, now).Ok?
    ensures var p := Prepared(t, exchange, source, now).value;
      var r := CleanStockPrice(Some(t), exchange, source, now).value;
      |p.rows| == |t.rows| && r.dtypes == p.dtypes
      && Selects(r.rows, p.rows, CompleteMask(p.rows))
      && forall j :: 0 <= j < |t.rows| ==>
           NumericCopy(Cell(p.rows[j], "close_price"), Cell(t.rows[j], CloseSource(t)))
           && VolumeFrom(Cell(p.rows[j], "volume"), Cell(t.rows[j], "volume"), r.dtypes["volume"])
  {
    var p := Prepared(t, exchange, source, now).value;
    assert KeyColumns <= p.dtypes.Keys;
    CompleteRowsInOrder(p.rows);
    forall j | 0 <= j < |t.rows|
      ensures NumericCopy(Cell(p.rows[j], "close_price"), Cell(t.rows[j], CloseSource(t)))
              && VolumeFrom(Cell(p.rows[j], "volume"), Cell(t.rows[j], "volume"), p.dtypes["volume"])
    {
      PreparedCloseTrace(t, exchange, source, now, j);
      PreparedVolumeTrace(t, exchange, source, now, j);
    }
  }

  /** No row of a successful clean comes from an input row whose close does not read
      as a number. */
  lemma UnparseableCloseDropped(t: Table, exchange: string, source: string, now: Value)
    requires !IsEmpty(t) && CleanStockPrice(Some(t), exchange, source, now).Ok?
    ensures var p := Prepared(t, exchange, source, now).value;
      var r := CleanStockPrice(Some(t), exchange, source, now).value;
      |p.rows| == |t.rows| && Selects(r.rows, p.rows, CompleteMask(p.rows))
      && forall j :: 0 <= j < |t.rows| && NumericOf(Cell(t.rows[j], CloseSource(t))).None? ==> !CompleteMask(p.rows)[j]
  {
    CleanRowsTrace(t, exchange, source, now);
  }

  /** A table with both `close` and `close_price` whose date column (`time`, else
      `date`) reads in full stops the cleaner at step 3. */
  lemma DuplicateCloseRejected(t: Table, exchange: string, source: string, now: Value)
    requires !IsEmpty(t) && ("time" in t.dtypes || "date" in t.dtypes)
    requires var src := if "time" in t.dtypes then "time" else "date";
      IsDatetime(t, src) || forall i :: 0 <= i < |t.rows| ==> !ToDatetime(Cell(t.rows[i], src)).Null?
    requires "close" in t.dtypes && "close_price" in t.dtypes
    ensures CleanStockPrice(Some(t), exchange, source, now) == Err(DuplicateClosePrice)
  {
    var src := if "time" in t.dtypes then "time" else "date";
    var b := RenameClose(ResolveDate(t).value);
    forall i | 0 <= i < |t.rows| ensures Cell(b.rows[i], "trading_date") == Cell(t.rows[i], src) {
      ResolvedDateCell(t, i);
    }
    ResolvedDateType(t);
    assert NormalizeDates(b).Ok?;
    DuplicateAfterDates(t, exchange, source, now);
  }

  /** Once the dates normalise, two close columns are refused. */
  lemma DuplicateAfterDates(t: Table, exchange: string, source: string, now: Value)
    requires ResolveDate(t).Ok? && NormalizeDates(RenameClose(ResolveDate(t).value)).Ok?
    requires "close" in t.dtypes && "close_price" in t.dtypes && !IsEmpty(t)
    ensures CleanStockPrice(Some(t), exchange, source, now) == Err(DuplicateClosePrice)
  {
    var a := ResolveDate(t).value;
    assert "close" in a.dtypes && "close_price" in a.dtypes;
  }

  /** After steps 1 and 2 the trading date of row `i` is its raw date cell. */
  lemma ResolvedDateCell(t: Table, i: nat)
    requires ("time" in t.dtypes || "date" in t.dtypes) && i < |t.rows|
    ensures var src := if "time" in t.dtypes then "time" else "date";
      Cell(RenameClose(ResolveDate(t).value).rows[i], "trading_date") == Cell(t.rows[i], src)
  {
    var src := if "time" in t.dtypes then "time" else "date";
    var a := ResolveDate(t).value;
    assert a.rows[i] == (t.rows[i] - {"time", "date"})["trading_date" := Cell(t.rows[i], src)];
  }

  lemma ResolvedDateType(t: Table)
    requires "time" in t.dtypes || "date" in t.dtypes
    ensures var src := if "time" in t.dtypes then "time" else "date";
      RenameClose(ResolveDate(t).value).dtypes["trading_date"] == t.dtypes[src]
  {
  }

  /** The trading date comes from `time` when both raw date columns are present. */
  lemma TimePreferred(t: Table)
    requires "time" in t.dtypes
    ensures ResolveDate(t).Ok?
    ensures forall i :: 0 <= i < |t.rows| ==> Cell(ResolveDate(t).value.rows[i], "trading_date") == Cell(t.rows[i], "time")
  {
  }

  /** A date column (`time`, else `date`) that is not datetime and holds one
      unreadable value stops the cleaner. */
  lemma UnparseableDateRejected(t: Table, exchange: string, source: string, now: Value, i: nat)
    requires !IsEmpty(t) && ("time" in t.dtypes || "date" in t.dtypes)
    requires var src := if "time" in t.dtypes then "time" else "date";
      t.dtypes[src] != DateTimeType && i < |t.rows| && ToDatetime(Cell(t.rows[i], src)).Null?
    ensures CleanStockPrice(Some(t), exchange, source, now) == Err(UnparseableDates)
  {
    ResolvedDateCell(t, i);
    ResolvedDateType(t);
  }
}
