/** The gold feature builder: from a silver table, coerce close and volume to
    numbers and drop the rows where that fails, stable-sort by (symbol, exchange,
    trading_date), keep the last row of each key, add the per-group daily return
    and the 5- and 20-row moving averages of the close, and project onto the eight
    gold columns. */
module GoldBuilder {
  import opened Wrappers
  import opened Values
  import opened Tables
  import opened RowOrder
  import opened Subsequences

  const RequiredColumns: set<string> := {"symbol", "exchange", "trading_date", "close_price", "volume"}

  /** A silver row after numeric coercion: only what the gold table needs. */
  datatype Obs = Obs(symbol: Value, exchange: Value, date: Value, close: real, volume: real)

  function ObsKey(o: Obs): Key {
    Key(o.symbol, o.exchange, o.date)
  }

  predicate Coercible(r: Row) {
    NumericOf(Cell(r, "close_price")).Some? && NumericOf(Cell(r, "volume")).Some?
  }

  function ObsOf(r: Row): Obs
    requires Coercible(r)
  {
    Obs(Cell(r, "symbol"), Cell(r, "exchange"), Cell(r, "trading_date"),
        NumericOf(Cell(r, "close_price")).value, NumericOf(Cell(r, "volume")).value)
  }

  /** `o` is the coerced form of one of the rows. */
  predicate CoercedFrom(rows: seq<Row>, o: Obs) {
    exists i :: 0 <= i < |rows| && Coercible(rows[i]) && o == ObsOf(rows[i])
  }

  /** `to_numeric(errors="coerce")` on close_price and volume followed by `dropna` on
      both: the coercible rows, in their order. */
  function Coerce(rows: seq<Row>): (obs: seq<Obs>)
    ensures |obs| <= |rows|
    ensures forall o :: o in obs <==> CoercedFrom(rows, o)
  {
    if rows == [] then []
    else
      var rest := Coerce(rows[1..]);
      assert forall o :: CoercedFrom(rows[1..], o) ==> CoercedFrom(rows, o) by {
        forall o | CoercedFrom(rows[1..], o) ensures CoercedFrom(rows, o) {
          var i :| 0 <= i < |rows[1..]| && Coercible(rows[1..][i]) && o == ObsOf(rows[1..][i]);
          assert rows[i + 1] == rows[1..][i];
        }
      }
      assert forall o :: CoercedFrom(rows, o) ==> (Coercible(rows[0]) && o == ObsOf(rows[0])) || CoercedFrom(rows[1..], o) by {
        forall o | CoercedFrom(rows, o) ensures (Coercible(rows[0]) && o == ObsOf(rows[0])) || CoercedFrom(rows[1..], o) {
          var i :| 0 <= i < |rows| && Coercible(rows[i]) && o == ObsOf(rows[i]);
          if i > 0 {
            assert rows[1..][i - 1] == rows[i];
          }
        }
      }
      (if Coercible(rows[0]) then [ObsOf(rows[0])] else []) + rest
  }

  function CoercibleMask(rows: seq<Row>): (m: seq<bool>)
    ensures |m| == |rows| && forall j :: 0 <= j < |rows| ==> (m[j] <==> Coercible(rows[j]))
  {
    seq(|rows|, j requires 0 <= j < |rows| => Coercible(rows[j]))
  }

  /** `obs` is the coerced form of `kept`, element by element. */
  predicate CoercedImage(obs: seq<Obs>, kept: seq<Row>) {
    |obs| == |kept| && forall k :: 0 <= k < |kept| ==> Coercible(kept[k]) && obs[k] == ObsOf(kept[k])
  }

  /** The coercion keeps each coercible row once, in input order, and no other row. */
  lemma {:induction false} CoerceInOrder(rows: seq<Row>)
    ensures exists kept :: Selects(kept, rows, CoercibleMask(rows)) && CoercedImage(Coerce(rows), kept)
  {
    if rows == [] {
      SelectsNothing(rows, CoercibleMask(rows));
      assert CoercedImage(Coerce(rows), []);
    } else {
      CoerceInOrder(rows[1..]);
      var kept' :| Selects(kept', rows[1..], CoercibleMask(rows[1..])) && CoercedImage(Coerce(rows[1..]), kept');
      CoercibleMaskTail(rows);
      SelectsStep(kept', rows, CoercibleMask(rows));
      CoercedImageStep(rows, kept');
      var kept := if Coercible(rows[0]) then [rows[0]] + kept' else kept';
      assert Selects(kept, rows, CoercibleMask(rows)) && CoercedImage(Coerce(rows), kept);
    }
  }

  lemma CoercibleMaskTail(rows: seq<Row>)
    requires rows != []
    ensures CoercibleMask(rows)[1..] == CoercibleMask(rows[1..])
  {
    forall j | 0 <= j < |rows| - 1 ensures CoercibleMask(rows)[1..][j] == CoercibleMask(rows[1..])[j] {
      assert rows[1..][j] == rows[j + 1];
    }
  }

  lemma CoerceUnfold(rows: seq<Row>)
    requires rows != []
    ensures Coerce(rows) == (if Coercible(rows[0]) then [ObsOf(rows[0])] else []) + Coerce(rows[1..])
  {
  }

  lemma CoercedImageStep(rows: seq<Row>, kept': seq<Row>)
    requires rows != [] && CoercedImage(Coerce(rows[1..]), kept')
    ensures CoercedImage(Coerce(rows), if Coercible(rows[0]) then [rows[0]] + kept' else kept')
  {
    CoerceUnfold(rows);
    if Coercible(rows[0]) {
      CoercedImageCons(Coerce(rows[1..]), kept', rows[0]);
    } else {
      assert Coerce(rows) == [] + Coerce(rows[1..]);
    }
  }

  lemma CoercedImageCons(rest: seq<Obs>, kept': seq<Row>, r: Row)
    requires Coercible(r) && CoercedImage(rest, kept')
    ensures CoercedImage([ObsOf(r)] + rest, [r] + kept')
  {
    var obs, kept := [ObsOf(r)] + rest, [r] + kept';
    forall k | 0 < k < |kept| ensures Coercible(kept[k]) && obs[k] == ObsOf(kept[k]) {
      assert kept[k] == kept'[k - 1] && obs[k] == rest[k - 1];
    }
  }

  /** The rows after sorting and `drop_duplicates(keep="last")`. */
  function Deduplicated(rows: seq<Row>): seq<Obs> {
    KeepLast(Sort(Coerce(rows), ObsKey), ObsKey)
  }

  // ---------------------------------------------------------------------------
  // Per-group features
  // ---------------------------------------------------------------------------

  /** The `groupby(["symbol", "exchange"])` group of a row; rows with a null symbol or
      exchange belong to no group (groupby drops null keys). */
  function GroupOf(o: Obs): Option<(Value, Value)> {
    if o.symbol.Null? || o.exchange.Null? then None else Some((o.symbol, o.exchange))
  }

  /** The closes of the rows among the first `n` that belong to group `g`, in order. */
  function GroupCloses(s: seq<Obs>, g: (Value, Value), n: nat): seq<real>
    requires n <= |s|
  {
    if n == 0 then []
    else GroupCloses(s, g, n - 1) + (if GroupOf(s[n - 1]) == Some(g) then [s[n - 1].close] else [])
  }

  function Sum(xs: seq<real>): real {
    if xs == [] then 0.0 else Sum(xs[..|xs| - 1]) + xs[|xs| - 1]
  }

  function Mean(xs: seq<real>): real
    requires |xs| > 0
  {
    Sum(xs) / |xs| as real
  }

  /** `rolling(window=w, min_periods=1).mean()` at the end of the history `h`: the mean
      of its last `w` entries, or of all of them while there are fewer. */
  function RollingMean(h: seq<real>, w: nat): real
    requires |h| > 0 && w > 0
  {
    Mean(h[if |h| > w then |h| - w else 0..])
  }

  datatype Features = Features(dailyReturn: Value, ma5: Value, ma20: Value)

  /** The features of row `p`: shift(1) within the group gives the previous close;
      the return needs it present and non-zero. */
  function FeaturesAt(s: seq<Obs>, p: nat): (f: Features)
    requires p < |s|
    ensures GroupOf(s[p]).None? ==> f == Features(Null, Null, Null)
    ensures GroupOf(s[p]).Some? ==> f.ma5.RealV? && f.ma20.RealV?
  {
    match GroupOf(s[p])
    case None => Features(Null, Null, Null)
    case Some(g) =>
      var h := GroupCloses(s, g, p + 1);
      var prev := if |h| >= 2 then Some(h[|h| - 2]) else None;
      var ret := if prev.Some? && prev.value != 0.0 then RealV((s[p].close - prev.value) / prev.value) else Null;
      Features(ret, RealV(RollingMean(h, 5)), RealV(RollingMean(h, 20)))
  }

  // ---------------------------------------------------------------------------
  // Projection and final dtypes
  // ---------------------------------------------------------------------------

  /** `str(x)` for a key cell, as `astype(str)` writes it: text unchanged, integers in
      decimal, timestamps as "YYYY-MM-DD HH:MM:SS". The model's one null is written
      as a float NaN is, "nan". */
  function ToStr(v: Value): (s: string)
    ensures v.TextV? ==> s == v.s
    ensures v.IntV? ==> ParseNumber(s) == Some(v)
    ensures v.DateTimeV? ==> |s| == 19 && s[..10] == FormatDate(v.date) && s[10] == ' '
  {
    match v
    case TextV(s) => s
    case IntV(i) => ParseIntRoundTrip(i); IntToStr(i)
    case Null => "nan"
    case RealV(r) => IntToStr(r.Floor) + ".0"
    case DateTimeV(d, secs) =>
      var t := if 0 <= secs < SecondsPerDay then secs else 0;
      FormatDate(d) + " " + PadDigits(t / 3600, 2) + ":" + PadDigits(t / 60 % 60, 2) + ":" + PadDigits(t % 60, 2)
  }

  /** A gold row: text keys, float close, integer volume and the three features. */
  datatype Gold = Gold(symbol: string, exchange: string, date: Value, close: real, volume: int, features: Features)

  function GoldKey(g: Gold): Key {
    Key(TextV(g.symbol), TextV(g.exchange), g.date)
  }

  function ToGold(d: seq<Obs>, p: nat): Gold
    requires p < |d|
  {
    Gold(ToStr(d[p].symbol), ToStr(d[p].exchange), d[p].date, d[p].close, d[p].volume.Floor, FeaturesAt(d, p))
  }

  datatype BuildError =
    | TradingDateNotDatetime(dtype: DType)
    | VolumeNotInteger(volume: real)

  /** The gold records of the first `n` rows; the cast of volume to Int64 fails on
      the first value with a fractional part. */
  function GoldRecords(d: seq<Obs>, n: nat): (r: Result<seq<Gold>, BuildError>)
    requires n <= |d|
    ensures r.Ok? <==> forall p :: 0 <= p < n ==> IsWhole(d[p].volume)
    ensures r.Ok? ==> |r.value| == n && forall p :: 0 <= p < n ==> r.value[p] == ToGold(d, p)
    ensures r.Err? ==> exists p :: 0 <= p < n && r.error == VolumeNotInteger(d[p].volume) && !IsWhole(d[p].volume)
  {
    if n == 0 then Ok([])
    else match GoldRecords(d, n - 1)
      case Err(e) => Err(e)
      case Ok(gs) =>
        if IsWhole(d[n - 1].volume) then Ok(gs + [ToGold(d, n - 1)])
        else Err(VolumeNotInteger(d[n - 1].volume))
  }

  const GoldColumns: seq<string> :=
    ["symbol", "exchange", "trading_date", "close_price", "volume", "daily_return", "ma_5", "ma_20"]

  const GoldDtypes: map<string, DType> := map[
    "symbol" := ObjectType, "exchange" := ObjectType, "trading_date" := DateTimeType,
    "close_price" := FloatType, "volume" := IntType, "daily_return" := FloatType,
    "ma_5" := FloatType, "ma_20" := FloatType]

  function GoldRow(g: Gold): (r: Row)
    ensures r.Keys == GoldDtypes.Keys
  {
    map["symbol" := TextV(g.symbol), "exchange" := TextV(g.exchange), "trading_date" := g.date,
        "close_price" := RealV(g.close), "volume" := IntV(g.volume),
        "daily_return" := g.features.dailyReturn, "ma_5" := g.features.ma5, "ma_20" := g.features.ma20]
  }

  function GoldTable(gs: seq<Gold>): (t: Table)
    ensures t.dtypes == GoldDtypes && |t.rows| == |gs|
    ensures forall i :: 0 <= i < |gs| ==> t.rows[i] == GoldRow(gs[i])
  {
    Table(GoldDtypes, seq(|gs|, i requires 0 <= i < |gs| => GoldRow(gs[i])))
  }

  /** `build_stock_price_daily`. An absent or empty input, or one lacking a required
      column, gives the empty table; a non-datetime trading_date is an error. */
  function BuildStockPriceDaily(df: Option<Table>): Result<Table, BuildError> {
    if df.None? || IsEmpty(df.value) || !(RequiredColumns <= df.value.dtypes.Keys) then Ok(EmptyTable)
    else if df.value.dtypes["trading_date"] != DateTimeType then
      Err(TradingDateNotDatetime(df.value.dtypes["trading_date"]))
    else
      var d := Deduplicated(df.value.rows);
      match GoldRecords(d, |d|)
      case Err(e) => Err(e)
      case Ok(gs) => Ok(GoldTable(Sort(gs, GoldKey)))
  }

  // ---------------------------------------------------------------------------
  // Properties
  // ---------------------------------------------------------------------------

  predicate Buildable(t: Table) {
    !IsEmpty(t) && RequiredColumns <= t.dtypes.Keys && t.dtypes["trading_date"] == DateTimeType
  }

  lemma SkipsWithoutRequiredColumns(df: Option<Table>)
    requires df.None? || IsEmpty(df.value) || !(RequiredColumns <= df.value.dtypes.Keys)
    ensures BuildStockPriceDaily(df) == Ok(EmptyTable)
  {
  }

  lemma RejectsNonDatetimeDate(t: Table)
    requires !IsEmpty(t) && RequiredColumns <= t.dtypes.Keys && t.dtypes["trading_date"] != DateTimeType
    ensures BuildStockPriceDaily(Some(t)).Err? && BuildStockPriceDaily(Some(t)).error.TradingDateNotDatetime?
  {
  }

  /** A buildable table fails only on a fractional volume among the surviving rows;
      otherwise the result has the gold columns and dtypes, one row per surviving
      row, every close and volume present. */
  lemma BuildShape(t: Table)
    requires Buildable(t)
    ensures var r := BuildStockPriceDaily(Some(t)); var d := Deduplicated(t.rows);
      (r.Err? <==> exists p :: 0 <= p < |d| && !IsWhole(d[p].volume))
      && (r.Ok? ==> r.value.dtypes == GoldDtypes && |r.value.rows| == |d|
                    && WellFormedGold(r.value))
  {
    var d := Deduplicated(t.rows);
    var g := GoldRecords(d, |d|);
    if g.Ok? {
      var out := Sort(g.value, GoldKey);
      var tt := GoldTable(out);
      forall i | 0 <= i < |tt.rows|
        ensures tt.rows[i]["close_price"].RealV? && tt.rows[i]["volume"].IntV?
        ensures tt.rows[i].Keys == GoldDtypes.Keys
      {
        assert tt.rows[i] == GoldRow(out[i]);
      }
    }
  }

  /** Every row has the eight gold columns, with a float close and an integer volume. */
  predicate WellFormedGold(t: Table) {
    forall i :: 0 <= i < |t.rows| ==>
      t.rows[i].Keys == GoldDtypes.Keys && t.rows[i]["close_price"].RealV? && t.rows[i]["volume"].IntV?
  }

  /** The rows that survive hold pairwise distinct keys, sorted ascending, and there
      are as many as there are distinct keys among the coercible rows. */
  lemma DedupUniqueSorted(rows: seq<Row>)
    ensures var d := Deduplicated(rows);
      SortedBy(d, ObsKey)
      && (forall i, j :: 0 <= i < j < |d| ==> ObsKey(d[i]) != ObsKey(d[j]))
      && |d| == |KeySet(Coerce(rows), ObsKey)|
  {
    var s := Sort(Coerce(rows), ObsKey);
    KeepLastSorted(s, ObsKey);
    KeepLastCount(s, ObsKey);
    assert KeySet(s, ObsKey) == KeySet(Coerce(rows), ObsKey) by {
      forall k ensures k in KeySet(s, ObsKey) <==> k in KeySet(Coerce(rows), ObsKey) {
        SortKeepsLast(Coerce(rows), k, ObsKey);
        if k in KeySet(s, ObsKey) {
          var j :| 0 <= j < |s| && ObsKey(s[j]) == k;
        }
        if k in KeySet(Coerce(rows), ObsKey) {
          var j :| 0 <= j < |Coerce(rows)| && ObsKey(Coerce(rows)[j]) == k;
        }
      }
    }
  }

  /** For each key among the coercible rows, the row kept is the last one in input
      order holding that key. */
  lemma DedupKeepsLastInInput(rows: seq<Row>, k: Key)
    ensures LastWithKey(Deduplicated(rows), k, ObsKey) == LastWithKey(Coerce(rows), k, ObsKey)
  {
    KeepLastSurvivor(Sort(Coerce(rows), ObsKey), k, ObsKey);
    SortKeepsLast(Coerce(rows), k, ObsKey);
  }

  // ---- features ----

  lemma {:induction false} GroupClosesEmpty(s: seq<Obs>, g: (Value, Value), n: nat)
    requires n <= |s|
    ensures GroupCloses(s, g, n) == [] <==> forall j :: 0 <= j < n ==> GroupOf(s[j]) != Some(g)
  {
    if n > 0 {
      GroupClosesEmpty(s, g, n - 1);
    }
  }

  /** In a table sorted by key the rows of a group are contiguous. */
  lemma GroupsContiguous(s: seq<Obs>, i: nat, j: nat, k: nat)
    requires SortedBy(s, ObsKey) && i < j < k < |s|
    requires GroupOf(s[i]).Some? && GroupOf(s[i]) == GroupOf(s[k])
    ensures GroupOf(s[j]) == GroupOf(s[i])
  {
    var a, b, c := ObsKey(s[i]), ObsKey(s[j]), ObsKey(s[k]);
    KeyCmpLeading(a, b);
    KeyCmpLeading(b, c);
    ValueCmpProperties(a.symbol, b.symbol);
    ValueCmpProperties(b.symbol, c.symbol);
    ValueCmpProperties(a.exchange, b.exchange);
    ValueCmpProperties(b.exchange, c.exchange);
  }

  /** The first row of a group has no daily return and both averages equal its close. */
  lemma FirstRowOfGroup(s: seq<Obs>, p: nat)
    requires p < |s| && GroupOf(s[p]).Some?
    requires forall j :: 0 <= j < p ==> GroupOf(s[j]) != GroupOf(s[p])
    ensures FeaturesAt(s, p) == Features(Null, RealV(s[p].close), RealV(s[p].close))
  {
    var g := GroupOf(s[p]).value;
    GroupClosesEmpty(s, g, p);
    var h := GroupCloses(s, g, p + 1);
    assert h == [s[p].close];
    assert Sum(h) == s[p].close by {
      assert h[..0] == [];
    }
  }

  /** In the sorted table a row starts its group exactly when the row before it is of
      another group (or it is the first row). */
  lemma GroupStartsWhereItChanges(s: seq<Obs>, p: nat)
    requires SortedBy(s, ObsKey) && p < |s| && GroupOf(s[p]).Some?
    requires p == 0 || GroupOf(s[p - 1]) != GroupOf(s[p])
    ensures FeaturesAt(s, p) == Features(Null, RealV(s[p].close), RealV(s[p].close))
  {
    forall j | 0 <= j < p ensures GroupOf(s[j]) != GroupOf(s[p]) {
      if GroupOf(s[j]) == GroupOf(s[p]) && j < p - 1 {
        GroupsContiguous(s, j, p - 1, p);
      }
    }
    FirstRowOfGroup(s, p);
  }

  lemma {:induction false} GroupClosesPrefix(s: seq<Obs>, g: (Value, Value), n: nat, m: nat)
    requires n <= m <= |s|
    ensures GroupCloses(s, g, n) <= GroupCloses(s, g, m)
    decreases m - n
  {
    if n < m {
      GroupClosesPrefix(s, g, n, m - 1);
    }
  }

  /** The rows of group `g` in the whole table, and the index of row `p` among them. */
  function GroupIndex(s: seq<Obs>, p: nat): nat
    requires p < |s| && GroupOf(s[p]).Some?
  {
    |GroupCloses(s, GroupOf(s[p]).value, p)|
  }

  /** For the row at index `i` of its group, the return compares its close with the
      group's close at index `i - 1`, and `ma_w` is the mean of the group's closes at
      indices max(0, i - w + 1) .. i. */
  lemma FeaturesByGroupIndex(s: seq<Obs>, p: nat)
    requires p < |s| && GroupOf(s[p]).Some?
    ensures var g := GroupOf(s[p]).value; var closes := GroupCloses(s, g, |s|); var i := GroupIndex(s, p);
      var f := FeaturesAt(s, p);
      i < |closes| && closes[i] == s[p].close
      && (i == 0 ==> f.dailyReturn == Null)
      && (i > 0 && closes[i - 1] != 0.0 ==> f.dailyReturn == RealV((closes[i] - closes[i - 1]) / closes[i - 1]))
      && (i > 0 && closes[i - 1] == 0.0 ==> f.dailyReturn == Null)
      && f.ma5 == RealV(Mean(closes[if i >= 4 then i - 4 else 0..i + 1]))
      && f.ma20 == RealV(Mean(closes[if i >= 19 then i - 19 else 0..i + 1]))
  {
    var g := GroupOf(s[p]).value;
    var closes := GroupCloses(s, g, |s|);
    var h := GroupCloses(s, g, p + 1);
    GroupClosesPrefix(s, g, p + 1, |s|);
    var i := GroupIndex(s, p);
    assert h == GroupCloses(s, g, p) + [s[p].close];
    assert |h| == i + 1;
    assert h == closes[..i + 1];
    assert h[if |h| > 5 then |h| - 5 else 0..] == closes[if i >= 4 then i - 4 else 0..i + 1];
    assert h[if |h| > 20 then |h| - 20 else 0..] == closes[if i >= 19 then i - 19 else 0..i + 1];
  }

  // ---- the final sort ----

  predicate TextKeys(rows: seq<Row>) {
    forall i :: 0 <= i < |rows| ==> Cell(rows[i], "symbol").TextV? && Cell(rows[i], "exchange").TextV?
  }

  /** Every kept row is the coerced form of an input row. */
  lemma DedupFromInput(rows: seq<Row>, o: Obs)
    requires o in Deduplicated(rows)
    ensures CoercedFrom(rows, o)
  {
    var s := Sort(Coerce(rows), ObsKey);
    assert o in s;
    assert o in multiset(s);
    assert o in Coerce(rows);
  }

  /** With text keys the gold records follow the order of the kept rows. */
  lemma GoldRecordsSorted(d: seq<Obs>, gs: seq<Gold>)
    requires SortedBy(d, ObsKey)
    requires forall p :: 0 <= p < |d| ==> d[p].symbol.TextV? && d[p].exchange.TextV?
    requires |gs| == |d| && forall p :: 0 <= p < |d| ==> gs[p] == ToGold(d, p)
    ensures SortedBy(gs, GoldKey)
  {
    assert forall p :: 0 <= p < |d| ==> GoldKey(gs[p]) == ObsKey(d[p]);
  }

  /** With text symbols and exchanges, `astype(str)` leaves the keys as they are, so
      the final sort finds the rows in order: row p of the result is the p-th kept
      row, with its features. */
  lemma FinalSortKeepsOrder(t: Table)
    requires Buildable(t) && TextKeys(t.rows)
    requires forall p :: 0 <= p < |Deduplicated(t.rows)| ==> IsWhole(Deduplicated(t.rows)[p].volume)
    ensures var d := Deduplicated(t.rows); var r := BuildStockPriceDaily(Some(t));
      r.Ok? && r.value.dtypes == GoldDtypes && |r.value.rows| == |d|
      && forall p :: 0 <= p < |d| ==> r.value.rows[p] == GoldRow(ToGold(d, p))
  {
    var d := Deduplicated(t.rows);
    var gs := GoldRecords(d, |d|).value;
    BuildOnRecords(t, gs);
    DedupTextKeys(t.rows);
    DedupSorted(t.rows);
    GoldRecordsSorted(d, gs);
    SortSorted(gs, GoldKey);
  }

  /** A buildable table whose records are `gs` builds the sorted `gs`. */
  lemma BuildOnRecords(t: Table, gs: seq<Gold>)
    requires Buildable(t) && GoldRecords(Deduplicated(t.rows), |Deduplicated(t.rows)|) == Ok(gs)
    ensures BuildStockPriceDaily(Some(t)) == Ok(GoldTable(Sort(gs, GoldKey)))
  {
  }

  /** Text keys in the input stay text keys in the kept rows. */
  lemma DedupTextKeys(rows: seq<Row>)
    requires TextKeys(rows)
    ensures forall p :: 0 <= p < |Deduplicated(rows)| ==>
              Deduplicated(rows)[p].symbol.TextV? && Deduplicated(rows)[p].exchange.TextV?
  {
    var d := Deduplicated(rows);
    forall p | 0 <= p < |d| ensures d[p].symbol.TextV? && d[p].exchange.TextV? {
      DedupFromInput(rows, d[p]);
      var i :| 0 <= i < |rows| && Coercible(rows[i]) && d[p] == ObsOf(rows[i]);
    }
  }

  /** The kept rows are sorted by key. */
  lemma DedupSorted(rows: seq<Row>)
    ensures SortedBy(Deduplicated(rows), ObsKey)
  {
    KeepLastSorted(Sort(Coerce(rows), ObsKey), ObsKey);
  }
}
