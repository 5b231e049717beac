/** The silver saver: the partition column chosen and renamed to `trading_date`, its
    datetime contract enforced (never coerced), its values set to midnight, then one
    parquet object per day through the partitioned writer and, last, the run's
    `_SUCCESS` marker. */
module SilverSaver {
  import opened Wrappers
  import opened Values
  import opened Tables
  import opened Storage

  /** The partition column is the first of these that the table has. */
  const PartitionCandidates: seq<string> := ["trading_date", "date", "time"]

  /** The lightweight sanity check handed to the writer. */
  const SilverRequired: seq<string> := ["trading_date", "symbol"]

  datatype SilverError =
    | NoPartitionColumn                 // ValueError
    | TradingDateNotDatetime(dtype: DType) // ValueError
    | StoreFailed(error: StoreError)    // re-raised from the writer or the marker upload

  /** The store, the name supply and the result after a save; `Ok(None)` when there
      was nothing to save. */
  datatype SilverSaved = SilverSaved(world: World, issued: nat, result: Result<Option<seq<string>>, SilverError>)

  /** The midnight of every `trading_date` cell. */
  function MidnightDates(t: Table): (cells: seq<Value>)
    ensures |cells| == |t.rows|
    ensures forall i :: 0 <= i < |t.rows| ==> cells[i] == Normalize(Cell(t.rows[i], "trading_date"))
  {
    seq(|t.rows|, i requires 0 <= i < |t.rows| => Normalize(Cell(t.rows[i], "trading_date")))
  }

  /** The table as it is handed to the writer: partition column chosen, renamed,
      checked to be datetime and normalised to midnight. */
  function Prepare(t: Table): (r: Result<Table, SilverError>)
    ensures FirstPresent(t, PartitionCandidates).None? <==> r == Err(NoPartitionColumn)
    ensures r.Ok? ==>
      var col := FirstPresent(t, PartitionCandidates).value;
      IsDatetime(t, col)
      && r.value.dtypes == (t.dtypes - {col})["trading_date" := DateTimeType]
      && |r.value.rows| == |t.rows|
      && (forall i :: 0 <= i < |t.rows| ==> "trading_date" in r.value.rows[i])
      && forall i :: 0 <= i < |t.rows| ==>
           Cell(r.value.rows[i], "trading_date") == Normalize(Cell(t.rows[i], col))
    ensures r.Err? && r != Err(NoPartitionColumn) ==>
      var col := FirstPresent(t, PartitionCandidates).value;
      !IsDatetime(t, col) && r == Err(TradingDateNotDatetime(t.dtypes[col]))
  {
    match FirstPresent(t, PartitionCandidates)
    case None => Err(NoPartitionColumn)
    case Some(col) =>
      var renamed := Rename(t, col, "trading_date");
      assert forall i :: 0 <= i < |t.rows| ==> Cell(renamed.rows[i], "trading_date") == Cell(t.rows[i], col);
      if renamed.dtypes["trading_date"] != DateTimeType then Err(TradingDateNotDatetime(renamed.dtypes["trading_date"]))
      else Ok(SetColumn(renamed, "trading_date", DateTimeType, MidnightDates(renamed)))
  }

  /** `save_silver_stock_price(df, bucket, base_path, run_date)` with the parquet
      encoder given as `encode`. */
  function SaveSilver(w: World, issued: nat, df: Option<Table>, bucket: string, basePath: string, runDate: Date,
                      encode: Table -> seq<byte>): (x: SilverSaved)
    ensures df.None? || IsEmpty(df.value) ==> x == SilverSaved(w, issued, Ok(None))
  {
    if df.None? || IsEmpty(df.value) then SilverSaved(w, issued, Ok(None))
    else
      match Prepare(df.value)
      case Err(e) => SilverSaved(w, issued, Err(e))
      case Ok(p) =>
        var up := UploadDataFrame(w, issued, Some(p), bucket, basePath, "trading_date", SilverRequired,
                                  "part-", "parquet", encode);
        if up.result.Err? then SilverSaved(up.world, up.issued, Err(StoreFailed(up.result.error)))
        else
          var marker := SuccessKey(basePath, runDate);
          var u := Upload(up.world, Location(bucket, marker), [], DefaultRetries);
          if !u.1 then SilverSaved(u.0, up.issued, Err(StoreFailed(UploadFailed(bucket, marker, DefaultRetries))))
          else SilverSaved(u.0, up.issued, Ok(Some(up.result.value + [marker])))
  }

  /** `save_silver_stock_price`: the guards and the preparation, the writer, then the
      marker. */
  method SaveSilverStockPrice(store: ObjectStore, names: NameSupply, df: Option<Table>, bucket: string,
                              basePath: string, runDate: Date, encode: Table -> seq<byte>)
    returns (r: Result<Option<seq<string>>, SilverError>)
    modifies store, names
    ensures var x := SaveSilver(old(store.State()), old(names.issued), df, bucket, basePath, runDate, encode);
      store.State() == x.world && names.issued == x.issued && r == x.result
  {
    if df.None? || IsEmpty(df.value) {
      return Ok(None);
    }
    var prepared := Prepare(df.value);
    if prepared.Err? {
      return Err(prepared.error);
    }
    var uploaded := UploadDataFrameToS3(store, names, Some(prepared.value), bucket, basePath, "trading_date",
                                        SilverRequired, "part-", "parquet", encode);
    if uploaded.Err? {
      return Err(StoreFailed(uploaded.error));
    }
    var marker := SuccessKey(basePath, runDate);
    var up := UploadBytes(store, Bytes([]), bucket, marker, DefaultRetries);
    if up.Err? {
      return Err(StoreFailed(up.error));
    }
    return Ok(Some(uploaded.value + [marker]));
  }

  // ---------------------------------------------------------------------------
  // Properties of the silver save
  // ---------------------------------------------------------------------------

  /** The preparation is idempotent: a prepared table already has its partition
      column under its final name, as datetime, at midnight. */
  lemma PrepareIdempotent(t: Table)
    requires Prepare(t).Ok?
    ensures Prepare(Prepare(t).value) == Prepare(t)
  {
    var p := Prepare(t).value;
    assert FirstPresent(p, PartitionCandidates) == Some("trading_date");
    assert Rename(p, "trading_date", "trading_date") == p;
    var q := SetColumn(p, "trading_date", DateTimeType, MidnightDates(p));
    assert q.dtypes == p.dtypes;
    forall i | 0 <= i < |p.rows| ensures q.rows[i] == p.rows[i] {
      assert Cell(p.rows[i], "trading_date") == p.rows[i]["trading_date"];
    }
    assert q.rows == p.rows;
  }

  /** Every date handed to the writer is at midnight (or null). */
  lemma PreparedAtMidnight(t: Table, i: nat)
    requires WellFormed(t) && Prepare(t).Ok? && i < |Prepare(t).value.rows|
    ensures var v := Cell(Prepare(t).value.rows[i], "trading_date");
      v.Null? || (v.DateTimeV? && v.secs == 0)
  {
    var col := FirstPresent(t, PartitionCandidates).value;
    assert Cell(Prepare(t).value.rows[i], "trading_date") == Normalize(Cell(t.rows[i], col));
  }

  /** The guards, which never write: a table without a partition candidate, and one
      whose partition column is not datetime, are errors. */
  lemma SaveSilverGuards(w: World, issued: nat, t: Table, bucket: string, basePath: string, runDate: Date,
                         encode: Table -> seq<byte>)
    requires !IsEmpty(t)
    ensures var x := SaveSilver(w, issued, Some(t), bucket, basePath, runDate, encode);
      var found := FirstPresent(t, PartitionCandidates);
      (found.None? ==> x == SilverSaved(w, issued, Err(NoPartitionColumn)))
      && (found.Some? && !IsDatetime(t, found.value) ==>
            x == SilverSaved(w, issued, Err(TradingDateNotDatetime(t.dtypes[found.value]))))
  {
  }

  /** `symbol` is required: a table that passes the guards but has no `symbol` column
      is refused by the writer before anything is written. */
  lemma SaveSilverRequiresSymbol(w: World, issued: nat, t: Table, bucket: string, basePath: string, runDate: Date,
                                 encode: Table -> seq<byte>)
    requires !IsEmpty(t) && Prepare(t).Ok? && "symbol" !in t.dtypes
    ensures SaveSilver(w, issued, Some(t), bucket, basePath, runDate, encode)
              == SilverSaved(w, issued, Err(StoreFailed(MissingRequiredColumns({"symbol"}))))
  {
    var p := Prepare(t).value;
    assert "symbol" !in p.dtypes;
    assert (set c | c in SilverRequired) - p.dtypes.Keys == {"symbol"};
  }

  /** A successful save of a non-empty table: the writer's keys, one per day of the
      prepared table, each holding that day's parquet object, then the marker as the
      last key. Every put after the writer's is a put of the marker. */
  lemma SaveSilverMarkerLast(w: World, issued: nat, t: Table, bucket: string, basePath: string, runDate: Date,
                             encode: Table -> seq<byte>)
    requires !IsEmpty(t) && SaveSilver(w, issued, Some(t), bucket, basePath, runDate, encode).result.Ok?
    ensures Prepare(t).Ok?
    ensures var p := Prepare(t).value;
      var up := UploadDataFrame(w, issued, Some(p), bucket, basePath, "trading_date", SilverRequired,
                                "part-", "parquet", encode);
      var x := SaveSilver(w, issued, Some(t), bucket, basePath, runDate, encode);
      var marker := Location(bucket, SuccessKey(basePath, runDate));
      up.result.Ok? && x.result.value == Some(up.result.value + [marker.key])
      && |up.result.value| == |PartitionDays(p, "trading_date")|
      && Get(x.world.objects, marker) == Some([])
      && |x.world.attempts| > |up.world.attempts|
      && x.world.attempts[..|up.world.attempts|] == up.world.attempts
      && forall j :: |up.world.attempts| <= j < |x.world.attempts| ==> x.world.attempts[j] == marker
  {
    var p := Prepare(t).value;
    var up := UploadDataFrame(w, issued, Some(p), bucket, basePath, "trading_date", SilverRequired,
                              "part-", "parquet", encode);
    UploadShape(up.world, Location(bucket, SuccessKey(basePath, runDate)), [], DefaultRetries);
    UploadDataFrameWrites(w, issued, p, bucket, basePath, "trading_date", SilverRequired, "part-", "parquet", encode);
  }

  /** A failure of the writer is returned as is and no marker is attempted. */
  lemma SaveSilverWriterFailure(w: World, issued: nat, t: Table, bucket: string, basePath: string, runDate: Date,
                                encode: Table -> seq<byte>)
    requires !IsEmpty(t) && Prepare(t).Ok?
    requires UploadDataFrame(w, issued, Some(Prepare(t).value), bucket, basePath, "trading_date", SilverRequired,
                             "part-", "parquet", encode).result.Err?
    ensures var up := UploadDataFrame(w, issued, Some(Prepare(t).value), bucket, basePath, "trading_date",
                                      SilverRequired, "part-", "parquet", encode);
      SaveSilver(w, issued, Some(t), bucket, basePath, runDate, encode)
        == SilverSaved(up.world, up.issued, Err(StoreFailed(up.result.error)))
  {
  }
}
