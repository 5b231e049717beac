/** The gold saver: the partition column checked, then the partitioned writer with the
    gold table's core columns required. Unlike the raw and silver savers it writes no
    `_SUCCESS` marker. */
module GoldSaver {
  import opened Wrappers
  import opened Values
  import opened Tables
  import opened Storage

  const GoldBasePath: string := "gold/stock_price_daily"
  const GoldPartition: string := "trading_date"

  /** Checked by the writer before any upload. */
  const GoldRequired: seq<string> := ["symbol", "trading_date", "close_price", "volume"]

  datatype GoldError =
    | PartitionColumnNotFound(col: string) // ValueError
    | StoreFailed(error: StoreError)       // from the writer

  datatype GoldSaved = GoldSaved(world: World, issued: nat, result: Result<Option<seq<string>>, GoldError>)

  /** `save_gold_stock_price_daily(df, bucket, base_path, partition_col)` with the
      parquet encoder given as `encode`. */
  function SaveGold(w: World, issued: nat, df: Option<Table>, bucket: string, basePath: string, col: string,
                    encode: Table -> seq<byte>): (x: GoldSaved)
    ensures df.None? || IsEmpty(df.value) ==> x == GoldSaved(w, issued, Ok(None))
    ensures df.Some? && !IsEmpty(df.value) && col !in df.value.dtypes ==>
              x == GoldSaved(w, issued, Err(PartitionColumnNotFound(col)))
  {
    if df.None? || IsEmpty(df.value) then GoldSaved(w, issued, Ok(None))
    else if col !in df.value.dtypes then GoldSaved(w, issued, Err(PartitionColumnNotFound(col)))
    else
      var up := UploadDataFrame(w, issued, df, bucket, basePath, col, GoldRequired, "part-", "parquet", encode);
      GoldSaved(up.world, up.issued, if up.result.Ok? then Ok(Some(up.result.value)) else Err(StoreFailed(up.result.error)))
  }

  /** `save_gold_stock_price_daily`: the guards, then one call of the writer on the
      same store. */
  method SaveGoldStockPriceDaily(store: ObjectStore, names: NameSupply, df: Option<Table>, bucket: string,
                                 basePath: string, col: string, encode: Table -> seq<byte>)
    returns (r: Result<Option<seq<string>>, GoldError>)
    modifies store, names
    ensures var x := SaveGold(old(store.State()), old(names.issued), df, bucket, basePath, col, encode);
      store.State() == x.world && names.issued == x.issued && r == x.result
  {
    if df.None? || IsEmpty(df.value) {
      return Ok(None);
    }
    if col !in df.value.dtypes {
      return Err(PartitionColumnNotFound(col));
    }
    var uploaded := UploadDataFrameToS3(store, names, df, bucket, basePath, col, GoldRequired, "part-", "parquet", encode);
    if uploaded.Err? {
      return Err(StoreFailed(uploaded.error));
    }
    return Ok(Some(uploaded.value));
  }

  // ---------------------------------------------------------------------------
  // Properties of the gold save
  // ---------------------------------------------------------------------------

  /** The result is the writer's key list and the store is as the writer left it:
      one parquet object per day, and no marker or other put after them. */
  lemma SaveGoldIsWriter(w: World, issued: nat, t: Table, bucket: string, basePath: string, col: string,
                         encode: Table -> seq<byte>)
    requires !IsEmpty(t) && SaveGold(w, issued, Some(t), bucket, basePath, col, encode).result.Ok?
    ensures var up := UploadDataFrame(w, issued, Some(t), bucket, basePath, col, GoldRequired, "part-", "parquet", encode);
      var x := SaveGold(w, issued, Some(t), bucket, basePath, col, encode);
      up.result.Ok? && x.result.value == Some(up.result.value) && x.world == up.world
      && |up.result.value| == |PartitionDays(t, col)|
      && forall j :: 0 <= j < |up.result.value| ==>
           Get(x.world.objects, Location(bucket, up.result.value[j])) == Some(encode(PartTable(t, col, PartitionDays(t, col)[j])))
  {
    UploadDataFrameWrites(w, issued, t, bucket, basePath, col, GoldRequired, "part-", "parquet", encode);
  }

  /** A gold table lacking any of the core columns is refused before anything is
      written, with exactly the absent ones named. */
  lemma SaveGoldRequiresCore(w: World, issued: nat, t: Table, bucket: string, basePath: string, col: string,
                             encode: Table -> seq<byte>)
    requires !IsEmpty(t) && col in t.dtypes
    requires (set c | c in GoldRequired) - t.dtypes.Keys != {}
    ensures SaveGold(w, issued, Some(t), bucket, basePath, col, encode)
              == GoldSaved(w, issued, Err(StoreFailed(MissingRequiredColumns((set c | c in GoldRequired) - t.dtypes.Keys))))
  {
  }
}
