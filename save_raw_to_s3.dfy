/** The raw (bronze) saver: one JSON object per calendar day of the table's date
    column, then a `_SUCCESS` marker for the run date. Timestamps are written as
    `YYYY-MM-DD` text; the JSON encoder is a parameter. */
module RawSaver {
  import opened Wrappers
  import opened Values
  import opened Tables
  import opened Storage

  /** The date column is the first of these that the table has. */
  const DateCandidates: seq<string> := ["trading_date", "date", "time"]

  datatype RawError =
    | NoDateColumn                               // AssertionError
    | DateNotDatetime(col: string, dtype: DType) // AssertionError
    | StoreFailed(error: StoreError)             // from upload_bytes

  // ---------------------------------------------------------------------------
  // serialize_df_for_json
  // ---------------------------------------------------------------------------

  /** One cell of a column of dtype `dt`: a timestamp of a datetime column becomes its
      day text; a null stays null (`strftime` of NaT); nothing else changes. */
  function SerializeCell(dt: DType, v: Value): Value {
    if dt == DateTimeType && v.DateTimeV? then TextV(FormatDate(v.date)) else v
  }

  function SerializeType(dt: DType): DType {
    if dt == DateTimeType then ObjectType else dt
  }

  function SerializeRow(dtypes: map<string, DType>, r: Row): Row {
    map k | k in r :: if k in dtypes then SerializeCell(dtypes[k], r[k]) else r[k]
  }

  /** `serialize_df_for_json`: every datetime column formatted as day text, on a copy. */
  function SerializeForJson(t: Table): Table {
    Table(map c | c in t.dtypes :: SerializeType(t.dtypes[c]),
          seq(|t.rows|, i requires 0 <= i < |t.rows| => SerializeRow(t.dtypes, t.rows[i])))
  }

  /** The serialized table has the same columns and rows and no datetime column. A
      timestamp of a datetime column becomes its day text, a null in it stays null,
      and every other column is unchanged. */
  lemma SerializeForJsonShape(t: Table)
    ensures var r := SerializeForJson(t);
      r.dtypes.Keys == t.dtypes.Keys && |r.rows| == |t.rows|
      && (forall c :: c in r.dtypes ==> r.dtypes[c] != DateTimeType)
      && (forall i :: 0 <= i < |t.rows| ==> r.rows[i].Keys == t.rows[i].Keys)
      && (forall c :: c in t.dtypes && t.dtypes[c] != DateTimeType ==> r.dtypes[c] == t.dtypes[c])
      && (forall c, i :: c !in t.dtypes || t.dtypes[c] != DateTimeType ==>
            0 <= i < |t.rows| ==> Cell(r.rows[i], c) == Cell(t.rows[i], c))
      && (forall c, i :: IsDatetime(t, c) && 0 <= i < |t.rows| && Cell(t.rows[i], c).DateTimeV? ==>
            Cell(r.rows[i], c) == TextV(FormatDate(Cell(t.rows[i], c).date)))
      && (forall c, i :: IsDatetime(t, c) && 0 <= i < |t.rows| && !Cell(t.rows[i], c).DateTimeV? ==>
            Cell(r.rows[i], c) == Cell(t.rows[i], c))
  {
  }

  /** Serializing twice is serializing once: the first pass leaves no datetime column. */
  lemma SerializeIdempotent(t: Table)
    ensures SerializeForJson(SerializeForJson(t)) == SerializeForJson(t)
  {
    var r := SerializeForJson(t);
    var rr := SerializeForJson(r);
    SerializeForJsonShape(t);
    assert rr.dtypes == r.dtypes;
    forall i | 0 <= i < |r.rows| ensures rr.rows[i] == r.rows[i] {
      assert rr.rows[i] == SerializeRow(r.dtypes, r.rows[i]);
    }
  }

  /** The day text written for a valid timestamp reads back as that timestamp's day. */
  lemma SerializedDateReadsBack(t: Table, c: string, i: nat)
    requires IsDatetime(t, c) && i < |t.rows|
    requires Cell(t.rows[i], c).DateTimeV? && ValidDate(Cell(t.rows[i], c).date)
    ensures var v := Cell(SerializeForJson(t).rows[i], c);
      v.TextV? && ParseIsoDate(v.s) == Some(Cell(t.rows[i], c).date)
  {
    SerializeForJsonShape(t);
    IsoDateRoundTrip(Cell(t.rows[i], c).date);
  }

  // ---------------------------------------------------------------------------
  // save_raw_stock_price
  // ---------------------------------------------------------------------------

  /** `{base_path}/data_date={iso}/stock_price.json`. */
  function RawKey(basePath: string, day: string): string {
    basePath + "/data_date=" + day + "/stock_price.json"
  }

  /** The records of one day: its rows without the helper `data_date` column, serialized. */
  function RawPayload(t: Table, dateCol: string, day: string): Table {
    SerializeForJson(DropColumns(PartitionTable(t, dateCol, day), {"data_date"}))
  }

  /** The JSON bytes of each day, as the day loop uploads them. */
  function DayPayloads(t: Table, dateCol: string, encode: Table -> seq<byte>): string -> seq<byte> {
    day => encode(RawPayload(t, dateCol, day))
  }

  /** The state of the store after a save, and its result. */
  datatype RawSaved = RawSaved(world: World, result: Result<seq<string>, RawError>)

  function Then(keys: seq<string>, x: RawSaved): RawSaved {
    x.(result := if x.result.Ok? then Ok(keys + x.result.value) else x.result)
  }

  /** The day loop: one JSON object per day, in ascending day order; the first failed
      upload ends it. */
  function RawParts(w: World, bucket: string, basePath: string, days: seq<string>,
                    payload: string -> seq<byte>): (x: RawSaved)
    ensures days == [] ==> x == RawSaved(w, Ok([]))
    ensures x.result.Err? ==> x.result.error.StoreFailed? && x.result.error.error.UploadFailed?
    decreases |days|
  {
    if days == [] then RawSaved(w, Ok([]))
    else
      var key := RawKey(basePath, days[0]);
      var u := Upload(w, Location(bucket, key), payload(days[0]), DefaultRetries);
      if !u.1 then RawSaved(u.0, Err(StoreFailed(UploadFailed(bucket, key, DefaultRetries))))
      else Then([key], RawParts(u.0, bucket, basePath, days[1..], payload))
  }

  /** `save_raw_stock_price(df, bucket, base_path, run_date)`. */
  function SaveRaw(w: World, t: Table, bucket: string, basePath: string, runDate: Date,
                   encode: Table -> seq<byte>): (x: RawSaved)
    ensures IsEmpty(t) ==> x == RawSaved(w, Ok([]))
    ensures !IsEmpty(t) && FirstPresent(t, DateCandidates).None? ==> x == RawSaved(w, Err(NoDateColumn))
    ensures x.result.Err? && !x.result.error.StoreFailed? ==> x.world == w
  {
    if IsEmpty(t) then RawSaved(w, Ok([]))
    else
      match FirstPresent(t, DateCandidates)
      case None => RawSaved(w, Err(NoDateColumn))
      case Some(col) =>
        if t.dtypes[col] != DateTimeType then RawSaved(w, Err(DateNotDatetime(col, t.dtypes[col])))
        else
          var parts := RawParts(w, bucket, basePath, PartitionDays(t, col), DayPayloads(t, col, encode));
          if parts.result.Err? then parts
          else
            var marker := SuccessKey(basePath, runDate);
            var u := Upload(parts.world, Location(bucket, marker), [], DefaultRetries);
            if !u.1 then RawSaved(u.0, Err(StoreFailed(UploadFailed(bucket, marker, DefaultRetries))))
            else RawSaved(u.0, Ok(parts.result.value + [marker]))
  }

  lemma ThenThen(a: seq<string>, b: seq<string>, x: RawSaved)
    ensures Then(a, Then(b, x)) == Then(a + b, x)
  {
    if x.result.Ok? {
      assert a + (b + x.result.value) == (a + b) + x.result.value;
    }
  }

  /** The day loop of `save_raw_stock_price`. */
  method SaveDays(store: ObjectStore, bucket: string, basePath: string, days: seq<string>,
                  payload: string -> seq<byte>)
    returns (r: Result<seq<string>, RawError>)
    modifies store
    ensures var x := RawParts(old(store.State()), bucket, basePath, days, payload);
      store.State() == x.world && r == x.result
  {
    ghost var goal := RawParts(store.State(), bucket, basePath, days, payload);
    var keys: seq<string> := [];
    var rest := days;
    assert goal.result.Ok? ==> [] + goal.result.value == goal.result.value;
    while rest != []
      invariant goal == Then(keys, RawParts(store.State(), bucket, basePath, rest, payload))
      decreases |rest|
    {
      var key := RawKey(basePath, rest[0]);
      var up := UploadBytes(store, Bytes(payload(rest[0])), bucket, key, DefaultRetries);
      if up.Err? {
        return Err(StoreFailed(up.error));
      }
      ThenThen(keys, [key], RawParts(store.State(), bucket, basePath, rest[1..], payload));
      keys := keys + [key];
      rest := rest[1..];
    }
    assert keys + [] == keys;
    return Ok(keys);
  }

  /** `save_raw_stock_price`: the guards, the day loop, then the marker. */
  method SaveRawStockPrice(store: ObjectStore, t: Table, bucket: string, basePath: string, runDate: Date,
                           encode: Table -> seq<byte>)
    returns (r: Result<seq<string>, RawError>)
    modifies store
    ensures var x := SaveRaw(old(store.State()), t, bucket, basePath, runDate, encode);
      store.State() == x.world && r == x.result
  {
    if IsEmpty(t) {
      return Ok([]);
    }
    var found := FirstPresent(t, DateCandidates);
    if found.None? {
      return Err(NoDateColumn);
    }
    var col := found.value;
    if t.dtypes[col] != DateTimeType {
      return Err(DateNotDatetime(col, t.dtypes[col]));
    }
    var keys := SaveDays(store, bucket, basePath, PartitionDays(t, col), DayPayloads(t, col, encode));
    if keys.Err? {
      return keys;
    }
    var marker := SuccessKey(basePath, runDate);
    var up := UploadBytes(store, Bytes([]), bucket, marker, DefaultRetries);
    if up.Err? {
      return Err(StoreFailed(up.error));
    }
    return Ok(keys.value + [marker]);
  }

  // ---------------------------------------------------------------------------
  // Properties of the raw save
  // ---------------------------------------------------------------------------

  /** One successful step of the day loop: the first day's object is stored and the
      rest of the loop starts from the resulting state `next`. */
  lemma RawPartsUnfold(w: World, bucket: string, basePath: string, days: seq<string>,
                       payload: string -> seq<byte>)
    returns (next: World)
    requires days != []
    requires RawParts(w, bucket, basePath, days, payload).result.Ok?
    ensures var rest := RawParts(next, bucket, basePath, days[1..], payload);
      var x := RawParts(w, bucket, basePath, days, payload);
      rest.result.Ok? && x.result.value == [RawKey(basePath, days[0])] + rest.result.value && x.world == rest.world
      && next.objects == w.objects[Location(bucket, RawKey(basePath, days[0])) := payload(days[0])]
  {
    var loc := Location(bucket, RawKey(basePath, days[0]));
    UploadShape(w, loc, payload(days[0]), DefaultRetries);
    next := Upload(w, loc, payload(days[0]), DefaultRetries).0;
  }

  /** A successful day loop returns the day keys, in the order of the days. */
  lemma {:induction false} RawPartsKeys(w: World, bucket: string, basePath: string, days: seq<string>,
      payload: string -> seq<byte>)
    requires RawParts(w, bucket, basePath, days, payload).result.Ok?
    ensures var keys := RawParts(w, bucket, basePath, days, payload).result.value;
      |keys| == |days| && forall j :: 0 <= j < |days| ==> keys[j] == RawKey(basePath, days[j])
    decreases |days|
  {
    if days != [] {
      var next := RawPartsUnfold(w, bucket, basePath, days, payload);
      var rest := RawParts(next, bucket, basePath, days[1..], payload);
      RawPartsKeys(next, bucket, basePath, days[1..], payload);
      var keys := RawParts(w, bucket, basePath, days, payload).result.value;
      forall j | 0 <= j < |days| ensures keys[j] == RawKey(basePath, days[j]) {
        if j > 0 {
          assert keys[j] == rest.result.value[j - 1];
        }
      }
    }
  }

  lemma RawKeysDiffer(basePath: string, d1: string, d2: string)
    requires |d1| == 10 && |d2| == 10 && d1 != d2
    ensures RawKey(basePath, d1) != RawKey(basePath, d2)
  {
    var p := basePath + "/data_date=";
    assert RawKey(basePath, d1) == p + d1 + "/stock_price.json";
    assert RawKey(basePath, d2) == p + d2 + "/stock_price.json";
    assert RawKey(basePath, d1)[|p|..|p| + 10] == d1;
    assert RawKey(basePath, d2)[|p|..|p| + 10] == d2;
  }

  /** A day key never collides with the run marker: they part at `data_date=` against
      `run_date=`. */
  lemma RawKeyNotMarker(basePath: string, day: string, runDate: Date)
    ensures RawKey(basePath, day) != SuccessKey(basePath, runDate)
  {
    assert RawKey(basePath, day)[|basePath| + 1] == 'd';
    assert SuccessKey(basePath, runDate)[|basePath| + 1] == 'r';
  }

  /** Day keys of distinct ten-character days are distinct. */
  lemma RawKeysDistinct(keys: seq<string>, basePath: string, days: seq<string>)
    requires StrictlySorted(days) && (forall d :: d in days ==> |d| == 10) && |keys| == |days|
    requires forall j :: 0 <= j < |days| ==> keys[j] == RawKey(basePath, days[j])
    ensures forall i, j :: 0 <= i < j < |keys| ==> keys[i] != keys[j]
  {
    forall i, j | 0 <= i < j < |keys| ensures keys[i] != keys[j] {
      StrictlySortedDistinct(days, i, j);
      RawKeysDiffer(basePath, days[i], days[j]);
    }
  }

  /** A successful day loop changes no object but those at its keys. */
  lemma {:induction false} RawPartsFrame(w: World, bucket: string, basePath: string, days: seq<string>,
      payload: string -> seq<byte>)
    requires RawParts(w, bucket, basePath, days, payload).result.Ok?
    ensures var x := RawParts(w, bucket, basePath, days, payload);
      forall l: Location :: !(l.bucket == bucket && l.key in x.result.value) ==> Get(x.world.objects, l) == Get(w.objects, l)
    decreases |days|
  {
    if days != [] {
      var next := RawPartsUnfold(w, bucket, basePath, days, payload);
      var rest := RawParts(next, bucket, basePath, days[1..], payload);
      RawPartsFrame(next, bucket, basePath, days[1..], payload);
      var x := RawParts(w, bucket, basePath, days, payload);
      forall l: Location | !(l.bucket == bucket && l.key in x.result.value)
        ensures Get(x.world.objects, l) == Get(w.objects, l)
      {
        assert !(l.bucket == bucket && l.key in rest.result.value) && l != Location(bucket, RawKey(basePath, days[0]));
      }
    }
  }

  /** A successful day loop over distinct ten-character days stores each day's records
      at the day's key. */
  lemma {:induction false} RawPartsStored(w: World, bucket: string, basePath: string, days: seq<string>,
                                          payload: string -> seq<byte>)
    requires StrictlySorted(days) && forall d :: d in days ==> |d| == 10
    requires RawParts(w, bucket, basePath, days, payload).result.Ok?
    ensures var x := RawParts(w, bucket, basePath, days, payload);
      var keys := x.result.value;
      |keys| == |days|
      && forall j :: 0 <= j < |keys| ==> Get(x.world.objects, Location(bucket, keys[j])) == Some(payload(days[j]))
    decreases |days|
  {
    RawPartsKeys(w, bucket, basePath, days, payload);
    if days != [] {
      var key := RawKey(basePath, days[0]);
      var loc := Location(bucket, key);
      var next := RawPartsUnfold(w, bucket, basePath, days, payload);
      var tail := days[1..];
      DayLabelsTail(days);
      var rest := RawParts(next, bucket, basePath, tail, payload);
      RawPartsStored(next, bucket, basePath, tail, payload);
      var x := RawParts(w, bucket, basePath, days, payload);
      var keys := x.result.value;
      assert key !in rest.result.value by {
        RawKeysDistinct(keys, basePath, days);
        HeadNotInTail(keys, key, rest.result.value);
      }
      assert Get(x.world.objects, loc) == Get(next.objects, loc) by {
        RawPartsFrame(next, bucket, basePath, tail, payload);
      }
      forall j | 0 <= j < |keys|
        ensures Get(x.world.objects, Location(bucket, keys[j])) == Some(payload(days[j]))
      {
        if j > 0 {
          assert keys[j] == rest.result.value[j - 1] && days[j] == tail[j - 1];
        }
      }
    }
  }

  /** A successful raw save of a non-empty table: one key per distinct calendar day of
      the date column in ascending order, each holding that day's records, then the
      run marker as the last key, holding no bytes. */
  lemma SaveRawWrites(w: World, t: Table, bucket: string, basePath: string, runDate: Date, encode: Table -> seq<byte>)
    requires !IsEmpty(t) && SaveRaw(w, t, bucket, basePath, runDate, encode).result.Ok?
    ensures FirstPresent(t, DateCandidates).Some?
    ensures var col := FirstPresent(t, DateCandidates).value;
      var days := PartitionDays(t, col);
      var x := SaveRaw(w, t, bucket, basePath, runDate, encode);
      var keys := x.result.value;
      IsDatetime(t, col)
      && |keys| == |days| + 1 && keys[|days|] == SuccessKey(basePath, runDate)
      && Get(x.world.objects, Location(bucket, SuccessKey(basePath, runDate))) == Some([])
      && (forall j :: 0 <= j < |days| ==> keys[j] == RawKey(basePath, days[j]))
      && forall j :: 0 <= j < |days| ==> Get(x.world.objects, Location(bucket, keys[j])) == Some(DayPayloads(t, col, encode)(days[j]))
  {
    var col := FirstPresent(t, DateCandidates).value;
    var days := PartitionDays(t, col);
    var payload := DayPayloads(t, col, encode);
    var x := SaveRaw(w, t, bucket, basePath, runDate, encode);
    var parts := SaveRawSteps(w, t, bucket, basePath, runDate, encode);
    PartitionDaysAreDates(t, col);
    RawPartsKeys(w, bucket, basePath, days, payload);
    RawPartsStored(w, bucket, basePath, days, payload);
    MarkerKeepsDays(parts.world.objects, bucket, basePath, runDate, parts.result.value, days, payload);
    assert forall j :: 0 <= j < |days| ==> x.result.value[j] == parts.result.value[j];
  }

  /** Writing the marker leaves every day object in place. */
  lemma MarkerKeepsDays(objects: map<Location, seq<byte>>, bucket: string, basePath: string, runDate: Date,
                        keys: seq<string>, days: seq<string>, payload: string -> seq<byte>)
    requires |keys| == |days|
    requires forall j :: 0 <= j < |days| ==> keys[j] == RawKey(basePath, days[j])
    requires forall j :: 0 <= j < |keys| ==> Get(objects, Location(bucket, keys[j])) == Some(payload(days[j]))
    ensures forall j :: 0 <= j < |keys| ==>
      Get(objects[Location(bucket, SuccessKey(basePath, runDate)) := []], Location(bucket, keys[j])) == Some(payload(days[j]))
  {
    forall j | 0 <= j < |keys|
      ensures Get(objects[Location(bucket, SuccessKey(basePath, runDate)) := []], Location(bucket, keys[j])) == Some(payload(days[j]))
    {
      RawKeyNotMarker(basePath, days[j], runDate);
    }
  }

  /** A successful save of a non-empty table is the day loop followed by the marker
      upload. */
  lemma SaveRawSteps(w: World, t: Table, bucket: string, basePath: string, runDate: Date, encode: Table -> seq<byte>)
    returns (parts: RawSaved)
    requires !IsEmpty(t) && SaveRaw(w, t, bucket, basePath, runDate, encode).result.Ok?
    ensures FirstPresent(t, DateCandidates).Some?
    ensures var col := FirstPresent(t, DateCandidates).value;
      var x := SaveRaw(w, t, bucket, basePath, runDate, encode);
      var marker := SuccessKey(basePath, runDate);
      IsDatetime(t, col)
      && parts == RawParts(w, bucket, basePath, PartitionDays(t, col), DayPayloads(t, col, encode))
      && parts.result.Ok? && x.result.value == parts.result.value + [marker]
      && x.world.objects == parts.world.objects[Location(bucket, marker) := []]
  {
    var col := FirstPresent(t, DateCandidates).value;
    parts := RawParts(w, bucket, basePath, PartitionDays(t, col), DayPayloads(t, col, encode));
    UploadShape(parts.world, Location(bucket, SuccessKey(basePath, runDate)), [], DefaultRetries);
  }

  /** The guards, in their order, and none of them writes: an empty table saves
      nothing, a missing date column and a date column that is not datetime are
      errors. */
  lemma SaveRawGuards(w: World, t: Table, bucket: string, basePath: string, runDate: Date, encode: Table -> seq<byte>)
    ensures var x := SaveRaw(w, t, bucket, basePath, runDate, encode);
      var found := FirstPresent(t, DateCandidates);
      (!IsEmpty(t) && found.Some? && !IsDatetime(t, found.value) ==>
         x == RawSaved(w, Err(DateNotDatetime(found.value, t.dtypes[found.value]))))
      && (x.result.Ok? && !IsEmpty(t) ==> found.Some? && IsDatetime(t, found.value))
  {
  }
}
