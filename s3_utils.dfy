/** The object store and the two writers every layer uses: `upload_bytes`, a put with
    a bounded number of attempts and a pause between them, and
    `upload_dataframe_to_s3`, which writes one parquet object per calendar day of a
    datetime partition column.

    The store is a class holding the objects by (bucket, key) and an oracle that
    decides, put by put, whether the put succeeds (an exhausted oracle means every
    further put succeeds). Put attempts and pauses are counted in ghost fields. A
    pure `World` value mirrors the store's state so that the writers can be specified
    by functions and reasoned about with lemmas. */
module Storage {
  import opened Wrappers
  import opened Values
  import opened Tables

  datatype Location = Location(bucket: string, key: string)

  /** The argument handed to `upload_bytes`: bytes, or an object of another type. */
  datatype Data = Bytes(bytes: seq<byte>) | NotBytes

  datatype StoreError =
    | DataNotBytes                                        // TypeError
    | UploadFailed(bucket: string, key: string, attempts: int)  // RuntimeError
    | MissingRequiredColumns(absent: set<string>)        // ValueError
    | MissingPartitionColumn(col: string)                // ValueError
    | PartitionNotDatetime(col: string, dtype: DType)    // AssertionError
    | UnsupportedFormat(format: string)                  // ValueError

  /** The store's state as a value: objects, the outcomes still to come, every put
      attempt so far and the number of pauses taken. */
  datatype World = World(objects: map<Location, seq<byte>>, outcomes: seq<bool>,
                         attempts: seq<Location>, sleeps: nat)

  /** Whether the next put succeeds. */
  predicate Succeeds(outcomes: seq<bool>) {
    outcomes == [] || outcomes[0]
  }

  /** The outcomes left after `n` puts. */
  function Drop(outcomes: seq<bool>, n: nat): (r: seq<bool>)
    ensures n <= |outcomes| ==> r == outcomes[n..]
    ensures n >= |outcomes| ==> r == []
  {
    if n >= |outcomes| then [] else outcomes[n..]
  }

  /** One put, as the store performs it. */
  function PutWorld(w: World, loc: Location, data: seq<byte>): (r: (World, bool))
    ensures r.1 == Succeeds(w.outcomes)
    ensures r.0.objects == if r.1 then w.objects[loc := data] else w.objects
    ensures r.0.outcomes == Drop(w.outcomes, 1) && r.0.attempts == w.attempts + [loc]
    ensures r.0.sleeps == w.sleeps
  {
    var ok := Succeeds(w.outcomes);
    (World(if ok then w.objects[loc := data] else w.objects, Drop(w.outcomes, 1), w.attempts + [loc], w.sleeps), ok)
  }

  lemma DropDrop(o: seq<bool>, n: nat)
    ensures Drop(Drop(o, 1), n) == Drop(o, n + 1)
  {
  }

  /** The state after a failed put with `remaining` attempts left before it: the
      pause is taken unless that was the last attempt. */
  function AfterFailure(w: World, loc: Location, data: seq<byte>, remaining: int): World {
    var p := PutWorld(w, loc, data).0;
    if remaining > 1 then p.(sleeps := p.sleeps + 1) else p
  }

  lemma UploadStep(w: World, loc: Location, data: seq<byte>, remaining: int)
    requires remaining > 0 && !Succeeds(w.outcomes)
    ensures Upload(w, loc, data, remaining) == Upload(AfterFailure(w, loc, data, remaining), loc, data, remaining - 1)
  {
  }

  /** `upload_bytes` given `remaining` attempts: stop at the first successful put;
      after a failed put pause once, unless that was the last attempt. */
  function Upload(w: World, loc: Location, data: seq<byte>, remaining: int): (World, bool)
    decreases remaining
  {
    if remaining <= 0 then (w, false)
    else if Succeeds(w.outcomes) then PutWorld(w, loc, data)
    else Upload(AfterFailure(w, loc, data, remaining), loc, data, remaining - 1)
  }

  /** What any upload does: it appends between one and `remaining` attempts at `loc`
      (none when `remaining` is not positive), pauses once between two attempts,
      consumes one outcome per attempt, and changes the object at `loc` only, and only
      when it succeeds. */
  lemma {:induction false} UploadShape(w: World, loc: Location, data: seq<byte>, remaining: int)
    ensures var r := Upload(w, loc, data, remaining);
      var n := |r.0.attempts| - |w.attempts|;
      n >= 0 && r.0.attempts[..|w.attempts|] == w.attempts
      && (forall j :: |w.attempts| <= j < |r.0.attempts| ==> r.0.attempts[j] == loc)
      && (remaining > 0 <==> n > 0) && n <= (if remaining > 0 then remaining else 0)
      && r.0.sleeps == w.sleeps + (if n > 0 then n - 1 else 0)
      && r.0.outcomes == Drop(w.outcomes, n)
      && r.0.objects == (if r.1 then w.objects[loc := data] else w.objects)
    decreases remaining
  {
    if remaining > 0 && !Succeeds(w.outcomes) {
      var paused := AfterFailure(w, loc, data, remaining);
      UploadShape(paused, loc, data, remaining - 1);
      var r := Upload(paused, loc, data, remaining - 1);
      DropDrop(w.outcomes, |r.0.attempts| - |paused.attempts|);
      assert r.0.attempts[..|w.attempts|] == (r.0.attempts[..|paused.attempts|])[..|w.attempts|];
      assert r.0.attempts[|w.attempts|] == loc;
    }
  }

  /** If the first `k` puts fail and the next succeeds, with `k` below the attempt
      budget, the upload succeeds after exactly `k + 1` attempts and `k` pauses. */
  lemma {:induction false} UploadAfterFailures(w: World, loc: Location, data: seq<byte>, maxRetries: int, k: nat)
    requires k < maxRetries && k <= |w.outcomes|
    requires forall j :: 0 <= j < k ==> !w.outcomes[j]
    requires k == |w.outcomes| || w.outcomes[k]
    ensures var r := Upload(w, loc, data, maxRetries);
      r.1 && |r.0.attempts| == |w.attempts| + k + 1 && r.0.sleeps == w.sleeps + k
      && r.0.objects == w.objects[loc := data]
    decreases k
  {
    if k > 0 {
      assert !w.outcomes[0];
      var paused := AfterFailure(w, loc, data, maxRetries);
      assert paused.outcomes == w.outcomes[1..];
      UploadAfterFailures(paused, loc, data, maxRetries - 1, k - 1);
    }
  }

  /** If the first `maxRetries` puts all fail, exactly `maxRetries` attempts are made
      with one pause fewer, the objects are unchanged and the upload fails. */
  lemma {:induction false} UploadAllFail(w: World, loc: Location, data: seq<byte>, maxRetries: nat)
    requires 1 <= maxRetries <= |w.outcomes|
    requires forall j :: 0 <= j < maxRetries ==> !w.outcomes[j]
    ensures var r := Upload(w, loc, data, maxRetries);
      !r.1 && |r.0.attempts| == |w.attempts| + maxRetries && r.0.sleeps == w.sleeps + maxRetries - 1
      && r.0.objects == w.objects
    decreases maxRetries
  {
    assert !w.outcomes[0];
    var paused := AfterFailure(w, loc, data, maxRetries);
    assert paused.outcomes == w.outcomes[1..];
    if maxRetries > 1 {
      UploadAllFail(paused, loc, data, maxRetries - 1);
    }
  }

  /** The object store: `put_object` with success or failure decided by the oracle. */
  class ObjectStore {
    var objects: map<Location, seq<byte>>
    var outcomes: seq<bool>
    ghost var attempts: seq<Location>
    ghost var sleeps: nat

    constructor (initial: map<Location, seq<byte>>, oracle: seq<bool>)
      ensures objects == initial && outcomes == oracle && attempts == [] && sleeps == 0
    {
      objects := initial;
      outcomes := oracle;
      attempts := [];
      sleeps := 0;
    }

    ghost function State(): World
      reads this
    {
      World(objects, outcomes, attempts, sleeps)
    }

    method Put(loc: Location, data: seq<byte>) returns (ok: bool)
      modifies this
      ensures (State(), ok) == PutWorld(old(State()), loc, data)
    {
      ok := outcomes == [] || outcomes[0];
      if ok {
        objects := objects[loc := data];
      }
      outcomes := if outcomes == [] then [] else outcomes[1..];
      attempts := attempts + [loc];
    }

    /** `time.sleep(retry_sleep)`: only the count of pauses is kept. */
    method Sleep()
      modifies this
      ensures State() == old(State()).(sleeps := old(sleeps) + 1)
    {
      sleeps := sleeps + 1;
    }
  }

  /** Default attempt budget of `upload_bytes`. */
  const DefaultRetries: int := 3

  /** `upload_bytes(data, bucket, key, max_retries=maxRetries)`. */
  method UploadBytes(store: ObjectStore, data: Data, bucket: string, key: string, maxRetries: int)
    returns (r: Result<(), StoreError>)
    modifies store
    ensures data.NotBytes? ==> r == Err(DataNotBytes) && store.State() == old(store.State())
    ensures data.Bytes? ==>
      var u := Upload(old(store.State()), Location(bucket, key), data.bytes, maxRetries);
      store.State() == u.0 && (r == if u.1 then Ok(()) else Err(UploadFailed(bucket, key, maxRetries)))
  {
    if data.NotBytes? {
      return Err(DataNotBytes);
    }
    ghost var w0 := store.State();
    var loc := Location(bucket, key);
    var attempt := 0;
    while attempt < maxRetries
      invariant 0 <= attempt
      invariant Upload(w0, loc, data.bytes, maxRetries) == Upload(store.State(), loc, data.bytes, maxRetries - attempt)
      decreases maxRetries - attempt
    {
      ghost var before := store.State();
      var ok := store.Put(loc, data.bytes);
      if ok {
        assert Upload(before, loc, data.bytes, maxRetries - attempt) == (store.State(), true);
        return Ok(());
      }
      UploadStep(before, loc, data.bytes, maxRetries - attempt);
      attempt := attempt + 1;
      if attempt < maxRetries {
        store.Sleep();
      }
      assert store.State() == AfterFailure(before, loc, data.bytes, maxRetries - attempt + 1);
    }
    assert Upload(store.State(), loc, data.bytes, maxRetries - attempt) == (store.State(), false);
    return Err(UploadFailed(bucket, key, maxRetries));
  }

  // ---------------------------------------------------------------------------
  // Fresh file names
  // ---------------------------------------------------------------------------

  /** The `n`-th fresh name (`uuid.uuid4().hex` in the source). */
  function FreshName(n: nat): string {
    NatToStr(n)
  }

  lemma FreshNamesDistinct(m: nat, n: nat)
    requires m != n
    ensures FreshName(m) != FreshName(n)
  {
    NatToStrValue(m);
    NatToStrValue(n);
  }

  /** A supply of names, distinct from every name it gave before. */
  class NameSupply {
    var issued: nat

    constructor ()
      ensures issued == 0
    {
      issued := 0;
    }

    method Fresh() returns (name: string)
      modifies this
      ensures name == FreshName(old(issued)) && issued == old(issued) + 1
    {
      name := FreshName(issued);
      issued := issued + 1;
    }
  }

  // ---------------------------------------------------------------------------
  // Partitioned table upload
  // ---------------------------------------------------------------------------

  /** `{base_path}/{partition_col}={day}`. */
  function PartitionPrefix(basePath: string, col: string, day: string): string {
    basePath + "/" + col + "=" + day
  }

  function FileName(prefix: string, name: string, format: string): string {
    if format == "parquet" then prefix + name + ".parquet" else prefix + name
  }

  function PartKey(basePath: string, col: string, day: string, prefix: string, name: string, format: string): string {
    PartitionPrefix(basePath, col, day) + "/" + FileName(prefix, name, format)
  }

  /** `{base_path}/run_date={iso}/_SUCCESS`: the marker the raw and silver savers
      write after their last partition. */
  function SuccessKey(basePath: string, runDate: Date): string {
    basePath + "/run_date=" + FormatDate(runDate) + "/_SUCCESS"
  }

  /** The rows of one day group without the helper `_partition` column. */
  function PartTable(t: Table, col: string, day: string): Table {
    DropColumns(PartitionTable(t, col, day), {"_partition"})
  }

  /** The payload of a day group: that day's rows, in table order, with every column
      but the helper `_partition`. */
  lemma PartTableRows(t: Table, col: string, day: string)
    ensures var p := PartTable(t, col, day);
      p.dtypes == t.dtypes - {"_partition"} && |p.rows| == |RowsOfDay(t.rows, col, day)|
      && forall k :: 0 <= k < |p.rows| ==> p.rows[k] == RowsOfDay(t.rows, col, day)[k] - {"_partition"}
  {
  }

  /** The state of the store and of the name supply after a write, and its result. */
  datatype Written = Written(world: World, issued: nat, result: Result<seq<string>, StoreError>)

  /** Prefixes the keys already written to the result of the rest of a write. */
  function After(keys: seq<string>, x: Written): Written {
    x.(result := if x.result.Ok? then Ok(keys + x.result.value) else x.result)
  }

  /** The group loop of `upload_dataframe_to_s3`, one day after the other: a fresh
      name, the format check, the encoding and the upload. The first failure ends
      the loop. */
  function WriteParts(w: World, issued: nat, t: Table, bucket: string, basePath: string, col: string,
                      days: seq<string>, prefix: string, format: string, encode: Table -> seq<byte>): (x: Written)
    ensures format != "parquet" && days != [] ==> x == Written(w, issued + 1, Err(UnsupportedFormat(format)))
    ensures days == [] ==> x == Written(w, issued, Ok([]))
    ensures x.result.Err? ==> x.result.error.UploadFailed? || x.result.error.UnsupportedFormat?
    decreases |days|
  {
    if days == [] then Written(w, issued, Ok([]))
    else
      var key := PartKey(basePath, col, days[0], prefix, FreshName(issued), format);
      if format != "parquet" then Written(w, issued + 1, Err(UnsupportedFormat(format)))
      else
        var u := Upload(w, Location(bucket, key), encode(PartTable(t, col, days[0])), DefaultRetries);
        if !u.1 then Written(u.0, issued + 1, Err(UploadFailed(bucket, key, DefaultRetries)))
        else After([key], WriteParts(u.0, issued + 1, t, bucket, basePath, col, days[1..], prefix, format, encode))
  }

  /** `upload_dataframe_to_s3`: the guards, then the group loop over the ascending
      day strings of the partition column. */
  function UploadDataFrame(w: World, issued: nat, df: Option<Table>, bucket: string, basePath: string, col: string,
                           required: seq<string>, prefix: string, format: string, encode: Table -> seq<byte>): (x: Written)
    ensures x.result.Err? && !x.result.error.UploadFailed? && !x.result.error.UnsupportedFormat? ==>
              x.world == w && x.issued == issued
    ensures (df.None? || IsEmpty(df.value)) ==> x == Written(w, issued, Ok([]))
  {
    if df.None? || IsEmpty(df.value) then Written(w, issued, Ok([]))
    else
      var t := df.value;
      var missing := (set c | c in required) - t.dtypes.Keys;
      if required != [] && missing != {} then Written(w, issued, Err(MissingRequiredColumns(missing)))
      else if col !in t.dtypes then Written(w, issued, Err(MissingPartitionColumn(col)))
      else if t.dtypes[col] != DateTimeType then Written(w, issued, Err(PartitionNotDatetime(col, t.dtypes[col])))
      else WriteParts(w, issued, t, bucket, basePath, col, PartitionDays(t, col), prefix, format, encode)
  }

  /** `upload_dataframe_to_s3(df, bucket, base_path, partition_col, required_columns,
      filename_prefix, file_format)` with the parquet encoder given as `encode`. */
  method UploadDataFrameToS3(store: ObjectStore, names: NameSupply, df: Option<Table>, bucket: string,
                             basePath: string, col: string, required: seq<string>, prefix: string,
                             format: string, encode: Table -> seq<byte>)
    returns (r: Result<seq<string>, StoreError>)
    modifies store, names
    ensures var x := UploadDataFrame(old(store.State()), old(names.issued), df, bucket, basePath, col,
                                     required, prefix, format, encode);
      store.State() == x.world && names.issued == x.issued && r == x.result
  {
    if df.None? || IsEmpty(df.value) {
      return Ok([]);
    }
    var t := df.value;
    var missing := (set c | c in required) - t.dtypes.Keys;
    if required != [] && missing != {} {
      return Err(MissingRequiredColumns(missing));
    }
    if col !in t.dtypes {
      return Err(MissingPartitionColumn(col));
    }
    if t.dtypes[col] != DateTimeType {
      return Err(PartitionNotDatetime(col, t.dtypes[col]));
    }
    r := WriteGroups(store, names, t, bucket, basePath, col, PartitionDays(t, col), prefix, format, encode);
  }

  lemma AfterAfter(a: seq<string>, b: seq<string>, x: Written)
    ensures After(a, After(b, x)) == After(a + b, x)
  {
    if x.result.Ok? {
      assert a + (b + x.result.value) == (a + b) + x.result.value;
    }
  }

  /** The group loop of `upload_dataframe_to_s3` over the given days. */
  method WriteGroups(store: ObjectStore, names: NameSupply, t: Table, bucket: string, basePath: string,
                     col: string, days: seq<string>, prefix: string, format: string, encode: Table -> seq<byte>)
    returns (r: Result<seq<string>, StoreError>)
    modifies store, names
    ensures var x := WriteParts(old(store.State()), old(names.issued), t, bucket, basePath, col, days,
                                prefix, format, encode);
      store.State() == x.world && names.issued == x.issued && r == x.result
  {
    ghost var goal := WriteParts(store.State(), names.issued, t, bucket, basePath, col, days, prefix, format, encode);
    var keys: seq<string> := [];
    var rest := days;
    assert goal.result.Ok? ==> [] + goal.result.value == goal.result.value;
    while rest != []
      invariant goal == After(keys, WriteParts(store.State(), names.issued, t, bucket, basePath, col, rest, prefix, format, encode))
      decreases |rest|
    {
      ghost var w := store.State();
      ghost var n := names.issued;
      var name := names.Fresh();
      var key := PartKey(basePath, col, rest[0], prefix, name, format);
      if format != "parquet" {
        return Err(UnsupportedFormat(format));
      }
      var payload := encode(PartTable(t, col, rest[0]));
      var up := UploadBytes(store, Bytes(payload), bucket, key, DefaultRetries);
      if up.Err? {
        return Err(up.error);
      }
      AfterAfter(keys, [key], WriteParts(store.State(), names.issued, t, bucket, basePath, col, rest[1..], prefix, format, encode));
      keys := keys + [key];
      rest := rest[1..];
    }
    assert keys + [] == keys;
    return Ok(keys);
  }

  // ---------------------------------------------------------------------------
  // Properties of the partitioned upload
  // ---------------------------------------------------------------------------

  /** The object stored at a location, if any. */
  function Get(m: map<Location, seq<byte>>, l: Location): Option<seq<byte>> {
    if l in m then Some(m[l]) else None
  }

  /** Every partition label is a `YYYY-MM-DD` string. */
  lemma PartitionDaysAreDates(t: Table, col: string)
    ensures forall d :: d in PartitionDays(t, col) ==> |d| == 10
  {
    forall d | d in PartitionDays(t, col) ensures |d| == 10 {
      var i :| 0 <= i < |t.rows| && DayString(Cell(t.rows[i], col)) == Some(d);
    }
  }

  /** Two keys of the same layout with different day labels differ. */
  lemma PartKeysDiffer(basePath: string, col: string, d1: string, d2: string, prefix: string,
                       n1: string, n2: string, format: string)
    requires |d1| == 10 && |d2| == 10 && d1 != d2
    ensures PartKey(basePath, col, d1, prefix, n1, format) != PartKey(basePath, col, d2, prefix, n2, format)
  {
    var p := basePath + "/" + col + "=";
    var k1 := PartKey(basePath, col, d1, prefix, n1, format);
    var k2 := PartKey(basePath, col, d2, prefix, n2, format);
    assert k1 == p + d1 + ("/" + FileName(prefix, n1, format));
    assert k2 == p + d2 + ("/" + FileName(prefix, n2, format));
    assert k1[|p|..|p| + 10] == d1;
    assert k2[|p|..|p| + 10] == d2;
  }

  /** `keys` are the keys of `days`, in order, each with the next fresh name from
      `issued` on. */
  predicate NamedInOrder(keys: seq<string>, days: seq<string>, basePath: string, col: string, prefix: string,
                         format: string, issued: nat) {
    |keys| == |days|
    && forall j :: 0 <= j < |days| ==> keys[j] == PartKey(basePath, col, days[j], prefix, FreshName(issued + j), format)
  }

  /** A successful group loop returns one key per day, in the order of the days, each
      with the next fresh name. */
  lemma {:induction false} WritePartsKeys(w: World, issued: nat, t: Table, bucket: string, basePath: string,
                                          col: string, days: seq<string>, prefix: string, format: string,
                                          encode: Table -> seq<byte>)
    requires WriteParts(w, issued, t, bucket, basePath, col, days, prefix, format, encode).result.Ok?
    ensures var x := WriteParts(w, issued, t, bucket, basePath, col, days, prefix, format, encode);
      x.issued == issued + |days| && NamedInOrder(x.result.value, days, basePath, col, prefix, format, issued)
    decreases |days|
  {
    if days != [] {
      var next := WritePartsUnfold(w, issued, t, bucket, basePath, col, days, prefix, format, encode);
      var rest := WriteParts(next, issued + 1, t, bucket, basePath, col, days[1..], prefix, format, encode);
      WritePartsKeys(next, issued + 1, t, bucket, basePath, col, days[1..], prefix, format, encode);
      KeysCons(WriteParts(w, issued, t, bucket, basePath, col, days, prefix, format, encode).result.value,
               rest.result.value, days, basePath, col, prefix, format, issued);
    }
  }

  /** The key of the first day in front of the keys of the others, named from the
      next fresh name on. */
  lemma KeysCons(keys: seq<string>, rest: seq<string>, days: seq<string>, basePath: string, col: string,
                 prefix: string, format: string, issued: nat)
    requires days != [] && keys == [PartKey(basePath, col, days[0], prefix, FreshName(issued), format)] + rest
    requires NamedInOrder(rest, days[1..], basePath, col, prefix, format, issued + 1)
    ensures NamedInOrder(keys, days, basePath, col, prefix, format, issued)
  {
    forall j | 0 <= j < |days|
      ensures keys[j] == PartKey(basePath, col, days[j], prefix, FreshName(issued + j), format)
    {
      if j > 0 {
        assert keys[j] == rest[j - 1] && days[1..][j - 1] == days[j];
      }
    }
  }

  /** Keys built from distinct day labels are distinct. */
  lemma DistinctDayKeys(keys: seq<string>, days: seq<string>, basePath: string, col: string, prefix: string,
                        format: string, issued: nat)
    requires StrictlySorted(days) && (forall d :: d in days ==> |d| == 10)
    requires NamedInOrder(keys, days, basePath, col, prefix, format, issued)
    ensures forall i, j :: 0 <= i < j < |keys| ==> keys[i] != keys[j]
  {
    forall i, j | 0 <= i < j < |keys| ensures keys[i] != keys[j] {
      StrCmpEqual(days[i], days[j]);
      PartKeysDiffer(basePath, col, days[i], days[j], prefix, FreshName(issued + i), FreshName(issued + j), format);
    }
  }

  /** Dropping the first of strictly ascending ten-character day labels keeps both facts. */
  lemma DayLabelsTail(days: seq<string>)
    requires days != []
    requires StrictlySorted(days) && forall d :: d in days ==> |d| == 10
    ensures StrictlySorted(days[1..]) && forall d :: d in days[1..] ==> |d| == 10
  {
    var tail := days[1..];
    assert forall d :: d in tail ==> d in days;
    forall i, j | 0 <= i < j < |tail| ensures StrCmp(tail[i], tail[j]) < 0 {
      assert tail[i] == days[i + 1] && tail[j] == days[j + 1];
    }
  }

  /** The head of a sequence without repetitions does not occur in its tail. */
  lemma HeadNotInTail<T>(s: seq<T>, head: T, tail: seq<T>)
    requires s == [head] + tail
    requires forall i, j :: 0 <= i < j < |s| ==> s[i] != s[j]
    ensures head !in tail
  {
    forall j | 0 <= j < |tail| ensures tail[j] != head {
      assert tail[j] == s[j + 1] && head == s[0];
    }
  }

  /** A successful group loop changes no object outside its keys. */
  lemma {:induction false} WritePartsFrame(w: World, issued: nat, t: Table, bucket: string, basePath: string,
                                           col: string, days: seq<string>, prefix: string, format: string,
                                           encode: Table -> seq<byte>)
    requires WriteParts(w, issued, t, bucket, basePath, col, days, prefix, format, encode).result.Ok?
    ensures var x := WriteParts(w, issued, t, bucket, basePath, col, days, prefix, format, encode);
      forall l: Location :: !(l.bucket == bucket && l.key in x.result.value) ==> Get(x.world.objects, l) == Get(w.objects, l)
    decreases |days|
  {
    if days != [] {
      var key := PartKey(basePath, col, days[0], prefix, FreshName(issued), format);
      var next := WritePartsUnfold(w, issued, t, bucket, basePath, col, days, prefix, format, encode);
      var rest := WriteParts(next, issued + 1, t, bucket, basePath, col, days[1..], prefix, format, encode);
      WritePartsFrame(next, issued + 1, t, bucket, basePath, col, days[1..], prefix, format, encode);
      var x := WriteParts(w, issued, t, bucket, basePath, col, days, prefix, format, encode);
      forall l: Location | !(l.bucket == bucket && l.key in x.result.value)
        ensures Get(x.world.objects, l) == Get(w.objects, l)
      {
        assert !(l.bucket == bucket && l.key in rest.result.value) && l != Location(bucket, key);
      }
    }
  }

  /** A successful group loop stores the encoded rows of each day at the day's key. */
  lemma {:induction false} WritePartsStored(w: World, issued: nat, t: Table, bucket: string, basePath: string,
                                            col: string, days: seq<string>, prefix: string, format: string,
                                            encode: Table -> seq<byte>)
    requires StrictlySorted(days) && forall d :: d in days ==> |d| == 10
    requires WriteParts(w, issued, t, bucket, basePath, col, days, prefix, format, encode).result.Ok?
    ensures var x := WriteParts(w, issued, t, bucket, basePath, col, days, prefix, format, encode);
      StoredInOrder(x.world.objects, bucket, x.result.value, days, t, col, encode)
    decreases |days|
  {
    WritePartsKeys(w, issued, t, bucket, basePath, col, days, prefix, format, encode);
    if days != [] {
      var key := PartKey(basePath, col, days[0], prefix, FreshName(issued), format);
      var loc := Location(bucket, key);
      var next := WritePartsUnfold(w, issued, t, bucket, basePath, col, days, prefix, format, encode);
      var tail := days[1..];
      DayLabelsTail(days);
      var rest := WriteParts(next, issued + 1, t, bucket, basePath, col, tail, prefix, format, encode);
      WritePartsStored(next, issued + 1, t, bucket, basePath, col, tail, prefix, format, encode);
      var x := WriteParts(w, issued, t, bucket, basePath, col, days, prefix, format, encode);
      var keys := x.result.value;
      assert key !in rest.result.value by {
        DistinctDayKeys(keys, days, basePath, col, prefix, format, issued);
        HeadNotInTail(keys, key, rest.result.value);
      }
      assert Get(x.world.objects, loc) == Get(next.objects, loc) by {
        WritePartsFrame(next, issued + 1, t, bucket, basePath, col, tail, prefix, format, encode);
      }
      StoredCons(x.world.objects, bucket, keys, rest.result.value, days, t, col, encode);
    }
  }

  /** The object of each day is stored at that day's key. */
  predicate StoredInOrder(objects: map<Location, seq<byte>>, bucket: string, keys: seq<string>, days: seq<string>,
                          t: Table, col: string, encode: Table -> seq<byte>) {
    |keys| == |days|
    && forall j :: 0 <= j < |keys| ==> Get(objects, Location(bucket, keys[j])) == Some(encode(PartTable(t, col, days[j])))
  }

  /** The first day's object in front of the others'. */
  lemma StoredCons(objects: map<Location, seq<byte>>, bucket: string, keys: seq<string>, rest: seq<string>,
                   days: seq<string>, t: Table, col: string, encode: Table -> seq<byte>)
    requires days != [] && keys != [] && keys[1..] == rest
    requires Get(objects, Location(bucket, keys[0])) == Some(encode(PartTable(t, col, days[0])))
    requires StoredInOrder(objects, bucket, rest, days[1..], t, col, encode)
    ensures StoredInOrder(objects, bucket, keys, days, t, col, encode)
  {
    forall j | 0 <= j < |keys|
      ensures Get(objects, Location(bucket, keys[j])) == Some(encode(PartTable(t, col, days[j])))
    {
      if j > 0 {
        assert keys[j] == rest[j - 1] && days[j] == days[1..][j - 1];
      }
    }
  }

  /** One successful step of the group loop: the first day's object is stored and the
      rest of the loop starts from the resulting state `next`. */
  lemma WritePartsUnfold(w: World, issued: nat, t: Table, bucket: string, basePath: string,
                         col: string, days: seq<string>, prefix: string, format: string,
                         encode: Table -> seq<byte>)
    returns (next: World)
    requires days != []
    requires WriteParts(w, issued, t, bucket, basePath, col, days, prefix, format, encode).result.Ok?
    ensures var key := PartKey(basePath, col, days[0], prefix, FreshName(issued), format);
      var rest := WriteParts(next, issued + 1, t, bucket, basePath, col, days[1..], prefix, format, encode);
      var x := WriteParts(w, issued, t, bucket, basePath, col, days, prefix, format, encode);
      rest.result.Ok? && x.result.value == [key] + rest.result.value && x.world == rest.world
      && x.issued == rest.issued
      && next.objects == w.objects[Location(bucket, key) := encode(PartTable(t, col, days[0]))]
  {
    var key := PartKey(basePath, col, days[0], prefix, FreshName(issued), format);
    var loc := Location(bucket, key);
    var payload := encode(PartTable(t, col, days[0]));
    UploadShape(w, loc, payload, DefaultRetries);
    next := Upload(w, loc, payload, DefaultRetries).0;
  }

  /** The whole upload on a table that passes the guards: one object per distinct day
      label of the partition column, in ascending label order, and nothing else
      written. */
  lemma UploadDataFrameWrites(w: World, issued: nat, t: Table, bucket: string, basePath: string, col: string,
                              required: seq<string>, prefix: string, format: string, encode: Table -> seq<byte>)
    requires UploadDataFrame(w, issued, Some(t), bucket, basePath, col, required, prefix, format, encode).result.Ok?
    requires !IsEmpty(t)
    ensures var x := UploadDataFrame(w, issued, Some(t), bucket, basePath, col, required, prefix, format, encode);
      var keys := x.result.value;
      var days := PartitionDays(t, col);
      |keys| == |days| && x.issued == issued + |days|
      && (forall j :: 0 <= j < |days| ==> keys[j] == PartKey(basePath, col, days[j], prefix, FreshName(issued + j), format)
                                          && |PartitionTable(t, col, days[j]).rows| > 0)
      && (forall i, j :: 0 <= i < j < |keys| ==> keys[i] != keys[j])
      && (forall j :: 0 <= j < |keys| ==> Get(x.world.objects, Location(bucket, keys[j])) == Some(encode(PartTable(t, col, days[j]))))
      && (forall l: Location :: !(l.bucket == bucket && l.key in keys) ==> Get(x.world.objects, l) == Get(w.objects, l))
  {
    var days := PartitionDays(t, col);
    var x := UploadDataFrame(w, issued, Some(t), bucket, basePath, col, required, prefix, format, encode);
    assert x == WriteParts(w, issued, t, bucket, basePath, col, days, prefix, format, encode);
    PartitionDaysAreDates(t, col);
    WritePartsKeys(w, issued, t, bucket, basePath, col, days, prefix, format, encode);
    WritePartsStored(w, issued, t, bucket, basePath, col, days, prefix, format, encode);
    WritePartsFrame(w, issued, t, bucket, basePath, col, days, prefix, format, encode);
    DistinctDayKeys(x.result.value, days, basePath, col, prefix, format, issued);
    forall j | 0 <= j < |days| ensures |PartitionTable(t, col, days[j]).rows| > 0 {
      PartitionNonEmpty(t, col, days[j]);
    }
  }

  /** The guards in their order: missing required columns, then a missing partition
      column, then a partition column that is not datetime, which never uploads.
      Each guard's error leaves the store and the name supply as they were. */
  lemma UploadDataFrameGuards(w: World, issued: nat, t: Table, bucket: string, basePath: string, col: string,
                              required: seq<string>, prefix: string, format: string, encode: Table -> seq<byte>)
    requires !IsEmpty(t)
    ensures var x := UploadDataFrame(w, issued, Some(t), bucket, basePath, col, required, prefix, format, encode);
      var missing := (set c | c in required) - t.dtypes.Keys;
      (required != [] && missing != {} ==> x == Written(w, issued, Err(MissingRequiredColumns(missing))))
      && (missing == {} && col !in t.dtypes ==> x == Written(w, issued, Err(MissingPartitionColumn(col))))
      && (missing == {} && col in t.dtypes && t.dtypes[col] != DateTimeType ==>
            x == Written(w, issued, Err(PartitionNotDatetime(col, t.dtypes[col]))))
      && (col in t.dtypes && t.dtypes[col] != DateTimeType ==> x.result.Err? && x.world == w && x.issued == issued)
  {
  }
}
