/** The generic contract engine: checks a table against a declarative contract
    (columns with type and nullability, partition columns, primary key, not-null and
    non-negative quality lists). In strict mode the first violation raises; in
    permissive mode every violation is logged and checking goes on. */
module SchemaValidator {
  import opened Wrappers
  import opened Values
  import opened Tables

  /** One entry of the contract's `columns` mapping; `kind` is the declared `type`
      (absent when the entry has none) and `nullable` defaults to true when loading. */
  datatype ColumnRule = ColumnRule(name: string, kind: Option<string>, nullable: bool)

  datatype Contract = Contract(
    columns: seq<ColumnRule>,
    partitionBy: seq<string>,
    primaryKey: seq<string>,
    notNull: seq<string>,
    positiveValues: seq<string>)

  datatype Violation =
    | EmptyTable
    | MissingColumns(cols: set<string>)
    | MissingPartitionColumn(col: string)
    | NullInNonNullable(col: string)
    | NotStringLike(col: string)
    | NotFloatLike(col: string)
    | NotIntegerValued(col: string)
    | DateNotDatetime(col: string, dtype: DType)
    | DateNotMidnight(col: string)
    | TimestampNotDatetime(col: string, dtype: DType)
    | UnknownType(col: string, kind: Option<string>)
    | PrimaryKeyNull(col: string)
    | DuplicatePrimaryKey(key: seq<string>)
    | QualityNull(col: string)
    | QualityNegative(col: string)

  /** Exceptions the checks themselves raise, outside the raise-or-log policy: the
      duplicate test on a primary key naming an absent column (KeyError), and `< 0`
      on a column holding text or timestamps (TypeError). */
  datatype Crash =
    | PrimaryKeyColumnsMissing(absent: set<string>)
    | NonNumericComparison(col: string)

  /** What one call ends with: it returns having logged `warnings`, it raises a
      ValueError for `violation`, or a check crashes after logging `warnings`. */
  datatype Outcome =
    | Passed(warnings: seq<Violation>)
    | Raised(violation: Violation)
    | Crashed(crash: Crash, warnings: seq<Violation>)

  /** The violations found, in the order the checks run, and the crash that ended
      them, if any. */
  datatype Report = Report(violations: seq<Violation>, crash: Option<Crash>)

  // ---------------------------------------------------------------------------
  // `_handle` and `_is_integer_valued`
  // ---------------------------------------------------------------------------

  datatype Effect = Raise(violation: Violation) | Warn(violation: Violation)

  /** `_handle`: raise in strict mode, log otherwise. */
  function Handle(v: Violation, strict: bool): (e: Effect)
    ensures e.Raise? <==> strict
    ensures e.violation == v
  {
    if strict then Raise(v) else Warn(v)
  }

  /** A non-null value that `to_numeric` reads as a number with no fractional part. */
  predicate IsWholeNumber(v: Value) {
    NumericOf(v).Some? && IsWhole(NumericOf(v).value)
  }

  /** `_is_integer_valued` on column `c` of dtype `dt`: the non-null values are
      absent, or the dtype is an integer one, or (datetime64) converts to integer
      nanoseconds, or every non-null value is a whole number. */
  predicate IsIntegerValued(t: Table, c: string, dt: DType) {
    (forall i :: 0 <= i < |t.rows| ==> Cell(t.rows[i], c) == Null)
    || dt == IntType
    || dt == DateTimeType
    || (forall i :: 0 <= i < |t.rows| && Cell(t.rows[i], c) != Null ==> IsWholeNumber(Cell(t.rows[i], c)))
  }

  // ---------------------------------------------------------------------------
  // The single checks
  // ---------------------------------------------------------------------------

  function RuleNames(rules: seq<ColumnRule>): set<string> {
    set r | r in rules :: r.name
  }

  function MissingColumnsCheck(t: Table, c: Contract): seq<Violation> {
    var missing := RuleNames(c.columns) - t.dtypes.Keys;
    if missing != {} then [MissingColumns(missing)] else []
  }

  function PartitionCheck(t: Table, p: string): seq<Violation> {
    if p in t.dtypes then [] else [MissingPartitionColumn(p)]
  }

  function NullabilityCheck(t: Table, rule: ColumnRule): seq<Violation> {
    if rule.name in t.dtypes && !rule.nullable && HasNull(t, rule.name)
    then [NullInNonNullable(rule.name)] else []
  }

  predicate AllMidnight(t: Table, c: string) {
    forall i :: 0 <= i < |t.rows| && Cell(t.rows[i], c).DateTimeV? ==> Cell(t.rows[i], c).secs == 0
  }

  /** The tolerant type rule for one present column. */
  function TypeCheck(t: Table, rule: ColumnRule): seq<Violation> {
    if rule.name !in t.dtypes then []
    else
      var col, dt := rule.name, t.dtypes[rule.name];
      if rule.kind == Some("string") then
        (if dt == ObjectType then [] else [NotStringLike(col)])
      else if rule.kind == Some("float") then
        (if dt == FloatType || dt == IntType then [] else [NotFloatLike(col)])
      else if rule.kind == Some("int") || rule.kind == Some("bigint") then
        (if IsIntegerValued(t, col, dt) then [] else [NotIntegerValued(col)])
      else if rule.kind == Some("date") then
        (if dt != DateTimeType then [DateNotDatetime(col, dt)]
         else if AllMidnight(t, col) then [] else [DateNotMidnight(col)])
      else if rule.kind == Some("timestamp") then
        (if dt == DateTimeType then [] else [TimestampNotDatetime(col, dt)])
      else [UnknownType(col, rule.kind)]
  }

  function PrimaryKeyNullCheck(t: Table, col: string): seq<Violation> {
    if col in t.dtypes && HasNull(t, col) then [PrimaryKeyNull(col)] else []
  }

  function KeyOf(r: Row, cols: seq<string>): (k: seq<Value>)
    ensures |k| == |cols| && forall j :: 0 <= j < |cols| ==> k[j] == Cell(r, cols[j])
  {
    seq(|cols|, j requires 0 <= j < |cols| => Cell(r, cols[j]))
  }

  /** `df.duplicated(subset=cols).any()`: two rows agree on every key column (nulls
      compare equal here). */
  predicate HasDuplicateKey(t: Table, cols: seq<string>) {
    exists i, j :: 0 <= i < j < |t.rows| && KeyOf(t.rows[i], cols) == KeyOf(t.rows[j], cols)
  }

  function AbsentKeyColumns(t: Table, cols: seq<string>): set<string> {
    set k | k in cols && k !in t.dtypes
  }

  function NotNullCheck(t: Table, col: string): seq<Violation> {
    if col in t.dtypes && HasNull(t, col) then [QualityNull(col)] else []
  }

  predicate IsNumber(v: Value) {
    v.IntV? || v.RealV?
  }

  predicate IsNegative(v: Value) {
    (v.IntV? && v.i < 0) || (v.RealV? && v.r < 0.0)
  }

  /** `(df[col].dropna() < 0).any()` for one column: a datetime64 column, or a
      non-null value that is not a number, makes the comparison raise. */
  function PositiveCheck(t: Table, col: string): Result<seq<Violation>, Crash> {
    if col !in t.dtypes then Ok([])
    else if t.dtypes[col] == DateTimeType
         || exists i :: 0 <= i < |t.rows| && Cell(t.rows[i], col) != Null && !IsNumber(Cell(t.rows[i], col))
    then Err(NonNumericComparison(col))
    else if exists i :: 0 <= i < |t.rows| && IsNegative(Cell(t.rows[i], col))
    then Ok([QualityNegative(col)])
    else Ok([])
  }

  // ---------------------------------------------------------------------------
  // The report, check by check in the order the engine runs them
  // ---------------------------------------------------------------------------

  function Prepend(vs: seq<Violation>, r: Report): Report {
    Report(vs + r.violations, r.crash)
  }

  lemma PrependAssoc(a: seq<Violation>, b: seq<Violation>, r: Report)
    ensures Prepend(a, Prepend(b, r)) == Prepend(a + b, r)
  {
    assert a + (b + r.violations) == (a + b) + r.violations;
  }

  function FromPositive(t: Table, c: Contract, i: nat): Report
    requires i <= |c.positiveValues|
    decreases |c.positiveValues| - i
  {
    if i == |c.positiveValues| then Report([], None)
    else match PositiveCheck(t, c.positiveValues[i])
      case Err(e) => Report([], Some(e))
      case Ok(vs) => Prepend(vs, FromPositive(t, c, i + 1))
  }

  function FromNotNull(t: Table, c: Contract, i: nat): Report
    requires i <= |c.notNull|
    decreases |c.notNull| - i
  {
    if i == |c.notNull| then FromPositive(t, c, 0)
    else Prepend(NotNullCheck(t, c.notNull[i]), FromNotNull(t, c, i + 1))
  }

  function DuplicateCheck(t: Table, c: Contract): seq<Violation> {
    if HasDuplicateKey(t, c.primaryKey) then [DuplicatePrimaryKey(c.primaryKey)] else []
  }

  function FromPrimaryKey(t: Table, c: Contract, i: nat): Report
    requires i <= |c.primaryKey|
    decreases |c.primaryKey| - i
  {
    if i == |c.primaryKey| then
      var absent := AbsentKeyColumns(t, c.primaryKey);
      if absent != {} then Report([], Some(PrimaryKeyColumnsMissing(absent)))
      else Prepend(DuplicateCheck(t, c), FromNotNull(t, c, 0))
    else Prepend(PrimaryKeyNullCheck(t, c.primaryKey[i]), FromPrimaryKey(t, c, i + 1))
  }

  function FromColumns(t: Table, c: Contract, i: nat): Report
    requires i <= |c.columns|
    decreases |c.columns| - i
  {
    if i == |c.columns| then
      (if c.primaryKey == [] then FromNotNull(t, c, 0) else FromPrimaryKey(t, c, 0))
    else
      Prepend(NullabilityCheck(t, c.columns[i]) + TypeCheck(t, c.columns[i]), FromColumns(t, c, i + 1))
  }

  function FromPartitions(t: Table, c: Contract, i: nat): Report
    requires i <= |c.partitionBy|
    decreases |c.partitionBy| - i
  {
    if i == |c.partitionBy| then FromColumns(t, c, 0)
    else Prepend(PartitionCheck(t, c.partitionBy[i]), FromPartitions(t, c, i + 1))
  }

  /** Every check on a non-empty table, in order. */
  function Check(t: Table, c: Contract): Report {
    Prepend(MissingColumnsCheck(t, c), FromPartitions(t, c, 0))
  }

  /** What the policy makes of a report: strict raises the first violation (a crash
      with no violation before it propagates as is); permissive logs them all. */
  function Decide(r: Report, strict: bool): Outcome {
    if strict then
      if |r.violations| > 0 then Raised(r.violations[0])
      else if r.crash.Some? then Crashed(r.crash.value, [])
      else Passed([])
    else if r.crash.Some? then Crashed(r.crash.value, r.violations)
    else Passed(r.violations)
  }

  /** The outcome of validating `df` (None for an absent table). An empty or absent
      table is one violation and nothing else is checked. */
  function Expected(df: Option<Table>, c: Contract, strict: bool): Outcome {
    if df.None? || IsEmpty(df.value) then Decide(Report([EmptyTable], None), strict)
    else Decide(Check(df.value, c), strict)
  }

  // ---------------------------------------------------------------------------
  // The engine
  // ---------------------------------------------------------------------------

  /** The checks still to run produce `rest`, and what has been logged so far
      followed by `rest` is the whole report; strict mode has logged nothing. */
  predicate Pending(t: Table, c: Contract, strict: bool, log: seq<Violation>, rest: Report) {
    Check(t, c) == Prepend(log, rest) && (strict ==> log == [])
  }

  /** Strict mode stops at the first violation, which is the report's first. */
  lemma StopsAtFirst(t: Table, c: Contract, log: seq<Violation>, v: Violation, more: seq<Violation>, rest: Report)
    requires Pending(t, c, true, log, Prepend([v] + more, rest))
    ensures Decide(Check(t, c), true) == Raised(v)
  {
  }

  /** Logging `found` moves it from the pending part to the log. */
  lemma Logged(t: Table, c: Contract, strict: bool, log: seq<Violation>, found: seq<Violation>, rest: Report)
    requires Pending(t, c, strict, log, Prepend(found, rest))
    requires strict ==> found == []
    ensures Pending(t, c, strict, log + found, rest)
  {
    PrependAssoc(log, found, rest);
  }

  /** Handles the violations of one check (none, or exactly one): a strict stop, or
      the log extended with them. */
  method Report1(t: Table, c: Contract, strict: bool, log0: seq<Violation>, found: seq<Violation>, rest: Report)
    returns (log: seq<Violation>, stop: Option<Outcome>)
    requires |found| <= 1
    requires Pending(t, c, strict, log0, Prepend(found, rest))
    ensures stop.Some? ==> stop.value == Decide(Check(t, c), strict)
    ensures stop.None? ==> Pending(t, c, strict, log, rest)
  {
    if found != [] {
      var e := Handle(found[0], strict);
      if e.Raise? {
        StopsAtFirst(t, c, log0, e.violation, [], rest);
        return log0, Some(Raised(e.violation));
      }
      assert found == [e.violation];
    }
    Logged(t, c, strict, log0, found, rest);
    return log0 + found, None;
  }

  /** Step 1.b: every partition column must be present. */
  method CheckPartitions(t: Table, c: Contract, strict: bool, log0: seq<Violation>)
    returns (log: seq<Violation>, stop: Option<Outcome>)
    requires Pending(t, c, strict, log0, FromPartitions(t, c, 0))
    ensures stop.Some? ==> stop.value == Decide(Check(t, c), strict)
    ensures stop.None? ==> Pending(t, c, strict, log, FromColumns(t, c, 0))
  {
    log := log0;
    var i := 0;
    while i < |c.partitionBy|
      invariant 0 <= i <= |c.partitionBy|
      invariant Pending(t, c, strict, log, FromPartitions(t, c, i))
    {
      var p := c.partitionBy[i];
      var found := if p !in t.dtypes then [MissingPartitionColumn(p)] else [];
      log, stop := Report1(t, c, strict, log, found, FromPartitions(t, c, i + 1));
      if stop.Some? {
        return;
      }
      i := i + 1;
    }
    return log, None;
  }

  /** Step 2 for the contract column at `i`, if the table has it: nullability, then
      type. */
  method CheckRule(t: Table, c: Contract, strict: bool, log0: seq<Violation>, i: nat)
    returns (log: seq<Violation>, stop: Option<Outcome>)
    requires i < |c.columns|
    requires Pending(t, c, strict, log0, FromColumns(t, c, i))
    ensures stop.Some? ==> stop.value == Decide(Check(t, c), strict)
    ensures stop.None? ==> Pending(t, c, strict, log, FromColumns(t, c, i + 1))
  {
    var rule := c.columns[i];
    var rest := FromColumns(t, c, i + 1);
    if rule.name in t.dtypes {
      var nv := if !rule.nullable && HasNull(t, rule.name) then [NullInNonNullable(rule.name)] else [];
      var tv := TypeCheck(t, rule);
      assert FromColumns(t, c, i) == Prepend(nv + tv, rest);
      PrependAssoc(nv, tv, rest);
      log, stop := Report1(t, c, strict, log0, nv, Prepend(tv, rest));
      if stop.Some? {
        return;
      }
      log, stop := Report1(t, c, strict, log, tv, rest);
    } else {
      assert FromColumns(t, c, i) == Prepend([], rest);
      Logged(t, c, strict, log0, [], rest);
      assert log0 + [] == log0;
      return log0, None;
    }
  }

  /** Step 2: nullability, then type, of each contract column that is present. */
  method CheckColumns(t: Table, c: Contract, strict: bool, log0: seq<Violation>)
    returns (log: seq<Violation>, stop: Option<Outcome>)
    requires Pending(t, c, strict, log0, FromColumns(t, c, 0))
    ensures stop.Some? ==> stop.value == Decide(Check(t, c), strict)
    ensures stop.None? ==> Pending(t, c, strict, log,
                                   if c.primaryKey == [] then FromNotNull(t, c, 0) else FromPrimaryKey(t, c, 0))
  {
    log := log0;
    var i := 0;
    while i < |c.columns|
      invariant 0 <= i <= |c.columns|
      invariant Pending(t, c, strict, log, FromColumns(t, c, i))
    {
      log, stop := CheckRule(t, c, strict, log, i);
      if stop.Some? {
        return;
      }
      i := i + 1;
    }
    return log, None;
  }

  /** Step 3: nulls in each primary-key column, then duplicate keys. The duplicate
      test raises KeyError when a key column is absent. */
  method CheckPrimaryKey(t: Table, c: Contract, strict: bool, log0: seq<Violation>)
    returns (log: seq<Violation>, stop: Option<Outcome>)
    requires Pending(t, c, strict, log0, FromPrimaryKey(t, c, 0))
    ensures stop.Some? ==> stop.value == Decide(Check(t, c), strict)
    ensures stop.None? ==> Pending(t, c, strict, log, FromNotNull(t, c, 0))
  {
    log := log0;
    var i := 0;
    while i < |c.primaryKey|
      invariant 0 <= i <= |c.primaryKey|
      invariant Pending(t, c, strict, log, FromPrimaryKey(t, c, i))
    {
      var found := PrimaryKeyNullCheck(t, c.primaryKey[i]);
      log, stop := Report1(t, c, strict, log, found, FromPrimaryKey(t, c, i + 1));
      if stop.Some? {
        return;
      }
      i := i + 1;
    }
    var absent := AbsentKeyColumns(t, c.primaryKey);
    KeyColumnsChecked(t, c, strict, log);
    if absent != {} {
      return log, Some(Crashed(PrimaryKeyColumnsMissing(absent), log));
    }
    log, stop := Report1(t, c, strict, log, DuplicateCheck(t, c), FromNotNull(t, c, 0));
  }

  /** After the null checks of step 3: absent key columns crash with the log so
      far, otherwise the duplicate check comes next. */
  lemma KeyColumnsChecked(t: Table, c: Contract, strict: bool, log: seq<Violation>)
    requires Pending(t, c, strict, log, FromPrimaryKey(t, c, |c.primaryKey|))
    ensures var absent := AbsentKeyColumns(t, c.primaryKey);
      (absent != {} ==> Decide(Check(t, c), strict) == Crashed(PrimaryKeyColumnsMissing(absent), log))
      && (absent == {} ==> Pending(t, c, strict, log, Prepend(DuplicateCheck(t, c), FromNotNull(t, c, 0))))
  {
    assert log + [] == log;
  }

  /** Step 4: the not-null quality list. */
  method CheckNotNull(t: Table, c: Contract, strict: bool, log0: seq<Violation>)
    returns (log: seq<Violation>, stop: Option<Outcome>)
    requires Pending(t, c, strict, log0, FromNotNull(t, c, 0))
    ensures stop.Some? ==> stop.value == Decide(Check(t, c), strict)
    ensures stop.None? ==> Pending(t, c, strict, log, FromPositive(t, c, 0))
  {
    log := log0;
    var i := 0;
    while i < |c.notNull|
      invariant 0 <= i <= |c.notNull|
      invariant Pending(t, c, strict, log, FromNotNull(t, c, i))
    {
      var col := c.notNull[i];
      var found := if col in t.dtypes && HasNull(t, col) then [QualityNull(col)] else [];
      log, stop := Report1(t, c, strict, log, found, FromNotNull(t, c, i + 1));
      if stop.Some? {
        return;
      }
      i := i + 1;
    }
    return log, None;
  }

  /** Step 4: the positive-values quality list; comparing non-numbers crashes. */
  method CheckPositive(t: Table, c: Contract, strict: bool, log0: seq<Violation>)
    returns (outcome: Outcome)
    requires Pending(t, c, strict, log0, FromPositive(t, c, 0))
    ensures outcome == Decide(Check(t, c), strict)
  {
    var log := log0;
    var i := 0;
    while i < |c.positiveValues|
      invariant 0 <= i <= |c.positiveValues|
      invariant Pending(t, c, strict, log, FromPositive(t, c, i))
    {
      var col := c.positiveValues[i];
      var r := PositiveCheck(t, col);
      if r.Err? {
        assert log + [] == log;
        return Crashed(r.error, log);
      }
      var stop;
      log, stop := Report1(t, c, strict, log, r.value, FromPositive(t, c, i + 1));
      if stop.Some? {
        return stop.value;
      }
      i := i + 1;
    }
    assert log + [] == log;
    return Passed(log);
  }

  /** `validate_dataframe_schema`, with the contract already loaded from its file. */
  method ValidateDataFrameSchema(df: Option<Table>, c: Contract, strict: bool) returns (outcome: Outcome)
    ensures outcome == Expected(df, c, strict)
  {
    if df.None? || IsEmpty(df.value) {
      var e := Handle(EmptyTable, strict);
      if e.Raise? {
        return Raised(e.violation);
      }
      return Passed([e.violation]);
    }
    var t := df.value;
    var log: seq<Violation>, stop: Option<Outcome>;
    var missing := RuleNames(c.columns) - t.dtypes.Keys;
    var found := if missing != {} then [MissingColumns(missing)] else [];
    log, stop := Report1(t, c, strict, [], found, FromPartitions(t, c, 0));
    if stop.Some? {
      return stop.value;
    }
    log, stop := CheckPartitions(t, c, strict, log);
    if stop.Some? {
      return stop.value;
    }
    log, stop := CheckColumns(t, c, strict, log);
    if stop.Some? {
      return stop.value;
    }
    if c.primaryKey != [] {
      log, stop := CheckPrimaryKey(t, c, strict, log);
      if stop.Some? {
        return stop.value;
      }
    }
    log, stop := CheckNotNull(t, c, strict, log);
    if stop.Some? {
      return stop.value;
    }
    outcome := CheckPositive(t, c, strict, log);
  }

  // ---------------------------------------------------------------------------
  // Properties of the report
  // ---------------------------------------------------------------------------

  /** Every violation of `a` is one of `b`. */
  predicate Within(a: Report, b: Report) {
    forall v :: v in a.violations ==> v in b.violations
  }

  predicate KeyChecksComplete(t: Table, c: Contract) {
    c.primaryKey == [] || AbsentKeyColumns(t, c.primaryKey) == {}
  }

  /** The report a check prepends to covers the rest of the report. */
  lemma PrependCovers(vs: seq<Violation>, r: Report)
    ensures Within(r, Prepend(vs, r)) && r.crash == Prepend(vs, r).crash
  {
    forall v | v in r.violations ensures v in Prepend(vs, r).violations {
      assert v in vs + r.violations;
    }
  }

  /** What a report covers, its tail covers too. */
  lemma PrependWithin(vs: seq<Violation>, r: Report, b: Report)
    requires Within(Prepend(vs, r), b) && Prepend(vs, r).crash == b.crash
    ensures Within(r, b) && r.crash == b.crash
  {
    forall v | v in r.violations ensures v in b.violations {
      assert v in vs + r.violations;
    }
  }

  lemma {:induction false} PartitionsReach(t: Table, c: Contract, i: nat)
    requires i <= |c.partitionBy|
    ensures Within(FromPartitions(t, c, i), Check(t, c))
    ensures FromPartitions(t, c, i).crash == Check(t, c).crash
    decreases i
  {
    if i > 0 {
      PartitionsReach(t, c, i - 1);
      PrependWithin(PartitionCheck(t, c.partitionBy[i - 1]), FromPartitions(t, c, i), Check(t, c));
    } else {
      PrependCovers(MissingColumnsCheck(t, c), FromPartitions(t, c, 0));
    }
  }

  lemma {:induction false} ColumnsReach(t: Table, c: Contract, i: nat)
    requires i <= |c.columns|
    ensures Within(FromColumns(t, c, i), Check(t, c))
    ensures FromColumns(t, c, i).crash == Check(t, c).crash
    decreases i
  {
    if i > 0 {
      ColumnsReach(t, c, i - 1);
      var rule := c.columns[i - 1];
      PrependWithin(NullabilityCheck(t, rule) + TypeCheck(t, rule), FromColumns(t, c, i), Check(t, c));
    } else {
      PartitionsReach(t, c, |c.partitionBy|);
      assert FromPartitions(t, c, |c.partitionBy|) == FromColumns(t, c, 0);
    }
  }

  lemma {:induction false} PrimaryKeyReach(t: Table, c: Contract, i: nat)
    requires c.primaryKey != [] && i <= |c.primaryKey|
    ensures Within(FromPrimaryKey(t, c, i), Check(t, c))
    ensures FromPrimaryKey(t, c, i).crash == Check(t, c).crash
    decreases i
  {
    if i > 0 {
      PrimaryKeyReach(t, c, i - 1);
      PrependWithin(PrimaryKeyNullCheck(t, c.primaryKey[i - 1]), FromPrimaryKey(t, c, i), Check(t, c));
    } else {
      ColumnsReach(t, c, |c.columns|);
      assert FromColumns(t, c, |c.columns|) == FromPrimaryKey(t, c, 0);
    }
  }

  lemma {:induction false} NotNullReach(t: Table, c: Contract, i: nat)
    requires KeyChecksComplete(t, c) && i <= |c.notNull|
    ensures Within(FromNotNull(t, c, i), Check(t, c))
    ensures FromNotNull(t, c, i).crash == Check(t, c).crash
    decreases i
  {
    if i > 0 {
      NotNullReach(t, c, i - 1);
      PrependWithin(NotNullCheck(t, c.notNull[i - 1]), FromNotNull(t, c, i), Check(t, c));
    } else if c.primaryKey == [] {
      ColumnsReach(t, c, |c.columns|);
      assert FromColumns(t, c, |c.columns|) == FromNotNull(t, c, 0);
    } else {
      PrimaryKeyReach(t, c, |c.primaryKey|);
      assert FromPrimaryKey(t, c, |c.primaryKey|) == Prepend(DuplicateCheck(t, c), FromNotNull(t, c, 0));
      PrependWithin(DuplicateCheck(t, c), FromNotNull(t, c, 0), Check(t, c));
    }
  }

  lemma {:induction false} PositiveReach(t: Table, c: Contract, i: nat)
    requires KeyChecksComplete(t, c) && i <= |c.positiveValues|
    requires forall j :: 0 <= j < i ==> PositiveCheck(t, c.positiveValues[j]).Ok?
    ensures Within(FromPositive(t, c, i), Check(t, c))
    ensures FromPositive(t, c, i).crash == Check(t, c).crash
    decreases i
  {
    if i > 0 {
      PositiveReach(t, c, i - 1);
      var vs := PositiveCheck(t, c.positiveValues[i - 1]).value;
      assert FromPositive(t, c, i - 1) == Prepend(vs, FromPositive(t, c, i));
      PrependWithin(vs, FromPositive(t, c, i), Check(t, c));
    } else {
      NotNullReach(t, c, |c.notNull|);
      assert FromNotNull(t, c, |c.notNull|) == FromPositive(t, c, 0);
    }
  }

  /** Contract columns the table lacks are reported together, first of all. */
  lemma MissingColumnsFirst(t: Table, c: Contract, rule: ColumnRule)
    requires rule in c.columns && rule.name !in t.dtypes
    ensures |Check(t, c).violations| > 0
    ensures Check(t, c).violations[0] == MissingColumns(RuleNames(c.columns) - t.dtypes.Keys)
    ensures rule.name in Check(t, c).violations[0].cols
  {
    assert rule.name in RuleNames(c.columns) - t.dtypes.Keys;
  }

  lemma MissingPartitionReported(t: Table, c: Contract, k: nat)
    requires k < |c.partitionBy| && c.partitionBy[k] !in t.dtypes
    ensures MissingPartitionColumn(c.partitionBy[k]) in Check(t, c).violations
  {
    PartitionsReach(t, c, k);
  }

  lemma NullInNonNullableReported(t: Table, c: Contract, k: nat)
    requires k < |c.columns|
    requires c.columns[k].name in t.dtypes && !c.columns[k].nullable && HasNull(t, c.columns[k].name)
    ensures NullInNonNullable(c.columns[k].name) in Check(t, c).violations
  {
    ColumnsReach(t, c, k);
  }

  lemma TypeViolationReported(t: Table, c: Contract, k: nat)
    requires k < |c.columns|
    ensures forall v :: v in TypeCheck(t, c.columns[k]) ==> v in Check(t, c).violations
  {
    ColumnsReach(t, c, k);
  }

  /** A column named by the contract but absent from the table adds nothing beyond
      the missing-columns report: its nullability and type are not checked. */
  lemma AbsentColumnSkipped(t: Table, rule: ColumnRule)
    requires rule.name !in t.dtypes
    ensures NullabilityCheck(t, rule) == [] && TypeCheck(t, rule) == []
  {
  }

  lemma PrimaryKeyNullReported(t: Table, c: Contract, k: nat)
    requires k < |c.primaryKey| && c.primaryKey[k] in t.dtypes && HasNull(t, c.primaryKey[k])
    ensures PrimaryKeyNull(c.primaryKey[k]) in Check(t, c).violations
  {
    PrimaryKeyReach(t, c, k);
  }

  lemma DuplicateKeyReported(t: Table, c: Contract)
    requires c.primaryKey != [] && AbsentKeyColumns(t, c.primaryKey) == {}
    requires HasDuplicateKey(t, c.primaryKey)
    ensures DuplicatePrimaryKey(c.primaryKey) in Check(t, c).violations
  {
    PrimaryKeyReach(t, c, |c.primaryKey|);
  }

  /** A primary key naming an absent column ends the checks with a KeyError. */
  lemma AbsentKeyColumnCrashes(t: Table, c: Contract)
    requires c.primaryKey != [] && AbsentKeyColumns(t, c.primaryKey) != {}
    ensures Check(t, c).crash == Some(PrimaryKeyColumnsMissing(AbsentKeyColumns(t, c.primaryKey)))
  {
    PrimaryKeyReach(t, c, |c.primaryKey|);
  }

  lemma QualityNullReported(t: Table, c: Contract, k: nat)
    requires KeyChecksComplete(t, c)
    requires k < |c.notNull| && c.notNull[k] in t.dtypes && HasNull(t, c.notNull[k])
    ensures QualityNull(c.notNull[k]) in Check(t, c).violations
  {
    NotNullReach(t, c, k);
  }

  lemma NegativeValuesReported(t: Table, c: Contract, k: nat)
    requires KeyChecksComplete(t, c) && k < |c.positiveValues|
    requires forall j :: 0 <= j < k ==> PositiveCheck(t, c.positiveValues[j]).Ok?
    requires PositiveCheck(t, c.positiveValues[k]) == Ok([QualityNegative(c.positiveValues[k])])
    ensures QualityNegative(c.positiveValues[k]) in Check(t, c).violations
  {
    PositiveReach(t, c, k);
  }

  /** The first positive-values column whose comparison raises ends the checks. */
  lemma NonNumericComparisonCrashes(t: Table, c: Contract, k: nat)
    requires KeyChecksComplete(t, c) && k < |c.positiveValues|
    requires forall j :: 0 <= j < k ==> PositiveCheck(t, c.positiveValues[j]).Ok?
    requires PositiveCheck(t, c.positiveValues[k]).Err?
    ensures Check(t, c).crash == Some(NonNumericComparison(c.positiveValues[k]))
  {
    PositiveReach(t, c, k);
  }

  /** Without an absent key column or a non-numeric positive-values column nothing
      crashes. */
  lemma NoCrashWithoutCause(t: Table, c: Contract)
    requires KeyChecksComplete(t, c)
    requires forall j :: 0 <= j < |c.positiveValues| ==> PositiveCheck(t, c.positiveValues[j]).Ok?
    ensures Check(t, c).crash == None
  {
    PositiveReach(t, c, |c.positiveValues|);
  }

  /** The positive-values check flags strictly negative values only: zero passes. */
  lemma PositiveFlagsNegativesOnly(t: Table, col: string)
    requires col in t.dtypes && t.dtypes[col] != DateTimeType
    requires forall i :: 0 <= i < |t.rows| ==> Cell(t.rows[i], col).Null? || IsNumber(Cell(t.rows[i], col))
    ensures PositiveCheck(t, col).Ok?
    ensures PositiveCheck(t, col) == Ok([QualityNegative(col)]) <==>
              exists i :: 0 <= i < |t.rows| && ((Cell(t.rows[i], col).IntV? && Cell(t.rows[i], col).i < 0)
                                             || (Cell(t.rows[i], col).RealV? && Cell(t.rows[i], col).r < 0.0))
  {
  }

  /** Comparing a datetime column with zero always raises, whatever its values. */
  lemma DatetimePositiveCrashes(t: Table, col: string)
    requires IsDatetime(t, col)
    ensures PositiveCheck(t, col) == Err(NonNumericComparison(col))
  {
  }

  // ---------------------------------------------------------------------------
  // The tolerant type rules
  // ---------------------------------------------------------------------------

  /** Integer columns are accepted where floats are declared. */
  lemma FloatAcceptsIntegers(t: Table, rule: ColumnRule)
    requires rule.kind == Some("float") && rule.name in t.dtypes
    ensures TypeCheck(t, rule) == [] <==> t.dtypes[rule.name] in {FloatType, IntType}
  {
  }

  /** An int column may be stored as floats, provided every value is whole. */
  lemma IntAcceptsWholeFloats(t: Table, rule: ColumnRule)
    requires rule.kind in {Some("int"), Some("bigint")} && rule.name in t.dtypes
    requires t.dtypes[rule.name] == FloatType
    requires forall i :: 0 <= i < |t.rows| ==> Cell(t.rows[i], rule.name).Null? || Cell(t.rows[i], rule.name).RealV?
    ensures TypeCheck(t, rule) == [] <==>
              forall i :: 0 <= i < |t.rows| && Cell(t.rows[i], rule.name).RealV? ==> IsWhole(Cell(t.rows[i], rule.name).r)
  {
    var col := rule.name;
    if forall i :: 0 <= i < |t.rows| && Cell(t.rows[i], col).RealV? ==> IsWhole(Cell(t.rows[i], col).r) {
      assert forall i :: 0 <= i < |t.rows| && Cell(t.rows[i], col) != Null ==> IsWholeNumber(Cell(t.rows[i], col));
    }
  }

  /** A date column must be datetime64 with every timestamp at midnight. */
  lemma DateNeedsMidnight(t: Table, rule: ColumnRule)
    requires rule.kind == Some("date") && rule.name in t.dtypes
    ensures TypeCheck(t, rule) == [] <==>
              t.dtypes[rule.name] == DateTimeType
              && forall i :: 0 <= i < |t.rows| && Cell(t.rows[i], rule.name).DateTimeV? ==> Cell(t.rows[i], rule.name).secs == 0
  {
  }

  /** A type the engine does not know is a violation whatever the data. */
  lemma UnknownTypeReported(t: Table, rule: ColumnRule)
    requires rule.name in t.dtypes
    requires rule.kind !in {Some("string"), Some("float"), Some("int"), Some("bigint"), Some("date"), Some("timestamp")}
    ensures TypeCheck(t, rule) == [UnknownType(rule.name, rule.kind)]
  {
  }

  // ---------------------------------------------------------------------------
  // Strict and permissive mode
  // ---------------------------------------------------------------------------

  function Warnings(o: Outcome): seq<Violation> {
    match o
    case Passed(w) => w
    case Crashed(_, w) => w
    case Raised(_) => []
  }

  /** Permissive mode never raises a violation; strict mode raises exactly when
      permissive mode would log something, and what it raises is the first warning. */
  lemma StrictRaisesFirstWarning(df: Option<Table>, c: Contract)
    ensures !Expected(df, c, false).Raised?
    ensures Expected(df, c, true).Raised? <==> |Warnings(Expected(df, c, false))| > 0
    ensures Expected(df, c, true).Raised? ==> Expected(df, c, true).violation == Warnings(Expected(df, c, false))[0]
    ensures Warnings(Expected(df, c, true)) == []
  {
  }

  /** A table passes strict validation exactly when permissive validation returns
      with nothing logged. */
  lemma StrictPassIffSilentPermissive(df: Option<Table>, c: Contract)
    ensures Expected(df, c, true).Passed? <==> Expected(df, c, false) == Passed([])
  {
  }

  /** An absent or empty table is reported as such and nothing else is checked. */
  lemma EmptyTableOnly(df: Option<Table>, c: Contract)
    requires df.None? || IsEmpty(df.value)
    ensures Expected(df, c, true) == Raised(EmptyTable)
    ensures Expected(df, c, false) == Passed([EmptyTable])
  {
  }

  /** A float `volume` column, one of whose two cells is null. */
  const NullVolume: Table := Table(map["volume" := FloatType], [map["volume" := RealV(1.0)], map["volume" := Null]])

  /** `volume` must be a non-nullable int. */
  const IntVolume: Contract := Contract([ColumnRule("volume", Some("int"), false)], [], [], [], [])

  /** The whole-number float column passes the type check; the null is the one
      violation. */
  lemma NullVolumeReport()
    ensures Check(NullVolume, IntVolume) == Report([NullInNonNullable("volume")], None)
  {
    var t := NullVolume;
    var c := IntVolume;
    assert RuleNames(c.columns) == {"volume"};
    assert Cell(t.rows[1], "volume") == Null;
    assert HasNull(t, "volume");
    assert forall i :: 0 <= i < |t.rows| && Cell(t.rows[i], "volume") != Null ==> IsWholeNumber(Cell(t.rows[i], "volume"));
    assert TypeCheck(t, c.columns[0]) == [];
    assert FromColumns(t, c, 1) == Report([], None);
  }

  /** A non-nullable int column holding a null: strict mode raises on it, permissive
      mode logs it and returns. */
  lemma NullVolumeExample()
    ensures Expected(Some(NullVolume), IntVolume, true) == Raised(NullInNonNullable("volume"))
    ensures Expected(Some(NullVolume), IntVolume, false) == Passed([NullInNonNullable("volume")])
  {
    NullVolumeReport();
  }
}
