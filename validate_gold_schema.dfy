/** The gold validator: a thin wrapper over the generic contract engine that refuses
    an empty table outright, looks the schema file up at the given path and then
    under the repository root, and passes its strict flag through.

    Which schema files exist is a map from path to the contract the file holds;
    reading and parsing the file is not part of this model. */
module GoldValidator {
  import opened Wrappers
  import opened Values
  import opened Tables
  import opened SchemaValidator

  const DefaultSchemaPath: string := "schemas/stock_price_gold.yaml"

  /** What a call ends with: the empty-table ValueError, the FileNotFoundError naming
      the path as given, or whatever the generic validator ends with. */
  datatype GoldOutcome =
    | EmptyGold
    | SchemaNotFound(path: string)
    | Delegated(outcome: Outcome)

  predicate IsAbsolute(path: string) {
    |path| > 0 && path[0] == '/'
  }

  /** `Path(root) / path`: an absolute `path` replaces the root. */
  function Join(root: string, path: string): (r: string)
    ensures IsAbsolute(path) ==> r == path
    ensures !IsAbsolute(path) ==> r == root + "/" + path
  {
    if IsAbsolute(path) then path else root + "/" + path
  }

  /** The schema file used: the path as given if it exists, else the path under the
      repository root if that exists. */
  function ResolveSchema(files: map<string, Contract>, repoRoot: string, path: string): (r: Option<string>)
    ensures r.Some? ==> r.value in files
    ensures path in files ==> r == Some(path)
    ensures r.None? <==> path !in files && Join(repoRoot, path) !in files
    ensures path !in files && r.Some? ==> r.value == Join(repoRoot, path)
  {
    if path in files then Some(path)
    else if Join(repoRoot, path) in files then Some(Join(repoRoot, path))
    else None
  }

  /** `validate_stock_price_daily(df, schema_path, strict)`. */
  function GoldExpected(df: Option<Table>, files: map<string, Contract>, repoRoot: string, path: string,
                        strict: bool): (r: GoldOutcome)
    ensures df.None? || IsEmpty(df.value) ==> r == EmptyGold
    ensures df.Some? && !IsEmpty(df.value) ==>
              (r == SchemaNotFound(path) <==> ResolveSchema(files, repoRoot, path).None?)
    ensures r.Delegated? ==> df.Some? && !IsEmpty(df.value) && ResolveSchema(files, repoRoot, path).Some?
  {
    if df.None? || IsEmpty(df.value) then EmptyGold
    else
      match ResolveSchema(files, repoRoot, path)
      case None => SchemaNotFound(path)
      case Some(file) => Delegated(Expected(df, files[file], strict))
  }

  /** `validate_stock_price_daily`: the guard, the lookup, then the generic engine. */
  method ValidateStockPriceDaily(df: Option<Table>, files: map<string, Contract>, repoRoot: string, path: string,
                                 strict: bool)
    returns (r: GoldOutcome)
    ensures r == GoldExpected(df, files, repoRoot, path, strict)
  {
    if df.None? || IsEmpty(df.value) {
      return EmptyGold;
    }
    var file := ResolveSchema(files, repoRoot, path);
    if file.None? {
      return SchemaNotFound(path);
    }
    var outcome := ValidateDataFrameSchema(df, files[file.value], strict);
    return Delegated(outcome);
  }

  // ---------------------------------------------------------------------------
  // Properties of the gold validator
  // ---------------------------------------------------------------------------

  /** An empty gold table is an error even in permissive mode, where the generic
      engine would only log it. */
  lemma EmptyAlwaysRaises(t: Table, files: map<string, Contract>, repoRoot: string, path: string, c: Contract)
    requires IsEmpty(t)
    ensures GoldExpected(Some(t), files, repoRoot, path, false) == EmptyGold
    ensures Expected(Some(t), c, false) == Passed([EmptyTable])
  {
    assert Decide(Report([EmptyTable], None), false) == Passed([EmptyTable]);
  }

  /** A non-empty table is judged by the contract of the file found, with the same
      strict flag; the file at the given path wins over the one under the root. */
  lemma DelegatesToFound(t: Table, files: map<string, Contract>, repoRoot: string, path: string, strict: bool)
    requires !IsEmpty(t) && ResolveSchema(files, repoRoot, path).Some?
    ensures var file := if path in files then path else Join(repoRoot, path);
      GoldExpected(Some(t), files, repoRoot, path, strict) == Delegated(Expected(Some(t), files[file], strict))
  {
  }

  /** An absolute path that does not exist has no fallback. */
  lemma AbsoluteHasNoFallback(t: Table, files: map<string, Contract>, repoRoot: string, path: string, strict: bool)
    requires !IsEmpty(t) && IsAbsolute(path) && path !in files
    ensures GoldExpected(Some(t), files, repoRoot, path, strict) == SchemaNotFound(path)
  {
  }

  /** In strict mode (the default) a passing table has logged nothing, and any
      violation found is raised. */
  lemma StrictGoldRaisesOrPassesClean(t: Table, files: map<string, Contract>, repoRoot: string, path: string)
    requires !IsEmpty(t) && ResolveSchema(files, repoRoot, path).Some?
    ensures var file := ResolveSchema(files, repoRoot, path).value;
      var r := GoldExpected(Some(t), files, repoRoot, path, true);
      var report := Check(t, files[file]);
      r.Delegated?
      && (|report.violations| > 0 ==> r.outcome == Raised(report.violations[0]))
      && (r.outcome.Passed? ==> r.outcome.warnings == [] && report.violations == [] && report.crash.None?)
  {
  }
}
