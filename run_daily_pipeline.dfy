/** The daily orchestrator: fetch, save raw, clean, the silver dtype check, silver
    validation, save silver, build gold, gold validation, save gold. Every stage runs
    only after the one before it has succeeded; an empty fetch and an empty gold
    table end the run early and normally, any stage error ends it with exit code 1.

    The configuration file and the schema files are inputs, as are the HOSE symbol
    listing, the quote service (through its oracle), the object store (through its
    failure oracle), the encoders and the ingestion time. */
module DailyPipeline {
  import opened Wrappers
  import opened Values
  import opened Tables
  import opened Storage
  import BronzeFetch
  import RawSaver
  import SilverCleaner
  import SchemaValidator
  import SilverSaver
  import GoldBuilder
  import GoldValidator
  import GoldSaver

  datatype Stage =
    | Fetch | SaveRaw | Clean | SilverCheck | ValidateSilver | SaveSilver | BuildGold | ValidateGold | SaveGold

  /** The stages in the order the run enters them. */
  const Stages: seq<Stage> := [Fetch, SaveRaw, Clean, SilverCheck, ValidateSilver, SaveSilver, BuildGold, ValidateGold, SaveGold]

  /** How a run ends: the success log line, an early `return`, or `sys.exit(1)`. */
  datatype Exit = Done | Stopped(at: Stage) | Failed(at: Stage)

  datatype DateRange = DateRange(start: Option<string>, end: Option<string>)

  /** The parts of `config/config.yaml` the run reads. */
  datatype Config = Config(
    bucket: string,
    bronzePath: string,
    silverPath: string,
    goldPath: string,
    sourceRange: DateRange,
    datasetRange: Option<DateRange>)

  /** Everything else the run depends on but does not compute. */
  datatype Env = Env(
    symbols: seq<string>,                   // fetch_hose_symbols()
    concat: seq<Table> -> Table,            // pd.concat(results, ignore_index=True)
    now: Value,                             // the ingestion time
    silverSchema: Option<Contract>,         // schemas/stock_price_silver.yaml, if it exists
    goldFiles: map<string, Contract>,       // the gold schema files that exist
    goldRoot: string,                       // the root the gold validator falls back to
    json: Table -> seq<byte>,               // the raw layer's JSON encoder
    parquet: Table -> seq<byte>)            // the parquet encoder

  type Contract = SchemaValidator.Contract

  /** The clean step's defaults. */
  const Exchange: string := "HOSE"
  const Source: string := "vnstock"

  /** The business range: the dataset's own, else the source range. */
  function BusinessRange(cfg: Config): (r: DateRange)
    ensures cfg.datasetRange.None? ==> r == cfg.sourceRange
    ensures cfg.datasetRange.Some? ==> r == cfg.datasetRange.value
  {
    if cfg.datasetRange.Some? then cfg.datasetRange.value else cfg.sourceRange
  }

  /** `pd.to_datetime(bound).normalize()` returns: a missing bound or an unreadable
      one raises. */
  predicate BoundReadable(bound: Option<string>) {
    bound.Some? && ParseDateTimeText(bound.value).Some?
  }

  /** The silver dtype check that refuses a non-datetime `trading_date`. */
  predicate SilverDtypeRefused(silver: Table) {
    !IsEmpty(silver) && "trading_date" in silver.dtypes && !IsDatetime(silver, "trading_date")
  }

  /** `validate_dataframe_schema(silver, schemas/stock_price_silver.yaml, strict=True)`
      passes; a missing schema file raises. */
  predicate SilverPasses(env: Env, silver: Table) {
    env.silverSchema.Some? && SchemaValidator.Expected(Some(silver), env.silverSchema.value, true).Passed?
  }

  /** `validate_stock_price_daily(gold, strict=True)` passes. */
  predicate GoldPasses(env: Env, gold: Table) {
    var checked := GoldValidator.GoldExpected(Some(gold), env.goldFiles, env.goldRoot, GoldValidator.DefaultSchemaPath, true);
    checked.Delegated? && checked.outcome.Passed?
  }

  /** The eight operations the run strings together, each with its arguments from the
      configuration and the environment already applied. */
  datatype Steps = Steps(
    fetch: BronzeFetch.Feed -> BronzeFetch.Bronze,
    saveRaw: (World, Table) -> RawSaver.RawSaved,
    clean: Table -> Result<Table, SilverCleaner.CleanError>,
    validateSilver: Table -> bool,
    saveSilver: (World, nat, Table) -> SilverSaver.SilverSaved,
    build: Table -> Result<Table, GoldBuilder.BuildError>,
    validateGold: Table -> bool,
    saveGold: (World, nat, Table) -> GoldSaver.GoldSaved)

  /** The operations of `run_daily_pipeline(run_date)`. */
  function Daily(cfg: Config, env: Env, runDate: Date): Steps {
    Steps(
      feed => BronzeFetch.FetchHose(feed, cfg.sourceRange.start, cfg.sourceRange.end, Some(runDate), env.symbols, env.concat),
      (w, raw) => RawSaver.SaveRaw(w, raw, cfg.bucket, cfg.bronzePath, runDate, env.json),
      raw => SilverCleaner.CleanStockPrice(Some(raw), Exchange, Source, env.now),
      silver => SilverPasses(env, silver),
      (w: World, issued: nat, silver: Table) => SilverSaver.SaveSilver(w, issued, Some(silver), cfg.bucket, cfg.silverPath, runDate, env.parquet),
      silver => GoldBuilder.BuildStockPriceDaily(Some(silver)),
      gold => GoldPasses(env, gold),
      (w: World, issued: nat, gold: Table) => GoldSaver.SaveGold(w, issued, Some(gold), cfg.bucket, cfg.goldPath, GoldSaver.GoldPartition, env.parquet))
  }

  /** The store and name supply a run leaves behind, the stages it entered and how
      it ended. */
  datatype Progress = Progress(world: World, issued: nat, trace: seq<Stage>, exit: Exit)

  /** The same, with the quote service's state. */
  datatype Run = Run(feed: BronzeFetch.Feed, world: World, issued: nat, trace: seq<Stage>, exit: Exit)

  function After(prefix: seq<Stage>, x: Progress): Progress {
    x.(trace := prefix + x.trace)
  }

  /** From building gold on. */
  function FromGold(s: Steps, w: World, issued: nat, silver: Table): Progress {
    match s.build(silver)
    case Err(_) => Progress(w, issued, [BuildGold], Failed(BuildGold))
    case Ok(gold) =>
      if IsEmpty(gold) then Progress(w, issued, [BuildGold], Stopped(BuildGold))
      else if !s.validateGold(gold) then Progress(w, issued, [BuildGold, ValidateGold], Failed(ValidateGold))
      else
        var saved := s.saveGold(w, issued, gold);
        Progress(saved.world, saved.issued, [BuildGold, ValidateGold, SaveGold],
                 if saved.result.Err? then Failed(SaveGold) else Done)
  }

  /** From the silver dtype check on, with the business range `range`. */
  function FromSilver(s: Steps, range: DateRange, w: World, issued: nat, silver: Table): Progress {
    if !BoundReadable(range.start) || !BoundReadable(range.end) || SilverDtypeRefused(silver) then
      Progress(w, issued, [SilverCheck], Failed(SilverCheck))
    else if !s.validateSilver(silver) then
      Progress(w, issued, [SilverCheck, ValidateSilver], Failed(ValidateSilver))
    else
      var saved := s.saveSilver(w, issued, silver);
      if saved.result.Err? then Progress(saved.world, saved.issued, [SilverCheck, ValidateSilver, SaveSilver], Failed(SaveSilver))
      else After([SilverCheck, ValidateSilver, SaveSilver], FromGold(s, saved.world, saved.issued, silver))
  }

  /** From saving the raw layer on. */
  function FromRaw(s: Steps, range: DateRange, w: World, issued: nat, raw: Table): Progress {
    var saved := s.saveRaw(w, raw);
    if saved.result.Err? then Progress(saved.world, issued, [SaveRaw], Failed(SaveRaw))
    else
      match s.clean(raw)
      case Err(_) => Progress(saved.world, issued, [SaveRaw, Clean], Failed(Clean))
      case Ok(silver) => After([SaveRaw, Clean], FromSilver(s, range, saved.world, issued, silver))
  }

  /** The whole run on the operations `s`. */
  function RunWith(s: Steps, range: DateRange, feed: BronzeFetch.Feed, w: World, issued: nat): Run {
    var fetched := s.fetch(feed);
    if fetched.result.Err? then Run(fetched.feed, w, issued, [Fetch], Failed(Fetch))
    else if IsEmpty(fetched.result.value) then Run(fetched.feed, w, issued, [Fetch], Stopped(Fetch))
    else
      var rest := FromRaw(s, range, w, issued, fetched.result.value);
      Run(fetched.feed, rest.world, rest.issued, [Fetch] + rest.trace, rest.exit)
  }

  /** `run_daily_pipeline(run_date)`. */
  function RunPipeline(feed: BronzeFetch.Feed, w: World, issued: nat, cfg: Config, env: Env, runDate: Date): Run {
    RunWith(Daily(cfg, env, runDate), BusinessRange(cfg), feed, w, issued)
  }

  // ---------------------------------------------------------------------------
  // The run, stage by stage
  // ---------------------------------------------------------------------------

  method GoldStages(store: ObjectStore, names: NameSupply, cfg: Config, env: Env, runDate: Date, silver: Table)
    returns (exit: Exit, trace: seq<Stage>)
    modifies store, names
    ensures Progress(store.State(), names.issued, trace, exit)
              == FromGold(Daily(cfg, env, runDate), old(store.State()), old(names.issued), silver)
  {
    var built := GoldBuilder.BuildStockPriceDaily(Some(silver));
    if built.Err? {
      return Failed(BuildGold), [BuildGold];
    }
    var gold := built.value;
    if IsEmpty(gold) {
      return Stopped(BuildGold), [BuildGold];
    }
    var checked := GoldValidator.ValidateStockPriceDaily(Some(gold), env.goldFiles, env.goldRoot,
                                                         GoldValidator.DefaultSchemaPath, true);
    if !(checked.Delegated? && checked.outcome.Passed?) {
      return Failed(ValidateGold), [BuildGold, ValidateGold];
    }
    var goldKeys := GoldSaver.SaveGoldStockPriceDaily(store, names, Some(gold), cfg.bucket, cfg.goldPath,
                                                      GoldSaver.GoldPartition, env.parquet);
    exit := if goldKeys.Err? then Failed(SaveGold) else Done;
    trace := [BuildGold, ValidateGold, SaveGold];
  }

  method SilverStages(store: ObjectStore, names: NameSupply, cfg: Config, env: Env, runDate: Date, silver: Table)
    returns (exit: Exit, trace: seq<Stage>)
    modifies store, names
    ensures Progress(store.State(), names.issued, trace, exit)
              == FromSilver(Daily(cfg, env, runDate), BusinessRange(cfg), old(store.State()), old(names.issued), silver)
  {
    var range := BusinessRange(cfg);
    if !BoundReadable(range.start) || !BoundReadable(range.end) || SilverDtypeRefused(silver) {
      return Failed(SilverCheck), [SilverCheck];
    }
    if env.silverSchema.None? {
      return Failed(ValidateSilver), [SilverCheck, ValidateSilver];
    }
    var verdict := SchemaValidator.ValidateDataFrameSchema(Some(silver), env.silverSchema.value, true);
    if !verdict.Passed? {
      return Failed(ValidateSilver), [SilverCheck, ValidateSilver];
    }
    var silverKeys := SilverSaver.SaveSilverStockPrice(store, names, Some(silver), cfg.bucket, cfg.silverPath, runDate, env.parquet);
    if silverKeys.Err? {
      return Failed(SaveSilver), [SilverCheck, ValidateSilver, SaveSilver];
    }
    var goldTrace;
    exit, goldTrace := GoldStages(store, names, cfg, env, runDate, silver);
    trace := [SilverCheck, ValidateSilver, SaveSilver] + goldTrace;
  }

  method RawStages(store: ObjectStore, names: NameSupply, cfg: Config, env: Env, runDate: Date, raw: Table)
    returns (exit: Exit, trace: seq<Stage>)
    modifies store, names
    ensures Progress(store.State(), names.issued, trace, exit)
              == FromRaw(Daily(cfg, env, runDate), BusinessRange(cfg), old(store.State()), old(names.issued), raw)
  {
    var rawKeys := RawSaver.SaveRawStockPrice(store, raw, cfg.bucket, cfg.bronzePath, runDate, env.json);
    if rawKeys.Err? {
      return Failed(SaveRaw), [SaveRaw];
    }
    var cleaned := SilverCleaner.CleanStockPrice(Some(raw), Exchange, Source, env.now);
    if cleaned.Err? {
      return Failed(Clean), [SaveRaw, Clean];
    }
    var silverTrace;
    exit, silverTrace := SilverStages(store, names, cfg, env, runDate, cleaned.value);
    trace := [SaveRaw, Clean] + silverTrace;
  }

  /** `run_daily_pipeline`: the stages in sequence, each one's failure ending the run. */
  method RunDailyPipeline(svc: BronzeFetch.QuoteService, store: ObjectStore, names: NameSupply, cfg: Config, env: Env,
                          runDate: Date)
    returns (exit: Exit, trace: seq<Stage>)
    modifies svc, store, names
    ensures Run(svc.State(), store.State(), names.issued, trace, exit)
              == RunPipeline(old(svc.State()), old(store.State()), old(names.issued), cfg, env, runDate)
  {
    var raw := BronzeFetch.FetchHoseStockPrices(svc, cfg.sourceRange.start, cfg.sourceRange.end, Some(runDate),
                                                env.symbols, env.concat);
    if raw.Err? {
      return Failed(Fetch), [Fetch];
    }
    if IsEmpty(raw.value) {
      return Stopped(Fetch), [Fetch];
    }
    var rest;
    exit, rest := RawStages(store, names, cfg, env, runDate, raw.value);
    trace := [Fetch] + rest;
  }

  // ---------------------------------------------------------------------------
  // Properties of the run, whatever the operations do
  // ---------------------------------------------------------------------------

  /** The stages entered from stage `k` on are the next ones in order, the run ended
      at the last of them, and it is done only when it got through them all. */
  predicate InOrderFrom(trace: seq<Stage>, exit: Exit, k: nat) {
    k < |Stages| && 1 <= |trace| <= |Stages| - k
    && (forall i :: 0 <= i < |trace| ==> trace[i] == Stages[k + i])
    && (exit == Done ==> k + |trace| == |Stages|)
    && (exit != Done ==> exit.at == trace[|trace| - 1])
  }

  /** Entering the stages before `k + |prefix|` first keeps the run in order. */
  lemma AfterInOrder(prefix: seq<Stage>, x: Progress, k: nat)
    requires 1 <= |prefix| && InOrderFrom(x.trace, x.exit, k + |prefix|)
    requires prefix == Stages[k..k + |prefix|]
    ensures InOrderFrom(After(prefix, x).trace, After(prefix, x).exit, k)
  {
    var t := After(prefix, x).trace;
    assert t[|t| - 1] == x.trace[|x.trace| - 1];
    forall i | 0 <= i < |t| ensures t[i] == Stages[k + i] {
      if i >= |prefix| {
        assert t[i] == x.trace[i - |prefix|];
      } else {
        assert t[i] == prefix[i] == Stages[k..k + |prefix|][i];
      }
    }
  }

  lemma GoldInOrder(s: Steps, w: World, issued: nat, silver: Table)
    ensures var x := FromGold(s, w, issued, silver);
      InOrderFrom(x.trace, x.exit, 6) && (x.exit.Stopped? ==> x.exit.at == BuildGold)
  {
  }

  lemma SilverInOrder(s: Steps, range: DateRange, w: World, issued: nat, silver: Table)
    ensures var x := FromSilver(s, range, w, issued, silver);
      InOrderFrom(x.trace, x.exit, 3) && (x.exit.Stopped? ==> x.exit.at == BuildGold)
  {
    if BoundReadable(range.start) && BoundReadable(range.end) && !SilverDtypeRefused(silver) && s.validateSilver(silver) {
      var saved := s.saveSilver(w, issued, silver);
      if saved.result.Ok? {
        GoldInOrder(s, saved.world, saved.issued, silver);
        assert [SilverCheck, ValidateSilver, SaveSilver] == Stages[3..6];
        AfterInOrder([SilverCheck, ValidateSilver, SaveSilver], FromGold(s, saved.world, saved.issued, silver), 3);
      }
    }
  }

  lemma RawInOrder(s: Steps, range: DateRange, w: World, issued: nat, raw: Table)
    ensures var x := FromRaw(s, range, w, issued, raw);
      InOrderFrom(x.trace, x.exit, 1) && (x.exit.Stopped? ==> x.exit.at == BuildGold)
  {
    var saved := s.saveRaw(w, raw);
    if saved.result.Ok? && s.clean(raw).Ok? {
      var x := FromSilver(s, range, saved.world, issued, s.clean(raw).value);
      SilverInOrder(s, range, saved.world, issued, s.clean(raw).value);
      assert [SaveRaw, Clean] == Stages[1..3];
      AfterInOrder([SaveRaw, Clean], x, 1);
      assert FromRaw(s, range, w, issued, raw) == After([SaveRaw, Clean], x);
    } else {
      RawEarlyExit(s, range, w, issued, raw);
    }
  }

  lemma RawEarlyExit(s: Steps, range: DateRange, w: World, issued: nat, raw: Table)
    requires s.saveRaw(w, raw).result.Err? || s.clean(raw).Err?
    ensures var x := FromRaw(s, range, w, issued, raw);
      InOrderFrom(x.trace, x.exit, 1) && x.exit.Failed?
  {
  }

  /** Strictly sequential: a run enters the stages in their fixed order, each only
      after the one before it succeeded; it ends at the last stage it entered, is
      done only after entering them all, and stops early only on an empty fetch or
      an empty gold table. */
  lemma RunInOrder(s: Steps, range: DateRange, feed: BronzeFetch.Feed, w: World, issued: nat)
    ensures var x := RunWith(s, range, feed, w, issued);
      InOrderFrom(x.trace, x.exit, 0)
      && (x.exit == Done ==> x.trace == Stages)
      && (x.exit.Stopped? ==> x.exit.at == Fetch || x.exit.at == BuildGold)
  {
    var fetched := s.fetch(feed);
    if fetched.result.Ok? && !IsEmpty(fetched.result.value) {
      var r := FromRaw(s, range, w, issued, fetched.result.value);
      RawInOrder(s, range, w, issued, fetched.result.value);
      assert [Fetch] == Stages[0..1];
      AfterInOrder([Fetch], r, 0);
      assert RunWith(s, range, feed, w, issued).trace == After([Fetch], r).trace;
    }
  }

  /** A fetch error exits with code 1, and an empty fetch ends the run normally;
      either way nothing is written. */
  lemma FetchGate(s: Steps, range: DateRange, feed: BronzeFetch.Feed, w: World, issued: nat)
    ensures var fetched := s.fetch(feed);
      var x := RunWith(s, range, feed, w, issued);
      (fetched.result.Err? ==> x.exit == Failed(Fetch) && x.world == w && x.issued == issued)
      && (fetched.result.Ok? && IsEmpty(fetched.result.value) ==> x.exit == Stopped(Fetch) && x.world == w && x.issued == issued)
  {
  }

  /** The raw layer is saved before cleaning: a run that fails in the cleaner keeps
      what the raw save wrote. */
  lemma RawSavedBeforeClean(s: Steps, range: DateRange, w: World, issued: nat, raw: Table)
    requires s.clean(raw).Err?
    ensures var x := FromRaw(s, range, w, issued, raw);
      x.world == s.saveRaw(w, raw).world && (s.saveRaw(w, raw).result.Ok? ==> x.exit == Failed(Clean))
  {
  }

  /** A run fails at the silver dtype check only after a successful clean, and only
      when a bound of the range is unreadable or the cleaned table is refused. */
  lemma SilverCheckFailure(s: Steps, range: DateRange, w: World, issued: nat, raw: Table)
    ensures FromRaw(s, range, w, issued, raw).exit == Failed(SilverCheck) ==>
              s.clean(raw).Ok?
              && (!BoundReadable(range.start) || !BoundReadable(range.end) || SilverDtypeRefused(s.clean(raw).value))
  {
    var saved := s.saveRaw(w, raw);
    if saved.result.Ok? && s.clean(raw).Ok? {
      var silver := s.clean(raw).value;
      if BoundReadable(range.start) && BoundReadable(range.end) && !SilverDtypeRefused(silver) && s.validateSilver(silver) {
        var kept := s.saveSilver(saved.world, issued, silver);
        if kept.result.Ok? {
          GoldInOrder(s, kept.world, kept.issued, silver);
        }
      }
    }
  }

  /** Nothing reaches the silver layer unless silver validation passed it. */
  lemma SilverWrittenOnlyWhenPassed(s: Steps, range: DateRange, w: World, issued: nat, silver: Table)
    ensures var x := FromSilver(s, range, w, issued, silver);
      x.world != w || x.issued != issued ==> s.validateSilver(silver)
  {
  }

  /** Nothing reaches the gold layer unless the gold table is non-empty and passed
      gold validation. */
  lemma GoldWrittenOnlyWhenPassed(s: Steps, w: World, issued: nat, silver: Table)
    ensures var x := FromGold(s, w, issued, silver);
      x.world != w || x.issued != issued ==>
        s.build(silver).Ok? && !IsEmpty(s.build(silver).value) && s.validateGold(s.build(silver).value)
  {
  }

  /** The business range is only read, never applied: any readable range gives the
      same run as any other. */
  lemma BusinessRangeNotApplied(s: Steps, range: DateRange, other: DateRange, w: World, issued: nat, silver: Table)
    requires BoundReadable(range.start) && BoundReadable(range.end)
    requires BoundReadable(other.start) && BoundReadable(other.end)
    ensures FromSilver(s, other, w, issued, silver) == FromSilver(s, range, w, issued, silver)
  {
  }

  // ---------------------------------------------------------------------------
  // Properties of the daily run
  // ---------------------------------------------------------------------------

  /** The daily run is strictly sequential. */
  lemma StagesInOrder(feed: BronzeFetch.Feed, w: World, issued: nat, cfg: Config, env: Env, runDate: Date)
    ensures var x := RunPipeline(feed, w, issued, cfg, env, runDate);
      InOrderFrom(x.trace, x.exit, 0)
      && (x.exit == Done ==> x.trace == Stages)
      && (x.exit.Stopped? ==> x.exit.at == Fetch || x.exit.at == BuildGold)
  {
    RunInOrder(Daily(cfg, env, runDate), BusinessRange(cfg), feed, w, issued);
  }

  /** The fetch is the bronze fetch over the configured source range. */
  lemma DailyFetch(feed: BronzeFetch.Feed, w: World, issued: nat, cfg: Config, env: Env, runDate: Date)
    ensures var fetched := BronzeFetch.FetchHose(feed, cfg.sourceRange.start, cfg.sourceRange.end, Some(runDate),
                                                 env.symbols, env.concat);
      var x := RunPipeline(feed, w, issued, cfg, env, runDate);
      x.feed == fetched.feed
      && (fetched.result.Err? ==> x.exit == Failed(Fetch) && x.world == w && x.issued == issued)
      && (fetched.result.Ok? && IsEmpty(fetched.result.value) ==> x.exit == Stopped(Fetch) && x.world == w && x.issued == issued)
  {
    FetchGate(Daily(cfg, env, runDate), BusinessRange(cfg), feed, w, issued);
  }

  /** What the cleaner returns is never refused by the silver dtype check. */
  lemma CleanedNotRefused(raw: Table, now: Value)
    requires SilverCleaner.CleanStockPrice(Some(raw), Exchange, Source, now).Ok?
    ensures !SilverDtypeRefused(SilverCleaner.CleanStockPrice(Some(raw), Exchange, Source, now).value)
  {
    var silver := SilverCleaner.CleanStockPrice(Some(raw), Exchange, Source, now).value;
    if !IsEmpty(raw) {
      SilverCleaner.CleanEstablishes(raw, Exchange, Source, now);
    } else {
      SilverCleaner.EmptyInputGivesEmpty(Some(raw), Exchange, Source, now);
    }
  }

  /** The silver dtype check of the daily run fails only when a bound of the business
      range cannot be read. */
  lemma SilverCheckOnlyOnRange(w: World, issued: nat, cfg: Config, env: Env, runDate: Date, raw: Table)
    ensures FromRaw(Daily(cfg, env, runDate), BusinessRange(cfg), w, issued, raw).exit == Failed(SilverCheck) ==>
              !BoundReadable(BusinessRange(cfg).start) || !BoundReadable(BusinessRange(cfg).end)
  {
    var s := Daily(cfg, env, runDate);
    SilverCheckFailure(s, BusinessRange(cfg), w, issued, raw);
    assert s.clean(raw) == SilverCleaner.CleanStockPrice(Some(raw), Exchange, Source, env.now);
    if s.clean(raw).Ok? {
      CleanedNotRefused(raw, env.now);
    }
  }

  /** Strict silver validation passes only a non-empty table whose report has no
      violation and no crash. */
  lemma SilverPassesClean(env: Env, silver: Table)
    requires SilverPasses(env, silver)
    ensures !IsEmpty(silver)
    ensures var report := SchemaValidator.Check(silver, env.silverSchema.value);
      report.violations == [] && report.crash.None?
  {
    var c := env.silverSchema.value;
    if IsEmpty(silver) {
      SchemaValidator.EmptyTableOnly(Some(silver), c);
    }
    assert SchemaValidator.Decide(SchemaValidator.Check(silver, c), true).Passed?;
  }

  /** Nothing reaches the silver layer unless strict validation passed it. */
  lemma SilverWrittenOnlyWhenValid(w: World, issued: nat, cfg: Config, env: Env, runDate: Date, silver: Table)
    ensures var x := FromSilver(Daily(cfg, env, runDate), BusinessRange(cfg), w, issued, silver);
      x.world != w || x.issued != issued ==>
        env.silverSchema.Some? && !IsEmpty(silver)
        && var report := SchemaValidator.Check(silver, env.silverSchema.value);
        report.violations == [] && report.crash.None?
  {
    SilverWrittenOnlyWhenPassed(Daily(cfg, env, runDate), BusinessRange(cfg), w, issued, silver);
    if SilverPasses(env, silver) {
      SilverPassesClean(env, silver);
    }
  }

  /** Strict gold validation passes only with nothing logged. */
  lemma GoldPassesClean(env: Env, gold: Table)
    requires GoldPasses(env, gold)
    ensures GoldValidator.GoldExpected(Some(gold), env.goldFiles, env.goldRoot, GoldValidator.DefaultSchemaPath, true)
              == GoldValidator.Delegated(SchemaValidator.Passed([]))
  {
    GoldValidator.StrictGoldRaisesOrPassesClean(gold, env.goldFiles, env.goldRoot, GoldValidator.DefaultSchemaPath);
  }

  /** Nothing reaches the gold layer unless the gold table is non-empty and passed
      strict validation against the gold schema with nothing logged. */
  lemma GoldWrittenOnlyWhenValid(w: World, issued: nat, cfg: Config, env: Env, runDate: Date, silver: Table)
    ensures var x := FromGold(Daily(cfg, env, runDate), w, issued, silver);
      x.world != w || x.issued != issued ==>
        var built := GoldBuilder.BuildStockPriceDaily(Some(silver));
        built.Ok? && !IsEmpty(built.value)
        && GoldValidator.GoldExpected(Some(built.value), env.goldFiles, env.goldRoot, GoldValidator.DefaultSchemaPath, true)
             == GoldValidator.Delegated(SchemaValidator.Passed([]))
  {
    var s := Daily(cfg, env, runDate);
    GoldWrittenOnlyWhenPassed(s, w, issued, silver);
    var x := FromGold(s, w, issued, silver);
    if x.world != w || x.issued != issued {
      assert s.build(silver) == GoldBuilder.BuildStockPriceDaily(Some(silver));
      GoldPassesClean(env, s.build(silver).value);
    }
  }

  /** A daily run that gets through gold has saved the gold table through the writer:
      one parquet object per trading day, each holding that day's rows, and the store
      is left as the gold save left it. */
  lemma DoneMeansGoldSaved(w: World, issued: nat, cfg: Config, env: Env, runDate: Date, silver: Table)
    requires FromGold(Daily(cfg, env, runDate), w, issued, silver).exit == Done
    ensures var gold := GoldBuilder.BuildStockPriceDaily(Some(silver)).value;
      var up := UploadDataFrame(w, issued, Some(gold), cfg.bucket, cfg.goldPath, GoldSaver.GoldPartition,
                                GoldSaver.GoldRequired, "part-", "parquet", env.parquet);
      var x := FromGold(Daily(cfg, env, runDate), w, issued, silver);
      up.result.Ok? && x.world == up.world
      && |up.result.value| == |PartitionDays(gold, GoldSaver.GoldPartition)|
      && forall j :: 0 <= j < |up.result.value| ==>
           Get(x.world.objects, Location(cfg.bucket, up.result.value[j]))
             == Some(env.parquet(PartTable(gold, GoldSaver.GoldPartition, PartitionDays(gold, GoldSaver.GoldPartition)[j])))
  {
    var gold := GoldBuilder.BuildStockPriceDaily(Some(silver)).value;
    GoldSaver.SaveGoldIsWriter(w, issued, gold, cfg.bucket, cfg.goldPath, GoldSaver.GoldPartition, env.parquet);
  }
}
