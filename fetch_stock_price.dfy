/** The bronze fetch: which symbols are stocks, strict ISO dates for the requested
    range, the per-symbol request loop with its rate-limit retries, and the hard
    date filter on the combined quotes with its closing contract check.

    The quote service is a class driven by an oracle of responses; the symbol
    listing and `pd.concat` are parameters. */
module BronzeFetch {
  import opened Wrappers
  import opened Values
  import opened Tables

  /** Requests per symbol, rate-limited ones included. */
  const MaxRetry: nat := 3
  const ApiSource: string := "vnstock:VCI"

  // ---------------------------------------------------------------------------
  // is_valid_stock_symbol
  // ---------------------------------------------------------------------------

  /** The characters `str.strip()` removes. */
  predicate IsSpace(c: char) {
    (9 <= c as int <= 13) || (28 <= c as int <= 32) || c as int == 0x85 || c as int == 0xA0
    || c as int == 0x1680 || (0x2000 <= c as int <= 0x200A) || c as int == 0x2028 || c as int == 0x2029
    || c as int == 0x202F || c as int == 0x205F || c as int == 0x3000
  }

  predicate AllSpace(s: string) {
    forall k :: 0 <= k < |s| ==> IsSpace(s[k])
  }

  function StripLeft(s: string): string {
    if s != [] && IsSpace(s[0]) then StripLeft(s[1..]) else s
  }

  function StripRight(s: string): string {
    if s != [] && IsSpace(s[|s| - 1]) then StripRight(s[..|s| - 1]) else s
  }

  /** `str.strip()`. */
  function Strip(s: string): string {
    StripRight(StripLeft(s))
  }

  /** A character of `[A-Z0-9]`. */
  predicate IsSymbolChar(c: char) {
    ('A' <= c <= 'Z') || ('0' <= c <= '9')
  }

  /** `is_valid_stock_symbol`: non-empty, and three characters of `[A-Z0-9]` once
      stripped and upper-cased. */
  predicate IsValidStockSymbol(symbol: string) {
    symbol != []
    && var normalized := Upper(Strip(symbol));
    |normalized| == 3 && forall k :: 0 <= k < 3 ==> IsSymbolChar(normalized[k])
  }

  /** An ASCII letter of either case or a digit. */
  predicate IsAsciiAlnum(c: char) {
    ('A' <= c <= 'Z') || ('a' <= c <= 'z') || ('0' <= c <= '9')
  }

  /** Three ASCII letters or digits at `i`, with only white space around them. */
  predicate PaddedSymbolAt(s: string, i: nat) {
    i + 3 <= |s| && AllSpace(s[..i]) && AllSpace(s[i + 3..])
    && forall k :: i <= k < i + 3 ==> IsAsciiAlnum(s[k])
  }

  lemma UpperSymbolChar(c: char)
    ensures IsSymbolChar(UpperChar(c)) <==> IsAsciiAlnum(c)
  {
  }

  /** Where `StripLeft` cuts: after the leading white space. */
  lemma {:induction false} StripLeftCut(s: string) returns (i: nat)
    ensures i <= |s| && StripLeft(s) == s[i..] && AllSpace(s[..i]) && (i < |s| ==> !IsSpace(s[i]))
    decreases |s|
  {
    if s != [] && IsSpace(s[0]) {
      var j := StripLeftCut(s[1..]);
      i := j + 1;
      assert s[1..][j..] == s[i..];
      assert forall k :: 1 <= k < i ==> s[k] == s[1..][k - 1];
    } else {
      i := 0;
    }
  }

  /** Where `StripRight` cuts: before the trailing white space. */
  lemma {:induction false} StripRightCut(s: string) returns (j: nat)
    ensures j <= |s| && StripRight(s) == s[..j] && AllSpace(s[j..]) && (j > 0 ==> !IsSpace(s[j - 1]))
    decreases |s|
  {
    if s != [] && IsSpace(s[|s| - 1]) {
      var init := s[..|s| - 1];
      j := StripRightCut(init);
      assert init[..j] == s[..j];
      assert forall k :: j <= k < |init| ==> s[k] == init[k];
    } else {
      j := |s|;
    }
  }

  /** `StripLeft` removes exactly a white-space prefix followed by a non-space. */
  lemma {:induction false} StripLeftAt(s: string, i: nat)
    requires i <= |s| && AllSpace(s[..i]) && (i < |s| ==> !IsSpace(s[i]))
    ensures StripLeft(s) == s[i..]
    decreases i
  {
    if i > 0 {
      assert s[1..][..i - 1] == s[1..i];
      assert forall k :: 0 <= k < i - 1 ==> s[1..][k] == s[k + 1];
      StripLeftAt(s[1..], i - 1);
      assert s[1..][i - 1..] == s[i..];
    } else if s != [] {
      assert !IsSpace(s[0]);
    }
  }

  /** `StripRight` removes exactly a white-space suffix preceded by a non-space. */
  lemma {:induction false} StripRightAt(s: string, j: nat)
    requires j <= |s| && AllSpace(s[j..]) && (j > 0 ==> !IsSpace(s[j - 1]))
    ensures StripRight(s) == s[..j]
    decreases |s| - j
  {
    if j < |s| {
      var init := s[..|s| - 1];
      assert IsSpace(s[|s| - 1]) by {
        assert s[|s| - 1] == s[j..][|s| - 1 - j];
      }
      assert forall k :: 0 <= k < |init| - j ==> init[j..][k] == s[j..][k];
      StripRightAt(init, j);
      assert init[..j] == s[..j];
    } else if s != [] {
      assert !IsSpace(s[|s| - 1]);
      assert s[..|s|] == s;
    }
  }

  /** A symbol is valid exactly when it is three ASCII letters (of either case) or
      digits with nothing but white space around them. */
  lemma ValidSymbolIff(s: string)
    ensures IsValidStockSymbol(s) <==> exists i: nat :: PaddedSymbolAt(s, i)
  {
    if IsValidStockSymbol(s) {
      var i := StripLeftCut(s);
      var u := s[i..];
      var j := StripRightCut(u);
      assert Strip(s) == u[..j];
      assert j == 3;
      forall k | i <= k < i + 3 ensures IsAsciiAlnum(s[k]) {
        assert s[k] == Strip(s)[k - i];
        UpperSymbolChar(s[k]);
      }
      assert u[j..] == s[i + 3..];
      assert PaddedSymbolAt(s, i);
    }
    if exists i: nat :: PaddedSymbolAt(s, i) {
      var i: nat :| PaddedSymbolAt(s, i);
      assert !IsSpace(s[i]) by { assert IsAsciiAlnum(s[i]); }
      StripLeftAt(s, i);
      var u := s[i..];
      assert u[3..] == s[i + 3..];
      assert !IsSpace(u[2]) by { assert u[2] == s[i + 2]; assert IsAsciiAlnum(s[i + 2]); }
      StripRightAt(u, 3);
      assert Strip(s) == s[i..i + 3];
      forall k | 0 <= k < 3 ensures IsSymbolChar(Upper(Strip(s))[k]) {
        assert Strip(s)[k] == s[i + k];
        UpperSymbolChar(s[i + k]);
      }
    }
  }

  // ---------------------------------------------------------------------------
  // _normalize_date_str
  // ---------------------------------------------------------------------------

  datatype FetchError =
    | InvalidDateFormat(text: string) // ValueError
    | NoDateBound                     // AttributeError on a missing bound
    | MissingTimeColumn               // KeyError
    | DateContractViolated            // AssertionError

  /** `_normalize_date_str`: an absent date stays absent, a day `%Y-%m-%d` reads is
      returned in ISO form, anything else is an error. */
  function NormalizeDateStr(d: Option<string>): (r: Result<Option<string>, FetchError>)
    ensures d.None? <==> r == Ok(None)
    ensures d.Some? ==> (r.Err? <==> ParseIsoDate(d.value).None?)
    ensures d.Some? && r.Ok? ==> r.value == Some(FormatDate(ParseIsoDate(d.value).value))
    ensures d.Some? && r.Ok? && |d.value| == 10 ==> r.value == Some(d.value)
    ensures d.Some? && r.Ok? ==> ParseIsoDate(r.value.value) == ParseIsoDate(d.value)
    ensures r.Err? ==> r == Err(InvalidDateFormat(d.value))
  {
    match d
    case None => Ok(None)
    case Some(s) =>
      match ParseIsoDate(s)
      case None => Err(InvalidDateFormat(s))
      case Some(day) =>
        IsoDateRoundTrip(day);
        if |s| == 10 then IsoDateCanonical(s); Ok(Some(FormatDate(day)))
        else Ok(Some(FormatDate(day)))
  }

  /** A one-digit month or day is padded: `2024-1-5` becomes `2024-01-05`. */
  lemma ShortDateNormalized()
    ensures NormalizeDateStr(Some("2024-1-5")) == Ok(Some("2024-01-05"))
  {
    ShortIsoDate();
    ShortDateFormatted();
  }

  lemma ShortDateFormatted()
    ensures FormatDate(Date(2024, 1, 5)) == "2024-01-05"
  {
    PaddedYear();
    PaddedMonthDay();
    assert "2024" + "-01-05" == "2024-01-05";
  }

  lemma PaddedYear()
    ensures PadDigits(2024, 4) == "2024"
  {
    assert PadDigits(2, 1) == "2";
    assert PadDigits(20, 2) == "20";
    assert PadDigits(202, 3) == "202";
  }

  lemma PaddedMonthDay()
    ensures DateTail(Date(2024, 1, 5)) == "-01-05"
  {
    assert PadDigits(1, 2) == "01";
    assert PadDigits(5, 2) == "05";
  }

  /** Every day the pipeline can represent is accepted as its own ISO form. */
  lemma FormattedDateAccepted(day: Date)
    requires ValidDate(day)
    ensures NormalizeDateStr(Some(FormatDate(day))) == Ok(Some(FormatDate(day)))
  {
    IsoDateRoundTrip(day);
  }

  // ---------------------------------------------------------------------------
  // The quote service and the per-symbol retry loop
  // ---------------------------------------------------------------------------

  /** One answer of `quote.history`: a frame (or `None`), tenacity's `RetryError`,
      or any other exception, known by its message. */
  datatype Response =
    | Quote(data: Option<Table>)
    | RetryExhausted
    | Failure(message: string)

  /** The rate-limit test on an exception's message. */
  predicate RateLimited(message: string) {
    Contains(Lower(message), "rate limit") || Contains(Lower(message), "429")
  }

  predicate IsRateLimit(resp: Response) {
    resp.Failure? && RateLimited(resp.message)
  }

  /** The service as the fetch sees it: the answers still to come (an exhausted
      oracle answers `None`), the symbols requested so far, the rate-limit
      back-offs and the pauses between symbols. */
  datatype Feed = Feed(responses: seq<Response>, requests: seq<string>, backoffs: nat, pauses: nat)

  function NextResponse(f: Feed): Response {
    if f.responses == [] then Quote(None) else f.responses[0]
  }

  /** The feed after one request for `symbol`. */
  function Requested(f: Feed, symbol: string): Feed {
    f.(responses := if f.responses == [] then [] else f.responses[1..], requests := f.requests + [symbol])
  }

  /** `df["symbol"] = symbol` on a copy of a returned frame. */
  function WithSymbol(t: Table, symbol: string): (r: Table)
    ensures r.dtypes == t.dtypes["symbol" := ObjectType] && |r.rows| == |t.rows|
    ensures forall i :: 0 <= i < |t.rows| ==> r.rows[i] == t.rows[i]["symbol" := TextV(symbol)]
  {
    SetColumn(t, "symbol", ObjectType, seq(|t.rows|, _ => TextV(symbol)))
  }

  /** What the loop keeps of an answer that ends it: a non-empty frame, tagged. */
  function Accepted(resp: Response, symbol: string): (r: Option<Table>)
    ensures r.Some? <==> resp.Quote? && resp.data.Some? && !IsEmpty(resp.data.value)
    ensures r.Some? ==> r.value == WithSymbol(resp.data.value, symbol) && !IsEmpty(r.value)
  {
    if resp.Quote? && resp.data.Some? && !IsEmpty(resp.data.value) then Some(WithSymbol(resp.data.value, symbol))
    else None
  }

  datatype Fetched = Fetched(feed: Feed, data: Option<Table>)

  /** The retry loop for one symbol, from `retry` rate limits so far: only a rate
      limit leads to another request. */
  function FetchSymbolFrom(f: Feed, symbol: string, retry: nat): Fetched
    decreases MaxRetry - retry
  {
    if retry >= MaxRetry then Fetched(f, None)
    else
      var resp := NextResponse(f);
      var g := Requested(f, symbol);
      if IsRateLimit(resp) then FetchSymbolFrom(g.(backoffs := g.backoffs + 1), symbol, retry + 1)
      else Fetched(g, Accepted(resp, symbol))
  }

  /** One valid symbol: its retry loop, then the pause before the next symbol. */
  function FetchSymbol(f: Feed, symbol: string): Fetched {
    var x := FetchSymbolFrom(f, symbol, 0);
    Fetched(x.feed.(pauses := x.feed.pauses + 1), x.data)
  }

  /** The quote client: answers come from an oracle; the requests made and the
      sleeps taken are recorded. */
  class QuoteService {
    var responses: seq<Response>
    ghost var requests: seq<string>
    ghost var backoffs: nat
    ghost var pauses: nat

    constructor (oracle: seq<Response>)
      ensures State() == Feed(oracle, [], 0, 0)
    {
      responses := oracle;
      requests := [];
      backoffs := 0;
      pauses := 0;
    }

    ghost function State(): Feed
      reads this
    {
      Feed(responses, requests, backoffs, pauses)
    }

    /** `quote.history(symbol=symbol, start=..., end=...)`. */
    method History(symbol: string) returns (resp: Response)
      modifies this
      ensures resp == NextResponse(old(State())) && State() == Requested(old(State()), symbol)
    {
      resp := if responses == [] then Quote(None) else responses[0];
      responses := if responses == [] then [] else responses[1..];
      requests := requests + [symbol];
    }

    /** The rate-limit sleep (`RETRY_SLEEP` plus jitter). */
    method Backoff()
      modifies this
      ensures State() == old(State()).(backoffs := old(backoffs) + 1)
    {
      backoffs := backoffs + 1;
    }

    /** `time.sleep(SLEEP_PER_SYMBOL)`. */
    method Pause()
      modifies this
      ensures State() == old(State()).(pauses := old(pauses) + 1)
    {
      pauses := pauses + 1;
    }
  }

  /** One turn of the retry loop: a rate limit goes on with one more back-off, any
      other answer ends it. */
  lemma FetchSymbolStep(f: Feed, symbol: string, retry: nat)
    requires retry < MaxRetry
    ensures IsRateLimit(NextResponse(f)) ==>
              FetchSymbolFrom(f, symbol, retry)
                == FetchSymbolFrom(Requested(f, symbol).(backoffs := f.backoffs + 1), symbol, retry + 1)
    ensures !IsRateLimit(NextResponse(f)) ==>
              FetchSymbolFrom(f, symbol, retry) == Fetched(Requested(f, symbol), Accepted(NextResponse(f), symbol))
  {
  }

  /** The body of the symbol loop for a valid symbol. */
  method FetchSymbolQuotes(svc: QuoteService, symbol: string) returns (data: Option<Table>)
    modifies svc
    ensures Fetched(svc.State(), data) == FetchSymbol(old(svc.State()), symbol)
  {
    ghost var target := FetchSymbolFrom(svc.State(), symbol, 0);
    var retry: nat := 0;
    data := None;
    while retry < MaxRetry
      invariant retry <= MaxRetry && data == None
      invariant target == FetchSymbolFrom(svc.State(), symbol, retry)
      decreases MaxRetry - retry
    {
      FetchSymbolStep(svc.State(), symbol, retry);
      var resp := svc.History(symbol);
      if resp.Quote? {
        if resp.data.Some? && !IsEmpty(resp.data.value) {
          data := Some(WithSymbol(resp.data.value, symbol));
        }
        assert target == Fetched(svc.State(), data);
        break;
      } else if resp.RetryExhausted? {
        assert target == Fetched(svc.State(), data);
        break;
      } else if RateLimited(resp.message) {
        retry := retry + 1;
        svc.Backoff();
      } else {
        assert target == Fetched(svc.State(), data);
        break;
      }
    }
    svc.Pause();
  }

  /** What one symbol contributes to `results`. */
  function Found(x: Fetched): seq<Table> {
    if x.data.Some? then [x.data.value] else []
  }

  datatype Collected = Collected(feed: Feed, results: seq<Table>)

  /** The symbol loop: invalid symbols are skipped without a request or a pause. */
  function FetchAll(f: Feed, symbols: seq<string>): Collected
    decreases |symbols|
  {
    if symbols == [] then Collected(f, [])
    else if !IsValidStockSymbol(symbols[0]) then FetchAll(f, symbols[1..])
    else
      var x := FetchSymbol(f, symbols[0]);
      var rest := FetchAll(x.feed, symbols[1..]);
      Collected(rest.feed, Found(x) + rest.results)
  }

  method FetchQuotes(svc: QuoteService, symbols: seq<string>) returns (results: seq<Table>)
    modifies svc
    ensures Collected(svc.State(), results) == FetchAll(old(svc.State()), symbols)
  {
    ghost var target := FetchAll(svc.State(), symbols);
    results := [];
    var i := 0;
    while i < |symbols|
      invariant i <= |symbols|
      invariant var rest := FetchAll(svc.State(), symbols[i..]);
        target == Collected(rest.feed, results + rest.results)
      decreases |symbols| - i
    {
      assert symbols[i..][1..] == symbols[i + 1..];
      if IsValidStockSymbol(symbols[i]) {
        ghost var before := svc.State();
        var data := FetchSymbolQuotes(svc, symbols[i]);
        if data.Some? {
          results := results + [data.value];
        }
        assert Found(Fetched(svc.State(), data)) + FetchAll(svc.State(), symbols[i + 1..]).results
               == Found(FetchSymbol(before, symbols[i])) + FetchAll(svc.State(), symbols[i + 1..]).results;
      }
      i := i + 1;
    }
    assert symbols[i..] == [];
  }

  // ---------------------------------------------------------------------------
  // Properties of the retry loop and the symbol loop
  // ---------------------------------------------------------------------------

  function Repeat(symbol: string, n: nat): (r: seq<string>)
    ensures |r| == n && forall j :: 0 <= j < n ==> r[j] == symbol
  {
    seq(n, _ => symbol)
  }

  lemma RepeatCons(prefix: seq<string>, symbol: string, n: nat)
    ensures (prefix + [symbol]) + Repeat(symbol, n) == prefix + Repeat(symbol, n + 1)
  {
    assert [symbol] + Repeat(symbol, n) == Repeat(symbol, n + 1);
  }

  /** After `k` rate limits the first other answer ends the loop: `k + 1` requests
      for the symbol, `k` back-offs, and that answer decides what is kept. */
  lemma {:induction false} FetchSymbolStops(f: Feed, symbol: string, retry: nat, k: nat)
    requires retry + k < MaxRetry && k < |f.responses|
    requires forall j :: 0 <= j < k ==> IsRateLimit(f.responses[j])
    requires !IsRateLimit(f.responses[k])
    ensures FetchSymbolFrom(f, symbol, retry)
              == Fetched(Feed(f.responses[k + 1..], f.requests + Repeat(symbol, k + 1), f.backoffs + k, f.pauses),
                         Accepted(f.responses[k], symbol))
    decreases k
  {
    var g := Requested(f, symbol).(backoffs := f.backoffs + 1);
    if k > 0 {
      assert IsRateLimit(f.responses[0]);
      assert forall j :: 0 <= j < k - 1 ==> g.responses[j] == f.responses[j + 1];
      FetchSymbolStops(g, symbol, retry + 1, k - 1);
      assert g.responses[k..] == f.responses[k + 1..];
      assert g.requests + Repeat(symbol, k) == f.requests + Repeat(symbol, k + 1);
    } else {
      assert f.requests + [symbol] == f.requests + Repeat(symbol, 1);
    }
  }

  /** `MaxRetry` rate limits in a row: the symbol is given up with nothing kept,
      after `MaxRetry` requests and as many back-offs. */
  lemma {:induction false} FetchSymbolGivesUp(f: Feed, symbol: string, retry: nat)
    requires retry <= MaxRetry && MaxRetry - retry <= |f.responses|
    requires forall j :: 0 <= j < MaxRetry - retry ==> IsRateLimit(f.responses[j])
    ensures var n := MaxRetry - retry;
      FetchSymbolFrom(f, symbol, retry)
        == Fetched(Feed(f.responses[n..], f.requests + Repeat(symbol, n), f.backoffs + n, f.pauses), None)
    decreases MaxRetry - retry
  {
    if retry < MaxRetry {
      var n := MaxRetry - retry;
      var g := Requested(f, symbol).(backoffs := f.backoffs + 1);
      assert NextResponse(f) == f.responses[0] && IsRateLimit(f.responses[0]);
      assert FetchSymbolFrom(f, symbol, retry) == FetchSymbolFrom(g, symbol, retry + 1);
      assert g.responses == f.responses[1..];
      assert forall j :: 0 <= j < n - 1 ==> g.responses[j] == f.responses[j + 1];
      FetchSymbolGivesUp(g, symbol, retry + 1);
      assert g.responses[n - 1..] == f.responses[n..];
      RepeatCons(f.requests, symbol, n - 1);
    } else {
      assert f.responses[0..] == f.responses;
      assert f.requests + Repeat(symbol, 0) == f.requests;
    }
  }

  /** `x` follows `f` by between one and `most` requests, all for `symbol`, at most
      one back-off per request and no pause. */
  predicate RequestedWithin(f: Feed, x: Feed, symbol: string, most: nat) {
    |f.requests| < |x.requests| <= |f.requests| + most
    && x.requests[..|f.requests|] == f.requests
    && (forall j :: |f.requests| <= j < |x.requests| ==> x.requests[j] == symbol)
    && f.backoffs <= x.backoffs <= f.backoffs + (|x.requests| - |f.requests|)
    && x.pauses == f.pauses
  }

  /** A single request, with or without its back-off. */
  lemma OneRequestWithin(f: Feed, g: Feed, symbol: string, most: nat)
    requires 1 <= most && g.requests == f.requests + [symbol]
    requires f.backoffs <= g.backoffs <= f.backoffs + 1 && g.pauses == f.pauses
    ensures RequestedWithin(f, g, symbol, most)
  {
    assert g.requests[..|f.requests|] == f.requests;
  }

  /** One rate-limited request in front of a run that stays within `most`. */
  lemma RequestBeforeWithin(f: Feed, g: Feed, x: Feed, symbol: string, most: nat)
    requires g.requests == f.requests + [symbol] && g.backoffs == f.backoffs + 1 && g.pauses == f.pauses
    requires RequestedWithin(g, x, symbol, most)
    ensures RequestedWithin(f, x, symbol, most + 1)
  {
    assert x.requests[..|f.requests|] == x.requests[..|g.requests|][..|f.requests|];
    assert x.requests[|f.requests|] == g.requests[|f.requests|] == symbol;
  }

  /** Whatever the service answers, a symbol costs at least one and at most
      `MaxRetry` requests, all for that symbol, and at most as many back-offs. */
  lemma {:induction false} FetchSymbolBounds(f: Feed, symbol: string, retry: nat)
    requires retry < MaxRetry
    ensures RequestedWithin(f, FetchSymbolFrom(f, symbol, retry).feed, symbol, MaxRetry - retry)
    decreases MaxRetry - retry
  {
    var g := Requested(f, symbol);
    var h := g.(backoffs := g.backoffs + 1);
    var x := FetchSymbolFrom(f, symbol, retry);
    if IsRateLimit(NextResponse(f)) {
      assert x == FetchSymbolFrom(h, symbol, retry + 1);
      if retry + 1 < MaxRetry {
        FetchSymbolBounds(h, symbol, retry + 1);
        RequestBeforeWithin(f, h, x.feed, symbol, MaxRetry - retry - 1);
      } else {
        assert x.feed == h;
        OneRequestWithin(f, h, symbol, MaxRetry - retry);
      }
    } else {
      assert x.feed == g;
      OneRequestWithin(f, g, symbol, MaxRetry - retry);
    }
  }

  /** A kept frame is a non-empty answer of the service tagged with the symbol. */
  lemma {:induction false} FetchSymbolKept(f: Feed, symbol: string, retry: nat)
    ensures var x := FetchSymbolFrom(f, symbol, retry);
      x.data.Some? ==>
        !IsEmpty(x.data.value) && "symbol" in x.data.value.dtypes
        && forall i :: 0 <= i < |x.data.value.rows| ==> Cell(x.data.value.rows[i], "symbol") == TextV(symbol)
    decreases MaxRetry - retry
  {
    if retry < MaxRetry && IsRateLimit(NextResponse(f)) {
      var g := Requested(f, symbol);
      FetchSymbolKept(g.(backoffs := g.backoffs + 1), symbol, retry + 1);
    }
  }

  /** The number of valid stock symbols in a listing. */
  function CountValid(symbols: seq<string>): (n: nat)
    ensures n <= |symbols|
  {
    if symbols == [] then 0 else (if IsValidStockSymbol(symbols[0]) then 1 else 0) + CountValid(symbols[1..])
  }

  /** The symbol loop requests only valid symbols of the listing, at most
      `MaxRetry` times each, and pauses once per valid symbol. */
  lemma {:induction false} FetchAllRequests(f: Feed, symbols: seq<string>)
    ensures var c := FetchAll(f, symbols);
      |f.requests| <= |c.feed.requests| <= |f.requests| + MaxRetry * CountValid(symbols)
      && c.feed.requests[..|f.requests|] == f.requests
      && (forall j :: |f.requests| <= j < |c.feed.requests| ==>
            c.feed.requests[j] in symbols && IsValidStockSymbol(c.feed.requests[j]))
      && c.feed.pauses == f.pauses + CountValid(symbols)
    decreases |symbols|
  {
    if symbols != [] {
      var tail := symbols[1..];
      if !IsValidStockSymbol(symbols[0]) {
        FetchAllRequests(f, tail);
      } else {
        FetchSymbolBounds(f, symbols[0], 0);
        var x := FetchSymbol(f, symbols[0]);
        FetchAllRequests(x.feed, tail);
        var c := FetchAll(f, symbols);
        assert c.feed.requests[..|f.requests|] == c.feed.requests[..|x.feed.requests|][..|f.requests|];
        forall j | |f.requests| <= j < |c.feed.requests|
          ensures c.feed.requests[j] in symbols && IsValidStockSymbol(c.feed.requests[j])
        {
          if j < |x.feed.requests| {
            assert c.feed.requests[j] == x.feed.requests[j] == symbols[0];
          } else {
            assert c.feed.requests[j] in tail;
          }
        }
      }
    }
  }

  /** Every row of `t` names `symbol`. */
  predicate NamedBy(t: Table, symbol: string) {
    forall i :: 0 <= i < |t.rows| ==> Cell(t.rows[i], "symbol") == TextV(symbol)
  }

  /** A non-empty frame with a `symbol` column naming one valid symbol of `symbols`. */
  predicate FromListing(t: Table, symbols: seq<string>) {
    !IsEmpty(t) && "symbol" in t.dtypes && exists s :: s in symbols && IsValidStockSymbol(s) && NamedBy(t, s)
  }

  /** Every frame of `results` comes from the listing. */
  predicate AllFromListing(results: seq<Table>, symbols: seq<string>) {
    forall k :: 0 <= k < |results| ==> FromListing(results[k], symbols)
  }

  lemma FromListingWider(t: Table, symbols: seq<string>)
    requires symbols != [] && FromListing(t, symbols[1..])
    ensures FromListing(t, symbols)
  {
    var s :| s in symbols[1..] && IsValidStockSymbol(s) && NamedBy(t, s);
    assert s in symbols;
  }

  lemma AllFromListingWider(results: seq<Table>, symbols: seq<string>)
    requires symbols != [] && AllFromListing(results, symbols[1..])
    ensures AllFromListing(results, symbols)
  {
    forall k | 0 <= k < |results| ensures FromListing(results[k], symbols) {
      FromListingWider(results[k], symbols);
    }
  }

  lemma AllFromListingJoin(head: seq<Table>, rest: seq<Table>, symbols: seq<string>)
    requires AllFromListing(head, symbols) && AllFromListing(rest, symbols)
    ensures AllFromListing(head + rest, symbols)
  {
    forall k | 0 <= k < |head + rest| ensures FromListing((head + rest)[k], symbols) {
      if k >= |head| {
        assert (head + rest)[k] == rest[k - |head|];
      }
    }
  }

  /** Every kept frame is non-empty and carries a `symbol` column naming one valid
      symbol of the listing. */
  lemma {:induction false} FetchAllResults(f: Feed, symbols: seq<string>)
    ensures var c := FetchAll(f, symbols);
      |c.results| <= CountValid(symbols) && AllFromListing(c.results, symbols)
    decreases |symbols|
  {
    if symbols != [] {
      var tail := symbols[1..];
      var c := FetchAll(f, symbols);
      if !IsValidStockSymbol(symbols[0]) {
        FetchAllResults(f, tail);
        assert c == FetchAll(f, tail);
        AllFromListingWider(c.results, symbols);
      } else {
        FetchSymbolKept(f, symbols[0], 0);
        var x := FetchSymbol(f, symbols[0]);
        FetchAllResults(x.feed, tail);
        var rest := FetchAll(x.feed, tail);
        AllFromListingWider(rest.results, symbols);
        if x.data.Some? {
          assert symbols[0] in symbols && NamedBy(x.data.value, symbols[0]);
          assert FromListing(x.data.value, symbols);
        }
        AllFromListingJoin(Found(x), rest.results, symbols);
        assert c.results == Found(x) + rest.results;
      }
    }
  }

  // ---------------------------------------------------------------------------
  // The hard date filter on the combined quotes
  // ---------------------------------------------------------------------------

  /** Timestamp order, `a <= b`. */
  predicate TsLe(a: Value, b: Value)
    requires a.DateTimeV? && b.DateTimeV?
  {
    DateLt(a.date, b.date) || (a.date == b.date && a.secs <= b.secs)
  }

  /** `start_ts <= v <= end_ts`; a null never compares true. */
  predicate Within(v: Value, startTs: Value, endTs: Value)
    requires startTs.DateTimeV? && endTs.DateTimeV?
  {
    v.DateTimeV? && TsLe(startTs, v) && TsLe(v, endTs)
  }

  /** `to_datetime(df["time"], errors="coerce").dt.normalize()` for one row. */
  function TradingDay(r: Row): (v: Value)
    ensures v.Null? || (v.DateTimeV? && v.secs == 0)
  {
    Normalize(ToDatetime(Cell(r, "time")))
  }

  /** A row with its `trading_date` read from `time`. */
  function Dated(r: Row): Row {
    r["trading_date" := TradingDay(r)]
  }

  function DatedRows(rows: seq<Row>): (r: seq<Row>)
    ensures |r| == |rows| && forall i :: 0 <= i < |rows| ==> r[i] == Dated(rows[i])
  {
    seq(|rows|, i requires 0 <= i < |rows| => Dated(rows[i]))
  }

  /** `dropna(subset=["trading_date"])`, order kept. */
  function DropNullDates(rows: seq<Row>): (r: seq<Row>)
    ensures forall x :: x in r <==> x in rows && Cell(x, "trading_date") != Null
  {
    if rows == [] then []
    else (if Cell(rows[0], "trading_date") != Null then [rows[0]] else []) + DropNullDates(rows[1..])
  }

  /** The boolean mask `start_ts <= trading_date <= end_ts`, order kept. */
  function KeepWithin(rows: seq<Row>, startTs: Value, endTs: Value): (r: seq<Row>)
    requires startTs.DateTimeV? && endTs.DateTimeV?
    ensures forall x :: x in r <==> x in rows && Within(Cell(x, "trading_date"), startTs, endTs)
  {
    if rows == [] then []
    else (if Within(Cell(rows[0], "trading_date"), startTs, endTs) then [rows[0]] else [])
         + KeepWithin(rows[1..], startTs, endTs)
  }

  /** The four audit columns; `api_run_date` is null without a run date. */
  function Stamp(t: Table, startText: string, endText: string, runDate: Option<Date>): (r: Table)
    ensures r.dtypes == t.dtypes["api_source" := ObjectType]["api_start_date" := ObjectType]
                                ["api_end_date" := ObjectType]["api_run_date" := ObjectType]
    ensures |r.rows| == |t.rows|
    ensures forall i :: 0 <= i < |t.rows| ==> r.rows[i] == Stamped(t.rows[i], startText, endText, runDate)
  {
    var n := |t.rows|;
    var a := SetColumn(t, "api_source", ObjectType, seq(n, _ => TextV(ApiSource)));
    var b := SetColumn(a, "api_start_date", ObjectType, seq(n, _ => TextV(startText)));
    var c := SetColumn(b, "api_end_date", ObjectType, seq(n, _ => TextV(endText)));
    SetColumn(c, "api_run_date", ObjectType, seq(n, _ => RunDateCell(runDate)))
  }

  function RunDateCell(runDate: Option<Date>): Value {
    if runDate.Some? then TextV(FormatDate(runDate.value)) else Null
  }

  /** One row with its audit cells. */
  function Stamped(r: Row, startText: string, endText: string, runDate: Option<Date>): Row {
    r["api_source" := TextV(ApiSource)]["api_start_date" := TextV(startText)]
     ["api_end_date" := TextV(endText)]["api_run_date" := RunDateCell(runDate)]
  }

  /** From the combined frame on: the `time` column read into a midnight
      `trading_date`, unreadable dates dropped, rows outside `[start, end]` dropped,
      the closing contract check, then the audit columns. */
  function BronzeFilter(t: Table, start: Date, end: Date, startText: string, endText: string,
                        runDate: Option<Date>): (r: Result<Table, FetchError>)
    ensures "time" !in t.dtypes <==> r == Err(MissingTimeColumn)
  {
    if "time" !in t.dtypes then Err(MissingTimeColumn)
    else
      var startTs := DateTimeV(start, 0);
      var endTs := DateTimeV(end, 0);
      var dated := Table(t.dtypes["trading_date" := DateTimeType], DatedRows(t.rows));
      var kept := KeepWithin(DropNullDates(dated.rows), startTs, endTs);
      if |kept| > 0 && exists i :: 0 <= i < |kept| && !Within(Cell(kept[i], "trading_date"), startTs, endTs) then
        Err(DateContractViolated)
      else
        Ok(Stamp(Table(dated.dtypes, kept), startText, endText, runDate))
  }

  /** The day range the filter is meant to enforce, on midnight timestamps. */
  lemma WithinIsDayRange(v: Value, start: Date, end: Date)
    requires v.Null? || (v.DateTimeV? && v.secs == 0)
    ensures Within(v, DateTimeV(start, 0), DateTimeV(end, 0)) <==> v.DateTimeV? && DateLe(start, v.date) && DateLe(v.date, end)
  {
  }

  /** The rows kept are the dated input rows whose `time` falls on a day of
      `[start, end]`. */
  lemma KeptRows(rows: seq<Row>, start: Date, end: Date)
    ensures var kept := KeepWithin(DropNullDates(DatedRows(rows)), DateTimeV(start, 0), DateTimeV(end, 0));
      (forall x :: x in kept ==> DatedInput(x, rows, start, end))
      && forall j :: 0 <= j < |rows| && InDays(TradingDay(rows[j]), start, end) ==> Dated(rows[j]) in kept
  {
    var dated := DatedRows(rows);
    forall j | 0 <= j < |rows|
      ensures Within(Cell(dated[j], "trading_date"), DateTimeV(start, 0), DateTimeV(end, 0))
              <==> InDays(TradingDay(rows[j]), start, end)
    {
      assert Cell(dated[j], "trading_date") == TradingDay(rows[j]);
      WithinIsDayRange(TradingDay(rows[j]), start, end);
    }
  }

  /** The closing contract check never fires: the filter has already removed every
      row it would object to. */
  lemma BronzeContractHolds(t: Table, start: Date, end: Date, startText: string, endText: string, runDate: Option<Date>)
    ensures BronzeFilter(t, start, end, startText, endText, runDate) != Err(DateContractViolated)
  {
  }

  /** With a `time` column the filter succeeds: the output has the input's columns
      plus `trading_date` and the audit columns, and its rows are the kept rows,
      stamped. */
  lemma BronzeFilterUnfold(t: Table, start: Date, end: Date, startText: string, endText: string, runDate: Option<Date>)
    returns (kept: seq<Row>)
    requires "time" in t.dtypes
    ensures kept == KeepWithin(DropNullDates(DatedRows(t.rows)), DateTimeV(start, 0), DateTimeV(end, 0))
    ensures var r := BronzeFilter(t, start, end, startText, endText, runDate);
      r.Ok?
      && r.value.dtypes == t.dtypes["trading_date" := DateTimeType]["api_source" := ObjectType]
                                   ["api_start_date" := ObjectType]["api_end_date" := ObjectType]["api_run_date" := ObjectType]
      && |r.value.rows| == |kept|
      && forall i :: 0 <= i < |kept| ==> r.value.rows[i] == Stamped(kept[i], startText, endText, runDate)
  {
    kept := KeepWithin(DropNullDates(DatedRows(t.rows)), DateTimeV(start, 0), DateTimeV(end, 0));
    var dtypes := t.dtypes["trading_date" := DateTimeType];
    assert BronzeFilter(t, start, end, startText, endText, runDate) == Ok(Stamp(Table(dtypes, kept), startText, endText, runDate));
  }

  /** A row of the output is exactly an input row whose `time` falls on a day of
      `[start, end]`, with its `trading_date` and audit cells added; every such input
      row is in the output. */
  lemma BronzeFilterRows(t: Table, start: Date, end: Date, startText: string, endText: string, runDate: Option<Date>)
    requires "time" in t.dtypes
    ensures var r := BronzeFilter(t, start, end, startText, endText, runDate);
      r.Ok?
      && (forall i :: 0 <= i < |r.value.rows| ==> StampedInput(r.value.rows[i], t.rows, start, end, startText, endText, runDate))
      && (forall j :: 0 <= j < |t.rows| && InDays(TradingDay(t.rows[j]), start, end) ==>
            Stamped(Dated(t.rows[j]), startText, endText, runDate) in r.value.rows)
  {
    var kept := BronzeFilterUnfold(t, start, end, startText, endText, runDate);
    KeptRows(t.rows, start, end);
    StampedKept(t.rows, kept, BronzeFilter(t, start, end, startText, endText, runDate).value.rows,
                start, end, startText, endText, runDate);
  }

  /** `x` is input row `j`, dated, for some `j` whose `time` falls on a day of
      `[start, end]`. */
  predicate DatedInput(x: Row, rows: seq<Row>, start: Date, end: Date) {
    exists j :: 0 <= j < |rows| && x == Dated(rows[j]) && InDays(TradingDay(rows[j]), start, end)
  }

  /** The same row, stamped with the audit cells. */
  predicate StampedInput(x: Row, rows: seq<Row>, start: Date, end: Date, startText: string, endText: string,
                         runDate: Option<Date>) {
    exists j :: 0 <= j < |rows| && InDays(TradingDay(rows[j]), start, end)
      && x == Stamped(Dated(rows[j]), startText, endText, runDate)
  }

  /** Stamping the kept rows one by one keeps the row characterisation of the kept
      rows. */
  lemma StampedKept(rows: seq<Row>, kept: seq<Row>, out: seq<Row>, start: Date, end: Date, startText: string,
                    endText: string, runDate: Option<Date>)
    requires forall x :: x in kept ==> DatedInput(x, rows, start, end)
    requires forall j :: 0 <= j < |rows| && InDays(TradingDay(rows[j]), start, end) ==> Dated(rows[j]) in kept
    requires |out| == |kept| && forall i :: 0 <= i < |kept| ==> out[i] == Stamped(kept[i], startText, endText, runDate)
    ensures forall i :: 0 <= i < |out| ==> StampedInput(out[i], rows, start, end, startText, endText, runDate)
    ensures forall j :: 0 <= j < |rows| && InDays(TradingDay(rows[j]), start, end) ==>
              Stamped(Dated(rows[j]), startText, endText, runDate) in out
  {
    forall i | 0 <= i < |out| ensures StampedInput(out[i], rows, start, end, startText, endText, runDate) {
      assert DatedInput(kept[i], rows, start, end);
      var j :| 0 <= j < |rows| && kept[i] == Dated(rows[j]) && InDays(TradingDay(rows[j]), start, end);
      assert out[i] == Stamped(Dated(rows[j]), startText, endText, runDate);
    }
    forall j | 0 <= j < |rows| && InDays(TradingDay(rows[j]), start, end)
      ensures Stamped(Dated(rows[j]), startText, endText, runDate) in out
    {
      var i :| 0 <= i < |kept| && kept[i] == Dated(rows[j]);
      assert out[i] == Stamped(kept[i], startText, endText, runDate);
    }
  }

  /** A timestamp whose calendar day lies in `[start, end]`. */
  predicate InDays(v: Value, start: Date, end: Date) {
    v.DateTimeV? && DateLe(start, v.date) && DateLe(v.date, end)
  }

  // ---------------------------------------------------------------------------
  // fetch_hose_stock_prices
  // ---------------------------------------------------------------------------

  datatype Bronze = Bronze(feed: Feed, result: Result<Table, FetchError>)

  /** `fetch_hose_stock_prices(start_date, end_date, run_date)` with the HOSE listing
      given as `symbols` and `pd.concat(..., ignore_index=True)` as `concat`. */
  function FetchHose(f: Feed, startDate: Option<string>, endDate: Option<string>, runDate: Option<Date>,
                     symbols: seq<string>, concat: seq<Table> -> Table): (x: Bronze)
    ensures startDate.Some? && ParseIsoDate(startDate.value).None? ==>
              x == Bronze(f, Err(InvalidDateFormat(startDate.value)))
    ensures startDate.None? || ParseIsoDate(startDate.value).Some? ==>
              endDate.Some? && ParseIsoDate(endDate.value).None? ==> x == Bronze(f, Err(InvalidDateFormat(endDate.value)))
    ensures x.result.Ok? || x.result.error.MissingTimeColumn? ==>
              startDate.Some? && endDate.Some? && ParseIsoDate(startDate.value).Some? && ParseIsoDate(endDate.value).Some?
    ensures symbols == [] && x.result.Ok? ==> x == Bronze(f, Ok(EmptyTable))
  {
    var s := NormalizeDateStr(startDate);
    var e := NormalizeDateStr(endDate);
    if s.Err? then Bronze(f, Err(s.error))
    else if e.Err? then Bronze(f, Err(e.error))
    else if s.value.None? || e.value.None? then Bronze(f, Err(NoDateBound))
    else
      var startText := s.value.value;
      var endText := e.value.value;
      var start := ParseIsoDate(startText).value;
      var end := ParseIsoDate(endText).value;
      if symbols == [] then Bronze(f, Ok(EmptyTable))
      else
        var c := FetchAll(f, symbols);
        if c.results == [] then Bronze(c.feed, Ok(EmptyTable))
        else Bronze(c.feed, BronzeFilter(concat(c.results), start, end, startText, endText, runDate))
  }

  /** `fetch_hose_stock_prices`: the dates first, and only then the service. */
  method FetchHoseStockPrices(svc: QuoteService, startDate: Option<string>, endDate: Option<string>,
                              runDate: Option<Date>, symbols: seq<string>, concat: seq<Table> -> Table)
    returns (r: Result<Table, FetchError>)
    modifies svc
    ensures Bronze(svc.State(), r) == FetchHose(old(svc.State()), startDate, endDate, runDate, symbols, concat)
  {
    var s := NormalizeDateStr(startDate);
    if s.Err? {
      return Err(s.error);
    }
    var e := NormalizeDateStr(endDate);
    if e.Err? {
      return Err(e.error);
    }
    if s.value.None? || e.value.None? {
      return Err(NoDateBound);
    }
    var startText := s.value.value;
    var endText := e.value.value;
    var start := ParseIsoDate(startText).value;
    var end := ParseIsoDate(endText).value;
    if symbols == [] {
      return Ok(EmptyTable);
    }
    var results := FetchQuotes(svc, symbols);
    if results == [] {
      return Ok(EmptyTable);
    }
    r := BronzeFilter(concat(results), start, end, startText, endText, runDate);
  }

  /** Every row has its `trading_date` at midnight on a day of `[start, end]` and
      carries the API source. */
  predicate BronzeInRange(rows: seq<Row>, start: Date, end: Date) {
    forall i :: 0 <= i < |rows| ==>
      var v := Cell(rows[i], "trading_date");
      InDays(v, start, end) && v.secs == 0 && Cell(rows[i], "api_source") == TextV(ApiSource)
  }

  /** Every row the filter returns has its `trading_date` at midnight on a day of
      `[start, end]` and carries the API source. */
  lemma BronzeRowsInRange(t: Table, start: Date, end: Date, startText: string, endText: string, runDate: Option<Date>)
    requires BronzeFilter(t, start, end, startText, endText, runDate).Ok?
    ensures BronzeInRange(BronzeFilter(t, start, end, startText, endText, runDate).value.rows, start, end)
  {
    var rows := BronzeFilter(t, start, end, startText, endText, runDate).value.rows;
    BronzeFilterRows(t, start, end, startText, endText, runDate);
    forall i | 0 <= i < |rows|
      ensures var v := Cell(rows[i], "trading_date");
        InDays(v, start, end) && v.secs == 0 && Cell(rows[i], "api_source") == TextV(ApiSource)
    {
      assert StampedInput(rows[i], t.rows, start, end, startText, endText, runDate);
      var j :| 0 <= j < |t.rows| && InDays(TradingDay(t.rows[j]), start, end)
        && rows[i] == Stamped(Dated(t.rows[j]), startText, endText, runDate);
      StampedCells(t.rows[j], startText, endText, runDate);
    }
  }

  lemma StampedCells(r: Row, startText: string, endText: string, runDate: Option<Date>)
    ensures Cell(Stamped(Dated(r), startText, endText, runDate), "trading_date") == TradingDay(r)
    ensures Cell(Stamped(Dated(r), startText, endText, runDate), "api_source") == TextV(ApiSource)
  {
  }

  /** A fetch that gets past the dates and finds quotes ends with the filter on
      their concatenation. */
  lemma FetchHoseFiltered(f: Feed, startDate: Option<string>, endDate: Option<string>, runDate: Option<Date>,
                          symbols: seq<string>, concat: seq<Table> -> Table)
    requires startDate.Some? && endDate.Some? && ParseIsoDate(startDate.value).Some? && ParseIsoDate(endDate.value).Some?
    requires symbols != [] && FetchAll(f, symbols).results != []
    ensures var start, end := ParseIsoDate(startDate.value).value, ParseIsoDate(endDate.value).value;
      FetchHose(f, startDate, endDate, runDate, symbols, concat).result
        == BronzeFilter(concat(FetchAll(f, symbols).results), start, end, FormatDate(start), FormatDate(end), runDate)
  {
  }

  /** Every row of a successful fetch has its `trading_date` at midnight on a day of
      the requested range and carries the API source; the closing contract check
      never ends the fetch. */
  lemma FetchHoseInRange(f: Feed, startDate: Option<string>, endDate: Option<string>, runDate: Option<Date>,
                         symbols: seq<string>, concat: seq<Table> -> Table)
    ensures var x := FetchHose(f, startDate, endDate, runDate, symbols, concat);
      x.result != Err(DateContractViolated)
      && (x.result.Ok? ==>
            BronzeInRange(x.result.value.rows, ParseIsoDate(startDate.value).value, ParseIsoDate(endDate.value).value))
  {
    if startDate.Some? && endDate.Some? && ParseIsoDate(startDate.value).Some? && ParseIsoDate(endDate.value).Some?
       && symbols != [] && FetchAll(f, symbols).results != []
    {
      var t := concat(FetchAll(f, symbols).results);
      var start, end := ParseIsoDate(startDate.value).value, ParseIsoDate(endDate.value).value;
      var startText, endText := FormatDate(start), FormatDate(end);
      FetchHoseFiltered(f, startDate, endDate, runDate, symbols, concat);
      BronzeContractHolds(t, start, end, startText, endText, runDate);
      if BronzeFilter(t, start, end, startText, endText, runDate).Ok? {
        BronzeRowsInRange(t, start, end, startText, endText, runDate);
      }
    } else {
      FetchHoseUnfiltered(f, startDate, endDate, runDate, symbols, concat);
    }
  }

  /** A fetch that stops at the dates, or finds no quotes, returns an error about the
      dates or an empty table. */
  lemma FetchHoseUnfiltered(f: Feed, startDate: Option<string>, endDate: Option<string>, runDate: Option<Date>,
                            symbols: seq<string>, concat: seq<Table> -> Table)
    requires !(startDate.Some? && endDate.Some? && ParseIsoDate(startDate.value).Some?
               && ParseIsoDate(endDate.value).Some? && symbols != [] && FetchAll(f, symbols).results != [])
    ensures var x := FetchHose(f, startDate, endDate, runDate, symbols, concat);
      (x.result.Ok? ==> x.result.value == EmptyTable)
      && (x.result.Err? ==> x.result.error.InvalidDateFormat? || x.result.error == NoDateBound)
  {
  }

  /** A listing without a single valid stock symbol makes no request and fetches
      nothing. */
  lemma {:induction false} NoValidSymbolNoRequest(f: Feed, symbols: seq<string>)
    requires forall k :: 0 <= k < |symbols| ==> !IsValidStockSymbol(symbols[k])
    ensures FetchAll(f, symbols) == Collected(f, [])
    decreases |symbols|
  {
    if symbols != [] {
      NoValidSymbolNoRequest(f, symbols[1..]);
    }
  }
}
