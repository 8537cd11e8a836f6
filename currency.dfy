/** The exchange-rate cache and currency helpers of services/currency.service.ts.

    The module-level `cachedRates` variable, the `exchangeRates` entry of the
    browser's localStorage and `Date.now()` are the fields of `RateCache`.
    The HTTP request is not modelled: each call that may reach the network is
    given its outcome (`FetchOutcome`) and the milliseconds that pass while it
    is awaited. The pure functions `Fetch`, `Adopt` and `Initialize` say what
    the cache's methods do; the lemmas state the cache's promises about them. */
module Currency {
  import opened Wrappers
  import opened Decimal
  import opened Constants

  /** Rates per US dollar, by currency code. */
  type Rates = map<string, real>

  /** A `CachedRates` value: the rates and the time (ms) they were fetched. */
  datatype Snapshot = Snapshot(rates: Rates, timestamp: int)

  /** How long a snapshot is trusted: 24 hours, in milliseconds. */
  const CacheDuration: int := 24 * 60 * 60 * 1000

  predicate IsFresh(s: Snapshot, now: int) {
    now - s.timestamp < CacheDuration
  }

  /** What localStorage holds under `exchangeRates` when it holds a non-empty
      string: a serialized snapshot, or text that `JSON.parse` rejects. */
  datatype Stored = Serialized(snapshot: Snapshot) | Unparsable

  /** How the request to the rate service ends: the request fails, the body
      is not JSON, the body is JSON `null`, or any other JSON body with its
      `result` field (`""` when absent) and its `rates` field (absent or null
      is `None`). */
  datatype FetchOutcome = NetworkError | InvalidJson | NullBody | Body(result: string, rates: Option<Rates>)

  /** The error a failing `fetchExchangeRates` rejects with. */
  datatype RateError =
    | NetworkFailed   // the error thrown by `fetch`
    | BodyNotJson     // the error thrown by `response.json()`
    | BodyNull        // the TypeError thrown by reading `data.result` of null
    | FetchFailed     // 'Failed to fetch exchange rates'
    | StoredNotJson   // the error thrown by `JSON.parse` on the stored text

  /** The in-memory snapshot, the persisted entry and the clock. */
  datatype CacheState = CacheState(cached: Option<Snapshot>, stored: Option<Stored>, now: int)

  /** What one call returns and the state it leaves. */
  datatype Step = Step(result: Result<Rates, RateError>, state: CacheState)

  /** The fast path: a snapshot in memory that is younger than 24 hours. */
  predicate Hit(s: CacheState) {
    s.cached.Some? && IsFresh(s.cached.value, s.now)
  }

  /** A response the cache adopts: `result === 'success'` and rates present. */
  predicate Succeeded(o: FetchOutcome) {
    o.Body? && o.result == "success" && o.rates.Some?
  }

  /** The error a failed request raises inside the `try` block. */
  function ErrorOf(o: FetchOutcome): (e: RateError)
    ensures e != StoredNotJson
    ensures e == FetchFailed <==> o.Body?
    ensures e == BodyNull <==> o == NullBody
  {
    match o
    case NetworkError => NetworkFailed
    case InvalidJson => BodyNotJson
    case NullBody => BodyNull
    case Body(_, _) => FetchFailed
  }

  /** The `catch` block: the persisted snapshot whatever its age, else the
      original error. Outside a browser there is no storage to read. */
  function Fallback(s: CacheState, browser: bool, e: RateError): (step: Step)
    ensures step.state.stored == s.stored && step.state.now == s.now
  {
    if browser && s.stored.Some? then
      match s.stored.value
      case Serialized(parsed) => Step(Ok(parsed.rates), s.(cached := Some(parsed)))
      case Unparsable => Step(Err(StoredNotJson), s)
    else
      Step(Err(e), s)
  }

  /** `fetchExchangeRates`: one call, from state `s`. */
  function Fetch(s: CacheState, browser: bool, outcome: FetchOutcome, elapsed: nat): (step: Step)
    // whatever rates are returned are the in-memory snapshot's afterwards
    ensures step.result.Ok? ==> step.state.cached.Some? && step.state.cached.value.rates == step.result.value
    // a failure leaves the in-memory snapshot as it was
    ensures step.result.Err? ==> step.state.cached == s.cached
    // the clock never goes back, and only a network attempt lets it move
    ensures step.state.now == if Hit(s) then s.now else s.now + elapsed
    // a persisted snapshot is never lost
    ensures browser && s.stored.Some? ==> step.state.stored.Some?
  {
    if Hit(s) then
      Step(Ok(s.cached.value.rates), s)
    else
      var t := s.now + elapsed;
      if Succeeded(outcome) then
        var snap := Snapshot(outcome.rates.value, t);
        Step(Ok(snap.rates), CacheState(Some(snap), if browser then Some(Serialized(snap)) else s.stored, t))
      else
        Fallback(s.(now := t), browser, ErrorOf(outcome))
  }

  /** The first half of `initializeExchangeRates`: the persisted snapshot is
      adopted into memory only when it is fresh; unparsable text is ignored. */
  function Adopt(s: CacheState, browser: bool): (a: CacheState)
    ensures a.stored == s.stored && a.now == s.now
    ensures a.cached != s.cached ==>
              browser && s.stored.Some? && s.stored.value.Serialized? &&
              IsFresh(s.stored.value.snapshot, s.now) && a.cached == Some(s.stored.value.snapshot)
  {
    if browser && s.stored.Some? && s.stored.value.Serialized? && IsFresh(s.stored.value.snapshot, s.now) then
      s.(cached := Some(s.stored.value.snapshot))
    else
      s
  }

  /** `initializeExchangeRates`: adopt, then one refresh whose error is
      swallowed. Outside a browser it does nothing at all. */
  function Initialize(s: CacheState, browser: bool, outcome: FetchOutcome, elapsed: nat): (r: CacheState)
    // outside a browser nothing happens, not even a request
    ensures !browser ==> r == s
    // once a snapshot is fresh in memory, the warm-up refresh changes nothing
    ensures browser && Hit(Adopt(s, browser)) ==> r == Adopt(s, browser)
    // the persisted entry is only ever replaced, never dropped
    ensures browser && s.stored.Some? ==> r.stored.Some?
  {
    if browser then Fetch(Adopt(s, browser), browser, outcome, elapsed).state else s
  }

  // ---------------------------------------------------------------------
  // The cache's promises

  /** A fresh in-memory snapshot is served as it is: the outcome of the
      request and the time it would take play no part, so none is made. */
  lemma FreshSnapshotNeedsNoFetch(s: CacheState, browser: bool, o1: FetchOutcome, e1: nat, o2: FetchOutcome, e2: nat)
    requires Hit(s)
    ensures Fetch(s, browser, o1, e1) == Fetch(s, browser, o2, e2) == Step(Ok(s.cached.value.rates), s)
  {
  }

  /** The window is half-open: at an age of exactly 24 hours the snapshot is
      stale, one millisecond earlier it is fresh. */
  lemma FreshnessBoundary(rates: Rates, t: int)
    ensures IsFresh(Snapshot(rates, t), t + 86_399_999)
    ensures !IsFresh(Snapshot(rates, t), t + 86_400_000)
  {
  }

  /** Without a fresh snapshot the request is made, and a successful answer
      becomes the new snapshot (stamped with the time of the answer), is
      persisted in a browser, and its rates are returned. */
  lemma SuccessReplacesSnapshot(s: CacheState, browser: bool, result: string, rates: Rates, elapsed: nat)
    requires !Hit(s) && result == "success"
    ensures var step := Fetch(s, browser, Body(result, Some(rates)), elapsed);
            var snap := Snapshot(rates, s.now + elapsed);
            && step.result == Ok(rates)
            && step.state.cached == Some(snap)
            && step.state.stored == (if browser then Some(Serialized(snap)) else s.stored)
  {
  }

  /** A failed request falls back to the persisted snapshot however old it
      is: it is loaded into memory and its rates are returned. */
  lemma FailureFallsBackToStored(s: CacheState, o: FetchOutcome, elapsed: nat, snap: Snapshot)
    requires !Hit(s) && !Succeeded(o)
    requires s.stored == Some(Serialized(snap))
    ensures Fetch(s, true, o, elapsed) == Step(Ok(snap.rates), CacheState(Some(snap), s.stored, s.now + elapsed))
  {
  }

  /** With nothing persisted (or no browser storage), the failure propagates
      and nothing but the clock changes. */
  lemma FailureWithoutStoredPropagates(s: CacheState, browser: bool, o: FetchOutcome, elapsed: nat)
    requires !Hit(s) && !Succeeded(o)
    requires !browser || s.stored.None?
    ensures Fetch(s, browser, o, elapsed) == Step(Err(ErrorOf(o)), s.(now := s.now + elapsed))
  {
  }

  /** A stored entry that does not parse turns the failure into a parse error. */
  lemma FailureWithUnparsableStored(s: CacheState, o: FetchOutcome, elapsed: nat)
    requires !Hit(s) && !Succeeded(o)
    requires s.stored == Some(Unparsable)
    ensures Fetch(s, true, o, elapsed) == Step(Err(StoredNotJson), s.(now := s.now + elapsed))
  {
  }

  /** After a successful refresh the next call, soon enough, is served from
      memory with the same rates. */
  lemma RefreshThenHit(s: CacheState, browser: bool, rates: Rates, e1: nat, o: FetchOutcome, e2: nat, wait: nat)
    requires !Hit(s)
    requires wait < CacheDuration
    ensures var first := Fetch(s, browser, Body("success", Some(rates)), e1).state;
            Fetch(first.(now := first.now + wait), browser, o, e2).result == Ok(rates)
  {
  }

  /** A fresh persisted snapshot is adopted at start-up, which makes the
      warm-up refresh a cache hit: the outcome of its request does not matter. */
  lemma InitializeWithFreshStored(s: CacheState, snap: Snapshot, o: FetchOutcome, elapsed: nat)
    requires s.stored == Some(Serialized(snap)) && IsFresh(snap, s.now)
    ensures Initialize(s, true, o, elapsed) == s.(cached := Some(snap))
  {
  }

  /** A stale persisted snapshot is not adopted, so the warm-up makes the
      request; if that fails, the stale snapshot is loaded after all by the
      fallback. */
  lemma InitializeWithStaleStored(s: CacheState, snap: Snapshot, o: FetchOutcome, elapsed: nat)
    requires s.cached.None? && s.stored == Some(Serialized(snap)) && !IsFresh(snap, s.now)
    ensures Adopt(s, true) == s
    ensures !Succeeded(o) ==> Initialize(s, true, o, elapsed) == CacheState(Some(snap), s.stored, s.now + elapsed)
  {
  }

  // ---------------------------------------------------------------------
  // Country, conversion and formatting

  /** `getCurrencyFromCountry`: the mapped currency, else 'USD'. */
  function GetCurrencyFromCountry(country: string): (code: string)
    ensures country in CountryToCurrency ==> code == CountryToCurrency[country]
    ensures country !in CountryToCurrency ==> code == "USD"
    ensures code in CurrencySymbols
  {
    EveryCountryCurrencyHasSymbol();
    if country in CountryToCurrency && CountryToCurrency[country] != "" then CountryToCurrency[country] else "USD"
  }

  /** `removeDecimals`: `Math.floor`. */
  function RemoveDecimals(amount: real): (r: int)
    ensures r as real <= amount < r as real + 1.0
  {
    amount.Floor
  }

  /** `rates[currencyCode] || 1`: a missing or zero rate counts as 1. */
  function RateFor(rates: Rates, code: string): (rate: real)
    ensures rate != 0.0
    ensures (code in rates && rates[code] != 0.0) <==> (code in rates && rate == rates[code])
    ensures rate != 1.0 ==> code in rates && rates[code] == rate
  {
    if code in rates && rates[code] != 0.0 then rates[code] else 1.0
  }

  /** The base price converted with `rates`, rounded down (the arithmetic of
      `convertUSDToLocalCurrency`). */
  function LocalAmount(rates: Rates, code: string): (r: int)
    ensures r as real <= BasePriceUsd as real * RateFor(rates, code) < r as real + 1.0
  {
    RemoveDecimals(BasePriceUsd as real * RateFor(rates, code))
  }

  /** The floor never rounds up, and a rate at least one dollar's worth of a
      unit keeps the amount positive; a rate below 1 can make it 0. */
  lemma LocalAmountBounds(rates: Rates, code: string)
    ensures code in rates && rates[code] >= 1.0 ==> LocalAmount(rates, code) >= 1
    ensures code in rates && 0.0 < rates[code] < 1.0 ==> LocalAmount(rates, code) == 0
    ensures code !in rates ==> LocalAmount(rates, code) == BasePriceUsd
  {
  }

  /** A worked case: a euro rate of 0.92 quotes 0 euros for the 1-dollar price. */
  lemma SubUnitRateRoundsToZero()
    ensures LocalAmount(map["EUR" := 0.92], "EUR") == 0
  {
  }

  /** `getCurrencySymbol`: the table's symbol, else the code itself. */
  function GetCurrencySymbol(code: string): (symbol: string)
    ensures code in CurrencySymbols ==> symbol == CurrencySymbols[code]
    ensures code !in CurrencySymbols ==> symbol == code
  {
    SymbolsNonEmpty();
    if code in CurrencySymbols && CurrencySymbols[code] != "" then CurrencySymbols[code] else code
  }

  /** The currencies whose symbol is written without a space before the amount. */
  predicate Unspaced(code: string) {
    code == "USD" || code == "GBP" || code == "EUR"
  }

  /** `formatCurrency`: the symbol, a space unless USD/GBP/EUR, then the
      whole part of the amount. */
  function FormatCurrency(amount: real, code: string): (r: string)
    ensures |r| > |GetCurrencySymbol(code)|
    ensures r[..|GetCurrencySymbol(code)|] == GetCurrencySymbol(code)
  {
    var symbol := GetCurrencySymbol(code);
    var wholeAmount := amount.Floor;
    if Unspaced(code) then symbol + IntToString(wholeAmount)
    else symbol + " " + IntToString(wholeAmount)
  }

  /** The parts of a formatted amount, read back: the symbol, exactly one
      space or none, then the floor of the amount as `String` writes it,
      digits for a non-negative amount and '-' followed by the digits of its
      magnitude for a negative one. */
  lemma FormatCurrencyReadsBack(amount: real, code: string)
    ensures var r := FormatCurrency(amount, code);
            var symbol := GetCurrencySymbol(code);
            var gap := if Unspaced(code) then 0 else 1;
            && |r| > |symbol| + gap
            && r[..|symbol|] == symbol
            && (gap == 1 ==> r[|symbol|] == ' ')
            && (amount >= 0.0 ==>
                  AllDigits(r[|symbol| + gap..]) && Value(r[|symbol| + gap..]) == amount.Floor)
            && (amount < 0.0 ==>
                  |r| > |symbol| + gap + 1 && r[|symbol| + gap] == '-'
                  && AllDigits(r[|symbol| + gap + 1..]) && Value(r[|symbol| + gap + 1..]) == -amount.Floor)
  {
    var symbol := GetCurrencySymbol(code);
    var gap := if Unspaced(code) then 0 else 1;
    var r := FormatCurrency(amount, code);
    var f := amount.Floor;
    var tail := IntToString(f);
    var prefix := if gap == 1 then symbol + " " else symbol;
    assert r == prefix + tail;
    assert |prefix| == |symbol| + gap;
    assert r[|symbol| + gap..] == tail;
    if f >= 0 {
      ValueOfNatToString(f);
    } else {
      assert tail == "-" + NatToString(-f);
      assert r[|symbol| + gap + 1..] == tail[1..] == NatToString(-f);
      ValueOfNatToString(-f);
    }
  }

  /** A worked negative case: -1.5 dollars floors to -2. */
  lemma FormatNegativeAmount()
    ensures FormatCurrency(-1.5, "USD") == "$-2"
  {
    assert (-1.5).Floor == -2;
    assert IntToString(-2) == "-2";
  }

  /** Formatting only looks at the whole part. */
  lemma FormatCurrencyIgnoresFraction(amount: real, code: string)
    ensures FormatCurrency(amount.Floor as real, code) == FormatCurrency(amount, code)
  {
  }

  /** Worked cases of the spacing rule: no space for dollars, one for
      shillings. */
  lemma FormatCurrencyExamples()
    ensures FormatCurrency(1.0, "USD") == "$1"
    ensures FormatCurrency(99.7, "KES") == "Ksh 99"
  {
    assert IntToString(1) == "1";
    assert (99.7).Floor == 99;
    assert NatToString(99) == NatToString(9) + ['9'];
  }

  /** A code missing from the symbol table is shown by the code itself. */
  lemma FormatUnlistedCurrency()
    ensures FormatCurrency(5.0, "XYZ") == "XYZ 5"
  {
    assert "XYZ" !in CurrencySymbols;
    assert IntToString(5) == "5";
  }

  /** `convertToSmallestUnit`: the whole part times 100, for every currency
      (two minor digits are assumed even where ISO 4217 says otherwise). */
  function ConvertToSmallestUnit(amount: real, code: string): (r: int)
    ensures r % 100 == 0
    ensures r as real <= 100.0 * amount < r as real + 100.0
  {
    var wholeAmount := amount.Floor;
    wholeAmount * 100
  }

  /** The currency code plays no part in the conversion: a zero-decimal
      currency such as KRW is scaled by 100 like any other. */
  lemma SmallestUnitIgnoresCurrency(amount: real, c1: string, c2: string)
    ensures ConvertToSmallestUnit(amount, c1) == ConvertToSmallestUnit(amount, c2)
    ensures ConvertToSmallestUnit(amount, "KRW") == 100 * amount.Floor
  {
  }

  /** The result of `getPriceInUserCurrency`. */
  datatype LocalPrice = LocalPrice(amount: int, formattedAmount: string, amountInSmallestUnit: int)

  /** The price built from fetched rates. */
  function PriceFromRates(rates: Rates, code: string): (p: LocalPrice)
    ensures p.amount == LocalAmount(rates, code)
    ensures p.amountInSmallestUnit == 100 * p.amount
    ensures p.formattedAmount == FormatCurrency(p.amount as real, code)
  {
    var amount := LocalAmount(rates, code);
    LocalPrice(amount, FormatCurrency(amount as real, code), ConvertToSmallestUnit(amount as real, code))
  }

  /** A rejected rate fetch rejects the conversion too: there is no fallback
      to dollar pricing in `getPriceInUserCurrency`. */
  function PriceFromFetch(fetched: Result<Rates, RateError>, code: string): (r: Result<LocalPrice, RateError>)
    ensures fetched.Err? <==> r.Err?
    ensures r.Err? ==> r.error == fetched.error
    ensures r.Ok? ==> r.value == PriceFromRates(fetched.value, code)
  {
    match fetched
    case Ok(rates) => Ok(PriceFromRates(rates, code))
    case Err(e) => Err(e)
  }

  /** The cache: `cachedRates`, the persisted entry and the clock. Whether
      the code runs in a browser (`typeof window !== 'undefined'`) is fixed. */
  class RateCache {
    var cached: Option<Snapshot>
    var stored: Option<Stored>
    var now: int
    const inBrowser: bool

    function State(): CacheState
      reads this
    {
      CacheState(cached, stored, now)
    }

    /** Module load: nothing in memory, whatever storage holds. */
    constructor (inBrowser: bool, stored: Option<Stored>, now: int)
      ensures this.inBrowser == inBrowser
      ensures State() == CacheState(None, stored, now)
    {
      this.inBrowser := inBrowser;
      this.cached := None;
      this.stored := stored;
      this.now := now;
    }

    /** Time passes between calls. */
    method Tick(elapsed: nat)
      modifies this
      ensures State() == old(State()).(now := old(now) + elapsed)
    {
      now := now + elapsed;
    }

    method FetchExchangeRates(outcome: FetchOutcome, elapsed: nat) returns (r: Result<Rates, RateError>)
      modifies this
      ensures Step(r, State()) == Fetch(old(State()), inBrowser, outcome, elapsed)
    {
      if cached.Some? && now - cached.value.timestamp < CacheDuration {
        return Ok(cached.value.rates);
      }
      now := now + elapsed;
      if outcome.Body? && outcome.result == "success" && outcome.rates.Some? {
        cached := Some(Snapshot(outcome.rates.value, now));
        if inBrowser {
          stored := Some(Serialized(cached.value));
        }
        return Ok(outcome.rates.value);
      }
      var error := ErrorOf(outcome);
      if inBrowser && stored.Some? {
        match stored.value
        case Serialized(parsed) =>
          cached := Some(parsed);
          return Ok(parsed.rates);
        case Unparsable =>
          return Err(StoredNotJson);
      }
      return Err(error);
    }

    method InitializeExchangeRates(outcome: FetchOutcome, elapsed: nat)
      modifies this
      ensures State() == Initialize(old(State()), inBrowser, outcome, elapsed)
    {
      if inBrowser {
        if stored.Some? && stored.value.Serialized? {
          var parsed := stored.value.snapshot;
          if now - parsed.timestamp < CacheDuration {
            cached := Some(parsed);
          }
        }
        var _ := FetchExchangeRates(outcome, elapsed);
      }
    }

    method ConvertUSDToLocalCurrency(code: string, outcome: FetchOutcome, elapsed: nat) returns (r: Result<int, RateError>)
      modifies this
      ensures var step := Fetch(old(State()), inBrowser, outcome, elapsed);
              && State() == step.state
              && (step.result.Ok? ==> r == Ok(LocalAmount(step.result.value, code)))
              && (step.result.Err? ==> r == Err(step.result.error))
    {
      var rates := FetchExchangeRates(outcome, elapsed);
      if rates.Err? {
        return Err(rates.error);
      }
      var rate := RateFor(rates.value, code);
      var amount := BasePriceUsd as real * rate;
      return Ok(RemoveDecimals(amount));
    }

    method GetPriceInUserCurrency(code: string, outcome: FetchOutcome, elapsed: nat) returns (r: Result<LocalPrice, RateError>)
      modifies this
      ensures var step := Fetch(old(State()), inBrowser, outcome, elapsed);
              State() == step.state && r == PriceFromFetch(step.result, code)
    {
      var amount := ConvertUSDToLocalCurrency(code, outcome, elapsed);
      if amount.Err? {
        return Err(amount.error);
      }
      var formattedAmount := FormatCurrency(amount.value as real, code);
      var amountInSmallestUnit := ConvertToSmallestUnit(amount.value as real, code);
      return Ok(LocalPrice(amount.value, formattedAmount, amountInSmallestUnit));
    }
  }
}
