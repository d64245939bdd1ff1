/** CurrencyConverterService: asks the upstream rate service for the rate
    from the input currency to the output currency and applies it. The HTTP
    call is not modelled; the upstream is a function from the path and query
    string of the request to the reply received. */
module ConverterService {
  import opened Wrappers
  import opened Decimals
  import opened Currencies

  datatype CurrencyAmount = CurrencyAmount(amount: Decimal, symbol: Currency)

  datatype CurrencyConversion = CurrencyConversion(
    input: CurrencyAmount,
    output: CurrencyAmount,
    exchangeRate: Decimal)

  /** The upstream query: GET {endpoint}/latest?base=..&symbols=.. */
  datatype RateQuery = RateQuery(base: Currency, symbols: Currency)

  /** What the upstream call yields: a failure of the call itself
      (RestClientException: unreachable host, timeout, error status), or a
      decoded body whose `rates` field may be absent (a null reference). */
  datatype Upstream = Unavailable | Responded(rates: Option<map<string, Decimal>>)

  /** Why a conversion fails: the exception that escapes convert. */
  datatype ServiceError =
    | TransportFailure  // RestClientException from getForObject
    | NoRates           // NullPointerException: empty body or no `rates` field
    | RateNotFound      // IOException "Failed to get exchange rate"

  const QueryPrefix := "/latest?base="
  const SymbolsParam := "&symbols="

  /** The path and query string of the upstream request: it starts with the
      `/latest?base=` prefix and ends with the requested code. */
  function PathAndQuery(q: RateQuery): (r: string)
    ensures QueryPrefix <= r
    ensures |q.symbols| <= |r| && r[|r| - |q.symbols|..] == q.symbols
  {
    QueryPrefix + q.base + SymbolsParam + q.symbols
  }

  /** Reads a path and query string back; the reference that PathAndQuery
      is checked against. */
  function ParseRateQuery(s: string): Option<RateQuery>
  {
    if |s| == 28 && s[..13] == QueryPrefix && s[16..25] == SymbolsParam
       && s[13..16] in IsoCodes && s[25..] in IsoCodes
    then Some(RateQuery(s[13..16], s[25..]))
    else None
  }

  /** The query string names the input currency as `base` and the output
      currency as `symbols`, and nothing else: parsing it gives the query back. */
  lemma QueryRoundTrip(q: RateQuery)
    ensures ParseRateQuery(PathAndQuery(q)) == Some(q)
  {
    CodeShape(q.base);
    CodeShape(q.symbols);
    var s := PathAndQuery(q);
    assert s == QueryPrefix + q.base + SymbolsParam + q.symbols;
    assert |s| == 28;
    assert s[..13] == QueryPrefix;
    assert s[13..16] == q.base;
    assert s[16..25] == SymbolsParam;
    assert s[25..] == q.symbols;
  }

  /** Only well-formed query strings parse, and each one parses to the
      query that renders it. */
  lemma QueryParseSound(s: string, q: RateQuery)
    requires ParseRateQuery(s) == Some(q)
    ensures PathAndQuery(q) == s
  {
    assert s == s[..13] + s[13..16] + s[16..25] + s[25..];
  }

  /** CurrencyConverterService.convert. */
  function Convert(input: CurrencyAmount, outputCurrency: Currency, fetch: string -> Upstream)
    : (r: Result<CurrencyConversion, ServiceError>)
    ensures var reply := fetch(PathAndQuery(RateQuery(input.symbol, outputCurrency)));
      r.Success? <==> reply.Responded? && reply.rates.Some? && outputCurrency in reply.rates.value
    ensures var reply := fetch(PathAndQuery(RateQuery(input.symbol, outputCurrency)));
      r.Success? ==>
        var rate := reply.rates.value[outputCurrency];
        && r.value.input == input
        && r.value.exchangeRate == rate
        && r.value.output == CurrencyAmount(Multiply(input.amount, rate), outputCurrency)
    ensures var reply := fetch(PathAndQuery(RateQuery(input.symbol, outputCurrency)));
      && (reply.Unavailable? ==> r == Failure(TransportFailure))
      && (reply.Responded? && reply.rates.None? ==> r == Failure(NoRates))
      && (reply.Responded? && reply.rates.Some? && outputCurrency !in reply.rates.value ==> r == Failure(RateNotFound))
  {
    match fetch(PathAndQuery(RateQuery(input.symbol, outputCurrency)))
    case Unavailable => Failure(TransportFailure)
    case Responded(None) => Failure(NoRates)
    case Responded(Some(rates)) =>
      if outputCurrency !in rates then Failure(RateNotFound)
      else
        var exchangeRate := rates[outputCurrency];
        var output := CurrencyAmount(Multiply(input.amount, exchangeRate), outputCurrency);
        Success(CurrencyConversion(input, output, exchangeRate))
  }

  /** The service consults the upstream only through the one query it
      builds: two upstreams that answer that request alike give the same result. */
  lemma ConvertReadsOnlyItsQuery(input: CurrencyAmount, outputCurrency: Currency,
                                 f: string -> Upstream, g: string -> Upstream)
    requires f(PathAndQuery(RateQuery(input.symbol, outputCurrency))) == g(PathAndQuery(RateQuery(input.symbol, outputCurrency)))
    ensures Convert(input, outputCurrency, f) == Convert(input, outputCurrency, g)
  {
  }

  /** A successful conversion is exact: counted in the product of any two
      units fine enough for the input amount and the rate, the output
      amount is the product of the counts. */
  lemma ConvertIsExact(input: CurrencyAmount, outputCurrency: Currency, fetch: string -> Upstream,
                       ka: int, kr: int)
    requires Convert(input, outputCurrency, fetch).Success?
    requires ka >= input.amount.scale
    requires kr >= Convert(input, outputCurrency, fetch).value.exchangeRate.scale
    ensures var c := Convert(input, outputCurrency, fetch).value;
      && c.output.amount.scale <= ka + kr
      && Scaled(c.output.amount, ka + kr) == Scaled(input.amount, ka) * Scaled(c.exchangeRate, kr)
  {
    var c := Convert(input, outputCurrency, fetch).value;
    MultiplyIsExact(input.amount, c.exchangeRate, ka, kr);
  }

  /** Converting one unit (BigDecimal.ONE) yields the rate itself, scale included. */
  lemma UnitAmountYieldsRate(outputCurrency: Currency, inputCurrency: Currency, fetch: string -> Upstream)
    requires Convert(CurrencyAmount(One, inputCurrency), outputCurrency, fetch).Success?
    ensures var c := Convert(CurrencyAmount(One, inputCurrency), outputCurrency, fetch).value;
      c.output == CurrencyAmount(c.exchangeRate, outputCurrency)
  {
    var c := Convert(CurrencyAmount(One, inputCurrency), outputCurrency, fetch).value;
    MultiplyByOne(c.exchangeRate);
  }
}
