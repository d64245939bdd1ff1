/** CurrencyConverterController: GET /api/v1/convert?amount=..&symbol=..
    validates its two parameters, picks the other currency of the EUR/USD
    pair and hands the conversion to the service. */
module ConverterController {
  import opened Wrappers
  import opened Decimals
  import opened Currencies
  import opened ConverterService

  /** The three ways a request is refused with 400 Bad Request, in the
      order they are checked, each carrying the offending value. */
  datatype Rejection =
    | NegativeAmount(amount: Decimal)
    | InvalidSymbol(symbol: string)
    | UnsupportedSymbol(symbol: string)
  {
    /** The text of the 400 response: a fixed text per kind followed by the
        offending value. BigDecimal.toString is not modelled: the rendering
        of the amount is supplied by the caller. */
    function Message(amountText: string): (r: string)
      ensures NegativeAmount? ==> |amountText| < |r| && r[|r| - |amountText|..] == amountText
      ensures !NegativeAmount? ==> |symbol| < |r| && r[|r| - |symbol|..] == symbol
      ensures r[0] == 'A' <==> NegativeAmount?
    {
      match this
      case NegativeAmount(_) => "Amount must be positive: " + amountText
      case InvalidSymbol(s) => "Invalid symbol: " + s
      case UnsupportedSymbol(s) => "Unsupported symbol: " + s
    }
  }

  /** What the controller decides before any conversion: refuse, or convert
      `input` into `target`. */
  datatype Routing = Reject(why: Rejection) | Dispatch(input: CurrencyAmount, target: Currency)

  /** The HTTP outcome of the endpoint: 400 with a message, 200 with the
      conversion, or an exception escaping the controller. */
  datatype Response =
    | BadRequest(why: Rejection)
    | Ok(conversion: CurrencyConversion)
    | ServerError(cause: ServiceError)

  /** The other member of the supported pair, if c is in the pair. */
  function OtherOfPair(c: Currency): (r: Option<Currency>)
    ensures r.Some? <==> c == Eur || c == Usd
    ensures r.Some? ==> r.value != c && (r.value == Eur || r.value == Usd)
  {
    if c == Eur then Some(Usd) else if c == Usd then Some(Eur) else None
  }

  /** Pair routing is an involution: going to the other currency and back
      returns to the start. */
  lemma PairIsInvolution(c: Currency)
    requires OtherOfPair(c).Some?
    ensures OtherOfPair(OtherOfPair(c).value) == Some(c)
  {
  }

  /** The validation steps of CurrencyConverterController.convert, up to
      the call into the service. */
  function Route(amount: Decimal, symbol: string): (r: Routing)
    ensures r == Reject(NegativeAmount(amount)) <==> amount.unscaled < 0
    ensures r == Reject(InvalidSymbol(symbol)) <==> amount.unscaled >= 0 && symbol !in IsoCodes
    ensures r == Reject(UnsupportedSymbol(symbol)) <==>
      amount.unscaled >= 0 && symbol in IsoCodes && symbol != "EUR" && symbol != "USD"
    ensures r.Dispatch? <==> amount.unscaled >= 0 && (symbol == "EUR" || symbol == "USD")
    ensures r.Dispatch? ==>
      && r.input.amount == amount && r.input.symbol == symbol
      && r.target != symbol && (r.target == "EUR" || r.target == "USD")
  {
    NegativeIffUnscaledNegative(amount);
    if CompareTo(amount, Zero) < 0 then Reject(NegativeAmount(amount))
    else
      match GetInstance(symbol)
      case None => Reject(InvalidSymbol(symbol))
      case Some(inputSymbol) =>
        match OtherOfPair(inputSymbol)
        case None => Reject(UnsupportedSymbol(symbol))
        case Some(outputSymbol) => Dispatch(CurrencyAmount(amount, inputSymbol), outputSymbol)
  }

  /** CurrencyConverterController.convert: validation, then the service. */
  function Handle(amount: Decimal, symbol: string, fetch: string -> Upstream): (r: Response)
    ensures r.BadRequest? <==> Route(amount, symbol).Reject?
    ensures r.BadRequest? ==> r.why == Route(amount, symbol).why
    ensures var route := Route(amount, symbol);
      route.Dispatch? ==>
        var reply := fetch(PathAndQuery(RateQuery(route.input.symbol, route.target)));
        && (r.Ok? <==> reply.Responded? && reply.rates.Some? && route.target in reply.rates.value)
        && (r.Ok? ==> r.conversion.exchangeRate == reply.rates.value[route.target]
                      && r.conversion.output == CurrencyAmount(Multiply(amount, r.conversion.exchangeRate), route.target))
        && (reply.Unavailable? ==> r == ServerError(TransportFailure))
        && (reply.Responded? && reply.rates.None? ==> r == ServerError(NoRates))
        && (reply.Responded? && reply.rates.Some? && route.target !in reply.rates.value ==> r == ServerError(RateNotFound))
    ensures r.Ok? ==>
      && amount.unscaled >= 0
      && r.conversion.input == CurrencyAmount(amount, symbol)
      && (symbol == "EUR" || symbol == "USD")
      && r.conversion.output.symbol != symbol
      && (r.conversion.output.symbol == "EUR" || r.conversion.output.symbol == "USD")
      && r.conversion.output.amount == Multiply(amount, r.conversion.exchangeRate)
  {
    match Route(amount, symbol)
    case Reject(why) => BadRequest(why)
    case Dispatch(input, target) =>
      match Convert(input, target, fetch)
      case Success(conversion) => Ok(conversion)
      case Failure(e) => ServerError(e)
  }

  const DefaultAmount: Decimal := One
  const DefaultSymbol: string := "EUR"

  /** The endpoint with its parameter defaults: amount = 1, symbol = EUR.
      The web framework applies a default both to a parameter that is not
      sent and to one sent empty (`symbol=`). An amount that is missing or
      empty is None; a symbol that is missing is None and one sent empty is
      Some(""). A non-empty parameter is used as given. */
  function HandleRequest(amount: Option<Decimal>, symbol: Option<string>, fetch: string -> Upstream)
    : (r: Response)
    ensures amount.Some? && symbol.Some? && symbol.value != "" ==> r == Handle(amount.value, symbol.value, fetch)
    ensures amount.None? && symbol.Some? && symbol.value != "" ==> r == Handle(One, symbol.value, fetch)
    ensures amount.Some? && (symbol.None? || symbol == Some("")) ==> r == Handle(amount.value, "EUR", fetch)
    ensures amount.None? && (symbol.None? || symbol == Some("")) ==> r == Handle(One, "EUR", fetch)
  {
    var a := if amount.Some? then amount.value else DefaultAmount;
    var s := if symbol.Some? && symbol.value != "" then symbol.value else DefaultSymbol;
    Handle(a, s, fetch)
  }

  /** Sending `symbol=` empty is the same as not sending it. */
  lemma EmptySymbolIsDefault(amount: Option<Decimal>, fetch: string -> Upstream)
    ensures HandleRequest(amount, Some(""), fetch) == HandleRequest(amount, None, fetch)
  {
  }

  /** A negative amount is refused whatever the symbol: the symbol is
      never examined. */
  lemma NegativeAmountShortCircuits(amount: Decimal, s1: string, s2: string)
    requires amount.unscaled < 0
    ensures Route(amount, s1) == Route(amount, s2) == Reject(NegativeAmount(amount))
  {
  }

  /** Zero passes the amount check, in any scale (0, 0.00, 0E+3),
      although the message speaks of a positive amount. */
  lemma ZeroIsAccepted(scale: int)
    ensures Route(Decimal(0, scale), "EUR") == Dispatch(CurrencyAmount(Decimal(0, scale), Eur), Usd)
  {
  }

  /** A refused request never reaches the upstream: its response is the
      same whatever the upstream would answer. */
  lemma RejectionNeverFetches(amount: Decimal, symbol: string, f: string -> Upstream, g: string -> Upstream)
    requires Route(amount, symbol).Reject?
    ensures Handle(amount, symbol, f) == Handle(amount, symbol, g) == BadRequest(Route(amount, symbol).why)
  {
  }

  /** Each failure has its own message: messages of different kinds of
      rejection differ, whatever the amount renders as. */
  lemma MessagesDistinguishKinds(x: Rejection, y: Rejection, xText: string, yText: string)
    requires x.Message(xText) == y.Message(yText)
    ensures x.NegativeAmount? == y.NegativeAmount?
    ensures x.InvalidSymbol? == y.InvalidSymbol?
    ensures x.UnsupportedSymbol? == y.UnsupportedSymbol?
  {
    assert x.Message(xText)[0] == y.Message(yText)[0];
  }

  /** FOO is not a currency: 400, and the upstream is not asked. */
  lemma FooIsInvalid(fetch: string -> Upstream)
    ensures Handle(One, "FOO", fetch) == BadRequest(InvalidSymbol("FOO"))
  {
  }

  /** AUD is a currency but not one of the pair: 400. */
  lemma AudIsUnsupported(fetch: string -> Upstream)
    ensures Handle(One, "AUD", fetch) == BadRequest(UnsupportedSymbol("AUD"))
  {
  }

  /** The request with no parameters converts one euro into dollars with
      the upstream's EUR to USD rate; the output amount equals the rate. */
  lemma DefaultRequest(fetch: string -> Upstream, rates: map<string, Decimal>)
    requires fetch("/latest?base=EUR&symbols=USD") == Responded(Some(rates))
    requires "USD" in rates
    ensures HandleRequest(None, None, fetch) ==
      Ok(CurrencyConversion(CurrencyAmount(One, Eur), CurrencyAmount(rates["USD"], Usd), rates["USD"]))
  {
    assert PathAndQuery(RateQuery(Eur, Usd)) == "/latest?base=EUR&symbols=USD";
    MultiplyByOne(rates["USD"]);
  }

  /** amount=1&symbol=USD against an upstream that quotes EUR at
      0.8950948801 for base USD. */
  lemma OneDollarInEuros(fetch: string -> Upstream)
    requires fetch("/latest?base=USD&symbols=EUR") == Responded(Some(map["EUR" := Decimal(8950948801, 10)]))
    ensures HandleRequest(Some(One), Some("USD"), fetch) ==
      Ok(CurrencyConversion(CurrencyAmount(One, Usd), CurrencyAmount(Decimal(8950948801, 10), Eur),
                            Decimal(8950948801, 10)))
  {
    assert PathAndQuery(RateQuery(Usd, Eur)) == "/latest?base=USD&symbols=EUR";
  }

  /** An upstream reply without a rate for the output currency fails the
      request: no conversion is produced. */
  lemma MissingRateFails(amount: Decimal, symbol: string, fetch: string -> Upstream,
                          rates: map<string, Decimal>)
    requires Route(amount, symbol).Dispatch?
    requires var route := Route(amount, symbol);
      fetch(PathAndQuery(RateQuery(route.input.symbol, route.target))) == Responded(Some(rates))
      && route.target !in rates
    ensures Handle(amount, symbol, fetch) == ServerError(RateNotFound)
  {
  }
}
