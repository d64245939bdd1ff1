# eurodol: currency conversion endpoint, modelled in Dafny

eurodol is a small Spring Boot service that converts an amount between euros
and US dollars. `GET /api/v1/convert?amount=..&symbol=..` validates its two
parameters and picks the other currency of the EUR/USD pair. It then asks an
exchange-rate service for `/latest?base=<input>&symbols=<output>` and returns
the input amount, the converted amount and the rate. `GET /js/config.js`
serves a script that sets three JavaScript variables (`apiEndpoint`,
`apiEnv`, `apiKey`) from configuration, with the endpoint normalised to end
in a slash.

The model covers the logic in `Application.java`:

- `wrappers.dfy`: `Option` and `Result`.
- `decimals.dfy`: the parts of `java.math.BigDecimal` that the service uses.
  A `Decimal` is an unscaled integer and a scale, so `==` is
  `BigDecimal.equals` and compares the scale too. `CompareTo` is
  `compareTo` and `Multiply` is the exact `multiply`. Their meaning is
  stated through `Scaled(d, k)`, the value of `d` counted in units of
  10^-k, which is an exact integer.
- `currencies.dfy`: `java.util.Currency`. A currency is a recognised
  ISO 4217 code, and `GetInstance` is `Currency.getInstance`.
- `service.dfy`: `CurrencyConverterService.convert` and the value types
  `CurrencyAmount` and `CurrencyConversion`. The upstream is a parameter
  `fetch: string -> Upstream` from the path and query string of the request
  to the reply, so the model can state which request the service sends and
  what it does with each kind of reply.
- `controller.dfy`: `CurrencyConverterController.convert`. `Route` holds the
  validation and the pair routing, `Handle` adds the call into the service,
  and `HandleRequest` adds the parameter defaults (`amount = 1`,
  `symbol = EUR`).
- `config.dfy`: `ConfigController.getConfig` and `generateJsValues`.
  `String.trim` is `Trim`, the endpoint normalisation is
  `NormaliseEndpoint`, and the `StringBuilder` loop is the method
  `GenerateJsValues`. That method is proved against the function
  `JsLines`.

Error paths as the code has them:

- A reply without a `rates` field (or with an empty body) is a
  `NullPointerException` in the code, modelled as the error `NoRates`.
- A failed upstream call is not turned into a particular status code.
  The exception simply leaves the controller, and the model ends at
  `ServerError`.
- An unparseable amount is refused by the web framework before `convert`
  runs, so it is not part of the model.

## Model

| member | source | states |
|---|---|---|
| `Decimals.CompareTo` | src/main/java/fr/alexandreroman/eurodol/Application.java:72 | `compareTo` returns -1, 0 or 1 as the first value is below, equal to or above the second. This holds when both are counted in any common unit, whatever their scales. |
| `Decimals.NegativeIffUnscaledNegative` | src/main/java/fr/alexandreroman/eurodol/Application.java:72 | `amount.compareTo(ZERO) < 0` holds exactly when the unscaled value is negative, so zero in any scale is not negative. |
| `Decimals.Multiply` | src/main/java/fr/alexandreroman/eurodol/Application.java:125 | `multiply` gives a result whose scale is the sum of the operands' scales, and which is zero exactly when a factor is zero. |
| `Decimals.MultiplyIsExact` | src/main/java/fr/alexandreroman/eurodol/Application.java:125 | `multiply` is exact: counted in the product of two units, the product is the product of the two counts. |
| `Decimals.MultiplyByOne` | src/test/java/fr/alexandreroman/eurodol/ApplicationTests.java:73-76 | Multiplying by `BigDecimal.ONE` gives a BigDecimal equal to the other factor, scale included. |
| `Currencies.GetInstance` | src/main/java/fr/alexandreroman/eurodol/Application.java:76-80 | `getInstance` succeeds exactly for recognised codes, and the currency it returns has the code it was given. |
| `ConverterService.PathAndQuery` | src/main/java/fr/alexandreroman/eurodol/Application.java:111-115 | The request starts with `/latest?base=` and ends with the requested output code. |
| `ConverterService.QueryRoundTrip` | src/main/java/fr/alexandreroman/eurodol/Application.java:111-115 | The upstream query string parses back to the query it was built from, with `base` = input currency and `symbols` = output currency. |
| `ConverterService.QueryParseSound` | src/main/java/fr/alexandreroman/eurodol/Application.java:111-115 | Any string that parses as a rate query is exactly the rendering of that query. |
| `ConverterService.Convert` | src/main/java/fr/alexandreroman/eurodol/Application.java:110-130 | The service requests `PathAndQuery(base=input, symbols=output)`, and the conversion succeeds exactly when the reply to that request has a rate for the output code. It then returns the input unchanged, rate = that entry and output = input amount × rate in the output currency. Otherwise it fails with the error for the failed step: transport, missing `rates`, or missing rate. |
| `ConverterService.ConvertReadsOnlyItsQuery` | src/main/java/fr/alexandreroman/eurodol/Application.java:111-119 | The result depends on the upstream only through its answer to the one request built from the input and output currencies. |
| `ConverterService.ConvertIsExact` | src/main/java/fr/alexandreroman/eurodol/Application.java:125-129 | A successful conversion's output amount is exactly the input amount times the returned rate. |
| `ConverterService.UnitAmountYieldsRate` | src/test/java/fr/alexandreroman/eurodol/ApplicationTests.java:130-133 | Converting an amount of one gives an output amount equal to the exchange rate. |
| `ConverterController.OtherOfPair` | src/main/java/fr/alexandreroman/eurodol/Application.java:81-88 | Only EUR and USD have a partner, and the partner is the other member of the pair. |
| `ConverterController.PairIsInvolution` | src/main/java/fr/alexandreroman/eurodol/Application.java:82-85 | Routing is an involution: EUR→USD→EUR and USD→EUR→USD. |
| `ConverterController.Route` | src/main/java/fr/alexandreroman/eurodol/Application.java:72-89 | Each outcome is characterised in both directions. Negative amount ⇔ `NegativeAmount`. Amount ≥ 0 and unknown code ⇔ `InvalidSymbol`. Amount ≥ 0 and a known code other than EUR/USD ⇔ `UnsupportedSymbol`. Amount ≥ 0 and EUR/USD ⇔ dispatch of (amount, symbol) to the other currency of the pair. |
| `ConverterController.Handle` | src/main/java/fr/alexandreroman/eurodol/Application.java:69-90 | 400 exactly when validation refuses, with validation's reason. For a request that passes, with `reply` the upstream's answer to `/latest?base=<symbol>&symbols=<other>`: 200 exactly when `reply` holds a rate for the other currency, and then the rate is that entry and output = amount × rate in the other currency. An unreachable upstream, a reply without `rates` and a reply without the rate each give their own server error. |
| `ConverterController.HandleRequest` | src/main/java/fr/alexandreroman/eurodol/Application.java:70-71 | A missing or empty `amount` is 1, and a missing or empty `symbol` is EUR; a non-empty parameter is used as given. |
| `ConverterController.EmptySymbolIsDefault` | src/main/java/fr/alexandreroman/eurodol/Application.java:71 | Sending `symbol=` empty gives the same response as not sending it. |
| `ConverterController.NegativeAmountShortCircuits` | src/main/java/fr/alexandreroman/eurodol/Application.java:72-74 | A negative amount is refused whatever the symbol; the symbol is never examined. |
| `ConverterController.ZeroIsAccepted` | src/main/java/fr/alexandreroman/eurodol/Application.java:72-74 | Zero, in any scale, passes the amount check despite the "must be positive" message. |
| `ConverterController.RejectionNeverFetches` | src/main/java/fr/alexandreroman/eurodol/Application.java:72-89 | A refused request gets its 400 whatever the upstream would answer, so the service is never consulted. |
| `ConverterController.Rejection.Message` | src/main/java/fr/alexandreroman/eurodol/Application.java:73-87 | Each 400 message ends with the offending value (the amount's text or the symbol), and only the negative-amount message starts with 'A'. |
| `ConverterController.MessagesDistinguishKinds` | src/main/java/fr/alexandreroman/eurodol/Application.java:73-87 | The three 400 messages differ, so each failure kind is identified by its message. |
| `ConverterController.FooIsInvalid` | src/test/java/fr/alexandreroman/eurodol/ApplicationTests.java:97-102 | `symbol=FOO` gets a 400 "Invalid symbol". |
| `ConverterController.AudIsUnsupported` | src/test/java/fr/alexandreroman/eurodol/ApplicationTests.java:104-109 | `symbol=AUD` gets a 400 "Unsupported symbol". |
| `ConverterController.DefaultRequest` | src/main/java/fr/alexandreroman/eurodol/Application.java:70-71 | With no parameters the endpoint converts 1 EUR to USD, and the output amount equals the upstream's EUR→USD rate. |
| `ConverterController.OneDollarInEuros` | src/test/java/fr/alexandreroman/eurodol/ApplicationTests.java:61-79 | `amount=1&symbol=USD`, with an upstream that answers `/latest?base=USD&symbols=EUR` by quoting EUR at 0.8950948801, gives input 1 USD, output 0.8950948801 EUR and that rate. |
| `ConverterController.MissingRateFails` | src/main/java/fr/alexandreroman/eurodol/Application.java:119-122 | A reply without a rate for the output currency makes the request fail with `RateNotFound`, and no conversion is produced. |
| `ConfigController.Trim` | src/main/java/fr/alexandreroman/eurodol/Application.java:216 | `String.trim` returns the slice of s between its leading and its trailing characters ≤ U+0020, and that slice neither starts nor ends with such a character. |
| `ConfigController.TrimIsIdempotent` | src/main/java/fr/alexandreroman/eurodol/Application.java:216 | Trimming a trimmed value changes nothing. |
| `ConfigController.NormaliseEndpoint` | src/main/java/fr/alexandreroman/eurodol/Application.java:195-202 | The result always ends with '/'. An empty setting becomes the application's base URL + "/". Otherwise the setting is a prefix of the result, at most one character is added, and it is kept unchanged exactly when it already ends with '/'. |
| `ConfigController.NormaliseIsIdempotent` | src/main/java/fr/alexandreroman/eurodol/Application.java:195-202 | Normalising a normalised endpoint changes nothing. |
| `ConfigController.ConfigValues` | src/main/java/fr/alexandreroman/eurodol/Application.java:194-206 | The map holds exactly the keys apiEndpoint, apiEnv and apiKey. apiEndpoint holds the normalised endpoint and the other two hold the raw settings. |
| `ConfigController.JsLinesAppend` | src/main/java/fr/alexandreroman/eurodol/Application.java:214-218 | The script for two runs of keys is the two scripts concatenated. |
| `ConfigController.GenerateJsValues` | src/main/java/fr/alexandreroman/eurodol/Application.java:213-219 | The buffer ends up holding one `var k = "trim(v)";\n` line per key, in iteration order, and nothing else. |
| `ConfigController.GetConfig` | src/main/java/fr/alexandreroman/eurodol/Application.java:192-211 | The response is marked `no-cache`, and its body is the script for the three configuration values. |
| `ConfigController.EachEntryHasItsLine` | src/main/java/fr/alexandreroman/eurodol/Application.java:215-217 | Every map entry (k, v) contributes exactly the line `var k = "trim(v)";\n`. The line sits at k's place in the iteration order, between the lines before and after it. |
| `ConfigController.OneLinePerEntry` | src/main/java/fr/alexandreroman/eurodol/Application.java:215-217 | If no key or trimmed value holds a '\n', the script has exactly one '\n'-terminated line per entry. |
| `ConfigController.ConfigScriptHasThreeLines` | src/main/java/fr/alexandreroman/eurodol/Application.java:203-206 | config.js has exactly three '\n'-terminated lines in any iteration order, provided no trimmed configured value holds a '\n'. |

## Left out

- The HTTP call itself is not modelled. This covers `RestTemplate.getForObject`, the OkHttp transport, the 10-second connect and read timeouts and JSON decoding. The upstream is the parameter `fetch`. A `null` rate in the JSON is the same as a missing key, because both reach the same `IOException`.
- OkHttp's response cache (one upstream call per freshness window) is not modelled. It is behaviour of the HTTP client library, not of this code.
- Joining the configured upstream endpoint with `/latest` through `UriComponentsBuilder` is not modelled. The model covers the path and query string that the request carries.
- The web framework's work on the `amount` parameter is not modelled. Decoding the string into a BigDecimal, and the 400 it sends for text such as `A`, happen before `convert` runs. A missing or empty `amount` reaches the model as `None`, because the framework applies the default to both.
- `Currencies.IsoCodes` is a fixed table of 33 codes, not the JDK's full ISO 4217 table. The properties rely on every code being three upper-case letters (`QueryRoundTrip` needs it), on EUR and USD being in the table, and, for the two examples, on AUD being in it and FOO not.
- `Currencies.GetInstance`: a code the JDK recognises but the table lacks, such as GHS, is refused here with "Invalid symbol", where the code answers "Unsupported symbol".
- `ConverterController.Rejection.Message`: the text of the amount inside the 400 message is supplied by the caller, because `BigDecimal.toString` is not modelled.
- `Decimals.Multiply`: scales are unbounded integers. The `ArithmeticException` that BigDecimal throws when a product's scale overflows 32 bits is not modelled.
- Logging calls are not modelled.
- The JSON rendering of the conversion and the status codes that the web framework gives to escaping exceptions are not modelled.
- `CorsFilter`, the `AppConfig` beans and `Application.main` are framework wiring and are not modelled.
- The application's base URL from `ServletUriComponentsBuilder.fromCurrentContextPath().toUriString()` (scheme, host, port and context path) is the parameter `baseUrl`.
- `ConfigController.GetConfig`: the 200 status and the `application/javascript` content type of the response are not modelled; the model covers the `Cache-Control` header and the body.
- `HashMap` iteration order is left open. It is the parameter `order`, which can be any enumeration of the map's keys.
- Line counts (`OneLinePerEntry`, `ConfigScriptHasThreeLines`) count '\n' only. '\r', U+2028 and U+2029 also end a JavaScript line and are not counted.
- Characters are Dafny characters. Java's UTF-16 code units and surrogate pairs are not distinguished in `Trim`.
- The browser front end (`src/main/resources/static/js/app.js`) is not modelled.
