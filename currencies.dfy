/** java.util.Currency as the model needs it. A Currency is one of the
    codes in IsoCodes; Currency.getInstance hands out one
    instance per code, so two currencies are equal exactly when their
    codes are, and a Currency is modelled by its code. */
module Currencies {
  import opened Wrappers

  /** The recognised currency codes: a fixed table of 33 ISO 4217 codes,
      a subset of the JDK's table. The model's properties
      rely on every code being three upper-case letters (CodeShape), on EUR
      and USD being in the table, and, for the two examples, on AUD being in
      it and FOO not. */
  const IsoCodes: set<string> := {
    "AUD", "BGN", "BRL", "CAD", "CHF", "CNY", "CZK", "DKK",
    "EUR", "GBP", "HKD", "HRK", "HUF", "IDR", "ILS", "INR",
    "ISK", "JPY", "KRW", "MXN", "MYR", "NOK", "NZD", "PHP",
    "PLN", "RON", "RUB", "SEK", "SGD", "THB", "TRY", "USD", "ZAR"
  }

  type Currency = c: string | c in IsoCodes witness "EUR"

  const Eur: Currency := "EUR"
  const Usd: Currency := "USD"

  /** Currency.getInstance: the currency whose code is the argument, or
      None where Java throws IllegalArgumentException. */
  function GetInstance(code: string): (r: Option<Currency>)
    ensures r.Some? <==> code in IsoCodes
    ensures r.Some? ==> r.value == code
  {
    if code in IsoCodes then Some(code) else None
  }

  /** Every recognised code is three capital letters. */
  lemma CodeShape(c: Currency)
    ensures |c| == 3
    ensures forall i | 0 <= i < 3 :: 'A' <= c[i] <= 'Z'
  {
  }
}
