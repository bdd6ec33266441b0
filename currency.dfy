/**
 * The salary normaliser: a fixed table of multipliers against the US dollar and the
 * conversion that falls back to a multiplier of 1 for a symbol the table does not know.
 */
module Currency {

  /** The rate table, as the application defines it, including the key "3" (mapped to 1.27). */
  const CurrencyRates: map<string, real> := map[
    "$" := 1.0,
    "\U{20AC}" := 1.08,    // euro sign
    "3" := 1.27,
    "\U{A5}" := 0.0062,    // yen sign
    "\U{20BD}" := 0.011,   // rouble sign
    "\U{20B9}" := 0.012,   // rupee sign
    "\U{FDFC}" := 0.0027   // rial sign
  ]

  /** The multiplier for a symbol: its table entry, or 1 when the table has none; always positive. */
  function Rate(symbol: string): (rate: real)
    ensures rate > 0.0
    ensures symbol !in CurrencyRates ==> rate == 1.0
  {
    if symbol in CurrencyRates then CurrencyRates[symbol] else 1.0
  }

  /**
   * The US-dollar equivalent of an amount given in the currency `symbol`: the amount times the
   * table's rate, or the amount itself for a symbol the table does not know.
   */
  function ConvertToUsd(salary: real, symbol: string): (usd: real)
    ensures symbol in CurrencyRates ==> usd == salary * CurrencyRates[symbol]
    ensures symbol !in CurrencyRates ==> usd == salary
  {
    salary * Rate(symbol)
  }

  /** Every multiplier in the table is positive, and no key is the empty string. */
  lemma RatesPositive(symbol: string)
    requires symbol in CurrencyRates
    ensures CurrencyRates[symbol] > 0.0
    ensures symbol != ""
  {
  }

  /** A known symbol converts by its table entry. */
  lemma ConvertKnownSymbol(salary: real, symbol: string)
    requires symbol in CurrencyRates
    ensures ConvertToUsd(salary, symbol) == salary * CurrencyRates[symbol]
  {
  }

  /** An unknown symbol leaves the amount as it is. */
  lemma ConvertUnknownSymbol(salary: real, symbol: string)
    requires symbol !in CurrencyRates
    ensures ConvertToUsd(salary, symbol) == salary
  {
  }

  /** The dollar converts to itself, and the euro by 1.08. */
  lemma ConvertReferenceValues(salary: real)
    ensures ConvertToUsd(salary, "$") == salary
    ensures ConvertToUsd(100.0, "$") == 100.0
    ensures ConvertToUsd(100.0, "\U{20AC}") == 108.0
  {
  }

  /**
   * Conversion keeps the sign of the amount: every rate, the default included, is positive,
   * so a non-zero amount never becomes zero and a positive one stays positive.
   */
  lemma ConvertKeepsSign(salary: real, symbol: string)
    ensures ConvertToUsd(salary, symbol) == 0.0 <==> salary == 0.0
    ensures ConvertToUsd(salary, symbol) > 0.0 <==> salary > 0.0
  {
    var rate := Rate(symbol);
    assert rate > 0.0 by {
      if symbol in CurrencyRates { RatesPositive(symbol); }
    }
    if salary > 0.0 {
      assert salary * rate > 0.0;
    } else if salary < 0.0 {
      assert salary * rate < 0.0;
    }
  }
}
