/**
  The money calculator: what is left for the day, reported in one of three
  currencies from a fixed rate table.
 */
module Cash {
  import opened Outcomes
  import opened Records
  import opened Calculators

  /** Exchange rates in hundredths of a rouble per unit: 76.54, 90.21 and 1.00. */
  const UsdRate: int := 7654
  const EuroRate: int := 9021
  const RubRate: int := 100

  /** One row of the rate table: the rate and the suffix printed after an amount. */
  datatype Currency = Currency(rate: int, suffix: string)

  /** The fixed table of supported currency codes. */
  function Rates(): map<string, Currency> {
    map[
      "rub" := Currency(RubRate, " руб"),
      "eur" := Currency(EuroRate, " Euro"),
      "usd" := Currency(UsdRate, " USD")
    ]
  }

  /** The one way the cash report fails: a currency code missing from the table. */
  datatype CashError = UnknownCurrency(code: string)

  /** Looks a currency code up in the table. */
  function LookupCurrency(code: string): (r: Result<Currency, CashError>)
    ensures r.Success? <==> code == "rub" || code == "eur" || code == "usd"
    ensures r.Success? ==> r.value.rate > 0 && |r.value.suffix| > 0
    ensures code == "rub" ==> r == Success(Currency(RubRate, " руб"))
    ensures code == "eur" ==> r == Success(Currency(EuroRate, " Euro"))
    ensures code == "usd" ==> r == Success(Currency(UsdRate, " USD"))
    ensures r.Failure? ==> r.error == UnknownCurrency(code)
  {
    if code in Rates() then Success(Rates()[code]) else Failure(UnknownCurrency(code))
  }

  /**
    The three reports: nothing left, an amount left, or a debt. The latter two
    carry the signed remainder in roubles and the currency to convert it into.
   */
  datatype CashMessage =
    | NoMoney
    | Remaining(remainder: int, currency: Currency)
    | Debt(remainder: int, currency: Currency)

  /**
    The day's cash report in currency `code`. The lookup comes first, so an
    unknown code fails whatever the records say; otherwise the sign of the
    remainder picks the report.
   */
  function TodayCashRemained(c: Calculator, today: int, code: string): (r: Result<CashMessage, CashError>)
    ensures r.Failure? <==> code !in {"rub", "eur", "usd"}
    ensures r.Failure? ==> r.error == UnknownCurrency(code)
    ensures r.Success? ==> (r.value.NoMoney? <==> TodayStats(c, today) == c.limit)
    ensures r.Success? ==> (r.value.Remaining? <==> TodayStats(c, today) < c.limit)
    ensures r.Success? ==> (r.value.Debt? <==> TodayStats(c, today) > c.limit)
    ensures r.Success? && !r.value.NoMoney? ==>
      r.value.currency == Rates()[code] && r.value.remainder + TodayStats(c, today) == c.limit
  {
    match LookupCurrency(code)
    case Failure(e) => Failure(e)
    case Success(currency) =>
      var remainder := TodayRemained(c, today);
      if remainder == 0 then Success(NoMoney)
      else if remainder > 0 then Success(Remaining(remainder, currency))
      else Success(Debt(remainder, currency))
  }

  /** The currency only changes the unit of the report, never which report is given. */
  lemma CurrencyKeepsBranch(c: Calculator, today: int, a: string, b: string)
    requires TodayCashRemained(c, today, a).Success? && TodayCashRemained(c, today, b).Success?
    ensures TodayCashRemained(c, today, a).value.NoMoney? == TodayCashRemained(c, today, b).value.NoMoney?
    ensures TodayCashRemained(c, today, a).value.Remaining? == TodayCashRemained(c, today, b).value.Remaining?
    ensures TodayCashRemained(c, today, a).value.Debt? == TodayCashRemained(c, today, b).value.Debt?
  {
  }

  /** Limit 1000 and a coffee of 200 today: 800 roubles remain, reported in dollars; "gbp" is refused. */
  lemma CoffeeReport(today: int)
    ensures var c := AddRecord(NewCalculator(1000), Record(200, "coffee", today));
            TodayCashRemained(c, today, "usd") == Success(Remaining(800, Currency(UsdRate, " USD")))
            && TodayCashRemained(c, today, "gbp") == Failure(UnknownCurrency("gbp"))
  {
    AddRecordEffect(NewCalculator(1000), Record(200, "coffee", today), today);
  }
}
