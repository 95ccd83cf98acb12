# Budget calculator model

A Dafny model of a small budget-aggregation engine (`homework.py`). A
`Calculator` keeps a fixed daily `limit` and an append-only list of
`Record(amount, comment, date)`. It answers three queries:

- `get_today_stats`: the sum of the amounts dated today.
- `get_today_remained`: the limit minus that sum.
- `get_week_stats`: the sum of the amounts dated in the half-open window `(today - 7, today]`.

Two specialisations turn the remainder into an answer. `CaloriesCalculator`
either encourages more food or says stop. `CashCalculator` looks the requested
currency up in a fixed three-entry table and reports that nothing is left,
what is left, or the debt.

Dates are integer day numbers. The current day is an explicit `today`
parameter rather than a clock read, so every query is a pure function of the
calculator and `today`. Records live in a `seq<Record>`. Both windowed sums
are one recursive function, `Records.Total`, over a `Window` (`Today` or
`Week`). Its independent reference is the plain sum over the records the
window selects (`Records.Selected`, specified by its multiset).

Files:

- `outcomes.dfy`: `Option` and `Result`.
- `records.dfy`: records, windows, the windowed sum, and the lemmas about
  concatenation, reordering and the day-within-week bound.
- `calculator.dfy`: the calculator and its three queries. The week query is
  also written as the source's running-total loop.
- `calories.dfy`: the energy answer.
- `cash.dfy`: the currency table and the cash answer.

Two facts about the code shape the model:

- The code does not check that amounts are non-negative. Properties that
  need it take `NonNegative` as a hypothesis.
- For an unknown code the dictionary lookup at homework.py:69 raises before
  any answer is built. The model returns `Failure(UnknownCurrency(code))` at
  that point.

## Model

| member | source | states |
|---|---|---|
| Records.NewRecord | homework.py:5-15 | a record keeps its amount and comment; its date is the given date, or the current day when none is given |
| Records.Total | homework.py:28-45 | the windowed sum is 0 when no record lies in the window, including with no records, and is non-negative when every amount is |
| Records.Selected | homework.py:30-31 | the records a window selects are exactly those of the list dated in the window, with their multiplicities, and no others |
| Records.TotalIsSumOfSelected | homework.py:28-45 | the windowed sum equals the plain sum of the amounts of exactly the records the window selects |
| Records.TotalAppend | homework.py:26 | the windowed sum of a concatenation is the sum of the two parts' windowed sums |
| Records.TotalRemove | homework.py:40-42 | removing one record takes exactly its window contribution off the windowed sum |
| Records.TotalPermutation | homework.py:28-45 | two record lists with the same multiset have the same windowed sums, so insertion order is irrelevant |
| Records.TotalAppendOutside | homework.py:40-44 | appending records dated outside a window leaves that window's sum unchanged |
| Records.TodayWithinWeek | homework.py:28-45 | with non-negative amounts, today's sum is at most the trailing-week sum, because today lies in the week window |
| Calculators.NewCalculator | homework.py:19-21 | a new calculator has the given limit and an empty record list, so both sums are 0 and the remainder is the whole limit on every day |
| Calculators.AddRecord | homework.py:23-26 | adding appends exactly one record at the end; earlier records keep their values and order, and the limit is untouched |
| Calculators.TodayStats | homework.py:28-31 | today's stats are the sum over exactly the records dated today; 0 when none is; non-negative with non-negative amounts |
| Calculators.TodayRemained | homework.py:33-34 | the remainder is the limit minus the sum of today's records; at most the limit with non-negative amounts; zero or below exactly when today's stats reach the limit |
| Calculators.WeekStats | homework.py:36-45 | the week stats are the sum over exactly the records dated in (today - 7, today]; 0 when none is; at least today's stats with non-negative amounts |
| Calculators.GetWeekStats | homework.py:36-45 | the running-total loop over the records computes the week stats |
| Calculators.AddRecordEffect | homework.py:23-45 | adding a record changes today's stats and remainder by its amount exactly when it is dated today, and the week stats exactly when it is dated in the week window |
| Calculators.AddUndatedRecord | homework.py:12-13 | a record added without a date counts in today's stats and in the week stats |
| Calculators.WeekEdges | homework.py:37-41 | a record dated exactly 7 days back is excluded from the week, one dated 6 days back is included, and one dated after today is excluded from both sums |
| Calculators.StatsIgnoreOrder | homework.py:28-45 | calculators holding the same records in any order give the same today's stats, remainder and week stats |
| Calculators.AddOutsideWindow | homework.py:23-45 | appending any number of records none dated today leaves today's stats unchanged, and none dated in the week leaves the week stats unchanged |
| Calories.CaloriesRemained | homework.py:49-55 | the answer is "eat more" exactly when today's stats are below the limit, carrying the positive remainder; it is "stop" exactly when the limit is reached or exceeded, including a remainder of 0 |
| Calories.StopStaysStop | homework.py:49-55 | once the answer is "stop", adding a record with a non-negative amount keeps it "stop" |
| Calories.OtherDaysIrrelevant | homework.py:49-55 | a record dated on another day does not change today's answer |
| Calories.FreshCalories | homework.py:49-55 | with no records the answer is "eat more" with the whole limit when the limit is positive, and "stop" otherwise |
| Calories.OverTheLimit | homework.py:28-55 | with limit 2000 and records of 500 and 1600 today, today's stats are 2100, the remainder is -100 and the answer is "stop" |
| Cash.LookupCurrency | homework.py:59-70 | the lookup succeeds exactly for "rub", "eur" and "usd" and returns that code's table row (rate 100, 9021 or 7654 hundredths, that is 1.00, 90.21 or 76.54, with suffix " руб", " Euro" or " USD"); any other code fails with that code |
| Cash.TodayCashRemained | homework.py:63-81 | fails exactly for codes outside the table, whatever the records say; otherwise "no money" iff the remainder is 0, "remaining" iff it is positive, "debt" iff it is negative, carrying the table's currency and the remainder |
| Cash.CurrencyKeepsBranch | homework.py:72-81 | for any two known currencies, the same one of the three answers is given |
| Cash.CoffeeReport | homework.py:59-81 | with limit 1000 and a record of 200 today, the dollar report is "remaining" 800 at rate 76.54, and "gbp" is refused |

## Left out

- Clock reads (homework.py:13, 29, 38, 41) are replaced by the `today` parameter. The model does not cover the week query's clock read per record (line 41) besides the one at line 38, or a midnight falling between them.
- Records.NewRecord: the date text is not parsed. The `%d.%m.%Y` parsing and its failure on malformed or impossible dates (homework.py:15) belong to a library call, so a given date is an already-parsed day number.
- Amounts and the limit are integers. The source also accepts floating-point values, whose rounding is not modelled.
- Cash.TodayCashRemained: the converted amount `abs(round(remainder / rate, 2))` (homework.py:71) is not computed, because it is floating-point division and rounding. The answer carries the signed remainder and the currency row (rates are kept as exact hundredths), from which the converted amount is formed.
- The message texts and their formatting (homework.py:52-55, 73-81) are modelled as the constructors of `CaloriesMessage` and `CashMessage`. The currency suffix strings are kept.
- The `Tuple` type annotations on `records` and on `add_record`'s parameter (homework.py:21, 24) do not describe the values actually stored, which are records. The model uses `Record`.
