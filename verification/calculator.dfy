/**
  The shared calculator: a fixed daily limit and an append-only list of records,
  queried for the current day's total, the current day's remainder and the
  trailing-week total. The current day is passed in as `today` instead of being
  read from a clock, so every query is a function of the calculator and `today`.
 */
module Calculators {
  import opened Records

  /** A calculator: its daily limit and its records in insertion order. */
  datatype Calculator = Calculator(limit: int, records: seq<Record>)

  /** A fresh calculator holds no records, so nothing has been spent and the whole limit remains. */
  function NewCalculator(limit: int): (c: Calculator)
    ensures c.limit == limit && c.records == []
    ensures forall today :: TodayStats(c, today) == 0 && WeekStats(c, today) == 0
    ensures forall today :: TodayRemained(c, today) == limit
  {
    Calculator(limit, [])
  }

  /** Appends one record; earlier records and the limit stay as they were. */
  function AddRecord(c: Calculator, r: Record): (c': Calculator)
    ensures c'.limit == c.limit
    ensures |c'.records| == |c.records| + 1
    ensures c'.records[..|c.records|] == c.records
    ensures c'.records[|c.records|] == r
  {
    c.(records := c.records + [r])
  }

  /** The amount spent on day `today`: the sum over exactly the records dated `today`. */
  function TodayStats(c: Calculator, today: int): (s: int)
    ensures s == SumAmounts(Selected(c.records, Today, today))
    ensures (forall i :: 0 <= i < |c.records| ==> c.records[i].date != today) ==> s == 0
    ensures NonNegative(c.records) ==> s >= 0
  {
    TotalIsSumOfSelected(c.records, Today, today);
    Total(c.records, Today, today)
  }

  /** What is left of the limit on day `today`; zero or negative once the limit is reached or exceeded. */
  function TodayRemained(c: Calculator, today: int): (r: int)
    ensures r == c.limit - SumAmounts(Selected(c.records, Today, today))
    ensures NonNegative(c.records) ==> r <= c.limit
    ensures r <= 0 <==> TodayStats(c, today) >= c.limit
  {
    c.limit - TodayStats(c, today)
  }

  /** The amount spent in the week ending on `today`: records dated in `(today - 7, today]`. */
  function WeekStats(c: Calculator, today: int): (s: int)
    ensures s == SumAmounts(Selected(c.records, Week, today))
    ensures (forall i :: 0 <= i < |c.records| ==> !(today - WeekDays < c.records[i].date <= today)) ==> s == 0
    ensures NonNegative(c.records) ==> TodayStats(c, today) <= s
  {
    TotalIsSumOfSelected(c.records, Week, today);
    TodayWithinWeek(c.records, today);
    Total(c.records, Week, today)
  }

  /** The trailing-week sum computed record by record, as a running total. */
  method GetWeekStats(c: Calculator, today: int) returns (amount: int)
    ensures amount == WeekStats(c, today)
  {
    amount := 0;
    var i := 0;
    while i < |c.records|
      invariant 0 <= i <= |c.records|
      invariant amount == Total(c.records[..i], Week, today)
    {
      var record := c.records[i];
      assert c.records[..i + 1][..i] == c.records[..i];
      if today >= record.date > today - WeekDays {
        amount := amount + record.amount;
      }
      i := i + 1;
    }
    assert c.records[..i] == c.records;
  }

  /**
    Adding a record changes each query by exactly that record's share: its amount
    when its date is in the window, nothing otherwise.
   */
  lemma AddRecordEffect(c: Calculator, r: Record, today: int)
    ensures TodayStats(AddRecord(c, r), today) == TodayStats(c, today) + (if r.date == today then r.amount else 0)
    ensures TodayRemained(AddRecord(c, r), today) == TodayRemained(c, today) - (if r.date == today then r.amount else 0)
    ensures WeekStats(AddRecord(c, r), today)
         == WeekStats(c, today) + (if today - WeekDays < r.date <= today then r.amount else 0)
  {
    assert (c.records + [r])[..|c.records|] == c.records;
  }

  /** A record logged without a date is dated the current day and so counts in both windows. */
  lemma AddUndatedRecord(c: Calculator, amount: int, comment: string, today: int)
    ensures TodayStats(AddRecord(c, NewRecord(amount, comment, Outcomes.None, today)), today)
         == TodayStats(c, today) + amount
    ensures WeekStats(AddRecord(c, NewRecord(amount, comment, Outcomes.None, today)), today)
         == WeekStats(c, today) + amount
  {
    AddRecordEffect(c, NewRecord(amount, comment, Outcomes.None, today), today);
  }

  /**
    The edges of the trailing week: a record dated exactly seven days back or any
    day after `today` adds nothing to the week total, one dated six days back
    adds its amount.
   */
  lemma WeekEdges(c: Calculator, amount: int, comment: string, today: int)
    ensures WeekStats(AddRecord(c, Record(amount, comment, today - 7)), today) == WeekStats(c, today)
    ensures WeekStats(AddRecord(c, Record(amount, comment, today - 6)), today) == WeekStats(c, today) + amount
    ensures forall d :: d > today ==>
      WeekStats(AddRecord(c, Record(amount, comment, d)), today) == WeekStats(c, today)
      && TodayStats(AddRecord(c, Record(amount, comment, d)), today) == TodayStats(c, today)
  {
    AddRecordEffect(c, Record(amount, comment, today - 7), today);
    AddRecordEffect(c, Record(amount, comment, today - 6), today);
    forall d | d > today
      ensures WeekStats(AddRecord(c, Record(amount, comment, d)), today) == WeekStats(c, today)
      ensures TodayStats(AddRecord(c, Record(amount, comment, d)), today) == TodayStats(c, today)
    {
      AddRecordEffect(c, Record(amount, comment, d), today);
    }
  }

  /** Records logged in any order give the same totals and the same remainder. */
  lemma StatsIgnoreOrder(c: Calculator, d: Calculator, today: int)
    requires c.limit == d.limit && multiset(c.records) == multiset(d.records)
    ensures TodayStats(c, today) == TodayStats(d, today)
    ensures TodayRemained(c, today) == TodayRemained(d, today)
    ensures WeekStats(c, today) == WeekStats(d, today)
  {
    TotalPermutation(c.records, d.records, Today, today);
    TotalPermutation(c.records, d.records, Week, today);
  }

  /** Appending any number of records dated outside a window leaves that window's total unchanged. */
  lemma AddOutsideWindow(c: Calculator, more: seq<Record>, today: int)
    ensures (forall i :: 0 <= i < |more| ==> more[i].date != today) ==>
      TodayStats(c.(records := c.records + more), today) == TodayStats(c, today)
    ensures (forall i :: 0 <= i < |more| ==> !(today - WeekDays < more[i].date <= today)) ==>
      WeekStats(c.(records := c.records + more), today) == WeekStats(c, today)
  {
    TotalAppend(c.records, more, Today, today);
    TotalAppend(c.records, more, Week, today);
  }
}
