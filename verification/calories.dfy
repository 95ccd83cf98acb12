/** The energy-budget calculator: whether more food fits into the day's limit. */
module Calories {
  import opened Records
  import opened Calculators

  /** The two answers: more may be eaten (with what is left of the limit), or eating should stop. */
  datatype CaloriesMessage = EatMore(remainder: int) | StopEating

  /**
    Picks the answer from the sign of the day's remainder: a strictly positive
    remainder allows more, a remainder of zero or below says stop.
   */
  function CaloriesRemained(c: Calculator, today: int): (m: CaloriesMessage)
    ensures m.EatMore? <==> TodayStats(c, today) < c.limit
    ensures m.StopEating? <==> TodayStats(c, today) >= c.limit
    ensures m.EatMore? ==> m.remainder > 0 && m.remainder + TodayStats(c, today) == c.limit
  {
    var remainder := TodayRemained(c, today);
    if remainder > 0 then EatMore(remainder) else StopEating
  }

  /** Once the answer is "stop", logging more non-negative intake for the day keeps it "stop". */
  lemma StopStaysStop(c: Calculator, r: Record, today: int)
    requires CaloriesRemained(c, today).StopEating?
    requires r.amount >= 0
    ensures CaloriesRemained(AddRecord(c, r), today).StopEating?
  {
    AddRecordEffect(c, r, today);
  }

  /** Intake logged on other days never changes the answer for `today`. */
  lemma OtherDaysIrrelevant(c: Calculator, r: Record, today: int)
    requires r.date != today
    ensures CaloriesRemained(AddRecord(c, r), today) == CaloriesRemained(c, today)
  {
    AddRecordEffect(c, r, today);
  }

  /** A fresh calculator allows its whole limit when the limit is positive and says stop otherwise. */
  lemma FreshCalories(limit: int, today: int)
    ensures limit > 0 ==> CaloriesRemained(NewCalculator(limit), today) == EatMore(limit)
    ensures limit <= 0 ==> CaloriesRemained(NewCalculator(limit), today) == StopEating
  {
  }

  /** Limit 2000, breakfast 500 and dinner 1600 today: 2100 eaten, 100 over, so stop. */
  lemma OverTheLimit(today: int)
    ensures var c := AddRecord(AddRecord(NewCalculator(2000), Record(500, "breakfast", today)),
                               Record(1600, "dinner", today));
            TodayStats(c, today) == 2100 && TodayRemained(c, today) == -100
            && CaloriesRemained(c, today) == StopEating
  {
    var c0 := NewCalculator(2000);
    var c1 := AddRecord(c0, Record(500, "breakfast", today));
    AddRecordEffect(c0, Record(500, "breakfast", today), today);
    AddRecordEffect(c1, Record(1600, "dinner", today), today);
  }
}
