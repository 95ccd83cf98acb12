/**
  Consumption records and the date-windowed sums the calculators are built on.
  A date is a day number: consecutive calendar days are consecutive integers.
 */
module Records {
  import opened Outcomes

  /** One logged consumption event: an amount (energy or money), a free-text comment and its day. */
  datatype Record = Record(amount: int, comment: string, date: int)

  /**
    Builds a record the way the record constructor does: an explicit date is taken
    as given (already parsed), a missing one defaults to the current day `today`.
   */
  function NewRecord(amount: int, comment: string, date: Option<int>, today: int): (r: Record)
    ensures r.amount == amount && r.comment == comment
    ensures date.Some? ==> r.date == date.value
    ensures date.None? ==> r.date == today
  {
    Record(amount, comment, if date.Some? then date.value else today)
  }

  /** Length of the trailing window, in days. */
  const WeekDays: int := 7

  /** The two windows the calculator sums over. */
  datatype Window = Today | Week

  /** Whether day `date` falls in window `w` as seen on day `today`. */
  predicate InWindow(w: Window, date: int, today: int) {
    match w
    case Today => date == today
    case Week => today - WeekDays < date <= today
  }

  /** What a single record adds to the total of window `w`. */
  function Contribution(r: Record, w: Window, today: int): int {
    if InWindow(w, r.date, today) then r.amount else 0
  }

  /** Every amount in `rs` is non-negative. */
  predicate NonNegative(rs: seq<Record>) {
    forall i :: 0 <= i < |rs| ==> rs[i].amount >= 0
  }

  /** Sum of the amounts of the records of `rs` that lie in window `w`. */
  function Total(rs: seq<Record>, w: Window, today: int): (t: int)
    ensures (forall i :: 0 <= i < |rs| ==> !InWindow(w, rs[i].date, today)) ==> t == 0
    ensures NonNegative(rs) ==> t >= 0
  {
    if rs == [] then 0
    else Total(rs[..|rs| - 1], w, today) + Contribution(rs[|rs| - 1], w, today)
  }

  /** Plain sum of all amounts of `rs`, with no window. */
  function SumAmounts(rs: seq<Record>): int {
    if rs == [] then 0 else SumAmounts(rs[..|rs| - 1]) + rs[|rs| - 1].amount
  }

  /** The records of `rs` that lie in window `w`, in their original order. */
  function Selected(rs: seq<Record>, w: Window, today: int): (s: seq<Record>)
    ensures |s| <= |rs|
    ensures forall i :: 0 <= i < |s| ==> InWindow(w, s[i].date, today)
    ensures forall r :: multiset(s)[r] == (if InWindow(w, r.date, today) then multiset(rs)[r] else 0)
  {
    if rs == [] then []
    else
      var init := rs[..|rs| - 1];
      var last := rs[|rs| - 1];
      assert rs == init + [last];
      assert multiset(rs) == multiset(init) + multiset{last};
      if InWindow(w, last.date, today) then Selected(init, w, today) + [last]
      else Selected(init, w, today)
  }

  /** The windowed total is exactly the plain sum over the records the window selects. */
  lemma {:induction false} TotalIsSumOfSelected(rs: seq<Record>, w: Window, today: int)
    ensures Total(rs, w, today) == SumAmounts(Selected(rs, w, today))
  {
    if rs != [] {
      var init := rs[..|rs| - 1];
      var last := rs[|rs| - 1];
      TotalIsSumOfSelected(init, w, today);
      if InWindow(w, last.date, today) {
        var s := Selected(init, w, today) + [last];
        assert s[..|s| - 1] == Selected(init, w, today);
      }
    }
  }

  /** Totals of a concatenation add up. */
  lemma {:induction false} TotalAppend(a: seq<Record>, b: seq<Record>, w: Window, today: int)
    ensures Total(a + b, w, today) == Total(a, w, today) + Total(b, w, today)
  {
    if b != [] {
      var init := b[..|b| - 1];
      TotalAppend(a, init, w, today);
      assert (a + b)[..|a + b| - 1] == a + init;
      assert (a + b)[|a + b| - 1] == b[|b| - 1];
      assert b[..|b| - 1] == init;
    } else {
      assert a + b == a;
    }
  }

  /** Removing the record at position `j` takes exactly its contribution off the total. */
  lemma TotalRemove(rs: seq<Record>, j: int, w: Window, today: int)
    requires 0 <= j < |rs|
    ensures Total(rs, w, today) == Total(rs[..j] + rs[j + 1..], w, today) + Contribution(rs[j], w, today)
  {
    assert rs == rs[..j] + [rs[j]] + rs[j + 1..];
    TotalAppend(rs[..j] + [rs[j]], rs[j + 1..], w, today);
    TotalAppend(rs[..j], [rs[j]], w, today);
    TotalAppend(rs[..j], rs[j + 1..], w, today);
  }

  /** Dropping position `j` of a sequence drops exactly one copy of `s[j]` from its multiset. */
  lemma MultisetRemoveAt(s: seq<Record>, j: int)
    requires 0 <= j < |s|
    ensures multiset(s[..j] + s[j + 1..]) == multiset(s) - multiset{s[j]}
  {
    assert s == s[..j] + [s[j]] + s[j + 1..];
    assert multiset(s) == multiset(s[..j]) + multiset{s[j]} + multiset(s[j + 1..]);
  }

  /** Two sequences with the same multiset still agree after each loses one copy of the same record. */
  lemma PermutationRemove(a: seq<Record>, b: seq<Record>, j: int)
    requires a != [] && multiset(a) == multiset(b)
    requires 0 <= j < |b| && b[j] == a[|a| - 1]
    ensures multiset(a[..|a| - 1]) == multiset(b[..j] + b[j + 1..])
  {
    MultisetRemoveAt(a, |a| - 1);
    assert a[..|a| - 1] + a[|a|..] == a[..|a| - 1];
    MultisetRemoveAt(b, j);
  }

  /** The windowed total depends only on which records there are, not on their order. */
  lemma {:induction false} TotalPermutation(a: seq<Record>, b: seq<Record>, w: Window, today: int)
    requires multiset(a) == multiset(b)
    ensures Total(a, w, today) == Total(b, w, today)
  {
    if a == [] {
      assert |b| == |multiset(b)| == 0;
    } else {
      var last := a[|a| - 1];
      assert last in b by {
        assert last in multiset(b);
      }
      var j :| 0 <= j < |b| && b[j] == last;
      PermutationRemove(a, b, j);
      TotalPermutation(a[..|a| - 1], b[..j] + b[j + 1..], w, today);
      TotalRemove(b, j, w, today);
    }
  }

  /** Appending records that all lie outside window `w` leaves its total unchanged. */
  lemma {:induction false} TotalAppendOutside(rs: seq<Record>, more: seq<Record>, w: Window, today: int)
    requires forall i :: 0 <= i < |more| ==> !InWindow(w, more[i].date, today)
    ensures Total(rs + more, w, today) == Total(rs, w, today)
  {
    TotalAppend(rs, more, w, today);
  }

  /** With non-negative amounts, the day total never exceeds the trailing-week total. */
  lemma {:induction false} TodayWithinWeek(rs: seq<Record>, today: int)
    ensures NonNegative(rs) ==> Total(rs, Today, today) <= Total(rs, Week, today)
  {
    if rs != [] {
      TodayWithinWeek(rs[..|rs| - 1], today);
    }
  }
}
