/** The closure table the system ships, as day numbers. */
module NyseCalendar {
  import opened Wrappers
  import opened MarketCalendar

  predicate LeapYear(y: int) {
    y % 4 == 0 && (y % 100 != 0 || y % 400 == 0)
  }

  function DaysBeforeMonth(y: int, month: int): int
    requires 1 <= month <= 12
  {
    [0, 31, 59, 90, 120, 151, 181, 212, 243, 273, 304, 334][month - 1]
    + if month > 2 && LeapYear(y) then 1 else 0
  }

  /** The day number of a civil date. */
  function Day(y: int, month: int, day: int): Date
    requires y >= 1 && 1 <= month <= 12
  {
    (y - 1) * 365 + (y - 1) / 4 - (y - 1) / 100 + (y - 1) / 400 + DaysBeforeMonth(y, month) + day
  }

  const MIN_YEAR := 2024
  const MAX_YEAR := 2028

  // Full-day closures, in order.

  const CLOSURES_2024: seq<Date> := [
    Day(2024, 1, 1), Day(2024, 1, 15), Day(2024, 2, 19), Day(2024, 3, 29), Day(2024, 5, 27),
    Day(2024, 6, 19), Day(2024, 7, 4), Day(2024, 9, 2), Day(2024, 11, 28), Day(2024, 12, 25)
  ]

  const CLOSURES_2025: seq<Date> := [
    Day(2025, 1, 1), Day(2025, 1, 20), Day(2025, 2, 17), Day(2025, 4, 18), Day(2025, 5, 26),
    Day(2025, 6, 19), Day(2025, 7, 4), Day(2025, 9, 1), Day(2025, 11, 27), Day(2025, 12, 25)
  ]

  const CLOSURES_2026: seq<Date> := [
    Day(2026, 1, 1), Day(2026, 1, 19), Day(2026, 2, 16), Day(2026, 4, 3), Day(2026, 5, 25),
    Day(2026, 6, 19), Day(2026, 7, 3), Day(2026, 9, 7), Day(2026, 11, 26), Day(2026, 12, 25)
  ]

  const CLOSURES_2027: seq<Date> := [
    Day(2027, 1, 1), Day(2027, 1, 18), Day(2027, 2, 15), Day(2027, 3, 26), Day(2027, 5, 31),
    Day(2027, 6, 18), Day(2027, 7, 5), Day(2027, 9, 6), Day(2027, 11, 25), Day(2027, 12, 24)
  ]

  const CLOSURES_2028: seq<Date> := [
    Day(2028, 1, 17), Day(2028, 2, 21), Day(2028, 4, 14), Day(2028, 5, 29), Day(2028, 6, 19),
    Day(2028, 7, 4), Day(2028, 9, 4), Day(2028, 11, 23), Day(2028, 12, 25)
  ]

  const CLOSURES := CLOSURES_2024 + CLOSURES_2025 + CLOSURES_2026 + CLOSURES_2027 + CLOSURES_2028

  const NYSE := Calendar(Day(MIN_YEAR, 1, 1), Day(MAX_YEAR, 12, 31), set d | d in CLOSURES)

  /** The last session the table knows of, a Friday. */
  const LAST_SESSION := Day(2028, 12, 29)

  ghost predicate Regular(closures: seq<Date>) {
    && (forall i :: 0 <= i < |closures| ==> Covered(NYSE, closures[i]) && Weekday(closures[i]) < 5)
    && (forall i :: 0 <= i < |closures| - 1 ==> closures[i] + 7 <= closures[i + 1])
  }

  lemma Regular2024()
    ensures Regular(CLOSURES_2024) && CLOSURES_2024[0] == 738886 && CLOSURES_2024[|CLOSURES_2024| - 1] == 739245
  {
    assert CLOSURES_2024 == [738886, 738900, 738935, 738974, 739033, 739056, 739071, 739131, 739218, 739245];
  }

  lemma Regular2025()
    ensures Regular(CLOSURES_2025) && CLOSURES_2025[0] == 739252 && CLOSURES_2025[|CLOSURES_2025| - 1] == 739610
  {
    assert CLOSURES_2025 == [739252, 739271, 739299, 739359, 739397, 739421, 739436, 739495, 739582, 739610];
  }

  lemma Regular2026()
    ensures Regular(CLOSURES_2026) && CLOSURES_2026[0] == 739617 && CLOSURES_2026[|CLOSURES_2026| - 1] == 739975
  {
    assert CLOSURES_2026 == [739617, 739635, 739663, 739709, 739761, 739786, 739800, 739866, 739946, 739975];
  }

  lemma Regular2027()
    ensures Regular(CLOSURES_2027) && CLOSURES_2027[0] == 739982 && CLOSURES_2027[|CLOSURES_2027| - 1] == 740339
  {
    assert CLOSURES_2027 == [739982, 739999, 740027, 740066, 740132, 740150, 740167, 740230, 740310, 740339];
  }

  lemma Regular2028()
    ensures Regular(CLOSURES_2028) && CLOSURES_2028[0] == 740363 && CLOSURES_2028[|CLOSURES_2028| - 1] == 740706
  {
    assert CLOSURES_2028 == [740363, 740398, 740451, 740496, 740517, 740532, 740594, 740674, 740706];
  }

  lemma RegularJoin(a: seq<Date>, b: seq<Date>)
    requires Regular(a) && Regular(b) && a != [] && b != [] && a[|a| - 1] + 7 <= b[0]
    ensures Regular(a + b)
  {
  }

  /** Every closure listed is a weekday inside the covered years, and two
      closures in a row are at least a week apart. */
  lemma ClosuresAreCoveredWeekdays()
    ensures Regular(CLOSURES)
  {
    Regular2024();
    Regular2025();
    Regular2026();
    Regular2027();
    Regular2028();
    RegularJoin(CLOSURES_2024, CLOSURES_2025);
    RegularJoin(CLOSURES_2024 + CLOSURES_2025, CLOSURES_2026);
    RegularJoin(CLOSURES_2024 + CLOSURES_2025 + CLOSURES_2026, CLOSURES_2027);
    RegularJoin(CLOSURES_2024 + CLOSURES_2025 + CLOSURES_2026 + CLOSURES_2027, CLOSURES_2028);
  }

  lemma {:induction false} ClosuresAreApart(closures: seq<Date>, i: nat, j: nat)
    requires Regular(closures) && i < j < |closures|
    ensures closures[i] + 7 <= closures[j]
    decreases j
  {
    if i < j - 1 {
      ClosuresAreApart(closures, i, j - 1);
    }
  }

  lemma OneClosureAWeek(d: Date, e: Date)
    requires d in NYSE.holidays && e in NYSE.holidays && d < e
    ensures d + 7 <= e
  {
    ClosuresAreCoveredWeekdays();
    hide CLOSURES;
    var i :| 0 <= i < |CLOSURES| && CLOSURES[i] == d;
    var j :| 0 <= j < |CLOSURES| && CLOSURES[j] == e;
    if i < j {
      ClosuresAreApart(CLOSURES, i, j);
    } else if j < i {
      ClosuresAreApart(CLOSURES, j, i);
    }
  }

  /** No four days in a row are all closed: a weekend takes two of them, and
      there is no second closure in the same week. */
  lemma SomeSessionInFourDays(f: Date) returns (d: Date)
    requires NYSE.firstDay <= f + 1 && f + 4 <= NYSE.lastDay
    ensures f < d <= f + 4 && TradingDay(NYSE, d)
  {
    hide CLOSURES, NYSE;
    var a := if Weekday(f + 1) < 5 then f + 1 else if Weekday(f + 2) < 5 then f + 2 else f + 3;
    var b := if a < f + 4 && Weekday(a + 1) < 5 then a + 1 else f + 4;
    if a in NYSE.holidays && b in NYSE.holidays {
      OneClosureAWeek(a, b);
    }
    d := if a in NYSE.holidays then b else a;
  }

  lemma LastSessionTrades()
    ensures TradingDay(NYSE, LAST_SESSION) && Weekday(LAST_SESSION) == 4
    ensures NYSE.lastDay == LAST_SESSION + 2
  {
    Regular2028();
    if LAST_SESSION in NYSE.holidays {
      var last := CLOSURES_2028[|CLOSURES_2028| - 1];
      assert CLOSURES[|CLOSURES| - 1] == last;
      OneClosureAWeek(last, LAST_SESSION);
    }
  }

  lemma WeekendAfter(cal: Calendar, friday: Date)
    requires Weekday(friday) == 4
    ensures Sessions(cal, friday, friday + 2) == 0
  {
    assert Weekday(friday + 1) == 5 && Weekday(friday + 2) == 6;
    assert Sessions(cal, friday, friday + 1) == Sessions(cal, friday, friday) == 0;
    assert Sessions(cal, friday, friday + 2) == Sessions(cal, friday, friday + 1);
  }

  /** Under the table shipped, a T+1 fill on any session settles within four
      days, except on the very last session: there the walk leaves the covered
      years and the calendar's exception is what the caller gets. */
  lemma SettlesWithinFourDays(f: Date)
    requires TradingDay(NYSE, f)
    ensures Settlement(NYSE, f, 1).Ok? <==> f != LAST_SESSION
    ensures f != LAST_SESSION ==> f < Settlement(NYSE, f, 1).value <= f + 4
  {
    LastSessionTrades();
    hide CLOSURES, NYSE, LAST_SESSION;
    if f + 4 <= NYSE.lastDay {
      var d := SomeSessionInFourDays(f);
      SettlesByNextSession(NYSE, f, d);
    } else if f < LAST_SESSION {
      SettlesByNextSession(NYSE, f, LAST_SESSION);
    } else {
      assert f == LAST_SESSION;
      WeekendAfter(NYSE, f);
      SettlementExact(NYSE, f, 1, f);
    }
  }

  lemma OnlyClosureAround(d: Date, closed: Date)
    requires closed in NYSE.holidays && d != closed && closed - 7 < d < closed + 7
    ensures d !in NYSE.holidays
  {
    if d in NYSE.holidays {
      if d < closed {
        OneClosureAWeek(d, closed);
      } else {
        OneClosureAWeek(closed, d);
      }
    }
  }

  lemma ClosuresOf2026(d: Date)
    requires d in CLOSURES_2026
    ensures d in NYSE.holidays
  {
    hide CLOSURES_2024, CLOSURES_2025, CLOSURES_2026, CLOSURES_2027, CLOSURES_2028;
    assert d in CLOSURES_2024 + CLOSURES_2025 + CLOSURES_2026;
  }

  lemma GoodFriday2026()
    ensures Day(2026, 4, 3) in CLOSURES_2026 && Weekday(Day(2026, 4, 3)) == 4
    ensures Day(2026, 4, 2) == Day(2026, 4, 3) - 1 && Day(2026, 4, 6) == Day(2026, 4, 3) + 3
    ensures Covered(NYSE, Day(2026, 4, 2)) && Covered(NYSE, Day(2026, 4, 6))
  {
    hide CLOSURES;
    assert CLOSURES_2026[3] == Day(2026, 4, 3);
  }

  /** Four days is reached: Good Friday 2026 is closed, so the Thursday before
      it settles on the Monday after. */
  lemma GoodFridayFillSettlesOnMonday()
    ensures Settlement(NYSE, Day(2026, 4, 2), 1) == Ok(Day(2026, 4, 6))
  {
    GoodFriday2026();
    hide Day, NYSE, CLOSURES, CLOSURES_2026;
    ClosuresOf2026(Day(2026, 4, 3));
    var closed := Day(2026, 4, 3);
    OnlyClosureAround(closed - 1, closed);
    OnlyClosureAround(closed + 3, closed);
    SettlesOnTheNext(NYSE, closed - 1, closed + 3);
  }
}
