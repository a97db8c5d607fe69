/** The exchange calendar: trading days, and the three walks over them.

    Dates are day numbers (1 January of year 1 is day 1), instants are
    microseconds. A Calendar is any table of weekday closures with a covered
    range; NYSE is the table the system ships. */
module MarketCalendar {
  import opened Wrappers

  type Date = int
  type Instant = int

  datatype CalendarError = OutsideCoverage | ClosedSession | CountNotPositive

  datatype Calendar = Calendar(firstDay: Date, lastDay: Date, holidays: set<Date>)

  // ---------------------------------------------------------------- trading days

  predicate Covered(cal: Calendar, d: Date) {
    cal.firstDay <= d <= cal.lastDay
  }

  /** Monday is 0, as day 1 was a Monday. */
  function Weekday(d: Date): int {
    (d - 1) % 7
  }

  /** Weekday and not a holiday, inside the covered range. */
  predicate TradingDay(cal: Calendar, d: Date) {
    Covered(cal, d) && Weekday(d) < 5 && d !in cal.holidays
  }

  // ---------------------------------------------------------------- counting sessions

  /** The number of trading sessions in the half-open range (a, b]. */
  ghost function Sessions(cal: Calendar, a: Date, b: Date): nat
    decreases b - a
  {
    if b <= a then 0
    else Sessions(cal, a, b - 1) + if TradingDay(cal, b) then 1 else 0
  }

  lemma {:induction false} SessionsSplit(cal: Calendar, a: Date, b: Date, c: Date)
    requires a <= b <= c
    ensures Sessions(cal, a, c) == Sessions(cal, a, b) + Sessions(cal, b, c)
    decreases c - b
  {
    if b < c {
      SessionsSplit(cal, a, b, c - 1);
    }
  }

  // ---------------------------------------------------------------- the walks

  /** Where a forward walk from d stands once it has met n more sessions. */
  function Walk(cal: Calendar, d: Date, n: nat): Option<Date>
    decreases cal.lastDay - d
  {
    if n == 0 then Some(d)
    else if !Covered(cal, d + 1) then None
    else Walk(cal, d + 1, if TradingDay(cal, d + 1) then n - 1 else n)
  }

  /** A walk of n sessions ends on d exactly when d is a session and (a, d]
      holds n of them; it fails exactly when the coverage ends first. */
  lemma {:induction false} WalkExact(cal: Calendar, a: Date, n: nat)
    requires n > 0 && Covered(cal, a)
    ensures Walk(cal, a, n).None? <==> Sessions(cal, a, cal.lastDay) < n
    ensures forall d :: Walk(cal, a, n) == Some(d) <==>
                        a < d && TradingDay(cal, d) && Sessions(cal, a, d) == n
    decreases cal.lastDay - a
  {
    if !Covered(cal, a + 1) {
      return;
    }
    assert Sessions(cal, a, a + 1) == Sessions(cal, a, a) + if TradingDay(cal, a + 1) then 1 else 0;
    forall d | a < d ensures Sessions(cal, a, d) == Sessions(cal, a, a + 1) + Sessions(cal, a + 1, d) {
      SessionsSplit(cal, a, a + 1, d);
    }
    var rest := if TradingDay(cal, a + 1) then n - 1 else n;
    if rest > 0 {
      WalkExact(cal, a + 1, rest);
      forall d ensures Walk(cal, a, n) == Some(d) <==>
                       a < d && TradingDay(cal, d) && Sessions(cal, a, d) == n {
        assert Walk(cal, a, n) == Walk(cal, a + 1, rest);
        if d == a + 1 {
          assert Sessions(cal, a + 1, d) == 0;
        }
      }
    } else {
      forall d | a + 1 < d && TradingDay(cal, d) ensures Sessions(cal, a, d) > 1 {
        SessionsSplit(cal, a + 1, d - 1, d);
        assert Sessions(cal, d - 1, d) == 1;
      }
    }
  }

  lemma {:induction false} WalkComposes(cal: Calendar, a: Date, m: nat, n: nat)
    ensures Walk(cal, a, m + n) ==
            match Walk(cal, a, m) case None => None case Some(d) => Walk(cal, d, n)
    decreases cal.lastDay - a
  {
    if m > 0 && Covered(cal, a + 1) {
      WalkComposes(cal, a + 1, if TradingDay(cal, a + 1) then m - 1 else m, n);
    }
  }

  /** The n most recent sessions on or before d, oldest first. */
  function Trailing(cal: Calendar, d: Date, n: nat): Option<seq<Date>>
    decreases d - cal.firstDay
  {
    if n == 0 then Some([])
    else if d < cal.firstDay then None
    else if !TradingDay(cal, d) then Trailing(cal, d - 1, n)
    else match Trailing(cal, d - 1, n - 1)
         case None => None
         case Some(older) => Some(older + [d])
  }

  /** The window holds exactly the sessions that have at most n sessions from
      them up to the query date, in increasing order. */
  lemma {:induction false} TrailingExact(cal: Calendar, d: Date, n: nat)
    requires d <= cal.lastDay
    ensures Trailing(cal, d, n).None? <==> Sessions(cal, cal.firstDay - 1, d) < n
    ensures Trailing(cal, d, n).Some? ==>
              var w := Trailing(cal, d, n).value;
              && |w| == n
              && (forall i, j :: 0 <= i < j < n ==> w[i] < w[j])
              && (forall x :: x in w <==> x <= d && TradingDay(cal, x) && Sessions(cal, x - 1, d) <= n)
    decreases d - cal.firstDay
  {
    if n == 0 {
      forall x | x <= d && TradingDay(cal, x) ensures Sessions(cal, x - 1, d) > 0 {
        SessionsSplit(cal, x - 1, x, d);
      }
    } else if d >= cal.firstDay {
      var rest := if TradingDay(cal, d) then n - 1 else n;
      TrailingExact(cal, d - 1, rest);
      var older := Trailing(cal, d - 1, rest);
      if older.Some? {
        var w := Trailing(cal, d, n).value;
        assert w == older.value + if TradingDay(cal, d) then [d] else [];
        forall i, j | 0 <= i < j < n ensures w[i] < w[j] {
          assert w[i] == older.value[i] && w[i] in older.value;
        }
        forall x ensures x in w <==> x <= d && TradingDay(cal, x) && Sessions(cal, x - 1, d) <= n {
          if TradingDay(cal, d) {
            assert w == older.value + [d];
            assert x in w <==> x in older.value || x == d;
            assert Sessions(cal, d - 1, d) == 1;
          }
        }
      }
    }
  }

  /** A smaller query date never loses a session the larger window had. */
  lemma WindowsNest(cal: Calendar, s: Date, d: Date, n: nat, x: Date)
    requires s <= d <= cal.lastDay && Trailing(cal, s, n).Some? && Trailing(cal, d, n).Some?
    requires x <= s && x in Trailing(cal, d, n).value
    ensures x in Trailing(cal, s, n).value
  {
    TrailingExact(cal, s, n);
    TrailingExact(cal, d, n);
    SessionsSplit(cal, x - 1, s, d);
  }

  // ---------------------------------------------------------------- the calls

  /** What settlement_date answers, or the exception it raises. */
  function Settlement(cal: Calendar, fillDate: Date, tPlus: int): Result<Date, CalendarError> {
    if !Covered(cal, fillDate) then Err(OutsideCoverage)
    else if !TradingDay(cal, fillDate) then Err(ClosedSession)
    else if tPlus <= 0 then Err(CountNotPositive)
    else match Walk(cal, fillDate, tPlus)
         case None => Err(OutsideCoverage)
         case Some(d) => Ok(d)
  }

  method SettlementDate(cal: Calendar, fillDate: Date, tPlus: int) returns (r: Result<Date, CalendarError>)
    ensures r == Settlement(cal, fillDate, tPlus)
  {
    if !Covered(cal, fillDate) {
      return Err(OutsideCoverage);
    }
    if !TradingDay(cal, fillDate) {
      return Err(ClosedSession);
    }
    if tPlus <= 0 {
      return Err(CountNotPositive);
    }
    var d, remaining := fillDate, tPlus;
    while remaining > 0
      invariant remaining >= 0 && Covered(cal, d)
      invariant Walk(cal, fillDate, tPlus) == Walk(cal, d, remaining)
      decreases cal.lastDay - d
    {
      d := d + 1;
      if !Covered(cal, d) {
        return Err(OutsideCoverage);
      }
      if TradingDay(cal, d) {
        remaining := remaining - 1;
      }
    }
    return Ok(d);
  }

  method NextTradingDay(cal: Calendar, d: Date) returns (r: Result<Date, CalendarError>)
    ensures r.Ok? <==> Covered(cal, d) && Sessions(cal, d, cal.lastDay) > 0
    ensures r.Ok? ==> d < r.value && TradingDay(cal, r.value)
    ensures r.Ok? ==> forall x :: d < x < r.value ==> !TradingDay(cal, x)
    ensures r.Err? ==> r.error == OutsideCoverage
  {
    if !Covered(cal, d) {
      return Err(OutsideCoverage);
    }
    var next := d + 1;
    while true
      invariant d < next <= cal.lastDay + 1
      invariant forall x :: d < x < next ==> !TradingDay(cal, x)
      invariant Sessions(cal, d, next - 1) == 0
      decreases cal.lastDay + 1 - next
    {
      if !Covered(cal, next) {
        return Err(OutsideCoverage);
      }
      if TradingDay(cal, next) {
        SessionsSplit(cal, d, next, cal.lastDay);
        return Ok(next);
      }
      next := next + 1;
    }
  }

  /** What trailing_sessions answers, or the exception it raises. */
  function TrailingOutcome(cal: Calendar, asOf: Date, n: int): Result<seq<Date>, CalendarError> {
    if !Covered(cal, asOf) then Err(OutsideCoverage)
    else if n <= 0 then Err(CountNotPositive)
    else match Trailing(cal, asOf, n)
         case None => Err(OutsideCoverage)
         case Some(w) => Ok(w)
  }

  method TrailingSessions(cal: Calendar, asOf: Date, n: int) returns (r: Result<seq<Date>, CalendarError>)
    ensures r == TrailingOutcome(cal, asOf, n)
  {
    if !Covered(cal, asOf) {
      return Err(OutsideCoverage);
    }
    if n <= 0 {
      return Err(CountNotPositive);
    }
    var out: seq<Date> := [];   // oldest first
    var d := asOf;
    assert Trailing(cal, asOf, n).Some? ==> Trailing(cal, asOf, n).value + [] == Trailing(cal, asOf, n).value;
    while |out| < n
      invariant |out| <= n && d <= asOf && d >= cal.firstDay - 1
      invariant Trailing(cal, asOf, n) ==
                match Trailing(cal, d, n - |out|) case None => None case Some(older) => Some(older + out)
      decreases d - cal.firstDay + 1
    {
      if d < cal.firstDay {
        return Err(OutsideCoverage);
      }
      if TradingDay(cal, d) {
        ghost var older := Trailing(cal, d - 1, n - |out| - 1);
        assert older.Some? ==> (older.value + [d]) + out == older.value + ([d] + out);
        out := [d] + out;
      }
      d := d - 1;
    }
    assert [] + out == out;
    return Ok(out);
  }

  // ---------------------------------------------------------------- the walks undo each other

  /** settlement_date(f, t) is the session with exactly t sessions in (f, d]. */
  lemma SettlementExact(cal: Calendar, f: Date, t: int, d: Date)
    requires TradingDay(cal, f) && t > 0
    ensures Settlement(cal, f, t) == Ok(d) <==>
            f < d && TradingDay(cal, d) && Sessions(cal, f, d) == t
    ensures Settlement(cal, f, t).Err? <==> Sessions(cal, f, cal.lastDay) < t
  {
    WalkExact(cal, f, t);
  }

  /** A fill settles in one session no later than on any later session. */
  lemma SettlesByNextSession(cal: Calendar, f: Date, d: Date)
    requires TradingDay(cal, f) && TradingDay(cal, d) && f < d
    ensures Settlement(cal, f, 1).Ok? && f < Settlement(cal, f, 1).value <= d
  {
    SessionsSplit(cal, f, d - 1, d);
    assert Sessions(cal, d - 1, d) == 1;
    SessionsSplit(cal, f, d, cal.lastDay);
    SettlementExact(cal, f, 1, d);
    var e := Settlement(cal, f, 1).value;
    SettlementExact(cal, f, 1, e);
    if d < e {
      SessionsSplit(cal, f, d, e);
      SessionsSplit(cal, d, e - 1, e);
    }
  }

  lemma SettlesOnTheNext(cal: Calendar, f: Date, d: Date)
    requires TradingDay(cal, f) && TradingDay(cal, d) && f < d
    requires forall x :: f < x < d ==> !TradingDay(cal, x)
    ensures Settlement(cal, f, 1) == Ok(d)
  {
    SettlesByNextSession(cal, f, d);
    var e := Settlement(cal, f, 1).value;
    SettlementExact(cal, f, 1, e);
  }

  /** Settling t sessions and then u more is settling t + u. */
  lemma SettlementComposes(cal: Calendar, f: Date, t: int, u: int)
    requires TradingDay(cal, f) && t > 0 && u > 0
    ensures Settlement(cal, f, t + u) ==
            match Settlement(cal, f, t) case Err(e) => Err(e) case Ok(d) => Settlement(cal, d, u)
  {
    WalkComposes(cal, f, t, u);
    WalkExact(cal, f, t);
  }

  /** Later fills settle strictly later, and so do longer cycles. */
  lemma SettlementStrictlyIncreasing(cal: Calendar, f: Date, g: Date, t: int, u: int)
    requires TradingDay(cal, f) && TradingDay(cal, g) && t > 0 && u > 0
    requires f <= g && t <= u && (f < g || t < u)
    requires Settlement(cal, g, u).Ok?
    ensures Settlement(cal, f, t).Ok?
    ensures Settlement(cal, f, t).value < Settlement(cal, g, u).value
  {
    var e := Settlement(cal, g, u).value;
    SettlementExact(cal, g, u, e);
    SessionsSplit(cal, f, g, e);
    if f < g {
      SessionsSplit(cal, f, g - 1, g);
    }
    SessionsSplit(cal, f, e, cal.lastDay);
    WalkExact(cal, f, t);
    var d := Settlement(cal, f, t).value;
    if e <= d {
      SessionsSplit(cal, f, e, d);
    }
  }

  /** The backward walk returns to the fill: d is where f settles exactly when
      d is a session and the window of t + 1 sessions ending on d starts at f. */
  lemma TrailingUndoesSettlement(cal: Calendar, f: Date, t: int, d: Date)
    requires TradingDay(cal, f) && t > 0 && Covered(cal, d)
    ensures Settlement(cal, f, t) == Ok(d) <==>
            TradingDay(cal, d) && Trailing(cal, d, t + 1).Some? && Trailing(cal, d, t + 1).value[0] == f
  {
    SettlementExact(cal, f, t, d);
    if Settlement(cal, f, t) == Ok(d) {
      WindowStartsAtFill(cal, f, t, d);
    } else if TradingDay(cal, d) && Trailing(cal, d, t + 1).Some? && Trailing(cal, d, t + 1).value[0] == f {
      WindowOldestCount(cal, d, t + 1);
      SessionsSplit(cal, f - 1, f, d);
      assert Sessions(cal, f - 1, f) == 1;
    }
  }

  lemma WindowStartsAtFill(cal: Calendar, f: Date, t: nat, d: Date)
    requires TradingDay(cal, f) && f < d && Covered(cal, d) && Sessions(cal, f, d) == t
    ensures Trailing(cal, d, t + 1).Some? && |Trailing(cal, d, t + 1).value| == t + 1
    ensures Trailing(cal, d, t + 1).value[0] == f
  {
    SessionsSplit(cal, f - 1, f, d);
    SessionsSplit(cal, cal.firstDay - 1, f - 1, d);
    TrailingExact(cal, d, t + 1);
    WindowOldestCount(cal, d, t + 1);
    EqualCountsMeet(cal, Trailing(cal, d, t + 1).value[0], f, d);
  }

  /** Two sessions with as many sessions from them up to d are the same one. */
  lemma EqualCountsMeet(cal: Calendar, x: Date, f: Date, d: Date)
    requires TradingDay(cal, x) && TradingDay(cal, f) && x <= d && f <= d
    requires Sessions(cal, x - 1, d) == Sessions(cal, f - 1, d)
    ensures x == f
  {
    var a, b := if x < f then x else f, if x < f then f else x;
    SessionsSplit(cal, a - 1, b - 1, d);
    if a < b {
      SessionsSplit(cal, a - 1, a, b - 1);
    }
  }

  /** Counting back from the query date to the oldest window member gives n. */
  lemma {:induction false} WindowOldestCount(cal: Calendar, d: Date, n: nat)
    requires d <= cal.lastDay && n > 0 && Trailing(cal, d, n).Some?
    ensures |Trailing(cal, d, n).value| == n
    ensures var x := Trailing(cal, d, n).value[0]; x <= d && Sessions(cal, x - 1, d) == n
    decreases d - cal.firstDay
  {
    TrailingExact(cal, d, n);
    if !TradingDay(cal, d) {
      WindowOldestCount(cal, d - 1, n);
    } else if n > 1 {
      WindowOldestCount(cal, d - 1, n - 1);
      assert Trailing(cal, d, n).value[0] == Trailing(cal, d - 1, n - 1).value[0];
    } else {
      assert Trailing(cal, d, n).value == [d];
      assert Sessions(cal, d - 1, d) == 1;
    }
  }

  // ---------------------------------------------------------------- settlement instants

  /** The market one account trades in: its calendar, the Eastern date of an
      instant, the opening instant of a session, and the settlement cycle. */
  datatype Market = Market(calendar: Calendar, sessionOf: Instant -> Date, opensAt: Date -> Instant, tPlus: int)

  /** What any real time zone gives: dates follow instants, and a session
      opens on its own date. */
  ghost predicate Chronological(m: Market) {
    && (forall a: Instant, b: Instant :: a <= b ==> m.sessionOf(a) <= m.sessionOf(b))
    && (forall d: Date :: m.sessionOf(m.opensAt(d)) == d)
  }

  /** Market open of the settlement session; None where the
      calendar's exception gets out. */
  function SettlementInstant(m: Market, filledAt: Instant): Option<Instant> {
    match Settlement(m.calendar, m.sessionOf(filledAt), m.tPlus)
    case Err(_) => None
    case Ok(d) => Some(m.opensAt(d))
  }

  /** A fill settles strictly after it is made, and never before an earlier
      fill does. */
  lemma SettlementFollowsFill(m: Market, a: Instant, b: Instant)
    requires Chronological(m) && a <= b
    requires SettlementInstant(m, a).Some? && SettlementInstant(m, b).Some?
    ensures a < SettlementInstant(m, a).value <= SettlementInstant(m, b).value
  {
    var cal, f, g := m.calendar, m.sessionOf(a), m.sessionOf(b);
    var d, e := Settlement(cal, f, m.tPlus).value, Settlement(cal, g, m.tPlus).value;
    SettlementExact(cal, f, m.tPlus, d);
    if f < g {
      SettlementStrictlyIncreasing(cal, f, g, m.tPlus, m.tPlus);
      assert m.sessionOf(m.opensAt(d)) == d && m.sessionOf(m.opensAt(e)) == e;
    }
    assert m.sessionOf(m.opensAt(d)) == d;
  }
}
