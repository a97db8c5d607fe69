/** The rolling day-trade guard: a count over the trailing five sessions of the
    real calendar, checked before each trade. */
module DayTrade {
  import opened Wrappers
  import opened MarketCalendar

  const WINDOW_SESSIONS := 5

  datatype RoundTrip = RoundTrip(session: Date, symbol: string)

  datatype GuardError =
    | Calendar(error: CalendarError)
    | DayTradeBlocked
    | CrossAccount
    | UnverifiableCount
    | PostureMismatch

  function CountIn(trips: seq<RoundTrip>, window: seq<Date>): nat {
    if trips == [] then 0
    else CountIn(trips[..|trips| - 1], window) + if trips[|trips| - 1].session in window then 1 else 0
  }

  /** Day trades in the trailing five sessions, or the calendar's exception. */
  function DayTrades(cal: Calendar, trips: seq<RoundTrip>, asOf: Date): Result<nat, GuardError> {
    match TrailingOutcome(cal, asOf, WINDOW_SESSIONS)
    case Err(e) => Err(GuardError.Calendar(e))
    case Ok(window) => Ok(CountIn(trips, window))
  }

  // ---------------------------------------------------------------- the object

  class DayTradeGuard {
    const accountId: string
    const maxPerFiveSessions: int
    const calendar: Calendar
    var roundTrips: seq<RoundTrip>

    constructor (accountId: string, maxPerFiveSessions: int, calendar: Calendar)
      ensures roundTrips == []
      ensures this.accountId == accountId && this.maxPerFiveSessions == maxPerFiveSessions && this.calendar == calendar
    {
      this.accountId, this.maxPerFiveSessions, this.calendar := accountId, maxPerFiveSessions, calendar;
      roundTrips := [];
    }

    method Record(session: Date, symbol: string)
      modifies this
      ensures roundTrips == old(roundTrips) + [RoundTrip(session, symbol)]
    {
      roundTrips := roundTrips + [RoundTrip(session, symbol)];
    }

    method Count(asOf: Date) returns (r: Result<nat, GuardError>)
      ensures r == DayTrades(calendar, roundTrips, asOf)
    {
      var window := TrailingSessions(calendar, asOf, WINDOW_SESSIONS);
      if window.Err? {
        return Err(GuardError.Calendar(window.error));
      }
      var n := 0;
      for i := 0 to |roundTrips|
        invariant n == CountIn(roundTrips[..i], window.value)
      {
        assert roundTrips[..i + 1][..i] == roundTrips[..i];
        if roundTrips[i].session in window.value {
          n := n + 1;
        }
      }
      assert roundTrips[..|roundTrips|] == roundTrips;
      return Ok(n);
    }

    /** Passes exactly if the posture is not bound by the rule, or one more
        trade still fits the window. */
    method Check(asOf: Date, posture: string) returns (r: Result<Unit, GuardError>)
      ensures r.Ok? <==> posture == "MARGIN_OVER_25K" || Fits(calendar, roundTrips, maxPerFiveSessions, asOf)
      ensures posture != "MARGIN_OVER_25K" && DayTrades(calendar, roundTrips, asOf).Err? ==>
                r == Err(DayTrades(calendar, roundTrips, asOf).error)
    {
      if posture == "MARGIN_OVER_25K" {
        return Ok(Unit.Unit);
      }
      var n := Count(asOf);
      if n.Err? {
        return Err(n.error);
      }
      if n.value >= maxPerFiveSessions {
        return Err(DayTradeBlocked);
      }
      return Ok(Unit.Unit);
    }

    /** An omitted broker count agrees with a local zero only. */
    method Reconcile(account: string, brokerReported: Option<int>, asOf: Date) returns (r: Result<Unit, GuardError>)
      ensures r.Ok? <==>
              && account == accountId && DayTrades(calendar, roundTrips, asOf).Ok?
              && brokerReported.GetOr(0) == DayTrades(calendar, roundTrips, asOf).value
      ensures account != accountId ==> r == Err(CrossAccount)
    {
      if account != accountId {
        return Err(CrossAccount);
      }
      var n := Count(asOf);
      if n.Err? {
        return Err(n.error);
      }
      if brokerReported.None? {
        return if n.value == 0 then Ok(Unit.Unit) else Err(UnverifiableCount);
      }
      return if brokerReported.value == n.value then Ok(Unit.Unit) else Err(PostureMismatch);
    }
  }

  // ---------------------------------------------------------------- safety over runs

  predicate Fits(cal: Calendar, trips: seq<RoundTrip>, limit: int, asOf: Date) {
    DayTrades(cal, trips, asOf).Ok? && DayTrades(cal, trips, asOf).value < limit
  }

  /** Each trip was recorded at its own session, after a passing check then,
      and no earlier than the trip before it. */
  ghost predicate Guarded(cal: Calendar, trips: seq<RoundTrip>, limit: int) {
    trips == [] ||
    var front, last := trips[..|trips| - 1], trips[|trips| - 1];
    && Guarded(cal, front, limit)
    && Fits(cal, front, limit, last.session)
    && (front != [] ==> front[|front| - 1].session <= last.session)
  }

  lemma {:induction false} SessionsAscend(cal: Calendar, trips: seq<RoundTrip>, limit: int)
    requires Guarded(cal, trips, limit)
    ensures forall t :: t in trips ==> t.session <= trips[|trips| - 1].session
  {
    if trips != [] {
      var front := trips[..|trips| - 1];
      SessionsAscend(cal, front, limit);
      assert trips == front + [trips[|trips| - 1]];
    }
  }

  /** A window that keeps fewer of the recorded sessions counts fewer trips. */
  lemma {:induction false} CountShrinks(trips: seq<RoundTrip>, narrow: seq<Date>, wide: seq<Date>)
    requires forall t :: t in trips && t.session in narrow ==> t.session in wide
    ensures CountIn(trips, narrow) <= CountIn(trips, wide)
  {
    if trips != [] {
      CountShrinks(trips[..|trips| - 1], narrow, wide);
      assert trips[|trips| - 1] in trips;
    }
  }

  // ---------------------------------------------------------------- the exact condition

  /** No trailing window, past or future, holds more than the limit. */
  ghost predicate AllWithin(cal: Calendar, trips: seq<RoundTrip>, limit: int) {
    forall d :: DayTrades(cal, trips, d).Ok? ==> DayTrades(cal, trips, d).value <= limit
  }

  /** The j-th session from s on, if the calendar reaches it, has room for one
      more trade. */
  predicate RoomAt(cal: Calendar, trips: seq<RoundTrip>, limit: int, s: Date, j: nat) {
    match Walk(cal, s, j)
    case None => true
    case Some(d) => DayTrades(cal, trips, d).Ok? ==> DayTrades(cal, trips, d).value < limit
  }

  /** Five counts, at s and at the four sessions after it: those are the ends of
      all the windows that a trade at s falls into. */
  predicate HasRoom(cal: Calendar, trips: seq<RoundTrip>, limit: int, s: Date) {
    forall j: nat :: j < WINDOW_SESSIONS ==> RoomAt(cal, trips, limit, s, j)
  }

  lemma CountOneMore(trips: seq<RoundTrip>, t: RoundTrip, window: seq<Date>)
    ensures CountIn(trips + [t], window) == CountIn(trips, window) + if t.session in window then 1 else 0
  {
    assert (trips + [t])[..|trips|] == trips;
  }

  /** Days without a session end the same window. */
  lemma {:induction false} WindowWaits(cal: Calendar, d: Date, later: Date, n: nat)
    requires cal.firstDay <= d <= later && Sessions(cal, d, later) == 0 && n > 0
    ensures Trailing(cal, later, n) == Trailing(cal, d, n)
    decreases later - d
  {
    if d < later {
      WindowWaits(cal, d, later - 1, n);
    }
  }

  /** The windows a session falls into end at it or at the four after it. */
  lemma WalkedWindowHolds(cal: Calendar, s: Date, j: nat, d: Date)
    requires TradingDay(cal, s) && j < WINDOW_SESSIONS && Walk(cal, s, j) == Some(d)
    requires Trailing(cal, d, WINDOW_SESSIONS).Some?
    ensures s <= d && Covered(cal, d) && s in Trailing(cal, d, WINDOW_SESSIONS).value
  {
    if j > 0 {
      WalkExact(cal, s, j);
    }
    SessionsSplit(cal, s - 1, s, d);
    TrailingExact(cal, d, WINDOW_SESSIONS);
  }

  lemma HoldingWindowIsWalked(cal: Calendar, s: Date, d: Date) returns (j: nat, end: Date)
    requires TradingDay(cal, s) && Covered(cal, d) && Trailing(cal, d, WINDOW_SESSIONS).Some?
    requires s in Trailing(cal, d, WINDOW_SESSIONS).value
    ensures j < WINDOW_SESSIONS && Walk(cal, s, j) == Some(end) && Covered(cal, end)
    ensures Trailing(cal, end, WINDOW_SESSIONS) == Trailing(cal, d, WINDOW_SESSIONS)
  {
    TrailingExact(cal, d, WINDOW_SESSIONS);
    SessionsSplit(cal, s - 1, s, d);
    j := Sessions(cal, s, d);
    end := s;
    if j > 0 {
      WalkExact(cal, s, j);
      SessionsSplit(cal, s, d, cal.lastDay);
      end := Walk(cal, s, j).value;
      if d < end {
        SessionsSplit(cal, s, d, end);
      } else {
        SessionsSplit(cal, s, end, d);
      }
    }
    WindowWaits(cal, end, d, WINDOW_SESSIONS);
  }

  /** When recording is safe, exactly. With every window within the limit, a
      trade recorded at a session keeps it so if and only if the guard's count
      is below the limit at that session and at the four after it. */
  lemma RecordingIsSafeIff(cal: Calendar, trips: seq<RoundTrip>, limit: int, t: RoundTrip)
    requires AllWithin(cal, trips, limit)
    ensures AllWithin(cal, trips + [t], limit) <==> !TradingDay(cal, t.session) || HasRoom(cal, trips, limit, t.session)
  {
    var s := t.session;
    forall d | DayTrades(cal, trips, d).Ok?
      ensures DayTrades(cal, trips + [t], d).value ==
              DayTrades(cal, trips, d).value + if s in Trailing(cal, d, WINDOW_SESSIONS).value then 1 else 0
      ensures s in Trailing(cal, d, WINDOW_SESSIONS).value ==> TradingDay(cal, s)
    {
      CountOneMore(trips, t, Trailing(cal, d, WINDOW_SESSIONS).value);
      TrailingExact(cal, d, WINDOW_SESSIONS);
    }
    if TradingDay(cal, s) && AllWithin(cal, trips + [t], limit) {
      forall j: nat | j < WINDOW_SESSIONS ensures RoomAt(cal, trips, limit, s, j) {
        FullWindowShows(cal, trips, limit, t, j);
      }
    }
    if TradingDay(cal, s) && HasRoom(cal, trips, limit, s) {
      forall d | DayTrades(cal, trips + [t], d).Ok? ensures DayTrades(cal, trips + [t], d).value <= limit {
        assert DayTrades(cal, trips, d).Ok?;
        if s in Trailing(cal, d, WINDOW_SESSIONS).value {
          var j, end := HoldingWindowIsWalked(cal, s, d);
          assert RoomAt(cal, trips, limit, s, j);
        }
      }
    }
  }

  lemma FullWindowShows(cal: Calendar, trips: seq<RoundTrip>, limit: int, t: RoundTrip, j: nat)
    requires TradingDay(cal, t.session) && AllWithin(cal, trips + [t], limit) && j < WINDOW_SESSIONS
    ensures RoomAt(cal, trips, limit, t.session, j)
  {
    if Walk(cal, t.session, j).Some? {
      var d := Walk(cal, t.session, j).value;
      if DayTrades(cal, trips, d).Ok? {
        WalkedWindowHolds(cal, t.session, j, d);
        CountOneMore(trips, t, Trailing(cal, d, WINDOW_SESSIONS).value);
        assert DayTrades(cal, trips + [t], d).Ok?;
      }
    }
  }

  /** In session order one count is enough: the later windows hold no trip that
      the window ending now does not hold. */
  lemma InOrderHasRoom(cal: Calendar, trips: seq<RoundTrip>, limit: int, s: Date)
    requires TradingDay(cal, s) && Fits(cal, trips, limit, s) && forall t :: t in trips ==> t.session <= s
    ensures HasRoom(cal, trips, limit, s)
  {
    var atTrade := Trailing(cal, s, WINDOW_SESSIONS).value;
    forall j: nat | j < WINDOW_SESSIONS ensures RoomAt(cal, trips, limit, s, j) {
      if Walk(cal, s, j).Some? && DayTrades(cal, trips, Walk(cal, s, j).value).Ok? {
        var d := Walk(cal, s, j).value;
        WalkedWindowHolds(cal, s, j, d);
        forall t | t in trips && t.session in Trailing(cal, d, WINDOW_SESSIONS).value ensures t.session in atTrade {
          WindowsNest(cal, s, d, WINDOW_SESSIONS, t.session);
        }
        CountShrinks(trips, Trailing(cal, d, WINDOW_SESSIONS).value, atTrade);
      }
    }
  }

  /** Day-trade safety over runs: if every trip follows a passing binding check
      at its own session, in session order, then every trailing five-session
      window, past or future, stays within the limit. */
  lemma {:induction false} WindowsStayWithinLimit(cal: Calendar, trips: seq<RoundTrip>, limit: nat)
    requires Guarded(cal, trips, limit)
    ensures AllWithin(cal, trips, limit)
  {
    if trips != [] {
      var front, last := trips[..|trips| - 1], trips[|trips| - 1];
      WindowsStayWithinLimit(cal, front, limit);
      assert trips == front + [last];
      RecordingIsSafeIff(cal, front, limit, last);
      if TradingDay(cal, last.session) {
        SessionsAscend(cal, trips, limit);
        assert forall t :: t in front ==> t in trips;
        InOrderHasRoom(cal, front, limit, last.session);
      }
    }
  }

  lemma WindowGrows(cal: Calendar, d: Date, n: nat, older: seq<Date>, window: seq<Date>)
    requires TradingDay(cal, d) && Trailing(cal, d - 1, n) == Some(older) && window == older + [d]
    ensures Trailing(cal, d, n + 1) == Some(window)
  {
  }

  /** Why the order matters: two trips recorded backwards each pass their check
      with a limit of one, and a window then holds both. Days 1 to 5 and 8 are
      Monday to Friday and the Monday after. */
  lemma BackwardsEscapes()
    ensures var cal := Calendar.Calendar(1, 12, {});
            var monday, friday := RoundTrip(8, "A"), RoundTrip(5, "A");
            && Fits(cal, [], 1, 8) && Fits(cal, [monday], 1, 5)
            && DayTrades(cal, [monday, friday], 8) == Ok(2)
  {
    var cal := Calendar.Calendar(1, 12, {});
    WindowGrows(cal, 1, 0, [], [1]);
    WindowGrows(cal, 2, 1, [1], [1, 2]);
    WindowGrows(cal, 3, 2, [1, 2], [1, 2, 3]);
    WindowGrows(cal, 4, 3, [1, 2, 3], [1, 2, 3, 4]);
    WindowGrows(cal, 5, 4, [1, 2, 3, 4], [1, 2, 3, 4, 5]);
    WindowGrows(cal, 2, 0, [], [2]);
    WindowGrows(cal, 3, 1, [2], [2, 3]);
    WindowGrows(cal, 4, 2, [2, 3], [2, 3, 4]);
    WindowGrows(cal, 5, 3, [2, 3, 4], [2, 3, 4, 5]);
    assert Trailing(cal, 7, 4) == Trailing(cal, 6, 4) == Trailing(cal, 5, 4);
    WindowGrows(cal, 8, 4, [2, 3, 4, 5], [2, 3, 4, 5, 8]);
    var monday, friday := RoundTrip(8, "A"), RoundTrip(5, "A");
    assert [monday, friday][..1] == [monday] && [monday][..0] == [];
    assert CountIn([monday], [2, 3, 4, 5, 8]) == 1;
    assert 8 !in [1, 2, 3, 4, 5] && CountIn([monday], [1, 2, 3, 4, 5]) == 0;
  }
}
