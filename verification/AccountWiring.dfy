/** Building one account's reconciliation, and the one moment seeding is right. */
module AccountWiring {
  import opened Wrappers
  import opened Money
  import opened MarketCalendar
  import opened LedgerBooks
  import opened AccountLedger
  import opened LedgerFile
  import opened LedgerStores
  import opened PollLoop
  import opened ExecutionQuarantine
  import Holding
  import Quarantine

  datatype BrokerAccount = BrokerAccount(accountId: string, settledCash: Decimal, dayTradeCount: Option<int>)

  /** What one broker read reports. */
  datatype Adapter = Adapter(accountId: string, account: BrokerAccount, positions: seq<Position>,
                             openOrderIds: set<string>)

  datatype WiringError = WrongAccount | StoreRefused(error: StoreError) | CalendarFailed

  datatype Reconciliation = Reconciliation(
    accountId: string,
    brokerReportedDayTrades: Option<int>,
    localPositions: map<string, Decimal>,
    brokerPositions: seq<Position>,
    localSettledCash: Decimal,
    brokerAccount: BrokerAccount,
    localOpenOrderIds: set<string>,
    brokerOpenOrderIds: set<string>
  )

  function FromStore(before: LedgerFile.Store, r: Result<LedgerFile.Store, StoreError>): Progress<LedgerFile.Store,
                     WiringError> {
    match r
    case Ok(s) => Progress(s, None)
    case Err(e) => Progress(before, Some(StoreRefused(e)))
  }

  /** The cash seed: not at all while an execution is pending; backdated when
      fills are on record; the raw broker figure otherwise. */
  function SeedBalance(m: Market, s: LedgerFile.Store, pending: set<string>, brokerCash: Decimal, now: Instant)
    : Progress<LedgerFile.Store, WiringError>
  {
    if s.view.opening.Some? || pending != {} then Progress(s, None)
    else if s.view.books.fills != [] then FromStore(s, SeededFromBroker(m, s, brokerCash, now))
    else FromStore(s, OpeningWritten(s, brokerCash, now))
  }

  /** What to_ledger() and then positions() raise, if anything. */
  function LedgerFailure(m: Market, o: Owner, s: LedgerFile.Store): Option<WiringError> {
    if s.view.opening.None? then Some(StoreRefused(NotSeeded))
    else if s.view.opening.value < 0.0 then Some(StoreRefused(FromLedger(NegativeOpening)))
    else if LotsOf(m, o, s.view.books.fills).None? then Some(CalendarFailed)
    else None
  }

  function LocalPositions(m: Market, o: Owner, s: LedgerFile.Store): map<string, Decimal>
    requires LotsOf(m, o, s.view.books.fills).Some?
  {
    PositionsOf(s.view.openingPositions, LotsOf(m, o, s.view.books.fills).value, o.accountId)
  }

  /** The positions seed, right after the cash seed and only over nothing. */
  function SeedPositions(m: Market, o: Owner, s: LedgerFile.Store, positions: seq<Position>)
    : Progress<LedgerFile.Store, WiringError>
  {
    var failure := LedgerFailure(m, o, s);
    if failure.Some? then Progress(s, failure)
    else if LocalPositions(m, o, s) != map[] then Progress(s, None)
    else FromStore(s, PositionsWritten(m, o, s, positions))
  }

  function Seeding(m: Market, o: Owner, s: LedgerFile.Store, pending: set<string>, adapter: Adapter, now: Instant)
    : Progress<LedgerFile.Store, WiringError>
  {
    if s.view.opening.Some? || pending != {} then Progress(s, None)
    else
      var cash := SeedBalance(m, s, pending, adapter.account.settledCash, now);
      if cash.error.Some? then cash else SeedPositions(m, o, cash.state, adapter.positions)
  }

  /** The positions seed has something to write over: the ledger answers, and
      answers that it holds nothing. */
  predicate PositionsDue(m: Market, o: Owner, s: LedgerFile.Store, positions: seq<Position>) {
    && LedgerFailure(m, o, s).None?
    && LocalPositions(m, o, s) == map[]
    && forall p :: p in positions ==> p.accountId == o.accountId
  }

  /** What a seeding leaves on file, and so for the next process, that dies once
      k rows of opening positions are written. */
  function SeedingCut(m: Market, o: Owner, s: LedgerFile.Store, pending: set<string>, adapter: Adapter, now: Instant,
                      k: nat)
    : LedgerFile.Store
  {
    if s.view.opening.Some? || pending != {} then s
    else
      var cash := SeedBalance(m, s, pending, adapter.account.settledCash, now);
      if cash.error.Some? || !PositionsDue(m, o, cash.state, adapter.positions) then cash.state
      else WithPositionRows(cash.state, if k <= |adapter.positions| then adapter.positions[..k] else adapter.positions)
  }

  function WithPositionRows(s: LedgerFile.Store, positions: seq<Position>): LedgerFile.Store {
    LedgerFile.Store(s.view.(openingPositions := Overlay(s.view.openingPositions, positions)),
                     s.file + PositionRows(positions))
  }

  /** What reading the ledger raises, if anything. */
  function ReadFailure(m: Market, o: Owner, s: LedgerFile.Store, now: Instant): Option<WiringError> {
    var failure := LedgerFailure(m, o, s);
    if failure.Some? then failure
    else if SettledCashOf(m, s.view.opening.value, s.view.books, now).None? then Some(CalendarFailed)
    else None
  }

  /** What building the reconciliation raises, if anything. */
  function BuildFailure(m: Market, o: Owner, s: LedgerFile.Store, pending: set<string>, adapter: Adapter, now: Instant)
    : Option<WiringError>
  {
    var seeded := Seeding(m, o, s, pending, adapter, now);
    if seeded.error.Some? then seeded.error else ReadFailure(m, o, seeded.state, now)
  }

  /** What the reconciliation says of the local side. */
  ghost predicate ReadsLedger(store: LedgerStore, adapter: Adapter, now: Instant, r: Reconciliation)
    reads store, store.ledger
  {
    && store.opening.Some?
    && LotsOf(store.market, store.owner, store.ledger.fills).Some?
    && r.localPositions == LocalPositions(store.market, store.owner, store.State())
    && SettledCashOf(store.market, store.opening.value, store.ledger.Contents(), now) == Some(r.localSettledCash)
    && (forall id :: id in r.localOpenOrderIds <==> OrderOpen(store.ledger.orders, id))
    && r.brokerAccount == adapter.account
    && r.brokerPositions == adapter.positions
    && r.brokerOpenOrderIds == adapter.openOrderIds
  }

  method BuildAccountReconciliation(accountId: string, adapter: Adapter, store: LedgerStore, guardAccountId: string,
                                    quarantine: ExecutionStore, now: Instant)
    returns (r: Result<Reconciliation, WiringError>)
    requires store.Valid() && quarantine.Valid()
    modifies store
    ensures store.Valid()
    ensures if || adapter.accountId != accountId || store.owner.accountId != accountId
               || guardAccountId != accountId || quarantine.rules.accountId != accountId
            then
              r == Err(WrongAccount) && store.State() == old(store.State())
            else
              var pending := quarantine.State().memory.PendingIds();
              && store.State() ==
                 Seeding(store.market, store.owner, old(store.State()), pending, adapter, now).state
              && match BuildFailure(store.market, store.owner, old(store.State()), pending, adapter, now)
                 case Some(e) => r == Err(e)
                 case None => r.Ok? && r.value.accountId == accountId && ReadsLedger(store, adapter, now, r.value)
  {
    if adapter.accountId != accountId || store.owner.accountId != accountId
       || guardAccountId != accountId || quarantine.rules.accountId != accountId {
      return Err(WrongAccount);
    }
    hide Seeding, ReadFailure, ReadsLedger, LotsOf, Faithful, Quarantine.Faithful;
    var failure := SeedStore(store, quarantine, adapter, now);
    if failure.Some? {
      return Err(failure.value);
    }
    r := ReadStore(store, adapter, now);
  }

  /** The first-ever start: seed cash, then positions over nothing. */
  method SeedStore(store: LedgerStore, quarantine: ExecutionStore, adapter: Adapter, now: Instant)
    returns (failure: Option<WiringError>)
    requires store.Valid() && quarantine.Valid()
    modifies store
    ensures store.Valid()
    ensures Progress(store.State(), failure) ==
            Seeding(store.market, store.owner, old(store.State()), quarantine.State().memory.PendingIds(), adapter, now)
  {
    hide Quarantine.Faithful, Faithful, LotsOf, PositionsOf, PositionsWritten, SeededFromBroker, OpeningWritten;
    if store.opening.Some? {
      return None;
    }
    var pending := quarantine.PendingCount();
    if pending != 0 {
      return None;
    }
    var cash := SeedCash(store, adapter.account.settledCash, now);
    if cash.Err? {
      return Some(StoreRefused(cash.error));
    }
    var local := LocalView(store);
    if local.Err? {
      return Some(local.error);
    }
    var stillPending := quarantine.PendingCount();
    if local.value == map[] && stillPending == 0 {
      var w := store.WriteOpeningPositions(adapter.positions);
      if w.Err? {
        return Some(StoreRefused(w.error));
      }
    }
    return None;
  }

  method ReadStore(store: LedgerStore, adapter: Adapter, now: Instant) returns (r: Result<Reconciliation, WiringError>)
    requires store.Valid()
    ensures match ReadFailure(store.market, store.owner, store.State(), now)
            case Some(e) => r == Err(e)
            case None =>
              r.Ok? && r.value.accountId == store.owner.accountId && ReadsLedger(store, adapter, now, r.value)
  {
    hide Faithful, LotsOf, SettledCashOf, PositionsOf, OrderOpen;
    var ledger := store.ToLedger();
    if ledger.Err? {
      return Err(StoreRefused(ledger.error));
    }
    var positions := ledger.value.Positions();
    if positions.None? {
      return Err(CalendarFailed);
    }
    var cash := ledger.value.SettledCash(now);
    if cash.None? {
      return Err(CalendarFailed);
    }
    var openIds := ledger.value.OpenOrderIds();
    return Ok(Reconciliation(store.owner.accountId, adapter.account.dayTradeCount, positions.value, adapter.positions,
                             cash.value, adapter.account, openIds, adapter.openOrderIds));
  }

  method SeedCash(store: LedgerStore, brokerCash: Decimal, now: Instant) returns (r: Result<Unit, StoreError>)
    requires store.Valid() && store.opening.None?
    modifies store
    ensures store.Valid()
    ensures var seeded := SeedBalance(store.market, old(store.State()), {}, brokerCash, now);
            && store.State() == seeded.state
            && (if seeded.error.None? then r == Ok(Unit.Unit)
                else r.Err? && seeded.error == Some(StoreRefused(r.error)))
  {
    hide Faithful, SeededFromBroker, OpeningWritten;
    if store.ledger.fills != [] {
      r := store.SeedOpeningBalanceFromBroker(brokerCash, now);
    } else {
      r := store.WriteOpeningBalance(brokerCash, now);
    }
  }

  /** store.to_ledger().positions() */
  method LocalView(store: LedgerStore) returns (r: Result<map<string, Decimal>, WiringError>)
    requires store.Valid()
    ensures match LedgerFailure(store.market, store.owner, store.State())
            case Some(e) => r == Err(e)
            case None => r == Ok(LocalPositions(store.market, store.owner, store.State()))
  {
    hide Faithful, LotsOf, PositionsOf;
    var ledger := store.ToLedger();
    if ledger.Err? {
      return Err(StoreRefused(ledger.error));
    }
    var positions := ledger.value.Positions();
    return if positions.None? then Err(CalendarFailed) else Ok(positions.value);
  }

  // ---------------------------------------------------------------- what seeding promises

  /** Seeding touches nothing but the opening balance and positions, and what it
      has once fixed it never fixes again. */
  lemma SeedingFrame(m: Market, o: Owner, s: LedgerFile.Store, pending: set<string>, adapter: Adapter, now: Instant)
    ensures var after := Seeding(m, o, s, pending, adapter, now).state;
            && after.view.books == s.view.books
            && after.view.opening == SeedBalance(m, s, pending, adapter.account.settledCash, now).state.view.opening
            && after.view.openingAt == SeedBalance(m, s, pending, adapter.account.settledCash, now).state.view.openingAt
            && (s.view.opening.Some? ==> after == s)
  {
    hide LotsOf, PositionsOf, SettledCashOf, Conflicting;
  }

  /** The cash seed writes the opening balance and its instant, or nothing. */
  lemma CashSeedFrame(m: Market, s: LedgerFile.Store, pending: set<string>, brokerCash: Decimal, now: Instant)
    ensures var cash := SeedBalance(m, s, pending, brokerCash, now);
            && cash.state.view == s.view.(opening := cash.state.view.opening, openingAt := cash.state.view.openingAt)
            && (cash.error.None? && s.view.opening.None? && pending == {} ==> cash.state.view.opening.Some?)
            && (cash.error.Some? || s.view.opening.Some? || pending != {} ==> cash.state == s)
  {
    hide SettledCashOf;
  }

  /** Positions are seeded in the one call that seeds cash, and only over a
      ledger that holds nothing. */
  lemma PositionsSeededWhenDue(m: Market, o: Owner, s: LedgerFile.Store, pending: set<string>, adapter: Adapter,
                               now: Instant)
    requires s.view.openingPositions == map[]
    ensures var cash := SeedBalance(m, s, pending, adapter.account.settledCash, now);
            Seeding(m, o, s, pending, adapter, now).state.view.openingPositions ==
            if && s.view.opening.None? && pending == {} && cash.error.None?
               && PositionsDue(m, o, cash.state, adapter.positions)
            then Overlay(map[], adapter.positions)
            else map[]
  {
    hide LotsOf, PositionsOf, SettledCashOf, Overlay;
  }

  /** The same, cut after k rows: the first k positions reported, or nothing. */
  lemma CutPositionsWhenDue(m: Market, o: Owner, s: LedgerFile.Store, pending: set<string>, adapter: Adapter,
                            now: Instant, k: nat)
    requires s.view.openingPositions == map[]
    ensures var cash := SeedBalance(m, s, pending, adapter.account.settledCash, now);
            var after := SeedingCut(m, o, s, pending, adapter, now, k);
            && after.view.books == s.view.books
            && after.view.opening == cash.state.view.opening && after.view.openingAt == cash.state.view.openingAt
            && after.view.openingPositions ==
               if && s.view.opening.None? && pending == {} && cash.error.None?
                  && PositionsDue(m, o, cash.state, adapter.positions)
               then Overlay(map[], if k <= |adapter.positions| then adapter.positions[..k] else adapter.positions)
               else map[]
  {
    hide PositionsDue, SettledCashOf, Overlay;
  }

  lemma {:induction false} BaseStays(base: map<string, Decimal>, lots: seq<Holding.Lot>, accountId: string)
    ensures base.Keys <= PositionsOf(base, lots, accountId).Keys
  {
    if lots != [] {
      BaseStays(base, lots[..|lots| - 1], accountId);
    }
  }

  lemma {:induction false} FirstPositionRows(positions: seq<Position>, k: nat)
    requires k <= |positions|
    ensures PositionRows(positions[..k]) <= PositionRows(positions)
    decreases |positions|
  {
    if k == |positions| {
      assert positions[..k] == positions;
    } else {
      var front := positions[..|positions| - 1];
      FirstPositionRows(front, k);
      assert front[..k] == positions[..k];
    }
  }

  /** A seeding that dies among its position rows has written a beginning of what
      the whole one writes, and all of it once every row is out. */
  lemma CutIsABeginning(m: Market, o: Owner, s: LedgerFile.Store, pending: set<string>, adapter: Adapter, now: Instant,
                        k: nat)
    ensures SeedingCut(m, o, s, pending, adapter, now, k).file <= Seeding(m, o, s, pending, adapter, now).state.file
    ensures k >= |adapter.positions| ==>
              SeedingCut(m, o, s, pending, adapter, now, k) == Seeding(m, o, s, pending, adapter, now).state
  {
    var positions := adapter.positions;
    var cash := SeedBalance(m, s, pending, adapter.account.settledCash, now);
    if s.view.opening.None? && pending == {} && cash.error.None? && PositionsDue(m, o, cash.state, positions) {
      var lots := LotsOf(m, o, cash.state.view.books.fills).value;
      BaseStays(cash.state.view.openingPositions, lots, o.accountId);
      assert cash.state.view.openingPositions == map[];
      hide SeedBalance, LotsOf, PositionsOf, Overlay;
      FirstPositionRows(positions, if k <= |positions| then k else |positions|);
      assert positions[..|positions|] == positions;
    } else {
      hide SeedBalance, LotsOf, PositionsOf, Overlay, PositionRows, Conflicting;
    }
  }

  /** Exactly when a seeded ledger can be read: its opening balance is not
      negative, and every fill settles within the calendar. */
  lemma ReadsExactlyWhen(m: Market, o: Owner, s: LedgerFile.Store, now: Instant)
    requires s.view.opening.Some? && FillsOk(o, s.view.books.fills)
    ensures ReadFailure(m, o, s, now) ==
            if s.view.opening.value < 0.0 then Some(StoreRefused(FromLedger(NegativeOpening)))
            else if forall f :: f in s.view.books.fills ==> SettlementInstant(m, f.filledAt).Some? then None
            else Some(CalendarFailed)
  {
    FillShapes(o, s.view.books.fills);
    BuyFillsMember(s.view.books.fills);
    hide FillsOk, SettlementInstant, LotsFor;
  }

  /** Exactly when seeding is right. Whoever is about to seed can check it: the
      ledger shows the broker's figure afterwards if and only if fills are on
      record, so the backdating branch runs, or the adjustments and corrections
      already on record add up to nothing. */
  lemma SeedIsRightIff(m: Market, s: LedgerFile.Store, brokerCash: Decimal, now: Instant)
    requires s.view.opening.None? && SalesSettle(m, s.view.books.fills)
    ensures var after := SeedBalance(m, s, {}, brokerCash, now);
            && after.error.None? && after.state.view.opening.Some?
            && (SettledCashOf(m, after.state.view.opening.value, after.state.view.books, now) == Some(brokerCash) <==>
                s.view.books.fills != []
                || AdjustmentsCash(s.view.books.adjustments) + CorrectionsCash(s.view.books.corrections) == 0.0)
  {
  }
}
