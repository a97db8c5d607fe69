/** The cycle as it runs on the stores themselves: the four calls in
    their order leave exactly what the run model says they leave. */
module AccountCycle {
  import opened Wrappers
  import opened Money
  import opened MarketCalendar
  import opened LedgerBooks
  import opened AccountLedger
  import opened LedgerFile
  import opened LedgerStores
  import opened PollLoop
  import opened ExecutionQuarantine
  import opened AccountRun
  import AccountWiring
  import CashEvents
  import FillSync
  import OrderClosing
  import Quarantine

  datatype CycleError =
    | FillsFailed(fills: FillSync.SyncError)
    | ClosingFailed(closing: OrderClosing.ClosingError)
    | CashFailed(cash: CashEvents.CashError)
    | ReconciliationFailed(reconciliation: AccountWiring.WiringError)

  /** The stores of one account, and the world they are the local side of. */
  ghost predicate LocalSide(a: Account, w: World, store: LedgerStore, fillsQ: ExecutionStore,
                            cashQ: CashEvents.CashEventStore)
    reads store, store.ledger, fillsQ, cashQ
  {
    && store.Valid() && fillsQ.Valid() && cashQ.Valid()
    && store.owner == a.owner && store.market == a.market
    && fillsQ.rules == a.Desk().rules && cashQ.rules == a.Till().rules
    && w.ledger == store.State() && w.fillsQ == fillsQ.State() && w.cashQ == cashQ.State()
  }

  /** sync_fills, close_terminal_orders, sync_cash_events and
      build_account_reconciliation, against one broker state. An exception ends
      the cycle where it is raised. */
  method RunCycle(a: Account, ghost w: World, store: LedgerStore, fillsQ: ExecutionStore,
                  cashQ: CashEvents.CashEventStore, executions: seq<Execution>,
                  orders: map<string, OrderClosing.BrokerOrder>, activities: seq<CashEvents.AccountActivity>,
                  adapter: AccountWiring.Adapter, now: Instant)
    returns (r: Result<AccountWiring.Reconciliation, CycleError>)
    requires LocalSide(a, w, store, fillsQ, cashQ)
    requires w.clock == now && executions == w.executions && activities == w.activities
    requires adapter == AdapterAt(a, w, adapter.positions)
    modifies store, store.ledger, fillsQ, cashQ
    ensures LocalSide(a, Cycle(a, w, Uncut, Reply(orders, adapter.positions)), store, fillsQ, cashQ)
    ensures r.Ok? <==>
            Completes(a, w, Uncut, orders) && BuildRefusal(a, Polled(a, w, Uncut, orders), adapter.positions).None?
    ensures r.Ok? ==> AccountWiring.ReadsLedger(store, adapter, now, r.value)
    ensures var fills := FillStage(a, w, Uncut);
            var closing := ClosingStage(a, fills.state, Uncut, orders);
            && (r.Err? && r.error.FillsFailed? <==> fills.error.Some?)
            && (r.Err? && r.error.ClosingFailed? <==> fills.error.None? && closing.error.Some?)
            && (r.Err? && r.error.CashFailed? <==>
                  fills.error.None? && closing.error.None? && CashStage(a, closing.state, Uncut).error.Some?)
  {
    hide LocalSide, FillStage, ClosingStage, CashStage, BuildStage, BuildRefusal, AdapterAt, AccountWiring.ReadsLedger;
    SameBroker(a, w, orders, adapter.positions);
    var fills := PollFills(a, w, store, fillsQ, cashQ, executions, now);
    if fills.Some? {
      return Err(fills.value);
    }
    ghost var w1 := FillStage(a, w, Uncut).state;
    var closing := CloseOrders(a, w1, store, fillsQ, cashQ, orders, now);
    if closing.Some? {
      return Err(closing.value);
    }
    ghost var w2 := ClosingStage(a, w1, Uncut, orders).state;
    var cash := PollCash(a, w2, store, fillsQ, cashQ, activities, now);
    if cash.Some? {
      return Err(cash.value);
    }
    r := Build(a, CashStage(a, w2, Uncut).state, store, fillsQ, cashQ, adapter, now);
  }

  method PollFills(a: Account, ghost w: World, store: LedgerStore, fillsQ: ExecutionStore,
                   cashQ: CashEvents.CashEventStore, executions: seq<Execution>, now: Instant)
    returns (failure: Option<CycleError>)
    requires LocalSide(a, w, store, fillsQ, cashQ) && w.clock == now && executions == w.executions
    modifies store, store.ledger, fillsQ
    ensures LocalSide(a, FillStage(a, w, Uncut).state, store, fillsQ, cashQ)
    ensures match FillStage(a, w, Uncut).error
            case Some(e) => failure == Some(FillsFailed(e))
            case None => failure == None
  {
    hide Faithful, Quarantine.Faithful, FillSync.SyncPass;
    var r := FillSync.SyncFills(store, fillsQ, executions, now);
    assert FillSync.Sync(store.State(), fillsQ.State()) == SyncOf(FillStage(a, w, Uncut).state);
    return if r.Err? then Some(FillsFailed(r.error)) else None;
  }

  method CloseOrders(a: Account, ghost w: World, store: LedgerStore, fillsQ: ExecutionStore,
                     cashQ: CashEvents.CashEventStore, orders: map<string, OrderClosing.BrokerOrder>, now: Instant)
    returns (failure: Option<CycleError>)
    requires LocalSide(a, w, store, fillsQ, cashQ) && w.clock == now
    modifies store, store.ledger
    ensures LocalSide(a, ClosingStage(a, w, Uncut, orders).state, store, fillsQ, cashQ)
    ensures match ClosingStage(a, w, Uncut, orders).error
            case Some(e) => failure == Some(ClosingFailed(e))
            case None => failure == None
  {
    hide Faithful, Quarantine.Faithful, OrderClosing.ClosePass, OrderClosing.AskedFor;
    var r := OrderClosing.CloseTerminalOrders(store, orders, now);
    return if r.Err? then Some(ClosingFailed(r.error)) else None;
  }

  method PollCash(a: Account, ghost w: World, store: LedgerStore, fillsQ: ExecutionStore,
                  cashQ: CashEvents.CashEventStore, activities: seq<CashEvents.AccountActivity>, now: Instant)
    returns (failure: Option<CycleError>)
    requires LocalSide(a, w, store, fillsQ, cashQ) && w.clock == now && activities == w.activities
    modifies store, store.ledger, cashQ
    ensures LocalSide(a, CashStage(a, w, Uncut).state, store, fillsQ, cashQ)
    ensures match CashStage(a, w, Uncut).error
            case Some(e) => failure == Some(CashFailed(e))
            case None => failure == None
  {
    hide Faithful, Quarantine.Faithful, CashEvents.CashPass;
    var r := CashEvents.SyncCashEvents(store, cashQ, activities, a.ceiling, now);
    assert CashEvents.Cash(store.State(), cashQ.State()) == CashOf(CashStage(a, w, Uncut).state);
    return if r.Err? then Some(CashFailed(r.error)) else None;
  }

  method Build(a: Account, ghost w: World, store: LedgerStore, fillsQ: ExecutionStore,
               cashQ: CashEvents.CashEventStore, adapter: AccountWiring.Adapter, now: Instant)
    returns (r: Result<AccountWiring.Reconciliation, CycleError>)
    requires LocalSide(a, w, store, fillsQ, cashQ) && w.clock == now
    requires adapter == AdapterAt(a, w, adapter.positions)
    modifies store
    ensures LocalSide(a, BuildStage(a, w, Uncut, adapter.positions), store, fillsQ, cashQ)
    ensures match BuildRefusal(a, w, adapter.positions)
            case Some(e) => r == Err(ReconciliationFailed(e))
            case None => r.Ok? && AccountWiring.ReadsLedger(store, adapter, now, r.value)
  {
    hide Faithful, Quarantine.Faithful, AccountWiring.Seeding, AccountWiring.ReadFailure, AccountWiring.ReadsLedger,
         BrokerCash;
    var recon := AccountWiring.BuildAccountReconciliation(a.owner.accountId, adapter, store, a.owner.accountId, fillsQ,
                                                          now);
    return if recon.Err? then Err(ReconciliationFailed(recon.error)) else Ok(recon.value);
  }

  /** The polls do not change what the broker reports. */
  lemma SameBroker(a: Account, w: World, orders: map<string, OrderClosing.BrokerOrder>, positions: seq<Position>)
    ensures var w1 := FillStage(a, w, Uncut).state;
            var w2 := ClosingStage(a, w1, Uncut, orders).state;
            var w3 := CashStage(a, w2, Uncut).state;
            && AdapterAt(a, w3, positions) == AdapterAt(a, w, positions)
            && w1.clock == w2.clock == w3.clock == w.clock && w2.activities == w.activities
  {
    hide FillSync.SyncPass, OrderClosing.ClosePass, OrderClosing.AskedFor, CashEvents.CashPass, AdapterAt;
    var w1 := FillStage(a, w, Uncut).state;
    var w2 := ClosingStage(a, w1, Uncut, orders).state;
    SameReport(a, w, CashStage(a, w2, Uncut).state, positions);
  }

  lemma SameReport(a: Account, w: World, after: World, positions: seq<Position>)
    requires after == w.(ledger := after.ledger, fillsQ := after.fillsQ, cashQ := after.cashQ)
    ensures AdapterAt(a, after, positions) == AdapterAt(a, w, positions)
  {
  }
}
