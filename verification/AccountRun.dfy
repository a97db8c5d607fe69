/** One account beside its broker: what the broker posts, what a cycle reads and
    writes and where it may stop, and what an operator may do in between. */
module AccountRun {
  import opened Wrappers
  import opened Money
  import opened MarketCalendar
  import opened LedgerBooks
  import opened LedgerFile
  import opened PollLoop
  import opened ExecutionQuarantine
  import opened Tally
  import AccountWiring
  import CashEvents
  import FillAccounting
  import FillSync
  import OrderClosing
  import Quarantine

  datatype Account = Account(market: Market, owner: Owner, ceiling: Decimal) {
    function Desk(): FillSync.Desk {
      FillSync.Desk(owner, RulesOf(owner.accountId))
    }

    function Till(): CashEvents.Till {
      CashEvents.Till(owner, CashEvents.RulesOf(owner.accountId), ceiling)
    }
  }

  // ---------------------------------------------------------------- the broker

  function ExecutionId(e: Execution): string { e.executionId }

  function ActivityId(a: CashEvents.AccountActivity): string { a.activityId }

  function NetAmount(a: CashEvents.AccountActivity): Decimal { a.netAmount }

  /** What the broker's settled cash shows of one execution at an instant: a
      purchase at once, a sale's proceeds from settlement on, in whole cents. */
  function BrokerEffect(m: Market, e: Execution, now: Instant): Decimal {
    if e.filledAt.None? then 0.0
    else if e.side.Buy? then -CashNotional(e.qty, e.price)
    else
      var settles := SettlementInstant(m, e.filledAt.value);
      if settles.Some? && settles.value <= now then CashNotional(e.qty, e.price) else 0.0
  }

  function EffectAt(m: Market, now: Instant): Execution -> Decimal {
    e => BrokerEffect(m, e, now)
  }

  // ---------------------------------------------------------------- the state

  /** What was the case at the instant of seeding: a record for the proofs,
      which no step reads. */
  datatype Seed = Seed(
    executions: nat,        // how many executions the broker had posted
    activities: nat,        // and how many activities
    at: Instant,
    raw: bool,              // the raw broker figure was written, not a backdated one
    netted: Decimal,        // corrections the backdated figure already takes out
    recorded: set<string>,  // executions on the ledger
    applied: set<string>    // activities on the ledger
  )

  datatype World = World(
    start: Decimal,
    clock: Instant,
    executions: seq<Execution>,
    activities: seq<CashEvents.AccountActivity>,
    ledger: LedgerFile.Store,
    fillsQ: Quarantine.Store<QuarantinedExecution>,
    cashQ: Quarantine.Store<CashEvents.QuarantinedCashEvent>,
    seed: Option<Seed>
  )

  function NewWorld(start: Decimal, clock: Instant): World {
    World(start, clock, [], [], NEW_STORE, Quarantine.Fresh(), Quarantine.Fresh(), None)
  }

  function BrokerCash(a: Account, w: World, now: Instant): Decimal {
    w.start + Total(w.executions, EffectAt(a.market, now)) + Total(w.activities, NetAmount)
  }

  /** What settled_cash answers when it answers. */
  function LocalCash(a: Account, v: View, now: Instant): Decimal
    requires v.opening.Some?
  {
    v.opening.value + FillsCash(a.market, v.books.fills, now) + AdjustmentsCash(v.books.adjustments)
    + CorrectionsCash(v.books.corrections)
  }

  function FillIds(fills: seq<Fill>): set<string> {
    set f | f in fills :: f.fillId
  }

  function AdjustmentIds(adjustments: seq<CashAdjustment>): set<string> {
    set x | x in adjustments :: x.adjustmentId
  }

  // ---------------------------------------------------------------- one cycle

  /** How far a cycle gets before the process dies; dying with no position row
      written is dying between the two seeds. */
  datatype Cut = InFills(k: nat) | InClosing(k: nat) | InCash(k: nat) | BeforeBuild | InPositions(k: nat) | Uncut

  /** What the broker answers in a cycle besides its executions and activities:
      the orders it still reports, and its positions. */
  datatype Reply = Reply(orders: map<string, OrderClosing.BrokerOrder>, positions: seq<Position>)

  function SyncOf(w: World): FillSync.Sync {
    FillSync.Sync(w.ledger, w.fillsQ)
  }

  function WithSync(w: World, s: FillSync.Sync): World {
    w.(ledger := s.ledger, fillsQ := s.quarantine)
  }

  function CashOf(w: World): CashEvents.Cash {
    CashEvents.Cash(w.ledger, w.cashQ)
  }

  function WithCash(w: World, s: CashEvents.Cash): World {
    w.(ledger := s.ledger, cashQ := s.quarantine)
  }

  function FirstOf<E>(report: seq<E>, stop: bool, k: nat): seq<E> {
    if stop && k <= |report| then report[..k] else report
  }

  function FillStage(a: Account, w: World, cut: Cut): Progress<World, FillSync.SyncError> {
    var pass := FillSync.SyncPass(a.Desk(), w.clock, SyncOf(w),
                                  FirstOf(w.executions, cut.InFills?, if cut.InFills? then cut.k else 0));
    Progress(WithSync(w, pass.state), pass.error)
  }

  ghost function ClosingStage(a: Account, w: World, cut: Cut, orders: map<string, OrderClosing.BrokerOrder>)
    : Progress<World, OrderClosing.ClosingError>
  {
    var asked := OrderClosing.AskedFor(w.ledger.view.books.orders);
    var pass := OrderClosing.ClosePass(a.owner, orders, w.clock, w.ledger,
                                       FirstOf(asked, cut.InClosing?, if cut.InClosing? then cut.k else 0));
    Progress(w.(ledger := pass.state), pass.error)
  }

  function CashStage(a: Account, w: World, cut: Cut): Progress<World, CashEvents.CashError> {
    var pass := CashEvents.CashPass(a.Till(), w.clock, CashOf(w),
                                    FirstOf(w.activities, cut.InCash?, if cut.InCash? then cut.k else 0));
    Progress(WithCash(w, pass.state), pass.error)
  }

  function AdapterAt(a: Account, w: World, positions: seq<Position>): AccountWiring.Adapter {
    var account := AccountWiring.BrokerAccount(a.owner.accountId, BrokerCash(a, w, w.clock), None);
    AccountWiring.Adapter(a.owner.accountId, account, positions, {})
  }

  function SeedNow(w: World): Seed {
    var books := w.ledger.view.books;
    Seed(|w.executions|, |w.activities|, w.clock, books.fills == [],
         if books.fills == [] then 0.0 else CorrectionsCash(books.corrections),
         FillIds(books.fills), AdjustmentIds(books.adjustments))
  }

  /** The ledger after a seeding attempt, the history kept beside it. */
  function Seeded(w: World, after: LedgerFile.Store): World {
    w.(ledger := after,
       seed := if w.ledger.view.opening.None? && after.view.opening.Some? then Some(SeedNow(w)) else w.seed)
  }

  function BuildStage(a: Account, w: World, cut: Cut, positions: seq<Position>): World {
    var pending, adapter := w.fillsQ.memory.PendingIds(), AdapterAt(a, w, positions);
    if cut.BeforeBuild? then w
    else if cut.InPositions? then
      Seeded(w, AccountWiring.SeedingCut(a.market, a.owner, w.ledger, pending, adapter, w.clock, cut.k))
    else
      Seeded(w, AccountWiring.Seeding(a.market, a.owner, w.ledger, pending, adapter, w.clock).state)
  }

  /** What building the reconciliation raises in a world, if anything. */
  function BuildRefusal(a: Account, w: World, positions: seq<Position>): Option<AccountWiring.WiringError> {
    AccountWiring.BuildFailure(a.market, a.owner, w.ledger, w.fillsQ.memory.PendingIds(), AdapterAt(a, w, positions),
                               w.clock)
  }

  /** sync_fills, close_terminal_orders, sync_cash_events, and the
      reconciliation is built; an exception or a crash ends the cycle where it
      happens. */
  ghost function Cycle(a: Account, w: World, cut: Cut, reply: Reply): World {
    var fills := FillStage(a, w, cut);
    if fills.error.Some? || cut.InFills? then fills.state
    else
      var closing := ClosingStage(a, fills.state, cut, reply.orders);
      if closing.error.Some? || cut.InClosing? then closing.state
      else
        var cash := CashStage(a, closing.state, cut);
        if cash.error.Some? || cut.InCash? then cash.state
        else BuildStage(a, cash.state, cut, reply.positions)
  }

  /** What the three polls of a cycle leave. */
  ghost function Polled(a: Account, w: World, cut: Cut, orders: map<string, OrderClosing.BrokerOrder>): World {
    CashStage(a, ClosingStage(a, FillStage(a, w, cut).state, cut, orders).state, cut).state
  }

  /** A cycle that gets through its polls: none of them stops early. */
  ghost predicate Completes(a: Account, w: World, cut: Cut, orders: map<string, OrderClosing.BrokerOrder>) {
    var fills := FillStage(a, w, cut);
    var closing := ClosingStage(a, fills.state, cut, orders);
    && fills.error.None? && closing.error.None? && CashStage(a, closing.state, cut).error.None?
    && !cut.InFills? && !cut.InClosing? && !cut.InCash?
  }

  // ---------------------------------------------------------------- runs

  datatype Event =
    | ExecutionPosted(execution: Execution)
    | ActivityPosted(activity: CashEvents.AccountActivity)
    | Ticked(to: Instant)
    | Cycled(cut: Cut, reply: Reply)
    | ExecutionDecided(resolution: Quarantine.Resolution)
    | CashDecided(resolution: Quarantine.Resolution)
    | OrderStaged(order: OrderRecord)
    | Corrected(correction: OpeningBalanceCorrection)
    | Restarted

  /** The broker never reuses an id, and never reports an activity as created
      in the future. */
  predicate Possible(w: World, e: Event) {
    match e
    case ExecutionPosted(x) => forall y :: y in w.executions ==> y.executionId != x.executionId
    case ActivityPosted(x) =>
      && (forall y :: y in w.activities ==> y.activityId != x.activityId)
      && (x.createdAt.Some? ==> x.createdAt.value <= w.clock)
    case Ticked(to) => w.clock <= to
    case _ => true
  }

  function DecidedCash(a: Account, w: World, r: Quarantine.Resolution)
    : Quarantine.Store<CashEvents.QuarantinedCashEvent>
  {
    if r.decision.OtherDecision? then w.cashQ
    else match CashEvents.Confirmed(a.Till().rules, w.cashQ, EstablishedAt(w.ledger.file), r)
         case Err(_) => w.cashQ
         case Ok(q) => q
  }

  function WithEntry(a: Account, w: World, e: Entry): World {
    match EntryWritten(a.owner, w.ledger, e)
    case Err(_) => w
    case Ok(ledger) => w.(ledger := ledger)
  }

  function ReloadedCash(a: Account, w: World): World {
    var memory := Quarantine.ReplayRows(a.Till().rules, w.cashQ.file);
    if memory.Ok? then w.(cashQ := Quarantine.Store(memory.value, w.cashQ.file)) else w
  }

  ghost function After(a: Account, w: World, e: Event): World {
    match e
    case ExecutionPosted(x) => w.(executions := w.executions + [x])
    case ActivityPosted(x) => w.(activities := w.activities + [x])
    case Ticked(to) => w.(clock := to)
    case Cycled(cut, reply) => Cycle(a, w, cut, reply)
    case ExecutionDecided(r) => WithSync(w, FillAccounting.After(a.Desk(), SyncOf(w), FillAccounting.Decided(r)))
    case CashDecided(r) => w.(cashQ := DecidedCash(a, w, r))
    case OrderStaged(order) => WithEntry(a, w, OrderEntry(order))
    case Corrected(c) => WithEntry(a, w, CorrectionEntry(c))
    case Restarted => ReloadedCash(a, WithSync(w, FillAccounting.Reloaded(a.Desk(), SyncOf(w))))
  }

  /** An account from its first start, beside a broker that already holds some
      cash. */
  ghost function Run(a: Account, start: Decimal, clock: Instant, events: seq<Event>): World {
    if events == [] then NewWorld(start, clock)
    else After(a, Run(a, start, clock, events[..|events| - 1]), events[|events| - 1])
  }

  ghost predicate Plays(a: Account, start: Decimal, clock: Instant, events: seq<Event>) {
    events == [] ||
    var front := events[..|events| - 1];
    Plays(a, start, clock, front) && Possible(Run(a, start, clock, front), events[|events| - 1])
  }
}
