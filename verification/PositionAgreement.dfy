/** Local positions against the broker's, over whole runs: the exact difference
    in every seeded state, symbol by symbol, and when it is nothing. */
module PositionAgreement {
  import opened Wrappers
  import opened Money
  import opened MarketCalendar
  import opened LedgerBooks
  import opened LedgerFacts
  import opened LedgerFile
  import opened ExecutionQuarantine
  import opened Tally
  import opened AccountRun
  import opened AccountInvariant
  import opened CashAgreement
  import AccountWiring
  import FillAccounting
  import FillSync
  import OrderClosing
  import Quarantine

  // ---------------------------------------------------------------- the broker's quantities

  /** What one execution adds to the broker's quantity of a symbol. */
  function SignedQty(symbol: string): Execution -> Decimal {
    (e: Execution) => if e.symbol != symbol then 0.0 else if e.side.Buy? then e.qty else -e.qty
  }

  /** What the broker holds: what it held before its first execution, and what
      its executions added and took away. */
  function BrokerQty(held: map<string, Decimal>, w: World, symbol: string): Decimal {
    Lookup(held, symbol) + Total(w.executions, SignedQty(symbol))
  }

  /** The positions reported are this account's own, each at the quantity held,
      and of what is not reported nothing is held. */
  ghost predicate Reports(a: Account, held: map<string, Decimal>, w: World, positions: seq<Position>) {
    && (forall p :: p in positions ==> p.accountId == a.owner.accountId && p.qty == BrokerQty(held, w, p.symbol))
    && (forall symbol :: symbol !in Overlay(map[], positions) ==> BrokerQty(held, w, symbol) == 0.0)
  }

  /** A run in which every cycle is told the positions the broker holds. */
  ghost predicate Told(a: Account, held: map<string, Decimal>, start: Decimal, clock: Instant, events: seq<Event>) {
    events == [] ||
    var front, last := events[..|events| - 1], events[|events| - 1];
    && Told(a, held, start, clock, front)
    && (last.Cycled? ==> Reports(a, held, Run(a, start, clock, front), last.reply.positions))
  }

  // ---------------------------------------------------------------- the ledger's quantities

  /** Bought less sold on the ledger is the broker's sum over the executions
      that are on the ledger. */
  lemma {:induction false} QtyIsCounted(executions: seq<Execution>, fills: seq<Fill>, symbol: string)
    requires DistinctKeys(executions, ExecutionId)
    requires forall i, j :: 0 <= i < j < |fills| ==> fills[i].fillId != fills[j].fillId
    requires forall f :: f in fills ==>
               f.fillId in TapeOf(executions) && FillAccounting.CameFrom(f, TapeOf(executions)[f.fillId])
    ensures BuyTotal(fills, QtyIn(symbol)) - SellTotal(fills, QtyIn(symbol)) ==
            Counted(executions, ExecutionId, SignedQty(symbol), FillIds(fills))
  {
    hide TapeOf, DistinctKeys;
    if fills == [] {
      assert FillIds(fills) == {};
      CountedNone(executions, ExecutionId, SignedQty(symbol));
    } else {
      var front, f := fills[..|fills| - 1], fills[|fills| - 1];
      assert fills == front + [f];
      QtyIsCounted(executions, front, symbol);
      TapeHolds(executions);
      var e := TapeOf(executions)[f.fillId];
      assert FillIds(fills) == FillIds(front) + {ExecutionId(e)};
      CountedOneMore(executions, ExecutionId, SignedQty(symbol), FillIds(front), e);
    }
  }

  lemma LedgerHolds(a: Account, w: World, symbol: string)
    requires FillsSound(a, w) && LotsOf(a.market, a.owner, w.ledger.view.books.fills).Some?
    ensures Lookup(AccountWiring.LocalPositions(a.market, a.owner, w.ledger), symbol) ==
            Lookup(w.ledger.view.openingPositions, symbol)
            + Counted(w.executions, ExecutionId, SignedQty(symbol), OnLedger(w))
  {
    hide TapeOf, FillAccounting.CameFrom, FillsOk, LotsOf, PositionsOf;
    FillIdsDistinct(a.owner, w.ledger.view.books.fills);
    QtyIsCounted(w.executions, w.ledger.view.books.fills, symbol);
    PositionsConserve(a.market, a.owner, w.ledger.view.openingPositions, w.ledger.view.books.fills, symbol);
  }

  // ---------------------------------------------------------------- what every step keeps

  /** Nothing is seeded before the seed; and an opening position, once there, is
      what the broker held at the seed, over fills that came to nothing. */
  ghost predicate PositionsSound(held: map<string, Decimal>, w: World) {
    var opening := w.ledger.view.openingPositions;
    && (w.seed.None? ==> opening == map[])
    && (w.seed.Some? && opening != map[] ==>
          && WasSeeded(w)
          && forall symbol :: symbol in opening ==>
               && opening[symbol] == Lookup(held, symbol) + Total(OldExecutions(w), SignedQty(symbol))
               && Counted(OldExecutions(w), ExecutionId, SignedQty(symbol), w.seed.value.recorded) == 0.0)
  }

  /** The polls write no opening positions. */
  lemma PollsKeepOpening(a: Account, w: World, cut: Cut, orders: map<string, OrderClosing.BrokerOrder>)
    requires Sound(a, w)
    ensures FillStage(a, w, cut).state.ledger.view.openingPositions == w.ledger.view.openingPositions
    ensures ClosingStage(a, w, cut, orders).state.ledger.view.openingPositions == w.ledger.view.openingPositions
    ensures CashStage(a, w, cut).state.ledger.view.openingPositions == w.ledger.view.openingPositions
  {
    hide Sound, FillSync.SyncPass, CashEvents.CashPass, OrderClosing.ClosePass, ExecutionFrozen;
    PassLeavesAlone(a.Desk(), w.clock, SyncOf(w),
                    FirstOf(w.executions, cut.InFills?, if cut.InFills? then cut.k else 0), {});
    ClosingStageKeeps(a, w, cut, orders);
    CashPassLeavesFills(a.Till(), w.clock, CashOf(w),
                        FirstOf(w.activities, cut.InCash?, if cut.InCash? then cut.k else 0));
  }

  lemma {:induction false} OverlayIsListed(positions: seq<Position>, symbol: string)
    ensures symbol in Overlay(map[], positions) ==>
              exists p :: p in positions && p.symbol == symbol && p.qty == Overlay(map[], positions)[symbol]
  {
    if positions != [] {
      var front, last := positions[..|positions| - 1], positions[|positions| - 1];
      assert positions == front + [last] && last in positions;
      if last.symbol != symbol && symbol in Overlay(map[], front) {
        OverlayIsListed(front, symbol);
        var p :| p in front && p.symbol == symbol && p.qty == Overlay(map[], front)[symbol];
        assert p in positions;
      }
    }
  }

  /** Writing positions reported, all or the first few, over a ledger that holds
      nothing. */
  lemma SeedsOverNothing(a: Account, held: map<string, Decimal>, w: World, after: World, positions: seq<Position>,
                         written: seq<Position>)
    requires FillsSound(a, w) && w.ledger.view.openingPositions == map[] && Reports(a, held, w, positions)
    requires LotsOf(a.market, a.owner, w.ledger.view.books.fills).Some? && written <= positions
    requires AccountWiring.LocalPositions(a.market, a.owner, w.ledger) == map[]
    requires after == w.(ledger := after.ledger, seed := Some(SeedNow(w)))
    requires after.ledger.view.openingPositions == Overlay(map[], written)
    ensures PositionsSound(held, after)
    ensures WasSeeded(after) && OldExecutions(after) == w.executions
    ensures forall symbol ::
              Counted(OldExecutions(after), ExecutionId, SignedQty(symbol), after.seed.value.recorded) == 0.0
  {
    hide FillsSound, LotsOf, AccountWiring.LocalPositions, Overlay, Total, Counted;
    assert OldExecutions(after) == w.executions;
    forall symbol
      ensures Counted(OldExecutions(after), ExecutionId, SignedQty(symbol), after.seed.value.recorded) == 0.0
    {
      LedgerHolds(a, w, symbol);
    }
    forall symbol | symbol in Overlay(map[], written)
      ensures Overlay(map[], written)[symbol] == BrokerQty(held, w, symbol)
    {
      OverlayIsListed(written, symbol);
      var p :| p in written && p.symbol == symbol && p.qty == Overlay(map[], written)[symbol];
      assert p in positions;
    }
  }

  /** The positions a stage writes if they are due. */
  function Written(cut: Cut, positions: seq<Position>): (written: seq<Position>)
    ensures written <= positions
  {
    if cut.InPositions? && cut.k <= |positions| then positions[..cut.k] else positions
  }

  lemma BuildKeepsPositions(a: Account, held: map<string, Decimal>, w: World, cut: Cut, positions: seq<Position>)
    requires Sound(a, w) && PositionsSound(held, w) && Reports(a, held, w, positions)
    ensures PositionsSound(held, BuildStage(a, w, cut, positions))
    ensures w.seed.Some? ==> BuildStage(a, w, cut, positions) == w
  {
    SoundParts(a, w);
    hide FillsSound, CashSound, SeedFigure, ExecutionFrozen, ActivityFrozen, AccountWiring.SeedBalance, BrokerCash,
         Reports, LotsOf, AccountWiring.LocalPositions, Overlay, PositionsWritten, AccountWiring.PositionsDue;
    if w.seed.None? && !cut.BeforeBuild? {
      BuildWritesExactlyWhen(a, held, w, cut, positions);
      hide AccountWiring.Seeding, AccountWiring.SeedingCut;
      var after := BuildStage(a, w, cut, positions);
      if after.ledger.view.openingPositions != map[] {
        var cash := AccountWiring.SeedBalance(a.market, w.ledger, {}, BrokerCash(a, w, w.clock), w.clock).state;
        AccountWiring.CashSeedFrame(a.market, w.ledger, {}, BrokerCash(a, w, w.clock), w.clock);
        CashSeedBooks(a, w);
        DueIsOfTheBooks(a, w.ledger, cash, positions);
        SeedsOverNothing(a, held, w, after, positions, Written(cut, positions));
      }
    }
  }

  lemma CashSeedBooks(a: Account, w: World)
    requires Sound(a, w)
    ensures AccountWiring.SeedBalance(a.market, w.ledger, {}, BrokerCash(a, w, w.clock), w.clock).state.view.books ==
            w.ledger.view.books
  {
    hide Sound, BrokerCash, AccountWiring.SeedBalance;
    SeedBalanceSeeds(a, w, {});
  }

  /** Whether positions are due does not depend on the opening balance. */
  lemma DueIsOfTheBooks(a: Account, before: LedgerFile.Store, cash: LedgerFile.Store, positions: seq<Position>)
    requires AccountWiring.PositionsDue(a.market, a.owner, cash, positions)
    requires cash.view.books == before.view.books && cash.view.openingPositions == before.view.openingPositions
    ensures LotsOf(a.market, a.owner, before.view.books.fills).Some?
    ensures AccountWiring.LocalPositions(a.market, a.owner, before) == map[]
  {
  }

  /** A world that differs in its stores and keeps the opening positions. */
  lemma SameOpeningKeeps(held: map<string, Decimal>, w: World, after: World)
    requires PositionsSound(held, w) && SameOutside(w, after)
    requires after.ledger.view.openingPositions == w.ledger.view.openingPositions
    ensures PositionsSound(held, after)
    ensures forall symbol :: BrokerQty(held, after, symbol) == BrokerQty(held, w, symbol)
  {
  }

  lemma PollsKeepPositions(a: Account, held: map<string, Decimal>, w: World, cut: Cut,
                           orders: map<string, OrderClosing.BrokerOrder>)
    requires Sound(a, w) && PositionsSound(held, w)
    ensures var fills := FillStage(a, w, cut).state;
            var closed := ClosingStage(a, fills, cut, orders).state;
            var cash := CashStage(a, closed, cut).state;
            && PositionsSound(held, fills) && PositionsSound(held, closed) && PositionsSound(held, cash)
            && SameOutside(w, cash) && cash.ledger.view.openingPositions == w.ledger.view.openingPositions
  {
    hide Sound, PositionsSound, FillStage, ClosingStage, CashStage;
    FillStageKeeps(a, w, cut);
    PollsKeepOpening(a, w, cut, orders);
    StagesDoNotSeed(a, w, cut, orders);
    var fills := FillStage(a, w, cut).state;
    SameOpeningKeeps(held, w, fills);
    ClosingStageKeeps(a, fills, cut, orders);
    PollsKeepOpening(a, fills, cut, orders);
    StagesDoNotSeed(a, fills, cut, orders);
    var closed := ClosingStage(a, fills, cut, orders).state;
    SameOpeningKeeps(held, fills, closed);
    CashStageKeeps(a, closed, cut);
    PollsKeepOpening(a, closed, cut, orders);
    StagesDoNotSeed(a, closed, cut, orders);
    SameOpeningKeeps(held, closed, CashStage(a, closed, cut).state);
  }

  lemma StillReports(a: Account, held: map<string, Decimal>, w: World, after: World, positions: seq<Position>)
    requires Reports(a, held, w, positions) && after.executions == w.executions
    ensures Reports(a, held, after, positions)
  {
    assert forall symbol :: BrokerQty(held, after, symbol) == BrokerQty(held, w, symbol);
  }

  lemma CycleKeepsPositions(a: Account, held: map<string, Decimal>, w: World, cut: Cut, reply: Reply)
    requires Sound(a, w) && PositionsSound(held, w) && Reports(a, held, w, reply.positions)
    ensures var after := Cycle(a, w, cut, reply);
            && PositionsSound(held, after)
            && (w.seed.Some? ==> after.ledger.view.openingPositions == w.ledger.view.openingPositions)
  {
    hide Sound, PositionsSound, FillStage, ClosingStage, CashStage, BuildStage, AllPolled, Reports;
    PollsKeepPositions(a, held, w, cut, reply.orders);
    PollsKeepOpening(a, w, cut, reply.orders);
    var fills := FillStage(a, w, cut).state;
    FillStageKeeps(a, w, cut);
    PollsKeepOpening(a, fills, cut, reply.orders);
    if Completes(a, w, cut, reply.orders) {
      CompletePolls(a, w, cut, reply.orders);
      var polled := Polled(a, w, cut, reply.orders);
      StillReports(a, held, w, polled, reply.positions);
      BuildKeepsPositions(a, held, polled, cut, reply.positions);
    }
  }

  /** Nothing but a cycle touches opening positions or the seed. */
  lemma OtherEventsKeepOpening(a: Account, w: World, e: Event)
    requires Sound(a, w) && !e.Cycled?
    ensures var after := After(a, w, e);
            && after.seed == w.seed && after.ledger.view.openingPositions == w.ledger.view.openingPositions
            && w.executions <= after.executions
  {
    if e.Restarted? {
      SoundParts(a, w);
      RestartChangesNothing(a, w);
      return;
    }
    hide Sound, Cycle, DecidedCash, FillAccounting.Reloaded, ReloadedCash, FillAccounting.After, WithEntry;
    match e
    case ExecutionDecided(r) => DecisionKeepsLedger(a, w, r);
    case OrderStaged(order) => EntryKeepsOpening(a, w, OrderEntry(order));
    case Corrected(c) => EntryKeepsOpening(a, w, CorrectionEntry(c));
    case _ =>
  }

  lemma DecisionKeepsLedger(a: Account, w: World, r: Quarantine.Resolution)
    ensures FillAccounting.After(a.Desk(), SyncOf(w), FillAccounting.Decided(r)).ledger == w.ledger
  {
    hide Quarantine.Wrote;
  }

  lemma EntryKeepsOpening(a: Account, w: World, e: Entry)
    ensures var after := WithEntry(a, w, e);
            after == w.(ledger := after.ledger)
            && after.ledger.view.openingPositions == w.ledger.view.openingPositions
  {
    hide VerdictOn, Appended;
  }

  lemma MoreExecutionsKeep(held: map<string, Decimal>, w: World, after: World)
    requires PositionsSound(held, w) && after.seed == w.seed && w.executions <= after.executions
    requires w.seed.Some? ==> WasSeeded(w) && WasSeeded(after)
    requires after.ledger.view.openingPositions == w.ledger.view.openingPositions
    ensures PositionsSound(held, after)
  {
    if w.seed.Some? {
      assert OldExecutions(after) == OldExecutions(w);
    }
  }

  lemma StepKeepsPositions(a: Account, held: map<string, Decimal>, w: World, e: Event)
    requires Sound(a, w) && Possible(w, e) && PositionsSound(held, w)
    requires e.Cycled? ==> Reports(a, held, w, e.reply.positions)
    ensures PositionsSound(held, After(a, w, e))
    ensures w.seed.Some? ==> After(a, w, e).ledger.view.openingPositions == w.ledger.view.openingPositions
  {
    hide Sound, PositionsSound, Possible, Reports, Cycle;
    if e.Cycled? {
      CycleKeepsPositions(a, held, w, e.cut, e.reply);
    } else {
      OtherEventsKeepOpening(a, w, e);
      StepKeeps(a, w, e);
      var after := After(a, w, e);
      hide After;
      if w.seed.Some? {
        OldIsFrozen(a, w);
        OldIsFrozen(a, after);
      }
      MoreExecutionsKeep(held, w, after);
    }
  }

  lemma {:induction false} RunKeepsPositions(a: Account, held: map<string, Decimal>, start: Decimal, clock: Instant,
                                             events: seq<Event>)
    requires Plays(a, start, clock, events) && Told(a, held, start, clock, events)
    ensures PositionsSound(held, Run(a, start, clock, events))
  {
    if events != [] {
      hide Sound, PositionsSound, After, Possible, Reports;
      var front := events[..|events| - 1];
      RunKeepsPositions(a, held, start, clock, front);
      RunIsSound(a, start, clock, front);
      StepKeepsPositions(a, held, Run(a, start, clock, front), events[|events| - 1]);
    }
  }

  // ---------------------------------------------------------------- the identity

  /** What the seed never took over: of a symbol with no opening position
      written, all the broker held before its first execution, and the
      executions from before the seed that were rejected. */
  function NeverSeeded(held: map<string, Decimal>, w: World, symbol: string): Decimal
    requires WasSeeded(w)
  {
    if symbol in w.ledger.view.openingPositions then 0.0
    else Lookup(held, symbol) + Missing(OldExecutions(w), ExecutionId, SignedQty(symbol), OnLedger(w))
  }

  lemma SoundPositionIdentity(a: Account, held: map<string, Decimal>, w: World, symbol: string)
    requires Sound(a, w) && PositionsSound(held, w) && w.seed.Some?
    requires LotsOf(a.market, a.owner, w.ledger.view.books.fills).Some?
    ensures WasSeeded(w)
    ensures Lookup(AccountWiring.LocalPositions(a.market, a.owner, w.ledger), symbol) ==
            BrokerQty(held, w, symbol)
            - Missing(NewExecutions(w), ExecutionId, SignedQty(symbol), OnLedger(w)) - NeverSeeded(held, w, symbol)
  {
    SoundParts(a, w);
    OldIsFrozen(a, w);
    LedgerHolds(a, w, symbol);
    hide Sound, FillsSound, CashSound, SeedSound, LotsOf, AccountWiring.LocalPositions, FillIds, Total, Counted,
         Missing, AdjustmentIds;
    var qty, s := SignedQty(symbol), w.seed.value;
    CountedAgree(OldExecutions(w), ExecutionId, qty, OnLedger(w), s.recorded);
    SplitAt(w.executions, s.executions, ExecutionId, qty, OnLedger(w));
    CountedPlusMissing(OldExecutions(w), ExecutionId, qty, OnLedger(w));
    CountedPlusMissing(NewExecutions(w), ExecutionId, qty, OnLedger(w));
  }

  /** Whole-run position agreement. In every seeded state of every run, symbol
      by symbol, the local quantity is the broker's less the executions since
      the seed that are not on the ledger, and less what the seed never took
      over. */
  lemma PositionIdentity(a: Account, held: map<string, Decimal>, start: Decimal, clock: Instant, events: seq<Event>,
                         symbol: string)
    requires Plays(a, start, clock, events) && Told(a, held, start, clock, events)
    requires Run(a, start, clock, events).seed.Some?
    requires LotsOf(a.market, a.owner, Run(a, start, clock, events).ledger.view.books.fills).Some?
    ensures var w := Run(a, start, clock, events);
            && WasSeeded(w)
            && Lookup(AccountWiring.LocalPositions(a.market, a.owner, w.ledger), symbol) ==
               BrokerQty(held, w, symbol)
               - Missing(NewExecutions(w), ExecutionId, SignedQty(symbol), OnLedger(w)) - NeverSeeded(held, w, symbol)
  {
    hide *;
    RunIsSound(a, start, clock, events);
    RunKeepsPositions(a, held, start, clock, events);
    SoundPositionIdentity(a, held, Run(a, start, clock, events), symbol);
  }

  /** After any cycle that gets through its polls, what is not on the ledger is
      pending or rejected: the difference is those executions, and what the seed
      never took over. */
  lemma PositionsAfterACycle(a: Account, held: map<string, Decimal>, start: Decimal, clock: Instant,
                             events: seq<Event>, reply: Reply, symbol: string)
    requires Plays(a, start, clock, events) && Told(a, held, start, clock, events)
    requires Reports(a, held, Run(a, start, clock, events), reply.positions)
    requires Completes(a, Run(a, start, clock, events), Uncut, reply.orders)
    requires Cycle(a, Run(a, start, clock, events), Uncut, reply).seed.Some?
    requires var after := Cycle(a, Run(a, start, clock, events), Uncut, reply);
             LotsOf(a.market, a.owner, after.ledger.view.books.fills).Some?
    ensures var w := Cycle(a, Run(a, start, clock, events), Uncut, reply);
            && WasSeeded(w)
            && Lookup(AccountWiring.LocalPositions(a.market, a.owner, w.ledger), symbol) ==
               BrokerQty(held, w, symbol)
               - Counted(NewExecutions(w), ExecutionId, SignedQty(symbol), Withheld(w.fillsQ.memory))
               - NeverSeeded(held, w, symbol)
  {
    hide *;
    var before := Run(a, start, clock, events);
    RunIsSound(a, start, clock, events);
    RunKeepsPositions(a, held, start, clock, events);
    CompleteCycle(a, before, reply);
    CycleKeepsPositions(a, held, before, Uncut, reply);
    var w := Cycle(a, before, Uncut, reply);
    SoundPositionIdentity(a, held, w, symbol);
    SoundParts(a, w);
    PolledIsOnLedgerOrWithheld(a, w);
    NewAreExecutions(w);
    MissingIsCounted(NewExecutions(w), ExecutionId, SignedQty(symbol), OnLedger(w), Withheld(w.fillsQ.memory));
  }

  lemma NewAreExecutions(w: World)
    requires WasSeeded(w)
    ensures forall e :: e in NewExecutions(w) ==> e in w.executions && ExecutionId(e) == e.executionId
  {
  }

  /** Exact agreement. In any seeded state that has every execution since the
      seed on its ledger, the two positions are equal in a symbol if and only if
      an opening position of it was written, or the broker held as much of it before
      its first execution as the executions rejected before the seed undid. */
  lemma PositionsAgreeExactlyWhen(a: Account, held: map<string, Decimal>, start: Decimal, clock: Instant,
                                  events: seq<Event>, symbol: string)
    requires Plays(a, start, clock, events) && Told(a, held, start, clock, events)
    requires Run(a, start, clock, events).seed.Some? && WasSeeded(Run(a, start, clock, events))
    requires LotsOf(a.market, a.owner, Run(a, start, clock, events).ledger.view.books.fills).Some?
    requires forall e :: e in NewExecutions(Run(a, start, clock, events)) ==>
               e.executionId in OnLedger(Run(a, start, clock, events))
    ensures var w := Run(a, start, clock, events);
            Lookup(AccountWiring.LocalPositions(a.market, a.owner, w.ledger), symbol) == BrokerQty(held, w, symbol) <==>
            symbol in w.ledger.view.openingPositions
            || Lookup(held, symbol) + Missing(OldExecutions(w), ExecutionId, SignedQty(symbol), OnLedger(w)) == 0.0
  {
    var w := Run(a, start, clock, events);
    hide Run, Plays, Told, OnLedger, AccountWiring.LocalPositions, LotsOf, BrokerQty, OldExecutions, NewExecutions,
         WasSeeded;
    PositionIdentity(a, held, start, clock, events, symbol);
    MissingNothing(NewExecutions(w), ExecutionId, SignedQty(symbol), OnLedger(w));
  }

  // ---------------------------------------------------------------- when opening positions are written

  /** Exactly when, and which: the cycle that seeds cash writes the positions
      reported, in order and as far as it lives, if and only if the ledger,
      seeded, answers that it holds nothing. */
  lemma PositionsWrittenExactlyWhen(a: Account, held: map<string, Decimal>, w: World, cut: Cut, reply: Reply)
    requires Sound(a, w) && PositionsSound(held, w) && w.seed.None? && Cycle(a, w, cut, reply).seed.Some?
    ensures var polled, after := Polled(a, w, cut, reply.orders), Cycle(a, w, cut, reply);
            var cash := AccountWiring.SeedBalance(a.market, polled.ledger, {}, BrokerCash(a, w, w.clock),
                                                  w.clock).state;
            && Completes(a, w, cut, reply.orders)
            && after.ledger.view.openingPositions ==
               if AccountWiring.PositionsDue(a.market, a.owner, cash, reply.positions)
               then Overlay(map[], Written(cut, reply.positions))
               else map[]
  {
    hide Sound, PositionsSound, FillStage, ClosingStage, CashStage, BuildStage, Overlay, AccountWiring.PositionsDue,
         AccountWiring.SeedBalance;
    PollsKeepPositions(a, held, w, cut, reply.orders);
    FillStageKeeps(a, w, cut);
    StagesDoNotSeed(a, w, cut, reply.orders);
    StagesDoNotSeed(a, FillStage(a, w, cut).state, cut, reply.orders);
    assert Completes(a, w, cut, reply.orders);
    CompletePolls(a, w, cut, reply.orders);
    var polled := Polled(a, w, cut, reply.orders);
    assert BrokerCash(a, polled, w.clock) == BrokerCash(a, w, w.clock);
    BuildWritesExactlyWhen(a, held, polled, cut, reply.positions);
  }

  /** Taken over whole: a first start that gets through its position rows leaves
      no symbol behind. */
  lemma WholeStartTakesAllOver(a: Account, held: map<string, Decimal>, w: World, cut: Cut, reply: Reply,
                               symbol: string)
    requires Sound(a, w) && PositionsSound(held, w) && Reports(a, held, w, reply.positions)
    requires w.seed.None? && Cycle(a, w, cut, reply).seed.Some? && Written(cut, reply.positions) == reply.positions
    requires var polled := Polled(a, w, cut, reply.orders);
             var cash := AccountWiring.SeedBalance(a.market, polled.ledger, {}, BrokerCash(a, w, w.clock), w.clock);
             AccountWiring.PositionsDue(a.market, a.owner, cash.state, reply.positions)
    ensures WasSeeded(Cycle(a, w, cut, reply)) && NeverSeeded(held, Cycle(a, w, cut, reply), symbol) == 0.0
  {
    hide Sound, PositionsSound, FillStage, ClosingStage, CashStage, BuildStage, Overlay, AccountWiring.PositionsDue,
         AccountWiring.SeedBalance, Reports;
    PositionsWrittenExactlyWhen(a, held, w, cut, reply);
    CycleKeeps(a, w, cut, reply);
    PollsKeepPositions(a, held, w, cut, reply.orders);
    CompletePolls(a, w, cut, reply.orders);
    var polled, after := Polled(a, w, cut, reply.orders), Cycle(a, w, cut, reply);
    StillReports(a, held, w, polled, reply.positions);
    assert BrokerCash(a, polled, w.clock) == BrokerCash(a, w, w.clock);
    AllTakenOver(a, held, polled, after, cut, reply.positions, symbol);
  }

  lemma AllTakenOver(a: Account, held: map<string, Decimal>, w: World, after: World, cut: Cut,
                     positions: seq<Position>, symbol: string)
    requires Sound(a, w) && PositionsSound(held, w) && Reports(a, held, w, positions) && w.seed.None?
    requires after == BuildStage(a, w, cut, positions) && Sound(a, after) && after.seed.Some?
    requires after.ledger.view.openingPositions == Overlay(map[], positions)
    requires var cash := AccountWiring.SeedBalance(a.market, w.ledger, {}, BrokerCash(a, w, w.clock), w.clock);
             AccountWiring.PositionsDue(a.market, a.owner, cash.state, positions)
    ensures WasSeeded(after) && NeverSeeded(held, after, symbol) == 0.0
  {
    SoundParts(a, w);
    hide Sound, FillsSound, CashSound, SeedFigure, ExecutionFrozen, ActivityFrozen, AccountWiring.Seeding,
         AccountWiring.SeedingCut, AccountWiring.SeedBalance, BrokerCash, LotsOf, AccountWiring.LocalPositions,
         Overlay, AccountWiring.PositionsDue, BuildStage, Total, Counted, Missing, FillIds;
    var cash := AccountWiring.SeedBalance(a.market, w.ledger, {}, BrokerCash(a, w, w.clock), w.clock).state;
    AccountWiring.CashSeedFrame(a.market, w.ledger, {}, BrokerCash(a, w, w.clock), w.clock);
    CashSeedBooks(a, w);
    BuildKeepsSeed(a, w, cut, positions);
    DueIsOfTheBooks(a, w.ledger, cash, positions);
    SeedsOverNothing(a, held, w, after, positions, positions);
    OldIsFrozen(a, after);
    var qty := SignedQty(symbol);
    CountedAgree(OldExecutions(after), ExecutionId, qty, OnLedger(after), after.seed.value.recorded);
    CountedPlusMissing(OldExecutions(after), ExecutionId, qty, OnLedger(after));
    assert BrokerQty(held, w, symbol) == Lookup(held, symbol) + Total(OldExecutions(after), qty);
  }

  lemma BuildWritesExactlyWhen(a: Account, held: map<string, Decimal>, w: World, cut: Cut, positions: seq<Position>)
    requires Sound(a, w) && PositionsSound(held, w) && w.seed.None?
    ensures var cash := AccountWiring.SeedBalance(a.market, w.ledger, {}, BrokerCash(a, w, w.clock), w.clock).state;
            var after := BuildStage(a, w, cut, positions);
            after.ledger.view.openingPositions ==
            if after.seed.Some? && AccountWiring.PositionsDue(a.market, a.owner, cash, positions)
            then Overlay(map[], Written(cut, positions))
            else map[]
  {
    SoundParts(a, w);
    hide FillsSound, CashSound, SeedFigure, ExecutionFrozen, ActivityFrozen, AccountWiring.Seeding, JustSeeded,
         AccountWiring.SeedingCut, AccountWiring.SeedBalance, BrokerCash, Overlay, AccountWiring.PositionsDue;
    var pending, now := w.fillsQ.memory.PendingIds(), w.clock;
    var adapter := AdapterAt(a, w, positions);
    AccountWiring.CashSeedFrame(a.market, w.ledger, pending, adapter.account.settledCash, now);
    if cut.InPositions? {
      AccountWiring.CutPositionsWhenDue(a.market, a.owner, w.ledger, pending, adapter, now, cut.k);
    } else if !cut.BeforeBuild? {
      AccountWiring.SeedingFrame(a.market, a.owner, w.ledger, pending, adapter, now);
      AccountWiring.PositionsSeededWhenDue(a.market, a.owner, w.ledger, pending, adapter, now);
    }
  }

  /** Opening positions are never written, changed or dropped after the seed:
      a first start that leaves them out leaves them out for good. */
  lemma {:induction false} OpeningPositionsAreForever(a: Account, held: map<string, Decimal>, start: Decimal,
                                                      clock: Instant, events: seq<Event>, n: nat)
    requires Plays(a, start, clock, events) && Told(a, held, start, clock, events) && n <= |events|
    requires Run(a, start, clock, events[..n]).seed.Some?
    ensures Run(a, start, clock, events).ledger.view.openingPositions ==
            Run(a, start, clock, events[..n]).ledger.view.openingPositions
    ensures Run(a, start, clock, events).seed == Run(a, start, clock, events[..n]).seed
    decreases |events|
  {
    hide Sound, PositionsSound, After, Possible, Reports;
    if n == |events| {
      assert events[..n] == events;
    } else {
      var front := events[..|events| - 1];
      assert front[..n] == events[..n];
      OpeningPositionsAreForever(a, held, start, clock, front, n);
      RunIsSound(a, start, clock, front);
      RunKeepsPositions(a, held, start, clock, front);
      StepKeepsPositions(a, held, Run(a, start, clock, front), events[|events| - 1]);
      SeedIsForever(a, Run(a, start, clock, front), events[|events| - 1]);
    }
  }

  /** What the seed never took over, it never takes over, and no more is lost. */
  lemma NeverSeededIsForever(a: Account, held: map<string, Decimal>, start: Decimal, clock: Instant,
                             events: seq<Event>, n: nat, symbol: string)
    requires Plays(a, start, clock, events) && Told(a, held, start, clock, events) && n <= |events|
    requires Run(a, start, clock, events[..n]).seed.Some?
    ensures var early, late := Run(a, start, clock, events[..n]), Run(a, start, clock, events);
            && WasSeeded(early) && WasSeeded(late)
            && NeverSeeded(held, late, symbol) == NeverSeeded(held, early, symbol)
  {
    hide Run, Plays, Told, OnLedger, OldExecutions, OldActivities;
    var early, late := Run(a, start, clock, events[..n]), Run(a, start, clock, events);
    OpeningPositionsAreForever(a, held, start, clock, events, n);
    NothingOldComesBack(a, start, clock, events, n);
    CountedAgree(OldExecutions(early), ExecutionId, SignedQty(symbol), OnLedger(early), OnLedger(late));
  }

  // ---------------------------------------------------------------- a first start cut short, concretely

  const TWO_HELD := [Position("A", "X", 10.0), Position("A", "Y", 5.0)]

  /** A first start that dies after k position rows, and one whole cycle later:
      the broker holds ten of X and five of Y, the ledger those whose row was out
      and none of the others, and no later cycle takes them over. */
  lemma CutFirstStartLosesPositions(m: Market, k: nat)
    ensures var a, reply := Account(m, Owner("A", map[]), 1.0), Reply(map[], TWO_HELD);
            var held, events := map["X" := 10.0, "Y" := 5.0], [Cycled(InPositions(k), reply), Cycled(Uncut, reply)];
            && Plays(a, 100.0, 0, events) && Told(a, held, 100.0, 0, events)
            && var w := Run(a, 100.0, 0, events);
               && w.seed.Some? && LotsOf(m, a.owner, w.ledger.view.books.fills).Some?
               && BrokerQty(held, w, "X") == 10.0 && BrokerQty(held, w, "Y") == 5.0
               && var local := AccountWiring.LocalPositions(m, a.owner, w.ledger);
                  && Lookup(local, "X") == (if k >= 1 then 10.0 else 0.0)
                  && Lookup(local, "Y") == (if k >= 2 then 5.0 else 0.0)
  {
    var a, reply := Account(m, Owner("A", map[]), 1.0), Reply(map[], TWO_HELD);
    var cut, whole := Cycled(InPositions(k), reply), Cycled(Uncut, reply);
    var held, events := map["X" := 10.0, "Y" := 5.0], [cut, whole];
    hide Cycle, Reports, LotsOf, PositionsOf, Possible, Overlay;
    assert events[..1] == [cut] && [cut][..0] == [];
    var w0 := NewWorld(100.0, 0);
    CutFirstCycle(a, w0, reply, k);
    var w1 := Cycle(a, w0, InPositions(k), reply);
    assert Run(a, 100.0, 0, []) == w0 && Run(a, 100.0, 0, [cut]) == w1;
    TwoReported(a, held, w0);
    StillReports(a, held, w0, w1, TWO_HELD);
    CyclesArePossible(w0, cut);
    CyclesArePossible(w1, whole);
    assert Plays(a, 100.0, 0, []) && Plays(a, 100.0, 0, [cut]);
    assert Told(a, held, 100.0, 0, []) && Told(a, held, 100.0, 0, [cut]);
    OpeningPositionsAreForever(a, held, 100.0, 0, events, 1);
    var w := Cycle(a, w1, Uncut, reply);
    assert Run(a, 100.0, 0, events) == w;
    RunIsSound(a, 100.0, 0, [cut]);
    RunIsSound(a, 100.0, 0, events);
    CycleKeepsSeed(a, w1, Uncut, reply);
    NoExecutionsNoFills(a, w);
    hide Run, Plays, Told;
    FirstOfTwo(k);
    PositionIdentity(a, held, 100.0, 0, events, "X");
    PositionIdentity(a, held, 100.0, 0, events, "Y");
  }

  lemma CyclesArePossible(w: World, e: Event)
    requires e.Cycled?
    ensures Possible(w, e)
  {
  }

  lemma FirstOfTwo(k: nat)
    ensures var written := Overlay(map[], Written(InPositions(k), TWO_HELD));
            && ("X" in written <==> k >= 1) && ("Y" in written <==> k >= 2)
            && forall symbol :: symbol in written ==> symbol == "X" || symbol == "Y"
  {
    assert TWO_HELD[..0] == [] && TWO_HELD[..1] == [TWO_HELD[0]] && TWO_HELD[..2] == TWO_HELD;
    assert [TWO_HELD[0]][..0] == [];
    assert Overlay(map[], [TWO_HELD[0]]) == Overlay(map[], [])["X" := 10.0];
  }

  lemma TwoReported(a: Account, held: map<string, Decimal>, w: World)
    requires a.owner.accountId == "A" && held == map["X" := 10.0, "Y" := 5.0] && w.executions == []
    ensures Reports(a, held, w, TWO_HELD)
  {
    FirstOfTwo(2);
    assert Written(InPositions(2), TWO_HELD) == TWO_HELD;
    hide Overlay;
  }

  lemma CutFirstCycle(a: Account, w: World, reply: Reply, k: nat)
    requires w == NewWorld(100.0, 0) && reply.orders == map[]
    requires forall p :: p in reply.positions ==> p.accountId == a.owner.accountId
    ensures var after := Cycle(a, w, InPositions(k), reply);
            && after.seed.Some? && after.executions == []
            && after.ledger.view.openingPositions == Overlay(map[], Written(InPositions(k), reply.positions))
  {
    var cut := InPositions(k);
    NothingToPoll(a, w, cut);
    NothingToClose(a, w, cut);
    assert CashStage(a, w, cut).error.None? && CashStage(a, w, cut).state == w;
    hide FillStage, ClosingStage, CashStage, Overlay, PositionRows;
    assert BrokerCash(a, w, 0) == 100.0;
    hide BrokerCash;
    assert w.fillsQ.memory.PendingIds() == {};
    assert Cycle(a, w, cut, reply) == BuildStage(a, w, cut, reply.positions);
  }

  lemma NoExecutionsNoFills(a: Account, w: World)
    requires Sound(a, w) && w.executions == [] && w.seed.Some?
    ensures w.ledger.view.books.fills == [] && LotsOf(a.market, a.owner, w.ledger.view.books.fills) == Some([])
    ensures WasSeeded(w) && OldExecutions(w) == [] == NewExecutions(w)
  {
    hide CashSound, SeedFigure, Faithful, Quarantine.Faithful, ExecutionFrozen, ActivityFrozen;
    FirstIsListed(w.ledger.view.books.fills);
  }
}
