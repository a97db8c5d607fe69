/** Local settled cash against the broker's, over whole runs: the exact
    difference in every reachable state, and when it is nothing. */
module CashAgreement {
  import opened Wrappers
  import opened Money
  import opened MarketCalendar
  import opened LedgerBooks
  import opened LedgerFile
  import opened PollLoop
  import opened ExecutionQuarantine
  import opened Tally
  import opened AccountRun
  import opened AccountInvariant
  import AccountWiring
  import CashEvents
  import FillAccounting
  import FillSync
  import OrderClosing
  import Quarantine

  // ---------------------------------------------------------------- the terms of the difference

  function OnLedger(w: World): set<string> { FillIds(w.ledger.view.books.fills) }

  function OnCashLedger(w: World): set<string> { AdjustmentIds(w.ledger.view.books.adjustments) }

  ghost predicate WasSeeded(w: World) {
    w.seed.Some? && w.seed.value.executions <= |w.executions| && w.seed.value.activities <= |w.activities|
  }

  function OldExecutions(w: World): seq<Execution>
    requires WasSeeded(w)
  { w.executions[..w.seed.value.executions] }

  function NewExecutions(w: World): seq<Execution>
    requires WasSeeded(w)
  { w.executions[w.seed.value.executions..] }

  function OldActivities(w: World): seq<CashEvents.AccountActivity>
    requires WasSeeded(w)
  { w.activities[..w.seed.value.activities] }

  function NewActivities(w: World): seq<CashEvents.AccountActivity>
    requires WasSeeded(w)
  { w.activities[w.seed.value.activities..] }

  /** Events since the seed that the broker shows and the ledger does not. */
  function Outstanding(a: Account, w: World, now: Instant): Decimal
    requires WasSeeded(w)
  {
    Missing(NewExecutions(w), ExecutionId, EffectAt(a.market, now), OnLedger(w))
    + Missing(NewActivities(w), ActivityId, NetAmount, OnCashLedger(w))
  }

  /** A sale's proceeds if its settlement falls between two instants, taken off
      when the second comes first; a purchase never counts. */
  function LateEffect(m: Market, since: Instant, now: Instant): Execution -> Decimal {
    (e: Execution) =>
      var settles := if e.filledAt.Some? && !e.side.Buy? then SettlementInstant(m, e.filledAt.value) else None;
      if settles.None? then 0.0
      else if since < settles.value <= now then CashNotional(e.qty, e.price)
      else if now < settles.value <= since then -CashNotional(e.qty, e.price)
      else 0.0
  }

  /** Sales from before the seed that were rejected, and settled after it. */
  function LateRejected(a: Account, w: World, now: Instant): Decimal
    requires WasSeeded(w)
  {
    Missing(OldExecutions(w), ExecutionId, LateEffect(a.market, w.seed.value.at, now), OnLedger(w))
  }

  /** Adjustments the raw branch counts a second time. */
  function Doubled(w: World): Decimal
    requires WasSeeded(w)
  {
    if w.seed.value.raw then Counted(OldActivities(w), ActivityId, NetAmount, w.seed.value.applied) else 0.0
  }

  /** Corrections the seed did not already take out. */
  function Repairs(w: World): Decimal
    requires WasSeeded(w)
  {
    CorrectionsCash(w.ledger.view.books.corrections) - w.seed.value.netted
  }

  /** That is all an execution's cash can change by, as time goes on. */
  lemma LateEffectIsSettlement(m: Market, e: Execution, since: Instant, now: Instant)
    ensures LateEffect(m, since, now)(e) == EffectAt(m, now)(e) - EffectAt(m, since)(e)
  {
  }

  // ---------------------------------------------------------------- the identity

  /** What the frozen part of the invariant says of membership. */
  lemma OldIsFrozen(a: Account, w: World)
    requires Sound(a, w) && w.seed.Some?
    ensures WasSeeded(w)
    ensures forall e :: e in OldExecutions(w) ==>
              (e.executionId in OnLedger(w) <==> e.executionId in w.seed.value.recorded)
    ensures forall act :: act in OldActivities(w) ==>
              (act.activityId in OnCashLedger(w) <==> act.activityId in w.seed.value.applied)
  {
    hide FillsSound, CashSound, SeedFigure;
    var s := w.seed.value;
    forall e | e in OldExecutions(w) ensures e.executionId in OnLedger(w) <==> e.executionId in s.recorded {
      var i :| 0 <= i < s.executions && w.executions[i] == e;
      assert ExecutionFrozen(SyncOf(w), s.recorded, w.executions[i].executionId);
      assert e.executionId in OnLedger(w) <==> FillSync.Known(SyncOf(w), e.executionId);
    }
    forall act | act in OldActivities(w) ensures act.activityId in OnCashLedger(w) <==> act.activityId in s.applied {
      var i :| 0 <= i < s.activities && w.activities[i] == act;
      assert ActivityFrozen(CashOf(w), s.applied, s.at, w.activities[i]);
      assert act.activityId in OnCashLedger(w) <==> CashEvents.Known(CashOf(w), act.activityId);
    }
  }

  /** The ledger's two folds, split at the seed. */
  lemma FoldsSplit(a: Account, w: World, now: Instant)
    requires Sound(a, w) && WasSeeded(w)
    ensures FillsCash(a.market, w.ledger.view.books.fills, now) ==
            Total(w.executions, EffectAt(a.market, now))
            - Missing(OldExecutions(w), ExecutionId, EffectAt(a.market, now), OnLedger(w))
            - Missing(NewExecutions(w), ExecutionId, EffectAt(a.market, now), OnLedger(w))
    ensures AdjustmentsCash(w.ledger.view.books.adjustments) ==
            Total(w.activities, NetAmount)
            - Missing(OldActivities(w), ActivityId, NetAmount, OnCashLedger(w))
            - Missing(NewActivities(w), ActivityId, NetAmount, OnCashLedger(w))
  {
    hide FillsSound, CashSound, SeedSound, FillIds, AdjustmentIds;
    LedgerCounts(a, w, now);
    CountedPlusMissing(w.executions, ExecutionId, EffectAt(a.market, now), OnLedger(w));
    SplitAt(w.executions, w.seed.value.executions, ExecutionId, EffectAt(a.market, now), OnLedger(w));
    CountedPlusMissing(w.activities, ActivityId, NetAmount, OnCashLedger(w));
    SplitAt(w.activities, w.seed.value.activities, ActivityId, NetAmount, OnCashLedger(w));
  }

  /** The seed figure: what it left out is what the broker held besides. */
  lemma FigureLeftOut(a: Account, w: World)
    requires Sound(a, w) && w.seed.Some?
    ensures WasSeeded(w)
    ensures SeedFigure(a, w.start, w.executions, w.activities, w.seed.value) ==
            w.start + Missing(OldExecutions(w), ExecutionId, EffectAt(a.market, w.seed.value.at), OnLedger(w))
            + Missing(OldActivities(w), ActivityId, NetAmount, OnCashLedger(w)) + Doubled(w) - w.seed.value.netted
  {
    OldIsFrozen(a, w);
    hide FillsSound, CashSound, ExecutionFrozen, ActivityFrozen, FillIds, AdjustmentIds;
    var s := w.seed.value;
    var xs, ys, eff := OldExecutions(w), OldActivities(w), EffectAt(a.market, s.at);
    CountedAgree(xs, ExecutionId, eff, OnLedger(w), s.recorded);
    CountedAgree(ys, ActivityId, NetAmount, OnCashLedger(w), s.applied);
    CountedPlusMissing(xs, ExecutionId, eff, s.recorded);
    CountedPlusMissing(ys, ActivityId, NetAmount, s.applied);
    CountedNone(xs, ExecutionId, eff);
  }

  lemma SoundIdentity(a: Account, w: World, now: Instant)
    requires Sound(a, w) && w.ledger.view.opening.Some?
    ensures WasSeeded(w)
    ensures LocalCash(a, w.ledger.view, now) ==
            BrokerCash(a, w, now) - Outstanding(a, w, now) - LateRejected(a, w, now) + Doubled(w) + Repairs(w)
  {
    OldIsFrozen(a, w);
    FoldsSplit(a, w, now);
    FigureLeftOut(a, w);
    forall e | e in OldExecutions(w)
      ensures LateEffect(a.market, w.seed.value.at, now)(e) ==
              EffectAt(a.market, now)(e) - EffectAt(a.market, w.seed.value.at)(e)
    {
      LateEffectIsSettlement(a.market, e, w.seed.value.at, now);
    }
    MissingDifference(OldExecutions(w), ExecutionId, EffectAt(a.market, now), EffectAt(a.market, w.seed.value.at),
                      LateEffect(a.market, w.seed.value.at, now), OnLedger(w));
    hide FillsSound, CashSound, ExecutionFrozen, ActivityFrozen, SeedFigure, FillIds, AdjustmentIds, Missing, Counted,
         Total;
  }

  lemma SettledCashAnswers(a: Account, v: View, now: Instant)
    requires v.opening.Some?
    ensures SettledCashOf(a.market, v.opening.value, v.books, now) ==
            if SalesSettle(a.market, v.books.fills) then Some(LocalCash(a, v, now)) else None
  {
  }

  /** Whole-run cash agreement. In every seeded state of every run, at every
      instant, local settled cash is the broker's less what is outstanding and
      what a rejected earlier sale settled late, plus what the raw branch
      doubled and what corrections added; and it is what settled_cash, once the
      ledger can be read, answers whenever the calendar covers every sale. */
  lemma CashIdentity(a: Account, start: Decimal, clock: Instant, events: seq<Event>, now: Instant)
    requires Plays(a, start, clock, events) && Run(a, start, clock, events).ledger.view.opening.Some?
    ensures var w := Run(a, start, clock, events);
            && WasSeeded(w)
            && LocalCash(a, w.ledger.view, now) ==
               BrokerCash(a, w, now) - Outstanding(a, w, now) - LateRejected(a, w, now) + Doubled(w) + Repairs(w)
            && SettledCashOf(a.market, w.ledger.view.opening.value, w.ledger.view.books, now) ==
               if SalesSettle(a.market, w.ledger.view.books.fills) then Some(LocalCash(a, w.ledger.view, now)) else None
  {
    hide *;
    RunIsSound(a, start, clock, events);
    SoundIdentity(a, Run(a, start, clock, events), now);
    SettledCashAnswers(a, Run(a, start, clock, events).ledger.view, now);
  }

  // ---------------------------------------------------------------- after a complete cycle

  /** Ids put aside and not admitted: pending or rejected. */
  function Withheld<Q>(memory: Quarantine.Memory<Q>): set<string> {
    set id | id in memory.items && memory.StatusOf(id) != Some(Quarantine.Decided(Quarantine.Admitted))
  }

  /** A cycle that gets through both polls leaves every posted event on the
      ledger, or withheld, and never both. */
  lemma PolledIsOnLedgerOrWithheld(a: Account, w: World)
    requires FillsSound(a, w) && CashSound(a, w) && AllPolled(a, w)
    ensures forall e :: e in w.executions ==>
              (e.executionId !in OnLedger(w) <==> e.executionId in Withheld(w.fillsQ.memory))
    ensures forall act :: act in w.activities ==>
              (act.activityId !in OnCashLedger(w) <==> act.activityId in Withheld(w.cashQ.memory))
  {
    hide TapeOf, Faithful, Quarantine.Faithful, DistinctKeys, ComesFrom;
    forall e | e in w.executions ensures e.executionId !in OnLedger(w) <==> e.executionId in Withheld(w.fillsQ.memory) {
      assert FillSync.Handled(a.Desk(), w.clock, SyncOf(w), e);
      assert e.executionId in OnLedger(w) <==> FillSync.Known(SyncOf(w), e.executionId);
    }
    forall act | act in w.activities
      ensures act.activityId !in OnCashLedger(w) <==> act.activityId in Withheld(w.cashQ.memory)
    {
      assert CashEvents.Handled(a.Till(), CashOf(w), act);
      assert act.activityId in OnCashLedger(w) <==> CashEvents.Known(CashOf(w), act.activityId);
    }
  }

  /** The events since the seed that are pending or rejected, in cash. */
  function WithheldCash(a: Account, w: World, now: Instant): Decimal
    requires WasSeeded(w)
  {
    Counted(NewExecutions(w), ExecutionId, EffectAt(a.market, now), Withheld(w.fillsQ.memory))
    + Counted(NewActivities(w), ActivityId, NetAmount, Withheld(w.cashQ.memory))
  }

  lemma OutstandingIsWithheld(a: Account, w: World, now: Instant)
    requires FillsSound(a, w) && CashSound(a, w) && AllPolled(a, w) && WasSeeded(w)
    ensures Outstanding(a, w, now) == WithheldCash(a, w, now)
  {
    PolledIsOnLedgerOrWithheld(a, w);
    hide FillsSound, CashSound, AllPolled, Withheld, FillIds, AdjustmentIds;
    MissingIsCounted(NewExecutions(w), ExecutionId, EffectAt(a.market, now), OnLedger(w), Withheld(w.fillsQ.memory));
    MissingIsCounted(NewActivities(w), ActivityId, NetAmount, OnCashLedger(w), Withheld(w.cashQ.memory));
  }

  /** Building the reconciliation takes nothing off the ledger and decides nothing. */
  lemma BuildKeepsPolled(a: Account, w: World, positions: seq<Position>)
    requires Sound(a, w) && AllPolled(a, w)
    ensures AllPolled(a, BuildStage(a, w, Uncut, positions))
  {
    hide Sound, AccountWiring.Seeding, Faithful, BrokerCash;
    SeedingSeeds(a, w, w.fillsQ.memory.PendingIds(), positions);
    var after := BuildStage(a, w, Uncut, positions);
    assert after.ledger.view.books == w.ledger.view.books;
    assert forall id :: FillSync.Known(SyncOf(w), id) <==> FillSync.Known(SyncOf(after), id);
    assert forall id :: CashEvents.Known(CashOf(w), id) <==> CashEvents.Known(CashOf(after), id);
    forall e | e in after.executions ensures FillSync.Handled(a.Desk(), after.clock, SyncOf(after), e) {
      assert FillSync.Handled(a.Desk(), w.clock, SyncOf(w), e);
    }
    forall act | act in after.activities ensures CashEvents.Handled(a.Till(), CashOf(after), act) {
      assert CashEvents.Handled(a.Till(), CashOf(w), act);
    }
  }

  lemma CompleteCycle(a: Account, w: World, reply: Reply)
    requires Sound(a, w) && Completes(a, w, Uncut, reply.orders)
    ensures Sound(a, Cycle(a, w, Uncut, reply)) && AllPolled(a, Cycle(a, w, Uncut, reply))
  {
    hide Sound, AllPolled, FillStage, ClosingStage, CashStage, BuildStage;
    CycleKeeps(a, w, Uncut, reply);
    CompletePolls(a, w, Uncut, reply.orders);
    BuildKeepsPolled(a, Polled(a, w, Uncut, reply.orders), reply.positions);
  }

  /** After any cycle that gets through its polls, in any run: every posted
      event is on the ledger or withheld, never both, and local settled cash is
      the broker's less the events since the seed that are pending or rejected,
      up to the three further terms. */
  lemma CashAfterACycle(a: Account, start: Decimal, clock: Instant, events: seq<Event>, reply: Reply, now: Instant)
    requires Plays(a, start, clock, events) && Completes(a, Run(a, start, clock, events), Uncut, reply.orders)
    ensures var w := Cycle(a, Run(a, start, clock, events), Uncut, reply);
            && (forall e :: e in w.executions ==>
                  (e.executionId !in OnLedger(w) <==> e.executionId in Withheld(w.fillsQ.memory)))
            && (forall act :: act in w.activities ==>
                  (act.activityId !in OnCashLedger(w) <==> act.activityId in Withheld(w.cashQ.memory)))
            && (w.ledger.view.opening.Some? ==>
                  && WasSeeded(w)
                  && LocalCash(a, w.ledger.view, now) ==
                     BrokerCash(a, w, now) - WithheldCash(a, w, now) - LateRejected(a, w, now)
                     + Doubled(w) + Repairs(w))
  {
    hide *;
    RunIsSound(a, start, clock, events);
    CompleteCycle(a, Run(a, start, clock, events), reply);
    var w := Cycle(a, Run(a, start, clock, events), Uncut, reply);
    SoundParts(a, w);
    PolledIsOnLedgerOrWithheld(a, w);
    if w.ledger.view.opening.Some? {
      SoundIdentity(a, w, now);
      OutstandingIsWithheld(a, w, now);
    }
  }

  lemma SoundParts(a: Account, w: World)
    requires Sound(a, w)
    ensures FillsSound(a, w) && CashSound(a, w) && SeedSound(a, w)
  {
  }

  /** Nothing since the seed is withheld, no rejected earlier sale settles by
      now, and no correction was added since. */
  ghost predicate Quiet(a: Account, w: World, now: Instant)
    requires WasSeeded(w)
  {
    && (forall e :: e in NewExecutions(w) ==> e.executionId in OnLedger(w))
    && (forall act :: act in NewActivities(w) ==> act.activityId in OnCashLedger(w))
    && (forall e :: e in OldExecutions(w) && e.executionId !in OnLedger(w) ==>
          LateEffect(a.market, w.seed.value.at, now)(e) == 0.0)
    && CorrectionsCash(w.ledger.view.books.corrections) == w.seed.value.netted
  }

  lemma QuietTerms(a: Account, w: World, now: Instant)
    requires WasSeeded(w) && Quiet(a, w, now)
    ensures Outstanding(a, w, now) == 0.0 && LateRejected(a, w, now) == 0.0 && Repairs(w) == 0.0
  {
    hide FillIds, AdjustmentIds, BrokerEffect;
    MissingNothing(NewExecutions(w), ExecutionId, EffectAt(a.market, now), OnLedger(w));
    MissingNothing(NewActivities(w), ActivityId, NetAmount, OnCashLedger(w));
    MissingNothing(OldExecutions(w), ExecutionId, LateEffect(a.market, w.seed.value.at, now), OnLedger(w));
  }

  /** Exact agreement. In any quiet seeded state of any run the two figures are
      equal if and only if the seed was backdated over fills, or the adjustments
      it found on the ledger added up to nothing. */
  lemma AgreesExactlyWhen(a: Account, start: Decimal, clock: Instant, events: seq<Event>, now: Instant)
    requires Plays(a, start, clock, events) && Run(a, start, clock, events).ledger.view.opening.Some?
    requires WasSeeded(Run(a, start, clock, events)) && Quiet(a, Run(a, start, clock, events), now)
    ensures var w := Run(a, start, clock, events);
            LocalCash(a, w.ledger.view, now) == BrokerCash(a, w, now) <==>
            !w.seed.value.raw || Counted(OldActivities(w), ActivityId, NetAmount, w.seed.value.applied) == 0.0
  {
    hide Run, Plays, Quiet, LocalCash, BrokerCash, Outstanding, LateRejected, Repairs, OldActivities, WasSeeded;
    CashIdentity(a, start, clock, events, now);
    QuietTerms(a, Run(a, start, clock, events), now);
  }

  // ---------------------------------------------------------------- the seed, once and for all

  /** b differs from a in its stores alone: the broker, the clock and the seed
      are the same. */
  ghost predicate SameOutside(w: World, after: World) {
    after == w.(ledger := after.ledger, fillsQ := after.fillsQ, cashQ := after.cashQ)
  }

  lemma StagesDoNotSeed(a: Account, w: World, cut: Cut, orders: map<string, OrderClosing.BrokerOrder>)
    ensures SameOutside(w, FillStage(a, w, cut).state)
    ensures SameOutside(w, ClosingStage(a, w, cut, orders).state)
    ensures SameOutside(w, CashStage(a, w, cut).state)
    ensures ClosingStage(a, w, cut, orders).state.fillsQ == w.fillsQ
    ensures CashStage(a, w, cut).state.fillsQ == w.fillsQ
  {
  }

  lemma SameFigure(a: Account, start: Decimal, executions: seq<Execution>, executions': seq<Execution>,
                   activities: seq<CashEvents.AccountActivity>, activities': seq<CashEvents.AccountActivity>, s: Seed)
    requires s.executions <= |executions| && s.activities <= |activities|
    requires executions <= executions' && activities <= activities'
    ensures SeedFigure(a, start, executions', activities', s) == SeedFigure(a, start, executions, activities, s)
  {
    assert executions'[..s.executions] == executions[..s.executions];
    assert activities'[..s.activities] == activities[..s.activities];
  }

  /** What was true at the seed is a fact for good. */
  lemma SeedIsForever(a: Account, w: World, e: Event)
    requires Sound(a, w) && Possible(w, e) && w.seed.Some?
    ensures After(a, w, e).seed == w.seed
    ensures After(a, w, e).ledger.view.opening == w.ledger.view.opening
    ensures w.executions <= After(a, w, e).executions && w.activities <= After(a, w, e).activities
  {
    StepKeeps(a, w, e);
    var after := After(a, w, e);
    SeedKept(a, w, e);
    hide After, FillsSound, CashSound, SeedFigure, ExecutionFrozen, ActivityFrozen;
    SameFigure(a, w.start, w.executions, after.executions, w.activities, after.activities, w.seed.value);
  }

  lemma SeedKept(a: Account, w: World, e: Event)
    requires Sound(a, w) && w.seed.Some?
    ensures var after := After(a, w, e);
            && after.seed == w.seed && after.start == w.start
            && w.executions <= after.executions && w.activities <= after.activities
  {
    hide FillsSound, CashSound, FillStage, ClosingStage, CashStage, AccountWiring.Seeding, AccountWiring.SeedingCut,
         FillAccounting.After, FillAccounting.Reloaded, EntryWritten, DecidedCash, Quarantine.ReplayRows, SeedFigure,
         ExecutionFrozen, ActivityFrozen;
    if e.Cycled? {
      CycleKeepsSeed(a, w, e.cut, e.reply);
    }
  }

  lemma CycleKeepsSeed(a: Account, w: World, cut: Cut, reply: Reply)
    requires Sound(a, w) && w.seed.Some?
    ensures var after := Cycle(a, w, cut, reply);
            && after.seed == w.seed && after.start == w.start
            && after.executions == w.executions && after.activities == w.activities
  {
    hide Sound, FillStage, ClosingStage, CashStage, BuildStage;
    FillStageKeeps(a, w, cut);
    StagesDoNotSeed(a, w, cut, reply.orders);
    var fills := FillStage(a, w, cut).state;
    ClosingStageKeeps(a, fills, cut, reply.orders);
    StagesDoNotSeed(a, fills, cut, reply.orders);
    var closed := ClosingStage(a, fills, cut, reply.orders).state;
    CashStageKeeps(a, closed, cut);
    StagesDoNotSeed(a, closed, cut, reply.orders);
    BuildKeepsSeed(a, CashStage(a, closed, cut).state, cut, reply.positions);
  }

  lemma BuildKeepsSeed(a: Account, w: World, cut: Cut, positions: seq<Position>)
    requires Sound(a, w)
    ensures var after := BuildStage(a, w, cut, positions);
            && after == w.(ledger := after.ledger, seed := after.seed)
            && (w.seed.Some? ==> after.seed == w.seed)
            && (w.seed.None? && after.seed.Some? ==>
                  after.seed == Some(SeedNow(w)) && after.fillsQ.memory.PendingIds() == {})
  {
    SoundParts(a, w);
    hide FillsSound, CashSound, AccountWiring.Seeding, AccountWiring.SeedingCut, SeedFigure, ExecutionFrozen,
         ActivityFrozen, JustSeeded;
    SeedingSeeds(a, w, w.fillsQ.memory.PendingIds(), positions);
    SeedingCutSeeds(a, w, w.fillsQ.memory.PendingIds(), positions, if cut.InPositions? then cut.k else 0);
  }

  /** Seeding happens in a cycle, with nothing pending, and every execution the
      broker has posted by then is recorded or rejected. */
  lemma SeedsOverNothingPending(a: Account, w: World, e: Event)
    requires Sound(a, w) && Possible(w, e) && w.seed.None? && After(a, w, e).seed.Some?
    ensures e.Cycled?
    ensures var after := After(a, w, e);
            && after.fillsQ.memory.PendingIds() == {}
            && after.seed.value.at == w.clock
            && after.executions == w.executions && after.seed.value.executions == |w.executions|
            && (forall x :: x in after.executions ==>
                  x.executionId in OnLedger(after) || FillAccounting.IsRejected(SyncOf(after), x))
  {
    OnlyCyclesSeed(a, w, e);
    StepKeeps(a, w, e);
    var after := After(a, w, e);
    hide Cycle, Sound, Possible;
    CycleSeeds(a, w, e.cut, e.reply);
    OldIsSettled(a, after);
  }

  lemma OnlyCyclesSeed(a: Account, w: World, e: Event)
    requires w.seed.None? && After(a, w, e).seed.Some?
    ensures e.Cycled?
  {
    hide Cycle, FillAccounting.After, FillAccounting.Reloaded, DecidedCash, EntryWritten, Quarantine.ReplayRows;
  }

  lemma CycleSeeds(a: Account, w: World, cut: Cut, reply: Reply)
    requires Sound(a, w) && w.seed.None? && Cycle(a, w, cut, reply).seed.Some?
    ensures var after := Cycle(a, w, cut, reply);
            && after.fillsQ.memory.PendingIds() == {}
            && after.seed.value.at == w.clock
            && after.executions == w.executions && after.seed.value.executions == |w.executions|
  {
    hide Sound, FillStage, ClosingStage, CashStage, BuildStage;
    FillStageKeeps(a, w, cut);
    StagesDoNotSeed(a, w, cut, reply.orders);
    var fills := FillStage(a, w, cut).state;
    ClosingStageKeeps(a, fills, cut, reply.orders);
    StagesDoNotSeed(a, fills, cut, reply.orders);
    var closed := ClosingStage(a, fills, cut, reply.orders).state;
    CashStageKeeps(a, closed, cut);
    StagesDoNotSeed(a, closed, cut, reply.orders);
    BuildKeepsSeed(a, CashStage(a, closed, cut).state, cut, reply.positions);
  }

  lemma OldIsSettled(a: Account, w: World)
    requires Sound(a, w) && w.seed.Some?
    ensures WasSeeded(w)
    ensures forall x :: x in OldExecutions(w) ==>
              x.executionId in OnLedger(w) || FillAccounting.IsRejected(SyncOf(w), x)
    ensures w.seed.value.executions == |w.executions| ==> OldExecutions(w) == w.executions
  {
    hide CashSound, SeedFigure, TapeOf, Faithful, Quarantine.Faithful, DistinctKeys;
    OldIsFrozen(a, w);
    var s := w.seed.value;
    forall x | x in OldExecutions(w) ensures x.executionId in OnLedger(w) || FillAccounting.IsRejected(SyncOf(w), x) {
      var i :| 0 <= i < s.executions && w.executions[i] == x;
      assert ExecutionFrozen(SyncOf(w), s.recorded, w.executions[i].executionId);
    }
  }

  /** Nothing from before the seed is ever counted again: however the run goes
      on, what the broker had posted by the seed is on the ledger exactly if it
      was on the ledger then. */
  lemma {:induction false} NothingOldComesBack(a: Account, start: Decimal, clock: Instant, events: seq<Event>, n: nat)
    requires Plays(a, start, clock, events) && n <= |events| && Run(a, start, clock, events[..n]).seed.Some?
    ensures var earlier, later := Run(a, start, clock, events[..n]), Run(a, start, clock, events);
            && later.seed == earlier.seed && later.ledger.view.opening == earlier.ledger.view.opening
            && WasSeeded(earlier) && WasSeeded(later) && OldExecutions(later) == OldExecutions(earlier)
            && OldActivities(later) == OldActivities(earlier)
            && (forall e :: e in OldExecutions(earlier) ==>
                  (e.executionId in OnLedger(later) <==> e.executionId in OnLedger(earlier)))
            && (forall act :: act in OldActivities(earlier) ==>
                  (act.activityId in OnCashLedger(later) <==> act.activityId in OnCashLedger(earlier)))
    decreases |events|
  {
    hide Sound, After, Possible, FillIds, AdjustmentIds;
    if n == |events| {
      assert events[..n] == events;
      RunIsSound(a, start, clock, events);
      OldIsFrozen(a, Run(a, start, clock, events));
    } else {
      var front := events[..|events| - 1];
      assert front[..n] == events[..n];
      NothingOldComesBack(a, start, clock, front, n);
      RunIsSound(a, start, clock, front);
      RunIsSound(a, start, clock, events);
      SeedIsForever(a, Run(a, start, clock, front), events[|events| - 1]);
      OldIsFrozen(a, Run(a, start, clock, front));
      OldIsFrozen(a, Run(a, start, clock, events));
    }
  }

  // ---------------------------------------------------------------- whether there is an answer at all

  /** Exactly when a seeded account is reconciled: in any run, the reconciliation
      is built, and shows the cash of the identity, if and only if the seed was
      not negative and every fill on the ledger settles within the calendar. */
  lemma BuildsExactlyWhen(a: Account, start: Decimal, clock: Instant, events: seq<Event>, positions: seq<Position>)
    requires Plays(a, start, clock, events) && Run(a, start, clock, events).ledger.view.opening.Some?
    ensures var w := Run(a, start, clock, events);
            var opening, books := w.ledger.view.opening.value, w.ledger.view.books;
            && BuildRefusal(a, w, positions) ==
               (if opening < 0.0 then Some(AccountWiring.StoreRefused(FromLedger(NegativeOpening)))
                else if forall f :: f in books.fills ==> SettlementInstant(a.market, f.filledAt).Some? then None
                else Some(AccountWiring.CalendarFailed))
            && (BuildRefusal(a, w, positions).None? ==>
                  SettledCashOf(a.market, opening, books, w.clock) == Some(LocalCash(a, w.ledger.view, w.clock)))
  {
    hide Run, Plays, BrokerCash, LocalCash, SettledCashOf, SettlementInstant;
    var w := Run(a, start, clock, events);
    RunIsSound(a, start, clock, events);
    FillsAreOk(a, w);
    AccountWiring.ReadsExactlyWhen(a.market, a.owner, w.ledger, w.clock);
    SettledCashAnswers(a, w.ledger.view, w.clock);
    hide AccountWiring.ReadFailure;
  }

  lemma FillsAreOk(a: Account, w: World)
    requires Sound(a, w)
    ensures FillsOk(a.owner, w.ledger.view.books.fills)
  {
  }

  /** A negative seed is for good: from then on, whatever happens and however the
      account stands, no reconciliation is ever built again. */
  lemma NegativeSeedIsForever(a: Account, start: Decimal, clock: Instant, events: seq<Event>, n: nat,
                              positions: seq<Position>)
    requires Plays(a, start, clock, events) && n <= |events|
    requires var seeded := Run(a, start, clock, events[..n]);
             seeded.seed.Some? && seeded.ledger.view.opening.Some? && seeded.ledger.view.opening.value < 0.0
    ensures BuildRefusal(a, Run(a, start, clock, events), positions) ==
            Some(AccountWiring.StoreRefused(FromLedger(NegativeOpening)))
  {
    hide Run, Plays, BuildRefusal, OldExecutions, OldActivities;
    NothingOldComesBack(a, start, clock, events, n);
    BuildsExactlyWhen(a, start, clock, events, positions);
  }

  /** It happens: nothing stops a first start beside a negative broker figure
      from writing it. */
  lemma NegativeFigureIsSeeded(m: Market, events: seq<Event>, positions: seq<Position>)
    requires Plays(Account(m, Owner("A", map[]), 1.0), -1.0, 0, events)
    requires events != [] && events[0] == Cycled(Uncut, NOTHING)
    ensures var a := Account(m, Owner("A", map[]), 1.0);
            BuildRefusal(a, Run(a, -1.0, 0, events), positions) ==
            Some(AccountWiring.StoreRefused(FromLedger(NegativeOpening)))
  {
    var a, w := Account(m, Owner("A", map[]), 1.0), NewWorld(-1.0, 0);
    hide Plays, BuildRefusal, BrokerCash;
    assert events[..1] == [Cycled(Uncut, NOTHING)] && [Cycled(Uncut, NOTHING)][..0] == [];
    NothingToPoll(a, w, Uncut);
    NothingToClose(a, w, Uncut);
    NothingToApply(a, w);
    NegativeFirstBuild(a, w);
    hide FillStage, ClosingStage, CashStage, BuildStage;
    assert Run(a, -1.0, 0, []) == w;
    assert Run(a, -1.0, 0, events[..1]) == Cycle(a, w, Uncut, NOTHING) == BuildStage(a, w, Uncut, []);
    NegativeSeedIsForever(a, -1.0, 0, events, 1, positions);
  }

  lemma NothingToApply(a: Account, w: World)
    requires w.activities == []
    ensures CashStage(a, w, Uncut) == Progress(w, None)
  {
  }

  lemma NegativeFirstBuild(a: Account, w: World)
    requires w == NewWorld(-1.0, 0)
    ensures var after := BuildStage(a, w, Uncut, []);
            after.seed.Some? && after.ledger.view.opening == Some(-1.0)
  {
    assert BrokerCash(a, w, 0) == -1.0;
    assert w.fillsQ.memory.PendingIds() == {};
    hide BrokerCash;
  }

  // ---------------------------------------------------------------- the raw branch, concretely

  const NOTHING := Reply(map[], [])

  /** A regulatory fee posted, and applied on first sight, before any baseline
      exists: with no fills on record the raw broker figure, which already
      shows the fee, becomes the opening balance beside it. */
  lemma FeeCountedTwice(m: Market)
    ensures var a := Account(m, Owner("A", map[]), 1.0);
            var fee := CashEvents.AccountActivity("fee", "A", "FEE", Some("CAT"), -0.05, 0, Some(0), None, "");
            var events := [ActivityPosted(fee), Cycled(Uncut, NOTHING)];
            && Plays(a, 100.0, 0, events)
            && var w := Run(a, 100.0, 0, events);
               && w.ledger.view.opening.Some?
               && BrokerCash(a, w, 0) == 99.95
               && LocalCash(a, w.ledger.view, 0) == 99.90
  {
    hide ClosingStage, CashStage, BuildStage, LocalCash, BrokerCash, FillAccounting.After, FillAccounting.Reloaded,
         DecidedCash, EntryWritten, ReloadedCash;
    var a := Account(m, Owner("A", map[]), 1.0);
    var fee := CashEvents.AccountActivity("fee", "A", "FEE", Some("CAT"), -0.05, 0, Some(0), None, "");
    var posted, cycled := ActivityPosted(fee), Cycled(Uncut, NOTHING);
    var events := [posted, cycled];
    var w0 := NewWorld(100.0, 0);
    var w1 := w0.(activities := [fee]);
    assert events[..1] == [posted] && [posted][..0] == [];
    assert Run(a, 100.0, 0, []) == w0;
    assert w0.activities + [fee] == [fee];
    assert Run(a, 100.0, 0, [posted]) == w1;
    assert Plays(a, 100.0, 0, []) && Plays(a, 100.0, 0, [posted]);
    NothingToPoll(a, w1, Uncut);
    NothingToClose(a, w1, Uncut);
    FeeAppliedAtOnce(a, w1, fee);
    var applied := CashStage(a, w1, Uncut).state;
    FeeThenRawSeed(a, applied, fee);
    hide FillStage, ClosingStage;
    assert Cycle(a, w1, Uncut, NOTHING) == BuildStage(a, applied, Uncut, []);
    assert Run(a, 100.0, 0, events) == Cycle(a, w1, Uncut, NOTHING);
  }

  lemma NothingToPoll(a: Account, w: World, cut: Cut)
    requires w.executions == []
    ensures FillStage(a, w, cut) == Progress(w, None)
  {
  }

  lemma NothingToClose(a: Account, w: World, cut: Cut)
    requires w.ledger.view.books.orders == []
    ensures ClosingStage(a, w, cut, map[]) == Progress(w, None)
  {
    var asked := OrderClosing.AskedFor([]);
    FirstIsListed(asked);
  }

  lemma FeeAppliedAtOnce(a: Account, w: World, fee: CashEvents.AccountActivity)
    requires a.owner.accountId == "A" && a.ceiling == 1.0 && w == NewWorld(100.0, 0).(activities := [fee])
    requires fee == CashEvents.AccountActivity("fee", "A", "FEE", Some("CAT"), -0.05, 0, Some(0), None, "")
    ensures var r := CashStage(a, w, Uncut);
            r.error.None? && r.state == w.(ledger := r.state.ledger)
            && r.state.ledger.view == NEW_VIEW.(books := EMPTY.(adjustments := [CashEvents.AdjustmentFor(fee)]))
  {
    var t, s := a.Till(), CashOf(w);
    assert [fee][..0] == [];
    assert CashEvents.CashPass(t, 0, s, []) == Progress(s, None);
    assert CashEvents.AutoAdmittable(fee, 1.0);
    assert AdjustmentVerdict(a.owner, [], CashEvents.AdjustmentFor(fee)) == Append;
    assert CashEvents.CashOne(t, 0, s, fee) == CashEvents.Apply(t, s, fee);
    assert EMPTY.adjustments + [CashEvents.AdjustmentFor(fee)] == [CashEvents.AdjustmentFor(fee)];
  }

  lemma FeeThenRawSeed(a: Account, w: World, fee: CashEvents.AccountActivity)
    requires a.owner.accountId == "A" && fee.netAmount == -0.05
    requires w.start == 100.0 && w.clock == 0 && w.executions == [] && w.activities == [fee] && w.seed.None?
    requires w.fillsQ == Quarantine.Fresh()
    requires w.ledger.view == NEW_VIEW.(books := EMPTY.(adjustments := [CashEvents.AdjustmentFor(fee)]))
    ensures var after := BuildStage(a, w, Uncut, []);
            after.ledger.view.opening == Some(99.95) && BrokerCash(a, after, 0) == 99.95
            && LocalCash(a, after.ledger.view, 0) == 99.90
  {
    assert w.activities[..0] == [];
    assert Total(w.activities[..0], NetAmount) == 0.0;
    assert Total(w.activities, NetAmount) == Total(w.activities[..0], NetAmount) + NetAmount(fee);
    assert Total(w.executions, EffectAt(a.market, 0)) == 0.0;
    assert BrokerCash(a, w, 0) == 99.95;
    assert w.fillsQ.memory.PendingIds() == {};
    var adapter := AdapterAt(a, w, []);
    AccountWiring.SeedingFrame(a.market, a.owner, w.ledger, {}, adapter, 0);
    var after := BuildStage(a, w, Uncut, []);
    assert after.ledger.view.opening == Some(99.95);
    var adjustments := after.ledger.view.books.adjustments;
    assert adjustments == [CashEvents.AdjustmentFor(fee)] && adjustments[..0] == [];
    assert AdjustmentsCash(adjustments) == -0.05;
  }
}
