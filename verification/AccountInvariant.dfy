/** What every step of a run keeps true of an account: both polls account for
    what the broker posted, and what was settled at the seed stays settled. */
module AccountInvariant {
  import opened Wrappers
  import opened Money
  import opened MarketCalendar
  import opened LedgerBooks
  import opened LedgerFile
  import opened PollLoop
  import opened ExecutionQuarantine
  import opened Tally
  import opened AccountRun
  import AccountWiring
  import CashEvents
  import FillAccounting
  import FillSync
  import OrderClosing
  import Quarantine

  // ---------------------------------------------------------------- the invariant

  /** The broker's executions by id. */
  function TapeOf(executions: seq<Execution>): FillAccounting.Tape {
    if executions == [] then map[]
    else
      var last := executions[|executions| - 1];
      TapeOf(executions[..|executions| - 1])[last.executionId := last]
  }

  lemma {:induction false} TapeHolds(executions: seq<Execution>)
    requires DistinctKeys(executions, ExecutionId)
    ensures FillAccounting.OnTape(TapeOf(executions), executions)
    ensures forall id :: id in TapeOf(executions) ==>
              TapeOf(executions)[id] in executions && TapeOf(executions)[id].executionId == id
  {
    if executions != [] {
      var front, last := executions[..|executions| - 1], executions[|executions| - 1];
      TapeHolds(front);
      forall e | e in executions ensures e.executionId in TapeOf(executions) && TapeOf(executions)[e.executionId] == e {
        if e != last {
          var i :| 0 <= i < |executions| && executions[i] == e;
          assert front[i] == e && ExecutionId(executions[i]) != ExecutionId(last);
        }
      }
    }
  }

  ghost predicate FillsSound(a: Account, w: World) {
    && DistinctKeys(w.executions, ExecutionId)
    && FillAccounting.Accounted(a.Desk(), TapeOf(w.executions), SyncOf(w))
  }

  ghost predicate ComesFrom(x: CashAdjustment, activities: seq<CashEvents.AccountActivity>) {
    exists act :: act in activities && x == CashEvents.AdjustmentFor(act)
  }

  ghost predicate CashSound(a: Account, w: World) {
    var memory := w.cashQ.memory;
    && DistinctKeys(w.activities, ActivityId)
    && Quarantine.Faithful(a.Till().rules, w.cashQ)
    && (forall x :: x in w.ledger.view.books.adjustments ==> ComesFrom(x, w.activities))
    && (forall id :: id in memory.items ==>
          memory.items[id].activity in w.activities && memory.items[id].activity.activityId == id)
    && (forall id :: id in memory.resolutions ==> id in memory.items && !memory.resolutions[id].decision.OtherDecision?)
    && (forall id :: id in memory.items && CashEvents.Known(CashOf(w), id) ==>
          id in memory.resolutions && memory.resolutions[id].decision == Quarantine.Admitted)
    && (forall act :: act in w.activities && act.createdAt.Some? ==> act.createdAt.value <= w.clock)
  }

  /** Recorded at the seed and still so, or rejected before it and so for good. */
  predicate ExecutionFrozen(s: FillSync.Sync, recorded: set<string>, id: string) {
    if id in recorded then FillSync.Known(s, id)
    else
      && !FillSync.Known(s, id)
      && id in s.quarantine.memory.resolutions
      && s.quarantine.memory.resolutions[id].decision != Quarantine.Admitted
  }

  /** Applied before the seed, or put aside before it and never to be admitted:
      the guard refuses it. */
  predicate ActivityFrozen(s: CashEvents.Cash, applied: set<string>, at: Instant, act: CashEvents.AccountActivity) {
    if act.activityId in applied then CashEvents.Known(s, act.activityId)
    else
      && !CashEvents.Known(s, act.activityId)
      && act.activityId in s.quarantine.memory.items
      && (act.activityId in s.quarantine.memory.resolutions ==>
            s.quarantine.memory.resolutions[act.activityId].decision != Quarantine.Admitted)
      && (act.createdAt.Some? ==> act.createdAt.value <= at)
  }

  /** The figure the seed wrote, in terms of what the broker had posted. */
  function SeedFigure(a: Account, start: Decimal, executions: seq<Execution>,
                      activities: seq<CashEvents.AccountActivity>, s: Seed)
    : Decimal
    requires s.executions <= |executions| && s.activities <= |activities|
  {
    var xs, ys := executions[..s.executions], activities[..s.activities];
    start + Total(xs, EffectAt(a.market, s.at)) + Total(ys, NetAmount)
    - if s.raw then 0.0
      else
        Counted(xs, ExecutionId, EffectAt(a.market, s.at), s.recorded)
        + Counted(ys, ActivityId, NetAmount, s.applied) + s.netted
  }

  ghost predicate SeedSound(a: Account, w: World) {
    && (w.seed.Some? <==> w.ledger.view.opening.Some?)
    && (w.seed.Some? ==>
          var s := w.seed.value;
          && w.ledger.view.openingAt == Some(s.at) && s.at <= w.clock
          && s.executions <= |w.executions| && s.activities <= |w.activities|
          && w.ledger.view.opening.value == SeedFigure(a, w.start, w.executions, w.activities, s)
          && (s.raw ==> s.recorded == {} && s.netted == 0.0)
          && (forall i :: 0 <= i < s.executions ==> ExecutionFrozen(SyncOf(w), s.recorded, w.executions[i].executionId))
          && (forall i :: 0 <= i < s.activities ==> ActivityFrozen(CashOf(w), s.applied, s.at, w.activities[i])))
  }

  ghost predicate Sound(a: Account, w: World) {
    FillsSound(a, w) && CashSound(a, w) && SeedSound(a, w)
  }

  /** The seed's part survives any step that keeps the opening layer and thaws
      nothing. */
  lemma SeedStays(a: Account, w: World, after: World)
    requires SeedSound(a, w)
    requires after.start == w.start && after.seed == w.seed && w.clock <= after.clock
    requires w.executions <= after.executions && w.activities <= after.activities
    requires after.ledger.view.opening == w.ledger.view.opening
    requires after.ledger.view.openingAt == w.ledger.view.openingAt
    requires w.seed.Some? ==> forall i :: 0 <= i < w.seed.value.executions ==>
               ExecutionFrozen(SyncOf(after), w.seed.value.recorded, w.executions[i].executionId)
    requires w.seed.Some? ==> forall i :: 0 <= i < w.seed.value.activities ==>
               ActivityFrozen(CashOf(after), w.seed.value.applied, w.seed.value.at, w.activities[i])
    ensures SeedSound(a, after)
  {
    hide ExecutionFrozen, ActivityFrozen;
    if w.seed.Some? {
      var s := w.seed.value;
      assert after.executions[..s.executions] == w.executions[..s.executions];
      assert after.activities[..s.activities] == w.activities[..s.activities];
      forall i | 0 <= i < s.executions
        ensures ExecutionFrozen(SyncOf(after), s.recorded, after.executions[i].executionId)
      {
        assert after.executions[i] == w.executions[i];
      }
      forall i | 0 <= i < s.activities ensures ActivityFrozen(CashOf(after), s.applied, s.at, after.activities[i]) {
        assert after.activities[i] == w.activities[i];
      }
    }
  }

  // ---------------------------------------------------------------- what the fill poll leaves alone

  /** b differs from a at most in the list of fills. */
  predicate SameButFills(a: View, b: View) {
    b == a.(books := a.books.(fills := b.books.fills))
  }

  lemma OneLeavesAlone(d: FillSync.Desk, now: Instant, s: FillSync.Sync, e: Execution, recorded: set<string>)
    requires FillSync.SyncOne(d, now, s, e).Ok?
    ensures var after := FillSync.SyncOne(d, now, s, e).value;
            && SameButFills(s.ledger.view, after.ledger.view)
            && forall id :: ExecutionFrozen(s, recorded, id) ==> ExecutionFrozen(after, recorded, id)
  {
    var after := FillSync.SyncOne(d, now, s, e).value;
    var id := e.executionId;
    if after.ledger != s.ledger {
      var memory := s.quarantine.memory;
      if id in memory.resolutions {
        var r := memory.resolutions[id];
        RecordLeavesAlone(d, s, if e.side.Buy? then FillSync.FillFor(e, id, r.policyVersion)
                                else FillSync.FillFor(e, r.lotId.GetOr(""), None), recorded);
      } else {
        var record := LatestRecord(s.ledger.view.books.orders, e.clientOrderId);
        RecordLeavesAlone(d, s, if e.side.Buy? then FillSync.FillFor(e, id, record.value.policyVersion)
                                else FillSync.FillFor(e, record.value.lotId.value, None), recorded);
      }
    }
  }

  lemma RecordLeavesAlone(d: FillSync.Desk, s: FillSync.Sync, f: Fill, recorded: set<string>)
    requires FillSync.Record(d, s, f).Ok? && !FillSync.Known(s, f.fillId)
    requires f.fillId in s.quarantine.memory.resolutions ==>
               s.quarantine.memory.resolutions[f.fillId].decision == Quarantine.Admitted
    ensures var after := FillSync.Record(d, s, f).value;
            && SameButFills(s.ledger.view, after.ledger.view)
            && after.quarantine == s.quarantine
            && forall id :: ExecutionFrozen(s, recorded, id) ==> ExecutionFrozen(after, recorded, id)
  {
    hide FillVerdict;
    var fills, fills' := s.ledger.view.books.fills, FillSync.Record(d, s, f).value.ledger.view.books.fills;
    assert fills' == fills || fills' == fills + [f];
    forall id ensures HasFill(fills', id) <==> HasFill(fills, id) || (fills' != fills && id == f.fillId) {
      if HasFill(fills, id) {
        var g :| g in fills && g.fillId == id;
        assert g in fills';
      }
      if fills' != fills {
        assert f in fills';
      }
    }
  }

  lemma {:induction false} PassLeavesAlone(d: FillSync.Desk, now: Instant, s: FillSync.Sync, report: seq<Execution>,
                                           recorded: set<string>)
    ensures var after := FillSync.SyncPass(d, now, s, report).state;
            && SameButFills(s.ledger.view, after.ledger.view)
            && forall id :: ExecutionFrozen(s, recorded, id) ==> ExecutionFrozen(after, recorded, id)
  {
    hide FillSync.SyncOne, ExecutionFrozen;
    if report != [] {
      var front, last := report[..|report| - 1], report[|report| - 1];
      PassLeavesAlone(d, now, s, front, recorded);
      var before := FillSync.SyncPass(d, now, s, front);
      if before.error.None? && FillSync.SyncOne(d, now, before.state, last).Ok? {
        OneLeavesAlone(d, now, before.state, last, recorded);
      }
    }
  }

  /** The fill stage of a cycle, whole or cut. */
  lemma FillStageKeeps(a: Account, w: World, cut: Cut)
    requires Sound(a, w)
    ensures Sound(a, FillStage(a, w, cut).state)
    ensures FillStage(a, w, cut).state == w.(ledger := FillStage(a, w, cut).state.ledger,
                                             fillsQ := FillStage(a, w, cut).state.fillsQ)
  {
    hide FillAccounting.Accounted, FillSync.SyncPass, TapeOf, ExecutionFrozen, ActivityFrozen, SeedFigure;
    var report := FirstOf(w.executions, cut.InFills?, if cut.InFills? then cut.k else 0);
    TapeHolds(w.executions);
    PartOnTape(TapeOf(w.executions), w.executions, report);
    FillAccounting.PassKeepsAccounted(a.Desk(), TapeOf(w.executions), w.clock, SyncOf(w), report);
    PassLeavesAlone(a.Desk(), w.clock, SyncOf(w), report, if w.seed.Some? then w.seed.value.recorded else {});
    var after := FillStage(a, w, cut).state;
    assert SyncOf(after) == FillSync.SyncPass(a.Desk(), w.clock, SyncOf(w), report).state;
    FillsDoNotTouchCash(a, w, after);
  }

  lemma PartOnTape(tape: FillAccounting.Tape, all: seq<Execution>, part: seq<Execution>)
    requires FillAccounting.OnTape(tape, all) && part <= all
    ensures FillAccounting.OnTape(tape, part)
  {
    forall e | e in part ensures e in all {
      var i :| 0 <= i < |part| && part[i] == e;
      assert all[i] == e;
    }
  }

  lemma FillsDoNotTouchCash(a: Account, w: World, after: World)
    requires CashSound(a, w) && after == w.(ledger := after.ledger, fillsQ := after.fillsQ)
    requires after.ledger.view.books.adjustments == w.ledger.view.books.adjustments
    ensures CashSound(a, after)
    ensures forall applied, at, act ::
              ActivityFrozen(CashOf(w), applied, at, act) ==> ActivityFrozen(CashOf(after), applied, at, act)
  {
    assert forall id :: CashEvents.Known(CashOf(w), id) <==> CashEvents.Known(CashOf(after), id);
  }

  // ---------------------------------------------------------------- the cash poll

  /** Whatever leaves fills and their quarantine as they are keeps their part. */
  lemma CashDoesNotTouchFills(a: Account, w: World, after: World)
    requires FillsSound(a, w) && after == w.(ledger := after.ledger, cashQ := after.cashQ)
    requires Faithful(a.owner, after.ledger) && after.ledger.view.books.fills == w.ledger.view.books.fills
    ensures FillsSound(a, after)
    ensures forall recorded, id ::
              ExecutionFrozen(SyncOf(w), recorded, id) ==> ExecutionFrozen(SyncOf(after), recorded, id)
  {
    hide Faithful, Quarantine.Faithful, TapeOf, DistinctKeys;
    assert forall id :: FillSync.Known(SyncOf(w), id) <==> FillSync.Known(SyncOf(after), id);
  }

  lemma ApplyKeeps(a: Account, w: World, act: CashEvents.AccountActivity)
    requires Sound(a, w) && act in w.activities && CashEvents.Apply(a.Till(), CashOf(w), act).Ok?
    requires !CashEvents.Known(CashOf(w), act.activityId)
    requires act.activityId in w.cashQ.memory.items ==>
               act.activityId in w.cashQ.memory.resolutions
               && w.cashQ.memory.resolutions[act.activityId].decision == Quarantine.Admitted
    ensures Sound(a, WithCash(w, CashEvents.Apply(a.Till(), CashOf(w), act).value))
  {
    hide FillsSound, FillAccounting.Accounted, Faithful, Quarantine.Faithful, DistinctKeys, ExecutionFrozen,
         SeedFigure;
    var e := AdjustmentEntry(CashEvents.AdjustmentFor(act));
    var after := WithCash(w, CashEvents.Apply(a.Till(), CashOf(w), act).value);
    CashEvents.AppliedIsKnown(a.Till(), CashOf(w), act);
    LedgerIsFaithful(a, w);
    FillAccounting.EntryKeepsFaithful(a.Desk(), SyncOf(w), e);
    CashDoesNotTouchFills(a, w, after);
    OnlyOneMore(w.ledger.view.books.adjustments, CashEvents.AdjustmentFor(act));
    hide CashEvents.Apply, CashEvents.AdjustmentFor;
    assert CashSound(a, after);
  }

  lemma OnlyOneMore(adjustments: seq<CashAdjustment>, x: CashAdjustment)
    ensures forall b :: b in adjustments + [x] <==> b in adjustments || b == x
  {
  }

  lemma LedgerIsFaithful(a: Account, w: World)
    requires FillsSound(a, w)
    ensures Faithful(a.owner, w.ledger) && Quarantine.Faithful(a.Desk().rules, w.fillsQ)
  {
  }

  lemma PutKeeps(a: Account, w: World, act: CashEvents.AccountActivity, item: CashEvents.QuarantinedCashEvent)
    requires Sound(a, w) && act in w.activities && item.activity == act
    requires !CashEvents.Known(CashOf(w), act.activityId) && act.activityId !in w.cashQ.memory.items
    requires Quarantine.PutAside(a.Till().rules, w.cashQ, act.activityId, item).Ok?
    ensures Sound(a, w.(cashQ := Quarantine.PutAside(a.Till().rules, w.cashQ, act.activityId, item).value))
  {
    hide FillsSound, CashSound, DistinctKeys, ExecutionFrozen, SeedFigure, CashEvents.Known, Faithful;
    var after := w.(cashQ := Quarantine.PutAside(a.Till().rules, w.cashQ, act.activityId, item).value);
    LedgerIsFaithful(a, w);
    CashDoesNotTouchFills(a, w, after);
    PutKeepsCash(a, w, act, item);
    SameAdjustments(CashOf(w), CashOf(after));
    SeedStays(a, w, after);
  }

  lemma SameAdjustments(s: CashEvents.Cash, t: CashEvents.Cash)
    requires t.ledger.view.books.adjustments == s.ledger.view.books.adjustments
    ensures forall id :: CashEvents.Known(s, id) <==> CashEvents.Known(t, id)
  {
  }

  lemma PutKeepsCash(a: Account, w: World, act: CashEvents.AccountActivity, item: CashEvents.QuarantinedCashEvent)
    requires CashSound(a, w) && act in w.activities && item.activity == act
    requires !CashEvents.Known(CashOf(w), act.activityId) && act.activityId !in w.cashQ.memory.items
    requires Quarantine.PutAside(a.Till().rules, w.cashQ, act.activityId, item).Ok?
    ensures CashSound(a, w.(cashQ := Quarantine.PutAside(a.Till().rules, w.cashQ, act.activityId, item).value))
  {
    hide Quarantine.Faithful, DistinctKeys, ComesFrom, CashEvents.Known;
    var after := w.(cashQ := Quarantine.PutAside(a.Till().rules, w.cashQ, act.activityId, item).value);
    Quarantine.WriteKeepsFaithful(a.Till().rules, w.cashQ, Quarantine.Put(act.activityId, item));
    SameAdjustments(CashOf(w), CashOf(after));
  }

  lemma OneActivityKeeps(a: Account, w: World, act: CashEvents.AccountActivity)
    requires Sound(a, w) && act in w.activities && CashEvents.CashOne(a.Till(), w.clock, CashOf(w), act).Ok?
    ensures Sound(a, WithCash(w, CashEvents.CashOne(a.Till(), w.clock, CashOf(w), act).value))
  {
    hide Sound, CashEvents.Known, CashEvents.Apply, Quarantine.PutAside, CashEvents.DisqualifyingReason;
    var after := CashEvents.CashOne(a.Till(), w.clock, CashOf(w), act).value;
    var memory := w.cashQ.memory;
    if after == CashOf(w) {
      assert WithCash(w, after) == w;
    } else if act.activityId in memory.resolutions {
      ApplyKeeps(a, w, act);
    } else {
      var refusal := if CashEvents.AutoAdmittable(act, a.ceiling)
                     then CashEvents.RefuseAdmission(act.createdAt, w.ledger.view.openingAt) else None;
      if CashEvents.AutoAdmittable(act, a.ceiling) && refusal.None? {
        ApplyKeeps(a, w, act);
      } else {
        var reason := if refusal.Some? then Some(CashEvents.Baseline(refusal.value))
                      else CashEvents.DisqualifyingReason(act, a.ceiling);
        PutKeeps(a, w, act, CashEvents.QuarantinedCashEvent(act, reason, w.clock));
      }
    }
  }

  lemma {:induction false} CashPassKeeps(a: Account, w: World, report: seq<CashEvents.AccountActivity>)
    requires Sound(a, w) && forall act :: act in report ==> act in w.activities
    ensures Sound(a, WithCash(w, CashEvents.CashPass(a.Till(), w.clock, CashOf(w), report).state))
  {
    hide Sound, CashEvents.CashOne;
    if report != [] {
      var front, last := report[..|report| - 1], report[|report| - 1];
      CashPassKeeps(a, w, front);
      var before := CashEvents.CashPass(a.Till(), w.clock, CashOf(w), front);
      var mid := WithCash(w, before.state);
      if before.error.None? && CashEvents.CashOne(a.Till(), w.clock, before.state, last).Ok? {
        OneActivityKeeps(a, mid, last);
      }
    }
  }

  lemma CashStageKeeps(a: Account, w: World, cut: Cut)
    requires Sound(a, w)
    ensures Sound(a, CashStage(a, w, cut).state)
  {
    hide Sound, CashEvents.CashPass;
    CashPassKeeps(a, w, FirstOf(w.activities, cut.InCash?, if cut.InCash? then cut.k else 0));
  }

  // ---------------------------------------------------------------- the two sums agree event by event

  lemma EffectOfItsFill(m: Market, f: Fill, e: Execution, now: Instant)
    requires FillAccounting.CameFrom(f, e)
    ensures CashEffect(m, f, now) == BrokerEffect(m, e, now)
  {
  }

  /** The ledger's fold over its fills is the broker's sum over the executions
      that are on the ledger. */
  lemma {:induction false} FillsAreCounted(m: Market, executions: seq<Execution>, fills: seq<Fill>, now: Instant)
    requires DistinctKeys(executions, ExecutionId)
    requires forall i, j :: 0 <= i < j < |fills| ==> fills[i].fillId != fills[j].fillId
    requires forall f :: f in fills ==>
               f.fillId in TapeOf(executions) && FillAccounting.CameFrom(f, TapeOf(executions)[f.fillId])
    ensures FillsCash(m, fills, now) == Counted(executions, ExecutionId, EffectAt(m, now), FillIds(fills))
  {
    hide TapeOf, BrokerEffect, CashEffect, DistinctKeys;
    if fills == [] {
      assert FillIds(fills) == {};
      CountedNone(executions, ExecutionId, EffectAt(m, now));
    } else {
      var front, f := fills[..|fills| - 1], fills[|fills| - 1];
      assert fills == front + [f];
      FillsAreCounted(m, executions, front, now);
      TapeHolds(executions);
      var e := TapeOf(executions)[f.fillId];
      EffectOfItsFill(m, f, e, now);
      assert FillIds(fills) == FillIds(front) + {ExecutionId(e)};
      CountedOneMore(executions, ExecutionId, EffectAt(m, now), FillIds(front), e);
    }
  }

  lemma AdjustmentIdsAppend(adjustments: seq<CashAdjustment>, x: CashAdjustment)
    ensures AdjustmentIds(adjustments + [x]) == AdjustmentIds(adjustments) + {x.adjustmentId}
  {
  }

  lemma {:induction false} AdjustmentsAreCounted(activities: seq<CashEvents.AccountActivity>,
                                                 adjustments: seq<CashAdjustment>)
    requires DistinctKeys(activities, ActivityId)
    requires forall i, j :: 0 <= i < j < |adjustments| ==> adjustments[i].adjustmentId != adjustments[j].adjustmentId
    requires forall x :: x in adjustments ==> ComesFrom(x, activities)
    ensures AdjustmentsCash(adjustments) == Counted(activities, ActivityId, NetAmount, AdjustmentIds(adjustments))
  {
    hide DistinctKeys;
    if adjustments == [] {
      assert AdjustmentIds(adjustments) == {};
      CountedNone(activities, ActivityId, NetAmount);
    } else {
      var front, x := adjustments[..|adjustments| - 1], adjustments[|adjustments| - 1];
      assert adjustments == front + [x];
      AdjustmentsAreCounted(activities, front);
      assert ComesFrom(x, activities);
      var act :| act in activities && x == CashEvents.AdjustmentFor(act);
      AdjustmentIdsAppend(front, x);
      CountedOneMore(activities, ActivityId, NetAmount, AdjustmentIds(front), act);
    }
  }

  /** Both folds of a sound account, at any instant. */
  lemma LedgerCounts(a: Account, w: World, now: Instant)
    requires FillsSound(a, w) && CashSound(a, w)
    ensures FillsCash(a.market, w.ledger.view.books.fills, now) ==
            Counted(w.executions, ExecutionId, EffectAt(a.market, now), FillIds(w.ledger.view.books.fills))
    ensures AdjustmentsCash(w.ledger.view.books.adjustments) ==
            Counted(w.activities, ActivityId, NetAmount, AdjustmentIds(w.ledger.view.books.adjustments))
  {
    hide TapeOf, FillAccounting.CameFrom, ComesFrom, FillsOk;
    FillIdsDistinct(a.owner, w.ledger.view.books.fills);
    FillsAreCounted(a.market, w.executions, w.ledger.view.books.fills, now);
    AdjustmentsAreCounted(w.activities, w.ledger.view.books.adjustments);
  }

  // ---------------------------------------------------------------- seeding

  /** Every posted event has been polled. */
  ghost predicate AllPolled(a: Account, w: World) {
    && (forall e :: e in w.executions ==> FillSync.Handled(a.Desk(), w.clock, SyncOf(w), e))
    && (forall act :: act in w.activities ==> CashEvents.Handled(a.Till(), CashOf(w), act))
  }

  /** With nothing pending, what is not on the ledger is rejected for good. */
  lemma PolledIsFrozen(a: Account, w: World)
    requires FillsSound(a, w) && CashSound(a, w) && AllPolled(a, w) && w.fillsQ.memory.PendingIds() == {}
    ensures forall e :: e in w.executions ==>
              ExecutionFrozen(SyncOf(w), FillIds(w.ledger.view.books.fills), e.executionId)
    ensures forall act :: act in w.activities ==>
              ActivityFrozen(CashOf(w), AdjustmentIds(w.ledger.view.books.adjustments), w.clock, act)
  {
    hide TapeOf, Faithful, Quarantine.Faithful, DistinctKeys, ComesFrom;
    var memory := w.fillsQ.memory;
    forall e | e in w.executions ensures ExecutionFrozen(SyncOf(w), FillIds(w.ledger.view.books.fills), e.executionId) {
      var id := e.executionId;
      assert FillSync.Handled(a.Desk(), w.clock, SyncOf(w), e);
      assert id in FillIds(w.ledger.view.books.fills) <==> FillSync.Known(SyncOf(w), id);
      assert id in memory.items && id !in memory.resolutions ==> id in memory.PendingIds();
    }
    forall act | act in w.activities
      ensures ActivityFrozen(CashOf(w), AdjustmentIds(w.ledger.view.books.adjustments), w.clock, act)
    {
      var id := act.activityId;
      assert CashEvents.Handled(a.Till(), CashOf(w), act);
      assert id in AdjustmentIds(w.ledger.view.books.adjustments) <==> CashEvents.Known(CashOf(w), id);
    }
  }

  /** A store seeded now: the figure of the branch that ran, and nothing else
      of the record changed. */
  ghost predicate JustSeeded(a: Account, w: World, after: LedgerFile.Store) {
    var books := w.ledger.view.books;
    && Faithful(a.owner, after) && after.view.books == books
    && after.view.openingAt == Some(w.clock)
    && after.view.opening ==
       Some(BrokerCash(a, w, w.clock)
            - if books.fills == [] then 0.0
              else
                FillsCash(a.market, books.fills, w.clock) + AdjustmentsCash(books.adjustments)
                + CorrectionsCash(books.corrections))
  }

  lemma SeedFigureIsRight(a: Account, w: World, after: LedgerFile.Store)
    requires FillsSound(a, w) && CashSound(a, w) && JustSeeded(a, w, after)
    ensures after.view.opening == Some(SeedFigure(a, w.start, w.executions, w.activities, SeedNow(w)))
  {
    hide FillsSound, CashSound, Faithful;
    LedgerCounts(a, w, w.clock);
    assert w.executions[..|w.executions|] == w.executions && w.activities[..|w.activities|] == w.activities;
  }

  lemma SeededKeeps(a: Account, w: World, after: LedgerFile.Store)
    requires Sound(a, w) && AllPolled(a, w) && w.fillsQ.memory.PendingIds() == {}
    requires w.ledger.view.opening.None? && JustSeeded(a, w, after)
    ensures Sound(a, Seeded(w, after))
  {
    hide FillsSound, ExecutionFrozen, ActivityFrozen, SeedFigure, FillsCash, AdjustmentsCash, CorrectionsCash,
         AllPolled, BrokerCash;
    SeedFigureIsRight(a, w, after);
    PolledIsFrozen(a, w);
    var w2 := Seeded(w, after);
    LedgerOnly(a, w, w2);
    assert w2.seed == Some(SeedNow(w));
    var recorded, applied := FillIds(w.ledger.view.books.fills), AdjustmentIds(w.ledger.view.books.adjustments);
    forall i | 0 <= i < |w.executions| ensures ExecutionFrozen(SyncOf(w2), recorded, w2.executions[i].executionId) {
      assert w.executions[i] in w.executions;
    }
    forall i | 0 <= i < |w.activities| ensures ActivityFrozen(CashOf(w2), applied, w.clock, w2.activities[i]) {
      assert w.activities[i] in w.activities;
    }
    assert SeedSound(a, w2);
  }

  /** A change to the opening layer alone. */
  lemma LedgerOnly(a: Account, w: World, after: World)
    requires FillsSound(a, w) && CashSound(a, w) && after == w.(ledger := after.ledger, seed := after.seed)
    requires Faithful(a.owner, after.ledger)
    requires after.ledger.view.books.fills == w.ledger.view.books.fills
    requires after.ledger.view.books.adjustments == w.ledger.view.books.adjustments
    ensures FillsSound(a, after) && CashSound(a, after)
    ensures forall recorded, id ::
              ExecutionFrozen(SyncOf(w), recorded, id) ==> ExecutionFrozen(SyncOf(after), recorded, id)
    ensures forall applied, at, act ::
              ActivityFrozen(CashOf(w), applied, at, act) ==> ActivityFrozen(CashOf(after), applied, at, act)
  {
    hide Faithful, Quarantine.Faithful, TapeOf, DistinctKeys;
    assert forall id :: FillSync.Known(SyncOf(w), id) <==> FillSync.Known(SyncOf(after), id);
    assert forall id :: CashEvents.Known(CashOf(w), id) <==> CashEvents.Known(CashOf(after), id);
  }

  /** The cash seed writes the figure of its branch, or nothing at all. */
  lemma SeedBalanceSeeds(a: Account, w: World, pending: set<string>)
    requires Sound(a, w)
    ensures var r := AccountWiring.SeedBalance(a.market, w.ledger, pending, BrokerCash(a, w, w.clock), w.clock);
            r.state == w.ledger || (w.ledger.view.opening.None? && pending == {} && JustSeeded(a, w, r.state))
  {
    hide Faithful, FillsCash, AdjustmentsCash, CorrectionsCash, SalesSettle, BrokerCash, CashSound, SeedSound;
    LedgerIsFaithful(a, w);
    var cash := BrokerCash(a, w, w.clock);
    var r := AccountWiring.SeedBalance(a.market, w.ledger, pending, cash, w.clock);
    if w.ledger.view.opening.None? && pending == {} {
      var write := if w.ledger.view.books.fills != [] then SeedWrite(cash, w.clock) else OpeningWrite(cash, w.clock);
      if Wrote(a.market, a.owner, w.ledger, write).Ok? {
        WriteKeepsFaithful(a.market, a.owner, w.ledger, write);
      }
    }
  }

  lemma SeedingSeeds(a: Account, w: World, pending: set<string>, positions: seq<Position>)
    requires Sound(a, w)
    ensures var r := AccountWiring.Seeding(a.market, a.owner, w.ledger, pending, AdapterAt(a, w, positions), w.clock);
            r.state == w.ledger || (w.ledger.view.opening.None? && pending == {} && JustSeeded(a, w, r.state))
  {
    hide Faithful, Sound, FillsCash, AdjustmentsCash, CorrectionsCash, BrokerCash, AccountWiring.SeedBalance,
         PositionsWritten, LotsOf, AccountWiring.LocalPositions;
    SeedBalanceSeeds(a, w, pending);
    var adapter := AdapterAt(a, w, positions);
    AccountWiring.SeedingFrame(a.market, a.owner, w.ledger, pending, adapter, w.clock);
    var cash := AccountWiring.SeedBalance(a.market, w.ledger, pending, BrokerCash(a, w, w.clock), w.clock).state;
    if PositionsWritten(a.market, a.owner, cash, positions).Ok? && Faithful(a.owner, cash) {
      WriteKeepsFaithful(a.market, a.owner, cash, PositionsWrite(positions));
    }
  }

  lemma SeedingCutSeeds(a: Account, w: World, pending: set<string>, positions: seq<Position>, k: nat)
    requires Sound(a, w)
    ensures var after := AccountWiring.SeedingCut(a.market, a.owner, w.ledger, pending, AdapterAt(a, w, positions),
                                                  w.clock, k);
            after == w.ledger || (w.ledger.view.opening.None? && pending == {} && JustSeeded(a, w, after))
  {
    hide Faithful, Sound, FillsCash, AdjustmentsCash, CorrectionsCash, BrokerCash, AccountWiring.SeedBalance,
         AccountWiring.PositionsDue;
    SeedBalanceSeeds(a, w, pending);
    var cash := AccountWiring.SeedBalance(a.market, w.ledger, pending, BrokerCash(a, w, w.clock), w.clock);
    AccountWiring.CashSeedFrame(a.market, w.ledger, pending, BrokerCash(a, w, w.clock), w.clock);
    if w.ledger.view.opening.None? && pending == {} && cash.error.None? {
      PositionRowsKeepFaithful(a.owner, cash.state, if k <= |positions| then positions[..k] else positions);
    }
  }

  lemma BuildStageKeeps(a: Account, w: World, cut: Cut, positions: seq<Position>)
    requires Sound(a, w) && AllPolled(a, w)
    ensures Sound(a, BuildStage(a, w, cut, positions))
  {
    hide Sound, AllPolled, JustSeeded, AccountWiring.Seeding, AccountWiring.SeedingCut, BrokerCash;
    var pending := w.fillsQ.memory.PendingIds();
    SeedingSeeds(a, w, pending, positions);
    SeedingCutSeeds(a, w, pending, positions, if cut.InPositions? then cut.k else 0);
    var after := BuildStage(a, w, cut, positions).ledger;
    if after == w.ledger {
      assert Seeded(w, after) == w;
    } else {
      SeededKeeps(a, w, after);
    }
  }

  // ---------------------------------------------------------------- one cycle

  /** b differs from a at most in the list of adjustments. */
  predicate SameButAdjustments(a: View, b: View) {
    b == a.(books := a.books.(adjustments := b.books.adjustments))
  }

  lemma {:induction false} CashPassLeavesFills(t: CashEvents.Till, now: Instant, s: CashEvents.Cash,
                                               report: seq<CashEvents.AccountActivity>)
    ensures SameButAdjustments(s.ledger.view, CashEvents.CashPass(t, now, s, report).state.ledger.view)
  {
    if report != [] {
      CashPassLeavesFills(t, now, s, report[..|report| - 1]);
    }
  }

  /** The books of v, with other order records. */
  ghost predicate SameButOrders(v: View, after: View) {
    after == v.(books := v.books.(orders := after.books.orders))
  }

  lemma CloseOneKeeps(a: Account, w: World, orders: map<string, OrderClosing.BrokerOrder>, id: string)
    requires Sound(a, w) && OrderClosing.CloseOne(a.owner, orders, w.clock, w.ledger, id).Ok?
    ensures var after := OrderClosing.CloseOne(a.owner, orders, w.clock, w.ledger, id).value;
            Sound(a, w.(ledger := after)) && SameButOrders(w.ledger.view, after.view)
  {
    hide Sound;
    var after := OrderClosing.CloseOne(a.owner, orders, w.clock, w.ledger, id).value;
    if after == w.ledger {
      assert w.(ledger := after) == w;
    } else {
      EntryKeeps(a, w, OrderEntry(OrderClosing.ClosedRecord(a.owner, id, w.clock)));
    }
  }

  lemma {:induction false} ClosePassKeeps(a: Account, w: World, orders: map<string, OrderClosing.BrokerOrder>,
                                          ids: seq<string>)
    requires Sound(a, w)
    ensures var after := OrderClosing.ClosePass(a.owner, orders, w.clock, w.ledger, ids).state;
            Sound(a, w.(ledger := after)) && SameButOrders(w.ledger.view, after.view)
  {
    hide Sound, OrderClosing.CloseOne;
    if ids == [] {
      assert w.(ledger := w.ledger) == w;
    } else {
      var front, last := ids[..|ids| - 1], ids[|ids| - 1];
      ClosePassKeeps(a, w, orders, front);
      var before := OrderClosing.ClosePass(a.owner, orders, w.clock, w.ledger, front);
      var mid := w.(ledger := before.state);
      if before.error.None? && OrderClosing.CloseOne(a.owner, orders, w.clock, before.state, last).Ok? {
        CloseOneKeeps(a, mid, orders, last);
      }
    }
  }

  /** The closing stage writes order records and nothing else. */
  lemma ClosingStageKeeps(a: Account, w: World, cut: Cut, orders: map<string, OrderClosing.BrokerOrder>)
    requires Sound(a, w)
    ensures var after := ClosingStage(a, w, cut, orders).state;
            && Sound(a, after) && after == w.(ledger := after.ledger)
            && SameButOrders(w.ledger.view, after.ledger.view)
  {
    hide Sound, OrderClosing.ClosePass, SameButOrders;
    var asked := OrderClosing.AskedFor(w.ledger.view.books.orders);
    ClosePassKeeps(a, w, orders, FirstOf(asked, cut.InClosing?, if cut.InClosing? then cut.k else 0));
  }

  lemma FillStagePolls(a: Account, w: World, cut: Cut)
    requires !cut.InFills? && FillStage(a, w, cut).error.None?
    ensures var s := FillStage(a, w, cut).state;
            forall e :: e in w.executions ==> FillSync.Handled(a.Desk(), w.clock, SyncOf(s), e)
  {
    hide FillSync.Handled, FillSync.SyncOne;
    var d := a.Desk();
    FillSync.StepIsIdempotent(d, w.clock);
    forall e | e in w.executions ensures FillSync.Handled(d, w.clock, SyncOf(FillStage(a, w, cut).state), e) {
      PolledIsHandled(FillSync.Step(d, w.clock), FillSync.HandledAt(d, w.clock), SyncOf(w), w.executions, e);
    }
  }

  lemma CashStagePolls(a: Account, w: World, cut: Cut)
    requires !cut.InCash? && CashStage(a, w, cut).error.None?
    ensures var s := CashStage(a, w, cut).state;
            forall act :: act in w.activities ==> CashEvents.Handled(a.Till(), CashOf(s), act)
  {
    hide CashEvents.Handled, CashEvents.CashOne;
    var t := a.Till();
    CashEvents.StepIsIdempotent(t, w.clock);
    forall act | act in w.activities ensures CashEvents.Handled(t, CashOf(CashStage(a, w, cut).state), act) {
      PolledIsHandled(CashEvents.Step(t, w.clock), CashEvents.HandledBy(t), CashOf(w), w.activities, act);
    }
  }

  /** What has been polled stays so while fills and their quarantine stay. */
  lemma HandledStays(a: Account, w: World, after: World)
    requires after.executions == w.executions && after.clock == w.clock && after.fillsQ == w.fillsQ
    requires after.ledger.view.books.fills == w.ledger.view.books.fills
    requires forall e :: e in w.executions ==> FillSync.Handled(a.Desk(), w.clock, SyncOf(w), e)
    ensures forall e :: e in after.executions ==> FillSync.Handled(a.Desk(), after.clock, SyncOf(after), e)
  {
    forall e | e in after.executions ensures FillSync.Handled(a.Desk(), after.clock, SyncOf(after), e) {
      assert FillSync.Handled(a.Desk(), w.clock, SyncOf(w), e);
      assert FillSync.Known(SyncOf(after), e.executionId) <==> FillSync.Known(SyncOf(w), e.executionId);
    }
  }

  /** After the polls, whole and not refused, nothing posted is unaccounted for. */
  lemma CompletePolls(a: Account, w: World, cut: Cut, orders: map<string, OrderClosing.BrokerOrder>)
    requires Sound(a, w) && Completes(a, w, cut, orders)
    ensures Sound(a, Polled(a, w, cut, orders)) && AllPolled(a, Polled(a, w, cut, orders))
  {
    hide Sound, FillSync.SyncPass, CashEvents.CashPass, CashEvents.Handled, FillSync.Handled, OrderClosing.ClosePass;
    FillStageKeeps(a, w, cut);
    FillStagePolls(a, w, cut);
    var polled := FillStage(a, w, cut).state;
    ClosingStageKeeps(a, polled, cut, orders);
    var closed := ClosingStage(a, polled, cut, orders).state;
    HandledStays(a, polled, closed);
    CashStageKeeps(a, closed, cut);
    CashStagePolls(a, closed, cut);
    CashPassLeavesFills(a.Till(), closed.clock, CashOf(closed), closed.activities);
    HandledStays(a, closed, CashStage(a, closed, cut).state);
  }

  lemma CycleKeeps(a: Account, w: World, cut: Cut, reply: Reply)
    requires Sound(a, w)
    ensures Sound(a, Cycle(a, w, cut, reply))
  {
    hide Sound, FillStage, ClosingStage, CashStage, BuildStage, AllPolled;
    FillStageKeeps(a, w, cut);
    var fills := FillStage(a, w, cut);
    if !(fills.error.Some? || cut.InFills?) {
      ClosingStageKeeps(a, fills.state, cut, reply.orders);
      var closing := ClosingStage(a, fills.state, cut, reply.orders);
      if !(closing.error.Some? || cut.InClosing?) {
        CashStageKeeps(a, closing.state, cut);
        var cash := CashStage(a, closing.state, cut);
        if !(cash.error.Some? || cut.InCash?) {
          CompletePolls(a, w, cut, reply.orders);
          BuildStageKeeps(a, cash.state, cut, reply.positions);
        }
      }
    }
  }

  /** A cycle that gets through its polls leaves open exactly the orders that
      were open and that the broker did not confirm as finished. */
  lemma OrdersAfterACycle(a: Account, w: World, cut: Cut, reply: Reply)
    requires Sound(a, w) && Completes(a, w, cut, reply.orders)
    ensures var orders, after := w.ledger.view.books.orders, Cycle(a, w, cut, reply).ledger.view.books.orders;
            forall id :: OrderOpen(after, id) <==> OrderOpen(orders, id) && !OrderClosing.Confirmed(reply.orders, id)
  {
    hide Sound, FillSync.SyncPass, CashEvents.CashPass, OrderClosing.ClosePass, OrderOpen, OrderClosing.Confirmed,
         OrderClosing.Ascending, BuildStage;
    PassLeavesAlone(a.Desk(), w.clock, SyncOf(w), w.executions, {});
    FillStageKeeps(a, w, cut);
    var polled := FillStage(a, w, cut).state;
    var asked := OrderClosing.AskedFor(polled.ledger.view.books.orders);
    assert polled.ledger.view.books.orders == w.ledger.view.books.orders;
    OrderClosing.ClosesExactlyTheConfirmed(a.owner, reply.orders, w.clock, polled.ledger, asked);
    ClosingStageKeeps(a, polled, cut, reply.orders);
    var closed := ClosingStage(a, polled, cut, reply.orders).state;
    CashPassLeavesFills(a.Till(), closed.clock, CashOf(closed), closed.activities);
    CompletePolls(a, w, cut, reply.orders);
    BuildLeavesBooks(a, Polled(a, w, cut, reply.orders), cut, reply.positions);
  }

  lemma BuildLeavesBooks(a: Account, w: World, cut: Cut, positions: seq<Position>)
    requires Sound(a, w)
    ensures BuildStage(a, w, cut, positions).ledger.view.books == w.ledger.view.books
  {
    hide Sound, AccountWiring.Seeding, AccountWiring.SeedingCut, BrokerCash, Faithful;
    var pending := w.fillsQ.memory.PendingIds();
    SeedingSeeds(a, w, pending, positions);
    SeedingCutSeeds(a, w, pending, positions, if cut.InPositions? then cut.k else 0);
  }

  // ---------------------------------------------------------------- everything else that can happen

  lemma TapeGrows(a: Account, w: World, x: Execution)
    requires FillsSound(a, w) && Possible(w, ExecutionPosted(x))
    ensures FillsSound(a, w.(executions := w.executions + [x]))
  {
    hide Faithful, Quarantine.Faithful;
    TapeHolds(w.executions);
    assert (w.executions + [x])[..|w.executions|] == w.executions;
    var tape, tape' := TapeOf(w.executions), TapeOf(w.executions + [x]);
    assert tape' == tape[x.executionId := x];
    assert forall id :: id in tape ==> id in tape' && tape'[id] == tape[id];
  }

  lemma ExecutionPostedKeeps(a: Account, w: World, x: Execution)
    requires Sound(a, w) && Possible(w, ExecutionPosted(x))
    ensures Sound(a, w.(executions := w.executions + [x]))
  {
    TapeGrows(a, w, x);
    hide FillsSound, CashSound, SeedFigure, ExecutionFrozen, ActivityFrozen, BuildStage;
    var after := w.(executions := w.executions + [x]);
    assert SyncOf(after) == SyncOf(w) && CashOf(after) == CashOf(w);
    CashIgnoresExecutions(a, w, after);
    SeedStays(a, w, after);
  }

  lemma CashIgnoresExecutions(a: Account, w: World, after: World)
    requires CashSound(a, w) && CashOf(after) == CashOf(w) && after.activities == w.activities && w.clock <= after.clock
    ensures CashSound(a, after)
  {
    hide Quarantine.Faithful, DistinctKeys, ComesFrom, CashEvents.Known;
  }

  lemma ActivitiesGrow(a: Account, w: World, x: CashEvents.AccountActivity)
    requires CashSound(a, w) && Possible(w, ActivityPosted(x))
    ensures CashSound(a, w.(activities := w.activities + [x]))
  {
    hide Quarantine.Faithful, CashEvents.Known;
    var after := w.(activities := w.activities + [x]);
    assert CashOf(after) == CashOf(w);
    forall y | ComesFrom(y, w.activities) ensures ComesFrom(y, after.activities) {
      var act :| act in w.activities && y == CashEvents.AdjustmentFor(act);
      assert act in after.activities;
    }
  }

  lemma ActivityPostedKeeps(a: Account, w: World, x: CashEvents.AccountActivity)
    requires Sound(a, w) && Possible(w, ActivityPosted(x))
    ensures Sound(a, w.(activities := w.activities + [x]))
  {
    ActivitiesGrow(a, w, x);
    hide CashSound, FillAccounting.Accounted, SeedFigure, ExecutionFrozen, ActivityFrozen, TapeOf, DistinctKeys;
    var after := w.(activities := w.activities + [x]);
    assert SyncOf(after) == SyncOf(w) && CashOf(after) == CashOf(w);
    SeedStays(a, w, after);
  }

  lemma TickKeeps(a: Account, w: World, to: Instant)
    requires Sound(a, w) && w.clock <= to
    ensures Sound(a, w.(clock := to))
  {
    hide CashSound, FillAccounting.Accounted, SeedFigure, ExecutionFrozen, ActivityFrozen, TapeOf, DistinctKeys;
    var after := w.(clock := to);
    assert CashOf(after) == CashOf(w) && SyncOf(after) == SyncOf(w);
    CashIgnoresExecutions(a, w, after);
    SeedStays(a, w, after);
  }

  lemma ExecutionDecidedKeeps(a: Account, w: World, r: Quarantine.Resolution)
    requires Sound(a, w)
    ensures Sound(a, After(a, w, ExecutionDecided(r)))
  {
    hide FillAccounting.Accounted, CashSound, SeedFigure, ActivityFrozen, TapeOf, DistinctKeys;
    FillAccounting.DecisionKeepsAccounted(a.Desk(), TapeOf(w.executions), SyncOf(w), r);
    var after := After(a, w, ExecutionDecided(r));
    assert CashOf(after) == CashOf(w);
    CashIgnoresExecutions(a, w, after);
    assert forall id :: FillSync.Known(SyncOf(w), id) <==> FillSync.Known(SyncOf(after), id);
    SeedStays(a, w, after);
  }

  /** An admission inside the baseline is refused, so a frozen activity stays. */
  lemma CashDecidedKeeps(a: Account, w: World, r: Quarantine.Resolution)
    requires Sound(a, w)
    ensures Sound(a, After(a, w, CashDecided(r)))
  {
    hide FillsSound, CashSound, SeedFigure, ExecutionFrozen, ActivityFrozen, DecidedCash, Faithful;
    var after := After(a, w, CashDecided(r));
    LedgerIsFaithful(a, w);
    CashDoesNotTouchFills(a, w, after);
    DecisionKeepsCash(a, w, r);
    if w.seed.Some? {
      BaselineOnFile(a, w);
      forall i | 0 <= i < w.seed.value.activities
        ensures ActivityFrozen(CashOf(after), w.seed.value.applied, w.seed.value.at, w.activities[i])
      {
        DecisionKeepsFrozen(a, w, r, w.activities[i], w.seed.value.applied, w.seed.value.at);
      }
    }
    SeedStays(a, w, after);
  }

  lemma DecisionKeepsCash(a: Account, w: World, r: Quarantine.Resolution)
    requires CashSound(a, w)
    ensures CashSound(a, w.(cashQ := DecidedCash(a, w, r)))
  {
    hide Quarantine.Faithful, ComesFrom, DistinctKeys, EstablishedAt;
    var after := w.(cashQ := DecidedCash(a, w, r));
    if after != w {
      Quarantine.WriteKeepsFaithful(a.Till().rules, w.cashQ, Quarantine.Resolve(r));
      assert forall id :: CashEvents.Known(CashOf(w), id) <==> CashEvents.Known(CashOf(after), id);
    }
  }

  lemma DecisionKeepsFrozen(a: Account, w: World, r: Quarantine.Resolution, act: CashEvents.AccountActivity,
                            applied: set<string>, at: Instant)
    requires CashSound(a, w) && act in w.activities && EstablishedAt(w.ledger.file) == Some(at)
    requires ActivityFrozen(CashOf(w), applied, at, act)
    ensures ActivityFrozen(CashOf(w.(cashQ := DecidedCash(a, w, r))), applied, at, act)
  {
    hide Quarantine.Faithful, ComesFrom, EstablishedAt;
    if r.id == act.activityId && r.id in w.cashQ.memory.items {
      SameActivity(w.activities, w.cashQ.memory.items[r.id].activity, act);
    }
    hide DistinctKeys;
    var after := w.(cashQ := DecidedCash(a, w, r));
    assert forall id :: CashEvents.Known(CashOf(w), id) <==> CashEvents.Known(CashOf(after), id);
  }

  lemma SameActivity(activities: seq<CashEvents.AccountActivity>, x: CashEvents.AccountActivity,
                     y: CashEvents.AccountActivity)
    requires DistinctKeys(activities, ActivityId) && x in activities && y in activities && x.activityId == y.activityId
    ensures x == y
  {
    var i :| 0 <= i < |activities| && activities[i] == x;
    var j :| 0 <= j < |activities| && activities[j] == y;
    assert ActivityId(activities[i]) == ActivityId(activities[j]);
  }

  lemma BaselineOnFile(a: Account, w: World)
    requires FillsSound(a, w)
    ensures EstablishedAt(w.ledger.file) == w.ledger.view.openingAt
  {
  }

  /** An order record or a correction: neither fills nor adjustments change. */
  lemma EntryKeeps(a: Account, w: World, e: Entry)
    requires Sound(a, w) && (e.OrderEntry? || e.CorrectionEntry?)
    ensures Sound(a, WithEntry(a, w, e))
  {
    hide FillsSound, CashSound, SeedFigure, ExecutionFrozen, ActivityFrozen, Faithful;
    var after := WithEntry(a, w, e);
    if after != w {
      LedgerIsFaithful(a, w);
      FillAccounting.EntryKeepsFaithful(a.Desk(), SyncOf(w), e);
      LedgerOnly(a, w, after);
    }
  }

  /** Every file loads, into what was in memory. */
  lemma RestartChangesNothing(a: Account, w: World)
    requires FillsSound(a, w) && CashSound(a, w)
    ensures After(a, w, Restarted) == w
  {
    hide TapeOf, DistinctKeys, ReplayRows, Quarantine.ReplayRows, BooksOk, EstablishedAt;
    assert FillAccounting.Reloaded(a.Desk(), SyncOf(w)) == SyncOf(w);
  }

  lemma StepKeeps(a: Account, w: World, e: Event)
    requires Sound(a, w) && Possible(w, e)
    ensures Sound(a, After(a, w, e))
  {
    hide FillsSound, CashSound, SeedSound, Cycle, WithEntry, FillAccounting.Reloaded, FillAccounting.After,
         DecidedCash, ReloadedCash;
    match e
    case ExecutionPosted(x) => ExecutionPostedKeeps(a, w, x);
    case ActivityPosted(x) => ActivityPostedKeeps(a, w, x);
    case Ticked(to) => TickKeeps(a, w, to);
    case Cycled(cut, reply) => CycleKeeps(a, w, cut, reply);
    case ExecutionDecided(r) => ExecutionDecidedKeeps(a, w, r);
    case CashDecided(r) => CashDecidedKeeps(a, w, r);
    case OrderStaged(order) => EntryKeeps(a, w, OrderEntry(order));
    case Corrected(c) => EntryKeeps(a, w, CorrectionEntry(c));
    case Restarted =>
      RestartChangesNothing(a, w);
  }

  lemma {:induction false} RunIsSound(a: Account, start: Decimal, clock: Instant, events: seq<Event>)
    requires Plays(a, start, clock, events)
    ensures Sound(a, Run(a, start, clock, events))
  {
    if events != [] {
      hide Sound, After, Possible;
      var front := events[..|events| - 1];
      RunIsSound(a, start, clock, front);
      StepKeeps(a, Run(a, start, clock, front), events[|events| - 1]);
    }
  }
}
