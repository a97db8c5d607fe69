/** Where every reported execution is, over runs that mix polls, operator
    decisions, newly staged orders and restarts. */
module FillAccounting {
  import opened Wrappers
  import opened MarketCalendar
  import opened LedgerBooks
  import opened LedgerFile
  import opened PollLoop
  import opened ExecutionQuarantine
  import opened FillSync
  import Quarantine

  // ---------------------------------------------------------------- runs

  datatype Event =
    | Polled(now: Instant, report: seq<Execution>)
    | Decided(resolution: Quarantine.Resolution)
    | Staged(order: OrderRecord)
    | Restarted

  function Reloaded(d: Desk, s: Sync): Sync {
    var view := ReplayRows(d.owner, s.ledger.file);
    var memory := Quarantine.ReplayRows(d.rules, s.quarantine.file);
    Sync(if view.Ok? then LedgerFile.Store(view.value, s.ledger.file) else s.ledger,
         if memory.Ok? then Quarantine.Store(memory.value, s.quarantine.file) else s.quarantine)
  }

  function After(d: Desk, s: Sync, e: Event): Sync {
    match e
    case Polled(now, report) => SyncPass(d, now, s, report).state
    case Decided(r) =>
      (match Quarantine.Wrote(d.rules, s.quarantine, Quarantine.Resolve(r))
       case Err(_) => s
       case Ok(q) => s.(quarantine := q))
    case Staged(order) =>
      (match EntryWritten(d.owner, s.ledger, OrderEntry(order))
       case Err(_) => s
       case Ok(l) => s.(ledger := l))
    case Restarted => Reloaded(d, s)
  }

  function Run(d: Desk, events: seq<Event>): Sync {
    if events == [] then Sync(NEW_STORE, Quarantine.Fresh())
    else After(d, Run(d, events[..|events| - 1]), events[|events| - 1])
  }

  /** The broker's own record: one execution per id, reported faithfully. */
  type Tape = map<string, Execution>

  predicate OnTape(tape: Tape, report: seq<Execution>) {
    forall e :: e in report ==> e.executionId in tape && tape[e.executionId] == e
  }

  ghost predicate HonestBroker(tape: Tape, events: seq<Event>) {
    forall e :: e in events && e.Polled? ==> OnTape(tape, e.report)
  }

  // ---------------------------------------------------------------- the invariant

  predicate CameFrom(f: Fill, e: Execution) {
    && f.fillId == e.executionId && f.accountId == e.accountId && f.symbol == e.symbol
    && f.side == e.side && f.qty == e.qty && f.price == e.price && Some(f.filledAt) == e.filledAt
  }

  ghost predicate Accounted(d: Desk, tape: Tape, s: Sync) {
    var fills, memory := s.ledger.view.books.fills, s.quarantine.memory;
    && Faithful(d.owner, s.ledger)
    && Quarantine.Faithful(d.rules, s.quarantine)
    && (forall f :: f in fills ==> f.fillId in tape && CameFrom(f, tape[f.fillId]))
    && (forall id :: id in memory.items ==> id in tape && memory.items[id].execution == tape[id])
    && (forall id :: id in memory.resolutions ==> id in memory.items && !memory.resolutions[id].decision.OtherDecision?)
    && (forall id :: id in memory.items && Known(s, id) ==>
          id in memory.resolutions && memory.resolutions[id].decision == Quarantine.Admitted)
  }

  lemma RecordKeepsAccounted(d: Desk, tape: Tape, s: Sync, f: Fill)
    requires Accounted(d, tape, s) && Record(d, s, f).Ok?
    requires f.fillId in tape && CameFrom(f, tape[f.fillId])
    requires f.fillId in s.quarantine.memory.items ==>
               f.fillId in s.quarantine.memory.resolutions
               && s.quarantine.memory.resolutions[f.fillId].decision == Quarantine.Admitted
    ensures Accounted(d, tape, Record(d, s, f).value)
  {
    hide Faithful, Quarantine.Faithful, FillVerdict;
    var after := Record(d, s, f).value;
    EntryKeepsFaithful(d, s, FillEntry(f));
    var fills, fills' := s.ledger.view.books.fills, after.ledger.view.books.fills;
    assert fills' == fills || fills' == fills + [f];
  }

  lemma EntryKeepsFaithful(d: Desk, s: Sync, e: Entry)
    requires Faithful(d.owner, s.ledger) && EntryWritten(d.owner, s.ledger, e).Ok?
    ensures Faithful(d.owner, EntryWritten(d.owner, s.ledger, e).value)
  {
    hide Faithful;
    if VerdictOn(d.owner, s.ledger.view.books, e).Append? {
      AppendKeepsFaithful(d.owner, s.ledger, EntryRow(e), s.ledger.view.(books := Appended(s.ledger.view.books, e)));
    }
  }

  lemma SetAsideKeepsAccounted(d: Desk, tape: Tape, s: Sync, e: Execution, reason: QuarantineReason, now: Instant)
    requires Accounted(d, tape, s) && SetAside(d, s, e, reason, now).Ok?
    requires e.executionId in tape && tape[e.executionId] == e && !Known(s, e.executionId)
    ensures Accounted(d, tape, SetAside(d, s, e, reason, now).value)
  {
    hide Faithful, Quarantine.Faithful;
    Quarantine.WriteKeepsFaithful(d.rules, s.quarantine,
                                  Quarantine.Put(e.executionId, QuarantinedExecution(e, reason, now)));
  }

  lemma OneKeepsAccounted(d: Desk, tape: Tape, now: Instant, s: Sync, e: Execution)
    requires Accounted(d, tape, s) && e.executionId in tape && tape[e.executionId] == e
    requires SyncOne(d, now, s, e).Ok?
    ensures Accounted(d, tape, SyncOne(d, now, s, e).value)
  {
    hide Faithful, Quarantine.Faithful, Record, SetAside, HasFill, LatestRecord;
    var after := SyncOne(d, now, s, e).value;
    var memory := s.quarantine.memory;
    if after != s {
      if e.executionId in memory.resolutions {
        var r := memory.resolutions[e.executionId];
        RecordKeepsAccounted(d, tape, s, if e.side.Buy? then FillFor(e, e.executionId, r.policyVersion)
                                         else FillFor(e, r.lotId.GetOr(""), None));
      } else {
        IntentKeepsAccounted(d, tape, now, s, e);
      }
    }
  }

  lemma IntentKeepsAccounted(d: Desk, tape: Tape, now: Instant, s: Sync, e: Execution)
    requires Accounted(d, tape, s) && e.executionId in tape && tape[e.executionId] == e
    requires Acceptable(d, e, now) && ByIntent(d, s, e, now).Ok?
    requires !Known(s, e.executionId) && e.executionId !in s.quarantine.memory.items
    ensures Accounted(d, tape, ByIntent(d, s, e, now).value)
  {
    hide Accounted, Record, SetAside, HasFill, LatestRecord;
    var record := LatestRecord(s.ledger.view.books.orders, e.clientOrderId);
    if e.side.Buy? {
      if record.None? || record.value.policyVersion.None? {
        SetAsideKeepsAccounted(d, tape, s, e, NoPolicyVersion, now);
      } else {
        RecordKeepsAccounted(d, tape, s, FillFor(e, e.executionId, record.value.policyVersion));
      }
    } else if record.None? || record.value.lotId.None? {
      SetAsideKeepsAccounted(d, tape, s, e, NoIntendedLot, now);
    } else {
      RecordKeepsAccounted(d, tape, s, FillFor(e, record.value.lotId.value, None));
    }
  }

  lemma {:induction false} PassKeepsAccounted(d: Desk, tape: Tape, now: Instant, s: Sync, report: seq<Execution>)
    requires Accounted(d, tape, s) && OnTape(tape, report)
    ensures Accounted(d, tape, SyncPass(d, now, s, report).state)
  {
    hide Accounted, SyncOne;
    if report != [] {
      var front, last := report[..|report| - 1], report[|report| - 1];
      PassKeepsAccounted(d, tape, now, s, front);
      var before := SyncPass(d, now, s, front);
      if before.error.None? && SyncOne(d, now, before.state, last).Ok? {
        OneKeepsAccounted(d, tape, now, before.state, last);
      }
    }
  }

  lemma DecisionKeepsAccounted(d: Desk, tape: Tape, s: Sync, r: Quarantine.Resolution)
    requires Accounted(d, tape, s)
    ensures Accounted(d, tape, After(d, s, Decided(r)))
  {
    hide Faithful, Quarantine.Faithful;
    if Quarantine.Wrote(d.rules, s.quarantine, Quarantine.Resolve(r)).Ok? {
      Quarantine.WriteKeepsFaithful(d.rules, s.quarantine, Quarantine.Resolve(r));
      var after := After(d, s, Decided(r));
      forall id | id in after.quarantine.memory.items && Known(after, id)
        ensures id in after.quarantine.memory.resolutions
                && after.quarantine.memory.resolutions[id].decision == Quarantine.Admitted
      {
        assert Known(s, id);
      }
    }
  }

  lemma StagingKeepsAccounted(d: Desk, tape: Tape, s: Sync, order: OrderRecord)
    requires Accounted(d, tape, s)
    ensures Accounted(d, tape, After(d, s, Staged(order)))
  {
    hide Faithful, Quarantine.Faithful, CameFrom, OrderVerdict;
    if EntryWritten(d.owner, s.ledger, OrderEntry(order)).Ok? {
      EntryKeepsFaithful(d, s, OrderEntry(order));
      var after := After(d, s, Staged(order));
      assert after.ledger.view.books.fills == s.ledger.view.books.fills;
      assert forall id :: Known(after, id) <==> Known(s, id);
    }
  }

  lemma RestartKeepsAccounted(d: Desk, tape: Tape, s: Sync)
    requires Accounted(d, tape, s)
    ensures Reloaded(d, s) == s
  {
    hide ReplayRows, Quarantine.ReplayRows, CameFrom, BooksOk, EstablishedAt;
  }

  lemma NothingIsAccounted(d: Desk, tape: Tape)
    ensures Accounted(d, tape, Sync(NEW_STORE, Quarantine.Fresh()))
  {
  }

  lemma {:induction false} RunKeepsAccounted(d: Desk, tape: Tape, events: seq<Event>)
    requires HonestBroker(tape, events)
    ensures Accounted(d, tape, Run(d, events))
  {
    if events == [] {
      NothingIsAccounted(d, tape);
    } else {
      var front, last := events[..|events| - 1], events[|events| - 1];
      assert last in events;
      RunKeepsAccounted(d, tape, front);
      hide Accounted, SyncPass, Reloaded, Quarantine.Wrote, EntryWritten;
      var before := Run(d, front);
      match last
      case Polled(now, report) => PassKeepsAccounted(d, tape, now, before, report);
      case Decided(r) => DecisionKeepsAccounted(d, tape, before, r);
      case Staged(order) => StagingKeepsAccounted(d, tape, before, order);
      case Restarted => RestartKeepsAccounted(d, tape, before);
    }
  }

  // ---------------------------------------------------------------- the account of a report

  ghost predicate RecordedOnce(s: Sync, e: Execution) {
    var fills := s.ledger.view.books.fills;
    exists i :: 0 <= i < |fills| && CameFrom(fills[i], e)
                && forall j :: 0 <= j < |fills| && fills[j].fillId == e.executionId ==> j == i
  }

  predicate IsPending(s: Sync, e: Execution) {
    s.quarantine.memory.StatusOf(e.executionId) == Some(Quarantine.Pending)
  }

  predicate IsRejected(s: Sync, e: Execution) {
    s.quarantine.memory.StatusOf(e.executionId) == Some(Quarantine.Decided(Quarantine.Rejected))
  }

  lemma KnownIsRecordedOnce(d: Desk, tape: Tape, s: Sync, e: Execution)
    requires Accounted(d, tape, s) && e.executionId in tape && tape[e.executionId] == e
    ensures Known(s, e.executionId) <==> RecordedOnce(s, e)
  {
    var fills := s.ledger.view.books.fills;
    if Known(s, e.executionId) {
      FillIdsDistinct(d.owner, fills);
      var f :| f in fills && f.fillId == e.executionId;
      var i :| 0 <= i < |fills| && fills[i] == f;
      assert CameFrom(fills[i], e);
    }
    if RecordedOnce(s, e) {
      var i :| 0 <= i < |fills| && CameFrom(fills[i], e);
      assert fills[i] in fills;
    }
  }

  /** Execution accounting: whatever happened before, after a poll that returns
      every reported execution is exactly one of recorded once under its own
      quantity and price, pending, or rejected; and a recorded one that was
      ever put aside is admitted. */
  lemma EveryExecutionIsAccountedFor(d: Desk, tape: Tape, events: seq<Event>, now: Instant, report: seq<Execution>,
                                     e: Execution)
    requires HonestBroker(tape, events) && OnTape(tape, report) && e in report
    requires SyncPass(d, now, Run(d, events), report).error.None?
    ensures var s := SyncPass(d, now, Run(d, events), report).state;
            && (RecordedOnce(s, e) || IsPending(s, e) || IsRejected(s, e))
            && !(RecordedOnce(s, e) && (IsPending(s, e) || IsRejected(s, e)))
            && !(IsPending(s, e) && IsRejected(s, e))
            && (RecordedOnce(s, e) && s.quarantine.memory.StatusOf(e.executionId).Some? ==>
                  s.quarantine.memory.StatusOf(e.executionId) == Some(Quarantine.Decided(Quarantine.Admitted)))
  {
    RunKeepsAccounted(d, tape, events);
    PassKeepsAccounted(d, tape, now, Run(d, events), report);
    var s := SyncPass(d, now, Run(d, events), report).state;
    KnownIsRecordedOnce(d, tape, s, e);
    StepIsIdempotent(d, now);
    PolledIsHandled(Step(d, now), HandledAt(d, now), Run(d, events), report, e);
    assert Handled(d, now, s, e);
    hide SyncPass, Run, RecordedOnce, Faithful, Quarantine.Faithful;
  }
}
