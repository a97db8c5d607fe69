/** Fills reach the ledger by polling: each reported execution is recorded,
    quarantined or passed over, and the loop may stop anywhere. */
module FillSync {
  import opened Wrappers
  import opened Money
  import opened MarketCalendar
  import opened LedgerBooks
  import opened AccountLedger
  import opened LedgerFile
  import opened LedgerStores
  import opened PollLoop
  import opened ExecutionQuarantine
  import Quarantine

  datatype SyncError =
    | WrongAccount
    | NoFillTime
    | LookAhead
    | NotRecorded(error: StoreError)
    | NotQuarantined(failure: Quarantine.QuarantineError)

  /** The two stores one poll writes to. */
  datatype Sync = Sync(ledger: LedgerFile.Store, quarantine: Quarantine.Store<QuarantinedExecution>)

  /** Whose stores they are. */
  datatype Desk = Desk(owner: Owner, rules: Quarantine.Rules<QuarantinedExecution>)

  // ---------------------------------------------------------------- one execution

  function FillFor(e: Execution, lotId: string, policyVersion: Option<string>): Fill
    requires e.filledAt.Some?
  {
    Fill(e.executionId, e.accountId, e.symbol, e.side, e.qty, e.price, e.filledAt.value, lotId, policyVersion)
  }

  function Record(d: Desk, s: Sync, f: Fill): Result<Sync, SyncError> {
    match EntryWritten(d.owner, s.ledger, FillEntry(f))
    case Err(e) => Err(NotRecorded(e))
    case Ok(ledger) => Ok(s.(ledger := ledger))
  }

  function SetAside(d: Desk, s: Sync, e: Execution, reason: QuarantineReason, now: Instant): Result<Sync, SyncError> {
    match Quarantine.PutAside(d.rules, s.quarantine, e.executionId, QuarantinedExecution(e, reason, now))
    case Err(x) => Err(NotQuarantined(x))
    case Ok(quarantine) => Ok(s.(quarantine := quarantine))
  }

  function Known(s: Sync, id: string): bool {
    HasFill(s.ledger.view.books.fills, id)
  }

  /** Well-formed and not from the future. */
  predicate Acceptable(d: Desk, e: Execution, now: Instant) {
    e.accountId == d.owner.accountId && e.filledAt.Some? && e.filledAt.value <= now
  }

  function Refusal(d: Desk, e: Execution, now: Instant): SyncError {
    if e.accountId != d.owner.accountId then WrongAccount
    else if e.filledAt.None? then NoFillTime
    else LookAhead
  }

  /** With no decision on it: recorded by the intent its order left behind, or
      put aside. A BUY opens a lot named after the execution itself. */
  function ByIntent(d: Desk, s: Sync, e: Execution, now: Instant): Result<Sync, SyncError>
    requires Acceptable(d, e, now)
  {
    var record := LatestRecord(s.ledger.view.books.orders, e.clientOrderId);
    if e.side.Buy? then
      if record.None? || record.value.policyVersion.None? then SetAside(d, s, e, NoPolicyVersion, now)
      else Record(d, s, FillFor(e, e.executionId, record.value.policyVersion))
    else
      if record.None? || record.value.lotId.None? then SetAside(d, s, e, NoIntendedLot, now)
      else Record(d, s, FillFor(e, record.value.lotId.value, None))
  }

  /** An admitted execution is recorded with what the operator supplied. */
  function ByAdmission(d: Desk, s: Sync, e: Execution, r: Quarantine.Resolution): Result<Sync, SyncError>
    requires e.filledAt.Some?
  {
    if e.side.Buy? then Record(d, s, FillFor(e, e.executionId, r.policyVersion))
    else Record(d, s, FillFor(e, r.lotId.GetOr(""), None))
  }

  function SyncOne(d: Desk, now: Instant, s: Sync, e: Execution): Result<Sync, SyncError> {
    var memory := s.quarantine.memory;
    if Known(s, e.executionId) then Ok(s)
    else if !Acceptable(d, e, now) then Err(Refusal(d, e, now))
    else if e.executionId in memory.resolutions then
      (if memory.resolutions[e.executionId].decision == Quarantine.Admitted
       then ByAdmission(d, s, e, memory.resolutions[e.executionId])
       else Ok(s))
    else if e.executionId in memory.items then Ok(s)
    else ByIntent(d, s, e, now)
  }

  function Step(d: Desk, now: Instant): (Sync, Execution) -> Result<Sync, SyncError> {
    (s, e) => SyncOne(d, now, s, e)
  }

  /** One whole pass of sync_fills over a report. */
  function SyncPass(d: Desk, now: Instant, s: Sync, report: seq<Execution>): Progress<Sync, SyncError> {
    Poll(Step(d, now), s, report)
  }

  // ---------------------------------------------------------------- the loop

  method SyncFills(store: LedgerStore, quarantine: ExecutionStore, report: seq<Execution>, now: Instant)
    returns (r: Result<seq<Fill>, SyncError>)
    requires store.Valid() && quarantine.Valid()
    modifies store, store.ledger, quarantine
    ensures store.Valid() && quarantine.Valid()
    ensures var pass := SyncPass(Desk(store.owner, quarantine.rules), now, old(Sync(store.State(), quarantine.State())),
                                 report);
            && Sync(store.State(), quarantine.State()) == pass.state
            && match pass.error
               case Some(e) => r == Err(e)
               case None => r.Ok? && store.ledger.fills == old(store.ledger.fills) + r.value
  {
    hide *;
    ghost var d := Desk(store.owner, quarantine.rules);
    ghost var start := Sync(store.State(), quarantine.State());
    var newFills: seq<Fill> := [];
    PassOfNothing(d, now, start);
    StatesMatch(store, quarantine);
    var i := 0;
    while i < |report|
      invariant 0 <= i <= |report|
      invariant store.Valid() && quarantine.Valid()
      invariant SyncPass(d, now, start, report[..i]) == Progress(Sync(store.State(), quarantine.State()), None)
      invariant store.ledger.fills == old(store.ledger.fills) + newFills
    {
      ghost var before := Sync(store.State(), quarantine.State());
      PassNext(d, now, start, report, i);
      var w := SyncExecution(store, quarantine, report[i], now);
      if w.Err? {
        PassStops(d, now, start, report, i + 1);
        return Err(w.error);
      }
      newFills := newFills + w.value;
      i := i + 1;
    }
    assert report[..|report|] == report;
    return Ok(newFills);
  }

  /** The body of the loop: what one execution writes. */
  method SyncExecution(store: LedgerStore, quarantine: ExecutionStore, e: Execution, now: Instant)
    returns (r: Result<seq<Fill>, SyncError>)
    requires store.Valid() && quarantine.Valid()
    modifies store, store.ledger, quarantine
    ensures store.Valid() && quarantine.Valid()
    ensures match SyncOne(Desk(store.owner, quarantine.rules), now, old(Sync(store.State(), quarantine.State())), e)
            case Err(x) =>
              r == Err(x) && Sync(store.State(), quarantine.State()) == old(Sync(store.State(), quarantine.State()))
            case Ok(s) => r.Ok? && Sync(store.State(), quarantine.State()) == s
    ensures r.Ok? ==> store.ledger.fills == old(store.ledger.fills) + r.value
  {
    hide Faithful, Quarantine.Faithful, LatestRecord, FillVerdict;
    var fillId := e.executionId;
    if exists f :: f in store.ledger.fills && f.fillId == fillId {
      return Ok([]);
    }
    if e.accountId != store.owner.accountId {
      return Err(WrongAccount);
    }
    if e.filledAt.None? {
      return Err(NoFillTime);
    }
    if e.filledAt.value > now {
      return Err(LookAhead);
    }
    var record := LatestRecord(store.ledger.orders, e.clientOrderId);
    var fill: Fill;
    if fillId in quarantine.resolutions {
      var resolution := quarantine.resolutions[fillId];
      if resolution.decision != Quarantine.Admitted {
        return Ok([]);
      }
      fill := if e.side.Buy? then FillFor(e, fillId, resolution.policyVersion)
              else FillFor(e, resolution.lotId.GetOr(""), None);
    } else {
      if fillId in quarantine.items {
        return Ok([]);
      }
      if e.side.Buy? {
        if record.None? || record.value.policyVersion.None? {
          var q := PutExecution(quarantine, e, NoPolicyVersion, now);
          return if q.Err? then Err(NotQuarantined(q.error)) else Ok([]);
        }
        fill := FillFor(e, fillId, record.value.policyVersion);
      } else {
        if record.None? || record.value.lotId.None? {
          var q := PutExecution(quarantine, e, NoIntendedLot, now);
          return if q.Err? then Err(NotQuarantined(q.error)) else Ok([]);
        }
        fill := FillFor(e, record.value.lotId.value, None);
      }
    }
    NewFillIsAppended(store.owner, store.ledger.fills, fill);
    var w := store.WriteFill(fill);
    return if w.Err? then Err(NotRecorded(w.error)) else Ok([fill]);
  }

  lemma NewFillIsAppended(o: Owner, fills: seq<Fill>, f: Fill)
    requires !HasFill(fills, f.fillId)
    ensures !FillVerdict(o, fills, f).Replay?
  {
  }

  lemma StatesMatch(store: LedgerStore, quarantine: ExecutionStore)
    ensures store.State().view.books.fills == store.ledger.fills
  {
  }

  lemma PassOfNothing(d: Desk, now: Instant, s: Sync)
    ensures SyncPass(d, now, s, []) == Progress(s, None)
  {
  }

  lemma PassNext(d: Desk, now: Instant, s: Sync, report: seq<Execution>, i: nat)
    requires i < |report| && SyncPass(d, now, s, report[..i]).error.None?
    ensures SyncPass(d, now, s, report[..i + 1]) ==
            match SyncOne(d, now, SyncPass(d, now, s, report[..i]).state, report[i])
            case Err(x) => Progress(SyncPass(d, now, s, report[..i]).state, Some(x))
            case Ok(t) => Progress(t, None)
  {
    assert report[..i + 1] == report[..i] + [report[i]];
    PollOneMore(Step(d, now), s, report[..i], report[i]);
  }

  lemma PassStops(d: Desk, now: Instant, s: Sync, report: seq<Execution>, i: nat)
    requires i <= |report| && SyncPass(d, now, s, report[..i]).error.Some?
    ensures SyncPass(d, now, s, report) == SyncPass(d, now, s, report[..i])
  {
    assert report == report[..i] + report[i..];
    PollErrSpreads(Step(d, now), s, report[..i], report[i..]);
  }

  // ---------------------------------------------------------------- stop anywhere, start again

  /** Recorded, or put aside and not admitted since. */
  predicate Handled(d: Desk, now: Instant, s: Sync, e: Execution) {
    var memory := s.quarantine.memory;
    || Known(s, e.executionId)
    || (&& Acceptable(d, e, now)
        && (e.executionId in memory.resolutions ==> memory.resolutions[e.executionId].decision != Quarantine.Admitted)
        && (e.executionId in memory.resolutions || e.executionId in memory.items))
  }

  function HandledAt(d: Desk, now: Instant): (Sync, Execution) -> bool {
    (s, e) => Handled(d, now, s, e)
  }

  lemma RecordedIsKnown(d: Desk, s: Sync, f: Fill)
    requires !Known(s, f.fillId) && Record(d, s, f).Ok?
    ensures Known(Record(d, s, f).value, f.fillId)
    ensures forall id :: Known(s, id) ==> Known(Record(d, s, f).value, id)
    ensures Record(d, s, f).value.quarantine == s.quarantine
  {
    NewFillIsAppended(d.owner, s.ledger.view.books.fills, f);
    var after := Record(d, s, f).value.ledger.view.books.fills;
    assert after == s.ledger.view.books.fills + [f];
    assert f in after;
  }

  lemma StepIsIdempotent(d: Desk, now: Instant)
    ensures Idempotent(Step(d, now), HandledAt(d, now))
  {
    hide EntryWritten, LatestRecord;
    forall s: Sync, e: Execution | SyncOne(d, now, s, e).Ok?
      ensures Handled(d, now, SyncOne(d, now, s, e).value, e)
      ensures forall c :: Handled(d, now, s, c) ==> Handled(d, now, SyncOne(d, now, s, e).value, c)
    {
      StepHandles(d, now, s, e);
    }
  }

  lemma StepHandles(d: Desk, now: Instant, s: Sync, e: Execution)
    requires SyncOne(d, now, s, e).Ok?
    ensures Handled(d, now, SyncOne(d, now, s, e).value, e)
    ensures forall c :: Handled(d, now, s, c) ==> Handled(d, now, SyncOne(d, now, s, e).value, c)
  {
    hide EntryWritten, LatestRecord, HasFill;
    forall f: Fill | f.fillId == e.executionId && !Known(s, f.fillId) && Record(d, s, f).Ok?
      ensures Known(Record(d, s, f).value, f.fillId)
      ensures forall id :: Known(s, id) ==> Known(Record(d, s, f).value, id)
      ensures Record(d, s, f).value.quarantine == s.quarantine
    {
      RecordedIsKnown(d, s, f);
    }
  }

  /** The two quarantines hold the same items and decisions, in memory and row
      by row on file; only when an item was put aside may differ. */
  ghost predicate SameQuarantine(a: Quarantine.Store<QuarantinedExecution>, b: Quarantine.Store<QuarantinedExecution>) {
    && a.memory.resolutions == b.memory.resolutions
    && a.memory.items.Keys == b.memory.items.Keys
    && (forall id :: id in a.memory.items ==> Unstamped(a.memory.items[id]) == Unstamped(b.memory.items[id]))
    && |a.file| == |b.file|
    && (forall i :: 0 <= i < |a.file| ==> UnstampedRow(a.file[i]) == UnstampedRow(b.file[i]))
  }

  function Unstamped(q: QuarantinedExecution): QuarantinedExecution {
    q.(quarantinedAt := 0)
  }

  function UnstampedRow(row: Quarantine.Row<QuarantinedExecution>): Quarantine.Row<QuarantinedExecution> {
    match row
    case QuarantinedRow(id, item) => Quarantine.QuarantinedRow(id, Unstamped(item))
    case ResolutionRow(_) => row
    case UnknownRow(_) => row
  }

  ghost predicate SameButStamps(s: Sync, t: Sync) {
    s.ledger == t.ledger && SameQuarantine(s.quarantine, t.quarantine)
  }

  ghost function UpToStamps(): (Sync, Sync) -> bool {
    (s, t) => SameButStamps(s, t)
  }

  lemma SetAsideFollows(d: Desk, now: Instant, later: Instant, s: Sync, t: Sync, e: Execution, reason: QuarantineReason)
    requires d.rules == RulesOf(d.owner.accountId) && SameButStamps(s, t)
    ensures match (SetAside(d, s, e, reason, now), SetAside(d, t, e, reason, later))
            case (Ok(a), Ok(b)) => SameButStamps(a, b)
            case (Err(x), Err(y)) => x == y
            case _ => false
  {
  }

  /** One execution, met by two states that differ in stamps only, now and
      later: what is done now is done later; at one instant, also refusals agree. */
  lemma OneFollows(d: Desk, now: Instant, later: Instant, s: Sync, t: Sync, e: Execution)
    requires d.rules == RulesOf(d.owner.accountId) && now <= later && SameButStamps(s, t)
    ensures SyncOne(d, now, s, e).Ok? ==>
              SyncOne(d, later, t, e).Ok? && SameButStamps(SyncOne(d, now, s, e).value, SyncOne(d, later, t, e).value)
    ensures now == later && SyncOne(d, now, s, e).Err? ==> SyncOne(d, later, t, e) == SyncOne(d, now, s, e)
  {
    SetAsideFollows(d, now, later, s, t, e, NoPolicyVersion);
    SetAsideFollows(d, now, later, s, t, e, NoIntendedLot);
    hide SetAside, EntryWritten, LatestRecord, HasFill;
  }

  lemma StepFollows(d: Desk, now: Instant, later: Instant)
    requires d.rules == RulesOf(d.owner.accountId) && now <= later
    ensures Follows(Step(d, now), Step(d, later), UpToStamps()) && Agrees(Step(d, later), UpToStamps())
  {
    hide SyncOne, SameButStamps;
    forall s: Sync, t: Sync, e: Execution | SameButStamps(s, t)
      ensures SyncOne(d, now, s, e).Ok? ==>
                && SyncOne(d, later, t, e).Ok?
                && SameButStamps(SyncOne(d, now, s, e).value, SyncOne(d, later, t, e).value)
      ensures SyncOne(d, later, s, e).Ok? ==>
                && SyncOne(d, later, t, e).Ok?
                && SameButStamps(SyncOne(d, later, s, e).value, SyncOne(d, later, t, e).value)
      ensures SyncOne(d, later, s, e).Err? ==> SyncOne(d, later, t, e) == SyncOne(d, later, s, e)
    {
      OneFollows(d, now, later, s, t, e);
      OneFollows(d, later, later, s, t, e);
    }
  }

  /** What was dealt with at one instant is dealt with at every later one. */
  lemma HandledLater(d: Desk, now: Instant, later: Instant, s: Sync, report: seq<Execution>)
    requires now <= later && SyncPass(d, now, s, report).error.None?
    ensures forall e :: e in report ==> HandledAt(d, later)(SyncPass(d, now, s, report).state, e)
  {
    StepIsIdempotent(d, now);
    var done := SyncPass(d, now, s, report).state;
    forall e | e in report ensures HandledAt(d, later)(done, e) {
      PolledIsHandled(Step(d, now), HandledAt(d, now), s, report, e);
      assert Handled(d, now, done, e);
    }
  }

  /** Crash-and-retry convergence: stop a poll after any prefix of its report,
      poll again at any later instant from the start, and the outcome is that of
      one uninterrupted pass at that instant: the same refusal, the same ledger
      and ledger file, the same decisions, and the same quarantine in memory and
      on file but for when an item was put aside. At the very same instant
      nothing differs at all. */
  lemma CrashAndRetryConverges(d: Desk, now: Instant, later: Instant, s: Sync, report: seq<Execution>, k: nat)
    requires d.rules == RulesOf(d.owner.accountId) && now <= later
    requires k <= |report| && SyncPass(d, now, s, report[..k]).error.None?
    ensures var retried := SyncPass(d, later, SyncPass(d, now, s, report[..k]).state, report);
            var whole := SyncPass(d, later, s, report);
            && retried.error == whole.error && SameButStamps(retried.state, whole.state)
            && (now == later ==> retried == whole)
  {
    hide SyncOne, Handled, SameQuarantine;
    StepIsIdempotent(d, later);
    StepFollows(d, now, later);
    HandledLater(d, now, later, s, report[..k]);
    SameAsItself(s);
    LaterRetryConverges(Step(d, now), Step(d, later), HandledAt(d, later), UpToStamps(), s, report, k);
    if now == later {
      RetryConverges(Step(d, now), HandledAt(d, now), s, report, k);
    }
  }

  lemma SameAsItself(s: Sync)
    ensures SameButStamps(s, s)
  {
  }

  /** A repeated report, now or later, writes nothing. */
  lemma RepeatedPollWritesNothing(d: Desk, now: Instant, later: Instant, s: Sync, report: seq<Execution>)
    requires now <= later && SyncPass(d, now, s, report).error.None?
    ensures var done := SyncPass(d, now, s, report).state;
            SyncPass(d, later, done, report) == Progress(done, None)
  {
    StepIsIdempotent(d, later);
    HandledLater(d, now, later, s, report);
    NothingNew(Step(d, later), HandledAt(d, later), SyncPass(d, now, s, report).state, report);
  }
}
