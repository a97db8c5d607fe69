/** Cash movements that are not fills: polled, admitted by an operator or by one
    narrow automatic rule, and never twice. */
module CashEvents {
  import opened Wrappers
  import opened Money
  import opened MarketCalendar
  import opened LedgerBooks
  import opened AccountLedger
  import opened LedgerFile
  import opened LedgerStores
  import opened PollLoop
  import Quarantine

  datatype AccountActivity = AccountActivity(
    activityId: string,
    accountId: string,
    activityType: string,
    activitySubType: Option<string>,
    netAmount: Decimal,
    date: Date,
    createdAt: Option<Instant>,
    symbol: Option<string>,
    description: string
  )

  // ---------------------------------------------------------------- the guard

  datatype Refusal = NoCreatedAt | InsideBaseline

  /** Why an admission must be refused: the posting instant is unknown, or the
      opening balance already reflects the event. */
  function RefuseAdmission(createdAt: Option<Instant>, establishedAt: Option<Instant>): Option<Refusal> {
    if createdAt.None? then Some(NoCreatedAt)
    else if establishedAt.None? then None
    else if createdAt.value <= establishedAt.value then Some(InsideBaseline)
    else None
  }

  const CAT_FEE_TYPE := "FEE"
  const CAT_FEE_SUBTYPE := "CAT"

  predicate IsCatFee(act: AccountActivity) {
    act.activityType == CAT_FEE_TYPE && act.activitySubType == Some(CAT_FEE_SUBTYPE)
  }

  predicate AutoAdmittable(act: AccountActivity, ceiling: Decimal) {
    IsCatFee(act) && act.netAmount < 0.0 && Abs(act.netAmount) <= ceiling
  }

  datatype Disqualified = Baseline(refusal: Refusal) | NotADebit | OverCeiling

  /** Which check failed, for an event that was close to the pattern. */
  function DisqualifyingReason(act: AccountActivity, ceiling: Decimal): Option<Disqualified> {
    if !IsCatFee(act) then None
    else if act.netAmount >= 0.0 then Some(NotADebit)
    else if Abs(act.netAmount) > ceiling then Some(OverCeiling)
    else None
  }

  /** The quarantine reason and the automatic rule never disagree on a fee:
      there is a reason exactly if the rule does not take it. */
  lemma ReasonOrRule(act: AccountActivity, ceiling: Decimal)
    requires IsCatFee(act)
    ensures DisqualifyingReason(act, ceiling).Some? <==> !AutoAdmittable(act, ceiling)
  {
  }

  // ---------------------------------------------------------------- the stores

  datatype QuarantinedCashEvent = QuarantinedCashEvent(activity: AccountActivity, reason: Option<Disqualified>,
                                                       quarantinedAt: Instant)

  function AccountOf(q: QuarantinedCashEvent): string {
    q.activity.accountId
  }

  /** A confirm takes no field of its own. */
  predicate Fits(q: QuarantinedCashEvent, r: Quarantine.Resolution) {
    r.lotId.None? && r.policyVersion.None?
  }

  function RulesOf(accountId: string): Quarantine.Rules<QuarantinedCashEvent> {
    Quarantine.Rules(accountId, AccountOf, Fits)
  }

  type CashEventStore = Quarantine.QuarantineStore<QuarantinedCashEvent>

  datatype AdmissionError = Refused(refusal: Refusal) | NotResolved(error: Quarantine.QuarantineError)

  /** The operator's confirm: a pending event inside the baseline, or without a
      posting instant, is refused before the store is asked. */
  function Confirmed(rules: Quarantine.Rules<QuarantinedCashEvent>, q: Quarantine.Store<QuarantinedCashEvent>,
                     establishedAt: Option<Instant>, r: Quarantine.Resolution)
    : Result<Quarantine.Store<QuarantinedCashEvent>, AdmissionError>
  {
    var pending := r.id in q.memory.items && r.id !in q.memory.resolutions;
    var refusal := if pending then RefuseAdmission(q.memory.items[r.id].activity.createdAt, establishedAt) else None;
    if r.decision.Admitted? && refusal.Some? then Err(Refused(refusal.value))
    else match Quarantine.Resolved(rules, q, r)
         case Err(e) => Err(NotResolved(e))
         case Ok(s) => Ok(s)
  }

  method DecideCashEvent(quarantine: CashEventStore, rows: seq<Row>, id: string, decision: Quarantine.Decision,
                         decidedBy: string, decidedAt: Instant)
    returns (r: Result<Unit, AdmissionError>)
    requires quarantine.Valid() && !decision.OtherDecision?
    modifies quarantine
    ensures quarantine.Valid()
    ensures id !in old(quarantine.items) ==> r == Err(NotResolved(Quarantine.NeverQuarantined))
    ensures id in old(quarantine.items) ==>
              var resolution := Quarantine.Resolution(id, AccountOf(old(quarantine.items)[id]), decision, decidedBy,
                                                      decidedAt, None, None, None);
              match Confirmed(quarantine.rules, old(quarantine.State()), EstablishedAt(rows), resolution)
              case Ok(s) => r == Ok(Unit.Unit) && quarantine.State() == s
              case Err(e) => r == Err(e)
    ensures r.Err? ==> quarantine.State() == old(quarantine.State())
  {
    if id !in quarantine.items {
      return Err(NotResolved(Quarantine.NeverQuarantined));
    }
    var record := quarantine.items[id];
    if decision.Admitted? && id !in quarantine.resolutions {
      var refusal := RefuseAdmission(record.activity.createdAt, EstablishedAt(rows));
      if refusal.Some? {
        return Err(Refused(refusal.value));
      }
    }
    var w := quarantine.Resolve(Quarantine.Resolution(id, AccountOf(record), decision, decidedBy, decidedAt, None, None,
                                                      None));
    return if w.Err? then Err(NotResolved(w.error)) else Ok(Unit.Unit);
  }

  // ---------------------------------------------------------------- one activity

  datatype CashError =
    | WrongAccount
    | NotRecorded(error: StoreError)
    | NotQuarantined(failure: Quarantine.QuarantineError)

  datatype Cash = Cash(ledger: LedgerFile.Store, quarantine: Quarantine.Store<QuarantinedCashEvent>)

  datatype Till = Till(owner: Owner, rules: Quarantine.Rules<QuarantinedCashEvent>, ceiling: Decimal)

  function AdjustmentFor(act: AccountActivity): CashAdjustment {
    CashAdjustment(act.activityId, act.accountId, act.netAmount, act.activityType, act.description, act.date,
                   act.symbol)
  }

  predicate Known(s: Cash, id: string) {
    exists a :: a in s.ledger.view.books.adjustments && a.adjustmentId == id
  }

  function Apply(t: Till, s: Cash, act: AccountActivity): Result<Cash, CashError> {
    match EntryWritten(t.owner, s.ledger, AdjustmentEntry(AdjustmentFor(act)))
    case Err(e) => Err(NotRecorded(e))
    case Ok(ledger) => Ok(s.(ledger := ledger))
  }

  /** First sight of an activity: the narrow pattern is applied at once unless
      the baseline guard refuses it; everything else is put aside. */
  function FirstSeen(t: Till, now: Instant, s: Cash, act: AccountActivity): Result<Cash, CashError> {
    var refusal := if AutoAdmittable(act, t.ceiling)
                   then RefuseAdmission(act.createdAt, s.ledger.view.openingAt) else None;
    if AutoAdmittable(act, t.ceiling) && refusal.None? then Apply(t, s, act)
    else
      var reason := if refusal.Some? then Some(Baseline(refusal.value)) else DisqualifyingReason(act, t.ceiling);
      match Quarantine.PutAside(t.rules, s.quarantine, act.activityId, QuarantinedCashEvent(act, reason, now))
      case Err(x) => Err(NotQuarantined(x))
      case Ok(quarantine) => Ok(s.(quarantine := quarantine))
  }

  function CashOne(t: Till, now: Instant, s: Cash, act: AccountActivity): Result<Cash, CashError> {
    var memory := s.quarantine.memory;
    if Known(s, act.activityId) then Ok(s)
    else if act.accountId != t.owner.accountId then Err(WrongAccount)
    else if act.activityId in memory.resolutions then
      (if memory.resolutions[act.activityId].decision == Quarantine.Admitted then Apply(t, s, act) else Ok(s))
    else if act.activityId in memory.items then Ok(s)
    else FirstSeen(t, now, s, act)
  }

  function Step(t: Till, now: Instant): (Cash, AccountActivity) -> Result<Cash, CashError> {
    (s, act) => CashOne(t, now, s, act)
  }

  /** One whole pass of sync_cash_events over a report. */
  function CashPass(t: Till, now: Instant, s: Cash, report: seq<AccountActivity>): Progress<Cash, CashError> {
    Poll(Step(t, now), s, report)
  }

  // ---------------------------------------------------------------- the loop

  method SyncCashEvents(store: LedgerStore, quarantine: CashEventStore, report: seq<AccountActivity>, ceiling: Decimal,
                        now: Instant)
    returns (r: Result<seq<CashAdjustment>, CashError>)
    requires store.Valid() && quarantine.Valid()
    modifies store, store.ledger, quarantine
    ensures store.Valid() && quarantine.Valid()
    ensures var pass := CashPass(Till(store.owner, quarantine.rules, ceiling), now,
                                 old(Cash(store.State(), quarantine.State())), report);
            && Cash(store.State(), quarantine.State()) == pass.state
            && match pass.error
               case Some(e) => r == Err(e)
               case None => r.Ok? && store.ledger.adjustments == old(store.ledger.adjustments) + r.value
  {
    hide *;
    ghost var t := Till(store.owner, quarantine.rules, ceiling);
    ghost var start := Cash(store.State(), quarantine.State());
    var applied: seq<CashAdjustment> := [];
    PassOfNothing(t, now, start);
    var i := 0;
    while i < |report|
      invariant 0 <= i <= |report|
      invariant store.Valid() && quarantine.Valid()
      invariant CashPass(t, now, start, report[..i]) == Progress(Cash(store.State(), quarantine.State()), None)
      invariant store.ledger.adjustments == old(store.ledger.adjustments) + applied
    {
      PassNext(t, now, start, report, i);
      var w := SyncActivity(store, quarantine, report[i], ceiling, now);
      if w.Err? {
        PassStops(t, now, start, report, i + 1);
        return Err(w.error);
      }
      applied := applied + w.value;
      i := i + 1;
    }
    assert report[..|report|] == report;
    return Ok(applied);
  }

  /** The body of the loop: what one activity writes. */
  method SyncActivity(store: LedgerStore, quarantine: CashEventStore, act: AccountActivity, ceiling: Decimal,
                      now: Instant)
    returns (r: Result<seq<CashAdjustment>, CashError>)
    requires store.Valid() && quarantine.Valid()
    modifies store, store.ledger, quarantine
    ensures store.Valid() && quarantine.Valid()
    ensures match CashOne(Till(store.owner, quarantine.rules, ceiling), now,
                          old(Cash(store.State(), quarantine.State())), act)
            case Err(x) =>
              r == Err(x) && Cash(store.State(), quarantine.State()) == old(Cash(store.State(), quarantine.State()))
            case Ok(s) => r.Ok? && Cash(store.State(), quarantine.State()) == s
    ensures r.Ok? ==> store.ledger.adjustments == old(store.ledger.adjustments) + r.value
  {
    hide Faithful, Quarantine.Faithful;
    var id := act.activityId;
    var knownIds := store.KnownCashAdjustmentIds();
    if id in knownIds {
      return Ok([]);
    }
    if act.accountId != store.owner.accountId {
      return Err(WrongAccount);
    }
    var admitted := false;
    var refusal: Option<Refusal> := None;
    if id in quarantine.resolutions {
      if quarantine.resolutions[id].decision != Quarantine.Admitted {
        return Ok([]);
      }
      admitted := true;
    } else {
      if id in quarantine.items {
        return Ok([]);
      }
      if AutoAdmittable(act, ceiling) {
        refusal := RefuseAdmission(act.createdAt, store.openingAt);
        admitted := refusal.None?;
      }
    }
    if admitted {
      var adjustment := AdjustmentFor(act);
      var w := store.WriteCashAdjustment(adjustment);
      return if w.Err? then Err(NotRecorded(w.error)) else Ok([adjustment]);
    }
    var reason := if refusal.Some? then Some(Baseline(refusal.value)) else DisqualifyingReason(act, ceiling);
    var q := quarantine.Put(id, QuarantinedCashEvent(act, reason, now));
    return if q.Err? then Err(NotQuarantined(q.error)) else Ok([]);
  }

  lemma PassOfNothing(t: Till, now: Instant, s: Cash)
    ensures CashPass(t, now, s, []) == Progress(s, None)
  {
  }

  lemma PassNext(t: Till, now: Instant, s: Cash, report: seq<AccountActivity>, i: nat)
    requires i < |report| && CashPass(t, now, s, report[..i]).error.None?
    ensures CashPass(t, now, s, report[..i + 1]) ==
            match CashOne(t, now, CashPass(t, now, s, report[..i]).state, report[i])
            case Err(x) => Progress(CashPass(t, now, s, report[..i]).state, Some(x))
            case Ok(next) => Progress(next, None)
  {
    assert report[..i + 1] == report[..i] + [report[i]];
    PollOneMore(Step(t, now), s, report[..i], report[i]);
  }

  lemma PassStops(t: Till, now: Instant, s: Cash, report: seq<AccountActivity>, i: nat)
    requires i <= |report| && CashPass(t, now, s, report[..i]).error.Some?
    ensures CashPass(t, now, s, report) == CashPass(t, now, s, report[..i])
  {
    assert report == report[..i] + report[i..];
    PollErrSpreads(Step(t, now), s, report[..i], report[i..]);
  }

  // ---------------------------------------------------------------- stop anywhere, start again

  predicate Handled(t: Till, s: Cash, act: AccountActivity) {
    var memory := s.quarantine.memory;
    || Known(s, act.activityId)
    || (&& act.accountId == t.owner.accountId
        && (act.activityId in memory.resolutions ==> memory.resolutions[act.activityId].decision != Quarantine.Admitted)
        && (act.activityId in memory.resolutions || act.activityId in memory.items))
  }

  function HandledBy(t: Till): (Cash, AccountActivity) -> bool {
    (s, act) => Handled(t, s, act)
  }

  lemma AppliedIsKnown(t: Till, s: Cash, act: AccountActivity)
    requires !Known(s, act.activityId) && Apply(t, s, act).Ok?
    ensures var after := Apply(t, s, act).value;
            && after.ledger.view.books.adjustments == s.ledger.view.books.adjustments + [AdjustmentFor(act)]
            && Known(after, act.activityId)
            && (forall id :: Known(s, id) ==> Known(after, id))
            && after.quarantine == s.quarantine
            && after.ledger.view.books.fills == s.ledger.view.books.fills
            && after.ledger.view.opening == s.ledger.view.opening
  {
    var after := Apply(t, s, act).value.ledger.view.books.adjustments;
    assert AdjustmentFor(act) in after;
    forall id | Known(s, id) ensures Known(Apply(t, s, act).value, id) {
      var a :| a in s.ledger.view.books.adjustments && a.adjustmentId == id;
      assert a in after;
    }
  }

  lemma StepHandles(t: Till, now: Instant, s: Cash, act: AccountActivity)
    requires CashOne(t, now, s, act).Ok?
    ensures Handled(t, CashOne(t, now, s, act).value, act)
    ensures forall c :: Handled(t, s, c) ==> Handled(t, CashOne(t, now, s, act).value, c)
  {
    if !Known(s, act.activityId) && Apply(t, s, act).Ok? {
      AppliedIsKnown(t, s, act);
    }
    hide Apply, Known;
  }

  lemma StepIsIdempotent(t: Till, now: Instant)
    ensures Idempotent(Step(t, now), HandledBy(t))
  {
    forall s: Cash, act: AccountActivity | CashOne(t, now, s, act).Ok?
      ensures Handled(t, CashOne(t, now, s, act).value, act)
      ensures forall c :: Handled(t, s, c) ==> Handled(t, CashOne(t, now, s, act).value, c)
    {
      StepHandles(t, now, s, act);
    }
    hide Apply, FirstSeen;
  }

  /** The two quarantines hold the same events and decisions, in memory and row
      by row on file; only when an event was put aside may differ. */
  ghost predicate SameQuarantine(a: Quarantine.Store<QuarantinedCashEvent>, b: Quarantine.Store<QuarantinedCashEvent>) {
    && a.memory.resolutions == b.memory.resolutions
    && a.memory.items.Keys == b.memory.items.Keys
    && (forall id :: id in a.memory.items ==> Unstamped(a.memory.items[id]) == Unstamped(b.memory.items[id]))
    && |a.file| == |b.file|
    && (forall i :: 0 <= i < |a.file| ==> UnstampedRow(a.file[i]) == UnstampedRow(b.file[i]))
  }

  function Unstamped(q: QuarantinedCashEvent): QuarantinedCashEvent {
    q.(quarantinedAt := 0)
  }

  function UnstampedRow(row: Quarantine.Row<QuarantinedCashEvent>): Quarantine.Row<QuarantinedCashEvent> {
    match row
    case QuarantinedRow(id, item) => Quarantine.QuarantinedRow(id, Unstamped(item))
    case ResolutionRow(_) => row
    case UnknownRow(_) => row
  }

  ghost predicate SameButStamps(s: Cash, t: Cash) {
    s.ledger == t.ledger && SameQuarantine(s.quarantine, t.quarantine)
  }

  ghost function UpToStamps(): (Cash, Cash) -> bool {
    (s, t) => SameButStamps(s, t)
  }

  lemma FirstSeenFollows(t: Till, now: Instant, later: Instant, a: Cash, b: Cash, act: AccountActivity)
    requires t.rules == RulesOf(t.owner.accountId) && SameButStamps(a, b)
    ensures match (FirstSeen(t, now, a, act), FirstSeen(t, later, b, act))
            case (Ok(x), Ok(y)) => SameButStamps(x, y)
            case (Err(x), Err(y)) => x == y
            case _ => false
  {
    hide EntryWritten, DisqualifyingReason, AutoAdmittable, RefuseAdmission;
  }

  /** One activity, met by two states that differ in stamps only, at two
      instants: the same outcome up to stamps, and the same refusals. */
  lemma OneFollows(t: Till, now: Instant, later: Instant, a: Cash, b: Cash, act: AccountActivity)
    requires t.rules == RulesOf(t.owner.accountId) && SameButStamps(a, b)
    ensures match (CashOne(t, now, a, act), CashOne(t, later, b, act))
            case (Ok(x), Ok(y)) => SameButStamps(x, y)
            case (Err(x), Err(y)) => x == y
            case _ => false
  {
    FirstSeenFollows(t, now, later, a, b, act);
    hide FirstSeen, EntryWritten;
  }

  lemma StepFollows(t: Till, now: Instant, later: Instant)
    requires t.rules == RulesOf(t.owner.accountId)
    ensures Follows(Step(t, now), Step(t, later), UpToStamps()) && Agrees(Step(t, later), UpToStamps())
  {
    hide CashOne, SameButStamps;
    forall a: Cash, b: Cash, act: AccountActivity | SameButStamps(a, b)
      ensures CashOne(t, now, a, act).Ok? ==>
                && CashOne(t, later, b, act).Ok?
                && SameButStamps(CashOne(t, now, a, act).value, CashOne(t, later, b, act).value)
      ensures CashOne(t, later, a, act).Ok? ==>
                && CashOne(t, later, b, act).Ok?
                && SameButStamps(CashOne(t, later, a, act).value, CashOne(t, later, b, act).value)
      ensures CashOne(t, later, a, act).Err? ==> CashOne(t, later, b, act) == CashOne(t, later, a, act)
    {
      OneFollows(t, now, later, a, b, act);
      OneFollows(t, later, later, a, b, act);
    }
  }

  lemma PolledIsHandledBy(t: Till, now: Instant, s: Cash, report: seq<AccountActivity>)
    requires CashPass(t, now, s, report).error.None?
    ensures forall act :: act in report ==> HandledBy(t)(CashPass(t, now, s, report).state, act)
  {
    StepIsIdempotent(t, now);
    forall act | act in report ensures HandledBy(t)(CashPass(t, now, s, report).state, act) {
      PolledIsHandled(Step(t, now), HandledBy(t), s, report, act);
    }
  }

  /** Crash-and-retry convergence, for cash events: stop after any prefix, poll
      again at any other instant from the start, and the outcome is that of one
      uninterrupted pass then, but for when an event was put aside. */
  lemma CrashAndRetryConverges(t: Till, now: Instant, later: Instant, s: Cash, report: seq<AccountActivity>, k: nat)
    requires t.rules == RulesOf(t.owner.accountId)
    requires k <= |report| && CashPass(t, now, s, report[..k]).error.None?
    ensures var retried := CashPass(t, later, CashPass(t, now, s, report[..k]).state, report);
            var whole := CashPass(t, later, s, report);
            && retried.error == whole.error && SameButStamps(retried.state, whole.state)
            && (now == later ==> retried == whole)
  {
    hide CashOne, Handled, SameQuarantine;
    StepIsIdempotent(t, later);
    StepFollows(t, now, later);
    PolledIsHandledBy(t, now, s, report[..k]);
    SameAsItself(s);
    LaterRetryConverges(Step(t, now), Step(t, later), HandledBy(t), UpToStamps(), s, report, k);
    if now == later {
      RetryConverges(Step(t, now), HandledBy(t), s, report, k);
    }
  }

  lemma SameAsItself(s: Cash)
    ensures SameButStamps(s, s)
  {
  }

  /** A repeated report, at any instant, writes nothing. */
  lemma RepeatedPollWritesNothing(t: Till, now: Instant, later: Instant, s: Cash, report: seq<AccountActivity>)
    requires CashPass(t, now, s, report).error.None?
    ensures var done := CashPass(t, now, s, report).state;
            CashPass(t, later, done, report) == Progress(done, None)
  {
    StepIsIdempotent(t, later);
    PolledIsHandledBy(t, now, s, report);
    NothingNew(Step(t, later), HandledBy(t), CashPass(t, now, s, report).state, report);
  }
}
