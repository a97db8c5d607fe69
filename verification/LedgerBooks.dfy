/** The ledger's record: what may enter it, and what each figure means as a
    function of the record alone. */
module LedgerBooks {
  import opened Wrappers
  import opened Money
  import opened MarketCalendar
  import opened LotSelection
  import opened Holding

  // ---------------------------------------------------------------- the record

  datatype Side = Buy | Sell | OtherSide(text: string)

  datatype Fill = Fill(
    fillId: string,
    accountId: string,
    symbol: string,
    side: Side,
    qty: Decimal,
    price: Decimal,
    filledAt: Instant,
    lotId: string,
    policyVersion: Option<string>
  )

  datatype CashAdjustment = CashAdjustment(
    adjustmentId: string,
    accountId: string,
    amount: Decimal,
    activityType: string,
    description: string,
    effectiveDate: Date,
    symbol: Option<string>
  )

  datatype OpeningBalanceCorrection = OpeningBalanceCorrection(
    correctionId: string,
    accountId: string,
    amount: Decimal,
    reason: string,
    correctsOpeningBalanceAt: Instant,
    recordedAt: Instant
  )

  datatype OrderStatus = Open | Closed | OtherStatus(text: string)

  datatype OrderRecord = OrderRecord(
    clientOrderId: string,
    accountId: string,
    status: OrderStatus,
    at: Instant,
    lotId: Option<string>,
    policyVersion: Option<string>
  )

  datatype LedgerError =
    | CrossAccount
    | NegativeOpening
    | UnknownSide
    | QtyNotPositive
    | DuplicateFill
    | PolicyMissing
    | LotReused
    | UnknownPolicy
    | UnknownLot
    | SymbolMismatch
    | LotOverdrawn
    | UnknownStatus
    | DuplicateAdjustment
    | DuplicateCorrection

  /** The four append-only lists of one account. */
  datatype Books = Books(
    fills: seq<Fill>,
    orders: seq<OrderRecord>,
    adjustments: seq<CashAdjustment>,
    corrections: seq<OpeningBalanceCorrection>
  )

  const EMPTY := Books([], [], [], [])

  /** Whose ledger it is, and the holding policies it can resolve. */
  datatype Owner = Owner(accountId: string, policies: map<string, HoldingPolicy>)

  datatype Entry =
    | FillEntry(fill: Fill)
    | OrderEntry(order: OrderRecord)
    | AdjustmentEntry(adjustment: CashAdjustment)
    | CorrectionEntry(correction: OpeningBalanceCorrection)

  // ---------------------------------------------------------------- what may enter

  predicate HasFill(fills: seq<Fill>, id: string) {
    exists f :: f in fills && f.fillId == id
  }

  /** The first BUY that opened a lot. */
  function BuyOf(fills: seq<Fill>, lotId: string): (r: Option<Fill>)
    ensures r.Some? ==> r.value in fills && r.value.side.Buy? && r.value.lotId == lotId
    ensures r.None? ==> forall f :: f in fills && f.side.Buy? ==> f.lotId != lotId
  {
    if fills == [] then None
    else
      var last := fills[|fills| - 1];
      var earlier := BuyOf(fills[..|fills| - 1], lotId);
      if earlier.Some? then earlier
      else if last.side.Buy? && last.lotId == lotId then Some(last)
      else None
  }

  /** The sum of w over the sells of one lot. */
  function PerLot(fills: seq<Fill>, lotId: string, w: Fill -> Decimal): Decimal {
    if fills == [] then 0.0
    else
      var last := fills[|fills| - 1];
      PerLot(fills[..|fills| - 1], lotId, w) + if !last.side.Buy? && last.lotId == lotId then w(last) else 0.0
  }

  function QtyOf(f: Fill): Decimal { f.qty }

  function NotionalOf(f: Fill): Decimal { CashNotional(f.qty, f.price) }

  function SoldQty(fills: seq<Fill>, lotId: string): Decimal {
    PerLot(fills, lotId, QtyOf)
  }

  datatype Verdict = Append | Replay | Refuse(error: LedgerError)

  /** The checks of record_fill, in their order. */
  function FillVerdict(o: Owner, fills: seq<Fill>, f: Fill): Verdict {
    if f.accountId != o.accountId then Refuse(CrossAccount)
    else if f.side.OtherSide? then Refuse(UnknownSide)
    else if f.qty <= 0.0 then Refuse(QtyNotPositive)
    else if HasFill(fills, f.fillId) then (if f in fills then Replay else Refuse(DuplicateFill))
    else if f.side.Buy? then
      if f.policyVersion.None? then Refuse(PolicyMissing)
      else if BuyOf(fills, f.lotId).Some? then Refuse(LotReused)
      else if f.policyVersion.value !in o.policies then Refuse(UnknownPolicy)
      else Append
    else
      match BuyOf(fills, f.lotId)
      case None => Refuse(UnknownLot)
      case Some(buy) =>
        if buy.symbol != f.symbol then Refuse(SymbolMismatch)
        else if SoldQty(fills, f.lotId) + f.qty > buy.qty then Refuse(LotOverdrawn)
        else Append
  }

  function AdjustmentVerdict(o: Owner, adjustments: seq<CashAdjustment>, a: CashAdjustment): Verdict {
    if a.accountId != o.accountId then Refuse(CrossAccount)
    else if exists b :: b in adjustments && b.adjustmentId == a.adjustmentId then
      (if a in adjustments then Replay else Refuse(DuplicateAdjustment))
    else Append
  }

  function CorrectionVerdict(o: Owner, corrections: seq<OpeningBalanceCorrection>, c: OpeningBalanceCorrection)
    : Verdict
  {
    if c.accountId != o.accountId then Refuse(CrossAccount)
    else if exists d :: d in corrections && d.correctionId == c.correctionId then
      (if c in corrections then Replay else Refuse(DuplicateCorrection))
    else Append
  }

  function OrderVerdict(o: Owner, r: OrderRecord): Verdict {
    if r.accountId != o.accountId then Refuse(CrossAccount)
    else if r.status.OtherStatus? then Refuse(UnknownStatus)
    else Append
  }

  function VerdictOn(o: Owner, b: Books, e: Entry): Verdict {
    match e
    case FillEntry(f) => FillVerdict(o, b.fills, f)
    case OrderEntry(r) => OrderVerdict(o, r)
    case AdjustmentEntry(a) => AdjustmentVerdict(o, b.adjustments, a)
    case CorrectionEntry(c) => CorrectionVerdict(o, b.corrections, c)
  }

  function Appended(b: Books, e: Entry): Books {
    match e
    case FillEntry(f) => b.(fills := b.fills + [f])
    case OrderEntry(r) => b.(orders := b.orders + [r])
    case AdjustmentEntry(a) => b.(adjustments := b.adjustments + [a])
    case CorrectionEntry(c) => b.(corrections := b.corrections + [c])
  }

  /** The books after one record_* call, or the exception it raises. */
  function Recorded(o: Owner, b: Books, e: Entry): Result<Books, LedgerError> {
    match VerdictOn(o, b, e)
    case Append => Ok(Appended(b, e))
    case Replay => Ok(b)
    case Refuse(error) => Err(error)
  }

  // ---------------------------------------------------------------- the record's invariant

  /** Every fill was acceptable after the fills before it. */
  ghost predicate FillsOk(o: Owner, fills: seq<Fill>) {
    fills == [] ||
    var n := |fills| - 1;
    FillsOk(o, fills[..n]) && FillVerdict(o, fills[..n], fills[n]) == Append
  }

  ghost predicate BooksOk(o: Owner, b: Books) {
    && FillsOk(o, b.fills)
    && (forall r :: r in b.orders ==> OrderVerdict(o, r) == Append)
    && (forall a :: a in b.adjustments ==> a.accountId == o.accountId)
    && (forall i, j :: 0 <= i < j < |b.adjustments| ==> b.adjustments[i].adjustmentId != b.adjustments[j].adjustmentId)
    && (forall c :: c in b.corrections ==> c.accountId == o.accountId)
    && (forall i, j :: 0 <= i < j < |b.corrections| ==> b.corrections[i].correctionId != b.corrections[j].correctionId)
  }

  lemma RecordingKeepsBooksOk(o: Owner, b: Books, e: Entry)
    requires BooksOk(o, b) && Recorded(o, b, e).Ok?
    ensures BooksOk(o, Recorded(o, b, e).value)
  {
    if e.FillEntry? {
      assert (b.fills + [e.fill])[..|b.fills|] == b.fills;
    }
  }

  // ---------------------------------------------------------------- replay

  function RecordAll(o: Owner, b: Books, entries: seq<Entry>): Result<Books, LedgerError> {
    if entries == [] then Ok(b)
    else match RecordAll(o, b, entries[..|entries| - 1])
         case Err(e) => Err(e)
         case Ok(before) => Recorded(o, before, entries[|entries| - 1])
  }

  function FillEntries(fills: seq<Fill>): seq<Entry> {
    seq(|fills|, i requires 0 <= i < |fills| => FillEntry(fills[i]))
  }

  function OrderEntries(orders: seq<OrderRecord>): seq<Entry> {
    seq(|orders|, i requires 0 <= i < |orders| => OrderEntry(orders[i]))
  }

  function AdjustmentEntries(adjustments: seq<CashAdjustment>): seq<Entry> {
    seq(|adjustments|, i requires 0 <= i < |adjustments| => AdjustmentEntry(adjustments[i]))
  }

  function CorrectionEntries(corrections: seq<OpeningBalanceCorrection>): seq<Entry> {
    seq(|corrections|, i requires 0 <= i < |corrections| => CorrectionEntry(corrections[i]))
  }

  /** The order in which from_records replays a record. */
  function EntriesOf(b: Books): seq<Entry> {
    FillEntries(b.fills) + OrderEntries(b.orders) + AdjustmentEntries(b.adjustments) + CorrectionEntries(b.corrections)
  }

  lemma RecordOneMore(o: Owner, b: Books, entries: seq<Entry>, e: Entry)
    ensures RecordAll(o, b, entries + [e]) ==
            match RecordAll(o, b, entries) case Err(x) => Err(x) case Ok(before) => Recorded(o, before, e)
  {
    assert (entries + [e])[..|entries|] == entries;
  }

  lemma RecordNext(o: Owner, b: Books, entries: seq<Entry>, i: nat)
    requires i < |entries|
    ensures RecordAll(o, b, entries[..i + 1]) ==
            match RecordAll(o, b, entries[..i]) case Err(x) => Err(x) case Ok(before) => Recorded(o, before, entries[i])
  {
    assert entries[..i + 1] == entries[..i] + [entries[i]];
    RecordOneMore(o, b, entries[..i], entries[i]);
  }

  lemma {:induction false} RecordErrSpreads(o: Owner, b: Books, entries: seq<Entry>, more: seq<Entry>)
    requires RecordAll(o, b, entries).Err?
    ensures RecordAll(o, b, entries + more) == RecordAll(o, b, entries)
  {
    if more == [] {
      assert entries + more == entries;
    } else {
      RecordErrSpreads(o, b, entries, more[..|more| - 1]);
      assert entries + more == (entries + more[..|more| - 1]) + [more[|more| - 1]];
      RecordOneMore(o, b, entries + more[..|more| - 1], more[|more| - 1]);
    }
  }

  lemma RecordStops(o: Owner, b: Books, entries: seq<Entry>, i: nat)
    requires i <= |entries| && RecordAll(o, b, entries[..i]).Err?
    ensures RecordAll(o, b, entries) == RecordAll(o, b, entries[..i])
  {
    RecordErrSpreads(o, b, entries[..i], entries[i..]);
    assert entries == entries[..i] + entries[i..];
  }

  lemma {:induction false} RecordInTwo(o: Owner, b: Books, first: seq<Entry>, rest: seq<Entry>)
    requires RecordAll(o, b, first).Ok?
    ensures RecordAll(o, b, first + rest) == RecordAll(o, RecordAll(o, b, first).value, rest)
  {
    if rest == [] {
      assert first + rest == first;
    } else {
      var front, last := rest[..|rest| - 1], rest[|rest| - 1];
      RecordInTwo(o, b, first, front);
      assert first + rest == (first + front) + [last];
      RecordOneMore(o, b, first + front, last);
    }
  }

  /** Three parts in a row: a refusal in the first or the second is the outcome;
      otherwise the second goes on where the first ended. */
  lemma RecordSegment(o: Owner, b: Books, first: seq<Entry>, next: seq<Entry>, rest: seq<Entry>)
    ensures RecordAll(o, b, first).Err? ==> RecordAll(o, b, first + next + rest) == RecordAll(o, b, first)
    ensures RecordAll(o, b, first).Ok? ==>
              && RecordAll(o, b, first + next) == RecordAll(o, RecordAll(o, b, first).value, next)
              && (RecordAll(o, b, first + next).Err? ==>
                    RecordAll(o, b, first + next + rest) == RecordAll(o, b, first + next))
  {
    hide RecordAll;
    if RecordAll(o, b, first).Err? {
      RecordErrSpreads(o, b, first, next + rest);
      assert first + next + rest == first + (next + rest);
    } else {
      RecordInTwo(o, b, first, next);
      if RecordAll(o, b, first + next).Err? {
        RecordErrSpreads(o, b, first + next, rest);
      }
    }
  }

  /** Reconstruction: replaying the record of any accepted books, from nothing
      and through the same checks, is never refused and rebuilds them exactly. */
  lemma ReplayRebuilds(o: Owner, b: Books)
    requires BooksOk(o, b)
    ensures RecordAll(o, EMPTY, EntriesOf(b)) == Ok(b)
  {
    var fs, os, adjs, cs := FillEntries(b.fills), OrderEntries(b.orders), AdjustmentEntries(b.adjustments),
        CorrectionEntries(b.corrections);
    ReplayFills(o, b.fills);
    RecordInTwo(o, EMPTY, fs, os);
    ReplayOrders(o, b, b.orders);
    RecordInTwo(o, EMPTY, fs + os, adjs);
    ReplayAdjustments(o, b, b.adjustments);
    RecordInTwo(o, EMPTY, fs + os + adjs, cs);
    ReplayCorrections(o, b, b.corrections);
  }

  lemma FillEntriesAppend(fills: seq<Fill>, f: Fill)
    ensures FillEntries(fills + [f]) == FillEntries(fills) + [FillEntry(f)]
  {
  }

  lemma OrderEntriesAppend(orders: seq<OrderRecord>, r: OrderRecord)
    ensures OrderEntries(orders + [r]) == OrderEntries(orders) + [OrderEntry(r)]
  {
  }

  lemma AdjustmentEntriesAppend(adjustments: seq<CashAdjustment>, a: CashAdjustment)
    ensures AdjustmentEntries(adjustments + [a]) == AdjustmentEntries(adjustments) + [AdjustmentEntry(a)]
  {
  }

  lemma CorrectionEntriesAppend(corrections: seq<OpeningBalanceCorrection>, c: OpeningBalanceCorrection)
    ensures CorrectionEntries(corrections + [c]) == CorrectionEntries(corrections) + [CorrectionEntry(c)]
  {
  }

  lemma {:induction false} ReplayFills(o: Owner, fills: seq<Fill>)
    requires FillsOk(o, fills)
    ensures RecordAll(o, EMPTY, FillEntries(fills)) == Ok(EMPTY.(fills := fills))
  {
    hide FillVerdict, RecordAll, FillEntries;
    if fills == [] {
      ReplayNothing(o);
    } else {
      var front, last := fills[..|fills| - 1], fills[|fills| - 1];
      ReplayFills(o, front);
      assert fills == front + [last];
      ReplayFill(o, front, last);
    }
  }

  lemma ReplayNothing(o: Owner)
    ensures RecordAll(o, EMPTY, FillEntries([])) == Ok(EMPTY)
  {
  }

  lemma ReplayFill(o: Owner, fills: seq<Fill>, f: Fill)
    requires RecordAll(o, EMPTY, FillEntries(fills)) == Ok(EMPTY.(fills := fills))
    requires FillVerdict(o, fills, f) == Append
    ensures RecordAll(o, EMPTY, FillEntries(fills + [f])) == Ok(EMPTY.(fills := fills + [f]))
  {
    FillEntriesAppend(fills, f);
    RecordOneMore(o, EMPTY, FillEntries(fills), FillEntry(f));
  }

  lemma {:induction false} ReplayOrders(o: Owner, b: Books, orders: seq<OrderRecord>)
    requires forall r :: r in orders ==> OrderVerdict(o, r) == Append
    ensures RecordAll(o, EMPTY.(fills := b.fills), OrderEntries(orders)) ==
            Ok(EMPTY.(fills := b.fills, orders := orders))
  {
    if orders != [] {
      var front, last := orders[..|orders| - 1], orders[|orders| - 1];
      ReplayOrders(o, b, front);
      assert orders == front + [last];
      OrderEntriesAppend(front, last);
      RecordOneMore(o, EMPTY.(fills := b.fills), OrderEntries(front), OrderEntry(last));
    }
  }

  lemma {:induction false} ReplayAdjustments(o: Owner, b: Books, adjustments: seq<CashAdjustment>)
    requires forall a :: a in adjustments ==> a.accountId == o.accountId
    requires forall i, j :: 0 <= i < j < |adjustments| ==> adjustments[i].adjustmentId != adjustments[j].adjustmentId
    ensures RecordAll(o, b.(adjustments := [], corrections := []), AdjustmentEntries(adjustments)) ==
            Ok(b.(adjustments := adjustments, corrections := []))
  {
    if adjustments != [] {
      var front, last := adjustments[..|adjustments| - 1], adjustments[|adjustments| - 1];
      ReplayAdjustments(o, b, front);
      assert adjustments == front + [last];
      ReplayAdjustment(o, b, front, last);
    }
  }

  lemma ReplayAdjustment(o: Owner, b: Books, adjustments: seq<CashAdjustment>, a: CashAdjustment)
    requires RecordAll(o, b.(adjustments := [], corrections := []), AdjustmentEntries(adjustments)) ==
             Ok(b.(adjustments := adjustments, corrections := []))
    requires a.accountId == o.accountId && forall x :: x in adjustments ==> x.adjustmentId != a.adjustmentId
    ensures RecordAll(o, b.(adjustments := [], corrections := []), AdjustmentEntries(adjustments + [a])) ==
            Ok(b.(adjustments := adjustments + [a], corrections := []))
  {
    hide RecordAll, AdjustmentEntries;
    AdjustmentEntriesAppend(adjustments, a);
    RecordOneMore(o, b.(adjustments := [], corrections := []), AdjustmentEntries(adjustments), AdjustmentEntry(a));
    assert AdjustmentVerdict(o, adjustments, a) == Append;
  }

  lemma {:induction false} ReplayCorrections(o: Owner, b: Books, corrections: seq<OpeningBalanceCorrection>)
    requires forall c :: c in corrections ==> c.accountId == o.accountId
    requires forall i, j :: 0 <= i < j < |corrections| ==> corrections[i].correctionId != corrections[j].correctionId
    ensures RecordAll(o, b.(corrections := []), CorrectionEntries(corrections)) == Ok(b.(corrections := corrections))
  {
    if corrections != [] {
      var front, last := corrections[..|corrections| - 1], corrections[|corrections| - 1];
      ReplayCorrections(o, b, front);
      assert corrections == front + [last];
      ReplayCorrection(o, b, front, last);
    }
  }

  lemma ReplayCorrection(o: Owner, b: Books, corrections: seq<OpeningBalanceCorrection>, c: OpeningBalanceCorrection)
    requires RecordAll(o, b.(corrections := []), CorrectionEntries(corrections)) == Ok(b.(corrections := corrections))
    requires c.accountId == o.accountId && forall x :: x in corrections ==> x.correctionId != c.correctionId
    ensures RecordAll(o, b.(corrections := []), CorrectionEntries(corrections + [c])) ==
            Ok(b.(corrections := corrections + [c]))
  {
    hide RecordAll, CorrectionEntries;
    CorrectionEntriesAppend(corrections, c);
    RecordOneMore(o, b.(corrections := []), CorrectionEntries(corrections), CorrectionEntry(c));
    assert CorrectionVerdict(o, corrections, c) == Append;
  }

  // ---------------------------------------------------------------- facts of an accepted log

  /** Every fill on the record is this account's, a BUY or a SELL of a positive
      quantity, and every BUY names a known policy. */
  lemma {:induction false} FillShapes(o: Owner, fills: seq<Fill>)
    requires FillsOk(o, fills)
    ensures forall f :: f in fills ==> f.accountId == o.accountId && !f.side.OtherSide? && f.qty > 0.0
    ensures forall f :: f in fills && f.side.Buy? ==> f.policyVersion.Some? && f.policyVersion.value in o.policies
  {
    if fills != [] {
      var before, f := fills[..|fills| - 1], fills[|fills| - 1];
      assert FillVerdict(o, before, f) == Append;
      assert f.accountId == o.accountId && !f.side.OtherSide? && f.qty > 0.0;
      assert f.side.Buy? ==> f.policyVersion.Some? && f.policyVersion.value in o.policies;
      FillShapes(o, before);
      forall g | g in fills ensures g in before || g == f {
      }
    }
  }

  /** No fill id is on the record twice. */
  lemma {:induction false} FillIdsDistinct(o: Owner, fills: seq<Fill>)
    requires FillsOk(o, fills)
    ensures forall i, j :: 0 <= i < j < |fills| ==> fills[i].fillId != fills[j].fillId
  {
    if fills != [] {
      var n := |fills| - 1;
      FillIdsDistinct(o, fills[..n]);
      forall i | 0 <= i < n ensures fills[i].fillId != fills[n].fillId {
        assert fills[i] in fills[..n];
      }
    }
  }

  /** A lot id finds the one BUY that opened it. */
  lemma {:induction false} BuyFound(o: Owner, fills: seq<Fill>, f: Fill)
    requires FillsOk(o, fills) && f in fills && f.side.Buy?
    ensures BuyOf(fills, f.lotId) == Some(f)
  {
    var before, last := fills[..|fills| - 1], fills[|fills| - 1];
    assert fills == before + [last];
    if f in before {
      BuyFound(o, before, f);
    }
  }

  lemma BuysKnowTheirPolicies(o: Owner, fills: seq<Fill>)
    requires FillsOk(o, fills)
    ensures forall b :: b in BuyFills(fills) ==>
              b.qty > 0.0 && b.policyVersion.Some? && b.policyVersion.value in o.policies
  {
    FillShapes(o, fills);
    BuyFillsMember(fills);
  }

  /** Lots are never overdrawn, and a lot without a BUY has no sells. */
  lemma {:induction false} NeverOverdrawn(o: Owner, fills: seq<Fill>, lotId: string)
    requires FillsOk(o, fills)
    ensures 0.0 <= SoldQty(fills, lotId)
    ensures SoldQty(fills, lotId) <= match BuyOf(fills, lotId) case None => 0.0 case Some(b) => b.qty
  {
    if fills != [] {
      NeverOverdrawn(o, fills[..|fills| - 1], lotId);
    }
  }

  // ---------------------------------------------------------------- cash

  predicate SettledBy(m: Market, f: Fill, now: Instant) {
    SettlementInstant(m, f.filledAt).Some? && now >= SettlementInstant(m, f.filledAt).value
  }

  /** A BUY debits at once; a sale's proceeds count from settlement on. */
  function CashEffect(m: Market, f: Fill, now: Instant): Decimal {
    if f.side.Buy? then -CashNotional(f.qty, f.price)
    else if SettledBy(m, f, now) then CashNotional(f.qty, f.price)
    else 0.0
  }

  function FillsCash(m: Market, fills: seq<Fill>, now: Instant): Decimal {
    if fills == [] then 0.0
    else FillsCash(m, fills[..|fills| - 1], now) + CashEffect(m, fills[|fills| - 1], now)
  }

  function AdjustmentsCash(adjustments: seq<CashAdjustment>): Decimal {
    if adjustments == [] then 0.0
    else AdjustmentsCash(adjustments[..|adjustments| - 1]) + adjustments[|adjustments| - 1].amount
  }

  function CorrectionsCash(corrections: seq<OpeningBalanceCorrection>): Decimal {
    if corrections == [] then 0.0
    else CorrectionsCash(corrections[..|corrections| - 1]) + corrections[|corrections| - 1].amount
  }

  /** Every sale falls on a covered session whose settlement is covered. */
  predicate SalesSettle(m: Market, fills: seq<Fill>) {
    forall f :: f in fills && !f.side.Buy? ==> SettlementInstant(m, f.filledAt).Some?
  }

  /** Settled cash; None where the calendar raises. */
  function SettledCashOf(m: Market, opening: Decimal, b: Books, now: Instant): Option<Decimal> {
    if SalesSettle(m, b.fills)
    then Some(opening + FillsCash(m, b.fills, now) + AdjustmentsCash(b.adjustments) + CorrectionsCash(b.corrections))
    else None
  }

  /** Proceeds of sales that have not settled yet. */
  function UnsettledOf(m: Market, fills: seq<Fill>, now: Instant): Decimal {
    if fills == [] then 0.0
    else
      var last := fills[|fills| - 1];
      UnsettledOf(m, fills[..|fills| - 1], now)
      + if !last.side.Buy? && !SettledBy(m, last, now) then CashNotional(last.qty, last.price) else 0.0
  }

  // ---------------------------------------------------------------- lots

  function BuyFills(fills: seq<Fill>): seq<Fill> {
    if fills == [] then []
    else
      var last := fills[|fills| - 1];
      if last.side.Buy? then BuyFills(fills[..|fills| - 1]) + [last] else BuyFills(fills[..|fills| - 1])
  }

  lemma {:induction false} BuyFillsMember(fills: seq<Fill>)
    ensures forall f :: f in BuyFills(fills) <==> f in fills && f.side.Buy?
  {
    if fills != [] {
      BuyFillsMember(fills[..|fills| - 1]);
      assert fills == fills[..|fills| - 1] + [fills[|fills| - 1]];
    }
  }

  function LastSellAt(fills: seq<Fill>, lotId: string): Option<Instant> {
    if fills == [] then None
    else
      var last := fills[|fills| - 1];
      if !last.side.Buy? && last.lotId == lotId then Some(last.filledAt)
      else LastSellAt(fills[..|fills| - 1], lotId)
  }

  /** max(bought - sold, 0) */
  function Remaining(fills: seq<Fill>, buy: Fill): Decimal {
    var left := buy.qty - SoldQty(fills, buy.lotId);
    if left > 0.0 then left else 0.0
  }

  predicate LotKnown(m: Market, o: Owner, buy: Fill) {
    && SettlementInstant(m, buy.filledAt).Some?
    && buy.policyVersion.Some? && buy.policyVersion.value in o.policies
  }

  /** A lot as it stands now. Its basis is what is left at its buy price. */
  function LotOf(m: Market, o: Owner, fills: seq<Fill>, buy: Fill): Lot
    requires LotKnown(m, o, buy)
  {
    var remaining := Remaining(fills, buy);
    Lot(buy.lotId, o.accountId, buy.symbol, remaining, remaining * buy.price, buy.filledAt,
        o.policies[buy.policyVersion.value].minimumHold, o.policies[buy.policyVersion.value].version,
        SettlementInstant(m, buy.filledAt),
        if remaining <= 0.0 then LastSellAt(fills, buy.lotId) else None)
  }

  function LotsFor(m: Market, o: Owner, fills: seq<Fill>, buys: seq<Fill>): (lots: seq<Lot>)
    requires forall b :: b in buys ==> LotKnown(m, o, b)
    ensures |lots| == |buys|
  {
    if buys == [] then []
    else LotsFor(m, o, fills, buys[..|buys| - 1]) + [LotOf(m, o, fills, buys[|buys| - 1])]
  }

  /** Open and closed lots in buy order; None where the calendar raises. */
  function LotsOf(m: Market, o: Owner, fills: seq<Fill>): Option<seq<Lot>> {
    if forall b :: b in BuyFills(fills) ==> LotKnown(m, o, b)
    then Some(LotsFor(m, o, fills, BuyFills(fills)))
    else None
  }

  function Lookup(positions: map<string, Decimal>, symbol: string): Decimal {
    if symbol in positions then positions[symbol] else 0.0
  }

  /** The opening layer plus every open lot. */
  function PositionsOf(base: map<string, Decimal>, lots: seq<Lot>, accountId: string): map<string, Decimal> {
    if lots == [] then base
    else
      var below := PositionsOf(base, lots[..|lots| - 1], accountId);
      var l := lots[|lots| - 1];
      if l.IsOpen() && l.accountId == accountId then below[l.symbol := Lookup(below, l.symbol) + l.qty] else below
  }

  datatype ClosedLot = ClosedLot(
    lotId: string,
    accountId: string,
    symbol: string,
    qty: Decimal,
    costBasis: Decimal,
    proceeds: Decimal,
    openedAt: Instant,
    closedAt: Option<Instant>
  ) {
    function RealizedPnl(): Decimal {
      proceeds - costBasis
    }
  }

  function ClosedLotOf(fills: seq<Fill>, b: Fill): ClosedLot {
    ClosedLot(b.lotId, b.accountId, b.symbol, b.qty, b.qty * b.price, PerLot(fills, b.lotId, NotionalOf),
              b.filledAt, LastSellAt(fills, b.lotId))
  }

  /** The lots that are sold out, in buy order. */
  function ClosedLotsFor(fills: seq<Fill>, buys: seq<Fill>): seq<ClosedLot> {
    if buys == [] then []
    else
      var b := buys[|buys| - 1];
      var earlier := ClosedLotsFor(fills, buys[..|buys| - 1]);
      if SoldQty(fills, b.lotId) < b.qty then earlier else earlier + [ClosedLotOf(fills, b)]
  }

  // ---------------------------------------------------------------- one more fill

  lemma PerLotAppend(fills: seq<Fill>, f: Fill, w: Fill -> Decimal)
    ensures forall l :: PerLot(fills + [f], l, w) ==
                        PerLot(fills, l, w) + if !f.side.Buy? && f.lotId == l then w(f) else 0.0
  {
    assert (fills + [f])[..|fills|] == fills;
  }

  lemma BuyOfAppend(fills: seq<Fill>, f: Fill)
    ensures forall l :: BuyOf(fills + [f], l) ==
                        if BuyOf(fills, l).None? && f.side.Buy? && f.lotId == l then Some(f) else BuyOf(fills, l)
  {
    assert (fills + [f])[..|fills|] == fills;
  }

  lemma BuyFillsAppend(fills: seq<Fill>, f: Fill)
    ensures f.side.Buy? ==> BuyFills(fills + [f]) == BuyFills(fills) + [f]
    ensures !f.side.Buy? ==> BuyFills(fills + [f]) == BuyFills(fills)
  {
    assert (fills + [f])[..|fills|] == fills;
  }

  lemma LastSellAppend(fills: seq<Fill>, f: Fill)
    ensures forall l :: LastSellAt(fills + [f], l) ==
                        if !f.side.Buy? && f.lotId == l then Some(f.filledAt) else LastSellAt(fills, l)
  {
    assert (fills + [f])[..|fills|] == fills;
  }

  /** What holds of fill i when it came: a buy opened a new lot, a sale found
      its lot with enough left. */
  ghost predicate Came(fills: seq<Fill>, i: nat)
    requires i < |fills|
  {
    var before, f := fills[..i], fills[i];
    && f.qty > 0.0
    && (f.side.Buy? ==> BuyOf(before, f.lotId).None? && SoldQty(before, f.lotId) == 0.0)
    && (!f.side.Buy? ==>
          && f.side.Sell?
          && BuyOf(before, f.lotId).Some?
          && BuyOf(before, f.lotId).value.symbol == f.symbol
          && SoldQty(before, f.lotId) + f.qty <= BuyOf(before, f.lotId).value.qty)
  }

  lemma AllCame(o: Owner, fills: seq<Fill>)
    requires FillsOk(o, fills)
    ensures forall i :: 0 <= i < |fills| ==> Came(fills, i)
  {
    forall i | 0 <= i < |fills| ensures Came(fills, i) {
      FillsOkPrefix(o, fills, i);
      NeverOverdrawn(o, fills[..i], fills[i].lotId);
    }
  }

  lemma {:induction false} FillsOkPrefix(o: Owner, fills: seq<Fill>, i: nat)
    requires FillsOk(o, fills) && i <= |fills|
    ensures FillsOk(o, fills[..i])
    ensures i < |fills| ==> FillVerdict(o, fills[..i], fills[i]) == Append
    decreases |fills|
  {
    if i == |fills| {
      assert fills[..i] == fills;
    } else if i < |fills| - 1 {
      FillsOkPrefix(o, fills[..|fills| - 1], i);
      assert fills[..|fills| - 1][..i] == fills[..i];
    }
  }

  // ---------------------------------------------------------------- disposal

  datatype DisposalRecord = DisposalRecord(
    fillId: string,
    accountId: string,
    symbol: string,
    intendedLotId: string,
    brokerLotId: string,
    at: Instant
  )

  function Self(k: LotKey): LotKey { k }

  /** The lots of one symbol with something left, as their sort keys. */
  function OpenKeys(fills: seq<Fill>, buys: seq<Fill>, symbol: string): seq<LotKey> {
    if buys == [] then []
    else
      var b := buys[|buys| - 1];
      var earlier := OpenKeys(fills, buys[..|buys| - 1], symbol);
      if Remaining(fills, b) > 0.0 && b.symbol == symbol then earlier + [LotKey(b.filledAt, b.lotId)] else earlier
  }

  /** The broker's queue for a sale that finds these fills on the record. */
  function BrokerQueue(policy: LotSelectionPolicy, before: seq<Fill>, symbol: string)
    : Result<seq<LotKey>, UnsupportedLotSelectionPolicy>
  {
    DisposalOrder(policy, OpenKeys(before, BuyFills(before), symbol), Self)
  }

  /** The intended lot beside the first lot of the broker's queue. */
  function DisposalOf(f: Fill, queue: seq<LotKey>): DisposalRecord {
    DisposalRecord(f.fillId, f.accountId, f.symbol, f.lotId, if queue == [] then f.lotId else queue[0].lotId,
                   f.filledAt)
  }

  /** One record per sale, each against the lots open just before it. */
  function DisposalsOf(policy: LotSelectionPolicy, fills: seq<Fill>)
    : Result<seq<DisposalRecord>, UnsupportedLotSelectionPolicy>
  {
    if fills == [] then Ok([])
    else DisposalsNext(DisposalsOf(policy, fills[..|fills| - 1]), policy, fills[..|fills| - 1], fills[|fills| - 1])
  }

  function DisposalsNext(earlier: Result<seq<DisposalRecord>, UnsupportedLotSelectionPolicy>,
                         policy: LotSelectionPolicy, before: seq<Fill>, f: Fill)
    : Result<seq<DisposalRecord>, UnsupportedLotSelectionPolicy>
  {
    if earlier.Err? || f.side.Buy? then earlier
    else match BrokerQueue(policy, before, f.symbol)
         case Err(e) => Err(e)
         case Ok(queue) => Ok(earlier.value + [DisposalOf(f, queue)])
  }

  lemma DisposalsAppend(policy: LotSelectionPolicy, fills: seq<Fill>, f: Fill)
    ensures DisposalsOf(policy, fills + [f]) == DisposalsNext(DisposalsOf(policy, fills), policy, fills, f)
  {
    assert (fills + [f])[..|fills|] == fills;
  }

  // ---------------------------------------------------------------- orders

  /** The last record of an order, by insertion. */
  function LatestRecord(orders: seq<OrderRecord>, clientOrderId: string): Option<OrderRecord> {
    if orders == [] then None
    else
      var last := orders[|orders| - 1];
      if last.clientOrderId == clientOrderId then Some(last)
      else LatestRecord(orders[..|orders| - 1], clientOrderId)
  }

  predicate OrderOpen(orders: seq<OrderRecord>, clientOrderId: string) {
    LatestRecord(orders, clientOrderId).Some? && LatestRecord(orders, clientOrderId).value.status == Open
  }
}
