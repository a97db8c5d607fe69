/** The per-account ledger object: four append-only lists with their id
    indexes, and readers that replay the lists on every call. */
module AccountLedger {
  import opened Wrappers
  import opened Money
  import opened MarketCalendar
  import opened LotSelection
  import opened Holding
  import opened LedgerBooks

  /** The id dict holds exactly the fills of the list, each under its id. */
  ghost predicate FillIndex(fills: seq<Fill>, ids: map<string, Fill>) {
    && (forall f :: f in fills ==> f.fillId in ids && ids[f.fillId] == f)
    && (forall id :: id in ids ==> ids[id] in fills && ids[id].fillId == id)
  }

  ghost predicate AdjustmentIndex(adjustments: seq<CashAdjustment>, ids: map<string, CashAdjustment>) {
    && (forall a :: a in adjustments ==> a.adjustmentId in ids && ids[a.adjustmentId] == a)
    && (forall id :: id in ids ==> ids[id] in adjustments && ids[id].adjustmentId == id)
  }

  ghost predicate CorrectionIndex(corrections: seq<OpeningBalanceCorrection>,
                                  ids: map<string, OpeningBalanceCorrection>)
  {
    && (forall c :: c in corrections ==> c.correctionId in ids && ids[c.correctionId] == c)
    && (forall id :: id in ids ==> ids[id] in corrections && ids[id].correctionId == id)
  }

  class Ledger {
    const owner: Owner
    const market: Market
    const selection: LotSelectionPolicy
    const opening: Decimal
    const openingPositions: map<string, Decimal>

    var fills: seq<Fill>
    var fillIds: map<string, Fill>
    var orders: seq<OrderRecord>
    var adjustments: seq<CashAdjustment>
    var adjustmentIds: map<string, CashAdjustment>
    var corrections: seq<OpeningBalanceCorrection>
    var correctionIds: map<string, OpeningBalanceCorrection>

    function Contents(): Books
      reads this
    {
      Books(fills, orders, adjustments, corrections)
    }

    ghost predicate Valid()
      reads this
    {
      && BooksOk(owner, Contents())
      && FillIndex(fills, fillIds)
      && AdjustmentIndex(adjustments, adjustmentIds)
      && CorrectionIndex(corrections, correctionIds)
    }

    constructor (owner: Owner, market: Market, selection: LotSelectionPolicy, opening: Decimal,
                 openingPositions: map<string, Decimal>)
      ensures Valid() && Contents() == EMPTY
      ensures this.owner == owner && this.market == market && this.selection == selection
      ensures this.opening == opening && this.openingPositions == openingPositions
    {
      this.owner, this.market, this.selection := owner, market, selection;
      this.opening, this.openingPositions := opening, openingPositions;
      fills, fillIds, orders := [], map[], [];
      adjustments, adjustmentIds, corrections, correctionIds := [], map[], [], map[];
    }

    // -------------------------------------------------------------- writes

    method RecordFill(f: Fill) returns (r: Result<Unit, LedgerError>)
      requires Valid()
      modifies this
      ensures Valid()
      ensures match Recorded(owner, old(Contents()), FillEntry(f))
              case Ok(b) => r == Ok(Unit.Unit) && Contents() == b
              case Err(e) => r == Err(e) && Contents() == old(Contents())
    {
      hide FillVerdict, BooksOk;
      var verdict := CheckFill(f);
      if verdict.Refuse? {
        return Err(verdict.error);
      }
      if verdict.Append? {
        RecordingKeepsBooksOk(owner, Contents(), FillEntry(f));
        fills := fills + [f];
        fillIds := fillIds[f.fillId := f];
      }
      return Ok(Unit.Unit);
    }

    /** The guards of record_fill, through the id dict. */
    method CheckFill(f: Fill) returns (v: Verdict)
      requires FillIndex(fills, fillIds)
      ensures v == FillVerdict(owner, fills, f)
      ensures v.Append? ==> f.fillId !in fillIds
    {
      if f.accountId != owner.accountId {
        return Refuse(CrossAccount);
      }
      if f.side.OtherSide? {
        return Refuse(UnknownSide);
      }
      if f.qty <= 0.0 {
        return Refuse(QtyNotPositive);
      }
      assert HasFill(fills, f.fillId) <==> f.fillId in fillIds;
      if f.fillId in fillIds {
        return if fillIds[f.fillId] != f then Refuse(DuplicateFill) else Replay;
      }
      if f.side.Buy? {
        if f.policyVersion.None? {
          return Refuse(PolicyMissing);
        }
        if BuyOf(fills, f.lotId).Some? {
          return Refuse(LotReused);
        }
        if f.policyVersion.value !in owner.policies {
          return Refuse(UnknownPolicy);
        }
      } else {
        var buy := BuyOf(fills, f.lotId);
        if buy.None? {
          return Refuse(UnknownLot);
        }
        if buy.value.symbol != f.symbol {
          return Refuse(SymbolMismatch);
        }
        if SoldQty(fills, f.lotId) + f.qty > buy.value.qty {
          return Refuse(LotOverdrawn);
        }
      }
      return Append;
    }

    method RecordOrderStatus(record: OrderRecord) returns (r: Result<Unit, LedgerError>)
      requires Valid()
      modifies this
      ensures Valid()
      ensures match Recorded(owner, old(Contents()), OrderEntry(record))
              case Ok(b) => r == Ok(Unit.Unit) && Contents() == b
              case Err(e) => r == Err(e) && Contents() == old(Contents())
    {
      if record.accountId != owner.accountId {
        return Err(CrossAccount);
      }
      if record.status.OtherStatus? {
        return Err(UnknownStatus);
      }
      orders := orders + [record];
      return Ok(Unit.Unit);
    }

    method RecordCashAdjustment(a: CashAdjustment) returns (r: Result<Unit, LedgerError>)
      requires Valid()
      modifies this
      ensures Valid()
      ensures match Recorded(owner, old(Contents()), AdjustmentEntry(a))
              case Ok(b) => r == Ok(Unit.Unit) && Contents() == b
              case Err(e) => r == Err(e) && Contents() == old(Contents())
    {
      if a.accountId != owner.accountId {
        return Err(CrossAccount);
      }
      if a.adjustmentId in adjustmentIds {
        if adjustmentIds[a.adjustmentId] != a {
          return Err(DuplicateAdjustment);
        }
        return Ok(Unit.Unit);
      }
      adjustments := adjustments + [a];
      adjustmentIds := adjustmentIds[a.adjustmentId := a];
      return Ok(Unit.Unit);
    }

    method RecordOpeningBalanceCorrection(c: OpeningBalanceCorrection) returns (r: Result<Unit, LedgerError>)
      requires Valid()
      modifies this
      ensures Valid()
      ensures match Recorded(owner, old(Contents()), CorrectionEntry(c))
              case Ok(b) => r == Ok(Unit.Unit) && Contents() == b
              case Err(e) => r == Err(e) && Contents() == old(Contents())
    {
      if c.accountId != owner.accountId {
        return Err(CrossAccount);
      }
      if c.correctionId in correctionIds {
        if correctionIds[c.correctionId] != c {
          return Err(DuplicateCorrection);
        }
        return Ok(Unit.Unit);
      }
      corrections := corrections + [c];
      correctionIds := correctionIds[c.correctionId := c];
      return Ok(Unit.Unit);
    }

    // -------------------------------------------------------------- readers

    method SettledCash(now: Instant) returns (r: Option<Decimal>)
      ensures r == SettledCashOf(market, opening, Contents(), now)
    {
      var total := opening;
      for i := 0 to |fills|
        invariant total == opening + FillsCash(market, fills[..i], now)
        invariant SalesSettle(market, fills[..i])
      {
        assert fills[..i + 1][..i] == fills[..i];
        var f := fills[i];
        var notional := CashNotional(f.qty, f.price);
        if f.side.Buy? {
          total := total - notional;
        } else {
          var instant := SettlementInstant(market, f.filledAt);
          if instant.None? {
            assert f in fills;
            return None;
          }
          if now >= instant.value {
            total := total + notional;
          }
        }
      }
      assert fills[..|fills|] == fills;
      for i := 0 to |adjustments|
        invariant total == opening + FillsCash(market, fills, now) + AdjustmentsCash(adjustments[..i])
      {
        assert adjustments[..i + 1][..i] == adjustments[..i];
        total := total + adjustments[i].amount;
      }
      assert adjustments[..|adjustments|] == adjustments;
      for i := 0 to |corrections|
        invariant total == opening + FillsCash(market, fills, now) + AdjustmentsCash(adjustments)
                           + CorrectionsCash(corrections[..i])
      {
        assert corrections[..i + 1][..i] == corrections[..i];
        total := total + corrections[i].amount;
      }
      assert corrections[..|corrections|] == corrections;
      return Some(total);
    }

    method UnsettledCash(now: Instant) returns (r: Option<Decimal>)
      ensures r == if SalesSettle(market, fills) then Some(UnsettledOf(market, fills, now)) else None
    {
      var total: Decimal := 0.0;
      for i := 0 to |fills|
        invariant total == UnsettledOf(market, fills[..i], now)
        invariant SalesSettle(market, fills[..i])
      {
        assert fills[..i + 1][..i] == fills[..i];
        var f := fills[i];
        if !f.side.Buy? {
          var instant := SettlementInstant(market, f.filledAt);
          if instant.None? {
            assert f in fills;
            return None;
          }
          if now < instant.value {
            total := total + CashNotional(f.qty, f.price);
          }
        }
      }
      assert fills[..|fills|] == fills;
      return Some(total);
    }

    /** The dicts one pass over the log fills: buys in insertion order
        (lot ids are unique), sold quantity, proceeds and last sale per lot. */
    method ReplayLog() returns (buys: seq<Fill>, sold: map<string, Decimal>, proceeds: map<string, Decimal>,
                                lastSell: map<string, Instant>)
      ensures buys == BuyFills(fills)
      ensures SumsPerLot(fills, sold, QtyOf) && SumsPerLot(fills, proceeds, NotionalOf) && LastSells(fills, lastSell)
    {
      buys, sold, proceeds, lastSell := [], map[], map[], map[];
      for i := 0 to |fills|
        invariant buys == BuyFills(fills[..i])
        invariant SumsPerLot(fills[..i], sold, QtyOf)
        invariant SumsPerLot(fills[..i], proceeds, NotionalOf)
        invariant LastSells(fills[..i], lastSell)
      {
        var f := fills[i];
        assert fills[..i + 1] == fills[..i] + [f];
        BuyFillsAppend(fills[..i], f);
        SumsNext(fills[..i], f, sold, QtyOf);
        SumsNext(fills[..i], f, proceeds, NotionalOf);
        LastSellsNext(fills[..i], f, lastSell);
        if f.side.Buy? {
          buys := buys + [f];
        } else {
          sold := sold[f.lotId := Lookup(sold, f.lotId) + f.qty];
          proceeds := proceeds[f.lotId := Lookup(proceeds, f.lotId) + CashNotional(f.qty, f.price)];
          lastSell := lastSell[f.lotId := f.filledAt];
        }
      }
      assert fills[..|fills|] == fills;
    }

    method Lots() returns (r: Option<seq<Lot>>)
      requires Valid()
      ensures r == LotsOf(market, owner, fills)
    {
      BuysKnowTheirPolicies(owner, fills);
      var buys, sold, proceeds, lastSell := ReplayLog();
      r := LotsFrom(buys, sold, lastSell);
    }

    /** The second loop of lots(). */
    method LotsFrom(buys: seq<Fill>, sold: map<string, Decimal>, lastSell: map<string, Instant>)
      returns (r: Option<seq<Lot>>)
      requires buys == BuyFills(fills)
      requires forall b :: b in buys ==> b.qty > 0.0 && b.policyVersion.Some? && b.policyVersion.value in owner.policies
      requires SumsPerLot(fills, sold, QtyOf) && LastSells(fills, lastSell)
      ensures r == LotsOf(market, owner, fills)
    {
      var out: seq<Lot> := [];
      for i := 0 to |buys|
        invariant forall b :: b in buys[..i] ==> LotKnown(market, owner, b)
        invariant out == LotsFor(market, owner, fills, buys[..i])
      {
        var b := buys[i];
        assert buys[..i + 1] == buys[..i] + [b];
        var settlesAt := SettlementInstant(market, b.filledAt);
        if settlesAt.None? {
          assert b in BuyFills(fills) && !LotKnown(market, owner, b);
          return None;
        }
        var policy := owner.policies[b.policyVersion.value];
        var basis := b.qty * b.price;
        var remaining := b.qty - Lookup(sold, b.lotId);
        if remaining < 0.0 {
          remaining := 0.0;
        }
        var fraction := remaining / b.qty;
        var last := if b.lotId in lastSell then Some(lastSell[b.lotId]) else None;
        var closedAt := if remaining <= 0.0 then last else None;
        LotRebuilt(market, owner, fills, b, remaining, basis, fraction, last);
        LotsForAppend(market, owner, fills, buys[..i], b);
        out := out + [Lot(b.lotId, owner.accountId, b.symbol, remaining, basis * fraction, b.filledAt,
                          policy.minimumHold, policy.version, settlesAt, closedAt)];
      }
      assert buys[..|buys|] == buys;
      return Some(out);
    }

    method ClosedLots() returns (out: seq<ClosedLot>)
      ensures out == ClosedLotsFor(fills, BuyFills(fills))
    {
      hide PerLot, LastSellAt, ClosedLotOf, BuyFills;
      var buys, sold, proceeds, lastSell := ReplayLog();
      out := [];
      assert ClosedLotsFor(fills, buys[..0]) == [];
      hide ClosedLotsFor;
      for i := 0 to |buys|
        invariant out == ClosedLotsFor(fills, buys[..i])
      {
        ClosedLotsNext(fills, buys, i);
        var b := buys[i];
        if Lookup(sold, b.lotId) < b.qty {
          continue;
        }
        var last := if b.lotId in lastSell then Some(lastSell[b.lotId]) else None;
        ClosedLotBuilt(fills, b, Lookup(proceeds, b.lotId), last);
        out := out + [ClosedLot(b.lotId, b.accountId, b.symbol, b.qty, b.qty * b.price, Lookup(proceeds, b.lotId),
                                b.filledAt, last)];
      }
      assert buys[..|buys|] == buys;
    }

    method Positions() returns (r: Option<map<string, Decimal>>)
      requires Valid()
      ensures r == match LotsOf(market, owner, fills)
                   case None => None
                   case Some(lots) => Some(PositionsOf(openingPositions, lots, owner.accountId))
    {
      var lots := Lots();
      if lots.None? {
        return None;
      }
      var bySymbol := AddOpenLots(lots.value);
      return Some(bySymbol);
    }

    /** The loop of positions(). */
    method AddOpenLots(lots: seq<Lot>) returns (bySymbol: map<string, Decimal>)
      ensures bySymbol == PositionsOf(openingPositions, lots, owner.accountId)
    {
      bySymbol := openingPositions;
      for i := 0 to |lots|
        invariant bySymbol == PositionsOf(openingPositions, lots[..i], owner.accountId)
      {
        assert lots[..i + 1][..i] == lots[..i];
        var l := lots[i];
        if l.IsOpen() && l.accountId == owner.accountId {
          bySymbol := bySymbol[l.symbol := Lookup(bySymbol, l.symbol) + l.qty];
        }
      }
      assert lots[..|lots|] == lots;
    }

    /** A forward replay that keeps what is left of each lot at every point,
        proved against what the lots are on the fills before each sale. */
    method DisposalRecords() returns (r: Result<seq<DisposalRecord>, UnsupportedLotSelectionPolicy>)
      requires Valid()
      ensures r == DisposalsOf(selection, fills)
    {
      AllCame(owner, fills);
      r := ForwardReplay();
    }

    method ForwardReplay() returns (r: Result<seq<DisposalRecord>, UnsupportedLotSelectionPolicy>)
      requires forall i :: 0 <= i < |fills| ==> Came(fills, i)
      ensures r == DisposalsOf(selection, fills)
    {
      TracksNothing(selection);
      hide *;
      var order: seq<string> := [];
      var remaining: map<string, Decimal> := map[];
      var openedAt: map<string, Instant> := map[];
      var symbolOf: map<string, string> := map[];
      var out: seq<DisposalRecord> := [];
      for i := 0 to |fills|
        invariant DisposalsOf(selection, fills[..i]) == Ok(out)
        invariant Tracks(fills[..i], order, remaining, openedAt, symbolOf)
      {
        var f := fills[i];
        ghost var before := fills[..i];
        assert fills[..i + 1] == before + [f];
        assert Came(fills, i);
        if f.side.Buy? {
          TrackBuy(fills, i, order, remaining, openedAt, symbolOf);
          DisposalSkips(selection, before, f);
          order := order + [f.lotId];
          remaining := remaining[f.lotId := Lookup(remaining, f.lotId) + f.qty];
          openedAt := if f.lotId in openedAt then openedAt else openedAt[f.lotId := f.filledAt];
          symbolOf := symbolOf[f.lotId := f.symbol];
        } else {
          QueueFromDicts(selection, before, order, remaining, openedAt, symbolOf, f.symbol);
          var queue := DisposalOrder(selection, OpenRefs(order, remaining, openedAt, symbolOf, f.symbol), Self);
          DisposalJoins(selection, before, f);
          if queue.Err? {
            DisposalErrorSpreads(selection, fills, i + 1);
            return Err(queue.error);
          }
          out := out + [DisposalOf(f, queue.value)];
          TrackSell(fills, i, order, remaining, openedAt, symbolOf);
          remaining := remaining[f.lotId := Lookup(remaining, f.lotId) - f.qty];
        }
      }
      assert fills[..|fills|] == fills;
      return Ok(out);
    }

    method OpenOrderIds() returns (ids: set<string>)
      ensures forall id :: id in ids <==> OrderOpen(orders, id)
    {
      var latest: map<string, OrderStatus> := map[];
      for i := 0 to |orders|
        invariant forall id :: (if id in latest then Some(latest[id]) else None) ==
                               match LatestRecord(orders[..i], id) case None => None case Some(r) => Some(r.status)
      {
        assert orders[..i + 1][..i] == orders[..i];
        latest := latest[orders[i].clientOrderId := orders[i].status];
      }
      assert orders[..|orders|] == orders;
      ids := set id | id in latest && latest[id] == Open;
    }

    method LatestOrderRecord(clientOrderId: string) returns (latest: Option<OrderRecord>)
      ensures latest == LatestRecord(orders, clientOrderId)
    {
      latest := None;
      for i := 0 to |orders|
        invariant latest == LatestRecord(orders[..i], clientOrderId)
      {
        assert orders[..i + 1][..i] == orders[..i];
        if orders[i].clientOrderId == clientOrderId {
          latest := Some(orders[i]);
        }
      }
      assert orders[..|orders|] == orders;
    }
  }

  method RecordFills(ledger: Ledger, xs: seq<Fill>) returns (r: Result<Unit, LedgerError>)
    requires ledger.Valid()
    modifies ledger
    ensures ledger.Valid()
    ensures match RecordAll(ledger.owner, old(ledger.Contents()), FillEntries(xs))
            case Ok(b) => r == Ok(Unit.Unit) && ledger.Contents() == b
            case Err(e) => r == Err(e)
  {
    ghost var start, entries := ledger.Contents(), FillEntries(xs);
    assert |entries| == |xs| && forall i :: 0 <= i < |xs| ==> entries[i] == FillEntry(xs[i]);
    assert RecordAll(ledger.owner, start, entries[..0]) == Ok(start);
    hide *;
    for i := 0 to |xs|
      invariant ledger.Valid() && RecordAll(ledger.owner, start, entries[..i]) == Ok(ledger.Contents())
    {
      RecordNext(ledger.owner, start, entries, i);
      var w := ledger.RecordFill(xs[i]);
      if w.Err? {
        RecordStops(ledger.owner, start, entries, i + 1);
        return w;
      }
    }
    assert entries[..|xs|] == entries;
    return Ok(Unit.Unit);
  }

  method RecordOrders(ledger: Ledger, xs: seq<OrderRecord>) returns (r: Result<Unit, LedgerError>)
    requires ledger.Valid()
    modifies ledger
    ensures ledger.Valid()
    ensures match RecordAll(ledger.owner, old(ledger.Contents()), OrderEntries(xs))
            case Ok(b) => r == Ok(Unit.Unit) && ledger.Contents() == b
            case Err(e) => r == Err(e)
  {
    ghost var start, entries := ledger.Contents(), OrderEntries(xs);
    assert |entries| == |xs| && forall i :: 0 <= i < |xs| ==> entries[i] == OrderEntry(xs[i]);
    assert RecordAll(ledger.owner, start, entries[..0]) == Ok(start);
    hide *;
    for i := 0 to |xs|
      invariant ledger.Valid() && RecordAll(ledger.owner, start, entries[..i]) == Ok(ledger.Contents())
    {
      RecordNext(ledger.owner, start, entries, i);
      var w := ledger.RecordOrderStatus(xs[i]);
      if w.Err? {
        RecordStops(ledger.owner, start, entries, i + 1);
        return w;
      }
    }
    assert entries[..|xs|] == entries;
    return Ok(Unit.Unit);
  }

  method RecordAdjustments(ledger: Ledger, xs: seq<CashAdjustment>) returns (r: Result<Unit, LedgerError>)
    requires ledger.Valid()
    modifies ledger
    ensures ledger.Valid()
    ensures match RecordAll(ledger.owner, old(ledger.Contents()), AdjustmentEntries(xs))
            case Ok(b) => r == Ok(Unit.Unit) && ledger.Contents() == b
            case Err(e) => r == Err(e)
  {
    ghost var start, entries := ledger.Contents(), AdjustmentEntries(xs);
    assert |entries| == |xs| && forall i :: 0 <= i < |xs| ==> entries[i] == AdjustmentEntry(xs[i]);
    assert RecordAll(ledger.owner, start, entries[..0]) == Ok(start);
    hide *;
    for i := 0 to |xs|
      invariant ledger.Valid() && RecordAll(ledger.owner, start, entries[..i]) == Ok(ledger.Contents())
    {
      RecordNext(ledger.owner, start, entries, i);
      var w := ledger.RecordCashAdjustment(xs[i]);
      if w.Err? {
        RecordStops(ledger.owner, start, entries, i + 1);
        return w;
      }
    }
    assert entries[..|xs|] == entries;
    return Ok(Unit.Unit);
  }

  method RecordCorrections(ledger: Ledger, xs: seq<OpeningBalanceCorrection>) returns (r: Result<Unit, LedgerError>)
    requires ledger.Valid()
    modifies ledger
    ensures ledger.Valid()
    ensures match RecordAll(ledger.owner, old(ledger.Contents()), CorrectionEntries(xs))
            case Ok(b) => r == Ok(Unit.Unit) && ledger.Contents() == b
            case Err(e) => r == Err(e)
  {
    ghost var start, entries := ledger.Contents(), CorrectionEntries(xs);
    assert |entries| == |xs| && forall i :: 0 <= i < |xs| ==> entries[i] == CorrectionEntry(xs[i]);
    assert RecordAll(ledger.owner, start, entries[..0]) == Ok(start);
    hide *;
    for i := 0 to |xs|
      invariant ledger.Valid() && RecordAll(ledger.owner, start, entries[..i]) == Ok(ledger.Contents())
    {
      RecordNext(ledger.owner, start, entries, i);
      var w := ledger.RecordOpeningBalanceCorrection(xs[i]);
      if w.Err? {
        RecordStops(ledger.owner, start, entries, i + 1);
        return w;
      }
    }
    assert entries[..|xs|] == entries;
    return Ok(Unit.Unit);
  }

  /** Rebuild a ledger from a record: the opening balance is refused when
      negative, and every entry goes through the same checks as a live write. */
  method FromRecords(owner: Owner, market: Market, selection: LotSelectionPolicy, opening: Decimal,
                     openingPositions: map<string, Decimal>, b: Books)
    returns (r: Result<Ledger, LedgerError>)
    ensures opening < 0.0 ==> r == Err(NegativeOpening)
    ensures opening >= 0.0 ==>
              match RecordAll(owner, EMPTY, EntriesOf(b))
              case Err(e) => r == Err(e)
              case Ok(books) =>
                && r.Ok? && fresh(r.value) && r.value.Valid() && r.value.Contents() == books
                && r.value.owner == owner && r.value.market == market && r.value.selection == selection
                && r.value.opening == opening && r.value.openingPositions == openingPositions
  {
    if opening < 0.0 {
      return Err(NegativeOpening);
    }
    var ledger := new Ledger(owner, market, selection, opening, openingPositions);
    ghost var fs, os := FillEntries(b.fills), OrderEntries(b.orders);
    ghost var as_, cs := AdjustmentEntries(b.adjustments), CorrectionEntries(b.corrections);
    assert ledger.Contents() == EMPTY && EntriesOf(b) == fs + os + as_ + cs;
    hide *;
    var w := RecordFills(ledger, b.fills);
    RecordSegment(owner, EMPTY, fs, os, as_ + cs);
    assert fs + os + (as_ + cs) == EntriesOf(b);
    if w.Err? {
      return Err(w.error);
    }
    w := RecordOrders(ledger, b.orders);
    if w.Err? {
      return Err(w.error);
    }
    RecordSegment(owner, EMPTY, fs + os, as_, cs);
    w := RecordAdjustments(ledger, b.adjustments);
    if w.Err? {
      return Err(w.error);
    }
    RecordSegment(owner, EMPTY, fs + os + as_, cs, []);
    assert fs + os + as_ + cs + [] == EntriesOf(b);
    w := RecordCorrections(ledger, b.corrections);
    return if w.Err? then Err(w.error) else Ok(ledger);
  }

  lemma ClosedLotsNext(fills: seq<Fill>, buys: seq<Fill>, i: nat)
    requires i < |buys|
    ensures ClosedLotsFor(fills, buys[..i + 1]) ==
            if SoldQty(fills, buys[i].lotId) < buys[i].qty then ClosedLotsFor(fills, buys[..i])
            else ClosedLotsFor(fills, buys[..i]) + [ClosedLotOf(fills, buys[i])]
  {
    assert buys[..i + 1][..i] == buys[..i];
  }

  lemma ClosedLotBuilt(fills: seq<Fill>, b: Fill, proceeds: Decimal, last: Option<Instant>)
    requires proceeds == PerLot(fills, b.lotId, NotionalOf) && last == LastSellAt(fills, b.lotId)
    ensures ClosedLotOf(fills, b) ==
            ClosedLot(b.lotId, b.accountId, b.symbol, b.qty, b.qty * b.price, proceeds, b.filledAt, last)
  {
  }

  /** A partly sold lot keeps its per-share basis: the fraction of the original
      basis that is left is the remaining quantity at the buy price. */
  lemma LotRebuilt(m: Market, o: Owner, fills: seq<Fill>, b: Fill, remaining: Decimal, basis: Decimal,
                   fraction: Decimal, last: Option<Instant>)
    requires LotKnown(m, o, b) && b.qty > 0.0
    requires remaining == Remaining(fills, b) && last == LastSellAt(fills, b.lotId)
    requires basis == b.qty * b.price && fraction == remaining / b.qty
    ensures LotOf(m, o, fills, b) ==
            var policy := o.policies[b.policyVersion.value];
            Lot(b.lotId, o.accountId, b.symbol, remaining, basis * fraction, b.filledAt, policy.minimumHold,
                policy.version, SettlementInstant(m, b.filledAt), if remaining <= 0.0 then last else None)
  {
    calc {
      basis * fraction;
      b.qty * b.price * fraction;
      b.price * (b.qty * fraction);
      { assert b.qty * fraction == remaining; }
      remaining * b.price;
    }
  }

  lemma {:induction false} DisposalErrorSpreads(policy: LotSelectionPolicy, fills: seq<Fill>, i: nat)
    requires i <= |fills| && DisposalsOf(policy, fills[..i]).Err?
    ensures DisposalsOf(policy, fills) == DisposalsOf(policy, fills[..i])
    decreases |fills|
  {
    if i == |fills| {
      assert fills[..i] == fills;
    } else {
      assert fills[..|fills| - 1][..i] == fills[..i];
      DisposalErrorSpreads(policy, fills[..|fills| - 1], i);
    }
  }

  // ---------------------------------------------------------------- the replay's dicts

  ghost predicate SumsPerLot(fills: seq<Fill>, sums: map<string, Decimal>, w: Fill -> Decimal) {
    forall l :: Lookup(sums, l) == PerLot(fills, l, w)
  }

  ghost predicate LastSells(fills: seq<Fill>, lastSell: map<string, Instant>) {
    forall l :: LastSellAt(fills, l) == if l in lastSell then Some(lastSell[l]) else None
  }

  lemma SumsNext(fills: seq<Fill>, f: Fill, sums: map<string, Decimal>, w: Fill -> Decimal)
    requires SumsPerLot(fills, sums, w)
    ensures f.side.Buy? ==> SumsPerLot(fills + [f], sums, w)
    ensures !f.side.Buy? ==> SumsPerLot(fills + [f], sums[f.lotId := Lookup(sums, f.lotId) + w(f)], w)
  {
    PerLotAppend(fills, f, w);
  }

  lemma LastSellsNext(fills: seq<Fill>, f: Fill, lastSell: map<string, Instant>)
    requires LastSells(fills, lastSell)
    ensures f.side.Buy? ==> LastSells(fills + [f], lastSell)
    ensures !f.side.Buy? ==> LastSells(fills + [f], lastSell[f.lotId := f.filledAt])
  {
    LastSellAppend(fills, f);
  }

  lemma LotsForAppend(m: Market, o: Owner, fills: seq<Fill>, buys: seq<Fill>, b: Fill)
    requires forall c :: c in buys + [b] ==> LotKnown(m, o, c)
    ensures LotsFor(m, o, fills, buys + [b]) == LotsFor(m, o, fills, buys) + [LotOf(m, o, fills, b)]
  {
    assert (buys + [b])[..|buys|] == buys;
  }

  function OpenRefs(order: seq<string>, remaining: map<string, Decimal>, openedAt: map<string, Instant>,
                    symbolOf: map<string, string>, symbol: string): seq<LotKey>
    requires forall l :: l in order ==> l in remaining && l in openedAt && l in symbolOf
  {
    if order == [] then []
    else
      var l := order[|order| - 1];
      var earlier := OpenRefs(order[..|order| - 1], remaining, openedAt, symbolOf, symbol);
      if remaining[l] > 0.0 && symbolOf[l] == symbol then earlier + [LotKey(openedAt[l], l)] else earlier
  }

  /** The forward dicts say of a lot what the lots say. */
  ghost predicate TracksLot(fills: seq<Fill>, b: Fill, remaining: map<string, Decimal>, openedAt: map<string, Instant>,
                            symbolOf: map<string, string>)
  {
    && b.lotId in remaining && remaining[b.lotId] == b.qty - SoldQty(fills, b.lotId)
    && b.lotId in openedAt && openedAt[b.lotId] == b.filledAt
    && b.lotId in symbolOf && symbolOf[b.lotId] == b.symbol
  }

  ghost predicate BuyOrder(buys: seq<Fill>, order: seq<string>) {
    |order| == |buys| && forall i :: 0 <= i < |buys| ==> order[i] == buys[i].lotId
  }

  /** They do so for every lot bought so far, and know no other lot. */
  ghost predicate Tracks(fills: seq<Fill>, order: seq<string>, remaining: map<string, Decimal>,
                         openedAt: map<string, Instant>, symbolOf: map<string, string>)
  {
    && BuyOrder(BuyFills(fills), order)
    && (forall l :: l in remaining || l in openedAt ==> BuyOf(fills, l).Some?)
    && (forall b :: b in BuyFills(fills) ==> TracksLot(fills, b, remaining, openedAt, symbolOf))
  }

  lemma TracksNothing(policy: LotSelectionPolicy)
    ensures Tracks([], [], map[], map[], map[]) && DisposalsOf(policy, []) == Ok([])
  {
  }

  lemma DisposalSkips(policy: LotSelectionPolicy, before: seq<Fill>, f: Fill)
    requires f.side.Buy?
    ensures DisposalsOf(policy, before + [f]) == DisposalsOf(policy, before)
  {
    DisposalsAppend(policy, before, f);
  }

  lemma DisposalJoins(policy: LotSelectionPolicy, before: seq<Fill>, f: Fill)
    requires !f.side.Buy? && DisposalsOf(policy, before).Ok?
    ensures DisposalsOf(policy, before + [f]) ==
            match BrokerQueue(policy, before, f.symbol)
            case Err(e) => Err(e)
            case Ok(queue) => Ok(DisposalsOf(policy, before).value + [DisposalOf(f, queue)])
  {
    DisposalsAppend(policy, before, f);
  }

  /** The lemmas below take one step of the replay, from fill i. */
  lemma TrackBuy(log: seq<Fill>, i: nat, order: seq<string>, remaining: map<string, Decimal>,
                 openedAt: map<string, Instant>, symbolOf: map<string, string>)
    requires i < |log| && Came(log, i) && log[i].side.Buy?
    requires Tracks(log[..i], order, remaining, openedAt, symbolOf)
    ensures var f := log[i];
            && f.lotId !in openedAt
            && Tracks(log[..i] + [f], order + [f.lotId], remaining[f.lotId := Lookup(remaining, f.lotId) + f.qty],
                      openedAt[f.lotId := f.filledAt], symbolOf[f.lotId := f.symbol])
  {
    TrackNewLot(log[..i], log[i], order, remaining, openedAt, symbolOf);
  }

  lemma TrackSell(log: seq<Fill>, i: nat, order: seq<string>, remaining: map<string, Decimal>,
                  openedAt: map<string, Instant>, symbolOf: map<string, string>)
    requires i < |log| && Came(log, i) && !log[i].side.Buy?
    requires Tracks(log[..i], order, remaining, openedAt, symbolOf)
    ensures var f := log[i];
            Tracks(log[..i] + [f], order, remaining[f.lotId := Lookup(remaining, f.lotId) - f.qty], openedAt, symbolOf)
  {
    TrackLotSale(log[..i], log[i], order, remaining, openedAt, symbolOf);
  }

  lemma TrackNewLot(fills: seq<Fill>, f: Fill, order: seq<string>, remaining: map<string, Decimal>,
                    openedAt: map<string, Instant>, symbolOf: map<string, string>)
    requires Tracks(fills, order, remaining, openedAt, symbolOf)
    requires f.side.Buy? && BuyOf(fills, f.lotId).None? && SoldQty(fills, f.lotId) == 0.0
    ensures f.lotId !in remaining && f.lotId !in openedAt
    ensures Tracks(fills + [f], order + [f.lotId], remaining[f.lotId := f.qty], openedAt[f.lotId := f.filledAt],
                   symbolOf[f.lotId := f.symbol])
  {
    hide BuyFills, BuyOf, PerLot;
    var after := fills + [f];
    BuyFillsAppend(fills, f);
    BuyFillsMember(fills);
    forall b | b in BuyFills(after)
      ensures TracksLot(after, b, remaining[f.lotId := f.qty], openedAt[f.lotId := f.filledAt],
                        symbolOf[f.lotId := f.symbol])
    {
      PerLotAppend(fills, f, QtyOf);
      assert SoldQty(after, b.lotId) == SoldQty(fills, b.lotId);
      if b in BuyFills(fills) {
        assert TracksLot(fills, b, remaining, openedAt, symbolOf);
        assert b.lotId != f.lotId;
      } else {
        assert b == f;
      }
    }
    forall l | l in remaining || l in openedAt || l == f.lotId ensures BuyOf(after, l).Some? {
      BuyOfAppend(fills, f);
    }
  }

  lemma TrackLotSale(fills: seq<Fill>, f: Fill, order: seq<string>, remaining: map<string, Decimal>,
                     openedAt: map<string, Instant>, symbolOf: map<string, string>)
    requires Tracks(fills, order, remaining, openedAt, symbolOf)
    requires !f.side.Buy? && BuyOf(fills, f.lotId).Some?
    ensures f.lotId in remaining
    ensures Tracks(fills + [f], order, remaining[f.lotId := remaining[f.lotId] - f.qty], openedAt, symbolOf)
  {
    hide BuyFills, BuyOf, PerLot;
    var after := fills + [f];
    BuyFillsAppend(fills, f);
    BuyFillsMember(fills);
    var buy := BuyOf(fills, f.lotId).value;
    assert TracksLot(fills, buy, remaining, openedAt, symbolOf);
    var left := remaining[f.lotId := remaining[f.lotId] - f.qty];
    forall b | b in BuyFills(after) ensures TracksLot(after, b, left, openedAt, symbolOf) {
      PerLotAppend(fills, f, QtyOf);
      assert TracksLot(fills, b, remaining, openedAt, symbolOf);
    }
    forall l | l in left || l in openedAt ensures BuyOf(after, l).Some? {
      BuyOfAppend(fills, f);
    }
  }

  /** The queue built from the dicts is the queue built from the lots. */
  lemma QueueFromDicts(policy: LotSelectionPolicy, fills: seq<Fill>, order: seq<string>,
                       remaining: map<string, Decimal>, openedAt: map<string, Instant>, symbolOf: map<string, string>,
                       symbol: string)
    requires Tracks(fills, order, remaining, openedAt, symbolOf)
    ensures forall l :: l in order ==> l in remaining && l in openedAt && l in symbolOf
    ensures DisposalOrder(policy, OpenRefs(order, remaining, openedAt, symbolOf, symbol), Self) ==
            BrokerQueue(policy, fills, symbol)
  {
    OpenRefsAreOpenKeys(fills, order, remaining, openedAt, symbolOf, symbol);
  }

  lemma OpenRefsAreOpenKeys(fills: seq<Fill>, order: seq<string>, remaining: map<string, Decimal>,
                            openedAt: map<string, Instant>, symbolOf: map<string, string>, symbol: string)
    requires Tracks(fills, order, remaining, openedAt, symbolOf)
    ensures forall l :: l in order ==> l in remaining && l in openedAt && l in symbolOf
    ensures OpenRefs(order, remaining, openedAt, symbolOf, symbol) == OpenKeys(fills, BuyFills(fills), symbol)
  {
    var buys := BuyFills(fills);
    forall i | 0 <= i < |order|
      ensures order[i] == buys[i].lotId && TracksLot(fills, buys[i], remaining, openedAt, symbolOf)
    {
      assert buys[i] in buys;
    }
    RefsForBuys(fills, buys, order, remaining, openedAt, symbolOf, symbol);
  }

  lemma {:induction false} RefsForBuys(fills: seq<Fill>, buys: seq<Fill>, order: seq<string>,
                                       remaining: map<string, Decimal>, openedAt: map<string, Instant>,
                                       symbolOf: map<string, string>, symbol: string)
    requires |order| == |buys|
    requires forall l :: l in order ==> l in remaining && l in openedAt && l in symbolOf
    requires forall i :: 0 <= i < |buys| ==>
               order[i] == buys[i].lotId && TracksLot(fills, buys[i], remaining, openedAt, symbolOf)
    ensures OpenRefs(order, remaining, openedAt, symbolOf, symbol) == OpenKeys(fills, buys, symbol)
  {
    if buys != [] {
      var n := |buys| - 1;
      RefsForBuys(fills, buys[..n], order[..n], remaining, openedAt, symbolOf, symbol);
      assert order[n] == buys[n].lotId;
    }
  }
}
