/** What the replays promise about each other: positions against the raw log,
    realised gain against cash, disposal records against lots. */
module LedgerFacts {
  import opened Wrappers
  import opened Money
  import opened MarketCalendar
  import opened LotSelection
  import opened Holding
  import opened LedgerBooks

  // ---------------------------------------------------------------- sums over the log

  function BuyTotal(fills: seq<Fill>, w: Fill -> Decimal): Decimal {
    if fills == [] then 0.0
    else
      var last := fills[|fills| - 1];
      BuyTotal(fills[..|fills| - 1], w) + if last.side.Buy? then w(last) else 0.0
  }

  function SellTotal(fills: seq<Fill>, w: Fill -> Decimal): Decimal {
    if fills == [] then 0.0
    else
      var last := fills[|fills| - 1];
      SellTotal(fills[..|fills| - 1], w) + if !last.side.Buy? then w(last) else 0.0
  }

  /** The per-lot sums, added over a list of buys. */
  function LotTotal(fills: seq<Fill>, buys: seq<Fill>, w: Fill -> Decimal): Decimal {
    if buys == [] then 0.0
    else LotTotal(fills, buys[..|buys| - 1], w) + PerLot(fills, buys[|buys| - 1].lotId, w)
  }

  lemma TotalsAppend(fills: seq<Fill>, f: Fill, w: Fill -> Decimal)
    ensures BuyTotal(fills + [f], w) == BuyTotal(fills, w) + if f.side.Buy? then w(f) else 0.0
    ensures SellTotal(fills + [f], w) == SellTotal(fills, w) + if !f.side.Buy? then w(f) else 0.0
  {
    assert (fills + [f])[..|fills|] == fills;
  }

  lemma LotTotalOneMore(fills: seq<Fill>, buys: seq<Fill>, b: Fill, w: Fill -> Decimal)
    ensures LotTotal(fills, buys + [b], w) == LotTotal(fills, buys, w) + PerLot(fills, b.lotId, w)
  {
    assert (buys + [b])[..|buys|] == buys;
  }

  ghost predicate DistinctLots(buys: seq<Fill>) {
    forall i, j :: 0 <= i < j < |buys| ==> buys[i].lotId != buys[j].lotId
  }

  lemma {:induction false} BuysAreDistinct(o: Owner, fills: seq<Fill>)
    requires FillsOk(o, fills)
    ensures DistinctLots(BuyFills(fills))
  {
    if fills != [] {
      var before, f := fills[..|fills| - 1], fills[|fills| - 1];
      BuysAreDistinct(o, before);
      BuyFillsMember(before);
      if f.side.Buy? {
        assert BuyOf(before, f.lotId).None?;
        forall i | 0 <= i < |BuyFills(before)| ensures BuyFills(before)[i].lotId != f.lotId {
          assert BuyFills(before)[i] in BuyFills(before);
        }
      }
    }
  }

  lemma {:induction false} LotTotalAppend(fills: seq<Fill>, f: Fill, buys: seq<Fill>, w: Fill -> Decimal)
    requires DistinctLots(buys)
    ensures LotTotal(fills + [f], buys, w) == LotTotal(fills, buys, w) +
            if !f.side.Buy? && (exists b :: b in buys && b.lotId == f.lotId) then w(f) else 0.0
  {
    PerLotAppend(fills, f, w);
    if buys != [] {
      var front, last := buys[..|buys| - 1], buys[|buys| - 1];
      LotTotalAppend(fills, f, front, w);
      assert buys == front + [last];
      assert last.lotId == f.lotId ==> forall b :: b in front ==> b.lotId != f.lotId;
    }
  }

  /** A sum over the sales, fill by fill, is the same sum taken lot by lot. */
  lemma {:induction false} SalesByLot(o: Owner, fills: seq<Fill>, w: Fill -> Decimal)
    requires FillsOk(o, fills)
    ensures LotTotal(fills, BuyFills(fills), w) == SellTotal(fills, w)
  {
    if fills != [] {
      var before, f := fills[..|fills| - 1], fills[|fills| - 1];
      assert fills == before + [f];
      SalesByLot(o, before, w);
      BuysAreDistinct(o, before);
      assert f.side.Buy? ==> PerLot(before, f.lotId, w) == 0.0 by {
        if f.side.Buy? {
          NoBuyNoSales(o, before, f.lotId, w);
        }
      }
      assert !f.side.Buy? ==> BuyOf(before, f.lotId).Some?;
      SaleJoinsItsLot(before, f, w);
    }
  }

  lemma SaleJoinsItsLot(before: seq<Fill>, f: Fill, w: Fill -> Decimal)
    requires DistinctLots(BuyFills(before))
    requires f.side.Buy? ==> PerLot(before, f.lotId, w) == 0.0
    requires !f.side.Buy? ==> BuyOf(before, f.lotId).Some?
    requires LotTotal(before, BuyFills(before), w) == SellTotal(before, w)
    ensures LotTotal(before + [f], BuyFills(before + [f]), w) == SellTotal(before + [f], w)
  {
    TotalsAppend(before, f, w);
    BuyFillsAppend(before, f);
    BuyFillsMember(before);
    PerLotAppend(before, f, w);
    LotTotalAppend(before, f, BuyFills(before), w);
    LotTotalOneMore(before + [f], BuyFills(before), f, w);
    if !f.side.Buy? {
      assert BuyOf(before, f.lotId).value in BuyFills(before);
    }
  }

  lemma {:induction false} NoBuyNoSales(o: Owner, fills: seq<Fill>, lotId: string, w: Fill -> Decimal)
    requires FillsOk(o, fills) && BuyOf(fills, lotId).None?
    ensures PerLot(fills, lotId, w) == 0.0
  {
    if fills != [] {
      var before, f := fills[..|fills| - 1], fills[|fills| - 1];
      assert fills == before + [f];
      BuyOfAppend(before, f);
      NoBuyNoSales(o, before, lotId, w);
    }
  }

  // ---------------------------------------------------------------- positions

  function QtyIn(symbol: string): Fill -> Decimal {
    (f: Fill) => if f.symbol == symbol then f.qty else 0.0
  }

  function OpenQty(lots: seq<Lot>, accountId: string, symbol: string): Decimal {
    if lots == [] then 0.0
    else
      var l := lots[|lots| - 1];
      OpenQty(lots[..|lots| - 1], accountId, symbol)
      + if l.IsOpen() && l.accountId == accountId && l.symbol == symbol then l.qty else 0.0
  }

  lemma {:induction false} PositionsAddOpenLots(base: map<string, Decimal>, lots: seq<Lot>, accountId: string,
                                                symbol: string)
    ensures Lookup(PositionsOf(base, lots, accountId), symbol) ==
            Lookup(base, symbol) + OpenQty(lots, accountId, symbol)
  {
    if lots != [] {
      PositionsAddOpenLots(base, lots[..|lots| - 1], accountId, symbol);
    }
  }

  /** Sales of a lot are sales of the lot's own symbol. */
  lemma {:induction false} LotSellsItsSymbol(o: Owner, fills: seq<Fill>, lotId: string, symbol: string)
    requires FillsOk(o, fills)
    ensures match BuyOf(fills, lotId)
            case None => PerLot(fills, lotId, QtyIn(symbol)) == 0.0
            case Some(b) =>
              PerLot(fills, lotId, QtyIn(symbol)) == if b.symbol == symbol then SoldQty(fills, lotId) else 0.0
  {
    if fills != [] {
      var before, f := fills[..|fills| - 1], fills[|fills| - 1];
      assert fills == before + [f];
      LotSellsItsSymbol(o, before, lotId, symbol);
      NeverOverdrawn(o, before, lotId);
    }
  }

  lemma {:induction false} SoldMeansLastSell(o: Owner, fills: seq<Fill>, lotId: string)
    requires FillsOk(o, fills)
    ensures SoldQty(fills, lotId) > 0.0 <==> LastSellAt(fills, lotId).Some?
  {
    if fills != [] {
      SoldMeansLastSell(o, fills[..|fills| - 1], lotId);
      NeverOverdrawn(o, fills[..|fills| - 1], lotId);
    }
  }

  /** A lot is closed exactly when nothing of it remains. */
  lemma ClosedMeansEmpty(m: Market, o: Owner, fills: seq<Fill>, b: Fill)
    requires FillsOk(o, fills) && b in BuyFills(fills) && LotKnown(m, o, b)
    ensures Remaining(fills, b) == b.qty - SoldQty(fills, b.lotId) >= 0.0
    ensures LotOf(m, o, fills, b).IsOpen() <==> Remaining(fills, b) > 0.0
    ensures LotOf(m, o, fills, b).IsOpen() <==> SoldQty(fills, b.lotId) < b.qty
  {
    BuyFillsMember(fills);
    FillShapes(o, fills);
    BuyFound(o, fills, b);
    NeverOverdrawn(o, fills, b.lotId);
    SoldMeansLastSell(o, fills, b.lotId);
  }

  lemma {:induction false} OpenQtyFor(m: Market, o: Owner, fills: seq<Fill>, buys: seq<Fill>, symbol: string)
    requires FillsOk(o, fills)
    requires forall b :: b in buys ==> b in BuyFills(fills) && LotKnown(m, o, b)
    ensures OpenQty(LotsFor(m, o, fills, buys), o.accountId, symbol) ==
            BuyTotal(buys, QtyIn(symbol)) - LotTotal(fills, buys, QtyIn(symbol))
  {
    if buys != [] {
      var front, b := buys[..|buys| - 1], buys[|buys| - 1];
      OpenQtyFor(m, o, fills, front, symbol);
      var lots := LotsFor(m, o, fills, buys);
      assert lots[..|lots| - 1] == LotsFor(m, o, fills, front);
      ClosedMeansEmpty(m, o, fills, b);
      LotSellsItsSymbol(o, fills, b.lotId, symbol);
      BuyFillsMember(fills);
      BuyFound(o, fills, b);
    }
  }

  lemma {:induction false} BuyTotalOfBuys(fills: seq<Fill>, w: Fill -> Decimal)
    ensures BuyTotal(BuyFills(fills), w) == BuyTotal(fills, w)
  {
    if fills != [] {
      var before, f := fills[..|fills| - 1], fills[|fills| - 1];
      BuyTotalOfBuys(before, w);
      if f.side.Buy? {
        assert BuyFills(fills) == BuyFills(before) + [f];
        TotalsAppend(BuyFills(before), f, w);
      } else {
        assert BuyFills(fills) == BuyFills(before);
      }
    }
  }

  /** Conservation: what positions() reports, lot by lot and clamped at zero,
      is the opening quantity plus everything bought minus everything sold in
      the raw log. */
  lemma PositionsConserve(m: Market, o: Owner, base: map<string, Decimal>, fills: seq<Fill>, symbol: string)
    requires FillsOk(o, fills) && LotsOf(m, o, fills).Some?
    ensures Lookup(PositionsOf(base, LotsOf(m, o, fills).value, o.accountId), symbol) ==
            Lookup(base, symbol) + BuyTotal(fills, QtyIn(symbol)) - SellTotal(fills, QtyIn(symbol))
  {
    PositionsAddOpenLots(base, LotsOf(m, o, fills).value, o.accountId, symbol);
    OpenQtyFor(m, o, fills, BuyFills(fills), symbol);
    SalesByLot(o, fills, QtyIn(symbol));
    BuyTotalOfBuys(fills, QtyIn(symbol));
  }

  // ---------------------------------------------------------------- the gate on the ledger's own lots

  /** A lot that lots() shows open holds something. */
  lemma {:induction false} OpenLotsHold(m: Market, o: Owner, fills: seq<Fill>, buys: seq<Fill>)
    requires FillsOk(o, fills)
    requires forall b :: b in buys ==> b in BuyFills(fills) && LotKnown(m, o, b)
    ensures forall l :: l in LotsFor(m, o, fills, buys) && l.IsOpen() ==> l.qty > 0.0
  {
    if buys != [] {
      OpenLotsHold(m, o, fills, buys[..|buys| - 1]);
      ClosedMeansEmpty(m, o, fills, buys[|buys| - 1]);
    }
  }

  lemma {:induction false} OpenLotsAppend(lots: seq<Lot>, l: Lot, accountId: string, symbol: Option<string>)
    ensures Selected(l, accountId, symbol) ==>
              OpenLots(lots + [l], accountId, symbol) == OpenLots(lots, accountId, symbol) + [l]
    ensures !Selected(l, accountId, symbol) ==>
              OpenLots(lots + [l], accountId, symbol) == OpenLots(lots, accountId, symbol)
  {
    hide Selected;
    var all := lots + [l];
    if lots == [] {
      assert all == [l] && [l][1..] == [];
    } else {
      OpenLotsAppend(lots[1..], l, accountId, symbol);
      assert all[0] == lots[0] && all[1..] == lots[1..] + [l];
      var first := if Selected(lots[0], accountId, symbol) then [lots[0]] else [];
      var rest := OpenLots(lots[1..], accountId, symbol);
      assert first + (rest + [l]) == (first + rest) + [l];
    }
  }

  lemma {:induction false} TotalQtyAppend(lots: seq<Lot>, l: Lot)
    ensures TotalQty(lots + [l]) == TotalQty(lots) + l.qty
  {
    if lots == [] {
      assert lots + [l] == [l];
    } else {
      TotalQtyAppend(lots[1..], l);
      assert (lots + [l])[1..] == lots[1..] + [l];
    }
  }

  lemma {:induction false} TotalIsOpenQty(lots: seq<Lot>, accountId: string, symbol: string)
    ensures TotalQty(OpenLots(lots, accountId, Some(symbol))) == OpenQty(lots, accountId, symbol)
  {
    if lots != [] {
      var front, l := lots[..|lots| - 1], lots[|lots| - 1];
      TotalIsOpenQty(front, accountId, symbol);
      OpenLotsAppend(front, l, accountId, Some(symbol));
      assert lots == front + [l];
      if Selected(l, accountId, Some(symbol)) {
        TotalQtyAppend(OpenLots(front, accountId, Some(symbol)), l);
      }
    }
  }

  /** The broker's queue for a symbol, taken from lots(): every lot in it holds
      something, and together they hold what was bought and not sold. */
  lemma QueueOfTheLedger(m: Market, o: Owner, fills: seq<Fill>, symbol: string)
    requires FillsOk(o, fills) && LotsOf(m, o, fills).Some?
    ensures var queue := Queue(LotsOf(m, o, fills).value, o.accountId, symbol);
            && PositiveLots(queue)
            && TotalQty(queue) == BuyTotal(fills, QtyIn(symbol)) - SellTotal(fills, QtyIn(symbol))
  {
    var lots := LotsOf(m, o, fills).value;
    var open := OpenLots(lots, o.accountId, Some(symbol));
    OpenLotsHold(m, o, fills, BuyFills(fills));
    hide LotsOf;
    SortSorts(open, KeyOf);
    var queue := Queue(lots, o.accountId, symbol);
    forall i | 0 <= i < |queue| ensures queue[i].qty > 0.0 {
      assert queue[i] in multiset(queue);
      OpenLotsMember(lots, o.accountId, Some(symbol), queue[i]);
    }
    SortKeepsTotal(open);
    TotalIsOpenQty(lots, o.accountId, symbol);
    OpenQtyFor(m, o, fills, BuyFills(fills), symbol);
    SalesByLot(o, fills, QtyIn(symbol));
    BuyTotalOfBuys(fills, QtyIn(symbol));
  }

  /** The gate on an account's own ledger is exact: x units of a symbol may be
      sold if and only if at least x is held and the broker, disposing x
      units in its own order, touches released lots only. */
  lemma LedgerGateExact(m: Market, o: Owner, fills: seq<Fill>, symbol: string, x: Decimal, now: Instant)
    requires FillsOk(o, fills) && LotsOf(m, o, fills).Some? && x > 0.0
    ensures var queue := Queue(LotsOf(m, o, fills).value, o.accountId, symbol);
            x <= LeadingQty(queue, now) <==>
            && x <= BuyTotal(fills, QtyIn(symbol)) - SellTotal(fills, QtyIn(symbol))
            && forall i :: 0 <= i < |queue| && Disposed(queue, x)[i] > 0.0 ==> Released(queue[i], now)
  {
    QueueOfTheLedger(m, o, fills, symbol);
    hide LotsOf, Queue, BuyTotal, SellTotal, TotalQty, LeadingQty, Disposed, Released;
    var queue := Queue(LotsOf(m, o, fills).value, o.accountId, symbol);
    LeadingBounds(queue, now, now);
    if x <= TotalQty(queue) {
      FifoGateExact(queue, x, now);
    }
  }

  // ---------------------------------------------------------------- closed lots

  lemma {:induction false} ClosedLotsNamed(fills: seq<Fill>, buys: seq<Fill>)
    ensures forall c :: c in ClosedLotsFor(fills, buys) <==>
              exists b :: b in buys && SoldQty(fills, b.lotId) >= b.qty && c == ClosedLotOf(fills, b)
  {
    if buys != [] {
      var front, last := buys[..|buys| - 1], buys[|buys| - 1];
      ClosedLotsNamed(fills, front);
      assert buys == front + [last];
      forall c ensures c in ClosedLotsFor(fills, buys) <==>
                exists b :: b in buys && SoldQty(fills, b.lotId) >= b.qty && c == ClosedLotOf(fills, b) {
        if c in ClosedLotsFor(fills, front) {
          var b :| b in front && SoldQty(fills, b.lotId) >= b.qty && c == ClosedLotOf(fills, b);
          assert b in buys;
        }
        if c == ClosedLotOf(fills, last) && SoldQty(fills, last.lotId) >= last.qty {
          assert last in buys;
        }
      }
    }
  }

  /** closed_lots() and lots() agree: a bought lot is reported closed by the one
      exactly when the other leaves it nothing and stamps it closed, with the
      same closing instant, the whole quantity, and no basis left open. */
  lemma ClosedLotsAreTheEmptyLots(m: Market, o: Owner, fills: seq<Fill>, b: Fill)
    requires FillsOk(o, fills) && b in BuyFills(fills) && LotKnown(m, o, b)
    ensures ClosedLotOf(fills, b) in ClosedLotsFor(fills, BuyFills(fills)) <==> LotOf(m, o, fills, b).qty == 0.0
    ensures LotOf(m, o, fills, b).qty == 0.0 ==>
              && LotOf(m, o, fills, b).closedAt == ClosedLotOf(fills, b).closedAt
              && LotOf(m, o, fills, b).closedAt.Some?
              && LotOf(m, o, fills, b).costBasis == 0.0
              && SoldQty(fills, b.lotId) == ClosedLotOf(fills, b).qty
  {
    ClosedMeansEmpty(m, o, fills, b);
    ClosedLotsNamed(fills, BuyFills(fills));
    BuyFillsMember(fills);
    FillShapes(o, fills);
    BuyFound(o, fills, b);
    if ClosedLotOf(fills, b) in ClosedLotsFor(fills, BuyFills(fills)) {
      var c :| && c in BuyFills(fills) && SoldQty(fills, c.lotId) >= c.qty
               && ClosedLotOf(fills, b) == ClosedLotOf(fills, c);
      BuyFound(o, fills, c);
    }
  }

  // ---------------------------------------------------------------- realised gain

  function PnlTotal(closed: seq<ClosedLot>): Decimal {
    if closed == [] then 0.0
    else PnlTotal(closed[..|closed| - 1]) + closed[|closed| - 1].RealizedPnl()
  }

  /** What a buy cost before rounding to cents. */
  function BasisOf(f: Fill): Decimal { f.qty * f.price }

  lemma PnlOfClosedLot(fills: seq<Fill>, b: Fill)
    ensures ClosedLotOf(fills, b).RealizedPnl() == PerLot(fills, b.lotId, NotionalOf) - BasisOf(b)
  {
  }

  lemma {:induction false} PnlByLot(fills: seq<Fill>, buys: seq<Fill>)
    requires forall b :: b in buys ==> b.side.Buy? && SoldQty(fills, b.lotId) >= b.qty
    ensures PnlTotal(ClosedLotsFor(fills, buys)) == LotTotal(fills, buys, NotionalOf) - BuyTotal(buys, BasisOf)
    ensures |ClosedLotsFor(fills, buys)| == |buys|
  {
    if buys != [] {
      var front, b := buys[..|buys| - 1], buys[|buys| - 1];
      PnlByLot(fills, front);
      PnlOfClosedLot(fills, b);
      var closed := ClosedLotsFor(fills, buys);
      assert closed == ClosedLotsFor(fills, front) + [ClosedLotOf(fills, b)];
      assert closed[..|closed| - 1] == ClosedLotsFor(fills, front);
    }
  }

  lemma {:induction false} CashOfSettledLog(m: Market, fills: seq<Fill>, now: Instant)
    requires forall f :: f in fills && !f.side.Buy? ==> SettledBy(m, f, now)
    ensures FillsCash(m, fills, now) == SellTotal(fills, NotionalOf) - BuyTotal(fills, NotionalOf)
  {
    if fills != [] {
      assert fills == fills[..|fills| - 1] + [fills[|fills| - 1]];
      CashOfSettledLog(m, fills[..|fills| - 1], now);
    }
  }

  lemma HalfACent(b: Fill)
    ensures -0.005 <= NotionalOf(b) - BasisOf(b) <= 0.005
  {
  }

  lemma {:induction false} RoundingPerBuy(buys: seq<Fill>)
    requires forall b :: b in buys ==> b.side.Buy?
    ensures Abs(BuyTotal(buys, NotionalOf) - BuyTotal(buys, BasisOf)) <= 0.005 * |buys| as real
  {
    if buys != [] {
      HalfACent(buys[|buys| - 1]);
      RoundingPerBuy(buys[..|buys| - 1]);
    }
  }

  /** Cash from fills, when all is sold and settled, is the realised P&L
      corrected by what rounding each buy to cents moved. */
  lemma CashIsPnlPlusRounding(m: Market, o: Owner, fills: seq<Fill>, now: Instant)
    requires FillsOk(o, fills)
    requires forall f :: f in BuyFills(fills) ==> SoldQty(fills, f.lotId) >= f.qty
    requires forall f :: f in fills && !f.side.Buy? ==> SettledBy(m, f, now)
    ensures |ClosedLotsFor(fills, BuyFills(fills))| == |BuyFills(fills)|
    ensures FillsCash(m, fills, now) == PnlTotal(ClosedLotsFor(fills, BuyFills(fills)))
                                        + BuyTotal(BuyFills(fills), BasisOf) - BuyTotal(BuyFills(fills), NotionalOf)
  {
    BuyFillsMember(fills);
    PnlByLot(fills, BuyFills(fills));
    SalesByLot(o, fills, NotionalOf);
    CashOfSettledLog(m, fills, now);
    BuyTotalOfBuys(fills, NotionalOf);
  }

  /** When every lot is sold out and every sale has settled, the cash gained
      over the opening balance (fees and corrections apart) is the total
      realised P&L, up to the half cent per lot that rounding each buy costs. */
  lemma RealisedGainExplainsCash(m: Market, o: Owner, opening: Decimal, b: Books, now: Instant)
    requires FillsOk(o, b.fills)
    requires forall f :: f in BuyFills(b.fills) ==> SoldQty(b.fills, f.lotId) >= f.qty
    requires forall f :: f in b.fills && !f.side.Buy? ==> SettledBy(m, f, now)
    ensures SettledCashOf(m, opening, b, now).Some?
    ensures var closed := ClosedLotsFor(b.fills, BuyFills(b.fills));
            var gained := SettledCashOf(m, opening, b, now).value - opening
                          - AdjustmentsCash(b.adjustments) - CorrectionsCash(b.corrections);
            && |closed| == |BuyFills(b.fills)|
            && Abs(gained - PnlTotal(closed)) <= 0.005 * |closed| as real
  {
    hide BuyFills, ClosedLotsFor, PnlTotal, BuyTotal, FillsCash, SoldQty;
    CashIsPnlPlusRounding(m, o, b.fills, now);
    BuyFillsMember(b.fills);
    RoundingPerBuy(BuyFills(b.fills));
  }

  /** Settled and unsettled cash together do not depend on the clock. */
  lemma {:induction false} SettledPlusUnsettled(m: Market, fills: seq<Fill>, now: Instant)
    ensures FillsCash(m, fills, now) + UnsettledOf(m, fills, now) ==
            SellTotal(fills, NotionalOf) - BuyTotal(fills, NotionalOf)
  {
    if fills != [] {
      SettledPlusUnsettled(m, fills[..|fills| - 1], now);
    }
  }

  // ---------------------------------------------------------------- disposal

  lemma {:induction false} OpenKeysMember(fills: seq<Fill>, buys: seq<Fill>, symbol: string, k: LotKey)
    ensures k in OpenKeys(fills, buys, symbol) <==>
            exists b :: b in buys && Remaining(fills, b) > 0.0 && b.symbol == symbol && k == LotKey(b.filledAt, b.lotId)
  {
    if buys != [] {
      var front, last := buys[..|buys| - 1], buys[|buys| - 1];
      OpenKeysMember(fills, front, symbol, k);
      assert buys == front + [last];
    }
  }

  /** At every sale the broker's queue is not empty, so the fallback to the
      intended lot never happens; the lot named is open and of the sold symbol;
      and it stands at or before the intended lot in (opened_at, lot_id) order. */
  lemma DisposalNeverFallsBack(policy: LotSelectionPolicy, o: Owner, fills: seq<Fill>, i: nat)
    requires FillsOk(o, fills) && i < |fills| && !fills[i].side.Buy? && policy.selection == BrokerFifo
    ensures BrokerQueue(policy, fills[..i], fills[i].symbol).Ok?
    ensures var before, f := fills[..i], fills[i];
            var queue := BrokerQueue(policy, before, f.symbol).value;
            && queue != []
            && BuyOf(before, f.lotId).Some?
            && KeyLe(queue[0], LotKey(BuyOf(before, f.lotId).value.filledAt, f.lotId))
            && exists b :: b in BuyFills(before) && Remaining(before, b) > 0.0 && b.symbol == f.symbol
                           && queue[0] == LotKey(b.filledAt, b.lotId)
  {
    var before, f := fills[..i], fills[i];
    FillsOkPrefix(o, fills, i);
    AllCame(o, fills);
    assert Came(fills, i);
    var buy := BuyOf(before, f.lotId).value;
    BuyFillsMember(before);
    var keys := OpenKeys(before, BuyFills(before), f.symbol);
    var intended := LotKey(buy.filledAt, f.lotId);
    OpenKeysMember(before, BuyFills(before), f.symbol, intended);
    assert intended in keys;
    SortSorts(keys, Self);
    var queue := Sort(keys, Self);
    assert intended in multiset(queue);
    OrderedHeadIsLeast(queue, intended, Self);
    assert queue[0] in multiset(keys);
    OpenKeysMember(before, BuyFills(before), f.symbol, queue[0]);
  }

  function SaleCount(fills: seq<Fill>): nat {
    if fills == [] then 0
    else SaleCount(fills[..|fills| - 1]) + if fills[|fills| - 1].side.Buy? then 0 else 1
  }

  /** One record per sale and in order: sale i has record number SaleCount(i),
      and it is the one its own queue determines. */
  lemma {:induction false} DisposalRecordOfSale(policy: LotSelectionPolicy, fills: seq<Fill>, i: nat)
    requires i < |fills| && !fills[i].side.Buy? && policy.selection == BrokerFifo
    ensures DisposalsOf(policy, fills).Ok? && |DisposalsOf(policy, fills).value| == SaleCount(fills)
    ensures SaleCount(fills[..i]) < SaleCount(fills)
    ensures DisposalsOf(policy, fills).value[SaleCount(fills[..i])] ==
            DisposalOf(fills[i], BrokerQueue(policy, fills[..i], fills[i].symbol).value)
  {
    DisposalCount(policy, fills);
    var before := fills[..|fills| - 1];
    DisposalCount(policy, before);
    if i < |fills| - 1 {
      DisposalRecordOfSale(policy, before, i);
      assert before[..i] == fills[..i];
    }
  }

  lemma {:induction false} DisposalCount(policy: LotSelectionPolicy, fills: seq<Fill>)
    requires policy.selection == BrokerFifo
    ensures DisposalsOf(policy, fills).Ok? && |DisposalsOf(policy, fills).value| == SaleCount(fills)
  {
    if fills != [] {
      DisposalCount(policy, fills[..|fills| - 1]);
    }
  }
}
