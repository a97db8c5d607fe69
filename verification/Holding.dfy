/** Lots, and how much of a symbol a normal exit may sell right now. */
module Holding {
  import opened Wrappers
  import opened Money
  import opened MarketCalendar
  import opened LotSelection

  /** Microseconds. */
  type Duration = int

  datatype HoldingPolicy = HoldingPolicy(version: string, minimumHold: Duration, cooldown: Duration)

  datatype Lot = Lot(
    lotId: string,
    accountId: string,
    symbol: string,
    qty: Decimal,
    costBasis: Decimal,
    openedAt: Instant,
    minimumHold: Duration,
    policyVersion: string,
    settlesAt: Option<Instant>,
    closedAt: Option<Instant>
  ) {
    predicate IsSettled(now: Instant) {
      settlesAt.None? || now >= settlesAt.value
    }

    predicate IsHoldEligible(now: Instant) {
      now >= openedAt + minimumHold
    }

    predicate IsOpen() {
      closedAt.None?
    }
  }

  function KeyOf(l: Lot): LotKey {
    LotKey(l.openedAt, l.lotId)
  }

  /** Released for a normal exit: settled and past its own minimum hold. */
  predicate Released(l: Lot, now: Instant) {
    l.IsHoldEligible(now) && l.IsSettled(now)
  }

  predicate Selected(l: Lot, accountId: string, symbol: Option<string>) {
    l.IsOpen() && l.accountId == accountId && (symbol.None? || l.symbol == symbol.value)
  }

  function OpenLots(lots: seq<Lot>, accountId: string, symbol: Option<string>): seq<Lot> {
    if lots == [] then []
    else
      var l := lots[0];
      (if Selected(l, accountId, symbol) then [l] else []) + OpenLots(lots[1..], accountId, symbol)
  }

  function TotalQty(lots: seq<Lot>): Decimal {
    if lots == [] then 0.0 else lots[0].qty + TotalQty(lots[1..])
  }

  /** The open lots of one symbol in the order the broker consumes them. */
  function Queue(lots: seq<Lot>, accountId: string, symbol: string): seq<Lot> {
    Sort(OpenLots(lots, accountId, Some(symbol)), KeyOf)
  }

  /** The quantity in the leading run of released lots. */
  function LeadingQty(queue: seq<Lot>, now: Instant): Decimal {
    if queue == [] || !Released(queue[0], now) then 0.0
    else queue[0].qty + LeadingQty(queue[1..], now)
  }

  // ---------------------------------------------------------------- the calls

  method SellableQty(lots: seq<Lot>, accountId: string, symbol: string, now: Instant, policy: LotSelectionPolicy)
    returns (r: Result<Decimal, UnsupportedLotSelectionPolicy>)
    ensures r == if policy.selection != BrokerFifo then Err(UnsupportedLotSelectionPolicy(policy.selection))
                 else Ok(LeadingQty(Queue(lots, accountId, symbol), now))
  {
    var order := DisposalOrder(policy, OpenLots(lots, accountId, Some(symbol)), KeyOf);
    if order.Err? {
      return Err(order.error);
    }
    var queue := order.value;
    var total: Decimal := 0.0;
    var i := 0;
    while i < |queue|
      invariant 0 <= i <= |queue|
      invariant LeadingQty(queue, now) == total + LeadingQty(queue[i..], now)
    {
      if !Released(queue[i], now) {
        break;
      }
      total := total + queue[i].qty;
      assert queue[i..][1..] == queue[i + 1..];
      i := i + 1;
    }
    return Ok(total);
  }

  /** What is left behind the leading run, as all open lots less what is
      sellable; the promise is about the broker's queue. */
  method BlockedQty(lots: seq<Lot>, accountId: string, symbol: string, now: Instant, policy: LotSelectionPolicy)
    returns (r: Result<Decimal, UnsupportedLotSelectionPolicy>)
    ensures r.Err? <==> policy.selection != BrokerFifo
    ensures r.Ok? ==> var queue := Queue(lots, accountId, symbol);
                      r.value == TotalQty(queue[LeadingRun(queue, now)..])
  {
    var open := OpenLots(lots, accountId, Some(symbol));
    var totalOpen := TotalQty(open);
    var sellable := SellableQty(lots, accountId, symbol, now, policy);
    if sellable.Err? {
      return Err(sellable.error);
    }
    SortKeepsTotal(open);
    LeadingRunSplits(Queue(lots, accountId, symbol), now);
    return Ok(totalOpen - sellable.value);
  }

  ghost function LeadingRun(queue: seq<Lot>, now: Instant): (n: nat)
    ensures n <= |queue|
  {
    if queue == [] || !Released(queue[0], now) then 0 else 1 + LeadingRun(queue[1..], now)
  }

  lemma {:induction false} LeadingRunSplits(queue: seq<Lot>, now: Instant)
    ensures TotalQty(queue) == LeadingQty(queue, now) + TotalQty(queue[LeadingRun(queue, now)..])
  {
    if queue != [] && Released(queue[0], now) {
      LeadingRunSplits(queue[1..], now);
      assert queue[1..][LeadingRun(queue[1..], now)..] == queue[LeadingRun(queue, now)..];
    }
  }

  lemma {:induction false} InsertAddsQty(x: Lot, xs: seq<Lot>)
    ensures TotalQty(Insert(x, xs, KeyOf)) == x.qty + TotalQty(xs)
  {
    if xs != [] {
      if KeyLe(KeyOf(x), KeyOf(xs[0])) {
        assert ([x] + xs)[1..] == xs;
      } else {
        InsertAddsQty(x, xs[1..]);
        assert ([xs[0]] + Insert(x, xs[1..], KeyOf))[1..] == Insert(x, xs[1..], KeyOf);
      }
    }
  }

  lemma {:induction false} SortKeepsTotal(xs: seq<Lot>)
    ensures TotalQty(Sort(xs, KeyOf)) == TotalQty(xs)
  {
    if xs != [] {
      SortKeepsTotal(xs[1..]);
      InsertAddsQty(xs[0], Sort(xs[1..], KeyOf));
    }
  }

  // ---------------------------------------------------------------- what the broker would consume

  /** How much each queued lot gives up when x units are disposed in order. */
  function Disposed(queue: seq<Lot>, x: Decimal): (takes: seq<Decimal>)
    ensures |takes| == |queue|
  {
    if queue == [] then []
    else
      var take := if x <= queue[0].qty then x else queue[0].qty;
      [take] + Disposed(queue[1..], x - take)
  }

  function Sum(xs: seq<Decimal>): Decimal {
    if xs == [] then 0.0 else xs[0] + Sum(xs[1..])
  }

  ghost predicate PositiveLots(queue: seq<Lot>) {
    forall i :: 0 <= i < |queue| ==> queue[i].qty > 0.0
  }

  /** Disposal is a real allocation: it adds up to x, takes no more than a lot
      holds, and reaches a lot only after emptying every lot before it. */
  lemma {:induction false} DisposedAllocates(queue: seq<Lot>, x: Decimal)
    requires PositiveLots(queue) && 0.0 <= x <= TotalQty(queue)
    ensures Sum(Disposed(queue, x)) == x
    ensures forall i :: 0 <= i < |queue| ==> 0.0 <= Disposed(queue, x)[i] <= queue[i].qty
    ensures forall i, j :: 0 <= i < j < |queue| && Disposed(queue, x)[j] > 0.0 ==> Disposed(queue, x)[i] == queue[i].qty
  {
    if queue != [] {
      var take := if x <= queue[0].qty then x else queue[0].qty;
      TotalNonNegative(queue[1..]);
      DisposedAllocates(queue[1..], x - take);
      if x <= queue[0].qty {
        NothingLeftTakesNothing(queue[1..]);
      }
      FirstTaken(queue, x, take, Disposed(queue[1..], x - take));
    }
  }

  /** One lot in front of an allocation of the rest. */
  lemma FirstTaken(queue: seq<Lot>, x: Decimal, take: Decimal, rest: seq<Decimal>)
    requires PositiveLots(queue) && queue != [] && 0.0 <= x && take == (if x <= queue[0].qty then x else queue[0].qty)
    requires rest == Disposed(queue[1..], x - take) && Sum(rest) == x - take
    requires forall i :: 0 <= i < |rest| ==> 0.0 <= rest[i] <= queue[1..][i].qty
    requires forall i, j :: 0 <= i < j < |rest| && rest[j] > 0.0 ==> rest[i] == queue[1..][i].qty
    requires x <= queue[0].qty ==> forall i :: 0 <= i < |rest| ==> rest[i] == 0.0
    ensures Disposed(queue, x) == [take] + rest && Sum(Disposed(queue, x)) == x
    ensures forall i :: 0 <= i < |queue| ==> 0.0 <= Disposed(queue, x)[i] <= queue[i].qty
    ensures forall i, j :: 0 <= i < j < |queue| && Disposed(queue, x)[j] > 0.0 ==> Disposed(queue, x)[i] == queue[i].qty
  {
    var takes := [take] + rest;
    assert Disposed(queue, x) == takes && takes[1..] == rest;
    hide Disposed;
    forall i, j | 0 <= i < j < |queue| && takes[j] > 0.0 ensures takes[i] == queue[i].qty {
      assert rest[j - 1] > 0.0;
      if i > 0 {
        assert queue[1..][i - 1] == queue[i] && rest[i - 1] == takes[i];
      }
    }
    forall i | 0 <= i < |queue| ensures 0.0 <= takes[i] <= queue[i].qty {
      if i > 0 {
        assert takes[i] == rest[i - 1] && queue[1..][i - 1] == queue[i];
      }
    }
  }

  lemma {:induction false} TotalNonNegative(queue: seq<Lot>)
    requires PositiveLots(queue)
    ensures TotalQty(queue) >= 0.0
  {
    if queue != [] {
      TotalNonNegative(queue[1..]);
    }
  }

  lemma {:induction false} NothingLeftTakesNothing(queue: seq<Lot>)
    requires PositiveLots(queue)
    ensures forall i :: 0 <= i < |queue| ==> Disposed(queue, 0.0)[i] == 0.0
  {
    if queue != [] {
      NothingLeftTakesNothing(queue[1..]);
      assert Disposed(queue, 0.0) == [0.0] + Disposed(queue[1..], 0.0);
    }
  }

  /** The gate is exact: x units may be sold if and only if the broker,
      disposing x units in its own order, touches released lots only. */
  lemma {:induction false} FifoGateExact(queue: seq<Lot>, x: Decimal, now: Instant)
    requires PositiveLots(queue) && 0.0 < x <= TotalQty(queue)
    ensures x <= LeadingQty(queue, now) <==>
            forall i :: 0 <= i < |queue| && Disposed(queue, x)[i] > 0.0 ==> Released(queue[i], now)
  {
    var take := if x <= queue[0].qty then x else queue[0].qty;
    var rest := Disposed(queue[1..], x - take);
    assert Disposed(queue, x) == [take] + rest;
    forall i | 0 < i < |queue| ensures Disposed(queue, x)[i] == rest[i - 1] && queue[i] == queue[1..][i - 1] {
    }
    if !Released(queue[0], now) {
      assert Disposed(queue, x)[0] > 0.0;
    } else if x <= queue[0].qty {
      NothingLeftTakesNothing(queue[1..]);
      LeadingBounds(queue[1..], now, now);
    } else {
      FifoGateExact(queue[1..], x - take, now);
      if forall i :: 0 <= i < |queue| && Disposed(queue, x)[i] > 0.0 ==> Released(queue[i], now) {
        forall i | 0 <= i < |queue[1..]| && rest[i] > 0.0 ensures Released(queue[1..][i], now) {
          assert Disposed(queue, x)[i + 1] > 0.0;
        }
      }
    }
  }

  /** Waiting never makes less sellable. */
  lemma {:induction false} LeadingBounds(queue: seq<Lot>, now: Instant, later: Instant)
    requires PositiveLots(queue) && now <= later
    ensures 0.0 <= LeadingQty(queue, now) <= LeadingQty(queue, later) <= TotalQty(queue)
  {
    if queue != [] {
      LeadingBounds(queue[1..], now, later);
      TotalNonNegative(queue[1..]);
    }
  }

  /** The answer depends on which lots there are, not on how they are listed. */
  lemma SellableIgnoresInputOrder(a: seq<Lot>, b: seq<Lot>, accountId: string, symbol: string, now: Instant)
    requires multiset(a) == multiset(b)
    requires forall x, y :: x in a && y in a && x.lotId == y.lotId ==> x == y
    ensures Queue(a, accountId, symbol) == Queue(b, accountId, symbol)
  {
    OpenLotsMultiset(a, b, accountId, Some(symbol));
    var xs := OpenLots(a, accountId, Some(symbol));
    forall x, y | x in xs && y in xs && KeyOf(x) == KeyOf(y) ensures x == y {
      OpenLotsMember(a, accountId, Some(symbol), x);
      OpenLotsMember(a, accountId, Some(symbol), y);
    }
    SortIgnoresInputOrder(xs, OpenLots(b, accountId, Some(symbol)), KeyOf);
  }

  lemma {:induction false} OpenLotsMember(lots: seq<Lot>, accountId: string, symbol: Option<string>, l: Lot)
    ensures l in OpenLots(lots, accountId, symbol) <==> l in lots && Selected(l, accountId, symbol)
  {
    if lots != [] {
      OpenLotsMember(lots[1..], accountId, symbol, l);
      assert lots == [lots[0]] + lots[1..];
    }
  }

  lemma {:induction false} OpenLotsCount(lots: seq<Lot>, accountId: string, symbol: Option<string>, l: Lot)
    ensures multiset(OpenLots(lots, accountId, symbol))[l] ==
            if Selected(l, accountId, symbol) then multiset(lots)[l] else 0
  {
    if lots != [] {
      OpenLotsCount(lots[1..], accountId, symbol, l);
      assert lots == [lots[0]] + lots[1..];
    }
  }

  lemma OpenLotsMultiset(a: seq<Lot>, b: seq<Lot>, accountId: string, symbol: Option<string>)
    requires multiset(a) == multiset(b)
    ensures multiset(OpenLots(a, accountId, symbol)) == multiset(OpenLots(b, accountId, symbol))
  {
    forall l ensures multiset(OpenLots(a, accountId, symbol))[l] == multiset(OpenLots(b, accountId, symbol))[l] {
      OpenLotsCount(a, accountId, symbol, l);
      OpenLotsCount(b, accountId, symbol, l);
    }
  }
}
