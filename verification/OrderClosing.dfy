/** Closing the order records the broker confirms as finished, and no others. */
module OrderClosing {
  import opened Wrappers
  import opened MarketCalendar
  import opened LotSelection
  import opened LedgerBooks
  import opened AccountLedger
  import opened LedgerFile
  import opened LedgerStores
  import opened PollLoop

  datatype BrokerOrder = BrokerOrder(accountId: string, status: string)

  datatype ClosingError = WrongAccount | NotRecorded(error: StoreError)

  predicate Terminal(status: string) {
    status == "filled" || status == "canceled" || status == "rejected"
  }

  /** The broker still reports the order, and reports it finished. */
  predicate Confirmed(broker: map<string, BrokerOrder>, id: string) {
    id in broker && Terminal(broker[id].status)
  }

  function ClosedRecord(o: Owner, id: string, now: Instant): OrderRecord {
    OrderRecord(id, o.accountId, Closed, now, None, None)
  }

  function CloseOne(o: Owner, broker: map<string, BrokerOrder>, now: Instant, s: Store, id: string): Result<Store,
                    ClosingError> {
    if id !in broker then Ok(s)
    else if broker[id].accountId != o.accountId then Err(WrongAccount)
    else if !Terminal(broker[id].status) then Ok(s)
    else match EntryWritten(o, s, OrderEntry(ClosedRecord(o, id, now)))
         case Err(e) => Err(NotRecorded(e))
         case Ok(t) => Ok(t)
  }

  function Step(o: Owner, broker: map<string, BrokerOrder>, now: Instant)
    : (Store, string) -> Result<Store, ClosingError>
  {
    (s, id) => CloseOne(o, broker, now, s, id)
  }

  /** One pass over the orders believed open, in id order. */
  function ClosePass(o: Owner, broker: map<string, BrokerOrder>, now: Instant, s: Store,
                     ids: seq<string>): Progress<Store, ClosingError> {
    Poll(Step(o, broker, now), s, ids)
  }

  ghost predicate Ascending(ids: seq<string>) {
    forall i, j :: 0 <= i < j < |ids| ==> ids[i] != ids[j] && StringLe(ids[i], ids[j])
  }

  ghost predicate OpenIds(orders: seq<OrderRecord>, ids: seq<string>) {
    Ascending(ids) && forall id :: id in ids <==> OrderOpen(orders, id)
  }

  predicate Least(least: string, ids: set<string>) {
    least in ids && forall x :: x in ids ==> StringLe(least, x)
  }

  lemma {:induction false} LeastExists(ids: set<string>)
    requires ids != {}
    ensures exists least :: Least(least, ids)
    decreases |ids|
  {
    hide StringLe;
    var any :| any in ids;
    StringLeTotal(any, any);
    var others := ids - {any};
    if others == {} {
      assert forall x :: x in ids ==> x == any || x in others;
      assert Least(any, ids);
    } else {
      LeastExists(others);
      var least :| Least(least, others);
      LeastOfTwo(ids, any, least);
    }
  }

  lemma LeastOfTwo(ids: set<string>, any: string, least: string)
    requires any in ids && Least(least, ids - {any})
    ensures Least(any, ids) || Least(least, ids)
  {
    hide StringLe;
    StringLeTotal(any, least);
    StringLeTotal(any, any);
    if StringLe(any, least) {
      forall x | x in ids ensures StringLe(any, x) {
        if x != any {
          StringLeTransitive(any, least, x);
        }
      }
    }
  }

  method CloseTerminalOrders(store: LedgerStore, broker: map<string, BrokerOrder>, now: Instant)
    returns (r: Result<seq<OrderRecord>, ClosingError>)
    requires store.Valid()
    modifies store, store.ledger
    ensures store.Valid()
    ensures var pass := ClosePass(store.owner, broker, now, old(store.State()), AskedFor(old(store.ledger.orders)));
            && store.State() == pass.state
            && match pass.error
               case Some(e) => r == Err(e)
               case None => r.Ok? && store.ledger.orders == old(store.ledger.orders) + r.value
  {
    hide *;
    var remaining := store.ledger.OpenOrderIds();
    ghost var start, o := store.State(), store.owner;
    var closed: seq<OrderRecord> := [];
    ghost var asked := AskedFor(store.ledger.orders);
    AskedForAll(remaining, asked, store.ledger.orders);
    PassOfNothing(o, broker, now, start);
    ghost var done := 0;
    while remaining != {}
      invariant store.Valid() && done <= |asked|
      invariant forall x :: x in remaining <==> x in asked[done..]
      invariant Ascending(asked)
      invariant ClosePass(o, broker, now, start, asked[..done]) == Progress(store.State(), None)
      invariant store.ledger.orders == old(store.ledger.orders) + closed
      decreases |remaining|
    {
      LeastExists(remaining);
      var id :| Least(id, remaining);
      LeastIs(id, remaining);
      LeastIsNext(remaining, asked, done, id);
      PassNext(o, broker, now, start, asked, done);
      var w := CloseOrder(store, broker, now, id);
      if w.Err? {
        PassStops(o, broker, now, start, asked, done + 1);
        return Err(w.error);
      }
      closed := closed + w.value;
      remaining := remaining - {id};
      RestIsRest(asked, done);
      done := done + 1;
    }
    NoneLeft(asked, done);
    return Ok(closed);
  }

  /** The body of the loop: one order asked about, and closed if finished. */
  method CloseOrder(store: LedgerStore, broker: map<string, BrokerOrder>, now: Instant, id: string)
    returns (r: Result<seq<OrderRecord>, ClosingError>)
    requires store.Valid()
    modifies store, store.ledger
    ensures store.Valid()
    ensures match CloseOne(store.owner, broker, now, old(store.State()), id)
            case Err(e) => r == Err(e) && store.State() == old(store.State())
            case Ok(s) => r.Ok? && store.State() == s
    ensures r.Ok? ==> store.ledger.orders == old(store.ledger.orders) + r.value
  {
    hide Faithful;
    if id !in broker {
      return Ok([]);
    }
    if broker[id].accountId != store.owner.accountId {
      return Err(WrongAccount);
    }
    if !Terminal(broker[id].status) {
      return Ok([]);
    }
    var record := ClosedRecord(store.owner, id, now);
    var w := store.WriteOrderRecord(record);
    return if w.Err? then Err(NotRecorded(w.error)) else Ok([record]);
  }

  // ---------------------------------------------------------------- the order of the ids

  /** The ids in order, for the contract. */
  ghost function SortedOf(ids: set<string>): (sorted: seq<string>)
    ensures Ascending(sorted) && forall id :: id in sorted <==> id in ids
    decreases |ids|
  {
    if ids == {} then []
    else
      LeastExists(ids);
      var least :| Least(least, ids);
      var rest := SortedOf(ids - {least});
      assert forall j :: 0 <= j < |rest| ==> rest[j] in rest;
      [least] + rest
  }

  lemma LeastIs(least: string, ids: set<string>)
    requires Least(least, ids)
    ensures least in ids && forall x :: x in ids ==> StringLe(least, x)
  {
  }

  function OpenSet(orders: seq<OrderRecord>): set<string> {
    set r | r in orders && OrderOpen(orders, r.clientOrderId) :: r.clientOrderId
  }

  lemma {:induction false} OpenIsListed(orders: seq<OrderRecord>, records: seq<OrderRecord>, id: string)
    requires records <= orders && LatestRecord(records, id).Some? && OrderOpen(orders, id)
    ensures id in OpenSet(orders)
  {
    var last := records[|records| - 1];
    assert last == orders[|records| - 1];
    if last.clientOrderId != id {
      OpenIsListed(orders, records[..|records| - 1], id);
    }
  }

  /** The orders a pass asks about: those open when it starts, in id order. */
  ghost function AskedFor(orders: seq<OrderRecord>): (ids: seq<string>)
    ensures OpenIds(orders, ids)
  {
    forall id | OrderOpen(orders, id) ensures id in OpenSet(orders) {
      OpenIsListed(orders, orders, id);
    }
    SortedOf(OpenSet(orders))
  }

  lemma AskedForAll(ids: set<string>, asked: seq<string>, orders: seq<OrderRecord>)
    requires (forall id :: id in ids <==> OrderOpen(orders, id)) && OpenIds(orders, asked)
    ensures Ascending(asked) && asked[0..] == asked && forall id :: id in ids <==> id in asked
  {
    hide OrderOpen, Ascending;
  }

  lemma LeastIsNext(remaining: set<string>, asked: seq<string>, done: nat, id: string)
    requires Ascending(asked) && done <= |asked| && (forall x :: x in remaining <==> x in asked[done..])
    requires id in remaining && forall x :: x in remaining ==> StringLe(id, x)
    ensures done < |asked| && asked[done] == id
  {
    var i :| 0 <= i < |asked[done..]| && asked[done..][i] == id;
    assert asked[done] == asked[done..][0] && asked[done..][0] in remaining;
    if i > 0 {
      assert asked[done + i] == id;
      Antisymmetric(asked[done], id);
    }
  }

  lemma {:induction false} Antisymmetric(a: string, b: string)
    requires StringLe(a, b) && StringLe(b, a)
    ensures a == b
  {
    if a != "" && b != "" {
      Antisymmetric(a[1..], b[1..]);
      assert a == [a[0]] + a[1..] && b == [b[0]] + b[1..];
    }
  }

  lemma NoneLeft(asked: seq<string>, done: nat)
    requires done <= |asked| && forall x :: x !in asked[done..]
    ensures asked[..done] == asked
  {
    if done < |asked| {
      NextIsInRest(asked, done);
    }
  }

  lemma NextIsInRest(asked: seq<string>, done: nat)
    requires done < |asked|
    ensures asked[done] in asked[done..]
  {
    assert asked[done..][0] == asked[done];
  }

  lemma RestIsRest(asked: seq<string>, done: nat)
    requires Ascending(asked) && done < |asked|
    ensures forall x :: x in asked[done + 1..] <==> x in asked[done..] && x != asked[done]
  {
    assert asked[done..] == [asked[done]] + asked[done + 1..];
    var rest := asked[done + 1..];
    assert forall i :: 0 <= i < |rest| ==> rest[i] == asked[done + 1 + i];
  }

  lemma PassOfNothing(o: Owner, broker: map<string, BrokerOrder>, now: Instant, s: Store)
    ensures forall ids: seq<string> :: ClosePass(o, broker, now, s, ids[..0]) == Progress(s, None)
  {
  }

  lemma PassNext(o: Owner, broker: map<string, BrokerOrder>, now: Instant, s: Store, ids: seq<string>, i: nat)
    requires i < |ids| && ClosePass(o, broker, now, s, ids[..i]).error.None?
    ensures ClosePass(o, broker, now, s, ids[..i + 1]) ==
            match CloseOne(o, broker, now, ClosePass(o, broker, now, s, ids[..i]).state, ids[i])
            case Err(x) => Progress(ClosePass(o, broker, now, s, ids[..i]).state, Some(x))
            case Ok(t) => Progress(t, None)
  {
    assert ids[..i + 1] == ids[..i] + [ids[i]];
    PollOneMore(Step(o, broker, now), s, ids[..i], ids[i]);
  }

  lemma PassStops(o: Owner, broker: map<string, BrokerOrder>, now: Instant, s: Store, ids: seq<string>, i: nat)
    requires i <= |ids| && ClosePass(o, broker, now, s, ids[..i]).error.Some?
    ensures ClosePass(o, broker, now, s, ids) == ClosePass(o, broker, now, s, ids[..i])
  {
    assert ids == ids[..i] + ids[i..];
    PollErrSpreads(Step(o, broker, now), s, ids[..i], ids[i..]);
  }

  // ---------------------------------------------------------------- what a pass achieves

  lemma OneCloses(o: Owner, broker: map<string, BrokerOrder>, now: Instant, s: Store, id: string)
    requires CloseOne(o, broker, now, s, id).Ok?
    ensures var after := CloseOne(o, broker, now, s, id).value.view;
            && after == s.view.(books := s.view.books.(orders := after.books.orders))
            && forall x :: OrderOpen(after.books.orders, x) <==>
                           OrderOpen(s.view.books.orders, x) && !(x == id && Confirmed(broker, x))
  {
    var record := ClosedRecord(o, id, now);
    assert (s.view.books.orders + [record])[..|s.view.books.orders|] == s.view.books.orders;
  }

  /** Closed exactly: after a complete pass an order is open if and only if it
      was open before and the broker did not confirm it finished; nothing but
      the order records has changed. */
  lemma {:induction false} ClosesExactlyTheConfirmed(o: Owner, broker: map<string, BrokerOrder>, now: Instant,
                                                     s: Store, ids: seq<string>)
    requires ClosePass(o, broker, now, s, ids).error.None?
    ensures var after := ClosePass(o, broker, now, s, ids).state.view;
            && after == s.view.(books := s.view.books.(orders := after.books.orders))
            && forall x :: OrderOpen(after.books.orders, x) <==>
                           OrderOpen(s.view.books.orders, x) && !(x in ids && Confirmed(broker, x))
    ensures forall id :: id in ids && id in broker ==> broker[id].accountId == o.accountId
  {
    hide OrderOpen, Confirmed;
    if ids != [] {
      var front, last := ids[..|ids| - 1], ids[|ids| - 1];
      ClosesExactlyTheConfirmed(o, broker, now, s, front);
      OneCloses(o, broker, now, ClosePass(o, broker, now, s, front).state, last);
      assert ids == front + [last];
    }
  }

  lemma {:induction false} NothingToClose(o: Owner, broker: map<string, BrokerOrder>, now: Instant, s: Store,
                                          ids: seq<string>)
    requires forall id :: id in ids ==> !Confirmed(broker, id) && (id in broker ==> broker[id].accountId == o.accountId)
    ensures ClosePass(o, broker, now, s, ids) == Progress(s, None)
  {
    if ids != [] {
      assert ids[|ids| - 1] in ids;
      NothingToClose(o, broker, now, s, ids[..|ids| - 1]);
    }
  }

  /** A second pass, over what is open then, writes nothing. */
  lemma SecondPassWritesNothing(o: Owner, broker: map<string, BrokerOrder>, now: Instant, later: Instant, s: Store,
                                ids: seq<string>, again: seq<string>)
    requires OpenIds(s.view.books.orders, ids) && ClosePass(o, broker, now, s, ids).error.None?
    requires OpenIds(ClosePass(o, broker, now, s, ids).state.view.books.orders, again)
    ensures ClosePass(o, broker, later, ClosePass(o, broker, now, s, ids).state, again) ==
            Progress(ClosePass(o, broker, now, s, ids).state, None)
  {
    hide OrderOpen, Confirmed, ClosePass;
    ClosesExactlyTheConfirmed(o, broker, now, s, ids);
    NothingToClose(o, broker, later, ClosePass(o, broker, now, s, ids).state, again);
  }
}
