/** The durable store of one account's ledger: every write is validated by an
    internal ledger before its row reaches the file. */
module LedgerStores {
  import opened Wrappers
  import opened Money
  import opened MarketCalendar
  import opened LotSelection
  import opened Holding
  import opened LedgerBooks
  import opened AccountLedger
  import opened LedgerFile

  class LedgerStore {
    const owner: Owner
    const market: Market
    const selection: LotSelectionPolicy
    /** Validates and replays; its own opening balance is a placeholder. */
    const ledger: Ledger

    var opening: Option<Decimal>
    var openingAt: Option<Instant>
    var openingPositions: map<string, Decimal>
    var file: seq<Row>

    function State(): Store
      reads this, ledger
    {
      Store(View(opening, openingAt, openingPositions, ledger.Contents()), file)
    }

    ghost predicate Bound()
      reads this, ledger
    {
      && ledger.Valid()
      && ledger.owner == owner && ledger.market == market
      && ledger.opening == 0.0 && ledger.openingPositions == map[]
    }

    ghost predicate Valid()
      reads this, ledger
    {
      Bound() && Faithful(owner, State())
    }

    constructor (owner: Owner, market: Market, selection: LotSelectionPolicy)
      ensures Bound() && State() == NEW_STORE && fresh(ledger)
      ensures this.owner == owner && this.market == market && this.selection == selection
    {
      this.owner, this.market, this.selection := owner, market, selection;
      ledger := new Ledger(owner, market, selection, 0.0, map[]);
      opening, openingAt, openingPositions, file := None, None, map[], [];
    }

    method WriteFill(f: Fill) returns (r: Result<Unit, StoreError>)
      requires Valid()
      modifies this, ledger
      ensures Valid()
      ensures match EntryWritten(owner, old(State()), FillEntry(f))
              case Ok(s) => r == Ok(Unit.Unit) && State() == s
              case Err(e) => r == Err(e) && State() == old(State())
    {
      ghost var before := State();
      hide Faithful, FillVerdict;
      var alreadyKnown := exists g :: g in ledger.fills && g.fillId == f.fillId;
      KnownIsReplay(owner, ledger.fills, f);
      var w := ledger.RecordFill(f);
      if w.Err? {
        return Err(FromLedger(w.error));
      }
      if !alreadyKnown {
        file := file + [EntryRow(FillEntry(f))];
      }
      WriteKeepsFaithful(market, owner, before, EntryWrite(FillEntry(f)));
      return Ok(Unit.Unit);
    }

    method WriteOrderRecord(record: OrderRecord) returns (r: Result<Unit, StoreError>)
      requires Valid()
      modifies this, ledger
      ensures Valid()
      ensures match EntryWritten(owner, old(State()), OrderEntry(record))
              case Ok(s) => r == Ok(Unit.Unit) && State() == s
              case Err(e) => r == Err(e) && State() == old(State())
    {
      ghost var before := State();
      hide Faithful;
      var w := ledger.RecordOrderStatus(record);
      if w.Err? {
        return Err(FromLedger(w.error));
      }
      file := file + [EntryRow(OrderEntry(record))];
      WriteKeepsFaithful(market, owner, before, EntryWrite(OrderEntry(record)));
      return Ok(Unit.Unit);
    }

    method WriteCashAdjustment(a: CashAdjustment) returns (r: Result<Unit, StoreError>)
      requires Valid()
      modifies this, ledger
      ensures Valid()
      ensures match EntryWritten(owner, old(State()), AdjustmentEntry(a))
              case Ok(s) => r == Ok(Unit.Unit) && State() == s
              case Err(e) => r == Err(e) && State() == old(State())
    {
      ghost var before := State();
      hide Faithful, AdjustmentVerdict, Ledger.Valid;
      var alreadyKnown := exists b :: b in ledger.adjustments && b.adjustmentId == a.adjustmentId;
      AdjustmentKnownIsReplay(owner, ledger.adjustments, a, alreadyKnown);
      var w := ledger.RecordCashAdjustment(a);
      if w.Err? {
        return Err(FromLedger(w.error));
      }
      if !alreadyKnown {
        file := file + [EntryRow(AdjustmentEntry(a))];
      }
      WriteKeepsFaithful(market, owner, before, EntryWrite(AdjustmentEntry(a)));
      return Ok(Unit.Unit);
    }

    method WriteOpeningBalanceCorrection(c: OpeningBalanceCorrection) returns (r: Result<Unit, StoreError>)
      requires Valid()
      modifies this, ledger
      ensures Valid()
      ensures match EntryWritten(owner, old(State()), CorrectionEntry(c))
              case Ok(s) => r == Ok(Unit.Unit) && State() == s
              case Err(e) => r == Err(e) && State() == old(State())
    {
      ghost var before := State();
      hide Faithful, CorrectionVerdict, Ledger.Valid;
      var alreadyKnown := exists d :: d in ledger.corrections && d.correctionId == c.correctionId;
      CorrectionKnownIsReplay(owner, ledger.corrections, c, alreadyKnown);
      var w := ledger.RecordOpeningBalanceCorrection(c);
      if w.Err? {
        return Err(FromLedger(w.error));
      }
      if !alreadyKnown {
        file := file + [EntryRow(CorrectionEntry(c))];
      }
      WriteKeepsFaithful(market, owner, before, EntryWrite(CorrectionEntry(c)));
      return Ok(Unit.Unit);
    }

    method WriteOpeningBalance(amount: Decimal, at: Instant) returns (r: Result<Unit, StoreError>)
      requires Valid()
      modifies this
      ensures Valid()
      ensures match OpeningWritten(old(State()), amount, at)
              case Ok(s) => r == Ok(Unit.Unit) && State() == s
              case Err(e) => r == Err(e) && State() == old(State())
    {
      ghost var before := State();
      hide Faithful;
      if opening.None? && ledger.fills != [] {
        return Err(FillsBeforeOpening);
      }
      if opening.Some? {
        if opening.value == amount {
          return Ok(Unit.Unit);
        }
        return Err(OpeningAlreadySet);
      }
      file := file + [OpeningBalanceRow(amount, at)];
      opening := Some(amount);
      openingAt := Some(at);
      WriteKeepsFaithful(market, owner, before, OpeningWrite(amount, at));
      return Ok(Unit.Unit);
    }

    method SeedOpeningBalanceFromBroker(brokerCash: Decimal, now: Instant) returns (r: Result<Unit, StoreError>)
      requires Valid()
      modifies this
      ensures Valid()
      ensures match SeededFromBroker(market, old(State()), brokerCash, now)
              case Ok(s) => r == Ok(Unit.Unit) && State() == s
              case Err(e) => r == Err(e) && State() == old(State())
    {
      ghost var before := State();
      hide Faithful, SettledCashOf;
      var effect := ledger.SettledCash(now);
      if effect.None? {
        return Err(CalendarRaised);
      }
      var backdated := brokerCash - effect.value;
      if opening.Some? {
        if opening.value == backdated {
          return Ok(Unit.Unit);
        }
        return Err(OpeningAlreadySet);
      }
      file := file + [OpeningBalanceRow(backdated, now)];
      opening := Some(backdated);
      openingAt := Some(now);
      WriteKeepsFaithful(market, owner, before, SeedWrite(brokerCash, now));
      return Ok(Unit.Unit);
    }

    method WriteOpeningPositions(positions: seq<Position>) returns (r: Result<Unit, StoreError>)
      requires Valid()
      modifies this
      ensures Valid()
      ensures match PositionsWritten(market, owner, old(State()), positions)
              case Ok(s) => r == Ok(Unit.Unit) && State() == s
              case Err(e) => r == Err(e) && State() == old(State())
    {
      ghost var before := State();
      hide Faithful, LotsOf, PositionsOf, Conflicting;
      for i := 0 to |positions|
        invariant forall p :: p in positions[..i] ==> p.accountId == owner.accountId
      {
        if positions[i].accountId != owner.accountId {
          assert positions[i] in positions;
          return Err(CrossAccountPosition);
        }
      }
      assert positions[..|positions|] == positions;
      var newMap := Overlay(map[], positions);
      var derived := ledger.Positions();
      if derived.None? {
        return Err(CalendarRaised);
      }
      if Conflicting(derived.value, newMap) {
        return Err(PositionConflict);
      }
      if openingPositions != map[] {
        if openingPositions == newMap {
          return Ok(Unit.Unit);
        }
        return Err(PositionsAlreadySet);
      }
      ghost var start := file;
      for i := 0 to |positions|
        invariant file == start + PositionRows(positions[..i])
        invariant State() == before.(file := file)
      {
        assert positions[..i + 1][..i] == positions[..i];
        file := file + [OpeningPositionRow(positions[i].symbol, positions[i].qty)];
      }
      assert positions[..|positions|] == positions;
      openingPositions := newMap;
      WriteKeepsFaithful(market, owner, before, PositionsWrite(positions));
      return Ok(Unit.Unit);
    }

    method KnownCashAdjustmentIds() returns (ids: set<string>)
      ensures forall id :: id in ids <==> exists a :: a in ledger.adjustments && a.adjustmentId == id
    {
      ids := set a | a in ledger.adjustments :: a.adjustmentId;
    }

    /** The restart path: refuses a store that was never seeded, and a negative
        opening balance; otherwise nothing recorded is refused or lost. */
    method ToLedger() returns (r: Result<Ledger, StoreError>)
      requires Valid()
      ensures opening.None? ==> r == Err(NotSeeded)
      ensures opening.Some? && opening.value < 0.0 ==> r == Err(FromLedger(NegativeOpening))
      ensures opening.Some? && opening.value >= 0.0 ==>
                && r.Ok? && fresh(r.value) && r.value.Valid()
                && r.value.Contents() == ledger.Contents()
                && r.value.opening == opening.value && r.value.openingPositions == openingPositions
                && r.value.owner == owner && r.value.market == market && r.value.selection == selection
    {
      if opening.None? {
        return Err(NotSeeded);
      }
      ReplayRebuilds(owner, ledger.Contents());
      hide *;
      var l := FromRecords(owner, market, selection, opening.value, openingPositions, ledger.Contents());
      if l.Err? {
        return Err(FromLedger(l.error));
      }
      return Ok(l.value);
    }
  }

  lemma AdjustmentKnownIsReplay(o: Owner, adjustments: seq<CashAdjustment>, a: CashAdjustment, known: bool)
    requires known <==> exists b :: b in adjustments && b.adjustmentId == a.adjustmentId
    ensures AdjustmentVerdict(o, adjustments, a).Append? ==> !known
    ensures AdjustmentVerdict(o, adjustments, a).Replay? ==> known
  {
  }

  lemma CorrectionKnownIsReplay(o: Owner, corrections: seq<OpeningBalanceCorrection>, c: OpeningBalanceCorrection,
                                known: bool)
    requires known <==> exists d :: d in corrections && d.correctionId == c.correctionId
    ensures CorrectionVerdict(o, corrections, c).Append? ==> !known
    ensures CorrectionVerdict(o, corrections, c).Replay? ==> known
  {
  }

  lemma KnownIsReplay(o: Owner, fills: seq<Fill>, f: Fill)
    ensures FillVerdict(o, fills, f).Append? ==> !exists g :: g in fills && g.fillId == f.fillId
    ensures FillVerdict(o, fills, f).Replay? ==> exists g :: g in fills && g.fillId == f.fillId
  {
  }

  /** Construction over an existing file: replay it row by row through the
      validating ledger, or raise on the first row that does not go in. */
  method Open(owner: Owner, market: Market, selection: LotSelectionPolicy, rows: seq<Row>)
    returns (r: Result<LedgerStore, StoreError>)
    ensures match ReplayRows(owner, rows)
            case Err(e) => r == Err(e)
            case Ok(v) =>
              && r.Ok? && fresh(r.value) && fresh(r.value.ledger) && r.value.Bound()
              && r.value.State() == Store(v, rows)
              && r.value.owner == owner && r.value.market == market && r.value.selection == selection
  {
    var store := new LedgerStore(owner, market, selection);
    assert store.Bound() && ReplayRows(owner, rows[..0]) == Ok(store.State().view);
    hide ReplayRows, ReplayNext, ReplayRow;
    for i := 0 to |rows|
      invariant store.Bound() && ReplayRows(owner, rows[..i]) == Ok(store.State().view)
    {
      LoadNext(owner, rows, i);
      var e := LoadRow(store, rows[i]);
      if e.Err? {
        LoadStops(owner, rows, i + 1);
        return Err(e.error);
      }
    }
    assert rows[..|rows|] == rows;
    store.file := rows;
    return Ok(store);
  }

  lemma LoadNext(o: Owner, rows: seq<Row>, i: nat)
    requires i < |rows| && ReplayRows(o, rows[..i]).Ok?
    ensures ReplayRows(o, rows[..i + 1]) == ReplayRow(o, ReplayRows(o, rows[..i]).value, rows[i])
  {
    assert rows[..i + 1] == rows[..i] + [rows[i]];
    ReplayOneMore(o, rows[..i], rows[i]);
  }

  lemma LoadStops(o: Owner, rows: seq<Row>, i: nat)
    requires i <= |rows| && ReplayRows(o, rows[..i]).Err?
    ensures ReplayRows(o, rows) == ReplayRows(o, rows[..i])
  {
    ReplayErrSpreads(o, rows[..i], rows[i..]);
    assert rows == rows[..i] + rows[i..];
  }

  /** One step of the load: entries go through the ledger's own checks, the
      opening balance and positions are set straight from their rows. */
  method LoadRow(store: LedgerStore, row: Row) returns (r: Result<Unit, StoreError>)
    requires store.Bound()
    modifies store, store.ledger
    ensures store.Bound()
    ensures match ReplayRow(store.owner, old(store.State().view), row)
            case Ok(v) => r == Ok(Unit.Unit) && store.State().view == v
            case Err(e) => r == Err(e)
  {
    match row {
      case OpeningBalanceRow(amount, at) =>
        store.opening, store.openingAt := Some(amount), Some(at);
      case OpeningPositionRow(symbol, qty) =>
        store.openingPositions := store.openingPositions[symbol := qty];
      case UnknownRow(_) =>
        return Err(UnknownRowKind);
      case EntryRow(entry) =>
        var w: Result<Unit, LedgerError>;
        match entry {
          case FillEntry(f) => w := store.ledger.RecordFill(f);
          case OrderEntry(o) => w := store.ledger.RecordOrderStatus(o);
          case AdjustmentEntry(a) => w := store.ledger.RecordCashAdjustment(a);
          case CorrectionEntry(c) => w := store.ledger.RecordOpeningBalanceCorrection(c);
        }
        if w.Err? {
          return Err(FromLedger(w.error));
        }
    }
    return Ok(Unit.Unit);
  }
}
