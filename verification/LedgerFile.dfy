/** The ledger's append-only file as a sequence of rows: what each write does
    to it, and what replaying it on load gives. */
module LedgerFile {
  import opened Wrappers
  import opened Money
  import opened MarketCalendar
  import opened LedgerBooks

  datatype Position = Position(accountId: string, symbol: string, qty: Decimal)

  datatype Row =
    | OpeningBalanceRow(amount: Decimal, at: Instant)
    | EntryRow(entry: Entry)
    | OpeningPositionRow(symbol: string, qty: Decimal)
    | UnknownRow(kind: string)

  datatype StoreError =
    | FromLedger(error: LedgerError)
    | FillsBeforeOpening
    | OpeningAlreadySet
    | CalendarRaised
    | CrossAccountPosition
    | PositionConflict
    | PositionsAlreadySet
    | UnknownRowKind
    | NotSeeded

  /** What a loaded store holds in memory. */
  datatype View = View(
    opening: Option<Decimal>,
    openingAt: Option<Instant>,
    openingPositions: map<string, Decimal>,
    books: Books
  )

  datatype Store = Store(view: View, file: seq<Row>)

  const NEW_VIEW := View(None, None, map[], EMPTY)
  const NEW_STORE := Store(NEW_VIEW, [])

  // ---------------------------------------------------------------- load

  function ReplayRow(o: Owner, v: View, row: Row): Result<View, StoreError> {
    match row
    case OpeningBalanceRow(amount, at) => Ok(v.(opening := Some(amount), openingAt := Some(at)))
    case EntryRow(entry) =>
      (match Recorded(o, v.books, entry)
       case Err(e) => Err(FromLedger(e))
       case Ok(books) => Ok(v.(books := books)))
    case OpeningPositionRow(symbol, qty) => Ok(v.(openingPositions := v.openingPositions[symbol := qty]))
    case UnknownRow(_) => Err(UnknownRowKind)
  }

  function ReplayRows(o: Owner, rows: seq<Row>): Result<View, StoreError> {
    if rows == [] then Ok(NEW_VIEW)
    else ReplayNext(o, ReplayRows(o, rows[..|rows| - 1]), rows[|rows| - 1])
  }

  function ReplayNext(o: Owner, before: Result<View, StoreError>, row: Row): Result<View, StoreError> {
    if before.Err? then before else ReplayRow(o, before.value, row)
  }

  lemma ReplayOneMore(o: Owner, rows: seq<Row>, row: Row)
    ensures ReplayRows(o, rows + [row]) == ReplayNext(o, ReplayRows(o, rows), row)
  {
    assert (rows + [row])[..|rows|] == rows;
  }

  lemma {:induction false} ReplayErrSpreads(o: Owner, rows: seq<Row>, more: seq<Row>)
    requires ReplayRows(o, rows).Err?
    ensures ReplayRows(o, rows + more) == ReplayRows(o, rows)
  {
    if more == [] {
      assert rows + more == rows;
    } else {
      ReplayErrSpreads(o, rows, more[..|more| - 1]);
      assert rows + more == (rows + more[..|more| - 1]) + [more[|more| - 1]];
      ReplayOneMore(o, rows + more[..|more| - 1], more[|more| - 1]);
    }
  }

  /** The narrow read of the first opening_balance row's instant. */
  function EstablishedAt(rows: seq<Row>): Option<Instant> {
    if rows == [] then None
    else if rows[0].OpeningBalanceRow? then Some(rows[0].at)
    else EstablishedAt(rows[1..])
  }

  // ---------------------------------------------------------------- writes

  function EntryWritten(o: Owner, s: Store, e: Entry): Result<Store, StoreError> {
    match VerdictOn(o, s.view.books, e)
    case Refuse(error) => Err(FromLedger(error))
    case Replay => Ok(s)
    case Append => Ok(Store(s.view.(books := Appended(s.view.books, e)), s.file + [EntryRow(e)]))
  }

  /** Seed once, before any fill; the same figure again is a no-op. */
  function OpeningWritten(s: Store, amount: Decimal, at: Instant): Result<Store, StoreError> {
    if s.view.opening.None? && s.view.books.fills != [] then Err(FillsBeforeOpening)
    else if s.view.opening.Some? then (if s.view.opening.value == amount then Ok(s) else Err(OpeningAlreadySet))
    else Ok(Store(s.view.(opening := Some(amount), openingAt := Some(at)), s.file + [OpeningBalanceRow(amount, at)]))
  }

  /** Seed from a broker read that already reflects the recorded fills. */
  function SeededFromBroker(m: Market, s: Store, brokerCash: Decimal, now: Instant): Result<Store, StoreError> {
    match SettledCashOf(m, 0.0, s.view.books, now)
    case None => Err(CalendarRaised)
    case Some(effect) =>
      var backdated := brokerCash - effect;
      if s.view.opening.Some? then (if s.view.opening.value == backdated then Ok(s) else Err(OpeningAlreadySet))
      else Ok(Store(s.view.(opening := Some(backdated), openingAt := Some(now)),
                    s.file + [OpeningBalanceRow(backdated, now)]))
  }

  /** A later position of the same symbol wins. */
  function Overlay(base: map<string, Decimal>, positions: seq<Position>): map<string, Decimal> {
    if positions == [] then base
    else
      var last := positions[|positions| - 1];
      Overlay(base, positions[..|positions| - 1])[last.symbol := last.qty]
  }

  function PositionRows(positions: seq<Position>): seq<Row> {
    if positions == [] then []
    else
      var last := positions[|positions| - 1];
      PositionRows(positions[..|positions| - 1]) + [OpeningPositionRow(last.symbol, last.qty)]
  }

  predicate Conflicting(derived: map<string, Decimal>, seeds: map<string, Decimal>) {
    exists symbol :: symbol in derived && derived[symbol] != 0.0 && symbol in seeds
  }

  function PositionsWritten(m: Market, o: Owner, s: Store, positions: seq<Position>): Result<Store, StoreError> {
    if exists p :: p in positions && p.accountId != o.accountId then Err(CrossAccountPosition)
    else match LotsOf(m, o, s.view.books.fills)
         case None => Err(CalendarRaised)
         case Some(lots) =>
           var seeds := Overlay(map[], positions);
           if Conflicting(PositionsOf(map[], lots, o.accountId), seeds) then Err(PositionConflict)
           else if s.view.openingPositions != map[] then
             (if s.view.openingPositions == seeds then Ok(s) else Err(PositionsAlreadySet))
           else Ok(Store(s.view.(openingPositions := seeds), s.file + PositionRows(positions)))
  }

  datatype Write =
    | EntryWrite(entry: Entry)
    | OpeningWrite(amount: Decimal, at: Instant)
    | SeedWrite(brokerCash: Decimal, now: Instant)
    | PositionsWrite(positions: seq<Position>)

  function Wrote(m: Market, o: Owner, s: Store, w: Write): Result<Store, StoreError> {
    match w
    case EntryWrite(e) => EntryWritten(o, s, e)
    case OpeningWrite(amount, at) => OpeningWritten(s, amount, at)
    case SeedWrite(cash, now) => SeededFromBroker(m, s, cash, now)
    case PositionsWrite(positions) => PositionsWritten(m, o, s, positions)
  }

  /** A store after a run of writes, the refused ones changing nothing. */
  function AfterWrites(m: Market, o: Owner, ws: seq<Write>): Store {
    if ws == [] then NEW_STORE
    else
      var before := AfterWrites(m, o, ws[..|ws| - 1]);
      match Wrote(m, o, before, ws[|ws| - 1])
      case Err(_) => before
      case Ok(after) => after
  }

  // ---------------------------------------------------------------- faithfulness

  /** Reloading the file gives the memory, and the narrow read agrees with it. */
  ghost predicate Faithful(o: Owner, s: Store) {
    && ReplayRows(o, s.file) == Ok(s.view)
    && BooksOk(o, s.view.books)
    && EstablishedAt(s.file) == s.view.openingAt
    && (s.view.opening.Some? <==> s.view.openingAt.Some?)
  }

  lemma {:induction false} EstablishedAtAppend(rows: seq<Row>, row: Row)
    ensures EstablishedAt(rows + [row]) ==
            if EstablishedAt(rows).Some? then EstablishedAt(rows)
            else if row.OpeningBalanceRow? then Some(row.at) else None
  {
    if rows != [] && !rows[0].OpeningBalanceRow? {
      EstablishedAtAppend(rows[1..], row);
      assert (rows + [row])[1..] == rows[1..] + [row];
    }
  }

  lemma AppendKeepsFaithful(o: Owner, s: Store, row: Row, v: View)
    requires Faithful(o, s) && ReplayRow(o, s.view, row) == Ok(v)
    requires row.OpeningBalanceRow? ==> s.view.opening.None?
    ensures Faithful(o, Store(v, s.file + [row]))
  {
    ReplayOneMore(o, s.file, row);
    EstablishedAtAppend(s.file, row);
    if row.EntryRow? {
      RecordingKeepsBooksOk(o, s.view.books, row.entry);
    }
  }

  lemma {:induction false} PositionRowsKeepFaithful(o: Owner, s: Store, positions: seq<Position>)
    requires Faithful(o, s)
    ensures Faithful(o, Store(s.view.(openingPositions := Overlay(s.view.openingPositions, positions)),
                              s.file + PositionRows(positions)))
  {
    if positions == [] {
      assert s.file + PositionRows(positions) == s.file;
    } else {
      var front, last := positions[..|positions| - 1], positions[|positions| - 1];
      var mid := Store(s.view.(openingPositions := Overlay(s.view.openingPositions, front)),
                       s.file + PositionRows(front));
      PositionRowsKeepFaithful(o, s, front);
      var row := OpeningPositionRow(last.symbol, last.qty);
      AppendKeepsFaithful(o, mid, row, s.view.(openingPositions := Overlay(s.view.openingPositions, positions)));
      assert mid.file + [row] == s.file + PositionRows(positions);
    }
  }

  lemma WriteKeepsFaithful(m: Market, o: Owner, s: Store, w: Write)
    requires Faithful(o, s) && Wrote(m, o, s, w).Ok?
    ensures Faithful(o, Wrote(m, o, s, w).value)
  {
    hide Faithful, ReplayRows, EstablishedAt, SettledCashOf, LotsOf, PositionsOf, VerdictOn, Conflicting;
    var after := Wrote(m, o, s, w).value;
    if after != s {
      match w
      case EntryWrite(e) => AppendKeepsFaithful(o, s, EntryRow(e), after.view);
      case OpeningWrite(amount, at) => AppendKeepsFaithful(o, s, OpeningBalanceRow(amount, at), after.view);
      case SeedWrite(cash, now) =>
        AppendKeepsFaithful(o, s, OpeningBalanceRow(after.view.opening.value, now), after.view);
      case PositionsWrite(positions) => PositionRowsKeepFaithful(o, s, positions);
    }
  }

  /** Log faithfulness: after any run of accepted and refused writes, loading
      the file is never refused and rebuilds exactly the state in memory. */
  lemma {:induction false} ReloadRebuilds(m: Market, o: Owner, ws: seq<Write>)
    ensures Faithful(o, AfterWrites(m, o, ws))
  {
    if ws != [] {
      var before := AfterWrites(m, o, ws[..|ws| - 1]);
      ReloadRebuilds(m, o, ws[..|ws| - 1]);
      if Wrote(m, o, before, ws[|ws| - 1]).Ok? {
        WriteKeepsFaithful(m, o, before, ws[|ws| - 1]);
      }
    }
  }

  /** The opening balance is fixed by the write that first sets it: no later
      write changes it, its instant, or takes a row back. */
  lemma SeedIsPermanent(m: Market, o: Owner, s: Store, w: Write)
    requires Wrote(m, o, s, w).Ok?
    ensures var after := Wrote(m, o, s, w).value;
            && s.file <= after.file
            && s.view.books.fills <= after.view.books.fills
            && (s.view.opening.Some? ==>
                  after.view.opening == s.view.opening && after.view.openingAt == s.view.openingAt)
  {
  }

  /** Over any run of accepted and refused writes: the opening balance, its
      instant and every row and fill on file stay as the first seed left them. */
  lemma {:induction false} OpeningIsForever(m: Market, o: Owner, ws: seq<Write>, n: nat)
    requires n <= |ws| && AfterWrites(m, o, ws[..n]).view.opening.Some?
    ensures var early, late := AfterWrites(m, o, ws[..n]), AfterWrites(m, o, ws);
            && late.view.opening == early.view.opening && late.view.openingAt == early.view.openingAt
            && early.file <= late.file && early.view.books.fills <= late.view.books.fills
            && EstablishedAt(late.file) == early.view.openingAt
    decreases |ws|
  {
    ReloadRebuilds(m, o, ws);
    hide Wrote;
    if n == |ws| {
      assert ws[..n] == ws;
    } else {
      var front := ws[..|ws| - 1];
      assert front[..n] == ws[..n];
      OpeningIsForever(m, o, front, n);
      if Wrote(m, o, AfterWrites(m, o, front), ws[|ws| - 1]).Ok? {
        SeedIsPermanent(m, o, AfterWrites(m, o, front), ws[|ws| - 1]);
      }
    }
  }
}
