/** The quarantine discipline both stores follow: an item is put aside once, is
    decided at most once, ever, and the file alone gives the state back. The
    item kind is a parameter; so is the rule for which fields a decision on an
    item must carry. */
module Quarantine {
  import opened Wrappers
  import opened MarketCalendar

  datatype Decision = Admitted | Rejected | OtherDecision(text: string)

  datatype Resolution = Resolution(
    id: string,
    accountId: string,
    decision: Decision,
    decidedBy: string,
    decidedAt: Instant,
    lotId: Option<string>,
    policyVersion: Option<string>,
    notes: Option<string>
  )

  datatype Status = Pending | Decided(decision: Decision)

  datatype Row<Q> =
    | QuarantinedRow(id: string, item: Q)
    | ResolutionRow(resolution: Resolution)
    | UnknownRow(kind: string)

  datatype QuarantineError =
    | CrossAccount
    | NeverQuarantined
    | WrongFields
    | AlreadyResolved
    | UnknownDecision
    | UnknownRowKind

  datatype Rules<!Q> = Rules(accountId: string, accountOf: Q -> string, fits: (Q, Resolution) -> bool)

  /** The two dicts of a store. */
  datatype Memory<Q> = Memory(items: map<string, Q>, resolutions: map<string, Resolution>) {
    function StatusOf(id: string): Option<Status> {
      if id !in items then None
      else if id in resolutions then Some(Decided(resolutions[id].decision))
      else Some(Pending)
    }

    function PendingIds(): set<string> {
      items.Keys - resolutions.Keys
    }
  }

  datatype Store<Q> = Store(memory: Memory<Q>, file: seq<Row<Q>>)

  function Fresh<Q>(): Store<Q> {
    Store(Memory(map[], map[]), [])
  }

  // ---------------------------------------------------------------- live writes

  /** The first report of an item wins; a repeat is silent. */
  function PutAside<Q>(rules: Rules<Q>, s: Store<Q>, id: string, item: Q): Result<Store<Q>, QuarantineError> {
    if rules.accountOf(item) != rules.accountId then Err(CrossAccount)
    else if id in s.memory.items then Ok(s)
    else Ok(Store(s.memory.(items := s.memory.items[id := item]), s.file + [QuarantinedRow(id, item)]))
  }

  /** A decision is checked against its item and recorded once. */
  function Resolved<Q>(rules: Rules<Q>, s: Store<Q>, r: Resolution): Result<Store<Q>, QuarantineError> {
    if r.id !in s.memory.items then Err(NeverQuarantined)
    else if !rules.fits(s.memory.items[r.id], r) then Err(WrongFields)
    else if r.id in s.memory.resolutions then
      (if s.memory.resolutions[r.id] == r then Ok(s) else Err(AlreadyResolved))
    else Ok(Store(s.memory.(resolutions := s.memory.resolutions[r.id := r]), s.file + [ResolutionRow(r)]))
  }

  datatype Write<Q> = Put(id: string, item: Q) | Resolve(resolution: Resolution)

  function Wrote<Q>(rules: Rules<Q>, s: Store<Q>, w: Write<Q>): Result<Store<Q>, QuarantineError> {
    match w
    case Put(id, item) => PutAside(rules, s, id, item)
    case Resolve(r) => if r.decision.OtherDecision? then Err(UnknownDecision) else Resolved(rules, s, r)
  }

  function AfterWrites<Q>(rules: Rules<Q>, s: Store<Q>, ws: seq<Write<Q>>): Store<Q> {
    if ws == [] then s
    else
      var before := AfterWrites(rules, s, ws[..|ws| - 1]);
      match Wrote(rules, before, ws[|ws| - 1])
      case Err(_) => before
      case Ok(after) => after
  }

  // ---------------------------------------------------------------- load

  /** One row applied to the dicts only; nothing is ever written on load. */
  function ReplayRow<Q>(rules: Rules<Q>, m: Memory<Q>, row: Row<Q>): Result<Memory<Q>, QuarantineError> {
    match row
    case QuarantinedRow(id, item) =>
      if rules.accountOf(item) != rules.accountId then Err(CrossAccount)
      else if id in m.items then Ok(m)
      else Ok(Memory(m.items[id := item], m.resolutions))
    case ResolutionRow(r) =>
      if r.decision.OtherDecision? then Err(UnknownDecision)
      else if r.id !in m.items then Err(NeverQuarantined)
      else if !rules.fits(m.items[r.id], r) then Err(WrongFields)
      else if r.id in m.resolutions then (if m.resolutions[r.id] == r then Ok(m) else Err(AlreadyResolved))
      else Ok(Memory(m.items, m.resolutions[r.id := r]))
    case UnknownRow(_) => Err(UnknownRowKind)
  }

  function ReplayNext<Q>(rules: Rules<Q>, before: Result<Memory<Q>, QuarantineError>, row: Row<Q>)
    : Result<Memory<Q>, QuarantineError>
  {
    if before.Err? then before else ReplayRow(rules, before.value, row)
  }

  function ReplayRows<Q>(rules: Rules<Q>, rows: seq<Row<Q>>): Result<Memory<Q>, QuarantineError> {
    if rows == [] then Ok(Memory(map[], map[]))
    else ReplayNext(rules, ReplayRows(rules, rows[..|rows| - 1]), rows[|rows| - 1])
  }

  lemma ReplayOneMore<Q>(rules: Rules<Q>, rows: seq<Row<Q>>, row: Row<Q>)
    ensures ReplayRows(rules, rows + [row]) == ReplayNext(rules, ReplayRows(rules, rows), row)
  {
    assert (rows + [row])[..|rows|] == rows;
  }

  lemma {:induction false} ReplayErrSpreads<Q>(rules: Rules<Q>, rows: seq<Row<Q>>, more: seq<Row<Q>>)
    requires ReplayRows(rules, rows).Err?
    ensures ReplayRows(rules, rows + more) == ReplayRows(rules, rows)
  {
    if more == [] {
      assert rows + more == rows;
    } else {
      var front, last := more[..|more| - 1], more[|more| - 1];
      ReplayErrSpreads(rules, rows, front);
      assert rows + more == (rows + front) + [last];
      ReplayOneMore(rules, rows + front, last);
    }
  }

  // ---------------------------------------------------------------- faithfulness

  ghost predicate Faithful<Q>(rules: Rules<Q>, s: Store<Q>) {
    ReplayRows(rules, s.file) == Ok(s.memory)
  }

  lemma WriteKeepsFaithful<Q>(rules: Rules<Q>, s: Store<Q>, w: Write<Q>)
    requires Faithful(rules, s) && Wrote(rules, s, w).Ok?
    ensures Faithful(rules, Wrote(rules, s, w).value)
  {
    match w
    case Put(id, item) => ReplayOneMore(rules, s.file, QuarantinedRow(id, item));
    case Resolve(r) => ReplayOneMore(rules, s.file, ResolutionRow(r));
  }

  /** Log faithfulness: after any run of accepted and refused writes, loading
      the file is never refused and gives exactly the dicts in memory. */
  lemma {:induction false} ReloadRebuilds<Q>(rules: Rules<Q>, ws: seq<Write<Q>>)
    ensures Faithful(rules, AfterWrites(rules, Fresh(), ws))
  {
    if ws != [] {
      var before := AfterWrites(rules, Fresh(), ws[..|ws| - 1]);
      ReloadRebuilds(rules, ws[..|ws| - 1]);
      if Wrote(rules, before, ws[|ws| - 1]).Ok? {
        WriteKeepsFaithful(rules, before, ws[|ws| - 1]);
      }
    }
  }

  // ---------------------------------------------------------------- one decision, ever

  /** b holds everything a holds, item for item and decision for decision. */
  ghost predicate Extends<Q(!new)>(a: Memory<Q>, b: Memory<Q>) {
    && (forall id :: id in a.items ==> id in b.items && b.items[id] == a.items[id])
    && (forall id :: id in a.resolutions ==> id in b.resolutions && b.resolutions[id] == a.resolutions[id])
  }

  /** An item put aside is never replaced, and a decision is never withdrawn
      or changed, whatever is written afterwards. */
  lemma {:induction false} DecisionsAreForever<Q(!new)>(rules: Rules<Q>, s: Store<Q>, ws: seq<Write<Q>>)
    ensures Extends(s.memory, AfterWrites(rules, s, ws).memory)
  {
    if ws != [] {
      DecisionsAreForever(rules, s, ws[..|ws| - 1]);
    }
  }

  lemma RowExtends<Q(!new)>(rules: Rules<Q>, m: Memory<Q>, row: Row<Q>)
    requires ReplayRow(rules, m, row).Ok?
    ensures Extends(m, ReplayRow(rules, m, row).value)
  {
  }

  /** A row that has been replayed is without effect when it comes again. */
  ghost predicate Spent<Q>(rules: Rules<Q>, m: Memory<Q>, row: Row<Q>) {
    match row
    case QuarantinedRow(id, item) => rules.accountOf(item) == rules.accountId && id in m.items
    case ResolutionRow(r) =>
      && !r.decision.OtherDecision? && r.id in m.items && rules.fits(m.items[r.id], r)
      && r.id in m.resolutions && m.resolutions[r.id] == r
    case UnknownRow(_) => false
  }

  lemma {:induction false} RowsAreSpent<Q(!new)>(rules: Rules<Q>, rows: seq<Row<Q>>, row: Row<Q>)
    requires ReplayRows(rules, rows).Ok? && row in rows
    ensures Spent(rules, ReplayRows(rules, rows).value, row)
  {
    var front, last := rows[..|rows| - 1], rows[|rows| - 1];
    assert rows == front + [last];
    assert ReplayRows(rules, front).Ok?;
    RowExtends(rules, ReplayRows(rules, front).value, last);
    if row in front {
      RowsAreSpent(rules, front, row);
    }
  }

  /** Restated rows, in any number and order, change nothing on load: the
      duplicates an older version wrote on every load are harmless. */
  lemma {:induction false} RepeatsChangeNothing<Q(!new)>(rules: Rules<Q>, rows: seq<Row<Q>>, repeats: seq<Row<Q>>)
    requires ReplayRows(rules, rows).Ok?
    requires forall row :: row in repeats ==> row in rows
    ensures ReplayRows(rules, rows + repeats) == ReplayRows(rules, rows)
  {
    if repeats == [] {
      assert rows + repeats == rows;
    } else {
      var front, last := repeats[..|repeats| - 1], repeats[|repeats| - 1];
      assert repeats == front + [last];
      RepeatsChangeNothing(rules, rows, front);
      assert rows + repeats == (rows + front) + [last];
      ReplayOneMore(rules, rows + front, last);
      RowsAreSpent(rules, rows, last);
    }
  }

  /** A crash may cut the file anywhere after the last synced row. If every
      decision row survives, the shorter file still loads, and it holds every
      decision and no item the full file does not hold. */
  lemma {:induction false} CutKeepsDecisions<Q(!new)>(rules: Rules<Q>, rows: seq<Row<Q>>, k: nat)
    requires ReplayRows(rules, rows).Ok? && k <= |rows|
    requires forall i :: k <= i < |rows| ==> !rows[i].ResolutionRow?
    ensures ReplayRows(rules, rows[..k]).Ok?
    ensures Extends(ReplayRows(rules, rows[..k]).value, ReplayRows(rules, rows).value)
    ensures ReplayRows(rules, rows[..k]).value.resolutions == ReplayRows(rules, rows).value.resolutions
    decreases |rows|
  {
    if k == |rows| {
      assert rows[..k] == rows;
    } else {
      var front := rows[..|rows| - 1];
      assert ReplayRows(rules, front).Ok?;
      CutKeepsDecisions(rules, front, k);
      assert front[..k] == rows[..k];
    }
  }

  /** A decision is on file only for an item that is on file before it. */
  lemma {:induction false} DecisionsHaveItems<Q>(rules: Rules<Q>, rows: seq<Row<Q>>)
    requires ReplayRows(rules, rows).Ok?
    ensures ReplayRows(rules, rows).value.resolutions.Keys <= ReplayRows(rules, rows).value.items.Keys
  {
    if rows != [] {
      DecisionsHaveItems(rules, rows[..|rows| - 1]);
    }
  }

  lemma WaitingOrDecided<Q>(m: Memory<Q>)
    requires m.resolutions.Keys <= m.items.Keys
    ensures |m.PendingIds()| + |m.resolutions| == |m.items|
  {
    assert m.items.Keys == m.PendingIds() + m.resolutions.Keys;
    assert |m.items.Keys| == |m.items| && |m.resolutions.Keys| == |m.resolutions|;
  }

  lemma NoneWaits<Q>(m: Memory<Q>)
    ensures m.PendingIds() == {} <==> forall id :: id in m.items ==> exists d :: m.StatusOf(id) == Some(Decided(d))
  {
    if m.PendingIds() == {} {
      forall id | id in m.items ensures exists d :: m.StatusOf(id) == Some(Decided(d)) {
        assert id !in m.PendingIds();
        assert m.StatusOf(id) == Some(Decided(m.resolutions[id].decision));
      }
    } else {
      var id :| id in m.PendingIds();
      assert m.StatusOf(id) == Some(Pending);
    }
  }

  // ---------------------------------------------------------------- the store object

  lemma OneLess(ids: set<string>, decided: set<string>, rest: set<string>, id: string)
    requires id in rest && rest <= ids
    ensures (ids - (rest - {id})) - decided ==
            (if id in decided then (ids - rest) - decided else ((ids - rest) - decided) + {id})
    ensures id !in (ids - rest) - decided && rest - {id} <= ids
  {
  }

  /** How many of the ids are not among the decided ones. */
  method CountOutside(ids: set<string>, decided: set<string>) returns (n: nat)
    ensures n == |ids - decided|
  {
    n := 0;
    var rest := ids;
    assert ids - rest - decided == {};
    while rest != {}
      invariant rest <= ids && n == |(ids - rest) - decided|
      decreases |rest|
    {
      var id :| id in rest;
      OneLess(ids, decided, rest, id);
      rest := rest - {id};
      if id !in decided {
        n := n + 1;
      }
    }
    assert ids - {} == ids;
  }

  class QuarantineStore<!Q> {
    const rules: Rules<Q>
    var items: map<string, Q>
    var resolutions: map<string, Resolution>
    var file: seq<Row<Q>>

    function State(): Store<Q>
      reads this
    {
      Store(Memory(items, resolutions), file)
    }

    ghost predicate Valid()
      reads this
    {
      Faithful(rules, State())
    }

    constructor (rules: Rules<Q>)
      ensures Valid() && State() == Fresh() && this.rules == rules
    {
      this.rules := rules;
      items, resolutions, file := map[], map[], [];
    }

    method Put(id: string, item: Q) returns (r: Result<Q, QuarantineError>)
      requires Valid()
      modifies this
      ensures Valid()
      ensures match PutAside(rules, old(State()), id, item)
              case Ok(s) => r.Ok? && State() == s && id in items && r.value == items[id]
              case Err(e) => r == Err(e) && State() == old(State())
    {
      ghost var before := State();
      if rules.accountOf(item) != rules.accountId {
        return Err(CrossAccount);
      }
      if id in items {
        return Ok(items[id]);
      }
      file := file + [QuarantinedRow(id, item)];
      items := items[id := item];
      WriteKeepsFaithful(rules, before, Write.Put(id, item));
      return Ok(item);
    }

    method Resolve(resolution: Resolution) returns (r: Result<Resolution, QuarantineError>)
      requires Valid() && !resolution.decision.OtherDecision?
      modifies this
      ensures Valid()
      ensures match Resolved(rules, old(State()), resolution)
              case Ok(s) => r == Ok(resolution) && State() == s
              case Err(e) => r == Err(e) && State() == old(State())
    {
      ghost var before := State();
      if resolution.id !in items {
        return Err(NeverQuarantined);
      }
      if !rules.fits(items[resolution.id], resolution) {
        return Err(WrongFields);
      }
      if resolution.id in resolutions {
        if resolutions[resolution.id] == resolution {
          return Ok(resolution);
        }
        return Err(AlreadyResolved);
      }
      file := file + [ResolutionRow(resolution)];
      resolutions := resolutions[resolution.id := resolution];
      WriteKeepsFaithful(rules, before, Write.Resolve(resolution));
      return Ok(resolution);
    }

    /** The items still waiting: everything put aside is waiting or decided,
        never both, and none waits exactly when each has its decision. */
    method PendingCount() returns (n: nat)
      requires Valid()
      ensures n + |resolutions| == |items|
      ensures n == 0 <==> forall id :: id in items ==> exists d :: State().memory.StatusOf(id) == Some(Decided(d))
      ensures n == 0 <==> State().memory.PendingIds() == {}
    {
      DecisionsHaveItems(rules, file);
      n := CountOutside(items.Keys, resolutions.Keys);
      WaitingOrDecided(State().memory);
      NoneWaits(State().memory);
    }
  }

  /** Construction over an existing file: read-only replay, or the exception of
      the first row that does not fit. */
  method Open<Q>(rules: Rules<Q>, rows: seq<Row<Q>>) returns (r: Result<QuarantineStore<Q>, QuarantineError>)
    ensures match ReplayRows(rules, rows)
            case Err(e) => r == Err(e)
            case Ok(memory) =>
              r.Ok? && fresh(r.value) && r.value.State() == Store(memory, rows) && r.value.rules == rules
  {
    var store := new QuarantineStore(rules);
    for i := 0 to |rows|
      invariant store.rules == rules
      invariant ReplayRows(rules, rows[..i]) == Ok(store.State().memory)
    {
      assert rows[..i + 1] == rows[..i] + [rows[i]];
      ReplayOneMore(rules, rows[..i], rows[i]);
      var next := ReplayRow(rules, Memory(store.items, store.resolutions), rows[i]);
      if next.Err? {
        ReplayErrSpreads(rules, rows[..i + 1], rows[i + 1..]);
        assert rows == rows[..i + 1] + rows[i + 1..];
        return Err(next.error);
      }
      store.items, store.resolutions := next.value.items, next.value.resolutions;
    }
    assert rows[..|rows|] == rows;
    store.file := rows;
    return Ok(store);
  }
}
