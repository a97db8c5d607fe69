/** The durable store of approval requests: created once, decided at most once,
    every change of state an event row, and replay folding the rows back. */
module ApprovalRequests {
  import opened Wrappers
  import opened MarketCalendar
  import opened ApprovalTokens

  // ---------------------------------------------------------------- requests

  datatype Decision = Approved | Rejected | OtherDecision(text: string)

  /** The signed order as the gatekeeper staged it. */
  datatype StagedOrder = StagedOrder(
    clientOrderId: string,
    accountId: string,
    terms: OrderTerms,
    notional: real,
    signature: string
  )

  datatype Proposal = Proposal(terms: OrderTerms, legs: Option<nat>, staged: Option<StagedOrder>)

  datatype Request = Request(
    id: string,
    runId: string,
    proposal: Proposal,
    riskResult: string,
    priceAtAnalysis: real,
    bandLow: real,
    bandHigh: real,
    earmark: real,
    shownAt: Instant,
    expiresAt: Instant,
    decision: Option<Decision>,
    decidedBy: Option<string>,
    decidedAt: Option<Instant>,
    elapsedMs: Option<int>,
    invalidated: Option<string>,
    tokenSnapshot: Option<Token>
  )

  /** What a caller of create() supplies besides the ids. */
  datatype Draft = Draft(runId: string, proposal: Proposal, riskResult: string, priceAtAnalysis: real, bandLow: real,
                         bandHigh: real, earmark: real)

  datatype RequestError =
    | AlreadyExists
    | UnknownRequest
    | UnknownDecision
    | AlreadyDecided
    | WasInvalidated
    | NotApproved
    | AlreadyMinted
    | NeverMinted

  datatype EventKind = Created | Decided | TokenMinted | TokenConsumed | Invalidated

  datatype Row = Row(event: EventKind, accountId: string, request: Request)

  /** The in-memory dicts; `order` is the dicts' insertion order. */
  datatype Memory = Memory(
    order: seq<string>,
    current: map<string, Request>,
    accountOf: map<string, string>,
    decidedDates: seq<Date>
  )

  datatype Store = Store(memory: Memory, file: seq<Row>)

  const NEW_MEMORY := Memory([], map[], map[], [])
  const NEW_STORE := Store(NEW_MEMORY, [])

  function Opened(id: string, d: Draft, now: Instant, expiration: Duration): Request {
    Request(id, d.runId, d.proposal, d.riskResult, d.priceAtAnalysis, d.bandLow, d.bandHigh, d.earmark, now,
            now + expiration,
            None, None, None, None, None, None)
  }

  /** One row applied to the dicts; `sessionOf` dates an instant. */
  function ReplayRow(sessionOf: Instant -> Date, m: Memory, row: Row): Memory {
    var id := row.request.id;
    var dates := if row.event.Decided? && row.request.decidedAt.Some?
                 then m.decidedDates + [sessionOf(row.request.decidedAt.value)] else m.decidedDates;
    Memory(if id in m.current then m.order else m.order + [id],
           m.current[id := row.request],
           if row.event.Created? || id !in m.accountOf then m.accountOf[id := row.accountId] else m.accountOf,
           dates)
  }

  function ReplayRows(sessionOf: Instant -> Date, rows: seq<Row>): Memory {
    if rows == [] then NEW_MEMORY
    else ReplayRow(sessionOf, ReplayRows(sessionOf, rows[..|rows| - 1]), rows[|rows| - 1])
  }

  lemma ReplayOneMore(sessionOf: Instant -> Date, rows: seq<Row>, row: Row)
    ensures ReplayRows(sessionOf, rows + [row]) == ReplayRow(sessionOf, ReplayRows(sessionOf, rows), row)
  {
    assert (rows + [row])[..|rows|] == rows;
  }

  // ---------------------------------------------------------------- live writes

  datatype Write =
    | Create(accountId: string, id: string, draft: Draft, at: Instant, expiration: Duration)
    | Decide(id: string, decision: Decision, decidedAt: Instant, decidedBy: string)
    | RecordMinted(id: string, snapshot: Token)
    | RecordConsumed(id: string, snapshot: Token)
    | Invalidate(id: string, reason: string)

  /** The request a write leaves behind, or the refusal it meets. */
  function Updated(m: Memory, w: Write): Result<Request, RequestError> {
    match w
    case Create(_, id, draft, at, expiration) =>
      if id in m.current then Err(AlreadyExists) else Ok(Opened(id, draft, at, expiration))
    case Decide(id, decision, at, decider) =>
      if decision.OtherDecision? then Err(UnknownDecision)
      else if id !in m.current then Err(UnknownRequest)
      else if m.current[id].decision.Some? then Err(AlreadyDecided)
      else if m.current[id].invalidated.Some? then Err(WasInvalidated)
      else Ok(m.current[id].(decision := Some(decision), decidedBy := Some(decider), decidedAt := Some(at),
                             elapsedMs := Some(Milliseconds(at - m.current[id].shownAt))))
    case RecordMinted(id, snapshot) =>
      if id !in m.current then Err(UnknownRequest)
      else if m.current[id].decision != Some(Approved) then Err(NotApproved)
      else if m.current[id].tokenSnapshot.Some? then Err(AlreadyMinted)
      else Ok(m.current[id].(tokenSnapshot := Some(snapshot)))
    case RecordConsumed(id, snapshot) =>
      if id !in m.current then Err(UnknownRequest)
      else if m.current[id].tokenSnapshot.None? then Err(NeverMinted)
      else Ok(m.current[id].(tokenSnapshot := Some(snapshot)))
    case Invalidate(id, reason) =>
      if id !in m.current then Err(UnknownRequest)
      else if m.current[id].decision.Some? then Err(AlreadyDecided)
      else if m.current[id].invalidated.Some? then Ok(m.current[id])
      else Ok(m.current[id].(invalidated := Some(reason)))
  }

  function KindOf(w: Write): EventKind {
    match w
    case Create(_, _, _, _, _) => Created
    case Decide(_, _, _, _) => Decided
    case RecordMinted(_, _) => TokenMinted
    case RecordConsumed(_, _) => EventKind.TokenConsumed
    case Invalidate(_, _) => Invalidated
  }

  /** The dicts and the file after one accepted change. */
  function Written(sessionOf: Instant -> Date, s: Store, kind: EventKind, accountId: string, req: Request): Store {
    Store(Memory(if kind.Created? then s.memory.order + [req.id] else s.memory.order,
                 s.memory.current[req.id := req],
                 if kind.Created? then s.memory.accountOf[req.id := accountId] else s.memory.accountOf,
                 if kind.Decided? && req.decidedAt.Some? then s.memory.decidedDates + [sessionOf(req.decidedAt.value)]
                 else s.memory.decidedDates),
          s.file + [Row(kind, accountId, req)])
  }

  /** Everything but an unknown account is in the dicts whenever a request is. */
  function AccountFor(m: Memory, w: Write): string {
    if w.Create? then w.accountId else if w.id in m.accountOf then m.accountOf[w.id] else ""
  }

  function Wrote(sessionOf: Instant -> Date, s: Store, w: Write): Result<Store, RequestError> {
    match Updated(s.memory, w)
    case Err(e) => Err(e)
    case Ok(req) =>
      if w.Invalidate? && s.memory.current[w.id].invalidated.Some? then Ok(s)
      else Ok(Written(sessionOf, s, KindOf(w), AccountFor(s.memory, w), req))
  }

  function AfterWrites(sessionOf: Instant -> Date, ws: seq<Write>): Store {
    if ws == [] then NEW_STORE
    else
      var before := AfterWrites(sessionOf, ws[..|ws| - 1]);
      match Wrote(sessionOf, before, ws[|ws| - 1])
      case Err(_) => before
      case Ok(after) => after
  }

  // ---------------------------------------------------------------- the invariant

  /** The lifecycle of one request: never both decided and invalidated, a
      decision complete or absent, a token only on an approved one. */
  predicate Lawful(r: Request) {
    && !(r.decision.Some? && r.invalidated.Some?)
    && (r.decision.Some? <==> r.decidedAt.Some?)
    && (r.decision.Some? <==> r.elapsedMs.Some?)
    && (r.decision.Some? ==> !r.decision.value.OtherDecision?)
    && (r.tokenSnapshot.Some? ==> r.decision == Some(Approved))
  }

  function CountDates(dates: seq<Date>, day: Date): nat {
    if dates == [] then 0 else CountDates(dates[..|dates| - 1], day) + if dates[|dates| - 1] == day then 1 else 0
  }

  /** The recount: how many of the requests themselves say they were decided
      on this day. */
  function DecidedOn(sessionOf: Instant -> Date, current: map<string, Request>, order: seq<string>, day: Date): nat {
    if order == [] then 0
    else
      var id := order[|order| - 1];
      DecidedOn(sessionOf, current, order[..|order| - 1], day)
      + if id in current && current[id].decidedAt.Some? && sessionOf(current[id].decidedAt.value) == day then 1 else 0
  }

  ghost predicate KeysAgree(m: Memory) {
    && (forall id :: id in m.order <==> id in m.current)
    && (forall i, j :: 0 <= i < j < |m.order| ==> m.order[i] != m.order[j])
    && (forall id :: id in m.accountOf <==> id in m.current)
  }

  ghost predicate AllLawful(m: Memory) {
    forall id :: id in m.current ==> m.current[id].id == id && Lawful(m.current[id])
  }

  ghost predicate CountsAgree(sessionOf: Instant -> Date, m: Memory) {
    forall day :: CountDates(m.decidedDates, day) == DecidedOn(sessionOf, m.current, m.order, day)
  }

  ghost predicate Sound(sessionOf: Instant -> Date, s: Store) {
    && ReplayRows(sessionOf, s.file) == s.memory
    && KeysAgree(s.memory) && AllLawful(s.memory) && CountsAgree(sessionOf, s.memory)
  }

  lemma {:induction false} RecountElsewhere(sessionOf: Instant -> Date, a: map<string, Request>,
                                            b: map<string, Request>, order: seq<string>, day: Date)
    requires forall id :: id in order ==> id in a && id in b && a[id].decidedAt == b[id].decidedAt
    ensures DecidedOn(sessionOf, a, order, day) == DecidedOn(sessionOf, b, order, day)
  {
    if order != [] {
      RecountElsewhere(sessionOf, a, b, order[..|order| - 1], day);
      assert order[|order| - 1] in order;
    }
  }

  /** Deciding one request adds one to its own day and to no other. */
  lemma {:induction false} RecountOneMore(sessionOf: Instant -> Date, a: map<string, Request>, r: Request,
                                          order: seq<string>, day: Date)
    requires forall id :: id in order ==> id in a
    requires forall i, j :: 0 <= i < j < |order| ==> order[i] != order[j]
    requires r.id in order && a[r.id].decidedAt.None? && r.decidedAt.Some?
    ensures DecidedOn(sessionOf, a[r.id := r], order, day) ==
            DecidedOn(sessionOf, a, order, day) + if sessionOf(r.decidedAt.value) == day then 1 else 0
  {
    var front, last := order[..|order| - 1], order[|order| - 1];
    if last == r.id {
      assert r.id !in front;
      RecountElsewhere(sessionOf, a, a[r.id := r], front, day);
    } else {
      RecountOneMore(sessionOf, a, r, front, day);
    }
  }

  /** What an accepted write does to its own request. */
  lemma UpdateShape(m: Memory, w: Write)
    requires AllLawful(m) && Updated(m, w).Ok?
    ensures var r := Updated(m, w).value;
            && r.id == w.id && Lawful(r)
            && (w.Create? ==> w.id !in m.current && r.decidedAt.None?)
            && (!w.Create? ==> w.id in m.current)
            && (w.Decide? ==> m.current[w.id].decidedAt.None? && r.decidedAt.Some?)
            && (!w.Create? && !w.Decide? ==> r.decidedAt == m.current[w.id].decidedAt)
  {
  }

  lemma ReplayKept(sessionOf: Instant -> Date, s: Store, kind: EventKind, accountId: string, r: Request)
    requires ReplayRows(sessionOf, s.file) == s.memory && KeysAgree(s.memory)
    requires kind.Created? <==> r.id !in s.memory.current
    ensures var after := Written(sessionOf, s, kind, accountId, r);
            ReplayRows(sessionOf, after.file) == after.memory && KeysAgree(after.memory)
  {
    ReplayOneMore(sessionOf, s.file, Row(kind, accountId, r));
  }

  lemma CountKept(sessionOf: Instant -> Date, s: Store, w: Write, accountId: string, r: Request)
    requires KeysAgree(s.memory) && CountsAgree(sessionOf, s.memory) && r.id == w.id
    requires if w.Create? then r.id !in s.memory.current && r.decidedAt.None? else r.id in s.memory.current
    requires !w.Create? ==>
               if w.Decide? then s.memory.current[r.id].decidedAt.None? && r.decidedAt.Some?
               else r.decidedAt == s.memory.current[r.id].decidedAt
    ensures CountsAgree(sessionOf, Written(sessionOf, s, KindOf(w), accountId, r).memory)
  {
    var m, m' := s.memory, Written(sessionOf, s, KindOf(w), accountId, r).memory;
    hide DecidedOn, CountDates;
    forall day ensures CountDates(m'.decidedDates, day) == DecidedOn(sessionOf, m'.current, m'.order, day) {
      assert CountDates(m.decidedDates, day) == DecidedOn(sessionOf, m.current, m.order, day);
      if w.Create? {
        NewcomerIsUndecided(sessionOf, m, m', r, day);
      } else if w.Decide? {
        OneMoreDate(m.decidedDates, sessionOf(r.decidedAt.value), day);
        RecountOneMore(sessionOf, m.current, r, m.order, day);
      } else {
        RecountElsewhere(sessionOf, m.current, m'.current, m.order, day);
      }
    }
  }

  lemma OneMoreDate(dates: seq<Date>, date: Date, day: Date)
    ensures CountDates(dates + [date], day) == CountDates(dates, day) + if date == day then 1 else 0
  {
    assert (dates + [date])[..|dates|] == dates;
  }

  lemma NewcomerIsUndecided(sessionOf: Instant -> Date, m: Memory, m': Memory, r: Request, day: Date)
    requires KeysAgree(m) && r.id !in m.current && r.decidedAt.None?
    requires m'.order == m.order + [r.id] && m'.current == m.current[r.id := r]
    ensures DecidedOn(sessionOf, m'.current, m'.order, day) == DecidedOn(sessionOf, m.current, m.order, day)
  {
    assert m'.order[..|m'.order| - 1] == m.order;
    RecountElsewhere(sessionOf, m.current, m'.current, m.order, day);
  }

  lemma WriteKeepsSound(sessionOf: Instant -> Date, s: Store, w: Write)
    requires Sound(sessionOf, s) && Wrote(sessionOf, s, w).Ok?
    ensures Sound(sessionOf, Wrote(sessionOf, s, w).value)
  {
    hide KeysAgree, CountsAgree, Lawful, ReplayRows, Updated, Written;
    UpdateShape(s.memory, w);
    var after := Wrote(sessionOf, s, w).value;
    if after != s {
      var r := Updated(s.memory, w).value;
      ReplayKept(sessionOf, s, KindOf(w), AccountFor(s.memory, w), r);
      CountKept(sessionOf, s, w, AccountFor(s.memory, w), r);
      LawKept(sessionOf, s, KindOf(w), AccountFor(s.memory, w), r);
    }
  }

  lemma LawKept(sessionOf: Instant -> Date, s: Store, kind: EventKind, accountId: string, r: Request)
    requires AllLawful(s.memory) && Lawful(r)
    ensures AllLawful(Written(sessionOf, s, kind, accountId, r).memory)
  {
  }

  /** Store refinement: after any run of accepted and refused writes, loading
      the file gives back the dicts, every request is lawful, and the daily
      count is a recount of the requests' own decision instants. */
  lemma {:induction false} RunIsSound(sessionOf: Instant -> Date, ws: seq<Write>)
    ensures Sound(sessionOf, AfterWrites(sessionOf, ws))
  {
    if ws != [] {
      RunIsSound(sessionOf, ws[..|ws| - 1]);
      if Wrote(sessionOf, AfterWrites(sessionOf, ws[..|ws| - 1]), ws[|ws| - 1]).Ok? {
        WriteKeepsSound(sessionOf, AfterWrites(sessionOf, ws[..|ws| - 1]), ws[|ws| - 1]);
      }
    }
  }

  /** b is a later state of request a: what was proposed is unchanged, a
      decision and an invalidation are for good, a token is never taken back. */
  predicate Later(a: Request, b: Request) {
    && b.proposal == a.proposal && b.earmark == a.earmark && b.shownAt == a.shownAt && b.expiresAt == a.expiresAt
    && (a.decision.Some? ==>
          && b.decision == a.decision && b.decidedAt == a.decidedAt && b.decidedBy == a.decidedBy
          && b.elapsedMs == a.elapsedMs && b.invalidated.None?)
    && (a.invalidated.Some? ==> b.invalidated == a.invalidated && b.decision.None?)
    && (a.tokenSnapshot.Some? ==> b.tokenSnapshot.Some?)
  }

  lemma DecisionIsForever(sessionOf: Instant -> Date, s: Store, w: Write, id: string)
    requires Sound(sessionOf, s) && id in s.memory.current && Wrote(sessionOf, s, w).Ok?
    ensures var after := Wrote(sessionOf, s, w).value.memory;
            && id in after.current && id in after.accountOf && after.accountOf[id] == s.memory.accountOf[id]
            && Later(s.memory.current[id], after.current[id])
  {
    hide CountsAgree, ReplayRows;
    UpdateShape(s.memory, w);
    assert Lawful(s.memory.current[id]);
    if w.id == id {
      UpdateIsLater(s.memory, w);
    }
    hide AllLawful, Updated;
  }

  lemma UpdateIsLater(m: Memory, w: Write)
    requires AllLawful(m) && Updated(m, w).Ok? && w.id in m.current
    ensures Later(m.current[w.id], Updated(m, w).value)
  {
  }
}
