/** The approval request store as an object: its writes, its reads, and the
    cash the outstanding requests reserve. */
module ApprovalStores {
  import opened Wrappers
  import opened MarketCalendar
  import opened ApprovalTokens
  import opened ApprovalRequests

  // ---------------------------------------------------------------- what the reads mean

  predicate Awaiting(r: Request, now: Option<Instant>) {
    r.decision.None? && r.invalidated.None? && (now.Some? ==> now.value < r.expiresAt)
  }

  predicate Selects(m: Memory, id: string, accountId: Option<string>, now: Option<Instant>) {
    && id in m.current && Awaiting(m.current[id], now)
    && (accountId.Some? ==> id in m.accountOf && m.accountOf[id] == accountId.value)
  }

  /** The undecided, uninvalidated, unexpired requests, in insertion order. */
  function PendingOf(m: Memory, order: seq<string>, accountId: Option<string>, now: Option<Instant>): seq<Request> {
    if order == [] then []
    else
      var id := order[|order| - 1];
      var earlier := PendingOf(m, order[..|order| - 1], accountId, now);
      if Selects(m, id, accountId, now) then earlier + [m.current[id]] else earlier
  }

  function EarmarksOf(requests: seq<Request>): real {
    if requests == [] then 0.0 else EarmarksOf(requests[..|requests| - 1]) + requests[|requests| - 1].earmark
  }

  /** An approved request still holds its earmark while its token can be spent. */
  predicate HeldByToken(m: Memory, id: string, accountId: string, now: Instant, tokens: seq<Token>) {
    && id in m.current && id in m.accountOf && m.accountOf[id] == accountId
    && m.current[id].decision == Some(Approved)
    && TokenFor(tokens, id).Some?
    && var t := TokenFor(tokens, id).value;
       t.consumedAt.None? && t.sweptAt.None? && now < t.grant.expiresAt
  }

  function TokenEarmarks(m: Memory, order: seq<string>, accountId: string, now: Instant, tokens: seq<Token>): real {
    if order == [] then 0.0
    else
      var id := order[|order| - 1];
      TokenEarmarks(m, order[..|order| - 1], accountId, now, tokens)
      + if HeldByToken(m, id, accountId, now, tokens) then m.current[id].earmark else 0.0
  }

  /** One request's share of the reserved cash: its earmark, once, or nothing. */
  function Share(m: Memory, id: string, accountId: string, now: Instant, tokens: seq<Token>): real {
    if Selects(m, id, Some(accountId), Some(now)) || HeldByToken(m, id, accountId, now, tokens)
    then m.current[id].earmark else 0.0
  }

  function Reserved(m: Memory, order: seq<string>, accountId: string, now: Instant, tokens: seq<Token>): real {
    if order == [] then 0.0
    else
      Reserved(m, order[..|order| - 1], accountId, now, tokens) + Share(m, order[|order| - 1], accountId, now, tokens)
  }

  lemma EarmarksAppend(requests: seq<Request>, r: Request)
    ensures EarmarksOf(requests + [r]) == EarmarksOf(requests) + r.earmark
  {
    assert (requests + [r])[..|requests|] == requests;
  }

  lemma PendingNext(m: Memory, order: seq<string>, i: nat, accountId: Option<string>, now: Option<Instant>)
    requires i < |order|
    ensures PendingOf(m, order[..i + 1], accountId, now) ==
            if Selects(m, order[i], accountId, now)
            then PendingOf(m, order[..i], accountId, now) + [m.current[order[i]]]
            else PendingOf(m, order[..i], accountId, now)
  {
    assert order[..i + 1][..i] == order[..i];
  }

  lemma PendingOfNothing(m: Memory, accountId: Option<string>, now: Option<Instant>)
    ensures PendingOf(m, [], accountId, now) == []
  {
  }

  /** A request is never both awaited and approved. */
  lemma NeverBoth(m: Memory, id: string, accountId: string, now: Instant, tokens: seq<Token>)
    ensures !(Selects(m, id, Some(accountId), Some(now)) && HeldByToken(m, id, accountId, now, tokens))
  {
  }

  /** The two sums of outstanding_earmarks count every request at most once. */
  lemma {:induction false} EarmarksCountOnce(m: Memory, order: seq<string>, accountId: string, now: Instant,
                                             tokens: seq<Token>)
    ensures EarmarksOf(PendingOf(m, order, Some(accountId), Some(now)))
            + TokenEarmarks(m, order, accountId, now, tokens) ==
            Reserved(m, order, accountId, now, tokens)
  {
    if order != [] {
      var front, id := order[..|order| - 1], order[|order| - 1];
      EarmarksCountOnce(m, front, accountId, now, tokens);
      NeverBoth(m, id, accountId, now, tokens);
      PendingNext(m, order, |order| - 1, Some(accountId), Some(now));
      assert order[..|order|] == order;
      if Selects(m, id, Some(accountId), Some(now)) {
        EarmarksAppend(PendingOf(m, front, Some(accountId), Some(now)), m.current[id]);
      }
      hide PendingOf, EarmarksOf, HeldByToken, Selects;
    }
  }

  lemma CountIsRecount(sessionOf: Instant -> Date, m: Memory, day: Date)
    requires CountsAgree(sessionOf, m)
    ensures CountDates(m.decidedDates, day) == DecidedOn(sessionOf, m.current, m.order, day)
  {
  }

  // ---------------------------------------------------------------- the object

  /** A known request is filed under its own id and has an account. */
  lemma KnownRequest(sessionOf: Instant -> Date, s: Store)
    requires Sound(sessionOf, s)
    ensures forall id :: id in s.memory.current ==> id in s.memory.accountOf && s.memory.current[id].id == id
    ensures forall id :: id in s.memory.order ==> id in s.memory.current
  {
  }

  class ApprovalRequestStore {
    const sessionOf: Instant -> Date
    var order: seq<string>
    var current: map<string, Request>
    var accountOf: map<string, string>
    var decidedDates: seq<Date>
    var file: seq<Row>

    function State(): Store
      reads this
    {
      Store(Memory(order, current, accountOf, decidedDates), file)
    }

    ghost predicate Valid()
      reads this
    {
      Sound(sessionOf, State())
    }

    constructor (sessionOf: Instant -> Date)
      ensures Valid() && State() == NEW_STORE && this.sessionOf == sessionOf
    {
      this.sessionOf := sessionOf;
      order, current, accountOf, decidedDates, file := [], map[], map[], [], [];
    }

    method Create(accountId: string, id: string, draft: Draft, now: Instant, expiration: Duration)
      returns (r: Result<Request, RequestError>)
      requires Valid()
      modifies this
      ensures Valid()
      ensures match Wrote(sessionOf, old(State()), Write.Create(accountId, id, draft, now, expiration))
              case Ok(s) => State() == s && r == Ok(s.memory.current[id])
              case Err(e) => State() == old(State()) && r == Err(e)
    {
      ghost var before := State();
      hide Sound, Lawful, Milliseconds;
      KnownRequest(sessionOf, before);
      if id in current {
        return Err(AlreadyExists);
      }
      var req := Opened(id, draft, now, expiration);
      order, current, accountOf := order + [id], current[id := req], accountOf[id := accountId];
      file := file + [Row(Created, accountId, req)];
      WriteKeepsSound(sessionOf, before, Write.Create(accountId, id, draft, now, expiration));
      return Ok(req);
    }

    method Decide(id: string, decision: Decision, now: Instant, decidedBy: string)
      returns (r: Result<Request, RequestError>)
      requires Valid()
      modifies this
      ensures Valid()
      ensures match Wrote(sessionOf, old(State()), Write.Decide(id, decision, now, decidedBy))
              case Ok(s) => State() == s && r == Ok(s.memory.current[id])
              case Err(e) => State() == old(State()) && r == Err(e)
    {
      ghost var before := State();
      hide Sound, Lawful, Milliseconds;
      KnownRequest(sessionOf, before);
      if decision.OtherDecision? {
        return Err(UnknownDecision);
      }
      if id !in current {
        return Err(UnknownRequest);
      }
      var req := current[id];
      if req.decision.Some? {
        return Err(AlreadyDecided);
      }
      if req.invalidated.Some? {
        return Err(WasInvalidated);
      }
      var updated := req.(decision := Some(decision), decidedBy := Some(decidedBy), decidedAt := Some(now),
                          elapsedMs := Some(Milliseconds(now - req.shownAt)));
      current := current[id := updated];
      decidedDates := decidedDates + [sessionOf(now)];
      file := file + [Row(Decided, accountOf[id], updated)];
      WriteKeepsSound(sessionOf, before, Write.Decide(id, decision, now, decidedBy));
      return Ok(updated);
    }

    /** Refuses to overwrite: a second mint would be a second spendable token. */
    method RecordTokenMinted(id: string, snapshot: Token) returns (r: Result<Request, RequestError>)
      requires Valid()
      modifies this
      ensures Valid()
      ensures match Wrote(sessionOf, old(State()), RecordMinted(id, snapshot))
              case Ok(s) => State() == s && r == Ok(s.memory.current[id])
              case Err(e) => State() == old(State()) && r == Err(e)
    {
      ghost var before := State();
      hide Sound, Lawful, Milliseconds;
      KnownRequest(sessionOf, before);
      if id !in current {
        return Err(UnknownRequest);
      }
      var req := current[id];
      if req.decision != Some(Approved) {
        return Err(NotApproved);
      }
      if req.tokenSnapshot.Some? {
        return Err(AlreadyMinted);
      }
      var updated := req.(tokenSnapshot := Some(snapshot));
      current := current[id := updated];
      file := file + [Row(TokenMinted, accountOf[id], updated)];
      WriteKeepsSound(sessionOf, before, RecordMinted(id, snapshot));
      return Ok(updated);
    }

    /** Overwrites: it records what consume() has just done. */
    method RecordTokenConsumed(id: string, snapshot: Token) returns (r: Result<Request, RequestError>)
      requires Valid()
      modifies this
      ensures Valid()
      ensures match Wrote(sessionOf, old(State()), RecordConsumed(id, snapshot))
              case Ok(s) => State() == s && r == Ok(s.memory.current[id])
              case Err(e) => State() == old(State()) && r == Err(e)
    {
      ghost var before := State();
      hide Sound, Lawful, Milliseconds;
      KnownRequest(sessionOf, before);
      if id !in current {
        return Err(UnknownRequest);
      }
      var req := current[id];
      if req.tokenSnapshot.None? {
        return Err(NeverMinted);
      }
      var updated := req.(tokenSnapshot := Some(snapshot));
      current := current[id := updated];
      file := file + [Row(EventKind.TokenConsumed, accountOf[id], updated)];
      WriteKeepsSound(sessionOf, before, RecordConsumed(id, snapshot));
      return Ok(updated);
    }

    method Invalidate(id: string, reason: string) returns (r: Result<Request, RequestError>)
      requires Valid()
      modifies this
      ensures Valid()
      ensures match Wrote(sessionOf, old(State()), Write.Invalidate(id, reason))
              case Ok(s) => State() == s && r == Ok(s.memory.current[id])
              case Err(e) => State() == old(State()) && r == Err(e)
    {
      ghost var before := State();
      hide Sound, Lawful, Milliseconds;
      KnownRequest(sessionOf, before);
      if id !in current {
        return Err(UnknownRequest);
      }
      var req := current[id];
      if req.decision.Some? {
        return Err(AlreadyDecided);
      }
      if req.invalidated.Some? {
        return Ok(req);
      }
      var updated := req.(invalidated := Some(reason));
      current := current[id := updated];
      file := file + [Row(Invalidated, accountOf[id], updated)];
      WriteKeepsSound(sessionOf, before, Write.Invalidate(id, reason));
      return Ok(updated);
    }

    method Pending(accountId: Option<string>, now: Option<Instant>) returns (out: seq<Request>)
      requires Valid()
      ensures out == PendingOf(State().memory, order, accountId, now)
    {
      KnownRequest(sessionOf, State());
      hide Sound, PendingOf;
      PendingOfNothing(State().memory, accountId, now);
      out := [];
      for i := 0 to |order|
        invariant out == PendingOf(State().memory, order[..i], accountId, now)
      {
        var id := order[i];
        PendingNext(State().memory, order, i, accountId, now);
        assert id in order;
        var req := current[id];
        if req.decision.None? && req.invalidated.None? && (now.None? || now.value < req.expiresAt)
           && (accountId.None? || accountOf[id] == accountId.value) {
          out := out + [req];
        }
      }
      assert order[..|order|] == order;
    }

    /** The daily cap counts decisions; a recount of the requests agrees. */
    method CountDecidedOn(day: Date) returns (n: nat)
      requires Valid()
      ensures n == DecidedOn(sessionOf, current, order, day)
    {
      CountIsRecount(sessionOf, State().memory, day);
      hide Sound;
      n := 0;
      for i := 0 to |decidedDates|
        invariant n == CountDates(decidedDates[..i], day)
      {
        assert decidedDates[..i + 1][..i] == decidedDates[..i];
        if decidedDates[i] == day {
          n := n + 1;
        }
      }
      assert decidedDates[..|decidedDates|] == decidedDates;
    }

    method OutstandingEarmarks(accountId: string, now: Instant, service: ApprovalService?) returns (total: real)
      requires Valid()
      ensures service == null ==> total == EarmarksOf(PendingOf(State().memory, order, Some(accountId), Some(now)))
      ensures service != null ==> total == Reserved(State().memory, order, accountId, now, service.State())
    {
      hide Sound, PendingOf, Reserved, TokenEarmarks;
      var pending := Pending(Some(accountId), Some(now));
      total := 0.0;
      for i := 0 to |pending|
        invariant total == EarmarksOf(pending[..i])
      {
        assert pending[..i + 1][..i] == pending[..i];
        total := total + pending[i].earmark;
      }
      assert pending[..|pending|] == pending;
      if service != null {
        var more := HeldEarmarks(accountId, now, service);
        EarmarksCountOnce(State().memory, order, accountId, now, service.State());
        total := total + more;
      }
    }

    /** The earmarks that approved requests' live tokens still hold. */
    method HeldEarmarks(accountId: string, now: Instant, service: ApprovalService) returns (total: real)
      requires Valid()
      ensures total == TokenEarmarks(State().memory, order, accountId, now, service.State())
    {
      KnownRequest(sessionOf, State());
      hide Sound, TokenFor;
      total := 0.0;
      for i := 0 to |order|
        invariant total == TokenEarmarks(State().memory, order[..i], accountId, now, service.State())
      {
        var id := order[i];
        assert order[..i + 1][..i] == order[..i];
        assert id in order;
        if accountOf[id] == accountId && current[id].decision == Some(Approved) {
          var tok := service.TokenForRequest(id);
          if tok.Some? && tok.value.consumedAt.None? && tok.value.sweptAt.None? && now < tok.value.grant.expiresAt {
            total := total + current[id].earmark;
          }
        }
      }
      assert order[..|order|] == order;
    }
  }

  /** Construction over an existing file. */
  method Open(sessionOf: Instant -> Date, rows: seq<Row>) returns (store: ApprovalRequestStore)
    ensures fresh(store) && store.sessionOf == sessionOf && store.State() == Store(ReplayRows(sessionOf, rows), rows)
  {
    store := new ApprovalRequestStore(sessionOf);
    for i := 0 to |rows|
      invariant store.sessionOf == sessionOf && store.State().memory == ReplayRows(sessionOf, rows[..i])
    {
      assert rows[..i + 1] == rows[..i] + [rows[i]];
      ReplayOneMore(sessionOf, rows[..i], rows[i]);
      var row := rows[i];
      var id := row.request.id;
      if id !in store.current {
        store.order := store.order + [id];
      }
      store.current := store.current[id := row.request];
      if row.event.Created? || id !in store.accountOf {
        store.accountOf := store.accountOf[id := row.accountId];
      }
      if row.event.Decided? && row.request.decidedAt.Some? {
        store.decidedDates := store.decidedDates + [sessionOf(row.request.decidedAt.value)];
      }
    }
    assert rows[..|rows|] == rows;
    store.file := rows;
  }
}
