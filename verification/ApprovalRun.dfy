/** One approval's life across crashes and restarts: requests decided, tokens
    minted, orders submitted, and the process dying anywhere in between. */
module ApprovalRun {
  import opened Wrappers
  import opened MarketCalendar
  import opened ApprovalTokens
  import opened ApprovalStores
  import opened ApprovalBridge
  import opened ApprovalExecution
  import Requests = ApprovalRequests

  /** The durable store, the tokens this process holds, and, for the record,
      which requests' orders have reached the broker. */
  datatype Office = Office(store: Requests.Store, tokens: seq<Token>, contacted: seq<string>)

  const OPENING := Office(Requests.NEW_STORE, [], [])

  /** Where a submission's process may die once the token is spent in memory. */
  datatype Death = Survives | DiesBeforeRecord | DiesBeforeContact

  datatype Event =
    | Wrote(write: Requests.Write)                   // create, decide or invalidate
    | Minted(id: string, o: Overrides, at: Instant)
    | Submitted(id: string, o: Overrides, at: Instant, c: Conditions, death: Death)
    | SweptAt(at: Instant)
    | Restarted

  datatype Firm = Firm(rules: Rules, verifies: Requests.StagedOrder -> bool)

  /** Tokens go through mint and submit only. */
  predicate Ordinary(e: Event) {
    e.Wrote? ==> !e.write.RecordMinted? && !e.write.RecordConsumed?
  }

  /** The service's own copy of a token, if it holds one, as it is now. */
  function Put(tokens: seq<Token>, t: Token): seq<Token> {
    seq(|tokens|, i requires 0 <= i < |tokens| => if tokens[i].grant.tokenId == t.grant.tokenId then t else tokens[i])
  }

  /** Mint, and hand the token just returned straight to execution. */
  function Submit(f: Firm, s: Office, id: string, o: Overrides, at: Instant, c: Conditions, death: Death): Office {
    match Mint(f.rules, s.store, s.tokens, id, o, at)
    case Err(_) => s
    case Ok(m) => Sent(f, s.(store := m.store, tokens := m.tokens), m.token, id, c, death)
  }

  function Sent(f: Firm, s: Office, t: Token, id: string, c: Conditions, death: Death): Office {
    match Execution(f.verifies, f.rules.sessionOf, s.store, t, id, c)
    case Existing => s
    case Stopped(_, t') => s.(tokens := Put(s.tokens, t'))
    case Contacted(_, t', after) =>
      match death
      case Survives => Office(after, Put(s.tokens, t'), s.contacted + [id])
      case DiesBeforeRecord => s.(tokens := [])
      case DiesBeforeContact => Office(after, [], s.contacted)
  }

  function After(f: Firm, s: Office, e: Event): Office {
    match e
    case Wrote(w) =>
      (match Requests.Wrote(f.rules.sessionOf, s.store, w) case Err(_) => s case Ok(store) => s.(store := store))
    case Minted(id, o, at) =>
      (match Mint(f.rules, s.store, s.tokens, id, o, at)
       case Err(_) => s
       case Ok(m) => s.(store := m.store, tokens := m.tokens))
    case Submitted(id, o, at, c, death) => Submit(f, s, id, o, at, c, death)
    case SweptAt(at) => s.(tokens := SweptAll(s.tokens, at))
    case Restarted =>
      s.(store := Requests.Store(Requests.ReplayRows(f.rules.sessionOf, s.store.file), s.store.file), tokens := [])
  }

  function Run(f: Firm, events: seq<Event>): Office {
    if events == [] then OPENING else After(f, Run(f, events[..|events| - 1]), events[|events| - 1])
  }

  // ---------------------------------------------------------------- the invariant

  lemma TokenIdsDiffer(a: string, b: string)
    requires TokenIdOf(a) == TokenIdOf(b)
    ensures a == b
  {
    assert TokenIdOf(a)[4..] == a && TokenIdOf(b)[4..] == b;
  }

  ghost predicate Named(t: Token, id: string) {
    t.grant.requestId == id && t.grant.tokenId == TokenIdOf(id)
  }

  /** Every held token is the durable one of its request, spent exactly if the
      durable one is; and no request has two. */
  ghost predicate TokensMirror(s: Office) {
    && (forall i :: 0 <= i < |s.tokens| ==> Mirrored(s, s.tokens[i]))
    && (forall i, j :: 0 <= i < j < |s.tokens| ==> s.tokens[i].grant.requestId != s.tokens[j].grant.requestId)
  }

  ghost predicate Mirrored(s: Office, t: Token) {
    var id := t.grant.requestId;
    && Named(t, id) && id in s.store.memory.current
    && s.store.memory.current[id].tokenSnapshot.Some?
    && var d := s.store.memory.current[id].tokenSnapshot.value;
       d.grant == t.grant && d.consumedAt == t.consumedAt
  }

  ghost predicate SnapshotsNamed(s: Office) {
    forall id :: id in s.store.memory.current && s.store.memory.current[id].tokenSnapshot.Some? ==>
      Named(s.store.memory.current[id].tokenSnapshot.value, id)
  }

  ghost predicate DurablySpent(s: Office, id: string) {
    && id in s.store.memory.current
    && s.store.memory.current[id].tokenSnapshot.Some?
    && s.store.memory.current[id].tokenSnapshot.value.consumedAt.Some?
  }

  /** Whatever reached the broker is durably spent, and nothing reached it twice. */
  ghost predicate ContactsSpent(s: Office) {
    && (forall id :: id in s.contacted ==> DurablySpent(s, id))
    && (forall i, j :: 0 <= i < j < |s.contacted| ==> s.contacted[i] != s.contacted[j])
  }

  ghost predicate Guarded(f: Firm, s: Office) {
    Requests.Sound(f.rules.sessionOf, s.store) && TokensMirror(s) && SnapshotsNamed(s) && ContactsSpent(s)
  }

  // ---------------------------------------------------------------- minting keeps it

  /** The minted token agrees with the durable record, wherever it came from. */
  lemma MintKeeps(f: Firm, s: Office, id: string, o: Overrides, at: Instant)
    requires Guarded(f, s) && Mint(f.rules, s.store, s.tokens, id, o, at).Ok?
    ensures var m := Mint(f.rules, s.store, s.tokens, id, o, at).value;
            var after := s.(store := m.store, tokens := m.tokens);
            && Guarded(f, after) && Mirrored(after, m.token) && m.token.grant.requestId == id
            && (m.token !in m.tokens ==> TokenFor(m.tokens, id).None?)
  {
    var m := Mint(f.rules, s.store, s.tokens, id, o, at).value;
    hide Requests.Sound, MintNew;
    if m.source.New? {
      NewMintKeeps(f, s, id, o, at);
    }
  }

  lemma NewMintKeeps(f: Firm, s: Office, id: string, o: Overrides, at: Instant)
    requires Guarded(f, s) && Mint(f.rules, s.store, s.tokens, id, o, at).Ok?
    requires Mint(f.rules, s.store, s.tokens, id, o, at).value.source.New?
    ensures var m := Mint(f.rules, s.store, s.tokens, id, o, at).value;
            var after := s.(store := m.store, tokens := m.tokens);
            Guarded(f, after) && Mirrored(after, m.token) && m.token.grant.requestId == id && m.token in m.tokens
  {
    hide Requests.Sound, TokensMirror, SnapshotsNamed, ContactsSpent, Mint, Requests.Wrote, Mirrored;
    var m := Mint(f.rules, s.store, s.tokens, id, o, at).value;
    MintIsRecorded(f.rules, s.store, s.tokens, id, o, at);
    Requests.WriteKeepsSound(f.rules.sessionOf, s.store, Requests.RecordMinted(id, m.token));
    NewHasNoToken(f, s, id, o, at);
    OneMoreToken(s, s.(store := m.store, tokens := m.tokens), m.token, id);
  }

  lemma OneMoreToken(s: Office, after: Office, t: Token, id: string)
    requires TokensMirror(s) && SnapshotsNamed(s) && ContactsSpent(s) && id in s.store.memory.current
    requires s.store.memory.current[id].tokenSnapshot.None? && Named(t, id)
    requires forall x :: x in s.tokens ==> x.grant.requestId != id
    requires after.contacted == s.contacted && after.tokens == s.tokens + [t]
    requires after.store.memory.current ==
             s.store.memory.current[id := s.store.memory.current[id].(tokenSnapshot := Some(t))]
    ensures TokensMirror(after) && SnapshotsNamed(after) && ContactsSpent(after)
    ensures Mirrored(after, t) && t in after.tokens
  {
    forall i | 0 <= i < |after.tokens| ensures Mirrored(after, after.tokens[i]) {
      if i < |s.tokens| {
        assert after.tokens[i] == s.tokens[i] && Mirrored(s, s.tokens[i]) && s.tokens[i] in s.tokens;
      }
    }
    assert after.tokens[|s.tokens|] == t;
    forall x | x in s.contacted ensures DurablySpent(after, x) {
      assert DurablySpent(s, x);
    }
  }

  lemma NewHasNoToken(f: Firm, s: Office, id: string, o: Overrides, at: Instant)
    requires Mint(f.rules, s.store, s.tokens, id, o, at).Ok?
    requires Mint(f.rules, s.store, s.tokens, id, o, at).value.source.New?
    ensures id in s.store.memory.current && s.store.memory.current[id].tokenSnapshot.None?
    ensures forall t :: t in s.tokens ==> t.grant.requestId != id
  {
    hide MintNew;
  }

  // ---------------------------------------------------------------- submission keeps it

  /** Recording a spent token under its request. */
  lemma RecordKeeps(f: Firm, s: Office, t: Token, id: string, c: Conditions)
    requires Guarded(f, s) && Mirrored(s, t) && t.grant.requestId == id
    requires Execution(f.verifies, f.rules.sessionOf, s.store, t, id, c).Contacted?
    ensures var done := Execution(f.verifies, f.rules.sessionOf, s.store, t, id, c);
            && Guarded(f, Office(done.store, [], s.contacted))
            && Guarded(f, Office(done.store, Put(s.tokens, done.token), s.contacted + [id]))
  {
    hide Requests.Sound, TokensMirror, SnapshotsNamed, ContactsSpent, Requests.Wrote, Mirrored, Preflight, Submission,
         Put;
    var done := Execution(f.verifies, f.rules.sessionOf, s.store, t, id, c);
    assert Requests.Wrote(f.rules.sessionOf, s.store, Requests.RecordConsumed(id, done.token)) == Ok(done.store);
    if id in s.store.memory.current {
      FiledUnderItsId(f.rules.sessionOf, s.store, id);
    }
    ContactMeansEveryGuardPassed(f.verifies, f.rules.sessionOf, s.store, t, id, c);
    Requests.WriteKeepsSound(f.rules.sessionOf, s.store, Requests.RecordConsumed(id, done.token));
    OneTokenSpent(s, done.store, t, done.token, id);
  }

  lemma OneTokenSpent(s: Office, store: Requests.Store, t: Token, t': Token, id: string)
    requires TokensMirror(s) && SnapshotsNamed(s) && ContactsSpent(s) && Mirrored(s, t) && t.grant.requestId == id
    requires t.consumedAt.None? && t'.consumedAt.Some? && t'.grant == t.grant
    requires store.memory.current ==
             s.store.memory.current[id := s.store.memory.current[id].(tokenSnapshot := Some(t'))]
    ensures var quiet := Office(store, [], s.contacted);
            TokensMirror(quiet) && SnapshotsNamed(quiet) && ContactsSpent(quiet)
    ensures var after := Office(store, Put(s.tokens, t'), s.contacted + [id]);
            TokensMirror(after) && SnapshotsNamed(after) && ContactsSpent(after)
  {
    var quiet, after := Office(store, [], s.contacted), Office(store, Put(s.tokens, t'), s.contacted + [id]);
    assert !DurablySpent(s, id);
    forall x | x in s.contacted ensures x != id && DurablySpent(quiet, x) && DurablySpent(after, x) {
      assert DurablySpent(s, x);
    }
    assert DurablySpent(after, id);
    forall i | 0 <= i < |s.tokens| ensures Mirrored(after, after.tokens[i]) {
      assert Mirrored(s, s.tokens[i]);
      if s.tokens[i].grant.tokenId == t.grant.tokenId {
        TokenIdsDiffer(s.tokens[i].grant.requestId, id);
      }
    }
    PutKeepsRequests(s, t');
  }

  lemma PutKeepsRequests(s: Office, t: Token)
    requires TokensMirror(s) && Named(t, t.grant.requestId)
    ensures forall i :: 0 <= i < |s.tokens| ==> Put(s.tokens, t)[i].grant.requestId == s.tokens[i].grant.requestId
  {
    forall i | 0 <= i < |s.tokens| ensures Put(s.tokens, t)[i].grant.requestId == s.tokens[i].grant.requestId {
      assert Mirrored(s, s.tokens[i]);
      if s.tokens[i].grant.tokenId == t.grant.tokenId {
        TokenIdsDiffer(s.tokens[i].grant.requestId, t.grant.requestId);
      }
    }
  }

  /** A refusal leaves the token as it was: the sink never refuses a minted one. */
  lemma StoppedChangesNothing(f: Firm, s: Office, t: Token, id: string, c: Conditions)
    requires Guarded(f, s) && Mirrored(s, t) && t.grant.requestId == id
    requires t in s.tokens || TokenFor(s.tokens, id).None?
    requires Execution(f.verifies, f.rules.sessionOf, s.store, t, id, c).Stopped?
    ensures Execution(f.verifies, f.rules.sessionOf, s.store, t, id, c).token == t
    ensures Put(s.tokens, t) == s.tokens
  {
    hide Requests.Sound, WithinBounds, Supported, ReconciliationIsFresh;
    forall i | 0 <= i < |s.tokens| ensures Put(s.tokens, t)[i] == s.tokens[i] {
      assert Mirrored(s, s.tokens[i]);
      if s.tokens[i].grant.tokenId == t.grant.tokenId {
        TokenIdsDiffer(s.tokens[i].grant.requestId, id);
        assert s.tokens[i] in s.tokens;
      }
    }
  }

  lemma SentKeeps(f: Firm, s: Office, t: Token, id: string, c: Conditions, death: Death)
    requires Guarded(f, s) && Mirrored(s, t) && t.grant.requestId == id
    requires t in s.tokens || TokenFor(s.tokens, id).None?
    ensures Guarded(f, Sent(f, s, t, id, c, death))
  {
    hide Execution, Requests.Sound, Put;
    var done := Execution(f.verifies, f.rules.sessionOf, s.store, t, id, c);
    if done.Contacted? {
      RecordKeeps(f, s, t, id, c);
      ForgetKeeps(f, s);
    } else if done.Stopped? {
      StoppedChangesNothing(f, s, t, id, c);
    }
  }

  /** Losing the process's memory is safe. */
  lemma ForgetKeeps(f: Firm, s: Office)
    requires Guarded(f, s)
    ensures Guarded(f, s.(tokens := []))
  {
    hide Requests.Sound;
    var after := s.(tokens := []);
    forall x | x in s.contacted ensures DurablySpent(after, x) {
      assert DurablySpent(s, x);
    }
  }

  // ---------------------------------------------------------------- the other events

  lemma WriteKeeps(f: Firm, s: Office, w: Requests.Write)
    requires Guarded(f, s) && !w.RecordMinted? && !w.RecordConsumed?
    requires Requests.Wrote(f.rules.sessionOf, s.store, w).Ok?
    ensures Guarded(f, s.(store := Requests.Wrote(f.rules.sessionOf, s.store, w).value))
  {
    hide Requests.Sound, TokensMirror, SnapshotsNamed, ContactsSpent, Requests.Wrote;
    Requests.WriteKeepsSound(f.rules.sessionOf, s.store, w);
    TokensUntouched(f.rules.sessionOf, s.store, w);
    SameSnapshots(s, s.(store := Requests.Wrote(f.rules.sessionOf, s.store, w).value));
  }

  lemma SameSnapshots(s: Office, after: Office)
    requires TokensMirror(s) && SnapshotsNamed(s) && ContactsSpent(s)
    requires after == s.(store := after.store)
    requires forall id :: id in s.store.memory.current ==>
               id in after.store.memory.current
               && after.store.memory.current[id].tokenSnapshot == s.store.memory.current[id].tokenSnapshot
    requires forall id :: id in after.store.memory.current && id !in s.store.memory.current ==>
               after.store.memory.current[id].tokenSnapshot.None?
    ensures TokensMirror(after) && SnapshotsNamed(after) && ContactsSpent(after)
  {
    forall i | 0 <= i < |s.tokens| ensures Mirrored(after, s.tokens[i]) {
      assert Mirrored(s, s.tokens[i]);
    }
    forall x | x in s.contacted ensures DurablySpent(after, x) {
      assert DurablySpent(s, x);
    }
  }

  lemma TokensUntouched(sessionOf: Instant -> Date, store: Requests.Store, w: Requests.Write)
    requires Requests.Sound(sessionOf, store) && !w.RecordMinted? && !w.RecordConsumed?
    requires Requests.Wrote(sessionOf, store, w).Ok?
    ensures var after := Requests.Wrote(sessionOf, store, w).value.memory.current;
            && (forall id :: id in store.memory.current ==>
                  id in after && after[id].tokenSnapshot == store.memory.current[id].tokenSnapshot)
            && (forall id :: id in after && id !in store.memory.current ==> after[id].tokenSnapshot.None?)
  {
    hide Requests.ReplayRows, Requests.CountsAgree, Requests.Lawful;
  }

  lemma SweepKeeps(f: Firm, s: Office, at: Instant)
    requires Guarded(f, s)
    ensures Guarded(f, s.(tokens := SweptAll(s.tokens, at)))
  {
    hide Requests.Sound;
    var after := s.(tokens := SweptAll(s.tokens, at));
    forall i | 0 <= i < |s.tokens| ensures Mirrored(after, after.tokens[i]) {
      assert Mirrored(s, s.tokens[i]);
    }
    forall x | x in s.contacted ensures DurablySpent(after, x) {
      assert DurablySpent(s, x);
    }
  }

  lemma FileIsMemory(f: Firm, s: Office)
    requires Guarded(f, s)
    ensures Requests.ReplayRows(f.rules.sessionOf, s.store.file) == s.store.memory
  {
  }

  lemma StepKeeps(f: Firm, s: Office, e: Event)
    requires Guarded(f, s) && Ordinary(e)
    ensures Guarded(f, After(f, s, e))
  {
    hide Requests.Sound, TokensMirror, SnapshotsNamed, ContactsSpent, Mint, Sent, Mirrored, Requests.Wrote,
         Requests.ReplayRows;
    FileIsMemory(f, s);
    match e
    case Wrote(w) =>
      if Requests.Wrote(f.rules.sessionOf, s.store, w).Ok? {
        WriteKeeps(f, s, w);
      }
    case Minted(id, o, at) =>
      if Mint(f.rules, s.store, s.tokens, id, o, at).Ok? {
        MintKeeps(f, s, id, o, at);
      }
    case Submitted(id, o, at, c, death) =>
      if Mint(f.rules, s.store, s.tokens, id, o, at).Ok? {
        var m := Mint(f.rules, s.store, s.tokens, id, o, at).value;
        MintKeeps(f, s, id, o, at);
        SentKeeps(f, s.(store := m.store, tokens := m.tokens), m.token, id, c, death);
      }
    case SweptAt(at) => SweepKeeps(f, s, at);
    case Restarted => ForgetKeeps(f, s);
  }

  lemma {:induction false} RunIsGuarded(f: Firm, events: seq<Event>)
    requires forall e :: e in events ==> Ordinary(e)
    ensures Guarded(f, Run(f, events))
  {
    hide Guarded, After;
    if events == [] {
      Requests.RunIsSound(f.rules.sessionOf, []);
      OpeningIsGuarded(f);
    } else {
      RunIsGuarded(f, events[..|events| - 1]);
      StepKeeps(f, Run(f, events[..|events| - 1]), events[|events| - 1]);
    }
  }

  lemma OpeningIsGuarded(f: Firm)
    ensures Guarded(f, OPENING)
  {
  }

  /** Single spend. Over any run of decisions, mints, submissions, sweeps,
      crashes inside a submission and restarts, the broker is contacted at most
      once per request, and whenever it has been contacted the file already
      says that the request's token is consumed. */
  lemma SingleSpend(f: Firm, events: seq<Event>)
    requires forall e :: e in events ==> Ordinary(e)
    ensures var s := Run(f, events);
            && (forall i, j :: 0 <= i < j < |s.contacted| ==> s.contacted[i] != s.contacted[j])
            && (forall id :: id in s.contacted ==>
                  var reloaded := Requests.ReplayRows(f.rules.sessionOf, s.store.file);
                  && id in reloaded.current
                  && reloaded.current[id].decision == Some(Requests.Approved)
                  && reloaded.current[id].tokenSnapshot.Some?
                  && reloaded.current[id].tokenSnapshot.value.consumedAt.Some?)
  {
    RunIsGuarded(f, events);
    var s := Run(f, events);
    hide Run, Requests.ReplayRows, TokensMirror, SnapshotsNamed, Requests.KeysAgree, Requests.CountsAgree;
    forall id | id in s.contacted
      ensures DurablySpent(s, id) && s.store.memory.current[id].decision == Some(Requests.Approved)
    {
      assert DurablySpent(s, id) && Requests.Lawful(s.store.memory.current[id]);
    }
  }

  /** Why each execution must use the token just minted: a copy taken before is
      not told of the spending, and under any conditions contacts the broker
      exactly if it would have without it; the spent token never does. */
  lemma StaleCopySpendsAgain(f: Firm, s: Office, t: Token, id: string, c: Conditions, later: Conditions)
    requires Guarded(f, s) && Execution(f.verifies, f.rules.sessionOf, s.store, t, id, c).Contacted?
    ensures var done := Execution(f.verifies, f.rules.sessionOf, s.store, t, id, c);
            && (Execution(f.verifies, f.rules.sessionOf, done.store, t, id, later).Contacted? <==>
                Execution(f.verifies, f.rules.sessionOf, s.store, t, id, later).Contacted?)
            && !Execution(f.verifies, f.rules.sessionOf, done.store, done.token, id, later).Contacted?
  {
    if id in s.store.memory.current {
      FiledUnderItsId(f.rules.sessionOf, s.store, id);
    }
    ContactMeansEveryGuardPassed(f.verifies, f.rules.sessionOf, s.store, t, id, c);
    var done := Execution(f.verifies, f.rules.sessionOf, s.store, t, id, c);
    CopyGoesOn(f, s.store, done.store, t, id, later);
    SpentNeverContacts(f, s.store, t, id, c, done.store, later);
    hide Guarded, Execution, WithinBounds, Supported, ReconciliationIsFresh, ModePermits, DisplayedLongEnough;
  }

  lemma CopyGoesOn(f: Firm, store: Requests.Store, after: Requests.Store, t: Token, id: string, later: Conditions)
    requires id in store.memory.current && store.memory.current[id].tokenSnapshot.Some?
    requires exists spent :: after.memory.current ==
               store.memory.current[id := store.memory.current[id].(tokenSnapshot := Some(spent))]
    ensures Execution(f.verifies, f.rules.sessionOf, after, t, id, later).Contacted? <==>
            Execution(f.verifies, f.rules.sessionOf, store, t, id, later).Contacted?
  {
    SamePreflight(f, store, after, t, id, later);
    hide Preflight, Submission;
  }

  lemma SpentNeverContacts(f: Firm, store: Requests.Store, t: Token, id: string, c: Conditions, any: Requests.Store,
                           later: Conditions)
    requires Execution(f.verifies, f.rules.sessionOf, store, t, id, c).Contacted?
    ensures var spent := Execution(f.verifies, f.rules.sessionOf, store, t, id, c).token;
            !Execution(f.verifies, f.rules.sessionOf, any, spent, id, later).Contacted?
  {
    var done := Execution(f.verifies, f.rules.sessionOf, store, t, id, c);
    hide Requests.Wrote, WithinBounds, Supported, ReconciliationIsFresh, ModePermits, DisplayedLongEnough;
    if later.quote.Some? {
      SpentIsRefused(t, c.quote.value, c, done.order, later.quote.value, later);
    }
    hide Submission;
  }

  /** No submission gets past a token that has been spent. */
  lemma SpentIsRefused(t: Token, price: real, c: Conditions, staged: Requests.StagedOrder, laterPrice: real,
                       later: Conditions)
    requires Submission(t, staged, price, c).Ok?
    ensures forall other :: Submission(Submission(t, staged, price, c).value, other, laterPrice, later).Err?
  {
    SpentOnce(t, t.grant.fingerprint, price, c.clock, t.grant.fingerprint, laterPrice, later.clock);
    hide WithinBounds, DisplayedLongEnough;
  }

  /** The checks before submission read nothing that recording a spending changes. */
  lemma SamePreflight(f: Firm, store: Requests.Store, after: Requests.Store, t: Token, id: string, c: Conditions)
    requires id in store.memory.current
    requires exists spent :: after.memory.current ==
               store.memory.current[id := store.memory.current[id].(tokenSnapshot := Some(spent))]
    ensures Preflight(f.verifies, after, t, id, c) == Preflight(f.verifies, store, t, id, c)
  {
    hide WithinBounds, Supported, ReconciliationIsFresh, ModePermits, QuoteUsable;
  }

  /** With a fresh service, two mints before any execution hand out two equal,
      unspent copies of the durable token. */
  lemma FreshServiceMintsTwoCopies(rules: Rules, store: Requests.Store, id: string, o: Overrides, o': Overrides,
                                   now: Instant, later: Instant)
    requires id in store.memory.current && store.memory.current[id].decision == Some(Requests.Approved)
    requires store.memory.current[id].invalidated.None? && store.memory.current[id].tokenSnapshot.Some?
    ensures Mint(rules, store, [], id, o, now) ==
            Ok(Minting(store.memory.current[id].tokenSnapshot.value, FromSnapshot, store, []))
    ensures Mint(rules, store, [], id, o, now) == Mint(rules, store, [], id, o', later)
  {
  }

  /** Why a process must mint and execute in one go after a restart: two mints
      before any execution hand out two copies, and once the first has reached
      the broker the second does exactly if it would have in its place. */
  lemma TwoMintsContactTwice(f: Firm, s: Office, id: string, o: Overrides, o': Overrides, at: Instant, laterAt: Instant,
                             c: Conditions, later: Conditions)
    requires Guarded(f, s) && s.tokens == []
    requires id in s.store.memory.current && s.store.memory.current[id].decision == Some(Requests.Approved)
    requires s.store.memory.current[id].invalidated.None? && s.store.memory.current[id].tokenSnapshot.Some?
    requires var first := Mint(f.rules, s.store, s.tokens, id, o, at);
             && first.Ok?
             && Execution(f.verifies, f.rules.sessionOf, first.value.store, first.value.token, id, c).Contacted?
    ensures var first := Mint(f.rules, s.store, s.tokens, id, o, at);
            var second := Mint(f.rules, s.store, s.tokens, id, o', laterAt);
            && first.Ok? && second.Ok?
            && var done := Execution(f.verifies, f.rules.sessionOf, first.value.store, first.value.token, id, c);
               (Execution(f.verifies, f.rules.sessionOf, done.store, second.value.token, id, later).Contacted? <==>
                Execution(f.verifies, f.rules.sessionOf, s.store, first.value.token, id, later).Contacted?)
  {
    FreshServiceMintsTwoCopies(f.rules, s.store, id, o, o', at, laterAt);
    hide Guarded, Mint, Execution;
    StaleCopySpendsAgain(f, s, s.store.memory.current[id].tokenSnapshot.value, id, c, later);
  }
}
