/** Reserved cash across the handoff from a pending request to its token: one
    request, one share, released exactly when the order is spent or expires. */
module Earmarks {
  import opened Wrappers
  import opened MarketCalendar
  import opened ApprovalTokens
  import opened ApprovalStores
  import opened ApprovalBridge
  import opened ApprovalExecution
  import opened ApprovalRun
  import Requests = ApprovalRequests

  // ---------------------------------------------------------------- one share changes

  /** If no other request's share changes, the total changes by that one's. */
  lemma {:induction false} OneShareChanges(m: Requests.Memory, m': Requests.Memory, order: seq<string>, id: string,
                                           accountId: string, now: Instant, tokens: seq<Token>, tokens': seq<Token>)
    requires forall i, j :: 0 <= i < j < |order| ==> order[i] != order[j]
    requires forall x :: x in order && x != id ==>
               Share(m', x, accountId, now, tokens') == Share(m, x, accountId, now, tokens)
    ensures Reserved(m', order, accountId, now, tokens') ==
            Reserved(m, order, accountId, now, tokens)
            + if id in order then Share(m', id, accountId, now, tokens') - Share(m, id, accountId, now, tokens) else 0.0
  {
    hide Share;
    if order != [] {
      var front, last := order[..|order| - 1], order[|order| - 1];
      OneShareChanges(m, m', front, id, accountId, now, tokens, tokens');
      assert order == front + [last];
      assert last in order;
      if last == id {
        assert id !in front;
      }
    }
  }

  lemma {:induction false} TokenForAppend(tokens: seq<Token>, t: Token, id: string)
    ensures TokenFor(tokens + [t], id) ==
            if TokenFor(tokens, id).Some? then TokenFor(tokens, id)
            else if t.grant.requestId == id then Some(t) else None
  {
    if tokens != [] {
      TokenForAppend(tokens[1..], t, id);
      assert (tokens + [t])[1..] == tokens[1..] + [t];
    }
  }

  ghost predicate AllNamed(tokens: seq<Token>) {
    forall t :: t in tokens ==> Named(t, t.grant.requestId)
  }

  lemma {:induction false} TokenForPut(tokens: seq<Token>, t: Token, id: string)
    requires AllNamed(tokens) && Named(t, t.grant.requestId)
    ensures TokenFor(Put(tokens, t), id) ==
            if TokenFor(tokens, id).Some? && id == t.grant.requestId then Some(t) else TokenFor(tokens, id)
  {
    if tokens != [] {
      assert tokens[0] in tokens;
      forall x | x in tokens[1..] ensures x in tokens {
      }
      TokenForPut(tokens[1..], t, id);
      assert Put(tokens, t)[1..] == Put(tokens[1..], t);
      if tokens[0].grant.tokenId == t.grant.tokenId {
        TokenIdsDiffer(tokens[0].grant.requestId, t.grant.requestId);
      }
    }
  }

  lemma {:induction false} TokenForSwept(tokens: seq<Token>, at: Instant, id: string)
    ensures TokenFor(SweptAll(tokens, at), id) ==
            match TokenFor(tokens, id) case None => None case Some(t) => Some(Swept(t, at))
  {
    if tokens != [] {
      TokenForSwept(tokens[1..], at, id);
      assert SweptAll(tokens, at)[1..] == SweptAll(tokens[1..], at);
    }
  }

  // ---------------------------------------------------------------- the handoff

  /** What a request's earmark is to an account. */
  function Earmark(m: Requests.Memory, id: string, accountId: string): real
    requires id in m.current
  {
    if id in m.accountOf && m.accountOf[id] == accountId then m.current[id].earmark else 0.0
  }

  /** Deciding releases a pending request's earmark and minting takes it back,
      whatever lies between the decision, the mint and the instant at which the
      total is read: read before both the request and its token expire, the
      total after is the total before; later, the token alone holds the share. */
  lemma HandoffKeepsTheTotal(rules: Rules, s: Requests.Store, tokens: seq<Token>, id: string, o: Overrides,
                             accountId: string, decidedAt: Instant, mintedAt: Instant, at: Instant, decider: string)
    requires Requests.Sound(rules.sessionOf, s) && TokenFor(tokens, id).None?
    requires Requests.Wrote(rules.sessionOf, s, Requests.Decide(id, Requests.Approved, decidedAt, decider)).Ok?
    requires var decided := Requests.Wrote(rules.sessionOf, s,
                                           Requests.Decide(id, Requests.Approved, decidedAt, decider)).value;
             Mint(rules, decided, tokens, id, o, mintedAt).Ok?
    ensures var decided := Requests.Wrote(rules.sessionOf, s,
                                          Requests.Decide(id, Requests.Approved, decidedAt, decider)).value;
            var minted := Mint(rules, decided, tokens, id, o, mintedAt).value;
            var before := Reserved(s.memory, s.memory.order, accountId, at, tokens);
            var after := Reserved(minted.store.memory, s.memory.order, accountId, at, minted.tokens);
            && id in s.memory.current && minted.store.memory.order == s.memory.order
            && Reserved(decided.memory, s.memory.order, accountId, at, tokens) ==
               before - Share(s.memory, id, accountId, at, tokens)
            && after == before - Share(s.memory, id, accountId, at, tokens)
                        + (if at < mintedAt + rules.policy.expiration then Earmark(s.memory, id, accountId) else 0.0)
            && (at < s.memory.current[id].expiresAt && at < mintedAt + rules.policy.expiration ==> after == before)
  {
    hide Requests.Sound, Requests.Wrote, Mint, TokenFor, Selects, Share, Reserved;
    var decision := Requests.Decide(id, Requests.Approved, decidedAt, decider);
    var decided := Requests.Wrote(rules.sessionOf, s, decision).value;
    DecisionAlone(rules, s, id, decidedAt, decider);
    Requests.WriteKeepsSound(rules.sessionOf, s, decision);
    var minted := Mint(rules, decided, tokens, id, o, mintedAt).value;
    MintAlone(rules, decided, tokens, id, o, mintedAt);
    OrderIsDistinct(rules, s);
    HandoffShares(s.memory, decided.memory, minted.store.memory, tokens, minted.token, id, accountId, at);
    OneShareChanges(s.memory, decided.memory, s.memory.order, id, accountId, at, tokens, tokens);
    OneShareChanges(s.memory, minted.store.memory, s.memory.order, id, accountId, at, tokens, minted.tokens);
  }

  /** The request's share through the two steps, and everyone else's. */
  lemma HandoffShares(m: Requests.Memory, decided: Requests.Memory, minted: Requests.Memory, tokens: seq<Token>,
                      t: Token, id: string, accountId: string, at: Instant)
    requires id in m.current && m.current[id].decision.None? && m.current[id].invalidated.None?
    requires id in decided.current && id in minted.current
    requires decided.accountOf == m.accountOf && minted.accountOf == m.accountOf
    requires decided.current == m.current[id := decided.current[id]]
    requires minted.current == decided.current[id := minted.current[id]]
    requires decided.current[id].earmark == m.current[id].earmark && minted.current[id].earmark == m.current[id].earmark
    requires decided.current[id].decision == Some(Requests.Approved)
    requires minted.current[id].decision == Some(Requests.Approved)
    requires TokenFor(tokens, id).None? && t.grant.requestId == id
    requires t.consumedAt.None? && t.sweptAt.None?
    ensures forall x :: x != id ==> Share(decided, x, accountId, at, tokens) == Share(m, x, accountId, at, tokens)
    ensures forall x :: x != id ==> Share(minted, x, accountId, at, tokens + [t]) == Share(m, x, accountId, at, tokens)
    ensures Share(m, id, accountId, at, tokens) ==
            if at < m.current[id].expiresAt then Earmark(m, id, accountId) else 0.0
    ensures Share(decided, id, accountId, at, tokens) == 0.0
    ensures Share(minted, id, accountId, at, tokens + [t]) ==
            if at < t.grant.expiresAt then Earmark(m, id, accountId) else 0.0
  {
    hide TokenFor;
    forall x ensures TokenFor(tokens + [t], x) == if x == id then Some(t) else TokenFor(tokens, x) {
      TokenForAppend(tokens, t, x);
    }
  }

  lemma OrderIsDistinct(rules: Rules, s: Requests.Store)
    requires Requests.Sound(rules.sessionOf, s)
    ensures forall i, j :: 0 <= i < j < |s.memory.order| ==> s.memory.order[i] != s.memory.order[j]
    ensures forall id :: id in s.memory.order <==> id in s.memory.current
  {
  }

  lemma DecisionAlone(rules: Rules, s: Requests.Store, id: string, now: Instant, decider: string)
    requires Requests.Sound(rules.sessionOf, s)
    requires Requests.Wrote(rules.sessionOf, s, Requests.Decide(id, Requests.Approved, now, decider)).Ok?
    ensures var decision := Requests.Decide(id, Requests.Approved, now, decider);
            var m, m' := s.memory, Requests.Wrote(rules.sessionOf, s, decision).value.memory;
            && id in m.current && id in m'.current && m'.order == m.order && m'.accountOf == m.accountOf
            && m'.current == m.current[id := m'.current[id]]
            && m'.current[id].earmark == m.current[id].earmark && m'.current[id].decision == Some(Requests.Approved)
            && m.current[id].decision.None? && m.current[id].invalidated.None?
            && m'.current[id].invalidated.None? && m'.current[id].tokenSnapshot.None?
  {
    hide Requests.CountsAgree, Requests.ReplayRows;
    assert Requests.Lawful(s.memory.current[id]);
  }

  lemma MintAlone(rules: Rules, s: Requests.Store, tokens: seq<Token>, id: string, o: Overrides, now: Instant)
    requires Requests.Sound(rules.sessionOf, s) && Mint(rules, s, tokens, id, o, now).Ok?
    requires TokenFor(tokens, id).None? && s.memory.current[id].tokenSnapshot.None?
    ensures var minted := Mint(rules, s, tokens, id, o, now).value;
            && minted.tokens == tokens + [minted.token]
            && minted.token.consumedAt.None? && minted.token.sweptAt.None?
            && minted.token.grant.requestId == id
            && minted.token.grant.expiresAt == now + rules.policy.expiration
            && minted.store.memory.order == s.memory.order && minted.store.memory.accountOf == s.memory.accountOf
            && minted.store.memory.current ==
               s.memory.current[id := s.memory.current[id].(tokenSnapshot := Some(minted.token))]
  {
    MintIsRecorded(rules, s, tokens, id, o, now);
    hide Requests.Sound, MintNew;
  }

  // ---------------------------------------------------------------- the release

  /** An order that reaches the broker with the service's own token releases
      exactly its own request's earmark: at any instant the total falls by that
      request's share and by no other. */
  lemma SpendingReleases(f: Firm, s: Office, id: string, c: Conditions, accountId: string, at: Instant)
    requires Guarded(f, s) && TokenFor(s.tokens, id).Some?
    requires Execution(f.verifies, f.rules.sessionOf, s.store, TokenFor(s.tokens, id).value, id, c).Contacted?
    ensures var m, after := s.store.memory, Sent(f, s, TokenFor(s.tokens, id).value, id, c, Survives);
            && after.contacted == s.contacted + [id]
            && after.store.memory.order == m.order
            && Share(after.store.memory, id, accountId, at, after.tokens) == 0.0
            && Reserved(after.store.memory, m.order, accountId, at, after.tokens) ==
               Reserved(m, m.order, accountId, at, s.tokens) - Share(m, id, accountId, at, s.tokens)
  {
    GuardedTokens(f, s);
    hide Guarded, Requests.Sound, Requests.Wrote, Execution, Reserved, Share, AllNamed, Put, TokenFor;
    var t, m := TokenFor(s.tokens, id).value, s.store.memory;
    var done := Execution(f.verifies, f.rules.sessionOf, s.store, t, id, c);
    ContactSpends(f, s.store, t, id, c);
    SpendingIsRecorded(f.rules.sessionOf, s.store, id, done.token, done.store);
    OrderIsDistinct(f.rules, s.store);
    HeldIsNamed(s.tokens, id);
    SpentShares(m, done.store.memory, s.tokens, done.token, id, accountId, at);
    OneShareChanges(m, done.store.memory, m.order, id, accountId, at, s.tokens, Put(s.tokens, done.token));
  }

  lemma GuardedTokens(f: Firm, s: Office)
    requires Guarded(f, s)
    ensures Requests.Sound(f.rules.sessionOf, s.store) && AllNamed(s.tokens)
  {
    hide Requests.Sound;
    forall t | t in s.tokens ensures Named(t, t.grant.requestId) {
      var i :| 0 <= i < |s.tokens| && s.tokens[i] == t;
      assert Mirrored(s, s.tokens[i]);
    }
  }

  lemma ContactSpends(f: Firm, s: Requests.Store, t: Token, id: string, c: Conditions)
    requires Requests.Sound(f.rules.sessionOf, s)
    requires Execution(f.verifies, f.rules.sessionOf, s, t, id, c).Contacted?
    ensures var done := Execution(f.verifies, f.rules.sessionOf, s, t, id, c);
            && Requests.Wrote(f.rules.sessionOf, s, Requests.RecordConsumed(id, done.token)) == Ok(done.store)
            && done.token.grant == t.grant && done.token.consumedAt.Some?
            && id in s.memory.current && s.memory.current[id].decision == Some(Requests.Approved)
  {
    hide Requests.Sound, Requests.Wrote, WithinBounds, Supported, ReconciliationIsFresh, ModePermits,
         DisplayedLongEnough;
  }

  lemma SpendingIsRecorded(sessionOf: Instant -> Date, s: Requests.Store, id: string, spent: Token,
                           after: Requests.Store)
    requires Requests.Sound(sessionOf, s)
    requires Requests.Wrote(sessionOf, s, Requests.RecordConsumed(id, spent)) == Ok(after)
    ensures id in s.memory.current && after.memory.order == s.memory.order
    ensures after.memory.accountOf == s.memory.accountOf
    ensures after.memory.current == s.memory.current[id := s.memory.current[id].(tokenSnapshot := Some(spent))]
  {
    hide Requests.ReplayRows, Requests.CountsAgree, Requests.Lawful;
  }

  lemma HeldIsNamed(tokens: seq<Token>, id: string)
    requires AllNamed(tokens) && TokenFor(tokens, id).Some?
    ensures Named(TokenFor(tokens, id).value, id)
  {
  }

  lemma SpentShares(m: Requests.Memory, m': Requests.Memory, tokens: seq<Token>, spent: Token, id: string,
                    accountId: string, at: Instant)
    requires AllNamed(tokens) && Named(spent, id) && spent.consumedAt.Some? && TokenFor(tokens, id).Some?
    requires id in m.current && m.current[id].decision == Some(Requests.Approved) && m'.accountOf == m.accountOf
    requires m'.current == m.current[id := m.current[id].(tokenSnapshot := Some(spent))]
    ensures Share(m', id, accountId, at, Put(tokens, spent)) == 0.0
    ensures forall x :: x != id ==>
              Share(m', x, accountId, at, Put(tokens, spent)) == Share(m, x, accountId, at, tokens)
  {
    forall x ensures TokenFor(Put(tokens, spent), x) == if x == id then Some(spent) else TokenFor(tokens, x) {
      TokenForPut(tokens, spent, x);
    }
    hide TokenFor, AllNamed, Put;
  }

  /** The startup sweep retires what holds nothing any more: from then on the
      total is the same with or without it. */
  lemma SweepingReleasesNothingElse(m: Requests.Memory, tokens: seq<Token>, accountId: string, sweptAt: Instant,
                                    at: Instant)
    requires sweptAt <= at
    ensures Reserved(m, m.order, accountId, at, SweptAll(tokens, sweptAt)) ==
            Reserved(m, m.order, accountId, at, tokens)
  {
    forall id ensures Share(m, id, accountId, at, SweptAll(tokens, sweptAt)) == Share(m, id, accountId, at, tokens) {
      TokenForSwept(tokens, sweptAt, id);
    }
    hide Share;
    SameShares(m, m.order, accountId, at, tokens, SweptAll(tokens, sweptAt));
  }

  lemma {:induction false} SameShares(m: Requests.Memory, order: seq<string>, accountId: string, at: Instant,
                                      tokens: seq<Token>, tokens': seq<Token>)
    requires forall id :: Share(m, id, accountId, at, tokens') == Share(m, id, accountId, at, tokens)
    ensures Reserved(m, order, accountId, at, tokens') == Reserved(m, order, accountId, at, tokens)
  {
    hide Share;
    if order != [] {
      SameShares(m, order[..|order| - 1], accountId, at, tokens, tokens');
    }
  }

  /** Time alone releases a share exactly at the expiry of what holds it: the
      request while it awaits a decision, its token afterwards. */
  lemma ExpiryReleases(m: Requests.Memory, id: string, accountId: string, now: Instant, later: Instant,
                       tokens: seq<Token>)
    requires now <= later
    ensures Share(m, id, accountId, later, tokens) ==
            if (Selects(m, id, Some(accountId), Some(now)) && later >= m.current[id].expiresAt)
               || (HeldByToken(m, id, accountId, now, tokens) && later >= TokenFor(tokens, id).value.grant.expiresAt)
            then 0.0 else Share(m, id, accountId, now, tokens)
  {
    hide TokenFor;
  }

  // ---------------------------------------------------------------- a restart

  /** Nothing but the awaited requests is counted when no token is held. */
  lemma {:induction false} WithoutTokens(m: Requests.Memory, order: seq<string>, accountId: string, at: Instant)
    ensures Reserved(m, order, accountId, at, []) == EarmarksOf(PendingOf(m, order, Some(accountId), Some(at)))
  {
    if order != [] {
      var front, id := order[..|order| - 1], order[|order| - 1];
      WithoutTokens(m, front, accountId, at);
      if Selects(m, id, Some(accountId), Some(at)) {
        EarmarksAppend(PendingOf(m, front, Some(accountId), Some(at)), m.current[id]);
      }
      assert TokenFor([], id).None?;
      hide PendingOf, EarmarksOf;
    }
  }

  /** The earmark of an approved order does not survive a restart, the token
      does: the total drops to the awaited requests' alone, while a mint hands
      out the durable token, unspent and unexpired as before. */
  lemma RestartFreesUnspentTokens(f: Firm, s: Office, id: string, accountId: string, at: Instant, o: Overrides)
    requires Guarded(f, s) && HeldByToken(s.store.memory, id, accountId, at, s.tokens)
    ensures var m, after := s.store.memory, After(f, s, Restarted);
            && after.store == s.store
            && Share(m, id, accountId, at, s.tokens) == m.current[id].earmark
            && Share(m, id, accountId, at, after.tokens) == 0.0
            && Reserved(m, m.order, accountId, at, after.tokens) ==
               EarmarksOf(PendingOf(m, m.order, Some(accountId), Some(at)))
            && var minted := Mint(f.rules, after.store, after.tokens, id, o, at);
               minted.Ok? && minted.value.token.grant == TokenFor(s.tokens, id).value.grant
               && minted.value.token.consumedAt.None? && at < minted.value.token.grant.expiresAt
  {
    RestartForgetsTokens(f, s);
    HeldShare(s.store.memory, id, accountId, at, s.tokens);
    hide Guarded, Mint, After, Share, Reserved, PendingOf, EarmarksOf, TokenFor;
    WithoutTokens(s.store.memory, s.store.memory.order, accountId, at);
    MintAgain(f, s, id, o, at);
  }

  lemma RestartForgetsTokens(f: Firm, s: Office)
    requires Guarded(f, s)
    ensures After(f, s, Restarted) == s.(tokens := [])
  {
    FileIsMemory(f, s);
    hide Guarded, Requests.ReplayRows;
  }

  lemma HeldShare(m: Requests.Memory, id: string, accountId: string, at: Instant, tokens: seq<Token>)
    requires HeldByToken(m, id, accountId, at, tokens)
    ensures Share(m, id, accountId, at, tokens) == m.current[id].earmark && Share(m, id, accountId, at, []) == 0.0
  {
    assert TokenFor([], id).None?;
    hide TokenFor;
  }

  lemma MintAgain(f: Firm, s: Office, id: string, o: Overrides, at: Instant)
    requires Guarded(f, s) && TokenFor(s.tokens, id).Some? && id in s.store.memory.current
    requires s.store.memory.current[id].decision == Some(Requests.Approved)
    ensures var minted := Mint(f.rules, s.store, [], id, o, at);
            minted.Ok? && minted.value.token.grant == TokenFor(s.tokens, id).value.grant
            && minted.value.token.consumedAt == TokenFor(s.tokens, id).value.consumedAt
  {
    hide MintNew, Requests.ReplayRows, Requests.CountsAgree, ContactsSpent, SnapshotsNamed;
    var t := TokenFor(s.tokens, id).value;
    var i :| 0 <= i < |s.tokens| && s.tokens[i] == t;
    assert Mirrored(s, s.tokens[i]);
    assert Requests.Lawful(s.store.memory.current[id]);
    assert TokenFor([], id).None?;
  }
}
