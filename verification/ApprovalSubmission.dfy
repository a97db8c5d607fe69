/** Submitting an approved request on the objects themselves: mint, then execute
    with the token just minted, leaves what the run model says it leaves. */
module ApprovalSubmission {
  import opened Wrappers
  import opened MarketCalendar
  import opened ApprovalTokens
  import opened ApprovalStores
  import opened ApprovalBridge
  import opened ApprovalExecution
  import opened ApprovalRun
  import Requests = ApprovalRequests

  /** Replacing a held token by its own later state touches its place alone. */
  lemma PutAt(s: Office, t: Token, k: nat)
    requires TokensMirror(s) && k < |s.tokens| && s.tokens[k].grant == t.grant
    ensures Put(s.tokens, t) == s.tokens[k := t]
  {
    assert Mirrored(s, s.tokens[k]);
    forall i | 0 <= i < |s.tokens| && i != k ensures s.tokens[i].grant.tokenId != t.grant.tokenId {
      assert Mirrored(s, s.tokens[i]);
      if s.tokens[i].grant.tokenId == t.grant.tokenId {
        TokenIdsDiffer(s.tokens[i].grant.requestId, s.tokens[k].grant.requestId);
      }
    }
  }

  /** A token the service does not hold has no place to take. */
  lemma PutNowhere(s: Office, t: Token, id: string)
    requires TokensMirror(s) && Named(t, id) && TokenFor(s.tokens, id).None?
    ensures Put(s.tokens, t) == s.tokens
  {
    forall i | 0 <= i < |s.tokens| ensures s.tokens[i].grant.tokenId != t.grant.tokenId {
      assert Mirrored(s, s.tokens[i]) && s.tokens[i] in s.tokens;
      if s.tokens[i].grant.tokenId == t.grant.tokenId {
        TokenIdsDiffer(s.tokens[i].grant.requestId, id);
      }
    }
  }

  lemma SnapshotIsNotHeld(f: Firm, s: Office, id: string, o: Overrides, at: Instant)
    requires Mint(f.rules, s.store, s.tokens, id, o, at).Ok?
    requires Mint(f.rules, s.store, s.tokens, id, o, at).value.source.FromSnapshot?
    ensures TokenFor(Mint(f.rules, s.store, s.tokens, id, o, at).value.tokens, id).None?
  {
    hide Modified, Approval, Requests.Written;
  }

  /** The service's list after one of its tokens, or none, has moved on. */
  lemma ServiceFollows(s: Office, service: ApprovalService, token: ApprovalToken, id: string)
    requires TokensMirror(s) && |service.tokens| == |s.tokens| && Named(token.State(), id)
    requires forall i, j :: 0 <= i < j < |service.tokens| ==> service.tokens[i] != service.tokens[j]
    requires forall i :: 0 <= i < |service.tokens| ==>
               if service.tokens[i] == token then s.tokens[i].grant == token.grant
                   else service.tokens[i].State() == s.tokens[i]
    requires token !in service.tokens ==> TokenFor(s.tokens, id).None?
    ensures service.State() == Put(s.tokens, token.State())
  {
    hide Put, TokenFor, TokensMirror, Named;
    if token in service.tokens {
      var k :| 0 <= k < |service.tokens| && service.tokens[k] == token;
      PutAt(s, token.State(), k);
    } else {
      PutNowhere(s, token.State(), id);
    }
  }

  /** What Sent leaves, with the token as execution left it. */
  lemma SentIsPut(f: Firm, s: Office, t: Token, t': Token, id: string, c: Conditions)
    requires var done := Execution(f.verifies, f.rules.sessionOf, s.store, t, id, c);
             t' == if done.Existing? then t else done.token
    requires Guarded(f, s) && Mirrored(s, t) && t.grant.requestId == id
    requires t in s.tokens || TokenFor(s.tokens, id).None?
    ensures var done := Execution(f.verifies, f.rules.sessionOf, s.store, t, id, c);
            Sent(f, s, t, id, c, Survives) ==
            Office(if done.Contacted? then done.store else s.store, Put(s.tokens, t'),
                   s.contacted + if done.Contacted? then [id] else [])
  {
    hide Execution, Put, Requests.Sound, SnapshotsNamed, ContactsSpent;
    var done := Execution(f.verifies, f.rules.sessionOf, s.store, t, id, c);
    assert s.contacted + [] == s.contacted;
    if done.Existing? {
      if t in s.tokens {
        var k :| 0 <= k < |s.tokens| && s.tokens[k] == t;
        PutAt(s, t, k);
      } else {
        PutNowhere(s, t, id);
      }
    }
  }

  method SubmitApproved(f: Firm, ghost s: Office, store: ApprovalRequestStore, service: ApprovalService,
                        line: BrokerLine, id: string, o: Overrides, at: Instant, c: Conditions)
    returns (r: Result<Option<Requests.StagedOrder>, Option<Refusal>>)
    requires store.Valid() && service.Valid()
    requires store.sessionOf == f.rules.sessionOf && service.policy == f.rules.policy
    requires Guarded(f, s) && s.store == store.State() && s.tokens == service.State()
    modifies store, service, line, set t | t in service.tokens
    ensures store.Valid() && service.Valid()
    ensures var after := ApprovalRun.Submit(f, s, id, o, at, c, Survives);
            && store.State() == after.store && service.State() == after.tokens
            && line.contacted == old(line.contacted) + (if r.Ok? && r.value.Some? then [r.value.value] else [])
            && after.contacted == s.contacted + (if r.Ok? && r.value.Some? then [id] else [])
  {
    hide Requests.Sound, Mint, TokensMirror, SnapshotsNamed, ContactsSpent, Mirrored, TokenFor, Sent;
    var minted := MintApprovalToken(f.rules, id, store, service, at, o);
    if minted.Err? {
      return Err(None);
    }
    ghost var m := Mint(f.rules, s.store, s.tokens, id, o, at).value;
    ghost var s1 := s.(store := m.store, tokens := m.tokens);
    MintKeeps(f, s, id, o, at);
    if m.source.FromSnapshot? {
      SnapshotIsNotHeld(f, s, id, o, at);
    }
    r := ExecuteMinted(f, s1, store, service, line, minted.value, id, c);
  }

  /** Execution with a token just minted, held by the service or not. */
  method ExecuteMinted(f: Firm, ghost s: Office, store: ApprovalRequestStore, service: ApprovalService,
                       line: BrokerLine, token: ApprovalToken, id: string, c: Conditions)
    returns (r: Result<Option<Requests.StagedOrder>, Option<Refusal>>)
    requires store.Valid() && service.Valid() && store.sessionOf == f.rules.sessionOf
    requires Guarded(f, s) && s.store == store.State() && s.tokens == service.State()
    requires Mirrored(s, token.State()) && token.grant.requestId == id
    requires token in service.tokens || TokenFor(s.tokens, id).None?
    modifies store, line, token
    ensures store.Valid() && service.tokens == old(service.tokens)
    ensures var after := Sent(f, s, old(token.State()), id, c, Survives);
            && store.State() == after.store && service.State() == after.tokens
            && line.contacted == old(line.contacted) + (if r.Ok? && r.value.Some? then [r.value.value] else [])
            && after.contacted == s.contacted + (if r.Ok? && r.value.Some? then [id] else [])
  {
    hide Requests.Sound, Execution, TokensMirror, SnapshotsNamed, ContactsSpent, Mirrored, Put, TokenFor, Sent;
    ghost var t := token.State();
    MirroredIsNamed(s, t);
    HeldIsListed(service, token);
    assert forall i :: 0 <= i < |service.tokens| ==> service.tokens[i].State() == s.tokens[i];
    var sent := ExecuteApprovedRequest(id, store, line, token, f.verifies, c);
    assert forall i :: 0 <= i < |service.tokens| && service.tokens[i] != token ==>
      service.tokens[i].State() == s.tokens[i];
    ServiceFollows(s, service, token, id);
    SentIsPut(f, s, t, token.State(), id, c);
    return if sent.Err? then Err(Some(sent.error)) else Ok(sent.value);
  }

  lemma HeldIsListed(service: ApprovalService, token: ApprovalToken)
    ensures token in service.tokens ==> token.State() in service.State()
  {
    if token in service.tokens {
      var k :| 0 <= k < |service.tokens| && service.tokens[k] == token;
      assert service.State()[k] == token.State();
    }
  }

  lemma MirroredIsNamed(s: Office, t: Token)
    requires Mirrored(s, t)
    ensures Named(t, t.grant.requestId)
  {
  }
}
