/** From an approved request to its one token: the live token if this process
    still holds it, else the durable one, else a new one, recorded at once. */
module ApprovalBridge {
  import opened Wrappers
  import opened Money
  import opened MarketCalendar
  import opened ApprovalTokens
  import opened ApprovalStores
  import Requests = ApprovalRequests

  datatype Overrides = Overrides(qty: Option<real>, limit: Option<real>)

  datatype BridgeError =
    | UnknownRequest
    | NotApproved
    | WasInvalidated
    | RequestExpired
    | CompoundOrder
    | QtyNotPositive
    | QtyIncreased
    | NoLimitToModify
    | LimitLoosened
    | BeforeShown
    | ShownAtDrift
    | NotIssued(error: TokenError)

  const DRIFT_TOLERANCE_MS := 5000

  /** How tokens are issued here; `fingerprintOf` stands for the order hash. */
  datatype Rules = Rules(sessionOf: Instant -> Date, policy: ServicePolicy, fingerprintOf: OrderTerms -> string)

  function TokenIdOf(requestId: string): string { "tok-" + requestId }

  // ---------------------------------------------------------------- modify within bounds

  /** The order a mint authorizes: the proposal's, or one modified against the
      trade. Never clamped. */
  function Modified(terms: OrderTerms, o: Overrides): Result<OrderTerms, BridgeError> {
    if o.qty.Some? && o.qty.value <= 0.0 then Err(QtyNotPositive)
    else if o.qty.Some? && o.qty.value > terms.qty + EPSILON then Err(QtyIncreased)
    else if o.limit.Some? && terms.limitPrice.None? then Err(NoLimitToModify)
    else if o.limit.Some? && terms.side.BuyOrder? && o.limit.value > terms.limitPrice.value + EPSILON
    then Err(LimitLoosened)
    else if o.limit.Some? && !terms.side.BuyOrder? && o.limit.value < terms.limitPrice.value - EPSILON
    then Err(LimitLoosened)
    else Ok(terms.(qty := o.qty.GetOr(terms.qty), limitPrice := if o.limit.Some? then o.limit else terms.limitPrice))
  }

  /** What a mint authorizes is always within the bounds of what was approved. */
  lemma ModifiedIsWithinBounds(terms: OrderTerms, o: Overrides)
    requires Modified(terms, o).Ok?
    ensures WithinBounds(terms, Modified(terms, o).value)
  {
  }

  /** The other way round, as submission compares them: the approved order
      passes against a token minted for a modified one exactly if nothing was
      really modified. A token for a reduced size, or for a limit moved against
      the trade, never lets the staged order through. */
  lemma OnlyUnmodifiedTokensExecute(terms: OrderTerms, o: Overrides)
    requires Modified(terms, o).Ok?
    ensures WithinBounds(Modified(terms, o).value, terms) <==>
            && (o.qty.Some? ==> Abs(o.qty.value - terms.qty) <= EPSILON)
            && (o.limit.Some? ==> Abs(o.limit.value - terms.limitPrice.value) <= EPSILON)
  {
  }

  // ---------------------------------------------------------------- minting

  datatype Source = Live | FromSnapshot | New

  datatype Minting = Minting(token: Token, source: Source, store: Requests.Store, tokens: seq<Token>)

  function AskFor(rules: Rules, r: Requests.Request, final: OrderTerms): Ask {
    Ask(TokenIdOf(r.id), r.id, rules.fingerprintOf(final), r.priceAtAnalysis, r.shownAt, final, r.elapsedMs,
        Some(r.bandLow), Some(r.bandHigh))
  }

  /** Minting a token no process has minted before. */
  function MintNew(rules: Rules, store: Requests.Store, tokens: seq<Token>, r: Requests.Request, o: Overrides,
                   now: Instant)
    : Result<Minting, BridgeError>
  {
    var elapsed := Milliseconds(now - r.shownAt);
    if now >= r.expiresAt then Err(RequestExpired)
    else if r.proposal.legs.Some? && r.proposal.legs.value != 1 then Err(CompoundOrder)
    else match Modified(r.proposal.terms, o)
         case Err(e) => Err(e)
         case Ok(final) =>
           if elapsed < 0 then Err(BeforeShown)
           else if elapsed > r.elapsedMs.GetOr(0) + DRIFT_TOLERANCE_MS then Err(ShownAtDrift)
           else match Approval(rules.policy, tokens, AskFor(rules, r, final), now)
                case Err(e) => Err(NotIssued(e))
                case Ok(t) =>
                  Ok(Minting(t, New, Requests.Written(rules.sessionOf, store, Requests.TokenMinted,
                                                      Requests.AccountFor(store.memory, Requests.RecordMinted(r.id, t)),
                                                      r.(tokenSnapshot := Some(t))),
                             tokens + [t]))
  }

  function Mint(rules: Rules, store: Requests.Store, tokens: seq<Token>, id: string, o: Overrides, now: Instant)
    : Result<Minting, BridgeError>
  {
    if id !in store.memory.current then Err(UnknownRequest)
    else
      var r := store.memory.current[id];
      if r.decision != Some(Requests.Approved) then Err(NotApproved)
      else if r.invalidated.Some? then Err(WasInvalidated)
      else if TokenFor(tokens, id).Some? then Ok(Minting(TokenFor(tokens, id).value, Live, store, tokens))
      else if r.tokenSnapshot.Some? then Ok(Minting(r.tokenSnapshot.value, FromSnapshot, store, tokens))
      else MintNew(rules, store, tokens, r, o, now)
  }

  /** A new token is recorded by an accepted write of the store. */
  lemma MintIsRecorded(rules: Rules, store: Requests.Store, tokens: seq<Token>, id: string, o: Overrides, now: Instant)
    requires Requests.Sound(rules.sessionOf, store)
    requires Mint(rules, store, tokens, id, o, now).Ok? && Mint(rules, store, tokens, id, o, now).value.source.New?
    ensures var m := Mint(rules, store, tokens, id, o, now).value;
            && Requests.Wrote(rules.sessionOf, store, Requests.RecordMinted(id, m.token)) == Ok(m.store)
            && m.store.memory.current ==
               store.memory.current[id := store.memory.current[id].(tokenSnapshot := Some(m.token))]
            && m.tokens == tokens + [m.token]
            && m.token.consumedAt.None? && m.token.sweptAt.None?
            && m.token.grant.requestId == id && m.token.grant.tokenId == TokenIdOf(id)
            && m.token.grant.expiresAt == now + rules.policy.expiration
  {
    hide Requests.ReplayRows, Modified, Requests.CountsAgree;
  }

  method MintApprovalToken(rules: Rules, id: string, store: ApprovalRequestStore, service: ApprovalService,
                           now: Instant, o: Overrides)
    returns (r: Result<ApprovalToken, BridgeError>)
    requires store.Valid() && service.Valid() && store.sessionOf == rules.sessionOf && service.policy == rules.policy
    modifies store, service
    ensures store.Valid() && service.Valid()
    ensures match Mint(rules, old(store.State()), old(service.State()), id, o, now)
            case Err(e) => r == Err(e) && store.State() == old(store.State()) && service.State() == old(service.State())
            case Ok(m) =>
              && r.Ok? && r.value.State() == m.token
              && store.State() == m.store && service.State() == m.tokens
              && (match m.source
                  case Live => r.value in service.tokens && service.tokens == old(service.tokens)
                  case FromSnapshot => fresh(r.value) && service.tokens == old(service.tokens)
                  case New => fresh(r.value) && service.tokens == old(service.tokens) + [r.value])
  {
    hide Requests.Sound, MintNew;
    if id !in store.current {
      return Err(UnknownRequest);
    }
    var request := store.current[id];
    if request.decision != Some(Requests.Approved) {
      return Err(NotApproved);
    }
    if request.invalidated.Some? {
      return Err(WasInvalidated);
    }
    var live := service.TokenForRequest(id);
    if live.Some? {
      return Ok(live.value);
    }
    if request.tokenSnapshot.Some? {
      var token := new ApprovalToken(request.tokenSnapshot.value);
      return Ok(token);
    }
    FiledUnderItsId(store.sessionOf, store.State(), id);
    r := MintFirstToken(rules, store, service, request, o, now);
  }

  method MintFirstToken(rules: Rules, store: ApprovalRequestStore, service: ApprovalService, request: Requests.Request,
                        o: Overrides, now: Instant)
    returns (r: Result<ApprovalToken, BridgeError>)
    requires store.Valid() && service.Valid() && store.sessionOf == rules.sessionOf && service.policy == rules.policy
    requires request.id in store.current && store.current[request.id] == request
    requires request.decision == Some(Requests.Approved) && request.tokenSnapshot.None?
    modifies store, service
    ensures store.Valid() && service.Valid()
    ensures match MintNew(rules, old(store.State()), old(service.State()), request, o, now)
            case Err(e) => r == Err(e) && store.State() == old(store.State()) && service.State() == old(service.State())
            case Ok(m) =>
              r.Ok? && r.value.State() == m.token && store.State() == m.store && service.State() == m.tokens
              && m.source.New? && fresh(r.value) && service.tokens == old(service.tokens) + [r.value]
  {
    hide Requests.Sound, Modified, Milliseconds, Approval, GrantFor, Requests.Written;
    if now >= request.expiresAt {
      return Err(RequestExpired);
    }
    if request.proposal.legs.Some? && request.proposal.legs.value != 1 {
      return Err(CompoundOrder);
    }
    var final := Modified(request.proposal.terms, o);
    if final.Err? {
      return Err(final.error);
    }
    var elapsed := Milliseconds(now - request.shownAt);
    if elapsed < 0 {
      return Err(BeforeShown);
    }
    if elapsed > request.elapsedMs.GetOr(0) + DRIFT_TOLERANCE_MS {
      return Err(ShownAtDrift);
    }
    r := IssueAndRecord(rules, store, service, request, final.value, now);
  }

  /** The last two steps of a mint: issue, then record before returning. */
  method IssueAndRecord(rules: Rules, store: ApprovalRequestStore, service: ApprovalService, request: Requests.Request,
                        final: OrderTerms, now: Instant)
    returns (r: Result<ApprovalToken, BridgeError>)
    requires store.Valid() && service.Valid() && store.sessionOf == rules.sessionOf && service.policy == rules.policy
    requires request.id in store.current && store.current[request.id] == request
    requires request.decision == Some(Requests.Approved) && request.tokenSnapshot.None?
    modifies store, service
    ensures store.Valid() && service.Valid()
    ensures match Approval(rules.policy, old(service.State()), AskFor(rules, request, final), now)
            case Err(e) =>
              && r == Err(NotIssued(e)) && store.State() == old(store.State())
              && service.State() == old(service.State())
            case Ok(t) =>
              && r.Ok? && r.value.State() == t && fresh(r.value) && service.tokens == old(service.tokens) + [r.value]
              && service.State() == old(service.State()) + [t]
              && store.State() == Requests.Written(rules.sessionOf, old(store.State()), Requests.TokenMinted,
                                                   Requests.AccountFor(old(store.State()).memory,
                                                                       Requests.RecordMinted(request.id, t)),
                                                   request.(tokenSnapshot := Some(t)))
  {
    hide Requests.Sound, Approval, GrantFor, Requests.Written;
    var issued := service.Approve(AskFor(rules, request, final), now);
    if issued.Err? {
      return Err(NotIssued(issued.error));
    }
    var recorded := store.RecordTokenMinted(request.id, issued.value.State());
    return Ok(issued.value);
  }

  lemma FiledUnderItsId(sessionOf: Instant -> Date, s: Requests.Store, id: string)
    requires Requests.Sound(sessionOf, s) && id in s.memory.current
    ensures s.memory.current[id].id == id
  {
  }
}
