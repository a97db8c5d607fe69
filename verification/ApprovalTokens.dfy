/** The single-use approval token, and the in-memory service that issues it. */
module ApprovalTokens {
  import opened Wrappers
  import opened MarketCalendar

  /** Microseconds, like instants. */
  type Duration = int

  datatype OrderSide = BuyOrder | SellOrder | CloseOrder | CancelOrder | OtherOrderSide(text: string)

  /** What a human approves: the order itself, in the clear. */
  datatype OrderTerms = OrderTerms(
    symbol: string,
    side: OrderSide,
    qty: real,
    orderType: string,
    timeInForce: string,
    limitPrice: Option<real>,
    lotId: Option<string>
  )

  /** Everything fixed when a token is minted. */
  datatype Grant = Grant(
    tokenId: string,
    requestId: string,
    fingerprint: string,
    bandLow: real,
    bandHigh: real,
    expiresAt: Instant,
    decidedAt: Instant,
    elapsedMs: int,
    original: OrderTerms,
    shownAt: Option<Instant>,
    minDisplay: Option<Duration>
  )

  datatype Token = Token(grant: Grant, consumedAt: Option<Instant>, sweptAt: Option<Instant>)

  datatype TokenError =
    | TokenReissued
    | ShownTooBriefly
    | TokenConsumed
    | TokenExpired
    | OrderMismatch
    | PriceOutOfBand

  const EPSILON: real := 0.000000001

  // ---------------------------------------------------------------- spending

  /** What consume() makes of a token, or the refusal it raises. */
  function Consumption(t: Token, fingerprint: string, price: real, now: Instant): Result<Token, TokenError> {
    if t.consumedAt.Some? then Err(TokenConsumed)
    else if t.sweptAt.Some? || now >= t.grant.expiresAt then Err(TokenExpired)
    else if fingerprint != t.grant.fingerprint then Err(OrderMismatch)
    else if !(t.grant.bandLow <= price <= t.grant.bandHigh) then Err(PriceOutOfBand)
    else Ok(t.(consumedAt := Some(now)))
  }

  /** A token is spent at most once: after one consumption every other is
      refused, whatever the order, the price or the instant. */
  lemma SpentOnce(t: Token, fingerprint: string, price: real, now: Instant, fingerprint': string, price': real,
                  later: Instant)
    requires Consumption(t, fingerprint, price, now).Ok?
    ensures var spent := Consumption(t, fingerprint, price, now).value;
            Consumption(spent, fingerprint', price', later) == Err(TokenConsumed)
  {
  }

  /** The modify-within-bounds rule: a smaller size, or a limit moved against
      the trade, is still the approved order; nothing else is. */
  predicate WithinBounds(approved: OrderTerms, order: OrderTerms) {
    && order.symbol == approved.symbol && order.side == approved.side
    && order.orderType == approved.orderType && order.timeInForce == approved.timeInForce
    && order.lotId == approved.lotId
    && order.qty <= approved.qty + EPSILON
    && match (order.limitPrice, approved.limitPrice)
       case (None, None) => true
       case (Some(l), Some(a)) => if order.side.BuyOrder? then l <= a + EPSILON else l >= a - EPSILON
       case _ => false
  }

  predicate DisplayedLongEnough(t: Token, now: Instant) {
    t.grant.shownAt.Some? && t.grant.minDisplay.Some? ==> now - t.grant.shownAt.value >= t.grant.minDisplay.value
  }

  // ---------------------------------------------------------------- the service

  datatype ServicePolicy = ServicePolicy(expiration: Duration, minDisplay: Duration, maxPerDay: int, bandPct: real)

  /** What approve() is asked for. */
  datatype Ask = Ask(
    tokenId: string,
    requestId: string,
    fingerprint: string,
    priceAtAnalysis: real,
    shownAt: Instant,
    terms: OrderTerms,
    elapsedMs: Option<int>,
    bandLow: Option<real>,
    bandHigh: Option<real>
  )

  /** int() truncates toward zero. */
  function Milliseconds(d: Duration): int {
    if d >= 0 then d / 1000 else -((-d) / 1000)
  }

  function Band(policy: ServicePolicy, ask: Ask): (real, real) {
    if ask.bandLow.Some? && ask.bandHigh.Some? then (ask.bandLow.value, ask.bandHigh.value)
    else (ask.priceAtAnalysis * (1.0 - policy.bandPct / 100.0), ask.priceAtAnalysis * (1.0 + policy.bandPct / 100.0))
  }

  function GrantFor(policy: ServicePolicy, ask: Ask, now: Instant): Grant {
    Grant(ask.tokenId, ask.requestId, ask.fingerprint, Band(policy, ask).0, Band(policy, ask).1,
          now + policy.expiration, now,
          ask.elapsedMs.GetOr(Milliseconds(now - ask.shownAt)), ask.terms, Some(ask.shownAt), Some(policy.minDisplay))
  }

  predicate Issued(tokens: seq<Token>, tokenId: string) {
    exists t :: t in tokens && t.grant.tokenId == tokenId
  }

  /** The token approve() issues, or the refusal it raises. */
  function Approval(policy: ServicePolicy, tokens: seq<Token>, ask: Ask, now: Instant): Result<Token, TokenError> {
    if Issued(tokens, ask.tokenId) then Err(TokenReissued)
    else if now - ask.shownAt < policy.minDisplay then Err(ShownTooBriefly)
    else Ok(Token(GrantFor(policy, ask, now), None, None))
  }

  /** The first token of a request, in issuance order. */
  function TokenFor(tokens: seq<Token>, requestId: string): (r: Option<Token>)
    ensures r.Some? ==> r.value in tokens && r.value.grant.requestId == requestId
    ensures r.None? ==> forall t :: t in tokens ==> t.grant.requestId != requestId
  {
    if tokens == [] then None
    else if tokens[0].grant.requestId == requestId then Some(tokens[0])
    else TokenFor(tokens[1..], requestId)
  }

  predicate Stale(t: Token, now: Instant) {
    t.consumedAt.None? && t.sweptAt.None? && now >= t.grant.expiresAt
  }

  function Swept(t: Token, now: Instant): Token {
    if Stale(t, now) then t.(sweptAt := Some(now)) else t
  }

  function SweptAll(tokens: seq<Token>, now: Instant): seq<Token> {
    seq(|tokens|, i requires 0 <= i < |tokens| => Swept(tokens[i], now))
  }

  // ---------------------------------------------------------------- the objects

  class ApprovalToken {
    const grant: Grant
    var consumedAt: Option<Instant>
    var sweptAt: Option<Instant>

    function State(): Token
      reads this
    {
      Token(grant, consumedAt, sweptAt)
    }

    constructor (t: Token)
      ensures State() == t
    {
      grant, consumedAt, sweptAt := t.grant, t.consumedAt, t.sweptAt;
    }

    /** Atomically spend the token, or refuse and change nothing. */
    method Consume(fingerprint: string, price: real, now: Instant) returns (r: Result<Unit, TokenError>)
      modifies this
      ensures match Consumption(old(State()), fingerprint, price, now)
              case Ok(t) => r == Ok(Unit.Unit) && State() == t
              case Err(e) => r == Err(e) && State() == old(State())
    {
      if consumedAt.Some? {
        return Err(TokenConsumed);
      }
      if sweptAt.Some? || now >= grant.expiresAt {
        return Err(TokenExpired);
      }
      if fingerprint != grant.fingerprint {
        return Err(OrderMismatch);
      }
      if !(grant.bandLow <= price <= grant.bandHigh) {
        return Err(PriceOutOfBand);
      }
      consumedAt := Some(now);
      return Ok(Unit.Unit);
    }
  }

  function StatesOf(tokens: seq<ApprovalToken>): seq<Token>
    reads set t | t in tokens
  {
    seq(|tokens|, i requires 0 <= i < |tokens| reads set t | t in tokens => tokens[i].State())
  }

  /** The stale ones of a list of tokens, in its order. */
  function StaleOf(tokens: seq<ApprovalToken>, now: Instant): seq<ApprovalToken>
    reads set t | t in tokens
  {
    if tokens == [] then []
    else
      var last := tokens[|tokens| - 1];
      StaleOf(tokens[..|tokens| - 1], now) + if Stale(last.State(), now) then [last] else []
  }

  class ApprovalService {
    const policy: ServicePolicy
    var tokens: seq<ApprovalToken>   // in issuance order

    ghost predicate Valid()
      reads this
    {
      forall i, j :: 0 <= i < j < |tokens| ==> tokens[i] != tokens[j]
    }

    function State(): seq<Token>
      reads this, set t | t in tokens
    {
      StatesOf(tokens)
    }

    constructor (policy: ServicePolicy)
      ensures Valid() && State() == [] && this.policy == policy && tokens == []
    {
      this.policy := policy;
      tokens := [];
    }

    /** A token id is issued once. */
    method Approve(ask: Ask, now: Instant) returns (r: Result<ApprovalToken, TokenError>)
      requires Valid()
      modifies this
      ensures Valid()
      ensures match Approval(policy, old(State()), ask, now)
              case Err(e) => r == Err(e) && tokens == old(tokens)
              case Ok(t) => r.Ok? && fresh(r.value) && r.value.State() == t && tokens == old(tokens) + [r.value]
      ensures forall t :: t in old(tokens) ==> t.State() == old(t.State())
    {
      if exists t :: t in tokens && t.grant.tokenId == ask.tokenId {
        ghost var t :| t in tokens && t.grant.tokenId == ask.tokenId;
        ghost var i :| 0 <= i < |tokens| && tokens[i] == t;
        assert State()[i].grant.tokenId == ask.tokenId;
        return Err(TokenReissued);
      }
      if now - ask.shownAt < policy.minDisplay {
        return Err(ShownTooBriefly);
      }
      var token := new ApprovalToken(Token(GrantFor(policy, ask, now), None, None));
      tokens := tokens + [token];
      return Ok(token);
    }

    method TokenForRequest(requestId: string) returns (r: Option<ApprovalToken>)
      ensures match TokenFor(State(), requestId)
              case None => r == None
              case Some(t) => r.Some? && r.value in tokens && r.value.State() == t
    {
      var i := 0;
      while i < |tokens|
        invariant 0 <= i <= |tokens|
        invariant TokenFor(State(), requestId) == TokenFor(State()[i..], requestId)
      {
        assert State()[i..][0] == tokens[i].State() && State()[i..][1..] == State()[i + 1..];
        if tokens[i].grant.requestId == requestId {
          return Some(tokens[i]);
        }
        i := i + 1;
      }
      return None;
    }

    /** Startup: retire what went stale unspent, and say which, in issuance order. */
    method SweepExpired(now: Instant) returns (swept: seq<ApprovalToken>)
      requires Valid()
      modifies set t | t in tokens
      ensures State() == SweptAll(old(State()), now)
      ensures swept == old(StaleOf(tokens, now))
      ensures forall t :: t in swept <==> t in tokens && Stale(old(t.State()), now)
    {
      swept := [];
      var i := 0;
      while i < |tokens|
        invariant 0 <= i <= |tokens|
        invariant forall k :: 0 <= k < i ==> tokens[k].State() == Swept(old(tokens[k].State()), now)
        invariant forall k :: i <= k < |tokens| ==> tokens[k].State() == old(tokens[k].State())
        invariant swept == old(StaleOf(tokens[..i], now))
        invariant forall t :: t in swept <==> t in tokens[..i] && Stale(old(t.State()), now)
      {
        var t := tokens[i];
        assert tokens[..i + 1][..i] == tokens[..i];
        if t.consumedAt.None? && t.sweptAt.None? && now >= t.grant.expiresAt {
          t.sweptAt := Some(now);
          swept := swept + [t];
        }
        i := i + 1;
      }
      assert tokens[..|tokens|] == tokens;
    }
  }
}
