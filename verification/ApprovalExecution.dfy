/** Executing an approved request: every guard in its order, then the token is
    spent, the spending recorded, and only then the broker contacted. */
module ApprovalExecution {
  import opened Wrappers
  import opened MarketCalendar
  import opened ApprovalTokens
  import opened ApprovalStores
  import Requests = ApprovalRequests

  // ---------------------------------------------------------------- what the guards read

  datatype RuntimeStatus = RuntimeStatus(
    accountId: string,
    source: string,
    reconciliation: string,
    reconciledAt: Option<Instant>,
    positionsReconciled: Option<bool>,
    cashReconciled: Option<bool>,
    openOrdersReconciled: Option<bool>,
    generatedAt: Instant
  )

  /** The world one execution meets. An unreadable mode, status or quote is None. */
  datatype Conditions = Conditions(
    accountId: string,
    knownOrders: set<string>,        // client order ids the broker reports
    settledCash: real,
    held: map<string, real>,
    clock: Instant,
    mode: Option<string>,
    status: Option<RuntimeStatus>,
    inSession: bool,                 // false also where the session cannot be determined
    quote: Option<real>,
    brokerIdentified: bool,
    capable: bool                    // gate 4 of the capability policy
  )

  const DRIFT_EPSILON: real := 0.000001
  const HOUR: Duration := 3_600_000_000
  const STALE_AFTER: Duration := 25 * HOUR

  predicate ModePermits(c: Conditions) {
    c.mode == Some("PAPER") || c.mode == Some("PRODUCTION_ACTIVE")
  }

  /** A complete, passing and recent reconciliation of this very account, by a
      producer that really reads the broker. */
  predicate ReconciliationIsFresh(c: Conditions) {
    && c.status.Some?
    && var s := c.status.value;
       && s.accountId == c.accountId
       && (s.source == "cycle" || s.source == "reconcile_once")
       && s.reconciliation == "PASS"
       && s.positionsReconciled == Some(true) && s.cashReconciled == Some(true) && s.openOrdersReconciled == Some(true)
       && s.reconciledAt.Some?
       && c.clock - s.reconciledAt.value <= STALE_AFTER
       && c.clock - s.generatedAt <= STALE_AFTER
  }

  predicate Supported(staged: Requests.StagedOrder, c: Conditions) {
    match staged.terms.side
    case BuyOrder => c.settledCash >= staged.notional - DRIFT_EPSILON
    case SellOrder => Held(c, staged.terms.symbol) >= staged.terms.qty - DRIFT_EPSILON
    case CloseOrder => Held(c, staged.terms.symbol) >= staged.terms.qty - DRIFT_EPSILON
    case _ => true
  }

  function Held(c: Conditions, symbol: string): real {
    if symbol in c.held then c.held[symbol] else 0.0
  }

  predicate QuoteUsable(c: Conditions) {
    c.quote.Some? && c.quote.value > 0.0
  }

  datatype Refusal =
    | UnknownRequest
    | NotApproved
    | WasInvalidated
    | MissingStagedOrder
    | SignatureInvalid
    | TokenOfAnotherRequest
    | DriftDetected
    | OutOfBounds
    | ModeNotPermitted
    | ReconciliationNotFresh
    | SessionClosed
    | QuoteUnavailable
    | BrokerNotIdentified
    | NotAnOrder
    | CrossAccount
    | CapabilityRefused
    | DisplayTooBrief
    | TokenRefused(error: TokenError)
    | NotRecorded(failure: Requests.RequestError)

  // ---------------------------------------------------------------- the guards, in order

  datatype Clearance = AlreadyAtBroker | Refused(why: Refusal) | Clear(staged: Requests.StagedOrder, price: real)

  /** Everything checked before the adapter is asked to submit. `verifies` says
      whether an order's signature is the durable key's. */
  function Preflight(verifies: Requests.StagedOrder -> bool, store: Requests.Store, t: Token, id: string,
                     c: Conditions): Clearance {
    if id !in store.memory.current then Refused(UnknownRequest)
    else
      var r := store.memory.current[id];
      if r.decision != Some(Requests.Approved) then Refused(NotApproved)
      else if r.invalidated.Some? then Refused(WasInvalidated)
      else if r.proposal.staged.None? then Refused(MissingStagedOrder)
      else
        var staged := r.proposal.staged.value;
        if !verifies(staged) then Refused(SignatureInvalid)
        else if t.grant.requestId != id then Refused(TokenOfAnotherRequest)
        else if staged.clientOrderId in c.knownOrders then AlreadyAtBroker
        else if !Supported(staged, c) then Refused(DriftDetected)
        else if !WithinBounds(t.grant.original, staged.terms) then Refused(OutOfBounds)
        else if !ModePermits(c) then Refused(ModeNotPermitted)
        else if !ReconciliationIsFresh(c) then Refused(ReconciliationNotFresh)
        else if !c.inSession then Refused(SessionClosed)
        else if !QuoteUsable(c) then Refused(QuoteUnavailable)
        else Clear(staged, c.quote.value)
  }

  /** What submit() checks and does up to the broker: the token it has spent. */
  function Submission(t: Token, staged: Requests.StagedOrder, price: real, c: Conditions): Result<Token, Refusal> {
    if !c.brokerIdentified then Err(BrokerNotIdentified)
    else if staged.terms.side.CancelOrder? then Err(NotAnOrder)
    else if staged.accountId != c.accountId then Err(CrossAccount)
    else if !c.capable then Err(CapabilityRefused)
    else if !WithinBounds(t.grant.original, staged.terms) then Err(OutOfBounds)
    else if !DisplayedLongEnough(t, c.clock) then Err(DisplayTooBrief)
    else match Consumption(t, t.grant.fingerprint, price, c.clock)
         case Err(e) => Err(TokenRefused(e))
         case Ok(spent) => Ok(spent)
  }

  datatype Outcome =
    | Existing                                                             // the broker's order, returned as it is
    | Stopped(refusal: Refusal, token: Token)                              // the token as the refusal left it
    | Contacted(order: Requests.StagedOrder, token: Token, store: Requests.Store)

  function Execution(verifies: Requests.StagedOrder -> bool, sessionOf: Instant -> Date, store: Requests.Store,
                     t: Token, id: string, c: Conditions): Outcome
  {
    match Preflight(verifies, store, t, id, c)
    case AlreadyAtBroker => Existing
    case Refused(why) => Stopped(why, t)
    case Clear(staged, price) =>
      match Submission(t, staged, price, c)
      case Err(why) => Stopped(why, t)
      case Ok(spent) =>
        match Requests.Wrote(sessionOf, store, Requests.RecordConsumed(id, spent))
        case Err(e) => Stopped(NotRecorded(e), spent)
        case Ok(after) => Contacted(staged, spent, after)
  }

  /** What a contact with the broker means: nothing on the list was waived, the
      token was live and is spent, and the spending is durable already. */
  lemma ContactMeansEveryGuardPassed(verifies: Requests.StagedOrder -> bool, sessionOf: Instant -> Date,
                                     store: Requests.Store, t: Token, id: string, c: Conditions)
    requires id in store.memory.current ==> store.memory.current[id].id == id
    requires Execution(verifies, sessionOf, store, t, id, c).Contacted?
    ensures var done := Execution(verifies, sessionOf, store, t, id, c);
            && id in store.memory.current
            && var r := store.memory.current[id];
               && r.decision == Some(Requests.Approved) && r.invalidated.None? && r.proposal.staged == Some(done.order)
               && verifies(done.order) && done.order.accountId == c.accountId
               && done.order.clientOrderId !in c.knownOrders
               && t.grant.requestId == id && WithinBounds(t.grant.original, done.order.terms)
               && Supported(done.order, c) && ModePermits(c) && ReconciliationIsFresh(c) && c.inSession
               && QuoteUsable(c) && t.grant.bandLow <= c.quote.value <= t.grant.bandHigh
               && DisplayedLongEnough(t, c.clock) && c.clock < t.grant.expiresAt
               && t.consumedAt.None? && t.sweptAt.None? && done.token == t.(consumedAt := Some(c.clock))
               && r.tokenSnapshot.Some?
               && done.store.memory.current == store.memory.current[id := r.(tokenSnapshot := Some(done.token))]
               && |done.store.file| == |store.file| + 1
               && done.store.file[|store.file|].request.id == r.id
               && done.store.file[|store.file|].request.tokenSnapshot == Some(done.token)
  {
    hide WithinBounds, Supported, ReconciliationIsFresh, ModePermits, DisplayedLongEnough;
  }

  // ---------------------------------------------------------------- the executor

  /** The broker end of an adapter: the orders that reached it. */
  class BrokerLine {
    var contacted: seq<Requests.StagedOrder>

    constructor ()
      ensures contacted == []
    {
      contacted := [];
    }

    method SubmitImpl(staged: Requests.StagedOrder)
      modifies this
      ensures contacted == old(contacted) + [staged]
    {
      contacted := contacted + [staged];
    }
  }

  method ExecuteApprovedRequest(id: string, store: ApprovalRequestStore, line: BrokerLine, token: ApprovalToken,
                                verifies: Requests.StagedOrder -> bool, c: Conditions)
    returns (r: Result<Option<Requests.StagedOrder>, Refusal>)
    requires store.Valid()
    modifies store, line, token
    ensures store.Valid()
    ensures match Execution(verifies, store.sessionOf, old(store.State()), old(token.State()), id, c)
            case Existing =>
              r == Ok(None) && line.contacted == old(line.contacted) && store.State() == old(store.State())
              && token.State() == old(token.State())
            case Stopped(why, t) =>
              r == Err(why) && line.contacted == old(line.contacted) && store.State() == old(store.State())
              && token.State() == t
            case Contacted(staged, t, s) =>
              r == Ok(Some(staged)) && line.contacted == old(line.contacted) + [staged] && store.State() == s
              && token.State() == t
  {
    hide Requests.Sound, WithinBounds, Supported, ReconciliationIsFresh, ModePermits, QuoteUsable, Submission,
         Requests.Wrote;
    if id !in store.current {
      return Err(UnknownRequest);
    }
    var request := store.current[id];
    if request.decision != Some(Requests.Approved) {
      return Err(NotApproved);
    }
    if request.invalidated.Some? {
      return Err(WasInvalidated);
    }
    if request.proposal.staged.None? {
      return Err(MissingStagedOrder);
    }
    var staged := request.proposal.staged.value;
    if !verifies(staged) {
      return Err(SignatureInvalid);
    }
    if token.grant.requestId != id {
      return Err(TokenOfAnotherRequest);
    }
    if staged.clientOrderId in c.knownOrders {
      return Ok(None);
    }
    if !Supported(staged, c) {
      return Err(DriftDetected);
    }
    if !WithinBounds(token.grant.original, staged.terms) {
      return Err(OutOfBounds);
    }
    if !ModePermits(c) {
      return Err(ModeNotPermitted);
    }
    if !ReconciliationIsFresh(c) {
      return Err(ReconciliationNotFresh);
    }
    if !c.inSession {
      return Err(SessionClosed);
    }
    if !QuoteUsable(c) {
      return Err(QuoteUnavailable);
    }
    assert c.quote.Some? by { QuoteHasPrice(c); }
    assert Preflight(verifies, store.State(), token.State(), id, c) == Clear(staged, c.quote.value);
    var sent := Submit(id, store, line, token, staged, c.quote.value, c);
    return if sent.Err? then Err(sent.error) else Ok(Some(staged));
  }

  lemma QuoteHasPrice(c: Conditions)
    requires QuoteUsable(c)
    ensures c.quote.Some?
  {
  }

  /** The adapter's submit(), with the sink the executor attached to it. */
  method Submit(id: string, store: ApprovalRequestStore, line: BrokerLine, token: ApprovalToken,
                staged: Requests.StagedOrder, price: real, c: Conditions)
    returns (r: Result<Unit, Refusal>)
    requires store.Valid()
    modifies store, line, token
    ensures store.Valid()
    ensures match Submission(old(token.State()), staged, price, c)
            case Err(why) =>
              r == Err(why) && line.contacted == old(line.contacted) && store.State() == old(store.State())
              && token.State() == old(token.State())
            case Ok(spent) =>
              match Requests.Wrote(store.sessionOf, old(store.State()), Requests.RecordConsumed(id, spent))
              case Err(e) =>
                r == Err(NotRecorded(e)) && line.contacted == old(line.contacted) && store.State() == old(store.State())
                && token.State() == spent
              case Ok(s) =>
                r == Ok(Unit.Unit) && line.contacted == old(line.contacted) + [staged] && store.State() == s
                && token.State() == spent
  {
    hide Requests.Sound, Requests.Wrote, WithinBounds, DisplayedLongEnough;
    if !c.brokerIdentified {
      return Err(BrokerNotIdentified);
    }
    if staged.terms.side.CancelOrder? {
      return Err(NotAnOrder);
    }
    if staged.accountId != c.accountId {
      return Err(CrossAccount);
    }
    if !c.capable {
      return Err(CapabilityRefused);
    }
    if !WithinBounds(token.grant.original, staged.terms) {
      return Err(OutOfBounds);
    }
    if !DisplayedLongEnough(token.State(), c.clock) {
      return Err(DisplayTooBrief);
    }
    var spent := token.Consume(token.grant.fingerprint, price, c.clock);
    if spent.Err? {
      return Err(TokenRefused(spent.error));
    }
    var recorded := store.RecordTokenConsumed(id, token.State());
    if recorded.Err? {
      return Err(NotRecorded(recorded.error));
    }
    line.SubmitImpl(staged);
    return Ok(Unit.Unit);
  }
}
