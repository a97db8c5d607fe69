/** Executions whose intent is unknown, and the operator's one decision on each. */
module ExecutionQuarantine {
  import opened Wrappers
  import opened Money
  import opened MarketCalendar
  import opened LedgerBooks
  import opened Quarantine

  /** One broker-reported fill increment. A missing or naive fill time is None. */
  datatype Execution = Execution(
    executionId: string,
    accountId: string,
    clientOrderId: string,
    symbol: string,
    side: Side,
    qty: Decimal,
    price: Decimal,
    filledAt: Option<Instant>
  )

  datatype QuarantineReason = NoPolicyVersion | NoIntendedLot

  datatype QuarantinedExecution = QuarantinedExecution(execution: Execution, reason: QuarantineReason,
                                                       quarantinedAt: Instant)

  function AccountOf(q: QuarantinedExecution): string {
    q.execution.accountId
  }

  /** Admitting a BUY takes a policy version and no lot; admitting anything
      else takes a lot and no policy version. A rejection takes neither into
      account. */
  predicate Fits(q: QuarantinedExecution, r: Resolution) {
    r.decision.Admitted? ==>
      if q.execution.side.Buy? then r.policyVersion.Some? && r.lotId.None?
      else r.lotId.Some? && r.policyVersion.None?
  }

  function RulesOf(accountId: string): Rules<QuarantinedExecution> {
    Rules(accountId, AccountOf, Fits)
  }

  type ExecutionStore = QuarantineStore<QuarantinedExecution>

  method PutExecution(store: ExecutionStore, e: Execution, reason: QuarantineReason, at: Instant)
    returns (r: Result<QuarantinedExecution, QuarantineError>)
    requires store.Valid()
    modifies store
    ensures store.Valid()
    ensures match PutAside(store.rules, old(store.State()), e.executionId, QuarantinedExecution(e, reason, at))
            case Ok(s) =>
              store.State() == s && e.executionId in s.memory.items && r == Ok(s.memory.items[e.executionId])
            case Err(x) => r == Err(x) && store.State() == old(store.State())
    ensures e.executionId in old(store.State()).memory.items && r.Ok? ==>
              r.value == old(store.State()).memory.items[e.executionId]
  {
    r := store.Put(e.executionId, QuarantinedExecution(e, reason, at));
  }

  /** An operator supplies the one field that was refused as a guess. */
  method AdmitExecution(store: ExecutionStore, id: string, decidedBy: string, decidedAt: Instant,
                        lotId: Option<string>, policyVersion: Option<string>, notes: Option<string>)
    returns (r: Result<Resolution, QuarantineError>)
    requires store.Valid() && store.rules == RulesOf(store.rules.accountId)
    modifies store
    ensures store.Valid()
    ensures id !in old(store.State()).memory.items ==> r == Err(NeverQuarantined)
    ensures id in old(store.State()).memory.items ==>
              var asked := Resolution(id, old(store.State()).memory.items[id].execution.accountId, Admitted, decidedBy,
                                      decidedAt, lotId, policyVersion, notes);
              match Resolved(store.rules, old(store.State()), asked)
              case Ok(s) => r == Ok(asked) && store.State() == s
              case Err(e) => r == Err(e)
    ensures r.Ok? ==> store.State().memory.StatusOf(id) == Some(Decided(Admitted))
    ensures r.Ok? && id !in old(store.State()).memory.resolutions ==>
              && id in old(store.State()).memory.items && Fits(old(store.State()).memory.items[id], r.value)
              && store.State().memory.resolutions == old(store.State()).memory.resolutions[id := r.value]
    ensures r.Err? ==> store.State() == old(store.State())
    ensures Decisive(old(store.State()).memory, id) ==> store.State() == old(store.State())
  {
    if id !in store.items {
      return Err(NeverQuarantined);
    }
    r := store.Resolve(Resolution(id, AccountOf(store.items[id]), Admitted, decidedBy, decidedAt, lotId,
                                  policyVersion, notes));
  }

  method RejectExecution(store: ExecutionStore, id: string, decidedBy: string, decidedAt: Instant,
                         notes: Option<string>)
    returns (r: Result<Resolution, QuarantineError>)
    requires store.Valid() && store.rules == RulesOf(store.rules.accountId)
    modifies store
    ensures store.Valid()
    ensures r.Ok? ==> store.State().memory.StatusOf(id) == Some(Decided(Rejected))
    ensures var m := old(store.State()).memory;
            r.Err? <==> id !in m.items
                        || (Decisive(m, id)
                            && m.resolutions[id] != Resolution(id, m.items[id].execution.accountId, Rejected, decidedBy,
                                                               decidedAt, None, None, notes))
    ensures r.Err? ==> store.State() == old(store.State())
    ensures Decisive(old(store.State()).memory, id) ==> store.State() == old(store.State())
  {
    if id !in store.items {
      return Err(NeverQuarantined);
    }
    r := store.Resolve(Resolution(id, AccountOf(store.items[id]), Rejected, decidedBy, decidedAt, None, None, notes));
  }

  /** The item has its decision already. */
  predicate Decisive(m: Memory<QuarantinedExecution>, id: string) {
    id in m.resolutions
  }
}
