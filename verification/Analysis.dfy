/** One analysis call: the cache first, the budget next, then the model; what
    it cost is recorded before its reply is read. */
module Analysis {
  import opened Wrappers
  import opened MarketCalendar
  import opened Costs
  import opened Extractions

  // ---------------------------------------------------------------- one request

  /** A request, with the prices and the size of the prompt built from it. */
  datatype Job = Job(
    documents: seq<string>,       // hashes of the filing-document facts
    promptVersion: string,
    modelId: string,
    schemaVersion: string,
    validatorVersion: string,
    promptChars: nat,
    maxOutputTokens: nat,
    inputPrice: real,             // per million tokens
    outputPrice: real,
    at: Instant,
    runId: Option<string>
  )

  datatype Reply = Reply(inputTokens: nat, outputTokens: nat, text: string)

  /** What parse_analysis_output makes of a reply. */
  datatype Reading = Malformed | Refused(message: string) | Read(output: string)

  datatype AnalysisError =
    | NotOneDocument
    | BudgetExceeded
    | CallFailed
    | MalformedResponse
    | AnalysisRefused(message: string)

  datatype AnalysisRun = AnalysisRun(output: string, cacheHit: bool, cost: real)

  const PROVIDER := "anthropic"
  const OPERATION := "analysis"
  const CHARS_PER_TOKEN := 4

  function KeyOf(job: Job): CacheKey
    requires |job.documents| == 1
  {
    CacheKey(job.documents[0], job.promptVersion, job.modelId, job.schemaVersion, job.validatorVersion)
  }

  function Price(inputTokens: nat, outputTokens: nat, job: Job): real {
    inputTokens as real / 1000000.0 * job.inputPrice + outputTokens as real / 1000000.0 * job.outputPrice
  }

  function Estimate(job: Job): real {
    Price(job.promptChars / CHARS_PER_TOKEN, job.maxOutputTokens, job)
  }

  function RealCost(job: Job, reply: Reply): real {
    Price(reply.inputTokens, reply.outputTokens, job)
  }

  function HitEntry(job: Job): CostEntry {
    CostEntry(PROVIDER, OPERATION, 0, 0.0, job.at, job.runId, true)
  }

  function CallEntry(job: Job, reply: Reply): CostEntry {
    CostEntry(PROVIDER, OPERATION, reply.inputTokens + reply.outputTokens, RealCost(job, reply), job.at, job.runId,
              false)
  }

  /** Both stores as values. */
  datatype Desk = Desk(entries: seq<CostEntry>, cache: Entries)

  /** Where a request goes: answered from the cache, stopped, or called. */
  datatype Route = Stopped(why: AnalysisError) | Hit(cached: Cached) | Called(reply: Reply)

  /** `reply` is what the model would answer; None if the call itself fails. */
  function RouteOf(clock: Clock, budget: Budget, d: Desk, job: Job, reply: Option<Reply>): Route {
    if |job.documents| != 1 then Stopped(NotOneDocument)
    else if KeyOf(job) in d.cache then Hit(d.cache[KeyOf(job)])
    else if WouldExceed(clock, budget, d.entries, Estimate(job), clock.dateOf(job.at)) then Stopped(BudgetExceeded)
    else if reply.None? then Stopped(CallFailed)
    else Called(reply.value)
  }

  function CachedFor(job: Job, reply: Reply, reading: Reading): Option<Cached> {
    match reading
    case Malformed => None
    case Refused(message) => Some(Refusal(message, reply.inputTokens, reply.outputTokens, RealCost(job, reply)))
    case Read(output) => Some(Accepted(output))
  }

  function After(clock: Clock, budget: Budget, parse: string -> Reading, d: Desk, job: Job, reply: Option<Reply>)
    : Desk
  {
    match RouteOf(clock, budget, d, job, reply)
    case Stopped(_) => d
    case Hit(_) => d.(entries := d.entries + [HitEntry(job)])
    case Called(r) =>
      var cached := CachedFor(job, r, parse(r.text));
      Desk(d.entries + [CallEntry(job, r)],
           if |job.documents| == 1 && cached.Some? then d.cache[KeyOf(job) := cached.value] else d.cache)
  }

  function Answer(clock: Clock, budget: Budget, parse: string -> Reading, d: Desk, job: Job, reply: Option<Reply>)
    : Result<AnalysisRun, AnalysisError>
  {
    match RouteOf(clock, budget, d, job, reply)
    case Stopped(why) => Err(why)
    case Hit(Accepted(output)) => Ok(AnalysisRun(output, true, 0.0))
    case Hit(Refusal(message, _, _, _)) => Err(AnalysisRefused(message))
    case Called(r) =>
      match parse(r.text)
      case Malformed => Err(MalformedResponse)
      case Refused(message) => Err(AnalysisRefused(message))
      case Read(output) => Ok(AnalysisRun(output, false, RealCost(job, r)))
  }

  method RunAnalysis(ledger: CostLedger, cache: ExtractionCacheStore, parse: string -> Reading, job: Job,
                     reply: Option<Reply>)
    returns (r: Result<AnalysisRun, AnalysisError>)
    requires ledger.Valid() && cache.Valid()
    modifies ledger, cache
    ensures ledger.Valid() && cache.Valid()
    ensures var before := old(Desk(ledger.entries, cache.entries));
            && Desk(ledger.entries, cache.entries) == After(ledger.clock, ledger.budget, parse, before, job, reply)
            && r == Answer(ledger.clock, ledger.budget, parse, before, job, reply)
  {
    if |job.documents| != 1 {
      return Err(NotOneDocument);
    }
    var key := KeyOf(job);
    var cached := cache.Get(key);
    if cached.Some? {
      ledger.Record(HitEntry(job));
      match cached.value {
        case Refusal(message, _, _, _) => return Err(AnalysisRefused(message));
        case Accepted(output) => return Ok(AnalysisRun(output, true, 0.0));
      }
    }
    var exceeds := ledger.WouldExceedHardStop(Estimate(job), ledger.clock.dateOf(job.at));
    if exceeds {
      return Err(BudgetExceeded);
    }
    if reply.None? {
      return Err(CallFailed);
    }
    var response := reply.value;
    ledger.Record(CallEntry(job, response));
    match parse(response.text) {
      case Malformed =>
        return Err(MalformedResponse);
      case Refused(message) =>
        cache.Put(key, Refusal(message, response.inputTokens, response.outputTokens, RealCost(job, response)));
        return Err(AnalysisRefused(message));
      case Read(output) =>
        cache.Put(key, Accepted(output));
        return Ok(AnalysisRun(output, false, RealCost(job, response)));
    }
  }

  // ---------------------------------------------------------------- runs

  /** Where a request's process may die: once the model has answered and before
      its cost is recorded, or once it is recorded and before the cache row. */
  datatype Death = Survives | DiesBeforeRecord | DiesBeforeCache

  datatype Event = Asked(job: Job, reply: Option<Reply>, death: Death) | Restarted

  /** What became of an answered call: off the record, on it but not in the
      cache, or carried to the end. */
  datatype Fate = Lost | Unremembered | Finished

  datatype Call = Call(key: CacheKey, at: Instant, estimate: real, cost: real, readable: bool, fate: Fate)

  /** The files, and for the record the calls made. */
  datatype Lab = Lab(ledgerFile: seq<CostEntry>, cacheFile: seq<Row>, desk: Desk, calls: seq<Call>)

  const OPENING := Lab([], [], Desk([], map[]), [])

  function FateOf(death: Death): Fate {
    match death
    case Survives => Finished
    case DiesBeforeRecord => Lost
    case DiesBeforeCache => Unremembered
  }

  function CallOf(parse: string -> Reading, job: Job, reply: Reply, death: Death): Call
    requires |job.documents| == 1
  {
    Call(KeyOf(job), job.at, Estimate(job), RealCost(job, reply), !parse(reply.text).Malformed?, FateOf(death))
  }

  function WithEntry(s: Lab, e: CostEntry): Lab {
    s.(ledgerFile := s.ledgerFile + [e], desk := s.desk.(entries := s.desk.entries + [e]))
  }

  function WithCached(s: Lab, key: CacheKey, cached: Option<Cached>): Lab {
    if cached.None? then s
    else s.(cacheFile := s.cacheFile + [ExtractionRow(key, cached.value)],
            desk := s.desk.(cache := s.desk.cache[key := cached.value]))
  }

  /** A new process reads both files. */
  function Reloaded(s: Lab): Lab {
    var entries := ReplayRows(s.cacheFile);
    s.(desk := Desk(s.ledgerFile, if entries.Ok? then entries.value else map[]))
  }

  /** An answered call, carried as far as its process lived. */
  function AfterCall(parse: string -> Reading, s: Lab, job: Job, reply: Reply, death: Death): Lab
    requires |job.documents| == 1
  {
    var made := s.(calls := s.calls + [CallOf(parse, job, reply, death)]);
    match death
    case DiesBeforeRecord => Reloaded(made)
    case DiesBeforeCache => Reloaded(WithEntry(made, CallEntry(job, reply)))
    case Survives =>
      WithCached(WithEntry(made, CallEntry(job, reply)), KeyOf(job), CachedFor(job, reply, parse(reply.text)))
  }

  function Next(clock: Clock, budget: Budget, parse: string -> Reading, s: Lab, e: Event): Lab {
    match e
    case Restarted => Reloaded(s)
    case Asked(job, reply, death) =>
      match RouteOf(clock, budget, s.desk, job, reply)
      case Stopped(_) => if death.Survives? then s else Reloaded(s)
      case Hit(_) =>
        if death.DiesBeforeRecord? then Reloaded(s)
        else if death.DiesBeforeCache? then Reloaded(WithEntry(s, HitEntry(job)))
        else WithEntry(s, HitEntry(job))
      case Called(r) => if |job.documents| == 1 then AfterCall(parse, s, job, r, death) else s
  }

  function Run(clock: Clock, budget: Budget, parse: string -> Reading, events: seq<Event>): Lab {
    if events == [] then OPENING
    else Next(clock, budget, parse, Run(clock, budget, parse, events[..|events| - 1]), events[|events| - 1])
  }

  /** A process that lives leaves what run_analysis leaves. */
  lemma SurvivingIsRunAnalysis(clock: Clock, budget: Budget, parse: string -> Reading, s: Lab, job: Job,
                               reply: Option<Reply>)
    ensures Next(clock, budget, parse, s, Asked(job, reply, Survives)).desk ==
            After(clock, budget, parse, s.desk, job, reply)
  {
    hide WouldExceed, CachedFor;
  }

  // ---------------------------------------------------------------- what every run keeps

  /** Calls of a day that are on the record. */
  function RecordedOn(clock: Clock, calls: seq<Call>, on: Date): nat {
    if calls == [] then 0
    else
      var last := calls[|calls| - 1];
      RecordedOn(clock, calls[..|calls| - 1], on) + if !last.fate.Lost? && clock.dateOf(last.at) == on then 1 else 0
  }

  predicate CallInMonth(clock: Clock, c: Call, on: Date) {
    clock.monthOf(clock.dateOf(c.at)) == clock.monthOf(on)
  }

  /** What the calls of a month really cost. */
  function Paid(clock: Clock, calls: seq<Call>, on: Date): real {
    if calls == [] then 0.0
    else
      var last := calls[|calls| - 1];
      Paid(clock, calls[..|calls| - 1], on) + if CallInMonth(clock, last, on) then last.cost else 0.0
  }

  /** The part of it whose record a death prevented. */
  function PaidOffRecord(clock: Clock, calls: seq<Call>, on: Date): real {
    if calls == [] then 0.0
    else
      var last := calls[|calls| - 1];
      PaidOffRecord(clock, calls[..|calls| - 1], on)
      + if last.fate.Lost? && CallInMonth(clock, last, on) then last.cost else 0.0
  }

  /** The last call of a month that is on the record. */
  function LastRecordedIn(clock: Clock, calls: seq<Call>, on: Date): Option<Call> {
    if calls == [] then None
    else
      var last := calls[|calls| - 1];
      if !last.fate.Lost? && CallInMonth(clock, last, on) then Some(last)
      else LastRecordedIn(clock, calls[..|calls| - 1], on)
  }

  /** Day and month by the ledger: its count is the recorded calls', its sum is
      everything paid but what went off the record, and it is below the hard
      stop but for what the last recorded call cost over its own estimate. */
  ghost predicate Accounted(clock: Clock, budget: Budget, entries: seq<CostEntry>, calls: seq<Call>, on: Date) {
    && AnalysesOn(clock, entries, on) == RecordedOn(clock, calls, on)
    && MonthToDate(clock, entries, on) + PaidOffRecord(clock, calls, on) == Paid(clock, calls, on)
    && match LastRecordedIn(clock, calls, on)
       case None => MonthToDate(clock, entries, on) == 0.0
       case Some(c) => MonthToDate(clock, entries, on) < budget.hardStopAt + (c.cost - c.estimate)
  }

  /** A readable call of this key that reached the cache. */
  predicate Settled(calls: seq<Call>, key: CacheKey) {
    exists i :: 0 <= i < |calls| && calls[i].key == key && calls[i].readable && calls[i].fate.Finished?
  }

  /** Once a readable call has reached the cache, its key is never called again. */
  ghost predicate SettledIsLast(calls: seq<Call>) {
    forall i, j :: 0 <= i < j < |calls| && calls[i].key == calls[j].key ==>
      !(calls[i].readable && calls[i].fate.Finished?)
  }

  ghost predicate CacheIsSettled(s: Lab) {
    forall key :: key in s.desk.cache <==> Settled(s.calls, key)
  }

  ghost predicate Kept(clock: Clock, budget: Budget, s: Lab) {
    && s.ledgerFile == s.desk.entries
    && ReplayRows(s.cacheFile) == Ok(s.desk.cache)
    && CacheIsSettled(s) && SettledIsLast(s.calls)
    && (forall on :: Accounted(clock, budget, s.desk.entries, s.calls, on))
  }

  /** Both files give back what was in memory. */
  lemma RestartChangesNothing(clock: Clock, budget: Budget, s: Lab)
    requires Kept(clock, budget, s)
    ensures Reloaded(s) == s
  {
    hide Accounted, CacheIsSettled, SettledIsLast;
  }

  lemma HitKeeps(clock: Clock, budget: Budget, s: Lab, job: Job)
    requires Kept(clock, budget, s)
    ensures Kept(clock, budget, WithEntry(s, HitEntry(job)))
  {
    hide CacheIsSettled, SettledIsLast, ReplayRows;
    var entries := s.desk.entries + [HitEntry(job)];
    SameCache(s, WithEntry(s, HitEntry(job)));
    forall on ensures Accounted(clock, budget, entries, s.calls, on) {
      assert Accounted(clock, budget, s.desk.entries, s.calls, on);
      OneMoreEntry(clock, s.desk.entries, HitEntry(job), on);
    }
  }

  lemma SameCache(s: Lab, t: Lab)
    requires CacheIsSettled(s) && t.desk.cache == s.desk.cache && t.calls == s.calls
    ensures CacheIsSettled(t)
  {
  }

  lemma {:induction false} SameMonthSameSpend(clock: Clock, entries: seq<CostEntry>, a: Date, b: Date)
    ensures clock.monthOf(a) == clock.monthOf(b) ==> MonthToDate(clock, entries, a) == MonthToDate(clock, entries, b)
  {
    if entries != [] {
      SameMonthSameSpend(clock, entries[..|entries| - 1], a, b);
    }
  }

  /** A recorded call, admitted by the budget check on its own estimate. */
  lemma RecordedCallKeeps(clock: Clock, budget: Budget, entries: seq<CostEntry>, calls: seq<Call>, job: Job,
                          reply: Reply, call: Call, on: Date)
    requires Accounted(clock, budget, entries, calls, on)
    requires !WouldExceed(clock, budget, entries, Estimate(job), clock.dateOf(job.at))
    requires call.at == job.at && call.estimate == Estimate(job) && call.cost == RealCost(job, reply)
    requires !call.fate.Lost?
    ensures Accounted(clock, budget, entries + [CallEntry(job, reply)], calls + [call], on)
  {
    OneMoreEntry(clock, entries, CallEntry(job, reply), on);
    SameMonthSameSpend(clock, entries, on, clock.dateOf(job.at));
    assert (calls + [call])[..|calls|] == calls;
    hide RealCost, Estimate, MonthToDate, AnalysesOn;
  }

  /** A call whose cost went off the record leaves the ledger's figures alone. */
  lemma LostCallKeeps(clock: Clock, budget: Budget, entries: seq<CostEntry>, calls: seq<Call>, call: Call, on: Date)
    requires Accounted(clock, budget, entries, calls, on) && call.fate.Lost?
    ensures Accounted(clock, budget, entries, calls + [call], on)
  {
    assert (calls + [call])[..|calls|] == calls;
    hide MonthToDate, AnalysesOn;
  }

  lemma SettledOneMore(calls: seq<Call>, call: Call)
    ensures forall key :: Settled(calls + [call], key) <==>
                          Settled(calls, key) || (call.key == key && call.readable && call.fate.Finished?)
  {
    var all := calls + [call];
    forall key
      ensures Settled(all, key) <==> Settled(calls, key) || (call.key == key && call.readable && call.fate.Finished?)
    {
      if Settled(calls, key) {
        var i :| 0 <= i < |calls| && calls[i].key == key && calls[i].readable && calls[i].fate.Finished?;
        assert all[i] == calls[i];
      }
      if call.key == key && call.readable && call.fate.Finished? {
        assert all[|calls|] == call;
      }
    }
  }

  /** A call is made only for a key that is not settled. */
  lemma CallExtends(calls: seq<Call>, call: Call)
    requires SettledIsLast(calls) && !Settled(calls, call.key)
    ensures SettledIsLast(calls + [call])
  {
  }

  lemma CallKeeps(clock: Clock, budget: Budget, parse: string -> Reading, s: Lab, job: Job, reply: Reply, death: Death)
    requires Kept(clock, budget, s) && RouteOf(clock, budget, s.desk, job, Some(reply)) == Called(reply)
    ensures Kept(clock, budget, AfterCall(parse, s, job, reply, death))
  {
    hide Accounted, SettledIsLast, Settled, ReplayRows, Estimate, RealCost;
    var call := CallOf(parse, job, reply, death);
    var calls := s.calls + [call];
    CallExtends(s.calls, call);
    SettledOneMore(s.calls, call);
    forall on
      ensures death.DiesBeforeRecord? ==> Accounted(clock, budget, s.desk.entries, calls, on)
      ensures !death.DiesBeforeRecord? ==> Accounted(clock, budget, s.desk.entries + [CallEntry(job, reply)], calls, on)
    {
      if death.DiesBeforeRecord? {
        LostCallKeeps(clock, budget, s.desk.entries, s.calls, call, on);
      } else {
        RecordedCallKeeps(clock, budget, s.desk.entries, s.calls, job, reply, call, on);
      }
    }
    var cached := CachedFor(job, reply, parse(reply.text));
    if cached.Some? {
      ReplayOneMore(s.cacheFile, ExtractionRow(KeyOf(job), cached.value));
    }
  }

  lemma EventKeeps(clock: Clock, budget: Budget, parse: string -> Reading, s: Lab, e: Event)
    requires Kept(clock, budget, s)
    ensures Kept(clock, budget, Next(clock, budget, parse, s, e))
  {
    hide Kept, AfterCall, WithEntry, Reloaded;
    RestartChangesNothing(clock, budget, s);
    match e
    case Restarted =>
    case Asked(job, reply, death) =>
      match RouteOf(clock, budget, s.desk, job, reply)
      case Stopped(_) =>
      case Hit(_) =>
        HitKeeps(clock, budget, s, job);
        RestartChangesNothing(clock, budget, WithEntry(s, HitEntry(job)));
      case Called(r) => CallKeeps(clock, budget, parse, s, job, r, death);
  }

  lemma {:induction false} RunIsKept(clock: Clock, budget: Budget, parse: string -> Reading, events: seq<Event>)
    ensures Kept(clock, budget, Run(clock, budget, parse, events))
  {
    hide Next, Kept;
    if events == [] {
      OpeningIsKept(clock, budget);
    } else {
      RunIsKept(clock, budget, parse, events[..|events| - 1]);
      EventKeeps(clock, budget, parse, Run(clock, budget, parse, events[..|events| - 1]), events[|events| - 1]);
    }
  }

  lemma OpeningIsKept(clock: Clock, budget: Budget)
    ensures Kept(clock, budget, OPENING)
  {
  }

  // ---------------------------------------------------------------- pay once, and when not

  /** Calls i and j are both readable and for one key. */
  predicate SamePurchase(calls: seq<Call>, i: int, j: int) {
    0 <= i < |calls| && 0 <= j < |calls| && calls[i].key == calls[j].key && calls[i].readable && calls[j].readable
  }

  /** Call j paid for a key that a readable call had paid for before. */
  predicate PaidAgain(calls: seq<Call>, j: int) {
    exists i :: 0 <= i < j && SamePurchase(calls, i, j)
  }

  /** A death had kept an earlier readable call of the same key from the cache. */
  predicate LeftOpen(calls: seq<Call>, j: int) {
    exists i :: 0 <= i < j && SamePurchase(calls, i, j) && !calls[i].fate.Finished?
  }

  /** Pay once, exactly. Over any run, deaths anywhere included, a readable call
      pays for its key again if and only if a death kept an earlier readable call
      of that key from the cache; and every day and month is accounted for by
      the calls made, with the bound on the ledger's own sum. */
  lemma PayOnce(clock: Clock, budget: Budget, parse: string -> Reading, events: seq<Event>)
    ensures var calls := Run(clock, budget, parse, events).calls;
            forall j :: 0 <= j < |calls| ==> (PaidAgain(calls, j) <==> LeftOpen(calls, j))
    ensures var calls := Run(clock, budget, parse, events).calls;
            forall i, j :: 0 <= i < j < |calls| && SamePurchase(calls, i, j) ==> !calls[i].fate.Finished?
    ensures var s := Run(clock, budget, parse, events);
            && (forall on :: Accounted(clock, budget, s.desk.entries, s.calls, on))
            && s.ledgerFile == s.desk.entries && ReplayRows(s.cacheFile) == Ok(s.desk.cache)
  {
    RunIsKept(clock, budget, parse, events);
    hide Run, Accounted, ReplayRows, Settled, CacheIsSettled;
    var calls := Run(clock, budget, parse, events).calls;
    forall i, j | 0 <= i < j < |calls| && SamePurchase(calls, i, j) ensures !calls[i].fate.Finished? {
    }
  }

  /** With no death in the run, no key has two readable calls. */
  lemma WithoutDeathsPaidOnce(clock: Clock, budget: Budget, parse: string -> Reading, events: seq<Event>)
    requires forall e :: e in events && e.Asked? ==> e.death.Survives?
    ensures var calls := Run(clock, budget, parse, events).calls;
            && (forall c :: c in calls ==> c.fate.Finished?)
            && (forall i, j :: 0 <= i < j < |calls| ==> !SamePurchase(calls, i, j))
  {
    PayOnce(clock, budget, parse, events);
    AllFinished(clock, budget, parse, events);
    hide Run, Accounted;
  }

  lemma {:induction false} AllFinished(clock: Clock, budget: Budget, parse: string -> Reading, events: seq<Event>)
    requires forall e :: e in events && e.Asked? ==> e.death.Survives?
    ensures forall c :: c in Run(clock, budget, parse, events).calls ==> c.fate.Finished?
  {
    if events != [] {
      assert events[|events| - 1] in events;
      AllFinished(clock, budget, parse, events[..|events| - 1]);
      hide RouteOf;
    }
  }

  /** Who pays next: a request within the budget and answered pays for its key
      if and only if every readable call of that key so far died before the cache. */
  lemma PaysUnlessSettled(clock: Clock, budget: Budget, parse: string -> Reading, events: seq<Event>, job: Job,
                          reply: Reply)
    requires |job.documents| == 1
    requires var entries := Run(clock, budget, parse, events).desk.entries;
             !WouldExceed(clock, budget, entries, Estimate(job), clock.dateOf(job.at))
    ensures var s := Run(clock, budget, parse, events);
            RouteOf(clock, budget, s.desk, job, Some(reply)) == Called(reply) <==>
            forall c :: c in s.calls && c.key == KeyOf(job) && c.readable ==> !c.fate.Finished?
  {
    RunIsKept(clock, budget, parse, events);
    hide Run, Accounted, ReplayRows, SettledIsLast, WouldExceed;
  }

  // ---------------------------------------------------------------- the hard stop

  predicate Priced(e: Event) {
    e.Asked? ==> e.job.inputPrice >= 0.0 && e.job.outputPrice >= 0.0
  }

  /** Later calls only, and none of them in the month of a date. */
  ghost predicate NoNewCallIn(clock: Clock, calls: seq<Call>, later: seq<Call>, on: Date) {
    calls <= later && forall i :: |calls| <= i < |later| ==> !CallInMonth(clock, later[i], on)
  }

  lemma ProductIsNotNegative(x: real, y: real)
    requires x >= 0.0 && y >= 0.0
    ensures x * y >= 0.0
  {
  }

  lemma EstimateIsNotNegative(job: Job)
    requires job.inputPrice >= 0.0 && job.outputPrice >= 0.0
    ensures Estimate(job) >= 0.0
  {
    ProductIsNotNegative((job.promptChars / CHARS_PER_TOKEN) as real / 1000000.0, job.inputPrice);
    ProductIsNotNegative(job.maxOutputTokens as real / 1000000.0, job.outputPrice);
  }

  /** A call made past the hard stop is in another month. */
  lemma CalledIsElsewhere(clock: Clock, budget: Budget, s: Lab, job: Job, reply: Reply, on: Date)
    requires job.inputPrice >= 0.0 && job.outputPrice >= 0.0
    requires StateOn(clock, budget, s.desk.entries, on).HardStop?
    requires RouteOf(clock, budget, s.desk, job, Some(reply)) == Called(reply)
    ensures clock.monthOf(clock.dateOf(job.at)) != clock.monthOf(on)
    ensures MonthToDate(clock, s.desk.entries + [CallEntry(job, reply)], on) == MonthToDate(clock, s.desk.entries, on)
  {
    EstimateIsNotNegative(job);
    BrakeIsTheHardStop(clock, budget, s.desk.entries, Estimate(job), clock.dateOf(job.at));
    SameMonthSameSpend(clock, s.desk.entries, on, clock.dateOf(job.at));
    OneMoreEntry(clock, s.desk.entries, CallEntry(job, reply), on);
    hide Estimate, RealCost, MonthToDate, WouldExceed;
  }

  lemma EntriesAfterCall(parse: string -> Reading, s: Lab, job: Job, reply: Reply, death: Death)
    requires |job.documents| == 1 && s.ledgerFile == s.desk.entries
    ensures var after := AfterCall(parse, s, job, reply, death);
            && after.calls == s.calls + [CallOf(parse, job, reply, death)]
            && after.desk.entries == if death.DiesBeforeRecord? then s.desk.entries
               else s.desk.entries + [CallEntry(job, reply)]
  {
    hide CallEntry, CallOf, CachedFor, ReplayRows;
  }

  lemma HardStopHolds(clock: Clock, budget: Budget, parse: string -> Reading, s: Lab, e: Event, on: Date)
    requires s.ledgerFile == s.desk.entries && Priced(e) && StateOn(clock, budget, s.desk.entries, on).HardStop?
    ensures var after := Next(clock, budget, parse, s, e);
            && MonthToDate(clock, after.desk.entries, on) == MonthToDate(clock, s.desk.entries, on)
            && NoNewCallIn(clock, s.calls, after.calls, on)
  {
    hide RealCost, Estimate, MonthToDate, StateOn, CachedFor, AfterCall, ReplayRows, WouldExceed;
    if e.Asked? {
      match RouteOf(clock, budget, s.desk, e.job, e.reply)
      case Stopped(_) =>
      case Hit(_) => OneMoreEntry(clock, s.desk.entries, HitEntry(e.job), on);
      case Called(r) =>
        CalledIsElsewhere(clock, budget, s, e.job, r, on);
        EntriesAfterCall(parse, s, e.job, r, e.death);
    }
  }

  /** The hard stop is final for its month: however the run goes on, with deaths
      and restarts anywhere, no further call is made in that month and its sum
      stays where it is. */
  lemma {:induction false} HardStopIsFinal(clock: Clock, budget: Budget, parse: string -> Reading, events: seq<Event>,
                                           n: nat, on: Date)
    requires n <= |events| && forall e :: e in events ==> Priced(e)
    requires StateOn(clock, budget, Run(clock, budget, parse, events[..n]).desk.entries, on).HardStop?
    ensures var early, late := Run(clock, budget, parse, events[..n]), Run(clock, budget, parse, events);
            && MonthToDate(clock, late.desk.entries, on) == MonthToDate(clock, early.desk.entries, on)
            && StateOn(clock, budget, late.desk.entries, on).HardStop?
            && NoNewCallIn(clock, early.calls, late.calls, on)
    decreases |events|
  {
    hide Next, Accounted, CacheIsSettled, SettledIsLast, ReplayRows, MonthToDate, Priced, CallInMonth;
    if n == |events| {
      assert events[..n] == events;
    } else {
      var front := events[..|events| - 1];
      assert front[..n] == events[..n];
      HardStopIsFinal(clock, budget, parse, front, n, on);
      RunIsKept(clock, budget, parse, front);
      HardStopHolds(clock, budget, parse, Run(clock, budget, parse, front), events[|events| - 1], on);
    }
  }

  // ---------------------------------------------------------------- a death that pays twice, concretely

  const SAMPLE_BUDGET := Budget(30.0, 20.0, 30.0)
  const SAMPLE_JOB := Job(["filing"], "p1", "m1", "s1", "v1", 4000, 1000, 3.0, 15.0, 0, None)
  const SAMPLE_REPLY := Reply(1000, 1000, "{}")

  lemma SampleCosts()
    ensures Estimate(SAMPLE_JOB) == 0.018 && RealCost(SAMPLE_JOB, SAMPLE_REPLY) == 0.018
  {
  }

  /** A death between the record and the cache row, then the same request again:
      both calls are on the record, and both were paid for one key. */
  lemma DeathBeforeCachePaysTwice(clock: Clock, parse: string -> Reading)
    requires parse("{}").Read?
    ensures var first := Asked(SAMPLE_JOB, Some(SAMPLE_REPLY), DiesBeforeCache);
            var second := Asked(SAMPLE_JOB, Some(SAMPLE_REPLY), Survives);
            var s := Run(clock, SAMPLE_BUDGET, parse, [first, second]);
            && |s.calls| == 2 && SamePurchase(s.calls, 0, 1)
            && AnalysesOn(clock, s.desk.entries, clock.dateOf(0)) == 2
            && MonthToDate(clock, s.desk.entries, clock.dateOf(0)) == 0.036
  {
    hide Estimate, RealCost, Price, AnalysesOn, MonthToDate;
    var first := Asked(SAMPLE_JOB, Some(SAMPLE_REPLY), DiesBeforeCache);
    var second := Asked(SAMPLE_JOB, Some(SAMPLE_REPLY), Survives);
    var entry, today := CallEntry(SAMPLE_JOB, SAMPLE_REPLY), clock.dateOf(0);
    SampleCosts();
    assert [first, second][..1] == [first] && [first][..0] == [];
    NothingSpent(clock, today);
    OneMoreEntry(clock, [], entry, today);
    OneMoreEntry(clock, [entry], entry, today);
    assert [] + [entry] == [entry] && [entry] + [entry] == [entry, entry];
    assert Run(clock, SAMPLE_BUDGET, parse, []) == OPENING;
    var s1 := Run(clock, SAMPLE_BUDGET, parse, [first]);
    FirstDies(clock, parse);
    assert s1 == AfterCall(parse, OPENING, SAMPLE_JOB, SAMPLE_REPLY, DiesBeforeCache);
    assert RouteOf(clock, SAMPLE_BUDGET, s1.desk, SAMPLE_JOB, Some(SAMPLE_REPLY)) == Called(SAMPLE_REPLY);
    var s2 := Run(clock, SAMPLE_BUDGET, parse, [first, second]);
    assert s2 == AfterCall(parse, s1, SAMPLE_JOB, SAMPLE_REPLY, Survives);
    assert s2.desk.entries == [entry, entry];
  }

  lemma NothingSpent(clock: Clock, on: Date)
    ensures MonthToDate(clock, [], on) == 0.0 && AnalysesOn(clock, [], on) == 0
  {
  }

  lemma FirstDies(clock: Clock, parse: string -> Reading)
    requires parse("{}").Read?
    ensures RouteOf(clock, SAMPLE_BUDGET, OPENING.desk, SAMPLE_JOB, Some(SAMPLE_REPLY)) == Called(SAMPLE_REPLY)
    ensures var s := AfterCall(parse, OPENING, SAMPLE_JOB, SAMPLE_REPLY, DiesBeforeCache);
            && s.desk == Desk([CallEntry(SAMPLE_JOB, SAMPLE_REPLY)], map[])
            && s.calls == [CallOf(parse, SAMPLE_JOB, SAMPLE_REPLY, DiesBeforeCache)]
  {
    hide RealCost;
    assert Estimate(SAMPLE_JOB) == 0.018;
  }
}
