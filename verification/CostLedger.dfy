/** What the model calls cost: an append-only record, scoped by month and day
    when it is asked, never when it is loaded. */
module Costs {
  import opened Wrappers
  import opened MarketCalendar

  datatype CostEntry = CostEntry(
    provider: string,
    operation: string,
    units: int,
    cost: real,
    at: Instant,
    runId: Option<string>,
    cacheHit: bool
  )

  datatype BudgetState = WithinBudget | Warning | HardStop

  datatype Budget = Budget(monthly: real, warningAt: real, hardStopAt: real)

  /** The UTC date of an instant, and the month (and year) of a date. */
  datatype Clock = Clock(dateOf: Instant -> Date, monthOf: Date -> int)

  predicate InMonth(clock: Clock, e: CostEntry, on: Date) {
    clock.monthOf(clock.dateOf(e.at)) == clock.monthOf(on)
  }

  function MonthToDate(clock: Clock, entries: seq<CostEntry>, on: Date): real {
    if entries == [] then 0.0
    else
      var last := entries[|entries| - 1];
      MonthToDate(clock, entries[..|entries| - 1], on) + if InMonth(clock, last, on) then last.cost else 0.0
  }

  predicate IsAnalysis(e: CostEntry) {
    e.provider == "anthropic" && e.operation == "analysis" && !e.cacheHit
  }

  function AnalysesOn(clock: Clock, entries: seq<CostEntry>, on: Date): nat {
    if entries == [] then 0
    else
      var last := entries[|entries| - 1];
      AnalysesOn(clock, entries[..|entries| - 1], on) + if IsAnalysis(last) && clock.dateOf(last.at) == on then 1 else 0
  }

  predicate WouldExceed(clock: Clock, budget: Budget, entries: seq<CostEntry>, estimate: real, on: Date) {
    MonthToDate(clock, entries, on) + estimate >= budget.hardStopAt
  }

  function StateOn(clock: Clock, budget: Budget, entries: seq<CostEntry>, on: Date): BudgetState {
    var spent := MonthToDate(clock, entries, on);
    if spent >= budget.hardStopAt then HardStop else if spent >= budget.warningAt then Warning else WithinBudget
  }

  lemma OneMoreEntry(clock: Clock, entries: seq<CostEntry>, e: CostEntry, on: Date)
    ensures MonthToDate(clock, entries + [e], on) ==
            MonthToDate(clock, entries, on) + if InMonth(clock, e, on) then e.cost else 0.0
    ensures AnalysesOn(clock, entries + [e], on) ==
            AnalysesOn(clock, entries, on) + if IsAnalysis(e) && clock.dateOf(e.at) == on then 1 else 0
  {
    assert (entries + [e])[..|entries|] == entries;
  }

  /** The brake: with nothing estimated it is exactly the hard stop, and asking
      about more never releases it. */
  lemma BrakeIsTheHardStop(clock: Clock, budget: Budget, entries: seq<CostEntry>, estimate: real, on: Date)
    requires estimate >= 0.0
    ensures WouldExceed(clock, budget, entries, 0.0, on) <==> StateOn(clock, budget, entries, on).HardStop?
    ensures StateOn(clock, budget, entries, on).HardStop? ==> WouldExceed(clock, budget, entries, estimate, on)
  {
  }

  class CostLedger {
    const clock: Clock
    const budget: Budget
    var entries: seq<CostEntry>
    var file: seq<CostEntry>

    /** Every entry in memory is a row of the file, in order, and nothing else is. */
    ghost predicate Valid()
      reads this
    {
      file == entries
    }

    constructor (clock: Clock, budget: Budget)
      ensures Valid() && entries == [] && this.clock == clock && this.budget == budget
    {
      this.clock, this.budget := clock, budget;
      entries, file := [], [];
    }

    method Record(e: CostEntry)
      requires Valid()
      modifies this
      ensures Valid() && entries == old(entries) + [e]
    {
      entries := entries + [e];
      file := file + [e];
    }

    method SpentInMonth(on: Date) returns (spent: real)
      ensures spent == MonthToDate(clock, entries, on)
    {
      spent := 0.0;
      for i := 0 to |entries|
        invariant spent == MonthToDate(clock, entries[..i], on)
      {
        assert entries[..i + 1][..i] == entries[..i];
        if InMonth(clock, entries[i], on) {
          spent := spent + entries[i].cost;
        }
      }
      assert entries[..|entries|] == entries;
    }

    method AnalysesToday(on: Date) returns (n: nat)
      ensures n == AnalysesOn(clock, entries, on)
    {
      n := 0;
      for i := 0 to |entries|
        invariant n == AnalysesOn(clock, entries[..i], on)
      {
        assert entries[..i + 1][..i] == entries[..i];
        if IsAnalysis(entries[i]) && clock.dateOf(entries[i].at) == on {
          n := n + 1;
        }
      }
      assert entries[..|entries|] == entries;
    }

    method WouldExceedHardStop(estimate: real, on: Date) returns (exceeds: bool)
      ensures exceeds <==> WouldExceed(clock, budget, entries, estimate, on)
    {
      var spent := SpentInMonth(on);
      exceeds := spent + estimate >= budget.hardStopAt;
    }
  }

  /** Construction over an existing file: every row, of every month. */
  method Open(clock: Clock, budget: Budget, rows: seq<CostEntry>) returns (ledger: CostLedger)
    ensures fresh(ledger) && ledger.Valid() && ledger.entries == rows
    ensures ledger.clock == clock && ledger.budget == budget
  {
    ledger := new CostLedger(clock, budget);
    for i := 0 to |rows|
      invariant ledger.entries == rows[..i]
    {
      ledger.entries := ledger.entries + [rows[i]];
    }
    ledger.file := rows;
  }
}
