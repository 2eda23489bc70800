/** `StockDataScheduler`: a start/stop flag over the 50-symbol watch-list,
    one collection cycle that attempts the symbols in order until the flag
    is seen cleared, the wait before the next cycle, and the status report.
    The thread, the sleeps and the quote service are not modelled: what one
    symbol's attempt ends in is an input. */
module SchedulerService {
  import opened Common
  import opened WatchList

  /** How the attempt for one symbol ends. */
  datatype SymbolOutcome =
    | NoData        // the cached-data lookup returned nothing
    | Saved         // data was present and the save reported success
    | SaveRejected  // data was present and the save reported failure
    | Raised        // registering, fetching or saving raised

  /** How the next cycle is scheduled. */
  datatype Wait = Sleep(seconds: real) | Overrun

  datatype SchedulerStatus = SchedulerStatus(
    isRunning: bool, monitoredSymbols: nat, processedCount: nat,
    errorCount: nat, successRate: real)

  /** Number of attempts that counted as a success. */
  function CountSaved(os: seq<SymbolOutcome>): (n: nat)
    ensures n <= |os|
  {
    if |os| == 0 then 0
    else CountSaved(os[..|os| - 1]) + (if os[|os| - 1] == Saved then 1 else 0)
  }

  /** Number of attempts that counted as an error. */
  function CountFailed(os: seq<SymbolOutcome>): (n: nat)
    ensures n <= |os|
  {
    if |os| == 0 then 0
    else CountFailed(os[..|os| - 1]) + (if os[|os| - 1] != Saved then 1 else 0)
  }

  /** Every attempted symbol lands in exactly one of the two counters. */
  lemma {:induction false} EveryAttemptCountedOnce(os: seq<SymbolOutcome>)
    ensures CountSaved(os) + CountFailed(os) == |os|
  {
    if |os| > 0 {
      EveryAttemptCountedOnce(os[..|os| - 1]);
    }
  }

  /** The wait after a cycle that took `elapsed` seconds: the rest of the
      minute, or no wait at all once the minute is used up. */
  function CycleWait(elapsed: real): (w: Wait)
    ensures w.Sleep? <==> elapsed < 60.0
    ensures w.Sleep? ==> w.seconds > 0.0 && elapsed + w.seconds == 60.0
  {
    var remaining := 60.0 - elapsed;
    if remaining > 0.0 then Sleep(remaining) else Overrun
  }

  class StockDataScheduler {
    var isRunning: bool
    /** Number of collection threads started so far. */
    var threadsStarted: nat
    /** Cumulative count of successfully saved symbols. */
    var processedCount: nat
    var errorCount: nat

    constructor ()
      ensures !isRunning && threadsStarted == 0 && processedCount == 0 && errorCount == 0
    {
      isRunning, threadsStarted, processedCount, errorCount := false, 0, 0, 0;
    }

    /** `start_scheduler`: a no-op while running; otherwise sets the flag
        and starts one thread. */
    method StartScheduler()
      modifies this
      ensures old(isRunning) ==> unchanged(this)
      ensures !old(isRunning) ==> isRunning && threadsStarted == old(threadsStarted) + 1
      ensures processedCount == old(processedCount) && errorCount == old(errorCount)
    {
      if isRunning {
        return;
      }
      isRunning := true;
      threadsStarted := threadsStarted + 1;
    }

    /** `stop_scheduler`: clears the flag; the counters are kept. */
    method StopScheduler()
      modifies this
      ensures !isRunning
      ensures threadsStarted == old(threadsStarted)
      ensures processedCount == old(processedCount) && errorCount == old(errorCount)
    {
      isRunning := false;
    }

    /** One pass of `_run_scheduler`. `flags[i]` is the running flag as read
        before symbol i (another thread may clear it meanwhile) and
        `outcomes[i]` what the attempt for symbol i would end in. The
        symbols before the first false reading are attempted in watch-list
        order; each failure adds one to `error_count` on the spot and the
        pass goes on; at the end `processed_count` grows by the pass's
        successes. */
    method RunCycle(flags: seq<bool>, outcomes: seq<SymbolOutcome>)
      returns (attempted: seq<string>, successCount: nat)
      requires |flags| == |MostActiveStocks| && |outcomes| == |MostActiveStocks|
      modifies this
      ensures attempted == MostActiveStocks[..StopIndex(flags)]
      ensures successCount == CountSaved(outcomes[..StopIndex(flags)])
      ensures processedCount == old(processedCount) + successCount
      ensures errorCount == old(errorCount) + CountFailed(outcomes[..StopIndex(flags)])
      ensures isRunning == old(isRunning) && threadsStarted == old(threadsStarted)
    {
      attempted, successCount := CycleOver(MostActiveStocks, flags, outcomes);
    }

    /** The pass over a given symbol list (the watch-list for `RunCycle`). */
    method CycleOver(symbols: seq<string>, flags: seq<bool>, outcomes: seq<SymbolOutcome>)
      returns (attempted: seq<string>, successCount: nat)
      requires |flags| == |symbols| && |outcomes| == |symbols|
      modifies this
      ensures attempted == symbols[..StopIndex(flags)]
      ensures successCount == CountSaved(outcomes[..StopIndex(flags)])
      ensures processedCount == old(processedCount) + successCount
      ensures errorCount == old(errorCount) + CountFailed(outcomes[..StopIndex(flags)])
      ensures isRunning == old(isRunning) && threadsStarted == old(threadsStarted)
    {
      attempted := [];
      successCount := 0;
      var i := 0;
      while i < |symbols|
        invariant 0 <= i <= |symbols|
        invariant forall j :: 0 <= j < i ==> flags[j]
        invariant attempted == symbols[..i]
        invariant successCount == CountSaved(outcomes[..i])
        invariant errorCount == old(errorCount) + CountFailed(outcomes[..i])
        invariant processedCount == old(processedCount)
        invariant isRunning == old(isRunning) && threadsStarted == old(threadsStarted)
      {
        if !flags[i] {
          break;
        }
        assert outcomes[..i + 1][..i] == outcomes[..i];
        if outcomes[i] == Saved {
          successCount := successCount + 1;
        } else {
          errorCount := errorCount + 1;
        }
        attempted := attempted + [symbols[i]];
        assert attempted == symbols[..i + 1];
        i := i + 1;
      }
      StopIndexUnique(flags, i);
      processedCount := processedCount + successCount;
    }

    /** `get_status`: the watch-list size, the two counters and the share
        of successes among all counted attempts in percent (0 before any). */
    function GetStatus(): (s: SchedulerStatus)
      reads this
      ensures s.isRunning == isRunning && s.monitoredSymbols == 50
      ensures s.processedCount == processedCount && s.errorCount == errorCount
      ensures processedCount + errorCount == 0 ==> s.successRate == 0.0
      ensures s.successRate * (processedCount + errorCount) as real == 100.0 * processedCount as real
      ensures 0.0 <= s.successRate <= 100.0
    {
      SchedulerStatus(isRunning, |MostActiveStocks|, processedCount, errorCount,
                      Percent(processedCount, processedCount + errorCount))
    }
  }

  /** Over one pass the two counters together grow by exactly the number of
      symbols attempted. */
  lemma CycleCountsAttempts(flags: seq<bool>, outcomes: seq<SymbolOutcome>)
    requires |flags| == |outcomes|
    ensures CountSaved(outcomes[..StopIndex(flags)]) + CountFailed(outcomes[..StopIndex(flags)])
            == StopIndex(flags)
  {
    EveryAttemptCountedOnce(outcomes[..StopIndex(flags)]);
  }
}
