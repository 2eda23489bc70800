/** `StockAutoCollector`: the same start/stop flag and watch-list as the
    scheduler, but a round first builds one task per symbol until the flag
    is seen cleared, then gathers their results and adds the round's counts
    to the cumulative counters. The HTTP call, the event loop and the save
    are not modelled: their outcomes are inputs. */
module AutoCollector {
  import opened Common
  import opened WatchList

  /** What a gathered task yields: an exception object, or the boolean the
      single-stock coroutine returned. */
  datatype TaskResult = Raised | Returned(ok: bool)

  /** The response of the service's own quote endpoint: a status and its
      JSON body read as numbers, or a transport failure. The body is None
      when reading it raises: it is not JSON, or a price field holds null or
      something `float()` refuses. */
  datatype HttpOutcome = Reply(status: int, data: Option<map<string, real>>) | TransportError

  /** The record handed to the save: the symbol and seven price fields. */
  datatype QuoteRecord = QuoteRecord(symbol: string, c: real, d: real, dp: real,
                                     h: real, l: real, o: real, pc: real)

  /** What one single-stock collection does: whether it reports success, and
      the record it hands to the save, if it gets that far. */
  datatype Collected = Collected(ok: bool, saved: Option<QuoteRecord>)

  datatype Wait = Sleep(seconds: real) | Overrun

  datatype CollectorStatus = CollectorStatus(
    isRunning: bool, apiEndpoint: string, monitoredSymbols: nat,
    successCount: nat, errorCount: nat, totalProcessed: nat, successRate: real)

  const QuoteFields: seq<string> := ["c", "d", "dp", "h", "l", "o", "pc"]

  /** The record field named by a response key. */
  function Field(q: QuoteRecord, key: string): real
  {
    match key
    case "c" => q.c
    case "d" => q.d
    case "dp" => q.dp
    case "h" => q.h
    case "l" => q.l
    case "o" => q.o
    case _ => q.pc
  }

  /** The mapping of lines 149-158: every price field is read with a
      default of 0. */
  function QuoteRecordOf(symbol: string, data: map<string, real>): (q: QuoteRecord)
    ensures q.symbol == symbol
    ensures forall k :: k in QuoteFields ==> Field(q, k) == GetOr(data, k, 0.0)
  {
    QuoteRecord(symbol, GetOr(data, "c", 0.0), GetOr(data, "d", 0.0), GetOr(data, "dp", 0.0),
                 GetOr(data, "h", 0.0), GetOr(data, "l", 0.0), GetOr(data, "o", 0.0),
                 GetOr(data, "pc", 0.0))
  }

  /** `_collect_single_stock`: success exactly when the endpoint answered
      200 with a readable body and the save reported success; any other
      status, an unreadable body or a transport failure reports failure
      without saving. */
  function CollectSingleStock(symbol: string, response: HttpOutcome, saveOk: bool): (r: Collected)
    ensures r.ok <==> response.Reply? && response.status == 200 && response.data.Some? && saveOk
    ensures r.saved.Some? <==> response.Reply? && response.status == 200 && response.data.Some?
    ensures r.saved.Some? ==> r.saved.value == QuoteRecordOf(symbol, response.data.value)
  {
    match response
    case TransportError => Collected(false, None)
    case Reply(status, data) =>
      if status != 200 then Collected(false, None)
      else if data.None? then Collected(false, None)
      else Collected(saveOk, Some(QuoteRecordOf(symbol, data.value)))
  }

  /** A result counts as a success only when the task returned a truthy
      value. */
  predicate IsSuccess(r: TaskResult)
  {
    r.Returned? && r.ok
  }

  function CountSuccess(rs: seq<TaskResult>): (n: nat)
    ensures n <= |rs|
  {
    if |rs| == 0 then 0
    else CountSuccess(rs[..|rs| - 1]) + (if IsSuccess(rs[|rs| - 1]) then 1 else 0)
  }

  function CountError(rs: seq<TaskResult>): (n: nat)
    ensures n <= |rs|
  {
    if |rs| == 0 then 0
    else CountError(rs[..|rs| - 1]) + (if IsSuccess(rs[|rs| - 1]) then 0 else 1)
  }

  /** Each result is classified exactly once. */
  lemma {:induction false} EveryResultClassifiedOnce(rs: seq<TaskResult>)
    ensures CountSuccess(rs) + CountError(rs) == |rs|
  {
    if |rs| > 0 {
      EveryResultClassifiedOnce(rs[..|rs| - 1]);
    }
  }

  /** The wait after a round: the code fixes the remaining time at 60
      seconds, so the round always sleeps a full minute and the overrun
      branch is never taken, however long the round took. */
  function RoundWait(elapsed: real): (w: Wait)
    ensures w.Sleep? && w.seconds == 60.0
  {
    var remaining := 60.0;
    if remaining > 0.0 then Sleep(remaining) else Overrun
  }

  /** The endpoint the collector calls. */
  function BaseUrl(host: string, port: string): string
  {
    "http://" + host + ":" + port + "/api/stocks/quote"
  }

  /** The task list of lines 106-111: one task per watch-list symbol, in
      order, until the running flag is read as false. */
  method BuildTasks(flags: seq<bool>) returns (tasks: seq<string>)
    requires |flags| == |MostActiveStocks|
    ensures tasks == MostActiveStocks[..StopIndex(flags)]
  {
    tasks := TasksOver(MostActiveStocks, flags);
  }

  /** The same loop over a given symbol list. */
  method TasksOver(symbols: seq<string>, flags: seq<bool>) returns (tasks: seq<string>)
    requires |flags| == |symbols|
    ensures tasks == symbols[..StopIndex(flags)]
  {
    tasks := [];
    var i := 0;
    while i < |symbols|
      invariant 0 <= i <= |symbols|
      invariant forall j :: 0 <= j < i ==> flags[j]
      invariant tasks == symbols[..i]
    {
      if !flags[i] {
        break;
      }
      tasks := tasks + [symbols[i]];
      i := i + 1;
    }
    StopIndexUnique(flags, i);
  }

  /** The result loop of lines 117-131: an exception or a falsy result is
      an error, a truthy one a success, and nothing is skipped. */
  method TallyResults(gathered: seq<TaskResult>) returns (roundSuccess: nat, roundErrors: nat)
    ensures roundSuccess == CountSuccess(gathered)
    ensures roundErrors == CountError(gathered)
    ensures roundSuccess + roundErrors == |gathered|
  {
    roundSuccess, roundErrors := 0, 0;
    var k := 0;
    while k < |gathered|
      invariant 0 <= k <= |gathered|
      invariant roundSuccess == CountSuccess(gathered[..k])
      invariant roundErrors == CountError(gathered[..k])
    {
      assert gathered[..k + 1][..k] == gathered[..k];
      if gathered[k].Raised? {
        roundErrors := roundErrors + 1;
      } else if gathered[k].ok {
        roundSuccess := roundSuccess + 1;
      } else {
        roundErrors := roundErrors + 1;
      }
      k := k + 1;
    }
    assert gathered[..k] == gathered;
    EveryResultClassifiedOnce(gathered);
  }

  class StockAutoCollector {
    const host: string
    const port: string
    const baseUrl: string
    var isRunning: bool
    var threadsStarted: nat
    /** Initialised and reported nowhere else; no round changes it. */
    var processedCount: nat
    var successCount: nat
    var errorCount: nat

    constructor (host: string, port: string)
      ensures this.host == host && this.port == port && baseUrl == BaseUrl(host, port)
      ensures !isRunning && threadsStarted == 0
      ensures processedCount == 0 && successCount == 0 && errorCount == 0
    {
      this.host, this.port := host, port;
      baseUrl := BaseUrl(host, port);
      isRunning, threadsStarted := false, 0;
      processedCount, successCount, errorCount := 0, 0, 0;
    }

    /** `start_collector`: a no-op while running. */
    method StartCollector()
      modifies this
      ensures old(isRunning) ==> unchanged(this)
      ensures !old(isRunning) ==> isRunning && threadsStarted == old(threadsStarted) + 1
      ensures successCount == old(successCount) && errorCount == old(errorCount)
      ensures processedCount == old(processedCount)
    {
      if isRunning {
        return;
      }
      isRunning := true;
      threadsStarted := threadsStarted + 1;
    }

    /** `stop_collector`: clears the flag; the counters are kept. */
    method StopCollector()
      modifies this
      ensures !isRunning && threadsStarted == old(threadsStarted)
      ensures successCount == old(successCount) && errorCount == old(errorCount)
      ensures processedCount == old(processedCount)
    {
      isRunning := false;
    }

    /** `_collect_all_stocks`. `flags[i]` is the running flag as read before
        the task for symbol i is built and `results[i]` what that task would
        yield. The tasks are the watch-list up to the first false reading;
        every gathered result is counted once, as a success or an error,
        and the cumulative counters grow by the round's counts. */
    method CollectAllStocks(flags: seq<bool>, results: seq<TaskResult>)
      returns (tasks: seq<string>, roundSuccess: nat, roundErrors: nat)
      requires |flags| == |MostActiveStocks| && |results| == |MostActiveStocks|
      modifies this
      ensures tasks == MostActiveStocks[..StopIndex(flags)]
      ensures roundSuccess == CountSuccess(results[..|tasks|])
      ensures roundErrors == CountError(results[..|tasks|])
      ensures roundSuccess + roundErrors == |tasks|
      ensures successCount == old(successCount) + roundSuccess
      ensures errorCount == old(errorCount) + roundErrors
      ensures isRunning == old(isRunning) && threadsStarted == old(threadsStarted)
      ensures processedCount == old(processedCount)
    {
      tasks := BuildTasks(flags);
      roundSuccess, roundErrors := TallyResults(results[..|tasks|]);
      successCount := successCount + roundSuccess;
      errorCount := errorCount + roundErrors;
    }

    /** `get_status`: the total is the sum of the two counters and the rate
        is the share of successes in it, in percent (0 before any). */
    function GetStatus(): (s: CollectorStatus)
      reads this
      ensures s.isRunning == isRunning && s.apiEndpoint == baseUrl && s.monitoredSymbols == 50
      ensures s.successCount == successCount && s.errorCount == errorCount
      ensures s.totalProcessed == successCount + errorCount
      ensures s.totalProcessed == 0 ==> s.successRate == 0.0
      ensures s.successRate * s.totalProcessed as real == 100.0 * successCount as real
      ensures 0.0 <= s.successRate <= 100.0
    {
      var total := successCount + errorCount;
      CollectorStatus(isRunning, baseUrl, |MostActiveStocks|, successCount, errorCount,
                      total, Percent(successCount, total))
    }
  }
}
