/** Worker liveness: the status snapshot polled from the contract, the
    trailing block window in which recent result events mark the off-chain
    worker as online, and the updates the contract's events push. */
module Liveness {
  import opened Base

  datatype ROFLStatus = ROFLStatus(
    isEnabled: bool,
    appId: Option<string>,
    workerAddress: Option<string>,
    isOnline: bool,
    lastActivity: Option<int>,  // a timestamp
    processingRequests: nat,
    totalProcessed: nat)

  const InitialStatus: ROFLStatus := ROFLStatus(false, None, None, false, None, 0, 0)

  datatype PlatformStats = PlatformStats(
    totalAgents: nat,
    totalRequests: nat,
    totalFees: nat,
    feePercent: nat,
    roflActive: bool)

  const FETCH_FAILED: string := "Failed to fetch ROFL status"

  // ---------------------------------------------------------------------------
  // The scan window

  /** How many blocks back the activity check looks. */
  const SCAN_DEPTH: nat := 50

  datatype BlockRange = BlockRange(fromBlock: nat, toBlock: nat)

  /** `[max(0, currentBlock - 50), currentBlock]` */
  function ScanWindow(currentBlock: nat): (w: BlockRange)
    ensures w.toBlock == currentBlock && w.fromBlock <= currentBlock
    ensures currentBlock - w.fromBlock <= SCAN_DEPTH
    ensures w.fromBlock > 0 ==> currentBlock - w.fromBlock == SCAN_DEPTH
    ensures currentBlock < SCAN_DEPTH ==> w.fromBlock == 0
  {
    BlockRange(if currentBlock >= SCAN_DEPTH then currentBlock - SCAN_DEPTH else 0, currentBlock)
  }

  /** A `SentimentResult` event in the contract's log. */
  datatype ResultEvent = ResultEvent(block: nat, requestId: int)

  predicate InRange(e: ResultEvent, w: BlockRange)
  {
    w.fromBlock <= e.block <= w.toBlock
  }

  /** The events of `log` inside `w`, in log order (the event query). */
  function EventsInRange(log: seq<ResultEvent>, w: BlockRange): (r: seq<ResultEvent>)
    ensures forall e :: e in r <==> e in log && InRange(e, w)
    ensures |r| <= |log|
  {
    if log == [] then []
    else if InRange(log[0], w) then [log[0]] + EventsInRange(log[1..], w)
    else EventsInRange(log[1..], w)
  }

  /** `checkWorkerOnline`: some result event lies in the window ending at the
      current block. `blockNumber` is the block-number read and `query` the
      outcome of the event query; either failing means offline. */
  function WorkerOnline(blockNumber: Result<nat, Thrown>, query: Outcome<Thrown>, log: seq<ResultEvent>): (online: bool)
    ensures online <==>
      blockNumber.Success? && query.Pass? && exists e :: e in log && InRange(e, ScanWindow(blockNumber.value))
    ensures blockNumber.Failure? || query.Fail? ==> !online
  {
    match blockNumber
    case Failure(_) => false
    case Success(currentBlock) =>
      if query.Fail? then false
      else
        var events := EventsInRange(log, ScanWindow(currentBlock));
        assert |events| > 0 ==> events[0] in events;
        |events| > 0
  }

  /** A result event more than fifty blocks old does not count. */
  lemma OldEventsIgnored(currentBlock: nat, log: seq<ResultEvent>)
    requires forall e :: e in log ==> e.block + SCAN_DEPTH < currentBlock
    ensures !WorkerOnline(Success(currentBlock), Pass, log)
  {
  }

  // ---------------------------------------------------------------------------
  // The polled snapshot

  /** The monitor's state: the last snapshot, the last statistics, and the
      loading and error indicators. */
  datatype MonitorState = MonitorState(
    roflStatus: ROFLStatus,
    platformStats: Option<PlatformStats>,
    isLoading: bool,
    error: Option<string>)

  const InitialMonitor: MonitorState := MonitorState(InitialStatus, None, true, None)

  /** The contract's answers to one refresh. */
  datatype RefreshReads = RefreshReads(
    stats: Result<PlatformStats, Thrown>,           // getPlatformStats()
    appId: Result<Option<string>, Thrown>,          // expectedROFLAppId()
    workerAddress: Result<Option<string>, Thrown>,  // roflWorkerAddress(), read after the app id
    blockNumber: Result<nat, Thrown>,               // getBlockNumber()
    query: Outcome<Thrown>,                         // the event query
    log: seq<ResultEvent>)                          // the events it searches

  /** The app id and worker address: both are read in one attempt, the
      worker address only after the app id, and a failure keeps what was
      already read. Empty answers count as absent. */
  function RoflDetails(appId: Result<Option<string>, Thrown>, workerAddress: Result<Option<string>, Thrown>):
    (r: (Option<string>, Option<string>))
    ensures appId.Failure? ==> r == (None, None)
    ensures appId.Success? ==> r.0 == Truthy(appId.value)
    ensures r.1.Some? <==> appId.Success? && workerAddress.Success? && Truthy(workerAddress.value).Some?
    ensures appId.Success? && workerAddress.Success? ==> r.1 == Truthy(workerAddress.value)
  {
    match appId
    case Failure(_) => (None, None)
    case Success(a) =>
      match workerAddress
      case Failure(_) => (Truthy(a), None)
      case Success(w) => (Truthy(a), Truthy(w))
  }

  /** The snapshot a refresh assembles from the statistics it read, at time `now`. */
  function Snapshot(stats: PlatformStats, answers: RefreshReads, now: int): (r: ROFLStatus)
    ensures r.isEnabled == stats.roflActive
    ensures r.totalProcessed == stats.totalRequests
    ensures r.processingRequests == 0
    ensures r.isOnline == WorkerOnline(answers.blockNumber, answers.query, answers.log)
    ensures r.lastActivity.Some? <==> r.isOnline
    ensures r.isOnline ==> r.lastActivity == Some(now)
    ensures (r.appId, r.workerAddress) == RoflDetails(answers.appId, answers.workerAddress)
    ensures answers.appId.Failure? ==> r.appId.None? && r.workerAddress.None?
    ensures answers.appId.Success? && answers.workerAddress.Failure? ==>
      r.appId == Truthy(answers.appId.value) && r.workerAddress.None?
  {
    var (appId, workerAddress) := RoflDetails(answers.appId, answers.workerAddress);
    var online := WorkerOnline(answers.blockNumber, answers.query, answers.log);
    ROFLStatus(stats.roflActive, appId, workerAddress, online, if online then Some(now) else None,
               0, stats.totalRequests)
  }

  /** `fetchROFLStatus`: nothing happens without a bound contract and a
      connected wallet; otherwise a failed statistics read records the error
      and keeps the earlier snapshot, and a successful one replaces the whole
      snapshot and the statistics. */
  function Refreshed(m: MonitorState, bound: bool, isConnected: bool, answers: RefreshReads, now: int): MonitorState
  {
    if !bound || !isConnected then m
    else
      match answers.stats
      case Failure(t) => m.(isLoading := false, error := Some(MessageOr(t, FETCH_FAILED)))
      case Success(stats) => MonitorState(Snapshot(stats, answers, now), Some(stats), false, None)
  }

  /** A `SentimentResult` event seen at time `now`: the worker is online and
      has processed one more request. */
  function OnResult(m: MonitorState, now: int): MonitorState
  {
    m.(roflStatus := m.roflStatus.(isOnline := true, lastActivity := Some(now),
                                   totalProcessed := m.roflStatus.totalProcessed + 1))
  }

  /** The events seen at the times `times`, in order. */
  function OnResults(m: MonitorState, times: seq<int>): MonitorState
    decreases |times|
  {
    if times == [] then m else OnResult(OnResults(m, times[..|times| - 1]), times[|times| - 1])
  }

  // ---------------------------------------------------------------------------
  // Properties

  /** The monitor's invariant: a last activity is recorded exactly when the
      worker is online, and no request is counted as in progress. */
  predicate Healthy(m: MonitorState)
  {
    (m.roflStatus.lastActivity.Some? <==> m.roflStatus.isOnline) && m.roflStatus.processingRequests == 0
  }

  lemma RefreshedPreservesHealthy(m: MonitorState, bound: bool, isConnected: bool, answers: RefreshReads, now: int)
    requires Healthy(m)
    ensures Healthy(Refreshed(m, bound, isConnected, answers, now))
  {
  }

  lemma OnResultPreservesHealthy(m: MonitorState, now: int)
    requires Healthy(m)
    ensures Healthy(OnResult(m, now))
  {
  }

  /** A refresh without a bound contract or a connected wallet changes nothing. */
  lemma RefreshGuard(m: MonitorState, bound: bool, isConnected: bool, answers: RefreshReads, now: int)
    requires !bound || !isConnected
    ensures Refreshed(m, bound, isConnected, answers, now) == m
  {
  }

  /** A failed statistics read keeps the earlier snapshot and statistics and
      records the failure's message (or the fixed fallback). */
  lemma RefreshFailureKeepsSnapshot(m: MonitorState, isConnected: bool, answers: RefreshReads, now: int)
    requires isConnected && answers.stats.Failure?
    ensures
      var r := Refreshed(m, true, isConnected, answers, now);
      && r.roflStatus == m.roflStatus && r.platformStats == m.platformStats && !r.isLoading
      && r.error == Some(MessageOr(answers.stats.error, FETCH_FAILED))
  {
  }

  /** A refresh that runs ends without loading, with an error exactly when the
      statistics read failed, and with a snapshot taken from the reads
      whenever it succeeded, whatever the snapshot before. */
  lemma RefreshOutcome(m: MonitorState, m': MonitorState, answers: RefreshReads, now: int)
    ensures !Refreshed(m, true, true, answers, now).isLoading
    ensures Refreshed(m, true, true, answers, now).error.None? <==> answers.stats.Success?
    ensures answers.stats.Success? ==>
      Refreshed(m, true, true, answers, now) == Refreshed(m', true, true, answers, now)
    ensures answers.stats.Success? ==>
      Refreshed(m, true, true, answers, now).roflStatus == Snapshot(answers.stats.value, answers, now)
  {
  }

  /** A result event changes only the online flag, the last activity and the
      processed count, which grows by exactly one. */
  lemma OnResultChangesOnlyActivity(m: MonitorState, now: int)
    ensures OnResult(m, now).roflStatus.totalProcessed == m.roflStatus.totalProcessed + 1
    ensures OnResult(m, now).roflStatus.isOnline
    ensures OnResult(m, now).roflStatus.lastActivity == Some(now)
    ensures OnResult(m, now).roflStatus.isEnabled == m.roflStatus.isEnabled
    ensures OnResult(m, now).roflStatus.appId == m.roflStatus.appId
    ensures OnResult(m, now).roflStatus.workerAddress == m.roflStatus.workerAddress
    ensures OnResult(m, now).roflStatus.processingRequests == m.roflStatus.processingRequests
    ensures OnResult(m, now).platformStats == m.platformStats
    ensures OnResult(m, now).isLoading == m.isLoading && OnResult(m, now).error == m.error
  {
  }

  /** Between two refreshes, the processed count grows by the number of
      result events seen, and nothing but the activity fields changes. */
  lemma {:induction false} OnResultsCounts(m: MonitorState, times: seq<int>)
    ensures OnResults(m, times).roflStatus.totalProcessed == m.roflStatus.totalProcessed + |times|
    ensures times != [] ==> OnResults(m, times).roflStatus.isOnline
    ensures OnResults(m, times).platformStats == m.platformStats
    ensures OnResults(m, times).roflStatus.isEnabled == m.roflStatus.isEnabled
    decreases |times|
  {
    if times != [] {
      OnResultsCounts(m, times[..|times| - 1]);
    }
  }

  // ---------------------------------------------------------------------------
  // The monitor object

  class LivenessMonitor {
    var roflStatus: ROFLStatus
    var platformStats: Option<PlatformStats>
    var isLoading: bool
    var error: Option<string>
    /** Whether the event listeners are registered on the bound contract. */
    var listening: bool

    function State(): MonitorState
      reads this
    {
      MonitorState(roflStatus, platformStats, isLoading, error)
    }

    ghost predicate Valid()
      reads this
    {
      Healthy(State())
    }

    constructor ()
      ensures Valid() && State() == InitialMonitor && !listening
    {
      roflStatus := InitialStatus;
      platformStats := None;
      isLoading := true;
      error := None;
      listening := false;
    }

    /** One refresh, as one atomic step. */
    method Refresh(bound: bool, isConnected: bool, answers: RefreshReads, now: int)
      requires Valid()
      modifies this
      ensures Valid()
      ensures State() == Refreshed(old(State()), bound, isConnected, answers, now)
      ensures listening == old(listening)
    {
      if !bound || !isConnected {
        return;
      }
      isLoading := true;
      error := None;
      if answers.stats.Failure? {
        error := Some(MessageOr(answers.stats.error, FETCH_FAILED));
      } else {
        platformStats := Some(answers.stats.value);
        roflStatus := Snapshot(answers.stats.value, answers, now);
      }
      isLoading := false;
    }

    /** The effect run whenever the contract binding or the connection
        changes: a refresh, then the listeners when a contract is bound. */
    method Start(bound: bool, isConnected: bool, answers: RefreshReads, now: int)
      requires Valid()
      modifies this
      ensures Valid()
      ensures State() == Refreshed(old(State()), bound, isConnected, answers, now)
      ensures listening == bound
    {
      Refresh(bound, isConnected, answers, now);
      listening := bound;
    }

    /** The effect's cleanup: the listeners are removed. */
    method Stop()
      requires Valid()
      modifies this
      ensures Valid()
      ensures State() == old(State()) && !listening
    {
      listening := false;
    }

    /** A `SentimentResult` event reaches the listener, if registered. */
    method OnSentimentResult(now: int)
      requires Valid()
      modifies this
      ensures Valid()
      ensures listening == old(listening)
      ensures old(listening) ==> State() == OnResult(old(State()), now)
      ensures !old(listening) ==> State() == old(State())
    {
      if listening {
        OnResultPreservesHealthy(State(), now);
        roflStatus := roflStatus.(isOnline := true, lastActivity := Some(now),
                                  totalProcessed := roflStatus.totalProcessed + 1);
      }
    }

    /** A `ROFLWorkerRegistered` event reaches the listener, if registered:
        it triggers a refresh outside the polling cycle. */
    method OnWorkerRegistered(isConnected: bool, answers: RefreshReads, now: int)
      requires Valid()
      modifies this
      ensures Valid()
      ensures listening == old(listening)
      ensures old(listening) ==> State() == Refreshed(old(State()), true, isConnected, answers, now)
      ensures !old(listening) ==> State() == old(State())
    {
      if listening {
        Refresh(true, isConnected, answers, now);
      }
    }
  }
}
