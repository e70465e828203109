# SentiOasis session and liveness layer in Dafny

SentiOasis is a browser dApp. Users pick an AI agent registered on an Oasis
Sapphire contract and pay it to classify the sentiment of a text. An
off-chain ROFL worker answers through a contract event. This project models
the coordination layer between the UI and those outside parties:

- the wallet session (`walletReducer`, `connect`, the provider notifications);
- the contract session (`contractReducer`, the binding step with its
  `getAgentCount` probe, the guarded writes, agent enumeration and the result
  subscription);
- the worker liveness monitor (the polled snapshot, the 50-block activity
  window, the event-driven updates);
- the Hugging Face client (request headers, status-to-error mapping, response
  shapes, label normalisation and stable ranking, the sentiment verdict,
  model look-ups);
- the sentiment service (model precedence, per-agent and batch verdicts, use
  case recommendations, statistics);
- the configuration validators and formatters;
- the contract health check of the debugging panel;
- the bounded results feed.

The wallet, the contract, the chain and the inference API are outside the
model. Each answer they could give is a parameter: a `Result` or `Outcome`
for a call that may reject, and a function `nat -> ...` for a family of
reads. Each asynchronous handler is one atomic step. Clock readings
(`Date.now()`, `new Date()`) are parameters named `now` or `clock`.

The state holders are modelled as follows:

- Reducers are pure `Reduce` functions with a `Run` fold over action
  sequences.
- React state holders are classes. Their methods dispatch actions or assign
  fields.
- The wallet and contract sessions keep a ghost trace of dispatched actions.
  Their invariant `Valid()` says the state is the fold of that trace from the
  initial state.
- Loops in the source stay loops: `getAgents`, `batchAnalyze` and the
  in-place sort of the predictions.

Files: `base.dfy` (option, result, thrown values, JavaScript truthiness),
`text.dfy` (the string built-ins used: `includes`, ASCII `toLowerCase`,
`parseInt(_, 16)`, decimal rendering), `types.dfy`, `config.dfy`,
`wallet.dfy`, `contract.dfy`, `liveness.dfy`, `ranking.dfy`,
`huggingface.dfy`, `sentiment_analysis.dfy`, `contract_debugger.dfy`,
`results_feed.dfy`.

Where the code's behaviour may surprise, the model follows the code:

- An `accountsChanged` notification with a non-empty list is ignored. It
  does not reconnect or switch accounts (src/contexts/WalletContext.tsx:130-134).
- `INIT_START` keeps a previously bound contract while it loads
  (src/contexts/ContractContext.tsx:31-32).
- The liveness monitor starts with `isLoading` true. The flag stays true
  while no contract is bound, because the refresh returns before touching it
  (src/hooks/useROFLStatus.ts:34, 41).
- `lastActivity` is the time the refresh or the listener observed activity
  (`new Date()`), not the timestamp of the result event that showed it
  (src/hooks/useROFLStatus.ts:76, 125).
- A refresh whose app id or worker address read fails replaces known
  `appId`/`workerAddress` values with null instead of keeping them. An app id
  failure clears both; a worker address failure clears that one
  (src/hooks/useROFLStatus.ts:58-74).
- The results page never clears its entries. After a disconnect or an
  account switch it keeps the results delivered to the earlier account
  (src/pages/Results.tsx:14-28). While no wallet is connected the page's
  wallet guard renders a notice instead of them, and they reappear on
  reconnection (src/components/WalletGuard.tsx:14-40).

## Model

| member | source | states |
|---|---|---|
| Wallet.Reduce | src/contexts/WalletContext.tsx:31-55 | `walletReducer` as a function of state and action; its properties are `ReducePreservesConsistent`, `DisconnectResets`, `ChainChangedOnlyChain`, `ConnectStartKeepsConnection` and `ConnectErrorKeepsConnection` |
| Wallet.ReducePreservesConsistent | src/contexts/WalletContext.tsx:31-55 | every action keeps the session invariant: connected iff an account is held, and a connected session holds a provider and a signer |
| Wallet.RunPreservesConsistent | src/contexts/WalletContext.tsx:31-55 | the invariant holds after any sequence of actions from a consistent state |
| Wallet.ConnectedIffAccount | src/contexts/WalletContext.tsx:21-55 | from `initialState`, over any action sequence, `isConnected` holds iff `account` is non-null |
| Wallet.ChainIdWhileDisconnected | src/contexts/WalletContext.tsx:50-51 | a chain change from the initial state records a chain id while disconnected, so no chain-id invariant holds |
| Wallet.DisconnectResets | src/contexts/WalletContext.tsx:48-49 | `DISCONNECT` gives exactly `initialState` from any state and is idempotent |
| Wallet.ChainChangedOnlyChain | src/contexts/WalletContext.tsx:50-51 | `CHAIN_CHANGED` sets the chain id and leaves every other field as it was |
| Wallet.ConnectStartKeepsConnection | src/contexts/WalletContext.tsx:33-34 | `CONNECT_START` sets loading and clears the error, with everything else unchanged |
| Wallet.ConnectErrorKeepsConnection | src/contexts/WalletContext.tsx:46-47 | `CONNECT_ERROR` stops loading and records the message, keeping any earlier connection |
| Wallet.ConnectActions | src/contexts/WalletContext.tsx:60-93 | the actions `connect` dispatches, a start and then one outcome; its properties are `ConnectWithoutWallet`, `ConnectWithoutAccounts`, `ConnectStoresFirstAccount` and `ConnectOutcome` |
| Wallet.ConnectWithoutWallet | src/contexts/WalletContext.tsx:62-66 | `connect` without an injected wallet ends with the "not installed" error and the old connection fields |
| Wallet.ConnectWithoutAccounts | src/contexts/WalletContext.tsx:69-73 | `connect` with an empty account list ends with the "no accounts" error and the old connection fields |
| Wallet.ConnectStoresFirstAccount | src/contexts/WalletContext.tsx:75-86 | a successful `connect` stores `accounts[0]`, the provider, the signer and the numeric chain id, not loading and without error |
| Wallet.ConnectOutcome | src/contexts/WalletContext.tsx:60-93 | after `connect` the session is not loading; it has no error iff every step succeeded; it is connected iff the attempt succeeded or it already was; a failure keeps account, provider, signer and chain id |
| Wallet.WalletSession.constructor | src/contexts/WalletContext.tsx:21-29 | the session starts in `initialState` with an empty trace |
| Wallet.WalletSession.Dispatch | src/contexts/WalletContext.tsx:58 | `dispatch` applies the reducer, extends the trace and keeps the invariant |
| Wallet.WalletSession.Connect | src/contexts/WalletContext.tsx:60-93 | the method dispatches exactly `ConnectActions(injected)`: a start, then one success or one error chosen by the checks in source order |
| Wallet.WalletSession.Disconnect | src/contexts/WalletContext.tsx:95-97 | `disconnect` dispatches `DISCONNECT` and the state is `initialState` |
| Wallet.WalletSession.HandleAccountsChanged | src/contexts/WalletContext.tsx:130-134 | an empty account list disconnects; a non-empty one changes neither state nor trace |
| Wallet.WalletSession.HandleChainChanged | src/contexts/WalletContext.tsx:136-138 | the payload is parsed as hexadecimal into the chain id, with nothing else changed |
| Wallet.WalletSession.SwitchToSapphire | src/contexts/WalletContext.tsx:99-127 | without a wallet nothing is sent; otherwise the add-chain request for the configured network goes first, and the switch request follows iff the add request was accepted |
| Text.ParseIntHex | src/contexts/WalletContext.tsx:137 | `parseInt(_, 16)`: white space, a sign and a `0x` prefix skipped, the longest hex digit run read, NaN without digits; its properties are `ParseIntHexRoundTrip` and `Config.DefaultChainIdIsTestnet` |
| Text.ParseIntHexRoundTrip | src/contexts/WalletContext.tsx:137 | `parseInt(_, 16)` reads back the value of any `0x`-prefixed lower-case hex rendering |
| Contract.Reduce | src/contexts/ContractContext.tsx:29-42 | `contractReducer` as a function; its properties are `ReducePreservesExclusive`, `InitErrorAndReset`, `RunBindsLastBound` and `ReadyIffLastSuccess` |
| Contract.ReducePreservesExclusive | src/contexts/ContractContext.tsx:29-42 | no action leaves a bound contract together with an error |
| Contract.RunPreservesExclusive | src/contexts/ContractContext.tsx:29-42 | over any action sequence, `contract != null` implies `error == null` |
| Contract.InitErrorAndReset | src/contexts/ContractContext.tsx:35-38 | `INIT_ERROR` always clears the contract; `RESET` returns exactly `initialState` |
| Contract.RunBindsLastBound | src/contexts/ContractContext.tsx:29-42 | from the initial state, the bound contract is the one installed by the last success, unless an error or reset came after it |
| Contract.ReadyIffLastSuccess | src/contexts/ContractContext.tsx:29-42 | the session is ready iff it is not loading and a success is the last binding action |
| Contract.BindActions | src/contexts/ContractContext.tsx:48-82 | the actions the binding effect dispatches; its properties are `BindSuccessNeedsProbe`, `BindWithoutWalletResets`, `BindWithoutAddress`, `BindProbeRejected` and `WalletDisconnectUnbinds` |
| Contract.BindSuccessNeedsProbe | src/contexts/ContractContext.tsx:48-82 | the binding dispatches `INIT_SUCCESS` iff the wallet is connected with a signer, an address is configured, the contract is built and the `getAgentCount` probe resolves; it then binds that address and signer |
| Contract.BindWithoutWalletResets | src/contexts/ContractContext.tsx:48-81 | without a connected wallet and a signer, the binding resets to `initialState` |
| Contract.BindWithoutAddress | src/contexts/ContractContext.tsx:52-58 | a missing address gives `INIT_ERROR` with the configuration message, whatever the constructor and probe would do |
| Contract.BindProbeRejected | src/contexts/ContractContext.tsx:63-72 | a rejected probe ends unbound with an error carrying the failure's message and the address |
| Contract.WalletDisconnectUnbinds | src/contexts/ContractContext.tsx:48-82 | after a wallet disconnect the binding step resets the contract session |
| Contract.AgentList | src/contexts/ContractContext.tsx:109-123 | the agents read in index order, or the first rejected read; its properties are `AgentListShape`, `AgentListFirstFailure` and `AgentListFailurePropagates` |
| Contract.AgentListShape | src/contexts/ContractContext.tsx:109-123 | the enumeration succeeds iff every read does; it then has `agentCount` entries, the `i`-th being agent `i`'s record with `id == i` |
| Contract.AgentListFirstFailure | src/contexts/ContractContext.tsx:112-121 | a failing enumeration reports the lowest index whose read was rejected |
| Contract.AgentListFailurePropagates | src/contexts/ContractContext.tsx:112-121 | a rejected read after successful lower ones is the failure of any longer enumeration |
| Contract.WithoutSubscription | src/contexts/ContractContext.tsx:142-144 | cancelling removes exactly the subscriptions with that id and keeps the others |
| Contract.WithoutSubscriptionIdempotent | src/contexts/ContractContext.tsx:142-144 | cancelling twice is cancelling once |
| Text.ToLower | src/contexts/ContractContext.tsx:134 | `toLowerCase` on ASCII letters: same length, each character lower-cased, no upper-case letter left |
| Contract.ToSentimentResult | src/contexts/ContractContext.tsx:131-137 | a delivered result keeps request id and confidence, and its sentiment is exactly the lower-cased event sentiment (`ToLower`), unchanged when already lower case |
| Contract.ContractSession.constructor | src/contexts/ContractContext.tsx:23-27 | the session starts in `initialState` with no subscription |
| Contract.ContractSession.Dispatch | src/contexts/ContractContext.tsx:45 | `dispatch` applies the reducer, extends the trace and keeps the invariant |
| Contract.ContractSession.Bind | src/contexts/ContractContext.tsx:48-82 | the binding effect dispatches exactly `BindActions(...)` |
| Contract.ContractSession.RegisterAgent | src/contexts/ContractContext.tsx:84-92 | unbound, it fails with `CONTRACT_NOT_INITIALIZED` and sends nothing; a price that does not parse fails; otherwise it sends the registration and returns the transaction's outcome |
| Contract.ContractSession.RequestSentiment | src/contexts/ContractContext.tsx:94-102 | the same guard and parsing rules for a paid sentiment request |
| Contract.ContractSession.GetAgents | src/contexts/ContractContext.tsx:104-124 | unbound gives `CONTRACT_NOT_INITIALIZED`; a failed count read gives its failure; otherwise the loop returns `AgentList(count, agentAt)` |
| Contract.ContractSession.Listen | src/contexts/ContractContext.tsx:126-145 | unbound gives a no-op canceller and subscribes nothing; bound, it adds one subscription on the bound contract and returns its canceller |
| Contract.ContractSession.Cancel | src/contexts/ContractContext.tsx:142-144 | a canceller removes its own subscription only |
| Liveness.ScanWindow | src/hooks/useROFLStatus.ts:93-94 | the window ends at the current block and starts 50 blocks before it, or at block 0, never below it |
| Liveness.EventsInRange | src/hooks/useROFLStatus.ts:96-97 | the query returns exactly the log's events inside the window |
| Liveness.WorkerOnline | src/hooks/useROFLStatus.ts:88-105 | online iff both reads succeed and some result event lies in the window; any failure means offline |
| Liveness.OldEventsIgnored | src/hooks/useROFLStatus.ts:93-100 | events more than 50 blocks old never make the worker online |
| Liveness.RoflDetails | src/hooks/useROFLStatus.ts:58-74 | the app id and worker address stored after the two reads: a failed app id read leaves both null; after a successful one the app id is its truthy answer; the worker address is its truthy answer when both reads succeed, and null otherwise |
| Liveness.Snapshot | src/hooks/useROFLStatus.ts:58-79 | the snapshot has `isEnabled = roflActive`, `totalProcessed = totalRequests` and `processingRequests = 0`; its app id and worker address are `RoflDetails` of the two reads, so an app id failure nulls both and a worker address failure nulls that one; `isOnline` is the window check; `lastActivity` is set iff online |
| Liveness.Refreshed | src/hooks/useROFLStatus.ts:40-86 | `fetchROFLStatus` as a function of the old state and the reads; its properties are `RefreshedPreservesHealthy`, `RefreshGuard`, `RefreshFailureKeepsSnapshot` and `RefreshOutcome` |
| Liveness.OnResult | src/hooks/useROFLStatus.ts:119-128 | the `SentimentResult` listener's update; its properties are `OnResultPreservesHealthy`, `OnResultChangesOnlyActivity` and `OnResultsCounts` |
| Liveness.RefreshedPreservesHealthy | src/hooks/useROFLStatus.ts:40-86 | a refresh keeps "last activity iff online, nothing in progress" |
| Liveness.OnResultPreservesHealthy | src/hooks/useROFLStatus.ts:119-128 | a result event keeps the same invariant |
| Liveness.RefreshGuard | src/hooks/useROFLStatus.ts:41 | without a bound contract or a connected wallet a refresh changes nothing |
| Liveness.RefreshFailureKeepsSnapshot | src/hooks/useROFLStatus.ts:43-85 | a failed statistics read keeps the previous snapshot and statistics, stops loading and records the message |
| Liveness.RefreshOutcome | src/hooks/useROFLStatus.ts:43-85 | a refresh that runs ends not loading, errs iff the statistics read failed, and on success replaces the whole snapshot whatever was there before |
| Liveness.OnResultChangesOnlyActivity | src/hooks/useROFLStatus.ts:119-128 | a result event sets online and the activity time, adds exactly 1 to `totalProcessed`, and changes nothing else |
| Liveness.OnResultsCounts | src/hooks/useROFLStatus.ts:119-128 | between refreshes, `totalProcessed` grows by exactly the number of result events |
| Liveness.LivenessMonitor.constructor | src/hooks/useROFLStatus.ts:24-35 | the initial status holds nulls and zeros, with loading set |
| Liveness.LivenessMonitor.Refresh | src/hooks/useROFLStatus.ts:40-86 | the setters leave the state at `Refreshed(old state, ...)` |
| Liveness.LivenessMonitor.Start | src/hooks/useROFLStatus.ts:137-141 | the effect refreshes, then listens iff a contract is bound |
| Liveness.LivenessMonitor.Stop | src/hooks/useROFLStatus.ts:131-149 | the cleanup removes the listeners and keeps the state |
| Liveness.LivenessMonitor.OnSentimentResult | src/hooks/useROFLStatus.ts:118-128 | with listeners registered the state becomes `OnResult(old state)`; otherwise nothing changes |
| Liveness.LivenessMonitor.OnWorkerRegistered | src/hooks/useROFLStatus.ts:111-115 | with listeners registered, a worker registration triggers a refresh outside the polling cycle |
| HuggingFace.HuggingFaceService.constructor | src/services/huggingface.ts:16-19 | the key given, else the configured key, with empty keys counting as absent |
| HuggingFace.HuggingFaceService.SetApiKey | src/services/huggingface.ts:24-26 | the key is replaced by the one given, even an empty one |
| HuggingFace.Request | src/services/huggingface.ts:93-111 | the request sent for a text and a model: a POST to the base URL, `/` and the model id, with `Headers(apiKey)`, the text as `inputs` and `return_all_scores` set; header properties are stated by `Headers` and `EmptyKeyIsAnonymous` |
| HuggingFace.Headers | src/services/huggingface.ts:93-100 | the JSON content type is always sent; an `Authorization` bearer header is sent iff a non-empty key is set |
| HuggingFace.EmptyKeyIsAnonymous | src/services/huggingface.ts:93-100 | after setting the empty key, no `Authorization` header is sent |
| HuggingFace.StatusError | src/services/huggingface.ts:113-136 | 401, 429 and 503 each have a fixed message; for other statuses a JSON `null` body gives the TypeError its field read throws, and otherwise the message is the body's `error`, then its `message`, then the status line |
| HuggingFace.ExtractPredictions | src/services/huggingface.ts:141-152 | a nested array gives its first row, a non-empty flat array is used as is, a single labelled object is wrapped, JSON `null` gives the TypeError its field read throws, an unparseable body gives the parser's message, and anything else is the unexpected-format error |
| HuggingFace.Normalise | src/services/huggingface.ts:155-158 | same length and order, labels lower-cased, scores kept |
| HuggingFace.Analysis | src/services/huggingface.ts:81-177 | `analyzeSentiment`'s result for a text, a model and the server's answer; its properties are `AnalysisFailureShape`, `AnalysisSuccessRanks` and `VerdictFromTopScore` |
| HuggingFace.AnalysisFailureShape | src/services/huggingface.ts:81-177 | every result names the model asked for; an error comes with no predictions; an over-long text fails with the length message; a non-OK status gives its error |
| HuggingFace.AnalysisSuccessRanks | src/services/huggingface.ts:155-167 | a successful result is a permutation of the normalised predictions, sorted by non-increasing score, with equal scores in arrival order |
| HuggingFace.HuggingFaceService.AnalyzeSentiment | src/services/huggingface.ts:81-177 | sends a request iff the text is within 10000 characters, and returns the analysis, ranked by an in-place sort |
| Ranking.Insert | src/services/huggingface.ts:161 | one element placed after every element scoring at least as much; its properties are `InsertPermutes`, `InsertSorted` and `InsertStable` |
| Ranking.SortByScore | src/services/huggingface.ts:161 | the reference stable sort by non-increasing score; its properties are `SortByScoreSortsAndPermutes` and `SortByScoreStable` |
| Ranking.InsertPermutes | src/services/huggingface.ts:161 | inserting keeps the multiset and adds the element |
| Ranking.InsertSorted | src/services/huggingface.ts:161 | inserting into a sorted ranking keeps it sorted |
| Ranking.InsertStable | src/services/huggingface.ts:161 | among equal scores, the inserted element comes last |
| Ranking.SortByScoreSortsAndPermutes | src/services/huggingface.ts:161 | the reference ranking is sorted by non-increasing score and a permutation of its input |
| Ranking.SortByScoreStable | src/services/huggingface.ts:161 | the reference ranking keeps elements of equal score in input order |
| Ranking.InsertInPlace | src/services/huggingface.ts:161 | one pass of the in-place insertion sort places `a[i]` into the sorted prefix exactly as `Insert` does and leaves the rest unchanged |
| Ranking.SortInPlace | src/services/huggingface.ts:161 | the array ends up as the reference ranking of its old contents |
| HuggingFace.Round | src/services/huggingface.ts:242 | `Math.round`: the integer within one half below or strictly less than one half above the value |
| HuggingFace.LabelSentiment | src/services/huggingface.ts:228-238 | positive iff a positive rule matches; negative iff no positive rule but a negative rule matches; neutral otherwise |
| HuggingFace.ConvertToSentiment | src/services/huggingface.ts:214-244 | no predictions gives neutral with confidence 0; otherwise the first label decides, and the confidence is its score as a rounded percentage |
| HuggingFace.ConvertUsesFirstOnly | src/services/huggingface.ts:222-226 | predictions that agree on their first entry convert alike |
| HuggingFace.ConvertIgnoresCase | src/services/huggingface.ts:225 | labels that agree up to case convert alike |
| HuggingFace.VerdictFromTopScore | src/services/huggingface.ts:161-242 | on a successful analysis, the converted confidence comes from a highest-scoring prediction |
| HuggingFace.PositiveLabelsClassify | src/services/huggingface.ts:228-230 | each positive default label (positive, 4 and 5 stars, joy, love, optimism) reads as positive |
| HuggingFace.NegativeLabelsClassify | src/services/huggingface.ts:232-234 | each negative default label (negative, 1 star, 2 stars, anger, sadness, pessimism) reads as negative |
| HuggingFace.NeutralLabelsClassify | src/services/huggingface.ts:235-237 | the remaining default labels (neutral, 3 stars, fear, surprise, trust) read as neutral |
| HuggingFace.FindModel | src/services/huggingface.ts:189-191 | the first model with the id, or none iff no model has it |
| HuggingFace.FindDefaultModel | src/services/huggingface.ts:189-191 | a default model whose `id` matches, or none iff none does |
| HuggingFace.CreateCustomModel | src/services/huggingface.ts:196-209 | the id is `custom-<time>`; the name defaults to the model id and the description to `Custom model: <id>`; the labels are negative, neutral, positive |
| HuggingFace.CustomModelIdentity | src/services/huggingface.ts:196-209 | a custom model's id never names a default model, and its creation time can be read back from it |
| Text.DecimalRoundTrip | src/services/huggingface.ts:202 | the decimal rendering of a time reads back to that time |
| SentimentAnalysis.ConfiguredModel | src/services/sentimentAnalysis.ts:67-73 | an agent names no model iff it has no transformer model and no non-empty custom model id |
| SentimentAnalysis.ModelFor | src/services/sentimentAnalysis.ts:19-28 | the model used for an agent's requests is its configured model when there is one; the full precedence is `ModelPrecedence` |
| SentimentAnalysis.ModelPrecedence | src/services/sentimentAnalysis.ts:19-28 | the transformer model first, then a non-empty custom model id, then the first default model |
| SentimentAnalysis.AgentVerdict | src/services/sentimentAnalysis.ts:12-57 | the verdict keeps the request id; a failed analysis is neutral with confidence 0; a successful one is the conversion of its ranking |
| SentimentAnalysis.LongTextIsNeutral | src/services/sentimentAnalysis.ts:30-56 | an over-long text gets the neutral, zero-confidence verdict |
| SentimentAnalysis.AnalyzeWithAgent | src/services/sentimentAnalysis.ts:12-57 | the method, asking the inference client, returns `AgentVerdict(...)` |
| SentimentAnalysis.TestAgentModel | src/services/sentimentAnalysis.ts:62-76 | fails with "No model configured for this agent" iff the agent names no model; otherwise it analyses the test text (the default when absent or empty) with that model |
| SentimentAnalysis.TestUsesRequestModel | src/services/sentimentAnalysis.ts:62-76 | where a test runs, it uses the model the agent's requests use |
| SentimentAnalysis.BatchAnalyze | src/services/sentimentAnalysis.ts:81-103 | one result per text, in input order; the `i`-th is the verdict for text `i` with request id `startingRequestId + i` |
| SentimentAnalysis.UseCaseOf | src/services/sentimentAnalysis.ts:130-152 | the `switch` on the lower-cased use case, with `General` for the default branch; used by `Recommendations` |
| SentimentAnalysis.Suits | src/services/sentimentAnalysis.ts:134-152 | each branch's model filter; `Suiting` and `Recommendations` keep exactly the models it accepts |
| SentimentAnalysis.Suiting | src/services/sentimentAnalysis.ts:134-152 | a model is kept iff it is in the list and suits the use case |
| SentimentAnalysis.SuitingAppend | src/services/sentimentAnalysis.ts:134-152 | filtering works piecewise, so kept models stay in list order |
| SentimentAnalysis.Recommendations | src/services/sentimentAnalysis.ts:122-154 | no use case (or the empty one) gives all supported models; otherwise exactly the supported models suiting the lower-cased use case |
| SentimentAnalysis.RecommendationsAreSupported | src/services/sentimentAnalysis.ts:122-154 | recommendations are always drawn from the supported models |
| SentimentAnalysis.RecommendationsIgnoreCase | src/services/sentimentAnalysis.ts:130 | use cases that differ only in case get the same recommendations |
| SentimentAnalysis.RoundedRatio | src/services/sentimentAnalysis.ts:183-187 | `Math.round(x / total)` exactly: the nearest integer, halves up, stated without division |
| SentimentAnalysis.RoundedRatioIsRound | src/services/sentimentAnalysis.ts:183-187 | the integer rounding equals `Math.round` of the exact quotient |
| SentimentAnalysis.CalculateStatistics | src/services/sentimentAnalysis.ts:159-190 | empty input gives all zeros; `total` is the number of results; each count is the number with that sentiment; `averageConfidence` is the mean rounded half up; each distribution share is `100 * count / total` rounded half up |
| SentimentAnalysis.CountsSumToTotal | src/services/sentimentAnalysis.ts:171-177 | for results with one of the three sentiments, the counts add up to `total` |
| SentimentAnalysis.SumConfidenceBounds | src/services/sentimentAnalysis.ts:178 | confidences between `lo` and `hi` sum to between `lo * n` and `hi * n` |
| SentimentAnalysis.AverageWithinBounds | src/services/sentimentAnalysis.ts:178-183 | the rounded mean of confidences stays between their bounds |
| SentimentAnalysis.RoundedRatioBounds | src/services/sentimentAnalysis.ts:183-187 | rounding a quotient that lies between two integers stays between them |
| SentimentAnalysis.DistributionIsRounded | src/services/sentimentAnalysis.ts:184-188 | each share equals `Math.round` of the exact `count / total * 100` |
| SentimentAnalysis.DistributionIsPercentage | src/services/sentimentAnalysis.ts:184-188 | each share is between 0 and 100; the positive share is 100 when every result is positive and 0 when none is |
| Types.CountSentiment | src/services/sentimentAnalysis.ts:172-174 | the count is at most the length; it equals the length iff all match and 0 iff none does |
| Types.CountSentimentAppend | src/pages/Results.tsx:169 | counting distributes over concatenation |
| Config.GetNetworkConfig | src/config/index.ts:137-139 | the default entry is the Sapphire testnet; the chain id is the environment's when set and non-empty, else `0x5aff` |
| Config.GetCurrentNetworkConfig | src/config/index.ts:141-143 | the current network is the default table entry |
| Config.DefaultChainIdIsTestnet | src/config/index.ts:4 | `0x5aff` read as hexadecimal is 23295 |
| Config.DefaultNetworkIsTestnet | hardhat.config.cjs:34 | without a non-empty override, the configured chain id denotes the testnet's 23295 |
| Config.FormatAddress | src/config/index.ts:146-150 | empty gives empty; otherwise the first 6 characters, `...`, then the last 4 (fewer for a shorter text) |
| Config.FormatValidAddress | src/config/index.ts:146-150 | a valid address abbreviates to 13 characters that keep its `0x` prefix |
| Config.AllHexDigits | src/config/index.ts:132 | true iff every character is a hex digit of either case |
| Config.IsValidEthereumAddress | src/config/index.ts:167-169 | true iff the text is `0x` and 40 hex digits of either case, 42 characters in all |
| Config.IsValidUrl | src/config/index.ts:153-160 | true implies the text parses and starts with `http://` or `https://` followed by at least one character |
| Config.UrlPrefixSuffices | src/config/index.ts:153-160 | conversely, a parseable `http://` or `https://` text followed by an ordinary character is accepted |
| ContractDebugger.CheckOutcome | src/components/ContractDebugger.tsx:48-111 | a valid result has code, no error and a count; any other result has an error and no count |
| ContractDebugger.BadFormatNeedsNoLookup | src/components/ContractDebugger.tsx:54-62 | a badly formed address is invalid with no code and the format error, whatever the chain would answer |
| ContractDebugger.EmptyCodeIsNoContract | src/components/ContractDebugger.tsx:65-78 | code `0x` is neither valid nor code, with size 0 and the no-code error |
| ContractDebugger.CodeSizeCountsBytes | src/components/ContractDebugger.tsx:67 | `0x` followed by `2n` digits has `codeSize` n |
| ContractDebugger.ValidIffProbeSucceeds | src/components/ContractDebugger.tsx:64-99 | valid iff the address is well formed, code is present and the probe succeeds; the count is then recorded; code with a failed probe is invalid but has code |
| ContractDebugger.ValidCheckBinds | src/components/ContractDebugger.tsx:81-91 | what the check finds valid, the contract binding of the same address and probe accepts |
| ContractDebugger.MethodTest | src/components/ContractDebugger.tsx:113-157 | `testContractMethods`' results as a function of the answers; its properties are `MethodTestErrors` and `NoAgentsNoRead` |
| ContractDebugger.MethodTestErrors | src/components/ContractDebugger.tsx:126-147 | each failing call adds exactly one error; `agents(0)` is read iff the count is positive; a count that is read is recorded |
| ContractDebugger.NoAgentsNoRead | src/components/ContractDebugger.tsx:134 | when the count fails or is 0, the `agents(0)` answer plays no part |
| ContractDebugger.Debugger.constructor | src/components/ContractDebugger.tsx:34-37 | the panel starts with no info, no test results and not checking |
| ContractDebugger.Debugger.CheckContract | src/components/ContractDebugger.tsx:48-111 | with no provider or no address nothing changes; otherwise the info becomes `CheckOutcome(...)` and checking ends |
| ContractDebugger.Debugger.TestContractMethods | src/components/ContractDebugger.tsx:113-157 | runs only with a provider after a valid check; then the results become `MethodTest(...)` and checking ends |
| ResultsFeed.Push | src/pages/Results.tsx:24 | the new result is at index 0; earlier entries follow in order; the length is one more, capped at 50 |
| ResultsFeed.FeedBounded | src/pages/Results.tsx:24 | the feed never holds more than 50 entries |
| ResultsFeed.FeedIsMostRecent | src/pages/Results.tsx:24 | the feed holds the 50 most recent deliveries, newest first, so only the oldest entries are dropped |
| ResultsFeed.PushCount | src/pages/Results.tsx:24 | a push adds the new result to its sentiment's count; on a full feed, the dropped oldest entry leaves its count |
| ResultsFeed.ShownCountsAddUp | src/pages/Results.tsx:166-169 | the three shown counts add up to the feed length |
| ResultsFeed.FeedOf | src/pages/Results.tsx:24 | the feed after a sequence of pushes from empty; its properties are `FeedBounded` and `FeedIsMostRecent` |
| ResultsFeed.Step | src/pages/Results.tsx:20-28 | one page event: an account change only records the account; a delivery is pushed iff the account is non-empty; properties in the lemmas below |
| ResultsFeed.PageAfter | src/pages/Results.tsx:14-28 | the page after a sequence of account changes and deliveries from the first render; properties in the lemmas below |
| ResultsFeed.Accepted | src/pages/Results.tsx:20-25 | the deliveries that reached a listener, those arriving while the account was non-empty; tied to the page by `PageShowsAccepted` |
| ResultsFeed.PageShowsAccepted | src/pages/Results.tsx:14-28 | the kept results are the feed of the accepted deliveries, whatever account changes came in between |
| ResultsFeed.PageIsMostRecent | src/pages/Results.tsx:14-28 | the page shows the 50 most recent accepted results, newest first |
| ResultsFeed.AccountChangeKeepsResults | src/pages/Results.tsx:20-28 | an account change, to null or to another account, keeps every result it holds and records the new account |
| ResultsFeed.NoAccountIgnoresDelivery | src/pages/Results.tsx:21 | without a non-empty account a delivery changes nothing, since no listener is registered |
| ResultsFeed.AccountShowsDelivery | src/pages/Results.tsx:23-25 | with an account, a delivery is pushed and heads the kept results |
| ResultsFeed.LevelOf | src/pages/Results.tsx:58-62 | High iff at least 80, Medium iff at least 60 and below 80, Low iff below 60 |
| ResultsFeed.LevelMonotone | src/pages/Results.tsx:58-62 | a higher confidence never falls in a lower band |

## Left out

- Wallet provider, signer, contract and `window.ethereum` calls are not executed. Their possible answers are parameters, and only what the code does with each answer is modelled.
- `fetch` to the inference API and `response.json()` are parameters too: parsed bodies are a `ResponseBody` or an `ErrorBody`.
- `new URL(...)` is a boolean parameter of `IsValidUrl`.
- `parseEther`/`formatEther` are library conversions. Amounts are kept as integer wei, and a failed parse is a parameter. `Agent.price` is therefore wei, not the ether string the application displays.
- `isValidPrice` is not modelled, because it rests on `parseFloat`.
- Floating point is not modelled. Scores are exact reals, so `score * 100` and its rounding are exact. Statistics are computed with exact rational rounding. The percentage `toFixed` display is not modelled.
- Base.Thrown: a thrown value that is not an `Error` is one case, `NonError`, which always renders as the fallback text. So `Contract.ProbeFailedMessage` renders "undefined" where a rejection with a plain object that has a `message` field would render that field. A rejection with `null` or `undefined` makes the `.catch` handler itself throw, so `INIT_ERROR` is never dispatched and `isLoading` stays true; the model dispatches the error instead (src/contexts/ContractContext.tsx:67-72).
- HuggingFace.ExtractPredictions: the elements of a prediction array are modelled as predictions. An array holding `null` or non-objects, on which `String(pred.label)` would throw or give "undefined", is not modelled. JSON `null` bodies are modelled (`NullJson`, `NullErrorBody`), with the TypeError message as a parameter.
- `Number(bigint)` conversions are not modelled. The model assumes counts, ids and confidences fit.
- String built-ins are modelled on `seq<char>` with ASCII case only. `toLowerCase` of non-ASCII letters and UTF-16 code-unit lengths are not modelled. `String(pred.label)` and `Number(pred.score)` coercions of non-string and non-number JSON are not modelled.
- Timers are not modelled: the 30-second polling interval, the rate-limit delay in `batchAnalyze` and `processingTime`. Time is a parameter wherever a timestamp is stored.
- Concurrency is not modelled: handlers and effects are atomic steps. The interleaving of polls, events and re-renders, and the stale closures React may retain, are out.
- `SentimentAnalysis.AnalyzeWithAgent` and its siblings take the inference client as a parameter. They stand in for the module-level singleton the source uses.
- `getSupportedModels`/`getDefaultModels` return the constant `Config.DEFAULT_MODELS`, used directly.
- `validateModel`, `testConnection` and `formatResult` are not modelled. They are display text, a foreign call and an emoji/colour table.
- The debugger effect that starts a check on connection (src/components/ContractDebugger.tsx:42-46) is not modelled. `Debugger.CheckContract` has the same guard.
- `ContractDebugger.CheckOutcome` takes whether `new ethers.Contract(...)` throws (`construct`) and what the `getAgentCount` read on it brings back (`probe`) as parameters, rather than modelling the ABI.
- Whether `contract.provider.getBlockNumber()` can succeed under the ethers version used (src/hooks/useROFLStatus.ts:93) is not decided by the model. The `blockNumber` answer of a refresh is a parameter, and `Liveness.WorkerOnline` is false whenever it fails; if that read always fails, only `SentimentResult` events mark the worker online.
- JSX, rendering, routing and the display-only helpers are not modelled. This covers `getSentimentIcon`, `getSentimentColor` and `formatTimestamp`.
- The server code (`server/*`) and the deployment scripts are I/O plumbing and foreign cryptography, and are not modelled.
