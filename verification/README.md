# Needle-X: models and proofs

Needle-X reads web pages for AI agents: it drives a browser, records what a page loads, reduces the
page to text nodes, packs them into segments, embeds them, and serves the result over stdio. This
project models the parts of it that are state machines or transformations with a contract of their
own, and proves what they promise over every run or every input.

| part | files |
|---|---|
| browser lease runtime | `BrowserRuntime`, `LeaseProtocol`, `LeaseSafety`, `LeaseFitness` |
| embedding cache and single-flight | `EmbeddingCache`, `FlightGroup`, `SingleFlight`, `FetchOnce`, `Embedder`, `CachePrune` |
| network capture | `NetworkCollector`, `CaptureSafety`, `CaptureRuns`, `CaptureBudgets`, `CapturePrefix`, `CaptureOpen`, `CaptureTallies`, `CaptureSettling`, `EventStream`, `EventFields`, `EventCapture` |
| page reduction and segmentation | `Dom`, `DomWalker`, `WalkCoverage`, `WalkPaths`, `WalkKinds`, `WalkOrigin`, `Markdown`, `MarkdownContent`, `MarkdownLayout`, `Segmenter`, `SegmentOrigin` |
| smaller pieces | `TokenBudget`, `McpFraming`, `McpHeaders`, `LogRotation` |
| shared | `Wrappers`, `Text`, `Lines`, `Decimal` |

How the source is carried over:

- Code that updates state is a class with the same fields and a method per function; each method is
  proved equal to a function on the state (`View`), and the theorems are about that function. Loops
  stay loops, with invariants.
- The two lock protocols are state machines. One action is one stretch of code that runs with the
  mutex held, or one outside event; every interleaving of any number of calls is covered. A condition
  channel is a generation number. Process instances have identities, so the set of live processes is
  explicit.
- A string is a sequence of bytes and white space is the ASCII white space.
- Time, the server, the parser's tree and decoded messages are parameters.

What the proofs found about the code, beside what it promises:

- An exhausted byte budget of the collector is skipped rather than counted as zero, so the total can
  exceed `maxBytes` and a body can exceed `resourceMaxBytes`. `CaptureBudgets.BudgetHoldsUntilOverdrawn`
  and `CaptureBudgets.OwnBudgetHoldsUntilOverdrawn` say exactly when they do,
  `CaptureBudgets.TotalCanExceedItsBudget` and `CaptureBudgets.OwnCanExceedItsBudget` that it happens, and
  `CaptureRuns.BytesAreCounted` gives the bounds that do hold. A rule that counts an exhausted budget as
  zero keeps both plain bounds (`CaptureBudgets.CappedAppendsStayWithin`).
- For the same reason a truncated body may go on behind a gap. `CapturePrefix.NoHoleIffNeverResumed` says
  exactly when its bytes are the first ones offered.
- The outcome `websocket_idle` of the settling decision is unreachable
  (`CaptureRuns.NeverWebSocketIdle`).
- A key that stays in the cache once it is there is fetched at most once (`FetchOnce.FetchedOnce`). A key
  that is lost between the two miss passes of a call is fetched without its lock, exactly when the first
  pass hit it and the second one found it lost (`FetchOnce.FetchesUnlockedIffLost`); then two calls can
  fetch it at the same time (`FetchOnce.FetchedTwiceAtOnce`).
- A payload with a line break does not survive the event stream body
  (`EventStream.ReadBackIffSingleLines`).
- After a skipped heading level, a heading nests under its predecessor of the same level
  (`Segmenter.SiblingHeadings`). The heading path is the outline of the page exactly when the levels along
  the path strictly increase (`Segmenter.PathIsOutline`).
- The second trim of a candidate text in the token budget never adds anything
  (`TokenBudget.FitTextKeepsFirstWords`).

## Model

| member | source | states |
|---|---|---|
| BrowserRuntime.Runtime.NotifyAll | internal/platform/browser_runtime.go:71 | notify: a new generation of the condition channel, and nothing else |
| BrowserRuntime.Runtime.Acquire | internal/platform/browser_runtime.go:73-142 | one locked turn of Acquire: refusal, retirement of a worn process, launch, lease or wait, with the whole new state |
| BrowserRuntime.Runtime.Install | internal/platform/browser_runtime.go:105-133 | a launched process is installed and leased, unless Close came first |
| BrowserRuntime.Runtime.Abandon | internal/platform/browser_runtime.go:119-124 | a launch or capture that left no process hands the slot over and wakes everybody |
| BrowserRuntime.Runtime.DetachProcess | internal/platform/browser_runtime.go:146-156 | detach empties the slot, stops the timer and reserves the slot |
| BrowserRuntime.Runtime.FinishRetirement | internal/platform/browser_runtime.go:158-169 | the outcome of closing a process is kept, the slot handed over and everybody woken |
| BrowserRuntime.Runtime.Expire | internal/platform/browser_runtime.go:171-180 | the idle timer retires only its own process, and only while nobody leases it |
| BrowserRuntime.Runtime.Stop | internal/platform/browser_runtime.go:182-199 | Close marks the runtime closed, wakes everybody and takes the slot or waits |
| BrowserRuntime.Runtime.StopAgain | internal/platform/browser_runtime.go:182-199 | each further turn of Close takes the slot as soon as it is not busy |
| BrowserRuntime.Runtime.Capture | internal/platform/browser_runtime.go:203-224 | one locked turn of CaptureDOM: refusal, reservation of an idle slot, or wait |
| BrowserRuntime.Runtime.Release | internal/platform/browser_runtime.go:255-279 | a lease is given back: retire, arm the idle timer, or just notify |
| LeaseProtocol.MoveIsLegal | internal/platform/browser_runtime.go:73-279 | every enabled action of every call changes owner, leases, grants, timer and sleepers only in the permitted ways |
| LeaseProtocol.StepKeepsInv | internal/platform/browser_runtime.go:73-279 | every action in every interleaving keeps the invariant of the protocol |
| LeaseSafety.RunKeepsInv | internal/platform/browser_runtime.go:73-279 | the invariant holds after every run |
| LeaseSafety.AtMostOneProcess | internal/platform/browser_runtime.go:105-128 | at most one native process is alive; busy is an exclusive token and implies an empty slot |
| LeaseSafety.LeasesAreCounted | internal/platform/browser_runtime.go:89-133 | active is the number of unreleased leases and within MaxConcurrency; no process gives more than MaxUses leases |
| LeaseSafety.RetiringGrantsNothing | internal/platform/browser_runtime.go:89-133 | no continuation of a run leases a retiring process again |
| LeaseSafety.RetiringIsDoomed | internal/platform/browser_runtime.go:89-98 | the process marked for retirement is one that RetiringGrantsNothing speaks of |
| LeaseSafety.OnlyCloseEndsLeasedProcess | internal/platform/browser_runtime.go:182-199 | an action that ends a leased process belongs to Close |
| LeaseSafety.NoLeaseAfterClose | internal/platform/browser_runtime.go:182-199 | once Close has begun no continuation grants a lease |
| LeaseSafety.NoProcessAfterClose | internal/platform/browser_runtime.go:105-128 | after Close returned no process is alive, now or later, whatever launch was racing with it |
| LeaseSafety.NoLostWakeup | internal/platform/browser_runtime.go:71-143 | a sleeper that was not woken would decide to sleep again if it looked now |
| LeaseSafety.OwnerHandsOver | internal/platform/browser_runtime.go:105-169 | each action of the busy owner brings the hand-over closer, and the hand-over wakes every sleeper |
| LeaseSafety.OwnerIsUndisturbed | internal/platform/browser_runtime.go:146-169 | no other call takes the token or moves its holder |
| LeaseSafety.NoDeadlock | internal/platform/browser_runtime.go:73-279 | a call that cannot go on waits for a busy owner or a lease holder that can |
| LeaseSafety.ReleaseNotifies | internal/platform/browser_runtime.go:255-279 | a release wakes every sleeper, or takes the token whose hand-over will |
| LeaseSafety.IdleProcessIsTimed | internal/platform/browser_runtime.go:171-180 | a process without leases is not retiring and its idle timer is armed or already retiring it |
| LeaseFitness.AcquireDecides | internal/platform/browser_runtime.go:73-142 | in every reachable state a turn of Acquire leases exactly a living process that was launched for the path the call asked for, has uses left and is not retiring; it retires or marks exactly one that is dead, of another path or used up; it launches exactly for a free and empty slot; a closed, failed or cancelled call changes nothing |
| LeaseFitness.LeasesMatchPaths | internal/platform/browser_runtime.go:89-133 | in every run each lease is on a process launched for the path its call asked for |
| LeaseFitness.ReuseIsTold | internal/platform/browser_runtime.go:89-133 | a lease says that it is a reuse exactly when its process gave one before |
| LeaseFitness.ReleaseDecides | internal/platform/browser_runtime.go:255-279 | a release dooms its process exactly when it is reported unhealthy, used up or doomed already, and the last one then closes it |
| LeaseFitness.UnhealthyIsNeverLeased | internal/platform/browser_runtime.go:255-279 | no continuation of a run leases a process that was reported unhealthy |
| LeaseFitness.FailureIsRecorded | internal/platform/browser_runtime.go:158-169 | an error is recorded exactly when a call publishes a failed retirement |
| LeaseFitness.NoLeaseAfterFailure | internal/platform/browser_runtime.go:73-169 | after a failed retirement no continuation leases or installs a process |
| EmbeddingCache.Cache.Get | internal/intel/embedder.go:236-251 | the tick map behaves as a recency list on lookup, expiry included |
| EmbeddingCache.Cache.Set | internal/intel/embedder.go:253-264 | the tick map behaves as a recency list on store, eviction included |
| EmbeddingCache.Cache.EvictOldest | internal/intel/embedder.go:266-280 | the scan for the smallest tick drops the first key of the recency list |
| EmbeddingCache.Cache.FindOldest | internal/intel/embedder.go:266-280 | in whatever order the map is scanned, a key with the smallest tick is found |
| EmbeddingCache.IncreasingCount | internal/intel/embedder.go:253-264 | ticks are distinct, so the map is as large as the recency list |
| EmbeddingCache.FirstIsLeast | internal/intel/embedder.go:266-280 | the one key with the smallest tick is the first of the list |
| EmbeddingCache.WriteRepresents | internal/intel/embedder.go:236-264 | an entry written with the next tick is the most recent one and ticks stay bounded by the counter |
| EmbeddingCache.RunIsByLastUse | internal/intel/embedder.go:236-280 | after any run the cache is bounded and ordered by the last operation that used each key |
| EmbeddingCache.SetKeepsWritten | internal/intel/embedder.go:253-280 | a store keeps what it wrote and loses at most the least recently used other key, only when full |
| EmbeddingCache.HitIsFresh | internal/intel/embedder.go:236-264 | in every run a hit is the vector stored last for its key and not older than the time to live, and a held key within its time does hit |
| FlightGroup.SortKeys | internal/intel/embedder_cache.go:783-798 | sortedUnique: the distinct keys in increasing order, blanks dropped |
| FlightGroup.SortedListsAgree | internal/intel/embedder_cache.go:783-798 | the sorted duplicate-free list of given keys is unique |
| FlightGroup.SortedUniqueIsSorted | internal/intel/embedder_cache.go:783-798 | the sorted duplicate-free list is strictly increasing |
| FlightGroup.Group.Take | internal/intel/embedder_cache.go:757-772 | one turn of lock: a free key gets a channel, a taken one is waited for |
| FlightGroup.Group.Unlock | internal/intel/embedder_cache.go:773-780 | unlock removes and closes exactly the channels of the given keys |
| SingleFlight.StepKeepsLock | internal/intel/embedder_cache.go:757-781 | every action keeps owners, channels and waiters consistent |
| SingleFlight.KeysHaveOneOwner | internal/intel/embedder_cache.go:757-781 | in every run each key has at most one owner and a channel exactly while it is owned |
| SingleFlight.ChainEnds | internal/intel/embedder_cache.go:757-797 | from any unfinished call the chain of owners ends at a call that can go on, as wanted keys grow along it |
| SingleFlight.NoDeadlock | internal/intel/embedder_cache.go:757-797 | while some call is unfinished some call can go on |
| FetchOnce.StepKeepsFetch | internal/intel/embedder.go:78-113 | every action but the loss of k keeps it true that a call about to fetch k holds it and that k is then neither cached nor fetched before |
| FetchOnce.FetchedOnce | internal/intel/embedder.go:78-113 | in every run that does not lose k, whatever other keys are lost, k is successfully fetched at most once and only by a call that holds it |
| FetchOnce.RecheckListsUnlocked | internal/intel/embedder.go:178-195 | a lookup of the second pass lists a key without a lock exactly when the call neither holds nor hits it |
| FetchOnce.ListsWhatMissed | internal/intel/embedder.go:84-101 | in every run what a call has locked or listed for its fetch is exactly what its lookups missed |
| FetchOnce.FetchesUnlockedIffLost | internal/intel/embedder.go:84-101 | in every run a call fetches k without holding it exactly when its first pass never missed k, hit it, and its second pass later found k lost |
| FetchOnce.LostBetween | internal/intel/embedder.go:236-280 | between a hit and a later miss of a key the cache lost that key |
| FetchOnce.LostHitIsFetchedUnlocked | internal/intel/embedder.go:88-101 | a run with one loss after which a call fetches a key that it does not hold |
| FetchOnce.FetchedTwiceAtOnce | internal/intel/embedder.go:88-112 | a run with one loss in which two calls successfully fetch the same key and neither has stored it yet |
| Embedder.Embedder.CacheGet | internal/intel/embedder_cache.go:113-130 | a live memory entry hits, else a live usable file, else nothing; a hit is the vector promised for the input, and a miss leaves no memory entry |
| Embedder.Embedder.FromMemory | internal/intel/embedder.go:236-251 | the memory cache hits exactly on a live entry and drops an expired one |
| Embedder.Embedder.CacheSet | internal/intel/embedder_cache.go:132-203 | a stored vector is found again in memory and, unless pruned, on disk, for as long as the time to live; the refusal of the key is forgotten, other files stay unless pruned, and both caches stay right |
| Embedder.Embedder.Misses | internal/intel/embedder.go:178-195 | a miss pass leaves each position right or waiting for its key; each missing key is listed once with an input of the call, and when nobody interferes exactly the keys that PassOver says |
| Embedder.Embedder.NeitherServes | internal/intel/embedder.go:178-195 | what a pass lists: with caching off every key; else none that a file serves, every one that neither a file nor the memory serves, and none that the memory serves while it has room |
| Embedder.Embedder.FirstNegative | internal/intel/embedder.go:115-122 | a refusal is reported exactly when some key has a live one; expired ones are forgotten |
| Embedder.Embedder.Refuse | internal/intel/embedder_cache.go:452-471 | with refusals enabled every listed key gets a refusal dated now, which is live for the negative time to live |
| Embedder.Embedder.Merge | internal/intel/embedder.go:168-176 | every position waiting for a fetched key gets its normalised vector, every other one stays, and the fetched vectors are stored in order in memory and, unless pruned, on disk |
| Embedder.Embedder.Stale | internal/intel/embedder_cache.go:473-489 | expired entries serve exactly when allowed and every missing key has a usable one |
| Embedder.Embedder.Resolve | internal/intel/embedder.go:95-112 | after the second pass: nobody is asked exactly when nothing is missing or a refusal is live; otherwise exactly the missing inputs are; all positions right, or a request that failed without stale entries to stand in, whose keys are then refused unless it was cancelled |
| Embedder.Embedder.Embed | internal/intel/embedder.go:78-113 | a successful call returns the normalised vector of every non-blank input in order, whatever other calls do meanwhile, and the caches stay right. When nobody interferes: it is turned away exactly when a key that misses both passes has a live refusal, and asks nobody then; otherwise it asks for exactly the keys that miss both passes; and it fails exactly when that request does and stale entries may not or cannot serve all of them |
| Embedder.Embedder.CompactInputs | internal/intel/embedder.go:210-220 | the trimmed inputs in order without the blank ones |
| Embedder.CompactOneByOne | internal/intel/embedder.go:210-220 | each input counts on its own: dropped when blank, otherwise trimmed and kept in order |
| CachePrune.RemovalSet | internal/intel/embedder_cache.go:565-599 | the removal set: expired files, then the shortest oldest-first prefix of the others that meets the budgets |
| CachePrune.Split | internal/intel/embedder_cache.go:568-578 | expired and live files are the input as a multiset |
| CachePrune.CutIsLeast | internal/intel/embedder_cache.go:580-597 | no smaller cut brings the rest within both budgets |
| CachePrune.PruneLosesNothing | internal/intel/embedder_cache.go:565-599 | removed and surviving files are the input as a multiset |
| CachePrune.PruneIsEnough | internal/intel/embedder_cache.go:565-599 | every expired file goes and the survivors meet both positive budgets |
| CachePrune.PruneIsNeeded | internal/intel/embedder_cache.go:579-598 | the live files removed are the least oldest-first prefix that does, none newer than a survivor |
| CachePrune.PruneByAge | internal/intel/embedder_cache.go:565-599 | a file older than the lifetime of its kind goes and no survivor is; the survivors keep to each positive budget; and when the others keep to them nothing else goes |
| NetworkCollector.NewLimits | internal/rendering/cdp_client.go:177-194 | the limits of a new collector are positive: as given or the defaults, the resource limit falling back to the total one |
| NetworkCollector.MinPositive | internal/rendering/network_state.go:197-208 | minPositiveInt64: the least positive value, 0 when there is none |
| NetworkCollector.Collector.EnsureResource | internal/rendering/network_event_source.go:167-196 | looking a request up: relabel, refuse when the table is full, or add it last |
| NetworkCollector.Collector.AppendToResource | internal/rendering/network_event_source.go:210-236 | an append is cut to what the budgets leave, and flagged |
| NetworkCollector.Collector.AppendBudgeted | internal/rendering/network_event_source.go:238-245 | a stream message beyond the message budget is dropped and flagged |
| NetworkCollector.Collector.HandleResponse | internal/rendering/cdp_client.go:235-272 | a relevant response is tracked, opened and queued for its body |
| NetworkCollector.Collector.HandleLoadingDone | internal/rendering/cdp_client.go:274-294 | the end of loading closes the request, but not an event source that already spoke |
| NetworkCollector.Collector.HandleEventSourceMessage | internal/rendering/network_event_source.go:18-44 | a server-sent event is counted and appended as one record |
| NetworkCollector.Collector.HandleDataReceived | internal/rendering/network_event_source.go:61-75 | stream data refreshes the clock of its kind of stream |
| NetworkCollector.Collector.HandleWebSocketCreated | internal/rendering/network_event_source.go:77-95 | a relevant web socket is tracked and open |
| NetworkCollector.Collector.HandleWebSocketFrame | internal/rendering/network_event_source.go:97-124 | a text frame of a tracked socket is counted and appended |
| NetworkCollector.Collector.HandleWebSocketClosed | internal/rendering/network_event_source.go:126-139 | a closed socket is no longer open |
| NetworkCollector.Collector.HandleBody | internal/rendering/network_event_source.go:256-263 | a fetched body is appended to its tracked request |
| NetworkCollector.Collector.Handle | internal/rendering/cdp_client.go:196-217 | every event does what its handler does |
| NetworkCollector.Collector.Settle | internal/rendering/network_state.go:60-100 | the loop condition of the capture: the answer and the reason that CaptureSettling.QuietIff characterises |
| CaptureSafety.AppendShape | internal/rendering/network_event_source.go:210-236 | an append adds a prefix of the text, within one of the two budgets, and flags exactly a shortfall |
| CaptureSafety.AppendKeepsTotal | internal/rendering/network_event_source.go:210-236 | the total is the sum of the bodies and within maxBytes plus the capped sum |
| CaptureSafety.StepKeepsInv | internal/rendering/cdp_client.go:196-217 | every event keeps accounting, honest truncation and the open sets |
| CaptureRuns.RunKeepsInv | internal/rendering/cdp_client.go:196-217 | that invariant holds after every run from a new collector |
| CaptureRuns.BytesAreCounted | internal/rendering/network_event_source.go:210-236 | after every run BodyBytes is the length of Body and within the larger budget, totalBytes their sum and within maxBytes plus the sum of the bodies capped at resourceMaxBytes |
| CaptureRuns.SetsHoldResources | internal/rendering/network_event_source.go:167-196 | order lists each resource once within maxResources; every open or pending set holds resources, open sockets are active |
| CaptureRuns.NeverWebSocketIdle | internal/rendering/network_state.go:92-99 | no run makes the settling decision answer websocket_idle |
| CaptureRuns.TruncationIsHonest | internal/rendering/network_event_source.go:210-245 | after every run the flag is set exactly when a request was refused or a body misses offered bytes; until then every body is all that was offered |
| CaptureRuns.RunGrows | internal/rendering/network_event_source.go:210-245 | the flag stays set and the total never shrinks |
| CaptureBudgets.StepAppends | internal/rendering/network_event_source.go:210-236 | an event that appends adds to one body a prefix of its text, some of it exactly when a budget has room, and leaves every other body alone |
| CaptureBudgets.SkippedBudget | internal/rendering/network_state.go:197-208 | the budget used is the plain minimum exactly unless one budget alone is exhausted |
| CaptureBudgets.StepOverdraws | internal/rendering/network_event_source.go:210-236 | within the total budget, an event leaves it exactly when it meets an exhausted total with room in its resource |
| CaptureBudgets.BudgetHoldsUntilOverdrawn | internal/rendering/network_event_source.go:210-236 | a run stays within maxBytes exactly when none of its events overdraws |
| CaptureBudgets.TotalCanExceedItsBudget | internal/rendering/network_state.go:197-208 | a run of a new collector that exceeds maxBytes |
| CaptureBudgets.StepOverdrawsOwn | internal/rendering/network_event_source.go:210-236 | within its own budget, a body leaves it exactly when an event meets that budget exhausted with room in the total; bodies never shrink |
| CaptureBudgets.OwnBudgetHoldsUntilOverdrawn | internal/rendering/network_event_source.go:210-236 | over any run a body stays within resourceMaxBytes exactly when no event overdraws it |
| CaptureBudgets.OwnCanExceedItsBudget | internal/rendering/network_state.go:197-208 | a run of a new collector in which a body exceeds resourceMaxBytes |
| CaptureBudgets.CappedAppendsStayWithin | internal/rendering/network_event_source.go:210-236 | under a rule that counts an exhausted budget as zero, any appends keep both plain bounds |
| CapturePrefix.BodyIsKept | internal/rendering/network_event_source.go:210-236 | after every run the body is made of the bytes kept, in the order they were offered |
| CapturePrefix.NoHoleIffNeverResumed | internal/rendering/network_event_source.go:210-236 | the kept bytes are the first ones offered exactly when no event appends to the body after a cut |
| CapturePrefix.BodyIsPrefix | internal/rendering/network_event_source.go:210-236 | a body that was never resumed is a prefix of what was offered |
| CaptureOpen.OpenUntilEnded | internal/rendering/cdp_client.go:235-294 | in every run the sets of active requests, streams, event sources and web sockets hold exactly what was opened and has not ended since; an event source that succeeded and had messages does not end |
| CaptureOpen.LabelSays | internal/rendering/network_event_source.go:167-196 | a response labels its request with its type, content type and source |
| CaptureOpen.HostsOfPage | internal/rendering/network_event_source.go:155-165 | relevant hosts are that of the page, any below it, and both with a leading www. |
| CaptureTallies.PendingUntilTaken | internal/rendering/network_event_source.go:198-254 | in every run exactly the requests with a body that were queued since the last taking are pending; event sources and web sockets never are queued |
| CaptureTallies.MessagesAreCounted | internal/rendering/network_event_source.go:18-44 | in every run each request counts its own messages, dropped ones included |
| CaptureTallies.StepTallies | internal/rendering/cdp_client.go:196-233 | what an event adds to the counts of the collector |
| CaptureTallies.StateIsLast | internal/rendering/cdp_client.go:235-294 | in every run the status of a request is that of its last response, and it is finished as its last end says |
| CaptureSettling.ActivityIsLast | internal/rendering/network_state.go:22-35 | in every run the activity clock is that far back exactly when all traffic of followed requests is |
| CaptureSettling.SpeechIsLast | internal/rendering/network_state.go:49-58 | in every run the stream clock is that far back exactly when everything streams and event sources said is |
| CaptureSettling.QuietIff | internal/rendering/network_state.go:60-100 | after any run and at any time the page is quiet exactly when 500 ms passed since it was ready, 8 s at all while something is open, and the silence required for what is open has lasted since the last event that counts; the reason names what is open |
| CaptureSettling.StaysQuiet | internal/rendering/network_state.go:60-100 | once quiet, a page without further events stays quiet for the same reason |
| CaptureSettling.BecomesQuiet | internal/rendering/network_state.go:60-100 | a page where nothing happens any more is quiet from some time on |
| EventStream.EventStreamDataBlocks | internal/rendering/network_evidence.go:102-124 | the reader loop returns the blocks of the body |
| EventStream.RoundTrip | internal/rendering/network_event_source.go:39-42 | single-line payloads written to a body are read back trimmed and in order |
| EventStream.ReadBackIffSingleLines | internal/rendering/network_evidence.go:102-124 | any list of payloads is read back exactly when no trimmed payload has a line break |
| EventStream.CutBodyReadsFirstItems | internal/rendering/network_evidence.go:102-124 | a body cut at any byte is read as the first payloads, the last of them perhaps cut |
| EventFields.BlocksAreTold | internal/rendering/network_evidence.go:102-124 | any stream of data lines, other lines and blank lines, with either line end, is read as the joined data of each event that has some |
| EventFields.FramesAreLines | internal/rendering/network_event_source.go:97-124 | web socket frames without line breaks are the lines of the recorded text |
| EventCapture.OfferedIsWritten | internal/rendering/network_event_source.go:18-44 | the text a run offers to an event source is the written form of its payloads |
| EventCapture.EventsAreReadBack | internal/rendering/network_event_source.go:18-44 | while the body of a request is not truncated, whatever happens to others, the reader returns the payloads the page was sent on it, exactly when they are single lines |
| EventCapture.CutEventsReadFirstItems | internal/rendering/network_event_source.go:18-44 | a truncated body that was never resumed is read as the first payloads of the run, the last of them perhaps cut |
| DomWalker.Walker.AppendTextNode | internal/pipeline/reduce.go:326-337 | a node for the text below, none when it is blank |
| DomWalker.Walker.AppendContextNode | internal/pipeline/reduce.go:339-359 | a node for a skipped element kept for context: long enough, cut at 600 bytes, at most eight |
| DomWalker.Walker.VisitElement | internal/pipeline/reduce.go:305-318 | a skipped element ends the walk below it, an owner adds its text and covers what is below |
| DomWalker.Walker.VisitChildren | internal/pipeline/reduce.go:290-320 | the walk over siblings with their numbers |
| WalkCoverage.ExtractTextWords | internal/pipeline/reduce.go:428-453 | extracted text has exactly the visible words below the node, in document order |
| WalkCoverage.WalkFinds | internal/pipeline/reduce.go:290-320 | words found plus those that covering owners account for are the words due, for every subtree |
| WalkCoverage.BodyIsCovered | internal/pipeline/reduce.go:290-337 | every word of a visible leaf appears once per text owner above it, once when there is none, and hidden words never |
| WalkCoverage.WalkContexts | internal/pipeline/reduce.go:339-359 | exactly the first eight skipped elements of a kept kind with 25 bytes of text or more are kept for context, on any page |
| WalkPaths.WalkHasDistinctPaths | internal/pipeline/reduce.go:290-337 | the path strings of all nodes of a walk are pairwise distinct |
| WalkKinds.WalkIsProper | internal/pipeline/reduce.go:290-337 | every node of a walk has the kind of its tag, and exactly those of h1 to h6 have a heading level, the number in the tag |
| WalkOrigin.WalkComesFromTree | internal/pipeline/reduce.go:290-359 | the path of every node leads, sibling by sibling, to an element or leaf of the page, and the node holds exactly its visible words, or its cut context text |
| WalkOrigin.ConcealedShowsNothing | internal/pipeline/reduce.go:361-371 | page furniture, controls, code and elements marked hidden or aria-hidden show no word; any other element shows what its children show |
| Dom.NumberedIsOneToOne | internal/pipeline/reduce.go:306-307 | a path segment determines its tag and its number |
| Markdown.LineStep | internal/pipeline/reduce_markdown.go:94-108 | a line of a block closes the other buffers and joins its own, where the open run is |
| Markdown.CloseStep | internal/pipeline/reduce_markdown.go:62-83 | a fence mark or a blank line closes the open run |
| Markdown.HeadingStep | internal/pipeline/reduce_markdown.go:84-93 | a heading closes the open run and becomes a node |
| Markdown.BodyLine | internal/pipeline/reduce_markdown.go:78-108 | one line outside front matter and fences, with its flushes |
| Markdown.NextLine | internal/pipeline/reduce_markdown.go:50-108 | one turn of the loop keeps at most one buffer filled, holding the last run |
| Markdown.MarkdownNodes | internal/pipeline/reduce_markdown.go:8-115 | the four-buffer loop renders the maximal runs of classified lines |
| MarkdownContent.RunsKeepContent | internal/pipeline/reduce_markdown.go:50-108 | every content line and heading is in exactly one run, in order |
| MarkdownContent.BlocksHaveLines | internal/pipeline/reduce_markdown.go:19-46 | no run of lines is empty |
| MarkdownContent.OneNodePerRun | internal/pipeline/reduce_markdown.go:19-51 | every run with words becomes one node, in order, with its kind and exactly its words |
| MarkdownContent.WordsAreKept | internal/pipeline/reduce_markdown.go:8-115 | the words of all nodes in order are the words of all content lines in order |
| MarkdownContent.ClassifyKeepsWords | internal/pipeline/reduce_markdown.go:50-108 | exactly front matter, fence marks and blank lines are dropped; other lines keep their words, but for the mark of a heading or list item |
| MarkdownContent.TitleIsFirstTopHeading | internal/pipeline/reduce_markdown.go:84-93 | the title is the first heading of level 1, if any |
| MarkdownContent.PathsAreDistinct | internal/pipeline/reduce_markdown.go:117-131 | nodes are numbered by tag and no two have the same path |
| MarkdownLayout.NodesAreLaid | internal/pipeline/reduce_markdown.go:19-46 | every run with words becomes one node, in order: headings with level and tag, paragraphs and list items with their words a space apart, tables and code with their line breaks |
| MarkdownLayout.ClassifyKeepsLayout | internal/pipeline/reduce_markdown.go:50-108 | inside a fence a line stays as it is but for blanks at its end; outside, hashes, bars and marks decide its kind, exactly |
| MarkdownLayout.ModeOfLine | internal/pipeline/reduce_markdown.go:48-77 | front matter ends at the next line of dashes; a line is inside a fence exactly after an odd number of fence marks |
| MarkdownLayout.RunsAreMaximal | internal/pipeline/reduce_markdown.go:50-108 | runs begin where the kind changes, after a break and at headings, and nowhere else |
| MarkdownLayout.EitherLineEnd | internal/pipeline/reduce_markdown.go:9 | a text has the same lines with either line end |
| Segmenter.Segmented | internal/pipeline/segment.go:9-45 | the loop that edits the last segment in place makes the greedy packing of the items, which SegmentOrigin traces back to the page |
| SegmentOrigin.SegmentsComeFromPage | internal/pipeline/segment.go:9-67 | the positions of all content, in order, are cut into groups; each segment has the kind of all nodes of its group, carries the heading path in force before its first node, which compares equal for the others, or the page title outside headings, joins their texts within the limit, and no node could have joined the segment before |
| Segmenter.AddNode | internal/pipeline/segment.go:29-41 | a node joins the last segment when it may, and starts one otherwise |
| Segmenter.GreedyPacks | internal/pipeline/segment.go:9-67 | chunks hold every item once in order, one kind and heading path each, within the limit unless single, and no neighbours could merge |
| Segmenter.PackingIsUnique | internal/pipeline/segment.go:9-67 | a packing meets these rules if and only if it is the greedy one |
| Segmenter.SegmentsKeepNodes | internal/pipeline/segment.go:9-45 | every node that is no heading is in exactly one segment, in page order |
| Segmenter.SegmentsKeepWords | internal/pipeline/segment.go:9-45 | the words of all segments in order are the words of those nodes in order |
| Segmenter.SegmentsFit | internal/pipeline/segment.go:59-67 | a segment of several nodes is within the limit |
| Segmenter.SamePathIffEqual | internal/pipeline/segment.go:63-65 | joining with NUL compares paths of NUL-free headings exactly, but for no heading and one empty heading |
| Segmenter.SiblingHeadings | internal/pipeline/segment.go:47-57 | a heading replaces its predecessor of the same level exactly when no level was skipped |
| Segmenter.OutlineIsOnPath | internal/pipeline/segment.go:47-57 | on every page the headings still open are those still open on the heading path, whose entries are at least as deep as their place |
| Segmenter.PathIsOutline | internal/pipeline/segment.go:47-57 | the heading path is the list of headings still open exactly when the levels along it strictly increase |
| TokenBudget.CompactInput | internal/intel/input_budget.go:36-74 | the loop over at most four candidates computes the compacted input |
| TokenBudget.TrimTextKeepsFirstWords | internal/intel/input_budget.go:7-16 | trimTextTokens keeps exactly the first words up to the limit |
| TokenBudget.FitTextKeepsFirstWords | internal/intel/input_budget.go:53-57 | a fitted text keeps its first words up to its budget, and the second attempt adds none |
| TokenBudget.ShareLeavesEnough | internal/intel/input_budget.go:25-34 | the clamped share of the remaining tokens leaves 16 for each candidate to come |
| TokenBudget.FitFromIsBounded | internal/intel/input_budget.go:49-69 | from any candidate on, the fitted texts take at most the tokens that remain |
| TokenBudget.CompactFits | internal/intel/input_budget.go:36-74 | compaction happens exactly with a budget and two candidates or more; then objective and failure class are kept without the white space around them, the texts take at most max(64, allowance) tokens, and each of at most four candidates keeps its first words, as many as its fair share of what is left over allows |
| TokenBudget.WholeInputFits | internal/intel/input_budget.go:36-74 | the whole compacted input is within maxInputTokens, or within 64 tokens more than its objective and failure class take, and no token of that goes unassigned |
| McpFraming.Conn.ReadLine | internal/transport/mcp.go:341-344 | takes the first line off the input, or all of it when there is no line break |
| McpFraming.Conn.ReadFramed | internal/transport/mcp.go:338-364 | reads headers up to the blank line and then as many bytes as announced |
| McpFraming.Conn.DetectFraming | internal/transport/mcp.go:273-295 | skips white space and recognises a Content-Length header without consuming it |
| McpFraming.Conn.ReadPayload | internal/transport/mcp.go:71-91 | detects the mode once and then reads in it |
| McpFraming.Conn.ReadUntilFailure | internal/transport/mcp.go:163-172 | the server loop takes payloads until one cannot be read |
| McpFraming.Conn.WriteResponse | internal/transport/mcp.go:93-106 | writes a frame, or a line in raw mode |
| McpFraming.HeaderOfPrint | internal/transport/mcp.go:348-354 | the printed header line announces its length exactly when it fits a 64-bit int |
| McpFraming.FrameRoundTrip | internal/transport/mcp.go:338-376 | a frame is read back without touching what follows, exactly for payloads not empty and not too long |
| McpFraming.CutFrameEnds | internal/transport/mcp.go:338-364 | a cut frame is never read as a payload, and broken off inside the payload it is an unexpected end |
| McpFraming.FrameIsDetected | internal/transport/mcp.go:273-295 | a stream that starts with a frame is detected as Content-Length framing |
| McpFraming.StreamRoundTrip | internal/transport/mcp.go:338-376 | any list of payloads written as frames is read back in order up to the end of input, exactly when all are readable |
| McpFraming.CutStreamReadsWholeFrames | internal/transport/mcp.go:338-376 | of a stream cut at any byte exactly the payloads of whole frames are read |
| McpFraming.CutConnectionReadsWholeFrames | internal/transport/mcp.go:71-91 | of a new connection cut at any byte exactly the payloads of whole frames are read, unless the cut falls in the first header name, which is taken for raw mode |
| McpHeaders.HeadersRoundTrip | internal/transport/mcp.go:338-364 | a payload is read back whatever other headers come before and after its length, whatever the letter case of the name and the white space after the colon |
| McpHeaders.NoLengthIsRefused | internal/transport/mcp.go:338-364 | a header part without a length is refused |
| McpHeaders.DetectIff | internal/transport/mcp.go:273-295 | after leading white space, framing is detected exactly when the header name and a colon follow in any letter case; other input is raw |
| Decimal.AtoiOfPrint | internal/transport/mcp.go:350 | a printed length is parsed back exactly when it fits |
| LogRotation.Logger.constructor | internal/observability/logger.go:72-86 | a log is opened over whatever files are there; its limits are as given or the defaults, never zero or less |
| LogRotation.Logger.RotateIfNeeded | internal/observability/logger.go:199-225 | the descending renames, over whatever files are there |
| LogRotation.Logger.Write | internal/observability/logger.go:90-118 | an event is appended to the current file, after a rotation if it would get too long |
| LogRotation.Logger.Tail | internal/observability/logger.go:162-197 | the shifting ring returns exactly the last events of the current file, 50 by default |
| LogRotation.MoveAllMoves | internal/observability/logger.go:213-219 | what the renames leave at each number |
| LogRotation.RotationKeepsOrder | internal/observability/logger.go:213-222 | a rotation keeps the order of files and drops at most the oldest |
| LogRotation.RotatesIffTooLong | internal/observability/logger.go:90-118 | a write rotates exactly when there is a current file and the event does not fit; what is at each number then |
| LogRotation.RunKeepsInv | internal/observability/logger.go:90-225 | after any run, from an empty log or from what an earlier run left: numbers 1 to k without gap, k at most maxFiles; oldest to newest the files are a suffix of everything written, and all of it until the numbers run out; each file is within maxBytes or one event |
| LogRotation.RunKeepsFull | internal/observability/logger.go:90-225 | after any run no rotated file had room for the event that the next file begins with |
| LogRotation.LastWriteIsShown | internal/observability/logger.go:162-197 | Tail is never empty after a write and shows exactly as many of the last events written as asked for and as the file holds, also in a log opened again |
| Lines.SplitKeepsBytes | internal/pipeline/reduce_markdown.go:9 | splitting at line breaks loses no byte and leaves none inside a line |
| Text.FieldsNormalize | internal/pipeline/reduce.go:451-453 | normalising white space keeps exactly the words |

## Left out

- Process launch, signals, temporary profiles, the DevTools socket and HTTP: only their success, failure and exit are kept. A failed launch is taken to leave no process, and closing a process to end it.
- Decoding of messages: events and requests arrive decoded; the host of a URL is given, absent when the URL does not parse.
- Embedder.Embedder.Embed: vectors are over the reals and normalisation is an idempotent function, digests of trimmed inputs are one-to-one and not blank, and one clock value is read per pass; identity checks of cache files are one flag, and the files a prune removes are a parameter. What exactly is asked and refused is stated for a call that nobody interferes with; otherwise in the state that the call leaves.
- FetchOnce.FetchedOnce: requires that the key is not lost during the run, because without it the property is false (FetchedTwiceAtOnce); FetchesUnlockedIffLost says exactly when it fails. The cache is enabled.
- EmbeddingCache.Cache.Set: the 64-bit tick does not wrap around.
- CachePrune.RemovalSet: reading the directory and deleting the files are not modelled.
- NetworkCollector.Collector.HandleBody: the gzip decoding and the test for binary text come before it and are not modelled.
- NetworkCollector.Collector.Handle: the list of sample URLs of unavailable bodies, the first settling error and the snapshot are not modelled.
- CaptureSettling.QuietIff: requires event times that do not run backwards, as the monotonic clock gives them.
- EventStream.RoundTrip: requires single-line payloads, as ReadBackIffSingleLines shows it has to.
- DomWalker.Walker.VisitChildren: takes the parsed tree as given; structured data and network nodes, which are appended after the walk, are not modelled.
- WalkPaths.WalkHasDistinctPaths: requires tags without a slash, which the tag name state of section 13.2.5.8 of the WHATWG HTML standard guarantees.
- McpFraming.Conn.ReadPayload: raw mode hands over to a JSON decoder, which is not part of this model; allocation of an announced length is not modelled.
- TokenBudget.CompactInput: scores are copied, not computed.
- LogRotation.RunKeepsInv: files left under other limits or numbered with gaps are not covered by the invariant; RotateIfNeeded and MoveAllMoves say what happens to them.
- LogRotation.Logger.Write: every rename and write succeeds, and an event is one line of JSON; redaction and identifiers are not modelled.
- LogRotation.Logger.Tail: lines beyond the scanner's limit of one megabyte and lines that are not JSON are not modelled.
- Text.FieldsNormalize: white space outside ASCII is not modelled.
- Stores, analytics, export and import, the command line, configuration, scoring, provider cooldown, the domain graph and packet rendering: their behaviour is in SQL, in the file system or in one branch each.
