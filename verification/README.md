# Models of Temu's scan protocols and algorithms

Temu is a security scanner. Most of it talks to the network; this project models the parts that decide
something over a whole run, and proves what they promise. Every external call is an input: what a fetch
returns, which ports are open, what the clock says, who moves next.

* **Distributed scan** (`DistributedScan`, `DistributedBatches`, `DistributedStatus`, `DistributedReports`,
  `DistributedBroker`).
  Coordinators push one task per target on a shared list, workers pop, scan and push results, coordinators
  collect their own batch and re-push the others. One step is one command on the shared lists; runs are all
  interleavings, with crashes anywhere. The class `Broker` holds the loops themselves.
* **Resumable network scan** (`Cidr`, `NetworkScan`). A chunked loop over an IPv4 block with a checkpoint
  written to a temporary file and renamed. The machine allows a crash between any two durable steps.
* **Breadth-first explorers** (`BreadthFirst`, `PathFuzzer`, `BrowserUrls`, `BrowserCrawl`). Both worklists are equal to
  bounded reachability, with termination measures that do not assume a finite site.
* **Rate limiter and retry loop** (`RateLimiter`). Slots are exact real times; runs interleave reservations
  and observations of any number of callers.
* **Connection budget** (`ConnectionBudget`). Port scans interleave at reservations and connections.
* **Algorithms**: `Ports` (port expressions), `WordWrap`, `Luhn`, `DnsName`, `ReportDiff`, `Dedup` and
  `AssetGraph`, `CveCache`.

`Options`, `Severities`, `Collections`, `Ordered`, `Text`, `Decimal` hold shared definitions. Run
`dafny verify dfyconfig.toml` to check everything.

The main methods are stated twice. One clause ties them to the functions the theorems about whole runs speak of. The
others say on the fields of inputs and results what the answer is: which results a response gives, which addresses
were asked, what a port's connections found. Those clauses use ghost predicates that no code calls, so a slip in a
function that both the code and its specification call does not go unnoticed.

## What the proofs found

* Batch ids are millisecond timestamps (crates/cli/src/distributed.rs:359-361). Task ids are unique over all
  runs exactly when batch ids differ (`DistributedScan.DistinctBatchesAreNeeded`), but progress needs less: it is
  exact over all runs exactly when any two coordinators that share a batch id have one target each
  (`DistributedBatches.ProgressIsExactIff`). Otherwise a coordinator can report 2 of 2 with its second task never
  consumed: `DistributedBatches.CompleteWithoutSecondTarget`.
* A task is lost exactly when a process stops with it in its hands: `DistributedScan.NothingLostIff`.
* `Queued` is written after the push, so the status key of a consumed result can be stale. It is `Queued` exactly
  when its scan finished before the coordinator had written `Queued`, and the result's status otherwise:
  `DistributedStatus.ConsumedStatusIff`.
* The checkpoint is replaced atomically exactly when its own extension is not `tmp`, the extension of the
  temporary file: `NetworkScan.CheckpointIsAtomicIff`.
* A checkpoint records neither the passive flag nor the liveness strategy. A scan resumed under other options is
  one pass on every network exactly when the passive flag is the same and the strategy is the same or is one of
  the two that do not look for a host first: `NetworkScan.ResumedIsOnePassIff`, over all histories
  `NetworkScan.ResumedRunsAreOnePassIff`, with a run in `NetworkScan.PassiveCheckpointResumedActively`.
* Word wrap uses the fewest lines possible, except that a blank text within the limit still takes a line:
  `WordWrap.NoSplitIsShorter`.
* The latency baseline lies between the smallest and the largest accepted sample, except that it is clamped to 64
  bits of nanoseconds and the samples are not: it is too small exactly when there are two samples or more and all
  exceed that limit: `RateLimiter.BaselineIsBetweenSamples`.
* An active scan costs at most 13 connections on a likely TLS port and 12 on any other, and both are attained.
* Suppression looks at current findings only, so a diff and the diff of the swapped reports list the same keys
  exactly when both reports have the same keys suppressed: `ReportDiff.SwapIsSymmetricIff`, with a case where they
  do not in `ReportDiff.SuppressionIsOneSided`.
* Marks of exploited vulnerabilities accumulate: every catalog update raises a row once per listing, above the
  severity it has after the refreshes; a row the update does not refresh climbs at every update, and one it has
  seeded goes from High to Critical at once: `CveCache.CatalogUpdateInflates`, `CveCache.UnrefreshedRowClimbs`.
* Node ids are lower-cased, group keys are not: groups whose keys differ in letter case share one finding node, which
  then carries the riskiest one's name and risk: `AssetGraph.FindingNodes`, `AssetGraph.SortedLeadRules`.

## Model

| member | source | states |
|---|---|---|
| DistributedScan.TaskIdInjective | crates/cli/src/distributed.rs:268-270 | two task ids are equal only if batch and index are, although the index is padded to six digits and may outgrow them |
| DistributedReports.TaskIdReads | crates/cli/src/distributed.rs:268-270 | a task id is the batch id, a hyphen and at least six digits that spell the index, with no leading zero beyond the six |
| DistributedScan.StepConservesIds | crates/cli/src/distributed.rs:77-198 | every step but a push of a new task or a crash moves ids between places and neither makes nor loses one |
| DistributedScan.StepKeepsUnique | crates/cli/src/distributed.rs:77-198 | no step brings a second copy of an id, since the id about to be used is nowhere in the system |
| DistributedScan.InvAlways | crates/cli/src/distributed.rs:77-198 | uniqueness, provenance of every task and result, and agreement of the list and the map with what was consumed, over every interleaving |
| DistributedScan.AtMostOnePlace | crates/cli/src/distributed.rs:77-198 | over every run with distinct batch ids each id is in at most one of the two lists, a worker's hands, a coordinator's hands, or consumed |
| DistributedScan.ListPlusMapCountsResults | crates/cli/src/distributed.rs:160-198 | for results with distinct ids the list of reports plus the map of failures has one entry per result |
| DistributedScan.ProgressIsExact | crates/cli/src/distributed.rs:160-198 | progress is the number of distinct own tasks consumed, never exceeds the targets, and reaches them exactly when every task of the batch was consumed |
| DistributedScan.ConsumedTargetsMatch | crates/cli/src/distributed.rs:100-141 | a consumed result carries the target its index had in the coordinator's list |
| DistributedScan.NothingLostIff | crates/cli/src/distributed.rs:77-198 | over every run each issued id is in exactly one place if and only if no step dropped one, that is, no process stopped with a task or result in its hands |
| DistributedScan.DrainedMeansComplete | crates/cli/src/distributed.rs:160-198 | a run that dropped nothing and has emptied both lists and all hands has completed every coordinator whose tasks are all queued |
| DistributedScan.SharedBatchDuplicates | crates/cli/src/distributed.rs:359-361 | two coordinators with the same batch id put the same task id in the system twice |
| DistributedScan.DistinctBatchesAreNeeded | crates/cli/src/distributed.rs:359-361 | uniqueness over all runs holds if and only if the batch ids differ |
| DistributedBatches.SharedInvAlways | crates/cli/src/distributed.rs:77-198 | over every interleaving, even with shared batch ids: provenance, agreement of the list and the map with what was consumed, unique ids for a coordinator alone with its batch id, and at most one result for one with a single target |
| DistributedBatches.ExactWhenHarmless | crates/cli/src/distributed.rs:160-198 | from that invariant, progress is exact if coordinators that share a batch id have one target each |
| DistributedBatches.SharedBatchMiscounts | crates/cli/src/distributed.rs:145-198 | otherwise a run in which a coordinator consumes one id twice: another coordinator's result, then its own |
| DistributedBatches.ProgressIsExactIff | crates/cli/src/distributed.rs:145-198 | progress is exact over all runs for every coordinator if and only if any two that have targets and share a batch id have one target each |
| DistributedBatches.CompleteWithoutSecondTarget | crates/cli/src/distributed.rs:145-198 | targets a, b and target c under one batch id: progress 2 of 2 with c and a scanned and the second task never consumed |
| DistributedStatus.StatusAlways | crates/cli/src/distributed.rs:328-340 | over every run the key of a reported result holds the result's status or Queued |
| DistributedStatus.ConsumedStatus | crates/cli/src/distributed.rs:328-340 | the same for results a coordinator has consumed |
| DistributedStatus.ResultWasFinished | crates/cli/src/distributed.rs:77-138 | every result in a run comes from a step that finished its scan |
| DistributedStatus.ConsumedStatusIff | crates/cli/src/distributed.rs:77-138 | over every run the key of a consumed result is Queued if and only if its scan finished before the coordinator had written Queued for it; otherwise it is the result's status |
| DistributedStatus.LateQueuedOverwritesDone | crates/cli/src/distributed.rs:262-285 | a run that ends with Queued over Done |
| DistributedReports.AllSourcedAlways | crates/cli/src/distributed.rs:77-198 | over every run each result, in a worker's hands, on the list, in a coordinator's hands or consumed, is what some worker's finished scan ended with: that task's id, batch and target, that worker, and Done with its report or Failed with its message |
| DistributedReports.ReportsAreScanned | crates/cli/src/distributed.rs:160-198 | over every run, also with shared batch ids, a coordinator's reports are exactly those of the finished scans its results came from, in the order consumed, and each failed scan is among its failures |
| DistributedReports.ScansCountOnce | crates/cli/src/distributed.rs:160-198 | with distinct batch ids no finished scan is counted twice, and the failures are exactly the failed scans, each under its task id with its own message |
| DistributedReports.WorkerTurnIsFourSteps | crates/cli/src/distributed.rs:77-138 | one turn of a worker is four steps: the head task leaves the list, a result that tells its outcome goes to the tail, and its key holds Done or Failed |
| DistributedReports.QueueingIsTwoSteps | crates/cli/src/distributed.rs:262-285 | queueing one target is two steps: id, batch and target go to the tail, and then the key is Queued |
| DistributedBroker.CollectLoopConserves | crates/cli/src/distributed.rs:160-198 | over the whole collection loop, with any other processes appending and popping in between, every result is still queued, yet to arrive, consumed, or taken by somebody else, with its multiplicity |
| DistributedBroker.CollectLoopTakesOwn | crates/cli/src/distributed.rs:178-185 | whatever the others do, only results of the coordinator's own batch are kept by it, after those it had |
| DistributedBroker.ReceivedAfterExactlyPRePushes | crates/cli/src/distributed.rs:178-185 | with nobody else popping, an own result behind p foreign ones is received after exactly p re-pushes, whatever is appended meanwhile |
| DistributedBroker.RoundIsTwoSteps | crates/cli/src/distributed.rs:175-198 | one turn of the loop is two steps of the protocol machine |
| DistributedBroker.Broker.SetTaskStatus | crates/cli/src/distributed.rs:328-340 | overwrites one status key |
| DistributedBroker.Broker.PopTask | crates/cli/src/distributed.rs:287-299 | takes the head of the list, or nothing when it is empty |
| DistributedBroker.Broker.PopResult | crates/cli/src/distributed.rs:301-313 | takes the head of the list, or nothing when it is empty |
| DistributedBroker.Broker.PushResult | crates/cli/src/distributed.rs:315-326 | appends at the tail |
| DistributedBroker.Broker.EnqueueTargets | crates/cli/src/distributed.rs:262-285 | appends one task per target in order, each with its id, the batch and that target, and marks exactly those ids Queued |
| DistributedBroker.Broker.RunWorkerOnce | crates/cli/src/distributed.rs:77-138 | one popped task becomes one pushed result with that task's id, batch and target: Done with exactly the report scanned and no error, or Failed with exactly the message and no report; its key holds that status; nothing changes when the list is empty |
| DistributedBroker.Broker.RunCoordinator | crates/cli/src/distributed.rs:145-213 | the tasks are pushed and marked, then the loop leaves the lists and keys as the loop function the three lemmas above are about says, whatever the other processes do before each pop and before each re-push; it returns the reports of the results consumed that are Done with a report, in order, or how many distinct ids it consumed if there is none |
| Cidr.MaskClearsLowBits | crates/cli/src/orchestrator.rs:1226-1233 | and-ing with leading ones clears exactly the low bits |
| Cidr.EnumerationIsThePrefixBlock | crates/cli/src/orchestrator.rs:1212-1244 | the hosts are exactly the 32-bit addresses sharing the base's prefix, ascending, each once; the network is a multiple of the host count, so no offset overflows |
| Cidr.AcceptedPrefixes | crates/cli/src/orchestrator.rs:1212-1236 | a prefix is accepted if and only if it is 12 to 32 |
| NetworkScan.StepKeepsInv | crates/cli/src/orchestrator.rs:593-715 | no step, a crash included, leaves results that are not the hosts' below the current offset |
| NetworkScan.PassCovers | crates/cli/src/orchestrator.rs:593-715 | a pass is the concatenation, over the addresses of the block in order, of one address's reports each: none if it is not scanned or has no open port, one for the host with those services if there is no web service, else one per web address in order |
| NetworkScan.AnyHistoryGivesOnePass | crates/cli/src/orchestrator.rs:593-715 | any history of launches, chunk sizes, resumes and crashes with the same options ends with one uninterrupted pass over the addresses of the block, each once, and every durable checkpoint holds the results below its offset |
| NetworkScan.OtherOptionsMix | crates/cli/src/orchestrator.rs:916-944 | resuming a checkpoint written under other options gives a full pass, or the kept reports and then the rest |
| NetworkScan.MixIsOnePassIff | crates/cli/src/orchestrator.rs:916-944 | that mix is one pass if and only if the kept reports are those of the new options |
| NetworkScan.ResumedIsOnePassIff | crates/cli/src/orchestrator.rs:593-715 | over all networks the mix is one pass if and only if the passive flag is the same, and the liveness strategy is the same or both are the two that do not look first |
| NetworkScan.ResumedRunsAreOnePassIff | crates/cli/src/orchestrator.rs:593-715 | the same for every history of launches, resumes and crashes from a disk that holds such a checkpoint |
| NetworkScan.ResumeRun | crates/cli/src/orchestrator.rs:593-715 | a run that resumes the checkpoint and finishes with the mix |
| NetworkScan.PassiveCheckpointResumedActively | crates/cli/src/orchestrator.rs:661-672 | a run: a passive checkpoint on the disk, resumed actively, finishes with results that are neither scan's |
| NetworkScan.ReadableAlways | crates/cli/src/orchestrator.rs:946-958 | with another extension than tmp the checkpoint is whole after every event |
| NetworkScan.TmpPathTears | crates/cli/src/orchestrator.rs:946-958 | with extension tmp one crash leaves a torn checkpoint |
| NetworkScan.CheckpointIsAtomicIff | crates/cli/src/orchestrator.rs:946-958 | the checkpoint survives every history if and only if its extension is not tmp |
| NetworkScan.ScanOneHost | crates/cli/src/orchestrator.rs:611-700 | the reports of one host: none if it is not scanned or has no open port, one for the host with its services, or one per web service in order, with the body its scan gave |
| NetworkScan.ScanChunk | crates/cli/src/orchestrator.rs:611-700 | a chunk appends the reports of exactly its addresses, in order |
| NetworkScan.WriteCheckpoint | crates/cli/src/orchestrator.rs:946-958 | the temporary file is gone and the checkpoint is the new one |
| NetworkScan.RunChunk | crates/cli/src/orchestrator.rs:604-700 | one chunk: its hosts, then the checkpoint, which are steps of the machine |
| NetworkScan.ScanFrom | crates/cli/src/orchestrator.rs:593-715 | the chunk loop from an offset: the pass over the rest, the last checkpoint, and the history of its steps |
| NetworkScan.RunNetworkScan | crates/cli/src/orchestrator.rs:571-715 | the loop fails exactly when a resume finds no checkpoint path, no file, a torn one or another scope; else it returns the kept results and then the reports of exactly the addresses from the saved offset on, each once and in order; the checkpoint then holds them; its durable steps are a history of the machine |
| BreadthFirst.WalksAreQueued | crates/fuzzing/src/fuzzer.rs:261-297 | when all nodes above a depth have had their successors queued, every walk up to that depth ends in a queued node at no larger depth |
| BreadthFirst.SameWalks | crates/fuzzing/src/fuzzer.rs:261-297 | what is within n steps depends on the steps only, however they are described |
| PathFuzzer.FuzzPaths | crates/fuzzing/src/fuzzer.rs:168-255 | for each word in order exactly one result if its response is wanted and none otherwise: a listed status, and either another status than the page for missing paths or a length at least 64 and at least a tenth of that page's length away from it; with the URL, path, status and length of that response |
| PathFuzzer.FindsIff | crates/fuzzing/src/fuzzer.rs:168-255 | a URL is found under a base if and only if some word gives it and its response is kept |
| PathFuzzer.KeptIsWanted | crates/fuzzing/src/fuzzer.rs:214-240 | the filter keeps a response if and only if it is wanted in that sense |
| PathFuzzer.ResultIs | crates/fuzzing/src/fuzzer.rs:168-255 | a result is one of a word if and only if it is at the base without trailing slashes followed by the word behind one slash, and carries that response |
| PathFuzzer.Record | crates/fuzzing/src/fuzzer.rs:276-293 | the inner loop records each new URL once and queues those that allow recursion one level deeper |
| PathFuzzer.SkipKeeps | crates/fuzzing/src/fuzzer.rs:271-274 | the visited check only ever rejects the starting URL, and keeps the invariant |
| PathFuzzer.ExpandLayers | crates/fuzzing/src/fuzzer.rs:276-293 | queued depths stay non-decreasing and at most one apart, and the worklist measure shrinks |
| PathFuzzer.ExpandKeeps | crates/fuzzing/src/fuzzer.rs:268-294 | expanding a base keeps the whole invariant |
| PathFuzzer.DrainedIsExact | crates/fuzzing/src/fuzzer.rs:261-297 | with an empty worklist the URLs seen are exactly those at the end of an allowed chain |
| PathFuzzer.FuzzPathsRecursive | crates/fuzzing/src/fuzzer.rs:261-297 | each URL once with what its base and word give; a URL is returned if and only if it ends a chain of at most maxDepth + 1 wanted responses whose intermediate statuses are among the nine that allow recursion; terminates on any site |
| BrowserUrls.ScopeIs | crates/discovery/src/browser.rs:482-486 | the origin test holds if and only if scheme, host and effective port agree: the explicit port, or the default of the scheme |
| BrowserUrls.PagePathIs | crates/discovery/src/browser.rs:488-506 | a link is a page if and only if its path, in any letter case, ends in none of the listed suffixes, scripts included |
| BrowserUrls.MutatesIs | crates/discovery/src/browser.rs:525-539 | a link is destructive if and only if one of the listed words stands in its text, in any letter case |
| BrowserUrls.KeyIdentifies | crates/discovery/src/browser.rs:541-545 | for URLs as a parser gives them, two have one key if and only if they agree in everything but the fragment |
| BrowserCrawl.Follow | crates/discovery/src/browser.rs:103-118 | a list of links is recorded and queued in order: exactly the first recordable link of each new key becomes an asset, with this source |
| BrowserCrawl.NewAssetsFacts | crates/discovery/src/browser.rs:508-523 | an asset is a same-origin link that is not destructive and was not known before |
| BrowserCrawl.FollowScripts | crates/discovery/src/browser.rs:120-146 | a page's scripts are fetched only the first time they are met; what is followed covers every script not met before |
| BrowserCrawl.FollowPage | crates/discovery/src/browser.rs:82-146 | what is queued and recorded for one fetched page, and that each new asset is where its source says |
| BrowserCrawl.VisitHop | crates/discovery/src/browser.rs:120-146 | a page linked from a script that is not fetched again is queued already, no deeper than one hop |
| BrowserCrawl.VisitScripts | crates/discovery/src/browser.rs:120-146 | fetching each script once loses no page, kept by every visit |
| BrowserCrawl.VisitPage | crates/discovery/src/browser.rs:79-146 | visiting the page at the head, fetched or not, keeps the crawl's invariant and the sources of the assets |
| BrowserCrawl.VisitKeeps | crates/discovery/src/browser.rs:67-146 | visiting a page keeps the whole invariant |
| BrowserCrawl.DrainedIsExact | crates/discovery/src/browser.rs:67-146 | with an empty worklist the pages visited are exactly those within maxDepth hops |
| BrowserCrawl.CapIsExact | crates/discovery/src/browser.rs:67-78 | the crawl visits every reachable page if and only if they are no more than the page cap |
| BrowserCrawl.RunBrowserCrawl | crates/discovery/src/browser.rs:48-150 | at most the cap; every page and asset has the scheme, host and effective port of the base; nearest pages first, and all pages in scope within maxDepth links if the cap is not reached; the assets are exactly the links in scope, on the visited pages or the scripts they load, whose text has none of the listed words, each once, found at the place their source names |
| BrowserCrawl.StaysInScope | crates/discovery/src/browser.rs:48-150 | every page visited and every asset is the address of a URL with the scheme, host and effective port of the base |
| RateLimiter.PaceAlways | crates/core/src/resilience.rs:107-150 | over every run the level is 0 to 3 and the rate is the configured one, its half, its quarter, its quarter, rounded down and at least 1 |
| RateLimiter.GrantsArePaced | crates/core/src/resilience.rs:66-87 | each slot is the later of its request and one interval after the slot before, at the rate then in force |
| RateLimiter.ConsecutiveSlots | crates/core/src/resilience.rs:66-87 | the same, for any two consecutive slots |
| RateLimiter.WindowBound | crates/core/src/resilience.rs:66-87 | slots granted at no more than a given rate: a window of w seconds holds at most rate times w, plus one |
| RateLimiter.ConfiguredRateHolds | crates/core/src/resilience.rs:47-87 | the same with the configured rate, for every interleaving of reservations and observations |
| RateLimiter.BurstIsEven | crates/core/src/resilience.rs:66-87 | a burst on an unthrottled limiter is spread exactly one interval apart |
| RateLimiter.BurstAttainsTheBound | crates/core/src/resilience.rs:66-87 | the window of a burst on an unthrottled limiter holds exactly as many grants as the bound allows |
| RateLimiter.CalmRestores | crates/core/src/resilience.rs:137-150 | n calm responses lower the level by n; three restore the configured rate |
| RateLimiter.ThrottlingBacksOff | crates/core/src/resilience.rs:124-135 | n throttled responses raise the level by n, up to 3; three quarter the rate |
| RateLimiter.JudgedIs | crates/core/src/resilience.rs:107-150 | one response, by status and elapsed time alone: a 429 or a time above three baselines raises the level by one up to 3 and leaves the baseline; any other lowers it and moves the baseline an eighth of the way; the rate is that of the new level |
| RateLimiter.OverloadsBackOff | crates/core/src/resilience.rs:124-135 | n responses that each have status 429 or take more than three baselines raise the level by n, up to 3, with the rate that level has |
| RateLimiter.TooManyRequestsBackOff | crates/core/src/resilience.rs:124-135 | so do n responses with status 429, however fast they are |
| RateLimiter.OthersRestore | crates/core/src/resilience.rs:137-150 | n responses that are neither lower the level by n; at level 0 the rate is the configured one |
| RateLimiter.BaselineIsBetweenSamples | crates/core/src/resilience.rs:107-123 | the baseline is at most the largest accepted sample, and at least the smallest if and only if there is one sample or the smallest fits in 64 bits of nanoseconds; otherwise it is the largest 64-bit value |
| RateLimiter.BaselineBelowSamples | crates/core/src/resilience.rs:107-123 | an input where it is below all samples |
| RateLimiter.BaselineGrowsSlowly | crates/core/src/resilience.rs:107-123 | no event raises the baseline by more than a quarter |
| RateLimiter.AdaptiveRateLimiter.constructor | crates/core/src/resilience.rs:47-63 | a new limiter runs at the configured rate, at least 1 |
| RateLimiter.AdaptiveRateLimiter.BeforeRequest | crates/core/src/resilience.rs:66-87 | the slot is the later of now and the one reserved before, the next one follows an interval of the current rate behind; the request and the reuse of a host seen before are counted |
| RateLimiter.AdaptiveRateLimiter.FinishRequest | crates/core/src/resilience.rs:90-96 | one active request less, never below zero |
| RateLimiter.AdaptiveRateLimiter.RecordRetry | crates/core/src/resilience.rs:99-101 | one retry more |
| RateLimiter.AdaptiveRateLimiter.ObserveResponse | crates/core/src/resilience.rs:107-150 | level, rate and baseline as one judged response leaves them, and a pause if and only if the status is 429 or the time above three baselines and the level is then 3 |
| RateLimiter.Sends | crates/fuzzing/src/fuzzer.rs:117-155 | the number of sends is up to the first outcome not retried, and at most four |
| RateLimiter.SendOnce | crates/fuzzing/src/fuzzer.rs:117-155 | one send and its outcome: the call goes on if and only if sends are left and the outcome is a 429 or a transient failure; the limiter has seen this send and what was judged of it |
| RateLimiter.SendGetWithResilience | crates/fuzzing/src/fuzzer.rs:110-156 | at most four sends, up to the first outcome that is neither a 429 nor a transient failure; requests and retries counted exactly, every begin has its finish, the limiter sees exactly those events, and the code after the loop is never reached |
| RateLimiter.EverySendIsObserved | crates/fuzzing/src/fuzzer.rs:117-155 | each send reserves one slot and, unless it is a failure that ends the call, is judged once, by its own status and time |
| RateLimiter.CountersAreExact | crates/fuzzing/src/fuzzer.rs:110-156 | however calls overlap, the active count is the number of sends in flight, no call sends more than four times, and at the end sends are calls plus retries |
| ConnectionBudget.DialedOk | crates/discovery/src/port_scan.rs:240-351 | a connection keeps spent plus still possible reservations within the port's bound, at every place of the scan |
| ConnectionBudget.RefusedOk | crates/discovery/src/port_scan.rs:240-351 | so does a refused reservation |
| ConnectionBudget.MoveKeeps | crates/discovery/src/port_scan.rs:103-122 | any move of any port keeps the budget's sums and bounds |
| ConnectionBudget.BudgetHolds | crates/discovery/src/port_scan.rs:184-238 | under every interleaving connections never outnumber reservations nor the maximum (at least 1); a passive port costs at most 1, one of the ten likely TLS ports 13, any other 12; in the end every reservation was used once |
| ConnectionBudget.AmpleBudgetIsFair | crates/discovery/src/port_scan.rs:197-218 | with a budget that covers every port, each port ends as it would alone, whatever the interleaving |
| ConnectionBudget.AmplePortsAreScanned | crates/discovery/src/port_scan.rs:197-351 | with such a budget each port's state, service and TLS flag are, whatever the interleaving, those its own connections give: Closed if and only if the first fails, and so on as for a whole port scan |
| ConnectionBudget.AloneIsScan | crates/discovery/src/port_scan.rs:240-351 | the same for a port that is refused nothing |
| ConnectionBudget.SoloWithinBudget | crates/discovery/src/port_scan.rs:240-376 | a port run by itself finishes within the maximum and its bound |
| ConnectionBudget.SoloIsScan | crates/discovery/src/port_scan.rs:240-376 | and for a port run by itself on any budget and deadline, from the log of its reservations |
| ConnectionBudget.BoundsAreAttained | crates/discovery/src/port_scan.rs:263-351 | a silent port 465 costs 13 connections, a silent port 5432 costs 12 |
| ConnectionBudget.Budget.constructor | crates/discovery/src/port_scan.rs:104-110 | the maximum is the configured one, at least 1 |
| ConnectionBudget.Budget.Reserve | crates/discovery/src/port_scan.rs:112-121 | granted exactly before the deadline and below the maximum; a refusal changes nothing |
| ConnectionBudget.ProbeTls | crates/discovery/src/port_scan.rs:266-277 | the TLS and certificate probes, each behind its reservation |
| ConnectionBudget.ProbeVersions | crates/discovery/src/port_scan.rs:278-290 | the three version probes, each behind its reservation |
| ConnectionBudget.ProbeUnknown | crates/discovery/src/port_scan.rs:637-653 | the generic probes stop at the first answer or refusal |
| ConnectionBudget.ProbePort | crates/discovery/src/port_scan.rs:263-351 | the probes of an active scan end in the state, protocol and budget of the machine the interleavings are about |
| ConnectionBudget.ScanPort | crates/discovery/src/port_scan.rs:197-376 | a whole port scan, from the log of its reservations: Filtered if and only if the first is refused, Closed if and only if it is granted and the connection fails, Open otherwise; TLS if and only if one of the two granted probes found it; the service is the greeting, else https when TLS was found and the greeting is none, http or tls, else the first generic probe recognised, else the name for the port; and it costs what the machine says |
| Ports.ParsePorts | crates/discovery/src/port_scan.rs:137-162 | from the characters: the ascending list of exactly the ports that the items between commas, without the blanks around them, name or span; that there is no item; or the reason why some item is not a port nor a range |
| Ports.ItemIs | crates/discovery/src/port_scan.rs:137-160 | an item is read if and only if it is one port, or two in order around the first hyphen, each of digits worth 1 to 65535 behind an optional plus sign |
| Ports.WritesIs | crates/discovery/src/port_scan.rs:137-143 | the items are exactly the non-empty stretches between commas without the blanks around them |
| Ports.OrderIsImmaterial | crates/discovery/src/port_scan.rs:137-162 | expressions with the same items, in any order and repetition, give the same list or are both refused |
| Ports.PrintedListIsCanonical | crates/discovery/src/port_scan.rs:137-162 | an ascending list of ports, printed comma-separated, parses to itself |
| Ports.ItemBounds | crates/discovery/src/port_scan.rs:1305-1313 | accepted items have ports from 1 to 65535 in order |
| WordWrap.WordsOfJoin | crates/reporter/src/pdf.rs:625-652 | splitting joined words gives the words back |
| WordWrap.WordsAreRuns | crates/reporter/src/pdf.rs:625-652 | the words of a text are its maximal stretches without blanks, all of them and in order |
| WordWrap.GreedyIsMonotone | crates/reporter/src/pdf.rs:632-647 | fewer words left never need more lines |
| WordWrap.GreedyIsMinimal | crates/reporter/src/pdf.rs:632-647 | no list of admissible lines with these words is shorter than the greedy one |
| WordWrap.NoSplitIsShorter | crates/reporter/src/pdf.rs:625-652 | wrapping is minimal if and only if the text is not a blank one within the limit |
| WordWrap.WrapText | crates/reporter/src/pdf.rs:625-652 | the words in order with single spaces, each line fits unless it is one over-long word, and as few lines as possible |
| Luhn.LuhnValid | crates/cli/src/stateful.rs:473-492 | accepts exactly 13 to 19 digits that meet the right-to-left formula |
| Luhn.OneWrongDigit | crates/cli/src/stateful.rs:473-492 | changing one digit of a valid number makes it invalid |
| Luhn.NeighboursSwapped | crates/cli/src/stateful.rs:473-492 | swapping neighbours goes unnoticed if and only if they are equal or are 0 and 9 |
| Luhn.TwinReplaced | crates/cli/src/stateful.rs:473-492 | replacing a double digit goes unnoticed if and only if it is 22 and 55, 33 and 66, or 44 and 77 |
| Luhn.CheckDigitIsUnique | crates/cli/src/stateful.rs:473-492 | each payload has exactly one valid check digit |
| DnsName.ParseDnsQueryName | crates/cli/src/collaborator.rs:277-296 | on every packet it ends, stays in bounds and returns the name the grammar gives |
| DnsName.ReaderIsExact | crates/cli/src/collaborator.rs:283-295 | labels are read if and only if the bytes are a terminated name with anything behind it, or whole labels up to the end; refused if and only if a length runs past the end |
| DnsName.NameIsExact | crates/cli/src/collaborator.rs:277-296 | behind the 12 bytes of the header: the labels joined by dots for bytes the grammar reads, nothing for no labels or a length that runs past the end |
| DnsName.QuestionRoundTrip | crates/cli/src/collaborator.rs:277-296 | a question built from non-empty ASCII labels is read back as the labels joined by dots |
| ReportDiff.LastFindingWins | crates/reporter/src/enterprise.rs:399-413 | among findings with one key the last stands for it |
| ReportDiff.FirstMatch | crates/reporter/src/enterprise.rs:415-426 | the rule that suppresses a finding is one that matches, and there is none exactly when no rule matches |
| ReportDiff.StiflesIs | crates/reporter/src/enterprise.rs:415-426 | a rule matches a finding if and only if it names the finding's rule id, its pattern, if any, is part of the URL, and its expiry, if any, is later than now |
| ReportDiff.PatchReproduces | crates/reporter/src/enterprise.rs:135-165 | applying the diff to the baseline severities gives the current ones |
| ReportDiff.CountsAddUp | crates/reporter/src/enterprise.rs:172-189 | the four counts sum to the entries; without fixed they count the current report, without new the baseline |
| ReportDiff.SwapMirrors | crates/reporter/src/enterprise.rs:135-165 | swapping the reports keeps the keys, exchanges new and fixed and both severities |
| ReportDiff.SwapUndoes | crates/reporter/src/enterprise.rs:135-165 | the swapped diff undoes the diff |
| ReportDiff.SwapIsSymmetricIff | crates/reporter/src/enterprise.rs:105-139 | with rules, both directions list the same keys if and only if they suppress the same keys |
| ReportDiff.SuppressionIsOneSided | crates/reporter/src/enterprise.rs:105-139 | a finding that is gone and matched by a rule is listed as fixed one way and not listed the other |
| ReportDiff.Retain | crates/reporter/src/enterprise.rs:119-134 | the suppressed findings are removed and recorded in key order with the first matching rule |
| ReportDiff.DiffEntries | crates/reporter/src/enterprise.rs:139-165 | one entry per key of either report, sorted, with its class and severities |
| ReportDiff.VerdictsAre | crates/reporter/src/enterprise.rs:100-193 | one entry per key of a finding that is not hidden, in the order of the keys: New, Fixed, SeverityChanged or Unchanged by which of the two lists has it last and with which severity, with the rule id and URL of the finding that stands for it |
| ReportDiff.CompareReports | crates/reporter/src/enterprise.rs:100-193 | the verdicts on exactly the keys not hidden, with their counts; the hidden keys are those whose last current finding some rule in force matches, each recorded with the first such rule |
| Dedup.GroupFindings | crates/reporter/src/graph.rs:368-376 | one pass puts each finding, in order, in the group of its root cause |
| Dedup.CauseIs | crates/reporter/src/graph.rs:670-704 | a root cause is the rule id and, for a header rule, the host of the URL, for any other the host and the parameter or a hyphen, where the host is the one written in the authority, or the whole URL if none is |
| Dedup.SummarizeGroups | crates/reporter/src/graph.rs:378-404 | one summary per group, in key order |
| Dedup.SummaryIsGroup | crates/reporter/src/graph.rs:378-404 | the summary of a group: name, severity, risk and remediation are those of one and the same member of largest risk, the last such; the count is the number of findings with that cause |
| Dedup.DeduplicateFindings | crates/reporter/src/graph.rs:368-414 | exactly one group per root cause, each with the rule id, name, severity, URL, risk and remediation of its last riskiest member and the number of its findings, by descending risk, then rule id, then key |
| Dedup.OccurrencesAddUp | crates/reporter/src/graph.rs:368-404 | occurrences over all groups sum to the number of findings |
| Dedup.RepresentativeIsRiskiest | crates/reporter/src/graph.rs:378-403 | a group's risk is the largest among its findings and one of theirs; its URLs are no more than its occurrences |
| Dedup.SortGroups | crates/reporter/src/graph.rs:406-413 | the same groups by risk, then rule, then key, the stable sort's order |
| AssetGraph.NodeFacts | crates/reporter/src/graph.rs:329-340 | a node exists if and only if it was added; its risk is the maximum ever added for it, its kind and label the first |
| AssetGraph.AddsIs | crates/reporter/src/graph.rs:90-259 | an addition is made if and only if an asset, service, stack or finding of the scan calls for it, each case spelled out: id, kind, label, risk |
| AssetGraph.LinksIs | crates/reporter/src/graph.rs:90-259 | an edge is there if and only if one of them calls for it; a vulnerability reference is linked to the product of the first service whose endpoint is the finding's URL |
| AssetGraph.GraphBuilder.AddNode | crates/reporter/src/graph.rs:330-340 | one addition to the log, and the nodes that follow from it |
| AssetGraph.GraphBuilder.AddEdge | crates/reporter/src/graph.rs:342-348 | one edge, unchecked; the graph stays closed if both nodes are there |
| AssetGraph.AddAsset | crates/reporter/src/graph.rs:95-106 | exactly the nodes and edges of an asset, and of its service and port |
| AssetGraph.AddService | crates/reporter/src/graph.rs:108-165 | exactly the nodes and edges of a service: host, port, exposure, product |
| AssetGraph.AddStack | crates/reporter/src/graph.rs:167-186 | exactly the nodes and edges of an endpoint and its technologies |
| AssetGraph.AddFinding | crates/reporter/src/graph.rs:190-245 | exactly the nodes and edges of a finding: endpoint, service, reference, affected product |
| AssetGraph.KindIsInTheId | crates/reporter/src/graph.rs:752-769 | a node's kind is the one its id begins with, so no two parts of a scan disagree about a kind |
| AssetGraph.SharedNodeIff | crates/reporter/src/graph.rs:752-754 | two groups share a finding node if and only if their keys differ in letter case at most |
| AssetGraph.CaseTwinsShareANode | crates/reporter/src/graph.rs:190-197 | findings whose rules differ in letter case only are two groups and one node |
| AssetGraph.FindingNodes | crates/reporter/src/graph.rs:190-245 | for every key: a finding node exists if and only if some group's key is like it; it is named by the first such group, and its risk is the largest of theirs |
| AssetGraph.SortedLeadRules | crates/reporter/src/graph.rs:190-245 | in the order deduplication gives, the first such group gives both name and risk |
| AssetGraph.FindingNodeCarriesItsRisk | crates/reporter/src/graph.rs:190-197 | the node of a finding has at least that finding's risk, and just that if and only if no group with a key like it is riskier |
| AssetGraph.BuildAssetGraph | crates/reporter/src/graph.rs:90-259 | exactly the edges and nodes that the assets, services, stacks and deduplicated findings call for, each node with the largest risk and the first kind and label; and no edge leads to a missing node |
| CveCache.KnownExactlyWhenNamed | crates/cve_client/src/db.rs:46-182 | over every history a row is known-exploited if and only if its source names the catalog |
| CveCache.EffectIs | crates/cve_client/src/db.rs:46-182 | what one write does to the one row it names, field by field, and that it leaves every other row |
| CveCache.KnownIsNeverLost | crates/cve_client/src/db.rs:46-182 | once known-exploited, always |
| CveCache.RowReflectsHistory | crates/cve_client/src/db.rs:46-182 | a whole row from its history: the row last written, its severity raised once per mark since, up to Critical, its source naming the catalog once known |
| CveCache.FullUpdateCoversCatalog | crates/cve_client/src/lib.rs:93-132 | after a full update every catalog id has a row and is known-exploited |
| CveCache.CatalogUpdateInflates | crates/cve_client/src/lib.rs:93-132 | an update raises each catalog row, up to Critical, once per listing of its id above the severity it has after the refreshes |
| CveCache.UnrefreshedRowClimbs | crates/cve_client/src/lib.rs:93-132 | a catalog row not refreshed climbs from the severity it had, and a row just seeded from High |
| CveCache.Cache.CacheCveEntries | crates/cve_client/src/db.rs:46-95 | the table after upserting every entry in order |
| CveCache.Cache.CacheKevEntries | crates/cve_client/src/db.rs:98-127 | the table after seeding every id that has no row |
| CveCache.Cache.MarkKnownExploited | crates/cve_client/src/db.rs:155-182 | the table after every mark, and as many hits as positions of the list whose id has a row |
| CveCache.Cache.UpdateCveCache | crates/cve_client/src/lib.rs:93-132 | seeds, then refreshes, then marks, and the number cached |

## Left out

- Sockets, HTTP, TLS, DNS resolution, Redis and SQLite wire formats, serialization and its errors: they are outcomes given to the model.
- Worker heartbeats, the dashboard and the target-list file: they do not touch the two lists.
- Clocks, jitter and sleeps: request times and deadlines are inputs; `retry_delay` and the 30-second pause are not modelled.
- Floating point: rates are integers, slots exact reals, risk scores and confidences reals; the conversion of intervals to nanoseconds is not rounded.
- NetworkScan.RunNetworkScan: requires a chunk size that keeps the sum of offset and chunk within 64 bits, because crates/cli/src/orchestrator.rs:605 adds them unchecked; timestamps in results, service drift, notifications and the empty-host backoff are not part of results here.
- The parts of a host report that follow from the open ports (assets, technologies, network rules) are carried by the list of services.
- Parsing of dotted IPv4 text and of the prefix number; the base address and prefix are numbers.
- DistributedBroker.Broker.RunCoordinator: the other processes act once its tasks are pushed; what they do between its pushes is left to the machine of `DistributedScan`, where each push and each mark is a step.
- BrowserCrawl.RunBrowserCrawl: links are URLs already extracted, resolved and parsed; extraction by regular expressions, form assets and CSRF evidence, and the browser process are not modelled; destructive links are not recorded but are still visited, as in the code.
- PathFuzzer.FuzzPaths: a response is a function of the URL and requests run in list order; the original sends them concurrently.
- ConnectionBudget.ScanPort: banner recognition is an outcome; signals, products and versions are not modelled.
- The list a host scan returns: the open ports in ascending order; `AmpleBudgetIsFair` and `BudgetHolds` speak of each port's result.
- The concurrency semaphore of a host scan: any interleaving is allowed, which includes those it allows.
- WordWrap.WrapText: characters are single bytes, which the report's sanitizer guarantees.
- Luhn: how candidate numbers are found in a body, and the context they appear in.
- DnsName.ParseDnsQueryName: the lossy text conversion is a parameter, the identity on ASCII; compression pointers are read as lengths, as in the code.
- Ports.ParsePorts and `Text`: white space is the ASCII white space.
- ReportDiff.CompareReports: expiry times are integers; files and rule loading are outside.
- Dedup: `risk_score` is a field of the finding; its formula is one expression over floating point.
- AssetGraph.BuildAssetGraph: attack path hints and remediation actions, which only read the graph's inputs; `service_risk_score` is a field of the service.
- CveCache: scores, dates and EPSS values, which no statement reads back; agreement with earlier fetches of other platforms, which an upsert overwrites.
- Realtime dashboard, redaction, fingerprinting, rules and report templates.
