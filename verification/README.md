# Verified model of the Neutron query relayer

The relayer watches interchain queries registered on Neutron, looks up answers on a target chain and submits them with
proofs. This project models its logic in Dafny and proves what it keeps, over every run where the statement is about
runs. `dafny verify dfyconfig.toml` checks all of it.

## What is modelled

**The store.** `LevelDBStorage` keeps five logical maps (stored heights, statuses, pending queue, unsuccessful queue,
cached transactions) in one flat key space. `Keys` builds the keys, `LevelDb` has the storage calls as methods of a class
over one map from key to value, each taking the number of LevelDB operations that succeed before one fails. Any history
of calls on the flat store behaves as the five maps of `Records` (`LevelDb.HistoryRefines`), and `Persistence` carries
this over whole runs to what is on disk. The separation rests on transaction hashes having one fixed length: with free
lengths `(1, "2x")` and `(12, "x")` share a key, and `Keys.StatusKeysCollideExactly` says which pairs do.

**Submissions.** `Submissions` is a state machine over the five maps: the relay loop and any number of HTTP requests
submit transactions, the background checker looks submitted ones up and settles them, a storage call may fail, and a
crash may come between any two steps, which loses all timers, channels and requests. Every locked storage call is one
step. Three policies say which behaviours of the environment a result admits: `Free` (all), `Disciplined` (resubmission
only when nothing about the transaction is outstanding, and the result of a neutron transaction never changes) and `Once`
(no resubmission, and no crash or storage failure between an accepted broadcast and its record).

**The search loop.** `Protocol` adds the TX search loop with its per-query height watermark, the search goroutine that
feeds it and a target chain whose list of matches grows. `Watermark` proves that the watermark is safe in every state of a
run exactly when no closing write marks a block that still has a match without a record; runs without a cancelled search
are such runs. When a search is cancelled the searcher closes both channels without an error, although the interface
comment lists only "all delivered" and "an error reported" (internal/relay/txprocessor.go:20-23), and the loop's final
write then treats a partly handled block as finished: `Cancellation.CancellationBreaksSafety` is a run in which a
transaction is passed for good. `Delivery` joins the watermark with the count of broadcasts: in a run without cancelled
searches every match that the stored height has passed was accepted at least once or refused with an ignored error, and
exactly once if nothing is resubmitted and no accepted broadcast is lost before its record.

**The code of the actors.** `World` holds a state of that machine together with a script of what the other actors, the
storage and the chain will do. `TxProcessor`, `RelayLoop`, `Followers` and `SearchSteps` write the program's own loops over
it: `ProcessAndSubmit`, `processMessageTX` and `Run`, the checker's start and the resubmission handler, and the search
goroutine. Each `World` belongs to one actor, `me`. `World.Valid` says that the state is reached by a run of the machine,
that the log holds what the storage and the chain answered, call by call, and that the run is made of this actor's own
actions and of the other actors' moves as the script has them, in order. So no loop can do another actor's work or keep it
from happening, the results about runs apply to it however the others interleave, and its contract ties its errors to the
answers that caused them.

**Schedulers and arithmetic.** `PagedSearch` is the paging loop against a list that may grow meanwhile: it delivers a prefix
of the results page by page and completes only with all of them. `TxFilter` has the search string printed from a
transaction filter and a reader of its grammar, `Subscriber` the active queries and their dispatch at each block,
`TrustedHeaders` the search for a trusted consensus state (header fields as in ICS 007, Headers), `KvQueries` the minimum
update period and the heights of a KV result, `TxSender` the account sequence numbers, `GasPrice` the offered gas price.
Unsigned 64-bit additions wrap where the code's do.

## Properties that fail in general

- The watermark is unsafe after a cancelled search: exact condition in `Watermark.WatermarkIsSafeExactly`.
- Crashes between an accepted broadcast and its record let any number of broadcasts follow
  (`Delivery.CrashesAllowBroadcasts`). `Delivery.BroadcastAgainExactly` says exactly when another can follow a run of the
  relayer, and `AtMostOnce.BroadcastsAreConserved` bounds the broadcasts in every run.
- A group of update events with fewer owners than IDs can panic, as the check of its attributes does not cover the owners:
  exact condition in `Subscriber.PanicsExactly`.
- Dispatches at height 0 are not spaced (`Subscriber.HeightZeroIsNotSpaced`); the exact condition, with that on overflow,
  is in `Subscriber.NextDispatchIsSpacedExactly`, and for KV updates in `KvQueries.NextUpdateIsSpacedExactly`.
- A maximum gas price of more than four significant digits can be exceeded: 1.0006 is shown as 1.001
  (`GasPrice.LongMaxIsExceeded`, exact condition in `GasPrice.PriceStaysBelowMaxExactly`).
- A query with no keys is never submitted, as nothing below height 0 can be trusted (`KvQueries.KVProcessor.ProcessAndSubmit`).

## Model

| member | source | states |
|---|---|---|
| `Decimal.FormatThenParse` | internal/storage/leveldb.go:324-335 | every uint64 is read back from its decimal text |
| `Decimal.FormatOfValue` | internal/storage/leveldb.go:324-335 | a digit text without leading zeros is the text of the number it denotes, so only its own text stands for a number |
| `Decimal.FormatInjective` | internal/storage/leveldb.go:324-326 | different IDs have different texts |
| `Decimal.Uint64TextIsShort` | internal/storage/leveldb.go:324-326 | the text of a uint64 has 1 to 20 digits |
| `Keys.StatusKeysCollideExactly` | internal/storage/leveldb.go:347-349 | exactly which (ID, text) pairs share a status key, for texts of any length |
| `Keys.FixedLengthSeparates` | internal/storage/leveldb.go:347-349 | texts of one length: the key determines ID and text |
| `Keys.FreeLengthsCollide` | internal/storage/leveldb.go:347-349 | (1, "2x") and (12, "x") share a key |
| `Keys.SlotKeysInjective` | internal/storage/leveldb.go:320-349 | no two places of the five maps share a key |
| `Keys.PrefixPicksOneMap` | internal/storage/leveldb.go:17-21 | a scan prefix matches a key exactly when the key belongs to the scanned map |
| `LevelDb.LevelDBStorage.SetTxStatus` | internal/storage/leveldb.go:136-209 | all writes of the transaction take effect or none, whichever LevelDB operation fails |
| `LevelDb.LevelDBStorage.SetLastQueryHeight` | internal/storage/leveldb.go:225-235 | the height is stored under the query's key, or nothing changes |
| `LevelDb.LevelDBStorage.GetAllPendingTxs` | internal/storage/leveldb.go:40-58 | the values under the prefix in iteration order; fails exactly when one does not decode |
| `LevelDb.LevelDBStorage.GetAllUnsuccessfulTxs` | internal/storage/leveldb.go:60-79 | the same for the unsuccessful queue |
| `LevelDb.SetTxStatusRefines` | internal/storage/leveldb.go:136-209 | on a store that represents five maps, the flat writes represent SetTxStatus on the maps |
| `LevelDb.SetLastQueryHeightRefines` | internal/storage/leveldb.go:225-235 | likewise for the stored height |
| `LevelDb.HeightRefines` | internal/storage/leveldb.go:108-126 | reading a height never fails to parse and gives the map's height |
| `LevelDb.CachedTxRefines` | internal/storage/leveldb.go:82-105 | a cached transaction is found under exactly the texts whose key coincides with a cached pair's; for 64-character texts, that pair |
| `LevelDb.ScanRefines` | internal/storage/leveldb.go:40-79 | the two prefix scans return exactly the pending and the unsuccessful map |
| `LevelDb.PendingScanListsMap` | internal/storage/leveldb.go:40-58 | the pending scan never fails to decode and lists every entry of the map once |
| `LevelDb.UnsuccessfulScanListsMap` | internal/storage/leveldb.go:60-79 | the same for the unsuccessful map |
| `LevelDb.CallRefines` | internal/storage/leveldb.go:40-235 | each storage call on the flat store answers as on the five maps and leaves a store that represents the new maps |
| `LevelDb.HistoryRefines` | internal/storage/leveldb.go:23-25 | every history of calls from an empty database behaves as five independent maps |
| `Lifecycle.SetTxStatusKeepsConsistent` | internal/storage/leveldb.go:136-209 | SetTxStatus keeps the maps consistent with each other, when a neutron hash stands for one pair |
| `Lifecycle.StepKeepsConsistent` | internal/txprocessor/txprocessor.go:100-142 | every step of every actor keeps the maps consistent |
| `Lifecycle.StepKeepsAttributed` | internal/txsubmitchecker/txsubmitchecker.go:86-97 | every pending entry, check and finding speaks of what its neutron transaction carried |
| `Lifecycle.LifecycleHolds` | internal/storage/leveldb.go:128-209 | in every state of every run from a state that has it, a fresh one for example: Submitted has a pending entry; an error status its unsuccessful entry, with the same status; Committed has neither cache nor entry; cached implies recorded and not Committed |
| `ExactLifecycle.StepKeepsExact` | internal/storage/leveldb.go:156-205 | every step that the discipline allows keeps the exact lifecycle |
| `ExactLifecycle.ExactLifecycleHolds` | internal/http/webserver.go:112-135 | the exact lifecycle holds in every disciplined run |
| `ExactLifecycle.ExactMeaning` | internal/storage/leveldb.go:156-205 | cached iff recorded and not Committed; pending iff Submitted, by one entry; every listed unsuccessful transaction can be fetched |
| `ExactLifecycle.RepeatedCheckChangesNoStatus` | internal/txsubmitchecker/txsubmitchecker.go:75-100 | a check that repeats an earlier one changes no status |
| `AtMostOnce.BroadcastsAreConserved` | internal/relay/relayer.go:140-157 | in every run, accepted broadcasts of a (query, hash) are at most one plus its resubmissions plus its accepted broadcasts lost before their record |
| `AtMostOnce.AtMostOneBroadcast` | internal/txprocessor/txprocessor.go:77-105 | without these, at most one, across passes, crashes and repeated search results |
| `AtMostOnce.BroadcastAfterCrash` | internal/txprocessor/txprocessor.go:77-105 | after a crash the relay loop broadcasts whatever has no record, from any reachable state |
| `AtMostOnce.CrashAllowsSecondBroadcast` | internal/txprocessor/txprocessor.go:77-105 | a run with two accepted broadcasts of one transaction |
| `AtMostOnce.BroadcastAgainExactly` | internal/txprocessor/txprocessor.go:77-105 | from any reachable state another broadcast of a (query, hash) can follow without a new request iff it has no record or a request for it is waiting |
| `Persistence.DiskFollowsRun` | internal/storage/leveldb.go:136-235 | at every moment of every run the flat database that the storage calls left behind stands for the five maps |
| `Persistence.DiskIsConsistent` | internal/storage/leveldb.go:128-209 | what a restart finds under the keys of any (query, hash) agrees, and a Submitted one is among what the pending scan returns |
| `Protocol.RunProjects` | internal/relay/relayer.go:64-178 | every run of the relayer drives the stored maps along a run of the submission machine |
| `Watermark.LoopInvHolds` | internal/relay/relayer.go:126-171 | in every run: the loop's bookkeeping fits the query's matches, and the stored height stays below the block in progress |
| `Watermark.StepKeepsWatermark` | internal/relay/relayer.go:126-171 | every step keeps the bookkeeping, and safety too unless it closes on an unfinished block |
| `Watermark.WatermarkIsSafeExactly` | internal/relay/relayer.go:126-178 | no match between a query's initial and stored height lacks a record, in every state of a run, iff no closing write marks a block with an unrecorded match |
| `Watermark.WatermarkIsSafe` | internal/relay/relayer.go:160-171 | runs without a cancelled search are safe throughout, over all passes, failures, interleavings and restarts |
| `Watermark.UncleanCloseIsUnsafe` | internal/relay/relayer.go:165-169 | one closing write on an unfinished block makes the state unsafe |
| `Watermark.CompleteSearchClosesClean` | internal/txquerier/txquerier.go:74-76 | a search that returned everything leaves no block unfinished |
| `Watermark.WatermarkNeverFalls` | internal/relay/relayer.go:128-134 | a stored height never moves down |
| `Watermark.CriticalStopLeavesWorkRetryable` | internal/txprocessor/txprocessor.go:128-134 | while a match is submitted it has no record, the stored height is strictly below it and a later search returns it again |
| `Cancellation.CancellationBreaksSafety` | internal/txquerier/txquerier.go:67-71 | a run in which a search cancelled between two matches of a block lets the watermark pass the second |
| `Delivery.BroadcastsExactly` | internal/txprocessor/txprocessor.go:77-143 | without resubmissions and lost broadcasts, in every run, a transaction was accepted once if its record is no refusal or it is about to be recorded, and never otherwise |
| `Delivery.PassedMatchesAreDelivered` | internal/relay/relayer.go:126-171 | in every run without a cancelled search, every match between a query's initial and stored height has a record, and unless that is a refusal the chain accepted it at least once |
| `Delivery.PassedMatchesAreDeliveredOnce` | internal/relay/relayer.go:126-171 | if moreover nothing is resubmitted and no accepted broadcast is lost, every such match was accepted exactly once, or refused with an ignored error and never accepted |
| `Delivery.BroadcastAgainExactly` | internal/relay/relayer.go:113-158 | after any run of the relayer, another broadcast of a transaction can follow without a new request or a new match iff it has no record and a match of it lies above the stored height, or a request for it is waiting |
| `Delivery.CrashesAllowBroadcasts` | internal/txprocessor/txprocessor.go:77-105 | for every number there is a run of the relayer, with crashes between broadcast and record, in which one transaction is accepted so many times |
| `World.World.Step` | internal/storage/leveldb.go:136-138 | one atomic step of the machine that belongs to the running actor, added to the run and to what this actor did |
| `World.World.Others` | internal/storage/leveldb.go:26-29 | the next moves of the script, and only moves of other actors: whatever they do is a run of theirs, and keeps what the running actor relies on; nothing happens once the script is used up |
| `World.OneStepIsStable` | internal/relay/relayer.go:126-158 | a step of another actor takes nothing back that an actor relies on; only the relay loop adds records |
| `TxProcessor.WorldInv` | internal/relay/relayer.go:126-171 | the invariants of runs hold in the state an actor's code sees |
| `TxProcessor.ProcessAndSubmit` | internal/txprocessor/txprocessor.go:51-143 | the chain is asked for the job, once, and its answer is followed by exactly the steps that go with it, with no others of this actor; unless it answers with no headers or a refusal that is not ignored, what goes with its answer is stored: the status, the transaction in the cache, and for an acceptance the pending entry, with the check handed over, for a refusal the unsuccessful entry; no error iff all that went well, critical iff such a refusal, and then the relay loop's transaction has no record and lies above the stored height; an acceptance is one more broadcast |
| `TxProcessor.AnswerAndStore` | internal/txprocessor/txprocessor.go:90-143 | after an answer that is not fatal the actor takes the answer and records it, and does nothing else; once stored, the status, the cached transaction, and the pending entry with its check or the unsuccessful entry are there; if the storage failed, for the relay loop, no record is added |
| `RelayLoop.EnsureInitialised` | internal/relay/relayer.go:202-228 | an error iff a storage call failed or a new query's latest height could not be asked for; otherwise the first use of a query stores 0, or the latest height less the offset, and a later use changes nothing |
| `RelayLoop.BuildTxQuery` | internal/relay/relayer.go:180-199 | an error, never critical, iff a storage call failed, the latest height is missing, or the filter cannot be read; otherwise the search string of the filter and the stored height |
| `RelayLoop.TakeMatch` | internal/relay/relayer.go:127-152 | an error iff a storage call failed; otherwise the match is done with because it has a record, or held as the relay loop's job because it has none |
| `RelayLoop.HandleMatch` | internal/relay/relayer.go:127-158 | a match with a record is skipped without asking the chain; one without is submitted once, and the one record added is its own, with the status of the chain's answer; an error iff an answer was a failure, at once, stopping the relayer iff it was a refusal not ignored |
| `RelayLoop.ConsumeMatches` | internal/relay/relayer.go:127-158 | takes only steps of the relay loop itself, the search being left to the others; without an error the search is drained, every match taken has a record, and the records added are exactly those of the transactions submitted, none of which had one; an error iff an answer was a failure, at once |
| `RelayLoop.FinishSearch` | internal/relay/relayer.go:160-177 | an error iff the search was broken or the storage failed; a broken search leaves the stored height, otherwise it becomes that of the last match |
| `RelayLoop.ProcessMessageTX` | internal/relay/relayer.go:113-178 | takes only steps of the relay loop itself, all others being moves of the script; no error iff no answer was a failure, the starting height is known, the filter can be read and the search was not broken; then all matches delivered have a record, the stored height is the last one's, and an uncancelled search delivered all there were at its start; in any case nothing that has a record is submitted again; stops the relayer iff the chain refused a submission with an error not ignored, and leaves that transaction retryable |
| `RelayLoop.Run` | internal/relay/relayer.go:64-102 | takes only steps of the relay loop itself; without an error every task was handled, each TX task with the outcome above; an error iff the chain refused a submission of the last task handled with an error not ignored, and that transaction is left retryable |
| `RelayLoop.UnstoppedHadNoRefusal` | internal/relay/relayer.go:79-96 | a run that was not stopped had no refusal with an error that is not ignored in any task |
| `Followers.ScanCoversSubmitted` | internal/txsubmitchecker/txsubmitchecker.go:45-58 | after a restart the scan finds a check for every transaction still Submitted |
| `Followers.NothingPendingNothingSubmitted` | internal/storage/leveldb.go:163-178 | an empty pending queue means that no status is Submitted |
| `Followers.ProcessSubmittedTx` | internal/txsubmitchecker/txsubmitchecker.go:75-100 | if the lookup is answered and the answer stored the transaction is Committed, or ErrorOnCommit with the message, as the node says; these are all steps of the checker; whatever the other actors do, as long as no accepted submission is recorded: exactly its entry leaves the pending queue if the lookup is answered and the answer stored, otherwise the queue stays as it is |
| `Followers.CheckNext` | internal/txsubmitchecker/txsubmitchecker.go:49-57 | one round of the start: the next listed entry is looked up, and when its answer is stored its status is the one that goes with it |
| `Followers.StartupScan` | internal/txsubmitchecker/txsubmitchecker.go:45-58 | reads the queue and checks its entries in the listed order, the status of each at the moment its answer is stored being the one that goes with it; if no accepted submission is recorded meanwhile and the storage does not fail, the entries that stay pending are exactly those whose lookup was not answered; if all were, no status stays Submitted |
| `Followers.ResubmitFailedTxs` | internal/http/webserver.go:112-135 | every item before the end was read from the cache, the chain was asked for it and its answer stored; not found means a cache miss, failed a storage failure or a submission the chain did not take or whose answer was not stored |
| `Followers.ResubmitOne` | internal/http/webserver.go:112-134 | the same for one item |
| `PagedSearch.SearchTransactions` | internal/txquerier/txquerier.go:35-83 | the output is the results in order, each once, up to where it was cut; no page past the end is asked for; a completed search delivered all there was at its start, and it terminates |
| `PagedSearch.SearchFixedList` | internal/txquerier/txquerier.go:35-83 | an undisturbed search of a fixed list delivers exactly that list |
| `SearchSteps.SearchTransactions` | internal/txquerier/txquerier.go:35-83 | against the running system the search's own steps are exactly: a fetching step for each page sent, the last one of a completed search saying so, and for an early end one breaking or cancelling step after them; it breaks only if a request or a proof failed, cancels only on a cancellation, and gives up only when the pass is over; when the channels are closed the search of the pass stands accordingly and what was sent is what the pass was given, in order |
| `TxFilter.QueryFromTxFilter` | internal/relay/relayer.go:232-249 | fails iff an operator is unknown; otherwise prints the rows of supported value type in order |
| `TxFilter.BuildTxQuery` | internal/relay/relayer.go:190-198 | the filter's clauses and last tx.height > stored height |
| `TxFilter.ReadUndoesShow` | internal/relay/relayer.go:230-248 | reading a printed search string gives back its clauses |
| `TxFilter.ShowUndoesRead` | internal/relay/relayer.go:230-248 | printing what was read gives back the string, and what was read is printable |
| `TxFilter.SearchStringSaysFilter` | internal/relay/relayer.go:180-199 | for field names without operator characters and texts without quotes, the string reads as exactly the filter's clauses and the height clause |
| `Subscriber.Subscriber.ProcessBlockEvent` | internal/subscriber/subscriber.go:170-193 | every query due is dispatched as it was and remembers the height; others stay as they are |
| `Subscriber.Subscriber.ProcessUpdateEvent` | internal/subscriber/subscriber.go:197-250 | the group's updates in order, up to an ID that does not parse or a missing owner, where the program panics |
| `Subscriber.PanicsExactly` | internal/subscriber/utils.go:120-137 | a group of update events panics iff it has fewer owners than IDs and no update that has one stops the subscriber |
| `Subscriber.CompletesExactly` | internal/subscriber/subscriber.go:209-250 | it is handled to its end iff every update has an owner and those of watched owners an ID that parses |
| `Subscriber.Subscriber.ProcessRemoveEvent` | internal/subscriber/subscriber.go:253-277 | exactly the named queries are removed |
| `Subscriber.Subscriber.GetNeutronRegisteredQueries` | internal/subscriber/utils.go:75-116 | what the concatenated pages hold, if all can be fetched |
| `Pages.ConcatenatedStep` | internal/subscriber/utils.go:78-112 | one more page adds its items at the end |
| `Subscriber.CollectedFailsExactly` | internal/subscriber/utils.go:93-97 | the scan fails iff a listed query does not convert, its ID, period or a height not being a uint64 |
| `Subscriber.CollectedAreWatched` | internal/subscriber/utils.go:93-106 | otherwise it holds the listed queries that are watched, and only those |
| `Subscriber.EachDueQueryOnce` | internal/subscriber/subscriber.go:178-190 | the multiset of a block event's tasks is the image of the due IDs: each due query once, as it was, and nothing else |
| `Subscriber.OrderDoesNotMatter` | internal/subscriber/subscriber.go:178-190 | the multiset of tasks is the same for every iteration order |
| `Subscriber.EnumerationsAreRearrangements` | internal/subscriber/subscriber.go:178 | any two iteration orders of the map are rearrangements of each other |
| `Subscriber.ActiveQueriesAreWatched` | internal/subscriber/subscriber.go:146-167 | in every run every active query and every task has a watched type and ID |
| `Subscriber.ScanIsWatched` | internal/subscriber/subscriber.go:120-126 | so has everything the initial scan found |
| `Subscriber.RemovedStaysAbsent` | internal/subscriber/subscriber.go:253-277 | an absent ID stays absent until an update event names it |
| `Subscriber.RemovalRemoves` | internal/subscriber/subscriber.go:271 | a removal makes its IDs absent |
| `Subscriber.DispatchesAreSpaced` | internal/subscriber/subscriber.go:178-190 | while no update names a query, its dispatches are at least its period apart, without overflow and at positive heights |
| `Spacing.SpacingAddsUp` | internal/subscriber/subscriber.go:178-190 | k heights a period apart span k - 1 periods |
| `Subscriber.DispatchRateIsBounded` | internal/subscriber/subscriber.go:178-190 | k dispatches span at least k - 1 periods |
| `Subscriber.NextDispatchIsSpacedExactly` | internal/subscriber/subscriber.go:180-189 | after a dispatch the next one is sure to be a period later iff the period is 0, or the height is positive and the sum does not overflow |
| `Subscriber.HeightZeroIsNotSpaced` | internal/subscriber/subscriber.go:180 | at height 0 the query is dispatched at every block |
| `TrustedHeaders.TrustedHeaderFetcher.GetTrustedHeight` | internal/trusted_headers/fetcher.go:123-163 | the first suitable state of the concatenated pages, each looked at with the clock of its moment; none iff all pages were scanned and none is suitable; fails at a state that cannot be read or a page that cannot be fetched |
| `TrustedHeaders.TrustedHeaderFetcher.Fetch` | internal/trusted_headers/fetcher.go:61-115 | the header is for the height asked, trusts a listed unexpired height of the revision strictly below it, and takes the validators of the height after that; none iff the search comes to no suitable state or a light header is missing |
| `TrustedHeaders.NothingTrustedForZero` | internal/trusted_headers/fetcher.go:217-226 | nothing is ever suitable for height 0 |
| `TrustedHeaders.SuccessCarriesUp` | internal/txprocessor/txprocessor.go:185-199 | a search that succeeds for a height succeeds for a greater one at the same or an earlier position |
| `KvQueries.QueryTendermintProof` | internal/tmquerier/querier.go:36-70 | asks one below the height given, refuses heights up to 2 other than 0, and returns one above the height answered for |
| `KvQueries.GetStorageValues` | internal/kvprocessor/kvprocessor.go:79-93 | one value a key, in order; the height of the last; fails iff one cannot be proven |
| `KvQueries.KVProcessor.IsQueryOnTime` | internal/kvprocessor/kvprocessor.go:96-117 | on time iff the period has passed since the stored height, which then becomes the current one |
| `KvQueries.KVProcessor.ProcessAndSubmit` | internal/kvprocessor/kvprocessor.go:60-151 | submitted iff on time, all values proven, a header found for the height of the last and the chain takes it; the remote height of a submitted result plus one is its header's height, and the trusted height is below that; all values are of the remote height if the node answers at the asked one; no keys, no submission; a skipped update leaves the stored height |
| `KvQueries.NextUpdateIsSpacedExactly` | internal/kvprocessor/kvprocessor.go:107 | the next accepted update is sure to be a period later iff the sum does not overflow |
| `KvQueries.ThrottleHolds` | internal/kvprocessor/kvprocessor.go:96-117 | in every run accepted updates are at least the period apart, k of them need k periods, and the stored height is that of the last |
| `KvQueries.KAcceptancesNeedKPeriods` | internal/kvprocessor/kvprocessor.go:96-117 | from a fresh database k acceptances imply k periods up to the last accepted height |
| `TxSender.TxSender.RefreshAccountInfo` | internal/submit/tx_sender.go:107-120 | number and sequence become the chain's, or stay on an error |
| `TxSender.TxSender.Send` | internal/submit/tx_sender.go:123-181 | accepted with the present sequence, which moves up by one; a mismatch refreshes; other failures change nothing |
| `TxSender.SequenceDiscipline` | internal/submit/tx_sender.go:107-181 | after every run the next number is the one the chain last gave plus the broadcasts accepted since |
| `TxSender.AcceptedNumbersAreConsecutive` | internal/submit/tx_sender.go:163-171 | the n-th accepted broadcast after a refresh carries the refreshed number plus n - 1 |
| `TxSender.MismatchIsRepaired` | internal/submit/tx_sender.go:138-148 | after a mismatch with a successful refresh the next accepted send carries the chain's number |
| `GasPrice.Exponent` | internal/submit/tx_sender.go:271 | the power of ten at or below a positive number |
| `GasPrice.Unit` | internal/submit/tx_sender.go:271 | the unit of the fourth significant digit |
| `GasPrice.Round4IsClose` | internal/submit/tx_sender.go:271 | the printed value is within one part in 2000 |
| `GasPrice.Round4Rises` | internal/submit/tx_sender.go:271 | printing keeps the order |
| `GasPrice.Round4Exact` | internal/submit/tx_sender.go:271 | a number of at most four significant digits is printed exactly |
| `GasPrice.PriceIsFaithful` | internal/submit/tx_sender.go:256-272 | the offered price is monotone in the queried one and within one part in 2000 of the capped product |
| `GasPrice.PriceStaysBelowMaxExactly` | internal/submit/tx_sender.go:262-271 | no queried price leads above the maximum iff the maximum is not rounded up |
| `GasPrice.FourDigitMaxIsKept` | internal/submit/tx_sender.go:262-271 | a maximum of at most four significant digits is never exceeded |
| `GasPrice.LongMaxIsExceeded` | internal/submit/tx_sender.go:262-271 | with maximum 1.0006 the price 2.0 is offered as 1.001 |

## Left out

- RPC, REST, LevelDB, keyring and signing clients, protobuf and JSON encoding, Merkle proofs: foreign libraries. They are
  parameters with stated assumptions; JSON is the identity on values, and a value that does not decode is a value of
  another kind of record.
- Swagger code, mocks, metrics, logging, command line, configuration, wiring, HTTP routing and status codes: plumbing.
- The registry package and the conversions of registered queries beyond their numbers: only easy members.
- When things happen: timers, retry delays, channel capacities and goroutine scheduling. Only which steps may follow which
  is modelled, so nothing says that a submitted transaction is eventually checked.
- Prices as IEEE floats, Go's exponent notation, and the configured price used when the price query fails: prices are
  exact real numbers, and `GasPrice` speaks of the printed value. The multiplier, the queried price and the maximum are
  not negative.
- The regular expression of ignorable errors: one predicate on error messages.
- Connection IDs of events: the node's subscription filters them and the code does not check them again.
- Transaction data and its hash: a transaction is its hash (64 hexadecimal characters) and its height. That a neutron
  hash identifies one query and transaction is an assumption of the step that accepts a broadcast.
- Matches that appear at or below a height already searched: `Protocol` lets the target chain's results grow only above
  the heights a search has covered. Without this no watermark is safe.
- KV queries and TX queries with the same ID: they share the stored heights, and are assumed to have different IDs.
- Numbers in a filter that are at most -1 or at least 2^64: Go leaves their conversion to the implementation.
- Request hashes of another length in the resubmission handler: `Followers` takes well-formed ones; what the store answers
  for any text is `LevelDb.CachedTxRefines`.
- Different answers of the registry endpoint about one ID within one group of update events.
- Saturating time arithmetic: times are unbounded integers.
- An endless wait: when the script of the other actors is used up, a search still running fails (`World.World.Starve`).
- Watermark.CriticalStopLeavesWorkRetryable: says nothing about the transaction being accepted when it is submitted again.
