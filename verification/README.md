# vmflow forwarding engine: a verified model

vmflow forwards TCP and UDP ports.  This project models the state its
forwarding engine and its configuration API keep, and proves what that state
satisfies in every run, under failing starts, failing saves, crashes and
arbitrary interleavings.  `dafny verify dfyconfig.toml` checks everything.

## What is modelled

* **Transactional snapshot apply** (`Collector`, `ManagerModel`,
  `ManagerInvariant`, `ManagerSteps`, `ManagerTransaction`, `ManagerRollback`,
  `ManagerConflicts`, `ManagerTotality`, `ManagerRuns`, `ManagerForecast`,
  `Manager`).  Rules
  are moved one by one to a desired snapshot while a journal of undo steps is
  kept; any start may fail.  Starts are decided by an oracle over time, the
  live endpoints and the rule.  Counters are objects in an explicit heap, so
  a runner keeps writing to the counter it was bound to even when its rule is
  removed and recreated.
* **Quota ledger** (`QuotaModel`, `QuotaMachine`, `QuotaDurability`,
  `QuotaAccounting`, `QuotaSafety`, `QuotaLoss`, `QuotaLedger`,
  `QuotaFlusher`).  A state machine whose steps are the critical sections of `reserve`, `finish`, the
  flush loop and the exact save, plus the store's answers, crash and reload.
* **Configuration commit** (`ConfigCommit`) across the file, the running rules
  and the UDP session limit; **editing the document** (`ConfigYaml`,
  `ConfigCandidate`, `ConfigEditor`); **forecast** (`RuleDiff`).
* **Rules and source addresses** (`Rules`, `SourceIp`, `Text`).
* **Traffic limits**: the shared FIFO token bucket (`RateLimiter`), the
  per-connection limiter and connection slots (`ConnLimits`).
* **UDP** sessions (`UdpSessions`) and upload queues (`UdpQueue`); the
  **charged TCP copy loop** (`CopyLoop`).
* **Configuration checks**: forwarding loops (`ForwardingGraph`,
  `ForwardingLoops`, `LoopCheck`) and listen conflicts (`EndpointIndex`).
* **Quantities**: parser and printer of byte rates and sizes (`Quantity`).

Objects with state are classes whose methods are tied, field by field, to a
function on values (`View()`); the theorems are about those functions.
Concurrent code is a state machine with one step per critical section, and
theorems quantify over all sequences of enabled steps.

## What the proofs say about the code

* The comment at `engine/quota.go:176-181` promises that a crash under-counts
  by at most one durable chunk.  The code does not enforce that: `reserve`
  keeps granting while a save is in flight, and `QuotaLoss.TwoChunksCanBeLost`
  is a run that loses two.  `QuotaLoss.CrashLosesAtMostAChunkIff` says exactly
  when the promise is kept: no grant may raise a period's watermark before its
  last raise has reached the store.  What always holds is
  `QuotaDurability.CrashNeverForgets`: a reload finds at least the usage there
  was when the stored snapshot was taken, and loses nothing when the ledger is
  idle and free of errors.
* The refund at `engine/quota.go:161-170` can be swallowed by its clamp
  although the clock only goes forward: a reservation that outlives the retained
  periods finds its period pruned (`QuotaSafety.ClampCanFire`).
  `QuotaSafety.RefundExactIff` gives the exact condition.  Quota safety holds
  regardless.
* Rollback is total when starts fail only for endpoint conflicts or for rules
  that can never start, in every state a manager reaches from an empty one
  (`ManagerRuns.RollbackIsTotalOnRuns`).  For arbitrary failures
  `ManagerRollback.TransactionRollsBack` says what is left.
* Loop blame is exact for one rule per listener, and the listen check
  guarantees that (`EndpointIndex.ConflictFreeMeansOneRuleEach`).  With more
  rules per listener blame is sound, and some rule is blamed exactly when a
  loop exists.

## Model

| member | source | states |
|---|---|---|
| Collector.RestoreFacts | engine/manager.go:800-851 | Restoring a snapshot after any growth gives every saved rule its exact totals (a surviving counter keeps what it counted, any other has the saved totals added once), keeps the counter objects that survived, recreates the missing ones and drops counters that were not saved |
| Collector.RestoreCounterFacts | engine/manager.go:811-835 | One saved counter: kept as it is if it survived, its saved totals added exactly once if another object replaced it or it vanished; every other counter untouched |
| Collector.ForwardFacts | engine/stats.go:294-368 | Forwarding by live runners only adds to the counter objects they hold |
| Collector.GetCounterFacts | engine/stats.go:270-288 | Binding creates a rule's counter at most once and moves nobody else's |
| Manager.StatsCollector.Snapshot | engine/manager.go:762-798 | Copies every counter with its identity and all metadata, in whatever order the map is walked |
| Manager.StatsCollector.Restore | engine/manager.go:800-851 | The loops over counters and saved entries compute the specified restore |
| ManagerInvariant.LaunchFacts | engine/manager.go:121-157 | A start either registers new runners bound to the counter the collector reads, or leaves running map and live runners as they were; the invariant holds either way |
| ManagerInvariant.StartRunnersFacts | engine/manager.go:928-938 | Starting a set is all or nothing |
| ManagerInvariant.RunnersDisjoint | engine/manager.go:121-157 | No live runner belongs to two rules |
| ManagerSteps.RestartFacts | engine/manager.go:165-231 | A restart touches one rule only, and leaves it running the new rule, running the old rule, or not running at all, consistently in every case |
| ManagerSteps.UndoFacts | engine/manager.go:532-598 | An undo keeps the invariant, touches its own rule only, and on success reverts that rule |
| ManagerSteps.ApplyOneFacts | engine/manager.go:527-615 | Applying one desired rule journals exactly how to go back |
| ManagerTransaction.ApplyDesiredFacts | engine/manager.go:527-615 | After any prefix of the desired rules, for any start failures, the journal leads back to the rules there were before |
| ManagerTransaction.RemoveAllFacts | engine/manager.go:617-641 | Removing unmentioned rules journals their restart |
| ManagerTransaction.UndoAllFacts | engine/manager.go:726-736 | Replaying a journal backwards keeps the invariant whatever fails, runs no id the journal does not lead back to, and if nothing fails arrives at the original rules |
| ManagerRollback.RollbackFacts | engine/manager.go:726-743 | After a rollback: runners are those of the running map, no id runs that did not before, metadata matches the running rules, no counter is below its snapshot, and if no undo failed the rules are the earlier ones |
| ManagerRollback.TransactionRollsBack | engine/manager.go:515-743 | The same for every transactional apply, failed or pending, and an arbitrary pattern of start failures before and during the rollback |
| ManagerConflicts.StartDecided | engine/manager.go:928-938 | When starts fail only for conflicts or unstartable rules, a set starts exactly if the rule is startable and all its endpoints are free |
| ManagerConflicts.RestartFits | engine/manager.go:165-231 | A restart then succeeds exactly if the new rule fits the other running rules, and never loses the old rule |
| ManagerConflicts.UndoAllWorks | engine/manager.go:726-736 | Then no undo fails, each meeting the endpoints it ran with |
| ManagerTotality.RollbackIsTotal | engine/manager.go:515-743 | Then every failed apply and every rollback of a pending one, over rules that can run together, succeeds and restores exactly the earlier rules |
| ManagerRuns.RunKeeps | engine/manager.go:115-743 | Every run of starts, restarts, stops, removals, committed and rolled-back applies keeps the manager's invariant and rules that can run together |
| ManagerRuns.RollbackIsTotalOnRuns | engine/manager.go:515-743 | So in every state reached from an empty manager, an apply that is taken back has all its undos succeed and leaves exactly the rules that ran before it |
| ManagerTotality.SuccessRunsExactlyDesired | engine/manager.go:515-660 | A successful replace-all apply leaves exactly the enabled desired rules running |
| ManagerForecast.TransactionForeseen | engine/manager.go:527-615 | In a successful apply a running rule keeps its very runners if and only if RuntimeEqual finds no relevant change; otherwise it runs on new ones |
| ManagerForecast.ApplyTwice | engine/manager.go:515-660 | Applying the same snapshot again attempts no start, stops nothing and keeps every runner |
| Manager.ValidateSnapshot | engine/manager.go:662-695 | Standardises all rules and stops at the first that is invalid or repeats an id |
| Manager.Manager.StartRunnerSet | engine/manager.go:928-945 | Starts runners in order over the live set and, on a failure, stops those already started |
| Manager.Manager.RestartRuleInternal | engine/manager.go:165-231 | Builds, stops, starts and, on a failure, restores, as specified |
| Manager.Manager.ApplyOne | engine/manager.go:527-615 | The branches for a disabled, an unchanged, a changed and a new rule, with the undo each journals |
| Manager.Manager.RollbackSteps | engine/manager.go:726-743 | The reverse loop over the journal, the collector restore and the realignment of metadata compute the specified rollback |
| Manager.Manager.BeginApply | engine/manager.go:501-660 | An invalid snapshot changes nothing; a failed apply has been rolled back; a successful one is pending with a journal that leads back |
| Manager.SnapshotApplyTransaction.Rollback | engine/manager.go:469-483 | Takes effect once; restores what ran before the apply; does nothing after Commit |
| QuotaDurability.StepKeepsFlush | engine/quota.go:182-315 | Every step of every interleaving keeps durable at least used, a single flusher, snapshots in order, and every uncovered bump pending, in flight or behind a recorded error |
| QuotaDurability.GrantKeepsCover | engine/quota.go:236-256 | A grant that raises no flush leaves the watermark covered by whatever covered it |
| QuotaDurability.StoreAdvances | engine/quota.go:286-315 | No two saves overlap, and what reaches the store is newer than what it held |
| QuotaDurability.FlushProtocol | engine/quota.go:182-315 | In every reachable state used is at most durable, a pending flush has a flusher or a recorded error, and an idle error-free ledger is covered by its store on every period |
| QuotaDurability.CrashNeverForgets | engine/quota.go:87-103 | A crash in any reachable state reloads at least the usage at the stored snapshot, and everything if the ledger was idle and free of errors |
| QuotaDurability.CrashAfterSave | engine/quota.go:302-313 | Once a save has returned success, no later crash reloads less than a snapshot at least as new |
| QuotaLoss.CrashLosesAtMostAChunkIff | engine/quota.go:176-278 | Over every run from start-up, with a rule's limit and chunk fixed: a crash at any point forgets at most one chunk of a period's usage if and only if no grant of the run raises that period's watermark before its last raise has reached the store |
| QuotaLoss.RaiseLosesAChunkIff | engine/quota.go:236-256 | The same for one grant that raises a watermark: at most a chunk is at stake afterwards if and only if the store held the watermark before |
| QuotaLoss.TwoChunksCanBeLost | engine/quota.go:249-260 | A concrete run in which a second chunk is granted while the first is being saved, and a crash forgets both |
| QuotaAccounting.TrackEffect | engine/quota.go:326-378 | Pruning and charging, seen from one period |
| QuotaAccounting.RefundEffect | engine/quota.go:135-170 | A finish returns exactly the unwritten bytes where they are still there, and touches no other period |
| QuotaAccounting.StepKeepsAccounts | engine/quota.go:135-278 | Every step keeps usage of every retained period at baseline plus written plus outstanding bytes |
| QuotaSafety.QuotaSafe | engine/quota.go:182-278 | For fixed quotas and a clock at most two periods behind its maximum, in every reachable state that sum is the usage and is within the limit unless the loaded baseline already was not |
| QuotaSafety.RefundExactIff | engine/quota.go:161-170 | A refund is exact if and only if its period still has a durable key, that is, was not pruned |
| QuotaSafety.ClampCanFire | engine/quota.go:161-170 | A concrete legal run, its clock going forward, after which an outstanding reservation's period is pruned and finishing it with nothing written refunds nothing |
| QuotaLedger.Ledger.GrantLocked | engine/quota.go:214-270 | The granting section: pruning, capping by both limits, watermark growth, flush guard, charge, reservation |
| QuotaLedger.Ledger.EnterGate | engine/quota.go:187-212 | The gate: passes without an error, refuses in the cooldown or during another save, retries otherwise |
| QuotaLedger.Ledger.SaveExact | engine/quota.go:473-494 | Writes actual usage as the watermark and lifts the gate only on success |
| QuotaLedger.QuotaReservation.Finish | engine/quota.go:135-159 | Settles a reservation once, clamping the byte count |
| QuotaLedger.PrunePeriodMap | engine/quota.go:339-345 | The deleting loop keeps exactly the keys from the cutoff on |
| QuotaLedger.LoadRecords | engine/quota.go:87-103 | A loaded state is accepted exactly when rule ids are non-empty and distinct, period keys non-empty and counts non-negative, and then holds just its records |
| QuotaLedger.RestoreQuotaPeriods | engine/quota.go:115-124 | Reads one rule's periods, refusing exactly an empty key or a negative count |
| QuotaLedger.SaveThenLoad | engine/quota.go:504-518 | Saving and loading a watermark gives it back |
| QuotaLedger.DurableQuotaChunk | engine/traffic_control.go:59-74 | The watermark step lies between 64 KiB and 64 MiB and within one percent of every limit above 6.4 MB |
| QuotaFlusher.RunFlush | engine/quota.go:286-315 | The flush loop, with grants and finishes landing during each save: when it drains, the store covers the whole watermark and the gate is open; when a save fails, the error is recorded and the guard free |
| ConfigCommit.StagedConfig.Commit | controlapi/config_store.go:220-267 | Renames exactly when the file is the one staged over and the rename works; a directory sync failure is reported after the rename |
| ConfigCommit.StagedConfig.Discard | controlapi/config_store.go:311-327 | Removes an uncommitted temporary file once, or, when the removal fails, changes nothing and may be tried again; never touches the config file |
| ConfigCommit.Runtime.PutRules | controlapi/config_management.go:212-333 | On every exit: renamed means file, running rules and UDP limit are the candidate's and nobody else's edit was overwritten; not renamed means the earlier limit, and the earlier rules unless the response reports a failed rollback, the only reason to become degraded; a request refused before the apply touches no runtime state; the temporary file stays only when it was not renamed and could not be removed; during the apply the limit is the smaller of old and new |
| ConfigCommit.Runtime.ApplyAndCommit | controlapi/config_management.go:236-316 | The same from staging on, for every answer of rename, sync and rollback |
| ConfigCommit.Runtime.Reload | controlapi/server.go:204-247 | A reload of an unparsable or refused file touches nothing; any other applies the whole file or keeps the limit and, if its rollback worked, the running rules, and is degraded exactly when it failed |
| ConfigYaml.DecodeEncoded | controlapi/config_store.go:493-500 | An encoded rule reads back as the same rule up to normalisation |
| ConfigYaml.MergeRuleReads | controlapi/config_store.go:520-539 | Merging into the node a rule came from yields a node that reads as the desired rule and keeps every unmanaged key |
| ConfigYaml.LookupSet | controlapi/config_store.go:567-585 | Setting a key changes that key only |
| ConfigYaml.KeysAfterSet | controlapi/config_store.go:567-585 | Setting a key adds at most that key |
| ConfigCandidate.MergeAllReads | controlapi/config_store.go:463-518 | The merged list has one node per desired rule, in order, each reading as its rule; it is refused exactly for repeated ids |
| ConfigCandidate.RenderParses | controlapi/config_store.go:369-405 | A rendered document parses exactly when the draft is acceptable, and then to the normalised draft, other settings and unknown rule keys kept |
| ConfigCandidate.CandidateIsTheDraft | controlapi/config_store.go:115-155 | A candidate exists exactly when the draft is acceptable; it parses to the standardised rules in draft order and the UDP limit, all else kept |
| ConfigCandidate.RebuildingChangesNothing | controlapi/config_store.go:115-155 | Building a candidate from a candidate's own configuration gives the same document, by the short cut for an unchanged draft |
| ConfigCandidate.EditingUnchangedRules | controlapi/config_store.go:369-405 | The edits behind that short cut change nothing either: merging a document's own rules gives their very nodes back, and writing them or the limit where they stand leaves the document as it is |
| ConfigEditor.YamlMapping.SetNode | controlapi/config_store.go:567-585 | The loop replaces the first node under the key or appends it |
| ConfigEditor.MergeRulesYaml | controlapi/config_store.go:463-518 | The loops over the two id maps compute the specified merge |
| ConfigEditor.Build | controlapi/config_store.go:115-155 | Rendering and parsing twice computes the specified candidate |
| RuleDiff.PrepareManagedRules | controlapi/config_management.go:492-531 | Each rule gets the revision and times its change against the current rule of the same id calls for |
| RuleDiff.HistoryIsNotTaken | controlapi/config_management.go:499-503 | Revision and times sent by a client are ignored |
| RuleDiff.PreparingAgainIsStable | controlapi/config_management.go:512-518 | Sending the same draft again changes no revision and no time |
| RuleDiff.DiffConfiguredRules | controlapi/config_management.go:541-596 | Exactly one item for each id whose configuration changes |
| RuleDiff.ForecastIsExact | controlapi/config_management.go:559-594 | From a runtime equal to the old configuration, a successful apply starts, stops, removes, restarts and leaves alone exactly what the forecast says |
| Rules.StandardizeStable | engine/rule.go:75-105 | Normalising twice changes nothing |
| Rules.RuntimeEqualIsKeyEquality | engine/rule.go:185-221 | On valid rules RuntimeEqual compares one key, so it is an equivalence |
| Rules.RuntimeEqualReflexiveIff | engine/source_ip.go:159-177 | A rule equals itself exactly when its source policy compiles |
| SourceIp.Compile | engine/source_ip.go:70-115 | Compiles exactly the well-formed policies, into a matcher that holds just their entries |
| SourceIp.Allows | engine/source_ip.go:117-138 | Exact map and prefix scan decide what the entries say |
| SourceIp.MappedFormCannotBypass | engine/source_ip.go:117-138 | Writing a client's IPv4 address in mapped form (section 2.5.5.2 of RFC 4291) changes no decision |
| SourceIp.MappedEntryIsTheSame | engine/source_ip.go:34-64 | Nor does writing an entry in that form |
| SourceIp.EqualPoliciesAdmitTheSame | engine/source_ip.go:159-177 | Policies found equal admit the same clients |
| RateLimiter.StepKeeps | engine/traffic_control.go:131-217 | In every interleaving exactly the head holds an open turn and tokens stay within zero and burst |
| RateLimiter.GrantsFollowEnqueueOrder | engine/traffic_control.go:131-217 | Grants are a prefix of the uncancelled waiters in enqueue order, and the queue is the rest |
| RateLimiter.TurnsPassOnce | engine/traffic_control.go:193-217 | No turn is closed twice; a leaving head passes its turn in the same step |
| RateLimiter.WindowBound | engine/traffic_control.go:152-190 | Over any time window of any run, opening and closing at any moment, at most burst plus rate times its length is granted |
| RateLimiter.TwoPausesSuffice | engine/traffic_control.go:170-189 | Nanosecond truncation costs one more pause, never two |
| RateLimiter.HeadIsGranted | engine/traffic_control.go:152-190 | A head request within the burst is granted after at most two computed pauses, whatever others do |
| RateLimiter.AutomaticBurst | engine/traffic_control.go:52-57 | The burst of a positive rate lies between 64 KiB and 4 MiB |
| ConnLimits.SlotStepKeeps | engine/tcp.go:161-180 | In every interleaving of loads, swaps and departures the counter is the number of slot holders |
| ConnLimits.NeverTooManyConnections | engine/tcp.go:161-180 | No run admits more connections than the limit |
| ConnLimits.WaitWithinRate | engine/tcp.go:349-389 | One wait grants no more than held allowance plus rate times time passed, up to a nanosecond's worth |
| ConnLimits.WaitsWithinRate | engine/tcp.go:349-389 | So does any sequence of waits, counted from the last one before it |
| ConnLimits.WaitWindowBound | engine/tcp.go:349-389 | Over any time window, opening and closing at any moment, the waits of one connection grant at most one second's worth plus rate times its length, up to a nanosecond's worth for each wait |
| UdpSessions.StepKeeps | engine/udp.go:149-242 | In every interleaving of packets, dials, closers, stops and limit changes the active count is live sessions plus dials in progress, and each session is either live in its place or closed with its slot returned once |
| UdpSessions.RunCounts | engine/limits.go:56-87 | From start-up on, over every run, the global count is live sessions plus dials in progress |
| UdpSessions.RunWithinLimits | engine/udp.go:196-208 | Over every run no runner holds more sessions and dials than its own limit, nor all runners together more than the highest global limit there was, which is at most 4096 |
| UdpSessions.NothingOpensAfterTheSweep | engine/udp.go:149-160 | After Stop's sweep no run opens a session or dials for one |
| UdpSessions.ReleaseIsNeverClamped | engine/limits.go:69-78 | A release always finds a slot to return |
| UdpSessions.UdpRunner.SessionFor | engine/udp.go:195-241 | Admission and dial as one locked section |
| UdpSessions.UdpRunner.CloseMatching | engine/udp.go:537-549 | A locked walk closes the chosen sessions, each once, and returns as many slots |
| UdpSessions.UdpRunner.Stop | engine/udp.go:149-160 | Cancels, closes every session, returns every slot |
| UdpQueue.StepKeeps | engine/udp.go:261-356 | In every interleaving of reservers, upload loop, cancellation and drain, queued bytes are the classes of the packets queued, held or reserved, within 64 KiB |
| UdpQueue.RunAccounts | engine/udp.go:261-356 | Over every run also: first in, first out, and bytes reported are those delivered |
| UdpQueue.ZeroMeansNothingPending | engine/udp.go:541-543 | The idle check's counter is zero exactly when nothing is pending |
| UdpQueue.PacketPools.Acquire | engine/udp.go:358-397 | A packet, new or pooled, charges exactly what was reserved for its payload |
| UdpQueue.UdpSession.EnqueueUpload | engine/udp.go:261-285 | One datagram: dropped, aborted or queued, its reservation kept or returned |
| UdpQueue.UdpSession.UploadLoop | engine/udp.go:287-356 | With datagrams arriving between packets: each packet's reservation is returned on every way out, each packet's fate is the one its answer decides, the quota is charged for delivered packets only, and the drain leaves nothing undecided |
| CopyLoop.CopyWithTrafficOptions | engine/tcp.go:414-498 | What arrives is a prefix of what was read, all of it on a nil error; its length is the returned total, the reported traffic and the net quota charge; rejected bytes are exactly those a quota withheld; every reservation made is finished on every exit |
| CopyLoop.Transfer | engine/tcp.go:429-490 | One chunk, on each of its exits |
| ForwardingGraph.FinishOrderMeansAcyclic | precheck/precheck.go:481-501 | If every node finishes after the listeners it leads to, there is no loop |
| ForwardingGraph.StaysOnCycle | precheck/precheck.go:503-515 | With one rule per listener a walk that starts on a loop never leaves it |
| ForwardingGraph.CycleCyclesFrom | precheck/precheck.go:517-541 | So the loop reported is the only one through its listeners |
| ForwardingLoops.LoopDetector.Visit | precheck/precheck.go:481-501 | The depth-first search terminates, restores its path and keeps soundness, completeness and finish order |
| ForwardingLoops.LoopDetector.ReportCycle | precheck/precheck.go:517-541 | Blames the rules from the entry on, each once, naming a real loop |
| LoopCheck.GraphHasExactly | precheck/precheck.go:427-445 | The graph has an edge exactly for each enabled valid rule and network |
| LoopCheck.Detect | precheck/precheck.go:449-452 | Findings and their meaning, in whatever order the map yields the nodes |
| LoopCheck.CheckForwardingLoops | precheck/precheck.go:421-453 | Every finding names a rule of a real loop and prints that loop; something is found exactly when a loop exists; with one rule per listener exactly the rules on a loop are found |
| EndpointIndex.Index.Conflict | precheck/precheck.go:320-337 | Finds a conflicting endpoint exactly when comparing with every earlier one would |
| EndpointIndex.Index.Add | precheck/precheck.go:339-361 | Adds one endpoint to what the index stands for |
| EndpointIndex.CheckEndpointConflicts | precheck/precheck.go:207-212 | Reports exactly the endpoints that conflict with an earlier one, in order; nothing exactly when no two conflict |
| EndpointIndex.NormalizeStable | precheck/precheck.go:563-569 | Normalising an address twice changes nothing |
| EndpointIndex.ConflictFreeMeansOneRuleEach | precheck/precheck.go:427-453 | A configuration without listen conflicts has one rule per listener, so its loop check is exact |
| Quantity.ParseIsExact | engine/quantity.go:134-168 | A number with a unit is accepted exactly when their rational product is a whole number of bytes in range, whatever blanks stand between |
| Quantity.FormatHumanQuantity | engine/quantity.go:175-199 | Prints the first shortest exact form with at most three decimals between 1 and 10000, or plain bytes when there is none |
| Quantity.ShortenedText | engine/quantity.go:206-209 | Trimming a three-decimal text gives the shortest numeral of the value |
| Quantity.ShortenedValue | engine/quantity.go:201-209 | Trimming loses nothing |
| Quantity.RoundTrip | engine/quantity.go:134-199 | The text printed for a 64-bit value parses back to it exactly when the value is not negative |
| Quantity.RatesRoundTrip | engine/quantity.go:24-39 | Every byte rate survives, over the actual unit tables |
| Quantity.SizesRoundTrip | engine/quantity.go:41-51 | Every byte size survives, over the actual unit tables |

## Left out

- Sockets, DNS, TLS, deadlines, goroutines: a start, dial, read, write, save, rename or sync is an oracle's answer; which goroutine runs next is the sequence of steps.
- HTTP, JSON, authentication, logging, metrics rendering: only the transaction logic of the handlers is modelled.
- `tui/`, `bot/`, `cmd/`, `metrics/`, `netinfo/`, `tunnel/`, `acme/`, `certstore/`, `certreview/`, `engine/https.go`, `engine/proxy.go`, `dnsresolver/`, `controlapi/ratelimit.go`: user interfaces, platform calls, disabled protocols, external libraries, or small case analyses.
- Calendars and time zones: a period is an index into an ordered calendar; whether a zone loads is part of the rule; the error path of `periodsLocked` is not modelled.
- 64-bit overflow is written out for the durable watermark, the chunk size and rule revisions; usage totals and traffic counters are unbounded integers.
- Quota ledger without a store, `snapshot`, `blocked` and `waitIdle`: the state machine's ledger has a store; the sorted order of saved records is dropped.
- QuotaSafety.QuotaSafe: assumes quotas fixed per rule and an exact save only when no reservation is outstanding, as its comment at `engine/quota.go:471` demands; what `reserve` grants after its own successful retry is included although it does not read the gate again.
- QuotaLoss.CrashLosesAtMostAChunkIff: assumes what QuotaSafe assumes of clock and exact saves, one limit and chunk for the watched rule, requests of at most a chunk (buffers hold at most 64 KiB, and `DurableQuotaChunk` is never smaller), a limit that a chunk can be added to in 64 bits, and a process that ends when an exact save fails, as `cmd/vmflow/main.go:288-292` does.
- QuotaFlusher.RunFlush: the loop runs over a finite script of saves; a loop that never ends is a run of the state machine of `QuotaMachine`.
- Float64 tokens, allowances and waits are reals; only the truncation of waits to whole nanoseconds is modelled.
- Runner building errors, the `runnerBuilder` hook and the second already-running check of a start, which cannot happen while applies are serialised.
- `ApplySnapshot` (the non-transactional variant) and `StopAll`, which the runs of `ManagerRuns` therefore do not contain; sorted iteration orders are arbitrary orders here.
- Source addresses are syntax trees and numbers, not text; protocol and mode names are datatypes; case folding is ASCII; the matcher's sorted entry list is a set.
- File identity, permissions, symbolic links and fsync: a file is content plus identity, revisions are the content, and commit's check-and-rename is one step.
- ConfigCommit.Runtime.PutRules: the candidate builder and the parser are functions it is given; what building does is `ConfigCandidate.CandidateIsTheDraft`.
- YAML syntax, comments, styles, anchors and aliases: a document is an ordered key/value tree without aliases; field values are of any type with an idempotent normalisation that encoding and decoding respect; the error branches of merging that an already parsed document cannot reach are absent.
- A UDP runner's source filter and quota check before admission, and the download direction's reservations, whose accounting is that of the upload loop.
- UdpQueue.UdpSession.UploadLoop: runs over a finite script of arrivals and answers; arrivals that overlap the handling of a packet, or come after the drain, are covered by `UdpQueue.StepKeeps`.
- CopyLoop.CopyWithTrafficOptions: runs over a finite script of reads; buffer reuse, deadlines and the activity and pending callbacks are dropped.
- Rules with an unparsable quantity: quantities are modelled on their own; parse errors are not told apart.
- Precheck warnings, bind and resolve checks, and the ACME listener check.
