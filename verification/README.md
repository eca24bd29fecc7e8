# CodePet verification model

A Dafny model of the stateful cores of CodePet and proofs of what they promise. Each module is one file of
the same name; `dafny verify dfyconfig.toml` checks everything.

What is modelled, and the main results:

- **The task lineage engine.** `Store` is the write-ahead store with its replay and its locks, `StoreRuns` many
  processes on it, down to the single file operation, among them handles that go on committing after they failed
  to get their lock back: histories are atomic (`HistoryIsAtomic`) exactly when such handles keep to a rule
  (`RuleIsSafeIff`). `Domain` and `MessageLog` are the records and the chunked message log, which refines a
  plain sequence. `Batching` selects what a model is shown; the required properties determine the batch
  (`BatchUnique`). `Merge` and `TaskGraph` work a model's answer into the task graph and keep it well formed, and
  `MergeMeaning` says without naming their functions which task takes a delta (`DeltaIsMerged`), when an episode is
  continued, and between which episodes an edge is drawn (`LinkIsDrawn`).
  `Engine`, `EngineSafety` and `Extraction` put these together: an extraction that gives up the writer lock
  while the model runs, against scans, resets and completions. In every reachable state all evidence
  resolves in the current log (`RunsAreGood`), and a commit loses no update (`CommitLosesNoUpdate`).
  `LineageMeaning` says what every step leaves in the files: the links of a conversation over whole runs
  (`LinksSinceReset`), a commit (`CommitIs`), and how long an acceptance stands (`AcceptanceStands`).
  `Coverage` shows that the extracted count skips no message (`NothingIsSkipped`), and `EngineOnDisk` puts the
  engine on the store: its invariant holds after every file operation and every death (`DiskIsGood`).
  `Aliases` is the way evidence is named to a model and back.
- **The scheduler.** `Watch` is a budget reserved before it is spent, its handlers and the steps of a tick.
  `WatchRuns` puts it on the store and follows it over every run, file operation by file operation, with readers,
  replays, deaths and ticks that go on without their lock (`BudgetNeverExceeded`, `NewerConfigStays`). `LostLocks`
  shows the conditions to be exact: when an older reservation can add a call (`BudgetIff`), and what ticks may do
  to the files without their lock (`LostLocksIff`, `ConfigStaysIff`), with the runs that break the budget
  otherwise (`LostReservation`). `WatchMeaning` says what the handlers store, and that a scheduler that was switched
  off stays off (`SwitchedOffStays`).
- **The gateway.** `EventBus` and `EventCursor` are the replay ring, the broadcast channel, the subscriber and
  the cursor text: with serialised publishers a subscription is gap free and exactly once
  (`SubscriptionIsExact`), with overlapping ones it only rises, and everything arrives exactly when the sends
  keep the order of the numbers (`EverythingArrivesIff`). `TurnSends` is the
  cache that makes a request a single dispatch while its key is retained.
- **The recent feed.** `RecentFeed` computes it and says exactly how long it stays right (`FeedValidIff`);
  `RecentPages` caches it per view, and following cursors reads one snapshot without gaps
  (`SessionReadsSnapshot`) that is still right when it is served (`PageIsFresh`, `ServedFeedHolds`). `RecentMeaning`
  says what each operation leaves and answers, and that no time boundary passes without a hint (`BoundaryIsHinted`).
- **The signaling service.** `Mailbox` holds offers, answers and batches of ICE candidates, and `MailboxMeaning`
  says what each request is answered; `RateLimit` is its
  request limiter, whose bound per minute is proved and shown to be met.
- **The event journal**, `Journal`: a client that feeds back its cursor misses nothing silently.
- **Small algorithms.** `Ancestry` is the root of a conversation in the engine and in the interface, `Lanes` the
  reachability and the layout of the task graph, `PerfLog` the performance log line and its parser. `Texts` holds
  white space and the length of a text in bytes, `Results` the result types.

Code that changes state is modelled by classes and loops that are proved against functions on values; the
theorems about runs are about those functions. What such a function computes is stated once more, in terms of its
inputs and without its helpers, by lemmas in the modules whose names end in `Meaning` and by lemmas whose names end in `Is`.

Assumptions:

- `stable_id` is injective on the texts it is given, and so is the file name of a key; keys are normalised. The
  joined text that is hashed for a task or an episode (`task:root:evidence:title`) determines its parts.
- An authenticated cursor decodes only if it was issued for the view, and nonces are never repeated.
- Clocks are parameters. Time is non-decreasing where a lemma says so; time stamps compare by a rank.
- A conversation source bumps the generation on a reset and keeps it otherwise (`Engine.Honest`).
- A failure is the death of the process: file operations take effect one by one and in order.
- Counters for epochs, revisions and numbers of events stay below their maximum, except for the event bus,
  where the exhausted counter is modelled.
- The request id of a scheduled job, a time in nanoseconds, is new.

Findings, each with the exact condition: a commit is not atomic when a handle goes on writing after it failed to
get its lock back, except under the rule of `StoreRuns.RuleIsSafeIff` (one such run is
`Store.LostLockMixesCommits`); an event whose send is overtaken is never delivered
(`EventBus.OvertakingLosesAnEvent`, `EventBus.EverythingArrivesIff`); batches of an offer that is gone survive at
the host under a repeated attempt (`Mailbox.ReofferMixesBatches`, `Mailbox.PrefixKeptIff`); a reserved extraction
runs under a newer configuration and adds a call to its allowance (`Watch.OneMoreCall`, `LostLocks.BudgetIff`); a
tick that writes without its lock can lose the reservation of another one and so add a call
(`LostLocks.LostReservation`), bring back an allowance (`LostLocks.LostLockBreaksBudget`), or undo a configuration,
except under the rules of `LostLocks.LostLocksIff` and `LostLocks.ConfigStaysIff`; engine and interface disagree on
roots when there are circles (`Ancestry.CircleDisagrees`, `Ancestry.RootsAgreeEverywhereIff`); a raw status with
quotes or blanks does not come back from its log line (`PerfLog.OpenStatusSwallows`, `PerfLog.StatusSurvivesIff`).

Two further conditions are not met by data the repository produces. A source that renames the generation without
a reset would make a log unreadable once a chunk is full, unless the store already holds the same full chunks under
the new name (`MessageLog.ScanReadableIff`), but the source in `sources/codex.rs:211` keeps the generation unless it
resets. An episode behind an empty identifier would not be found (`Lanes.ReachableIff`), but episode identifiers are
hashes and never empty.

## Model

| member | source | states |
|---|---|---|
| Store.CheckKeys | crates/codepet-task-lineage/src/store.rs:132-141 | a write list is accepted exactly when every key is a plain data key; otherwise the first offending key names the error |
| Store.Handle.Open | crates/codepet-task-lineage/src/store.rs:17-38 | opening for writing replays a pending record: the handle then shows the old files overlaid with the whole record, and nothing is pending |
| Store.Handle.ReadOnly | crates/codepet-task-lineage/src/store.rs:39-61 | a reader that finds a pending record becomes a writer and replays it; otherwise it stays read-only |
| Store.Handle.Recover | crates/codepet-task-lineage/src/store.rs:123-131 | the replay leaves the record applied in full and removed, by exactly the listed file operations in order |
| Store.Handle.Commit | crates/codepet-task-lineage/src/store.rs:132-147 | a commit is refused without any effect or performs exactly the operations `CommitOps`; refusals name the read-only handle first |
| Store.Handle.WithoutWriterLock | crates/codepet-task-lineage/src/store.rs:167-185 | after the lock is back whatever others left pending is replayed; when it cannot be had in time the disk stays as the others left it and the handle stays writable |
| Store.OverlayConcat | crates/codepet-task-lineage/src/store.rs:123-131 | overlaying two lists one after the other is overlaying their concatenation, whatever keys repeat |
| Store.RecoverySettles | crates/codepet-task-lineage/src/store.rs:123-131 | running the replay from any disk ends in the contents the disk stands for |
| Store.CommitAtomicIff | crates/codepet-task-lineage/src/store.rs:132-147 | a commit that no other process interrupts is atomic for every write list if and only if the disk has nothing pending that its files do not show |
| Store.LostLockMixesCommits | crates/codepet-task-lineage/src/store.rs:167-185 | counterexample: a handle that writes after it failed to get its lock back loses half of another commit |
| StoreRuns.NextSound | crates/codepet-task-lineage/src/store.rs:112-185 | every single file operation of any process, with the lock or without it where that is harmless, and every death in between, keeps the store in a state that stands for a whole number of commits |
| StoreRuns.HistoryIsAtomic | crates/codepet-task-lineage/src/store.rs:17-185 | over any history of opens, commits, replays and deaths of any number of processes, in which handles without the lock keep to a safe rule, the contents are the initial ones overlaid, in order, with exactly the lists whose record was written |
| StoreRuns.TruthIsWritten | crates/codepet-task-lineage/src/store.rs:132-147 | what the store ought to hold is the initial contents overlaid with the lists of the commits that took place, in order |
| StoreRuns.RuleIsSafeIff | crates/codepet-task-lineage/src/store.rs:123-185 | the exact condition for handles that go on after losing the lock: every reachable world is atomic, for all lists and interleavings, if and only if such a handle begins a commit only when nobody holds the lock and nothing is pending, fills in files only while its own record is the pending one, and removes no other record |
| StoreRuns.FillLateBreaks | crates/codepet-task-lineage/src/store.rs:123-131 | counterexample: a replay that goes on after its record is gone brings back an old value, also with the lock free |
| StoreRuns.RepeatedKeysBreak | crates/codepet-task-lineage/src/store.rs:123-131 | counterexample: from the empty store, by steps that are harmless otherwise, two replays of one record that names a key twice leave the earlier value |
| StoreRuns.ReaderSeesNoMixture | crates/codepet-task-lineage/src/store.rs:39-61 | whoever reads under the shared lock, or holds the lock without a commit in progress, sees exactly those contents in the files themselves |
| Store.CrashedRecoveriesKeepLogical | crates/codepet-task-lineage/src/store.rs:123-131 | any number of replays cut off at any point leave what the disk stands for unchanged |
| Store.CommitIsCrashAtomic | crates/codepet-task-lineage/src/store.rs:112-147 | one commit cut off anywhere, then any number of cut-off replays: the next complete open shows all of the writes or none |
| MessageLog.ReadMessages | crates/codepet-task-lineage/src/service.rs:52-65 | reading a log joins its chunks in order, and fails on a missing chunk or on a count that disagrees with the manifest |
| MessageLog.BuildChunkWrites | crates/codepet-task-lineage/src/service.rs:182-187 | the loop that cuts the appended messages into chunks of 200 yields the chunk list of the specification |
| MessageLog.BuildPruneWrites | crates/codepet-task-lineage/src/service.rs:156-167 | the loop over the tasks writes back exactly the tasks that lose an episode of the reset conversation |
| MessageLog.ScanThread | crates/codepet-task-lineage/src/service.rs:121-211 | scanning one conversation leaves the files unchanged, with the error recorded, or with the one commit applied; what then stands in them is proved of `Scanned` in `LineageMeaning.ScanIsStored` |
| MessageLog.LogIsRead | crates/codepet-task-lineage/src/service.rs:52-65 | files that hold a log chunk by chunk are read back as exactly that log |
| MessageLog.ReadChunksStopsAtGap | crates/codepet-task-lineage/src/service.rs:52-65 | a gap in the chunks makes the whole log unreadable, never shorter |
| MessageLog.ScanWrote | crates/codepet-task-lineage/src/service.rs:180-205 | after the commit the scan state, the conversation and every rewritten chunk are in place |
| MessageLog.ScanSpared | crates/codepet-task-lineage/src/service.rs:154-212 | a commit of a scan leaves every key alone that does not belong to the conversation or to a pruned task |
| MessageLog.ScanTasks | crates/codepet-task-lineage/src/service.rs:156-167 | the tasks after a scan: pruned of the conversation on a reset, otherwise as they were |
| MessageLog.ScanAppends | crates/codepet-task-lineage/src/service.rs:168-212 | the chunked log refines a sequence: after an append it holds the old log followed by the batch, full chunks untouched |
| MessageLog.ScanResets | crates/codepet-task-lineage/src/service.rs:154-212 | after a reset the log is the batch alone, whatever stale chunks the disk still holds |
| MessageLog.ScanKeepsOtherLogs | crates/codepet-task-lineage/src/service.rs:154-212 | the logs and scan states of all other conversations are untouched |
| MessageLog.ScanReadableIff | crates/codepet-task-lineage/src/service.rs:168-212 | an appended batch can be read back if and only if the full chunks of the log are in the store under the batch's generation: so under the old generation or without a full chunk, and not under one that is new to the store; the sources here rename only on a reset |
| MessageLog.PruneKeepsUnlessShorter | crates/codepet-task-lineage/src/service.rs:156-167 | a pruned task keeps its value unless it lost an episode, in which case its revision rose by one |
| Batching.EligibleIndexes | crates/codepet-task-lineage/src/service.rs:382-390 | the listed indexes are exactly the recent user and assistant messages, in order |
| Batching.FirstNew | crates/codepet-task-lineage/src/service.rs:391-400 | the first listed message that has not been extracted, if there is one |
| Batching.Grow | crates/codepet-task-lineage/src/service.rs:402-419 | the loop stops exactly at the sixth message, at the character limit or at the end of the listed messages |
| Batching.SelectBatch | crates/codepet-task-lineage/src/service.rs:382-425 | a batch has 1 to 6 messages and at most 5000 characters, at most one overlap message, ends past the extracted count, skips no eligible message and could not be longer; there is none exactly when no message is eligible |
| Batching.BatchUnique | crates/codepet-task-lineage/src/service.rs:382-425 | those properties leave exactly one batch and one end for a log, a count and a time |
| Merge.Validate | crates/codepet-task-lineage/src/extraction.rs:85-124 | accepts exactly the extractions whose titles are non-empty and bounded, whose tasks are candidates, and whose evidence was supplied and is used once per task |
| Merge.AssignIds | crates/codepet-task-lineage/src/extraction.rs:113-120 | the inner loop accepts an episode exactly when its evidence is allowed and new to the task |
| Merge.SplitEpisode | crates/codepet-task-lineage/src/service.rs:527-546 | an episode is cut at the incoming messages into the groups of the specification |
| Merge.SplitAll | crates/codepet-task-lineage/src/service.rs:526-547 | every episode of a delta is cut, in order |
| Merge.SplitIds | crates/codepet-task-lineage/src/service.rs:526-547 | cutting loses, adds and repeats no evidence |
| Merge.GrowTask | crates/codepet-task-lineage/src/service.rs:525-615 | the loop over the pieces works each into the task and raises its revision once |
| Merge.MergeOne | crates/codepet-task-lineage/src/service.rs:482-616 | one delta: found by id, by title and shared evidence, or new, and put back in its place, as `MergeMeaning.DeltaIsMerged` proves of `MergeDelta` |
| Merge.MergeDeltas | crates/codepet-task-lineage/src/service.rs:471-616 | the deltas are merged one after the other into the growing list of candidates |
| Merge.LinkOne | crates/codepet-task-lineage/src/service.rs:633-684 | every lineage link is drawn into a task, in the order of the links, from its source to its destination, as `MergeMeaning.LinksAreDrawn` proves of `LinkTask` |
| Merge.LinkCandidates | crates/codepet-task-lineage/src/service.rs:632-685 | all merged tasks are linked |
| Merge.ValidIsSupplied | crates/codepet-task-lineage/src/extraction.rs:85-124 | what passes validation satisfies everything the merge takes for granted |
| TaskGraph.EpisodesDistinct | crates/codepet-task-lineage/src/service.rs:574-613 | in a well-formed task no two episodes share an id |
| TaskGraph.SortSorts | crates/codepet-task-lineage/src/service.rs:555 | the insertion by offset sorts evidence and keeps every id |
| TaskGraph.AddEpisodeSound | crates/codepet-task-lineage/src/service.rs:548-614 | extending, reopening or appending an episode keeps evidence unique over all episodes and edges between existing, different episodes without repetition, and adds exactly the new evidence |
| TaskGraph.AddEpisodesSound | crates/codepet-task-lineage/src/service.rs:548-614 | the same for all pieces of a delta |
| TaskGraph.GrownSound | crates/codepet-task-lineage/src/service.rs:525-616 | a merged task is well formed and holds its old evidence and all of the delta |
| TaskGraph.AddLinkSound | crates/codepet-task-lineage/src/service.rs:632-685 | drawing a link changes nothing but the edges and keeps them free of self edges and duplicates |
| TaskGraph.PruneSound | crates/codepet-task-lineage/src/service.rs:156-167 | removing a conversation removes exactly its evidence and keeps the task well formed |
| TaskGraph.MergeDeltaSound | crates/codepet-task-lineage/src/service.rs:471-616 | one merged delta keeps all candidates well formed, extends those it touches and leaves the others equal |
| TaskGraph.MergeAllSound | crates/codepet-task-lineage/src/service.rs:471-616 | the same for a whole accepted extraction |
| TaskGraph.LinkAllSound | crates/codepet-task-lineage/src/service.rs:632-685 | the linking pass keeps what the merge established |
| MergeMeaning.TrimIs | crates/codepet-task-lineage/src/extraction.rs:93 | a trimmed title is the title without the white space around it, and has none at its ends |
| MergeMeaning.GroupsAreCut | crates/codepet-task-lineage/src/service.rs:527-546 | cutting an episode: every piece keeps its title and the order of its evidence, no message lies inside a piece and one lies between any two, and every piece of evidence is in one |
| MergeMeaning.EpisodeIsWorkedIn | crates/codepet-task-lineage/src/service.rs:548-614 | working in a piece: its new evidence, sorted by offset, goes to the last episode if that ended in the same turn with no message since, else into an episode of its own with an edge from the last one of the conversation; a message of the user from after the acceptance opens the task again, and nothing else is touched |
| MergeMeaning.GrownTook | crates/codepet-task-lineage/src/service.rs:525-616 | a task that takes a delta gains exactly the evidence it lacked, keeps title and detail, is one revision on, and stays accepted exactly when no user message from after the acceptance is new |
| MergeMeaning.DeltaIsMerged | crates/codepet-task-lineage/src/service.rs:482-524 | where a delta goes: to the task it names; when it names none to the first with the same trimmed title that holds some of its evidence; else to the one whose id is made of root, first evidence and title, or to a new one with the title and detail of the delta, while all other tasks stay equal |
| MergeMeaning.ExtractionIsMerged | crates/codepet-task-lineage/src/service.rs:471-616 | a whole extraction goes delta by delta, each into what the ones before have left |
| MergeMeaning.LinkIsDrawn | crates/codepet-task-lineage/src/service.rs:633-684 | an edge is drawn if and only if the link has a source and a destination that differ and are not joined: from the latest-started episode of the parent by the time of the link, the last of equals, or without a time the only one; to the first episode of the child with the earliest evidence at or after the link |
| MergeMeaning.LinksAreDrawn | crates/codepet-task-lineage/src/service.rs:632-685 | all links are drawn in their order, each into what the ones before have left |
| Engine.SetCompletion | crates/codepet-task-lineage/src/service.rs:703-725 | a completion is refused without effect for an unknown task or another revision; otherwise it stores the mark, the cursors of all its conversations and the next revision |
| Engine.WatermarksAre | crates/codepet-task-lineage/src/service.rs:713-721 | the stored cursors are the current ones for every conversation of the task and the old ones for the rest |
| EngineSafety.ScanKeepsInv | crates/codepet-task-lineage/src/service.rs:117-212 | every scan keeps every log readable, every task well formed and every piece of evidence anchored in the current log |
| EngineSafety.CompletionKeepsInv | crates/codepet-task-lineage/src/service.rs:703-725 | so does every completion |
| EngineSafety.EnvironmentMoves | crates/codepet-task-lineage/src/service.rs:117-235 | every step of the environment that changes a task raises its revision, and logs only grow within a generation |
| EngineSafety.EnvironmentRunMoves | crates/codepet-task-lineage/src/service.rs:118-212 | any number of scans, tree updates and completions keep the invariant and only move tasks and logs forward |
| EngineSafety.MovesKeepFlight | crates/codepet-task-lineage/src/service.rs:440-468 | what an extraction remembers stays consistent with the files under any such steps |
| EngineSafety.OverwritesOnlyWhatItRead | crates/codepet-task-lineage/src/service.rs:440-468 | an accepted result finds every candidate exactly as it read it, and its new tasks have free ids |
| EngineSafety.CommitLosesNoUpdate | crates/codepet-task-lineage/src/service.rs:440-468 | no lost update: a commit after any interleaving replaces a stored task only by a value computed from that very task, with all its evidence kept |
| EngineSafety.ChangedTaskRejects | crates/codepet-task-lineage/src/service.rs:449-468 | a task changed meanwhile makes the result unacceptable whatever it says |
| EngineSafety.FinishKeepsInv | crates/codepet-task-lineage/src/service.rs:471-698 | the commit of an accepted result keeps every evidence id anchored and every task well formed |
| EngineSafety.StepKeepsGood | crates/codepet-task-lineage/src/service.rs:117-725 | every event of the lineage state machine keeps the invariant |
| EngineSafety.RunsAreGood | crates/codepet-task-lineage/src/service.rs:117-725 | no dangling evidence and no malformed task in any reachable state, through appends, resets, completions, stale results, commits and crashes |
| Coverage.FinishCovers | crates/codepet-task-lineage/src/service.rs:449-699 | an accepted result covers every eligible message from the extracted count to its end, in the log as it is at the commit |
| Coverage.StepAdvances | crates/codepet-task-lineage/src/service.rs:118-699 | every event either starts a later generation with nothing passed, or extends the log and passes exactly the messages the count moves over |
| Coverage.NothingIsSkipped | crates/codepet-task-lineage/src/service.rs:374-699 | over every run the messages below the extracted count are exactly those that one event of the generation supplied or found ineligible, each by a single event, in the log that is still there |
| LineageMeaning.ScanIsStored | crates/codepet-task-lineage/src/service.rs:121-211 | what one scan stores: the error alone, nothing at all, or cursor, counts, revision and time of the scan, the conversation, and its links extended or, on a reset, replaced |
| LineageMeaning.LinksAppend | crates/codepet-task-lineage/src/service.rs:188-202 | over every run without a reset the stored links of a conversation are the earlier ones followed by those of all batches, in order |
| LineageMeaning.LinksSinceReset | crates/codepet-task-lineage/src/service.rs:188-202 | over every run the stored links of a conversation are those of all batches since its last reset, in order, whatever else happens in between |
| LineageMeaning.PruneIs | crates/codepet-task-lineage/src/service.rs:156-167 | a reset leaves of a task exactly the episodes of other conversations and the edges between them, in order, and raises its revision if it lost any |
| LineageMeaning.CompletionIs | crates/codepet-task-lineage/src/service.rs:703-725 | a completion reaches exactly the task at the expected revision: mark, revision and, if accepted, the cursors of all its conversations; every other file stays |
| LineageMeaning.CandidatesAreInOrder | crates/codepet-task-lineage/src/service.rs:427-432 | the candidates are all stored tasks of the root and no other, in the order of the listing |
| LineageMeaning.ContextIs | crates/codepet-task-lineage/src/service.rs:420-481 | the merge looks at the supplied messages by id, cut and marked beyond 2500 characters, and at the offsets of exactly the stored links of kind message |
| LineageMeaning.CommitIs | crates/codepet-task-lineage/src/service.rs:471-699 | an accepted extraction stores its candidates as its deltas leave them, with the lineage drawn into each, counts its batch and clears the error, and leaves all else of the lineage alone |
| LineageMeaning.CommitRecords | crates/codepet-task-lineage/src/service.rs:696-697 | and it leaves its record under its job and as the latest one |
| LineageMeaning.AcceptanceStands | crates/codepet-task-lineage/src/service.rs:559-573 | an accepted task stays accepted through every step of the engine but two: its own completion is taken back, or an extraction brings a message of the user from after the acceptance |
| EngineOnDisk.ListIsStep | crates/codepet-task-lineage/src/service.rs:154-233 | the list each lineage event commits has exactly the effect of its step |
| EngineOnDisk.MoveKeepsSound | crates/codepet-task-lineage/src/store.rs:17-185 | every file operation, death and commit of any process keeps the store sound and what it stands for within the invariant of the engine |
| EngineOnDisk.DiskIsGood | crates/codepet-task-lineage/src/store.rs:17-185 | over every run of engine and processes, after every single file operation and death, the disk stands for files with readable logs, well-formed tasks and anchored evidence, and whoever reads under the lock finds such files |
| Extraction.ListCandidates | crates/codepet-task-lineage/src/service.rs:427-432 | the candidates are the stored tasks of the root, in the order of the listing |
| Extraction.CheckTasks | crates/codepet-task-lineage/src/service.rs:457-468 | the recheck passes exactly when no task of the root was changed, added or removed |
| Extraction.CollectOffsets | crates/codepet-task-lineage/src/service.rs:618-631 | the offsets are those of exactly the messages of the threads the tasks speak about |
| Extraction.CheckResult | crates/codepet-task-lineage/src/service.rs:449-470 | stale before invalid: the answer is accepted exactly when the generation, the count, the tasks and the extraction all hold |
| Extraction.MergeResult | crates/codepet-task-lineage/src/service.rs:471-685 | the merged and linked candidates are those of the specification |
| Extraction.FinishExtraction | crates/codepet-task-lineage/src/service.rs:449-699 | the second half of an extraction is one step of the state machine, or leaves the files alone |
| Extraction.BeginExtraction | crates/codepet-task-lineage/src/service.rs:374-432 | the first half reads a batch and the candidates, or passes over a log with nothing eligible |
| Extraction.ExtractThread | crates/codepet-task-lineage/src/service.rs:374-699 | the body for one thread, with the lock dropped in between and any scans, tree updates and completions meanwhile, is a run of the state machine for every outcome; when the lock is lost the disk stays as the others left it |
| Aliases.RestoredIff | crates/codepet-task-lineage/src/extraction.rs:58-78 | exactly the canonical alias of a supplied message is accepted, and leads to the event of that message |
| Aliases.RestoreEvidenceIds | crates/codepet-task-lineage/src/extraction.rs:58-78 | the ids of every episode of every task are rewritten in order, nothing else changes, and the first bad id is the error |
| Aliases.AliasRoundTrip | crates/codepet-task-lineage/src/extraction.rs:144-147 | aliases given to a model come back as the events of the aliased messages, in order |
| Aliases.RestoredAreSupplied | crates/codepet-task-lineage/src/extraction.rs:58-78 | restored ids always name supplied messages |
| Aliases.AliasesDistinct | crates/codepet-task-lineage/src/extraction.rs:144-147 | no two messages of a batch share an alias |
| Aliases.AliasIs | crates/codepet-task-lineage/src/extraction.rs:144-147 | an alias is the letter m and the decimal index without leading zeros |
| Ancestry.Root | crates/codepet-task-lineage/src/service.rs:236-253 | the walk ends, at the last known ancestor or where it enters a circle |
| Ancestry.RootThread | frontend/lib/taskLineage.ts:48-57 | the walk of the interface ends, at the last known ancestor or at the first in text order of all it met |
| Ancestry.ClimbUnique | crates/codepet-task-lineage/src/service.rs:236-253 | the path of a walk is determined by where it starts |
| Ancestry.SameRootIff | crates/codepet-task-lineage/src/service.rs:236-253 | a conversation and its parent have one root if and only if the conversation is not on a circle of several |
| Ancestry.RootsAgreeEverywhereIff | frontend/lib/taskLineage.ts:48-57 | for every list: engine and interface name the same root for every conversation if and only if no circle of several exists, no empty parent names a known conversation, and what leads to a conversation that is its own parent comes behind it in text order |
| Ancestry.CircleDisagrees | frontend/lib/taskLineage.ts:48-57 | on every circle of several there is a conversation whose two roots differ |
| Ancestry.SelfParentDisagrees | frontend/lib/taskLineage.ts:48-57 | a conversation that leads to a later one which is its own parent has two different roots |
| Ancestry.BlankDisagrees | frontend/lib/taskLineage.ts:48-57 | where an empty parent names a known conversation, some conversation has two different roots |
| Ancestry.NoCircleIff | frontend/lib/taskLineage.ts:48-57 | where no conversation is its own parent the roots agree everywhere if and only if there is no circle and no such empty parent |
| EventCursor.CursorRoundTrip | crates/codepet-host/src/gateway.rs:2043-2070 | every 64-bit sequence number is read back from its cursor |
| EventCursor.CursorsAreCanonical | crates/codepet-host/src/gateway.rs:2047-2070 | two accepted cursors of one number are the same text |
| EventCursor.AcceptedIff | crates/codepet-host/src/gateway.rs:2047-2070 | accepted are exactly the twenty-digit forms in range |
| EventBus.GatewayEventBus.Publish | crates/codepet-host/src/gateway.rs:111-133 | a publish numbers, keeps and sends the event, trims the ring to its capacity, and fails without effect when the numbers are used up |
| EventBus.GatewayEventSubscription.NextEvent | crates/codepet-host/src/gateway.rs:195-228 | the loop drains the replay, then polls the channel and skips what is not newer, until an event, a lag, the end of a closed bus or an empty channel |
| EventBus.ReplayIsSuffix | crates/codepet-host/src/gateway.rs:135-173 | a replay is refused exactly for a cursor ahead of the bus or behind the ring; otherwise it is the history after the cursor |
| EventBus.SubscriptionIsExact | crates/codepet-host/src/gateway.rs:111-228 | with serialised publishers, for every interleaving of numbering, sending, attaching, replaying and polling, a subscriber receives a gap-free stretch of the history without repetition or reordering, and has received everything sent when nothing is left to poll |
| EventBus.FreshBusIsExact | crates/codepet-host/src/gateway.rs:91-103 | a new bus starts in that state |
| EventBus.SubscriptionRises | crates/codepet-host/src/gateway.rs:195-228 | with overlapping publishers what is received still strictly increases |
| EventBus.EverythingArrivesIff | crates/codepet-host/src/gateway.rs:111-228 | for every interleaving of overlapping publishers with a subscription that has not ended: once everything is sent and polled, the subscriber holds the whole history from its start if and only if the events numbered after its replay were sent in the order of their numbers |
| EventBus.RunGood | crates/codepet-host/src/gateway.rs:111-228 | over every run the sent and unsent events rearrange the history, and what was received is a stretch of the history followed by the events above all before them in the channel |
| EventBus.OvertakingLosesAnEvent | crates/codepet-host/src/gateway.rs:111-133 | counterexample: two publishers whose sends overtake each other cost a subscriber an event |
| EventBus.AssignIs | crates/codepet-host/src/gateway.rs:111-133 | a published event gets the next number and its text, and the ring is the newest stretch of the history up to the capacity |
| EventBus.NextIs | crates/codepet-host/src/gateway.rs:195-228 | a subscriber that has not fallen behind gets the first event before it that it has not seen; without one it waits, or the bus is closed |
| EventBus.LagIs | crates/codepet-host/src/gateway.rs:195-228 | one that has fallen behind is told how many events it missed and goes on at the oldest one kept |
| EventBus.ChannelIs | crates/codepet-host/src/gateway.rs:93 | the channel keeps the least power of two that holds the capacity |
| TurnSends.TurnSendCache.Insert | crates/codepet-host/src/gateway.rs:66-77 | an insertion keeps queue and map in step and evicts the oldest key beyond 1024; the eviction loop ends |
| TurnSends.TurnSendCache.TurnSend | crates/codepet-host/src/gateway.rs:485-513 | a known key is answered from the cache or refused as a conflict; only an unknown key is dispatched |
| TurnSends.RunValid | crates/codepet-host/src/gateway.rs:53-77 | over every run the queue lists the keys of the map, each once, at most 1024 |
| TurnSends.KeySurvives | crates/codepet-host/src/gateway.rs:66-77 | a key stays with its outcome until 1024 newer keys have arrived |
| TurnSends.AtMostOnce | crates/codepet-host/src/gateway.rs:485-513 | while its key is retained a request is dispatched exactly once, a replay gets the stored outcome and another payload conflicts |
| TurnSends.EvictedByTheLast | crates/codepet-host/src/gateway.rs:66-77 | and it is gone with the next one |
| TurnSends.SendIs | crates/codepet-host/src/gateway.rs:485-513 | a known key costs no call and is answered by its outcome or a conflict; a new one is passed on once, answered with what the provider says, and kept as the newest of at most 1024 |
| RecentFeed.Aggregate | crates/codepet-host/src/recent_conversations.rs:31-77 | the feed is exactly the active, unread and recent conversations in group, time and identity order, and the reported expiry is the earliest moment one of them goes |
| RecentFeed.SortedUnique | crates/codepet-host/src/recent_conversations.rs:66-76 | one set of rows has one sorted order |
| RecentFeed.FeedValidIff | crates/codepet-host/src/recent_conversations.rs:31-77 | with unchanged inputs the feed computed at one time is the feed at a later time if and only if the expiry has not come, also at the ends of the clock |
| RecentFeed.FeedUnique | crates/codepet-host/src/recent_conversations.rs:31-77 | inputs and time determine the feed |
| RecentFeed.FeedOrder | crates/codepet-host/src/recent_conversations.rs:59-76 | in a feed active conversations come before unread ones and these before recent ones, each group newest first, then by identity |
| RecentFeed.FeedHolds | crates/codepet-host/src/recent_conversations.rs:39-65 | a conversation is in the feed if and only if it is active, unread or at most 14 days old, and it carries its unread state |
| RecentPages.RecentSnapshots.Track | crates/codepet-host/src/recent_conversations.rs:129-131 | tracking a provider keeps what is known of it |
| RecentPages.RecentSnapshots.Invalidate | crates/codepet-host/src/recent_conversations.rs:141-150 | raises epoch and revision, clears the boundary, leaves a hint and drops exactly the snapshots of the provider |
| RecentPages.RecentSnapshots.TakeInvalidations | crates/codepet-host/src/recent_conversations.rs:152-175 | invalidates every provider past its boundary, drops old snapshots and hands out each pending hint once, as `RecentMeaning.HintsAre` proves of `Taken` |
| RecentPages.RecentSnapshots.Install | crates/codepet-host/src/recent_conversations.rs:177-215 | a snapshot of another epoch or past its boundary is refused without effect; otherwise the boundary only tightens |
| RecentPages.RecentSnapshots.SetTail | crates/codepet-host/src/recent_conversations.rs:217-219 | replaces the tail of a present snapshot and nothing else |
| RecentPages.RecentSnapshots.PendingTail | crates/codepet-host/src/recent_conversations.rs:221-232 | the tail and the number of missing rows for a page, or the refusal of a foreign or stale cursor |
| RecentPages.RecentSnapshots.Append | crates/codepet-host/src/recent_conversations.rs:234-246 | rows are appended only in the epoch they were fetched in, to a live snapshot, and none of them past its window |
| RecentPages.RecentSnapshots.PageWithFence | crates/codepet-host/src/recent_conversations.rs:258-321 | the checks in order, the sweep they cause, and the page with its next cursor |
| RecentPages.StepKeeps | crates/codepet-host/src/recent_conversations.rs:124-321 | after any operation a snapshot that is still there was there before, in the same epoch, with its revision, fence and lifetime, its rows extended and its boundary no later |
| RecentPages.RunKeeps | crates/codepet-host/src/recent_conversations.rs:124-321 | the same over every run of operations on any views |
| RecentPages.SessionReadsSnapshot | crates/codepet-host/src/recent_conversations.rs:258-321 | following next cursors, with anything in between, reads a prefix of one snapshot without gap or repetition, with one fence and revision, always advances, and a last page completes exactly its rows |
| RecentPages.PageIsFresh | crates/codepet-host/src/recent_conversations.rs:177-321 | a page is served only in the epoch its snapshot was collected in, within its lifetime, and before its boundary and every boundary the provider has had since |
| RecentPages.AppendedRowsFresh | crates/codepet-host/src/recent_conversations.rs:234-246 | no appended row is served past its own place in the window |
| RecentPages.GoneIsGone | crates/codepet-host/src/recent_conversations.rs:258-310 | a cursor of a replaced or dropped snapshot is refused for ever |
| RecentPages.PendingIsEnough | crates/codepet-host/src/recent_conversations.rs:221-246 | fetching what is reported missing makes the page answerable |
| RecentPages.ServedFeedHolds | crates/codepet-host/src/gateway/recent.rs:196-258 | a page cut from an installed feed is cut from rows that are still the feed at that moment |
| RecentPages.InvalidationIsHinted | crates/codepet-host/src/recent_conversations.rs:152-175 | every invalidation is hinted in the next round, with a revision no older snapshot carries, and not again in the round after it |
| RecentMeaning.HintsAre | crates/codepet-host/src/recent_conversations.rs:152-175 | the hints name exactly the tracked providers that are pending or past their boundary, with their present revision; those past it start over in a later epoch and revision without boundary or views, all others keep epoch, revision and boundary |
| RecentMeaning.BoundaryIsHinted | crates/codepet-host/src/recent_conversations.rs:152-175 | no boundary passes unnoticed: on every run readers are told of a later revision by the first hints at or after it, even if the snapshot that set it is long dropped |
| RecentMeaning.TrackIs | crates/codepet-host/src/recent_conversations.rs:129-131 | a tracked provider is known, and one that was known stays as it was |
| RecentMeaning.InvalidateIs | crates/codepet-host/src/recent_conversations.rs:141-150 | an invalidated provider starts over and is to be hinted, and nothing of any other is touched |
| RecentMeaning.InstallIs | crates/codepet-host/src/recent_conversations.rs:177-215 | an installation is refused exactly for another epoch or a boundary that has come; else its snapshot is there, the boundary is the earlier one and nothing else moves |
| RecentMeaning.AppendIs | crates/codepet-host/src/recent_conversations.rs:234-246 | rows are taken exactly by a live snapshot of the same epoch before any of them leaves the window, and stand behind the rows it has |
| RecentMeaning.PageIs | crates/codepet-host/src/recent_conversations.rs:258-321 | the answer to a page request, case by case: each refusal, not ready, or as many rows from the cursor on as were asked for or are left, with a next cursor unless nothing is left at all |
| RecentMeaning.PageLeaves | crates/codepet-host/src/recent_conversations.rs:258-290 | a page request drops a provider past its boundary and a snapshot past its lifetime, and nothing else |
| RecentMeaning.PendingIsNeeded | crates/codepet-host/src/recent_conversations.rs:221-232 | with fewer rows than are reported missing, and more to fetch, the page is still not ready |
| Mailbox.Rendezvous.Retain | services/signaling/server.py:105-108 | expiry and the removal of clients delete exactly the matching entries and keep the order of the rest |
| Mailbox.Rendezvous.Offer | services/signaling/server.py:190-202 | an offer is refused for a present key, a full mailbox or a malformed envelope, in that order and without effect; otherwise it is appended |
| Mailbox.Rendezvous.Offers | services/signaling/server.py:204-221 | the host gets its undelivered offers, oldest first and at most the limit, and exactly those are marked |
| Mailbox.Rendezvous.Answer | services/signaling/server.py:223-232 | an answer is written once |
| Mailbox.Rendezvous.IceUpdate | services/signaling/server.py:249-273 | a retry must match, the next batch is appended within the limits, a gap is refused |
| Mailbox.RunEvolves | services/signaling/server.py:190-273 | along every run an accepted offer only moves forward: batches, answer, delivery and deadline stay, and the limits of 128 batches, 128 KiB, 128 offers and 12 per client hold |
| Mailbox.HostHoldsPrefix | services/signaling/server.py:275-287 | a host that polls with the number of batches it holds, from any mailbox on, always holds a prefix of the accepted ones, as long as no cancel, new client list or expiry takes the offer away once it holds a batch |
| Mailbox.PrefixKeptIff | services/signaling/server.py:275-287 | the exact condition: let a set of ways say how an offer may go once the host holds a batch of it; over all runs from the empty mailbox the copy is always a prefix if and only if the set is empty |
| Mailbox.RemovedIff | services/signaling/server.py:168-170 | a request takes an offer from under its key exactly when it is a guard after its deadline, its cancel, or a client list without its client |
| Mailbox.PollExtends | services/signaling/server.py:275-287 | a poll from a prefix is answered with the next four batches or the rest |
| Mailbox.ReofferMixesBatches | services/signaling/server.py:244-247 | counterexample for each way: after an expiry, a cancel or a new client list and a second offer under the same attempt the held batches are not those of the offer |
| Mailbox.AcceptedBatchIsFixed | services/signaling/server.py:249-273 | a later retry of a sequence number succeeds without effect if and only if it is the accepted batch |
| Mailbox.AnswerIsFixed | services/signaling/server.py:223-242 | after an answer the client reads exactly it, and another answer is refused |
| Mailbox.NoOfferOutlivesItsMinute | services/signaling/server.py:105-108 | the first request after the deadline removes an offer, and it never comes back |
| Mailbox.DeliveredInOrderOnce | services/signaling/server.py:204-221 | along every run offers reach a host in the order of acceptance and at most once, and no older one is left waiting |
| Mailbox.RemovalsAreExact | services/signaling/server.py:168-170 | a guard removes exactly the offers past their deadline, a cancel exactly its key, a new client list exactly the offers of clients no longer on it |
| MailboxMeaning.OfferIs | services/signaling/server.py:190-202 | an offer is taken if and only if its key is free, fewer than 128 offers and 12 of its client are there, and it is sealed; it then stands behind the others with a minute to live |
| MailboxMeaning.DeliveryIs | services/signaling/server.py:204-221 | a delivery hands out the oldest waiting offers of the host in order up to the limit, and marks exactly those |
| MailboxMeaning.AnswerIs | services/signaling/server.py:223-232 | an answer is taken if and only if the offer is there, has none yet, and the answer is sealed; only that entry changes |
| MailboxMeaning.UpdateIs | services/signaling/server.py:249-273 | a batch is taken if and only if it is the next one and within the limits, an earlier one only if it is the same; only that entry changes |
| MailboxMeaning.CollectIs | services/signaling/server.py:275-287 | a poll is answered with the batches behind its place, at most four, and refused for a place that does not exist |
| RateLimit.Limiter.Admit | services/signaling/server.py:95-104 | stale windows are dropped, and a request is counted or refused against the limit of its category |
| RateLimit.RunKeeps | services/signaling/server.py:95-104 | along every trace the open window accounts for the last passes |
| RateLimit.AnyMinuteBound | services/signaling/server.py:95-104 | in any closed interval of 60 seconds fewer than twice the limit of requests of a token and category pass |
| RateLimit.RefusedOnlyWhenFull | services/signaling/server.py:95-104 | a request is refused only when the limit has passed within the last 60 seconds |
| RateLimit.BoundIsMet | services/signaling/server.py:95-104 | no smaller bound holds: a trace that passes one less than twice the limit within a minute |
| RateLimit.LimitsAre | services/signaling/server.py:99-102 | the limits are 12 for `/v1/ice`, 600 for `/v1/ice-updates` and 180 for every other route together |
| RateLimit.GuardIs | services/signaling/server.py:95-104 | a request passes unless a window of its key opened within 60 seconds is full; it is counted there or opens one, and no other open window is touched |
| Journal.EventJournal.constructor | crates/codepet-host/src/event_journal.rs:76-86 | the counter goes on from the history, the ring starts empty |
| Journal.EventJournal.Append | crates/codepet-host/src/event_journal.rs:176-197 | an event the history refused changes nothing; otherwise it is numbered and the ring trimmed, and the eviction loop ends because the byte count is exact |
| Journal.EventJournal.Query | crates/codepet-host/src/event_journal.rs:130-153 | the page of matching events behind the cursor, or the demand to reset |
| Journal.TrimmedIsLongest | crates/codepet-host/src/event_journal.rs:191-195 | no event is evicted without need |
| Journal.RunSound | crates/codepet-host/src/event_journal.rs:176-197 | the ring is a contiguous end of all events with exact byte accounting, over every run with refusals and restarts |
| Journal.ResetIff | crates/codepet-host/src/event_journal.rs:140-142 | a reset is demanded if and only if the cursor is from the future or some later event has left the memory |
| Journal.PageIsExact | crates/codepet-host/src/event_journal.rs:138-153 | a page holds exactly the matching events between the old and the new cursor, in order |
| Journal.ClientSeesEverything | crates/codepet-host/src/event_journal.rs:130-197 | a client that feeds back the cursor receives every matching event once and in order, or is told to reset |
| Journal.MatchesIs | crates/codepet-host/src/event_journal.rs:133-137 | an event matches unless a source is named that is not its own or a keyword that occurs nowhere in its text |
| Journal.AppendIs | crates/codepet-host/src/event_journal.rs:176-196 | an event gets the next number and stands last in the ring, which keeps as many of the newest events as fit into 1000 and 8 MiB |
| Journal.PageSize | crates/codepet-host/src/event_journal.rs:132-153 | a page is cut exactly when more events match than it may hold, between 1 and 200 and 100 by default, and is then full |
| Watch.WatchStore.Configure | crates/codepet-task-lineage/src/watch.rs:39-53 | a configuration is validated, gets the next revision and clears the error |
| Watch.WatchStore.SaveSettings | crates/codepet-task-lineage/src/management.rs:69-108 | settings of another revision are refused; otherwise settings and watch change together, and the watch does what the settings say, as `WatchMeaning.SaveIs` proves of `Saved` |
| Watch.WatchStore.Enqueue | crates/codepet-task-lineage/src/management.rs:348-376 | a repeated request returns its job, an active job refuses every other |
| Watch.WatchStore.RecoverJobs | crates/codepet-task-lineage/src/management.rs:377-388 | exactly the active jobs become interrupted |
| Watch.WatchStore.Tick | crates/codepet-task-lineage/src/watch.rs:54-128 | a tick spends nothing, fails, or reserves, runs and closes one job |
| Watch.TickIsARun | crates/codepet-task-lineage/src/watch.rs:54-128 | a tick is a run of the state machine with any events of others during the inference |
| WatchRuns.ListIsStep | crates/codepet-task-lineage/src/watch.rs:86-126 | the list an event of the scheduler commits does to the files what the event does to the scheduler |
| WatchRuns.Origins | crates/codepet-task-lineage/src/store.rs:112-185 | after every file operation of any process the configuration that may come to be stored was possible before, or is what the lock holder has committed or a tick without its lock has put down |
| WatchRuns.LockExcludes | crates/codepet-task-lineage/src/store.rs:17-38 | while a tick has not given up its lock nobody else writes with the lock |
| WatchRuns.RunKeeps | crates/codepet-task-lineage/src/watch.rs:54-128 | over every run, file operation by file operation, with ticks that lost their lock: whatever may be stored leaves the calls made, owed and still allowed within the budget, and no copy that has reserved is newer |
| WatchRuns.RunIsFirm | crates/codepet-task-lineage/src/watch.rs:86-126 | where handles without the lock keep to a safe rule of the store, whoever holds the lock has read what is stored, and at most one job is active |
| WatchRuns.BudgetNeverExceeded | crates/codepet-task-lineage/src/watch.rs:87-126 | from a configuration with k jobs to the next, at most k extractor calls on every run with readers, replays, deaths and lost locks at every file operation, one more only for a job already reserved before; what may be spent never rises above k |
| LostLocks.BudgetIff | crates/codepet-task-lineage/src/watch.rs:87-116 | all those runs stay within k calls if and only if no tick owed a call at that moment, or k is not zero and may not be spent anyway |
| Watch.OneMoreCall | crates/codepet-task-lineage/src/watch.rs:87-116 | counterexample for every k: the owed call, the close that follows it, and k whole ticks make k + 1 calls |
| WatchRuns.AllowanceNeverRises | crates/codepet-task-lineage/src/watch.rs:107-126 | where ticks without their lock write over checked revisions only, nothing but a configuration raises the stored allowance |
| WatchRuns.NewerConfigStays | crates/codepet-task-lineage/src/watch.rs:117-126 | a configuration newer than all copies under way stays as it is until a tick begins or the next one comes |
| WatchRuns.CloseStops | crates/codepet-task-lineage/src/watch.rs:117-126 | a failure or the last job ends all calls until the next configuration, whatever ticks without their lock still write |
| LostLocks.LiftRun | crates/codepet-task-lineage/src/watch.rs:54-128 | every run of the scheduler is carried out by a run of file operations with the same calls |
| LostLocks.LostReservation | crates/codepet-task-lineage/src/watch.rs:107-126 | counterexample, move by move: the note of a tick without its lock replaces the record of a reservation, and six calls are made where five are allowed |
| LostLocks.WriteSpoils | crates/codepet-task-lineage/src/store.rs:132-147 | counterexample: a commit without the lock over the record of another process, alive or dead, loses a configuration |
| LostLocks.FillSpoils | crates/codepet-task-lineage/src/store.rs:123-131 | counterexample: a replay without the lock that goes on after its record is gone brings an older configuration back |
| LostLocks.RemoveSpoils | crates/codepet-task-lineage/src/store.rs:123-131 | counterexample: a replay without the lock that removes the record of another process, alive or dead, loses a configuration |
| LostLocks.LostLockBreaksBudget | crates/codepet-task-lineage/src/watch.rs:117-126 | counterexample, move by move: a late write brings an old revision back, the next configuration gets the revision of the tick in progress, and that tick restores its allowance: a call where none is allowed |
| LostLocks.LostLocksIff | crates/codepet-task-lineage/src/watch.rs:107-126 | the exact condition for ticks without their lock: for every rule on what they may do to the files, the bound on calls holds over all runs if and only if they disturb no record of others, fill in files only while their own record is the pending one, and do not write over another revision than the checked one beside a tick in progress |
| LostLocks.ConfigStaysIff | crates/codepet-task-lineage/src/watch.rs:117-126 | a configuration or new settings made during the inference survive every tick under way, with its lock or without, if and only if ticks without their lock leave the records of others alone in that way and write over the checked revision only |
| Watch.SecondSaveConflicts | crates/codepet-task-lineage/src/management.rs:69-76 | of two saves from one reading the second is refused |
| WatchMeaning.SettingsShow | crates/codepet-task-lineage/src/management.rs:62-68 | the settings shown are the stored ones, automatic exactly if the stored watch is enabled and extracts |
| WatchMeaning.SaveIs | crates/codepet-task-lineage/src/management.rs:69-108 | a save is refused for each reason in order; else the settings shown are those saved, one revision on, the watch may spend if and only if they are automatic, has their model and no thread, and jobs are untouched |
| WatchMeaning.ConfigureIs | crates/codepet-task-lineage/src/watch.rs:39-53 | a configuration is taken exactly within its limits, and stored as given but for the next revision and a cleared error |
| WatchMeaning.EnqueueIs | crates/codepet-task-lineage/src/management.rs:348-376 | a new request makes one queued job exactly when no other is active; a known one with the same scope is answered with its job, for ever |
| WatchMeaning.RecoverIs | crates/codepet-task-lineage/src/management.rs:377-388 | after a recovery no job is active, those that were are interrupted and no other job differs |
| WatchMeaning.CloseIs | crates/codepet-task-lineage/src/watch.rs:117-126 | the end of a tick leaves a configuration made meanwhile alone; else its copy may go on spending if and only if the extraction went well and something is left |
| WatchMeaning.SwitchedOffStays | crates/codepet-task-lineage/src/management.rs:86-103 | after settings that are not automatic are saved no tick begins before the next configuration and at most the call already owed is made, on every run of file operations with other writers, deaths and ticks without their lock |
| WatchMeaning.ConfiguredOffStays | crates/codepet-task-lineage/src/watch.rs:39-66 | so it is after a configuration that allows nothing |
| Lanes.Visit | frontend/lib/taskLineage.ts:60-69 | the stack loop ends on every graph, also with circles, and visits exactly what is reached without passing an empty id |
| Lanes.Reachable | frontend/lib/taskLineage.ts:58-71 | the selected episode with its named ancestors and descendants |
| Lanes.ReachableIff | frontend/lib/taskLineage.ts:58-71 | the result is all ancestors and descendants if and only if the empty id is not among them, unless it is the selected one |
| Lanes.SpanOf | frontend/lib/taskLineage.ts:84-85 | the first start and the time to the last one, at least one |
| Lanes.TimeScale | frontend/lib/taskLineage.ts:89 | the time scale of a swimlane keeps the order of starts and runs from the margin to the right end |
| Lanes.EpisodePositions | frontend/lib/taskLineage.ts:80-94 | no two episodes of a lane are closer than 246, in graph mode each is 246 right of its placed parents and no further right than needed, in swimlane mode each is at its time unless its lane holds it back, and lanes have rows 155 apart |
| Lanes.TimedIs | frontend/lib/taskLineage.ts:89 | a start stands in proportion on a scale of 246 for every episode but the first and at least 492; an episode without one stands by its index |
| PerfLog.FormatPerfEvent | src-tauri/src/app/log.rs:267-284 | the printed line is the joined parts of the event, unsafe keys left out |
| PerfLog.SplitKeyValueTokens | scripts/export_perf_logs.py:152-180 | the loop yields the tokens of the state machine |
| PerfLog.ParseKeyValueMessage | scripts/export_perf_logs.py:183-190 | the dictionary of the tokens, later keys winning |
| PerfLog.ValueRoundTrip | src-tauri/src/app/log.rs:286-307 | every printed string parses back to itself, through the escapes of section 7 of RFC 8259 |
| PerfLog.ScanJoined | scripts/export_perf_logs.py:152-180 | a printed line splits into exactly its parts |
| PerfLog.PerfLogRoundTrip | src-tauri/src/app/log.rs:267-307 | parsing a printed line gives the printed keys with their values, the last of equal keys winning |
| PerfLog.EventRecovered | src-tauri/src/app/log.rs:267-307 | with distinct keys, none reserved, the line gives back the name, the error and every field, and nothing else |
| PerfLog.EventComesBack | src-tauri/src/app/log.rs:267-307 | under the same conditions, key by key: name, status or ok, duration, error and every printable field come back with their own values, and no other key |
| PerfLog.PrintedIs | src-tauri/src/app/log.rs:286-307 | a string is printed without quotes exactly when it is not empty and all its characters are safe |
| PerfLog.StatusComesBackIff | src-tauri/src/app/log.rs:267-284 | a line whose other parts print no quote gives back the status and all other parts if and only if the status is one token, ends outside quotes and parses to itself |
| PerfLog.StatusSurvivesIff | src-tauri/src/app/log.rs:267-284 | a status comes back from every line, whatever else is on it, if and only if it is such a text |
| PerfLog.OpenStatusSwallows | src-tauri/src/app/log.rs:270-271 | a status that ends inside quotes swallows every part behind it that is printed without quotes |

## Left out

- Store.Handle.WithoutWriterLock: the two lock files and the waiting time are a single outcome, lock regained or not; what handles do after a timeout is in `StoreRuns`.
- Store.CommitAtomicIff: a commit that no other process interrupts; interrupted ones are in `StoreRuns`.
- StoreRuns.HistoryIsAtomic: handles without the lock are taken to replay lists that name no key twice, as all callers of `commit` do; `StoreRuns.RepeatedKeysBreak` shows why.
- EngineOnDisk.DiskIsGood: a handle without the lock commits records of the scheduler only (an extraction that cannot get its lock back stops before its commit), and it keeps to a safe rule in the sense of `StoreRuns.RuleIsSafeIff`.
- Extraction.ExtractThread: the loop of `extract_scoped` over conversations, the selection by root and the snapshot it returns are left out; the body for one conversation is modelled.
- MessageLog.ScanThread: the loop of `scan` over discovered conversations and the adoption of parents from links are left out; the tree and the links it stores are arbitrary values in `Engine`.
- Merge.GrowTask: job identifiers, schema versions and the audit record are opaque texts.
- Batching.SelectBatch: time stamps come parsed, as an optional number of milliseconds.
- RecentFeed.Aggregate: the map of summaries is a list with distinct identities, and the sort an insertion sort.
- RecentPages.RecentSnapshots.Append: fetching the tail from a provider, its repeated cursors and its out-of-query rows are left out; the rows are a parameter.
- RecentPages.SessionReadsSnapshot: the text form of a cursor is left out; in the program a fence or nonce with a dot in it could not be decoded.
- EventBus.GatewayEventSubscription.NextEvent: a lag is reported only when a poll meets it.
- EventBus.EverythingArrivesIff: speaks of a subscription that has not ended; after a lag or the end of the bus the program reports an error and the subscriber starts again.
- TurnSends.TurnSendCache.TurnSend: the dispatch is an arbitrary answer given while the cache is locked.
- Mailbox.Rendezvous.Offers: the field checks of identifiers and of the JSON body are left out, as are the diagnostics.
- Mailbox.RunEvolves: invitations, which are write-once in the same way, are left out.
- RateLimit.Limiter.Admit: authentication and the two paths that bypass the limiter are left out.
- Journal.EventJournal.Append: the rotating files and the index of the history are one outcome, written or not; the channel in front of the writer and its overflow count are left out.
- Journal.EventJournal.Query: only the branch that follows the live events is modelled; lower-casing is a parameter of the event.
- Watch.WatchStore.Tick: the scan before it, the debounce and the choice of the ready conversation are a parameter, and so is the number of the jobs the truncated listing shows.
- Watch.WatchStore.SaveSettings: whether the skill file can be read is a parameter.
- WatchRuns.BudgetNeverExceeded: the application's own stop after a failed tick (`src-tauri/src/task_lineage.rs:420-427`), which only turns extraction off, is left out; recovered jobs are written one by one; handles without the lock replay lists that name no key twice, as in `StoreRuns`.
- WatchRuns.RunIsFirm: under a rule that is not safe for the store but harmless to the budget, a note of a tick without its lock can be lost, so nothing is said about its job there.
- LostLocks.LostLocksIff: of a handle without the lock every rule permits at least a commit of its own while the lock is free and nothing else pending.
- LostLocks.BudgetIff: handles without the lock keep to a safe rule of the store, so that no write is lost.
- Lanes.EpisodePositions: the episodes come sorted by their start.
- PerfLog.EventRecovered: arrays and objects as field values, and escapes for half a character, are left out; the line prefix is not modelled.
- Fork history (`conversation_messages`), the dirty list and the ready conversation of the lineage engine: readers without state of their own.
- Child processes, model calls, JSON, SQLite, device registration, HMAC and the signing of cursors, and everything of the user interface that only presents.
