# Verified models of the gateway's metering, restore, matching, conversion and limiting cores

These Dafny modules model the parts of the API gateway whose correctness rests on an
argument rather than on a single function: what survives a crash, what two representations
have to agree on, what concurrent callers may rely on. Each module states the properties the
code is written for and proves them for every input, every run or every interleaving.
`dafny verify dfyconfig.toml` checks all of them.

## What is modelled

**Metering.** `Usage` has call logs, `Aggregate`, the gateway's usage fold and the legacy
correction; `Metering` closes a request and prices its attempts; `RollupLaws` has the algebra
the database operations rest on and the un-booking of unverified rows; `Ledger` the
transactions, purge boundary, rebuild and the stamping loop; `LedgerRuns` what all runs of them
keep.

**Journal.** `Journal` is a step machine over memory, files, database with its upkeep, and a
crash that may come between any two steps. Lines carry their byte lengths, and all offsets are bytes.
`JournalSafety` has the invariants of all runs, `JournalStore` the store whose methods are
proved to perform exactly the machine's steps, `JournalBytes` the link from bytes to lines.
`Backup` adds the copy, the snapshot and the restored files, `BackupGaps` two runs in which
saving the boundary fails; `Restore` has the directory swap that can be cut short after any
file-system operation.

**Matching and routing.** `AhoCorasick` is the keyword automaton, `TopK` the bounded heap and
the label decision, `VectorBuild` the claim and compare-and-swap build.

**Conversion.** `Sse` is the wire, `Streams` and `StreamMeaning` the two stream converters,
`StreamRoundTrip` what going there and back keeps, `Requests` the two request converters. JSON
is typed: a value is what it decodes to.

**Limits and prices.** `Gate` is the bounded-queue gate, `RateWindow` the sixty-slot ring and
the limiter over it, `PriceImport` the price list import. `Wrappers` is shared.

Objects whose methods update fields are classes with those fields; loops that update variables
are methods with loops; each is tied by its postcondition to a specification function or a
machine step, and the theorems are about those. Randomness, clocks, failures, map iteration
order and other processes are parameters or events.

## Where the code does not do what it says

The models follow the code. In these places the property its comments promise does not hold on
all inputs; the exact condition is proved, with a concrete run or input where it fails.

- A crash between truncating a rotated journal and writing "0" to its checkpoint file
  (`internal/logstore/logstore.go:1017-1027`) leaves a checkpoint of the old generation. If the
  database stays unavailable until the new generation has grown that long, the next start
  accepts it and skips records (`JournalSafety.StaleCheckpoint`; exact, over whole runs:
  `LosesExactly`).
- A boundary that cannot be saved at a start, or put back after a failed truncation, is logged
  or ignored (`internal/logstore/logstore.go:108-110`, `:1015`). Backups then "replay the whole
  journal", which counts a record twice once its row is purged (`BackupGaps.ReplayedTwice`), or
  skip records that were never rolled up (`SkippedByBackup`). The exact condition is
  `Backup.BackupCountsOnce`'s; with all saves succeeding it always holds (`SavedIsRecorded`,
  `RecordedCountsOnce`).
- Opening looks for a newline in the last 1 MiB only. An interrupted append of a longer line
  cuts the whole journal to nothing (`OpenLoses`, `JournalBytes.OpenedSize`, `TornCopyLoses`).
- The comment at `internal/logstore/logstore.go:644-649` takes attempts to be covered by the
  request. Legacy logs need not be, and their rollup then exceeds their total
  (`Usage.UncoveredLog`; exact: `RowsConserve`, and for whole hours `ReconcileIsEmpty`).
- The rate limiter is documented as trailing 60 seconds. It counts aligned seconds, and callers
  read the clock before they take the lock (`internal/gateway/ratelimit.go:63-64`), so one may
  enter behind another that read a later time and no longer see the oldest second. With calls at
  most d seconds behind, 60 - d clock seconds and 59 - d seconds of real time are limited
  (`NeverMoreThanLimit`, `RealTime`); one second, or one millisecond, more are not
  (`BestPossible`; `OutOfOrder` is such a run under a clock that never runs back).
- The sample edit handlers decide whether the text changed from an earlier read, so two edits
  around a build can leave a vector of a text the row no longer holds (`VectorBuild.StaleEdit`;
  exact: `StepKeeps`).
- Several conversions are the identity on part of their domain only; the exact part is stated
  for images (`ImageRoundTrip`), limits (`LimitsRoundTrip`), finish reasons
  (`NormalIsIdentity`) and event data (`Sse.RoundTrip`).

## Model

| member | source | states |
|---|---|---|
| Usage.Aggregate | internal/logstore/logstore.go:589-661 | the loops over logs and attempts compute the rollup of the batch: one row per hour and dimensions, attempts on their own accounts, the remainder on the answering account |
| Usage.BookAttempts | internal/logstore/logstore.go:618-639 | the attempt loop books each attempt on its account and returns what it accounted for |
| Usage.RowsHomomorphism | internal/logstore/logstore.go:589-661 | aggregating two batches one after the other is adding their rows |
| Usage.ApplyRollup | internal/logstore/logstore.go:663-688 | the upsert loop, in any row order, leaves the row-wise sum of the stored rows and the new ones |
| Usage.RowsConserve | internal/logstore/logstore.go:589-661 | the rows of one log sum to one request, all attempts and its cached tokens; to its tokens and to its cost exactly when the log claims at least what its attempts report, componentwise |
| Usage.UncoveredLog | internal/logstore/logstore.go:644-651 | a legacy log the normaliser leaves alone whose rows sum to more tokens than it claims, so the condition above is needed |
| Usage.UsageFromAttempts | internal/gateway/handler.go:1018-1050 | the gateway's fold of attempt usage: status precedence and sums of what was counted |
| Usage.NormalizeLegacyUsage | internal/logstore/logstore.go:779-839 | the legacy correction rewrites a log only when request and attempts disagree and no tokens would be dropped |
| Usage.NormalizeLaws | internal/logstore/logstore.go:779-839 | correcting is idempotent on all logs, never lowers the tokens of a log whose total covers its parts, and what it corrects satisfies the coverage condition |
| RollupLaws.RowsPermutation | internal/logstore/logstore.go:589-661 | the rollup of a batch does not depend on the order of its logs |
| RollupLaws.RowsByHour | internal/logstore/logstore.go:706-764 | the rows of an hour are the rows of that hour's logs |
| RollupLaws.UnbookUnverified | internal/pricing/pricing.go:662-693 | taking a row back out subtracts exactly what aggregating it without its stamp books, its attempts first scaled onto the request amount when they were booked that way |
| RollupLaws.UnbookIsNeverBooked | internal/pricing/pricing.go:662-693 | un-booking a row and stamping it unverified leaves the rollup of the same logs with that row unverified from the start |
| RollupLaws.UnbookScaled | internal/pricing/pricing.go:666-680 | the same when the row was booked with its attempts scaled onto the request amount, whatever the scaling rounds to |
| RollupLaws.StampIrrelevant | internal/pricing/pricing.go:673-675 | a row stamped as USD or not at all books the same amounts |
| Ledger.Database.Commit | internal/logstore/logstore.go:519-563 | one transaction: known and repeated request ids are dropped, the rest is corrected, stored and rolled up |
| Ledger.Database.SetPurgedBefore | internal/logstore/logstore.go:204-213 | the purge boundary is stored in whole seconds and never moves back |
| Ledger.Database.Cleanup | internal/logstore/logstore.go:1045-1064 | a cleanup round persists the boundary before it deletes; deletion may stop early |
| Ledger.Database.Rebuild | internal/logstore/logstore.go:696-764 | a rebuild is refused below the boundary, otherwise deletes the range and refills it from the corrected raw logs |
| Ledger.RefillHours | internal/logstore/logstore.go:728-760 | the hour loop inserts, hour by hour, what the range aggregates to |
| Ledger.Database.StampRows | internal/pricing/pricing.go:508-540 | the loop over all rows without a stamp, in pages of 500, stamps each and takes the unsure ones out of the rollup, one after the other |
| LedgerRuns.RunKeeps | internal/logstore/logstore.go:519-764 | over every run of commits, cleanups, retention changes, rebuilds, stampings and un-bookings the rollup of each untrimmed hour is the aggregate of everything ever counted in it as stamped now, every rebuildable hour has all its logs, and a rebuild changes nothing |
| LedgerRuns.StampKeeps | internal/pricing/pricing.go:515-537 | stamping or un-booking any one row keeps that, whatever was purged, trimmed or rebuilt before |
| LedgerRuns.MigrationIsRun | internal/pricing/pricing.go:508-540 | the loop over all rows is such a run, whichever rows it is unsure of |
| LedgerRuns.MigratedOnce | internal/pricing/pricing.go:376-380 | after the loop no row lacks a stamp, so running it again changes nothing |
| LedgerRuns.BoundaryNeverMovesBack | internal/logstore/logstore.go:204-213 | over every run the purge boundary only advances |
| LedgerRuns.PurgedHoursAreClosed | internal/logstore/logstore.go:924-933 | a raw log that is gone lies in an hour no rebuild may touch |
| LedgerRuns.RebuildChangesNothing | internal/logstore/logstore.go:706-764 | in every state a run reaches a rebuild, allowed or refused, changes nothing |
| LedgerRuns.LiveRollupIsRebuilt | internal/logstore/logstore.go:519-764 | over every run and any batching the live rollup of an hour with complete logs equals what a rebuild computes |
| LedgerRuns.CountedUsageSurvives | internal/logstore/logstore.go:696-764 | no run of commits, rebuilds, un-bookings and purges loses counted usage of any hour younger than the yearly trim: its rows sum to one request per log ever counted in it and to no less than their tokens and verified cost |
| LedgerRuns.RebuildTwice | internal/logstore/logstore.go:706-764 | on any database, rebuilding twice is rebuilding once |
| LedgerRuns.Reconcile | internal/logstore/logstore.go:938-1000 | the comparison reports exactly the hours whose raw sums and rollup sums differ |
| LedgerRuns.ReconcileIsEmpty | internal/logstore/logstore.go:938-1000 | over every run an hour with complete logs reconciles exactly when all its logs satisfy the coverage condition |
| Metering.Request.PriceAttempts | internal/gateway/handler.go:903-946 | prices attempts in place: the last attempt that consumed gets the cached tokens, unknown usage makes the cost unknown, the total is the sum |
| Metering.Request.Finish | internal/gateway/handler.go:104-131 | closing a request writes the log the specification gives |
| Metering.FinishedIsCovered | internal/gateway/handler.go:104-131 | every log the gateway closes satisfies both coverage conditions, and the legacy correction leaves it alone |
| Metering.FinishedConserves | internal/gateway/handler.go:104-131 | the rollup rows of a closed request sum to its tokens, its cost, one request and all its attempts |
| JournalSafety.StepKeeps | internal/logstore/logstore.go:445-563 | every step keeps the counting, file and booking invariants, provided a committed record that is rolled up already still has its row; only the two restart steps can lose a record |
| JournalSafety.CommitIsAllFresh | internal/logstore/logstore.go:519-545 | as long as nothing that waits is rolled up already, no record of a batch is a duplicate at commit time, so exactly-once does not rest on the raw rows still being there |
| JournalSafety.UncoveredTwice | internal/logstore/logstore.go:519-545 | otherwise the proviso is needed: committing a record that is rolled up already and has lost its row rolls it up twice |
| JournalSafety.AtMostOnce | internal/logstore/logstore.go:229-563 | over every run, with a crash between any two steps or while the checkpoint file is rewritten, failed writes of the boundary, torn appends, purges, trims, rebuilds and un-bookings, no request id is rolled up twice, the rollup is the aggregate of what was rolled up, and a rebuild changes nothing |
| JournalSafety.LosesExactly | internal/logstore/logstore.go:229-281 | a run has lost no journaled record if and only if each opening and each reconciling step in it met its condition, which files, stored boundaries and when they were written show |
| JournalSafety.StaysLost | internal/logstore/logstore.go:445-563 | no later step brings a lost record back: records held in memory only are never journaled ones |
| JournalSafety.OpenLoses | internal/logstore/logstore.go:240-251 | opening loses a record exactly when the torn bytes fill the last 1 MiB and records were waiting |
| JournalSafety.ShownIs | internal/logstore/logstore.go:94-110 | the stored boundaries written since the file was last cut show exactly how far it is rolled up; a start accepts nothing behind that, and goes past it only by a boundary from before the cut |
| JournalSafety.LoadLoses | internal/logstore/logstore.go:94-110 | reconciling the two stored boundaries loses a record exactly when a line that decodes starts between what the boundaries written since the last cut show and the offset accepted |
| JournalSafety.ExactlyOnce | internal/logstore/logstore.go:229-563 | over every run whose crashes avoid the two windows, whichever writes of the boundary fail, each fully journaled record is rolled up once or still waits, once, in the file |
| JournalSafety.HarmlessIsSafe | internal/logstore/logstore.go:94-110 | such runs meet the condition at every restart |
| JournalSafety.CleanDrainIsComplete | internal/logstore/logstore.go:445-479 | over every run that met the conditions, when a drain pass comes back empty everything journaled when it read the file is rolled up exactly once |
| JournalSafety.StaleCheckpoint | internal/logstore/logstore.go:1017-1027 | a run in which a crash between truncation and the checkpoint reset makes a later start skip a journaled record |
| JournalStore.Store.OpenJournal | internal/logstore/logstore.go:229-265 | performs exactly the opening step |
| JournalStore.Store.LoadBoundary | internal/logstore/logstore.go:96-107 | performs exactly the reconciliation: the database boundary wins when ahead and on a line boundary, and is then written to the checkpoint file |
| JournalStore.Store.SaveBoundary | internal/logstore/logstore.go:108-110 | saves the accepted boundary in the database; a failure leaves the old one there and the start goes on |
| JournalStore.Store.Record | internal/logstore/logstore.go:297-339 | appends a line, or keeps the record in memory while there is room |
| JournalStore.Store.ReadBatch | internal/logstore/logstore.go:481-513 | reads up to 500 records from the checkpoint, skipping lines that do not decode |
| JournalStore.Store.CommitAt | internal/logstore/logstore.go:519-563 | stores the batch and the boundary it reaches in one step |
| JournalStore.Store.MaybeRotate | internal/logstore/logstore.go:1003-1028 | rotation is the step sequence announce, cut, reset; or announce and put back, where putting back may fail as well; or nothing |
| JournalStore.Store.Drain | internal/logstore/logstore.go:445-479 | a drain is a run of the machine; when it succeeds nothing waits in the file or in memory |
| JournalStore.Store.Cleanup | internal/logstore/logstore.go:1045-1064 | a janitor round beside the journal is exactly one upkeep step |
| JournalStore.Store.Rebuild | internal/logstore/logstore.go:696-764 | a rebuild beside the journal is exactly one upkeep step |
| JournalStore.Store.Start | internal/logstore/logstore.go:82-128 | starting up is open, reconcile, save, which may fail, and drain; when the drain succeeds nothing waits |
| JournalBytes.LastNewline | internal/backup/backup.go:231-232 | the position after the last newline is where the complete lines end, and no other position is |
| JournalBytes.CompleteLines | internal/backup/backup.go:232-256 | the backward search in 64 KiB chunks finds the length of the complete lines |
| JournalBytes.CopyFile | internal/backup/backup.go:719-741 | copying a file that is appended to meanwhile gives the file exactly as the last read saw it |
| JournalBytes.OpenedSize | internal/logstore/logstore.go:239-251 | opening cuts the file to its complete lines, or to nothing when the torn bytes fill the window |
| JournalBytes.LineBoundaryExact | internal/logstore/logstore.go:267-281 | the boundary check accepts exactly the offsets between lines |
| JournalBytes.LinesFrom | internal/logstore/logstore.go:481-513 | reading lines from an offset sees what the line model says |
| JournalBytes.AppendLine | internal/logstore/logstore.go:302-308 | a complete record appended to whole lines is one more line |
| Backup.Archive.CopyJournal | internal/backup/backup.go:108-142 | the copy is a prefix of the live lines and torn bytes, taken with the generation |
| Backup.CopiedUnderLock | internal/backup/backup.go:107-140 | the generation read when the lock is taken is still the one of the file when the copy is complete, whatever is appended and committed meanwhile |
| Backup.Archive.DeriveCheckpoint | internal/backup/backup.go:195-229 | the archived checkpoint: the boundary clamped to the copy, all of it when the generation moved, 0 without a boundary |
| Backup.TracksRun | internal/backup/backup.go:85-89 | until the snapshot the file extends the copy, or it was cut and everything in the copy is rolled up |
| Backup.SameFile | internal/backup/backup.go:224-228 | as long as the file is not cut, the boundary clamped to the copy leaves waiting exactly the copy's records that wait in the file |
| Backup.RestoredStart | internal/logstore/logstore.go:96-113 | restarting on restored files accepts the derived checkpoint, never the snapshot's own boundary |
| Backup.RestartIsSafe | internal/logstore/logstore.go:94-113 | a restart on restored files, and any run after it whose crashes avoid the two windows, meets the condition at every restart |
| Backup.BackupCountsOnce | internal/backup/backup.go:108-229 | whatever happened before the copy, between copy and snapshot and after the restart, failed writes of the boundary, purges, trims and rebuilds included, once the restored journal is drained every record complete in the copy is rolled up exactly once if and only if the derived checkpoint skips none and each replayed record that is rolled up still has its row |
| Backup.RestoredExact | internal/backup/backup.go:195-229 | for any copy and snapshot, the restored store has lost a record of the copy exactly when the derived checkpoint skips one |
| Backup.RecordedIsExact | internal/backup/backup.go:195-229 | then the derived checkpoint is how far the copy is rolled up: nothing is skipped and nothing replayed |
| Backup.RecordedCountsOnce | internal/backup/backup.go:82-87 | when the snapshot records the boundary of the running store and the copy its generation, every record of the copy is rolled up exactly once, whatever rows are purged |
| Backup.SavedIsRecorded | internal/backup/backup.go:82-87 | a run in which no saving of the boundary fails meets that condition at any copy and snapshot |
| Backup.BehindReplays | internal/backup/backup.go:88-89 | without a recorded boundary, or with one behind, the derived checkpoint skips nothing, so the restore rests on deduplication alone |
| Backup.TornCopyLoses | internal/backup/backup.go:125-137 | a restore loses a record of the copy exactly when torn bytes of the copy fill the opening window and records are left to replay |
| BackupGaps.ReplayedTwice | internal/logstore/logstore.go:108-113 | a run in which the boundary cannot be saved at a start, and a backup then counts a purged record twice |
| BackupGaps.SkippedByBackup | internal/logstore/logstore.go:1013-1017 | a run in which the journal cannot be truncated and the old boundary cannot be put back, and a backup then marks a record committed that never was |
| Restore.DataDir.Stage | internal/backup/backup.go:272-316 | a second archive is refused while one is pending; otherwise what a finished restore left is dropped and all three directories are staged, nothing live touched |
| Restore.DataDir.AsideDir | internal/backup/backup.go:499-522 | the recorded name is reused, otherwise one no directory has is recorded |
| Restore.DataDir.Swap | internal/backup/backup.go:465-484 | one directory moves aside and in; cut short anywhere it keeps the invariant |
| Restore.DataDir.ApplyPending | internal/backup/backup.go:456-495 | cut short after any number of operations it keeps the invariant and stops early only for lack of operations; finished, the staged data is live and one directory holds all the old data; incomplete data keeps the marker |
| Restore.DataDir.Starts | internal/backup/backup.go:446-495 | any number of interrupted starts and then one long enough ends with the staged data live and all old data in one directory |
| Restore.OnePlaceEach | internal/backup/backup.go:446-455 | at every point each old directory is in exactly one of live and aside, each staged one in exactly one of staging and live, and the marker outlives what is not installed |
| Restore.EndsAlike | internal/backup/backup.go:446-455 | where a restore ends is determined by what it started from but for the name of the pre-restore directory, also when nothing old was there |
| Restore.SameEnd | internal/backup/backup.go:446-495 | two sequences of starts, cut short anywhere, end alike: a resumed restore where an uninterrupted one does |
| AhoCorasick.Matcher.constructor | internal/compliance/aho.go:21-70 | builds the trie, every failure link the longest proper suffix in the trie, every output list flattened |
| AhoCorasick.Matcher.FailOf | internal/compliance/aho.go:50-61 | the failure walk ends at the longest proper suffix of the child in the trie |
| AhoCorasick.LongestStep | internal/compliance/aho.go:46-61 | in a prefix-closed set the longest suffix of a word and one more byte is found from the longest suffix of the word |
| AhoCorasick.OutputsAre | internal/compliance/aho.go:62-65 | flattened outputs are exactly the non-empty patterns a node's word ends with, longest first |
| AhoCorasick.UnqueuedIsDeeper | internal/compliance/aho.go:46-68 | breadth first, a node not yet queued is deeper than the current one, so every link a walk follows is final |
| AhoCorasick.Matcher.Match | internal/compliance/aho.go:74-101 | returns each non-empty pattern that occurs, once, ordered by where it first ends, longer patterns first at the same end, and no other |
| Sse.SSEReader.Next | internal/gateway/convert/sse.go:32-61 | the reading loop returns the next event as the line rules define it, including an event the input ends in |
| Sse.RoundTrip | internal/gateway/convert/sse.go:32-76 | what is written is read back exactly when the data is one line not ending in a carriage return |
| Sse.ReadsBack | internal/gateway/convert/sse.go:32-76 | a stream of clean events is read back event by event |
| Sse.OverTheWire | internal/gateway/convert/sse.go:32-76 | values sent as clean events arrive as sent |
| Streams.ChatStream.Convert | internal/gateway/convert/anthropic_chat.go:324-519 | the conversion loop emits what the step functions say, closing tool blocks in some order, and reports completeness |
| Streams.AlwaysWellFormed | internal/gateway/convert/anthropic_chat.go:339-519 | on every input a strict reader accepts the events; unless reading failed no block stays open; message_stop comes only after [DONE] |
| Streams.ClosedShape | internal/gateway/convert/anthropic_chat.go:382-390 | closing leaves nothing open in any order of the tool map and ends with message_stop or an error |
| StreamMeaning.MessageStream.Convert | internal/gateway/convert/chat_anthropic.go:273-433 | the reverse conversion loop, with or without folding thinking into the content |
| StreamMeaning.ThinkState.Reasoning | internal/gateway/convert/reasoning.go:37-47 | thinking goes to its own field, or opens a think tag once |
| StreamRoundTrip.ThereAndBack | internal/gateway/convert/anthropic_chat.go:324-519 | for streams whose tool id and name come with the first delta of their index, converting there and back keeps text, reasoning and each tool's id, name and arguments in order of first appearance, and is done exactly when the input was |
| StreamRoundTrip.ThereAndBackOverTheWire | internal/gateway/convert/chat_anthropic.go:273-433 | the same through the server-sent events wire between the converters |
| StreamRoundTrip.NormalIsIdentity | internal/gateway/convert/anthropic_chat.go:223-234 | the finish reasons that come back unchanged are exactly stop, length and tool_calls |
| Requests.AnthropicMessageToChat | internal/gateway/convert/anthropic_chat.go:119-194 | splits a message: tool results become tool messages in place, the rest user messages; assistant text and calls are gathered |
| Requests.AnthropicToChatMessages | internal/gateway/convert/anthropic_chat.go:31-45 | the system text first, then every message's messages; the first error wins |
| Requests.ChatToAnthropicMessages | internal/gateway/convert/chat_anthropic.go:46-110 | gathers system text and merges consecutive messages of one role |
| Requests.Turns.AppendMsg | internal/gateway/convert/chat_anthropic.go:47-63 | appends blocks to the last message when its role is the same |
| Requests.AlwaysAlternates | internal/gateway/convert/chat_anthropic.go:46-108 | every result starts with the user, alternates strictly, has no empty message and keeps all blocks in order |
| Requests.ImageRoundTrip | internal/gateway/convert/chat_anthropic.go:171-193 | the images that come back unchanged, exactly |
| Requests.FlatIsUnique | internal/gateway/convert/chat_anthropic.go:53-63 | alternating messages are determined by their blocks and roles |
| Requests.RequestRoundTrip | internal/gateway/convert/anthropic_chat.go:15-53 | on alternating conversations of non-empty text, plain images, string tool results and assistant text-then-tools, converting to chat and back is the identity, system text included |
| Requests.LimitsRoundTrip | internal/gateway/convert/chat_anthropic.go:17-43 | token limit and thinking budget come back unchanged exactly for the three budgets the efforts stand for, with room above them |
| Requests.BudgetLeavesRoom | internal/gateway/convert/chat_anthropic.go:35-43 | a thinking budget always leaves tokens for the answer |
| Gate.Lock.Enter | internal/gateway/limiter.go:103-118 | entering takes a slot, is refused by a full queue, or queues |
| Gate.Lock.Again | internal/gateway/limiter.go:120-132 | one turn of the wait loop |
| Gate.RunKeeps | internal/gateway/limiter.go:79-141 | in every interleaving the counters are the numbers of callers and the waiters awake or owed a wake-up cover every slot a waiter could take |
| Gate.NoLostWakeup | internal/gateway/limiter.go:79-141 | no slot is free with every waiter asleep and no wake-up on its way |
| Gate.LimitsHold | internal/gateway/limiter.go:103-118 | under constant limits holders and queue stay within them |
| Gate.SettlesServed | internal/gateway/limiter.go:120-141 | the wake-ups owed are finitely many, and when they are spent exactly as many waiters as fit hold a slot |
| TopK.Heap.Up | internal/routing/routing.go:294-303 | sifting up restores the heap and keeps its contents |
| TopK.Heap.Down | internal/routing/routing.go:304-319 | sifting down restores the heap and keeps its contents |
| TopK.Select | internal/routing/routing.go:320-331 | the bounded heap keeps K samples none of the others beats |
| TopK.KeptIsPrefix | internal/routing/routing.go:320-333 | the kept samples, sorted, are the first K of the full order by score and id |
| TopK.OrderDoesNotMatter | internal/routing/routing.go:282-333 | indexes with the same samples in any order give the same list |
| TopK.SecondScore | internal/routing/routing.go:355-367 | the runner-up is read off the label maxima in whatever order the map is walked |
| TopK.ClassifyByVector | internal/routing/routing.go:271-374 | the whole decision, against the first K of the full order |
| TopK.DecisionIs | internal/routing/routing.go:342-373 | the confidence is the best score, and the label gives way to simple exactly when another label scores within the gap |
| RateWindow.Window.Slot | internal/gateway/ratelimit.go:26-34 | the slot of the current second is emptied when stale |
| RateWindow.Window.Sums | internal/gateway/ratelimit.go:36-45 | sums the slots of the last minute |
| RateWindow.SumIsTotal | internal/gateway/ratelimit.go:36-45 | a call holding the latest time sums up exactly what the log holds for its second and the 59 before; one that is behind sums up at least the 60 seconds up to the latest and at most all from its own minute on |
| RateWindow.RateLimiter.Admit | internal/gateway/ratelimit.go:59-76 | refuses over either limit, counts a request otherwise, and changes one subject only |
| RateWindow.RateLimiter.AddTokens | internal/gateway/ratelimit.go:79-88 | books tokens on the subject's current second |
| RateWindow.RateLimiter.Prune | internal/gateway/ratelimit.go:91-100 | drops subjects idle for ten minutes |
| RateWindow.InvStep | internal/gateway/ratelimit.go:26-100 | every call keeps rings and logs in agreement, pruning included, in any order of the times read before the lock as long as none is a minute behind |
| RateWindow.NeverMoreThanLimit | internal/gateway/ratelimit.go:56-76 | under a constant limit, with calls at most d seconds behind one another, no 60 - d consecutive clock seconds hold more admissions than it allows |
| RateWindow.RealTime | internal/gateway/ratelimit.go:8-11 | with such calls any 59 - d seconds of real time hold at most the limit |
| RateWindow.BestPossible | internal/gateway/ratelimit.go:26-76 | for every limit and every d up to a minute a run in which one second more, or one millisecond more of real time, holds one admission too many |
| RateWindow.OutOfOrder | internal/gateway/ratelimit.go:63-74 | a run under a clock that never runs back in which two callers take the lock in the other order than they read it, and 60 consecutive seconds hold three admissions under a limit of two |
| VectorBuild.AlwaysFits | internal/routing/routing.go:541-556 | over any interleaving of builds, one-step edits, creations and deletions a stored vector embeds the current text |
| VectorBuild.StepKeeps | internal/api/route.go:166-174 | an edit keeps that exactly when it sees the text change, or does not change it, or finds no vector; one-step edits always do |
| VectorBuild.StaleEdit | internal/api/route.go:139-174 | the edit handler reads first and writes later, and a run shows a vector left behind for a text the row no longer holds |
| VectorBuild.LaterClaimWins | internal/routing/routing.go:467-473 | once a row is claimed no earlier build writes it again |
| VectorBuild.Samples.WriteBatch | internal/routing/routing.go:540-560 | writes back row by row and counts exactly the vectors that landed |
| VectorBuild.Samples.BuildVectors | internal/routing/routing.go:463-564 | on every way out built and failed add up to the rows claimed, built counts the vectors that landed, and vectors keep fitting their texts |
| VectorBuild.BuildKeeps | internal/compliance/compliance.go:395-496 | the same protocol in the audit samples: a build with others running keeps every vector fitting its text |
| PriceImport.IndexPrices | internal/pricing/import.go:374-393 | the scan keeps the preferred row per key and lists the others |
| PriceImport.IndexIsBest | internal/pricing/import.go:354-371 | the row that survives beats every other of its key |
| PriceImport.ScanOrderDoesNotMatter | internal/pricing/import.go:374-393 | the same rows survive in any scan order |
| PriceImport.LosersAre | internal/pricing/import.go:374-393 | the duplicates listed are exactly the rows that do not survive |
| PriceImport.PlanImport | internal/pricing/import.go:405-460 | new, updated, same and kept add up to the catalog, duplicates to the rows beyond one per key |
| PriceImport.PriceTable.Apply | internal/pricing/import.go:484-528 | plans again inside the transaction, deletes the losers, writes the catalog row by row, and reports that plan |
| PriceImport.ApplyWritesThePlan | internal/pricing/import.go:484-528 | for a catalog of distinct keys every entry has the outcome planned, other keys keep their row, and planning again finds nothing new, nothing to update and no duplicates |

## Left out

- Power loss and fsync, checkpoint-file writes that fail while the process lives on, a failed truncation after a short write, a failed seek after a truncation, and database read errors at start: crashes are of the process, on one instance. A crash while the checkpoint file is rewritten leaves it empty; a partly written number is not modelled.
- Backup.CopiedUnderLock: the file is taken to grow only while it is copied; a short write that is cut back at that moment is not modelled.
- Restore.DataDir.ApplyPending: a failing rename is taken to end the run like a crash, and the checksums and validation of the archive are not modelled.
- Ledger.Database.StampRows: which rows are unsure is a parameter; conversions of amounts and of the rollup by an exchange rate, which other rows of a database from 1.0.12 undergo, and the repair pass for rows an earlier version stamped without un-booking are not modelled.
- Ledger.Database.Commit: the optional cost fixer that runs on unstamped journal records before a commit is not modelled.
- Usage.NormalizeLegacyUsage: attempt records that do not decode are one case of their own; JSON itself is not modelled.
- Hours are whole hours of time since the epoch and retention days are 24 hours long; calendar days with clock changes and 64-bit overflow are not modelled.
- Streaming usage numbers: the two directions do not agree on cached tokens, so only content, order and completeness are stated for streams; generated message ids, model names and the assistant role of the first chunk carry no property.
- StreamRoundTrip.ThereAndBack: stated with thinking left in its own field; folding into think tags is in the converter but its output is not read back.
- Requests.RequestRoundTrip: tools, tool choice, sampling parameters, stop sequences and streaming flags are passed through or mapped one by one and are left out; document blocks and thinking are dropped by the source.
- The other protocol converters (Gemini, Responses) and the response (non-streaming) converters.
- Gate.RunKeeps: wake-ups by a cancelled request context are not made under the lock and are not modelled; timeouts are. The byte budget beside the gate is not modelled.
- TopK.ClassifyByVector: similarity scores are real numbers, so rounding and NaN are not modelled; the rounded scores and truncated texts of the diagnostics are left out.
- AhoCorasick.Matcher.Match: node numbers are unbounded where the source has 32 bits.
- VectorBuild.Samples.BuildVectors: text hashes are taken to be injective, build tokens to be fresh numbers in order of the claims; reloading the index afterwards is left out.
- PriceImport.PlanImport: the capped preview list of changes and the parsing and validation of catalogs are left out; currencies and keys are taken in canonical case.
- HTTP handlers, the Elasticsearch sink, encryption, sessions, provider tables, metrics output and the web interface: plumbing over libraries that are not modelled.
