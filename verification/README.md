# kube-foundationdb in Dafny

A model of the FoundationDB driver under `pkg/drivers/fdb` and of the reference etcd under `test/robustness/model`, with
proofs about them. The driver is a multi-version store. It keeps one history in three redundant forms (a log by revision,
an index by key and revision, chunked current values) and answers guarded writes, pinned reads, watches, counts, lease
expiry and compaction from them. What is proved is that these forms stay in agreement, and that the answers are right,
over every interleaving of writers, retried and split transactions, background loops and compaction.

`dafny verify dfyconfig.toml` checks the whole project.

## How it is modelled

The database contents a transaction sees are a value (`Store.Db`), and a committed transaction is a function from one such
value to the next. `World` adds everything ever committed. Its actions are committed attempts of writes, movements of the
read version, keys whose values predate the current-value rows, and the batches of any number of compaction runs. A theorem
about all runs is an induction over sequences of these actions. Operations of the driver that take several transactions
(a client call with its retries, List, Count, Watch, the poll loop, Compact, the TTL loop, reading the log back) are methods
over a plan: a sequence that says what other actors do before each attempt, where the attempt is split by time, and whether
it fails or its commit is left in doubt. The contracts hold for every plan. Objects that the driver updates in place are
classes with the same fields.

| file | part of the system |
|---|---|
| `Types.dfy` | bytes, keys, revisions, and the orders they are scanned in |
| `TupleRange.dfy` | the tuple encoding of keys and the byte ranges of List and Count |
| `Chunks.dfy` | the current-value subspace: values in chunks, replaced in place |
| `RevisionLog.dfy` | the log by revision as rows, and its decoder |
| `Store.dfy` | the contents, the decision of each guarded write, and what compaction does to one record |
| `World.dfy` | the machine over all actors, and the store invariant |
| `Writes.dfy` | Create, Update, Delete with retries after commits in doubt |
| `Compaction.dfy` | the effect of compaction on readers, the watermark, the compactor |
| `Interference.dfy` | retried writes among compactions that begin above the read version |
| `Reads.dfy` | a split scan of the index against the snapshot it must return; values by the fast and the slow path |
| `Collectors.dfy` | the collectors, the batch loop and all it can meet with, List, Count, Get |
| `SplitReads.dfy` | what a compaction between the batches of a scan costs |
| `Polling.dfy` | readers of the log and the poll loop |
| `Handover.dfy` | Watch: subscription, initial read, hand-over to the broadcasts |
| `Counts.dfy` | the count tracker beside the poll loop |
| `Ttl.dfy` | lease expiry |
| `EtcdModel.dfy` | the reference etcd: transactions guarded by revisions |
| `Replay.dfy`, `Wal.dfy` | the log read back, turned into requests and replayed through the reference |

What is taken for granted: transactions are strictly serializable; each write gets a revision above every read version
handed out before it; a commit in doubt has happened or not by the time of the retry; UUIDs are fresh; the broadcaster
delivers every batch after subscription, in order; keys contain no zero byte (`TupleRange.PrefixClearIff` says exactly
what goes wrong otherwise). Revision 0 stands for the dummy versionstamp. Revisions, sizes and times are unbounded integers.

## What the code does not promise

Where a natural stronger statement is false of the code, the model keeps the code's behaviour, gives a run in which the
statement fails, and proves when it holds.

- A compaction to an end above the read version, split in two, can remove the tombstone of a key that was deleted in
  between and bring the key back. `Compaction.CompactionSafeIff` gives the exact condition on the end revision.
- Such a compaction also undoes the guard of a retried write. A Delete with a revision whose commit is in doubt appends a
  second tombstone after its first was removed, with no other writer at work; an Update does so after another client's
  delete (`Interference.DeleteTwiceFrom`, `UpdateTwiceFrom`). `GuardedOnceIff`: every guarded call is at most once beside
  Compact(E), whatever else interferes, if and only if E is safe. `NoWriteIsOnce`: with no condition on compaction no
  write is. `Writes.AtMostOnce`, `AtMostOnceIff` and `OnceUnlessUndone` are therefore about runs in which every
  compaction begins at a safe end (`TameCall`); `Writes.CallIsOwn` says what holds of a call without that condition.
- Repeating a compaction batch after a lost reply, or compacting again, can lower the watermark, and a pinned read that
  the lower watermark admits finds nothing (`WatermarkFallsIff`, `RepetitionLowersMark`). One compaction already loses
  reads pinned at its own watermark (`PinnedReadLost`); `CompactionView` is the exact effect.
- Create, and Delete without a revision, can append twice if another writer undoes the first append before the retry
  (`CreateCanAppendTwice`, `DeleteCanAppendTwice`), and, while compactions begin safely, only then (`OnceUnlessUndone`;
  for Create on every run, `CreateOnceUnlessDeleted`). `Writes.AtMostOnceIff` says exactly which calls are at most once
  beside safe compactions.
- A limited List can return one record more than asked for: the first row behind the last key asked for, exactly if that
  row is visible and no tombstone (`Reads.Answered`). So it can be the old record of a key that was updated or even
  deleted since (`ExtraIsWinnerIff`, `ExtraCanBeStale`), and it can carry the value of a later revision; `ExtraValueIff`
  says exactly when.
- A lease that is renewed while the handler deletes the expired entry can be forgotten: the handler drops the renewed
  entry (`Ttl.RenewalDroppedIff`, `RenewalDropped`), and nothing expires the key then.
- The poll loop makes no watermark check, so a compaction past its cursor makes it skip records silently, safe or not
  (`Polling.CompactionLoses`). `Polling.Poll`, `Handover.Watch` and `Counts.CountAfter` say exactly what is then missing.
- A compaction between the batches of a List or Count can make a key that is live all the time go missing from the answer
  (`SplitReads.AnyKeyCanGoMissing`), or make the list fail. `Collectors.ReadIsAnswered` says what the answer is, and
  `SplitReads.ListIsSnapshotIff` when it is the snapshot.
- A count installed after the poll has passed the scan can be wrong from then on. `Counts.TrackedIsRightIff` is the exact
  condition and `LateSeedLosesEvents` an instance.
- With a start key that sorts before the prefix the range also takes in keys without the prefix (`CoversPrefixIff`).
- The comment at `pkg/drivers/fdb/fdb_read.go:92-93` says that seeding is exact even if the poll lags the scan. That is so.
  It is not exact if the poll is ahead of the scan, which the code allows.
- `Replace` trusts the previous size it is given (`UnderstatedSizeLeavesTail`); the store invariant shows that every writer
  passes the right one.
- The bound that the second batch of a watch's initial read puts on its revisions is gone again in the third batch. The
  events are contiguous all the same, and `Handover.Watch` is proved with the bound as the code has it.

## Model

| member | source | states |
|---|---|---|
| `TupleRange.RowOrder` | pkg/drivers/fdb/fdb_read.go:416-448 | packed index rows of zero-free keys sort by key and then by versionstamp |
| `TupleRange.SelectedCovers` | pkg/drivers/fdb/fdb_read.go:416-448 | the byte range exists unless a start key is given without a prefix search, and it holds a row exactly if `Covers` holds of the row's key, for every key and stamp |
| `TupleRange.SingleKeyRange` | pkg/drivers/fdb/fdb_read.go:444-447 | the range of a key that is not a prefix search holds the rows of that key and of no other |
| `TupleRange.CoversWhatMatches` | pkg/drivers/fdb/fdb_watch.go:126-128 | for startKey = prefix, List's range and the watchers' predicate agree on every key |
| `TupleRange.CoversPrefixIff` | pkg/drivers/fdb/fdb_read.go:417-441 | for another start key the range is the keys with the prefix after it if and only if it does not sort before the prefix |
| `TupleRange.PrefixClearIff` | pkg/drivers/fdb/fdb_subspace_by_key_data.go:66-73 | a prefix clear hits another key exactly if that key continues this one with a zero byte |
| `Chunks.ReplaceIsExact` | pkg/drivers/fdb/fdb_subspace_by_key_data.go:36-60 | from the chunks of a value of the given size, from none, or with the size unknown, Replace leaves exactly the chunks of the new value, no stale tail, and no other key changed |
| `Chunks.UnderstatedSizeLeavesTail` | pkg/drivers/fdb/fdb_subspace_by_key_data.go:47-54 | with too small a previous size and no trim, the result is exact if and only if the old value had no more chunks |
| `Chunks.JoinRoundTrip` | pkg/drivers/fdb/fdb_subspace_by_key_data.go:55-58 | joining a key's chunks in offset order gives the value back, for values of any length |
| `Chunks.CurrentSubspace.Replace` | pkg/drivers/fdb/fdb_subspace_by_key_data.go:42-60 | the loop over chunks leaves the rows `Replaced` describes, about which ReplaceIsExact is proved |
| `Chunks.CurrentSubspace.Clear` | pkg/drivers/fdb/fdb_subspace_by_key_data.go:66-73 | afterwards the key holds no value at all, as `Holds` says of the empty value, and the rows of every other key are what they were |
| `RevisionLog.ReadIsEncoding` | pkg/drivers/fdb/fdb_watch.go:362-374 | a range read resumed after (rev, MaxInt64) is the concatenated encoding of exactly the later records, so it starts on a head |
| `RevisionLog.ByRevisionSubspace.WriteBlob` | pkg/drivers/fdb/fdb_subspace_by_revision.go:153-168 | adds exactly the chunk rows of the value under the revision and leaves the others alone |
| `RevisionLog.ByRevisionSubspace.Write` | pkg/drivers/fdb/fdb_subspace_by_revision.go:59-72 | the rows still represent the log, now with the record added |
| `RevisionLog.ByRevisionSubspace.Delete` | pkg/drivers/fdb/fdb_subspace_by_revision.go:103-110 | the rows still represent the log, now without the record |
| `RevisionLog.ParseKV` | pkg/drivers/fdb/fdb_subspace_by_revision.go:74-89 | its precondition is the negation of the panic; every call in the project meets it |
| `RevisionLog.GetBlob` | pkg/drivers/fdb/fdb_subspace_by_revision.go:141-151 | fills the buffer with the value from its chunks and consumes no row beyond them; stops early only when the read ends |
| `RevisionLog.GetFromIterator` | pkg/drivers/fdb/fdb_subspace_by_revision.go:121-139 | decodes the next record and leaves the iterator on the next head; a record cut off by the end of the read still decodes to its key and metadata |
| `RevisionLog.ReadAfter` | pkg/drivers/fdb/fdb_subspace_by_revision.go:121-192 | write any records, read from any resume key: exactly the later records come back, in order, with full values |
| `RevisionLog.CompactRead` | pkg/drivers/fdb/fdb_compact.go:72-73 | compaction's range ends after the head of its last record, so all heads are read and only that record's value is cut |
| `Store.GetLast` | pkg/drivers/fdb/fdb_read.go:62-74 | the newest index entry of the key, or none exactly if the key has no entry |
| `World.LastIsNewest` | pkg/drivers/fdb/fdb_read.go:62-74 | the index's newest entry is the newest record ever committed for the key; if there is none, the key is not live |
| `World.DecideFits` | pkg/drivers/fdb/fdb_write.go:79-108 | a record whose guard holds continues the history of its key: previous revision, create revision, sizes, tombstone contents |
| `World.WriteReplaces` | pkg/drivers/fdb/fdb_write.go:284-295 | the previous size each writer passes is what the key's rows hold, so the current value is replaced exactly |
| `World.WriteKeepsInv` | pkg/drivers/fdb/fdb_write.go:269-302 | a write attempt keeps the store invariant and every running compaction safe |
| `World.LastNeverMissing` | pkg/drivers/fdb/fdb_compact.go:36-41 | a record in the log has a newest index entry, so compaction's lookup is never nil |
| `World.BatchKeepsInv` | pkg/drivers/fdb/fdb_compact.go:27-59 | a compaction batch of any run, repeated or not, keeps the invariant |
| `World.RunsKeepInv` | pkg/drivers/fdb/fdb_write.go:66-302 | over every run of writes and compaction batches in which every compaction begins at a safe end: index and log agree, each key keeps a linked suffix of its history that includes a live newest record, create and update and delete come where they may, current-value rows are exact |
| `World.RunsKeepSound` | pkg/drivers/fdb/fdb_write.go:66-302 | over every run whatever, unsafe compactions included: index and log agree with each other and with what was committed, UUIDs are unique, and history is only ever extended |
| `World.IncarnationIsConstant` | pkg/drivers/fdb/fdb_write.go:168-177 | the create revision is the same throughout an incarnation and names its create record |
| `Writes.PutIffGuard` | pkg/drivers/fdb/fdb_write.go:95-108 | an attempt appends only if its guard holds, and fails to only if it does not or recognises its own earlier create |
| `Writes.CallIsOwn` | pkg/drivers/fdb/fdb_write.go:66-264 | every call, whatever interferes: each record it appends is new, is the one asked for and follows the guarded revision; a true result names one of its own records, and its key-value has that record's key, value, lease and create revision; the lookup of a record never fails |
| `Writes.AtMostOnce` | pkg/drivers/fdb/fdb_write.go:127-264 | Update, and Delete with a revision, append at most one record over any attempts, commits in doubt and interfering writers, while compactions begin at safe ends; a true result means exactly one, and the reply is that record, field by field |
| `Writes.RetryTransparent` | pkg/drivers/fdb/fdb_write.go:41-64 | if the guard held at first and no other step, compaction included, changes the key's newest record, an answered call has appended exactly one record and answers with its revision and key-value, whichever attempt committed |
| `Writes.OutlinedIsBorn` | pkg/drivers/fdb/util.go:13-35 | the create revision of a key-value is that of a create of its key at or before its revision, with no tombstone and no other create in between |
| `Writes.CallDeclines` | pkg/drivers/fdb/fdb_write.go:133-164 | a call that is turned down is told the read version and, exactly if the key is live, its newest record field by field, which is then not the one the call was guarded by; KeyExists only for a Create of a live key; a call one of whose attempts goes through is answered |
| `Writes.CreateVerdict` | pkg/drivers/fdb/fdb_write.go:95-108 | a Create that is answered succeeds exactly if the newest record of the key is then its own, and fails with KeyExists exactly if that is live and not its own |
| `Writes.CallCloses` | pkg/drivers/fdb/fdb_write.go:127-264 | once a guarded write is answered, yes or no, the revision it was guarded by is not the live newest record of its key |
| `Writes.CallAlone` | pkg/drivers/fdb/fdb_write.go:127-264 | with nobody else at work a guarded write appends its record, and nothing else, exactly if the revision it is guarded by is the live newest record of its key |
| `Writes.AttemptJudged` | pkg/drivers/fdb/fdb_write.go:74-258 | one attempt over the history: it appends exactly if its guard holds there and its commit goes through; the answer is that record, or an earlier attempt's if that is the newest of the key, or that it is turned down; only KeyExists is answered without a commit |
| `Writes.CreateCanAppendTwice` | pkg/drivers/fdb/fdb_write.go:95-108 | from every state where a Create succeeds there is a run in which it appends twice |
| `Writes.DeleteCanAppendTwice` | pkg/drivers/fdb/fdb_write.go:233-257 | the same for a Delete without a revision |
| `Writes.AtMostOnceIff` | pkg/drivers/fdb/fdb_write.go:66-264 | over all plans whose compactions begin safely, a call appends at most once if and only if it is an Update, a Delete with a revision, or refused for its size; for every other call there is in every state such a plan that appends twice |
| `Writes.OnceUnlessUndone` | pkg/drivers/fdb/fdb_write.go:66-125 | without an opposite write by someone else, and while compactions begin safely, they append at most once too |
| `Writes.CreateOnceUnlessDeleted` | pkg/drivers/fdb/fdb_write.go:66-125 | a Create needs no condition on compaction for that: without a delete of the key by someone else it appends at most once on every run |
| `Writes.AppendsOnlyMine` | pkg/drivers/fdb/fdb_util.go:170-197 | with nobody else at work, a call adds to the history only what it lists as its own |
| `Writes.Backend.AppendRecord` | pkg/drivers/fdb/fdb_write.go:269-302 | a committed append of a record that continues its key leaves the three forms in agreement: it is the log's record at the new revision, the index's newest entry under a UUID no record had, and its value (nothing for a tombstone) is what the rows hold; otherwise only the UUID is used up |
| `Writes.Backend.CreateAttempt` | pkg/drivers/fdb/fdb_write.go:74-116 | one attempt of Create is the step `Attempted` describes, and over the history it does what AttemptJudged says |
| `Writes.Backend.UpdateAttempt` | pkg/drivers/fdb/fdb_write.go:133-185 | the same for Update: it appends exactly if its revision is the live newest of the key; otherwise it answers with the record of its own earlier attempt, or with the read version and the live newest record, or none |
| `Writes.Backend.DeleteAttempt` | pkg/drivers/fdb/fdb_write.go:195-258 | the same for Delete |
| `Writes.Backend.Transact` | pkg/drivers/fdb/fdb_util.go:108-197 | the retry loop, carrying the last UUID over, has the outcome of `Call`, about which the theorems above are proved; turned down, it tells the key's live newest record at the final read version |
| `Interference.DeleteTwiceFrom` | pkg/drivers/fdb/fdb_compact.go:36-47 | beside a compaction whose end is above the read version, and with no other writer, a Delete with or without a revision appends twice and answers true, from every state in which it has something to delete |
| `Interference.UpdateTwiceFrom` | pkg/drivers/fdb/fdb_write.go:127-185 | the same for an Update, with another client's delete in between |
| `Interference.GuardedOnceIff` | pkg/drivers/fdb/fdb_write.go:127-264 | every guarded call beside Compact(E) appends at most once, whatever writers and safe compactions interfere, if and only if E is safe |
| `Interference.NoWriteIsOnce` | pkg/drivers/fdb/fdb_util.go:108-197 | with no condition on compaction a write whose guard holds is at most once over all plans if and only if it is refused for its size |
| `Compaction.CompactedLog` | pkg/drivers/fdb/fdb_compact.go:36-47 | Compact(E) for any E, in batches of any sizes, any of them repeated, keeps a record exactly if it is above E or is the live newest record of its key, once nothing is pending |
| `Compaction.CompactionView` | pkg/drivers/fdb/fdb_compact.go:27-49 | after it, for any E, a read of k at R is unchanged if k's newest record is at or below R or the record answered from is above E, and otherwise finds nothing |
| `Compaction.FinishedRun` | pkg/drivers/fdb/fdb_compact.go:27-49 | whatever interleaved with it, a finished run leaves at most one record per key up to its end, and no tombstone |
| `Compaction.LatestViewIsFull` | pkg/drivers/fdb/fdb_read.go:320-352 | in every reachable state a latest read shows what the full history would |
| `Compaction.BatchKeepsLatest` | pkg/drivers/fdb/fdb_compact.go:27-49 | no batch changes a latest read, the current values or the read version |
| `Compaction.BatchWatermark` | pkg/drivers/fdb/fdb_compact.go:51-59 | in any state whatever, a batch that scans anything writes a watermark above its cursor and removes nothing above it |
| `Compaction.WatermarkCoversRun` | pkg/drivers/fdb/fdb_compact.go:23-59 | over any run, unsafe compactions included, in which the batches are those of one compaction and none is repeated, the watermarks strictly increase and bound everything removed so far |
| `Compaction.WatermarkFallsIff` | pkg/drivers/fdb/fdb_compact.go:51-54 | a batch, first or repeated, lowers the watermark exactly if it scans something and at least as many pending records lie below the watermark as it scans |
| `Compaction.RepetitionLowersMark` | pkg/drivers/fdb/fdb_compact.go:51-54 | a run in which a batch repeated after a lost reply lowers it, one in which a second compaction does, and a read that is then admitted has lost its key |
| `Compaction.PinnedReadLost` | pkg/drivers/fdb/fdb_compact.go:36-46 | every key updated after the end revision is lost to reads pinned at it, in whatever batches the compaction ran, and the watermark admits those reads |
| `Compaction.CompactionSafeIff` | pkg/drivers/fdb/fdb_compact.go:68-79 | the store invariant survives every interleaving with Compact(E) if and only if E does not pass the read version, or passes it by one while nothing is live |
| `Compaction.CompactProcessor.Next` | pkg/drivers/fdb/fdb_compact.go:27-49 | takes the next record in revision order and removes it from both indices exactly if it is superseded or a tombstone |
| `Compaction.CompactProcessor.EndBatch` | pkg/drivers/fdb/fdb_compact.go:51-59 | writes the watermark exactly if something was scanned |
| `Compaction.CompactProcessor.ProcessBatch` | pkg/drivers/fdb/fdb_util.go:73-103 | one batch, split by time anywhere, is the machine's batch; it ends the scan only with nothing pending |
| `Compaction.RunCompact` | pkg/drivers/fdb/fdb_compact.go:68-81 | Compact among other actors is a run of the machine that ends with nothing pending; with no other actor the log is then exactly that of CompactedLog, for any end and however the plan splits and repeats the batches; in sequential-id mode it does nothing |
| `Reads.StepKeeps` | pkg/drivers/fdb/fdb_read.go:320-352 | one row keeps the scan invariant: what was emitted is exactly the snapshot of the keys passed, the candidate is the visible newest of the open key, its latest flag is truthful |
| `Reads.ScanRowsKeeps` | pkg/drivers/fdb/fdb_util.go:84-96 | so does a batch, wherever it is split or stopped by the limit |
| `Reads.BatchKeeps` | pkg/drivers/fdb/fdb_read.go:314-394 | a batch in a later state of the store, retried or not and whatever was removed beyond the scan, takes a read underway to one underway, or to its answer, with the right values if they are found at all |
| `Reads.FastEqualsSlow` | pkg/drivers/fdb/fdb_read.go:191-232 | for a record with a truthful latest flag the value List attaches is the one the log stores at its revision, with current-value rows, without, or after the key moved on |
| `Reads.ExtraIsWinnerIff` | pkg/drivers/fdb/fdb_read.go:354-359 | the extra record of a limited list is in the snapshot exactly if it is the only visible record of its key |
| `Reads.ExtraValueIff` | pkg/drivers/fdb/fdb_read.go:224-318 | it carries the value stored at its revision, except exactly if its key's newest record is live with a value of the same nonzero length and other bytes, and the rows hold that: then it carries that value |
| `Reads.ExtraCanBeStale` | pkg/drivers/fdb/fdb_read.go:329-358 | a store in which it was superseded by an update, and carries the value of the later revision, and one in which its key was deleted |
| `Collectors.GatherIsAssembled` | pkg/drivers/fdb/fdb_subspace_by_key_data.go:91-103 | a range read from the first to the last key gathers exactly the rows of each key in between |
| `Collectors.MergeJoin` | pkg/drivers/fdb/fdb_read.go:191-220 | one pass over records and chunks, both in key order, gives every latest record all bytes of its key and nothing else |
| `Collectors.ListCollector.Next` | pkg/drivers/fdb/fdb_read.go:165-172 | adds the record to the batch and says whether the limit is reached |
| `Collectors.ListCollector.FetchLegacy` | pkg/drivers/fdb/fdb_read.go:239-262 | replaces exactly the given records by the log's, 256 at a time, and fails exactly if one is missing |
| `Collectors.ListCollector.Attach` | pkg/drivers/fdb/fdb_read.go:222-232 | keeps each joined value of the right length and names exactly the records that must be read from the log |
| `Collectors.ListCollector.EndBatch` | pkg/drivers/fdb/fdb_read.go:179-234 | every record of the batch gets the value `FetchValue` describes; fails exactly if one has none |
| `Collectors.RecordCollector.Next` | pkg/drivers/fdb/fdb_read.go:320-352 | one row: emits the closed key's live candidate, moves the candidate, clears the flag of one that is superseded outside the window, also through the alias kept from the last batch |
| `Collectors.RecordCollector.EndBatch` | pkg/drivers/fdb/fdb_read.go:354-385 | the last batch emits its live candidate; values are attached; the error is that of a missing record exactly if a value cannot be found, and otherwise ErrCompacted exactly if the pinned revision is below the watermark |
| `Collectors.RecordCollector.PostBatch` | pkg/drivers/fdb/fdb_read.go:387-394 | the batch joins the result; the first read version is kept as the bound of later batches |
| `Collectors.ScanBatch` | pkg/drivers/fdb/fdb_util.go:83-96 | the loop over rows ends where `ScanRows` says, with what it says was emitted; it clears the flag of the candidate carried over exactly if the first row hides it |
| `Collectors.ProcessBatch` | pkg/drivers/fdb/fdb_util.go:53-106 | an attempt is the step `Tried` describes: a completed one advances the read by one batch or fails; a broken or doubtful one leaves it as it was, up to a flag |
| `Collectors.ProcessRange` | pkg/drivers/fdb/fdb_util.go:36-51 | whatever writers and safe compactions interleave, the scan ends in the state `ReadAll` describes, about which ReadIsAnswered is proved |
| `Collectors.ReadIsAnswered` | pkg/drivers/fdb/fdb_read.go:314-394 | for every plan, compaction between batches included, a scan that ends without an error has answered from the state of its first completed batch less exactly the rows removed before it got there |
| `Collectors.UndisturbedRead` | pkg/drivers/fdb/fdb_util.go:36-106 | without compaction nothing is lost and no record is missing: the answer is the snapshot of the first completed batch, refused exactly below the watermark |
| `Collectors.FailsIfRemoved` | pkg/drivers/fdb/fdb_read.go:239-262 | a list fails for want of a record only if a selected record with a value has been removed after it was read |
| `Collectors.CountFindsAll` | pkg/drivers/fdb/fdb_read.go:86-96 | a count never fails so |
| `SplitReads.HarmlessIff` | pkg/drivers/fdb/fdb_read.go:320-359 | losing rows leaves the snapshot as it was exactly if, of every selected key whose newest visible record is lost, that is a tombstone and nothing live is left in its place |
| `SplitReads.ListIsSnapshotIff` | pkg/drivers/fdb/fdb_read.go:125-137 | so an unlimited list that is not refused is the snapshot of its first completed batch under exactly that condition |
| `SplitReads.AnyKeyCanGoMissing` | pkg/drivers/fdb/fdb_compact.go:36-46 | from every state, every live key the scan has not reached can be lost to it by an update and a compaction that is safe, though the key stays live |
| `Collectors.ListWithCollector` | pkg/drivers/fdb/fdb_read.go:400-464 | refused exactly for a bad range, a compacted revision, a record removed under way or a future revision; otherwise the answer of ReadIsAnswered |
| `Collectors.List` | pkg/drivers/fdb/fdb_read.go:125-137 | of what is left of the state of the first completed batch: unlimited, exactly the newest live record per selected key at min(revision, first read version), in key order, each with the key, lease and value committed at its revision and the create revision of the create it descends from; with limit N, the first min(N, live) of them exact, and one more exactly if the first row behind the N-th key, in the state of the last batch, is visible and no tombstone, which then is that row |
| `Collectors.ScanCount` | pkg/drivers/fdb/fdb_read.go:86-96 | Count by scanning returns the size of that snapshot and its revision |
| `Collectors.Get` | pkg/drivers/fdb/fdb_read.go:48-60 | the first entry of the snapshot, or nothing exactly if it is empty, with the key, lease, value and create revision committed there; for a key that is not a prefix search, that key's own record |
| `Polling.EventTruthful` | pkg/drivers/fdb/util.go:13-35 | an event has the fields of the record committed at its revision, and a previous key-value exactly if that record names one and the log read still has it, with the fields of that record |
| `Polling.TruthfulIsConsecutive` | pkg/drivers/fdb/util.go:13-35 | while compactions begin safely, that is the record just before in the key's history, and both create revisions are those of the creates they descend from |
| `Polling.RunsKeepRooted` | pkg/drivers/fdb/fdb_write.go:95-257 | over every run, unsafe compactions included, a record names an earlier record of its key as its predecessor and no retained one lies between |
| `Polling.ReachedIsRooted` | pkg/drivers/fdb/fdb_write.go:66-302 | so in every state the empty store can reach |
| `Polling.PrevIff` | pkg/drivers/fdb/fdb_watch.go:282-297 | as long as the log is the whole history, an event has a previous key-value exactly if its key has an earlier record, and it is the one just before |
| `Polling.WholeIff` | pkg/drivers/fdb/fdb_compact.go:36-47 | over any run the log is the whole history in the end exactly if it was at first and nothing has been removed |
| `Polling.CompactionLoses` | pkg/drivers/fdb/fdb_compact.go:36-47 | what Compact(E), for any E and in any batches, costs a reader of the log: exactly the superseded records and tombstones above where it stands and up to E |
| `Polling.ScanAfterExact` | pkg/drivers/fdb/fdb_watch.go:269-306 | a batch takes exactly the matching records from where it begins to the last record it reads, and stops for good only at the end, the bound or the limit |
| `Polling.AfterCollector.Next` | pkg/drivers/fdb/fdb_watch.go:269-306 | takes an event if the key matches, with the record's fields and a previous key-value exactly if the record names one that the log has; refuses it beyond the bound, says whether the limit is reached |
| `Polling.AfterCollector.EndBatch` | pkg/drivers/fdb/fdb_watch.go:308-330 | notes the read version only if there was no bound; ErrCompacted exactly below the watermark |
| `Polling.AfterCollector.PostBatch` | pkg/drivers/fdb/fdb_watch.go:332-336 | the batch joins the events; the bound is what the batch noted, so it falls back to 0 after a bounded batch |
| `Polling.AfterBatch` | pkg/drivers/fdb/fdb_watch.go:354-360 | one batch of the collector is the broadcast that PollBatch is proved about, with its read version |
| `Polling.PollBatch` | pkg/drivers/fdb/fdb_watch.go:269-336 | a poll batch holds as many events as there are records, as time allows or 1000, whichever is least, exactly those of the log between the old and the new cursor, each with what it replaced exactly if the log read has that; the cursor moves on, to the read version if there was nothing to read |
| `Polling.PollOnce` | pkg/drivers/fdb/fdb_watch.go:173-201 | an iteration broadcasts and stores exactly that, in the same words; a failed one changes nothing |
| `Polling.Poll` | pkg/drivers/fdb/fdb_watch.go:141-201 | over every run of failed, split and size-limited iterations, whatever compaction does, the batches of the loop together are exactly the log in (pollStart, cursor], in order and once each, less exactly what was removed before the loop got there; while the log is the whole history every event tells what it replaced if there was anything; left alone for more turns than the log has records the cursor reaches the read version |
| `Polling.PollCatchesUp` | pkg/drivers/fdb/fdb_watch.go:173-201 | left alone for more turns than there are records after its cursor, the loop reaches the read version |
| `Handover.FilterEvents` | pkg/drivers/fdb/fdb_watch.go:108-122 | keeps exactly the matching events, in order |
| `Handover.SkipSent` | pkg/drivers/fdb/fdb_watch.go:82-85 | dropping the leading events up to the last revision sent drops exactly those at or below it |
| `Handover.PassedOn` | pkg/drivers/fdb/fdb_watch.go:81-88 | what is passed on of a broadcast is exactly what is due there above the last revision of the initial read |
| `Handover.Joined` | pkg/drivers/fdb/fdb_watch.go:66-88 | appended to what was delivered it leaves no gap and repeats nothing |
| `Handover.HandsOver` | pkg/drivers/fdb/fdb_watch.go:54-92 | up to its last revision and the subscription the initial read has delivered what it was due; from there on the broadcasts are due, so what either has lost counts on its own side only |
| `Handover.Watcher.ReadStep` | pkg/drivers/fdb/fdb_watch.go:338-352 | a batch of the initial read keeps the invariant of the watch; a completed one is refused exactly below the watermark, and otherwise gets further or delivers what it read; an attempt that fails leaves nothing behind |
| `Handover.Watcher.CompleteBatch` | pkg/drivers/fdb/fdb_watch.go:308-336 | a completed batch extends the read, or is refused exactly below the watermark with the compact revision, or ends the read and delivers it |
| `Handover.ReadBatch` | pkg/drivers/fdb/fdb_watch.go:338-352 | after any batch the events are exactly the matching records up to the last one read, each with what it replaced exactly if the log read has that; a batch cut off by time has got further; when the read ends the events are complete up to a revision the poll has not passed at subscription |
| `Handover.Watcher.PollStep` | pkg/drivers/fdb/fdb_watch.go:173-201 | a poll iteration queues its batch for the watch, exactly one if there is a record to read, and moves the cursor; the queue covers everything due up to the cursor |
| `Handover.Watcher.ForwardStep` | pkg/drivers/fdb/fdb_watch.go:78-92 | while passing on, takes exactly one broadcast off the channel and delivers exactly its matching events above the last revision of the initial read, in order; otherwise changes nothing; keeps the invariant |
| `Handover.Watch` | pkg/drivers/fdb/fdb_watch.go:31-99 | over every interleaving, whatever compaction does, what a watch at m has delivered is a prefix of the matching records at or above m (of all retained ones for m = 0), less exactly those removed before the initial read got there, up to the hand-over, and before the poll got there, after it; strictly increasing, truthful, and telling what was replaced if the log is the whole history; passing on, and with as many last steps of its own as there were polls, it has delivered everything due up to the cursor; after an undisturbed end it is refused or has delivered everything due |
| `Handover.EndsCaughtUp` | pkg/drivers/fdb/fdb_watch.go:31-99 | after more undisturbed batches of the read and iterations of the poll than the log has records, and as many steps of the watch as there were polls, the watch is refused, or passes on with an empty channel and the poll at the read version |
| `Counts.CountStep` | pkg/drivers/fdb/fdb_count.go:68-82 | a create adds one live key, a delete takes one away, an update changes none |
| `Counts.NetIsChange` | pkg/drivers/fdb/fdb_count.go:60-83 | the events of an interval, together with what is missing from them, add up to the change of the live count over it, as far as it lies after the seed |
| `Counts.ScanCountIsLive` | pkg/drivers/fdb/fdb_read.go:86-96 | the scanned count is the number of live matching keys at the reported revision |
| `Counts.CountTracker.Seed` | pkg/drivers/fdb/fdb_count.go:50-58 | installs the entry unless there is one |
| `Counts.CountTracker.ApplyOne` | pkg/drivers/fdb/fdb_count.go:69-82 | one event moves the count of every tracked prefix it matches, once, if it is after the seed |
| `Counts.CountTracker.ApplyAll` | pkg/drivers/fdb/fdb_count.go:60-83 | a batch moves every entry by the net of its events |
| `Counts.TrackedIsRightIff` | pkg/drivers/fdb/fdb_read.go:91-95 | a tracked count is the live count at max(seedRev, last applied) if and only if the live count at the revision applied when it was installed and the net of what the poll has missed since add up to what the scan counted; in particular if the poll had not passed the scan and has missed nothing, and then it is not negative |
| `Counts.NoneMissed` | pkg/drivers/fdb/fdb_count.go:68-82 | nothing is missed if no record that the poll has skipped creates or deletes a matching key |
| `Counts.LateSeedLosesEvents` | pkg/drivers/fdb/fdb_read.go:86-95 | a run from the empty store, of a scan, a write, a poll and the installation, after which the tracker answers 0 where the live count is 1 |
| `Counts.CountingBackend.PollApply` | pkg/drivers/fdb/fdb_watch.go:195-197 | applying a batch before the cursor is stored keeps every entry exact in the sense of `Tracks` |
| `Counts.CountingBackend.ScanStep` | pkg/drivers/fdb/fdb_read.go:86-90 | a scanning Count gets the size of the snapshot, which is the live count at its revision |
| `Counts.CountingBackend.SeedOne` | pkg/drivers/fdb/fdb_read.go:91-95 | installing any finished scan, in any order and however far the poll has moved on, gives an entry exact in the sense of `Tracks` |
| `Counts.CountingBackend.PollStore` | pkg/drivers/fdb/fdb_watch.go:198-201 | storing the cursor brings it to the applied revision and changes no entry |
| `Counts.CountingBackend.Restart` | pkg/drivers/fdb/fdb_watch.go:141-149 | a poll that starts again forgets every tracked count, goes on from the stored cursor or from the read version if there is none, and what is due to it is the log as it stands and what comes |
| `Counts.CountingBackend.CachedCount` | pkg/drivers/fdb/fdb_read.go:76-84 | answers exactly if the prefix is tracked and the cursor has reached the seed; the answer is the live count at the applied revision, which between iterations is the one reported, exactly under the condition of TrackedIsRightIff |
| `Counts.CountAfter` | pkg/drivers/fdb/fdb_read.go:76-97 | after every run of writers, safe compactions before or past the cursor, poll halves, scans, installations in any order and restarts, in the state `CountRun` describes: the same; after a scan installed at once and enough undisturbed polls the tracker answers, with the live count at the read version |
| `Counts.SeededServes` | pkg/drivers/fdb/fdb_read.go:76-97 | after a scan that is installed at once and more undisturbed iterations of the poll than the log has records and one, the tracker has the prefix, seeded at the read version, and the stored cursor is there |
| `Ttl.ExpiryJustified` | pkg/drivers/fdb/fdb_ttl.go:92-94 | the tombstone a TTL delete appends was written over exactly the entry's revision, after its lease |
| `Ttl.TtlLoop.Observe` | pkg/drivers/fdb/fdb_ttl.go:47-64 | an entry is stored exactly from a live leased record newer than the known one, to expire a lease after the observation |
| `Ttl.TtlLoop.HandleLoad` | pkg/drivers/fdb/fdb_ttl.go:68-90 | whenever it wakes, the handler goes on only with an expired entry |
| `Ttl.TtlLoop.HandleDelete` | pkg/drivers/fdb/fdb_ttl.go:92-94 | what the delete appends is recorded and justified; while compactions begin safely: without an error the entry's record is then not the live newest of its key, and with nobody else at work exactly one tombstone is written over it exactly if it was, and listed |
| `Ttl.TtlLoop.HandleFinish` | pkg/drivers/fdb/fdb_ttl.go:96-111 | after an error the entry stays; otherwise whatever entry the key has by now, even a renewed one, is dropped |
| `Ttl.LeaseExpires` | pkg/drivers/fdb/fdb_ttl.go:47-111 | told of the live newest record of a key and left alone until its lease has run out, the loop writes exactly one tombstone, over that record, and forgets the key and no other |
| `Ttl.RenewalDroppedIff` | pkg/drivers/fdb/fdb_ttl.go:92-111 | a renewed entry is dropped exactly if the delete returned without an error and a newer live leased record was reported since the handler loaded the old entry |
| `Ttl.RenewalDropped` | pkg/drivers/fdb/fdb_ttl.go:92-111 | a run from the empty store after which a live leased key has no entry |
| `Ttl.RunTtl` | pkg/drivers/fdb/fdb_ttl.go:24-111 | over every run, with no condition on compaction, each tombstone the loop appended was written over exactly the observed revision and not before its observation time plus its lease; with no other writer these are all the new records; while compactions begin safely that revision is the last of the key before the tombstone, every delete that returned is as HandleDelete says, and an entry whose delete returned without an error never again has the live newest record |
| `EtcdModel.StepOperation` | test/robustness/model/deterministic.go:178-214 | one operation of a transaction: range, put with lease bookkeeping, delete |
| `EtcdModel.StepTxn` | test/robustness/model/deterministic.go:156-219 | the transaction fails exactly if a condition does not hold of the key-values: the version asked for, the revision asked for, or absence for revision 0; it carries out onFailure or onSuccess accordingly: each operation answers of the state it finds, the last one that writes a key decides its value, revision and lease, no other key changes, leases and their keys stay consistent, and the revision rises by one exactly if something was written |
| `EtcdModel.RangeSelects` | test/robustness/model/deterministic.go:273-303 | a range returns the keys in it, in order, with the values they have, all or the first of them up to the limit, and their number |
| `EtcdModel.LastWriterWins` | test/robustness/model/deterministic.go:178-214 | after any operations a key is what the last one that writes it leaves, or as it was |
| `Replay.SequentialRun` | pkg/drivers/fdb/fdb_subspace_rev.go:22-43 | in sequential-id mode every run of writes gives consecutive revisions from 2 |
| `Replay.SequentialCall` | pkg/drivers/fdb/fdb_write.go:66-264 | so does a client call with its retries among other writers |
| `Replay.RecordReplays` | test/robustness/fdb/wal.go:47-154 | replaying a record in a state that shows the driver's view before it: the guard holds, the revision rises by one, the state shows the view after it |
| `Replay.RequestFailsIff` | test/robustness/fdb/wal.go:47-154 | in any state, the request of a create fails exactly if the key is there, that of any other record exactly if the key is not there at the revision it replaces; failing, it changes nothing and answers what the key has, if the record is no create |
| `Replay.UnguardedDelete` | test/robustness/fdb/wal.go:106-154 | a delete without a revision never fails, answers what it found and leaves the key absent |
| `Replay.GapFails` | test/robustness/fdb/wal.go:17-45 | a log with a record left out does not replay: the next record of its key fails |
| `Replay.RecordEvent` | test/robustness/model/replay.go:66-114 | and exactly one event arises, saying what the record says |
| `Replay.EventsIffWritten` | test/robustness/model/replay.go:66-114 | any request gives rise to events exactly if it raises the revision, and they carry that revision |
| `Replay.StatesIndexed` | test/robustness/model/replay.go:23-41 | whatever the requests, failed ones included, the state recorded at an index is the one of that revision |
| `Replay.ReplayRefines` | test/robustness/model/replay.go:23-41 | after every run of writes all guards of the replayed log succeed, and the state recorded at each revision is exactly the driver's live view there: key, value, mod revision |
| `Replay.RunsReplay` | test/robustness/model/replay.go:23-41 | so for every run of writes from the empty store |
| `Replay.ListShowsView` | pkg/drivers/fdb/fdb_read.go:320-352 | the driver's own pinned reads answer from that same view |
| `Wal.WalBatch` | pkg/drivers/fdb/fdb_wal.go:31-47 | one batch of the log read collects the records it reads, whole and in order |
| `Wal.ReadWal` | pkg/drivers/fdb/fdb_wal.go:9-14 | split anywhere and with writers in between, the result is the whole log as the last batch found it |
| `Wal.WalToRequests` | test/robustness/fdb/wal.go:17-45 | one request per record, of the record's kind |
| `Wal.ToWatchEvents` | test/robustness/model/replay.go:66-114 | the loop over operations collects the events `WatchEvents` defines |
| `Wal.NewReplay` | test/robustness/model/replay.go:23-41 | the loop over requests records the states and events that ReplayRefines is about |
| `Wal.ReplayDriver` | test/robustness/fdb/wal.go:17-45 | end to end: the replay of a driver in sequential-id mode has a state for every revision up to the last batch and no further, each the driver's live view, and one event per record |

## Left out

- Client set-up, TLS, directories, options, logging, flags and wiring: no logic of the store.
- Timers, FDB watch futures, the poll kick and error back-off: only when a step happens, which the plans leave open.
- FDB errors that are not retried: a call then returns the error, with no answer to state anything about.
- The broadcaster of kine, its gRPC server and the delaying work queue: library code; the queue may wake the TTL handler for any key at any time in the model.
- The byte layout of tuples other than the index's string keys: records are packed and unpacked by the tuple library.
- Progress notifications, DbSize, the commit version that Compact returns, the watch subspace's counter.
- `APITest`: the switch that empties the value of delete events.
- Lease grant and revoke, compaction, defragmentation and ranges at older revisions in the reference model: the log conversion never produces them.
- 64-bit wrap-around of revisions, sizes and lease durations: integers are unbounded.
- Liveness beyond `Polling.PollCatchesUp`, `Handover.EndsCaughtUp`, `Counts.SeededServes` and `Ttl.LeaseExpires`: the code makes no promise of when a step happens.
- EtcdModel.GetRange: the sort of a range's keys is taken as the sorted enumeration of a set, not as a loop; the replayed requests never execute a range.
- Collectors.RecordCollector.Next: the record object shared by two fields is modelled as two values and a flag that says they are one object.
- Collectors.List: every compaction that begins while a scan is under way begins at a safe end (`TamePlan`); Count and Get likewise.
- Counts.CountAfter: a scan is one step, at its first batch, and its compactions begin at safe ends (`TameCounts`); a scan that a compaction shortens under way, as `ReadIsAnswered` describes, is not among the moves.
- Handover.Watch: the channels are unbounded queues; cancellation of the context is the end of the plan.
