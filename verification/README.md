# PawnDB: verified model of transactions, tables, buffers and messages

PawnDB is an in-memory store. A transaction is a worker thread that takes shared or
exclusive row locks, buffers its writes in a commit queue, replays the queue at commit and
then gives its locks back. This project models that core in Dafny and proves what it is for.

## How it is laid out

| file | what it models |
|---|---|
| `Basics`, `Probing`, `OpenAddressing` | cyclic probing and open addressing with tombstones, shared by both tables |
| `StudentTuple`, `StudentTable`, `StudentTableObject` | the row table: its calls as functions on a value, what they mean for the key-to-row map, and the class that performs them in place |
| `LockList`, `LockListObject` | the per-worker lock list as a multiset of locks, its class and its iterator |
| `Worker` | every handler, the retry loops, the commit loop and the release loop, cut into steps of at most one mutex-protected call each |
| `Protocol`, `Runs` | any number of workers over one table: the invariant, every step, every run; mutual exclusion; leaked locks |
| `Transactions`, `Commits`, `WholeCommits` | two-phase locking, stable reads, aborts, atomic and serialisable commits, with insertions one by one in general and whole when only one commit at a time inserts |
| `Progress` | when a worker can move and when it is blocked, exactly; the commit loop and the release loop as wholes |
| `InTurn`, `Scenarios`, `Anomalies` | stretches of a run in which one worker moves; concrete runs from an empty table to the states in which the code as written goes wrong |
| `Requests` | what each request and each step of a worker's own does, outright; commits apply what clients were granted; how transactions end |
| `WorkerObject` | the worker as a class over the classes of its parts |
| `Rings`, `Buffers`, `BufferObjects` | the two ring buffers, the reference-counted buffer pool, and the handles their slots hold |
| `Wire` | message layout, record serialisation, strings, checksum |

Each mutable class ties its fields to a value (`State()`), and each method equates the new
value with a function of the old one; lemmas then say what that function means. The step
system runs on the same functions. A condition-variable wait is a guard that may time out;
capacities (rows, lock slots, commit slots, pool slots, retries) are parameters.

## Where the code does not do what it is meant to

The code is modelled as it is; where an intended property fails, a lemma says exactly when
it holds.

- `process_shared_read` and `process_exclusive_read` raise the row's lock before `add_lock`
  may refuse it, and neither undo it. Such locks are counted as `leaks`. A shared read leaks
  if and only if the list is full or holds the row found with no tombstone before it
  (`Runs.SharedReadLeaks`), an exclusive one if and only if the list is full
  (`Runs.ExclusiveReadLeaks`); `Anomalies.LeakingRead` is a run in which it happens. A leak
  pins its row for ever (`Runs.LeakPinsRow`). Safety holds with leaks counted.
- `deserialize` leaves the key of a fresh tuple at 0, and the replay of an UPDATE writes
  under the tuple's own key. The key a decoded tuple carries is the parameter `stamp`; the
  source is `SourceStamp`. This goes wrong in two ways. A replayed UPDATE reaches its row if
  and only if `stamp(k) == k` (`Transactions.UpdateReaches`); with the source only row 0 is
  ever overwritten (`Transactions.SourceWritesRowZeroOnly`), and
  `Anomalies.UpdateOfAnotherRow` is a run to a state where that row is one another worker
  shares. And the replay may not end at all: `trait_write` probes without end, holding the
  table's mutex, if and only if no slot carries the tuple's key without a tombstone mark
  (`Progress.UpdateEnds`); in the run of `Anomalies.UpdateWithoutEnd` row 0 has been deleted
  and an UPDATE of row 1, properly held and queued, never returns.
- The replay of a DELETE never ends if and only if the worker no longer holds the key, as
  when the same key was deleted earlier in the queue (`Progress.DeleteEnds`);
  `Anomalies.DeleteWithoutEnd` is a run in which that happens. An UPDATE
  after a DELETE of its key need not hang; it writes wherever its probe ends.
- In every state that the invariant admits a worker can move unless it waits for room in a
  full table or is in one of those two loops (`Progress.NobodyHangs`). In `Orderly` states
  only the full table is left (`Progress.OrderlyNobodyHangs`); states stay orderly as long as
  clients send no operation on a key after its DELETE and decoding stamps an UPDATE with its
  own key (`Courteous`).
- A commit's insertions take their keys one by one as they run. Two interleaved commits come
  out as one after the other if and only if their insertions ran in that order
  (`Commits.InterleavingWithInsertions`); `Anomalies.InsertionsNotSerial` is a run in which
  they come out as neither. If no two commits that insert are under way at once, commits
  take effect whole (`WholeCommits.CommitsAreWhole`).
- `add_lock` reuses a tombstone before it looks further down the chain. It reports a held
  key if and only if no tombstone comes first (`LockLists.HeldKeyConflicts`). A key can so be
  held twice, but then only SHARED (`Runs.MutualExclusion`).
- `next_key_` wraps at 256 and `lock_` at 127. Insertion keeps keys distinct if and only if
  the next key is not live, a shared grant keeps the counters exact if and only if the lock
  word is below 127. Run theorems assume neither happens (`TameRun`), which is so if and only
  if every insertion gets a key not in use and no row is shared more than 127 times at once
  (`Runs.TameRunExactly`); with at most 256 insertions the first part is free
  (`Runs.ModestRunIsTame`).
- `ref_count_` wraps at 65536; one more handle keeps the counts right if and only if there is
  room for it (`Buffers.RetainExact`).
- A pop of an empty ring wraps its counter, after which the ring refuses every send
  (`Rings.ExtraPopBlocks`).
- `add_lock` failing in `process_shared_read` falls through to a second reply and a second
  pop; `process_promote` sets ABORTED when it runs out of retries but not when it is stopped,
  the reads do it the other way round. The idle test of `trait_start` (src/worker.cpp:560) is
  dead code: the counter it looks at was set to 0 just before. `COMMITTED` is never entered.

## Model

| member | source | states |
|---|---|---|
| Requests.AddRequest | src/worker.cpp:155-206 | an ADD_TUPLE for the student table is queued last, with its whole record, if the queue has room; nothing else changes but a growing phase to SHRINKING |
| Requests.UpdateRequest | src/worker.cpp:450-508 | an UPDATE is queued last, with the decoded record, exactly when its row is held EXCLUSIVE and the queue has room; nothing else changes but the phase |
| Requests.DeleteRequest | src/worker.cpp:510-549 | a DELETE is queued last exactly when its row is held EXCLUSIVE and the queue has room; nothing else changes but the phase |
| Requests.ReadRequest | src/worker.cpp:208-228 | a read starts its retries exactly in the growing phase and for the student table |
| Requests.PromoteRequest | src/worker.cpp:381-412 | a promotion starts exactly for a row that a growing worker shares, and for that row |
| Requests.YieldRequest | src/worker.cpp:333-379 | a yield takes exactly one share of the named row off list and row, exactly when a growing worker shares it |
| Requests.PlainRequest | src/worker.cpp:577-582 | START_TXN and unknown operations change nothing |
| Requests.EndRequest | src/worker.cpp:583-593 | ABORT_TXN goes to the release loop; COMMIT_TXN to the commit loop in SHRINKING and to the release loop otherwise |
| Requests.CheckStep | src/worker.cpp:230-242 | when a retry loop gives up and what that does to the phase; at the loop head a worker that is not running quits |
| Requests.TimeoutStep | src/student_table.cpp:206-269 | a wait times out only while its condition fails and counts as one try; an idle worker looks again |
| Requests.MissedScan | src/student_table.cpp:206-252 | a scan that found no row would count as one more try; with its counter at 0 a call waits |
| Requests.StopAndStart | src/worker.cpp:16-26 | a stop only clears the running flag; a start begins with nothing held and nothing queued |
| Requests.QuittingEnds | src/worker.cpp:43-76 | from any state of the invariant, a worker that aborts, commits outside SHRINKING or finds itself stopped reaches its end by its own turns with nothing held or queued, every row having back exactly what it held and no record changed |
| Requests.CommittingEnds | src/worker.cpp:78-153 | a commit in SHRINKING whose replay ends reaches its end by its own turns with nothing held or queued and its write set applied in order |
| Requests.QueueIsGranted | src/worker.cpp:155-549 | after any tame run a serving worker's queue is exactly what it has been granted since it started, in the order it was sent |
| Requests.CommitsAreRequests | src/worker.cpp:78-153 | after a tame and courteous run with no commit under way, the records are those of a store to which each commit, when it began, applied the updates and deletions that its client had been granted, in the order they were sent; insertions as they ran |
| Protocol.StepKeepsInv | src/worker.cpp:78-633 | every step of every worker keeps the invariant: row lock words say exactly who claims the row, counters are exact, write sets are held EXCLUSIVE, phases and queues agree |
| Protocol.LocalAccounted | src/worker.cpp:208-448 | a worker's step changes rows only as its event says and pays for it with its own claims, gained, lost or leaked |
| Protocol.MovesKeepBalance | src/student_table.cpp:206-290 | balanced claims stay balanced under any grant, promotion, return, insertion, removal or write whose loss was claimed |
| Protocol.YieldAccounted | src/worker.cpp:333-379 | a yield of a shared row ends both its probe loops and gives back one share |
| Protocol.ParkAccounted | src/worker.cpp:381-448 | the promotion's probe ends, at the row the worker shares |
| Protocol.UnparkAccounted | src/student_table.cpp:254-269 | a promotion that went through turns the worker's one share into an EXCLUSIVE claim; the slot it waited on still holds that row |
| Protocol.SharedAccounted | src/worker.cpp:229-259 | with a positive counter the shared scan finds a row, and the share ends up in the list or among the leaks |
| Protocol.ExclusiveAccounted | src/worker.cpp:291-321 | the same for an exclusive grant |
| Protocol.ReleaseAccounted | src/worker.cpp:50-69 | every turn of the release loop ends and gives back exactly the lock the iterator stands on |
| Protocol.DeleteFindsLock | src/lock_list.cpp:35-45 | during a replay `rm_lock` ends exactly when the key is held, and then it is held EXCLUSIVE |
| Runs.RunKeepsInv | src/worker.cpp:43-633 | the invariant holds after every tame run of any number of workers |
| Runs.MutualExclusion | src/worker.cpp:208-448 | after every tame run of any number of workers an EXCLUSIVE entry is the only entry for its row in all lists and the row's lock word is -1; a row at -1 has exactly one claimant, entry or leak; any other lock word counts the SHARED entries of all lists plus leaked shares; counters are exact |
| Runs.ModestRunIsTame | include/pawndb/params.h:19-40 | a run of any length that hands out at most 256 keys and never shares a row more than 127 times at once runs no 8-bit counter over |
| Runs.TameRunExactly | include/pawndb/params.h:19-40 | a run runs no 8-bit counter over exactly when every insertion gets a key not in use and no row ever has more than 127 shares outstanding |
| Runs.GrantCounts | src/student_table.cpp:211-222 | a shared grant adds exactly one share to the total of entries and leaks, even where the lock word wraps |
| Runs.RecordLeaks | src/worker.cpp:240-251 | a granted lock leaks exactly when the list is full or holds the key with no tombstone before it |
| Runs.SharedReadLeaks | src/worker.cpp:229-259 | a shared read whose guard holds ends, and leaks its share exactly when the list refuses the row found |
| Runs.ExclusiveReadLeaks | src/worker.cpp:302-314 | an exclusive read leaks exactly when the list is full, since a row the worker holds is never unlocked |
| Runs.LeakPinsRow | src/worker.cpp:302-314 | after any tame run a leaked lock's row is still live and locked and nobody holds it EXCLUSIVE; a leaked exclusive grant shuts everybody out |
| Transactions.TwoPhase | src/worker.cpp:78-549 | phases only move from GROWING to SHRINKING or ABORTED, a growing worker has nothing queued, afterwards no lock is added or yielded |
| Transactions.StepMoves | src/worker.cpp:78-153 | a step changes the key-to-record map exactly as its event says |
| Transactions.StableReads | src/worker.cpp:78-331 | while a worker claims a row no other worker's step removes it, and only an UPDATE whose tuple names that row changes it |
| Transactions.UpdateReaches | src/worker.cpp:121-139 | the replay of an UPDATE that ends writes the row its tuple's key names; it reaches the intended row exactly when decoding stamped that key |
| Progress.UpdateEnds | src/student_table.cpp:181-191 | the replay of an UPDATE ends exactly when some slot carries its tuple's key without a tombstone mark |
| Transactions.SourceWritesRowZeroOnly | src/student_table.cpp:69-78 | with keys left at 0 by decoding, no record but row 0's is ever overwritten |
| Transactions.LogExplainsStore | src/worker.cpp:78-153 | the records after a tame run are its logged events applied in order |
| Transactions.AbortLeavesNoTrace | src/worker.cpp:43-84 | over any tame run a worker that has served no shrinking COMMIT leaves the records as the other workers' steps alone make them; that it also ends is Requests.QuittingEnds |
| Commits.InterleavingIsSerial | src/worker.cpp:86-149 | any interleaving of two write sets on disjoint keys gives the map of either one whole and then the other |
| Commits.WriteSetsCommute | src/worker.cpp:86-149 | write sets on disjoint keys commute |
| Commits.ReplayedSplits | src/worker.cpp:86-105 | a replay does what its updates and deletions do and files its additions under the next keys |
| Commits.InterleavingWithInsertions | src/worker.cpp:86-149 | an interleaving of two write sets with insertions gives one whole and then the other exactly when their insertions ran in that order |
| Commits.OneInserterIsSerial | src/worker.cpp:86-149 | when only one of two write sets adds anything, every interleaving of them equals both serial orders |
| Commits.StepKeepsOrderly | src/worker.cpp:450-549 | under courteous requests queues stay well formed and their keys held until their turn |
| Commits.OneWriter | src/worker.cpp:450-549 | no two workers have a write queued on the same row |
| Commits.StepIsAtomic | src/worker.cpp:78-153 | every step of the interleaved system is a step of a store in which a commit's updates and deletions take effect all at once when it begins; its insertions take effect one by one when they run |
| Commits.RunIsAtomic | src/worker.cpp:78-153 | the same over whole runs that are tame and courteous, insertions again one by one |
| Commits.CommitsAreSerial | src/worker.cpp:78-153 | after a tame and courteous run, with no commit under way, the records are those of the run's commits, each with all its updates and deletions at once, in the order they began, and each insertion at the moment it ran |
| WholeCommits.StepIsWhole | src/worker.cpp:78-153 | while at most one commit under way has anything to add and keys are handed out once, every step is a step of a store that applies whole commits, insertions included, when they begin |
| WholeCommits.RunIsWhole | src/worker.cpp:78-153 | the same over whole runs that are tame and courteous |
| WholeCommits.CommitsAreWhole | src/worker.cpp:78-153 | after such a run from an empty table with at most 256 records committed, and no commit under way, the store is that of the commits applied whole, insertions included, in the order they began |
| Commits.ClaimedRecordStays | src/worker.cpp:86-149 | no step of another worker changes or removes the record of a claimed row when queues are orderly |
| Commits.ReadsAreRepeatable | src/worker.cpp:208-331 | over any tame and courteous run, a record stays the same for as long as a worker claims its row and does not itself replay |
| Commits.ReadsAreSettled | src/worker.cpp:208-331 | a record that a worker outside its commit loop claims is the atomic store's, however many commits are half done |
| Commits.ReadsAreSerial | src/worker.cpp:208-331 | after any tame and courteous run what a worker reads under its locks, outside its own replay, is what the atomic store driven by that run holds |
| Progress.NobodyHangs | src/worker.cpp:50-153 | in every state of the invariant a worker that has not stopped can move exactly when it is not blocked: inserting into a full table, deleting a key it no longer holds, or updating under a key that no slot would stop at |
| Progress.OrderlyNobodyHangs | src/worker.cpp:50-153 | with orderly queues a worker can move unless it waits to insert into a full table |
| Progress.TurnEnds | src/worker.cpp:86-149 | a replay turn is made exactly when the worker is not blocked |
| Progress.DrainExactly | src/worker.cpp:86-149 | the whole commit loop of any worker in a state of the invariant ends exactly when every insertion finds room, every deletion's key is held when its turn comes, and every UPDATE finds a slot to stop at; then the queue has been applied in its order, each UPDATE to the row its tuple names |
| Progress.ReplayMoves | src/worker.cpp:86-149 | a replay turn of an orderly worker is blocked exactly when it must insert into a full table |
| Progress.DeleteEnds | src/worker.cpp:106-120 | the replay of a DELETE ends exactly when the row is still in the worker's list |
| Progress.DrainApplies | src/worker.cpp:86-149 | the whole commit loop of an orderly worker ends exactly when every insertion finds room, and then the write set has been applied in its order, additions filed under the next keys |
| Progress.DrainIsSteps | src/worker.cpp:86-149 | the whole commit loop is what the worker's replay turns do with nobody in between |
| Progress.ReleaseFromExact | src/worker.cpp:50-69 | over any list whose locks the rows show, the release loop ends; every row loses exactly its SHARED entries or goes from -1 to 0; nothing else changes and counters stay exact |
| Progress.InvShows | src/worker.cpp:50-69 | in every state of the invariant the rows show all that a worker claims |
| Progress.ReleaseLoopExact | src/worker.cpp:50-69 | in every state of the invariant the release loop of any worker ends with exactly that effect for what the worker still claims |
| Progress.ReleaseIsSteps | src/worker.cpp:50-69 | the whole release loop is what the worker's release turns do with nobody in between, and leaves it stopped with an empty list |
| Anomalies.UpdateOfAnotherRow | src/worker.cpp:121-139 | a run from an empty table to a state in which a committed UPDATE of row 1 changes row 0, which another worker has read and still shares |
| Anomalies.UpdateWithoutEnd | src/student_table.cpp:181-191 | a run from an empty table to a state in which an UPDATE that is held and queued properly can never be replayed although the table has room |
| Anomalies.DeleteWithoutEnd | src/lock_list.cpp:35-45 | a run from an empty table to a state in which the second of two deletions of one row can never be replayed |
| Anomalies.InsertionsNotSerial | src/student_table.cpp:113-133 | a run from an empty table in which two commits that insert finish and the records are those of neither commit after the other |
| Anomalies.LeakingRead | src/worker.cpp:240-251 | a run from an empty table to a state in which a second shared read has locked a row that no list records |
| InTurn.AloneIsRun | src/worker.cpp:551-633 | the acts of one worker in a row are a run of the whole system |
| WorkerObjects.TxnWorker.ProcessAdd | src/worker.cpp:155-206 | in place, what the step system's handler does: phase, table test, queue or full |
| WorkerObjects.TxnWorker.ProcessUpdate | src/worker.cpp:450-508 | in place: only a row held EXCLUSIVE is queued, under the decoded tuple's key |
| WorkerObjects.TxnWorker.ProcessRm | src/worker.cpp:510-549 | in place: only a key held EXCLUSIVE is queued for deletion |
| WorkerObjects.TxnWorker.ProcessYield | src/worker.cpp:333-379 | in place: the SHARED entry leaves the list and the row loses one share |
| WorkerObjects.TxnWorker.ProcessSharedRead | src/worker.cpp:208-268 | in place, the retry loop run alone: grant recorded or leaked, timeouts, stop |
| WorkerObjects.TxnWorker.ProcessExclusiveRead | src/worker.cpp:270-331 | the same for the exclusive read |
| WorkerObjects.TxnWorker.ProcessPromote | src/worker.cpp:381-448 | in place, the retry loop run alone: refused unless the key is SHARED here; promotes exactly when the row has one share, aborts when retries run out |
| WorkerObjects.TxnWorker.ProcessCommit | src/worker.cpp:86-149 | the replay loop over ring buffer, lock list and rows does what the step system's turns do one after another |
| WorkerObjects.TxnWorker.ReleaseRows | src/worker.cpp:50-67 | the loop over the iterator visits every held lock and reaches the rows of the release turns done one after another |
| WorkerObjects.TxnWorker.ReleaseAllLocks | src/worker.cpp:50-69 | the rows as after the release loop, and an empty list |
| WorkerObjects.TxnWorker.Quit | src/worker.cpp:43-76 | locks released, list and queue empty |
| WorkerObjects.SharedReadIsSteps | src/worker.cpp:230-251 | the object's shared read equals the step system's request and retries with nobody in between, refusals included |
| WorkerObjects.ExclusiveReadIsSteps | src/worker.cpp:292-314 | the same for the exclusive read |
| WorkerObjects.PromoteIsSteps | src/worker.cpp:415-436 | the same for a promotion |
| Probing.ProbeNone | src/student_table.cpp:168-179 | an unbounded probe runs for ever exactly when no slot would stop it |
| Probing.ProbeTurn | src/student_table.cpp:168-179 | each turn of a probing loop is one step nearer to the slot it ends at |
| OpenAddressing.SearchIsFind | src/student_table.cpp:135-149 | giving up at the first unused slot misses no live key |
| OpenAddressing.SeekIsFind | src/student_table.cpp:168-191 | the loops that never test `is_used_` end at the live key's own slot |
| OpenAddressing.FirstFreeReachable | src/student_table.cpp:117-132 | a slot filled by insertion is reachable, tombstones reused or not |
| StudentTables.SearchExact | src/student_table.cpp:135-149 | search finds exactly the live keys, each at its own slot |
| StudentTables.SeekEnds | src/student_table.cpp:168-191 | the unbounded probe ends exactly when some slot carries the key without a tombstone mark, in use or not |
| StudentTables.InsertEnds | src/student_table.cpp:113-133 | insertion ends exactly when the table is not full |
| StudentTables.InsertEffect | src/student_table.cpp:113-133 | insertion adds exactly the fresh key, unlocked, and keeps counters exact |
| StudentTables.InsertKeepsKeysDistinct | src/student_table.cpp:113-133 | keys stay distinct exactly when the 8-bit next key is not live |
| StudentTables.RemoveEffect | src/student_table.cpp:168-179 | removal takes away exactly its key; counters stay exact exactly when the row was at -1 |
| StudentTables.WriteEffect | src/student_table.cpp:181-191 | a write that ends (see SeekEnds) changes the record under the tuple's key, if live, and nothing else |
| StudentTables.ClearEffect | src/student_table.cpp:193-204 | clearing empties the map and restarts the keys; every slot keeps its key and record and loses its marks and its lock |
| StudentTables.SharedScanFinds | src/student_table.cpp:206-228 | the scan finds a row exactly when the counter is positive: NotFound is unreachable |
| StudentTables.ExclusiveScanFinds | src/student_table.cpp:230-252 | the same for the exclusive scan |
| StudentTables.ScansFindFirst | src/student_table.cpp:211-244 | a read is granted the first row from slot 0 on that it could be granted |
| StudentTables.InsertPlaces | src/student_table.cpp:117-132 | insertion takes the first free slot from the key's home on, which is the key modulo the rows; the next key is the 8-bit successor |
| StudentTables.SeekPath | src/student_table.cpp:168-191 | every unbounded probe starts at the key modulo the rows and passes only slots that do not stop it |
| StudentTables.CallsOutright | src/student_table.cpp:168-290 | remove, write and release touch only the slot their probe ends at, in the stated way for every lock word, and only the stated counters |
| StudentTables.GrantsOutright | src/student_table.cpp:211-262 | the grants and the promotion touch only their row's lock word and the stated counters |
| StudentTables.Wraps | include/pawndb/params.h:19-40 | the lock word wraps from 127 to -128, the counters from 255 to 0, and back |
| StudentTables.GrantSharedEffect | src/student_table.cpp:211-222 | one more share on that row only; counters stay exact exactly when the lock word is below 127 |
| StudentTables.GrantExclusiveEffect | src/student_table.cpp:235-244 | the row goes from 0 to -1, counters stay exact |
| StudentTables.PromoteEffect | src/student_table.cpp:254-269 | the row goes from 1 to -1, counters stay exact |
| StudentTables.ReleaseEffect | src/student_table.cpp:271-290 | the row goes from -1 to 0 or loses one share, counters stay exact, other rows are untouched |
| StudentTableObjects.StudentTable.constructor | src/student_table.cpp:110-111 | an empty table with exact counters |
| StudentTableObjects.StudentTable.Insert | src/student_table.cpp:113-133 | in place; a fresh key is added under `next_key_`, every other entry kept |
| StudentTableObjects.StudentTable.Search | src/student_table.cpp:135-149 | answers the record of a live key and NotFound otherwise |
| StudentTableObjects.StudentTable.Remove | src/student_table.cpp:168-179 | in place, with cyclic distance as the measure of its probe |
| StudentTableObjects.StudentTable.Write | src/student_table.cpp:181-191 | in place, the row the probe ends at |
| StudentTableObjects.StudentTable.Clear | src/student_table.cpp:193-204 | in place; valid, exact and empty afterwards |
| StudentTableObjects.StudentTable.WaitShared | src/student_table.cpp:206-228 | Timeout exactly when a guard fails, never NotFound with exact counters, otherwise the first live row from slot 0 whose lock is not negative |
| StudentTableObjects.StudentTable.WaitExclusive | src/student_table.cpp:230-252 | the same for the first unlocked row |
| StudentTableObjects.StudentTable.Promote | src/student_table.cpp:254-269 | goes through exactly when the row has one share |
| StudentTableObjects.StudentTable.Release | src/student_table.cpp:271-290 | in place, one share or the exclusive lock given back |
| LockLists.LookupsAgree | src/lock_list.cpp:22-45 | search and the removal loop act on the same slot; a key is found exactly when it is held |
| LockLists.SizeIsHeld | src/lock_list.cpp:81-91 | `size_` counts the locks of the multiset |
| LockLists.AddLockEffect | src/lock_list.cpp:5-61 | adds exactly one lock or changes nothing; Full exactly when full; Conflict only for a held key |
| LockLists.AddLockAnswers | src/lock_list.cpp:54-79 | after a successful add the key answers with the new mode |
| LockLists.AddLockFrame | src/lock_list.cpp:54-79 | a successful add changes no other key's answer |
| LockLists.HeldKeyConflicts | src/lock_list.cpp:5-20 | adding a held key conflicts exactly when no tombstone precedes it on its chain |
| LockLists.AddLockRefuses | src/lock_list.cpp:5-61 | a lock is refused exactly when the list is full or holds the key with no tombstone before it |
| LockLists.OneHomePerTable | src/unique_key.cpp:33-35 | all locks of one table share one home, the table id modulo the slots |
| LockLists.SeekLockPath | src/lock_list.cpp:35-45 | a removal probes from that home on and passes only slots that do not name the key |
| LockLists.RmLockEffect | src/lock_list.cpp:35-66 | removal ends and takes exactly the lock that the search reports |
| LockLists.RmLockFrame | src/lock_list.cpp:35-66 | removal changes no other key's answer |
| LockLists.PromoteLockEffect | src/lock_list.cpp:68-71 | the reported lock of the key becomes EXCLUSIVE, the rest stays |
| LockLists.ClearEffect | src/lock_list.cpp:47-52 | an empty valid list; every slot keeps its key, its mode and its tombstone mark |
| LockLists.HeldFromStep | src/lock_list.cpp:120-149 | a step of the iterator leaves behind exactly the lock it stood on |
| LockListObjects.LockList.AddLock | src/lock_list.cpp:5-61 | in place; the multiset gains the lock exactly on success |
| LockListObjects.LockList.Search | src/lock_list.cpp:22-33 | the bounded probe |
| LockListObjects.LockList.GetLock | src/lock_list.cpp:73-79 | answers exactly for held keys, with a mode they are held in |
| LockListObjects.LockList.RmLock | src/lock_list.cpp:35-66 | in place, with cyclic distance as the measure |
| LockListObjects.LockList.PromoteLock | src/lock_list.cpp:68-71 | in place |
| LockListObjects.LockList.Clear | src/lock_list.cpp:47-52 | in place; nothing held afterwards |
| LockListObjects.LockIterator.constructor | src/lock_list.cpp:93-105 | starts with every held lock ahead of it |
| LockListObjects.LockIterator.Next | src/lock_list.cpp:120-149 | the locks ahead lose exactly the one it stood on |
| Rings.SendIsFifo | src/commit_queue.cpp:9-17 | a send appends, or refuses exactly when the ring is full |
| Rings.PopIsFifo | src/commit_queue.cpp:19-22 | a pop takes the oldest entry off |
| Rings.PoppedSound | src/commit_queue.cpp:19-22 | a pop leaves the counter true to the positions exactly when there was an entry |
| Rings.DestroyedUnseen | src/job_channel.cpp:38-43 | destroying the popped job in place does not disturb the others |
| Rings.ExtraPopBlocks | src/job_channel.cpp:27-43 | one pop too many makes the ring refuse every send of any later sequence, until its counter has been popped down from 2^64 |
| Rings.CommitQueue.Send | src/commit_queue.cpp:9-17 | in place; the queue as a sequence grows at its end |
| Rings.CommitQueue.Pop | src/commit_queue.cpp:19-22 | in place; the queue loses its first entry |
| Rings.JobChannel.Send | src/job_channel.cpp:27-36 | in place; the channel as a sequence grows at its end |
| Rings.JobChannel.Pop | src/job_channel.cpp:38-43 | in place; the slot is destroyed, the channel loses its first job |
| Buffers.AssignKeeps | src/buf_ref.cpp:23-36 | repointing a handle, new reference first, keeps every count equal to its handles |
| Buffers.RetainExact | src/buf_table.cpp:38-45 | one more handle keeps counts right exactly when the 16-bit count has room |
| Buffers.MoveKeeps | src/buf_ref.cpp:17-21 | a move changes no count |
| Buffers.NextFitAnswers | src/buf_table.cpp:5-21 | a request fails exactly when every slot has a handle; otherwise its loop ends at the first slot, cyclically from the hint, that has none |
| Buffers.HintStep | src/buf_table.cpp:12-18 | a request that hands out slot i sets its count to 1, touches no other and leaves the hint just behind i; nothing else moves the hint |
| Buffers.NextGrant | src/buf_table.cpp:5-21 | over a run, the slot granted next is the first without a handle from behind the slot granted last |
| Buffers.HandlesStep | src/buf_ref.cpp:10-69 | which handles each operation repoints, and to what |
| Buffers.CountWraps | include/pawndb/types/buf_table.h:36-42 | a count wraps from 65535 to 0 and never goes below 0; `size_` follows the counts that leave or reach 0 |
| Buffers.StepConserves | src/buf_ref.cpp:10-69 | every operation on handles and on the queues' slots keeps counts and `size_` exact |
| Buffers.RunConserves | src/buf_table.cpp:38-57 | after any sequence of operations, the end of a worker's queue included, each count is the number of handles to its slot and `size_` the number of slots with one |
| Buffers.NoHandleReused | src/buf_table.cpp:5-21 | in no run is a slot that any handle points to unreferenced or handed out |
| Buffers.PendingStep | src/commit_queue.cpp:5-28 | no operation but the queue's own changes the buffers of pending commits |
| Buffers.JobsQueueStep | src/job_channel.cpp:27-50 | the channel's jobs are first in, first out, and keep their buffers until they are popped |
| Buffers.PendingBufferIsSafe | src/commit_queue.cpp:5-28 | the buffer of a commit not yet replayed stays referenced and is never handed out, whatever else happens |
| BufferObjects.BufTable.Request | src/buf_table.cpp:5-21 | in place; None exactly when every slot has a handle, otherwise a fresh handle to the next-fit slot, which had none; the hint ends just behind it |
| BufferObjects.BufTable.Advance | src/buf_table.cpp:12-14 | the next-fit loop, with cyclic distance as its measure |
| BufferObjects.BufTable.RetainRef | src/buf_table.cpp:38-45 | in place |
| BufferObjects.BufTable.ReleaseRef | src/buf_table.cpp:47-57 | in place |
| BufferObjects.BufRef.Copy | src/buf_ref.cpp:10-15 | the copy points where the original does and is counted |
| BufferObjects.BufRef.Move | src/buf_ref.cpp:17-21 | the donor ends null, no count changes |
| BufferObjects.BufRef.CopyAssign | src/buf_ref.cpp:23-36 | self-assignment changes nothing; otherwise retain then release |
| BufferObjects.BufRef.MoveAssign | src/buf_ref.cpp:38-50 | self-assignment changes nothing; otherwise the old slot is released and the donor ends null |
| BufferObjects.BufRef.ReleaseHeld | src/buf_ref.cpp:52-69 | the handle ends null and its slot is released |
| Wire.GettersAreBytes | include/pawndb/types/job_buf.h:26-73 | what each getter answers, by the nine header bytes, the message length and the numbers of the operations and acknowledgements |
| Wire.SettersAreBytes | src/ret_buf.cpp:88-110 | which byte each one-byte setter writes, and what |
| Wire.TxnIsBytes | src/ret_buf.cpp:100-102 | the transaction id goes into bytes 2 to 5, lowest first |
| Wire.RecordLayout | src/student_table.cpp:58-67 | a record on the wire is name, age, checksum at fixed places; nothing else changes |
| Wire.ChecksumMoves | src/student_table.cpp:80-87 | a record's checksum moves by just what its age or a character, taken as signed, moves, modulo 2^32 |
| Wire.ChecksumOfNothing | src/student_table.cpp:80-87 | an empty record sums to 0; stored checksum and tickstamp do not count |
| Wire.StringLayout | src/ret_buf.cpp:112-122 | length in bytes 9 and 10, lowest first, text behind them, message ends with the text; too long a string changes nothing |
| Wire.StringIsBytes | src/ret_buf.cpp:62-74 | what the string getter answers, by the bytes of the message; nothing if the message ends before its text does |
| Wire.ByteSumIs | src/ret_buf.cpp:76-86 | the byte sum counts every byte once |
| Wire.ChecksumIs | src/ret_buf.cpp:76-86 | a message of up to nine bytes has checksum 0, a longer one moves by what any of its bytes moves |
| Wire.DecodeEncode | include/pawndb/types/ret_buf.h:114-128 | a number comes back from its bytes exactly when it fits |
| Wire.ShortMessages | src/job_buf.cpp:8-60 | a getter answers ReadAfterEnd exactly when the message ends before its field does |
| Wire.SettersAreAssignments | src/ret_buf.cpp:8-110 | after any sequence of setters the six getters answer like a record assigned in that order |
| Wire.DeserializeSerialize | src/student_table.cpp:58-78 | name, age and checksum come back; key and tickstamp of the tuple decoded into stay |
| Wire.ReadReplyDecodes | src/worker.cpp:252-257 | a read reply to a request of any length gives back key and record, validates exactly when the row did, and answers every field the request answered, the key aside, as before |
| Wire.StringRoundTrip | src/ret_buf.cpp:62-74 | a string survives exactly when it fits behind the header; bytes 0 to 8 never change |
| Wire.RetBuf.Apply | src/ret_buf.cpp:88-110 | a setter writes its bytes in place and assigns its field |
| Wire.RetBuf.SetText | src/ret_buf.cpp:112-122 | writes length and text in place |
| Wire.RetBuf.GetChecksum | src/ret_buf.cpp:76-86 | the 32-bit sum is the exact byte sum, 0 for a bare header |

## Left out

- Sockets, replies, acknowledgement codes of the handlers, `ThreadManager`, `client_conn`, console output: input and output only.
- Threads, notification, fairness and real time: a wait is a guard that may time out at any moment; `release` never notifies, so no wake-up claim is made.
- `WorkerTable`, `ret_channel`, `rollback`, `Result`, tickstamps: nothing harder than what is here, or not called.
- The dispatch loop of `trait_start` as a method: its receive, dispatch and stop are steps of the worker (`Serve`); interleaved waiting is modelled there and not in the classes.
- WorkerObjects.TxnWorker.ProcessSharedRead: the retry loop is proved with no other worker stepping between its attempts; attempts with others in between are steps of the step system.
- WorkerObjects.TxnWorker.ProcessExclusiveRead: as for the shared read.
- WorkerObjects.TxnWorker.ProcessPromote: as for the shared read.
- WorkerObjects.TxnWorker.ProcessCommit: requires that no item blocks and no probe hangs; when that is so is Progress.DrainExactly.
- StudentTableObjects.StudentTable.WaitShared: the wait is decided at once, with no other thread during it; waits that others end are guarded steps of the step system.
- StudentTableObjects.StudentTable.WaitExclusive: as for the shared wait.
- StudentTableObjects.StudentTable.Promote: the wait on the slot found is decided on the spot; in the step system it is parked on the slot while others move.
- Commits.CommitsAreSerial: an insertion appears at the moment it runs, under the key it is then given; WholeCommits.CommitsAreWhole covers runs in which that makes no difference, Commits.InterleavingWithInsertions says when it does.
- Commits.StepIsAtomic: insertions as for Commits.CommitsAreSerial.
- Commits.RunIsAtomic: insertions as for Commits.CommitsAreSerial.
- Progress.DrainApplies: assumes that no insertion of the queue is given a key in use by then.
- Progress.DrainExactly: as for Progress.DrainApplies.
- Pops per job: the second pop after a failed `add_lock` is modelled for the ring (Rings.ExtraPopBlocks) and not traced through the handlers.
- Buffers.RunConserves: assumes that no slot ever has more than 65534 handles, so that a 16-bit count does not wrap; Buffers.RetainExact says that this is needed.
- `size_` of the tables is an unbounded integer; it stays between 0 and the capacity in every reachable state.
- Commit entries hold the decoded tuple as a value, not the raw bytes that are copied into the buffer; buffer contents and buffer handles are modelled apart.
- Wire: lowest byte first is assumed for the 16- and 32-bit fields; `job_buf` has the same bodies as `ret_buf` for what it offers and gets no class of its own.
- The Commit and Request values of the model stand for messages that parsed; a field that a message is too short to hold is None.
