# Models and proofs for six UNIX programs

This project models the parts of the repository whose correctness rests on an
invariant over many steps, and proves those invariants in Dafny.

* **The key/value database library** (`Db*.dfy`). One process first: a class over
  the bytes of the index and data files, whose every method is proved against a
  plain map. Then any number of processes, where a step is one of the
  library's read and write functions or one byte-range lock operation, with the proof
  that the operations are linearizable, that every record has one place, and that nobody
  deadlocks.
* **The semaphore wrapper** (`Semaphore*.dfy`). The three-member protocol as atomic
  kernel calls of any number of processes, each of which may die at any step.
* **The test shuffler** (`FullPeriod.dfy`, `Shuffle.dfy`). The full-period theorem
  for a linear congruential generator modulo a power of two, and the macro's loops
  on top of it.
* **The directory-watch cache** (`Inotify*.dfy`). The cache, the kernel's watches and
  the directory tree, each change the tree can undergo, the event loop, and runs of any
  number of changes.
* **The print spooler's job queue** (`JobList.dfy`, `Spooler.dfy`). The linked list
  against a sequence, and the threads over mutex and condition variable.
* **The dialer server and descriptor passing** (`Calld.dfy`, `Expect.dfy`,
  `FdPassing.dfy`). The lock table, the resumable search of the Systems file, the
  expect-string matcher, and the two-byte trailer protocol.

`Common.dfy` holds two definitions that several of the models share.

Conventions. Text is `seq<char>`; C integers are `int` with wrap-around, truncation
and limits written out where the code meets them. I/O results, process ids, the order
of a tree walk and the outcome of a print or a dial are parameters or free choices.
An error path that ends the process is a result value, such as `Died` or `Dumped`. Ghost
fields and ghost parameters carry what bytes and arrays stand for.

What is false of the code, and exactly when it is true:

* `sem_close` can remove a set that another process has open. `SemaphoreRaces.OpenSlipsIn`
  is a run where this happens. `SemaphoreRuns.RemovalRace`: among processes that do not close
  more than they open it happens if and only if some process completes `op_open` between the
  read of the counter and the removal and does not die before it. Without `sem_open` it
  cannot (`SemaphoreRuns.RemoveSafe`).
  `SemaphoreRaces.CloseTooMany` shows why closes beyond opens must be excluded, and
  `SemaphoreRuns.CheckFooled`, for every run, that the check takes a set in use for unused exactly
  when some process has closed it more often than it opened it.
* `expect_str` stops at the end of the first occurrence of its string exactly if the string is
  not empty: `Expect.Search`, with the input in `Expect.EmptyOverreads`.
* `send_err` to `recv_fd` fails exactly when a read ends inside the trailer:
  `FdPassing.ErrorComesThrough`.
* `db_store` can end the process after it has removed the old record. `DbLibrary.Db.Store`
  states exactly when, and what is then left; `DbRuns.StoreLosesOld` names the input, a key of
  1019 characters that is there already (`DbRuns.LongKeyFits`), stored again with data of another
  length, 99 characters or more.
* `db_nextrec` skips exactly the live records whose key is all blanks: `DbLibrary.ScanExact`,
  with the input in `DbRuns.ScanMissesBlank`.
* The comment in `apue2e/calld/request.c:68` says the cursor is -1 on every error. After a
  failure it is -1 exactly if the search did not end at a line without a device:
  `Calld.Server.Request`, with the input in `Calld.CursorAfterNoDevice`.
* The event loop adds -1 to its byte count after an interrupted read
  (`tlpi-dist/inotify/inotify_dtree.c:1127`). `InotifyWatcher.Sized` admits it, and
  `InotifyWatcher.Watcher.ProcessInotifyEvents` shows that it does no harm.

## Model

| member | source | states |
|---|---|---|
| `DbFormat.AtolPadDec` | apue2e/db/db.c:324-336 | A number printed in a fixed-width field reads back as itself. |
| `DbFormat.ParseBodyRoundTrip` | apue2e/db/db.c:372-416 | Splitting the text of any index record at its separators gives back key, data offset and data length. |
| `DbFormat.ReadBack` | apue2e/db/db.c:344-418 | Reading at an offset where a record was written recovers pointer, length, key, data offset and data length, for all values within limits. |
| `DbFormat.SameSizeSameLength` | apue2e/db/db.c:774 | Rewriting a record with a key of the same length has the same byte length, so nothing after it moves or is overwritten. |
| `DbFormat.LayoutExamples` | apue2e/db/db.c:576-585 | A record, a pointer and a length as they stand in the file, character by character. |
| `DbFormat.RecordExample` | apue2e/db/db.c:344-418 | The bytes written for one record, and what reading those bytes gives. |
| `DbFormat.PlacesCount` | apue2e/db/db.c:307-317 | Exchanging two characters of a key moves its sum by their difference times their distance. |
| `DbFormat.HashExamples` | apue2e/db/db.c:307-317 | "ab" and "ba" hash to 97 + 2 * 98 and 98 + 2 * 97 modulo 137, and a character above 127 counts as negative. |
| `DbFile.WritePtrOk` | apue2e/db/db.c:621-632 | Overwriting any pointer field leaves every record and every other pointer readable as before. |
| `DbFile.RewriteOk` | apue2e/db/db.c:568-614 | Overwriting a record with one of its own length leaves every other record and pointer as it was. |
| `DbFile.AppendOk` | apue2e/db/db.c:568-614 | A record written at the end joins the file; its offset was no pointer's and no record's. |
| `DbLists.ListUnique` | apue2e/db/db.c:260-301 | The pointers determine the list they form: acyclic lists from one head are equal. |
| `DbState.EmptySound` | apue2e/db/db.c:134-165 | 138 null pointers and a newline, with no data, are a sound database of the empty map. |
| `DbState.DeleteOk` | apue2e/db/db.c:464-525 | Unlinking, blanking and pushing on the free list keeps the free list and the 137 chains acyclic, disjoint and covering. |
| `DbState.DeleteSound` | apue2e/db/db.c:464-525 | After a delete the files stand for the map without that key, and data extents still tile the data file. |
| `DbState.UnfreeSound` | apue2e/db/db.c:755-807 | Taking a record off the middle of the free list loses no record and no value. |
| `DbState.ReuseSound` | apue2e/db/db.c:691-701 | Filling a freed record and linking it stands for the map with the new entry; no live extent is touched. |
| `DbState.GrowSound` | apue2e/db/db.c:677-690 | Appending data, then record, then link stands for the map with the new entry, and does so only after the link. |
| `DbState.OverwriteSound` | apue2e/db/db.c:734-740 | Overwriting data of equal length changes that key's value and no other. |
| `DbLibrary.Db.constructor` | apue2e/db/db.c:134-165 | A created database is sound and stands for the empty map. |
| `DbLibrary.Db.HashKey` | apue2e/db/db.c:307-317 | The loop in unsigned long arithmetic over signed characters computes the weighted sum of the key modulo 2^64, modulo 137. |
| `DbLibrary.Db.ReadPtr` | apue2e/db/db.c:324-336 | Reads the pointer the file holds at that place. |
| `DbLibrary.Db.ReadIdx` | apue2e/db/db.c:344-418 | Reads the record the file holds there into the DB structure and stands at the next one. |
| `DbLibrary.Db.ReadDat` | apue2e/db/db.c:425-434 | Returns the data without its newline. |
| `DbLibrary.Db.WritePtr` | apue2e/db/db.c:621-632 | Fails exactly beyond PTR_MAX; otherwise exactly that pointer changes. |
| `DbLibrary.Db.RewriteIdx` | apue2e/db/db.c:568-614 | Exactly that record changes. |
| `DbLibrary.Db.AppendIdx` | apue2e/db/db.c:568-614 | Fails exactly when the record's length is outside its limits; otherwise exactly one record joins. |
| `DbLibrary.Db.FindAndLock` | apue2e/db/db.c:260-301 | Succeeds exactly for keys of the map, standing at the key's record with the pointer that leads to it. |
| `DbLibrary.Db.Fetch` | apue2e/db/db.c:234-253 | Returns null exactly if the key is not in the map, and otherwise the map's value. |
| `DbLibrary.Db.DoDelete` | apue2e/db/db.c:464-525 | Soundness is kept, the map loses the key, and neither file changes length. |
| `DbLibrary.Db.MoveToFree` | apue2e/db/db.c:491-522 | The three index writes leave the image of a deletion. |
| `DbLibrary.Db.Delete` | apue2e/db/db.c:441-456 | Returns 0 if the key is in the map and -1 if not, with the files then untouched; the map loses the key and nothing else. |
| `DbLibrary.Db.FindFree` | apue2e/db/db.c:755-807 | Succeeds exactly if a free record of both sizes exists, and then holds the first of them on the free list, off the list. |
| `DbLibrary.Db.Append` | apue2e/db/db.c:677-690 | Succeeds exactly if the new record fits its limits; if not, the map is unchanged and the files survive. |
| `DbLibrary.Db.Reuse` | apue2e/db/db.c:691-701 | The map gains the entry in a record that was free. |
| `DbLibrary.Db.Store` | apue2e/db/db.c:640-748 | With flag 1, 2 or 3: returns 1 exactly for an insert of a key that is there, -1 exactly for a replacement of one that is not, and otherwise 0 with the map updated at that key alone; with another flag -1; whenever the code is not 0 the files are untouched. It dies exactly when an append cannot be made or the data length is out of bounds, and then the key is gone and all else stands. |
| `DbLibrary.Db.Rewind` | apue2e/db/db.c:815-829 | Stands at the first record. |
| `DbLibrary.Db.NextRec` | apue2e/db/db.c:838-877 | Returns the next record in file order whose key is not blank, which is live, with its value; the end exactly when none is left. |
| `DbLibrary.IsBlankKey` | apue2e/db/db.c:862-866 | True exactly for keys of blanks only. |
| `DbLibrary.ScanExact` | apue2e/db/db.c:838-877 | The entries of a scan are the map minus blank keys, each once. |
| `DbLibrary.ScanAll` | apue2e/db/db.c:815-877 | Rewind and nextrec to the end return exactly the pairs of the map whose key has some character other than a blank, each once, and change nothing. |
| `DbRuns.ApplyMeans` | apue2e/db/db.c:234-748 | The specification of one operation is, and is the only one that is, what the map answers: value or null, 0 or -1, and the three codes of a store, with every other key as it was. |
| `DbRuns.Perform` | apue2e/db/db.c:234-748 | One operation gives the map's answer and leaves the map's new contents, said in terms of the map; exactly which ones end the process. |
| `DbRuns.Run` | apue2e/db/db.c:234-748 | Any sequence of operations from the empty map on: each answer, and each step of the contents, is what the map says, and the files end up holding that map. |
| `DbRuns.LongKeyFits` | apue2e/db/db.c:568-614 | A key of 1019 characters can be stored with one character of data. |
| `DbRuns.StoreLosesOld` | apue2e/db/db.c:714-733 | In any database that holds a key of 1019 characters, storing it with data of another length, 99 characters or more, ends the process, with that record gone and every other there. |
| `DbRuns.ScanMissesBlank` | apue2e/db/db.c:862-866 | A live record whose key is all blanks is not in the scan, for every such key that can be stored. |
| `DbRuns.FilesDetermineMap` | apue2e/db/db.c:344-418 | The bytes of the two files stand for one map only. |
| `DbProcesses.LocksApart` | apue2e/db/db.c:270-283 | No two of the library's lock ranges share a byte. |
| `DbCommits.IdxAppendOk` | apue2e/db/db.c:592-613 | Appending an index record, between other processes' steps, keeps the whole invariant. |
| `DbCommits.LinkOk` | apue2e/db/db.c:685-700 | The last write of a store, which makes it take effect, keeps the whole invariant. |
| `DbAppends.FreeTakeOk` | apue2e/db/db.c:755-807 | Taking a record off the shared free list keeps the whole invariant. |
| `DbMoves.DelUnlinkOk` | apue2e/db/db.c:515-523 | The unlink that makes a deletion take effect keeps the whole invariant. |
| `DbTheorems.StepKeeps` | apue2e/db/db.c:234-874 | Every step of every process, whatever the others are doing, keeps the invariant. |
| `DbTheorems.RunKeeps` | apue2e/db/db.c:234-874 | It holds at every point of every interleaving. |
| `DbTheorems.RecordsPlaced` | apue2e/db/db.c:464-525 | In every interleaving each record is on exactly one of the free list, the chain of its key's hash, and one process's hand, except inside the delete that holds both locks; extents tile the data file. |
| `DbTheorems.Linearizable` | apue2e/db/db.c:234-748 | The effects form a legal run of a map, and every process has been answered as its effects were. |
| `DbTheorems.EffectUnderLock` | apue2e/db/db.c:260-301 | Each operation takes effect in one step of its own, while it holds its chain lock, shared if it is a fetch and exclusively if it is not. |
| `DbTheorems.LogPrefix` | apue2e/db/db.c:234-748 | Effects are never reordered or withdrawn. |
| `DbCalls.LogMeans` | apue2e/db/db.c:234-748 | In every legal log each effect takes the map before it to the map after it with its own answer, said in terms of the map; a process that dies in a store has removed at most that key. |
| `DbCalls.EffectsMeans` | apue2e/db/db.c:234-748 | The effects of a process are all of its events of the log, in order. |
| `DbCalls.CallOnce` | apue2e/db/db.c:234-748 | In every interleaving, every call has exactly one effect, after its invocation and before its return, and returns that effect's answer. |
| `DbCalls.FetchesTogether` | apue2e/db/db.c:270-283 | A fetch never waits for other fetches. |
| `DbTheorems.QuietFiles` | apue2e/db/db.c:234-748 | When no operation is under way the shared files hold exactly the map the effects define. |
| `DbTheorems.InnerNeverWaits` | apue2e/db/db.c:483-523 | Whoever holds the free list or an append lock waits for nothing. |
| `DbTheorems.WaitsInOrder` | apue2e/db/db.c:763-804 | A process waits for a chain with no lock, and for an inner lock with at most its chain's. |
| `DbTheorems.NoDeadlock` | apue2e/db/db.c:270-283 | While any process is at work some process can step. |
| `DbTheorems.RunNeverStuck` | apue2e/db/db.c:848-874 | The same in every run of fetch, store, delete and nextrec. |
| `FullPeriod.GeoDivides` | exercise/include/greatest.h:1095-1103 | For a = 1 mod 4, 2^k divides 1 + a + ... + a^(j-1) exactly when it divides j. |
| `FullPeriod.OrbitInjective` | exercise/include/greatest.h:1095-1103 | For a = 1 mod 4 and c odd, no state repeats within 2^k steps. |
| `FullPeriod.VisitsOnce` | exercise/include/greatest.h:1095-1103 | Every value below 2^k is visited within 2^k steps, at one step only. |
| `Shuffle.MaskIsMod` | exercise/include/greatest.h:1107 | Masking with a power of two less one is the remainder, bit by bit. |
| `Shuffle.WrapHarmless` | exercise/include/greatest.h:1107 | Wrap-around of unsigned arithmetic, at whatever width, does not change the masked state. |
| `Shuffle.StepFollowsOrbit` | exercise/include/greatest.h:1104-1109 | The wrapped, masked step is the step of the mathematical orbit. |
| `Shuffle.OrbitMeans` | exercise/include/greatest.h:1104-1109 | The states follow the recurrence from the seed's, modulo the power of two. |
| `Shuffle.VisitedMeans` | exercise/include/greatest.h:1104-1109 | The numbers visited are the states at exactly those times, in order, at which the state is below the count. |
| `Shuffle.PrimesOdd` | exercise/include/greatest.h:1079-1081 | Every increment the table can give is odd. |
| `Shuffle.VisitedAll` | exercise/include/greatest.h:1095-1103 | One period visits each number below the test count exactly once. |
| `Shuffle.Prng.InitSecondPass` | exercise/include/greatest.h:1078-1091 | For every seed: the state is its lower 29 bits, the multiplier four times that and one, the increment the table's entry at the scaled seed, the modulus the least power of two that reaches the count; so the multiplier is 1 mod 4 and the increment odd. |
| `Shuffle.Prng.Step` | exercise/include/greatest.h:1104-1109 | The loop ends, at the next state of the orbit below the count, skipping none. |
| `Shuffle.Prng.TestPre` | exercise/include/greatest.h:728-740 | Runs a matching test exactly if its number is the state. |
| `Shuffle.Prng.Pass` | exercise/include/greatest.h:665-680 | One evaluation of the body runs the one test whose number among the matching tests is the state. |
| `Shuffle.Prng.ShuffleTests` | exercise/include/greatest.h:665-680 | For every width of a long of 32 bits or more, every seed and every test list, each matching test runs exactly once, no other runs, the body is evaluated once more than there are tests, and the tests run in the order in which the states from that seed meet their numbers. |
| `Shuffle.FourTests` | exercise/include/greatest.h:665-680 | Four tests and the seed 1 run as the third, the fourth, the first and the second. |
| `Semaphore.LockArray` | apue2e/lib/semaph.c:49-54 | The lock array waits for 0 and sets 1, with an undo of -1. |
| `Semaphore.EndCreateArray` | apue2e/lib/semaph.c:56-61 | Counter and lock go down together or not at all, with their undo. |
| `Semaphore.CloseArray` | apue2e/lib/semaph.c:67-71 | Lock and counter go up together, only when the lock is free. |
| `Semaphore.ExitOk` | apue2e/lib/semaph.c:15-24 | The death of a process at any point keeps the invariant: the undo gives back its lock and its opens. |
| `Semaphore.OperateOk` | apue2e/lib/semaph.c:124-159 | Every semop keeps it. |
| `Semaphore.InitialiseOk` | apue2e/lib/semaph.c:138-153 | The two SETVALs keep it. |
| `Semaphore.StepKeeps` | apue2e/lib/semaph.c:89-253 | Every step of create, open, close, operation and removal, by any process, keeps it, and a counter once set stays set. |
| `SemaphoreValues.ShortMeans` | apue2e/lib/semaph.c:260-291 | The amount of a sem_op is its argument as a short; sem_wait is -1 and sem_signal is 1. |
| `SemaphoreValues.RunDoes` | apue2e/lib/semaph.c:89-291 | What every call does, in numbers: the three values, the undo record, the opens, the next call, and that nothing else changes; a sem_op adds its amount to the first value, a death gives back the undo record within the kernel's range. |
| `SemaphoreValues.EnabledMeans` | apue2e/lib/semaph.c:49-75 | Who sleeps: a sem_op exactly while the value and the amount are below 0, and each other call on the lock or the counter. |
| `SemaphoreValues.UndoIsWork` | apue2e/lib/semaph.c:73-80 | In every run, what a process would give back is the amounts of the sem_ops it has completed since the set was initialised. |
| `SemaphoreValues.ValueLaw` | apue2e/lib/semaph.c:138-153 | In every run, at every point, the user's value is the initial value, plus the amounts of the sem_ops completed by the processes alive, plus what the kernel has cut off at deaths to keep the value in range. |
| `SemaphoreValues.ValueSum` | apue2e/lib/semaph.c:255-291 | While no death is cut, the value is the initial value plus the amounts completed less those undone by deaths, so the processes never take more than the initial value and what they put. |
| `SemaphoreShapes.DebtStep` | apue2e/lib/semaph.c:222-247 | However many closes go unmatched, what processes owe a counter stays below BIGCOUNT: the check stops the close that would reach it. |
| `SemaphoreShapes.DebtRanged` | apue2e/lib/semaph.c:43-75 | So no counter can leave the range the kernel allows, whoever dies. |
| `SemaphoreRuns.RunKeeps` | apue2e/lib/semaph.c:89-253 | The invariant holds throughout every run with fewer than BIGCOUNT opens. |
| `SemaphoreRuns.MutualExclusion` | apue2e/lib/semaph.c:49-75 | The lock member is 0 or 1, is 1 exactly while a process is between lock and unlock, and never two are. |
| `SemaphoreRuns.HolderRuns` | apue2e/lib/semaph.c:105-162 | The process that holds the lock is never blocked in the kernel. |
| `SemaphoreRuns.Conservation` | apue2e/lib/semaph.c:15-24 | Counter plus current opens is BIGCOUNT once the counter is set; before that nobody has the set open. |
| `SemaphoreRuns.OnceCounted` | apue2e/lib/semaph.c:130-153 | A counter that is set stays set as long as the set exists. |
| `SemaphoreRuns.AbortIff` | apue2e/lib/semaph.c:243-247 | The counter exceeds BIGCOUNT at a close exactly when closes outnumber opens. |
| `SemaphoreRuns.NeverAborts` | apue2e/lib/semaph.c:243-247 | So the abort cannot fire if no process closes more than it opened. |
| `SemaphoreRuns.CheckFooled` | apue2e/lib/semaph.c:236-249 | In every run, when sem_close finds the counter at BIGCOUNT, some process has the set open if and only if some process has closed it more often than it opened it. |
| `SemaphoreRuns.ReinitSafe` | apue2e/lib/semaph.c:135-153 | The value and the counter are set only while no process has the set open, with or without sem_open. |
| `SemaphoreRuns.RemovalRace` | apue2e/lib/semaph.c:243-249 | When sem_close is about to remove a set, some process has it open if and only if one completed op_open after the counter was read and has not died since. |
| `SemaphoreRuns.CameToRemove` | apue2e/lib/semaph.c:243-249 | Whoever is about to remove a set found its counter at BIGCOUNT at an earlier step and has waited since. |
| `SemaphoreRuns.RemoveSafe` | apue2e/lib/semaph.c:232-249 | Without sem_open and without closes beyond opens, sem_close removes only what nobody has open. |
| `SemaphoreRaces.OpenSlipsIn` | apue2e/lib/semaph.c:188-194 | A run in which sem_close removes a set that sem_open has just opened. |
| `SemaphoreRaces.CloseTooMany` | apue2e/lib/semaph.c:222-253 | A run without sem_open in which a close without an open removes the set from under its user. |
| `InotifyCache.AgreesMeans` | tlpi-dist/inotify/inotify_dtree.c:179-184 | Agreement is equality of the sets of (descriptor, path) pairs, with no descriptor and no path twice. |
| `InotifyCache.UnderMeans` | tlpi-dist/inotify/inotify_dtree.c:605-608 | A path is in a subtree exactly if it is the directory's own, or the directory's with a slash and more. |
| `InotifyCache.AddAgrees` | tlpi-dist/inotify/inotify_dtree.c:309-318 | A new slot extends agreement by one directory. |
| `InotifyCache.RmdirAgrees` | tlpi-dist/inotify/inotify_dtree.c:806-818 | Emptying the slot of a directory that is gone, and its watch with it, restores agreement. |
| `InotifyCache.ZapAgrees` | tlpi-dist/inotify/inotify_dtree.c:627-674 | Zapping a subtree restores agreement with the tree without it; no other watch goes. |
| `InotifyCache.RewriteAgrees` | tlpi-dist/inotify/inotify_dtree.c:593-621 | Rewriting paths by prefix restores agreement with the renamed tree, watches unchanged. |
| `InotifyCache.RenameSplits` | tlpi-dist/inotify/inotify_dtree.c:593-621 | A rename is a move out and a move in: what lies at or under the new name afterwards is what lay at or under the old one, and the rest is untouched. |
| `InotifyCache.RenamedMeans` | tlpi-dist/inotify/inotify_dtree.c:593-621 | A rename, path by path: the directory has the new path, each path below it keeps what follows the slash, no other changes, none is lost and each keeps its i-node. |
| `InotifyCache.ChangeMeans` | tlpi-dist/inotify/inotify_dtree.c:765-956 | When each change can happen, and which paths are there after it, in written paths. |
| `InotifyCache.SiblingSpared` | tlpi-dist/inotify/inotify_dtree.c:606-608 | A sibling whose name only starts the same is neither rewritten nor zapped. |
| `InotifyWatcher.Watcher.AddWatch` | tlpi-dist/inotify/inotify_dtree.c:511-525 | An i-node has one watch, a new one a fresh descriptor. |
| `InotifyWatcher.Watcher.FindWatch` | tlpi-dist/inotify/inotify_dtree.c:230-238 | The first slot of the descriptor, or -1 exactly if there is none. |
| `InotifyWatcher.Watcher.FindEmptyCacheSlot` | tlpi-dist/inotify/inotify_dtree.c:283-305 | The first unused slot; the cache grows, by 200 unused slots, exactly when it has none. |
| `InotifyWatcher.Watcher.PathnameInCache` | tlpi-dist/inotify/inotify_dtree.c:323-339 | True exactly if a used slot has the path. |
| `InotifyWatcher.Watcher.AddWatchToCache` | tlpi-dist/inotify/inotify_dtree.c:309-318 | From agreement with part of the tree to agreement with one directory more. |
| `InotifyWatcher.Watcher.TraverseTree` | tlpi-dist/inotify/inotify_dtree.c:497-548 | Visiting a directory makes the cache agree with it too, and changes nothing if it did already. |
| `InotifyWatcher.Watcher.WatchDir` | tlpi-dist/inotify/inotify_dtree.c:555-573 | The cache comes to agree with the whole subtree, in whatever order it is walked: the directory and every directory whose path goes on from it with a slash. |
| `InotifyWatcher.Watcher.RewriteCachedPaths` | tlpi-dist/inotify/inotify_dtree.c:593-621 | Slot by slot: the old path becomes the new, old/rest becomes new/rest, and no other slot and no descriptor changes. |
| `InotifyWatcher.Watcher.ZapSubtree` | tlpi-dist/inotify/inotify_dtree.c:627-674 | Empties exactly the used slots with the path or with one that goes on from it with a slash, drops exactly their watches, and counts them; cannot fail if they are the kernel's. |
| `InotifyWatcher.Watcher.Reinitialize` | tlpi-dist/inotify/inotify_dtree.c:684-722 | From any cache and any watches, the cache agrees with the monitored tree: a directory is cached exactly if it is a root path or goes on from one with a slash. |
| `InotifyWatcher.Watcher.ZapRootDirPath` | tlpi-dist/inotify/inotify_dtree.c:464-481 | Exactly that root path goes, and the program ends exactly with its last. |
| `InotifyWatcher.Watcher.Created` | tlpi-dist/inotify/inotify_dtree.c:765-804 | After a mkdir or a rename in, agreement is restored. |
| `InotifyWatcher.Watcher.Deleted` | tlpi-dist/inotify/inotify_dtree.c:806-818 | After an rmdir, agreement is restored. |
| `InotifyWatcher.Watcher.MovedAway` | tlpi-dist/inotify/inotify_dtree.c:926-952 | After a subtree leaves, the cache agrees with the tree without it, with no rebuild, whether or not the subtree is elsewhere in the tree by now; a rebuild restores agreement in any case. |
| `InotifyWatcher.Watcher.MovedFrom` | tlpi-dist/inotify/inotify_dtree.c:895-956 | A rename within or out restores agreement; the event is held back exactly at the end of the buffer on the first try. |
| `InotifyWatcher.Watcher.ProcessNext` | tlpi-dist/inotify/inotify_dtree.c:731-1023 | For every legal change and the events announcing it, agreement is restored and exactly those events are consumed; an overflow or an unknown descriptor always rebuilds, after which agreement holds whatever came before; other events change nothing; an event is held back if and only if it is a rename's first half with a known descriptor, last in the buffer, and looked at for the first time; exactly the directory that departs leaves the root paths. It records what it handles, discards and holds back. |
| `InotifyWatcher.Watcher.ProcessInotifyEvents` | tlpi-dist/inotify/inotify_dtree.c:1036-1143 | By that record, every event read is handled once and in order, or discarded by a rebuild, or left in a call that waits or has ended; an event is held back at most once; a change alone, among the last events of dropped watches, leaves the cache in agreement, its events in one read or, for a rename, the second half in the read that follows; reading only such last events changes nothing; with names within NAME_MAX the program ends only with its last root path. |
| `InotifyWatcher.Watcher.ReadQuiet` | tlpi-dist/inotify/inotify_dtree.c:731-760 | Any number of reads of nothing but last events of dropped watches are handled and change nothing. |
| `InotifyWatcher.Watcher.LateRename` | tlpi-dist/inotify/inotify_dtree.c:1077-1139 | A rename whose second half comes after the timer, with the last events of dropped watches before either half and in reads between: zapped as a move out, then watched again as a move in; all events are handled and the cache agrees with the tree. |
| `InotifyRuns.AfterOk` | tlpi-dist/inotify/inotify_dtree.c:179-184 | Every legal change keeps i-nodes and watch descriptors unique. |
| `InotifyRuns.Follow` | tlpi-dist/inotify/inotify_dtree.c:1036-1143 | One change, its events read together, split, or late: agreement with the changed tree, and the root paths as the change leaves them. |
| `InotifyRuns.Monitor` | tlpi-dist/inotify/inotify_dtree.c:684-1143 | From a rebuild on, after any sequence of changes, each read before the next, the cache agrees with the tree those changes make, unless the last root path has gone. |
| `JobList.Pending.AddJob` | apue2e/ipp/printd.c:275-294 | The list stands for the old sequence with the job appended. |
| `JobList.Pending.ReplaceJob` | apue2e/ipp/printd.c:301-313 | The job is put before the old sequence. |
| `JobList.Pending.RemoveJob` | apue2e/ipp/printd.c:320-331 | The job is taken out, wherever it is; the rest keeps its order. |
| `JobList.Pending.TakeHead` | apue2e/ipp/printd.c:687-694 | Takes the head, exactly if there is one. |
| `JobList.Counter.GetNewJobno` | apue2e/ipp/printd.c:256-267 | Returns the next number; after the largest long comes 1, so numbers stay positive. |
| `JobList.NumberedStep` | apue2e/ipp/printd.c:256-267 | The k-th number after any start, in closed form, follows the counter step by step. |
| `JobList.NumbersDiffer` | apue2e/ipp/printd.c:256-267 | No number comes twice within as many jobs as there are positive longs. |
| `Spooler.AdderKeeps` | apue2e/ipp/printd.c:275-294 | Every step of add_job keeps the invariant. |
| `Spooler.AdderGoesOn` | apue2e/ipp/printd.c:275-294 | Every call of add_job takes the lock, links its own job once at the end, releases the lock, and then leaves the printer thread awake; nothing else adds a job. |
| `Spooler.PrinterKeeps` | apue2e/ipp/printd.c:683-833 | Every step of the printer thread keeps it, whatever becomes of the job. |
| `Spooler.FirstInFirstOut` | apue2e/ipp/printd.c:687-694 | In every run the jobs gone, the job in hand and the queue are the arrivals in order: none lost, doubled or overtaken by any deferral. |
| `Spooler.LeavesIff` | apue2e/ipp/printd.c:716-832 | In every run, an attempt frees its job if and only if the data file cannot be opened or its size not taken, or every call up to the end of the file succeeds and the printer accepts; otherwise the job goes back. |
| `Spooler.LeavesMeans` | apue2e/ipp/printd.c:716-832 | The attempts that free their job, call by call: one failed open; one failed fstat; or five good calls, pieces read and written in turn, the end of the file and the printer's yes. |
| `Spooler.GoneOnlySo` | apue2e/ipp/printd.c:716-832 | Nothing else makes a job leave: every job gone left in such an attempt, and no deferred attempt was one. |
| `Spooler.DeferredMeans` | apue2e/ipp/printd.c:730-832 | In every run an attempt that was put off had opened its file and taken its size, and failed in its last call only. |
| `Spooler.DeferredFirst` | apue2e/ipp/printd.c:818-832 | A deferred job is at the head of the queue during the nap, and whatever is tried is the first arrival not yet gone. |
| `Spooler.HistoryGrows` | apue2e/ipp/printd.c:818-832 | What has left stays left, and what was deferred stays recorded. |
| `Spooler.NoLostWakeup` | apue2e/ipp/printd.c:687-691 | The printer thread is never asleep with a job queued unless a thread has linked a job and not yet signalled. |
| `Spooler.NeverStuck` | apue2e/ipp/printd.c:687-694 | While a job has not left, some thread already running can step. |
| `Spooler.OneInside` | apue2e/ipp/printd.c:285-292 | The lock has one holder at most. |
| `Calld.OneLine` | apue2e/calld/lock.c:3-8 | In a sound table a process holds one line at most. |
| `Calld.DeviceFor` | apue2e/calld/devfile.c:59-71 | The first device of the entry's type and class, or none exactly if there is none. |
| `Calld.Server.FindLine` | apue2e/calld/lock.c:19-50 | The line's entry, added free if new; no holder changes and names stay unique. |
| `Calld.Server.LockSet` | apue2e/calld/lock.c:52-60 | Exactly that line is held by that process. |
| `Calld.Server.LockRel` | apue2e/calld/lock.c:62-75 | Exactly the line held for that process is freed. |
| `Calld.Server.IsLocked` | apue2e/calld/lock.c:77-81 | The line's holder; no holder changes. |
| `Calld.Server.SysNext` | apue2e/calld/sysfile.c:11-43 | The next entry, skipping only empty and comment lines; -1 exactly at the end; the lines passed are recorded as read, each once. |
| `Calld.Server.DevFind` | apue2e/calld/devfile.c:59-71 | The loop finds the first matching device. |
| `Calld.Server.Request` | apue2e/calld/request.c:3-69 | In the fields of the files: a child dials for the first line from the cursor on with the name, and with the class if a speed was asked for, whose first device is free, and only that line changes hands; "no device" at a line that has none; "not found" exactly when no line of the whole file has that name and class; otherwise all such lines are held, and no holder changes. After a failure the cursor is -1 exactly if the search did not end for want of a device. |
| `Calld.CursorAfterNoDevice` | apue2e/calld/request.c:22-69 | A one-line Systems file with no device for it: the cursor is left at 1. |
| `Calld.SpeedCounts` | apue2e/calld/request.c:19-21 | A system asked for at another speed than its only line's is not found though its device is free, and without a speed it is dialed. |
| `Calld.Server.DialChain` | apue2e/calld/loop.c:113-129 | Over a request and all its retries, whatever others do to the table, every line up to where the search ends is read exactly once and in file order; by the server's record the lines dialed have the name and the class asked for, climb, and are one for each try, so if no child connects the request ends after at most as many tries as the file has lines; "not found" exactly when none matches. |
| `Calld.Server.Ask` | apue2e/calld/loop.c:111-129 | Exactly the asking client changes; its search starts at the head of the file; it waits for the new child, to which one free line has gone, or it is disconnected and no line has changed hands. |
| `Calld.Server.ChildFailed` | apue2e/calld/loop.c:164-183 | Exactly the failed child's line is freed; then one free line goes to the next child, with the cursor further on, or the client is disconnected; only that client changes. |
| `Calld.Server.Closed` | apue2e/calld/loop.c:81-92 | Exactly the client's line is freed and exactly that client is marked gone. |
| `Calld.Server.Serve` | apue2e/calld/loop.c:36-138 | In every run of events line names stay unique and no two lines carry one process, and each event has exactly its own effect on the table and the clients: which client, which process is freed, and a grant of one free line or a disconnection; only a malformed line ends the server. |
| `Calld.TakenOnlyByRequest` | apue2e/calld/loop.c:111-129 | A line goes from free to held only in a request or its retry, only to that request's child, and no other line with it. |
| `Calld.LeftOnlyByOwner` | apue2e/calld/loop.c:81-92 | A line leaves its holder only when the client that the holder dialed for fails or goes. |
| `Expect.Convert` | apue2e/calld/expectstr.c:46-70 | The loop computes the string with its escapes converted, failing exactly on a wrong escape. |
| `Expect.UnescapeText` | apue2e/calld/expectstr.c:46-72 | The converted string holds no NUL, is no longer than the original, and is empty only if that is. |
| `Expect.EscapeExamples` | apue2e/calld/expectstr.c:46-70 | The two escapes, and three strings that are wrong. |
| `Expect.SkipTo` | apue2e/calld/expectstr.c:78-81 | Stops at the first character that could start the string. |
| `Expect.Fill` | apue2e/calld/expectstr.c:82-88 | The buffer holds the characters from there, if there are enough. |
| `Expect.Slide` | apue2e/calld/expectstr.c:89-96 | The window stops at the first occurrence, or says why not. |
| `Expect.Search` | apue2e/calld/expectstr.c:77-96 | In characters: the string stands where reading stopped and nowhere before; or nowhere in the stream; or nowhere within 4096 characters of the first that could start it, and there are more. This holds if and only if the string is not empty; the empty string reads past the first NUL. |
| `Expect.ExpectStr` | apue2e/calld/expectstr.c:32-102 | The same for the given string, with the special case of two quotes and the escape errors. |
| `Expect.FoundAtFirstEnd` | apue2e/calld/expectstr.c:77-96 | A string that occurs within reach is found, and nothing past its first occurrence is read. |
| `Expect.EmptyOverreads` | apue2e/calld/expectstr.c:78-81 | For the empty string the search always reads too far. |
| `FdPassing.Status` | apue2e/lib/sendfd.c:29-35 | The status is the low byte of the negated code, a zero low byte becoming 1. |
| `FdPassing.SendFd` | apue2e/lib/sendfd.c:16-50 | The two bytes of the trailer, and the descriptor that goes with them. |
| `FdPassing.SendErr` | apue2e/lib/senderr.c:8-24 | Writes the message and the trailer of the code, -1 for a code that is not negative. |
| `FdPassing.ScanBuffer` | apue2e/lib/recvfd.c:51-65 | A NUL is accepted only as the last byte but one. |
| `FdPassing.RecvFd` | apue2e/lib/recvfd.c:18-71 | The loop over reads computes the reception of the whole sequence of reads. |
| `FdPassing.ReceptionMeans` | apue2e/lib/recvfd.c:18-71 | For every sequence of reads: the bytes of the reads without a NUL go to the callback; the stream may end there; else the first read with a NUL decides, by where it is, by the status byte, and by whether a descriptor came. |
| `FdPassing.Delivery` | apue2e/lib/recvfd.c:46-70 | Any chunking that does not split the trailer delivers exactly the message and the status or descriptor; one that does ends in the format error. |
| `FdPassing.DescriptorComesThrough` | apue2e/lib/sendfd.c:16-50 | The trailer that send_fd writes, with its descriptor, is received as that descriptor. |
| `FdPassing.ErrorComesThrough` | apue2e/lib/senderr.c:8-24 | send_err then recv_fd delivers the message and the negated status if and only if no read ends inside the trailer. |

## Left out

- The database's `db_open` other than the creation of an empty database, `_db_alloc`,
  `_db_free`, the statistics counters, and failed or short system calls.
- The model of several processes works on records and texts. That an access reads and writes
  them as bytes, and touches no neighbour, is stated for one process by `DbFile`.
- `db_nextrec` while other processes store: only its locking is part of the concurrent
  model; what it returns is stated for a database at rest.
- Processes that share an open database by fork, and the contents of the DB structure
  between calls.
- Shuffle.Prng.ShuffleTests: a run that a failure aborts, and a nested shuffle of suites.
- The kernel's limit on adjustment values (a failed semop ends the process, which the model
  allows at any point), and semaphore ids inherited over fork.
- InotifyWatcher.Watcher.ProcessNext: paths longer than PATH_MAX, renames onto an existing
  directory, nested root paths, and a tree that changes while an event is handled.
- InotifyWatcher.Watcher.ProcessInotifyEvents: agreement is stated for changes that are each read
  before the next; of the events of several changes in one buffer only the handling and the
  order are stated.
- Logging, the consistency check, and the interactive commands of the directory monitor.
- The printer thread's reread of its configuration and the creation of job files.
- The spooler's worker list, whose insertion does not keep the list intact; HTTP and IPP
  traffic; job numbers across restarts.
- The reuse of client entries in the dialer, which keeps a stale process id; terminal
  setup, chat time-outs and debug output; the text format of the Systems and Devices files
  below the level of fields.
- Expect.ExpectStr: reads that fail or time out are the end of the stream.
- FdPassing.RecvFd: a callback that refuses bytes.
- The assertions, reporting and option parsing of the test header.
- All other programs of the repository, which are thin demonstrations of system calls.
