# Verified models of apue and musl algorithms

This project models, in Dafny, the algorithms of the repository that carry the most
state, and proves what they are for. Each part is a model of one source file or of
one algorithm in it; the files are checked together (`dafny verify dfyconfig.toml`).

**The on-disk hash database** (`apue.3e/db/db.c`). `Codec` is the text of pointers and
records, `Tiles` and `Layout` are byte files made of consecutive records, `DbFiles`
says which bytes an image of the database has, `DbChains` which chains and which map
an image has, and `Db` is the class with the fields of the source's `DB` structure and
its functions as methods. `DbSpec` is the plain map, `DbSpace` tells from the calls
alone which of them ends the process, and `DbRuns` serves sequences of calls. `DbLocks`,
`DbLocksInv`, `DbLocksSteps`, `DbLocksWrites` and `DbLocksRuns` are the same functions as a
transition system over any number of processes, one step per lock or file access.

**The reference-counted table** (`apue.3e/threads/mutex2.c`, `mutex3.c`). `RefTable` is
the two-lock version as a transition system over any number of threads, with freed
memory handed out again; `CoarseTable` is the one-lock version as a class; `RefSpec`
is the atomic table that both are proved against.

**The dynamic linker** (`musl/ldso/dynlink.c`). `CtorQueue` orders constructors,
`BfsDeps` lists dependencies, `CtorProtocol` runs constructors and destructors in many
threads, `SymHash` and `SymLookup` find symbols, `Tls` places thread-local storage,
`Relr` applies packed relocations.

**The others.** `SemSet` is the life of a semaphore set with crashes, `JobQueue` the
print queue, `TreeWalk` the file tree walk in one path buffer, `Merge` the merge of
sorted runs.

## Findings

* A record whose key contains the separator `:` cannot be read back: the round trip
  holds if and only if the key has none (`Codec.RecordRoundTrip`). `db_store` accepts such
  a key all the same, and from then on every call whose key hashes to the same chain ends
  the process (`DbSpace.SeparatorKills`), as does reading in file order (`DbRuns.ListAll`).
* `db_nextrec` skips a live record whose key is all blanks, and no other
  (`DbRuns.ListingIsContents`; `DbRuns.StoreBlankKey` is an input).
* A call ends the process exactly under the condition `DbSpace.Dies`, which is a function
  of the calls made so far. `DbRuns.Serve` shows that a run ends at the first such call and
  nowhere else, and that a run that is `DbSpace.Roomy` beforehand comes to its end.
* `sem_create` starts again only on `EINVAL`. A process that sleeps on the lock while
  the set is removed gets `EIDRM` and dies (`SemSetRuns.RemovedWhileAsleep` is such a
  run); `SemSetRuns.StepSound` shows that no other error exit of `sem_create` and
  `sem_close` is ever taken.
* With exactly `BIGCOUNT` attachments, and only then, `sem_create` takes a set in use
  for a new one (`SemSetRuns.TestIsRight`; `SemSetRuns.TakenForNew` is a run that comes to
  it, and to a counter that says nobody is attached).
* `find_sym2` looks at one symbol of a name per object, the first in table order. An
  object that defines the name is passed over if and only if that first symbol is not
  acceptable and a later one is (`SymLookup.PassedOver`; `SymLookup.EclipsedWitness` is an
  object).
* In `merge`, `LONG_MAX` marks a used-up run. Every element is taken from inside its own run
  if and only if no run but run 0 holds `LONG_MAX`. In general the output ends with as many
  elements as there are such `LONG_MAX`, read again behind the end of run 0, and it is a
  sorted permutation if and only if those elements are `LONG_MAX` too (`Merge.MergeRuns`;
  `Merge.MarkIsLost` is an input). The program itself fills the runs from `random()`, which
  stays far below `LONG_MAX` where `long` has 64 bits.

## Model

| member | source | states |
|---|---|---|
| `Codec.AtolPadded` | apue.3e/db/db.c:332-348 | reading a right-justified decimal field gives back the number written |
| `Codec.PtrFieldLength` | apue.3e/db/db.c:648-661 | a pointer up to PTR_MAX fills its field exactly |
| `Codec.BodyFields` | apue.3e/db/db.c:591-610 | the length field of an index record reads as the length of the part that follows it |
| `Codec.RecordRoundTrip` | apue.3e/db/db.c:388-437 | parsing a written record gives key, offset and length back if and only if the key has no separator; otherwise it is the "too many separators" error |
| `Codec.RewriteKeepsLength` | apue.3e/db/db.c:522-527 | a record rewritten with a key of the same length, same offset and data length has the same number of bytes and fits when the old one did |
| `DbHash.HashKey` | apue.3e/db/db.c:317-325 | the loop yields the chain number: the position-weighted sum of signed characters, wrapped at 2^64, modulo the table size |
| `DbFiles.RecordReads` | apue.3e/db/db.c:351-391 | at a record's offset the file has its pointer, a length field that reads as its length, and its variable part |
| `DbFiles.PtrReads` | apue.3e/db/db.c:332-348 | every pointer cell, of the table or of a record, reads as the pointer of the image |
| `DbFiles.DataReads` | apue.3e/db/db.c:444-459 | a record's data extent holds its data and a newline |
| `DbFiles.FilesTiled` | apue.3e/db/db.c:591-641 | index records tile the index file from the end of the hash table to its end, data records tile the data file from 0 to its end |
| `DbFiles.OrderDistinct` | apue.3e/db/db.c:619-641 | no record occurs at two places of the file order |
| `DbFiles.PtrWrites` | apue.3e/db/db.c:648-661 | writing a pointer field in place changes that pointer of the image and nothing else |
| `DbFiles.IndexWrites` | apue.3e/db/db.c:591-641 | rewriting an index record in place with a key of the same length changes that record only, and no file length |
| `DbFiles.DataWrites` | apue.3e/db/db.c:550-584 | overwriting a data record with one of equal length changes that record only |
| `DbFiles.RecordAppends` | apue.3e/db/db.c:702-715 | appending to both files adds one record at the old ends |
| `DbFiles.CreatedHolds` | apue.3e/db/db.c:148-166 | 138 zero pointers and a newline are the image without records |
| `DbChains.OnOneList` | apue.3e/db/db.c:500-543 | every record is at exactly one place of exactly one list: blank on the free list, or live on the chain of its key |
| `DbChains.DeleteInv` | apue.3e/db/db.c:483-544 | blanking a record and moving it to the free list takes exactly its key out of the map and keeps all chains |
| `DbChains.ReuseInv` | apue.3e/db/db.c:716-725 | rewriting a record taken from the free list and linking it first adds exactly the new pair |
| `DbChains.AppendInv` | apue.3e/db/db.c:702-715 | linking an appended record first adds exactly the new pair |
| `DbChains.Overwrite` | apue.3e/db/db.c:759-765 | overwriting data in place changes exactly that key's value |
| `DbChains.CreatedInv` | apue.3e/db/db.c:148-166 | a created database holds the empty map on empty chains |
| `Db.Db.constructor` | apue.3e/db/db.c:148-173 | the created files hold the empty map |
| `Db.Db.ReadPtr` | apue.3e/db/db.c:332-348 | reads the pointer of a cell of the image |
| `Db.Db.ReadIdx` | apue.3e/db/db.c:351-438 | loads a record's fields and its next pointer; reports the end of the file at the end only; ends the process exactly at a key with a separator |
| `Db.Db.ReadDat` | apue.3e/db/db.c:444-459 | returns the data of the loaded record |
| `Db.Db.WriteDat` | apue.3e/db/db.c:550-584 | writes data and newline at the given place or at the end, and remembers offset and length |
| `Db.Db.WriteIdx` | apue.3e/db/db.c:591-642 | writes a record at the given place or at the end; fails exactly when pointer or length is out of range |
| `Db.Db.WritePtr` | apue.3e/db/db.c:648-661 | changes one pointer; fails exactly when it is out of range |
| `Db.Db.FindAndLock` | apue.3e/db/db.c:271-312 | ends the process if and only if the first record of the key's chain has a separator in its key; otherwise finds the key's record and the cell before it if and only if the map has the key |
| `Db.Db.DoDelete` | apue.3e/db/db.c:483-544 | takes exactly the found key out of the map, adds its sizes to those of the free list, and keeps the invariant |
| `Db.Db.FindFree` | apue.3e/db/db.c:780-833 | takes off the free list a record of exactly these lengths if and only if there is one, and no other |
| `Db.Db.Reuse` | apue.3e/db/db.c:716-725 | stores the pair, for any key, in the record taken from the free list; a key with a separator makes its chain unreadable |
| `Db.Db.Append` | apue.3e/db/db.c:702-715 | stores the pair, for any key, in a new record; fails exactly when the formats have no room for it; the files grow by exactly that record |
| `Db.Db.StoreNew` | apue.3e/db/db.c:688-726 | adds the pair to the map whichever path is taken, or fails exactly when none is possible |
| `Db.Db.StoreAnew` | apue.3e/db/db.c:739-758 | deletes the found record and appends one for the same key; the map has the new value and the free list the old sizes |
| `Db.Db.StoreOver` | apue.3e/db/db.c:727-766 | replaces the value whichever path is taken, or fails exactly when an append is needed and has no room |
| `Db.Db.Fetch` | apue.3e/db/db.c:246-265 | ends the process if and only if the key's chain cannot be read; else returns the map's value, or null if and only if the key is not in the map |
| `Db.Db.Delete` | apue.3e/db/db.c:461-477 | ends the process if and only if the key's chain cannot be read; else removes exactly that key, and the return code says whether it was there |
| `Db.Db.Store` | apue.3e/db/db.c:667-774 | for every key and data ends the process if and only if Dies: data of a wrong length, an unreadable chain, or no room for an append; else contents and return code are the plain map's under the flag; only a failed append writes before it dies |
| `Db.Db.Rewind` | apue.3e/db/db.c:840-854 | goes to the first record |
| `Db.Db.NextRec` | apue.3e/db/db.c:862-905 | returns the next record in file order whose key is not blank, or null at the end; ends the process exactly when that key has a separator |
| `DbRuns.ServeOne` | apue.3e/db/db.c:246-774 | a call ends the process exactly when Dies says so, and else answers as the plain map does |
| `DbRuns.Serve` | apue.3e/db/db.c:246-774 | any sequence of calls gets exactly the replies of a plain map up to the first call that ends the process, which is the first that DiesAt names from the calls alone; a sequence that is Roomy beforehand is answered to its end |
| `DbSpace.RoomyRuns` | apue.3e/db/db.c:591-774 | with no unreadable chain, data lengths in range, keys that fit and have no separator, and file lengths that stay within PTR_MAX with all records added, no call of a run ends the process |
| `DbSpace.SeparatorKills` | apue.3e/db/db.c:406-425 | once a new key with a separator is stored, every later call on its chain ends the process, whatever happens in between |
| `DbRuns.ListingIsContents` | apue.3e/db/db.c:840-905 | the file order lists the pairs with a key that is not blank, each once, and nothing else |
| `DbRuns.ListAll` | apue.3e/db/db.c:840-905 | rewinding and reading to the end yields that listing and changes nothing; the process ends if and only if some chain is unreadable, at the first key with a separator |
| `DbRuns.StoreBlankKey` | apue.3e/db/db.c:883-892 | a blank key stored in a new database is in the map and is not listed |
| `DbLocksInv.InitialSound` | apue.3e/db/db.c:148-166 | a created database with idle processes meets the invariant of all interleavings |
| `DbLocksWrites.DelDataSound` | apue.3e/db/db.c:504-507 | blanking the data under the chain lock keeps the invariant |
| `DbLocksWrites.DelHeadSound` | apue.3e/db/db.c:529-532 | putting the record on the free list before bypassing it keeps the invariant |
| `DbLocksWrites.DelChainSound` | apue.3e/db/db.c:534-543 | bypassing the record on its chain keeps the invariant |
| `DbLocksWrites.FreeTakeSound` | apue.3e/db/db.c:804-817 | taking a record off the free list makes it private to the process |
| `DbLocksWrites.DatWriteSound` | apue.3e/db/db.c:553-584 | appending data under the append lock disturbs no other process |
| `DbLocksWrites.IdxWriteSound` | apue.3e/db/db.c:607-642 | appending a record under the append lock makes it private to the process |
| `DbLocksRuns.StepSound` | apue.3e/db/db.c:285-307 | every step of every process at every point reads only what exists and keeps the invariant |
| `DbLocksRuns.RunSound` | apue.3e/db/db.c:246-833 | so does every state of every interleaved run |
| `DbLocksRuns.OnePlace` | apue.3e/db/db.c:500-543 | in every interleaving a record is at one place of one list, or with the one process that has taken it, never both |
| `DbLocksRuns.Linearizable` | apue.3e/db/db.c:271-312 | the finished calls of any run, in the order of unlocking their chains, are a history of a plain map with exactly its replies |
| `DbLocksRuns.Quiescent` | apue.3e/db/db.c:522-543 | when nobody is in a call, the pointers in the file are those of an image that satisfies the sequential invariant for that map |
| `DbLocksRuns.LockOrder` | apue.3e/db/db.c:497-502 | a waiting process holds no lock or only a chain lock: chain first, then one of free list and append locks |
| `DbLocksRuns.NoDeadlock` | apue.3e/db/db.c:285-307 | while a process is in a call, some process can take a step |
| `RefSteps.CountedSound` | apue.3e/threads/mutex2.c:43-45 | changing a count and its own references under f_lock disturbs no other thread |
| `RefLinks.LinkedSound` | apue.3e/threads/mutex2.c:30-34 | linking a new object first keeps the invariant |
| `RefLinks.UnlinkedSound` | apue.3e/threads/mutex2.c:77-88 | removing the object, found first or later on its list, keeps the invariant |
| `RefLinks.FreedSound` | apue.3e/threads/mutex2.c:88-91 | freeing it keeps the invariant: no other thread knows it |
| `RefRuns.ReleRetests` | apue.3e/threads/mutex2.c:67-76 | after the window the recheck decides rightly between a decrement and the removal |
| `RefRuns.StepSound` | apue.3e/threads/mutex2.c:19-96 | every step is safe and keeps the invariant; a call takes effect once, as its atomic operation, and returns what that gives |
| `RefRuns.RunSound` | apue.3e/threads/mutex2.c:19-96 | in every run no thread's next step touches a freed object or unlocks what it does not hold |
| `RefRuns.CountsAreReferences` | apue.3e/threads/mutex2.c:11-17 | in every run f_count is the number of references held |
| `RefRuns.LeavesWithLast` | apue.3e/threads/mutex2.c:63-96 | an object leaves the table in exactly the step that releases its last reference |
| `RefRuns.Linearizable` | apue.3e/threads/mutex2.c:19-96 | in every run the calls that have taken effect, applied one after another to the atomic table, give the same results and the same table |
| `RefRuns.LockOrder` | apue.3e/threads/mutex2.c:67-69 | hashlock is never awaited with an f_lock held, nor one f_lock with another |
| `RefRuns.NoDeadlock` | apue.3e/threads/mutex2.c:19-96 | while a thread is in a call, some thread can take a step |
| `RefRuns.Quiescent` | apue.3e/threads/mutex2.c:19-96 | with no call under way no lock is held and every allocated object is in the table |
| `CoarseTable.OneLockTable.constructor` | apue.3e/threads/mutex3.c:7-8 | the table starts empty |
| `CoarseTable.OneLockTable.Alloc` | apue.3e/threads/mutex3.c:18-38 | is the atomic operation on the table |
| `CoarseTable.OneLockTable.Hold` | apue.3e/threads/mutex3.c:40-45 | is the atomic operation on the table |
| `CoarseTable.OneLockTable.Find` | apue.3e/threads/mutex3.c:47-60 | is the atomic operation, with the first object of the slot that has the id, or null |
| `CoarseTable.OneLockTable.Rele` | apue.3e/threads/mutex3.c:62-82 | is the atomic operation: one reference less, or off its list and freed with the last |
| `CtorQueue.Linker.Deepen` | musl/ldso/dynlink.c:1553-1563 | the inner loop ends, keeps path and queue apart in the one buffer, and stops at a DSO with no unseen dependency |
| `CtorQueue.Linker.Pop` | musl/ldso/dynlink.c:1552-1565 | one round queues one more DSO behind its dependencies |
| `CtorQueue.Linker.Walk` | musl/ldso/dynlink.c:1544-1565 | the walk ends in a buffer bounded by what can be reached, with the order below |
| `CtorQueue.Linker.QueueCtors` | musl/ldso/dynlink.c:1510-1577 | yields, null-terminated, each reachable DSO exactly once, every direct dependency before its dependent unless it reaches it, marks cleared |
| `CtorQueue.Emit` | musl/ldso/dynlink.c:1554-1564 | a DSO is queued only when each dependency is queued or is on the path and so reaches it |
| `CtorQueue.Room` | musl/ldso/dynlink.c:1517-1529 | stack, current DSO and queue together stay below any bound on what can be reached |
| `BfsDeps.Lister.AppendNew` | musl/ldso/dynlink.c:1344-1348 | appends exactly the unlisted dependencies of an entry, inside the counted capacity, also when the entry is the DSO itself |
| `BfsDeps.Lister.Extend` | musl/ldso/dynlink.c:1327-1350 | counting, enlarging and appending keep the listing and its marks |
| `BfsDeps.Lister.ExtendBfs` | musl/ldso/dynlink.c:1305-1354 | ends, with the direct dependencies as prefix, nothing appended twice, exactly what is reachable in one or more steps, marks clear |
| `CtorProtocolRuns.StepSound` | musl/ldso/dynlink.c:1579-1617 | every step of every thread keeps the protocol's invariant |
| `CtorProtocolRuns.RunSound` | musl/ldso/dynlink.c:1579-1617 | so does every run |
| `CtorProtocolRuns.StartsDiffer` | musl/ldso/dynlink.c:1589-1591 | over any run, threads and nesting, no DSO's constructors start twice |
| `CtorProtocolRuns.EarlierDone` | musl/ldso/dynlink.c:1586-1591 | a DSO is started only when every earlier one of the queue is constructed, or being constructed by the same thread |
| `CtorProtocolRuns.DependenciesFirst` | musl/ldso/dynlink.c:1510-1617 | with queues from queue_ctors this covers every direct dependency that does not depend back |
| `CtorProtocolRuns.FiniOnce` | musl/ldso/dynlink.c:1593-1597 | the fini list holds each DSO at most once, in reverse order of starts |
| `CtorProtocolRuns.DestructorOrder` | musl/ldso/dynlink.c:1469-1497 | destructors run only for constructed DSOs, once each, in reverse order of starts |
| `CtorProtocolRuns.DestructorsAll` | musl/ldso/dynlink.c:1482-1485 | none is left out, except a DSO from inside whose constructor the exit came |
| `SymHash.SysvHash` | musl/ldso/dynlink.c:235-244 | the hash that clears its top bits only at the end is the one of the System V gABI |
| `SymHash.GnuHash` | musl/ldso/dynlink.c:246-253 | the loop yields the GNU hash modulo 2^32 |
| `SymLookup.SysvLookup` | musl/ldso/dynlink.c:255-267 | returns the first visible symbol of the name in chain order, or 0 |
| `SymLookup.GnuLookup` | musl/ldso/dynlink.c:269-288 | returns the first visible symbol of the name in bucket order, or 0 |
| `SymLookup.GnuLookupFiltered` | musl/ldso/dynlink.c:290-300 | returns that same symbol: the filter turns away none that is in the table |
| `SymLookup.FirstMatchScanned` | musl/ldso/dynlink.c:255-300 | the first match in table order is 0 if and only if a scan of the hashed symbols finds no visible one of the name |
| `SymLookup.Lookup` | musl/ldso/dynlink.c:320-325 | returns the first match in table order for whichever table the object has |
| `SymLookup.FindSym` | musl/ldso/dynlink.c:312-341 | returns the first object in scope order whose first match in table order is acceptable, with that match, for any mix of tables |
| `SymLookup.PassedOver` | musl/ldso/dynlink.c:326-336 | an object that defines the name is passed over if and only if its first match in table order is not acceptable and a later one is |
| `SymLookup.UnambiguousTakes` | musl/ldso/dynlink.c:326-336 | an object with at most one visible symbol of the name is taken if and only if it defines the name |
| `SymLookup.EclipsedWitness` | musl/ldso/dynlink.c:255-267 | an object with an undefined symbol before a definition on one chain, which is passed over |
| `Powers.MaxByMasks` | musl/ldso/dynlink.c:42-42 | MAXP2 is the larger of two powers of two |
| `Powers.MaskOfWord` | musl/ldso/dynlink.c:1233-1239 | the mask of a 64-bit word with a power of two less one is the remainder, whatever has been subtracted in the word |
| `Tls.Layout.PlaceApp` | musl/ldso/dynlink.c:1925-1938 | the first block is congruent to its image, in both layouts and for any gap above the thread pointer |
| `Tls.Layout.Place` | musl/ldso/dynlink.c:1229-1241 | after any number of loads all blocks are disjoint, congruent to their images, and their alignments divide the common one |
| `Tls.AlignedAddress` | musl/ldso/dynlink.c:1231-1241 | with an aligned thread pointer every block is aligned like its image |
| `Tls.RowsApart` | musl/ldso/dynlink.c:1242-1244 | the vectors of all threads are word-aligned, disjoint, behind the name and before the copies |
| `Tls.CopiesApart` | musl/ldso/dynlink.c:1207-1214 | the copies of all threads are congruent to the image, disjoint, and inside the allocation |
| `Tls.InstallCopies` | musl/ldso/dynlink.c:1668-1681 | the loop over threads computes those copies |
| `Relr.Image.DoBitmap` | musl/ldso/dynlink.c:571-577 | adds the base once per set bit, stopping at the last one |
| `Relr.Image.DoRelr` | musl/ldso/dynlink.c:562-578 | memory is the old one with the base added once for each address of the list expanded entry by entry |
| `Relr.RelocatedWord` | musl/ldso/dynlink.c:562-578 | word by word: the new value is the old one plus the base times the occurrences in the list, and a word that is not named is unchanged |
| `SemSetRuns.ExitSound` | apue.3e/lib/semaph.c:50-76 | the exit of a process at any point keeps the invariant: lock and attachments are undone |
| `SemSetRuns.StepSound` | apue.3e/lib/semaph.c:90-173 | every step keeps the invariant, and the only error exit taken is that of a process asleep on a removed set |
| `SemSetRuns.RunSound` | apue.3e/lib/semaph.c:90-173 | in every run with fewer than BIGCOUNT attachments the counter of an initialised set is BIGCOUNT less the attachments |
| `SemSetRuns.LockIsCritical` | apue.3e/lib/semaph.c:50-62 | the lock member is 1 exactly when one process is in its critical section |
| `SemSetRuns.OnlyUnused` | apue.3e/lib/semaph.c:140-162 | members are initialised, and the set is removed, only while nobody is attached |
| `SemSetRuns.TestIsRight` | apue.3e/lib/semaph.c:130-140 | the counter tells a new set from one in use if and only if not exactly BIGCOUNT are attached |
| `SemSetRuns.CriticalGoesOn` | apue.3e/lib/semaph.c:164-170 | inside the critical section no call blocks |
| `SemSetRuns.TakenForNew` | apue.3e/lib/semaph.c:130-159 | a run of BIGCOUNT attachments after which sem_create initialises the set in use, so that its counter says nobody is attached |
| `SemSetRuns.RemovedWhileAsleep` | apue.3e/lib/semaph.c:114-128 | a run without crashes in which sem_create fails because the set is removed while it sleeps |
| `JobQueue.JobList.Add` | apue.3e/printer/printd.c:297-315 | head, tail, next and prev spell the old list followed by the job |
| `JobQueue.JobList.Replace` | apue.3e/printer/printd.c:322-333 | they spell the job followed by the old list |
| `JobQueue.JobList.Remove` | apue.3e/printer/printd.c:340-351 | they spell the list without that job, wherever it was |
| `JobQueue.RunSound` | apue.3e/printer/printd.c:683-866 | in every interleaving the jobs added are those ended, the one in hand and the list, in order; and the printer sleeps on a list that is not empty only with a signal to come |
| `TreeWalk.Walker.Reserve` | apue.3e/filedir/ftw8.c:92-99 | one doubling leaves room for a slash, any name and a terminator |
| `TreeWalk.Walker.DoPath` | apue.3e/filedir/ftw8.c:74-129 | makes the preorder calls of the tree at the path, cut at the first result that is not 0, returns that result, and keeps the path in the shared buffer |
| `TreeWalk.Walker.DoDir` | apue.3e/filedir/ftw8.c:92-129 | the same for the entries of a directory; an unreadable one is reported with a slash |
| `TreeWalk.MyFtw` | apue.3e/filedir/ftw8.c:52-65 | the whole walk, from a starting path of any length |
| `TreeWalk.CountersSum` | apue.3e/filedir/ftw8.c:131-170 | the counters add up to the calls for directories and for files of the six kinds |
| `TreeWalk.CountTree` | apue.3e/filedir/ftw8.c:24-26 | the whole program: the counters add up to the directories and the files of the six kinds in the tree |
| `Merge.Least` | apue.3e/threads/barrier.c:60-67 | picks, inside its run, a first remaining element that is not above any other and below LONG_MAX; run 0 exactly when there is none |
| `Merge.MoveLeast` | apue.3e/threads/barrier.c:59-70 | a round reads outside its run if and only if no more elements are left to write than LONG_MAX occurs outside run 0 |
| `Merge.SortsWhen` | apue.3e/threads/barrier.c:59-70 | the output is a sorted permutation if and only if the elements read behind the end of run 0 are LONG_MAX |
| `Merge.MergeRuns` | apue.3e/threads/barrier.c:54-71 | for any number of runs of equal length and any values: the output is sorted and holds all elements but the LONG_MAX outside run 0, then repeats as many elements from behind run 0; no read leaves the array |
| `Merge.MarkIsLost` | apue.3e/threads/barrier.c:54-71 | the runs 1 2 and 3 LONG_MAX give 1 2 3 3 |

## Left out

- Real I/O, locking and allocation calls: files, locks, semaphores and memory are state of the model, and each call is an assumed atomic step; malloc does not fail.
- The failure exits of the database: after err_dump nothing is promised about the files.
- `db_open` beyond the files of a new database, `db_close`, and the statistics counters.
- Overflow of `int` in the hash's products of character and position, and of `off_t` in `atol`.
- In `_db_dodelete` and `_db_writeidx` the key argument may be the index buffer itself; it is a value copy here.
- The concurrent database model has no size limits, no error exits and no `db_nextrec`, and abstracts a record's bytes to its fields; a key with a separator is found there like any other.
- DbLocksRuns.Quiescent: says nothing about byte layout; interleaved appends may leave data records in another order than index records.
- Hold and release in the reference-counted table are called with a reference, and `sem_close` by an attached process, as the sources require of their callers; a reference is released by the thread that took it, where the source would let another thread release it.
- Malloc failure in foo_alloc, and the initialisation of the rest of the object.
- Which libraries are found and mapped, the error exit of `queue_ctors` after a fork, and who calls `do_init_fini`; a queue handed to it is arbitrary.
- Steps of the constructor protocol are the stretches under init_fini_lock; the lock itself is not a step of its own, so more interleavings are allowed than occur.
- How a static linker builds the hash tables: their well-formedness is a condition, with chains and bucket ends as witnesses.
- Wrap-around of sizes and offsets in the thread-local storage arithmetic; only the masked differences are 64-bit words.
- Relr.Image.DoRelr: the loop of `musl/ldso/dlstart.c:144-157` is the same and has no model of its own.
- `sem_open`, which attaches without the lock, direct calls of `sem_rm`, and `sem_op` on member 0.
- In the print daemon: spool files, job numbers, the IPP and HTTP headers, the worker list; printing a job is one step that ends, cancels or defers it.
- TreeWalk.Walker.DoPath: the file tree does not change during the walk, and what the called function returns is given call by call.
