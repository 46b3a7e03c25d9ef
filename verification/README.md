# Verified models of Silo, iris and two lock-free containers

This project models, in Dafny, the parts of the repository whose correctness rests on arguments that
span many functions or many threads, and proves them.

* **Silo's transaction engine** (`silo/txn_impl.h`, `silo/txn_proto2_impl.h`, `silo/txn_proto2_impl.cc`,
  `silo/tuple.h`, `silo/ticker.h`, `silo/rcu.h`): optimistic commit with address-ordered locks, commit identifiers,
  read validation, version chains, epoch snapshots, freeing of old versions, and the cleaners that take deleted
  records out of the tree. It is one step relation (`Engine`) over the tree, all tuples, all transactions, the ticker,
  the cleaners and the queues of read-copy-update; one access to one tuple or to the tree is one step. `EngineInv`
  holds the invariant, `EngineMain` proves that every step keeps it, and `EngineTheorems` and `EngineVersions` state
  what follows for every state of every run. `EngineWitness` has a run in which the order breaks. `Seqlock` goes
  below that granularity, to single loads and stores of one tuple's header and body, and shows why a stable read and
  a validation check may be taken as one step. `VersionChain`, `WritePlan` and `Tid` hold the sequential code in its
  own imperative form: the in-place tuple writes, the lock and unlock loops of a commit, and the generation of commit
  identifiers.
* **The ticker and read-copy-update** (`silo/ticker.h`, `silo/rcu.cc`): `Ticker` and `Rcu` are step
  relations at the level of single loads, stores and lock operations. `Engine` runs on top of `Ticker`.
* **Silo's B+-tree of 8-byte slices** (`silo/btree.h`, `silo/btree_impl.h`, `silo/varkey.h`), sequentially:
  `BTree` has the operations and the validity predicate, `BTreeRows`, `BTreeInsert` and `BTreeRemove` the
  proofs that splits, steals, merges and root changes keep it, `BTreeMap` that the tree is a map, `BTreeLinks` that
  the sibling links of every layer stay the list of its leaves, and `BTreeWalk` that walking them from any leaf ends
  where a descent does. `KeyOrder` relates slices to the order of byte strings.
* **Queues and logs**: the Chase-Lev deque (`ChaseLev`), the bounded multi-producer multi-consumer queue
  (`Mpmc`), iris' ring buffer, queue and output thread together (`IrisLog`), and Silo's queue of
  deferred frees (`PxQueue`).

Concurrency is sequentially consistent interleaving of the steps. Every run starts in the initial state
and is of any length; the numbers of threads, cores, tuples, groups and records are arbitrary.

`dafny verify dfyconfig.toml` checks the whole project.

## How to read the engine results

`Engine.State` carries history variables that no step's guard looks at. `log` has one entry for each
read-write transaction, appended at the moment all its write locks are held and its commit identifier is
taken; it is the serial order. A name of the tree can be inserted, deleted, taken out by a cleaner and inserted again:
a `Key` is a name together with how often it had been inserted before. `hist` has, for each key, the writes applied to
it so far, `born` and `shut` the keys that have been in the tree and that have left it.

`EngineRuns.Replay(s, n, name)` is the serial reference: what the transactions among the first `n` entries of the log
that passed validation leave under a name, run one after the other; `LastWriter` says which of them wrote it last.
Serializability says that what a committed transaction read is what `Replay` gives at its own position. `Reinserted(s,
n, k)` says that one of the first `n` wrote a later key of the same name.

## What turned out false

* Serializability, across a cleaner. It takes a key out of the tree before it clears the deletion marker's latest flag
  (`silo/txn_proto2_impl.cc:675-677`), and its lock carries no write intent (`silo/txn_proto2_impl.cc:617`), which is
  all that validation looks for (`silo/tuple.h:777-795`). `CleanerBreaksOrder` is a run in which a transaction commits
  with two reads of which one is the last writer's and the other is not. `Serializable` says exactly when: a read is
  that of the last writer before it if and only if the name was not inserted anew behind the marker it read, and if
  it was, the read is a deletion. `CheckedInTree` gives the condition at the check itself: no cleaner stands between
  the two steps with the tuple being checked.
* `TooManyThreads`: the 16-bit counters of the bounded queue can lap when threads and slots together are
  more than 131072; every queue over that bound has a run in which a reader gets at an unpublished slot. At
  or below the bound all results of `Mpmc` hold.
* `TakeBeforePush`: `take` of the Chase-Lev deque, called while nothing has ever been pushed, subtracts 1 from an
  unsigned 0 and returns something that was never pushed. The other results hold of every run in which the owner
  calls `take` only once it has pushed something, and then `bottom` is above 0 (`BottomAfterPush`).
* `EmptyRingTakes`: `acquire` on an empty ring takes a request if and only if it fits before the end of the buffer
  or before `head`. `RefusedRequest` is a run to an empty ring on which a request within its capacity does not, and
  `RefusedForGood` says that every retry is then refused, so that `log` never returns.
* `SplitCheckReadsPast`: the debug assertion at `silo/btree_impl.h:1139` reads one past the last key of a full leaf if
  and only if its seventh and its last slot have the same slice; `NineOfOneReadsPast` has such a leaf. The code the
  assertion guards does not (`FindSplitPoint`). The assertion at `silo/btree_impl.h:1193`, which the source marks as
  uncertain, always holds (`SplitIsLegal`).
* `RoundUpEnds`: the loop of `round_up_to_next_multiple_of_2` ends if and only if its argument is not negative.

## Model

| member | source | states |
|---|---|---|
| `EngineTheorems.Serializable` | silo/txn_impl.h:233-455 | in every state of every run, every read of a read-write transaction that passed validation carries the identifier of the last transaction before it in the order of commit points that wrote the name, if and only if the name was not inserted anew behind the record read; then its value is what those transactions, replayed one after the other, leave there, and otherwise it is a deletion |
| `EngineTheorems.CheckedInTree` | silo/tuple.h:777-795 | a check made while no cleaner has taken the key out and not yet cleared the flag is safe: whenever its transaction is decided later, the value read is what the replay leaves under the name |
| `EngineWitness.CleanerBreaksOrder` | silo/txn_proto2_impl.cc:614-679 | there is a run from the initial state in which a transaction commits after reading a record as deleted and another one as its last writer left it, although that writer had given the first a new value |
| `EngineTheorems.OverwritersComeLater` | silo/txn_impl.h:335-368 | every newer write of the key read belongs to a transaction at the same or a later position of the serial order, and of the same or a later epoch; so does every write of a later key of the name, unless the name was inserted anew before |
| `EngineTheorems.TreeHoldsReplay` | silo/txn_impl.h:386-450 | an unlocked record reachable from the tree is not tentative and holds what all validated transactions, replayed serially, leave under its name |
| `EngineTheorems.MissingIsAbsent` | silo/txn_proto2_impl.cc:614-679 | a name that is not in the tree was never written by a validated transaction, or was last deleted, whatever the cleaners have taken out |
| `EngineTheorems.AllOrNothing` | silo/txn_impl.h:386-487 | a committed transaction has every one of its writes in the history, with its identifier, epoch and value; an aborted one has none |
| `EngineTheorems.IdentifiersAreUnique` | silo/txn_proto2_impl.h:972-1042 | no two writing transactions get the same identifier, each identifier carries its commit epoch, and epochs never decrease along the serial order |
| `EngineTheorems.IdentifierExceeds` | silo/txn_proto2_impl.h:972-1042 | a new identifier carries the core and the current epoch, and exceeds the core's last one, everything the transaction read, and every version it is about to overwrite |
| `EngineTheorems.NoDeadlock` | silo/txn_impl.h:192-229 | no reachable state has a cycle of transactions and cleaners waiting for each other, whether they are taking locks, spinning on a stable read, or locking a deletion marker |
| `EngineTheorems.LocksAreReturned` | silo/txn_impl.h:442-488 | a finished transaction owns no lock, and no insert of an aborted one is left in the tree, though the loops go by the marks of the write entries and no guard looks at the locks themselves |
| `EngineTheorems.OnlyOwnLocks` | silo/txn_impl.h:442-480 | every unlock releases a lock its transaction holds and leaves it neither held nor marked, and every unlinking takes out an own insert that the tree still leads to |
| `EngineTheorems.NothingReachableIsFreed` | silo/txn_proto2_impl.cc:545-700 | no tuple that the tree points to, that is the latest of its key, or that a running transaction can still reach through its sets or its walk along a chain, has been freed, be it by a cleaner or by read-copy-update |
| `EngineTheorems.FreedOnce` | silo/txn_proto2_impl.cc:545-700 | no tuple is freed twice, neither from the queue of old versions nor from that of read-copy-update |
| `EngineTheorems.SnapshotConsistent` | silo/txn_proto2_impl.h:429-440 | everything a snapshot transaction ever reads under a name is what exactly the committed transactions of epochs below its boundary leave there, as of the moment it began, whatever the cleaners take out meanwhile |
| `EngineTheorems.SnapshotIsComplete` | silo/txn_proto2_impl.h:729-737 | the transactions below a snapshot's boundary are a prefix of the serial order, and each has aborted or has committed with all its writes in place |
| `EngineTheorems.SnapshotIsFrozen` | silo/ticker.h:180-217 | from the moment a transaction begins, no later step adds to the serial order below its boundary or changes what it leaves under any name |
| `EngineMain.StepKeepsSound` | silo/txn_impl.h:233-495 | every step of every transaction, of the ticker, of the cleaners and of read-copy-update keeps the whole invariant |
| `EngineRuns.NameLast` | silo/tuple.h:853-956 | where all earlier writes of a key are resolved and no later key of its name was written, the last write of its history is the last writer of the name, and its value what the replay leaves |
| `EngineRuns.NameReinserted` | silo/txn_proto2_impl.cc:614-679 | once a later key of the name was written, the last write of an earlier key is a deletion, and of an earlier transaction than the last writer of the name |
| `EngineVersions.InPlaceUnseen` | silo/tuple.h:875-915 | a put in place leaves what every transaction that has begun would read in its snapshot as it was, from whatever tuple of whatever chain it walks on |
| `EngineVersions.SpillUnseen` | silo/tuple.h:917-948 | so does a put that moves the old version behind the tuple, at the price of one more hop from there |
| `EngineVersions.ReplaceUnseen` | silo/tuple.h:917-956 | so does a put by a new tuple in front of the old one |
| `EngineVersions.VersionsAboveMin` | silo/txn_proto2_impl.h:752-770 | no tuple ever has a version at `MIN_TID`, so the special case of an overwrite in place there never comes up |
| `Seqlock.ReadIsAtomic` | silo/tuple.h:679-739 | whatever version and bytes a read returns are those of the tuple at the instant of its last check, under any interleaving with lock, modify, store, unlock |
| `Seqlock.ReadWithoutIntent` | silo/tuple.h:679-739 | a read that does not allow write intent returns version and bytes of the tuple at an earlier instant, its header load, at which nobody had the tuple locked for writing |
| `Seqlock.FollowIsAtomic` | silo/tuple.h:679-739 | a reader goes on to the next older version exactly from a tuple that is too new for it, along the link the tuple has at that instant |
| `Seqlock.ValidationIsAtomic` | silo/tuple.h:777-795 | a validation that succeeds holds of the tuple at the instant of its check, and nobody has the tuple locked for writing then |
| `Seqlock.ReadsStayInBuffer` | silo/tuple.h:679-739 | however stale the size it loaded, a reader copies only bytes inside the record's buffer |
| `VersionChain.OverwriteKeepsSnapshots` | silo/txn_proto2_impl.h:752-770 | overwriting the newest version in place leaves every earlier snapshot's read unchanged if and only if that version is above `MIN_TID` or reads the same without it |
| `VersionChain.ValueAtMinIsLost` | silo/txn_proto2_impl.h:762-768 | the condition of `OverwriteKeepsSnapshots` is needed: a value at `MIN_TID` that is overwritten would be lost to the snapshot at `MIN_TID` (no run of the engine has one, see `EngineVersions.VersionsAboveMin`) |
| `VersionChain.SpillKeepsSnapshots` | silo/tuple.h:917-948 | putting a new version in front of the whole old chain leaves every earlier snapshot's read unchanged |
| `VersionChain.DbTuple.WriteRecordAt` | silo/tuple.h:853-956 | the new head is latest, reads at or after the new identifier give the new value, earlier snapshots survive, the chain stays ordered; which of overwrite, spill in place and replacement happens, and what is left behind |
| `VersionChain.DbTuple.RecordAt` | silo/tuple.h:634-739 | walking the chain returns the newest version at or before the given identifier, or absence |
| `WritePlan.Gather` | silo/txn_impl.h:192-323 | locks are taken once per tuple, in address order, for exactly the tuples this transaction did not insert, until one cannot be had; what is written is every insert and the last put to each tuple; the inserts and exactly one entry of each tuple locked carry the locked flag; it fails if and only if some tuple to lock is tentative or stale |
| `WritePlan.Commit` | silo/txn_impl.h:273-488 | on every exit, each lock taken and each lock an insert came with is released exactly once, after the last one is taken, and nothing else is; each insert is taken out of the tree exactly once, just before its unlock, if and only if the commit fails; it succeeds if and only if no tuple is in the way and validation succeeds |
| `Tid.FieldsComeBack` | silo/txn_proto2_impl.h:392-408 | core, number and epoch come back from a packed identifier |
| `Tid.PackBits` | silo/txn_proto2_impl.h:392-465 | on 64-bit words, shifting and or-ing the three fields adds them, and masking and shifting gets each back |
| `Tid.OrderIsLexicographic` | silo/txn_proto2_impl.h:445-465 | identifiers are ordered by epoch, then number, then core |
| `Tid.SnapshotAdmits` | silo/txn_proto2_impl.h:429-440 | a snapshot identifier admits a version exactly when its epoch is below the rounded boundary |
| `Tid.BelowBoundary` | silo/txn_proto2_impl.h:379-383 | an epoch is below the boundary exactly when its read-only tick is below that of the boundary |
| `Tid.ThreadCtx.GenCommitTid` | silo/txn_proto2_impl.h:972-1042 | the identifier exceeds the core's last one, everything read and everything overwritten, carries core and epoch, and is remembered |
| `Ticker.TicksStayClose` | silo/ticker.h:198-216 | in every state of every run each core's tick is the global tick or one less, and an open guard's tick is above `last_tick_inclusive_` |
| `Ticker.LastAdvancesOnceUnderGuard` | silo/ticker.h:89-131 | while one guard stays open its tick does not move and `last_tick_inclusive_` advances by at most one |
| `Ticker.StepKeepsInv` | silo/ticker.h:180-217 | every load, store and lock step of guards and of the ticker thread keeps the invariant |
| `Rcu.GracePeriod` | silo/rcu.cc:200-283 | by the time a deferred free runs, every guard that was open when it was requested has been closed, for any multiplier |
| `Rcu.GuardHoldsBack` | silo/rcu.h:250-278 | while a guard stays open, `last_tick_inclusive_` stays at or below the tick of every free requested under it, and the request keeps its tick |
| `Rcu.ReapedStaysBehind` | silo/rcu.cc:200-238 | what was reaped is never ahead of what may be reaped now |
| `KeyOrder.OrderIsSliceOrder` | silo/varkey.h:65-89 | lexicographic order on byte strings of any length is order by slice, then by length capped at nine, then by the shifted rests |
| `KeyOrder.EqualityIsSliceEquality` | silo/varkey.h:51-57 | two byte strings are equal exactly when slices, capped lengths and, for long ones, the shifted rests are equal |
| `KeyOrder.ReadSlice` | silo/varkey.h:91-99 | the byte loop and the big-endian reading give the slice of the reference definition |
| `BTree.KeySearch` | silo/btree.h:850-868 | the binary search returns the one position with this slice and length, or -1 exactly when there is none |
| `BTree.ChildSearch` | silo/btree.h:983-1004 | the binary search of an internal node gives the child responsible for the slice |
| `BTree.LowerBound` | silo/btree.h:874-895 | the binary search for length 0 gives the last slot not after the slice |
| `BTree.FindInLeaf` | silo/btree_impl.h:754-795 | the lower bound and the scan behind it give the position of a key in the responsible leaf and where it would go |
| `BTree.FindSplitPoint` | silo/btree_impl.h:1119-1146 | the two loops compute the ends of the slice group at the middle, without leaving the node, and the better of them is chosen |
| `BTree.GroupIsSmall` | silo/btree.h:1181-1185 | at most ten slots of a leaf share a slice |
| `BTree.SplitCutsNoGroup` | silo/btree_impl.h:1119-1146 | the split point is strictly inside the leaf and no slice is on both sides of it |
| `BTree.SplitIsLegal` | silo/btree_impl.h:1148-1193 | where the new slot stays in the old leaf, its place is not past the split point |
| `BTree.SplitCheckReadsPast` | silo/btree_impl.h:1132-1139 | the right split point of a sorted full leaf is 15 if and only if its seventh and its last slot have the same slice |
| `BTree.NineOfOneReadsPast` | silo/btree_impl.h:1132-1139 | a valid full leaf of fifteen given keys has its right split point at 15 |
| `BTreeRows.SearchReads` | silo/btree_impl.h:232-355 | descending through the separators finds what the sorted sequence of all slots of the layer says |
| `BTreeInsert.SplitHolds` | silo/btree_impl.h:1080-1247 | a full leaf, split in any of its three ways, the append at the end chosen by its own `next_`, becomes two valid leaves that together hold the old slots and the new one in order, with the second's first slice as separator and `min_key_` |
| `BTreeInsert.ThreeCasesAreOne` | silo/btree_impl.h:1299-1345 | the three cases of an internal split all cut the widened node at its eighth key |
| `BTreeInsert.ChildSplits` | silo/btree_impl.h:1270-1350 | a node whose child split takes the new key and child, or splits, and stays valid and holds the same slots |
| `BTreeInsert.InsertTreeOk` | silo/btree_impl.h:1354-1405 | inserting keeps order, bounds, uniform depth, separators and occupancy in every layer, and changes exactly one slot of the top layer |
| `BTreeRemove.LeafLoses` | silo/btree_impl.h:1520-1820 | removing a slot from a leaf by any of stealing, merging or running low leaves valid leaves with the right separators; a leaf that is not the root is never emptied |
| `BTreeRemove.NodeShrinks` | silo/btree_impl.h:1888-1989 | a node that loses a key and a child, by any of stealing, merging, shrinking or giving way to its only child, leaves valid nodes with the same slots |
| `BTreeRemove.NodeAscends` | silo/btree_impl.h:1841-1994 | whatever the child answers, the parent updates keys and children so that all stays valid and only the removed slot is gone |
| `BTreeRemove.RemoveTreeOk` | silo/btree_impl.h:569-617 | removing keeps the tree valid in every layer and changes exactly one slot of the top layer |
| `BTreeMap.InsertIsMapInsert` | silo/btree_impl.h:814-1405 | for every tree and every key: inserting, or inserting if absent, changes the answer for that key only, tells whether it was new, and gives the value it had |
| `BTreeMap.RemoveIsMapRemove` | silo/btree_impl.h:1412-1997 | for every tree and every key: removing fails exactly when the key is not there, and otherwise makes that key and no other absent and gives the value it had |
| `BTreeMap.TreeIsMap` | silo/btree_impl.h:232-1997 | after any run of operations from the empty tree, the tree is valid, holds exactly the map the operations leave, and every answer was the map's |
| `BTreeLinks.ChainedEdit` | silo/btree_impl.h:1232-1237 | the pointer adjustments of a split and of both merges turn the links of one list of leaves into those of the list with the new leaf in its place, or without the merged one |
| `BTreeLinks.InsertKeepsLinks` | silo/btree_impl.h:1080-1405 | inserting leaves `prev_` and `next_` of every layer the list of its leaves in key order |
| `BTreeLinks.RemoveKeepsLinks` | silo/btree_impl.h:1520-1994 | so does removing, through steals, both merges and root changes |
| `BTreeWalk.LeavesStrip` | silo/btree_impl.h:120-200 | along that list each leaf's `min_key_` is where it begins and the next one's where it ends, the first being the lower bound |
| `BTreeWalk.RunIsLinked` | silo/btree_impl.h:232-1997 | after any run of operations from the empty tree the links of every layer are the list of its leaves |
| `BTreeWalk.FindRespLeaf` | silo/btree_impl.h:699-750 | from any leaf of the layer, the walk over `min_key_`, `prev_` and `next_` ends, at the leaf responsible for the slice |
| `BTreeWalk.SearchFrom` | silo/btree_impl.h:279-341 | from any leaf of the layer, the search that looks in the leaf and on a miss goes left or right finds exactly what the layer holds for the key |
| `BTreeWalk.LayerIsWalkable` | silo/btree_impl.h:232-355 | in a valid tree with correct links such a search answers as the search from the root does |
| `BTreeWalk.DescentIsResponsible` | silo/btree_impl.h:754-795 | the leaf a descent reaches is the responsible one, so the walk that starts every insertion and removal stays there |
| `BTreeWalk.NoNextIsLast` | silo/btree_impl.h:1091 | a leaf has no `next_` if and only if it is the last of its layer |
| `ChaseLev.NothingReturnedTwice` | cdschecker_modified_benchmarks/chase-lev-deque/deque.cc:17-85 | for any number of thieves and resizes, if the owner calls take only once something was pushed, no pushed element is returned twice, and nothing is returned that was not pushed |
| `ChaseLev.NothingIsLost` | cdschecker_modified_benchmarks/chase-lev-deque/deque.cc:17-85 | every pushed element has been returned, is in the owner's hand, or is in the deque |
| `ChaseLev.StealReturnsTop` | cdschecker_modified_benchmarks/chase-lev-deque/deque.cc:71-85 | a successful steal returns what was pushed at the top index, even if it was read from an array that has been replaced |
| `ChaseLev.TakeReturnsBottom` | cdschecker_modified_benchmarks/chase-lev-deque/deque.cc:17-39 | a successful take returns what was pushed at the bottom index |
| `ChaseLev.ArrayHoldsDeque` | cdschecker_modified_benchmarks/chase-lev-deque/deque.cc:41-69 | between the owner's operations the current array holds the deque, after any number of resizes |
| `ChaseLev.TakeBeforePush` | cdschecker_modified_benchmarks/chase-lev-deque/deque.cc:17-39 | any run to an idle owner that has pushed nothing goes on to a take that returns an element though nothing was pushed |
| `ChaseLev.BottomAfterPush` | cdschecker_modified_benchmarks/chase-lev-deque/deque.cc:17-24 | between its operations the owner finds `bottom` above 0 if and only if it has pushed something |
| `Mpmc.SlotsAreExclusive` | cdschecker_modified_benchmarks/mpmc-queue/mpmc-queue.h:29-92 | no thread reads while another writes, and no two threads write the same slot |
| `Mpmc.FetchInClaimOrder` | cdschecker_modified_benchmarks/mpmc-queue/mpmc-queue.h:29-92 | the reader with the i-th claim finds what the i-th claimed write published |
| `Mpmc.FetchedOnce` | cdschecker_modified_benchmarks/mpmc-queue/mpmc-queue.h:29-57 | no element is claimed by two readers or again after it was consumed |
| `Mpmc.TestsAreExact` | cdschecker_modified_benchmarks/mpmc-queue/mpmc-queue.h:29-92 | the 16-bit tests for empty and full agree with the true counts |
| `Mpmc.TooManyThreads` | cdschecker_modified_benchmarks/mpmc-queue/mpmc-queue.h:29-92 | whenever threads and slots together are more than 131072 there is a run in which a reader gets at a slot whose write is not published |
| `IrisLog.OutputIsTheLog` | iris/src/base_logger.cpp:68-75 | what is written out is what was logged, in logging order, each record whole |
| `IrisLog.LiveRecordsTile` | iris/include/lfringbuffer.h:53-95 | the positions between tail and head are exactly the unreleased records, end to end, each in one piece |
| `IrisLog.LiveRecordsAreApart` | iris/include/lfringbuffer.h:53-95 | no two unreleased records share a byte of the buffer |
| `IrisLog.PublishedStaysIntact` | iris/include/base_logger.h:105-122 | a published record's bytes stay in place until it has been formatted and released |
| `IrisLog.EmptyRingTakes` | iris/include/lfringbuffer.h:53-88 | on an empty ring a request is taken exactly when it fits before the end or before head; up to half the capacity it always is |
| `IrisLog.RefusedRequest` | iris/include/lfringbuffer.h:53-88 | there is a run to an empty ring on which a request within its capacity is refused |
| `IrisLog.RefusedForGood` | iris/include/base_logger.h:105-122 | from then on every retry of such a request is refused and changes neither head nor the records, whatever the output thread does |
| `Circular.MaskIsRemainder` | iris/include/sslfqueue.h:40-85 | masking with a power of two less one is taking the remainder |
| `Circular.RoundUp` | iris/src/utils.cpp:10-22 | the bit-counting loop returns the least power of two not below its argument, which fits an `int` exactly for arguments up to 2^30 |
| `Circular.RoundUpEnds` | iris/src/utils.cpp:10-22 | the loop ends if and only if its argument is not negative |
| `PxQueue.Queue.Enqueue` | silo/pxqueue.h:152-190 | the element goes behind all others with its tick, every group is on exactly one list, and only new groups are added |
| `PxQueue.Queue.EmptyAcceptFrom` | silo/pxqueue.h:243-268 | an empty queue takes exactly the elements with tick at or below the bound, in order; the source keeps the rest in order; no group is lost or shared |
| `PxQueue.Queue.Clear` | silo/pxqueue.h:301-312 | all groups go to the freelist, none is lost |
| `PxQueue.Queue.TransferFreelist` | silo/pxqueue.h:270-299 | the whole freelist, or its first n groups, goes to the other queue; no group is lost or shared, and neither queue's elements change |
| `PxQueue.Queue.AllocFreelist` | silo/pxqueue.h:314-325 | exactly n new groups are on the freelist and nothing else changes |
| `PxQueue.List.AcceptUpTo` | silo/pxqueue.h:250-265 | groups move over one by one, and the two lists together are the old list |
| `PxQueue.List.GiveSome` | silo/pxqueue.h:284-298 | at most n groups move, the rest stay in order, none is lost |
| `PxQueue.AcceptSplits` | silo/pxqueue.h:243-268 | cutting a queue with non-decreasing ticks at a bound separates the elements up to it from those after it |

## Left out

* Weak memory orders and fences, in all modules.
* Engine: absent-set validation of tree nodes, so that a transaction that finds a name missing is not checked for it;
  range scans and phantoms; reading one's own writes; partial-field writers.
* Engine: overflow of the 24-bit counter and of the epoch, wrap-around of the tuple's version counter, reuse of a freed
  address. Identifiers are taken only while the counter has room.
* Engine: the short lock on a replacement tuple is part of the step that installs it; snapshots cannot be switched off;
  a free by read-copy-update runs one tuple at a time, in the order of requests of its core (`Rcu` has the batches).
* Seqlock: `read_record` of a tentative insert, which is a single load.
* VersionChain: the writer callbacks, that is, values are whole records.
* WritePlan.Gather: the entries come sorted; `write_dbtuples.sort()` is the standard library's.
* BTree: nodes are values, so updates in place of the node arrays are not captured; the links are a map from leaf
  addresses. Nor are concurrent descent, version checks, retries, range scans and the insert report.
* ChaseLev, IrisLog: indices are unbounded numbers, except that the subtraction in `take` wraps.
* IrisLog: several queues per output thread, the notifier, formatters and writers; one producer per queue is assumed.
* `txn_logger`, allocators, statistics, masstree, and the other small containers of the repository.
