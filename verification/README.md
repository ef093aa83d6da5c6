# Persistent-memory systems: models and proofs

The repository checks programs for persistent memory. Beside the checkers it carries a
collection of such programs; these are what is modelled here. Each stands alone.

- **Echo** (`Echo*.dfy`, `CommitState.dfy`): any number of workers append commit records to
  a log and merge them at the same time into version tables, one for each key. They detect
  conflicts in both directions, abort each other and signal their successors. Every access to
  shared memory is one step of a relation over the log, the tables and the owners' program
  points. `EchoInvariant` is the invariant; `EchoTheorems` and `EchoVersions` are about what is
  committed, `EchoDeletions` about what was meant to be, `EchoConflicts` about whom a forward scan
  fails, `EchoAborts` about why a commit fails, `EchoReads` about what a read returns,
  `EchoProgress` about what is live. `EchoWitnesses`, `EchoRangeWitnesses` and `EchoRaceWitness`
  give seven runs that go wrong, built with `EchoRuns`. `EchoVector` is the array of a version
  table.
- **Telescoping** (`Telescoping.dfy`): a binary counter chooses which checkpoints Echo's
  garbage collection drops.
- **The log queue** (`LogQueue*.dfy`): a lock-free queue with helping, whose links and marks
  are flushed. `CAS` and `FLUSH` are the atomic swap and the persist they stand for; the cache
  may also write a field back on its own at any time. `LogQueueTheorems` has what holds while it
  runs, `LogQueueEntries` what the log entries say, `LogQueueProgress` that it is lock-free,
  `LogQueueRecovery` what is left when power goes.
- **The red-black tree** (`RbTree`, `RbHeap`, `RbRepair`, `RbMap`), **the B-tree** of order 8
  (`BTree`, `BTreeHeap`, `BTreeSearch`, `BTreeMap`) and **the crit-bit trie** (`CritBit`, `CtreeMap`): a value,
  how it lies in the object pool with all its pointers, and a class that changes the pool in
  place. A hole in the tree, with everything around it, says what a loop has left to do.
- **The hash maps**: `HashmapAtomic` recovers from a crash before any of its ordered stores;
  `HashmapTx` links its entries by hand inside transactions. `HashTable` has the hash function,
  `HashFunction` how it spreads keys.
- **The allocator** (`PoolLayout`, `PoolNear`, `PoolFreeing`, `Pool`, `PoolWitness`): rotating
  first fit with boundary tags, crash recovery and coalescing. A pool has so many persisted
  stores until power is lost.

Helper modules: `Wrappers` (options), `Powers` (powers of two), `Snapshots` (the first
snapshot number).

## Findings

Eight promises do not hold of the code. Each has an input that shows it and the condition under
which the promise does hold.

- **A committed deletion can be lost.** Deleting a key that has no version table is ignored
  (test/echo/src/kp_kvstore.c:3641-3647). `EchoWitnesses.LostDeletion` is a run in which a
  writer and a deleter of one key overlap and both commit, and the key stays readable.
  `EchoDeletions.CommittedIsWritten`: a committed write is in its table if and only if its owner
  did not take that branch for the key. `EchoDeletions.IsolationUnlessIgnored` and
  `EchoReads.ReadsUnlessIgnored` follow.
- **A read can return what is not committed.** The search of a version table with a single entry
  returns it before the validator is asked (test/echo/src/vector-cdds/vector.c:778-792), and
  nothing looks at its record afterwards (test/echo/src/kp_kvstore.c:1959-1969). In the run
  `EchoRangeWitnesses.DirtyRead` the value read is of a commit in progress; in
  `EchoWitnesses.AbortedRead` a read of a settled snapshot, which found nothing before, finds the
  value of an aborted commit. `EchoReads.ReadIsLastCommitted`: a read returns the last committed
  version if and only if the table is not a single entry within the snapshot whose record is not
  committed. `SettledReadsAreStable`: a settled read repeats if and only if that is so at both
  times or at neither; `CheckedReadsAreStable`: once it has found a table and is so, for good.
- **An update can be lost.** A new worker begins at a fresh snapshot number
  (test/echo/src/kp_kvstore.c:6784-6857), although commits before it may still be merging. In
  the run `EchoRangeWitnesses.LostUpdate` it finds no version of a key, one is committed, and its
  own commit replaces that. `EchoReads.NoLostUpdate`: what a committed writer of a key read at
  its begin snapshot is what its version replaces if and only if every committed writer of the
  key within that snapshot was final at the read; or, for a read as in the last finding, what it
  returned is the last version committed there after all. `NoLostUpdateAfterCommit`: a worker that
  begins where its last commit ended loses an update exactly by such a read. (A note at 7925-7933
  already wants the greatest committed snapshot to be handed out instead.)
- **A commit can fail without a conflict.** The comment at test/echo/src/kp_kvstore.c:2385-2398
  argues that every entry behind a new one conflicts with it, because nobody begins above the
  greatest committed snapshot. Somebody can: `EchoRangeWitnesses.FailedWithoutConflict` is a run
  in which a forward scan fails a commit whose snapshot range is disjoint from the scanning one.
  `EchoConflicts.ScanMeetsConflict`: the ranges overlap if and only if the record begins before the
  scanning one ends. `SettledBeginsConflict`: if the record began at a settled snapshot, they do,
  unless the scanning record itself is aborted.
- **An aborted commit can stop another.** The comment at test/echo/src/kp_kvstore.c:2525-2543
  wants a backward scan to pass over aborted records, without a lock. The test reads the state
  twice, for `ABORTED` and then for `WAIT_TO_ABORT` (2544-2545). In the run
  `EchoRaceWitness.StoppedByAborted` the abort becomes final in between, and a commit fails that
  overlaps with no other record but the aborted one. `EchoAborts.FailsOnConflict`: an owner gives
  up only for an overlapping record that was not `ABORTED` at the first reading and not
  `WAIT_TO_ABORT` at the second. `StoppedByDead`: that record can no longer commit when it is
  first read if and only if it goes from the one state to the other.
- **A merge can die.** The `kp_die` at test/echo/src/kp_kvstore.c:2469-2476 is reachable
  (`EchoWitnesses.DieIsReachable`). `EchoProgress.DiesExactlyOnCommitted`: a step dies if and
  only if a forward scan stands at a committed record, and then the scanning owner's own record
  has been aborted by somebody else.
- **Telescoping dies at checkpoint 33554431 = 2^25 - 1, and when steps are repeated.** Offsets
  are single-precision floats (test/echo/src/kp_kvstore.c:4398-4399); from 2^25 on
  `2 * offset + 1` loses the one, and a checkpoint is picked twice. An odd step that is run again
  picks its checkpoint again. `Telescoping.Collector.Update`: with steps performed up to some
  number, a call dies if and only if it reaches an odd step behind `last_gc_snapshot` that was
  performed before, or checkpoint 33554431. No run of the repository gets there today:
  `kp_gc_on_checkpoint` returns before the call (4704-4705), and `kp_run_gc`, which would advance
  `last_gc_snapshot`, dies at once (5148).
- **Freeing after recovery can be lost.** Coalescing (test/echo/src/clibpm.c:258-303) leaves
  the `prevsize` field behind a joined run as it was. `PoolWitness.FreeIsLost`: in a pool of any
  size that can be made, after three reservations, an activation, a crash and recovery, freeing
  writes into the middle of a free clump and the clump stays allocated. `Pool.Pool.Free` gives
  the outcome in every pool that crashes and recovery leave: it joins the clump with its free
  neighbours if and only if the field is right or the clump in front is not free; otherwise the
  store goes astray if what lies where the field leads reads as free, and else the clump is
  freed but not joined. `PoolFreeing.FreesExactlyWhenSafe` states the condition for any tiled pool.
  After an astray store the next search begins inside a free clump. `Pool.Pool.NextReservation`:
  the next reservation is made there, in memory that the walk still counts as free, if and only
  if the request fits what the stray header says. `PoolWitness.SameMemoryTwice`: four
  reservations later the same memory has been handed out twice.

## Model

| member | source | states |
|---|---|---|
| EchoInvariant.RunIsGood | test/echo/src/kp_kvstore.c:6929-7445 | In every state of every run that has not died: tables are sorted in log order, a table is locked exactly by its scanner, states fit program points, no signal is lost, and any two writers of a key have disjoint ranges, or one is doomed, or a scan that will settle it is still to come |
| CommitState.TransitionMeans | test/echo/src/kp_kvstore.c:1071-1351 | Which transitions are rejected; for all others whether the new state is dead, whether the record has been told and how far it has come |
| CommitState.StateIsDetermined | test/echo/src/kp_kvstore.c:1071-1351 | These three do determine it |
| EchoTheorems.SnapshotIsolation | test/echo/src/kp_kvstore.c:2438-2592 | First committer wins: in every run of any number of concurrent commits, two committed records with versions of one key have disjoint (begin, end] snapshot ranges |
| EchoTheorems.FinalInLogOrder | test/echo/src/kp_kvstore.c:7733-7751 | The committed and aborted records are always a prefix of the commit log |
| EchoTheorems.FinalIsPermanent | test/echo/src/kp_kvstore.c:1071-1351 | A record that is committed or aborted stays so in every later state |
| EchoTheorems.LastCommittedIsStable | test/echo/src/kp_kvstore.c:1829-1838 | Once all records ending within a snapshot are final, no later step changes the last version committed within it, not even inserts of mergers that were aborted |
| EchoTheorems.LastCommittedIs | test/echo/src/kp_kvstore.c:1829-1838 | There is no last committed version within a snapshot exactly when no record ending within it has committed one; otherwise it is a write of the last such record in the log |
| EchoDeletions.CommittedIsWritten | test/echo/src/kp_kvstore.c:3641-3647 | With one write for each key, a committed record has a version of a key it wrote if and only if its owner did not ignore a deletion of that key because the key had no table |
| EchoDeletions.IsolationUnlessIgnored | test/echo/src/kp_kvstore.c:2438-2592 | Snapshot isolation of what commits meant to write: overlapping committed writers of a key imply that one of them had its deletion of the key ignored |
| EchoVersions.LastCommittedRepeats | test/echo/src/kp_kvstore.c:1829-1838 | The last version committed within a snapshot is the same later if and only if every record that by then has committed a version of the key within it was final before |
| EchoVersions.ReplacesLastCommitted | test/echo/src/kp_kvstore.c:2484-2568 | The version a committed writer of a key replaces is the one that was last committed within its begin snapshot earlier, if and only if every committed writer of the key within that snapshot was final then |
| EchoVersions.OwnCommitIsSettled | test/echo/src/kp_kvstore.c:7881-7891 | When a commit is final, all commits up to its end snapshot are |
| EchoReads.ReadIsLastCommitted | test/echo/src/vector-cdds/vector.c:778-792 | In every store a read returns the last committed version if and only if the table is not a single entry within the snapshot whose record is not committed; then it returns that entry |
| EchoReads.ReadsSee | test/echo/src/kp_kvstore.c:1940-1970 | In every run a read finds nothing exactly when the table is not such an entry and nothing was committed within the snapshot; what it finds is that entry, or a write of the last record that committed one |
| EchoReads.ReadsRepeatExactly | test/echo/src/kp_kvstore.c:1940-1970 | Exactly when a read repeated later in the run returns the same, whether it was of such an entry or not |
| EchoReads.SettledReadsAreStable | test/echo/src/kp_kvstore.c:1940-1970 | A read of a settled snapshot repeats if and only if it is of such an entry at both times or at neither |
| EchoReads.CheckedReadsAreStable | test/echo/src/kp_kvstore.c:1940-1970 | Once a read of a settled snapshot has found a table and is not of such an entry, no later step changes it |
| EchoReads.NoLostUpdate | test/echo/src/kp_kvstore.c:2484-2568 | What a committed writer of a key read at its begin snapshot is the version its own replaces if and only if every committed writer of the key within that snapshot was final at the read; for a read of such an entry, if and only if that was last committed there after all |
| EchoReads.NoLostUpdateAfterCommit | test/echo/src/kp_kvstore.c:7862-7935 | For a commit that begins at the end of one that was final at the read, as a worker's next commit does, if and only if the read was not of such an entry |
| EchoReads.ReadsUnlessIgnored | test/echo/src/kp_kvstore.c:1940-1970 | A read whose snapshot contains a committed write sees that write or one of a later record, unless the write is a deletion that was ignored |
| EchoConflicts.ScanMeetsConflict | test/echo/src/kp_kvstore.c:2385-2398 | In every state of every run the record a forward scan has reached ends later than the scanning one, their ranges overlap if and only if it begins before that one ends, and the locked step on it fails it either way, unless it dies |
| EchoConflicts.SettledBeginsConflict | test/echo/src/kp_kvstore.c:2385-2398 | If the record began at a snapshot that was settled before it was appended, the ranges overlap, or the scanning record is aborted |
| EchoAborts.FailsOnConflict | test/echo/src/kp_kvstore.c:2484-2568 | In every run an owner gives up its commit only because of a record that wrote the key it is putting and ends within its own range, so that the two overlap; at its first reading in this scan that record was not ABORTED, at the second not WAIT_TO_ABORT; it is another record if the commit has one write for each key |
| EchoAborts.StoppedByDead | test/echo/src/kp_kvstore.c:2525-2552 | The record that stops a scan was bound to abort at its first reading if and only if it went from WAIT_TO_ABORT to ABORTED between the two readings |
| EchoAborts.DoomedExactlyIfFailed | test/echo/src/kp_kvstore.c:7130-7310 | At every moment of every run a record can no longer commit if and only if its owner's backward scan has stopped or another owner's forward scan has failed it |
| EchoAborts.CommitsUnlessFailed | test/echo/src/kp_kvstore.c:7238-7310 | A final record, and any record when no owner can go on, is aborted if one of the two scans has failed it and committed otherwise |
| EchoAborts.FailedMergerStops | test/echo/src/kp_kvstore.c:7197-7234 | In every run an owner that has put a pair while its record was failed puts no other one |
| EchoProgress.NoDeadlock | test/echo/src/kp_kvstore.c:7312-7391 | While an owner has not finished, some owner has an enabled step: nobody waits for ever for its predecessor or for a table lock |
| EchoProgress.OwnerStepsAreBounded | test/echo/src/kp_kvstore.c:7108-7310 | Every step of an owner lowers a measure (puts left, steps to the next put), so owners cannot step for ever |
| EchoProgress.OwnersFinish | test/echo/src/kp_kvstore.c:7312-7391 | From every state of a run the owners can go on until all records are final, or the run dies |
| EchoProgress.StuckMeansFinal | test/echo/src/kp_kvstore.c:1429-1468 | On whatever schedule, when no owner can go on every record is committed or aborted |
| EchoProgress.DiesExactlyOnCommitted | test/echo/src/kp_kvstore.c:2463-2477 | A step dies if and only if a forward scan stands at a committed record; the scanning owner's own record is then aborted |
| EchoWitnesses.LostDeletion | test/echo/src/kp_kvstore.c:3641-3647 | A run in which a writer and a deleter of the same key overlap and both commit, and the deleted value is still read |
| EchoWitnesses.DieIsReachable | test/echo/src/kp_kvstore.c:2467-2476 | A run whose next step dies, in the put of a record that was aborted |
| EchoWitnesses.AbortedRead | test/echo/src/vector-cdds/vector.c:778-792 | A run in which a read of a settled snapshot finds nothing and later the value of an aborted commit |
| EchoRangeWitnesses.DirtyRead | test/echo/src/vector-cdds/vector.c:778-792 | A run in which a read returns the value of a commit in progress, with the table unlocked |
| EchoRangeWitnesses.FailedWithoutConflict | test/echo/src/kp_kvstore.c:2455-2477 | A run whose last step fails a commit although its snapshot range is disjoint from that of the scanning commit, which is alive |
| EchoRangeWitnesses.LostUpdate | test/echo/src/kp_kvstore.c:6784-6857 | A run in which a worker finds no version of a key at its begin snapshot, a record within it commits one, and the worker commits its own on top |
| EchoRaceWitness.StoppedByAborted | test/echo/src/kp_kvstore.c:2544-2568 | A run whose last step fails a commit although the only record it overlaps with has been aborted |
| EchoProtocol.InsertIndex | test/echo/src/vector-cdds/vector.c:439-449 | Where a table entry goes: behind every entry that does not end later, in front of all that do |
| EchoVector.Vector.constructor | test/echo/src/vector-cdds/vector.c:44-84 | A new vector is empty and has room for as many entries as asked, 8 by default |
| EchoVector.Vector.Resize | test/echo/src/vector-cdds/vector.c:352-437 | A full array is replaced by one twice as long, or of the greatest length if that is less; the entries stay; an array with room is not touched |
| EchoVector.Vector.FindPlace | test/echo/src/vector-cdds/vector.c:442-449 | The search from the back finds that place |
| EchoVector.Vector.ShiftIn | test/echo/src/vector-cdds/vector.c:458-473 | Shifting entries one by one puts the new one at its index and keeps all others in order |
| EchoVector.Vector.Insert | test/echo/src/vector-cdds/vector.c:301-480 | Fails exactly when the vector has its greatest length; otherwise yields the table with the new entry at that place |
| EchoVector.Vector.SearchBinary | test/echo/src/vector-cdds/vector.c:755-850 | Binary search returns the last entry that ends within the snapshot, or none |
| EchoVector.Vector.SearchRange | test/echo/src/vector-cdds/vector.c:755-905 | The only entry of a one-entry vector is returned if it ends within the snapshot, whatever its state; otherwise exactly the last committed entry within the snapshot |
| Telescoping.PickedExactlyOnce | test/echo/src/kp_kvstore.c:4392-4479 | With exact offsets every checkpoint 2^k * odd is picked by exactly one bit of exactly one step, c + 3 * 2^k - 1 |
| Telescoping.NextIs | test/echo/src/kp_kvstore.c:4398-4479 | The single-precision recurrence gives 3 * 2^(i-1) - 1 up to bit 23 and 3 * 2^(i-1) from bit 24 on |
| Telescoping.NearestIs | test/echo/src/kp_kvstore.c:4398-4399 | Rounding takes the nearest multiple of the unit, of two as near the even one |
| Telescoping.UnitLeaves24Bits | test/echo/src/kp_kvstore.c:4398-4399 | The unit leaves 24 significant bits |
| Telescoping.UnmarkedIsLogarithmic | test/echo/src/kp_kvstore.c:4392-4479 | After steps 1 to N at most 2 * (floor(log2 N) + 1) of the checkpoints up to N are unmarked |
| Telescoping.FewStayUnmarked | test/echo/src/kp_kvstore.c:4486-4519 | The same for the checkpoints since the first snapshot number |
| Telescoping.BadPick | test/echo/src/kp_kvstore.c:4392-4479 | At checkpoint 33554431 bit 24 picks a checkpoint that was due long before |
| Telescoping.Collector.constructor | test/echo/src/kp_kvstore.c:1524-1526 | A new collector has nothing marked, and last collected at the initial snapshot |
| Telescoping.Collector.Keep | test/echo/src/kp_kvstore.c:4106-4185 | Refuses a checkpoint that is to be collected or was, dies on one in use already, otherwise puts it in use; no marked checkpoint is affected |
| Telescoping.Collector.Release | test/echo/src/kp_kvstore.c:4193-4298 | Takes a checkpoint out of use and, if it was chosen meanwhile, moves it to those to be collected; what is marked stays the same, and no vector holds one twice |
| Telescoping.Collector.Mark | test/echo/src/kp_kvstore.c:4307-4383 | Files a checkpoint by whether it is in use; dies exactly when it is in one of the three vectors already |
| Telescoping.Collector.PickAll | test/echo/src/kp_kvstore.c:4392-4479 | A new step marks exactly the checkpoints due at it, and dies exactly at the bad checkpoint; an odd step whose checkpoint is marked already dies, an even one does nothing |
| Telescoping.Collector.PerformTelescoping | test/echo/src/kp_kvstore.c:4392-4479 | After a new step n exactly the checkpoints due by then are marked, once each; a repeated step dies if it is odd and changes nothing if it is even |
| Telescoping.Collector.Update | test/echo/src/kp_kvstore.c:4486-4519 | From any last_gc_snapshot, whatever steps have been performed: dies if and only if an odd step is repeated or checkpoint 33554431 is reached; otherwise exactly the checkpoints due so far are marked |
| LogQueueSteps.RunIsGood | test/lockfreequeue/logqueue.cpp:32-112 | In every state of every run: the chain is what `next` spells, removed nodes are a prefix of it, head, marks and tail are in order at distance one, and what operations know and own stays true |
| LogQueueTheorems.RunActs | test/lockfreequeue/logqueue.cpp:60-98 | At every step of every run a successful swap on `next` appends at the back, one on `logRemove` takes the front, and nothing else changes the queue |
| LogQueueTheorems.Linearizable | test/lockfreequeue/logqueue.cpp:45-112 | At every moment of every run the queue is what a sequential FIFO queue holds after the successful swaps so far |
| LogQueueTheorems.OperationsTakeEffectOnce | test/lockfreequeue/logqueue.cpp:45-112 | The swaps of an operation are exactly those its program point implies: one for a linked ENQ or a successful DEQ, none otherwise |
| LogQueueTheorems.EnqueuesItsArgument | test/lockfreequeue/logqueue.cpp:45-50 | An operation enqueues the value of the call that began it |
| LogQueueTheorems.EmptyAnswersAreRight | test/lockfreequeue/logqueue.cpp:80-88 | A DEQ that reports empty saw the queue empty during its call |
| LogQueueTheorems.HeadNeverPassesTail | test/lockfreequeue/logqueue.cpp:98-106 | In every state the tail is reached from the head along `next` |
| LogQueueTheorems.NoNodeIsRemovedTwice | test/lockfreequeue/logqueue.cpp:94-99 | Two dequeuers never return the same node |
| LogQueueTheorems.NoNullDereference | test/lockfreequeue/logqueue.cpp:82-107 | The dequeuer never follows a null `next` or `logRemove` |
| LogQueueTheorems.PersistedChainIsPrefix | test/lockfreequeue/logqueue.cpp:48-70 | In every state there is exactly one walk along persisted links; it is a prefix of the chain that reaches the tail and lacks at most one link, over persisted nodes |
| LogQueueTheorems.RecoveredMarks | test/lockfreequeue/logqueue.cpp:94-106 | On that walk the persisted marks are a prefix that covers the head and lacks at most the last removal, and they name the right removers |
| LogQueueTheorems.CompletedOperationsSurvive | test/lockfreequeue/logqueue.cpp:61-99 | What a returned operation did survives a crash: an enqueued node is on the walk; a removed one carries the mark, and the log entry names it and is not marked empty; the entry of an empty answer is marked and names none |
| LogQueueEntries.EntriesSay | test/lockfreequeue/logqueue.cpp:45-85 | At every moment of every run: the log entry of an ENQ names its node, persisted before the node can be linked, and is never marked; that of a DEQ is marked exactly from the store of an empty answer on, names no node before it has removed one, and no persisted mark goes with a persisted node |
| LogQueueProgress.StepsAreBounded | test/lockfreequeue/logqueue.cpp:53-111 | Lock freedom: on every schedule, also if operations stop for ever anywhere, the steps made from a moment of a run until the next call are bounded by a number known at that moment, because an operation goes round its loop again only after the queue has moved |
| LogQueueProgress.NobodyIsBlocked | test/lockfreequeue/logqueue.cpp:53-111 | At every moment of every run, wherever the others have stopped, an operation that goes on alone returns |
| LogQueueRecovery.CutsReplay | test/lockfreequeue/logqueue.cpp:45-112 | In every run, the first ne enqueues and the first nd dequeues of the history, with nd at most ne, are a history of a sequential queue and leave the nodes nd + 1 to ne |
| LogQueueRecovery.CutKeepsOperation | test/lockfreequeue/logqueue.cpp:45-112 | A cut that reaches the node an operation has linked or removed contains everything the operation did |
| LogQueueRecovery.RecoveryIsACut | test/lockfreequeue/logqueue.cpp:45-112 | Whenever power is lost, the values on the persisted links that carry no persisted mark are what a sequential queue holds after a cut of the history that lacks at most the last enqueue and the last dequeue and contains all that returned operations did |
| LogQueueRecovery.EmptyAnswersFitTheCut | test/lockfreequeue/logqueue.cpp:80-88 | For every DEQ that has returned empty there is a moment of its call at which that cut, so far, leaves an empty queue |
| RbTree.HeightIsLogarithmic | test/pmdk/rbtree_map.c:321-335 | A path is at most 2 * log2(n + 1) nodes long |
| RbTree.RotationKeepsIds | test/pmdk/rbtree_map.c:191-212 | A rotation keeps the objects of the tree, none twice |
| RbMap.Map.constructor | test/pmdk/rbtree_map.c:101-128 | The sentinel and header of a new map stand for the empty tree |
| RbMap.Map.Rotate | test/pmdk/rbtree_map.c:191-212 | The pointer writes turn the subtree and change no key, value, or object outside it but the parent's slot |
| RbMap.Map.InsertBst | test/pmdk/rbtree_map.c:217-236 | The new node hangs in a leaf position between the smaller and the other keys |
| RbMap.Map.Recolor | test/pmdk/rbtree_map.c:241-264 | One round keeps the entries and leaves at most one red pair, higher up or under a black parent |
| RbMap.Map.RecolorUp | test/pmdk/rbtree_map.c:282-287 | The loop ends in a red-black tree with the same entries |
| RbMap.Map.Insert | test/pmdk/rbtree_map.c:269-291 | Exactly the new entry is added, in front of all keys that are not smaller; all invariants are kept |
| RbMap.Map.FindNode | test/pmdk/rbtree_map.c:321-335 | Finds the highest node with the key or none exists; visits at most 2 * log2(n + 1) nodes |
| RbMap.Map.Get | test/pmdk/rbtree_map.c:443-451 | The value stored under the key, or null if there is none; of several, that of the highest node |
| RbMap.Map.Lookup | test/pmdk/rbtree_map.c:456-464 | True exactly when the key is there |
| RbMap.Map.Successor | test/pmdk/rbtree_map.c:296-316 | The next node in order, or the sentinel behind the last one |
| RbRepair.SiblingExists | test/pmdk/rbtree_map.c:344-350 | The sibling of a tree one black short is a node, and a red one has black children that are nodes |
| RbRepair.TurnedIsShort | test/pmdk/rbtree_map.c:345-350 | Turning a red sibling up keeps the order and the debt, and the new sibling is black |
| RbRepair.PassedIsShort | test/pmdk/rbtree_map.c:352-355 | Painting the sibling red moves the debt to the parent |
| RbRepair.InnerIsShort | test/pmdk/rbtree_map.c:357-362 | Turning the inner nephew up keeps the debt and makes the outer nephew red |
| RbRepair.PaidIsBalanced | test/pmdk/rbtree_map.c:363-368 | The last rotation pays the debt and keeps the entries |
| RbMap.Map.RepairBranch | test/pmdk/rbtree_map.c:340-372 | One round on the pointers keeps the entries and pays the debt or moves it up; the sentinel's parent, which is overwritten, stays right |
| RbMap.Map.Repair | test/pmdk/rbtree_map.c:378-386 | The loop ends, and the tree is red-black with the same entries |
| RbMap.Map.SpliceOut | test/pmdk/rbtree_map.c:409-421 | Taking out a node with at most one child and repairing leaves a red-black tree without its entry |
| RbMap.Map.TakePlace | test/pmdk/rbtree_map.c:423-433 | The successor takes over the place of the removed node |
| RbMap.Map.Remove | test/pmdk/rbtree_map.c:391-438 | A missing key changes nothing and gives null; otherwise exactly one entry with the key goes, that of the highest node, and its value is returned; all invariants are kept |
| BTree.HeightIsLogarithmic | test/pmdk/btree_map.c:182-206 | The leaves of n items are at most log4((n + 1) / 2) levels down |
| BTree.SplitInorder | test/pmdk/btree_map.c:182-206 | Splitting a full node under a parent with room keeps the order of all items |
| BTreeHeap.SplitCell | test/pmdk/btree_map.c:182-206 | The loop over the arrays leaves the first 3 items and 4 slots, hands out the median and moves the rest; emptied places are empty |
| BTreeHeap.InsertItemAt | test/pmdk/btree_map.c:265-276 | Shifting makes room and the item lands at its place |
| BTreeHeap.InsertNodeAt | test/pmdk/btree_map.c:161-177 | The median and the right half land behind the left half |
| BTreeMap.Map.SplitNode | test/pmdk/btree_map.c:216-225 | Both halves of a full node hang under a parent that had room |
| BTreeMap.Map.GrowRoot | test/pmdk/btree_map.c:226-238 | A full root is split under a new one with one item; the items stay in order |
| BTreeMap.Map.MakeRoom | test/pmdk/btree_map.c:211-239 | After the split the search goes on in the right half, in a node with room, and a measure falls although the tree may have grown |
| BTreeMap.Map.FindDest | test/pmdk/btree_map.c:211-260 | Ends in a leaf with room, at the place of the key; every split had room above it |
| BTreeMap.Map.Insert | test/pmdk/btree_map.c:289-310 | Exactly the new item is added, in key order; equal leaf depth, 3 to 7 items below the root and empty places behind the last item are kept |
| BTreeMap.Map.GetInNode | test/pmdk/btree_map.c:540-551 | In one subtree: an item with the key if there is one, null otherwise; of several, the first in the highest node |
| BTreeMap.Map.Get | test/pmdk/btree_map.c:556-562 | The value of an item with the key, or null if there is none; of several, that of the first in the highest node |
| BTreeMap.Map.Lookup | test/pmdk/btree_map.c:567-590 | True exactly when an item has the key |
| CritBit.FindCritBit | test/pmdk/ctree_map.c:65-69 | The highest bit in which two keys differ |
| CritBit.GreaterHasBit | test/pmdk/ctree_map.c:65-69 | Of two keys the one with the critical bit is the greater |
| CritBit.LeftIsLess | test/pmdk/ctree_map.c:144-174 | Every key on the left of a node is less than every key on its right |
| CritBit.BestIsIt | test/pmdk/ctree_map.c:238-262 | A key is in the trie if and only if the leaf its bits lead to has it |
| CritBit.InsertIsGood | test/pmdk/ctree_map.c:202-228 | Insertion adds or replaces exactly one key and keeps falling critical bits and bit-correct subtrees |
| CritBit.AddIsGood | test/pmdk/ctree_map.c:144-174 | The second descent follows the first up to the place of the new node |
| CritBit.DropIsGood | test/pmdk/ctree_map.c:296-321 | Removing the best leaf removes exactly its key |
| CritBit.MapDeterminesTrie | test/pmdk/ctree_map.c:144-174 | Tries with the same keys and values have the same shape, whatever the order of operations was |
| CritBit.RemoveUndoesInsert | test/pmdk/ctree_map.c:286-324 | Removing a key just inserted restores the trie |
| CtreeMap.CtreeMap.Descend | test/pmdk/ctree_map.c:209-215 | The loop ends at the leaf the bits select, with pointers to it and to its parent |
| CtreeMap.CtreeMap.Get | test/pmdk/ctree_map.c:238-262 | The value of the key if the map has it |
| CtreeMap.CtreeMap.InsertLeaf | test/pmdk/ctree_map.c:144-174 | The writes through the moving pointer put the new node where the trie insertion does |
| CtreeMap.CtreeMap.Insert | test/pmdk/ctree_map.c:202-233 | The map is updated at the key; the pool holds the canonical trie and no other object |
| CtreeMap.CtreeMap.Remove | test/pmdk/ctree_map.c:286-324 | The key goes and its value is returned; a missing key changes nothing; a node left with one child is freed |
| HashFunction.WordSteps | test/pmdk/hashmap_tx.c:111-121 | In 64-bit arithmetic neighbouring keys hash `a` apart, round the word |
| HashFunction.HashFolds | test/pmdk/hashmap_tx.c:111-121 | The modulus, then the number of buckets, folds that value |
| HashFunction.HashSteps | test/pmdk/hashmap_tx.c:111-121 | As long as the sum fits into 64 bits, neighbouring keys hash `a` apart round the modulus, from `b` on |
| HashFunction.CollidesExactly | test/pmdk/hashmap_atomic.c:152-163 | With `a` and `p` coprime, in a table of at least `p` buckets two keys whose sums fit share a bucket if and only if they differ by a multiple of `p` |
| HashFunction.SmallKeysApart | test/pmdk/hashmap_atomic.c:152-163 | So no two such keys below `p` share one |
| HashmapAtomic.Hashmap.constructor | test/pmdk/hashmap_atomic.c:126-146 | A new map is empty and consistent, its count clean |
| HashmapAtomic.Hashmap.MoveFirst | test/pmdk/hashmap_atomic.c:175-187 | One move puts an entry into the bucket its hash selects in the new table; no entry is lost or doubled |
| HashmapAtomic.Hashmap.RebuildFinish | test/pmdk/hashmap_atomic.c:168-207 | Wherever it is interrupted the entries are all there; when it is not, the new table is the table and the temporary pointer is null; exactly four stores and one for each entry still to move are made |
| HashmapAtomic.Hashmap.Rebuild | test/pmdk/hashmap_atomic.c:212-232 | The same with a fresh table of the wanted length, with exactly five stores and one for each entry |
| HashmapAtomic.Hashmap.Insert | test/pmdk/hashmap_atomic.c:241-289 | Power may go at any store: the entries are those before or with the new one; otherwise also count, result and growth are right, the dirty mark is cleared exactly when an entry was added and stays set when none could be allocated, and exactly the stores of the case are made |
| HashmapAtomic.Hashmap.Remove | test/pmdk/hashmap_atomic.c:298-337 | Power may go at any store: the entries are those before or without the one of the key; otherwise also count, result and shrinking are right, the dirty mark is cleared exactly when an entry went, and exactly the stores of the case are made |
| HashmapAtomic.Hashmap.Lookup | test/pmdk/hashmap_atomic.c:411-425 | True exactly when the key is there |
| HashmapAtomic.Hashmap.Recount | test/pmdk/hashmap_atomic.c:474-482 | Counts the entries of all buckets |
| HashmapAtomic.Hashmap.Init | test/pmdk/hashmap_atomic.c:446-496 | From any interrupted state, also of an earlier recovery: the same entries, each in its bucket, an exact count, a clean mark and a null temporary pointer; exactly the stores that the interrupted state still needs are made |
| HashmapTx.HashmapTx.constructor | test/pmdk/hashmap_tx.c:83-104 | A new map is empty and places keys by the hash function with its coefficients |
| HashmapTx.HashmapTx.Find | test/pmdk/hashmap_tx.c:193-199 | The walk finds the entry of a key, its predecessor and its position, or the key is in no bucket |
| HashmapTx.HashmapTx.MoveFirst | test/pmdk/hashmap_tx.c:145-157 | Relinking one entry keeps both tables free of cycles and every entry in exactly one of them |
| HashmapTx.HashmapTx.Rebuild | test/pmdk/hashmap_tx.c:126-173 | All entries end up in the new table, the map stays the same, the length is never zero |
| HashmapTx.HashmapTx.Insert | test/pmdk/hashmap_tx.c:182-228 | The finite map gains the key; the result says whether it was there or the transaction aborted; the table doubles exactly when crowded |
| HashmapTx.HashmapTx.Unlink | test/pmdk/hashmap_tx.c:253-260 | The predecessor, or the bucket, points past the entry; the others stay |
| HashmapTx.HashmapTx.Remove | test/pmdk/hashmap_tx.c:236-276 | The finite map loses the key if it had it and the transaction commits; the table halves exactly when sparse |
| HashmapTx.HashmapTx.Get | test/pmdk/hashmap_tx.c:336-351 | The value the map gives the key, or null |
| HashmapTx.HashmapTx.Lookup | test/pmdk/hashmap_tx.c:356-371 | True exactly when the map has the key |
| HashmapTx.HashmapTx.Count | test/pmdk/hashmap_tx.c:376-380 | The counter is the size of the map |
| Pool.Pool.constructor | test/echo/src/clibpm.c:348-361 | A new pool is one free clump and a terminator |
| Pool.ClumpBytes | test/echo/src/clibpm.c:419-427 | Requests are rounded up to whole chunks with a header, no more than needed beyond the least size |
| Pool.Pool.FindFit | test/echo/src/clibpm.c:435-518 | The search finds the first fit from where the last one ended, round the pool, or none exists |
| Pool.Pool.Reserve | test/echo/src/clibpm.c:419-506 | In every pool of a running program, also after recovery: fails exactly when no free clump fits; otherwise the rotating first fit is reserved: at least the rounded request and less than 128 bytes more are taken, exactly the request if 128 or more would be left, which then are one free clump; tiling is kept, and the boundary tags and no two free neighbours if they were there; a crash between stores leaves the layout; four stores are enough |
| Pool.Pool.Activate | test/echo/include/clibpm.h:167-178 | One store makes a reserved clump allocated; nothing else changes |
| Pool.Pool.UserWrite | test/echo/include/clibpm.h:167-178 | Whatever the owner of a clump writes into its memory, where headers may have been, the walk, the boundary tags and what is free stay right |
| Pool.Pool.FreeStores | test/echo/src/clibpm.c:531-617 | The stores of freeing, in any pool: which header is written, with which size, and which prevsize field follows |
| Pool.Pool.Free | test/echo/src/clibpm.c:531-617 | In every pool of a running program, also after recovery, which of three outcomes freeing has: joined with its free neighbours, astray, or freed but not joined; without a crash before it always joins; a crash leaves the pool before or after; every other allocated clump stays and nothing new is allocated |
| Pool.Pool.NextReservation | test/echo/src/clibpm.c:431-518 | After an astray store the next search begins strictly inside a free clump of the walk; what it finds lies there if and only if the request fits the stray header, and is else a fitting clump of the walk |
| Pool.Pool.ReserveAnywhere | test/echo/src/clibpm.c:419-506 | Reserving from any header, on the walk or not: the first fit from there, then from the first clump; which headers are written, and how much they take |
| Pool.Pool.Recover | test/echo/src/clibpm.c:186-247 | Settles every interrupted clump, and no other, by one store each; the layout stays, also when interrupted |
| Pool.Pool.Coalesce | test/echo/src/clibpm.c:258-303 | Joins every run of free clumps by one store; the layout stays, also when interrupted |
| Pool.Pool.Open | test/echo/src/clibpm.c:186-303 | Recovery, which may be interrupted and repeated, keeps every allocated clump at its place with its length and allocates nothing else; uninterrupted, for which two stores a clump are enough, it ends with the one normal form, and the pool is ready for use |
| Pool.Pool.FreeAndOpen | test/echo/src/clibpm.c:531-617 | A crash anywhere in freeing, then recovery: no other allocated clump has moved or gone, and nothing new is allocated |
| PoolLayout.NormalFormIsUnique | test/echo/src/clibpm.c:258-303 | Free and active clumps without two free neighbours are determined by the layout |
| PoolLayout.PayloadsAreDisjoint | test/echo/src/clibpm.c:419-506 | Memory handed out for different clumps does not overlap |
| PoolFreeing.FreesExactlyWhenSafe | test/echo/src/clibpm.c:531-617 | In any tiled pool freeing joins the clump with its free neighbours if and only if its prevsize field is safe |
| PoolFreeing.FreeLeadsTo | test/echo/src/clibpm.c:531-617 | In every pool that crashes and recovery leave, freeing reads and writes inside the pool and has the outcome that the prevsize field and the header it leads to determine; unless it goes astray, each prevsize field is afterwards right again or leads to a header inside a free clump, also when only the first store is made |
| PoolWitness.FreeIsLost | test/echo/src/clibpm.c:258-303 | In a new pool of any size with room for it, a run of three reservations, an activation, a crash, recovery and freeing, with all stores made, leaves the freed clump allocated |
| PoolWitness.SameMemoryTwice | test/echo/src/clibpm.c:419-506 | In a pool of any such size, after that the first and the last of four reservations get the same memory, with nothing freed in between |

## Left out

Of the repository:

- The clang checkers, their annotations and reports; `meet` and the context order they use are
  not a join and not an order, so no soundness of the dataflow analysis is claimed.
- Removal from the B-tree, which rebalances at the root with a null parent
  (test/pmdk/btree_map.c:517); clear, is_empty and foreach of the trees.
- Echo's iterators, statistics, local stores, garbage-collection passes, `CONSERVATIVE_LOCKS`,
  `UNSAFE_COMMIT`, runs with `detect_conflicts` off, and failed allocations.

Of what is modelled:

- Echo and the log queue are modelled on values, as relations between states, because their
  threads interleave; updates in place and aliasing are not captured there. A transition is one
  step under the record's lock; two reads of one field in a row are one step where nothing
  depends on the difference, and the backward scan keeps both of its reads. Appending takes the
  end snapshot and adds the record in one step, under the log's lock. A commit may begin at any
  snapshot number already handed out. The version table's place in the hash table is an atomic
  insert-if-absent, and the bound on its retries is not modelled.
- EchoDeletions.CommittedIsWritten: the equivalence is for records with one write for each key,
  which is what the local store's hash table hands over
  (test/echo/src/kp_kvstore.c:6280); for others only the first clause is claimed.
- EchoProgress.OwnerStepsAreBounded: does not bound runs in which new commits keep arriving.
- EchoReads.NoLostUpdate: about reads through snapshots, under the table's lock; what a program
  does with what it read, and the local store that is asked first, are not modelled.
- EchoVector.Vector.Resize: does not model the reallocation's leak window.
- Telescoping.Collector.Update: nothing else runs meanwhile, as under the collector's lock. What
  advances `last_gc_snapshot` and collects is not modelled, because it dies at its first line.
- The log queue's values are integers, every call is a new operation, and `logs[threadID]` is the
  operation's own entry; recovery itself is not in the repository, so the theorems say what it
  would find. Deallocation does not occur.
- The trees and both hash maps run inside the object library's transactions: those, its
  allocation and its list operations are atomic, and an object's place is a parameter. Within one
  pointer assignment the pool is stored before the offset, as the comment at
  test/pmdk/hashmap_atomic.c:197-203 assumes.
- HashmapAtomic.Hashmap.Remove: the value the code reads from the entry after freeing it is not
  modelled; the result is whether there was one.
- HashmapTx.HashmapTx.Remove: the same. An aborted transaction changes nothing; whether one
  aborts is a parameter.
- BTreeMap.Map.Insert: keys are not zero, because a zero key marks an empty place.
- CtreeMap.CtreeMap.Insert: the same.
- Pool.Pool.Reserve: where the code exits the program because nothing fits, the model returns
  nothing and leaves the pool as it was.
- Pool.Pool.Free: after a store that went astray the model promises the walk, the layout, recovery
  and where the search begins, but no longer where the prevsize fields lead.
- Pool.Pool.ReserveAnywhere: promises nothing of the walk when power is lost, and does not say what
  the prevsize fields are.
- Pool.Pool.Activate: the pointer list a clump can carry (`on`) and the stores recovery makes
  through it are not modelled.
- PoolFreeing.FreesExactlyWhenSafe: about the walk over sizes; the prevsize field written behind
  the clump is that of `Pool.Pool.FreeStores`.
- Within one header the size and prevsize stores are persisted one after the other; the code
  persists both at once.
