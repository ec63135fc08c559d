# Skip lists: a verified model

This project models the two skip lists of the repository and the parts they share, and proves what holds of them.

* **The lock-free list** (`src/internal/sync`) is a transition system. The shared memory is a heap of towers whose
  words are pointer-and-tag pairs; each thread has registers and an explicit program counter, and one step performs
  exactly one atomic load, store, fetch or compare-exchange of `insert`, `link_nodes`, `find`, `remove`,
  `set_removed`, `tag_levels`, `unlink`, `unlink_level`, `sub_ref`, `get`, `get_first`, `next_node` or
  `Entry::remove`. A run is any interleaving of the steps of any number of threads, which may appear at any time.
* **The single-threaded list** (`src/internal/skiplist.rs`) is a class over mutable towers, searched and relinked in
  place, with its iterators and its priority queue.
* **The bridge** reads the memory of a single-threaded list as a state of the lock-free list, which is what the
  `From` conversion does.
* **The words**: the packed height/count/removed word and the tagged pointer, in 64-bit arithmetic.

## How it is put together

| files | contents |
|---|---|
| `Common`, `Pairs`, `Towers` | options; sorted pairs and the finite map they stand for; rows of towers and the chains that run through them |
| `SyncState`, `SyncExec` | the lock-free list: memory, program counters, one step of one thread |
| `SyncInv`, `SyncStable`, `SyncActions`, `SyncSteps`, `SyncStart` | its invariant, why other threads cannot break it, why every step keeps it, where runs begin |
| `SyncTheorems`, `SyncDebts`, `SyncRefine` | what follows for whole runs: chains, tags, removals, reference counts, the atomic map |
| `SyncLost`, `SyncCalls`, `SyncSearches`, `SyncOutcomes`, `SyncReplacements`, `SyncAttempts`, `SyncTowers`, `SyncWitness` | how every call ends in any run: exactly when an insertion is lost, a removal misses or a search answers nothing, what the calls do and answer otherwise, how far towers are linked, and runs of two threads in which these things happen |
| `SyncLen` | `len` in any run: which steps change it, what it adds up to, and when a removal lowers it |
| `SyncStale` | what becomes of `next_node` on a stale entry, and a run of one thread that comes to it |
| `Progress`, `ProgressSteps` | why a thread that is left alone stops, and where |
| `Solo`, `SoloSteps`, `SoloOps`, `SoloRuns` | the same code run by one thread at a time: the answers of a finite map |
| `SoloHistories`, `SoloLen`, `SoloQueue`, `SoloIter` | histories of such calls, with `max_height` and with the exact value of `len`; the lock-free priority queue; `from_iter` and `into_iter` |
| `SeqList`, `SeqRuns` | the single-threaded list, runs of its operations, iterators, priority queue |
| `PackedWord`, `PackedRuns`, `TaggedPtr`, `TaggedRuns` | the machine words, and that in every run the protocol's fields and pairs are those words |
| `Bridge` | the conversion |

The invariant of the lock-free list is proved in the style of rely and guarantee: every step keeps the shared
invariant and the assertion of its own thread, and changes nothing that the assertion of another thread depends on
(`Mono` and the `Kept` predicates). To state the invariant, each level of each node carries an auxiliary history
(fresh, reserved by its inserter, linked, being unlinked by some thread, gone) and each level has an auxiliary chain;
the steps update them but never read them. That the chains are what the pointers really spell out is a theorem
(`ChainIsReachable`).

## What the model assumes

* Memory is sequentially consistent, and node identities are never reused. This stands in for the memory orderings
  and for the hazard pointers, which keep a retired node from being freed while somebody may still look at it.
* Keys and values are integers with their usual order; the code only compares keys.
* Under interleaving, nothing is assumed of `max_height`: `find` may start at any level, and the height drawn for a
  node is any of 1 to 32. This covers every value that two threads can leave in `max_height` when one overwrites what
  the other has stored. In undisturbed histories `max_height` is followed from state to state: it stays a bound of all
  heights if it was one (`SoloHistories.TopKept`), so that every search starts at or above all levels in use, and a new
  or converted list starts with such a bound (`BuiltInPlace`, `Bridge.ConvertedInPlace`).
* The height bits, the count and the removed bit of a node are separate fields in the protocol, and a tagged pointer
  is a pair. `PackedRuns.WordTracks` and `TaggedRuns.ExchangeExact` prove for every run that nothing is lost by this.
  The latter takes any placement of the nodes at distinct, aligned, non-null addresses (`TaggedPtr.Placed`).
* A thread calls one operation at a time. `Entry::remove` and `next_node` are called on nodes for which some caller
  has been given an entry.
* `Panic` stands for a panic of the source, `Fault` for an index outside an allocated tower. The search for the closest
  node ends in a `Fault`: it leaves `level` at 0 and goes on to index `level - 1`, which a build with overflow checks
  turns into a panic. When `get_first` turns to that search, it takes the key of the head, which the code has not
  initialised; here it is an arbitrary number.

## Where the code and what is said about it differ

* An `insert` may end without ever putting its key into the map, and `len` then stays too large. This happens if and
  only if at some point of the call the successor recorded at the bottom stands in the way (`SyncOutcomes.InsertOutcome`);
  `SyncWitness.InsertCanBeLost` is a run in which it does. Without interleaving it cannot happen (`SoloHistory`).
* A comment in `remove` takes a failing `set_removed` to mean that another thread is removing the node. The
  compare-exchange is on the whole word, so it also fails when only the reference count has changed, and `remove` then
  answers nothing while the map has the key. `SyncOutcomes.RemoveOutcome` says exactly when a `remove` answers nothing,
  `CountChanged` that the map still has the key when only the count has changed, and `SyncWitness.RemoveCanMiss` is such a run.
* `next_node` says that it cannot give a sane answer for a stale entry and searches for the closest node instead, as it
  does after losing a race to unlink. That search never returns: alone, it ends outside a tower. `TurnsAstray` says
  exactly when a thread turns to it, `AstrayForever` and `ObstructionFree` what becomes of it, and
  `SyncStale.NextCanFault` is a run of one thread in which it happens.
* Draining the lock-free list yields its map if and only if no removed node is left on the bottom chain; after
  `Entry::remove` removed pairs are drained too (`SoloIter.CollectedSorted`).
* `Entry::remove` takes its node out of the map and leaves `len` as it is; searches that unlink the tower later do not
  lower `len` either. So on a list used by one thread at a time `len` exceeds the number of keys by exactly one for each
  node removed through an entry (`SoloLen.LenExact`). `pop` of the lock-free queue removes through an entry, so it never
  lowers the `len` of the queue (`SoloQueue.QueueLen`), and `is_empty` stays false when the last item has been popped.
* A comparison with a binary heap suggests that the priority queue keeps duplicates. A second `push` of an item
  replaces the first, so the queue is a set (`SeqRuns.RunQueue`).

## Model

| member | source | states |
|---|---|---|
| SyncSteps.StepKeeps | src/internal/sync/mod.rs:39-477 | whichever atomic step a thread takes, the shared invariant and the thread's own assertion hold afterwards, and nothing that another thread relies on is undone |
| SyncSteps.NextKeeps | src/internal/sync/mod.rs:39-477 | the invariant of the whole system, for any number of threads, is kept by every step and by the arrival of a thread |
| SyncStart.RunInv | src/internal/sync/mod.rs:39-477 | the invariant holds in every state of every run, from an empty list or from any converted one |
| SyncStart.BuiltInv | src/internal/sync/mod.rs:518-527 | every row of towers, with one reference per level and no tags, satisfies the invariant of the lock-free list |
| SyncTheorems.NoPanicNoFault | src/internal/sync/mod.rs:169-477 | in every run no thread panics (tagged too early, head unlinked, count underflow, `expect` in `Entry::remove`), and none but one searching for the closest node indexes outside a tower |
| SyncTheorems.ChainIsReachable | src/internal/sync/mod.rs:278-390 | at every level and in every reachable state the nodes reachable from the head form a finite chain without repetition, each reachable by one path only |
| SyncTheorems.BottomSorted | src/internal/sync/mod.rs:115-155 | keys strictly increase along the bottom chain, counting removed nodes that are still linked |
| SyncTheorems.NextMono | src/internal/utils/node.rs:133-226 | no step undoes a removal, changes a tagged word, a key or a height, or takes a node back from the retired ones |
| SyncTheorems.RunMono | src/internal/utils/node.rs:133-226 | the same between any two moments of a run |
| SyncTheorems.NeverLost | src/internal/sync/mod.rs:102-166 | a node on the bottom chain is still on it at any later moment at which its removed bit is clear |
| SyncTheorems.RetiredForever | src/internal/sync/mod.rs:263-303 | a node is retired at most once, and from then on it is on no chain of any level |
| SyncTheorems.DropFreesOnce | src/internal/utils/mod.rs:145-165 | the nodes that the destructor would free and the nodes already retired are all different |
| SyncTheorems.TagsTopDown | src/internal/utils/node.rs:211-226 | a tag means that the node is removed and every level above is tagged, and the tagged word keeps its pointer and tag for the rest of the run |
| SyncTheorems.OnlyRemoverTags | src/internal/utils/node.rs:184-226 | only the thread that won the compare-exchange on the removed bit sets tags of the node; the winner is recorded when the bit is set, once, and never replaced |
| SyncTheorems.HandedOnce | src/internal/sync/mod.rs:45-92 | over a whole run no node is returned twice as removed or replaced, by `insert`, `remove` or `Entry::remove`, and all nodes so returned are removed |
| SyncTheorems.AnswersItsKey | src/internal/sync/mod.rs:39-440 | what `get`, `remove` and `insert` return has the key they were called with |
| SyncLen.LenStep | src/internal/sync/mod.rs:212-261 | in every state of the invariant: a completed `unlink` lowers `len` by one and takes its node, which was counted, out of the count; an `insert` that has created its node raises it by one and counts it; no other step changes either |
| SyncLen.LenBalance | src/internal/sync/mod.rs:39-92 | in every run `len` is its first value, plus one for each node that an `insert` counted, less one for each completed `unlink` |
| SyncLen.UnlinkOutcome | src/internal/sync/mod.rs:212-261 | every removal by `insert` or `remove` that ends, in every run: it has lowered `len` and uncounted its node, once and as its last step, if and only if every compare-exchange met the recorded predecessor still pointing to the node |
| SyncTheorems.LenCovers | src/internal/sync/mod.rs:427-477 | `len` is never below the number of linked, unremoved nodes, so the shortcut on an empty list hides none |
| SyncDebts.RunDebts | src/internal/sync/mod.rs:135-155 | a level is reserved or half unlinked only while the thread responsible stands between its two steps |
| SyncDebts.ZeroRetires | src/internal/sync/mod.rs:263-303 | the thread whose decrement brings a count to zero retires the node: at any later moment the node is retired, or that thread still stands before retiring it |
| SyncDebts.RefsAccount | src/internal/sync/mod.rs:139-270 | a count is the number of levels at which the node is linked, announced by its inserter, or dropped and not yet paid for; it lies between 0 and the height |
| SyncDebts.DebtsDisjoint | src/internal/sync/mod.rs:242-251 | these reasons exclude each other: per level at most one, and at most one thread |
| SyncRefine.ChainStep | src/internal/sync/mod.rs:102-303 | every step leaves all chains alone, or puts one never-linked node on one chain behind an untagged node, or drops one node tagged at that level from one chain |
| SyncRefine.LiveStep | src/internal/sync/mod.rs:102-303 | the set of live nodes changes only by the removal of one node or the linking of one new node at the bottom |
| SyncRefine.LiveUnique | src/internal/sync/mod.rs:115-129 | no two live nodes share a key |
| SyncRefine.MapStep | src/internal/sync/mod.rs:39-210 | the list is an atomic map: a step changes the map only by taking out the key of the node it marks as removed, which was in it, or by adding the key and value of its `insert`, and the key was not in it |
| SyncRefine.CheckIsTrue | src/internal/sync/mod.rs:418-421 | when the last check of `find` succeeds, the node is live and the map has its key and value at that instant |
| SyncRefine.GetAnswers | src/internal/sync/mod.rs:427-440 | only that check leads a `get` to an answer |
| SyncRefine.GetJustified | src/internal/sync/mod.rs:427-440 | every successful `get` has such an instant inside the call, in every run |
| SyncSearches.GetOutcome | src/internal/sync/mod.rs:427-440 | for every `get` of every run, when it is about to return: it answers nothing if and only if it read a `len` below 1, or its descent ended in one of two ways: the node it settled on at the bottom, whose key is smaller, had no successor at the last load, or the successor loaded there had another key or was removed when checked |
| SyncSearches.NextOutcome | src/internal/sync/mod.rs:446-477 | for every `get_first` and `next_node` of every run that returns: it answers nothing because it read a `len` below 1, or else it answers what it read of the bottom level behind the node at a step of the call: nothing, or an untagged successor, which was on the bottom chain then |
| SyncRefine.NextIsLinked | src/internal/sync/mod.rs:446-467 | the node that `next_node` answers with is on the bottom chain at the moment its word is read as untagged |
| SyncLost.GivesUp | src/internal/sync/mod.rs:115-129 | at the bottom `link_nodes` gives up exactly when the recorded successor's key is not beyond the new one |
| SyncLost.LostInsert | src/internal/sync/mod.rs:68-92 | once it has given up there, the node is on no chain in any later state of the run, and `len` exceeds the number of live nodes for ever |
| SyncOutcomes.InsertOutcome | src/internal/sync/mod.rs:39-166 | for every `insert` of every run, when it is about to return: its node is an orphan, counted and never to be linked, if and only if at some point of the call the bottom successor stood in the way, and then `len` exceeds the number of live nodes; otherwise, and only then, at some step of the call the map lacked the key and gained it with the value |
| SyncReplacements.InsertAnswer | src/internal/sync/mod.rs:39-92 | for every `insert` of every run, when it is about to return: it answers nothing if and only if the call itself took no node out of the map; otherwise it answers the node that it took out last, at a step at which the map had the key with that node's value |
| SyncAttempts.SearchOutcome | src/internal/sync/mod.rs:305-421 | in every run each search of `insert`, `remove` and `get` that ends is complete: it missed in one of the two ways of `GetOutcome`, or it accepted the candidate loaded behind the node that it had settled on |
| SyncAttempts.PursueOutcome | src/internal/sync/mod.rs:39-92 | for every `insert` and `remove` of every run: each node with the key that a search of the call, other than a last one to clean up, has accepted, and that the `insert` has not created itself, the call has afterwards taken out of the map, or failed to, before it returns |
| SyncAttempts.LinkOutcome | src/internal/sync/mod.rs:45-92 | in every run, whenever an `insert` is about to create its node or to exchange the word of a predecessor, it has completed a search, and since then it has lost no exchange of `link_nodes` and marked no node as removed |
| SyncAttempts.HandOverStep | src/internal/sync/mod.rs:655-659 | a call hands over exactly what it answers with, when it returns: an entry, and from `insert`, `remove` and `Entry::remove` the node as removed or replaced; no other step hands anything over |
| SyncTowers.TowerOutcome | src/internal/sync/mod.rs:102-166 | for every `insert` of every run, when it is about to return: its node has been linked at all its levels if and only if the call never stopped at a level; it stops where it finds its node removed, or the recorded successor not beyond a node that is not removed, or, above the bottom, no reference to the node left, and for no other reason |
| SyncTowers.SweepOutcome | src/internal/sync/mod.rs:157-210 | in every run, before it returns, an `insert` searches once more, down to the bottom, if and only if it found its node removed when it was done with linking, and a `remove` if and only if its `unlink` met a predecessor that no longer pointed to the node |
| SyncOutcomes.RemoveOutcome | src/internal/sync/mod.rs:169-210 | for every `remove` of every run, when it is about to return: it answers nothing if and only if its search missed, in one of the two ways of `GetOutcome`, or `set_removed` met a target that was removed already or whose count had changed since it was read; any other answer is the node that the call took out of the map itself, when the map had the key with that node's value |
| SyncOutcomes.EntryOutcome | src/internal/sync/mod.rs:551-560 | the same of `Entry::remove`: nothing if and only if `set_removed` failed in one of these ways, otherwise the node of the entry, which the call took out of the map itself |
| SyncOutcomes.CountChanged | src/internal/utils/node.rs:184-209 | when only the count has changed, `remove` gives up without touching anything, and the map still has the key |
| SyncWitness.InsertCanBeLost | src/internal/sync/mod.rs:115-129 | a run of two threads, one of which has marked the node of a key as removed and not tagged it yet: the `insert` of the same key by the other returns, its node is on no chain, the map lacks the key, and `len` is too large |
| SyncWitness.RemoveCanMiss | src/internal/sync/mod.rs:176-184 | a run of two threads in which an inserter counts a reference between the load and the compare-exchange of `remove`: it answers nothing, although the map has the key and no node has been removed |
| ProgressSteps.StepLess | src/internal/sync/mod.rs:39-477 | a step of a thread that nobody disturbs lowers a measure of its call, whatever state it starts from |
| ProgressSteps.TurnsAstray | src/internal/sync/mod.rs:446-467 | a thread turns to the search for the closest node if and only if `next_node` is called on an entry whose bottom word is tagged, or loses the compare-exchange that unlinks a tagged successor |
| ProgressSteps.AstrayForever | src/internal/sync/mod.rs:390-417 | a thread that has turned to that search never returns from its call, in any run |
| SyncStale.DoomedFaults | src/internal/sync/mod.rs:390-417 | from every reachable state in which a thread is at that search, or about to be, there is a run in which it indexes outside a tower |
| SyncStale.NextCanFault | src/internal/sync/mod.rs:446-452 | there is such a run of one thread, which removes a node through its entry and then asks the entry for its successor |
| ProgressSteps.DoomedStep | src/internal/sync/mod.rs:446-477 | whether a thread that is left alone ends up in that search is settled where it stands: it does if it is there, or was given a stale entry, or is inside `get_first` or `next_node` and is going to meet a tagged successor behind a word that others have changed |
| ProgressSteps.ObstructionFree | src/internal/sync/mod.rs:39-477 | stop all other threads in any reachable state: a thread going on alone, from wherever it is in its call, stops after finitely many steps, outside a tower if and only if it was doomed in that sense, which only `get_first` and `next_node` can be, and otherwise about to return |
| SoloSteps.GapAfter | src/internal/sync/mod.rs:305-390 | between adjacent live nodes of the bottom chain the map has no key |
| SoloSteps.FoundRight | src/internal/sync/mod.rs:418-421 | what an undisturbed search ends on carries the key exactly if the map has it |
| SoloSteps.FoundClean | src/internal/sync/mod.rs:344-368 | after an undisturbed search the removed node it passed is off the bottom chain |
| SoloSteps.DropSolo | src/internal/sync/mod.rs:278-295 | undisturbed, the compare-exchange that unlinks a tagged successor cannot fail |
| SoloOps.TakeSolo | src/internal/utils/node.rs:184-209 | undisturbed, `set_removed` succeeds and takes exactly the target's key out of the map |
| SoloOps.JoinSolo | src/internal/sync/mod.rs:131-155 | undisturbed, linking at the bottom succeeds and adds exactly the key and value of the call |
| SoloOps.StepSolo | src/internal/sync/mod.rs:39-477 | every step of an undisturbed call keeps what the call knows about the map it started from |
| SoloRuns.SoloAnswers | src/internal/sync/mod.rs:39-477 | an undisturbed call answers and acts like the map that specifies the single-threaded list, whatever removed and tagged towers are still linked; it leaves no removal half done, and leaves no removed node on the bottom chain unless it was `Entry::remove`; if its searches start high enough, it keeps live nodes linked at all their levels |
| SoloHistories.DrawnCut | src/internal/utils/mod.rs:109-133 | when exactly the lowest o levels are in use, the height drawn is the draw, cut to 32 and to the larger of 3 and o + 1, as in the single-threaded list |
| SoloHistories.TopKept | src/internal/utils/mod.rs:109-133 | an undisturbed creation draws such a height for some draw, and one of 4 or more only if the second level below its top is in use; `max_height` becomes the larger of the two and stays a bound of all heights; a search that starts where the loop at the top of `find` ends then starts at or above every level in use |
| SoloHistories.StartsAreHigh | src/internal/sync/mod.rs:326-331 | so all searches of an undisturbed call start high enough, and `max_height` is a bound again at its end |
| SoloHistories.SoloReturns | src/internal/sync/mod.rs:39-477 | in every state of the invariant, every legal call can run undisturbed until it returns, unless it is `next_node` on an entry whose bottom word is tagged |
| SoloHistories.StaleNeverReturns | src/internal/sync/mod.rs:446-452 | that one call never returns |
| SoloHistories.SoloHistory | src/internal/sync/mod.rs:39-477 | any history of undisturbed calls, by any threads, gives the replies of that map and ends with it; `get_first`, `next_node` and `Entry::remove` answer as the map at that point demands; everything that was in place, live nodes fully linked and `max_height` a bound, is still in place at the end |
| SoloLen.ExcessKept | src/internal/sync/mod.rs:39-261 | an undisturbed call, from any state with everything in place and all levels in order, leaves `len` as far ahead of the number of keys as it was, and one further exactly if it is an `Entry::remove` that removes its node; all levels are in order again |
| SoloLen.LenExact | src/internal/sync/mod.rs:212-261 | calls one at a time on a new list or any row of towers: at the end of each of them `len` is the number of keys plus the number of nodes removed through entries so far, so it is the number of keys as long as there are none |
| SoloLen.LenConverted | src/internal/sync/mod.rs:518-527 | the same on a converted list, with the `len` and `max_height` that it brings along |
| SoloHistories.BuiltInPlace | src/internal/utils/mod.rs:91-99 | a new list, and any row of towers below `max_height`, starts with everything in place |
| SoloHistories.SoloPop | src/collections/priority_queue.rs:66-70 | undisturbed, `pop` of the lock-free queue takes the least item, and answers nothing only when there is none |
| SoloQueue.QueueRuns | src/collections/priority_queue.rs:54-78 | any undisturbed run of `push`, `peek` and `pop` on the lock-free queue, by any threads, yields the least item of the set each time |
| SoloQueue.QueueLen | src/collections/priority_queue.rs:66-78 | after such a run `len` of the queue is the number of items plus the number of times `pop` has yielded one |
| SoloIter.IntoIter.MoveNext | src/internal/sync/iter.rs:94-111 | each call yields the pair of the next node of the bottom chain and frees that node |
| SoloIter.Collect | src/internal/sync/iter.rs:67-111 | draining yields the bottom chain in order and frees each of its nodes exactly once |
| SoloIter.CollectedSorted | src/internal/sync/iter.rs:67-111 | draining yields strictly ascending keys, and it yields the map if and only if no removed node is left on the bottom chain |
| SoloIter.SortsAndDeduplicates | src/internal/sync/iter.rs:52-64 | `from_iter` and then `into_iter` yield strictly ascending keys, each with the last value supplied for it |
| PackedWord.PackUnpack | src/internal/utils/node.rs:133-139 | height, count and removed bit occupy disjoint bits and all bits of the word |
| PackedWord.WordsAgree | src/internal/utils/node.rs:184-209 | comparing the whole word compares all three fields |
| PackedWord.AddRefFields | src/internal/utils/node.rs:141-159 | adding a reference changes the count alone exactly when the count is below its maximum |
| PackedWord.SubRefFields | src/internal/utils/node.rs:161-175 | subtracting one changes the count alone unless it is zero, in which case the removed bit flips |
| PackedWord.WithRemovedFields | src/internal/utils/node.rs:184-209 | setting the removed bit changes nothing else and makes a difference exactly when it was clear |
| PackedWord.Packed.AddRefRaw | src/internal/utils/node.rs:141-147 | returns the old word and adds one to the count alone, unless the count is at its maximum |
| PackedWord.Packed.TryAddRef | src/internal/utils/node.rs:149-159 | refuses at zero, otherwise counts one more and returns the new count |
| PackedWord.Packed.SubRefRaw | src/internal/utils/node.rs:161-164 | returns the old word and takes one from the count alone; at zero it borrows from the removed bit |
| PackedWord.Packed.TrySubRef | src/internal/utils/node.rs:166-175 | panics at zero without a change, otherwise counts one less and returns the new count |
| PackedWord.Packed.SetRemoved | src/internal/utils/node.rs:184-209 | whatever word the compare-exchange meets, it succeeds exactly when the bit was clear at the load and no field has changed since; then only the bit changes, otherwise nothing does |
| PackedWord.LayoutHolds | src/internal/utils/node.rs:118-124 | the layout asked for has room for the whole tower and no more: with the first level at the end of the fixed part and the others behind it, one directly after the other, every level below the height lies inside the size, the top level ends exactly there, and the alignment is the node's |
| PackedWord.LayoutSurvives | src/internal/utils/node.rs:94-124 | after any updates, even overflowing ones, `dealloc` computes the layout that `alloc` used |
| PackedRuns.WordTracks | src/internal/utils/node.rs:141-209 | for every run, by induction from its first state: the packed words, updated with wrapping arithmetic and whole-word comparison, hold the protocol's fields in every state, and so do the words that threads have loaded for `set_removed` |
| PackedRuns.MachineExists | src/internal/utils/node.rs:133-139 | every run has such words |
| PackedRuns.LayoutKept | src/internal/utils/node.rs:94-124 | in every run the height read from a node's word never changes |
| TaggedPtr.UnusedBelowAlign | src/internal/sync/tagged.rs:118-124 | for an alignment the unused bits are all bits below it |
| TaggedPtr.ProvenanceKeepsAddress | src/internal/sync/tagged.rs:126-129 | offsetting a pointer to an address with wrapping arithmetic yields that address |
| TaggedPtr.DecomposeCompose | src/internal/sync/tagged.rs:16-40 | taking apart what was composed gives the pointer and the tag back |
| TaggedPtr.ComposeDecompose | src/internal/sync/tagged.rs:16-40 | composing what was taken apart gives the word back |
| TaggedPtr.PlacementExists | src/internal/sync/tagged.rs:118-124 | as many nodes as fit into the address space have a placement at distinct, aligned, non-null addresses |
| TaggedPtr.EncodeInjective | src/internal/sync/tagged.rs:46-72 | for any placement of the allocated nodes, comparing composed words is comparing pointer-and-tag pairs |
| TaggedRuns.ExchangeExact | src/internal/sync/tagged.rs:74-103 | in every state of every run and for any placement, each compare-exchange of the protocol finds its composed word exactly when it finds its pair, and leaves the composed word of the pair it leaves |
| TaggedPtr.NoTagAtAlignOne | src/internal/sync/tagged.rs:118-124 | with alignment one there would be no room for a tag |
| TaggedPtr.CompareExchangeTag | src/internal/sync/tagged.rs:91-103 | whatever words other threads put in between, the retry loop stores the tag over an unchanged pointer, or refuses at the first foreign tag, or has been beaten every time so far |
| SeqList.SkipList.constructor | src/internal/utils/mod.rs:91-99 | a new list is valid and empty |
| SeqList.SkipList.OccupiedPrefix | src/internal/utils/mod.rs:124-130 | the levels in use are exactly the lowest ones up to the tallest node, at most the number of nodes ever inserted plus two |
| SeqList.SkipList.GenHeight | src/internal/utils/mod.rs:109-133 | the height is the draw, cut to 32 and to the larger of 3 and one more than the levels in use; `max_height` becomes the larger of the two |
| SeqList.SkipList.StartLevel | src/internal/skiplist.rs:136-145 | a search starts at the highest level in use, so skipping the empty ones loses nothing |
| SeqList.SkipList.Find | src/internal/skiplist.rs:136-177 | at every one of the 32 levels the search path holds the last tower below the key, and the target is the node with the key, or null if there is none; every access stays inside its tower, and the search ends |
| SeqList.MatchPairs | src/internal/skiplist.rs:166-176 | a target is found exactly when the map has the key |
| SeqList.SkipList.LinkNodes | src/internal/skiplist.rs:52-62 | after relinking level by level the row has the new node behind the last smaller key, all words of all towers are right again, and the node holds one reference per level |
| SeqList.LinkedRow | src/internal/skiplist.rs:52-62 | a node linked at all its levels belongs to the row at every level at once |
| SeqList.SkipList.InternalInsert | src/internal/skiplist.rs:21-43 | a key that is there keeps its node, and its value is replaced or kept as asked; otherwise the row gains one node of that key and value, behind the last smaller key, of the height that `gen_height` gives for the draw and the levels in use, and `max_height` is raised to it |
| SeqList.SkipList.Insert | src/internal/skiplist.rs:13-15 | returns the previous value; the map is updated |
| SeqList.SkipList.InsertConditionally | src/internal/skiplist.rs:17-19 | keeps the stored value and returns the argument when the key is there |
| SeqList.SkipList.Unlink | src/internal/skiplist.rs:106-116 | after bypassing level by level the node is out of the row at every level, and all words are right again |
| SeqList.BypassedRow | src/internal/skiplist.rs:106-116 | a node bypassed at all its levels is out of the row at every level at once |
| SeqList.SkipList.InternalRemove | src/internal/skiplist.rs:79-103 | returns the key and value if the key is there, takes it out of the map, and frees exactly one node of the row, which was not freed before |
| SeqList.SkipList.Remove | src/internal/skiplist.rs:64-66 | the pair is returned and gone from the map, and one node is freed, exactly if the key was there |
| SeqList.SkipList.RemoveFirst | src/internal/skiplist.rs:68-77 | takes the first pair of the list and leaves the rest |
| SeqList.SkipList.Get | src/internal/skiplist.rs:179-196 | finds the node of the key with the value in the map, or null exactly when there is none |
| SeqList.SkipList.NextNode | src/internal/skiplist.rs:220-238 | the next node in order; the branches for tagged nodes are dead |
| SeqList.SkipList.GetFirst | src/internal/skiplist.rs:240-251 | the first node in order, or null |
| SeqList.SkipList.GetLast | src/internal/skiplist.rs:266-274 | an entry of the map with the greatest key, or null exactly when the map is empty |
| SeqList.SkipList.TraverseWith | src/internal/skiplist.rs:286-304 | the callback sees every pair once, in ascending order of keys |
| SeqList.SkipList.Drain | src/internal/skiplist.rs:495-528 | `into_iter` yields all pairs in ascending order and leaves nothing |
| SeqList.SkipList.Drop | src/internal/utils/mod.rs:145-165 | after the destructor every node ever inserted has been freed exactly once, and nothing else has |
| SeqRuns.Step | src/internal/skiplist.rs:13-196 | each operation gives the reply of the finite ordered map and turns the list into the next map |
| SeqRuns.RunOps | src/internal/skiplist.rs:13-196 | any run of operations, whatever heights are drawn, gives the replies of the finite ordered map |
| SeqRuns.RunBoth | src/internal/utils/mod.rs:109-133 | two lists that hold the same map, taken through the same operations with different heights drawn, give the same replies and hold the same pairs |
| SeqRuns.Iter.MoveNext | src/internal/skiplist.rs:446-460 | returns the entry prepared before and prepares the next one in order |
| SeqRuns.Collect | src/internal/skiplist.rs:429-460 | iterating visits every key once, in ascending order, with its value |
| SeqRuns.PriorityQueue.Push | src/collections/priority_queue.rs:33-35 | adds the item to the set |
| SeqRuns.PriorityQueue.Peek | src/collections/priority_queue.rs:37-39 | yields the least item, or nothing exactly when the set is empty |
| SeqRuns.PriorityQueue.Pop | src/collections/priority_queue.rs:41-43 | takes the least item |
| SeqRuns.PriorityQueue.Len | src/collections/priority_queue.rs:45-47 | the size of the set |
| SeqRuns.RunQueue | src/collections/priority_queue.rs:33-51 | in any run of `push`, `peek` and `pop` each answer is the least item of the set so far |
| Bridge.LevelChain | src/internal/skiplist.rs:52-62 | in every valid list the pointers of each level visit exactly the nodes tall enough for it, in the order of level 0, and no word is tagged |
| Bridge.ConvertedIsBuilt | src/internal/sync/mod.rs:518-527 | word for word, the memory of a valid single-threaded list is that of a row of towers |
| Bridge.ConvertedStarts | src/internal/sync/mod.rs:518-527 | the conversion starts the protocol in a valid state: one reference per level, nothing removed, nothing tagged, and runs may begin there |
| Bridge.ConvertedMap | src/internal/sync/mod.rs:518-527 | the lock-free list stands for the same map as the list it was made from |
| Bridge.ConvertedInPlace | src/internal/sync/mod.rs:518-527 | it starts with everything in place: no removal, live nodes fully linked, and the taken-over `max_height` a bound |
| Towers.PositionsFilter | src/internal/skiplist.rs:52-62 | the chain of a level is the row filtered by height: ascending, and nothing missing |
| Pairs.MapOfUnique | src/internal/skiplist.rs:429-460 | an ascending list of pairs is determined by its map |

## Left out

- Linearizability of the answer `None` under concurrency, which the code does not give. What does hold is stated by
  `MapStep`, `GetJustified`, `GetOutcome`, `NextOutcome`, `InsertOutcome`, `InsertAnswer`, `RemoveOutcome` and
  `EntryOutcome`.
- Memory orderings weaker than sequential consistency, hazard pointers, the time at which retired nodes are freed, and
  the reuse of addresses.
- Under concurrency: equality of `len` and the number of keys, retirement of every removed node (a count that the raw
  `sub_ref` after a failed link brings to zero is not followed by a retirement), and the order of keys on the upper
  levels. The code maintains none of them in every interleaving.
- Progress of all threads together: only a thread that is left alone is shown to finish.
- How a seed becomes a number of trailing zeros; the draw is a parameter.
- The mutable iterator and mutable entries, `Removable`, `get_last` of the lock-free list, `Padded`, `Debug`,
  `Display`, the unused skip-list trait, benches and fuzzing: nothing that the operations above do not already show.
- A failed allocation, and the exhaustion of the 64-bit `len`.
- SoloHistories.SoloReturns: excludes `next_node` on a stale entry, which never returns (`StaleNeverReturns`).
- SyncTheorems.AnswersItsKey: says nothing of `next_node` and `Entry::remove`, which are not called with a key.
- SoloIter.SortsAndDeduplicates: the values that `insert` returns along the way are dropped, as `from_iter` does.
- SeqList.SkipList.TraverseWith: the callback is represented by the sequence of pairs that it sees.
