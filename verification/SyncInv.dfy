/**
  What holds in every reachable state of the lock-free list: an invariant of the shared memory and,
  for each program counter, an assertion about the thread that is there.
 */
module SyncInv {
  import opened Common
  import opened SyncState
  import opened SyncExec

  // ------------------------------------------------------------------ vocabulary

  ghost predicate EverState(l: LinkState) {
    l.Linked? || l.Unlinking? || l.Gone?
  }

  ghost predicate HeldState(l: LinkState) {
    l.Reserved? || l.Linked? || l.Unlinking?
  }

  /** Node n has a level i, and has been put on the chain of that level at some time. */
  ghost predicate EverLinked(sh: Shared, n: NodeId, i: nat) {
    && n < |sh.heap| && n < |sh.shadow| && i < |sh.heap[n].levels| && i < |sh.shadow[n].links|
    && EverState(sh.shadow[n].links[i])
  }

  /** A regular node, not the head, that has been on chain i. */
  ghost predicate Visited(sh: Shared, n: NodeId, i: nat) {
    EverLinked(sh, n, i) && n != HEAD
  }

  ghost predicate Tagged(sh: Shared, n: NodeId, i: nat) {
    n < |sh.heap| && i < |sh.heap[n].levels| && sh.heap[n].levels[i].tag
  }

  ghost predicate OnChain(sh: Shared, n: NodeId, i: nat) {
    n < |sh.shadow| && i < |sh.shadow[n].links| && sh.shadow[n].links[i].Linked?
  }

  ghost predicate KeyBelow(sh: Shared, n: NodeId, k: int) {
    n == HEAD || (n < |sh.heap| && sh.heap[n].key < k)
  }

  /** The number of levels that hold a reference. */
  ghost function CountHeld(links: seq<LinkState>): nat {
    if links == [] then 0 else (if HeldState(links[0]) then 1 else 0) + CountHeld(links[1..])
  }

  // ------------------------------------------------------------------ shared memory

  ghost predicate HeadOk(sh: Shared) {
    && |sh.heap| >= 1 && |sh.shadow| == |sh.heap| && |sh.chain| == HEIGHT
    && sh.heap[HEAD].height == HEIGHT && !sh.heap[HEAD].removed
    && forall i :: 0 <= i < |sh.shadow[HEAD].links| ==> sh.shadow[HEAD].links[i].Linked?
  }

  ghost predicate NodeShape(sh: Shared, n: NodeId) {
    && n < |sh.heap| && n < |sh.shadow|
    && 1 <= sh.heap[n].height <= HEIGHT
    && |sh.heap[n].levels| == sh.heap[n].height
    && |sh.shadow[n].links| == sh.heap[n].height
  }

  /** A node linked at a level has been linked at every lower level. */
  ghost predicate BottomUp(sh: Shared, n: NodeId) {
    forall i: nat, j: nat :: j < i && EverLinked(sh, n, i) ==> EverLinked(sh, n, j)
  }

  ghost predicate RefsOk(sh: Shared, n: NodeId) {
    n < |sh.heap| && n < |sh.shadow| && (n != HEAD ==> sh.heap[n].refs == CountHeld(sh.shadow[n].links))
  }

  /** A pointer stored at level i leads to a regular node that has been on chain i. */
  ghost predicate PointersOk(sh: Shared, n: NodeId) {
    && n < |sh.heap|
    && forall i :: 0 <= i < |sh.heap[n].levels| && sh.heap[n].levels[i].ptr.Some?
         ==> Visited(sh, sh.heap[n].levels[i].ptr.value, i)
  }

  /** Tags run downwards from the top level, only on removed nodes, and only dropped levels need one. */
  ghost predicate TagsOk(sh: Shared, n: NodeId) {
    && n < |sh.heap| && n < |sh.shadow|
    && (sh.heap[n].removed <==> sh.shadow[n].winner.Some?)
    && (sh.heap[n].removed ==> Visited(sh, n, 0))
    && (forall i: nat :: Tagged(sh, n, i) ==> sh.heap[n].removed)
    && (forall i: nat, j: nat :: Tagged(sh, n, i) && i < j < |sh.heap[n].levels| ==> Tagged(sh, n, j))
    && (forall i: nat :: EverLinked(sh, n, i) && !OnChain(sh, n, i) ==> Tagged(sh, n, i))
  }

  ghost predicate RetireOk(sh: Shared, n: NodeId) {
    && n < |sh.shadow|
    && (sh.shadow[n].retirer.Some? ==> n != HEAD && EverLinked(sh, n, 0) && CountHeld(sh.shadow[n].links) == 0)
  }

  ghost predicate NodeOk(sh: Shared, n: NodeId) {
    NodeShape(sh, n) && BottomUp(sh, n) && RefsOk(sh, n) && PointersOk(sh, n) && TagsOk(sh, n) && RetireOk(sh, n)
  }

  /** What follows position k of a chain. */
  ghost function After(c: seq<NodeId>, k: nat): Ptr {
    if k + 1 < |c| then Some(c[k + 1]) else None
  }

  /** The words at level i, followed from the head, spell out c and end with null. */
  ghost predicate IsPath(sh: Shared, i: nat, c: seq<NodeId>) {
    && |c| >= 1 && c[0] == HEAD
    && forall k :: 0 <= k < |c| ==> PtrIs(sh, c[k], i, After(c, k))
  }

  ghost predicate ChainOk(sh: Shared, i: nat) {
    && i < |sh.chain|
    && IsPath(sh, i, sh.chain[i])
    && NoDup(sh.chain[i])
    && (forall n: NodeId {:trigger OnChain(sh, n, i)} :: OnChain(sh, n, i) <==> n in sh.chain[i])
  }

  /** The auxiliary chain of level i. */
  ghost function Chain(sh: Shared, i: nat): seq<NodeId> {
    if i < |sh.chain| then sh.chain[i] else []
  }

  /** Keys strictly increase along a chain, after the head. */
  ghost predicate Sorted(sh: Shared, c: seq<NodeId>) {
    && (forall k :: 0 <= k < |c| ==> c[k] < |sh.heap|)
    && forall j, k :: 1 <= j < k < |c| ==> sh.heap[c[j]].key < sh.heap[c[k]].key
  }

  ghost predicate LenOk(sh: Shared) {
    && sh.len == |sh.counted|
    && (forall n :: n in sh.counted ==> n < |sh.heap|)
    && (forall n: NodeId :: Visited(sh, n, 0) && !sh.heap[n].removed ==> n in sh.counted)
  }

  ghost predicate LogsOk(sh: Shared) {
    && NoDup(sh.retired) && NoDup(sh.handed)
    && (forall n :: n in sh.retired ==> n < |sh.shadow| && sh.shadow[n].retirer.Some?)
    && (forall n :: n in sh.handed ==> n < |sh.shadow| && sh.shadow[n].winner.Some?)
    && (forall n :: n in sh.entries ==> Visited(sh, n, 0))
  }

  ghost predicate SharedInv(sh: Shared) {
    && HeadOk(sh)
    && (forall n :: 0 <= n < |sh.heap| ==> NodeOk(sh, n))
    && (forall i :: 0 <= i < HEIGHT ==> ChainOk(sh, i))
    && Sorted(sh, sh.chain[0])
    && LenOk(sh)
    && LogsOk(sh)
  }

  // ------------------------------------------------------------------ threads

  /** n was removed by t, and has not been handed out. */
  ghost predicate Won(sh: Shared, t: Tid, n: NodeId) {
    && Visited(sh, n, 0) && sh.shadow[n].winner == Some(t) && n !in sh.handed
  }

  ghost predicate PrevOk(sh: Shared, r: Local, i: nat) {
    && i < |r.prev|
    && EverLinked(sh, r.prev[i].0, i)
    && KeyBelow(sh, r.prev[i].0, r.key)
    && (r.prev[i].1.Some? ==> Visited(sh, r.prev[i].1.value, i))
  }

  ghost predicate RegsOk(sh: Shared, t: Tid, r: Local) {
    && |r.prev| == HEIGHT
    && (forall i :: 0 <= i < HEIGHT ==> PrevOk(sh, r, i))
    && (r.existing.Some? ==> Won(sh, t, r.existing.value) && sh.heap[r.existing.value].key == r.key)
  }

  /** The new node n of thread t: linked below `start`, its level `start` in state `at`, untouched above. */
  ghost predicate Building(sh: Shared, t: Tid, n: NodeId, start: nat, at: LinkState) {
    && n < |sh.heap| && NodeShape(sh, n) && n != HEAD && sh.shadow[n].owner == t
    && start <= sh.heap[n].height
    && (forall j :: 0 <= j < start ==> EverLinked(sh, n, j))
    && (forall j :: start < j < sh.heap[n].height ==> sh.shadow[n].links[j] == Fresh)
    && (start < sh.heap[n].height ==> sh.shadow[n].links[start] == at)
  }

  ghost predicate NewOk(sh: Shared, t: Tid, r: Local, at: LinkState) {
    && r.newNode.Some?
    && Building(sh, t, r.newNode.value, r.start, at)
    && sh.heap[r.newNode.value].key == r.key && sh.heap[r.newNode.value].val == r.val
    && (r.start == 0 ==> r.newNode.value in sh.counted)
  }

  ghost predicate NewBelow(sh: Shared, t: Tid, r: Local, at: LinkState) {
    NewOk(sh, t, r, at) && r.start < sh.heap[r.newNode.value].height
  }

  /** At the bottom level the successor that `link_nodes` saw has a greater key. */
  ghost predicate Guarded(sh: Shared, r: Local) {
    (r.start == 0 && |r.prev| > 0 && r.prev[0].1.Some?) ==>
      (r.prev[0].1.value < |sh.heap| && r.key < sh.heap[r.prev[0].1.value].key)
  }

  ghost predicate OwnSet(sh: Shared, r: Local) {
    && r.newNode.Some? && r.newNode.value < |sh.heap| && r.start < |sh.heap[r.newNode.value].levels| && r.start < |r.prev|
    && sh.heap[r.newNode.value].levels[r.start].ptr == r.prev[r.start].1
  }

  /** What a call of `find` preserves for its caller. */
  ghost predicate Context(sh: Shared, t: Tid, r: Local) {
    && (r.caller == InsertRetry ==> NewBelow(sh, t, r, Fresh))
    && (r.caller == RemoveCleanup ==> Won(sh, t, r.target) && sh.heap[r.target].key == r.key)
    && r.caller != EntryCall && r.caller != NoCaller
  }

  ghost predicate CurrOk(sh: Shared, r: Local, lv: nat, curr: NodeId) {
    && EverLinked(sh, curr, lv)
    && if r.caller == NextCall then lv == 0 else KeyBelow(sh, curr, r.key)
  }

  ghost predicate Holds(sh: Shared, n: NodeId, i: nat, l: LinkState) {
    n < |sh.shadow| && i < |sh.shadow[n].links| && sh.shadow[n].links[i] == l
  }

  ghost predicate Retiring(sh: Shared, t: Tid, n: NodeId) {
    n < |sh.shadow| && sh.shadow[n].retirer == Some(t) && n !in sh.retired
  }

  ghost predicate PtrIs(sh: Shared, n: NodeId, i: nat, p: Ptr) {
    n < |sh.heap| && i < |sh.heap[n].levels| && sh.heap[n].levels[i].ptr == p
  }

  ghost predicate NextOk(sh: Shared, nn: Ptr, i: nat) {
    nn.Some? ==> Visited(sh, nn.value, i)
  }

  /** A thread about to remove, or removing, `target`. */
  ghost predicate Removing(sh: Shared, t: Tid, r: Local) {
    && Visited(sh, r.target, 0)
    && (r.caller == InsertFirst || r.caller == InsertRetry || r.caller == RemoveFirst || r.caller == EntryCall)
    && (r.caller == InsertRetry ==> NewBelow(sh, t, r, Fresh))
    && (r.caller != EntryCall ==> sh.heap[r.target].key == r.key)
  }

  /** The thread won `target`; exactly the levels above lv are tagged. */
  ghost predicate Tagging(sh: Shared, t: Tid, r: Local, lv: int) {
    && Removing(sh, t, r) && Won(sh, t, r.target) && r.target in sh.counted
    && (r.existing != Some(r.target))
    && forall i :: 0 <= i < |sh.heap[r.target].levels| ==> (Tagged(sh, r.target, i) <==> lv < i)
  }

  ghost predicate Untying(sh: Shared, t: Tid, r: Local) {
    Tagging(sh, t, r, -1) && r.caller != EntryCall
  }

  /** Operations whose answer is a node with the key they were called with. */
  predicate Keyed(c: Caller) {
    c != NextCall && c != EntryCall
  }

  /** At the entry and exit of an operation; no thread panics, and only one that searches for the closest node leaves a tower. */
  ghost predicate CallInv(sh: Shared, t: Tid, r: Local) {
    match r.pc
    case Done(_) => true
    case Ret(a) =>
      && r.caller != NoCaller && r.caller != ClosestCall
      && (a.Some? ==> Visited(sh, a.value, 0) && (Hands(r.caller) ==> Won(sh, t, a.value))
                      && (Keyed(r.caller) ==> sh.heap[a.value].key == r.key))
    case GetLen => r.caller == Getter
    case FirstLen => r.caller == NextCall
    case NextStale(n) => r.caller == NextCall && Visited(sh, n, 0)
    case Fault => r.caller == ClosestCall
    case _ => false
  }

  /** At level lv, standing on curr. */
  ghost predicate Walking(sh: Shared, t: Tid, r: Local, lv: nat, curr: NodeId) {
    lv < HEIGHT && Context(sh, t, r) && CurrOk(sh, r, lv, curr)
  }

  /** Inside `find` or `next_node`. */
  ghost predicate FindInv(sh: Shared, t: Tid, r: Local) {
    match r.pc
    case FInit(i) => i < HEIGHT && Context(sh, t, r) && r.caller != NextCall
    case FStart => Context(sh, t, r) && r.caller != NextCall
    case FLoad(lv, curr) => Walking(sh, t, r, lv, curr)
    case FTag(lv, curr, next) =>
      Walking(sh, t, r, lv, curr) && Visited(sh, next, lv)
    case FNext(lv, curr, next) =>
      Walking(sh, t, r, lv, curr) && Visited(sh, next, lv) && Tagged(sh, next, lv)
    case FCas(lv, curr, next, nn) =>
      && Walking(sh, t, r, lv, curr) && Visited(sh, next, lv) && Tagged(sh, next, lv)
      && PtrIs(sh, next, lv, nn) && NextOk(sh, nn, lv)
    case FSub(lv, curr, next, nn) =>
      && Walking(sh, t, r, lv, curr) && NextOk(sh, nn, lv)
      && next != HEAD && Holds(sh, next, lv, Unlinking(t))
    case FRetire(lv, curr, next, nn) =>
      && Walking(sh, t, r, lv, curr) && NextOk(sh, nn, lv) && Retiring(sh, t, next)
    case FFinal => Context(sh, t, r) && r.caller != NextCall && r.caller != ClosestCall
    case FCheck(n) => Context(sh, t, r) && r.caller != NextCall && r.caller != ClosestCall && Visited(sh, n, 0)
    case _ => false
  }

  /** Inside `set_removed`, `tag_levels` or `unlink`. */
  ghost predicate RemovalInv(sh: Shared, t: Tid, r: Local) {
    match r.pc
    case SLoad => Removing(sh, t, r)
    case SCas(_) => Removing(sh, t, r)
    case TLoad(lv) => Tagging(sh, t, r, lv) && lv < |sh.heap[r.target].levels|
    case TCas(lv, _) => Tagging(sh, t, r, lv) && lv < |sh.heap[r.target].levels|
    case ULoad(lv) => Untying(sh, t, r) && lv < |sh.heap[r.target].levels|
    case UCas(lv, nn) => Untying(sh, t, r) && lv < |sh.heap[r.target].levels| && PtrIs(sh, r.target, lv, nn)
    case USub(lv) => Untying(sh, t, r) && Holds(sh, r.target, lv, Unlinking(t))
    case URetire => Untying(sh, t, r) && Retiring(sh, t, r.target)
    case ULen => Untying(sh, t, r)
    case _ => false
  }

  /** Inside `insert` and `link_nodes`. */
  ghost predicate InsertInv(sh: Shared, t: Tid, r: Local) {
    match r.pc
    case Create => r.caller == InsertFirst
    case ILen => r.newNode.Some? && Building(sh, t, r.newNode.value, 0, Fresh) && r.start == 0
                 && sh.heap[r.newNode.value].key == r.key && sh.heap[r.newNode.value].val == r.val
                 && r.newNode.value !in sh.counted && Inserting(r)
    case LLoad => NewOk(sh, t, r, Fresh) && Inserting(r)
    case LRemoved(_) => NewBelow(sh, t, r, Fresh) && Inserting(r)
    case LGuard(_) => NewBelow(sh, t, r, Fresh) && Inserting(r)
    case LOwn(_) => NewBelow(sh, t, r, Fresh) && Inserting(r) && Guarded(sh, r)
    case LRef => NewBelow(sh, t, r, Fresh) && Inserting(r) && Guarded(sh, r) && OwnSet(sh, r)
    case LCas => NewBelow(sh, t, r, Reserved) && Inserting(r) && Guarded(sh, r) && OwnSet(sh, r)
    case LUnref => NewBelow(sh, t, r, Reserved) && Inserting(r)
    case LEnd => r.newNode.Some? && r.newNode.value < |sh.heap| && Inserting(r)
    case _ => false
  }

  /** What holds of a thread at its program counter. */
  ghost predicate PcInv(sh: Shared, t: Tid, r: Local) {
    if InFind(r.pc) then FindInv(sh, t, r)
    else if InRemoval(r.pc) then RemovalInv(sh, t, r)
    else if InInsert(r.pc) then InsertInv(sh, t, r)
    else CallInv(sh, t, r)
  }

  /** `== true` keeps the verifier from taking PcInv apart, into hundreds of cases, wherever it is asserted. */
  ghost predicate LocalInv(sh: Shared, t: Tid, r: Local) {
    RegsOk(sh, t, r) && PcInv(sh, t, r) == true
  }

  predicate Inserting(r: Local) {
    r.caller == InsertFirst || r.caller == InsertRetry
  }

  ghost predicate Inv(s: State) {
    SharedInv(s.sh) && forall t :: 0 <= t < |s.th| ==> LocalInv(s.sh, t, s.th[t])
  }

  // ------------------------------------------------------------------ what other threads rely on

  /** Nothing that any thread may depend on is undone. */
  ghost predicate MonoNode(sh: Shared, sh': Shared, n: NodeId) {
    && n < |sh.heap| && n < |sh'.heap| && n < |sh.shadow| && n < |sh'.shadow|
    && sh'.heap[n].key == sh.heap[n].key && sh'.heap[n].val == sh.heap[n].val
    && sh'.heap[n].height == sh.heap[n].height
    && |sh'.heap[n].levels| == |sh.heap[n].levels| && |sh'.shadow[n].links| == |sh.shadow[n].links|
    && sh'.shadow[n].owner == sh.shadow[n].owner
    && (sh.heap[n].removed ==> sh'.heap[n].removed)
    && (sh.shadow[n].winner.Some? ==> sh'.shadow[n].winner == sh.shadow[n].winner)
    && (sh.shadow[n].retirer.Some? ==> sh'.shadow[n].retirer == sh.shadow[n].retirer)
    && (forall i :: 0 <= i < |sh.heap[n].levels| && sh.heap[n].levels[i].tag ==> sh'.heap[n].levels[i] == sh.heap[n].levels[i])
    && (forall i :: 0 <= i < |sh.shadow[n].links| && EverState(sh.shadow[n].links[i]) ==> EverState(sh'.shadow[n].links[i]))
  }

  ghost predicate Mono(sh: Shared, sh': Shared) {
    && |sh.heap| <= |sh'.heap| && |sh.shadow| == |sh.heap| && |sh'.shadow| == |sh'.heap|
    && sh.entries <= sh'.entries
    && forall n :: 0 <= n < |sh.heap| ==> MonoNode(sh, sh', n)
  }

  /** The unfinished levels of u's own nodes are left alone. */
  ghost predicate KeptNew(sh: Shared, sh': Shared, u: Tid) {
    forall n :: 0 <= n < |sh.heap| && n < |sh'.heap| && n < |sh.shadow| && n < |sh'.shadow| && sh.shadow[n].owner == u ==>
      && (n !in sh.counted ==> n !in sh'.counted)
      && (n in sh.counted && sh.shadow[n].winner == None ==> n in sh'.counted)
      && forall i :: (0 <= i < |sh.shadow[n].links| && i < |sh'.shadow[n].links| && !EverState(sh.shadow[n].links[i])
                      && i < |sh.heap[n].levels| && i < |sh'.heap[n].levels|) ==>
           sh'.shadow[n].links[i] == sh.shadow[n].links[i] && sh'.heap[n].levels[i].ptr == sh.heap[n].levels[i].ptr
  }

  /** The nodes u has removed are handed out by u only. */
  ghost predicate KeptHanded(sh: Shared, sh': Shared, u: Tid) {
    forall n :: 0 <= n < |sh.shadow| && sh.shadow[n].winner == Some(u) && n !in sh.handed ==> n !in sh'.handed
  }

  /** The nodes u has removed are tagged and uncounted by u only. */
  ghost predicate KeptWon(sh: Shared, sh': Shared, u: Tid) {
    forall n :: 0 <= n < |sh.heap| && n < |sh'.heap| && n < |sh.shadow| && sh.shadow[n].winner == Some(u) ==>
      && (n in sh.counted ==> n in sh'.counted)
      && forall i :: 0 <= i < |sh.heap[n].levels| && i < |sh'.heap[n].levels| ==>
           sh'.heap[n].levels[i].tag == sh.heap[n].levels[i].tag
  }

  /** The decrements and retirements that u still owes stay u's. */
  ghost predicate KeptDebt(sh: Shared, sh': Shared, u: Tid) {
    && (forall n :: 0 <= n < |sh.shadow| && n < |sh'.shadow| ==>
          forall i :: 0 <= i < |sh.shadow[n].links| && i < |sh'.shadow[n].links| && sh.shadow[n].links[i] == Unlinking(u) ==>
            sh'.shadow[n].links[i] == Unlinking(u))
    && (forall n :: Retiring(sh, u, n) ==> n !in sh'.retired)
  }

  ghost predicate Kept(sh: Shared, sh': Shared, u: Tid) {
    KeptNew(sh, sh', u) && KeptHanded(sh, sh', u) && KeptWon(sh, sh', u) && KeptDebt(sh, sh', u)
  }
}
