/**
  The lock-free list used by one thread at a time. Without interleaving its operations answer and act like
  those of a finite ordered map, even when `Entry::remove` has left tagged towers behind.
 */
module Solo {
  import opened Common
  import opened SyncState
  import opened SyncExec
  import opened SyncInv
  import opened SyncTheorems
  import opened SyncRefine
  import opened SyncCalls

  // ------------------------------------------------------------------ vocabulary

  /** n exists and has not been removed. */
  ghost predicate Solid(sh: Shared, n: NodeId) {
    n < |sh.heap| && !sh.heap[n].removed
  }

  /** No removal is half done, except that of x: removed nodes are tagged at all levels. */
  ghost predicate Quiet(sh: Shared, x: Ptr) {
    forall n, i :: 0 <= n < |sh.heap| && sh.heap[n].removed && x != Some(n) && 0 <= i < |sh.heap[n].levels| ==> Tagged(sh, n, i)
  }

  /** No removed node is left on the bottom chain, except x. */
  ghost predicate Clean(sh: Shared, x: Ptr) {
    forall n :: n in Chain(sh, 0) && n < |sh.heap| && sh.heap[n].removed ==> x == Some(n)
  }

  /** Live nodes have been linked at all their levels, except x. */
  ghost predicate Full(sh: Shared, x: Ptr) {
    forall n, i :: n in Live(sh) && x != Some(n) && n < |sh.heap| && 0 <= i < |sh.heap[n].levels| ==> EverLinked(sh, n, i)
  }

  /**
    What an operation starts from: the map m; for `Entry::remove`, whether its node is live; for `next_node`,
    the node to go on from. `clean` and `full` ask that Clean and Full be kept as well.
   */
  datatype Goal = Goal(m: map<int, int>, live: bool, from: NodeId, clean: bool, full: bool)

  /** x is the node that had the key at the start, if there was one. */
  ghost predicate Had(g: Goal, sh: Shared, x: Ptr, key: int) {
    if key in g.m then x.Some? && x.value < |sh.heap| && sh.heap[x.value].key == key && sh.heap[x.value].val == g.m[key]
    else x == None
  }

  /** The key that a removal is about. */
  ghost function KeyOf(sh: Shared, r: Local): int {
    if r.caller == EntryCall && r.target < |sh.heap| then sh.heap[r.target].key else r.key
  }

  /** k is beyond the key of `from`. */
  ghost predicate Above(sh: Shared, from: NodeId, k: int) {
    from == HEAD || (from < |sh.heap| && sh.heap[from].key < k)
  }

  /** a is the live node with the least key beyond `from`. */
  ghost predicate NextAnswer(m: map<int, int>, sh: Shared, from: NodeId, a: Ptr) {
    && (a == None ==> forall k :: k in m ==> !Above(sh, from, k))
    && (a.Some? ==> a.value in Live(sh) && sh.heap[a.value].key in m && sh.heap[a.value].val == m[sh.heap[a.value].key]
                    && Above(sh, from, sh.heap[a.value].key)
                    && forall k :: k in m && Above(sh, from, k) ==> sh.heap[a.value].key <= k)
  }

  /** What the code may rely on between operations. */
  ghost predicate Settled(g: Goal, sh: Shared) {
    Quiet(sh, None) && (g.clean ==> Clean(sh, None)) && (g.full ==> Full(sh, None))
  }

  // ------------------------------------------------------------------ the stages of an operation

  /** `insert` has not linked its node yet; `existing` is what it has removed so far. */
  ghost predicate Waiting(g: Goal, sh: Shared, r: Local) {
    || (r.existing == None && Abs(sh) == g.m)
    || (r.existing.Some? && r.key in g.m && Had(g, sh, r.existing, r.key) && Abs(sh) == g.m - {r.key})
  }

  /** `insert` has linked its node at the bottom. */
  ghost predicate Joined(g: Goal, sh: Shared, r: Local) {
    && r.newNode.Some? && r.newNode.value in Live(sh) && r.start >= 1
    && Abs(sh) == g.m[r.key := r.val] && Had(g, sh, r.existing, r.key)
  }

  /** The target is about to be removed, if it still can be. */
  ghost predicate Chosen(g: Goal, sh: Shared, r: Local) {
    && Abs(sh) == g.m
    && (r.caller == InsertFirst || r.caller == RemoveFirst || r.caller == EntryCall)
    && (r.caller == InsertFirst ==> r.existing == None)
    && if r.caller == EntryCall then (g.live <==> Solid(sh, r.target)) && !g.clean else Solid(sh, r.target)
  }

  /** The target has been removed. */
  ghost predicate TakenOut(g: Goal, sh: Shared, r: Local) {
    && KeyOf(sh, r) in g.m && Had(g, sh, Some(r.target), KeyOf(sh, r)) && Abs(sh) == g.m - {KeyOf(sh, r)}
    && (r.caller == InsertFirst || r.caller == RemoveFirst || r.caller == RemoveCleanup || r.caller == EntryCall)
    && (r.caller == InsertFirst ==> r.existing == None)
    && (r.caller == EntryCall ==> g.live && !g.clean)
  }

  ghost predicate Answered(g: Goal, sh: Shared, r: Local, a: Ptr) {
    && Settled(g, sh)
    && match r.caller
       case Getter => Abs(sh) == g.m && Had(g, sh, a, r.key) && (a.Some? ==> a.value in Live(sh))
       case InsertFirst | InsertRetry => Abs(sh) == g.m[r.key := r.val] && Had(g, sh, a, r.key)
       case RemoveFirst | RemoveCleanup => Abs(sh) == g.m - {r.key} && Had(g, sh, a, r.key)
       case EntryCall =>
         if g.live then
           a == Some(r.target) && KeyOf(sh, r) in g.m && Had(g, sh, a, KeyOf(sh, r)) && Abs(sh) == g.m - {KeyOf(sh, r)}
         else a == None && Abs(sh) == g.m
       case NextCall => Abs(sh) == g.m && NextAnswer(g.m, sh, g.from, a)
       case _ => false
  }

  // ------------------------------------------------------------------ what holds where

  /** The removed node that the current search may still have to unlink from the bottom. */
  function Leftover(r: Local): Ptr {
    if r.caller == RemoveCleanup then Some(r.target) else if r.caller == InsertFirst then r.existing else None
  }

  /** For whom `find` runs. */
  ghost predicate Seeking(g: Goal, sh: Shared, r: Local) {
    && Quiet(sh, None)
    && (g.clean ==> Clean(sh, Leftover(r)))
    && (g.full ==> Full(sh, if r.caller == InsertRetry then r.newNode else None))
    && match r.caller
       case InsertFirst => Waiting(g, sh, r)
       case InsertRetry => Joined(g, sh, r)
       case RemoveCleanup => TakenOut(g, sh, r)
       case RemoveFirst | Getter | NextCall => Abs(sh) == g.m
       case _ => false
  }

  /** From level `low` up, the recorded successors are live and not below the key. */
  ghost predicate Ahead(sh: Shared, r: Local, low: nat) {
    forall i :: low <= i < |r.prev| && r.prev[i].1.Some? ==>
      Solid(sh, r.prev[i].1.value) && r.key <= sh.heap[r.prev[i].1.value].key
  }

  /** From level `low` up, the recorded successors are beyond the key. */
  ghost predicate Strict(sh: Shared, r: Local, low: nat) {
    forall i :: low <= i < |r.prev| && r.prev[i].1.Some? ==>
      r.prev[i].1.value < |sh.heap| && r.key < sh.heap[r.prev[i].1.value].key
  }

  /** The recorded neighbours at the bottom are live and adjacent, with the key between them or on the second. */
  ghost predicate Adjacent(sh: Shared, r: Local) {
    && |r.prev| > 0 && Solid(sh, r.prev[0].0) && PtrIs(sh, r.prev[0].0, 0, r.prev[0].1)
    && (r.prev[0].1.Some? ==> Solid(sh, r.prev[0].1.value) && r.key <= sh.heap[r.prev[0].1.value].key)
  }

  ghost predicate Standing(g: Goal, sh: Shared, r: Local, lv: nat, curr: NodeId) {
    && Solid(sh, curr)
    && (r.caller == NextCall ==> curr == g.from && lv == 0)
    && (g.full && r.caller != NextCall ==> Ahead(sh, r, lv + 1))
  }

  /** Below level n the recorded successors are still those of the head. */
  ghost predicate HeadsRead(sh: Shared, r: Local, n: nat) {
    forall i :: 0 <= i < n && i < |r.prev| ==> PtrIs(sh, HEAD, i, r.prev[i].1)
  }

  ghost predicate FindAt(g: Goal, sh: Shared, r: Local) {
    match r.pc
    case FInit(i) => HeadsRead(sh, r, i)
    case FStart => HeadsRead(sh, r, HEIGHT)
    case FLoad(lv, curr) => Standing(g, sh, r, lv, curr)
    case FTag(lv, curr, next) => Standing(g, sh, r, lv, curr) && PtrIs(sh, curr, lv, Some(next))
    case FNext(lv, curr, next) => Standing(g, sh, r, lv, curr) && PtrIs(sh, curr, lv, Some(next))
    case FCas(lv, curr, next, nn) => Standing(g, sh, r, lv, curr) && PtrIs(sh, curr, lv, Some(next))
    case FSub(lv, curr, next, nn) => Standing(g, sh, r, lv, curr) && PtrIs(sh, curr, lv, nn)
    case FRetire(lv, curr, next, nn) => Standing(g, sh, r, lv, curr) && PtrIs(sh, curr, lv, nn)
    case FFinal => Adjacent(sh, r) && (g.full ==> Ahead(sh, r, 0))
    case FCheck(n) => Adjacent(sh, r) && (g.full ==> Ahead(sh, r, 0)) && r.prev[0].1 == Some(n)
    case _ => false
  }

  ghost predicate Removable(g: Goal, sh: Shared, r: Local) {
    Settled(g, sh) && Chosen(g, sh, r)
  }

  /** The removal of the target is under way; `x` is the target while it is being tagged. */
  ghost predicate Leaving(g: Goal, sh: Shared, r: Local, x: Ptr) {
    && TakenOut(g, sh, r) && Quiet(sh, x)
    && (g.clean ==> Clean(sh, Some(r.target))) && (g.full ==> Full(sh, None))
  }

  ghost predicate RemovalAt(g: Goal, sh: Shared, r: Local) {
    match r.pc
    case SLoad => Removable(g, sh, r)
    case SCas(refs) => Removable(g, sh, r) && Solid(sh, r.target) && refs == sh.heap[r.target].refs
    case TLoad(_) => Leaving(g, sh, r, Some(r.target))
    case TCas(_, _) => Leaving(g, sh, r, Some(r.target))
    case ULoad(_) => Leaving(g, sh, r, None)
    case UCas(_, _) => Leaving(g, sh, r, None)
    case USub(_) => Leaving(g, sh, r, None)
    case URetire => Leaving(g, sh, r, None)
    case ULen => Leaving(g, sh, r, None) && !OnChain(sh, r.target, 0)
    case _ => false
  }

  /** `insert` is ready to link its node at the bottom. */
  ghost predicate Ready(g: Goal, sh: Shared, r: Local) {
    Settled(g, sh) && Waiting(g, sh, r) && Adjacent(sh, r) && r.key !in Abs(sh) && (g.full ==> Strict(sh, r, 0))
  }

  /** `insert` goes on linking its node above the bottom. */
  ghost predicate Growing(g: Goal, sh: Shared, r: Local) {
    && Quiet(sh, None) && Joined(g, sh, r) && (g.clean ==> Clean(sh, None))
    && (g.full ==> Full(sh, r.newNode) && Strict(sh, r, r.start))
  }

  ghost predicate Linking(g: Goal, sh: Shared, r: Local) {
    if r.start == 0 then Ready(g, sh, r) else Growing(g, sh, r)
  }

  /** At the bottom, the new node's own word is as it was read. */
  ghost predicate OwnRead(sh: Shared, r: Local, cn: Ptr) {
    r.start == 0 ==> r.newNode.Some? && LoadWord(sh, r.newNode.value, 0) == Some(Word(cn, false))
  }

  ghost predicate InsertAt(g: Goal, sh: Shared, r: Local) {
    match r.pc
    case Create => Ready(g, sh, r)
    case ILen => Ready(g, sh, r)
    case LLoad => Linking(g, sh, r)
    case LRemoved(cn) => Linking(g, sh, r) && OwnRead(sh, r, cn)
    case LGuard(_) => r.start >= 1 && Growing(g, sh, r) && !g.full
    case LOwn(cn) => Linking(g, sh, r) && OwnRead(sh, r, cn)
    case LRef => Linking(g, sh, r)
    case LCas => Linking(g, sh, r)
    case LUnref => r.start >= 1 && Growing(g, sh, r)
    case LEnd => r.start >= 1 && Growing(g, sh, r) && (g.full ==> Full(sh, None))
    case _ => false
  }

  ghost predicate CallAt(g: Goal, sh: Shared, r: Local) {
    match r.pc
    case Ret(a) => Answered(g, sh, r, a)
    case GetLen => Settled(g, sh) && Abs(sh) == g.m && r.caller == Getter
    case FirstLen => Settled(g, sh) && Abs(sh) == g.m && r.caller == NextCall && g.from == HEAD
    case NextStale(n) => Settled(g, sh) && Abs(sh) == g.m && r.caller == NextCall && g.from == n
    case _ => false
  }

  ghost predicate SoloInv(g: Goal, sh: Shared, r: Local) {
    if Astray(r) then Tagged(sh, g.from, 0)
    else if InFind(r.pc) then Seeking(g, sh, r) && FindAt(g, sh, r)
    else if InRemoval(r.pc) then RemovalAt(g, sh, r)
    else if InInsert(r.pc) then InsertAt(g, sh, r)
    else CallAt(g, sh, r)
  }
}
