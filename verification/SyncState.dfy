/**
  The lock-free skip list as a transition system.

  `Shared` is the memory all threads see; `Local` is one thread's registers and program counter.
  `Exec` (module SyncExec) performs exactly one atomic load, store, fetch or compare-exchange.
  Node identities are indices into `heap` and are never reused; index 0 is the head tower.
 */
module SyncState {
  import opened Common

  type NodeId = nat
  type Tid = nat
  type Ptr = Option<NodeId>

  const HEAD: NodeId := 0

  /** A `MaybeTagged` word: a pointer together with its tag bit. */
  datatype Word = Word(ptr: Ptr, tag: bool)

  /** `height`, `refs` and `removed` are the three fields of the packed word (see PackedWord). */
  datatype Node = Node(key: int, val: int, height: nat, refs: int, removed: bool, levels: seq<Word>)

  /**
    Auxiliary history of one level of one node. A level starts Fresh, is Reserved between the
    inserter's reference increment and its compare-exchange on the predecessor, is Linked while the
    node is on that level's chain, Unlinking between the compare-exchange that drops the node and
    the matching decrement, and Gone after that.
   */
  datatype LinkState = Fresh | Reserved | Linked | Unlinking(who: Tid) | Gone

  /**
    Auxiliary record of one node: the thread that allocated it, the history of its levels, the
    thread whose `set_removed` succeeded, and the thread whose decrement reached zero.
   */
  datatype Shadow = Shadow(owner: Tid, links: seq<LinkState>, winner: Option<Tid>, retirer: Option<Tid>)

  /**
    `heap` and `len` are physical memory; `retired`, `handed` and `entries` record calls (nodes passed
    to `retire_node`, nodes handed to a caller as removed or replaced, nodes for which some caller was
    given an `Entry`); `shadow`, `chain` and `counted` are auxiliary and are never read by the code.
   */
  datatype Shared = Shared(
    heap: seq<Node>,
    len: int,
    retired: seq<NodeId>,
    handed: seq<NodeId>,
    entries: set<NodeId>,
    shadow: seq<Shadow>,
    chain: seq<seq<NodeId>>,
    counted: set<NodeId>)

  // ------------------------------------------------------------------ memory access

  function LoadWord(sh: Shared, n: NodeId, i: nat): Option<Word> {
    if n < |sh.heap| && i < |sh.heap[n].levels| then Some(sh.heap[n].levels[i]) else None
  }

  function LoadNode(sh: Shared, n: NodeId): Option<Node> {
    if n < |sh.heap| then Some(sh.heap[n]) else None
  }

  function StoreNode(sh: Shared, n: NodeId, node: Node): Shared {
    if n < |sh.heap| then sh.(heap := sh.heap[n := node]) else sh
  }

  function StoreWord(sh: Shared, n: NodeId, i: nat, w: Word): Shared {
    if n < |sh.heap| && i < |sh.heap[n].levels| then
      sh.(heap := sh.heap[n := sh.heap[n].(levels := sh.heap[n].levels[i := w])])
    else sh
  }

  function SetShadow(sh: Shared, n: NodeId, x: Shadow): Shared {
    if n < |sh.shadow| then sh.(shadow := sh.shadow[n := x]) else sh
  }

  function SetLink(sh: Shared, n: NodeId, i: nat, st: LinkState): Shared {
    if n < |sh.shadow| && i < |sh.shadow[n].links| then
      sh.(shadow := sh.shadow[n := sh.shadow[n].(links := sh.shadow[n].links[i := st])])
    else sh
  }

  // ------------------------------------------------------------------ auxiliary chains

  function InsertAfter(c: seq<NodeId>, p: NodeId, n: NodeId): seq<NodeId> {
    if c == [] then [] else if c[0] == p then [p, n] + c[1..] else [c[0]] + InsertAfter(c[1..], p, n)
  }

  function DropFrom(c: seq<NodeId>, n: NodeId): seq<NodeId> {
    if c == [] then [] else if c[0] == n then c[1..] else [c[0]] + DropFrom(c[1..], n)
  }

  function ChainInsert(sh: Shared, i: nat, p: NodeId, n: NodeId): Shared {
    if i < |sh.chain| then sh.(chain := sh.chain[i := InsertAfter(sh.chain[i], p, n)]) else sh
  }

  function ChainDrop(sh: Shared, i: nat, n: NodeId): Shared {
    if i < |sh.chain| then sh.(chain := sh.chain[i := DropFrom(sh.chain[i], n)]) else sh
  }

  // ------------------------------------------------------------------ shared actions

  /** `Node::new`: a node of height h with a zeroed tower and no references. */
  function ActCreate(sh: Shared, t: Tid, key: int, val: int, h: nat): Shared {
    sh.(heap := sh.heap + [Node(key, val, h, 0, false, Repeat(h, Word(None, false)))],
        shadow := sh.shadow + [Shadow(t, Repeat(h, Fresh), None, None)])
  }

  /** `state.len.fetch_add(1)` on behalf of n. */
  function ActCount(sh: Shared, n: NodeId): Shared {
    sh.(len := sh.len + 1, counted := sh.counted + {n})
  }

  /** `state.len.fetch_sub(1)` on behalf of n. */
  function ActUncount(sh: Shared, n: NodeId): Shared {
    sh.(len := sh.len - 1, counted := sh.counted - {n})
  }

  /** `add_ref`, or a successful `try_add_ref`. */
  function ActReserve(sh: Shared, n: NodeId, i: nat): Shared
    requires n < |sh.heap|
  {
    SetLink(StoreNode(sh, n, sh.heap[n].(refs := sh.heap[n].refs + 1)), n, i, Reserved)
  }

  /** The raw `sub_ref` after a failed compare-exchange on the predecessor. */
  function ActUnreserve(sh: Shared, n: NodeId, i: nat): Shared
    requires n < |sh.heap|
  {
    SetLink(StoreNode(sh, n, sh.heap[n].(refs := sh.heap[n].refs - 1)), n, i, Fresh)
  }

  /** The compare-exchange on p's word at level i that publishes n. */
  function ActLink(sh: Shared, p: NodeId, n: NodeId, i: nat): Shared {
    ChainInsert(SetLink(StoreWord(sh, p, i, Word(Some(n), false)), n, i, Linked), i, p, n)
  }

  /** The compare-exchange that sets the removed bit of n. */
  function ActRemove(sh: Shared, t: Tid, n: NodeId): Shared
    requires n < |sh.heap|
  {
    var s1 := StoreNode(sh, n, sh.heap[n].(removed := true));
    if n < |s1.shadow| then SetShadow(s1, n, s1.shadow[n].(winner := Some(t))) else s1
  }

  /** The compare-exchange that tags level i of n. */
  function ActTag(sh: Shared, n: NodeId, i: nat, p: Ptr): Shared {
    StoreWord(sh, n, i, Word(p, true))
  }

  /** The compare-exchange on p's word at level i that replaces n by nn. */
  function ActUnlink(sh: Shared, t: Tid, p: NodeId, n: NodeId, nn: Ptr, i: nat): Shared {
    ChainDrop(SetLink(StoreWord(sh, p, i, Word(nn, false)), n, i, Unlinking(t)), i, n)
  }

  /** A `try_sub_ref` that finds a positive count. */
  function ActSub(sh: Shared, t: Tid, n: NodeId, i: nat): Shared
    requires n < |sh.heap|
  {
    var s1 := SetLink(StoreNode(sh, n, sh.heap[n].(refs := sh.heap[n].refs - 1)), n, i, Gone);
    if sh.heap[n].refs == 1 && n < |s1.shadow| then SetShadow(s1, n, s1.shadow[n].(retirer := Some(t))) else s1
  }

  /** `retire_node`. */
  function ActRetire(sh: Shared, n: NodeId): Shared {
    sh.(retired := sh.retired + [n])
  }

  /** Returning an `Entry` to the caller; `hand` says that n is returned as removed or replaced. */
  function ActGive(sh: Shared, n: NodeId, hand: bool): Shared {
    sh.(entries := sh.entries + {n}, handed := if hand then sh.handed + [n] else sh.handed)
  }
}
