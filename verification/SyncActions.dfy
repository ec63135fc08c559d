/**
  Every change of shared memory keeps `SharedInv`, and keeps what the other threads rely on.
  The preconditions of an action are facts its thread has at the program counter that performs it.
 */
module SyncActions {
  import opened Common
  import opened SyncState
  import opened SyncInv
  import opened SyncStable

  // ------------------------------------------------------------------ sequences

  lemma {:induction false} InsertAfterShape(c: seq<NodeId>, p: NodeId, n: NodeId) returns (j: nat)
    requires p in c
    ensures j < |c| && c[j] == p && InsertAfter(c, p, n) == c[..j + 1] + [n] + c[j + 1..]
  {
    if c[0] == p {
      j := 0;
      assert c == [p] + c[1..];
    } else {
      var k := InsertAfterShape(c[1..], p, n);
      j := k + 1;
      assert c == [c[0]] + c[1..];
      assert c[..j + 1] == [c[0]] + c[1..][..k + 1];
    }
  }

  lemma {:induction false} DropFromShape(c: seq<NodeId>, n: NodeId) returns (j: nat)
    requires n in c
    ensures j < |c| && c[j] == n && DropFrom(c, n) == c[..j] + c[j + 1..]
  {
    if c[0] == n {
      j := 0;
    } else {
      var k := DropFromShape(c[1..], n);
      j := k + 1;
      assert c == [c[0]] + c[1..];
      assert c[..j] == [c[0]] + c[1..][..k];
    }
  }

  lemma {:induction false} CountHeldUpdate(links: seq<LinkState>, i: nat, l: LinkState)
    requires i < |links|
    ensures CountHeld(links[i := l])
         == CountHeld(links) - (if HeldState(links[i]) then 1 else 0) + (if HeldState(l) then 1 else 0)
  {
    if i == 0 {
      assert links[0 := l][1..] == links[1..];
    } else {
      assert links[i := l][1..] == links[1..][i - 1 := l];
      CountHeldUpdate(links[1..], i - 1, l);
    }
  }

  lemma {:induction false} CountHeldZero(links: seq<LinkState>, i: nat)
    requires i < |links|
    ensures HeldState(links[i]) ==> CountHeld(links) > 0
  {
    if i > 0 { CountHeldZero(links[1..], i - 1); }
  }

  lemma {:induction false} CountHeldBound(links: seq<LinkState>)
    ensures CountHeld(links) <= |links|
  {
    if links != [] { CountHeldBound(links[1..]); }
  }

  lemma {:induction false} CountHeldFresh(h: nat)
    ensures CountHeld(Repeat(h, Fresh)) == 0
  {
    if h > 0 {
      assert Repeat(h, Fresh)[1..] == Repeat(h - 1, Fresh);
      CountHeldFresh(h - 1);
    }
  }

  // ------------------------------------------------------------------ frames

  /** Node n is the same in both states. */
  ghost predicate SameNode(sh: Shared, sh': Shared, n: NodeId) {
    && n < |sh.heap| && n < |sh'.heap| && n < |sh.shadow| && n < |sh'.shadow|
    && sh'.heap[n] == sh.heap[n] && sh'.shadow[n] == sh.shadow[n]
  }

  /**
    A node stays well formed when its keys, height and removal are the same, its levels were linked and
    tagged before exactly when they are now, and the parts that did change are still right.
   */
  lemma NodeCarry(sh: Shared, sh': Shared, n: NodeId)
    requires Mono(sh, sh') && NodeOk(sh, n)
    requires forall j: nat :: EverLinked(sh', n, j) <==> EverLinked(sh, n, j)
    requires forall j: nat :: Tagged(sh', n, j) <==> Tagged(sh, n, j)
    requires forall j: nat :: OnChain(sh, n, j) && !OnChain(sh', n, j) ==> Tagged(sh, n, j)
    requires sh'.heap[n].removed == sh.heap[n].removed && sh'.shadow[n].winner == sh.shadow[n].winner
    requires RefsOk(sh', n) && RetireOk(sh', n) && PointersOk(sh', n)
    ensures NodeOk(sh', n)
  {
    assert MonoNode(sh, sh', n);
    assert BottomUp(sh', n) by {
      forall i: nat, j: nat | j < i && EverLinked(sh', n, i) ensures EverLinked(sh', n, j) {
        assert EverLinked(sh, n, i) && EverLinked(sh, n, j);
      }
    }
    assert TagsOk(sh', n) by {
      forall i: nat | EverLinked(sh', n, i) && !OnChain(sh', n, i) ensures Tagged(sh', n, i) {
        assert EverLinked(sh, n, i);
      }
      forall i: nat, j: nat | Tagged(sh', n, i) && i < j < |sh'.heap[n].levels| ensures Tagged(sh', n, j) {
        assert Tagged(sh, n, i) && Tagged(sh, n, j);
      }
      if sh'.heap[n].removed { EverLinkedMono(sh, sh', n, 0); }
    }
  }

  /** Pointers that did not change still lead to nodes that have been linked. */
  lemma PointersCarry(sh: Shared, sh': Shared, n: NodeId)
    requires Mono(sh, sh') && PointersOk(sh, n) && n < |sh.heap|
    requires |sh'.heap[n].levels| == |sh.heap[n].levels|
    requires forall j :: 0 <= j < |sh.heap[n].levels| ==>
               sh'.heap[n].levels[j].ptr == sh.heap[n].levels[j].ptr
               || (sh'.heap[n].levels[j].ptr.Some? ==> Visited(sh, sh'.heap[n].levels[j].ptr.value, j))
    ensures PointersOk(sh', n)
  {
    forall j | 0 <= j < |sh'.heap[n].levels| && sh'.heap[n].levels[j].ptr.Some?
      ensures Visited(sh', sh'.heap[n].levels[j].ptr.value, j)
    {
      EverLinkedMono(sh, sh', sh'.heap[n].levels[j].ptr.value, j);
    }
  }

  lemma NodeFrame(sh: Shared, sh': Shared, n: NodeId)
    requires Mono(sh, sh') && NodeOk(sh, n) && SameNode(sh, sh', n)
    ensures NodeOk(sh', n)
  {
    PointersCarry(sh, sh', n);
    if sh'.shadow[n].retirer.Some? { EverLinkedMono(sh, sh', n, 0); }
    NodeCarry(sh, sh', n);
  }

  /** Level i looks the same in both states: its pointers, its members, its auxiliary chain. */
  ghost predicate SameLevel(sh: Shared, sh': Shared, i: nat) {
    && i < |sh.chain| && i < |sh'.chain| && sh'.chain[i] == sh.chain[i]
    && |sh.heap| <= |sh'.heap|
    && (forall n :: 0 <= n < |sh.heap| && i < |sh.heap[n].levels| ==>
          i < |sh'.heap[n].levels| && sh'.heap[n].levels[i].ptr == sh.heap[n].levels[i].ptr)
    && (forall n: NodeId {:trigger OnChain(sh', n, i)} :: OnChain(sh', n, i) <==> OnChain(sh, n, i))
  }

  lemma ChainFrame(sh: Shared, sh': Shared, i: nat)
    requires ChainOk(sh, i) && SameLevel(sh, sh', i)
    ensures ChainOk(sh', i)
  {
    var c := sh.chain[i];
    forall k | 0 <= k < |c| ensures PtrIs(sh', c[k], i, After(c, k)) { assert PtrIs(sh, c[k], i, After(c, k)); }
    forall n: NodeId ensures OnChain(sh', n, i) <==> n in sh'.chain[i] {
      assert OnChain(sh, n, i) <==> n in sh.chain[i];
    }
  }

  lemma SortedFrame(sh: Shared, sh': Shared, c: seq<NodeId>)
    requires Mono(sh, sh') && Sorted(sh, c)
    ensures Sorted(sh', c)
  {
    forall k | 0 <= k < |c| ensures c[k] < |sh'.heap| && sh'.heap[c[k]].key == sh.heap[c[k]].key {
      assert MonoNode(sh, sh', c[k]);
    }
  }

  /** Nothing is created, only nodes a and b may differ, and the new state satisfies them. */
  lemma Assemble(sh: Shared, sh': Shared, a: NodeId, b: NodeId)
    requires SharedInv(sh) && Mono(sh, sh') && |sh'.heap| == |sh.heap|
    requires forall n :: 0 <= n < |sh.heap| && n != a && n != b ==> SameNode(sh, sh', n)
    requires a < |sh.heap| ==> NodeOk(sh', a)
    requires b < |sh.heap| ==> NodeOk(sh', b)
    requires HeadOk(sh') && LenOk(sh') && LogsOk(sh')
    requires forall i :: 0 <= i < HEIGHT ==> ChainOk(sh', i)
    requires Sorted(sh', sh'.chain[0])
    ensures SharedInv(sh')
  {
    forall n | 0 <= n < |sh'.heap| ensures NodeOk(sh', n) {
      if n != a && n != b { NodeFrame(sh, sh', n); }
    }
  }

  lemma LogsFrame(sh: Shared, sh': Shared)
    requires LogsOk(sh) && Mono(sh, sh')
    requires sh'.retired == sh.retired && sh'.handed == sh.handed && sh'.entries == sh.entries
    ensures LogsOk(sh')
  {
    forall n | n in sh'.retired ensures n < |sh'.shadow| && sh'.shadow[n].retirer.Some? {
      assert MonoNode(sh, sh', n);
    }
    forall n | n in sh'.handed ensures n < |sh'.shadow| && sh'.shadow[n].winner.Some? {
      assert MonoNode(sh, sh', n);
    }
    forall n | n in sh'.entries ensures Visited(sh', n, 0) { EverLinkedMono(sh, sh', n, 0); }
  }

  lemma LenFrame(sh: Shared, sh': Shared)
    requires LenOk(sh) && Mono(sh, sh') && sh'.len == sh.len && sh'.counted == sh.counted
    requires forall n: NodeId :: Visited(sh', n, 0) && !sh'.heap[n].removed ==>
               Visited(sh, n, 0) || n in sh.counted
    ensures LenOk(sh')
  {
    forall n: NodeId | Visited(sh', n, 0) && !sh'.heap[n].removed ensures n in sh'.counted {
      assert n < |sh.heap| ==> MonoNode(sh, sh', n);
    }
  }

  /**
    The common end of the proofs: nothing is created or logged, only nodes a and b differ and are well
    formed, and every chain but the i-th looks the same.
   */
  lemma Conclude(sh: Shared, sh': Shared, a: NodeId, b: NodeId, i: nat)
    requires SharedInv(sh) && Mono(sh, sh') && |sh'.heap| == |sh.heap| && |sh'.chain| == HEIGHT
    requires forall n :: 0 <= n < |sh.heap| && n != a && n != b ==> SameNode(sh, sh', n)
    requires NodeOk(sh', a) && NodeOk(sh', b)
    requires HeadOk(sh')
    requires sh'.retired == sh.retired && sh'.handed == sh.handed && sh'.entries == sh.entries
    requires sh'.len == sh.len && sh'.counted == sh.counted
    requires forall n: NodeId :: Visited(sh', n, 0) && !sh'.heap[n].removed ==>
               Visited(sh, n, 0) || n in sh.counted
    requires forall q :: 0 <= q < HEIGHT && q != i ==> SameLevel(sh, sh', q)
    requires i < HEIGHT ==> ChainOk(sh', i)
    requires i == 0 ==> Sorted(sh, sh'.chain[0])
    ensures SharedInv(sh')
  {
    hide NodeOk, ChainOk, Sorted, LenOk, LogsOk, HeadOk;
    LogsFrame(sh, sh');
    LenFrame(sh, sh');
    forall q | 0 <= q < HEIGHT ensures ChainOk(sh', q) {
      if q != i { ChainFrame(sh, sh', q); }
    }
    assert i != 0 ==> SameLevel(sh, sh', 0);
    SortedFrame(sh, sh', sh'.chain[0]);
    Assemble(sh, sh', a, b);
  }

  /** Only `len`, the logs and the auxiliary count may differ. */
  ghost predicate BooksOnly(sh: Shared, sh': Shared) {
    sh'.heap == sh.heap && sh'.shadow == sh.shadow && sh'.chain == sh.chain && sh.entries <= sh'.entries
  }

  lemma BooksMono(sh: Shared, sh': Shared)
    requires SharedInv(sh) && BooksOnly(sh, sh')
    ensures Mono(sh, sh') && |sh.shadow| == |sh.heap|
  {
    hide ChainOk, Sorted, LenOk, LogsOk;
    forall m | 0 <= m < |sh.heap| ensures MonoNode(sh, sh', m) { assert NodeOk(sh, m); }
  }

  lemma BooksKeep(sh: Shared, sh': Shared)
    requires SharedInv(sh) && BooksOnly(sh, sh') && Mono(sh, sh') && LenOk(sh') && LogsOk(sh')
    ensures SharedInv(sh')
  {
    hide NodeOk, LenOk, LogsOk, Mono;
    forall j | 0 <= j < HEIGHT ensures ChainOk(sh', j) { ChainFrame(sh, sh', j); }
    SortedFrame(sh, sh', sh.chain[0]);
    Assemble(sh, sh', |sh.heap|, |sh.heap|);
  }

  ghost predicate KeptByAll(sh: Shared, sh': Shared) {
    forall u: Tid :: Kept(sh, sh', u)
  }

  ghost predicate KeptByOthers(sh: Shared, sh': Shared, t: Tid) {
    forall u: Tid :: u != t ==> Kept(sh, sh', u)
  }

  // ------------------------------------------------------------------ tagging

  lemma TagKeepsNode(sh: Shared, sh': Shared, n: NodeId, i: nat, p: Ptr)
    requires |sh.shadow| == |sh.heap| && NodeOk(sh, n) && i < |sh.heap[n].levels|
    requires sh.heap[n].levels[i] == Word(p, false) && sh.heap[n].removed
    requires forall j: nat :: i < j < |sh.heap[n].levels| ==> Tagged(sh, n, j)
    requires sh' == ActTag(sh, n, i, p)
    ensures Mono(sh, sh') && NodeOk(sh', n)
  {
    forall m | 0 <= m < |sh.heap| ensures MonoNode(sh, sh', m) {}
    PointersCarry(sh, sh', n);
    forall j: nat ensures EverLinked(sh', n, j) <==> EverLinked(sh, n, j) {}
    forall j: nat ensures OnChain(sh', n, j) <==> OnChain(sh, n, j) {}
    forall j: nat ensures Tagged(sh', n, j) <==> Tagged(sh, n, j) || j == i {}
    assert BottomUp(sh', n) by {
      forall j: nat, k: nat | k < j && EverLinked(sh', n, j) ensures EverLinked(sh', n, k) {
        assert EverLinked(sh, n, j) && EverLinked(sh, n, k);
      }
    }
  }

  /** Tagging level i, all higher levels being tagged, by the thread that removed n. */
  lemma TagKeeps(sh: Shared, sh': Shared, t: Tid, n: NodeId, i: nat, p: Ptr)
    requires SharedInv(sh) && n < |sh.heap| && i < |sh.heap[n].levels|
    requires sh.heap[n].levels[i] == Word(p, false) && sh.shadow[n].winner == Some(t)
    requires forall j: nat :: i < j < |sh.heap[n].levels| ==> Tagged(sh, n, j)
    requires sh' == ActTag(sh, n, i, p)
    ensures SharedInv(sh') && Mono(sh, sh') && KeptByOthers(sh, sh', t)
    ensures KeptNew(sh, sh', t) && KeptHanded(sh, sh', t) && KeptDebt(sh, sh', t)
  {
    hide KeptByOthers, KeptNew, KeptHanded, KeptDebt;
    assert NodeOk(sh, n);
    TagKept(sh, sh', t, n, i, p);
    TagKeepsNode(sh, sh', n, i, p);
    hide Mono, NodeOk, Sorted, ChainOk;
    Conclude(sh, sh', n, n, HEIGHT);
  }

  lemma TagKept(sh: Shared, sh': Shared, t: Tid, n: NodeId, i: nat, p: Ptr)
    requires |sh.shadow| == |sh.heap| && n < |sh.heap| && i < |sh.heap[n].levels|
    requires sh.heap[n].levels[i] == Word(p, false) && sh.shadow[n].winner == Some(t) && sh' == ActTag(sh, n, i, p)
    ensures KeptByOthers(sh, sh', t) && KeptNew(sh, sh', t) && KeptHanded(sh, sh', t) && KeptDebt(sh, sh', t)
  {
  }

  // ------------------------------------------------------------------ the removed bit

  lemma RemoveKeepsNode(sh: Shared, sh': Shared, t: Tid, n: NodeId)
    requires |sh.shadow| == |sh.heap| && NodeOk(sh, n) && !sh.heap[n].removed && Visited(sh, n, 0)
    requires sh' == ActRemove(sh, t, n)
    ensures Mono(sh, sh') && NodeOk(sh', n)
  {
    forall m | 0 <= m < |sh.heap| ensures MonoNode(sh, sh', m) {}
    forall i: nat ensures EverLinked(sh', n, i) <==> EverLinked(sh, n, i) {}
    forall i: nat ensures Tagged(sh', n, i) <==> Tagged(sh, n, i) {}
    forall i: nat ensures OnChain(sh', n, i) <==> OnChain(sh, n, i) {}
    PointersCarry(sh, sh', n);
    assert BottomUp(sh', n) by {
      forall j: nat, k: nat | k < j && EverLinked(sh', n, j) ensures EverLinked(sh', n, k) {
        assert EverLinked(sh, n, j) && EverLinked(sh, n, k);
      }
    }
  }

  /** Setting the removed bit of a node that is not removed. */
  lemma RemoveKeeps(sh: Shared, sh': Shared, t: Tid, n: NodeId)
    requires SharedInv(sh) && Visited(sh, n, 0) && !sh.heap[n].removed
    requires sh' == ActRemove(sh, t, n)
    ensures SharedInv(sh') && Mono(sh, sh') && KeptByAll(sh, sh')
  {
    assert NodeOk(sh, n);
    RemoveKeepsNode(sh, sh', t, n);
    Conclude(sh, sh', n, n, HEIGHT);
  }

  // ------------------------------------------------------------------ reference counts

  /** Changing the reference count and the state of one level of n, but not whether it has been linked. */
  lemma RefsKeepNode(sh: Shared, sh': Shared, n: NodeId, i: nat, l: LinkState, refs: int)
    requires |sh.shadow| == |sh.heap| && NodeOk(sh, n) && n != HEAD && i < |sh.shadow[n].links|
    requires EverState(l) <==> EverState(sh.shadow[n].links[i])
    requires !l.Linked? && !sh.shadow[n].links[i].Linked?
    requires refs == CountHeld(sh.shadow[n].links[i := l])
    requires sh.shadow[n].retirer == None
    requires sh' == SetLink(StoreNode(sh, n, sh.heap[n].(refs := refs)), n, i, l)
    ensures Mono(sh, sh') && NodeOk(sh', n)
    ensures forall j :: 0 <= j < HEIGHT && j < |sh.chain| ==> SameLevel(sh, sh', j)
  {
    forall m | 0 <= m < |sh.heap| ensures MonoNode(sh, sh', m) {}
    forall j: nat ensures EverLinked(sh', n, j) <==> EverLinked(sh, n, j) {}
    forall j: nat ensures OnChain(sh', n, j) <==> OnChain(sh, n, j) {}
    forall j: nat ensures Tagged(sh', n, j) <==> Tagged(sh, n, j) {}
    PointersCarry(sh, sh', n);
    NodeCarry(sh, sh', n);
  }

  /** `add_ref` at the bottom level, or `try_add_ref` above it, by the thread that builds n. */
  lemma ReserveKeeps(sh: Shared, sh': Shared, t: Tid, n: NodeId, i: nat)
    requires SharedInv(sh) && Building(sh, t, n, i, Fresh) && i < sh.heap[n].height
    requires i > 0 ==> sh.heap[n].refs != 0
    requires sh' == ActReserve(sh, n, i)
    ensures SharedInv(sh') && Mono(sh, sh') && KeptByOthers(sh, sh', t)
    ensures KeptHanded(sh, sh', t) && KeptWon(sh, sh', t) && KeptDebt(sh, sh', t)
  {
    assert NodeOk(sh, n);
    CountHeldUpdate(sh.shadow[n].links, i, Reserved);
    if i == 0 { assert !EverLinked(sh, n, 0); }
    RefsKeepNode(sh, sh', n, i, Reserved, sh.heap[n].refs + 1);
    Conclude(sh, sh', n, n, HEIGHT);
  }

  /** The raw `sub_ref` by which the builder of n takes its reservation back. */
  lemma UnreserveKeeps(sh: Shared, sh': Shared, t: Tid, n: NodeId, i: nat)
    requires SharedInv(sh) && Building(sh, t, n, i, Reserved) && i < sh.heap[n].height
    requires sh' == ActUnreserve(sh, n, i)
    ensures SharedInv(sh') && Mono(sh, sh') && KeptByOthers(sh, sh', t)
    ensures KeptHanded(sh, sh', t) && KeptWon(sh, sh', t) && KeptDebt(sh, sh', t)
  {
    assert NodeOk(sh, n);
    CountHeldUpdate(sh.shadow[n].links, i, Fresh);
    CountHeldZero(sh.shadow[n].links, i);
    RefsKeepNode(sh, sh', n, i, Fresh, sh.heap[n].refs - 1);
    Conclude(sh, sh', n, n, HEIGHT);
  }

  /** The node part of `try_sub_ref`: n stays well formed, and every other node is untouched. */
  lemma SubAt(sh: Shared, sh': Shared, t: Tid, n: NodeId, i: nat)
    requires |sh.shadow| == |sh.heap| && NodeOk(sh, n) && n != HEAD && Holds(sh, n, i, Unlinking(t))
    requires sh' == ActSub(sh, t, n, i)
    ensures sh.heap[n].refs > 0 && EverLinked(sh, n, 0) && sh.shadow[n].retirer == None
    ensures Mono(sh, sh') && NodeOk(sh', n)
    ensures forall j :: 0 <= j < HEIGHT && j < |sh.chain| ==> SameLevel(sh, sh', j)
  {
    CountHeldUpdate(sh.shadow[n].links, i, Gone);
    CountHeldZero(sh.shadow[n].links, i);
    var s1 := SetLink(StoreNode(sh, n, sh.heap[n].(refs := sh.heap[n].refs - 1)), n, i, Gone);
    RefsKeepNode(sh, s1, n, i, Gone, sh.heap[n].refs - 1);
    assert EverLinked(sh, n, i);
    assert EverLinked(sh, n, 0);
    EverLinkedMono(sh, s1, n, 0);
    forall m | 0 <= m < |sh.heap| ensures MonoNode(sh, sh', m) { assert MonoNode(sh, s1, m); }
    SubKeepsNode(s1, sh', t, n);
    forall j | 0 <= j < HEIGHT && j < |sh.chain| ensures SameLevel(sh, sh', j) {
      assert SameLevel(sh, s1, j);
      forall m: NodeId ensures OnChain(sh', m, j) <==> OnChain(s1, m, j) {}
    }
  }

  /** `try_sub_ref` by the thread that dropped n from chain i. */
  lemma SubKeeps(sh: Shared, sh': Shared, t: Tid, n: NodeId, i: nat)
    requires SharedInv(sh) && n < |sh.heap| && n != HEAD && Holds(sh, n, i, Unlinking(t))
    requires sh' == ActSub(sh, t, n, i)
    ensures sh.heap[n].refs > 0
    ensures SharedInv(sh') && Mono(sh, sh') && KeptByOthers(sh, sh', t)
    ensures KeptHanded(sh, sh', t) && KeptWon(sh, sh', t) && KeptNew(sh, sh', t)
    ensures sh.heap[n].refs == 1 ==> Retiring(sh', t, n)
  {
    assert NodeOk(sh, n);
    SubAt(sh, sh', t, n, i);
    SubKept(sh, sh', t, n, i);
    SubLinks(sh, sh', t, n, i);
    hide NodeOk, KeptByOthers, KeptHanded, KeptWon, KeptNew, Mono, LenOk, ChainOk, Sorted, SameLevel;
    Conclude(sh, sh', n, n, HEIGHT);
  }

  lemma SubKept(sh: Shared, sh': Shared, t: Tid, n: NodeId, i: nat)
    requires |sh.shadow| == |sh.heap| && n < |sh.heap| && Holds(sh, n, i, Unlinking(t))
    requires sh' == ActSub(sh, t, n, i)
    ensures KeptByOthers(sh, sh', t)
    ensures KeptHanded(sh, sh', t) && KeptWon(sh, sh', t) && KeptNew(sh, sh', t)
  {
  }

  lemma SubLinks(sh: Shared, sh': Shared, t: Tid, n: NodeId, i: nat)
    requires |sh.shadow| == |sh.heap| && n < |sh.heap| && Holds(sh, n, i, Unlinking(t))
    requires sh' == ActSub(sh, t, n, i)
    ensures forall m: NodeId, j: nat :: EverLinked(sh', m, j) ==> EverLinked(sh, m, j)
  {
  }

  /** Recording who reached zero changes nothing else. */
  lemma SubKeepsNode(s1: Shared, sh': Shared, t: Tid, n: NodeId)
    requires |s1.shadow| == |s1.heap| && NodeOk(s1, n) && n != HEAD && EverLinked(s1, n, 0)
    requires s1.shadow[n].retirer == None
    requires sh' == s1 || (s1.heap[n].refs == 0 && sh' == SetShadow(s1, n, s1.shadow[n].(retirer := Some(t))))
    ensures NodeOk(sh', n)
  {
    forall m | 0 <= m < |s1.heap| ensures MonoNode(s1, sh', m) {}
    forall j: nat ensures EverLinked(sh', n, j) <==> EverLinked(s1, n, j) {}
    forall j: nat ensures OnChain(sh', n, j) <==> OnChain(s1, n, j) {}
    forall j: nat ensures Tagged(sh', n, j) <==> Tagged(s1, n, j) {}
    PointersCarry(s1, sh', n);
    NodeCarry(s1, sh', n);
  }

  /** `retire_node` by the thread whose decrement reached zero. */
  lemma RetireKeeps(sh: Shared, sh': Shared, t: Tid, n: NodeId)
    requires SharedInv(sh) && Retiring(sh, t, n) && sh' == ActRetire(sh, n)
    ensures SharedInv(sh') && Mono(sh, sh') && KeptByOthers(sh, sh', t)
    ensures KeptHanded(sh, sh', t) && KeptWon(sh, sh', t) && KeptNew(sh, sh', t)
  {
    hide SharedInv, Mono;
    BooksMono(sh, sh');
    assert LenOk(sh') && LogsOk(sh') by { RetireBooks(sh, sh', t, n); }
    BooksKeep(sh, sh');
  }

  lemma RetireBooks(sh: Shared, sh': Shared, t: Tid, n: NodeId)
    requires SharedInv(sh) && Mono(sh, sh') && Retiring(sh, t, n) && sh' == ActRetire(sh, n)
    ensures LenOk(sh') && LogsOk(sh')
  {
    hide Mono, NodeOk, ChainOk, Sorted;
    LenFrame(sh, sh');
    NoDupAppend(sh.retired, n);
    forall e | e in sh'.entries ensures Visited(sh', e, 0) { EverLinkedMono(sh, sh', e, 0); }
  }

  // ------------------------------------------------------------------ len, entries, creation

  /** `len.fetch_add` by the thread that created n. */
  lemma CountKeeps(sh: Shared, sh': Shared, t: Tid, n: NodeId)
    requires SharedInv(sh) && n < |sh.heap| && n !in sh.counted && sh.shadow[n].owner == t
    requires sh' == ActCount(sh, n)
    ensures SharedInv(sh') && Mono(sh, sh') && KeptByOthers(sh, sh', t)
    ensures KeptHanded(sh, sh', t) && KeptWon(sh, sh', t) && KeptDebt(sh, sh', t)
  {
    hide SharedInv, Mono;
    BooksMono(sh, sh');
    assert LenOk(sh') && LogsOk(sh') by { CountBooks(sh, sh', n); }
    BooksKeep(sh, sh');
  }

  lemma CountBooks(sh: Shared, sh': Shared, n: NodeId)
    requires SharedInv(sh) && Mono(sh, sh') && n < |sh.heap|
    requires (n !in sh.counted && sh' == ActCount(sh, n))
          || (n in sh.counted && n < |sh.shadow| && sh.shadow[n].winner.Some? && sh' == ActUncount(sh, n))
    ensures LenOk(sh') && LogsOk(sh') && (n in sh.counted ==> sh.len >= 1)
  {
    hide Mono, ChainOk, Sorted;
    assert NodeOk(sh, n);
    LogsFrame(sh, sh');
    forall m: NodeId | Visited(sh', m, 0) && !sh'.heap[m].removed ensures m in sh'.counted {
      assert Visited(sh, m, 0);
    }
  }

  /** `len.fetch_sub` by the thread that removed n. */
  lemma UncountKeeps(sh: Shared, sh': Shared, t: Tid, n: NodeId)
    requires SharedInv(sh) && n < |sh.heap| && n in sh.counted && sh.shadow[n].winner == Some(t)
    requires sh' == ActUncount(sh, n)
    ensures sh.len >= 1
    ensures SharedInv(sh') && Mono(sh, sh') && KeptByOthers(sh, sh', t)
    ensures KeptHanded(sh, sh', t) && KeptNew(sh, sh', t) && KeptDebt(sh, sh', t)
  {
    hide SharedInv, Mono;
    BooksMono(sh, sh');
    CountBooks(sh, sh', n);
    BooksKeep(sh, sh');
    hide LenOk, LogsOk;
    assert |sh.shadow| == |sh.heap|;
  }

  /** Returning an entry. */
  lemma GiveKeeps(sh: Shared, sh': Shared, t: Tid, n: NodeId, hand: bool)
    requires SharedInv(sh) && Visited(sh, n, 0) && (hand ==> Won(sh, t, n)) && sh' == ActGive(sh, n, hand)
    ensures SharedInv(sh') && Mono(sh, sh') && KeptByOthers(sh, sh', t)
    ensures KeptNew(sh, sh', t) && KeptWon(sh, sh', t) && KeptDebt(sh, sh', t)
    ensures !hand ==> KeptHanded(sh, sh', t)
  {
    hide SharedInv, Mono, LenOk, LogsOk;
    BooksMono(sh, sh');
    assert LogsOk(sh') && LenOk(sh') by { GiveLogs(sh, sh', t, n, hand); }
    BooksKeep(sh, sh');
  }

  lemma GiveLogs(sh: Shared, sh': Shared, t: Tid, n: NodeId, hand: bool)
    requires SharedInv(sh) && Mono(sh, sh') && Visited(sh, n, 0) && (hand ==> Won(sh, t, n)) && sh' == ActGive(sh, n, hand)
    ensures LogsOk(sh') && LenOk(sh')
  {
    hide Mono, NodeOk, ChainOk, Sorted;
    LenFrame(sh, sh');
    if hand { NoDupAppend(sh.handed, n); }
    forall e | e in sh'.entries ensures Visited(sh', e, 0) {
      if e != n { assert Visited(sh, e, 0); }
      EverLinkedMono(sh, sh', e, 0);
    }
  }

  /** Allocating a node. */
  lemma CreateKeeps(sh: Shared, sh': Shared, t: Tid, key: int, val: int, h: nat)
    requires SharedInv(sh) && 1 <= h <= HEIGHT && sh' == ActCreate(sh, t, key, val, h)
    ensures SharedInv(sh') && Mono(sh, sh') && KeptByAll(sh, sh')
    ensures Building(sh', t, |sh.heap|, 0, Fresh) && |sh.heap| !in sh'.counted
    ensures sh'.heap[|sh.heap|].key == key && sh'.heap[|sh.heap|].val == val
  {
    var n := |sh.heap|;
    forall m | 0 <= m < n ensures MonoNode(sh, sh', m) { assert NodeOk(sh, m); }
    CreatedOk(sh, sh', t, key, val, h);
    hide Mono, NodeOk, KeptByAll;
    LogsFrame(sh, sh');
    LenFrame(sh, sh');
    forall j | 0 <= j < HEIGHT ensures ChainOk(sh', j) { ChainFrame(sh, sh', j); }
    SortedFrame(sh, sh', sh.chain[0]);
    forall m | 0 <= m < |sh'.heap| ensures NodeOk(sh', m) {
      if m != n { NodeFrame(sh, sh', m); }
    }
  }

  lemma CreatedOk(sh: Shared, sh': Shared, t: Tid, key: int, val: int, h: nat)
    requires HeadOk(sh) && 1 <= h <= HEIGHT && sh' == ActCreate(sh, t, key, val, h)
    ensures NodeOk(sh', |sh.heap|) && KeptByAll(sh, sh')
    ensures forall i: nat :: !EverLinked(sh', |sh.heap|, i) && !OnChain(sh', |sh.heap|, i)
  {
    var n := |sh.heap|;
    CountHeldFresh(h);
    forall i: nat ensures !EverLinked(sh', n, i) && !Tagged(sh', n, i) && !OnChain(sh', n, i) {}
  }

  // ------------------------------------------------------------------ splicing a chain

  /** An untagged tower that has been on chain i still is, and its word leads to its successor there. */
  lemma StillLinked(sh: Shared, p: NodeId, i: nat) returns (j: nat)
    requires SharedInv(sh) && i < HEIGHT && EverLinked(sh, p, i) && !sh.heap[p].levels[i].tag
    ensures OnChain(sh, p, i) && p in sh.chain[i]
    ensures j < |sh.chain[i]| && sh.chain[i][j] == p
    ensures sh.heap[p].levels[i].ptr == After(sh.chain[i], j)
  {
    assert NodeOk(sh, p);
    assert !Tagged(sh, p, i);
    assert OnChain(sh, p, i);
    assert ChainOk(sh, i);
    assert p in sh.chain[i];
    j :| 0 <= j < |sh.chain[i]| && sh.chain[i][j] == p;
    assert PtrIs(sh, sh.chain[i][j], i, After(sh.chain[i], j));
  }

  lemma DropSeq(j: nat, c: seq<NodeId>, c': seq<NodeId>)
    requires NoDup(c) && j + 1 < |c| && c' == c[..j + 1] + c[j + 2..]
    ensures |c'| == |c| - 1
    ensures forall k :: 0 <= k < |c'| ==> c'[k] == if k <= j then c[k] else c[k + 1]
    ensures forall k :: 0 <= k < j ==> After(c', k) == After(c, k)
    ensures forall k :: j <= k < |c'| ==> After(c', k) == After(c, k + 1)
    ensures NoDup(c') && forall n :: n in c' <==> n in c && n != c[j + 1]
  {
    forall n | n in c && n != c[j + 1] ensures n in c' {
      var k :| 0 <= k < |c| && c[k] == n;
      assert c'[if k <= j then k else k - 1] == n;
    }
    forall n | n in c' ensures n in c && n != c[j + 1] {
      var k :| 0 <= k < |c'| && c'[k] == n;
      assert n == c[if k <= j then k else k + 1];
    }
  }

  lemma InsertSeq(j: nat, n: NodeId, c: seq<NodeId>, c': seq<NodeId>)
    requires NoDup(c) && j < |c| && n !in c && c' == c[..j + 1] + [n] + c[j + 1..]
    ensures |c'| == |c| + 1
    ensures forall k :: 0 <= k < |c'| ==> c'[k] == if k <= j then c[k] else if k == j + 1 then n else c[k - 1]
    ensures forall k :: 0 <= k < j ==> After(c', k) == After(c, k)
    ensures After(c', j) == Some(n)
    ensures forall k :: j < k < |c'| ==> After(c', k) == After(c, k - 1)
    ensures NoDup(c') && forall m :: m in c' <==> m in c || m == n
  {
    forall m | m in c ensures m in c' {
      var k :| 0 <= k < |c| && c[k] == m;
      assert c'[if k <= j then k else k + 1] == m;
    }
    assert c'[j + 1] == n;
    forall m | m in c' && m != n ensures m in c {
      var k :| 0 <= k < |c'| && c'[k] == m;
      assert m == c[if k <= j then k else k - 1];
    }
  }

  /** The words at level i of all nodes but a and b are the same. */
  ghost predicate OtherWords(sh: Shared, sh': Shared, i: nat, a: NodeId, b: NodeId) {
    forall m: NodeId, p: Ptr :: m != a && m != b && PtrIs(sh, m, i, p) ==> PtrIs(sh', m, i, p)
  }

  /** Dropping the element after position j. */
  lemma DropPath(sh: Shared, sh': Shared, i: nat, j: nat, c: seq<NodeId>, c': seq<NodeId>)
    requires IsPath(sh, i, c) && NoDup(c) && j + 1 < |c|
    requires c' == c[..j + 1] + c[j + 2..]
    requires PtrIs(sh', c[j], i, After(c, j + 1)) && OtherWords(sh, sh', i, c[j], c[j])
    ensures IsPath(sh', i, c')
  {
    DropSeq(j, c, c');
    forall k | 0 <= k < |c'| ensures PtrIs(sh', c'[k], i, After(c', k)) {
      if k != j {
        var q := if k < j then k else k + 1;
        assert PtrIs(sh, c[q], i, After(c, q));
      }
    }
  }

  /** Inserting n after position j. */
  lemma InsertPath(sh: Shared, sh': Shared, i: nat, j: nat, n: NodeId, c: seq<NodeId>, c': seq<NodeId>)
    requires IsPath(sh, i, c) && NoDup(c) && j < |c| && n !in c
    requires c' == c[..j + 1] + [n] + c[j + 1..]
    requires PtrIs(sh', c[j], i, Some(n)) && PtrIs(sh', n, i, After(c, j)) && OtherWords(sh, sh', i, c[j], n)
    ensures IsPath(sh', i, c')
  {
    InsertSeq(j, n, c, c');
    forall k | 0 <= k < |c'| ensures PtrIs(sh', c'[k], i, After(c', k)) {
      if k < j || k > j + 1 {
        var q := if k < j then k else k - 1;
        assert PtrIs(sh, c[q], i, After(c, q));
      }
    }
  }

  lemma DropSorted(sh: Shared, c: seq<NodeId>, c': seq<NodeId>, j: nat)
    requires Sorted(sh, c) && j + 1 < |c| && c' == c[..j + 1] + c[j + 2..]
    ensures Sorted(sh, c')
  {
    forall k | 0 <= k < |c'| ensures c'[k] == (if k <= j then c[k] else c[k + 1]) {}
  }

  lemma InsertSorted(sh: Shared, c: seq<NodeId>, c': seq<NodeId>, j: nat, n: NodeId)
    requires Sorted(sh, c) && j < |c| && n < |sh.heap| && c' == c[..j + 1] + [n] + c[j + 1..]
    requires j > 0 ==> sh.heap[c[j]].key < sh.heap[n].key
    requires j + 1 < |c| ==> sh.heap[n].key < sh.heap[c[j + 1]].key
    ensures Sorted(sh, c')
  {
    forall k | 0 <= k < |c'| ensures c'[k] == (if k <= j then c[k] else if k == j + 1 then n else c[k - 1]) {}
  }

  // ------------------------------------------------------------------ unlinking

  lemma UnlinkKept(sh: Shared, sh': Shared, t: Tid, p: NodeId, n: NodeId, nn: Ptr, i: nat)
    requires |sh.shadow| == |sh.heap| && EverLinked(sh, p, i) && sh.heap[p].levels[i] == Word(Some(n), false)
    requires OnChain(sh, n, i)
    requires sh' == ActUnlink(sh, t, p, n, nn, i)
    ensures KeptByAll(sh, sh')
  {
    hide Kept;
    forall u ensures Kept(sh, sh', u) { UnlinkKeptBy(sh, sh', t, p, n, nn, i, u); }
  }

  lemma UnlinkKeptBy(sh: Shared, sh': Shared, t: Tid, p: NodeId, n: NodeId, nn: Ptr, i: nat, u: Tid)
    requires |sh.shadow| == |sh.heap| && EverLinked(sh, p, i) && sh.heap[p].levels[i] == Word(Some(n), false)
    requires OnChain(sh, n, i)
    requires sh' == ActUnlink(sh, t, p, n, nn, i)
    ensures Kept(sh, sh', u)
  {
    hide DropFrom;
  }

  /** What dropping n behind p does to the vocabulary of the invariant. */
  lemma UnlinkEffect(sh: Shared, sh': Shared, t: Tid, p: NodeId, n: NodeId, nn: Ptr, i: nat)
    requires |sh.shadow| == |sh.heap| && EverLinked(sh, p, i) && sh.heap[p].levels[i] == Word(Some(n), false)
    requires OnChain(sh, n, i) && n < |sh.heap| && Tagged(sh, n, i)
    requires sh' == ActUnlink(sh, t, p, n, nn, i)
    ensures Mono(sh, sh') && p != n && Holds(sh', n, i, Unlinking(t))
    ensures forall m: NodeId, j: nat :: OnChain(sh', m, j) <==> OnChain(sh, m, j) && !(m == n && j == i)
    ensures forall m: NodeId, j: nat :: EverLinked(sh', m, j) <==> EverLinked(sh, m, j)
    ensures forall m: NodeId, j: nat :: Tagged(sh', m, j) <==> Tagged(sh, m, j)
  {
    forall m | 0 <= m < |sh.heap| ensures MonoNode(sh, sh', m) {}
  }

  /** Both nodes that the compare-exchange touches stay well formed. */
  lemma UnlinkNodes(sh: Shared, sh': Shared, t: Tid, p: NodeId, n: NodeId, nn: Ptr, i: nat)
    requires |sh.shadow| == |sh.heap| && NodeOk(sh, p) && NodeOk(sh, n)
    requires EverLinked(sh, p, i) && sh.heap[p].levels[i] == Word(Some(n), false)
    requires n != HEAD && OnChain(sh, n, i) && Tagged(sh, n, i) && PtrIs(sh, n, i, nn)
    requires sh' == ActUnlink(sh, t, p, n, nn, i)
    ensures NodeOk(sh', p) && NodeOk(sh', n)
  {
    UnlinkEffect(sh, sh', t, p, n, nn, i);
    CountHeldUpdate(sh.shadow[n].links, i, Unlinking(t));
    CountHeldZero(sh.shadow[n].links, i);
    assert nn.Some? ==> Visited(sh, nn.value, i);
    PointersCarry(sh, sh', p);
    PointersCarry(sh, sh', n);
    NodeCarry(sh, sh', p);
    NodeCarry(sh, sh', n);
  }

  /** The rest of memory looks the same. */
  lemma UnlinkRest(sh: Shared, sh': Shared, t: Tid, p: NodeId, n: NodeId, nn: Ptr, i: nat)
    requires HeadOk(sh) && n != HEAD && OnChain(sh, n, i) && i < HEIGHT
    requires sh' == ActUnlink(sh, t, p, n, nn, i)
    requires forall m: NodeId, j: nat :: OnChain(sh', m, j) <==> OnChain(sh, m, j) && !(m == n && j == i)
    ensures HeadOk(sh') && forall m :: 0 <= m < |sh.heap| && m != p && m != n ==> SameNode(sh, sh', m)
    ensures forall q :: 0 <= q < HEIGHT && q != i ==> SameLevel(sh, sh', q)
    ensures sh'.retired == sh.retired && sh'.handed == sh.handed && sh'.entries == sh.entries
    ensures sh'.len == sh.len && sh'.counted == sh.counted && |sh'.heap| == |sh.heap|
  {
  }

  /** The compare-exchange by which t drops the tagged node n from chain i behind its predecessor p. */
  lemma UnlinkKeeps(sh: Shared, sh': Shared, t: Tid, p: NodeId, n: NodeId, nn: Ptr, i: nat)
    requires SharedInv(sh) && i < HEIGHT && EverLinked(sh, p, i) && sh.heap[p].levels[i] == Word(Some(n), false)
    requires n != HEAD && Tagged(sh, n, i) && PtrIs(sh, n, i, nn)
    requires sh' == ActUnlink(sh, t, p, n, nn, i)
    ensures SharedInv(sh') && Mono(sh, sh') && KeptByAll(sh, sh')
    ensures Holds(sh', n, i, Unlinking(t))
  {
    var j := StillLinked(sh, p, i);
    assert ChainOk(sh, i);
    assert n in sh.chain[i];
    assert OnChain(sh, n, i);
    assert NodeOk(sh, p) && NodeOk(sh, n);
    UnlinkEffect(sh, sh', t, p, n, nn, i);
    UnlinkNodes(sh, sh', t, p, n, nn, i);
    UnlinkChain(sh, sh', t, p, n, nn, i, j);
    UnlinkKept(sh, sh', t, p, n, nn, i);
    UnlinkRest(sh, sh', t, p, n, nn, i);
    hide NodeOk, KeptByAll, Mono, LenOk, ChainOk, Sorted, SameNode, SameLevel, HeadOk, ActUnlink;
    Conclude(sh, sh', p, n, i);
  }

  /** Chain i without n, the element behind its j-th element p. */
  lemma UnlinkChain(sh: Shared, sh': Shared, t: Tid, p: NodeId, n: NodeId, nn: Ptr, i: nat, j: nat)
    requires ChainOk(sh, i) && Sorted(sh, sh.chain[0]) && |sh.chain| == HEIGHT && j < |sh.chain[i]| && sh.chain[i][j] == p
    requires After(sh.chain[i], j) == Some(n) && p != n && PtrIs(sh, p, i, Some(n)) && PtrIs(sh, n, i, nn)
    requires sh' == ActUnlink(sh, t, p, n, nn, i) && n < |sh.shadow| && i < |sh.shadow[n].links|
    requires forall m: NodeId :: OnChain(sh', m, i) <==> OnChain(sh, m, i) && m != n
    ensures ChainOk(sh', i) && (i == 0 ==> Sorted(sh, sh'.chain[0])) && (i != 0 ==> sh'.chain[0] == sh.chain[0])
  {
    var c := sh.chain[i];
    assert c[j + 1] == n && n in c;
    assert PtrIs(sh, c[j + 1], i, After(c, j + 1));
    var k := DropFromShape(c, n);
    assert k == j + 1;
    var c' := DropFrom(c, n);
    DropPath(sh, sh', i, j, c, c');
    DropSeq(j, c, c');
    forall m: NodeId ensures OnChain(sh', m, i) <==> m in c' { assert OnChain(sh, m, i) <==> m in c; }
    if i == 0 { DropSorted(sh, c, c', j); }
  }

  // ------------------------------------------------------------------ linking

  /** What publishing n behind p does to the vocabulary of the invariant. */
  lemma LinkEffect(sh: Shared, sh': Shared, t: Tid, p: NodeId, n: NodeId, i: nat)
    requires |sh.shadow| == |sh.heap| && Building(sh, t, n, i, Reserved) && i < sh.heap[n].height
    requires EverLinked(sh, p, i) && sh.heap[p].levels[i] == Word(sh.heap[n].levels[i].ptr, false)
    requires sh' == ActLink(sh, p, n, i)
    ensures Mono(sh, sh') && KeptByOthers(sh, sh', t) && p != n
    ensures KeptHanded(sh, sh', t) && KeptWon(sh, sh', t) && KeptDebt(sh, sh', t)
    ensures forall m: NodeId, j: nat :: OnChain(sh', m, j) <==> OnChain(sh, m, j) || (m == n && j == i)
    ensures forall m: NodeId, j: nat :: EverLinked(sh', m, j) <==> EverLinked(sh, m, j) || (m == n && j == i)
    ensures forall m: NodeId, j: nat :: Tagged(sh', m, j) <==> Tagged(sh, m, j)
  {
    assert !EverLinked(sh, n, i);
    LinkWords(sh, sh', t, p, n, i);
    LinkMono(sh, sh', t, p, n, i);
    LinkKept(sh, sh', t, p, n, i);
    hide ActLink, Building;
  }

  lemma LinkWords(sh: Shared, sh': Shared, t: Tid, p: NodeId, n: NodeId, i: nat)
    requires |sh.shadow| == |sh.heap| && Building(sh, t, n, i, Reserved) && i < sh.heap[n].height
    requires EverLinked(sh, p, i) && sh.heap[p].levels[i] == Word(sh.heap[n].levels[i].ptr, false)
    requires sh' == ActLink(sh, p, n, i)
    ensures forall m: NodeId, j: nat :: OnChain(sh', m, j) <==> OnChain(sh, m, j) || (m == n && j == i)
    ensures forall m: NodeId, j: nat :: EverLinked(sh', m, j) <==> EverLinked(sh, m, j) || (m == n && j == i)
    ensures forall m: NodeId, j: nat :: Tagged(sh', m, j) <==> Tagged(sh, m, j)
  {
  }

  lemma LinkMono(sh: Shared, sh': Shared, t: Tid, p: NodeId, n: NodeId, i: nat)
    requires |sh.shadow| == |sh.heap| && Building(sh, t, n, i, Reserved) && i < sh.heap[n].height
    requires EverLinked(sh, p, i) && sh.heap[p].levels[i] == Word(sh.heap[n].levels[i].ptr, false)
    requires sh' == ActLink(sh, p, n, i)
    ensures Mono(sh, sh')
  {
    assert !EverLinked(sh, n, i);
    forall m | 0 <= m < |sh.heap| ensures MonoNode(sh, sh', m) {}
  }

  lemma LinkKept(sh: Shared, sh': Shared, t: Tid, p: NodeId, n: NodeId, i: nat)
    requires |sh.shadow| == |sh.heap| && Building(sh, t, n, i, Reserved) && i < sh.heap[n].height
    requires EverLinked(sh, p, i) && sh.heap[p].levels[i] == Word(sh.heap[n].levels[i].ptr, false)
    requires sh' == ActLink(sh, p, n, i)
    ensures KeptByOthers(sh, sh', t)
    ensures KeptHanded(sh, sh', t) && KeptWon(sh, sh', t) && KeptDebt(sh, sh', t)
  {
    assert !EverLinked(sh, n, i);
    hide InsertAfter;
  }

  lemma LinkPred(sh: Shared, sh': Shared, t: Tid, p: NodeId, n: NodeId, i: nat)
    requires |sh.shadow| == |sh.heap| && Building(sh, t, n, i, Reserved) && i < sh.heap[n].height && NodeOk(sh, p)
    requires EverLinked(sh, p, i) && sh.heap[p].levels[i] == Word(sh.heap[n].levels[i].ptr, false)
    requires sh' == ActLink(sh, p, n, i)
    ensures NodeOk(sh', p)
  {
    LinkEffect(sh, sh', t, p, n, i);
    assert PointersOk(sh', p) by {
      forall j | 0 <= j < |sh'.heap[p].levels| && sh'.heap[p].levels[j].ptr.Some?
        ensures Visited(sh', sh'.heap[p].levels[j].ptr.value, j)
      {
        if j != i { EverLinkedMono(sh, sh', sh.heap[p].levels[j].ptr.value, j); }
      }
    }
    NodeCarry(sh, sh', p);
  }

  lemma LinkNew(sh: Shared, sh': Shared, t: Tid, p: NodeId, n: NodeId, i: nat)
    requires |sh.shadow| == |sh.heap| && Building(sh, t, n, i, Reserved) && i < sh.heap[n].height && NodeOk(sh, n)
    requires EverLinked(sh, p, i) && sh.heap[p].levels[i] == Word(sh.heap[n].levels[i].ptr, false)
    requires sh' == ActLink(sh, p, n, i)
    ensures NodeOk(sh', n)
  {
    LinkEffect(sh, sh', t, p, n, i);
    CountHeldUpdate(sh.shadow[n].links, i, Linked);
    CountHeldZero(sh.shadow[n].links, i);
    PointersCarry(sh, sh', n);
    assert BottomUp(sh', n) by {
      forall a: nat, b: nat | b < a && EverLinked(sh', n, a) ensures EverLinked(sh', n, b) {
        if a == i { assert EverLinked(sh, n, b); }
      }
    }
    assert TagsOk(sh', n) by {
      forall a: nat | EverLinked(sh', n, a) && !OnChain(sh', n, a) ensures Tagged(sh', n, a) {
        assert EverLinked(sh, n, a) && !OnChain(sh, n, a);
      }
      forall a: nat, b: nat | Tagged(sh', n, a) && a < b < |sh'.heap[n].levels| ensures Tagged(sh', n, b) {
        assert Tagged(sh, n, a) && Tagged(sh, n, b);
      }
      if sh'.heap[n].removed { EverLinkedMono(sh, sh', n, 0); }
    }
  }

  /** The rest of memory looks the same. */
  lemma LinkRest(sh: Shared, sh': Shared, p: NodeId, n: NodeId, i: nat)
    requires HeadOk(sh) && i < HEIGHT
    requires sh' == ActLink(sh, p, n, i)
    requires forall m: NodeId, j: nat :: OnChain(sh', m, j) <==> OnChain(sh, m, j) || (m == n && j == i)
    ensures HeadOk(sh') && forall m :: 0 <= m < |sh.heap| && m != p && m != n ==> SameNode(sh, sh', m)
    ensures forall q :: 0 <= q < HEIGHT && q != i ==> SameLevel(sh, sh', q)
    ensures sh'.retired == sh.retired && sh'.handed == sh.handed && sh'.entries == sh.entries
    ensures sh'.len == sh.len && sh'.counted == sh.counted && |sh'.heap| == |sh.heap|
    ensures p < |sh.heap| && n < |sh.heap| ==> sh'.heap[n].removed == sh.heap[n].removed
  {
  }

  /** The compare-exchange by which t publishes its node n on chain i behind p. */
  lemma LinkKeeps(sh: Shared, sh': Shared, t: Tid, p: NodeId, n: NodeId, i: nat)
    requires SharedInv(sh) && i < HEIGHT && Building(sh, t, n, i, Reserved) && i < sh.heap[n].height
    requires EverLinked(sh, p, i) && sh.heap[p].levels[i] == Word(sh.heap[n].levels[i].ptr, false)
    requires i == 0 ==> n in sh.counted && KeyBelow(sh, p, sh.heap[n].key)
    requires i == 0 && sh.heap[p].levels[0].ptr.Some? ==>
               sh.heap[p].levels[0].ptr.value < |sh.heap| && sh.heap[n].key < sh.heap[sh.heap[p].levels[0].ptr.value].key
    requires sh' == ActLink(sh, p, n, i)
    ensures SharedInv(sh') && Mono(sh, sh') && KeptByOthers(sh, sh', t)
    ensures KeptHanded(sh, sh', t) && KeptWon(sh, sh', t) && KeptDebt(sh, sh', t)
    ensures EverLinked(sh', n, i)
  {
    var j := StillLinked(sh, p, i);
    var c := sh.chain[i];
    assert ChainOk(sh, i);
    assert NodeOk(sh, p) && NodeOk(sh, n);
    assert !OnChain(sh, n, i);
    LinkEffect(sh, sh', t, p, n, i);
    LinkPred(sh, sh', t, p, n, i);
    LinkNew(sh, sh', t, p, n, i);
    LinkChain(sh, sh', p, n, i, j);
    LinkRest(sh, sh', p, n, i);
    hide NodeOk, KeptByOthers, KeptHanded, KeptWon, KeptDebt, Mono, LenOk, ChainOk, Sorted, SameNode, SameLevel, HeadOk, ActLink;
    Conclude(sh, sh', p, n, i);
  }

  /** Chain i with n spliced in behind its j-th element p. */
  lemma LinkChain(sh: Shared, sh': Shared, p: NodeId, n: NodeId, i: nat, j: nat)
    requires ChainOk(sh, i) && Sorted(sh, sh.chain[0]) && |sh.chain| == HEIGHT && j < |sh.chain[i]| && sh.chain[i][j] == p
    requires !OnChain(sh, n, i) && n < |sh.heap| && p != n && PtrIs(sh, p, i, After(sh.chain[i], j))
    requires PtrIs(sh, n, i, After(sh.chain[i], j)) && n < |sh.shadow| && i < |sh.shadow[n].links|
    requires i == 0 ==> KeyBelow(sh, p, sh.heap[n].key)
    requires i == 0 && After(sh.chain[0], j).Some? ==>
               After(sh.chain[0], j).value < |sh.heap| && sh.heap[n].key < sh.heap[After(sh.chain[0], j).value].key
    requires sh' == ActLink(sh, p, n, i)
    requires forall m: NodeId :: OnChain(sh', m, i) <==> OnChain(sh, m, i) || m == n
    ensures ChainOk(sh', i) && (i == 0 ==> Sorted(sh, sh'.chain[0])) && (i != 0 ==> sh'.chain[0] == sh.chain[0])
  {
    var c := sh.chain[i];
    assert n !in c;
    var k := InsertAfterShape(c, p, n);
    assert k == j;
    var c' := InsertAfter(c, p, n);
    InsertPath(sh, sh', i, j, n, c, c');
    InsertSeq(j, n, c, c');
    forall m: NodeId ensures OnChain(sh', m, i) <==> m in c' { assert OnChain(sh, m, i) <==> m in c; }
    if i == 0 { InsertSorted(sh, c, c', j, n); }
  }

  /** The new node's own word is set before it is published. */
  lemma OwnKeeps(sh: Shared, sh': Shared, t: Tid, n: NodeId, i: nat, p: Ptr)
    requires SharedInv(sh) && Building(sh, t, n, i, Fresh) && i < sh.heap[n].height
    requires !sh.heap[n].levels[i].tag && NextOk(sh, p, i)
    requires sh' == StoreWord(sh, n, i, Word(p, false))
    ensures SharedInv(sh') && Mono(sh, sh') && KeptByOthers(sh, sh', t)
    ensures KeptHanded(sh, sh', t) && KeptWon(sh, sh', t) && KeptDebt(sh, sh', t)
  {
    assert NodeOk(sh, n);
    OwnEffect(sh, sh', t, n, i, p);
    PointersCarry(sh, sh', n);
    NodeCarry(sh, sh', n);
    assert ChainOk(sh, i);
    OwnFrame(sh, sh', n, i);
    Conclude(sh, sh', n, n, i);
  }

  lemma OwnEffect(sh: Shared, sh': Shared, t: Tid, n: NodeId, i: nat, p: Ptr)
    requires |sh.shadow| == |sh.heap| && Building(sh, t, n, i, Fresh) && i < sh.heap[n].height
    requires !sh.heap[n].levels[i].tag
    requires sh' == StoreWord(sh, n, i, Word(p, false))
    ensures Mono(sh, sh') && KeptByOthers(sh, sh', t)
    ensures KeptHanded(sh, sh', t) && KeptWon(sh, sh', t) && KeptDebt(sh, sh', t)
    ensures forall m: NodeId, j: nat :: OnChain(sh', m, j) <==> OnChain(sh, m, j)
    ensures forall m: NodeId, j: nat :: EverLinked(sh', m, j) <==> EverLinked(sh, m, j)
    ensures forall m: NodeId, j: nat :: Tagged(sh', m, j) <==> Tagged(sh, m, j)
  {
    forall m | 0 <= m < |sh.heap| ensures MonoNode(sh, sh', m) {}
  }

  lemma OwnFrame(sh: Shared, sh': Shared, n: NodeId, i: nat)
    requires ChainOk(sh, i) && !OnChain(sh, n, i) && sh'.chain == sh.chain
    requires OtherWords(sh, sh', i, n, n)
    requires forall m: NodeId :: OnChain(sh', m, i) <==> OnChain(sh, m, i)
    ensures ChainOk(sh', i)
  {
    var c := sh.chain[i];
    forall k | 0 <= k < |c| ensures PtrIs(sh', c[k], i, After(c, k)) {
      assert PtrIs(sh, c[k], i, After(c, k));
      assert c[k] in c;
      assert OnChain(sh, c[k], i);
    }
    forall m: NodeId ensures OnChain(sh', m, i) <==> m in sh'.chain[i] { assert OnChain(sh, m, i) <==> m in c; }
  }
}
