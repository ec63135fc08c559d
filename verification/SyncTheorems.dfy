/** What the lock-free list guarantees in every run, with any number of threads. */
module SyncTheorems {
  import opened Common
  import opened SyncState
  import opened SyncExec
  import opened SyncInv
  import opened SyncStable
  import opened SyncActions
  import opened SyncSteps
  import opened SyncStart

  // ------------------------------------------------------------------ no panic, no stray access

  /** No thread reaches a panic of the source, and only the search for the closest node leaves an allocated tower. */
  lemma NoPanicNoFault(tr: seq<State>, k: nat, t: Tid)
    requires Run(tr) && k < |tr| && t < |tr[k].th|
    ensures !tr[k].th[t].pc.Panic?
    ensures tr[k].th[t].pc.Fault? ==> tr[k].th[t].caller == ClosestCall
  {
    hide SharedInv, Run;
    RunInv(tr, k);
    assert LocalInv(tr[k].sh, t, tr[k].th[t]);
  }

  // ------------------------------------------------------------------ chains are what is reachable

  /** p leads from the head to n along the words of level i. */
  ghost predicate Path(sh: Shared, i: nat, p: seq<NodeId>, n: NodeId) {
    && |p| >= 1 && p[0] == HEAD && p[|p| - 1] == n
    && forall k :: 0 <= k < |p| - 1 ==> PtrIs(sh, p[k], i, Some(p[k + 1]))
  }

  lemma {:induction false} PathIsPrefix(sh: Shared, i: nat, c: seq<NodeId>, p: seq<NodeId>, k: nat)
    requires IsPath(sh, i, c) && |p| >= 1 && p[0] == HEAD && k < |p|
    requires forall j :: 0 <= j < |p| - 1 ==> PtrIs(sh, p[j], i, Some(p[j + 1]))
    ensures k < |c| && p[k] == c[k]
    decreases k
  {
    if k > 0 {
      PathIsPrefix(sh, i, c, p, k - 1);
      assert PtrIs(sh, p[k - 1], i, Some(p[k]));
      assert PtrIs(sh, c[k - 1], i, After(c, k - 1));
    }
  }

  /**
    At every level the nodes reachable from the head form a finite chain without repetition: a node is
    reachable exactly when the chain lists it, and then by one path only.
   */
  lemma ChainIsReachable(tr: seq<State>, k: nat, i: nat, n: NodeId)
    requires Run(tr) && k < |tr| && i < HEIGHT
    ensures NoDup(Chain(tr[k].sh, i))
    ensures n in Chain(tr[k].sh, i) <==> exists p :: Path(tr[k].sh, i, p, n)
    ensures forall p :: Path(tr[k].sh, i, p, n) ==> |p| <= |Chain(tr[k].sh, i)| && p == Chain(tr[k].sh, i)[..|p|]
  {
    hide Run, LocalInv, SharedInv;
    RunInv(tr, k);
    ReachableIs(tr[k].sh, i, n);
  }

  lemma ReachableIs(sh: Shared, i: nat, n: NodeId)
    requires SharedInv(sh) && i < HEIGHT
    ensures NoDup(Chain(sh, i))
    ensures n in Chain(sh, i) <==> exists p :: Path(sh, i, p, n)
    ensures forall p :: Path(sh, i, p, n) ==> |p| <= |Chain(sh, i)| && p == Chain(sh, i)[..|p|]
  {
    hide NodeOk, Sorted, LenOk, LogsOk;
    assert ChainOk(sh, i);
    var c := sh.chain[i];
    hide SharedInv, ChainOk;
    if n in c {
      var m :| 0 <= m < |c| && c[m] == n;
      PrefixPath(sh, i, c, m);
    }
    forall p | Path(sh, i, p, n) ensures |p| <= |c| && p == c[..|p|] && n in c {
      PathIsPrefix(sh, i, c, p, |p| - 1);
      forall j | 0 <= j < |p| ensures p[j] == c[j] { PathIsPrefix(sh, i, c, p, j); }
    }
  }

  lemma PrefixPath(sh: Shared, i: nat, c: seq<NodeId>, m: nat)
    requires IsPath(sh, i, c) && m < |c|
    ensures Path(sh, i, c[..m + 1], c[m])
  {
    var p := c[..m + 1];
    forall j | 0 <= j < |p| - 1 ensures PtrIs(sh, p[j], i, Some(p[j + 1])) {
      assert PtrIs(sh, c[j], i, After(c, j));
    }
  }

  /** The bottom chain is strictly increasing by key, so no two nodes on it share a key. */
  lemma BottomSorted(tr: seq<State>, k: nat)
    requires Run(tr) && k < |tr|
    ensures var c := Chain(tr[k].sh, 0);
            && |c| >= 1 && c[0] == HEAD && (forall a :: 0 <= a < |c| ==> c[a] < |tr[k].sh.heap|)
            && forall a, b :: 1 <= a < b < |c| ==> tr[k].sh.heap[c[a]].key < tr[k].sh.heap[c[b]].key
  {
    hide Run, LocalInv, NodeOk, LenOk, LogsOk;
    RunInv(tr, k);
    assert ChainOk(tr[k].sh, 0);
  }

  // ------------------------------------------------------------------ the passing of time

  lemma NextMono(s: State, s': State)
    requires Inv(s) && Next(s, s')
    ensures Mono(s.sh, s'.sh)
    ensures forall n :: n in s.sh.retired ==> n in s'.sh.retired
  {
    hide SharedInv, LocalInv, Mono, Exec;
    if s' == s.(th := s.th + [IDLE]) {
      Unchanged(s.sh);
    } else {
      var t: Tid, c :| Steps(s, s', t, c);
      StepKeeps(s.sh, t, s.th[t], c);
      LogGrows(s.sh, t, s.th[t], c);
    }
  }

  lemma LogGrows(sh: Shared, t: Tid, r: Local, c: Choice)
    ensures forall n :: n in sh.retired ==> n in Exec(sh, t, r, c).0.retired
  {
  }

  lemma MonoTrans(a: Shared, b: Shared, c: Shared)
    requires Mono(a, b) && Mono(b, c)
    ensures Mono(a, c)
  {
    forall n | 0 <= n < |a.heap| ensures MonoNode(a, c, n) {
      assert MonoNode(a, b, n) && MonoNode(b, c, n);
    }
  }

  /** Keys, heights, removals, tagged words and past links survive from any moment of a run to any later one. */
  lemma {:induction false} RunMono(tr: seq<State>, j: nat, k: nat)
    requires Run(tr) && j <= k < |tr|
    ensures Mono(tr[j].sh, tr[k].sh)
    ensures forall n :: n in tr[j].sh.retired ==> n in tr[k].sh.retired
    decreases k - j
  {
    hide SharedInv, LocalInv, Mono, Next, Initial;
    if j == k {
      RunInv(tr, j);
      Unchanged(tr[j].sh);
    } else {
      RunMono(tr, j, k - 1);
      RunInv(tr, k - 1);
      assert Next(tr[k - 1], tr[k]);
      NextMono(tr[k - 1], tr[k]);
      MonoTrans(tr[j].sh, tr[k - 1].sh, tr[k].sh);
    }
  }

  /** A node on the bottom chain stays there as long as its removed bit is clear. */
  lemma NeverLost(tr: seq<State>, j: nat, k: nat, n: NodeId)
    requires Run(tr) && j <= k < |tr| && n != HEAD
    requires n in Chain(tr[j].sh, 0) && n < |tr[k].sh.heap| && !tr[k].sh.heap[n].removed
    ensures n in Chain(tr[k].sh, 0)
  {
    hide Run, LocalInv, Sorted, LenOk, LogsOk, Mono;
    RunInv(tr, j);
    RunInv(tr, k);
    RunMono(tr, j, k);
    var a, b := tr[j].sh, tr[k].sh;
    assert ChainOk(a, 0) && ChainOk(b, 0);
    assert OnChain(a, n, 0);
    assert NodeOk(a, n) by { OnChainInRange(a, n, 0); }
    EverLinkedMono(a, b, n, 0);
    assert NodeOk(b, n);
    assert OnChain(b, n, 0);
  }

  lemma OnChainInRange(sh: Shared, n: NodeId, i: nat)
    requires SharedInv(sh) && OnChain(sh, n, i)
    ensures n < |sh.heap|
  {
  }

  // ------------------------------------------------------------------ retirement

  /** A node is retired at most once; a retired node is on no chain, then or ever after. */
  lemma RetiredForever(tr: seq<State>, j: nat, k: nat, i: nat)
    requires Run(tr) && j <= k < |tr| && i < HEIGHT
    ensures NoDup(tr[k].sh.retired)
    ensures forall n :: n in tr[j].sh.retired ==> n !in Chain(tr[k].sh, i) && n in tr[k].sh.retired
  {
    hide Run, LocalInv, Sorted, LenOk, Mono;
    RunInv(tr, k);
    RunMono(tr, j, k);
    var sh := tr[k].sh;
    forall n | n in tr[j].sh.retired ensures n !in sh.chain[i] {
      assert NodeOk(sh, n);
      assert ChainOk(sh, i);
      if OnChain(sh, n, i) { CountHeldZero(sh.shadow[n].links, i); }
    }
  }

  /**
    What the destructor frees, the nodes of the bottom chain, has no repetition and no node that was
    already retired.
   */
  lemma DropFreesOnce(tr: seq<State>, k: nat)
    requires Run(tr) && k < |tr|
    ensures var c := Chain(tr[k].sh, 0); NoDup(c + tr[k].sh.retired)
  {
    hide Run, LocalInv, NodeOk, Sorted, LenOk;
    RunInv(tr, k);
    RetiredForever(tr, k, k, 0);
    assert ChainOk(tr[k].sh, 0);
    var c, r := tr[k].sh.chain[0], tr[k].sh.retired;
    forall a, b | 0 <= a < b < |c + r| ensures (c + r)[a] != (c + r)[b] {
      if a < |c| <= b { assert (c + r)[b] == r[b - |c|] && r[b - |c|] in r && c[a] in c; }
    }
  }

  // ------------------------------------------------------------------ tags and removal

  /** Tags run from the top downwards, only on removed nodes, and a tagged word never changes again. */
  lemma TagsTopDown(tr: seq<State>, j: nat, k: nat, n: NodeId, i: nat)
    requires Run(tr) && j <= k < |tr| && Tagged(tr[j].sh, n, i)
    ensures tr[j].sh.heap[n].removed
    ensures forall h: nat :: i <= h < |tr[j].sh.heap[n].levels| ==> Tagged(tr[j].sh, n, h)
    ensures n < |tr[k].sh.heap| && i < |tr[k].sh.heap[n].levels|
    ensures tr[k].sh.heap[n].levels[i] == tr[j].sh.heap[n].levels[i]
  {
    hide Run, LocalInv, Sorted, LenOk, LogsOk, Mono;
    RunInv(tr, j);
    RunMono(tr, j, k);
    assert NodeOk(tr[j].sh, n);
    TaggedMono(tr[j].sh, tr[k].sh, n, i);
  }

  /** Nothing becomes tagged. */
  ghost predicate NoNewTags(sh: Shared, sh': Shared) {
    forall n: NodeId, i: nat :: Tagged(sh', n, i) ==> Tagged(sh, n, i)
  }

  /** Nothing becomes removed. */
  ghost predicate NoNewRemovals(sh: Shared, sh': Shared) {
    forall n :: 0 <= n < |sh'.heap| && sh'.heap[n].removed ==> n < |sh.heap| && sh.heap[n].removed
  }

  lemma FindTags(sh: Shared, t: Tid, r: Local, c: Choice)
    ensures NoNewTags(sh, ExecFind(sh, t, r, c).0) && NoNewRemovals(sh, ExecFind(sh, t, r, c).0)
  {
    hide Decide, Examine, AfterFind;
  }

  lemma UnlinkTags(sh: Shared, t: Tid, r: Local)
    ensures NoNewTags(sh, ExecUnlink(sh, t, r).0) && NoNewRemovals(sh, ExecUnlink(sh, t, r).0)
  {
    hide AfterUnlink, NextUnlink;
  }

  lemma InsertTags(sh: Shared, t: Tid, r: Local, c: Choice)
    ensures NoNewTags(sh, ExecInsert(sh, t, r, c).0) && NoNewRemovals(sh, ExecInsert(sh, t, r, c).0)
  {
    hide ExecLink;
    if r.newNode.Some? && r.newNode.value < |sh.heap| && !r.pc.Create? {
      LevelTags(sh, r, r.newNode.value);
      hide NoNewTags, NoNewRemovals;
    }
  }

  lemma LevelTags(sh: Shared, r: Local, n: NodeId)
    requires n < |sh.heap|
    ensures var sh' := ExecLink(sh, r, n, sh.heap[n]).0; NoNewTags(sh, sh') && NoNewRemovals(sh, sh')
  {
    hide InsertAfter, Search;
  }

  lemma CallTags(sh: Shared, r: Local, c: Choice)
    ensures NoNewTags(sh, ExecCall(sh, r, c).0) && NoNewRemovals(sh, ExecCall(sh, r, c).0)
  {
  }

  lemma RemoveTags(sh: Shared, t: Tid, r: Local, n: NodeId, i: nat)
    requires SharedInv(sh) && RemovalInv(sh, t, r) && n < |sh.heap| && i < |sh.heap[n].levels|
    requires InRemoval(r.pc) && !InUnlink(r.pc)
    ensures var sh' := ExecRemove(sh, t, r).0;
            && |sh'.heap| == |sh.heap| && n < |sh'.shadow|
            && (!Tagged(sh, n, i) && Tagged(sh', n, i) ==> sh.shadow[n].winner == Some(t))
            && (!sh.heap[n].removed && sh'.heap[n].removed ==> sh'.shadow[n].winner == Some(t))
  {
    hide NodeOk, ChainOk, Sorted, LenOk, LogsOk, Building, AfterTagged, AfterLost;
  }

  /** Only the thread whose compare-exchange set the removed bit ever tags a word of the node. */
  lemma OnlyRemoverTags(s: State, s': State, t: Tid, c: Choice, n: NodeId, i: nat)
    requires Inv(s) && Steps(s, s', t, c) && n < |s.sh.heap| && i < |s.sh.heap[n].levels|
    ensures n < |s.sh.shadow| && n < |s'.sh.shadow| && n < |s'.sh.heap|
    ensures !Tagged(s.sh, n, i) && Tagged(s'.sh, n, i) ==> s.sh.shadow[n].winner == Some(t)
    ensures !s.sh.heap[n].removed && s'.sh.heap[n].removed ==> s'.sh.shadow[n].winner == Some(t)
    ensures s.sh.shadow[n].winner.Some? ==> s'.sh.shadow[n].winner == s.sh.shadow[n].winner
  {
    hide SharedInv, RegsOk, FindInv, RemovalInv, InsertInv, CallInv, Mono, Kept, Tagged, ExecFind, ExecRemove, ExecUnlink, ExecInsert, ExecCall;
    var r := s.th[t];
    assert LocalInv(s.sh, t, r);
    StepKeeps(s.sh, t, r, c);
    NodeKept(s.sh, s'.sh, n);
    if InFind(r.pc) { FindTags(s.sh, t, r, c); }
    else if InUnlink(r.pc) { UnlinkTags(s.sh, t, r); }
    else if InRemoval(r.pc) { RemoveTags(s.sh, t, r, n, i); }
    else if InInsert(r.pc) { InsertTags(s.sh, t, r, c); }
    else { CallTags(s.sh, r, c); }
  }

  lemma NodeKept(sh: Shared, sh': Shared, n: NodeId)
    requires Mono(sh, sh') && n < |sh.heap|
    ensures MonoNode(sh, sh', n)
  {
  }

  // ------------------------------------------------------------------ handing nodes out

  /** Over a whole run no node is handed out twice as removed or replaced, and every one handed out is removed. */
  lemma HandedOnce(tr: seq<State>, k: nat)
    requires Run(tr) && k < |tr|
    ensures NoDup(tr[k].sh.handed)
    ensures forall n :: n in tr[k].sh.handed ==> n < |tr[k].sh.heap| && tr[k].sh.heap[n].removed
  {
    hide Run, LocalInv, Sorted, LenOk, ChainOk;
    RunInv(tr, k);
    forall n | n in tr[k].sh.handed ensures n < |tr[k].sh.heap| && tr[k].sh.heap[n].removed {
      assert NodeOk(tr[k].sh, n);
    }
  }

  /** An operation called with a key answers with a node of that key, which the caller may then use. */
  lemma AnswersItsKey(tr: seq<State>, k: nat, t: Tid)
    requires Run(tr) && k < |tr| && t < |tr[k].th|
    requires tr[k].th[t].pc.Ret? && tr[k].th[t].pc.answer.Some? && Keyed(tr[k].th[t].caller)
    ensures var n := tr[k].th[t].pc.answer.value;
            n < |tr[k].sh.heap| && tr[k].sh.heap[n].key == tr[k].th[t].key
  {
    hide Run, SharedInv, RegsOk;
    RunInv(tr, k);
    assert LocalInv(tr[k].sh, t, tr[k].th[t]);
  }

  // ------------------------------------------------------------------ len

  /** The nodes a search may answer with: on the bottom chain and not removed. */
  ghost function Live(sh: Shared): set<NodeId> {
    set n | n in Chain(sh, 0) && n != HEAD && n < |sh.heap| && !sh.heap[n].removed
  }

  lemma SubsetSize<T>(a: set<T>, b: set<T>)
    requires a <= b
    ensures |a| <= |b|
  {
    assert b == a + (b - a);
  }

  /** `len` never underflows and counts every live node, so an empty-looking list has none. */
  lemma LenCovers(tr: seq<State>, k: nat)
    requires Run(tr) && k < |tr|
    ensures |Live(tr[k].sh)| <= tr[k].sh.len
    ensures tr[k].sh.len < 1 ==> Live(tr[k].sh) == {}
  {
    hide Run, LocalInv, Sorted;
    RunInv(tr, k);
    var sh := tr[k].sh;
    forall n | n in Live(sh) ensures n in sh.counted {
      assert NodeOk(sh, n);
      assert ChainOk(sh, 0);
      assert OnChain(sh, n, 0);
      assert Visited(sh, n, 0);
    }
    SubsetSize(Live(sh), sh.counted);
  }
}
