/**
  What `insert` does not promise. At the bottom level `link_nodes` gives up when the successor recorded by
  the search is not beyond the new key, as happens when another thread has marked a node with that key as
  removed but has not tagged it yet. The node has been counted by then; it is never linked, and `len`
  exceeds the number of live nodes for ever after.
 */
module SyncLost {
  import opened Common
  import opened SyncState
  import opened SyncExec
  import opened SyncInv
  import opened SyncSteps
  import opened SyncStart
  import opened SyncTheorems
  import opened SyncRefine

  /** The recorded successor at the bottom stands in the way of the new key. */
  ghost predicate Blocked(sh: Shared, r: Local) {
    |r.prev| > 0 && r.prev[0].1.Some? && r.prev[0].1.value < |sh.heap| && sh.heap[r.prev[0].1.value].key <= r.key
  }

  /** At the bottom `link_nodes` takes the way out exactly when it is blocked, and then it ends unlinked. */
  lemma GivesUp(s: State, s': State, t: Tid, c: Choice)
    requires Inv(s) && Steps(s, s', t, c) && s.th[t].start == 0 && (s.th[t].pc.LRemoved? || s.th[t].pc.LGuard?)
    ensures s.th[t].pc.LRemoved? ==> (s'.th[t].pc.LGuard? <==> Blocked(s.sh, s.th[t]))
    ensures s.th[t].pc.LRemoved? ==> (s'.th[t].pc.LOwn? <==> !Blocked(s.sh, s.th[t]))
    ensures s.th[t].pc.LGuard? ==> s'.th[t].pc.LEnd?
  {
    hide SharedInv, PrevOk, Tagged;
    var r := s.th[t];
    assert LocalInv(s.sh, t, r);
    NewShape(s.sh, t, r, Fresh);
    NotYetRemoved(s.sh, t, r.newNode.value, Fresh);
    if r.prev[0].1.Some? { assert PrevOk(s.sh, r, 0); SuccThere(s.sh, r); }
  }

  lemma SuccThere(sh: Shared, r: Local)
    requires PrevOk(sh, r, 0) && r.prev[0].1.Some?
    ensures r.prev[0].1.value < |sh.heap|
  {
  }

  /** n was counted by its insertion, was never linked, and its inserter is past linking it. */
  ghost predicate Orphan(s: State, n: NodeId) {
    && n < |s.sh.heap| && n < |s.sh.shadow| && n != HEAD && n in s.sh.counted && !EverLinked(s.sh, n, 0)
    && Past(s, s.sh.shadow[n].owner, n)
  }

  ghost predicate Past(s: State, o: Tid, n: NodeId) {
    o < |s.th| && (s.th[o].newNode == Some(n) ==> s.th[o].pc.LEnd? || s.th[o].pc.Ret?)
  }

  /** The new node of a thread stays the same, is forgotten, or is a node that did not exist before. */
  lemma NewNodeStep(sh: Shared, t: Tid, r: Local, c: Choice)
    ensures var r' := Exec(sh, t, r, c).1; r'.newNode == r.newNode || r'.newNode == None || r'.newNode == Some(|sh.heap|)
  {
    hide ExecFind, ExecRemove, ExecUnlink;
    assert ExecFind(sh, t, r, c).1.newNode == r.newNode || ExecFind(sh, t, r, c).1.newNode == None by { FindNew(sh, t, r, c); }
    assert ExecRemove(sh, t, r).1.newNode == r.newNode && ExecUnlink(sh, t, r).1.newNode == r.newNode by { RemovalNew(sh, t, r); }
  }

  lemma FindNew(sh: Shared, t: Tid, r: Local, c: Choice)
    ensures ExecFind(sh, t, r, c).1.newNode == r.newNode || ExecFind(sh, t, r, c).1.newNode == None
  {
    hide ActUnlink, ActSub, ActRetire;
  }

  lemma RemovalNew(sh: Shared, t: Tid, r: Local)
    ensures ExecRemove(sh, t, r).1.newNode == r.newNode && ExecUnlink(sh, t, r).1.newNode == r.newNode
  {
    hide ActUnlink, ActSub, ActRetire, ActTag, ActRemove;
  }

  /** Only the last act of `unlink` takes a node out of the count. */
  lemma CountedStep(sh: Shared, t: Tid, r: Local, c: Choice, n: NodeId)
    requires n in sh.counted
    ensures n in Exec(sh, t, r, c).0.counted || (r.pc.ULen? && r.target == n)
  {
    hide Decide, Examine, AfterFind, AfterLost, AfterTagged;
  }

  /** An orphan stays an orphan: nobody else may link it, and nobody can remove what was never linked. */
  lemma OrphanStep(s: State, s': State, t: Tid, c: Choice, n: NodeId)
    requires Inv(s) && Inv(s') && Steps(s, s', t, c) && Orphan(s, n)
    ensures Orphan(s', n)
  {
    hide SharedInv, RegsOk, FindInv, CallInv, InsertInv, RemovalInv, Exec, Mono, Kept, EverLinked, Live;
    var r, r' := s.th[t], s'.th[t];
    var o := s.sh.shadow[n].owner;
    assert LocalInv(s.sh, t, r);
    StepKeeps(s.sh, t, r, c);
    NodeKept(s.sh, s'.sh, n);
    CountedStep(s.sh, t, r, c, n);
    if r.pc.ULen? && InUnlink(r.pc) { UntiedLinked(s.sh, t, r); }
    if t == o { PastStep(s, s', o, c, n); }
    StaysUnlinked(s, s', t, c, n);
  }

  lemma UntiedLinked(sh: Shared, t: Tid, r: Local)
    requires RemovalInv(sh, t, r) && r.pc.ULen?
    ensures EverLinked(sh, r.target, 0)
  {
  }

  lemma OrphanRemoved(sh: Shared, n: NodeId)
    requires SharedInv(sh) && n < |sh.heap| && !EverLinked(sh, n, 0) && n != HEAD
    ensures !sh.heap[n].removed && n !in Live(sh)
  {
    assert NodeOk(sh, n);
    LiveFacts(sh, n);
  }

  lemma PastStep(s: State, s': State, t: Tid, c: Choice, n: NodeId)
    requires Inv(s) && Steps(s, s', t, c) && Orphan(s, n) && Past(s, t, n)
    ensures Past(s', t, n)
  {
    hide SharedInv, LocalInv, EverLinked, ExecFind, ExecRemove, ExecUnlink;
    NewNodeStep(s.sh, t, s.th[t], c);
    OrphanRemoved(s.sh, n);
  }

  lemma StaysUnlinked(s: State, s': State, t: Tid, c: Choice, n: NodeId)
    requires Inv(s) && Inv(s') && Steps(s, s', t, c) && Orphan(s, n)
    ensures !EverLinked(s'.sh, n, 0)
  {
    hide SharedInv, RegsOk, FindInv, CallInv, RemovalInv, Exec, Mono, Kept, Live, EverLinked, Building;
    var r := s.th[t];
    assert LocalInv(s.sh, t, r);
    StepKeeps(s.sh, t, r, c);
    NodeKept(s.sh, s'.sh, n);
    OrphanRemoved(s.sh, n);
    RemovedChange(s.sh, t, r, c);
    LiveStep(s, s', t, c);
    if r.pc.SCas? { TargetVisited(s.sh, t, r); VisitedHere(s.sh, r.target); }
    if EverLinked(s'.sh, n, 0) {
      LinkedLive(s.sh, s'.sh, t, r, n);
      if r.pc.LCas? && r.newNode == Some(n) { OwnerOf(s.sh, t, r); }
    }
  }

  lemma VisitedHere(sh: Shared, n: NodeId)
    requires Visited(sh, n, 0)
    ensures EverLinked(sh, n, 0)
  {
  }

  lemma LinkedLive(sh: Shared, sh': Shared, t: Tid, r: Local, n: NodeId)
    requires SharedInv(sh') && EverLinked(sh', n, 0) && n != HEAD && n < |sh'.heap| && n < |sh.heap| && !sh.heap[n].removed
    requires NoNewRemovals(sh, sh') || (r.target != n && r.target < |sh.heap| && sh' == ActRemove(sh, t, r.target))
    ensures n in Live(sh')
  {
    hide SharedInv, Live;
    LiveFacts(sh', n);
  }

  lemma OwnerOf(sh: Shared, t: Tid, r: Local)
    requires InsertInv(sh, t, r) && r.pc.LCas? && r.newNode.Some?
    ensures r.newNode.value < |sh.shadow| && sh.shadow[r.newNode.value].owner == t
  {
  }

  /** From the moment its insertion gives up at the bottom, a node stays unlinked and counted for the rest of the run. */
  lemma {:induction false} OrphanForever(tr: seq<State>, j: nat, k: nat, n: NodeId)
    requires Run(tr) && j <= k < |tr| && Orphan(tr[j], n)
    ensures Orphan(tr[k], n)
    decreases k - j
  {
    hide SharedInv, LocalInv, Exec, Initial, EverLinked;
    if j < k {
      OrphanForever(tr, j, k - 1, n);
      RunInv(tr, k - 1);
      RunInv(tr, k);
      assert Next(tr[k - 1], tr[k]);
      if tr[k] != tr[k - 1].(th := tr[k - 1].th + [IDLE]) {
        var t: Tid, c :| Steps(tr[k - 1], tr[k], t, c);
        OrphanStep(tr[k - 1], tr[k], t, c, n);
      }
    }
  }

  /** A thread that has reached the end of `link_nodes` at the bottom level has made its node an orphan. */
  lemma EndsOrphaned(s: State, s': State, t: Tid, c: Choice)
    requires Inv(s) && Steps(s, s', t, c) && s.th[t].pc.LGuard? && s.th[t].start == 0
    ensures s.th[t].newNode.Some? && Orphan(s', s.th[t].newNode.value)
  {
    hide SharedInv, PrevOk;
    var r := s.th[t];
    assert LocalInv(s.sh, t, r);
    NewShape(s.sh, t, r, Fresh);
    NotYetRemoved(s.sh, t, r.newNode.value, Fresh);
  }

  /** As long as there is an orphan, `len` is greater than the number of live nodes. */
  lemma LenExceeds(s: State, n: NodeId)
    requires Inv(s) && Orphan(s, n)
    ensures |Live(s.sh)| < s.sh.len
  {
    hide LocalInv, ChainOk, Sorted, LogsOk, NodeOk;
    OrphanRemoved(s.sh, n);
    forall m | m in Live(s.sh) ensures m in s.sh.counted - {n} { LiveVisited(s.sh, m); }
    SubsetSize(Live(s.sh), s.sh.counted - {n});
  }

  lemma LiveVisited(sh: Shared, m: NodeId)
    requires SharedInv(sh) && m in Live(sh)
    ensures Visited(sh, m, 0) && !sh.heap[m].removed
  {
    LiveFacts(sh, m);
  }

  /**
    An insertion that gives up at the bottom is lost, and `len` never recovers: in every later state of the run
    the node is on no chain and `len` exceeds the number of live nodes.
   */
  lemma LostInsert(tr: seq<State>, j: nat, k: nat, t: Tid, c: Choice, i: nat)
    requires Run(tr) && j < k < |tr| && Steps(tr[j], tr[j + 1], t, c)
    requires tr[j].th[t].pc.LGuard? && tr[j].th[t].start == 0
    ensures tr[j].th[t].newNode.Some? && tr[j].th[t].newNode.value !in Chain(tr[k].sh, i)
    ensures |Live(tr[k].sh)| < tr[k].sh.len
  {
    hide SharedInv, LocalInv, Exec, Initial, Next, Orphan, Live, Chain;
    RunInv(tr, j);
    RunInv(tr, k);
    EndsOrphaned(tr[j], tr[j + 1], t, c);
    var n := tr[j].th[t].newNode.value;
    OrphanForever(tr, j + 1, k, n);
    LenExceeds(tr[k], n);
    OffChains(tr[k], n, i);
  }

  lemma OffChains(s: State, n: NodeId, i: nat)
    requires Inv(s) && Orphan(s, n)
    ensures n !in Chain(s.sh, i)
  {
    hide LocalInv, Sorted, LenOk, LogsOk;
    if i < HEIGHT && n in Chain(s.sh, i) {
      assert ChainOk(s.sh, i);
      assert OnChain(s.sh, n, i);
      assert NodeOk(s.sh, n);
      Lower(s.sh, n, i, 0);
    }
  }
}
