/**
  The lock-free list as an atomic map: which steps change the chains, which change the abstract map, and
  when the answers of the operations were true.
 */
module SyncRefine {
  import opened Common
  import opened SyncState
  import opened SyncExec
  import opened SyncInv
  import opened SyncActions
  import opened SyncSteps
  import opened SyncStart
  import opened SyncTheorems

  // ------------------------------------------------------------------ what happens to a chain

  /** Level i of n has just been published behind p: n was never on this chain. */
  ghost predicate Spliced(sh: Shared, sh': Shared, i: nat, p: NodeId, n: NodeId) {
    && p in Chain(sh, i) && n !in Chain(sh, i) && !EverLinked(sh, n, i) && !Tagged(sh, p, i)
    && Chain(sh', i) == InsertAfter(Chain(sh, i), p, n)
  }

  /** n, tagged at level i, has just been dropped. */
  ghost predicate Dropped(sh: Shared, sh': Shared, i: nat, n: NodeId) {
    && n in Chain(sh, i) && n != HEAD && Tagged(sh, n, i)
    && Chain(sh', i) == DropFrom(Chain(sh, i), n)
  }

  /** The three compare-exchanges on a predecessor's word. */
  predicate Splices(pc: Pc) {
    pc.FCas? || pc.UCas? || pc.LCas?
  }

  lemma FindQuiet(sh: Shared, t: Tid, r: Local, c: Choice)
    requires !r.pc.FCas?
    ensures ExecFind(sh, t, r, c).0.chain == sh.chain
  {
    hide Decide, Examine, AfterFind;
  }

  lemma OtherQuiet(sh: Shared, t: Tid, r: Local, c: Choice)
    ensures !r.pc.UCas? ==> ExecUnlink(sh, t, r).0.chain == sh.chain
    ensures ExecRemove(sh, t, r).0.chain == sh.chain
    ensures ExecCall(sh, r, c).0.chain == sh.chain
  {
    hide ExecInsert, AfterUnlink, NextUnlink, AfterTagged, AfterLost, Invoke;
  }

  lemma InsertQuiet(sh: Shared, t: Tid, r: Local, c: Choice)
    requires !r.pc.LCas?
    ensures ExecInsert(sh, t, r, c).0.chain == sh.chain
  {
  }

  /** Only those three change a chain. */
  lemma QuietSteps(sh: Shared, t: Tid, r: Local, c: Choice)
    requires !Splices(r.pc)
    ensures Exec(sh, t, r, c).0.chain == sh.chain
  {
    hide ExecFind, ExecRemove, ExecUnlink, ExecInsert, ExecCall;
    if InFind(r.pc) { FindQuiet(sh, t, r, c); } else if InInsert(r.pc) { InsertQuiet(sh, t, r, c); } else { OtherQuiet(sh, t, r, c); }
  }

  /** What a compare-exchange that drops n does. */
  lemma DropShape(sh: Shared, t: Tid, p: NodeId, n: NodeId, nn: Ptr, i: nat)
    requires SharedInv(sh) && i < HEIGHT && EverLinked(sh, p, i) && sh.heap[p].levels[i] == Word(Some(n), false)
    requires n != HEAD && Tagged(sh, n, i)
    ensures Dropped(sh, ActUnlink(sh, t, p, n, nn, i), i, n)
    ensures forall q :: q != i ==> Chain(ActUnlink(sh, t, p, n, nn, i), q) == Chain(sh, q)
  {
    hide NodeOk, Sorted, LenOk, LogsOk;
    var j := StillLinked(sh, p, i);
    assert sh.chain[i][j + 1] == n;
  }

  lemma SpliceShape(sh: Shared, t: Tid, p: NodeId, n: NodeId, i: nat)
    requires SharedInv(sh) && i < HEIGHT && EverLinked(sh, p, i) && !sh.heap[p].levels[i].tag
    requires Building(sh, t, n, i, Reserved) && i < sh.heap[n].height
    ensures Spliced(sh, ActLink(sh, p, n, i), i, p, n)
    ensures forall q :: q != i ==> Chain(ActLink(sh, p, n, i), q) == Chain(sh, q)
  {
    hide NodeOk, Sorted, LenOk, LogsOk;
    var j := StillLinked(sh, p, i);
    assert ChainOk(sh, i);
    assert !OnChain(sh, n, i);
  }

  /** The effect of one step on the chains, by the compare-exchange that it performs. */
  ghost predicate ChainEffect(sh: Shared, t: Tid, r: Local, sh': Shared) {
    || sh'.chain == sh.chain
    || (r.pc.FCas? && Dropped(sh, sh', r.pc.lv, r.pc.next) && forall q :: q != r.pc.lv ==> Chain(sh', q) == Chain(sh, q))
    || (r.pc.UCas? && Dropped(sh, sh', r.pc.lv, r.target) && forall q :: q != r.pc.lv ==> Chain(sh', q) == Chain(sh, q))
    || (r.pc.LCas? && r.newNode.Some? && r.start < |r.prev| && Spliced(sh, sh', r.start, r.prev[r.start].0, r.newNode.value)
        && forall q :: q != r.start ==> Chain(sh', q) == Chain(sh, q))
  }

  lemma FindEffect(sh: Shared, t: Tid, r: Local, c: Choice)
    requires SharedInv(sh) && r.pc.FCas? && FindInv(sh, t, r)
    ensures ChainEffect(sh, t, r, ExecFind(sh, t, r, c).0)
  {
    hide SharedInv, ActUnlink, Dropped;
    CasFacts(sh, t, r);
    WordThere(sh, r.pc.curr, r.pc.lv);
    if sh.heap[r.pc.curr].levels[r.pc.lv] == Word(Some(r.pc.next), false) {
      DropShape(sh, t, r.pc.curr, r.pc.next, r.pc.nn, r.pc.lv);
    }
  }

  lemma UnlinkEffect(sh: Shared, t: Tid, r: Local)
    requires SharedInv(sh) && r.pc.UCas? && RegsOk(sh, t, r) && RemovalInv(sh, t, r)
    ensures ChainEffect(sh, t, r, ExecUnlink(sh, t, r).0)
  {
    hide SharedInv, ActUnlink, Dropped, Building;
    var lv := r.pc.lv;
    TargetShape(sh, r.target);
    assert PrevOk(sh, r, lv);
    WordThere(sh, r.prev[lv].0, lv);
    assert Tagged(sh, r.target, lv);
    if sh.heap[r.prev[lv].0].levels[lv] == Word(Some(r.target), false) {
      DropShape(sh, t, r.prev[lv].0, r.target, r.pc.nn, lv);
    }
  }

  lemma LinkEffect(sh: Shared, t: Tid, r: Local, c: Choice)
    requires SharedInv(sh) && r.pc.LCas? && RegsOk(sh, t, r) && InsertInv(sh, t, r)
    ensures ChainEffect(sh, t, r, ExecInsert(sh, t, r, c).0)
  {
    hide SharedInv, ActLink, Spliced, Building;
    NewShape(sh, t, r, Reserved);
    assert PrevOk(sh, r, r.start);
    WordThere(sh, r.prev[r.start].0, r.start);
    if sh.heap[r.prev[r.start].0].levels[r.start] == Word(r.prev[r.start].1, false) {
      SpliceShape(sh, t, r.prev[r.start].0, r.newNode.value, r.start);
    }
  }

  /**
    Every step leaves all chains alone, or splices into one chain a node that was never on it, directly
    behind an untagged node, or drops from one chain one node that is tagged at that level.
   */
  lemma ChainStep(s: State, s': State, t: Tid, c: Choice)
    requires Inv(s) && Steps(s, s', t, c)
    ensures ChainEffect(s.sh, t, s.th[t], s'.sh)
  {
    hide SharedInv, RegsOk, FindInv, RemovalInv, InsertInv, CallInv, ExecFind, ExecRemove, ExecUnlink, ExecInsert, ExecCall;
    hide Dropped, Spliced, Chain;
    var r := s.th[t];
    assert LocalInv(s.sh, t, r);
    if r.pc.FCas? { FindEffect(s.sh, t, r, c); }
    else if r.pc.UCas? { UnlinkEffect(s.sh, t, r); }
    else if r.pc.LCas? { LinkEffect(s.sh, t, r, c); }
    else { QuietSteps(s.sh, t, r, c); }
  }

  // ------------------------------------------------------------------ what happens to the set of live nodes

  /** The only step that sets a removed bit is the compare-exchange of `set_removed`. */
  lemma RemovedChange(sh: Shared, t: Tid, r: Local, c: Choice)
    requires SharedInv(sh) && LocalInv(sh, t, r)
    ensures var sh' := Exec(sh, t, r, c).0;
            || NoNewRemovals(sh, sh')
            || (r.pc.SCas? && !sh.heap[r.target].removed && sh' == ActRemove(sh, t, r.target))
  {
    hide SharedInv, RegsOk, FindInv, InsertInv, CallInv, ExecFind, ExecUnlink, ExecInsert, ExecCall, Building;
    if InFind(r.pc) { FindTags(sh, t, r, c); }
    else if InUnlink(r.pc) { UnlinkTags(sh, t, r); }
    else if InRemoval(r.pc) { }
    else if InInsert(r.pc) { InsertTags(sh, t, r, c); }
    else { CallTags(sh, r, c); }
  }

  lemma LiveFacts(sh: Shared, n: NodeId)
    requires SharedInv(sh) && n < |sh.heap| && n != HEAD
    ensures Visited(sh, n, 0) && !sh.heap[n].removed ==> n in Live(sh)
    ensures n in Live(sh) ==> Visited(sh, n, 0) && !sh.heap[n].removed && n in Chain(sh, 0)
  {
    assert NodeOk(sh, n);
    assert ChainOk(sh, 0);
    assert OnChain(sh, n, 0) <==> n in sh.chain[0];
  }

  /** Two live nodes with the same key are the same node. */
  lemma LiveUnique(sh: Shared, m: NodeId, n: NodeId)
    requires SharedInv(sh) && m in Live(sh) && n in Live(sh) && sh.heap[m].key == sh.heap[n].key
    ensures m == n
  {
    hide NodeOk, LenOk, LogsOk;
    var c := sh.chain[0];
    assert ChainOk(sh, 0);
    var a :| 0 <= a < |c| && c[a] == m;
    var b :| 0 <= b < |c| && c[b] == n;
  }

  /** The set of live nodes loses nothing but the node just removed, and gains nothing but the node just linked. */
  ghost predicate LiveEffect(sh: Shared, r: Local, sh': Shared) {
    || Live(sh') == Live(sh)
    || (r.pc.SCas? && r.target in Live(sh) && Live(sh') == Live(sh) - {r.target})
    || (r.pc.LCas? && r.start == 0 && r.newNode.Some? && r.newNode.value !in Live(sh)
        && Live(sh') == Live(sh) + {r.newNode.value})
  }

  lemma LiveSame(sh: Shared, sh': Shared)
    requires SharedInv(sh) && SharedInv(sh') && Mono(sh, sh') && NoNewRemovals(sh, sh')
    requires forall n: NodeId :: n in Chain(sh', 0) && n !in Chain(sh, 0) ==> n >= |sh'.heap| || sh'.heap[n].removed
    requires forall n: NodeId :: n in Chain(sh, 0) && n !in Chain(sh', 0) ==> n >= |sh.heap| || sh.heap[n].removed
    ensures Live(sh') == Live(sh)
  {
    hide SharedInv;
    forall n: NodeId ensures n in Live(sh') <==> n in Live(sh) {
      if n < |sh.heap| { assert MonoNode(sh, sh', n); }
      if n in Live(sh') && n >= |sh.heap| { ChainInRange(sh, n); }
    }
  }

  lemma ChainInRange(sh: Shared, n: NodeId)
    requires SharedInv(sh) && n in Chain(sh, 0)
    ensures n < |sh.heap|
  {
    hide NodeOk, LenOk, LogsOk;
    assert ChainOk(sh, 0);
    var k :| 0 <= k < |sh.chain[0]| && sh.chain[0][k] == n;
    assert PtrIs(sh, sh.chain[0][k], 0, After(sh.chain[0], k));
  }

  lemma {:induction false} DropMembers(c: seq<NodeId>, n: NodeId, m: NodeId)
    ensures m in DropFrom(c, n) ==> m in c
    ensures m in c && m != n ==> m in DropFrom(c, n)
  {
    if c != [] {
      assert c == [c[0]] + c[1..];
      DropMembers(c[1..], n, m);
    }
  }

  lemma {:induction false} InsertMembers(c: seq<NodeId>, p: NodeId, n: NodeId, m: NodeId)
    requires p in c
    ensures m in InsertAfter(c, p, n) <==> m in c || m == n
  {
    assert c == [c[0]] + c[1..];
    if c[0] != p { InsertMembers(c[1..], p, n, m); }
  }

  lemma DropLive(sh: Shared, sh': Shared, i: nat, n: NodeId)
    requires SharedInv(sh) && SharedInv(sh') && Mono(sh, sh') && NoNewRemovals(sh, sh') && i < HEIGHT
    requires Dropped(sh, sh', i, n) && forall q :: q != i ==> Chain(sh', q) == Chain(sh, q)
    ensures Live(sh') == Live(sh)
  {
    hide Mono, NoNewRemovals, ChainOk, Sorted, LenOk, LogsOk;
    if i == 0 {
      forall m: NodeId ensures (m in Chain(sh', 0) ==> m in Chain(sh, 0)) && (m in Chain(sh, 0) && m != n ==> m in Chain(sh', 0)) {
        DropMembers(Chain(sh, 0), n, m);
      }
      assert NodeOk(sh, n);
    }
    LiveSame(sh, sh');
  }

  lemma SpliceLive(sh: Shared, t: Tid, r: Local, sh': Shared)
    requires SharedInv(sh) && SharedInv(sh') && Mono(sh, sh') && NoNewRemovals(sh, sh')
    requires r.pc.LCas? && InsertInv(sh, t, r) && r.start < |r.prev|
    requires Spliced(sh, sh', r.start, r.prev[r.start].0, r.newNode.value)
    requires forall q :: q != r.start ==> Chain(sh', q) == Chain(sh, q)
    ensures LiveEffect(sh, r, sh')
  {
    hide SharedInv, Building;
    if r.start == 0 {
      var n := r.newNode.value;
      NewShape(sh, t, r, Reserved);
      NotYetRemoved(sh, t, n, Reserved);
      assert MonoNode(sh, sh', n);
      assert !sh'.heap[n].removed;
      forall m: NodeId ensures m in Live(sh') <==> m in Live(sh) || m == n {
        InsertMembers(Chain(sh, 0), r.prev[0].0, n, m);
        if m < |sh.heap| { assert MonoNode(sh, sh', m); }
        if m in Chain(sh, 0) { ChainInRange(sh, m); }
      }
      assert n !in Live(sh);
    } else {
      LiveSame(sh, sh');
    }
  }

  lemma RemoveLive(sh: Shared, t: Tid, n: NodeId)
    requires SharedInv(sh) && Visited(sh, n, 0) && !sh.heap[n].removed
    ensures n in Live(sh) && Live(ActRemove(sh, t, n)) == Live(sh) - {n}
  {
    LiveFacts(sh, n);
  }

  /** Every step: the live nodes are the same, or one was removed, or one was linked at the bottom. */
  lemma LiveStep(s: State, s': State, t: Tid, c: Choice)
    requires Inv(s) && Steps(s, s', t, c)
    ensures LiveEffect(s.sh, s.th[t], s'.sh)
  {
    hide SharedInv, RegsOk, FindInv, InsertInv, CallInv, RemovalInv, Exec, Mono, Kept, NoNewRemovals, Spliced, Dropped, Live, ActRemove;
    hide Chain;
    var r := s.th[t];
    assert LocalInv(s.sh, t, r);
    StepKeeps(s.sh, t, r, c);
    ChainStep(s, s', t, c);
    RemovedChange(s.sh, t, r, c);
    if r.pc.SCas? { TargetVisited(s.sh, t, r); }
    if r.pc.SCas? && !s.sh.heap[r.target].removed && s'.sh == ActRemove(s.sh, t, r.target) {
      RemoveLive(s.sh, t, r.target);
    } else if s'.sh.chain == s.sh.chain {
      SameChain(s.sh, s'.sh);
      LiveSame(s.sh, s'.sh);
    } else if r.pc.FCas? {
      CasFacts(s.sh, t, r);
      DropLive(s.sh, s'.sh, r.pc.lv, r.pc.next);
    } else if r.pc.UCas? {
      LevelInRange(s.sh, t, r);
      DropLive(s.sh, s'.sh, r.pc.lv, r.target);
    } else {
      SpliceLive(s.sh, t, r, s'.sh);
    }
  }

  lemma SameChain(sh: Shared, sh': Shared)
    requires sh'.chain == sh.chain
    ensures Chain(sh', 0) == Chain(sh, 0)
  {
  }

  lemma TargetVisited(sh: Shared, t: Tid, r: Local)
    requires r.pc.SCas? && RemovalInv(sh, t, r)
    ensures Visited(sh, r.target, 0)
  {
  }

  lemma LevelInRange(sh: Shared, t: Tid, r: Local)
    requires SharedInv(sh) && r.pc.UCas? && RemovalInv(sh, t, r)
    ensures r.pc.lv < HEIGHT
  {
    hide SharedInv;
    TargetShape(sh, r.target);
  }

  // ------------------------------------------------------------------ the abstract map

  ghost function KeysOf(sh: Shared): set<int> {
    set n | n in Live(sh) :: sh.heap[n].key
  }

  /** The live node with key k. */
  ghost function NodeOf(sh: Shared, k: int): (n: NodeId)
    requires k in KeysOf(sh)
    ensures n in Live(sh) && sh.heap[n].key == k
  {
    var n :| n in Live(sh) && sh.heap[n].key == k; n
  }

  /** The map that the list represents: the keys and values of its live nodes. */
  ghost function Abs(sh: Shared): map<int, int> {
    map k | k in KeysOf(sh) :: sh.heap[NodeOf(sh, k)].val
  }

  lemma AbsAt(sh: Shared, n: NodeId)
    requires SharedInv(sh) && n in Live(sh)
    ensures sh.heap[n].key in Abs(sh) && Abs(sh)[sh.heap[n].key] == sh.heap[n].val
  {
    hide SharedInv;
    var k := sh.heap[n].key;
    assert k in KeysOf(sh);
    LiveUnique(sh, n, NodeOf(sh, k));
  }

  lemma AbsHas(sh: Shared, k: int) returns (n: NodeId)
    requires k in Abs(sh)
    ensures n in Live(sh) && sh.heap[n].key == k && Abs(sh)[k] == sh.heap[n].val
  {
    n := NodeOf(sh, k);
  }

  /** Nodes that stay live keep their keys and values. */
  lemma AbsKeeps(sh: Shared, sh': Shared, k: int)
    requires SharedInv(sh) && SharedInv(sh') && Mono(sh, sh')
    requires k in Abs(sh) && NodeOf(sh, k) in Live(sh')
    ensures k in Abs(sh') && Abs(sh')[k] == Abs(sh)[k]
  {
    hide SharedInv, Mono;
    var n := AbsHas(sh, k);
    LiveUnique(sh, n, NodeOf(sh, k));
    NodeKept(sh, sh', n);
    AbsAt(sh', n);
  }

  lemma AbsEqual(sh: Shared, sh': Shared)
    requires SharedInv(sh) && SharedInv(sh') && Mono(sh, sh') && Live(sh') == Live(sh)
    ensures Abs(sh') == Abs(sh)
  {
    hide SharedInv, Mono, Live;
    forall k | k in Abs(sh) ensures k in Abs(sh') && Abs(sh')[k] == Abs(sh)[k] { AbsKeeps(sh, sh', k); }
    forall k | k in Abs(sh') ensures k in Abs(sh) {
      var n := AbsHas(sh', k);
      InRange(sh, n);
      NodeKept(sh, sh', n);
      AbsAt(sh, n);
    }
  }

  lemma InRange(sh: Shared, n: NodeId)
    requires n in Live(sh)
    ensures n < |sh.heap|
  {
  }

  lemma AbsRemove(sh: Shared, sh': Shared, n: NodeId)
    requires SharedInv(sh) && SharedInv(sh') && Mono(sh, sh') && n in Live(sh) && Live(sh') == Live(sh) - {n}
    ensures sh.heap[n].key in Abs(sh) && Abs(sh') == Abs(sh) - {sh.heap[n].key}
  {
    hide SharedInv, Mono, Live;
    InRange(sh, n);
    AbsAt(sh, n);
    var key := sh.heap[n].key;
    forall k | k in Abs(sh) && k != key ensures k in Abs(sh') && Abs(sh')[k] == Abs(sh)[k] {
      AbsKeeps(sh, sh', k);
    }
    forall k | k in Abs(sh') ensures k in Abs(sh) && k != key {
      var m := AbsHas(sh', k);
      InRange(sh, m);
      NodeKept(sh, sh', m);
      AbsAt(sh, m);
      if k == key { LiveUnique(sh, m, n); }
    }
  }

  lemma AbsInsert(sh: Shared, sh': Shared, n: NodeId)
    requires SharedInv(sh) && SharedInv(sh') && Mono(sh, sh') && n !in Live(sh) && Live(sh') == Live(sh) + {n}
    requires n < |sh.heap|
    ensures sh.heap[n].key !in Abs(sh) && Abs(sh') == Abs(sh)[sh.heap[n].key := sh.heap[n].val]
  {
    hide SharedInv, Mono, Live;
    var key := sh.heap[n].key;
    NodeKept(sh, sh', n);
    AbsAt(sh', n);
    if key in Abs(sh) {
      var m := AbsHas(sh, key);
      InRange(sh, m);
      NodeKept(sh, sh', m);
      LiveUnique(sh', m, n);
    }
    forall k | k in Abs(sh) ensures k in Abs(sh') && Abs(sh')[k] == Abs(sh)[k] { AbsKeeps(sh, sh', k); }
    forall k | k in Abs(sh') && k != key ensures k in Abs(sh) {
      var m := AbsHas(sh', k);
      assert m != n;
      InRange(sh, m);
      NodeKept(sh, sh', m);
      AbsAt(sh, m);
    }
  }

  /**
    The list is an atomic map. A step leaves the map alone, or removes the key of the node whose removed
    bit it sets, which was in the map, or, linking the new node of an `insert` at the bottom, adds exactly
    the key and value of that call, and the key was not in the map before.
   */
  lemma MapStep(s: State, s': State, t: Tid, c: Choice)
    requires Inv(s) && Steps(s, s', t, c)
    ensures var r := s.th[t];
            || Abs(s'.sh) == Abs(s.sh)
            || (r.pc.SCas? && r.target < |s.sh.heap| && s.sh.heap[r.target].key in Abs(s.sh)
                && (Keyed(r.caller) ==> s.sh.heap[r.target].key == r.key)
                && Abs(s'.sh) == Abs(s.sh) - {s.sh.heap[r.target].key})
            || (r.pc.LCas? && r.start == 0 && r.key !in Abs(s.sh) && Abs(s'.sh) == Abs(s.sh)[r.key := r.val])
  {
    hide SharedInv, RegsOk, FindInv, CallInv, Exec, Mono, Kept, Live, Abs, NewOk, Building;
    var r := s.th[t];
    assert LocalInv(s.sh, t, r);
    StepKeeps(s.sh, t, r, c);
    LiveStep(s, s', t, c);
    if Live(s'.sh) == Live(s.sh) {
      AbsEqual(s.sh, s'.sh);
    } else if r.pc.SCas? {
      AbsRemove(s.sh, s'.sh, r.target);
    } else {
      NewShape(s.sh, t, r, Reserved);
      AbsInsert(s.sh, s'.sh, r.newNode.value);
    }
  }

  // ------------------------------------------------------------------ when answers were true

  /** `find` reads the removed bit of n as clear: at that instant n is live and has the key looked for. */
  lemma CheckIsTrue(s: State, t: Tid)
    requires Inv(s) && t < |s.th| && s.th[t].pc.FCheck?
    requires var n := s.th[t].pc.cand; n < |s.sh.heap| && s.sh.heap[n].key == s.th[t].key && !s.sh.heap[n].removed
    ensures s.th[t].pc.cand in Live(s.sh) && s.th[t].key in Abs(s.sh)
    ensures Abs(s.sh)[s.th[t].key] == s.sh.heap[s.th[t].pc.cand].val
  {
    hide SharedInv, RegsOk, Context, Live, Abs;
    var n := s.th[t].pc.cand;
    assert LocalInv(s.sh, t, s.th[t]);
    LiveFacts(s.sh, n);
    AbsAt(s.sh, n);
  }

  /** When `next_node` settles on a node because its word is untagged, the node is on the bottom chain. */
  lemma NextIsLinked(s: State, t: Tid, c: Choice)
    requires Inv(s) && t < |s.th| && s.th[t].pc.FTag? && s.th[t].caller == NextCall
    requires !Tagged(s.sh, s.th[t].pc.next, 0)
    ensures s.th[t].pc.next in Chain(s.sh, 0) && s.th[t].pc.next != HEAD
    ensures Exec(s.sh, t, s.th[t], c).1.pc == Ret(Some(s.th[t].pc.next))
  {
    hide NodeOk, Sorted, LenOk, LogsOk, RegsOk, Context;
    var r := s.th[t];
    assert LocalInv(s.sh, t, r);
    WordThere(s.sh, r.pc.next, 0);
    var j := StillLinked(s.sh, r.pc.next, 0);
  }

  /** A `get` about to answer with n has passed `FCheck` on n, and has not moved since. */
  ghost predicate Witness(tr: seq<State>, m: nat, e: nat, t: Tid) {
    && m < e < |tr| && t < |tr[m].th| && t < |tr[e].th|
    && tr[m].th[t].pc.FCheck? && tr[m].th[t].caller == Getter && tr[m].th[t].key == tr[e].th[t].key
    && tr[e].th[t].pc.Ret? && tr[e].th[t].pc.answer == Some(tr[m].th[t].pc.cand)
    && tr[m].th[t].pc.cand in Live(tr[m].sh)
    && tr[m].th[t].key in Abs(tr[m].sh)
    && Abs(tr[m].sh)[tr[m].th[t].key] == tr[m].sh.heap[tr[m].th[t].pc.cand].val
    && forall q :: m < q <= e ==> t < |tr[q].th| && tr[q].th[t] == tr[e].th[t]
  }

  ghost predicate FoundByGet(r: Local) {
    r.pc.Ret? && r.caller == Getter && r.pc.answer.Some?
  }

  lemma GetInFind(sh: Shared, t: Tid, r: Local, c: Choice)
    requires InFind(r.pc) && FoundByGet(ExecFind(sh, t, r, c).1)
    ensures r.pc.FCheck? && r.caller == Getter && r.pc.cand < |sh.heap|
    ensures sh.heap[r.pc.cand].key == r.key && !sh.heap[r.pc.cand].removed
    ensures ExecFind(sh, t, r, c).1 == r.(pc := Ret(Some(r.pc.cand)))
  {
    hide ActUnlink, ActSub, ActRetire;
  }

  lemma GetElsewhere(sh: Shared, t: Tid, r: Local, c: Choice)
    ensures RemovalInv(sh, t, r) ==> ExecRemove(sh, t, r).1.caller != Getter && ExecUnlink(sh, t, r).1.caller != Getter
    ensures InsertInv(sh, t, r) ==> ExecInsert(sh, t, r, c).1.caller != Getter
    ensures !r.pc.Ret? && CallInv(sh, t, r) ==> !FoundByGet(ExecCall(sh, r, c).1)
  {
    hide Building, Tagged, ActUnlink, ActSub, ActRetire, ActLink, ActReserve, ActUnreserve, ActRemove, ActTag, ActCreate;
  }

  /** Only `FCheck` sends a `get` to a non-empty answer. */
  lemma GetAnswers(sh: Shared, t: Tid, r: Local, c: Choice)
    requires LocalInv(sh, t, r) && !r.pc.Ret? && FoundByGet(Exec(sh, t, r, c).1)
    ensures r.pc.FCheck? && r.caller == Getter && r.pc.cand < |sh.heap|
    ensures sh.heap[r.pc.cand].key == r.key && !sh.heap[r.pc.cand].removed
    ensures Exec(sh, t, r, c).1 == r.(pc := Ret(Some(r.pc.cand)))
  {
    hide ExecFind, ExecRemove, ExecUnlink, ExecInsert, ExecCall, RegsOk, FindInv, RemovalInv, InsertInv, CallInv;
    GetElsewhere(sh, t, r, c);
    if InFind(r.pc) { GetInFind(sh, t, r, c); }
  }

  /** A thread waiting to return stays put until it returns. */
  lemma RetLeaves(sh: Shared, t: Tid, r: Local, c: Choice)
    requires r.pc.Ret?
    ensures Exec(sh, t, r, c).1 == IDLE.(pc := Done(r.pc.answer))
  {
    assert Exec(sh, t, r, c) == ExecCall(sh, r, c);
  }

  /** Every successful `get` is justified at an instant inside the call. */
  lemma {:induction false} GetJustified(tr: seq<State>, e: nat, t: Tid) returns (m: nat)
    requires Run(tr) && e < |tr| && t < |tr[e].th|
    requires tr[e].th[t].pc.Ret? && tr[e].th[t].caller == Getter && tr[e].th[t].pc.answer.Some?
    ensures Witness(tr, m, e, t)
    decreases e
  {
    hide SharedInv, LocalInv, Exec, Live, Abs, Built;
    if e == 0 { assert false; }
    RunInv(tr, e - 1);
    assert Next(tr[e - 1], tr[e]);
    var r' := tr[e].th[t];
    if t < |tr[e - 1].th| && tr[e - 1].th[t] == r' {
      m := GetJustified(tr, e - 1, t);
    } else {
      assert tr[e] != tr[e - 1].(th := tr[e - 1].th + [IDLE]);
      var u: Tid, c :| Steps(tr[e - 1], tr[e], u, c);
      assert u == t;
      var r := tr[e - 1].th[t];
      if r.pc.Ret? { RetLeaves(tr[e - 1].sh, t, r, c); assert false; }
      assert LocalInv(tr[e - 1].sh, t, r);
      GetAnswers(tr[e - 1].sh, t, r, c);
      CheckIsTrue(tr[e - 1], t);
      m := e - 1;
    }
  }
}
