/** Two runs of two threads: one in which an insertion is lost, and one in which a removal misses its key. */
module SyncWitness {
  import opened Common
  import opened Towers
  import opened SyncState
  import opened SyncExec
  import opened SyncStart
  import opened SyncInv
  import opened SyncTheorems
  import opened SyncRefine
  import opened SyncLost
  import opened SyncOutcomes

  // ------------------------------------------------------------------ building runs

  ghost predicate Reachable(s: State) {
    exists tr :: Run(tr) && tr[|tr| - 1] == s
  }

  lemma Extend(s: State, s': State)
    requires Reachable(s) && Next(s, s')
    ensures Reachable(s')
  {
    hide Next, Initial;
    var tr :| Run(tr) && tr[|tr| - 1] == s;
    var tr' := tr + [s'];
    forall k | 0 <= k < |tr'| - 1 ensures Next(tr'[k], tr'[k + 1]) {
      if k < |tr| - 1 { assert Next(tr[k], tr[k + 1]); }
    }
    assert Run(tr') && tr'[|tr'| - 1] == s';
  }

  /** A step of thread t, whose outcome is known. */
  lemma Go(s: State, t: Tid, c: Choice, sh: Shared, r: Local) returns (s': State)
    requires Reachable(s) && t < |s.th| && Exec(s.sh, t, s.th[t], c) == (sh, r)
    ensures Reachable(s') && Steps(s, s', t, c) && s' == State(sh, s.th[t := r])
  {
    hide Exec, Reachable;
    s' := State(sh, s.th[t := r]);
    assert Steps(s, s', t, c);
    Extend(s, s');
  }

  lemma Begin(ts: seq<Tower>) returns (s: State)
    requires Row(ts)
    ensures Reachable(s) && s == State(Built(ts), [IDLE, IDLE])
  {
    hide Reachable, Row, Built;
    var s0 := State(Built(ts), []);
    First(ts, s0);
    Extend(s0, State(Built(ts), [IDLE]));
    s := State(Built(ts), [IDLE, IDLE]);
    Extend(State(Built(ts), [IDLE]), s);
  }

  lemma First(ts: seq<Tower>, s: State)
    requires Row(ts) && s == State(Built(ts), [])
    ensures Reachable(s)
  {
    hide Row, Built;
    assert Run([s]);
  }

  lemma ReachableInv(s: State)
    requires Reachable(s)
    ensures Inv(s)
  {
    hide Initial, Next, Inv;
    var tr :| Run(tr) && tr[|tr| - 1] == s;
    RunInv(tr, |tr| - 1);
  }

  lemma TraceOf(s: State) returns (tr: seq<State>)
    requires Reachable(s)
    ensures Run(tr) && tr[|tr| - 1] == s
  {
    tr :| Run(tr) && tr[|tr| - 1] == s;
  }

  // ------------------------------------------------------------------ searching

  /** The registers r after `find` has read the words of the head from level i up. */
  ghost predicate HasRead(sh: Shared, r: Local, r': Local, i: nat) {
    && |r'.prev| == HEIGHT == |r.prev| && |sh.heap| > 0 && |sh.heap[0].levels| == HEIGHT
    && (forall j :: i <= j < HEIGHT ==> r'.prev[j] == (HEAD, sh.heap[0].levels[j].ptr))
    && r' == r.(pc := FStart, prev := r'.prev)
  }

  lemma {:induction false} ReadHead(s: State, t: Tid, c: Choice, i: nat) returns (s': State)
    requires Reachable(s) && t < |s.th| && s.th[t].pc == FInit(i) && i < HEIGHT && |s.th[t].prev| == HEIGHT
    requires |s.sh.heap| > 0 && |s.sh.heap[0].levels| == HEIGHT
    ensures Reachable(s') && t < |s'.th| && HasRead(s.sh, s.th[t], s'.th[t], i)
    ensures s'.sh == s.sh && s'.th == s.th[t := s'.th[t]]
    ensures forall j :: 0 <= j < i ==> s'.th[t].prev[j] == s.th[t].prev[j]
    decreases HEIGHT - i
  {
    hide Reachable;
    var r := ReadOne(s.sh, t, s.th[t], c);
    s' := Go(s, t, c, s.sh, r);
    if i + 1 < HEIGHT { s' := ReadHead(s', t, c, i + 1); }
  }

  lemma ReadOne(sh: Shared, t: Tid, r: Local, c: Choice) returns (r': Local)
    requires r.pc.FInit? && r.pc.i < HEIGHT == |r.prev| && |sh.heap| > 0 && |sh.heap[0].levels| == HEIGHT
    ensures Exec(sh, t, r, c) == (sh, r')
    ensures r' == r.(prev := r.prev[r.pc.i := (HEAD, sh.heap[0].levels[r.pc.i].ptr)],
                     pc := if r.pc.i + 1 < HEIGHT then FInit(r.pc.i + 1) else FStart)
  {
    r' := r.(prev := r.prev[r.pc.i := (HEAD, sh.heap[0].levels[r.pc.i].ptr)],
             pc := if r.pc.i + 1 < HEIGHT then FInit(r.pc.i + 1) else FStart);
  }

  /** The list with one node of key 5: whether it is removed, its height and count. */
  ghost predicate OneNode(sh: Shared, removed: bool, height: nat, refs: nat) {
    && |sh.heap| == 2 && |sh.heap[0].levels| == HEIGHT
    && (forall i :: 0 <= i < HEIGHT ==> sh.heap[0].levels[i] == Word(if i == 0 then Some(1) else None, false))
    && sh.heap[1] == Node(5, sh.heap[1].val, height, refs, removed, sh.heap[1].levels)
    && |sh.heap[1].levels| == height >= 1
    && forall i :: 0 <= i < height ==> sh.heap[1].levels[i] == Word(None, false)
  }

  /** From the start of a search for 5 at the bottom to the candidate that it finds. */
  lemma SeesNode(sh: Shared, t: Tid, r: Local, c: Choice, removed: bool, height: nat, refs: nat) returns (p: seq<(NodeId, Ptr)>)
    requires OneNode(sh, removed, height, refs) && r.pc == FStart && r.key == 5 && c.level == 0 && r.caller != NextCall && r.caller != ClosestCall
    requires |r.prev| == HEIGHT
    ensures |p| == HEIGHT && p == r.prev[0 := (HEAD, Some(1))]
    ensures Exec(sh, t, r, c) == (sh, r.(pc := FLoad(0, HEAD)))
    ensures Exec(sh, t, r.(pc := FLoad(0, HEAD)), c) == (sh, r.(pc := FTag(0, HEAD, 1)))
    ensures Exec(sh, t, r.(pc := FTag(0, HEAD, 1)), c) == (sh, r.(pc := FFinal, prev := p))
    ensures Exec(sh, t, r.(pc := FFinal, prev := p), c) == (sh, r.(pc := FCheck(1), prev := p))
  {
    hide ExecRemove, ExecUnlink, ExecInsert, ExecCall;
    p := r.prev[0 := (HEAD, Some(1))];
  }

  /** Starting at the bottom, a search for 5 meets the node at once. */
  lemma Searches(s: State, t: Tid, c: Choice, removed: bool, height: nat, refs: nat) returns (s': State)
    requires Reachable(s) && t < |s.th| && s.th[t].pc == FInit(0) && |s.th[t].prev| == HEIGHT && s.th[t].key == 5
    requires OneNode(s.sh, removed, height, refs) && c.level == 0 && s.th[t].caller != NextCall && s.th[t].caller != ClosestCall
    ensures Reachable(s') && s'.sh == s.sh && t < |s'.th| && |s'.th[t].prev| == HEIGHT && s'.th[t].prev[0] == (HEAD, Some(1))
    ensures s'.th == s.th[t := s.th[t].(pc := FCheck(1), prev := s'.th[t].prev)]
  {
    hide Reachable, Exec, Steps;
    s' := ReadHead(s, t, c, 0);
    var r := s'.th[t];
    var p := SeesNode(s.sh, t, r, c, removed, height, refs);
    hide OneNode;
    s' := Go(s', t, c, s.sh, r.(pc := FLoad(0, HEAD)));
    s' := Go(s', t, c, s.sh, r.(pc := FTag(0, HEAD, 1)));
    s' := Go(s', t, c, s.sh, r.(pc := FFinal, prev := p));
    s' := Go(s', t, c, s.sh, r.(pc := FCheck(1), prev := p));
  }

  // ------------------------------------------------------------------ single steps, computed

  lemma InvokeIs(sh: Shared, t: Tid, c: Choice)
    ensures Exec(sh, t, IDLE, c) == (sh, Invoke(sh, c.op))
  {
  }

  lemma CheckIs(sh: Shared, t: Tid, r: Local, c: Choice, removed: bool, height: nat, refs: nat)
    requires OneNode(sh, removed, height, refs) && r.pc == FCheck(1) && r.key == 5
    ensures r.caller == RemoveFirst && !removed ==> Exec(sh, t, r, c) == (sh, r.(target := 1, pc := SLoad))
    ensures r.caller == InsertFirst && removed ==> Exec(sh, t, r, c) == (sh, r.(pc := Create))
  {
  }

  lemma MarkIs(sh: Shared, t: Tid, r: Local, c: Choice, height: nat, refs: nat)
    requires OneNode(sh, false, height, refs) && r.target == 1
    ensures r.pc == SLoad ==> Exec(sh, t, r, c) == (sh, r.(pc := SCas(refs)))
    ensures r.pc == SCas(refs) ==> Exec(sh, t, r, c).0 == ActRemove(sh, t, 1)
  {
    hide ActRemove;
  }

  lemma MarkedNode(sh: Shared, t: Tid, height: nat, refs: nat)
    requires OneNode(sh, false, height, refs)
    ensures OneNode(ActRemove(sh, t, 1), true, height, refs)
  {
  }

  lemma CreateIs(sh: Shared, t: Tid, r: Local, c: Choice)
    requires r.pc == Create && 1 <= c.height <= HEIGHT
    ensures Exec(sh, t, r, c) == (ActCreate(sh, t, r.key, r.val, c.height), r.(newNode := Some(|sh.heap|), start := 0, pc := ILen))
  {
    hide ActCreate;
  }

  /** Thread t has called `remove(5)` and has read the packed word of the node. */
  lemma Aims(s: State, t: Tid, c: Choice, height: nat, refs: nat) returns (s': State)
    requires Reachable(s) && t < |s.th| && s.th[t] == IDLE && OneNode(s.sh, false, height, refs) && c.op == RemoveOp(5) && c.level == 0
    ensures Reachable(s') && s'.sh == s.sh && t < |s'.th| && s'.th == s.th[t := s'.th[t]]
    ensures s'.th[t].pc == SCas(refs) && s'.th[t].target == 1 && s'.th[t].caller == RemoveFirst && s'.th[t].key == 5
  {
    hide Reachable, Exec, OneNode, Steps;
    InvokeIs(s.sh, t, c);
    s' := Go(s, t, c, s.sh, Invoke(s.sh, c.op));
    s' := Searches(s', t, c, false, height, refs);
    var r := s'.th[t];
    CheckIs(s.sh, t, r, c, false, height, refs);
    s' := Go(s', t, c, s.sh, r.(target := 1, pc := SLoad));
    MarkIs(s.sh, t, r.(target := 1, pc := SLoad), c, height, refs);
    s' := Go(s', t, c, s.sh, r.(target := 1, pc := SCas(refs)));
  }

  // ------------------------------------------------------------------ a lost insertion

  /** The list with the removed node and the new node, unlinked. */
  ghost predicate TwoNodes(sh: Shared) {
    && |sh.heap| == 3 && sh.heap[1].key == 5 && sh.heap[1].removed
    && sh.heap[2].key == 5 && sh.heap[2].height == 1 && !sh.heap[2].removed && sh.heap[2].levels == [Word(None, false)]
  }

  lemma CreatedNode(sh: Shared, t: Tid)
    requires OneNode(sh, true, 1, 1)
    ensures |sh.heap| == 2 && TwoNodes(ActCreate(sh, t, 5, 7, 1))
  {
  }

  lemma LinkIs(sh: Shared, t: Tid, r: Local, c: Choice)
    requires TwoNodes(sh) && r.newNode == Some(2) && r.start == 0 && |r.prev| == HEIGHT && r.prev[0] == (HEAD, Some(1))
    ensures r.pc == ILen ==> TwoNodes(ActCount(sh, 2)) && Exec(sh, t, r, c) == (ActCount(sh, 2), r.(pc := LLoad))
    ensures r.pc == LLoad ==> Exec(sh, t, r, c) == (sh, r.(pc := LRemoved(None)))
    ensures r.pc == LRemoved(None) ==> Exec(sh, t, r, c) == (sh, r.(pc := LGuard(None)))
    ensures r.pc == LGuard(None) ==> Exec(sh, t, r, c) == (sh, r.(pc := LEnd))
    ensures r.pc == LEnd ==> Exec(sh, t, r, c) == (sh, r.(pc := Ret(r.existing)))
  {
  }

  /** Thread t inserts the key of the marked node, and comes to the guard of `link_nodes`. */
  lemma Loses(s: State, t: Tid, c: Choice) returns (s': State)
    requires Reachable(s) && t < |s.th| && s.th[t] == IDLE && OneNode(s.sh, true, 1, 1)
    requires c.op == InsertOp(5, 7) && c.level == 0 && c.height == 1
    ensures Reachable(s') && t < |s'.th| && s'.th[t].pc == LGuard(None) && s'.th[t].start == 0 && TwoNodes(s'.sh)
    ensures s'.th[t].key == 5 && s'.th[t].newNode == Some(2) && s'.th[t].existing == None && s'.th[t].caller == InsertFirst
    ensures |s'.th[t].prev| == HEIGHT && s'.th[t].prev[0] == (HEAD, Some(1))
  {
    hide Reachable, Exec, OneNode, TwoNodes, ActCreate, ActCount, Steps;
    InvokeIs(s.sh, t, c);
    s' := Go(s, t, c, s.sh, Invoke(s.sh, c.op));
    s' := Searches(s', t, c, true, 1, 1);
    CheckIs(s.sh, t, s'.th[t], c, true, 1, 1);
    s' := Go(s', t, c, s.sh, s'.th[t].(pc := Create));
    CreateIs(s.sh, t, s'.th[t], c);
    CreatedNode(s.sh, t);
    var sh := ActCreate(s.sh, t, 5, 7, 1);
    s' := Go(s', t, c, sh, s'.th[t].(newNode := Some(2), start := 0, pc := ILen));
    LinkIs(sh, t, s'.th[t], c);
    s' := Go(s', t, c, ActCount(sh, 2), s'.th[t].(pc := LLoad));
    LinkIs(s'.sh, t, s'.th[t], c);
    s' := Go(s', t, c, s'.sh, s'.th[t].(pc := LRemoved(None)));
    LinkIs(s'.sh, t, s'.th[t], c);
    s' := Go(s', t, c, s'.sh, s'.th[t].(pc := LGuard(None)));
  }

  /** It goes on to its return, and its node is an orphan. */
  lemma ReturnsLost(s: State, t: Tid, c: Choice) returns (s': State)
    requires Reachable(s) && t < |s.th| && s.th[t].pc == LGuard(None) && s.th[t].start == 0 && TwoNodes(s.sh)
    requires s.th[t].newNode == Some(2) && |s.th[t].prev| == HEIGHT && s.th[t].prev[0] == (HEAD, Some(1))
    ensures Reachable(s') && s'.sh == s.sh && t < |s'.th| && s'.th[t] == s.th[t].(pc := Ret(s.th[t].existing)) && Orphan(s', 2)
  {
    hide Reachable, Exec, TwoNodes, Steps, Orphan, Inv;
    var r := s.th[t];
    LinkIs(s.sh, t, r, c);
    s' := Go(s, t, c, s.sh, r.(pc := LEnd));
    ReachableInv(s);
    ReachableInv(s');
    EndsOrphaned(s, s', t, c);
    LinkIs(s.sh, t, r.(pc := LEnd), c);
    var s2 := Go(s', t, c, s.sh, r.(pc := Ret(r.existing)));
    ReachableInv(s2);
    OrphanStep(s', s2, t, c, 2);
    s' := s2;
  }

  lemma BuiltOne()
    ensures Row([Tower(5, 0, 1)]) && OneNode(Built([Tower(5, 0, 1)]), false, 1, 1)
  {
    var ts := [Tower(5, 0, 1)];
    var hs := Heights(ts);
    var sh := Built(ts);
    assert sh.heap[0] == NodeAt(ts, 0) && sh.heap[1] == NodeAt(ts, 1);
    forall i | 0 <= i < HEIGHT ensures sh.heap[0].levels[i] == Word(if i == 0 then Some(1) else None, false) {
      assert NextAt(hs, 2, i) == 2;
    }
    assert NextAt(hs, 2, 0) == 2;
  }

  /** With only the removed node and the orphan around, the key is not in the map. */
  lemma NotThere(s: State)
    requires Inv(s) && TwoNodes(s.sh) && Orphan(s, 2)
    ensures 5 !in Abs(s.sh)
  {
    hide Inv, Orphan, Live, Abs;
    if 5 in Abs(s.sh) {
      var n := AbsHas(s.sh, 5);
      InRange(s.sh, n);
      NotLive(s, n);
    }
  }

  lemma NotLive(s: State, n: NodeId)
    requires Inv(s) && TwoNodes(s.sh) && Orphan(s, 2) && n < |s.sh.heap|
    ensures n !in Live(s.sh)
  {
    hide SharedInv, LocalInv, EverLinked;
    OrphanRemoved(s.sh, 2);
  }

  /**
    Two threads suffice: one stands between marking the node of key 5 and tagging it, the other inserts key 5
    and returns; its node is on no chain, the map does not have the key, and `len` is too large.
   */
  lemma InsertCanBeLost() returns (tr: seq<State>, t: Tid)
    ensures Run(tr) && t < |tr[|tr| - 1].th|
    ensures var s := tr[|tr| - 1]; var r := s.th[t];
            && r.caller == InsertFirst && r.key == 5 && r.pc == Ret(None) && r.newNode == Some(2)
            && (forall i :: 2 !in Chain(s.sh, i)) && 5 !in Abs(s.sh) && |Live(s.sh)| < s.sh.len
  {
    hide Built, Exec, Row, Reachable, OneNode, TwoNodes, Orphan, Steps, Inv, Live, Abs, Run, Chain;
    BuiltOne();
    var c0, c1 := Choice(RemoveOp(5), 0, 1), Choice(InsertOp(5, 7), 0, 1);
    var s := Begin([Tower(5, 0, 1)]);
    s := Aims(s, 0, c0, 1, 1);
    MarkIs(s.sh, 0, s.th[0], c0, 1, 1);
    MarkedNode(s.sh, 0, 1, 1);
    s := Go(s, 0, c0, ActRemove(s.sh, 0, 1), Exec(s.sh, 0, s.th[0], c0).1);
    s := Loses(s, 1, c1);
    s := ReturnsLost(s, 1, c1);
    t := 1;
    ReachableInv(s);
    NotThere(s);
    LenExceeds(s, 2);
    forall i ensures 2 !in Chain(s.sh, i) { OffChains(s, 2, i); }
    tr := TraceOf(s);
  }

  // ------------------------------------------------------------------ a removal that misses

  /** The list before and while thread t inserts key 5 with a node of height 2: whether it is linked, and its count. */
  ghost predicate Growing(sh: Shared, linked: bool, refs: nat) {
    && |sh.heap| == 2 && |sh.heap[0].levels| == HEIGHT
    && (forall i :: 0 <= i < HEIGHT ==> sh.heap[0].levels[i] == Word(if i == 0 && linked then Some(1) else None, false))
    && sh.heap[1] == Node(5, 7, 2, refs, false, [Word(None, false), Word(None, false)])
  }

  ghost predicate NoNodes(sh: Shared) {
    |sh.heap| == 1 && |sh.heap[0].levels| == HEIGHT && forall i :: 0 <= i < HEIGHT ==> sh.heap[0].levels[i] == Word(None, false)
  }

  lemma BuiltNone()
    ensures Row([]) && NoNodes(Built([]))
  {
    var hs := Heights([]);
    var sh := Built([]);
    assert sh.heap[0] == NodeAt([], 0);
    forall i | 0 <= i < HEIGHT ensures sh.heap[0].levels[i] == Word(None, false) {
      assert NextAt(hs, 1, i) == 1;
    }
  }

  /** A search of the empty list. */
  lemma SeesNone(sh: Shared, t: Tid, r: Local, c: Choice) returns (p: seq<(NodeId, Ptr)>)
    requires NoNodes(sh) && r.pc == FStart && c.level == 0 && r.caller == InsertFirst && |r.prev| == HEIGHT
    ensures p == r.prev[0 := (HEAD, None)]
    ensures Exec(sh, t, r, c) == (sh, r.(pc := FLoad(0, HEAD)))
    ensures Exec(sh, t, r.(pc := FLoad(0, HEAD)), c) == (sh, r.(pc := FFinal, prev := p))
    ensures Exec(sh, t, r.(pc := FFinal, prev := p), c) == (sh, r.(pc := Create, prev := p))
  {
    hide ExecRemove, ExecUnlink, ExecInsert, ExecCall;
    p := r.prev[0 := (HEAD, None)];
  }

  lemma CreatedTall(sh: Shared, t: Tid)
    requires NoNodes(sh)
    ensures |sh.heap| == 1 && Growing(ActCreate(sh, t, 5, 7, 2), false, 0)
  {
    assert Repeat(2, Word(None, false)) == [Word(None, false), Word(None, false)];
  }

  /** The registers of the inserter at level start. */
  ghost predicate Grower(r: Local, start: nat) {
    && r.newNode == Some(1) && r.start == start < 2 && |r.prev| == HEIGHT
    && r.prev[0] == (HEAD, None) && r.prev[1] == (HEAD, None)
  }

  lemma GrowIs(sh: Shared, t: Tid, r: Local, c: Choice, linked: bool, refs: nat)
    requires Growing(sh, linked, refs) && Grower(r, if linked then 1 else 0)
    ensures r.pc == ILen ==> Growing(ActCount(sh, 1), linked, refs) && Exec(sh, t, r, c) == (ActCount(sh, 1), r.(pc := LLoad))
    ensures r.pc == LLoad ==> Exec(sh, t, r, c) == (sh, r.(pc := LRemoved(None)))
    ensures r.pc == LRemoved(None) ==> Exec(sh, t, r, c) == (sh, r.(pc := LOwn(None)))
    ensures r.pc == LOwn(None) ==> Exec(sh, t, r, c) == (StoreWord(sh, 1, r.start, Word(None, false)), r.(pc := LRef))
    ensures r.pc == LOwn(None) ==> Growing(StoreWord(sh, 1, r.start, Word(None, false)), linked, refs)
  {
    hide ExecFind, ExecRemove, ExecUnlink, ExecCall;
  }

  lemma CountIs(sh: Shared, t: Tid, r: Local, c: Choice, linked: bool, refs: nat)
    requires Growing(sh, linked, refs) && Grower(r, if linked then 1 else 0) && r.pc == LRef && (linked ==> refs > 0)
    ensures |sh.heap| == 2 && Growing(ActReserve(sh, 1, r.start), linked, refs + 1)
    ensures Exec(sh, t, r, c) == (ActReserve(sh, 1, r.start), r.(pc := LCas))
  {
    hide ExecFind, ExecRemove, ExecUnlink, ExecCall;
  }

  lemma LinkedIs(sh: Shared, t: Tid, r: Local, c: Choice, refs: nat)
    requires Growing(sh, false, refs) && Grower(r, 0) && r.pc == LCas
    ensures Growing(ActLink(sh, HEAD, 1, 0), true, refs)
    ensures Exec(sh, t, r, c) == (ActLink(sh, HEAD, 1, 0), r.(start := 1, pc := LLoad))
  {
    hide ExecFind, ExecRemove, ExecUnlink, ExecCall;
  }

  lemma GrowingNode(sh: Shared, refs: nat)
    requires Growing(sh, true, refs)
    ensures OneNode(sh, false, 2, refs)
  {
  }

  /** Thread t inserts key 5 with height 2, as far as its node. */
  lemma Creates(s: State, t: Tid, c: Choice) returns (s': State)
    requires Reachable(s) && t < |s.th| && s.th[t] == IDLE && NoNodes(s.sh)
    requires c.op == InsertOp(5, 7) && c.level == 0 && c.height == 2
    ensures Reachable(s') && t < |s'.th| && s'.th == s.th[t := s'.th[t]] && Growing(s'.sh, false, 0)
    ensures s'.th[t].pc == ILen && Grower(s'.th[t], 0)
  {
    hide Reachable, Exec, ActCreate, Steps;
    InvokeIs(s.sh, t, c);
    s' := Go(s, t, c, s.sh, Invoke(s.sh, c.op));
    s' := ReadHead(s', t, c, 0);
    var r := s'.th[t];
    var p := SeesNone(s.sh, t, r, c);
    s' := Go(s', t, c, s.sh, r.(pc := FLoad(0, HEAD)));
    s' := Go(s', t, c, s.sh, r.(pc := FFinal, prev := p));
    s' := Go(s', t, c, s.sh, r.(pc := Create, prev := p));
    CreateIs(s.sh, t, s'.th[t], c);
    CreatedTall(s.sh, t);
    s' := Go(s', t, c, ActCreate(s.sh, t, 5, 7, 2), s'.th[t].(newNode := Some(1), start := 0, pc := ILen));
  }

  /** From the top of the loop of `link_nodes` to the point where the level's reference is to be taken. */
  lemma GrowsLevel(s: State, t: Tid, c: Choice, linked: bool, refs: nat) returns (s': State)
    requires Reachable(s) && t < |s.th| && s.th[t].pc == LLoad && Growing(s.sh, linked, refs)
    requires Grower(s.th[t], if linked then 1 else 0)
    ensures Reachable(s') && t < |s'.th| && s'.th == s.th[t := s.th[t].(pc := LRef)] && Growing(s'.sh, linked, refs)
  {
    hide Reachable, Exec, Growing, Steps;
    var r := s.th[t];
    GrowIs(s.sh, t, r, c, linked, refs);
    s' := Go(s, t, c, s.sh, r.(pc := LRemoved(None)));
    GrowIs(s.sh, t, s'.th[t], c, linked, refs);
    s' := Go(s', t, c, s.sh, r.(pc := LOwn(None)));
    GrowIs(s.sh, t, s'.th[t], c, linked, refs);
    s' := Go(s', t, c, StoreWord(s.sh, 1, r.start, Word(None, false)), r.(pc := LRef));
  }

  /** The inserter has linked its node at the bottom, and is about to take the reference for the level above. */
  lemma Grows(s: State, t: Tid, c: Choice) returns (s': State)
    requires Reachable(s) && t < |s.th| && s.th[t] == IDLE && NoNodes(s.sh)
    requires c.op == InsertOp(5, 7) && c.level == 0 && c.height == 2
    ensures Reachable(s') && t < |s'.th| && s'.th == s.th[t := s'.th[t]] && Growing(s'.sh, true, 1)
    ensures s'.th[t].pc == LRef && Grower(s'.th[t], 1)
  {
    hide Reachable, Exec, Growing, Steps, ActCount, ActReserve, ActLink, NoNodes;
    s' := Creates(s, t, c);
    GrowIs(s'.sh, t, s'.th[t], c, false, 0);
    s' := Go(s', t, c, ActCount(s'.sh, 1), s'.th[t].(pc := LLoad));
    s' := GrowsLevel(s', t, c, false, 0);
    CountIs(s'.sh, t, s'.th[t], c, false, 0);
    s' := Go(s', t, c, ActReserve(s'.sh, 1, 0), s'.th[t].(pc := LCas));
    LinkedIs(s'.sh, t, s'.th[t], c, 1);
    s' := Go(s', t, c, ActLink(s'.sh, HEAD, 1, 0), s'.th[t].(start := 1, pc := LLoad));
    s' := GrowsLevel(s', t, c, true, 1);
  }

  lemma MissIs(sh: Shared, t: Tid, r: Local, c: Choice)
    requires OneNode(sh, false, 2, 2) && r.target == 1 && r.pc == SCas(1) && r.caller == RemoveFirst
    ensures Exec(sh, t, r, c) == (sh, r.(pc := Ret(None)))
    ensures Hindered(sh, r) && r.target < |sh.heap| && !sh.heap[r.target].removed
  {
  }

  lemma NoneRemoved(sh: Shared)
    requires Growing(sh, true, 2) && SharedInv(sh)
    ensures forall n :: 0 <= n < |sh.heap| ==> !sh.heap[n].removed
  {
  }

  /**
    Two threads suffice: between the load and the compare-exchange of `set_removed` in `remove(5)` the inserter
    of key 5 takes the reference for its second level. `remove` answers nothing, although the map has the
    key, and nobody has removed anything.
   */
  lemma RemoveCanMiss() returns (tr: seq<State>, t: Tid)
    ensures Run(tr) && t < |tr[|tr| - 1].th|
    ensures var s := tr[|tr| - 1]; var r := s.th[t];
            && r.caller == RemoveFirst && r.key == 5 && r.pc == Ret(None) && 5 in Abs(s.sh)
            && forall n :: 0 <= n < |s.sh.heap| ==> !s.sh.heap[n].removed
  {
    hide Built, Exec, Row, Reachable, OneNode, Growing, NoNodes, Steps, Inv, Abs, Run, ActReserve, Hindered;
    BuiltNone();
    var c0, c1 := Choice(RemoveOp(5), 0, 1), Choice(InsertOp(5, 7), 0, 2);
    var s := Begin([]);
    s := Grows(s, 1, c1);
    GrowingNode(s.sh, 1);
    s := Aims(s, 0, c0, 2, 1);
    CountIs(s.sh, 1, s.th[1], c1, true, 1);
    s := Go(s, 1, c1, ActReserve(s.sh, 1, 1), s.th[1].(pc := LCas));
    GrowingNode(s.sh, 2);
    MissIs(s.sh, 0, s.th[0], c0);
    var s' := Go(s, 0, c0, s.sh, s.th[0].(pc := Ret(None)));
    ReachableInv(s);
    CountChanged(s, s', 0, c0);
    NoneRemoved(s.sh) by { InvShared(s); }
    t := 0;
    tr := TraceOf(s');
  }

  lemma InvShared(s: State)
    requires Inv(s)
    ensures SharedInv(s.sh)
  {
  }
}
