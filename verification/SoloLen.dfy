/**
  `len` in histories of undisturbed calls. A call leaves it as far from the number of keys as it was, except that
  `Entry::remove` takes its node out of the map but not out of the count. So a new or a converted list on which
  nothing is removed through an entry counts exactly its keys.
 */
module SoloLen {
  import opened Common
  import opened SyncState
  import opened SyncExec
  import opened SyncInv
  import opened SyncActions
  import opened SyncSteps
  import opened SyncStart
  import opened SyncTheorems
  import opened SyncRefine
  import opened SyncCalls
  import opened Solo
  import opened SoloSteps
  import opened SoloOps
  import opened SoloRuns
  import opened SoloHistories
  import opened Progress
  import opened Towers
  import Bridge
  import SeqList
  import P = ProgressSteps
  import R = SyncReplacements
  import L = SyncLen

  // ------------------------------------------------------------------ what holds during a call

  /** Keys strictly increase along the chain of every level. */
  ghost predicate Ordered(sh: Shared) {
    forall i :: 0 <= i < HEIGHT ==> Sorted(sh, Chain(sh, i))
  }

  /** By how much the operation that r is inside of has let `len` run ahead of the live nodes. */
  function Offset(r: Local): int {
    if r.pc.Create? || r.pc.ILen? then 0
    else if InInsert(r.pc) then (if r.start == 0 then 1 else 0)
    else if R.Held(r) then 1
    else if r.pc.Ret? && r.caller == EntryCall && r.pc.answer.Some? then 1
    else 0
  }

  /** Below level h the recorded predecessors point to the target. */
  ghost predicate Aimed(sh: Shared, r: Local, h: nat) {
    h <= |r.prev| && forall i :: 0 <= i < h ==> LoadWord(sh, r.prev[i].0, i) == Some(Word(Some(r.target), false))
  }

  ghost predicate AimedAll(sh: Shared, r: Local) {
    r.target < |sh.heap| && Aimed(sh, r, |sh.heap[r.target].levels|)
  }

  /** No compare-exchange of the removal under way, or of one that a search may lead to, is going to fail. */
  ghost predicate Sure(sh: Shared, r: Local) {
    if InFind(r.pc) then (r.caller == InsertFirst || r.caller == RemoveFirst ==> FreshFind(sh, r))
    else r.caller == EntryCall || match r.pc
      case SLoad => AimedAll(sh, r)
      case SCas(_) => AimedAll(sh, r)
      case TLoad(_) => AimedAll(sh, r)
      case TCas(_, _) => AimedAll(sh, r)
      case ULoad(lv) => Aimed(sh, r, lv + 1)
      case UCas(lv, _) => Aimed(sh, r, lv + 1)
      case USub(lv) => Aimed(sh, r, lv)
      case _ => true
  }

  ghost predicate LenInv(e: int, sh: Shared, r: Local) {
    Ordered(sh) && sh.len == |Live(sh)| + e + Offset(r) && Sure(sh, r) && r.caller != RemoveCleanup
  }

  // ------------------------------------------------------------------ the order of the upper levels

  lemma DropOrdered(sh: Shared, sh': Shared, i: nat, n: NodeId)
    requires SharedInv(sh) && Mono(sh, sh') && i < HEIGHT && Sorted(sh, Chain(sh, i)) && Dropped(sh, sh', i, n)
    ensures Sorted(sh', Chain(sh', i))
  {
    hide NodeOk, LenOk, LogsOk, Mono, Sorted;
    assert ChainOk(sh, i);
    var c := sh.chain[i];
    var j := DropFromShape(c, n);
    DropSorted(sh, c, DropFrom(c, n), j - 1);
    SortedFrame(sh, sh', DropFrom(c, n));
  }

  lemma SpliceOrdered(sh: Shared, t: Tid, r: Local, sh': Shared)
    requires SharedInv(sh) && Mono(sh, sh') && RegsOk(sh, t, r) && r.start < HEIGHT && Sorted(sh, Chain(sh, r.start))
    requires r.newNode.Some? && r.newNode.value < |sh.heap| && sh.heap[r.newNode.value].key == r.key
    requires Spliced(sh, sh', r.start, r.prev[r.start].0, r.newNode.value) && Strict(sh, r, r.start)
    requires PtrIs(sh, r.prev[r.start].0, r.start, r.prev[r.start].1)
    ensures Sorted(sh', Chain(sh', r.start))
  {
    hide NodeOk, LenOk, LogsOk, Mono, Sorted;
    var i, n := r.start, r.newNode.value;
    var p := r.prev[i].0;
    assert ChainOk(sh, i) && PrevOk(sh, r, i);
    var c := sh.chain[i];
    var j := InsertAfterShape(c, p, n);
    assert PtrIs(sh, c[j], i, After(c, j));
    InsertSorted(sh, c, InsertAfter(c, p, n), j, n);
    SortedFrame(sh, sh', InsertAfter(c, p, n));
  }

  /** Alone, every step keeps all chains in order. */
  lemma OrderedStep(g: Goal, s: State, s': State, t: Tid, c: Choice)
    requires Inv(s) && Steps(s, s', t, c) && SoloInv(g, s.sh, s.th[t]) && g.full && Ordered(s.sh)
    ensures Ordered(s'.sh)
  {
    hide SharedInv, RegsOk, FindInv, RemovalInv, InsertInv, CallInv, Exec, Mono, Kept, Sorted, Dropped, Spliced, SoloInv;
    var sh, r, sh' := s.sh, s.th[t], s'.sh;
    assert LocalInv(sh, t, r);
    StepKeeps(sh, t, r, c);
    ChainStep(s, s', t, c);
    forall i | 0 <= i < HEIGHT ensures Sorted(sh', Chain(sh', i)) {
      if Chain(sh', i) == Chain(sh, i) { SortedFrame(sh, sh', Chain(sh, i)); }
      else if i == 0 { BottomOrdered(sh'); }
      else if r.pc.FCas? { DropOrdered(sh, sh', i, r.pc.next); }
      else if r.pc.UCas? { DropOrdered(sh, sh', i, r.target); }
      else {
        LinksWhere(g, sh, t, r, c);
        SpliceOrdered(sh, t, r, sh');
      }
    }
  }

  lemma BottomOrdered(sh: Shared)
    requires SharedInv(sh)
    ensures Sorted(sh, Chain(sh, 0))
  {
  }

  /** Above the bottom `link_nodes` links its node where the search has found room for it. */
  lemma LinksWhere(g: Goal, sh: Shared, t: Tid, r: Local, c: Choice)
    requires SharedInv(sh) && RegsOk(sh, t, r) && InsertInv(sh, t, r) && r.pc.LCas? && r.start >= 1
    requires SoloInv(g, sh, r) && g.full && Exec(sh, t, r, c).0.chain != sh.chain
    ensures r.newNode.Some? && r.newNode.value < |sh.heap| && sh.heap[r.newNode.value].key == r.key && r.start < HEIGHT
    ensures Strict(sh, r, r.start) && PtrIs(sh, r.prev[r.start].0, r.start, r.prev[r.start].1)
  {
    hide SharedInv, Joined, Quiet, Clean, Full, ActLink;
    NewShape(sh, t, r, Reserved);
  }

  // ------------------------------------------------------------------ the count

  lemma OneLess(sh: Shared, sh': Shared, n: NodeId)
    requires n in Live(sh) && Live(sh') == Live(sh) - {n}
    ensures |Live(sh')| == |Live(sh)| - 1
  {
    hide Live;
    assert Live(sh) == Live(sh') + {n};
  }

  /** Alone, the two steps that change the live nodes do so. */
  lemma LiveSolo(g: Goal, s: State, s': State, t: Tid, c: Choice)
    requires Inv(s) && Inv(s') && Steps(s, s', t, c) && SoloInv(g, s.sh, s.th[t]) && SoloInv(g, s'.sh, s'.th[t])
    ensures var r := s.th[t];
            |Live(s'.sh)| == |Live(s.sh)| + (if r.pc.SCas? then -1 else if r.pc.LCas? && r.start == 0 then 1 else 0)
  {
    hide SharedInv, RegsOk, FindInv, RemovalInv, InsertInv, CallInv, Exec, Mono, Live, SoloInv;
    var sh, r, sh' := s.sh, s.th[t], s'.sh;
    assert LocalInv(sh, t, r);
    LiveStep(s, s', t, c);
    if s'.th[t].pc.Fault? { FaultIsAstray(s, s', t, c); }
    if r.pc.SCas? { TakesOne(g, sh, t, r, c); }
    if r.pc.LCas? && r.start == 0 { JoinsOne(g, sh, t, r, c, s'.th[t]); }
  }

  lemma TakesOne(g: Goal, sh: Shared, t: Tid, r: Local, c: Choice)
    requires SharedInv(sh) && RemovalInv(sh, t, r) && r.pc.SCas? && SoloInv(g, sh, r)
    ensures var sh' := Exec(sh, t, r, c).0; |Live(sh')| == |Live(sh)| - 1
  {
    hide SharedInv, Live, Settled, Abs, ActRemove, Building, NewBelow;
    TargetShape(sh, r.target);
    RemoveLive(sh, t, r.target);
    OneLess(sh, ActRemove(sh, t, r.target), r.target);
  }

  lemma JoinsOne(g: Goal, sh: Shared, t: Tid, r: Local, c: Choice, r': Local)
    requires SharedInv(sh) && InsertInv(sh, t, r) && r.pc.LCas? && r.start == 0 && !r'.pc.Fault?
    requires var sh' := Exec(sh, t, r, c).0; r' == Exec(sh, t, r, c).1 && SoloInv(g, sh', r') && LiveEffect(sh, r, sh')
    ensures var sh' := Exec(sh, t, r, c).0; |Live(sh')| == |Live(sh)| + 1
  {
    hide SharedInv, Live, Exec, InsertInv, SoloInv, Building;
    var n := NewHere(sh, t, r);
    LinkGoes(sh, t, r, c);
    LinkedLives(g, Exec(sh, t, r, c).0, r');
    NotLiveYet(sh, t, n, Reserved);
  }

  lemma NewHere(sh: Shared, t: Tid, r: Local) returns (n: NodeId)
    requires InsertInv(sh, t, r) && r.pc.LCas? && r.start == 0
    ensures r.newNode == Some(n) && Building(sh, t, n, 0, Reserved) && n < |sh.heap| && n != HEAD
  {
    n := r.newNode.value;
  }

  lemma LinkGoes(sh: Shared, t: Tid, r: Local, c: Choice)
    requires r.pc.LCas?
    ensures var r' := Exec(sh, t, r, c).1;
            (r'.pc.LLoad? && r'.start == r.start + 1 && r'.newNode == r.newNode) || (r'.pc.LUnref? && r'.start == r.start) || r'.pc.Fault?
  {
    hide ActLink;
  }

  lemma LinkedLives(g: Goal, sh: Shared, r: Local)
    requires SoloInv(g, sh, r) && ((r.pc.LLoad? && r.start == 1) || (r.pc.LUnref? && r.start == 0))
    ensures r.pc.LLoad? && r.newNode.Some? && r.newNode.value in Live(sh)
  {
    hide Live, Abs, Quiet, Clean, Full, Strict, Had;
  }

  /** The offset follows the program counter. */
  lemma OffsetFind(sh: Shared, t: Tid, r: Local, c: Choice)
    requires InFind(r.pc) && r.caller != EntryCall && (r.caller == InsertRetry ==> r.start >= 1)
    ensures Offset(ExecFind(sh, t, r, c).1) == 0
  {
    hide ActUnlink, ActSub, ActRetire, Decide, Examine;
    forall sh: Shared, lv: nat, curr: NodeId, next: Ptr ensures Offset(Examine(sh, r, lv, curr, next)) == 0 == Offset(Decide(sh, r, lv, curr, next)) {
      OffsetDecides(sh, r, lv, curr, next);
    }
  }

  lemma OffsetDecides(sh: Shared, r: Local, lv: nat, curr: NodeId, next: Ptr)
    requires InFind(r.pc) && r.caller != EntryCall
    ensures Offset(Examine(sh, r, lv, curr, next)) == 0 == Offset(Decide(sh, r, lv, curr, next))
  {
  }

  lemma OffsetUnlink(sh: Shared, t: Tid, r: Local)
    requires InUnlink(r.pc) && r.caller != EntryCall && r.caller != RemoveCleanup && Sure(sh, r)
    requires !ExecUnlink(sh, t, r).1.pc.Panic? && !ExecUnlink(sh, t, r).1.pc.Fault?
    ensures Offset(ExecUnlink(sh, t, r).1) == (if r.pc.ULen? then 0 else 1) && ExecUnlink(sh, t, r).1.caller != RemoveCleanup
  {
    hide ActUnlink, ActSub, ActRetire;
  }

  lemma OffsetRemove(g: Goal, sh: Shared, t: Tid, r: Local)
    requires RemovalInv(sh, t, r) && InRemoval(r.pc) && !InUnlink(r.pc) && SoloInv(g, sh, r)
    requires !ExecRemove(sh, t, r).1.pc.Panic? && !ExecRemove(sh, t, r).1.pc.Fault?
    ensures Offset(ExecRemove(sh, t, r).1) == (if r.pc.SLoad? then 0 else 1) && ExecRemove(sh, t, r).1.caller == r.caller
  {
    hide ActTag, ActRemove, Quiet, Clean, Full, Abs, Live, Won;
    assert r.pc.TCas? ==> !Tagged(sh, r.target, r.pc.lv);
  }

  /** Alone, an `insert` is at these places only when its node is linked at the bottom. */
  lemma PastBottom(g: Goal, sh: Shared, r: Local)
    requires SoloInv(g, sh, r) && (r.pc.LGuard? || r.pc.LEnd? || r.pc.LUnref? || (InFind(r.pc) && r.caller == InsertRetry))
    ensures r.start >= 1
  {
    hide Abs, Live, Quiet, Clean, Full, Strict, Had;
  }

  lemma OffsetInsert(g: Goal, sh: Shared, t: Tid, r: Local, c: Choice)
    requires InsertInv(sh, t, r) && InInsert(r.pc) && SoloInv(g, sh, r)
    requires SoloInv(g, ExecInsert(sh, t, r, c).0, ExecInsert(sh, t, r, c).1) && !ExecInsert(sh, t, r, c).1.pc.Fault?
    ensures Offset(ExecInsert(sh, t, r, c).1)
         == (if r.pc.ILen? then 1 else if r.pc.LCas? && r.start == 0 then 0 else Offset(r))
    ensures ExecInsert(sh, t, r, c).1.caller != RemoveCleanup
  {
    hide ActLink, ActReserve, ActUnreserve, ActCreate, ActCount, SoloInv, Building, NewOk, Guarded, OwnSet, StoreWord;
    var (sh', r') := ExecInsert(sh, t, r, c);
    if r.pc.LGuard? || r.pc.LEnd? || r.pc.LUnref? { PastBottom(g, sh, r); }
    if r'.pc.LGuard? || r'.pc.LEnd? || r'.pc.LUnref? || (InFind(r'.pc) && r'.caller == InsertRetry) { PastBottom(g, sh', r'); }
  }

  lemma OffsetCall(sh: Shared, t: Tid, r: Local, c: Choice)
    requires CallInv(sh, t, r) && (r.pc.GetLen? || r.pc.FirstLen? || r.pc.NextStale?)
    ensures ExecCall(sh, r, c).0 == sh && Offset(ExecCall(sh, r, c).1) == 0 && ExecCall(sh, r, c).1.caller != RemoveCleanup
  {
  }

  /** Alone, `len` changes with the live nodes and the offset. */
  lemma OffsetStep(g: Goal, e: int, s: State, s': State, t: Tid, c: Choice)
    requires Inv(s) && Inv(s') && Steps(s, s', t, c) && SoloInv(g, s.sh, s.th[t]) && SoloInv(g, s'.sh, s'.th[t])
    requires !s.th[t].pc.Ret? && !s.th[t].pc.Fault? && LenInv(e, s.sh, s.th[t])
    ensures s'.sh.len == |Live(s'.sh)| + e + Offset(s'.th[t]) && s'.th[t].caller != RemoveCleanup
  {
    hide SharedInv, RegsOk, FindInv, RemovalInv, InsertInv, CallInv, ExecFind, ExecRemove, ExecUnlink, ExecInsert, ExecCall;
    hide Live, SoloInv, Ordered, Sure, Offset;
    var sh, r, r' := s.sh, s.th[t], s'.th[t];
    assert LocalInv(sh, t, r) && LocalInv(s'.sh, t, r');
    NoFailure(s'.sh, t, r');
    LiveSolo(g, s, s', t, c);
    L.LenStep(s, s', t, c);
    OffsetsAre(r);
    if InFind(r.pc) {
      FindCallers(sh, t, r);
      P.FindKeepsCaller(sh, t, r, c);
      if r.caller == InsertRetry { PastBottom(g, sh, r); }
      OffsetFind(sh, t, r, c);
    } else {
      if r'.pc.Fault? { FaultIsAstray(s, s', t, c); }
      if InRemoval(r.pc) {
        RemovalCallers(sh, t, r);
        if InUnlink(r.pc) { OffsetUnlink(sh, t, r); } else { OffsetRemove(g, sh, t, r); }
      }
      else if InInsert(r.pc) { OffsetInsert(g, sh, t, r, c); }
      else {
        NotDone(g, sh, r);
        P.CallPlaces(sh, t, r);
        OffsetCall(sh, t, r, c);
      }
    }
  }

  lemma OffsetsAre(r: Local)
    ensures InFind(r.pc) || r.pc.SLoad? || r.pc.SCas? || r.pc.ILen? || r.pc.GetLen? || r.pc.FirstLen? || r.pc.NextStale? ==> Offset(r) == 0
    ensures InRemoval(r.pc) && !r.pc.SLoad? && !r.pc.SCas? ==> Offset(r) == 1
    ensures r.pc.LCas? && r.start == 0 ==> Offset(r) == 1
  {
  }

  // ------------------------------------------------------------------ no compare-exchange of a removal fails

  /** At level i the search that has found n has recorded the node that points to it. */
  lemma AimsAt(sh: Shared, t: Tid, r: Local, n: NodeId, i: nat)
    requires SharedInv(sh) && RegsOk(sh, t, r) && Ordered(sh) && i < HEIGHT && Firm(sh, r, i) && Ahead(sh, r, 0)
    requires Visited(sh, n, i) && !Tagged(sh, n, i) && sh.heap[n].key == r.key
    ensures LoadWord(sh, r.prev[i].0, i) == Some(Word(Some(n), false))
  {
    hide NodeOk, LenOk, LogsOk;
    var c := sh.chain[i];
    var (p, next) := r.prev[i];
    assert ChainOk(sh, i) && PrevOk(sh, r, i) && Sorted(sh, Chain(sh, i));
    var j := StillLinked(sh, p, i);
    var a := StillLinked(sh, n, i);
    if a <= j { AtOrBefore(sh, c, a, j); assert false; }
    assert c[j + 1] == next.value;
    NextOrLess(sh, c, j + 1, a);
  }

  lemma NextOrLess(sh: Shared, c: seq<NodeId>, j: nat, a: nat)
    requires Sorted(sh, c) && 1 <= j <= a < |c|
    ensures c[j] == c[a] || sh.heap[c[j]].key < sh.heap[c[a]].key
  {
  }

  lemma AimsAll(sh: Shared, t: Tid, r: Local, n: NodeId, r': Local)
    requires SharedInv(sh) && RegsOk(sh, t, r) && Ordered(sh) && Firmly(sh, r, 0) && Ahead(sh, r, 0) && Full(sh, None)
    requires n in Live(sh) && n < |sh.heap| && sh.heap[n].key == r.key && n != HEAD
    requires r'.target == n && r'.prev == r.prev
    ensures AimedAll(sh, r')
  {
    hide SharedInv, Firm, Ahead, Ordered, Live, PrevOk;
    LiveFacts(sh, n);
    TargetShape(sh, n);
    forall i | 0 <= i < |sh.heap[n].levels| ensures LoadWord(sh, r'.prev[i].0, i) == Some(Word(Some(n), false)) {
      assert EverLinked(sh, n, i);
      SolidUntagged(sh, n, i);
      assert Firm(sh, r, i);
      AimsAt(sh, t, r, n, i);
    }
  }

  /** A search that leads to a removal has checked its candidate in this step. */
  lemma CheckTakes(sh: Shared, t: Tid, r: Local, c: Choice)
    requires InFind(r.pc) && ExecFind(sh, t, r, c).1.pc.SLoad?
    ensures r.pc.FCheck? && r.pc.cand < |sh.heap| && sh.heap[r.pc.cand].key == r.key && !sh.heap[r.pc.cand].removed
    ensures ExecFind(sh, t, r, c) == (sh, r.(target := r.pc.cand, pc := SLoad))
  {
    hide ActUnlink, ActSub, ActRetire;
  }

  lemma FindTakes(g: Goal, sh: Shared, t: Tid, r: Local, c: Choice, sh': Shared, r': Local)
    requires SharedInv(sh) && RegsOk(sh, t, r) && FindInv(sh, t, r) && InFind(r.pc) && SoloInv(g, sh, r) && g.full && Ordered(sh)
    requires (r.caller == InsertFirst || r.caller == RemoveFirst) && FreshFind(sh, r)
    requires (sh', r') == ExecFind(sh, t, r, c) && r'.pc.SLoad?
    ensures AimedAll(sh', r')
  {
    CheckTakes(sh, t, r, c);
    hide SharedInv, RegsOk, ExecFind, Live, Abs, Quiet, Clean, Full, Firmly, Ahead, Ordered, Adjacent, Waiting;
    LiveFacts(sh, r.pc.cand);
    AimsAll(sh, t, r, r.pc.cand, r');
  }

  lemma SureFind(g: Goal, s: State, s': State, t: Tid, c: Choice)
    requires Inv(s) && Steps(s, s', t, c) && InFind(s.th[t].pc) && SoloInv(g, s.sh, s.th[t]) && SoloInv(g, s'.sh, s'.th[t])
    requires g.full && Ordered(s.sh) && Sure(s.sh, s.th[t]) && !Astray(s.th[t])
    requires s.th[t].pc.FStart? ==> c.level < HEIGHT
    ensures Sure(s'.sh, s'.th[t])
  {
    hide SharedInv, RegsOk, FindInv, RemovalInv, InsertInv, CallInv, ExecFind, Mono, Kept, Live, ChainEffect, Less, Left;
    hide SoloInv, Ordered, Seeking, FindAt, FreshFind, AimedAll;
    var sh, r, sh', r' := s.sh, s.th[t], s'.sh, s'.th[t];
    assert LocalInv(sh, t, r);
    StepKeeps(sh, t, r, c);
    NoFailure(sh', t, r');
    LiveStep(s, s', t, c);
    ChainStep(s, s', t, c);
    FindRegs(sh, t, r, c);
    P.FindKeepsCaller(sh, t, r, c);
    FindCallers(sh, t, r);
    if InFind(r'.pc) {
      P.FindLess(sh, t, r, c, sh', r');
    } else if r'.pc.SLoad? {
      TakesFor(g, sh', r');
      FindTakes(g, sh, t, r, c, sh', r');
    } else {
      FindEndsAt(sh, t, r, c);
    }
  }

  lemma FindEndsAt(sh: Shared, t: Tid, r: Local, c: Choice)
    requires InFind(r.pc)
    ensures var pc := ExecFind(sh, t, r, c).1.pc; InFind(pc) || pc.SLoad? || !InRemoval(pc)
  {
    hide ActUnlink, ActSub, ActRetire;
  }

  lemma TakesFor(g: Goal, sh: Shared, r: Local)
    requires SoloInv(g, sh, r) && r.pc.SLoad?
    ensures r.caller == InsertFirst || r.caller == RemoveFirst || r.caller == EntryCall
  {
    hide Abs, Settled;
  }

  lemma AimedCarry(sh: Shared, r: Local, sh': Shared, r': Local, h: nat)
    requires Aimed(sh, r, h) && r'.target == r.target && r'.prev == r.prev
    requires forall i :: 0 <= i < h && i < |r.prev| ==> WordKept(sh, sh', r.prev[i].0, i)
    ensures Aimed(sh', r', h)
  {
    forall i | 0 <= i < h ensures LoadWord(sh', r'.prev[i].0, i) == Some(Word(Some(r'.target), false)) {
      assert LoadWord(sh, r.prev[i].0, i).Some? && WordKept(sh, sh', r.prev[i].0, i);
    }
  }

  /** A recorded predecessor is not the target: its key is smaller. */
  lemma NotTarget(sh: Shared, t: Tid, r: Local, i: nat)
    requires RegsOk(sh, t, r) && Visited(sh, r.target, 0) && sh.heap[r.target].key == r.key && i < |r.prev|
    ensures r.prev[i].0 != r.target
  {
    assert PrevOk(sh, r, i);
  }

  lemma SureTagging(sh: Shared, t: Tid, r: Local)
    requires SharedInv(sh) && RegsOk(sh, t, r) && RemovalInv(sh, t, r) && r.caller != EntryCall && Sure(sh, r)
    requires r.pc.SLoad? || r.pc.SCas? || r.pc.TLoad? || r.pc.TCas?
    ensures Sure(ExecRemove(sh, t, r).0, ExecRemove(sh, t, r).1)
  {
    hide SharedInv, RegsOk, Won, NewBelow, Aimed, WordKept, FreshFind;
    var (sh', r') := ExecRemove(sh, t, r);
    var n := r.target;
    TargetShape(sh, n);
    var h := |sh.heap[n].levels|;
    forall i | 0 <= i < h && i < |r.prev| ensures WordKept(sh, sh', r.prev[i].0, i) {
      NotTarget(sh, t, r, i);
      OthersKept(sh, t, r, r.prev[i].0, i);
    }
    AimedCarry(sh, r, sh', r.(pc := r'.pc), h);
  }

  /** Marking and tagging the target leaves the words of other nodes alone. */
  lemma OthersKept(sh: Shared, t: Tid, r: Local, m: NodeId, i: nat)
    requires m != r.target
    ensures WordKept(sh, ExecRemove(sh, t, r).0, m, i)
  {
    hide AfterTagged, AfterLost, AfterTagError;
  }

  lemma SureUnlinking(sh: Shared, t: Tid, r: Local)
    requires SharedInv(sh) && InUnlink(r.pc) && r.caller != EntryCall && Sure(sh, r)
    ensures Sure(ExecUnlink(sh, t, r).0, ExecUnlink(sh, t, r).1)
  {
    hide SharedInv, Aimed, WordKept;
    var (sh', r') := ExecUnlink(sh, t, r);
    var h := if r.pc.ULoad? then r.pc.lv + 1 else if r.pc.UCas? || r.pc.USub? then r.pc.lv else 0;
    AimedFewer(sh, r, if r.pc.UCas? then h + 1 else h, h);
    forall i | 0 <= i < h && i < |r.prev| ensures WordKept(sh, sh', r.prev[i].0, i) {
      BelowKept(sh, t, r, r.prev[i].0, i);
    }
    AimedCarry(sh, r, sh', r.(pc := r'.pc), h);
  }

  lemma AimedFewer(sh: Shared, r: Local, h: nat, h': nat)
    requires Aimed(sh, r, h) && h' <= h
    ensures Aimed(sh, r, h')
  {
  }

  /** Unlinking one level leaves the others alone. */
  lemma BelowKept(sh: Shared, t: Tid, r: Local, m: NodeId, i: nat)
    requires InUnlink(r.pc) && (r.pc.UCas? ==> i != r.pc.lv)
    ensures WordKept(sh, ExecUnlink(sh, t, r).0, m, i)
  {
    hide AfterUnlink, NextUnlink;
  }

  // ------------------------------------------------------------------ one call

  lemma SureStep(g: Goal, s: State, s': State, t: Tid, c: Choice)
    requires Inv(s) && Steps(s, s', t, c) && SoloInv(g, s.sh, s.th[t]) && SoloInv(g, s'.sh, s'.th[t]) && g.full
    requires Ordered(s.sh) && Sure(s.sh, s.th[t]) && !s.th[t].pc.Ret? && !s.th[t].pc.Fault?
    requires s.th[t].pc.FStart? ==> c.level < HEIGHT
    ensures Sure(s'.sh, s'.th[t])
  {
    hide SharedInv, RegsOk, FindInv, RemovalInv, InsertInv, CallInv, ExecFind, ExecRemove, ExecUnlink, ExecInsert, ExecCall;
    hide SoloInv, Ordered, Sure;
    var sh, r, r' := s.sh, s.th[t], s'.th[t];
    assert LocalInv(sh, t, r) && LocalInv(s'.sh, t, r') by { StepNext(s, s', t, c); }
    if Astray(r) {
      AstrayStays(s, s', t, c);
      NoTarget(s'.sh, r');
    }
    else if InFind(r.pc) { SureFind(g, s, s', t, c); }
    else if InRemoval(r.pc) {
      RemovalCallers(sh, t, r);
      if r.caller == EntryCall { DoingStep(EntryRemoveOp(r.target), s, s', t, c); SureEntry(s'.sh, r'); }
      else if InUnlink(r.pc) { SureUnlinking(sh, t, r); }
      else { SureTagging(sh, t, r); }
    }
    else if InInsert(r.pc) {
      InsertCallers(sh, t, r);
      SureInsert(sh, t, r, c);
    } else {
      NotDone(g, sh, r);
      P.CallPlaces(sh, t, r);
      SureCall(sh, t, r, c);
    }
  }

  lemma NoTarget(sh: Shared, r: Local)
    requires Astray(r)
    ensures Sure(sh, r)
  {
  }

  lemma SureEntry(sh: Shared, r: Local)
    requires r.caller == EntryCall
    ensures Sure(sh, r)
  {
  }

  lemma SureInsert(sh: Shared, t: Tid, r: Local, c: Choice)
    requires InInsert(r.pc) && Inserting(r)
    ensures Sure(ExecInsert(sh, t, r, c).0, ExecInsert(sh, t, r, c).1)
  {
    hide ActLink, ActReserve, ActUnreserve, ActCreate, ActCount, Aimed, FreshFind, StoreWord;
  }

  lemma SureCall(sh: Shared, t: Tid, r: Local, c: Choice)
    requires CallInv(sh, t, r) && (r.pc.GetLen? || r.pc.FirstLen? || r.pc.NextStale?)
    ensures Sure(ExecCall(sh, r, c).0, ExecCall(sh, r, c).1)
  {
    hide Aimed, FreshFind;
  }

  /** Alone, every step keeps the account of `len`, the order of all levels, and the aim of removals. */
  lemma LenKept(g: Goal, e: int, s: State, s': State, t: Tid, c: Choice)
    requires Inv(s) && Steps(s, s', t, c) && SoloInv(g, s.sh, s.th[t]) && g.full && LenInv(e, s.sh, s.th[t])
    requires !s.th[t].pc.Ret? && !s.th[t].pc.Fault?
    requires s.th[t].pc.FStart? ==> c.level < HEIGHT && StartsHigh(s.sh, c.level)
    ensures SoloInv(g, s'.sh, s'.th[t]) && LenInv(e, s'.sh, s'.th[t])
  {
    hide Inv, Exec, SoloInv, Ordered, Sure, Live, Offset, StartsHigh;
    StepNext(s, s', t, c);
    StepSolo(g, s, s', t, c);
    OrderedStep(g, s, s', t, c);
    OffsetStep(g, e, s, s', t, c);
    SureStep(g, s, s', t, c);
  }

  lemma LenBegins(sh: Shared, op: Op)
    requires Ordered(sh) && Legal(sh, op)
    ensures LenInv(sh.len - |Live(sh)|, sh, Invoke(sh, op))
  {
    hide Ordered, Live, Aimed;
  }

  /** The account is right in every state of the call. */
  lemma {:induction false} DuringLen(c: Call, k: nat)
    requires Undisturbed(c) && Quiet(StartOf(c), None) && InPlace(StartOf(c), TopBefore(c)) && Ordered(StartOf(c)) && 1 <= k < |c.tr|
    ensures var sh := StartOf(c);
            && Inv(c.tr[k]) && c.t < |c.tr[k].th| && SoloInv(GoalOf(sh, c.op, false, true), c.tr[k].sh, c.tr[k].th[c.t])
            && LenInv(sh.len - |Live(sh)|, c.tr[k].sh, c.tr[k].th[c.t])
    decreases k
  {
    hide SharedInv, LocalInv, Exec, TopOk, Legal, Quiet, Full, Live, Ordered, SoloInv, LenInv, Alone;
    var sh := StartOf(c);
    var g := GoalOf(sh, c.op, false, true);
    if k == 1 {
      var ch :| Steps(c.tr[0], c.tr[1], c.t, ch) && ch.op == c.op;
      BeginCall(c.tr[0], c.tr[1], c.t, ch, false, true);
      Begun(c.tr[0], c.tr[1], c.t, c.op);
      LenBegins(sh, c.op);
    } else {
      DuringLen(c, k - 1);
      TopDuring(c, k - 1);
      assert TopMoves(c.tr[k - 1], c.tr[k], c.t, c.tops[k - 1], c.tops[k]);
      var ch :| TopStep(c.tr[k - 1], c.tr[k], c.t, ch, c.tops[k - 1], c.tops[k]);
      TopKept(c.tr[k - 1], c.tr[k], c.t, ch, c.tops[k - 1], c.tops[k]);
      StepNext(c.tr[k - 1], c.tr[k], c.t, ch);
      LenKept(g, sh.len - |Live(sh)|, c.tr[k - 1], c.tr[k], c.t, ch);
    }
  }

  // ------------------------------------------------------------------ the size of the map

  lemma {:induction false} ImageSize(sh: Shared, ns: set<NodeId>)
    requires forall n :: n in ns ==> n < |sh.heap|
    requires forall m, n :: m in ns && n in ns && sh.heap[m].key == sh.heap[n].key ==> m == n
    ensures |set n | n in ns :: sh.heap[n].key| == |ns|
    decreases |ns|
  {
    var ks := set n | n in ns :: sh.heap[n].key;
    if m :| m in ns {
      var rest := ns - {m};
      ImageSize(sh, rest);
      assert ks == (set n | n in rest :: sh.heap[n].key) + {sh.heap[m].key};
    } else {
      assert ks == {};
    }
  }

  /** The map has as many keys as there are live nodes. */
  lemma MapSize(sh: Shared)
    requires SharedInv(sh)
    ensures |Abs(sh)| == |Live(sh)|
  {
    hide SharedInv;
    forall m, n | m in Live(sh) && n in Live(sh) && sh.heap[m].key == sh.heap[n].key ensures m == n { LiveUnique(sh, m, n); }
    ImageSize(sh, Live(sh));
    assert Abs(sh).Keys == KeysOf(sh);
  }

  /** By how much `len` exceeds the number of keys. */
  ghost function Excess(sh: Shared): int {
    sh.len - |Abs(sh)|
  }

  /** The call takes a node out of the map by way of its entry. */
  ghost predicate TakesEntry(c: Call)
    requires Undisturbed(c)
  {
    c.op.EntryRemoveOp? && Solid(StartOf(c), c.op.node)
  }

  /**
    An undisturbed call, from a state with everything in place, leaves the excess of `len` as it was. Only a
    removal through an entry, if it removes its node, adds one.
   */
  lemma ExcessKept(c: Call)
    requires Undisturbed(c) && Quiet(StartOf(c), None) && InPlace(StartOf(c), TopBefore(c)) && Ordered(StartOf(c))
    ensures Excess(EndOf(c)) == Excess(StartOf(c)) + (if TakesEntry(c) then 1 else 0)
    ensures Ordered(EndOf(c))
  {
    hide SharedInv, LocalInv, Exec, TopOk, Legal, Quiet, Full, Live, Abs, Ordered, SoloInv, Alone, Measured, Begins, Sure;
    var k := |c.tr| - 1;
    var g := GoalOf(StartOf(c), c.op, false, true);
    StartsAreHigh(c);
    DuringLen(c, k);
    DuringCall(c.tr, c.t, c.op, false, true, k);
    MapSize(StartOf(c));
    MapSize(EndOf(c));
    OffsetAtEnd(g, c.tr[k].sh, c.tr[k].th[c.t], c.op);
  }

  lemma OffsetAtEnd(g: Goal, sh: Shared, r: Local, op: Op)
    requires SoloInv(g, sh, r) && r.pc.Ret? && Doing(op, r) && !Astray(r)
    ensures Offset(r) == (if op.EntryRemoveOp? && g.live then 1 else 0)
  {
    hide Settled, Abs, Live, Had;
  }

  // ------------------------------------------------------------------ histories

  ghost predicate SameLen(c: Call, d: Call)
    requires Undisturbed(c) && Undisturbed(d)
  {
    StartOf(d).len == EndOf(c).len
  }

  /** Nor does anybody count or uncount a node between two calls. */
  ghost predicate LenStays(cs: seq<Call>)
    requires History(cs)
  {
    forall i :: 0 <= i < |cs| - 1 ==> SameLen(cs[i], cs[i + 1])
  }

  /** Handing over an answer changes neither the towers nor `len`. */
  lemma HandingOver(s: State, s': State, t: Tid, c: Choice)
    requires Steps(s, s', t, c) && s.th[t].pc.Ret?
    ensures SameTowers(s.sh, s'.sh) && s'.sh.len == s.sh.len && s'.th[t].pc == Done(s.th[t].pc.answer)
  {
    hide ExecFind, ExecRemove, ExecUnlink, ExecInsert;
  }

  /** How many of the first n calls have taken a node out of the map by way of its entry. */
  ghost function EntriesTaken(cs: seq<Call>, n: nat): nat
    requires History(cs) && n <= |cs|
  {
    if n == 0 then 0 else EntriesTaken(cs, n - 1) + (if TakesEntry(cs[n - 1]) then 1 else 0)
  }

  lemma OrderedSame(sh: Shared, sh': Shared)
    requires SameTowers(sh, sh') && Ordered(sh)
    ensures Ordered(sh')
  {
    forall i | 0 <= i < HEIGHT ensures Sorted(sh', Chain(sh', i)) { assert Sorted(sh, Chain(sh, i)); }
  }

  /** In a history every call leaves `len` ahead of the keys by the number of nodes taken out through entries so far. */
  lemma {:induction false} ExcessGrows(cs: seq<Call>, i: nat)
    requires History(cs) && LenStays(cs) && i < |cs|
    requires Quiet(StartOf(cs[0]), None) && InPlace(StartOf(cs[0]), TopBefore(cs[0])) && Ordered(StartOf(cs[0]))
    ensures Excess(EndOf(cs[i])) == Excess(StartOf(cs[0])) + EntriesTaken(cs, i + 1) && Ordered(EndOf(cs[i]))
    decreases i
  {
    hide Undisturbed, SameTowers, SharedInv, Quiet, Clean, Full, Abs, TopOk, Ordered, TakesEntry, CallGood;
    var c := cs[i];
    if i > 0 {
      ExcessGrows(cs, i - 1);
      DuringHistory(cs, i - 1);
      assert Joins(cs[i - 1], c) && SameLen(cs[i - 1], c);
      StartInv(c);
      TowersSame(EndOf(cs[i - 1]), StartOf(c));
      OrderedSame(EndOf(cs[i - 1]), StartOf(c));
    }
    ExcessKept(c);
  }

  lemma BuiltCounts(ts: seq<Tower>)
    requires Row(ts)
    ensures Excess(Built(ts)) == 0 && Ordered(Built(ts))
  {
    hide SharedInv, Abs, Live, Sorted;
    BuiltInv(ts);
    MapSize(Built(ts));
    forall n ensures n in Live(Built(ts)) <==> n in UpTo(|ts|) { Bridge.BuiltLive(ts, n); }
    assert Live(Built(ts)) == UpTo(|ts|);
    forall i | 0 <= i < HEIGHT ensures Sorted(Built(ts), Chain(Built(ts), i)) { LevelSorted(ts, i); }
  }

  lemma LevelSorted(ts: seq<Tower>, i: nat)
    requires Row(ts) && i < HEIGHT
    ensures Sorted(Built(ts), Chain(Built(ts), i))
  {
    var sh := Built(ts);
    var c := sh.chain[i];
    PositionsFilter(Heights(ts), 0, i);
    forall j, k | 1 <= j < k < |c| ensures sh.heap[c[j]].key < sh.heap[c[k]].key {
      assert 1 <= c[j] < c[k] by { assert c[0] < c[j]; }
      assert sh.heap[c[j]].key == ts[c[j] - 1].key && sh.heap[c[k]].key == ts[c[k] - 1].key;
    }
  }

  /**
    On a new list, or any other row of towers, with calls one at a time: at the end of each call `len` is the
    number of keys, and one more for each node that has been taken out through its entry. So it is exact as long
    as none has.
   */
  lemma {:induction false} LenExact(ts: seq<Tower>, cs: seq<Call>)
    requires Row(ts) && History(cs) && LenStays(cs) && cs != [] && StartOf(cs[0]) == Built(ts)
    requires TopBefore(cs[0]) <= HEIGHT && forall p :: 0 <= p < |ts| ==> ts[p].height <= TopBefore(cs[0])
    ensures forall i :: 0 <= i < |cs| ==> EndOf(cs[i]).len == |Abs(EndOf(cs[i]))| + EntriesTaken(cs, i + 1)
    ensures (forall i :: 0 <= i < |cs| ==> !TakesEntry(cs[i])) ==> forall i :: 0 <= i < |cs| ==> EndOf(cs[i]).len == |Abs(EndOf(cs[i]))|
  {
    hide SoloCall, Quiet, Ordered, InPlace, Abs, TakesEntry, Built, Row, LenStays, Joins, EntriesTaken;
    BuiltInPlace(ts, TopBefore(cs[0]));
    BuiltCounts(ts);
    forall i | 0 <= i < |cs|
      ensures EndOf(cs[i]).len == |Abs(EndOf(cs[i]))| + EntriesTaken(cs, i + 1)
      ensures (forall j :: 0 <= j < |cs| ==> !TakesEntry(cs[j])) ==> EntriesTaken(cs, i + 1) == 0
    {
      ExcessGrows(cs, i);
      if forall j :: 0 <= j < |cs| ==> !TakesEntry(cs[j]) { NoneTaken(cs, i + 1); }
    }
  }

  lemma {:induction false} NoneTaken(cs: seq<Call>, n: nat)
    requires History(cs) && n <= |cs| && forall i :: 0 <= i < |cs| ==> !TakesEntry(cs[i])
    ensures EntriesTaken(cs, n) == 0
  {
    hide Undisturbed, Joins, TakesEntry;
    if n > 0 { NoneTaken(cs, n - 1); }
  }

  /** The same on a converted list, which brings its `len` and its `max_height` along. */
  lemma {:induction false} LenConverted(list: SeqList.SkipList, cs: seq<Call>)
    requires list.Valid() && History(cs) && LenStays(cs) && cs != []
    requires StartOf(cs[0]) == Bridge.Converted(list) && TopBefore(cs[0]) == list.maxHeight
    ensures forall i :: 0 <= i < |cs| ==> EndOf(cs[i]).len == |Abs(EndOf(cs[i]))| + EntriesTaken(cs, i + 1)
  {
    hide Undisturbed, Abs, TakesEntry, Built, Row, LenStays, Joins, EntriesTaken, Bridge.Converted, Quiet, Clean, Full;
    Bridge.ConvertedIsBuilt(list);
    LenExact(Bridge.ToTowers(list.spine), cs);
  }
}
