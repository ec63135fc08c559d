/**
  Obstruction freedom of the lock-free list: in whatever reachable state the other threads have stopped,
  a thread that runs alone from there finishes its call.
 */
module Progress {
  import opened Common
  import opened SyncState
  import opened SyncExec
  import opened SyncInv
  import opened SyncActions
  import opened SyncTheorems
  import opened SyncRefine

  // ------------------------------------------------------------------ registers that are up to date

  /** The recorded predecessor at level i is untagged and still points to the recorded successor. */
  ghost predicate Firm(sh: Shared, r: Local, i: nat) {
    i < |r.prev| && !Tagged(sh, r.prev[i].0, i) && PtrIs(sh, r.prev[i].0, i, r.prev[i].1)
  }

  ghost predicate Firmly(sh: Shared, r: Local, low: nat) {
    forall i :: low <= i < |r.prev| ==> Firm(sh, r, i)
  }

  /** A search stands on an untagged node, and what it has read of it is current. */
  ghost predicate Steady(sh: Shared, r: Local) {
    match r.pc
    case FLoad(lv, curr) => !Tagged(sh, curr, lv)
    case FTag(lv, curr, next) => !Tagged(sh, curr, lv) && PtrIs(sh, curr, lv, Some(next))
    case FNext(lv, curr, next) => !Tagged(sh, curr, lv) && PtrIs(sh, curr, lv, Some(next))
    case FCas(lv, curr, next, _) => !Tagged(sh, curr, lv) && PtrIs(sh, curr, lv, Some(next))
    case FSub(lv, curr, _, nn) => !Tagged(sh, curr, lv) && PtrIs(sh, curr, lv, nn)
    case FRetire(lv, curr, _, nn) => !Tagged(sh, curr, lv) && PtrIs(sh, curr, lv, nn)
    case _ => true
  }

  /** All that a search has recorded so far is current. */
  ghost predicate FreshFind(sh: Shared, r: Local) {
    match r.pc
    case FInit(i) => forall j :: 0 <= j < i ==> Firm(sh, r, j)
    case FStart => Firmly(sh, r, 0)
    case FFinal => Firmly(sh, r, 0)
    case FCheck(_) => Firmly(sh, r, 0)
    case FLoad(lv, _) => Steady(sh, r) && Firmly(sh, r, lv + 1)
    case FTag(lv, _, _) => Steady(sh, r) && Firmly(sh, r, lv + 1)
    case FNext(lv, _, _) => Steady(sh, r) && Firmly(sh, r, lv + 1)
    case FCas(lv, _, _, _) => Steady(sh, r) && Firmly(sh, r, lv + 1)
    case FSub(lv, _, _, _) => Steady(sh, r) && Firmly(sh, r, lv + 1)
    case FRetire(lv, _, _, _) => Steady(sh, r) && Firmly(sh, r, lv + 1)
    case _ => true
  }

  /** The new node's word at the level being linked is as it was read. */
  ghost predicate OwnIs(sh: Shared, r: Local, cn: Ptr) {
    r.newNode.Some? && LoadWord(sh, r.newNode.value, r.start) == Some(Word(cn, false))
  }

  ghost predicate NewRemoved(sh: Shared, r: Local) {
    r.newNode.Some? && r.newNode.value < |sh.heap| && sh.heap[r.newNode.value].removed
  }

  /** No compare-exchange of `link_nodes` will fail for what has been read. */
  ghost predicate FreshLink(sh: Shared, r: Local) {
    match r.pc
    case Create => Firmly(sh, r, 0)
    case ILen => Firmly(sh, r, 0)
    case LRemoved(cn) => Firmly(sh, r, r.start) && (NewRemoved(sh, r) || OwnIs(sh, r, cn))
    case LGuard(cn) => Firmly(sh, r, r.start) && (!NewRemoved(sh, r) || OwnIs(sh, r, cn))
    case LOwn(cn) => Firmly(sh, r, r.start) && OwnIs(sh, r, cn)
    case LUnref => false
    case _ => Firmly(sh, r, r.start)
  }

  // ------------------------------------------------------------------ the measure

  datatype Measure = Measure(unlinked: nat, live: nat, stage: nat, stale: nat, level: nat, behind: nat, rank: nat)

  ghost predicate Less(a: Measure, b: Measure) {
    || a.unlinked < b.unlinked
    || (a.unlinked == b.unlinked && a.live < b.live)
    || (a.unlinked == b.unlinked && a.live == b.live && LessInside(a, b))
  }

  ghost predicate LessInside(a: Measure, b: Measure) {
    || a.stage < b.stage
    || (a.stage == b.stage && a.stale < b.stale)
    || (a.stage == b.stage && a.stale == b.stale && a.level < b.level)
    || (a.stage == b.stage && a.stale == b.stale && a.level == b.level && a.behind < b.behind)
    || (a.stage == b.stage && a.stale == b.stale && a.level == b.level && a.behind == b.behind && a.rank < b.rank)
  }

  /** 1 while an `insert` may still link its node at the bottom. */
  function Unlinked(r: Local): nat {
    if r.pc.Ret? || r.pc.Done? || r.pc.Fault? then 0
    else if InInsert(r.pc) && r.pc != Create && r.pc != ILen then (if r.start == 0 then 1 else 0)
    else if r.caller == InsertFirst then 1
    else if r.caller == InsertRetry && r.start == 0 then 1
    else 0
  }

  /** The lowest level whose recorded neighbours the caller of a search is going to use. */
  function Low(r: Local): nat {
    if r.caller == InsertRetry then r.start else 0
  }

  ghost function Stage(sh: Shared, r: Local): nat {
    if InFind(r.pc) then
      (if r.caller == LinkCleanup || r.caller == RemoveCleanup || r.caller == ClosestCall then 1
       else if Inserting(r) && !FreshFind(sh, r) then 12 else 7)
    else if r.pc.SLoad? || r.pc.SCas? then (if Inserting(r) && !Firmly(sh, r, Low(r)) then 10 else 5)
    else if InRemoval(r.pc) then 8
    else if r.pc.LEnd? then 2
    else if InInsert(r.pc) then (if FreshLink(sh, r) then 3 else 9)
    else if r.pc.GetLen? || r.pc.FirstLen? || r.pc.NextStale? then 13
    else 0
  }

  /** How many nodes of a chain follow n. */
  ghost function Behind(c: seq<NodeId>, n: NodeId): nat {
    if c == [] then 0 else if c[0] == n then |c| - 1 else Behind(c[1..], n)
  }

  /** A search: the level, then the way left on it, then the place in the code. */
  ghost function FindMeasure(sh: Shared, r: Local): (nat, nat, nat, nat) {
    var stale := if Steady(sh, r) then 0 else 1;
    match r.pc
    case FInit(i) => (2, if i < HEIGHT then HEIGHT - i else 0, 0, 0)
    case FStart => (0, HEIGHT + 1, 0, 0)
    case FLoad(lv, curr) => (stale, lv + 1, if stale == 0 then Behind(Chain(sh, lv), curr) else 0, 6)
    case FTag(lv, curr, _) => (stale, lv + 1, if stale == 0 then Behind(Chain(sh, lv), curr) else 0, 5)
    case FNext(lv, curr, _) => (stale, lv + 1, if stale == 0 then Behind(Chain(sh, lv), curr) else 0, 4)
    case FCas(lv, curr, _, _) => (stale, lv + 1, if stale == 0 then Behind(Chain(sh, lv), curr) else 0, 3)
    case FSub(lv, curr, _, _) => (stale, lv + 1, if stale == 0 then Behind(Chain(sh, lv), curr) else 0, 8)
    case FRetire(lv, curr, _, _) => (stale, lv + 1, if stale == 0 then Behind(Chain(sh, lv), curr) else 0, 7)
    case FFinal => (0, 0, 0, 2)
    case _ => (0, 0, 0, 1)
  }

  ghost function OtherMeasure(sh: Shared, r: Local): (nat, nat) {
    match r.pc
    case SLoad => (2, 0)
    case SCas(_) => (1, 0)
    case TLoad(lv) => (100 + lv, 2)
    case TCas(lv, p) => (100 + lv, if PtrIs(sh, r.target, lv, p) then 0 else 1)
    case ULoad(lv) => (lv + 2, 2)
    case UCas(lv, _) => (lv + 2, 1)
    case USub(lv) => (lv + 2, 0)
    case URetire => (1, 1)
    case ULen => (1, 0)
    case Create => (200, 0)
    case ILen => (100, 0)
    case LLoad => (Rest(r), 7)
    case LRemoved(_) => (Rest(r), 6)
    case LGuard(_) => (Rest(r), 5)
    case LOwn(_) => (Rest(r), 4)
    case LRef => (Rest(r), 3)
    case LCas => (Rest(r), 2)
    case LUnref => (Rest(r), 1)
    case _ => (0, 0)
  }

  /** The levels that `link_nodes` has left. */
  function Rest(r: Local): nat {
    if r.start <= HEIGHT then HEIGHT - r.start else 0
  }

  ghost function Left(sh: Shared, r: Local): Measure {
    var f := if InFind(r.pc) then FindMeasure(sh, r) else (0, OtherMeasure(sh, r).0, 0, OtherMeasure(sh, r).1);
    Measure(Unlinked(r), |Live(sh)|, Stage(sh, r), f.0, f.1, f.2, f.3)
  }

  // ------------------------------------------------------------------ what a step leaves alone

  /** The word of n at level i is as before. */
  ghost predicate WordKept(sh: Shared, sh': Shared, n: NodeId, i: nat) {
    n < |sh.heap| && i < |sh.heap[n].levels| ==>
      n < |sh'.heap| && i < |sh'.heap[n].levels| && sh'.heap[n].levels[i] == sh.heap[n].levels[i]
  }

  lemma FirmlyCarry(sh: Shared, sh': Shared, r: Local, r': Local, low: nat)
    requires Firmly(sh, r, low) && |r'.prev| == |r.prev|
    requires forall i :: low <= i < |r.prev| ==> r'.prev[i] == r.prev[i] && WordKept(sh, sh', r.prev[i].0, i)
    ensures Firmly(sh', r', low)
  {
    forall i | low <= i < |r'.prev| ensures Firm(sh', r', i) {
      assert Firm(sh, r, i) && WordKept(sh, sh', r.prev[i].0, i);
    }
  }

  lemma LevelFalls(sh: Shared, n: NodeId, i: nat, j: nat)
    requires SharedInv(sh) && EverLinked(sh, n, i) && !Tagged(sh, n, i) && j <= i
    ensures !Tagged(sh, n, j)
  {
    assert NodeOk(sh, n);
  }

  lemma {:induction false} BehindAt(c: seq<NodeId>, j: nat)
    requires NoDup(c) && j < |c|
    ensures Behind(c, c[j]) == |c| - 1 - j
  {
    if j > 0 {
      assert c[0] != c[j];
      BehindAt(c[1..], j - 1);
    }
  }

  /** Moving on along a chain leaves less behind. */
  lemma {:induction false} BehindNext(sh: Shared, lv: nat, curr: NodeId, next: NodeId)
    requires SharedInv(sh) && lv < HEIGHT && EverLinked(sh, curr, lv) && !Tagged(sh, curr, lv) && PtrIs(sh, curr, lv, Some(next))
    ensures Behind(Chain(sh, lv), next) < Behind(Chain(sh, lv), curr)
  {
    hide NodeOk, Sorted, LenOk, LogsOk, Behind;
    var j := StillLinked(sh, curr, lv);
    assert ChainOk(sh, lv);
    BehindAt(sh.chain[lv], j);
    BehindAt(sh.chain[lv], j + 1);
  }

  /** So does dropping the next node. */
  lemma {:induction false} BehindDrop(sh: Shared, sh': Shared, lv: nat, curr: NodeId, next: NodeId)
    requires SharedInv(sh) && SharedInv(sh') && lv < HEIGHT && EverLinked(sh, curr, lv) && !Tagged(sh, curr, lv)
    requires Dropped(sh, sh', lv, next) && curr != next && EverLinked(sh', curr, lv) && !Tagged(sh', curr, lv)
    requires PtrIs(sh, curr, lv, Some(next))
    ensures Behind(Chain(sh', lv), curr) < Behind(Chain(sh, lv), curr)
  {
    hide NodeOk, Sorted, LenOk, LogsOk, Behind;
    var j := StillLinked(sh, curr, lv);
    var k := StillLinked(sh', curr, lv);
    assert ChainOk(sh, lv) && ChainOk(sh', lv);
    var c, c' := sh.chain[lv], sh'.chain[lv];
    BehindAt(c, j);
    BehindAt(c', k);
    var a := DropFromShape(c, next);
    assert c[j + 1] == next;
    assert a == j + 1;
    assert c'[j] == curr;
  }
}
