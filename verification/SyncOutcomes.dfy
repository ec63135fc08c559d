/**
  How calls of `insert` and `remove` end in any run: exactly when an insertion is lost, exactly when a removal
  that has found its key answers nothing, and at which instant inside the call the others take effect.
 */
module SyncOutcomes {
  import opened Common
  import opened SyncState
  import opened SyncExec
  import opened SyncInv
  import opened SyncStable
  import opened SyncSteps
  import opened SyncStart
  import opened SyncTheorems
  import opened SyncRefine
  import opened SyncLost
  import opened SyncCalls
  import opened SyncSearches

  // ------------------------------------------------------------------ insert

  /** t is about to link at the bottom, and the successor recorded there stands in the way. */
  ghost predicate StuckAt(s: State, t: Tid) {
    t < |s.th| && s.th[t].pc.LRemoved? && s.th[t].start == 0 && Blocked(s.sh, s.th[t])
  }

  /** With this step t links its node at the bottom, and the map gains the key, which it lacked. */
  ghost predicate LinksAt(s: State, s': State, t: Tid, key: int, val: int) {
    && t < |s.th| && t < |s'.th| && s.th[t].pc.LCas? && s.th[t].start == 0 && s'.th[t].start == 1
    && key !in Abs(s.sh) && Abs(s'.sh) == Abs(s.sh)[key := val]
  }

  /** `insert` has not created its node yet. */
  predicate Early(r: Local) {
    r.caller == InsertFirst && (InFind(r.pc) || InRemoval(r.pc) || r.pc.Create?)
  }

  /** `insert` is past `link_nodes`, or at its end. */
  predicate Sealed(r: Local) {
    r.pc.LEnd? || r.pc.Ret? || (r.caller == LinkCleanup && InFind(r.pc))
  }

  /** Where `insert` can be, given whether it has been stuck and whether it has linked its node. */
  ghost predicate Inserted(s: State, t: Tid, key: int, val: int, stuck: bool, linked: bool) {
    && t < |s.th| && Doing(InsertOp(key, val), s.th[t])
    && (Early(s.th[t]) <==> !s.th[t].newNode.Some?)
    && (Early(s.th[t]) ==> s.th[t].start == 0)
    && (linked <==> s.th[t].start >= 1)
    && (linked ==> s.th[t].newNode.Some? && EverLinked(s.sh, s.th[t].newNode.value, 0))
    && (stuck ==> s.th[t].start == 0 && !Early(s.th[t]) && (StuckAt(s, t) || s.th[t].pc.LGuard? || Sealed(s.th[t])))
    && (StuckAt(s, t) ==> stuck)
    && (s.th[t].start == 0 && (s.th[t].pc.LGuard? || Sealed(s.th[t])) ==> stuck)
    && (s.th[t].start == 0 && Sealed(s.th[t]) ==> s.th[t].newNode.Some? && Orphan(s, s.th[t].newNode.value))
  }

  /** How the registers of an `insert` move. */
  ghost predicate InsertFlow(r: Local, r': Local) {
    && (Early(r) ==> r' == r || Created(r, r') || (!r.pc.Create? && Early(r') && r'.newNode == r.newNode && r'.start == r.start))
    && (!Early(r) ==>
          && !Early(r') && r'.newNode == r.newNode
          && (r'.start == r.start || (r.pc.LCas? && r'.start == r.start + 1))
          && (Sealed(r) ==> Sealed(r'))
          && (Sealed(r') ==> Sealed(r) || r.start >= 1 || r.pc.LGuard?)
          && (r'.pc.LGuard? ==> r.pc.LRemoved? || r' == r))
  }

  predicate Created(r: Local, r': Local) {
    r.pc.Create? && r'.newNode.Some? && r'.start == 0 && r'.pc.ILen? && r'.caller == InsertFirst
  }

  /** A search that settles a successor goes on, for the same caller. */
  predicate DecideFlow(r: Local, r': Local) {
    && r'.caller == r.caller && r'.target == r.target && r'.newNode == r.newNode && r'.start == r.start
    && (InFind(r'.pc) || r'.pc.Fault?)
  }

  lemma SettleFlow(sh: Shared, r: Local, lv: nat, curr: NodeId, next: Ptr)
    requires r.caller != NextCall
    ensures DecideFlow(r, Decide(sh, r, lv, curr, next))
  {
  }

  lemma FindFlow(sh: Shared, t: Tid, r: Local, c: Choice)
    requires InFind(r.pc) && (Inserting(r) || r.caller == LinkCleanup) && !ExecFind(sh, t, r, c).1.pc.Fault? && !ExecFind(sh, t, r, c).1.pc.Panic?
    ensures InsertFlow(r, ExecFind(sh, t, r, c).1)
  {
    hide ActUnlink, ActSub, ActRetire, SearchClosest, Decide;
    forall s: Shared, lv: nat, curr: NodeId, next: Ptr ensures DecideFlow(r, Decide(s, r, lv, curr, next)) {
      SettleFlow(s, r, lv, curr, next);
    }
  }

  lemma RemovalFlow(sh: Shared, t: Tid, r: Local)
    requires InRemoval(r.pc) && Inserting(r)
    ensures InUnlink(r.pc) && !ExecUnlink(sh, t, r).1.pc.Fault? && !ExecUnlink(sh, t, r).1.pc.Panic? ==> InsertFlow(r, ExecUnlink(sh, t, r).1)
    ensures !InUnlink(r.pc) && !ExecRemove(sh, t, r).1.pc.Fault? && !ExecRemove(sh, t, r).1.pc.Panic? ==> InsertFlow(r, ExecRemove(sh, t, r).1)
  {
    hide ActUnlink, ActSub, ActRetire, ActTag, ActRemove;
  }

  /** What the invariant says at the program counters of `link_nodes`, as far as the registers depend on it. */
  lemma AtLink(sh: Shared, t: Tid, r: Local)
    requires SharedInv(sh) && InInsert(r.pc) && InsertInv(sh, t, r)
    ensures Inserting(r) && (if r.pc.Create? then r.caller == InsertFirst else r.newNode.Some? && r.newNode.value < |sh.heap|)
    ensures r.start == 0 && (r.pc.LLoad? || r.pc.LRemoved?) ==>
              0 < sh.heap[r.newNode.value].height && !sh.heap[r.newNode.value].removed
  {
    hide SharedInv, Guarded, OwnSet;
    if r.pc.LLoad? || r.pc.LRemoved? {
      NewShape(sh, t, r, Fresh);
      if r.start == 0 { NotYetRemoved(sh, t, r.newNode.value, Fresh); }
    }
  }

  lemma LinkFlow(sh: Shared, t: Tid, r: Local, c: Choice)
    requires SharedInv(sh) && InInsert(r.pc) && InsertInv(sh, t, r) && !ExecInsert(sh, t, r, c).1.pc.Fault?
    ensures InsertFlow(r, ExecInsert(sh, t, r, c).1)
  {
    hide SharedInv, InsertInv, ActCreate, ExecLink;
    AtLink(sh, t, r);
    if !r.pc.Create? { LevelFlow(sh, r, r.newNode.value, sh.heap[r.newNode.value]); }
  }

  lemma LevelFlow(sh: Shared, r: Local, n: NodeId, node: Node)
    requires LoadNode(sh, n) == Some(node) && InInsert(r.pc) && !r.pc.Create? && Inserting(r)
    requires r.start == 0 && (r.pc.LLoad? || r.pc.LRemoved?) ==> 0 < node.height && !node.removed
    requires !ExecLink(sh, r, n, node).1.pc.Fault?
    ensures InsertFlow(r, ExecLink(sh, r, n, node).1)
  {
    hide ActCount, ActReserve, ActUnreserve, ActLink, StoreWord;
  }

  lemma InsertFlows(s: State, s': State, t: Tid, c: Choice, key: int, val: int)
    requires Inv(s) && Inv(s') && Steps(s, s', t, c) && Doing(InsertOp(key, val), s.th[t]) && !s.th[t].pc.Ret? && !s.th[t].pc.Done?
    ensures InsertFlow(s.th[t], s'.th[t])
  {
    hide SharedInv, RegsOk, FindInv, RemovalInv, InsertInv, InsertFlow, ExecFind, ExecRemove, ExecUnlink, ExecInsert;
    var r := s.th[t];
    assert LocalInv(s.sh, t, r) && LocalInv(s'.sh, t, s'.th[t]);
    if s'.th[t].pc.Fault? { FaultIsAstray(s, s', t, c); }
    if InFind(r.pc) { FindFlow(s.sh, t, r, c); }
    else if InRemoval(r.pc) { RemovalCallers(s.sh, t, r); RemovalFlow(s.sh, t, r); }
    else if InInsert(r.pc) { LinkFlow(s.sh, t, r, c); }
    else { CallCallers(s.sh, t, r); }
  }

  /** A successful compare-exchange at the bottom adds the key and value of the call. */
  lemma LinkAdds(s: State, s': State, t: Tid, c: Choice)
    requires Inv(s) && Inv(s') && Steps(s, s', t, c)
    requires s.th[t].pc.LCas? && s.th[t].start == 0 && s'.th[t].start == 1
    ensures LinksAt(s, s', t, s.th[t].key, s.th[t].val)
    ensures s.th[t].newNode.Some? && EverLinked(s'.sh, s.th[t].newNode.value, 0)
  {
    hide SharedInv, RegsOk, Mono, Kept, Live, Abs, Building, EverLinked, NoNewRemovals, Exec, Guarded, OwnSet;
    var r := s.th[t];
    assert LocalInv(s.sh, t, r) && LocalInv(s'.sh, t, s'.th[t]);
    StepNext(s, s', t, c);
    LinkCasNext(s.sh, t, r, c);
    var n := r.newNode.value;
    NewShape(s.sh, t, r, Reserved);
    NewShape(s'.sh, t, s'.th[t], Fresh);
    NotYetRemoved(s.sh, t, n, Reserved);
    NotLinkedYet(s.sh, t, n);
    LinkedBelow(s'.sh, t, n);
    RemovedChange(s.sh, t, r, c);
    LiveStep(s, s', t, c);
    OrphanRemoved(s.sh, n);
    LinkedLive(s.sh, s'.sh, t, r, n);
    AbsInsert(s.sh, s'.sh, n);
  }

  lemma LinkCasNext(sh: Shared, t: Tid, r: Local, c: Choice)
    requires r.pc.LCas? && r.start == 0 && Exec(sh, t, r, c).1.start == 1
    ensures Exec(sh, t, r, c).1 == r.(start := 1, pc := LLoad)
  {
    hide ExecFind, ExecRemove, ExecUnlink, ExecCall;
  }

  lemma NotLinkedYet(sh: Shared, t: Tid, n: NodeId)
    requires Building(sh, t, n, 0, Reserved) && 0 < sh.heap[n].height
    ensures !EverLinked(sh, n, 0) && n != HEAD
  {
  }

  lemma LinkedBelow(sh: Shared, t: Tid, n: NodeId)
    requires Building(sh, t, n, 1, Fresh)
    ensures EverLinked(sh, n, 0)
  {
  }

  /** A step of t itself. */
  lemma OwnInsertStep(s: State, s': State, t: Tid, c: Choice, key: int, val: int, stuck: bool, linked: bool)
    requires Inv(s) && Inv(s') && Steps(s, s', t, c) && Inserted(s, t, key, val, stuck, linked)
    requires !s.th[t].pc.Ret? && !s.th[t].pc.Done?
    ensures Inserted(s', t, key, val, stuck || StuckAt(s', t), linked || LinksAt(s, s', t, key, val))
  {
    hide SharedInv, LocalInv, Exec, Orphan, EverLinked, Mono, Blocked, Abs;
    var r, r' := s.th[t], s'.th[t];
    DoingStep(InsertOp(key, val), s, s', t, c);
    InsertFlows(s, s', t, c, key, val);
    StepNext(s, s', t, c);
    if r.start == 0 && (r.pc.LRemoved? || r.pc.LGuard?) { GivesUp(s, s', t, c); }
    if r.start == 0 && r.pc.LGuard? { EndsOrphaned(s, s', t, c); }
    if r.start == 0 && r'.start == 1 { LinkAdds(s, s', t, c); }
    if r.start >= 1 { EverLinkedMono(s.sh, s'.sh, r.newNode.value, 0); }
    if r.start == 0 && Sealed(r) { OrphanStep(s, s', t, c, r.newNode.value); }
  }

  /** A step of another thread. */
  lemma OtherInsertStep(s: State, s': State, t: Tid, key: int, val: int, stuck: bool, linked: bool)
    requires Inv(s) && Inv(s') && Next(s, s') && Inserted(s, t, key, val, stuck, linked)
    requires t < |s'.th| && s'.th[t] == s.th[t]
    ensures Inserted(s', t, key, val, stuck || StuckAt(s', t), linked || LinksAt(s, s', t, key, val))
  {
    hide SharedInv, Exec, Orphan, EverLinked, Mono, Abs, RegsOk, FindInv, InsertInv, RemovalInv, CallInv, Blocked;
    var r := s.th[t];
    assert LocalInv(s.sh, t, r);
    NextMono(s, s');
    BlockedSame(s.sh, s'.sh, t, r);
    if r.start >= 1 { EverLinkedMono(s.sh, s'.sh, r.newNode.value, 0); }
    if r.start == 0 && Sealed(r) { OrphanNext(s, s', r.newNode.value); }
  }

  lemma BlockedSame(sh: Shared, sh': Shared, t: Tid, r: Local)
    requires RegsOk(sh, t, r) && Mono(sh, sh')
    ensures Blocked(sh', r) <==> Blocked(sh, r)
  {
    hide Mono;
    assert PrevOk(sh, r, 0);
    if r.prev[0].1.Some? { NodeKept(sh, sh', r.prev[0].1.value); }
  }

  lemma OrphanNext(s: State, s': State, n: NodeId)
    requires Inv(s) && Inv(s') && Next(s, s') && Orphan(s, n)
    ensures Orphan(s', n)
  {
    hide Inv, Exec, EverLinked;
    if s' != s.(th := s.th + [IDLE]) {
      var t: Tid, c :| Steps(s, s', t, c);
      OrphanStep(s, s', t, c, n);
    }
  }

  /** In the call of t that began after state b, t has been stuck by state e. */
  ghost predicate Stuck(tr: seq<State>, t: Tid, b: nat, e: nat) {
    exists m :: b < m <= e < |tr| && StuckAt(tr[m], t)
  }

  /** In the call of t that began after state b, t has linked its node by state e. */
  ghost predicate Links(tr: seq<State>, t: Tid, key: int, val: int, b: nat, e: nat) {
    exists m :: b < m < e < |tr| && LinksAt(tr[m], tr[m + 1], t, key, val)
  }

  /** What one more step adds to the record of the call. */
  lemma InsertRecord(tr: seq<State>, t: Tid, key: int, val: int, b: nat, e: nat)
    requires b + 1 < e < |tr|
    ensures Stuck(tr, t, b, e) <==> Stuck(tr, t, b, e - 1) || StuckAt(tr[e], t)
    ensures Links(tr, t, key, val, b, e) <==> Links(tr, t, key, val, b, e - 1) || LinksAt(tr[e - 1], tr[e], t, key, val)
  {
    hide StuckAt, LinksAt;
  }

  lemma InsertMoves(s: State, s': State, t: Tid, key: int, val: int, stuck: bool, linked: bool)
    requires Inv(s) && Inv(s') && Next(s, s') && Inserted(s, t, key, val, stuck, linked) && !s.th[t].pc.Done?
    requires t < |s'.th| && !s'.th[t].pc.Done?
    ensures Inserted(s', t, key, val, stuck || StuckAt(s', t), linked || LinksAt(s, s', t, key, val))
  {
    hide Inv, Exec, StuckAt, LinksAt, Inserted;
    if exists c :: Steps(s, s', t, c) {
      var c :| Steps(s, s', t, c);
      if s.th[t].pc.Ret? { RetLeaves(s.sh, t, s.th[t], c); }
      OwnInsertStep(s, s', t, c, key, val, stuck, linked);
    } else {
      OthersMove(s, s', t);
      OtherInsertStep(s, s', t, key, val, stuck, linked);
    }
  }

  lemma {:induction false} InsertSoFar(tr: seq<State>, t: Tid, key: int, val: int, b: nat, e: nat)
    requires Run(tr) && InCall(tr, t, InsertOp(key, val), b, e)
    ensures Inserted(tr[e], t, key, val, Stuck(tr, t, b, e), Links(tr, t, key, val, b, e))
    decreases e
  {
    hide Run, Inv, Stuck, Links, StuckAt, LinksAt, Inserted, Begins;
    RunInv(tr, e - 1);
    RunInv(tr, e);
    if e == b + 1 {
      Begun(tr[b], tr[e], t, InsertOp(key, val));
      EarlyAtFirst(tr[e], t, key, val, tr[b].sh);
      NothingYet(tr, t, key, val, b);
    } else {
      InsertSoFar(tr, t, key, val, b, e - 1);
      hide InCall;
      InsertRecord(tr, t, key, val, b, e);
      RunNext(tr, e - 1);
      Inside(tr, t, InsertOp(key, val), b, e);
      InsertMoves(tr[e - 1], tr[e], t, key, val, Stuck(tr, t, b, e - 1), Links(tr, t, key, val, b, e - 1));
    }
  }

  lemma NothingYet(tr: seq<State>, t: Tid, key: int, val: int, b: nat)
    requires b + 1 < |tr|
    ensures Stuck(tr, t, b, b + 1) <==> StuckAt(tr[b + 1], t)
    ensures !Links(tr, t, key, val, b, b + 1)
  {
    hide StuckAt, LinksAt;
  }

  lemma EarlyAtFirst(s: State, t: Tid, key: int, val: int, sh: Shared)
    requires t < |s.th| && s.th[t] == Invoke(sh, InsertOp(key, val))
    ensures Inserted(s, t, key, val, false, false) && !StuckAt(s, t)
  {
  }

  /**
    What an `insert` has done when it is about to return, in every run. Its node is lost, never to be linked
    and for ever counted, if and only if at some point of the call the successor recorded at the bottom stood
    in the way. Otherwise, and only then, at some step of the call the map lacked the key and gained it with
    the value of the call.
   */
  lemma InsertOutcome(tr: seq<State>, t: Tid, key: int, val: int, b: nat, e: nat)
    requires Run(tr) && InCall(tr, t, InsertOp(key, val), b, e) && tr[e].th[t].pc.Ret?
    ensures var n := tr[e].th[t].newNode;
            && n.Some? && (Orphan(tr[e], n.value) <==> Stuck(tr, t, b, e))
            && (Links(tr, t, key, val, b, e) <==> !Stuck(tr, t, b, e))
            && (Stuck(tr, t, b, e) ==> |Live(tr[e].sh)| < tr[e].sh.len)
  {
    hide Inv, Exec, Stuck, Links, Initial, Next, EverLinked, Live;
    InsertSoFar(tr, t, key, val, b, e);
    RunInv(tr, e);
    if Stuck(tr, t, b, e) { LenExceeds(tr[e], tr[e].th[t].newNode.value); }
  }

  // ------------------------------------------------------------------ remove and Entry::remove

  /** `set_removed` is about to fail: the target is removed already, or its count is not the one that was read. */
  ghost predicate Hindered(sh: Shared, r: Local) {
    && r.target < |sh.heap|
    && (sh.heap[r.target].removed || (r.pc.SCas? && sh.heap[r.target].refs != r.pc.refs))
  }

  predicate Trying(r: Local) {
    r.pc.SLoad? || r.pc.SCas?
  }

  ghost predicate FoiledAt(s: State, s': State, t: Tid) {
    Moves(s, s', t) && Trying(s.th[t]) && Hindered(s.sh, s.th[t])
  }

  /** With this step t takes node n out of the map, which had the key with the value of n. */
  ghost predicate TakesAt(s: State, s': State, t: Tid, n: NodeId, key: int) {
    && Moves(s, s', t) && s.th[t].pc.SCas? && s.th[t].target == n && n < |s.sh.heap|
    && key in Abs(s.sh) && s.sh.heap[n].key == key && s.sh.heap[n].val == Abs(s.sh)[key]
    && Abs(s'.sh) == Abs(s.sh) - {key}
  }

  /** The search of `remove`. */
  predicate Looking(r: Local) {
    InFind(r.pc) && r.caller == RemoveFirst
  }

  /** The target has been removed by this call. */
  predicate Late(r: Local) {
    || (InRemoval(r.pc) && !Trying(r))
    || (InFind(r.pc) && r.caller == RemoveCleanup)
    || r.pc == Ret(Some(r.target))
  }

  /** The operations that take a node out and hand it to their caller. */
  predicate TakesOut(op: Op) {
    op.RemoveOp? || op.EntryRemoveOp?
  }

  /** The call is about the node or the key that it is about. */
  ghost predicate About(sh: Shared, r: Local, key: int) {
    if r.caller == EntryCall then r.target < |sh.heap| && sh.heap[r.target].key == key else r.key == key
  }

  /**
    Where `remove` or `Entry::remove` can be, given whether its search has missed, whether `set_removed` has failed
    and whether the call has taken its target out of the map.
   */
  ghost predicate Withdrawn(s: State, t: Tid, op: Op, key: int, missed: bool, foiled: bool, taken: bool) {
    && t < |s.th| && TakesOut(op) && Doing(op, s.th[t]) && About(s.sh, s.th[t], key)
    && (Looking(s.th[t]) || Trying(s.th[t]) || Late(s.th[t]) ==> !missed && !foiled)
    && (Late(s.th[t]) ==> taken)
    && (s.th[t].pc.Ret? ==> Late(s.th[t]) || (s.th[t].pc.answer == None && (missed || foiled)))
  }

  ghost predicate RemoveFlow(sh: Shared, r: Local, r': Local) {
    && (Looking(r) ==> Looking(r') || r'.pc.SLoad? || r'.pc == Ret(None))
    && (Late(r) ==> Late(r') && r'.target == r.target)
    && (Trying(r) ==>
          if Hindered(sh, r) then r'.pc == Ret(None)
          else r'.target == r.target && if r.pc.SLoad? then r'.pc.SCas? else Late(r'))
    && (!Looking(r) && !Late(r) && !Trying(r) ==> r' == r)
  }

  lemma LookFlow(sh: Shared, t: Tid, r: Local, c: Choice)
    requires InFind(r.pc) && (r.caller == RemoveFirst || r.caller == RemoveCleanup)
    requires !ExecFind(sh, t, r, c).1.pc.Fault? && !ExecFind(sh, t, r, c).1.pc.Panic?
    ensures var r' := ExecFind(sh, t, r, c).1;
            && (Looking(r) ==> Looking(r') || r'.pc.SLoad? || r'.pc == Ret(None))
            && (Late(r) ==> Late(r') && r'.target == r.target)
  {
    hide ActUnlink, ActSub, ActRetire, SearchClosest, Decide;
    forall s: Shared, lv: nat, curr: NodeId, next: Ptr ensures DecideFlow(r, Decide(s, r, lv, curr, next)) {
      SettleFlow(s, r, lv, curr, next);
    }
  }

  lemma FindOnly(sh: Shared, r: Local, r': Local)
    requires InFind(r.pc) && (r.caller == RemoveFirst || r.caller == RemoveCleanup)
    requires (Looking(r) ==> Looking(r') || r'.pc.SLoad? || r'.pc == Ret(None)) && (Late(r) ==> Late(r') && r'.target == r.target)
    ensures RemoveFlow(sh, r, r')
  {
  }

  lemma TakeFlow(sh: Shared, t: Tid, r: Local)
    requires InRemoval(r.pc) && (r.caller == RemoveFirst || r.caller == EntryCall) && (InUnlink(r.pc) ==> r.caller == RemoveFirst)
    ensures InUnlink(r.pc) && !ExecUnlink(sh, t, r).1.pc.Fault? && !ExecUnlink(sh, t, r).1.pc.Panic? ==> RemoveFlow(sh, r, ExecUnlink(sh, t, r).1)
    ensures !InUnlink(r.pc) && !ExecRemove(sh, t, r).1.pc.Fault? && !ExecRemove(sh, t, r).1.pc.Panic? ==> RemoveFlow(sh, r, ExecRemove(sh, t, r).1)
  {
    hide ActUnlink, ActSub, ActRetire, ActTag, ActRemove;
  }

  lemma RemoveFlows(s: State, s': State, t: Tid, c: Choice, op: Op)
    requires Inv(s) && Inv(s') && Steps(s, s', t, c) && TakesOut(op) && Doing(op, s.th[t])
    requires !s.th[t].pc.Ret? && !s.th[t].pc.Done?
    ensures RemoveFlow(s.sh, s.th[t], s'.th[t])
  {
    hide SharedInv, RegsOk, FindInv, RemovalInv, InsertInv, RemoveFlow, ExecFind, ExecRemove, ExecUnlink, ExecInsert;
    var r := s.th[t];
    assert LocalInv(s.sh, t, r) && LocalInv(s'.sh, t, s'.th[t]);
    if s'.th[t].pc.Fault? { FaultIsAstray(s, s', t, c); }
    if InFind(r.pc) { FindCallers(s.sh, t, r); LookFlow(s.sh, t, r, c); FindOnly(s.sh, r, s'.th[t]); }
    else if InRemoval(r.pc) { RemovalCallers(s.sh, t, r); TakeFlow(s.sh, t, r); }
    else if InInsert(r.pc) { InsertCallers(s.sh, t, r); }
    else { CallCallers(s.sh, t, r); }
  }

  /** A `set_removed` that nothing hinders takes the key of its target out of the map. */
  lemma TakeWorks(s: State, s': State, t: Tid, c: Choice)
    requires Inv(s) && Inv(s') && Steps(s, s', t, c) && s.th[t].pc.SCas? && !Hindered(s.sh, s.th[t])
    ensures s.th[t].target < |s.sh.heap| && TakesAt(s, s', t, s.th[t].target, s.sh.heap[s.th[t].target].key)
    ensures s.th[t].caller != EntryCall ==> s.sh.heap[s.th[t].target].key == s.th[t].key
  {
    hide SharedInv, RegsOk, FindInv, InsertInv, CallInv, Mono, Kept, Live, Abs, Visited, ActRemove, ExecFind, ExecUnlink, ExecInsert;
    var r := s.th[t];
    assert LocalInv(s.sh, t, r);
    StepNext(s, s', t, c);
    TargetShape(s.sh, r.target);
    TargetThere(s.sh, r.target);
    assert s'.sh == ActRemove(s.sh, t, r.target);
    RemoveLive(s.sh, t, r.target);
    AbsAt(s.sh, r.target);
    AbsRemove(s.sh, s'.sh, r.target);
  }

  lemma TargetThere(sh: Shared, n: NodeId)
    requires Visited(sh, n, 0)
    ensures n < |sh.heap|
  {
  }

  lemma AboutKept(sh: Shared, r: Local, sh': Shared, r': Local, key: int)
    requires Mono(sh, sh') && About(sh, r, key) && (r'.caller == EntryCall <==> r.caller == EntryCall)
    requires if r.caller == EntryCall then r'.target == r.target else r'.key == r.key
    ensures About(sh', r', key)
  {
    hide Mono;
    if r.caller == EntryCall { NodeKept(sh, sh', r.target); }
  }

  lemma SameTarget(op: Op, r: Local, r': Local)
    requires TakesOut(op) && Doing(op, r) && Doing(op, r')
    ensures r'.caller == EntryCall <==> r.caller == EntryCall
    ensures r.caller == EntryCall ==> r'.target == r.target
    ensures r.caller != EntryCall ==> r'.key == r.key
  {
  }

  /** A step of t itself. */
  lemma OwnRemoveStep(s: State, s': State, t: Tid, c: Choice, op: Op, key: int, missed: bool, foiled: bool, taken: bool)
    requires Inv(s) && Inv(s') && Steps(s, s', t, c) && Withdrawn(s, t, op, key, missed, foiled, taken)
    requires !s.th[t].pc.Ret? && !s.th[t].pc.Done?
    ensures Withdrawn(s', t, op, key, missed || MissesAt(s, s', t, RemoveFirst), foiled || FoiledAt(s, s', t),
                      (taken && s'.th[t].target == s.th[t].target) || TakesAt(s, s', t, s'.th[t].target, key))
  {
    hide SharedInv, RegsOk, FindInv, RemovalInv, InsertInv, CallInv, Exec, Mono, Abs, Hindered, MissesAt;
    var r, r' := s.th[t], s'.th[t];
    assert LocalInv(s.sh, t, r) && LocalInv(s'.sh, t, r');
    StepNext(s, s', t, c);
    DoingStep(op, s, s', t, c);
    SameTarget(op, r, r');
    AboutKept(s.sh, r, s'.sh, r', key);
    RemoveFlows(s, s', t, c, op);
    if r'.pc.Fault? { FaultIsAstray(s, s', t, c); }
    if Looking(r) { SearchMoves(s, s', t, c); } else { NotLooking(s, s', t); }
    if InRemoval(r.pc) { RemovalCallers(s.sh, t, r); }
    if r.pc.SCas? && !Hindered(s.sh, r) { TakeWorks(s, s', t, c); }
  }

  lemma NotLooking(s: State, s': State, t: Tid)
    requires t < |s.th| && !Looking(s.th[t])
    ensures !MissesAt(s, s', t, RemoveFirst)
  {
  }

  /** In the call of t that began after state b, `set_removed` has failed by state e. */
  ghost predicate Foiled(tr: seq<State>, t: Tid, b: nat, e: nat) {
    exists m :: b < m < e < |tr| && FoiledAt(tr[m], tr[m + 1], t)
  }

  ghost predicate Takes(tr: seq<State>, t: Tid, n: NodeId, key: int, b: nat, e: nat) {
    exists m :: b < m < e < |tr| && TakesAt(tr[m], tr[m + 1], t, n, key)
  }

  /** What one more step adds to the record of the call. */
  lemma RemoveRecord(tr: seq<State>, t: Tid, n: NodeId, key: int, b: nat, e: nat)
    requires b + 1 < e < |tr|
    ensures Foiled(tr, t, b, e) <==> Foiled(tr, t, b, e - 1) || FoiledAt(tr[e - 1], tr[e], t)
    ensures Takes(tr, t, n, key, b, e) <==> Takes(tr, t, n, key, b, e - 1) || TakesAt(tr[e - 1], tr[e], t, n, key)
  {
    hide FoiledAt, TakesAt;
  }

  lemma RemoveMoves(s: State, s': State, t: Tid, op: Op, key: int, missed: bool, foiled: bool, taken: bool)
    requires Inv(s) && Inv(s') && Next(s, s') && Withdrawn(s, t, op, key, missed, foiled, taken) && !s.th[t].pc.Done?
    requires t < |s'.th| && !s'.th[t].pc.Done?
    ensures Withdrawn(s', t, op, key, missed || MissesAt(s, s', t, RemoveFirst), foiled || FoiledAt(s, s', t),
                      (taken && s'.th[t].target == s.th[t].target) || TakesAt(s, s', t, s'.th[t].target, key))
  {
    hide Inv, Exec, MissesAt, FoiledAt, TakesAt, Withdrawn, Mono;
    if exists c :: Steps(s, s', t, c) {
      var c :| Steps(s, s', t, c);
      if s.th[t].pc.Ret? { RetLeaves(s.sh, t, s.th[t], c); }
      OwnRemoveStep(s, s', t, c, op, key, missed, foiled, taken);
    } else {
      OthersMove(s, s', t);
      NoMove(s, s', t);
      NextMono(s, s');
      StillWithdrawn(s, s', t, op, key, missed, foiled, taken);
    }
  }

  lemma StillWithdrawn(s: State, s': State, t: Tid, op: Op, key: int, missed: bool, foiled: bool, taken: bool)
    requires Withdrawn(s, t, op, key, missed, foiled, taken) && t < |s'.th| && s'.th[t] == s.th[t] && Mono(s.sh, s'.sh)
    ensures Withdrawn(s', t, op, key, missed, foiled, taken)
    ensures !FoiledAt(s, s', t) && forall n, k :: !TakesAt(s, s', t, n, k)
  {
    hide Mono, Abs;
    AboutKept(s.sh, s.th[t], s'.sh, s'.th[t], key);
  }

  lemma {:induction false} RemoveSoFar(tr: seq<State>, t: Tid, op: Op, key: int, b: nat, e: nat)
    requires Run(tr) && InCall(tr, t, op, b, e) && TakesOut(op) && OpIsAbout(tr[b].sh, op, key)
    ensures Withdrawn(tr[e], t, op, key, Misses(tr, t, RemoveFirst, b, e), Foiled(tr, t, b, e),
                      Takes(tr, t, tr[e].th[t].target, key, b, e))
    decreases e
  {
    hide Run, InCall, Inv, Misses, Foiled, Takes, MissesAt, FoiledAt, TakesAt, Withdrawn, SearchKnown, OpIsAbout;
    Inside(tr, t, op, b, e);
    if e == b + 1 {
      RemoveStarts(tr, t, op, key, b);
    } else {
      RemoveSoFar(tr, t, op, key, b, e - 1);
      SearchSoFar(tr, t, op, b, e - 1);
      MissRecord(tr, t, RemoveFirst, b, e);
      RunInv(tr, e - 1);
      RunInv(tr, e);
      RunNext(tr, e - 1);
      var s, s' := tr[e - 1], tr[e];
      var n, n' := s.th[t].target, s'.th[t].target;
      var taken := Takes(tr, t, n, key, b, e - 1);
      RemoveRecord(tr, t, n', key, b, e);
      RemoveMoves(s, s', t, op, key, Misses(tr, t, RemoveFirst, b, e - 1), Foiled(tr, t, b, e - 1), taken);
      MoreTaken(s', t, op, key, Misses(tr, t, RemoveFirst, b, e), Foiled(tr, t, b, e), (taken && n' == n) || TakesAt(s, s', t, n', key),
                Takes(tr, t, n', key, b, e));
    }
  }

  /** The key that the call is about: its own, or that of the entry's node. */
  ghost predicate OpIsAbout(sh: Shared, op: Op, key: int) {
    match op
    case RemoveOp(k) => k == key
    case EntryRemoveOp(n) => n < |sh.heap| && sh.heap[n].key == key
    case _ => false
  }

  lemma RemoveStarts(tr: seq<State>, t: Tid, op: Op, key: int, b: nat)
    requires InCall(tr, t, op, b, b + 1) && TakesOut(op) && OpIsAbout(tr[b].sh, op, key)
    ensures t < |tr[b + 1].th|
    ensures Withdrawn(tr[b + 1], t, op, key, Misses(tr, t, RemoveFirst, b, b + 1), Foiled(tr, t, b, b + 1),
                      Takes(tr, t, tr[b + 1].th[t].target, key, b, b + 1))
  {
    hide Begins;
    Begun(tr[b], tr[b + 1], t, op);
    NoMissYet(tr, t, RemoveFirst, b);
  }

  lemma MoreTaken(s: State, t: Tid, op: Op, key: int, missed: bool, foiled: bool, taken: bool, taken': bool)
    requires Withdrawn(s, t, op, key, missed, foiled, taken) && (taken ==> taken')
    ensures Withdrawn(s, t, op, key, missed, foiled, taken')
  {
  }

  /**
    What a `remove` has done when it is about to return, in every run. It answers nothing if and only if its
    search missed, or `set_removed` met a target that was removed already, or whose count had changed since it
    was read. Any other answer is the node that it took out of the map itself at a step of the call, when the
    map had the key with the value of that node.
   */
  lemma RemoveOutcome(tr: seq<State>, t: Tid, key: int, b: nat, e: nat)
    requires Run(tr) && InCall(tr, t, RemoveOp(key), b, e) && tr[e].th[t].pc.Ret?
    ensures var a := tr[e].th[t].pc.answer;
            && (a == None <==> Misses(tr, t, RemoveFirst, b, e) || Foiled(tr, t, b, e))
            && (a.Some? ==> Takes(tr, t, a.value, key, b, e))
  {
    hide Run, Inv, Misses, Foiled, Takes;
    RemoveSoFar(tr, t, RemoveOp(key), key, b, e);
  }

  /**
    The same of `Entry::remove`: it answers nothing if and only if `set_removed` failed in one of these ways, and
    otherwise with the node of the entry, which it took out of the map itself.
   */
  lemma EntryOutcome(tr: seq<State>, t: Tid, n: NodeId, b: nat, e: nat)
    requires Run(tr) && InCall(tr, t, EntryRemoveOp(n), b, e) && tr[e].th[t].pc.Ret?
    ensures var a := tr[e].th[t].pc.answer;
            && n < |tr[b].sh.heap| && (a == None <==> Foiled(tr, t, b, e))
            && (a.Some? ==> a == Some(n) && Takes(tr, t, n, tr[b].sh.heap[n].key, b, e))
  {
    hide Run, Inv, Misses, Foiled, Takes;
    RunInv(tr, b);
    EntryThere(tr, t, n, b, e);
    RemoveSoFar(tr, t, EntryRemoveOp(n), tr[b].sh.heap[n].key, b, e);
    NoSearch(tr, t, n, b, e);
  }

  lemma EntryThere(tr: seq<State>, t: Tid, n: NodeId, b: nat, e: nat)
    requires InCall(tr, t, EntryRemoveOp(n), b, e) && Inv(tr[b])
    ensures n < |tr[b].sh.heap|
  {
    hide LocalInv, NodeOk, ChainOk, Sorted, LenOk, Begins;
    Begun(tr[b], tr[b + 1], t, EntryRemoveOp(n));
  }

  /** `Entry::remove` does not search. */
  lemma {:induction false} NoSearch(tr: seq<State>, t: Tid, n: NodeId, b: nat, e: nat)
    requires Run(tr) && InCall(tr, t, EntryRemoveOp(n), b, e)
    ensures t < |tr[e].th| && Doing(EntryRemoveOp(n), tr[e].th[t]) && !Misses(tr, t, RemoveFirst, b, e)
    decreases e
  {
    hide Run, InCall, Inv, Exec, Missed;
    Inside(tr, t, EntryRemoveOp(n), b, e);
    if e == b + 1 {
      EntryStarts(tr, t, n, b);
    } else {
      NoSearch(tr, t, n, b, e - 1);
      RunInv(tr, e - 1);
      RunNext(tr, e - 1);
      var s, s' := tr[e - 1], tr[e];
      if exists c :: Steps(s, s', t, c) {
        var c :| Steps(s, s', t, c);
        if s.th[t].pc.Ret? { RetLeaves(s.sh, t, s.th[t], c); }
        DoingStep(EntryRemoveOp(n), s, s', t, c);
      } else {
        OthersMove(s, s', t);
      }
    }
  }

  lemma EntryStarts(tr: seq<State>, t: Tid, n: NodeId, b: nat)
    requires InCall(tr, t, EntryRemoveOp(n), b, b + 1)
    ensures t < |tr[b + 1].th| && Doing(EntryRemoveOp(n), tr[b + 1].th[t])
  {
    hide Begins;
    Begun(tr[b], tr[b + 1], t, EntryRemoveOp(n));
  }

  /** When only the count has changed, the map still has the key that `remove` then answers nothing for. */
  lemma CountChanged(s: State, s': State, t: Tid, c: Choice)
    requires Inv(s) && Steps(s, s', t, c) && s.th[t].pc.SCas? && s.th[t].caller == RemoveFirst
    requires Hindered(s.sh, s.th[t]) && !s.sh.heap[s.th[t].target].removed
    ensures s'.sh == s.sh && s'.th[t].pc == Ret(None) && s.th[t].key in Abs(s.sh)
  {
    hide SharedInv, RegsOk, FindInv, InsertInv, CallInv, Live, Abs, Visited, ExecFind, ExecUnlink, ExecInsert;
    var r := s.th[t];
    assert LocalInv(s.sh, t, r);
    RemoveLive(s.sh, t, r.target);
    AbsAt(s.sh, r.target);
  }
}
