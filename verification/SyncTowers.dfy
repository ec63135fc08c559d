/**
  How far `insert` links its tower in any run, and when `insert` and `remove` search once more before they
  return: exactly when there may be levels left to clean up.
 */
module SyncTowers {
  import opened Common
  import opened SyncState
  import opened SyncExec
  import opened SyncInv
  import opened SyncStable
  import opened SyncSteps
  import opened SyncStart
  import opened SyncTheorems
  import opened SyncRefine
  import opened SyncLost
  import opened SyncCalls
  import opened SyncSearches
  import opened SyncOutcomes
  import L = SyncLen

  // ------------------------------------------------------------------ levels that become linked

  /** No level of any node is linked for the first time, except perhaps level i of n. */
  ghost predicate NoneNew(sh: Shared, sh': Shared, n: Ptr, i: nat) {
    forall m: NodeId, j: nat :: EverLinked(sh', m, j) ==> EverLinked(sh, m, j) || (n == Some(m) && i == j)
  }

  lemma NoneNewFind(sh: Shared, t: Tid, r: Local, c: Choice)
    requires FindInv(sh, t, r) && InFind(r.pc)
    ensures NoneNew(sh, ExecFind(sh, t, r, c).0, None, 0)
  {
    hide Context, CurrOk, Examine, Decide, AfterFind, InsertAfter, DropFrom;
  }

  /** A pointer read at level i leads to a node that has been linked there. */
  lemma PointsToLinked(sh: Shared, p: NodeId, i: nat, n: NodeId)
    requires SharedInv(sh) && LoadWord(sh, p, i) == Some(Word(Some(n), false))
    ensures EverLinked(sh, n, i)
  {
    assert NodeOk(sh, p);
  }

  lemma NoneNewUnlink(sh: Shared, t: Tid, r: Local)
    requires SharedInv(sh) && RemovalInv(sh, t, r) && InUnlink(r.pc)
    ensures NoneNew(sh, ExecUnlink(sh, t, r).0, None, 0)
  {
    hide SharedInv, AfterUnlink, NextUnlink, InsertAfter, DropFrom, Tagging;
    if r.pc.UCas? && r.pc.lv < |r.prev| && LoadWord(sh, r.prev[r.pc.lv].0, r.pc.lv) == Some(Word(Some(r.target), false)) {
      PointsToLinked(sh, r.prev[r.pc.lv].0, r.pc.lv, r.target);
    }
  }

  lemma NoneNewRemove(sh: Shared, t: Tid, r: Local)
    requires InRemoval(r.pc) && !InUnlink(r.pc)
    ensures NoneNew(sh, ExecRemove(sh, t, r).0, None, 0)
  {
    hide AfterTagged, AfterLost, AfterTagError;
  }

  lemma NoneNewInsert(sh: Shared, t: Tid, r: Local, c: Choice)
    requires SharedInv(sh) && InInsert(r.pc)
    ensures NoneNew(sh, ExecInsert(sh, t, r, c).0, if r.pc.LCas? then r.newNode else None, r.start)
  {
    Sizes(sh);
    hide SharedInv, InsertAfter, DropFrom, Search;
  }

  lemma NoneNewCall(sh: Shared, r: Local, c: Choice)
    ensures NoneNew(sh, ExecCall(sh, r, c).0, None, 0)
  {
    hide Invoke;
  }

  /** Only the compare-exchange of `link_nodes` links a level for the first time, and only that of its own node. */
  lemma NoneNewStep(s: State, s': State, t: Tid, c: Choice)
    requires Inv(s) && Steps(s, s', t, c)
    ensures NoneNew(s.sh, s'.sh, if s.th[t].pc.LCas? then s.th[t].newNode else None, s.th[t].start)
  {
    hide SharedInv, RegsOk, FindInv, RemovalInv, InsertInv, CallInv, EverLinked, ExecFind, ExecRemove, ExecUnlink, ExecInsert, ExecCall;
    var sh, r := s.sh, s.th[t];
    assert LocalInv(sh, t, r);
    if InFind(r.pc) { NoneNewFind(sh, t, r, c); }
    else if InUnlink(r.pc) { NoneNewUnlink(sh, t, r); }
    else if InRemoval(r.pc) { NoneNewRemove(sh, t, r); }
    else if InInsert(r.pc) { NoneNewInsert(sh, t, r, c); }
    else { NoneNewCall(sh, r, c); }
  }

  // ------------------------------------------------------------------ where linking stops

  /** All levels of n have been linked. */
  ghost predicate Complete(sh: Shared, n: NodeId) {
    n < |sh.heap| && forall i :: 0 <= i < |sh.heap[n].levels| ==> EverLinked(sh, n, i)
  }

  /** The node that t has created has been removed by somebody. */
  ghost predicate NewGone(sh: Shared, r: Local) {
    r.newNode.Some? && r.newNode.value < |sh.heap| && sh.heap[r.newNode.value].removed
  }

  /** The successor recorded for the level to be linked has a key that is not beyond the new one. */
  ghost predicate InTheWay(sh: Shared, r: Local) {
    && r.start < |r.prev| && r.prev[r.start].1.Some? && r.prev[r.start].1.value < |sh.heap|
    && sh.heap[r.prev[r.start].1.value].key <= r.key
  }

  /** Above the bottom, nothing refers to the new node any more. */
  ghost predicate Unreferenced(sh: Shared, r: Local) {
    r.start > 0 && r.newNode.Some? && r.newNode.value < |sh.heap| && sh.heap[r.newNode.value].refs == 0
  }

  /** `link_nodes` finds a reason to leave the level, and those above it, unlinked. */
  ghost predicate Stopping(sh: Shared, r: Local) {
    || (r.pc.LRemoved? && NewGone(sh, r))
    || (r.pc.LGuard? && !NewGone(sh, r) && InTheWay(sh, r))
    || (r.pc.LRef? && Unreferenced(sh, r))
  }

  ghost predicate StopsAt(s: State, s': State, t: Tid) {
    Moves(s, s', t) && Stopping(s.sh, s.th[t])
  }

  /** Past `link_nodes`: everything below `start` is linked, and `start` itself is not. */
  ghost predicate Ended(sh: Shared, t: Tid, r: Local) {
    && r.newNode.Some? && r.newNode.value < |sh.heap| && r.newNode.value < |sh.shadow| && sh.shadow[r.newNode.value].owner == t
    && if r.start < |sh.heap[r.newNode.value].levels| then !EverLinked(sh, r.newNode.value, r.start)
       else Complete(sh, r.newNode.value)
  }

  /** Where `insert` can be, given whether it has stopped linking. */
  ghost predicate Raised(s: State, t: Tid, key: int, val: int, stopped: bool) {
    && t < |s.th| && Doing(InsertOp(key, val), s.th[t])
    && (s.th[t].pc.LGuard? ==> InTheWay(s.sh, s.th[t]))
    && (!Sealed(s.th[t]) ==> !stopped)
    && (Sealed(s.th[t]) ==> Ended(s.sh, t, s.th[t]) && (stopped <==> s.th[t].start < |s.sh.heap[s.th[t].newNode.value].levels|))
  }

  /** How `link_nodes` comes to its end. */
  ghost predicate SealFlow(sh: Shared, r: Local, r': Local) {
    && (Sealed(r) ==> Sealed(r') && r'.newNode == r.newNode && r'.start == r.start)
    && (Stopping(sh, r) ==> Sealed(r'))
    && (!Sealed(r) && Sealed(r') ==>
          r' == r.(pc := LEnd) && (Stopping(sh, r) || (r.pc.LLoad? && r.newNode.Some? && r.newNode.value < |sh.heap|
                                                       && sh.heap[r.newNode.value].height <= r.start)))
    && (r'.pc.LGuard? ==> r' == r || (r'.prev == r.prev && r'.start == r.start && r'.key == r.key && InTheWay(sh, r)))
  }

  lemma SealFind(sh: Shared, t: Tid, r: Local, c: Choice)
    requires InFind(r.pc) && (Inserting(r) || r.caller == LinkCleanup)
    requires !ExecFind(sh, t, r, c).1.pc.Fault? && !ExecFind(sh, t, r, c).1.pc.Panic?
    ensures SealFlow(sh, r, ExecFind(sh, t, r, c).1)
  {
    hide ActUnlink, ActSub, ActRetire, SearchClosest, Decide;
    forall s: Shared, lv: nat, curr: NodeId, next: Ptr ensures DecideFlow(r, Decide(s, r, lv, curr, next)) {
      SettleFlow(s, r, lv, curr, next);
    }
  }

  lemma SealRemoval(sh: Shared, t: Tid, r: Local)
    requires InRemoval(r.pc) && Inserting(r)
    ensures InUnlink(r.pc) && !ExecUnlink(sh, t, r).1.pc.Fault? && !ExecUnlink(sh, t, r).1.pc.Panic? ==> SealFlow(sh, r, ExecUnlink(sh, t, r).1)
    ensures !InUnlink(r.pc) && !ExecRemove(sh, t, r).1.pc.Fault? && !ExecRemove(sh, t, r).1.pc.Panic? ==> SealFlow(sh, r, ExecRemove(sh, t, r).1)
  {
    hide ActUnlink, ActSub, ActRetire, ActTag, ActRemove;
  }

  lemma SealLink(sh: Shared, t: Tid, r: Local, c: Choice)
    requires InInsert(r.pc) && Inserting(r) && (r.pc.LGuard? ==> InTheWay(sh, r)) && !ExecInsert(sh, t, r, c).1.pc.Fault?
    requires r.pc.LRemoved? ==> r.newNode.Some? && r.newNode.value < |sh.heap| && sh.heap[r.newNode.value].key == r.key
    ensures SealFlow(sh, r, ExecInsert(sh, t, r, c).1)
  {
    hide ActCreate, ActCount, ActReserve, ActUnreserve, ActLink, StoreWord;
  }

  lemma SealFlows(s: State, s': State, t: Tid, c: Choice, key: int, val: int)
    requires Inv(s) && Inv(s') && Steps(s, s', t, c) && Doing(InsertOp(key, val), s.th[t]) && !s.th[t].pc.Ret? && !s.th[t].pc.Done?
    requires s.th[t].pc.LGuard? ==> InTheWay(s.sh, s.th[t])
    ensures SealFlow(s.sh, s.th[t], s'.th[t])
  {
    hide SharedInv, RegsOk, FindInv, RemovalInv, InsertInv, SealFlow, ExecFind, ExecRemove, ExecUnlink, ExecInsert, InTheWay;
    var r := s.th[t];
    assert LocalInv(s.sh, t, r) && LocalInv(s'.sh, t, s'.th[t]);
    if s'.th[t].pc.Fault? { FaultIsAstray(s, s', t, c); }
    if InFind(r.pc) { SealFind(s.sh, t, r, c); }
    else if InRemoval(r.pc) { RemovalCallers(s.sh, t, r); SealRemoval(s.sh, t, r); }
    else if InInsert(r.pc) {
      InsertCallers(s.sh, t, r);
      NewKey(s.sh, t, r);
      SealLink(s.sh, t, r, c);
    }
    else { CallCallers(s.sh, t, r); }
  }

  lemma NewKey(sh: Shared, t: Tid, r: Local)
    requires InsertInv(sh, t, r) && InInsert(r.pc)
    ensures r.pc.LRemoved? ==> r.newNode.Some? && r.newNode.value < |sh.heap| && sh.heap[r.newNode.value].key == r.key
  {
    hide Guarded, OwnSet;
  }

  /** `link_nodes` ends where the invariant says it has come to. */
  lemma EndsHere(sh: Shared, t: Tid, r: Local)
    requires SharedInv(sh) && InsertInv(sh, t, r) && (r.pc.LLoad? || r.pc.LRemoved? || r.pc.LGuard? || r.pc.LRef?)
    requires Stopping(sh, r) || (r.pc.LLoad? && r.newNode.Some? && r.newNode.value < |sh.heap| && sh.heap[r.newNode.value].height <= r.start)
    ensures Ended(sh, t, r.(pc := LEnd)) && (Stopping(sh, r) <==> r.start < |sh.heap[r.newNode.value].levels|)
  {
    hide SharedInv, Guarded, OwnSet;
    NewShape(sh, t, r, Fresh);
  }

  lemma EndedKept(s: State, s': State, u: Tid, c: Choice, t: Tid, r: Local, r': Local)
    requires Inv(s) && Steps(s, s', u, c) && Ended(s.sh, t, r) && r'.newNode == r.newNode && r'.start == r.start
    requires u == t ==> !s.th[u].pc.LCas?
    ensures Ended(s'.sh, t, r') && |s'.sh.heap[r'.newNode.value].levels| == |s.sh.heap[r.newNode.value].levels|
  {
    hide SharedInv, RegsOk, FindInv, RemovalInv, InsertInv, CallInv, Exec, EverLinked, Mono;
    var n := r.newNode.value;
    assert LocalInv(s.sh, u, s.th[u]);
    StepNext(s, s', u, c);
    NodeKept(s.sh, s'.sh, n);
    NoneNewStep(s, s', u, c);
    if s.th[u].pc.LCas? && s.th[u].newNode == Some(n) { OwnerOf(s.sh, u, s.th[u]); }
    if r.start >= |s.sh.heap[n].levels| { CompleteKept(s.sh, s'.sh, n); }
  }

  lemma CompleteKept(sh: Shared, sh': Shared, n: NodeId)
    requires Mono(sh, sh') && Complete(sh, n)
    ensures Complete(sh', n)
  {
    hide Mono;
    NodeKept(sh, sh', n);
    forall i | 0 <= i < |sh'.heap[n].levels| ensures EverLinked(sh', n, i) { EverLinkedMono(sh, sh', n, i); }
  }

  /** A step of t itself. */
  lemma OwnRaise(s: State, s': State, t: Tid, c: Choice, key: int, val: int, stopped: bool)
    requires Inv(s) && Inv(s') && Steps(s, s', t, c) && Raised(s, t, key, val, stopped) && !s.th[t].pc.Ret? && !s.th[t].pc.Done?
    ensures Raised(s', t, key, val, stopped || StopsAt(s, s', t))
  {
    hide SharedInv, RegsOk, FindInv, RemovalInv, InsertInv, CallInv, Exec, InTheWay, Ended, Stopping;
    var r, r' := s.th[t], s'.th[t];
    assert LocalInv(s.sh, t, r);
    DoingStep(InsertOp(key, val), s, s', t, c);
    SealFlows(s, s', t, c, key, val);
    StepNext(s, s', t, c);
    if Stopping(s.sh, r) { StoppingWhere(s.sh, r); }
    if Sealed(r) {
      EndedKept(s, s', t, c, t, r, r');
    } else if Sealed(r') {
      EndsHere(s.sh, t, r);
      EndedKept(s, s', t, c, t, r.(pc := LEnd), r');
    }
    if r'.pc.LGuard? { WayKept(s.sh, s'.sh, r, r'); }
  }

  lemma StoppingWhere(sh: Shared, r: Local)
    requires Stopping(sh, r)
    ensures r.pc.LRemoved? || r.pc.LGuard? || r.pc.LRef?
  {
  }

  lemma WayKept(sh: Shared, sh': Shared, r: Local, r': Local)
    requires Mono(sh, sh') && InTheWay(sh, r) && r'.prev == r.prev && r'.start == r.start && r'.key == r.key
    ensures InTheWay(sh', r')
  {
    NodeKept(sh, sh', r.prev[r.start].1.value);
  }

  lemma RaiseMoves(s: State, s': State, t: Tid, key: int, val: int, stopped: bool)
    requires Inv(s) && Inv(s') && Next(s, s') && Raised(s, t, key, val, stopped) && !s.th[t].pc.Done?
    requires t < |s'.th| && !s'.th[t].pc.Done?
    ensures Raised(s', t, key, val, stopped || StopsAt(s, s', t))
  {
    hide Inv, Exec, Raised, Stopping;
    if exists c :: Steps(s, s', t, c) {
      var c :| Steps(s, s', t, c);
      if s.th[t].pc.Ret? { RetLeaves(s.sh, t, s.th[t], c); }
      OwnRaise(s, s', t, c, key, val, stopped);
    } else {
      OthersMove(s, s', t);
      OtherRaise(s, s', t, key, val, stopped);
    }
  }

  /** A step of another thread. */
  lemma OtherRaise(s: State, s': State, t: Tid, key: int, val: int, stopped: bool)
    requires Inv(s) && Inv(s') && Next(s, s') && Raised(s, t, key, val, stopped) && t < |s'.th| && s'.th[t] == s.th[t]
    requires !exists c :: Steps(s, s', t, c)
    ensures Raised(s', t, key, val, stopped)
  {
    hide Inv, Exec, InTheWay, Ended, Mono;
    var r := s.th[t];
    NextMono(s, s');
    if r.pc.LGuard? { WayKept(s.sh, s'.sh, r, r); }
    if Sealed(r) {
      if s' == s.(th := s.th + [IDLE]) {
      } else {
        var u: Tid, c :| Steps(s, s', u, c);
        EndedKept(s, s', u, c, t, r, r);
      }
    }
  }

  /** In the call of t that began after state b, t has stopped linking by state e. */
  ghost predicate Stops(tr: seq<State>, t: Tid, b: nat, e: nat) {
    exists m :: b < m < e < |tr| && StopsAt(tr[m], tr[m + 1], t)
  }

  lemma StopRecord(tr: seq<State>, t: Tid, b: nat, e: nat)
    requires b + 1 < e < |tr|
    ensures Stops(tr, t, b, e) <==> Stops(tr, t, b, e - 1) || StopsAt(tr[e - 1], tr[e], t)
  {
    hide StopsAt;
    var m := e - 1;
    if StopsAt(tr[m], tr[m + 1], t) { assert Stops(tr, t, b, e); }
  }

  lemma {:induction false} RaisedSoFar(tr: seq<State>, t: Tid, key: int, val: int, b: nat, e: nat)
    requires Run(tr) && InCall(tr, t, InsertOp(key, val), b, e)
    ensures Raised(tr[e], t, key, val, Stops(tr, t, b, e))
    decreases e
  {
    hide Run, Inv, Stops, StopsAt, Raised, InCall;
    Inside(tr, t, InsertOp(key, val), b, e);
    if e == b + 1 {
      RaiseStarts(tr, t, key, val, b);
    } else {
      RaisedSoFar(tr, t, key, val, b, e - 1);
      StopRecord(tr, t, b, e);
      RunInv(tr, e - 1);
      RunInv(tr, e);
      RunNext(tr, e - 1);
      RaiseMoves(tr[e - 1], tr[e], t, key, val, Stops(tr, t, b, e - 1));
    }
  }

  lemma RaiseStarts(tr: seq<State>, t: Tid, key: int, val: int, b: nat)
    requires InCall(tr, t, InsertOp(key, val), b, b + 1)
    ensures Raised(tr[b + 1], t, key, val, Stops(tr, t, b, b + 1))
  {
    hide Begins;
    Begun(tr[b], tr[b + 1], t, InsertOp(key, val));
  }

  /**
    How far an `insert` has linked its tower when it is about to return, in every run: at all its levels, if and
    only if the call did not stop. It stops at a level, and leaves it and those above it alone, if it finds its
    node removed there, or the recorded successor in the way of a node that is not removed, or, above the bottom,
    no reference to the node left. A compare-exchange that fails is not a reason.
   */
  lemma TowerOutcome(tr: seq<State>, t: Tid, key: int, val: int, b: nat, e: nat)
    requires Run(tr) && InCall(tr, t, InsertOp(key, val), b, e) && tr[e].th[t].pc.Ret?
    ensures var n := tr[e].th[t].newNode; n.Some? && (Complete(tr[e].sh, n.value) <==> !Stops(tr, t, b, e))
  {
    hide Run, Inv, Stops, InCall, Complete;
    Inside(tr, t, InsertOp(key, val), b, e);
    RaisedSoFar(tr, t, key, val, b, e);
    EndedMeans(tr[e].sh, t, tr[e].th[t]);
  }

  lemma EndedMeans(sh: Shared, t: Tid, r: Local)
    requires Ended(sh, t, r)
    ensures Complete(sh, r.newNode.value) <==> |sh.heap[r.newNode.value].levels| <= r.start
  {
    hide EverLinked;
  }

  // ------------------------------------------------------------------ searching once more

  /** With this step the search of t, for the given caller, settles the bottom level. */
  ghost predicate SweepsAt(s: State, s': State, t: Tid, who: Caller) {
    SettlesAt(s, s', t) && s.th[t].caller == who
  }

  /** With this step `insert`, done with linking, finds that its node has been removed. */
  ghost predicate FindsGone(s: State, s': State, t: Tid) {
    Moves(s, s', t) && s.th[t].pc.LEnd? && NewGone(s.sh, s.th[t])
  }

  /** With this step an operation finds that it has left something to be cleaned up. */
  ghost predicate OwesSweep(s: State, s': State, t: Tid, who: Caller) {
    if who == LinkCleanup then FindsGone(s, s', t) else who == RemoveCleanup && L.BeatenAt(s, s', t)
  }

  /** Where an operation can be, given whether it owes a search and whether it has made it. */
  predicate Tidy(r: Local, who: Caller, owed: bool, swept: bool) {
    && (r.caller == who <==> owed) && (swept ==> owed)
    && (r.caller == who ==> InFind(r.pc) || r.pc.Ret?)
    && (owed && (r.pc.FFinal? || r.pc.FCheck? || r.pc.Ret?) ==> swept)
  }

  predicate Sweeps(op: Op, who: Caller) {
    if who == LinkCleanup then op.InsertOp? else who == RemoveCleanup && op.RemoveOp?
  }

  /** How the search of a call moves, or ends. */
  lemma TidyFind(sh: Shared, t: Tid, r: Local, c: Choice)
    requires InFind(r.pc) && r.caller != NextCall && r.caller != ClosestCall
    ensures var r' := ExecFind(sh, t, r, c).1;
            r'.caller == r.caller
            && (r'.pc.Ret? ==> r.pc.FFinal? || r.pc.FCheck?)
            && (r.caller == LinkCleanup || r.caller == RemoveCleanup ==> InFind(r'.pc) || r'.pc.Ret? || r'.pc.Fault? || r'.pc.Panic?)
  {
    hide ActUnlink, ActSub, ActRetire, SearchClosest, Decide;
    forall s: Shared, lv: nat, curr: NodeId, next: Ptr ensures DecideFlow(r, Decide(s, r, lv, curr, next)) {
      SettleFlow(s, r, lv, curr, next);
    }
  }

  lemma TidyRemoval(s: State, s': State, t: Tid, c: Choice)
    requires Steps(s, s', t, c) && InRemoval(s.th[t].pc) && !s'.th[t].pc.Fault? && !s'.th[t].pc.Panic?
    requires s.th[t].caller == RemoveFirst || Inserting(s.th[t])
    ensures s'.th[t].caller == s.th[t].caller || s'.th[t].caller == RemoveCleanup
    ensures s.th[t].caller == RemoveFirst ==> (s'.th[t].caller == RemoveCleanup <==> L.BeatenAt(s, s', t))
    ensures s.th[t].caller == RemoveFirst && s'.th[t].caller == RemoveCleanup ==> s'.th[t].pc == FInit(0)
    ensures Inserting(s.th[t]) ==> Inserting(s'.th[t])
  {
    hide ActUnlink, ActSub, ActRetire, ActTag, ActRemove, ActUncount;
  }

  lemma TidyInsert(s: State, s': State, t: Tid, c: Choice)
    requires Steps(s, s', t, c) && InInsert(s.th[t].pc) && Inserting(s.th[t]) && !s'.th[t].pc.Fault?
    ensures s'.th[t].caller == LinkCleanup <==> FindsGone(s, s', t)
    ensures s'.th[t].caller == LinkCleanup ==> s'.th[t].pc == FInit(0)
  {
    hide ActLink, ActReserve, ActUnreserve, ActCreate, ActCount, StoreWord;
  }

  /** Elsewhere nothing is found to be owed. */
  lemma OwesWhere(s: State, s': State, t: Tid, who: Caller)
    requires OwesSweep(s, s', t, who)
    ensures t < |s.th| && if who == LinkCleanup then InInsert(s.th[t].pc) else InRemoval(s.th[t].pc)
  {
  }

  lemma TidyStep(s: State, s': State, t: Tid, c: Choice, op: Op, who: Caller, owed: bool, swept: bool)
    requires Inv(s) && Inv(s') && Steps(s, s', t, c) && Doing(op, s.th[t]) && Sweeps(op, who)
    requires Tidy(s.th[t], who, owed, swept) && !s.th[t].pc.Ret? && !s.th[t].pc.Done?
    ensures Doing(op, s'.th[t])
    ensures Tidy(s'.th[t], who, owed || OwesSweep(s, s', t, who), swept || SweepsAt(s, s', t, who))
  {
    hide SharedInv, RegsOk, FindInv, RemovalInv, InsertInv, ExecFind, ExecRemove, ExecUnlink, ExecInsert, OwesSweep, SettlesAt;
    var r, r' := s.th[t], s'.th[t];
    assert LocalInv(s.sh, t, r) && LocalInv(s'.sh, t, r');
    DoingStep(op, s, s', t, c);
    if r'.pc.Fault? { FaultIsAstray(s, s', t, c); }
    FinalFrom(s, s', t, c);
    if OwesSweep(s, s', t, who) { OwesWhere(s, s', t, who); }
    if InFind(r.pc) { TidyFind(s.sh, t, r, c); SettlesNow(s, s', t); }
    else if InRemoval(r.pc) { RemovalCallers(s.sh, t, r); TidyRemoval(s, s', t, c); OwesIs(s, s', t, who); SettlesNow(s, s', t); }
    else if InInsert(r.pc) { InsertCallers(s.sh, t, r); TidyInsert(s, s', t, c); OwesIs(s, s', t, who); SettlesNow(s, s', t); }
    else { CallCallers(s.sh, t, r); }
  }

  lemma OwesIs(s: State, s': State, t: Tid, who: Caller)
    ensures OwesSweep(s, s', t, who) <==>
              if who == LinkCleanup then FindsGone(s, s', t) else who == RemoveCleanup && L.BeatenAt(s, s', t)
  {
  }

  lemma SettlesNow(s: State, s': State, t: Tid)
    ensures SettlesAt(s, s', t) ==> t < |s.th| && InFind(s.th[t].pc)
  {
  }

  lemma TidyMoves(s: State, s': State, t: Tid, op: Op, who: Caller, owed: bool, swept: bool)
    requires Inv(s) && Inv(s') && Next(s, s') && t < |s.th| && t < |s'.th| && Doing(op, s.th[t]) && Sweeps(op, who)
    requires Tidy(s.th[t], who, owed, swept) && !s.th[t].pc.Done? && !s'.th[t].pc.Done?
    ensures Doing(op, s'.th[t])
    ensures Tidy(s'.th[t], who, owed || OwesSweep(s, s', t, who), swept || SweepsAt(s, s', t, who))
  {
    hide Inv, Exec, Tidy, OwesSweep, SweepsAt, Doing, Sweeps;
    if exists c :: Steps(s, s', t, c) {
      var c :| Steps(s, s', t, c);
      if s.th[t].pc.Ret? { RetLeaves(s.sh, t, s.th[t], c); }
      TidyStep(s, s', t, c, op, who, owed, swept);
    } else {
      OthersMove(s, s', t);
      NotSweeping(s, s', t, who);
    }
  }

  lemma NotSweeping(s: State, s': State, t: Tid, who: Caller)
    requires t < |s.th| && t < |s'.th| && s'.th[t] == s.th[t]
    ensures !OwesSweep(s, s', t, who) && !SweepsAt(s, s', t, who)
  {
  }

  /** In the call of t that began after state b, something to be cleaned up has been found by state e. */
  ghost predicate Owed(tr: seq<State>, t: Tid, who: Caller, b: nat, e: nat) {
    exists m :: b < m < e < |tr| && OwesSweep(tr[m], tr[m + 1], t, who)
  }

  /** In that call, a search for that purpose has settled the bottom level by state e. */
  ghost predicate Swept(tr: seq<State>, t: Tid, who: Caller, b: nat, e: nat) {
    exists m :: b < m < e < |tr| && SweepsAt(tr[m], tr[m + 1], t, who)
  }

  lemma SweepRecord(tr: seq<State>, t: Tid, who: Caller, b: nat, e: nat)
    requires b + 1 < e < |tr|
    ensures Owed(tr, t, who, b, e) <==> Owed(tr, t, who, b, e - 1) || OwesSweep(tr[e - 1], tr[e], t, who)
    ensures Swept(tr, t, who, b, e) <==> Swept(tr, t, who, b, e - 1) || SweepsAt(tr[e - 1], tr[e], t, who)
  {
    hide OwesSweep, SweepsAt;
    var m := e - 1;
    if OwesSweep(tr[m], tr[m + 1], t, who) { assert Owed(tr, t, who, b, e); }
    if SweepsAt(tr[m], tr[m + 1], t, who) { assert Swept(tr, t, who, b, e); }
  }

  lemma {:induction false} TidySoFar(tr: seq<State>, t: Tid, op: Op, who: Caller, b: nat, e: nat)
    requires Run(tr) && InCall(tr, t, op, b, e) && Sweeps(op, who)
    ensures t < |tr[e].th| && Doing(op, tr[e].th[t])
    ensures Tidy(tr[e].th[t], who, Owed(tr, t, who, b, e), Swept(tr, t, who, b, e))
    decreases e
  {
    hide Run, Inv, InCall, Owed, Swept, OwesSweep, SweepsAt, Tidy, Doing, Sweeps;
    Inside(tr, t, op, b, e);
    if e == b + 1 {
      TidyStarts(tr, t, op, who, b);
    } else {
      TidySoFar(tr, t, op, who, b, e - 1);
      SweepRecord(tr, t, who, b, e);
      RunInv(tr, e - 1);
      RunInv(tr, e);
      RunNext(tr, e - 1);
      TidyMoves(tr[e - 1], tr[e], t, op, who, Owed(tr, t, who, b, e - 1), Swept(tr, t, who, b, e - 1));
    }
  }

  lemma TidyStarts(tr: seq<State>, t: Tid, op: Op, who: Caller, b: nat)
    requires InCall(tr, t, op, b, b + 1) && Sweeps(op, who)
    ensures t < |tr[b + 1].th| && Doing(op, tr[b + 1].th[t])
    ensures Tidy(tr[b + 1].th[t], who, Owed(tr, t, who, b, b + 1), Swept(tr, t, who, b, b + 1))
  {
    hide Begins;
    Begun(tr[b], tr[b + 1], t, op);
  }

  /**
    Cleaning up, in every run: before it returns, an `insert` searches once more, down to the bottom level, if and
    only if it found its node removed when it was done with linking, and a `remove` does if and only if its
    `unlink` met a recorded predecessor that no longer pointed to the node.
   */
  lemma SweepOutcome(tr: seq<State>, t: Tid, op: Op, b: nat, e: nat)
    requires Run(tr) && InCall(tr, t, op, b, e) && tr[e].th[t].pc.Ret?
    ensures op.InsertOp? ==> (Swept(tr, t, LinkCleanup, b, e) <==> exists m :: b < m < e && FindsGone(tr[m], tr[m + 1], t))
    ensures op.RemoveOp? ==> (Swept(tr, t, RemoveCleanup, b, e) <==> exists m :: b < m < e && L.BeatenAt(tr[m], tr[m + 1], t))
  {
    hide Run, Inv, Swept, FindsGone, L.BeatenAt;
    if op.InsertOp? {
      TidySoFar(tr, t, op, LinkCleanup, b, e);
      assert Owed(tr, t, LinkCleanup, b, e) <==> exists m :: b < m < e && FindsGone(tr[m], tr[m + 1], t);
    }
    if op.RemoveOp? {
      TidySoFar(tr, t, op, RemoveCleanup, b, e);
      assert Owed(tr, t, RemoveCleanup, b, e) <==> exists m :: b < m < e && L.BeatenAt(tr[m], tr[m + 1], t);
    }
  }
}
