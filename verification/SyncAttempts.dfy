/**
  What calls do with what their searches find, in any run: a search ends only when it is complete, a node that it
  has found is pursued, and `insert` links only by what a search has found since its last setback.
 */
module SyncAttempts {
  import opened Common
  import opened SyncState
  import opened SyncExec
  import opened SyncInv
  import opened SyncSteps
  import opened SyncStart
  import opened SyncRefine
  import opened SyncCalls
  import opened SyncSearches
  import opened SyncOutcomes

  // ------------------------------------------------------------------ searches end when they are complete

  /** With this step t reads the candidate n, and finds the key it looks for and a clear removed bit. */
  ghost predicate Accepts(s: State, s': State, t: Tid, n: NodeId) {
    && Moves(s, s', t) && s.th[t].pc == FCheck(n) && n < |s.sh.heap|
    && s.sh.heap[n].key == s.th[t].key && !s.sh.heap[n].removed
  }

  /** A search that may end in the middle: that of `next_node`. */
  predicate Open(c: Caller) {
    c == NextCall || c == ClosestCall
  }

  lemma LeavesFind(s: State, s': State, t: Tid, c: Choice)
    requires Inv(s) && Steps(s, s', t, c) && InFind(s.th[t].pc) && !InFind(s'.th[t].pc) && !Open(s.th[t].caller)
    ensures var r := s.th[t]; LastLoad(s, s', t, None) || (r.pc.FCheck? && (Rejects(s, s', t, r.pc.cand) || Accepts(s, s', t, r.pc.cand)))
  {
    hide SharedInv, Context, Exec, ExecFind;
    var r := s.th[t];
    assert LocalInv(s.sh, t, r);
    if s'.th[t].pc.Fault? { FaultIsAstray(s, s', t, c); }
    StepNext(s, s', t, c);
    assert LocalInv(s'.sh, t, s'.th[t]);
    NoFailure(s'.sh, t, s'.th[t]);
    LeavesAt(s, s', t, c);
    if r.pc.FFinal? { assert PrevOk(s.sh, r, 0); FinalNull(s, s', t, c); }
  }

  lemma LeavesAt(s: State, s': State, t: Tid, c: Choice)
    requires Steps(s, s', t, c) && InFind(s.th[t].pc) && !InFind(s'.th[t].pc) && !Open(s.th[t].caller)
    requires !s'.th[t].pc.Fault? && !s'.th[t].pc.Panic?
    ensures s.th[t].pc.FFinal? || s.th[t].pc.FCheck?
  {
    hide ActUnlink, ActSub, ActRetire, AfterFind;
  }

  lemma FinalNull(s: State, s': State, t: Tid, c: Choice)
    requires Steps(s, s', t, c) && s.th[t].pc.FFinal? && !InFind(s'.th[t].pc) && !s'.th[t].pc.Fault?
    ensures |s.th[t].prev| > 0 && PtrIs(s.sh, s.th[t].prev[0].0, 0, None)
  {
  }

  /** The search was completed at step m: it missed, or it accepted the candidate loaded from what it had settled. */
  ghost predicate Concludes(tr: seq<State>, t: Tid, b: nat, m: nat) {
    || Missed(tr, t, b, m)
    || (b < m < |tr| - 1 && exists n :: Accepts(tr[m], tr[m + 1], t, n) && Candidate(tr, t, b, m, n))
  }

  /** In every run each search of `insert`, `remove` and `get` that ends is complete. */
  lemma SearchOutcome(tr: seq<State>, t: Tid, op: Op, b: nat, e: nat)
    requires Run(tr) && InCall(tr, t, op, b, e) && e + 1 < |tr| && t < |tr[e + 1].th|
    requires InFind(tr[e].th[t].pc) && !Open(tr[e].th[t].caller) && !InFind(tr[e + 1].th[t].pc)
    ensures Concludes(tr, t, b, e)
  {
    hide Run, InCall, Inv, Settled, Candidate, Rejects, Accepts;
    Inside(tr, t, op, b, e);
    SearchSoFar(tr, t, op, b, e);
    RunInv(tr, e);
    RunNext(tr, e);
    var s, s' := tr[e], tr[e + 1];
    if exists c :: Steps(s, s', t, c) {
      var c :| Steps(s, s', t, c);
      LeavesFind(s, s', t, c);
    } else {
      OthersMove(s, s', t);
    }
  }

  // ------------------------------------------------------------------ what a search finds is pursued

  predicate ForKey(op: Op, key: int) {
    (op.InsertOp? || op.RemoveOp?) && op.key == key
  }

  /** The node found is one to be taken out: `remove` looks for it, and `insert` if it is not its own. */
  predicate Wants(r: Local, n: NodeId) {
    r.caller == RemoveFirst || (Inserting(r) && r.newNode != Some(n))
  }

  /** t is trying to take n out of the map. */
  ghost predicate TriesFor(s: State, t: Tid, n: NodeId) {
    t < |s.th| && Trying(s.th[t]) && s.th[t].target == n && s.th[t].caller != EntryCall
  }

  /** With this step t takes n out of the map, or fails to. */
  ghost predicate ResolvesAt(s: State, s': State, t: Tid, n: NodeId, key: int) {
    TakesAt(s, s', t, n, key) || (FoiledAt(s, s', t) && s.th[t].target == n)
  }

  lemma AcceptTries(s: State, s': State, t: Tid, c: Choice, n: NodeId)
    requires Steps(s, s', t, c) && Accepts(s, s', t, n) && Wants(s.th[t], n)
    ensures TriesFor(s', t, n)
  {
  }

  lemma TryStep(s: State, s': State, t: Tid, c: Choice, op: Op, n: NodeId, key: int)
    requires Inv(s) && Inv(s') && Steps(s, s', t, c) && TriesFor(s, t, n) && Doing(op, s.th[t])
    requires ForKey(op, key)
    ensures Doing(op, s'.th[t])
    ensures TriesFor(s', t, n) || ResolvesAt(s, s', t, n, key)
  {
    hide SharedInv, RegsOk, Abs, TakesAt, Hindered, Exec, Removing;
    var r := s.th[t];
    assert LocalInv(s.sh, t, r);
    DoingStep(op, s, s', t, c);
    TryGoes(s, s', t, c);
    if r.pc.SCas? && !Hindered(s.sh, r) { TakeWorks(s, s', t, c); }
  }

  lemma TryGoes(s: State, s': State, t: Tid, c: Choice)
    requires Inv(s) && Steps(s, s', t, c) && Trying(s.th[t])
    ensures var r, r' := s.th[t], s'.th[t];
            if Hindered(s.sh, r) then FoiledAt(s, s', t)
            else r'.target == r.target && r'.caller == r.caller && (r.pc.SLoad? ==> r'.pc.SCas?)
  {
    hide SharedInv, RegsOk, Abs, ActRemove;
    assert LocalInv(s.sh, t, s.th[t]);
  }

  lemma TryMoves(s: State, s': State, t: Tid, op: Op, n: NodeId, key: int)
    requires Inv(s) && Inv(s') && Next(s, s') && TriesFor(s, t, n) && t < |s'.th| && Doing(op, s.th[t]) && ForKey(op, key)
    ensures Doing(op, s'.th[t]) && (TriesFor(s', t, n) || ResolvesAt(s, s', t, n, key))
  {
    hide Inv, Exec, Doing, ForKey, ResolvesAt;
    if exists c :: Steps(s, s', t, c) {
      var c :| Steps(s, s', t, c);
      TryStep(s, s', t, c, op, n, key);
    } else {
      OthersMove(s, s', t);
    }
  }

  lemma {:induction false} DoingSoFar(tr: seq<State>, t: Tid, op: Op, b: nat, e: nat)
    requires Run(tr) && InCall(tr, t, op, b, e)
    ensures Doing(op, tr[e].th[t])
    decreases e
  {
    hide Run, Inv, Doing, InCall, Exec;
    Inside(tr, t, op, b, e);
    if e == b + 1 {
      DoingStarts(tr, t, op, b);
    } else {
      DoingSoFar(tr, t, op, b, e - 1);
      RunInv(tr, e - 1);
      RunNext(tr, e - 1);
      var s, s' := tr[e - 1], tr[e];
      if exists c :: Steps(s, s', t, c) {
        var c :| Steps(s, s', t, c);
        if s.th[t].pc.Ret? { RetLeaves(s.sh, t, s.th[t], c); }
        DoingStep(op, s, s', t, c);
      } else {
        OthersMove(s, s', t);
      }
    }
  }

  lemma DoingStarts(tr: seq<State>, t: Tid, op: Op, b: nat)
    requires InCall(tr, t, op, b, b + 1)
    ensures Doing(op, tr[b + 1].th[t])
  {
    hide Begins;
    Begun(tr[b], tr[b + 1], t, op);
  }

  /** After step m of the call, and by state e, t has resolved what it found. */
  ghost predicate Resolves(tr: seq<State>, t: Tid, n: NodeId, key: int, m: nat, e: nat) {
    exists q :: m < q < e < |tr| && t < |tr[q].th| && ResolvesAt(tr[q], tr[q + 1], t, n, key)
  }

  lemma ResolveRecord(tr: seq<State>, t: Tid, n: NodeId, key: int, m: nat, e: nat)
    requires m + 1 < e < |tr|
    ensures Resolves(tr, t, n, key, m, e - 1) ==> Resolves(tr, t, n, key, m, e)
    ensures t < |tr[e - 1].th| && ResolvesAt(tr[e - 1], tr[e], t, n, key) ==> Resolves(tr, t, n, key, m, e)
  {
    hide ResolvesAt;
    var q := e - 1;
    if t < |tr[q].th| && ResolvesAt(tr[q], tr[q + 1], t, n, key) { assert Resolves(tr, t, n, key, m, e); }
  }

  lemma {:induction false} PursuedSoFar(tr: seq<State>, t: Tid, op: Op, key: int, b: nat, m: nat, n: NodeId, e: nat)
    requires Run(tr) && InCall(tr, t, op, b, e) && ForKey(op, key) && b < m < e && t < |tr[m].th|
    requires Accepts(tr[m], tr[m + 1], t, n) && Wants(tr[m].th[t], n)
    ensures TriesFor(tr[e], t, n) || Resolves(tr, t, n, key, m, e)
    decreases e
  {
    hide Run, Inv, Doing, InCall, Exec, ForKey, ResolvesAt, Resolves, Accepts, Wants, TriesFor;
    Inside(tr, t, op, b, e);
    RunNext(tr, e - 1);
    if e == m + 1 {
      AcceptMoves(tr[m], tr[m + 1], t, n);
    } else {
      PursuedSoFar(tr, t, op, key, b, m, n, e - 1);
      ResolveRecord(tr, t, n, key, m, e);
      if TriesFor(tr[e - 1], t, n) {
        RunInv(tr, e - 1);
        RunInv(tr, e);
        DoingSoFar(tr, t, op, b, e - 1);
        TryMoves(tr[e - 1], tr[e], t, op, n, key);
      }
    }
  }

  lemma AcceptMoves(s: State, s': State, t: Tid, n: NodeId)
    requires Next(s, s') && t < |s.th| && t < |s'.th| && Accepts(s, s', t, n) && Wants(s.th[t], n)
    ensures TriesFor(s', t, n)
  {
    hide Exec, Wants, TriesFor;
    if exists c :: Steps(s, s', t, c) {
      var c :| Steps(s, s', t, c);
      AcceptTries(s, s', t, c, n);
    } else {
      OthersMove(s, s', t);
    }
  }

  /**
    What a search of `insert` or `remove` finds is not left alone, in any run: for every node that a search of the
    call has accepted, other than the one the `insert` has created itself, the call has later taken it out of the
    map, or failed to, before it returns.
   */
  lemma PursueOutcome(tr: seq<State>, t: Tid, op: Op, key: int, b: nat, m: nat, n: NodeId, e: nat)
    requires Run(tr) && InCall(tr, t, op, b, e) && tr[e].th[t].pc.Ret? && ForKey(op, key)
    requires b < m < e && t < |tr[m].th| && Accepts(tr[m], tr[m + 1], t, n) && Wants(tr[m].th[t], n)
    ensures Resolves(tr, t, n, key, m, e)
  {
    hide Run, Resolves, Accepts, Wants, ForKey, InCall;
    Inside(tr, t, op, b, e);
    PursuedSoFar(tr, t, op, key, b, m, n, e);
  }

  // ------------------------------------------------------------------ linking by what has been found since

  /** With this step t loses a compare-exchange of `link_nodes`, on its own word or on that of the predecessor. */
  ghost predicate LosesAt(s: State, s': State, t: Tid) {
    && Moves(s, s', t)
    && match s.th[t].pc
       case LOwn(cn) => s.th[t].newNode.Some? && LoadWord(s.sh, s.th[t].newNode.value, s.th[t].start) != Some(Word(cn, false))
       case LCas =>
         var (p, next) := if s.th[t].start < |s.th[t].prev| then s.th[t].prev[s.th[t].start] else (HEAD, None);
         LoadWord(s.sh, p, s.th[t].start) != Some(Word(next, false))
       case _ => false
  }

  /** With this step the neighbours that t has recorded go out of date by its own doing. */
  ghost predicate SetBack(s: State, s': State, t: Tid) {
    LosesAt(s, s', t) || (Moves(s, s', t) && s.th[t].pc.SCas? && !Hindered(s.sh, s.th[t]))
  }

  /** Where an `insert` goes by what it has recorded. */
  predicate Relies(r: Local) {
    (InInsert(r.pc) && !r.pc.LUnref?) || Trying(r)
  }

  lemma ReliesInsert(s: State, s': State, t: Tid, c: Choice)
    requires Steps(s, s', t, c) && InInsert(s.th[t].pc) && Inserting(s.th[t]) && Relies(s'.th[t]) && !s'.th[t].pc.Fault?
    ensures Relies(s.th[t]) && !SetBack(s, s', t)
  {
    hide ActLink, ActReserve, ActUnreserve, ActCreate, ActCount, StoreWord;
  }

  lemma ReliesRemoval(s: State, s': State, t: Tid, c: Choice)
    requires Steps(s, s', t, c) && InRemoval(s.th[t].pc) && Inserting(s.th[t]) && Relies(s'.th[t])
    requires s.th[t].pc.TCas? ==> !Tagged(s.sh, s.th[t].target, s.th[t].pc.lv)
    ensures Relies(s.th[t]) && !SetBack(s, s', t)
  {
    hide ActUnlink, ActSub, ActRetire, ActTag, ActRemove, ActUncount;
  }

  /** A search of the call was completed before state e, and t has not been set back since. */
  ghost predicate Current(tr: seq<State>, t: Tid, b: nat, e: nat) {
    exists q :: b < q < e < |tr| && Concludes(tr, t, b, q) && NoSetBack(tr, t, q, e)
  }

  ghost predicate NoSetBack(tr: seq<State>, t: Tid, q: nat, e: nat) {
    e < |tr| && forall m :: q < m < e ==> !SetBack(tr[m], tr[m + 1], t)
  }

  lemma CurrentRecord(tr: seq<State>, t: Tid, b: nat, e: nat)
    requires b + 1 < e < |tr|
    ensures Current(tr, t, b, e - 1) && !SetBack(tr[e - 1], tr[e], t) ==> Current(tr, t, b, e)
    ensures Concludes(tr, t, b, e - 1) ==> Current(tr, t, b, e)
  {
    hide SetBack, Concludes;
    if Current(tr, t, b, e - 1) && !SetBack(tr[e - 1], tr[e], t) {
      var q :| b < q < e - 1 && Concludes(tr, t, b, q) && NoSetBack(tr, t, q, e - 1);
      assert NoSetBack(tr, t, q, e);
    }
    if Concludes(tr, t, b, e - 1) {
      var q := e - 1;
      assert NoSetBack(tr, t, q, e);
    }
  }

  lemma ReliesStep(s: State, s': State, t: Tid, c: Choice, key: int, val: int)
    requires Inv(s) && Inv(s') && Steps(s, s', t, c) && Doing(InsertOp(key, val), s.th[t]) && !s.th[t].pc.Ret? && !s.th[t].pc.Done?
    requires Relies(s'.th[t]) && !InFind(s.th[t].pc)
    ensures Relies(s.th[t]) && !SetBack(s, s', t)
  {
    hide SharedInv, RegsOk, FindInv, InsertInv, RemovalInv, Exec, Relies, SetBack;
    var r := s.th[t];
    assert LocalInv(s.sh, t, r);
    if s'.th[t].pc.Fault? { FaultIsAstray(s, s', t, c); }
    if InRemoval(r.pc) { RemovalCallers(s.sh, t, r); TagsThere(s.sh, t, r); ReliesRemoval(s, s', t, c); }
    else if InInsert(r.pc) { InsertCallers(s.sh, t, r); ReliesInsert(s, s', t, c); }
    else { CallCallers(s.sh, t, r); }
  }

  lemma TagsThere(sh: Shared, t: Tid, r: Local)
    requires RemovalInv(sh, t, r)
    ensures r.pc.TCas? ==> !Tagged(sh, r.target, r.pc.lv)
  {
    hide Removing, Won;
  }

  lemma {:induction false} ReliesSoFar(tr: seq<State>, t: Tid, key: int, val: int, b: nat, e: nat)
    requires Run(tr) && InCall(tr, t, InsertOp(key, val), b, e)
    ensures Relies(tr[e].th[t]) ==> Current(tr, t, b, e)
    decreases e
  {
    hide Run, Inv, InCall, Exec, Relies, Current, Concludes, SetBack;
    Inside(tr, t, InsertOp(key, val), b, e);
    DoingSoFar(tr, t, InsertOp(key, val), b, e);
    if e == b + 1 {
      ReliesStarts(tr, t, key, val, b);
    } else {
      ReliesSoFar(tr, t, key, val, b, e - 1);
      DoingSoFar(tr, t, InsertOp(key, val), b, e - 1);
      CurrentRecord(tr, t, b, e);
      RunInv(tr, e - 1);
      RunInv(tr, e);
      RunNext(tr, e - 1);
      var s, s' := tr[e - 1], tr[e];
      if exists c :: Steps(s, s', t, c) {
        var c :| Steps(s, s', t, c);
        if s.th[t].pc.Ret? { RetLeaves(s.sh, t, s.th[t], c); }
        if Relies(s'.th[t]) {
          if InFind(s.th[t].pc) {
            NotInFind(s'.th[t]);
            SearchOutcome(tr, t, InsertOp(key, val), b, e - 1);
          } else {
            ReliesStep(s, s', t, c, key, val);
          }
        }
      } else {
        OthersMove(s, s', t);
        NotSetBack(s, s', t);
      }
    }
  }

  lemma NotInFind(r: Local)
    requires Relies(r)
    ensures !InFind(r.pc)
  {
  }

  lemma NotSetBack(s: State, s': State, t: Tid)
    requires t < |s.th| && t < |s'.th| && s'.th[t] == s.th[t]
    ensures !SetBack(s, s', t)
  {
  }

  lemma ReliesStarts(tr: seq<State>, t: Tid, key: int, val: int, b: nat)
    requires InCall(tr, t, InsertOp(key, val), b, b + 1)
    ensures !Relies(tr[b + 1].th[t])
  {
    hide Begins;
    Begun(tr[b], tr[b + 1], t, InsertOp(key, val));
  }

  /**
    `insert` never links by what is out of date through its own doing, in any run: whenever it is about to create
    its node or to exchange the word of a predecessor, it has completed a search, and since then it has neither
    lost an exchange of `link_nodes` nor marked a node as removed.
   */
  lemma LinkOutcome(tr: seq<State>, t: Tid, key: int, val: int, b: nat, e: nat)
    requires Run(tr) && InCall(tr, t, InsertOp(key, val), b, e) && (tr[e].th[t].pc.Create? || tr[e].th[t].pc.LCas?)
    ensures Current(tr, t, b, e)
  {
    hide Run, InCall, Current;
    ReliesSoFar(tr, t, key, val, b, e);
  }

  // ------------------------------------------------------------------ handing over

  /** The operations that hand the node they answer with to the caller as removed or replaced. */
  predicate HandsOver(op: Op) {
    op.InsertOp? || op.RemoveOp? || op.EntryRemoveOp?
  }

  ghost predicate SameLogs(sh: Shared, sh': Shared) {
    sh'.handed == sh.handed && sh'.entries == sh.entries
  }

  lemma LogsFind(sh: Shared, t: Tid, r: Local, c: Choice)
    ensures SameLogs(sh, ExecFind(sh, t, r, c).0)
  {
    hide Decide, Examine, AfterFind, InsertAfter, DropFrom;
  }

  lemma LogsRemoval(sh: Shared, t: Tid, r: Local)
    ensures SameLogs(sh, ExecRemove(sh, t, r).0) && SameLogs(sh, ExecUnlink(sh, t, r).0)
  {
    hide AfterLost, AfterTagged, AfterTagError, AfterUnlink, NextUnlink, InsertAfter, DropFrom;
  }

  lemma LogsInsert(sh: Shared, t: Tid, r: Local, c: Choice)
    ensures SameLogs(sh, ExecInsert(sh, t, r, c).0)
  {
    hide Search, InsertAfter, DropFrom;
  }

  lemma LogsElsewhere(sh: Shared, t: Tid, r: Local, c: Choice)
    requires !r.pc.Ret?
    ensures SameLogs(sh, Exec(sh, t, r, c).0)
  {
    hide ExecFind, ExecRemove, ExecUnlink, ExecInsert, Invoke;
    LogsFind(sh, t, r, c);
    LogsRemoval(sh, t, r);
    LogsInsert(sh, t, r, c);
  }

  /**
    A call hands over what it answers with, when it returns: the caller gets an entry for it, and, from `insert`,
    `remove` and `Entry::remove`, the node itself as removed or replaced. Nothing is handed over at other times.
   */
  lemma HandOverStep(s: State, s': State, t: Tid, c: Choice, op: Op)
    requires Inv(s) && Steps(s, s', t, c) && (s.th[t].pc.Done? || Doing(op, s.th[t]))
    ensures var r := s.th[t]; var a := if r.pc.Ret? then r.pc.answer else None;
            && s'.sh.handed == s.sh.handed + (if a.Some? && HandsOver(op) then [a.value] else [])
            && s'.sh.entries == s.sh.entries + (if a.Some? then {a.value} else {})
  {
    hide SharedInv, RegsOk, ExecFind, ExecRemove, ExecUnlink, ExecInsert;
    var r := s.th[t];
    assert LocalInv(s.sh, t, r);
    if !r.pc.Ret? { LogsElsewhere(s.sh, t, r, c); hide Exec; }
  }
}
