/** Calls inside a run: what a thread remembers of the operation it is performing. */
module SyncCalls {
  import opened SyncState
  import opened SyncExec
  import opened SyncInv
  import opened SyncSteps
  import opened SyncStart
  import opened SyncTheorems

  ghost predicate Begins(s: State, s': State, t: Tid, op: Op) {
    exists c :: Steps(s, s', t, c) && c.op == op
  }

  /** What the registers remember of the call. */
  ghost predicate Doing(op: Op, r: Local) {
    match op
    case InsertOp(k, v) => (Inserting(r) || r.caller == LinkCleanup) && r.key == k && r.val == v
    case RemoveOp(k) => (r.caller == RemoveFirst || r.caller == RemoveCleanup) && r.key == k
    case GetOp(k) => r.caller == Getter && r.key == k
    case EntryRemoveOp(n) => r.caller == EntryCall && r.target == n
    case FirstOp => r.caller == NextCall || r.caller == ClosestCall
    case NextOp(_) => r.caller == NextCall || r.caller == ClosestCall
  }

  lemma DoingFind(op: Op, sh: Shared, t: Tid, r: Local, c: Choice)
    requires Doing(op, r) && InFind(r.pc) && r.caller != EntryCall
    ensures Doing(op, ExecFind(sh, t, r, c).1)
  {
    hide ActUnlink, ActSub, ActRetire;
  }

  lemma DoingRemoval(op: Op, sh: Shared, t: Tid, r: Local)
    requires Doing(op, r) && InRemoval(r.pc)
    requires InUnlink(r.pc) ==> r.caller != EntryCall
    requires Inserting(r) || r.caller == RemoveFirst || r.caller == EntryCall
    ensures InUnlink(r.pc) ==> Doing(op, ExecUnlink(sh, t, r).1)
    ensures !InUnlink(r.pc) ==> Doing(op, ExecRemove(sh, t, r).1)
  {
    hide ActUnlink, ActSub, ActRetire, ActTag, ActRemove;
  }

  lemma DoingInsert(op: Op, sh: Shared, t: Tid, r: Local, c: Choice)
    requires Doing(op, r) && InInsert(r.pc) && Inserting(r)
    ensures Doing(op, ExecInsert(sh, t, r, c).1)
  {
    hide ActCreate, ActCount, ActReserve, ActUnreserve, ActLink;
  }

  lemma RemovalCallers(sh: Shared, t: Tid, r: Local)
    requires RemovalInv(sh, t, r) && InRemoval(r.pc)
    ensures r.caller == InsertFirst || r.caller == InsertRetry || r.caller == RemoveFirst || r.caller == EntryCall
    ensures InUnlink(r.pc) ==> r.caller != EntryCall
  {
    hide NewBelow, Won, Visited, Tagged;
  }

  /** Outside of searches and updates there are only `get`, `get_first` and `next_node`. */
  lemma CallCallers(sh: Shared, t: Tid, r: Local)
    requires CallInv(sh, t, r) && !r.pc.Ret? && !r.pc.Done? && !InFind(r.pc) && !InRemoval(r.pc) && !InInsert(r.pc)
    ensures r.caller == Getter || r.caller == NextCall || r.caller == ClosestCall
  {
  }

  lemma InsertCallers(sh: Shared, t: Tid, r: Local)
    requires InsertInv(sh, t, r) && InInsert(r.pc)
    ensures Inserting(r)
  {
    hide NewOk, NewBelow, Building, Guarded, OwnSet;
  }

  lemma FindCallers(sh: Shared, t: Tid, r: Local)
    requires FindInv(sh, t, r) && InFind(r.pc)
    ensures r.caller != EntryCall
  {
    hide NewBelow, Won, CurrOk, NextOk, Retiring;
  }

  lemma DoingStep(op: Op, s: State, s': State, t: Tid, c: Choice)
    requires Inv(s) && Steps(s, s', t, c) && Doing(op, s.th[t]) && !s.th[t].pc.Ret? && !s.th[t].pc.Done?
    ensures Doing(op, s'.th[t])
  {
    hide SharedInv, RegsOk, FindInv, RemovalInv, InsertInv, CallInv, Doing, ExecFind, ExecRemove, ExecUnlink, ExecInsert, ExecCall;
    var r := s.th[t];
    assert LocalInv(s.sh, t, r);
    if InFind(r.pc) { FindCallers(s.sh, t, r); DoingFind(op, s.sh, t, r, c); }
    else if InRemoval(r.pc) { RemovalCallers(s.sh, t, r); DoingRemoval(op, s.sh, t, r); }
    else if InInsert(r.pc) { InsertCallers(s.sh, t, r); DoingInsert(op, s.sh, t, r, c); }
    else { DoingCall(op, s.sh, t, r, c); }
  }

  lemma DoingCall(op: Op, sh: Shared, t: Tid, r: Local, c: Choice)
    requires CallInv(sh, t, r) && Doing(op, r) && !r.pc.Ret? && !r.pc.Done? && !InFind(r.pc) && !InRemoval(r.pc) && !InInsert(r.pc)
    ensures Doing(op, ExecCall(sh, r, c).1)
  {
  }

  lemma StepNext(s: State, s': State, t: Tid, c: Choice)
    requires Inv(s) && Steps(s, s', t, c)
    ensures Inv(s') && Mono(s.sh, s'.sh) && t < |s'.th|
  {
    hide Inv, Exec;
    assert Next(s, s');
    NextKeeps(s, s');
    NextMono(s, s');
  }

  // ------------------------------------------------------------------ the search for the closest node

  /** `next_node` has turned to the search for the closest node. */
  predicate Astray(r: Local) {
    r.pc.Fault? || (InFind(r.pc) && r.caller == ClosestCall)
  }

  /** Once it has, it never returns: the search goes on for ever, or ends outside a tower. */
  lemma AstrayStays(s: State, s': State, t: Tid, c: Choice)
    requires Inv(s) && Steps(s, s', t, c) && Astray(s.th[t])
    ensures Astray(s'.th[t])
  {
    hide SharedInv, RegsOk, FindInv, Mono, Kept, ExecFind, ExecRemove, ExecUnlink, ExecInsert;
    var r := s.th[t];
    assert LocalInv(s.sh, t, r);
    StepKeeps(s.sh, t, r, c);
    NoFailure(s'.sh, t, s'.th[t]);
    if InFind(r.pc) { ClosestFinds(s.sh, t, r, c); }
  }

  lemma ClosestFinds(sh: Shared, t: Tid, r: Local, c: Choice)
    requires InFind(r.pc) && FindInv(sh, t, r) && r.caller == ClosestCall
    ensures var r' := ExecFind(sh, t, r, c).1; r'.caller == ClosestCall && (InFind(r'.pc) || r'.pc.Fault? || r'.pc.Panic?)
  {
    hide Context, NextOk, ActUnlink, ActSub, ActRetire;
  }

  /** Nobody else indexes outside a tower. */
  lemma FaultIsAstray(s: State, s': State, t: Tid, c: Choice)
    requires Inv(s) && Steps(s, s', t, c) && s'.th[t].pc.Fault?
    ensures Astray(s.th[t])
  {
    hide SharedInv, RegsOk, FindInv, RemovalInv, InsertInv, Mono, Kept, Exec;
    var r := s.th[t];
    assert LocalInv(s.sh, t, r);
    StepKeeps(s.sh, t, r, c);
    NoFailure(s'.sh, t, s'.th[t]);
    FaultCaller(s.sh, t, r, c);
    if InRemoval(r.pc) { RemovalCallers(s.sh, t, r); }
    else if InInsert(r.pc) { InsertCallers(s.sh, t, r); }
  }

  lemma FaultCaller(sh: Shared, t: Tid, r: Local, c: Choice)
    requires Exec(sh, t, r, c).1.pc.Fault?
    ensures Exec(sh, t, r, c).1.caller == r.caller && !r.pc.Done?
  {
    hide ExecFind, ExecRemove, ExecUnlink, ExecInsert;
    if InFind(r.pc) { FindFault(sh, t, r, c); }
    else if InRemoval(r.pc) { RemovalFault(sh, t, r); }
    else if InInsert(r.pc) { InsertFault(sh, t, r, c); }
  }

  lemma FindFault(sh: Shared, t: Tid, r: Local, c: Choice)
    ensures ExecFind(sh, t, r, c).1.pc.Fault? ==> ExecFind(sh, t, r, c).1.caller == r.caller
  {
    hide ActUnlink, ActSub, ActRetire;
  }

  lemma RemovalFault(sh: Shared, t: Tid, r: Local)
    ensures ExecUnlink(sh, t, r).1.pc.Fault? ==> ExecUnlink(sh, t, r).1.caller == r.caller
    ensures ExecRemove(sh, t, r).1.pc.Fault? ==> ExecRemove(sh, t, r).1.caller == r.caller
  {
    hide ActUnlink, ActSub, ActRetire, ActTag, ActRemove;
  }

  lemma InsertFault(sh: Shared, t: Tid, r: Local, c: Choice)
    ensures ExecInsert(sh, t, r, c).1.pc.Fault? ==> ExecInsert(sh, t, r, c).1.caller == r.caller
  {
    hide ActCreate, ActCount, ActReserve, ActUnreserve, ActLink;
  }

  // ------------------------------------------------------------------ calls

  /** Thread t is idle in state b, begins op with its next step, and is still in that call in state e. */
  ghost predicate InCall(tr: seq<State>, t: Tid, op: Op, b: nat, e: nat) {
    && b < e < |tr| && t < |tr[b].th| && tr[b].th[t].pc.Done? && Begins(tr[b], tr[b + 1], t, op)
    && forall q :: b < q <= e ==> t < |tr[q].th| && !tr[q].th[t].pc.Done?
  }

  lemma Begun(s: State, s': State, t: Tid, op: Op)
    requires t < |s.th| && s.th[t].pc.Done? && Begins(s, s', t, op)
    ensures t < |s'.th| && s'.sh == s.sh && s'.th[t] == Invoke(s.sh, op)
  {
    hide ExecFind, ExecRemove, ExecUnlink, ExecInsert, Invoke;
  }

  lemma RunNext(tr: seq<State>, k: nat)
    requires Run(tr) && k + 1 < |tr|
    ensures Next(tr[k], tr[k + 1])
  {
    hide Next, Initial;
  }

  lemma Inside(tr: seq<State>, t: Tid, op: Op, b: nat, e: nat)
    requires InCall(tr, t, op, b, e)
    ensures b < e < |tr| && t < |tr[e].th| && !tr[e].th[t].pc.Done?
    ensures b + 1 < e ==> InCall(tr, t, op, b, e - 1) && t < |tr[e - 1].th| && !tr[e - 1].th[t].pc.Done?
  {
    hide Begins;
  }

  /** A step that is not t's leaves t where it is. */
  lemma OthersMove(s: State, s': State, t: Tid)
    requires Next(s, s') && t < |s.th| && !exists c :: Steps(s, s', t, c)
    ensures t < |s'.th| && s'.th[t] == s.th[t]
  {
    hide Exec;
  }
}
