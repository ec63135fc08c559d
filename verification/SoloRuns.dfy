/**
  What one thread at a time gets from the lock-free list: the answers of the finite ordered map that also
  specifies the single-threaded list.
 */
module SoloRuns {
  import opened Common
  import opened SyncState
  import opened SyncExec
  import opened SyncInv
  import opened SyncTheorems
  import opened SyncRefine
  import opened SyncCalls
  import opened Solo
  import opened SoloSteps
  import opened SoloOps
  import opened Pairs
  import M = SeqRuns

  // ------------------------------------------------------------------ one call

  /** A step of t. With `full`, a search starts at the highest level in use, as it does without interleaving. */
  ghost predicate Alone(s: State, s': State, t: Tid, full: bool) {
    exists c :: AloneBy(s, s', t, c, full)
  }

  ghost predicate AloneBy(s: State, s': State, t: Tid, c: Choice, full: bool) {
    Steps(s, s', t, c) && (full && s.th[t].pc.FStart? && c.level < HEIGHT ==> StartsHigh(s.sh, c.level))
  }

  /** From the moment t calls op to the moment the call is about to return, with no step of another thread. */
  ghost predicate SoloCall(tr: seq<State>, t: Tid, op: Op, full: bool) {
    && |tr| >= 2 && t < |tr[0].th| && Inv(tr[0])
    && tr[0].th[t].pc.Done? && Legal(tr[0].sh, op) && Begins(tr[0], tr[1], t, op)
    && (forall k :: 1 <= k < |tr| - 1 ==> Alone(tr[k], tr[k + 1], t, full))
    && (forall k :: 1 <= k < |tr| - 1 ==> t < |tr[k].th| && !tr[k].th[t].pc.Ret? && !tr[k].th[t].pc.Fault?)
    && t < |tr[|tr| - 1].th| && tr[|tr| - 1].th[t].pc.Ret?
  }

  /** The solo invariant holds throughout the call. */
  lemma {:induction false} DuringCall(tr: seq<State>, t: Tid, op: Op, clean: bool, full: bool, k: nat)
    requires SoloCall(tr, t, op, full) && 1 <= k < |tr|
    requires Settled(GoalOf(tr[0].sh, op, clean, full), tr[0].sh)
    ensures Inv(tr[k]) && t < |tr[k].th| && SoloInv(GoalOf(tr[0].sh, op, clean, full), tr[k].sh, tr[k].th[t])
    ensures Doing(op, tr[k].th[t]) && Mono(tr[0].sh, tr[k].sh)
    decreases k
  {
    hide Inv, Settled, GoalOf, Exec, Legal, Mono, SoloInv, Doing;
    var g := GoalOf(tr[0].sh, op, clean, full);
    if k == 1 {
      var c :| Steps(tr[0], tr[1], t, c) && c.op == op;
      BeginCall(tr[0], tr[1], t, c, clean, full);
    } else {
      DuringCall(tr, t, op, clean, full, k - 1);
      assert Alone(tr[k - 1], tr[k], t, full);
      var c :| AloneBy(tr[k - 1], tr[k], t, c, full);
      GoalFull(tr[0].sh, op, clean, full);
      NotDone(g, tr[k - 1].sh, tr[k - 1].th[t]);
      StepSolo(g, tr[k - 1], tr[k], t, c);
      DoingStep(op, tr[k - 1], tr[k], t, c);
      StepNext(tr[k - 1], tr[k], t, c);
      MonoTrans(tr[0].sh, tr[k - 1].sh, tr[k].sh);
    }
  }

  lemma GoalFull(sh: Shared, op: Op, clean: bool, full: bool)
    ensures GoalOf(sh, op, clean, full).full == full && GoalOf(sh, op, clean, full).m == Abs(sh)
  {
  }

  lemma NotDone(g: Goal, sh: Shared, r: Local)
    requires SoloInv(g, sh, r)
    ensures !r.pc.Done?
  {
  }

  lemma BeginCall(s: State, s': State, t: Tid, c: Choice, clean: bool, full: bool)
    requires Inv(s) && Steps(s, s', t, c) && s.th[t].pc.Done? && Legal(s.sh, c.op)
    requires Settled(GoalOf(s.sh, c.op, clean, full), s.sh)
    ensures Inv(s') && t < |s'.th| && SoloInv(GoalOf(s.sh, c.op, clean, full), s'.sh, s'.th[t])
    ensures Doing(c.op, s'.th[t]) && Mono(s.sh, s'.sh)
  {
    hide Inv, Settled, GoalOf, Mono, SoloInv;
    StepNext(s, s', t, c);
    assert Exec(s.sh, t, s.th[t], c) == (s.sh, Invoke(s.sh, c.op));
    BeginsSolo(s.sh, c.op, clean, full);
  }

  // ------------------------------------------------------------------ answers

  /** The pair held by the node that was returned. */
  ghost function PairOf(sh: Shared, a: Ptr): Option<Pair> {
    if a.Some? && a.value < |sh.heap| then Some(Pair(sh.heap[a.value].key, sh.heap[a.value].val)) else None
  }

  ghost function ValOf(sh: Shared, a: Ptr): Option<int> {
    if a.Some? && a.value < |sh.heap| then Some(sh.heap[a.value].val) else None
  }

  /** The operations of the map that a call stands for. Entries are operated on by way of their keys. */
  ghost function MapOps(sh: Shared, op: Op): seq<M.Op> {
    match op
    case InsertOp(k, v) => [M.Insert(k, v, 0)]
    case RemoveOp(k) => [M.Remove(k)]
    case GetOp(k) => [M.Get(k)]
    case EntryRemoveOp(n) => if Solid(sh, n) then [M.Remove(sh.heap[n].key)] else []
    case FirstOp => []
    case NextOp(_) => []
  }

  ghost function MapReplies(sh: Shared, op: Op, sh': Shared, a: Ptr): seq<M.Reply> {
    match op
    case InsertOp(_, _) => [M.Value(ValOf(sh', a))]
    case RemoveOp(_) => [M.Entry(PairOf(sh', a))]
    case GetOp(_) => [M.Entry(PairOf(sh', a))]
    case EntryRemoveOp(n) => if Solid(sh, n) then [M.Entry(PairOf(sh', a))] else []
    case FirstOp => []
    case NextOp(_) => []
  }

  /** The answer a of a call that led from sh to sh', besides what it says about the map. */
  ghost predicate AnswerFits(sh: Shared, op: Op, sh': Shared, a: Ptr) {
    match op
    case GetOp(_) => a.Some? ==> a.value in Live(sh')
    case EntryRemoveOp(n) => if Solid(sh, n) then a == Some(n) else a == None
    case FirstOp => NextAnswer(Abs(sh), sh', HEAD, a)
    case NextOp(n) => NextAnswer(Abs(sh), sh', n, a)
    case _ => true
  }

  lemma AnswerMatches(g: Goal, sh: Shared, op: Op, sh': Shared, r: Local, a: Ptr, clean: bool, full: bool)
    requires g == GoalOf(sh, op, clean, full) && Answered(g, sh', r, a) && Doing(op, r) && Mono(sh, sh')
    ensures MapReplies(sh, op, sh', a) == M.SpecReplies(Abs(sh), MapOps(sh, op))
    ensures Abs(sh') == M.SpecFinal(Abs(sh), MapOps(sh, op))
    ensures AnswerFits(sh, op, sh', a)
  {
    hide Mono, Settled, Abs, Live;
    var ops := MapOps(sh, op);
    if ops != [] { assert ops[1..] == []; }
    if op.EntryRemoveOp? && Solid(sh, op.node) { NodeKept(sh, sh', op.node); }
  }

  /**
    A call that runs alone, from a state in which no removal is half done, answers and acts like the finite
    map that specifies the single-threaded list, and leaves such a state behind. Towers that have been
    removed and tagged but not unlinked do not change any answer.
   */
  lemma SoloAnswers(tr: seq<State>, t: Tid, op: Op, full: bool)
    requires SoloCall(tr, t, op, full) && Quiet(tr[0].sh, None) && (full ==> Full(tr[0].sh, None))
    ensures var a := tr[|tr| - 1].th[t].pc.answer; var sh, sh' := tr[0].sh, tr[|tr| - 1].sh;
            && MapReplies(sh, op, sh', a) == M.SpecReplies(Abs(sh), MapOps(sh, op))
            && Abs(sh') == M.SpecFinal(Abs(sh), MapOps(sh, op))
            && AnswerFits(sh, op, sh', a)
            && Quiet(sh', None) && (full ==> Full(sh', None))
            && (Clean(sh, None) && !op.EntryRemoveOp? ==> Clean(sh', None))
  {
    hide SoloCall, Inv, Quiet, Full, Clean, Abs, Mono, Live, Answered;
    LastState(tr, t, op, full);
    var sh := tr[0].sh;
    var clean := Clean(sh, None);
    var g := GoalOf(sh, op, clean, full);
    DuringCall(tr, t, op, clean, full, |tr| - 1);
    var e := tr[|tr| - 1];
    assert Answered(g, e.sh, e.th[t], e.th[t].pc.answer);
    AnswerMatches(g, sh, op, e.sh, e.th[t], e.th[t].pc.answer, clean, full);
    StillSettled(g, e.sh, e.th[t], e.th[t].pc.answer);
  }

  lemma LastState(tr: seq<State>, t: Tid, op: Op, full: bool)
    requires SoloCall(tr, t, op, full)
    ensures |tr| >= 2 && t < |tr[|tr| - 1].th| && tr[|tr| - 1].th[t].pc.Ret? && Inv(tr[0])
  {
  }

  lemma StillSettled(g: Goal, sh: Shared, r: Local, a: Ptr)
    requires Answered(g, sh, r, a)
    ensures Settled(g, sh)
  {
  }
}
