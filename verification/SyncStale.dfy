/**
  What becomes of `next_node` on a stale entry: the search for the closest node that it turns to ends outside a
  tower, and there is a run in which one thread comes to that.
 */
module SyncStale {
  import opened Common
  import opened SyncState
  import opened SyncExec
  import opened SyncInv
  import opened SyncStart
  import opened SyncWitness
  import opened ProgressSteps
  import Progress

  /** Wherever a thread is doomed, going on alone leads it outside a tower. */
  lemma {:induction false} DoomedFaults(s: State, t: Tid) returns (s': State)
    requires Reachable(s) && t < |s.th| && Doomed(s.sh, s.th[t])
    ensures Reachable(s') && t < |s'.th| && s'.th[t].pc.Fault?
    decreases Progress.Left(s.sh, s.th[t]).unlinked, Progress.Left(s.sh, s.th[t]).live, Progress.Left(s.sh, s.th[t]).stage,
              Progress.Left(s.sh, s.th[t]).stale, Progress.Left(s.sh, s.th[t]).level,
              Progress.Left(s.sh, s.th[t]).behind, Progress.Left(s.sh, s.th[t]).rank
  {
    hide Reachable, Inv, Exec, Progress.Left, Doomed, Stopped;
    if Stopped(s, t) {
      DoomedEnds(s, t);
      s' := s;
    } else {
      var c := Choice(FirstOp, 0, 1);
      ReachableInv(s);
      var next := Go(s, t, c, Exec(s.sh, t, s.th[t], c).0, Exec(s.sh, t, s.th[t], c).1);
      StepLess(s, next, t, c);
      DoomedStep(s, next, t, c);
      s' := DoomedFaults(next, t);
    }
  }

  // ------------------------------------------------------------------ getting hold of a stale entry

  lemma GetIs(sh: Shared, t: Tid, r: Local, c: Choice, height: nat, refs: nat)
    requires OneNode(sh, false, height, refs) && r.key == 5 && r.caller == Getter
    ensures r.pc == GetLen && sh.len >= 1 ==> Exec(sh, t, r, c) == (sh, Search(r, Getter))
    ensures r.pc == FCheck(1) ==> Exec(sh, t, r, c) == (sh, r.(pc := Ret(Some(1))))
  {
  }

  lemma ReturnIs(sh: Shared, t: Tid, r: Local, c: Choice, n: NodeId)
    requires r.pc == Ret(Some(n))
    ensures Exec(sh, t, r, c) == (ActGive(sh, n, Hands(r.caller)), IDLE.(pc := Done(Some(n))))
  {
  }

  lemma InvokesIs(sh: Shared, t: Tid, r: Local, c: Choice)
    requires r.pc.Done?
    ensures Exec(sh, t, r, c) == (sh, Invoke(sh, c.op))
  {
    hide Invoke;
  }

  /** Thread t calls `get(5)` and is given the entry. */
  lemma Gets(s: State, t: Tid, c: Choice) returns (s': State)
    requires Reachable(s) && t < |s.th| && s.th[t] == IDLE && OneNode(s.sh, false, 1, 1) && s.sh.len >= 1
    requires c.op == GetOp(5) && c.level == 0
    ensures Reachable(s') && t < |s'.th| && s'.th[t].pc.Done? && OneNode(s'.sh, false, 1, 1) && 1 in s'.sh.entries
  {
    hide Reachable, Exec, OneNode, Steps;
    InvokesIs(s.sh, t, IDLE, c);
    s' := Go(s, t, c, s.sh, Invoke(s.sh, c.op));
    GetIs(s.sh, t, s'.th[t], c, 1, 1);
    s' := Go(s', t, c, s.sh, Search(s'.th[t], Getter));
    s' := Searches(s', t, c, false, 1, 1);
    GetIs(s.sh, t, s'.th[t], c, 1, 1);
    s' := Go(s', t, c, s.sh, s'.th[t].(pc := Ret(Some(1))));
    ReturnIs(s.sh, t, s'.th[t], c, 1);
    s' := Go(s', t, c, ActGive(s.sh, 1, false), IDLE.(pc := Done(Some(1))));
    GiveSame(s.sh, 1, false);
  }

  lemma GiveSame(sh: Shared, n: NodeId, hand: bool)
    requires OneNode(sh, false, 1, 1)
    ensures OneNode(ActGive(sh, n, hand), false, 1, 1)
  {
  }

  /** The node of key 5, removed and tagged. */
  ghost predicate TaggedOne(sh: Shared) {
    |sh.heap| == 2 && |sh.heap[1].levels| == 1 && sh.heap[1].levels[0].tag && 1 in sh.entries
  }

  lemma RemoveIs(sh: Shared, t: Tid, r: Local, c: Choice, removed: bool)
    requires OneNode(sh, removed, 1, 1) && 1 in sh.entries && r.target == 1 && r.caller == EntryCall
    ensures |sh.heap| == 2
    ensures !removed && r.pc == SLoad ==> Exec(sh, t, r, c) == (sh, r.(pc := SCas(1)))
    ensures !removed && r.pc == SCas(1) ==>
              Exec(sh, t, r, c) == (ActRemove(sh, t, 1), r.(pc := TLoad(0))) && OneNode(ActRemove(sh, t, 1), true, 1, 1)
              && 1 in ActRemove(sh, t, 1).entries
    ensures r.pc == TLoad(0) ==> Exec(sh, t, r, c) == (sh, r.(pc := TCas(0, None)))
    ensures r.pc == TCas(0, None) ==>
              Exec(sh, t, r, c) == (ActTag(sh, 1, 0, None), r.(pc := Ret(Some(1)))) && TaggedOne(ActTag(sh, 1, 0, None))
  {
  }

  /** Thread t calls `Entry::remove`, and has set the removed bit. */
  lemma Marks(s: State, t: Tid, c: Choice) returns (s': State)
    requires Reachable(s) && t < |s.th| && s.th[t].pc.Done? && OneNode(s.sh, false, 1, 1) && 1 in s.sh.entries
    requires c.op == EntryRemoveOp(1)
    ensures Reachable(s') && t < |s'.th| && OneNode(s'.sh, true, 1, 1) && 1 in s'.sh.entries
    ensures s'.th[t].pc == TLoad(0) && s'.th[t].target == 1 && s'.th[t].caller == EntryCall
  {
    hide Reachable, Exec, OneNode, Steps, ActRemove;
    InvokesIs(s.sh, t, s.th[t], c);
    s' := Go(s, t, c, s.sh, Invoke(s.sh, c.op));
    RemoveIs(s.sh, t, s'.th[t], c, false);
    s' := Go(s', t, c, s.sh, s'.th[t].(pc := SCas(1)));
    RemoveIs(s.sh, t, s'.th[t], c, false);
    s' := Go(s', t, c, ActRemove(s.sh, t, 1), s'.th[t].(pc := TLoad(0)));
  }

  /** It tags the node and returns. */
  lemma TagsOne(s: State, t: Tid, c: Choice) returns (s': State)
    requires Reachable(s) && t < |s.th| && OneNode(s.sh, true, 1, 1) && 1 in s.sh.entries
    requires s.th[t].pc == TLoad(0) && s.th[t].target == 1 && s.th[t].caller == EntryCall
    ensures Reachable(s') && t < |s'.th| && s'.th[t].pc.Done? && TaggedOne(s'.sh)
  {
    hide Reachable, Exec, OneNode, Steps, ActTag;
    RemoveIs(s.sh, t, s.th[t], c, true);
    s' := Go(s, t, c, s.sh, s.th[t].(pc := TCas(0, None)));
    RemoveIs(s.sh, t, s'.th[t], c, true);
    s' := Go(s', t, c, ActTag(s.sh, 1, 0, None), s'.th[t].(pc := Ret(Some(1))));
    ReturnIs(s'.sh, t, s'.th[t], c, 1);
    s' := Go(s', t, c, ActGive(s'.sh, 1, true), IDLE.(pc := Done(Some(1))));
  }

  lemma StaleIs(sh: Shared, t: Tid, r: Local, c: Choice)
    requires TaggedOne(sh) && r.pc.Done? && c.op == NextOp(1)
    ensures Exec(sh, t, r, c) == (sh, IDLE.(caller := NextCall, pc := NextStale(1))) && Tagged(sh, 1, 0)
  {
  }

  /**
    One thread suffices: it gets an entry, removes the node through it, and asks the entry for its successor.
    `next_node` then indexes outside a tower.
   */
  lemma NextCanFault() returns (tr: seq<State>, t: Tid)
    ensures Run(tr) && t < |tr[|tr| - 1].th|
    ensures tr[|tr| - 1].th[t].pc.Fault? && tr[|tr| - 1].th[t].caller == ClosestCall
  {
    hide Built, Exec, Row, Reachable, OneNode, Steps, Inv, Run, TaggedOne;
    BuiltOne();
    var s := Begin([Tower(5, 0, 1)]);
    assert s.sh.len == 1 by { BuiltLen(); }
    s := Gets(s, 0, Choice(GetOp(5), 0, 1));
    s := Marks(s, 0, Choice(EntryRemoveOp(1), 0, 1));
    s := TagsOne(s, 0, Choice(EntryRemoveOp(1), 0, 1));
    StaleIs(s.sh, 0, s.th[0], Choice(NextOp(1), 0, 1));
    s := Go(s, 0, Choice(NextOp(1), 0, 1), s.sh, IDLE.(caller := NextCall, pc := NextStale(1)));
    s := DoomedFaults(s, 0);
    ReachableInv(s);
    FaultIs(s, 0);
    t := 0;
    tr := TraceOf(s);
  }

  lemma BuiltLen()
    ensures Built([Tower(5, 0, 1)]).len == 1
  {
  }

  lemma FaultIs(s: State, t: Tid)
    requires Inv(s) && t < |s.th| && s.th[t].pc.Fault?
    ensures s.th[t].caller == ClosestCall
  {
    hide SharedInv, RegsOk;
    assert LocalInv(s.sh, t, s.th[t]);
  }
}
