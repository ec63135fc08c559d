/**
  Reference counting over whole runs. Between its increment and its compare-exchange an inserter holds a
  reference, and between its compare-exchange and its decrement an unlinker still owes one; at every
  other moment a reference is a level at which the node is linked.
 */
module SyncDebts {
  import opened Common
  import opened SyncState
  import opened SyncExec
  import opened SyncInv
  import opened SyncActions
  import opened SyncSteps
  import opened SyncStart
  import opened SyncTheorems

  /** Thread r has incremented the count of its new node n for level i, and has not linked it there yet. */
  ghost predicate Pending(r: Local, n: NodeId, i: nat) {
    (r.pc.LCas? || r.pc.LUnref?) && r.newNode == Some(n) && r.start == i
  }

  /** Thread r has dropped n from chain i, and has not decremented its count yet. */
  ghost predicate Owing(r: Local, n: NodeId, i: nat) {
    || (r.pc.FSub? && r.pc.next == n && r.pc.lv == i)
    || (r.pc.USub? && r.target == n && r.pc.lv == i)
  }

  /** The auxiliary states Reserved and Unlinking occur only while a thread is at the place that explains them. */
  ghost predicate Explained(l: LinkState, owner: Tid, th: seq<Local>, n: NodeId, i: nat) {
    match l
    case Reserved => owner < |th| && Pending(th[owner], n, i)
    case Unlinking(u) => u < |th| && Owing(th[u], n, i)
    case _ => true
  }

  ghost predicate DebtsKnown(s: State) {
    forall n, i :: 0 <= n < |s.sh.shadow| && 0 <= i < |s.sh.shadow[n].links| ==>
      Explained(s.sh.shadow[n].links[i], s.sh.shadow[n].owner, s.th, n, i)
  }

  /** Level i of n is as before. */
  ghost predicate LinkSame(sh: Shared, sh': Shared, n: NodeId, i: nat) {
    && n < |sh.shadow| && n < |sh'.shadow| && i < |sh.shadow[n].links| && i < |sh'.shadow[n].links|
    && sh'.shadow[n].links[i] == sh.shadow[n].links[i] && sh'.shadow[n].owner == sh.shadow[n].owner
  }

  /**
    What a step of thread t does to the level histories: every level is as before, or has become one the
    thread's new place explains, or is neither reserved nor owed any more.
   */
  ghost predicate LinkStepOk(sh: Shared, t: Tid, r: Local, sh': Shared, r': Local) {
    forall n, i :: 0 <= n < |sh'.shadow| && 0 <= i < |sh'.shadow[n].links| ==>
      || (LinkSame(sh, sh', n, i) && !Pending(r, n, i) && !Owing(r, n, i))
      || (LinkSame(sh, sh', n, i) && (Pending(r, n, i) ==> Pending(r', n, i)) && (Owing(r, n, i) ==> Owing(r', n, i)))
      || (sh'.shadow[n].links[i] == Reserved && sh'.shadow[n].owner == t && Pending(r', n, i))
      || (sh'.shadow[n].links[i] == Unlinking(t) && Owing(r', n, i))
      || (!sh'.shadow[n].links[i].Reserved? && !sh'.shadow[n].links[i].Unlinking?)
  }

  /** No level history changes, except that new nodes have fresh levels. */
  ghost predicate LinksSame(sh: Shared, sh': Shared) {
    forall m, j :: 0 <= m < |sh'.shadow| && 0 <= j < |sh'.shadow[m].links| ==>
      LinkSame(sh, sh', m, j) || sh'.shadow[m].links[j] == Fresh
  }

  /** Only level i of n changes, to l. */
  ghost predicate OneLink(sh: Shared, sh': Shared, n: NodeId, i: nat, l: LinkState) {
    forall m, j :: 0 <= m < |sh'.shadow| && 0 <= j < |sh'.shadow[m].links| ==>
      if m == n && j == i then sh'.shadow[m].links[j] == l && m < |sh.shadow| && sh'.shadow[m].owner == sh.shadow[m].owner
      else LinkSame(sh, sh', m, j)
  }

  lemma SetLinkOne(sh: Shared, s1: Shared, n: NodeId, i: nat, l: LinkState, sh': Shared)
    requires s1.shadow == sh.shadow
    requires sh'.shadow == SetLink(s1, n, i, l).shadow
    ensures OneLink(sh, sh', n, i, l)
  {
  }

  lemma LinkStepFind(sh: Shared, t: Tid, r: Local, c: Choice)
    requires SharedInv(sh) && FindInv(sh, t, r) && InFind(r.pc)
    ensures LinkStepOk(sh, t, r, ExecFind(sh, t, r, c).0, ExecFind(sh, t, r, c).1)
  {
    hide SharedInv, Walking, Context, ActUnlink, ActSub;
    var (sh', r') := ExecFind(sh, t, r, c);
    if r.pc.FCas? {
      CasFacts(sh, t, r);
      WordThere(sh, r.pc.curr, r.pc.lv);
      if sh.heap[r.pc.curr].levels[r.pc.lv] == Word(Some(r.pc.next), false) {
        UnlinkOne(sh, t, r.pc.curr, r.pc.next, r.pc.nn, r.pc.lv);
      }
    } else if r.pc.FSub? {
      Sizes(sh);
      SubKeeps(sh, ActSub(sh, t, r.pc.next, r.pc.lv), t, r.pc.next, r.pc.lv);
      SubOne(sh, t, r.pc.next, r.pc.lv);
    } else {
      assert sh'.shadow == sh.shadow;
    }
  }

  lemma UnlinkOne(sh: Shared, t: Tid, p: NodeId, n: NodeId, nn: Ptr, i: nat)
    ensures OneLink(sh, ActUnlink(sh, t, p, n, nn, i), n, i, Unlinking(t))
  {
    SetLinkOne(sh, StoreWord(sh, p, i, Word(nn, false)), n, i, Unlinking(t), ActUnlink(sh, t, p, n, nn, i));
  }

  lemma SubOne(sh: Shared, t: Tid, n: NodeId, i: nat)
    requires n < |sh.heap|
    ensures OneLink(sh, ActSub(sh, t, n, i), n, i, Gone)
  {
    var s0 := StoreNode(sh, n, sh.heap[n].(refs := sh.heap[n].refs - 1));
    SetLinkOne(sh, s0, n, i, Gone, SetLink(s0, n, i, Gone));
  }

  lemma LinkStepUnlink(sh: Shared, t: Tid, r: Local)
    requires SharedInv(sh) && RemovalInv(sh, t, r) && InUnlink(r.pc)
    ensures LinkStepOk(sh, t, r, ExecUnlink(sh, t, r).0, ExecUnlink(sh, t, r).1)
  {
    hide SharedInv, ActUnlink, ActSub, RemovalInv;
    if r.pc.UCas? {
      if r.pc.lv < |r.prev| {
        UnlinkOne(sh, t, r.prev[r.pc.lv].0, r.target, r.pc.nn, r.pc.lv);
      }
    } else if r.pc.USub? {
      OwedSub(sh, t, r);
      SubOne(sh, t, r.target, r.pc.lv);
    } else {
      assert ExecUnlink(sh, t, r).0.shadow == sh.shadow;
    }
  }

  lemma LinkStepRemove(sh: Shared, t: Tid, r: Local)
    requires InRemoval(r.pc) && !InUnlink(r.pc)
    ensures LinkStepOk(sh, t, r, ExecRemove(sh, t, r).0, ExecRemove(sh, t, r).1)
  {
    assert LinksSame(sh, ExecRemove(sh, t, r).0);
  }

  lemma LinkStepRemoval(sh: Shared, t: Tid, r: Local)
    requires SharedInv(sh) && RemovalInv(sh, t, r) && InRemoval(r.pc)
    ensures InUnlink(r.pc) ==> LinkStepOk(sh, t, r, ExecUnlink(sh, t, r).0, ExecUnlink(sh, t, r).1)
    ensures !InUnlink(r.pc) ==> LinkStepOk(sh, t, r, ExecRemove(sh, t, r).0, ExecRemove(sh, t, r).1)
  {
    hide SharedInv, RemovalInv, ExecUnlink, ExecRemove, LinkStepOk;
    if InUnlink(r.pc) { LinkStepUnlink(sh, t, r); } else { LinkStepRemove(sh, t, r); }
  }

  lemma OwedSub(sh: Shared, t: Tid, r: Local)
    requires SharedInv(sh) && RemovalInv(sh, t, r) && r.pc.USub?
    ensures r.target < |sh.heap| && sh.heap[r.target].refs > 0
  {
    hide SharedInv, Building;
    SubKeeps(sh, ActSub(sh, t, r.target, r.pc.lv), t, r.target, r.pc.lv);
  }

  lemma LinkStepInsert(sh: Shared, t: Tid, r: Local, c: Choice)
    requires SharedInv(sh) && RegsOk(sh, t, r) && InsertInv(sh, t, r) && InInsert(r.pc)
    ensures LinkStepOk(sh, t, r, ExecInsert(sh, t, r, c).0, ExecInsert(sh, t, r, c).1)
  {
    hide SharedInv, RegsOk, InsertInv, ActLink, ActReserve, ActUnreserve;
    if r.pc.LRef? || r.pc.LUnref? {
      HasNode(sh, t, r);
      ReserveOne(sh, r.newNode.value, r.start);
    } else if r.pc.LCas? {
      LinkFacts(sh, t, r);
      WordThere(sh, r.prev[r.start].0, r.start);
      LinkOne(sh, r.prev[r.start].0, r.newNode.value, r.start);
      LinkIs(sh, t, r, c, r.prev[r.start].0);
      hide ExecInsert;
    } else {
      assert LinksSame(sh, ExecInsert(sh, t, r, c).0);
    }
  }

  lemma HasNode(sh: Shared, t: Tid, r: Local)
    requires InsertInv(sh, t, r) && (r.pc.LRef? || r.pc.LUnref?)
    ensures r.newNode.Some? && r.newNode.value < |sh.heap|
    ensures r.newNode.value < |sh.shadow| && sh.shadow[r.newNode.value].owner == t
  {
    hide Guarded, OwnSet;
  }

  lemma ReserveOne(sh: Shared, n: NodeId, i: nat)
    ensures n < |sh.heap| ==> OneLink(sh, ActReserve(sh, n, i), n, i, Reserved)
    ensures n < |sh.heap| ==> OneLink(sh, ActUnreserve(sh, n, i), n, i, Fresh)
  {
  }

  lemma LinkOne(sh: Shared, p: NodeId, n: NodeId, i: nat)
    ensures OneLink(sh, ActLink(sh, p, n, i), n, i, Linked)
  {
  }

  // ------------------------------------------------------------------ over runs

  lemma LinkStepAll(sh: Shared, t: Tid, r: Local, c: Choice)
    requires SharedInv(sh) && LocalInv(sh, t, r)
    ensures LinkStepOk(sh, t, r, Exec(sh, t, r, c).0, Exec(sh, t, r, c).1)
  {
    hide SharedInv, FindInv, RemovalInv, InsertInv, LinkStepOk, RegsOk, ExecFind, ExecUnlink, ExecRemove, ExecInsert;
    if InFind(r.pc) { LinkStepFind(sh, t, r, c); }
    else if InRemoval(r.pc) { LinkStepRemoval(sh, t, r); }
    else if InInsert(r.pc) { LinkStepInsert(sh, t, r, c); }
    else { LinkStepCall(sh, t, r, c); }
  }

  lemma LinkStepCall(sh: Shared, t: Tid, r: Local, c: Choice)
    requires !InFind(r.pc) && !InRemoval(r.pc) && !InInsert(r.pc)
    ensures LinkStepOk(sh, t, r, ExecCall(sh, r, c).0, ExecCall(sh, r, c).1)
  {
    assert ExecCall(sh, r, c).0.shadow == sh.shadow;
  }

  lemma DebtsStep(s: State, s': State, t: Tid, c: Choice)
    requires Inv(s) && DebtsKnown(s) && Steps(s, s', t, c)
    ensures DebtsKnown(s')
  {
    hide SharedInv, LocalInv, Exec, Pending, Owing;
    LinkStepAll(s.sh, t, s.th[t], c);
    forall n, i | 0 <= n < |s'.sh.shadow| && 0 <= i < |s'.sh.shadow[n].links|
      ensures Explained(s'.sh.shadow[n].links[i], s'.sh.shadow[n].owner, s'.th, n, i)
    {
      if LinkSame(s.sh, s'.sh, n, i) {
        assert Explained(s.sh.shadow[n].links[i], s.sh.shadow[n].owner, s.th, n, i);
      }
    }
  }

  lemma {:induction false} RunDebts(tr: seq<State>, k: nat)
    requires Run(tr) && k < |tr|
    ensures DebtsKnown(tr[k])
    decreases k
  {
    hide SharedInv, LocalInv, Built, Exec, Explained;
    if k == 0 {
      var ts :| Row(ts) && tr[0].sh == Built(ts);
      BuiltDebts(ts, tr[0]);
    } else {
      RunInv(tr, k - 1);
      RunDebts(tr, k - 1);
      assert Next(tr[k - 1], tr[k]);
      if tr[k] == tr[k - 1].(th := tr[k - 1].th + [IDLE]) {
        SpawnDebts(tr[k - 1], tr[k]);
      } else {
        var t: Tid, c :| Steps(tr[k - 1], tr[k], t, c);
        DebtsStep(tr[k - 1], tr[k], t, c);
      }
    }
  }

  lemma BuiltDebts(ts: seq<Tower>, s: State)
    requires Row(ts) && s.sh == Built(ts)
    ensures DebtsKnown(s)
  {
  }

  lemma SpawnDebts(s: State, s': State)
    requires DebtsKnown(s) && s' == s.(th := s.th + [IDLE])
    ensures DebtsKnown(s')
  {
    forall n, i | 0 <= n < |s'.sh.shadow| && 0 <= i < |s'.sh.shadow[n].links|
      ensures Explained(s'.sh.shadow[n].links[i], s'.sh.shadow[n].owner, s'.th, n, i)
    {
      assert Explained(s.sh.shadow[n].links[i], s.sh.shadow[n].owner, s.th, n, i);
    }
  }

  // ------------------------------------------------------------------ the account

  /** The levels that hold a reference to n: those it is linked at, those an inserter or an unlinker answers for. */
  ghost function HoldingLevels(s: State, n: NodeId): set<nat>
    requires n < |s.sh.heap|
  {
    set i: nat | i < s.sh.heap[n].height && (
      || n in Chain(s.sh, i)
      || (exists t :: 0 <= t < |s.th| && Pending(s.th[t], n, i))
      || (exists t :: 0 <= t < |s.th| && Owing(s.th[t], n, i)))
  }

  ghost function HeldSet(links: seq<LinkState>): set<nat> {
    set i: nat | i < |links| && HeldState(links[i])
  }

  lemma {:induction false} HeldCount(links: seq<LinkState>)
    ensures |HeldSet(links)| == CountHeld(links)
  {
    if links != [] {
      var n := |links| - 1;
      HeldCount(links[..n]);
      CountSplit(links[..n], links[n]);
      assert links == links[..n] + [links[n]];
      if HeldState(links[n]) {
        assert HeldSet(links) == HeldSet(links[..n]) + {n};
      } else {
        assert HeldSet(links) == HeldSet(links[..n]);
      }
    }
  }

  lemma {:induction false} CountSplit(a: seq<LinkState>, l: LinkState)
    ensures CountHeld(a + [l]) == CountHeld(a) + (if HeldState(l) then 1 else 0)
  {
    if a != [] {
      assert (a + [l])[1..] == a[1..] + [l];
      CountSplit(a[1..], l);
    }
  }

  /** What a pending inserter or an owing unlinker says about the history of the level. */
  lemma DebtMeaning(s: State, t: Tid, n: NodeId, i: nat)
    requires Inv(s) && t < |s.th|
    ensures Pending(s.th[t], n, i) ==> Holds(s.sh, n, i, Reserved) && s.sh.shadow[n].owner == t
    ensures Owing(s.th[t], n, i) ==> Holds(s.sh, n, i, Unlinking(t))
  {
    hide SharedInv, RegsOk;
    assert LocalInv(s.sh, t, s.th[t]);
  }

  lemma HoldingIsHeld(s: State, n: NodeId)
    requires Inv(s) && DebtsKnown(s) && n < |s.sh.heap|
    ensures HoldingLevels(s, n) == HeldSet(s.sh.shadow[n].links)
  {
    hide LocalInv, LenOk, LogsOk, Sorted, Pending, Owing;
    var links := s.sh.shadow[n].links;
    assert NodeOk(s.sh, n);
    forall i: nat ensures i in HoldingLevels(s, n) <==> i in HeldSet(links) {
      if i < |links| {
        assert ChainOk(s.sh, i);
        assert OnChain(s.sh, n, i) <==> n in s.sh.chain[i];
        assert Explained(links[i], s.sh.shadow[n].owner, s.th, n, i);
        forall t: Tid | t < |s.th| ensures (Pending(s.th[t], n, i) || Owing(s.th[t], n, i)) ==> HeldState(links[i]) {
          DebtMeaning(s, t, n, i);
        }
      }
    }
  }

  /**
    The reference count of a node is the number of levels at which it is linked, or its inserter has
    announced it, or somebody who dropped it has not paid back yet; it never exceeds the height.
   */
  lemma RefsAccount(tr: seq<State>, k: nat, n: NodeId)
    requires Run(tr) && k < |tr| && n != HEAD && n < |tr[k].sh.heap|
    ensures tr[k].sh.heap[n].refs == |HoldingLevels(tr[k], n)|
    ensures 0 <= tr[k].sh.heap[n].refs <= tr[k].sh.heap[n].height <= HEIGHT
  {
    hide LocalInv, Run;
    RunInv(tr, k);
    RunDebts(tr, k);
    var s := tr[k];
    assert NodeOk(s.sh, n);
    HoldingIsHeld(s, n);
    HeldCount(s.sh.shadow[n].links);
    CountHeldBound(s.sh.shadow[n].links);
  }

  /** No two debts of the same kind, and no debt and a link, concern the same level of a node. */
  lemma DebtsDisjoint(s: State, t: Tid, u: Tid, n: NodeId, i: nat)
    requires Inv(s) && t < |s.th| && u < |s.th| && i < HEIGHT
    ensures Pending(s.th[t], n, i) ==> n !in Chain(s.sh, i) && !Owing(s.th[u], n, i)
    ensures Owing(s.th[t], n, i) ==> n !in Chain(s.sh, i)
    ensures Pending(s.th[t], n, i) && Pending(s.th[u], n, i) ==> t == u
    ensures Owing(s.th[t], n, i) && Owing(s.th[u], n, i) ==> t == u
  {
    hide LocalInv, LenOk, LogsOk, Sorted, Pending, Owing, NodeOk;
    DebtMeaning(s, t, n, i);
    DebtMeaning(s, u, n, i);
    assert ChainOk(s.sh, i);
    assert OnChain(s.sh, n, i) <==> n in s.sh.chain[i];
  }

  // ------------------------------------------------------------------ retirement

  /** Thread r has brought the count of n to zero, and is about to retire it. */
  ghost predicate Retires(r: Local, n: NodeId) {
    (r.pc.FRetire? && r.pc.next == n) || (r.pc.URetire? && r.target == n)
  }

  /** A node whose count a decrement has brought to zero is retired, or the thread that did so stands before doing it. */
  ghost predicate RetirementsKnown(s: State) {
    forall n :: 0 <= n < |s.sh.shadow| && s.sh.shadow[n].retirer.Some? ==> RetirementDone(s, n, s.sh.shadow[n].retirer.value)
  }

  ghost predicate RetirementDone(s: State, n: NodeId, t: Tid) {
    n in s.sh.retired || (t < |s.th| && Retires(s.th[t], n))
  }

  /** What a step of t does to the record of who brought the count of n to zero. */
  ghost predicate RetireEffect(sh: Shared, t: Tid, sh': Shared, r': Local, n: NodeId) {
    n < |sh'.shadow| ==>
      || sh'.shadow[n].retirer == None
      || (n < |sh.shadow| && sh'.shadow[n].retirer == sh.shadow[n].retirer)
      || (sh'.shadow[n].retirer == Some(t) && Retires(r', n))
  }

  lemma FindRetires(sh: Shared, t: Tid, r: Local, c: Choice, n: NodeId)
    requires InFind(r.pc)
    ensures RetireEffect(sh, t, ExecFind(sh, t, r, c).0, ExecFind(sh, t, r, c).1, n)
    ensures Retires(r, n) ==> n in ExecFind(sh, t, r, c).0.retired
  {
    hide Decide, Examine, AfterFind, DropFrom;
  }

  lemma RemovalRetires(sh: Shared, t: Tid, r: Local, n: NodeId)
    requires InRemoval(r.pc)
    ensures InUnlink(r.pc) ==> RetireEffect(sh, t, ExecUnlink(sh, t, r).0, ExecUnlink(sh, t, r).1, n)
    ensures InUnlink(r.pc) && Retires(r, n) ==> n in ExecUnlink(sh, t, r).0.retired
    ensures !InUnlink(r.pc) ==> RetireEffect(sh, t, ExecRemove(sh, t, r).0, ExecRemove(sh, t, r).1, n)
  {
    hide AfterUnlink, NextUnlink, AfterLost, AfterTagged, AfterTagError, DropFrom;
  }

  lemma OtherRetires(sh: Shared, t: Tid, r: Local, c: Choice, n: NodeId)
    ensures InInsert(r.pc) ==> RetireEffect(sh, t, ExecInsert(sh, t, r, c).0, ExecInsert(sh, t, r, c).1, n)
    ensures RetireEffect(sh, t, ExecCall(sh, r, c).0, ExecCall(sh, r, c).1, n)
  {
    hide InsertAfter, Search, Invoke;
  }

  lemma RetireStep(s: State, s': State, t: Tid, c: Choice)
    requires Inv(s) && RetirementsKnown(s) && Steps(s, s', t, c)
    ensures RetirementsKnown(s')
  {
    hide Inv, Retires, ExecFind, ExecRemove, ExecUnlink, ExecInsert, ExecCall;
    var r := s.th[t];
    LogGrows(s.sh, t, r, c);
    forall n | 0 <= n < |s'.sh.shadow| && s'.sh.shadow[n].retirer.Some? ensures RetirementDone(s', n, s'.sh.shadow[n].retirer.value) {
      if InFind(r.pc) { FindRetires(s.sh, t, r, c, n); }
      else if InRemoval(r.pc) { RemovalRetires(s.sh, t, r, n); NotRetiring(r, n); }
      else { OtherRetires(s.sh, t, r, c, n); NotRetiring(r, n); }
    }
  }

  lemma NotRetiring(r: Local, n: NodeId)
    requires !InFind(r.pc)
    ensures Retires(r, n) ==> InUnlink(r.pc)
  {
  }

  lemma {:induction false} RunRetirements(tr: seq<State>, k: nat)
    requires Run(tr) && k < |tr|
    ensures RetirementsKnown(tr[k])
    decreases k
  {
    hide Inv, Built, Exec, RetirementDone;
    if k == 0 {
      var ts :| Row(ts) && tr[0].sh == Built(ts);
      BuiltRetirements(ts, tr[0]);
    } else {
      RunInv(tr, k - 1);
      RunRetirements(tr, k - 1);
      assert Next(tr[k - 1], tr[k]);
      if tr[k] == tr[k - 1].(th := tr[k - 1].th + [IDLE]) {
        SpawnRetirements(tr[k - 1], tr[k]);
      } else {
        var t: Tid, c :| Steps(tr[k - 1], tr[k], t, c);
        RetireStep(tr[k - 1], tr[k], t, c);
      }
    }
  }

  lemma BuiltRetirements(ts: seq<Tower>, s: State)
    requires Row(ts) && s.sh == Built(ts)
    ensures RetirementsKnown(s)
  {
  }

  lemma SpawnRetirements(s: State, s': State)
    requires RetirementsKnown(s) && s' == s.(th := s.th + [IDLE])
    ensures RetirementsKnown(s')
  {
    forall n | 0 <= n < |s'.sh.shadow| && s'.sh.shadow[n].retirer.Some? ensures RetirementDone(s', n, s'.sh.shadow[n].retirer.value) {
      assert RetirementDone(s, n, s.sh.shadow[n].retirer.value);
    }
  }

  /** With this step t pays back a reference to n, and the count reaches zero. */
  ghost predicate ReachesZero(s: State, s': State, t: Tid, n: NodeId) {
    && t < |s.th| && t < |s'.th| && s'.th[t] != s.th[t] && n < |s.sh.heap| && n < |s'.sh.heap|
    && ((s.th[t].pc.FSub? && s.th[t].pc.next == n) || (s.th[t].pc.USub? && s.th[t].target == n))
    && s'.sh.heap[n].refs == 0
  }

  /**
    The thread whose decrement brings the count of a node to zero retires it: at any later moment of the run the
    node is among the retired ones, or that thread still stands before retiring it.
   */
  lemma ZeroRetires(tr: seq<State>, j: nat, k: nat, t: Tid, c: Choice, n: NodeId)
    requires Run(tr) && j < k < |tr| && Steps(tr[j], tr[j + 1], t, c) && ReachesZero(tr[j], tr[j + 1], t, n)
    ensures RetirementDone(tr[k], n, t)
  {
    hide Run, Mono, RetirementDone, Exec, LocalInv;
    RunInv(tr, j);
    RunInv(tr, k);
    ZeroRecorded(tr[j], tr[j + 1], t, c, n);
    RunMono(tr, j + 1, k);
    NodeKept(tr[j + 1].sh, tr[k].sh, n);
    RunRetirements(tr, k);
  }

  lemma ZeroRecorded(s: State, s': State, t: Tid, c: Choice, n: NodeId)
    requires Inv(s) && Steps(s, s', t, c) && ReachesZero(s, s', t, n)
    ensures n < |s'.sh.shadow| && s'.sh.shadow[n].retirer == Some(t)
  {
    hide SharedInv, LocalInv, Mono, Kept, ExecRemove, ExecInsert, ExecCall, Decide, DropFrom;
    HeadIs(s.sh);
    StepKeeps(s.sh, t, s.th[t], c);
    NoFailure(s'.sh, t, s'.th[t]);
  }

  lemma HeadIs(sh: Shared)
    requires SharedInv(sh)
    ensures HeadOk(sh)
  {
  }
}
