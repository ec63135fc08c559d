/** Removals, insertions and calls of a thread that runs alone keep what the solo invariant says. */
module SoloOps {
  import opened Common
  import opened SyncState
  import opened SyncExec
  import opened SyncInv
  import opened SyncStable
  import opened SyncActions
  import opened SyncSteps
  import opened SyncTheorems
  import opened SyncRefine
  import opened SyncCalls
  import opened Solo
  import opened SoloSteps

  // ------------------------------------------------------------------ remove

  lemma LeavingCarry(g: Goal, sh: Shared, r: Local, sh': Shared, r': Local, x: Ptr)
    requires SharedInv(sh) && Calm(sh, sh') && SameStage(r, r') && Leaving(g, sh, r, x)
    ensures Leaving(g, sh', r', x)
  {
    hide SharedInv, Quiet, Clean, Full, Mono, NoNewRemovals, Abs, Live, Chain, TakenOut;
    TakenOutCarry(g, sh, r, sh', r');
    QuietCarry(sh, sh', x);
    if g.clean { CleanCarry(sh, sh', Some(r.target)); }
    if g.full { FullCarry(sh, sh', None); }
  }

  lemma RemovableRegs(g: Goal, sh: Shared, r: Local, r': Local)
    requires Removable(g, sh, r) && SameStage(r, r')
    ensures Removable(g, sh, r')
  {
    hide Settled, Abs;
  }

  lemma LookSolo(g: Goal, sh: Shared, t: Tid, r: Local)
    requires RemovalInv(sh, t, r) && r.pc.SLoad? && RemovalAt(g, sh, r)
    ensures ExecRemove(sh, t, r).0 == sh && SoloInv(g, sh, ExecRemove(sh, t, r).1)
  {
    hide Settled, Abs;
    RemovableRegs(g, sh, r, ExecRemove(sh, t, r).1);
  }

  /** Alone, the compare-exchange on the removed bit succeeds, and takes the target's key out of the map. */
  lemma TakeSolo(g: Goal, sh: Shared, t: Tid, r: Local, sh': Shared)
    requires SharedInv(sh) && SharedInv(sh') && Mono(sh, sh') && RemovalInv(sh, t, r) && r.pc.SCas?
    requires sh' == ExecRemove(sh, t, r).0 && RemovalAt(g, sh, r)
    ensures sh' == ActRemove(sh, t, r.target) && SoloInv(g, sh', ExecRemove(sh, t, r).1)
  {
    hide SharedInv, Mono, Settled, Abs, Live, ActRemove, Building, NewBelow;
    var n := r.target;
    var r' := ExecRemove(sh, t, r).1;
    TargetShape(sh, n);
    assert sh' == ActRemove(sh, t, n);
    LiveFacts(sh, n);
    RemoveLive(sh, t, n);
    AbsAt(sh, n);
    AbsRemove(sh, sh', n);
    NodeKept(sh, sh', n);
    KeyOfCarry(sh, r, sh', r');
    TakeSettles(g, sh, t, n);
  }

  lemma TakeSettles(g: Goal, sh: Shared, t: Tid, n: NodeId)
    requires Settled(g, sh) && n < |sh.heap| && Live(ActRemove(sh, t, n)) <= Live(sh)
    ensures var sh' := ActRemove(sh, t, n);
            Quiet(sh', Some(n)) && (g.clean ==> Clean(sh', Some(n))) && (g.full ==> Full(sh', None))
  {
    hide Live;
    var sh' := ActRemove(sh, t, n);
    forall m, i | 0 <= m < |sh'.heap| && sh'.heap[m].removed && m != n && 0 <= i < |sh'.heap[m].levels| ensures Tagged(sh', m, i) {
      assert Tagged(sh, m, i);
    }
    if g.full {
      forall m, i | m in Live(sh') && m < |sh'.heap| && 0 <= i < |sh'.heap[m].levels| ensures EverLinked(sh', m, i) {
        assert EverLinked(sh, m, i);
      }
    }
  }

  lemma TagSolo(g: Goal, sh: Shared, t: Tid, r: Local, sh': Shared)
    requires SharedInv(sh) && RemovalInv(sh, t, r) && (r.pc.TLoad? || r.pc.TCas?)
    requires sh' == ExecRemove(sh, t, r).0 && Calm(sh, sh') && RemovalAt(g, sh, r)
    ensures SoloInv(g, sh', ExecRemove(sh, t, r).1)
  {
    hide SharedInv, Calm, Leaving, TakenOut, Removing, Won, ActTag;
    var n := r.target;
    var r' := ExecRemove(sh, t, r).1;
    var lv := r.pc.lv;
    TargetVisitedHere(sh, t, r, lv);
    TargetShape(sh, n);
    TaggingShape(sh, t, r, lv);
    if r.pc.TCas? && sh.heap[n].levels[lv] == Word(r.pc.p, false) && lv == 0 {
      LeavingCarry(g, sh, r, sh', r, Some(n));
      TagLast(sh, t, r, r.pc.p);
      CalmParts(sh, sh');
      NodeKept(sh, sh', n);
      NowQuiet(g, sh', r);
      LeavesTagged(g, sh', r, sh.heap[n].height);
    } else {
      LeavingCarry(g, sh, r, sh', r', Some(n));
    }
  }

  lemma TargetVisitedHere(sh: Shared, t: Tid, r: Local, lv: nat)
    requires Tagging(sh, t, r, lv)
    ensures Visited(sh, r.target, 0)
  {
  }

  lemma TaggingShape(sh: Shared, t: Tid, r: Local, lv: nat)
    requires Tagging(sh, t, r, lv) && r.target < |sh.heap| && lv < |sh.heap[r.target].levels|
    ensures Visited(sh, r.target, 0) && !Tagged(sh, r.target, lv)
  {
  }

  lemma TagLast(sh: Shared, t: Tid, r: Local, p: Ptr)
    requires Tagging(sh, t, r, 0) && r.target < |sh.heap|
    ensures var sh' := ActTag(sh, r.target, 0, p);
            forall i :: 0 <= i < |sh'.heap[r.target].levels| ==> Tagged(sh', r.target, i)
  {
    var sh' := ActTag(sh, r.target, 0, p);
    forall i | 0 <= i < |sh'.heap[r.target].levels| ensures Tagged(sh', r.target, i) {
      if i > 0 { assert Tagged(sh, r.target, i); }
    }
  }

  lemma NowQuiet(g: Goal, sh: Shared, r: Local)
    requires Leaving(g, sh, r, Some(r.target)) && r.target < |sh.heap|
    requires forall i :: 0 <= i < |sh.heap[r.target].levels| ==> Tagged(sh, r.target, i)
    ensures Leaving(g, sh, r, None)
  {
    hide TakenOut, Clean, Full;
  }

  lemma LeavesTagged(g: Goal, sh: Shared, r: Local, height: nat)
    requires Leaving(g, sh, r, None) && height >= 1 && r.target != HEAD
    ensures SoloInv(g, sh, AfterTagged(r, height))
  {
    hide Quiet, Clean, Full, Abs;
  }

  /** `unlink` is over, or gives up: `insert` searches again, `remove` cleans up or answers. */
  lemma LeavesUnlinked(g: Goal, sh: Shared, r: Local, ok: bool)
    requires Leaving(g, sh, r, None) && r.caller != EntryCall && r.caller != RemoveCleanup && (ok && g.clean ==> Clean(sh, None))
    ensures SoloInv(g, sh, AfterUnlink(r, ok))
  {
    hide Quiet, Clean, Full, Abs;
  }

  lemma UntieSolo(g: Goal, sh: Shared, t: Tid, r: Local, sh': Shared)
    requires SharedInv(sh) && RemovalInv(sh, t, r) && (r.pc.ULoad? || r.pc.UCas?) && RegsOk(sh, t, r)
    requires sh' == ExecUnlink(sh, t, r).0 && Calm(sh, sh') && RemovalAt(g, sh, r)
    ensures SoloInv(g, sh', ExecUnlink(sh, t, r).1)
  {
    hide SharedInv, Calm, Leaving, Tagging, ActUnlink, AfterUnlink;
    var r' := ExecUnlink(sh, t, r).1;
    UntyingShape(sh, t, r);
    TargetShape(sh, r.target);
    if r.pc.UCas? {
      assert PrevOk(sh, r, r.pc.lv);
      WordThere(sh, r.prev[r.pc.lv].0, r.pc.lv);
      LeavingCarry(g, sh, r, sh', r, None);
      if sh.heap[r.prev[r.pc.lv].0].levels[r.pc.lv] == Word(Some(r.target), false) {
        LeavingCarry(g, sh, r, sh', r', None);
      } else {
        LeavesUnlinked(g, sh', r, false);
      }
    } else {
      WordInTower(sh, r.target, r.pc.lv);
      LeavingCarry(g, sh, r, sh', r', None);
    }
  }

  lemma WordInTower(sh: Shared, n: NodeId, lv: nat)
    requires n < |sh.heap| && lv < |sh.heap[n].levels|
    ensures LoadWord(sh, n, lv).Some?
  {
  }

  lemma UntyingShape(sh: Shared, t: Tid, r: Local)
    requires Untying(sh, t, r)
    ensures Visited(sh, r.target, 0) && r.caller != EntryCall && r.caller != RemoveCleanup
  {
  }

  /** A node that is being retired is off the bottom chain. */
  lemma RetiringOff(sh: Shared, t: Tid, n: NodeId)
    requires SharedInv(sh) && Retiring(sh, t, n)
    ensures !OnChain(sh, n, 0)
  {
    assert NodeOk(sh, n);
    if OnChain(sh, n, 0) { CountHeldZero(sh.shadow[n].links, 0); }
  }

  lemma OffChainClean(g: Goal, sh: Shared, r: Local)
    requires SharedInv(sh) && Leaving(g, sh, r, None) && !OnChain(sh, r.target, 0) && g.clean
    ensures Clean(sh, None)
  {
    hide NodeOk, Sorted, LenOk, LogsOk, Quiet, Full, TakenOut;
    assert ChainOk(sh, 0);
    assert OnChain(sh, r.target, 0) <==> r.target in sh.chain[0];
  }

  lemma SubOff(sh: Shared, t: Tid, n: NodeId, i: nat)
    requires Holds(sh, n, i, Unlinking(t)) && n < |sh.heap|
    ensures i == 0 ==> !OnChain(ActSub(sh, t, n, i), n, 0)
  {
  }

  lemma PaidSolo(g: Goal, sh: Shared, t: Tid, r: Local, sh': Shared)
    requires SharedInv(sh) && RemovalInv(sh, t, r) && (r.pc.USub? || r.pc.URetire? || r.pc.ULen?)
    requires sh' == ExecUnlink(sh, t, r).0 && SharedInv(sh') && Calm(sh, sh') && RemovalAt(g, sh, r)
    requires !ExecUnlink(sh, t, r).1.pc.Panic?
    ensures SoloInv(g, sh', ExecUnlink(sh, t, r).1)
  {
    hide SharedInv, Calm, Leaving, Tagging, ActSub, AfterUnlink;
    UntyingShape(sh, t, r);
    LeavingCarry(g, sh, r, sh', r, None);
    var r' := ExecUnlink(sh, t, r).1;
    if r.pc.ULen? {
      assert !OnChain(sh', r.target, 0);
      if g.clean { OffChainClean(g, sh', r); }
      LeavesUnlinked(g, sh', r, true);
    } else {
      if r.pc.URetire? { RetiringOff(sh, t, r.target); } else { SubOff(sh, t, r.target, r.pc.lv); }
      LeavingCarry(g, sh, r, sh', r', None);
    }
  }

  lemma RemovalSolo(g: Goal, sh: Shared, t: Tid, r: Local, sh': Shared, r': Local)
    requires SharedInv(sh) && RegsOk(sh, t, r) && RemovalInv(sh, t, r) && InRemoval(r.pc)
    requires (sh', r') == (if InUnlink(r.pc) then ExecUnlink(sh, t, r) else ExecRemove(sh, t, r))
    requires SharedInv(sh') && Mono(sh, sh') && (!r.pc.SCas? ==> Calm(sh, sh')) && !r'.pc.Panic?
    requires RemovalAt(g, sh, r)
    ensures SoloInv(g, sh', r')
  {
    hide SharedInv, Mono, RegsOk, RemovalInv, ExecUnlink, ExecRemove, Calm, RemovalAt, SoloInv;
    if r.pc.SLoad? { LookSolo(g, sh, t, r); }
    else if r.pc.SCas? { TakeSolo(g, sh, t, r, sh'); }
    else if r.pc.TLoad? || r.pc.TCas? { TagSolo(g, sh, t, r, sh'); }
    else if r.pc.ULoad? || r.pc.UCas? { UntieSolo(g, sh, t, r, sh'); }
    else { PaidSolo(g, sh, t, r, sh'); }
  }

  // ------------------------------------------------------------------ insert

  lemma ReadyCarry(g: Goal, sh: Shared, r: Local, sh': Shared, r': Local)
    requires SharedInv(sh) && Calm(sh, sh') && Ready(g, sh, r)
    requires r'.key == r.key && r'.val == r.val && r'.existing == r.existing && r'.prev == r.prev
    requires |r.prev| > 0 && PtrIs(sh', r.prev[0].0, 0, r.prev[0].1)
    ensures Ready(g, sh', r')
  {
    hide SharedInv, Mono, NoNewRemovals, Settled, Abs, Live, Strict, Solid, Had;
    SettledCarry(g, sh, sh');
    if r.existing.Some? { HadCarry(g, sh, sh', r.existing, r.key); }
    SolidCarry(sh, sh', r.prev[0].0);
    if r.prev[0].1.Some? { SolidCarry(sh, sh', r.prev[0].1.value); }
    if g.full { StrictCarry(sh, r, sh', r', 0); }
  }

  lemma GrowingCarry(g: Goal, sh: Shared, r: Local, sh': Shared, r': Local)
    requires SharedInv(sh) && Calm(sh, sh') && Growing(g, sh, r)
    requires r'.key == r.key && r'.val == r.val && r'.existing == r.existing && r'.prev == r.prev
    requires r'.newNode == r.newNode && r'.start >= r.start
    ensures Growing(g, sh', r')
  {
    hide SharedInv, Mono, NoNewRemovals, Quiet, Clean, Full, Abs, Live, Strict, Joined, Chain;
    JoinedCarry(g, sh, r, sh', r');
    QuietCarry(sh, sh', None);
    if g.clean { CleanCarry(sh, sh', None); }
    if g.full {
      FullCarry(sh, sh', r.newNode);
      StrictCarry(sh, r, sh', r', r.start);
      StrictFewer(sh', r', r.start, r'.start);
    }
    JoinedStart(g, sh, r);
  }

  lemma StrictFewer(sh: Shared, r: Local, low: nat, low': nat)
    requires Strict(sh, r, low) && low <= low'
    ensures Strict(sh, r, low')
  {
  }

  lemma JoinedStart(g: Goal, sh: Shared, r: Local)
    requires Joined(g, sh, r)
    ensures r.start >= 1 && r.newNode.Some? && r.newNode.value in Live(sh)
  {
  }

  lemma LinkingCarry(g: Goal, sh: Shared, r: Local, sh': Shared, r': Local)
    requires SharedInv(sh) && Calm(sh, sh') && Linking(g, sh, r)
    requires r'.key == r.key && r'.val == r.val && r'.existing == r.existing && r'.prev == r.prev
    requires r'.newNode == r.newNode && r'.start == r.start
    requires r.start == 0 ==> |r.prev| > 0 && PtrIs(sh', r.prev[0].0, 0, r.prev[0].1)
    ensures Linking(g, sh', r')
  {
    hide SharedInv, Calm, Ready, Growing;
    if r.start == 0 { ReadyCarry(g, sh, r, sh', r'); } else { GrowingCarry(g, sh, r, sh', r'); }
  }

  /** The new node is sound: not removed, and, once linked, still referenced. */
  lemma NewSolid(g: Goal, sh: Shared, t: Tid, r: Local, at: LinkState)
    requires SharedInv(sh) && NewOk(sh, t, r, at) && !EverState(at) && Linking(g, sh, r)
    ensures r.newNode.value < |sh.heap| && !sh.heap[r.newNode.value].removed
    ensures 1 <= sh.heap[r.newNode.value].height == |sh.heap[r.newNode.value].levels| <= HEIGHT
    ensures r.start >= 1 ==> sh.heap[r.newNode.value].refs >= 1
    ensures r.start == 0 ==> !EverLinked(sh, r.newNode.value, 0)
  {
    hide SharedInv, Ready, Quiet, Clean, Full, Strict, Abs, Live;
    var n := r.newNode.value;
    if r.start == 0 {
      NotYetRemoved(sh, t, n, at);
    } else {
      LiveHeld(sh, n);
    }
  }

  lemma LiveHeld(sh: Shared, n: NodeId)
    requires SharedInv(sh) && n in Live(sh)
    ensures n < |sh.heap| && !sh.heap[n].removed && sh.heap[n].refs >= 1 && Visited(sh, n, 0)
  {
    LiveFacts(sh, n);
    assert NodeOk(sh, n);
    assert ChainOk(sh, 0);
    assert OnChain(sh, n, 0);
  }

  lemma CreateSolo(g: Goal, sh: Shared, t: Tid, r: Local, c: Choice, sh': Shared)
    requires SharedInv(sh) && r.pc.Create? && Ready(g, sh, r)
    requires sh' == ExecInsert(sh, t, r, c).0 && Calm(sh, sh')
    ensures SoloInv(g, sh', ExecInsert(sh, t, r, c).1)
  {
    hide SharedInv, Calm, Settled, Abs, Strict, Waiting;
    AdjacentWord(g, sh, r);
    ReadyCarry(g, sh, r, sh', ExecInsert(sh, t, r, c).1);
  }

  lemma AdjacentWord(g: Goal, sh: Shared, r: Local)
    requires Ready(g, sh, r)
    ensures |r.prev| > 0 && PtrIs(sh, r.prev[0].0, 0, r.prev[0].1)
  {
  }

  lemma CountSolo(g: Goal, sh: Shared, t: Tid, r: Local, c: Choice, sh': Shared)
    requires SharedInv(sh) && r.pc.ILen? && InsertInv(sh, t, r) && Ready(g, sh, r)
    requires sh' == ExecInsert(sh, t, r, c).0 && Calm(sh, sh')
    ensures SoloInv(g, sh', ExecInsert(sh, t, r, c).1)
  {
    hide SharedInv, Calm, Settled, Abs, Strict, Waiting, Building, Ready;
    AdjacentWord(g, sh, r);
    BuildingHere(sh, t, r);
    ReadyCarry(g, sh, r, sh', ExecInsert(sh, t, r, c).1);
  }

  lemma BuildingHere(sh: Shared, t: Tid, r: Local)
    requires r.newNode.Some? && Building(sh, t, r.newNode.value, 0, Fresh)
    ensures r.newNode.value < |sh.heap|
  {
  }

  /** Loads of `link_nodes`: they never stop it alone, except perhaps above the bottom. */
  lemma PeekSolo(g: Goal, sh: Shared, t: Tid, r: Local, c: Choice)
    requires SharedInv(sh) && RegsOk(sh, t, r) && InsertInv(sh, t, r) && (r.pc.LLoad? || r.pc.LRemoved? || r.pc.LGuard?)
    requires InsertAt(g, sh, r) && !ExecInsert(sh, t, r, c).1.pc.Fault?
    ensures ExecInsert(sh, t, r, c).0 == sh && SoloInv(g, sh, ExecInsert(sh, t, r, c).1)
  {
    hide SharedInv, Settled, Quiet, Clean, Full, Abs, Live, Building, Waiting, RegsOk, Linking;
    NewParts(sh, t, r);
    LinkingRegs(g, sh, r, r);
    NewSolid(g, sh, t, r, Fresh);
    var n := r.newNode.value;
    var r' := ExecInsert(sh, t, r, c).1;
    LinkingRegs(g, sh, r, r');
    if r.start >= 1 {
      LinkingGrows(g, sh, r);
      LinkingGrows(g, sh, r');
    }
    if r.pc.LLoad? {
      if r.start >= sh.heap[n].height {
        if g.full { AllLinked(sh, t, r); }
      } else {
        SolidUntagged(sh, n, r.start);
      }
    } else if r.pc.LRemoved? && (r.start == 0 || g.full) {
      GuardPasses(g, sh, t, r);
    }
  }

  lemma NewParts(sh: Shared, t: Tid, r: Local)
    requires InsertInv(sh, t, r) && (r.pc.LLoad? || r.pc.LRemoved? || r.pc.LGuard? || r.pc.LOwn? || r.pc.LRef?)
    ensures NewOk(sh, t, r, Fresh) && (r.caller == InsertFirst || r.caller == InsertRetry)
    ensures !r.pc.LLoad? ==> r.newNode.value < |sh.heap| && r.start < sh.heap[r.newNode.value].height
  {
  }

  lemma LinkingRegs(g: Goal, sh: Shared, r: Local, r': Local)
    requires if r.pc.LGuard? || r.pc.LUnref? || r.pc.LEnd? then r.start >= 1 && Growing(g, sh, r) else Linking(g, sh, r)
    requires r'.key == r.key && r'.val == r.val && r'.existing == r.existing && r'.prev == r.prev
    requires r'.newNode == r.newNode && r'.start == r.start
    ensures Linking(g, sh, r')
  {
    hide Settled, Quiet, Clean, Full, Abs, Live;
  }

  lemma LinkingGrows(g: Goal, sh: Shared, r: Local)
    requires Linking(g, sh, r) && r.start >= 1
    ensures Growing(g, sh, r)
  {
  }

  lemma AllLinked(sh: Shared, t: Tid, r: Local)
    requires NewOk(sh, t, r, Fresh) && r.newNode.value < |sh.heap| && r.start >= sh.heap[r.newNode.value].height
    requires Full(sh, r.newNode)
    ensures Full(sh, None)
  {
    hide Live;
  }

  /** Alone, the recorded successor is beyond the new key. */
  lemma GuardPasses(g: Goal, sh: Shared, t: Tid, r: Local)
    requires SharedInv(sh) && RegsOk(sh, t, r) && Linking(g, sh, r) && (r.start == 0 || g.full)
    ensures r.start < |r.prev| && r.prev[r.start].1.Some? ==>
              r.prev[r.start].1.value < |sh.heap| && r.key < sh.heap[r.prev[r.start].1.value].key
  {
    hide SharedInv, Settled, Quiet, Clean, Full, Abs, Live, Waiting, RegsOk, Joined;
    if r.start == 0 { FoundRight(sh, t, r); }
  }

  /** `Search` for `insert` once its node is linked at the bottom. */
  lemma RetrySolo(g: Goal, sh: Shared, r: Local)
    requires Growing(g, sh, r)
    ensures SoloInv(g, sh, Search(r, InsertRetry))
  {
    hide Quiet, Clean, Full, Abs, Live;
  }

  lemma OwnSolo(g: Goal, sh: Shared, t: Tid, r: Local, c: Choice, sh': Shared)
    requires SharedInv(sh) && RegsOk(sh, t, r) && InsertInv(sh, t, r) && r.pc.LOwn? && InsertAt(g, sh, r)
    requires sh' == ExecInsert(sh, t, r, c).0 && Calm(sh, sh') && !ExecInsert(sh, t, r, c).1.pc.Fault?
    ensures SoloInv(g, sh', ExecInsert(sh, t, r, c).1)
  {
    hide SharedInv, Calm, Settled, Quiet, Clean, Full, Abs, Live, Building, Waiting, RegsOk, Linking, Growing, Ready, Guarded;
    NewParts(sh, t, r);
    NewSolid(g, sh, t, r, Fresh);
    var n := r.newNode.value;
    var r' := ExecInsert(sh, t, r, c).1;
    if r.start == 0 {
      LinkingReady(g, sh, r);
      AdjacentWord(g, sh, r);
      OwnNotPrev(sh, t, r);
    }
    if sh.heap[n].levels[r.start] == Word(r.pc.cn, false) {
      LinkingCarry(g, sh, r, sh', r');
    } else {
      LinkingCarry(g, sh, r, sh', r);
      LinkingGrows(g, sh', r);
      RetrySolo(g, sh', r);
    }
  }

  lemma LinkingReady(g: Goal, sh: Shared, r: Local)
    requires Linking(g, sh, r) && r.start == 0
    ensures Ready(g, sh, r)
  {
  }

  lemma OwnNotPrev(sh: Shared, t: Tid, r: Local)
    requires RegsOk(sh, t, r) && r.newNode.Some? && !EverLinked(sh, r.newNode.value, 0)
    ensures r.prev[0].0 != r.newNode.value
  {
    assert PrevOk(sh, r, 0);
  }

  lemma ReserveSolo(g: Goal, sh: Shared, t: Tid, r: Local, c: Choice, sh': Shared)
    requires SharedInv(sh) && InsertInv(sh, t, r) && r.pc.LRef? && InsertAt(g, sh, r)
    requires sh' == ExecInsert(sh, t, r, c).0 && Calm(sh, sh')
    ensures SoloInv(g, sh', ExecInsert(sh, t, r, c).1)
  {
    hide SharedInv, Calm, Settled, Quiet, Clean, Full, Abs, Live, Building, Waiting, Linking, Growing, Ready, Guarded, OwnSet;
    NewParts(sh, t, r);
    NewSolid(g, sh, t, r, Fresh);
    if r.start == 0 {
      LinkingReady(g, sh, r);
      AdjacentWord(g, sh, r);
    }
    LinkingCarry(g, sh, r, sh', ExecInsert(sh, t, r, c).1);
  }

  /** Above the bottom a compare-exchange may fail, and the search is repeated. */
  lemma RaiseSolo(g: Goal, sh: Shared, t: Tid, r: Local, c: Choice, sh': Shared)
    requires SharedInv(sh) && InsertInv(sh, t, r) && (r.pc.LUnref? || (r.pc.LCas? && r.start >= 1)) && InsertAt(g, sh, r)
    requires sh' == ExecInsert(sh, t, r, c).0 && Calm(sh, sh') && !ExecInsert(sh, t, r, c).1.pc.Fault?
    ensures SoloInv(g, sh', ExecInsert(sh, t, r, c).1)
  {
    hide SharedInv, Calm, Building, Growing, Ready, Guarded, OwnSet, ActLink, ActUnreserve;
    NewThere(sh, t, r);
    if r.pc.LUnref? {
      GrowingCarry(g, sh, r, sh', r);
      RetrySolo(g, sh', r);
    } else {
      LinkingGrows(g, sh, r);
      GrowingCarry(g, sh, r, sh', ExecInsert(sh, t, r, c).1);
    }
  }

  lemma NewThere(sh: Shared, t: Tid, r: Local)
    requires InsertInv(sh, t, r) && (r.pc.LUnref? || r.pc.LCas? || r.pc.LEnd?)
    ensures r.newNode.Some? && r.newNode.value < |sh.heap| && (r.caller == InsertFirst || r.caller == InsertRetry)
  {
  }

  lemma EndSolo(g: Goal, sh: Shared, t: Tid, r: Local, c: Choice)
    requires SharedInv(sh) && InsertInv(sh, t, r) && r.pc.LEnd? && InsertAt(g, sh, r)
    ensures ExecInsert(sh, t, r, c).0 == sh && SoloInv(g, sh, ExecInsert(sh, t, r, c).1)
  {
    hide SharedInv, Quiet, Clean, Full, Abs, Live, Building;
    NewThere(sh, t, r);
    LiveHeld(sh, r.newNode.value);
  }

  /** Linking the node at the bottom adds its key and value to the map. */
  lemma JoinSolo(g: Goal, sh: Shared, t: Tid, r: Local, c: Choice, sh': Shared)
    requires SharedInv(sh) && RegsOk(sh, t, r) && InsertInv(sh, t, r) && r.pc.LCas? && r.start == 0 && Ready(g, sh, r)
    requires sh' == ExecInsert(sh, t, r, c).0 && SharedInv(sh') && Mono(sh, sh')
    ensures sh' == ActLink(sh, r.prev[0].0, r.newNode.value, 0) && SoloInv(g, sh', ExecInsert(sh, t, r, c).1)
  {
    hide SharedInv, Mono, Settled, Abs, Live, Building, Waiting, ActLink, Spliced, Strict, NoNewRemovals, Had;
    var n, p := r.newNode.value, r.prev[0].0;
    NewShape(sh, t, r, Reserved);
    assert PrevOk(sh, r, 0);
    WordThere(sh, p, 0);
    SolidUntagged(sh, p, 0);
    assert sh' == ActLink(sh, p, n, 0);
    SpliceShape(sh, t, p, n, 0);
    InsertTags(sh, t, r, c);
    SpliceLive(sh, t, r, sh');
    NodeKept(sh, sh', n);
    NotYetRemoved(sh, t, n, Reserved);
    NowLive(sh, sh', p, n);
    NotLiveYet(sh, t, n, Reserved);
    AbsInsert(sh, sh', n);
    JoinStage(g, sh, r, sh', ExecInsert(sh, t, r, c).1);
  }

  lemma NowLive(sh: Shared, sh': Shared, p: NodeId, n: NodeId)
    requires SharedInv(sh) && SharedInv(sh') && Mono(sh, sh') && sh' == ActLink(sh, p, n, 0) && n != HEAD
    requires n < |sh.heap| && !sh.heap[n].removed && 0 < |sh.heap[n].levels|
    ensures n in Live(sh')
  {
    hide SharedInv, Live;
    LinkedNow(sh, p, n);
    LiveFacts(sh', n);
  }

  lemma NotLiveYet(sh: Shared, t: Tid, n: NodeId, at: LinkState)
    requires SharedInv(sh) && Building(sh, t, n, 0, at) && !EverState(at) && n < |sh.heap| && n != HEAD
    ensures n !in Live(sh)
  {
    hide SharedInv, Live;
    LiveFacts(sh, n);
  }

  lemma LinkedNow(sh: Shared, p: NodeId, n: NodeId)
    requires SharedInv(sh) && n < |sh.heap| && 0 < |sh.heap[n].levels|
    ensures var sh' := ActLink(sh, p, n, 0);
            n < |sh'.heap| && EverLinked(sh', n, 0) && sh'.heap[n].removed == sh.heap[n].removed
  {
    assert NodeOk(sh, n);
  }

  lemma JoinStage(g: Goal, sh: Shared, r: Local, sh': Shared, r': Local)
    requires SharedInv(sh) && Mono(sh, sh') && NoNewRemovals(sh, sh') && Ready(g, sh, r) && r.start == 0
    requires r.newNode.Some? && |r.prev| > 0 && r' == r.(start := 1, pc := LLoad)
    requires r.newNode.value < |sh.heap| && !sh.heap[r.newNode.value].removed
    requires Spliced(sh, sh', 0, r.prev[0].0, r.newNode.value)
    requires Live(sh') == Live(sh) + {r.newNode.value} && Abs(sh') == Abs(sh)[r.key := r.val]
    ensures SoloInv(g, sh', r')
  {
    hide SharedInv, Mono, NoNewRemovals, Abs, Live, Quiet, Clean, Full, Strict, Adjacent;
    QuietCarry(sh, sh', None);
    if r.existing.Some? { HadCarry(g, sh, sh', r.existing, r.key); }
    if g.clean { CleanAfterJoin(sh, sh', r.prev[0].0, r.newNode.value); }
    if g.full {
      FullAfterJoin(sh, sh', r.newNode.value);
      StrictCarry(sh, r, sh', r', 0);
      StrictFewer(sh', r', 0, 1);
    }
    assert (g.m - {r.key})[r.key := r.val] == g.m[r.key := r.val];
  }

  lemma CleanAfterJoin(sh: Shared, sh': Shared, p: NodeId, n: NodeId)
    requires Mono(sh, sh') && NoNewRemovals(sh, sh') && Clean(sh, None) && Spliced(sh, sh', 0, p, n)
    requires n < |sh.heap| && !sh.heap[n].removed
    ensures Clean(sh', None)
  {
    hide Mono, Chain;
    forall m | m in Chain(sh', 0) && m < |sh'.heap| ensures !sh'.heap[m].removed {
      InsertMembers(Chain(sh, 0), p, n, m);
    }
  }

  lemma FullAfterJoin(sh: Shared, sh': Shared, n: NodeId)
    requires Mono(sh, sh') && Full(sh, None) && Live(sh') == Live(sh) + {n}
    ensures Full(sh', Some(n))
  {
    hide Mono;
    forall m, i | m in Live(sh') && m != n && m < |sh'.heap| && 0 <= i < |sh'.heap[m].levels| ensures EverLinked(sh', m, i) {
      assert m in Live(sh);
      NodeKept(sh, sh', m);
      EverLinkedMono(sh, sh', m, i);
    }
  }

  lemma InsertSolo(g: Goal, sh: Shared, t: Tid, r: Local, c: Choice, sh': Shared, r': Local)
    requires SharedInv(sh) && RegsOk(sh, t, r) && InsertInv(sh, t, r) && InInsert(r.pc)
    requires (sh', r') == ExecInsert(sh, t, r, c)
    requires SharedInv(sh') && Mono(sh, sh') && (!(r.pc.LCas? && r.start == 0) ==> Calm(sh, sh')) && !r'.pc.Fault?
    requires InsertAt(g, sh, r)
    ensures SoloInv(g, sh', r')
  {
    hide SharedInv, Mono, RegsOk, InsertInv, ExecInsert, Calm, SoloInv, Ready, Growing;
    if r.pc.Create? { CreateSolo(g, sh, t, r, c, sh'); }
    else if r.pc.ILen? { CountSolo(g, sh, t, r, c, sh'); }
    else if r.pc.LLoad? || r.pc.LRemoved? || r.pc.LGuard? { PeekSolo(g, sh, t, r, c); }
    else if r.pc.LOwn? { OwnSolo(g, sh, t, r, c, sh'); }
    else if r.pc.LRef? { ReserveSolo(g, sh, t, r, c, sh'); }
    else if r.pc.LUnref? || (r.pc.LCas? && r.start >= 1) { RaiseSolo(g, sh, t, r, c, sh'); }
    else if r.pc.LCas? { JoinSolo(g, sh, t, r, c, sh'); }
    else { EndSolo(g, sh, t, r, c); }
  }

  // ------------------------------------------------------------------ calls

  /** A list that stands for a non-empty map is not empty by its `len`. */
  lemma Counts(sh: Shared, k: int)
    requires SharedInv(sh) && k in Abs(sh)
    ensures sh.len >= 1
  {
    hide ChainOk, Sorted, LogsOk, NodeOk;
    var n := AbsHas(sh, k);
    LiveHeld(sh, n);
    assert {n} <= sh.counted;
    SubsetSize({n}, sh.counted);
  }

  lemma CallSolo(g: Goal, sh: Shared, t: Tid, r: Local, c: Choice)
    requires SharedInv(sh) && CallInv(sh, t, r) && CallAt(g, sh, r) && (r.pc.GetLen? || r.pc.FirstLen? || r.pc.NextStale?)
    ensures ExecCall(sh, r, c).0 == sh && SoloInv(g, sh, ExecCall(sh, r, c).1)
  {
    hide SharedInv, Quiet, Clean, Full, Abs;
    HeadSolid(sh);
    if r.pc.NextStale? {
      WordThere(sh, r.pc.node, 0);
      if !sh.heap[r.pc.node].levels[0].tag { UntaggedSolid(sh, r.pc.node, 0); }
    } else if sh.len < 1 {
      forall k | k in Abs(sh) ensures false { Counts(sh, k); }
    }
  }

  /** The operation may be called: nodes that it names have been given to a caller. */
  ghost predicate Legal(sh: Shared, op: Op) {
    match op
    case EntryRemoveOp(n) => n in sh.entries
    case NextOp(n) => n in sh.entries
    case _ => true
  }

  ghost function GoalOf(sh: Shared, op: Op, clean: bool, full: bool): Goal {
    Goal(Abs(sh), op.EntryRemoveOp? && Solid(sh, op.node), if op.NextOp? then op.node else HEAD,
         clean && !op.EntryRemoveOp?, full)
  }

  lemma BeginsSolo(sh: Shared, op: Op, clean: bool, full: bool)
    requires Legal(sh, op) && Settled(GoalOf(sh, op, clean, full), sh)
    ensures SoloInv(GoalOf(sh, op, clean, full), sh, Invoke(sh, op))
  {
    hide Quiet, Clean, Full, Abs;
  }

  /** Every step of a thread that runs alone keeps the solo invariant until the call returns. */
  lemma StepSolo(g: Goal, s: State, s': State, t: Tid, c: Choice)
    requires Inv(s) && Steps(s, s', t, c) && SoloInv(g, s.sh, s.th[t]) && !s.th[t].pc.Ret? && !s.th[t].pc.Fault?
    requires g.full && s.th[t].pc.FStart? && c.level < HEIGHT ==> StartsHigh(s.sh, c.level)
    ensures SoloInv(g, s'.sh, s'.th[t])
  {
    hide SharedInv, RegsOk, FindInv, RemovalInv, InsertInv, CallInv, ExecFind, ExecRemove, ExecUnlink, ExecInsert, ExecCall;
    hide Mono, Kept, Calm, Seeking, FindAt, RemovalAt, InsertAt, CallAt;
    var r, r' := s.th[t], s'.th[t];
    assert LocalInv(s.sh, t, r);
    StepKeeps(s.sh, t, r, c);
    NoFailure(s'.sh, t, r');
    if !r.pc.SCas? && !(r.pc.LCas? && r.start == 0) { CalmStep(s, s', t, c); }
    if r'.pc.Fault? { FaultIsAstray(s, s', t, c); }
    if Astray(r) {
      AstrayStays(s, s', t, c);
      TaggedMono(s.sh, s'.sh, g.from, 0);
    }
    else if InFind(r.pc) {
      FindRegs(s.sh, t, r, c);
      FindSolo(g, s.sh, t, r, c, s'.sh, r');
    }
    else if InRemoval(r.pc) { RemovalSolo(g, s.sh, t, r, s'.sh, r'); }
    else if InInsert(r.pc) { InsertSolo(g, s.sh, t, r, c, s'.sh, r'); }
    else {
      CallPcs(g, s.sh, r);
      CallSolo(g, s.sh, t, r, c);
    }
  }

  lemma CallPcs(g: Goal, sh: Shared, r: Local)
    requires CallAt(g, sh, r)
    ensures r.pc.Ret? || r.pc.GetLen? || r.pc.FirstLen? || r.pc.NextStale?
  {
  }
}
