/** Every atomic step of a thread keeps the invariant of the shared memory and of all threads. */
module SyncSteps {
  import opened Common
  import opened SyncState
  import opened SyncExec
  import opened SyncInv
  import opened SyncStable
  import opened SyncActions

  /** What one step of thread t has to establish. */
  ghost predicate StepGood(sh: Shared, t: Tid, sh': Shared, r': Local) {
    SharedInv(sh') && Mono(sh, sh') && KeptByOthers(sh, sh', t) && LocalInv(sh', t, r')
  }

  lemma Unchanged(sh: Shared)
    requires SharedInv(sh)
    ensures Mono(sh, sh) && KeptByAll(sh, sh)
  {
    forall n | 0 <= n < |sh.heap| ensures MonoNode(sh, sh, n) { assert NodeOk(sh, n); }
  }

  lemma AllKept(sh: Shared, sh': Shared, t: Tid)
    requires KeptByAll(sh, sh')
    ensures KeptByOthers(sh, sh', t) && KeptNew(sh, sh', t) && KeptHanded(sh, sh', t)
    ensures KeptWon(sh, sh', t) && KeptDebt(sh, sh', t)
  {
    assert Kept(sh, sh', t);
  }

  lemma LocalStep(sh: Shared, t: Tid, r': Local)
    requires SharedInv(sh) && LocalInv(sh, t, r')
    ensures StepGood(sh, t, sh, r')
  {
    Unchanged(sh);
  }

  /** An in-range word of a tower that has been linked at that level. */
  lemma WordThere(sh: Shared, n: NodeId, i: nat)
    requires SharedInv(sh) && EverLinked(sh, n, i)
    ensures LoadWord(sh, n, i) == Some(sh.heap[n].levels[i])
    ensures NextOk(sh, sh.heap[n].levels[i].ptr, i)
    ensures i < HEIGHT
  {
    assert NodeOk(sh, n);
  }

  // ------------------------------------------------------------------ control transfers

  lemma AfterFindOk(sh: Shared, t: Tid, r: Local, target: Ptr)
    requires SharedInv(sh) && RegsOk(sh, t, r) && Context(sh, t, r) && r.caller != NextCall && r.caller != ClosestCall
    requires target.Some? ==> Visited(sh, target.value, 0) && sh.heap[target.value].key == r.key
    ensures LocalInv(sh, t, AfterFind(r, target))
  {
    hide SharedInv, Building, PrevOk;
    var r' := AfterFind(r, target);
    RegsSame(sh, t, r, r');
  }

  lemma HeadThere(sh: Shared, i: nat)
    requires SharedInv(sh) && i < HEIGHT
    ensures EverLinked(sh, HEAD, i)
  {
    assert NodeOk(sh, HEAD);
  }

  lemma Lower(sh: Shared, n: NodeId, i: nat, j: nat)
    requires SharedInv(sh) && EverLinked(sh, n, i) && j <= i
    ensures EverLinked(sh, n, j)
  {
    assert NodeOk(sh, n);
  }

  lemma DecideOk(sh: Shared, t: Tid, r: Local, lv: nat, curr: NodeId, next: Ptr)
    requires SharedInv(sh) && RegsOk(sh, t, r) && Walking(sh, t, r, lv, curr) && NextOk(sh, next, lv)
    ensures LocalInv(sh, t, Decide(sh, r, lv, curr, next))
  {
    hide SharedInv, Building, InsertInv, RemovalInv;
    var r' := Decide(sh, r, lv, curr, next);
    forall i | 0 <= i < HEIGHT ensures PrevOk(sh, r', i) { assert PrevOk(sh, r, i); }
    if lv > 0 { Lower(sh, curr, lv, lv - 1); }
  }

  lemma ExamineOk(sh: Shared, t: Tid, r: Local, lv: nat, curr: NodeId, next: Ptr)
    requires SharedInv(sh) && RegsOk(sh, t, r) && Walking(sh, t, r, lv, curr) && NextOk(sh, next, lv)
    ensures LocalInv(sh, t, Examine(sh, r, lv, curr, next))
  {
    if next.Some? {
      RegsSame(sh, t, r, Examine(sh, r, lv, curr, next));
    } else {
      DecideOk(sh, t, r, lv, curr, None);
    }
  }

  /** Registers other than key, prev and existing do not matter to `RegsOk`. */
  lemma ExamineHeap(sh: Shared, sh': Shared, r: Local, lv: nat, curr: NodeId, next: Ptr)
    requires sh'.heap == sh.heap
    ensures Examine(sh', r, lv, curr, next) == Examine(sh, r, lv, curr, next)
  {
  }

  lemma RegsSame(sh: Shared, t: Tid, r: Local, r': Local)
    requires RegsOk(sh, t, r) && r'.key == r.key && r'.prev == r.prev
    requires r'.existing == r.existing
          || (r'.existing.Some? ==> Won(sh, t, r'.existing.value) && sh.heap[r'.existing.value].key == r.key)
    ensures RegsOk(sh, t, r')
  {
    forall i | 0 <= i < HEIGHT ensures PrevOk(sh, r', i) { assert PrevOk(sh, r, i); }
  }

  lemma IdleRegs(sh: Shared, t: Tid, r: Local)
    requires SharedInv(sh) && r.prev == NO_PREV && r.existing == None
    ensures RegsOk(sh, t, r)
  {
    assert NodeOk(sh, HEAD);
  }

  // ------------------------------------------------------------------ entry and exit

  /** The search for the closest node begins like any other. */
  lemma ClosestOk(sh: Shared, t: Tid, n: NodeId)
    requires SharedInv(sh)
    ensures LocalInv(sh, t, SearchClosest(sh, n))
  {
    IdleRegs(sh, t, SearchClosest(sh, n));
    hide SharedInv, RegsOk;
  }

  lemma CallLocalStep(sh: Shared, t: Tid, r: Local, c: Choice)
    requires SharedInv(sh) && RegsOk(sh, t, r) && CallInv(sh, t, r) && !r.pc.Ret? && !r.pc.Done?
    ensures ExecCall(sh, r, c).0 == sh && LocalInv(sh, t, ExecCall(sh, r, c).1)
  {
    hide SharedInv;
    var r' := ExecCall(sh, r, c).1;
    match r.pc
    case GetLen => RegsSame(sh, t, r, r');
    case FirstLen => RegsSame(sh, t, r, r'); HeadThere(sh, 0);
    case NextStale(n) =>
      WordThere(sh, n, 0);
      if sh.heap[n].levels[0].tag { ClosestOk(sh, t, n); } else { RegsSame(sh, t, r, r'); }
    case Fault =>
  }

  lemma InvokeOk(sh: Shared, t: Tid, op: Op)
    requires SharedInv(sh)
    ensures LocalInv(sh, t, Invoke(sh, op))
  {
    hide NodeOk, ChainOk, Sorted, LenOk;
    IdleRegs(sh, t, Invoke(sh, op));
  }

  lemma RetStep(sh: Shared, t: Tid, r: Local, c: Choice)
    requires SharedInv(sh) && RegsOk(sh, t, r) && CallInv(sh, t, r) && r.pc.Ret?
    ensures StepGood(sh, t, ExecCall(sh, r, c).0, ExecCall(sh, r, c).1)
  {
    hide SharedInv, Mono, KeptByOthers, KeptNew, KeptWon, KeptDebt, KeptHanded;
    var (sh', r') := ExecCall(sh, r, c);
    var a := r.pc.answer;
    if a.Some? {
      GiveKeeps(sh, sh', t, a.value, Hands(r.caller));
      IdleRegs(sh', t, r');
    } else {
      IdleRegs(sh, t, r');
      LocalStep(sh, t, r');
    }
  }

  lemma CallStep(sh: Shared, t: Tid, r: Local, c: Choice)
    requires SharedInv(sh) && RegsOk(sh, t, r) && CallInv(sh, t, r)
    ensures StepGood(sh, t, ExecCall(sh, r, c).0, ExecCall(sh, r, c).1)
  {
    hide SharedInv, LocalInv, RegsOk, StepGood;
    if r.pc.Ret? { RetStep(sh, t, r, c); }
    else if r.pc.Done? { InvokeOk(sh, t, c.op); LocalStep(sh, t, Invoke(sh, c.op)); }
    else { CallLocalStep(sh, t, r, c); LocalStep(sh, t, ExecCall(sh, r, c).1); }
  }

  // ------------------------------------------------------------------ find

  lemma FindInitStep(sh: Shared, t: Tid, r: Local, c: Choice)
    requires SharedInv(sh) && RegsOk(sh, t, r) && FindInv(sh, t, r) && (r.pc.FInit? || r.pc.FStart?)
    ensures ExecFind(sh, t, r, c).0 == sh && LocalInv(sh, t, ExecFind(sh, t, r, c).1)
  {
    hide SharedInv, Building;
    var r' := ExecFind(sh, t, r, c).1;
    match r.pc
    case FInit(i) =>
      HeadThere(sh, i);
      WordThere(sh, HEAD, i);
      forall j | 0 <= j < HEIGHT ensures PrevOk(sh, r', j) { assert PrevOk(sh, r, j); }
    case FStart => RegsSame(sh, t, r, r'); if c.level < HEIGHT { HeadThere(sh, c.level); }
  }

  lemma FindWalkStep(sh: Shared, t: Tid, r: Local, c: Choice)
    requires SharedInv(sh) && RegsOk(sh, t, r) && FindInv(sh, t, r) && (r.pc.FLoad? || r.pc.FTag? || r.pc.FNext?)
    ensures ExecFind(sh, t, r, c).0 == sh && LocalInv(sh, t, ExecFind(sh, t, r, c).1)
  {
    hide SharedInv, Context, Decide, Examine;
    var r' := ExecFind(sh, t, r, c).1;
    match r.pc
    case FLoad(lv, curr) => WordThere(sh, curr, lv); ExamineOk(sh, t, r, lv, curr, sh.heap[curr].levels[lv].ptr);
    case FTag(lv, curr, next) =>
      WordThere(sh, next, lv);
      RegsSame(sh, t, r, r.(pc := FNext(lv, curr, next)));
      WalkingSame(sh, t, r, r.(pc := FNext(lv, curr, next)), lv, curr);
      DecideOk(sh, t, r, lv, curr, Some(next));
    case FNext(lv, curr, next) =>
      WordThere(sh, next, lv);
      RegsSame(sh, t, r, r');
      WalkingSame(sh, t, r, r', lv, curr);
  }

  lemma FindFinalStep(sh: Shared, t: Tid, r: Local, c: Choice)
    requires SharedInv(sh) && RegsOk(sh, t, r) && FindInv(sh, t, r) && (r.pc.FFinal? || r.pc.FCheck?)
    ensures ExecFind(sh, t, r, c).0 == sh && LocalInv(sh, t, ExecFind(sh, t, r, c).1)
  {
    hide SharedInv, Building;
    var r' := ExecFind(sh, t, r, c).1;
    match r.pc
    case FFinal =>
      assert PrevOk(sh, r, 0);
      WordThere(sh, r.prev[0].0, 0);
      AfterFindOk(sh, t, r, None);
      RegsSame(sh, t, r, r.(pc := r'.pc));
    case FCheck(n) =>
      AfterFindOk(sh, t, r, None);
      if sh.heap[n].key == r.key { AfterFindOk(sh, t, r, Some(n)); }
  }

  /** A successful compare-exchange of `find` drops the tagged node it looked at. */
  lemma FindCasWin(sh: Shared, t: Tid, r: Local, sh': Shared)
    requires SharedInv(sh) && RegsOk(sh, t, r) && r.pc.FCas? && FindInv(sh, t, r)
    requires sh.heap[r.pc.curr].levels[r.pc.lv] == Word(Some(r.pc.next), false)
    requires sh' == ActUnlink(sh, t, r.pc.curr, r.pc.next, r.pc.nn, r.pc.lv)
    ensures StepGood(sh, t, sh', r.(pc := FSub(r.pc.lv, r.pc.curr, r.pc.next, r.pc.nn)))
  {
    hide SharedInv, Building, Mono, KeptByAll, KeptByOthers, Walking, Context, KeptNew, KeptHanded, KeptWon, KeptDebt;
    var FCas(lv, curr, next, nn) := r.pc;
    var r' := r.(pc := FSub(lv, curr, next, nn));
    CasFacts(sh, t, r);
    UnlinkKeeps(sh, sh', t, curr, next, nn, lv);
    hide ActUnlink;
    AllKept(sh, sh', t);
    RegsKept(sh, sh', t, r);
    RegsSame(sh', t, r, r');
    WalkingKept(sh, sh', t, r, lv, curr);
    WalkingSame(sh', t, r, r', lv, curr);
    NextKept(sh, sh', nn, lv);
  }

  lemma CasFacts(sh: Shared, t: Tid, r: Local)
    requires SharedInv(sh) && r.pc.FCas? && FindInv(sh, t, r)
    ensures Walking(sh, t, r, r.pc.lv, r.pc.curr) && r.pc.lv < HEIGHT && EverLinked(sh, r.pc.curr, r.pc.lv)
    ensures r.pc.next != HEAD && NextOk(sh, r.pc.nn, r.pc.lv) && PtrIs(sh, r.pc.next, r.pc.lv, r.pc.nn)
    ensures Tagged(sh, r.pc.next, r.pc.lv)
  {
  }

  lemma WalkingSame(sh: Shared, t: Tid, r: Local, r': Local, lv: nat, curr: NodeId)
    requires Walking(sh, t, r, lv, curr) && r' == r.(pc := r'.pc)
    ensures Walking(sh, t, r', lv, curr)
  {
  }

  /** A compare-exchange of `find` that has lost starts the search again. */
  lemma FindCasLost(sh: Shared, t: Tid, r: Local)
    requires RegsOk(sh, t, r) && Context(sh, t, r) && r.caller != NextCall
    ensures LocalInv(sh, t, r.(pc := FStart))
  {
    hide Building, PrevOk, InsertInv, RemovalInv;
    RegsSame(sh, t, r, r.(pc := FStart));
  }

  lemma FindCasStep(sh: Shared, t: Tid, r: Local, c: Choice)
    requires SharedInv(sh) && RegsOk(sh, t, r) && FindInv(sh, t, r) && r.pc.FCas?
    ensures StepGood(sh, t, ExecFind(sh, t, r, c).0, ExecFind(sh, t, r, c).1)
  {
    hide SharedInv, RegsOk, FindInv, Context, LocalInv, StepGood, ActUnlink;
    var FCas(lv, curr, next, nn) := r.pc;
    var (sh', r') := ExecFind(sh, t, r, c);
    CasFacts(sh, t, r);
    WordThere(sh, curr, lv);
    if sh.heap[curr].levels[lv] == Word(Some(next), false) {
      FindCasWin(sh, t, r, sh');
    } else {
      if r.caller == NextCall { ClosestOk(sh, t, curr); } else { FindCasLost(sh, t, r); }
      LocalStep(sh, t, r');
    }
  }

  lemma Sizes(sh: Shared)
    requires SharedInv(sh)
    ensures |sh.shadow| == |sh.heap|
  {
  }

  lemma FindSubStep(sh: Shared, t: Tid, r: Local, c: Choice)
    requires SharedInv(sh) && RegsOk(sh, t, r) && FindInv(sh, t, r) && r.pc.FSub?
    ensures StepGood(sh, t, ExecFind(sh, t, r, c).0, ExecFind(sh, t, r, c).1)
  {
    hide SharedInv, Building, ActSub;
    var FSub(lv, curr, next, nn) := r.pc;
    var (sh', r') := ExecFind(sh, t, r, c);
    Sizes(sh);
    var s1 := ActSub(sh, t, next, lv);
    SubKeeps(sh, s1, t, next, lv);
    RegsKept(sh, s1, t, r);
    WalkingKept(sh, s1, t, r, lv, curr);
    NextKept(sh, s1, nn, lv);
    if sh.heap[next].refs == 1 {
      RegsSame(s1, t, r, r');
    } else {
      ExamineOk(s1, t, r, lv, curr, nn);
    }
  }

  lemma FindRetireStep(sh: Shared, t: Tid, r: Local, c: Choice)
    requires SharedInv(sh) && RegsOk(sh, t, r) && FindInv(sh, t, r) && r.pc.FRetire?
    ensures StepGood(sh, t, ExecFind(sh, t, r, c).0, ExecFind(sh, t, r, c).1)
  {
    var FRetire(lv, curr, next, nn) := r.pc;
    var sh' := ActRetire(sh, next);
    RetireKeeps(sh, sh', t, next);
    RegsKept(sh, sh', t, r);
    WalkingKept(sh, sh', t, r, lv, curr);
    NextKept(sh, sh', nn, lv);
    ExamineOk(sh', t, r, lv, curr, nn);
    assert Examine(sh, r, lv, curr, nn) == Examine(sh', r, lv, curr, nn);
  }

  /** A search hands nothing out, so the registers it started with stay valid. */
  lemma FindRegs(sh: Shared, t: Tid, r: Local, c: Choice)
    requires RegsOk(sh, t, r) && Mono(sh, ExecFind(sh, t, r, c).0)
    ensures RegsOk(ExecFind(sh, t, r, c).0, t, r)
  {
    hide RegsOk, Mono;
    var sh' := ExecFind(sh, t, r, c).0;
    assert sh'.handed == sh.handed by { hide Decide, Examine, AfterFind; }
    RegsKept(sh, sh', t, r);
  }

  lemma FindStep(sh: Shared, t: Tid, r: Local, c: Choice)
    requires SharedInv(sh) && RegsOk(sh, t, r) && FindInv(sh, t, r) && InFind(r.pc)
    ensures StepGood(sh, t, ExecFind(sh, t, r, c).0, ExecFind(sh, t, r, c).1)
  {
    hide SharedInv, RegsOk, FindInv, StepGood, LocalInv, ExecFind;
    if r.pc.FCas? { FindCasStep(sh, t, r, c); }
    else if r.pc.FSub? { FindSubStep(sh, t, r, c); }
    else if r.pc.FRetire? { FindRetireStep(sh, t, r, c); }
    else {
      if r.pc.FInit? || r.pc.FStart? { FindInitStep(sh, t, r, c); }
      else if r.pc.FFinal? || r.pc.FCheck? { FindFinalStep(sh, t, r, c); }
      else { FindWalkStep(sh, t, r, c); }
      LocalStep(sh, t, ExecFind(sh, t, r, c).1);
    }
  }

  // ------------------------------------------------------------------ set_removed and tag_levels

  lemma AfterLostOk(sh: Shared, t: Tid, r: Local)
    requires RegsOk(sh, t, r) && Removing(sh, t, r)
    ensures LocalInv(sh, t, AfterLost(r))
  {
    hide Building, PrevOk, FindInv, RemovalInv;
    RegsSame(sh, t, r, AfterLost(r));
    hide RegsOk;
  }

  lemma AfterTaggedOk(sh: Shared, t: Tid, r: Local)
    requires SharedInv(sh) && RegsOk(sh, t, r) && Tagging(sh, t, r, -1)
    ensures LocalInv(sh, t, AfterTagged(r, sh.heap[r.target].height))
  {
    hide SharedInv, RegsOk, Building, FindInv, InsertInv;
    TargetShape(sh, r.target);
    RegsSame(sh, t, r, AfterTagged(r, sh.heap[r.target].height));
  }

  lemma LoadRemovedStep(sh: Shared, t: Tid, r: Local)
    requires SharedInv(sh) && RegsOk(sh, t, r) && RemovalInv(sh, t, r) && r.pc.SLoad?
    ensures StepGood(sh, t, ExecRemove(sh, t, r).0, ExecRemove(sh, t, r).1)
  {
    hide SharedInv, Mono;
    AfterLostOk(sh, t, r);
    RegsSame(sh, t, r, r.(pc := SCas(sh.heap[r.target].refs)));
    LocalStep(sh, t, ExecRemove(sh, t, r).1);
  }

  /** A node that is not removed is counted, untagged, and nobody's. */
  lemma NotRemoved(sh: Shared, n: NodeId)
    requires SharedInv(sh) && Visited(sh, n, 0) && !sh.heap[n].removed
    ensures n in sh.counted && n !in sh.handed && sh.shadow[n].winner == None
    ensures forall i: nat :: !Tagged(sh, n, i)
    ensures |sh.heap[n].levels| == sh.heap[n].height >= 1
  {
    assert NodeOk(sh, n);
  }

  lemma WinStep(sh: Shared, t: Tid, r: Local)
    requires SharedInv(sh) && RegsOk(sh, t, r) && Removing(sh, t, r) && !sh.heap[r.target].removed
    ensures var sh' := ActRemove(sh, t, r.target);
            SharedInv(sh') && Mono(sh, sh') && KeptByAll(sh, sh') && RegsOk(sh', t, r)
            && Tagging(sh', t, r, sh.heap[r.target].height - 1)
  {
    hide SharedInv, Building, Kept;
    var sh' := ActRemove(sh, t, r.target);
    NotRemoved(sh, r.target);
    RemoveKeeps(sh, sh', t, r.target);
    AllKept(sh, sh', t);
    RegsKept(sh, sh', t, r);
    RemovingKept(sh, sh', t, r);
    EverLinkedMono(sh, sh', r.target, 0);
    forall i | 0 <= i < |sh'.heap[r.target].levels| ensures !Tagged(sh', r.target, i) { assert !Tagged(sh, r.target, i); }
  }

  lemma CasRemovedStep(sh: Shared, t: Tid, r: Local)
    requires SharedInv(sh) && RegsOk(sh, t, r) && RemovalInv(sh, t, r) && r.pc.SCas?
    ensures StepGood(sh, t, ExecRemove(sh, t, r).0, ExecRemove(sh, t, r).1)
  {
    hide SharedInv, Mono, Building, Kept;
    var (sh', r') := ExecRemove(sh, t, r);
    var node := sh.heap[r.target];
    AfterLostOk(sh, t, r);
    if node.refs == r.pc.refs && !node.removed {
      NotRemoved(sh, r.target);
      WinStep(sh, t, r);
      RegsSame(sh', t, r, r');
    } else {
      LocalStep(sh, t, r');
    }
  }

  lemma TagLoadStep(sh: Shared, t: Tid, r: Local)
    requires SharedInv(sh) && RegsOk(sh, t, r) && RemovalInv(sh, t, r) && r.pc.TLoad?
    ensures StepGood(sh, t, ExecRemove(sh, t, r).0, ExecRemove(sh, t, r).1)
  {
    hide SharedInv, Mono, Building;
    RegsSame(sh, t, r, ExecRemove(sh, t, r).1);
    LocalStep(sh, t, ExecRemove(sh, t, r).1);
  }

  /** The thread that removed `target` finds the next level untagged and tags it. */
  lemma TagOne(sh: Shared, t: Tid, r: Local, lv: nat, p: Ptr)
    requires SharedInv(sh) && RegsOk(sh, t, r) && Tagging(sh, t, r, lv) && lv < |sh.heap[r.target].levels|
    requires sh.heap[r.target].levels[lv] == Word(p, false)
    ensures var sh' := ActTag(sh, r.target, lv, p);
            SharedInv(sh') && Mono(sh, sh') && KeptByOthers(sh, sh', t) && RegsOk(sh', t, r) && Tagging(sh', t, r, lv - 1)
  {
    hide SharedInv, Building, Kept, Mono;
    var sh' := ActTag(sh, r.target, lv, p);
    assert forall j: nat :: lv < j < |sh.heap[r.target].levels| ==> Tagged(sh, r.target, j);
    TagKeeps(sh, sh', t, r.target, lv, p);
    RegsKept(sh, sh', t, r);
    RemovingKept(sh, sh', t, r);
    WonKept(sh, sh', t, r.target);
    forall i | 0 <= i < |sh'.heap[r.target].levels| ensures Tagged(sh', r.target, i) <==> lv - 1 < i {
      assert Tagged(sh, r.target, i) <==> lv < i;
    }
  }

  /** Somebody else's pointer was in the way: `tag_levels` tries again. */
  lemma TagAgain(sh: Shared, t: Tid, r: Local, r': Local)
    requires RegsOk(sh, t, r) && RemovalInv(sh, t, r) && r.pc.TCas? && r'.pc.TCas? && r' == r.(pc := r'.pc) && r'.pc.lv == r.pc.lv
    ensures LocalInv(sh, t, r')
  {
    hide RegsOk, Tagging, FindInv, InsertInv;
    TaggingSame(sh, t, r, r', r.pc.lv);
    RegsSame(sh, t, r, r');
  }

  /** The level is tagged: on to the next one, or done. */
  lemma TagOn(sh: Shared, t: Tid, r: Local, lv: nat)
    requires SharedInv(sh) && RegsOk(sh, t, r) && Tagging(sh, t, r, lv - 1) && lv < |sh.heap[r.target].levels|
    ensures LocalInv(sh, t, if lv == 0 then AfterTagged(r, sh.heap[r.target].height) else r.(pc := TLoad(lv - 1)))
  {
    hide SharedInv, RegsOk, Tagging, FindInv, InsertInv;
    if lv == 0 {
      AfterTaggedOk(sh, t, r);
    } else {
      TaggingSame(sh, t, r, r.(pc := TLoad(lv - 1)), lv - 1);
      RegsSame(sh, t, r, r.(pc := TLoad(lv - 1)));
    }
  }

  lemma TagCasStep(sh: Shared, t: Tid, r: Local)
    requires SharedInv(sh) && RegsOk(sh, t, r) && RemovalInv(sh, t, r) && r.pc.TCas?
    ensures StepGood(sh, t, ExecRemove(sh, t, r).0, ExecRemove(sh, t, r).1)
  {
    hide SharedInv, RegsOk, LocalInv, Kept, Mono, Removing, Won;
    var (sh', r') := ExecRemove(sh, t, r);
    var TCas(lv, p) := r.pc;
    TaggingSame(sh, t, r, r, lv);
    assert !Tagged(sh, r.target, lv);
    if sh.heap[r.target].levels[lv] == Word(p, false) {
      TagOne(sh, t, r, lv, p);
      TagOn(sh', t, r, lv);
    } else {
      TagAgain(sh, t, r, r');
      LocalStep(sh, t, r');
    }
  }

  // ------------------------------------------------------------------ unlink

  lemma AfterUnlinkOk(sh: Shared, t: Tid, r: Local, ok: bool)
    requires RegsOk(sh, t, r) && Removing(sh, t, r) && Won(sh, t, r.target) && r.caller != EntryCall
    ensures LocalInv(sh, t, AfterUnlink(r, ok))
  {
    hide Building;
    RegsSame(sh, t, r, AfterUnlink(r, ok));
  }

  lemma NextUnlinkOk(sh: Shared, t: Tid, r: Local, lv: nat)
    requires RegsOk(sh, t, r) && Untying(sh, t, r) && lv < |sh.heap[r.target].levels|
    ensures LocalInv(sh, t, NextUnlink(r, lv))
  {
    hide Building;
    RegsSame(sh, t, r, NextUnlink(r, lv));
  }

  /** A successful compare-exchange of `unlink` drops the target from one chain. */
  lemma UnlinkCasWin(sh: Shared, t: Tid, r: Local, sh': Shared)
    requires SharedInv(sh) && RegsOk(sh, t, r) && r.pc.UCas? && RemovalInv(sh, t, r) && r.pc.lv < HEIGHT
    requires EverLinked(sh, r.prev[r.pc.lv].0, r.pc.lv)
    requires sh.heap[r.prev[r.pc.lv].0].levels[r.pc.lv] == Word(Some(r.target), false)
    requires sh' == ActUnlink(sh, t, r.prev[r.pc.lv].0, r.target, r.pc.nn, r.pc.lv)
    ensures StepGood(sh, t, sh', r.(pc := USub(r.pc.lv)))
  {
    hide SharedInv, Building, Mono, KeptByAll, KeptByOthers, KeptNew, KeptHanded, KeptWon, KeptDebt;
    var UCas(lv, nn) := r.pc;
    assert Tagged(sh, r.target, lv);
    UnlinkKeeps(sh, sh', t, r.prev[lv].0, r.target, nn, lv);
    hide ActUnlink;
    AllKept(sh, sh', t);
    RegsKept(sh, sh', t, r);
    TaggingKept(sh, sh', t, r, -1);
    hide RegsOk;
    RegsSame(sh', t, r, r.(pc := USub(lv)));
  }

  lemma UnlinkCasStep(sh: Shared, t: Tid, r: Local)
    requires SharedInv(sh) && RegsOk(sh, t, r) && RemovalInv(sh, t, r) && r.pc.UCas?
    ensures StepGood(sh, t, ExecUnlink(sh, t, r).0, ExecUnlink(sh, t, r).1)
  {
    hide SharedInv, Building, StepGood, ActUnlink;
    var (sh', r') := ExecUnlink(sh, t, r);
    var UCas(lv, nn) := r.pc;
    TargetShape(sh, r.target);
    assert PrevOk(sh, r, lv);
    WordThere(sh, r.prev[lv].0, lv);
    if sh.heap[r.prev[lv].0].levels[lv] == Word(Some(r.target), false) {
      UnlinkCasWin(sh, t, r, sh');
    } else {
      AfterUnlinkOk(sh, t, r, false);
      LocalStep(sh, t, r');
    }
  }

  lemma TargetShape(sh: Shared, n: NodeId)
    requires SharedInv(sh) && Visited(sh, n, 0)
    ensures |sh.heap[n].levels| == |sh.shadow[n].links| == sh.heap[n].height && 1 <= sh.heap[n].height <= HEIGHT
  {
    assert NodeOk(sh, n);
  }

  lemma UnlinkSubStep(sh: Shared, t: Tid, r: Local)
    requires SharedInv(sh) && RegsOk(sh, t, r) && RemovalInv(sh, t, r) && r.pc.USub?
    ensures StepGood(sh, t, ExecUnlink(sh, t, r).0, ExecUnlink(sh, t, r).1)
  {
    hide SharedInv, Building, Kept, Mono;
    var lv := r.pc.lv;
    var s1 := ActSub(sh, t, r.target, lv);
    TargetShape(sh, r.target);
    SubKeeps(sh, s1, t, r.target, lv);
    RegsKept(sh, s1, t, r);
    TaggingKept(sh, s1, t, r, -1);
    TargetShape(s1, r.target);
    if sh.heap[r.target].refs == 1 {
      RegsSame(s1, t, r, r.(pc := URetire));
    } else {
      NextUnlinkOk(s1, t, r, lv);
    }
  }

  lemma TaggingSame(sh: Shared, t: Tid, r: Local, r': Local, lv: int)
    requires Tagging(sh, t, r, lv) && r' == r.(pc := r'.pc)
    ensures Tagging(sh, t, r', lv) && r.target < |sh.heap|
  {
    hide Won, Building;
  }

  lemma UnlinkLoadStep(sh: Shared, t: Tid, r: Local)
    requires SharedInv(sh) && RegsOk(sh, t, r) && RemovalInv(sh, t, r) && r.pc.ULoad?
    ensures StepGood(sh, t, ExecUnlink(sh, t, r).0, ExecUnlink(sh, t, r).1)
  {
    hide SharedInv, StepGood, RegsOk, Tagging, FindInv, InsertInv, CallInv;
    var r' := ExecUnlink(sh, t, r).1;
    TaggingSame(sh, t, r, r', -1);
    RegsSame(sh, t, r, r');
    LocalStep(sh, t, r');
  }

  lemma UnlinkRetireStep(sh: Shared, t: Tid, r: Local)
    requires SharedInv(sh) && RegsOk(sh, t, r) && RemovalInv(sh, t, r) && r.pc.URetire?
    ensures StepGood(sh, t, ExecUnlink(sh, t, r).0, ExecUnlink(sh, t, r).1)
  {
    hide SharedInv, Building, Kept, KeptByOthers, KeptNew, KeptHanded, KeptWon, Mono;
    var (sh', r') := ExecUnlink(sh, t, r);
    RetireKeeps(sh, sh', t, r.target);
    RegsKept(sh, sh', t, r);
    TaggingKept(sh, sh', t, r, -1);
    RegsSame(sh', t, r, r');
  }

  lemma UnlinkLenStep(sh: Shared, t: Tid, r: Local)
    requires SharedInv(sh) && RegsOk(sh, t, r) && RemovalInv(sh, t, r) && r.pc.ULen?
    ensures StepGood(sh, t, ExecUnlink(sh, t, r).0, ExecUnlink(sh, t, r).1)
  {
    hide SharedInv, Building, Kept, KeptByOthers, KeptNew, KeptHanded, KeptDebt, Mono;
    var (sh', r') := ExecUnlink(sh, t, r);
    UncountKeeps(sh, sh', t, r.target);
    RegsKept(sh, sh', t, r);
    RemovingKept(sh, sh', t, r);
    WonKept(sh, sh', t, r.target);
    AfterUnlinkOk(sh', t, r, true);
  }

  lemma RemovalStep(sh: Shared, t: Tid, r: Local)
    requires SharedInv(sh) && RegsOk(sh, t, r) && RemovalInv(sh, t, r)
    ensures InUnlink(r.pc) ==> StepGood(sh, t, ExecUnlink(sh, t, r).0, ExecUnlink(sh, t, r).1)
    ensures !InUnlink(r.pc) ==> StepGood(sh, t, ExecRemove(sh, t, r).0, ExecRemove(sh, t, r).1)
  {
    hide SharedInv, RegsOk, StepGood, ExecUnlink, ExecRemove;
    match r.pc
    case SLoad => LoadRemovedStep(sh, t, r);
    case SCas(_) => CasRemovedStep(sh, t, r);
    case TLoad(_) => TagLoadStep(sh, t, r);
    case TCas(_, _) => TagCasStep(sh, t, r);
    case UCas(_, _) => UnlinkCasStep(sh, t, r);
    case USub(_) => UnlinkSubStep(sh, t, r);
    case ULoad(_) => UnlinkLoadStep(sh, t, r);
    case URetire => UnlinkRetireStep(sh, t, r);
    case ULen => UnlinkLenStep(sh, t, r);
  }

  // ------------------------------------------------------------------ insert and link_nodes

  lemma CreateStep(sh: Shared, t: Tid, r: Local, c: Choice)
    requires SharedInv(sh) && RegsOk(sh, t, r) && r.pc.Create? && InsertInv(sh, t, r)
    ensures StepGood(sh, t, ExecInsert(sh, t, r, c).0, ExecInsert(sh, t, r, c).1)
  {
    hide SharedInv, Building, KeptByAll, KeptByOthers, KeptNew, KeptHanded, KeptWon, KeptDebt, Mono;
    var (sh', r') := ExecInsert(sh, t, r, c);
    if 1 <= c.height <= HEIGHT {
      CreateKeeps(sh, sh', t, r.key, r.val, c.height);
      AllKept(sh, sh', t);
      RegsKept(sh, sh', t, r);
      RegsSame(sh', t, r, r');
    } else {
      LocalStep(sh, t, r');
    }
  }

  /** The node a thread is building has the shape of a node. */
  lemma NewShape(sh: Shared, t: Tid, r: Local, at: LinkState)
    requires NewOk(sh, t, r, at)
    ensures r.newNode.value < |sh.heap| && sh.heap[r.newNode.value].key == r.key && sh.heap[r.newNode.value].val == r.val
    ensures |sh.heap[r.newNode.value].levels| == sh.heap[r.newNode.value].height <= HEIGHT
    ensures Building(sh, t, r.newNode.value, r.start, at)
  {
  }

  /** Before it is on the bottom chain, nobody can have removed the new node. */
  lemma NotYetRemoved(sh: Shared, t: Tid, n: NodeId, at: LinkState)
    requires SharedInv(sh) && Building(sh, t, n, 0, at) && !EverState(at) && 0 < sh.heap[n].height
    ensures !sh.heap[n].removed
  {
    assert NodeOk(sh, n);
    assert !EverLinked(sh, n, 0);
  }

  lemma LinkLookStep(sh: Shared, t: Tid, r: Local, c: Choice)
    requires SharedInv(sh) && RegsOk(sh, t, r) && InsertInv(sh, t, r)
    requires r.pc.LLoad? || r.pc.LRemoved? || r.pc.LGuard? || r.pc.LEnd?
    ensures ExecInsert(sh, t, r, c).0 == sh && LocalInv(sh, t, ExecInsert(sh, t, r, c).1)
  {
    hide SharedInv, Building;
    var r' := ExecInsert(sh, t, r, c).1;
    RegsSame(sh, t, r, r');
    if r.pc.LRemoved? { LookSucc(sh, t, r); }
    if !r.pc.LEnd? { LookNew(sh, t, r); }
    hide RegsOk;
  }

  lemma LookSucc(sh: Shared, t: Tid, r: Local)
    requires RegsOk(sh, t, r) && InsertInv(sh, t, r) && r.pc.LRemoved?
    ensures r.start < |r.prev| && (r.prev[r.start].1.Some? ==> r.prev[r.start].1.value < |sh.heap|)
  {
    NewShape(sh, t, r, Fresh);
    assert PrevOk(sh, r, r.start);
  }

  /** What the loads of `link_nodes` rely on. */
  lemma LookNew(sh: Shared, t: Tid, r: Local)
    requires SharedInv(sh) && InsertInv(sh, t, r) && (r.pc.LLoad? || r.pc.LRemoved? || r.pc.LGuard?)
    ensures r.newNode.Some? && r.newNode.value < |sh.heap| && r.start <= sh.heap[r.newNode.value].height
    ensures |sh.heap[r.newNode.value].levels| == sh.heap[r.newNode.value].height <= HEIGHT
    ensures sh.heap[r.newNode.value].key == r.key
    ensures r.pc.LGuard? && r.start == 0 ==> !sh.heap[r.newNode.value].removed
  {
    hide SharedInv;
    NewShape(sh, t, r, Fresh);
    if r.pc.LGuard? && r.start == 0 { NotYetRemoved(sh, t, r.newNode.value, Fresh); }
  }

  lemma CountStep(sh: Shared, t: Tid, r: Local, c: Choice)
    requires SharedInv(sh) && RegsOk(sh, t, r) && r.pc.ILen? && InsertInv(sh, t, r)
    ensures StepGood(sh, t, ExecInsert(sh, t, r, c).0, ExecInsert(sh, t, r, c).1)
  {
    hide SharedInv, KeptByOthers, KeptNew, KeptHanded, KeptWon, KeptDebt, Mono;
    var (sh', r') := ExecInsert(sh, t, r, c);
    var n := r.newNode.value;
    CountKeeps(sh, sh', t, n);
    RegsKept(sh, sh', t, r);
    RegsSame(sh', t, r, r');
  }

  /** Writing its own word or moving between Fresh and Reserved leaves the new node as it was otherwise. */
  lemma StillBuilding(sh: Shared, sh': Shared, t: Tid, r: Local, at: LinkState, at': LinkState)
    requires NewBelow(sh, t, r, at) && Mono(sh, sh') && sh'.counted == sh.counted
    requires r.newNode.value < |sh'.shadow|
    requires sh'.shadow[r.newNode.value].links == sh.shadow[r.newNode.value].links[r.start := at']
    ensures NewBelow(sh', t, r, at')
  {
    var n := r.newNode.value;
    assert MonoNode(sh, sh', n);
    forall j | 0 <= j < r.start ensures EverLinked(sh', n, j) { EverLinkedMono(sh, sh', n, j); }
  }

  lemma OwnWin(sh: Shared, t: Tid, r: Local, sh': Shared)
    requires SharedInv(sh) && RegsOk(sh, t, r) && r.pc.LOwn? && InsertInv(sh, t, r) && r.start < |r.prev|
    requires !sh.heap[r.newNode.value].levels[r.start].tag
    requires sh' == StoreWord(sh, r.newNode.value, r.start, Word(r.prev[r.start].1, false))
    ensures StepGood(sh, t, sh', r.(pc := LRef))
  {
    hide SharedInv, KeptByOthers, KeptNew, KeptHanded, KeptWon, KeptDebt, Mono, Building, FindInv, RemovalInv;
    var n := r.newNode.value;
    NewShape(sh, t, r, Fresh);
    assert PrevOk(sh, r, r.start);
    OwnKeeps(sh, sh', t, n, r.start, r.prev[r.start].1);
    RegsKept(sh, sh', t, r);
    RegsSame(sh', t, r, r.(pc := LRef));
    hide RegsOk;
    LinkAt(sh, t, n, r.start, Fresh);
    StillBuilding(sh, sh', t, r, Fresh, Fresh);
    GuardKept(sh, sh', r);
  }

  lemma LinkAt(sh: Shared, t: Tid, n: NodeId, i: nat, at: LinkState)
    requires Building(sh, t, n, i, at) && i < sh.heap[n].height
    ensures n < |sh.shadow| && i < |sh.shadow[n].links| && sh.shadow[n].links[i] == at
    ensures sh.shadow[n].links[i := at] == sh.shadow[n].links
  {
  }

  lemma OwnStep(sh: Shared, t: Tid, r: Local, c: Choice)
    requires SharedInv(sh) && RegsOk(sh, t, r) && r.pc.LOwn? && InsertInv(sh, t, r)
    ensures StepGood(sh, t, ExecInsert(sh, t, r, c).0, ExecInsert(sh, t, r, c).1)
  {
    hide SharedInv, Building, StepGood;
    var (sh', r') := ExecInsert(sh, t, r, c);
    NewShape(sh, t, r, Fresh);
    if sh.heap[r.newNode.value].levels[r.start] == Word(r.pc.cn, false) {
      OwnWin(sh, t, r, sh');
    } else {
      hide RemovalInv, PrevOk;
      RegsSame(sh, t, r, r');
      LocalStep(sh, t, r');
    }
  }

  lemma ReserveWin(sh: Shared, t: Tid, r: Local, sh': Shared)
    requires SharedInv(sh) && RegsOk(sh, t, r) && r.pc.LRef? && InsertInv(sh, t, r)
    requires r.start > 0 ==> sh.heap[r.newNode.value].refs != 0
    requires sh' == ActReserve(sh, r.newNode.value, r.start)
    ensures StepGood(sh, t, sh', r.(pc := LCas))
  {
    hide SharedInv, KeptByOthers, KeptNew, KeptHanded, KeptWon, KeptDebt, Mono, Building, FindInv, RemovalInv;
    var n := r.newNode.value;
    NewShape(sh, t, r, Fresh);
    ReserveKeeps(sh, sh', t, n, r.start);
    RegsKept(sh, sh', t, r);
    RegsSame(sh', t, r, r.(pc := LCas));
    hide RegsOk;
    LinkAt(sh, t, n, r.start, Fresh);
    StillBuilding(sh, sh', t, r, Fresh, Reserved);
    GuardKept(sh, sh', r);
  }

  lemma ReserveStep(sh: Shared, t: Tid, r: Local, c: Choice)
    requires SharedInv(sh) && RegsOk(sh, t, r) && r.pc.LRef? && InsertInv(sh, t, r)
    ensures StepGood(sh, t, ExecInsert(sh, t, r, c).0, ExecInsert(sh, t, r, c).1)
  {
    hide SharedInv, Building, StepGood, ActReserve;
    var (sh', r') := ExecInsert(sh, t, r, c);
    NewShape(sh, t, r, Fresh);
    if r.start > 0 && sh.heap[r.newNode.value].refs == 0 {
      RegsSame(sh, t, r, r');
      LocalStep(sh, t, r');
    } else {
      ReserveWin(sh, t, r, sh');
    }
  }

  /** Once linked at level `start`, the new node is linked below `start + 1`. */
  lemma BuiltOne(sh: Shared, sh': Shared, t: Tid, r: Local)
    requires NewBelow(sh, t, r, Reserved) && Mono(sh, sh')
    requires r.newNode.value < |sh'.shadow|
    requires sh'.shadow[r.newNode.value].links == sh.shadow[r.newNode.value].links[r.start := Linked]
    ensures NewOk(sh', t, r.(start := r.start + 1, pc := LLoad), Fresh)
  {
    var n := r.newNode.value;
    assert MonoNode(sh, sh', n);
    forall j | 0 <= j < r.start + 1 ensures EverLinked(sh', n, j) {
      if j < r.start { EverLinkedMono(sh, sh', n, j); }
    }
  }

  lemma LinkWin(sh: Shared, t: Tid, r: Local, sh': Shared)
    requires SharedInv(sh) && RegsOk(sh, t, r) && r.pc.LCas? && InsertInv(sh, t, r) && r.start < HEIGHT
    requires EverLinked(sh, r.prev[r.start].0, r.start)
    requires sh.heap[r.prev[r.start].0].levels[r.start] == Word(r.prev[r.start].1, false)
    requires sh' == ActLink(sh, r.prev[r.start].0, r.newNode.value, r.start)
    ensures StepGood(sh, t, sh', r.(start := r.start + 1, pc := LLoad))
  {
    hide SharedInv, KeptByOthers, KeptNew, KeptHanded, KeptWon, KeptDebt, Mono, Building;
    var n := r.newNode.value;
    NewShape(sh, t, r, Reserved);
    assert PrevOk(sh, r, r.start);
    LinkKeeps(sh, sh', t, r.prev[r.start].0, n, r.start);
    RegsKept(sh, sh', t, r);
    RegsSame(sh', t, r, r.(start := r.start + 1, pc := LLoad));
    hide RegsOk;
    LinkAt(sh, t, n, r.start, Reserved);
    BuiltOne(sh, sh', t, r);
  }

  /** What the compare-exchange that links relies on. */
  lemma LinkFacts(sh: Shared, t: Tid, r: Local)
    requires RegsOk(sh, t, r) && r.pc.LCas? && InsertInv(sh, t, r)
    ensures r.newNode.Some? && r.newNode.value < |sh.heap| && r.start < HEIGHT == |r.prev|
    ensures EverLinked(sh, r.prev[r.start].0, r.start)
  {
    hide Guarded, OwnSet;
    NewShape(sh, t, r, Reserved);
    assert PrevOk(sh, r, r.start);
  }

  lemma LinkLost(sh: Shared, t: Tid, r: Local)
    requires RegsOk(sh, t, r) && r.pc.LCas? && InsertInv(sh, t, r)
    ensures LocalInv(sh, t, r.(pc := LUnref))
  {
    hide Guarded, OwnSet, Building, PrevOk, FindInv, RemovalInv;
    RegsSame(sh, t, r, r.(pc := LUnref));
  }

  lemma LinkIs(sh: Shared, t: Tid, r: Local, c: Choice, p: NodeId)
    requires r.pc.LCas? && r.newNode.Some? && r.newNode.value < |sh.heap| && r.start < |r.prev| && p == r.prev[r.start].0
    requires p < |sh.heap| && r.start < |sh.heap[p].levels|
    ensures ExecInsert(sh, t, r, c) ==
            if sh.heap[p].levels[r.start] == Word(r.prev[r.start].1, false)
            then (ActLink(sh, p, r.newNode.value, r.start), r.(start := r.start + 1, pc := LLoad))
            else (sh, r.(pc := LUnref))
  {
    hide ActLink;
  }

  lemma LinkStep(sh: Shared, t: Tid, r: Local, c: Choice)
    requires SharedInv(sh) && RegsOk(sh, t, r) && r.pc.LCas? && InsertInv(sh, t, r)
    ensures StepGood(sh, t, ExecInsert(sh, t, r, c).0, ExecInsert(sh, t, r, c).1)
  {
    hide SharedInv, RegsOk, InsertInv, LocalInv, StepGood, ActLink;
    var (sh', r') := ExecInsert(sh, t, r, c);
    LinkFacts(sh, t, r);
    LinkIs(sh, t, r, c, r.prev[r.start].0);
    hide ExecInsert;
    WordThere(sh, r.prev[r.start].0, r.start);
    if sh.heap[r.prev[r.start].0].levels[r.start] == Word(r.prev[r.start].1, false) {
      LinkWin(sh, t, r, sh');
    } else {
      LinkLost(sh, t, r);
      LocalStep(sh, t, r');
    }
  }

  lemma UnreserveStep(sh: Shared, t: Tid, r: Local, c: Choice)
    requires SharedInv(sh) && RegsOk(sh, t, r) && r.pc.LUnref? && InsertInv(sh, t, r)
    ensures StepGood(sh, t, ExecInsert(sh, t, r, c).0, ExecInsert(sh, t, r, c).1)
  {
    hide SharedInv, KeptByOthers, KeptNew, KeptHanded, KeptWon, KeptDebt, Mono, Building;
    var (sh', r') := ExecInsert(sh, t, r, c);
    var n := r.newNode.value;
    NewShape(sh, t, r, Reserved);
    UnreserveKeeps(sh, sh', t, n, r.start);
    RegsKept(sh, sh', t, r);
    RegsSame(sh', t, r, r');
    hide RegsOk;
    LinkAt(sh, t, n, r.start, Reserved);
    StillBuilding(sh, sh', t, r, Reserved, Fresh);
  }

  lemma InsertStep(sh: Shared, t: Tid, r: Local, c: Choice)
    requires SharedInv(sh) && RegsOk(sh, t, r) && InsertInv(sh, t, r) && InInsert(r.pc)
    ensures StepGood(sh, t, ExecInsert(sh, t, r, c).0, ExecInsert(sh, t, r, c).1)
  {
    hide SharedInv, RegsOk, StepGood, ExecInsert, InsertInv;
    if r.pc.Create? { CreateStep(sh, t, r, c); }
    else if r.pc.ILen? { CountStep(sh, t, r, c); }
    else if r.pc.LOwn? { OwnStep(sh, t, r, c); }
    else if r.pc.LRef? { ReserveStep(sh, t, r, c); }
    else if r.pc.LCas? { LinkStep(sh, t, r, c); }
    else if r.pc.LUnref? { UnreserveStep(sh, t, r, c); }
    else { LinkLookStep(sh, t, r, c); LocalStep(sh, t, ExecInsert(sh, t, r, c).1); }
  }

  // ------------------------------------------------------------------ the whole system

  /** One atomic step of one thread. */
  lemma StepKeeps(sh: Shared, t: Tid, r: Local, c: Choice)
    requires SharedInv(sh) && LocalInv(sh, t, r)
    ensures StepGood(sh, t, Exec(sh, t, r, c).0, Exec(sh, t, r, c).1)
  {
    hide SharedInv, RegsOk, StepGood, FindInv, RemovalInv, InsertInv, CallInv;
    hide ExecFind, ExecRemove, ExecUnlink, ExecInsert, ExecCall;
    if InFind(r.pc) { FindStep(sh, t, r, c); }
    else if InRemoval(r.pc) { RemovalStep(sh, t, r); }
    else if InInsert(r.pc) { InsertStep(sh, t, r, c); }
    else { CallStep(sh, t, r, c); }
  }

  /** The invariant holds after every step of any thread, and when a thread appears. */
  /** The assertion of a thread rules out panics and stray accesses. */
  lemma NoFailure(sh: Shared, t: Tid, r: Local)
    requires LocalInv(sh, t, r)
    ensures !r.pc.Panic? && (r.pc.Fault? ==> r.caller == ClosestCall)
  {
  }

  lemma NextKeeps(s: State, s': State)
    requires Inv(s) && Next(s, s')
    ensures Inv(s')
  {
    hide SharedInv, LocalInv, Mono, Exec;
    if s' == s.(th := s.th + [IDLE]) {
      IdleOk(s.sh, |s.th|);
    } else {
      var t: Tid, c :| Steps(s, s', t, c);
      StepKeeps(s.sh, t, s.th[t], c);
      forall u: Tid | u < |s'.th| ensures LocalInv(s'.sh, u, s'.th[u]) {
        if u != t { LocalKept(s.sh, s'.sh, u, s.th[u]); }
      }
    }
  }

  lemma IdleOk(sh: Shared, t: Tid)
    requires SharedInv(sh)
    ensures LocalInv(sh, t, IDLE)
  {
    IdleRegs(sh, t, IDLE);
  }
}
