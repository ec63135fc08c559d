/** A thread's assertion survives the steps of other threads, and the parts of it that its own steps keep. */
module SyncStable {
  import opened Common
  import opened SyncState
  import opened SyncExec
  import opened SyncInv

  lemma EverLinkedMono(sh: Shared, sh': Shared, n: NodeId, i: nat)
    requires Mono(sh, sh') && EverLinked(sh, n, i)
    ensures EverLinked(sh', n, i)
  {
    assert MonoNode(sh, sh', n);
  }

  lemma TaggedMono(sh: Shared, sh': Shared, n: NodeId, i: nat)
    requires Mono(sh, sh') && Tagged(sh, n, i)
    ensures Tagged(sh', n, i) && sh'.heap[n].levels[i] == sh.heap[n].levels[i]
  {
    assert MonoNode(sh, sh', n);
  }

  lemma KeyMono(sh: Shared, sh': Shared, n: NodeId, k: int)
    requires Mono(sh, sh') && KeyBelow(sh, n, k)
    ensures KeyBelow(sh', n, k)
  {
    if n != HEAD { assert MonoNode(sh, sh', n); }
  }

  lemma WonKept(sh: Shared, sh': Shared, t: Tid, n: NodeId)
    requires Mono(sh, sh') && KeptHanded(sh, sh', t) && Won(sh, t, n)
    ensures Won(sh', t, n)
  {
    EverLinkedMono(sh, sh', n, 0);
    assert MonoNode(sh, sh', n);
  }

  lemma PrevKept(sh: Shared, sh': Shared, r: Local, i: nat)
    requires Mono(sh, sh') && PrevOk(sh, r, i)
    ensures PrevOk(sh', r, i)
  {
    EverLinkedMono(sh, sh', r.prev[i].0, i);
    KeyMono(sh, sh', r.prev[i].0, r.key);
    if r.prev[i].1.Some? { EverLinkedMono(sh, sh', r.prev[i].1.value, i); }
  }

  lemma RegsKept(sh: Shared, sh': Shared, t: Tid, r: Local)
    requires Mono(sh, sh') && KeptHanded(sh, sh', t) && RegsOk(sh, t, r)
    ensures RegsOk(sh', t, r)
  {
    forall i | 0 <= i < HEIGHT ensures PrevOk(sh', r, i) { PrevKept(sh, sh', r, i); }
    if r.existing.Some? { WonKept(sh, sh', t, r.existing.value); assert MonoNode(sh, sh', r.existing.value); }
  }

  lemma BuildingKept(sh: Shared, sh': Shared, t: Tid, n: NodeId, start: nat, at: LinkState)
    requires Mono(sh, sh') && KeptNew(sh, sh', t) && Building(sh, t, n, start, at) && !EverState(at)
    ensures Building(sh', t, n, start, at)
  {
    assert MonoNode(sh, sh', n);
    forall j | 0 <= j < start ensures EverLinked(sh', n, j) { EverLinkedMono(sh, sh', n, j); }
  }

  lemma NewKept(sh: Shared, sh': Shared, t: Tid, r: Local, at: LinkState)
    requires SharedInv(sh) && Mono(sh, sh') && KeptNew(sh, sh', t) && NewOk(sh, t, r, at) && !EverState(at)
    ensures NewOk(sh', t, r, at)
    ensures NewBelow(sh, t, r, at) ==> NewBelow(sh', t, r, at)
    ensures NewBelow(sh, t, r, at) && OwnSet(sh, r) ==> OwnSet(sh', r)
  {
    var n := r.newNode.value;
    assert MonoNode(sh, sh', n);
    BuildingKept(sh, sh', t, n, r.start, at);
    assert NodeOk(sh, n);
    if r.start == 0 {
      assert !EverLinked(sh, n, 0);
      assert sh.shadow[n].winner == None;
    }
  }

  lemma GuardKept(sh: Shared, sh': Shared, r: Local)
    requires Mono(sh, sh') && Guarded(sh, r)
    ensures Guarded(sh', r)
  {
    if r.start == 0 && |r.prev| > 0 && r.prev[0].1.Some? { assert MonoNode(sh, sh', r.prev[0].1.value); }
  }

  lemma ContextKept(sh: Shared, sh': Shared, t: Tid, r: Local)
    requires SharedInv(sh) && Mono(sh, sh') && KeptHanded(sh, sh', t) && KeptNew(sh, sh', t) && Context(sh, t, r)
    ensures Context(sh', t, r)
  {
    if r.caller == InsertRetry { NewKept(sh, sh', t, r, Fresh); }
    if r.caller == RemoveCleanup { WonKept(sh, sh', t, r.target); assert MonoNode(sh, sh', r.target); }
  }

  lemma CurrKept(sh: Shared, sh': Shared, r: Local, lv: nat, curr: NodeId)
    requires Mono(sh, sh') && CurrOk(sh, r, lv, curr)
    ensures CurrOk(sh', r, lv, curr)
  {
    EverLinkedMono(sh, sh', curr, lv);
    if r.caller != NextCall { KeyMono(sh, sh', curr, r.key); }
  }

  lemma NextKept(sh: Shared, sh': Shared, nn: Ptr, i: nat)
    requires Mono(sh, sh') && NextOk(sh, nn, i)
    ensures NextOk(sh', nn, i)
  {
    if nn.Some? { EverLinkedMono(sh, sh', nn.value, i); }
  }

  lemma RemovingKept(sh: Shared, sh': Shared, t: Tid, r: Local)
    requires SharedInv(sh) && Mono(sh, sh') && KeptNew(sh, sh', t) && Removing(sh, t, r)
    ensures Removing(sh', t, r)
  {
    EverLinkedMono(sh, sh', r.target, 0);
    assert MonoNode(sh, sh', r.target);
    if r.caller == InsertRetry { NewKept(sh, sh', t, r, Fresh); }
  }

  lemma TaggingKept(sh: Shared, sh': Shared, t: Tid, r: Local, lv: int)
    requires SharedInv(sh) && Mono(sh, sh') && KeptHanded(sh, sh', t) && KeptWon(sh, sh', t) && KeptNew(sh, sh', t) && Tagging(sh, t, r, lv)
    ensures Tagging(sh', t, r, lv)
  {
    RemovingKept(sh, sh', t, r);
    WonKept(sh, sh', t, r.target);
    assert MonoNode(sh, sh', r.target);
    forall i | 0 <= i < |sh'.heap[r.target].levels| ensures Tagged(sh', r.target, i) <==> lv < i {
      assert Tagged(sh, r.target, i) <==> lv < i;
    }
  }

  lemma RetiringKept(sh: Shared, sh': Shared, t: Tid, n: NodeId)
    requires Mono(sh, sh') && KeptDebt(sh, sh', t) && Retiring(sh, t, n)
    ensures Retiring(sh', t, n)
  {
    assert MonoNode(sh, sh', n);
  }

  lemma WalkingKept(sh: Shared, sh': Shared, t: Tid, r: Local, lv: nat, curr: NodeId)
    requires SharedInv(sh) && Mono(sh, sh') && KeptHanded(sh, sh', t) && KeptNew(sh, sh', t) && Walking(sh, t, r, lv, curr)
    ensures Walking(sh', t, r, lv, curr)
  {
    ContextKept(sh, sh', t, r);
    CurrKept(sh, sh', r, lv, curr);
  }

  lemma DebtKept(sh: Shared, sh': Shared, t: Tid, n: NodeId, i: nat)
    requires Mono(sh, sh') && KeptDebt(sh, sh', t) && Holds(sh, n, i, Unlinking(t))
    ensures Holds(sh', n, i, Unlinking(t))
  {
    assert MonoNode(sh, sh', n);
  }

  lemma KeptParts(sh: Shared, sh': Shared, u: Tid)
    requires Kept(sh, sh', u)
    ensures KeptHanded(sh, sh', u) && KeptNew(sh, sh', u) && KeptDebt(sh, sh', u)
  {
  }

  lemma CallKept(sh: Shared, sh': Shared, u: Tid, r: Local)
    requires SharedInv(sh) && Mono(sh, sh') && Kept(sh, sh', u) && CallInv(sh, u, r)
    ensures CallInv(sh', u, r)
  {
    match r.pc
    case Ret(a) =>
      if a.Some? {
        EverLinkedMono(sh, sh', a.value, 0);
        assert MonoNode(sh, sh', a.value);
        if Hands(r.caller) { WonKept(sh, sh', u, a.value); }
      }
    case NextStale(n) => EverLinkedMono(sh, sh', n, 0);
    case _ =>
  }

  lemma FindKept(sh: Shared, sh': Shared, u: Tid, r: Local)
    requires SharedInv(sh) && Mono(sh, sh') && Kept(sh, sh', u) && FindInv(sh, u, r)
    ensures FindInv(sh', u, r)
  {
    hide SharedInv, Walking, Context, Mono, Kept;
    assert KeptHanded(sh, sh', u) && KeptNew(sh, sh', u) && KeptDebt(sh, sh', u) by { KeptParts(sh, sh', u); }
    match r.pc
    case FInit(_) => ContextKept(sh, sh', u, r);
    case FStart => ContextKept(sh, sh', u, r);
    case FLoad(lv, curr) => WalkingKept(sh, sh', u, r, lv, curr);
    case FTag(lv, curr, next) =>
      WalkingKept(sh, sh', u, r, lv, curr); EverLinkedMono(sh, sh', next, lv);
    case FNext(lv, curr, next) =>
      WalkingKept(sh, sh', u, r, lv, curr); EverLinkedMono(sh, sh', next, lv);
      TaggedMono(sh, sh', next, lv);
    case FCas(lv, curr, next, nn) =>
      WalkingKept(sh, sh', u, r, lv, curr); EverLinkedMono(sh, sh', next, lv);
      TaggedMono(sh, sh', next, lv); NextKept(sh, sh', nn, lv);
    case FSub(lv, curr, next, nn) =>
      WalkingKept(sh, sh', u, r, lv, curr); NextKept(sh, sh', nn, lv);
      DebtKept(sh, sh', u, next, lv);
    case FRetire(lv, curr, next, nn) =>
      WalkingKept(sh, sh', u, r, lv, curr); NextKept(sh, sh', nn, lv);
      RetiringKept(sh, sh', u, next);
    case FFinal => ContextKept(sh, sh', u, r);
    case FCheck(n) => ContextKept(sh, sh', u, r); EverLinkedMono(sh, sh', n, 0);
    case _ =>
  }

  lemma TagStageKept(sh: Shared, sh': Shared, u: Tid, r: Local)
    requires SharedInv(sh) && Mono(sh, sh') && KeptHanded(sh, sh', u) && KeptWon(sh, sh', u) && KeptNew(sh, sh', u)
    requires RemovalInv(sh, u, r) && (r.pc.TLoad? || r.pc.TCas?)
    ensures RemovalInv(sh', u, r)
  {
    hide SharedInv, Mono, KeptNew, KeptHanded, KeptWon, Removing, Tagging;
    TaggingKept(sh, sh', u, r, r.pc.lv);
    LevelsKept(sh, sh', u, r, r.pc.lv);
  }

  lemma UnlinkStageKept(sh: Shared, sh': Shared, u: Tid, r: Local)
    requires SharedInv(sh) && Mono(sh, sh') && KeptHanded(sh, sh', u) && KeptWon(sh, sh', u) && KeptNew(sh, sh', u) && KeptDebt(sh, sh', u)
    requires RemovalInv(sh, u, r) && InUnlink(r.pc)
    ensures RemovalInv(sh', u, r)
  {
    hide SharedInv, Mono, KeptNew, KeptHanded, KeptWon, KeptDebt, Removing, Tagging;
    TaggingKept(sh, sh', u, r, -1);
    LevelsKept(sh, sh', u, r, -1);
    if r.pc.UCas? { TaggedMono(sh, sh', r.target, r.pc.lv); }
    else if r.pc.USub? { DebtKept(sh, sh', u, r.target, r.pc.lv); }
    else if r.pc.URetire? { RetiringKept(sh, sh', u, r.target); }
  }

  lemma RemovalKept(sh: Shared, sh': Shared, u: Tid, r: Local)
    requires SharedInv(sh) && Mono(sh, sh') && Kept(sh, sh', u) && RemovalInv(sh, u, r)
    ensures RemovalInv(sh', u, r)
  {
    hide SharedInv, Mono, KeptNew, KeptHanded, KeptWon, KeptDebt, Removing, Tagging;
    if r.pc.SLoad? || r.pc.SCas? { RemovingKept(sh, sh', u, r); }
    else if r.pc.TLoad? || r.pc.TCas? { TagStageKept(sh, sh', u, r); }
    else { UnlinkStageKept(sh, sh', u, r); }
  }

  lemma LevelsKept(sh: Shared, sh': Shared, u: Tid, r: Local, lv: int)
    requires Mono(sh, sh') && Tagging(sh, u, r, lv)
    ensures r.target < |sh.heap| && r.target < |sh'.heap| && |sh'.heap[r.target].levels| == |sh.heap[r.target].levels|
    ensures forall i :: lv < i && 0 <= i < |sh.heap[r.target].levels| ==> Tagged(sh, r.target, i)
  {
    assert MonoNode(sh, sh', r.target);
  }

  lemma InsertKept(sh: Shared, sh': Shared, u: Tid, r: Local)
    requires SharedInv(sh) && Mono(sh, sh') && Kept(sh, sh', u) && InsertInv(sh, u, r)
    ensures InsertInv(sh', u, r)
  {
    hide SharedInv, Tagged;
    match r.pc
    case ILen => BuildingKept(sh, sh', u, r.newNode.value, 0, Fresh); assert MonoNode(sh, sh', r.newNode.value);
    case LLoad => NewKept(sh, sh', u, r, Fresh);
    case LRemoved(_) => NewKept(sh, sh', u, r, Fresh);
    case LGuard(_) => NewKept(sh, sh', u, r, Fresh);
    case LOwn(_) => NewKept(sh, sh', u, r, Fresh); GuardKept(sh, sh', r);
    case LRef => NewKept(sh, sh', u, r, Fresh); GuardKept(sh, sh', r);
    case LCas => NewKept(sh, sh', u, r, Reserved); GuardKept(sh, sh', r);
    case LUnref => NewKept(sh, sh', u, r, Reserved);
    case _ =>
  }

  /** The assertion of thread u is untouched by whatever keeps u's facts. */
  lemma LocalKept(sh: Shared, sh': Shared, u: Tid, r: Local)
    requires SharedInv(sh) && Mono(sh, sh') && Kept(sh, sh', u) && LocalInv(sh, u, r)
    ensures LocalInv(sh', u, r)
  {
    RegsKept(sh, sh', u, r);
    if InFind(r.pc) { FindKept(sh, sh', u, r); }
    else if InRemoval(r.pc) { RemovalKept(sh, sh', u, r); }
    else if InInsert(r.pc) { InsertKept(sh, sh', u, r); }
    else { CallKept(sh, sh', u, r); }
  }
}
