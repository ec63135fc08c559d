/** Every step of a thread that runs alone brings its call closer to the end. */
module ProgressSteps {
  import opened Common
  import opened SyncState
  import opened SyncExec
  import opened SyncInv
  import opened SyncStable
  import opened SyncSteps
  import opened SyncStart
  import opened SyncTheorems
  import opened SyncRefine
  import opened SyncCalls
  import opened Progress

  // ------------------------------------------------------------------ find

  ghost predicate Closer(a: (nat, nat, nat, nat), b: (nat, nat, nat, nat)) {
    || a.0 < b.0
    || (a.0 == b.0 && a.1 < b.1)
    || (a.0 == b.0 && a.1 == b.1 && a.2 < b.2)
    || (a.0 == b.0 && a.1 == b.1 && a.2 == b.2 && a.3 < b.3)
  }

  /** What a search has recorded stays current for as long as it goes on. */
  ghost predicate StaysFresh(sh: Shared, r: Local, sh': Shared, r': Local) {
    FreshFind(sh, r) && InFind(r'.pc) && r'.caller == r.caller ==> FreshFind(sh', r')
  }

  /** A search that goes on has come closer if it has not lost its freshness. */
  lemma GoesOn(sh: Shared, r: Local, sh': Shared, r': Local)
    requires InFind(r.pc) && InFind(r'.pc) && r'.caller == r.caller && r'.start == r.start && Live(sh') == Live(sh)
    requires FreshFind(sh, r) ==> FreshFind(sh', r')
    requires Closer(FindMeasure(sh', r'), FindMeasure(sh, r))
    ensures Less(Left(sh', r'), Left(sh, r)) && StaysFresh(sh, r, sh', r')
  {
    hide FreshFind, FindMeasure, Live;
  }

  /** A search that ends. */
  lemma Answers(sh: Shared, r: Local, sh': Shared, r': Local)
    requires InFind(r.pc) && (r'.pc.Ret? || r'.pc.Fault?) && Live(sh') == Live(sh)
    ensures Less(Left(sh', r'), Left(sh, r)) && StaysFresh(sh, r, sh', r')
  {
    hide FreshFind, FindMeasure, Live;
  }

  /** `next_node` turns to the search for the closest node. */
  lemma TurnsLess(sh: Shared, r: Local, sh': Shared, n: NodeId)
    requires InFind(r.pc) && r.caller == NextCall && Live(sh') == Live(sh)
    ensures Less(Left(sh', SearchClosest(sh, n)), Left(sh, r)) && StaysFresh(sh, r, sh', SearchClosest(sh, n))
  {
    hide FreshFind, FindMeasure, Live;
  }

  /** The place at which a search examines a successor. */
  predicate AtNode(pc: Pc) {
    pc.FLoad? || pc.FTag? || pc.FSub? || pc.FRetire?
  }

  lemma DecideLess(sh: Shared, t: Tid, r: Local, next: Ptr)
    requires SharedInv(sh) && RegsOk(sh, t, r) && AtNode(r.pc) && r.pc.lv < HEIGHT && EverLinked(sh, r.pc.curr, r.pc.lv)
    requires Steady(sh, r) ==> PtrIs(sh, r.pc.curr, r.pc.lv, next)
    requires next.Some? ==> Visited(sh, next.value, r.pc.lv) && !Tagged(sh, next.value, r.pc.lv)
    ensures Less(Left(sh, Decide(sh, r, r.pc.lv, r.pc.curr, next)), Left(sh, r))
    ensures StaysFresh(sh, r, sh, Decide(sh, r, r.pc.lv, r.pc.curr, next))
  {
    hide SharedInv, PrevOk, Behind, Tagged, Chain, Live, Less, Left, Stage, Firm;
    var lv, curr := r.pc.lv, r.pc.curr;
    var r' := Decide(sh, r, lv, curr, next);
    if next.Some? { InHeap(sh, next.value, lv); }
    if r.caller == NextCall {
      Answers(sh, r, sh, r');
    } else if next.Some? && sh.heap[next.value].key < r.key {
      if Steady(sh, r) { BehindNext(sh, lv, curr, next.value); }
      SameAbove(sh, r, r', lv);
      GoesOn(sh, r, sh, r');
    } else {
      if lv > 0 && !Tagged(sh, curr, lv) { LevelFalls(sh, curr, lv, lv - 1); }
      SameAbove(sh, r, r', lv);
      if Steady(sh, r) { NowFirm(sh, r', lv, curr, next); }
      if r'.pc.Fault? { Answers(sh, r, sh, r'); } else { GoesOn(sh, r, sh, r'); }
    }
  }

  lemma NowFirm(sh: Shared, r: Local, lv: nat, curr: NodeId, next: Ptr)
    requires lv < |r.prev| && r.prev[lv] == (curr, next) && !Tagged(sh, curr, lv) && PtrIs(sh, curr, lv, next)
    ensures Firm(sh, r, lv)
    ensures Firmly(sh, r, lv + 1) ==> Firmly(sh, r, lv)
  {
    hide Tagged;
  }

  lemma InHeap(sh: Shared, n: NodeId, i: nat)
    requires EverLinked(sh, n, i)
    ensures n < |sh.heap|
  {
  }

  /** Recording a level changes nothing above it. */
  lemma SameAbove(sh: Shared, r: Local, r': Local, lv: nat)
    requires |r'.prev| == |r.prev| && forall i :: lv < i < |r.prev| ==> r'.prev[i] == r.prev[i]
    ensures Firmly(sh, r', lv + 1) <==> Firmly(sh, r, lv + 1)
  {
    hide Tagged;
    forall i | lv < i < |r.prev| ensures Firm(sh, r', i) <==> Firm(sh, r, i) {}
  }

  /** The registers that freshness speaks of. */
  lemma SamePrev(sh: Shared, r: Local, r': Local, low: nat)
    requires r'.prev == r.prev
    ensures Firmly(sh, r', low) <==> Firmly(sh, r, low)
  {
    hide Tagged;
    forall i | low <= i < |r.prev| ensures Firm(sh, r', i) <==> Firm(sh, r, i) {}
  }

  lemma ExamineLess(sh: Shared, t: Tid, r: Local, next: Ptr)
    requires SharedInv(sh) && RegsOk(sh, t, r) && AtNode(r.pc) && !r.pc.FTag? && r.pc.lv < HEIGHT && EverLinked(sh, r.pc.curr, r.pc.lv)
    requires Steady(sh, r) ==> PtrIs(sh, r.pc.curr, r.pc.lv, next)
    ensures Less(Left(sh, Examine(sh, r, r.pc.lv, r.pc.curr, next)), Left(sh, r))
    ensures StaysFresh(sh, r, sh, Examine(sh, r, r.pc.lv, r.pc.curr, next))
  {
    hide SharedInv, RegsOk, Behind, Tagged, Chain, Live, Less, Left, Stage, Firm, Decide, Firmly;
    if next == None {
      DecideLess(sh, t, r, None);
    } else {
      var r' := Examine(sh, r, r.pc.lv, r.pc.curr, next);
      SamePrev(sh, r, r', r.pc.lv + 1);
      GoesOn(sh, r, sh, r');
    }
  }

  /** What the environment has to offer: a level to start from, a legal height. */
  predicate Offered(c: Choice) {
    c.level < HEIGHT && 1 <= c.height <= HEIGHT
  }

  lemma ReadLess(sh: Shared, t: Tid, r: Local, c: Choice)
    requires SharedInv(sh) && RegsOk(sh, t, r) && FindInv(sh, t, r) && (r.pc.FLoad? || r.pc.FTag? || r.pc.FNext?)
    ensures ExecFind(sh, t, r, c).0 == sh && Less(Left(sh, ExecFind(sh, t, r, c).1), Left(sh, r))
    ensures StaysFresh(sh, r, sh, ExecFind(sh, t, r, c).1)
  {
    hide SharedInv, RegsOk, Behind, Chain, Live, Less, Left, Stage, Firm, Decide, Examine, Firmly, Context;
    var lv, curr := r.pc.lv, r.pc.curr;
    WordThere(sh, curr, lv);
    var r' := ExecFind(sh, t, r, c).1;
    if r.pc.FLoad? {
      ExamineLess(sh, t, r, sh.heap[curr].levels[lv].ptr);
    } else {
      WordThere(sh, r.pc.next, lv);
      if r.pc.FTag? && !sh.heap[r.pc.next].levels[lv].tag {
        DecideLess(sh, t, r, Some(r.pc.next));
      } else {
        SamePrev(sh, r, r', lv + 1);
        GoesOn(sh, r, sh, r');
      }
    }
  }

  lemma StartLess(sh: Shared, t: Tid, r: Local, c: Choice)
    requires SharedInv(sh) && RegsOk(sh, t, r) && FindInv(sh, t, r) && (r.pc.FInit? || r.pc.FStart?) && (r.pc.FStart? ==> c.level < HEIGHT)
    ensures ExecFind(sh, t, r, c).0 == sh && Less(Left(sh, ExecFind(sh, t, r, c).1), Left(sh, r))
    ensures StaysFresh(sh, r, sh, ExecFind(sh, t, r, c).1)
  {
    hide SharedInv, PrevOk, Behind, Chain, Live, Less, Left, Stage, Context, Firm, Tagged;
    var r' := ExecFind(sh, t, r, c).1;
    if r.pc.FInit? {
      HeadUntagged(sh, r.pc.i);
      if FreshFind(sh, r) { InitFirm(sh, r, r', r.pc.i); }
    } else {
      HeadUntagged(sh, c.level);
      SamePrev(sh, r, r', 0);
    }
    GoesOn(sh, r, sh, r');
  }

  lemma InitFirm(sh: Shared, r: Local, r': Local, i: nat)
    requires i < |r.prev| && LoadWord(sh, HEAD, i).Some? && !Tagged(sh, HEAD, i)
    requires r'.prev == r.prev[i := (HEAD, LoadWord(sh, HEAD, i).value.ptr)]
    requires forall j :: 0 <= j < i ==> Firm(sh, r, j)
    ensures forall j :: 0 <= j <= i ==> Firm(sh, r', j)
  {
    forall j | 0 <= j < i ensures Firm(sh, r', j) { assert Firm(sh, r, j); }
  }

  lemma HeadUntagged(sh: Shared, i: nat)
    requires SharedInv(sh) && i < HEIGHT
    ensures !Tagged(sh, HEAD, i) && LoadWord(sh, HEAD, i).Some?
  {
    assert NodeOk(sh, HEAD);
  }

  /** The compare-exchange of a search fails only if the search stood on something that has changed. */
  lemma DropLess(sh: Shared, t: Tid, r: Local, c: Choice, sh': Shared, r': Local)
    requires SharedInv(sh) && SharedInv(sh') && Mono(sh, sh') && RegsOk(sh, t, r) && FindInv(sh, t, r) && r.pc.FCas?
    requires (sh', r') == ExecFind(sh, t, r, c) && Live(sh') == Live(sh)
    requires ChainEffect(sh, t, r, sh')
    ensures Less(Left(sh', r'), Left(sh, r)) && StaysFresh(sh, r, sh', r')
  {
    hide SharedInv, RegsOk, Mono, Behind, Chain, Live, Less, Left, Stage, Context, Firm, Dropped, ActUnlink;
    var FCas(lv, curr, next, nn) := r.pc;
    CasFacts(sh, t, r);
    WordThere(sh, curr, lv);
    if sh.heap[curr].levels[lv] == Word(Some(next), false) {
      DropWords(sh, t, curr, next, nn, lv);
      UnlinkChanges(sh, t, curr, next, nn, lv);
      EverLinkedMono(sh, sh', curr, lv);
      BehindDrop(sh, sh', lv, curr, next);
      if Firmly(sh, r, lv + 1) { FirmlyCarry(sh, sh', r, r', lv + 1); }
      GoesOn(sh, r, sh', r');
    } else if r.caller == NextCall {
      TurnsLess(sh, r, sh', curr);
    } else {
      GoesOn(sh, r, sh', r');
    }
  }

  lemma DropWords(sh: Shared, t: Tid, p: NodeId, n: NodeId, nn: Ptr, lv: nat)
    requires p < |sh.heap| && lv < |sh.heap[p].levels|
    ensures var sh' := ActUnlink(sh, t, p, n, nn, lv);
            && PtrIs(sh', p, lv, nn) && !Tagged(sh', p, lv)
            && forall m: NodeId, i: nat :: i != lv ==> WordKept(sh, sh', m, i)
  {
  }

  /** Dropping a node changes the chain. */
  lemma UnlinkChanges(sh: Shared, t: Tid, p: NodeId, n: NodeId, nn: Ptr, lv: nat)
    requires SharedInv(sh) && lv < HEIGHT && EverLinked(sh, p, lv) && sh.heap[p].levels[lv] == Word(Some(n), false)
    requires n != HEAD && Tagged(sh, n, lv)
    ensures Dropped(sh, ActUnlink(sh, t, p, n, nn, lv), lv, n) && p != n
  {
    hide SharedInv, Dropped, ActUnlink;
    DropShape(sh, t, p, n, nn, lv);
    NotTwice(sh, p, n, lv);
  }

  lemma NotTwice(sh: Shared, p: NodeId, n: NodeId, lv: nat)
    requires Tagged(sh, n, lv) && p < |sh.heap| && lv < |sh.heap[p].levels| && !sh.heap[p].levels[lv].tag
    ensures p != n
  {
  }

  lemma PayLess(sh: Shared, t: Tid, r: Local, c: Choice, sh': Shared, r': Local)
    requires SharedInv(sh') && RegsOk(sh', t, r) && FindInv(sh, t, r) && (r.pc.FSub? || r.pc.FRetire?)
    requires (sh', r') == ExecFind(sh, t, r, c) && Live(sh') == Live(sh) && Mono(sh, sh') && !r'.pc.Panic?
    ensures Less(Left(sh', r'), Left(sh, r)) && StaysFresh(sh, r, sh', r')
  {
    hide SharedInv, RegsOk, Mono, Behind, Live, Context, Firm, Examine, ActSub;
    var lv, curr := r.pc.lv, r.pc.curr;
    CurrKept(sh, sh', r, lv, curr);
    PayWords(sh, t, r, c);
    SameLeft(sh, sh', r);
    hide Less, Left;
    if r.pc.FSub? && r'.pc.FRetire? && sh.heap[r.pc.next].refs == 1 {
      SamePrev(sh', r, r', lv + 1);
      GoesOn(sh', r, sh', r');
    } else {
      ExamineLess(sh', t, r, r.pc.nn);
      if r.pc.FRetire? { ExamineHeap(sh, sh', r, lv, curr, r.pc.nn); }
    }
  }

  lemma PayWords(sh: Shared, t: Tid, r: Local, c: Choice)
    requires r.pc.FSub? || r.pc.FRetire?
    ensures var sh' := ExecFind(sh, t, r, c).0;
            |sh'.heap| == |sh.heap| && sh'.chain == sh.chain && forall n: NodeId :: n < |sh.heap| ==> sh'.heap[n].levels == sh.heap[n].levels
  {
    hide Examine;
  }

  /** The measure of a search looks at words and chains only. */
  lemma SameLeft(sh: Shared, sh': Shared, r: Local)
    requires |sh'.heap| == |sh.heap| && sh'.chain == sh.chain && Live(sh') == Live(sh) && (r.pc.FSub? || r.pc.FRetire?)
    requires forall n: NodeId :: n < |sh.heap| ==> sh'.heap[n].levels == sh.heap[n].levels
    ensures Left(sh', r) == Left(sh, r) && (FreshFind(sh', r) <==> FreshFind(sh, r))
  {
    hide Live, Behind;
    assert Chain(sh', r.pc.lv) == Chain(sh, r.pc.lv);
    forall i | 0 <= i < |r.prev| ensures Firm(sh', r, i) <==> Firm(sh, r, i) {}
  }

  /** `find` hands over: what it recorded is as fresh as the search was. */
  lemma HandOver(sh: Shared, t: Tid, r: Local, target: Ptr)
    requires (r.pc.FFinal? || r.pc.FCheck?) && Context(sh, t, r) && r.caller != NextCall && r.caller != ClosestCall
    ensures Less(Left(sh, AfterFind(r, target)), Left(sh, r)) && StaysFresh(sh, r, sh, AfterFind(r, target))
  {
    hide Firm, Live, Won, NewBelow, Less, Left;
    if r.caller == InsertFirst { HandFirst(sh, r, target); }
    else if r.caller == InsertRetry { HandRetry(sh, r, target); }
    else { HandOther(sh, r, target); }
  }

  lemma HandFirst(sh: Shared, r: Local, target: Ptr)
    requires (r.pc.FFinal? || r.pc.FCheck?) && r.caller == InsertFirst
    ensures Less(Left(sh, AfterFind(r, target)), Left(sh, r)) && StaysFresh(sh, r, sh, AfterFind(r, target))
  {
    hide Firmly, Live, FindMeasure, OtherMeasure;
    SamePrev(sh, r, AfterFind(r, target), 0);
  }

  lemma HandRetry(sh: Shared, r: Local, target: Ptr)
    requires (r.pc.FFinal? || r.pc.FCheck?) && r.caller == InsertRetry
    ensures Less(Left(sh, AfterFind(r, target)), Left(sh, r)) && StaysFresh(sh, r, sh, AfterFind(r, target))
  {
    hide Firmly, Live, FindMeasure, OtherMeasure;
    SamePrev(sh, r, AfterFind(r, target), r.start);
    Fewer(sh, r, 0, r.start);
  }

  lemma HandOther(sh: Shared, r: Local, target: Ptr)
    requires r.pc.FFinal? || r.pc.FCheck?
    requires r.caller == LinkCleanup || r.caller == RemoveFirst || r.caller == RemoveCleanup || r.caller == Getter
    ensures Less(Left(sh, AfterFind(r, target)), Left(sh, r)) && StaysFresh(sh, r, sh, AfterFind(r, target))
  {
    hide Firmly, Live, FindMeasure, OtherMeasure;
  }

  lemma Fewer(sh: Shared, r: Local, low: nat, low': nat)
    requires low <= low'
    ensures Firmly(sh, r, low) ==> Firmly(sh, r, low')
  {
    hide Firm;
  }

  lemma EndLess(sh: Shared, t: Tid, r: Local, c: Choice)
    requires SharedInv(sh) && FindInv(sh, t, r) && RegsOk(sh, t, r) && (r.pc.FFinal? || r.pc.FCheck?)
    ensures ExecFind(sh, t, r, c).0 == sh && Less(Left(sh, ExecFind(sh, t, r, c).1), Left(sh, r))
    ensures StaysFresh(sh, r, sh, ExecFind(sh, t, r, c).1)
  {
    hide SharedInv, Context, Less, Left, Stage, Firm, AfterFind;
    var r' := ExecFind(sh, t, r, c).1;
    assert PrevOk(sh, r, 0);
    WordThere(sh, r.prev[0].0, 0);
    var x := sh.heap[r.prev[0].0].levels[0].ptr;
    if r.pc.FFinal? && x.Some? {
      SamePrev(sh, r, r', 0);
      GoesOn(sh, r, sh, r');
    } else if r.pc.FFinal? {
      HandOver(sh, t, r, None);
    } else {
      var n := r.pc.cand;
      HandOver(sh, t, r, if sh.heap[n].key == r.key && !sh.heap[n].removed then Some(n) else None);
    }
  }

  lemma FindLess(sh: Shared, t: Tid, r: Local, c: Choice, sh': Shared, r': Local)
    requires SharedInv(sh) && RegsOk(sh, t, r) && FindInv(sh, t, r) && InFind(r.pc) && (sh', r') == ExecFind(sh, t, r, c)
    requires SharedInv(sh') && RegsOk(sh', t, r) && Mono(sh, sh') && Live(sh') == Live(sh) && ChainEffect(sh, t, r, sh')
    requires (r.pc.FStart? ==> c.level < HEIGHT) && !r'.pc.Panic?
    ensures Less(Left(sh', r'), Left(sh, r)) && StaysFresh(sh, r, sh', r')
  {
    hide SharedInv, RegsOk, FindInv, Mono, Live, Less, Left, ExecFind, ChainEffect;
    if r.pc.FInit? || r.pc.FStart? { StartLess(sh, t, r, c); }
    else if r.pc.FLoad? || r.pc.FTag? || r.pc.FNext? { ReadLess(sh, t, r, c); }
    else if r.pc.FCas? { DropLess(sh, t, r, c, sh', r'); }
    else if r.pc.FSub? || r.pc.FRetire? { PayLess(sh, t, r, c, sh', r'); }
    else { EndLess(sh, t, r, c); }
  }

  // ------------------------------------------------------------------ remove

  lemma LostLess(sh: Shared, t: Tid, r: Local)
    requires (r.pc.SLoad? || r.pc.SCas?) && Removing(sh, t, r)
    ensures Less(Left(sh, AfterLost(r)), Left(sh, r))
  {
    hide Firm, Live, NewBelow, Visited;
    var r' := AfterLost(r);
    SamePrev(sh, r, r', Low(r));
  }

  lemma TryLess(sh: Shared, t: Tid, r: Local, sh': Shared, r': Local)
    requires SharedInv(sh) && RemovalInv(sh, t, r) && (r.pc.SLoad? || r.pc.SCas?)
    requires (sh', r') == ExecRemove(sh, t, r)
    ensures Less(Left(sh', r'), Left(sh, r))
  {
    hide SharedInv, Firm, Live, NewBelow, ActRemove;
    var n := r.target;
    TargetShape(sh, n);
    if r.pc.SLoad? {
      if sh.heap[n].removed { LostLess(sh, t, r); } else { SamePrev(sh, r, r', Low(r)); }
    } else if sh.heap[n].refs == r.pc.refs && !sh.heap[n].removed {
      LiveFacts(sh, n);
      RemoveLive(sh, t, n);
      FewerLive(sh, sh', n);
    } else {
      LostLess(sh, t, r);
    }
  }

  lemma FewerLive(sh: Shared, sh': Shared, n: NodeId)
    requires n in Live(sh) && Live(sh') == Live(sh) - {n}
    ensures |Live(sh')| < |Live(sh)|
  {
    hide Live;
    assert Live(sh) == Live(sh') + {n};
  }

  lemma TagLess(sh: Shared, t: Tid, r: Local, sh': Shared, r': Local)
    requires SharedInv(sh) && RemovalInv(sh, t, r) && (r.pc.TLoad? || r.pc.TCas?)
    requires (sh', r') == ExecRemove(sh, t, r) && Live(sh') == Live(sh)
    ensures Less(Left(sh', r'), Left(sh, r))
  {
    hide SharedInv, Live, Removing, Won, ActTag, FindMeasure, NewBelow;
    var n, lv := r.target, r.pc.lv;
    TargetIn(sh, t, r, lv);
    TargetShape(sh, n);
    assert !Tagged(sh, n, lv);
    hide Tagging, Visited;
  }

  lemma TargetIn(sh: Shared, t: Tid, r: Local, lv: int)
    requires Tagging(sh, t, r, lv)
    ensures Visited(sh, r.target, 0) && (r.caller == InsertFirst || r.caller == InsertRetry || r.caller == RemoveFirst || r.caller == EntryCall)
  {
    hide NewBelow;
  }

  /** `unlink` moves down a level, or on to the next place. */
  lemma UntieOn(sh: Shared, r: Local, sh': Shared, r': Local)
    requires InUnlink(r.pc) && InUnlink(r'.pc) && r'.caller == r.caller && r'.start == r.start && Live(sh') == Live(sh)
    requires var (a, b) := (OtherMeasure(sh', r'), OtherMeasure(sh, r)); a.0 < b.0 || (a.0 == b.0 && a.1 < b.1)
    ensures Less(Left(sh', r'), Left(sh, r))
  {
    hide Live, OtherMeasure;
  }

  /** `unlink` returns. */
  lemma UntieEnds(sh: Shared, r: Local, sh': Shared, ok: bool)
    requires InUnlink(r.pc) && Live(sh') == Live(sh)
    requires r.caller == InsertFirst || r.caller == InsertRetry || r.caller == RemoveFirst
    ensures Less(Left(sh', AfterUnlink(r, ok)), Left(sh, r))
  {
    hide Live, OtherMeasure, FindMeasure, Firm;
  }

  lemma UntieLess(sh: Shared, t: Tid, r: Local, sh': Shared, r': Local)
    requires SharedInv(sh) && RemovalInv(sh, t, r) && InUnlink(r.pc) && RegsOk(sh, t, r)
    requires (sh', r') == ExecUnlink(sh, t, r) && Live(sh') == Live(sh) && !r'.pc.Fault? && !r'.pc.Panic?
    ensures Less(Left(sh', r'), Left(sh, r))
  {
    hide SharedInv, Live, Removing, Won, ActUnlink, ActSub, RegsOk, Less, Left, Tagging;
    UntieCallers(sh, t, r);
    if r.pc.ULen? { UntieEnds(sh, r, sh', true); }
    else if !InUnlink(r'.pc) { UntieEnds(sh, r, sh', false); }
    else { UntieOn(sh, r, sh', r'); }
  }

  lemma UntieCallers(sh: Shared, t: Tid, r: Local)
    requires RemovalInv(sh, t, r) && InUnlink(r.pc)
    ensures r.caller == InsertFirst || r.caller == InsertRetry || r.caller == RemoveFirst
  {
    hide Won, NewBelow, Visited;
  }

  lemma RemovalLess(sh: Shared, t: Tid, r: Local, sh': Shared, r': Local)
    requires SharedInv(sh) && RemovalInv(sh, t, r) && InRemoval(r.pc) && RegsOk(sh, t, r)
    requires (sh', r') == (if InUnlink(r.pc) then ExecUnlink(sh, t, r) else ExecRemove(sh, t, r))
    requires !r.pc.SCas? ==> Live(sh') == Live(sh)
    requires !r'.pc.Fault? && !r'.pc.Panic?
    ensures Less(Left(sh', r'), Left(sh, r))
  {
    hide SharedInv, RegsOk, RemovalInv, Live, Less, Left, ExecRemove, ExecUnlink;
    if InUnlink(r.pc) { UntieLess(sh, t, r, sh', r'); }
    else if r.pc.TLoad? || r.pc.TCas? { TagLess(sh, t, r, sh', r'); }
    else { TryLess(sh, t, r, sh', r'); }
  }

  // ------------------------------------------------------------------ insert

  /** `link_nodes` goes on at the same or the next level. */
  lemma LinksOn(sh: Shared, r: Local, sh': Shared, r': Local)
    requires InInsert(r.pc) && InInsert(r'.pc) && !r.pc.LEnd? && !r'.pc.LEnd? && Live(sh') == Live(sh)
    requires Unlinked(r') <= Unlinked(r)
    requires FreshLink(sh, r) ==> FreshLink(sh', r')
    requires var (a, b) := (OtherMeasure(sh', r'), OtherMeasure(sh, r)); a.0 < b.0 || (a.0 == b.0 && a.1 < b.1)
    ensures Less(Left(sh', r'), Left(sh, r))
  {
    hide FreshLink, Live;
  }

  /** `link_nodes` gives this level up and searches again. */
  lemma Retries(sh: Shared, r: Local, sh': Shared, r': Local)
    requires InInsert(r.pc) && r.pc != Create && r.pc != ILen && !r.pc.LEnd? && !FreshLink(sh, r) && Live(sh') == Live(sh)
    requires r' == Search(r, InsertRetry)
    ensures Less(Left(sh', r'), Left(sh, r))
  {
    hide FreshLink, Live;
  }

  /** `link_nodes` is done. */
  lemma Ends(sh: Shared, r: Local, r': Local)
    requires InInsert(r.pc) && r.pc != Create && r.pc != ILen && !r.pc.LEnd? && r' == r.(pc := LEnd)
    ensures Less(Left(sh, r'), Left(sh, r))
  {
    hide FreshLink, Live;
  }

  lemma CreateLess(sh: Shared, t: Tid, r: Local, c: Choice, sh': Shared, r': Local)
    requires RegsOk(sh, t, r) && InsertInv(sh, t, r) && (r.pc.Create? || r.pc.ILen?) && Offered(c)
    requires (sh', r') == ExecInsert(sh, t, r, c) && Live(sh') == Live(sh)
    ensures Less(Left(sh', r'), Left(sh, r))
  {
    hide Live, Less, Left, Firm, PrevOk, Building;
    BuildingThere(sh, t, r);
    if Firmly(sh, r, 0) { FirmlyCarry(sh, sh', r, r', 0); }
    LinksOn(sh, r, sh', r');
  }

  lemma BuildingThere(sh: Shared, t: Tid, r: Local)
    requires InsertInv(sh, t, r)
    ensures r.pc.ILen? ==> r.newNode.Some? && r.newNode.value < |sh.heap|
  {
  }

  /** What the code knows of its new node. */
  lemma NewFacts(sh: Shared, t: Tid, r: Local)
    requires SharedInv(sh) && InsertInv(sh, t, r) && !r.pc.Create? && !r.pc.ILen? && !r.pc.LEnd?
    ensures r.newNode.Some? && r.newNode.value < |sh.heap| && r.start <= sh.heap[r.newNode.value].height <= HEIGHT
    ensures |sh.heap[r.newNode.value].levels| == sh.heap[r.newNode.value].height
    ensures !r.pc.LLoad? ==> r.start < sh.heap[r.newNode.value].height
    ensures forall i: nat :: r.start <= i ==> !EverLinked(sh, r.newNode.value, i)
    ensures forall i: nat :: Tagged(sh, r.newNode.value, i) ==> sh.heap[r.newNode.value].removed
  {
    assert NodeOk(sh, r.newNode.value);
  }

  lemma LookLess(sh: Shared, t: Tid, r: Local, c: Choice, r': Local)
    requires SharedInv(sh) && RegsOk(sh, t, r) && InsertInv(sh, t, r) && (r.pc.LLoad? || r.pc.LRemoved? || r.pc.LGuard?)
    requires (sh, r') == ExecInsert(sh, t, r, c) && !r'.pc.Fault?
    ensures Less(Left(sh, r'), Left(sh, r))
  {
    hide SharedInv, RegsOk, Live, Less, Left, Firm, Building, EverLinked;
    NewFacts(sh, t, r);
    assert Tagged(sh, r.newNode.value, r.start) ==> sh.heap[r.newNode.value].removed;
    if r'.pc.LEnd? {
      Ends(sh, r, r');
    } else {
      SamePrev(sh, r, r', r.start);
      LinksOn(sh, r, sh, r');
    }
  }

  lemma OwnLess(sh: Shared, t: Tid, r: Local, c: Choice, sh': Shared, r': Local)
    requires SharedInv(sh) && RegsOk(sh, t, r) && InsertInv(sh, t, r) && r.pc.LOwn?
    requires (sh', r') == ExecInsert(sh, t, r, c) && Live(sh') == Live(sh) && !r'.pc.Fault?
    ensures Less(Left(sh', r'), Left(sh, r))
  {
    hide SharedInv, Live, Less, Left, Firm, Building;
    NewFacts(sh, t, r);
    var n := r.newNode.value;
    if sh.heap[n].levels[r.start] == Word(r.pc.cn, false) {
      if Firmly(sh, r, r.start) {
        forall i | r.start <= i < |r.prev| ensures WordKept(sh, sh', r.prev[i].0, i) { assert PrevOk(sh, r, i); }
        FirmlyCarry(sh, sh', r, r', r.start);
      }
      LinksOn(sh, r, sh', r');
    } else {
      Retries(sh, r, sh', r');
    }
  }

  lemma RefLess(sh: Shared, t: Tid, r: Local, c: Choice, sh': Shared, r': Local)
    requires SharedInv(sh) && RegsOk(sh, t, r) && InsertInv(sh, t, r) && (r.pc.LRef? || r.pc.LUnref?)
    requires (sh', r') == ExecInsert(sh, t, r, c) && Live(sh') == Live(sh) && !r'.pc.Fault?
    ensures Less(Left(sh', r'), Left(sh, r))
  {
    hide SharedInv, PrevOk, Live, Less, Left, Firm, Building;
    NewFacts(sh, t, r);
    if r'.pc.LEnd? {
      Ends(sh, r, r');
    } else if r.pc.LUnref? {
      Retries(sh, r, sh', r');
    } else {
      if Firmly(sh, r, r.start) { FirmlyCarry(sh, sh', r, r', r.start); }
      LinksOn(sh, r, sh', r');
    }
  }

  /** Above the bottom the measure falls with the level; at the bottom the node is no longer unlinked. */
  lemma CasLess(sh: Shared, t: Tid, r: Local, c: Choice, sh': Shared, r': Local)
    requires SharedInv(sh) && RegsOk(sh, t, r) && InsertInv(sh, t, r) && r.pc.LCas?
    requires (sh', r') == ExecInsert(sh, t, r, c) && !r'.pc.Fault?
    requires r.start > 0 ==> Live(sh') == Live(sh)
    ensures Less(Left(sh', r'), Left(sh, r))
  {
    hide SharedInv, PrevOk, Live, Firm, Building, ActLink;
    NewFacts(sh, t, r);
    var (p, next) := r.prev[r.start];
    WordAt(sh, r);
    if sh.heap[p].levels[r.start] == Word(next, false) {
      if r.start > 0 {
        hide Less, Left;
        if Firmly(sh, r, r.start) {
          LinkOther(sh, p, r.newNode.value, r.start);
          FirmlyCarry(sh, sh', r, r', r.start + 1);
        }
        LinksOn(sh, r, sh', r');
      }
    } else {
      hide Less, Left;
      if Firmly(sh, r, r.start) { NotFirm(sh, r, r.start); }
      LinksOn(sh, r, sh', r');
    }
  }

  lemma WordAt(sh: Shared, r: Local)
    requires SharedInv(sh) && r.start < |r.prev| && PrevOk(sh, r, r.start)
    ensures r.prev[r.start].0 < |sh.heap| && r.start < |sh.heap[r.prev[r.start].0].levels|
  {
  }

  lemma LinkOther(sh: Shared, p: NodeId, n: NodeId, i: nat)
    ensures forall m: NodeId, j: nat :: j != i ==> WordKept(sh, ActLink(sh, p, n, i), m, j)
  {
  }

  lemma NotFirm(sh: Shared, r: Local, i: nat)
    requires i < |r.prev| && Firm(sh, r, i)
    ensures LoadWord(sh, r.prev[i].0, i) == Some(Word(r.prev[i].1, false))
  {
  }

  lemma DoneLess(sh: Shared, t: Tid, r: Local, c: Choice, sh': Shared, r': Local)
    requires InsertInv(sh, t, r) && r.pc.LEnd? && (sh', r') == ExecInsert(sh, t, r, c)
    ensures Less(Left(sh', r'), Left(sh, r))
  {
    hide Live, FreshFind;
  }

  lemma InsertLess(sh: Shared, t: Tid, r: Local, c: Choice, sh': Shared, r': Local)
    requires SharedInv(sh) && RegsOk(sh, t, r) && InsertInv(sh, t, r) && InInsert(r.pc) && Offered(c)
    requires (sh', r') == ExecInsert(sh, t, r, c) && !r'.pc.Fault?
    requires !(r.pc.LCas? && r.start == 0) ==> Live(sh') == Live(sh)
    ensures Less(Left(sh', r'), Left(sh, r))
  {
    hide SharedInv, RegsOk, InsertInv, Live, Less, Left;
    if r.pc.Create? || r.pc.ILen? { CreateLess(sh, t, r, c, sh', r'); }
    else if r.pc.LLoad? || r.pc.LRemoved? || r.pc.LGuard? {
      LookSame(sh, t, r, c);
      LookLess(sh, t, r, c, r');
    }
    else if r.pc.LOwn? { OwnLess(sh, t, r, c, sh', r'); }
    else if r.pc.LRef? || r.pc.LUnref? { RefLess(sh, t, r, c, sh', r'); }
    else if r.pc.LCas? { CasLess(sh, t, r, c, sh', r'); }
    else { DoneLess(sh, t, r, c, sh', r'); }
  }

  lemma LookSame(sh: Shared, t: Tid, r: Local, c: Choice)
    requires r.pc.LLoad? || r.pc.LRemoved? || r.pc.LGuard?
    ensures ExecInsert(sh, t, r, c).0 == sh
  {
  }

  lemma StageFalls(sh: Shared, r: Local, r': Local)
    requires Unlinked(r') == Unlinked(r) && Stage(sh, r') < Stage(sh, r)
    ensures Less(Left(sh, r'), Left(sh, r))
  {
    hide Unlinked, Stage, FindMeasure, OtherMeasure;
  }

  lemma CallLess(sh: Shared, t: Tid, r: Local, c: Choice)
    requires CallInv(sh, t, r) && (r.pc.GetLen? || r.pc.FirstLen? || r.pc.NextStale?)
    requires !ExecCall(sh, r, c).1.pc.Fault?
    ensures ExecCall(sh, r, c).0 == sh && Less(Left(sh, ExecCall(sh, r, c).1), Left(sh, r))
  {
    hide Less, Left, FreshFind, FreshLink, Firmly, Visited;
    StageFalls(sh, r, ExecCall(sh, r, c).1);
  }

  // ------------------------------------------------------------------ every step

  /** The thread is outside an operation, about to return, or outside a tower. */
  ghost predicate Stopped(s: State, t: Tid) {
    t < |s.th| && (s.th[t].pc.Done? || s.th[t].pc.Ret? || s.th[t].pc.Fault?)
  }

  lemma StepLess(s: State, s': State, t: Tid, c: Choice)
    requires Inv(s) && Steps(s, s', t, c) && Offered(c) && !Stopped(s, t)
    ensures Inv(s') && t < |s'.th| && Less(Left(s'.sh, s'.th[t]), Left(s.sh, s.th[t]))
  {
    hide SharedInv, RegsOk, FindInv, RemovalInv, InsertInv, CallInv, ExecFind, ExecRemove, ExecUnlink, ExecInsert, ExecCall;
    hide Mono, Kept, Live, Less, Left, ChainEffect;
    var r, r' := s.th[t], s'.th[t];
    assert LocalInv(s.sh, t, r);
    StepKeeps(s.sh, t, r, c);
    assert Next(s, s');
    NextKeeps(s, s');
    NoFailure(s'.sh, t, r');
    if r'.pc.Fault? { FaultIsAstray(s, s', t, c); }
    LiveStep(s, s', t, c);
    ChainStep(s, s', t, c);
    if InFind(r.pc) {
      FindRegs(s.sh, t, r, c);
      FindLess(s.sh, t, r, c, s'.sh, r');
    }
    else if InRemoval(r.pc) { RemovalLess(s.sh, t, r, s'.sh, r'); }
    else if InInsert(r.pc) { InsertLess(s.sh, t, r, c, s'.sh, r'); }
    else {
      CallPlaces(s.sh, t, r);
      CallLess(s.sh, t, r, c);
    }
  }

  lemma CallPlaces(sh: Shared, t: Tid, r: Local)
    requires CallInv(sh, t, r) && !r.pc.Done? && !r.pc.Ret? && !r.pc.Fault?
    ensures r.pc.GetLen? || r.pc.FirstLen? || r.pc.NextStale?
  {
  }

  // ------------------------------------------------------------------ the search for the closest node

  /**
    A thread turns to the search for the closest node exactly when `next_node` is called on a node whose bottom
    word is tagged, or loses the compare-exchange that unlinks a tagged successor.
   */
  lemma TurnsAstray(s: State, s': State, t: Tid, c: Choice)
    requires Inv(s) && Steps(s, s', t, c) && !Astray(s.th[t])
    ensures var r := s.th[t];
            Astray(s'.th[t]) <==>
              || (r.pc.NextStale? && Tagged(s.sh, r.pc.node, 0))
              || (r.pc.FCas? && r.caller == NextCall && LoadWord(s.sh, r.pc.curr, r.pc.lv) != Some(Word(Some(r.pc.next), false)))
  {
    hide SharedInv, RegsOk, RemovalInv, InsertInv, ExecFind, ExecRemove, ExecUnlink, ExecInsert, ExecCall;
    var r := s.th[t];
    assert LocalInv(s.sh, t, r);
    if s'.th[t].pc.Fault? { FaultIsAstray(s, s', t, c); }
    if InFind(r.pc) { FindTurns(s.sh, t, r, c); }
    else if InRemoval(r.pc) { RemovalCallers(s.sh, t, r); RemovalStays(s.sh, t, r); }
    else if InInsert(r.pc) { InsertCallers(s.sh, t, r); InsertStays(s.sh, t, r, c); }
    else { CallTurns(s.sh, t, r, c); }
  }

  lemma FindTurns(sh: Shared, t: Tid, r: Local, c: Choice)
    requires SharedInv(sh) && InFind(r.pc) && FindInv(sh, t, r)
    ensures !ExecFind(sh, t, r, c).1.pc.Done?
    ensures r.caller != ClosestCall && !ExecFind(sh, t, r, c).1.pc.Fault? ==>
              (Astray(ExecFind(sh, t, r, c).1) <==>
                 r.pc.FCas? && r.caller == NextCall && LoadWord(sh, r.pc.curr, r.pc.lv) != Some(Word(Some(r.pc.next), false)))
  {
    hide SharedInv, ActUnlink, ActSub, ActRetire, Context;
    if r.pc.FCas? {
      CasFacts(sh, t, r);
      WordThere(sh, r.pc.curr, r.pc.lv);
    }
  }

  lemma RemovalStays(sh: Shared, t: Tid, r: Local)
    requires InRemoval(r.pc) && r.caller != NextCall && r.caller != ClosestCall
    ensures InUnlink(r.pc) ==> !ExecUnlink(sh, t, r).1.pc.Done? && ExecUnlink(sh, t, r).1.caller != ClosestCall
    ensures !InUnlink(r.pc) ==> !ExecRemove(sh, t, r).1.pc.Done? && ExecRemove(sh, t, r).1.caller != ClosestCall
  {
    hide ActUnlink, ActSub, ActRetire, ActTag, ActRemove;
  }

  lemma InsertStays(sh: Shared, t: Tid, r: Local, c: Choice)
    requires InInsert(r.pc) && Inserting(r)
    ensures !ExecInsert(sh, t, r, c).1.pc.Done? && ExecInsert(sh, t, r, c).1.caller != ClosestCall
  {
    hide ActCreate, ActCount, ActReserve, ActUnreserve, ActLink;
  }

  lemma CallTurns(sh: Shared, t: Tid, r: Local, c: Choice)
    requires CallInv(sh, t, r) && SharedInv(sh) && !r.pc.Fault?
    requires !InFind(r.pc) && !InRemoval(r.pc) && !InInsert(r.pc)
    ensures Astray(ExecCall(sh, r, c).1) <==> r.pc.NextStale? && Tagged(sh, r.pc.node, 0)
    ensures !r.pc.Ret? && !r.pc.Done? ==> !ExecCall(sh, r, c).1.pc.Done?
  {
    hide SharedInv;
    if r.pc.NextStale? { WordThere(sh, r.pc.node, 0); }
  }

  /** A thread that has turned to the search for the closest node never returns from its call, in any run. */
  lemma {:induction false} AstrayForever(tr: seq<State>, j: nat, k: nat, t: Tid)
    requires Run(tr) && j <= k < |tr| && t < |tr[j].th| && Astray(tr[j].th[t])
    ensures t < |tr[k].th| && Astray(tr[k].th[t])
    decreases k - j
  {
    hide Inv, Exec, Astray, Initial, Next;
    if j < k {
      AstrayForever(tr, j, k - 1, t);
      RunInv(tr, k - 1);
      var s, s' := tr[k - 1], tr[k];
      assert Next(s, s');
      if exists c :: Steps(s, s', t, c) {
        var c :| Steps(s, s', t, c);
        AstrayStays(s, s', t, c);
      } else {
        OthersMove(s, s', t);
      }
    }
  }

  /** Another thread has changed the word of n at level i since `next` was read from it. */
  ghost predicate Changed(sh: Shared, n: NodeId, i: nat, next: Ptr) {
    LoadWord(sh, n, i) != Some(Word(next, false))
  }

  /** `next_node` is going to meet a tagged successor, and to lose the compare-exchange that unlinks it. */
  ghost predicate Overtaken(sh: Shared, r: Local) {
    match r.pc
    case FLoad(lv, curr) =>
      Tagged(sh, curr, lv) && sh.heap[curr].levels[lv].ptr.Some? && Tagged(sh, sh.heap[curr].levels[lv].ptr.value, lv)
    case FTag(lv, curr, next) => Tagged(sh, next, lv) && Changed(sh, curr, lv, Some(next))
    case FNext(lv, curr, next) => Changed(sh, curr, lv, Some(next))
    case FCas(lv, curr, next, _) => Changed(sh, curr, lv, Some(next))
    case FSub(lv, curr, _, nn) => nn.Some? && Tagged(sh, nn.value, lv) && Changed(sh, curr, lv, nn)
    case FRetire(lv, curr, _, nn) => nn.Some? && Tagged(sh, nn.value, lv) && Changed(sh, curr, lv, nn)
    case _ => false
  }

  /** Left alone, the thread ends up in the search for the closest node. */
  ghost predicate Doomed(sh: Shared, r: Local) {
    || Astray(r)
    || (r.pc.NextStale? && Tagged(sh, r.pc.node, 0))
    || (InFind(r.pc) && r.caller == NextCall && Overtaken(sh, r))
  }

  /** Whether it does is settled: no step of its own changes that. */
  lemma DoomedStep(s: State, s': State, t: Tid, c: Choice)
    requires Inv(s) && Steps(s, s', t, c) && !Stopped(s, t)
    ensures Doomed(s'.sh, s'.th[t]) <==> Doomed(s.sh, s.th[t])
    ensures !s'.th[t].pc.Done?
  {
    hide SharedInv, RegsOk, FindInv, RemovalInv, InsertInv, CallInv, Mono, Kept;
    hide ExecFind, ExecRemove, ExecUnlink, ExecInsert, ExecCall, Overtaken, Tagged;
    var r := s.th[t];
    assert LocalInv(s.sh, t, r);
    StepKeeps(s.sh, t, r, c);
    NoFailure(s'.sh, t, s'.th[t]);
    if Astray(r) {
      AstrayStays(s, s', t, c);
    } else {
      if s'.th[t].pc.Fault? { FaultIsAstray(s, s', t, c); }
      TurnsAstray(s, s', t, c);
      if InFind(r.pc) {
        FindTurns(s.sh, t, r, c);
        FindKeepsCaller(s.sh, t, r, c);
        if r.caller == NextCall { OvertakenStep(s.sh, t, r, c); }
      }
      else if InRemoval(r.pc) { RemovalOff(s.sh, t, r); }
      else if InInsert(r.pc) { InsertOff(s.sh, t, r, c); }
      else {
        CallTurns(s.sh, t, r, c);
        CallPlaces(s.sh, t, r);
        CallSettled(s.sh, t, r, c);
      }
    }
  }

  lemma DoomedEnds(s: State, t: Tid)
    requires t < |s.th| && Stopped(s, t)
    ensures Doomed(s.sh, s.th[t]) <==> s.th[t].pc.Fault?
  {
  }

  lemma OvertakenStep(sh: Shared, t: Tid, r: Local, c: Choice)
    requires SharedInv(sh) && FindInv(sh, t, r) && InFind(r.pc) && r.caller == NextCall
    requires !ExecFind(sh, t, r, c).1.pc.Panic? && !ExecFind(sh, t, r, c).1.pc.Fault?
    ensures Overtaken(sh, r) <==> StillOvertaken(ExecFind(sh, t, r, c).0, ExecFind(sh, t, r, c).1)
  {
    hide SharedInv, FindInv, ExecFind, Overtaken;
    if r.pc.FCas? { OvertakenCas(sh, t, r, c); }
    else if r.pc.FSub? || r.pc.FRetire? { OvertakenPays(sh, t, r, c); }
    else { OvertakenReads(sh, t, r, c); }
  }

  ghost predicate StillOvertaken(sh: Shared, r: Local) {
    Astray(r) || (InFind(r.pc) && r.caller == NextCall && Overtaken(sh, r))
  }

  lemma OvertakenReads(sh: Shared, t: Tid, r: Local, c: Choice)
    requires SharedInv(sh) && FindInv(sh, t, r) && InFind(r.pc) && r.caller == NextCall
    requires !r.pc.FCas? && !r.pc.FSub? && !r.pc.FRetire?
    ensures Overtaken(sh, r) <==> StillOvertaken(ExecFind(sh, t, r, c).0, ExecFind(sh, t, r, c).1)
  {
    hide SharedInv, Context;
    if r.pc.FLoad? || r.pc.FTag? || r.pc.FNext? {
      WordThere(sh, r.pc.curr, r.pc.lv);
      if !r.pc.FLoad? { WordThere(sh, r.pc.next, r.pc.lv); }
      else if sh.heap[r.pc.curr].levels[r.pc.lv].ptr.Some? {
        WordThere(sh, sh.heap[r.pc.curr].levels[r.pc.lv].ptr.value, r.pc.lv);
      }
    }
  }

  lemma OvertakenCas(sh: Shared, t: Tid, r: Local, c: Choice)
    requires SharedInv(sh) && FindInv(sh, t, r) && r.pc.FCas? && r.caller == NextCall
    ensures Overtaken(sh, r) <==> StillOvertaken(ExecFind(sh, t, r, c).0, ExecFind(sh, t, r, c).1)
  {
    hide SharedInv, Context, ActUnlink;
    CasFacts(sh, t, r);
    WordThere(sh, r.pc.curr, r.pc.lv);
    DropWords(sh, t, r.pc.curr, r.pc.next, r.pc.nn, r.pc.lv);
  }

  lemma OvertakenPays(sh: Shared, t: Tid, r: Local, c: Choice)
    requires FindInv(sh, t, r) && (r.pc.FSub? || r.pc.FRetire?) && r.caller == NextCall
    requires !ExecFind(sh, t, r, c).1.pc.Panic? && !ExecFind(sh, t, r, c).1.pc.Fault?
    ensures Overtaken(sh, r) <==> StillOvertaken(ExecFind(sh, t, r, c).0, ExecFind(sh, t, r, c).1)
  {
    hide Context, ActSub, ActRetire;
    PayWords(sh, t, r, c);
    var sh' := ExecFind(sh, t, r, c).0;
    assert forall n: NodeId, i: nat :: LoadWord(sh', n, i) == LoadWord(sh, n, i);
  }

  lemma FindKeepsCaller(sh: Shared, t: Tid, r: Local, c: Choice)
    requires InFind(r.pc)
    ensures ExecFind(sh, t, r, c).1.caller == r.caller || ExecFind(sh, t, r, c).1.caller == ClosestCall
    ensures !ExecFind(sh, t, r, c).1.pc.NextStale?
  {
    hide ActUnlink, ActSub, ActRetire;
  }

  /** Neither inside `next_node` nor outside a call. */
  predicate OffNext(r: Local) {
    r.caller != NextCall && !r.pc.NextStale? && !r.pc.Done?
  }

  lemma RemovalOff(sh: Shared, t: Tid, r: Local)
    requires RemovalInv(sh, t, r) && InRemoval(r.pc)
    ensures InUnlink(r.pc) ==> OffNext(ExecUnlink(sh, t, r).1)
    ensures !InUnlink(r.pc) ==> OffNext(ExecRemove(sh, t, r).1)
  {
    RemovalCallers(sh, t, r);
    hide RemovalInv, ActUnlink, ActSub, ActRetire, ActTag, ActRemove;
  }

  lemma InsertOff(sh: Shared, t: Tid, r: Local, c: Choice)
    requires InsertInv(sh, t, r) && InInsert(r.pc)
    ensures OffNext(ExecInsert(sh, t, r, c).1)
  {
    InsertCallers(sh, t, r);
    hide InsertInv, ActCreate, ActCount, ActReserve, ActUnreserve, ActLink;
  }

  lemma CallSettled(sh: Shared, t: Tid, r: Local, c: Choice)
    requires SharedInv(sh) && CallInv(sh, t, r) && (r.pc.GetLen? || r.pc.FirstLen? || r.pc.NextStale?)
    ensures Doomed(sh, ExecCall(sh, r, c).1) <==> Doomed(sh, r)
    ensures ExecCall(sh, r, c).0 == sh
  {
    hide SharedInv;
    HeadUntagged(sh, 0);
    if r.pc.NextStale? { WordThere(sh, r.pc.node, 0); }
  }

  // ------------------------------------------------------------------ obstruction freedom

  ghost predicate Continues(s: State, s': State, t: Tid) {
    exists c :: Steps(s, s', t, c) && Offered(c)
  }

  lemma {:induction false} Finishes(f: nat -> State, t: Tid, k: nat) returns (e: nat)
    requires Inv(f(k)) && t < |f(k).th|
    requires forall j: nat :: k <= j && !Stopped(f(j), t) ==> Continues(f(j), f(j + 1), t)
    ensures k <= e && Stopped(f(e), t)
    ensures Doomed(f(e).sh, f(e).th[t]) <==> Doomed(f(k).sh, f(k).th[t])
    decreases Left(f(k).sh, f(k).th[t]).unlinked, Left(f(k).sh, f(k).th[t]).live, Left(f(k).sh, f(k).th[t]).stage,
              Left(f(k).sh, f(k).th[t]).stale, Left(f(k).sh, f(k).th[t]).level, Left(f(k).sh, f(k).th[t]).behind,
              Left(f(k).sh, f(k).th[t]).rank
  {
    hide Inv, Left, Exec, Doomed;
    if Stopped(f(k), t) {
      e := k;
    } else {
      assert Continues(f(k), f(k + 1), t);
      var c :| Steps(f(k), f(k + 1), t, c) && Offered(c);
      StepLess(f(k), f(k + 1), t, c);
      DoomedStep(f(k), f(k + 1), t, c);
      e := Finishes(f, t, k + 1);
    }
  }

  lemma OthersSafe(s: State, t: Tid)
    requires Inv(s) && t < |s.th| && Doomed(s.sh, s.th[t])
    ensures s.th[t].caller == NextCall || s.th[t].caller == ClosestCall
  {
    hide SharedInv, RegsOk, FindInv, RemovalInv, InsertInv;
    assert LocalInv(s.sh, t, s.th[t]);
  }

  /**
    Obstruction freedom. Stop all other threads in any reachable state, wherever they are: thread t, going on
    alone from wherever it is, stops after finitely many steps, whatever levels and heights chance offers it. It
    stops about to return, or, exactly if it was doomed, which only `get_first` and `next_node` can be, outside a
    tower.
   */
  lemma ObstructionFree(tr: seq<State>, f: nat -> State, t: Tid) returns (e: nat)
    requires Run(tr) && f(0) == tr[|tr| - 1] && t < |f(0).th|
    requires forall j: nat :: !Stopped(f(j), t) ==> Continues(f(j), f(j + 1), t)
    ensures Stopped(f(e), t) && (f(e).th[t].pc.Fault? <==> Doomed(f(0).sh, f(0).th[t]))
    ensures Doomed(f(0).sh, f(0).th[t]) ==> f(0).th[t].caller == NextCall || f(0).th[t].caller == ClosestCall
  {
    hide Inv, Initial, Next, Continues, Doomed;
    RunInv(tr, |tr| - 1);
    if Doomed(f(0).sh, f(0).th[t]) { OthersSafe(f(0), t); }
    e := Finishes(f, t, 0);
    DoomedEnds(f(e), t);
  }
}
