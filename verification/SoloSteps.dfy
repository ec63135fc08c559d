/** Every step of a thread that runs alone keeps what the solo invariant says. */
module SoloSteps {
  import opened Common
  import opened SyncState
  import opened SyncExec
  import opened SyncInv
  import opened SyncStable
  import opened SyncActions
  import opened SyncSteps
  import opened SyncTheorems
  import opened SyncRefine
  import opened Solo

  // ------------------------------------------------------------------ steps that leave the map alone

  /** A step that removes nothing, links nothing at the bottom and leaves the map as it was. */
  ghost predicate Calm(sh: Shared, sh': Shared) {
    && Mono(sh, sh') && NoNewRemovals(sh, sh') && Abs(sh') == Abs(sh) && Live(sh') == Live(sh)
    && forall n :: n in Chain(sh', 0) ==> n in Chain(sh, 0)
  }

  lemma CalmStep(s: State, s': State, t: Tid, c: Choice)
    requires Inv(s) && Steps(s, s', t, c) && !s.th[t].pc.SCas? && !(s.th[t].pc.LCas? && s.th[t].start == 0)
    ensures Calm(s.sh, s'.sh)
  {
    hide SharedInv, RegsOk, FindInv, RemovalInv, InsertInv, CallInv, Exec, Mono, Kept, Live, Abs, NoNewRemovals, Chain, Dropped, Spliced;
    var r := s.th[t];
    assert LocalInv(s.sh, t, r);
    StepKeeps(s.sh, t, r, c);
    RemovedChange(s.sh, t, r, c);
    LiveStep(s, s', t, c);
    MapStep(s, s', t, c);
    ChainStep(s, s', t, c);
    BottomShrinks(s.sh, t, r, s'.sh);
  }

  lemma BottomShrinks(sh: Shared, t: Tid, r: Local, sh': Shared)
    requires ChainEffect(sh, t, r, sh') && !(r.pc.LCas? && r.start == 0)
    ensures forall n :: n in Chain(sh', 0) ==> n in Chain(sh, 0)
  {
    forall n: NodeId | n in Chain(sh', 0) ensures n in Chain(sh, 0) {
      if r.pc.FCas? { DropMembers(Chain(sh, 0), r.pc.next, n); }
      if r.pc.UCas? { DropMembers(Chain(sh, 0), r.target, n); }
    }
  }

  lemma SolidCarry(sh: Shared, sh': Shared, n: NodeId)
    requires Mono(sh, sh') && NoNewRemovals(sh, sh') && Solid(sh, n)
    ensures Solid(sh', n) && sh'.heap[n].key == sh.heap[n].key
  {
    NodeKept(sh, sh', n);
  }

  lemma QuietCarry(sh: Shared, sh': Shared, x: Ptr)
    requires Mono(sh, sh') && NoNewRemovals(sh, sh') && Quiet(sh, x)
    ensures Quiet(sh', x)
  {
    forall n, i | 0 <= n < |sh'.heap| && sh'.heap[n].removed && x != Some(n) && 0 <= i < |sh'.heap[n].levels|
      ensures Tagged(sh', n, i)
    {
      NodeKept(sh, sh', n);
      assert Tagged(sh, n, i);
    }
  }

  lemma CleanCarry(sh: Shared, sh': Shared, x: Ptr)
    requires SharedInv(sh) && Calm(sh, sh') && Clean(sh, x)
    ensures Clean(sh', x)
  {
    hide SharedInv, Mono, Chain, Abs, Live;
    forall n | n in Chain(sh', 0) && n < |sh'.heap| && sh'.heap[n].removed ensures x == Some(n) {
      NodeKept(sh, sh', n);
    }
  }

  lemma FullCarry(sh: Shared, sh': Shared, x: Ptr)
    requires Calm(sh, sh') && Full(sh, x)
    ensures Full(sh', x)
  {
    hide Mono, Abs;
    forall n, i | n in Live(sh') && x != Some(n) && n < |sh'.heap| && 0 <= i < |sh'.heap[n].levels| ensures EverLinked(sh', n, i) {
      NodeKept(sh, sh', n);
      EverLinkedMono(sh, sh', n, i);
    }
  }

  lemma SettledCarry(g: Goal, sh: Shared, sh': Shared)
    requires SharedInv(sh) && Calm(sh, sh') && Settled(g, sh)
    ensures Settled(g, sh')
  {
    hide SharedInv, Quiet, Clean, Full, Mono, NoNewRemovals, Abs, Live, Chain;
    QuietCarry(sh, sh', None);
    if g.clean { CleanCarry(sh, sh', None); }
    if g.full { FullCarry(sh, sh', None); }
  }

  lemma HadCarry(g: Goal, sh: Shared, sh': Shared, x: Ptr, key: int)
    requires Mono(sh, sh') && Had(g, sh, x, key)
    ensures Had(g, sh', x, key)
  {
    if x.Some? && x.value < |sh.heap| { NodeKept(sh, sh', x.value); }
  }

  /** The registers that the stages speak of. */
  ghost predicate SameStage(r: Local, r': Local) {
    r'.caller == r.caller && r'.key == r.key && r'.val == r.val && r'.existing == r.existing && r'.target == r.target
    && r'.newNode == r.newNode && r'.start == r.start
  }

  lemma WaitingCarry(g: Goal, sh: Shared, r: Local, sh': Shared, r': Local)
    requires Mono(sh, sh') && Abs(sh') == Abs(sh) && SameStage(r, r') && Waiting(g, sh, r)
    ensures Waiting(g, sh', r')
  {
    hide Mono, Abs;
    if r.existing.Some? { HadCarry(g, sh, sh', r.existing, r.key); }
  }

  lemma JoinedCarry(g: Goal, sh: Shared, r: Local, sh': Shared, r': Local)
    requires Mono(sh, sh') && Abs(sh') == Abs(sh) && Live(sh') == Live(sh) && Joined(g, sh, r)
    requires r'.key == r.key && r'.val == r.val && r'.existing == r.existing && r'.newNode == r.newNode && r'.start >= r.start
    ensures Joined(g, sh', r')
  {
    hide Mono, Abs, Live;
    HadCarry(g, sh, sh', r.existing, r.key);
  }

  lemma KeyOfCarry(sh: Shared, r: Local, sh': Shared, r': Local)
    requires Mono(sh, sh') && r.target < |sh.heap| && r'.target == r.target && r'.key == r.key
    requires r'.caller == EntryCall <==> r.caller == EntryCall
    ensures KeyOf(sh', r') == KeyOf(sh, r)
  {
    NodeKept(sh, sh', r.target);
  }

  lemma TakenOutCarry(g: Goal, sh: Shared, r: Local, sh': Shared, r': Local)
    requires Mono(sh, sh') && Abs(sh') == Abs(sh) && SameStage(r, r') && TakenOut(g, sh, r)
    ensures TakenOut(g, sh', r') && KeyOf(sh', r') == KeyOf(sh, r)
  {
    hide Mono, Abs;
    KeyOfCarry(sh, r, sh', r');
    HadCarry(g, sh, sh', Some(r.target), KeyOf(sh, r));
  }

  lemma SeekingCarry(g: Goal, sh: Shared, r: Local, sh': Shared, r': Local)
    requires SharedInv(sh) && Calm(sh, sh') && SameStage(r, r') && Seeking(g, sh, r)
    ensures Seeking(g, sh', r')
  {
    hide SharedInv, Quiet, Clean, Full, Mono, NoNewRemovals, Abs, Live, Chain, Waiting, Joined, TakenOut;
    QuietCarry(sh, sh', None);
    if g.clean { CleanCarry(sh, sh', Leftover(r)); }
    if g.full { FullCarry(sh, sh', if r.caller == InsertRetry then r.newNode else None); }
    if r.caller == InsertFirst { WaitingCarry(g, sh, r, sh', r'); }
    if r.caller == InsertRetry { JoinedCarry(g, sh, r, sh', r'); }
    if r.caller == RemoveCleanup { TakenOutCarry(g, sh, r, sh', r'); }
  }

  lemma AheadCarry(sh: Shared, r: Local, sh': Shared, r': Local, low: nat)
    requires Mono(sh, sh') && NoNewRemovals(sh, sh') && Ahead(sh, r, low) && r'.key == r.key && |r'.prev| == |r.prev|
    requires forall i :: low <= i < |r.prev| ==> r'.prev[i] == r.prev[i]
    ensures Ahead(sh', r', low)
  {
    hide Mono, NoNewRemovals;
    forall i | low <= i < |r'.prev| && r'.prev[i].1.Some?
      ensures Solid(sh', r'.prev[i].1.value) && r'.key <= sh'.heap[r'.prev[i].1.value].key
    {
      SolidCarry(sh, sh', r.prev[i].1.value);
    }
  }

  lemma StrictCarry(sh: Shared, r: Local, sh': Shared, r': Local, low: nat)
    requires Mono(sh, sh') && Strict(sh, r, low) && r'.key == r.key && r'.prev == r.prev
    ensures Strict(sh', r', low)
  {
    forall i | low <= i < |r.prev| && r.prev[i].1.Some? ensures sh'.heap[r.prev[i].1.value].key == sh.heap[r.prev[i].1.value].key {
      NodeKept(sh, sh', r.prev[i].1.value);
    }
  }

  lemma StandingCarry(g: Goal, sh: Shared, r: Local, sh': Shared, r': Local, lv: nat, curr: NodeId)
    requires Mono(sh, sh') && NoNewRemovals(sh, sh') && Standing(g, sh, r, lv, curr)
    requires r'.caller == r.caller && r'.key == r.key && r'.prev == r.prev
    ensures Standing(g, sh', r', lv, curr)
  {
    hide Mono, NoNewRemovals;
    SolidCarry(sh, sh', curr);
    if g.full && r.caller != NextCall { AheadCarry(sh, r, sh', r', lv + 1); }
  }

  // ------------------------------------------------------------------ what a search has found

  /** Between two adjacent nodes of the bottom chain, the second of them live, there is no key of the map. */
  lemma GapAfter(sh: Shared, p: NodeId, next: Ptr)
    requires SharedInv(sh) && EverLinked(sh, p, 0) && Solid(sh, p) && PtrIs(sh, p, 0, next)
    requires next.Some? ==> Visited(sh, next.value, 0) && Solid(sh, next.value)
    ensures next.Some? ==> next.value in Live(sh) && Above(sh, p, sh.heap[next.value].key)
    ensures forall k :: k in Abs(sh) && Above(sh, p, k) ==> next.Some? && sh.heap[next.value].key <= k
    ensures next.Some? ==> sh.heap[next.value].key in Abs(sh) && Abs(sh)[sh.heap[next.value].key] == sh.heap[next.value].val
  {
    hide Abs, LenOk, LogsOk;
    var c := Chain(sh, 0);
    SolidUntagged(sh, p, 0);
    var j := StillLinked(sh, p, 0);
    assert ChainOk(sh, 0);
    if next.Some? {
      assert c[j + 1] == next.value;
      LiveFacts(sh, next.value);
      AbsAt(sh, next.value);
      if p != HEAD { assert j >= 1; }
    }
    forall k | k in Abs(sh) && Above(sh, p, k) ensures next.Some? && sh.heap[next.value].key <= k {
      var m := AbsHas(sh, k);
      var a :| 0 <= a < |c| && c[a] == m;
      if a <= j { AtOrBefore(sh, c, a, j); assert false; }
      if a > j + 1 { assert sh.heap[c[j + 1]].key < sh.heap[c[a]].key; }
    }
  }

  lemma AtOrBefore(sh: Shared, c: seq<NodeId>, a: nat, j: nat)
    requires Sorted(sh, c) && |c| > 0 && c[0] == HEAD && NoDup(c) && a <= j < |c| && c[a] != HEAD
    ensures c[j] != HEAD && sh.heap[c[a]].key <= sh.heap[c[j]].key
  {
  }

  lemma SolidUntagged(sh: Shared, n: NodeId, i: nat)
    requires SharedInv(sh) && Solid(sh, n)
    ensures !Tagged(sh, n, i)
  {
    assert NodeOk(sh, n);
  }

  /** An untagged node that is quiet is live. */
  lemma UntaggedSolid(sh: Shared, n: NodeId, i: nat)
    requires Quiet(sh, None) && n < |sh.heap| && i < |sh.heap[n].levels| && !Tagged(sh, n, i)
    ensures Solid(sh, n)
  {
  }

  /** The answer of a search is right: it finds a node exactly if the map has the key. */
  lemma FoundRight(sh: Shared, t: Tid, r: Local)
    requires SharedInv(sh) && RegsOk(sh, t, r) && Adjacent(sh, r)
    ensures var x := r.prev[0].1;
            && (r.key in Abs(sh) <==> x.Some? && sh.heap[x.value].key == r.key)
            && (x.Some? && sh.heap[x.value].key == r.key ==> x.value in Live(sh) && Abs(sh)[r.key] == sh.heap[x.value].val)
  {
    hide SharedInv, Abs, Live;
    assert PrevOk(sh, r, 0);
    GapAfter(sh, r.prev[0].0, r.prev[0].1);
  }

  /** After a search nothing removed is left on the bottom chain. */
  lemma FoundClean(sh: Shared, t: Tid, r: Local, x: Ptr)
    requires SharedInv(sh) && RegsOk(sh, t, r) && Adjacent(sh, r) && Clean(sh, x)
    requires x.Some? ==> x.value < |sh.heap| && sh.heap[x.value].key == r.key
    ensures Clean(sh, None)
  {
    hide Abs, LenOk, LogsOk, NodeOk;
    var c := Chain(sh, 0);
    assert PrevOk(sh, r, 0);
    SolidUntagged(sh, r.prev[0].0, 0);
    var j := StillLinked(sh, r.prev[0].0, 0);
    assert ChainOk(sh, 0);
    forall n | n in c && n != HEAD && n < |sh.heap| && sh.heap[n].key == r.key ensures !sh.heap[n].removed {
      var a :| 0 <= a < |c| && c[a] == n;
      if a <= j { AtOrBefore(sh, c, a, j); }
    }
  }

  // ------------------------------------------------------------------ find

  lemma SeekingRegs(g: Goal, sh: Shared, r: Local, r': Local)
    requires SameStage(r, r') && Seeking(g, sh, r)
    ensures Seeking(g, sh, r')
  {
    hide Quiet, Clean, Full, Abs, Live;
  }

  /** `find` or `next_node` settles on a successor. */
  lemma DecideSolo(g: Goal, sh: Shared, t: Tid, r: Local, lv: nat, curr: NodeId, next: Ptr)
    requires SharedInv(sh) && RegsOk(sh, t, r) && lv < HEIGHT && CurrOk(sh, r, lv, curr)
    requires Seeking(g, sh, r) && Standing(g, sh, r, lv, curr) && PtrIs(sh, curr, lv, next)
    requires next.Some? ==> Solid(sh, next.value) && Visited(sh, next.value, lv)
    ensures SoloInv(g, sh, Decide(sh, r, lv, curr, next))
  {
    hide SharedInv, RegsOk, Seeking, Standing, SoloInv, CurrOk, PtrIs, Visited, Solid, Decide;
    if r.caller == NextCall { AnswerNext(g, sh, r, lv, curr, next); } else { SearchOn(g, sh, t, r, lv, curr, next); }
  }

  lemma AnswerNext(g: Goal, sh: Shared, r: Local, lv: nat, curr: NodeId, next: Ptr)
    requires SharedInv(sh) && CurrOk(sh, r, lv, curr) && r.caller == NextCall
    requires Seeking(g, sh, r) && Standing(g, sh, r, lv, curr) && PtrIs(sh, curr, lv, next)
    requires next.Some? ==> Solid(sh, next.value) && Visited(sh, next.value, lv)
    ensures SoloInv(g, sh, Decide(sh, r, lv, curr, next))
  {
    hide SharedInv, Seeking, Abs, Live, Solid, FindAt, RemovalAt, InsertAt, Answered, PtrIs, Visited;
    AtFrom(g, sh, r, lv, curr);
    GapAfter(sh, curr, next);
    if next.Some? { SolidThere(sh, next.value); }
    NextAnswered(g, sh, r, curr, next);
  }

  lemma AtFrom(g: Goal, sh: Shared, r: Local, lv: nat, curr: NodeId)
    requires Standing(g, sh, r, lv, curr) && r.caller == NextCall
    ensures lv == 0 && curr == g.from && Solid(sh, curr)
  {
  }

  lemma SearchOn(g: Goal, sh: Shared, t: Tid, r: Local, lv: nat, curr: NodeId, next: Ptr)
    requires RegsOk(sh, t, r) && lv < HEIGHT && r.caller != NextCall
    requires Seeking(g, sh, r) && Standing(g, sh, r, lv, curr) && PtrIs(sh, curr, lv, next)
    requires next.Some? ==> Solid(sh, next.value)
    ensures SoloInv(g, sh, Decide(sh, r, lv, curr, next))
  {
    SeekingCallers(g, sh, r);
    hide Seeking, RemovalAt, InsertAt, CallAt, PrevOk;
    var r' := Decide(sh, r, lv, curr, next);
    SeekingRegs(g, sh, r, r');
    hide RegsOk;
  }

  lemma SolidThere(sh: Shared, n: NodeId)
    requires Solid(sh, n)
    ensures n < |sh.heap|
  {
  }

  lemma NextAnswered(g: Goal, sh: Shared, r: Local, curr: NodeId, next: Ptr)
    requires Seeking(g, sh, r) && r.caller == NextCall && curr == g.from
    requires next.Some? ==> next.value in Live(sh) && Above(sh, curr, sh.heap[next.value].key)
    requires forall k :: k in Abs(sh) && Above(sh, curr, k) ==> next.Some? && next.value < |sh.heap| && sh.heap[next.value].key <= k
    requires next.Some? ==> sh.heap[next.value].key in Abs(sh) && Abs(sh)[sh.heap[next.value].key] == sh.heap[next.value].val
    ensures Answered(g, sh, r.(pc := Ret(next)), next)
  {
    hide Abs, Quiet, Clean, Full;
  }

  lemma ExamineSolo(g: Goal, sh: Shared, t: Tid, r: Local, lv: nat, curr: NodeId, next: Ptr)
    requires SharedInv(sh) && RegsOk(sh, t, r) && lv < HEIGHT && CurrOk(sh, r, lv, curr)
    requires Seeking(g, sh, r) && Standing(g, sh, r, lv, curr) && PtrIs(sh, curr, lv, next)
    ensures SoloInv(g, sh, Examine(sh, r, lv, curr, next))
  {
    SeekingCallers(g, sh, r);
    hide SharedInv, RegsOk, CurrOk, Seeking, Decide, Ahead;
    if next == None { DecideSolo(g, sh, t, r, lv, curr, next); }
    else {
      SeekingRegs(g, sh, r, Examine(sh, r, lv, curr, next));
      StandingRegs(g, sh, r, Examine(sh, r, lv, curr, next), lv, curr);
    }
  }

  lemma StandingRegs(g: Goal, sh: Shared, r: Local, r': Local, lv: nat, curr: NodeId)
    requires Standing(g, sh, r, lv, curr) && r'.caller == r.caller && r'.key == r.key && r'.prev == r.prev
    ensures Standing(g, sh, r', lv, curr)
  {
  }

  lemma WalkSolo(g: Goal, sh: Shared, t: Tid, r: Local, c: Choice)
    requires SharedInv(sh) && RegsOk(sh, t, r) && FindInv(sh, t, r) && (r.pc.FLoad? || r.pc.FTag? || r.pc.FNext?)
    requires Seeking(g, sh, r) && FindAt(g, sh, r)
    ensures ExecFind(sh, t, r, c).0 == sh && SoloInv(g, sh, ExecFind(sh, t, r, c).1)
  {
    SeekingCallers(g, sh, r);
    StandsAt(g, sh, r);
    hide SharedInv, RegsOk, Seeking, Decide, Examine, Context, Standing, FindAt, SoloInv, Quiet;
    var lv, curr := r.pc.lv, r.pc.curr;
    WordThere(sh, curr, lv);
    var r' := ExecFind(sh, t, r, c).1;
    if r.pc.FLoad? {
      ExamineSolo(g, sh, t, r, lv, curr, sh.heap[curr].levels[lv].ptr);
    } else {
      WordThere(sh, r.pc.next, lv);
      if r.pc.FTag? && !sh.heap[r.pc.next].levels[lv].tag {
        SeekingQuiet(g, sh, r);
        UntaggedSolid(sh, r.pc.next, lv);
        DecideSolo(g, sh, t, r, lv, curr, Some(r.pc.next));
      } else {
        SeekingRegs(g, sh, r, r');
        StandingRegs(g, sh, r, r', lv, curr);
        GoesOnSolo(g, sh, r');
      }
    }
  }

  lemma SeekingQuiet(g: Goal, sh: Shared, r: Local)
    requires Seeking(g, sh, r)
    ensures Quiet(sh, None)
  {
  }

  /** The source starts at the highest level in use: all words of the head above it are null. */
  ghost predicate StartsHigh(sh: Shared, level: nat) {
    forall i :: level < i < HEIGHT ==> PtrIs(sh, HEAD, i, None)
  }

  lemma BeginSolo(g: Goal, sh: Shared, t: Tid, r: Local, c: Choice)
    requires SharedInv(sh) && RegsOk(sh, t, r) && FindInv(sh, t, r) && (r.pc.FInit? || r.pc.FStart?)
    requires Seeking(g, sh, r) && FindAt(g, sh, r)
    requires g.full && r.pc.FStart? && c.level < HEIGHT ==> StartsHigh(sh, c.level)
    ensures ExecFind(sh, t, r, c).0 == sh && SoloInv(g, sh, ExecFind(sh, t, r, c).1)
  {
    SeekingCallers(g, sh, r);
    hide SharedInv, Seeking, Context;
    var r' := ExecFind(sh, t, r, c).1;
    HeadThere(sh, if r.pc.FInit? then r.pc.i else 0);
    SeekingRegs(g, sh, r, r');
    HeadSolid(sh);
    if r.pc.FStart? && c.level < HEIGHT {
      if g.full {
        forall i | c.level + 1 <= i < |r.prev| ensures r.prev[i].1 == None {
          assert PtrIs(sh, HEAD, i, None) && PtrIs(sh, HEAD, i, r.prev[i].1);
        }
      }
    }
  }

  lemma HeadSolid(sh: Shared)
    requires SharedInv(sh)
    ensures Solid(sh, HEAD)
  {
  }

  lemma DropIs(sh: Shared, t: Tid, r: Local, c: Choice)
    requires SharedInv(sh) && FindInv(sh, t, r) && r.pc.FCas?
    requires Solid(sh, r.pc.curr) && PtrIs(sh, r.pc.curr, r.pc.lv, Some(r.pc.next))
    ensures ExecFind(sh, t, r, c) == (ActUnlink(sh, t, r.pc.curr, r.pc.next, r.pc.nn, r.pc.lv),
                                      r.(pc := FSub(r.pc.lv, r.pc.curr, r.pc.next, r.pc.nn)))
    ensures PtrIs(ExecFind(sh, t, r, c).0, r.pc.curr, r.pc.lv, r.pc.nn)
  {
    hide SharedInv, Context;
    WordThere(sh, r.pc.curr, r.pc.lv);
    SolidUntagged(sh, r.pc.curr, r.pc.lv);
  }

  /** Alone, the compare-exchange that unlinks a tagged successor always succeeds. */
  lemma DropSolo(g: Goal, sh: Shared, t: Tid, r: Local, c: Choice, sh': Shared)
    requires SharedInv(sh) && FindInv(sh, t, r) && r.pc.FCas? && sh' == ExecFind(sh, t, r, c).0
    requires Seeking(g, sh, r) && FindAt(g, sh, r) && Calm(sh, sh')
    ensures sh' == ActUnlink(sh, t, r.pc.curr, r.pc.next, r.pc.nn, r.pc.lv) && SoloInv(g, sh', ExecFind(sh, t, r, c).1)
  {
    SeekingCallers(g, sh, r);
    StandsAt(g, sh, r);
    hide SharedInv, FindInv, Seeking, Calm, Standing, ExecFind, ActUnlink, Solid, PtrIs, FindAt, SoloInv;
    var r' := ExecFind(sh, t, r, c).1;
    StandingSolid(g, sh, r, r.pc.lv, r.pc.curr);
    DropIs(sh, t, r, c);
    SeekingCarry(g, sh, r, sh', r');
    CalmParts(sh, sh');
    StandingCarry(g, sh, r, sh', r', r.pc.lv, r.pc.curr);
    GoesOnSolo(g, sh', r');
  }

  lemma StandsAt(g: Goal, sh: Shared, r: Local)
    requires FindAt(g, sh, r) && (r.pc.FLoad? || r.pc.FTag? || r.pc.FNext? || r.pc.FCas? || r.pc.FSub? || r.pc.FRetire?)
    ensures Standing(g, sh, r, r.pc.lv, r.pc.curr)
    ensures r.pc.FTag? || r.pc.FNext? || r.pc.FCas? ==> PtrIs(sh, r.pc.curr, r.pc.lv, Some(r.pc.next))
    ensures r.pc.FSub? || r.pc.FRetire? ==> PtrIs(sh, r.pc.curr, r.pc.lv, r.pc.nn)
  {
  }

  lemma GoesOnSolo(g: Goal, sh: Shared, r: Local)
    requires (r.pc.FNext? || r.pc.FCas? || r.pc.FSub? || r.pc.FRetire?) && r.caller != ClosestCall && Seeking(g, sh, r)
    requires Standing(g, sh, r, r.pc.lv, r.pc.curr)
    requires PtrIs(sh, r.pc.curr, r.pc.lv, if r.pc.FNext? || r.pc.FCas? then Some(r.pc.next) else r.pc.nn)
    ensures SoloInv(g, sh, r)
  {
    hide Seeking, Standing, PtrIs;
  }

  lemma StandingSolid(g: Goal, sh: Shared, r: Local, lv: nat, curr: NodeId)
    requires Standing(g, sh, r, lv, curr)
    ensures Solid(sh, curr)
  {
  }

  lemma CalmParts(sh: Shared, sh': Shared)
    requires Calm(sh, sh')
    ensures Mono(sh, sh') && NoNewRemovals(sh, sh') && Abs(sh') == Abs(sh) && Live(sh') == Live(sh)
  {
  }

  /** What the steps that pay for an unlinking do. */
  lemma PayIs(sh: Shared, t: Tid, r: Local, c: Choice)
    requires FindInv(sh, t, r) && (r.pc.FSub? || r.pc.FRetire?)
    requires !ExecFind(sh, t, r, c).1.pc.Panic? && !ExecFind(sh, t, r, c).1.pc.Fault?
    ensures var (sh', r') := ExecFind(sh, t, r, c); var (lv, curr, nn) := (r.pc.lv, r.pc.curr, r.pc.nn);
            && (r' == r.(pc := FRetire(lv, curr, r.pc.next, nn)) || r' == Examine(sh', r, lv, curr, nn))
            && (PtrIs(sh, curr, lv, nn) ==> PtrIs(sh', curr, lv, nn))
  {
    hide Walking, Holds, Retiring, NextOk, Decide;
    if r.pc.FRetire? { ExamineHeap(sh, ActRetire(sh, r.pc.next), r, r.pc.lv, r.pc.curr, r.pc.nn); }
  }

  lemma PaySolo(g: Goal, sh: Shared, t: Tid, r: Local, c: Choice, sh': Shared)
    requires SharedInv(sh) && FindInv(sh, t, r) && (r.pc.FSub? || r.pc.FRetire?) && sh' == ExecFind(sh, t, r, c).0
    requires SharedInv(sh') && RegsOk(sh', t, r) && r.pc.lv < HEIGHT && CurrOk(sh', r, r.pc.lv, r.pc.curr)
    requires Seeking(g, sh, r) && FindAt(g, sh, r) && Calm(sh, sh')
    requires !ExecFind(sh, t, r, c).1.pc.Panic? && !ExecFind(sh, t, r, c).1.pc.Fault?
    ensures SoloInv(g, sh', ExecFind(sh, t, r, c).1)
  {
    SeekingCallers(g, sh, r);
    StandsAt(g, sh, r);
    hide SharedInv, RegsOk, FindInv, Seeking, Calm, Standing, ExecFind, Examine, PtrIs, CurrOk, FindAt, SoloInv;
    var r' := ExecFind(sh, t, r, c).1;
    var lv, curr := r.pc.lv, r.pc.curr;
    PayIs(sh, t, r, c);
    SeekingCarry(g, sh, r, sh', r);
    CalmParts(sh, sh');
    StandingCarry(g, sh, r, sh', r, lv, curr);
    if r' == r.(pc := FRetire(lv, curr, r.pc.next, r.pc.nn)) {
      SeekingRegs(g, sh', r, r');
      StandingCarry(g, sh, r, sh', r', lv, curr);
      GoesOnSolo(g, sh', r');
    } else {
      ExamineSolo(g, sh', t, r, lv, curr, r.pc.nn);
    }
  }

  /** From `Ahead` and the absence of the key. */
  lemma StrictAbsent(sh: Shared, t: Tid, r: Local)
    requires SharedInv(sh) && RegsOk(sh, t, r) && Ahead(sh, r, 0) && r.key !in Abs(sh)
    ensures Strict(sh, r, 0)
  {
    hide SharedInv, Abs;
    forall i | 0 <= i < |r.prev| && r.prev[i].1.Some? ensures r.key < sh.heap[r.prev[i].1.value].key {
      var x := r.prev[i].1.value;
      assert PrevOk(sh, r, i);
      VisitedLive(sh, x, i);
      AbsAt(sh, x);
    }
  }

  lemma VisitedLive(sh: Shared, n: NodeId, i: nat)
    requires SharedInv(sh) && Visited(sh, n, i) && Solid(sh, n)
    ensures n in Live(sh)
  {
    hide SharedInv, Live;
    Lower(sh, n, i, 0);
    LiveFacts(sh, n);
  }

  /** Where the new node is not linked yet, it is not the recorded successor either. */
  lemma StrictPresent(sh: Shared, t: Tid, r: Local)
    requires SharedInv(sh) && RegsOk(sh, t, r) && Ahead(sh, r, 0) && NewBelow(sh, t, r, Fresh) && r.newNode.value in Live(sh)
    ensures Strict(sh, r, r.start)
  {
    hide SharedInv, Live;
    forall i | r.start <= i < |r.prev| && r.prev[i].1.Some? ensures r.key < sh.heap[r.prev[i].1.value].key {
      var x := r.prev[i].1.value;
      assert PrevOk(sh, r, i);
      VisitedLive(sh, x, i);
      if sh.heap[x].key == r.key { LiveUnique(sh, x, r.newNode.value); }
    }
  }

  /** `target` is what a search for r.key should find. */
  ghost predicate Right(sh: Shared, r: Local, target: Ptr) {
    && (r.key in Abs(sh) <==> target.Some?)
    && (target.Some? ==> target.value in Live(sh) && sh.heap[target.value].key == r.key && Abs(sh)[r.key] == sh.heap[target.value].val)
  }

  lemma SettledAfter(g: Goal, sh: Shared, t: Tid, r: Local)
    requires SharedInv(sh) && RegsOk(sh, t, r) && Seeking(g, sh, r) && Adjacent(sh, r) && r.caller != InsertRetry
    ensures Settled(g, sh)
  {
    hide SharedInv, RegsOk, Adjacent, Quiet, Clean, Full, Abs, Live, Joined;
    if g.clean { FoundClean(sh, t, r, Leftover(r)); }
  }

  lemma InsertFound(g: Goal, sh: Shared, t: Tid, r: Local, target: Ptr)
    requires SharedInv(sh) && RegsOk(sh, t, r) && Seeking(g, sh, r) && Adjacent(sh, r) && (g.full ==> Ahead(sh, r, 0))
    requires r.caller == InsertFirst && Right(sh, r, target)
    ensures SoloInv(g, sh, AfterFind(r, target))
  {
    hide SharedInv, RegsOk, Adjacent, Quiet, Clean, Full, Abs, Ahead, Strict, Settled;
    SettledAfter(g, sh, t, r);
    if target == None {
      if g.full { StrictAbsent(sh, t, r); }
      ReadyRegs(g, sh, r, AfterFind(r, target));
    }
  }

  lemma ReadyRegs(g: Goal, sh: Shared, r: Local, r': Local)
    requires Settled(g, sh) && Waiting(g, sh, r) && Adjacent(sh, r) && r.key !in Abs(sh) && (g.full ==> Strict(sh, r, 0))
    requires r'.key == r.key && r'.val == r.val && r'.existing == r.existing && r'.prev == r.prev
    ensures Ready(g, sh, r')
  {
    hide Settled, Abs;
  }

  lemma RetryFound(g: Goal, sh: Shared, t: Tid, r: Local, target: Ptr)
    requires SharedInv(sh) && RegsOk(sh, t, r) && Seeking(g, sh, r) && Adjacent(sh, r) && (g.full ==> Ahead(sh, r, 0))
    requires r.caller == InsertRetry && Right(sh, r, target) && NewBelow(sh, t, r, Fresh)
    ensures SoloInv(g, sh, AfterFind(r, target))
  {
    hide SharedInv, RegsOk, Adjacent, Quiet, Clean, Full, Abs, Live, Ahead, Strict, Building;
    LiveUnique(sh, target.value, r.newNode.value);
    if g.full { StrictPresent(sh, t, r); }
    GrowingRegs(g, sh, r, AfterFind(r, target));
  }

  lemma GrowingRegs(g: Goal, sh: Shared, r: Local, r': Local)
    requires Quiet(sh, None) && Joined(g, sh, r) && (g.clean ==> Clean(sh, None))
    requires g.full ==> Full(sh, r.newNode) && Strict(sh, r, r.start)
    requires r'.key == r.key && r'.val == r.val && r'.existing == r.existing && r'.prev == r.prev
    requires r'.newNode == r.newNode && r'.start == r.start
    ensures Growing(g, sh, r')
  {
    hide Quiet, Clean, Full, Abs, Live;
  }

  lemma OtherFound(g: Goal, sh: Shared, t: Tid, r: Local, target: Ptr)
    requires SharedInv(sh) && RegsOk(sh, t, r) && Seeking(g, sh, r) && Adjacent(sh, r) && Right(sh, r, target)
    requires r.caller == RemoveFirst || r.caller == RemoveCleanup || r.caller == Getter
    ensures SoloInv(g, sh, AfterFind(r, target))
  {
    hide SharedInv, RegsOk, Adjacent, Quiet, Clean, Full, Abs, Settled;
    SettledAfter(g, sh, t, r);
    assert r.caller == RemoveFirst && target == None ==> Abs(sh) == Abs(sh) - {r.key};
  }

  lemma FinalSolo(g: Goal, sh: Shared, t: Tid, r: Local, c: Choice)
    requires SharedInv(sh) && RegsOk(sh, t, r) && FindInv(sh, t, r) && (r.pc.FFinal? || r.pc.FCheck?)
    requires Seeking(g, sh, r) && FindAt(g, sh, r)
    ensures ExecFind(sh, t, r, c).0 == sh && SoloInv(g, sh, ExecFind(sh, t, r, c).1)
  {
    hide SharedInv, Seeking, Abs, Live, AfterFind, Ahead, NewBelow;
    var x := r.prev[0].1;
    FoundRight(sh, t, r);
    if r.pc.FFinal? && x.Some? {
      var r' := ExecFind(sh, t, r, c).1;
      assert r' == r.(pc := FCheck(x.value));
      SeekingRegs(g, sh, r, r');
      if g.full { AheadRegs(sh, r, r', 0); }
    } else {
      var target := if x.Some? && sh.heap[x.value].key == r.key then x else None;
      assert ExecFind(sh, t, r, c).1 == AfterFind(r, target);
      if r.caller == InsertFirst { InsertFound(g, sh, t, r, target); }
      else if r.caller == InsertRetry { RetryFound(g, sh, t, r, target); }
      else {
        SeekingCallers(g, sh, r);
        OtherFound(g, sh, t, r, target);
      }
    }
  }

  lemma SeekingCallers(g: Goal, sh: Shared, r: Local)
    requires Seeking(g, sh, r)
    ensures r.caller == InsertFirst || r.caller == InsertRetry || r.caller == RemoveCleanup || r.caller == RemoveFirst
         || r.caller == Getter || r.caller == NextCall
  {
  }

  lemma AheadRegs(sh: Shared, r: Local, r': Local, low: nat)
    requires Ahead(sh, r, low) && r'.key == r.key && r'.prev == r.prev
    ensures Ahead(sh, r', low)
  {
  }

  lemma FindSolo(g: Goal, sh: Shared, t: Tid, r: Local, c: Choice, sh': Shared, r': Local)
    requires SharedInv(sh) && RegsOk(sh, t, r) && FindInv(sh, t, r) && InFind(r.pc) && (sh', r') == ExecFind(sh, t, r, c)
    requires SharedInv(sh') && RegsOk(sh', t, r) && Calm(sh, sh') && !r'.pc.Panic? && !r'.pc.Fault?
    requires Seeking(g, sh, r) && FindAt(g, sh, r)
    requires g.full && r.pc.FStart? && c.level < HEIGHT ==> StartsHigh(sh, c.level)
    ensures SoloInv(g, sh', r')
  {
    hide SharedInv, RegsOk, Seeking, Context, ExecFind, Calm, SoloInv, FindAt;
    if r.pc.FInit? || r.pc.FStart? { BeginSolo(g, sh, t, r, c); }
    else if r.pc.FLoad? || r.pc.FTag? || r.pc.FNext? { WalkSolo(g, sh, t, r, c); }
    else if r.pc.FCas? { DropSolo(g, sh, t, r, c, sh'); }
    else if r.pc.FSub? || r.pc.FRetire? {
      CalmParts(sh, sh');
      CurrKept(sh, sh', r, r.pc.lv, r.pc.curr);
      PaySolo(g, sh, t, r, c, sh');
    }
    else { FinalSolo(g, sh, t, r, c); }
  }
}
