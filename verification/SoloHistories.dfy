/**
  Histories of the lock-free list in which calls run one at a time: every call returns, the answers are those
  of a finite ordered map, and live nodes are linked at all their levels. `max_height` is followed from state
  to state; while nobody else stores to it, it bounds all towers, and searches start high enough.
 */
module SoloHistories {
  import opened Common
  import opened SyncState
  import opened SyncExec
  import opened SyncInv
  import opened SyncStart
  import opened SyncTheorems
  import opened SyncRefine
  import opened SyncCalls
  import opened Solo
  import opened SoloSteps
  import opened SoloOps
  import opened SoloRuns
  import opened Pairs
  import M = SeqRuns
  import P = ProgressSteps
  import Progress

  // ------------------------------------------------------------------ max_height

  /** The word of the head at level i is null. */
  predicate HeadNull(sh: Shared, i: nat) {
    match LoadWord(sh, HEAD, i) case Some(w) => w.ptr == None case None => false
  }

  /** The loop at the top of `find`: from `max_height` down past the null words of the head. */
  function StartFrom(sh: Shared, top: nat): (level: nat)
    requires top >= 1
    ensures 1 <= level <= top && forall i :: level <= i < top ==> HeadNull(sh, i)
  {
    if top > 1 && HeadNull(sh, top - 1) then StartFrom(sh, top - 1) else top
  }

  /** The loop of `gen_height`. */
  function Drawn(sh: Shared, height: nat): (h: nat)
    requires height >= 1
    ensures 1 <= h <= height && (h < height ==> h >= 3) && (h >= 4 ==> !HeadNull(sh, h - 2))
    ensures forall i :: h - 1 <= i < height - 1 ==> HeadNull(sh, i)
  {
    if height >= 4 && HeadNull(sh, height - 2) then Drawn(sh, height - 1) else height
  }

  /** What `gen_height` returns for a seed that shows `draw` trailing zeros. */
  function DrawnFrom(sh: Shared, draw: nat): nat {
    Drawn(sh, Min(draw + 1, HEIGHT))
  }

  /** Exactly the lowest o levels are in use. */
  ghost predicate InUse(sh: Shared, o: nat) {
    forall i :: 0 <= i < HEIGHT ==> (HeadNull(sh, i) <==> o <= i)
  }

  /** h is the draw, cut to 32, and to the larger of 3 and one more than the levels in use. */
  ghost predicate IsCut(sh: Shared, draw: nat, h: nat) {
    forall o: nat :: InUse(sh, o) ==> h == CutHeight(draw, o)
  }

  lemma DrawnCut(sh: Shared, draw: nat, o: nat)
    requires InUse(sh, o)
    ensures DrawnFrom(sh, draw) == CutHeight(draw, o)
  {
    var h := DrawnFrom(sh, draw);
    assert h < Min(draw + 1, HEIGHT) ==> HeadNull(sh, h - 1);
  }

  /** `max_height` bounds the height of every node. */
  ghost predicate TopOk(sh: Shared, top: nat) {
    1 <= top <= HEIGHT && forall n :: 1 <= n < |sh.heap| ==> sh.heap[n].height <= top
  }

  /**
    An undisturbed step with `max_height`: a search starts where the loop at the top of `find` ends, and a node
    gets a height that `gen_height` returns for some draw, and `max_height` is raised to it.
   */
  ghost predicate TopStep(s: State, s': State, t: Tid, c: Choice, top: nat, top': nat) {
    && Steps(s, s', t, c) && top >= 1
    && (s.th[t].pc.FStart? ==> c.level + 1 == StartFrom(s.sh, top))
    && (s.th[t].pc.Create? ==> exists draw: nat :: c.height == DrawnFrom(s.sh, draw))
    && top' == if s.th[t].pc.Create? then Max(top, c.height) else top
  }

  /** No pointer of the head leads to a level that no tower reaches. */
  lemma HeadAbove(sh: Shared, top: nat, i: nat)
    requires SharedInv(sh) && TopOk(sh, top) && top <= i < HEIGHT
    ensures PtrIs(sh, HEAD, i, None)
  {
    assert NodeOk(sh, HEAD);
    if sh.heap[HEAD].levels[i].ptr.Some? { BelowTop(sh, top, sh.heap[HEAD].levels[i].ptr.value, i); }
  }

  lemma BelowTop(sh: Shared, top: nat, n: NodeId, i: nat)
    requires SharedInv(sh) && TopOk(sh, top) && Visited(sh, n, i)
    ensures i < top
  {
    assert NodeOk(sh, n);
  }

  /** A search that starts from a bound of all heights starts at or above every level in use. */
  lemma {:induction false} HighStart(sh: Shared, top: nat)
    requires SharedInv(sh) && TopOk(sh, top)
    ensures StartsHigh(sh, StartFrom(sh, top) - 1)
  {
    hide SharedInv;
    forall i | StartFrom(sh, top) - 1 < i < HEIGHT ensures PtrIs(sh, HEAD, i, None) {
      if i < top { assert HeadNull(sh, i); } else { HeadAbove(sh, top, i); }
    }
  }

  lemma HeightDrawn(sh: Shared, height: nat)
    requires exists draw: nat :: height == DrawnFrom(sh, draw)
    ensures 1 <= height <= HEIGHT && (height >= 4 ==> !HeadNull(sh, height - 2))
    ensures exists draw: nat :: IsCut(sh, draw, height)
  {
    var draw: nat :| height == DrawnFrom(sh, draw);
    forall o: nat | InUse(sh, o) ensures height == CutHeight(draw, o) { DrawnCut(sh, draw, o); }
    assert IsCut(sh, draw, height);
  }

  lemma TopKept(s: State, s': State, t: Tid, c: Choice, top: nat, top': nat)
    requires Inv(s) && TopOk(s.sh, top) && TopStep(s, s', t, c, top, top')
    ensures TopOk(s'.sh, top') && top' == (if s.th[t].pc.Create? then Max(top, c.height) else top)
    ensures s.th[t].pc.FStart? ==> c.level < HEIGHT && StartsHigh(s.sh, c.level)
    ensures s.th[t].pc.Create? ==> 1 <= c.height <= HEIGHT && (c.height >= 4 ==> !HeadNull(s.sh, c.height - 2))
    ensures s.th[t].pc.Create? ==> exists draw: nat :: IsCut(s.sh, draw, c.height)
  {
    hide SharedInv, LocalInv, Mono, Exec, DrawnFrom, IsCut, StartsHigh;
    if s.th[t].pc.Create? { HeightDrawn(s.sh, c.height); }
    if s.th[t].pc.FStart? { HighStart(s.sh, top); }
    StepNext(s, s', t, c);
    HeapGrows(s.sh, t, s.th[t], c);
    forall n | 1 <= n < |s'.sh.heap| ensures s'.sh.heap[n].height <= top' {
      if n < |s.sh.heap| { NodeKept(s.sh, s'.sh, n); }
    }
  }

  /** Only creation allocates, one node of the height given. */
  lemma HeapGrows(sh: Shared, t: Tid, r: Local, c: Choice)
    ensures var sh' := Exec(sh, t, r, c).0;
            || |sh'.heap| == |sh.heap|
            || (r.pc.Create? && |sh'.heap| == |sh.heap| + 1 && sh'.heap[|sh.heap|].height == c.height)
  {
    hide Decide, Examine, AfterFind, AfterLost, AfterTagged, AfterUnlink, ExecCall, Invoke;
    assert ExecCall(sh, r, c).0.heap == sh.heap by { CallHeap(sh, r, c); }
  }

  lemma CallHeap(sh: Shared, r: Local, c: Choice)
    ensures ExecCall(sh, r, c).0.heap == sh.heap
  {
  }

  // ------------------------------------------------------------------ calls

  /** An undisturbed call, with the value of `max_height` in each of its states. */
  datatype Call = Call(tr: seq<State>, t: Tid, op: Op, tops: seq<nat>)

  ghost predicate Measured(c: Call) {
    && |c.tops| == |c.tr| >= 2 && c.tops[0] >= 1 && c.tops[1] == c.tops[0]
    && forall k :: 1 <= k < |c.tr| - 1 ==> TopMoves(c.tr[k], c.tr[k + 1], c.t, c.tops[k], c.tops[k + 1])
  }

  ghost predicate TopMoves(s: State, s': State, t: Tid, top: nat, top': nat) {
    exists c :: TopStep(s, s', t, c, top, top')
  }

  ghost predicate Undisturbed(c: Call) {
    SoloCall(c.tr, c.t, c.op, false) && Measured(c)
  }

  ghost function StartOf(c: Call): Shared
    requires Undisturbed(c)
  {
    c.tr[0].sh
  }

  ghost function EndOf(c: Call): Shared
    requires Undisturbed(c)
  {
    c.tr[|c.tr| - 1].sh
  }

  ghost function AnswerOf(c: Call): Ptr
    requires Undisturbed(c)
  {
    c.tr[|c.tr| - 1].th[c.t].pc.answer
  }

  /** `max_height` before and after the call. */
  ghost function TopBefore(c: Call): nat
    requires Undisturbed(c)
  {
    c.tops[0]
  }

  ghost function TopAfter(c: Call): nat
    requires Undisturbed(c)
  {
    c.tops[|c.tops| - 1]
  }

  /** A bound stays a bound throughout the call. */
  lemma {:induction false} TopDuring(c: Call, k: nat)
    requires Undisturbed(c) && TopOk(StartOf(c), TopBefore(c)) && 1 <= k < |c.tr|
    ensures Inv(c.tr[k]) && c.t < |c.tr[k].th| && TopOk(c.tr[k].sh, c.tops[k])
    ensures forall j :: 1 <= j < k ==> Alone(c.tr[j], c.tr[j + 1], c.t, true)
    decreases k
  {
    hide SharedInv, LocalInv, Exec, TopOk, Legal;
    if k == 1 {
      var ch :| Steps(c.tr[0], c.tr[1], c.t, ch) && ch.op == c.op;
      StepNext(c.tr[0], c.tr[1], c.t, ch);
      assert Exec(c.tr[0].sh, c.t, c.tr[0].th[c.t], ch).0 == c.tr[0].sh by { InvokeSame(c.tr[0].sh, c.t, c.tr[0].th[c.t], ch); }
    } else {
      TopDuring(c, k - 1);
      assert TopMoves(c.tr[k - 1], c.tr[k], c.t, c.tops[k - 1], c.tops[k]);
      var ch :| TopStep(c.tr[k - 1], c.tr[k], c.t, ch, c.tops[k - 1], c.tops[k]);
      TopKept(c.tr[k - 1], c.tr[k], c.t, ch, c.tops[k - 1], c.tops[k]);
      StepNext(c.tr[k - 1], c.tr[k], c.t, ch);
      assert AloneBy(c.tr[k - 1], c.tr[k], c.t, ch, true);
    }
  }

  lemma InvokeSame(sh: Shared, t: Tid, r: Local, c: Choice)
    requires r.pc.Done?
    ensures Exec(sh, t, r, c).0 == sh
  {
  }

  /** As long as `max_height` is a bound, every search of the call starts high enough, and it stays a bound. */
  lemma StartsAreHigh(c: Call)
    requires Undisturbed(c) && TopOk(StartOf(c), TopBefore(c))
    ensures SoloCall(c.tr, c.t, c.op, true) && TopOk(EndOf(c), TopAfter(c))
  {
    hide Inv, Exec, TopOk, Legal, Alone, Begins;
    TopDuring(c, |c.tr| - 1);
  }

  // ------------------------------------------------------------------ calls return

  /** The choice that an undisturbed thread makes when it draws a height of 1. */
  ghost function Natural(sh: Shared, op: Op, top: nat): Choice
    requires top >= 1
  {
    Choice(op, StartFrom(sh, top) - 1, 1)
  }

  /** A thread that is not doomed and runs alone brings its call to an end. */
  lemma {:induction false} RunsOut(s: State, t: Tid, top: nat) returns (tr: seq<State>, tops: seq<nat>)
    requires Inv(s) && t < |s.th| && !s.th[t].pc.Done? && !P.Doomed(s.sh, s.th[t]) && 1 <= top <= HEIGHT
    ensures |tr| == |tops| >= 1 && tr[0] == s && tops[0] == top
    ensures t < |tr[|tr| - 1].th| && tr[|tr| - 1].th[t].pc.Ret?
    ensures forall k :: 0 <= k < |tr| - 1 ==> Alone(tr[k], tr[k + 1], t, false) && t < |tr[k].th| && !P.Stopped(tr[k], t)
    ensures forall k :: 0 <= k < |tr| - 1 ==> TopMoves(tr[k], tr[k + 1], t, tops[k], tops[k + 1])
    decreases Progress.Left(s.sh, s.th[t]).unlinked, Progress.Left(s.sh, s.th[t]).live, Progress.Left(s.sh, s.th[t]).stage,
              Progress.Left(s.sh, s.th[t]).stale, Progress.Left(s.sh, s.th[t]).level,
              Progress.Left(s.sh, s.th[t]).behind, Progress.Left(s.sh, s.th[t]).rank
  {
    hide Inv, Progress.Left, Exec, P.Doomed, TopMoves, Alone;
    if P.Stopped(s, t) {
      SafeReturns(s.sh, s.th[t]);
      tr, tops := [s], [top];
    } else {
      var c := Natural(s.sh, FirstOp, top);
      var s' := State(Exec(s.sh, t, s.th[t], c).0, s.th[t := Exec(s.sh, t, s.th[t], c).1]);
      assert Steps(s, s', t, c);
      NaturalStep(s, s', t, FirstOp, top);
      P.StepLess(s, s', t, c);
      P.DoomedStep(s, s', t, c);
      var rest, more := RunsOut(s', t, top);
      tr, tops := [s] + rest, [top] + more;
    }
  }

  lemma SafeReturns(sh: Shared, r: Local)
    requires !P.Doomed(sh, r) && (r.pc.Done? || r.pc.Ret? || r.pc.Fault?)
    ensures !r.pc.Done? ==> r.pc.Ret?
  {
  }

  lemma NaturalStep(s: State, s': State, t: Tid, op: Op, top: nat)
    requires 1 <= top <= HEIGHT && Steps(s, s', t, Natural(s.sh, op, top))
    ensures TopMoves(s, s', t, top, top) && Alone(s, s', t, false)
  {
    hide Exec;
    var c := Natural(s.sh, op, top);
    assert c.height == DrawnFrom(s.sh, 0);
    assert TopStep(s, s', t, c, top, top);
    assert AloneBy(s, s', t, c, false);
  }

  /** Calling `next_node` on a stale entry. */
  ghost predicate Stale(sh: Shared, op: Op) {
    op.NextOp? && Tagged(sh, op.node, 0)
  }

  /** Every legal call can run undisturbed until it returns, unless it asks a stale entry for its successor. */
  lemma SoloReturns(s: State, t: Tid, op: Op, top: nat) returns (c: Call)
    requires Inv(s) && t < |s.th| && s.th[t].pc.Done? && Legal(s.sh, op) && 1 <= top <= HEIGHT && !Stale(s.sh, op)
    ensures Undisturbed(c) && c.tr[0] == s && c.t == t && c.op == op && c.tops[0] == top
  {
    hide Inv, Exec, TopMoves, Alone, Legal, Stale;
    var ch := Natural(s.sh, op, top);
    var s' := State(Exec(s.sh, t, s.th[t], ch).0, s.th[t := Exec(s.sh, t, s.th[t], ch).1]);
    assert Steps(s, s', t, ch);
    StepNext(s, s', t, ch);
    assert Begins(s, s', t, op);
    InvokeStarts(s.sh, t, s.th[t], ch);
    var rest, more := RunsOut(s', t, top);
    c := Call([s] + rest, t, op, [top] + more);
  }

  lemma InvokeStarts(sh: Shared, t: Tid, r: Local, c: Choice)
    requires r.pc.Done? && Legal(sh, c.op) && !Stale(sh, c.op)
    ensures Exec(sh, t, r, c).0 == sh && !Exec(sh, t, r, c).1.pc.Done? && !P.Doomed(sh, Exec(sh, t, r, c).1)
  {
  }

  /** That one never returns: a completed call was not made on a stale entry. */
  lemma StaleNeverReturns(c: Call)
    requires Undisturbed(c)
    ensures !Stale(StartOf(c), c.op)
  {
    hide Inv, Exec, Measured, Begins;
    if Stale(StartOf(c), c.op) { StaleAstray(c, |c.tr| - 1); }
  }

  lemma {:induction false} StaleAstray(c: Call, k: nat)
    requires Undisturbed(c) && Stale(StartOf(c), c.op) && 1 <= k < |c.tr|
    ensures Inv(c.tr[k]) && c.t < |c.tr[k].th|
    ensures if k == 1 then c.tr[1].sh == StartOf(c) && c.tr[1].th[c.t].pc == NextStale(c.op.node) else Astray(c.tr[k].th[c.t])
    decreases k
  {
    hide Inv, Exec, Measured, Astray;
    if k == 1 {
      Begun(c.tr[0], c.tr[1], c.t, c.op);
      var ch :| Steps(c.tr[0], c.tr[1], c.t, ch) && ch.op == c.op;
      StepNext(c.tr[0], c.tr[1], c.t, ch);
    } else {
      StaleAstray(c, k - 1);
      assert Alone(c.tr[k - 1], c.tr[k], c.t, false);
      var ch :| AloneBy(c.tr[k - 1], c.tr[k], c.t, ch, false);
      StepNext(c.tr[k - 1], c.tr[k], c.t, ch);
      if k == 2 { StaleStep(c.tr[1].sh, c.t, c.tr[1].th[c.t], ch); } else { AstrayStays(c.tr[k - 1], c.tr[k], c.t, ch); }
    }
  }

  lemma StaleStep(sh: Shared, t: Tid, r: Local, c: Choice)
    requires r.pc.NextStale? && Tagged(sh, r.pc.node, 0)
    ensures Astray(Exec(sh, t, r, c).1)
  {
  }

  // ------------------------------------------------------------------ histories

  /** Between two calls answers are handed over and threads come and go, but the towers stay as they are. */
  ghost predicate SameTowers(sh: Shared, sh': Shared) {
    sh'.heap == sh.heap && sh'.shadow == sh.shadow && sh'.chain == sh.chain
  }

  /** d starts where c has ended. */
  ghost predicate Joins(c: Call, d: Call)
    requires Undisturbed(c) && Undisturbed(d)
  {
    SameTowers(EndOf(c), StartOf(d)) && TopBefore(d) == TopAfter(c)
  }

  /** Calls one after the other, by any threads. */
  ghost predicate History(cs: seq<Call>) {
    && (forall i :: 0 <= i < |cs| ==> Undisturbed(cs[i]))
    && (forall i :: 0 <= i < |cs| - 1 ==> Joins(cs[i], cs[i + 1]))
  }

  ghost function AllOps(cs: seq<Call>): seq<M.Op>
    requires History(cs)
  {
    if cs == [] then [] else MapOps(StartOf(cs[0]), cs[0].op) + AllOps(cs[1..])
  }

  ghost function AllReplies(cs: seq<Call>): seq<M.Reply>
    requires History(cs)
  {
    if cs == [] then []
    else MapReplies(StartOf(cs[0]), cs[0].op, EndOf(cs[0]), AnswerOf(cs[0])) + AllReplies(cs[1..])
  }

  lemma {:induction false} SpecJoin(m: map<int, int>, a: seq<M.Op>, b: seq<M.Op>)
    ensures M.SpecReplies(m, a + b) == M.SpecReplies(m, a) + M.SpecReplies(M.SpecFinal(m, a), b)
    ensures M.SpecFinal(m, a + b) == M.SpecFinal(M.SpecFinal(m, a), b)
    decreases |a|
  {
    if a == [] {
      assert a + b == b;
    } else {
      assert (a + b)[1..] == a[1..] + b;
      SpecJoin(M.SpecNext(m, a[0]), a[1..], b);
    }
  }

  lemma TowersSame(sh: Shared, sh': Shared)
    requires SameTowers(sh, sh') && SharedInv(sh) && SharedInv(sh')
    ensures Live(sh') == Live(sh) && Abs(sh') == Abs(sh)
    ensures Quiet(sh, None) ==> Quiet(sh', None)
    ensures Clean(sh, None) ==> Clean(sh', None)
    ensures Full(sh, None) ==> Full(sh', None)
    ensures forall top :: TopOk(sh, top) ==> TopOk(sh', top)
  {
    hide SharedInv;
    assert Live(sh') == Live(sh);
    forall k | k in Abs(sh) ensures k in Abs(sh') && Abs(sh')[k] == Abs(sh)[k] {
      var n := AbsHas(sh, k);
      AbsAt(sh', n);
    }
    forall k | k in Abs(sh') ensures k in Abs(sh) {
      var n := AbsHas(sh', k);
      AbsAt(sh, n);
    }
    if Quiet(sh, None) { QuietSame(sh, sh'); }
    if Full(sh, None) { FullSame(sh, sh'); }
  }

  lemma FullSame(sh: Shared, sh': Shared)
    requires SameTowers(sh, sh') && Live(sh') == Live(sh) && Full(sh, None)
    ensures Full(sh', None)
  {
    hide Live;
    forall n, i | n in Live(sh') && n < |sh'.heap| && 0 <= i < |sh'.heap[n].levels| ensures EverLinked(sh', n, i) {
      assert EverLinked(sh, n, i);
    }
  }

  lemma QuietSame(sh: Shared, sh': Shared)
    requires sh'.heap == sh.heap && Quiet(sh, None)
    ensures Quiet(sh', None)
  {
    forall n, i | 0 <= n < |sh.heap| && sh.heap[n].removed && 0 <= i < |sh.heap[n].levels| ensures Tagged(sh', n, i) {
      assert Tagged(sh, n, i);
    }
  }

  /** The invariant holds at both ends of a call, and what it relies on has been kept. */
  lemma EndsOf(c: Call)
    requires Undisturbed(c) && Quiet(StartOf(c), None)
    ensures SharedInv(StartOf(c)) && SharedInv(EndOf(c)) && Mono(StartOf(c), EndOf(c))
  {
    hide SoloCall, SharedInv, LocalInv, Quiet, Clean, Full, Mono, SoloInv, Doing, Measured;
    LastState(c.tr, c.t, c.op, false);
    DuringCall(c.tr, c.t, c.op, false, false, |c.tr| - 1);
  }

  /** One call of a history: what it answers, and what it leaves behind. */
  ghost predicate CallGood(c: Call)
    requires Undisturbed(c)
  {
    var sh, sh' := StartOf(c), EndOf(c);
    && MapReplies(sh, c.op, sh', AnswerOf(c)) == M.SpecReplies(Abs(sh), MapOps(sh, c.op))
    && Abs(sh') == M.SpecFinal(Abs(sh), MapOps(sh, c.op))
    && AnswerFits(sh, c.op, sh', AnswerOf(c))
    && Quiet(sh', None)
    && (Clean(sh, None) && !c.op.EntryRemoveOp? ==> Clean(sh', None))
    && (Full(sh, None) && TopOk(sh, TopBefore(c)) ==> Full(sh', None) && TopOk(sh', TopAfter(c)))
  }

  lemma CallIsGood(c: Call)
    requires Undisturbed(c) && Quiet(StartOf(c), None)
    ensures CallGood(c)
  {
    hide SoloCall, Quiet, Clean, Full, Abs, MapOps, MapReplies, AnswerFits, TopOk;
    SoloAnswers(c.tr, c.t, c.op, false);
    if Full(StartOf(c), None) && TopOk(StartOf(c), TopBefore(c)) {
      StartsAreHigh(c);
      SoloAnswers(c.tr, c.t, c.op, true);
    }
  }

  /** A state with everything in place: no half removals, live nodes fully linked, `max_height` a bound. */
  ghost predicate InPlace(sh: Shared, top: nat) {
    Full(sh, None) && TopOk(sh, top)
  }

  /** Every call of a history is good, and what was in place at the beginning still is. */
  lemma {:induction false} DuringHistory(cs: seq<Call>, i: nat)
    requires History(cs) && i < |cs| && Quiet(StartOf(cs[0]), None)
    ensures CallGood(cs[i]) && Quiet(EndOf(cs[i]), None) && SharedInv(EndOf(cs[i]))
    ensures InPlace(StartOf(cs[0]), TopBefore(cs[0])) ==> InPlace(EndOf(cs[i]), TopAfter(cs[i]))
    ensures Clean(StartOf(cs[0]), None) && (forall j :: 0 <= j < |cs| ==> !cs[j].op.EntryRemoveOp?) ==> Clean(EndOf(cs[i]), None)
    decreases i
  {
    hide Undisturbed, SameTowers, SharedInv, Quiet, Clean, Full, Abs, MapOps, MapReplies, AnswerFits, TopOk, Mono;
    if i > 0 {
      DuringHistory(cs, i - 1);
      assert Joins(cs[i - 1], cs[i]);
      StartInv(cs[i]);
      TowersSame(EndOf(cs[i - 1]), StartOf(cs[i]));
    }
    CallIsGood(cs[i]);
    EndsOf(cs[i]);
  }

  /** The replies of a history add up to those of the map. */
  lemma {:induction false} HistoryReplies(cs: seq<Call>)
    requires History(cs) && cs != [] && Quiet(StartOf(cs[0]), None)
    ensures AllReplies(cs) == M.SpecReplies(Abs(StartOf(cs[0])), AllOps(cs))
    ensures Abs(EndOf(cs[|cs| - 1])) == M.SpecFinal(Abs(StartOf(cs[0])), AllOps(cs))
    decreases |cs|
  {
    hide Undisturbed, SameTowers, SharedInv, Quiet, Clean, Full, Abs, MapOps, MapReplies, AnswerFits, TopOk, Mono;
    var c := cs[0];
    CallIsGood(c);
    if |cs| == 1 {
      assert cs[1..] == [];
      assert MapOps(StartOf(c), c.op) + [] == MapOps(StartOf(c), c.op);
      assert AllOps(cs) == MapOps(StartOf(c), c.op);
      assert AllReplies(cs) == MapReplies(StartOf(c), c.op, EndOf(c), AnswerOf(c)) + [];
    } else {
      var d := cs[1..];
      assert d[0] == cs[1] && d[|cs| - 2] == cs[|cs| - 1];
      HistoryTail(cs);
      assert Joins(c, cs[1]);
      StartInv(cs[1]);
      EndsOf(c);
      TowersSame(EndOf(c), StartOf(cs[1]));
      HistoryReplies(d);
      SpecJoin(Abs(StartOf(c)), MapOps(StartOf(c), c.op), AllOps(d));
    }
  }

  /**
    Any history of calls that run one at a time, among them removals through entries, gives the replies of
    the finite ordered map, and the list stands for that map at the end. `get_first` and `next_node` answer
    with the least key, or the next one, of the map at that point. If all live nodes were linked at all their
    levels and `max_height` was a bound, it is still so.
   */
  lemma {:induction false} SoloHistory(cs: seq<Call>)
    requires History(cs) && cs != [] && Quiet(StartOf(cs[0]), None)
    ensures AllReplies(cs) == M.SpecReplies(Abs(StartOf(cs[0])), AllOps(cs))
    ensures Abs(EndOf(cs[|cs| - 1])) == M.SpecFinal(Abs(StartOf(cs[0])), AllOps(cs))
    ensures forall i :: 0 <= i < |cs| ==> AnswerFits(StartOf(cs[i]), cs[i].op, EndOf(cs[i]), AnswerOf(cs[i]))
    ensures Quiet(EndOf(cs[|cs| - 1]), None) && SharedInv(EndOf(cs[|cs| - 1]))
    ensures InPlace(StartOf(cs[0]), TopBefore(cs[0])) ==> InPlace(EndOf(cs[|cs| - 1]), TopAfter(cs[|cs| - 1]))
    ensures Clean(StartOf(cs[0]), None) && (forall i :: 0 <= i < |cs| ==> !cs[i].op.EntryRemoveOp?)
            ==> Clean(EndOf(cs[|cs| - 1]), None)
  {
    hide Undisturbed, Joins, SharedInv, Quiet, Clean, InPlace, Abs, MapOps, MapReplies, AnswerFits, AllOps, AllReplies;
    HistoryReplies(cs);
    forall i | 0 <= i < |cs| ensures AnswerFits(StartOf(cs[i]), cs[i].op, EndOf(cs[i]), AnswerOf(cs[i])) {
      DuringHistory(cs, i);
    }
    DuringHistory(cs, |cs| - 1);
  }

  lemma StartInv(c: Call)
    requires Undisturbed(c)
    ensures SharedInv(StartOf(c))
  {
    hide SharedInv, LocalInv;
  }

  lemma HistoryTail(cs: seq<Call>)
    requires History(cs) && |cs| > 1
    ensures History(cs[1..])
  {
    hide Undisturbed, Joins;
    var d := cs[1..];
    forall i | 0 <= i < |d| ensures Undisturbed(d[i]) { assert d[i] == cs[i + 1]; }
    forall i | 0 <= i < |d| - 1 ensures Joins(d[i], d[i + 1]) { assert d[i] == cs[i + 1] && d[i + 1] == cs[i + 2]; }
  }

  /** A history may begin with any row of towers, so with a new or a converted list. */
  lemma BuiltInPlace(ts: seq<Tower>, top: nat)
    requires Row(ts) && 1 <= top <= HEIGHT && forall p :: 0 <= p < |ts| ==> ts[p].height <= top
    ensures Quiet(Built(ts), None) && Clean(Built(ts), None) && InPlace(Built(ts), top)
  {
    hide Live;
    var sh := Built(ts);
    forall n, i | n in Live(sh) && n < |sh.heap| && 0 <= i < |sh.heap[n].levels| ensures EverLinked(sh, n, i) {}
  }

  /** `pop` of the lock-free queue, alone: `get_first` and then `Entry::remove` take the least item. */
  lemma SoloPop(first: Call, removal: Call)
    requires Undisturbed(first) && first.op == FirstOp && Quiet(StartOf(first), None)
    requires AnswerOf(first).Some? ==>
               Undisturbed(removal) && SameTowers(EndOf(first), StartOf(removal))
               && removal.op == EntryRemoveOp(AnswerOf(first).value)
    ensures AnswerOf(first) == None ==> forall k :: k !in Abs(StartOf(first))
    ensures var m, n := Abs(StartOf(first)), AnswerOf(first);
            n.Some? ==>
              && AnswerOf(removal) == n
              && n.value < |EndOf(removal).heap| && IsLeast(m, EndOf(removal).heap[n.value].key)
              && Abs(EndOf(removal)) == m - {EndOf(removal).heap[n.value].key}
  {
    hide SoloCall, SameTowers, Quiet, Clean, Full, Abs, Live, SharedInv, Mono, Measured;
    SoloAnswers(first.tr, first.t, first.op, false);
    var n := AnswerOf(first);
    if n.Some? {
      EndsOf(first);
      StartInv(removal);
      TowersSame(EndOf(first), StartOf(removal));
      SoloAnswers(removal.tr, removal.t, removal.op, false);
      FirstSolid(EndOf(first), StartOf(removal), n.value);
      EndsOf(removal);
      NodeKept(StartOf(removal), EndOf(removal), n.value);
      assert [M.Remove(StartOf(removal).heap[n.value].key)][1..] == [];
    }
  }

  lemma FirstSolid(sh: Shared, sh': Shared, n: NodeId)
    requires n in Live(sh) && SameTowers(sh, sh')
    ensures Solid(sh', n) && sh'.heap[n] == sh.heap[n]
  {
  }
}
