/**
  The compare-exchanges of the lock-free list on machine words. In every run, wherever the nodes have been
  placed, exchanging the composed words succeeds and stores as exchanging the pointer-and-tag pairs does.
 */
module TaggedRuns {
  import opened Common
  import opened SyncState
  import opened SyncExec
  import opened SyncInv
  import opened SyncSteps
  import opened SyncStart
  import opened TaggedPtr

  /** A compare-exchange on a word of a tower. */
  datatype Exchange = Exchange(node: NodeId, level: nat, expected: Word, stored: Word)

  /** The compare-exchange that a thread is about to perform on a tower. */
  function ExchangeOf(r: Local): Option<Exchange> {
    match r.pc
    case FCas(lv, curr, next, nn) => Some(Exchange(curr, lv, Word(Some(next), false), Word(nn, false)))
    case UCas(lv, nn) =>
      if lv < |r.prev| then Some(Exchange(r.prev[lv].0, lv, Word(Some(r.target), false), Word(nn, false))) else None
    case TCas(lv, p) => Some(Exchange(r.target, lv, Word(p, false), Word(p, true)))
    case LOwn(cn) =>
      if r.newNode.Some? && r.start < |r.prev| then
        Some(Exchange(r.newNode.value, r.start, Word(cn, false), Word(r.prev[r.start].1, false)))
      else None
    case LCas =>
      if r.newNode.Some? && r.start < |r.prev| then
        Some(Exchange(r.prev[r.start].0, r.start, Word(r.prev[r.start].1, false), Word(r.newNode, false)))
      else None
    case _ => None
  }

  /** The pointers that a thread has read from its own or its target's tower. */
  ghost predicate OwnBounded(r: Local, n: nat) {
    match r.pc
    case TCas(_, p) => Bounded(p, n)
    case LRemoved(cn) => Bounded(cn, n)
    case LGuard(cn) => Bounded(cn, n)
    case LOwn(cn) => Bounded(cn, n)
    case _ => true
  }

  /** A pointer read from memory leads to an allocated node. */
  lemma WordBounded(sh: Shared, n: NodeId, i: nat)
    requires SharedInv(sh) && LoadWord(sh, n, i).Some?
    ensures Bounded(LoadWord(sh, n, i).value.ptr, |sh.heap|)
  {
    assert NodeOk(sh, n);
  }

  lemma BoundedStep(s: State, s': State, t: Tid, c: Choice)
    requires Inv(s) && Steps(s, s', t, c) && OwnBounded(s.th[t], |s.sh.heap|)
    ensures OwnBounded(s'.th[t], |s'.sh.heap|) && |s.sh.heap| <= |s'.sh.heap|
  {
    hide SharedInv, LocalInv, ExecFind, ExecUnlink, Bounded, Kept, MonoNode;
    var r := s.th[t];
    assert LocalInv(s.sh, t, r);
    StepKeeps(s.sh, t, r, c);
    if LoadWord(s.sh, r.target, if r.pc.TLoad? || r.pc.TCas? then r.pc.lv else 0).Some? {
      WordBounded(s.sh, r.target, if r.pc.TLoad? || r.pc.TCas? then r.pc.lv else 0);
    }
    if r.newNode.Some? && LoadWord(s.sh, r.newNode.value, r.start).Some? { WordBounded(s.sh, r.newNode.value, r.start); }
    if InFind(r.pc) || InUnlink(r.pc) { ElsewhereBounded(s.sh, t, r, c); }
  }

  lemma ElsewhereBounded(sh: Shared, t: Tid, r: Local, c: Choice)
    ensures var r' := ExecFind(sh, t, r, c).1; InFind(r.pc) ==> !r'.pc.TCas? && !r'.pc.LRemoved? && !r'.pc.LGuard? && !r'.pc.LOwn?
    ensures var r' := ExecUnlink(sh, t, r).1; InUnlink(r.pc) ==> !r'.pc.TCas? && !r'.pc.LRemoved? && !r'.pc.LGuard? && !r'.pc.LOwn?
  {
    hide ActUnlink, ActSub, ActRetire;
  }

  lemma {:induction false} RunBounded(tr: seq<State>, k: nat, t: Tid)
    requires Run(tr) && k < |tr| && t < |tr[k].th|
    ensures OwnBounded(tr[k].th[t], |tr[k].sh.heap|)
    decreases k
  {
    hide SharedInv, LocalInv, Exec, Built;
    if k > 0 {
      RunInv(tr, k - 1);
      assert Next(tr[k - 1], tr[k]);
      if tr[k] == tr[k - 1].(th := tr[k - 1].th + [IDLE]) {
        if t < |tr[k - 1].th| { RunBounded(tr, k - 1, t); }
      } else {
        var u: Tid, c :| Steps(tr[k - 1], tr[k], u, c);
        RunBounded(tr, k - 1, t);
        RunBounded(tr, k - 1, u);
        BoundedStep(tr[k - 1], tr[k], u, c);
        StillBounded(tr[k - 1].th[t], |tr[k - 1].sh.heap|, |tr[k].sh.heap|);
      }
    }
  }

  lemma StillBounded(r: Local, n: nat, n': nat)
    requires OwnBounded(r, n) && n <= n'
    ensures OwnBounded(r, n')
  {
  }

  /** The exchange concerns an allocated tower and allocated nodes. */
  lemma ExchangeBounded(sh: Shared, t: Tid, r: Local)
    requires SharedInv(sh) && LocalInv(sh, t, r) && OwnBounded(r, |sh.heap|) && ExchangeOf(r).Some?
    ensures var x := ExchangeOf(r).value;
            LoadWord(sh, x.node, x.level).Some? && Bounded(x.expected.ptr, |sh.heap|) && Bounded(x.stored.ptr, |sh.heap|)
  {
    hide SharedInv;
    var x := ExchangeOf(r).value;
    if r.pc.FCas? {
      CasFacts(sh, t, r);
      WordThere(sh, x.node, x.level);
    } else if r.pc.UCas? {
      TargetShape(sh, r.target);
      assert PrevOk(sh, r, x.level);
      WordThere(sh, x.node, x.level);
      WordBounded(sh, r.target, x.level);
    } else if r.pc.TCas? {
      TargetShape(sh, r.target);
    } else if r.pc.LOwn? {
      NewShape(sh, t, r, Fresh);
      assert PrevOk(sh, r, x.level);
    } else {
      NewShape(sh, t, r, Reserved);
      assert PrevOk(sh, r, x.level);
      WordThere(sh, x.node, x.level);
    }
  }

  /** A thread at a compare-exchange finds its words inside towers. */
  lemma ExchangeStays(sh: Shared, t: Tid, r: Local, c: Choice)
    requires ExchangeOf(r).Some? && LoadWord(sh, ExchangeOf(r).value.node, ExchangeOf(r).value.level).Some?
    requires Bounded(ExchangeOf(r).value.stored.ptr, |sh.heap|)
    ensures !Exec(sh, t, r, c).1.pc.Fault?
  {
    hide ActUnlink, ActLink, ActTag;
  }

  /** The compare-exchange x, performed on the word that sh has there, gives sh'. */
  ghost predicate Exchanged(x: Exchange, sh: Shared, sh': Shared) {
    LoadWord(sh, x.node, x.level).Some? ==>
      LoadWord(sh', x.node, x.level)
      == Some(if LoadWord(sh, x.node, x.level) == Some(x.expected) then x.stored else LoadWord(sh, x.node, x.level).value)
  }

  lemma FindExchange(sh: Shared, t: Tid, r: Local, c: Choice)
    requires r.pc.FCas?
    ensures Exchanged(ExchangeOf(r).value, sh, ExecFind(sh, t, r, c).0)
  {
    hide SearchClosest, DropFrom;
  }

  lemma RemovalExchange(sh: Shared, t: Tid, r: Local)
    requires ExchangeOf(r).Some?
    ensures r.pc.UCas? ==> Exchanged(ExchangeOf(r).value, sh, ExecUnlink(sh, t, r).0)
    ensures r.pc.TCas? ==> Exchanged(ExchangeOf(r).value, sh, ExecRemove(sh, t, r).0)
  {
    hide AfterTagged, AfterTagError, AfterUnlink, DropFrom;
  }

  lemma LinkExchange(sh: Shared, t: Tid, r: Local, c: Choice)
    requires (r.pc.LOwn? || r.pc.LCas?) && ExchangeOf(r).Some? && !ExecInsert(sh, t, r, c).1.pc.Fault?
    ensures Exchanged(ExchangeOf(r).value, sh, ExecInsert(sh, t, r, c).0)
  {
    hide Search, InsertAfter;
  }

  /** What the step does to the word. */
  lemma ExchangeStep(sh: Shared, t: Tid, r: Local, c: Choice)
    requires ExchangeOf(r).Some? && !Exec(sh, t, r, c).1.pc.Fault?
    ensures Exchanged(ExchangeOf(r).value, sh, Exec(sh, t, r, c).0)
  {
    hide Exchanged, ExecFind, ExecRemove, ExecUnlink, ExecInsert, ExecCall;
    if r.pc.FCas? { FindExchange(sh, t, r, c); }
    else if r.pc.UCas? || r.pc.TCas? { RemovalExchange(sh, t, r); }
    else { LinkExchange(sh, t, r, c); }
  }

  /**
    In every run, for every placement of the nodes allocated so far, a compare-exchange of the composed words
    finds the expected word exactly when the pair is the expected one, and leaves the composed word of the
    pair that the protocol leaves.
   */
  lemma ExchangeExact(tr: seq<State>, k: nat, t: Tid, c: Choice, addr: seq<Usize>, a: nat)
    requires Run(tr) && k < |tr| && t < |tr[k].th| && ExchangeOf(tr[k].th[t]).Some?
    requires Placed(addr, a) && |addr| == |tr[k].sh.heap|
    ensures var x := ExchangeOf(tr[k].th[t]).value; var sh := tr[k].sh; var sh' := Exec(sh, t, tr[k].th[t], c).0;
            && LoadWord(sh, x.node, x.level).Some? && Bounded(LoadWord(sh, x.node, x.level).value.ptr, |addr|)
            && LoadWord(sh', x.node, x.level).Some? && Bounded(LoadWord(sh', x.node, x.level).value.ptr, |addr|)
            && Bounded(x.expected.ptr, |addr|) && Bounded(x.stored.ptr, |addr|)
            && Encode(addr, a, LoadWord(sh', x.node, x.level).value)
               == if Encode(addr, a, LoadWord(sh, x.node, x.level).value) == Encode(addr, a, x.expected)
                  then Encode(addr, a, x.stored) else Encode(addr, a, LoadWord(sh, x.node, x.level).value)
  {
    hide Run, SharedInv, LocalInv, Exec, Encode, Placed, Bounded, ExchangeOf;
    RunInv(tr, k);
    RunBounded(tr, k, t);
    var sh, r := tr[k].sh, tr[k].th[t];
    assert LocalInv(sh, t, r);
    var x := ExchangeOf(r).value;
    ExchangeBounded(sh, t, r);
    WordBounded(sh, x.node, x.level);
    StepKeeps(sh, t, r, c);
    ExchangeStays(sh, t, r, c);
    ExchangeStep(sh, t, r, c);
    EncodeInjective(addr, a, LoadWord(sh, x.node, x.level).value, x.expected);
  }
}
