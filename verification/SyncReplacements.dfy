/** What `insert` answers in any run: the node that the call itself took out of the map last, if it took any. */
module SyncReplacements {
  import opened Common
  import opened SyncState
  import opened SyncExec
  import opened SyncInv
  import opened SyncStart
  import opened SyncRefine
  import opened SyncCalls
  import opened SyncOutcomes

  /** With this step t takes its target out of the map. */
  ghost predicate TakesNow(s: State, s': State, t: Tid, key: int) {
    t < |s.th| && TakesAt(s, s', t, s.th[t].target, key)
  }

  /** Between setting the removed bit of its target and the end of `unlink`. */
  predicate Held(r: Local) {
    InRemoval(r.pc) && !Trying(r)
  }

  /** The node taken out last is the target, or is remembered as the one replaced; the answer is the latter. */
  predicate Remembers(r: Local, last: Ptr) {
    if Held(r) then last == Some(r.target) else r.existing == last && (r.pc.Ret? ==> r.pc.answer == last)
  }

  /** How an `insert` remembers what it has taken out. */
  ghost predicate MemoryFlow(sh: Shared, r: Local, r': Local) {
    if r.pc.SCas? && !Hindered(sh, r) then Held(r') && r'.target == r.target
    else if Held(r) && Held(r') then r'.target == r.target
    else !Held(r') && r'.existing == (if Held(r) then Some(r.target) else r.existing) && (r'.pc.Ret? ==> r'.pc.answer == r'.existing)
  }

  lemma FindMemory(sh: Shared, t: Tid, r: Local, c: Choice)
    requires InFind(r.pc) && (Inserting(r) || r.caller == LinkCleanup)
    ensures MemoryFlow(sh, r, ExecFind(sh, t, r, c).1)
  {
    hide ActUnlink, ActSub, ActRetire, SearchClosest, Decide;
    forall sh: Shared, lv: nat, curr: NodeId, next: Ptr ensures Unanswered(r, Decide(sh, r, lv, curr, next)) {
      DecideUnanswered(sh, r, lv, curr, next);
    }
  }

  predicate Unanswered(r: Local, r': Local) {
    !InRemoval(r'.pc) && r'.existing == r.existing && !r'.pc.Ret?
  }

  lemma DecideUnanswered(sh: Shared, r: Local, lv: nat, curr: NodeId, next: Ptr)
    requires r.caller != NextCall
    ensures Unanswered(r, Decide(sh, r, lv, curr, next))
  {
  }

  lemma RemovalMemory(sh: Shared, t: Tid, r: Local)
    requires InRemoval(r.pc) && Inserting(r)
    ensures InUnlink(r.pc) && !ExecUnlink(sh, t, r).1.pc.Fault? && !ExecUnlink(sh, t, r).1.pc.Panic? ==> MemoryFlow(sh, r, ExecUnlink(sh, t, r).1)
    ensures var r' := ExecRemove(sh, t, r).1;
            !InUnlink(r.pc) && !r'.pc.Fault? && !r'.pc.Panic? && (r.pc.TCas? ==> Held(r')) ==> MemoryFlow(sh, r, r')
  {
    hide ActUnlink, ActSub, ActRetire, ActTag, ActRemove;
  }

  lemma InsertMemory(sh: Shared, t: Tid, r: Local, c: Choice)
    requires InInsert(r.pc)
    ensures MemoryFlow(sh, r, ExecInsert(sh, t, r, c).1)
  {
    hide ActCreate, ActCount, ActReserve, ActUnreserve, ActLink, Hindered;
  }

  /** `tag_levels` of a thread that has won the node meets no foreign tag. */
  lemma TagsThrough(sh: Shared, t: Tid, r: Local)
    requires RemovalInv(sh, t, r) && r.pc.TCas? && !ExecRemove(sh, t, r).1.pc.Panic? && !ExecRemove(sh, t, r).1.pc.Fault? && Inserting(r)
    ensures Held(ExecRemove(sh, t, r).1)
  {
    hide Removing, Won, ActTag;
    assert !Tagged(sh, r.target, r.pc.lv);
  }

  lemma MemoryFlows(s: State, s': State, t: Tid, c: Choice, key: int, val: int)
    requires Inv(s) && Inv(s') && Steps(s, s', t, c) && Doing(InsertOp(key, val), s.th[t]) && !s.th[t].pc.Ret? && !s.th[t].pc.Done?
    ensures MemoryFlow(s.sh, s.th[t], s'.th[t])
  {
    hide SharedInv, RegsOk, FindInv, RemovalInv, InsertInv, MemoryFlow, ExecFind, ExecRemove, ExecUnlink, ExecInsert;
    var r := s.th[t];
    assert LocalInv(s.sh, t, r) && LocalInv(s'.sh, t, s'.th[t]);
    if s'.th[t].pc.Fault? { FaultIsAstray(s, s', t, c); }
    if InFind(r.pc) { FindMemory(s.sh, t, r, c); }
    else if InRemoval(r.pc) {
      RemovalCallers(s.sh, t, r);
      if r.pc.TCas? { TagsThrough(s.sh, t, r); }
      RemovalMemory(s.sh, t, r);
    }
    else if InInsert(r.pc) { InsertMemory(s.sh, t, r, c); }
    else { CallCallers(s.sh, t, r); }
  }

  /** A step takes a node out exactly if it is a compare-exchange of `set_removed` that nothing hinders. */
  lemma TakesWhen(s: State, s': State, t: Tid, c: Choice)
    requires Inv(s) && Inv(s') && Steps(s, s', t, c) && s.th[t].caller != EntryCall && s.th[t].pc.SCas?
    ensures TakesNow(s, s', t, s.th[t].key) <==> !Hindered(s.sh, s.th[t])
  {
    if Hindered(s.sh, s.th[t]) {
      hide Inv, Abs, ExecFind, ExecUnlink, ExecInsert;
      assert s'.sh == s.sh;
    } else {
      hide Inv, Exec, Hindered, Abs;
      TakeWorks(s, s', t, c);
    }
  }

  lemma ReplaceStep(s: State, s': State, t: Tid, c: Choice, key: int, val: int, last: Ptr)
    requires Inv(s) && Inv(s') && Steps(s, s', t, c) && Doing(InsertOp(key, val), s.th[t]) && Remembers(s.th[t], last)
    requires !s.th[t].pc.Ret? && !s.th[t].pc.Done?
    ensures Doing(InsertOp(key, val), s'.th[t])
    ensures Remembers(s'.th[t], if TakesNow(s, s', t, key) then Some(s.th[t].target) else last)
  {
    hide Inv, Exec, Hindered, TakesAt;
    DoingStep(InsertOp(key, val), s, s', t, c);
    MemoryFlows(s, s', t, c, key, val);
    if s.th[t].pc.SCas? { TakesWhen(s, s', t, c); } else { NotTaking(s, s', t, key); }
  }

  lemma NotTaking(s: State, s': State, t: Tid, key: int)
    requires t < |s.th| && (!s.th[t].pc.SCas? || (t < |s'.th| && s'.th[t] == s.th[t]))
    ensures !TakesNow(s, s', t, key)
  {
  }

  /** In the call of t that began after state b, `a` is the node that it has taken out last by state e, if any. */
  ghost predicate LastTaken(tr: seq<State>, t: Tid, key: int, b: nat, e: nat, a: Ptr) {
    if a == None then NoneTaken(tr, t, key, b, e)
    else exists m :: b < m < e < |tr| && TakesAt(tr[m], tr[m + 1], t, a.value, key) && NoneTaken(tr, t, key, m, e)
  }

  /** Between state b and state e, t has taken no node with that key out of the map. */
  ghost predicate NoneTaken(tr: seq<State>, t: Tid, key: int, b: nat, e: nat) {
    forall m :: b < m < e < |tr| ==> !TakesNow(tr[m], tr[m + 1], t, key)
  }

  lemma TakesTarget(s: State, s': State, t: Tid, n: NodeId, key: int)
    ensures TakesAt(s, s', t, n, key) <==> TakesNow(s, s', t, key) && n == s.th[t].target
  {
    hide Abs;
  }

  lemma TakenRecord(tr: seq<State>, t: Tid, key: int, b: nat, e: nat, a: Ptr)
    requires b + 1 < e < |tr| && t < |tr[e - 1].th| && LastTaken(tr, t, key, b, e - 1, a)
    ensures LastTaken(tr, t, key, b, e, if TakesNow(tr[e - 1], tr[e], t, key) then Some(tr[e - 1].th[t].target) else a)
  {
    hide TakesAt, TakesNow;
    var m := e - 1;
    if TakesNow(tr[m], tr[m + 1], t, key) {
      TakesTarget(tr[m], tr[m + 1], t, tr[m].th[t].target, key);
      assert NoneTaken(tr, t, key, m, e);
    } else if a.Some? {
      if i :| b < i < e - 1 && TakesAt(tr[i], tr[i + 1], t, a.value, key) && NoneTaken(tr, t, key, i, e - 1) {
        assert NoneTaken(tr, t, key, i, e);
      }
    }
  }

  lemma {:induction false} ReplacedSoFar(tr: seq<State>, t: Tid, key: int, val: int, b: nat, e: nat) returns (a: Ptr)
    requires Run(tr) && InCall(tr, t, InsertOp(key, val), b, e)
    ensures t < |tr[e].th| && Doing(InsertOp(key, val), tr[e].th[t]) && Remembers(tr[e].th[t], a)
    ensures LastTaken(tr, t, key, b, e, a)
    decreases e
  {
    hide Run, InCall, Inv, Exec, LastTaken, Remembers, TakesNow;
    Inside(tr, t, InsertOp(key, val), b, e);
    if e == b + 1 {
      ReplaceStarts(tr, t, key, val, b);
      a := None;
    } else {
      a := ReplacedSoFar(tr, t, key, val, b, e - 1);
      RunInv(tr, e - 1);
      RunInv(tr, e);
      RunNext(tr, e - 1);
      TakenRecord(tr, t, key, b, e, a);
      var s, s' := tr[e - 1], tr[e];
      if exists c :: Steps(s, s', t, c) {
        var c :| Steps(s, s', t, c);
        if s.th[t].pc.Ret? { RetLeaves(s.sh, t, s.th[t], c); }
        ReplaceStep(s, s', t, c, key, val, a);
        a := if TakesNow(s, s', t, key) then Some(s.th[t].target) else a;
      } else {
        OthersMove(s, s', t);
        NotTaking(s, s', t, key);
      }
    }
  }

  lemma ReplaceStarts(tr: seq<State>, t: Tid, key: int, val: int, b: nat)
    requires InCall(tr, t, InsertOp(key, val), b, b + 1)
    ensures t < |tr[b + 1].th| && Doing(InsertOp(key, val), tr[b + 1].th[t]) && Remembers(tr[b + 1].th[t], None)
    ensures LastTaken(tr, t, key, b, b + 1, None)
  {
    hide Begins;
    Begun(tr[b], tr[b + 1], t, InsertOp(key, val));
  }

  /**
    What an `insert` answers, in every run: nothing, if and only if the call took no node out of the map;
    otherwise the node that it took out last, at a step of the call at which the map had the key with the value
    of that node.
   */
  lemma InsertAnswer(tr: seq<State>, t: Tid, key: int, val: int, b: nat, e: nat)
    requires Run(tr) && InCall(tr, t, InsertOp(key, val), b, e) && tr[e].th[t].pc.Ret?
    ensures var a := tr[e].th[t].pc.answer;
            && (a == None <==> NoneTaken(tr, t, key, b, e))
            && LastTaken(tr, t, key, b, e, a)
  {
    hide Run, Inv;
    var a := ReplacedSoFar(tr, t, key, val, b, e);
    hide NoneTaken;
    if a.Some? { SomeTaken(tr, t, key, b, e, a.value); }
  }

  lemma SomeTaken(tr: seq<State>, t: Tid, key: int, b: nat, e: nat, n: NodeId)
    requires LastTaken(tr, t, key, b, e, Some(n))
    ensures !NoneTaken(tr, t, key, b, e)
  {
    hide TakesAt, TakesNow;
    if m :| b < m < e < |tr| && TakesAt(tr[m], tr[m + 1], t, n, key) && NoneTaken(tr, t, key, m, e) {
      TakesTarget(tr[m], tr[m + 1], t, n, key);
    }
  }
}
