/**
  Why searches end without a target, in any run: exactly when `get` answers nothing, and exactly what
  `get_first` and `next_node` have read when they answer.
 */
module SyncSearches {
  import opened Common
  import opened SyncState
  import opened SyncExec
  import opened SyncInv
  import opened SyncSteps
  import opened SyncStart
  import opened SyncRefine
  import opened SyncCalls

  // ------------------------------------------------------------------ what a search has read

  ghost predicate Moves(s: State, s': State, t: Tid) {
    t < |s.th| && t < |s'.th| && s'.th[t] != s.th[t]
  }

  /** The successor that t, standing on a node of the bottom level, has just been found to have, if it is settled. */
  ghost predicate Follows(sh: Shared, r: Local, curr: NodeId, next: Ptr) {
    match r.pc
    case FLoad(lv, n) => lv == 0 && n == curr && next == None && PtrIs(sh, curr, 0, None)
    case FTag(lv, n, x) => lv == 0 && n == curr && next == Some(x) && x < |sh.heap| && !Tagged(sh, x, 0)
    case FSub(lv, n, _, nn) => lv == 0 && n == curr && next == None && nn == None
    case FRetire(lv, n, _, nn) => lv == 0 && n == curr && next == None && nn == None
    case _ => false
  }

  /**
    With this step t settles the bottom level: it records a node with a smaller key, and as its successor either
    nothing or an untagged node whose key is not smaller.
   */
  ghost predicate SettlesAt(s: State, s': State, t: Tid) {
    && Moves(s, s', t) && |s'.th[t].prev| > 0
    && var (curr, next) := s'.th[t].prev[0];
       && KeyBelow(s.sh, curr, s.th[t].key) && Follows(s.sh, s.th[t], curr, next)
       && (next.Some? && next.value < |s.sh.heap| ==> s.th[t].key <= s.sh.heap[next.value].key)
  }

  /** The bottom level was settled earlier in the call, as it is still recorded. */
  ghost predicate Settled(tr: seq<State>, t: Tid, b: nat, e: nat) {
    && e < |tr| && t < |tr[e].th| && |tr[e].th[t].prev| > 0
    && exists m :: b < m < e && SettlesAt(tr[m], tr[m + 1], t) && tr[m + 1].th[t].prev[0] == tr[e].th[t].prev[0]
  }

  /** With this step t loads, for the last time, the word of the recorded predecessor, and finds p. */
  ghost predicate LastLoad(s: State, s': State, t: Tid, p: Ptr) {
    && Moves(s, s', t) && s.th[t].pc.FFinal? && |s.th[t].prev| > 0
    && KeyBelow(s.sh, s.th[t].prev[0].0, s.th[t].key) && PtrIs(s.sh, s.th[t].prev[0].0, 0, p)
  }

  /** With this step t reads the candidate n, and finds another key or the removed bit. */
  ghost predicate Rejects(s: State, s': State, t: Tid, n: NodeId) {
    && Moves(s, s', t) && s.th[t].pc == FCheck(n) && n < |s.sh.heap|
    && (s.sh.heap[n].key != s.th[t].key || s.sh.heap[n].removed)
  }

  /** The candidate n was loaded from the recorded predecessor after the bottom level had been settled. */
  ghost predicate Candidate(tr: seq<State>, t: Tid, b: nat, e: nat, n: NodeId) {
    exists m :: b < m < e < |tr| && LastLoad(tr[m], tr[m + 1], t, Some(n)) && Settled(tr, t, b, m)
  }

  /** What is known of every search inside a call. */
  ghost predicate SearchKnown(tr: seq<State>, t: Tid, b: nat, e: nat) {
    && e < |tr| && t < |tr[e].th|
    && (tr[e].th[t].pc.FFinal? ==> Settled(tr, t, b, e))
    && (tr[e].th[t].pc.FCheck? ==> Candidate(tr, t, b, e, tr[e].th[t].pc.cand))
  }

  /** Only a settled bottom level leads to the last load, and only the last load to a candidate. */
  lemma FinalFrom(s: State, s': State, t: Tid, c: Choice)
    requires Inv(s) && Steps(s, s', t, c)
    ensures s'.th[t].pc.FFinal? ==> SettlesAt(s, s', t)
    ensures s'.th[t].pc.FCheck? ==> LastLoad(s, s', t, Some(s'.th[t].pc.cand))
  {
    hide SharedInv, RegsOk, FindInv, RemovalInv, InsertInv, ExecFind, ExecRemove, ExecUnlink, ExecInsert, SettlesAt, LastLoad;
    var r := s.th[t];
    assert LocalInv(s.sh, t, r);
    if InFind(r.pc) { FinalInFind(s, s', t, c); } else { FinalElsewhere(s.sh, t, r, c); }
  }

  lemma FinalElsewhere(sh: Shared, t: Tid, r: Local, c: Choice)
    requires !InFind(r.pc)
    ensures !Exec(sh, t, r, c).1.pc.FFinal? && !Exec(sh, t, r, c).1.pc.FCheck?
  {
    hide ExecRemove, ExecUnlink, ExecInsert;
    if InRemoval(r.pc) { FinalRemoval(sh, t, r); } else if InInsert(r.pc) { FinalInsert(sh, t, r, c); }
  }

  lemma FinalRemoval(sh: Shared, t: Tid, r: Local)
    requires InRemoval(r.pc)
    ensures InUnlink(r.pc) ==> !ExecUnlink(sh, t, r).1.pc.FFinal? && !ExecUnlink(sh, t, r).1.pc.FCheck?
    ensures !InUnlink(r.pc) ==> !ExecRemove(sh, t, r).1.pc.FFinal? && !ExecRemove(sh, t, r).1.pc.FCheck?
  {
    hide ActUnlink, ActSub, ActRetire, ActTag, ActRemove;
  }

  lemma FinalInsert(sh: Shared, t: Tid, r: Local, c: Choice)
    requires InInsert(r.pc)
    ensures !ExecInsert(sh, t, r, c).1.pc.FFinal? && !ExecInsert(sh, t, r, c).1.pc.FCheck?
  {
    hide ActCreate, ActCount, ActReserve, ActUnreserve, ActLink;
  }

  /** A search that is done with the bottom level has recorded it. */
  ghost predicate Records(sh: Shared, r: Local, lv: nat, curr: NodeId, next: Ptr, r': Local) {
    && !r'.pc.FCheck?
    && (r'.pc.FFinal? ==>
          && lv == 0 && r.caller != NextCall && |r'.prev| > 0 && r'.prev[0] == (curr, next)
          && (next.Some? && next.value < |sh.heap| ==> r.key <= sh.heap[next.value].key))
  }

  lemma DecideRecords(sh: Shared, r: Local, lv: nat, curr: NodeId, next: Ptr)
    ensures Records(sh, r, lv, curr, next, Decide(sh, r, lv, curr, next))
  {
  }

  lemma FinalInFind(s: State, s': State, t: Tid, c: Choice)
    requires Inv(s) && Steps(s, s', t, c) && InFind(s.th[t].pc)
    ensures s'.th[t].pc.FFinal? ==> SettlesAt(s, s', t)
    ensures s'.th[t].pc.FCheck? ==> LastLoad(s, s', t, Some(s'.th[t].pc.cand))
  {
    var r := s.th[t];
    assert LocalInv(s.sh, t, r);
    if r.pc.FFinal? { CheckLoaded(s, s', t, c); }
    else if r.pc.FLoad? || r.pc.FTag? || r.pc.FSub? || r.pc.FRetire? { SettlesHere(s, s', t, c); }
    else { NoDecision(s.sh, t, r, c); }
  }

  lemma NoDecision(sh: Shared, t: Tid, r: Local, c: Choice)
    requires r.pc.FInit? || r.pc.FStart? || r.pc.FNext? || r.pc.FCas? || r.pc.FCheck?
    ensures !ExecFind(sh, t, r, c).1.pc.FFinal? && !ExecFind(sh, t, r, c).1.pc.FCheck?
  {
    hide ActUnlink;
  }

  lemma CheckLoaded(s: State, s': State, t: Tid, c: Choice)
    requires Inv(s) && Steps(s, s', t, c) && s.th[t].pc.FFinal?
    ensures !s'.th[t].pc.FFinal?
    ensures s'.th[t].pc.FCheck? ==> LastLoad(s, s', t, Some(s'.th[t].pc.cand))
  {
    hide SharedInv, Context;
    assert LocalInv(s.sh, t, s.th[t]);
    assert PrevOk(s.sh, s.th[t], 0);
  }

  lemma SettlesHere(s: State, s': State, t: Tid, c: Choice)
    requires Inv(s) && Steps(s, s', t, c) && (s.th[t].pc.FLoad? || s.th[t].pc.FTag? || s.th[t].pc.FSub? || s.th[t].pc.FRetire?)
    ensures !s'.th[t].pc.FCheck? && (s'.th[t].pc.FFinal? ==> SettlesAt(s, s', t))
  {
    hide SharedInv, RegsOk, Context, NextOk, ActSub, ActRetire, Decide;
    var r := s.th[t];
    assert LocalInv(s.sh, t, r);
    DecideRecords(s.sh, r, r.pc.lv, r.pc.curr, None);
    DecideRecords(s'.sh, r, r.pc.lv, r.pc.curr, None);
    if r.pc.FTag? {
      DecideRecords(s.sh, r, r.pc.lv, r.pc.curr, Some(r.pc.next));
      WordThere(s.sh, r.pc.next, r.pc.lv);
    }
  }

  lemma SearchRecord(tr: seq<State>, t: Tid, b: nat, e: nat)
    requires b + 1 < e < |tr| && t < |tr[e - 1].th| && t < |tr[e].th|
    ensures SettlesAt(tr[e - 1], tr[e], t) ==> Settled(tr, t, b, e)
    ensures Settled(tr, t, b, e - 1) && tr[e].th[t] == tr[e - 1].th[t] ==> Settled(tr, t, b, e)
    ensures forall n: NodeId :: Settled(tr, t, b, e - 1) && LastLoad(tr[e - 1], tr[e], t, Some(n)) ==> Candidate(tr, t, b, e, n)
    ensures forall n: NodeId :: Candidate(tr, t, b, e - 1, n) ==> Candidate(tr, t, b, e, n)
  {
    hide LastLoad;
    if SettlesAt(tr[e - 1], tr[e], t) {
      var m := e - 1;
      assert SettlesAt(tr[m], tr[m + 1], t);
    }
    hide SettlesAt;
    forall n: NodeId | Settled(tr, t, b, e - 1) && LastLoad(tr[e - 1], tr[e], t, Some(n)) ensures Candidate(tr, t, b, e, n) {
      var m := e - 1;
      assert LastLoad(tr[m], tr[m + 1], t, Some(n)) && Settled(tr, t, b, m);
    }
  }

  /** In every state of a call, what the search at that point relies on has been read inside the call. */
  lemma {:induction false} SearchSoFar(tr: seq<State>, t: Tid, op: Op, b: nat, e: nat)
    requires Run(tr) && InCall(tr, t, op, b, e)
    ensures SearchKnown(tr, t, b, e)
    decreases e
  {
    hide Run, InCall, Inv, Settled, Candidate, SettlesAt, LastLoad;
    Inside(tr, t, op, b, e);
    if e == b + 1 {
      SearchStarts(tr, t, op, b);
    } else {
      SearchSoFar(tr, t, op, b, e - 1);
      RunInv(tr, e - 1);
      RunNext(tr, e - 1);
      SearchRecord(tr, t, b, e);
      var s, s' := tr[e - 1], tr[e];
      if exists c :: Steps(s, s', t, c) {
        var c :| Steps(s, s', t, c);
        FinalFrom(s, s', t, c);
        LoadsAtFinal(s, s', t);
      } else {
        OthersMove(s, s', t);
      }
    }
  }

  lemma LoadsAtFinal(s: State, s': State, t: Tid)
    ensures forall n: NodeId :: LastLoad(s, s', t, Some(n)) ==> t < |s.th| && s.th[t].pc.FFinal?
  {
  }

  lemma SearchStarts(tr: seq<State>, t: Tid, op: Op, b: nat)
    requires InCall(tr, t, op, b, b + 1)
    ensures SearchKnown(tr, t, b, b + 1)
  {
    hide Settled, Candidate, Begins;
    Begun(tr[b], tr[b + 1], t, op);
  }

  // ------------------------------------------------------------------ searches without a target

  /** With this step the search of t, for the given caller, ends without a target. */
  ghost predicate MissesAt(s: State, s': State, t: Tid, who: Caller) {
    && t < |s.th| && s.th[t].caller == who
    && (LastLoad(s, s', t, None) || (s.th[t].pc.FCheck? && Rejects(s, s', t, s.th[t].pc.cand)))
  }

  /**
    The search missed at step m: the recorded predecessor, whose key is smaller, had no successor at the last
    load, or the candidate loaded there had another key or was removed.
   */
  ghost predicate Missed(tr: seq<State>, t: Tid, b: nat, m: nat) {
    && b < m < |tr| - 1 && t < |tr[m].th|
    && (|| (LastLoad(tr[m], tr[m + 1], t, None) && Settled(tr, t, b, m))
        || exists n :: Rejects(tr[m], tr[m + 1], t, n) && Candidate(tr, t, b, m, n))
  }

  /** In the call of t that began after state b, a search for that caller has missed by state e. */
  ghost predicate Misses(tr: seq<State>, t: Tid, who: Caller, b: nat, e: nat) {
    exists m :: b < m < e < |tr| && t < |tr[m].th| && tr[m].th[t].caller == who && Missed(tr, t, b, m)
  }

  lemma MissRecord(tr: seq<State>, t: Tid, who: Caller, b: nat, e: nat)
    requires b + 1 < e < |tr| && SearchKnown(tr, t, b, e - 1)
    ensures Misses(tr, t, who, b, e) <==> Misses(tr, t, who, b, e - 1) || MissesAt(tr[e - 1], tr[e], t, who)
  {
    hide SettlesAt, Settled, Candidate;
    var m := e - 1;
    assert Missed(tr, t, b, m) && tr[m].th[t].caller == who <==> MissesAt(tr[m], tr[m + 1], t, who);
    hide Missed, MissesAt;
  }

  lemma NoMissYet(tr: seq<State>, t: Tid, who: Caller, b: nat)
    ensures !Misses(tr, t, who, b, b + 1)
  {
  }

  // ------------------------------------------------------------------ get

  /** With this step `get` reads a `len` below 1. */
  ghost predicate SkipsAt(s: State, s': State, t: Tid) {
    Moves(s, s', t) && (s.th[t].pc.GetLen? || s.th[t].pc.FirstLen?) && s.sh.len < 1
  }

  ghost predicate Skips(tr: seq<State>, t: Tid, b: nat, e: nat) {
    exists m :: b < m < e < |tr| && SkipsAt(tr[m], tr[m + 1], t)
  }

  lemma SkipRecord(tr: seq<State>, t: Tid, b: nat, e: nat)
    requires b + 1 < e < |tr|
    ensures Skips(tr, t, b, e) <==> Skips(tr, t, b, e - 1) || SkipsAt(tr[e - 1], tr[e], t)
  {
    hide SkipsAt;
  }

  /** Where `get` can be, given whether it has skipped its search and whether its search has missed. */
  ghost predicate Asking(s: State, t: Tid, key: int, skipped: bool, missed: bool) {
    && t < |s.th| && Doing(GetOp(key), s.th[t])
    && (s.th[t].pc.GetLen? || InFind(s.th[t].pc) || s.th[t].pc.Ret?)
    && (!s.th[t].pc.Ret? ==> !skipped && !missed)
    && (s.th[t].pc.Ret? ==> (s.th[t].pc.answer == None <==> skipped || missed))
  }

  lemma GetMoves(s: State, s': State, t: Tid, c: Choice, key: int)
    requires Inv(s) && Inv(s') && Steps(s, s', t, c) && Doing(GetOp(key), s.th[t]) && (s.th[t].pc.GetLen? || InFind(s.th[t].pc))
    ensures s'.th[t].pc.GetLen? || InFind(s'.th[t].pc) || s'.th[t].pc.Ret?
    ensures !s'.th[t].pc.Ret? ==> !SkipsAt(s, s', t) && !MissesAt(s, s', t, Getter)
    ensures s'.th[t].pc.Ret? ==> (s'.th[t].pc.answer == None <==> SkipsAt(s, s', t) || MissesAt(s, s', t, Getter))
  {
    hide SharedInv, RegsOk, FindInv, ExecFind, ExecRemove, ExecUnlink, ExecInsert, SkipsAt, MissesAt;
    var r := s.th[t];
    assert LocalInv(s.sh, t, r) && LocalInv(s'.sh, t, s'.th[t]);
    if s'.th[t].pc.Fault? { FaultIsAstray(s, s', t, c); }
    if InFind(r.pc) { SearchMoves(s, s', t, c); } else { LenMoves(s, s', t, c); }
  }

  lemma LenMoves(s: State, s': State, t: Tid, c: Choice)
    requires Steps(s, s', t, c) && s.th[t].pc.GetLen?
    ensures InFind(s'.th[t].pc) || s'.th[t].pc == Ret(None)
    ensures s'.th[t].pc == Ret(None) <==> SkipsAt(s, s', t)
    ensures !MissesAt(s, s', t, Getter)
  {
    hide ExecFind, ExecRemove, ExecUnlink, ExecInsert;
  }

  /** A search of `get` or of `remove` goes on, or misses, or hands over a target. */
  lemma SearchMoves(s: State, s': State, t: Tid, c: Choice)
    requires Inv(s) && Steps(s, s', t, c) && InFind(s.th[t].pc) && !s'.th[t].pc.Fault? && !s'.th[t].pc.Panic?
    requires s.th[t].caller == Getter || s.th[t].caller == RemoveFirst
    ensures !SkipsAt(s, s', t)
    ensures MissesAt(s, s', t, s.th[t].caller) <==> s'.th[t].pc == Ret(None)
    ensures InFind(s'.th[t].pc) || s'.th[t].pc == Ret(None)
            || (if s.th[t].caller == Getter then s'.th[t].pc.Ret? else s'.th[t].pc.SLoad?)
  {
    var r := s.th[t];
    if r.pc.FFinal? || r.pc.FCheck? {
      hide SharedInv, Context;
      assert LocalInv(s.sh, t, r);
      assert PrevOk(s.sh, r, 0);
    } else {
      hide Inv, ExecFind;
      WalkMoves(s.sh, t, r, c);
    }
  }

  lemma WalkMoves(sh: Shared, t: Tid, r: Local, c: Choice)
    requires InFind(r.pc) && !r.pc.FFinal? && !r.pc.FCheck? && r.caller != NextCall
    ensures InFind(ExecFind(sh, t, r, c).1.pc) || ExecFind(sh, t, r, c).1.pc.Fault? || ExecFind(sh, t, r, c).1.pc.Panic?
  {
    hide ActUnlink, ActSub, ActRetire, SearchClosest, Decide;
    forall sh: Shared, lv: nat, curr: NodeId, next: Ptr ensures SettleMoves(r, Decide(sh, r, lv, curr, next)) {
      DecideMoves(sh, r, lv, curr, next);
    }
  }

  predicate SettleMoves(r: Local, r': Local) {
    r'.caller == r.caller && (InFind(r'.pc) || r'.pc.Fault?)
  }

  lemma DecideMoves(sh: Shared, r: Local, lv: nat, curr: NodeId, next: Ptr)
    requires r.caller != NextCall
    ensures SettleMoves(r, Decide(sh, r, lv, curr, next))
  {
  }

  lemma AskingMoves(s: State, s': State, t: Tid, key: int, skipped: bool, missed: bool)
    requires Inv(s) && Inv(s') && Next(s, s') && Asking(s, t, key, skipped, missed)
    requires t < |s'.th| && !s'.th[t].pc.Done?
    ensures Asking(s', t, key, skipped || SkipsAt(s, s', t), missed || MissesAt(s, s', t, Getter))
  {
    hide Inv, Exec, SkipsAt, MissesAt;
    if exists c :: Steps(s, s', t, c) {
      var c :| Steps(s, s', t, c);
      if s.th[t].pc.Ret? { RetLeaves(s.sh, t, s.th[t], c); }
      DoingStep(GetOp(key), s, s', t, c);
      GetMoves(s, s', t, c, key);
    } else {
      OthersMove(s, s', t);
      NoMove(s, s', t);
    }
  }

  lemma NoMove(s: State, s': State, t: Tid)
    requires t < |s.th| && t < |s'.th| && s'.th[t] == s.th[t]
    ensures !SkipsAt(s, s', t) && forall who :: !MissesAt(s, s', t, who)
  {
  }

  lemma {:induction false} GetSoFar(tr: seq<State>, t: Tid, key: int, b: nat, e: nat)
    requires Run(tr) && InCall(tr, t, GetOp(key), b, e)
    ensures Asking(tr[e], t, key, Skips(tr, t, b, e), Misses(tr, t, Getter, b, e))
    decreases e
  {
    hide Run, InCall, Inv, Skips, Misses, Asking, SkipsAt, MissesAt, SearchKnown;
    Inside(tr, t, GetOp(key), b, e);
    if e == b + 1 {
      GetStarts(tr, t, key, b);
    } else {
      GetSoFar(tr, t, key, b, e - 1);
      SearchSoFar(tr, t, GetOp(key), b, e - 1);
      MissRecord(tr, t, Getter, b, e);
      SkipRecord(tr, t, b, e);
      RunInv(tr, e - 1);
      RunInv(tr, e);
      RunNext(tr, e - 1);
      AskingMoves(tr[e - 1], tr[e], t, key, Skips(tr, t, b, e - 1), Misses(tr, t, Getter, b, e - 1));
    }
  }

  lemma GetStarts(tr: seq<State>, t: Tid, key: int, b: nat)
    requires InCall(tr, t, GetOp(key), b, b + 1)
    ensures t < |tr[b + 1].th| && Asking(tr[b + 1], t, key, Skips(tr, t, b, b + 1), Misses(tr, t, Getter, b, b + 1))
  {
    hide Begins;
    Begun(tr[b], tr[b + 1], t, GetOp(key));
    NoMissYet(tr, t, Getter, b);
  }

  /**
    Why a `get` answers nothing, in every run: if and only if it read a `len` below 1, or its search settled the
    bottom level and then either found nothing behind the recorded predecessor, whose key is smaller, or
    found there a candidate that had another key or was removed.
   */
  lemma GetOutcome(tr: seq<State>, t: Tid, key: int, b: nat, e: nat)
    requires Run(tr) && InCall(tr, t, GetOp(key), b, e) && tr[e].th[t].pc.Ret?
    ensures tr[e].th[t].pc.answer == None <==> Skips(tr, t, b, e) || Misses(tr, t, Getter, b, e)
  {
    hide Run, Inv, Skips, Misses;
    GetSoFar(tr, t, key, b, e);
  }

  // ------------------------------------------------------------------ get_first and next_node

  /** The node whose successor is asked for. */
  function FromOf(op: Op): NodeId {
    if op.NextOp? then op.node else HEAD
  }

  /** Where `get_first` or `next_node` can be before it answers, as long as it has not gone astray. */
  ghost predicate Stepping(r: Local, from: NodeId) {
    && r.caller == NextCall
    && match r.pc
       case FirstLen => from == HEAD
       case NextStale(n) => n == from
       case FLoad(_, curr) => curr == from
       case FTag(_, curr, _) => curr == from
       case FNext(_, curr, _) => curr == from
       case FCas(_, curr, _, _) => curr == from
       case FSub(_, curr, _, _) => curr == from
       case FRetire(_, curr, _, _) => curr == from
       case _ => false
  }

  /** With this step t takes p for what follows the node `from`. */
  ghost predicate TakesFor(s: State, s': State, t: Tid, from: NodeId, p: Ptr) {
    && Moves(s, s', t) && Follows(s.sh, s.th[t], from, p)
    && (p.Some? ==> p.value in Chain(s.sh, 0) && p.value != HEAD)
  }

  lemma NextMoves(s: State, s': State, t: Tid, c: Choice, from: NodeId)
    requires Inv(s) && Inv(s') && Steps(s, s', t, c) && Stepping(s.th[t], from)
    ensures Stepping(s'.th[t], from) || Astray(s'.th[t]) || s'.th[t].pc.Ret?
    ensures s'.th[t].pc.Ret? ==>
              TakesFor(s, s', t, from, s'.th[t].pc.answer) || (s'.th[t].pc.answer == None && SkipsAt(s, s', t))
  {
    hide SharedInv, RegsOk, FindInv, Chain, ExecFind, ExecRemove, ExecUnlink, ExecInsert;
    var r := s.th[t];
    assert LocalInv(s.sh, t, r) && LocalInv(s'.sh, t, s'.th[t]);
    if s'.th[t].pc.Fault? { FaultIsAstray(s, s', t, c); }
    if InFind(r.pc) { NextFindMoves(s, s', t, c, from); }
  }

  lemma NextFindMoves(s: State, s': State, t: Tid, c: Choice, from: NodeId)
    requires Inv(s) && Steps(s, s', t, c) && Stepping(s.th[t], from) && InFind(s.th[t].pc)
    requires !s'.th[t].pc.Panic? && !s'.th[t].pc.Fault?
    ensures Stepping(s'.th[t], from) || Astray(s'.th[t]) || s'.th[t].pc.Ret?
    ensures s'.th[t].pc.Ret? ==> TakesFor(s, s', t, from, s'.th[t].pc.answer)
  {
    hide SharedInv, RegsOk, Context, Chain, ActUnlink, ActSub, ActRetire;
    var r := s.th[t];
    assert LocalInv(s.sh, t, r);
    if r.pc.FTag? {
      WordThere(s.sh, r.pc.next, r.pc.lv);
      if !Tagged(s.sh, r.pc.next, 0) { NextIsLinked(s, t, c); }
    }
  }

  ghost predicate NextKnown(tr: seq<State>, t: Tid, from: NodeId, b: nat, e: nat) {
    && e < |tr| && t < |tr[e].th|
    && (Stepping(tr[e].th[t], from) || Astray(tr[e].th[t]) || tr[e].th[t].pc.Ret?)
    && (tr[e].th[t].pc.Ret? ==>
          (tr[e].th[t].pc.answer == None && Skips(tr, t, b, e)) || Took(tr, t, from, tr[e].th[t].pc.answer, b, e))
  }

  ghost predicate Took(tr: seq<State>, t: Tid, from: NodeId, p: Ptr, b: nat, e: nat) {
    exists m :: b < m < e < |tr| && TakesFor(tr[m], tr[m + 1], t, from, p)
  }

  lemma TookRecord(tr: seq<State>, t: Tid, from: NodeId, p: Ptr, b: nat, e: nat)
    requires b + 1 < e < |tr|
    ensures Took(tr, t, from, p, b, e) <==> Took(tr, t, from, p, b, e - 1) || TakesFor(tr[e - 1], tr[e], t, from, p)
  {
    hide TakesFor;
  }

  lemma {:induction false} NextSoFar(tr: seq<State>, t: Tid, op: Op, b: nat, e: nat)
    requires Run(tr) && InCall(tr, t, op, b, e) && (op.FirstOp? || op.NextOp?)
    ensures NextKnown(tr, t, FromOf(op), b, e)
    decreases e
  {
    hide Run, InCall, Inv, Skips, Took, SkipsAt, TakesFor, Stepping, Astray;
    Inside(tr, t, op, b, e);
    var from := FromOf(op);
    if e == b + 1 {
      NextStarts(tr, t, op, b);
    } else {
      NextSoFar(tr, t, op, b, e - 1);
      SkipRecord(tr, t, b, e);
      RunInv(tr, e - 1);
      RunInv(tr, e);
      RunNext(tr, e - 1);
      var s, s' := tr[e - 1], tr[e];
      if s'.th[t].pc.Ret? { TookRecord(tr, t, from, s'.th[t].pc.answer, b, e); }
      if exists c :: Steps(s, s', t, c) {
        var c :| Steps(s, s', t, c);
        if s.th[t].pc.Ret? { RetLeaves(s.sh, t, s.th[t], c); }
        else if Astray(s.th[t]) { AstrayStays(s, s', t, c); AstrayNotRet(s'.th[t]); }
        else { NextMoves(s, s', t, c, from); }
      } else {
        OthersMove(s, s', t);
      }
    }
  }

  lemma AstrayNotRet(r: Local)
    requires Astray(r)
    ensures !r.pc.Ret?
  {
  }

  lemma NextStarts(tr: seq<State>, t: Tid, op: Op, b: nat)
    requires InCall(tr, t, op, b, b + 1) && (op.FirstOp? || op.NextOp?)
    ensures NextKnown(tr, t, FromOf(op), b, b + 1)
  {
    hide Begins;
    Begun(tr[b], tr[b + 1], t, op);
  }

  /**
    What `get_first` or `next_node` answers, in every run in which it does: nothing, if `get_first` read a `len`
    below 1; otherwise what it read of the bottom level at a step of the call: nothing behind the
    node, or an untagged successor, which was on the bottom chain then.
   */
  lemma NextOutcome(tr: seq<State>, t: Tid, op: Op, b: nat, e: nat)
    requires Run(tr) && InCall(tr, t, op, b, e) && (op.FirstOp? || op.NextOp?) && tr[e].th[t].pc.Ret?
    ensures var a := tr[e].th[t].pc.answer;
            (a == None && Skips(tr, t, b, e)) || Took(tr, t, FromOf(op), a, b, e)
  {
    hide Run, Inv, Skips, Took;
    NextSoFar(tr, t, op, b, e);
  }
}
