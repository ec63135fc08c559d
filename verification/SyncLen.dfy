/**
  `len` in any run: exactly which steps change it, what it adds up to, and when the removal of a node brings it
  down again.
 */
module SyncLen {
  import opened Common
  import opened SyncState
  import opened SyncExec
  import opened SyncInv
  import opened SyncSteps
  import opened SyncStart
  import opened SyncCalls
  import opened SyncSearches
  import opened SyncReplacements

  // ------------------------------------------------------------------ single steps

  /** With this step t takes n out of the count. */
  ghost predicate LowersAt(s: State, s': State, t: Tid, n: NodeId) {
    && Moves(s, s', t) && n in s.sh.counted
    && s'.sh.len == s.sh.len - 1 && s'.sh.counted == s.sh.counted - {n}
  }

  /** With this step t counts n. */
  ghost predicate RaisesAt(s: State, s': State, t: Tid, n: NodeId) {
    && Moves(s, s', t) && n !in s.sh.counted
    && s'.sh.len == s.sh.len + 1 && s'.sh.counted == s.sh.counted + {n}
  }

  lemma CountSame(sh: Shared, t: Tid, r: Local, c: Choice)
    requires !r.pc.ULen? && !r.pc.ILen?
    ensures Exec(sh, t, r, c).0.len == sh.len && Exec(sh, t, r, c).0.counted == sh.counted
  {
    hide Decide, Examine, AfterFind, AfterLost, AfterTagged, AfterUnlink, Invoke, Search, InsertAfter, DropFrom;
  }

  /**
    Two places change `len`: an `insert` that has created its node counts it, and an `unlink` that has passed all
    levels takes its node, which was counted, out of the count. No other step changes either.
   */
  lemma LenStep(s: State, s': State, t: Tid, c: Choice)
    requires Inv(s) && Steps(s, s', t, c)
    ensures var r := s.th[t];
            if r.pc.ULen? then LowersAt(s, s', t, r.target)
            else if r.pc.ILen? then r.newNode.Some? && RaisesAt(s, s', t, r.newNode.value)
            else s'.sh.len == s.sh.len && s'.sh.counted == s.sh.counted
  {
    hide SharedInv, RegsOk, Won, Removing;
    var r := s.th[t];
    assert LocalInv(s.sh, t, r);
    if !r.pc.ULen? && !r.pc.ILen? { CountSame(s.sh, t, r, c); hide Exec; }
  }

  // ------------------------------------------------------------------ the account

  /** With the step from s to s' some thread counts the node that it has created. */
  ghost predicate Counts(s: State, s': State) {
    exists t: Tid :: Moves(s, s', t) && s.th[t].pc.ILen?
  }

  /** With the step from s to s' some thread completes an `unlink`. */
  ghost predicate Unlinks(s: State, s': State) {
    exists t: Tid :: Moves(s, s', t) && s.th[t].pc.ULen?
  }

  /** How often nodes have been counted, less how often `unlink` was completed, up to state k. */
  ghost function Balance(tr: seq<State>, k: nat): int
    requires k < |tr|
  {
    if k == 0 then 0
    else Balance(tr, k - 1) + (if Counts(tr[k - 1], tr[k]) then 1 else 0) - (if Unlinks(tr[k - 1], tr[k]) then 1 else 0)
  }

  lemma BalanceStep(s: State, s': State)
    requires Inv(s) && Next(s, s')
    ensures s'.sh.len == s.sh.len + (if Counts(s, s') then 1 else 0) - (if Unlinks(s, s') then 1 else 0)
  {
    hide Inv, Exec;
    if s' == s.(th := s.th + [IDLE]) {
      assert !Counts(s, s') && !Unlinks(s, s');
    } else {
      var t: Tid, c :| Steps(s, s', t, c);
      LenStep(s, s', t, c);
      forall u: Tid | Moves(s, s', u) ensures u == t {}
      assert s.th[t].pc.ULen? || s.th[t].pc.ILen? ==> Moves(s, s', t);
    }
  }

  /** In every run `len` is what it was at the beginning, and one more for each node counted, and one less for each unlinked. */
  lemma {:induction false} LenBalance(tr: seq<State>, k: nat)
    requires Run(tr) && k < |tr|
    ensures tr[k].sh.len == tr[0].sh.len + Balance(tr, k)
    decreases k
  {
    hide Inv, Next, Initial, Counts, Unlinks;
    if k > 0 {
      LenBalance(tr, k - 1);
      RunInv(tr, k - 1);
      BalanceStep(tr[k - 1], tr[k]);
    }
  }

  // ------------------------------------------------------------------ what becomes of a removal

  /** With this step t finds that the recorded predecessor no longer points to its target, so `unlink` gives up. */
  ghost predicate BeatenAt(s: State, s': State, t: Tid) {
    && Moves(s, s', t) && s.th[t].pc.UCas? && s.th[t].pc.lv < |s.th[t].prev|
    && LoadWord(s.sh, s.th[t].prev[s.th[t].pc.lv].0, s.th[t].pc.lv) != Some(Word(Some(s.th[t].target), false))
  }

  /** What a step inside a removal does: it goes on, or ends by lowering `len`, or by giving up. */
  lemma HeldStep(s: State, s': State, t: Tid, c: Choice)
    requires Inv(s) && Inv(s') && Steps(s, s', t, c) && Held(s.th[t]) && s.th[t].caller != EntryCall
    ensures Held(s'.th[t]) ==> s'.th[t].target == s.th[t].target && s'.th[t].caller == s.th[t].caller
    ensures Held(s'.th[t]) ==> s'.sh.len == s.sh.len && !BeatenAt(s, s', t)
    ensures !Held(s'.th[t]) ==> (LowersAt(s, s', t, s.th[t].target) <==> !BeatenAt(s, s', t))
  {
    hide SharedInv, RegsOk, RemovalInv, Mono, Kept, ExecFind, ExecRemove, ExecUnlink, ExecInsert, BeatenAt;
    var r := s.th[t];
    assert LocalInv(s.sh, t, r);
    RemovalCallers(s.sh, t, r);
    LenStep(s, s', t, c);
    StepKeeps(s.sh, t, r, c);
    NoFailure(s'.sh, t, s'.th[t]);
    if s'.th[t].pc.Fault? { FaultIsAstray(s, s', t, c); }
    if InUnlink(r.pc) { UnlinkHeld(s, s', t, c); } else { TagHeld(s, s', t, c); }
  }

  lemma UnlinkHeld(s: State, s': State, t: Tid, c: Choice)
    requires Steps(s, s', t, c) && InUnlink(s.th[t].pc) && !s'.th[t].pc.Fault? && !s'.th[t].pc.Panic?
    ensures Held(s'.th[t]) ==> s'.th[t].target == s.th[t].target && s'.th[t].caller == s.th[t].caller && !s.th[t].pc.ULen?
    ensures Held(s'.th[t]) ==> !BeatenAt(s, s', t)
    ensures !Held(s'.th[t]) ==> s.th[t].pc.ULen? || BeatenAt(s, s', t)
    ensures s.th[t].pc.ULen? ==> !BeatenAt(s, s', t)
    ensures BeatenAt(s, s', t) ==> s'.sh == s.sh
  {
    hide ActUnlink, ActSub, ActRetire, ActUncount;
  }

  lemma TagHeld(s: State, s': State, t: Tid, c: Choice)
    requires Inv(s) && Steps(s, s', t, c) && Held(s.th[t]) && !InUnlink(s.th[t].pc) && s.th[t].caller != EntryCall
    requires !s'.th[t].pc.Fault? && !s'.th[t].pc.Panic?
    ensures Held(s'.th[t]) && s'.th[t].target == s.th[t].target && s'.th[t].caller == s.th[t].caller
    ensures !BeatenAt(s, s', t)
  {
    hide SharedInv, RegsOk, Removing, Won, ActTag;
    var r := s.th[t];
    assert LocalInv(s.sh, t, r);
    assert r.pc.TCas? ==> !Tagged(s.sh, r.target, r.pc.lv);
  }

  /** From state m to before state e thread t is inside the removal of n, and in state e it is not. */
  ghost predicate Removal(tr: seq<State>, t: Tid, n: NodeId, m: nat, e: nat) {
    && m < e < |tr| && t < |tr[m].th| && tr[m].th[t].target == n && tr[m].th[t].caller != EntryCall
    && (forall q :: m <= q < e ==> t < |tr[q].th| && Held(tr[q].th[t]))
    && t < |tr[e].th| && !Held(tr[e].th[t])
  }

  /** The removal goes on with the same target. */
  lemma {:induction false} StillRemoving(tr: seq<State>, t: Tid, n: NodeId, m: nat, e: nat, q: nat)
    requires Run(tr) && Removal(tr, t, n, m, e) && m <= q < e
    ensures q + 1 < |tr| && t < |tr[q].th| && tr[q].th[t].target == n && tr[q].th[t].caller != EntryCall && Held(tr[q].th[t])
    decreases q
  {
    hide Run, Inv, Held, LowersAt, BeatenAt, Removal, Next;
    RemovalThere(tr, t, n, m, e);
    if q > m {
      StillRemoving(tr, t, n, m, e, q - 1);
      HeldIn(tr, t, n, m, e, q);
      RunInv(tr, q - 1);
      RunInv(tr, q);
      RunNext(tr, q - 1);
      RemovalGoesOn(tr[q - 1], tr[q], t);
    } else {
      HeldIn(tr, t, n, m, e, m);
    }
  }

  lemma HeldIn(tr: seq<State>, t: Tid, n: NodeId, m: nat, e: nat, q: nat)
    requires Removal(tr, t, n, m, e) && m <= q < e
    ensures t < |tr[q].th| && Held(tr[q].th[t])
    ensures q == m ==> tr[q].th[t].target == n && tr[q].th[t].caller != EntryCall
  {
    hide Held;
  }

  lemma RemovalGoesOn(s: State, s': State, t: Tid)
    requires Inv(s) && Inv(s') && Next(s, s') && t < |s.th| && t < |s'.th|
    requires Held(s.th[t]) && s.th[t].caller != EntryCall && Held(s'.th[t])
    ensures s'.th[t].target == s.th[t].target && s'.th[t].caller != EntryCall
  {
    hide Inv, Held, LowersAt, BeatenAt, Next, Exec;
    if exists c :: Steps(s, s', t, c) {
      var c :| Steps(s, s', t, c);
      HeldStep(s, s', t, c);
    } else {
      OthersMove(s, s', t);
    }
  }

  /** One step of the run, from inside the removal. */
  lemma RemovalStep(tr: seq<State>, t: Tid, n: NodeId, m: nat, e: nat, q: nat)
    requires Run(tr) && Removal(tr, t, n, m, e) && m <= q < e
    ensures q + 1 < e ==> !LowersAt(tr[q], tr[q + 1], t, n) && !BeatenAt(tr[q], tr[q + 1], t)
    ensures q + 1 == e ==> (LowersAt(tr[q], tr[q + 1], t, n) <==> !BeatenAt(tr[q], tr[q + 1], t))
  {
    hide Run, Inv, Held, BeatenAt;
    StillRemoving(tr, t, n, m, e, q);
    RunInv(tr, q);
    RunInv(tr, q + 1);
    RunNext(tr, q);
    var s, s' := tr[q], tr[q + 1];
    if exists c :: Steps(s, s', t, c) {
      var c :| Steps(s, s', t, c);
      HeldStep(s, s', t, c);
    } else {
      OthersMove(s, s', t);
      NotMoving(s, s', t);
    }
  }

  lemma NotMoving(s: State, s': State, t: Tid)
    requires t < |s.th| && t < |s'.th| && s'.th[t] == s.th[t]
    ensures !BeatenAt(s, s', t)
  {
  }

  /**
    Every removal that ends, in every run, of `insert` or `remove`: it has lowered `len` by one and taken its
    node out of the count, once and as its last step, if and only if no recorded predecessor had changed when
    its compare-exchange met it.
   */
  lemma UnlinkOutcome(tr: seq<State>, t: Tid, n: NodeId, m: nat, e: nat)
    requires Run(tr) && Removal(tr, t, n, m, e)
    ensures LowersAt(tr[e - 1], tr[e], t, n) <==> !exists q :: m <= q < e && BeatenAt(tr[q], tr[q + 1], t)
    ensures forall q :: m <= q < e - 1 ==> !LowersAt(tr[q], tr[q + 1], t, n)
  {
    hide Run, Held, BeatenAt, LowersAt, Removal;
    RemovalThere(tr, t, n, m, e);
    var q := e - 1;
    RemovalStep(tr, t, n, m, e, q);
    assert BeatenAt(tr[q], tr[q + 1], t) ==> exists i :: m <= i < e && BeatenAt(tr[i], tr[i + 1], t);
    forall i | m <= i < e - 1 ensures !LowersAt(tr[i], tr[i + 1], t, n) && !BeatenAt(tr[i], tr[i + 1], t) {
      RemovalStep(tr, t, n, m, e, i);
    }
  }

  lemma RemovalThere(tr: seq<State>, t: Tid, n: NodeId, m: nat, e: nat)
    requires Removal(tr, t, n, m, e)
    ensures m < e < |tr|
  {
  }
}
