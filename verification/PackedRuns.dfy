/**
  The lock-free list keeps height, count and removed bit of a node in one word. The protocol model keeps
  them apart; here the word is put back and shown to follow the fields through every run.
 */
module PackedRuns {
  import opened Common
  import opened SyncState
  import opened SyncExec
  import opened SyncInv
  import opened SyncStart
  import opened SyncDebts
  import opened SyncTheorems
  import P = PackedWord

  /** w is the packed word of the node. */
  ghost predicate Represents(w: Usize, node: Node) {
    node.height >= 0 && node.refs >= 0 && P.Unpack(w) == P.Fields(node.height, node.refs, node.removed)
  }

  /** Thread r increments the count of n with its next step, which reads the count first above the bottom level. */
  predicate Adds(r: Local, n: NodeId) {
    r.pc.LRef? && r.newNode == Some(n)
  }

  predicate Undoes(r: Local, n: NodeId) {
    r.pc.LUnref? && r.newNode == Some(n)
  }

  predicate Pays(r: Local, n: NodeId) {
    (r.pc.FSub? && r.pc.next == n) || (r.pc.USub? && r.target == n)
  }

  predicate Removes(r: Local, n: NodeId) {
    r.pc.SCas? && r.target == n
  }

  /**
    What the next step of thread r makes of the word of n. `seen` is the whole word that `set_removed`
    loaded before its compare-exchange; the protocol model remembers the count in it.
   */
  function WordAfter(r: Local, n: NodeId, w: Usize, seen: Usize): Usize {
    if Adds(r, n) then (if r.start > 0 && P.Refs(w) == 0 then w else P.AddRef(w))
    else if Undoes(r, n) then P.SubRef(w)
    else if Pays(r, n) then (if P.Refs(w) == 0 then w else P.SubRef(w))
    else if Removes(r, n) then (if w == seen then P.WithRemoved(seen) else w)
    else w
  }

  /** The fields of a node that its packed word holds. */
  ghost predicate SameWord(a: Node, b: Node) {
    a.height == b.height && a.refs == b.refs && a.removed == b.removed
  }

  ghost predicate FieldsAfter(sh: Shared, r: Local, n: NodeId, node': Node)
    requires n < |sh.heap|
  {
    var node := sh.heap[n];
    if Adds(r, n) then SameWord(node', if r.start > 0 && node.refs == 0 then node else node.(refs := node.refs + 1))
    else if Undoes(r, n) then SameWord(node', node.(refs := node.refs - 1))
    else if Pays(r, n) then SameWord(node', if node.refs == 0 then node else node.(refs := node.refs - 1))
    else if Removes(r, n) then
      SameWord(node', if node.refs == r.pc.refs && !node.removed then node.(removed := true) else node)
    else SameWord(node', node)
  }

  lemma StepFields(sh: Shared, t: Tid, r: Local, c: Choice, n: NodeId)
    requires n < |sh.heap|
    ensures var sh' := Exec(sh, t, r, c).0; n < |sh'.heap| && FieldsAfter(sh, r, n, sh'.heap[n])
  {
    hide ExecFind, ExecRemove, ExecUnlink, ExecInsert, ExecCall;
    if InFind(r.pc) { FindFields(sh, t, r, c, n); }
    else if InUnlink(r.pc) { UnlinkFields(sh, t, r, n); }
    else if InRemoval(r.pc) { RemoveFields(sh, t, r, n); }
    else if InInsert(r.pc) { InsertFields(sh, t, r, c, n); }
    else { CallFields(sh, r, c); }
  }

  lemma FindFields(sh: Shared, t: Tid, r: Local, c: Choice, n: NodeId)
    requires n < |sh.heap| && InFind(r.pc)
    ensures var sh' := ExecFind(sh, t, r, c).0; n < |sh'.heap| && FieldsAfter(sh, r, n, sh'.heap[n])
  {
    hide Decide, Examine, AfterFind;
  }

  lemma UnlinkFields(sh: Shared, t: Tid, r: Local, n: NodeId)
    requires n < |sh.heap| && InUnlink(r.pc)
    ensures var sh' := ExecUnlink(sh, t, r).0; n < |sh'.heap| && FieldsAfter(sh, r, n, sh'.heap[n])
  {
    hide AfterUnlink, NextUnlink;
  }

  lemma RemoveFields(sh: Shared, t: Tid, r: Local, n: NodeId)
    requires n < |sh.heap| && InRemoval(r.pc) && !InUnlink(r.pc)
    ensures var sh' := ExecRemove(sh, t, r).0; n < |sh'.heap| && FieldsAfter(sh, r, n, sh'.heap[n])
  {
    hide AfterTagged, AfterLost, AfterTagError;
  }

  lemma InsertFields(sh: Shared, t: Tid, r: Local, c: Choice, n: NodeId)
    requires n < |sh.heap| && InInsert(r.pc)
    ensures var sh' := ExecInsert(sh, t, r, c).0; n < |sh'.heap| && FieldsAfter(sh, r, n, sh'.heap[n])
  {
    hide ExecLink;
    if r.newNode.Some? && r.newNode.value < |sh.heap| && !r.pc.Create? {
      hide FieldsAfter;
      LevelFields(sh, r, r.newNode.value, n);
    }
  }

  lemma LevelFields(sh: Shared, r: Local, m: NodeId, n: NodeId)
    requires n < |sh.heap| && InInsert(r.pc) && m < |sh.heap| && r.newNode == Some(m)
    ensures var sh' := ExecLink(sh, r, m, sh.heap[m]).0; n < |sh'.heap| && FieldsAfter(sh, r, n, sh'.heap[n])
  {
    hide InsertAfter, Search;
  }

  lemma CallFields(sh: Shared, r: Local, c: Choice)
    ensures ExecCall(sh, r, c).0.heap == sh.heap
  {
  }

  // ------------------------------------------------------------------ the words of a whole run

  /** The packed words of all nodes, and for each thread the whole word that `set_removed` last loaded. */
  datatype Memory = Memory(words: seq<Usize>, seen: seq<Usize>)

  /** A run begins with the words that its towers have. */
  ghost predicate Begins(s: State, m: Memory) {
    |m.words| == |s.sh.heap| && m.seen == [] && forall n :: 0 <= n < |m.words| ==> Represents(m.words[n], s.sh.heap[n])
  }

  /** What a step of thread t makes of the words; a new node starts with its bare height. */
  function After(s: State, t: Tid, c: Choice, m: Memory): Memory
    requires t < |s.th| == |m.seen| && |m.words| == |s.sh.heap|
  {
    var r := s.th[t];
    var words := seq(|m.words|, n requires 0 <= n < |m.words| => WordAfter(r, n, m.words[n], m.seen[t]));
    Memory(
      if r.pc.Create? && 1 <= c.height <= HEIGHT then words + [c.height] else words,
      if r.pc.SLoad? && r.target < |m.words| then m.seen[t := m.words[r.target]] else m.seen)
  }

  ghost predicate Follows(s: State, s': State, m: Memory, m': Memory) {
    && |m.words| == |s.sh.heap| && |m.seen| == |s.th|
    && (|| (s' == s.(th := s.th + [IDLE]) && m' == m.(seen := m.seen + [0]))
        || exists t, c :: Steps(s, s', t, c) && m' == After(s, t, c, m))
  }

  /** ms is what happens to the packed words during the run tr. */
  ghost predicate Machine(tr: seq<State>, ms: seq<Memory>) {
    && |ms| == |tr| >= 1 && Begins(tr[0], ms[0])
    && forall k :: 0 <= k < |tr| - 1 ==> Follows(tr[k], tr[k + 1], ms[k], ms[k + 1])
  }

  /** The word that a thread has loaded in `set_removed` holds the fields that the protocol remembers of it. */
  ghost predicate Remembered(sh: Shared, r: Local, seen: Usize) {
    r.pc.SCas? ==>
      r.target < |sh.heap| && P.Height(seen) == sh.heap[r.target].height && P.Refs(seen) == r.pc.refs && !P.Removed(seen)
  }

  /** The machine words are those of the fields. */
  ghost predicate Tracks(s: State, m: Memory) {
    && |m.words| == |s.sh.heap| && |m.seen| == |s.th|
    && (forall n :: 1 <= n < |m.words| ==> Represents(m.words[n], s.sh.heap[n]))
    && (forall t :: 0 <= t < |m.seen| ==> Remembered(s.sh, s.th[t], m.seen[t]))
  }

  /** One word, one step. */
  lemma WordStep(tr: seq<State>, k: nat, t: Tid, c: Choice, n: NodeId, w: Usize, seen: Usize)
    requires Run(tr) && k + 1 < |tr| && Steps(tr[k], tr[k + 1], t, c)
    requires n != HEAD && n < |tr[k].sh.heap| && Represents(w, tr[k].sh.heap[n])
    requires Remembered(tr[k].sh, tr[k].th[t], seen)
    ensures n < |tr[k + 1].sh.heap| && Represents(WordAfter(tr[k].th[t], n, w, seen), tr[k + 1].sh.heap[n])
  {
    hide Run, Exec, HoldingLevels;
    var r := tr[k].th[t];
    StepFields(tr[k].sh, t, r, c, n);
    RefsAccount(tr, k, n);
    RefsAccount(tr, k + 1, n);
    P.AddRefFields(w);
    P.SubRefFields(w);
    P.WordsAgree(w, seen);
    P.WithRemovedFields(seen);
  }

  /** Heights are legal, and the only new node is the one just created. */
  lemma HeapStep(s: State, s': State, t: Tid, c: Choice)
    requires Inv(s) && Steps(s, s', t, c)
    ensures var r := s.th[t];
            if r.pc.Create? && 1 <= c.height <= HEIGHT then
              |s'.sh.heap| == |s.sh.heap| + 1 && Represents(c.height, s'.sh.heap[|s.sh.heap|])
            else |s'.sh.heap| == |s.sh.heap|
  {
    hide Inv, ExecFind, ExecUnlink, ExecRemove, ExecCall;
    var r := s.th[t];
    if InFind(r.pc) { FindSize(s.sh, t, r, c); } else if InRemoval(r.pc) { RemovalSize(s.sh, t, r); } else { CallSize(s.sh, r, c); }
  }

  lemma FindSize(sh: Shared, t: Tid, r: Local, c: Choice)
    ensures |ExecFind(sh, t, r, c).0.heap| == |sh.heap|
  {
    hide Decide, Examine, AfterFind;
  }

  lemma RemovalSize(sh: Shared, t: Tid, r: Local)
    ensures |ExecRemove(sh, t, r).0.heap| == |ExecUnlink(sh, t, r).0.heap| == |sh.heap|
  {
    hide AfterLost, AfterTagged, AfterUnlink;
  }

  lemma CallSize(sh: Shared, r: Local, c: Choice)
    ensures |ExecCall(sh, r, c).0.heap| == |sh.heap|
  {
  }

  /** What a thread remembers of its loaded word stays true, and is true when it has just loaded it. */
  lemma SeenStep(s: State, s': State, t: Tid, c: Choice, u: Tid, m: Memory)
    requires Inv(s) && Inv(s') && Steps(s, s', t, c) && Mono(s.sh, s'.sh) && Tracks(s, m) && u < |s'.th|
    ensures |After(s, t, c, m).seen| == |s.th| && Remembered(s'.sh, s'.th[u], After(s, t, c, m).seen[u])
  {
    hide SharedInv, Mono, ExecFind, ExecUnlink, ExecCall, RegsOk, InsertInv, FindInv;
    var r := s.th[u];
    assert LocalInv(s.sh, u, r) && LocalInv(s'.sh, u, s'.th[u]);
    assert Remembered(s.sh, r, m.seen[u]);
    if u != t {
      if r.pc.SCas? { NodeKept(s.sh, s'.sh, r.target); }
    } else if s'.th[u].pc.SCas? {
      NotScas(s.sh, t, r, c);
      LoadsTarget(s.sh, t, r);
    }
  }

  /** Only the load of `set_removed` leads to its compare-exchange. */
  lemma NotScas(sh: Shared, t: Tid, r: Local, c: Choice)
    ensures Exec(sh, t, r, c).1.pc.SCas? ==> r.pc.SLoad? && !InFind(r.pc) && !InUnlink(r.pc) && !InInsert(r.pc)
  {
    hide ExecFind, ExecRemove, ExecUnlink, ExecInsert, ExecCall;
    if InFind(r.pc) { FindNotScas(sh, t, r, c); }
    else if InRemoval(r.pc) { RemovalNotScas(sh, t, r); }
    else if InInsert(r.pc) { InsertNotScas(sh, t, r, c); }
    else { CallNotScas(sh, r, c); }
  }

  lemma FindNotScas(sh: Shared, t: Tid, r: Local, c: Choice)
    requires InFind(r.pc)
    ensures !ExecFind(sh, t, r, c).1.pc.SCas?
  {
    hide ActUnlink, ActSub, ActRetire;
  }

  lemma RemovalNotScas(sh: Shared, t: Tid, r: Local)
    requires InRemoval(r.pc)
    ensures InUnlink(r.pc) ==> !ExecUnlink(sh, t, r).1.pc.SCas?
    ensures !InUnlink(r.pc) && ExecRemove(sh, t, r).1.pc.SCas? ==> r.pc.SLoad?
  {
    hide ActUnlink, ActSub, ActRetire, ActTag, ActRemove;
  }

  lemma InsertNotScas(sh: Shared, t: Tid, r: Local, c: Choice)
    requires InInsert(r.pc)
    ensures !ExecInsert(sh, t, r, c).1.pc.SCas?
  {
    hide ActCreate, ActCount, ActReserve, ActUnreserve, ActLink;
  }

  lemma CallNotScas(sh: Shared, r: Local, c: Choice)
    requires !InRemoval(r.pc)
    ensures ExecCall(sh, r, c).1.pc.SCas? ==> r.pc.SCas?
  {
    hide ActGive;
  }

  lemma LoadsTarget(sh: Shared, t: Tid, r: Local)
    requires SharedInv(sh) && r.pc.SLoad? && RemovalInv(sh, t, r)
    ensures r.target != HEAD && r.target < |sh.heap| && ExecRemove(sh, t, r).0 == sh
    ensures ExecRemove(sh, t, r).1.pc.SCas? ==>
              ExecRemove(sh, t, r).1 == r.(pc := SCas(sh.heap[r.target].refs)) && !sh.heap[r.target].removed
  {
    hide SharedInv;
  }

  lemma TracksStep(tr: seq<State>, k: nat, t: Tid, c: Choice, m: Memory)
    requires Run(tr) && k + 1 < |tr| && Steps(tr[k], tr[k + 1], t, c) && Tracks(tr[k], m)
    ensures Tracks(tr[k + 1], After(tr[k], t, c, m))
  {
    hide Inv, Run, Exec, Remembered, Represents, WordAfter, Mono;
    var s, s' := tr[k], tr[k + 1];
    RunInv(tr, k);
    RunInv(tr, k + 1);
    RunMono(tr, k, k + 1);
    HeapStep(s, s', t, c);
    var m' := After(s, t, c, m);
    assert Remembered(s.sh, s.th[t], m.seen[t]);
    forall n | 1 <= n < |m'.words| ensures Represents(m'.words[n], s'.sh.heap[n]) {
      if n < |m.words| { WordStep(tr, k, t, c, n, m.words[n], m.seen[t]); }
    }
    forall u | 0 <= u < |m'.seen| ensures Remembered(s'.sh, s'.th[u], m'.seen[u]) { SeenStep(s, s', t, c, u, m); }
  }

  /**
    In every run the packed words, updated with the wrapping arithmetic and the whole-word compare-exchange
    of the code, are in every state the words of the protocol's fields, and so are the words that threads
    have loaded: no count ever overflows into the removed bit or borrows from it.
   */
  lemma {:induction false} WordTracks(tr: seq<State>, ms: seq<Memory>, k: nat)
    requires Run(tr) && Machine(tr, ms) && k < |tr|
    ensures Tracks(tr[k], ms[k])
    decreases k
  {
    hide Exec, Built, Remembered, Represents, After;
    if k > 0 {
      WordTracks(tr, ms, k - 1);
      assert Follows(tr[k - 1], tr[k], ms[k - 1], ms[k]);
      if tr[k] == tr[k - 1].(th := tr[k - 1].th + [IDLE]) {
        SpawnTracks(tr[k - 1], tr[k], ms[k - 1]);
      } else {
        var t: Tid, c :| Steps(tr[k - 1], tr[k], t, c) && ms[k] == After(tr[k - 1], t, c, ms[k - 1]);
        TracksStep(tr, k - 1, t, c, ms[k - 1]);
      }
    }
  }

  lemma SpawnTracks(s: State, s': State, m: Memory)
    requires Tracks(s, m) && s' == s.(th := s.th + [IDLE])
    ensures Tracks(s', m.(seen := m.seen + [0]))
  {
    hide Represents;
  }

  /** Every run has its machine words. */
  lemma {:induction false} MachineExists(tr: seq<State>) returns (ms: seq<Memory>)
    requires Run(tr)
    ensures Machine(tr, ms)
  {
    hide Exec, Built, After, Represents;
    if |tr| == 1 {
      var ts :| SyncStart.Row(ts) && tr[0].sh == Built(ts);
      var m := FirstWords(tr[0], ts);
      ms := [m];
    } else {
      var n := |tr| - 1;
      ShorterRun(tr);
      var rest := MachineExists(tr[..n]);
      WordTracks(tr[..n], rest, n - 1);
      assert Next(tr[n - 1], tr[n]);
      var m := rest[n - 1];
      var m': Memory;
      if tr[n] == tr[n - 1].(th := tr[n - 1].th + [IDLE]) {
        m' := m.(seen := m.seen + [0]);
      } else {
        var t: Tid, c :| Steps(tr[n - 1], tr[n], t, c);
        m' := After(tr[n - 1], t, c, m);
      }
      ms := rest + [m'];
      forall k | 0 <= k < |tr| - 1 ensures Follows(tr[k], tr[k + 1], ms[k], ms[k + 1]) {
        if k < n - 1 { assert Follows(tr[..n][k], tr[..n][k + 1], rest[k], rest[k + 1]); }
      }
    }
  }

  lemma ShorterRun(tr: seq<State>)
    requires Run(tr) && |tr| > 1
    ensures Run(tr[..|tr| - 1])
  {
    hide Next, Initial;
    var n := |tr| - 1;
    forall k | 0 <= k < n - 1 ensures Next(tr[..n][k], tr[..n][k + 1]) { assert Next(tr[k], tr[k + 1]); }
  }

  lemma FirstWords(s: State, ts: seq<Tower>) returns (m: Memory)
    requires SyncStart.Row(ts) && s.sh == Built(ts)
    ensures Begins(s, m)
  {
    hide Inv;
    var hs := Heights(ts);
    var words := seq(|ts| + 1, n requires 0 <= n < |ts| + 1 => P.Pack(P.Fields(hs[n], if n == 0 then 0 else hs[n], false)));
    m := Memory(words, []);
    forall n | 0 <= n < |words| ensures Represents(words[n], s.sh.heap[n]) {
      P.PackUnpack(words[n], P.Fields(hs[n], if n == 0 then 0 else hs[n], false));
    }
  }

  /** The height read from the word at any later moment is the one the node was created with. */
  lemma LayoutKept(tr: seq<State>, j: nat, k: nat, n: NodeId, w: Usize, w': Usize)
    requires Run(tr) && j <= k < |tr| && n < |tr[j].sh.heap|
    ensures n < |tr[k].sh.heap|
    ensures Represents(w, tr[j].sh.heap[n]) && Represents(w', tr[k].sh.heap[n]) ==> P.Height(w') == P.Height(w)
  {
    hide Run, Mono;
    RunMono(tr, j, k);
    NodeKept(tr[j].sh, tr[k].sh, n);
  }
}
