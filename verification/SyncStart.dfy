/**
  The states in which the lock-free list begins: a row of towers without tags or removals, each holding
  one reference per level. The empty row is a new list; the other rows are what `From` takes over from
  the sequential list.
 */
module SyncStart {
  import opened Common
  import opened Towers
  import opened SyncState
  import opened SyncExec
  import opened SyncInv
  import opened SyncSteps

  datatype Tower = Tower(key: int, val: int, height: nat)

  /** The towers of a row have legal heights and strictly increasing keys. */
  ghost predicate Row(ts: seq<Tower>) {
    && (forall p :: 0 <= p < |ts| ==> 1 <= ts[p].height <= HEIGHT)
    && (forall p, q :: 0 <= p < q < |ts| ==> ts[p].key < ts[q].key)
  }

  /** The heights of the row, with the head in front. */
  function Heights(ts: seq<Tower>): (hs: seq<nat>)
    ensures |hs| == |ts| + 1 && hs[0] == HEIGHT
    ensures forall p :: 1 <= p < |hs| ==> hs[p] == ts[p - 1].height
  {
    [HEIGHT] + seq(|ts|, p requires 0 <= p < |ts| => ts[p].height)
  }

  /** The word of the p-th tower at level i. */
  function WordAt(hs: seq<nat>, p: nat, i: nat): Word
    requires p < |hs|
  {
    var q := NextAt(hs, p + 1, i);
    Word(if q < |hs| then Some(q) else None, false)
  }

  function NodeAt(ts: seq<Tower>, p: nat): Node
    requires p <= |ts|
  {
    var hs := Heights(ts);
    var words := seq(hs[p], i requires 0 <= i => WordAt(hs, p, i));
    if p == 0 then Node(0, 0, HEIGHT, 0, false, words)
    else Node(ts[p - 1].key, ts[p - 1].val, hs[p], hs[p], false, words)
  }

  function ShadowAt(ts: seq<Tower>, p: nat): Shadow
    requires p <= |ts|
  {
    Shadow(0, Repeat(Heights(ts)[p], Linked), None, None)
  }

  /** The positions 1 to n. */
  function UpTo(n: nat): (s: set<nat>)
    ensures |s| == n && forall p: nat :: p in s <==> 1 <= p <= n
  {
    if n == 0 then {} else UpTo(n - 1) + {n}
  }

  function Built(ts: seq<Tower>): Shared {
    Shared(
      seq(|ts| + 1, p requires 0 <= p < |ts| + 1 => NodeAt(ts, p)),
      |ts|, [], [], {},
      seq(|ts| + 1, p requires 0 <= p < |ts| + 1 => ShadowAt(ts, p)),
      seq(HEIGHT, i requires 0 <= i => Positions(Heights(ts), 0, i)),
      UpTo(|ts|))
  }

  lemma {:induction false} CountHeldAll(h: nat)
    ensures CountHeld(Repeat(h, Linked)) == h
  {
    if h > 0 {
      assert Repeat(h, Linked)[1..] == Repeat(h - 1, Linked);
      CountHeldAll(h - 1);
    }
  }

  lemma BuiltNode(ts: seq<Tower>, p: nat)
    requires Row(ts) && p <= |ts|
    ensures NodeOk(Built(ts), p)
  {
    var sh := Built(ts);
    CountHeldAll(Heights(ts)[p]);
    forall i | 0 <= i < |sh.heap[p].levels| && sh.heap[p].levels[i].ptr.Some?
      ensures Visited(sh, sh.heap[p].levels[i].ptr.value, i)
    {
    }
  }

  lemma BuiltChain(ts: seq<Tower>, i: nat)
    requires Row(ts) && i < HEIGHT
    ensures ChainOk(Built(ts), i)
  {
    var sh := Built(ts);
    var hs := Heights(ts);
    var c := Positions(hs, 0, i);
    PositionsFilter(hs, 0, i);
    assert c[0] == HEAD;
    forall k | 0 <= k < |c| ensures PtrIs(sh, c[k], i, After(c, k)) { PositionsFollow(hs, 0, i, c, k); }
    forall n: NodeId ensures OnChain(sh, n, i) <==> n in c {
      if n in c { var k :| 0 <= k < |c| && c[k] == n; }
    }
  }

  lemma BuiltSorted(ts: seq<Tower>)
    requires Row(ts)
    ensures Sorted(Built(ts), Built(ts).chain[0])
  {
    var sh := Built(ts);
    var c := sh.chain[0];
    PositionsFilter(Heights(ts), 0, 0);
    forall j, k | 1 <= j < k < |c| ensures sh.heap[c[j]].key < sh.heap[c[k]].key {
      assert c[0] < c[j] < c[k];
      assert sh.heap[c[j]].key == ts[c[j] - 1].key && sh.heap[c[k]].key == ts[c[k] - 1].key;
    }
  }

  /** A row of towers satisfies the whole invariant of the lock-free list. */
  lemma BuiltInv(ts: seq<Tower>)
    requires Row(ts)
    ensures SharedInv(Built(ts))
  {
    var sh := Built(ts);
    forall n | 0 <= n < |sh.heap| ensures NodeOk(sh, n) { BuiltNode(ts, n); }
    forall i | 0 <= i < HEIGHT ensures ChainOk(sh, i) { BuiltChain(ts, i); }
    BuiltSorted(ts);
  }

  /** A run starts with any row of towers and no threads. */
  ghost predicate Initial(s: State) {
    s.th == [] && exists ts :: Row(ts) && s.sh == Built(ts)
  }

  /** A run: any interleaving of atomic steps of any number of threads. */
  ghost predicate Run(tr: seq<State>) {
    && |tr| >= 1 && Initial(tr[0])
    && forall k :: 0 <= k < |tr| - 1 ==> Next(tr[k], tr[k + 1])
  }

  lemma {:induction false} RunInv(tr: seq<State>, k: nat)
    requires Run(tr) && k < |tr|
    ensures Inv(tr[k])
    decreases k
  {
    hide SharedInv, LocalInv, Built, Next;
    if k == 0 {
      var ts :| Row(ts) && tr[0].sh == Built(ts);
      BuiltInv(ts);
    } else {
      RunInv(tr, k - 1);
      NextKeeps(tr[k - 1], tr[k]);
    }
  }
}
