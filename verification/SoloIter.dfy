/** `from_iter` and `into_iter` of the lock-free list, by one thread: sorting and removing duplicates. */
module SoloIter {
  import opened Common
  import opened SyncState
  import opened SyncExec
  import opened SyncInv
  import opened SyncStart
  import opened SyncTheorems
  import opened SyncRefine
  import opened Solo
  import opened SoloSteps
  import opened SoloHistories
  import opened Pairs
  import M = SeqRuns

  // ------------------------------------------------------------------ into_iter

  /** The pair that a node holds. */
  ghost function PairIn(heap: seq<Node>, n: NodeId): Pair {
    if n < |heap| then Pair(heap[n].key, heap[n].val) else Pair(0, 0)
  }

  ghost function PairsAt(heap: seq<Node>, c: seq<NodeId>): (ps: seq<Pair>)
    ensures |ps| == |c| && forall i :: 0 <= i < |c| ==> ps[i] == PairIn(heap, c[i])
  {
    seq(|c|, i requires 0 <= i < |c| => PairIn(heap, c[i]))
  }

  /** The nodes behind the head on the bottom chain. */
  ghost function Bottom(sh: Shared): seq<NodeId> {
    if Chain(sh, 0) == [] then [] else Chain(sh, 0)[1..]
  }

  /** `rest` is what the bottom pointers spell out from `next`. */
  ghost predicate Spells(heap: seq<Node>, next: Ptr, rest: seq<NodeId>) {
    && (forall i :: 0 <= i < |rest| ==> rest[i] < |heap| && |heap[rest[i]].levels| > 0)
    && next == (if rest == [] then None else Some(rest[0]))
    && forall i :: 0 <= i < |rest| ==> heap[rest[i]].levels[0].ptr == After(rest, i)
  }

  /** The owning iterator: the memory taken over from the list, and the node to be returned next. */
  class IntoIter {
    const heap: seq<Node>
    var next: Ptr
    ghost var rest: seq<NodeId>
    ghost var freed: seq<NodeId>

    ghost predicate Valid()
      reads this
    {
      Spells(heap, next, rest)
    }

    /** `from_list` keeps the first node and nulls the words of the head, so that dropping the list frees no node. */
    constructor (sh: Shared)
      requires SharedInv(sh)
      ensures Valid() && rest == Bottom(sh) && freed == []
      ensures |heap| == |sh.heap| && forall n :: 1 <= n < |heap| ==> heap[n] == sh.heap[n]
      ensures |heap| > 0 && forall i :: 0 <= i < |heap[HEAD].levels| ==> heap[HEAD].levels[i].ptr == None
    {
      BottomPath(sh);
      heap := sh.heap[HEAD := sh.heap[HEAD].(levels := Repeat(HEIGHT, Word(None, false)))];
      next := sh.heap[HEAD].levels[0].ptr;
      rest, freed := Bottom(sh), [];
    }

    /** Reads the pair out of the node, steps over it and deallocates it. */
    method MoveNext() returns (item: Option<Pair>)
      requires Valid()
      modifies this
      ensures Valid()
      ensures old(rest) == [] ==> item == None && rest == [] && freed == old(freed)
      ensures old(rest) != [] ==>
                && item == Some(PairIn(heap, old(rest)[0]))
                && rest == old(rest)[1..] && freed == old(freed) + [old(rest)[0]]
    {
      if next == None { return None; }
      var n := next.value;
      next := heap[n].levels[0].ptr;
      item := Some(Pair(heap[n].key, heap[n].val));
      freed := freed + [n];
      rest := rest[1..];
    }
  }

  lemma BottomPath(sh: Shared)
    requires SharedInv(sh)
    ensures |sh.heap| > 0 && |sh.heap[HEAD].levels| > 0 && Spells(sh.heap, sh.heap[HEAD].levels[0].ptr, Bottom(sh))
    ensures NoDup(Bottom(sh)) && forall n :: n in Bottom(sh) ==> 1 <= n < |sh.heap|
    ensures Chain(sh, 0) == [HEAD] + Bottom(sh)
  {
    hide NodeOk, Sorted, LenOk, LogsOk;
    var c := Chain(sh, 0);
    assert ChainOk(sh, 0);
    forall k | 0 <= k < |c| ensures PtrIs(sh, c[k], 0, After(c, k)) {}
    assert PtrIs(sh, c[0], 0, After(c, 0));
    var rest := c[1..];
    forall i | 0 <= i < |rest| ensures rest[i] != HEAD && PtrIs(sh, rest[i], 0, After(rest, i)) {
      assert rest[i] == c[i + 1] && After(rest, i) == After(c, i + 1);
    }
  }

  /** Draining yields the pairs of the bottom chain in order, and frees every node of that chain exactly once. */
  method Collect(sh: Shared) returns (out: seq<Pair>, ghost freed: seq<NodeId>)
    requires SharedInv(sh)
    ensures freed == Bottom(sh) && NoDup(freed) && (forall n :: n in freed ==> 1 <= n < |sh.heap|)
    ensures out == PairsAt(sh.heap, Bottom(sh))
  {
    hide SharedInv, Spells, Bottom, PairIn;
    BottomPath(sh);
    var iter := new IntoIter(sh);
    ghost var c, ps := Bottom(sh), PairsAt(iter.heap, Bottom(sh));
    SamePairs(sh.heap, iter.heap, c);
    out := [];
    var item := iter.MoveNext();
    OneOn([], c);
    while item.Some?
      invariant fresh(iter) && iter.Valid() && ps == PairsAt(iter.heap, c)
      invariant iter.freed + iter.rest == c && |out| <= |c| && out == ps[..|out|]
      invariant if item.Some? then |iter.freed| == |out| + 1 && item.value == ps[|out|] else iter.rest == [] && |out| == |iter.freed|
      decreases |c| - |out|
    {
      out := out + [item.value];
      ghost var f, rest := iter.freed, iter.rest;
      item := iter.MoveNext();
      OneOn(f, rest);
    }
    freed := iter.freed;
  }

  lemma OneOn(f: seq<NodeId>, rest: seq<NodeId>)
    ensures rest != [] ==> (f + [rest[0]]) + rest[1..] == f + rest && (f + rest)[|f|] == rest[0]
  {
  }

  lemma SamePairs(heap: seq<Node>, heap': seq<Node>, c: seq<NodeId>)
    requires |heap'| == |heap| && (forall n :: n in c ==> 1 <= n) && forall n :: 1 <= n < |heap| ==> heap'[n] == heap[n]
    ensures PairsAt(heap', c) == PairsAt(heap, c)
  {
    assert forall i :: 0 <= i < |c| ==> c[i] in c;
  }

  /** Draining yields ascending keys; it yields the map exactly when no removed node is left on the bottom chain. */
  lemma CollectedSorted(sh: Shared)
    requires SharedInv(sh)
    ensures Ascending(PairsAt(sh.heap, Bottom(sh)))
    ensures MapOf(PairsAt(sh.heap, Bottom(sh))) == Abs(sh) <==> Clean(sh, None)
  {
    hide SharedInv, Clean, Abs, Bottom, MapOf;
    BottomAscends(sh);
    if Clean(sh, None) { CleanCollects(sh); }
    else {
      var n := Leftover(sh);
      LeftoverKey(sh, n);
    }
  }

  lemma Leftover(sh: Shared) returns (n: NodeId)
    requires !Clean(sh, None)
    ensures n in Chain(sh, 0) && n < |sh.heap| && sh.heap[n].removed
  {
    hide Chain;
    n :| n in Chain(sh, 0) && n < |sh.heap| && sh.heap[n].removed;
  }

  /** The key of a removed node that is still on the bottom chain is drained, and is not in the map. */
  lemma LeftoverKey(sh: Shared, n: NodeId)
    requires SharedInv(sh) && n in Chain(sh, 0) && n < |sh.heap| && sh.heap[n].removed
    ensures sh.heap[n].key in MapOf(PairsAt(sh.heap, Bottom(sh))) && sh.heap[n].key !in Abs(sh)
  {
    hide SharedInv, Abs, Bottom, MapOf;
    BottomPath(sh);
    HeadSolid(sh);
    assert n in [HEAD] + Bottom(sh);
    var i :| 0 <= i < |Bottom(sh)| && Bottom(sh)[i] == n;
    var ps := PairsAt(sh.heap, Bottom(sh));
    MapOfHas(ps, sh.heap[n].key);
    assert ps[i].key == sh.heap[n].key;
    forall m | m in Live(sh) ensures m < |sh.heap| && sh.heap[m].key != sh.heap[n].key {
      var j := BottomIndex(sh, m);
      LiveSolid(sh, m);
      assert i != j;
      BottomAscends(sh);
    }
    if sh.heap[n].key in Abs(sh) { var m := AbsHas(sh, sh.heap[n].key); }
  }

  lemma LiveSolid(sh: Shared, n: NodeId)
    requires n in Live(sh)
    ensures n < |sh.heap| && !sh.heap[n].removed
  {
  }

  lemma CleanCollects(sh: Shared)
    requires SharedInv(sh) && Clean(sh, None)
    ensures MapOf(PairsAt(sh.heap, Bottom(sh))) == Abs(sh)
  {
    hide SharedInv, Clean, Abs, Bottom;
    var ps := PairsAt(sh.heap, Bottom(sh));
    BottomAscends(sh);
    forall k | k in Abs(sh) ensures k in MapOf(ps) && MapOf(ps)[k] == Abs(sh)[k] {
      var n := AbsHas(sh, k);
      var i := BottomIndex(sh, n);
      MapOfAt(ps, i);
    }
    forall k | k in MapOf(ps) ensures k in Abs(sh) {
      MapOfHas(ps, k);
      var i :| 0 <= i < |ps| && ps[i].key == k;
      BottomLive(sh, i);
      AbsAt(sh, Bottom(sh)[i]);
    }
  }

  lemma BottomAscends(sh: Shared)
    requires SharedInv(sh)
    ensures Ascending(PairsAt(sh.heap, Bottom(sh)))
  {
    hide NodeOk, LenOk, LogsOk;
    assert ChainOk(sh, 0);
    forall i | 0 <= i < |Bottom(sh)| ensures Bottom(sh)[i] == Chain(sh, 0)[i + 1] {}
  }

  lemma BottomIndex(sh: Shared, n: NodeId) returns (i: nat)
    requires SharedInv(sh) && n in Live(sh)
    ensures i < |Bottom(sh)| && Bottom(sh)[i] == n && n < |sh.heap|
  {
    hide SharedInv, Bottom;
    BottomPath(sh);
    assert n in [HEAD] + Bottom(sh);
    i :| 0 <= i < |Bottom(sh)| && Bottom(sh)[i] == n;
  }

  lemma BottomLive(sh: Shared, i: nat)
    requires SharedInv(sh) && Clean(sh, None) && i < |Bottom(sh)|
    ensures Bottom(sh)[i] in Live(sh)
  {
    hide SharedInv, Bottom;
    BottomPath(sh);
    assert Bottom(sh)[i] in [HEAD] + Bottom(sh);
    assert Bottom(sh)[i] in Bottom(sh);
  }

  // ------------------------------------------------------------------ from_iter

  ghost predicate Inserts(cs: seq<Call>, ps: seq<Pair>) {
    |cs| == |ps| && forall i :: 0 <= i < |cs| ==> cs[i].op == InsertOp(ps[i].key, ps[i].val)
  }

  /** What a list of pairs comes to when later pairs replace earlier ones with the same key. */
  ghost function LastWins(m: map<int, int>, ps: seq<Pair>): map<int, int>
    decreases |ps|
  {
    if ps == [] then m else LastWins(m[ps[0].key := ps[0].val], ps[1..])
  }

  lemma {:induction false} InsertsBuild(m: map<int, int>, cs: seq<Call>, ps: seq<Pair>)
    requires History(cs) && Inserts(cs, ps)
    ensures M.SpecFinal(m, AllOps(cs)) == LastWins(m, ps)
    decreases |cs|
  {
    hide Undisturbed, Joins;
    if |cs| == 1 {
      assert cs[1..] == [] && ps[1..] == [] && AllOps(cs)[1..] == [];
    } else if |cs| > 1 {
      HistoryTail(cs);
      assert AllOps(cs)[1..] == AllOps(cs[1..]);
      InsertsBuild(m[ps[0].key := ps[0].val], cs[1..], ps[1..]);
    }
  }

  lemma EmptyBuilt()
    ensures SharedInv(Built([])) && Quiet(Built([]), None) && Clean(Built([]), None) && Abs(Built([])) == map[]
  {
    BuiltInv([]);
    assert KeysOf(Built([])) == {};
  }

  /** The list after the calls, the empty list if there are none. */
  ghost function Result(cs: seq<Call>): Shared
    requires History(cs)
  {
    if cs == [] then Built([]) else EndOf(cs[|cs| - 1])
  }

  /**
    `from_iter` and then `into_iter`: a list built from any pairs by inserting one after the other drains in
    strictly ascending order of keys, each key with the last value supplied for it.
   */
  lemma {:induction false} SortsAndDeduplicates(cs: seq<Call>, ps: seq<Pair>)
    requires History(cs) && Inserts(cs, ps) && (cs != [] ==> StartOf(cs[0]) == Built([]))
    ensures var sh := Result(cs); var out := PairsAt(sh.heap, Bottom(sh));
            SharedInv(sh) && Ascending(out) && MapOf(out) == LastWins(map[], ps)
  {
    hide Undisturbed, Joins, SharedInv, Quiet, Clean, Abs, Built, Bottom, InPlace;
    EmptyBuilt();
    if cs != [] {
      SoloHistory(cs);
      InsertsBuild(map[], cs, ps);
    }
    CollectedSorted(Result(cs));
  }
}
