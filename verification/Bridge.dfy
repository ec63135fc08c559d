/**
  `From`: the towers of the single-threaded list, word for word, taken over as the memory of the
  lock-free list.
 */
module Bridge {
  import opened Common
  import opened Towers
  import opened SyncState
  import opened SyncExec
  import opened SyncInv
  import opened SyncStart
  import opened SyncTheorems
  import opened SyncRefine
  import opened Solo
  import opened SoloHistories
  import Pairs
  import SeqList

  // ------------------------------------------------------------------ the memory image

  /** The name of a node in the lock-free list: its position in the row. */
  ghost function PosOf(s: seq<SeqList.Node>, n: SeqList.Node): (p: nat)
    requires n in s
    ensures p < |s| && s[p] == n
  {
    var p :| 0 <= p < |s| && s[p] == n; p
  }

  /** A word of a tower. A pointer that led outside the row would get a name beyond it. */
  ghost function ImageOfWord(s: seq<SeqList.Node>, l: SeqList.Link): Word {
    Word(if l.ptr == null then None else if l.ptr in s then Some(PosOf(s, l.ptr)) else Some(|s|), l.tag)
  }

  /** A node as it lies in memory; the head has neither key nor value. */
  ghost function ImageOf(s: seq<SeqList.Node>, p: nat): Node
    requires p < |s|
    reads s[p], s[p].levels
  {
    var n := s[p];
    Node(if p == 0 then 0 else n.key, if p == 0 then 0 else n.val, n.height, n.refs, n.removed,
         seq(n.levels.Length, i requires 0 <= i < n.levels.Length reads n.levels => ImageOfWord(s, n.levels[i])))
  }

  ghost function Image(s: seq<SeqList.Node>): (heap: seq<Node>)
    reads SeqList.Footprint(s)
  {
    seq(|s|, p requires 0 <= p < |s| reads SeqList.Footprint(s) =>
      assert s[p] in s; ImageOf(s, p))
  }

  ghost function ToTowers(s: seq<SeqList.Node>): (ts: seq<Tower>)
    requires |s| >= 1
    reads set n | n in s
    ensures |ts| == |s| - 1
    ensures forall p :: 0 <= p < |ts| ==> ts[p] == Tower(s[p + 1].key, s[p + 1].val, s[p + 1].height)
  {
    seq(|s| - 1, p requires 0 <= p < |s| - 1 reads set n | n in s => Tower(s[p + 1].key, s[p + 1].val, s[p + 1].height))
  }

  /** The converted list: the memory as it is, and the auxiliary history of a list all of whose nodes are linked. */
  ghost function Converted(list: SeqList.SkipList): Shared
    requires list.Valid()
    reads list, SeqList.Footprint(list.spine)
  {
    Built(ToTowers(list.spine)).(heap := Image(list.spine), len := list.len)
  }

  // ------------------------------------------------------------------ the image is a row of towers

  lemma TowersRow(s: seq<SeqList.Node>)
    requires SeqList.Row(s)
    ensures Row(ToTowers(s)) && Heights(ToTowers(s)) == SeqList.HeightsOf(s)
  {
  }

  lemma PosUnique(s: seq<SeqList.Node>, p: nat)
    requires SeqList.Row(s) && p < |s|
    ensures s[p] in s && PosOf(s, s[p]) == p
  {
  }

  lemma WordImage(s: seq<SeqList.Node>, p: nat, i: nat)
    requires SeqList.Row(s) && SeqList.Wired(s) && p < |s| && i < s[p].height
    ensures i < s[p].levels.Length && ImageOfWord(s, s[p].levels[i]) == WordAt(SeqList.HeightsOf(s), p, i)
  {
    var q := NextAt(SeqList.HeightsOf(s), p + 1, i);
    assert s[p].levels[i] == SeqList.Link(SeqList.Succ(s, p, i), false);
    if q < |s| { PosUnique(s, q); }
  }

  /** What the bookkeeping says about one node. */
  lemma NodeFields(list: SeqList.SkipList, p: nat)
    requires list.Valid() && p < |list.spine|
    ensures var n := list.spine[p]; n.refs == (if p == 0 then 0 else n.height) && !n.removed
    ensures var n := list.spine[p]; n.levels.Length == n.height && (p == 0 ==> n.height == HEIGHT)
    ensures SeqList.Row(list.spine) && SeqList.Wired(list.spine)
  {
    hide SeqList.Wired;
    assert list.spine[p] in list.spine;
  }

  lemma NodeImage(list: SeqList.SkipList, p: nat)
    requires list.Valid() && p < |list.spine|
    ensures ImageOf(list.spine, p) == NodeAt(ToTowers(list.spine), p)
  {
    hide SeqList.SkipList.Valid, SeqList.Row, SeqList.Wired, ImageOfWord, WordAt;
    var s := list.spine;
    NodeFields(list, p);
    TowersRow(s);
    var a, b := ImageOf(s, p).levels, NodeAt(ToTowers(s), p).levels;
    forall i | 0 <= i < |a| ensures a[i] == b[i] { WordImage(s, p, i); }
    assert a == b;
  }

  /**
    The memory of every single-threaded list is that of a row of towers: one reference per level, nothing
    removed, nothing tagged, `len` nodes.
   */
  lemma ConvertedIsBuilt(list: SeqList.SkipList)
    requires list.Valid()
    ensures Row(ToTowers(list.spine)) && Converted(list) == Built(ToTowers(list.spine))
  {
    var ts := ToTowers(list.spine);
    TowersRow(list.spine);
    var a, b := Image(list.spine), Built(ts).heap;
    forall p | 0 <= p < |a| ensures a[p] == b[p] { NodeImage(list, p); }
    assert a == b;
  }

  /** The protocol starts in a valid state: every run may start from a converted list. */
  lemma ConvertedStarts(list: SeqList.SkipList)
    requires list.Valid()
    ensures SharedInv(Converted(list)) && Initial(State(Converted(list), []))
    ensures forall n :: 1 <= n < |Converted(list).heap| ==>
              var x := Converted(list).heap[n]; x.refs == x.height && !x.removed && forall i :: 0 <= i < |x.levels| ==> !x.levels[i].tag
  {
    hide SharedInv;
    ConvertedIsBuilt(list);
    BuiltInv(ToTowers(list.spine));
  }

  // ------------------------------------------------------------------ the same map

  lemma BuiltBottom(ts: seq<Tower>)
    requires Row(ts)
    ensures |Chain(Built(ts), 0)| == |ts| + 1
    ensures forall p :: 0 <= p <= |ts| ==> Chain(Built(ts), 0)[p] == p
  {
    PositionsAll(Heights(ts), 0, 0);
  }

  lemma BuiltLive(ts: seq<Tower>, n: NodeId)
    requires Row(ts)
    ensures n in Live(Built(ts)) <==> 1 <= n <= |ts|
  {
    BuiltBottom(ts);
    if 1 <= n <= |ts| { assert Chain(Built(ts), 0)[n] == n; }
  }

  /** The lock-free list stands for the same map as the list it was made from. */
  lemma ConvertedMap(list: SeqList.SkipList)
    requires list.Valid()
    ensures Abs(Converted(list)) == list.Model()
  {
    hide SharedInv, Abs, Built, Converted, Row;
    var s := list.spine;
    ConvertedIsBuilt(list);
    BuiltMap(ToTowers(s), list.Contents());
  }

  /** A row of towers stands for the map of its keys and values. */
  lemma {:induction false} BuiltMap(ts: seq<Tower>, c: seq<Pairs.Pair>)
    requires Row(ts) && Pairs.Ascending(c) && |c| == |ts|
    requires forall i :: 0 <= i < |ts| ==> c[i] == Pairs.Pair(ts[i].key, ts[i].val)
    ensures Abs(Built(ts)) == Pairs.MapOf(c)
  {
    hide SharedInv, Abs, Live;
    var sh := Built(ts);
    BuiltInv(ts);
    forall k | k in Abs(sh) ensures k in Pairs.MapOf(c) {
      var n := AbsHas(sh, k);
      BuiltLive(ts, n);
      Pairs.MapOfAt(c, n - 1);
    }
    forall k | k in Pairs.MapOf(c) ensures k in Abs(sh) && Abs(sh)[k] == Pairs.MapOf(c)[k] {
      Pairs.MapOfHas(c, k);
      var i :| 0 <= i < |c| && c[i].key == k;
      Pairs.MapOfAt(c, i);
      BuiltLive(ts, i + 1);
      AbsAt(sh, i + 1);
    }
  }

  /**
    Histories of undisturbed calls may go on from a converted list: all its nodes are linked at all their
    levels, and the `max_height` that it brings along bounds their heights.
   */
  lemma ConvertedInPlace(list: SeqList.SkipList)
    requires list.Valid()
    ensures Quiet(Converted(list), None) && Clean(Converted(list), None) && InPlace(Converted(list), list.maxHeight)
  {
    hide SharedInv, Quiet, Clean, InPlace, Built;
    ConvertedIsBuilt(list);
    BuiltInPlace(ToTowers(list.spine), list.maxHeight);
  }

  // ------------------------------------------------------------------ the chains of the single-threaded list

  /**
    At every level the pointers, followed from the head, visit exactly the nodes tall enough for it, in the
    order of level 0, and then end; no word carries a tag.
   */
  lemma {:induction false} LevelChain(list: SeqList.SkipList, i: nat)
    requires list.Valid() && i < HEIGHT
    ensures var hs := SeqList.HeightsOf(list.spine); Filtered(hs, 0, i, Positions(hs, 0, i))
    ensures forall k :: 0 <= k < |Positions(SeqList.HeightsOf(list.spine), 0, i)| ==> LevelLink(list, i, k)
  {
    var hs := SeqList.HeightsOf(list.spine);
    var c := Positions(hs, 0, i);
    PositionsFilter(hs, 0, i);
    forall k | 0 <= k < |c| ensures LevelLink(list, i, k) {
      PositionsFollow(hs, 0, i, c, k);
      list.WordIs(c[k], i);
    }
  }

  /** The k-th node of level i points, untagged, to the next one of that level. */
  ghost predicate LevelLink(list: SeqList.SkipList, i: nat, k: nat)
    reads list, SeqList.Footprint(list.spine)
  {
    var s := list.spine;
    var c := Positions(SeqList.HeightsOf(s), 0, i);
    k < |c| && c[k] < |s| && i < s[c[k]].levels.Length
    && (k + 1 < |c| ==> c[k + 1] < |s|)
    && s[c[k]].levels[i] == SeqList.Link(if k + 1 < |c| then s[c[k + 1]] else null, false)
  }
}
