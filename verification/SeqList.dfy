/**
  The single-threaded skip list: mutable towers searched and relinked in place. The ghost field `spine`
  lists the head and then all nodes in the order of level 0.
 */
module SeqList {
  import opened Common
  import opened Towers
  import opened Pairs

  /** A `MaybeTagged` word of a tower. */
  datatype Link = Link(ptr: Node?, tag: bool)

  const NIL: Link := Link(null, false)

  class Node {
    const key: int
    var val: int
    const height: nat
    var refs: nat
    var removed: bool
    const levels: array<Link>

    /** `Node::new`: a zeroed tower without references. */
    constructor (key: int, val: int, height: nat)
      ensures this.key == key && this.val == val && this.height == height
      ensures refs == 0 && !removed
      ensures fresh(levels) && levels.Length == height
      ensures forall i :: 0 <= i < height ==> levels[i] == NIL
    {
      this.key, this.val, this.height := key, val, height;
      refs, removed := 0, false;
      levels := new Link[height](_ => NIL);
    }
  }

  /** The heights of a row of nodes. */
  ghost function HeightsOf(s: seq<Node>): (hs: seq<nat>)
    ensures |hs| == |s| && forall p :: 0 <= p < |s| ==> hs[p] == s[p].height
  {
    seq(|s|, p requires 0 <= p < |s| => s[p].height)
  }

  ghost predicate Apart(s: seq<Node>) {
    forall p, q :: 0 <= p < q < |s| ==> s[p] != s[q] && s[p].levels != s[q].levels
  }

  ghost predicate Legal(s: seq<Node>) {
    forall p :: 0 <= p < |s| ==> 1 <= s[p].height <= HEIGHT && s[p].levels.Length == s[p].height
  }

  ghost predicate Ordered(s: seq<Node>) {
    forall p, q :: 1 <= p < q < |s| ==> s[p].key < s[q].key
  }

  /** Distinct towers of legal height behind a head of full height, with strictly increasing keys. */
  ghost predicate Row(s: seq<Node>) {
    |s| >= 1 && s[0].height == HEIGHT && Apart(s) && Legal(s) && Ordered(s)
  }

  /** The node that the p-th tower points to at level i. */
  ghost function Succ(s: seq<Node>, p: nat, i: nat): Node?
    requires p < |s|
  {
    var q := NextAt(HeightsOf(s), p + 1, i);
    if q < |s| then s[q] else null
  }

  /** Every word of every tower leads to the next tower of that level, untagged. */
  ghost predicate Wired(s: seq<Node>)
    requires Row(s)
    reads set n | n in s :: n.levels
  {
    forall p, i :: 0 <= p < |s| && 0 <= i < s[p].height ==> s[p].levels[i] == Link(Succ(s, p, i), false)
  }

  /** k is the last position of a sorted row whose key is below `key`; the head counts as below every key. */
  ghost predicate IsRank(s: seq<Node>, key: int, k: nat) {
    k < |s| && (forall p :: 1 <= p <= k ==> s[p].key < key) && (forall p :: k < p < |s| ==> key <= s[p].key)
  }

  ghost function Rank(s: seq<Node>, key: int): (k: nat)
    requires Row(s)
    ensures IsRank(s, key, k)
  {
    RankExists(s, key);
    var k :| IsRank(s, key, k); k
  }

  lemma RankExists(s: seq<Node>, key: int)
    requires Row(s)
    ensures exists k: nat :: IsRank(s, key, k)
  {
    var k := 0;
    while k + 1 < |s| && s[k + 1].key < key
      invariant k < |s| && forall p :: 1 <= p <= k ==> s[p].key < key
    {
      k := k + 1;
    }
    assert IsRank(s, key, k);
  }

  /** The last position up to k whose tower reaches level i. */
  ghost function LastAt(hs: seq<nat>, k: nat, i: nat): (j: nat)
    requires k < |hs| && i < hs[0]
    ensures j <= k && i < hs[j] && forall r :: j < r <= k ==> hs[r] <= i
  {
    if i < hs[k] then k else LastAt(hs, k - 1, i)
  }

  lemma {:induction false} LastAtIs(hs: seq<nat>, k: nat, i: nat, j: nat)
    requires k < |hs| && i < hs[0] && j <= k && i < hs[j] && forall r :: j < r <= k ==> hs[r] <= i
    ensures LastAt(hs, k, i) == j
  {
  }

  /** The last tower below `key` at level i. */
  ghost function Before(s: seq<Node>, key: int, i: nat): Node
    requires Row(s) && i < HEIGHT
  {
    s[LastAt(HeightsOf(s), Rank(s, key), i)]
  }

  /** prev lists, from `level` up, the last towers below `key`. */
  ghost predicate IsPath(prev: seq<Node>, s: seq<Node>, key: int, level: nat)
    requires Row(s)
  {
    |prev| == HEIGHT && forall i :: level <= i < HEIGHT ==> prev[i] == Before(s, key, i)
  }

  /** The node of the row with the given key. */
  ghost function Match(s: seq<Node>, key: int): Node?
    requires Row(s)
  {
    var k := Rank(s, key);
    if k + 1 < |s| && s[k + 1].key == key then s[k + 1] else null
  }

  ghost function Footprint(s: seq<Node>): set<object> {
    (set n: Node | n in s :: n as object) + (set n: Node | n in s :: n.levels as object)
  }

  /** The keys and values of the regular nodes, in order. */
  ghost function PairsOf(s: seq<Node>): (c: seq<Pair>)
    requires |s| >= 1
    reads set n | n in s
    ensures |c| == |s| - 1 && forall p :: 0 <= p < |c| ==> c[p] == Pair(s[p + 1].key, s[p + 1].val)
  {
    seq(|s| - 1, p requires 0 <= p < |s| - 1 reads set n | n in s => Pair(s[p + 1].key, s[p + 1].val))
  }

  /** The head word of level i is not null exactly when some tower reaches level i. */
  lemma OccupiedWord(s: seq<Node>, i: nat)
    requires Row(s) && Wired(s) && i < HEIGHT
    ensures s[0].levels[i].ptr != null <==> exists p :: 1 <= p < |s| && i < s[p].height
  {
    assert s[0].levels[i] == Link(Succ(s, 0, i), false);
  }

  /** Every node but the head holds one reference per level, and nothing is removed. */
  ghost predicate NodesSettled(s: seq<Node>, head: Node)
    reads set n | n in s
  {
    forall n :: n in s ==> n.refs == (if n == head then 0 else n.height) && !n.removed
  }

  /** Every node ever created is in the row or has been freed, once, and not both. */
  ghost predicate Accounts(s: seq<Node>, head: Node, created: set<Node>, freed: seq<Node>) {
    && head !in created && NoDup(freed)
    && (forall n :: n in created ==> n in freed || n in s)
    && (forall p :: 1 <= p < |s| ==> s[p] in created)
    && (forall n :: n in freed ==> n in created && n !in s)
  }

  lemma InsertAccounts(s: seq<Node>, k: nat, x: Node, head: Node, created: set<Node>, freed: seq<Node>)
    requires k < |s| && Accounts(s, head, created, freed) && x !in created && x != head
    ensures Accounts(InsertAt(s, k, x), head, created + {x}, freed)
  {
    InsertAtElems(s, k, x);
    InsertedMembers(s, k, x);
    hide InsertAt;
  }

  lemma InsertSettled(s: seq<Node>, k: nat, x: Node, head: Node)
    requires k < |s| && NodesSettled(s, head) && x != head && x.refs == x.height && !x.removed
    ensures NodesSettled(InsertAt(s, k, x), head)
  {
    InsertedMembers(s, k, x);
    hide InsertAt;
  }

  lemma RemoveAccounts(s: seq<Node>, k: nat, head: Node, created: set<Node>, freed: seq<Node>)
    requires Row(s) && k + 1 < |s| && Accounts(s, head, created, freed)
    ensures Accounts(RemoveAt(s, k), head, created, freed + [s[k + 1]])
  {
    RemoveAtElems(s, k);
    RemoveMembers(s, k);
    NoDupAppend(freed, s[k + 1]);
    hide RemoveAt, Row;
  }

  lemma RemoveSettled(s: seq<Node>, k: nat, head: Node)
    requires Row(s) && k + 1 < |s| && NodesSettled(s, head)
    ensures NodesSettled(RemoveAt(s, k), head)
  {
    RemoveMembers(s, k);
    hide RemoveAt, Row;
  }

  /** The position of a tallest node, or 0 if there is none. */
  lemma Tallest(s: seq<Node>) returns (q: nat)
    requires |s| >= 1
    ensures q < |s| && (q == 0 ==> |s| == 1) && (q > 0 ==> forall p :: 1 <= p < |s| ==> s[p].height <= s[q].height)
  {
    q := 0;
    for k := 1 to |s|
      invariant q < k && (q == 0 ==> k == 1) && (q > 0 ==> forall p :: 1 <= p < k ==> s[p].height <= s[q].height)
    {
      if q == 0 || s[q].height < s[k].height { q := k; }
    }
  }

  class SkipList {
    const head: Node
    var len: nat
    var maxHeight: nat
    ghost var spine: seq<Node>
    ghost var created: set<Node>   // every node ever inserted
    ghost var freed: seq<Node>     // the nodes deallocated so far, in order

    ghost predicate Valid()
      reads this, Footprint(spine)
    {
      && Row(spine) && spine[0] == head && Wired(spine) && Counted()
    }

    /** The bookkeeping beside the towers. */
    ghost predicate Counted()
      reads this, Footprint(spine)
    {
      && len == |spine| - 1
      && 1 <= maxHeight <= HEIGHT && maxHeight <= |created| + 2
      && (forall p :: 1 <= p < |spine| ==> spine[p].height <= maxHeight)
      && NodesSettled(spine, head) && Accounts(spine, head, created, freed)
    }

    /** What the list holds. */
    ghost function Contents(): (c: seq<Pair>)
      requires Valid()
      reads this, Footprint(spine)
      ensures Ascending(c) && |c| == len
    {
      PairsOf(spine)
    }

    /** The finite map that the list stands for. */
    ghost function Model(): map<int, int>
      requires Valid()
      reads this, Footprint(spine)
    {
      MapOf(Contents())
    }

    constructor ()
      ensures Valid() && Contents() == [] && created == {} && freed == []
      ensures fresh(Footprint(spine))
    {
      var h := new Node(0, 0, HEIGHT);
      head := h;
      len, maxHeight := 0, 1;
      spine, created, freed := [h], {}, [];
    }

    /** Exactly the levels below o are in use. */
    ghost predicate Occupied(o: nat)
      requires Valid()
      reads this, Footprint(spine)
    {
      o <= HEIGHT && forall i :: 0 <= i < HEIGHT ==> (spine[0].levels[i].ptr != null <==> i < o)
    }

    /** The levels in use are the lowest ones, up to the tallest tower; so few insertions make few levels. */
    lemma OccupiedPrefix() returns (o: nat)
      requires Valid()
      ensures Occupied(o) && o <= maxHeight <= |created| + 2
      ensures forall p :: 1 <= p < |spine| ==> spine[p].height <= o
      ensures o >= 1 ==> exists p :: 1 <= p < |spine| && spine[p].height == o
    {
      hide Wired, Apart, Ordered, Accounts, NodesSettled;
      var q := Tallest(spine);
      o := if q == 0 then 0 else spine[q].height;
      forall i | 0 <= i < HEIGHT ensures spine[0].levels[i].ptr != null <==> i < o {
        OccupiedWord(spine, i);
        if i < o { assert i < spine[q].height; }
      }
    }

    /**
      `draw` is the number of trailing zeros of the random seed. The height drawn is cut to the number of
      levels in use plus one, or to 3.
     */
    method GenHeight(draw: nat) returns (height: nat)
      requires Valid()
      modifies this`maxHeight
      ensures 1 <= height <= HEIGHT
      ensures forall o: nat :: old(Occupied(o)) ==> height == CutHeight(draw, o)
      ensures height <= 3 || exists p :: 1 <= p < |spine| && height - 1 <= spine[p].height
      ensures maxHeight == Max(height, old(maxHeight))
    {
      hide Wired, Counted;
      ghost var top := OccupiedPrefix();
      OccupiedHere(top);
      ghost var p: nat := 0;
      if top >= 1 { p :| 1 <= p < |spine| && spine[p].height == top; }
      var drawn := if draw + 1 < HEIGHT then draw + 1 else HEIGHT;
      height := drawn;
      while height >= 4 && head.levels[height - 2].ptr == null
        invariant 1 <= height <= drawn <= HEIGHT
        invariant height < drawn ==> height >= 3 && height > top
      {
        height := height - 1;
      }
      forall o: nat | Occupied(o) ensures o == top { OccupiedOnce(o, top); }
      if height > maxHeight { maxHeight := height; }
      assert height >= 4 ==> 1 <= p < |spine| && height - 1 <= spine[p].height;
    }

    lemma OccupiedHere(o: nat)
      requires Valid() && Occupied(o)
      ensures head.levels.Length == HEIGHT && head == spine[0]
      ensures forall i :: 0 <= i < HEIGHT ==> (head.levels[i].ptr != null <==> i < o)
    {
      hide Wired, Counted;
      assert spine[0] == head && spine[0].levels.Length == spine[0].height;
    }

    /** The first level of a search: `max_height`, lowered past the empty levels to the highest one in use. */
    method StartLevel() returns (level: nat)
      requires Valid()
      ensures Valid() && 1 <= level <= HEIGHT
      ensures forall p :: 1 <= p < |spine| ==> spine[p].height <= level
      ensures forall o: nat :: Occupied(o) ==> level == Max(1, o)
    {
      ghost var top := OccupiedPrefix();
      level := maxHeight;
      while level > 1 && head.levels[level - 1].ptr == null
        invariant 1 <= level <= HEIGHT && top <= level
        invariant forall p :: 1 <= p < |spine| ==> spine[p].height <= level
      {
        assert spine[0].levels[level - 1] == Link(Succ(spine, 0, level - 1), false);
        level := level - 1;
      }
      forall o: nat | Occupied(o) ensures o == top { OccupiedOnce(o, top); }
    }

    lemma OccupiedOnce(o: nat, o': nat)
      requires Valid() && Occupied(o) && Occupied(o')
      ensures o == o'
    {
      if o < HEIGHT { assert spine[0].levels[o].ptr == null; }
      if o' < HEIGHT { assert spine[0].levels[o'].ptr == null; }
    }

    /** What a word of the p-th tower holds. */
    lemma WordIs(p: nat, i: nat)
      requires Valid() && p < |spine| && i < spine[p].height
      ensures i < spine[p].levels.Length && spine[p].levels[i] == Link(Succ(spine, p, i), false)
    {
    }

    lemma RowIs()
      requires Valid()
      ensures Row(spine) && spine[0] == head && head.height == HEIGHT
    {
    }

    /** The successor of a tower at one level. Its own word there is never tagged, so nothing is unlinked. */
    method LoadNext(curr: Node, i: nat, ghost c: nat, ghost key: int) returns (next: Node?, ghost q: nat)
      requires Valid() && Row(spine) && c <= Rank(spine, key) && c < |spine| && curr == spine[c] && i < curr.height
      ensures c < q <= |spine| && (next == null ==> q == |spine|)
      ensures next != null ==> q < |spine| && next == spine[q] && i < next.height
      ensures if next == null || key <= next.key then Before(spine, key, i) == curr && (i == 0 ==> c == Rank(spine, key))
              else q <= Rank(spine, key)
    {
      hide Valid, Row, Rank, Before;
      WordIs(c, i);
      SearchStep(spine, key, c, i);
      next := curr.levels[i].ptr;
      q := NextAt(HeightsOf(spine), c + 1, i);
      if next != null {
        WordIs(q, i);
        if next.levels[i].tag { assert false; }
      }
    }

    /** The search path before the search: the head at every level. */
    method NewPath() returns (prev: array<Node>)
      requires Valid()
      ensures fresh(prev) && prev.Length == HEIGHT && forall i :: 0 <= i < HEIGHT ==> prev[i] == head
      ensures prev as object !in Footprint(spine) && Valid()
    {
      hide Valid;
      prev := new Node[HEIGHT](_ => head);
    }

    /** The end of a search: does the successor of the last tower below `key` carry it? */
    method MatchAfter(curr: Node, key: int) returns (target: Node?)
      requires Valid() && Row(spine) && Rank(spine, key) < |spine| && curr == spine[Rank(spine, key)]
      ensures target == Match(spine, key)
    {
      SearchEnd(spine, key);
      WordIs(Rank(spine, key), 0);
      var next := curr.levels[0].ptr;
      target := if next != null && next.key == key then next else null;
    }

    /** The search path to `key`: at each level the last tower below it, and the node with that key. */
    method Find(key: int) returns (prev: array<Node>, target: Node?)
      requires Valid()
      ensures Row(spine) && fresh(prev) && IsPath(prev[..], spine, key, 0)
      ensures target == Match(spine, key) && (target != null ==> target in spine)
    {
      hide Valid, Row, Rank, Before, Match, IsPath, LastAt;
      RowIs();
      var level := StartLevel();
      prev := NewPath();
      var curr := head;
      ghost var c: nat := 0;
      prev[level - 1] := curr;
      SearchBegin(spine, key, level, prev[..]);
      while level > 0
        invariant prev.Length == HEIGHT && 0 <= level <= HEIGHT
        invariant prev as object !in Footprint(spine) && Valid()
        invariant c <= Rank(spine, key) && c < |spine| && curr == spine[c] && level <= curr.height
        invariant IsPath(prev[..], spine, key, level)
        invariant level == 0 ==> c == Rank(spine, key)
        decreases level, |spine| - c
      {
        var next, q := LoadNext(curr, level - 1, c, key);
        if next == null || next.key >= key {
          PathStep(prev[..], spine, key, level - 1, curr);
          ghost var was := prev[..];
          prev[level - 1] := curr;
          assert prev[..] == was[level - 1 := curr];
          level := level - 1;
        } else {
          curr := next;
          c := q;
        }
      }
      target := MatchAfter(curr, key);
      MatchPairs(spine, key);
    }

    // ---------------------------------------------------------------- insert

    /** Links a new node, level by level, behind the towers of the search path. */
    method LinkNodes(node: Node, prev: array<Node>)
      requires Row(spine) && Wired(spine) && IsPath(prev[..], spine, node.key, 0) && Match(spine, node.key) == null
      requires node !in spine && node.refs == 0 && 1 <= node.height <= HEIGHT && node.levels.Length == node.height
      requires forall n :: n in spine ==> n.levels != node.levels
      modifies this`spine, node`refs, node.levels, set n | n in spine :: n.levels
      ensures spine == InsertAt(old(spine), Rank(old(spine), node.key), node)
      ensures Row(spine) && Wired(spine) && node.refs == node.height
    {
      ghost var s, k := spine, Rank(spine, node.key);
      LinkingStarts(s, k, node);
      var i := 0;
      while i < node.height
        invariant 0 <= i <= node.height && Linking(s, k, node, i)
        invariant IsPath(prev[..], s, node.key, 0)
      {
        assert prev[..][i] == Before(s, node.key, i);
        LinkLevel(s, k, prev[i], node, i);
        i := i + 1;
      }
      LinkedRow(s, k, node);
      spine := InsertAt(s, k, node);
    }

    /** Allocates a node of random height and links it. */
    method NewTower(key: int, val: int, draw: nat, prev: array<Node>) returns (node: Node)
      requires Valid() && Row(spine) && IsPath(prev[..], spine, key, 0) && Match(spine, key) == null
      modifies this`spine, this`maxHeight, set n | n in spine :: n.levels
      ensures fresh(node) && fresh(node.levels) && node.key == key && node.val == val
      ensures node.refs == node.height && !node.removed
      ensures spine == InsertAt(old(spine), Rank(old(spine), key), node) && Row(spine) && Wired(spine)
      ensures forall o: nat :: old(Occupied(o)) ==> node.height == CutHeight(draw, o)
      ensures maxHeight == Max(node.height, old(maxHeight)) <= HEIGHT
      ensures maxHeight <= 3 || maxHeight <= old(maxHeight) + 1
    {
      hide Wired, IsPath, Match, Rank, Succ;
      var height := GenHeight(draw);
      node := new Node(key, val, height);
      LinkNodes(node, prev);
    }

    /** The bookkeeping after a node has been linked. */
    lemma CountedAfterInsert(s: seq<Node>, k: nat, node: Node, created0: set<Node>, max0: nat)
      requires |s| >= 1 && k < |s| && spine == InsertAt(s, k, node) && s[0] == head && node != head && node !in s
      requires len == |s| && 1 <= max0 <= maxHeight <= HEIGHT && max0 <= |created0| + 2
      requires maxHeight <= 3 || maxHeight <= max0 + 1
      requires node.height <= maxHeight && forall p :: 1 <= p < |s| ==> s[p].height <= max0
      requires node.refs == node.height && !node.removed && NodesSettled(s, head)
      requires Accounts(s, head, created0, freed) && node !in created0 && created == created0 + {node}
      ensures Counted()
    {
      InsertAtElems(s, k, node);
      hide InsertAt, Accounts, NodesSettled;
      InsertAccounts(s, k, node, head, created0, freed);
      InsertSettled(s, k, node, head);
    }

    /** What the invariant says, one level down. */
    lemma Facts()
      requires Valid()
      ensures Row(spine) && spine[0] == head && Wired(spine) && len == |spine| - 1
      ensures 1 <= maxHeight <= HEIGHT && maxHeight <= |created| + 2
      ensures forall p :: 1 <= p < |spine| ==> spine[p].height <= maxHeight
      ensures NodesSettled(spine, head) && Accounts(spine, head, created, freed) && head !in created
    {
    }

    /** Counts a node that has just been linked behind position k of the row s. */
    method Register(node: Node, ghost s: seq<Node>, ghost k: nat, ghost max0: nat)
      requires |s| >= 1 && k < |s| && spine == InsertAt(s, k, node) && s[0] == head && node != head && node !in s
      requires Row(spine) && Wired(spine) && len == |s| - 1
      requires 1 <= max0 <= maxHeight <= HEIGHT && max0 <= |created| + 2 && (maxHeight <= 3 || maxHeight <= max0 + 1)
      requires node.height <= maxHeight && forall p :: 1 <= p < |s| ==> s[p].height <= max0
      requires node.refs == node.height && !node.removed && NodesSettled(s, head)
      requires Accounts(s, head, created, freed) && node !in created
      modifies this`len, this`created
      ensures Valid() && |created| == old(|created|) + 1 && old(created) <= created && maxHeight == old(maxHeight)
    {
      hide Wired, NodesSettled, Accounts, Apart, Legal, Ordered;
      InsertAtElems(s, k, node);
      hide InsertAt;
      created := created + {node};
      len := len + 1;
      CountedAfterInsert(s, k, node, old(created), max0);
    }

    /** Links a node with a new key. */
    method InsertNew(key: int, val: int, draw: nat, prev: array<Node>)
      requires Valid() && Row(spine) && IsPath(prev[..], spine, key, 0) && Match(spine, key) == null
      modifies this, set n | n in spine :: n.levels
      ensures Valid() && freed == old(freed) && fresh(Footprint(spine) - old(Footprint(spine)))
      ensures PairsOf(spine) == old(PairsOf(spine))[..Rank(old(spine), key)] + [Pair(key, val)]
                                + old(PairsOf(spine))[Rank(old(spine), key)..]
      ensures |created| == old(|created|) + 1 && old(created) <= created
      ensures forall o: nat :: old(Occupied(o)) ==>
                Gains(old(spine), spine, key, CutHeight(draw, o)) && maxHeight == Max(CutHeight(draw, o), old(maxHeight))
    {
      ghost var s, k := spine, Rank(spine, key);
      hide Valid, Counted, Wired, IsPath, Match, Rank, Succ, NodesSettled, Accounts, Apart, Legal, Ordered, InsertAt, Occupied, CutHeight, Gains, Row;
      Facts();
      var node := NewTower(key, val, draw, prev);
      assert node !in old(created) by { assert allocated(old(created)); }
      Register(node, s, k, old(maxHeight));
      GainsOne(s, k, node);
      InsertPairs(s, k, node);
      FootprintGrows(s, k, node);
      hide PairsOf, Counted;
      assert PairsOf(s) == old(PairsOf(spine));
    }

    /** `internal_insert`: an existing key keeps its node, and its value is replaced only if `replace` is set. */
    method InternalInsert(key: int, val: int, replace: bool, draw: nat) returns (previous: Option<int>)
      requires Valid()
      modifies this, Footprint(spine)
      ensures Valid() && freed == old(freed) && fresh(Footprint(spine) - old(Footprint(spine)))
      ensures key in old(Model()) ==>
                && previous == Some(if replace then old(Model())[key] else val)
                && Model() == (if replace then old(Model())[key := val] else old(Model()))
                && created == old(created) && spine == old(spine)
      ensures key !in old(Model()) ==>
                && previous == None && Model() == old(Model())[key := val]
                && |created| == old(|created|) + 1 && old(created) <= created
      ensures forall o: nat :: old(Occupied(o)) && key !in old(Model()) ==>
                Gains(old(spine), spine, key, CutHeight(draw, o)) && maxHeight == Max(CutHeight(draw, o), old(maxHeight))
    {
      hide Valid, Wired, IsPath, Match, Rank, Succ, Row, Gains;
      var prev, target := Find(key);
      if target != null {
        var v := ReplaceValue(key, val, replace, target);
        return Some(v);
      }
      InsertFresh(key, val, draw, prev);
      return None;
    }

    /** The map after a new key has been linked. */
    method InsertFresh(key: int, val: int, draw: nat, prev: array<Node>)
      requires Valid() && Row(spine) && IsPath(prev[..], spine, key, 0) && Match(spine, key) == null
      modifies this, set n | n in spine :: n.levels
      ensures Valid() && freed == old(freed) && fresh(Footprint(spine) - old(Footprint(spine)))
      ensures key !in old(Model()) && Model() == old(Model())[key := val]
      ensures |created| == old(|created|) + 1 && old(created) <= created
      ensures forall o: nat :: old(Occupied(o)) ==>
                Gains(old(spine), spine, key, CutHeight(draw, o)) && maxHeight == Max(CutHeight(draw, o), old(maxHeight))
    {
      hide Wired, IsPath, Match, Rank, Succ, Gains, Occupied;
      ghost var k := Rank(spine, key);
      ghost var c := PairsOf(spine);
      MatchPairs(spine, key);
      assert c[..k] + c[k..] == c;
      hide Row, Counted, PairsOf, Ascending, MapOf;
      InsertNew(key, val, draw, prev);
      PairsAscend(spine);
      MapOfInsert(c[..k], Pair(key, val), c[k..]);
    }

    /** The key is there: swap the values, or leave the node alone. */
    method ReplaceValue(key: int, val: int, replace: bool, target: Node) returns (v: int)
      requires Valid() && Row(spine) && target == Match(spine, key) && target in spine
      modifies target`val
      ensures Valid()
      ensures key in old(Model()) && v == (if replace then old(Model())[key] else val)
      ensures Model() == (if replace then old(Model())[key := val] else old(Model()))
    {
      hide Match, Rank, Succ, Apart, Legal, Accounts, MapOf;
      MatchPairs(spine, key);
      ghost var k := Rank(spine, key);
      ghost var c := Contents();
      PairsAscend(spine);
      MapOfAt(c, k);
      v := val;
      if replace {
        v := target.val;
        target.val := val;
        ReplacePairs(spine, k, c, val);
      }
    }

    method Insert(key: int, val: int, draw: nat) returns (previous: Option<int>)
      requires Valid()
      modifies this, Footprint(spine)
      ensures Valid() && fresh(Footprint(spine) - old(Footprint(spine))) && freed == old(freed)
      ensures previous == if key in old(Model()) then Some(old(Model())[key]) else None
      ensures Model() == old(Model())[key := val]
      ensures |created| == old(|created|) + if key in old(Model()) then 0 else 1
    {
      hide Valid;
      previous := InternalInsert(key, val, true, draw);
    }

    method InsertConditionally(key: int, val: int, draw: nat) returns (refused: Option<int>)
      requires Valid()
      modifies this, Footprint(spine)
      ensures Valid() && fresh(Footprint(spine) - old(Footprint(spine))) && freed == old(freed)
      ensures refused == if key in old(Model()) then Some(val) else None
      ensures Model() == if key in old(Model()) then old(Model()) else old(Model())[key := val]
      ensures |created| == old(|created|) + if key in old(Model()) then 0 else 1
    {
      hide Valid;
      refused := InternalInsert(key, val, false, draw);
    }

    // ---------------------------------------------------------------- remove

    predicate IsEmpty()
      reads this
    {
      len < 1
    }

    /** Bypasses a node, level by level; the head is never the node. */
    method Unlink(node: Node, prev: array<Node>, ghost key: int)
      requires Row(spine) && Wired(spine) && spine[0] == head && IsPath(prev[..], spine, key, 0)
      requires Rank(spine, key) + 1 < |spine| && node == spine[Rank(spine, key) + 1]
      modifies this`spine, set n | n in spine :: n.levels
      ensures spine == RemoveAt(old(spine), Rank(old(spine), key)) && Row(spine) && Wired(spine)
    {
      HeadFirst(spine, Rank(spine, key) + 1);
      if node == head { assert false; }
      ghost var s, k, path := spine, Rank(spine, key), prev[..];
      hide Row, Wired, Rank, Bypassing, IsPath, RemoveAt;
      BypassingStarts(s, k);
      var i := 0;
      while i < node.height
        invariant 0 <= i <= node.height && Bypassing(s, k, i)
        invariant prev[..] == path
      {
        PathAt(path, s, key, i);
        BypassLevel(s, k, prev[i], node, i);
        i := i + 1;
      }
      BypassedRow(s, k);
      spine := RemoveAt(s, k);
    }

    /** Deallocation of a node that is out of the row and has not been deallocated before. */
    ghost method Dealloc(node: Node)
      requires node in created && node !in freed && node !in spine
      modifies this`freed
      ensures freed == old(freed) + [node]
    {
      freed := freed + [node];
    }

    lemma CountedAfterRemove(s: seq<Node>, k: nat, freed0: seq<Node>)
      requires Row(s) && k + 1 < |s| && spine == RemoveAt(s, k) && s[0] == head
      requires len == |s| - 2 && 1 <= maxHeight <= HEIGHT && maxHeight <= |created| + 2
      requires forall p :: 1 <= p < |s| ==> s[p].height <= maxHeight
      requires NodesSettled(s, head) && Accounts(s, head, created, freed0) && freed == freed0 + [s[k + 1]]
      ensures Counted()
    {
      RemoveAtElems(s, k);
      hide RemoveAt, Accounts, NodesSettled, Row;
      RemoveAccounts(s, k, head, created, freed0);
      RemoveSettled(s, k, head);
    }

    /** Unlinks and frees the node found behind the search path. */
    method RemoveFound(target: Node, prev: array<Node>, ghost key: int)
      requires Valid() && Row(spine) && IsPath(prev[..], spine, key, 0)
      requires Rank(spine, key) + 1 < |spine| && target == spine[Rank(spine, key) + 1]
      modifies this, set n | n in spine :: n.levels
      ensures Valid() && freed == old(freed) + [target] && created == old(created)
      ensures spine == RemoveAt(old(spine), Rank(old(spine), key))
      ensures Rank(old(spine), key) < |old(Contents())|
      ensures Contents() == old(Contents())[..Rank(old(spine), key)] + old(Contents())[Rank(old(spine), key) + 1..]
    {
      hide Wired, IsPath, Rank, Succ, NodesSettled, Accounts, Apart, Legal, Ordered, RemoveAt;
      ghost var s, k := spine, Rank(spine, key);
      NotFreed(s, k, head, created, freed);
      Unlink(target, prev, key);
      RemoveAtElems(s, k);
      Absent(s, k);
      Dealloc(target);
      len := len - 1;
      CountedAfterRemove(s, k, old(freed));
      RemovePairs(s, k);
      hide PairsOf;
      assert PairsOf(s) == old(PairsOf(spine));
    }

    method InternalRemove(key: int) returns (removed: Option<Pair>)
      requires Valid()
      modifies this, Footprint(spine)
      ensures Valid() && Footprint(spine) <= old(Footprint(spine))
      ensures removed == if key in old(Model()) then Some(Pair(key, old(Model())[key])) else None
      ensures Model() == old(Model()) - {key} && created == old(created)
      ensures removed == None ==> freed == old(freed)
      ensures removed.Some? ==> |freed| == |old(freed)| + 1 && old(freed) <= freed && freed[|old(freed)|] in old(spine)
    {
      hide Wired, IsPath, Rank, Succ, Apart, Legal, Ordered, NodesSettled, Accounts, MapOf, Ascending;
      if IsEmpty() {
        assert Contents() == [];
        MapOfEmpty();
        return None;
      }
      var prev, target := Find(key);
      MatchPairs(spine, key);
      if target == null { return None; }
      var pair := RemoveMatched(target, prev, key);
      return Some(pair);
    }

    /** The key is there: read the pair, then unlink and free its node. */
    method RemoveMatched(target: Node, prev: array<Node>, key: int) returns (pair: Pair)
      requires Valid() && Row(spine) && IsPath(prev[..], spine, key, 0) && target == Match(spine, key)
      modifies this, set n | n in spine :: n.levels
      ensures Valid() && Footprint(spine) <= old(Footprint(spine))
      ensures key in old(Model()) && pair == Pair(key, old(Model())[key])
      ensures Model() == old(Model()) - {key} && created == old(created)
      ensures freed == old(freed) + [target] && target in old(spine)
    {
      hide Wired, IsPath, Rank, Match, Succ, Counted, Ascending, MapOf;
      MatchPairs(spine, key);
      ghost var s, c, k := spine, Contents(), Rank(spine, key);
      PairsAscend(spine);
      MapOfAt(c, k);
      assert c == c[..k] + [c[k]] + c[k + 1..];
      MapOfInsert(c[..k], c[k], c[k + 1..]);
      FootprintShrinks(s, k);
      pair := Pair(target.key, target.val);
      RemoveFound(target, prev, key);
    }

    method Remove(key: int) returns (removed: Option<Pair>)
      requires Valid()
      modifies this, Footprint(spine)
      ensures Valid() && Footprint(spine) <= old(Footprint(spine))
      ensures removed == if key in old(Model()) then Some(Pair(key, old(Model())[key])) else None
      ensures Model() == old(Model()) - {key} && created == old(created)
      ensures |freed| == |old(freed)| + if key in old(Model()) then 1 else 0
    {
      hide Valid;
      removed := InternalRemove(key);
    }

    /** `remove_first` removes the least key. */
    method RemoveFirst() returns (removed: Option<Pair>)
      requires Valid()
      modifies this, Footprint(spine)
      ensures Valid() && Footprint(spine) <= old(Footprint(spine))
      ensures old(Contents()) == [] ==> removed == None && Contents() == []
      ensures old(Contents()) != [] ==> removed == Some(old(Contents())[0]) && Contents() == old(Contents())[1..]
    {
      ghost var c := Contents();
      if IsEmpty() { return None; }
      WordIs(0, 0);
      assert NextAt(HeightsOf(spine), 1, 0) == 1;
      var key := head.levels[0].ptr.key;
      assert c[0].key == key;
      hide Valid;
      MapOfAt(c, 0);
      removed := InternalRemove(key);
      DropLeast(c, Contents());
    }

    // ---------------------------------------------------------------- reading

    method Get(key: int) returns (entry: Node?)
      requires Valid()
      ensures entry == null <==> key !in Model()
      ensures entry != null ==> entry in spine && entry.key == key && entry.val == Model()[key]
    {
      if IsEmpty() {
        assert Contents() == [];
        return null;
      }
      var prev, target := Find(key);
      hide Valid;
      MatchPairs(spine, key);
      if target != null {
        PairsAscend(spine);
        MapOfAt(PairsOf(spine), Rank(spine, key));
      }
      entry := target;
    }

    /** `next_node`: neither a stale entry nor a tagged successor exists in this list. */
    method NextNode(node: Node, ghost p: nat) returns (next: Node?)
      requires Valid() && p < |spine| && node == spine[p]
      ensures next == if p + 1 < |spine| then spine[p + 1] else null
    {
      WordIs(p, 0);
      if node.levels[0].tag { assert false; }
      assert NextAt(HeightsOf(spine), p + 1, 0) == p + 1;
      next := node.levels[0].ptr;
      if next != null {
        WordIs(p + 1, 0);
        if next.levels[0].tag { assert false; }
      }
    }

    method GetFirst() returns (entry: Node?)
      requires Valid()
      ensures entry == if |spine| > 1 then spine[1] else null
    {
      if IsEmpty() { return null; }
      entry := NextNode(head, 0);
    }

    /** `get_last` walks to the entry with the greatest key. */
    method GetLast() returns (entry: Node?)
      requires Valid()
      ensures entry == null <==> Model() == map[]
      ensures entry != null ==> entry.key in Model() && Model()[entry.key] == entry.val
      ensures entry != null ==> forall k :: k in Model() ==> k <= entry.key
    {
      entry := GetFirst();
      if entry == null {
        assert Contents() == [];
        return;
      }
      ghost var p: nat := 1;
      var next := NextNode(entry, p);
      while next != null
        invariant 1 <= p < |spine| && entry == spine[p]
        invariant next == if p + 1 < |spine| then spine[p + 1] else null
        decreases |spine| - p
      {
        entry, p := next, p + 1;
        next := NextNode(entry, p);
      }
      LastEntry(Contents());
    }

    /** `traverse_with`: the keys and values in the order in which the callback sees them. */
    method TraverseWith() returns (seen: seq<Pair>)
      requires Valid()
      ensures seen == Contents()
    {
      hide Apart, Legal, Ordered, Wired, Accounts, NodesSettled, PairsOf;
      ghost var c := Contents();
      seen := [];
      BottomWord(spine, 0);
      var curr := head.levels[0].ptr;
      ghost var p: nat := 1;
      while curr != null
        invariant 1 <= p <= |spine| && curr == (if p < |spine| then spine[p] else null)
        invariant seen == c[..p - 1]
        decreases |spine| - p
      {
        BottomWord(spine, p);
        NotRemoved(spine, head, p);
        PairAt(spine, p);
        if !curr.removed { seen := seen + [Pair(curr.key, curr.val)]; }
        curr := curr.levels[0].ptr;
        p := p + 1;
      }
    }

    /** Draining with `remove_first`, as `into_iter` does: ascending, and nothing is left. */
    method Drain() returns (out: seq<Pair>)
      requires Valid()
      modifies this, Footprint(spine)
      ensures Valid() && out == old(Contents()) && Contents() == []
    {
      hide Valid, Model, Contents, Footprint;
      ghost var c := Contents();
      out := [];
      var removed := RemoveFirst();
      while removed.Some?
        invariant Valid() && Footprint(spine) <= old(Footprint(spine))
        invariant |out| <= |c| && out == c[..|out|]
        invariant removed.Some? ==> |out| < |c| && removed.value == c[|out|] && Contents() == c[|out| + 1..]
        invariant removed == None ==> |out| == |c| && Contents() == []
        decreases |c| - |out|
      {
        out := out + [removed.value];
        Tail(c, |out|);
        removed := RemoveFirst();
      }
    }

    /** The destructor: walks level 0 and frees every node it meets. */
    method Drop()
      requires Valid()
      modifies this`freed
      ensures NoDup(freed) && (forall n :: n in created ==> n in freed) && (forall n :: n in freed ==> n in created)
    {
      hide Apart, Legal, Ordered, Wired, Accounts, NodesSettled;
      ghost var s, f := spine, freed;
      BottomWord(s, 0);
      var node := head.levels[0].ptr;
      ghost var p: nat := 1;
      while node != null
        invariant 1 <= p <= |s| && node == (if p < |s| then s[p] else null)
        invariant freed == f + s[1..p]
        decreases |s| - p
      {
        BottomWord(s, p);
        var temp := node;
        node := temp.levels[0].ptr;
        freed := freed + [temp];
        p := p + 1;
      }
      assert s[1..p] == s[1..];
      DropFrees(f, s, head, created);
    }
  }

  /** What a word of the bottom level holds. */
  lemma BottomWord(s: seq<Node>, p: nat)
    requires Row(s) && Wired(s) && p < |s|
    ensures s[p].levels.Length > 0 && s[p].levels[0].ptr == if p + 1 < |s| then s[p + 1] else null
  {
    assert s[p].levels[0] == Link(Succ(s, p, 0), false);
    assert NextAt(HeightsOf(s), p + 1, 0) == p + 1;
  }

  lemma PairAt(s: seq<Node>, p: nat)
    requires 1 <= p < |s|
    ensures |PairsOf(s)| == |s| - 1 && PairsOf(s)[p - 1] == Pair(s[p].key, s[p].val)
  {
  }

  lemma NotRemoved(s: seq<Node>, head: Node, p: nat)
    requires NodesSettled(s, head) && p < |s|
    ensures !s[p].removed
  {
    assert s[p] in s;
  }

  lemma DropFrees(f: seq<Node>, s: seq<Node>, head: Node, created: set<Node>)
    requires Row(s) && s[0] == head && Accounts(s, head, created, f)
    ensures var freed := f + s[1..];
            NoDup(freed) && (forall n :: n in created ==> n in freed) && (forall n :: n in freed ==> n in created)
  {
    hide Legal, Ordered;
    AllFreed(f, s);
    forall n | n in s && n != s[0] ensures n in created { var p :| 0 <= p < |s| && s[p] == n; }
  }

  lemma AllFreed(f: seq<Node>, s: seq<Node>)
    requires NoDup(f) && |s| >= 1 && Distinct(s) && forall n :: n in f ==> n !in s
    ensures NoDup(f + s[1..])
    ensures forall n :: n in f + s[1..] ==> n in f || (n in s && n != s[0])
    ensures forall n :: n in f || (n in s && n != s[0]) ==> n in f + s[1..]
  {
    var r := s[1..];
    forall n | n in s && n != s[0] ensures n in r {
      var p :| 0 <= p < |s| && s[p] == n;
      assert r[p - 1] == n;
    }
    forall n | n in r ensures n in s && n != s[0] {
      var p :| 0 <= p < |r| && r[p] == n;
      assert s[p + 1] == n;
    }
    forall i, j | 0 <= i < j < |f + r| ensures (f + r)[i] != (f + r)[j] {
      if i < |f| <= j { assert (f + r)[j] in r && (f + r)[i] in f; }
    }
  }

  lemma Tail(c: seq<Pair>, k: nat)
    requires k <= |c|
    ensures k < |c| ==> c[k..] != [] && c[k..][0] == c[k] && c[k..][1..] == c[k + 1..] && c[..k] + [c[k]] == c[..k + 1]
    ensures k == |c| ==> c[k..] == [] && c[..k] == c
  {
  }

  lemma AscendingTail(c: seq<Pair>)
    requires Ascending(c) && c != []
    ensures Ascending(c[1..])
  {
  }

  lemma {:induction false} DropLeast(c: seq<Pair>, d: seq<Pair>)
    requires Ascending(c) && Ascending(d) && c != [] && MapOf(d) == MapOf(c) - {c[0].key}
    ensures d == c[1..]
  {
    hide MapOf, Ascending;
    AscendingTail(c);
    assert c == [] + [c[0]] + c[1..];
    assert [] + c[1..] == c[1..];
    MapOfInsert([], c[0], c[1..]);
    MapOfUnique(c[1..], d);
  }

  lemma {:induction false} LastEntry(c: seq<Pair>)
    requires Ascending(c) && c != []
    ensures var x := c[|c| - 1]; x.key in MapOf(c) && MapOf(c)[x.key] == x.val && forall k :: k in MapOf(c) ==> k <= x.key
  {
    MapOfAt(c, |c| - 1);
    forall k | k in MapOf(c) ensures k <= c[|c| - 1].key { MapOfEnds(c, k); }
  }

  lemma BypassingStarts(s: seq<Node>, k: nat)
    requires Row(s) && Wired(s) && k + 1 < |s|
    ensures Bypassing(s, k, 0)
  {
  }

  ghost predicate Distinct(s: seq<Node>) {
    forall p, q :: 0 <= p < q < |s| ==> s[p] != s[q]
  }

  lemma NotFreed(s: seq<Node>, k: nat, head: Node, created: set<Node>, freed: seq<Node>)
    requires Accounts(s, head, created, freed) && k + 1 < |s|
    ensures s[k + 1] in created && s[k + 1] !in freed
  {
  }

  lemma RemoveMembers(s: seq<Node>, k: nat)
    requires k + 1 < |s| && Distinct(s)
    ensures s[k + 1] != s[0] && s[k + 1] in s
    ensures forall n :: n in RemoveAt(s, k) ==> n in s && n != s[k + 1]
    ensures forall n :: n in s && n != s[k + 1] ==> n in RemoveAt(s, k)
  {
    RemoveAtElems(s, k);
    MembersWithout(s, RemoveAt(s, k), k);
  }

  lemma MembersWithout(s: seq<Node>, s': seq<Node>, k: nat)
    requires k + 1 < |s| && Distinct(s) && |s'| == |s| - 1
    requires forall p :: 0 <= p <= k ==> s'[p] == s[p]
    requires forall p :: k < p < |s'| ==> s'[p] == s[p + 1]
    ensures forall n :: n in s' ==> n in s && n != s[k + 1]
    ensures forall n :: n in s && n != s[k + 1] ==> n in s'
  {
    forall n | n in s' ensures n in s && n != s[k + 1] { StayedIn(s, s', k, n); }
    forall n | n in s && n != s[k + 1] ensures n in s' { StaysIn(s, s', k, n); }
  }

  lemma StayedIn(s: seq<Node>, s': seq<Node>, k: nat, n: Node)
    requires k + 1 < |s| && Distinct(s) && |s'| == |s| - 1 && n in s'
    requires forall p :: 0 <= p <= k ==> s'[p] == s[p]
    requires forall p :: k < p < |s'| ==> s'[p] == s[p + 1]
    ensures n in s && n != s[k + 1]
  {
    var p :| 0 <= p < |s'| && s'[p] == n;
    if p <= k { assert n == s[p]; } else { assert n == s[p + 1]; }
  }

  lemma StaysIn(s: seq<Node>, s': seq<Node>, k: nat, n: Node)
    requires k + 1 < |s| && |s'| == |s| - 1 && n in s && n != s[k + 1]
    requires forall p :: 0 <= p <= k ==> s'[p] == s[p]
    requires forall p :: k < p < |s'| ==> s'[p] == s[p + 1]
    ensures n in s'
  {
    var p :| 0 <= p < |s| && s[p] == n;
    if p <= k { assert s'[p] == n; } else { assert s'[p - 1] == n; }
  }

  /** A removed node is out of the row. */
  lemma Absent(s: seq<Node>, k: nat)
    requires Row(s) && k + 1 < |s|
    ensures s[k + 1] !in RemoveAt(s, k) && s[k + 1] in s && s[k + 1] != s[0]
  {
    RemoveAtElems(s, k);
  }

  lemma RemovePairs(s: seq<Node>, k: nat)
    requires k + 1 < |s|
    ensures var c := PairsOf(s); PairsOf(RemoveAt(s, k)) == c[..k] + c[k + 1..]
  {
    RemoveAtElems(s, k);
  }

  lemma InsertedMembers(s: seq<Node>, k: nat, x: Node)
    requires k < |s|
    ensures forall n :: n in InsertAt(s, k, x) <==> n in s || n == x
  {
    var s' := InsertAt(s, k, x);
    InsertAtElems(s, k, x);
    hide InsertAt;
    forall n | n in s ensures n in s' {
      var p :| 0 <= p < |s| && s[p] == n;
      assert s'[if p <= k then p else p + 1] == n;
    }
    assert s'[k + 1] == x;
  }

  lemma FootprintGrows(s: seq<Node>, k: nat, x: Node)
    requires k < |s|
    ensures Footprint(InsertAt(s, k, x)) == Footprint(s) + {x, x.levels}
  {
    InsertedMembers(s, k, x);
    var s' := InsertAt(s, k, x);
    hide InsertAt;
    var a, b := (set n: Node | n in s :: n.levels as object), (set n: Node | n in s' :: n.levels as object);
    forall o | o in b ensures o in a + {x.levels} {
      var n: Node :| n in s' && o == n.levels;
      if n != x { assert n in s; }
    }
    assert x in s' && x.levels in b;
    forall o | o in a ensures o in b {
      var n: Node :| n in s && o == n.levels;
      assert n in s';
    }
    assert b == a + {x.levels};
    assert (set n: Node | n in s' :: n as object) == (set n: Node | n in s :: n as object) + {x as object};
  }

  lemma FootprintShrinks(s: seq<Node>, k: nat)
    requires k + 1 < |s|
    ensures Footprint(RemoveAt(s, k)) <= Footprint(s)
  {
    RemoveAtElems(s, k);
    forall n | n in RemoveAt(s, k) ensures n in s {}
  }

  lemma PairsAscend(s: seq<Node>)
    requires Row(s)
    ensures Ascending(PairsOf(s))
  {
  }

  /** A search finds a node exactly when the map has the key. */
  lemma MatchPairs(s: seq<Node>, key: int)
    requires Row(s)
    ensures var c := PairsOf(s); var k := Rank(s, key);
            && (Match(s, key) == null <==> key !in MapOf(c))
            && (Match(s, key) != null ==> k < |c| && c[k].key == key && Match(s, key) == s[k + 1])
  {
    var c := PairsOf(s);
    MapOfHas(c, key);
    var k := Rank(s, key);
    if Match(s, key) == null {
      forall i | 0 <= i < |c| ensures c[i].key != key {
        assert s[i + 1].key == c[i].key;
        if i > k { assert s[k + 1].key < s[i + 1].key; }
      }
    } else {
      assert c[k].key == key;
    }
  }

  lemma InsertPairs(s: seq<Node>, k: nat, x: Node)
    requires k < |s|
    ensures var c := PairsOf(s); PairsOf(InsertAt(s, k, x)) == c[..k] + [Pair(x.key, x.val)] + c[k..]
  {
    InsertAtElems(s, k, x);
  }

  /** Changing the value of the node behind position k. */
  lemma {:induction false} ReplacePairs(s: seq<Node>, k: nat, c: seq<Pair>, val: int)
    requires Row(s) && k < |c| == |s| - 1 && Ascending(c) && s[k + 1].val == val
    requires forall p :: 0 <= p < |c| ==> c[p].key == s[p + 1].key && (p != k ==> c[p].val == s[p + 1].val)
    ensures MapOf(PairsOf(s)) == MapOf(c)[c[k].key := val]
  {
    assert PairsOf(s) == c[k := Pair(c[k].key, val)];
    MapOfReplace(c, k, val);
  }

  lemma LinkingStarts(s: seq<Node>, k: nat, x: Node)
    requires Row(s) && Wired(s) && k < |s|
    requires x !in s && x.refs == 0 && 1 <= x.height <= HEIGHT && x.levels.Length == x.height
    requires forall n :: n in s ==> n.levels != x.levels
    ensures Linking(s, k, x, 0)
  {
  }

  lemma PathStep(prev: seq<Node>, s: seq<Node>, key: int, i: nat, n: Node)
    requires Row(s) && i < HEIGHT && IsPath(prev, s, key, i + 1) && n == Before(s, key, i)
    ensures |prev| == HEIGHT && IsPath(prev[i := n], s, key, i)
  {
  }

  /** Above the start level the head is the last tower below any key. */
  lemma SearchBegin(s: seq<Node>, key: int, level: nat, prev: seq<Node>)
    requires Row(s) && forall p :: 1 <= p < |s| ==> s[p].height <= level
    requires |prev| == HEIGHT && forall i :: 0 <= i < HEIGHT ==> prev[i] == s[0]
    ensures IsPath(prev, s, key, level)
  {
    forall i | level <= i < HEIGHT ensures Before(s, key, i) == s[0] {
      LastAtIs(HeightsOf(s), Rank(s, key), i, 0);
    }
  }

  /** One step of a search at level i from the tower at c, which is not beyond the rank of the key. */
  lemma {:induction false} SearchStep(s: seq<Node>, key: int, c: nat, i: nat)
    requires Row(s) && c <= Rank(s, key) && c < |s| && i < s[c].height
    ensures var q := NextAt(HeightsOf(s), c + 1, i);
            && i < HEIGHT && c < q <= |s| && s[c].levels.Length == s[c].height
            && (q < |s| ==> i < s[q].height)
            && (if q == |s| || key <= s[q].key then Before(s, key, i) == s[c] && (i == 0 ==> c == Rank(s, key))
                else q <= Rank(s, key))
  {
    var hs := HeightsOf(s);
    var k := Rank(s, key);
    var q := NextAt(hs, c + 1, i);
    if q == |s| || key <= s[q].key { LastAtIs(hs, k, i, c); }
  }

  lemma SearchEnd(s: seq<Node>, key: int)
    requires Row(s)
    ensures var k := Rank(s, key); k < |s| && 0 < s[k].height == s[k].levels.Length
    ensures var next := Succ(s, Rank(s, key), 0);
            Match(s, key) == if next != null && next.key == key then next else null
  {
    var k := Rank(s, key);
    assert NextAt(HeightsOf(s), k + 1, 0) == k + 1;
  }

  // ------------------------------------------------------------------ linking and unlinking a tower

  /** The row with x behind position k. */
  ghost function InsertAt(s: seq<Node>, k: nat, x: Node): (s': seq<Node>)
    requires k < |s|
    ensures |s'| == |s| + 1 && HeightsOf(s') == Insert(HeightsOf(s), k, x.height)
  {
    var s' := s[..k + 1] + [x] + s[k + 1..];
    assert forall p :: 0 <= p < |s'| ==> s'[p] == if p <= k then s[p] else if p == k + 1 then x else s[p - 1];
    s'
  }

  /** The longer row has one node more, of that key and height, behind the last smaller key. */
  ghost predicate Gains(s: seq<Node>, s': seq<Node>, key: int, height: nat) {
    && Row(s) && |s'| == |s| + 1 && s' == InsertAt(s, Rank(s, key), s'[Rank(s, key) + 1])
    && s'[Rank(s, key) + 1].key == key && s'[Rank(s, key) + 1].height == height
  }

  lemma GainsOne(s: seq<Node>, k: nat, x: Node)
    requires Row(s) && k == Rank(s, x.key) && k < |s|
    ensures Gains(s, InsertAt(s, k, x), x.key, x.height)
  {
    InsertAtElems(s, k, x);
  }

  lemma InsertAtElems(s: seq<Node>, k: nat, x: Node)
    requires k < |s|
    ensures forall p :: 0 <= p <= k ==> InsertAt(s, k, x)[p] == s[p]
    ensures InsertAt(s, k, x)[k + 1] == x
    ensures forall p :: k + 1 < p <= |s| ==> InsertAt(s, k, x)[p] == s[p - 1]
  {
  }

  /** Which pointers of the longer row differ from those of the shorter one. */
  lemma {:induction false} SuccBeforeInsert(s: seq<Node>, k: nat, x: Node, p: nat, i: nat)
    requires k < |s| && s[0].height == HEIGHT && i < HEIGHT && p <= k && i < s[p].height
    ensures Succ(InsertAt(s, k, x), p, i)
         == if i < x.height && p == LastAt(HeightsOf(s), k, i) then x else Succ(s, p, i)
  {
    hide NextAt, LastAt, Insert, InsertAt;
    var hs := HeightsOf(s);
    var q := NextAt(hs, p + 1, i);
    NextBeforeInsert(hs, k, x.height, p + 1, i);
    InsertAtElems(s, k, x);
    if q > k { LastAtIs(hs, k, i, p); } else { LastBeyond(hs, k, i, q); }
  }

  lemma {:induction false} LastBeyond(hs: seq<nat>, k: nat, i: nat, q: nat)
    requires k < |hs| && i < hs[0] && q <= k && i < hs[q]
    ensures q <= LastAt(hs, k, i)
  {
  }

  lemma {:induction false} SuccAfterInsert(s: seq<Node>, k: nat, x: Node, p: nat, i: nat)
    requires k + 1 <= p < |s| && s[0].height == HEIGHT && i < HEIGHT
    ensures Succ(InsertAt(s, k, x), p + 1, i) == Succ(s, p, i)
  {
    hide NextAt, LastAt, Insert, InsertAt;
    InsertAtElems(s, k, x);
    NextAfterInsert(HeightsOf(s), k, x.height, p + 1, i);
  }

  lemma {:induction false} SuccOfInserted(s: seq<Node>, k: nat, x: Node, i: nat)
    requires k < |s| && s[0].height == HEIGHT && i < HEIGHT
    ensures Succ(InsertAt(s, k, x), k + 1, i) == Succ(s, LastAt(HeightsOf(s), k, i), i)
  {
    hide NextAt, LastAt, Insert, InsertAt;
    var hs := HeightsOf(s);
    InsertAtElems(s, k, x);
    NextAfterInsert(hs, k, x.height, k + 1, i);
    NextFromLast(hs, k, i);
  }

  lemma {:induction false} NextFromLast(hs: seq<nat>, k: nat, i: nat)
    requires k < |hs| && i < hs[0]
    ensures NextAt(hs, LastAt(hs, k, i) + 1, i) == NextAt(hs, k + 1, i)
  {
    NextAtIs(hs, LastAt(hs, k, i) + 1, i, NextAt(hs, k + 1, i));
  }

  /** The word of the p-th tower of s once x is linked behind k on the levels below `done`. */
  ghost function LinkedWord(s: seq<Node>, k: nat, x: Node, done: nat, p: nat, i: nat): Link
    requires k < |s| && s[0].height == HEIGHT && p < |s| && i < HEIGHT
  {
    if i < done && p == LastAt(HeightsOf(s), k, i) then Link(x, false) else Link(Succ(s, p, i), false)
  }

  /** x is linked behind position k on the levels below `done`, and nowhere else. */
  ghost predicate Linking(s: seq<Node>, k: nat, x: Node, done: nat)
    requires Row(s) && k < |s|
    reads x, x.levels, set n | n in s :: n.levels
  {
    && x !in s && x.levels.Length == x.height <= HEIGHT && done <= x.height && (forall n :: n in s ==> n.levels != x.levels)
    && x.refs == done
    && (forall p, i :: 0 <= p < |s| && 0 <= i < s[p].height ==> s[p].levels[i] == LinkedWord(s, k, x, done, p, i))
    && (forall i :: 0 <= i < done ==> x.levels[i] == Link(Succ(s, LastAt(HeightsOf(s), k, i), i), false))
  }

  /** One round of `link_nodes`. */
  method LinkLevel(ghost s: seq<Node>, ghost k: nat, prev: Node, x: Node, i: nat)
    requires Row(s) && k < |s| && i < x.height && Linking(s, k, x, i) && prev == s[LastAt(HeightsOf(s), k, i)]
    modifies x`refs, x.levels, prev.levels
    ensures Linking(s, k, x, i + 1)
  {
    hide Row, Succ, LastAt;
    RowHead(s);
    ghost var j := LastAt(HeightsOf(s), k, i);
    LastReaches(s, k, i);
    RowApart(s, j);
    assert prev.levels[i] == LinkedWord(s, k, x, i, j, i);
    x.levels[i] := Link(prev.levels[i].ptr, false);
    prev.levels[i] := Link(x, false);
    x.refs := x.refs + 1;
    forall p, l | 0 <= p < |s| && 0 <= l < s[p].height ensures s[p].levels[l] == LinkedWord(s, k, x, i + 1, p, l) {
      assert old(s[p].levels[l]) == LinkedWord(s, k, x, i, p, l);
    }
  }

  lemma {:induction false} LastReaches(s: seq<Node>, k: nat, i: nat)
    requires Row(s) && k < |s| && i < HEIGHT
    ensures var j := LastAt(HeightsOf(s), k, i); j <= k && i < s[j].height == s[j].levels.Length && s[j] in s
  {
  }

  lemma HeadFirst(s: seq<Node>, j: nat)
    requires Row(s) && 1 <= j < |s|
    ensures s[j] != s[0] && 1 <= s[j].height <= HEIGHT
  {
  }

  lemma {:induction false} PathAt(path: seq<Node>, s: seq<Node>, key: int, i: nat)
    requires Row(s) && IsPath(path, s, key, 0) && i < HEIGHT
    ensures i < |path| && path[i] == s[LastAt(HeightsOf(s), Rank(s, key), i)]
  {
  }

  lemma RowApart(s: seq<Node>, j: nat)
    requires Row(s) && j < |s|
    ensures forall p :: 0 <= p < |s| && p != j ==> s[p].levels != s[j].levels
    ensures forall p :: 0 <= p < |s| ==> s[p] in s && s[p].levels.Length == s[p].height <= HEIGHT
    ensures s[0].height == HEIGHT
  {
  }

  /** Fully linked, x belongs to the row. */
  lemma LinkedRow(s: seq<Node>, k: nat, x: Node)
    requires Row(s) && IsRank(s, x.key, k) && Linking(s, k, x, x.height) && 1 <= x.height
    requires k + 1 < |s| ==> s[k + 1].key != x.key
    ensures Row(InsertAt(s, k, x)) && Wired(InsertAt(s, k, x))
  {
    var s' := InsertAt(s, k, x);
    InsertRow(s, k, x);
    hide Row, IsRank, Succ, LastAt, InsertAt;
    forall p, i | 0 <= p < |s'| && 0 <= i < s'[p].height ensures s'[p].levels[i] == Link(Succ(s', p, i), false) {
      LinkedAt(s, k, x, p, i);
    }
  }

  lemma LinkedAt(s: seq<Node>, k: nat, x: Node, p: nat, i: nat)
    requires Row(s) && k < |s| && Linking(s, k, x, x.height) && 1 <= x.height
    requires p <= |s| && i < InsertAt(s, k, x)[p].height && Row(InsertAt(s, k, x))
    ensures InsertAt(s, k, x)[p].levels[i] == Link(Succ(InsertAt(s, k, x), p, i), false)
  {
    hide InsertAt, Succ, LastAt, Linking, Wired, Row, LinkedWord;
    InsertAtElems(s, k, x);
    RowHead(s);
    if p <= k {
      WordLinked(s, k, x, p, i);
      SuccBeforeInsert(s, k, x, p, i);
    } else if p == k + 1 {
      OwnLinked(s, k, x, i);
      SuccOfInserted(s, k, x, i);
    } else {
      WordLinked(s, k, x, p - 1, i);
      SuccAfterInsert(s, k, x, p - 1, i);
    }
  }

  lemma RowHead(s: seq<Node>)
    requires Row(s)
    ensures |s| >= 1 && s[0].height == HEIGHT && forall p :: 0 <= p < |s| ==> s[p].height <= HEIGHT
  {
  }

  lemma {:induction false} WordLinked(s: seq<Node>, k: nat, x: Node, p: nat, i: nat)
    requires Row(s) && k < |s| && Linking(s, k, x, x.height) && p < |s| && i < s[p].height
    ensures i < s[p].levels.Length && i < HEIGHT
    ensures s[p].levels[i]
         == if i < x.height && p <= k && p == LastAt(HeightsOf(s), k, i) then Link(x, false) else Link(Succ(s, p, i), false)
  {
    LastBelow(HeightsOf(s), k, i);
    assert s[p].levels[i] == LinkedWord(s, k, x, x.height, p, i);
  }

  lemma {:induction false} OwnLinked(s: seq<Node>, k: nat, x: Node, i: nat)
    requires Row(s) && k < |s| && Linking(s, k, x, x.height) && i < x.height
    ensures i < x.levels.Length && i < HEIGHT && x.levels[i] == Link(Succ(s, LastAt(HeightsOf(s), k, i), i), false)
  {
  }

  lemma {:induction false} LastBelow(hs: seq<nat>, k: nat, i: nat)
    requires k < |hs| && i < hs[0]
    ensures LastAt(hs, k, i) <= k
  {
  }

  lemma InsertRow(s: seq<Node>, k: nat, x: Node)
    requires Row(s) && IsRank(s, x.key, k) && 1 <= x.height <= HEIGHT && x.levels.Length == x.height
    requires x !in s && (forall n :: n in s ==> n.levels != x.levels)
    requires k + 1 < |s| ==> s[k + 1].key != x.key
    ensures Row(InsertAt(s, k, x))
  {
    InsertAtElems(s, k, x);
    hide InsertAt, Apart, Legal, Ordered;
    InsertApart(s, InsertAt(s, k, x), k, x);
    InsertLegal(s, InsertAt(s, k, x), k, x);
    InsertOrdered(s, InsertAt(s, k, x), k, x);
  }

  /** s' is s with x behind position k, element by element. */
  ghost predicate Inserted(s: seq<Node>, s': seq<Node>, k: nat, x: Node) {
    && k < |s| && |s'| == |s| + 1 && s'[k + 1] == x
    && (forall p :: 0 <= p <= k ==> s'[p] == s[p]) && (forall p :: k + 1 < p <= |s| ==> s'[p] == s[p - 1])
  }

  lemma InsertApart(s: seq<Node>, s': seq<Node>, k: nat, x: Node)
    requires Inserted(s, s', k, x) && Apart(s) && x !in s && (forall n :: n in s ==> n.levels != x.levels)
    ensures Apart(s')
  {
    forall p, q | 0 <= p < q < |s'| ensures s'[p] != s'[q] && s'[p].levels != s'[q].levels {
      var a, b := s'[p], s'[q];
      assert p != k + 1 ==> a == s[if p <= k then p else p - 1] && a in s;
      assert q != k + 1 ==> b == s[if q <= k then q else q - 1] && b in s;
    }
  }

  lemma InsertLegal(s: seq<Node>, s': seq<Node>, k: nat, x: Node)
    requires Inserted(s, s', k, x) && Legal(s) && 1 <= x.height <= HEIGHT && x.levels.Length == x.height
    ensures Legal(s')
  {
  }

  lemma InsertOrdered(s: seq<Node>, s': seq<Node>, k: nat, x: Node)
    requires Inserted(s, s', k, x) && Ordered(s) && IsRank(s, x.key, k) && (k + 1 < |s| ==> s[k + 1].key != x.key)
    ensures Ordered(s')
  {
    forall p, q | 1 <= p < q < |s'| ensures s'[p].key < s'[q].key {
      if p == k + 1 {
        assert s'[q] == s[q - 1] && (q - 1 > k + 1 ==> s[k + 1].key < s[q - 1].key);
      } else if q == k + 1 {
        assert s'[p] == s[p];
      } else {
        assert s[if p <= k then p else p - 1].key < s[if q <= k then q else q - 1].key;
      }
    }
  }

  /** The row without position k + 1. */
  ghost function RemoveAt(s: seq<Node>, k: nat): (s': seq<Node>)
    requires k + 1 < |s|
    ensures |s'| == |s| - 1 && s == InsertAt(s', k, s[k + 1])
  {
    var s' := s[..k + 1] + s[k + 2..];
    assert s'[..k + 1] == s[..k + 1] && s'[k + 1..] == s[k + 2..];
    assert s == s[..k + 1] + [s[k + 1]] + s[k + 2..];
    s'
  }

  lemma RemoveAtElems(s: seq<Node>, k: nat)
    requires k + 1 < |s|
    ensures forall p :: 0 <= p <= k ==> RemoveAt(s, k)[p] == s[p]
    ensures forall p :: k < p < |s| - 1 ==> RemoveAt(s, k)[p] == s[p + 1]
  {
  }

  lemma RemoveRow(s: seq<Node>, k: nat)
    requires Row(s) && k + 1 < |s|
    ensures Row(RemoveAt(s, k))
  {
    RemoveAtElems(s, k);
    hide RemoveAt, Apart, Legal, Ordered;
    RemovedParts(s, RemoveAt(s, k), k);
  }

  lemma RemovedParts(s: seq<Node>, s': seq<Node>, k: nat)
    requires k + 1 < |s| && Inserted(s', s, k, s[k + 1])
    ensures Apart(s) ==> Apart(s')
    ensures Legal(s) ==> Legal(s')
    ensures Ordered(s) ==> Ordered(s')
  {
    if Apart(s) {
      forall p, q | 0 <= p < q < |s'| ensures s'[p] != s'[q] && s'[p].levels != s'[q].levels {
        assert s'[p] == s[if p <= k then p else p + 1] && s'[q] == s[if q <= k then q else q + 1];
      }
    }
    if Legal(s) {
      forall p | 0 <= p < |s'| ensures 1 <= s'[p].height <= HEIGHT && s'[p].levels.Length == s'[p].height {
        assert s'[p] == s[if p <= k then p else p + 1];
      }
    }
    if Ordered(s) {
      forall p, q | 1 <= p < q < |s'| ensures s'[p].key < s'[q].key {
        assert s'[p] == s[if p <= k then p else p + 1] && s'[q] == s[if q <= k then q else q + 1];
      }
    }
  }

  /** The word of the p-th tower once the tower at k + 1 is bypassed on the levels below `done`. */
  ghost function BypassedWord(s: seq<Node>, k: nat, done: nat, p: nat, i: nat): Link
    requires k + 1 < |s| && s[0].height == HEIGHT && p < |s| && i < HEIGHT
  {
    if i < done && p == LastAt(HeightsOf(s), k, i) then Link(Succ(s, k + 1, i), false) else Link(Succ(s, p, i), false)
  }

  /** The tower behind position k is bypassed on the levels below `done`. */
  ghost predicate Bypassing(s: seq<Node>, k: nat, done: nat)
    requires Row(s) && k + 1 < |s|
    reads set n | n in s :: n.levels
  {
    done <= s[k + 1].height
    && forall p, i :: 0 <= p < |s| && 0 <= i < s[p].height ==> s[p].levels[i] == BypassedWord(s, k, done, p, i)
  }

  /** One round of `unlink`. */
  method BypassLevel(ghost s: seq<Node>, ghost k: nat, prev: Node, x: Node, i: nat)
    requires Row(s) && k + 1 < |s| && x == s[k + 1] && i < x.height && Bypassing(s, k, i)
    requires prev == s[LastAt(HeightsOf(s), k, i)]
    modifies prev.levels
    ensures Bypassing(s, k, i + 1)
  {
    hide Row, Succ, LastAt;
    RowHead(s);
    ghost var j := LastAt(HeightsOf(s), k, i);
    RowApart(s, j);
    LastReaches(s, k, i);
    assert x.levels[i] == BypassedWord(s, k, i, k + 1, i);
    prev.levels[i] := Link(x.levels[i].ptr, false);
    forall p, l | 0 <= p < |s| && 0 <= l < s[p].height ensures s[p].levels[l] == BypassedWord(s, k, i + 1, p, l) {
      assert old(s[p].levels[l]) == BypassedWord(s, k, i, p, l);
    }
  }

  /** Fully bypassed, the tower is out of the row. */
  lemma BypassedRow(s: seq<Node>, k: nat)
    requires Row(s) && k + 1 < |s| && Bypassing(s, k, s[k + 1].height)
    ensures Row(RemoveAt(s, k)) && Wired(RemoveAt(s, k))
  {
    var s' := RemoveAt(s, k);
    var x := s[k + 1];
    RemoveRow(s, k);
    RemoveAtElems(s, k);
    hide RemoveAt, Succ, LastAt, Row, InsertAt;
    forall p, i | 0 <= p < |s'| && 0 <= i < s'[p].height ensures s'[p].levels[i] == Link(Succ(s', p, i), false) {
      if p <= k {
        SuccBeforeInsert(s', k, x, p, i);
        SuccOfInserted(s', k, x, i);
        LastSame(s, k, i);
        assert s[p].levels[i] == BypassedWord(s, k, x.height, p, i);
      } else {
        SuccAfterInsert(s', k, x, p, i);
        assert s[p + 1].levels[i] == BypassedWord(s, k, x.height, p + 1, i);
      }
    }
  }

  lemma {:induction false} LastSame(s: seq<Node>, k: nat, i: nat)
    requires Row(s) && k + 1 < |s| && i < HEIGHT
    ensures |RemoveAt(s, k)| > k && HeightsOf(RemoveAt(s, k))[0] == HEIGHT
    ensures LastAt(HeightsOf(RemoveAt(s, k)), k, i) == LastAt(HeightsOf(s), k, i)
  {
    RemoveAtElems(s, k);
    LastAtIs(HeightsOf(RemoveAt(s, k)), k, i, LastAt(HeightsOf(s), k, i));
  }
}
