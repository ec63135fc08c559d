/** Runs of the single-threaded list, its iterators and its priority queue, against a finite ordered map. */
module SeqRuns {
  import opened Common
  import opened Pairs
  import opened SeqList

  // ------------------------------------------------------------------ any run of operations

  /** `draw` is the number of trailing zeros that the random seed shows when the operation needs a height. */
  datatype Op =
    | Insert(key: int, val: int, draw: nat)
    | InsertConditionally(key: int, val: int, draw: nat)
    | Remove(key: int)
    | RemoveFirst
    | Get(key: int)
    | Len

  datatype Reply = Value(v: Option<int>) | Entry(e: Option<Pair>) | Count(n: nat)

  /** The pair of a key, if it is in the map. */
  ghost function Lookup(m: map<int, int>, key: int): Option<Pair> {
    if key in m then Some(Pair(key, m[key])) else None
  }

  /** What a finite ordered map answers. */
  ghost function SpecReply(m: map<int, int>, op: Op): Reply {
    match op
    case Insert(k, v, _) => Value(if k in m then Some(m[k]) else None)
    case InsertConditionally(k, v, _) => Value(if k in m then Some(v) else None)
    case Remove(k) => Entry(Lookup(m, k))
    case RemoveFirst => Entry(if exists k :: k in m then Lookup(m, Least(m)) else None)
    case Get(k) => Entry(Lookup(m, k))
    case Len => Count(|m|)
  }

  /** What a finite ordered map becomes. Heights play no part. */
  ghost function SpecNext(m: map<int, int>, op: Op): map<int, int> {
    match op
    case Insert(k, v, _) => m[k := v]
    case InsertConditionally(k, v, _) => if k in m then m else m[k := v]
    case Remove(k) => m - {k}
    case RemoveFirst => if exists k :: k in m then m - {Least(m)} else m
    case Get(_) => m
    case Len => m
  }

  ghost function SpecReplies(m: map<int, int>, ops: seq<Op>): seq<Reply>
    decreases |ops|
  {
    if ops == [] then [] else [SpecReply(m, ops[0])] + SpecReplies(SpecNext(m, ops[0]), ops[1..])
  }

  ghost function SpecFinal(m: map<int, int>, ops: seq<Op>): map<int, int>
    decreases |ops|
  {
    if ops == [] then m else SpecFinal(SpecNext(m, ops[0]), ops[1..])
  }

  lemma {:induction false} LeastIsFirst(c: seq<Pair>)
    requires Ascending(c)
    ensures c == [] <==> MapOf(c).Keys == {}
    ensures c != [] <==> exists k :: k in MapOf(c)
    ensures c != [] ==> c[0].key in MapOf(c) && MapOf(c)[c[0].key] == c[0].val && Least(MapOf(c)) == c[0].key
    ensures c != [] ==> MapOf(c[1..]) == MapOf(c) - {c[0].key}
  {
    if c != [] {
      MapOfAt(c, 0);
      MapOfEnds(c, Least(MapOf(c)));
      assert c == [] + [c[0]] + c[1..];
      assert [] + c[1..] == c[1..];
      MapOfInsert([], c[0], c[1..]);
    }
  }

  method Step(list: SkipList, op: Op) returns (reply: Reply)
    requires list.Valid()
    modifies list, Footprint(list.spine)
    ensures list.Valid() && fresh(Footprint(list.spine) - old(Footprint(list.spine)))
    ensures reply == SpecReply(old(list.Model()), op)
    ensures list.Model() == SpecNext(old(list.Model()), op)
  {
    hide SkipList.Valid;
    ghost var c := list.Contents();
    match op
    case Insert(k, v, draw) =>
      var r := list.Insert(k, v, draw);
      reply := Value(r);
    case InsertConditionally(k, v, draw) =>
      var r := list.InsertConditionally(k, v, draw);
      reply := Value(r);
    case Remove(k) =>
      var r := list.Remove(k);
      reply := Entry(r);
    case RemoveFirst =>
      LeastIsFirst(c);
      var r := list.RemoveFirst();
      reply := Entry(r);
    case Get(k) =>
      var r := list.Get(k);
      reply := Entry(if r == null then None else Some(Pair(r.key, r.val)));
    case Len =>
      MapOfSize(c);
      reply := Count(list.len);
  }

  lemma {:induction false} SpecUnfolds(m: map<int, int>, ops: seq<Op>, i: nat)
    requires i < |ops|
    ensures SpecReplies(m, ops[i..]) == [SpecReply(m, ops[i])] + SpecReplies(SpecNext(m, ops[i]), ops[i + 1..])
    ensures SpecFinal(m, ops[i..]) == SpecFinal(SpecNext(m, ops[i]), ops[i + 1..])
  {
    assert ops[i..][0] == ops[i] && ops[i..][1..] == ops[i + 1..];
  }

  lemma {:induction false} SpecEnds(m: map<int, int>)
    ensures SpecReplies(m, []) == [] && SpecFinal(m, []) == m
  {
  }

  /** Any sequence of operations, whatever heights are drawn, gives the answers of a finite ordered map. */
  method RunOps(list: SkipList, ops: seq<Op>) returns (replies: seq<Reply>)
    requires list.Valid()
    modifies list, Footprint(list.spine)
    ensures list.Valid() && fresh(Footprint(list.spine) - old(Footprint(list.spine)))
    ensures replies == SpecReplies(old(list.Model()), ops)
    ensures list.Model() == SpecFinal(old(list.Model()), ops)
  {
    hide SkipList.Valid, SkipList.Model, SpecReplies, SpecFinal, SpecReply, SpecNext;
    replies := [];
    ghost var m := list.Model();
    var i := 0;
    while i < |ops|
      invariant 0 <= i <= |ops|
      invariant list.Valid() && fresh(Footprint(list.spine) - old(Footprint(list.spine)))
      invariant replies + SpecReplies(list.Model(), ops[i..]) == SpecReplies(m, ops)
      invariant SpecFinal(list.Model(), ops[i..]) == SpecFinal(m, ops)
    {
      SpecUnfolds(list.Model(), ops, i);
      var reply := Step(list, ops[i]);
      replies := replies + [reply];
      i := i + 1;
    }
    assert ops[i..] == [];
    SpecEnds(list.Model());
  }

  /** Two lists that agree before a run agree after it, even when every drawn height differs. */
  lemma {:induction false} HeightsDoNotMatter(m: map<int, int>, ops: seq<Op>, ops': seq<Op>)
    requires |ops| == |ops'| && forall i :: 0 <= i < |ops| ==> SameButHeight(ops[i], ops'[i])
    ensures SpecReplies(m, ops) == SpecReplies(m, ops') && SpecFinal(m, ops) == SpecFinal(m, ops')
    decreases |ops|
  {
    if ops != [] {
      assert SameButHeight(ops[0], ops'[0]);
      assert forall i :: 0 <= i < |ops| - 1 ==> SameButHeight(ops[1..][i], ops'[1..][i]);
      HeightsDoNotMatter(SpecNext(m, ops[0]), ops[1..], ops'[1..]);
    }
  }

  predicate SameButHeight(a: Op, b: Op) {
    match a
    case Insert(k, v, _) => b.Insert? && b.key == k && b.val == v
    case InsertConditionally(k, v, _) => b.InsertConditionally? && b.key == k && b.val == v
    case _ => a == b
  }

  /**
    Two lists that hold the same map go through the same operations with different heights drawn: they give
    the same replies and end up with the same contents.
   */
  method RunBoth(a: SkipList, b: SkipList, ops: seq<Op>, ops': seq<Op>) returns (x: seq<Reply>, y: seq<Reply>)
    requires a.Valid() && b.Valid() && a.Model() == b.Model()
    requires ({a as object} + Footprint(a.spine)) !! ({b as object} + Footprint(b.spine))
    requires |ops| == |ops'| && forall i :: 0 <= i < |ops| ==> SameButHeight(ops[i], ops'[i])
    modifies a, Footprint(a.spine), b, Footprint(b.spine)
    ensures a.Valid() && b.Valid() && x == y && a.Contents() == b.Contents()
  {
    hide SkipList.Valid;
    ghost var m := a.Model();
    x := RunOps(a, ops);
    y := RunOps(b, ops');
    HeightsDoNotMatter(m, ops, ops');
    MapOfUnique(a.Contents(), b.Contents());
  }

  // ------------------------------------------------------------------ iteration

  /** `Iter`: the entry to be returned next. */
  class Iter {
    const list: SkipList
    var next: Node?
    ghost var pos: nat

    ghost predicate Valid()
      reads this, list, Footprint(list.spine)
    {
      && list.Valid() && 1 <= pos <= |list.spine|
      && next == if pos < |list.spine| then list.spine[pos] else null
    }

    constructor (list: SkipList)
      requires list.Valid()
      ensures Valid() && this.list == list && pos == 1
    {
      this.list := list;
      var first := list.GetFirst();
      next, pos := first, 1;
    }

    /** `Iterator::next`. */
    method MoveNext() returns (item: Node?)
      requires Valid()
      modifies this
      ensures Valid() && item == old(next)
      ensures pos == if item == null then old(pos) else old(pos) + 1
    {
      item := next;
      if item != null {
        next := list.NextNode(item, pos);
        pos := pos + 1;
      }
    }
  }

  /** Iterating visits every key once, in ascending order, with its value. */
  method Collect(list: SkipList) returns (seen: seq<Pair>)
    requires list.Valid()
    ensures seen == list.Contents()
  {
    hide SkipList.Valid;
    ghost var c := list.Contents();
    var iter := new Iter(list);
    seen := [];
    var item := iter.MoveNext();
    while item != null
      invariant fresh(iter) && iter.Valid() && iter.list == list
      invariant item == null ==> iter.pos == |list.spine| && |seen| == |c|
      invariant item != null ==> 2 <= iter.pos && item == list.spine[iter.pos - 1] && |seen| == iter.pos - 2
      invariant |list.spine| == |c| + 1 && |seen| <= |c| && seen == c[..|seen|]
      decreases |list.spine| - iter.pos, item != null
    {
      PairAt(list.spine, iter.pos - 1);
      seen := seen + [Pair(item.key, item.val)];
      item := iter.MoveNext();
    }
  }

  // ------------------------------------------------------------------ priority queue

  /** `PriorityQueue` on the single-threaded list: a set of items, least first. */
  class PriorityQueue {
    const queue: SkipList

    ghost predicate Valid()
      reads this, queue, Footprint(queue.spine)
    {
      queue.Valid()
    }

    ghost function Items(): set<int>
      requires Valid()
      reads this, queue, Footprint(queue.spine)
    {
      queue.Model().Keys
    }

    constructor ()
      ensures Valid() && Items() == {}
      ensures fresh(queue) && fresh(Footprint(queue.spine))
    {
      queue := new SkipList();
    }

    method Push(value: int, draw: nat)
      requires Valid()
      modifies queue, Footprint(queue.spine)
      ensures Valid() && Items() == old(Items()) + {value}
      ensures fresh(Footprint(queue.spine) - old(Footprint(queue.spine)))
    {
      hide SkipList.Valid;
      var previous := queue.Insert(value, 0, draw);
    }

    method Peek() returns (least: Option<int>)
      requires Valid()
      ensures least == None <==> Items() == {}
      ensures least.Some? ==> least.value in Items() && forall x :: x in Items() ==> least.value <= x
    {
      LeastIsFirst(queue.Contents());
      var first := queue.GetFirst();
      least := if first == null then None else Some(first.key);
    }

    method Pop() returns (least: Option<int>)
      requires Valid()
      modifies queue, Footprint(queue.spine)
      ensures Valid() && fresh(Footprint(queue.spine) - old(Footprint(queue.spine)))
      ensures least == None <==> old(Items()) == {}
      ensures least == None ==> Items() == {}
      ensures least.Some? ==> least.value in old(Items()) && forall x :: x in old(Items()) ==> least.value <= x
      ensures least.Some? ==> Items() == old(Items()) - {least.value}
    {
      hide SkipList.Valid;
      LeastIsFirst(queue.Contents());
      var removed := queue.RemoveFirst();
      least := if removed == None then None else Some(removed.value.key);
    }

    method Len() returns (n: nat)
      requires Valid()
      ensures n == |Items()|
    {
      MapOfSize(queue.Contents());
      n := queue.len;
    }
  }

  datatype QueueOp = Push(value: int, draw: nat) | Peek | Pop

  ghost predicate IsMin(s: set<int>, x: Option<int>) {
    if s == {} then x == None else x.Some? && x.value in s && forall y :: y in s ==> x.value <= y
  }

  /** The answers and sets of a run of queue operations on a set that always yields its least element. */
  ghost predicate QueueRun(s: set<int>, ops: seq<QueueOp>, answers: seq<Option<int>>, end: set<int>)
    decreases |ops|
  {
    |answers| == |ops|
    && if ops == [] then end == s
       else match ops[0]
            case Push(v, _) => answers[0] == None && QueueRun(s + {v}, ops[1..], answers[1..], end)
            case Peek => IsMin(s, answers[0]) && QueueRun(s, ops[1..], answers[1..], end)
            case Pop =>
              IsMin(s, answers[0])
              && QueueRun(if answers[0].Some? then s - {answers[0].value} else s, ops[1..], answers[1..], end)
  }

  method QueueStep(q: PriorityQueue, op: QueueOp) returns (answer: Option<int>)
    requires q.Valid()
    modifies q.queue, Footprint(q.queue.spine)
    ensures q.Valid() && fresh(Footprint(q.queue.spine) - old(Footprint(q.queue.spine)))
    ensures QueueRun(old(q.Items()), [op], [answer], q.Items())
  {
    hide PriorityQueue.Valid;
    match op
    case Push(v, draw) => q.Push(v, draw); answer := None;
    case Peek => answer := q.Peek();
    case Pop => answer := q.Pop();
  }

  lemma {:induction false} QueueRunJoin(s: set<int>, a: seq<QueueOp>, x: seq<Option<int>>, m: set<int>,
                                        b: seq<QueueOp>, y: seq<Option<int>>, e: set<int>)
    requires QueueRun(s, a, x, m) && QueueRun(m, b, y, e)
    ensures QueueRun(s, a + b, x + y, e)
    decreases |a|
  {
    if a == [] {
      assert a + b == b && x + y == y;
    } else {
      assert (a + b)[1..] == a[1..] + b && (x + y)[1..] == x[1..] + y;
      var s' := match a[0]
                case Push(v, _) => s + {v}
                case Peek => s
                case Pop => if x[0].Some? then s - {x[0].value} else s;
      QueueRunJoin(s', a[1..], x[1..], m, b, y, e);
    }
  }

  /** Any run of `push`, `peek` and `pop` yields the least element each time. */
  method RunQueue(q: PriorityQueue, ops: seq<QueueOp>) returns (answers: seq<Option<int>>)
    requires q.Valid()
    modifies q.queue, Footprint(q.queue.spine)
    ensures q.Valid() && QueueRun(old(q.Items()), ops, answers, q.Items())
  {
    hide PriorityQueue.Valid, PriorityQueue.Items;
    answers := [];
    ghost var s := q.Items();
    var i := 0;
    while i < |ops|
      invariant 0 <= i <= |ops|
      invariant q.Valid() && fresh(Footprint(q.queue.spine) - old(Footprint(q.queue.spine)))
      invariant QueueRun(s, ops[..i], answers, q.Items())
    {
      ghost var m := q.Items();
      var answer := QueueStep(q, ops[i]);
      QueueRunJoin(s, ops[..i], answers, m, [ops[i]], [answer], q.Items());
      assert ops[..i] + [ops[i]] == ops[..i + 1];
      answers := answers + [answer];
      i := i + 1;
    }
    assert ops[..i] == ops;
  }
}
