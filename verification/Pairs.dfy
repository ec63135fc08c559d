/** Sorted lists of key-value pairs, and the finite ordered map that such a list stands for. */
module Pairs {

  datatype Pair = Pair(key: int, val: int)

  ghost predicate Ascending(c: seq<Pair>) {
    forall i, j :: 0 <= i < j < |c| ==> c[i].key < c[j].key
  }

  ghost function MapOf(c: seq<Pair>): map<int, int> {
    if c == [] then map[] else MapOf(c[..|c| - 1])[c[|c| - 1].key := c[|c| - 1].val]
  }

  lemma MapOfEmpty()
    ensures MapOf([]) == map[]
  {
  }

  lemma {:induction false} MapOfConcat(a: seq<Pair>, b: seq<Pair>)
    ensures MapOf(a + b) == MapOf(a) + MapOf(b)
  {
    if b == [] {
      assert a + b == a;
    } else {
      assert (a + b)[..|a + b| - 1] == a + b[..|b| - 1];
      MapOfConcat(a, b[..|b| - 1]);
    }
  }

  lemma {:induction false} MapOfHas(c: seq<Pair>, k: int)
    ensures k in MapOf(c) <==> exists i :: 0 <= i < |c| && c[i].key == k
  {
    if c != [] { MapOfHas(c[..|c| - 1], k); }
  }

  lemma {:induction false} MapOfAt(c: seq<Pair>, i: nat)
    requires Ascending(c) && i < |c|
    ensures c[i].key in MapOf(c) && MapOf(c)[c[i].key] == c[i].val
  {
    if i < |c| - 1 { MapOfAt(c[..|c| - 1], i); }
  }

  /** Putting a pair in the middle of an ascending list. */
  lemma {:induction false} MapOfInsert(a: seq<Pair>, x: Pair, b: seq<Pair>)
    requires Ascending(a + [x] + b)
    ensures MapOf(a + [x] + b) == MapOf(a + b)[x.key := x.val]
    ensures x.key !in MapOf(a + b)
    ensures MapOf(a + b) == MapOf(a + [x] + b) - {x.key}
  {
    var c := a + [x] + b;
    MapOfConcat(a, b);
    MapOfConcat(a + [x], b);
    MapOfConcat(a, [x]);
    MapOfHas(a, x.key);
    MapOfHas(b, x.key);
    assert c[|a|] == x;
    forall i | 0 <= i < |a| ensures a[i].key != x.key { assert c[i] == a[i]; }
    forall i | 0 <= i < |b| ensures b[i].key != x.key { assert c[|a| + 1 + i] == b[i]; }
    assert MapOf([x]) == map[x.key := x.val] by { assert [x][..0] == []; }
  }

  /** Replacing a value in place. */
  lemma {:induction false} MapOfReplace(c: seq<Pair>, i: nat, v: int)
    requires Ascending(c) && i < |c|
    ensures MapOf(c[i := Pair(c[i].key, v)]) == MapOf(c)[c[i].key := v]
  {
    var x := Pair(c[i].key, v);
    var a, b := c[..i], c[i + 1..];
    assert c == a + [c[i]] + b;
    assert c[i := x] == a + [x] + b;
    MapOfInsert(a, c[i], b);
    MapOfInsert(a, x, b);
  }

  /** An ascending list is determined by its map, so the map specifies the list. */
  lemma {:induction false} MapOfUnique(c: seq<Pair>, d: seq<Pair>)
    requires Ascending(c) && Ascending(d) && MapOf(c) == MapOf(d)
    ensures c == d
  {
    if c == [] {
      if d != [] { MapOfAt(d, 0); assert false; }
    } else if d == [] {
      MapOfAt(c, 0);
      assert false;
    } else {
      var x, y := c[|c| - 1], d[|d| - 1];
      var c', d' := c[..|c| - 1], d[..|d| - 1];
      MapOfAt(c, |c| - 1);
      MapOfAt(d, |d| - 1);
      MapOfHas(c, y.key);
      MapOfHas(d, x.key);
      assert c == c' + [x] + [] && d == d' + [y] + [];
      assert c' + [] == c' && d' + [] == d';
      MapOfInsert(c', x, []);
      MapOfInsert(d', y, []);
      assert x.key == y.key;
      MapOfUnique(c', d');
    }
  }

  /** The first pair of an ascending list has the least key, the last the greatest. */
  lemma {:induction false} MapOfEnds(c: seq<Pair>, k: int)
    requires Ascending(c) && k in MapOf(c)
    ensures |c| > 0 && c[0].key <= k <= c[|c| - 1].key
  {
    MapOfHas(c, k);
    var i :| 0 <= i < |c| && c[i].key == k;
  }

  lemma {:induction false} MapOfSize(c: seq<Pair>)
    requires Ascending(c)
    ensures |MapOf(c)| == |c|
  {
    if c != [] {
      var d, x := c[..|c| - 1], c[|c| - 1];
      MapOfSize(d);
      MapOfHas(d, x.key);
      assert MapOf(c).Keys == MapOf(d).Keys + {x.key};
    }
  }

  /** k is the least key of m. */
  ghost predicate IsLeast(m: map<int, int>, k: int) {
    k in m && forall j :: j in m ==> k <= j
  }

  /** The least key of a non-empty map. */
  ghost function Least(m: map<int, int>): (k: int)
    requires exists j :: j in m
    ensures IsLeast(m, k)
  {
    var x :| x in m;
    LeastExists(m.Keys, x);
    var k :| k in m.Keys && LowerBound(m.Keys, k); k
  }

  ghost predicate LowerBound(s: set<int>, k: int) {
    forall j :: j in s ==> k <= j
  }

  lemma {:induction false} LeastExists(s: set<int>, x: int)
    requires x in s
    ensures exists k :: k in s && LowerBound(s, k)
    decreases |s|
  {
    if y :| y in s - {x} {
      LeastExists(s - {x}, y);
      var k :| k in s - {x} && LowerBound(s - {x}, k);
      var l := if x < k then x else k;
      forall j | j in s ensures l <= j { if j != x { assert j in s - {x}; } }
      assert l in s && LowerBound(s, l);
    } else {
      forall j | j in s ensures x <= j { assert j == x || j in s - {x}; }
      assert LowerBound(s, x);
    }
  }
}
