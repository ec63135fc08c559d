/**
  The shape of a skip list whose towers stand in a row: hs[p] is the height of the p-th tower, the
  head being tower 0. At level i each tower points to the next one that is taller than i.
 */
module Towers {

  /** The first position from p on whose tower reaches level i, or |hs|. */
  function NextAt(hs: seq<nat>, p: nat, i: nat): (q: nat)
    requires p <= |hs|
    ensures p <= q <= |hs|
    ensures forall r :: p <= r < q ==> hs[r] <= i
    ensures q < |hs| ==> i < hs[q]
    decreases |hs| - p
  {
    if p == |hs| || i < hs[p] then p else NextAt(hs, p + 1, i)
  }

  lemma {:induction false} NextAtIs(hs: seq<nat>, p: nat, i: nat, q: nat)
    requires p <= q <= |hs|
    requires forall r :: p <= r < q ==> hs[r] <= i
    requires q < |hs| ==> i < hs[q]
    ensures NextAt(hs, p, i) == q
  {
  }

  /** The positions from p on whose towers reach level i: the level-0 row filtered by height. */
  function Positions(hs: seq<nat>, p: nat, i: nat): seq<nat>
    requires p <= |hs|
    decreases |hs| - p
  {
    if p == |hs| then []
    else if i < hs[p] then [p] + Positions(hs, p + 1, i)
    else Positions(hs, p + 1, i)
  }

  /** c lists, in ascending order, exactly the positions from p on whose towers reach level i. */
  ghost predicate Filtered(hs: seq<nat>, p: nat, i: nat, c: seq<nat>) {
    && (forall k :: 0 <= k < |c| ==> p <= c[k] < |hs| && i < hs[c[k]])
    && (forall j, k :: 0 <= j < k < |c| ==> c[j] < c[k])
    && (forall r :: p <= r < |hs| && i < hs[r] ==> r in c)
  }

  lemma {:induction false} PositionsFilter(hs: seq<nat>, p: nat, i: nat)
    requires p <= |hs|
    ensures Filtered(hs, p, i, Positions(hs, p, i))
    decreases |hs| - p
  {
    if p < |hs| {
      PositionsFilter(hs, p + 1, i);
      var rest := Positions(hs, p + 1, i);
      if i < hs[p] {
        var c := [p] + rest;
        forall r | p <= r < |hs| && i < hs[r] ensures r in c {
          if r == p { assert c[0] == p; } else { assert r in rest; }
        }
      }
    }
  }

  /** The filtered row is what the level-i pointers spell out. */
  lemma {:induction false} PositionsFollow(hs: seq<nat>, p: nat, i: nat, c: seq<nat>, k: nat)
    requires p <= |hs| && Filtered(hs, p, i, c) && k < |c|
    ensures NextAt(hs, c[k] + 1, i) == if k + 1 < |c| then c[k + 1] else |hs|
  {
    var q := if k + 1 < |c| then c[k + 1] else |hs|;
    forall r | c[k] + 1 <= r < q ensures hs[r] <= i {
      if i < hs[r] {
        assert r in c;
        var m :| 0 <= m < |c| && c[m] == r;
        assert false;
      }
    }
    NextAtIs(hs, c[k] + 1, i, q);
  }

  /** Where every tower reaches the level, the filtered row is the whole row. */
  lemma {:induction false} PositionsAll(hs: seq<nat>, p: nat, i: nat)
    requires p <= |hs| && forall r :: p <= r < |hs| ==> i < hs[r]
    ensures |Positions(hs, p, i)| == |hs| - p
    ensures forall k :: 0 <= k < |hs| - p ==> Positions(hs, p, i)[k] == p + k
    decreases |hs| - p
  {
    if p < |hs| { PositionsAll(hs, p + 1, i); }
  }

  // ------------------------------------------------------------------ inserting and removing a tower

  /** hs with a tower of height h inserted behind position k. */
  function Insert(hs: seq<nat>, k: nat, h: nat): (r: seq<nat>)
    requires k < |hs|
    ensures |r| == |hs| + 1
  {
    hs[..k + 1] + [h] + hs[k + 1..]
  }

  /** Behind k, pointers move along with their towers. */
  lemma {:induction false} NextAfterInsert(hs: seq<nat>, k: nat, h: nat, p: nat, i: nat)
    requires k < |hs| && k + 1 <= p <= |hs|
    ensures NextAt(Insert(hs, k, h), p + 1, i) == NextAt(hs, p, i) + 1
  {
    NextAtIs(Insert(hs, k, h), p + 1, i, NextAt(hs, p, i) + 1);
  }

  /** Up to k, a pointer changes only if it used to pass over the new tower's place at a level the tower reaches. */
  lemma {:induction false} NextBeforeInsert(hs: seq<nat>, k: nat, h: nat, p: nat, i: nat)
    requires k < |hs| && p <= k + 1
    ensures NextAt(Insert(hs, k, h), p, i)
         == if NextAt(hs, p, i) <= k then NextAt(hs, p, i) else if i < h then k + 1 else NextAt(hs, p, i) + 1
  {
    var q := NextAt(hs, p, i);
    var s := Insert(hs, k, h);
    if q <= k { NextAtIs(s, p, i, q); }
    else if i < h { NextAtIs(s, p, i, k + 1); }
    else { NextAtIs(s, p, i, q + 1); }
  }
}
