/** Vocabulary shared by both lists. */
module Common {

  datatype Option<+T> = None | Some(value: T)

  /** Number of levels of the head tower: `1 << HEIGHT_BITS`. */
  const HEIGHT: nat := 32

  /** A `usize`: 64 bits, wrapping around. */
  const WORD: nat := 0x1_0000_0000_0000_0000

  type Usize = w: nat | w < WORD

  function Min(a: nat, b: nat): nat { if a < b then a else b }

  function Max(a: nat, b: nat): nat { if a < b then b else a }

  /** The height for a seed with `draw` trailing zeros, when exactly the lowest o levels are in use. */
  function CutHeight(draw: nat, o: nat): nat { Min(Min(draw + 1, HEIGHT), Max(3, o + 1)) }

  function Repeat<T>(n: nat, x: T): (s: seq<T>)
    ensures |s| == n && forall i :: 0 <= i < n ==> s[i] == x
  {
    if n == 0 then [] else [x] + Repeat(n - 1, x)
  }

  ghost predicate NoDup<T>(s: seq<T>) {
    forall i, j :: 0 <= i < j < |s| ==> s[i] != s[j]
  }

  lemma NoDupAppend<T>(s: seq<T>, x: T)
    requires NoDup(s) && x !in s
    ensures NoDup(s + [x])
  {
  }
}
