/**
  A `MaybeTagged` word: a pointer whose low bits, which alignment leaves unused, carry a tag. Masking with
  `unused_bits` is arithmetic modulo the alignment; a `usize` is 64 bits wide and wraps around.
 */
module TaggedPtr {
  import opened Common
  import opened SyncState

  // ------------------------------------------------------------------ alignment

  function Pow2(k: nat): (p: nat)
    ensures p >= 1
  {
    if k == 0 then 1 else 2 * Pow2(k - 1)
  }

  function TrailingZeros(n: nat): nat
    requires n > 0
  {
    if n % 2 == 1 then 0 else 1 + TrailingZeros(n / 2)
  }

  /** `(1 << align.trailing_zeros()) - 1`. */
  function UnusedBits(align: nat): nat
    requires align > 0
  {
    Pow2(TrailingZeros(align)) - 1
  }

  /** For an alignment, which is a power of two, the unused bits are all the bits below it. */
  lemma {:induction false} UnusedBelowAlign(k: nat)
    ensures UnusedBits(Pow2(k)) == Pow2(k) - 1
  {
    if k > 0 {
      assert Pow2(k) / 2 == Pow2(k - 1);
      UnusedBelowAlign(k - 1);
    }
  }

  // ------------------------------------------------------------------ composing

  /** `& unused_bits`, `unused_bits` being one less than the power of two a. */
  function Low(x: nat, a: nat): (l: nat)
    requires a > 0
    ensures l < a
  {
    x % a
  }

  /** `& !unused_bits`. */
  function High(x: nat, a: nat): (h: nat)
    requires a > 0
    ensures h <= x
  {
    MaskLemma(x, a);
    x - x % a
  }

  lemma MaskLemma(x: nat, a: nat)
    requires a > 0
    ensures x == x / a * a + x % a && x % a <= x
  {
    assert x / a >= 0;
    MulNonNeg(x / a, a);
  }

  lemma MulNonNeg(q: nat, a: nat)
    ensures q * a >= 0
  {
  }

  lemma DivModUnique(x: nat, a: nat, q: nat, r: nat)
    requires a > 0 && x == q * a + r && r < a
    ensures x / a == q && x % a == r
  {
    assert x == x / a * a + x % a;
    assert (x / a - q) * a == r - x % a;
    SmallMultiple(x / a - q, a);
  }

  lemma SmallMultiple(d: int, a: int)
    requires a > 0 && -a < d * a < a
    ensures d == 0
  {
  }

  ghost predicate Aligned(p: nat, a: nat)
    requires a > 0
  {
    p % a == 0
  }

  /** `usize_to_ptr_with_provenance`: offsetting a pointer to a given address, with wrapping arithmetic. */
  function WithProvenance(addr: Usize, prov: Usize): Usize {
    (prov + (addr - prov) % WORD) % WORD
  }

  lemma ProvenanceKeepsAddress(addr: Usize, prov: Usize)
    ensures WithProvenance(addr, prov) == addr
  {
    if addr < prov { assert (addr - prov) % WORD == addr - prov + WORD; }
  }

  /** A whole word splits into its masked parts, which do not overlap, so `|` is addition. */
  function Compose(ptr: Usize, tag: nat, a: nat): Usize
    requires a > 0 && High(ptr, a) + Low(tag, a) < WORD
  {
    WithProvenance(High(ptr, a) + Low(tag, a), ptr)
  }

  function Decompose(raw: Usize, a: nat): (Usize, nat)
    requires a > 0
  {
    (WithProvenance(High(raw, a), raw), Low(raw, a))
  }

  /** A composed word fits whenever the alignment divides the number of words. */
  lemma {:induction false} ComposeFits(ptr: Usize, tag: nat, k: nat)
    requires k <= 64
    ensures High(ptr, Pow2(k)) + Low(tag, Pow2(k)) < WORD
  {
    PowersMultiply(k);
    FitsBelow(ptr, tag, Pow2(k), Pow2(64 - k));
  }

  lemma FitsBelow(ptr: Usize, tag: nat, a: nat, b: nat)
    requires a > 0 && b * a == WORD
    ensures High(ptr, a) + Low(tag, a) < WORD
  {
    MaskLemma(ptr, a);
    NextMultiple(ptr / a, b, a);
  }

  lemma MulGrows(n: nat, a: nat)
    requires n > 0
    ensures a <= n * a
  {
  }

  lemma MulMinus(m: nat, n: nat, a: nat)
    requires n <= m
    ensures (m - n) * a == m * a - n * a >= 0
  {
    MulNat(m - n, a);
  }

  lemma MulNat(n: nat, a: nat)
    ensures n * a >= 0
  {
  }

  lemma MulStrict(m: nat, n: nat, a: nat)
    requires m < n && a > 0
    ensures m * a < n * a
  {
    MulGrows(n - m, a);
    MulMinus(n, m, a);
  }

  lemma NextMultiple(x: nat, y: nat, a: nat)
    requires x * a < y * a
    ensures x * a + a <= y * a
  {
    if y <= x {
      MulMinus(x, y, a);
    } else {
      MulGrows(y - x, a);
      MulMinus(y, x, a);
    }
  }

  lemma {:induction false} PowersMultiply(k: nat)
    requires k <= 64
    ensures Pow2(64 - k) * Pow2(k) == WORD
  {
    Pow2Of64();
    Pow2Add(64 - k, k);
  }

  lemma Pow2Of16()
    ensures Pow2(16) == 0x1_0000
  {
    Pow2Add(8, 8);
    Pow2Add(4, 4);
    assert Pow2(4) == 16;
  }

  lemma Pow2Of64()
    ensures Pow2(64) == WORD
  {
    Pow2Add(32, 32);
    Pow2Add(16, 16);
    Pow2Of16();
    hide Pow2;
  }

  lemma {:induction false} Pow2Add(m: nat, n: nat)
    ensures Pow2(m + n) == Pow2(m) * Pow2(n)
  {
    if n > 0 {
      Pow2Add(m, n - 1);
      assert Pow2(m + n) == 2 * Pow2(m + n - 1);
      assert Pow2(m) * (2 * Pow2(n - 1)) == 2 * (Pow2(m) * Pow2(n - 1));
    }
  }

  /** Taking apart what was put together: the tag is cut to the unused bits, the pointer to the others. */
  lemma DecomposeCompose(ptr: Usize, tag: nat, a: nat)
    requires a > 0 && High(ptr, a) + Low(tag, a) < WORD
    ensures Decompose(Compose(ptr, tag, a), a) == (High(ptr, a), Low(tag, a))
    ensures Aligned(ptr, a) && tag < a ==> Decompose(Compose(ptr, tag, a), a) == (ptr, tag)
  {
    var w := High(ptr, a) + Low(tag, a);
    ProvenanceKeepsAddress(w, ptr);
    MaskLemma(ptr, a);
    DivModUnique(w, a, ptr / a, Low(tag, a));
    ProvenanceKeepsAddress(High(w, a), w);
    if tag < a { DivModUnique(tag, a, 0, tag); }
  }

  /** Putting together what was taken apart gives back the word. */
  lemma ComposeDecompose(raw: Usize, a: nat)
    requires a > 0
    ensures var (p, t) := Decompose(raw, a);
            Aligned(p, a) && t < a && High(p, a) + Low(t, a) < WORD && Compose(p, t, a) == raw
  {
    MaskLemma(raw, a);
    var h, l := High(raw, a), Low(raw, a);
    ProvenanceKeepsAddress(h, raw);
    DivModUnique(h, a, raw / a, 0);
    DivModUnique(l, a, 0, l);
    ProvenanceKeepsAddress(h + l, h);
  }

  // ------------------------------------------------------------------ the words of the protocol model

  /** Where the nodes lie, in the order of their allocation: at distinct aligned addresses, none of them null. */
  ghost predicate Placed(addr: seq<Usize>, a: nat) {
    && a > 1
    && (forall n :: 0 <= n < |addr| ==> addr[n] != 0 && Aligned(addr[n], a) && addr[n] + a <= WORD)
    && (forall m, n :: 0 <= m < n < |addr| ==> addr[m] != addr[n])
  }

  /** Memory of any size has a placement, as long as it is smaller than the address space. */
  lemma {:induction false} PlacementExists(n: nat, a: nat) returns (addr: seq<Usize>)
    requires a > 1 && (n + 1) * a <= WORD
    ensures |addr| == n && Placed(addr, a) && forall m :: 0 <= m < n ==> addr[m] == (m + 1) * a
  {
    if n == 0 {
      addr := [];
    } else {
      assert n * a + a == (n + 1) * a;
      var rest := PlacementExists(n - 1, a);
      DivModUnique(n * a, a, n, 0);
      MulGrows(n, a);
      addr := rest + [n * a];
      forall m | 0 <= m < n - 1 ensures addr[m] != addr[n - 1] { MulStrict(m + 1, n, a); }
    }
  }

  /** The pointer leads to an allocated node, if anywhere. */
  predicate Bounded(p: Ptr, n: nat) {
    p.Some? ==> p.value < n
  }

  function AddressOf(addr: seq<Usize>, p: Ptr): Usize
    requires Bounded(p, |addr|)
  {
    if p.Some? then addr[p.value] else 0
  }

  /** The machine word of a word of the model. */
  ghost function Encode(addr: seq<Usize>, a: nat, w: Word): Usize
    requires Placed(addr, a) && Bounded(w.ptr, |addr|)
  {
    EncodeFits(addr, a, w);
    Compose(AddressOf(addr, w.ptr), if w.tag then 1 else 0, a)
  }

  lemma EncodeFits(addr: seq<Usize>, a: nat, w: Word)
    requires Placed(addr, a) && Bounded(w.ptr, |addr|)
    ensures Aligned(AddressOf(addr, w.ptr), a)
    ensures forall tag: nat :: tag <= 1 ==> High(AddressOf(addr, w.ptr), a) + Low(tag, a) < WORD
  {
    DivModUnique(0, a, 0, 0);
    var p := AddressOf(addr, w.ptr);
    assert w.ptr.Some? ==> p == addr[w.ptr.value];
    forall tag: nat | tag <= 1 ensures High(p, a) + Low(tag, a) < WORD { DivModUnique(tag, a, 0, tag); }
  }

  /**
    A compare-exchange of machine words is a compare-exchange of pointer-and-tag pairs, provided that
    alignment leaves at least one bit unused.
   */
  lemma EncodeInjective(addr: seq<Usize>, a: nat, v: Word, w: Word)
    requires Placed(addr, a) && Bounded(v.ptr, |addr|) && Bounded(w.ptr, |addr|)
    ensures Encode(addr, a, v) == Encode(addr, a, w) <==> v == w
  {
    EncodeFits(addr, a, v);
    EncodeFits(addr, a, w);
    DecomposeCompose(AddressOf(addr, v.ptr), if v.tag then 1 else 0, a);
    DecomposeCompose(AddressOf(addr, w.ptr), if w.tag then 1 else 0, a);
    var p, q := AddressOf(addr, v.ptr), AddressOf(addr, w.ptr);
    if p == q && v.ptr.Some? && w.ptr.Some? { assert addr[v.ptr.value] == addr[w.ptr.value]; }
  }

  /** Without an unused bit the tag is lost: this is why alignment 1 would not do. */
  lemma NoTagAtAlignOne(ptr: Usize, tag: nat)
    ensures High(ptr, 1) + Low(tag, 1) < WORD && Compose(ptr, tag, 1) == ptr
  {
    ProvenanceKeepsAddress(ptr, ptr);
  }

  // ------------------------------------------------------------------ compare_exchange_tag

  datatype Outcome = Running | Stored(at: nat, word: Usize) | Refused(at: nat, tag: nat)

  /**
    `compare_exchange_tag(e_tag, tag)`: seen[0] is the word that the first load meets, and seen[i] the word
    that the i-th compare-exchange meets; between them other threads may do anything. `Running` says that
    the exchanges listed were not enough.
   */
  method CompareExchangeTag(seen: seq<Usize>, eTag: nat, tag: nat, k: nat) returns (r: Outcome)
    requires 1 <= k <= 64 && |seen| > 0 && eTag < Pow2(k) && tag < Pow2(k)
    ensures r.Stored? ==> 1 <= r.at < |seen| && Low(seen[r.at], Pow2(k)) == eTag
    ensures r.Stored? ==> Decompose(r.word, Pow2(k)) == (High(seen[r.at], Pow2(k)), tag)
    ensures r.Refused? ==> 1 <= r.at < |seen| && r.tag == Low(seen[r.at], Pow2(k)) && r.tag != eTag
    ensures r != Running ==> forall i :: 1 <= i < r.at ==>
              Low(seen[i], Pow2(k)) == eTag && High(seen[i], Pow2(k)) != High(seen[i - 1], Pow2(k))
    ensures r == Running ==> forall i :: 1 <= i < |seen| ==>
              Low(seen[i], Pow2(k)) == eTag && High(seen[i], Pow2(k)) != High(seen[i - 1], Pow2(k))
  {
    var a := Pow2(k);
    ProvenanceKeepsAddress(High(seen[0], a), seen[0]);
    var ptr := Decompose(seen[0], a).0;
    var i := 1;
    while i < |seen|
      invariant 1 <= i <= |seen| && ptr == High(seen[i - 1], a)
      invariant forall j :: 1 <= j < i ==> Low(seen[j], a) == eTag && High(seen[j], a) != High(seen[j - 1], a)
    {
      ComposeFits(ptr, eTag, k);
      ComposeFits(ptr, tag, k);
      ExpectedMatches(seen[i - 1], seen[i], eTag, a);
      if seen[i] == Compose(ptr, eTag, a) {
        HighTwice(seen[i - 1], a);
        DivModUnique(tag, a, 0, tag);
        DecomposeCompose(ptr, tag, a);
        return Stored(i, Compose(ptr, tag, a));
      }
      var (otherPtr, otherTag) := Decompose(seen[i], a);
      if otherTag != eTag { return Refused(i, otherTag); }
      ProvenanceKeepsAddress(High(seen[i], a), seen[i]);
      ptr := otherPtr;
      i := i + 1;
    }
    r := Running;
  }

  lemma HighTwice(x: nat, a: nat)
    requires a > 0
    ensures High(High(x, a), a) == High(x, a)
  {
    MaskLemma(x, a);
    DivModUnique(High(x, a), a, x / a, 0);
  }

  /** The exchange succeeds exactly when the word met has the pointer seen before and the expected tag. */
  lemma ExpectedMatches(last: Usize, now: Usize, tag: nat, a: nat)
    requires a > 0 && tag < a && High(High(last, a), a) + Low(tag, a) < WORD
    ensures now == Compose(High(last, a), tag, a) <==> High(now, a) == High(last, a) && Low(now, a) == tag
  {
    var p := High(last, a);
    HighTwice(last, a);
    DivModUnique(tag, a, 0, tag);
    ProvenanceKeepsAddress(p + tag, p);
    MaskLemma(last, a);
    DivModUnique(p + tag, a, last / a, tag);
  }
}
