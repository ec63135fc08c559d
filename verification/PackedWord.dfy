/**
  The `height_and_removed` word of a node: six bits of height, the reference count above them, and the
  removed bit on top. A `usize` is 64 bits wide and all updates of it wrap around.
 */
module PackedWord {
  import opened Common

  const REMOVED_MASK: nat := 0x8000_0000_0000_0000
  const REF: nat := 64
  const MAX_REFS: nat := 0x1FF_FFFF_FFFF_FFFF

  datatype Fields = Fields(height: nat, refs: nat, removed: bool)

  /** `& HEIGHT_MASK` keeps the low six bits. */
  function Height(w: Usize): nat { w % REF }

  /** `& !REMOVED_MASK` clears the top bit, and the shift drops the height. */
  function Refs(w: Usize): nat { w % REMOVED_MASK / REF }

  /** No leading zeros: the top bit is set. */
  predicate Removed(w: Usize) { w >= REMOVED_MASK }

  function Unpack(w: Usize): Fields { Fields(Height(w), Refs(w), Removed(w)) }

  predicate Packable(f: Fields) { f.height < REF && f.refs <= MAX_REFS }

  function Pack(f: Fields): Usize
    requires Packable(f)
  {
    f.height + REF * f.refs + if f.removed then REMOVED_MASK else 0
  }

  /** The three fields use disjoint bits and all bits: words and packable fields correspond one to one. */
  lemma PackUnpack(w: Usize, f: Fields)
    ensures Packable(Unpack(w)) && Pack(Unpack(w)) == w
    ensures Packable(f) ==> Unpack(Pack(f)) == f
  {
  }

  /** Comparing words is comparing all three fields. */
  lemma WordsAgree(v: Usize, w: Usize)
    ensures v == w <==> Unpack(v) == Unpack(w)
  {
    PackUnpack(v, Unpack(v));
    PackUnpack(w, Unpack(w));
  }

  // ------------------------------------------------------------------ updates

  /** `fetch_add(1 << (HEIGHT_BITS + 1))`. */
  function AddRef(w: Usize): Usize { (w + REF) % WORD }

  /** `fetch_sub(1 << (HEIGHT_BITS + 1))`. */
  function SubRef(w: Usize): Usize { (w - REF) % WORD }

  /** `old | REMOVED_MASK`. */
  function WithRemoved(w: Usize): Usize { if w >= REMOVED_MASK then w else w + REMOVED_MASK }

  /** An increment changes the count alone, exactly when the count is not at its maximum. */
  lemma AddRefFields(w: Usize)
    ensures Unpack(AddRef(w)) == Unpack(w).(refs := Refs(w) + 1) <==> Refs(w) < MAX_REFS
    ensures Height(AddRef(w)) == Height(w)
  {
    var f := Unpack(w);
    PackUnpack(w, f);
    if f.refs < MAX_REFS {
      var f' := f.(refs := f.refs + 1);
      assert AddRef(w) == Pack(f');
      PackUnpack(w, f');
    } else {
      assert Refs(AddRef(w)) == 0;
    }
  }

  /** A decrement changes the count alone, exactly when the count is not zero; at zero it flips the removed bit. */
  lemma SubRefFields(w: Usize)
    ensures Refs(w) > 0 ==> Unpack(SubRef(w)) == Unpack(w).(refs := Refs(w) - 1)
    ensures Refs(w) == 0 ==> Unpack(SubRef(w)) == Fields(Height(w), MAX_REFS, !Removed(w))
  {
  }

  /** Setting the removed bit changes nothing else, and is visible exactly when the bit was clear. */
  lemma WithRemovedFields(w: Usize)
    ensures Unpack(WithRemoved(w)) == Unpack(w).(removed := true)
    ensures WithRemoved(w) != w <==> !Removed(w)
  {
  }

  // ------------------------------------------------------------------ the word in memory

  datatype Result = Ok(value: nat) | Err(error: nat)

  /** One packed word, with the operations a thread that is alone performs on it. */
  class Packed {
    var word: Usize

    /** `alloc` stores the bare height. */
    constructor (height: nat)
      requires 1 <= height <= HEIGHT
      ensures Unpack(word) == Fields(height, 0, false)
    {
      word := height;
    }

    /** Returns the old word, not the old count. */
    method AddRefRaw() returns (oldWord: Usize)
      modifies this
      ensures oldWord == old(word)
      ensures Unpack(word) == old(Unpack(word)).(refs := old(Refs(word)) + 1) <==> old(Refs(word)) < MAX_REFS
    {
      AddRefFields(word);
      oldWord := word;
      word := AddRef(word);
    }

    /** Never revives a node whose count is zero. */
    method TryAddRef() returns (r: Result)
      modifies this
      ensures old(Refs(word)) == 0 ==> r == Err(old(word)) && word == old(word)
      ensures old(Refs(word)) > 0 ==> r == Ok(old(Refs(word)) + 1)
      ensures old(Refs(word)) > 0 ==>
                (Unpack(word) == old(Unpack(word)).(refs := old(Refs(word)) + 1) <==> old(Refs(word)) < MAX_REFS)
    {
      if Refs(word) == 0 { return Err(word); }
      AddRefFields(word);
      r := Ok(Refs(word) + 1);
      word := AddRef(word);
    }

    method SubRefRaw() returns (oldWord: Usize)
      modifies this
      ensures oldWord == old(word)
      ensures old(Refs(word)) > 0 ==> Unpack(word) == old(Unpack(word)).(refs := old(Refs(word)) - 1)
      ensures old(Refs(word)) == 0 ==> Unpack(word) == Fields(old(Height(word)), MAX_REFS, !old(Removed(word)))
    {
      SubRefFields(word);
      oldWord := word;
      word := SubRef(word);
    }

    /** None stands for the panic; the count otherwise drops by one and is returned. */
    method TrySubRef() returns (r: Option<nat>)
      modifies this
      ensures old(Refs(word)) == 0 ==> r == None && word == old(word)
      ensures old(Refs(word)) > 0 ==> r == Some(Refs(word)) && Unpack(word) == old(Unpack(word)).(refs := old(Refs(word)) - 1)
    {
      if Refs(word) == 0 { return None; }
      SubRefFields(word);
      r := Some(Refs(word) - 1);
      word := SubRef(word);
    }

    /**
      `set_removed`: a load and a compare-exchange. `met` is the word that the compare-exchange meets, whatever
      other threads have made of the loaded one. Succeeds exactly when the bit was clear at the load and no
      field has changed since.
     */
    method SetRemoved(met: Usize) returns (r: Option<Usize>)
      modifies this
      ensures r.Some? <==> !old(Removed(word)) && Unpack(met) == old(Unpack(word))
      ensures r.Some? ==> r.value == met && Unpack(word) == Unpack(met).(removed := true)
      ensures r == None ==> word == if old(Removed(word)) then old(word) else met
    {
      WithRemovedFields(word);
      WordsAgree(word, met);
      var loaded := word;
      var newWord := WithRemoved(loaded);
      if newWord == loaded { return None; }
      word := met;
      if word != loaded { return None; }
      r := Some(word);
      word := newWord;
    }
  }

  // ------------------------------------------------------------------ the height survives

  datatype Update = Add | Sub | SetRemovedBit

  function Apply(w: Usize, us: seq<Update>): Usize
    decreases |us|
  {
    if us == [] then w
    else Apply(match us[0] case Add => AddRef(w) case Sub => SubRef(w) case SetRemovedBit => WithRemoved(w), us[1..])
  }

  datatype Layout = Layout(size: nat, align: nat)

  /** The layout of a node with `height` levels, for the sizes of its fixed part and of one level. */
  function LayoutOf(fixed: nat, level: nat, align: nat, height: nat): Layout
    requires 1 <= height <= HEIGHT
  {
    Layout(fixed + level * (height - 1), align)
  }

  /** Where level i of a tower begins: the first level is the end of the fixed part, the others follow it. */
  function SlotAt(fixed: nat, level: nat, i: nat): nat
    requires level <= fixed
  {
    fixed - level + i * level
  }

  /**
    The layout has room for the whole tower and no more: every level below the height lies inside it, one
    directly behind the other, and the top level ends where it ends.
   */
  lemma LayoutHolds(fixed: nat, level: nat, align: nat, height: nat)
    requires 1 <= height <= HEIGHT && level <= fixed
    ensures var l := LayoutOf(fixed, level, align, height);
            && l.align == align && SlotAt(fixed, level, 0) + level == fixed
            && SlotAt(fixed, level, height - 1) + level == l.size
            && (forall i :: 0 <= i < height ==> SlotAt(fixed, level, i) + level <= l.size)
            && (forall i :: 0 < i < height ==> SlotAt(fixed, level, i) == SlotAt(fixed, level, i - 1) + level)
  {
    hide LayoutOf, SlotAt;
    SlotNext(fixed, level, 0);
    SlotTop(fixed, level, align, height);
    forall i | 0 <= i < height ensures SlotAt(fixed, level, i) <= SlotAt(fixed, level, height - 1) {
      SlotsRise(fixed, level, i, height - 1);
    }
    forall i | 0 < i < height ensures SlotAt(fixed, level, i) == SlotAt(fixed, level, i - 1) + level {
      SlotNext(fixed, level, i - 1);
    }
  }

  lemma SlotNext(fixed: nat, level: nat, i: nat)
    requires level <= fixed
    ensures SlotAt(fixed, level, 0) + level == fixed && SlotAt(fixed, level, i + 1) == SlotAt(fixed, level, i) + level
  {
    assert (i + 1) * level == i * level + level;
  }

  lemma SlotTop(fixed: nat, level: nat, align: nat, height: nat)
    requires 1 <= height <= HEIGHT && level <= fixed
    ensures LayoutOf(fixed, level, align, height).align == align
    ensures SlotAt(fixed, level, height - 1) + level == LayoutOf(fixed, level, align, height).size
  {
    assert (height - 1) * level == level * (height - 1);
  }

  lemma {:induction false} SlotsRise(fixed: nat, level: nat, i: nat, j: nat)
    requires level <= fixed && i <= j
    ensures SlotAt(fixed, level, i) <= SlotAt(fixed, level, j)
    decreases j
  {
    if i < j {
      SlotsRise(fixed, level, i, j - 1);
      SlotNext(fixed, level, j - 1);
      hide SlotAt;
    }
  }

  /**
    However the word of a node has been updated, even across an overflow of the count, the layout that
    `dealloc` computes from it is the one it was allocated with.
   */
  lemma {:induction false} LayoutSurvives(w: Usize, us: seq<Update>, fixed: nat, level: nat, align: nat)
    requires 1 <= Height(w) <= HEIGHT
    ensures Height(Apply(w, us)) == Height(w)
    ensures LayoutOf(fixed, level, align, Height(Apply(w, us))) == LayoutOf(fixed, level, align, Height(w))
    decreases |us|
  {
    if us != [] {
      AddRefFields(w);
      SubRefFields(w);
      WithRemovedFields(w);
      var v := match us[0] case Add => AddRef(w) case Sub => SubRef(w) case SetRemovedBit => WithRemoved(w);
      LayoutSurvives(v, us[1..], fixed, level, align);
    }
  }
}
