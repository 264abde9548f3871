/** `align_up` and the bump arena. */
module Arenas {
  import opened Options
  import opened Words
  import opened Bits
  import opened Bytes

  // ---- align_up ----------------------------------------------------------------------------------------------

  /** `(x + (a - 1)) & ~(a - 1)` on 64-bit words. */
  function AlignUp(x: nat, a: nat): nat {
    var mask := (a - 1) % WORD;
    And((x + mask) % WORD, WORD - 1 - mask)
  }

  ghost predicate LeastMultiple(r: nat, x: nat, a: nat)
    requires a > 0
  {
    r % a == 0 && x <= r && forall m: nat :: m % a == 0 && x <= m ==> r <= m
  }

  lemma MultipleAbove(r: nat, x: nat, a: nat)
    requires a > 0 && r % a == 0 && x <= r < x + a
    ensures LeastMultiple(r, x, a)
  {
    forall m: nat | m % a == 0 && x <= m ensures r <= m {
      MultiplesApart(m, r, a);
    }
  }

  lemma MultiplesApart(m: nat, r: nat, a: nat)
    requires a > 0 && m % a == 0 && r % a == 0
    ensures m < r ==> m + a <= r
  {
    var p, q := m / a, r / a;
    assert m == a * p && r == a * q;
    MulStep(a, p, q);
    MulStep(a, q, p);
  }

  lemma AlignUpMasks(x: nat, k: nat)
    requires x < WORD && k < WORD_BITS
    ensures var y := (x + (Pow2(k) - 1)) % WORD;
      AlignUp(x, Pow2(k)) == y - y % Pow2(k)
  {
    hide And, Pow2;
    var a := Pow2(k);
    WordIsPow2();
    Pow2Monotone(k, WORD_BITS);
    SmallMod(a - 1);
    AndHighMask((x + (a - 1)) % WORD, k, WORD_BITS);
    assert WORD - 1 - (a - 1) == Pow2(WORD_BITS) - a;
  }

  lemma SmallMod(x: nat)
    requires x < WORD
    ensures x % WORD == x
  {
  }

  /** The mask form is the least multiple of the alignment exactly when `x + (a - 1)` does not wrap; otherwise it is 0. */
  lemma AlignUpIsLeastMultiple(x: nat, k: nat)
    requires x < WORD && k < WORD_BITS
    ensures var a := Pow2(k);
      && (LeastMultiple(AlignUp(x, a), x, a) <==> x + a - 1 < WORD)
      && (x + a - 1 >= WORD ==> AlignUp(x, a) == 0)
      && (x + a - 1 < WORD ==> AlignUp(x, a) < x + a)
  {
    hide Pow2, AlignUp, LeastMultiple;
    AlignUpMasks(x, k);
    WordIsPow2();
    Pow2Monotone(k, WORD_BITS);
    RoundedDown(x, Pow2(k));
  }

  /** Rounding `x + (a - 1)` down to a multiple of `a`, with and without wrap-around. */
  lemma RoundedDown(x: nat, a: nat)
    requires 0 < a <= WORD && x < WORD
    ensures var y := (x + (a - 1)) % WORD;
      var r := y - y % a;
      && (LeastMultiple(r, x, a) <==> x + a - 1 < WORD)
      && (x + a - 1 >= WORD ==> r == 0)
      && (x + a - 1 < WORD ==> r < x + a)
  {
    hide LeastMultiple;
    var z := x + (a - 1);
    if z < WORD {
      SmallMod(z);
      BelowNext(z, a);
      MultipleBelow(z, a);
      MultipleAbove(z - z % a, x, a);
    } else {
      ModUnique(z, WORD, 1, z - WORD);
      ModUnique(z - WORD, a, 0, z - WORD);
      ZeroIsBelow(x, a);
    }
  }

  lemma BelowNext(z: nat, a: nat)
    requires a > 0
    ensures z % a < a && z % a <= z
  {
  }

  lemma ZeroIsBelow(x: nat, a: nat)
    requires x > 0 && a > 0
    ensures !LeastMultiple(0, x, a)
  {
  }

  lemma MultipleBelow(y: nat, a: nat)
    requires a > 0
    ensures (y - y % a) % a == 0
  {
    ModUnique(y - y % a, a, y / a, 0);
  }

  // ---- The arena -----------------------------------------------------------------------------------------------

  /** A region handed out. */
  datatype Region = Region(start: nat, bytes: nat, align: nat)

  predicate Aligned(r: Region) {
    r.align > 0 && r.start % r.align == 0
  }

  predicate Disjoint(a: Region, b: Region) {
    a.start + a.bytes <= b.start || b.start + b.bytes <= a.start
  }

  /** Inside `[begin, cur)`, aligned, and pairwise disjoint. */
  ghost predicate RegionsOk(regions: seq<Region>, begin: nat, cur: nat) {
    && (forall i :: 0 <= i < |regions| ==>
      begin <= regions[i].start && regions[i].start + regions[i].bytes <= cur && Aligned(regions[i]))
    && (forall i, j :: 0 <= i < j < |regions| ==> Disjoint(regions[i], regions[j]))
  }

  lemma AppendRegion(regions: seq<Region>, begin: nat, cur: nat, r: Region)
    requires RegionsOk(regions, begin, cur) && begin <= cur <= r.start && Aligned(r)
    ensures RegionsOk(regions + [r], begin, r.start + r.bytes)
  {
    hide Aligned;
  }

  /** The aligned cursor is the start of a region that fits behind all others. */
  lemma Placement(regions: seq<Region>, begin: nat, cur: nat, k: nat, size: nat)
    requires RegionsOk(regions, begin, cur) && begin <= cur < WORD && k < WORD_BITS && cur + Pow2(k) - 1 < WORD
    ensures var r := Region(AlignUp(cur, Pow2(k)), size, Pow2(k));
      && LeastMultiple(r.start, cur, r.align) && cur <= r.start < cur + r.align
      && RegionsOk(regions + [r], begin, r.start + size)
  {
    AlignUpIsLeastMultiple(cur, k);
    hide AlignUp, Pow2;
    AppendRegion(regions, begin, cur, Region(AlignUp(cur, Pow2(k)), size, Pow2(k)));
  }

  /** `allocate`'s own test, in 64-bit arithmetic, tells what fits exactly unless the end wraps to a place inside. */
  lemma FitTestExact(cur: nat, k: nat, size: nat, end: nat)
    requires cur <= end < WORD && k < WORD_BITS && cur + Pow2(k) - 1 < WORD && size < WORD
    ensures var p := AlignUp(cur, Pow2(k));
      ((p + size) % WORD > end <==> p + size > end) <==> p + size < WORD || p + size - WORD > end
  {
    AlignUpIsLeastMultiple(cur, k);
    hide AlignUp, Pow2, LeastMultiple;
    WrapTest(AlignUp(cur, Pow2(k)) + size, end);
  }

  lemma WrapTest(x: nat, end: nat)
    requires end < WORD && x < 2 * WORD
    ensures (x % WORD > end <==> x > end) <==> x < WORD || x - WORD > end
  {
    if x < WORD {
      SmallMod(x);
    } else {
      ModUnique(x, WORD, 1, x - WORD);
    }
  }

  lemma MaxAppend(s: seq<nat>, x: nat)
    ensures MaxOf(s + [x]) == if x > MaxOf(s) then x else MaxOf(s)
  {
    assert (s + [x])[..|s|] == s;
  }

  function MaxOf(s: seq<nat>): (r: nat)
    ensures forall x :: x in s ==> x <= r
    ensures s != [] ==> r in s
    ensures s == [] ==> r == 0
  {
    if s == [] then 0
    else
      var n := |s| - 1;
      var m := MaxOf(s[..n]);
      assert forall x :: x in s ==> x in s[..n] || x == s[n];
      if s[n] > m then s[n] else m
  }

  class LinearArena {
    var begin: nat
    var cur: nat
    var end: nat
    var peak: nat
    var allocCalls: nat
    var bytes: seq<Byte>          // the memory the arena is bound to
    ghost var regions: seq<Region>  // handed out since the last reset
    ghost var marks: seq<nat>       // `used` after each allocation since the memory was bound

    /** Regions are in range, aligned and pairwise disjoint; the peak is the largest mark. */
    ghost predicate Valid()
      reads this
    {
      && begin <= cur <= end < WORD && |bytes| == end - begin
      && RegionsOk(regions, begin, cur)
      && peak == MaxOf(marks) && allocCalls == |marks|
      && (regions != [] ==> cur - begin <= peak)
      && (regions == [] ==> cur == begin)
    }

    constructor (mem: nat, contents: seq<Byte>)
      requires mem + |contents| < WORD
      ensures Valid() && regions == [] && marks == [] && Used() == 0
      ensures begin == mem && bytes == contents && end == mem + |contents|
    {
      begin, cur, end, bytes := mem, mem, mem + |contents|, contents;
      peak, allocCalls, regions, marks := 0, 0, [], [];
    }

    function Used(): int
      reads this
    {
      cur - begin
    }

    function Capacity(): int
      reads this
    {
      end - begin
    }

    /**
      The address is the least aligned one not below the cursor. Null comes back exactly when the request does not fit
      there, and then nothing changes.
    */
    method Allocate(size: nat, ghost k: nat, align: nat) returns (p: Option<nat>)
      requires Valid() && k < WORD_BITS && align == Pow2(k)
      requires cur + align - 1 < WORD && cur + align + size <= WORD
      modifies this
      ensures Valid()
      ensures LeastMultiple(AlignUp(old(cur), align), old(cur), align) && old(cur) <= AlignUp(old(cur), align)
      ensures p.None? <==> AlignUp(old(cur), align) + size > end
      ensures p.None? ==> cur == old(cur) && peak == old(peak) && regions == old(regions) && marks == old(marks)
      ensures p.Some? ==>
        && p.value == AlignUp(old(cur), align)
        && regions == old(regions) + [Region(p.value, size, align)]
        && cur == p.value + size && marks == old(marks) + [Used()]
      ensures begin == old(begin) && end == old(end) && bytes == old(bytes)
    {
      hide AlignUp, Pow2, LeastMultiple, RegionsOk, MaxOf;
      Placement(regions, begin, cur, k, size);
      MaxAppend(marks, AlignUp(cur, align) + size - begin);
      var aligned := AlignUp(cur, align);
      if aligned + size > end {
        return None;
      }
      cur := aligned + size;
      var u := cur - begin;
      if u > peak {
        peak := u;
      }
      allocCalls := allocCalls + 1;
      regions := regions + [Region(aligned, size, align)];
      marks := marks + [u];
      return Some(aligned);
    }

    /** Forgets every region; the peak stays. */
    method Reset()
      requires Valid()
      modifies this
      ensures Valid() && Used() == 0 && regions == [] && peak == old(peak) && marks == old(marks)
      ensures begin == old(begin) && end == old(end) && bytes == old(bytes)
    {
      cur := begin;
      regions := [];
    }

    /** Binds other memory; the statistics start again. */
    method ResetTo(mem: nat, contents: seq<Byte>)
      requires mem + |contents| < WORD
      modifies this
      ensures Valid() && regions == [] && marks == [] && peak == 0 && Used() == 0
      ensures begin == mem && bytes == contents && Capacity() == |contents|
    {
      begin, cur, end, bytes := mem, mem, mem + |contents|, contents;
      peak, allocCalls, regions, marks := 0, 0, [], [];
    }
  }
}
