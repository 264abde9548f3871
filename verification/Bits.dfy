/** Bitwise "and" on natural numbers, powers of two, and the masks the source builds from them. */
module Bits {
  import opened Words

  function Pow2(k: nat): (r: nat)
    ensures r > 0
  {
    if k == 0 then 1 else 2 * Pow2(k - 1)
  }

  function And(x: nat, y: nat): nat {
    if x == 0 || y == 0 then 0 else 2 * And(x / 2, y / 2) + (x % 2) * (y % 2)
  }

  ghost predicate IsPow2(a: nat) {
    exists k: nat :: a == Pow2(k)
  }

  lemma ModDouble(x: nat, m: nat)
    requires m > 0
    ensures x % (2 * m) == 2 * (x / 2 % m) + x % 2
  {
    var q, r := x / 2 / m, x / 2 % m;
    assert x / 2 == m * q + r;
    assert x == 2 * m * q + (2 * r + x % 2);
    ModUnique(x, 2 * m, q, 2 * r + x % 2);
  }

  lemma ModUnique(x: nat, m: nat, q: nat, r: nat)
    requires m > 0 && r < m && x == m * q + r
    ensures x % m == r && x / m == q
  {
    MulStep(m, x / m, q);
    MulStep(m, q, x / m);
  }

  lemma ModSucc(x: nat, m: nat)
    requires m > 0
    ensures (x % m + 1) % m == (x + 1) % m
  {
    var q, r := x / m, x % m;
    if r + 1 < m {
      ModUnique(x + 1, m, q, r + 1);
      ModUnique(r + 1, m, 0, r + 1);
    } else {
      assert x + 1 == m * (q + 1) + 0;
      ModUnique(x + 1, m, q + 1, 0);
      ModUnique(m, m, 1, 0);
    }
  }

  lemma MulStep(m: nat, a: nat, b: nat)
    ensures a < b ==> m * a + m <= m * b
  {
    if a < b {
      var d: nat := b - a - 1;
      assert m * (a + 1 + d) == m * a + m + m * d;
    }
  }

  /** Masking with 2^k - 1 is the remainder by 2^k. */
  lemma {:induction false} AndLowMask(x: nat, k: nat)
    ensures And(x, Pow2(k) - 1) == x % Pow2(k)
  {
    if k > 0 && x > 0 {
      AndLowMask(x / 2, k - 1);
      ModDouble(x, Pow2(k - 1));
      var y := Pow2(k) - 1;
      assert y / 2 == Pow2(k - 1) - 1 && y % 2 == 1;
      assert And(x, y) == 2 * And(x / 2, y / 2) + x % 2;
    } else if x == 0 {
      ModUnique(0, Pow2(k), 0, 0);
    }
  }

  /** Masking a `bits`-wide word with the complement of 2^k - 1 clears its remainder by 2^k. */
  lemma {:induction false} AndHighMask(x: nat, k: nat, bits: nat)
    requires k <= bits && x < Pow2(bits)
    ensures Pow2(k) <= Pow2(bits)
    ensures And(x, Pow2(bits) - Pow2(k)) == x - x % Pow2(k)
  {
    if k == 0 {
      AndLowMaskAll(x, bits);
    } else {
      AndHighMask(x / 2, k - 1, bits - 1);
      var p, y := Pow2(k - 1), Pow2(bits - 1) - Pow2(k - 1);
      assert Pow2(k) == 2 * p && Pow2(bits) - Pow2(k) == 2 * y;
      ModDouble(x, p);
      EvenMask(x, y);
      hide Pow2, And;
      assert x == 2 * (x / 2) + x % 2;
    }
  }

  lemma EvenMask(x: nat, y: nat)
    ensures And(x, 2 * y) == 2 * And(x / 2, y)
  {
    assert 2 * y / 2 == y && 2 * y % 2 == 0;
  }

  lemma {:induction false} AndLowMaskAll(x: nat, bits: nat)
    requires x < Pow2(bits)
    ensures And(x, Pow2(bits) - 1) == x && x % Pow2(0) == 0
  {
    AndLowMask(x, bits);
    ModUnique(x, Pow2(bits), 0, x);
  }

  lemma {:induction false} Pow2Monotone(a: nat, b: nat)
    requires a <= b
    ensures Pow2(a) <= Pow2(b)
    ensures a < b ==> Pow2(a) < Pow2(b)
  {
    if a < b { Pow2Monotone(a, b - 1); }
  }

  /** The source's power-of-two test. */
  lemma {:induction false} PowerOfTwoTest(a: nat)
    ensures a > 0 && And(a, a - 1) == 0 <==> IsPow2(a)
  {
    if a > 0 {
      if a % 2 == 1 {
        OddTest(a);
      } else {
        PowerOfTwoTest(a / 2);
        assert (a - 1) / 2 == a / 2 - 1 && (a - 1) % 2 == 1;
        assert And(a, a - 1) == 2 * And(a / 2, a / 2 - 1);
        if IsPow2(a / 2) {
          var k: nat :| a / 2 == Pow2(k);
          assert a == Pow2(k + 1);
        }
        if IsPow2(a) {
          var k: nat :| a == Pow2(k);
          assert a / 2 == Pow2(k - 1);
        }
      }
    }
  }

  lemma OddTest(a: nat)
    requires a % 2 == 1
    ensures And(a, a - 1) == 0 <==> a == 1
    ensures IsPow2(a) <==> a == 1
  {
    assert (a - 1) / 2 == a / 2;
    if a > 1 { AndSelf(a / 2); }
    assert a == 1 ==> a == Pow2(0);
    if IsPow2(a) {
      var k: nat :| a == Pow2(k);
      assert k == 0;
    }
  }

  lemma {:induction false} AndSelf(x: nat)
    ensures And(x, x) == x
  {
    if x > 0 {
      AndSelf(x / 2);
      assert x == 2 * (x / 2) + x % 2;
    }
  }

  lemma WordIsPow2()
    ensures WORD == Pow2(WORD_BITS)
  {
    SixteenBits();
    hide Pow2;
    Pow2Add(16, 16);
    Pow2Add(32, 32);
  }

  lemma SixteenBits()
    ensures Pow2(16) == 0x1_0000
  {
    assert Pow2(4) == 16;
    Pow2Add(4, 4);
    Pow2Add(8, 8);
  }

  lemma {:induction false} Pow2Add(a: nat, b: nat)
    ensures Pow2(a + b) == Pow2(a) * Pow2(b)
  {
    if a > 0 { Pow2Add(a - 1, b); }
  }
}
