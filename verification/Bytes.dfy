/** Bytes, and numbers as little-endian byte strings. */
module Bytes {
  import Bits

  type Byte = b: int | 0 <= b < 256 witness 0

  function Pow256(n: nat): (r: nat)
    ensures r > 0
  {
    if n == 0 then 1 else 256 * Pow256(n - 1)
  }

  /** The `n` low bytes of `v`, least significant first. */
  function ToLittle(v: nat, n: nat): (r: seq<Byte>)
    ensures |r| == n
  {
    if n == 0 then [] else [v % 256] + ToLittle(v / 256, n - 1)
  }

  lemma DivDiv(v: nat, a: nat, b: nat)
    requires a > 0 && b > 0
    ensures a * b > 0 && v / a / b == v / (a * b)
  {
    var q, r := v / a, v % a;
    var q2, r2 := q / b, q % b;
    assert v == a * q + r && q == b * q2 + r2;
    assert a * (b * q2 + r2) == a * b * q2 + a * r2;
    Bits.MulStep(a, r2, b);
    Bits.ModUnique(v, a * b, q2, a * r2 + r);
  }

  /** Byte `i` is the digit of weight 256^i. */
  lemma {:induction false} LittleDigit(v: nat, n: nat, i: nat)
    requires i < n
    ensures ToLittle(v, n)[i] == v / Pow256(i) % 256
  {
    if i > 0 {
      LittleDigit(v / 256, n - 1, i - 1);
      DivDiv(v, 256, Pow256(i - 1));
      hide ToLittle;
      assert ToLittle(v, n)[i] == ToLittle(v / 256, n - 1)[i - 1] by { LittleTail(v, n); }
    }
  }

  lemma LittleTail(v: nat, n: nat)
    requires n > 0
    ensures ToLittle(v, n) == [v % 256] + ToLittle(v / 256, n - 1)
  {
  }

  function FromLittle(bs: seq<Byte>): (r: nat)
    ensures r < Pow256(|bs|)
  {
    if bs == [] then 0 else bs[0] + 256 * FromLittle(bs[1..])
  }

  lemma {:induction false} LittleRoundTrip(v: nat, n: nat)
    requires v < Pow256(n)
    ensures FromLittle(ToLittle(v, n)) == v
  {
    if n > 0 { LittleRoundTrip(v / 256, n - 1); }
  }

  lemma LowByte(b: Byte, v: nat)
    ensures (b + 256 * v) % 256 == b && (b + 256 * v) / 256 == v
  {
  }

  lemma {:induction false} BytesRoundTrip(bs: seq<Byte>)
    ensures ToLittle(FromLittle(bs), |bs|) == bs
  {
    if bs != [] {
      LowByte(bs[0], FromLittle(bs[1..]));
      BytesRoundTrip(bs[1..]);
      assert bs == [bs[0]] + bs[1..];
    }
  }

  function Reverse(bs: seq<Byte>): (r: seq<Byte>)
    ensures |r| == |bs|
    ensures forall i :: 0 <= i < |bs| ==> r[i] == bs[|bs| - 1 - i]
  {
    if bs == [] then [] else Reverse(bs[1..]) + [bs[0]]
  }

  lemma ReverseTwice(bs: seq<Byte>)
    ensures Reverse(Reverse(bs)) == bs
  {
  }

  lemma ReverseConcat(a: seq<Byte>, b: seq<Byte>)
    ensures Reverse(a + b) == Reverse(b) + Reverse(a)
  {
  }

  lemma Shifted(b: Byte, low: nat, power: nat, high: nat)
    ensures b + 256 * (low + power * high) == b + 256 * low + 256 * power * high
  {
  }

  lemma {:induction false} LittleConcat(a: seq<Byte>, b: seq<Byte>)
    ensures FromLittle(a + b) == FromLittle(a) + Pow256(|a|) * FromLittle(b)
  {
    if a == [] {
      assert a + b == b;
    } else {
      LittleConcat(a[1..], b);
      assert (a + b)[1..] == a[1..] + b;
      Shifted(a[0], FromLittle(a[1..]), Pow256(|a| - 1), FromLittle(b));
    }
  }

  lemma Powers()
    ensures Pow256(1) == 0x100 && Pow256(2) == 0x1_0000 && Pow256(4) == 0x1_0000_0000
    ensures Pow256(8) == 0x1_0000_0000_0000_0000
  {
    assert Pow256(4) == 0x1_0000_0000;
    assert Pow256(8) == 256 * (256 * (256 * (256 * Pow256(4))));
  }
}
