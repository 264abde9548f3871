/** Taking elements out of sequences. */
module Lists {
  import opened Options

  /** `s` without the elements of `gone`, in order. */
  function Minus<T(==)>(s: seq<T>, gone: seq<T>): (r: seq<T>)
    ensures forall x :: x in r ==> x in s && x !in gone
    ensures forall x :: x in s && x !in gone ==> x in r
  {
    if s == [] then []
    else if s[0] in gone then Minus(s[1..], gone)
    else [s[0]] + Minus(s[1..], gone)
  }

  lemma {:induction false} MinusShorter<T>(s: seq<T>, gone: seq<T>)
    ensures |Minus(s, gone)| <= |s|
  {
    if s != [] { MinusShorter(s[1..], gone); }
  }

  lemma {:induction false} MinusDistinct<T>(s: seq<T>, gone: seq<T>)
    requires Distinct(s)
    ensures Distinct(Minus(s, gone))
  {
    if s != [] {
      assert s == [s[0]] + s[1..];
      MinusDistinct(s[1..], gone);
    }
  }

  lemma {:induction false} MinusOne<T>(s: seq<T>, i: nat)
    requires i < |s| && Distinct(s)
    ensures Minus(s, [s[i]]) == s[..i] + s[i + 1..]
  {
    if i == 0 {
      MinusNone(s[1..], [s[0]]);
    } else {
      MinusOne(s[1..], i - 1);
      assert s[..i] == [s[0]] + s[1..][..i - 1];
    }
  }

  lemma {:induction false} MinusNone<T>(s: seq<T>, gone: seq<T>)
    requires forall x :: x in s ==> x !in gone
    ensures Minus(s, gone) == s
  {
    if s != [] { MinusNone(s[1..], gone); }
  }

  lemma MinusNothing<T>(s: seq<T>)
    ensures Minus(s, []) == s
  {
    MinusNone(s, []);
  }

  lemma {:induction false} MinusMinus<T>(s: seq<T>, gone: seq<T>, more: seq<T>)
    ensures Minus(Minus(s, gone), more) == Minus(s, gone + more)
  {
    if s != [] { MinusMinus(s[1..], gone, more); }
  }

  lemma {:induction false} MinusConcat<T>(a: seq<T>, b: seq<T>, gone: seq<T>)
    ensures Minus(a + b, gone) == Minus(a, gone) + Minus(b, gone)
  {
    if a == [] {
      assert a + b == b;
    } else {
      assert (a + b)[1..] == a[1..] + b;
      MinusConcat(a[1..], b, gone);
    }
  }

  /** What is left keeps its order: `s[n]` sits behind what is left of the elements before it. */
  lemma MinusSplit<T>(s: seq<T>, gone: seq<T>, n: nat) returns (m: nat)
    requires n < |s| && s[n] !in gone
    ensures m < |Minus(s, gone)| && Minus(s, gone)[m] == s[n] && Minus(s, gone)[..m] == Minus(s[..n], gone)
  {
    assert s == s[..n] + s[n..];
    MinusConcat(s[..n], s[n..], gone);
    m := |Minus(s[..n], gone)|;
    assert Minus(s[n..], gone)[0] == s[n];
  }
}
