/** The byte codec: values in network byte order, written on a host of either byte order and read back. */
module Codec {
  import opened Options
  import opened Words
  import opened Bytes

  datatype Order = Little | Big

  // ---- Host integers --------------------------------------------------------------------------------------------

  /** The memory of an `n`-byte integer on this host. */
  function HostBytes(order: Order, v: nat, n: nat): (r: seq<Byte>)
    ensures |r| == n
  {
    if order.Little? then ToLittle(v, n) else Reverse(ToLittle(v, n))
  }

  function FromHost(order: Order, bs: seq<Byte>): (r: nat)
    ensures r < Pow256(|bs|)
  {
    if order.Little? then FromLittle(bs) else FromLittle(Reverse(bs))
  }

  /** Most significant byte first. */
  function NetworkBytes(v: nat, n: nat): seq<Byte> {
    Reverse(ToLittle(v, n))
  }

  /** `htons` and `htonl`: a byte swap on little-endian hosts, nothing on big-endian ones. */
  function Hton(order: Order, v: nat, n: nat): (r: nat)
    requires v < Pow256(n)
    ensures r < Pow256(n)
  {
    if order.Little? then FromLittle(Reverse(ToLittle(v, n))) else v
  }

  /** `htonll`, which is also `ntohll`: each half converted, and the halves exchanged. */
  function Htonll(order: Order, v: nat): (r: nat)
    requires v < Pow256(8)
    ensures r < Pow256(8)
  {
    Powers();
    var high := Hton(order, v / U32, 4);
    var low := Hton(order, v % U32, 4);
    low * U32 + high
  }

  lemma HostRoundTrip(order: Order, v: nat, n: nat)
    requires v < Pow256(n)
    ensures FromHost(order, HostBytes(order, v, n)) == v
  {
    LittleRoundTrip(v, n);
    ReverseTwice(ToLittle(v, n));
  }

  lemma HtonInvolutive(order: Order, v: nat, n: nat)
    requires v < Pow256(n)
    ensures Hton(order, Hton(order, v, n), n) == v
  {
    var bs := ToLittle(v, n);
    BytesRoundTrip(Reverse(bs));
    ReverseTwice(bs);
    LittleRoundTrip(v, n);
  }

  lemma HtonllInvolutive(order: Order, v: nat)
    requires v < Pow256(8)
    ensures Htonll(order, Htonll(order, v)) == v
  {
    hide Hton, Pow256;
    Powers();
    HtonInvolutive(order, v / U32, 4);
    HtonInvolutive(order, v % U32, 4);
    Halves(Hton(order, v % U32, 4), Hton(order, v / U32, 4));
  }

  lemma Halves(high: nat, low: nat)
    requires low < U32
    ensures (high * U32 + low) / U32 == high && (high * U32 + low) % U32 == low
  {
  }

  // ---- What is on the wire -----------------------------------------------------------------------------------------

  lemma SplitWord(low: nat, high: nat)
    requires low < Pow256(4) && high < Pow256(4)
    ensures low + U32 * high < Pow256(8)
    ensures ToLittle(low + U32 * high, 8) == ToLittle(low, 4) + ToLittle(high, 4)
  {
    Powers();
    var bs := ToLittle(low, 4) + ToLittle(high, 4);
    LittleConcat(ToLittle(low, 4), ToLittle(high, 4));
    LittleRoundTrip(low, 4);
    LittleRoundTrip(high, 4);
    BytesRoundTrip(bs);
  }

  lemma WireIsNetworkOrder(order: Order, v: nat, n: nat)
    requires v < Pow256(n)
    ensures HostBytes(order, Hton(order, v, n), n) == NetworkBytes(v, n)
  {
    BytesRoundTrip(Reverse(ToLittle(v, n)));
  }

  /**
    For 64-bit values the wire holds the most significant byte first exactly on little-endian hosts, or when both
    halves are equal: on big-endian hosts the exchange of the halves is left in.
  */
  lemma Wire64IsNetworkOrder(order: Order, v: nat)
    requires v < Pow256(8)
    ensures HostBytes(order, Htonll(order, v), 8) == NetworkBytes(v, 8) <==> order == Little || v / U32 == v % U32
  {
    hide ToLittle, Hton, Reverse, Pow256, FromLittle;
    Powers();
    var high, low := v / U32, v % U32;
    var h, l := Hton(order, high, 4), Hton(order, low, 4);
    assert NetworkBytes(v, 8) == NetworkBytes(high, 4) + NetworkBytes(low, 4) by { ReversedWord(low, high); }
    WireIsNetworkOrder(order, high, 4);
    WireIsNetworkOrder(order, low, 4);
    if order == Little {
      assert HostBytes(order, Htonll(order, v), 8) == HostBytes(order, h, 4) + HostBytes(order, l, 4) by { SplitWord(h, l); }
    } else {
      assert HostBytes(order, Htonll(order, v), 8) == HostBytes(order, l, 4) + HostBytes(order, h, 4) by { ReversedWord(h, l); }
      SameWords(high, low);
    }
  }

  lemma ReversedWord(low: nat, high: nat)
    requires low < Pow256(4) && high < Pow256(4)
    ensures Reverse(ToLittle(low + U32 * high, 8)) == Reverse(ToLittle(high, 4)) + Reverse(ToLittle(low, 4))
  {
    SplitWord(low, high);
    ReverseConcat(ToLittle(low, 4), ToLittle(high, 4));
  }

  /** On a big-endian host the halves go out low word first; that is the network order only if they are equal. */
  lemma SameWords(high: nat, low: nat)
    requires high < Pow256(4) && low < Pow256(4)
    ensures NetworkBytes(low, 4) + NetworkBytes(high, 4) == NetworkBytes(high, 4) + NetworkBytes(low, 4) <==> high == low
  {
    LittleRoundTrip(high, 4);
    LittleRoundTrip(low, 4);
    ReverseTwice(ToLittle(high, 4));
    ReverseTwice(ToLittle(low, 4));
    var a, b := NetworkBytes(high, 4), NetworkBytes(low, 4);
    hide NetworkBytes;
    assert (b + a)[..4] == b && (a + b)[..4] == a;
  }

  // ---- Fields -------------------------------------------------------------------------------------------------------

  /** A typed value; floats are their bit patterns. */
  datatype Field =
    | U8(n: nat) | U16(n: nat) | U32Value(n: nat) | U64(n: nat) | F32(n: nat) | F64(n: nat)
    | Text(chars: seq<Byte>)
    | Raw(bytes: seq<Byte>)

  /** What a reader asks for; raw bytes come with their length. */
  datatype Kind = KU8 | KU16 | KU32 | KU64 | KF32 | KF64 | KText | KRaw(len: nat)

  function KindOf(f: Field): Kind {
    match f
    case U8(_) => KU8
    case U16(_) => KU16
    case U32Value(_) => KU32
    case U64(_) => KU64
    case F32(_) => KF32
    case F64(_) => KF64
    case Text(_) => KText
    case Raw(bs) => KRaw(|bs|)
  }

  predicate Fits(f: Field) {
    match f
    case U8(n) => n < Pow256(1)
    case U16(n) => n < Pow256(2)
    case U32Value(n) => n < Pow256(4)
    case U64(n) => n < Pow256(8)
    case F32(n) => n < Pow256(4)
    case F64(n) => n < Pow256(8)
    case Text(cs) => |cs| < Pow256(8)
    case Raw(_) => true
  }

  function Encode16(order: Order, n: nat): seq<Byte>
    requires n < Pow256(2)
  {
    HostBytes(order, Hton(order, n, 2), 2)
  }

  function Encode32(order: Order, n: nat): seq<Byte>
    requires n < Pow256(4)
  {
    HostBytes(order, Hton(order, n, 4), 4)
  }

  function Encode64(order: Order, n: nat): seq<Byte>
    requires n < Pow256(8)
  {
    HostBytes(order, Htonll(order, n), 8)
  }

  function Encode(order: Order, f: Field): seq<Byte>
    requires Fits(f)
  {
    match f
    case U8(n) => [n % 256]
    case U16(n) => Encode16(order, n)
    case U32Value(n) => Encode32(order, n)
    case U64(n) => Encode64(order, n)
    case F32(n) => Encode32(order, n)
    case F64(n) => Encode64(order, n)
    case Text(cs) => Encode64(order, |cs|) + cs
    case Raw(bs) => bs
  }

  /** Most significant byte first: byte `i` of `n` is the digit of weight 256^(n - 1 - i). */
  lemma NetworkDigit(v: nat, n: nat, i: nat)
    requires i < n
    ensures NetworkBytes(v, n)[i] == v / Pow256(n - 1 - i) % 256
  {
    LittleDigit(v, n, n - 1 - i);
  }

  /**
    What every kind of field puts on the wire: numbers and float patterns most significant byte first, except 64-bit ones on
    a big-endian host with unequal halves; a text as its 64-bit length and its bytes; raw bytes as they are.
  */
  lemma FieldOnTheWire(order: Order, f: Field)
    requires Fits(f)
    ensures match f
      case U8(n) => Encode(order, f) == [n]
      case U16(n) => Encode(order, f) == NetworkBytes(n, 2)
      case U32Value(n) => Encode(order, f) == NetworkBytes(n, 4)
      case F32(n) => Encode(order, f) == NetworkBytes(n, 4)
      case U64(n) => Encode(order, f) == NetworkBytes(n, 8) <==> order == Little || n / U32 == n % U32
      case F64(n) => Encode(order, f) == NetworkBytes(n, 8) <==> order == Little || n / U32 == n % U32
      case Text(cs) => Encode(order, f) == Encode(order, U64(|cs|)) + cs
      case Raw(bs) => Encode(order, f) == bs
  {
    Powers();
    hide HostBytes, Hton, Htonll, NetworkBytes, Pow256;
    match f
    case U8(n) =>
    case U16(n) => WireIsNetworkOrder(order, n, 2);
    case U32Value(n) => WireIsNetworkOrder(order, n, 4);
    case F32(n) => WireIsNetworkOrder(order, n, 4);
    case U64(n) => Wire64IsNetworkOrder(order, n);
    case F64(n) => Wire64IsNetworkOrder(order, n);
    case Text(cs) =>
    case Raw(bs) =>
  }

  // ---- Reading ---------------------------------------------------------------------------------------------------------

  /** A read's value, or `None` for a buffer underflow, and the offset afterwards. */
  datatype Read<T> = Read(value: Option<T>, offset: nat)

  function ReadUInt(order: Order, buf: seq<Byte>, off: nat, n: nat): Read<nat>
    requires n == 1 || n == 2 || n == 4 || n == 8
  {
    if off + n > |buf| then Read(None, off)
    else
      var bs := buf[off..off + n];
      var net := FromHost(order, bs);
      Read(Some(if n == 1 then bs[0] else if n == 8 then Htonll(order, net) else Hton(order, net, n)), off + n)
  }

  function ReadBytes(buf: seq<Byte>, off: nat, len: nat): Read<seq<Byte>> {
    if off + len > |buf| then Read(None, off) else Read(Some(buf[off..off + len]), off + len)
  }

  /** The reader's own test before it reads `len` bytes, in 64-bit arithmetic. */
  predicate TestsUnderflow(buf: seq<Byte>, off: nat, len: nat) {
    (off + len) % WORD > |buf|
  }

  /** The test reports exactly the missing bytes if and only if offset plus length does not wrap. */
  lemma UnderflowTestExact(buf: seq<Byte>, off: nat, len: nat)
    requires off <= |buf| < WORD && len < WORD
    ensures (TestsUnderflow(buf, off, len) <==> ReadBytes(buf, off, len).value.None?) <==> off + len < WORD
  {
    if off + len >= WORD {
      assert (off + len) % WORD == off + len - WORD;
    }
  }

  /** The length is consumed even when the characters are missing. */
  function ReadText(order: Order, buf: seq<Byte>, off: nat): Read<seq<Byte>> {
    var len := ReadUInt(order, buf, off, 8);
    if len.value.None? then Read(None, len.offset) else ReadBytes(buf, len.offset, len.value.value)
  }

  function Wrap<T>(r: Read<T>, make: T -> Field): Read<Field> {
    match r.value
    case None => Read(None, r.offset)
    case Some(x) => Read(Some(make(x)), r.offset)
  }

  function ReadField(order: Order, buf: seq<Byte>, off: nat, kind: Kind): Read<Field> {
    match kind
    case KU8 => Wrap(ReadUInt(order, buf, off, 1), n => U8(n))
    case KU16 => Wrap(ReadUInt(order, buf, off, 2), n => U16(n))
    case KU32 => Wrap(ReadUInt(order, buf, off, 4), n => U32Value(n))
    case KU64 => Wrap(ReadUInt(order, buf, off, 8), n => U64(n))
    case KF32 => Wrap(ReadUInt(order, buf, off, 4), n => F32(n))
    case KF64 => Wrap(ReadUInt(order, buf, off, 8), n => F64(n))
    case KText => Wrap(ReadText(order, buf, off), cs => Text(cs))
    case KRaw(len) => Wrap(ReadBytes(buf, off, len), bs => Raw(bs))
  }

  /** A failed read leaves the offset where it was, except that a text whose length is there has used its length up. */
  lemma FailedReadOffset(order: Order, buf: seq<Byte>, off: nat, kind: Kind)
    requires ReadField(order, buf, off, kind).value.None?
    ensures ReadField(order, buf, off, kind).offset == if kind.KText? && off + 8 <= |buf| then off + 8 else off
  {
    hide Htonll, Hton, FromHost;
  }

  lemma Read16(order: Order, buf: seq<Byte>, off: nat, n: nat)
    requires n < Pow256(2) && off + 2 <= |buf| && buf[off..off + 2] == Encode16(order, n)
    ensures ReadUInt(order, buf, off, 2) == Read(Some(n), off + 2)
  {
    HostRoundTrip(order, Hton(order, n, 2), 2);
    HtonInvolutive(order, n, 2);
  }

  lemma Read32(order: Order, buf: seq<Byte>, off: nat, n: nat)
    requires n < Pow256(4) && off + 4 <= |buf| && buf[off..off + 4] == Encode32(order, n)
    ensures ReadUInt(order, buf, off, 4) == Read(Some(n), off + 4)
  {
    HostRoundTrip(order, Hton(order, n, 4), 4);
    HtonInvolutive(order, n, 4);
  }

  lemma Read64(order: Order, buf: seq<Byte>, off: nat, n: nat)
    requires n < Pow256(8) && off + 8 <= |buf| && buf[off..off + 8] == Encode64(order, n)
    ensures ReadUInt(order, buf, off, 8) == Read(Some(n), off + 8)
  {
    HostRoundTrip(order, Htonll(order, n), 8);
    HtonllInvolutive(order, n);
  }

  /** A field that is wholly there is read back, and the offset moves past it. */
  lemma FieldRoundTrip(order: Order, buf: seq<Byte>, off: nat, f: Field)
    requires Fits(f) && off + |Encode(order, f)| <= |buf|
    requires buf[off..off + |Encode(order, f)|] == Encode(order, f)
    ensures ReadField(order, buf, off, KindOf(f)) == Read(Some(f), off + |Encode(order, f)|)
  {
    hide ReadUInt, Encode16, Encode32, Encode64;
    match f
    case U8(n) => Read8(order, buf, off, n);
    case U16(n) => Size16(order, n); Read16(order, buf, off, n);
    case U32Value(n) => Size32(order, n); Read32(order, buf, off, n);
    case F32(n) => Size32(order, n); Read32(order, buf, off, n);
    case U64(n) => Size64(order, n); Read64(order, buf, off, n);
    case F64(n) => Size64(order, n); Read64(order, buf, off, n);
    case Text(cs) =>
      Size64(order, |cs|);
      var e := Encode64(order, |cs|) + cs;
      assert buf[off..off + 8] == buf[off..off + |e|][..8] == Encode64(order, |cs|);
      assert buf[off + 8..off + |e|] == buf[off..off + |e|][8..] == cs;
      Read64(order, buf, off, |cs|);
    case Raw(_) =>
  }

  lemma Read8(order: Order, buf: seq<Byte>, off: nat, n: nat)
    requires n < Pow256(1) && off + 1 <= |buf| && buf[off..off + 1] == [n % 256]
    ensures ReadUInt(order, buf, off, 1) == Read(Some(n), off + 1)
  {
    Powers();
  }

  lemma Size16(order: Order, n: nat)
    requires n < Pow256(2)
    ensures |Encode16(order, n)| == 2
  {
  }

  lemma Size32(order: Order, n: nat)
    requires n < Pow256(4)
    ensures |Encode32(order, n)| == 4
  {
  }

  lemma Size64(order: Order, n: nat)
    requires n < Pow256(8)
    ensures |Encode64(order, n)| == 8
  {
  }

  /** A field that is cut off is reported as an underflow, never as a value. */
  lemma FieldCutOff(order: Order, buf: seq<Byte>, off: nat, f: Field)
    requires Fits(f) && off <= |buf| < off + |Encode(order, f)|
    requires buf[off..] == Encode(order, f)[..|buf| - off]
    ensures ReadField(order, buf, off, KindOf(f)).value == None
  {
    hide Encode16, Encode32, Encode64;
    match f
    case U8(n) =>
    case U16(n) => Size16(order, n);
    case U32Value(n) => Size32(order, n);
    case F32(n) => Size32(order, n);
    case U64(n) => Size64(order, n);
    case F64(n) => Size64(order, n);
    case Text(cs) =>
      Size64(order, |cs|);
      if off + 8 <= |buf| {
        assert buf[off..off + 8] == buf[off..][..8] == Encode64(order, |cs|);
        Read64(order, buf, off, |cs|);
        hide ReadUInt;
      }
    case Raw(_) =>
  }

  // ---- Whole messages ----------------------------------------------------------------------------------------------------

  ghost predicate AllFit(fs: seq<Field>) {
    forall i :: 0 <= i < |fs| ==> Fits(fs[i])
  }

  ghost function EncodeAll(order: Order, fs: seq<Field>): seq<Byte>
    requires AllFit(fs)
  {
    if fs == [] then [] else Encode(order, fs[0]) + EncodeAll(order, fs[1..])
  }

  function KindsOf(fs: seq<Field>): seq<Kind> {
    if fs == [] then [] else [KindOf(fs[0])] + KindsOf(fs[1..])
  }

  /** The fields read before the first failure, whether there was none, and the offset. */
  datatype Message = Message(fields: seq<Field>, ok: bool, offset: nat)

  function ReadAll(order: Order, buf: seq<Byte>, off: nat, kinds: seq<Kind>): Message
    decreases |kinds|
  {
    if kinds == [] then Message([], true, off)
    else
      var r := ReadField(order, buf, off, kinds[0]);
      if r.value.None? then Message([], false, r.offset)
      else
        var rest := ReadAll(order, buf, r.offset, kinds[1..]);
        rest.(fields := [r.value.value] + rest.fields)
  }

  lemma ReadAllStep(order: Order, buf: seq<Byte>, off: nat, kind: Kind, kinds: seq<Kind>)
    ensures var r, m := ReadField(order, buf, off, kind), ReadAll(order, buf, off, [kind] + kinds);
      if r.value.None? then m == Message([], false, r.offset)
      else var rest := ReadAll(order, buf, r.offset, kinds); m == rest.(fields := [r.value.value] + rest.fields)
  {
    hide ReadField;
    assert ([kind] + kinds)[1..] == kinds;
  }

  lemma CutAfter(buf: seq<Byte>, off: nat, front: seq<Byte>, back: seq<Byte>)
    requires off <= |buf| && buf[off..] == front + back
    ensures off + |front| <= |buf| && buf[off..off + |front|] == front && buf[off + |front|..] == back
  {
    assert buf[off..off + |front|] == buf[off..][..|front|];
    assert buf[off + |front|..] == buf[off..][|front|..];
  }

  lemma ReadBackStep(order: Order, f: Field, fs: seq<Field>, buf: seq<Byte>, off: nat, kinds: seq<Kind>)
    requires Fits(f) && off <= |buf| && Encode(order, f) <= buf[off..]
    requires ReadAll(order, buf, off + |Encode(order, f)|, kinds) == Message(fs, true, |buf|)
    ensures ReadAll(order, buf, off, [KindOf(f)] + kinds) == Message([f] + fs, true, |buf|)
  {
    hide Encode, ReadField, ReadAll, Fits;
    var e := Encode(order, f);
    CutAfter(buf, off, e, buf[off..][|e|..]);
    FieldRoundTrip(order, buf, off, f);
    ReadAllStep(order, buf, off, KindOf(f), kinds);
  }

  lemma {:induction false} ReadBackFrom(order: Order, fs: seq<Field>, buf: seq<Byte>, off: nat)
    requires AllFit(fs) && off <= |buf| && buf[off..] == EncodeAll(order, fs)
    ensures ReadAll(order, buf, off, KindsOf(fs)) == Message(fs, true, |buf|)
    decreases |fs|
  {
    hide Encode, ReadField, KindOf, Fits;
    if fs == [] {
      assert |buf[off..]| == |buf| - off;
    } else {
      var f, rest := fs[0], fs[1..];
      var e, tail := Encode(order, f), EncodeAll(order, rest);
      assert fs == [f] + rest && buf[off..] == e + tail && KindsOf(fs) == [KindOf(f)] + KindsOf(rest);
      hide *;
      CutAfter(buf, off, e, tail);
      ReadBackFrom(order, rest, buf, off + |e|);
      ReadBackStep(order, f, rest, buf, off, KindsOf(rest));
    }
  }

  /** Reading with the types that were written returns the values that were written and uses the whole buffer. */
  lemma RoundTrip(order: Order, fs: seq<Field>)
    requires AllFit(fs)
    ensures var buf := EncodeAll(order, fs);
      ReadAll(order, buf, 0, KindsOf(fs)) == Message(fs, true, |buf|)
  {
    var buf := EncodeAll(order, fs);
    assert buf[0..] == buf;
    ReadBackFrom(order, fs, buf, 0);
  }

  /** `k` is the first field of which fewer than `size` bytes of the encoding hold all. */
  ghost predicate FirstCut(order: Order, fs: seq<Field>, size: nat, k: nat)
    requires AllFit(fs)
  {
    && k < |fs|
    && |EncodeAll(order, fs[..k])| <= size < |EncodeAll(order, fs[..k + 1])|
  }

  lemma {:induction false} CutFrom(order: Order, fs: seq<Field>, buf: seq<Byte>, off: nat)
    requires AllFit(fs) && off <= |buf| < off + |EncodeAll(order, fs)|
    requires buf[off..] == EncodeAll(order, fs)[..|buf| - off]
    ensures var m := ReadAll(order, buf, off, KindsOf(fs));
      && !m.ok && |m.fields| < |fs| && m.fields == fs[..|m.fields|]
      && FirstCut(order, fs, |buf| - off, |m.fields|)
    decreases |fs|
  {
    hide Encode, ReadField;
    var f, tail := fs[0], fs[1..];
    var e, rest := Encode(order, f), EncodeAll(order, tail);
    assert EncodeAll(order, fs) == e + rest && KindsOf(fs) == [KindOf(f)] + KindsOf(tail);
    EncodePrefix(order, fs, 0);
    ReadAllStep(order, buf, off, KindOf(f), KindsOf(tail));
    if |buf| < off + |e| {
      assert buf[off..] == (e + rest)[..|buf| - off] == e[..|buf| - off];
      FieldCutOff(order, buf, off, f);
    } else {
      CutLater(buf, off, e, rest);
      FieldRoundTrip(order, buf, off, f);
      CutFrom(order, tail, buf, off + |e|);
      var k := |ReadAll(order, buf, off + |e|, KindsOf(tail)).fields|;
      FirstCutStep(order, fs, |buf| - off, k);
      assert [f] + tail[..k] == fs[..k + 1];
      hide *;
    }
  }

  lemma FirstCutStep(order: Order, fs: seq<Field>, size: nat, k: nat)
    requires AllFit(fs) && fs != [] && size >= |Encode(order, fs[0])|
    requires k < |fs| - 1 && FirstCut(order, fs[1..], size - |Encode(order, fs[0])|, k)
    ensures FirstCut(order, fs, size, k + 1)
  {
    hide Encode;
    EncodePrefix(order, fs, k);
    EncodePrefix(order, fs, k + 1);
  }

  lemma CutLater(buf: seq<Byte>, off: nat, e: seq<Byte>, rest: seq<Byte>)
    requires off + |e| <= |buf| <= off + |e| + |rest| && buf[off..] == (e + rest)[..|buf| - off]
    ensures buf[off..off + |e|] == e && buf[off + |e|..] == rest[..|buf| - off - |e|]
  {
    assert buf[off..off + |e|] == buf[off..][..|e|] == (e + rest)[..|e|];
    assert buf[off + |e|..] == buf[off..][|e|..];
  }

  /** The encoding of one more field than `k`, by its first field. */
  lemma EncodePrefix(order: Order, fs: seq<Field>, k: nat)
    requires AllFit(fs) && fs != [] && k <= |fs| - 1
    ensures EncodeAll(order, fs[..k + 1]) == Encode(order, fs[0]) + EncodeAll(order, fs[1..][..k])
    ensures EncodeAll(order, fs[..0]) == []
  {
    assert fs[..k + 1][1..] == fs[1..][..k];
  }

  /** Every strict prefix of a message fails at the first field not wholly in it, with every earlier field right. */
  lemma StrictPrefixFails(order: Order, fs: seq<Field>, size: nat)
    requires AllFit(fs) && size < |EncodeAll(order, fs)|
    ensures var m := ReadAll(order, EncodeAll(order, fs)[..size], 0, KindsOf(fs));
      && !m.ok && |m.fields| < |fs| && m.fields == fs[..|m.fields|]
      && FirstCut(order, fs, size, |m.fields|)
  {
    var buf := EncodeAll(order, fs)[..size];
    assert buf[0..] == buf;
    CutFrom(order, fs, buf, 0);
  }
}
