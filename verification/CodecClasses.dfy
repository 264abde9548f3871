/** `ByteWriter` and `ByteReader` with the buffer and the offset they update. */
module CodecClasses {
  import opened Options
  import opened Bytes
  import opened Codec

  class ByteWriter {
    const order: Order
    var buffer: seq<Byte>

    constructor (order: Order)
      ensures buffer == [] && this.order == order
    {
      this.order, buffer := order, [];
    }

    method WriteU8(n: nat)
      requires Fits(U8(n))
      modifies this
      ensures buffer == old(buffer) + Encode(order, U8(n))
    {
      buffer := buffer + [n % 256];
    }

    method WriteU16(n: nat)
      requires Fits(U16(n))
      modifies this
      ensures buffer == old(buffer) + Encode(order, U16(n))
    {
      var net := Hton(order, n, 2);
      buffer := buffer + HostBytes(order, net, 2);
    }

    /** Also `write_f32`, on the bit pattern. */
    method WriteU32(n: nat)
      requires Fits(U32Value(n))
      modifies this
      ensures buffer == old(buffer) + Encode(order, U32Value(n)) == old(buffer) + Encode(order, F32(n))
    {
      var net := Hton(order, n, 4);
      buffer := buffer + HostBytes(order, net, 4);
    }

    /** Also `write_f64`, on the bit pattern. */
    method WriteU64(n: nat)
      requires Fits(U64(n))
      modifies this
      ensures buffer == old(buffer) + Encode(order, U64(n)) == old(buffer) + Encode(order, F64(n))
    {
      var net := Htonll(order, n);
      buffer := buffer + HostBytes(order, net, 8);
    }

    method WriteString(cs: seq<Byte>)
      requires Fits(Text(cs))
      modifies this
      ensures buffer == old(buffer) + Encode(order, Text(cs))
    {
      WriteU64(|cs|);
      buffer := buffer + cs;
    }

    method WriteBytes(bs: seq<Byte>)
      modifies this
      ensures buffer == old(buffer) + Encode(order, Raw(bs))
    {
      buffer := buffer + bs;
    }

    /** A message, field by field: the buffer grows by its encoding. */
    method WriteAll(fs: seq<Field>)
      requires AllFit(fs)
      modifies this
      ensures buffer == old(buffer) + EncodeAll(order, fs)
    {
      hide Encode;
      for i := 0 to |fs|
        invariant buffer + EncodeAll(order, fs[i..]) == old(buffer) + EncodeAll(order, fs)
      {
        assert fs[i..][0] == fs[i] && fs[i..][1..] == fs[i + 1..];
        Write(fs[i]);
      }
      assert fs[|fs|..] == [];
    }

    method Write(f: Field)
      requires Fits(f)
      modifies this
      ensures buffer == old(buffer) + Encode(order, f)
    {
      match f {
        case U8(n) => WriteU8(n);
        case U16(n) => WriteU16(n);
        case U32Value(n) => WriteU32(n);
        case F32(n) => WriteU32(n);
        case U64(n) => WriteU64(n);
        case F64(n) => WriteU64(n);
        case Text(cs) => WriteString(cs);
        case Raw(bs) => WriteBytes(bs);
      }
    }
  }

  class ByteReader {
    const order: Order
    const buffer: seq<Byte>
    var offset: nat

    constructor (order: Order, buffer: seq<Byte>)
      ensures offset == 0 && this.order == order && this.buffer == buffer
    {
      this.order, this.buffer, offset := order, buffer, 0;
    }

    method ReadUInt(n: nat) returns (value: Option<nat>)
      requires n == 1 || n == 2 || n == 4 || n == 8
      modifies this
      ensures Read(value, offset) == Codec.ReadUInt(order, buffer, old(offset), n)
    {
      if offset + n > |buffer| {
        return None;
      }
      var bs := buffer[offset..offset + n];
      offset := offset + n;
      if n == 1 {
        return Some(bs[0]);
      }
      var net := FromHost(order, bs);
      return Some(if n == 8 then Htonll(order, net) else Hton(order, net, n));
    }

    method ReadBytes(len: nat) returns (value: Option<seq<Byte>>)
      modifies this
      ensures Read(value, offset) == Codec.ReadBytes(buffer, old(offset), len)
    {
      if offset + len > |buffer| {
        return None;
      }
      value := Some(buffer[offset..offset + len]);
      offset := offset + len;
    }

    method ReadString() returns (value: Option<seq<Byte>>)
      modifies this
      ensures Read(value, offset) == ReadText(order, buffer, old(offset))
    {
      var len := ReadUInt(8);
      if len.None? {
        return None;
      }
      value := ReadBytes(len.value);
    }

    method ReadField(kind: Kind) returns (value: Option<Field>)
      modifies this
      ensures Read(value, offset) == Codec.ReadField(order, buffer, old(offset), kind)
    {
      hide Codec.ReadUInt, Codec.ReadText, Codec.ReadBytes;
      match kind {
        case KText =>
          var cs := ReadString();
          return if cs.Some? then Some(Text(cs.value)) else None;
        case KRaw(len) =>
          var bs := ReadBytes(len);
          return if bs.Some? then Some(Raw(bs.value)) else None;
        case KU8 =>
          var n := ReadUInt(1);
          return if n.Some? then Some(U8(n.value)) else None;
        case KU16 =>
          var n := ReadUInt(2);
          return if n.Some? then Some(U16(n.value)) else None;
        case KU32 =>
          var n := ReadUInt(4);
          return if n.Some? then Some(U32Value(n.value)) else None;
        case KF32 =>
          var n := ReadUInt(4);
          return if n.Some? then Some(F32(n.value)) else None;
        case KU64 =>
          var n := ReadUInt(8);
          return if n.Some? then Some(U64(n.value)) else None;
        case KF64 =>
          var n := ReadUInt(8);
          return if n.Some? then Some(F64(n.value)) else None;
      }
    }

    /** Reads field after field until one is missing. */
    method ReadMessage(kinds: seq<Kind>) returns (m: Message)
      modifies this
      ensures m == ReadAll(order, buffer, old(offset), kinds) && offset == m.offset
    {
      hide Codec.ReadField;
      var fields := [];
      assert kinds[0..] == kinds;
      for i := 0 to |kinds|
        invariant var rest := ReadAll(order, buffer, offset, kinds[i..]);
          ReadAll(order, buffer, old(offset), kinds) == rest.(fields := fields + rest.fields)
      {
        assert kinds[i..][0] == kinds[i] && kinds[i..][1..] == kinds[i + 1..];
        var f := ReadField(kinds[i]);
        if f.None? {
          return Message(fields, false, offset);
        }
        fields := fields + [f.value];
      }
      return Message(fields, true, offset);
    }
  }

  /** Writing any message and reading it back with its types gives the message again, on either kind of host. */
  method WriteThenRead(order: Order, fs: seq<Field>) returns (m: Message)
    requires AllFit(fs)
    ensures m.fields == fs && m.ok
  {
    hide EncodeAll, ReadAll, KindsOf, AllFit;
    RoundTrip(order, fs);
    var w := new ByteWriter(order);
    w.WriteAll(fs);
    assert w.buffer == EncodeAll(order, fs);
    var r := new ByteReader(order, w.buffer);
    m := r.ReadMessage(KindsOf(fs));
  }
}
