/**
 * The byte-level transport primitives that the protocol core reads and
 * writes through (the NetInput / NetOutput interfaces of packetlib).
 *
 * A stream is a `seq<Byte>`; a reader returns the decoded value together
 * with the bytes it did not consume, so a cursor is the remaining suffix.
 * The encodings are the conventional ones: fixed-width integers are
 * big-endian two's complement, a varint is LEB128 over the 32-bit two's
 * complement value (at most five bytes), a boolean is one byte, a UUID is
 * two longs and a string is a varint byte count followed by its UTF-8
 * bytes, which the model keeps as opaque bytes.
 */
module Wire {

  type Byte = b: int | 0 <= b < 256

  type Int8 = x: int | -0x80 <= x < 0x80
  type Int16 = x: int | -0x8000 <= x < 0x8000
  type Int32 = x: int | -0x8000_0000 <= x < 0x8000_0000
  type Int64 = x: int | -0x8000_0000_0000_0000 <= x < 0x8000_0000_0000_0000

  /** The 32-bit pattern of a float; floating point itself is not modelled. */
  type FloatBits = b: int | 0 <= b < 0x1_0000_0000

  /** A string as the UTF-8 bytes the transport writes for it. */
  type StringBytes = seq<Byte>

  /** A UUID as its most and least significant longs. */
  datatype Uuid = Uuid(mostSignificant: Int64, leastSignificant: Int64)

  /** Result of a reader: the value and the unread rest, or a decode error. */
  datatype Decoded<T> = Ok(value: T, rest: seq<Byte>) | Fail

  const TwoTo32: int := 0x1_0000_0000
  const TwoTo64: int := 0x1_0000_0000_0000_0000

  /** Two's complement reading of `x` modulo the even modulus `m`
      (a Java narrowing cast or wrapped arithmetic). */
  function Wrap(x: int, m: int): (r: int)
    requires m > 0 && m % 2 == 0
    ensures -(m / 2) <= r < m / 2
  {
    var u := x % m;
    if u >= m / 2 then u - m else u
  }

  /** Java's `(int)` of a long, and the wrap-around of int arithmetic. */
  function ToInt32(x: int): Int32 { Wrap(x, TwoTo32) }

  /** Java's long wrap-around. */
  function ToInt64(x: int): Int64 { Wrap(x, TwoTo64) }

  /** The moduli the lemmas below are proved for: those of Java's integer
      types and that of a 26-bit position field. */
  predicate JavaModulus(m: int)
  {
    m == 0x100 || m == 0x1_0000 || m == 0x400_0000 || m == TwoTo32 || m == TwoTo64
  }

  lemma WrapInRange(x: int, m: int)
    requires JavaModulus(m)
    requires -(m / 2) <= x < m / 2
    ensures Wrap(x, m) == x
  {
    if m == 0x100 {
    } else if m == 0x1_0000 {
    } else if m == 0x400_0000 {
    } else if m == TwoTo32 {
    } else {
    }
  }

  lemma WrapOfResidue(x: int, m: int)
    requires JavaModulus(m)
    ensures Wrap(x % m, m) == Wrap(x, m)
  {
    if m == 0x100 {
    } else if m == 0x1_0000 {
    } else if m == 0x400_0000 {
    } else if m == TwoTo32 {
    } else {
    }
  }

  function Pow256(n: nat): (p: nat)
    ensures p >= 1
  {
    if n == 0 then 1 else 256 * Pow256(n - 1)
  }

  lemma Pow256Values()
    ensures Pow256(1) == 0x100
    ensures Pow256(2) == 0x1_0000
    ensures Pow256(4) == 0x1_0000_0000
    ensures Pow256(8) == 0x1_0000_0000_0000_0000
  {
    assert Pow256(2) == 256 * Pow256(1);
    assert Pow256(3) == 256 * Pow256(2);
    assert Pow256(4) == 256 * Pow256(3);
    assert Pow256(5) == 256 * Pow256(4);
    assert Pow256(6) == 256 * Pow256(5);
    assert Pow256(7) == 256 * Pow256(6);
    assert Pow256(8) == 256 * Pow256(7);
  }

  /** The `n` low-order bytes of `u`, most significant first. */
  function BigEndian(u: nat, n: nat): (r: seq<Byte>)
    ensures |r| == n
  {
    if n == 0 then [] else BigEndian(u / 256, n - 1) + [u % 256]
  }

  /** The unsigned value of a big-endian byte string. */
  function Unsigned(bs: seq<Byte>): nat
  {
    if |bs| == 0 then 0 else Unsigned(bs[..|bs| - 1]) * 256 + bs[|bs| - 1]
  }

  lemma {:induction false} UnsignedBigEndian(u: nat, n: nat)
    requires u < Pow256(n)
    ensures Unsigned(BigEndian(u, n)) == u
  {
    if n > 0 {
      var b := BigEndian(u, n);
      assert b[..n - 1] == BigEndian(u / 256, n - 1);
      assert u / 256 < Pow256(n - 1);
      UnsignedBigEndian(u / 256, n - 1);
    }
  }

  lemma {:induction false} UnsignedBound(bs: seq<Byte>)
    ensures Unsigned(bs) < Pow256(|bs|)
  {
    if |bs| > 0 {
      UnsignedBound(bs[..|bs| - 1]);
    }
  }

  lemma ConcatAssoc(a: seq<Byte>, b: seq<Byte>, c: seq<Byte>)
    ensures (a + b) + c == a + (b + c)
  {
  }

  // ---- fixed-width writers ------------------------------------------------

  /** `writeByte(int)`: the low eight bits. */
  function WriteByte(v: int): seq<Byte> { [v % 256] }

  /** `writeShort(int)`: the low sixteen bits, big-endian. */
  function WriteShort(v: int): seq<Byte> { BigEndian(v % 0x1_0000, 2) }

  /** `writeLong(long)`: eight bytes, big-endian. */
  function WriteLong(v: Int64): seq<Byte> { BigEndian(v % TwoTo64, 8) }

  function WriteFloat(f: FloatBits): seq<Byte> { BigEndian(f, 4) }

  function WriteBoolean(b: bool): seq<Byte> { [if b then 1 else 0] }

  function WriteUuid(u: Uuid): seq<Byte>
  {
    WriteLong(u.mostSignificant) + WriteLong(u.leastSignificant)
  }

  // ---- fixed-width readers ------------------------------------------------

  /** `readBytes(n)`: exactly `n` raw bytes. */
  function ReadBytes(s: seq<Byte>, n: nat): (d: Decoded<seq<Byte>>)
    ensures d.Ok? <==> |s| >= n
    ensures d.Ok? ==> s == d.value + d.rest && |d.value| == n
  {
    if |s| < n then Fail else Ok(s[..n], s[n..])
  }

  function ReadUnsignedByte(s: seq<Byte>): (d: Decoded<Byte>)
    ensures d.Ok? <==> |s| >= 1
    ensures d.Ok? ==> s == [d.value] + d.rest
  {
    if |s| == 0 then Fail else Ok(s[0], s[1..])
  }

  /** `readByte()`: a signed byte. */
  function ReadByte(s: seq<Byte>): (d: Decoded<Int8>)
    ensures d.Ok? ==> |d.rest| == |s| - 1
  {
    if |s| == 0 then Fail else Ok(Wrap(s[0], 256), s[1..])
  }

  /** `readShort()`: a signed big-endian short. */
  function ReadShort(s: seq<Byte>): (d: Decoded<Int16>)
    ensures d.Ok? ==> |d.rest| == |s| - 2
  {
    if |s| < 2 then Fail else Ok(Wrap(Unsigned(s[..2]), 0x1_0000), s[2..])
  }

  /** `readUnsignedShort()`: an unsigned big-endian short. */
  function ReadUnsignedShort(s: seq<Byte>): (d: Decoded<nat>)
    ensures d.Ok? ==> d.value < 0x1_0000 && |d.rest| == |s| - 2
  {
    if |s| < 2 then Fail
    else
      UnsignedBound(s[..2]);
      Pow256Values();
      Ok(Unsigned(s[..2]), s[2..])
  }

  /** `readLong()`: a signed big-endian long. */
  function ReadLong(s: seq<Byte>): (d: Decoded<Int64>)
    ensures d.Ok? ==> |d.rest| == |s| - 8
  {
    if |s| < 8 then Fail else Ok(Wrap(Unsigned(s[..8]), TwoTo64), s[8..])
  }

  function ReadFloat(s: seq<Byte>): (d: Decoded<FloatBits>)
    ensures d.Ok? ==> |d.rest| == |s| - 4
  {
    if |s| < 4 then Fail
    else
      UnsignedBound(s[..4]);
      Pow256Values();
      Ok(Unsigned(s[..4]), s[4..])
  }

  /** `readBoolean()`: any non-zero byte is true. */
  function ReadBoolean(s: seq<Byte>): (d: Decoded<bool>)
    ensures d.Ok? ==> |d.rest| == |s| - 1
  {
    if |s| == 0 then Fail else Ok(s[0] != 0, s[1..])
  }

  function ReadUuid(s: seq<Byte>): (d: Decoded<Uuid>)
    ensures d.Ok? ==> |d.rest| == |s| - 16
  {
    match ReadLong(s)
    case Fail => Fail
    case Ok(hi, s1) =>
      match ReadLong(s1)
      case Fail => Fail
      case Ok(lo, s2) => Ok(Uuid(hi, lo), s2)
  }

  // ---- varint ---------------------------------------------------------------

  /** LEB128 groups of an unsigned value, least significant group first. */
  function VarIntGroups(u: nat): (r: seq<Byte>)
    ensures |r| >= 1
    decreases u
  {
    if u < 128 then [u] else [u % 128 + 128] + VarIntGroups(u / 128)
  }

  /** `writeVarInt(int)`: LEB128 over the 32-bit two's complement pattern. */
  function WriteVarInt(v: int): seq<Byte> { VarIntGroups(v % TwoTo32) }

  function Pow128(n: nat): (p: nat)
    ensures p >= 1
  {
    if n == 0 then 1 else 128 * Pow128(n - 1)
  }

  /** Reads LEB128 groups, at most `budget` bytes; the value is unbounded. */
  function ReadVarUnsigned(s: seq<Byte>, budget: nat): (d: Decoded<nat>)
    ensures d.Ok? ==> |d.rest| < |s|
    decreases budget
  {
    if |s| == 0 || budget == 0 then Fail
    else if s[0] < 128 then Ok(s[0], s[1..])
    else
      match ReadVarUnsigned(s[1..], budget - 1)
      case Fail => Fail
      case Ok(v, rest) => Ok(s[0] - 128 + 128 * v, rest)
  }

  /** `readVarInt()`: at most five bytes, truncated to a Java int. */
  function ReadVarInt(s: seq<Byte>): (d: Decoded<Int32>)
    ensures d.Ok? ==> |d.rest| < |s|
  {
    match ReadVarUnsigned(s, 5)
    case Fail => Fail
    case Ok(v, rest) => Ok(ToInt32(v), rest)
  }

  /** `writeString`: the byte count as a varint, then the bytes (also the stand-in wire form of a block storage). */
  function WriteLengthPrefixed(str: StringBytes): seq<Byte> { WriteVarInt(|str|) + str }

  function ReadLengthPrefixed(s: seq<Byte>): (d: Decoded<StringBytes>)
    ensures d.Ok? ==> |d.rest| < |s|
  {
    match ReadVarInt(s)
    case Fail => Fail
    case Ok(n, rest) =>
      if n < 0 || |rest| < n then Fail else Ok(rest[..n], rest[n..])
  }

  // ---- round trips ------------------------------------------------------------

  lemma ByteRoundTrip(v: Int8, rest: seq<Byte>)
    ensures ReadByte(WriteByte(v) + rest) == Ok(v, rest)
  {
    assert (WriteByte(v) + rest)[1..] == rest;
  }

  /** Reading a byte back gives the low eight bits of what was written. */
  lemma ByteWrapsAround(v: int, rest: seq<Byte>)
    ensures ReadByte(WriteByte(v) + rest) == Ok(Wrap(v, 0x100), rest)
  {
    assert (WriteByte(v) + rest)[1..] == rest;
    WrapOfResidue(v, 0x100);
  }

  lemma UnsignedByteRoundTrip(v: Byte, rest: seq<Byte>)
    ensures ReadUnsignedByte(WriteByte(v) + rest) == Ok(v, rest)
  {
    assert (WriteByte(v) + rest)[1..] == rest;
  }

  lemma BooleanRoundTrip(b: bool, rest: seq<Byte>)
    ensures ReadBoolean(WriteBoolean(b) + rest) == Ok(b, rest)
  {
    assert (WriteBoolean(b) + rest)[1..] == rest;
  }

  lemma ShortRoundTrip(v: Int16, rest: seq<Byte>)
    ensures ReadShort(WriteShort(v) + rest) == Ok(v, rest)
  {
    var w := WriteShort(v);
    Pow256Values();
    UnsignedBigEndian(v % 0x1_0000, 2);
    assert (w + rest)[..2] == w && (w + rest)[2..] == rest;
    WrapOfResidue(v, 0x1_0000);
    WrapInRange(v, 0x1_0000);
  }

  /** Reading a short back gives the low sixteen bits of what was written. */
  lemma ShortWrapsAround(v: int, rest: seq<Byte>)
    ensures ReadShort(WriteShort(v) + rest) == Ok(Wrap(v, 0x1_0000), rest)
  {
    var w := WriteShort(v);
    Pow256Values();
    UnsignedBigEndian(v % 0x1_0000, 2);
    assert (w + rest)[..2] == w && (w + rest)[2..] == rest;
    WrapOfResidue(v, 0x1_0000);
  }

  lemma UnsignedShortRoundTrip(v: nat, rest: seq<Byte>)
    requires v < 0x1_0000
    ensures ReadUnsignedShort(WriteShort(v) + rest) == Ok(v, rest)
  {
    var w := WriteShort(v);
    Pow256Values();
    UnsignedBigEndian(v, 2);
    assert (w + rest)[..2] == w && (w + rest)[2..] == rest;
  }

  lemma LongRoundTrip(v: Int64, rest: seq<Byte>)
    ensures ReadLong(WriteLong(v) + rest) == Ok(v, rest)
  {
    var w := WriteLong(v);
    Pow256Values();
    UnsignedBigEndian(v % TwoTo64, 8);
    assert (w + rest)[..8] == w && (w + rest)[8..] == rest;
    WrapOfResidue(v, TwoTo64);
    WrapInRange(v, TwoTo64);
  }

  lemma FloatRoundTrip(f: FloatBits, rest: seq<Byte>)
    ensures ReadFloat(WriteFloat(f) + rest) == Ok(f, rest)
  {
    var w := WriteFloat(f);
    Pow256Values();
    UnsignedBigEndian(f, 4);
    assert (w + rest)[..4] == w && (w + rest)[4..] == rest;
  }

  lemma UuidRoundTrip(u: Uuid, rest: seq<Byte>)
    ensures ReadUuid(WriteUuid(u) + rest) == Ok(u, rest)
  {
    var lo := WriteLong(u.leastSignificant);
    assert WriteUuid(u) + rest == WriteLong(u.mostSignificant) + (lo + rest);
    LongRoundTrip(u.mostSignificant, lo + rest);
    LongRoundTrip(u.leastSignificant, rest);
  }

  lemma {:induction false} VarUnsignedRoundTrip(u: nat, budget: nat, rest: seq<Byte>)
    requires 1 <= budget && u < Pow128(budget)
    ensures ReadVarUnsigned(VarIntGroups(u) + rest, budget) == Ok(u, rest)
    decreases u
  {
    var s := VarIntGroups(u) + rest;
    if u < 128 {
      assert s[0] == u && s[1..] == rest;
    } else {
      assert s[0] == u % 128 + 128;
      assert s[1..] == VarIntGroups(u / 128) + rest;
      assert u / 128 < Pow128(budget - 1);
      VarUnsignedRoundTrip(u / 128, budget - 1, rest);
    }
  }

  lemma Pow128Five()
    ensures Pow128(5) == 0x8_0000_0000
  {
    assert Pow128(2) == 128 * Pow128(1);
    assert Pow128(3) == 128 * Pow128(2);
    assert Pow128(4) == 128 * Pow128(3);
    assert Pow128(5) == 128 * Pow128(4);
  }

  lemma VarIntRoundTrip(v: Int32, rest: seq<Byte>)
    ensures ReadVarInt(WriteVarInt(v) + rest) == Ok(v, rest)
  {
    Pow128Five();
    VarUnsignedRoundTrip(v % TwoTo32, 5, rest);
    WrapOfResidue(v, TwoTo32);
    WrapInRange(v, TwoTo32);
  }

  /** A varint is at most five bytes long. */
  lemma {:induction false} VarIntGroupsLength(u: nat, n: nat)
    requires u < Pow128(n) && n >= 1
    ensures |VarIntGroups(u)| <= n
    decreases u
  {
    if u >= 128 {
      assert u / 128 < Pow128(n - 1);
      VarIntGroupsLength(u / 128, n - 1);
    }
  }

  lemma VarIntLength(v: int)
    ensures 1 <= |WriteVarInt(v)| <= 5
  {
    Pow128Five();
    VarIntGroupsLength(v % TwoTo32, 5);
  }

  lemma LengthPrefixedRoundTrip(str: StringBytes, rest: seq<Byte>)
    requires |str| < 0x8000_0000
    ensures ReadLengthPrefixed(WriteLengthPrefixed(str) + rest) == Ok(str, rest)
  {
    assert WriteLengthPrefixed(str) + rest == WriteVarInt(|str|) + (str + rest);
    VarIntRoundTrip(|str|, str + rest);
    assert (str + rest)[..|str|] == str && (str + rest)[|str|..] == rest;
  }
}
