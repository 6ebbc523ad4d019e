/**
 * Fixed-width wire formats of MQTT Version 5.0: single bytes, the Two Byte
 * Integer and Four Byte Integer of sections 1.5.2 and 1.5.3 (big-endian), and
 * the 2-byte length prefix of Binary Data and UTF-8 Encoded Strings
 * (sections 1.5.6 and 1.5.4).
 *
 * Integers are unbounded here; Go's truncating conversion `byte(i)` and its
 * arithmetic shift `i >> k` are written out, so the wrap-around of an
 * oversized value is part of the model.
 */
module Wire {

  /** One octet. */
  type byte = x: int | 0 <= x < 0x100
  /** Go's `uint16`. */
  type u16 = x: int | 0 <= x < 0x1_0000
  /** Go's `uint32`. */
  type u32 = x: int | 0 <= x < 0x1_0000_0000

  datatype Option<T> = None | Some(value: T)

  /** Go's conversion `byte(i)`: the low eight bits of the two's-complement value. */
  function LowByte(i: int): byte
  {
    i % 0x100
  }

  /**
   * The two bytes that `WriteInt16(i)` appends: `byte(i >> 8)` then `byte(i & 0xFF)`.
   * Go's `>>` on a signed integer rounds toward minus infinity, as Dafny's `/` does
   * for a positive divisor.
   */
  function Int16Bytes(i: int): seq<byte>
  {
    [LowByte(i / 0x100), LowByte(i)]
  }

  /** The four bytes that `WriteInt32(i)` appends, most significant first. */
  function Int32Bytes(i: int): seq<byte>
  {
    [LowByte(i / 0x100_0000), LowByte(i / 0x1_0000), LowByte(i / 0x100), LowByte(i)]
  }

  /** Big-endian reading of a Two Byte Integer. */
  function DecodeTwoByte(s: seq<byte>): u16
    requires |s| == 2
  {
    s[0] as int * 0x100 + s[1]
  }

  /** Big-endian reading of a Four Byte Integer. */
  function DecodeFourByte(s: seq<byte>): u32
    requires |s| == 4
  {
    ((s[0] as int * 0x100 + s[1]) * 0x100 + s[2]) * 0x100 + s[3]
  }

  /** What `WriteBinary(b)` (and `WriteString`) appends: `WriteInt16(len(b))`, then `b`. */
  function LengthPrefixed(b: seq<byte>): seq<byte>
  {
    Int16Bytes(|b|) + b
  }

  /**
   * A reader of Binary Data / UTF-8 Encoded String fields as MQTT 5.0 defines
   * them: a Two Byte Integer length n, then n bytes. Returns the field and what
   * follows it.
   */
  function ParseLengthPrefixed(s: seq<byte>): (r: Option<(seq<byte>, seq<byte>)>)
    ensures r.Some? ==> |s| == 2 + |r.value.0| + |r.value.1| && s[2 + |r.value.0|..] == r.value.1
    ensures r.None? <==> |s| < 2 || |s| - 2 < DecodeTwoByte(s[..2])
  {
    if |s| < 2 then None
    else
      var n := DecodeTwoByte(s[..2]);
      if |s| - 2 < n then None else Some((s[2..2 + n], s[2 + n..]))
  }

  /** `WriteInt16` keeps exactly the low 16 bits of its argument: oversized values wrap. */
  lemma TwoByteWraps(i: int)
    ensures |Int16Bytes(i)| == 2
    ensures DecodeTwoByte(Int16Bytes(i)) == i % 0x1_0000
  {
    var q := i / 0x100;
    assert i == 0x1_0000 * (q / 0x100) + 0x100 * (q % 0x100) + i % 0x100;
  }

  /** For a `uint16`, the two bytes are its big-endian encoding, and every two bytes are one. */
  lemma TwoByteRoundTrip(n: u16, s: seq<byte>)
    requires |s| == 2
    ensures DecodeTwoByte(Int16Bytes(n)) == n
    ensures Int16Bytes(DecodeTwoByte(s)) == s
  {
    TwoByteWraps(n);
  }

  /** `WriteInt32` keeps exactly the low 32 bits of its argument: oversized values wrap. */
  lemma FourByteWraps(i: int)
    ensures |Int32Bytes(i)| == 4
    ensures DecodeFourByte(Int32Bytes(i)) == i % 0x1_0000_0000
  {
    var q1 := i / 0x100;
    var q2 := q1 / 0x100;
    var q3 := q2 / 0x100;
    assert i / 0x1_0000 == q2;
    assert i / 0x100_0000 == q3;
    assert i == 0x1_0000_0000 * (q3 / 0x100) + 0x100_0000 * (q3 % 0x100) + 0x1_0000 * (q2 % 0x100)
                + 0x100 * (q1 % 0x100) + i % 0x100;
  }

  /** For a `uint32`, the four bytes are its big-endian encoding, and every four bytes are one. */
  lemma FourByteRoundTrip(n: u32, s: seq<byte>)
    requires |s| == 4
    ensures DecodeFourByte(Int32Bytes(n)) == n
    ensures Int32Bytes(DecodeFourByte(s)) == s
  {
    FourByteWraps(n);
    var hi := s[0] as int * 0x100 + s[1];
    var mid := hi * 0x100 + s[2];
    var x := DecodeFourByte(s);
    assert x == mid * 0x100 + s[3];
    assert x / 0x100 == mid && x % 0x100 == s[3];
    assert mid / 0x100 == hi && mid % 0x100 == s[2];
    assert hi / 0x100 == s[0] && hi % 0x100 == s[1];
    assert x / 0x1_0000 == hi;
    assert x / 0x100_0000 == s[0];
  }

  /**
   * A length-prefixed field is two bytes longer than its content, carries the
   * content verbatim after the prefix, and its prefix reads as the content length
   * modulo 65536 (no range check is made).
   */
  lemma LengthPrefixedLayout(b: seq<byte>)
    ensures |LengthPrefixed(b)| == 2 + |b|
    ensures LengthPrefixed(b)[2..] == b
    ensures DecodeTwoByte(LengthPrefixed(b)[..2]) == |b| % 0x1_0000
  {
    TwoByteWraps(|b|);
    assert LengthPrefixed(b)[..2] == Int16Bytes(|b|);
  }

  /** Content shorter than 65536 bytes reads back exactly, whatever follows it. */
  lemma LengthPrefixedRoundTrip(b: seq<byte>, rest: seq<byte>)
    requires |b| < 0x1_0000
    ensures ParseLengthPrefixed(LengthPrefixed(b) + rest) == Some((b, rest))
  {
    var s := LengthPrefixed(b) + rest;
    LengthPrefixedLayout(b);
    assert s[..2] == LengthPrefixed(b)[..2];
    assert s[2..2 + |b|] == b;
    assert s[2 + |b|..] == rest;
  }

  /**
   * Content of 65536 bytes or more is not refused: its prefix wraps, so a reader
   * takes only the first `|b| mod 65536` bytes as the field and the remainder as
   * whatever follows.
   */
  lemma OversizedLengthPrefixTruncates(b: seq<byte>, rest: seq<byte>)
    requires |b| >= 0x1_0000
    ensures ParseLengthPrefixed(LengthPrefixed(b) + rest)
         == Some((b[..|b| % 0x1_0000], b[|b| % 0x1_0000..] + rest))
    ensures ParseLengthPrefixed(LengthPrefixed(b) + rest) != Some((b, rest))
  {
    var s := LengthPrefixed(b) + rest;
    var n := |b| % 0x1_0000;
    LengthPrefixedLayout(b);
    assert s[..2] == LengthPrefixed(b)[..2];
    assert s[2..2 + n] == b[..n];
    assert s[2 + n..] == b[n..] + rest;
  }

  /** The examples of an empty, a three-byte and a four-character field. */
  lemma LengthPrefixedExamples()
    ensures LengthPrefixed([]) == [0x00, 0x00]
    ensures LengthPrefixed([0x01, 0x02, 0x03]) == [0x00, 0x03, 0x01, 0x02, 0x03]
    ensures LengthPrefixed([0x4D, 0x51, 0x54, 0x54]) == [0x00, 0x04, 0x4D, 0x51, 0x54, 0x54]
  {
  }
}
