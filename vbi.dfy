/**
 * The Variable Byte Integer of section 1.5.5 of MQTT Version 5.0: base 128,
 * least significant group first, bit 7 of every byte but the last set as a
 * continuation bit.
 *
 * `Encode` is what `WriteVariable` appends, as written: it emits nothing for
 * an input of 0 or below and has no upper bound. `Decode` is the reader the
 * standard describes (at most four bytes).
 */
module VariableByteInteger {
  import opened Wire

  /** The bytes `WriteVariable(v)` appends. */
  function Encode(v: int): seq<byte>
    decreases if v > 0 then v else 0
  {
    if v <= 0 then []
    else
      var digit := v % 0x80;
      var next := v / 0x80;
      [if next > 0 then digit + 0x80 else digit] + Encode(next)
  }

  /** The number a sequence of groups stands for: the sum of `(b_k & 0x7F) * 128^k`. */
  function Value(s: seq<byte>): int
  {
    if s == [] then 0 else s[0] % 0x80 + 0x80 * Value(s[1..])
  }

  /** 128 to the power n. */
  function Pow128(n: nat): (r: nat)
    ensures r > 0
  {
    if n == 0 then 1 else 0x80 * Pow128(n - 1)
  }

  /**
   * The standard's reader, allowing at most `n` bytes: a byte with bit 7 clear
   * ends the number; running out of bytes or of allowance is malformed.
   */
  function DecodeUpTo(s: seq<byte>, n: nat): (r: Option<(int, seq<byte>)>)
    ensures r.Some? ==> |r.value.1| < |s| && s[|s| - |r.value.1|..] == r.value.1
  {
    if n == 0 || s == [] then None
    else if s[0] < 0x80 then Some((s[0] as int, s[1..]))
    else
      match DecodeUpTo(s[1..], n - 1)
      case None => None
      case Some((x, rest)) => Some((s[0] - 0x80 + 0x80 * x, rest))
  }

  /** A Variable Byte Integer as MQTT 5.0 reads it: one to four bytes. */
  function Decode(s: seq<byte>): (r: Option<(int, seq<byte>)>)
    ensures r.Some? ==> |r.value.1| < |s| && s[|s| - |r.value.1|..] == r.value.1
  {
    DecodeUpTo(s, 4)
  }

  /** Nothing is written for an input of zero or below, and something for every positive one. */
  lemma EncodeEmpty(v: int)
    ensures Encode(v) == [] <==> v <= 0
  {
  }

  /**
   * For a positive input: every byte but the last has its continuation bit set,
   * the last has it clear and is not zero, and the groups add up to the input.
   */
  lemma {:induction false} EncodeShape(v: int)
    requires v > 0
    ensures |Encode(v)| >= 1
    ensures forall k :: 0 <= k < |Encode(v)| - 1 ==> Encode(v)[k] >= 0x80
    ensures 0 < Encode(v)[|Encode(v)| - 1] < 0x80
    ensures Value(Encode(v)) == v
  {
    var next := v / 0x80;
    if next > 0 {
      EncodeShape(next);
    }
  }

  /** A positive input takes at most n bytes exactly when it is below 128^n. */
  lemma {:induction false} EncodeLength(v: int, n: nat)
    requires v > 0
    ensures |Encode(v)| <= n <==> v < Pow128(n)
  {
    if n > 0 && v / 0x80 > 0 {
      EncodeLength(v / 0x80, n - 1);
    }
  }

  /** Inputs 1 to 268,435,455 take one to four bytes. */
  lemma EncodeWithinRange(v: int)
    requires 0 < v <= 268_435_455
    ensures 1 <= |Encode(v)| <= 4
  {
    EncodeLength(v, 4);
  }

  /** Inputs of 268,435,456 and more are not refused: they take more than four bytes. */
  lemma EncodeBeyondRange(v: int)
    requires v >= 268_435_456
    ensures |Encode(v)| > 4
  {
    EncodeLength(v, 4);
  }

  /** A positive input below 128^n has n >= 1 and a quotient by 128 below 128^(n-1). */
  lemma QuotientBound(v: int, n: nat)
    requires 0 < v < Pow128(n)
    ensures n > 0 && v / 0x80 < Pow128(n - 1)
  {
  }

  /** An input of 128 or more is written as its low group with the continuation bit, then the rest. */
  lemma EncodeStep(v: int)
    requires v / 0x80 > 0
    ensures Encode(v) == [v % 0x80 + 0x80] + Encode(v / 0x80)
  {
  }

  /** A byte with the continuation bit set, followed by a readable remainder, reads as one more group. */
  lemma DecodeUpToStep(v: int, n: nat, rest: seq<byte>)
    requires v / 0x80 > 0 && n > 0
    requires DecodeUpTo(Encode(v / 0x80) + rest, n - 1) == Some((v / 0x80, rest))
    ensures DecodeUpTo([v % 0x80 + 0x80] + (Encode(v / 0x80) + rest), n) == Some((v, rest))
  {
    var s := [v % 0x80 + 0x80] + (Encode(v / 0x80) + rest);
    assert s[1..] == Encode(v / 0x80) + rest;
  }

  /** Reading back a positive input below 128^n with an allowance of n bytes gives it back. */
  lemma {:induction false} DecodeUpToEncode(v: int, n: nat, rest: seq<byte>)
    requires 0 < v < Pow128(n)
    ensures DecodeUpTo(Encode(v) + rest, n) == Some((v, rest))
  {
    QuotientBound(v, n);
    if v / 0x80 > 0 {
      DecodeUpToEncode(v / 0x80, n - 1, rest);
      DecodeUpToStep(v, n, rest);
      EncodeStep(v);
      assert Encode(v) + rest == [v % 0x80 + 0x80] + (Encode(v / 0x80) + rest);
    } else {
      var s := Encode(v) + rest;
      assert Encode(v) == [v];
      assert s[1..] == rest;
    }
  }

  /** Every input from 1 to 268,435,455 reads back, whatever follows it. */
  lemma DecodeEncode(v: int, rest: seq<byte>)
    requires 0 < v <= 268_435_455
    ensures Decode(Encode(v) + rest) == Some((v, rest))
  {
    DecodeUpToEncode(v, 4, rest);
  }

  /** A reader with allowance n fails on input whose first n bytes all carry a continuation bit. */
  lemma {:induction false} DecodeUpToRunsOut(s: seq<byte>, n: nat)
    requires n <= |s|
    requires forall k :: 0 <= k < n ==> s[k] >= 0x80
    ensures DecodeUpTo(s, n) == None
  {
    if n > 0 {
      DecodeUpToRunsOut(s[1..], n - 1);
    }
  }

  /**
   * Inputs the standard cannot represent are written anyway and cannot be read
   * back: their first four bytes all carry a continuation bit.
   */
  lemma BeyondRangeUndecodable(v: int, rest: seq<byte>)
    requires v >= 268_435_456
    ensures Decode(Encode(v) + rest) == None
  {
    EncodeBeyondRange(v);
    EncodeShape(v);
    DecodeUpToRunsOut(Encode(v) + rest, 4);
  }

  /**
   * Zero, which the standard writes as the single byte 0x00, is written as
   * nothing at all, so that byte is missing for a reader.
   */
  lemma ZeroWritesNothing(rest: seq<byte>)
    ensures Encode(0) == []
    ensures Decode([0x00] + rest) == Some((0, rest))
    ensures Decode(Encode(0) + []) == None
  {
  }

  /** The worked examples: 127, 128, 16384, and both ends of the four-byte range. */
  lemma EncodeExamples()
    ensures Encode(127) == [0x7F]
    ensures Encode(128) == [0x80, 0x01]
    ensures Encode(16384) == [0x80, 0x80, 0x01]
    ensures Encode(268_435_455) == [0xFF, 0xFF, 0xFF, 0x7F]
    ensures Encode(268_435_456) == [0x80, 0x80, 0x80, 0x80, 0x01]
  {
  }
}
