/**
 * The MQTT 5.0 encoder of src/protocol/mqtt/encoder.go: one growable byte
 * buffer that every `Write*` method appends to.
 *
 * Go's `bytes.Buffer` is the sequence field `w`; each method states the whole
 * new buffer as the old one followed by the bytes the corresponding function
 * of `Wire`, `VariableByteInteger` or `Properties` describes, so nothing
 * already written ever changes.
 */
module Encoding {
  import opened Wire
  import VariableByteInteger
  import opened Properties
  import opened PropertyProofs
  import PropertyLayout

  class Encoder {
    /** The bytes written so far. */
    var w: seq<byte>

    /** `newEncoder`: an empty buffer. */
    constructor()
      ensures w == []
    {
      w := [];
    }

    /** The bytes written so far. */
    function Bytes(): (r: seq<byte>)
      reads this
      ensures |r| == Len()
    {
      w
    }

    /** How many bytes have been written. */
    function Len(): (n: nat)
      reads this
      ensures n == |w|
    {
      |w|
    }

    /** Appends one byte. */
    method WriteByte(b: byte)
      modifies this
      ensures w == old(w) + [b]
      ensures Len() == old(Len()) + 1
    {
      w := w + [b];
    }

    /** Appends the low eight bits of `i` (Go's `byte(i)`). */
    method WriteInt(i: int)
      modifies this
      ensures w == old(w) + [LowByte(i)]
      ensures Len() == old(Len()) + 1 && w[|w| - 1] == i % 0x100
    {
      w := w + [LowByte(i)];
    }

    /** Appends a `uint8` unchanged. */
    method WriteUint8(i: byte)
      modifies this
      ensures w == old(w) + [i]
    {
      WriteInt(i);
    }

    /** Appends `byte(i >> 8)` then `byte(i & 0xFF)`: the low 16 bits, big-endian. */
    method WriteInt16(i: int)
      modifies this
      ensures w == old(w) + Int16Bytes(i)
      ensures Len() == old(Len()) + 2
      ensures DecodeTwoByte(w[old(Len())..]) == i % 0x1_0000
    {
      TwoByteWraps(i);
      w := w + Int16Bytes(i);
      assert w[old(Len())..] == Int16Bytes(i);
    }

    /** Appends a `uint16` as a Two Byte Integer, which reads back as the same number. */
    method WriteUint16(i: u16)
      modifies this
      ensures w == old(w) + Int16Bytes(i)
      ensures DecodeTwoByte(w[old(Len())..]) == i
    {
      WriteInt16(i);
    }

    /** Appends the low 32 bits of `i`, most significant byte first. */
    method WriteInt32(i: int)
      modifies this
      ensures w == old(w) + Int32Bytes(i)
      ensures Len() == old(Len()) + 4
      ensures DecodeFourByte(w[old(Len())..]) == i % 0x1_0000_0000
    {
      FourByteWraps(i);
      w := w + Int32Bytes(i);
      assert w[old(Len())..] == Int32Bytes(i);
    }

    /** Appends a `uint32` as a Four Byte Integer, which reads back as the same number. */
    method WriteUint32(i: u32)
      modifies this
      ensures w == old(w) + Int32Bytes(i)
      ensures DecodeFourByte(w[old(Len())..]) == i
    {
      WriteInt32(i);
    }

    /** Appends a string as a UTF-8 Encoded String: its length in two bytes, then its bytes. */
    method WriteString(str: seq<byte>)
      modifies this
      ensures w == old(w) + LengthPrefixed(str)
    {
      WriteBinary(str);
    }

    /** Appends a string's bytes with no length prefix. */
    method WriteStringAll(str: seq<byte>)
      modifies this
      ensures w == old(w) + str
    {
      WriteBytes(str);
    }

    /**
     * Appends Binary Data: `WriteInt16(len(b))`, then `b`. The length is not
     * checked, so from 65536 bytes on the prefix wraps.
     */
    method WriteBinary(b: seq<byte>)
      modifies this
      ensures w == old(w) + LengthPrefixed(b)
      ensures Len() == old(Len()) + 2 + |b|
      ensures w[old(Len()) + 2..] == b
      ensures DecodeTwoByte(w[old(Len())..old(Len()) + 2]) == |b| % 0x1_0000
    {
      WriteInt16(|b|);
      w := w + b;
      LengthPrefixedLayout(b);
      assert w[old(Len())..] == LengthPrefixed(b);
    }

    /** Appends bytes verbatim. */
    method WriteBytes(b: seq<byte>)
      modifies this
      ensures w == old(w) + b
    {
      w := w + b;
    }

    /**
     * Appends `v` as a Variable Byte Integer: seven bits at a time, least
     * significant first, with bit 7 set on every byte but the last. The loop
     * runs while `v > 0`, so nothing is written for 0, and there is no upper
     * bound.
     */
    method WriteVariable(v: int)
      modifies this
      ensures w == old(w) + VariableByteInteger.Encode(v)
    {
      var b: seq<byte> := [];
      var x := v;
      while x > 0
        invariant b + VariableByteInteger.Encode(x) == VariableByteInteger.Encode(v)
        decreases x
      {
        var digit := x % 0x80;
        x := x / 0x80;
        if x > 0 {
          // `digit |= 0x80` on a digit below 0x80
          digit := digit + 0x80;
        }
        b := b + [digit];
      }
      w := w + b;
    }

    /**
     * Appends a property block: the body built by the chain of 27 `if` tests,
     * behind its length as a Variable Byte Integer. The returned `order` is
     * the order in which the Go map yielded its keys. The tests run in source
     * order, a few at a time in the `AppendTests` methods below; after the
     * first k tests `buf` holds `Upto(p, order, k)`.
     */
    method WriteProperty(p: Props) returns (ghost order: seq<seq<byte>>)
      modifies this
      ensures IsEnumeration(order, p.userProperty)
      ensures w == old(w) + Block(p, order)
    {
      var buf := AppendTests0To2(p);
      buf := AppendTests3To5(buf, p);
      buf := AppendTests6To8(buf, p);
      buf := AppendTests9To11(buf, p);
      buf := AppendTests12To14(buf, p);
      buf := AppendTests15To17(buf, p);
      buf := AppendTests18To19(buf, p);
      buf := AppendTests20To21(buf, p);
      buf, order := AppendTest22(buf, p);
      buf := AppendTests23To24(buf, p, order);
      buf := AppendTests25To26(buf, p, order);
      FrameIsBlock(p, order, buf);
      ghost var before := w;
      WriteVariable(|buf|);
      w := w + buf;
      AppendAssoc(before, VariableByteInteger.Encode(|buf|), buf);
    }
  }

  /**
   * The bytes of the first k branches of the chain, as the table of
   * identifiers, presence rules and values describes them.
   */
  ghost function Upto(p: Props, order: seq<seq<byte>>, k: nat): seq<byte>
    requires k <= Kinds
  {
    if k == 0 then [] else Upto(p, order, k - 1) + Flatten(Piece(p, order, At(k - 1)))
  }

  /** All 27 branches give the body. */
  lemma UptoBody(p: Props, order: seq<seq<byte>>)
    ensures Upto(p, order, Kinds) == Body(p, order)
  {
    UptoConcat(p, order, Kinds);
    assert Branches(p, order)[..Kinds] == Branches(p, order);
  }

  /** The first k branches, read off the table as a concatenation of pieces. */
  lemma {:induction false} UptoConcat(p: Props, order: seq<seq<byte>>, k: nat)
    requires k <= Kinds
    ensures Upto(p, order, k) == Flatten(Concat(Branches(p, order)[..k]))
  {
    var ps := Branches(p, order);
    if k > 0 {
      UptoConcat(p, order, k - 1);
      var front, last := ps[..k - 1], ps[k - 1];
      assert ps[..k][..k - 1] == front;
      assert Concat(ps[..k]) == Concat(front) + last;
      FlattenAppend(Concat(front), last);
      assert last == Piece(p, order, At(k - 1));
    }
  }

  /** The 27 branches behind their length are the property block. */
  lemma FrameIsBlock(p: Props, order: seq<seq<byte>>, buf: seq<byte>)
    requires buf == Upto(p, order, Kinds)
    ensures VariableByteInteger.Encode(|buf|) + buf == Block(p, order)
  {
    UptoBody(p, order);
  }

  /** Appending is associative (stated once, so that proofs need not rediscover it). */
  lemma AppendAssoc(a: seq<byte>, b: seq<byte>, c: seq<byte>)
    ensures (a + b) + c == a + (b + c)
  {
  }

  /** The branches before the user properties do not depend on the map order. */
  lemma {:induction false} UptoOrderFree(p: Props, o1: seq<seq<byte>>, o2: seq<seq<byte>>, k: nat)
    requires k <= 22
    ensures Upto(p, o1, k) == Upto(p, o2, k)
  {
    if k > 0 {
      UptoOrderFree(p, o1, o2, k - 1);
      var id := At(k - 1);
      AtBeforeUserProperty(k - 1);
      PieceOrderFree(p, o1, o2, id);
      assert Upto(p, o1, k) == Upto(p, o1, k - 1) + Flatten(Piece(p, o1, id));
      assert Upto(p, o2, k) == Upto(p, o2, k - 1) + Flatten(Piece(p, o2, id));
    }
  }

  /** The first 22 tests are all before the user-property test. */
  lemma AtBeforeUserProperty(j: nat)
    requires j < 22
    ensures At(j) != UserProperty
  {
  }

  /** Only the user-property branch depends on the map order. */
  lemma PieceOrderFree(p: Props, o1: seq<seq<byte>>, o2: seq<seq<byte>>, id: Identifier)
    requires id != UserProperty
    ensures Piece(p, o1, id) == Piece(p, o2, id)
  {
  }

  /** The user-property branch adds the map's entries in the order walked, and nothing for an empty map. */
  lemma UserPropertiesStep(p: Props, order: seq<seq<byte>>)
    requires IsEnumeration(order, p.userProperty)
    ensures Upto(p, order, 23) == Upto(p, [], 22) + (if |p.userProperty| > 0 then Flatten(UserProperties(p.userProperty, order)) else [])
  {
    UptoOrderFree(p, [], order, 22);
    var m := p.userProperty;
    assert Piece(p, order, At(22)) == UserProperties(m, order);
    assert Upto(p, order, 23) == Upto(p, order, 22) + Flatten(UserProperties(m, order));
    if |m| == 0 {
      PropertyLayout.EnumerationLength(order, m);
      assert order == [];
    }
  }

  // The Go code is one chain of 27 tests. It is split over the `AppendTests…`
  // methods below only to keep each proof within the verifier's budget.

  /** Tests 0 to 2 of the chain in `WriteProperty`, on the empty buffer it starts from. */
  method AppendTests0To2(p: Props) returns (buf': seq<byte>)
    ensures buf' == Upto(p, [], 3)
  {
    buf' := [];
    buf' := AppendIf(buf', p.payloadFormatIndicator > 0, PayloadFormatIndicator, ByteValue(p.payloadFormatIndicator), p, [], 0);
    buf' := AppendIf(buf', p.messageExpiryInterval > 0, MessageExpiryInterval, FourByteValue(p.messageExpiryInterval), p, [], 1);
    buf' := AppendIf(buf', p.contentType != [], ContentType, DataValue(p.contentType), p, [], 2);
  }

  /** Tests 3 to 5 of the chain in `WriteProperty`. */
  method AppendTests3To5(buf: seq<byte>, p: Props) returns (buf': seq<byte>)
    requires buf == Upto(p, [], 3)
    ensures buf' == Upto(p, [], 6)
  {
    buf' := buf;
    buf' := AppendIf(buf', p.responseTopic != [], ResponseTopic, DataValue(p.responseTopic), p, [], 3);
    buf' := AppendIf(buf', |p.correlationData| > 0, CorrelationData, DataValue(p.correlationData), p, [], 4);
    buf' := AppendIf(buf', p.subscriptionIdentifier > 0, SubscriptionIdentifier, VariableValue(p.subscriptionIdentifier), p, [], 5);
  }

  /** Tests 6 to 8 of the chain in `WriteProperty`. */
  method AppendTests6To8(buf: seq<byte>, p: Props) returns (buf': seq<byte>)
    requires buf == Upto(p, [], 6)
    ensures buf' == Upto(p, [], 9)
  {
    buf' := buf;
    buf' := AppendIf(buf', p.sessionExpiryInterval > 0, SessionExpiryInterval, FourByteValue(p.sessionExpiryInterval), p, [], 6);
    buf' := AppendIf(buf', p.assignedClientIdentifier != [], AssignedClientIdentifier, DataValue(p.assignedClientIdentifier), p, [], 7);
    buf' := AppendIf(buf', p.serverKeepAlive > 0, ServerKeepAlive, TwoByteValue(p.serverKeepAlive), p, [], 8);
  }

  /** Tests 9 to 11 of the chain in `WriteProperty`. */
  method AppendTests9To11(buf: seq<byte>, p: Props) returns (buf': seq<byte>)
    requires buf == Upto(p, [], 9)
    ensures buf' == Upto(p, [], 12)
  {
    buf' := buf;
    buf' := AppendIf(buf', p.authenticationMethod != [], AuthenticationMethod, DataValue(p.authenticationMethod), p, [], 9);
    buf' := AppendIf(buf', |p.authenticationData| > 0, AuthenticationData, DataValue(p.authenticationData), p, [], 10);
    buf' := AppendIf(buf', p.requestProblemInformation, RequestProblemInformation, ByteValue(BoolByte(p.requestProblemInformation)), p, [], 11);
  }

  /** Tests 12 to 14 of the chain in `WriteProperty`. */
  method AppendTests12To14(buf: seq<byte>, p: Props) returns (buf': seq<byte>)
    requires buf == Upto(p, [], 12)
    ensures buf' == Upto(p, [], 15)
  {
    buf' := buf;
    buf' := AppendIf(buf', p.willDelayInterval > 0, WillDelayInterval, FourByteValue(p.willDelayInterval), p, [], 12);
    buf' := AppendIf(buf', p.requestResponseInformation, RequestResponseInformation, ByteValue(BoolByte(p.requestResponseInformation)), p, [], 13);
    buf' := AppendIf(buf', p.responseInformation != [], ResponseInformation, DataValue(p.responseInformation), p, [], 14);
  }

  /** Tests 15 to 17 of the chain in `WriteProperty`. */
  method AppendTests15To17(buf: seq<byte>, p: Props) returns (buf': seq<byte>)
    requires buf == Upto(p, [], 15)
    ensures buf' == Upto(p, [], 18)
  {
    buf' := buf;
    buf' := AppendIf(buf', p.serverReference != [], ServerReference, DataValue(p.serverReference), p, [], 15);
    buf' := AppendIf(buf', p.reasonString != [], ReasonString, DataValue(p.reasonString), p, [], 16);
    buf' := AppendIf(buf', p.receiveMaximum > 0, ReceiveMaximum, TwoByteValue(p.receiveMaximum), p, [], 17);
  }

  /** Tests 18 and 19 of the chain in `WriteProperty`. */
  method AppendTests18To19(buf: seq<byte>, p: Props) returns (buf': seq<byte>)
    requires buf == Upto(p, [], 18)
    ensures buf' == Upto(p, [], 20)
  {
    buf' := buf;
    buf' := AppendIf(buf', p.topicAliasMaximum > 0, TopicAliasMaximum, TwoByteValue(p.topicAliasMaximum), p, [], 18);
    buf' := AppendIf(buf', p.topicAlias > 0, TopicAlias, TwoByteValue(p.topicAlias), p, [], 19);
  }

  /** Tests 20 and 21 of the chain in `WriteProperty`. */
  method AppendTests20To21(buf: seq<byte>, p: Props) returns (buf': seq<byte>)
    requires buf == Upto(p, [], 20)
    ensures buf' == Upto(p, [], 22)
  {
    buf' := buf;
    buf' := AppendIf(buf', p.maximumQoS > 0, MaximumQoS, ByteValue(p.maximumQoS), p, [], 20);
    buf' := AppendIf(buf', p.retainAvailable, RetainAvailable, ByteValue(BoolByte(p.retainAvailable)), p, [], 21);
  }

  /** Test 22 of the chain in `WriteProperty`: the user properties. */
  method AppendTest22(buf: seq<byte>, p: Props) returns (buf': seq<byte>, ghost order: seq<seq<byte>>)
    requires buf == Upto(p, [], 22)
    ensures IsEnumeration(order, p.userProperty)
    ensures buf' == Upto(p, order, 23)
  {
    var users: seq<byte>;
    users, order := AppendUserProperties(p.userProperty);
    buf' := buf + users;
    UserPropertiesStep(p, order);
  }

  /** Tests 23 and 24 of the chain in `WriteProperty`. */
  method AppendTests23To24(buf: seq<byte>, p: Props, ghost order: seq<seq<byte>>) returns (buf': seq<byte>)
    requires buf == Upto(p, order, 23)
    ensures buf' == Upto(p, order, 25)
  {
    buf' := buf;
    buf' := AppendIf(buf', p.maximumPacketSize > 0, MaximumPacketSize, FourByteValue(p.maximumPacketSize), p, order, 23);
    buf' := AppendIf(buf', p.wildcardSubscriptionAvailable, WildcardSubscriptionAvailable, ByteValue(BoolByte(p.wildcardSubscriptionAvailable)), p, order, 24);
  }

  /** Tests 25 and 26 of the chain in `WriteProperty`. */
  method AppendTests25To26(buf: seq<byte>, p: Props, ghost order: seq<seq<byte>>) returns (buf': seq<byte>)
    requires buf == Upto(p, order, 25)
    ensures buf' == Upto(p, order, 27)
  {
    buf' := buf;
    buf' := AppendIf(buf', p.subscriptionIdentifierAvailable, SubscriptionIdentifierAvailable, ByteValue(BoolByte(p.subscriptionIdentifierAvailable)), p, order, 25);
    buf' := AppendIf(buf', p.sharedSubscriptionAvailable, SharedSubscriptionAvailable, ByteValue(BoolByte(p.sharedSubscriptionAvailable)), p, order, 26);
  }

  /**
   * One test of the chain in `WriteProperty`, the k-th: when `present`, the
   * identifier byte and the encoded value. The ghost parameters tie the test
   * to the k-th row of the table.
   */
  method AppendIf(buf: seq<byte>, present: bool, id: Identifier, v: Value,
                  ghost p: Props, ghost order: seq<seq<byte>>, ghost k: nat)
    returns (buf': seq<byte>)
    requires id != UserProperty && k == Position(id)
    requires present == Present(p, id) && (present ==> v == FieldValue(p, id))
    requires buf == Upto(p, order, k)
    ensures buf' == Upto(p, order, k + 1)
  {
    if present {
      buf' := buf + [id.Byte()] + EncodeValue(v);
      FlattenOne(Property(id, v));
    } else {
      buf' := buf;
    }
  }

  /**
   * The user-property test of `WriteProperty`: when the map has entries, one
   * (UserProperty, key, value) entry per key, in the order the map is walked.
   */
  method AppendUserProperties(m: map<seq<byte>, seq<byte>>) returns (bytes: seq<byte>, ghost order: seq<seq<byte>>)
    ensures IsEnumeration(order, m)
    ensures bytes == if |m| > 0 then Flatten(UserProperties(m, order)) else []
  {
    bytes := [];
    order := [];
    if |m| > 0 {
      bytes, order := WalkUserProperties(m);
    }
  }

  /** `for k, v := range m`: every key once, in an order the map chooses. */
  method WalkUserProperties(m: map<seq<byte>, seq<byte>>) returns (bytes: seq<byte>, ghost order: seq<seq<byte>>)
    ensures IsEnumeration(order, m)
    ensures bytes == Flatten(UserProperties(m, order))
  {
    bytes := [];
    order := [];
    var rest := m;
    while rest != map[]
      invariant rest.Keys <= m.Keys
      invariant forall k :: k in rest ==> rest[k] == m[k]
      invariant forall k :: k in order <==> k in m && k !in rest
      invariant forall i, j :: 0 <= i < j < |order| ==> order[i] != order[j]
      invariant bytes == Flatten(UserProperties(m, order))
      decreases |rest|
    {
      var k :| k in rest;
      var v := rest[k];
      bytes := bytes + [UserProperty.Byte()] + LengthPrefixed(k) + LengthPrefixed(v);
      UserPropertySnoc(m, order, k);
      order := order + [k];
      assert (rest - {k}).Keys < rest.Keys;
      rest := rest - {k};
    }
  }

  /** Walking one more key of the map appends its entry's bytes. */
  lemma UserPropertySnoc(m: map<seq<byte>, seq<byte>>, order: seq<seq<byte>>, k: seq<byte>)
    requires k in m
    ensures Flatten(UserProperties(m, order + [k]))
         == Flatten(UserProperties(m, order)) + [UserProperty.Byte()] + LengthPrefixed(k) + LengthPrefixed(m[k])
  {
    UserPropertiesSnoc(m, order, k);
    FlattenPair(UserProperties(m, order), k, m[k]);
  }

  /** One more user-property entry adds its identifier byte, then key and value as strings. */
  lemma FlattenPair(u: seq<Property>, key: seq<byte>, val: seq<byte>)
    ensures Flatten(u + [Property(UserProperty, PairValue(key, val))])
         == Flatten(u) + [UserProperty.Byte()] + LengthPrefixed(key) + LengthPrefixed(val)
  {
    var e := Property(UserProperty, PairValue(key, val));
    FlattenAppend(u, [e]);
    FlattenOne(e);
    var x, c := [UserProperty.Byte()], Flatten(u);
    AppendAssoc(c, x, LengthPrefixed(key) + LengthPrefixed(val));
    AppendAssoc(c + x, LengthPrefixed(key), LengthPrefixed(val));
  }

  /** One more walked key adds one entry at the end. */
  lemma UserPropertiesSnoc(m: map<seq<byte>, seq<byte>>, order: seq<seq<byte>>, k: seq<byte>)
    requires k in m
    ensures UserProperties(m, order + [k]) == UserProperties(m, order) + [Property(UserProperty, PairValue(k, m[k]))]
  {
    assert (order + [k])[..|order|] == order;
  }
}
