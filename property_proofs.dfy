/**
 * What the property block written by `WriteProperty` means: the body reads
 * back as the very property set that was written (for values the standard can
 * represent), whichever order the Go map yields its entries in.
 */
module PropertyProofs {
  import opened Wire
  import VariableByteInteger
  import opened Properties

  // ---------------------------------------------------------------------------
  // Values the standard can represent
  // ---------------------------------------------------------------------------

  /** A value a reader can recover: lengths below 65536, a Variable Byte Integer from 1 to 268,435,455. */
  predicate ValueFits(v: Value)
  {
    match v
    case DataValue(data) => |data| < 0x1_0000
    case VariableValue(x) => 0 < x <= 268_435_455
    case PairValue(key, val) => |key| < 0x1_0000 && |val| < 0x1_0000
    case _ => true
  }

  /** An entry whose value has its identifier's layout and fits it. */
  predicate WellFormed(e: Property)
  {
    e.value.Format() == e.id.Format() && ValueFits(e.value)
  }

  /**
   * A property set whose every field can be written and read back. A negative
   * subscription identifier is excluded: the encoder drops it, and it reads
   * back as 0.
   */
  predicate Fits(p: Props)
  {
    && |p.contentType| < 0x1_0000
    && |p.responseTopic| < 0x1_0000
    && |p.correlationData| < 0x1_0000
    && 0 <= p.subscriptionIdentifier <= 268_435_455
    && |p.assignedClientIdentifier| < 0x1_0000
    && |p.authenticationMethod| < 0x1_0000
    && |p.authenticationData| < 0x1_0000
    && |p.responseInformation| < 0x1_0000
    && |p.serverReference| < 0x1_0000
    && |p.reasonString| < 0x1_0000
    && forall k :: k in p.userProperty ==> |k| < 0x1_0000 && |p.userProperty[k]| < 0x1_0000
  }

  // ---------------------------------------------------------------------------
  // Concatenation
  // ---------------------------------------------------------------------------

  /** The bytes of two lists of entries are the bytes of the first, then of the second. */
  lemma {:induction false} FlattenAppend(a: seq<Property>, b: seq<Property>)
    ensures Flatten(a + b) == Flatten(a) + Flatten(b)
  {
    if a == [] {
      assert a + b == b;
    } else {
      assert (a + b)[0] == a[0];
      assert (a + b)[1..] == a[1..] + b;
      FlattenAppend(a[1..], b);
    }
  }

  /** A single entry is written as its identifier byte, then its value. */
  lemma FlattenOne(e: Property)
    ensures Flatten([e]) == [e.id.Byte()] + EncodeValue(e.value)
  {
    assert [e][1..] == [];
  }

  /** Reading two lists of entries is reading the first, then the second. */
  lemma {:induction false} CollectAppend(a: seq<Property>, b: seq<Property>, acc: Props)
    ensures Collect(a + b, acc) == Collect(b, Collect(a, acc))
  {
    if a == [] {
      assert a + b == b;
    } else {
      assert (a + b)[0] == a[0];
      assert (a + b)[1..] == a[1..] + b;
      CollectAppend(a[1..], b, Apply(acc, a[0]));
    }
  }

  /** The user-property entries of two key lists are those of the first, then of the second. */
  lemma {:induction false} UserPropertiesAppend(m: map<seq<byte>, seq<byte>>, a: seq<seq<byte>>, b: seq<seq<byte>>)
    ensures UserProperties(m, a + b) == UserProperties(m, a) + UserProperties(m, b)
  {
    if b != [] {
      var n := |b| - 1;
      assert (a + b)[..|a + b| - 1] == a + b[..n];
      UserPropertiesAppend(m, a, b[..n]);
    } else {
      assert a + b == a;
    }
  }

  // ---------------------------------------------------------------------------
  // The reader recovers the entries
  // ---------------------------------------------------------------------------

  /** Every identifier byte maps back to its identifier. */
  lemma IdentifierOfByte(id: Identifier)
    ensures IdentifierOf(id.Byte()) == Some(id)
  {
  }

  /** The reader's table and `Byte` are inverse: a byte names an identifier exactly when it is its byte. */
  lemma IdentifierOfInverse(b: byte, id: Identifier)
    ensures IdentifierOf(b) == Some(id) <==> id.Byte() == b
  {
    IdentifierOfByte(id);
    if b < 0x15 {
      IdentifierOfLow(b);
    } else {
      IdentifierOfHigh(b);
    }
  }

  lemma IdentifierOfLow(b: byte)
    requires b < 0x15
    ensures IdentifierOf(b).Some? ==> IdentifierOf(b).value.Byte() == b
  {
  }

  lemma IdentifierOfHigh(b: byte)
    requires b >= 0x15
    ensures IdentifierOf(b).Some? ==> IdentifierOf(b).value.Byte() == b
  {
  }

  /** A value that fits reads back from its bytes, whatever follows them. */
  lemma ValueRoundTrip(v: Value, rest: seq<byte>)
    requires ValueFits(v)
    ensures ParseValue(v.Format(), EncodeValue(v) + rest) == Some((v, rest))
  {
    var s := EncodeValue(v) + rest;
    match v
    case ByteValue(b) =>
      assert s[0] == b && s[1..] == rest;
    case TwoByteValue(h) =>
      assert s[..2] == Int16Bytes(h) && s[2..] == rest;
      TwoByteRoundTrip(h, s[..2]);
    case FourByteValue(w) =>
      assert s[..4] == Int32Bytes(w) && s[4..] == rest;
      FourByteRoundTrip(w, s[..4]);
    case DataValue(data) =>
      LengthPrefixedRoundTrip(data, rest);
    case VariableValue(x) =>
      VariableByteInteger.DecodeEncode(x, rest);
    case PairValue(key, val) =>
      PairRoundTrip(key, val, rest);
  }

  /** A key/value pair whose halves are shorter than 65536 bytes reads back. */
  lemma PairRoundTrip(key: seq<byte>, val: seq<byte>, rest: seq<byte>)
    requires |key| < 0x1_0000 && |val| < 0x1_0000
    ensures ParseValue(PairFormat, LengthPrefixed(key) + LengthPrefixed(val) + rest)
         == Some((PairValue(key, val), rest))
  {
    var t := LengthPrefixed(val) + rest;
    var s := LengthPrefixed(key) + LengthPrefixed(val) + rest;
    assert s == LengthPrefixed(key) + t;
    LengthPrefixedRoundTrip(key, t);
    LengthPrefixedRoundTrip(val, rest);
    assert ParseLengthPrefixed(s) == Some((key, t));
    assert ParseLengthPrefixed(t) == Some((val, rest));
  }

  /** A list of well-formed entries reads back from its bytes, entry for entry. */
  lemma {:induction false} ParseFlatten(es: seq<Property>)
    requires forall e :: e in es ==> WellFormed(e)
    ensures ParseProperties(Flatten(es)) == Some(es)
  {
    if es != [] {
      var e := es[0];
      assert e in es && WellFormed(e);
      var tail := Flatten(es[1..]);
      var s := Flatten(es);
      assert s == [e.id.Byte()] + (EncodeValue(e.value) + tail);
      assert s[0] == e.id.Byte();
      assert s[1..] == EncodeValue(e.value) + tail;
      IdentifierOfByte(e.id);
      ValueRoundTrip(e.value, tail);
      assert ParseValue(e.id.Format(), s[1..]) == Some((e.value, tail));
      assert forall x :: x in es[1..] ==> x in es;
      ParseFlatten(es[1..]);
      assert [Property(e.id, e.value)] + es[1..] == es;
    }
  }

  /** The user-property entries of a map whose keys and values fit are well formed. */
  lemma {:induction false} UserPropertiesWellFormed(m: map<seq<byte>, seq<byte>>, order: seq<seq<byte>>)
    requires forall k :: k in m ==> |k| < 0x1_0000 && |m[k]| < 0x1_0000
    ensures forall e :: e in UserProperties(m, order) ==> WellFormed(e) && e.id == UserProperty
  {
    if order != [] {
      UserPropertiesWellFormed(m, order[..|order| - 1]);
    }
  }

  /** Every entry one branch produces for a set that fits is well formed. */
  lemma PieceWellFormed(p: Props, order: seq<seq<byte>>, id: Identifier)
    requires Fits(p)
    ensures forall e :: e in Piece(p, order, id) ==> WellFormed(e)
  {
    if id == UserProperty {
      UserPropertiesWellFormed(p.userProperty, order);
    }
  }

  /** Lists of well-formed entries, one after the other, are well formed. */
  lemma {:induction false} ConcatWellFormed(ps: seq<seq<Property>>)
    requires forall k, e :: 0 <= k < |ps| && e in ps[k] ==> WellFormed(e)
    ensures forall e :: e in Concat(ps) ==> WellFormed(e)
  {
    if ps != [] {
      ConcatWellFormed(ps[..|ps| - 1]);
    }
  }

  /** Every entry of a set that fits is well formed. */
  lemma EntriesWellFormed(p: Props, order: seq<seq<byte>>)
    requires Fits(p)
    ensures forall e :: e in Entries(p, order) ==> WellFormed(e)
  {
    var ps := Branches(p, order);
    forall k, e | 0 <= k < |ps| && e in ps[k]
      ensures WellFormed(e)
    {
      PieceWellFormed(p, order, At(k));
    }
    ConcatWellFormed(ps);
  }

  // ---------------------------------------------------------------------------
  // The reader recovers the property set
  // ---------------------------------------------------------------------------

  /** `p` with the fields of the first n branches of the chain kept and the others zero. */
  function Keep(p: Props, n: nat): Props
  {
    Props(
      if n > 0 then p.payloadFormatIndicator else 0,
      if n > 1 then p.messageExpiryInterval else 0,
      if n > 2 then p.contentType else [],
      if n > 3 then p.responseTopic else [],
      if n > 4 then p.correlationData else [],
      if n > 5 then p.subscriptionIdentifier else 0,
      if n > 6 then p.sessionExpiryInterval else 0,
      if n > 7 then p.assignedClientIdentifier else [],
      if n > 8 then p.serverKeepAlive else 0,
      if n > 9 then p.authenticationMethod else [],
      if n > 10 then p.authenticationData else [],
      if n > 11 then p.requestProblemInformation else false,
      if n > 12 then p.willDelayInterval else 0,
      if n > 13 then p.requestResponseInformation else false,
      if n > 14 then p.responseInformation else [],
      if n > 15 then p.serverReference else [],
      if n > 16 then p.reasonString else [],
      if n > 17 then p.receiveMaximum else 0,
      if n > 18 then p.topicAliasMaximum else 0,
      if n > 19 then p.topicAlias else 0,
      if n > 20 then p.maximumQoS else 0,
      if n > 21 then p.retainAvailable else false,
      if n > 22 then p.userProperty else map[],
      if n > 23 then p.maximumPacketSize else 0,
      if n > 24 then p.wildcardSubscriptionAvailable else false,
      if n > 25 then p.subscriptionIdentifierAvailable else false,
      if n > 26 then p.sharedSubscriptionAvailable else false)
  }

  /** The entries of `m` whose keys `order` lists. */
  function Listed(m: map<seq<byte>, seq<byte>>, order: seq<seq<byte>>): map<seq<byte>, seq<byte>>
  {
    map k | k in order && k in m :: m[k]
  }

  /** Reading one user-property entry sets that key of the map and nothing else. */
  lemma CollectOneUserProperty(k: seq<byte>, v: seq<byte>, acc: Props)
    ensures Collect([Property(UserProperty, PairValue(k, v))], acc) == acc.(userProperty := acc.userProperty[k := v])
  {
    var es := [Property(UserProperty, PairValue(k, v))];
    assert es[1..] == [];
  }

  /** Listing one more key adds that key's entry, when the map has one. */
  lemma ListedSnoc(m: map<seq<byte>, seq<byte>>, front: seq<seq<byte>>, k: seq<byte>)
    ensures Listed(m, front + [k]) == if k in m then Listed(m, front)[k := m[k]] else Listed(m, front)
  {
    assert forall x :: x in front + [k] <==> x in front || x == k;
  }

  /** Merging into a map and then setting a key is setting that key in the merged-in map. */
  lemma MergeUpdate(a: map<seq<byte>, seq<byte>>, b: map<seq<byte>, seq<byte>>, k: seq<byte>, v: seq<byte>)
    ensures a + b[k := v] == (a + b)[k := v]
  {
  }

  /** An enumeration lists every key of the map. */
  lemma ListedAll(m: map<seq<byte>, seq<byte>>, order: seq<seq<byte>>)
    requires IsEnumeration(order, m)
    ensures Listed(m, order) == m
  {
  }

  /** Reading user-property entries adds the listed keys of the map to what was read before. */
  lemma {:induction false} CollectUserProperties(m: map<seq<byte>, seq<byte>>, order: seq<seq<byte>>, acc: Props)
    ensures Collect(UserProperties(m, order), acc) == acc.(userProperty := acc.userProperty + Listed(m, order))
  {
    if order == [] {
      assert Listed(m, order) == map[];
    } else {
      var k := order[|order| - 1];
      var front := order[..|order| - 1];
      assert order == front + [k];
      CollectUserProperties(m, front, acc);
      ListedSnoc(m, front, k);
      if k in m {
        var e := Property(UserProperty, PairValue(k, m[k]));
        assert UserProperties(m, order) == UserProperties(m, front) + [e];
        CollectAppend(UserProperties(m, front), [e], acc);
        CollectOneUserProperty(k, m[k], acc.(userProperty := acc.userProperty + Listed(m, front)));
        MergeUpdate(acc.userProperty, Listed(m, front), k, m[k]);
      } else {
        assert UserProperties(m, order) == UserProperties(m, front);
      }
    }
  }

  /**
   * Reading the entries of one branch into `Keep(p, n)` gives `Keep(p, n + 1)`.
   * Each position has its own `CollectAt…` lemma only to keep each proof
   * within the verifier's budget.
   */
  lemma CollectPiece(p: Props, order: seq<seq<byte>>, n: nat)
    requires n < Kinds && Fits(p) && IsEnumeration(order, p.userProperty)
    ensures Collect(Piece(p, order, At(n)), Keep(p, n)) == Keep(p, n + 1)
  {
    match n
    case 0 => CollectAt0(p, order, n);
    case 1 => CollectAt1(p, order, n);
    case 2 => CollectAt2(p, order, n);
    case 3 => CollectAt3(p, order, n);
    case 4 => CollectAt4(p, order, n);
    case 5 => CollectAt5(p, order, n);
    case 6 => CollectAt6(p, order, n);
    case 7 => CollectAt7(p, order, n);
    case 8 => CollectAt8(p, order, n);
    case 9 => CollectAt9(p, order, n);
    case 10 => CollectAt10(p, order, n);
    case 11 => CollectAt11(p, order, n);
    case 12 => CollectAt12(p, order, n);
    case 13 => CollectAt13(p, order, n);
    case 14 => CollectAt14(p, order, n);
    case 15 => CollectAt15(p, order, n);
    case 16 => CollectAt16(p, order, n);
    case 17 => CollectAt17(p, order, n);
    case 18 => CollectAt18(p, order, n);
    case 19 => CollectAt19(p, order, n);
    case 20 => CollectAt20(p, order, n);
    case 21 => CollectAt21(p, order, n);
    case 22 => CollectAt22(p, order, n);
    case 23 => CollectAt23(p, order, n);
    case 24 => CollectAt24(p, order, n);
    case 25 => CollectAt25(p, order, n);
    case 26 => CollectAt26(p, order, n);
    case _ => assert false;
  }

  // One lemma per branch other than the user properties: each branch sets
  // its own field and no other.

  lemma CollectAt0(p: Props, order: seq<seq<byte>>, n: nat)
    requires n == 0 && Fits(p)
    ensures Collect(Piece(p, order, At(n)), Keep(p, n)) == Keep(p, n + 1)
  {
    assert Piece(p, order, At(n)) == if p.payloadFormatIndicator > 0 then [Property(PayloadFormatIndicator, ByteValue(p.payloadFormatIndicator))] else [];
  }

  lemma CollectAt1(p: Props, order: seq<seq<byte>>, n: nat)
    requires n == 1 && Fits(p)
    ensures Collect(Piece(p, order, At(n)), Keep(p, n)) == Keep(p, n + 1)
  {
    assert Piece(p, order, At(n)) == if p.messageExpiryInterval > 0 then [Property(MessageExpiryInterval, FourByteValue(p.messageExpiryInterval))] else [];
  }

  lemma CollectAt2(p: Props, order: seq<seq<byte>>, n: nat)
    requires n == 2 && Fits(p)
    ensures Collect(Piece(p, order, At(n)), Keep(p, n)) == Keep(p, n + 1)
  {
    assert Piece(p, order, At(n)) == if p.contentType != [] then [Property(ContentType, DataValue(p.contentType))] else [];
  }

  lemma CollectAt3(p: Props, order: seq<seq<byte>>, n: nat)
    requires n == 3 && Fits(p)
    ensures Collect(Piece(p, order, At(n)), Keep(p, n)) == Keep(p, n + 1)
  {
    assert Piece(p, order, At(n)) == if p.responseTopic != [] then [Property(ResponseTopic, DataValue(p.responseTopic))] else [];
  }

  lemma CollectAt4(p: Props, order: seq<seq<byte>>, n: nat)
    requires n == 4 && Fits(p)
    ensures Collect(Piece(p, order, At(n)), Keep(p, n)) == Keep(p, n + 1)
  {
    assert Piece(p, order, At(n)) == if |p.correlationData| > 0 then [Property(CorrelationData, DataValue(p.correlationData))] else [];
  }

  lemma CollectAt5(p: Props, order: seq<seq<byte>>, n: nat)
    requires n == 5 && Fits(p)
    ensures Collect(Piece(p, order, At(n)), Keep(p, n)) == Keep(p, n + 1)
  {
    assert Piece(p, order, At(n)) == if p.subscriptionIdentifier > 0 then [Property(SubscriptionIdentifier, VariableValue(p.subscriptionIdentifier))] else [];
  }

  lemma CollectAt6(p: Props, order: seq<seq<byte>>, n: nat)
    requires n == 6 && Fits(p)
    ensures Collect(Piece(p, order, At(n)), Keep(p, n)) == Keep(p, n + 1)
  {
    assert Piece(p, order, At(n)) == if p.sessionExpiryInterval > 0 then [Property(SessionExpiryInterval, FourByteValue(p.sessionExpiryInterval))] else [];
  }

  lemma CollectAt7(p: Props, order: seq<seq<byte>>, n: nat)
    requires n == 7 && Fits(p)
    ensures Collect(Piece(p, order, At(n)), Keep(p, n)) == Keep(p, n + 1)
  {
    assert Piece(p, order, At(n)) == if p.assignedClientIdentifier != [] then [Property(AssignedClientIdentifier, DataValue(p.assignedClientIdentifier))] else [];
  }

  lemma CollectAt8(p: Props, order: seq<seq<byte>>, n: nat)
    requires n == 8 && Fits(p)
    ensures Collect(Piece(p, order, At(n)), Keep(p, n)) == Keep(p, n + 1)
  {
    assert Piece(p, order, At(n)) == if p.serverKeepAlive > 0 then [Property(ServerKeepAlive, TwoByteValue(p.serverKeepAlive))] else [];
  }

  lemma CollectAt9(p: Props, order: seq<seq<byte>>, n: nat)
    requires n == 9 && Fits(p)
    ensures Collect(Piece(p, order, At(n)), Keep(p, n)) == Keep(p, n + 1)
  {
    assert Piece(p, order, At(n)) == if p.authenticationMethod != [] then [Property(AuthenticationMethod, DataValue(p.authenticationMethod))] else [];
  }

  lemma CollectAt10(p: Props, order: seq<seq<byte>>, n: nat)
    requires n == 10 && Fits(p)
    ensures Collect(Piece(p, order, At(n)), Keep(p, n)) == Keep(p, n + 1)
  {
    assert Piece(p, order, At(n)) == if |p.authenticationData| > 0 then [Property(AuthenticationData, DataValue(p.authenticationData))] else [];
  }

  lemma CollectAt11(p: Props, order: seq<seq<byte>>, n: nat)
    requires n == 11 && Fits(p)
    ensures Collect(Piece(p, order, At(n)), Keep(p, n)) == Keep(p, n + 1)
  {
    assert Piece(p, order, At(n)) == if p.requestProblemInformation then [Property(RequestProblemInformation, ByteValue(1))] else [];
  }

  lemma CollectAt12(p: Props, order: seq<seq<byte>>, n: nat)
    requires n == 12 && Fits(p)
    ensures Collect(Piece(p, order, At(n)), Keep(p, n)) == Keep(p, n + 1)
  {
    assert Piece(p, order, At(n)) == if p.willDelayInterval > 0 then [Property(WillDelayInterval, FourByteValue(p.willDelayInterval))] else [];
  }

  lemma CollectAt13(p: Props, order: seq<seq<byte>>, n: nat)
    requires n == 13 && Fits(p)
    ensures Collect(Piece(p, order, At(n)), Keep(p, n)) == Keep(p, n + 1)
  {
    assert Piece(p, order, At(n)) == if p.requestResponseInformation then [Property(RequestResponseInformation, ByteValue(1))] else [];
  }

  lemma CollectAt14(p: Props, order: seq<seq<byte>>, n: nat)
    requires n == 14 && Fits(p)
    ensures Collect(Piece(p, order, At(n)), Keep(p, n)) == Keep(p, n + 1)
  {
    assert Piece(p, order, At(n)) == if p.responseInformation != [] then [Property(ResponseInformation, DataValue(p.responseInformation))] else [];
  }

  lemma CollectAt15(p: Props, order: seq<seq<byte>>, n: nat)
    requires n == 15 && Fits(p)
    ensures Collect(Piece(p, order, At(n)), Keep(p, n)) == Keep(p, n + 1)
  {
    assert Piece(p, order, At(n)) == if p.serverReference != [] then [Property(ServerReference, DataValue(p.serverReference))] else [];
  }

  lemma CollectAt16(p: Props, order: seq<seq<byte>>, n: nat)
    requires n == 16 && Fits(p)
    ensures Collect(Piece(p, order, At(n)), Keep(p, n)) == Keep(p, n + 1)
  {
    assert Piece(p, order, At(n)) == if p.reasonString != [] then [Property(ReasonString, DataValue(p.reasonString))] else [];
  }

  lemma CollectAt17(p: Props, order: seq<seq<byte>>, n: nat)
    requires n == 17 && Fits(p)
    ensures Collect(Piece(p, order, At(n)), Keep(p, n)) == Keep(p, n + 1)
  {
    assert Piece(p, order, At(n)) == if p.receiveMaximum > 0 then [Property(ReceiveMaximum, TwoByteValue(p.receiveMaximum))] else [];
  }

  lemma CollectAt18(p: Props, order: seq<seq<byte>>, n: nat)
    requires n == 18 && Fits(p)
    ensures Collect(Piece(p, order, At(n)), Keep(p, n)) == Keep(p, n + 1)
  {
    assert Piece(p, order, At(n)) == if p.topicAliasMaximum > 0 then [Property(TopicAliasMaximum, TwoByteValue(p.topicAliasMaximum))] else [];
  }

  lemma CollectAt19(p: Props, order: seq<seq<byte>>, n: nat)
    requires n == 19 && Fits(p)
    ensures Collect(Piece(p, order, At(n)), Keep(p, n)) == Keep(p, n + 1)
  {
    assert Piece(p, order, At(n)) == if p.topicAlias > 0 then [Property(TopicAlias, TwoByteValue(p.topicAlias))] else [];
  }

  lemma CollectAt20(p: Props, order: seq<seq<byte>>, n: nat)
    requires n == 20 && Fits(p)
    ensures Collect(Piece(p, order, At(n)), Keep(p, n)) == Keep(p, n + 1)
  {
    assert Piece(p, order, At(n)) == if p.maximumQoS > 0 then [Property(MaximumQoS, ByteValue(p.maximumQoS))] else [];
  }

  lemma CollectAt21(p: Props, order: seq<seq<byte>>, n: nat)
    requires n == 21 && Fits(p)
    ensures Collect(Piece(p, order, At(n)), Keep(p, n)) == Keep(p, n + 1)
  {
    assert Piece(p, order, At(n)) == if p.retainAvailable then [Property(RetainAvailable, ByteValue(1))] else [];
  }

  lemma CollectAt22(p: Props, order: seq<seq<byte>>, n: nat)
    requires n == 22 && IsEnumeration(order, p.userProperty)
    ensures Collect(Piece(p, order, At(n)), Keep(p, n)) == Keep(p, n + 1)
  {
    var m := p.userProperty;
    var q := Keep(p, n);
    assert Piece(p, order, At(n)) == UserProperties(m, order);
    CollectUserProperties(m, order, q);
    ListedAll(m, order);
    assert q.userProperty + Listed(m, order) == m;
  }

  lemma CollectAt23(p: Props, order: seq<seq<byte>>, n: nat)
    requires n == 23 && Fits(p)
    ensures Collect(Piece(p, order, At(n)), Keep(p, n)) == Keep(p, n + 1)
  {
    assert Piece(p, order, At(n)) == if p.maximumPacketSize > 0 then [Property(MaximumPacketSize, FourByteValue(p.maximumPacketSize))] else [];
  }

  lemma CollectAt24(p: Props, order: seq<seq<byte>>, n: nat)
    requires n == 24 && Fits(p)
    ensures Collect(Piece(p, order, At(n)), Keep(p, n)) == Keep(p, n + 1)
  {
    assert Piece(p, order, At(n)) == if p.wildcardSubscriptionAvailable then [Property(WildcardSubscriptionAvailable, ByteValue(1))] else [];
  }

  lemma CollectAt25(p: Props, order: seq<seq<byte>>, n: nat)
    requires n == 25 && Fits(p)
    ensures Collect(Piece(p, order, At(n)), Keep(p, n)) == Keep(p, n + 1)
  {
    assert Piece(p, order, At(n)) == if p.subscriptionIdentifierAvailable then [Property(SubscriptionIdentifierAvailable, ByteValue(1))] else [];
  }

  lemma CollectAt26(p: Props, order: seq<seq<byte>>, n: nat)
    requires n == 26 && Fits(p)
    ensures Collect(Piece(p, order, At(n)), Keep(p, n)) == Keep(p, n + 1)
  {
    assert Piece(p, order, At(n)) == if p.sharedSubscriptionAvailable then [Property(SharedSubscriptionAvailable, ByteValue(1))] else [];
  }

  /** Reading branch after branch, each taking `Keep(p, k)` to `Keep(p, k + 1)`, takes the zero set to `Keep(p, |ps|)`. */
  lemma {:induction false} CollectConcat(p: Props, ps: seq<seq<Property>>)
    requires forall k :: 0 <= k < |ps| ==> Collect(ps[k], Keep(p, k)) == Keep(p, k + 1)
    ensures Collect(Concat(ps), Zero) == Keep(p, |ps|)
  {
    if ps == [] {
      assert Keep(p, 0) == Zero;
    } else {
      var n := |ps| - 1;
      var front := ps[..n];
      CollectConcat(p, front);
      CollectAppend(Concat(front), ps[n], Zero);
    }
  }

  /**
   * The body reads back as the property set that was written, whichever order
   * the user properties came in: the encoding loses nothing but the order of
   * the map, and the zero values that stand for "absent".
   */
  lemma DecodeBody(p: Props, order: seq<seq<byte>>)
    requires Fits(p) && IsEnumeration(order, p.userProperty)
    ensures DecodeProperties(Body(p, order)) == Some(p)
  {
    var ps := Branches(p, order);
    EntriesWellFormed(p, order);
    ParseFlatten(Entries(p, order));
    forall k | 0 <= k < Kinds
      ensures Collect(ps[k], Keep(p, k)) == Keep(p, k + 1)
    {
      CollectPiece(p, order, k);
    }
    CollectConcat(p, ps);
    assert Keep(p, Kinds) == p;
  }

  /** A non-empty block reads back as the set that was written, followed by whatever came after it. */
  lemma DecodeBlockRoundTrip(p: Props, order: seq<seq<byte>>, rest: seq<byte>)
    requires Fits(p) && IsEnumeration(order, p.userProperty)
    requires 0 < |Body(p, order)| <= 268_435_455
    ensures DecodeBlock(Block(p, order) + rest) == Some((p, rest))
  {
    DecodeBody(p, order);
    DecodeFrame(Body(p, order), p, rest);
  }

  /** A body that reads as `p`, behind its length, reads back as `p` and leaves what follows. */
  lemma DecodeFrame(body: seq<byte>, p: Props, rest: seq<byte>)
    requires 0 < |body| <= 268_435_455
    requires DecodeProperties(body) == Some(p)
    ensures DecodeBlock(Frame(body) + rest) == Some((p, rest))
  {
    var t := body + rest;
    VariableByteInteger.DecodeEncode(|body|, t);
    assert Frame(body) + rest == VariableByteInteger.Encode(|body|) + t;
    assert t[..|body|] == body;
    assert t[|body|..] == rest;
  }
}
