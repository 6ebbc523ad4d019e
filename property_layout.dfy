/**
 * The layout of the body `WriteProperty` builds: which entries it holds, in
 * which order, how long it is whatever order the Go map yields its entries in,
 * and what the all-zero property set writes. The body lists the present kinds
 * in ascending identifier order, each kind other than UserProperty at most
 * once and every user-property entry once; an all-zero set writes nothing,
 * where MQTT 5.0 expects the byte 0x00.
 */
module PropertyLayout {
  import opened Wire
  import VariableByteInteger
  import opened Properties
  import opened PropertyProofs

  // ---------------------------------------------------------------------------
  // Order
  // ---------------------------------------------------------------------------

  /** `Position` undoes `At`: the chain tests each identifier once. */
  lemma PositionAt(k: nat)
    requires k < Kinds
    ensures Position(At(k)) == k
  {
  }

  /** Neighbours in the chain have ascending identifier bytes. */
  lemma AtByteStep(k: nat)
    requires k + 1 < Kinds
    ensures At(k).Byte() < At(k + 1).Byte()
  {
  }

  /** The chain tests the identifiers in ascending order of their bytes. */
  lemma {:induction false} AtByteAscending(i: nat, j: nat)
    requires i < j < Kinds
    ensures At(i).Byte() < At(j).Byte()
  {
    AtByteStep(j - 1);
    if i < j - 1 {
      AtByteAscending(i, j - 1);
    }
  }

  /**
   * Entries in ascending order of identifier byte; two entries share a byte
   * only when both are user properties.
   */
  ghost predicate Ascending(es: seq<Property>)
  {
    forall i, j :: 0 <= i < j < |es| ==>
      es[i].id.Byte() < es[j].id.Byte() || (es[i].id == UserProperty && es[j].id == UserProperty)
  }

  /** Every user-property entry carries the UserProperty identifier. */
  lemma {:induction false} UserPropertiesIds(m: map<seq<byte>, seq<byte>>, order: seq<seq<byte>>)
    ensures forall e :: e in UserProperties(m, order) ==> e.id == UserProperty
  {
    if order != [] {
      UserPropertiesIds(m, order[..|order| - 1]);
    }
  }

  /** A branch writes only its own identifier, and at most once unless it is the user properties. */
  lemma PieceShape(p: Props, order: seq<seq<byte>>, id: Identifier)
    ensures forall e :: e in Piece(p, order, id) ==> e.id == id
    ensures id != UserProperty ==> |Piece(p, order, id)| <= 1
  {
    if id == UserProperty {
      UserPropertiesIds(p.userProperty, order);
    }
  }

  /** Every entry of the k-th list has the identifier at position k of the chain. */
  ghost predicate Placed(ps: seq<seq<Property>>)
  {
    forall k, e :: 0 <= k < |ps| && e in ps[k] ==> Position(e.id) == k
  }

  /** Lists placed by position, one after the other, hold identifiers before position |ps| only. */
  lemma {:induction false} ConcatPositions(ps: seq<seq<Property>>)
    requires Placed(ps)
    ensures forall e :: e in Concat(ps) ==> Position(e.id) < |ps|
  {
    if ps != [] {
      var front := ps[..|ps| - 1];
      assert Placed(front);
      ConcatPositions(front);
    }
  }

  /** Two ascending lists, every entry of the first below every entry of the second, make an ascending list. */
  lemma AscendingAppend(a: seq<Property>, b: seq<Property>)
    requires Ascending(a) && Ascending(b)
    requires forall x, y :: x in a && y in b ==> x.id.Byte() < y.id.Byte()
    ensures Ascending(a + b)
  {
    var es := a + b;
    forall i, j | 0 <= i < j < |es|
      ensures es[i].id.Byte() < es[j].id.Byte() || (es[i].id == UserProperty && es[j].id == UserProperty)
    {
      if j < |a| {
        assert es[i] == a[i] && es[j] == a[j];
      } else if i < |a| {
        assert es[i] == a[i] && a[i] in a;
        assert es[j] == b[j - |a|] && b[j - |a|] in b;
      } else {
        assert es[i] == b[i - |a|] && es[j] == b[j - |a|];
      }
    }
  }

  /** A branch on its own is ascending. */
  lemma PieceAscending(p: Props, order: seq<seq<byte>>, id: Identifier)
    ensures Ascending(Piece(p, order, id))
  {
    var piece := Piece(p, order, id);
    PieceShape(p, order, id);
    forall i, j | 0 <= i < j < |piece|
      ensures piece[i].id.Byte() < piece[j].id.Byte() || (piece[i].id == UserProperty && piece[j].id == UserProperty)
    {
      assert piece[i] in piece && piece[j] in piece;
    }
  }

  /** Ascending lists placed by position, one after the other, make an ascending list. */
  lemma {:induction false} ConcatAscending(ps: seq<seq<Property>>)
    requires |ps| <= Kinds && Placed(ps)
    requires forall k :: 0 <= k < |ps| ==> Ascending(ps[k])
    ensures Ascending(Concat(ps))
  {
    if ps != [] {
      var n := |ps| - 1;
      var front := ps[..n];
      assert Placed(front);
      ConcatAscending(front);
      ConcatPositions(front);
      forall x, y | x in Concat(front) && y in ps[n]
        ensures x.id.Byte() < y.id.Byte()
      {
        AtByteAscending(Position(x.id), n);
      }
      AscendingAppend(Concat(front), ps[n]);
    }
  }

  /** The branches of the chain are placed by position and each is ascending. */
  lemma BranchesPlaced(p: Props, order: seq<seq<byte>>)
    ensures Placed(Branches(p, order))
    ensures forall k :: 0 <= k < Kinds ==> Ascending(Branches(p, order)[k])
  {
    var ps := Branches(p, order);
    forall k | 0 <= k < Kinds
      ensures forall e: Property :: e in ps[k] ==> Position(e.id) == k
      ensures Ascending(ps[k])
    {
      PieceShape(p, order, At(k));
      PieceAscending(p, order, At(k));
      PositionAt(k);
    }
  }

  /** The body lists its entries in ascending identifier order: the chain order is Table 2-4's. */
  lemma EntriesAscending(p: Props, order: seq<seq<byte>>)
    ensures Ascending(Entries(p, order))
  {
    BranchesPlaced(p, order);
    ConcatAscending(Branches(p, order));
  }

  /**
   * The user properties come after every entry up to Retain Available and
   * before every entry from Maximum Packet Size on.
   */
  lemma UserPropertiesBetween(p: Props, order: seq<seq<byte>>, i: nat, j: nat)
    requires i < j < |Entries(p, order)|
    ensures Entries(p, order)[j].id == UserProperty && Entries(p, order)[i].id != UserProperty
            ==> Entries(p, order)[i].id.Byte() <= RetainAvailable.Byte()
    ensures Entries(p, order)[i].id == UserProperty && Entries(p, order)[j].id != UserProperty
            ==> Entries(p, order)[j].id.Byte() >= MaximumPacketSize.Byte()
  {
    EntriesAscending(p, order);
  }

  // ---------------------------------------------------------------------------
  // Which entries
  // ---------------------------------------------------------------------------

  /** The entries of `es` with identifier `id`, in order. */
  function Select(es: seq<Property>, id: Identifier): (r: seq<Property>)
    ensures |r| <= |es|
  {
    if es == [] then []
    else if es[0].id == id then [es[0]] + Select(es[1..], id)
    else Select(es[1..], id)
  }

  lemma {:induction false} SelectAppend(a: seq<Property>, b: seq<Property>, id: Identifier)
    ensures Select(a + b, id) == Select(a, id) + Select(b, id)
  {
    if a == [] {
      assert a + b == b;
    } else {
      assert (a + b)[0] == a[0];
      assert (a + b)[1..] == a[1..] + b;
      SelectAppend(a[1..], b, id);
    }
  }

  /** Selecting a list whose every entry has identifier `id` keeps all of it. */
  lemma {:induction false} SelectAll(es: seq<Property>, id: Identifier)
    requires forall e :: e in es ==> e.id == id
    ensures Select(es, id) == es
  {
    if es != [] {
      assert es[0] in es;
      SelectAll(es[1..], id);
    }
  }

  /** A branch holds entries of identifier `id` only when it is the branch of `id`. */
  lemma SelectPiece(p: Props, order: seq<seq<byte>>, k: nat, id: Identifier)
    requires k < Kinds
    ensures Select(Piece(p, order, At(k)), id) == if Position(id) == k then Piece(p, order, id) else []
  {
    var piece := Piece(p, order, At(k));
    PieceShape(p, order, At(k));
    PositionAt(k);
    if At(k) == id {
      SelectAll(piece, id);
    } else {
      SelectNone(piece, id);
    }
  }

  /** Selecting a list with no entry of identifier `id` keeps nothing. */
  lemma {:induction false} SelectNone(es: seq<Property>, id: Identifier)
    requires forall e :: e in es ==> e.id != id
    ensures Select(es, id) == []
  {
    if es != [] {
      assert es[0] in es;
      SelectNone(es[1..], id);
    }
  }

  /** Selecting from lists of which only the j-th holds identifier `id` gives that list, if there is one. */
  lemma {:induction false} ConcatSelect(ps: seq<seq<Property>>, id: Identifier, j: nat)
    requires forall k :: 0 <= k < |ps| ==> Select(ps[k], id) == if k == j then ps[k] else []
    ensures Select(Concat(ps), id) == if j < |ps| then ps[j] else []
  {
    if ps != [] {
      var n := |ps| - 1;
      var front := ps[..n];
      var last := ps[n];
      assert Concat(ps) == Concat(front) + last;
      assert Select(last, id) == if n == j then last else [];
      assert forall k :: 0 <= k < n ==> front[k] == ps[k];
      ConcatSelect(front, id, j);
      SelectAppend(Concat(front), last, id);
    }
  }

  /**
   * The body holds, for each identifier, exactly what its branch writes: one
   * entry for a field away from its zero value, none for a field at it, and
   * the user properties in the order given.
   */
  lemma EntriesSelect(p: Props, order: seq<seq<byte>>, id: Identifier)
    ensures Select(Entries(p, order), id) == Piece(p, order, id)
  {
    var ps := Branches(p, order);
    var j := Position(id);
    forall k | 0 <= k < Kinds
      ensures Select(ps[k], id) == if k == j then ps[k] else []
    {
      SelectPiece(p, order, k, id);
    }
    ConcatSelect(ps, id, j);
  }

  /** Without its last key, an enumeration of `m` enumerates `m` without that key. */
  lemma EnumerationFront(order: seq<seq<byte>>, m: map<seq<byte>, seq<byte>>)
    requires IsEnumeration(order, m) && order != []
    ensures IsEnumeration(order[..|order| - 1], m - {order[|order| - 1]})
  {
    var k := order[|order| - 1];
    var front := order[..|order| - 1];
    forall x
      ensures x in front <==> x in m - {k}
    {
      if x in front {
        var i :| 0 <= i < |front| && front[i] == x;
        assert order[i] == x;
      }
    }
  }

  /** An enumeration of a map's keys is as long as the map. */
  lemma {:induction false} EnumerationLength(order: seq<seq<byte>>, m: map<seq<byte>, seq<byte>>)
    requires IsEnumeration(order, m)
    ensures |order| == |m|
  {
    if order == [] {
      assert m.Keys == {};
    } else {
      var k := order[|order| - 1];
      EnumerationFront(order, m);
      EnumerationLength(order[..|order| - 1], m - {k});
      assert (m - {k}).Keys == m.Keys - {k};
    }
  }

  /** Every key listed in the map gives one entry. */
  lemma {:induction false} UserPropertiesLength(m: map<seq<byte>, seq<byte>>, order: seq<seq<byte>>)
    requires forall k :: k in order ==> k in m
    ensures |UserProperties(m, order)| == |order|
  {
    if order != [] {
      UserPropertiesLength(m, order[..|order| - 1]);
    }
  }

  /**
   * How many entries of a kind the body holds: one per map entry for the user
   * properties, and for any other kind one if its field is away from its zero
   * value, else none.
   */
  lemma EntryCount(p: Props, order: seq<seq<byte>>, id: Identifier)
    requires IsEnumeration(order, p.userProperty)
    ensures |Select(Entries(p, order), id)|
         == if id == UserProperty then |p.userProperty| else if Present(p, id) then 1 else 0
  {
    EntriesSelect(p, order, id);
    if id == UserProperty {
      UserPropertiesLength(p.userProperty, order);
      EnumerationLength(order, p.userProperty);
    }
  }

  // ---------------------------------------------------------------------------
  // Length, whatever the map order
  // ---------------------------------------------------------------------------

  /** The bytes one user property takes: identifier, then key and value with their 2-byte prefixes. */
  function PairSize(key: seq<byte>, val: seq<byte>): nat
  {
    1 + 2 + |key| + 2 + |val|
  }

  /** Some key of a non-empty map. */
  ghost function Pick(m: map<seq<byte>, seq<byte>>): seq<byte>
    requires m != map[]
  {
    var k :| k in m; k
  }

  /** The bytes all user properties of `m` take, summed over the map without regard to order. */
  ghost function PairsSize(m: map<seq<byte>, seq<byte>>): nat
    decreases |m|
  {
    if m == map[] then 0
    else
      var k := Pick(m);
      assert (m - {k}).Keys < m.Keys;
      PairSize(k, m[k]) + PairsSize(m - {k})
  }

  /** The sum may start from any key. */
  lemma {:induction false} PairsSizeRemove(m: map<seq<byte>, seq<byte>>, k: seq<byte>)
    requires k in m
    ensures PairsSize(m) == PairSize(k, m[k]) + PairsSize(m - {k})
    decreases |m|
  {
    var j := Pick(m);
    if j != k {
      assert (m - {j}).Keys < m.Keys;
      assert (m - {k}).Keys < m.Keys;
      PairsSizeRemove(m - {j}, k);
      PairsSizeRemove(m - {k}, j);
      assert m - {j} - {k} == m - {k} - {j};
    }
  }

  /** Keys the order does not list do not matter to the entries it gives. */
  lemma {:induction false} UserPropertiesWithout(m: map<seq<byte>, seq<byte>>, order: seq<seq<byte>>, k: seq<byte>)
    requires k !in order
    ensures UserProperties(m, order) == UserProperties(m - {k}, order)
  {
    if order != [] {
      UserPropertiesWithout(m, order[..|order| - 1], k);
    }
  }

  /** One user property takes `PairSize` bytes. */
  lemma OnePairSize(key: seq<byte>, val: seq<byte>)
    ensures |Flatten([Property(UserProperty, PairValue(key, val))])| == PairSize(key, val)
  {
    var e := Property(UserProperty, PairValue(key, val));
    assert [e][1..] == [];
    LengthPrefixedLayout(key);
    LengthPrefixedLayout(val);
  }

  /** In an enumeration, the last key is not listed before. */
  lemma LastNotBefore(order: seq<seq<byte>>, m: map<seq<byte>, seq<byte>>)
    requires IsEnumeration(order, m) && order != []
    ensures order[|order| - 1] !in order[..|order| - 1]
  {
  }

  /** Whatever the order the map is walked in, its user properties take `PairsSize(m)` bytes. */
  lemma {:induction false} UserPropertiesSize(m: map<seq<byte>, seq<byte>>, order: seq<seq<byte>>)
    requires IsEnumeration(order, m)
    ensures |Flatten(UserProperties(m, order))| == PairsSize(m)
  {
    if order == [] {
      assert m.Keys == {};
    } else {
      var k := order[|order| - 1];
      var front := order[..|order| - 1];
      EnumerationFront(order, m);
      UserPropertiesSize(m - {k}, front);
      LastNotBefore(order, m);
      UserPropertiesWithout(m, front, k);
      var last := [Property(UserProperty, PairValue(k, m[k]))];
      assert UserProperties(m, order) == UserProperties(m, front) + last;
      FlattenAppend(UserProperties(m, front), last);
      OnePairSize(k, m[k]);
      PairsSizeRemove(m, k);
    }
  }

  /** Lists of entries of equal encoded lengths, one after the other, have equal encoded lengths. */
  lemma {:induction false} ConcatSameSize(ps: seq<seq<Property>>, qs: seq<seq<Property>>)
    requires |ps| == |qs|
    requires forall k :: 0 <= k < |ps| ==> |Flatten(ps[k])| == |Flatten(qs[k])|
    ensures |Flatten(Concat(ps))| == |Flatten(Concat(qs))|
  {
    if ps != [] {
      var n := |ps| - 1;
      ConcatSameSize(ps[..n], qs[..n]);
      FlattenAppend(Concat(ps[..n]), ps[n]);
      FlattenAppend(Concat(qs[..n]), qs[n]);
    }
  }

  /**
   * The body, and so its length prefix and the whole block, has the same
   * length whatever order the Go map yields the user properties in.
   */
  lemma BlockSizeIndependentOfOrder(p: Props, o1: seq<seq<byte>>, o2: seq<seq<byte>>)
    requires IsEnumeration(o1, p.userProperty) && IsEnumeration(o2, p.userProperty)
    ensures |Body(p, o1)| == |Body(p, o2)|
    ensures VariableByteInteger.Encode(|Body(p, o1)|) == VariableByteInteger.Encode(|Body(p, o2)|)
    ensures |Block(p, o1)| == |Block(p, o2)|
  {
    var ps := Branches(p, o1);
    var qs := Branches(p, o2);
    forall k | 0 <= k < Kinds
      ensures |Flatten(ps[k])| == |Flatten(qs[k])|
    {
      if At(k) == UserProperty {
        UserPropertiesSize(p.userProperty, o1);
        UserPropertiesSize(p.userProperty, o2);
      }
    }
    ConcatSameSize(ps, qs);
  }

  // ---------------------------------------------------------------------------
  // What is written at all
  // ---------------------------------------------------------------------------

  /** Lists of which only the j-th may be non-empty, one after the other, are that list. */
  lemma {:induction false} ConcatOnly(ps: seq<seq<Property>>, j: nat)
    requires forall k :: 0 <= k < |ps| && k != j ==> ps[k] == []
    ensures Concat(ps) == if j < |ps| then ps[j] else []
  {
    if ps != [] {
      var n := |ps| - 1;
      var front := ps[..n];
      assert forall k :: 0 <= k < n ==> front[k] == ps[k];
      ConcatOnly(front, j);
      if j == n {
        assert Concat(front) == [];
      } else {
        assert ps[n] == [];
      }
    }
  }

  /** A body with no entries is empty, and one with entries is not. */
  lemma FlattenEmpty(es: seq<Property>)
    ensures Flatten(es) == [] <==> es == []
  {
  }

  /** A body that is empty leaves every branch of the chain unfired. */
  lemma EmptyBodyNothingPresent(p: Props, order: seq<seq<byte>>, id: Identifier)
    requires IsEnumeration(order, p.userProperty)
    requires Body(p, order) == []
    ensures !Present(p, id)
  {
    FlattenEmpty(Entries(p, order));
    EntryCount(p, order, id);
  }

  /** When a single branch fires, and it is not the user properties, the body is its one entry. */
  lemma OnlyEntry(p: Props, order: seq<seq<byte>>, id: Identifier)
    requires IsEnumeration(order, p.userProperty)
    requires id != UserProperty
    requires forall other :: other != id ==> !Present(p, other)
    ensures Entries(p, order) == if Present(p, id) then [Property(id, FieldValue(p, id))] else []
  {
    var ps := Branches(p, order);
    var j := Position(id);
    forall k | 0 <= k < Kinds && k != j
      ensures ps[k] == []
    {
      PositionAt(k);
      assert !Present(p, At(k));
      if At(k) == UserProperty {
        EnumerationLength(order, p.userProperty);
      }
    }
    ConcatOnly(ps, j);
  }

  /**
   * The body is empty exactly when no branch of the chain fires: every field
   * is at its zero value (or, for the signed subscription identifier, not
   * positive) and the map is empty.
   */
  lemma EmptyBody(p: Props, order: seq<seq<byte>>)
    requires IsEnumeration(order, p.userProperty)
    ensures Body(p, order) == [] <==> forall id :: !Present(p, id)
  {
    if Body(p, order) == [] {
      forall id
        ensures !Present(p, id)
      {
        EmptyBodyNothingPresent(p, order, id);
      }
    }
    if forall id :: !Present(p, id) {
      OnlyEntry(p, order, ContentType);
    }
  }

  /** Nothing fires for the all-zero set. */
  lemma ZeroNothingPresent(id: Identifier)
    ensures !Present(Zero, id)
  {
  }

  /**
   * The subscription identifier is a signed Go `int` tested with `> 0`: a
   * negative one is not written, and the block of a set that differs from the
   * all-zero set only there is empty, as the all-zero set's is.
   */
  lemma NegativeSubscriptionIdentifierDropped(n: int)
    requires n < 0
    ensures Zero.(subscriptionIdentifier := n) != Zero
    ensures Body(Zero.(subscriptionIdentifier := n), []) == []
    ensures Block(Zero.(subscriptionIdentifier := n), []) == Block(Zero, [])
  {
    var p := Zero.(subscriptionIdentifier := n);
    forall id
      ensures !Present(p, id)
    {
      ZeroNothingPresent(id);
    }
    EmptyBody(p, []);
    EmptyBody(Zero, []);
  }

  /**
   * An all-zero property set appends nothing, where MQTT 5.0 writes a
   * Property Length of 0 as the single byte 0x00: a reader takes the empty
   * block for malformed and the standard one for the all-zero set.
   */
  lemma ZeroBlockIsEmpty()
    ensures IsEnumeration([], Zero.userProperty)
    ensures Block(Zero, []) == []
    ensures DecodeBlock(Block(Zero, [])) == None
    ensures DecodeBlock([0x00]) == Some((Zero, []))
  {
    forall id
      ensures !Present(Zero, id)
    {
      ZeroNothingPresent(id);
    }
    EmptyBody(Zero, []);
    assert Block(Zero, []) == Frame([]);
    ZeroDecodes();
  }

  /** The empty block is malformed; the single byte 0x00 reads as the all-zero set. */
  lemma ZeroDecodes()
    ensures DecodeBlock([]) == None
    ensures DecodeBlock([0x00]) == Some((Zero, []))
  {
    assert [0x00][1..] == [];
    assert VariableByteInteger.Decode([0x00]) == Some((0, []));
    assert DecodeProperties([]) == Some(Zero);
  }

  /** The identifiers whose fields are Go booleans. */
  predicate Flag(id: Identifier)
  {
    || id == RequestProblemInformation
    || id == RequestResponseInformation
    || id == RetainAvailable
    || id == WildcardSubscriptionAvailable
    || id == SubscriptionIdentifierAvailable
    || id == SharedSubscriptionAvailable
  }

  /** A boolean branch writes the byte 1 when its field is true, and nothing when it is false. */
  lemma FlagPiece(p: Props, order: seq<seq<byte>>, id: Identifier)
    requires Flag(id)
    ensures Piece(p, order, id) == if Present(p, id) then [Property(id, ByteValue(1))] else []
  {
  }

  /** An entry is among those of its own identifier. */
  lemma {:induction false} SelectMember(es: seq<Property>, e: Property)
    requires e in es
    ensures e in Select(es, e.id)
  {
    if es[0] != e {
      SelectMember(es[1..], e);
    }
  }

  /** Booleans are only ever written as true: every boolean entry of the body has the value 1. */
  lemma FlagsOnlyTrue(p: Props, order: seq<seq<byte>>)
    ensures forall e :: e in Entries(p, order) && Flag(e.id) ==> e.value == ByteValue(1)
  {
    forall e | e in Entries(p, order) && Flag(e.id)
      ensures e.value == ByteValue(1)
    {
      SelectMember(Entries(p, order), e);
      EntriesSelect(p, order, e.id);
      FlagPiece(p, order, e.id);
    }
  }

  /** The only branch that fires for a set with only a content type is the content type's. */
  lemma OnlyContentType(json: seq<byte>, other: Identifier)
    requires other != ContentType
    ensures !Present(Zero.(contentType := json), other)
  {
    ZeroNothingPresent(other);
  }

  /** A set with only a content type holds one entry. */
  lemma ContentTypeEntries(ct: seq<byte>)
    requires ct != []
    ensures Entries(Zero.(contentType := ct), []) == [Property(ContentType, DataValue(ct))]
  {
    var p := Zero.(contentType := ct);
    forall other | other != ContentType
      ensures !Present(p, other)
    {
      OnlyContentType(ct, other);
    }
    OnlyEntry(p, [], ContentType);
  }

  /** A body shorter than 128 bytes is framed by a single length byte. */
  lemma ShortFrame(body: seq<byte>)
    requires 0 < |body| < 0x80
    ensures Frame(body) == [|body|] + body
  {
    var n := |body|;
    assert VariableByteInteger.Encode(n) == [n] + VariableByteInteger.Encode(0);
  }

  /** The body of a set with only a content type: identifier 0x03, then the prefixed string. */
  lemma ContentTypeBody(ct: seq<byte>)
    requires ct != []
    ensures Body(Zero.(contentType := ct), []) == [0x03] + LengthPrefixed(ct)
  {
    var e := Property(ContentType, DataValue(ct));
    ContentTypeEntries(ct);
    FlattenOne(e);
  }

  /**
   * A short content type on its own, say "json", is written as
   * 07 03 00 04 6A 73 6F 6E: length byte, identifier 0x03, then the prefixed string.
   */
  lemma ContentTypeBlock(ct: seq<byte>)
    requires 0 < |ct| <= 124
    ensures Block(Zero.(contentType := ct), []) == [3 + |ct|, 0x03, 0x00, |ct|] + ct
  {
    var p := Zero.(contentType := ct);
    ContentTypeBody(ct);
    ShortLengthPrefixed(ct);
    var body := [0x03] + ([0x00, |ct|] + ct);
    assert Body(p, []) == body;
    ShortFrame(body);
    assert [|body|] + body == [3 + |ct|, 0x03, 0x00, |ct|] + ct;
  }

  /** Content shorter than 256 bytes has a high length byte of zero. */
  lemma ShortLengthPrefixed(b: seq<byte>)
    requires |b| < 0x100
    ensures LengthPrefixed(b) == [0x00, |b|] + b
  {
  }
}
