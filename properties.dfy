/**
 * The property block of MQTT Version 5.0 (sections 2.2.2.1 and 2.2.2.2) as
 * `WriteProperty` produces it: a Variable Byte Integer holding the length of
 * the body, then the body, which lists each property that is present as its
 * identifier byte followed by its value.
 *
 * The specification here is table-driven: `At(k)` is the k-th identifier of
 * the fixed if-chain and `Piece` says what that identifier contributes.
 * `ParseProperties`, `Collect` and `DecodeBlock` are an independent reader
 * used to state what the bytes mean.
 */
module Properties {
  import opened Wire
  import VariableByteInteger

  /** Value types of section 2.2.2.2 (a UTF-8 Encoded String and Binary Data share one layout). */
  datatype Format = ByteFormat | TwoByteFormat | FourByteFormat | PrefixedFormat | VariableFormat | PairFormat

  /** The property kinds `WriteProperty` handles, in the order it tests them. */
  datatype Identifier =
    | PayloadFormatIndicator
    | MessageExpiryInterval
    | ContentType
    | ResponseTopic
    | CorrelationData
    | SubscriptionIdentifier
    | SessionExpiryInterval
    | AssignedClientIdentifier
    | ServerKeepAlive
    | AuthenticationMethod
    | AuthenticationData
    | RequestProblemInformation
    | WillDelayInterval
    | RequestResponseInformation
    | ResponseInformation
    | ServerReference
    | ReasonString
    | ReceiveMaximum
    | TopicAliasMaximum
    | TopicAlias
    | MaximumQoS
    | RetainAvailable
    | UserProperty
    | MaximumPacketSize
    | WildcardSubscriptionAvailable
    | SubscriptionIdentifierAvailable
    | SharedSubscriptionAvailable
  {
    /** The identifier byte, from Table 2-4 of MQTT Version 5.0. */
    function Byte(): byte
    {
      match this
      case PayloadFormatIndicator => 0x01
      case MessageExpiryInterval => 0x02
      case ContentType => 0x03
      case ResponseTopic => 0x08
      case CorrelationData => 0x09
      case SubscriptionIdentifier => 0x0B
      case SessionExpiryInterval => 0x11
      case AssignedClientIdentifier => 0x12
      case ServerKeepAlive => 0x13
      case AuthenticationMethod => 0x15
      case AuthenticationData => 0x16
      case RequestProblemInformation => 0x17
      case WillDelayInterval => 0x18
      case RequestResponseInformation => 0x19
      case ResponseInformation => 0x1A
      case ServerReference => 0x1C
      case ReasonString => 0x1F
      case ReceiveMaximum => 0x21
      case TopicAliasMaximum => 0x22
      case TopicAlias => 0x23
      case MaximumQoS => 0x24
      case RetainAvailable => 0x25
      case UserProperty => 0x26
      case MaximumPacketSize => 0x27
      case WildcardSubscriptionAvailable => 0x28
      case SubscriptionIdentifierAvailable => 0x29
      case SharedSubscriptionAvailable => 0x2A
    }

    /** How the value after the identifier byte is laid out. */
    function Format(): Format
    {
      match this
      case PayloadFormatIndicator => ByteFormat
      case MessageExpiryInterval => FourByteFormat
      case ContentType => PrefixedFormat
      case ResponseTopic => PrefixedFormat
      case CorrelationData => PrefixedFormat
      case SubscriptionIdentifier => VariableFormat
      case SessionExpiryInterval => FourByteFormat
      case AssignedClientIdentifier => PrefixedFormat
      case ServerKeepAlive => TwoByteFormat
      case AuthenticationMethod => PrefixedFormat
      case AuthenticationData => PrefixedFormat
      case RequestProblemInformation => ByteFormat
      case WillDelayInterval => FourByteFormat
      case RequestResponseInformation => ByteFormat
      case ResponseInformation => PrefixedFormat
      case ServerReference => PrefixedFormat
      case ReasonString => PrefixedFormat
      case ReceiveMaximum => TwoByteFormat
      case TopicAliasMaximum => TwoByteFormat
      case TopicAlias => TwoByteFormat
      case MaximumQoS => ByteFormat
      case RetainAvailable => ByteFormat
      case UserProperty => PairFormat
      case MaximumPacketSize => FourByteFormat
      case WildcardSubscriptionAvailable => ByteFormat
      case SubscriptionIdentifierAvailable => ByteFormat
      case SharedSubscriptionAvailable => ByteFormat
    }
  }

  /** The reader's map from identifier byte back to identifier. */
  function IdentifierOf(b: byte): Option<Identifier>
  {
    match b
    case 0x01 => Some(PayloadFormatIndicator)
    case 0x02 => Some(MessageExpiryInterval)
    case 0x03 => Some(ContentType)
    case 0x08 => Some(ResponseTopic)
    case 0x09 => Some(CorrelationData)
    case 0x0B => Some(SubscriptionIdentifier)
    case 0x11 => Some(SessionExpiryInterval)
    case 0x12 => Some(AssignedClientIdentifier)
    case 0x13 => Some(ServerKeepAlive)
    case 0x15 => Some(AuthenticationMethod)
    case 0x16 => Some(AuthenticationData)
    case 0x17 => Some(RequestProblemInformation)
    case 0x18 => Some(WillDelayInterval)
    case 0x19 => Some(RequestResponseInformation)
    case 0x1A => Some(ResponseInformation)
    case 0x1C => Some(ServerReference)
    case 0x1F => Some(ReasonString)
    case 0x21 => Some(ReceiveMaximum)
    case 0x22 => Some(TopicAliasMaximum)
    case 0x23 => Some(TopicAlias)
    case 0x24 => Some(MaximumQoS)
    case 0x25 => Some(RetainAvailable)
    case 0x26 => Some(UserProperty)
    case 0x27 => Some(MaximumPacketSize)
    case 0x28 => Some(WildcardSubscriptionAvailable)
    case 0x29 => Some(SubscriptionIdentifierAvailable)
    case 0x2A => Some(SharedSubscriptionAvailable)
    case _ => None
  }

  /** A property value, one alternative per layout. */
  datatype Value =
    | ByteValue(b: byte)
    | TwoByteValue(h: u16)
    | FourByteValue(w: u32)
    | DataValue(data: seq<byte>)
    | VariableValue(v: int)
    | PairValue(key: seq<byte>, val: seq<byte>)
  {
    function Format(): Format
    {
      match this
      case ByteValue(_) => ByteFormat
      case TwoByteValue(_) => TwoByteFormat
      case FourByteValue(_) => FourByteFormat
      case DataValue(_) => PrefixedFormat
      case VariableValue(_) => VariableFormat
      case PairValue(_, _) => PairFormat
    }
  }

  /** One entry of the body: identifier and value. */
  datatype Property = Property(id: Identifier, value: Value)

  /**
   * The property set. Every field's zero value means "absent". Strings are the
   * bytes of Go strings; the user properties are a Go map.
   */
  datatype Props = Props(
    payloadFormatIndicator: byte,
    messageExpiryInterval: u32,
    contentType: seq<byte>,
    responseTopic: seq<byte>,
    correlationData: seq<byte>,
    subscriptionIdentifier: int,
    sessionExpiryInterval: u32,
    assignedClientIdentifier: seq<byte>,
    serverKeepAlive: u16,
    authenticationMethod: seq<byte>,
    authenticationData: seq<byte>,
    requestProblemInformation: bool,
    willDelayInterval: u32,
    requestResponseInformation: bool,
    responseInformation: seq<byte>,
    serverReference: seq<byte>,
    reasonString: seq<byte>,
    receiveMaximum: u16,
    topicAliasMaximum: u16,
    topicAlias: u16,
    maximumQoS: byte,
    retainAvailable: bool,
    userProperty: map<seq<byte>, seq<byte>>,
    maximumPacketSize: u32,
    wildcardSubscriptionAvailable: bool,
    subscriptionIdentifierAvailable: bool,
    sharedSubscriptionAvailable: bool)

  /** The property set with every field at its zero value. */
  const Zero: Props := Props(0, 0, [], [], [], 0, 0, [], 0, [], [], false, 0, false, [], [], [],
                             0, 0, 0, 0, false, map[], 0, false, false, false)

  /** The number of kinds in the chain. */
  const Kinds: nat := 27

  /** The k-th identifier the chain tests. */
  function At(k: nat): Identifier
    requires k < Kinds
  {
    match k
    case 0 => PayloadFormatIndicator
    case 1 => MessageExpiryInterval
    case 2 => ContentType
    case 3 => ResponseTopic
    case 4 => CorrelationData
    case 5 => SubscriptionIdentifier
    case 6 => SessionExpiryInterval
    case 7 => AssignedClientIdentifier
    case 8 => ServerKeepAlive
    case 9 => AuthenticationMethod
    case 10 => AuthenticationData
    case 11 => RequestProblemInformation
    case 12 => WillDelayInterval
    case 13 => RequestResponseInformation
    case 14 => ResponseInformation
    case 15 => ServerReference
    case 16 => ReasonString
    case 17 => ReceiveMaximum
    case 18 => TopicAliasMaximum
    case 19 => TopicAlias
    case 20 => MaximumQoS
    case 21 => RetainAvailable
    case 22 => UserProperty
    case 23 => MaximumPacketSize
    case 24 => WildcardSubscriptionAvailable
    case 25 => SubscriptionIdentifierAvailable
    case _ => SharedSubscriptionAvailable
  }

  /** Where `id` stands in the chain: the inverse of `At`. */
  function Position(id: Identifier): (k: nat)
    ensures k < Kinds && At(k) == id
  {
    match id
    case PayloadFormatIndicator => 0
    case MessageExpiryInterval => 1
    case ContentType => 2
    case ResponseTopic => 3
    case CorrelationData => 4
    case SubscriptionIdentifier => 5
    case SessionExpiryInterval => 6
    case AssignedClientIdentifier => 7
    case ServerKeepAlive => 8
    case AuthenticationMethod => 9
    case AuthenticationData => 10
    case RequestProblemInformation => 11
    case WillDelayInterval => 12
    case RequestResponseInformation => 13
    case ResponseInformation => 14
    case ServerReference => 15
    case ReasonString => 16
    case ReceiveMaximum => 17
    case TopicAliasMaximum => 18
    case TopicAlias => 19
    case MaximumQoS => 20
    case RetainAvailable => 21
    case UserProperty => 22
    case MaximumPacketSize => 23
    case WildcardSubscriptionAvailable => 24
    case SubscriptionIdentifierAvailable => 25
    case SharedSubscriptionAvailable => 26
  }

  /** The byte a Go boolean is written as (`encodeInt(encodeBool(b))`). */
  function BoolByte(b: bool): byte
  {
    if b then 1 else 0
  }

  /**
   * One (UserProperty, key, value) entry per key of `order`, in that order.
   * The encoder only ever passes an enumeration of the map's keys; a key the
   * map lacks would contribute nothing.
   */
  function UserProperties(m: map<seq<byte>, seq<byte>>, order: seq<seq<byte>>): seq<Property>
  {
    if order == [] then []
    else
      var k := order[|order| - 1];
      UserProperties(m, order[..|order| - 1])
        + (if k in m then [Property(UserProperty, PairValue(k, m[k]))] else [])
  }

  /** `order` lists every key of `m` exactly once: one possible Go map iteration order. */
  ghost predicate IsEnumeration(order: seq<seq<byte>>, m: map<seq<byte>, seq<byte>>)
  {
    && (forall i, j :: 0 <= i < j < |order| ==> order[i] != order[j])
    && (forall k :: k in order <==> k in m)
  }

  /**
   * The presence rule of each branch of the chain: a field is written only
   * when it differs from its zero value (0, empty, false); the user properties
   * when the map has an entry.
   */
  predicate Present(p: Props, id: Identifier)
  {
    match id
    case PayloadFormatIndicator => p.payloadFormatIndicator > 0
    case MessageExpiryInterval => p.messageExpiryInterval > 0
    case ContentType => p.contentType != []
    case ResponseTopic => p.responseTopic != []
    case CorrelationData => |p.correlationData| > 0
    case SubscriptionIdentifier => p.subscriptionIdentifier > 0
    case SessionExpiryInterval => p.sessionExpiryInterval > 0
    case AssignedClientIdentifier => p.assignedClientIdentifier != []
    case ServerKeepAlive => p.serverKeepAlive > 0
    case AuthenticationMethod => p.authenticationMethod != []
    case AuthenticationData => |p.authenticationData| > 0
    case RequestProblemInformation => p.requestProblemInformation
    case WillDelayInterval => p.willDelayInterval > 0
    case RequestResponseInformation => p.requestResponseInformation
    case ResponseInformation => p.responseInformation != []
    case ServerReference => p.serverReference != []
    case ReasonString => p.reasonString != []
    case ReceiveMaximum => p.receiveMaximum > 0
    case TopicAliasMaximum => p.topicAliasMaximum > 0
    case TopicAlias => p.topicAlias > 0
    case MaximumQoS => p.maximumQoS > 0
    case RetainAvailable => p.retainAvailable
    case UserProperty => |p.userProperty| > 0
    case MaximumPacketSize => p.maximumPacketSize > 0
    case WildcardSubscriptionAvailable => p.wildcardSubscriptionAvailable
    case SubscriptionIdentifierAvailable => p.subscriptionIdentifierAvailable
    case SharedSubscriptionAvailable => p.sharedSubscriptionAvailable
  }

  /** The value the branch of `id` writes, for every identifier but UserProperty. */
  function FieldValue(p: Props, id: Identifier): Value
    requires id != UserProperty
  {
    match id
    case PayloadFormatIndicator => ByteValue(p.payloadFormatIndicator)
    case MessageExpiryInterval => FourByteValue(p.messageExpiryInterval)
    case ContentType => DataValue(p.contentType)
    case ResponseTopic => DataValue(p.responseTopic)
    case CorrelationData => DataValue(p.correlationData)
    case SubscriptionIdentifier => VariableValue(p.subscriptionIdentifier)
    case SessionExpiryInterval => FourByteValue(p.sessionExpiryInterval)
    case AssignedClientIdentifier => DataValue(p.assignedClientIdentifier)
    case ServerKeepAlive => TwoByteValue(p.serverKeepAlive)
    case AuthenticationMethod => DataValue(p.authenticationMethod)
    case AuthenticationData => DataValue(p.authenticationData)
    case RequestProblemInformation => ByteValue(BoolByte(p.requestProblemInformation))
    case WillDelayInterval => FourByteValue(p.willDelayInterval)
    case RequestResponseInformation => ByteValue(BoolByte(p.requestResponseInformation))
    case ResponseInformation => DataValue(p.responseInformation)
    case ServerReference => DataValue(p.serverReference)
    case ReasonString => DataValue(p.reasonString)
    case ReceiveMaximum => TwoByteValue(p.receiveMaximum)
    case TopicAliasMaximum => TwoByteValue(p.topicAliasMaximum)
    case TopicAlias => TwoByteValue(p.topicAlias)
    case MaximumQoS => ByteValue(p.maximumQoS)
    case RetainAvailable => ByteValue(BoolByte(p.retainAvailable))
    case MaximumPacketSize => FourByteValue(p.maximumPacketSize)
    case WildcardSubscriptionAvailable => ByteValue(BoolByte(p.wildcardSubscriptionAvailable))
    case SubscriptionIdentifierAvailable => ByteValue(BoolByte(p.subscriptionIdentifierAvailable))
    case SharedSubscriptionAvailable => ByteValue(BoolByte(p.sharedSubscriptionAvailable))
  }

  /**
   * What the branch of the chain for `id` contributes to the body: one entry
   * when the field is present, and for the user properties one entry per key
   * in the order the map is walked.
   */
  function Piece(p: Props, order: seq<seq<byte>>, id: Identifier): seq<Property>
  {
    if id == UserProperty then UserProperties(p.userProperty, order)
    else if Present(p, id) then [Property(id, FieldValue(p, id))]
    else []
  }

  /** The contributions of the 27 branches of the chain, in the order it tests them. */
  function Branches(p: Props, order: seq<seq<byte>>): (r: seq<seq<Property>>)
    ensures |r| == Kinds
  {
    seq(Kinds, k requires 0 <= k < Kinds => Piece(p, order, At(k)))
  }

  /** Lists of entries one after the other. */
  function Concat(ps: seq<seq<Property>>): seq<Property>
  {
    if ps == [] then [] else Concat(ps[..|ps| - 1]) + ps[|ps| - 1]
  }

  /** All entries of the body, in the order they are written. */
  function Entries(p: Props, order: seq<seq<byte>>): seq<Property>
  {
    Concat(Branches(p, order))
  }

  /** The bytes of one value. */
  function EncodeValue(v: Value): seq<byte>
  {
    match v
    case ByteValue(b) => [b]
    case TwoByteValue(h) => Int16Bytes(h)
    case FourByteValue(w) => Int32Bytes(w)
    case DataValue(data) => LengthPrefixed(data)
    case VariableValue(x) => VariableByteInteger.Encode(x)
    case PairValue(key, val) => LengthPrefixed(key) + LengthPrefixed(val)
  }

  /** The bytes of a list of entries: identifier byte then value, entry after entry. */
  function Flatten(es: seq<Property>): seq<byte>
  {
    if es == [] then [] else [es[0].id.Byte()] + EncodeValue(es[0].value) + Flatten(es[1..])
  }

  /** The body `WriteProperty` builds in `buf` for a given iteration order of the user properties. */
  function Body(p: Props, order: seq<seq<byte>>): seq<byte>
  {
    Flatten(Entries(p, order))
  }

  /** A body behind its length as a Variable Byte Integer: the last two lines of `WriteProperty`. */
  function Frame(body: seq<byte>): seq<byte>
  {
    VariableByteInteger.Encode(|body|) + body
  }

  /** What `WriteProperty` appends: the length of the body as a Variable Byte Integer, then the body. */
  function Block(p: Props, order: seq<seq<byte>>): seq<byte>
  {
    Frame(Body(p, order))
  }

  // ---------------------------------------------------------------------------
  // The reader
  // ---------------------------------------------------------------------------

  /** Reads one value of the given layout; returns it and what follows. */
  function ParseValue(f: Format, s: seq<byte>): (r: Option<(Value, seq<byte>)>)
    ensures r.Some? ==> |r.value.1| < |s|
  {
    match f
    case ByteFormat => if |s| < 1 then None else Some((ByteValue(s[0]), s[1..]))
    case TwoByteFormat => if |s| < 2 then None else Some((TwoByteValue(DecodeTwoByte(s[..2])), s[2..]))
    case FourByteFormat => if |s| < 4 then None else Some((FourByteValue(DecodeFourByte(s[..4])), s[4..]))
    case PrefixedFormat =>
      (match ParseLengthPrefixed(s)
       case None => None
       case Some((data, rest)) => Some((DataValue(data), rest)))
    case VariableFormat =>
      (match VariableByteInteger.Decode(s)
       case None => None
       case Some((x, rest)) => Some((VariableValue(x), rest)))
    case PairFormat =>
      (match ParseLengthPrefixed(s)
       case None => None
       case Some((key, s')) =>
         match ParseLengthPrefixed(s')
         case None => None
         case Some((val, rest)) => Some((PairValue(key, val), rest)))
  }

  /** Reads a whole body into its list of entries; fails on an unknown identifier or a short value. */
  function ParseProperties(s: seq<byte>): Option<seq<Property>>
    decreases |s|
  {
    if s == [] then Some([])
    else
      match IdentifierOf(s[0])
      case None => None
      case Some(id) =>
        match ParseValue(id.Format(), s[1..])
        case None => None
        case Some((v, rest)) =>
          match ParseProperties(rest)
          case None => None
          case Some(es) => Some([Property(id, v)] + es)
  }

  /** The effect of reading one entry into a property set. */
  function Apply(acc: Props, e: Property): Props
  {
    match e
    case Property(PayloadFormatIndicator, ByteValue(b)) => acc.(payloadFormatIndicator := b)
    case Property(MessageExpiryInterval, FourByteValue(w)) => acc.(messageExpiryInterval := w)
    case Property(ContentType, DataValue(d)) => acc.(contentType := d)
    case Property(ResponseTopic, DataValue(d)) => acc.(responseTopic := d)
    case Property(CorrelationData, DataValue(d)) => acc.(correlationData := d)
    case Property(SubscriptionIdentifier, VariableValue(x)) => acc.(subscriptionIdentifier := x)
    case Property(SessionExpiryInterval, FourByteValue(w)) => acc.(sessionExpiryInterval := w)
    case Property(AssignedClientIdentifier, DataValue(d)) => acc.(assignedClientIdentifier := d)
    case Property(ServerKeepAlive, TwoByteValue(h)) => acc.(serverKeepAlive := h)
    case Property(AuthenticationMethod, DataValue(d)) => acc.(authenticationMethod := d)
    case Property(AuthenticationData, DataValue(d)) => acc.(authenticationData := d)
    case Property(RequestProblemInformation, ByteValue(b)) => acc.(requestProblemInformation := b != 0)
    case Property(WillDelayInterval, FourByteValue(w)) => acc.(willDelayInterval := w)
    case Property(RequestResponseInformation, ByteValue(b)) => acc.(requestResponseInformation := b != 0)
    case Property(ResponseInformation, DataValue(d)) => acc.(responseInformation := d)
    case Property(ServerReference, DataValue(d)) => acc.(serverReference := d)
    case Property(ReasonString, DataValue(d)) => acc.(reasonString := d)
    case Property(ReceiveMaximum, TwoByteValue(h)) => acc.(receiveMaximum := h)
    case Property(TopicAliasMaximum, TwoByteValue(h)) => acc.(topicAliasMaximum := h)
    case Property(TopicAlias, TwoByteValue(h)) => acc.(topicAlias := h)
    case Property(MaximumQoS, ByteValue(b)) => acc.(maximumQoS := b)
    case Property(RetainAvailable, ByteValue(b)) => acc.(retainAvailable := b != 0)
    case Property(UserProperty, PairValue(k, x)) => acc.(userProperty := acc.userProperty[k := x])
    case Property(MaximumPacketSize, FourByteValue(w)) => acc.(maximumPacketSize := w)
    case Property(WildcardSubscriptionAvailable, ByteValue(b)) => acc.(wildcardSubscriptionAvailable := b != 0)
    case Property(SubscriptionIdentifierAvailable, ByteValue(b)) => acc.(subscriptionIdentifierAvailable := b != 0)
    case Property(SharedSubscriptionAvailable, ByteValue(b)) => acc.(sharedSubscriptionAvailable := b != 0)
    case _ => acc
  }

  /** Reads a list of entries, first to last, into a property set. */
  function Collect(es: seq<Property>, acc: Props): Props
  {
    if es == [] then acc else Collect(es[1..], Apply(acc, es[0]))
  }

  /** Reads a body into a property set; absent kinds stay at their zero value. */
  function DecodeProperties(s: seq<byte>): Option<Props>
  {
    match ParseProperties(s)
    case None => None
    case Some(es) => Some(Collect(es, Zero))
  }

  /** Reads a property block (length, then body) and returns the set and what follows it. */
  function DecodeBlock(s: seq<byte>): Option<(Props, seq<byte>)>
  {
    match VariableByteInteger.Decode(s)
    case None => None
    case Some((n, rest)) =>
      if n < 0 || |rest| < n then None
      else
        match DecodeProperties(rest[..n])
        case None => None
        case Some(p) => Some((p, rest[n..]))
  }
}
