# MQTT 5.0 encoder of tgo, modelled in Dafny

This project models the byte writer that the MQTT package of tgo uses to put
packets together (`src/protocol/mqtt/encoder.go`). The writer is an `encoder`
object around a growable byte buffer. Every `Write*` method appends to that
buffer:

- single bytes (`byte(i)` truncation);
- Two and Four Byte Integers, big-endian;
- UTF-8 Encoded Strings and Binary Data behind a 2-byte length;
- raw bytes;
- Variable Byte Integers;
- a whole MQTT 5.0 property block, in `WriteProperty`.

`WriteProperty` is a chain of 27 `if` tests. Each test writes one property
when its field is away from its zero value (the signed subscription
identifier: when positive). The user-property map is walked in
the order the Go runtime chooses. The body comes out behind its length as a
Variable Byte Integer.

The files:

- `wire.dfy` (module `Wire`): the fixed-width formats. Go's `byte(i)`, its
  `>>` on signed integers and the 2-byte length prefix are written out, so any
  wrap-around is part of the model.
- `vbi.dfy` (module `VariableByteInteger`): the variable-length encoding, as
  the loop in `WriteVariable` produces it. A standard 4-byte decoder
  (section 1.5.5 of MQTT Version 5.0) sits beside it as an independent
  reference.
- `properties.dfy` (module `Properties`): the property identifiers, with their
  byte values from Table 2-4 of MQTT Version 5.0, and the `Props` record. It
  states the chain as a table: position k of the chain, the identifier tested
  there, its presence rule and its value. From that table it defines the
  entries, the body and the framed block. It also holds a reference reader for
  property blocks.
- `property_proofs.dfy` (module `PropertyProofs`): the reader reads back every
  non-empty block whose strings and binary fields are shorter than 65536 bytes
  whose subscription identifier is between 0 and 268,435,455, and whose body
  length is at most 268,435,455.
  The all-zero set's empty block does not read back (`ZeroBlockIsEmpty`).
- `property_layout.dfy` (module `PropertyLayout`): layout facts about the
  block. Entries come in ascending identifier order. The user properties sit
  between Retain Available and Maximum Packet Size. A block holds one entry for each
  field that is set, none for a field that is not, and one user-property entry
  per map key. The length does not depend on the map order. An
  all-zero `Props` writes nothing. Boolean properties are only written as 1.
  The example blocks are proved here too.
- `encoder.dfy` (module `Encoding`): the `Encoder` class. Its field `w` is the
  buffer, and it has one method per Go method. Each method states its new
  buffer as the old one followed by the bytes given by a function of the
  modules above. `WriteVariable` keeps the Go loop. `WriteProperty` keeps the
  chain of tests in source order. The chain is split over the `AppendTests…`
  methods, a few consecutive tests each; after the first k tests the buffer
  holds `Upto(p, order, k)`. The `for k, v := range` loop over the
  user-property map is a `while` loop that picks an unvisited key with `:|`.
  It returns, as a ghost value, the order in which it visited the keys.

Go `string` and `[]byte` are both `seq<byte>`. Go `int`, `uint8`, `uint16` and
`uint32` are `int`, `byte`, `u16` and `u32`.

## Model

| member | source | states |
|---|---|---|
| Encoding.Encoder.constructor | src/protocol/mqtt/encoder.go:11-15 | a new encoder has an empty buffer |
| Encoding.Encoder.Bytes | src/protocol/mqtt/encoder.go:17-19 | returns the bytes written so far; its length is `Len()` |
| Encoding.Encoder.Len | src/protocol/mqtt/encoder.go:21-23 | the number of bytes written so far |
| Encoding.Encoder.WriteByte | src/protocol/mqtt/encoder.go:25-27 | appends exactly `b`; the length grows by one; nothing written before changes |
| Encoding.Encoder.WriteInt | src/protocol/mqtt/encoder.go:29-31 | appends one byte, `i` mod 256 (Go's `byte(i)`), for every int, negative ones included |
| Encoding.Encoder.WriteUint8 | src/protocol/mqtt/encoder.go:33-35 | appends a `uint8` unchanged |
| Encoding.Encoder.WriteInt16 | src/protocol/mqtt/encoder.go:37-39 | appends two bytes, high byte first, which read back as `i` mod 65536; the length grows by two |
| Encoding.Encoder.WriteUint16 | src/protocol/mqtt/encoder.go:41-43 | appends a Two Byte Integer that reads back as exactly `i` |
| Encoding.Encoder.WriteInt32 | src/protocol/mqtt/encoder.go:45-52 | appends four bytes, most significant first, which read back as `i` mod 2^32; the length grows by four |
| Encoding.Encoder.WriteUint32 | src/protocol/mqtt/encoder.go:54-56 | appends a Four Byte Integer that reads back as exactly `i` |
| Encoding.Encoder.WriteString | src/protocol/mqtt/encoder.go:58-60 | appends the string as `WriteBinary` does: 2-byte length, then its bytes |
| Encoding.Encoder.WriteStringAll | src/protocol/mqtt/encoder.go:62-64 | appends the string's bytes verbatim, with no prefix |
| Encoding.Encoder.WriteBinary | src/protocol/mqtt/encoder.go:66-69 | appends a 2-byte prefix that reads as `len(b)` mod 65536, then `b` verbatim; the length grows by 2 + `len(b)` |
| Encoding.Encoder.WriteBytes | src/protocol/mqtt/encoder.go:71-73 | appends `b` verbatim |
| Encoding.Encoder.WriteVariable | src/protocol/mqtt/encoder.go:75-86 | the loop appends exactly `VariableByteInteger.Encode(v)`, whose properties are the lemmas below |
| Encoding.Encoder.WriteProperty | src/protocol/mqtt/encoder.go:88-204 | for the order in which the map was walked (every key exactly once), appends `Block(p, order)`: the body of the 27 tests behind its length as a Variable Byte Integer |
| Encoding.AppendIf | src/protocol/mqtt/encoder.go:90-93 | one test of the chain: it appends the identifier byte and the encoded value exactly when the presence rule of the table holds for that identifier |
| Encoding.AppendTests0To2 | src/protocol/mqtt/encoder.go:89-101 | from the empty buffer, the first three tests leave the bytes of the first three branches of the table |
| Encoding.AppendTests3To5 | src/protocol/mqtt/encoder.go:102-113 | tests 3 to 5 extend the bytes of the first 3 branches to those of the first 6 |
| Encoding.AppendTests6To8 | src/protocol/mqtt/encoder.go:114-125 | tests 6 to 8 extend the first 6 branches to the first 9 |
| Encoding.AppendTests9To11 | src/protocol/mqtt/encoder.go:126-137 | tests 9 to 11 extend the first 9 branches to the first 12 |
| Encoding.AppendTests12To14 | src/protocol/mqtt/encoder.go:138-149 | tests 12 to 14 extend the first 12 branches to the first 15 |
| Encoding.AppendTests15To17 | src/protocol/mqtt/encoder.go:150-161 | tests 15 to 17 extend the first 15 branches to the first 18 |
| Encoding.AppendTests18To19 | src/protocol/mqtt/encoder.go:162-169 | tests 18 and 19 extend the first 18 branches to the first 20 |
| Encoding.AppendTests20To21 | src/protocol/mqtt/encoder.go:170-177 | tests 20 and 21 extend the first 20 branches to the first 22 |
| Encoding.AppendTest22 | src/protocol/mqtt/encoder.go:178-184 | the user-property test adds one entry per map key, in the order walked, and nothing for an empty map |
| Encoding.AppendTests23To24 | src/protocol/mqtt/encoder.go:185-192 | tests 23 and 24 extend the first 23 branches to the first 25 |
| Encoding.AppendTests25To26 | src/protocol/mqtt/encoder.go:193-200 | the last two tests complete all 27 branches |
| Encoding.AppendUserProperties | src/protocol/mqtt/encoder.go:178-184 | nothing for an empty map; otherwise the entries of every key exactly once, in the order walked |
| Encoding.WalkUserProperties | src/protocol/mqtt/encoder.go:179-183 | the `range` loop visits every key exactly once and writes one (UserProperty, key, value) entry per visit |
| Encoding.UserPropertySnoc | src/protocol/mqtt/encoder.go:180-182 | one loop iteration appends identifier 0x26, then the key and the value as length-prefixed strings |
| Encoding.UptoOrderFree | src/protocol/mqtt/encoder.go:89-177 | the 22 tests before the user properties write the same bytes whatever the map order |
| Encoding.FrameIsBlock | src/protocol/mqtt/encoder.go:202-203 | the length of the body as a Variable Byte Integer, then the body, is the block |
| Wire.TwoByteWraps | src/protocol/mqtt/encoder.go:37-39 | `WriteInt16` writes two bytes, which read back as `i` mod 65536 |
| Wire.TwoByteRoundTrip | src/protocol/mqtt/encoder.go:41-43 | encoding and decoding a Two Byte Integer are inverse both ways |
| Wire.FourByteWraps | src/protocol/mqtt/encoder.go:45-52 | `WriteInt32` writes four bytes, which read back as `i` mod 2^32 |
| Wire.FourByteRoundTrip | src/protocol/mqtt/encoder.go:54-56 | encoding and decoding a Four Byte Integer are inverse both ways |
| Wire.LengthPrefixedLayout | src/protocol/mqtt/encoder.go:66-69 | a length-prefixed field is 2 + `len(b)` bytes: a prefix reading `len(b)` mod 65536, then `b` |
| Wire.LengthPrefixedRoundTrip | src/protocol/mqtt/encoder.go:66-69 | below 65536 bytes, a length-prefixed field reads back as the same bytes and leaves what follows |
| Wire.OversizedLengthPrefixTruncates | src/protocol/mqtt/encoder.go:66-69 | from 65536 bytes on, the unchecked prefix wraps and the field no longer reads back as written |
| PropertyLayout.ShortLengthPrefixed | src/protocol/mqtt/encoder.go:66-69 | a field shorter than 256 bytes has the prefix 00, then its length |
| Wire.LengthPrefixedExamples | src/protocol/mqtt/encoder.go:58-60 | "" is 00 00; "MQTT" is 00 04 4D 51 54 54 |
| VariableByteInteger.EncodeEmpty | src/protocol/mqtt/encoder.go:75-86 | the loop writes nothing exactly when `v <= 0` |
| VariableByteInteger.EncodeShape | src/protocol/mqtt/encoder.go:75-86 | for `v > 0`: at least one byte, bit 7 set on every byte but the last, and the 7-bit groups sum back to `v` |
| VariableByteInteger.EncodeLength | src/protocol/mqtt/encoder.go:75-86 | for `v > 0`: at most n bytes exactly when `v < 128^n` |
| VariableByteInteger.EncodeWithinRange | src/protocol/mqtt/encoder.go:75-86 | every value of the standard range 1..268435455 takes 1 to 4 bytes |
| VariableByteInteger.EncodeBeyondRange | src/protocol/mqtt/encoder.go:75-86 | from 2^28 on, the unchecked loop writes more than the standard's 4 bytes |
| VariableByteInteger.DecodeEncode | src/protocol/mqtt/encoder.go:75-86 | within the standard range, the standard decoder reads back `v` and leaves what follows |
| VariableByteInteger.BeyondRangeUndecodable | src/protocol/mqtt/encoder.go:75-86 | from 2^28 on, the bytes written are rejected by the standard decoder |
| VariableByteInteger.ZeroWritesNothing | src/protocol/mqtt/encoder.go:75-86 | 0 is written as no bytes at all, where the standard encodes it as 00; the empty encoding does not decode |
| VariableByteInteger.EncodeExamples | src/protocol/mqtt/encoder.go:75-86 | 127 is 7F; 128 is 80 01; 16384 is 80 80 01; 268435455 is FF FF FF 7F; 2^28 is five bytes |
| PropertyLayout.PositionAt | src/protocol/mqtt/encoder.go:88-200 | the position of the identifier tested at step k is k |
| Properties.Position | src/protocol/mqtt/encoder.go:88-200 | the position at which each identifier is tested: the chain tests `id` at `Position(id)` |
| PropertyProofs.IdentifierOfInverse | src/protocol/mqtt/encoder.go:90-93 | the identifier bytes are distinct, so each byte names at most one property |
| PropertyProofs.ValueRoundTrip | src/protocol/mqtt/encoder.go:90-93 | every value a test writes reads back, in the format of its identifier, and leaves what follows |
| PropertyProofs.PairRoundTrip | src/protocol/mqtt/encoder.go:180-182 | a user property's key and value read back as written |
| PropertyProofs.ParseFlatten | src/protocol/mqtt/encoder.go:88-200 | a body made of well-formed entries reads back as the same entries |
| PropertyProofs.DecodeBody | src/protocol/mqtt/encoder.go:88-200 | when every field fits its format, the body reads back as the same `Props`, the whole map included, whatever the order it was walked in |
| PropertyProofs.DecodeBlockRoundTrip | src/protocol/mqtt/encoder.go:88-204 | a non-empty block within the standard length range reads back as `p` and leaves what follows |
| PropertyProofs.DecodeFrame | src/protocol/mqtt/encoder.go:202-203 | a body behind its Variable Byte Integer length reads back and leaves what follows |
| PropertyProofs.UserPropertiesAppend | src/protocol/mqtt/encoder.go:179-183 | walking the keys in two stretches writes the first stretch's entries, then the second's |
| PropertyLayout.AtByteAscending | src/protocol/mqtt/encoder.go:88-200 | the chain tests the identifiers in strictly ascending byte order |
| PropertyLayout.EntriesAscending | src/protocol/mqtt/encoder.go:88-200 | the entries of a block come in ascending identifier order; only user properties repeat, next to each other |
| PropertyLayout.UserPropertiesBetween | src/protocol/mqtt/encoder.go:174-189 | a user property comes after every entry up to Retain Available and before every entry from Maximum Packet Size on |
| PropertyLayout.PieceShape | src/protocol/mqtt/encoder.go:88-200 | a test writes only entries of its own identifier, and at most one unless it is the user-property test |
| PropertyLayout.EntriesSelect | src/protocol/mqtt/encoder.go:88-200 | picking out the entries of one identifier gives exactly the branch that tests it |
| PropertyLayout.EntryCount | src/protocol/mqtt/encoder.go:88-200 | a block holds one entry per map key for the user properties, and for any other identifier one exactly when its presence rule holds (non-zero; for the subscription identifier, positive) |
| PropertyLayout.UserPropertiesLength | src/protocol/mqtt/encoder.go:179-183 | the walk writes one entry per key visited |
| PropertyLayout.UserPropertiesSize | src/protocol/mqtt/encoder.go:179-183 | whatever the walk order, the user properties take the sum of 5 + `len(k)` + `len(v)` over the map |
| PropertyLayout.BlockSizeIndependentOfOrder | src/protocol/mqtt/encoder.go:178-203 | two walk orders give bodies of the same length, the same length prefix and blocks of the same length |
| PropertyLayout.EmptyBody | src/protocol/mqtt/encoder.go:88-200 | the body is empty exactly when no presence rule holds: every field at its zero value, the subscription identifier not positive, the map empty |
| PropertyLayout.OnlyEntry | src/protocol/mqtt/encoder.go:88-200 | when only one presence rule holds, and not the user properties', the body holds that one entry and nothing else |
| PropertyLayout.NegativeSubscriptionIdentifierDropped | src/protocol/mqtt/encoder.go:110-113 | a negative subscription identifier is not written: a set that differs from the all-zero set only there writes the same empty block |
| PropertyLayout.ZeroBlockIsEmpty | src/protocol/mqtt/encoder.go:202-203 | an all-zero `Props` appends no bytes at all (not even a 00 length); the standard empty block 00 reads as the all-zero `Props` |
| PropertyLayout.FlagPiece | src/protocol/mqtt/encoder.go:134-137 | a boolean test writes its identifier and the byte 1 when true, nothing when false |
| PropertyLayout.FlagsOnlyTrue | src/protocol/mqtt/encoder.go:134-200 | no block ever holds a boolean property with a value other than 1 |
| PropertyLayout.ContentTypeBody | src/protocol/mqtt/encoder.go:98-101 | a `Props` with only a content type has the body 03, then the content type as a string |
| PropertyLayout.ContentTypeBlock | src/protocol/mqtt/encoder.go:98-101 | for a content type of 1 to 124 bytes, the block is 3 + n, 03, 00, n, then its bytes |
| PropertyLayout.ShortFrame | src/protocol/mqtt/encoder.go:202-203 | a body of 1 to 127 bytes is framed by a single length byte |

## Left out

- The `bytes.Buffer` behind the encoder is the sequence `w`. Its growth strategy, and the fact that Go's `Bytes()` returns a slice that aliases the buffer, are not modelled.
- Encoding.Encoder.WriteProperty: the order in which Go walks a map is unspecified. The model picks keys with `:|` and states the result for the order it returns, not for one fixed order. The order-independent facts (entry count, lengths) are proved for every order.
- The `Props` type, the identifier constants with their `Byte()` values and the helpers `encodeUint`, `encodeUint16`, `encodeUint32`, `encodeString`, `encodeBinary`, `encodeVariable`, `encodeInt` and `encodeBool` are not part of this model. The model assumes:
  - the helpers produce the same bytes as the matching `Write*` methods;
  - `encodeBool` gives 1 for true;
  - the identifier bytes are those of Table 2-4 of MQTT Version 5.0.
- A nil `*Props`, for which Go would panic, is not modelled. `WriteProperty` takes a value.
- Encoding.Encoder.WriteVariable: like the Go code, it has no range check. 0 and negative values write nothing. Values from 2^28 on write more than four bytes. These departures from section 1.5.5 of MQTT Version 5.0 are stated as lemmas, not corrected.
- Encoding.Encoder.WriteBinary: like the Go code, it has no length check. Beyond 65535 bytes the prefix wraps (`OversizedLengthPrefixTruncates`).
- Go's `int` has 64 bits, and the model's `int` is unbounded. For every 64-bit value, the bytes of `WriteInt`, `WriteInt16` and `WriteInt32` are the same. The subscription identifier is a Go `int`, written only when positive; a negative one is dropped, so the block is the one written for 0 (`NegativeSubscriptionIdentifierDropped`).
- Decoding of packets, the network and the rest of the MQTT package are not part of this model. The readers in `Properties` and `VariableByteInteger` are independent reference definitions, used to state round trips. They are not the repository's decoder.
