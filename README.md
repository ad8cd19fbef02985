# EVM-module Protocol Buffers codec, modelled in Dafny

This project models the binary codec that gogoproto generated for the eight
records of the EVM module in `x/evm/txs/support/evm.pb.go`:

- `Params`: the EVM denomination, two switches, the extra EIPs as a packed
  repeated int64, an embedded `ChainConfig` and the unprotected-transaction flag.
- `ChainConfig`: the fork schedule. It has nineteen fields numbered 1 to 13,
  17, 18 and 20 to 23. The fork heights are `*cosmossdk_io_math.Int`.
- `State`: the key and value of a storage slot.
- `TransactionLogs`: a hash and a repeated embedded `Log`.
- `Log`: an Ethereum event log.
- `TxResult`: a transaction outcome that embeds `TransactionLogs`.
- `AccessTuple`: an address and its storage keys.
- `TraceConfig`: trace options. It has an int32 limit and an optional
  `ChainConfig` of overrides.

The wire format is proto3 as the Protocol Buffers "Encoding" guide defines it:

- base-128 varints;
- keys `field_number << 3 | wire_type`;
- length-delimited records;
- packed repeated fields;
- "last one wins" for singular fields, appending for repeated ones.

Each record is a `datatype`. Its meaning on the wire is given by two
specification functions:

- `Encode(m)` is the concatenation of the record's fields in ascending field
  order. Default values are left out.
- `Decode(data, m0)` runs the generated `Unmarshal` loop over `data`, starting
  from the receiver's current value `m0`.

The generated operations are imperative Dafny proved against these functions:

- **`Size`** adds up the field sizes, with loops for repeated fields.
  It returns exactly `|Encode(m)|`.
- **`MarshalToSizedBuffer`** writes into an `array` from its end backward,
  highest field first, with the cursor moving down. It writes exactly
  `Encode(m)` into the last `n` bytes and leaves the rest of the buffer alone.
- **`Unmarshal`** is a cursor loop that reads a tag and dispatches on the
  record's `switch`. It returns `Decode(data, m0)`: the updated record or an
  error kind.

The round trip `Decode(Encode(m), Default) == Ok(m)` is proved for every record.
The general form is also proved: decoding `b`'s encoding onto a receiver `a`
gives `Merge(a, b)`. `Merge` spells out proto3's merge rules as the generated
code applies them:

- a non-empty string replaces the old one;
- a non-zero integer replaces the old one;
- a set bool stays set;
- repeated fields append in order;
- embedded messages merge into the existing value;
- a ChainConfig Int is replaced by a fresh one.

Go's fixed-width integers are explicit. `U64Of` is the uint64 view of an
int64 (x mod 2^64) and `I64Of` its inverse. `I32Of` is the int32 that
`Unmarshal` accumulates with its shifts: the low 32 bits, signed. The
`intStringLen < 0` / `postIndex < 0` guards are modelled as lengths of 2^63
or more.

Reading a tag keeps what `int32(wire >> 3)` keeps: the low 32 bits of the
field number. A key whose field number is 2^32 or more therefore aliases a
small field number. This is how the generated code behaves, and the model
does the same.

The cosmossdk `Int` is opaque. A fork height is `Option<seq<Byte>>`: `None`
for nil, otherwise the bytes that the Int's own `Marshal` produces.

## Model

| member | source | states |
|---|---|---|
| Varint.Sov | x/evm/txs/support/evm.pb.go:1830-1832 | `sovEvm(x)` is the number of bytes of the varint encoding of `x`, between 1 and 10 |
| Varint.SovMatchesLength | x/evm/txs/support/evm.pb.go:1830-1832 | `(Len64(x\|1)+6)/7` equals the length of the varint encoding, and that length is at most 10 |
| Varint.VarintBytesShape | x/evm/txs/support/evm.pb.go:1534-1539 | every encoded byte except the last has its high bit set; the last is below 0x80 |
| Varint.EncodeVarint | x/evm/txs/support/evm.pb.go:1531-1541 | `encodeVarintEvm` writes the varint of `v` ending just before `offset`, returns `offset - sovEvm(v)` and leaves the rest of the buffer unchanged |
| Varint.DecodeVarint | x/evm/txs/support/evm.pb.go:1842-1855 | the inline decode loop returns exactly `ReadVarint`: the value and the new cursor, or an error |
| Varint.ReadVarintEncoded | x/evm/txs/support/evm.pb.go:1842-1855 | reading back what `encodeVarintEvm` wrote recovers `v` and advances the cursor by exactly `sovEvm(v)` |
| Varint.ReadVarintOverflow | x/evm/txs/support/evm.pb.go:1843-1845 | ten bytes that all have the high bit set give `ErrIntOverflowEvm` (shift reaches 64) |
| Varint.ReadVarintTruncated | x/evm/txs/support/evm.pb.go:1846-1848 | input that ends before a byte below 0x80 (and within ten bytes) gives `io.ErrUnexpectedEOF` |
| Varint.U64Of | x/evm/txs/support/evm.pb.go:839-840 | the uint64 conversion of an int64 is undone by the signed view and keeps non-negative values unchanged |
| Varint.I32RoundTrip | x/evm/txs/support/evm.pb.go:3828-3846 | an int32 limit written as `uint64(m.Limit)` is read back unchanged by the 32-bit shift loop |
| Wire.ReadTag | x/evm/txs/support/evm.pb.go:2821-2828 | a tag that is accepted has field number > 0, wire type < 8 and wire type ≠ 4, and its cursor stays in the input |
| Wire.ReadTagAt | x/evm/txs/support/evm.pb.go:2804-2828 | the tag read at the head of every Unmarshal iteration equals `ReadTag` |
| Wire.ReadTagEncoded | x/evm/txs/support/evm.pb.go:2804-2828 | the key bytes of a field number and wire type (not 4) read back as that tag and advance past the key |
| Wire.ReadTagEndGroup | x/evm/txs/support/evm.pb.go:2823-2825 | a wire type 4 key is rejected ("end group for non-group") |
| Wire.ReadTagZero | x/evm/txs/support/evm.pb.go:2826-2828 | field number 0 is rejected as an illegal tag |
| Wire.ReadTagTruncatesFieldNumber | x/evm/txs/support/evm.pb.go:2821 | `int32(wire >> 3)` keeps only the low 32 bits: a six-byte key whose field number is 2^32+1 reads as field 1 |
| Wire.ReadLenDelimAt | x/evm/txs/support/evm.pb.go:2834-2859 | the length prefix and bounds checks of a string, bytes or message case equal `ReadLenDelim` |
| Wire.ReadLenDelim | x/evm/txs/support/evm.pb.go:2849-2859 | an accepted payload starts after its prefix and ends within the input |
| Wire.ReadLenDelimEncoded | x/evm/txs/support/evm.pb.go:2834-2861 | a length prefix followed by that many bytes reads back as exactly that byte range |
| Wire.ReadLenDelimPastEnd | x/evm/txs/support/evm.pb.go:2857-2859 | a length that runs past the end of the input gives `io.ErrUnexpectedEOF` |
| Wire.ReadLenDelimNegative | x/evm/txs/support/evm.pb.go:2849-2852 | a length of 2^63 or more (negative as a Go int) gives `ErrInvalidLengthEvm` |
| Wire.PutLenField | x/evm/txs/support/evm.pb.go:1161-1167 | copying a string, writing its length and then its key places exactly that field's bytes just below the cursor |
| Wire.PutEmbedded | x/evm/txs/support/evm.pb.go:1349-1358 | after a nested MarshalToSizedBuffer wrote the body, writing its size and key completes exactly the embedded field |
| Skip.SkipEvm | x/evm/txs/support/evm.pb.go:3976-4053 | the skipEvm loop with its depth counter returns exactly `SkipLength` |
| Skip.SkipUnknown | x/evm/txs/support/evm.pb.go:2894-2906 | the default case rewinds to the tag, skips and checks that the skip stays in the input; it equals `SkipField` |
| Skip.SkipField | x/evm/txs/support/evm.pb.go:2894-2906 | a successful skip moves the cursor forward and stays within the input |
| Skip.SkipStep | x/evm/txs/support/evm.pb.go:3976-4053 | one iteration steps over one field: +varint, +8, +length or +4 bytes, and a group tag moves the depth by one |
| Skip.SkipFieldEncoded | x/evm/txs/support/evm.pb.go:3976-4053 | an unknown field, or a group balanced by its depth counter, is skipped to exactly its end |
| Skip.SkipGroup | x/evm/txs/support/evm.pb.go:4033-4039 | a start-group, a run of fields that keeps the group open, and its end-group are skipped as one field |
| Skip.SkipEndGroupOutside | x/evm/txs/support/evm.pb.go:4035-4038 | an end-group at depth 0 gives `ErrUnexpectedEndOfGroupEvm` |
| Skip.SkipIllegalWireType | x/evm/txs/support/evm.pb.go:4042-4043 | wire types 6 and 7 are rejected |
| Skip.SkipUnclosedGroup | x/evm/txs/support/evm.pb.go:4033-4034 | a group that is never closed runs out of input: `io.ErrUnexpectedEOF` |
| Skip.SkipFieldTruncatedFixed64 | x/evm/txs/support/evm.pb.go:2903-2905 | a fixed64 whose eight bytes run past the input is rejected by the caller's bound check |
| Decoding.UnmarshalLoop | x/evm/txs/support/evm.pb.go:2801-2913 | the cursor loop of Unmarshal returns exactly `DecodeFrom`: the record after every field is stored, or the first error |
| Decoding.ReadValueAt | x/evm/txs/support/evm.pb.go:2829-2893 | the wire-type check and payload read of a known case equal `ReadValue` |
| Decoding.ReadValue | x/evm/txs/support/evm.pb.go:2829-2893 | a payload that is read moves the cursor forward within the input |
| Decoding.StepWrongWireType | x/evm/txs/support/evm.pb.go:2829-2893 | for every record, cursor and input, a known field whose key carries a wire type other than its declared one (not 0 for an integer, not 2 for a string, bytes or message, neither 0 nor 2 for a repeated integer) makes the step and the whole Unmarshal fail with that field number and wire type |
| Decoding.PackedAt | x/evm/txs/support/evm.pb.go:1992-2009 | the packed-run loop equals `PackedLoop` |
| Decoding.PackedEncoded | x/evm/txs/support/evm.pb.go:1992-2009 | a packed run of varints reads back as the same values, appended in order |
| Decoding.StepSkipped | x/evm/txs/support/evm.pb.go:2894-2906 | an unknown field is stepped over and the record is left unchanged |
| Decoding.DecodeConcat | x/evm/txs/support/evm.pb.go:2804-2908 | decoding a concatenation of readable fields is storing each field in turn |
| Decoding.FoldAdds | x/evm/txs/support/evm.pb.go:3122 | a repeated field's elements are appended one by one, in order |
| Encoding.RepeatedSize | x/evm/txs/support/evm.pb.go:1775-1780 | the size loop over a repeated string field adds up exactly that field's encoded length |
| Encoding.PackedSize | x/evm/txs/support/evm.pb.go:1558-1564 | the packed size is key + varint of the run length + run length, exactly the packed field's bytes |
| Encoding.PutRepeated | x/evm/txs/support/evm.pb.go:1396-1404 | writing the elements from the last index backward leaves them in order: exactly the repeated field's bytes |
| Encoding.PackVarints | x/evm/txs/support/evm.pb.go:837-848 | the scratch buffer holds the varints of the elements, in order |
| Encoding.PutPacked | x/evm/txs/support/evm.pb.go:836-854 | the packed run is copied under its length and key: exactly the packed field's bytes |
| Encoding.PutString | x/evm/txs/support/evm.pb.go:1161-1167 | an empty string writes nothing; otherwise exactly its field |
| Encoding.PutBool | x/evm/txs/support/evm.pb.go:855-864 | false writes nothing; true writes the key and 1 |
| Encoding.PutUint | x/evm/txs/support/evm.pb.go:1474-1478 | zero writes nothing; otherwise the key and the varint |
| Encoding.OptSize | x/evm/txs/support/evm.pb.go:1614-1653 | a nil Int adds nothing; a set Int adds its key (1 byte below field 16, 2 from field 16 up), the varint of its length and its bytes: exactly the field's encoded length |
| Encoding.PutOpt | x/evm/txs/support/evm.pb.go:905-918 | a nil Int writes nothing; a set Int writes its bytes, then their length, then its key, in front of what is already written: exactly the field |
| Encoding.KeySize | x/evm/txs/support/evm.pb.go:1626-1631 | a key is one byte below field 16 and two bytes from field 16 up to 2047 |
| StateCodec.Size | x/evm/txs/support/evm.pb.go:1657-1672 | returns exactly the length of the encoding |
| StateCodec.MarshalToSizedBuffer | x/evm/txs/support/evm.pb.go:1156-1176 | writes exactly the encoding into the end of the buffer and returns its length; the rest of the buffer is unchanged |
| StateCodec.Marshal | x/evm/txs/support/evm.pb.go:1141-1150 | returns exactly the encoding, which is `Size()` bytes long |
| StateCodec.Unmarshal | x/evm/txs/support/evm.pb.go:2801-2913 | returns `Decode(data, m0)` |
| StateCodec.DecodeOnto | x/evm/txs/support/evm.pb.go:2801-2913 | decoding `b` onto `a` replaces the fields that `b` sets |
| StateCodec.RoundTrip | x/evm/txs/support/evm.pb.go:1141-1150 | Unmarshal of Marshal onto an empty receiver gives back the record |
| AccessTupleCodec.Size | x/evm/txs/support/evm.pb.go:1765-1782 | returns exactly the length of the encoding |
| AccessTupleCodec.MarshalToSizedBuffer | x/evm/txs/support/evm.pb.go:1391-1413 | writes exactly the encoding into the end of the buffer; the storage keys keep their order |
| AccessTupleCodec.Marshal | x/evm/txs/support/evm.pb.go:1376-1385 | returns exactly the encoding |
| AccessTupleCodec.Unmarshal | x/evm/txs/support/evm.pb.go:3542-3654 | returns `Decode(data, m0)` |
| AccessTupleCodec.FoldKeys | x/evm/txs/support/evm.pb.go:3603-3634 | each storage-key field appends its key, in order |
| AccessTupleCodec.DecodeOnto | x/evm/txs/support/evm.pb.go:3542-3654 | decoding `b` onto `a` sets the address if `b`'s is non-empty and appends `b`'s keys to `a`'s |
| AccessTupleCodec.RoundTrip | x/evm/txs/support/evm.pb.go:1376-1385 | Unmarshal of Marshal gives back the record, with the keys in order |
| AccessTupleCodec.DecodeConcatenated | x/evm/txs/support/evm.pb.go:3542-3654 | decoding two concatenated encodings merges them in turn (the keys of both are kept) |
| LogCodec.Size | x/evm/txs/support/evm.pb.go:1693-1734 | returns exactly the length of the encoding |
| LogCodec.MarshalToSizedBuffer | x/evm/txs/support/evm.pb.go:1237-1305 | writes exactly the encoding into the end of the buffer; the topics keep their order |
| LogCodec.Marshal | x/evm/txs/support/evm.pb.go:1222-1231 | returns exactly the encoding |
| LogCodec.Unmarshal | x/evm/txs/support/evm.pb.go:3031-3318 | returns `Decode(data, m0)` |
| LogCodec.FoldTopics | x/evm/txs/support/evm.pb.go:3092-3123 | each topic field appends its topic, in order |
| LogCodec.DecodeOnto | x/evm/txs/support/evm.pb.go:3031-3318 | decoding `b` onto `a` gives `Merge(a, b)`: topics appended, set strings and numbers replaced, `removed` once true stays true |
| LogCodec.RoundTrip | x/evm/txs/support/evm.pb.go:1222-1231 | Unmarshal of Marshal gives back the log |
| TransactionLogsCodec.Size | x/evm/txs/support/evm.pb.go:1674-1691 | returns exactly the length of the encoding, each log counted with its own size |
| TransactionLogsCodec.MarshalToSizedBuffer | x/evm/txs/support/evm.pb.go:1193-1220 | writes exactly the encoding into the end of the buffer |
| TransactionLogsCodec.PutLogs | x/evm/txs/support/evm.pb.go:1198-1211 | writing the logs from the last index backward, each log's body under its size and key, leaves them in order |
| TransactionLogsCodec.Marshal | x/evm/txs/support/evm.pb.go:1178-1187 | returns exactly the encoding |
| TransactionLogsCodec.Unmarshal | x/evm/txs/support/evm.pb.go:2915-3029 | returns `Decode(data, m0)` |
| TransactionLogsCodec.FoldLogs | x/evm/txs/support/evm.pb.go:3005-3009 | each logs field appends a fresh `Log` decoded from its bytes, in order |
| TransactionLogsCodec.DecodeOnto | x/evm/txs/support/evm.pb.go:2915-3029 | decoding `b` onto `a` appends `b`'s logs and sets the hash if `b`'s is non-empty |
| TransactionLogsCodec.RoundTrip | x/evm/txs/support/evm.pb.go:1178-1187 | Unmarshal of Marshal gives back the logs in order |
| TxResultCodec.Size | x/evm/txs/support/evm.pb.go:1736-1763 | returns exactly the length of the encoding, the logs always counted |
| TxResultCodec.MarshalToSizedBuffer | x/evm/txs/support/evm.pb.go:1322-1374 | writes exactly the encoding into the end of the buffer |
| TxResultCodec.PutTxLogs | x/evm/txs/support/evm.pb.go:1349-1358 | the embedded logs are written with key and size even when they are empty |
| TxResultCodec.Marshal | x/evm/txs/support/evm.pb.go:1307-1316 | returns exactly the encoding |
| TxResultCodec.Unmarshal | x/evm/txs/support/evm.pb.go:3320-3540 | returns `Decode(data, m0)` |
| TxResultCodec.StoreLogs | x/evm/txs/support/evm.pb.go:3415-3447 | a logs field is decoded onto the receiver's existing logs, which merges the two |
| TxResultCodec.DecodeOnto | x/evm/txs/support/evm.pb.go:3320-3540 | decoding `b` onto `a` gives `Merge(a, b)`, the logs merged and not replaced |
| TxResultCodec.RoundTrip | x/evm/txs/support/evm.pb.go:1307-1316 | Unmarshal of Marshal gives back the result |
| ChainConfigCodec.Size | x/evm/txs/support/evm.pb.go:1573-1655 | returns exactly the length of the encoding; nil Ints add nothing, set Ints their tag, length and bytes |
| ChainConfigCodec.MarshalToSizedBuffer | x/evm/txs/support/evm.pb.go:900-1139 | writes exactly the encoding into the end of the buffer, highest field first |
| ChainConfigCodec.Marshal | x/evm/txs/support/evm.pb.go:885-894 | returns exactly the encoding |
| ChainConfigCodec.Unmarshal | x/evm/txs/support/evm.pb.go:2087-2799 | returns `Decode(data, m0)` |
| ChainConfigCodec.DecodeOnto | x/evm/txs/support/evm.pb.go:2087-2799 | decoding `b` onto `a` replaces every Int and the hash that `b` sets; `daoForkSupport` once true stays true |
| ChainConfigCodec.RoundTrip | x/evm/txs/support/evm.pb.go:885-894 | Unmarshal of Marshal gives back the configuration |
| ChainConfigCodec.DefaultEmpty | x/evm/txs/support/evm.pb.go:1573-1655 | a configuration with every Int nil, an empty hash and a false flag encodes to no bytes |
| ChainConfigCodec.LondonTag | x/evm/txs/support/evm.pb.go:975-988 | a set London block (field 17) starts with the two-byte key 0x8a 0x01 |
| ChainConfigCodec.CancunTag | x/evm/txs/support/evm.pb.go:905-918 | a set Cancun block (field 23) starts with the two-byte key 0xba 0x01 |
| ChainConfigCodec.BerlinTag | x/evm/txs/support/evm.pb.go:989-1000 | a set Berlin block (field 13) starts with the one-byte key 0x6a |
| ParamsCodec.Size | x/evm/txs/support/evm.pb.go:1542-1571 | returns exactly the length of the encoding, the chain configuration always counted |
| ParamsCodec.MarshalToSizedBuffer | x/evm/txs/support/evm.pb.go:811-883 | writes exactly the encoding into the end of the buffer |
| ParamsCodec.PutChainConfig | x/evm/txs/support/evm.pb.go:826-835 | the embedded chain configuration is written with key and size even when it is all defaults |
| ParamsCodec.Marshal | x/evm/txs/support/evm.pb.go:796-805 | returns exactly the encoding |
| ParamsCodec.Unmarshal | x/evm/txs/support/evm.pb.go:1836-2085 | returns `Decode(data, m0)` |
| ParamsCodec.SignedViews | x/evm/txs/support/evm.pb.go:1993-2008 | the extra EIPs written as uint64 and read back as int64 are the original values, negative ones included |
| ParamsCodec.StoreChainConfig | x/evm/txs/support/evm.pb.go:2013-2046 | a chain-config field is decoded onto the receiver's configuration, which merges the two |
| ParamsCodec.DecodeOnto | x/evm/txs/support/evm.pb.go:1836-2085 | decoding `b` onto `a` gives `Merge(a, b)`: EIPs appended, chain configuration merged |
| ParamsCodec.RoundTrip | x/evm/txs/support/evm.pb.go:796-805 | Unmarshal of Marshal gives back the parameters, EIPs in order |
| ParamsCodec.DecodeConcatenated | x/evm/txs/support/evm.pb.go:1836-2085 | decoding two concatenated encodings merges them in turn |
| ParamsCodec.FoldUnpacked | x/evm/txs/support/evm.pb.go:1938-1954 | one unpacked varint field per EIP appends the EIPs in order |
| ParamsCodec.PackedOrUnpacked | x/evm/txs/support/evm.pb.go:1937-2012 | field 4 sent packed (wire type 2) or unpacked (wire type 0) decodes to the same appended EIPs |
| ParamsCodec.EIPsWrongWireType | x/evm/txs/support/evm.pb.go:2010-2011 | field 4 with wire type 5 is rejected as a wrong wire type |
| ParamsCodec.EIPsPastEnd | x/evm/txs/support/evm.pb.go:1978-1980 | a packed run whose length passes the end of the input gives `io.ErrUnexpectedEOF` |
| ParamsCodec.DefaultEncoding | x/evm/txs/support/evm.pb.go:826-835 | the default parameters encode to the two bytes 0x2a 0x00: only the empty chain configuration |
| TraceConfigCodec.Size | x/evm/txs/support/evm.pb.go:1784-1828 | returns exactly the length of the encoding |
| TraceConfigCodec.MarshalToSizedBuffer | x/evm/txs/support/evm.pb.go:1430-1529 | writes exactly the encoding into the end of the buffer |
| TraceConfigCodec.PutOverrides | x/evm/txs/support/evm.pb.go:1462-1473 | set overrides are written with key and size even when they are all defaults |
| TraceConfigCodec.Marshal | x/evm/txs/support/evm.pb.go:1415-1424 | returns exactly the encoding |
| TraceConfigCodec.Unmarshal | x/evm/txs/support/evm.pb.go:3656-3974 | returns `Decode(data, m0)` |
| TraceConfigCodec.StoreOverrides | x/evm/txs/support/evm.pb.go:3847-3882 | an overrides field is decoded onto the existing overrides, or onto a fresh empty configuration when they are nil |
| TraceConfigCodec.FoldLimit | x/evm/txs/support/evm.pb.go:3828-3846 | the limit field, negative values included, is read back as the same int32 |
| TraceConfigCodec.DecodeOnto | x/evm/txs/support/evm.pb.go:3656-3974 | decoding `b` onto `a` gives `Merge(a, b)`, the overrides merged |
| TraceConfigCodec.RoundTrip | x/evm/txs/support/evm.pb.go:1415-1424 | Unmarshal of Marshal gives back the trace configuration |

## Left out

- Reflection and registration: `XXX_*` methods, `xxx_messageInfo`, `init`,
  `Descriptor`, the gzipped file descriptor, `String` and the getters. None
  of them takes part in the byte format.
- `sozEvm` is never called and is not modelled.
- `testutil/tx/cosmos.go` is not part of this model. It builds and signs
  transactions through cosmos-sdk calls.
- Error texts are not modelled. Each `fmt.Errorf` and error variable is an
  `Error` constructor that records its kind and its numbers.
- The internals of `cosmossdk_io_math.Int` are not modelled. Its payload is
  opaque bytes. Its `Unmarshal` accepts any payload, because its own
  validation is not visible here. Its `MarshalTo` never fails, so the error
  returns of the nested marshal calls are not modelled.
- The packed-run capacity pre-count (`elementCount`, 1981-1991) only sizes a
  Go slice and is not modelled.
- Nil entries in `TransactionLogs.Logs` are not modelled. Nil and empty
  slices, and nil and empty strings, are one value each.
- Update in place is modelled as a returned value. `Unmarshal` takes the
  receiver's current value and returns the new one. On error it returns only
  the error kind, not the partly updated receiver, and not an `Overrides`
  allocated before its nested `Unmarshal` fails.
- Go strings are byte sequences; no UTF-8 is checked, as in the source.
- Size, MarshalToSizedBuffer and Marshal require the encoding to be shorter
  than 2^63 bytes. Only a slice that large could overflow Go's `int`
  arithmetic in `Size`, and such a slice cannot exist.
- The round-trip and decode-onto lemmas carry the same 2^63 bound on the
  decoded input. Above it, the length guards of the source would reject
  lengths that the lemmas would need to be accepted.

