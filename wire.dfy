/** The proto3 message structure that every generated Marshal and Unmarshal
    in evm.pb.go shares: keys (`field_number << 3 | wire_type`), length-delimited
    payloads, the tag check at the head of each Unmarshal iteration, and the
    backward buffer writes of MarshalToSizedBuffer. */
module Wire {
  import opened Errors
  import opened Varint

  /** Protocol Buffers field numbers lie in [1, 2^29). */
  const MAX_FIELD: int := 0x2000_0000

  /** One field as it travels on the wire. Records only ever emit varint and
      length-delimited fields; the other kinds are what an unknown field read
      from a newer peer may carry. A group is not one field but a run of them:
      a start-group marker, the group's fields, an end-group marker. */
  datatype Payload =
    | VarintP(v: U64)
    | Fixed64P(bytes: seq<Byte>)
    | BytesP(bytes: seq<Byte>)
    | PackedP(vs: seq<U64>)       // a length-delimited run of varints
    | StartGroupP
    | EndGroupP
    | Fixed32P(bytes: seq<Byte>)

  datatype Field = Field(num: nat, payload: Payload)

  function WireType(p: Payload): nat {
    match p
    case VarintP(_) => 0
    case Fixed64P(_) => 1
    case BytesP(_) => 2
    case PackedP(_) => 2
    case StartGroupP => 3
    case EndGroupP => 4
    case Fixed32P(_) => 5
  }

  /** The tag bytes of a field: the varint of `num << 3 | wt`. */
  function KeyBytes(num: nat, wt: nat): seq<Byte> {
    VarintBytes(num * 8 + wt)
  }

  /** What follows a field's tag. */
  function PayloadBytes(p: Payload): seq<Byte> {
    match p
    case VarintP(v) => VarintBytes(v)
    case Fixed64P(b) => b
    case BytesP(b) => VarintBytes(|b|) + b
    case PackedP(vs) => VarintBytes(|PackedBytes(vs)|) + PackedBytes(vs)
    case StartGroupP => []
    case EndGroupP => []
    case Fixed32P(b) => b
  }

  /** The varints of `vs`, back to back, as a packed repeated field holds
      them. */
  function PackedBytes(vs: seq<U64>): seq<Byte> {
    if vs == [] then [] else VarintBytes(vs[0]) + PackedBytes(vs[1..])
  }

  /** The bytes of one field: its tag, then its payload. */
  function FieldBytes(f: Field): seq<Byte> {
    KeyBytes(f.num, WireType(f.payload)) + PayloadBytes(f.payload)
  }

  /** A run of fields, one after the other. */
  function Concat(fs: seq<Field>): seq<Byte> {
    if fs == [] then [] else FieldBytes(fs[0]) + Concat(fs[1..])
  }

  /** A field a conforming encoder could have written. */
  predicate WfField(f: Field) {
    1 <= f.num < MAX_FIELD &&
    match f.payload
    case Fixed64P(b) => |b| == 8
    case Fixed32P(b) => |b| == 4
    case _ => true
  }

  lemma {:induction false} ConcatAppend(a: seq<Field>, b: seq<Field>)
    ensures Concat(a + b) == Concat(a) + Concat(b)
    decreases |a|
  {
    if a == [] {
      assert a + b == b;
    } else {
      assert (a + b)[0] == a[0];
      assert (a + b)[1..] == a[1..] + b;
      ConcatAppend(a[1..], b);
    }
  }

  // ---------------------------------------------------------------------
  // Fields as the records emit them: proto3 leaves out default values.

  /** A string or bytes field: omitted when empty. */
  function StrField(num: nat, s: seq<Byte>): seq<Field> {
    if |s| > 0 then [Field(num, BytesP(s))] else []
  }

  /** A bool field: written as the varint 1, omitted when false. */
  function BoolField(num: nat, b: bool): seq<Field> {
    if b then [Field(num, VarintP(1))] else []
  }

  /** An integer field, given as its uint64 view: omitted when zero. */
  function UintField(num: nat, v: U64): seq<Field> {
    if v != 0 then [Field(num, VarintP(v))] else []
  }

  /** A repeated string or bytes field: one field per element, in order, each
      written even when empty. */
  function RepeatedField(num: nat, ss: seq<seq<Byte>>): (r: seq<Field>)
    ensures |r| == |ss|
    ensures forall k {:trigger r[k]} :: 0 <= k < |ss| ==> r[k] == Field(num, BytesP(ss[k]))
  {
    if ss == [] then [] else [Field(num, BytesP(ss[0]))] + RepeatedField(num, ss[1..])
  }

  // ---------------------------------------------------------------------
  // Decoding: the tag at the head of each Unmarshal iteration.

  datatype Tag = Tag(fieldNum: I32, wireType: nat)

  /** Reads a tag: `fieldNum := int32(wire >> 3)`, `wireType := int(wire & 7)`,
      then rejects an end-group tag and a field number that is not positive. */
  function ReadTag(data: seq<Byte>, pos: nat): (r: Result<(Tag, nat)>)
    ensures r.Ok? ==> pos < r.value.1 <= |data|
    ensures r.Ok? ==> r.value.0.fieldNum > 0 && r.value.0.wireType < 8 && r.value.0.wireType != 4
  {
    var w :- ReadVarint(data, pos);
    var fieldNum := I32Of(w.0 / 8);
    var wireType := w.0 % 8;
    if wireType == 4 then Err(EndGroupForNonGroup)
    else if fieldNum <= 0 then Err(IllegalTag(fieldNum, w.0))
    else Ok((Tag(fieldNum, wireType), w.1))
  }

  /** The tag-reading head of Unmarshal. */
  method ReadTagAt(data: seq<Byte>, pos: nat) returns (r: Result<(Tag, nat)>)
    ensures r == ReadTag(data, pos)
  {
    var w := DecodeVarint(data, pos);
    if w.Err? {
      return Err(w.error);
    }
    var wire := w.value.0;
    var fieldNum := I32Of(wire / 8);
    var wireType := wire % 8;
    if wireType == 4 {
      return Err(EndGroupForNonGroup);
    }
    if fieldNum <= 0 {
      return Err(IllegalTag(fieldNum, wire));
    }
    return Ok((Tag(fieldNum, wireType), w.value.1));
  }

  /** The tag a conforming encoder wrote reads back as its field number and
      wire type. */
  lemma ReadTagEncoded(data: seq<Byte>, pos: nat, num: nat, wt: nat)
    requires 1 <= num < MAX_FIELD && wt < 8 && wt != 4
    requires pos + |KeyBytes(num, wt)| <= |data|
    requires data[pos..pos + |KeyBytes(num, wt)|] == KeyBytes(num, wt)
    ensures ReadTag(data, pos) == Ok((Tag(num, wt), pos + |KeyBytes(num, wt)|))
  {
    var key := num * 8 + wt;
    assert key / 8 == num && key % 8 == wt;
    ReadVarintEncoded(data, pos, key);
  }

  /** An end-group tag where a field was expected is rejected. */
  lemma ReadTagEndGroup(data: seq<Byte>, pos: nat, num: nat)
    requires num < MAX_FIELD
    requires pos + |KeyBytes(num, 4)| <= |data|
    requires data[pos..pos + |KeyBytes(num, 4)|] == KeyBytes(num, 4)
    ensures ReadTag(data, pos) == Err(EndGroupForNonGroup)
  {
    var key := num * 8 + 4;
    assert key % 8 == 4;
    ReadVarintEncoded(data, pos, key);
  }

  /** Field number zero is an illegal tag. */
  lemma ReadTagZero(data: seq<Byte>, pos: nat, wt: nat)
    requires wt < 8 && wt != 4
    requires pos < |data| && data[pos] == wt
    ensures ReadTag(data, pos) == Err(IllegalTag(0, wt))
  {
    assert GroupsValue(data, pos, pos + 1) == wt;
  }

  /** `int32(wire >> 3)` keeps only 32 bits of the field number: the tag of
      field 2^32 + 1 is read as field 1. */
  lemma ReadTagTruncatesFieldNumber(data: seq<Byte>, pos: nat)
    requires pos + 6 <= |data|
    requires data[pos..pos + 6] == [0x8a, 0x80, 0x80, 0x80, 0x80, 0x01]
    ensures ReadTag(data, pos) == Ok((Tag(1, 2), pos + 6))
  {
    var key := 0x1_0000_0001 * 8 + 2;
    assert VarintBytes(0x80) == [0x80, 0x01];
    assert VarintBytes(0x4000) == [0x80] + VarintBytes(0x80);
    assert VarintBytes(0x20_0000) == [0x80] + VarintBytes(0x4000);
    assert VarintBytes(0x1000_0000) == [0x80] + VarintBytes(0x20_0000);
    assert key % 0x80 == 0x0a && key / 0x80 == 0x1000_0000;
    assert VarintBytes(key) == [0x8a] + VarintBytes(0x1000_0000);
    ReadVarintEncoded(data, pos, key);
    assert I32Of(key / 8) == 1;
  }

  // ---------------------------------------------------------------------
  // Decoding: the length prefix of a length-delimited payload.

  /** Reads a length prefix at `pos` and returns the payload's bounds, with the
      checks in the generated code's order: a length whose int view is negative,
      an end index that overflows int, an end past the buffer. */
  function ReadLenDelim(data: seq<Byte>, pos: nat): (r: Result<(nat, nat)>)
    ensures r.Ok? ==> pos < r.value.0 <= r.value.1 <= |data|
  {
    var w :- ReadVarint(data, pos);
    var len := w.0;
    var start := w.1;
    if len >= TWO_63 then Err(InvalidLength)
    else if start + len >= TWO_63 then Err(InvalidLength)
    else if start + len > |data| then Err(UnexpectedEOF)
    else Ok((start, start + len))
  }

  /** The length-prefix reading that the generated code repeats for every
      string, bytes and message field. */
  method ReadLenDelimAt(data: seq<Byte>, pos: nat) returns (r: Result<(nat, nat)>)
    ensures r == ReadLenDelim(data, pos)
  {
    var w := DecodeVarint(data, pos);
    if w.Err? {
      return Err(w.error);
    }
    var len := w.value.0;
    var start := w.value.1;
    if len >= TWO_63 {
      return Err(InvalidLength);
    }
    var postIndex := start + len;
    if postIndex >= TWO_63 {
      return Err(InvalidLength);
    }
    if postIndex > |data| {
      return Err(UnexpectedEOF);
    }
    return Ok((start, postIndex));
  }

  /** Once the length varint is read, the payload bounds follow from it. */
  lemma ReadLenDelimOf(data: seq<Byte>, pos: nat, len: U64, start: nat)
    requires ReadVarint(data, pos) == Ok((len, start))
    requires start + len <= |data| < TWO_63
    ensures ReadLenDelim(data, pos) == Ok((start, start + len))
  {
  }

  /** A length-prefixed payload reads back as exactly its bytes: the payload
      of length `len` starts at `start`, after the length varint, and ends at
      `e`. */
  lemma ReadLenDelimEncoded(data: seq<Byte>, pos: nat, len: U64, start: nat, e: nat)
    requires |data| < TWO_63
    requires start == pos + |VarintBytes(len)| && e == start + len <= |data|
    requires data[pos..start] == VarintBytes(len)
    ensures ReadLenDelim(data, pos) == Ok((start, e))
  {
    ReadVarintEncoded(data, pos, len);
    ReadLenDelimOf(data, pos, len, start);
  }

  /** A length past the end of the buffer is a truncated message. */
  lemma ReadLenDelimPastEnd(data: seq<Byte>, pos: nat, len: U64)
    requires pos + |VarintBytes(len)| + len < TWO_63
    requires pos + |VarintBytes(len)| <= |data| < pos + |VarintBytes(len)| + len
    requires data[pos..pos + |VarintBytes(len)|] == VarintBytes(len)
    ensures ReadLenDelim(data, pos) == Err(UnexpectedEOF)
  {
    ReadVarintEncoded(data, pos, len);
  }

  /** A length whose int view is negative is an invalid length. */
  lemma ReadLenDelimNegative(data: seq<Byte>, pos: nat, len: U64)
    requires len >= TWO_63
    requires pos + |VarintBytes(len)| <= |data|
    requires data[pos..pos + |VarintBytes(len)|] == VarintBytes(len)
    ensures ReadLenDelim(data, pos) == Err(InvalidLength)
  {
    ReadVarintEncoded(data, pos, len);
  }

  // ---------------------------------------------------------------------
  // Encoding: MarshalToSizedBuffer fills its buffer from the end backward.

  /** `s` is `orig` with the window [i, end) replaced by `content`. */
  ghost predicate Filled(s: seq<Byte>, orig: seq<Byte>, i: nat, end: nat, content: seq<Byte>) {
    |s| == |orig| && i + |content| == end <= |orig| && s == orig[..i] + content + orig[end..]
  }

  /** A window that fills the whole buffer is the buffer's prefix. */
  lemma FilledWhole(s: seq<Byte>, orig: seq<Byte>, n: nat, content: seq<Byte>)
    requires Filled(s, orig, 0, n, content)
    ensures s[..n] == content
  {
  }

  /** Before any write, the window at the end of the buffer is empty. */
  lemma FilledEmpty(s: seq<Byte>, end: nat)
    requires end <= |s|
    ensures Filled(s, s, end, end, [])
  {
    assert s == s[..end] + [] + s[end..];
  }

  /** `i -= len(b); copy(dAtA[i:], b)`. */
  method PutBytes(buf: array<Byte>, i: nat, b: seq<Byte>, ghost orig: seq<Byte>, ghost end: nat, ghost content: seq<Byte>)
      returns (j: nat)
    requires Filled(buf[..], orig, i, end, content) && |b| <= i
    modifies buf
    ensures j == i - |b|
    ensures Filled(buf[..], orig, j, end, b + content)
  {
    j := i - |b|;
    forall k | 0 <= k < |b| {
      buf[j + k] := b[k];
    }
    assert buf[..] == orig[..j] + (b + content) + orig[end..] by {
      var want := orig[..j] + (b + content) + orig[end..];
      assert forall k :: 0 <= k < buf.Length ==> buf[..][k] == want[k];
    }
  }

  /** `i = encodeVarintEvm(dAtA, i, v)`. */
  method PutVarint(buf: array<Byte>, i: nat, v: U64, ghost orig: seq<Byte>, ghost end: nat, ghost content: seq<Byte>)
      returns (j: nat)
    requires Filled(buf[..], orig, i, end, content) && |VarintBytes(v)| <= i
    modifies buf
    ensures j == i - |VarintBytes(v)|
    ensures Filled(buf[..], orig, j, end, VarintBytes(v) + content)
  {
    ghost var before := buf[..];
    j := EncodeVarint(buf, i, v);
    FilledPrepend(buf[..], before, orig, j, i, end, VarintBytes(v), content);
  }

  /** One length-delimited field: the payload, its length, then its tag. */
  method PutLenField(buf: array<Byte>, i: nat, num: nat, b: seq<Byte>, ghost orig: seq<Byte>, ghost end: nat, ghost content: seq<Byte>)
      returns (j: nat)
    requires Filled(buf[..], orig, i, end, content) && |FieldBytes(Field(num, BytesP(b)))| <= i
    requires |b| < TWO_64 && num * 8 + 2 < TWO_64
    modifies buf
    ensures j == i - |FieldBytes(Field(num, BytesP(b)))|
    ensures Filled(buf[..], orig, j, end, FieldBytes(Field(num, BytesP(b))) + content)
  {
    j := PutBytes(buf, i, b, orig, end, content);
    j := PutVarint(buf, j, |b|, orig, end, b + content);
    j := PutVarint(buf, j, num * 8 + 2, orig, end, VarintBytes(|b|) + (b + content));
  }

  /** One varint field: the value, then its tag. */
  method PutVarintField(buf: array<Byte>, i: nat, num: nat, v: U64, ghost orig: seq<Byte>, ghost end: nat, ghost content: seq<Byte>)
      returns (j: nat)
    requires Filled(buf[..], orig, i, end, content) && |FieldBytes(Field(num, VarintP(v)))| <= i
    requires num * 8 < TWO_64
    modifies buf
    ensures j == i - |FieldBytes(Field(num, VarintP(v)))|
    ensures Filled(buf[..], orig, j, end, FieldBytes(Field(num, VarintP(v))) + content)
  {
    j := PutVarint(buf, i, v, orig, end, content);
    j := PutVarint(buf, j, num * 8, orig, end, VarintBytes(v) + content);
  }

  /** An embedded message already written at [i, i + size): its length, then
      its tag. */
  method PutMessageHeader(buf: array<Byte>, i: nat, num: nat, size: nat, ghost body: seq<Byte>,
                          ghost orig: seq<Byte>, ghost end: nat, ghost content: seq<Byte>)
      returns (j: nat)
    requires size == |body|
    requires Filled(buf[..], orig, i, end, body + content)
    requires |FieldBytes(Field(num, BytesP(body)))| <= i + |body|
    requires |body| < TWO_64 && num * 8 + 2 < TWO_64
    modifies buf
    ensures j == i + |body| - |FieldBytes(Field(num, BytesP(body)))|
    ensures Filled(buf[..], orig, j, end, FieldBytes(Field(num, BytesP(body))) + content)
  {
    j := PutVarint(buf, i, size, orig, end, body + content);
    j := PutVarint(buf, j, num * 8 + 2, orig, end, VarintBytes(size) + (body + content));
  }

  /** An embedded message that its own MarshalToSizedBuffer has just
      written at [i - size, i) of `before`: its length, then its tag. */
  method PutEmbedded(buf: array<Byte>, i: nat, num: nat, size: nat, ghost body: seq<Byte>, ghost before: seq<Byte>,
                     ghost orig: seq<Byte>, ghost end: nat, ghost content: seq<Byte>)
      returns (j: nat)
    requires size == |body| <= i
    requires Filled(before, orig, i, end, content)
    requires Filled(buf[..], before, i - size, i, body)
    requires |FieldBytes(Field(num, BytesP(body)))| <= i
    requires |body| < TWO_64 && num * 8 + 2 < TWO_64
    modifies buf
    ensures j == i - |FieldBytes(Field(num, BytesP(body)))|
    ensures Filled(buf[..], orig, j, end, FieldBytes(Field(num, BytesP(body))) + content)
  {
    FilledPrepend(buf[..], before, orig, i - size, i, end, body, content);
    j := PutMessageHeader(buf, i - size, num, size, body, orig, end, content);
  }

  /** A nested MarshalToSizedBuffer writes `body` just below `i`: the window
      grows downward by `body`. */
  lemma FilledPrepend(s: seq<Byte>, before: seq<Byte>, orig: seq<Byte>, j: nat, i: nat, end: nat, body: seq<Byte>, content: seq<Byte>)
    requires Filled(before, orig, i, end, content)
    requires j + |body| == i
    requires s == before[..j] + body + before[i..]
    ensures Filled(s, orig, j, end, body + content)
  {
    var want := orig[..j] + (body + content) + orig[end..];
    forall k | 0 <= k < |s|
      ensures s[k] == want[k]
    {
      if k < j {
        assert s[k] == before[k];
      } else if k < i {
        assert s[k] == body[k - j];
      } else {
        assert s[k] == before[k];
      }
    }
  }
}
