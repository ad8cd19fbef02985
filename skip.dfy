/** skipEvm: how Unmarshal steps over a field whose number it does not know.
    The skipper reads one tag and its payload; a start-group tag raises a depth
    counter that the matching end-group tag lowers again, and the field ends
    when the depth is back to zero. */
module Skip {
  import opened Errors
  import opened Varint
  import opened Wire

  /** The payload part of one skipEvm iteration: from the cursor `p` just after
      a tag of wire type `wt`, the new cursor and depth. */
  function SkipPayload(data: seq<Byte>, p: nat, wt: nat, depth: nat): (r: Result<(nat, nat)>)
    ensures r.Ok? ==> r.value.0 >= p
  {
    if wt == 0 then
      var q :- ScanVarintFrom(data, p, 0);
      Ok((q, depth))
    else if wt == 1 then Ok((p + 8, depth))
    else if wt == 2 then
      var w :- ReadVarint(data, p);
      if w.0 >= TWO_63 then Err(InvalidLength) else Ok((w.1 + w.0, depth))
    else if wt == 3 then Ok((p, depth + 1))
    else if wt == 4 then
      if depth == 0 then Err(UnexpectedEndOfGroup) else Ok((p, depth - 1))
    else if wt == 5 then Ok((p + 4, depth))
    else Err(IllegalWireType(wt))
  }

  /** skipEvm's loop, entered with cursor `pos` at group depth `depth`. A cursor
      that reaches 2^63 is Go's `iNdEx < 0`. */
  function SkipLoop(data: seq<Byte>, pos: nat, depth: nat): (r: Result<nat>)
    ensures r.Ok? ==> r.value > pos
    decreases |data| - pos
  {
    if pos >= |data| then Err(UnexpectedEOF)
    else
      var w :- ReadVarint(data, pos);
      var s :- SkipPayload(data, w.1, w.0 % 8, depth);
      if s.0 >= TWO_63 then Err(InvalidLength)
      else if s.1 == 0 then Ok(s.0)
      else SkipLoop(data, s.0, s.1)
  }

  /** skipEvm(dAtA): the length of the one field at the start of `data`. */
  function SkipLength(data: seq<Byte>): Result<nat> {
    SkipLoop(data, 0, 0)
  }

  /** skipEvm's inline varint scan (its case 0). */
  method ScanVarintAt(data: seq<Byte>, pos: nat) returns (r: Result<nat>)
    ensures r == ScanVarintFrom(data, pos, 0)
  {
    var i: nat := pos;
    var shift: nat := 0;
    while true
      invariant ScanVarintFrom(data, pos, 0) == ScanVarintFrom(data, i, shift)
      decreases 64 - shift
    {
      if shift >= 64 {
        return Err(IntOverflow);
      }
      if i >= |data| {
        return Err(UnexpectedEOF);
      }
      i := i + 1;
      if data[i - 1] < 0x80 {
        return Ok(i);
      }
      shift := shift + 7;
    }
  }

  /** skipEvm itself. */
  method SkipEvm(data: seq<Byte>) returns (r: Result<nat>)
    ensures r == SkipLength(data)
  {
    var l := |data|;
    var i: nat := 0;
    var depth: nat := 0;
    while i < l
      invariant SkipLoop(data, 0, 0) == SkipLoop(data, i, depth)
      decreases l - i
    {
      var tag := DecodeVarint(data, i);
      if tag.Err? {
        return Err(tag.error);
      }
      var s := SkipPayloadAt(data, tag.value.1, tag.value.0 % 8, depth);
      if s.Err? {
        return Err(s.error);
      }
      if s.value.0 >= TWO_63 {
        return Err(InvalidLength);
      }
      SkipLoopStep(data, i, depth, tag.value.0, tag.value.1, s.value.0, s.value.1);
      i, depth := s.value.0, s.value.1;
      if depth == 0 {
        return Ok(i);
      }
    }
    return Err(UnexpectedEOF);
  }

  /** The switch on the wire type inside skipEvm's loop. */
  method SkipPayloadAt(data: seq<Byte>, p: nat, wireType: nat, depth: nat) returns (r: Result<(nat, nat)>)
    ensures r == SkipPayload(data, p, wireType, depth)
  {
    if wireType == 0 {
      var q := ScanVarintAt(data, p);
      if q.Err? {
        return Err(q.error);
      }
      return Ok((q.value, depth));
    } else if wireType == 1 {
      return Ok((p + 8, depth));
    } else if wireType == 2 {
      var length := DecodeVarint(data, p);
      if length.Err? {
        return Err(length.error);
      }
      if length.value.0 >= TWO_63 {
        return Err(InvalidLength);
      }
      return Ok((length.value.1 + length.value.0, depth));
    } else if wireType == 3 {
      return Ok((p, depth + 1));
    } else if wireType == 4 {
      if depth == 0 {
        return Err(UnexpectedEndOfGroup);
      }
      return Ok((p, depth - 1));
    } else if wireType == 5 {
      return Ok((p + 4, depth));
    } else {
      return Err(IllegalWireType(wireType));
    }
  }

  /** Unmarshal's default branch: skip the unknown field that starts at `pre`,
      then reject a skip whose end overflows int or lies past the buffer. */
  function SkipField(data: seq<Byte>, pre: nat): (r: Result<nat>)
    requires pre <= |data|
    ensures r.Ok? ==> pre < r.value <= |data|
  {
    var skippy :- SkipLength(data[pre..]);
    if pre + skippy >= TWO_63 then Err(InvalidLength)
    else if pre + skippy > |data| then Err(UnexpectedEOF)
    else Ok(pre + skippy)
  }

  method SkipUnknown(data: seq<Byte>, pre: nat) returns (r: Result<nat>)
    requires pre <= |data|
    ensures r == SkipField(data, pre)
  {
    var skippy := SkipEvm(data[pre..]);
    if skippy.Err? {
      return Err(skippy.error);
    }
    if pre + skippy.value >= TWO_63 {
      return Err(InvalidLength);
    }
    if pre + skippy.value > |data| {
      return Err(UnexpectedEOF);
    }
    return Ok(pre + skippy.value);
  }

  // ---------------------------------------------------------------------
  // What skipEvm skips.

  /** The tag of a field reads back as its key inside skipEvm. */
  lemma SkipTag(data: seq<Byte>, pos: nat, num: nat, wt: nat)
    requires num < MAX_FIELD && wt < 8
    requires pos + |KeyBytes(num, wt)| <= |data|
    requires data[pos..pos + |KeyBytes(num, wt)|] == KeyBytes(num, wt)
    ensures ReadVarint(data, pos) == Ok((num * 8 + wt, pos + |KeyBytes(num, wt)|))
    ensures (num * 8 + wt) % 8 == wt
  {
    ReadVarintEncoded(data, pos, num * 8 + wt);
  }

  /** How a field moves skipEvm's depth counter. */
  function Delta(p: Payload): int {
    if p.StartGroupP? then 1 else if p.EndGroupP? then -1 else 0
  }

  /** The net depth change of a run of fields. */
  function Net(fs: seq<Field>): int {
    if fs == [] then 0 else Delta(fs[0].payload) + Net(fs[1..])
  }

  /** A run of well-formed fields that, entered at `depth`, never brings the
      depth counter to zero. */
  predicate StaysOpen(depth: int, fs: seq<Field>)
    decreases |fs|
  {
    fs == [] ||
    (WfField(fs[0]) && depth + Delta(fs[0].payload) > 0 && StaysOpen(depth + Delta(fs[0].payload), fs[1..]))
  }

  /** A run that keeps the group open leaves it open. */
  lemma {:induction false} OpenNet(depth: int, fs: seq<Field>)
    requires StaysOpen(depth, fs) && depth > 0
    ensures depth + Net(fs) > 0
    decreases |fs|
  {
    if fs != [] {
      OpenNet(depth + Delta(fs[0].payload), fs[1..]);
    }
  }

  /** The fields skipEvm consumes as one unknown field: a single non-group
      field, or a group from its start marker to the end marker that closes it.
      skipEvm does not compare the end marker's field number with the start's. */
  predicate OneField(fs: seq<Field>) {
    (|fs| == 1 && WfField(fs[0]) && Delta(fs[0].payload) == 0) ||
    (|fs| >= 2 && WfField(fs[0]) && WfField(fs[|fs| - 1]) &&
     fs[0].payload.StartGroupP? && fs[|fs| - 1].payload.EndGroupP? &&
     StaysOpen(1, fs[1..|fs| - 1]) && Net(fs[1..|fs| - 1]) == 0)
  }

  /** The payload of any field is skipped in one step, which moves the depth
      counter by the field's Delta. */
  lemma SkipFieldPayload(data: seq<Byte>, p: nat, e: nat, depth: nat, f: Field)
    requires WfField(f) && depth + Delta(f.payload) >= 0 && |data| < TWO_63
    requires e == p + |PayloadBytes(f.payload)| <= |data|
    requires data[p..e] == PayloadBytes(f.payload)
    ensures SkipPayload(data, p, WireType(f.payload), depth) == Ok((e, depth + Delta(f.payload)))
  {
    match f.payload {
      case VarintP(v) =>
        VarintLength(v);
        ScanEncoded(data, p, 0, v);
      case BytesP(b) =>
        SkipLenPayload(data, p, e, depth, b);
      case PackedP(vs) =>
        SkipLenPayload(data, p, e, depth, PackedBytes(vs));
      case Fixed64P(_) =>
      case Fixed32P(_) =>
      case StartGroupP =>
      case EndGroupP =>
    }
  }

  /** A length-delimited payload is skipped by its length prefix. */
  lemma SkipLenPayload(data: seq<Byte>, p: nat, e: nat, depth: nat, body: seq<Byte>)
    requires |data| < TWO_63
    requires e == p + |VarintBytes(|body|)| + |body| <= |data|
    requires data[p..e] == VarintBytes(|body|) + body
    ensures SkipPayload(data, p, 2, depth) == Ok((e, depth))
  {
    var start := p + |VarintBytes(|body|)|;
    SplitAt(data, p, VarintBytes(|body|), body, start, e);
    ReadVarintEncoded(data, p, |body|);
  }

  /** One iteration of skipEvm's loop. */
  lemma SkipLoopStep(data: seq<Byte>, pos: nat, depth: nat, key: U64, p: nat, q: nat, depth': nat)
    requires pos < |data|
    requires ReadVarint(data, pos) == Ok((key, p))
    requires SkipPayload(data, p, key % 8, depth) == Ok((q, depth'))
    requires q < TWO_63
    ensures SkipLoop(data, pos, depth) == if depth' == 0 then Ok(q) else SkipLoop(data, q, depth')
  {
  }

  /** skipEvm steps over one field, tag and payload, in one iteration, and
      stops there when that brings the depth counter to zero. */
  lemma SkipStep(data: seq<Byte>, pos: nat, depth: nat, f: Field, e: nat, d: nat)
    requires WfField(f) && d == depth + Delta(f.payload) && |data| < TWO_63
    requires e == pos + |FieldBytes(f)| <= |data|
    requires data[pos..e] == FieldBytes(f)
    ensures d == 0 ==> SkipLoop(data, pos, depth) == Ok(e)
    ensures d > 0 ==> SkipLoop(data, pos, depth) == SkipLoop(data, e, d)
  {
    var fb := FieldBytes(f);
    var wt := WireType(f.payload);
    var key := KeyBytes(f.num, wt);
    var k := f.num * 8 + wt;
    var n := |key|;
    var p := pos + n;
    var l := |fb|;
    SliceOf(data, pos, fb, 0, n, pos, p);
    SliceOf(data, pos, fb, n, l, p, e);
    assert fb[0..n] == key;
    assert fb[n..l] == PayloadBytes(f.payload);
    SkipTag(data, pos, f.num, wt);
    SkipFieldPayload(data, p, e, depth, f);
    SkipLoopStep(data, pos, depth, k, p, e, d);
  }

  /** Two names for the same loop state. */
  lemma SameLoop(data: seq<Byte>, p: nat, d: nat, p': nat, d': nat)
    requires p == p' && d == d'
    ensures SkipLoop(data, p, d) == SkipLoop(data, p', d')
  {
  }

  /** A run of fields that keeps a group open is stepped over field by field;
      the loop then stands at the run's end with the depth moved by Net. */
  lemma {:induction false} SkipRun(data: seq<Byte>, pos: nat, depth: nat, fs: seq<Field>, e: nat, d: nat)
    requires depth > 0 && StaysOpen(depth, fs) && |data| < TWO_63
    requires e == pos + |Concat(fs)| <= |data| && d == depth + Net(fs)
    requires data[pos..e] == Concat(fs)
    ensures SkipLoop(data, pos, depth) == SkipLoop(data, e, d)
    decreases |fs|
  {
    if fs == [] {
      SameLoop(data, pos, depth, e, d);
    } else {
      var f := fs[0];
      var p1 := pos + |FieldBytes(f)|;
      var d1 := depth + Delta(f.payload);
      OpenNet(d1, fs[1..]);
      ConcatFront(data, pos, fs, p1, e);
      SkipStep(data, pos, depth, f, p1, d1);
      SkipRun(data, p1, d1, fs[1..], e, d);
    }
  }

  /** Bytes holding a run of fields hold its first field, then the rest. */
  lemma ConcatFront(data: seq<Byte>, pos: nat, fs: seq<Field>, p1: nat, e: nat)
    requires fs != [] && e == pos + |Concat(fs)| <= |data| && data[pos..e] == Concat(fs)
    requires p1 == pos + |FieldBytes(fs[0])|
    ensures data[pos..p1] == FieldBytes(fs[0])
    ensures data[p1..e] == Concat(fs[1..]) && e == p1 + |Concat(fs[1..])|
  {
    var c := Concat(fs);
    var n := |FieldBytes(fs[0])|;
    var l := |c|;
    assert c == FieldBytes(fs[0]) + Concat(fs[1..]);
    SliceOf(data, pos, c, 0, n, pos, p1);
    SliceOf(data, pos, c, n, l, p1, e);
    assert c[0..n] == FieldBytes(fs[0]);
    assert c[n..l] == Concat(fs[1..]);
  }

  /** skipEvm, entered at a field boundary, stops right after one whole
      field. */
  lemma SkipOneField(data: seq<Byte>, pos: nat, fs: seq<Field>, e: nat)
    requires OneField(fs) && |data| < TWO_63
    requires e == pos + |Concat(fs)| <= |data|
    requires data[pos..e] == Concat(fs)
    ensures SkipLoop(data, pos, 0) == Ok(e)
  {
    if |fs| == 1 {
      assert Concat(fs) == FieldBytes(fs[0]) + Concat([]);
      SkipStep(data, pos, 0, fs[0], e, 0);
    } else {
      SkipGroup(data, pos, fs, e);
    }
  }

  /** A group: its start marker opens depth 1, its fields keep it open, its
      end marker closes it. */
  lemma SkipGroup(data: seq<Byte>, pos: nat, fs: seq<Field>, e: nat)
    requires |fs| >= 2 && OneField(fs) && |data| < TWO_63
    requires e == pos + |Concat(fs)| <= |data|
    requires data[pos..e] == Concat(fs)
    ensures SkipLoop(data, pos, 0) == Ok(e)
  {
    var mid := fs[1..|fs| - 1];
    var p1 := pos + |FieldBytes(fs[0])|;
    var p2 := p1 + |Concat(mid)|;
    GroupParts(data, pos, fs, p1, p2, e);
    SkipStep(data, pos, 0, fs[0], p1, 1);
    SkipRun(data, p1, 1, mid, p2, 1);
    SkipStep(data, p2, 1, fs[|fs| - 1], e, 0);
  }

  /** Bytes holding a run of at least two fields hold its first field, the
      fields in between, then its last field. */
  lemma GroupParts(data: seq<Byte>, pos: nat, fs: seq<Field>, p1: nat, p2: nat, e: nat)
    requires |fs| >= 2 && e == pos + |Concat(fs)| <= |data| && data[pos..e] == Concat(fs)
    requires p1 == pos + |FieldBytes(fs[0])| && p2 == p1 + |Concat(fs[1..|fs| - 1])|
    ensures e == p2 + |FieldBytes(fs[|fs| - 1])|
    ensures data[pos..p1] == FieldBytes(fs[0])
    ensures data[p1..p2] == Concat(fs[1..|fs| - 1])
    ensures data[p2..e] == FieldBytes(fs[|fs| - 1])
  {
    var mid := fs[1..|fs| - 1];
    var last := fs[|fs| - 1];
    ConcatFront(data, pos, fs, p1, e);
    assert fs[1..] == mid + [last];
    ConcatAppend(mid, [last]);
    assert Concat([last]) == FieldBytes(last) + Concat([]);
    SplitAt(data, p1, Concat(mid), FieldBytes(last), p2, e);
  }

  /** Unmarshal's default branch moves the cursor past exactly one unknown
      field, whatever its wire type, groups included. */
  lemma SkipFieldEncoded(data: seq<Byte>, pre: nat, fs: seq<Field>, e: nat)
    requires OneField(fs) && |data| < TWO_63
    requires e == pre + |Concat(fs)| <= |data|
    requires data[pre..e] == Concat(fs)
    ensures SkipField(data, pre) == Ok(e)
  {
    var rest := data[pre..];
    var c := Concat(fs);
    var l := |c|;
    SliceOf(data, pre, c, 0, l, pre, e);
    assert rest[0..l] == data[pre..e];
    SkipOneField(rest, 0, fs, l);
    SkipFieldOf(data, pre, l, e);
  }

  /** Unmarshal's checks after skipEvm pass a skip that stays in the buffer. */
  lemma SkipFieldOf(data: seq<Byte>, pre: nat, l: nat, e: nat)
    requires pre <= |data| < TWO_63 && SkipLength(data[pre..]) == Ok(l)
    requires e == pre + l <= |data|
    ensures SkipField(data, pre) == Ok(e)
  {
  }

  /** An end-group tag with no group open is rejected. */
  lemma SkipEndGroupOutside(data: seq<Byte>, num: nat)
    requires num < MAX_FIELD
    requires |KeyBytes(num, 4)| <= |data|
    requires data[..|KeyBytes(num, 4)|] == KeyBytes(num, 4)
    ensures SkipLength(data) == Err(UnexpectedEndOfGroup)
  {
    SkipTag(data, 0, num, 4);
  }

  /** Wire types 6 and 7 do not exist. */
  lemma SkipIllegalWireType(data: seq<Byte>, num: nat, wt: nat)
    requires num < MAX_FIELD && (wt == 6 || wt == 7)
    requires |KeyBytes(num, wt)| <= |data|
    requires data[..|KeyBytes(num, wt)|] == KeyBytes(num, wt)
    ensures SkipLength(data) == Err(IllegalWireType(wt))
  {
    SkipTag(data, 0, num, wt);
  }

  /** A group that is never closed runs into the end of the input. */
  lemma SkipUnclosedGroup(data: seq<Byte>, num: nat, fs: seq<Field>)
    requires 1 <= num < MAX_FIELD && |data| < TWO_63
    requires StaysOpen(1, fs)
    requires data == KeyBytes(num, 3) + Concat(fs)
    ensures SkipLength(data) == Err(UnexpectedEOF)
  {
    var start := Field(num, StartGroupP);
    var n := |KeyBytes(num, 3)|;
    var l := |data|;
    OpenNet(1, fs);
    var d := 1 + Net(fs);
    assert FieldBytes(start) == KeyBytes(num, 3);
    SliceOf(data, 0, data, 0, n, 0, n);
    SliceOf(data, 0, data, n, l, n, l);
    SkipStep(data, 0, 0, start, n, 1);
    SkipRun(data, n, 1, fs, l, d);
  }

  /** A fixed64 payload cut short gets past skipEvm, whose cursor then lies
      beyond the buffer; Unmarshal's check turns that into UnexpectedEOF. */
  lemma SkipFieldTruncatedFixed64(data: seq<Byte>, pre: nat, num: nat)
    requires num < MAX_FIELD && |data| < TWO_63 - 8
    requires pre + |KeyBytes(num, 1)| <= |data| < pre + |KeyBytes(num, 1)| + 8
    requires data[pre..pre + |KeyBytes(num, 1)|] == KeyBytes(num, 1)
    ensures SkipField(data, pre) == Err(UnexpectedEOF)
  {
    var rest := data[pre..];
    assert rest[..|KeyBytes(num, 1)|] == KeyBytes(num, 1);
    SkipTag(rest, 0, num, 1);
  }
}
