/** The loop every generated Unmarshal in evm.pb.go runs: read a tag, look the
    field number up in the record's switch, check the wire type, read the
    payload, store it; unknown field numbers go to skipEvm. The records differ
    only in their switch, so a record is given here by two functions: `decl`,
    which says how each field number is declared, and `store`, which stores a
    payload the way that case's body does. */
module Decoding {
  import opened Errors
  import opened Varint
  import opened Wire
  import opened Skip

  /** How a record declares a field number. */
  datatype Decl =
    | Unknown     // the switch's default case: skipEvm
    | Scalar      // an integer or bool: wire type 0 only
    | Delimited   // a string, bytes or embedded message: wire type 2 only
    | Packed      // a repeated integer: one element (0) or a packed run (2)

  /** What a known field's payload reads as, before its case body stores it. */
  datatype Value = Num(n: U64) | Bytes(b: seq<Byte>) | Nums(ns: seq<U64>)

  // ---------------------------------------------------------------------
  // Reading one payload.

  /** The packed loop `for iNdEx < postIndex`. Each element's varint is read
      with the bound of the whole buffer, not of the packed payload. */
  function PackedLoop(data: seq<Byte>, q: nat, end: nat, acc: seq<U64>): (r: Result<(seq<U64>, nat)>)
    requires q <= |data|
    ensures r.Ok? ==> q <= r.value.1 <= |data|
    decreases |data| - q
  {
    if q >= end then Ok((acc, q))
    else
      var w :- ReadVarint(data, q);
      PackedLoop(data, w.1, end, acc + [w.0])
  }

  method PackedAt(data: seq<Byte>, start: nat, end: nat) returns (r: Result<(seq<U64>, nat)>)
    requires start <= |data|
    ensures r == PackedLoop(data, start, end, [])
  {
    var q := start;
    var acc: seq<U64> := [];
    while q < end
      invariant q <= |data|
      invariant PackedLoop(data, start, end, []) == PackedLoop(data, q, end, acc)
      decreases |data| - q
    {
      var w := DecodeVarint(data, q);
      if w.Err? {
        return Err(w.error);
      }
      acc := acc + [w.value.0];
      q := w.value.1;
    }
    return Ok((acc, q));
  }

  /** A case body up to the store: check the wire type the field is declared
      with, then read a varint, a length-delimited payload, or a packed run. */
  function ReadValue(data: seq<Byte>, p: nat, tag: Tag, d: Decl): (r: Result<(Value, nat)>)
    requires d != Unknown
    ensures r.Ok? ==> p < r.value.1 <= |data|
  {
    match d
    case Scalar =>
      if tag.wireType != 0 then Err(WrongWireType(tag.fieldNum, tag.wireType))
      else
        var w :- ReadVarint(data, p);
        Ok((Num(w.0), w.1))
    case Delimited =>
      if tag.wireType != 2 then Err(WrongWireType(tag.fieldNum, tag.wireType))
      else
        var b :- ReadLenDelim(data, p);
        Ok((Bytes(data[b.0..b.1]), b.1))
    case Packed =>
      if tag.wireType == 0 then
        var w :- ReadVarint(data, p);
        Ok((Nums([w.0]), w.1))
      else if tag.wireType == 2 then
        var b :- ReadLenDelim(data, p);
        var run :- PackedLoop(data, b.0, b.1, []);
        Ok((Nums(run.0), run.1))
      else Err(WrongWireType(tag.fieldNum, tag.wireType))
  }

  method ReadValueAt(data: seq<Byte>, p: nat, tag: Tag, d: Decl) returns (r: Result<(Value, nat)>)
    requires d != Unknown
    ensures r == ReadValue(data, p, tag, d)
  {
    if d == Scalar || (d == Packed && tag.wireType == 0) {
      if tag.wireType != 0 {
        return Err(WrongWireType(tag.fieldNum, tag.wireType));
      }
      var w := DecodeVarint(data, p);
      if w.Err? {
        return Err(w.error);
      }
      if d == Scalar {
        return Ok((Num(w.value.0), w.value.1));
      }
      return Ok((Nums([w.value.0]), w.value.1));
    }
    if tag.wireType != 2 {
      return Err(WrongWireType(tag.fieldNum, tag.wireType));
    }
    var b := ReadLenDelimAt(data, p);
    if b.Err? {
      return Err(b.error);
    }
    var start := b.value.0;
    var postIndex := b.value.1;
    if d == Delimited {
      return Ok((Bytes(data[start..postIndex]), postIndex));
    }
    var run := PackedAt(data, start, postIndex);
    if run.Err? {
      return Err(run.error);
    }
    return Ok((Nums(run.value.0), run.value.1));
  }

  /** The payload of a string, bytes or message case. */
  function AsBytes(v: Value): seq<Byte> {
    if v.Bytes? then v.b else []
  }

  /** The varint of an integer or bool case. */
  function AsU64(v: Value): U64 {
    if v.Num? then v.n else 0
  }

  /** The elements of a repeated integer case. */
  function AsNums(v: Value): seq<U64> {
    if v.Nums? then v.ns else []
  }

  // ---------------------------------------------------------------------
  // The Unmarshal loop.

  /** One iteration of the loop at cursor `pos`. */
  function Step<R>(decl: int -> Decl, store: (R, int, Value) -> Result<R>, data: seq<Byte>, pos: nat, m: R)
      : (r: Result<(R, nat)>)
    requires pos <= |data|
    ensures r.Ok? ==> pos < r.value.1 <= |data|
  {
    var t :- ReadTag(data, pos);
    var tag := t.0;
    if decl(tag.fieldNum) == Unknown then
      var q :- SkipField(data, pos);
      Ok((m, q))
    else
      var v :- ReadValue(data, t.1, tag, decl(tag.fieldNum));
      var m' :- store(m, tag.fieldNum, v.0);
      Ok((m', v.1))
  }

  /** `for iNdEx < l { ... }` followed by `if iNdEx > l { return
      io.ErrUnexpectedEOF }`, decoding into `m` from cursor `pos`. */
  function DecodeFrom<R>(decl: int -> Decl, store: (R, int, Value) -> Result<R>, data: seq<Byte>, pos: nat, m: R)
      : (r: Result<R>)
    decreases |data| - pos
  {
    if pos >= |data| then
      if pos > |data| then Err(UnexpectedEOF) else Ok(m)
    else
      var s :- Step(decl, store, data, pos, m);
      DecodeFrom(decl, store, data, s.1, s.0)
  }

  /** Every case of every Unmarshal checks the wire type before reading:
      a known field whose key carries a wire type other than the one the
      field is declared with stops the loop with `WrongWireType`, whatever
      the record, the cursor and the bytes after the key. */
  lemma StepWrongWireType<R>(decl: int -> Decl, store: (R, int, Value) -> Result<R>, data: seq<Byte>, pos: nat, m: R,
                             num: nat, wt: nat)
    requires 1 <= num < MAX_FIELD && wt < 8 && wt != 4
    requires pos + |KeyBytes(num, wt)| <= |data|
    requires data[pos..pos + |KeyBytes(num, wt)|] == KeyBytes(num, wt)
    requires (decl(num) == Scalar && wt != 0) || (decl(num) == Delimited && wt != 2)
          || (decl(num) == Packed && wt != 0 && wt != 2)
    ensures Step(decl, store, data, pos, m) == Err(WrongWireType(num, wt))
    ensures DecodeFrom(decl, store, data, pos, m) == Err(WrongWireType(num, wt))
  {
    ReadTagEncoded(data, pos, num, wt);
  }

  /** Unmarshal: decodes `data` into the record `m0`, which starts out as the
      receiver's current value; fields present in `data` overwrite, append to
      or merge into it. The result is the receiver's final value. */
  method UnmarshalLoop<R>(decl: int -> Decl, store: (R, int, Value) -> Result<R>, data: seq<Byte>, m0: R)
      returns (r: Result<R>)
    ensures r == DecodeFrom(decl, store, data, 0, m0)
  {
    var m := m0;
    var i: nat := 0;
    while i < |data|
      invariant DecodeFrom(decl, store, data, 0, m0) == DecodeFrom(decl, store, data, i, m)
      decreases |data| - i
    {
      var t := ReadTagAt(data, i);
      if t.Err? {
        return Err(t.error);
      }
      var tag := t.value.0;
      var d := decl(tag.fieldNum);
      if d == Unknown {
        var q := SkipUnknown(data, i);
        if q.Err? {
          return Err(q.error);
        }
        i := q.value;
      } else {
        var v := ReadValueAt(data, t.value.1, tag, d);
        if v.Err? {
          return Err(v.error);
        }
        var next := store(m, tag.fieldNum, v.value.0);
        if next.Err? {
          return Err(next.error);
        }
        m := next.value;
        i := v.value.1;
      }
    }
    if i > |data| {
      return Err(UnexpectedEOF);
    }
    return Ok(m);
  }

  // ---------------------------------------------------------------------
  // What the loop reads back from fields a conforming encoder wrote.

  /** The value a case body receives from a field with payload `p`. */
  function ValueFor(d: Decl, p: Payload): Value {
    match p
    case VarintP(n) => if d == Packed then Nums([n]) else Num(n)
    case PackedP(vs) => Nums(vs)
    case BytesP(b) => Bytes(b)
    case _ => Bytes([])
  }

  /** A field whose wire type the case for its number accepts. */
  predicate Accepted(d: Decl, f: Field) {
    WfField(f) &&
    match d
    case Unknown => false
    case Scalar => f.payload.VarintP?
    case Delimited => f.payload.BytesP?
    case Packed => f.payload.VarintP? || f.payload.PackedP?
  }

  /** A field the loop reads in one iteration: an accepted known field, or an
      unknown field that is not a group. */
  predicate Readable(d: Decl, f: Field) {
    Accepted(d, f) || (d == Unknown && WfField(f) && Delta(f.payload) == 0)
  }

  predicate Runs(decl: int -> Decl, fs: seq<Field>) {
    forall k :: 0 <= k < |fs| ==> Readable(decl(fs[k].num), fs[k])
  }

  /** What the loop does with one field, on values instead of bytes. */
  function Apply<R>(decl: int -> Decl, store: (R, int, Value) -> Result<R>, m: R, f: Field): Result<R> {
    if decl(f.num) == Unknown then Ok(m) else store(m, f.num, ValueFor(decl(f.num), f.payload))
  }

  /** What the loop does with a run of fields, on values instead of bytes. */
  function Fold<R>(decl: int -> Decl, store: (R, int, Value) -> Result<R>, m: R, fs: seq<Field>): Result<R> {
    if fs == [] then Ok(m)
    else
      var m' :- Apply(decl, store, m, fs[0]);
      Fold(decl, store, m', fs[1..])
  }

  /** The new cursor `e` paired with a store's outcome. */
  function Then<R>(r: Result<R>, e: nat): Result<(R, nat)> {
    if r.Ok? then Ok((r.value, e)) else Err(r.error)
  }

  /** Bytes holding a field hold its tag, then its payload. */
  lemma FieldParts(data: seq<Byte>, pos: nat, f: Field, p: nat, e: nat)
    requires e == pos + |FieldBytes(f)| <= |data| && data[pos..e] == FieldBytes(f)
    requires p == pos + |KeyBytes(f.num, WireType(f.payload))|
    ensures data[pos..p] == KeyBytes(f.num, WireType(f.payload))
    ensures e == p + |PayloadBytes(f.payload)| && data[p..e] == PayloadBytes(f.payload)
  {
    var fb := FieldBytes(f);
    var n := |KeyBytes(f.num, WireType(f.payload))|;
    var l := |fb|;
    SliceOf(data, pos, fb, 0, n, pos, p);
    SliceOf(data, pos, fb, n, l, p, e);
    assert fb[0..n] == KeyBytes(f.num, WireType(f.payload));
    assert fb[n..l] == PayloadBytes(f.payload);
  }

  /** The packed loop over the varints of `vs` reads back `vs` and stops at
      the end of the payload. */
  lemma {:induction false} PackedEncoded(data: seq<Byte>, q: nat, end: nat, acc: seq<U64>, vs: seq<U64>)
    requires end == q + |PackedBytes(vs)| <= |data|
    requires data[q..end] == PackedBytes(vs)
    ensures PackedLoop(data, q, end, acc) == Ok((acc + vs, end))
    decreases |vs|
  {
    if vs == [] {
      assert acc + vs == acc;
    } else {
      var q' := q + |VarintBytes(vs[0])|;
      PackedFront(data, q, end, vs, q');
      ReadVarintEncoded(data, q, vs[0]);
      PackedStep(data, q, end, acc, vs[0], q');
      PackedEncoded(data, q', end, acc + [vs[0]], vs[1..]);
      assert acc + [vs[0]] + vs[1..] == acc + vs;
    }
  }

  /** One iteration of the packed loop. */
  lemma PackedStep(data: seq<Byte>, q: nat, end: nat, acc: seq<U64>, v: U64, q': nat)
    requires q < end && q <= |data| && ReadVarint(data, q) == Ok((v, q'))
    ensures PackedLoop(data, q, end, acc) == PackedLoop(data, q', end, acc + [v])
  {
  }

  /** Bytes holding packed varints hold the first varint, then the rest. */
  lemma PackedFront(data: seq<Byte>, q: nat, end: nat, vs: seq<U64>, q': nat)
    requires vs != [] && end == q + |PackedBytes(vs)| <= |data| && data[q..end] == PackedBytes(vs)
    requires q' == q + |VarintBytes(vs[0])|
    ensures data[q..q'] == VarintBytes(vs[0])
    ensures end == q' + |PackedBytes(vs[1..])| && data[q'..end] == PackedBytes(vs[1..])
  {
    SplitAt(data, q, VarintBytes(vs[0]), PackedBytes(vs[1..]), q', end);
  }

  /** A length-delimited payload of `body` reads as its length, then `body`. */
  lemma LenPayloadParts(data: seq<Byte>, p: nat, body: seq<Byte>, start: nat, e: nat)
    requires |data| < TWO_63
    requires e == p + |VarintBytes(|body|)| + |body| <= |data|
    requires data[p..e] == VarintBytes(|body|) + body
    requires start == p + |VarintBytes(|body|)|
    ensures ReadLenDelim(data, p) == Ok((start, e))
    ensures data[start..e] == body
  {
    var pb := VarintBytes(|body|) + body;
    var n := |VarintBytes(|body|)|;
    var l := |pb|;
    SliceOf(data, p, pb, 0, n, p, start);
    SliceOf(data, p, pb, n, l, start, e);
    assert pb[0..n] == VarintBytes(|body|);
    assert pb[n..l] == body;
    ReadLenDelimEncoded(data, p, |body|, start, e);
  }

  /** A case body reads an accepted payload back as the value it encodes. */
  lemma ReadValueEncoded(data: seq<Byte>, p: nat, e: nat, tag: Tag, d: Decl, f: Field)
    requires Accepted(d, f) && tag.wireType == WireType(f.payload) && |data| < TWO_63
    requires e == p + |PayloadBytes(f.payload)| <= |data|
    requires data[p..e] == PayloadBytes(f.payload)
    ensures ReadValue(data, p, tag, d) == Ok((ValueFor(d, f.payload), e))
  {
    match f.payload {
      case VarintP(n) =>
        ReadVarintEncoded(data, p, n);
      case BytesP(b) =>
        LenPayloadParts(data, p, b, p + |VarintBytes(|b|)|, e);
      case PackedP(vs) =>
        var start := p + |VarintBytes(|PackedBytes(vs)|)|;
        LenPayloadParts(data, p, PackedBytes(vs), start, e);
        PackedEncoded(data, start, e, [], vs);
        assert [] + vs == vs;
    }
  }

  /** One iteration over a known field stores the field's value and moves
      the cursor past it. */
  lemma StepKnown<R>(decl: int -> Decl, store: (R, int, Value) -> Result<R>, data: seq<Byte>, pos: nat, m: R,
                     f: Field, e: nat)
    requires Accepted(decl(f.num), f) && |data| < TWO_63
    requires e == pos + |FieldBytes(f)| <= |data| && data[pos..e] == FieldBytes(f)
    ensures Step(decl, store, data, pos, m) == Then(Apply(decl, store, m, f), e)
  {
    var wt := WireType(f.payload);
    var p := pos + |KeyBytes(f.num, wt)|;
    var tag := Tag(f.num, wt);
    var d := decl(f.num);
    var v := ValueFor(d, f.payload);
    TagOf(data, pos, f, p, e);
    ReadValueEncoded(data, p, e, tag, d, f);
    StepOf(decl, store, data, pos, m, tag, p, v, e);
  }

  /** The tag of a field reads back as its number and wire type; its payload
      follows. */
  lemma TagOf(data: seq<Byte>, pos: nat, f: Field, p: nat, e: nat)
    requires WfField(f) && WireType(f.payload) != 4
    requires e == pos + |FieldBytes(f)| <= |data| && data[pos..e] == FieldBytes(f)
    requires p == pos + |KeyBytes(f.num, WireType(f.payload))|
    ensures ReadTag(data, pos) == Ok((Tag(f.num, WireType(f.payload)), p))
    ensures e == p + |PayloadBytes(f.payload)| && data[p..e] == PayloadBytes(f.payload)
  {
    FieldParts(data, pos, f, p, e);
    ReadTagEncoded(data, pos, f.num, WireType(f.payload));
  }

  /** An iteration whose tag and payload read successfully stores the value. */
  lemma StepOf<R>(decl: int -> Decl, store: (R, int, Value) -> Result<R>, data: seq<Byte>, pos: nat, m: R,
                  tag: Tag, p: nat, v: Value, e: nat)
    requires pos <= |data| && ReadTag(data, pos) == Ok((tag, p)) && decl(tag.fieldNum) != Unknown
    requires ReadValue(data, p, tag, decl(tag.fieldNum)) == Ok((v, e))
    ensures Step(decl, store, data, pos, m) == Then(store(m, tag.fieldNum, v), e)
  {
  }

  /** One iteration over an unknown field, groups included, leaves the
      record as it was and moves the cursor past the whole field. */
  lemma StepSkipped<R>(decl: int -> Decl, store: (R, int, Value) -> Result<R>, data: seq<Byte>, pos: nat, m: R,
                       fs: seq<Field>, e: nat)
    requires OneField(fs) && decl(fs[0].num) == Unknown && |data| < TWO_63
    requires e == pos + |Concat(fs)| <= |data| && data[pos..e] == Concat(fs)
    ensures Step(decl, store, data, pos, m) == Ok((m, e))
  {
    var f := fs[0];
    var wt := WireType(f.payload);
    var p1 := pos + |FieldBytes(f)|;
    var p := pos + |KeyBytes(f.num, wt)|;
    ConcatFront(data, pos, fs, p1, e);
    TagOf(data, pos, f, p, p1);
    SkipFieldEncoded(data, pos, fs, e);
  }

  /** The loop over the bytes of a run of fields does what Fold does with the
      fields themselves. */
  lemma {:induction false} DecodeRun<R>(decl: int -> Decl, store: (R, int, Value) -> Result<R>, data: seq<Byte>,
                                        pos: nat, m: R, fs: seq<Field>)
    requires Runs(decl, fs) && |data| < TWO_63
    requires pos + |Concat(fs)| == |data| && data[pos..|data|] == Concat(fs)
    ensures DecodeFrom(decl, store, data, pos, m) == Fold(decl, store, m, fs)
    decreases |fs|
  {
    if fs != [] {
      var f := fs[0];
      var e := |data|;
      var p1 := pos + |FieldBytes(f)|;
      ConcatFront(data, pos, fs, p1, e);
      assert Readable(decl(fs[0].num), fs[0]);
      if decl(f.num) == Unknown {
        assert Concat([f]) == FieldBytes(f);
        StepSkipped(decl, store, data, pos, m, [f], p1);
        DecodeRun(decl, store, data, p1, m, fs[1..]);
      } else {
        StepKnown(decl, store, data, pos, m, f, p1);
        var r := Apply(decl, store, m, f);
        if r.Ok? {
          DecodeRun(decl, store, data, p1, r.value, fs[1..]);
        }
      }
    }
  }

  /** Decoding the encoding of a run of fields, from its first byte. */
  lemma DecodeConcat<R>(decl: int -> Decl, store: (R, int, Value) -> Result<R>, m: R, fs: seq<Field>)
    requires Runs(decl, fs) && |Concat(fs)| < TWO_63
    ensures DecodeFrom(decl, store, Concat(fs), 0, m) == Fold(decl, store, m, fs)
  {
    var data := Concat(fs);
    assert data[0..|data|] == data;
    DecodeRun(decl, store, data, 0, m, fs);
  }

  /** Folding a run split in two: the second part continues from where the
      first left the record. */
  lemma {:induction false} FoldThen<R>(decl: int -> Decl, store: (R, int, Value) -> Result<R>, m: R,
                                       a: seq<Field>, b: seq<Field>, m': R)
    requires Fold(decl, store, m, a) == Ok(m')
    ensures Fold(decl, store, m, a + b) == Fold(decl, store, m', b)
    decreases |a|
  {
    if a == [] {
      assert a + b == b;
    } else {
      assert (a + b)[0] == a[0];
      assert (a + b)[1..] == a[1..] + b;
      FoldThen(decl, store, Apply(decl, store, m, a[0]).value, a[1..], b, m');
    }
  }

  /** Folding at most one field is that field's store. */
  lemma FoldSingle<R>(decl: int -> Decl, store: (R, int, Value) -> Result<R>, m: R, fs: seq<Field>)
    requires |fs| <= 1
    ensures Fold(decl, store, m, fs) == if fs == [] then Ok(m) else Apply(decl, store, m, fs[0])
  {
    if fs != [] {
      var r := Apply(decl, store, m, fs[0]);
      if r.Ok? {
        assert Fold(decl, store, r.value, fs[1..]) == Ok(r.value);
      }
    }
  }

  /** Folding a run that starts with at most one field: that field's store,
      then the rest. */
  lemma FoldStep<R>(decl: int -> Decl, store: (R, int, Value) -> Result<R>, m: R, p: seq<Field>,
                    rest: seq<Field>, m': R)
    requires |p| <= 1
    requires p == [] ==> m' == m
    requires p != [] ==> Apply(decl, store, m, p[0]) == Ok(m')
    ensures Fold(decl, store, m, p + rest) == Fold(decl, store, m', rest)
  {
    FoldSingle(decl, store, m, p);
    FoldThen(decl, store, m, p, rest, m');
  }

  lemma RunsAppend(decl: int -> Decl, a: seq<Field>, b: seq<Field>)
    requires Runs(decl, a) && Runs(decl, b)
    ensures Runs(decl, a + b)
  {
    forall k | 0 <= k < |a + b|
      ensures Readable(decl((a + b)[k].num), (a + b)[k])
    {
      if k < |a| {
        assert (a + b)[k] == a[k];
      } else {
        assert (a + b)[k] == b[k - |a|];
      }
    }
  }

  /** `add` applied to each element of `xs` in turn. */
  function AddAll<R, E>(add: (R, E) -> R, m: R, xs: seq<E>): R
    decreases |xs|
  {
    if xs == [] then m else AddAll(add, add(m, xs[0]), xs[1..])
  }

  /** A repeated field whose every element's store adds that element: the
      run adds them all, in order. */
  lemma {:induction false} FoldAdds<R, E>(decl: int -> Decl, store: (R, int, Value) -> Result<R>, m: R, num: nat,
                                          add: (R, E) -> R, bodies: seq<seq<Byte>>, xs: seq<E>)
    requires decl(num) == Delimited && |bodies| == |xs|
    requires forall k, r :: 0 <= k < |xs| ==> store(r, num, Bytes(bodies[k])) == Ok(add(r, xs[k]))
    ensures Fold(decl, store, m, RepeatedField(num, bodies)) == Ok(AddAll(add, m, xs))
    decreases |xs|
  {
    if xs != [] {
      var m1 := add(m, xs[0]);
      assert store(m, num, Bytes(bodies[0])) == Ok(m1);
      assert RepeatedField(num, bodies)[1..] == RepeatedField(num, bodies[1..]);
      FoldAdds(decl, store, m1, num, add, bodies[1..], xs[1..]);
    }
  }
}
