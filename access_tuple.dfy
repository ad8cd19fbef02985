/** `AccessTuple` (evm.pb.go, one entry of an EIP-2930 access list): an
    address, field 1, and its storage keys, the repeated string field 2. */
module AccessTupleCodec {
  import opened Errors
  import opened Varint
  import opened Wire
  import opened Decoding
  import opened Encoding

  datatype AccessTuple = AccessTuple(address: seq<Byte>, storageKeys: seq<seq<Byte>>)

  const Default := AccessTuple([], [])

  function Fields(m: AccessTuple): seq<Field> {
    StrField(1, m.address) + RepeatedField(2, m.storageKeys)
  }

  function Encode(m: AccessTuple): seq<Byte> {
    Concat(Fields(m))
  }

  /** Reading `b` onto `a`: a set address replaces `a`'s, the storage keys
      are appended to `a`'s. */
  function Merge(a: AccessTuple, b: AccessTuple): AccessTuple {
    AccessTuple(if |b.address| > 0 then b.address else a.address,
                a.storageKeys + b.storageKeys)
  }

  method Size(m: AccessTuple) returns (n: nat)
    requires |Encode(m)| < TWO_63
    ensures n == |Encode(m)|
  {
    ConcatAppend(StrField(1, m.address), RepeatedField(2, m.storageKeys));
    StrSize(1, m.address, 1);
    n := 0;
    var l := |m.address|;
    if l > 0 {
      n := n + 1 + l + Sov(l);
    }
    if |m.storageKeys| > 0 {
      var keys := RepeatedSize(2, m.storageKeys);
      n := n + keys;
    }
  }

  method MarshalToSizedBuffer(buf: array<Byte>, end: nat, m: AccessTuple) returns (n: nat)
    requires |Encode(m)| <= end <= buf.Length < TWO_63
    modifies buf
    ensures n == |Encode(m)|
    ensures Filled(buf[..], old(buf[..]), end - n, end, Encode(m))
  {
    ghost var orig := buf[..];
    ghost var c2 := Concat(RepeatedField(2, m.storageKeys));
    ConcatAppend(StrField(1, m.address), RepeatedField(2, m.storageKeys));
    FilledEmpty(orig, end);
    var i := end;
    i := PutRepeated(buf, i, 2, m.storageKeys, orig, end, []);
    assert c2 + [] == c2;
    i := PutString(buf, i, 1, m.address, orig, end, c2);
    n := end - i;
  }

  method Marshal(m: AccessTuple) returns (data: seq<Byte>)
    requires |Encode(m)| < TWO_63
    ensures data == Encode(m)
  {
    var size := Size(m);
    var buf := new Byte[size];
    ghost var before := buf[..];
    var n := MarshalToSizedBuffer(buf, size, m);
    FilledWhole(buf[..], before, n, Encode(m));
    data := buf[..n];
  }

  function Declared(num: int): Decl {
    if num == 1 || num == 2 then Delimited else Unknown
  }

  function Store(m: AccessTuple, num: int, v: Value): Result<AccessTuple> {
    if num == 1 then Ok(m.(address := AsBytes(v)))
    else if num == 2 then Ok(m.(storageKeys := m.storageKeys + [AsBytes(v)]))
    else Ok(m)
  }

  function Decode(data: seq<Byte>, m0: AccessTuple): Result<AccessTuple> {
    DecodeFrom(Declared, Store, data, 0, m0)
  }

  method Unmarshal(data: seq<Byte>, m0: AccessTuple) returns (r: Result<AccessTuple>)
    ensures r == Decode(data, m0)
  {
    r := UnmarshalLoop(Declared, Store, data, m0);
  }

  // ---------------------------------------------------------------------
  // Round trip.

  lemma FieldsRun(m: AccessTuple)
    ensures Runs(Declared, Fields(m))
  {
    RunsAppend(Declared, StrField(1, m.address), RepeatedField(2, m.storageKeys));
  }

  /** Each storage key field appends one key, in order. */
  lemma {:induction false} FoldKeys(m: AccessTuple, ss: seq<seq<Byte>>)
    ensures Fold(Declared, Store, m, RepeatedField(2, ss)) == Ok(m.(storageKeys := m.storageKeys + ss))
    decreases |ss|
  {
    if ss == [] {
      assert m.storageKeys + ss == m.storageKeys;
    } else {
      var m1 := m.(storageKeys := m.storageKeys + [ss[0]]);
      assert RepeatedField(2, ss)[1..] == RepeatedField(2, ss[1..]);
      FoldKeys(m1, ss[1..]);
      assert m.storageKeys + [ss[0]] + ss[1..] == m.storageKeys + ss;
    }
  }

  lemma FoldOnto(a: AccessTuple, b: AccessTuple)
    ensures Fold(Declared, Store, a, Fields(b)) == Ok(Merge(a, b))
  {
    var a1 := if |b.address| > 0 then a.(address := b.address) else a;
    FoldStep(Declared, Store, a, StrField(1, b.address), RepeatedField(2, b.storageKeys), a1);
    FoldKeys(a1, b.storageKeys);
  }

  lemma DecodeOnto(a: AccessTuple, b: AccessTuple)
    requires |Encode(b)| < TWO_63
    ensures Decode(Encode(b), a) == Ok(Merge(a, b))
  {
    FieldsRun(b);
    DecodeConcat(Declared, Store, a, Fields(b));
    FoldOnto(a, b);
  }

  lemma RoundTrip(m: AccessTuple)
    requires |Encode(m)| < TWO_63
    ensures Decode(Encode(m), Default) == Ok(m)
  {
    DecodeOnto(Default, m);
    assert [] + m.storageKeys == m.storageKeys;
  }

  /** Two encodings back to back read as the second merged into the first:
      the storage keys of both, in order. */
  lemma DecodeConcatenated(a: AccessTuple, b: AccessTuple, c: AccessTuple)
    requires |Encode(b) + Encode(c)| < TWO_63
    ensures Decode(Encode(b) + Encode(c), a) == Ok(Merge(Merge(a, b), c))
  {
    FieldsRun(b);
    FieldsRun(c);
    RunsAppend(Declared, Fields(b), Fields(c));
    ConcatAppend(Fields(b), Fields(c));
    DecodeConcat(Declared, Store, a, Fields(b) + Fields(c));
    FoldOnto(a, b);
    FoldThen(Declared, Store, a, Fields(b), Fields(c), Merge(a, b));
    FoldOnto(Merge(a, b), c);
  }
}
