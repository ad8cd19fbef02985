/** `State` (evm.pb.go, the storage slot of an exported account): a key and
    a value, both strings, fields 1 and 2. */
module StateCodec {
  import opened Errors
  import opened Varint
  import opened Wire
  import opened Decoding
  import opened Encoding

  datatype State = State(key: seq<Byte>, value: seq<Byte>)

  const Default := State([], [])

  /** The fields MarshalToSizedBuffer leaves in the buffer, front to back. */
  function Fields(m: State): seq<Field> {
    StrField(1, m.key) + StrField(2, m.value)
  }

  function Encode(m: State): seq<Byte> {
    Concat(Fields(m))
  }

  /** What Unmarshal does to a record that already holds `a` when it reads
      the encoding of `b`: a string field that `b` sets replaces `a`'s. */
  function Merge(a: State, b: State): State {
    State(if |b.key| > 0 then b.key else a.key,
          if |b.value| > 0 then b.value else a.value)
  }

  method Size(m: State) returns (n: nat)
    requires |Encode(m)| < TWO_63
    ensures n == |Encode(m)|
  {
    ConcatAppend(StrField(1, m.key), StrField(2, m.value));
    StrSize(1, m.key, 1);
    StrSize(2, m.value, 1);
    n := 0;
    var l := |m.key|;
    if l > 0 {
      n := n + 1 + l + Sov(l);
    }
    l := |m.value|;
    if l > 0 {
      n := n + 1 + l + Sov(l);
    }
  }

  method MarshalToSizedBuffer(buf: array<Byte>, end: nat, m: State) returns (n: nat)
    requires |Encode(m)| <= end <= buf.Length < TWO_63
    modifies buf
    ensures n == |Encode(m)|
    ensures Filled(buf[..], old(buf[..]), end - n, end, Encode(m))
  {
    ghost var orig := buf[..];
    ghost var c2 := Concat(StrField(2, m.value));
    ConcatAppend(StrField(1, m.key), StrField(2, m.value));
    FilledEmpty(orig, end);
    var i := end;
    i := PutString(buf, i, 2, m.value, orig, end, []);
    assert c2 + [] == c2;
    i := PutString(buf, i, 1, m.key, orig, end, c2);
    n := end - i;
  }

  method Marshal(m: State) returns (data: seq<Byte>)
    requires |Encode(m)| < TWO_63
    ensures data == Encode(m)
  {
    var size := Size(m);
    var buf := new Byte[size];
    ghost var before := buf[..];
    var n := MarshalToSizedBuffer(buf, size, m);
    FilledWhole(buf[..], before, n, Encode(m));
    data := buf[..n];
  }

  function Declared(num: int): Decl {
    if num == 1 || num == 2 then Delimited else Unknown
  }

  /** The body of the `case` for field `num`. */
  function Store(m: State, num: int, v: Value): Result<State> {
    if num == 1 then Ok(m.(key := AsBytes(v)))
    else if num == 2 then Ok(m.(value := AsBytes(v)))
    else Ok(m)
  }

  /** Unmarshal on a receiver that holds `m0`. */
  function Decode(data: seq<Byte>, m0: State): Result<State> {
    DecodeFrom(Declared, Store, data, 0, m0)
  }

  method Unmarshal(data: seq<Byte>, m0: State) returns (r: Result<State>)
    ensures r == Decode(data, m0)
  {
    r := UnmarshalLoop(Declared, Store, data, m0);
  }

  // ---------------------------------------------------------------------
  // Round trip.

  lemma FieldsRun(m: State)
    ensures Runs(Declared, Fields(m))
  {
    RunsAppend(Declared, StrField(1, m.key), StrField(2, m.value));
  }

  lemma FoldOnto(a: State, b: State)
    ensures Fold(Declared, Store, a, Fields(b)) == Ok(Merge(a, b))
  {
    var a1 := if |b.key| > 0 then a.(key := b.key) else a;
    FoldStep(Declared, Store, a, StrField(1, b.key), StrField(2, b.value), a1);
    FoldSingle(Declared, Store, a1, StrField(2, b.value));
  }

  /** Unmarshal of Marshal's output onto a record `a` merges `b` into `a`. */
  lemma DecodeOnto(a: State, b: State)
    requires |Encode(b)| < TWO_63
    ensures Decode(Encode(b), a) == Ok(Merge(a, b))
  {
    FieldsRun(b);
    DecodeConcat(Declared, Store, a, Fields(b));
    FoldOnto(a, b);
  }

  lemma RoundTrip(m: State)
    requires |Encode(m)| < TWO_63
    ensures Decode(Encode(m), Default) == Ok(m)
  {
    DecodeOnto(Default, m);
  }
}
