/** `Params` (evm.pb.go, the EVM module's parameters): six fields, among
    them a packed repeated int64 (the extra EIPs) and an embedded
    `ChainConfig` that is always written. */
module ParamsCodec {
  import opened Errors
  import opened Varint
  import opened Wire
  import opened Decoding
  import opened Encoding
  import ChainConfigCodec

  datatype Params = Params(
    evmDenom: seq<Byte>,
    enableCreate: bool,
    enableCall: bool,
    extraEIPs: seq<I64>,
    chainConfig: ChainConfigCodec.ChainConfig,
    allowUnprotectedTxs: bool)

  const Default := Params([], false, false, [], ChainConfigCodec.Default, false)

  /** The field numbers. */
  const EVM_DENOM: nat := 1
  const ENABLE_CREATE: nat := 2
  const ENABLE_CALL: nat := 3
  const EXTRA_EIPS: nat := 4
  const CHAIN_CONFIG: nat := 5
  const ALLOW_UNPROTECTED_TXS: nat := 6

  /** The block of fields that field number `k` contributes: the extra EIPs
      as one packed run of their uint64 views, the chain configuration even
      when it holds only defaults. */
  function Piece(m: Params, k: nat): seq<Field> {
    match k
    case 1 => StrField(1, m.evmDenom)
    case 2 => BoolField(2, m.enableCreate)
    case 3 => BoolField(3, m.enableCall)
    case 4 => PackedField(4, U64s(m.extraEIPs))
    case 5 => [Field(5, BytesP(ChainConfigCodec.Encode(m.chainConfig)))]
    case 6 => BoolField(6, m.allowUnprotectedTxs)
    case _ => []
  }

  /** The blocks from field `k` on, in field order. */
  function Tail(m: Params, k: nat): seq<Field>
    decreases 7 - k
  {
    if k > 6 then [] else Piece(m, k) + Tail(m, k + 1)
  }

  /** The fields MarshalToSizedBuffer leaves in the buffer, front to back. */
  function Fields(m: Params): seq<Field> {
    Tail(m, EVM_DENOM)
  }

  function Encode(m: Params): seq<Byte> {
    Concat(Fields(m))
  }

  /** Reading `b` onto `a`: a denomination `b` sets replaces `a`'s, bools
      once true stay true, `b`'s extra EIPs are appended to `a`'s and the
      chain configuration is read onto `a`'s. */
  function Merge(a: Params, b: Params): Params {
    Params(if |b.evmDenom| > 0 then b.evmDenom else a.evmDenom,
           a.enableCreate || b.enableCreate,
           a.enableCall || b.enableCall,
           a.extraEIPs + b.extraEIPs,
           ChainConfigCodec.Merge(a.chainConfig, b.chainConfig),
           a.allowUnprotectedTxs || b.allowUnprotectedTxs)
  }

  /** `a` once the fields of `b` numbered below `k` have been read onto it. */
  function Partial(a: Params, b: Params, k: nat): Params {
    var c := Merge(a, b);
    Params(if k > 1 then c.evmDenom else a.evmDenom,
           if k > 2 then c.enableCreate else a.enableCreate,
           if k > 3 then c.enableCall else a.enableCall,
           if k > 4 then c.extraEIPs else a.extraEIPs,
           if k > 5 then c.chainConfig else a.chainConfig,
           if k > 6 then c.allowUnprotectedTxs else a.allowUnprotectedTxs)
  }

  /** The encoding from field `k` on: the block of field `k`, then the
      encoding from field `k + 1` on, no longer than the whole encoding. */
  lemma TailSplit(m: Params, k: nat)
    requires 1 <= k <= 6
    ensures Concat(Tail(m, k)) == Concat(Piece(m, k)) + Concat(Tail(m, k + 1))
    ensures |Concat(Tail(m, k))| <= |Encode(m)|
  {
    ConcatAppend(Piece(m, k), Tail(m, k + 1));
    TailBound(m, k);
  }

  lemma TailLength(m: Params, k: nat)
    requires 1 <= k <= 6
    ensures |Concat(Tail(m, k))| == |Concat(Piece(m, k))| + |Concat(Tail(m, k + 1))|
    ensures |Concat(Tail(m, k))| <= |Encode(m)|
  {
    TailSplit(m, k);
  }

  lemma {:induction false} TailBound(m: Params, k: nat)
    requires 1 <= k
    ensures |Concat(Tail(m, k))| <= |Encode(m)|
    decreases k
  {
    if 1 < k <= 7 {
      TailBound(m, k - 1);
      ConcatAppend(Piece(m, k - 1), Tail(m, k));
    }
  }

  method Size(m: Params) returns (n: nat)
    requires |Encode(m)| < TWO_63
    ensures n == |Encode(m)|
  {
    n := 0;
    var l: nat;
    TailLength(m, EVM_DENOM);
    l := PieceSize(m, EVM_DENOM);
    n := n + l;
    TailLength(m, ENABLE_CREATE);
    l := PieceSize(m, ENABLE_CREATE);
    n := n + l;
    TailLength(m, ENABLE_CALL);
    l := PieceSize(m, ENABLE_CALL);
    n := n + l;
    TailLength(m, EXTRA_EIPS);
    l := PieceSize(m, EXTRA_EIPS);
    n := n + l;
    TailLength(m, CHAIN_CONFIG);
    l := PieceSize(m, CHAIN_CONFIG);
    n := n + l;
    TailLength(m, ALLOW_UNPROTECTED_TXS);
    l := PieceSize(m, ALLOW_UNPROTECTED_TXS);
    n := n + l;
  }

  /** The term Size adds for field `k`. */
  method PieceSize(m: Params, k: nat) returns (l: nat)
    requires 1 <= k <= 6 && |Concat(Piece(m, k))| < TWO_63
    ensures l == |Concat(Piece(m, k))|
  {
    match k
    case 1 => l := StrLen(1, m.evmDenom, 1);
    case 2 => l := BoolLen(2, m.enableCreate);
    case 3 => l := BoolLen(3, m.enableCall);
    case 4 => l := PackedSize(4, U64s(m.extraEIPs));
    case 5 =>
      MsgSize(5, ChainConfigCodec.Encode(m.chainConfig));
      l := ChainConfigCodec.Size(m.chainConfig);
      l := 1 + l + Sov(l);
    case 6 => l := BoolLen(6, m.allowUnprotectedTxs);
  }

  method MarshalToSizedBuffer(buf: array<Byte>, end: nat, m: Params) returns (n: nat)
    requires |Encode(m)| <= end <= buf.Length < TWO_63
    modifies buf
    ensures n == |Encode(m)|
    ensures Filled(buf[..], old(buf[..]), end - n, end, Encode(m))
  {
    ghost var orig := buf[..];
    FilledEmpty(orig, end);
    var i := PutHigh(buf, end, m, orig, end);
    i := PutLow(buf, i, m, orig, end);
    n := end - i;
  }

  /** Fields 6 down to 4, written first. */
  method PutHigh(buf: array<Byte>, i: nat, m: Params, ghost orig: seq<Byte>, ghost end: nat) returns (j: nat)
    requires i == end && |Encode(m)| <= end <= buf.Length < TWO_63
    requires Filled(buf[..], orig, i, end, [])
    modifies buf
    ensures j + |Concat(Tail(m, EXTRA_EIPS))| == i
    ensures Filled(buf[..], orig, j, end, Concat(Tail(m, EXTRA_EIPS)))
  {
    j := i;
    TailSplit(m, ALLOW_UNPROTECTED_TXS);
    j := PutPiece(buf, j, m, ALLOW_UNPROTECTED_TXS, orig, end);
    TailSplit(m, CHAIN_CONFIG);
    j := PutPiece(buf, j, m, CHAIN_CONFIG, orig, end);
    TailSplit(m, EXTRA_EIPS);
    j := PutPiece(buf, j, m, EXTRA_EIPS, orig, end);
  }

  /** Fields 3 down to 1, in front of the ones PutHigh wrote. */
  method PutLow(buf: array<Byte>, i: nat, m: Params, ghost orig: seq<Byte>, ghost end: nat) returns (j: nat)
    requires i + |Concat(Tail(m, EXTRA_EIPS))| == end && end <= buf.Length < TWO_63
    requires Filled(buf[..], orig, i, end, Concat(Tail(m, EXTRA_EIPS)))
    requires |Encode(m)| <= end
    modifies buf
    ensures j + |Encode(m)| == end
    ensures Filled(buf[..], orig, j, end, Encode(m))
  {
    j := i;
    TailSplit(m, ENABLE_CALL);
    j := PutPiece(buf, j, m, ENABLE_CALL, orig, end);
    TailSplit(m, ENABLE_CREATE);
    j := PutPiece(buf, j, m, ENABLE_CREATE, orig, end);
    TailSplit(m, EVM_DENOM);
    j := PutPiece(buf, j, m, EVM_DENOM, orig, end);
  }

  /** The block that writes field `k` below `i`, in front of the fields
      after it. */
  method PutPiece(buf: array<Byte>, i: nat, m: Params, k: nat, ghost orig: seq<Byte>, ghost end: nat)
      returns (j: nat)
    requires 1 <= k <= 6 && i <= buf.Length < TWO_63
    requires Filled(buf[..], orig, i, end, Concat(Tail(m, k + 1)))
    requires Concat(Tail(m, k)) == Concat(Piece(m, k)) + Concat(Tail(m, k + 1))
    requires |Concat(Piece(m, k))| <= i
    modifies buf
    ensures j == i - |Concat(Piece(m, k))|
    ensures Filled(buf[..], orig, j, end, Concat(Tail(m, k)))
  {
    ghost var content := Concat(Tail(m, k + 1));
    match k
    case 1 => j := PutString(buf, i, 1, m.evmDenom, orig, end, content);
    case 2 => j := PutBool(buf, i, 2, m.enableCreate, orig, end, content);
    case 3 => j := PutBool(buf, i, 3, m.enableCall, orig, end, content);
    case 4 => j := PutPacked(buf, i, 4, U64s(m.extraEIPs), orig, end, content);
    case 5 =>
      ConcatOne(Field(5, BytesP(ChainConfigCodec.Encode(m.chainConfig))));
      j := PutChainConfig(buf, i, m.chainConfig, ChainConfigCodec.Encode(m.chainConfig), orig, end, content);
    case 6 => j := PutBool(buf, i, 6, m.allowUnprotectedTxs, orig, end, content);
  }

  /** The chain configuration, whose encoding is `body`: its own
      MarshalToSizedBuffer into the buffer cut at the cursor, then its
      length and tag. */
  method PutChainConfig(buf: array<Byte>, i: nat, c: ChainConfigCodec.ChainConfig, ghost body: seq<Byte>,
                        ghost orig: seq<Byte>, ghost end: nat, ghost content: seq<Byte>) returns (j: nat)
    requires body == ChainConfigCodec.Encode(c)
    requires Filled(buf[..], orig, i, end, content) && buf.Length < TWO_63
    requires |FieldBytes(Field(CHAIN_CONFIG, BytesP(body)))| <= i
    modifies buf
    ensures j == i - |FieldBytes(Field(CHAIN_CONFIG, BytesP(body)))|
    ensures Filled(buf[..], orig, j, end, FieldBytes(Field(CHAIN_CONFIG, BytesP(body))) + content)
  {
    FieldLength(CHAIN_CONFIG, body);
    ghost var before := buf[..];
    var size := ChainConfigCodec.MarshalToSizedBuffer(buf, i, c);
    j := PutEmbedded(buf, i, CHAIN_CONFIG, size, body, before, orig, end, content);
  }

  method Marshal(m: Params) returns (data: seq<Byte>)
    requires |Encode(m)| < TWO_63
    ensures data == Encode(m)
  {
    var size := Size(m);
    var buf := new Byte[size];
    ghost var before := buf[..];
    var n := MarshalToSizedBuffer(buf, size, m);
    FilledWhole(buf[..], before, n, Encode(m));
    data := buf[..n];
  }

  function Declared(num: int): Decl {
    if num == 1 || num == 5 then Delimited
    else if num == 2 || num == 3 || num == 6 then Scalar
    else if num == 4 then Packed
    else Unknown
  }

  /** The signed views `int64(u)` of the elements of a repeated field. */
  function I64s(us: seq<U64>): (r: seq<I64>)
    ensures |r| == |us|
  {
    if us == [] then [] else [I64Of(us[0])] + I64s(us[1..])
  }

  /** Field 4 appends, whether it arrives as one varint or as a packed run;
      field 5 is read by the chain configuration's own Unmarshal onto the
      configuration already there. */
  function Store(m: Params, num: int, v: Value): Result<Params> {
    match num
    case 1 => Ok(m.(evmDenom := AsBytes(v)))
    case 2 => Ok(m.(enableCreate := AsU64(v) != 0))
    case 3 => Ok(m.(enableCall := AsU64(v) != 0))
    case 4 => Ok(m.(extraEIPs := m.extraEIPs + I64s(AsNums(v))))
    case 5 =>
      var c :- ChainConfigCodec.Decode(AsBytes(v), m.chainConfig);
      Ok(m.(chainConfig := c))
    case 6 => Ok(m.(allowUnprotectedTxs := AsU64(v) != 0))
    case _ => Ok(m)
  }

  function Decode(data: seq<Byte>, m0: Params): Result<Params> {
    DecodeFrom(Declared, Store, data, 0, m0)
  }

  method Unmarshal(data: seq<Byte>, m0: Params) returns (r: Result<Params>)
    ensures r == Decode(data, m0)
  {
    r := UnmarshalLoop(Declared, Store, data, m0);
  }

  // ---------------------------------------------------------------------
  // Round trip.

  lemma PieceRuns(m: Params, k: nat)
    ensures Runs(Declared, Piece(m, k))
  {
  }

  lemma {:induction false} TailRuns(m: Params, k: nat)
    ensures Runs(Declared, Tail(m, k))
    decreases 7 - k
  {
    if k <= 6 {
      TailRuns(m, k + 1);
      PieceRuns(m, k);
      RunsAppend(Declared, Piece(m, k), Tail(m, k + 1));
    }
  }

  /** The signed views of the uint64 views are the original integers. */
  lemma {:induction false} SignedViews(xs: seq<I64>)
    ensures I64s(U64s(xs)) == xs
    decreases |xs|
  {
    if xs != [] {
      SignedViews(xs[1..]);
      assert U64s(xs)[1..] == U64s(xs[1..]);
    }
  }

  /** The packed extra EIPs read onto any value append themselves. */
  lemma StoreEIPs(p: Params, xs: seq<I64>)
    ensures Store(p, EXTRA_EIPS, Nums(U64s(xs))) == Ok(p.(extraEIPs := p.extraEIPs + xs))
  {
    SignedViews(xs);
  }

  /** The chain configuration field read onto any value merges the
      configuration it encodes. */
  lemma StoreChainConfig(p: Params, c: ChainConfigCodec.ChainConfig)
    requires |ChainConfigCodec.Encode(c)| < TWO_63
    ensures Store(p, CHAIN_CONFIG, Bytes(ChainConfigCodec.Encode(c)))
         == Ok(p.(chainConfig := ChainConfigCodec.Merge(p.chainConfig, c)))
  {
    ChainConfigCodec.DecodeOnto(p.chainConfig, c);
  }

  /** Reading the block of field `k` takes the partial merge one field
      further. */
  lemma FoldPiece(a: Params, b: Params, k: nat, rest: seq<Field>)
    requires 1 <= k <= 6 && |ChainConfigCodec.Encode(b.chainConfig)| < TWO_63
    ensures Fold(Declared, Store, Partial(a, b, k), Piece(b, k) + rest)
         == Fold(Declared, Store, Partial(a, b, k + 1), rest)
  {
    if k == 4 {
      FoldEIPs(a, b, rest);
    } else if k == 5 {
      FoldChainConfig(a, b, rest);
    } else {
      FoldScalar(a, b, k, rest);
    }
  }

  /** The denomination and the three flags. */
  lemma FoldScalar(a: Params, b: Params, k: nat, rest: seq<Field>)
    requires k == 1 || k == 2 || k == 3 || k == 6
    ensures Fold(Declared, Store, Partial(a, b, k), Piece(b, k) + rest)
         == Fold(Declared, Store, Partial(a, b, k + 1), rest)
  {
    FoldStep(Declared, Store, Partial(a, b, k), Piece(b, k), rest, Partial(a, b, k + 1));
  }

  /** The extra EIPs: nothing when there are none, else one packed run. */
  lemma FoldEIPs(a: Params, b: Params, rest: seq<Field>)
    ensures Fold(Declared, Store, Partial(a, b, EXTRA_EIPS), Piece(b, EXTRA_EIPS) + rest)
         == Fold(Declared, Store, Partial(a, b, CHAIN_CONFIG), rest)
  {
    var p := Partial(a, b, EXTRA_EIPS);
    if |b.extraEIPs| > 0 {
      StoreEIPs(p, b.extraEIPs);
    } else {
      assert a.extraEIPs + b.extraEIPs == a.extraEIPs;
    }
    FoldStep(Declared, Store, p, Piece(b, EXTRA_EIPS), rest, Partial(a, b, CHAIN_CONFIG));
  }

  lemma FoldChainConfig(a: Params, b: Params, rest: seq<Field>)
    requires |ChainConfigCodec.Encode(b.chainConfig)| < TWO_63
    ensures Fold(Declared, Store, Partial(a, b, CHAIN_CONFIG), Piece(b, CHAIN_CONFIG) + rest)
         == Fold(Declared, Store, Partial(a, b, ALLOW_UNPROTECTED_TXS), rest)
  {
    var p := Partial(a, b, CHAIN_CONFIG);
    StoreChainConfig(p, b.chainConfig);
    FoldStep(Declared, Store, p, Piece(b, CHAIN_CONFIG), rest, Partial(a, b, ALLOW_UNPROTECTED_TXS));
  }

  lemma {:induction false} FoldTail(a: Params, b: Params, k: nat)
    requires 1 <= k && |ChainConfigCodec.Encode(b.chainConfig)| < TWO_63
    ensures Fold(Declared, Store, Partial(a, b, k), Tail(b, k)) == Ok(Merge(a, b))
    decreases 7 - k
  {
    if k <= 6 {
      FoldPiece(a, b, k, Tail(b, k + 1));
      FoldTail(a, b, k + 1);
    }
  }

  lemma FoldOnto(a: Params, b: Params)
    requires |ChainConfigCodec.Encode(b.chainConfig)| < TWO_63
    ensures Fold(Declared, Store, a, Fields(b)) == Ok(Merge(a, b))
  {
    FoldTail(a, b, EVM_DENOM);
  }

  /** The embedded configuration of an encoding that fits fits as well. */
  lemma ChainConfigBound(m: Params)
    requires |Encode(m)| < TWO_63
    ensures |ChainConfigCodec.Encode(m.chainConfig)| < TWO_63
  {
    TailSplit(m, CHAIN_CONFIG);
    ConcatOne(Field(CHAIN_CONFIG, BytesP(ChainConfigCodec.Encode(m.chainConfig))));
    FieldLength(CHAIN_CONFIG, ChainConfigCodec.Encode(m.chainConfig));
  }

  lemma DecodeOnto(a: Params, b: Params)
    requires |Encode(b)| < TWO_63
    ensures Decode(Encode(b), a) == Ok(Merge(a, b))
  {
    TailRuns(b, EVM_DENOM);
    DecodeConcat(Declared, Store, a, Fields(b));
    ChainConfigBound(b);
    FoldOnto(a, b);
  }

  lemma RoundTrip(m: Params)
    requires |Encode(m)| < TWO_63
    ensures Decode(Encode(m), Default) == Ok(m)
  {
    DecodeOnto(Default, m);
    MergeDefault(m);
  }

  lemma MergeDefault(m: Params)
    ensures Merge(Default, m) == m
  {
    assert [] + m.extraEIPs == m.extraEIPs;
  }

  // ---------------------------------------------------------------------
  // Other encodings a peer may send.

  /** Two encodings back to back read as the second merged into the first:
      the extra EIPs of both, in order, and the two chain configurations
      merged. */
  lemma DecodeConcatenated(a: Params, b: Params, c: Params)
    requires |Encode(b) + Encode(c)| < TWO_63
    ensures Decode(Encode(b) + Encode(c), a) == Ok(Merge(Merge(a, b), c))
  {
    TailRuns(b, EVM_DENOM);
    TailRuns(c, EVM_DENOM);
    RunsAppend(Declared, Fields(b), Fields(c));
    ConcatAppend(Fields(b), Fields(c));
    DecodeConcat(Declared, Store, a, Fields(b) + Fields(c));
    ChainConfigBound(b);
    ChainConfigBound(c);
    FoldOnto(a, b);
    FoldThen(Declared, Store, a, Fields(b), Fields(c), Merge(a, b));
    FoldOnto(Merge(a, b), c);
  }

  /** The extra EIPs sent unpacked, one varint field per element, as an
      older encoder writes them. */
  function UnpackedEIPs(xs: seq<I64>): (r: seq<Field>)
    ensures |r| == |xs|
  {
    if xs == [] then [] else [Field(EXTRA_EIPS, VarintP(U64Of(xs[0])))] + UnpackedEIPs(xs[1..])
  }

  lemma {:induction false} FoldUnpacked(m: Params, xs: seq<I64>)
    ensures Runs(Declared, UnpackedEIPs(xs))
    ensures Fold(Declared, Store, m, UnpackedEIPs(xs)) == Ok(m.(extraEIPs := m.extraEIPs + xs))
    decreases |xs|
  {
    if xs == [] {
      assert m.extraEIPs + xs == m.extraEIPs;
    } else {
      var m1 := m.(extraEIPs := m.extraEIPs + [xs[0]]);
      var f := Field(EXTRA_EIPS, VarintP(U64Of(xs[0])));
      StoreUnpacked(m, xs[0]);
      FoldUnpacked(m1, xs[1..]);
      FoldStep(Declared, Store, m, [f], UnpackedEIPs(xs[1..]), m1);
      RunsAppend(Declared, [f], UnpackedEIPs(xs[1..]));
      assert m.extraEIPs + [xs[0]] + xs[1..] == m.extraEIPs + xs;
    }
  }

  /** One unpacked element appends itself. */
  lemma StoreUnpacked(m: Params, x: I64)
    ensures Runs(Declared, [Field(EXTRA_EIPS, VarintP(U64Of(x)))])
    ensures Apply(Declared, Store, m, Field(EXTRA_EIPS, VarintP(U64Of(x))))
         == Ok(m.(extraEIPs := m.extraEIPs + [x]))
  {
    assert I64s([U64Of(x)]) == [x];
  }

  /** Field 4 reads the same elements whether they come packed or one
      varint field each. */
  lemma PackedOrUnpacked(m: Params, xs: seq<I64>)
    requires |Concat(UnpackedEIPs(xs))| < TWO_63 && |Concat(PackedField(EXTRA_EIPS, U64s(xs)))| < TWO_63
    ensures Decode(Concat(UnpackedEIPs(xs)), m) == Ok(m.(extraEIPs := m.extraEIPs + xs))
    ensures Decode(Concat(PackedField(EXTRA_EIPS, U64s(xs))), m) == Ok(m.(extraEIPs := m.extraEIPs + xs))
  {
    FoldUnpacked(m, xs);
    DecodeConcat(Declared, Store, m, UnpackedEIPs(xs));
    var d := Default.(extraEIPs := xs);
    assert Piece(d, EXTRA_EIPS) == PackedField(EXTRA_EIPS, U64s(xs));
    PieceRuns(d, EXTRA_EIPS);
    DecodeConcat(Declared, Store, m, PackedField(EXTRA_EIPS, U64s(xs)));
    FoldEIPs(m, d, []);
    assert Partial(m, d, EXTRA_EIPS) == m;
    assert Partial(m, d, CHAIN_CONFIG) == m.(extraEIPs := m.extraEIPs + xs);
    assert Piece(d, EXTRA_EIPS) + [] == Piece(d, EXTRA_EIPS);
  }

  /** Field 4 with a wire type other than 0 and 2 (here 5, fixed32) is
      rejected. */
  lemma EIPsWrongWireType(m: Params)
    ensures Decode([0x25], m) == Err(WrongWireType(4, 5))
  {
    ReadVarintEncoded([0x25], 0, 0x25);
  }

  /** A packed run whose length reaches past the end of the buffer is a
      truncated message. */
  lemma EIPsPastEnd(m: Params)
    ensures Decode([0x22, 0x05, 0x01], m) == Err(UnexpectedEOF)
  {
    var data: seq<Byte> := [0x22, 0x05, 0x01];
    ReadVarintEncoded(data, 0, 0x22);
    assert data[1..2] == VarintBytes(5);
    ReadLenDelimPastEnd(data, 1, 5);
  }

  /** The default parameters still carry their chain configuration: a tag
      and a zero length. */
  lemma DefaultEncoding()
    ensures Encode(Default) == [0x2a, 0x00]
  {
    ChainConfigCodec.DefaultEmpty();
    assert Tail(Default, ALLOW_UNPROTECTED_TXS) == [];
    assert Tail(Default, CHAIN_CONFIG) == [Field(5, BytesP([]))];
    assert Tail(Default, EVM_DENOM) == [Field(5, BytesP([]))];
    ConcatOne(Field(5, BytesP([])));
  }
}
