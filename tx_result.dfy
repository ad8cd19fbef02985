/** `TxResult` (evm.pb.go, the outcome of one Ethereum transaction): six
    fields, the third an embedded `TransactionLogs` that is always written. */
module TxResultCodec {
  import opened Errors
  import opened Varint
  import opened Wire
  import opened Decoding
  import opened Encoding
  import TransactionLogsCodec

  datatype TxResult = TxResult(
    contractAddress: seq<Byte>,
    bloom: seq<Byte>,
    txLogs: TransactionLogsCodec.TransactionLogs,
    ret: seq<Byte>,
    reverted: bool,
    gasUsed: U64)

  const Default := TxResult([], [], TransactionLogsCodec.Default, [], false, 0)

  /** The field numbers. */
  const CONTRACT_ADDRESS: nat := 1
  const BLOOM: nat := 2
  const TX_LOGS: nat := 3
  const RET: nat := 4
  const REVERTED: nat := 5
  const GAS_USED: nat := 6

  /** The block of fields that field number `k` contributes; the logs are
      written even when they are empty. */
  function Piece(m: TxResult, k: nat): seq<Field> {
    match k
    case 1 => StrField(1, m.contractAddress)
    case 2 => StrField(2, m.bloom)
    case 3 => [Field(3, BytesP(TransactionLogsCodec.Encode(m.txLogs)))]
    case 4 => StrField(4, m.ret)
    case 5 => BoolField(5, m.reverted)
    case 6 => UintField(6, m.gasUsed)
    case _ => []
  }

  /** The blocks from field `k` on, in field order. */
  function Tail(m: TxResult, k: nat): seq<Field>
    decreases 7 - k
  {
    if k > 6 then [] else Piece(m, k) + Tail(m, k + 1)
  }

  /** The fields MarshalToSizedBuffer leaves in the buffer, front to back. */
  function Fields(m: TxResult): seq<Field> {
    Tail(m, CONTRACT_ADDRESS)
  }

  function Encode(m: TxResult): seq<Byte> {
    Concat(Fields(m))
  }

  /** Reading `b` onto `a`: every field `b` sets replaces `a`'s, the logs
      are read onto `a`'s logs, and a bool once true stays true. */
  function Merge(a: TxResult, b: TxResult): TxResult {
    TxResult(if |b.contractAddress| > 0 then b.contractAddress else a.contractAddress,
             if |b.bloom| > 0 then b.bloom else a.bloom,
             TransactionLogsCodec.Merge(a.txLogs, b.txLogs),
             if |b.ret| > 0 then b.ret else a.ret,
             a.reverted || b.reverted,
             if b.gasUsed != 0 then b.gasUsed else a.gasUsed)
  }

  /** `a` once the fields of `b` numbered below `k` have been read onto it. */
  function Partial(a: TxResult, b: TxResult, k: nat): TxResult {
    var c := Merge(a, b);
    TxResult(if k > 1 then c.contractAddress else a.contractAddress,
             if k > 2 then c.bloom else a.bloom,
             if k > 3 then c.txLogs else a.txLogs,
             if k > 4 then c.ret else a.ret,
             if k > 5 then c.reverted else a.reverted,
             if k > 6 then c.gasUsed else a.gasUsed)
  }

  /** The encoding from field `k` on: the block of field `k`, then the
      encoding from field `k + 1` on, no longer than the whole encoding. */
  lemma TailSplit(m: TxResult, k: nat)
    requires 1 <= k <= 6
    ensures Concat(Tail(m, k)) == Concat(Piece(m, k)) + Concat(Tail(m, k + 1))
    ensures |Concat(Tail(m, k))| <= |Encode(m)|
  {
    ConcatAppend(Piece(m, k), Tail(m, k + 1));
    TailBound(m, k);
  }

  lemma TailLength(m: TxResult, k: nat)
    requires 1 <= k <= 6
    ensures |Concat(Tail(m, k))| == |Concat(Piece(m, k))| + |Concat(Tail(m, k + 1))|
    ensures |Concat(Tail(m, k))| <= |Encode(m)|
  {
    TailSplit(m, k);
  }

  lemma {:induction false} TailBound(m: TxResult, k: nat)
    requires 1 <= k
    ensures |Concat(Tail(m, k))| <= |Encode(m)|
    decreases k
  {
    if 1 < k <= 7 {
      TailBound(m, k - 1);
      ConcatAppend(Piece(m, k - 1), Tail(m, k));
    }
  }

  method Size(m: TxResult) returns (n: nat)
    requires |Encode(m)| < TWO_63
    ensures n == |Encode(m)|
  {
    n := 0;
    var l: nat;
    TailLength(m, CONTRACT_ADDRESS);
    l := PieceSize(m, CONTRACT_ADDRESS);
    n := n + l;
    TailLength(m, BLOOM);
    l := PieceSize(m, BLOOM);
    n := n + l;
    TailLength(m, TX_LOGS);
    l := PieceSize(m, TX_LOGS);
    n := n + l;
    TailLength(m, RET);
    l := PieceSize(m, RET);
    n := n + l;
    TailLength(m, REVERTED);
    l := PieceSize(m, REVERTED);
    n := n + l;
    TailLength(m, GAS_USED);
    l := PieceSize(m, GAS_USED);
    n := n + l;
  }

  /** The term Size adds for field `k`. */
  method PieceSize(m: TxResult, k: nat) returns (l: nat)
    requires 1 <= k <= 6 && |Concat(Piece(m, k))| < TWO_63
    ensures l == |Concat(Piece(m, k))|
  {
    match k
    case 1 => l := StrLen(1, m.contractAddress, 1);
    case 2 => l := StrLen(2, m.bloom, 1);
    case 3 =>
      MsgSize(3, TransactionLogsCodec.Encode(m.txLogs));
      l := TransactionLogsCodec.Size(m.txLogs);
      l := 1 + l + Sov(l);
    case 4 => l := StrLen(4, m.ret, 1);
    case 5 => l := BoolLen(5, m.reverted);
    case 6 => l := UintLen(6, m.gasUsed);
  }

  method MarshalToSizedBuffer(buf: array<Byte>, end: nat, m: TxResult) returns (n: nat)
    requires |Encode(m)| <= end <= buf.Length < TWO_63
    modifies buf
    ensures n == |Encode(m)|
    ensures Filled(buf[..], old(buf[..]), end - n, end, Encode(m))
  {
    ghost var orig := buf[..];
    FilledEmpty(orig, end);
    var i := end;
    TailSplit(m, GAS_USED);
    i := PutPiece(buf, i, m, GAS_USED, orig, end);
    TailSplit(m, REVERTED);
    i := PutPiece(buf, i, m, REVERTED, orig, end);
    TailSplit(m, RET);
    i := PutPiece(buf, i, m, RET, orig, end);
    TailSplit(m, TX_LOGS);
    i := PutPiece(buf, i, m, TX_LOGS, orig, end);
    TailSplit(m, BLOOM);
    i := PutPiece(buf, i, m, BLOOM, orig, end);
    TailSplit(m, CONTRACT_ADDRESS);
    i := PutPiece(buf, i, m, CONTRACT_ADDRESS, orig, end);
    n := end - i;
  }

  /** The block that writes field `k` below `i`, in front of the fields
      after it. */
  method PutPiece(buf: array<Byte>, i: nat, m: TxResult, k: nat, ghost orig: seq<Byte>, ghost end: nat)
      returns (j: nat)
    requires 1 <= k <= 6 && i <= buf.Length < TWO_63
    requires Filled(buf[..], orig, i, end, Concat(Tail(m, k + 1)))
    requires Concat(Tail(m, k)) == Concat(Piece(m, k)) + Concat(Tail(m, k + 1))
    requires |Concat(Piece(m, k))| <= i
    modifies buf
    ensures j == i - |Concat(Piece(m, k))|
    ensures Filled(buf[..], orig, j, end, Concat(Tail(m, k)))
  {
    ghost var content := Concat(Tail(m, k + 1));
    match k
    case 1 => j := PutString(buf, i, 1, m.contractAddress, orig, end, content);
    case 2 => j := PutString(buf, i, 2, m.bloom, orig, end, content);
    case 3 =>
      ConcatOne(Field(3, BytesP(TransactionLogsCodec.Encode(m.txLogs))));
      j := PutTxLogs(buf, i, m.txLogs, TransactionLogsCodec.Encode(m.txLogs), orig, end, content);
    case 4 => j := PutString(buf, i, 4, m.ret, orig, end, content);
    case 5 => j := PutBool(buf, i, 5, m.reverted, orig, end, content);
    case 6 => j := PutUint(buf, i, 6, m.gasUsed, orig, end, content);
  }

  /** The logs, whose encoding is `body`: their own MarshalToSizedBuffer
      into the buffer cut at the cursor, then their length and tag. */
  method PutTxLogs(buf: array<Byte>, i: nat, t: TransactionLogsCodec.TransactionLogs, ghost body: seq<Byte>,
                   ghost orig: seq<Byte>, ghost end: nat, ghost content: seq<Byte>) returns (j: nat)
    requires body == TransactionLogsCodec.Encode(t)
    requires Filled(buf[..], orig, i, end, content) && buf.Length < TWO_63
    requires |FieldBytes(Field(TX_LOGS, BytesP(body)))| <= i
    modifies buf
    ensures j == i - |FieldBytes(Field(TX_LOGS, BytesP(body)))|
    ensures Filled(buf[..], orig, j, end, FieldBytes(Field(TX_LOGS, BytesP(body))) + content)
  {
    FieldLength(TX_LOGS, body);
    ghost var before := buf[..];
    var size := TransactionLogsCodec.MarshalToSizedBuffer(buf, i, t);
    j := PutEmbedded(buf, i, TX_LOGS, size, body, before, orig, end, content);
  }

  method Marshal(m: TxResult) returns (data: seq<Byte>)
    requires |Encode(m)| < TWO_63
    ensures data == Encode(m)
  {
    var size := Size(m);
    var buf := new Byte[size];
    ghost var before := buf[..];
    var n := MarshalToSizedBuffer(buf, size, m);
    FilledWhole(buf[..], before, n, Encode(m));
    data := buf[..n];
  }

  function Declared(num: int): Decl {
    if 1 <= num <= 4 then Delimited
    else if num == 5 || num == 6 then Scalar
    else Unknown
  }

  /** Field 3 is read by the logs' own Unmarshal onto the logs already
      there; an error there is the error of the whole Unmarshal. */
  function Store(m: TxResult, num: int, v: Value): Result<TxResult> {
    match num
    case 1 => Ok(m.(contractAddress := AsBytes(v)))
    case 2 => Ok(m.(bloom := AsBytes(v)))
    case 3 =>
      var t :- TransactionLogsCodec.Decode(AsBytes(v), m.txLogs);
      Ok(m.(txLogs := t))
    case 4 => Ok(m.(ret := AsBytes(v)))
    case 5 => Ok(m.(reverted := AsU64(v) != 0))
    case 6 => Ok(m.(gasUsed := AsU64(v)))
    case _ => Ok(m)
  }

  function Decode(data: seq<Byte>, m0: TxResult): Result<TxResult> {
    DecodeFrom(Declared, Store, data, 0, m0)
  }

  method Unmarshal(data: seq<Byte>, m0: TxResult) returns (r: Result<TxResult>)
    ensures r == Decode(data, m0)
  {
    r := UnmarshalLoop(Declared, Store, data, m0);
  }

  // ---------------------------------------------------------------------
  // Round trip.

  lemma PieceRuns(m: TxResult, k: nat)
    ensures Runs(Declared, Piece(m, k))
  {
  }

  lemma {:induction false} TailRuns(m: TxResult, k: nat)
    ensures Runs(Declared, Tail(m, k))
    decreases 7 - k
  {
    if k <= 6 {
      TailRuns(m, k + 1);
      PieceRuns(m, k);
      RunsAppend(Declared, Piece(m, k), Tail(m, k + 1));
    }
  }

  /** The logs field read onto any value merges the logs it encodes. */
  lemma StoreLogs(p: TxResult, t: TransactionLogsCodec.TransactionLogs)
    requires |TransactionLogsCodec.Encode(t)| < TWO_63
    ensures Store(p, TX_LOGS, Bytes(TransactionLogsCodec.Encode(t)))
         == Ok(p.(txLogs := TransactionLogsCodec.Merge(p.txLogs, t)))
  {
    TransactionLogsCodec.DecodeOnto(p.txLogs, t);
  }

  /** Reading the block of field `k` takes the partial merge one field
      further. */
  lemma FoldPiece(a: TxResult, b: TxResult, k: nat, rest: seq<Field>)
    requires 1 <= k <= 6 && |TransactionLogsCodec.Encode(b.txLogs)| < TWO_63
    ensures Fold(Declared, Store, Partial(a, b, k), Piece(b, k) + rest)
         == Fold(Declared, Store, Partial(a, b, k + 1), rest)
  {
    var p := Partial(a, b, k);
    if k == 3 {
      StoreLogs(p, b.txLogs);
    }
    FoldStep(Declared, Store, p, Piece(b, k), rest, Partial(a, b, k + 1));
  }

  lemma {:induction false} FoldTail(a: TxResult, b: TxResult, k: nat)
    requires 1 <= k && |TransactionLogsCodec.Encode(b.txLogs)| < TWO_63
    ensures Fold(Declared, Store, Partial(a, b, k), Tail(b, k)) == Ok(Merge(a, b))
    decreases 7 - k
  {
    if k <= 6 {
      FoldPiece(a, b, k, Tail(b, k + 1));
      FoldTail(a, b, k + 1);
    }
  }

  lemma FoldOnto(a: TxResult, b: TxResult)
    requires |TransactionLogsCodec.Encode(b.txLogs)| < TWO_63
    ensures Fold(Declared, Store, a, Fields(b)) == Ok(Merge(a, b))
  {
    FoldTail(a, b, CONTRACT_ADDRESS);
  }

  /** The embedded logs of an encoding that fits fit as well. */
  lemma LogsBound(m: TxResult)
    requires |Encode(m)| < TWO_63
    ensures |TransactionLogsCodec.Encode(m.txLogs)| < TWO_63
  {
    TailSplit(m, TX_LOGS);
    ConcatOne(Field(TX_LOGS, BytesP(TransactionLogsCodec.Encode(m.txLogs))));
    FieldLength(TX_LOGS, TransactionLogsCodec.Encode(m.txLogs));
  }

  lemma DecodeOnto(a: TxResult, b: TxResult)
    requires |Encode(b)| < TWO_63
    ensures Decode(Encode(b), a) == Ok(Merge(a, b))
  {
    TailRuns(b, CONTRACT_ADDRESS);
    DecodeConcat(Declared, Store, a, Fields(b));
    LogsBound(b);
    FoldOnto(a, b);
  }

  lemma RoundTrip(m: TxResult)
    requires |Encode(m)| < TWO_63
    ensures Decode(Encode(m), Default) == Ok(m)
  {
    DecodeOnto(Default, m);
    MergeDefault(m);
  }

  lemma MergeDefault(m: TxResult)
    ensures Merge(Default, m) == m
  {
    TransactionLogsCodec.MergeDefault(m.txLogs);
  }
}
