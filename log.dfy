/** `Log` (evm.pb.go, an Ethereum event log): nine fields, numbered in the
    order of the struct. */
module LogCodec {
  import opened Errors
  import opened Varint
  import opened Wire
  import opened Decoding
  import opened Encoding

  datatype Log = Log(
    address: seq<Byte>,
    topics: seq<seq<Byte>>,
    data: seq<Byte>,
    blockNumber: U64,
    txHash: seq<Byte>,
    txIndex: U64,
    blockHash: seq<Byte>,
    index: U64,
    removed: bool)

  const Default := Log([], [], [], 0, [], 0, [], 0, false)

  /** The field numbers. */
  const ADDRESS: nat := 1
  const TOPICS: nat := 2
  const DATA: nat := 3
  const BLOCK_NUMBER: nat := 4
  const TX_HASH: nat := 5
  const TX_INDEX: nat := 6
  const BLOCK_HASH: nat := 7
  const INDEX: nat := 8
  const REMOVED: nat := 9

  /** The block of fields that field number `k` contributes. */
  function Piece(m: Log, k: nat): seq<Field> {
    match k
    case 1 => StrField(1, m.address)
    case 2 => RepeatedField(2, m.topics)
    case 3 => StrField(3, m.data)
    case 4 => UintField(4, m.blockNumber)
    case 5 => StrField(5, m.txHash)
    case 6 => UintField(6, m.txIndex)
    case 7 => StrField(7, m.blockHash)
    case 8 => UintField(8, m.index)
    case 9 => BoolField(9, m.removed)
    case _ => []
  }

  /** The blocks from field `k` on, in field order. */
  function Tail(m: Log, k: nat): seq<Field>
    decreases 10 - k
  {
    if k > 9 then [] else Piece(m, k) + Tail(m, k + 1)
  }

  /** The fields MarshalToSizedBuffer leaves in the buffer, front to back. */
  function Fields(m: Log): seq<Field> {
    Tail(m, ADDRESS)
  }

  function Encode(m: Log): seq<Byte> {
    Concat(Fields(m))
  }

  /** Reading `b` onto `a`: every field `b` sets replaces `a`'s, topics are
      appended, and a bool once true stays true. */
  function Merge(a: Log, b: Log): Log {
    Log(if |b.address| > 0 then b.address else a.address,
        a.topics + b.topics,
        if |b.data| > 0 then b.data else a.data,
        if b.blockNumber != 0 then b.blockNumber else a.blockNumber,
        if |b.txHash| > 0 then b.txHash else a.txHash,
        if b.txIndex != 0 then b.txIndex else a.txIndex,
        if |b.blockHash| > 0 then b.blockHash else a.blockHash,
        if b.index != 0 then b.index else a.index,
        a.removed || b.removed)
  }

  /** `a` once the fields of `b` numbered below `k` have been read onto it. */
  function Partial(a: Log, b: Log, k: nat): Log {
    var c := Merge(a, b);
    Log(if k > 1 then c.address else a.address,
        if k > 2 then c.topics else a.topics,
        if k > 3 then c.data else a.data,
        if k > 4 then c.blockNumber else a.blockNumber,
        if k > 5 then c.txHash else a.txHash,
        if k > 6 then c.txIndex else a.txIndex,
        if k > 7 then c.blockHash else a.blockHash,
        if k > 8 then c.index else a.index,
        if k > 9 then c.removed else a.removed)
  }

  /** The encoding from field `k` on: the block of field `k`, then the
      encoding from field `k + 1` on, no longer than the whole encoding. */
  lemma TailSplit(m: Log, k: nat)
    requires 1 <= k <= 9
    ensures Concat(Tail(m, k)) == Concat(Piece(m, k)) + Concat(Tail(m, k + 1))
    ensures |Concat(Tail(m, k))| <= |Encode(m)|
  {
    ConcatAppend(Piece(m, k), Tail(m, k + 1));
    TailBound(m, k);
  }

  lemma TailLength(m: Log, k: nat)
    requires 1 <= k <= 9
    ensures |Concat(Tail(m, k))| == |Concat(Piece(m, k))| + |Concat(Tail(m, k + 1))|
    ensures |Concat(Tail(m, k))| <= |Encode(m)|
  {
    TailSplit(m, k);
  }

  lemma {:induction false} TailBound(m: Log, k: nat)
    requires 1 <= k
    ensures |Concat(Tail(m, k))| <= |Encode(m)|
    decreases k
  {
    if 1 < k <= 10 {
      TailBound(m, k - 1);
      ConcatAppend(Piece(m, k - 1), Tail(m, k));
    }
  }

  method Size(m: Log) returns (n: nat)
    requires |Encode(m)| < TWO_63
    ensures n == |Encode(m)|
  {
    n := 0;
    var l: nat;
    TailLength(m, ADDRESS);
    l := PieceSize(m, ADDRESS);
    n := n + l;
    TailLength(m, TOPICS);
    l := PieceSize(m, TOPICS);
    n := n + l;
    TailLength(m, DATA);
    l := PieceSize(m, DATA);
    n := n + l;
    TailLength(m, BLOCK_NUMBER);
    l := PieceSize(m, BLOCK_NUMBER);
    n := n + l;
    TailLength(m, TX_HASH);
    l := PieceSize(m, TX_HASH);
    n := n + l;
    TailLength(m, TX_INDEX);
    l := PieceSize(m, TX_INDEX);
    n := n + l;
    TailLength(m, BLOCK_HASH);
    l := PieceSize(m, BLOCK_HASH);
    n := n + l;
    TailLength(m, INDEX);
    l := PieceSize(m, INDEX);
    n := n + l;
    TailLength(m, REMOVED);
    l := PieceSize(m, REMOVED);
    n := n + l;
  }

  /** The term Size adds for field `k`. */
  method PieceSize(m: Log, k: nat) returns (l: nat)
    requires 1 <= k <= 9 && |Concat(Piece(m, k))| < TWO_63
    ensures l == |Concat(Piece(m, k))|
  {
    match k
    case 1 => l := StrLen(1, m.address, 1);
    case 2 =>
      l := 0;
      if |m.topics| > 0 {
        l := RepeatedSize(2, m.topics);
      }
    case 3 => l := StrLen(3, m.data, 1);
    case 4 => l := UintLen(4, m.blockNumber);
    case 5 => l := StrLen(5, m.txHash, 1);
    case 6 => l := UintLen(6, m.txIndex);
    case 7 => l := StrLen(7, m.blockHash, 1);
    case 8 => l := UintLen(8, m.index);
    case 9 => l := BoolLen(9, m.removed);
  }

  method MarshalToSizedBuffer(buf: array<Byte>, end: nat, m: Log) returns (n: nat)
    requires |Encode(m)| <= end <= buf.Length < TWO_63
    modifies buf
    ensures n == |Encode(m)|
    ensures Filled(buf[..], old(buf[..]), end - n, end, Encode(m))
  {
    ghost var orig := buf[..];
    FilledEmpty(orig, end);
    var i := end;
    TailSplit(m, REMOVED);
    i := PutPiece(buf, i, m, REMOVED, orig, end);
    TailSplit(m, INDEX);
    i := PutPiece(buf, i, m, INDEX, orig, end);
    TailSplit(m, BLOCK_HASH);
    i := PutPiece(buf, i, m, BLOCK_HASH, orig, end);
    TailSplit(m, TX_INDEX);
    i := PutPiece(buf, i, m, TX_INDEX, orig, end);
    TailSplit(m, TX_HASH);
    i := PutPiece(buf, i, m, TX_HASH, orig, end);
    TailSplit(m, BLOCK_NUMBER);
    i := PutPiece(buf, i, m, BLOCK_NUMBER, orig, end);
    TailSplit(m, DATA);
    i := PutPiece(buf, i, m, DATA, orig, end);
    TailSplit(m, TOPICS);
    i := PutPiece(buf, i, m, TOPICS, orig, end);
    TailSplit(m, ADDRESS);
    i := PutPiece(buf, i, m, ADDRESS, orig, end);
    n := end - i;
  }

  /** The block that writes field `k` below `i`, in front of the fields
      after it. */
  method PutPiece(buf: array<Byte>, i: nat, m: Log, k: nat, ghost orig: seq<Byte>, ghost end: nat) returns (j: nat)
    requires 1 <= k <= 9 && i < TWO_63
    requires Filled(buf[..], orig, i, end, Concat(Tail(m, k + 1)))
    requires Concat(Tail(m, k)) == Concat(Piece(m, k)) + Concat(Tail(m, k + 1))
    requires |Concat(Piece(m, k))| <= i
    modifies buf
    ensures j == i - |Concat(Piece(m, k))|
    ensures Filled(buf[..], orig, j, end, Concat(Tail(m, k)))
  {
    ghost var content := Concat(Tail(m, k + 1));
    match k
    case 1 => j := PutString(buf, i, 1, m.address, orig, end, content);
    case 2 => j := PutRepeated(buf, i, 2, m.topics, orig, end, content);
    case 3 => j := PutString(buf, i, 3, m.data, orig, end, content);
    case 4 => j := PutUint(buf, i, 4, m.blockNumber, orig, end, content);
    case 5 => j := PutString(buf, i, 5, m.txHash, orig, end, content);
    case 6 => j := PutUint(buf, i, 6, m.txIndex, orig, end, content);
    case 7 => j := PutString(buf, i, 7, m.blockHash, orig, end, content);
    case 8 => j := PutUint(buf, i, 8, m.index, orig, end, content);
    case 9 => j := PutBool(buf, i, 9, m.removed, orig, end, content);
  }

  method Marshal(m: Log) returns (data: seq<Byte>)
    requires |Encode(m)| < TWO_63
    ensures data == Encode(m)
  {
    var size := Size(m);
    var buf := new Byte[size];
    ghost var before := buf[..];
    var n := MarshalToSizedBuffer(buf, size, m);
    FilledWhole(buf[..], before, n, Encode(m));
    data := buf[..n];
  }

  function Declared(num: int): Decl {
    if num == 1 || num == 2 || num == 3 || num == 5 || num == 7 then Delimited
    else if num == 4 || num == 6 || num == 8 || num == 9 then Scalar
    else Unknown
  }

  function Store(m: Log, num: int, v: Value): Result<Log> {
    match num
    case 1 => Ok(m.(address := AsBytes(v)))
    case 2 => Ok(m.(topics := m.topics + [AsBytes(v)]))
    case 3 => Ok(m.(data := AsBytes(v)))
    case 4 => Ok(m.(blockNumber := AsU64(v)))
    case 5 => Ok(m.(txHash := AsBytes(v)))
    case 6 => Ok(m.(txIndex := AsU64(v)))
    case 7 => Ok(m.(blockHash := AsBytes(v)))
    case 8 => Ok(m.(index := AsU64(v)))
    case 9 => Ok(m.(removed := AsU64(v) != 0))
    case _ => Ok(m)
  }

  function Decode(data: seq<Byte>, m0: Log): Result<Log> {
    DecodeFrom(Declared, Store, data, 0, m0)
  }

  method Unmarshal(data: seq<Byte>, m0: Log) returns (r: Result<Log>)
    ensures r == Decode(data, m0)
  {
    r := UnmarshalLoop(Declared, Store, data, m0);
  }

  // ---------------------------------------------------------------------
  // Round trip.

  lemma PieceRuns(m: Log, k: nat)
    ensures Runs(Declared, Piece(m, k))
  {
  }

  lemma {:induction false} TailRuns(m: Log, k: nat)
    ensures Runs(Declared, Tail(m, k))
    decreases 10 - k
  {
    if k <= 9 {
      TailRuns(m, k + 1);
      PieceRuns(m, k);
      RunsAppend(Declared, Piece(m, k), Tail(m, k + 1));
    }
  }

  /** Each topic field appends one topic, in order. */
  lemma {:induction false} FoldTopics(m: Log, ss: seq<seq<Byte>>)
    ensures Fold(Declared, Store, m, RepeatedField(TOPICS, ss)) == Ok(m.(topics := m.topics + ss))
    decreases |ss|
  {
    if ss == [] {
      assert m.topics + ss == m.topics;
    } else {
      var m1 := m.(topics := m.topics + [ss[0]]);
      TopicStep(m, ss);
      FoldTopics(m1, ss[1..]);
      assert m1.topics + ss[1..] == m.topics + ss;
    }
  }

  lemma TopicStep(m: Log, ss: seq<seq<Byte>>)
    requires ss != []
    ensures Fold(Declared, Store, m, RepeatedField(TOPICS, ss))
         == Fold(Declared, Store, m.(topics := m.topics + [ss[0]]), RepeatedField(TOPICS, ss[1..]))
  {
    FoldStep(Declared, Store, m, [Field(TOPICS, BytesP(ss[0]))], RepeatedField(TOPICS, ss[1..]),
             m.(topics := m.topics + [ss[0]]));
  }

  /** Reading the block of field `k` takes the partial merge one field
      further. */
  lemma FoldPiece(a: Log, b: Log, k: nat, rest: seq<Field>)
    requires 1 <= k <= 9
    ensures Fold(Declared, Store, Partial(a, b, k), Piece(b, k) + rest)
         == Fold(Declared, Store, Partial(a, b, k + 1), rest)
  {
    var p := Partial(a, b, k);
    if k == 2 {
      FoldTopics(p, b.topics);
      FoldThen(Declared, Store, p, Piece(b, k), rest, Partial(a, b, k + 1));
    } else {
      FoldStep(Declared, Store, p, Piece(b, k), rest, Partial(a, b, k + 1));
    }
  }

  lemma {:induction false} FoldTail(a: Log, b: Log, k: nat)
    requires 1 <= k
    ensures Fold(Declared, Store, Partial(a, b, k), Tail(b, k)) == Ok(Merge(a, b))
    decreases 10 - k
  {
    if k <= 9 {
      FoldPiece(a, b, k, Tail(b, k + 1));
      FoldTail(a, b, k + 1);
    }
  }

  lemma FoldOnto(a: Log, b: Log)
    ensures Fold(Declared, Store, a, Fields(b)) == Ok(Merge(a, b))
  {
    FoldTail(a, b, ADDRESS);
  }

  lemma DecodeOnto(a: Log, b: Log)
    requires |Encode(b)| < TWO_63
    ensures Decode(Encode(b), a) == Ok(Merge(a, b))
  {
    TailRuns(b, ADDRESS);
    DecodeConcat(Declared, Store, a, Fields(b));
    FoldOnto(a, b);
  }

  lemma RoundTrip(m: Log)
    requires |Encode(m)| < TWO_63
    ensures Decode(Encode(m), Default) == Ok(m)
  {
    DecodeOnto(Default, m);
    assert [] + m.topics == m.topics;
  }
}
