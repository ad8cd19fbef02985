/** `TransactionLogs` (evm.pb.go, the logs of one transaction): the hash,
    field 1, and the logs, a repeated embedded `Log` message, field 2. */
module TransactionLogsCodec {
  import opened Errors
  import opened Varint
  import opened Wire
  import opened Decoding
  import opened Encoding
  import LogCodec

  datatype TransactionLogs = TransactionLogs(hash: seq<Byte>, logs: seq<LogCodec.Log>)

  const Default := TransactionLogs([], [])

  const HASH: nat := 1
  const LOGS: nat := 2

  /** The encodings of the logs, each the payload of one field 2. */
  function Bodies(ls: seq<LogCodec.Log>): (r: seq<seq<Byte>>)
    ensures |r| == |ls|
  {
    if ls == [] then [] else [LogCodec.Encode(ls[0])] + Bodies(ls[1..])
  }

  lemma {:induction false} BodyAt(ls: seq<LogCodec.Log>, k: nat)
    requires k < |ls|
    ensures Bodies(ls)[k] == LogCodec.Encode(ls[k])
    decreases k
  {
    if k > 0 {
      BodyAt(ls[1..], k - 1);
    }
  }

  function Fields(m: TransactionLogs): seq<Field> {
    StrField(HASH, m.hash) + RepeatedField(LOGS, Bodies(m.logs))
  }

  function Encode(m: TransactionLogs): seq<Byte> {
    Concat(Fields(m))
  }

  /** Reading `b` onto `a`: a set hash replaces `a`'s, the logs are
      appended to `a`'s. */
  function Merge(a: TransactionLogs, b: TransactionLogs): TransactionLogs {
    TransactionLogs(if |b.hash| > 0 then b.hash else a.hash, a.logs + b.logs)
  }

  method Size(m: TransactionLogs) returns (n: nat)
    requires |Encode(m)| < TWO_63
    ensures n == |Encode(m)|
  {
    ghost var bodies := Bodies(m.logs);
    ConcatAppend(StrField(HASH, m.hash), RepeatedField(LOGS, bodies));
    n := StrLen(HASH, m.hash, 1);
    var k := 0;
    while k < |m.logs|
      invariant k <= |m.logs|
      invariant n == |Concat(StrField(HASH, m.hash))| + |Concat(RepeatedField(LOGS, bodies[..k]))|
    {
      RepeatedGrowSize(LOGS, bodies, k);
      BodyAt(m.logs, k);
      var l := LogCodec.Size(m.logs[k]);
      n := n + 1 + l + Sov(l);
      k := k + 1;
    }
    assert bodies[..k] == bodies;
  }

  method MarshalToSizedBuffer(buf: array<Byte>, end: nat, m: TransactionLogs) returns (n: nat)
    requires |Encode(m)| <= end <= buf.Length < TWO_63
    modifies buf
    ensures n == |Encode(m)|
    ensures Filled(buf[..], old(buf[..]), end - n, end, Encode(m))
  {
    ghost var orig := buf[..];
    ghost var parts := LogSuffixes(m.logs);
    ConcatAppend(StrField(HASH, m.hash), RepeatedField(LOGS, Bodies(m.logs)));
    FilledEmpty(orig, end);
    var i := end;
    i := PutLogs(buf, i, m.logs, parts, orig, end, []);
    assert parts[0] + [] == parts[0];
    i := PutString(buf, i, HASH, m.hash, orig, end, parts[0]);
    n := end - i;
  }

  /** The encoded logs from log `k` on, for every `k`: each is log `k`'s
      field followed by the next. */
  lemma LogSuffixes(ls: seq<LogCodec.Log>) returns (parts: seq<seq<Byte>>)
    ensures |parts| == |ls| + 1 && parts[|ls|] == []
    ensures parts[0] == Concat(RepeatedField(LOGS, Bodies(ls)))
    ensures forall k {:trigger ls[k]} :: 0 <= k < |ls| ==>
      parts[k] == FieldBytes(Field(LOGS, BytesP(LogCodec.Encode(ls[k])))) + parts[k + 1]
    ensures forall k :: 0 <= k <= |ls| ==> |parts[k]| <= |parts[0]|
  {
    var bodies := Bodies(ls);
    parts := RepeatedSuffixes(LOGS, bodies);
    forall k | 0 <= k < |ls|
      ensures parts[k] == FieldBytes(Field(LOGS, BytesP(LogCodec.Encode(ls[k])))) + parts[k + 1]
    {
      assert parts[k] == FieldBytes(Field(LOGS, BytesP(bodies[k]))) + parts[k + 1];
      BodyAt(ls, k);
    }
  }

  /** The logs from the last to the first, each marshalled by its own
      MarshalToSizedBuffer just below the cursor, then given its length and
      tag; `parts[k]` is the encoding of the logs from `k` on. */
  method PutLogs(buf: array<Byte>, i: nat, ls: seq<LogCodec.Log>, ghost parts: seq<seq<Byte>>,
                 ghost orig: seq<Byte>, ghost end: nat, ghost content: seq<Byte>) returns (j: nat)
    requires |parts| == |ls| + 1 && parts[|ls|] == []
    requires forall k {:trigger ls[k]} :: 0 <= k < |ls| ==>
      parts[k] == FieldBytes(Field(LOGS, BytesP(LogCodec.Encode(ls[k])))) + parts[k + 1]
    requires forall k :: 0 <= k <= |ls| ==> |parts[k]| <= |parts[0]|
    requires Filled(buf[..], orig, i, end, content) && buf.Length < TWO_63
    requires |parts[0]| <= i
    modifies buf
    ensures j == i - |parts[0]|
    ensures Filled(buf[..], orig, j, end, parts[0] + content)
  {
    j := i;
    var k := |ls|;
    assert parts[k] + content == content;
    while k > 0
      invariant k <= |ls|
      invariant j + |parts[k]| == i
      invariant Filled(buf[..], orig, j, end, parts[k] + content)
    {
      ghost var rest := parts[k];
      k := k - 1;
      assert parts[k] == FieldBytes(Field(LOGS, BytesP(LogCodec.Encode(ls[k])))) + rest;
      Assoc(FieldBytes(Field(LOGS, BytesP(LogCodec.Encode(ls[k])))), rest, content);
      j := PutLog(buf, j, ls[k], orig, end, rest + content);
    }
  }

  /** One log: its own MarshalToSizedBuffer just below the cursor, then
      its length and tag. */
  method PutLog(buf: array<Byte>, i: nat, l: LogCodec.Log,
                ghost orig: seq<Byte>, ghost end: nat, ghost content: seq<Byte>) returns (j: nat)
    requires Filled(buf[..], orig, i, end, content) && buf.Length < TWO_63
    requires |FieldBytes(Field(LOGS, BytesP(LogCodec.Encode(l))))| <= i
    modifies buf
    ensures j == i - |FieldBytes(Field(LOGS, BytesP(LogCodec.Encode(l))))|
    ensures Filled(buf[..], orig, j, end, FieldBytes(Field(LOGS, BytesP(LogCodec.Encode(l)))) + content)
  {
    ghost var body := LogCodec.Encode(l);
    FieldLength(LOGS, body);
    ghost var before := buf[..];
    var size := LogCodec.MarshalToSizedBuffer(buf, i, l);
    j := PutEmbedded(buf, i, LOGS, size, body, before, orig, end, content);
  }

  method Marshal(m: TransactionLogs) returns (data: seq<Byte>)
    requires |Encode(m)| < TWO_63
    ensures data == Encode(m)
  {
    var size := Size(m);
    var buf := new Byte[size];
    ghost var before := buf[..];
    var n := MarshalToSizedBuffer(buf, size, m);
    FilledWhole(buf[..], before, n, Encode(m));
    data := buf[..n];
  }

  function Declared(num: int): Decl {
    if num == 1 || num == 2 then Delimited else Unknown
  }

  /** Field 2 appends a new log, read by Log's own Unmarshal from its
      defaults; an error there is the error of the whole Unmarshal. */
  function Store(m: TransactionLogs, num: int, v: Value): Result<TransactionLogs> {
    if num == 1 then Ok(m.(hash := AsBytes(v)))
    else if num == 2 then
      var l :- LogCodec.Decode(AsBytes(v), LogCodec.Default);
      Ok(m.(logs := m.logs + [l]))
    else Ok(m)
  }

  function Decode(data: seq<Byte>, m0: TransactionLogs): Result<TransactionLogs> {
    DecodeFrom(Declared, Store, data, 0, m0)
  }

  method Unmarshal(data: seq<Byte>, m0: TransactionLogs) returns (r: Result<TransactionLogs>)
    ensures r == Decode(data, m0)
  {
    r := UnmarshalLoop(Declared, Store, data, m0);
  }

  // ---------------------------------------------------------------------
  // Round trip.

  lemma FieldsRun(m: TransactionLogs)
    ensures Runs(Declared, Fields(m))
  {
    RunsAppend(Declared, StrField(HASH, m.hash), RepeatedField(LOGS, Bodies(m.logs)));
  }

  function Append(m: TransactionLogs, l: LogCodec.Log): TransactionLogs {
    m.(logs := m.logs + [l])
  }

  lemma {:induction false} AppendAll(m: TransactionLogs, ls: seq<LogCodec.Log>)
    ensures AddAll(Append, m, ls) == m.(logs := m.logs + ls)
    decreases |ls|
  {
    if ls != [] {
      AppendAll(Append(m, ls[0]), ls[1..]);
      assert m.logs + [ls[0]] + ls[1..] == m.logs + ls;
    }
  }

  /** Each log field appends the log it encodes, in order. */
  lemma FoldLogs(m: TransactionLogs, ls: seq<LogCodec.Log>)
    requires forall k :: 0 <= k < |ls| ==> |LogCodec.Encode(ls[k])| < TWO_63
    ensures Fold(Declared, Store, m, RepeatedField(LOGS, Bodies(ls))) == Ok(m.(logs := m.logs + ls))
  {
    StoresLogs(ls);
    FoldAdds(Declared, Store, m, LOGS, Append, Bodies(ls), ls);
    AppendAll(m, ls);
  }

  /** A log field read onto any value appends the log it encodes. */
  lemma StoresLogs(ls: seq<LogCodec.Log>)
    requires forall k :: 0 <= k < |ls| ==> |LogCodec.Encode(ls[k])| < TWO_63
    ensures forall k, r :: 0 <= k < |ls| ==> Store(r, LOGS, Bytes(Bodies(ls)[k])) == Ok(Append(r, ls[k]))
  {
    forall k, r | 0 <= k < |ls|
      ensures Store(r, LOGS, Bytes(Bodies(ls)[k])) == Ok(Append(r, ls[k]))
    {
      BodyAt(ls, k);
      LogCodec.RoundTrip(ls[k]);
    }
  }

  lemma FoldOnto(a: TransactionLogs, b: TransactionLogs)
    requires forall k :: 0 <= k < |b.logs| ==> |LogCodec.Encode(b.logs[k])| < TWO_63
    ensures Fold(Declared, Store, a, Fields(b)) == Ok(Merge(a, b))
  {
    var a1 := a.(hash := if |b.hash| > 0 then b.hash else a.hash);
    FoldStep(Declared, Store, a, StrField(HASH, b.hash), RepeatedField(LOGS, Bodies(b.logs)), a1);
    FoldLogs(a1, b.logs);
  }

  /** The logs of an encoding that fits are themselves encodings that fit. */
  lemma LogsBound(m: TransactionLogs)
    requires |Encode(m)| < TWO_63
    ensures forall k :: 0 <= k < |m.logs| ==> |LogCodec.Encode(m.logs[k])| < TWO_63
  {
    ConcatAppend(StrField(HASH, m.hash), RepeatedField(LOGS, Bodies(m.logs)));
    forall k | 0 <= k < |m.logs|
      ensures |LogCodec.Encode(m.logs[k])| < TWO_63
    {
      RepeatedBound(LOGS, Bodies(m.logs), k);
      BodyAt(m.logs, k);
    }
  }

  lemma DecodeOnto(a: TransactionLogs, b: TransactionLogs)
    requires |Encode(b)| < TWO_63
    ensures Decode(Encode(b), a) == Ok(Merge(a, b))
  {
    FieldsRun(b);
    DecodeConcat(Declared, Store, a, Fields(b));
    LogsBound(b);
    FoldOnto(a, b);
  }

  lemma RoundTrip(m: TransactionLogs)
    requires |Encode(m)| < TWO_63
    ensures Decode(Encode(m), Default) == Ok(m)
  {
    DecodeOnto(Default, m);
    MergeDefault(m);
  }

  lemma MergeDefault(m: TransactionLogs)
    ensures Merge(Default, m) == m
  {
    assert [] + m.logs == m.logs;
  }
}
