/** `TraceConfig` (evm.pb.go, the options of a transaction trace): eleven
    fields, numbered 1 to 3, 5, 6 and 8 to 13, among them an int32 limit
    and an optional `ChainConfig` of fork-rule overrides. */
module TraceConfigCodec {
  import opened Errors
  import opened Varint
  import opened Wire
  import opened Decoding
  import opened Encoding
  import ChainConfigCodec

  datatype TraceConfig = TraceConfig(
    tracer: seq<Byte>,
    timeout: seq<Byte>,
    reexec: U64,
    disableStack: bool,
    disableStorage: bool,
    debug: bool,
    limit: I32,
    overrides: Option<ChainConfigCodec.ChainConfig>,
    enableMemory: bool,
    enableReturnData: bool,
    tracerJsonConfig: seq<Byte>)

  const Default := TraceConfig([], [], 0, false, false, false, 0, None, false, false, [])

  /** The position of each field's block in field order (not its field
      number: fields 4 and 7 do not exist). */
  const TRACER: nat := 1
  const TIMEOUT: nat := 2
  const REEXEC: nat := 3
  const DISABLE_STACK: nat := 4
  const DISABLE_STORAGE: nat := 5
  const DEBUG: nat := 6
  const LIMIT: nat := 7
  const OVERRIDES: nat := 8
  const ENABLE_MEMORY: nat := 9
  const ENABLE_RETURN_DATA: nat := 10
  const TRACER_JSON_CONFIG: nat := 11

  /** The overrides' field block: nothing for nil, else the configuration,
      written even when it holds only defaults. */
  function OverridesField(o: Option<ChainConfigCodec.ChainConfig>): seq<Field> {
    if o.Some? then [Field(10, BytesP(ChainConfigCodec.Encode(o.value)))] else []
  }

  /** The block of fields that the field at position `k` contributes; the
      limit is written as the varint of its sign-extended uint64 view. */
  function Piece(m: TraceConfig, k: nat): seq<Field> {
    match k
    case 1 => StrField(1, m.tracer)
    case 2 => StrField(2, m.timeout)
    case 3 => UintField(3, m.reexec)
    case 4 => BoolField(5, m.disableStack)
    case 5 => BoolField(6, m.disableStorage)
    case 6 => BoolField(8, m.debug)
    case 7 => UintField(9, U64Of(m.limit))
    case 8 => OverridesField(m.overrides)
    case 9 => BoolField(11, m.enableMemory)
    case 10 => BoolField(12, m.enableReturnData)
    case 11 => StrField(13, m.tracerJsonConfig)
    case _ => []
  }

  /** The blocks from position `k` on, in field order. */
  function Tail(m: TraceConfig, k: nat): seq<Field>
    decreases 12 - k
  {
    if k > 11 then [] else Piece(m, k) + Tail(m, k + 1)
  }

  /** The fields MarshalToSizedBuffer leaves in the buffer, front to back. */
  function Fields(m: TraceConfig): seq<Field> {
    Tail(m, TRACER)
  }

  function Encode(m: TraceConfig): seq<Byte> {
    Concat(Fields(m))
  }

  /** The overrides after reading `b`'s onto `a`'s: a nil `a` is first
      given an empty configuration. */
  function MergeOverrides(a: Option<ChainConfigCodec.ChainConfig>, b: Option<ChainConfigCodec.ChainConfig>)
    : Option<ChainConfigCodec.ChainConfig>
  {
    if b.None? then a
    else Some(ChainConfigCodec.Merge(if a.Some? then a.value else ChainConfigCodec.Default, b.value))
  }

  /** Reading `b` onto `a`: every field `b` sets replaces `a`'s, bools once
      true stay true, and the overrides are read onto `a`'s. */
  function Merge(a: TraceConfig, b: TraceConfig): TraceConfig {
    TraceConfig(if |b.tracer| > 0 then b.tracer else a.tracer,
                if |b.timeout| > 0 then b.timeout else a.timeout,
                if b.reexec != 0 then b.reexec else a.reexec,
                a.disableStack || b.disableStack,
                a.disableStorage || b.disableStorage,
                a.debug || b.debug,
                if b.limit != 0 then b.limit else a.limit,
                MergeOverrides(a.overrides, b.overrides),
                a.enableMemory || b.enableMemory,
                a.enableReturnData || b.enableReturnData,
                if |b.tracerJsonConfig| > 0 then b.tracerJsonConfig else a.tracerJsonConfig)
  }

  /** `a` once the blocks of `b` before position `k` have been read onto it. */
  function Partial(a: TraceConfig, b: TraceConfig, k: nat): TraceConfig {
    var c := Merge(a, b);
    TraceConfig(if k > 1 then c.tracer else a.tracer,
                if k > 2 then c.timeout else a.timeout,
                if k > 3 then c.reexec else a.reexec,
                if k > 4 then c.disableStack else a.disableStack,
                if k > 5 then c.disableStorage else a.disableStorage,
                if k > 6 then c.debug else a.debug,
                if k > 7 then c.limit else a.limit,
                if k > 8 then c.overrides else a.overrides,
                if k > 9 then c.enableMemory else a.enableMemory,
                if k > 10 then c.enableReturnData else a.enableReturnData,
                if k > 11 then c.tracerJsonConfig else a.tracerJsonConfig)
  }

  /** The encoding from position `k` on: the block at `k`, then the
      encoding from `k + 1` on, no longer than the whole encoding. */
  lemma TailSplit(m: TraceConfig, k: nat)
    requires 1 <= k <= 11
    ensures Concat(Tail(m, k)) == Concat(Piece(m, k)) + Concat(Tail(m, k + 1))
    ensures |Concat(Tail(m, k))| <= |Encode(m)|
  {
    ConcatAppend(Piece(m, k), Tail(m, k + 1));
    TailBound(m, k);
  }

  lemma TailLength(m: TraceConfig, k: nat)
    requires 1 <= k <= 11
    ensures |Concat(Tail(m, k))| == |Concat(Piece(m, k))| + |Concat(Tail(m, k + 1))|
    ensures |Concat(Tail(m, k))| <= |Encode(m)|
  {
    TailSplit(m, k);
  }

  lemma {:induction false} TailBound(m: TraceConfig, k: nat)
    requires 1 <= k
    ensures |Concat(Tail(m, k))| <= |Encode(m)|
    decreases k
  {
    if 1 < k <= 12 {
      TailBound(m, k - 1);
      ConcatAppend(Piece(m, k - 1), Tail(m, k));
    }
  }

  method Size(m: TraceConfig) returns (n: nat)
    requires |Encode(m)| < TWO_63
    ensures n == |Encode(m)|
  {
    n := SizeLow(m);
    var l := SizeHigh(m);
    n := n + l;
  }

  /** Size's terms for fields 1 to 8. */
  method SizeLow(m: TraceConfig) returns (n: nat)
    requires |Encode(m)| < TWO_63
    ensures n + |Concat(Tail(m, LIMIT))| == |Encode(m)|
  {
    n := 0;
    var l: nat;
    TailLength(m, TRACER);
    l := PieceSize(m, TRACER);
    n := n + l;
    TailLength(m, TIMEOUT);
    l := PieceSize(m, TIMEOUT);
    n := n + l;
    TailLength(m, REEXEC);
    l := PieceSize(m, REEXEC);
    n := n + l;
    TailLength(m, DISABLE_STACK);
    l := PieceSize(m, DISABLE_STACK);
    n := n + l;
    TailLength(m, DISABLE_STORAGE);
    l := PieceSize(m, DISABLE_STORAGE);
    n := n + l;
    TailLength(m, DEBUG);
    l := PieceSize(m, DEBUG);
    n := n + l;
  }

  /** Size's terms for fields 9 to 13. */
  method SizeHigh(m: TraceConfig) returns (n: nat)
    requires |Encode(m)| < TWO_63
    ensures n == |Concat(Tail(m, LIMIT))|
  {
    n := 0;
    var l: nat;
    TailLength(m, LIMIT);
    l := PieceSize(m, LIMIT);
    n := n + l;
    TailLength(m, OVERRIDES);
    l := PieceSize(m, OVERRIDES);
    n := n + l;
    TailLength(m, ENABLE_MEMORY);
    l := PieceSize(m, ENABLE_MEMORY);
    n := n + l;
    TailLength(m, ENABLE_RETURN_DATA);
    l := PieceSize(m, ENABLE_RETURN_DATA);
    n := n + l;
    TailLength(m, TRACER_JSON_CONFIG);
    l := PieceSize(m, TRACER_JSON_CONFIG);
    n := n + l;
  }

  /** The term Size adds for the field at position `k`; a negative limit
      costs the ten bytes of its sign-extended varint. */
  method PieceSize(m: TraceConfig, k: nat) returns (l: nat)
    requires 1 <= k <= 11 && |Concat(Piece(m, k))| < TWO_63
    ensures l == |Concat(Piece(m, k))|
  {
    match k
    case 1 => l := StrLen(1, m.tracer, 1);
    case 2 => l := StrLen(2, m.timeout, 1);
    case 3 => l := UintLen(3, m.reexec);
    case 4 => l := BoolLen(5, m.disableStack);
    case 5 => l := BoolLen(6, m.disableStorage);
    case 6 => l := BoolLen(8, m.debug);
    case 7 => l := UintLen(9, U64Of(m.limit));
    case 8 =>
      l := 0;
      if m.overrides.Some? {
        MsgSize(10, ChainConfigCodec.Encode(m.overrides.value));
        l := ChainConfigCodec.Size(m.overrides.value);
        l := 1 + l + Sov(l);
      }
    case 9 => l := BoolLen(11, m.enableMemory);
    case 10 => l := BoolLen(12, m.enableReturnData);
    case 11 => l := StrLen(13, m.tracerJsonConfig, 1);
  }

  method MarshalToSizedBuffer(buf: array<Byte>, end: nat, m: TraceConfig) returns (n: nat)
    requires |Encode(m)| <= end <= buf.Length < TWO_63
    modifies buf
    ensures n == |Encode(m)|
    ensures Filled(buf[..], old(buf[..]), end - n, end, Encode(m))
  {
    ghost var orig := buf[..];
    FilledEmpty(orig, end);
    var i := end;
    i := PutHigh(buf, i, m, orig, end);
    i := PutLow(buf, i, m, orig, end);
    n := end - i;
  }

  /** Fields 13 down to 9, behind the window's end. */
  method PutHigh(buf: array<Byte>, i: nat, m: TraceConfig, ghost orig: seq<Byte>, ghost end: nat)
      returns (j: nat)
    requires Filled(buf[..], orig, i, end, []) && |Encode(m)| <= i == end <= buf.Length < TWO_63
    modifies buf
    ensures j + |Concat(Tail(m, LIMIT))| == i
    ensures Filled(buf[..], orig, j, end, Concat(Tail(m, LIMIT)))
  {
    j := i;
    TailSplit(m, TRACER_JSON_CONFIG);
    j := PutPiece(buf, j, m, TRACER_JSON_CONFIG, orig, end);
    TailSplit(m, ENABLE_RETURN_DATA);
    j := PutPiece(buf, j, m, ENABLE_RETURN_DATA, orig, end);
    TailSplit(m, ENABLE_MEMORY);
    j := PutPiece(buf, j, m, ENABLE_MEMORY, orig, end);
    TailSplit(m, OVERRIDES);
    j := PutPiece(buf, j, m, OVERRIDES, orig, end);
    TailSplit(m, LIMIT);
    j := PutPiece(buf, j, m, LIMIT, orig, end);
  }

  /** Fields 8 down to 1, in front of the fields after them. */
  method PutLow(buf: array<Byte>, i: nat, m: TraceConfig, ghost orig: seq<Byte>, ghost end: nat)
      returns (j: nat)
    requires Filled(buf[..], orig, i, end, Concat(Tail(m, LIMIT)))
    requires i + |Concat(Tail(m, LIMIT))| == end && |Encode(m)| <= end <= buf.Length < TWO_63
    modifies buf
    ensures j + |Encode(m)| == end
    ensures Filled(buf[..], orig, j, end, Encode(m))
  {
    j := i;
    TailSplit(m, DEBUG);
    j := PutPiece(buf, j, m, DEBUG, orig, end);
    TailSplit(m, DISABLE_STORAGE);
    j := PutPiece(buf, j, m, DISABLE_STORAGE, orig, end);
    TailSplit(m, DISABLE_STACK);
    j := PutPiece(buf, j, m, DISABLE_STACK, orig, end);
    TailSplit(m, REEXEC);
    j := PutPiece(buf, j, m, REEXEC, orig, end);
    TailSplit(m, TIMEOUT);
    j := PutPiece(buf, j, m, TIMEOUT, orig, end);
    TailSplit(m, TRACER);
    j := PutPiece(buf, j, m, TRACER, orig, end);
  }

  /** The block that writes the field at position `k` below `i`, in front
      of the fields after it. */
  method PutPiece(buf: array<Byte>, i: nat, m: TraceConfig, k: nat, ghost orig: seq<Byte>, ghost end: nat)
      returns (j: nat)
    requires 1 <= k <= 11 && i <= buf.Length < TWO_63
    requires Filled(buf[..], orig, i, end, Concat(Tail(m, k + 1)))
    requires Concat(Tail(m, k)) == Concat(Piece(m, k)) + Concat(Tail(m, k + 1))
    requires |Concat(Piece(m, k))| <= i
    modifies buf
    ensures j == i - |Concat(Piece(m, k))|
    ensures Filled(buf[..], orig, j, end, Concat(Tail(m, k)))
  {
    ghost var content := Concat(Tail(m, k + 1));
    match k
    case 1 => j := PutString(buf, i, 1, m.tracer, orig, end, content);
    case 2 => j := PutString(buf, i, 2, m.timeout, orig, end, content);
    case 3 => j := PutUint(buf, i, 3, m.reexec, orig, end, content);
    case 4 => j := PutBool(buf, i, 5, m.disableStack, orig, end, content);
    case 5 => j := PutBool(buf, i, 6, m.disableStorage, orig, end, content);
    case 6 => j := PutBool(buf, i, 8, m.debug, orig, end, content);
    case 7 => j := PutUint(buf, i, 9, U64Of(m.limit), orig, end, content);
    case 8 => j := PutOverridesField(buf, i, m.overrides, orig, end, content);
    case 9 => j := PutBool(buf, i, 11, m.enableMemory, orig, end, content);
    case 10 => j := PutBool(buf, i, 12, m.enableReturnData, orig, end, content);
    case 11 => j := PutString(buf, i, 13, m.tracerJsonConfig, orig, end, content);
  }

  /** `if m.Overrides != nil { ... }`. */
  method PutOverridesField(buf: array<Byte>, i: nat, o: Option<ChainConfigCodec.ChainConfig>,
                           ghost orig: seq<Byte>, ghost end: nat, ghost content: seq<Byte>) returns (j: nat)
    requires Filled(buf[..], orig, i, end, content) && buf.Length < TWO_63
    requires |Concat(OverridesField(o))| <= i
    modifies buf
    ensures j == i - |Concat(OverridesField(o))|
    ensures Filled(buf[..], orig, j, end, Concat(OverridesField(o)) + content)
  {
    j := i;
    if o.Some? {
      ConcatOne(Field(10, BytesP(ChainConfigCodec.Encode(o.value))));
      j := PutOverrides(buf, i, o.value, ChainConfigCodec.Encode(o.value), orig, end, content);
    }
  }

  /** Non-nil overrides, whose encoding is `body`: their own
      MarshalToSizedBuffer into the buffer cut at the cursor, then their
      length and tag. */
  method PutOverrides(buf: array<Byte>, i: nat, c: ChainConfigCodec.ChainConfig, ghost body: seq<Byte>,
                      ghost orig: seq<Byte>, ghost end: nat, ghost content: seq<Byte>) returns (j: nat)
    requires body == ChainConfigCodec.Encode(c)
    requires Filled(buf[..], orig, i, end, content) && buf.Length < TWO_63
    requires |FieldBytes(Field(10, BytesP(body)))| <= i
    modifies buf
    ensures j == i - |FieldBytes(Field(10, BytesP(body)))|
    ensures Filled(buf[..], orig, j, end, FieldBytes(Field(10, BytesP(body))) + content)
  {
    FieldLength(10, body);
    ghost var before := buf[..];
    var size := ChainConfigCodec.MarshalToSizedBuffer(buf, i, c);
    j := PutEmbedded(buf, i, 10, size, body, before, orig, end, content);
  }

  method Marshal(m: TraceConfig) returns (data: seq<Byte>)
    requires |Encode(m)| < TWO_63
    ensures data == Encode(m)
  {
    var size := Size(m);
    var buf := new Byte[size];
    ghost var before := buf[..];
    var n := MarshalToSizedBuffer(buf, size, m);
    FilledWhole(buf[..], before, n, Encode(m));
    data := buf[..n];
  }

  function Declared(num: int): Decl {
    if num == 1 || num == 2 || num == 10 || num == 13 then Delimited
    else if num == 3 || num == 5 || num == 6 || 8 <= num <= 9 || num == 11 || num == 12 then Scalar
    else Unknown
  }

  /** The limit keeps the low 32 bits of its varint; field 10 gives nil
      overrides an empty configuration, then reads onto it with the
      configuration's own Unmarshal. */
  function Store(m: TraceConfig, num: int, v: Value): Result<TraceConfig> {
    match num
    case 1 => Ok(m.(tracer := AsBytes(v)))
    case 2 => Ok(m.(timeout := AsBytes(v)))
    case 3 => Ok(m.(reexec := AsU64(v)))
    case 5 => Ok(m.(disableStack := AsU64(v) != 0))
    case 6 => Ok(m.(disableStorage := AsU64(v) != 0))
    case 8 => Ok(m.(debug := AsU64(v) != 0))
    case 9 => Ok(m.(limit := I32Of(AsU64(v))))
    case 10 =>
      var c :- ChainConfigCodec.Decode(AsBytes(v),
                                       if m.overrides.Some? then m.overrides.value else ChainConfigCodec.Default);
      Ok(m.(overrides := Some(c)))
    case 11 => Ok(m.(enableMemory := AsU64(v) != 0))
    case 12 => Ok(m.(enableReturnData := AsU64(v) != 0))
    case 13 => Ok(m.(tracerJsonConfig := AsBytes(v)))
    case _ => Ok(m)
  }

  function Decode(data: seq<Byte>, m0: TraceConfig): Result<TraceConfig> {
    DecodeFrom(Declared, Store, data, 0, m0)
  }

  method Unmarshal(data: seq<Byte>, m0: TraceConfig) returns (r: Result<TraceConfig>)
    ensures r == Decode(data, m0)
  {
    r := UnmarshalLoop(Declared, Store, data, m0);
  }

  // ---------------------------------------------------------------------
  // Round trip.

  lemma PieceRuns(m: TraceConfig, k: nat)
    ensures Runs(Declared, Piece(m, k))
  {
    match k
    case 1 => StrRuns(1, m.tracer);
    case 2 => StrRuns(2, m.timeout);
    case 3 => ScalarRuns(3, m.reexec, false);
    case 4 => ScalarRuns(5, 0, m.disableStack);
    case 5 => ScalarRuns(6, 0, m.disableStorage);
    case 6 => ScalarRuns(8, 0, m.debug);
    case 7 => ScalarRuns(9, U64Of(m.limit), false);
    case 8 => OverridesRuns(m.overrides);
    case 9 => ScalarRuns(11, 0, m.enableMemory);
    case 10 => ScalarRuns(12, 0, m.enableReturnData);
    case 11 => StrRuns(13, m.tracerJsonConfig);
    case _ =>
  }

  lemma StrRuns(num: nat, s: seq<Byte>)
    requires num == 1 || num == 2 || num == 13
    ensures Runs(Declared, StrField(num, s))
  {
  }

  lemma ScalarRuns(num: nat, v: U64, b: bool)
    requires num == 3 || num == 5 || num == 6 || num == 8 || num == 9 || num == 11 || num == 12
    ensures Runs(Declared, UintField(num, v)) && Runs(Declared, BoolField(num, b))
  {
  }

  lemma OverridesRuns(o: Option<ChainConfigCodec.ChainConfig>)
    ensures Runs(Declared, OverridesField(o))
  {
  }

  lemma {:induction false} TailRuns(m: TraceConfig, k: nat)
    ensures Runs(Declared, Tail(m, k))
    decreases 12 - k
  {
    if k <= 11 {
      TailRuns(m, k + 1);
      PieceRuns(m, k);
      RunsAppend(Declared, Piece(m, k), Tail(m, k + 1));
    }
  }

  /** Reading the block at position `k` takes the partial merge one field
      further. */
  lemma FoldPiece(a: TraceConfig, b: TraceConfig, k: nat, rest: seq<Field>)
    requires 1 <= k <= 11
    requires b.overrides.Some? ==> |ChainConfigCodec.Encode(b.overrides.value)| < TWO_63
    ensures Fold(Declared, Store, Partial(a, b, k), Piece(b, k) + rest)
         == Fold(Declared, Store, Partial(a, b, k + 1), rest)
  {
    if k == LIMIT {
      FoldLimit(a, b, rest);
    } else if k == OVERRIDES {
      FoldOverrides(a, b, rest);
    } else if k < REEXEC {
      FoldStrings(a, b, k, rest);
    } else if k < DISABLE_STORAGE {
      FoldLow(a, b, k, rest);
    } else if k < LIMIT {
      FoldMid(a, b, k, rest);
    } else if k < TRACER_JSON_CONFIG {
      FoldHigh(a, b, k, rest);
    } else {
      FoldStep(Declared, Store, Partial(a, b, k), Piece(b, k), rest, Partial(a, b, k + 1));
    }
  }

  // FoldStrings, FoldLow, FoldMid and FoldHigh state the same one-field
  // step of the fold; they are split by field range only so that each
  // proof stays within the solver's budget.

  /** The tracer and the timeout. */
  lemma FoldStrings(a: TraceConfig, b: TraceConfig, k: nat, rest: seq<Field>)
    requires 1 <= k < REEXEC
    ensures Fold(Declared, Store, Partial(a, b, k), Piece(b, k) + rest)
         == Fold(Declared, Store, Partial(a, b, k + 1), rest)
  {
    FoldStep(Declared, Store, Partial(a, b, k), Piece(b, k), rest, Partial(a, b, k + 1));
  }

  /** The re-execution depth and the stack flag. */
  lemma FoldLow(a: TraceConfig, b: TraceConfig, k: nat, rest: seq<Field>)
    requires REEXEC <= k < DISABLE_STORAGE
    ensures Fold(Declared, Store, Partial(a, b, k), Piece(b, k) + rest)
         == Fold(Declared, Store, Partial(a, b, k + 1), rest)
  {
    FoldStep(Declared, Store, Partial(a, b, k), Piece(b, k), rest, Partial(a, b, k + 1));
  }

  /** The storage and debug flags. */
  lemma FoldMid(a: TraceConfig, b: TraceConfig, k: nat, rest: seq<Field>)
    requires DISABLE_STORAGE <= k < LIMIT
    ensures Fold(Declared, Store, Partial(a, b, k), Piece(b, k) + rest)
         == Fold(Declared, Store, Partial(a, b, k + 1), rest)
  {
    FoldStep(Declared, Store, Partial(a, b, k), Piece(b, k), rest, Partial(a, b, k + 1));
  }

  /** The memory and return-data flags. */
  lemma FoldHigh(a: TraceConfig, b: TraceConfig, k: nat, rest: seq<Field>)
    requires ENABLE_MEMORY <= k < TRACER_JSON_CONFIG
    ensures Fold(Declared, Store, Partial(a, b, k), Piece(b, k) + rest)
         == Fold(Declared, Store, Partial(a, b, k + 1), rest)
  {
    FoldStep(Declared, Store, Partial(a, b, k), Piece(b, k), rest, Partial(a, b, k + 1));
  }

  /** The limit: sign-extending on the way out and truncating on the way
      in gives it back. */
  lemma FoldLimit(a: TraceConfig, b: TraceConfig, rest: seq<Field>)
    ensures Fold(Declared, Store, Partial(a, b, LIMIT), Piece(b, LIMIT) + rest)
         == Fold(Declared, Store, Partial(a, b, OVERRIDES), rest)
  {
    I32RoundTrip(b.limit);
    FoldStep(Declared, Store, Partial(a, b, LIMIT), Piece(b, LIMIT), rest, Partial(a, b, OVERRIDES));
  }

  /** Non-nil overrides are read onto the configuration already there, or
      onto an empty one. */
  lemma FoldOverrides(a: TraceConfig, b: TraceConfig, rest: seq<Field>)
    requires b.overrides.Some? ==> |ChainConfigCodec.Encode(b.overrides.value)| < TWO_63
    ensures Fold(Declared, Store, Partial(a, b, OVERRIDES), Piece(b, OVERRIDES) + rest)
         == Fold(Declared, Store, Partial(a, b, ENABLE_MEMORY), rest)
  {
    OverridesStep(a, b);
    if b.overrides.Some? {
      FoldSomeOverrides(a, b, rest);
    } else {
      assert Piece(b, OVERRIDES) == [];
      FoldStep(Declared, Store, Partial(a, b, OVERRIDES), [], rest, Partial(a, b, ENABLE_MEMORY));
    }
  }

  /** Across the overrides' position the partial merge changes only the
      overrides. */
  lemma OverridesStep(a: TraceConfig, b: TraceConfig)
    ensures Partial(a, b, OVERRIDES).overrides == a.overrides
    ensures Partial(a, b, ENABLE_MEMORY)
         == Partial(a, b, OVERRIDES).(overrides := MergeOverrides(a.overrides, b.overrides))
  {
  }

  lemma FoldSomeOverrides(a: TraceConfig, b: TraceConfig, rest: seq<Field>)
    requires b.overrides.Some? && |ChainConfigCodec.Encode(b.overrides.value)| < TWO_63
    ensures Fold(Declared, Store, Partial(a, b, OVERRIDES), Piece(b, OVERRIDES) + rest)
         == Fold(Declared, Store, Partial(a, b, ENABLE_MEMORY), rest)
  {
    var p := Partial(a, b, OVERRIDES);
    var c := b.overrides.value;
    var f := Field(10, BytesP(ChainConfigCodec.Encode(c)));
    OverridesStep(a, b);
    StoreOverrides(p, c);
    assert Piece(b, OVERRIDES) == [f];
    assert Apply(Declared, Store, p, f) == Ok(Partial(a, b, ENABLE_MEMORY));
    FoldStep(Declared, Store, p, [f], rest, Partial(a, b, ENABLE_MEMORY));
  }

  /** The overrides field read onto any value merges the configuration it
      encodes into the overrides there, or into an empty configuration. */
  lemma StoreOverrides(p: TraceConfig, c: ChainConfigCodec.ChainConfig)
    requires |ChainConfigCodec.Encode(c)| < TWO_63
    ensures Store(p, 10, Bytes(ChainConfigCodec.Encode(c)))
         == Ok(p.(overrides := MergeOverrides(p.overrides, Some(c))))
  {
    ChainConfigCodec.DecodeOnto(if p.overrides.Some? then p.overrides.value else ChainConfigCodec.Default, c);
  }

  lemma {:induction false} FoldTail(a: TraceConfig, b: TraceConfig, k: nat)
    requires 1 <= k
    requires b.overrides.Some? ==> |ChainConfigCodec.Encode(b.overrides.value)| < TWO_63
    ensures Fold(Declared, Store, Partial(a, b, k), Tail(b, k)) == Ok(Merge(a, b))
    decreases 12 - k
  {
    if k <= 11 {
      FoldPiece(a, b, k, Tail(b, k + 1));
      FoldTail(a, b, k + 1);
    }
  }

  lemma FoldOnto(a: TraceConfig, b: TraceConfig)
    requires b.overrides.Some? ==> |ChainConfigCodec.Encode(b.overrides.value)| < TWO_63
    ensures Fold(Declared, Store, a, Fields(b)) == Ok(Merge(a, b))
  {
    FoldTail(a, b, TRACER);
  }

  /** The overrides of an encoding that fits fit as well. */
  lemma OverridesBound(m: TraceConfig)
    requires |Encode(m)| < TWO_63
    ensures m.overrides.Some? ==> |ChainConfigCodec.Encode(m.overrides.value)| < TWO_63
  {
    if m.overrides.Some? {
      TailSplit(m, OVERRIDES);
      ConcatOne(Field(10, BytesP(ChainConfigCodec.Encode(m.overrides.value))));
      FieldLength(10, ChainConfigCodec.Encode(m.overrides.value));
    }
  }

  lemma DecodeOnto(a: TraceConfig, b: TraceConfig)
    requires |Encode(b)| < TWO_63
    ensures Decode(Encode(b), a) == Ok(Merge(a, b))
  {
    TailRuns(b, TRACER);
    DecodeConcat(Declared, Store, a, Fields(b));
    OverridesBound(b);
    FoldOnto(a, b);
  }

  lemma RoundTrip(m: TraceConfig)
    requires |Encode(m)| < TWO_63
    ensures Decode(Encode(m), Default) == Ok(m)
  {
    DecodeOnto(Default, m);
  }
}
