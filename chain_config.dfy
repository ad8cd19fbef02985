/** `ChainConfig` (evm.pb.go, the Ethereum fork schedule): nineteen fields,
    numbered 1 to 13 and then 17, 18 and 20 to 23. Each `*cosmossdk_io_math.Int`
    is given by the bytes its own Marshal produces, `None` for nil. */
module ChainConfigCodec {
  import opened Errors
  import opened Varint
  import opened Wire
  import opened Decoding
  import opened Encoding

  datatype ChainConfig = ChainConfig(
    homesteadBlock: Option<seq<Byte>>,
    daoForkBlock: Option<seq<Byte>>,
    daoForkSupport: bool,
    eip150Block: Option<seq<Byte>>,
    eip150Hash: seq<Byte>,
    eip155Block: Option<seq<Byte>>,
    eip158Block: Option<seq<Byte>>,
    byzantiumBlock: Option<seq<Byte>>,
    constantinopleBlock: Option<seq<Byte>>,
    petersburgBlock: Option<seq<Byte>>,
    istanbulBlock: Option<seq<Byte>>,
    muirGlacierBlock: Option<seq<Byte>>,
    berlinBlock: Option<seq<Byte>>,
    londonBlock: Option<seq<Byte>>,
    arrowGlacierBlock: Option<seq<Byte>>,
    grayGlacierBlock: Option<seq<Byte>>,
    mergeNetsplitBlock: Option<seq<Byte>>,
    shanghaiBlock: Option<seq<Byte>>,
    cancunBlock: Option<seq<Byte>>)

  const Default := ChainConfig(None, None, false, None, [], None, None, None, None, None, None, None, None, None, None, None, None, None, None)

  /** The position of each field's block in field order (not its field
      number: fields 14 to 16 and 19 do not exist). */
  const HOMESTEAD_BLOCK: nat := 1
  const DAO_FORK_BLOCK: nat := 2
  const DAO_FORK_SUPPORT: nat := 3
  const EIP150_BLOCK: nat := 4
  const EIP150_HASH: nat := 5
  const EIP155_BLOCK: nat := 6
  const EIP158_BLOCK: nat := 7
  const BYZANTIUM_BLOCK: nat := 8
  const CONSTANTINOPLE_BLOCK: nat := 9
  const PETERSBURG_BLOCK: nat := 10
  const ISTANBUL_BLOCK: nat := 11
  const MUIR_GLACIER_BLOCK: nat := 12
  const BERLIN_BLOCK: nat := 13
  const LONDON_BLOCK: nat := 14
  const ARROW_GLACIER_BLOCK: nat := 15
  const GRAY_GLACIER_BLOCK: nat := 16
  const MERGE_NETSPLIT_BLOCK: nat := 17
  const SHANGHAI_BLOCK: nat := 18
  const CANCUN_BLOCK: nat := 19

  /** The block of fields that the field at position `k` contributes. */
  function Piece(m: ChainConfig, k: nat): seq<Field> {
    match k
    case 1 => OptField(1, m.homesteadBlock)
    case 2 => OptField(2, m.daoForkBlock)
    case 3 => BoolField(3, m.daoForkSupport)
    case 4 => OptField(4, m.eip150Block)
    case 5 => StrField(5, m.eip150Hash)
    case 6 => OptField(6, m.eip155Block)
    case 7 => OptField(7, m.eip158Block)
    case 8 => OptField(8, m.byzantiumBlock)
    case 9 => OptField(9, m.constantinopleBlock)
    case 10 => OptField(10, m.petersburgBlock)
    case 11 => OptField(11, m.istanbulBlock)
    case 12 => OptField(12, m.muirGlacierBlock)
    case 13 => OptField(13, m.berlinBlock)
    case 14 => OptField(17, m.londonBlock)
    case 15 => OptField(18, m.arrowGlacierBlock)
    case 16 => OptField(20, m.grayGlacierBlock)
    case 17 => OptField(21, m.mergeNetsplitBlock)
    case 18 => OptField(22, m.shanghaiBlock)
    case 19 => OptField(23, m.cancunBlock)
    case _ => []
  }

  /** The blocks from position `k` on, in field order. */
  function Tail(m: ChainConfig, k: nat): seq<Field>
    decreases 20 - k
  {
    if k > 19 then [] else Piece(m, k) + Tail(m, k + 1)
  }

  /** The fields MarshalToSizedBuffer leaves in the buffer, front to back. */
  function Fields(m: ChainConfig): seq<Field> {
    Tail(m, HOMESTEAD_BLOCK)
  }

  function Encode(m: ChainConfig): seq<Byte> {
    Concat(Fields(m))
  }

  /** Reading `b` onto `a`: every Int `b` sets replaces `a`'s (a fresh Int
      each time), so does a set hash, and a bool once true stays true. */
  function Merge(a: ChainConfig, b: ChainConfig): ChainConfig {
    ChainConfig(
      if b.homesteadBlock.Some? then b.homesteadBlock else a.homesteadBlock,
      if b.daoForkBlock.Some? then b.daoForkBlock else a.daoForkBlock,
      a.daoForkSupport || b.daoForkSupport,
      if b.eip150Block.Some? then b.eip150Block else a.eip150Block,
      if |b.eip150Hash| > 0 then b.eip150Hash else a.eip150Hash,
      if b.eip155Block.Some? then b.eip155Block else a.eip155Block,
      if b.eip158Block.Some? then b.eip158Block else a.eip158Block,
      if b.byzantiumBlock.Some? then b.byzantiumBlock else a.byzantiumBlock,
      if b.constantinopleBlock.Some? then b.constantinopleBlock else a.constantinopleBlock,
      if b.petersburgBlock.Some? then b.petersburgBlock else a.petersburgBlock,
      if b.istanbulBlock.Some? then b.istanbulBlock else a.istanbulBlock,
      if b.muirGlacierBlock.Some? then b.muirGlacierBlock else a.muirGlacierBlock,
      if b.berlinBlock.Some? then b.berlinBlock else a.berlinBlock,
      if b.londonBlock.Some? then b.londonBlock else a.londonBlock,
      if b.arrowGlacierBlock.Some? then b.arrowGlacierBlock else a.arrowGlacierBlock,
      if b.grayGlacierBlock.Some? then b.grayGlacierBlock else a.grayGlacierBlock,
      if b.mergeNetsplitBlock.Some? then b.mergeNetsplitBlock else a.mergeNetsplitBlock,
      if b.shanghaiBlock.Some? then b.shanghaiBlock else a.shanghaiBlock,
      if b.cancunBlock.Some? then b.cancunBlock else a.cancunBlock)
  }

  /** `a` once the blocks of `b` before position `k` have been read onto it. */
  function Partial(a: ChainConfig, b: ChainConfig, k: nat): ChainConfig {
    var c := Merge(a, b);
    ChainConfig(
      if k > 1 then c.homesteadBlock else a.homesteadBlock,
      if k > 2 then c.daoForkBlock else a.daoForkBlock,
      if k > 3 then c.daoForkSupport else a.daoForkSupport,
      if k > 4 then c.eip150Block else a.eip150Block,
      if k > 5 then c.eip150Hash else a.eip150Hash,
      if k > 6 then c.eip155Block else a.eip155Block,
      if k > 7 then c.eip158Block else a.eip158Block,
      if k > 8 then c.byzantiumBlock else a.byzantiumBlock,
      if k > 9 then c.constantinopleBlock else a.constantinopleBlock,
      if k > 10 then c.petersburgBlock else a.petersburgBlock,
      if k > 11 then c.istanbulBlock else a.istanbulBlock,
      if k > 12 then c.muirGlacierBlock else a.muirGlacierBlock,
      if k > 13 then c.berlinBlock else a.berlinBlock,
      if k > 14 then c.londonBlock else a.londonBlock,
      if k > 15 then c.arrowGlacierBlock else a.arrowGlacierBlock,
      if k > 16 then c.grayGlacierBlock else a.grayGlacierBlock,
      if k > 17 then c.mergeNetsplitBlock else a.mergeNetsplitBlock,
      if k > 18 then c.shanghaiBlock else a.shanghaiBlock,
      if k > 19 then c.cancunBlock else a.cancunBlock)
  }

  /** The encoding from position `k` on: the block at `k`, then the
      encoding from `k + 1` on, no longer than the whole encoding. */
  lemma TailSplit(m: ChainConfig, k: nat)
    requires 1 <= k <= 19
    ensures Concat(Tail(m, k)) == Concat(Piece(m, k)) + Concat(Tail(m, k + 1))
    ensures |Concat(Tail(m, k))| <= |Encode(m)|
  {
    ConcatAppend(Piece(m, k), Tail(m, k + 1));
    TailBound(m, k);
  }

  lemma TailLength(m: ChainConfig, k: nat)
    requires 1 <= k <= 19
    ensures |Concat(Tail(m, k))| == |Concat(Piece(m, k))| + |Concat(Tail(m, k + 1))|
    ensures |Concat(Tail(m, k))| <= |Encode(m)|
  {
    TailSplit(m, k);
  }

  lemma {:induction false} TailBound(m: ChainConfig, k: nat)
    requires 1 <= k
    ensures |Concat(Tail(m, k))| <= |Encode(m)|
    decreases k
  {
    if 1 < k <= 20 {
      TailBound(m, k - 1);
      ConcatAppend(Piece(m, k - 1), Tail(m, k));
    }
  }

  method Size(m: ChainConfig) returns (n: nat)
    requires |Encode(m)| < TWO_63
    ensures n == |Encode(m)|
  {
    n := SizeLow(m);
    var l := SizeHigh(m);
    n := n + l;
  }

  /** Size's terms for fields 1 to 13. */
  method SizeLow(m: ChainConfig) returns (n: nat)
    requires |Encode(m)| < TWO_63
    ensures n + |Concat(Tail(m, LONDON_BLOCK))| == |Encode(m)|
  {
    n := 0;
    var l: nat;
    TailLength(m, HOMESTEAD_BLOCK);
    l := PieceSize(m, HOMESTEAD_BLOCK);
    n := n + l;
    TailLength(m, DAO_FORK_BLOCK);
    l := PieceSize(m, DAO_FORK_BLOCK);
    n := n + l;
    TailLength(m, DAO_FORK_SUPPORT);
    l := PieceSize(m, DAO_FORK_SUPPORT);
    n := n + l;
    TailLength(m, EIP150_BLOCK);
    l := PieceSize(m, EIP150_BLOCK);
    n := n + l;
    TailLength(m, EIP150_HASH);
    l := PieceSize(m, EIP150_HASH);
    n := n + l;
    TailLength(m, EIP155_BLOCK);
    l := PieceSize(m, EIP155_BLOCK);
    n := n + l;
    TailLength(m, EIP158_BLOCK);
    l := PieceSize(m, EIP158_BLOCK);
    n := n + l;
    TailLength(m, BYZANTIUM_BLOCK);
    l := PieceSize(m, BYZANTIUM_BLOCK);
    n := n + l;
    TailLength(m, CONSTANTINOPLE_BLOCK);
    l := PieceSize(m, CONSTANTINOPLE_BLOCK);
    n := n + l;
    TailLength(m, PETERSBURG_BLOCK);
    l := PieceSize(m, PETERSBURG_BLOCK);
    n := n + l;
    TailLength(m, ISTANBUL_BLOCK);
    l := PieceSize(m, ISTANBUL_BLOCK);
    n := n + l;
    TailLength(m, MUIR_GLACIER_BLOCK);
    l := PieceSize(m, MUIR_GLACIER_BLOCK);
    n := n + l;
    TailLength(m, BERLIN_BLOCK);
    l := PieceSize(m, BERLIN_BLOCK);
    n := n + l;
  }

  /** Size's terms for fields 17 to 23. */
  method SizeHigh(m: ChainConfig) returns (n: nat)
    requires |Encode(m)| < TWO_63
    ensures n == |Concat(Tail(m, LONDON_BLOCK))|
  {
    n := 0;
    var l: nat;
    TailLength(m, LONDON_BLOCK);
    l := PieceSize(m, LONDON_BLOCK);
    n := n + l;
    TailLength(m, ARROW_GLACIER_BLOCK);
    l := PieceSize(m, ARROW_GLACIER_BLOCK);
    n := n + l;
    TailLength(m, GRAY_GLACIER_BLOCK);
    l := PieceSize(m, GRAY_GLACIER_BLOCK);
    n := n + l;
    TailLength(m, MERGE_NETSPLIT_BLOCK);
    l := PieceSize(m, MERGE_NETSPLIT_BLOCK);
    n := n + l;
    TailLength(m, SHANGHAI_BLOCK);
    l := PieceSize(m, SHANGHAI_BLOCK);
    n := n + l;
    TailLength(m, CANCUN_BLOCK);
    l := PieceSize(m, CANCUN_BLOCK);
    n := n + l;
  }

  /** The term Size adds for the field at position `k`: `2 +` for the
      two-byte tags of fields 17 on. */
  method PieceSize(m: ChainConfig, k: nat) returns (l: nat)
    requires 1 <= k <= 19 && |Concat(Piece(m, k))| < TWO_63
    ensures l == |Concat(Piece(m, k))|
  {
    match k
    case 1 => l := OptLen(1, m.homesteadBlock, 1);
    case 2 => l := OptLen(2, m.daoForkBlock, 1);
    case 3 => l := BoolLen(3, m.daoForkSupport);
    case 4 => l := OptLen(4, m.eip150Block, 1);
    case 5 => l := StrLen(5, m.eip150Hash, 1);
    case 6 => l := OptLen(6, m.eip155Block, 1);
    case 7 => l := OptLen(7, m.eip158Block, 1);
    case 8 => l := OptLen(8, m.byzantiumBlock, 1);
    case 9 => l := OptLen(9, m.constantinopleBlock, 1);
    case 10 => l := OptLen(10, m.petersburgBlock, 1);
    case 11 => l := OptLen(11, m.istanbulBlock, 1);
    case 12 => l := OptLen(12, m.muirGlacierBlock, 1);
    case 13 => l := OptLen(13, m.berlinBlock, 1);
    case 14 => l := OptLen(17, m.londonBlock, 2);
    case 15 => l := OptLen(18, m.arrowGlacierBlock, 2);
    case 16 => l := OptLen(20, m.grayGlacierBlock, 2);
    case 17 => l := OptLen(21, m.mergeNetsplitBlock, 2);
    case 18 => l := OptLen(22, m.shanghaiBlock, 2);
    case 19 => l := OptLen(23, m.cancunBlock, 2);
  }

  method MarshalToSizedBuffer(buf: array<Byte>, end: nat, m: ChainConfig) returns (n: nat)
    requires |Encode(m)| <= end <= buf.Length < TWO_63
    modifies buf
    ensures n == |Encode(m)|
    ensures Filled(buf[..], old(buf[..]), end - n, end, Encode(m))
  {
    ghost var orig := buf[..];
    FilledEmpty(orig, end);
    var i := end;
    i := PutHigh(buf, i, m, orig, end);
    i := PutLow(buf, i, m, orig, end);
    n := end - i;
  }

  /** Fields 23 down to 17, behind the window's end. */
  method PutHigh(buf: array<Byte>, i: nat, m: ChainConfig, ghost orig: seq<Byte>, ghost end: nat)
      returns (j: nat)
    requires Filled(buf[..], orig, i, end, []) && |Encode(m)| <= end < TWO_63
    modifies buf
    ensures j + |Concat(Tail(m, LONDON_BLOCK))| == i
    ensures Filled(buf[..], orig, j, end, Concat(Tail(m, LONDON_BLOCK)))
  {
    j := i;
    TailSplit(m, CANCUN_BLOCK);
    j := PutPiece(buf, j, m, CANCUN_BLOCK, orig, end);
    TailSplit(m, SHANGHAI_BLOCK);
    j := PutPiece(buf, j, m, SHANGHAI_BLOCK, orig, end);
    TailSplit(m, MERGE_NETSPLIT_BLOCK);
    j := PutPiece(buf, j, m, MERGE_NETSPLIT_BLOCK, orig, end);
    TailSplit(m, GRAY_GLACIER_BLOCK);
    j := PutPiece(buf, j, m, GRAY_GLACIER_BLOCK, orig, end);
    TailSplit(m, ARROW_GLACIER_BLOCK);
    j := PutPiece(buf, j, m, ARROW_GLACIER_BLOCK, orig, end);
    TailSplit(m, LONDON_BLOCK);
    j := PutPiece(buf, j, m, LONDON_BLOCK, orig, end);
  }

  /** Fields 13 down to 1, in front of the fields after them. */
  method PutLow(buf: array<Byte>, i: nat, m: ChainConfig, ghost orig: seq<Byte>, ghost end: nat)
      returns (j: nat)
    requires Filled(buf[..], orig, i, end, Concat(Tail(m, LONDON_BLOCK))) && |Encode(m)| <= end < TWO_63
    modifies buf
    ensures j + |Encode(m)| == end
    ensures Filled(buf[..], orig, j, end, Encode(m))
  {
    j := i;
    TailSplit(m, BERLIN_BLOCK);
    j := PutPiece(buf, j, m, BERLIN_BLOCK, orig, end);
    TailSplit(m, MUIR_GLACIER_BLOCK);
    j := PutPiece(buf, j, m, MUIR_GLACIER_BLOCK, orig, end);
    TailSplit(m, ISTANBUL_BLOCK);
    j := PutPiece(buf, j, m, ISTANBUL_BLOCK, orig, end);
    TailSplit(m, PETERSBURG_BLOCK);
    j := PutPiece(buf, j, m, PETERSBURG_BLOCK, orig, end);
    TailSplit(m, CONSTANTINOPLE_BLOCK);
    j := PutPiece(buf, j, m, CONSTANTINOPLE_BLOCK, orig, end);
    TailSplit(m, BYZANTIUM_BLOCK);
    j := PutPiece(buf, j, m, BYZANTIUM_BLOCK, orig, end);
    TailSplit(m, EIP158_BLOCK);
    j := PutPiece(buf, j, m, EIP158_BLOCK, orig, end);
    TailSplit(m, EIP155_BLOCK);
    j := PutPiece(buf, j, m, EIP155_BLOCK, orig, end);
    TailSplit(m, EIP150_HASH);
    j := PutPiece(buf, j, m, EIP150_HASH, orig, end);
    TailSplit(m, EIP150_BLOCK);
    j := PutPiece(buf, j, m, EIP150_BLOCK, orig, end);
    TailSplit(m, DAO_FORK_SUPPORT);
    j := PutPiece(buf, j, m, DAO_FORK_SUPPORT, orig, end);
    TailSplit(m, DAO_FORK_BLOCK);
    j := PutPiece(buf, j, m, DAO_FORK_BLOCK, orig, end);
    TailSplit(m, HOMESTEAD_BLOCK);
    j := PutPiece(buf, j, m, HOMESTEAD_BLOCK, orig, end);
  }

  /** The block that writes the field at position `k` below `i`, in front
      of the fields after it. */
  method PutPiece(buf: array<Byte>, i: nat, m: ChainConfig, k: nat, ghost orig: seq<Byte>, ghost end: nat)
      returns (j: nat)
    requires 1 <= k <= 19 && i < TWO_63
    requires Filled(buf[..], orig, i, end, Concat(Tail(m, k + 1)))
    requires Concat(Tail(m, k)) == Concat(Piece(m, k)) + Concat(Tail(m, k + 1))
    requires |Concat(Piece(m, k))| <= i
    modifies buf
    ensures j == i - |Concat(Piece(m, k))|
    ensures Filled(buf[..], orig, j, end, Concat(Tail(m, k)))
  {
    ghost var content := Concat(Tail(m, k + 1));
    match k
    case 1 => j := PutOpt(buf, i, 1, m.homesteadBlock, orig, end, content);
    case 2 => j := PutOpt(buf, i, 2, m.daoForkBlock, orig, end, content);
    case 3 => j := PutBool(buf, i, 3, m.daoForkSupport, orig, end, content);
    case 4 => j := PutOpt(buf, i, 4, m.eip150Block, orig, end, content);
    case 5 => j := PutString(buf, i, 5, m.eip150Hash, orig, end, content);
    case 6 => j := PutOpt(buf, i, 6, m.eip155Block, orig, end, content);
    case 7 => j := PutOpt(buf, i, 7, m.eip158Block, orig, end, content);
    case 8 => j := PutOpt(buf, i, 8, m.byzantiumBlock, orig, end, content);
    case 9 => j := PutOpt(buf, i, 9, m.constantinopleBlock, orig, end, content);
    case 10 => j := PutOpt(buf, i, 10, m.petersburgBlock, orig, end, content);
    case 11 => j := PutOpt(buf, i, 11, m.istanbulBlock, orig, end, content);
    case 12 => j := PutOpt(buf, i, 12, m.muirGlacierBlock, orig, end, content);
    case 13 => j := PutOpt(buf, i, 13, m.berlinBlock, orig, end, content);
    case 14 => j := PutOpt(buf, i, 17, m.londonBlock, orig, end, content);
    case 15 => j := PutOpt(buf, i, 18, m.arrowGlacierBlock, orig, end, content);
    case 16 => j := PutOpt(buf, i, 20, m.grayGlacierBlock, orig, end, content);
    case 17 => j := PutOpt(buf, i, 21, m.mergeNetsplitBlock, orig, end, content);
    case 18 => j := PutOpt(buf, i, 22, m.shanghaiBlock, orig, end, content);
    case 19 => j := PutOpt(buf, i, 23, m.cancunBlock, orig, end, content);
  }

  method Marshal(m: ChainConfig) returns (data: seq<Byte>)
    requires |Encode(m)| < TWO_63
    ensures data == Encode(m)
  {
    var size := Size(m);
    var buf := new Byte[size];
    ghost var before := buf[..];
    var n := MarshalToSizedBuffer(buf, size, m);
    FilledWhole(buf[..], before, n, Encode(m));
    data := buf[..n];
  }

  function Declared(num: int): Decl {
    if num == 3 then Scalar
    else if 1 <= num <= 13 || num == 17 || num == 18 || 20 <= num <= 23 then Delimited
    else Unknown
  }

  /** An Int case stores a fresh Int read from its bytes. */
  function Store(m: ChainConfig, num: int, v: Value): Result<ChainConfig> {
    match num
    case 1 => Ok(m.(homesteadBlock := Some(AsBytes(v))))
    case 2 => Ok(m.(daoForkBlock := Some(AsBytes(v))))
    case 3 => Ok(m.(daoForkSupport := AsU64(v) != 0))
    case 4 => Ok(m.(eip150Block := Some(AsBytes(v))))
    case 5 => Ok(m.(eip150Hash := AsBytes(v)))
    case 6 => Ok(m.(eip155Block := Some(AsBytes(v))))
    case 7 => Ok(m.(eip158Block := Some(AsBytes(v))))
    case 8 => Ok(m.(byzantiumBlock := Some(AsBytes(v))))
    case 9 => Ok(m.(constantinopleBlock := Some(AsBytes(v))))
    case 10 => Ok(m.(petersburgBlock := Some(AsBytes(v))))
    case 11 => Ok(m.(istanbulBlock := Some(AsBytes(v))))
    case 12 => Ok(m.(muirGlacierBlock := Some(AsBytes(v))))
    case 13 => Ok(m.(berlinBlock := Some(AsBytes(v))))
    case 17 => Ok(m.(londonBlock := Some(AsBytes(v))))
    case 18 => Ok(m.(arrowGlacierBlock := Some(AsBytes(v))))
    case 20 => Ok(m.(grayGlacierBlock := Some(AsBytes(v))))
    case 21 => Ok(m.(mergeNetsplitBlock := Some(AsBytes(v))))
    case 22 => Ok(m.(shanghaiBlock := Some(AsBytes(v))))
    case 23 => Ok(m.(cancunBlock := Some(AsBytes(v))))
    case _ => Ok(m)
  }

  function Decode(data: seq<Byte>, m0: ChainConfig): Result<ChainConfig> {
    DecodeFrom(Declared, Store, data, 0, m0)
  }

  method Unmarshal(data: seq<Byte>, m0: ChainConfig) returns (r: Result<ChainConfig>)
    ensures r == Decode(data, m0)
  {
    r := UnmarshalLoop(Declared, Store, data, m0);
  }

  // ---------------------------------------------------------------------
  // Round trip.

  lemma PieceRuns(m: ChainConfig, k: nat)
    ensures Runs(Declared, Piece(m, k))
  {
  }

  lemma {:induction false} TailRuns(m: ChainConfig, k: nat)
    ensures Runs(Declared, Tail(m, k))
    decreases 20 - k
  {
    if k <= 19 {
      TailRuns(m, k + 1);
      PieceRuns(m, k);
      RunsAppend(Declared, Piece(m, k), Tail(m, k + 1));
    }
  }

  /** Reading the block at position `k` takes the partial merge one field
      further. */
  lemma FoldPiece(a: ChainConfig, b: ChainConfig, k: nat, rest: seq<Field>)
    requires 1 <= k <= 19
    ensures Fold(Declared, Store, Partial(a, b, k), Piece(b, k) + rest)
         == Fold(Declared, Store, Partial(a, b, k + 1), rest)
  {
    if k <= 7 {
      FoldLow(a, b, k, rest);
    } else if k <= 13 {
      FoldMid(a, b, k, rest);
    } else {
      FoldHigh(a, b, k, rest);
    }
  }

  // FoldLow, FoldMid and FoldHigh state the same one-field step of the
  // fold; they are split by field range only so that each proof stays
  // within the solver's budget.

  /** Fields 1 to 7: Homestead to EIP-158, with the DAO flag and the EIP-150 hash. */
  lemma FoldLow(a: ChainConfig, b: ChainConfig, k: nat, rest: seq<Field>)
    requires 1 <= k <= 7
    ensures Fold(Declared, Store, Partial(a, b, k), Piece(b, k) + rest)
         == Fold(Declared, Store, Partial(a, b, k + 1), rest)
  {
    FoldStep(Declared, Store, Partial(a, b, k), Piece(b, k), rest, Partial(a, b, k + 1));
  }

  /** Fields 8 to 13: Byzantium to Berlin. */
  lemma FoldMid(a: ChainConfig, b: ChainConfig, k: nat, rest: seq<Field>)
    requires 8 <= k <= 13
    ensures Fold(Declared, Store, Partial(a, b, k), Piece(b, k) + rest)
         == Fold(Declared, Store, Partial(a, b, k + 1), rest)
  {
    FoldStep(Declared, Store, Partial(a, b, k), Piece(b, k), rest, Partial(a, b, k + 1));
  }

  /** Fields 17 to 23: London to Cancun, the two-byte keys. */
  lemma FoldHigh(a: ChainConfig, b: ChainConfig, k: nat, rest: seq<Field>)
    requires 14 <= k <= 19
    ensures Fold(Declared, Store, Partial(a, b, k), Piece(b, k) + rest)
         == Fold(Declared, Store, Partial(a, b, k + 1), rest)
  {
    FoldStep(Declared, Store, Partial(a, b, k), Piece(b, k), rest, Partial(a, b, k + 1));
  }

  lemma {:induction false} FoldTail(a: ChainConfig, b: ChainConfig, k: nat)
    requires 1 <= k
    ensures Fold(Declared, Store, Partial(a, b, k), Tail(b, k)) == Ok(Merge(a, b))
    decreases 20 - k
  {
    if k <= 19 {
      FoldPiece(a, b, k, Tail(b, k + 1));
      FoldTail(a, b, k + 1);
    }
  }

  lemma FoldOnto(a: ChainConfig, b: ChainConfig)
    ensures Fold(Declared, Store, a, Fields(b)) == Ok(Merge(a, b))
  {
    FoldTail(a, b, HOMESTEAD_BLOCK);
  }

  lemma DecodeOnto(a: ChainConfig, b: ChainConfig)
    requires |Encode(b)| < TWO_63
    ensures Decode(Encode(b), a) == Ok(Merge(a, b))
  {
    TailRuns(b, HOMESTEAD_BLOCK);
    DecodeConcat(Declared, Store, a, Fields(b));
    FoldOnto(a, b);
  }

  lemma RoundTrip(m: ChainConfig)
    requires |Encode(m)| < TWO_63
    ensures Decode(Encode(m), Default) == Ok(m)
  {
    DecodeOnto(Default, m);
  }

  /** A configuration with every Int nil, no DAO fork support and no hash
      writes nothing. */
  lemma DefaultEmpty()
    ensures Encode(Default) == []
  {
    DefaultTail(HOMESTEAD_BLOCK);
  }

  lemma {:induction false} DefaultTail(k: nat)
    ensures Tail(Default, k) == []
    decreases 20 - k
  {
    if k <= 19 {
      DefaultTail(k + 1);
      assert Piece(Default, k) == [];
    }
  }

  // LondonTag, CancunTag and BerlinTag are worked instances of
  // Encoding.KeySize on this record's own field numbers: they pin the
  // literal key bytes that MarshalToSizedBuffer writes.

  /** Fields numbered 16 and above carry a two-byte key: a set London block
      (field 17) starts with 0x8a 0x01. */
  lemma LondonTag(m: ChainConfig)
    requires m.londonBlock.Some?
    ensures Concat(Piece(m, LONDON_BLOCK))[..2] == [0x8a, 0x01]
  {
    assert KeyBytes(17, 2) == [0x8a, 0x01] by {
      assert VarintBytes(1) == [1];
    }
    ConcatOne(Field(17, BytesP(m.londonBlock.value)));
  }

  /** A set Cancun block (field 23) starts with 0xba 0x01. */
  lemma CancunTag(m: ChainConfig)
    requires m.cancunBlock.Some?
    ensures Concat(Piece(m, CANCUN_BLOCK))[..2] == [0xba, 0x01]
  {
    assert KeyBytes(23, 2) == [0xba, 0x01] by {
      assert VarintBytes(1) == [1];
    }
    ConcatOne(Field(23, BytesP(m.cancunBlock.value)));
  }

  /** Below field 16 the key is one byte: a set Berlin block (field 13)
      starts with 0x6a. */
  lemma BerlinTag(m: ChainConfig)
    requires m.berlinBlock.Some?
    ensures Concat(Piece(m, BERLIN_BLOCK))[..1] == [0x6a]
  {
    ConcatOne(Field(13, BytesP(m.berlinBlock.value)));
  }
}
