/** The field-writing blocks that every generated MarshalToSizedBuffer in
    evm.pb.go repeats, and the size terms its Size adds up. Each writer takes
    the buffer, the cursor `i` below which it writes, and (as ghosts) what the
    buffer held before the record's writes began and the bytes already
    written above `i`. */
module Encoding {
  import opened Errors
  import opened Varint
  import opened Wire

  // ---------------------------------------------------------------------
  // The field lists of the remaining field kinds.

  /** A `*cosmossdk_io_math.Int` field, given by the bytes its own Marshal
      produces: nil writes nothing, any other value writes a tag and the
      length-prefixed bytes, even when they are empty. */
  function OptField(num: nat, o: Option<seq<Byte>>): seq<Field> {
    if o.Some? then [Field(num, BytesP(o.value))] else []
  }

  /** A repeated integer field, given by each element's uint64 view: one
      packed field, omitted when there are no elements. */
  function PackedField(num: nat, vs: seq<U64>): seq<Field> {
    if |vs| > 0 then [Field(num, PackedP(vs))] else []
  }

  /** The uint64 views `uint64(x)` of signed integers. */
  function U64s(xs: seq<I64>): (r: seq<U64>)
    ensures |r| == |xs|
  {
    if xs == [] then [] else [U64Of(xs[0])] + U64s(xs[1..])
  }

  lemma ConcatOne(f: Field)
    ensures Concat([f]) == FieldBytes(f)
  {
    assert Concat([f]) == FieldBytes(f) + Concat([]);
  }

  /** The tag of field `num` takes one byte below field 16 and two from 16 on:
      Size charges `1 +` or `2 +` accordingly. */
  lemma KeySize(num: nat, wt: nat)
    requires 1 <= num < 2048 && wt < 8
    ensures |KeyBytes(num, wt)| == if num < 16 then 1 else 2
  {
    var key := num * 8 + wt;
    if key >= 0x80 {
      assert VarintBytes(key) == [key % 0x80 + 0x80] + VarintBytes(key / 0x80);
    }
  }

  // ---------------------------------------------------------------------
  // Size terms.

  /** `l = len(m.X); if l > 0 { n += t + l + sovEvm(uint64(l)) }`, `t` the
      tag size. */
  lemma StrSize(num: nat, s: seq<Byte>, t: nat)
    requires 1 <= num < 2048 && t == (if num < 16 then 1 else 2)
    requires |Concat(StrField(num, s))| < TWO_63
    ensures |s| < TWO_63
    ensures |Concat(StrField(num, s))| == if |s| > 0 then t + |s| + Sov(|s|) else 0
  {
    if |s| > 0 {
      ConcatOne(Field(num, BytesP(s)));
      FieldLength(num, s);
      KeySize(num, 2);
    }
  }

  /** `if m.X != nil { l = m.X.Size(); n += t + l + sovEvm(uint64(l)) }`. */
  lemma OptSize(num: nat, o: Option<seq<Byte>>, t: nat)
    requires 1 <= num < 2048 && t == (if num < 16 then 1 else 2)
    requires |Concat(OptField(num, o))| < TWO_63
    ensures o.Some? ==> |o.value| < TWO_63
    ensures |Concat(OptField(num, o))| == if o.Some? then t + |o.value| + Sov(|o.value|) else 0
  {
    if o.Some? {
      ConcatOne(Field(num, BytesP(o.value)));
      FieldLength(num, o.value);
      KeySize(num, 2);
    }
  }

  /** An embedded message that is always written: `l = m.X.Size(); n += 1 +
      l + sovEvm(uint64(l))`. */
  lemma MsgSize(num: nat, body: seq<Byte>)
    requires 1 <= num < 16 && |Concat([Field(num, BytesP(body))])| < TWO_63
    ensures |body| < TWO_63
    ensures |Concat([Field(num, BytesP(body))])| == 1 + |body| + Sov(|body|)
  {
    ConcatOne(Field(num, BytesP(body)));
    FieldLength(num, body);
    KeySize(num, 2);
  }

  /** `if m.X { n += 2 }`. */
  lemma BoolSize(num: nat, b: bool)
    requires 1 <= num < 16
    ensures |Concat(BoolField(num, b))| == if b then 2 else 0
  {
    if b {
      ConcatOne(Field(num, VarintP(1)));
      KeySize(num, 0);
    }
  }

  /** `if m.X != 0 { n += 1 + sovEvm(uint64(m.X)) }`. */
  lemma UintSize(num: nat, v: U64)
    requires 1 <= num < 16
    ensures |Concat(UintField(num, v))| == if v != 0 then 1 + Sov(v) else 0
  {
    if v != 0 {
      ConcatOne(Field(num, VarintP(v)));
      KeySize(num, 0);
    }
  }

  /** The size terms as Size adds them, one per field block. */
  function StrLen(num: nat, s: seq<Byte>, t: nat): (r: nat)
    requires 1 <= num < 2048 && t == (if num < 16 then 1 else 2)
    requires |Concat(StrField(num, s))| < TWO_63
    ensures r == |Concat(StrField(num, s))|
  {
    StrSize(num, s, t);
    if |s| > 0 then t + |s| + Sov(|s|) else 0
  }

  function OptLen(num: nat, o: Option<seq<Byte>>, t: nat): (r: nat)
    requires 1 <= num < 2048 && t == (if num < 16 then 1 else 2)
    requires |Concat(OptField(num, o))| < TWO_63
    ensures r == |Concat(OptField(num, o))|
  {
    OptSize(num, o, t);
    if o.Some? then t + |o.value| + Sov(|o.value|) else 0
  }

  function BoolLen(num: nat, b: bool): (r: nat)
    requires 1 <= num < 16
    ensures r == |Concat(BoolField(num, b))|
  {
    BoolSize(num, b);
    if b then 2 else 0
  }

  function UintLen(num: nat, v: U64): (r: nat)
    requires 1 <= num < 16
    ensures r == |Concat(UintField(num, v))|
  {
    UintSize(num, v);
    if v != 0 then 1 + Sov(v) else 0
  }

  /** `for _, s := range m.X { l = len(s); n += 1 + l + sovEvm(uint64(l)) }`. */
  method RepeatedSize(num: nat, ss: seq<seq<Byte>>) returns (n: nat)
    requires 1 <= num < 16 && |Concat(RepeatedField(num, ss))| < TWO_63
    ensures n == |Concat(RepeatedField(num, ss))|
  {
    n := 0;
    var k := 0;
    assert ss[k..] == ss;
    while k < |ss|
      invariant k <= |ss|
      invariant n == |Concat(RepeatedField(num, ss[..k]))|
      invariant n + |Concat(RepeatedField(num, ss[k..]))| == |Concat(RepeatedField(num, ss))|
    {
      var l := |ss[k]|;
      RepeatedGrow(num, ss, k);
      RepeatedSplit(num, ss, k);
      ConcatOne(Field(num, BytesP(ss[k])));
      MsgSize(num, ss[k]);
      n := n + 1 + l + Sov(l);
      k := k + 1;
    }
    assert ss[..k] == ss;
  }

  /** `if len(m.X) > 0 { l = 0; for _, e := range m.X { l += sovEvm(uint64(e))
      }; n += 1 + sovEvm(uint64(l)) + l }`: the packed payload's length is the
      sum of its elements' varint lengths. */
  method PackedSize(num: nat, vs: seq<U64>) returns (n: nat)
    requires 1 <= num < 16 && |Concat(PackedField(num, vs))| < TWO_63
    ensures n == |Concat(PackedField(num, vs))|
  {
    n := 0;
    if |vs| > 0 {
      ConcatOne(Field(num, PackedP(vs)));
      KeySize(num, 2);
      var l := 0;
      var k := 0;
      while k < |vs|
        invariant k <= |vs| && l == |PackedBytes(vs[..k])|
      {
        PackedGrow(vs, k);
        l := l + Sov(vs[k]);
        k := k + 1;
      }
      assert vs[..k] == vs;
      n := 1 + Sov(l) + l;
    }
  }

  /** The field list of a repeated field grows by one field per element. */
  lemma RepeatedGrow(num: nat, ss: seq<seq<Byte>>, k: nat)
    requires k < |ss|
    ensures Concat(RepeatedField(num, ss[..k + 1]))
         == Concat(RepeatedField(num, ss[..k])) + Concat([Field(num, BytesP(ss[k]))])
  {
    assert RepeatedField(num, ss[..k + 1]) == RepeatedField(num, ss[..k]) + [Field(num, BytesP(ss[k]))];
    ConcatAppend(RepeatedField(num, ss[..k]), [Field(num, BytesP(ss[k]))]);
  }

  /** What Size adds for element `k` of a repeated embedded message: `l :=
      e.Size(); n += 1 + l + sovEvm(uint64(l))`. */
  lemma RepeatedGrowSize(num: nat, ss: seq<seq<Byte>>, k: nat)
    requires 1 <= num < 16 && k < |ss| && |Concat(RepeatedField(num, ss))| < TWO_63
    ensures |ss[k]| < TWO_63
    ensures |Concat(RepeatedField(num, ss[..k + 1]))|
         == |Concat(RepeatedField(num, ss[..k]))| + 1 + |ss[k]| + Sov(|ss[k]|)
  {
    RepeatedBound(num, ss, k);
    RepeatedGrow(num, ss, k);
    ConcatOne(Field(num, BytesP(ss[k])));
    KeySize(num, 2);
  }

  /** The encodings of a repeated field from element `k` on, for every `k`:
      each is element `k`'s field followed by the next. */
  lemma RepeatedSuffixes(num: nat, ss: seq<seq<Byte>>) returns (parts: seq<seq<Byte>>)
    ensures |parts| == |ss| + 1 && parts[|ss|] == []
    ensures parts[0] == Concat(RepeatedField(num, ss))
    ensures forall k {:trigger ss[k]} :: 0 <= k < |ss| ==>
      parts[k] == FieldBytes(Field(num, BytesP(ss[k]))) + parts[k + 1]
    ensures forall k :: 0 <= k <= |ss| ==> |parts[k]| <= |parts[0]|
  {
    parts := seq(|ss| + 1, k requires 0 <= k <= |ss| => Concat(RepeatedField(num, ss[k..])));
    assert ss[0..] == ss;
    forall k | 0 <= k < |ss|
      ensures parts[k] == FieldBytes(Field(num, BytesP(ss[k]))) + parts[k + 1]
    {
      RepeatedSplit(num, ss, k);
    }
    forall k | 0 <= k <= |ss|
      ensures |parts[k]| <= |parts[0]|
    {
      assert RepeatedField(num, ss) == RepeatedField(num, ss[..k]) + RepeatedField(num, ss[k..]);
      ConcatAppend(RepeatedField(num, ss[..k]), RepeatedField(num, ss[k..]));
    }
  }

  /** The field list of a repeated field, cut before element `k`: the
      elements before it, then the field of element `k`, then the rest. */
  lemma RepeatedSplit(num: nat, ss: seq<seq<Byte>>, k: nat)
    requires k < |ss|
    ensures Concat(RepeatedField(num, ss[k..]))
         == FieldBytes(Field(num, BytesP(ss[k]))) + Concat(RepeatedField(num, ss[k + 1..]))
    ensures |Concat(RepeatedField(num, ss[..k + 1]))|
         == |Concat(RepeatedField(num, ss[..k]))| + |FieldBytes(Field(num, BytesP(ss[k])))|
  {
    assert RepeatedField(num, ss[k..]) == [Field(num, BytesP(ss[k]))] + RepeatedField(num, ss[k + 1..]);
    ConcatAppend([Field(num, BytesP(ss[k]))], RepeatedField(num, ss[k + 1..]));
    ConcatOne(Field(num, BytesP(ss[k])));
    RepeatedGrow(num, ss, k);
  }

  /** Every element of a repeated field is shorter than the field's
      encoding. */
  lemma RepeatedBound(num: nat, ss: seq<seq<Byte>>, k: nat)
    requires k < |ss|
    ensures |ss[k]| < |Concat(RepeatedField(num, ss))|
  {
    assert RepeatedField(num, ss) == RepeatedField(num, ss[..k]) + RepeatedField(num, ss[k..]);
    ConcatAppend(RepeatedField(num, ss[..k]), RepeatedField(num, ss[k..]));
    RepeatedSplit(num, ss, k);
    FieldLength(num, ss[k]);
  }

  lemma Assoc(a: seq<Byte>, b: seq<Byte>, c: seq<Byte>)
    ensures a + b + c == a + (b + c)
  {
  }

  /** A length-delimited field is longer than its payload. */
  lemma FieldLength(num: nat, b: seq<Byte>)
    ensures |b| < |FieldBytes(Field(num, BytesP(b)))|
  {
  }

  // ---------------------------------------------------------------------
  // Writers.

  /** `if len(m.X) > 0 { i -= len(m.X); copy(dAtA[i:], m.X); i =
      encodeVarintEvm(dAtA, i, uint64(len(m.X))); <tag> }`. */
  method PutString(buf: array<Byte>, i: nat, num: nat, s: seq<Byte>,
                   ghost orig: seq<Byte>, ghost end: nat, ghost content: seq<Byte>) returns (j: nat)
    requires Filled(buf[..], orig, i, end, content) && i < TWO_63
    requires 1 <= num < MAX_FIELD && |Concat(StrField(num, s))| <= i
    modifies buf
    ensures j == i - |Concat(StrField(num, s))|
    ensures Filled(buf[..], orig, j, end, Concat(StrField(num, s)) + content)
  {
    j := i;
    if |s| > 0 {
      ConcatOne(Field(num, BytesP(s)));
      j := PutLenField(buf, i, num, s, orig, end, content);
    }
  }

  /** A nil check around the same block: `if m.X != nil { ... }`, the
      Int's own MarshalTo copying its bytes. */
  method PutOpt(buf: array<Byte>, i: nat, num: nat, o: Option<seq<Byte>>,
                ghost orig: seq<Byte>, ghost end: nat, ghost content: seq<Byte>) returns (j: nat)
    requires Filled(buf[..], orig, i, end, content) && i < TWO_63
    requires 1 <= num < MAX_FIELD && |Concat(OptField(num, o))| <= i
    modifies buf
    ensures j == i - |Concat(OptField(num, o))|
    ensures Filled(buf[..], orig, j, end, Concat(OptField(num, o)) + content)
  {
    j := i;
    if o.Some? {
      ConcatOne(Field(num, BytesP(o.value)));
      j := PutLenField(buf, i, num, o.value, orig, end, content);
    }
  }

  /** `if m.X { i--; dAtA[i] = 1; i--; <tag> }`. */
  method PutBool(buf: array<Byte>, i: nat, num: nat, b: bool,
                 ghost orig: seq<Byte>, ghost end: nat, ghost content: seq<Byte>) returns (j: nat)
    requires Filled(buf[..], orig, i, end, content)
    requires 1 <= num < MAX_FIELD && |Concat(BoolField(num, b))| <= i
    modifies buf
    ensures j == i - |Concat(BoolField(num, b))|
    ensures Filled(buf[..], orig, j, end, Concat(BoolField(num, b)) + content)
  {
    j := i;
    if b {
      ConcatOne(Field(num, VarintP(1)));
      j := PutVarintField(buf, i, num, 1, orig, end, content);
    }
  }

  /** `if m.X != 0 { i = encodeVarintEvm(dAtA, i, uint64(m.X)); <tag> }`. */
  method PutUint(buf: array<Byte>, i: nat, num: nat, v: U64,
                 ghost orig: seq<Byte>, ghost end: nat, ghost content: seq<Byte>) returns (j: nat)
    requires Filled(buf[..], orig, i, end, content)
    requires 1 <= num < MAX_FIELD && |Concat(UintField(num, v))| <= i
    modifies buf
    ensures j == i - |Concat(UintField(num, v))|
    ensures Filled(buf[..], orig, j, end, Concat(UintField(num, v)) + content)
  {
    j := i;
    if v != 0 {
      ConcatOne(Field(num, VarintP(v)));
      j := PutVarintField(buf, i, num, v, orig, end, content);
    }
  }

  /** `for iNdEx := len(m.X) - 1; iNdEx >= 0; iNdEx-- { ... }`: the
      elements from the last to the first, each as a string field, so that
      they read in order from the front. */
  method PutRepeated(buf: array<Byte>, i: nat, num: nat, ss: seq<seq<Byte>>,
                     ghost orig: seq<Byte>, ghost end: nat, ghost content: seq<Byte>) returns (j: nat)
    requires Filled(buf[..], orig, i, end, content) && i < TWO_63
    requires 1 <= num < MAX_FIELD && |Concat(RepeatedField(num, ss))| <= i
    modifies buf
    ensures j == i - |Concat(RepeatedField(num, ss))|
    ensures Filled(buf[..], orig, j, end, Concat(RepeatedField(num, ss)) + content)
  {
    ghost var parts := RepeatedSuffixes(num, ss);
    j := i;
    var k := |ss|;
    assert parts[k] + content == content;
    while k > 0
      invariant k <= |ss|
      invariant j + |parts[k]| == i
      invariant Filled(buf[..], orig, j, end, parts[k] + content)
    {
      ghost var rest := parts[k];
      k := k - 1;
      SuffixStep(num, ss, parts, k, content);
      j := PutLenField(buf, j, num, ss[k], orig, end, rest + content);
    }
  }

  /** One step of PutRepeated's loop: the suffix from element `k` is that
      element's field in front of the suffix after it. */
  lemma SuffixStep(num: nat, ss: seq<seq<Byte>>, parts: seq<seq<Byte>>, k: nat, content: seq<Byte>)
    requires 1 <= num < MAX_FIELD && k < |ss| && |parts| == |ss| + 1
    requires forall k {:trigger ss[k]} :: 0 <= k < |ss| ==>
      parts[k] == FieldBytes(Field(num, BytesP(ss[k]))) + parts[k + 1]
    requires forall k :: 0 <= k <= |ss| ==> |parts[k]| <= |parts[0]|
    requires |parts[0]| < TWO_63
    ensures parts[k] + content == FieldBytes(Field(num, BytesP(ss[k]))) + (parts[k + 1] + content)
    ensures |FieldBytes(Field(num, BytesP(ss[k])))| + |parts[k + 1]| <= |parts[0]|
    ensures |ss[k]| < TWO_64 && num * 8 + 2 < TWO_64
  {
    var fb := FieldBytes(Field(num, BytesP(ss[k])));
    assert parts[k] == fb + parts[k + 1];
    assert |parts[k]| <= |parts[0]|;
    Assoc(fb, parts[k + 1], content);
    FieldLength(num, ss[k]);
  }

  /** The packing loop of a repeated integer field: each element's varint
      is appended at `j2` into a scratch buffer of ten bytes per element. */
  method PackVarints(vs: seq<U64>) returns (tmp: array<Byte>, j2: nat)
    ensures j2 <= tmp.Length && tmp[..j2] == PackedBytes(vs)
  {
    tmp := new Byte[|vs| * 10];
    j2 := 0;
    var k := 0;
    while k < |vs|
      invariant k <= |vs| && j2 <= 10 * k
      invariant tmp.Length == |vs| * 10
      invariant tmp[..j2] == PackedBytes(vs[..k])
    {
      VarintLength(vs[k]);
      PackedGrow(vs, k);
      j2 := AppendVarint(tmp, j2, vs[k]);
      k := k + 1;
    }
    assert vs[..k] == vs;
  }

  lemma PackedGrow(vs: seq<U64>, k: nat)
    requires k < |vs|
    ensures PackedBytes(vs[..k + 1]) == PackedBytes(vs[..k]) + VarintBytes(vs[k])
  {
    PackedAppend(vs[..k], [vs[k]]);
    assert vs[..k] + [vs[k]] == vs[..k + 1];
    assert PackedBytes([vs[k]]) == VarintBytes(vs[k]) + PackedBytes([]);
  }

  lemma {:induction false} PackedAppend(a: seq<U64>, b: seq<U64>)
    ensures PackedBytes(a + b) == PackedBytes(a) + PackedBytes(b)
    decreases |a|
  {
    if a == [] {
      assert a + b == b;
    } else {
      assert (a + b)[0] == a[0];
      assert (a + b)[1..] == a[1..] + b;
      PackedAppend(a[1..], b);
    }
  }

  /** `for num >= 1<<7 { dAtA3[j2] = uint8(num&0x7f | 0x80); num >>= 7; j2++ };
      dAtA3[j2] = uint8(num); j2++`. */
  method AppendVarint(tmp: array<Byte>, j: nat, v: U64) returns (j': nat)
    requires j + |VarintBytes(v)| <= tmp.Length
    modifies tmp
    ensures j' == j + |VarintBytes(v)|
    ensures tmp[..j'] == old(tmp[..j]) + VarintBytes(v)
  {
    ghost var enc := VarintBytes(v);
    var x := v;
    j' := j;
    while x >= 0x80
      invariant j <= j' && j' - j + |VarintBytes(x)| == |enc|
      invariant enc[j' - j..] == VarintBytes(x)
      invariant forall k :: 0 <= k < j ==> tmp[k] == old(tmp[k])
      invariant forall k :: j <= k < j' ==> tmp[k] == enc[k - j]
      decreases x
    {
      tmp[j'] := x % 0x80 + 0x80;
      assert enc[j' - j + 1..] == enc[j' - j..][1..];
      x := x / 0x80;
      j' := j' + 1;
    }
    tmp[j'] := x;
    j' := j' + 1;
    AppendedBytes(tmp[..j'], old(tmp[..j]), enc);
  }

  lemma AppendedBytes(s: seq<Byte>, before: seq<Byte>, enc: seq<Byte>)
    requires |s| == |before| + |enc|
    requires forall k :: 0 <= k < |before| ==> s[k] == before[k]
    requires forall k :: |before| <= k < |s| ==> s[k] == enc[k - |before|]
    ensures s == before + enc
  {
  }

  /** `if len(m.X) > 0 { <pack>; i -= j2; copy(dAtA[i:], dAtA3[:j2]); i =
      encodeVarintEvm(dAtA, i, uint64(j2)); <tag> }`. */
  method PutPacked(buf: array<Byte>, i: nat, num: nat, vs: seq<U64>,
                   ghost orig: seq<Byte>, ghost end: nat, ghost content: seq<Byte>) returns (j: nat)
    requires Filled(buf[..], orig, i, end, content) && i < TWO_63
    requires 1 <= num < MAX_FIELD && |Concat(PackedField(num, vs))| <= i
    modifies buf
    ensures j == i - |Concat(PackedField(num, vs))|
    ensures Filled(buf[..], orig, j, end, Concat(PackedField(num, vs)) + content)
  {
    j := i;
    if |vs| > 0 {
      var f := Field(num, PackedP(vs));
      ConcatOne(f);
      var tmp, j2 := PackVarints(vs);
      var packed := tmp[..j2];
      j := PutBytes(buf, i, packed, orig, end, content);
      j := PutVarint(buf, j, j2, orig, end, packed + content);
      j := PutVarint(buf, j, num * 8 + 2, orig, end, VarintBytes(j2) + (packed + content));
      assert FieldBytes(f) == VarintBytes(num * 8 + 2) + (VarintBytes(j2) + packed);
    }
  }
}
