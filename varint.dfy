/** Base-128 varints as evm.pb.go writes and reads them: `encodeVarintEvm`,
    `sovEvm`, and the decode loop that the generated code copies inline at every
    read site. Also Go's fixed-width integer views that the codec converts
    between (uint64, int64, int32). */
module Varint {
  import opened Errors

  const TWO_32: int := 0x1_0000_0000
  const TWO_63: int := 0x8000_0000_0000_0000
  const TWO_64: int := 0x1_0000_0000_0000_0000

  type Byte = b: int | 0 <= b < 0x100
  type U64 = x: int | 0 <= x < TWO_64
  type I64 = x: int | -TWO_63 <= x < TWO_63
  type I32 = x: int | -0x8000_0000 <= x < 0x8000_0000

  /** Go's int64(u) for a uint64 u: the two's-complement signed view. */
  function I64Of(u: U64): I64 {
    if u < TWO_63 then u else u - TWO_64
  }

  /** Go's uint64(x) for a signed x (int64, or an int32 sign-extended first). */
  function U64Of(x: I64): (u: U64)
    ensures I64Of(u) == x
    ensures x >= 0 ==> u == x
  {
    x % TWO_64
  }

  /** Go's int32(u) for a uint64 u: the low 32 bits, read as signed. */
  function I32Of(u: U64): (r: I32)
    ensures 0 <= u < 0x8000_0000 ==> r == u
  {
    var w := u % TWO_32;
    if w < 0x8000_0000 then w else w - TWO_32
  }

  /** Sign-extending an int32 to 64 bits and truncating it back is the identity. */
  lemma I32RoundTrip(x: I32)
    ensures I32Of(U64Of(x)) == x
  {
    if x < 0 {
      assert U64Of(x) == x + TWO_64;
      assert (x + TWO_64) % TWO_32 == x + TWO_32;
    }
  }

  function Pow2(n: nat): (r: nat)
    ensures r >= 1
  {
    if n == 0 then 1 else 2 * Pow2(n - 1)
  }

  lemma {:induction false} Pow2Add(a: nat, b: nat)
    ensures Pow2(a + b) == Pow2(a) * Pow2(b)
  {
    if b > 0 {
      Pow2Add(a, b - 1);
      assert Pow2(a + b) == 2 * Pow2(a + b - 1);
    }
  }

  lemma {:induction false} Pow2Monotone(a: nat, b: nat)
    requires a <= b
    ensures Pow2(a) <= Pow2(b)
  {
    if a < b {
      Pow2Monotone(a, b - 1);
    }
  }

  lemma Pow2Seven()
    ensures Pow2(7) == 0x80
  {
  }

  lemma Pow2SixtyFour()
    ensures Pow2(64) == TWO_64
  {
    assert Pow2(8) == 0x100;
    Pow2Add(8, 8);
    assert Pow2(16) == 0x1_0000;
    Pow2Add(16, 16);
    assert Pow2(32) == 0x1_0000_0000;
    Pow2Add(32, 32);
  }

  /** math/bits.Len64: the number of bits needed to write x. */
  function BitLen(x: nat): nat {
    if x == 0 then 0 else 1 + BitLen(x / 2)
  }

  lemma {:induction false} BitLenBound(x: nat, n: nat)
    requires x < Pow2(n)
    ensures BitLen(x) <= n
  {
    if x > 0 {
      BitLenBound(x / 2, n - 1);
    }
  }

  lemma BitLenDiv128(x: nat)
    requires x >= 0x80
    ensures BitLen(x) == 7 + BitLen(x / 0x80)
  {
    assert BitLen(x) == 1 + BitLen(x / 2);
    assert x / 2 / 2 == x / 4;
    assert BitLen(x / 2) == 1 + BitLen(x / 4);
    assert x / 4 / 2 == x / 8;
    assert BitLen(x / 4) == 1 + BitLen(x / 8);
    assert x / 8 / 2 == x / 16;
    assert BitLen(x / 8) == 1 + BitLen(x / 16);
    assert x / 16 / 2 == x / 32;
    assert BitLen(x / 16) == 1 + BitLen(x / 32);
    assert x / 32 / 2 == x / 64;
    assert BitLen(x / 32) == 1 + BitLen(x / 64);
    assert x / 64 / 2 == x / 128;
    assert BitLen(x / 64) == 1 + BitLen(x / 128);
  }

  /** x|1 does not change the bit length of a non-zero x. */
  lemma BitLenOrOne(x: nat)
    requires x >= 1
    ensures BitLen(OrOne(x)) == BitLen(x)
  {
    if x % 2 == 0 {
      assert (x + 1) / 2 == x / 2;
    }
  }

  /** Go's x|1. */
  function OrOne(x: nat): nat {
    if x % 2 == 0 then x + 1 else x
  }

  /** The varint encoding of v: seven bits per byte, least significant group
      first, the high bit set on every byte but the last. */
  function VarintBytes(v: nat): (r: seq<Byte>)
    ensures 1 <= |r|
    decreases v
  {
    if v < 0x80 then [v] else [v % 0x80 + 0x80] + VarintBytes(v / 0x80)
  }

  /** Every byte of a varint but the last carries the continuation bit. */
  lemma {:induction false} VarintBytesShape(v: nat)
    ensures VarintBytes(v)[|VarintBytes(v)| - 1] < 0x80
    ensures forall k :: 0 <= k < |VarintBytes(v)| - 1 ==> VarintBytes(v)[k] >= 0x80
    decreases v
  {
    if v >= 0x80 {
      VarintBytesShape(v / 0x80);
    }
  }

  lemma {:induction false} SovMatchesLength(x: U64)
    ensures (BitLen(OrOne(x)) + 6) / 7 == |VarintBytes(x)|
    ensures |VarintBytes(x)| <= 10
    decreases x
  {
    Pow2SixtyFour();
    if x == 0 {
      assert BitLen(1) == 1;
    } else {
      BitLenOrOne(x);
      BitLenBound(x, 64);
      if x < 0x80 {
        BitLenBound(x, 7);
      } else {
        BitLenDiv128(x);
        SovMatchesLength(x / 0x80);
        BitLenOrOne(x / 0x80);
      }
    }
  }

  /** sovEvm: the number of bytes the varint of x takes, computed from its bit
      length without writing anything. */
  function Sov(x: U64): (n: int)
    ensures n == |VarintBytes(x)|
    ensures 1 <= n <= 10
  {
    SovMatchesLength(x);
    (BitLen(OrOne(x)) + 6) / 7
  }

  /** encodeVarintEvm: writes the varint of v so that it ends just before
      `offset`, and returns the index of its first byte. */
  method EncodeVarint(buf: array<Byte>, offset: nat, v: U64) returns (base: nat)
    requires Sov(v) <= offset <= buf.Length
    modifies buf
    ensures base == offset - Sov(v)
    ensures buf[..] == old(buf[..base]) + VarintBytes(v) + old(buf[offset..])
  {
    ghost var enc := VarintBytes(v);
    var off := offset - Sov(v);
    base := off;
    var x := v;
    while x >= 0x80
      invariant base <= off < offset
      invariant off - base + |VarintBytes(x)| == |enc|
      invariant enc[off - base..] == VarintBytes(x)
      invariant forall k :: base <= k < off ==> buf[k] == enc[k - base]
      invariant forall k :: 0 <= k < buf.Length && !(base <= k < offset) ==> buf[k] == old(buf[k])
      decreases x
    {
      buf[off] := x % 0x80 + 0x80;
      assert enc[off - base + 1..] == enc[off - base..][1..];
      x := x / 0x80;
      off := off + 1;
    }
    buf[off] := x;
    Splice(buf[..], old(buf[..]), base, offset, enc);
  }

  /** A buffer that agrees with `before` outside [base, offset) and holds `enc`
      inside it is `before` with that window replaced. */
  /** A window of bytes known to hold `s` holds every slice of `s` at the
      matching offsets `from == pos + i` and `to == pos + j`. */
  lemma SliceOf(data: seq<Byte>, pos: nat, s: seq<Byte>, i: nat, j: nat, from: nat, to: nat)
    requires pos + |s| <= |data| && data[pos..pos + |s|] == s
    requires i <= j <= |s| && from == pos + i && to == pos + j
    ensures data[from..to] == s[i..j]
  {
    forall k | 0 <= k < j - i
      ensures data[pos + i..pos + j][k] == s[i..j][k]
    {
      assert data[pos..pos + |s|][i + k] == s[i + k];
    }
  }

  /** A window holding `a + b` holds `a`, then `b`. */
  lemma SplitAt(data: seq<Byte>, from: nat, a: seq<Byte>, b: seq<Byte>, mid: nat, to: nat)
    requires to == from + |a| + |b| <= |data| && data[from..to] == a + b
    requires mid == from + |a|
    ensures data[from..mid] == a && data[mid..to] == b
  {
    var ab := a + b;
    SliceOf(data, from, ab, 0, |a|, from, mid);
    SliceOf(data, from, ab, |a|, |ab|, mid, to);
    assert ab[0..|a|] == a;
    assert ab[|a|..|ab|] == b;
  }

  lemma Splice(after: seq<Byte>, before: seq<Byte>, base: nat, offset: nat, enc: seq<Byte>)
    requires |after| == |before| && base + |enc| == offset <= |before|
    requires forall k :: base <= k < offset ==> after[k] == enc[k - base]
    requires forall k :: 0 <= k < |after| && !(base <= k < offset) ==> after[k] == before[k]
    ensures after == before[..base] + enc + before[offset..]
  {
    var want := before[..base] + enc + before[offset..];
    assert forall k :: 0 <= k < |after| ==> after[k] == want[k];
  }

  /** The bytes of the varint at `pos`, as the inline decode loop consumes
      them: it stops after the first byte below 0x80, fails with
      UnexpectedEOF when the buffer ends first, and with IntOverflow when an
      eleventh byte would be needed (`shift` reaches 64). The result is the
      position after the varint. This is also skipEvm's varint case. */
  function ScanVarintFrom(data: seq<Byte>, pos: nat, shift: nat): (r: Result<nat>)
    ensures r.Ok? ==> pos < r.value <= |data|
    decreases 64 - shift
  {
    if shift >= 64 then Err(IntOverflow)
    else if pos >= |data| then Err(UnexpectedEOF)
    else if data[pos] < 0x80 then Ok(pos + 1)
    else ScanVarintFrom(data, pos + 1, shift + 7)
  }

  /** The number that the 7-bit groups of data[pos..end] spell, least
      significant group first. */
  function GroupsValue(data: seq<Byte>, pos: nat, end: nat): nat
    requires pos <= end <= |data|
    decreases end - pos
  {
    if pos == end then 0 else data[pos] % 0x80 + 0x80 * GroupsValue(data, pos + 1, end)
  }

  /** A varint read at `pos`: the value its groups spell, cut to the 64 bits a
      uint64 keeps, and the position after it. */
  function ReadVarint(data: seq<Byte>, pos: nat): (r: Result<(U64, nat)>)
    ensures r.Ok? ==> pos < r.value.1 <= |data|
  {
    var end :- ScanVarintFrom(data, pos, 0);
    Ok((GroupsValue(data, pos, end) % TWO_64, end))
  }

  /** The groups of data[pos..i] accumulated the way the decode loop does it,
      each shifted left by seven bits more than the one before. */
  function ShiftedGroups(data: seq<Byte>, pos: nat, i: nat): nat
    requires pos <= i <= |data|
    decreases i - pos
  {
    if i == pos then 0
    else ShiftedGroups(data, pos, i - 1) + (data[i - 1] % 0x80) * Pow2(7 * (i - 1 - pos))
  }

  /** The algebra of one step of ShiftedGroupsFront, over plain numbers. */
  lemma ShiftStep(a: nat, b: nat, d0: nat, d: nat, p: nat, x: nat, y: nat)
    requires a == d0 + 0x80 * b
    requires x == a + d * (p * 0x80) && y == b + d * p
    ensures x == d0 + 0x80 * y
  {
  }

  lemma {:induction false} ShiftedGroupsFront(data: seq<Byte>, pos: nat, end: nat)
    requires pos < end <= |data|
    ensures ShiftedGroups(data, pos, end) == data[pos] % 0x80 + 0x80 * ShiftedGroups(data, pos + 1, end)
    decreases end - pos
  {
    if end > pos + 1 {
      ShiftedGroupsFront(data, pos, end - 1);
      var d := data[end - 1] % 0x80;
      var k := 7 * (end - 2 - pos);
      Pow2Add(k, 7);
      Pow2Seven();
      assert 7 * (end - 1 - pos) == k + 7;
      ShiftStep(ShiftedGroups(data, pos, end - 1), ShiftedGroups(data, pos + 1, end - 1), data[pos] % 0x80,
                d, Pow2(k), ShiftedGroups(data, pos, end), ShiftedGroups(data, pos + 1, end));
    }
  }

  /** Accumulating by shifts and reading the groups from the front agree. */
  lemma {:induction false} ShiftedGroupsValue(data: seq<Byte>, pos: nat, end: nat)
    requires pos <= end <= |data|
    ensures ShiftedGroups(data, pos, end) == GroupsValue(data, pos, end)
    decreases end - pos
  {
    if pos < end {
      ShiftedGroupsFront(data, pos, end);
      ShiftedGroupsValue(data, pos + 1, end);
    }
  }

  lemma ModAdd(a: nat, b: nat)
    ensures (a % TWO_64 + b) % TWO_64 == (a + b) % TWO_64
  {
    var q := a / TWO_64;
    assert a + b == (a % TWO_64 + b) + q * TWO_64;
  }

  /** One iteration of the decode loop keeps the accumulator equal to the
      shifted groups read so far, modulo 2^64. */
  lemma GroupStep(data: seq<Byte>, pos: nat, i: nat, shift: nat)
    requires pos <= i < |data| && shift == 7 * (i - pos)
    ensures ShiftedGroups(data, pos, i + 1) % TWO_64
         == (ShiftedGroups(data, pos, i) % TWO_64 + (data[i] % 0x80) * Pow2(shift)) % TWO_64
  {
    assert ShiftedGroups(data, pos, i + 1) == ShiftedGroups(data, pos, i) + (data[i] % 0x80) * Pow2(shift);
    ModAdd(ShiftedGroups(data, pos, i), (data[i] % 0x80) * Pow2(shift));
  }

  /** The inline decode loop. `wire |= uint64(b&0x7F) << shift` is written as
      an addition modulo 2^64: the new group's bits lie above the ones already
      read, and the shift drops those past 64. */
  method DecodeVarint(data: seq<Byte>, pos: nat) returns (r: Result<(U64, nat)>)
    ensures r == ReadVarint(data, pos)
  {
    var i: nat := pos;
    var acc: U64 := 0;
    var shift: nat := 0;
    while true
      invariant pos <= i && shift == 7 * (i - pos)
      invariant i <= |data| || i == pos
      invariant ScanVarintFrom(data, pos, 0) == ScanVarintFrom(data, i, shift)
      invariant acc == if i <= |data| then ShiftedGroups(data, pos, i) % TWO_64 else 0
      decreases 64 - shift
    {
      if shift >= 64 {
        return Err(IntOverflow);
      }
      if i >= |data| {
        return Err(UnexpectedEOF);
      }
      var b := data[i];
      GroupStep(data, pos, i, shift);
      acc := (acc + (b % 0x80) * Pow2(shift)) % TWO_64;
      i := i + 1;
      if b < 0x80 {
        ShiftedGroupsValue(data, pos, i);
        return Ok((acc, i));
      }
      shift := shift + 7;
    }
  }

  lemma {:induction false} ScanEncoded(data: seq<Byte>, pos: nat, shift: nat, v: nat)
    requires shift + 7 * (|VarintBytes(v)| - 1) < 64
    requires pos + |VarintBytes(v)| <= |data|
    requires data[pos..pos + |VarintBytes(v)|] == VarintBytes(v)
    ensures ScanVarintFrom(data, pos, shift) == Ok(pos + |VarintBytes(v)|)
    ensures GroupsValue(data, pos, pos + |VarintBytes(v)|) == v
    decreases v
  {
    assert data[pos] == VarintBytes(v)[0];
    if v >= 0x80 {
      var hi := v / 0x80;
      assert VarintBytes(v) == [v % 0x80 + 0x80] + VarintBytes(hi);
      assert data[pos + 1..pos + 1 + |VarintBytes(hi)|] == VarintBytes(v)[1..];
      ScanEncoded(data, pos + 1, shift + 7, hi);
    }
  }

  /** A varint of a uint64 takes at most ten bytes. */
  lemma VarintLength(v: U64)
    ensures |VarintBytes(v)| <= 10
  {
    SovMatchesLength(v);
  }

  /** Decoding the bytes `encodeVarintEvm` writes recovers the value and moves
      the cursor past exactly those bytes (`sovEvm(v)` of them). */
  lemma ReadVarintEncoded(data: seq<Byte>, pos: nat, v: U64)
    requires pos + |VarintBytes(v)| <= |data|
    requires data[pos..pos + |VarintBytes(v)|] == VarintBytes(v)
    ensures ReadVarint(data, pos) == Ok((v, pos + |VarintBytes(v)|))
  {
    VarintLength(v);
    ScanEncoded(data, pos, 0, v);
  }

  lemma {:induction false} ScanOverflow(data: seq<Byte>, pos: nat, shift: nat)
    requires shift % 7 == 0 && shift < 64
    requires pos + (70 - shift) / 7 <= |data|
    requires forall k :: pos <= k < pos + (70 - shift) / 7 ==> data[k] >= 0x80
    ensures ScanVarintFrom(data, pos, shift) == Err(IntOverflow)
    decreases 64 - shift
  {
    if shift + 7 < 64 {
      ScanOverflow(data, pos + 1, shift + 7);
    }
  }

  /** Ten bytes that all carry the continuation bit overflow 64 bits. */
  lemma ReadVarintOverflow(data: seq<Byte>, pos: nat)
    requires pos + 10 <= |data|
    requires forall k :: pos <= k < pos + 10 ==> data[k] >= 0x80
    ensures ReadVarint(data, pos) == Err(IntOverflow)
  {
    ScanOverflow(data, pos, 0);
  }

  lemma {:induction false} ScanTruncated(data: seq<Byte>, pos: nat, shift: nat)
    requires shift % 7 == 0 && shift < 64
    requires pos <= |data| < pos + (70 - shift) / 7
    requires forall k :: pos <= k < |data| ==> data[k] >= 0x80
    ensures ScanVarintFrom(data, pos, shift) == Err(UnexpectedEOF)
    decreases 64 - shift
  {
    if pos < |data| {
      ScanTruncated(data, pos + 1, shift + 7);
    }
  }

  /** A buffer that ends, within ten bytes, before any byte below 0x80 is
      truncated. */
  lemma ReadVarintTruncated(data: seq<Byte>, pos: nat)
    requires pos <= |data| < pos + 10
    requires forall k :: pos <= k < |data| ==> data[k] >= 0x80
    ensures ReadVarint(data, pos) == Err(UnexpectedEOF)
  {
    ScanTruncated(data, pos, 0);
  }
}
