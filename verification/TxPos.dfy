/** Transaction positions within blocks: delta-encoded in chunks of up to 64 transactions,
    stored under each chunk's last transaction number and found by a forward seek. */
module TxPos {
  import opened Collections
  import opened Ledger

  const U32: nat := 0x1_0000_0000
  const CHUNK_SIZE: nat := 64

  datatype Pos = Pos(offset: nat, size: nat)

  // --------------------------------------------------------------------------------- CompactSize

  /** Little-endian bytes of a number below 2^32, in Bitcoin's variable-length form. */
  function EncodeVarInt(n: nat): (r: seq<Byte>)
    requires n < U32
  {
    if n < 0xFD then [n]
    else if n < 0x1_0000 then [0xFD, n % 0x100, n / 0x100]
    else [0xFE, n % 0x100, n / 0x100 % 0x100, n / 0x1_0000 % 0x100, n / 0x100_0000]
  }

  /** Reads one number; a longer form than needed is rejected, and so is one past 32 bits. */
  function DecodeVarInt(b: seq<Byte>): Option<(nat, nat)> {
    if |b| == 0 then None
    else if b[0] < 0xFD then Some((b[0], 1))
    else if b[0] == 0xFD then
      if |b| < 3 then None
      else
        var n := (b[1] as int) + (b[2] as int) * 0x100;
        if n < 0xFD then None else Some((n, 3))
    else if b[0] == 0xFE then
      if |b| < 5 then None
      else
        var n := (b[1] as int) + (b[2] as int) * 0x100 + (b[3] as int) * 0x1_0000 + (b[4] as int) * 0x100_0000;
        if n < 0x1_0000 then None else Some((n, 5))
    else None
  }

  lemma VarIntRoundTrip(n: nat, rest: seq<Byte>)
    requires n < U32
    ensures DecodeVarInt(EncodeVarInt(n) + rest) == Some((n, |EncodeVarInt(n)|))
  {
    var b := EncodeVarInt(n) + rest;
    if n >= 0x1_0000 {
      var x, y, z: nat := n / 0x100, n / 0x1_0000, n / 0x100_0000;
      assert b[0] == 0xFE && b[1] == n % 0x100 && b[2] == x % 0x100 && b[3] == y % 0x100 && b[4] == z;
      FourBytes(n);
    }
  }

  /** A number is read exactly from its own shortest form. */
  lemma VarIntReadsExactly(b: seq<Byte>, n: nat)
    requires n < U32
    ensures DecodeVarInt(b) == Some((n, |EncodeVarInt(n)|)) <==> EncodeVarInt(n) <= b
    ensures DecodeVarInt(b).Some? && DecodeVarInt(b).value.0 == n ==> EncodeVarInt(n) <= b
  {
    if EncodeVarInt(n) <= b {
      VarIntRoundTrip(n, b[|EncodeVarInt(n)|..]);
      assert b == EncodeVarInt(n) + b[|EncodeVarInt(n)|..];
    }
    if DecodeVarInt(b).Some? && DecodeVarInt(b).value.0 == n {
      if n >= 0x1_0000 { FourBytesBack(b[1], b[2], b[3], b[4]); }
    }
  }

  lemma ReadsInRange(b: seq<Byte>)
    ensures DecodeVarInt(b).Some? ==> DecodeVarInt(b).value.0 < U32 && DecodeVarInt(b).value.1 <= |b|
  {}

  lemma FourBytesBack(a: Byte, b: Byte, c: Byte, d: Byte)
    ensures var n := (a as int) + (b as int) * 0x100 + (c as int) * 0x1_0000 + (d as int) * 0x100_0000;
            n % 0x100 == a && n / 0x100 % 0x100 == b && n / 0x1_0000 % 0x100 == c && n / 0x100_0000 == d
  {
    var n := (a as int) + (b as int) * 0x100 + (c as int) * 0x1_0000 + (d as int) * 0x100_0000;
    assert n / 0x100 == (b as int) + (c as int) * 0x100 + (d as int) * 0x1_0000;
    assert n / 0x1_0000 == (c as int) + (d as int) * 0x100;
  }

  lemma FourBytes(n: nat)
    ensures n % 0x100 + n / 0x100 % 0x100 * 0x100 + n / 0x1_0000 % 0x100 * 0x1_0000 + n / 0x100_0000 * 0x100_0000 == n
  {
    ByteDown(n);
    TwoBytesDown(n);
    ByteDown(n / 0x100);
    ThreeBytesDown(n);
    ByteDown(n / 0x1_0000);
  }

  lemma ByteDown(n: nat)
    ensures n == n % 0x100 + n / 0x100 * 0x100
  {}

  lemma TwoBytesDown(n: nat)
    ensures n / 0x1_0000 == n / 0x100 / 0x100
  {}

  lemma ThreeBytesDown(n: nat)
    ensures n / 0x100_0000 == n / 0x1_0000 / 0x100
  {}

  /** The number whose bytes these are, the least significant first. */
  function LittleEndian(b: seq<Byte>): nat {
    if |b| == 0 then 0 else (b[0] as int) + 0x100 * LittleEndian(b[1..])
  }

  /** The form is Bitcoin's: one byte below 0xFD, else a marker and two or four bytes, the least
      significant first. */
  lemma VarIntIsCompact(n: nat)
    requires n < U32
    ensures var b := EncodeVarInt(n);
            && (n < 0xFD ==> b == [n])
            && (0xFD <= n < 0x1_0000 ==> |b| == 3 && b[0] == 0xFD && LittleEndian(b[1..]) == n)
            && (0x1_0000 <= n ==> |b| == 5 && b[0] == 0xFE && LittleEndian(b[1..]) == n)
  {
    var b := EncodeVarInt(n);
    if 0xFD <= n < 0x1_0000 {
      LittleEndianTwo(b[1..]);
      ByteDown(n);
    } else if 0x1_0000 <= n {
      LittleEndianFour(b[1..]);
      FourBytes(n);
    }
  }

  lemma LittleEndianTwo(b: seq<Byte>)
    requires |b| == 2
    ensures LittleEndian(b) == (b[0] as int) + (b[1] as int) * 0x100
  {
    assert LittleEndian(b[1..]) == b[1] as int;
  }

  lemma LittleEndianFour(b: seq<Byte>)
    requires |b| == 4
    ensures LittleEndian(b) == (b[0] as int) + (b[1] as int) * 0x100 + (b[2] as int) * 0x1_0000 + (b[3] as int) * 0x100_0000
  {
    LittleEndianTwo(b[2..]);
    assert b[1..][1..] == b[2..];
    assert LittleEndian(b[1..]) == (b[1] as int) + 0x100 * LittleEndian(b[2..]);
  }

  // ------------------------------------------------------------------------------------- offsets

  /** Ascending 32-bit offsets of up to 255 transactions, with the end of the last. */
  ghost predicate Offsets(o: seq<nat>) {
    && 2 <= |o| <= 256
    && (forall i :: 0 <= i < |o| ==> o[i] < U32)
    && (forall i :: 0 <= i < |o| - 1 ==> o[i] <= o[i+1])
  }

  /** The smallest transaction size among the first `k`. */
  function MinSize(o: seq<nat>, k: nat): (m: nat)
    requires 1 <= k < |o| && forall i :: 0 <= i < k ==> o[i] <= o[i+1]
    ensures forall i :: 0 <= i < k ==> m <= o[i+1] - o[i]
  {
    var last := o[k] - o[k-1];
    if k == 1 then last
    else
      var m := MinSize(o, k - 1);
      if last < m then last else m
  }

  lemma {:induction false} MinIsAttained(o: seq<nat>, k: nat) returns (i: nat)
    requires 1 <= k < |o| && forall i :: 0 <= i < k ==> o[i] <= o[i+1]
    ensures i < k && MinSize(o, k) == o[i+1] - o[i]
  {
    i := k - 1;
    if k > 1 {
      var j := MinIsAttained(o, k - 1);
      if MinSize(o, k) != o[k] - o[k-1] { i := j; }
    }
  }

  /** Sizes above the minimum, from transaction `i` on. */
  function EncodeDeltas(o: seq<nat>, min: nat, i: nat): seq<Byte>
    requires 1 <= |o| && i < |o|
    requires forall k :: i <= k < |o| - 1 ==> min <= o[k+1] - o[k] < U32
    decreases |o| - i
  {
    if i == |o| - 1 then []
    else EncodeVarInt(o[i+1] - o[i] - min) + EncodeDeltas(o, min, i + 1)
  }

  function Encode(o: seq<nat>): seq<Byte>
    requires Offsets(o)
  {
    var min := MinSize(o, |o| - 1);
    [|o| - 1] + EncodeVarInt(min) + EncodeVarInt(o[0]) + EncodeDeltas(o, min, 0)
  }

  /** Rebuilds `k` further offsets; a sum past 32 bits fails. */
  function DecodeDeltas(b: seq<Byte>, min: nat, offset: nat, k: nat): Option<seq<nat>>
    decreases k
  {
    if k == 0 then Some([])
    else
      match DecodeVarInt(b)
      case None => None
      case Some((delta, used)) =>
        if used > |b| || min + delta >= U32 || offset + (min + delta) >= U32 then None
        else
          match DecodeDeltas(b[used..], min, offset + (min + delta), k - 1)
          case None => None
          case Some(rest) => Some([offset + (min + delta)] + rest)
  }

  function Decode(b: seq<Byte>): Option<seq<nat>> {
    if |b| == 0 then None
    else
      match DecodeVarInt(b[1..])
      case None => None
      case Some((min, used)) =>
        if used > |b| - 1 then None
        else
          match DecodeVarInt(b[1 + used..])
          case None => None
          case Some((first, used')) =>
            if 1 + used + used' > |b| then None
            else
              match DecodeDeltas(b[1 + used + used'..], min, first, b[0])
              case None => None
              case Some(rest) => Some([first] + rest)
  }

  lemma {:induction false} DeltasRoundTrip(o: seq<nat>, min: nat, i: nat)
    requires 1 <= |o| && i < |o|
    requires forall k :: 0 <= k < |o| ==> o[k] < U32
    requires forall k :: i <= k < |o| - 1 ==> min <= o[k+1] - o[k] < U32
    ensures DecodeDeltas(EncodeDeltas(o, min, i), min, o[i], |o| - 1 - i) == Some(o[i+1..])
    decreases |o| - i
  {
    hide EncodeVarInt, DecodeDeltas;
    if i < |o| - 1 {
      var delta := o[i+1] - o[i] - min;
      DeltasRoundTrip(o, min, i + 1);
      DecodeStep(delta, EncodeDeltas(o, min, i + 1), min, o[i], |o| - 1 - i, o[i+2..]);
      FirstAndRest(o, i + 1);
    } else {
      DecodeEnd(EncodeDeltas(o, min, i), min, o[i]);
      Nil(o[i+1..]);
    }
  }

  lemma DecodeEnd(b: seq<Byte>, min: nat, offset: nat)
    ensures DecodeDeltas(b, min, offset, 0) == Some([])
  {}

  lemma DecodeStep(delta: nat, rest: seq<Byte>, min: nat, offset: nat, k: nat, tail: seq<nat>)
    requires k > 0 && delta < U32 && min + delta < U32 && offset + (min + delta) < U32
    requires DecodeDeltas(rest, min, offset + (min + delta), k - 1) == Some(tail)
    ensures DecodeDeltas(EncodeVarInt(delta) + rest, min, offset, k) == Some([offset + (min + delta)] + tail)
  {
    hide EncodeVarInt, DecodeVarInt;
    VarIntRoundTrip(delta, rest);
    DropFront(EncodeVarInt(delta), rest);
  }

  lemma DropFront<T>(a: seq<T>, b: seq<T>)
    ensures (a + b)[|a|..] == b && |a + b| == |a| + |b|
  {}

  lemma FirstAndRest<T>(s: seq<T>, i: nat)
    requires i < |s|
    ensures s[i..] == [s[i]] + s[i+1..]
  {}

  /** Decoding gives back the offsets, and no sum on the way passes 32 bits. */
  lemma OffsetsRoundTrip(o: seq<nat>)
    requires Offsets(o)
    ensures Decode(Encode(o)) == Some(o)
  {
    hide EncodeVarInt, DecodeDeltas, EncodeDeltas, Decode;
    var min := MinSize(o, |o| - 1);
    DeltasRoundTrip(o, min, 0);
    DecodeHead(|o| - 1, min, o[0], EncodeDeltas(o, min, 0), o[1..]);
    FirstAndRest(o, 0);
    DropNone(o);
  }

  /** Bytes that are these numbers one after the other, and nothing more. */
  ghost predicate Reads(b: seq<Byte>, fields: seq<nat>)
    decreases |fields|
  {
    if |fields| == 0 then |b| == 0
    else
      match DecodeVarInt(b)
      case None => false
      case Some((n, used)) => n == fields[0] && used <= |b| && Reads(b[used..], fields[1..])
  }

  /** The sizes above the minimum, from transaction `i` on. */
  ghost function Deltas(o: seq<nat>, min: nat, i: nat): (r: seq<nat>)
    requires i < |o| && forall k :: i <= k < |o| - 1 ==> o[k] + min <= o[k+1]
    ensures |r| == |o| - 1 - i
  {
    seq(|o| - 1 - i, k requires 0 <= k < |o| - 1 - i => o[i+k+1] - o[i+k] - min)
  }

  lemma ReadsMore(n: nat, b: seq<Byte>, fields: seq<nat>)
    requires n < U32 && Reads(b, fields)
    ensures Reads(EncodeVarInt(n) + b, [n] + fields)
  {
    hide EncodeVarInt, DecodeVarInt;
    VarIntRoundTrip(n, b);
    assert (EncodeVarInt(n) + b)[|EncodeVarInt(n)|..] == b && ([n] + fields)[1..] == fields;
  }

  /** An encoded chunk says, in this order: how many transactions, the size of the smallest, the first
      offset, and how much larger each transaction is than the smallest. */
  lemma EncodingSays(o: seq<nat>) returns (min: nat)
    requires Offsets(o)
    ensures (forall i :: 0 <= i < |o| - 1 ==> o[i] + min <= o[i+1]) && (exists i :: 0 <= i < |o| - 1 && o[i] + min == o[i+1])
    ensures |Encode(o)| > 0 && Encode(o)[0] == |o| - 1
    ensures Reads(Encode(o)[1..], [min] + ([o[0]] + Deltas(o, min, 0)))
  {
    min := MinSize(o, |o| - 1);
    var least := MinIsAttained(o, |o| - 1);
    hide EncodeVarInt, DecodeVarInt, MinSize, Reads, Deltas, EncodeDeltas;
    DeltasRead(o, min, 0);
    ReadsMore(o[0], EncodeDeltas(o, min, 0), Deltas(o, min, 0));
    ReadsMore(min, EncodeVarInt(o[0]) + EncodeDeltas(o, min, 0), [o[0]] + Deltas(o, min, 0));
    Slices([(|o| - 1) as Byte], EncodeVarInt(min), EncodeVarInt(o[0]), EncodeDeltas(o, min, 0));
  }

  lemma {:induction false} DeltasRead(o: seq<nat>, min: nat, i: nat)
    requires i < |o| && forall k :: i <= k < |o| - 1 ==> o[k] + min <= o[k+1] && o[k+1] - o[k] < U32
    ensures Reads(EncodeDeltas(o, min, i), Deltas(o, min, i))
    decreases |o| - i
  {
    hide EncodeVarInt, DecodeVarInt;
    if i < |o| - 1 {
      hide Reads;
      DeltasRead(o, min, i + 1);
      ReadsMore(o[i+1] - o[i] - min, EncodeDeltas(o, min, i + 1), Deltas(o, min, i + 1));
      assert Deltas(o, min, i) == [o[i+1] - o[i] - min] + Deltas(o, min, i + 1);
    }
  }

  /** And bytes that are read as a chunk say just that of it, whatever follows them. */
  lemma DecodingSays(b: seq<Byte>) returns (min: nat, end: nat)
    ensures Decode(b).Some? ==>
              var o := Decode(b).value;
              && 1 <= end <= |b| && |o| == b[0] as nat + 1
              && (forall i :: 0 <= i < |o| ==> o[i] < U32) && (forall i :: 0 <= i < |o| - 1 ==> o[i] + min <= o[i+1])
              && Reads(b[1..end], [min] + ([o[0]] + Deltas(o, min, 0)))
  {
    hide EncodeVarInt, DecodeVarInt, Reads, DecodeDeltas, Deltas;
    min, end := 0, 0;
    if Decode(b).Some? {
      var (m, used) := DecodeVarInt(b[1..]).value;
      var (first, used') := DecodeVarInt(b[1 + used..]).value;
      ReadsInRange(b[1..]);
      ReadsInRange(b[1 + used..]);
      var tail := b[1 + used + used'..];
      var k := DeltasDecoded(tail, m, first, b[0]);
      min, end := m, 1 + used + used' + k;
      var o := Decode(b).value;
      ReadsOne(b[1 + used..end], first, used', Deltas(o, m, 0)) by {
        ReadPart(b[1 + used..], first, used', used' + k);
        Cut(b, 1 + used, used', end);
      }
      ReadsOne(b[1..end], m, used, [first] + Deltas(o, m, 0)) by {
        ReadPart(b[1..], m, used, used + used' + k);
        Cut(b, 1, used, end);
      }
    }
  }

  lemma Cut<T>(b: seq<T>, at: nat, n: nat, end: nat)
    requires at + n <= end <= |b|
    ensures b[at..end][n..] == b[at + n..end] && b[at..][..end - at] == b[at..end]
    ensures b[at + n..][..end - at - n] == b[at + n..end]
  {}

  /** Reading does not look past what it uses. */
  lemma ReadPart(b: seq<Byte>, n: nat, used: nat, end: nat)
    requires DecodeVarInt(b) == Some((n, used)) && used <= end <= |b|
    ensures DecodeVarInt(b[..end]) == Some((n, used))
  {}

  lemma ReadsOne(b: seq<Byte>, n: nat, used: nat, fields: seq<nat>)
    requires DecodeVarInt(b) == Some((n, used)) && used <= |b| && Reads(b[used..], fields)
    ensures Reads(b, [n] + fields)
  {
    hide DecodeVarInt;
    assert ([n] + fields)[1..] == fields;
  }

  lemma {:induction false} DeltasDecoded(b: seq<Byte>, min: nat, offset: nat, k: nat) returns (end: nat)
    requires offset < U32 && DecodeDeltas(b, min, offset, k).Some?
    ensures var o := [offset] + DecodeDeltas(b, min, offset, k).value;
            && |o| == k + 1 && end <= |b|
            && (forall i :: 0 <= i < |o| ==> o[i] < U32) && (forall i :: 0 <= i < |o| - 1 ==> o[i] + min <= o[i+1])
            && Reads(b[..end], Deltas(o, min, 0))
    decreases k
  {
    hide DecodeVarInt;
    if k == 0 {
      end := 0;
    } else {
      var (delta, used) := DecodeVarInt(b).value;
      var next := offset + (min + delta);
      end := DeltasDecoded(b[used..], min, next, k - 1);
      var rest := DecodeDeltas(b[used..], min, next, k - 1).value;
      end := used + end;
      hide DecodeDeltas, Reads;
      var o := [offset] + ([next] + rest);
      assert Deltas(o, min, 0) == [delta] + Deltas([next] + rest, min, 0) by { DeltasHead(offset, [next] + rest, min, delta); }
      ReadPart(b, delta, used, end);
      assert b[..end][used..] == b[used..][..end - used];
      ReadsOne(b[..end], delta, used, Deltas([next] + rest, min, 0));
    }
  }

  lemma DeltasHead(offset: nat, o: seq<nat>, min: nat, delta: nat)
    requires |o| > 0 && o[0] == offset + (min + delta) && forall i :: 0 <= i < |o| - 1 ==> o[i] + min <= o[i+1]
    ensures forall i :: 0 <= i < |[offset] + o| - 1 ==> ([offset] + o)[i] + min <= ([offset] + o)[i+1]
    ensures Deltas([offset] + o, min, 0) == [delta] + Deltas(o, min, 0)
  {}

  lemma DropNone<T>(s: seq<T>)
    ensures s[0..] == s
  {}

  lemma DecodeHead(count: Byte, min: nat, first: nat, d: seq<Byte>, tail: seq<nat>)
    requires min < U32 && first < U32 && DecodeDeltas(d, min, first, count) == Some(tail)
    ensures Decode([count] + EncodeVarInt(min) + EncodeVarInt(first) + d) == Some([first] + tail)
  {
    hide EncodeVarInt, DecodeVarInt, DecodeDeltas;
    var a, c := EncodeVarInt(min), EncodeVarInt(first);
    var b := [count] + a + c + d;
    Slices([count], a, c, d);
    VarIntRoundTrip(min, c + d);
    VarIntRoundTrip(first, d);
  }

  lemma Slices<T>(h: seq<T>, a: seq<T>, c: seq<T>, d: seq<T>)
    ensures (h + a + c + d)[|h|..] == a + (c + d)
    ensures (h + a + c + d)[|h| + |a|..] == c + d
    ensures (h + a + c + d)[|h| + |a| + |c|..] == d
    ensures |h| > 0 ==> (h + a + c + d)[0] == h[0]
  {}

  // ----------------------------------------------------------------- the same, as the code runs it

  /** The size of the smallest transaction. */
  method SmallestSize(o: seq<nat>) returns (min: nat)
    requires |o| >= 2 && forall i :: 0 <= i < |o| - 1 ==> o[i] <= o[i+1]
    ensures min == MinSize(o, |o| - 1)
  {
    min := o[1] - o[0];
    for k := 1 to |o| - 1
      invariant min == MinSize(o, k)
    {
      if o[k+1] - o[k] < min { min := o[k+1] - o[k]; }
    }
  }

  /** Serializes a chunk's offsets. */
  method EncodeOffsets(o: seq<nat>) returns (b: seq<Byte>)
    requires Offsets(o)
    ensures b == Encode(o)
  {
    var min := SmallestSize(o);
    var deltas := AppendDeltas(o, min);
    b := [|o| - 1] + EncodeVarInt(min) + EncodeVarInt(o[0]) + deltas;
  }

  method AppendDeltas(o: seq<nat>, min: nat) returns (b: seq<Byte>)
    requires 1 <= |o| && forall k :: 0 <= k < |o| - 1 ==> min <= o[k+1] - o[k] < U32
    ensures b == EncodeDeltas(o, min, 0)
  {
    hide EncodeVarInt;
    b := [];
    AppendNil(EncodeDeltas(o, min, 0));
    for i := 0 to |o| - 1
      invariant b + EncodeDeltas(o, min, i) == EncodeDeltas(o, min, 0)
    {
      AppendAssoc(b, EncodeVarInt(o[i+1] - o[i] - min), EncodeDeltas(o, min, i + 1));
      b := b + EncodeVarInt(o[i+1] - o[i] - min);
    }
    AppendNil(b);
  }

  /** Reads the offsets back; `None` stands for a decoding error or a 32-bit overflow. */
  method DecodeOffsets(b: seq<Byte>) returns (r: Option<seq<nat>>)
    ensures r == Decode(b)
  {
    if |b| == 0 { return None; }
    var m := DecodeVarInt(b[1..]);
    if m.None? { return None; }
    var (min, used) := m.value;
    if used > |b| - 1 { return None; }
    var f := DecodeVarInt(b[1 + used..]);
    if f.None? { return None; }
    var (first, used') := f.value;
    if 1 + used + used' > |b| { return None; }
    var rest := ReadDeltas(b[1 + used + used'..], min, first, b[0]);
    if rest.None? { return None; }
    r := Some([first] + rest.value);
  }

  method ReadDeltas(b: seq<Byte>, min: nat, first: nat, count: nat) returns (r: Option<seq<nat>>)
    ensures r == DecodeDeltas(b, min, first, count)
  {
    hide DecodeVarInt;
    var offset: nat, offsets: seq<nat>, left := first, [], b;
    ghost var whole := DecodeDeltas(b, min, first, count);
    for i := 0 to count
      invariant whole.Some? <==> DecodeDeltas(left, min, offset, count - i).Some?
      invariant whole.Some? ==> whole.value == offsets + DecodeDeltas(left, min, offset, count - i).value
    {
      var d := DecodeVarInt(left);
      if d.None? { return None; }
      var (delta, used) := d.value;
      if used > |left| || min + delta >= U32 || offset + (min + delta) >= U32 { return None; }
      offset := offset + (min + delta);
      left := left[used..];
      if whole.Some? { AppendAssoc(offsets, [offset], DecodeDeltas(left, min, offset, count - i - 1).value); }
      offsets := offsets + [offset];
    }
    AppendNil(offsets);
    r := Some(offsets);
  }

  // --------------------------------------------------------------------------------------- chunks

  /** A stored row: the last transaction number of a chunk, and the chunk's offsets. */
  datatype PosRow = PosRow(last: nat, offsets: seq<nat>)

  /** Positions of a block's transactions: back to back, within 32 bits. */
  ghost predicate Contiguous(pos: seq<Pos>) {
    && (forall i :: 0 <= i < |pos| ==> pos[i].offset + pos[i].size < U32)
    && (forall i :: 0 <= i < |pos| - 1 ==> pos[i].offset + pos[i].size == pos[i+1].offset)
  }

  function OffsetsOf(pos: seq<Pos>): (r: seq<nat>)
    requires |pos| > 0
    ensures |r| == |pos| + 1
    ensures forall i :: 0 <= i < |pos| ==> r[i] == pos[i].offset
    ensures r[|pos|] == pos[|pos|-1].offset + pos[|pos|-1].size
  {
    seq(|pos|, i requires 0 <= i < |pos| => pos[i].offset) + [pos[|pos|-1].offset + pos[|pos|-1].size]
  }

  function ChunkLen(n: nat): nat { if n < CHUNK_SIZE then n else CHUNK_SIZE }

  /** Rows for consecutive transactions starting at number `first`. */
  function Chunkify(first: nat, pos: seq<Pos>): seq<PosRow>
    decreases |pos|
  {
    if |pos| == 0 then []
    else
      var c := ChunkLen(|pos|);
      [PosRow(first + c - 1, OffsetsOf(pos[..c]))] + Chunkify(first + c, pos[c..])
  }

  /** Every chunk but the last has 64 transactions, and stands under its last number. */
  lemma {:induction false} ChunksOf64(first: nat, pos: seq<Pos>)
    ensures var rows := Chunkify(first, pos);
            && |rows| == (|pos| + 63) / 64
            && (forall i :: 0 <= i < |rows| ==>
                  rows[i].last == first + Min(64 * i + 64, |pos|) - 1 && |rows[i].offsets| == Min(64 * i + 64, |pos|) - 64 * i + 1)
    decreases |pos|
  {
    hide OffsetsOf;
    if |pos| > 0 {
      var c := ChunkLen(|pos|);
      ChunksOf64(first + c, pos[c..]);
      var rows, rest := Chunkify(first, pos), Chunkify(first + c, pos[c..]);
      forall i | 0 <= i < |rows|
        ensures rows[i].last == first + Min(64 * i + 64, |pos|) - 1 && |rows[i].offsets| == Min(64 * i + 64, |pos|) - 64 * i + 1
      {
        if i > 0 { assert rows[i] == rest[i-1]; }
      }
    }
  }

  /** Position of transaction `n`, counted back from the row's last number. */
  function PosInRow(row: PosRow, n: nat): Option<Pos> {
    if |row.offsets| == 0 || row.last < n || |row.offsets| - 1 < row.last - n + 1 then None
    else
      var i := |row.offsets| - 1 - (row.last - n + 1);
      if row.offsets[i+1] < row.offsets[i] then None
      else Some(Pos(row.offsets[i], row.offsets[i+1] - row.offsets[i]))
  }

  // ------------------------------------------------------------------------------ table and seek

  type Table = map<nat, seq<Byte>>

  function Rows(rows: seq<PosRow>): Table
    requires forall i :: 0 <= i < |rows| ==> Offsets(rows[i].offsets)
  {
    if |rows| == 0 then map[] else map[rows[0].last := Encode(rows[0].offsets)] + Rows(rows[1..])
  }

  /** `k` is the first key at or after `n`. */
  predicate SeeksTo(t: Table, n: nat, k: nat) {
    k in t && n <= k && forall j :: j in t && n <= j ==> k <= j
  }

  /** The row a forward seek from `n` finds, decoded and indexed. */
  ghost predicate Finds(t: Table, n: nat, p: Pos) {
    exists k :: SeeksTo(t, n, k) && Decode(t[k]).Some? && PosInRow(PosRow(k, Decode(t[k]).value), n) == Some(p)
  }

  lemma SeekUnique(t: Table, n: nat, k: nat, j: nat)
    requires SeeksTo(t, n, k) && SeeksTo(t, n, j)
    ensures k == j
  {}

  lemma ChunkOffsets(pos: seq<Pos>, c: nat)
    requires Contiguous(pos) && 0 < c <= |pos| && c <= CHUNK_SIZE
    ensures Offsets(OffsetsOf(pos[..c]))
    ensures Contiguous(pos[c..])
  {
    var o := OffsetsOf(pos[..c]);
    forall i | 0 <= i < c ensures o[i] <= o[i+1] { if i < c - 1 { assert pos[i].offset + pos[i].size == pos[i+1].offset; } }
  }

  lemma {:induction false} ChunkRowsAreOffsets(first: nat, pos: seq<Pos>)
    requires Contiguous(pos)
    ensures forall i :: 0 <= i < |Chunkify(first, pos)| ==> Offsets(Chunkify(first, pos)[i].offsets)
    decreases |pos|
  {
    if |pos| > 0 {
      var c := ChunkLen(|pos|);
      ChunkOffsets(pos, c);
      ChunkRowsAreOffsets(first + c, pos[c..]);
    }
  }

  /** The stored table of one block: every chunk under its last number. */
  function BlockTable(first: nat, pos: seq<Pos>): Table
    requires Contiguous(pos)
    decreases |pos|
  {
    if |pos| == 0 then map[]
    else
      var c := ChunkLen(|pos|);
      ChunkOffsets(pos, c);
      map[first + c - 1 := Encode(OffsetsOf(pos[..c]))] + BlockTable(first + c, pos[c..])
  }

  /** Storing the rows of a block stores its table. */
  lemma {:induction false} RowsAreTable(first: nat, pos: seq<Pos>)
    requires Contiguous(pos)
    ensures forall i :: 0 <= i < |Chunkify(first, pos)| ==> Offsets(Chunkify(first, pos)[i].offsets)
    ensures Rows(Chunkify(first, pos)) == BlockTable(first, pos)
    decreases |pos|
  {
    hide Offsets, Contiguous, Encode, OffsetsOf, Rows;
    ChunkRowsAreOffsets(first, pos);
    if |pos| > 0 {
      var c := ChunkLen(|pos|);
      ChunkOffsets(pos, c);
      RowsAreTable(first + c, pos[c..]);
      FirstRow(PosRow(first + c - 1, OffsetsOf(pos[..c])), Chunkify(first + c, pos[c..]));
    } else {
      NoRows(Chunkify(first, pos));
    }
  }

  lemma NoRows(rows: seq<PosRow>)
    requires |rows| == 0
    ensures Rows(rows) == map[]
  {}

  lemma FirstRow(row: PosRow, rest: seq<PosRow>)
    requires forall i :: 0 <= i < |[row] + rest| ==> Offsets(([row] + rest)[i].offsets)
    requires Offsets(row.offsets) && forall i :: 0 <= i < |rest| ==> Offsets(rest[i].offsets)
    ensures Rows([row] + rest) == map[row.last := Encode(row.offsets)] + Rows(rest)
  {
    hide Offsets, Encode;
    DropFront([row], rest);
  }

  /** A block's keys are transaction numbers of that block. */
  lemma {:induction false} BlockKeys(first: nat, pos: seq<Pos>)
    requires Contiguous(pos)
    ensures forall k :: k in BlockTable(first, pos) ==> first <= k < first + |pos|
    decreases |pos|
  {
    if |pos| > 0 {
      ChunkOffsets(pos, ChunkLen(|pos|));
      hide Contiguous, Encode, Offsets, OffsetsOf;
      BlockKeys(first + ChunkLen(|pos|), pos[ChunkLen(|pos|)..]);
    }
  }

  /** The first chunk answers for its own transactions. */
  lemma FirstChunkFinds(first: nat, pos: seq<Pos>, i: nat, c: nat, o: seq<nat>, rest: Table)
    requires Contiguous(pos) && i < c == ChunkLen(|pos|) && o == OffsetsOf(pos[..c]) && Offsets(o)
    requires forall j :: j in rest ==> first + c <= j
    ensures Finds(map[first + c - 1 := Encode(o)] + rest, first + i, pos[i])
  {
    hide Contiguous, Offsets, Encode, OffsetsOf, Finds;
    OffsetPair(pos, c, i);
    FindsFirst(rest, first + c - 1, o, i, first + i, pos[i]);
  }

  lemma OffsetPair(pos: seq<Pos>, c: nat, i: nat)
    requires Contiguous(pos) && i < c <= |pos|
    ensures var o := OffsetsOf(pos[..c]);
            |o| == c + 1 && o[i] == pos[i].offset && o[i+1] == pos[i].offset + pos[i].size
  {
    assert i < c - 1 ==> pos[i].offset + pos[i].size == pos[i+1].offset;
  }

  lemma FindsFirst(rest: Table, k: nat, o: seq<nat>, i: nat, n: nat, p: Pos)
    requires Offsets(o) && forall j :: j in rest ==> k < j
    requires i < |o| - 1 && n + (|o| - 2 - i) == k && o[i] == p.offset && o[i+1] == p.offset + p.size
    ensures Finds(map[k := Encode(o)] + rest, n, p)
  {
    OffsetsRoundTrip(o);
    hide Decode, Encode, Offsets;
    var t := map[k := Encode(o)] + rest;
    assert SeeksTo(t, n, k) && t[k] == Encode(o);
    assert PosInRow(PosRow(k, o), n) == Some(p);
  }

  /** For every transaction of a block, chunking, delta encoding, the forward seek, decoding
      and counting from the last number give back its offset and size. */
  lemma {:induction false} BlockLookup(first: nat, pos: seq<Pos>, i: nat)
    requires Contiguous(pos) && i < |pos|
    ensures Finds(BlockTable(first, pos), first + i, pos[i])
    decreases |pos|
  {
    hide Contiguous, BlockTable, Offsets, OffsetsOf, Finds;
    var c := ChunkLen(|pos|);
    if i < c {
      LookupFirst(first, pos, i);
    } else {
      ChunkOffsets(pos, c);
      BlockLookup(first + c, pos[c..], i - c);
      LookupRest(first, pos, i);
    }
  }

  lemma LookupFirst(first: nat, pos: seq<Pos>, i: nat)
    requires Contiguous(pos) && i < ChunkLen(|pos|)
    ensures Finds(BlockTable(first, pos), first + i, pos[i])
  {
    var c := ChunkLen(|pos|);
    ChunkOffsets(pos, c);
    hide Contiguous, Offsets, Encode, OffsetsOf, Finds;
    BlockKeys(first + c, pos[c..]);
    FirstChunkFinds(first, pos, i, c, OffsetsOf(pos[..c]), BlockTable(first + c, pos[c..]));
  }

  lemma LookupRest(first: nat, pos: seq<Pos>, i: nat)
    requires Contiguous(pos) && ChunkLen(|pos|) <= i < |pos| && Contiguous(pos[ChunkLen(|pos|)..])
    requires Finds(BlockTable(first + ChunkLen(|pos|), pos[ChunkLen(|pos|)..]), first + i, pos[i])
    ensures Finds(BlockTable(first, pos), first + i, pos[i])
  {
    hide Contiguous, Offsets, Encode, Decode, OffsetsOf, Finds, Rows, Chunkify, PosInRow, MinSize;
    var c := ChunkLen(|pos|);
    ChunkOffsets(pos, c);
    SeekPastKey(BlockTable(first + c, pos[c..]), first + c - 1, Encode(OffsetsOf(pos[..c])), first + i, pos[i]);
  }

  lemma SeekPastKey(t: Table, k: nat, v: seq<Byte>, n: nat, p: Pos)
    requires Finds(t, n, p) && k < n
    ensures Finds(map[k := v] + t, n, p)
  {
    hide Decode, PosInRow;
    var j :| SeeksTo(t, n, j) && Decode(t[j]).Some? && PosInRow(PosRow(j, Decode(t[j]).value), n) == Some(p);
    assert SeeksTo(map[k := v] + t, n, j);
  }

  /** Rows with later keys do not disturb a seek, and rows with earlier keys are passed over. */
  lemma SeekInUnion(a: Table, b: Table, base: nat, n: nat, p: Pos)
    requires forall k :: k in a ==> k < base
    requires forall k :: k in b ==> base <= k
    requires if n < base then Finds(a, n, p) else Finds(b, n, p)
    ensures Finds(a + b, n, p)
  {
    hide Decode, PosInRow;
    var t := if n < base then a else b;
    var j :| SeeksTo(t, n, j) && Decode(t[j]).Some? && PosInRow(PosRow(j, Decode(t[j]).value), n) == Some(p);
    assert SeeksTo(a + b, n, j);
    assert (a + b)[j] == t[j];
  }
}
