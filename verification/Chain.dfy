/** Hash-linked chains of blocks, their transactions in order, and the indexed headers that
    number those transactions. */
module Chain {
  import opened Collections
  import opened Ledger

  type Hash = nat

  /** The previous-block hash of the genesis block. */
  const ZERO: Hash := 0

  /** A block as the node serves it: `spent` lists, per transaction, the scripts of the
      outputs its inputs spend. A Bitcoin header has 80 bytes. */
  datatype Block = Block(hash: Hash, prev: Hash, header: seq<Byte>, txs: seq<Tx>, spent: seq<seq<Script>>)

  /** Blocks are content-addressed: a hash names one block, whatever chain is active. */
  ghost predicate ContentAddressed(blocks: map<Hash, Block>) {
    forall h :: h in blocks ==> blocks[h].hash == h && h != ZERO
  }

  /** Consecutive blocks name their predecessors, down to the genesis block. */
  predicate Linked(chain: seq<Block>) {
    forall i :: 0 <= i < |chain| ==> LinkedAt(chain, i)
  }

  predicate LinkedAt(chain: seq<Block>, i: nat)
    requires i < |chain|
  {
    chain[i].hash != ZERO && chain[i].prev == if i == 0 then ZERO else chain[i-1].hash
  }

  ghost predicate KnownChain(blocks: map<Hash, Block>, chain: seq<Block>) {
    && Linked(chain)
    && forall i :: 0 <= i < |chain| ==> chain[i].hash in blocks && blocks[chain[i].hash] == chain[i]
  }

  function TipHash(chain: seq<Block>): Hash {
    if |chain| == 0 then ZERO else chain[|chain|-1].hash
  }

  lemma KnownPrefix(blocks: map<Hash, Block>, chain: seq<Block>, k: nat)
    requires KnownChain(blocks, chain) && k <= |chain|
    ensures KnownChain(blocks, chain[..k])
  {
    forall i | 0 <= i < k ensures LinkedAt(chain[..k], i) { assert LinkedAt(chain, i); }
  }

  /** One block in two known chains stands at the same height in both, on the same past:
      going back along parent hashes, both reach the genesis block together. */
  lemma {:induction false} SameBlockSamePast(blocks: map<Hash, Block>, a: seq<Block>, b: seq<Block>, i: nat, j: nat)
    requires KnownChain(blocks, a) && KnownChain(blocks, b)
    requires i < |a| && j < |b| && a[i].hash == b[j].hash
    ensures i == j && a[..i+1] == b[..j+1]
    decreases i + j
  {
    assert a[i] == b[j] && LinkedAt(a, i) && LinkedAt(b, j);
    assert (i > 0 ==> LinkedAt(a, i - 1)) && (j > 0 ==> LinkedAt(b, j - 1));
    if i > 0 && j > 0 {
      assert a[i-1].hash == b[j-1].hash;
      SameBlockSamePast(blocks, a, b, i - 1, j - 1);
      OneMore(a, i);
      OneMore(b, j);
    } else {
      FirstOnly(a, b);
    }
  }

  lemma OneMore<T>(s: seq<T>, i: nat)
    requires i < |s|
    ensures s[..i+1] == s[..i] + [s[i]]
  {}

  lemma FirstOnly<T>(a: seq<T>, b: seq<T>)
    ensures |a| > 0 && |b| > 0 && a[0] == b[0] ==> a[..1] == b[..1]
  {}

  /** Chains with the same tip are the same chain. */
  lemma SameTipSameChain(blocks: map<Hash, Block>, a: seq<Block>, b: seq<Block>)
    requires KnownChain(blocks, a) && KnownChain(blocks, b) && TipHash(a) == TipHash(b)
    ensures a == b
  {
    TipIsSome(a);
    TipIsSome(b);
    if |a| > 0 {
      SameBlockSamePast(blocks, a, b, |a| - 1, |b| - 1);
      assert a[..|a|] == a && b[..|b|] == b;
    } else {
      BothEmpty(a, b);
    }
  }

  lemma TipIsSome(chain: seq<Block>)
    requires Linked(chain)
    ensures TipHash(chain) == ZERO <==> |chain| == 0
  {
    assert |chain| > 0 ==> LinkedAt(chain, |chain| - 1);
  }

  // ---------------------------------------------------------------------- transactions in chain order

  function BlockLocs(height: nat, block: Block): (r: seq<Loc>)
    ensures |r| == |block.txs|
    ensures forall p :: 0 <= p < |r| ==> r[p] == Loc(block.txs[p], height, p)
  {
    seq(|block.txs|, p requires 0 <= p < |block.txs| => Loc(block.txs[p], height, p))
  }

  /** Every transaction of the chain; its index is its transaction number. */
  function Locs(chain: seq<Block>): seq<Loc> {
    if |chain| == 0 then []
    else Locs(chain[..|chain|-1]) + BlockLocs(|chain| - 1, chain[|chain|-1])
  }

  /** The number of transactions before height `h`: the first number of that block. */
  function Base(chain: seq<Block>, h: nat): nat
    requires h <= |chain|
  {
    |Locs(chain[..h])|
  }

  lemma LocsSnoc(chain: seq<Block>, block: Block)
    ensures Locs(chain + [block]) == Locs(chain) + BlockLocs(|chain|, block)
  {
    Snoc(chain, block);
  }

  lemma BaseNext(chain: seq<Block>, h: nat)
    requires h < |chain|
    ensures Base(chain, h + 1) == Base(chain, h) + |chain[h].txs|
  {
    OneMore(chain, h);
    LocsSnoc(chain[..h], chain[h]);
  }

  lemma {:induction false} BaseMonotone(chain: seq<Block>, h: nat, k: nat)
    requires h <= k <= |chain|
    ensures Base(chain, h) <= Base(chain, k)
    decreases k - h
  {
    if h < k {
      BaseNext(chain, k - 1);
      BaseMonotone(chain, h, k - 1);
    }
  }

  lemma {:induction false} LocsPrefix(chain: seq<Block>, h: nat)
    requires h <= |chain|
    ensures Base(chain, h) <= |Locs(chain)| && Locs(chain)[..Base(chain, h)] == Locs(chain[..h])
    decreases |chain|
  {
    if h == |chain| {
      assert chain[..h] == chain;
    } else {
      var init := chain[..|chain|-1];
      LocsPrefix(init, h);
      assert init[..h] == chain[..h];
      Split(chain);
      LocsSnoc(init, chain[|chain|-1]);
      TakeOfAppend(Locs(init), BlockLocs(|init|, chain[|chain|-1]), Base(chain, h));
    }
  }

  lemma TakeOfAppend<T>(a: seq<T>, b: seq<T>, k: nat)
    requires k <= |a|
    ensures (a + b)[..k] == a[..k]
  {}

  /** Transaction `p` of block `h` has number `Base(h) + p`. */
  lemma {:induction false} LocAt(chain: seq<Block>, h: nat, p: nat)
    requires h < |chain| && p < |chain[h].txs|
    ensures Base(chain, h) + p < |Locs(chain)|
    ensures Locs(chain)[Base(chain, h) + p] == Loc(chain[h].txs[p], h, p)
    decreases |chain|
  {
    var init, last := chain[..|chain|-1], chain[|chain|-1];
    Split(chain);
    LocsSnoc(init, last);
    if h < |init| {
      LocAt(init, h, p);
      assert init[..h] == chain[..h];
    }
  }

  /** Every number belongs to one block and one place in it. */
  lemma {:induction false} BlockOf(chain: seq<Block>, n: nat) returns (h: nat, p: nat)
    requires n < |Locs(chain)|
    ensures h < |chain| && p < |chain[h].txs| && n == Base(chain, h) + p
    ensures Locs(chain)[n] == Loc(chain[h].txs[p], h, p)
    decreases |chain|
  {
    var init, last := chain[..|chain|-1], chain[|chain|-1];
    Split(chain);
    LocsSnoc(init, last);
    if n < |Locs(init)| {
      h, p := BlockOf(init, n);
      assert init[..h] == chain[..h];
    } else {
      h, p := |chain| - 1, n - |Locs(init)|;
    }
  }

  // ---------------------------------------------------------------------------------- headers

  /** An indexed header; `nextTxnum` is the first number after the block. */
  datatype Header = Header(height: nat, nextTxnum: nat, hash: Hash, prev: Hash)

  function HeaderOf(chain: seq<Block>, h: nat): Header
    requires h < |chain|
  {
    Header(h, Base(chain, h + 1), chain[h].hash, chain[h].prev)
  }

  function HeadersOf(chain: seq<Block>): (r: seq<Header>)
    ensures |r| == |chain| && forall h :: 0 <= h < |chain| ==> r[h] == HeaderOf(chain, h)
  {
    seq(|chain|, h requires 0 <= h < |chain| => HeaderOf(chain, h))
  }

  lemma HeadersSnoc(chain: seq<Block>, block: Block)
    ensures HeadersOf(chain + [block]) == HeadersOf(chain) + [Header(|chain|, |Locs(chain)| + |block.txs|, block.hash, block.prev)]
  {
    var longer := chain + [block];
    Snoc(chain, block);
    LocsSnoc(chain, block);
    forall h | 0 <= h < |chain| ensures HeaderOf(longer, h) == HeaderOf(chain, h) {
      assert longer[..h+1] == chain[..h+1];
    }
    assert longer[..|chain|+1] == longer;
  }

  lemma HeadersPrefix(chain: seq<Block>, k: nat)
    requires k <= |chain|
    ensures HeadersOf(chain[..k]) == HeadersOf(chain)[..k]
  {
    forall h | 0 <= h < k ensures HeaderOf(chain[..k], h) == HeaderOf(chain, h) {
      assert chain[..k][..h+1] == chain[..h+1];
    }
  }

  datatype Location = Location(txnum: nat, height: nat, offset: nat, header: Header)

  /** How many leading headers end at or before `txnum`: the standard partition point. */
  function PartitionPoint(rows: seq<Header>, txnum: nat): (k: nat)
    ensures k <= |rows|
    ensures forall i :: 0 <= i < k ==> rows[i].nextTxnum <= txnum
    ensures k < |rows| ==> txnum < rows[k].nextTxnum
  {
    if |rows| == 0 || txnum < rows[0].nextTxnum then 0 else 1 + PartitionPoint(rows[1..], txnum)
  }

  /** The location of a transaction number; `None` where the code would panic. */
  function FindByTxnum(rows: seq<Header>, txnum: nat): Option<Location> {
    var h := PartitionPoint(rows, txnum);
    if h == |rows| then None
    else
      var base := if h == 0 then 0 else rows[h-1].nextTxnum;
      if txnum < base then None else Some(Location(txnum, h, txnum - base, rows[h]))
  }

  /** `FindByTxnum` inverts the numbering: it yields the block and the place in it that the
      number was given to, whatever empty blocks share a `nextTxnum`. */
  lemma FindInvertsNumbering(chain: seq<Block>, n: nat)
    requires n < |Locs(chain)|
    ensures var l := Locs(chain)[n];
            && l.height < |chain|
            && FindByTxnum(HeadersOf(chain), n) == Some(Location(n, l.height, l.position, HeaderOf(chain, l.height)))
  {
    hide Locs, PartitionPoint, Base;
    var h, p := BlockOf(chain, n);
    PointIsBlock(chain, n, h, p);
  }

  /** There is nothing to find past the tip. */
  lemma NothingPastTip(chain: seq<Block>, n: nat)
    requires n >= |Locs(chain)|
    ensures FindByTxnum(HeadersOf(chain), n) == None
  {
    AllOf(chain);
    hide Locs, PartitionPoint;
    forall h | 0 <= h < |chain| ensures HeaderOf(chain, h).nextTxnum <= n { BaseMonotone(chain, h + 1, |chain|); }
    hide HeaderOf, Base;
    assert PartitionPoint(HeadersOf(chain), n) == |chain|;
  }

  lemma PointIsBlock(chain: seq<Block>, n: nat, h: nat, p: nat)
    requires h < |chain| && p < |chain[h].txs| && n == Base(chain, h) + p
    ensures PartitionPoint(HeadersOf(chain), n) == h
    ensures (if h == 0 then 0 else HeadersOf(chain)[h-1].nextTxnum) == Base(chain, h)
  {
    var rows := HeadersOf(chain);
    var k := PartitionPoint(rows, n);
    BaseNext(chain, h);
    assert rows[h].nextTxnum == Base(chain, h + 1);
    if k < h {
      assert rows[k].nextTxnum == Base(chain, k + 1);
      BaseMonotone(chain, k + 1, h);
    }
  }
}
