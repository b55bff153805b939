/** From the stored rows to a script's transactions: which references the index lists for a
    script, that they resolve to the right bodies, and that they miss nothing. */
module ScriptRefs {
  import opened Collections
  import opened Ledger
  import opened ScriptFold
  import opened Replay
  import opened Keys
  import opened TxPos
  import opened Chain
  import opened IndexRows

  /** Names a body to fetch: block hash and byte range, with the transaction's place in the chain. */
  datatype Ref = Ref(hash: Hash, height: nat, position: nat, offset: nat, size: nat)

  /** The spent stream lists the script of every output an input spends. */
  ghost predicate ListsSpent(chain: seq<Block>) {
    forall h, p, o :: 0 <= h < |chain| && 0 <= p < |chain[h].txs| && p < |chain[h].spent| && o in chain[h].txs[p].inputs ==>
      SpentListed(chain, h, p, o)
  }

  ghost predicate SpentListed(chain: seq<Block>, h: nat, p: nat, o: OutPoint)
    requires h < |chain| && p < |chain[h].txs| && p < |chain[h].spent|
  {
    var n := Base(chain, h) + p;
    n <= |Locs(chain)| ==> o in Coins(Locs(chain)[..n]) ==> Coins(Locs(chain)[..n])[o].script in chain[h].spent[p]
  }

  /** A chain as the index can hold it: known blocks that index, and a valid history. */
  ghost predicate Indexed(cfg: Config, blocks: map<Hash, Block>, chain: seq<Block>) {
    && KnownChain(blocks, chain) && AllWellFormed(cfg.liquid, chain) && |Locs(chain)| < U32
    && Valid(Locs(chain)) && ListsSpent(chain)
  }

  // ------------------------------------------------------------------------------ positions lookup

  lemma LocInRange(chain: seq<Block>, n: nat)
    requires n < |Locs(chain)|
    ensures var l := Locs(chain)[n];
            l.height < |chain| && l.position < |chain[l.height].txs| && n == Base(chain, l.height) + l.position
            && l.tx == chain[l.height].txs[l.position]
  {
    var h, p := BlockOf(chain, n);
  }

  /** The reference of transaction `n`. */
  function RefOf(chain: seq<Block>, n: nat): Ref
    requires n < |Locs(chain)|
  {
    LocInRange(chain, n);
    var l := Locs(chain)[n];
    var pos := Positions(chain[l.height])[l.position];
    Ref(chain[l.height].hash, l.height, l.position, pos.offset, pos.size)
  }

  /** For every transaction number of any stored chain, the lookup finds that transaction's
      offset and size. */
  lemma {:induction false} ChainLookup(cfg: Config, chain: seq<Block>, n: nat)
    requires AllWellFormed(cfg.liquid, chain) && n < |Locs(chain)|
    ensures Finds(StoreOf(cfg, chain).txpos, n, Pos(RefOf(chain, n).offset, RefOf(chain, n).size))
    decreases |chain|
  {
    hide WellFormed, BatchOf, Written, Bounded, Finds, Positions;
    var init, last := chain[..|chain|-1], chain[|chain|-1];
    Split(chain);
    LocsSnoc(init, last);
    StoreSnoc(cfg, init, last);
    StoreNumbers(cfg, init);
    hide StoreOf;
    RefOfSnoc(init, last, n);
    if n < |Locs(init)| {
      ChainLookup(cfg, init, n);
    }
    LookupStep(cfg, StoreOf(cfg, init), |init|, |Locs(init)|, last, n, Pos(RefOf(chain, n).offset, RefOf(chain, n).size));
  }

  lemma RefOfSnoc(init: seq<Block>, last: Block, n: nat)
    requires n < |Locs(init + [last])|
    ensures |Locs(init + [last])| == |Locs(init)| + |last.txs|
    ensures n < |Locs(init)| ==> RefOf(init + [last], n) == RefOf(init, n)
    ensures n >= |Locs(init)| ==>
              var pos := Positions(last)[n - |Locs(init)|];
              RefOf(init + [last], n) == Ref(last.hash, |init|, n - |Locs(init)|, pos.offset, pos.size)
  {
    LocsSnoc(init, last);
    LocInRange(init + [last], n);
    if n < |Locs(init)| { LocInRange(init, n); }
  }

  lemma LookupStep(cfg: Config, s: Store, height: nat, first: nat, block: Block, n: nat, p: Pos)
    requires WellFormed(cfg.liquid, block) && Bounded(cfg.liquid, s, height, first)
    requires n < first ==> Finds(s.txpos, n, p)
    requires n >= first ==> n < first + |block.txs| && p == Positions(block)[n - first]
    ensures Finds(Written(cfg.liquid, s, BatchOf(cfg, height, first, block)).txpos, n, p)
  {
    hide WellFormed, Finds, Contiguous, BlockTable, Written, BatchOf, Decode, PosInRow;
    assert KeysBelow(s.txpos, first);
    WrittenTxpos(cfg, s, height, first, block);
    hide Positions, Bounded;
    BlockKeys(first, Positions(block));
    if n >= first { BlockLookup(first, Positions(block), n - first); }
    SeekInUnion(s.txpos, BlockTable(first, Positions(block)), first, n, p);
  }

  lemma WrittenTxpos(cfg: Config, s: Store, height: nat, first: nat, block: Block)
    requires WellFormed(cfg.liquid, block)
    ensures Contiguous(Positions(block))
    ensures Written(cfg.liquid, s, BatchOf(cfg, height, first, block)).txpos == s.txpos + BlockTable(first, Positions(block))
  {
    PositionsContiguous(block);
    hide WellFormed, Positions, Contiguous, BlockTable, ScriptRows, TxidRows;
  }

  /** Seeks forward to the chunk of `n`, decodes it and reads the position. */
  method GetTxBlockPos(table: Table, n: nat, ghost p: Pos) returns (pos: Pos)
    requires Finds(table, n, p)
    ensures pos == p
  {
    hide Decode, PosInRow;
    var keys := set k | k in table && n <= k;
    NatOrder();
    ghost var j :| SeeksTo(table, n, j) && Decode(table[j]).Some? && PosInRow(PosRow(j, Decode(table[j]).value), n) == Some(p);
    assert j in keys;
    var k := Least(keys, NatLess);
    assert SeeksTo(table, n, k);
    SeekUnique(table, n, k, j);
    var offsets := DecodeOffsets(table[k]);
    var found := PosInRow(PosRow(k, offsets.value), n);
    pos := found.value;
  }

  // -------------------------------------------------------------------------------- bodies

  /** A part of a serialized block, if it is that long. */
  function Part(block: Block, offset: nat, size: nat): Option<seq<Byte>> {
    if |block.txs| < U32 && offset + size <= |BlockBytes(block)| then Some(BlockBytes(block)[offset..offset + size]) else None
  }

  /** Parsing: the transaction with these bytes. */
  function WithBytes(txs: seq<Tx>, raw: seq<Byte>): Option<Tx> {
    if |txs| == 0 then None
    else if txs[|txs|-1].raw == raw then Some(txs[|txs|-1])
    else WithBytes(txs[..|txs|-1], raw)
  }

  /** Fetches a reference from the node; bodies are content-addressed by block hash. */
  function Body(blocks: map<Hash, Block>, r: Ref): Option<Loc> {
    if r.hash !in blocks then None
    else
      match Part(blocks[r.hash], r.offset, r.size)
      case None => None
      case Some(raw) =>
        match WithBytes(blocks[r.hash].txs, raw)
        case None => None
        case Some(tx) => Some(Loc(tx, r.height, r.position))
  }

  lemma {:induction false} ParsesBack(txs: seq<Tx>, p: nat)
    requires p < |txs| && BytesDecide(txs)
    ensures WithBytes(txs, txs[p].raw) == Some(txs[p])
    decreases |txs|
  {
    var n := |txs| - 1;
    if txs[n].raw != txs[p].raw {
      TakeTake(txs, n, p);
      ParsesBack(txs[..n], p);
    }
  }

  /** Fetching the reference of transaction `n` gives transaction `n`. */
  lemma BodyOfRef(cfg: Config, blocks: map<Hash, Block>, chain: seq<Block>, n: nat)
    requires KnownChain(blocks, chain) && AllWellFormed(cfg.liquid, chain) && n < |Locs(chain)|
    ensures Body(blocks, RefOf(chain, n)) == Some(Locs(chain)[n])
  {
    LocInRange(chain, n);
    LocAt(chain, Locs(chain)[n].height, Locs(chain)[n].position);
    var l := Locs(chain)[n];
    assert WellFormed(cfg.liquid, chain[l.height]);
    hide Linked, Locs, Positions, BlockBytes, BytesDecide;
    PositionsAreSlices(chain[l.height], l.position);
    ParsesBack(chain[l.height].txs, l.position);
  }

  // --------------------------------------------------------------------------- listed references

  /** The transaction numbers the index lists for a script, from `from` on. */
  ghost function ListedNumbers(cfg: Config, chain: seq<Block>, script: Script, from: nat): (r: seq<nat>)
    requires AllWellFormed(cfg.liquid, chain)
  {
    NatOrder();
    SortSet(Numbers(StoreOf(cfg, chain).scripts, cfg.scriptPrefix(script), from), NatLess)
  }

  lemma ListedFacts(cfg: Config, chain: seq<Block>, script: Script, from: nat)
    requires AllWellFormed(cfg.liquid, chain)
    ensures var nums := ListedNumbers(cfg, chain, script, from);
            && Ascending(nums, NatLess)
            && (forall i :: 0 <= i < |nums| ==> from <= nums[i] < |Locs(chain)|)
            && (forall n :: n in nums <==> n in Numbers(StoreOf(cfg, chain).scripts, cfg.scriptPrefix(script), from))
  {
    hide AllWellFormed, StoreOf, Locs, SortSet;
    var nums := ListedNumbers(cfg, chain, script, from);
    StoreNumbers(cfg, chain);
    NatOrder();
    SortSetAscending(Numbers(StoreOf(cfg, chain).scripts, cfg.scriptPrefix(script), from), NatLess);
    hide StrictTotalOrder;
    forall i | 0 <= i < |nums| ensures from <= nums[i] < |Locs(chain)| { assert nums[i] in nums; }
  }

  /** The references the index lists for a script. */
  ghost function RefsOf(cfg: Config, chain: seq<Block>, script: Script, from: nat): (r: seq<Ref>)
    requires AllWellFormed(cfg.liquid, chain)
    ensures |r| == |ListedNumbers(cfg, chain, script, from)|
  {
    ListedFacts(cfg, chain, script, from);
    var nums := ListedNumbers(cfg, chain, script, from);
    seq(|nums|, i requires 0 <= i < |nums| => RefOf(chain, nums[i]))
  }

  /** Every row of a block is in the store of its chain. */
  lemma {:induction false} RowsStored(cfg: Config, chain: seq<Block>, h: nat, r: HashRow)
    requires AllWellFormed(cfg.liquid, chain) && h < |chain| && |chain[h].spent| == |chain[h].txs|
    requires r in ScriptRows(cfg, Base(chain, h), chain[h])
    ensures r in StoreOf(cfg, chain).scripts
    decreases |chain|
  {
    hide WellFormed, ScriptRows, Written, BatchOf;
    var init, last := chain[..|chain|-1], chain[|chain|-1];
    Split(chain);
    StoreSnoc(cfg, init, last);
    hide StoreOf;
    if h < |init| {
      assert init[..h] == chain[..h];
      RowsStored(cfg, init, h, r);
    }
    RowKeptOrAdded(cfg, StoreOf(cfg, init), |init|, |Locs(init)|, last, r);
  }

  lemma RowKeptOrAdded(cfg: Config, s: Store, height: nat, first: nat, block: Block, r: HashRow)
    requires WellFormed(cfg.liquid, block)
    requires r in s.scripts || r in ScriptRows(cfg, first, block)
    ensures r in Written(cfg.liquid, s, BatchOf(cfg, height, first, block)).scripts
  {
    hide ScriptRows, TxidRows, BlockTable, Positions;
  }

  /** A transaction that touches an indexable script is listed for it: funding rows catch what
      pays it and spent-output rows catch what spends from it. */
  lemma TouchingIsListed(cfg: Config, blocks: map<Hash, Block>, chain: seq<Block>, script: Script, from: nat, n: nat)
    requires Indexed(cfg, blocks, chain) && Indexable(cfg.liquid, script)
    requires from <= n < |Locs(chain)| && Touches(Locs(chain), n, script)
    ensures n in ListedNumbers(cfg, chain, script, from)
  {
    hide Valid, Coins, StoreOf, Locs, KnownChain, SortSet;
    LocInRange(chain, n);
    var h, p := Locs(chain)[n].height, Locs(chain)[n].position;
    assert WellFormed(cfg.liquid, chain[h]);
    hide WellFormed, AllWellFormed;
    TouchingIsMentioned(cfg, chain, script, h, p, n);
    var r := HashRow(cfg.scriptPrefix(script), Base(chain, h) + p);
    ScriptRowMembers(cfg, Base(chain, h), chain[h], r);
    hide ScriptRows, ScriptsOf, ListsSpent;
    RowsStored(cfg, chain, h, r);
    ListedFacts(cfg, chain, script, from);
    hide ListedNumbers;
    assert r in StoreOf(cfg, chain).scripts && r.txnum == n;
  }

  lemma TouchingIsMentioned(cfg: Config, chain: seq<Block>, script: Script, h: nat, p: nat, n: nat)
    requires ListsSpent(chain) && Indexable(cfg.liquid, script)
    requires h < |chain| && p < |chain[h].txs| == |chain[h].spent|
    requires n == Base(chain, h) + p && n < |Locs(chain)| && Locs(chain)[n].tx == chain[h].txs[p] && Touches(Locs(chain), n, script)
    ensures script in ScriptsOf(cfg.liquid, chain[h], p)
  {
    hide Coins, Locs, Base;
    var tx := chain[h].txs[p];
    if i :| 0 <= i < |tx.outputs| && tx.outputs[i].script == script {
      assert tx.outputs[i] in tx.outputs;
    } else {
      var i :| 0 <= i < |tx.inputs| && tx.inputs[i] in Coins(Locs(chain)[..n]) && Coins(Locs(chain)[..n])[tx.inputs[i]].script == script;
      assert SpentListed(chain, h, p, tx.inputs[i]);
    }
    assert Mentions(cfg.liquid, chain[h], p, script);
  }

  // ------------------------------------------------------------------------------ the fold of refs

  /** The located bodies of references, when the node knows them all. */
  ghost predicate BodiesOf(blocks: map<Hash, Block>, refs: seq<Ref>, locs: seq<Loc>) {
    |locs| == |refs| && forall i :: 0 <= i < |refs| ==> Body(blocks, refs[i]) == Some(locs[i])
  }

  lemma BodiesUnique(blocks: map<Hash, Block>, refs: seq<Ref>, a: seq<Loc>, b: seq<Loc>)
    requires BodiesOf(blocks, refs, a) && BodiesOf(blocks, refs, b)
    ensures a == b
  {
    hide Body;
    forall i | 0 <= i < |a| ensures a[i] == b[i] {}
  }

  /** The bodies of the listed references are the listed transactions. */
  lemma RefsHaveBodies(cfg: Config, blocks: map<Hash, Block>, chain: seq<Block>, script: Script, from: nat)
    requires KnownChain(blocks, chain) && AllWellFormed(cfg.liquid, chain)
    ensures var nums := ListedNumbers(cfg, chain, script, from);
            && (forall i :: 0 <= i < |nums| ==> nums[i] < |Locs(chain)|)
            && BodiesOf(blocks, RefsOf(cfg, chain, script, from), Select(Locs(chain), nums))
  {
    hide KnownChain, AllWellFormed, Locs, ListedNumbers, Body, RefOf;
    ListedFacts(cfg, chain, script, from);
    var nums := ListedNumbers(cfg, chain, script, from);
    forall i | 0 <= i < |nums| ensures Body(blocks, RefOf(chain, nums[i])) == Some(Locs(chain)[nums[i]]) {
      BodyOfRef(cfg, blocks, chain, nums[i]);
    }
  }

  /** Folding the bodies of a script's listed references is folding the whole chain. */
  lemma ListedFoldIsReplay(cfg: Config, blocks: map<Hash, Block>, chain: seq<Block>, script: Script, locs: seq<Loc>)
    requires Indexed(cfg, blocks, chain) && Indexable(cfg.liquid, script)
    requires BodiesOf(blocks, RefsOf(cfg, chain, script, 0), locs)
    ensures FoldAll(script, locs) == FoldAll(script, Locs(chain))
  {
    var nums := ListedNumbers(cfg, chain, script, 0);
    RefsHaveBodies(cfg, blocks, chain, script, 0);
    hide AllWellFormed, KnownChain, Locs, ListedNumbers, BodiesOf, RefsOf, Valid, ListsSpent, FoldAll, Touches;
    BodiesUnique(blocks, RefsOf(cfg, chain, script, 0), locs, Select(Locs(chain), nums));
    ListedFacts(cfg, chain, script, 0);
    forall n | 0 <= n < |Locs(chain)| && Touches(Locs(chain), n, script) ensures n in nums {
      TouchingIsListed(cfg, blocks, chain, script, 0, n);
    }
    hide Indexed;
    SelectionIsEnough(script, Locs(chain), nums);
  }

  /** So the fold of the listed references is the history a plain replay of every transaction of
      the chain gives the script. */
  lemma ListedHistory(cfg: Config, blocks: map<Hash, Block>, chain: seq<Block>, script: Script, locs: seq<Loc>)
    requires Indexed(cfg, blocks, chain) && Indexable(cfg.liquid, script)
    requires BodiesOf(blocks, RefsOf(cfg, chain, script, 0), locs)
    ensures IsHistoryOf(FoldAll(script, locs), script, Locs(chain))
  {
    ListedFoldIsReplay(cfg, blocks, chain, script, locs);
    hide AllWellFormed, KnownChain, Locs, BodiesOf, RefsOf, Valid, ListsSpent, FoldAll, IsHistoryOf;
    FoldIsReplay(script, Locs(chain));
  }
}
