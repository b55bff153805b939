/** The rows one block contributes to the index store, and the store of a whole chain. */
module IndexRows {
  import opened Collections
  import opened Ledger
  import opened Keys
  import opened TxPos
  import opened Chain

  const OP_RETURN: Byte := 0x6a

  /** The chain format, and the prefixes of script hashes and txids. Nothing is assumed about
      the prefixes, so distinct scripts may collide. */
  datatype Config = Config(liquid: bool, scriptPrefix: Script -> Bytes, txidPrefix: Txid -> Bytes)

  /** Unspendable outputs are never indexed; on Liquid neither are empty scripts. */
  predicate Indexable(liquid: bool, script: Script) {
    !(|script| > 0 && script[0] == OP_RETURN) && !(liquid && |script| == 0)
  }

  /** What indexing asks of a block: a spent list per transaction, sizes that fit 32 bits, and
      on Bitcoin a coinbase. Transactions are what their bytes say. */
  predicate WellFormed(liquid: bool, block: Block) {
    && |block.spent| == |block.txs|
    && |block.txs| < U32
    && BodyEnd(block) < U32
    && BytesDecide(block.txs)
    && (!liquid ==> |block.txs| > 0)
  }

  predicate BytesDecide(txs: seq<Tx>) {
    forall i, j :: 0 <= i < j < |txs| && txs[i].raw == txs[j].raw ==> txs[i] == txs[j]
  }

  // ------------------------------------------------------------------------- positions in a block

  /** The transactions' bytes in order. */
  function RawBytes(txs: seq<Tx>): seq<Byte> {
    if |txs| == 0 then [] else RawBytes(txs[..|txs|-1]) + txs[|txs|-1].raw
  }

  /** A serialized block: the header, the number of transactions, and the transactions. */
  function BlockBytes(block: Block): seq<Byte>
    requires |block.txs| < U32
  {
    block.header + EncodeVarInt(|block.txs|) + RawBytes(block.txs)
  }

  function TotalSize(txs: seq<Tx>): nat {
    if |txs| == 0 then 0 else TotalSize(txs[..|txs|-1]) + |txs[|txs|-1].raw|
  }

  function VarIntSize(n: nat): nat {
    if n < 0xFD then 1 else if n < 0x1_0000 then 3 else if n < U32 then 5 else 9
  }

  function BodyStart(block: Block): nat { |block.header| + VarIntSize(|block.txs|) }

  function BodyEnd(block: Block): nat { BodyStart(block) + TotalSize(block.txs) }

  function Positions(block: Block): (r: seq<Pos>)
    ensures |r| == |block.txs|
    ensures forall i :: 0 <= i < |r| ==> r[i] == Pos(BodyStart(block) + TotalSize(block.txs[..i]), |block.txs[i].raw|)
  {
    seq(|block.txs|, i requires 0 <= i < |block.txs| => Pos(BodyStart(block) + TotalSize(block.txs[..i]), |block.txs[i].raw|))
  }

  lemma {:induction false} SizesGrow(txs: seq<Tx>, i: nat, j: nat)
    requires i <= j <= |txs|
    ensures TotalSize(txs[..i]) <= TotalSize(txs[..j])
    ensures i < j ==> TotalSize(txs[..i]) + |txs[i].raw| <= TotalSize(txs[..j])
    decreases j - i
  {
    if i < j {
      OneMore(txs, j - 1);
      SizesGrow(txs, i, j - 1);
    }
  }

  lemma PositionsContiguous(block: Block)
    requires BodyEnd(block) < U32
    ensures Contiguous(Positions(block))
  {
    var txs, pos := block.txs, Positions(block);
    assert txs[..|txs|] == txs;
    forall i | 0 <= i < |txs| ensures pos[i].offset + pos[i].size < U32 { SizesGrow(txs, i, |txs|); }
    forall i | 0 <= i < |txs| - 1 ensures pos[i].offset + pos[i].size == pos[i+1].offset { OneMore(txs, i); }
  }

  lemma VarIntSizeIs(n: nat)
    requires n < U32
    ensures |EncodeVarInt(n)| == VarIntSize(n)
  {}

  /** The bytes of transaction `i` among those of all. */
  lemma {:induction false} RawAt(txs: seq<Tx>, i: nat)
    requires i < |txs|
    ensures |RawBytes(txs)| == TotalSize(txs) && TotalSize(txs[..i]) + |txs[i].raw| <= TotalSize(txs)
    ensures RawBytes(txs)[TotalSize(txs[..i])..TotalSize(txs[..i]) + |txs[i].raw|] == txs[i].raw
    decreases |txs|
  {
    var n := |txs| - 1;
    RawSize(txs);
    RawSize(txs[..n]);
    if i < n {
      TakeTake(txs, n, i);
      RawAt(txs[..n], i);
    }
  }

  lemma {:induction false} RawSize(txs: seq<Tx>)
    ensures |RawBytes(txs)| == TotalSize(txs)
  {
    if |txs| > 0 { RawSize(txs[..|txs|-1]); }
  }

  /** The position of each transaction is where its bytes are in the serialized block. */
  lemma PositionsAreSlices(block: Block, i: nat)
    requires |block.txs| < U32 && i < |block.txs|
    ensures var p := Positions(block)[i];
            p.offset + p.size <= |BlockBytes(block)| && BlockBytes(block)[p.offset..p.offset + p.size] == block.txs[i].raw
  {
    hide RawBytes, TotalSize, EncodeVarInt, VarIntSize;
    RawAt(block.txs, i);
    VarIntSizeIs(|block.txs|);
    SliceAfter(block.header + EncodeVarInt(|block.txs|), RawBytes(block.txs), TotalSize(block.txs[..i]), |block.txs[i].raw|);
  }

  lemma SliceAfter<T>(a: seq<T>, b: seq<T>, at: nat, n: nat)
    requires at + n <= |b|
    ensures (a + b)[|a| + at..|a| + at + n] == b[at..at + n]
  {}

  /** Walks the block's transactions, advancing the offset by each size. */
  method CollectPositions(block: Block) returns (pos: seq<Pos>)
    ensures pos == Positions(block)
  {
    var offset := |block.header| + VarIntSize(|block.txs|);
    pos := [];
    for i := 0 to |block.txs|
      invariant |pos| == i && offset == BodyStart(block) + TotalSize(block.txs[..i])
      invariant forall k :: 0 <= k < i ==> pos[k] == Positions(block)[k]
    {
      OneMore(block.txs, i);
      pos := pos + [Pos(offset, |block.txs[i].raw|)];
      offset := offset + |block.txs[i].raw|;
    }
  }

  // ------------------------------------------------------------------------------------ hash rows

  /** Some output of transaction `i`, or some output it spends, has this indexable script. */
  ghost predicate Mentions(liquid: bool, block: Block, i: nat, script: Script)
    requires i < |block.txs| && |block.spent| == |block.txs|
  {
    Indexable(liquid, script) && ((exists o :: o in block.txs[i].outputs && o.script == script) || script in block.spent[i])
  }

  function OutputScripts(liquid: bool, tx: Tx): set<Script> {
    set o | o in tx.outputs && Indexable(liquid, o.script) :: o.script
  }

  function SpentScripts(liquid: bool, scripts: seq<Script>): set<Script> {
    set s | s in scripts && Indexable(liquid, s)
  }

  function ScriptsOf(liquid: bool, block: Block, i: nat): (r: set<Script>)
    requires i < |block.txs| && |block.spent| == |block.txs|
    ensures forall s :: s in r <==> Mentions(liquid, block, i, s)
  {
    OutputScripts(liquid, block.txs[i]) + SpentScripts(liquid, block.spent[i])
  }

  function ScriptRows(cfg: Config, first: nat, block: Block): set<HashRow>
    requires |block.spent| == |block.txs|
  {
    set i, s | 0 <= i < |block.txs| && s in ScriptsOf(cfg.liquid, block, i) :: HashRow(cfg.scriptPrefix(s), first + i)
  }

  function TxidRows(cfg: Config, first: nat, block: Block): set<HashRow> {
    set i | 0 <= i < |block.txs| :: HashRow(cfg.txidPrefix(block.txs[i].txid), first + i)
  }

  /** Indexes one output script, unless it is skipped. */
  method AddScript(cfg: Config, rows: seq<HashRow>, txnum: nat, script: Script) returns (r: seq<HashRow>)
    ensures SetOf(r) == SetOf(rows) + if Indexable(cfg.liquid, script) then {HashRow(cfg.scriptPrefix(script), txnum)} else {}
  {
    if |script| > 0 && script[0] == OP_RETURN { return rows; }
    if cfg.liquid && |script| == 0 { return rows; }
    r := rows + [HashRow(cfg.scriptPrefix(script), txnum)];
  }

  /** The rows of a list of scripts for one transaction. */
  method AddScripts(cfg: Config, rows: seq<HashRow>, txnum: nat, scripts: seq<Script>) returns (r: seq<HashRow>)
    ensures SetOf(r) == SetOf(rows) + RowsOf(cfg, SpentScripts(cfg.liquid, scripts), txnum)
  {
    r := rows;
    for i := 0 to |scripts|
      invariant SetOf(r) == SetOf(rows) + RowsOf(cfg, SpentScripts(cfg.liquid, scripts[..i]), txnum)
    {
      SpentScriptsStep(cfg, scripts, i, txnum);
      r := AddScript(cfg, r, txnum, scripts[i]);
    }
    assert scripts[..|scripts|] == scripts;
  }

  function RowsOf(cfg: Config, scripts: set<Script>, txnum: nat): set<HashRow> {
    set s | s in scripts :: HashRow(cfg.scriptPrefix(s), txnum)
  }

  lemma SpentScriptsStep(cfg: Config, scripts: seq<Script>, i: nat, txnum: nat)
    requires i < |scripts|
    ensures RowsOf(cfg, SpentScripts(cfg.liquid, scripts[..i+1]), txnum) ==
            RowsOf(cfg, SpentScripts(cfg.liquid, scripts[..i]), txnum) +
            if Indexable(cfg.liquid, scripts[i]) then {HashRow(cfg.scriptPrefix(scripts[i]), txnum)} else {}
  {
    OneMore(scripts, i);
    assert SpentScripts(cfg.liquid, scripts[..i+1]) ==
           SpentScripts(cfg.liquid, scripts[..i]) + if Indexable(cfg.liquid, scripts[i]) then {scripts[i]} else {};
  }

  function OutScripts(tx: Tx): (r: seq<Script>)
    ensures |r| == |tx.outputs| && forall i :: 0 <= i < |r| ==> r[i] == tx.outputs[i].script
  {
    seq(|tx.outputs|, i requires 0 <= i < |tx.outputs| => tx.outputs[i].script)
  }

  lemma OutScriptsSame(liquid: bool, tx: Tx)
    ensures SpentScripts(liquid, OutScripts(tx)) == OutputScripts(liquid, tx)
  {
    forall s ensures s in SpentScripts(liquid, OutScripts(tx)) <==> s in OutputScripts(liquid, tx) {
      if s in OutputScripts(liquid, tx) {
        var i :| 0 <= i < |tx.outputs| && tx.outputs[i].script == s;
        assert OutScripts(tx)[i] == s;
      }
    }
  }

  ghost function RowsUpTo(cfg: Config, first: nat, block: Block, k: nat, spent: bool): set<HashRow>
    requires k <= |block.txs| == |block.spent|
  {
    if k == 0 then {}
    else RowsUpTo(cfg, first, block, k - 1, spent) +
         RowsOf(cfg, if spent then SpentScripts(cfg.liquid, block.spent[k-1]) else OutputScripts(cfg.liquid, block.txs[k-1]), first + k - 1)
  }

  lemma {:induction false} RowsUpToAll(cfg: Config, first: nat, block: Block, k: nat)
    requires k <= |block.txs| == |block.spent|
    ensures forall r :: r in RowsUpTo(cfg, first, block, k, false) + RowsUpTo(cfg, first, block, k, true) <==>
              exists i, s :: 0 <= i < k && s in ScriptsOf(cfg.liquid, block, i) && r == HashRow(cfg.scriptPrefix(s), first + i)
  {
    hide OutputScripts, SpentScripts;
    if k > 0 {
      RowsUpToAll(cfg, first, block, k - 1);
      var a, b := OutputScripts(cfg.liquid, block.txs[k-1]), SpentScripts(cfg.liquid, block.spent[k-1]);
      assert forall s :: s in ScriptsOf(cfg.liquid, block, k - 1) <==> s in a || s in b;
      forall r ensures r in RowsUpTo(cfg, first, block, k, false) + RowsUpTo(cfg, first, block, k, true) <==>
        exists i, s :: 0 <= i < k && s in ScriptsOf(cfg.liquid, block, i) && r == HashRow(cfg.scriptPrefix(s), first + i) {
        RowsUpToOne(cfg, first, block, k, r);
      }
    }
  }

  lemma RowsUpToOne(cfg: Config, first: nat, block: Block, k: nat, r: HashRow)
    requires 0 < k <= |block.txs| == |block.spent|
    requires r in RowsUpTo(cfg, first, block, k - 1, false) + RowsUpTo(cfg, first, block, k - 1, true) <==>
             exists i, s :: 0 <= i < k - 1 && s in ScriptsOf(cfg.liquid, block, i) && r == HashRow(cfg.scriptPrefix(s), first + i)
    ensures r in RowsUpTo(cfg, first, block, k, false) + RowsUpTo(cfg, first, block, k, true) <==>
            exists i, s :: 0 <= i < k && s in ScriptsOf(cfg.liquid, block, i) && r == HashRow(cfg.scriptPrefix(s), first + i)
  {
    var a, b := OutputScripts(cfg.liquid, block.txs[k-1]), SpentScripts(cfg.liquid, block.spent[k-1]);
    assert ScriptsOf(cfg.liquid, block, k - 1) == a + b;
    assert r in RowsUpTo(cfg, first, block, k, false) + RowsUpTo(cfg, first, block, k, true) <==>
           r in RowsUpTo(cfg, first, block, k - 1, false) + RowsUpTo(cfg, first, block, k - 1, true) ||
           exists s :: s in ScriptsOf(cfg.liquid, block, k - 1) && r == HashRow(cfg.scriptPrefix(s), first + (k - 1));
  }

  /** Rows of a block's outputs, transaction by transaction. */
  method AddBlockRows(cfg: Config, first: nat, block: Block, rows: seq<HashRow>) returns (r: seq<HashRow>, next: nat)
    requires |block.spent| == |block.txs|
    ensures next == first + |block.txs|
    ensures SetOf(r) == SetOf(rows) + RowsUpTo(cfg, first, block, |block.txs|, false)
  {
    r, next := rows, first;
    for i := 0 to |block.txs|
      invariant next == first + i
      invariant SetOf(r) == SetOf(rows) + RowsUpTo(cfg, first, block, i, false)
    {
      OutScriptsSame(cfg.liquid, block.txs[i]);
      r := AddScripts(cfg, r, next, OutScripts(block.txs[i]));
      next := next + 1;
    }
  }

  /** Rows of the outputs a block spends. */
  method AddSpentRows(cfg: Config, first: nat, block: Block, rows: seq<HashRow>) returns (r: seq<HashRow>, next: nat)
    requires |block.spent| == |block.txs|
    ensures next == first + |block.spent|
    ensures SetOf(r) == SetOf(rows) + RowsUpTo(cfg, first, block, |block.txs|, true)
  {
    r, next := rows, first;
    for i := 0 to |block.spent|
      invariant next == first + i
      invariant SetOf(r) == SetOf(rows) + RowsUpTo(cfg, first, block, i, true)
    {
      r := AddScripts(cfg, r, next, block.spent[i]);
      next := next + 1;
    }
  }

  /** All hash rows of a block: its outputs', then its spent outputs'. */
  method IndexScripts(cfg: Config, first: nat, block: Block) returns (rows: seq<HashRow>, next: nat)
    requires |block.spent| == |block.txs|
    ensures next == first + |block.txs|
    ensures SetOf(rows) == ScriptRows(cfg, first, block)
  {
    rows, next := AddBlockRows(cfg, first, block, []);
    var spentNext;
    rows, spentNext := AddSpentRows(cfg, first, block, rows);
    assert next == spentNext;
    RowsAreScriptRows(cfg, first, block);
  }

  lemma RowsAreScriptRows(cfg: Config, first: nat, block: Block)
    requires |block.spent| == |block.txs|
    ensures SetOf<HashRow>([]) + RowsUpTo(cfg, first, block, |block.txs|, false) + RowsUpTo(cfg, first, block, |block.txs|, true)
            == ScriptRows(cfg, first, block)
  {
    RowsUpToAll(cfg, first, block, |block.txs|);
    hide RowsUpTo, ScriptsOf;
    var n := |block.txs|;
    var parts := RowsUpTo(cfg, first, block, n, false) + RowsUpTo(cfg, first, block, n, true);
    forall r ensures r in parts <==> r in ScriptRows(cfg, first, block) {
      ScriptRowMembers(cfg, first, block, r);
    }
  }

  lemma ScriptRowMembers(cfg: Config, first: nat, block: Block, r: HashRow)
    requires |block.spent| == |block.txs|
    ensures r in ScriptRows(cfg, first, block) <==>
            exists i, s :: 0 <= i < |block.txs| && s in ScriptsOf(cfg.liquid, block, i) && r == HashRow(cfg.scriptPrefix(s), first + i)
  {
    hide ScriptsOf;
  }

  /** One row per transaction, numbered on from `first`. */
  method IndexTxids(cfg: Config, first: nat, block: Block) returns (rows: seq<HashRow>, next: nat)
    ensures next == first + |block.txs| && SetOf(rows) == TxidRows(cfg, first, block)
    ensures |rows| == |block.txs| && forall i :: 0 <= i < |rows| ==> rows[i].txnum == first + i && rows[i].prefix == cfg.txidPrefix(block.txs[i].txid)
  {
    rows, next := [], first;
    for i := 0 to |block.txs|
      invariant next == first + i && |rows| == i
      invariant forall k :: 0 <= k < i ==> rows[k] == HashRow(cfg.txidPrefix(block.txs[k].txid), first + k)
    {
      rows := rows + [HashRow(cfg.txidPrefix(block.txs[i].txid), next)];
      next := next + 1;
    }
    forall r ensures r in rows <==> r in TxidRows(cfg, first, block) {
      if r in TxidRows(cfg, first, block) {
        var i :| 0 <= i < |block.txs| && r == HashRow(cfg.txidPrefix(block.txs[i].txid), first + i);
        assert rows[i] == r;
      }
    }
  }

  // ------------------------------------------------------------------------------- batches and store

  /** A header row's value: on Bitcoin the transaction number is the key, on Liquid it is stored. */
  datatype HeaderValue = BitcoinValue(hash: Hash, prev: Hash) | LiquidValue(nextTxnum: nat, hash: Hash, prev: Hash)

  function HeaderKey(liquid: bool, h: Header): nat { if liquid then h.height else h.nextTxnum }

  function SerializeHeader(liquid: bool, h: Header): HeaderValue {
    if liquid then LiquidValue(h.nextTxnum, h.hash, h.prev) else BitcoinValue(h.hash, h.prev)
  }

  /** A stored header, read at its position in key order; on Liquid the key must be that position. */
  function DeserializeHeader(liquid: bool, key: nat, value: HeaderValue, position: nat): Option<Header> {
    match value
    case BitcoinValue(hash, prev) => if liquid then None else Some(Header(position, key, hash, prev))
    case LiquidValue(next, hash, prev) => if !liquid || key != position then None else Some(Header(key, next, hash, prev))
  }

  /** Reading a header row at its height gives the header back, in both layouts. */
  lemma HeaderRoundTrip(liquid: bool, h: Header)
    ensures DeserializeHeader(liquid, HeaderKey(liquid, h), SerializeHeader(liquid, h), h.height) == Some(h)
  {}

  /** A row is read as a header exactly when it is that header's row at the header's height. */
  lemma HeaderReadsExactly(liquid: bool, key: nat, value: HeaderValue, position: nat, h: Header)
    ensures DeserializeHeader(liquid, key, value, position) == Some(h) <==>
            key == HeaderKey(liquid, h) && value == SerializeHeader(liquid, h) && h.height == position
  {}

  datatype Batch = Batch(header: Header, scripts: set<HashRow>, txids: set<HashRow>, txpos: Table)

  datatype Store = Store(scripts: set<HashRow>, txids: set<HashRow>, txpos: Table, headers: map<nat, HeaderValue>)

  const EMPTY_STORE := Store({}, {}, map[], map[])

  function BatchOf(cfg: Config, height: nat, first: nat, block: Block): Batch
    requires WellFormed(cfg.liquid, block)
  {
    PositionsContiguous(block);
    Batch(Header(height, first + |block.txs|, block.hash, block.prev),
          ScriptRows(cfg, first, block), TxidRows(cfg, first, block), BlockTable(first, Positions(block)))
  }

  function Written(liquid: bool, s: Store, b: Batch): Store {
    Store(s.scripts + b.scripts, s.txids + b.txids, s.txpos + b.txpos,
          s.headers[HeaderKey(liquid, b.header) := SerializeHeader(liquid, b.header)])
  }

  function Deleted(liquid: bool, s: Store, b: Batch): Store {
    Store(s.scripts - b.scripts, s.txids - b.txids, s.txpos - b.txpos.Keys, s.headers - {HeaderKey(liquid, b.header)})
  }

  predicate AllWellFormed(liquid: bool, chain: seq<Block>) {
    forall i :: 0 <= i < |chain| ==> WellFormed(liquid, chain[i])
  }

  /** The store of a chain: the rows of its blocks and nothing else. */
  function StoreOf(cfg: Config, chain: seq<Block>): Store
    requires AllWellFormed(cfg.liquid, chain)
  {
    if |chain| == 0 then EMPTY_STORE
    else
      var n := |chain| - 1;
      Written(cfg.liquid, StoreOf(cfg, chain[..n]), BatchOf(cfg, n, |Locs(chain[..n])|, chain[n]))
  }

  lemma StoreSnoc(cfg: Config, chain: seq<Block>, block: Block)
    requires AllWellFormed(cfg.liquid, chain) && WellFormed(cfg.liquid, block)
    ensures AllWellFormed(cfg.liquid, chain + [block])
    ensures StoreOf(cfg, chain + [block]) == Written(cfg.liquid, StoreOf(cfg, chain), BatchOf(cfg, |chain|, |Locs(chain)|, block))
  {
    hide Written, BatchOf, WellFormed, Locs;
    Snoc(chain, block);
  }

  // ------------------------------------------------------------- what a chain's store lists

  /** The txid rows of a chain's store name each of its transactions under its number, and nothing
      else. */
  lemma {:induction false} StoreListsTxids(cfg: Config, chain: seq<Block>, prefix: Bytes, n: nat)
    requires AllWellFormed(cfg.liquid, chain)
    ensures HashRow(prefix, n) in StoreOf(cfg, chain).txids <==>
            n < |Locs(chain)| && cfg.txidPrefix(Locs(chain)[n].tx.txid) == prefix
    decreases |chain|
  {
    hide WellFormed, BatchOf;
    if |chain| > 0 {
      var init, last := chain[..|chain|-1], chain[|chain|-1];
      Split(chain);
      LocsSnoc(init, last);
      StoreSnoc(cfg, init, last);
      hide Locs, StoreOf;
      StoreListsTxids(cfg, init, prefix, n);
      BatchListsTxids(cfg, |init|, |Locs(init)|, last, prefix, n);
    }
  }

  lemma BatchListsTxids(cfg: Config, height: nat, first: nat, block: Block, prefix: Bytes, n: nat)
    requires WellFormed(cfg.liquid, block)
    ensures HashRow(prefix, n) in BatchOf(cfg, height, first, block).txids <==>
            first <= n < first + |block.txs| && cfg.txidPrefix(block.txs[n - first].txid) == prefix
  {
    hide WellFormed, ScriptRows, BlockTable, Positions, Contiguous;
    if first <= n < first + |block.txs| {
      assert n == first + (n - first) && block.txs[n - first] == block.txs[n - first];
    }
  }

  /** So a scan for a txid lists exactly the transactions whose txids share its prefix. */
  lemma TxidNumbers(cfg: Config, chain: seq<Block>, txid: Txid, from: nat, n: nat)
    requires AllWellFormed(cfg.liquid, chain)
    ensures n in Numbers(StoreOf(cfg, chain).txids, cfg.txidPrefix(txid), from) <==>
            from <= n < |Locs(chain)| && cfg.txidPrefix(Locs(chain)[n].tx.txid) == cfg.txidPrefix(txid)
  {
    hide AllWellFormed, StoreOf, Locs;
    StoreListsTxids(cfg, chain, cfg.txidPrefix(txid), n);
    NumbersAre(StoreOf(cfg, chain).txids, cfg.txidPrefix(txid), from, n);
  }

  lemma NumbersAre(rows: set<HashRow>, prefix: Bytes, from: nat, n: nat)
    ensures n in Numbers(rows, prefix, from) <==> from <= n && HashRow(prefix, n) in rows
  {
    assert forall r: HashRow :: r.prefix == prefix && r.txnum == n ==> r == HashRow(prefix, n);
  }

  /** The transaction at this place pays the script or spends an output of it, and the script is
      neither unspendable nor, on Liquid, empty. */
  ghost predicate MentionedAt(liquid: bool, chain: seq<Block>, l: Loc, script: Script) {
    && l.height < |chain| && l.position < |chain[l.height].txs| == |chain[l.height].spent|
    && (if |script| == 0 then !liquid else script[0] != 0x6a)
    && ((exists o :: o in chain[l.height].txs[l.position].outputs && o.script == script) || script in chain[l.height].spent[l.position])
  }

  /** The script rows of a chain's store name each transaction under every indexable script it pays
      or spends from, and nothing else. */
  lemma {:induction false} StoreListsScripts(cfg: Config, chain: seq<Block>, prefix: Bytes, n: nat)
    requires AllWellFormed(cfg.liquid, chain)
    ensures HashRow(prefix, n) in StoreOf(cfg, chain).scripts <==>
            n < |Locs(chain)| && exists s :: cfg.scriptPrefix(s) == prefix && MentionedAt(cfg.liquid, chain, Locs(chain)[n], s)
    decreases |chain|
  {
    hide BatchOf, MentionedAt;
    if |chain| > 0 {
      var init, last := chain[..|chain|-1], chain[|chain|-1];
      Split(chain);
      LocsSnoc(init, last);
      StoreSnoc(cfg, init, last);
      hide Locs, StoreOf, WellFormed;
      StoreListsScripts(cfg, init, prefix, n);
      BatchListsScripts(cfg, |init|, |Locs(init)|, last, prefix, n);
      forall s ensures n < |Locs(chain)| ==> (MentionedAt(cfg.liquid, chain, Locs(chain)[n], s) <==>
        if n < |Locs(init)| then MentionedAt(cfg.liquid, init, Locs(init)[n], s) else MentionsIn(cfg.liquid, last, n - |Locs(init)|, s)) {
        if n < |Locs(chain)| { MentionedIn(cfg.liquid, init, last, n, s); }
      }
    }
  }

  ghost predicate MentionsIn(liquid: bool, block: Block, i: nat, script: Script) {
    i < |block.txs| == |block.spent| && Mentions(liquid, block, i, script)
  }

  lemma MentionedIn(liquid: bool, init: seq<Block>, last: Block, n: nat, s: Script)
    requires n < |Locs(init + [last])|
    ensures Locs(init + [last]) == Locs(init) + BlockLocs(|init|, last)
    ensures MentionedAt(liquid, init + [last], Locs(init + [last])[n], s) <==>
            if n < |Locs(init)| then MentionedAt(liquid, init, Locs(init)[n], s) else MentionsIn(liquid, last, n - |Locs(init)|, s)
  {
    LocsSnoc(init, last);
    if n < |Locs(init)| {
      var h, p := BlockOf(init, n);
    }
    hide Locs;
  }

  lemma BatchListsScripts(cfg: Config, height: nat, first: nat, block: Block, prefix: Bytes, n: nat)
    requires WellFormed(cfg.liquid, block)
    ensures HashRow(prefix, n) in BatchOf(cfg, height, first, block).scripts <==>
            first <= n < first + |block.txs| && exists s :: cfg.scriptPrefix(s) == prefix && MentionsIn(cfg.liquid, block, n - first, s)
  {
    hide BatchOf, ScriptRows, Mentions, BytesDecide, BodyEnd;
    BatchScripts(cfg, height, first, block);
    ScriptRowMembers(cfg, first, block, HashRow(prefix, n));
    if HashRow(prefix, n) in ScriptRows(cfg, first, block) {
      var i, s :| 0 <= i < |block.txs| && s in ScriptsOf(cfg.liquid, block, i) && HashRow(prefix, n) == HashRow(cfg.scriptPrefix(s), first + i);
      assert MentionsIn(cfg.liquid, block, n - first, s);
    }
    if first <= n < first + |block.txs| {
      var i: nat := n - first;
      if s :| cfg.scriptPrefix(s) == prefix && MentionsIn(cfg.liquid, block, i, s) {
        assert s in ScriptsOf(cfg.liquid, block, i);
      }
    }
  }

  lemma BatchScripts(cfg: Config, height: nat, first: nat, block: Block)
    requires WellFormed(cfg.liquid, block)
    ensures BatchOf(cfg, height, first, block).scripts == ScriptRows(cfg, first, block) && |block.spent| == |block.txs|
  {
    hide ScriptRows, TxidRows, BlockTable, Positions;
  }

  // ------------------------------------------------------------- a block's keys are its own

  ghost predicate NumbersBelow(rows: set<HashRow>, n: nat) { forall r :: r in rows ==> r.txnum < n }
  ghost predicate NumbersFrom(rows: set<HashRow>, n: nat) { forall r :: r in rows ==> n <= r.txnum }
  ghost predicate KeysBelow(t: Table, n: nat) { forall k :: k in t ==> k < n }
  ghost predicate KeysFrom(t: Table, n: nat) { forall k :: k in t ==> n <= k }

  lemma BatchNumbers(cfg: Config, height: nat, first: nat, block: Block)
    requires WellFormed(cfg.liquid, block)
    ensures var b, n := BatchOf(cfg, height, first, block), first + |block.txs|;
            && NumbersFrom(b.scripts, first) && NumbersFrom(b.txids, first) && KeysFrom(b.txpos, first)
            && NumbersBelow(b.scripts, n) && NumbersBelow(b.txids, n) && KeysBelow(b.txpos, n)
  {
    hide ScriptsOf, TotalSize;
    PositionsContiguous(block);
    BlockKeys(first, Positions(block));
  }

  /** All numbers are below `n`, and header keys are those of `height` headers up to `n`. */
  ghost predicate Bounded(liquid: bool, s: Store, height: nat, n: nat) {
    && NumbersBelow(s.scripts, n) && NumbersBelow(s.txids, n) && KeysBelow(s.txpos, n)
    && (forall k :: k in s.headers ==> if liquid then k < height else k <= n)
    && (height > 0 && !liquid ==> n in s.headers)
  }

  lemma {:induction false} StoreNumbers(cfg: Config, chain: seq<Block>)
    requires AllWellFormed(cfg.liquid, chain)
    ensures Bounded(cfg.liquid, StoreOf(cfg, chain), |chain|, |Locs(chain)|)
    decreases |chain|
  {
    hide WellFormed, BatchOf, Written, Bounded;
    if |chain| == 0 {
      EmptyBounded(cfg.liquid);
    } else {
      var init, last := chain[..|chain|-1], chain[|chain|-1];
      Split(chain);
      LocsSnoc(init, last);
      StoreSnoc(cfg, init, last);
      hide Locs, StoreOf;
      StoreNumbers(cfg, init);
      WrittenBounded(cfg, StoreOf(cfg, init), |init|, |Locs(init)|, last);
    }
  }

  lemma EmptyBounded(liquid: bool)
    ensures Bounded(liquid, EMPTY_STORE, 0, 0)
  {}

  lemma WrittenBounded(cfg: Config, s: Store, height: nat, first: nat, block: Block)
    requires WellFormed(cfg.liquid, block) && Bounded(cfg.liquid, s, height, first)
    ensures Bounded(cfg.liquid, Written(cfg.liquid, s, BatchOf(cfg, height, first, block)), height + 1, first + |block.txs|)
  {
    hide WellFormed, BatchOf, Bounded, Written, NumbersFrom, NumbersBelow, KeysFrom, KeysBelow;
    BatchNumbers(cfg, height, first, block);
    BatchHeader(cfg, height, first, block);
    BoundedStep(cfg.liquid, s, BatchOf(cfg, height, first, block), height, first, |block.txs|);
  }

  lemma BatchHeader(cfg: Config, height: nat, first: nat, block: Block)
    requires WellFormed(cfg.liquid, block)
    ensures BatchOf(cfg, height, first, block).header == Header(height, first + |block.txs|, block.hash, block.prev)
  {}

  lemma BoundedStep(liquid: bool, s: Store, b: Batch, height: nat, first: nat, count: nat)
    requires Bounded(liquid, s, height, first)
    requires NumbersBelow(b.scripts, first + count) && NumbersBelow(b.txids, first + count) && KeysBelow(b.txpos, first + count)
    requires b.header.height == height && b.header.nextTxnum == first + count
    ensures Bounded(liquid, Written(liquid, s, b), height + 1, first + count)
  {}

  lemma BatchKeysAreNew(cfg: Config, s: Store, height: nat, first: nat, b: Batch)
    requires Bounded(cfg.liquid, s, height, first)
    requires NumbersFrom(b.scripts, first) && NumbersFrom(b.txids, first) && KeysFrom(b.txpos, first)
    requires HeaderKey(cfg.liquid, b.header) !in s.headers
    ensures Deleted(cfg.liquid, Written(cfg.liquid, s, b), b) == s
  {
    var w := Written(cfg.liquid, s, b);
    AddDrop(s.scripts, b.scripts);
    AddDrop(s.txids, b.txids);
    AddDropTable(s.txpos, b.txpos);
    AddDropHeader(s.headers, HeaderKey(cfg.liquid, b.header), SerializeHeader(cfg.liquid, b.header));
  }

  lemma AddDrop(a: set<HashRow>, b: set<HashRow>)
    requires a !! b
    ensures a + b - b == a
  {}

  lemma AddDropTable(a: Table, b: Table)
    requires a.Keys !! b.Keys
    ensures a + b - b.Keys == a
  {}

  lemma AddDropHeader(a: map<nat, HeaderValue>, k: nat, v: HeaderValue)
    requires k !in a
    ensures a[k := v] - {k} == a
  {}

  /** Deleting a re-indexed tip undoes precisely its write and touches no other block's keys. */
  lemma DeleteUndoesWrite(cfg: Config, chain: seq<Block>, block: Block)
    requires AllWellFormed(cfg.liquid, chain) && WellFormed(cfg.liquid, block)
    ensures AllWellFormed(cfg.liquid, chain + [block])
    ensures Deleted(cfg.liquid, StoreOf(cfg, chain + [block]), BatchOf(cfg, |chain|, |Locs(chain)|, block)) == StoreOf(cfg, chain)
  {
    assert cfg.liquid || |block.txs| > 0;
    hide StoreOf, Written, Deleted, Locs, AllWellFormed, WellFormed, Bounded;
    StoreSnoc(cfg, chain, block);
    StoreNumbers(cfg, chain);
    BatchNumbers(cfg, |chain|, |Locs(chain)|, block);
    NextKeyIsFree(cfg.liquid, StoreOf(cfg, chain), |chain|, |Locs(chain)|, |block.txs|);
    BatchKeysAreNew(cfg, StoreOf(cfg, chain), |chain|, |Locs(chain)|, BatchOf(cfg, |chain|, |Locs(chain)|, block));
  }

  /** A chain with one more block has another store. */
  lemma StoresDiffer(cfg: Config, chain: seq<Block>, block: Block)
    requires AllWellFormed(cfg.liquid, chain) && WellFormed(cfg.liquid, block)
    ensures AllWellFormed(cfg.liquid, chain + [block])
    ensures StoreOf(cfg, chain + [block]) != StoreOf(cfg, chain)
  {
    assert cfg.liquid || |block.txs| > 0;
    hide StoreOf, BatchOf, Locs, AllWellFormed, WellFormed, Bounded;
    StoreSnoc(cfg, chain, block);
    StoreNumbers(cfg, chain);
    BatchHeader(cfg, |chain|, |Locs(chain)|, block);
    NextKeyIsFree(cfg.liquid, StoreOf(cfg, chain), |chain|, |Locs(chain)|, |block.txs|);
    var batch := BatchOf(cfg, |chain|, |Locs(chain)|, block);
    assert HeaderKey(cfg.liquid, batch.header) in Written(cfg.liquid, StoreOf(cfg, chain), batch).headers;
  }

  lemma NextKeyIsFree(liquid: bool, s: Store, height: nat, first: nat, count: nat)
    requires Bounded(liquid, s, height, first)
    ensures liquid ==> height !in s.headers
    ensures !liquid && count > 0 ==> first + count !in s.headers
    ensures !liquid && height > 0 ==> first in s.headers
  {}

  /** Why Bitcoin headers may be keyed by the next transaction number: with a Bitcoin block that
      brought no transaction, its row would overwrite its parent's and deleting it would
      lose the parent. Keys stay free exactly when there is at least one transaction. */
  lemma EmptyBitcoinBlockCollides(cfg: Config, chain: seq<Block>, header: Header)
    requires AllWellFormed(cfg.liquid, chain) && !cfg.liquid && |chain| > 0
    requires |Locs(chain)| <= header.nextTxnum
    ensures HeaderKey(cfg.liquid, header) !in StoreOf(cfg, chain).headers <==> header.nextTxnum > |Locs(chain)|
    ensures forall b: Batch :: b.header == header && header.nextTxnum == |Locs(chain)| ==>
              Deleted(cfg.liquid, Written(cfg.liquid, StoreOf(cfg, chain), b), b) != StoreOf(cfg, chain)
  {
    hide AllWellFormed, Locs, StoreOf;
    StoreNumbers(cfg, chain);
    var s := StoreOf(cfg, chain);
    forall b: Batch | b.header == header && header.nextTxnum == |Locs(chain)|
      ensures Deleted(cfg.liquid, Written(cfg.liquid, s, b), b) != s
    {
      assert header.nextTxnum !in Deleted(cfg.liquid, Written(cfg.liquid, s, b), b).headers;
    }
  }

  // ------------------------------------------------------------------------ rows left behind

  /** The rows of `s`, and those of `left` under keys that `s` does not have. */
  function Over(left: Store, s: Store): Store {
    Store(left.scripts + s.scripts, left.txids + s.txids, left.txpos + s.txpos, left.headers + s.headers)
  }

  /** Every key of `left` is a key of `s`. */
  ghost predicate Covered(left: Store, s: Store) {
    left.scripts <= s.scripts && left.txids <= s.txids && left.txpos.Keys <= s.txpos.Keys && left.headers.Keys <= s.headers.Keys
  }

  /** Laid over what is left behind, a store is itself exactly when it covers it. */
  lemma OverIsSame(left: Store, s: Store)
    ensures Over(left, s) == s <==> Covered(left, s)
  {
    SetOver(left.scripts, s.scripts);
    SetOver(left.txids, s.txids);
    MapOver(left.txpos, s.txpos);
    MapOver(left.headers, s.headers);
  }

  lemma SetOver<T>(a: set<T>, b: set<T>)
    ensures a + b == b <==> a <= b
  {}

  lemma MapOver<K, V>(a: map<K, V>, b: map<K, V>)
    ensures a + b == b <==> a.Keys <= b.Keys
  {
    assert (a + b).Keys == a.Keys + b.Keys;
    assert a.Keys <= b.Keys ==> forall k :: k in a + b <==> k in b;
  }

  lemma OverEmpty(s: Store)
    ensures Over(EMPTY_STORE, s) == s
  {
    OverIsSame(EMPTY_STORE, s);
  }

  /** Writing goes on top of what is left behind. */
  lemma OverWritten(liquid: bool, left: Store, s: Store, b: Batch)
    ensures Written(liquid, Over(left, s), b) == Over(left, Written(liquid, s, b))
  {
    assert left.txpos + s.txpos + b.txpos == left.txpos + (s.txpos + b.txpos);
    PutOver(left.headers, s.headers, HeaderKey(liquid, b.header), SerializeHeader(liquid, b.header));
    assert left.scripts + s.scripts + b.scripts == left.scripts + (s.scripts + b.scripts);
    assert left.txids + s.txids + b.txids == left.txids + (s.txids + b.txids);
  }

  lemma PutOver<K, V>(a: map<K, V>, b: map<K, V>, k: K, v: V)
    ensures (a + b)[k := v] == a + b[k := v]
    ensures k !in b ==> a + b[k := v] == a[k := v] + b
  {}

  /** The batch's keys are new to the store. */
  ghost predicate NewTo(liquid: bool, s: Store, b: Batch) {
    s.scripts !! b.scripts && s.txids !! b.txids && s.txpos.Keys !! b.txpos.Keys && HeaderKey(liquid, b.header) !in s.headers
  }

  /** Deleting a batch that was written last also deletes what is left behind under its keys. */
  lemma OverDeleted(liquid: bool, left: Store, s: Store, b: Batch)
    requires NewTo(liquid, s, b)
    ensures Deleted(liquid, Over(left, Written(liquid, s, b)), b) == Over(Deleted(liquid, left, b), s)
  {
    SetDrop(left.scripts, s.scripts, b.scripts);
    SetDrop(left.txids, s.txids, b.txids);
    MapDrop(left.txpos, s.txpos, b.txpos);
    MapDrop(left.headers, s.headers, map[HeaderKey(liquid, b.header) := SerializeHeader(liquid, b.header)]);
    AsPut(s.headers, HeaderKey(liquid, b.header), SerializeHeader(liquid, b.header));
  }

  lemma AsPut<K, V>(m: map<K, V>, k: K, v: V)
    ensures m[k := v] == m + map[k := v] && map[k := v].Keys == {k}
  {}

  lemma SetDrop<T>(l: set<T>, s: set<T>, b: set<T>)
    requires s !! b
    ensures l + (s + b) - b == l - b + s
  {}

  lemma MapDrop<K, V>(l: map<K, V>, s: map<K, V>, b: map<K, V>)
    requires s.Keys !! b.Keys
    ensures l + (s + b) - b.Keys == l - b.Keys + s
  {}

  /** Not deleting it leaves its rows behind. */
  lemma OverKept(liquid: bool, left: Store, s: Store, b: Batch)
    requires NewTo(liquid, s, b)
    ensures Over(left, Written(liquid, s, b)) == Over(Written(liquid, left, b), s)
  {
    assert left.scripts + (s.scripts + b.scripts) == left.scripts + b.scripts + s.scripts;
    assert left.txids + (s.txids + b.txids) == left.txids + b.txids + s.txids;
    MapKeep(left.txpos, s.txpos, b.txpos);
    PutOver(left.headers, s.headers, HeaderKey(liquid, b.header), SerializeHeader(liquid, b.header));
  }

  lemma MapKeep<K, V>(l: map<K, V>, s: map<K, V>, b: map<K, V>)
    requires s.Keys !! b.Keys
    ensures l + (s + b) == l + b + s
  {}

  /** The batch of block `k` of a chain. */
  function BatchAt(cfg: Config, chain: seq<Block>, k: nat): Batch
    requires AllWellFormed(cfg.liquid, chain) && k < |chain|
  {
    BatchOf(cfg, k, |Locs(chain[..k])|, chain[k])
  }

  /** A block's keys are new to the store of the chain before it. */
  lemma BatchIsNew(cfg: Config, chain: seq<Block>, k: nat)
    requires AllWellFormed(cfg.liquid, chain) && k < |chain|
    ensures AllWellFormed(cfg.liquid, chain[..k]) && AllWellFormed(cfg.liquid, chain[..k+1])
    ensures StoreOf(cfg, chain[..k+1]) == Written(cfg.liquid, StoreOf(cfg, chain[..k]), BatchAt(cfg, chain, k))
    ensures NewTo(cfg.liquid, StoreOf(cfg, chain[..k]), BatchAt(cfg, chain, k))
  {
    var init, block := chain[..k], chain[k];
    assert AllWellFormed(cfg.liquid, init) && WellFormed(cfg.liquid, block);
    assert cfg.liquid || |block.txs| > 0;
    OneMore(chain, k);
    hide StoreOf, BatchOf, Written, Locs, AllWellFormed, WellFormed, Bounded, HeaderKey;
    StoreSnoc(cfg, init, block);
    StoreNumbers(cfg, init);
    BatchNumbers(cfg, k, |Locs(init)|, block);
    BatchHeader(cfg, k, |Locs(init)|, block);
    KeysApart(cfg.liquid, StoreOf(cfg, init), k, |Locs(init)|, |block.txs|, BatchAt(cfg, chain, k));
  }

  lemma KeysApart(liquid: bool, s: Store, height: nat, first: nat, count: nat, b: Batch)
    requires Bounded(liquid, s, height, first) && (liquid || count > 0)
    requires NumbersFrom(b.scripts, first) && NumbersFrom(b.txids, first) && KeysFrom(b.txpos, first)
    requires b.header.height == height && b.header.nextTxnum == first + count
    ensures NewTo(liquid, s, b)
  {}

  lemma CoveredThrough(a: Store, b: Store, c: Store)
    requires Covered(a, b) && Covered(b, c)
    ensures Covered(a, c)
  {}

  lemma WrittenCovers(liquid: bool, s: Store, b: Batch)
    ensures Covered(s, Written(liquid, s, b)) && Covered(Written(liquid, EMPTY_STORE, b), Written(liquid, s, b))
  {}

  lemma PrefixWellFormed(liquid: bool, chain: seq<Block>, k: nat)
    requires AllWellFormed(liquid, chain) && k <= |chain|
    ensures AllWellFormed(liquid, chain[..k])
  {
    hide WellFormed;
  }

  /** A longer chain's store has every key of a shorter one's. */
  lemma {:induction false} StoreGrows(cfg: Config, chain: seq<Block>, k: nat)
    requires AllWellFormed(cfg.liquid, chain) && k <= |chain|
    ensures AllWellFormed(cfg.liquid, chain[..k]) && Covered(StoreOf(cfg, chain[..k]), StoreOf(cfg, chain))
    decreases |chain| - k
  {
    hide StoreOf, BatchAt, WellFormed, AllWellFormed, Covered, Written, NewTo;
    PrefixWellFormed(cfg.liquid, chain, k);
    if k == |chain| {
      AllOf(chain);
      CoversItself(StoreOf(cfg, chain));
    } else {
      BatchIsNew(cfg, chain, k);
      StoreGrows(cfg, chain, k + 1);
      WrittenCovers(cfg.liquid, StoreOf(cfg, chain[..k]), BatchAt(cfg, chain, k));
      CoveredThrough(StoreOf(cfg, chain[..k]), StoreOf(cfg, chain[..k+1]), StoreOf(cfg, chain));
    }
  }

  lemma CoversItself(s: Store)
    ensures Covered(s, s)
  {}

  /** A chain's store has every key of each of its blocks. */
  lemma BlockIsCovered(cfg: Config, chain: seq<Block>, k: nat)
    requires AllWellFormed(cfg.liquid, chain) && k < |chain|
    ensures Covered(Written(cfg.liquid, EMPTY_STORE, BatchAt(cfg, chain, k)), StoreOf(cfg, chain))
  {
    hide StoreOf, BatchAt, WellFormed, AllWellFormed, Covered, Written, NewTo;
    BatchIsNew(cfg, chain, k);
    StoreGrows(cfg, chain, k + 1);
    WrittenCovers(cfg.liquid, StoreOf(cfg, chain[..k]), BatchAt(cfg, chain, k));
    CoveredThrough(Written(cfg.liquid, EMPTY_STORE, BatchAt(cfg, chain, k)), StoreOf(cfg, chain[..k+1]), StoreOf(cfg, chain));
  }

  /** Rows left behind by a block with more transactions than the one that replaced it are not
      covered: the store is out of step. */
  lemma StaleRowsStay(cfg: Config, chain: seq<Block>, stale: Block, block: Block)
    requires AllWellFormed(cfg.liquid, chain) && WellFormed(cfg.liquid, stale) && WellFormed(cfg.liquid, block)
    requires |block.txs| < |stale.txs|
    ensures AllWellFormed(cfg.liquid, chain + [block])
    ensures !Covered(Written(cfg.liquid, EMPTY_STORE, BatchOf(cfg, |chain|, |Locs(chain)|, stale)), StoreOf(cfg, chain + [block]))
  {
    hide StoreOf, Locs, WellFormed;
    var n := |stale.txs| - 1;
    var row := HashRow(cfg.txidPrefix(stale.txs[n].txid), |Locs(chain)| + n);
    assert row in BatchOf(cfg, |chain|, |Locs(chain)|, stale).txids;
    StoreNumbers(cfg, chain + [block]);
    LocsSnoc(chain, block);
  }
}
