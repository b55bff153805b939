/** The index writer as a state machine over an arbitrarily reorganizing node: from a store in step
    with the headers every successful sync leaves one in step, and whatever fails, the store is the
    rows of the headers laid over those of dropped blocks that could not be deleted. */
module Sync {
  import opened Collections
  import opened TxPos
  import opened Chain
  import opened IndexRows
  import Secondary

  /** The node and the disk over time: every block the node can name, its active chain at each
      request, whether a header request and a block request succeed, and whether the store accepts
      a batch. Reorganizations are jumps of `active`. */
  datatype Node = Node(blocks: map<Hash, Block>, active: nat -> seq<Block>, answers: nat -> bool, serves: (nat, Hash) -> bool,
                       commits: nat -> bool)

  ghost predicate GoodActive(node: Node, genesis: Hash, active: seq<Block>) {
    KnownChain(node.blocks, active) && |active| > 0 && active[0].hash == genesis
  }

  ghost predicate GoodNode(cfg: Config, genesis: Hash, node: Node) {
    && ContentAddressed(node.blocks)
    && (forall h :: h in node.blocks ==> WellFormed(cfg.liquid, node.blocks[h]))
    && (forall t :: GoodActive(node, genesis, node.active(t)))
  }

  /** The height of a block in a chain. */
  function HeightOf(chain: seq<Block>, hash: Hash): (r: Option<nat>)
    ensures r.Some? ==> r.value < |chain| && chain[r.value].hash == hash
    ensures r.None? ==> forall i :: 0 <= i < |chain| ==> chain[i].hash != hash
  {
    if |chain| == 0 then None
    else if chain[|chain|-1].hash == hash then Some(|chain| - 1)
    else HeightOf(chain[..|chain|-1], hash)
  }

  /** The node's header request: up to `limit + 1` hashes of the active chain starting at a
      block of it, and none if the block is not active. */
  function GetHeaders(active: seq<Block>, hash: Hash, limit: nat): (r: seq<Hash>)
    ensures HeightOf(active, hash).None? ==> |r| == 0
    ensures HeightOf(active, hash).Some? ==>
              var h := HeightOf(active, hash).value;
              && |r| == Min(limit + 1, |active| - h)
              && forall i :: 0 <= i < |r| ==> r[i] == active[h + i].hash
  {
    match HeightOf(active, hash)
    case None => []
    case Some(h) => seq<Hash>(Min(limit + 1, |active| - h), i requires 0 <= i < Min(limit + 1, |active| - h) => active[h + i].hash)
  }

  // --------------------------------------------------------------------------- batches of blocks

  /** Each block's batch, numbered on from the chain before it. */
  ghost predicate BatchesFor(cfg: Config, chain: seq<Block>, blocks: seq<Block>, batches: seq<Batch>) {
    && |batches| == |blocks|
    && (forall i :: 0 <= i < |blocks| ==> WellFormed(cfg.liquid, blocks[i]))
    && (forall i :: 0 <= i < |blocks| ==> batches[i] == BatchOf(cfg, |chain| + i, |Locs(chain + blocks[..i])|, blocks[i]))
  }

  function WrittenAll(liquid: bool, s: Store, batches: seq<Batch>): Store {
    if |batches| == 0 then s
    else Written(liquid, WrittenAll(liquid, s, batches[..|batches|-1]), batches[|batches|-1])
  }

  function HeadersAfter(headers: seq<Header>, batches: seq<Batch>): seq<Header> {
    if |batches| == 0 then headers
    else HeadersAfter(headers, batches[..|batches|-1]) + [batches[|batches|-1].header]
  }

  /** Writing the batches of more blocks extends the store and the headers by those blocks. */
  lemma {:induction false} WriteExtends(cfg: Config, chain: seq<Block>, blocks: seq<Block>, batches: seq<Batch>)
    requires AllWellFormed(cfg.liquid, chain) && BatchesFor(cfg, chain, blocks, batches)
    ensures AllWellFormed(cfg.liquid, chain + blocks)
    ensures WrittenAll(cfg.liquid, StoreOf(cfg, chain), batches) == StoreOf(cfg, chain + blocks)
    ensures HeadersAfter(HeadersOf(chain), batches) == HeadersOf(chain + blocks)
    decreases |blocks|
  {
    hide WellFormed, StoreOf, HeadersOf, Written, BatchOf, Locs;
    if |blocks| == 0 {
      Nil(blocks);
      AppendNil(chain);
    } else {
      var n := |blocks| - 1;
      BatchesPrefix(cfg, chain, blocks, batches);
      WriteExtends(cfg, chain, blocks[..n], batches[..n]);
      Split(blocks);
      AppendAssoc(chain, blocks[..n], [blocks[n]]);
      StoreSnoc(cfg, chain + blocks[..n], blocks[n]);
      HeadersSnoc(chain + blocks[..n], blocks[n]);
      BatchHeader(cfg, |chain + blocks[..n]|, |Locs(chain + blocks[..n])|, blocks[n]);
    }
  }

  /** Batches go on top of what is left behind. */
  lemma {:induction false} OverWrittenAll(liquid: bool, left: Store, s: Store, batches: seq<Batch>)
    ensures WrittenAll(liquid, Over(left, s), batches) == Over(left, WrittenAll(liquid, s, batches))
  {
    hide Written, Over;
    if |batches| > 0 {
      var n := |batches| - 1;
      OverWrittenAll(liquid, left, s, batches[..n]);
      OverWritten(liquid, left, WrittenAll(liquid, s, batches[..n]), batches[n]);
    }
  }

  lemma BatchesPrefix(cfg: Config, chain: seq<Block>, blocks: seq<Block>, batches: seq<Batch>)
    requires BatchesFor(cfg, chain, blocks, batches) && |blocks| > 0
    ensures BatchesFor(cfg, chain, blocks[..|blocks|-1], batches[..|batches|-1])
    ensures var n := |blocks| - 1;
            WellFormed(cfg.liquid, blocks[n]) && batches[n] == BatchOf(cfg, |chain + blocks[..n]|, |Locs(chain + blocks[..n])|, blocks[n])
  {
    hide WellFormed, BatchOf, Locs;
    var n := |blocks| - 1;
    forall i | 0 <= i < n ensures blocks[..n][..i] == blocks[..i] {}
  }

  /** Builds one block's batch from its rows. */
  method BuildBatch(cfg: Config, height: nat, first: nat, block: Block) returns (b: Batch)
    requires WellFormed(cfg.liquid, block)
    ensures b == BatchOf(cfg, height, first, block)
  {
    var rows, next := IndexScripts(cfg, first, block);
    var txids, again := IndexTxids(cfg, first, block);
    assert again == next;
    var pos := CollectPositions(block);
    PositionsContiguous(block);
    RowsAreTable(first, pos);
    b := Batch(Header(height, next, block.hash, block.prev), SetOf(rows), SetOf(txids), Rows(Chunkify(first, pos)));
  }

  lemma {:induction false} KnownSnoc(blocks: map<Hash, Block>, chain: seq<Block>, block: Block)
    requires KnownChain(blocks, chain) && block.prev == TipHash(chain) && block.hash != ZERO
    requires block.hash in blocks && blocks[block.hash] == block
    ensures KnownChain(blocks, chain + [block])
  {
    var longer := chain + [block];
    forall i | 0 <= i < |longer| ensures LinkedAt(longer, i) {
      if i < |chain| { assert LinkedAt(chain, i); }
    }
  }

  // ------------------------------------------------------------------ what failed drops leave behind

  /** What is left behind once blocks from height `k` on are dropped and their rows deleted. */
  ghost function LeftAfter(cfg: Config, left: Store, chain: seq<Block>, k: nat): Store
    requires AllWellFormed(cfg.liquid, chain) && k <= |chain|
    decreases |chain| - k
  {
    if k == |chain| then left else Deleted(cfg.liquid, LeftAfter(cfg, left, chain, k + 1), BatchAt(cfg, chain, k))
  }

  /** The same when the rows of the last block dropped may have stayed. */
  ghost function LeftOf(cfg: Config, left: Store, chain: seq<Block>, kept: nat, clean: bool): Store
    requires AllWellFormed(cfg.liquid, chain) && kept <= |chain| && (!clean ==> kept < |chain|)
  {
    if clean then LeftAfter(cfg, left, chain, kept)
    else Written(cfg.liquid, LeftAfter(cfg, left, chain, kept + 1), BatchAt(cfg, chain, kept))
  }

  /** A round as it matters for the rows left behind: the chain before it, the height down to which
      it dropped blocks, and whether the rows of the last one were deleted. */
  datatype Round = Round(chain: seq<Block>, kept: nat, clean: bool)

  ghost predicate GoodRound(cfg: Config, r: Round) {
    AllWellFormed(cfg.liquid, r.chain) && r.kept <= |r.chain| && (!r.clean ==> r.kept < |r.chain|)
  }

  ghost predicate GoodRounds(cfg: Config, rounds: seq<Round>) {
    forall i :: 0 <= i < |rounds| ==> GoodRound(cfg, rounds[i])
  }

  ghost predicate AllClean(rounds: seq<Round>) {
    forall i :: 0 <= i < |rounds| ==> rounds[i].clean
  }

  /** What is left behind after a run of rounds. */
  ghost function LeftBy(cfg: Config, left: Store, rounds: seq<Round>): Store
    requires GoodRounds(cfg, rounds)
  {
    if |rounds| == 0 then left
    else
      var n := |rounds| - 1;
      LeftOf(cfg, LeftBy(cfg, left, rounds[..n]), rounds[n].chain, rounds[n].kept, rounds[n].clean)
  }

  lemma LeftBySnoc(cfg: Config, left: Store, rounds: seq<Round>, r: Round)
    requires GoodRounds(cfg, rounds) && GoodRound(cfg, r)
    ensures GoodRounds(cfg, rounds + [r])
    ensures LeftBy(cfg, left, rounds + [r]) == LeftOf(cfg, LeftBy(cfg, left, rounds), r.chain, r.kept, r.clean)
    ensures AllClean(rounds + [r]) <==> AllClean(rounds) && r.clean
  {
    hide LeftOf, GoodRound;
    Snoc(rounds, r);
  }

  lemma DeletedIsLess(liquid: bool, left: Store, b: Batch)
    ensures Covered(Deleted(liquid, left, b), left)
  {}

  /** Clean drops only take away from what is left behind. */
  lemma {:induction false} LeftAfterIsLess(cfg: Config, left: Store, chain: seq<Block>, k: nat)
    requires AllWellFormed(cfg.liquid, chain) && k <= |chain|
    ensures Covered(LeftAfter(cfg, left, chain, k), left)
    decreases |chain| - k
  {
    hide AllWellFormed, BatchAt, Deleted, Covered;
    if k == |chain| {
      CoversItself(left);
    } else {
      LeftAfterIsLess(cfg, left, chain, k + 1);
      DeletedIsLess(cfg.liquid, LeftAfter(cfg, left, chain, k + 1), BatchAt(cfg, chain, k));
      CoveredThrough(LeftAfter(cfg, left, chain, k), LeftAfter(cfg, left, chain, k + 1), left);
    }
  }

  lemma {:induction false} LeftByIsLess(cfg: Config, left: Store, rounds: seq<Round>)
    requires GoodRounds(cfg, rounds) && AllClean(rounds)
    ensures Covered(LeftBy(cfg, left, rounds), left)
  {
    hide Covered, AllWellFormed, LeftAfter;
    if |rounds| == 0 {
      CoversItself(left);
    } else {
      var n := |rounds| - 1;
      LeftByIsLess(cfg, left, rounds[..n]);
      LeftAfterIsLess(cfg, LeftBy(cfg, left, rounds[..n]), rounds[n].chain, rounds[n].kept);
      CoveredThrough(LeftBy(cfg, left, rounds), LeftBy(cfg, left, rounds[..n]), left);
    }
  }

  /** The rows of a block that one failed drop leaves behind are covered whenever the index is on
      that block again, however many rounds later, if no drop has failed since. */
  lemma InStepAgain(cfg: Config, before: seq<Block>, kept: nat, rounds: seq<Round>, chain: seq<Block>)
    requires GoodRound(cfg, Round(before, kept, false)) && GoodRounds(cfg, rounds) && AllClean(rounds)
    requires AllWellFormed(cfg.liquid, chain) && before[..kept + 1] <= chain
    ensures Covered(LeftBy(cfg, LeftOf(cfg, EMPTY_STORE, before, kept, false), rounds), StoreOf(cfg, chain))
  {
    var left := LeftOf(cfg, EMPTY_STORE, before, kept, false);
    NothingLeft(cfg, before, kept + 1);
    SameBatch(cfg, before, chain, kept);
    hide Covered, AllWellFormed, LeftAfter, LeftBy, StoreOf, BatchAt, Written;
    LeftByIsLess(cfg, left, rounds);
    BlockIsCovered(cfg, chain, kept);
    CoveredThrough(LeftBy(cfg, left, rounds), left, StoreOf(cfg, chain));
  }

  /** Clean drops leave nothing behind in a clean store. */
  lemma NothingLeft(cfg: Config, chain: seq<Block>, k: nat)
    requires AllWellFormed(cfg.liquid, chain) && k <= |chain|
    ensures LeftAfter(cfg, EMPTY_STORE, chain, k) == EMPTY_STORE
  {
    hide AllWellFormed, BatchAt, LeftAfter;
    LeftAfterIsLess(cfg, EMPTY_STORE, chain, k);
    OnlyEmpty(LeftAfter(cfg, EMPTY_STORE, chain, k));
  }

  lemma OnlyEmpty(left: Store)
    requires Covered(left, EMPTY_STORE)
    ensures left == EMPTY_STORE
  {}

  /** A block's batch depends only on the chain up to it. */
  lemma SameBatch(cfg: Config, a: seq<Block>, b: seq<Block>, k: nat)
    requires AllWellFormed(cfg.liquid, a) && AllWellFormed(cfg.liquid, b) && k < |a| && a[..k + 1] <= b
    ensures k < |b| && BatchAt(cfg, a, k) == BatchAt(cfg, b, k)
  {
    hide WellFormed, Locs, BatchOf;
    assert a[k] == a[..k+1][k];
    assert forall i :: 0 <= i < k ==> a[i] == a[..k+1][i];
    assert a[..k] == b[..k];
  }

  // ---------------------------------------------------------------------------------- the writer

  class IndexedChain {
    const cfg: Config
    const genesis: Hash
    var headers: seq<Header>
    var store: Store
    /** The list of active blocks that headers and store stand for. */
    ghost var chain: seq<Block>
    /** The rows of dropped blocks that could not be deleted. */
    ghost var leftover: Store

    ghost predicate HeadersMatch(blocks: map<Hash, Block>)
      reads this
    {
      && KnownChain(blocks, chain) && AllWellFormed(cfg.liquid, chain)
      && |Locs(chain)| < U32
      && (|chain| > 0 ==> chain[0].hash == genesis)
      && headers == HeadersOf(chain)
    }

    /** The store is the rows of the active blocks, laid over what is left behind. */
    ghost predicate Tracks(blocks: map<Hash, Block>)
      reads this
    {
      HeadersMatch(blocks) && store == Over(leftover, StoreOf(cfg, chain))
    }

    /** The store holds exactly the rows of the active blocks. */
    ghost predicate InSync(blocks: map<Hash, Block>)
      reads this
    {
      HeadersMatch(blocks) && store == StoreOf(cfg, chain)
    }

    constructor (cfg: Config, genesis: Hash)
      ensures this.cfg == cfg && this.genesis == genesis
      ensures chain == [] && leftover == EMPTY_STORE && InSync(map[])
    {
      this.cfg, this.genesis := cfg, genesis;
      headers, store, chain, leftover := [], EMPTY_STORE, [], EMPTY_STORE;
    }

    /** The store is in step exactly when every key left behind is a key of an active block. */
    lemma InStepExactly(blocks: map<Hash, Block>)
      requires Tracks(blocks)
      ensures InSync(blocks) <==> Covered(leftover, StoreOf(cfg, chain))
    {
      hide StoreOf, Over, Covered;
      OverIsSame(leftover, StoreOf(cfg, chain));
    }

    function Tip(): Hash
      reads this
    {
      if |headers| == 0 then ZERO else headers[|headers|-1].hash
    }

    /** Fetches and numbers more blocks on top of the headers. `None` stands for a failed fetch,
        a number past 32 bits, or a block that does not link, and for nothing else. */
    method Index(node: Node, t: nat, hashes: seq<Hash>) returns (r: Option<seq<Batch>>)
      requires HeadersMatch(node.blocks) && GoodNode(cfg, genesis, node)
      requires forall i :: 0 <= i < |hashes| ==> hashes[i] in node.blocks
      ensures r.Some? ==> Indexed(cfg, node.blocks, chain, hashes, NamedBlocks(node.blocks, hashes), r.value)
      ensures r.Some? <==> forall i :: 0 <= i < |hashes| ==> CanAdd(node, t, chain, hashes, i)
    {
      hide WellFormed, BatchOf, Locs, KnownChain, BatchesFor, Indexed, Numbering, HeadersMatch, CanAdd, NamedBlocks;
      var height: nat, next: nat, tip: Hash := |headers|, NextTxnum(headers), Tip();
      var batches: seq<Batch> := [];
      ghost var blocks: seq<Block> := [];
      NumberingStarts(cfg, node.blocks, chain, headers) by { HeadersMatchFacts(node.blocks); }
      for i := 0 to |hashes|
        invariant |blocks| == i && BlocksNamed(node.blocks, hashes[..i], blocks)
        invariant Numbering(cfg, node.blocks, chain, blocks, batches, height, next, tip)
        invariant forall k :: 0 <= k < i ==> CanAdd(node, t, chain, hashes, k)
      {
        AddsIf(cfg, node, t, chain, hashes, blocks, batches, height, next, tip);
        if !node.serves(t, hashes[i]) { return None; }
        var block := node.blocks[hashes[i]];
        if next + |block.txs| >= U32 || block.prev != tip { return None; }
        var b := BuildBatch(cfg, height, next, block);
        NumberingStep(cfg, node.blocks, chain, blocks, batches, height, next, tip, block, b);
        OneMore(hashes, i);
        batches, blocks := batches + [b], blocks + [block];
        height, next, tip := height + 1, next + |block.txs|, block.hash;
      }
      AllOf(hashes);
      NamedAre(node.blocks, hashes, blocks);
      NumberingEnds(cfg, node.blocks, chain, hashes, blocks, batches, height, next, tip);
      r := Some(batches);
    }

    lemma TracksFacts(blocks: map<Hash, Block>)
      requires Tracks(blocks)
      ensures KnownChain(blocks, chain) && (|chain| > 0 ==> chain[0].hash == genesis)
      ensures HeadersMatch(blocks) && AllWellFormed(cfg.liquid, chain) && store == Over(leftover, StoreOf(cfg, chain))
      ensures Tip() == TipHash(chain) && (TipHash(chain) == ZERO <==> |chain| == 0)
      ensures |chain| > 0 ==> TipHash(chain) == chain[|chain|-1].hash
    {
      TipIsTip(chain) by { KnownIsLinked(blocks, chain); }
    }

    /** Before anything is indexed, it does not matter which blocks are known. */
    lemma KnowsMore(blocks: map<Hash, Block>)
      requires InSync(map[]) && chain == [] && leftover == EMPTY_STORE
      ensures InSync(blocks) && Tracks(blocks)
    {}

    lemma HeadersMatchFacts(blocks: map<Hash, Block>)
      requires HeadersMatch(blocks)
      ensures headers == HeadersOf(chain) && KnownChain(blocks, chain) && |Locs(chain)| < U32
    {}

    /** Pops the tip and deletes its rows by indexing it again. When the node does not answer or the
        store does not accept the deletion, the header is gone but its rows are not. */
    method DropTip(node: Node, t: nat) returns (ok: bool, stale: Hash)
      requires Tracks(node.blocks) && GoodNode(cfg, genesis, node) && |chain| > 0
      modifies this
      ensures stale == old(TipHash(chain)) && chain == old(chain)[..|old(chain)|-1]
      ensures Tracks(node.blocks)
      ensures ok <==> Deletes(node, t, stale)
      ensures AllWellFormed(cfg.liquid, old(chain)) && leftover == LeftOf(cfg, old(leftover), old(chain), |old(chain)| - 1, ok)
      ensures old(InSync(node.blocks)) ==> (ok <==> InSync(node.blocks))
      ensures !ok ==> store == old(store)
    {
      hide WellFormed, BatchOf, Locs, KnownChain, AllWellFormed, StoreOf, HeadersOf, Deleted, Written, Over, NewTo, BatchAt, GoodNode, LeftOf;
      ghost var n := |chain| - 1;
      TipIsTip(chain) by { KnownIsLinked(node.blocks, chain); }
      stale := headers[|headers|-1].hash;
      DropFacts(cfg, genesis, node.blocks, chain);
      TipInStore(cfg, chain);
      DropStore(cfg, leftover, chain);
      ghost var last := BatchAt(cfg, chain, n);
      headers := headers[..|headers|-1];
      ok := node.serves(t, stale) && node.commits(t);
      LeftAtTip(cfg, leftover, chain, ok);
      if ok {
        StaleIsKnown(cfg, genesis, node, stale);
        var batch := BuildBatch(cfg, |headers|, NextTxnum(headers), node.blocks[stale]);
        NumberedOn(chain[..n]);
        BatchIs(cfg, chain, n);
        store := Deleted(cfg.liquid, store, batch);
      }
      leftover := if ok then Deleted(cfg.liquid, leftover, last) else Written(cfg.liquid, leftover, last);
      chain := chain[..n];
    }

    /** Asks for headers after the tip, dropping the tip until the node knows it. `drop` is the
        instant of the last drop: the dropped block was not active just before. Every dropped
        block's rows are deleted, but those of the last one if the drop failed. */
    method FetchNewHeaders(node: Node, t: nat, limit: nat)
      returns (ok: bool, hashes: seq<Hash>, skip: nat, t': nat, ghost drop: nat, ghost clean: bool)
      requires Tracks(node.blocks) && GoodNode(cfg, genesis, node)
      modifies this
      ensures t < t' && Tracks(node.blocks) && |chain| <= |old(chain)| && chain == old(chain)[..|chain|]
      ensures clean <==> |chain| == |old(chain)| || Deletes(node, drop, old(chain)[|chain|].hash)
      ensures ok <==> clean && node.answers(t' - 1)
      ensures ok ==> Answers(node.active(t' - 1), chain, hashes, skip, limit)
      ensures |chain| < |old(chain)| ==> Dropped(node, t, drop, old(chain)[|chain|].hash)
      ensures AllWellFormed(cfg.liquid, old(chain)) && leftover == LeftOf(cfg, old(leftover), old(chain), |chain|, clean)
      ensures old(InSync(node.blocks)) ==> (clean <==> InSync(node.blocks))
      ensures old(InSync(node.blocks)) && !clean ==> StoresRowsOf(cfg, store, old(chain)[..|chain| + 1])
    {
      hide WellFormed, Locs, KnownChain, AllWellFormed, StoreOf, HeadersOf, GoodNode, Dropped, Answers, InSync, Tracks, HeadersMatch, TipHash, GetHeaders, HeightOf;
      hide Deletes, Over, Deleted, Written, BatchAt, LeftOf, StoresRowsOf;
      t', drop, clean := t, t, true;
      AllOf(chain);
      TracksFacts(node.blocks);
      LeftAtAll(cfg, leftover, chain);
      while true
        invariant t <= t' && Tracks(node.blocks) && clean
        invariant |chain| <= |old(chain)| && chain == old(chain)[..|chain|]
        invariant |chain| < |old(chain)| ==> Dropped(node, t, drop, old(chain)[|chain|].hash) && Deletes(node, drop, old(chain)[|chain|].hash)
        invariant AllWellFormed(cfg.liquid, old(chain)) && leftover == LeftOf(cfg, old(leftover), old(chain), |chain|, true)
        invariant old(InSync(node.blocks)) ==> InSync(node.blocks)
        decreases |chain|
      {
        TracksFacts(node.blocks);
        var hash := Tip();
        skip := 1;
        if hash == ZERO {
          hash, skip := genesis, 0;
        }
        ok := node.answers(t');
        hashes := if ok then GetHeaders(node.active(t'), hash, limit) else [];
        AnswerFacts(cfg, genesis, node, t', chain, limit);
        t' := t' + 1;
        if !ok || |hashes| > 0 { return; }
        DroppedNow(node, t, t', hash);
        TakeTake(old(chain), |chain|, |chain| - 1);
        drop := t';
        StoredSame(node.blocks);
        ghost var left, n, was := leftover, |chain| - 1, store;
        assert chain == old(chain)[..n + 1];
        var stale;
        ok, stale := DropTip(node, t');
        clean := ok;
        LeftGoesOn(cfg, old(leftover), old(chain), n, left, ok);
        if !ok {
          assert |chain| == n && store == was;
          return false, [], 0, t', drop, clean;
        }
      }
    }

    lemma StoredSame(blocks: map<Hash, Block>)
      requires Tracks(blocks)
      ensures InSync(blocks) ==> StoresRowsOf(cfg, store, chain)
    {}

    /** One round: follow the node's active chain by up to `limit` blocks. The round is clean if the
        last block it dropped, if any, was fetched and its rows deleted; otherwise it fails and leaves
        them behind. A clean round fails only if the last header request does, an active block above
        those kept is not served, the batch is not written, or the numbers outgrow 32 bits. */
    method Sync(node: Node, t: nat, limit: nat) returns (ok: bool, t': nat, ghost kept: nat, ghost drop: nat, ghost clean: bool)
      requires Tracks(node.blocks) && GoodNode(cfg, genesis, node)
      modifies this
      ensures t < t' && Tracks(node.blocks) && kept <= |old(chain)|
      ensures clean <==> kept == |old(chain)| || Deletes(node, drop, old(chain)[kept].hash)
      ensures kept < |old(chain)| ==> Dropped(node, t, drop, old(chain)[kept].hash)
      ensures GoodRound(cfg, Round(old(chain), kept, clean)) && leftover == LeftOf(cfg, old(leftover), old(chain), kept, clean)
      ensures ok ==> clean && Extended(old(chain), chain, node.active(t' - 1), kept, limit)
      ensures !ok ==> chain == old(chain)[..kept]
      ensures clean && Reachable(node, t', kept) ==> ok
      ensures old(InSync(node.blocks)) ==> (InSync(node.blocks) <==> clean)
      ensures old(InSync(node.blocks)) && !clean ==> StoresRowsOf(cfg, store, old(chain)[..kept + 1])
    {
      hide WellFormed, Locs, KnownChain, AllWellFormed, StoreOf, HeadersOf, GoodNode, Dropped, Answers, WrittenAll, HeadersAfter, Indexed, Extended;
      hide BlocksNamed, HashesOf, LinkedAt, CanAdd, NamedBlocks, Deletes, LeftOf, Over, StoresRowsOf;
      var hashes, skip;
      ok, hashes, skip, t', drop, clean := FetchNewHeaders(node, t, limit);
      kept := |chain|;
      if !ok { return; }
      AnswersNamed(cfg, genesis, node, t' - 1, chain, hashes, skip, limit);
      var batches := Index(node, t', hashes[skip..]);
      forall i | Reachable(node, t', kept) && 0 <= i < |hashes[skip..]|
        ensures CanAdd(node, t', chain, hashes[skip..], i)
      {
        ActiveIsServed(node, t', chain, hashes, skip, limit, i);
        ActiveCanAdd(cfg, genesis, node, t', t' - 1, chain, hashes, skip, limit, i);
      }
      if batches.None? || !node.commits(t') { return false, t', kept, drop, clean; }
      ghost var blocks := NamedBlocks(node.blocks, hashes[skip..]);
      RoundFacts(cfg, genesis, node, t' - 1, old(chain), chain, hashes, skip, limit, blocks, batches.value);
      OverWrittenAll(cfg.liquid, leftover, StoreOf(cfg, chain), batches.value);
      store := WrittenAll(cfg.liquid, store, batches.value);
      headers := HeadersAfter(headers, batches.value);
      chain := chain + blocks;
    }

    /** Opening the index again loads the headers its store has rows for. */
    method Reopen(blocks: map<Hash, Block>, ghost stored: seq<Block>) returns (ok: bool)
      requires AllWellFormed(cfg.liquid, stored) && store == StoreOf(cfg, stored) && KnownChain(blocks, stored) && |Locs(stored)| < U32
      requires |stored| > 0 ==> stored[0].hash == genesis
      modifies this`headers, this`chain, this`leftover
      ensures ok && chain == stored && leftover == EMPTY_STORE && InSync(blocks) && Tracks(blocks)
    {
      hide AllWellFormed, KnownChain, StoreOf, HeadersOf, Locs;
      Secondary.StoredHeaders(cfg, stored);
      var loaded;
      ok, loaded := Secondary.LoadHeaders(cfg, store.headers, blocks, stored);
      headers := loaded;
      chain, leftover := stored, EMPTY_STORE;
      OverEmpty(store);
    }

    /** What the store has rows for after a failed round. */
    lemma StillStored(node: Node, before: seq<Block>, kept: nat)
      requires HeadersMatch(node.blocks) && kept <= |before| && chain == before[..kept]
      requires KnownChain(node.blocks, before) && AllWellFormed(cfg.liquid, before) && |Locs(before)| < U32
      requires |before| > 0 ==> before[0].hash == genesis
      requires InSync(node.blocks) || (kept < |before| && StoresRowsOf(cfg, store, before[..kept + 1]))
      ensures var stored := if InSync(node.blocks) then chain else before[..kept + 1];
              && store == StoreOf(cfg, stored) && KnownChain(node.blocks, stored) && AllWellFormed(cfg.liquid, stored) && |Locs(stored)| < U32
              && (|stored| > 0 ==> stored[0].hash == genesis)
    {
      if kept < |before| {
        KnownPrefix(node.blocks, before, kept + 1);
        hide StoreOf, HeadersOf, Locs, KnownChain;
        LocsPrefix(before, kept + 1);
      }
    }
  }

  ghost predicate StoresRowsOf(cfg: Config, store: Store, chain: seq<Block>) {
    AllWellFormed(cfg.liquid, chain) && store == StoreOf(cfg, chain)
  }

  /** A dropped block is fetched and its rows are deleted. */
  ghost predicate Deletes(node: Node, t: nat, hash: Hash) {
    node.serves(t, hash) && node.commits(t)
  }

  /** The header request just before `t` succeeds, the active blocks from height `kept` on are served
      at `t`, their numbers fit, and the store accepts them. */
  ghost predicate Reachable(node: Node, t: nat, kept: nat)
    requires t > 0
  {
    var active := node.active(t - 1);
    && node.answers(t - 1) && node.commits(t) && |Locs(active)| < U32
    && forall i :: kept <= i < |active| ==> node.serves(t, active[i].hash)
  }

  /** Nothing fails, and every chain fits 32 bits. */
  ghost predicate Reliable(node: Node) {
    && (forall u :: node.answers(u) && node.commits(u))
    && (forall u, h :: node.serves(u, h))
    && (forall u :: |Locs(node.active(u))| < U32)
  }

  lemma ReliableReaches(node: Node, t: nat, drop: nat, hash: Hash, kept: nat)
    requires Reliable(node) && t > 0
    ensures Deletes(node, drop, hash) && Reachable(node, t, kept)
  {
    hide Locs;
  }

  lemma ActiveIsServed(node: Node, t: nat, chain: seq<Block>, hashes: seq<Hash>, skip: nat, limit: nat, i: nat)
    requires t > 0 && Reachable(node, t, |chain|) && Answers(node.active(t - 1), chain, hashes, skip, limit)
    requires skip <= |hashes| && i < |hashes[skip..]|
    ensures node.serves(t, hashes[skip..][i]) && |Locs(node.active(t - 1))| < U32
  {
    hide Locs;
    assert hashes[skip..][i] == node.active(t - 1)[|chain| + i].hash;
  }

  lemma LeftAtAll(cfg: Config, left: Store, chain: seq<Block>)
    requires AllWellFormed(cfg.liquid, chain)
    ensures LeftOf(cfg, left, chain, |chain|, true) == left
  {}

  /** One more block is dropped. */
  lemma LeftGoesOn(cfg: Config, start: Store, chain: seq<Block>, n: nat, left: Store, clean: bool)
    requires AllWellFormed(cfg.liquid, chain) && n < |chain| && AllWellFormed(cfg.liquid, chain[..n + 1])
    requires left == LeftOf(cfg, start, chain, n + 1, true)
    ensures LeftOf(cfg, left, chain[..n + 1], n, clean) == LeftOf(cfg, start, chain, n, clean)
  {
    hide AllWellFormed, BatchAt, Deleted, Written;
    assert chain[..n + 1] <= chain[..n + 1];
    SameBatch(cfg, chain, chain[..n + 1], n);
    LeftAtTip(cfg, left, chain[..n + 1], clean);
  }

  lemma LeftAtTip(cfg: Config, left: Store, chain: seq<Block>, clean: bool)
    requires AllWellFormed(cfg.liquid, chain) && |chain| > 0
    ensures var b := BatchAt(cfg, chain, |chain| - 1);
            LeftOf(cfg, left, chain, |chain| - 1, clean) == if clean then Deleted(cfg.liquid, left, b) else Written(cfg.liquid, left, b)
  {
    hide AllWellFormed, BatchAt, Deleted, Written;
    assert LeftAfter(cfg, left, chain, |chain|) == left;
  }

  lemma BatchIs(cfg: Config, chain: seq<Block>, n: nat)
    requires AllWellFormed(cfg.liquid, chain) && n < |chain|
    ensures WellFormed(cfg.liquid, chain[n]) && BatchAt(cfg, chain, n) == BatchOf(cfg, n, |Locs(chain[..n])|, chain[n])
  {}

  /** Dropping the tip with and without deleting its rows, over what is left behind. */
  lemma DropStore(cfg: Config, left: Store, chain: seq<Block>)
    requires AllWellFormed(cfg.liquid, chain) && |chain| > 0
    ensures var n := |chain| - 1;
            && AllWellFormed(cfg.liquid, chain[..n])
            && Deleted(cfg.liquid, Over(left, StoreOf(cfg, chain)), BatchAt(cfg, chain, n))
               == Over(Deleted(cfg.liquid, left, BatchAt(cfg, chain, n)), StoreOf(cfg, chain[..n]))
            && Over(left, StoreOf(cfg, chain)) == Over(Written(cfg.liquid, left, BatchAt(cfg, chain, n)), StoreOf(cfg, chain[..n]))
  {
    hide WellFormed, AllWellFormed, StoreOf, Over, Deleted, Written, NewTo, BatchAt;
    var n := |chain| - 1;
    AllOf(chain);
    BatchIsNew(cfg, chain, n);
    OverDeleted(cfg.liquid, left, StoreOf(cfg, chain[..n]), BatchAt(cfg, chain, n));
    OverKept(cfg.liquid, left, StoreOf(cfg, chain[..n]), BatchAt(cfg, chain, n));
  }

  /** At `drop` a block was dropped that had not been active at the request before. */
  ghost predicate Dropped(node: Node, t: nat, drop: nat, hash: Hash) {
    t < drop && HeightOf(node.active(drop - 1), hash).None?
  }

  lemma DroppedNow(node: Node, t: nat, drop: nat, hash: Hash)
    requires t < drop && HeightOf(node.active(drop - 1), hash).None?
    ensures Dropped(node, t, drop, hash)
  {}

  /** The store of a chain still has the rows of its tip. */
  lemma TipInStore(cfg: Config, chain: seq<Block>)
    requires AllWellFormed(cfg.liquid, chain) && |chain| > 0
    ensures StoreOf(cfg, chain) != StoreOf(cfg, chain[..|chain|-1])
  {
    hide StoreOf, WellFormed;
    Split(chain);
    StoresDiffer(cfg, chain[..|chain|-1], chain[|chain|-1]);
  }

  /** Any number of rounds from an empty store, opening the index again after each that fails:
      whatever fails, the store is exactly the rows of the headers. */
  method Follow(cfg: Config, genesis: Hash, node: Node, limits: seq<nat>) returns (index: IndexedChain, ok: bool, t: nat)
    requires GoodNode(cfg, genesis, node)
    ensures index.InSync(node.blocks)
    ensures ok && |limits| > 0 ==> t > 0 && index.chain <= node.active(t - 1)
    ensures Reliable(node) ==> ok
  {
    hide GoodNode, WellFormed, Locs, KnownChain, AllWellFormed, StoreOf, HeadersOf, Dropped, Extended, Reliable, IndexedChain.InSync, IndexedChain.Tracks;
    index := new IndexedChain(cfg, genesis);
    t := 0;
    ok := true;
    index.KnowsMore(node.blocks);
    for i := 0 to |limits|
      invariant index.cfg == cfg && index.genesis == genesis && index.InSync(node.blocks) && index.Tracks(node.blocks)
      invariant ok && i > 0 ==> t > 0 && index.chain <= node.active(t - 1)
      invariant Reliable(node) ==> ok
      invariant fresh(index)
    {
      ok, t := OneRound(index, node, t, limits[i]);
    }
  }

  /** A round, and opening the index again if it fails. */
  method OneRound(index: IndexedChain, node: Node, t: nat, limit: nat) returns (ok: bool, t': nat)
    requires index.InSync(node.blocks) && index.Tracks(node.blocks) && GoodNode(index.cfg, index.genesis, node)
    modifies index
    ensures t < t' && index.InSync(node.blocks) && index.Tracks(node.blocks)
    ensures ok ==> index.chain <= node.active(t' - 1)
    ensures Reliable(node) ==> ok
  {
    hide GoodNode, WellFormed, Locs, KnownChain, AllWellFormed, StoreOf, HeadersOf, Dropped, Extended, Reliable, Reachable, Deletes, LeftOf, Over;
    ghost var before := index.chain;
    ghost var kept, drop, clean;
    ok, t', kept, drop, clean := index.Sync(node, t, limit);
    if Reliable(node) {
      ReliableReaches(node, t', drop, if kept < |before| then before[kept].hash else ZERO, kept);
    }
    if ok {
      ExtendedIsPrefix(before, index.chain, node.active(t' - 1), kept, limit);
    } else {
      index.StillStored(node, before, kept);
      var loaded := index.Reopen(node.blocks, if index.InSync(node.blocks) then index.chain else before[..kept + 1]);
    }
  }

  /** The node serves blocks that are no longer active, and the store accepts every batch. */
  ghost predicate ServesStale(node: Node) {
    && (forall u :: node.commits(u))
    && (forall u, h :: u > 0 && HeightOf(node.active(u - 1), h).None? ==> node.serves(u, h))
  }

  /** Any number of rounds on one index that is not opened again, from a store in step or not and
      whatever fails: the store is the rows of the headers laid over what unclean rounds left behind,
      and over a node that serves stale blocks there are none. */
  method Retry(index: IndexedChain, node: Node, t: nat, limits: seq<nat>) returns (ok: bool, t': nat, ghost rounds: seq<Round>)
    requires index.Tracks(node.blocks) && GoodNode(index.cfg, index.genesis, node)
    modifies index
    ensures index.Tracks(node.blocks)
    ensures |rounds| == |limits| && GoodRounds(index.cfg, rounds)
    ensures index.leftover == LeftBy(index.cfg, old(index.leftover), rounds)
    ensures ok && |limits| > 0 ==> t' > 0 && index.chain <= node.active(t' - 1)
    ensures ServesStale(node) ==> AllClean(rounds)
    ensures old(index.InSync(node.blocks)) && AllClean(rounds) ==> index.InSync(node.blocks)
  {
    hide GoodNode, Locs, Extended, LeftBy, LeftOf, GoodRound, GoodRounds, AllClean, Over, StoreOf, ServesStale, Deletes, Dropped, Reachable;
    hide IndexedChain.Tracks, IndexedChain.InSync;
    ok, t', rounds := true, t, [];
    NoRounds(index.cfg, index.leftover);
    for i := 0 to |limits|
      invariant index.Tracks(node.blocks)
      invariant |rounds| == i && GoodRounds(index.cfg, rounds) && index.leftover == LeftBy(index.cfg, old(index.leftover), rounds)
      invariant ok && i > 0 ==> t' > 0 && index.chain <= node.active(t' - 1)
      invariant ServesStale(node) ==> AllClean(rounds)
      invariant old(index.InSync(node.blocks)) && AllClean(rounds) ==> index.InSync(node.blocks)
    {
      ghost var before := index.chain;
      var from := t';
      ghost var kept, drop, clean;
      ok, t', kept, drop, clean := index.Sync(node, from, limits[i]);
      if ServesStale(node) && kept < |before| { StaleIsDeleted(node, from, drop, before[kept].hash); }
      if ok { ExtendedIsPrefix(before, index.chain, node.active(t' - 1), kept, limits[i]); }
      LeftBySnoc(index.cfg, old(index.leftover), rounds, Round(before, kept, clean));
      rounds := rounds + [Round(before, kept, clean)];
    }
  }

  lemma NoRounds(cfg: Config, left: Store)
    ensures GoodRounds(cfg, []) && LeftBy(cfg, left, []) == left && AllClean([])
  {}

  lemma StaleIsDeleted(node: Node, t: nat, drop: nat, hash: Hash)
    requires ServesStale(node) && Dropped(node, t, drop, hash)
    ensures Deletes(node, drop, hash)
  {}

  lemma ExtendedIsPrefix(before: seq<Block>, after: seq<Block>, active: seq<Block>, kept: nat, limit: nat)
    requires Extended(before, after, active, kept, limit)
    ensures after <= active
  {}

  /** The blocks that hashes name. */
  ghost function NamedBlocks(known: map<Hash, Block>, hashes: seq<Hash>): (r: seq<Block>)
    requires forall i :: 0 <= i < |hashes| ==> hashes[i] in known
    ensures BlocksNamed(known, hashes, r)
  {
    seq(|hashes|, i requires 0 <= i < |hashes| => known[hashes[i]])
  }

  /** Block `i` is served, links to the one before, and its transactions' numbers fit. */
  ghost predicate CanAdd(node: Node, t: nat, chain: seq<Block>, hashes: seq<Hash>, i: nat)
    requires i < |hashes| && forall k :: 0 <= k < |hashes| ==> hashes[k] in node.blocks
  {
    var blocks := NamedBlocks(node.blocks, hashes);
    && node.serves(t, hashes[i])
    && blocks[i].prev == TipHash(chain + blocks[..i])
    && |Locs(chain + blocks[..i])| + |blocks[i].txs| < U32
  }

  lemma NamedAre(known: map<Hash, Block>, hashes: seq<Hash>, blocks: seq<Block>)
    requires forall i :: 0 <= i < |hashes| ==> hashes[i] in known
    requires |blocks| <= |hashes| && BlocksNamed(known, hashes[..|blocks|], blocks)
    ensures NamedBlocks(known, hashes)[..|blocks|] == blocks
    ensures |blocks| == |hashes| ==> NamedBlocks(known, hashes) == blocks
  {
    forall i | 0 <= i < |blocks| ensures NamedBlocks(known, hashes)[i] == blocks[i] {
      assert hashes[..|blocks|][i] == hashes[i];
    }
  }

  lemma AddsIf(cfg: Config, node: Node, t: nat, chain: seq<Block>, hashes: seq<Hash>, blocks: seq<Block>, batches: seq<Batch>,
               height: nat, next: nat, tip: Hash)
    requires forall i :: 0 <= i < |hashes| ==> hashes[i] in node.blocks
    requires |blocks| < |hashes| && BlocksNamed(node.blocks, hashes[..|blocks|], blocks)
    requires Numbering(cfg, node.blocks, chain, blocks, batches, height, next, tip)
    ensures var block := node.blocks[hashes[|blocks|]];
            CanAdd(node, t, chain, hashes, |blocks|) <==>
            node.serves(t, hashes[|blocks|]) && block.prev == tip && next + |block.txs| < U32
  {
    hide Locs, KnownChain, BatchesFor;
    NamedAre(node.blocks, hashes, blocks);
  }

  /** Blocks of the node's active chain link, and fit if that chain fits. */
  lemma ActiveCanAdd(cfg: Config, genesis: Hash, node: Node, t: nat, u: nat, chain: seq<Block>, hashes: seq<Hash>, skip: nat, limit: nat, i: nat)
    requires GoodNode(cfg, genesis, node) && Answers(node.active(u), chain, hashes, skip, limit)
    requires skip <= |hashes| && forall k :: 0 <= k < |hashes[skip..]| ==> hashes[skip..][k] in node.blocks
    requires i < |hashes[skip..]| && node.serves(t, hashes[skip..][i]) && |Locs(node.active(u))| < U32
    ensures CanAdd(node, t, chain, hashes[skip..], i)
  {
    hide WellFormed, Locs, HashesOf, GoodNode, BlocksNamed;
    assert GoodActive(node, genesis, node.active(u)) by { GoodAt(cfg, genesis, node, u); }
    var active, named, h := node.active(u), hashes[skip..], |chain|;
    var blocks := NamedBlocks(node.blocks, named);
    AnswersHashes(active, chain, hashes, skip, limit);
    NamedAreActive(node.blocks, active, h, named, blocks);
    ActiveParts(active, chain, blocks, h, |named|, i);
    AddsFromActive(active, h + i);
  }

  lemma GoodAt(cfg: Config, genesis: Hash, node: Node, u: nat)
    requires GoodNode(cfg, genesis, node)
    ensures GoodActive(node, genesis, node.active(u))
  {}

  lemma AnswersHashes(active: seq<Block>, chain: seq<Block>, hashes: seq<Hash>, skip: nat, limit: nat)
    requires Answers(active, chain, hashes, skip, limit)
    ensures skip <= |hashes| && HashesOf(active, |chain|, hashes[skip..]) && |chain| <= |active| && chain == active[..|chain|]
  {}

  lemma ActiveParts(active: seq<Block>, chain: seq<Block>, blocks: seq<Block>, h: nat, n: nat, i: nat)
    requires h + n <= |active| && chain == active[..h] && |blocks| == n && active[..h] + blocks == active[..h + n] && i < n
    ensures chain + blocks[..i] == active[..h + i] && blocks[i] == active[h + i]
  {
    assert active[..h + n][h + i] == (active[..h] + blocks)[h + i];
    forall k | 0 <= k < h + i ensures (chain + blocks[..i])[k] == active[k] {
      assert active[..h + n][k] == (active[..h] + blocks)[k];
    }
  }

  lemma AddsFromActive(active: seq<Block>, h: nat)
    requires Linked(active) && h < |active| && |Locs(active)| < U32
    ensures active[h].prev == TipHash(active[..h]) && |Locs(active[..h])| + |active[h].txs| < U32
  {
    assert LinkedAt(active, h);
    BaseNext(active, h);
    BaseMonotone(active, h + 1, |active|);
    AllOf(active);
  }

  /** The blocks named by `hashes` follow the chain, and these are their batches. */
  ghost predicate Indexed(cfg: Config, known: map<Hash, Block>, chain: seq<Block>, hashes: seq<Hash>, blocks: seq<Block>, batches: seq<Batch>) {
    && BlocksNamed(known, hashes, blocks) && BatchesFor(cfg, chain, blocks, batches)
    && KnownChain(known, chain + blocks) && |Locs(chain + blocks)| < U32
  }

  /** Running height, number and tip while blocks are numbered on. */
  ghost predicate Numbering(cfg: Config, known: map<Hash, Block>, chain: seq<Block>, blocks: seq<Block>, batches: seq<Batch>,
                            height: nat, next: nat, tip: Hash) {
    && BatchesFor(cfg, chain, blocks, batches) && KnownChain(known, chain + blocks)
    && height == |chain| + |blocks| && next == |Locs(chain + blocks)| < U32 && tip == TipHash(chain + blocks)
  }

  lemma NumberingStarts(cfg: Config, known: map<Hash, Block>, chain: seq<Block>, headers: seq<Header>)
    requires headers == HeadersOf(chain) && KnownChain(known, chain) && |Locs(chain)| < U32
    ensures Numbering(cfg, known, chain, [], [], |headers|, NextTxnum(headers),
                      if |headers| == 0 then ZERO else headers[|headers|-1].hash)
  {
    hide Locs, KnownChain, WellFormed;
    NumberedOn(chain);
    AppendNil(chain);
  }

  lemma NumberingStep(cfg: Config, known: map<Hash, Block>, chain: seq<Block>, blocks: seq<Block>, batches: seq<Batch>,
                      height: nat, next: nat, tip: Hash, block: Block, b: Batch)
    requires Numbering(cfg, known, chain, blocks, batches, height, next, tip)
    requires WellFormed(cfg.liquid, block) && block.prev == tip && next + |block.txs| < U32
    requires block.hash in known && known[block.hash] == block && block.hash != ZERO
    requires b == BatchOf(cfg, height, next, block)
    ensures Numbering(cfg, known, chain, blocks + [block], batches + [b], height + 1, next + |block.txs|, block.hash)
  {
    hide WellFormed, BatchOf, Locs, KnownChain, BatchesFor;
    OneMoreBatch(cfg, known, chain, blocks, batches, block);
  }

  lemma NumberingEnds(cfg: Config, known: map<Hash, Block>, chain: seq<Block>, hashes: seq<Hash>, blocks: seq<Block>, batches: seq<Batch>,
                      height: nat, next: nat, tip: Hash)
    requires Numbering(cfg, known, chain, blocks, batches, height, next, tip) && BlocksNamed(known, hashes, blocks)
    ensures Indexed(cfg, known, chain, hashes, blocks, batches)
  {}

  /** A header request's answer: the chain is a prefix of the active one, and `hashes` past
      `skip` are the active hashes after it. */
  ghost predicate Answers(active: seq<Block>, chain: seq<Block>, hashes: seq<Hash>, skip: nat, limit: nat) {
    && |chain| <= |active| && chain == active[..|chain|]
    && skip <= |hashes| && HashesOf(active, |chain|, hashes[skip..])
    && |hashes| - skip == Min(if |chain| == 0 then limit + 1 else limit, |active| - |chain|)
  }

  lemma KnownIsLinked(blocks: map<Hash, Block>, chain: seq<Block>)
    requires KnownChain(blocks, chain)
    ensures Linked(chain)
  {}

  lemma StaleIsKnown(cfg: Config, genesis: Hash, node: Node, stale: Hash)
    requires GoodNode(cfg, genesis, node) && stale in node.blocks
    ensures WellFormed(cfg.liquid, node.blocks[stale])
  {}

  /** The new chain keeps `kept` blocks of the old one and follows the node from there. */
  ghost predicate Extended(before: seq<Block>, after: seq<Block>, active: seq<Block>, kept: nat, limit: nat) {
    && kept <= |before| && kept <= |active| && before[..kept] == active[..kept]
    && |after| == kept + Min(if kept == 0 then limit + 1 else limit, |active| - kept)
    && after == active[..|after|]
  }

  function NextTxnum(headers: seq<Header>): nat {
    if |headers| == 0 then 0 else headers[|headers|-1].nextTxnum
  }

  ghost predicate BlocksNamed(blocks: map<Hash, Block>, hashes: seq<Hash>, named: seq<Block>) {
    && |named| == |hashes|
    && forall i :: 0 <= i < |hashes| ==> hashes[i] in blocks && named[i] == blocks[hashes[i]]
  }

  /** `hashes` are the active hashes from height `h`. */
  ghost predicate HashesOf(active: seq<Block>, h: nat, hashes: seq<Hash>) {
    h + |hashes| <= |active| && forall i :: 0 <= i < |hashes| ==> hashes[i] == active[h + i].hash
  }

  lemma NumberedOn(chain: seq<Block>)
    ensures NextTxnum(HeadersOf(chain)) == |Locs(chain)|
    ensures (if |HeadersOf(chain)| == 0 then ZERO else HeadersOf(chain)[|chain|-1].hash) == TipHash(chain)
  {
    AllOf(chain);
  }

  lemma TipIsTip(chain: seq<Block>)
    requires Linked(chain)
    ensures TipHash(chain) == ZERO <==> |chain| == 0
    ensures (if |HeadersOf(chain)| == 0 then ZERO else HeadersOf(chain)[|chain|-1].hash) == TipHash(chain)
  {
    TipIsSome(chain);
  }

  lemma OneMoreBatch(cfg: Config, known: map<Hash, Block>, chain: seq<Block>, blocks: seq<Block>, batches: seq<Batch>, block: Block)
    requires BatchesFor(cfg, chain, blocks, batches) && WellFormed(cfg.liquid, block)
    requires KnownChain(known, chain + blocks) && block.prev == TipHash(chain + blocks) && block.hash != ZERO
    requires block.hash in known && known[block.hash] == block
    ensures BatchesFor(cfg, chain, blocks + [block], batches + [BatchOf(cfg, |chain| + |blocks|, |Locs(chain + blocks)|, block)])
    ensures KnownChain(known, chain + (blocks + [block])) && TipHash(chain + (blocks + [block])) == block.hash
    ensures |Locs(chain + (blocks + [block]))| == |Locs(chain + blocks)| + |block.txs|
  {
    hide WellFormed, BatchOf, Linked;
    AppendAssoc(chain, blocks, [block]);
    LocsSnoc(chain + blocks, block);
    KnownSnoc(known, chain + blocks, block);
    hide Locs, KnownChain;
    Snoc(blocks, block);
  }

  lemma DropFacts(cfg: Config, genesis: Hash, blocks: map<Hash, Block>, chain: seq<Block>)
    requires KnownChain(blocks, chain) && AllWellFormed(cfg.liquid, chain) && |chain| > 0 && chain[0].hash == genesis
    ensures var n := |chain| - 1;
            && KnownChain(blocks, chain[..n]) && AllWellFormed(cfg.liquid, chain[..n]) && WellFormed(cfg.liquid, chain[n])
            && HeadersOf(chain[..n]) == HeadersOf(chain)[..n]
            && chain[n].hash in blocks && blocks[chain[n].hash] == chain[n]
            && (n > 0 ==> chain[..n][0].hash == genesis)
            && HeadersOf(chain)[n].hash == chain[n].hash
            && |Locs(chain)| == |Locs(chain[..n])| + |chain[n].txs|
            && Deleted(cfg.liquid, StoreOf(cfg, chain), BatchOf(cfg, n, |Locs(chain[..n])|, chain[n])) == StoreOf(cfg, chain[..n])
  {
    var n := |chain| - 1;
    KnownPrefix(blocks, chain, n);
    hide WellFormed, StoreOf, Deleted, HeadersOf, Linked, BatchOf, Locs;
    Split(chain);
    HeadersPrefix(chain, n);
    LocsSnoc(chain[..n], chain[n]);
    DeleteUndoesWrite(cfg, chain[..n], chain[n]);
  }

  /** A node that answers knows the tip, and then the whole past of the tip is active. */
  lemma AnswerFacts(cfg: Config, genesis: Hash, node: Node, t: nat, chain: seq<Block>, limit: nat)
    requires GoodNode(cfg, genesis, node) && KnownChain(node.blocks, chain) && (|chain| > 0 ==> chain[0].hash == genesis)
    ensures var asked, skip := if |chain| == 0 then genesis else TipHash(chain), if |chain| == 0 then 0 else 1;
            var hashes := GetHeaders(node.active(t), asked, limit);
            && (|hashes| == 0 ==> |chain| > 0 && HeightOf(node.active(t), asked).None?)
            && (|hashes| > 0 ==> Answers(node.active(t), chain, hashes, skip, limit))
  {
    var active := node.active(t);
    assert GoodActive(node, genesis, active);
    var asked := if |chain| == 0 then genesis else TipHash(chain);
    hide WellFormed, Linked, Answers, KnownChain, GoodNode;
    if HeightOf(active, asked).Some? {
      PastIsActive(node.blocks, chain, active, genesis);
      AnswerShape(active, chain, asked, limit);
    } else {
      assert active[0].hash == genesis;
    }
  }

  lemma PastIsActive(blocks: map<Hash, Block>, chain: seq<Block>, active: seq<Block>, genesis: Hash)
    requires KnownChain(blocks, chain) && KnownChain(blocks, active) && |active| > 0 && active[0].hash == genesis
    requires HeightOf(active, if |chain| == 0 then genesis else TipHash(chain)).Some?
    ensures var h := HeightOf(active, if |chain| == 0 then genesis else TipHash(chain)).value;
            h == (if |chain| == 0 then 0 else |chain| - 1)
    ensures |chain| <= |active| && chain == active[..|chain|]
  {
    hide KnownChain;
    var h := HeightOf(active, if |chain| == 0 then genesis else TipHash(chain)).value;
    if |chain| > 0 {
      SameBlockSamePast(blocks, chain, active, |chain| - 1, h);
      AllOf(chain);
    } else {
      SameBlockSamePast(blocks, active, active, h, 0);
      BothEmpty(chain, active[..0]);
    }
  }

  lemma AnswerShape(active: seq<Block>, chain: seq<Block>, asked: Hash, limit: nat)
    requires |chain| <= |active| && chain == active[..|chain|]
    requires HeightOf(active, asked) == Some(if |chain| == 0 then 0 else |chain| - 1)
    ensures Answers(active, chain, GetHeaders(active, asked, limit), if |chain| == 0 then 0 else 1, limit)
  {
    hide HeightOf;
  }

  lemma AnswersNamed(cfg: Config, genesis: Hash, node: Node, t: nat, chain: seq<Block>, hashes: seq<Hash>, skip: nat, limit: nat)
    requires GoodNode(cfg, genesis, node) && Answers(node.active(t), chain, hashes, skip, limit)
    ensures skip <= |hashes| && forall i :: 0 <= i < |hashes[skip..]| ==> hashes[skip..][i] in node.blocks
  {
    assert GoodActive(node, genesis, node.active(t));
    hide WellFormed, Linked;
    var named, h := hashes[skip..], |chain|;
    forall i | 0 <= i < |named| ensures named[i] in node.blocks {
      assert named[i] == node.active(t)[h + i].hash;
    }
  }

  /** After a successful round the chain is a prefix of the node's, its rows are the store's. */
  lemma RoundFacts(cfg: Config, genesis: Hash, node: Node, t: nat, before: seq<Block>, chain: seq<Block>,
                   hashes: seq<Hash>, skip: nat, limit: nat, blocks: seq<Block>, batches: seq<Batch>)
    requires GoodNode(cfg, genesis, node) && Answers(node.active(t), chain, hashes, skip, limit)
    requires |chain| <= |before| && chain == before[..|chain|] && AllWellFormed(cfg.liquid, chain)
    requires Indexed(cfg, node.blocks, chain, hashes[skip..], blocks, batches)
    ensures Extended(before, chain + blocks, node.active(t), |chain|, limit)
    ensures AllWellFormed(cfg.liquid, chain + blocks) && KnownChain(node.blocks, chain + blocks) && |Locs(chain + blocks)| < U32
    ensures WrittenAll(cfg.liquid, StoreOf(cfg, chain), batches) == StoreOf(cfg, chain + blocks)
    ensures HeadersAfter(HeadersOf(chain), batches) == HeadersOf(chain + blocks)
    ensures |chain + blocks| > 0 ==> (chain + blocks)[0].hash == genesis
  {
    hide WellFormed, Linked, Locs, StoreOf, HeadersOf, WrittenAll, HeadersAfter, BatchesFor, KnownChain, AllWellFormed, HashesOf, BlocksNamed, Extended;
    WriteExtends(cfg, chain, blocks, batches);
    RoundExtends(cfg, genesis, node, t, before, chain, hashes, skip, limit, blocks);
  }

  lemma RoundExtends(cfg: Config, genesis: Hash, node: Node, t: nat, before: seq<Block>, chain: seq<Block>,
                     hashes: seq<Hash>, skip: nat, limit: nat, blocks: seq<Block>)
    requires GoodNode(cfg, genesis, node) && Answers(node.active(t), chain, hashes, skip, limit)
    requires |chain| <= |before| && chain == before[..|chain|]
    requires skip <= |hashes| && BlocksNamed(node.blocks, hashes[skip..], blocks)
    ensures Extended(before, chain + blocks, node.active(t), |chain|, limit)
    ensures |chain + blocks| > 0 ==> (chain + blocks)[0].hash == genesis
  {
    assert GoodActive(node, genesis, node.active(t));
    hide WellFormed, KnownChain, HashesOf, GoodNode, BlocksNamed, Extended;
    NamedAreActive(node.blocks, node.active(t), |chain|, hashes[skip..], blocks);
    ExtendedBy(before, chain, blocks, node.active(t), limit, |hashes| - skip);
  }

  lemma ExtendedBy(before: seq<Block>, chain: seq<Block>, blocks: seq<Block>, active: seq<Block>, limit: nat, n: nat)
    requires |chain| <= |before| && chain == before[..|chain|] && |chain| <= |active| && chain == active[..|chain|]
    requires |blocks| == n == Min(if |chain| == 0 then limit + 1 else limit, |active| - |chain|)
    requires active[..|chain|] + blocks == active[..|chain| + n]
    ensures Extended(before, chain + blocks, active, |chain|, limit)
    ensures |active| > 0 && |chain + blocks| > 0 ==> (chain + blocks)[0] == active[0]
  {}

  lemma NamedAreActive(known: map<Hash, Block>, active: seq<Block>, h: nat, hashes: seq<Hash>, blocks: seq<Block>)
    requires KnownChain(known, active) && HashesOf(active, h, hashes) && BlocksNamed(known, hashes, blocks)
    ensures |blocks| == |hashes| && h + |hashes| <= |active| && active[..h] + blocks == active[..h + |hashes|]
  {
    hide Linked;
    forall i | 0 <= i < |hashes| ensures blocks[i] == active[h + i] {
      assert hashes[i] == active[h + i].hash;
    }
  }
}
