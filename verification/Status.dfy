/** What a script's history says of unconfirmed transactions, by the protocol's own rule, and
    when the history the server sends is that one. */
module Statuses {
  import opened Collections
  import opened Ledger
  import opened ScriptFold
  import opened Replay
  import opened Mempool
  import opened MempoolView
  import opened Wallet
  import opened Mining

  /** Every input is an output that the chain created and has not spent. */
  ghost predicate AllConfirmed(coins: map<OutPoint, Coin>, tx: Tx) {
    forall i :: 0 <= i < |tx.inputs| ==> tx.inputs[i] in coins
  }

  /** The protocol's height of a waiting transaction: 0 if all its inputs are confirmed, else -1. */
  ghost function LedgerHeight(coins: map<OutPoint, Coin>, tx: Tx): int {
    if AllConfirmed(coins, tx) then 0 else -1
  }

  /** No input comes from an indexed transaction that the script's rows do not have. */
  ghost predicate ParentsSettled(m: Maps, mined: set<Txid>, tx: Tx) {
    forall o :: o in tx.inputs ==> o.txid !in m.txs || o.txid in mined
  }

  /** The mempool index holds transactions of the chain and those in `rest`, which may follow it. */
  ghost predicate Stands(m: Maps, pool: seq<Tx>, rest: seq<Tx>, chain: seq<Loc>) {
    Valid(chain) && Valid(chain + Pool(rest)) && Holds(m, pool) && Catching(chain, pool, rest)
  }

  // ----------------------------------------------------------------------------- where inputs come from

  /** The transaction that created an input of a waiting one: in the chain, its coin being unspent
      there, or an earlier waiting one. */
  lemma InputFrom(chain: seq<Loc>, rest: seq<Tx>, j: nat, o: OutPoint) returns (n: nat)
    requires Valid(chain) && Valid(chain + Pool(rest)) && j < |rest| && o in rest[j].inputs
    ensures n < |chain| + j && Creates((chain + Pool(rest))[n].tx, o)
    ensures var all := chain + Pool(rest);
            o in Coins(all[..|chain| + j]) && Coins(all[..|chain| + j])[o] == CoinOf(all[n], o)
    ensures n < |chain| ==> (chain + Pool(rest))[n] == chain[n] && o in Coins(chain) && Coins(chain)[o] == CoinOf(chain[n], o)
    ensures n >= |chain| ==> (chain + Pool(rest))[n].tx == rest[n - |chain|] && o !in Coins(chain)
  {
    hide Valid, Coins;
    var all := chain + Pool(rest);
    assert all[|chain| + j].tx == rest[j];
    n := CreatedBeforeSpent(all, |chain| + j, o);
    if n < |chain| {
      assert all[n] == chain[n];
      UnspentInChain(chain, rest, j, o);
      CoinAt(chain, n, o);
    } else {
      assert all[n].tx == rest[n - |chain|];
      OnlyCreator(chain, rest, n - |chain|, o);
      CoinsClosedForm(chain, o);
    }
  }

  lemma UnspentInChain(chain: seq<Loc>, rest: seq<Tx>, j: nat, o: OutPoint)
    requires Valid(chain + Pool(rest)) && j < |rest| && o in rest[j].inputs
    ensures !Spent(chain, o)
  {
    hide Valid;
    var all := chain + Pool(rest);
    assert all[|chain| + j].tx == rest[j];
    forall i | 0 <= i < |chain| ensures o !in chain[i].tx.inputs {
      assert all[i] == chain[i];
      if o in all[i].tx.inputs { UniqueSpender(all, i, |chain| + j, o); }
    }
  }

  lemma WaitingIsIndexed(m: Maps, script: Script, chain: seq<Loc>, pool: seq<Tx>, rest: seq<Tx>, j: nat)
    requires Stands(m, pool, rest, chain) && j < |rest|
    ensures rest[j].txid in m.txs && Describes(m.txs[rest[j].txid], rest[j])
    ensures rest[j].txid !in MinedTxids(LedgerRows(script, chain))
  {
    hide Valid, LedgerRows, Inverse, Describes;
    MinedAreInChain(script, chain, rest, j);
    var i :| 0 <= i < |pool| && pool[i] == rest[j];
  }

  // ------------------------------------------------------------------------------------------ heights

  /** Whatever rows are skipped, none of them waiting: the height of a waiting transaction is the
      protocol's unless its inputs are all confirmed and one comes from a transaction that is
      still indexed and not skipped. */
  lemma HeightBy(m: Maps, seen: set<Txid>, chain: seq<Loc>, pool: seq<Tx>, rest: seq<Tx>, j: nat)
    requires Stands(m, pool, rest, chain) && j < |rest| && forall k :: 0 <= k < |rest| ==> rest[k].txid !in seen
    ensures rest[j].txid in m.txs
    ensures EntryOf(m, seen, rest[j].txid).height == LedgerHeight(Coins(chain), rest[j]) <==>
            (AllConfirmed(Coins(chain), rest[j]) ==> ParentsSettled(m, seen, rest[j]))
  {
    WaitingIsIndexed(m, [], chain, pool, rest, j);
    if !AllConfirmed(Coins(chain), rest[j]) {
      UnconfirmedHasParent(m, seen, chain, pool, rest, j);
    }
    hide Stands, Coins;
    assert m.txs[rest[j].txid].spends == SetOf(rest[j].inputs);
    assert UnconfirmedParent(m, seen, rest[j].txid) <==> !ParentsSettled(m, seen, rest[j]);
  }

  lemma UnconfirmedHasParent(m: Maps, seen: set<Txid>, chain: seq<Loc>, pool: seq<Tx>, rest: seq<Tx>, j: nat)
    requires Stands(m, pool, rest, chain) && j < |rest| && forall k :: 0 <= k < |rest| ==> rest[k].txid !in seen
    requires !AllConfirmed(Coins(chain), rest[j])
    ensures !ParentsSettled(m, seen, rest[j])
  {
    var i :| 0 <= i < |rest[j].inputs| && rest[j].inputs[i] !in Coins(chain);
    var o := rest[j].inputs[i];
    hide Valid, Holds, Catching, Coins;
    var n := InputFrom(chain, rest, j, o);
    WaitingIsIndexed(m, [], chain, pool, rest, n - |chain|);
  }

  /** So the height the server gives a waiting transaction is the protocol's, except that one whose
      inputs are all confirmed still counts as unconfirmed while an input's transaction is still
      indexed and not among the script's own rows. */
  lemma HeightExactly(m: Maps, script: Script, chain: seq<Loc>, pool: seq<Tx>, rest: seq<Tx>, j: nat)
    requires Stands(m, pool, rest, chain) && j < |rest|
    ensures rest[j].txid in m.txs
    ensures var mined := MinedTxids(LedgerRows(script, chain));
            EntryOf(m, mined, rest[j].txid).height == LedgerHeight(Coins(chain), rest[j]) <==>
            (AllConfirmed(Coins(chain), rest[j]) ==> ParentsSettled(m, mined, rest[j]))
  {
    hide Stands, Coins, LedgerRows, MinedTxids, ParentsSettled, EntryOf, AllConfirmed;
    forall k | 0 <= k < |rest| ensures rest[k].txid !in MinedTxids(LedgerRows(script, chain)) {
      WaitingIsIndexed(m, script, chain, pool, rest, k);
    }
    HeightBy(m, MinedTxids(LedgerRows(script, chain)), chain, pool, rest, j);
  }

  /** After a poll that follows the refresh no transaction of the chain is indexed, so parents are
      settled whatever is skipped. */
  lemma PolledParents(m: Maps, seen: set<Txid>, chain: seq<Loc>, rest: seq<Tx>, j: nat)
    requires Stands(m, rest, rest, chain) && j < |rest|
    ensures AllConfirmed(Coins(chain), rest[j]) ==> ParentsSettled(m, seen, rest[j])
  {
    hide Coins, Valid;
    forall o | AllConfirmed(Coins(chain), rest[j]) && o in rest[j].inputs ensures o.txid !in m.txs {
      var i :| 0 <= i < |rest[j].inputs| && rest[j].inputs[i] == o;
      CoinsClosedForm(chain, o);
      var n :| 0 <= n < |chain| && Creates(chain[n].tx, o);
      forall k | 0 <= k < |rest| ensures rest[k].txid != o.txid { RestIsFresh(chain, rest, k, n); }
    }
  }

  /** While a poll is ahead of the refresh, the heights sent are already those of the chain with the
      block. */
  lemma AheadHeight(script: Script, chain: seq<Loc>, block: seq<Loc>, coinbase: Tx, pool: seq<Tx>, mined: seq<nat>, left: seq<nat>,
                    polled: Maps, j: nat)
    requires Valid(chain + Pool(pool)) && Splits(|pool|, mined, left) && AncestorClosed(pool, mined)
    requires IsBlock(block, coinbase, pool, mined) && NewCoinbase(coinbase, chain, pool)
    requires Holds(polled, Chosen(pool, left)) && j < |left|
    ensures pool[left[j]].txid in polled.txs
    ensures EntryOf(polled, MinedTxids(LedgerRows(script, chain)), pool[left[j]].txid).height == LedgerHeight(Coins(chain + block), pool[left[j]])
  {
    var rest, seen := Chosen(pool, left), MinedTxids(LedgerRows(script, chain));
    ChainIsValid(chain, Pool(pool));
    BlockIsRearrangement(script, chain, block, coinbase, pool, mined, left);
    BlockCatching(chain, block, coinbase, pool, mined, left);
    hide Valid, Coins, LedgerRows, MinedTxids, Holds, Catching, Money, IsBlock, NewCoinbase, AncestorClosed, AllConfirmed, ParentsSettled, NewFunded;
    forall k | 0 <= k < |rest| ensures rest[k].txid !in seen { MinedAreInChain(script, chain, pool, left[k]); }
    PolledParents(polled, seen, chain + block, rest, j);
    HeightBy(polled, seen, chain + block, rest, rest, j);
  }

  // ---------------------------------------------------------------------- who is in the history

  /** An indexed transaction that pays the script, whose output is spent, is the creator of that
      output wherever it stands. */
  lemma PayerIs(m: Maps, script: Script, chain: seq<Loc>, pool: seq<Tx>, rest: seq<Tx>, n: nat, o: OutPoint)
    requires Stands(m, pool, rest, chain) && n < |chain + Pool(rest)| && Creates((chain + Pool(rest))[n].tx, o)
    ensures PaysOut(m, script, o) ==> CoinOf((chain + Pool(rest))[n], o).script == script
  {
    var all := chain + Pool(rest);
    hide Valid, Inverse, Stands;
    if PaysOut(m, script, o) {
      var k := IndexedAt(m, chain, pool, rest, o.txid);
      assert Valid(all) by { StandsValid(m, pool, rest, chain); }
      if k < n { UniqueTxids(all, k, n); }
      if n < k { UniqueTxids(all, n, k); }
    }
  }

  lemma StandsValid(m: Maps, pool: seq<Tx>, rest: seq<Tx>, chain: seq<Loc>)
    requires Stands(m, pool, rest, chain)
    ensures Valid(chain) && Valid(chain + Pool(rest))
  {}

  /** Where an indexed transaction stands: in the chain or among those waiting. */
  lemma IndexedAt(m: Maps, chain: seq<Loc>, pool: seq<Tx>, rest: seq<Tx>, t: Txid) returns (k: nat)
    requires Stands(m, pool, rest, chain) && t in m.txs
    ensures k < |chain + Pool(rest)| && (chain + Pool(rest))[k].tx.txid == t && Describes(m.txs[t], (chain + Pool(rest))[k].tx)
  {
    hide Valid, Inverse, Describes;
    var all := chain + Pool(rest);
    var i :| 0 <= i < |pool| && pool[i].txid == t;
    if InChain(chain, pool[i]) {
      k :| 0 <= k < |chain| && chain[k].tx == pool[i];
      assert all[k] == chain[k];
    } else {
      var j :| 0 <= j < |rest| && rest[j] == pool[i];
      k := |chain| + j;
      assert all[k].tx == rest[j];
    }
  }

  lemma MoneyAt(coins: map<OutPoint, Coin>, script: Script, o: OutPoint)
    ensures o in Money(coins, script) <==> o in coins && coins[o].script == script
  {}

  /** A transaction the chain has, and the mempool still lists under the script, is in its rows. */
  lemma MinedIsInRows(m: Maps, script: Script, chain: seq<Loc>, pool: seq<Tx>, rest: seq<Tx>, n: nat)
    requires Stands(m, pool, rest, chain) && n < |chain| && chain[n].tx.txid in m.txs && Describes(m.txs[chain[n].tx.txid], chain[n].tx)
    requires InHistory(m, script, Money(Coins(chain), script).Keys, chain[n].tx.txid)
    ensures chain[n].tx.txid in MinedTxids(LedgerRows(script, chain))
  {
    var tx := chain[n].tx;
    StandsValid(m, pool, rest, chain);
    hide LedgerRows, MinedTxids, Coins, Valid, Stands, Money, PaysOut;
    RowTxidsDistinct(script, chain);
    if script in m.txs[tx.txid].touches {
      assert Pays(tx, script);
    } else {
      var o :| o in m.txs[tx.txid].spends && (o in Money(Coins(chain), script).Keys || PaysOut(m, script, o));
      SpentIsMine(m, script, chain, pool, rest, n, o);
    }
    assert Touches(chain, n, script);
  }

  lemma SpentIsMine(m: Maps, script: Script, chain: seq<Loc>, pool: seq<Tx>, rest: seq<Tx>, n: nat, o: OutPoint)
    requires Stands(m, pool, rest, chain) && Valid(chain) && n < |chain| && o in chain[n].tx.inputs
    requires o in Money(Coins(chain), script) || PaysOut(m, script, o)
    ensures SpendsFrom(Coins(chain[..n]), chain[n].tx, script)
  {
    hide Coins, Valid, Stands, Money, PaysOut;
    var tx := chain[n].tx;
    var k := CreatedBeforeSpent(chain, n, o);
    CoinsClosedForm(chain, o);
    MoneyAt(Coins(chain), script, o);
    assert (chain + Pool(rest))[k] == chain[k];
    PayerIs(m, script, chain, pool, rest, k, o);
    var i :| 0 <= i < |tx.inputs| && tx.inputs[i] == o;
    assert tx.inputs[i] in Coins(chain[..n]) && Coins(chain[..n])[tx.inputs[i]].script == script;
  }

  /** A waiting transaction is in the script's unconfirmed history exactly when it touches the
      script. */
  lemma WaitingInHistory(m: Maps, script: Script, chain: seq<Loc>, pool: seq<Tx>, rest: seq<Tx>, j: nat)
    requires Stands(m, pool, rest, chain) && j < |rest|
    ensures InHistory(m, script, Money(Coins(chain), script).Keys, rest[j].txid) <==> Touches(chain + Pool(rest), |chain| + j, script)
  {
    WaitingIsIndexed(m, script, chain, pool, rest, j);
    var all, tx, coins := chain + Pool(rest), rest[j], Coins((chain + Pool(rest))[..|chain| + j]);
    assert all[|chain| + j].tx == tx;
    hide Stands, LedgerRows, MinedTxids, Coins, Money, PaysOut;
    forall o | o in tx.inputs
      ensures o in Money(Coins(chain), script) || PaysOut(m, script, o) <==> o in coins && coins[o].script == script
    {
      InputIsMine(m, script, chain, pool, rest, j, o);
    }
    EntryInHistory(m, script, Money(Coins(chain), script).Keys, tx, coins);
  }

  lemma EntryInHistory(m: Maps, script: Script, confirmed: set<OutPoint>, tx: Tx, coins: map<OutPoint, Coin>)
    requires tx.txid in m.txs && Describes(m.txs[tx.txid], tx)
    requires forall o :: o in tx.inputs ==> (o in confirmed || PaysOut(m, script, o) <==> o in coins && coins[o].script == script)
    ensures InHistory(m, script, confirmed, tx.txid) <==> Pays(tx, script) || SpendsFrom(coins, tx, script)
  {
    hide PaysOut;
    assert script in m.txs[tx.txid].touches <==> Pays(tx, script) by { hide SpendsFrom; }
    SpendsByInput(m.txs[tx.txid].spends, tx, coins, script);
    hide Pays, SpendsFrom, Describes;
    assert forall o :: o in m.txs[tx.txid].spends <==> o in tx.inputs;
  }

  lemma SpendsByInput(spends: set<OutPoint>, tx: Tx, coins: map<OutPoint, Coin>, script: Script)
    requires spends == SetOf(tx.inputs)
    ensures SpendsFrom(coins, tx, script) <==> exists o :: o in spends && o in coins && coins[o].script == script
  {
    if o :| o in spends && o in coins && coins[o].script == script {
      var i :| 0 <= i < |tx.inputs| && tx.inputs[i] == o;
    }
  }

  lemma InputIsMine(m: Maps, script: Script, chain: seq<Loc>, pool: seq<Tx>, rest: seq<Tx>, j: nat, o: OutPoint)
    requires Stands(m, pool, rest, chain) && j < |rest| && o in rest[j].inputs
    ensures var coins := Coins((chain + Pool(rest))[..|chain| + j]);
            o in Money(Coins(chain), script) || PaysOut(m, script, o) <==> o in coins && coins[o].script == script
  {
    StandsValid(m, pool, rest, chain);
    hide Valid, Stands, Coins, Money, PaysOut, Creates;
    var n := InputFrom(chain, rest, j, o);
    PayerIs(m, script, chain, pool, rest, n, o);
    MoneyAt(Coins(chain), script, o);
    if n >= |chain| {
      WaitingIsIndexed(m, script, chain, pool, rest, n - |chain|);
      IndexedPays(m, script, rest[n - |chain|], o);
    }
  }

  lemma IndexedPays(m: Maps, script: Script, tx: Tx, o: OutPoint)
    requires tx.txid in m.txs && Describes(m.txs[tx.txid], tx) && Creates(tx, o)
    ensures PaysOut(m, script, o) <==> tx.outputs[o.vout].script == script
  {}

  // ----------------------------------------------------------------- while a poll is ahead of the refresh

  /** The coins that no mined transaction created. */
  ghost function NotMined(coins: map<OutPoint, Coin>, pool: seq<Tx>, mined: seq<nat>): map<OutPoint, Coin> {
    map o | o in coins && !CreatedBy(pool, mined, o) :: coins[o]
  }

  ghost predicate CreatedBy(pool: seq<Tx>, nums: seq<nat>, o: OutPoint) {
    exists i :: i in nums && i < |pool| && Creates(pool[i], o)
  }

  /** Then a transaction the block left waiting is in the script's unconfirmed history exactly when
      it pays the script or spends one of its coins that no mined transaction created: a link through
      what was mined is not seen. */
  lemma AheadInHistory(polled: Maps, script: Script, chain: seq<Loc>, pool: seq<Tx>, mined: seq<nat>, left: seq<nat>, i: nat)
    requires Valid(chain + Pool(pool)) && Splits(|pool|, mined, left) && Holds(polled, Chosen(pool, left))
    requires i in left && i < |pool|
    ensures InHistory(polled, script, Money(Coins(chain), script).Keys, pool[i].txid) <==>
            Pays(pool[i], script) || SpendsFrom(NotMined(Coins((chain + Pool(pool))[..|chain| + i]), pool, mined), pool[i], script)
  {
    var coins := Coins((chain + Pool(pool))[..|chain| + i]);
    ChainIsValid(chain, Pool(pool));
    hide Valid, Coins, LedgerRows, MinedTxids, Money, PaysOut, Holds, CreatedBy, InHistory, SpendsFrom, Describes, Inverse;
    LeftIndexed(script, chain, pool, left, polled);
    forall o | o in pool[i].inputs
      ensures o in Money(Coins(chain), script).Keys || PaysOut(polled, script, o) <==>
              o in NotMined(coins, pool, mined) && NotMined(coins, pool, mined)[o].script == script
    {
      AheadInput(polled, script, chain, pool, mined, left, MinedTxids(LedgerRows(script, chain)), i, o);
    }
    EntryInHistory(polled, script, Money(Coins(chain), script).Keys, pool[i], NotMined(coins, pool, mined));
  }

  lemma AheadInput(polled: Maps, script: Script, chain: seq<Loc>, pool: seq<Tx>, mined: seq<nat>, left: seq<nat>, seen: set<Txid>,
                   i: nat, o: OutPoint)
    requires Valid(chain) && Valid(chain + Pool(pool)) && Splits(|pool|, mined, left) && IndexesLeft(polled, pool, left, seen)
    requires i in left && i < |pool| && o in pool[i].inputs
    ensures var coins := Coins((chain + Pool(pool))[..|chain| + i]);
            o in Money(Coins(chain), script) || PaysOut(polled, script, o) <==>
            o in coins && coins[o].script == script && !CreatedBy(pool, mined, o)
  {
    var all, c := chain + Pool(pool), |chain|;
    assert EndsIn(all, c, pool);
    hide Valid, Coins, Money, PaysOut, Describes, Inverse, Creates, CreatedBy, Splits, IndexesLeft, EndsIn, CoinOf;
    var n := InputFrom(chain, pool, i, o);
    MoneyAt(Coins(chain), script, o);
    PolledPays(polled, script, all, c, pool, left, seen, n, o);
    ByOneOnly(all, c, pool, mined, n, o);
    LeftOrMined(|pool|, mined, left, n - c);
  }

  /** The transactions of `pool` are the last ones, from number `c` on. */
  ghost predicate EndsIn(all: seq<Loc>, c: nat, pool: seq<Tx>) {
    |all| == c + |pool| && forall i :: 0 <= i < |pool| ==> all[c + i].tx == pool[i]
  }

  lemma LeftOrMined(n: nat, mined: seq<nat>, left: seq<nat>, i: int)
    requires Splits(n, mined, left)
    ensures 0 <= i < n ==> (i in left <==> i !in mined)
  {}

  /** The outpoint was created by a chosen transaction exactly when its one creator is chosen. */
  lemma ByOneOnly(all: seq<Loc>, c: nat, pool: seq<Tx>, nums: seq<nat>, n: nat, o: OutPoint)
    requires Valid(all) && EndsIn(all, c, pool)
    requires n < |all| && Creates(all[n].tx, o)
    ensures CreatedBy(pool, nums, o) <==> n >= c && n - c in nums
  {
    hide Valid, Creates;
    if CreatedBy(pool, nums, o) {
      var i :| i in nums && i < |pool| && Creates(pool[i], o);
      SameCreator(all, n, c + i, o);
    }
    if n >= c { assert all[c + (n - c)].tx == pool[n - c]; }
  }

  /** A polled index has the payment exactly when its payer was left and pays the script. */
  lemma PolledPays(polled: Maps, script: Script, all: seq<Loc>, c: nat, pool: seq<Tx>, left: seq<nat>, seen: set<Txid>, n: nat, o: OutPoint)
    requires Valid(all) && EndsIn(all, c, pool)
    requires n < |all| && Creates(all[n].tx, o) && IndexesLeft(polled, pool, left, seen)
    ensures PaysOut(polled, script, o) <==> n >= c && n - c in left && CoinOf(all[n], o).script == script
  {
    hide Valid, Describes, Inverse, PaysOut, Creates;
    if PaysOut(polled, script, o) {
      var i := PolledPayer(polled, script, pool, left, seen, o);
      SameTxid(all, c, pool, i, n, o);
    }
    if n >= c && n - c in left {
      assert all[c + (n - c)].tx == pool[n - c];
      IndexedPays(polled, script, pool[n - c], o);
    }
  }

  lemma PolledPayer(polled: Maps, script: Script, pool: seq<Tx>, left: seq<nat>, seen: set<Txid>, o: OutPoint) returns (i: nat)
    requires IndexesLeft(polled, pool, left, seen) && PaysOut(polled, script, o)
    ensures i in left && i < |pool| && pool[i].txid == o.txid
  {
    hide Describes, Inverse;
    i :| i in left && i < |pool| && pool[i].txid == o.txid;
  }

  lemma SameTxid(all: seq<Loc>, c: nat, pool: seq<Tx>, i: nat, n: nat, o: OutPoint)
    requires Valid(all) && EndsIn(all, c, pool) && i < |pool| && pool[i].txid == o.txid && n < |all| && Creates(all[n].tx, o)
    ensures n == c + i
  {
    hide Valid;
    assert all[c + i].tx == pool[i];
    if c + i < n { UniqueTxids(all, c + i, n); }
    if n < c + i { UniqueTxids(all, n, c + i); }
  }

  // ------------------------------------------------------------------------------------- statuses

  /** The canonical order of waiting transactions: height 0 before -1, then by txid. */
  predicate PendingLess(a: HistoryEntry, b: HistoryEntry) {
    a.height > b.height || (a.height == b.height && a.txid < b.txid)
  }

  /** Waiting transaction `j` touches the script and has this entry. */
  ghost predicate PendingAt(e: HistoryEntry, chain: seq<Loc>, rest: seq<Tx>, script: Script, j: nat) {
    && j < |rest| && Touches(chain + Pool(rest), |chain| + j, script)
    && e == HistoryEntry(rest[j].txid, LedgerHeight(Coins(chain), rest[j]))
  }

  /** The waiting transactions that touch the script, with the protocol's heights, in its order. */
  ghost predicate IsPending(p: seq<HistoryEntry>, chain: seq<Loc>, rest: seq<Tx>, script: Script) {
    Ascending(p, PendingLess) && forall e :: e in p <==> exists j :: 0 <= j && PendingAt(e, chain, rest, script, j)
  }

  /** The history the ledger itself gives a script: the rows of a replay of the chain, then the
      waiting transactions. Neither the mempool index nor the server's view has a part in it. */
  ghost predicate IsLedgerStatus(x: seq<HistoryEntry>, chain: seq<Loc>, rest: seq<Tx>, script: Script) {
    exists p :: IsPending(p, chain, rest, script) && x == HistoryEntries(LedgerRows(script, chain), []) + p
  }

  /** Every waiting transaction of the script whose inputs are all confirmed has its parents settled. */
  ghost predicate HeightsHold(m: Maps, chain: seq<Loc>, rest: seq<Tx>, script: Script) {
    forall j :: 0 <= j < |rest| && Touches(chain + Pool(rest), |chain| + j, script) && AllConfirmed(Coins(chain), rest[j]) ==>
      ParentsSettled(m, MinedTxids(LedgerRows(script, chain)), rest[j])
  }

  function Brief(entries: seq<Entry>): (r: seq<HistoryEntry>)
    ensures |r| == |entries| && forall i :: 0 <= i < |r| ==> r[i] == HistoryEntry(entries[i].txid, entries[i].height)
  {
    seq(|entries|, i requires 0 <= i < |entries| => HistoryEntry(entries[i].txid, entries[i].height))
  }

  lemma RowsThenBrief(rows: seq<Row>, entries: seq<Entry>)
    ensures HistoryEntries(rows, entries) == HistoryEntries(rows, []) + Brief(entries)
  {}

  ghost predicate IsEntry(m: Maps, script: Script, chain: seq<Loc>, e: Entry) {
    var mined := MinedTxids(LedgerRows(script, chain));
    && e.txid in m.txs && InHistory(m, script, Money(Coins(chain), script).Keys, e.txid)
    && e.txid !in mined && e == EntryOf(m, mined, e.txid)
  }

  /** The entries are those of the waiting transactions that touch the script. */
  lemma EntryIsWaiting(m: Maps, script: Script, chain: seq<Loc>, pool: seq<Tx>, rest: seq<Tx>, e: Entry) returns (j: nat)
    requires Stands(m, pool, rest, chain) && IsEntry(m, script, chain, e)
    ensures j < |rest| && rest[j].txid == e.txid && Touches(chain + Pool(rest), |chain| + j, script)
  {
    hide Stands, Coins, Describes, LedgerRows, MinedTxids, Money, InHistory, EntryOf;
    var k := IndexedAt(m, chain, pool, rest, e.txid);
    if k < |chain| {
      assert (chain + Pool(rest))[k] == chain[k];
      MinedIsInRows(m, script, chain, pool, rest, k);
      assert false;
    }
    j := k - |chain|;
    assert (chain + Pool(rest))[k].tx == rest[j];
    WaitingInHistory(m, script, chain, pool, rest, j);
  }

  lemma WaitingHasEntry(m: Maps, script: Script, chain: seq<Loc>, pool: seq<Tx>, rest: seq<Tx>, j: nat)
    requires Stands(m, pool, rest, chain) && j < |rest| && Touches(chain + Pool(rest), |chain| + j, script)
    ensures rest[j].txid in m.txs
    ensures IsEntry(m, script, chain, EntryOf(m, MinedTxids(LedgerRows(script, chain)), rest[j].txid))
  {
    WaitingIsIndexed(m, script, chain, pool, rest, j);
    hide Stands, Coins, Describes, LedgerRows, MinedTxids, Money, InHistory;
    WaitingInHistory(m, script, chain, pool, rest, j);
  }

  /** The history the server sends is the ledger's if and only if the heights hold. */
  lemma StatusExactly(m: Maps, script: Script, chain: seq<Loc>, pool: seq<Tx>, rest: seq<Tx>, entries: seq<Entry>)
    requires Stands(m, pool, rest, chain)
    requires EntriesOk(entries, m, script, Money(Coins(chain), script).Keys, MinedTxids(LedgerRows(script, chain)))
    ensures IsLedgerStatus(HistoryEntries(LedgerRows(script, chain), entries), chain, rest, script) <==> HeightsHold(m, chain, rest, script)
  {
    RowsThenBrief(LedgerRows(script, chain), entries);
    assert forall e :: e in entries <==> IsEntry(m, script, chain, e) by { hide Coins, LedgerRows, InHistory, EntryOf; }
    BriefAscends(entries, m, script, Money(Coins(chain), script).Keys, MinedTxids(LedgerRows(script, chain)));
    hide Stands, Coins, LedgerRows, HistoryEntries, IsPending, Brief, HeightsHold, EntriesOk, IsEntry, Ascending;
    if HeightsHold(m, chain, rest, script) {
      HeldIsPending(m, script, chain, pool, rest, entries);
    }
    forall p | IsPending(p, chain, rest, script) && HistoryEntries(LedgerRows(script, chain), []) + Brief(entries) == HistoryEntries(LedgerRows(script, chain), []) + p
      ensures HeightsHold(m, chain, rest, script)
    {
      SameTail(HistoryEntries(LedgerRows(script, chain), []), Brief(entries), p);
      PendingIsHeld(m, script, chain, pool, rest, entries);
    }
  }

  lemma SameTail<T>(a: seq<T>, b: seq<T>, c: seq<T>)
    requires a + b == a + c
    ensures b == c
  {
    assert (a + b)[|a|..] == b && (a + c)[|a|..] == c;
  }

  /** An order on txids survives dropping the fees. */
  lemma BriefAscends(entries: seq<Entry>, m: Maps, script: Script, confirmed: set<OutPoint>, mined: set<Txid>)
    requires EntriesOk(entries, m, script, confirmed, mined)
    ensures Ascending(Brief(entries), PendingLess)
  {
    EntriesDistinct(entries, m, script, confirmed, mined);
    hide InHistory, EntryOf;
    forall i, j | 0 <= i < j < |entries| ensures PendingLess(Brief(entries)[i], Brief(entries)[j]) {
      assert EntryLess(entries[i], entries[j]);
    }
  }

  lemma HeldIsPending(m: Maps, script: Script, chain: seq<Loc>, pool: seq<Tx>, rest: seq<Tx>, entries: seq<Entry>)
    requires Stands(m, pool, rest, chain) && HeightsHold(m, chain, rest, script)
    requires (forall e :: e in entries <==> IsEntry(m, script, chain, e)) && Ascending(Brief(entries), PendingLess)
    ensures IsPending(Brief(entries), chain, rest, script)
  {
    hide Stands, Coins, LedgerRows, MinedTxids, InHistory, Ascending, AllConfirmed, ParentsSettled, Money;
    var p, mined := Brief(entries), MinedTxids(LedgerRows(script, chain));
    forall e | e in p ensures exists j :: 0 <= j && PendingAt(e, chain, rest, script, j) {
      var i :| 0 <= i < |p| && p[i] == e;
      assert entries[i] in entries;
      var j := EntryIsWaiting(m, script, chain, pool, rest, entries[i]);
      HeightExactly(m, script, chain, pool, rest, j);
      assert PendingAt(e, chain, rest, script, j);
    }
    forall e, j | 0 <= j && PendingAt(e, chain, rest, script, j) ensures e in p {
      WaitingHasEntry(m, script, chain, pool, rest, j);
      HeightExactly(m, script, chain, pool, rest, j);
      var i :| 0 <= i < |entries| && entries[i] == EntryOf(m, mined, rest[j].txid);
      assert p[i] == e;
    }
  }

  lemma PendingIsHeld(m: Maps, script: Script, chain: seq<Loc>, pool: seq<Tx>, rest: seq<Tx>, entries: seq<Entry>)
    requires Stands(m, pool, rest, chain) && IsPending(Brief(entries), chain, rest, script)
    requires forall e :: e in entries <==> IsEntry(m, script, chain, e)
    ensures HeightsHold(m, chain, rest, script)
  {
    hide Stands, Coins, LedgerRows, MinedTxids, InHistory, Ascending, AllConfirmed, ParentsSettled, Money, Touches;
    var mined := MinedTxids(LedgerRows(script, chain));
    forall j | 0 <= j < |rest| && Touches(chain + Pool(rest), |chain| + j, script) && AllConfirmed(Coins(chain), rest[j])
      ensures ParentsSettled(m, mined, rest[j])
    {
      WaitingHasEntry(m, script, chain, pool, rest, j);
      var i :| 0 <= i < |entries| && entries[i] == EntryOf(m, mined, rest[j].txid);
      assert Brief(entries)[i] in Brief(entries);
      var k :| 0 <= k && PendingAt(Brief(entries)[i], chain, rest, script, k);
      SameWaiting(m, pool, rest, chain, j, k);
      HeightExactly(m, script, chain, pool, rest, j);
    }
  }

  lemma SameWaiting(m: Maps, pool: seq<Tx>, rest: seq<Tx>, chain: seq<Loc>, j: nat, k: nat)
    requires Stands(m, pool, rest, chain) && j < |rest| && k < |rest| && rest[j].txid == rest[k].txid
    ensures j == k
  {
    hide Valid, Holds, Catching;
    var all := chain + Pool(rest);
    assert all[|chain| + j].tx == rest[j] && all[|chain| + k].tx == rest[k];
    if j < k { UniqueTxids(all, |chain| + j, |chain| + k); }
    if k < j { UniqueTxids(all, |chain| + k, |chain| + j); }
  }

  /** Transaction `i` was left waiting, touches the script otherwise than through what was mined, and
      has this entry, the height being that of the chain with the block. */
  ghost predicate AheadPendingAt(e: HistoryEntry, script: Script, chain: seq<Loc>, block: seq<Loc>, pool: seq<Tx>, mined: seq<nat>, left: seq<nat>,
                                 i: nat) {
    && i in left && i < |pool|
    && (Pays(pool[i], script) || SpendsFrom(NotMined(Coins((chain + Pool(pool))[..|chain| + i]), pool, mined), pool[i], script))
    && e == HistoryEntry(pool[i].txid, LedgerHeight(Coins(chain + block), pool[i]))
  }

  /** While a poll is ahead of the refresh, the unconfirmed part of the history sent is exactly that. */
  lemma AheadStatus(script: Script, chain: seq<Loc>, block: seq<Loc>, coinbase: Tx, pool: seq<Tx>, mined: seq<nat>, left: seq<nat>,
                    polled: Maps, entries: seq<Entry>, e: HistoryEntry)
    requires Valid(chain + Pool(pool)) && Splits(|pool|, mined, left) && AncestorClosed(pool, mined)
    requires IsBlock(block, coinbase, pool, mined) && NewCoinbase(coinbase, chain, pool)
    requires Holds(polled, Chosen(pool, left))
    requires EntriesOk(entries, polled, script, Money(Coins(chain), script).Keys, MinedTxids(LedgerRows(script, chain)))
    ensures e in Brief(entries) <==> exists i :: 0 <= i && AheadPendingAt(e, script, chain, block, pool, mined, left, i)
  {
    var keys, seen := Money(Coins(chain), script).Keys, MinedTxids(LedgerRows(script, chain));
    assert forall x :: x in entries <==> IsEntry(polled, script, chain, x) by { hide Coins, LedgerRows, InHistory, EntryOf; }
    hide EntriesOk, Coins, LedgerRows, MinedTxids, Money, InHistory, EntryOf, NotMined, SpendsFrom, Pays, IsBlock, NewCoinbase, AncestorClosed, Valid, Holds, LedgerHeight, Splits;
    AheadIndexed(script, chain, pool, mined, left, polled);
    if e in Brief(entries) {
      var k :| 0 <= k < |entries| && Brief(entries)[k] == e;
      assert entries[k] in entries;
      var i :| i in left && i < |pool| && pool[i].txid == entries[k].txid;
      AheadEntry(script, chain, block, coinbase, pool, mined, left, polled, i);
      assert AheadPendingAt(e, script, chain, block, pool, mined, left, i);
    }
    if i :| 0 <= i && AheadPendingAt(e, script, chain, block, pool, mined, left, i) {
      AheadEntry(script, chain, block, coinbase, pool, mined, left, polled, i);
      var k :| 0 <= k < |entries| && entries[k] == EntryOf(polled, seen, pool[i].txid);
      assert Brief(entries)[k] == e;
    }
  }

  lemma AheadIndexed(script: Script, chain: seq<Loc>, pool: seq<Tx>, mined: seq<nat>, left: seq<nat>, polled: Maps)
    requires Valid(chain + Pool(pool)) && Splits(|pool|, mined, left) && Holds(polled, Chosen(pool, left))
    ensures IndexesLeft(polled, pool, left, MinedTxids(LedgerRows(script, chain)))
  {
    ChainIsValid(chain, Pool(pool));
    hide Valid, Holds, LedgerRows;
    LeftIndexed(script, chain, pool, left, polled);
  }

  lemma AheadEntry(script: Script, chain: seq<Loc>, block: seq<Loc>, coinbase: Tx, pool: seq<Tx>, mined: seq<nat>, left: seq<nat>, polled: Maps, i: nat)
    requires Valid(chain + Pool(pool)) && Splits(|pool|, mined, left) && AncestorClosed(pool, mined)
    requires IsBlock(block, coinbase, pool, mined) && NewCoinbase(coinbase, chain, pool)
    requires Holds(polled, Chosen(pool, left)) && i in left && i < |pool|
    ensures pool[i].txid in polled.txs
    ensures var e := EntryOf(polled, MinedTxids(LedgerRows(script, chain)), pool[i].txid);
            && e.txid == pool[i].txid && e.height == LedgerHeight(Coins(chain + block), pool[i])
            && (IsEntry(polled, script, chain, e) <==>
                Pays(pool[i], script) || SpendsFrom(NotMined(Coins((chain + Pool(pool))[..|chain| + i]), pool, mined), pool[i], script))
  {
    hide Coins, LedgerRows, MinedTxids, Money, InHistory, NotMined, SpendsFrom, Pays, IsBlock, NewCoinbase, AncestorClosed, Valid, Holds, LedgerHeight, Splits;
    hide EntryOf;
    AheadIndexed(script, chain, pool, mined, left, polled);
    var j :| 0 <= j < |left| && left[j] == i;
    AheadHeight(script, chain, block, coinbase, pool, mined, left, polled, j);
    AheadInHistory(polled, script, chain, pool, mined, left, i);
    EntryHasTxid(polled, MinedTxids(LedgerRows(script, chain)), pool[i].txid);
  }

  lemma EntryHasTxid(m: Maps, seen: set<Txid>, t: Txid)
    requires t in m.txs
    ensures EntryOf(m, seen, t).txid == t
  {}

  /** Once the mempool is polled after the refresh, no transaction of the chain is indexed and all
      heights hold. */
  lemma PolledHeightsHold(m: Maps, script: Script, chain: seq<Loc>, rest: seq<Tx>)
    requires Stands(m, rest, rest, chain)
    ensures HeightsHold(m, chain, rest, script)
  {
    hide Coins, LedgerRows, MinedTxids, Touches, Stands, AllConfirmed, ParentsSettled;
    forall j | 0 <= j < |rest| && AllConfirmed(Coins(chain), rest[j])
      ensures ParentsSettled(m, MinedTxids(LedgerRows(script, chain)), rest[j])
    {
      PolledParents(m, MinedTxids(LedgerRows(script, chain)), chain, rest, j);
    }
  }

  /** Between refresh and poll they may not: the block took a transaction of another script, and
      the child that pays this one is sent with height -1 although its inputs are confirmed. */
  lemma StaleParentHeight(script: Script, other: Script, m: Maps)
    requires script != other
    requires Holds(m, [Tx(1, [], [Output(other, 5)], [0]), Tx(2, [OutPoint(1, 0)], [Output(script, 5)], [1])])
    ensures var parent, child := Tx(1, [], [Output(other, 5)], [0]), Tx(2, [OutPoint(1, 0)], [Output(script, 5)], [1]);
            var chain := [Loc(parent, 0, 0)];
            && Stands(m, [parent, child], [child], chain)
            && AllConfirmed(Coins(chain), child) && LedgerHeight(Coins(chain), child) == 0
            && 2 in m.txs && EntryOf(m, MinedTxids(LedgerRows(script, chain)), 2).height == -1
  {
    var parent, child := Tx(1, [], [Output(other, 5)], [0]), Tx(2, [OutPoint(1, 0)], [Output(script, 5)], [1]);
    var chain, pool, rest := [Loc(parent, 0, 0)], [parent, child], [child];
    var all := chain + Pool(rest);
    OneIsValid(chain[0]);
    TwoAreValid(all[0], all[1], OutPoint(1, 0));
    assert all == [all[0], all[1]];
    assert Catching(chain, pool, rest) by { assert chain[0].tx == pool[0] && rest[0] == pool[1]; }
    NoRowYet(script, chain);
    hide Valid, LedgerRows;
    CoinsClosedForm(chain, OutPoint(1, 0));
    assert Creates(chain[0].tx, OutPoint(1, 0));
    hide Coins;
    HeightExactly(m, script, chain, pool, rest, 0);
    assert pool[0].txid in m.txs && OutPoint(1, 0) in child.inputs;
  }

  lemma OneIsValid(a: Loc)
    requires |a.tx.inputs| == 0
    ensures Valid([a])
  {
    hide Coins;
    assert Follows([a][..0], a.tx);
  }

  lemma TwoAreValid(a: Loc, b: Loc, o: OutPoint)
    requires |a.tx.inputs| == 0 && b.tx.inputs == [o] && Creates(a.tx, o) && a.tx.txid != b.tx.txid
    ensures Valid([a, b])
  {
    OneIsValid(a);
    CoinsClosedForm([a], o);
    assert Creates([a][0].tx, o);
    hide Coins;
    assert [a, b][..1] == [a];
    assert Follows([a], b.tx);
  }

  lemma NoRowYet(script: Script, chain: seq<Loc>)
    requires |chain| == 1 && |chain[0].tx.inputs| == 0 && !Pays(chain[0].tx, script)
    ensures MinedTxids(LedgerRows(script, chain)) == {}
  {
    assert !Touches(chain, 0, script) by { hide Coins; }
    hide Touches, Coins, RowOf;
    assert LedgerRows(script, chain[..0]) == [];
  }
}
