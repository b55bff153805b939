/** Blocks move transactions from the mempool to the chain. When the index takes the block first,
    a script is shown the same unspent outputs before, between and after the two updates, plus
    what the coinbase pays it; when the mempool poll comes first, exactly when the poll removes
    nothing that only the block can replace. */
module Mining {
  import opened Collections
  import opened Ledger
  import opened ScriptFold
  import opened Replay
  import opened Mempool
  import opened MempoolView
  import opened Wallet

  /** Mempool transactions, as if appended to the chain. */
  function Pool(txs: seq<Tx>): (r: seq<Loc>)
    ensures |r| == |txs| && forall i :: 0 <= i < |txs| ==> r[i].tx == txs[i]
  {
    seq(|txs|, i requires 0 <= i < |txs| => Loc(txs[i], 0, 0))
  }

  /** The index holds exactly the transactions in `pool`. */
  ghost predicate Holds(m: Maps, pool: seq<Tx>) {
    && Inverse(m)
    && (forall t :: t in m.txs ==> exists i :: 0 <= i < |pool| && pool[i].txid == t)
    && (forall i :: 0 <= i < |pool| ==> pool[i].txid in m.txs && Describes(m.txs[pool[i].txid], pool[i]))
  }

  ghost predicate InChain(chain: seq<Loc>, tx: Tx) {
    exists n :: 0 <= n < |chain| && chain[n].tx == tx
  }

  /** The index holds `rest` and possibly transactions the chain already has. */
  ghost predicate Catching(chain: seq<Loc>, pool: seq<Tx>, rest: seq<Tx>) {
    && (forall i :: 0 <= i < |pool| ==> InChain(chain, pool[i]) || pool[i] in rest)
    && (forall i :: 0 <= i < |rest| ==> rest[i] in pool)
  }

  // ------------------------------------------------------------- what is shown is the replayed money

  lemma RestIsFresh(chain: seq<Loc>, rest: seq<Tx>, j: nat, n: nat)
    requires Valid(chain + Pool(rest)) && j < |rest| && n < |chain|
    ensures chain[n].tx.txid != rest[j].txid
  {
    UniqueTxids(chain + Pool(rest), n, |chain| + j);
  }

  lemma MinedAreInChain(script: Script, chain: seq<Loc>, rest: seq<Tx>, j: nat)
    requires Valid(chain) && Valid(chain + Pool(rest)) && j < |rest|
    ensures rest[j].txid !in MinedTxids(LedgerRows(script, chain))
  {
    RowTxidsDistinct(script, chain);
    if rest[j].txid in MinedTxids(LedgerRows(script, chain)) {
      var n :| 0 <= n < |chain| && chain[n].tx.txid == rest[j].txid;
      RestIsFresh(chain, rest, j, n);
    }
  }

  /** Of the pending outputs, exactly those of `rest` are left. */
  lemma PendingIsRest(m: Maps, script: Script, chain: seq<Loc>, pool: seq<Tx>, rest: seq<Tx>, o: OutPoint)
    requires Valid(chain) && Valid(chain + Pool(rest)) && Holds(m, pool) && Catching(chain, pool, rest)
    ensures o in Pending(m, script, MinedTxids(LedgerRows(script, chain))) <==>
            exists j :: 0 <= j < |rest| && Creates(rest[j], o) && rest[j].outputs[o.vout].script == script
    ensures forall j :: 0 <= j < |rest| && Creates(rest[j], o) && rest[j].outputs[o.vout].script == script ==>
              o in Pending(m, script, MinedTxids(LedgerRows(script, chain))) &&
              Pending(m, script, MinedTxids(LedgerRows(script, chain)))[o] == rest[j].outputs[o.vout].value
  {
    var mined := MinedTxids(LedgerRows(script, chain));
    hide Valid, LedgerRows, Inverse;
    if PaysOut(m, script, o) && o.txid !in mined {
      var i :| 0 <= i < |pool| && pool[i].txid == o.txid;
      assert Creates(pool[i], o);
      if InChain(chain, pool[i]) {
        var n :| 0 <= n < |chain| && chain[n].tx == pool[i];
        assert Touches(chain, n, script);
        RowTxidsDistinct(script, chain);
      }
      assert pool[i] in rest;
      var j :| 0 <= j < |rest| && rest[j] == pool[i];
      assert Creates(rest[j], o) && rest[j].outputs[o.vout].script == script;
    }
    forall j | 0 <= j < |rest| && Creates(rest[j], o) && rest[j].outputs[o.vout].script == script
      ensures PaysOut(m, script, o) && o.txid !in mined && m.txs[o.txid].outputs[o.vout].value == rest[j].outputs[o.vout].value
    {
      MinedAreInChain(script, chain, rest, j);
      var i :| 0 <= i < |pool| && pool[i] == rest[j];
    }
  }

  lemma ChainSpends(chain: seq<Loc>, tx: Tx, o: OutPoint)
    ensures InChain(chain, tx) && o in tx.inputs ==> Spent(chain, o)
  {}

  /** A coin the chain has not spent is spent in the mempool exactly when `rest` spends it. */
  lemma SpentIsRest(m: Maps, script: Script, chain: seq<Loc>, pool: seq<Tx>, rest: seq<Tx>, o: OutPoint)
    requires Valid(chain) && Valid(chain + Pool(rest)) && Holds(m, pool) && Catching(chain, pool, rest)
    requires !Spent(chain, o)
    ensures SpentIn(m, MinedTxids(LedgerRows(script, chain)), o) <==> exists j :: 0 <= j < |rest| && o in rest[j].inputs
  {
    var mined := MinedTxids(LedgerRows(script, chain));
    hide Valid, LedgerRows, ByScriptExact;
    if SpentIn(m, mined, o) {
      var t := m.spentBy[o];
      var i :| 0 <= i < |pool| && pool[i].txid == t;
      assert o in pool[i].inputs;
      ChainSpends(chain, pool[i], o);
      assert pool[i] in rest;
    }
    if j :| 0 <= j < |rest| && o in rest[j].inputs {
      MinedAreInChain(script, chain, rest, j);
      var i :| 0 <= i < |pool| && pool[i] == rest[j];
      assert o in m.txs[pool[i].txid].spends;
    }
  }

  lemma Parts(chain: seq<Loc>, rest: seq<Tx>, o: OutPoint)
    ensures Created(chain + Pool(rest), o) <==> Created(chain, o) || exists j :: 0 <= j < |rest| && Creates(rest[j], o)
    ensures Spent(chain + Pool(rest), o) <==> Spent(chain, o) || exists j :: 0 <= j < |rest| && o in rest[j].inputs
  {
    var all := chain + Pool(rest);
    forall j | 0 <= j < |rest| ensures all[|chain| + j].tx == rest[j] {}
    forall i | 0 <= i < |chain| ensures all[i] == chain[i] {}
    if i :| 0 <= i < |all| && Creates(all[i].tx, o) {
      if i < |chain| { assert Creates(chain[i].tx, o); } else { assert Creates(rest[i - |chain|], o); }
    }
    if i :| 0 <= i < |all| && o in all[i].tx.inputs {
      if i < |chain| { assert o in chain[i].tx.inputs; } else { assert o in rest[i - |chain|].inputs; }
    }
    if i :| 0 <= i < |chain| && Creates(chain[i].tx, o) { assert Creates(all[i].tx, o); }
    if j :| 0 <= j < |rest| && Creates(rest[j], o) { assert Creates(all[|chain| + j].tx, o); }
    if i :| 0 <= i < |chain| && o in chain[i].tx.inputs { assert o in all[i].tx.inputs; }
    if j :| 0 <= j < |rest| && o in rest[j].inputs { assert o in all[|chain| + j].tx.inputs; }
  }

  /** A coin with a known creator: whether it is live, and its script and value. */
  lemma CoinAt(locs: seq<Loc>, i: nat, o: OutPoint)
    requires Valid(locs) && i < |locs| && Creates(locs[i].tx, o)
    ensures o in Coins(locs) <==> !Spent(locs, o)
    ensures o in Coins(locs) ==> Coins(locs)[o] == CoinOf(locs[i], o)
  {
    CoinsClosedForm(locs, o);
  }

  /** Outpoint by outpoint: a coin created by the chain. */
  lemma ShownConfirmed(m: Maps, script: Script, chain: seq<Loc>, pool: seq<Tx>, rest: seq<Tx>, n: nat, o: OutPoint)
    requires Valid(chain) && Valid(chain + Pool(rest)) && Holds(m, pool) && Catching(chain, pool, rest)
    requires n < |chain| && Creates(chain[n].tx, o)
    ensures var mined := MinedTxids(LedgerRows(script, chain));
            var money, all := Money(Coins(chain), script), Money(Coins(chain + Pool(rest)), script);
            && (o in all <==> o in money && !SpentIn(m, mined, o))
            && (o in all ==> all[o] == money[o])
            && o !in Pending(m, script, mined)
  {
    hide Valid, Coins, LedgerRows, Holds, Catching;
    var all := chain + Pool(rest);
    assert all[n] == chain[n];
    CoinAt(chain, n, o);
    CoinAt(all, n, o);
    Parts(chain, rest, o);
    if !Spent(chain, o) { SpentIsRest(m, script, chain, pool, rest, o); }
    PendingIsRest(m, script, chain, pool, rest, o);
    forall j | 0 <= j < |rest| ensures !Creates(rest[j], o) { RestIsFresh(chain, rest, j, n); }
  }

  /** A coin created by a transaction still waiting. */
  lemma ShownPending(m: Maps, script: Script, chain: seq<Loc>, pool: seq<Tx>, rest: seq<Tx>, j: nat, o: OutPoint)
    requires Valid(chain) && Valid(chain + Pool(rest)) && Holds(m, pool) && Catching(chain, pool, rest)
    requires j < |rest| && Creates(rest[j], o)
    ensures var mined := MinedTxids(LedgerRows(script, chain));
            var pending, all := Pending(m, script, mined), Money(Coins(chain + Pool(rest)), script);
            && (o in all <==> o in pending && !SpentIn(m, mined, o))
            && (o in all ==> all[o] == pending[o])
            && o !in Money(Coins(chain), script)
  {
    OnlyCreator(chain, rest, j, o);
    hide Valid, Coins, LedgerRows, Holds, Catching;
    CoinsClosedForm(chain, o);
    CoinAt(chain + Pool(rest), |chain| + j, o);
    Parts(chain, rest, o);
    SpentIsRest(m, script, chain, pool, rest, o);
    PendingIsRest(m, script, chain, pool, rest, o);
  }

  lemma OnlyCreator(chain: seq<Loc>, rest: seq<Tx>, j: nat, o: OutPoint)
    requires Valid(chain) && Valid(chain + Pool(rest)) && j < |rest| && Creates(rest[j], o)
    ensures (chain + Pool(rest))[|chain| + j].tx == rest[j]
    ensures !Created(chain, o) && !Spent(chain, o)
    ensures forall k :: 0 <= k < |rest| && Creates(rest[k], o) ==> k == j
  {
    var all := chain + Pool(rest);
    hide Valid, Coins;
    forall n | 0 <= n < |chain| ensures !Creates(chain[n].tx, o) { RestIsFresh(chain, rest, j, n); }
    CoinsClosedForm(chain, o);
    forall k | 0 <= k < |rest| && Creates(rest[k], o) ensures k == j {
      if k < j { UniqueTxids(all, |chain| + k, |chain| + j); }
      if j < k { UniqueTxids(all, |chain| + j, |chain| + k); }
    }
  }

  lemma ShownNowhere(m: Maps, script: Script, chain: seq<Loc>, pool: seq<Tx>, rest: seq<Tx>, o: OutPoint)
    requires Valid(chain) && Valid(chain + Pool(rest)) && Holds(m, pool) && Catching(chain, pool, rest)
    requires !Created(chain + Pool(rest), o)
    ensures o !in Money(Coins(chain + Pool(rest)), script) && o !in Money(Coins(chain), script)
    ensures o !in Pending(m, script, MinedTxids(LedgerRows(script, chain)))
  {
    hide Valid, Coins, LedgerRows, Holds, Catching;
    Parts(chain, rest, o);
    CoinsClosedForm(chain, o);
    CoinsClosedForm(chain + Pool(rest), o);
    PendingIsRest(m, script, chain, pool, rest, o);
  }

  lemma ShownAt(m: Maps, script: Script, chain: seq<Loc>, pool: seq<Tx>, rest: seq<Tx>, o: OutPoint)
    requires Valid(chain) && Valid(chain + Pool(rest)) && Holds(m, pool) && Catching(chain, pool, rest)
    ensures var shown, all := Unspent(m, script, Money(Coins(chain), script), MinedTxids(LedgerRows(script, chain))),
                              Money(Coins(chain + Pool(rest)), script);
            (o in shown <==> o in all) && (o in shown ==> shown[o] == all[o])
  {
    hide Valid, Coins, LedgerRows, Holds, Catching, SpentIn, Pending, Money;
    Parts(chain, rest, o);
    if n :| 0 <= n < |chain| && Creates(chain[n].tx, o) {
      ShownConfirmed(m, script, chain, pool, rest, n, o);
    } else if j :| 0 <= j < |rest| && Creates(rest[j], o) {
      ShownPending(m, script, chain, pool, rest, j, o);
    } else {
      ShownNowhere(m, script, chain, pool, rest, o);
    }
  }

  /** What a wallet is shown is the money a replay of the chain followed by the waiting
      transactions leaves it, even while the index still lists transactions that the chain
      has already taken. */
  lemma ShownIsReplayed(m: Maps, script: Script, chain: seq<Loc>, pool: seq<Tx>, rest: seq<Tx>)
    requires Valid(chain) && Valid(chain + Pool(rest)) && Holds(m, pool) && Catching(chain, pool, rest)
    ensures Shown(m, script, chain) == Money(Coins(chain + Pool(rest)), script)
  {
    hide Valid, Coins, LedgerRows, Holds, Catching, FoldAll, Unspent, Money, Confirmed, MinedTxids;
    FoldedWallet(script, chain);
    var shown, all := Unspent(m, script, Money(Coins(chain), script), MinedTxids(LedgerRows(script, chain))),
                      Money(Coins(chain + Pool(rest)), script);
    forall o ensures (o in shown <==> o in all) && (o in shown ==> shown[o] == all[o]) {
      ShownAt(m, script, chain, pool, rest, o);
    }
    SameMap(shown, all);
  }

  lemma SameMap(a: map<OutPoint, nat>, b: map<OutPoint, nat>)
    requires forall o :: (o in a <==> o in b) && (o in a ==> a[o] == b[o])
    ensures a == b
  {}

  // ------------------------------------------------------------------------- reordering a history

  /** `f` says where each transaction of `after` stood in `before`; -1 marks one new
      transaction that spends nothing. */
  ghost predicate Rearranges(before: seq<Loc>, after: seq<Loc>, f: seq<int>) {
    && |f| == |after|
    && (forall j :: 0 <= j < |f| ==> -1 <= f[j] < |before|)
    && (forall j :: 0 <= j < |f| && f[j] >= 0 ==> after[j].tx == before[f[j]].tx)
    && (forall j, k :: 0 <= j < k < |f| ==> f[j] != f[k])
    && (forall j, i :: 0 <= j < |f| && f[j] < 0 && 0 <= i < |before| ==> after[j].tx.txid != before[i].tx.txid)
    && (forall j :: 0 <= j < |f| && f[j] < 0 ==> |after[j].tx.inputs| == 0)
  }

  /** Every transaction comes after those it spends from. */
  ghost predicate KeepsParents(before: seq<Loc>, f: seq<int>) {
    forall j, i, o :: 0 <= j < |f| && 0 <= f[j] < |before| && 0 <= i < f[j] && o in before[f[j]].tx.inputs && Creates(before[i].tx, o)
      ==> exists k :: 0 <= k < j && f[k] == i
  }

  lemma RearrangedTxids(before: seq<Loc>, after: seq<Loc>, f: seq<int>, j: nat, k: nat)
    requires Valid(before) && Rearranges(before, after, f) && j < k < |after|
    ensures after[j].tx.txid != after[k].tx.txid
    ensures forall o :: o in after[j].tx.inputs ==> o !in after[k].tx.inputs
  {
    hide Valid;
    if f[j] >= 0 && f[k] >= 0 {
      var a, b := if f[j] < f[k] then f[j] else f[k], if f[j] < f[k] then f[k] else f[j];
      UniqueTxids(before, a, b);
      forall o | o in before[a].tx.inputs ensures o !in before[b].tx.inputs { UniqueSpender(before, a, b, o); }
    }
  }

  /** One more transaction of a rearranged history still follows. */
  lemma RearrangedFollows(before: seq<Loc>, after: seq<Loc>, f: seq<int>, j: nat)
    requires Valid(before) && Rearranges(before, after, f) && KeepsParents(before, f)
    requires j < |after| && Valid(after[..j])
    ensures Follows(after[..j], after[j].tx)
  {
    hide Coins;
    var init, tx := after[..j], after[j].tx;
    forall i | 0 <= i < |init| ensures init[i].tx.txid != tx.txid { RearrangedTxids(before, after, f, i, j); }
    if f[j] >= 0 {
      ValidPrefix(before, f[j]);
      forall i | 0 <= i < |tx.inputs| ensures tx.inputs[i] in Coins(init) {
        RearrangedInput(before, after, f, j, tx.inputs[i]);
      }
    }
  }

  lemma RearrangedInput(before: seq<Loc>, after: seq<Loc>, f: seq<int>, j: nat, o: OutPoint)
    requires Valid(before) && Rearranges(before, after, f) && KeepsParents(before, f)
    requires j < |after| && Valid(after[..j]) && f[j] >= 0 && o in after[j].tx.inputs
    ensures o in Coins(after[..j])
  {
    hide Coins, Valid;
    var init := after[..j];
    CoinsClosedForm(init, o);
    var i := CreatedBeforeSpent(before, f[j], o);
    var k :| 0 <= k < j && f[k] == i;
    assert init[k].tx == before[i].tx;
    forall n | 0 <= n < |init| ensures o !in init[n].tx.inputs { RearrangedTxids(before, after, f, n, j); }
  }

  /** Rearranging a valid history, parents first, leaves it valid. */
  lemma {:induction false} RearrangedIsValid(before: seq<Loc>, after: seq<Loc>, f: seq<int>, j: nat)
    requires Valid(before) && Rearranges(before, after, f) && KeepsParents(before, f) && j <= |after|
    ensures Valid(after[..j])
  {
    if j > 0 {
      RearrangedIsValid(before, after, f, j - 1);
      RearrangedFollows(before, after, f, j - 1);
      hide Coins, Follows, Rearranges, KeepsParents;
      Prefixes(after, j);
    }
  }

  lemma Prefixes<T>(s: seq<T>, j: nat)
    requires 0 < j <= |s|
    ensures s[..j][..j-1] == s[..j-1] && s[..j][j-1] == s[j-1] && |s[..j]| == j
  {}

  /** `coinbase` is the one new transaction of a rearrangement that keeps everything else. */
  ghost predicate Adds(before: seq<Loc>, after: seq<Loc>, f: seq<int>, coinbase: Tx) {
    && Rearranges(before, after, f)
    && (forall i :: 0 <= i < |before| ==> i in f)
    && (forall j :: 0 <= j < |f| && f[j] < 0 ==> after[j].tx == coinbase)
    && (exists j :: 0 <= j < |f| && f[j] < 0)
  }

  /** Such a rearrangement leaves the script its money and what the new transaction pays it. */
  lemma RearrangedMoney(before: seq<Loc>, after: seq<Loc>, f: seq<int>, coinbase: Tx, script: Script)
    requires Valid(before) && Valid(after) && Adds(before, after, f, coinbase)
    ensures Money(Coins(after), script) == Money(Coins(before), script) + NewFunded(script, coinbase)
  {
    hide Valid, Coins, Money, Adds, NewFunded;
    var was, paid, now := Money(Coins(before), script), NewFunded(script, coinbase), Money(Coins(after), script);
    forall o ensures (o in now <==> o in was + paid) && (o in now ==> now[o] == (was + paid)[o]) {
      RearrangedMoneyAt(before, after, f, coinbase, script, o);
    }
    SameMap(now, was + paid);
  }

  lemma RearrangedSpent(before: seq<Loc>, after: seq<Loc>, f: seq<int>, o: OutPoint)
    requires Rearranges(before, after, f)
    requires forall i :: 0 <= i < |before| ==> i in f
    ensures Spent(before, o) <==> Spent(after, o)
  {
    if i :| 0 <= i < |before| && o in before[i].tx.inputs {
      assert i in f;
      var j :| 0 <= j < |f| && f[j] == i;
      assert o in after[j].tx.inputs;
    }
    if j :| 0 <= j < |after| && o in after[j].tx.inputs {
      assert o in before[f[j]].tx.inputs;
    }
  }

  lemma RearrangedMoneyAt(before: seq<Loc>, after: seq<Loc>, f: seq<int>, coinbase: Tx, script: Script, o: OutPoint)
    requires Valid(before) && Valid(after) && Adds(before, after, f, coinbase)
    ensures var was, paid, now := Money(Coins(before), script), NewFunded(script, coinbase), Money(Coins(after), script);
            && (o in now <==> o in was || o in paid) && !(o in was && o in paid)
            && (o in now ==> now[o] == if o in paid then paid[o] else was[o])
  {
    hide Valid, Coins;
    RearrangedSpent(before, after, f, o);
    CoinsClosedForm(before, o);
    CoinsClosedForm(after, o);
    var c :| 0 <= c < |f| && f[c] < 0;
    if i :| 0 <= i < |before| && Creates(before[i].tx, o) {
      assert i in f;
      var j :| 0 <= j < |f| && f[j] == i;
      assert Creates(after[j].tx, o);
      CoinAt(before, i, o);
      CoinAt(after, j, o);
      assert after[c].tx.txid != before[i].tx.txid;
    } else if j :| 0 <= j < |after| && Creates(after[j].tx, o) {
      CoinAt(after, j, o);
      assert f[j] < 0;
    } else {
      assert !Creates(after[c].tx, o);
    }
  }

  // ------------------------------------------------------------------------------- mining a block

  /** `mined` and `left` split the mempool, in its order. */
  ghost predicate Splits(n: nat, mined: seq<nat>, left: seq<nat>) {
    && Ascending(mined, NatLess) && Ascending(left, NatLess)
    && (forall i :: 0 <= i < |mined| ==> mined[i] < n && mined[i] !in left)
    && (forall i :: 0 <= i < |left| ==> left[i] < n && left[i] !in mined)
    && (forall i :: 0 <= i < n ==> i in mined || i in left)
  }

  /** A mined transaction's mempool parents are mined too. */
  ghost predicate AncestorClosed(pool: seq<Tx>, mined: seq<nat>) {
    forall p, q, o :: p in mined && p < |pool| && 0 <= q < p && o in pool[p].inputs && Creates(pool[q], o) ==> q in mined
  }

  function Chosen(pool: seq<Tx>, nums: seq<nat>): (r: seq<Tx>)
    requires forall i :: 0 <= i < |nums| ==> nums[i] < |pool|
    ensures |r| == |nums| && forall i :: 0 <= i < |nums| ==> r[i] == pool[nums[i]]
  {
    seq(|nums|, i requires 0 <= i < |nums| => pool[nums[i]])
  }

  /** A block: a new coinbase, then the mined transactions. */
  ghost predicate IsBlock(block: seq<Loc>, coinbase: Tx, pool: seq<Tx>, mined: seq<nat>) {
    && |block| == 1 + |mined|
    && block[0].tx == coinbase
    && (forall i :: 0 <= i < |mined| ==> mined[i] < |pool| && block[1 + i].tx == pool[mined[i]])
  }

  ghost predicate NewCoinbase(coinbase: Tx, chain: seq<Loc>, pool: seq<Tx>) {
    && |coinbase.inputs| == 0
    && (forall i :: 0 <= i < |chain| ==> chain[i].tx.txid != coinbase.txid)
    && (forall i :: 0 <= i < |pool| ==> pool[i].txid != coinbase.txid)
  }

  /** Where each transaction of chain, block and remaining mempool stood before. */
  ghost function Origin(c: nat, mined: seq<nat>, left: seq<nat>): (f: seq<int>)
    ensures |f| == c + 1 + |mined| + |left|
    ensures forall j :: 0 <= j < c ==> f[j] == j
    ensures f[c] == -1 && forall j :: 0 <= j < |f| && f[j] < 0 ==> j == c
    ensures forall i :: 0 <= i < |mined| ==> f[c + 1 + i] == c + mined[i]
    ensures forall i :: 0 <= i < |left| ==> f[c + 1 + |mined| + i] == c + left[i]
  {
    seq(c + 1 + |mined| + |left|, j requires 0 <= j < c + 1 + |mined| + |left| =>
      if j < c then j else if j == c then -1
      else if j < c + 1 + |mined| then c + mined[j - c - 1]
      else c + left[j - c - 1 - |mined|])
  }

  /** Each transaction after the block is the one its origin names. */
  lemma OriginAt(chain: seq<Loc>, block: seq<Loc>, coinbase: Tx, pool: seq<Tx>, mined: seq<nat>, left: seq<nat>, j: nat)
    requires Splits(|pool|, mined, left) && IsBlock(block, coinbase, pool, mined)
    requires j < |chain| + 1 + |mined| + |left| && j != |chain|
    ensures 0 <= Origin(|chain|, mined, left)[j] < |chain| + |pool|
    ensures (chain + block + Pool(Chosen(pool, left)))[j].tx == (chain + Pool(pool))[Origin(|chain|, mined, left)[j]].tx
  {
    hide Origin, Chosen, Pool;
    var c, f := |chain|, Origin(|chain|, mined, left);
    ThreeParts(chain, block, Pool(Chosen(pool, left)), j);
    if j < c {
      assert f[j] == j;
      TwoParts(chain, Pool(pool), j);
    } else if j < c + 1 + |mined| {
      var i := j - c - 1;
      assert f[c + 1 + i] == c + mined[i];
      assert block[1 + i].tx == pool[mined[i]];
      TwoParts(chain, Pool(pool), c + mined[i]);
    } else {
      var i := j - c - 1 - |mined|;
      assert f[c + 1 + |mined| + i] == c + left[i];
      TwoParts(chain, Pool(pool), c + left[i]);
    }
  }

  lemma TwoParts<T>(a: seq<T>, b: seq<T>, j: nat)
    requires j < |a| + |b|
    ensures (a + b)[j] == if j < |a| then a[j] else b[j - |a|]
  {}

  lemma ThreeParts<T>(a: seq<T>, b: seq<T>, c: seq<T>, j: nat)
    requires j < |a| + |b| + |c|
    ensures (a + b + c)[j] == if j < |a| then a[j] else if j < |a| + |b| then b[j - |a|] else c[j - |a| - |b|]
  {}

  lemma OriginRearranges(chain: seq<Loc>, block: seq<Loc>, coinbase: Tx, pool: seq<Tx>, mined: seq<nat>, left: seq<nat>)
    requires Splits(|pool|, mined, left) && IsBlock(block, coinbase, pool, mined) && NewCoinbase(coinbase, chain, pool)
    ensures Rearranges(chain + Pool(pool), chain + block + Pool(Chosen(pool, left)), Origin(|chain|, mined, left))
  {
    var c := |chain|;
    var before, after, f := chain + Pool(pool), chain + block + Pool(Chosen(pool, left)), Origin(c, mined, left);
    hide Origin, Splits, Pool, Chosen, NewCoinbase, Rearranges;
    ThreeParts(chain, block, Pool(Chosen(pool, left)), c);
    Coinbase(chain, pool, coinbase);
    assert after[c].tx == coinbase;
    hide IsBlock;
    assert Copies(before, after, f, c) by {
      forall j | 0 <= j < |f| && j != c ensures 0 <= f[j] < |before| && after[j].tx == before[f[j]].tx {
        OriginAt(chain, block, coinbase, pool, mined, left, j);
      }
    }
    assert Distinct(f) by {
      forall j, k | 0 <= j < k < |f| ensures f[j] != f[k] { OriginInjective(c, |pool|, mined, left, j, k); }
    }
    CopiesRearrange(before, after, f, c);
  }

  /** Every transaction but the one at `c` stood before where `f` says. */
  ghost predicate Copies(before: seq<Loc>, after: seq<Loc>, f: seq<int>, c: nat) {
    |f| == |after| && forall j :: 0 <= j < |f| && j != c ==> 0 <= f[j] < |before| && after[j].tx == before[f[j]].tx
  }

  lemma CopiesRearrange(before: seq<Loc>, after: seq<Loc>, f: seq<int>, c: nat)
    requires Copies(before, after, f, c) && Distinct(f) && c < |f| && f[c] == -1
    requires |after[c].tx.inputs| == 0 && forall i :: 0 <= i < |before| ==> before[i].tx.txid != after[c].tx.txid
    ensures Rearranges(before, after, f)
  {}

  lemma Coinbase(chain: seq<Loc>, pool: seq<Tx>, coinbase: Tx)
    requires NewCoinbase(coinbase, chain, pool)
    ensures |coinbase.inputs| == 0
    ensures forall i :: 0 <= i < |chain + Pool(pool)| ==> (chain + Pool(pool))[i].tx.txid != coinbase.txid
  {}

  lemma OriginInjective(c: nat, n: nat, mined: seq<nat>, left: seq<nat>, j: nat, k: nat)
    requires Splits(n, mined, left) && j < k < c + 1 + |mined| + |left|
    ensures Origin(c, mined, left)[j] != Origin(c, mined, left)[k]
  {
    hide Origin;
    var f := Origin(c, mined, left);
    var m := c + 1 + |mined|;
    if c < k < m {
      assert f[c + 1 + (k - c - 1)] == c + mined[k - c - 1];
      if c < j {
        assert f[c + 1 + (j - c - 1)] == c + mined[j - c - 1];
        assert NatLess(mined[j - c - 1], mined[k - c - 1]);
      }
    } else if k >= m {
      assert f[m + (k - m)] == c + left[k - m];
      if m <= j {
        assert f[m + (j - m)] == c + left[j - m];
        assert NatLess(left[j - m], left[k - m]);
      } else if c < j {
        assert f[c + 1 + (j - c - 1)] == c + mined[j - c - 1];
        assert mined[j - c - 1] in mined;
      }
    }
  }

  lemma OriginCovers(c: nat, n: nat, mined: seq<nat>, left: seq<nat>, i: nat)
    requires Splits(n, mined, left) && i < c + n
    ensures i in Origin(c, mined, left)
  {
    var f := Origin(c, mined, left);
    if i < c {
      assert f[i] == i;
    } else if i - c in mined {
      var a :| 0 <= a < |mined| && mined[a] == i - c;
      assert f[c + 1 + a] == i;
    } else {
      var a :| 0 <= a < |left| && left[a] == i - c;
      assert f[c + 1 + |mined| + a] == i;
    }
  }

  /** A smaller number is listed earlier. */
  lemma Earlier(s: seq<nat>, a: nat, x: nat)
    requires Ascending(s, NatLess) && a < |s| && x in s && x < s[a]
    ensures exists k :: 0 <= k < a && s[k] == x
  {
    var k :| 0 <= k < |s| && s[k] == x;
    assert a < k ==> NatLess(s[a], s[k]);
  }

  lemma OriginKeepsParents(chain: seq<Loc>, pool: seq<Tx>, mined: seq<nat>, left: seq<nat>)
    requires Splits(|pool|, mined, left) && AncestorClosed(pool, mined)
    ensures KeepsParents(chain + Pool(pool), Origin(|chain|, mined, left))
  {
    var before, f := chain + Pool(pool), Origin(|chain|, mined, left);
    hide Splits, AncestorClosed, Origin, Creates, Pool;
    forall j, i, o | 0 <= j < |f| && 0 <= f[j] < |before| && 0 <= i < f[j] && o in before[f[j]].tx.inputs && Creates(before[i].tx, o)
      ensures exists k :: 0 <= k < j && f[k] == i
    {
      ParentAt(chain, pool, mined, left, j, i, o);
    }
  }

  lemma ParentAt(chain: seq<Loc>, pool: seq<Tx>, mined: seq<nat>, left: seq<nat>, j: nat, i: nat, o: OutPoint)
    requires Splits(|pool|, mined, left) && AncestorClosed(pool, mined)
    requires j < |Origin(|chain|, mined, left)| && i < Origin(|chain|, mined, left)[j] < |chain + Pool(pool)|
    requires o in (chain + Pool(pool))[Origin(|chain|, mined, left)[j]].tx.inputs && Creates((chain + Pool(pool))[i].tx, o)
    ensures exists k :: 0 <= k < j && Origin(|chain|, mined, left)[k] == i
  {
    hide Splits, AncestorClosed, Creates;
    var c := |chain|;
    if i < c {
      EarlyOrigin(c, mined, left, j, i);
    } else if j < c + 1 + |mined| {
      var a := MinedAt(c, mined, left, j);
      MinedParent(c, pool, mined, left, a, i - c, o);
    } else {
      var a := LeftAt(c, mined, left, j);
      LeftParent(c, |pool|, mined, left, a, i - c);
    }
  }

  lemma EarlyOrigin(c: nat, mined: seq<nat>, left: seq<nat>, j: nat, i: nat)
    requires i < c && j < c + 1 + |mined| + |left| && i < Origin(c, mined, left)[j]
    ensures i < j && Origin(c, mined, left)[i] == i
  {
    assert j < c ==> Origin(c, mined, left)[j] == j;
  }

  lemma MinedAt(c: nat, mined: seq<nat>, left: seq<nat>, j: nat) returns (a: nat)
    requires j < c + 1 + |mined| && Origin(c, mined, left)[j] > c
    ensures a < |mined| && j == c + 1 + a && Origin(c, mined, left)[j] == c + mined[a]
  {
    assert forall k :: 0 <= k < c ==> Origin(c, mined, left)[k] == k;
    a := j - c - 1;
    assert Origin(c, mined, left)[c + 1 + a] == c + mined[a];
  }

  lemma LeftAt(c: nat, mined: seq<nat>, left: seq<nat>, j: nat) returns (a: nat)
    requires c + 1 + |mined| <= j < c + 1 + |mined| + |left|
    ensures a < |left| && j == c + 1 + |mined| + a && Origin(c, mined, left)[j] == c + left[a]
  {
    a := j - c - 1 - |mined|;
    assert Origin(c, mined, left)[c + 1 + |mined| + a] == c + left[a];
  }

  lemma MinedParent(c: nat, pool: seq<Tx>, mined: seq<nat>, left: seq<nat>, a: nat, q: nat, o: OutPoint)
    requires Splits(|pool|, mined, left) && AncestorClosed(pool, mined)
    requires a < |mined| && q < mined[a] && o in pool[mined[a]].inputs && Creates(pool[q], o)
    ensures exists k :: 0 <= k < c + 1 + a && Origin(c, mined, left)[k] == c + q
  {
    assert mined[a] in mined && q in mined;
    Earlier(mined, a, q);
    var k :| 0 <= k < a && mined[k] == q;
    assert Origin(c, mined, left)[c + 1 + k] == c + q;
  }

  lemma LeftParent(c: nat, n: nat, mined: seq<nat>, left: seq<nat>, a: nat, q: nat)
    requires Splits(n, mined, left)
    requires a < |left| && q < left[a]
    ensures exists k :: 0 <= k < c + 1 + |mined| + a && Origin(c, mined, left)[k] == c + q
  {
    if q in mined {
      var k :| 0 <= k < |mined| && mined[k] == q;
      assert Origin(c, mined, left)[c + 1 + k] == c + q;
    } else {
      Earlier(left, a, q);
      var k :| 0 <= k < a && left[k] == q;
      assert Origin(c, mined, left)[c + 1 + |mined| + k] == c + q;
    }
  }

  /** The chain with the block, followed by what is left of the mempool, is a valid history, in
      which a script has its money and what the coinbase pays it. */
  lemma BlockIsRearrangement(script: Script, chain: seq<Loc>, block: seq<Loc>, coinbase: Tx,
                             pool: seq<Tx>, mined: seq<nat>, left: seq<nat>)
    requires Valid(chain + Pool(pool))
    requires Splits(|pool|, mined, left) && AncestorClosed(pool, mined)
    requires IsBlock(block, coinbase, pool, mined) && NewCoinbase(coinbase, chain, pool)
    ensures var after := chain + block + Pool(Chosen(pool, left));
            && Valid(chain + block) && Valid(after)
            && Money(Coins(after), script) == Money(Coins(chain + Pool(pool)), script) + NewFunded(script, coinbase)
  {
    var before, f := chain + Pool(pool), Origin(|chain|, mined, left);
    var after := chain + block + Pool(Chosen(pool, left));
    OriginRearranges(chain, block, coinbase, pool, mined, left);
    OriginKeepsParents(chain, pool, mined, left);
    hide Valid, Coins, Rearranges, KeepsParents, Origin, Money, IsBlock, NewCoinbase, AncestorClosed, Splits, NewFunded;
    BlockPrefix(chain, block, Pool(Chosen(pool, left)));
    RearrangedIsValid(before, after, f, |after|);
    RearrangedIsValid(before, after, f, |chain + block|);
    OnlyCoinbaseIsNew(chain, block, coinbase, pool, mined, left);
    RearrangedMoney(before, after, f, coinbase, script);
  }

  lemma OnlyCoinbaseIsNew(chain: seq<Loc>, block: seq<Loc>, coinbase: Tx, pool: seq<Tx>, mined: seq<nat>, left: seq<nat>)
    requires Splits(|pool|, mined, left) && IsBlock(block, coinbase, pool, mined)
    requires Rearranges(chain + Pool(pool), chain + block + Pool(Chosen(pool, left)), Origin(|chain|, mined, left))
    ensures Adds(chain + Pool(pool), chain + block + Pool(Chosen(pool, left)), Origin(|chain|, mined, left), coinbase)
  {
    forall i | 0 <= i < |chain + Pool(pool)| ensures i in Origin(|chain|, mined, left) {
      OriginCovers(|chain|, |pool|, mined, left, i);
    }
    hide Splits, Rearranges;
    var f := Origin(|chain|, mined, left);
    assert f[|chain|] < 0;
    assert (chain + block + Pool(Chosen(pool, left)))[|chain|].tx == coinbase;
  }

  lemma BlockPrefix<T>(a: seq<T>, b: seq<T>, c: seq<T>)
    ensures (a + b + c)[..|a + b|] == a + b && (a + b + c)[..|a + b + c|] == a + b + c
  {}

  /** When the index takes the block first, a script keeps its money: it is shown the same unspent
      outputs before the block, after the index has it but before the mempool is polled, and
      after the poll, together with what the coinbase pays it once the block is in. */
  lemma MiningChangesNoMoney(script: Script, chain: seq<Loc>, block: seq<Loc>, coinbase: Tx,
                             pool: seq<Tx>, mined: seq<nat>, left: seq<nat>, m: Maps, polled: Maps)
    requires Valid(chain + Pool(pool))
    requires Splits(|pool|, mined, left) && AncestorClosed(pool, mined)
    requires IsBlock(block, coinbase, pool, mined) && NewCoinbase(coinbase, chain, pool)
    requires Holds(m, pool) && Holds(polled, Chosen(pool, left))
    ensures Shown(m, script, chain + block) == Shown(m, script, chain) + NewFunded(script, coinbase)
    ensures Shown(polled, script, chain + block) == Shown(m, script, chain) + NewFunded(script, coinbase)
    ensures !Pays(coinbase, script) ==> NewFunded(script, coinbase) == map[]
  {
    var rest := Chosen(pool, left);
    BlockCatching(chain, block, coinbase, pool, mined, left);
    if !Pays(coinbase, script) { NothingPaid(script, Loc(coinbase, 0, 0)); }
    hide Valid, Coins, Holds, Catching, Shown, Money, Splits, AncestorClosed, IsBlock, NewCoinbase, Pays, NewFunded;
    BlockIsRearrangement(script, chain, block, coinbase, pool, mined, left);
    ChainIsValid(chain, Pool(pool));
    ShownIsReplayed(m, script, chain, pool, pool);
    ShownIsReplayed(m, script, chain + block, pool, rest);
    ShownIsReplayed(polled, script, chain + block, rest, rest);
  }

  lemma ChainIsValid(chain: seq<Loc>, more: seq<Loc>)
    requires Valid(chain + more)
    ensures Valid(chain)
  {
    hide Valid;
    ValidPrefix(chain + more, |chain|);
    assert (chain + more)[..|chain|] == chain;
  }

  lemma BlockCatching(chain: seq<Loc>, block: seq<Loc>, coinbase: Tx, pool: seq<Tx>, mined: seq<nat>, left: seq<nat>)
    requires Splits(|pool|, mined, left) && IsBlock(block, coinbase, pool, mined)
    ensures Catching(chain, pool, pool)
    ensures Catching(chain + block, pool, Chosen(pool, left))
    ensures Catching(chain + block, Chosen(pool, left), Chosen(pool, left))
  {
    var rest := Chosen(pool, left);
    forall i | 0 <= i < |pool| ensures InChain(chain + block, pool[i]) || pool[i] in rest {
      if i in mined {
        var a :| 0 <= a < |mined| && mined[a] == i;
        assert (chain + block)[|chain| + 1 + a].tx == pool[i];
      } else {
        var a :| 0 <= a < |left| && left[a] == i;
        assert rest[a] == pool[i];
      }
    }
  }

  // ---------------------------------------------------------------------- when the poll comes first

  ghost predicate SomeSpends(pool: seq<Tx>, nums: seq<nat>, o: OutPoint) {
    exists i :: i in nums && i < |pool| && o in pool[i].inputs
  }

  ghost predicate SomePays(pool: seq<Tx>, nums: seq<nat>, script: Script, o: OutPoint) {
    exists i :: i in nums && i < |pool| && o in PaidOutPoints(script, pool[i])
  }

  ghost predicate PoolSpends(pool: seq<Tx>, o: OutPoint) {
    exists i :: 0 <= i < |pool| && o in pool[i].inputs
  }

  ghost predicate PoolPays(pool: seq<Tx>, script: Script, o: OutPoint) {
    exists i :: 0 <= i < |pool| && o in PaidOutPoints(script, pool[i])
  }

  /** What the script has after the chain and the mempool, outpoint by outpoint. */
  lemma PoolMoney(script: Script, chain: seq<Loc>, pool: seq<Tx>, o: OutPoint)
    requires Valid(chain + Pool(pool))
    ensures Valid(chain)
    ensures var all, money := Money(Coins(chain + Pool(pool)), script), Money(Coins(chain), script);
            && (o in all <==> (o in money || PoolPays(pool, script, o)) && !PoolSpends(pool, o))
            && (o in all && o in money ==> all[o] == money[o])
            && (forall i :: 0 <= i < |pool| && o in PaidOutPoints(script, pool[i]) ==>
                  o !in money && (o in all ==> all[o] == pool[i].outputs[o.vout].value))
  {
    ChainIsValid(chain, Pool(pool));
    hide Valid, Coins;
    Parts(chain, pool, o);
    CoinsClosedForm(chain, o);
    CoinsClosedForm(chain + Pool(pool), o);
    if j :| 0 <= j < |pool| && Creates(pool[j], o) {
      OnlyCreator(chain, pool, j, o);
      CoinAt(chain + Pool(pool), |chain| + j, o);
    } else if n :| 0 <= n < |chain| && Creates(chain[n].tx, o) {
      assert (chain + Pool(pool))[n] == chain[n];
      CoinAt(chain, n, o);
      CoinAt(chain + Pool(pool), n, o);
    }
  }

  /** The index holds what is left of the mempool, none of which the script's rows have. */
  ghost predicate IndexesLeft(polled: Maps, pool: seq<Tx>, left: seq<nat>, seen: set<Txid>) {
    && Inverse(polled)
    && (forall i :: i in left ==> i < |pool| && pool[i].txid in polled.txs && Describes(polled.txs[pool[i].txid], pool[i]) && pool[i].txid !in seen)
    && (forall t :: t in polled.txs ==> exists i :: i in left && i < |pool| && pool[i].txid == t)
  }

  lemma LeftIndexed(script: Script, chain: seq<Loc>, pool: seq<Tx>, left: seq<nat>, polled: Maps)
    requires Valid(chain + Pool(pool)) && Valid(chain) && forall i :: 0 <= i < |left| ==> left[i] < |pool|
    requires Holds(polled, Chosen(pool, left))
    ensures IndexesLeft(polled, pool, left, MinedTxids(LedgerRows(script, chain)))
  {
    var seen, rest := MinedTxids(LedgerRows(script, chain)), Chosen(pool, left);
    hide Valid, LedgerRows, Inverse, MinedTxids, Describes;
    forall i | i in left ensures i < |pool| && pool[i].txid in polled.txs && Describes(polled.txs[pool[i].txid], pool[i]) && pool[i].txid !in seen {
      var a :| 0 <= a < |left| && left[a] == i;
      assert rest[a] == pool[i];
      MinedAreInChain(script, chain, pool, i);
    }
    forall t | t in polled.txs ensures exists i :: i in left && i < |pool| && pool[i].txid == t {
      var a :| 0 <= a < |rest| && rest[a].txid == t;
      assert left[a] in left && pool[left[a]].txid == t;
    }
  }

  /** What the polled index says of an outpoint while the chain lacks the block. */
  lemma PolledAhead(script: Script, pool: seq<Tx>, left: seq<nat>, polled: Maps, seen: set<Txid>, o: OutPoint)
    requires IndexesLeft(polled, pool, left, seen)
    ensures SpentIn(polled, seen, o) <==> SomeSpends(pool, left, o)
    ensures o in Pending(polled, script, seen) <==> SomePays(pool, left, script, o)
    ensures forall i :: i in left && o in PaidOutPoints(script, pool[i]) ==>
              o in Pending(polled, script, seen) && Pending(polled, script, seen)[o] == pool[i].outputs[o.vout].value
  {
    LeftSpends(pool, left, polled, seen, o);
    hide Inverse, Pending, SpentIn, SomeSpends;
    if PaysOut(polled, script, o) {
      var i :| i in left && i < |pool| && pool[i].txid == o.txid;
      assert o in PaidOutPoints(script, pool[i]);
    }
    forall i | i in left && o in PaidOutPoints(script, pool[i])
      ensures PaysOut(polled, script, o) && o.txid !in seen && polled.txs[o.txid].outputs[o.vout].value == pool[i].outputs[o.vout].value {}
  }

  lemma LeftSpends(pool: seq<Tx>, left: seq<nat>, polled: Maps, seen: set<Txid>, o: OutPoint)
    requires IndexesLeft(polled, pool, left, seen)
    ensures SpentIn(polled, seen, o) <==> SomeSpends(pool, left, o)
  {
    hide ByScriptExact;
    if SpentIn(polled, seen, o) {
      var i :| i in left && i < |pool| && pool[i].txid == polled.spentBy[o];
      assert o in pool[i].inputs;
    }
    if i :| i in left && i < |pool| && o in pool[i].inputs {
      assert o in polled.txs[pool[i].txid].spends;
    }
  }

  /** Of the mined transactions, none spends a coin the script has in the chain, and every output
      they pay the script is spent in the mempool. */
  ghost predicate NothingUnseen(script: Script, chain: seq<Loc>, pool: seq<Tx>, mined: seq<nat>) {
    && (forall o :: o in Money(Coins(chain), script) ==> !SomeSpends(pool, mined, o))
    && (forall o :: SomePays(pool, mined, script, o) ==> PoolSpends(pool, o))
  }

  /** How the two splits of the mempool share spends and payments of an outpoint. */
  lemma SplitAt(script: Script, chain: seq<Loc>, pool: seq<Tx>, mined: seq<nat>, left: seq<nat>, o: OutPoint)
    requires Valid(chain + Pool(pool)) && Splits(|pool|, mined, left) && AncestorClosed(pool, mined)
    ensures PoolSpends(pool, o) <==> SomeSpends(pool, mined, o) || SomeSpends(pool, left, o)
    ensures PoolPays(pool, script, o) <==> SomePays(pool, mined, script, o) || SomePays(pool, left, script, o)
    ensures SomeSpends(pool, mined, o) ==> !SomeSpends(pool, left, o)
    ensures SomePays(pool, left, script, o) ==> !SomeSpends(pool, mined, o)
    ensures SomePays(pool, mined, script, o) ==> !SomePays(pool, left, script, o)
  {
    hide Valid, Ascending, AncestorClosed;
    forall i, k | i in mined && k in left && i < |pool| && k < |pool|
      ensures !(o in pool[i].inputs && o in pool[k].inputs)
      ensures !(Creates(pool[i], o) && Creates(pool[k], o))
      ensures !(Creates(pool[k], o) && o in pool[i].inputs)
    {
      PairApart(chain, pool, mined, left, i, k, o);
    }
  }

  lemma PairApart(chain: seq<Loc>, pool: seq<Tx>, mined: seq<nat>, left: seq<nat>, i: nat, k: nat, o: OutPoint)
    requires Valid(chain + Pool(pool)) && Splits(|pool|, mined, left) && AncestorClosed(pool, mined)
    requires i in mined && k in left && i < |pool| && k < |pool|
    ensures !(o in pool[i].inputs && o in pool[k].inputs)
    ensures !(Creates(pool[i], o) && Creates(pool[k], o))
    ensures !(Creates(pool[k], o) && o in pool[i].inputs)
  {
    hide Valid, Ascending;
    var all, c := chain + Pool(pool), |chain|;
    assert all[c + i].tx == pool[i] && all[c + k].tx == pool[k];
    var a, b := if i < k then c + i else c + k, if i < k then c + k else c + i;
    UniqueTxids(all, a, b);
    if o in all[a].tx.inputs { UniqueSpender(all, a, b, o); }
    if o in pool[i].inputs {
      var n := CreatedBeforeSpent(all, c + i, o);
      SameCreator(all, n, c + k, o);
    }
  }

  lemma SameCreator(all: seq<Loc>, i: nat, k: nat, o: OutPoint)
    requires Valid(all) && i < |all| && k < |all| && Creates(all[i].tx, o)
    ensures Creates(all[k].tx, o) ==> i == k
  {
    hide Valid;
    if i < k { UniqueTxids(all, i, k); }
    if k < i { UniqueTxids(all, k, i); }
  }

  /** Which outpoints, of those shown before the poll and those shown after it, differ. */
  ghost predicate AheadAt(script: Script, money: map<OutPoint, nat>, pool: seq<Tx>, mined: seq<nat>,
                          all: map<OutPoint, nat>, ahead: map<OutPoint, nat>, o: OutPoint) {
    && (o in ahead && o !in all <==> o in money && SomeSpends(pool, mined, o))
    && (o in all && o !in ahead <==> SomePays(pool, mined, script, o) && !PoolSpends(pool, o))
    && (o in all && o in ahead ==> all[o] == ahead[o])
  }

  lemma PollFirstAt(script: Script, chain: seq<Loc>, pool: seq<Tx>, mined: seq<nat>, left: seq<nat>, polled: Maps, o: OutPoint)
    requires Valid(chain + Pool(pool)) && Valid(chain) && Splits(|pool|, mined, left) && AncestorClosed(pool, mined)
    requires Holds(polled, Chosen(pool, left))
    ensures var money, all := Money(Coins(chain), script), Money(Coins(chain + Pool(pool)), script);
            AheadAt(script, money, pool, mined, all, Unspent(polled, script, money, MinedTxids(LedgerRows(script, chain))), o)
  {
    var seen := MinedTxids(LedgerRows(script, chain));
    hide Valid, Coins, LedgerRows, Holds, Money, AncestorClosed, MinedTxids, Splits, IndexesLeft;
    LeftOfPool(|pool|, mined, left);
    LeftIndexed(script, chain, pool, left, polled);
    PoolMoney(script, chain, pool, o);
    PolledAhead(script, pool, left, polled, seen, o);
    SplitAt(script, chain, pool, mined, left, o);
    PoolPaysOf(pool, script, o, left);
    hide SomeSpends, PoolSpends, SpentIn, Pending, SomePays, PoolPays, PaidOutPoints;
    UnspentAt(polled, script, Money(Coins(chain), script), seen, o);
    hide Unspent;
  }

  lemma LeftOfPool(n: nat, mined: seq<nat>, left: seq<nat>)
    requires Splits(n, mined, left)
    ensures forall i :: 0 <= i < |left| ==> left[i] < n
  {}

  /** A payment has a payer among those that pay it. */
  lemma PoolPaysOf(pool: seq<Tx>, script: Script, o: OutPoint, left: seq<nat>)
    ensures SomePays(pool, left, script, o) ==> exists i :: i in left && i < |pool| && o in PaidOutPoints(script, pool[i])
  {}

  lemma UnspentAt(m: Maps, script: Script, confirmed: map<OutPoint, nat>, seen: set<Txid>, o: OutPoint)
    ensures var u, pending := Unspent(m, script, confirmed, seen), Pending(m, script, seen);
            && (o in u <==> (o in confirmed || o in pending) && !SpentIn(m, seen, o))
            && (o in u && o in confirmed && o !in pending ==> u[o] == confirmed[o])
            && (o in u && o in pending ==> u[o] == pending[o])
  {
    hide Pending, SpentIn;
  }

  /** When the mempool poll comes before the index refresh, a mined transaction is in neither for a
      while. Outpoint by outpoint: shown too much is a coin of the chain that was spent by a mined
      transaction, and missing is an output paid by one and not spent. */
  lemma PollFirst(script: Script, chain: seq<Loc>, pool: seq<Tx>, mined: seq<nat>, left: seq<nat>, m: Maps, polled: Maps)
    requires Valid(chain + Pool(pool))
    requires Splits(|pool|, mined, left) && AncestorClosed(pool, mined)
    requires Holds(m, pool) && Holds(polled, Chosen(pool, left))
    ensures forall o :: AheadAt(script, Money(Coins(chain), script), pool, mined, Shown(m, script, chain), Shown(polled, script, chain), o)
  {
    ChainIsValid(chain, Pool(pool));
    SelfCatching(chain, pool);
    hide Valid, Coins, LedgerRows, Holds, Catching, FoldAll, Unspent, Money, Confirmed, MinedTxids, Splits, AncestorClosed, AheadAt;
    ShownIsReplayed(m, script, chain, pool, pool);
    FoldedWallet(script, chain);
    forall o ensures AheadAt(script, Money(Coins(chain), script), pool, mined, Shown(m, script, chain), Shown(polled, script, chain), o) {
      PollFirstAt(script, chain, pool, mined, left, polled, o);
    }
  }

  /** So what a script is shown in between is its money if and only if nothing is unseen. */
  lemma PollFirstExactly(script: Script, chain: seq<Loc>, pool: seq<Tx>, mined: seq<nat>, left: seq<nat>, m: Maps, polled: Maps)
    requires Valid(chain + Pool(pool))
    requires Splits(|pool|, mined, left) && AncestorClosed(pool, mined)
    requires Holds(m, pool) && Holds(polled, Chosen(pool, left))
    ensures Shown(polled, script, chain) == Shown(m, script, chain) <==> NothingUnseen(script, chain, pool, mined)
  {
    PollFirst(script, chain, pool, mined, left, m, polled);
    hide Valid, Coins, Holds, Shown, Money, Splits, AncestorClosed, AheadAt, NothingUnseen;
    SameIfUnseen(script, chain, pool, mined, Shown(m, script, chain), Shown(polled, script, chain));
  }

  lemma SelfCatching(chain: seq<Loc>, pool: seq<Tx>)
    ensures Catching(chain, pool, pool)
  {}

  lemma SameIfUnseen(script: Script, chain: seq<Loc>, pool: seq<Tx>, mined: seq<nat>, all: map<OutPoint, nat>, ahead: map<OutPoint, nat>)
    requires forall o :: AheadAt(script, Money(Coins(chain), script), pool, mined, all, ahead, o)
    ensures ahead == all <==> NothingUnseen(script, chain, pool, mined)
  {
    hide Coins, Money, SomeSpends, SomePays, PoolSpends;
    if ahead == all {
      forall o ensures o in Money(Coins(chain), script) ==> !SomeSpends(pool, mined, o)
        ensures SomePays(pool, mined, script, o) ==> PoolSpends(pool, o)
      {
        assert AheadAt(script, Money(Coins(chain), script), pool, mined, all, ahead, o);
      }
    }
    if NothingUnseen(script, chain, pool, mined) {
      forall o ensures (o in ahead <==> o in all) && (o in ahead ==> ahead[o] == all[o]) {
        assert AheadAt(script, Money(Coins(chain), script), pool, mined, all, ahead, o);
      }
      SameMap(ahead, all);
    }
  }

  /** A payment that was mined is shown by neither half until the index is refreshed. */
  lemma PollFirstHidesPayment(script: Script, value: nat, m: Maps, polled: Maps)
    requires var tx := Tx(1, [], [Output(script, value)], [0]); Holds(m, [tx]) && Holds(polled, [])
    ensures OutPoint(1, 0) in Shown(m, script, []) && OutPoint(1, 0) !in Shown(polled, script, [])
  {
    var tx, none: seq<Loc> := Tx(1, [], [Output(script, value)], [0]), [];
    var pool, mined: seq<nat>, left: seq<nat>, o := [tx], [0], [], OutPoint(1, 0);
    ValidAlone(none, pool);
    BothEmpty(Chosen(pool, left), []);
    assert AncestorClosed(pool, mined);
    PaysAlone(script, pool, mined, o);
    hide Valid, Coins, Holds, Shown, Money, AncestorClosed, SomePays, PoolSpends, SomeSpends, Pool;
    PollFirst(script, none, pool, mined, left, m, polled);
    assert AheadAt(script, Money(Coins(none), script), pool, mined, Shown(m, script, none), Shown(polled, script, none), o);
  }

  lemma PaysAlone(script: Script, pool: seq<Tx>, mined: seq<nat>, o: OutPoint)
    requires |pool| == 1 && mined == [0] && |pool[0].inputs| == 0 && o in PaidOutPoints(script, pool[0])
    ensures SomePays(pool, mined, script, o) && !PoolSpends(pool, o)
  {
    assert 0 in mined;
  }

  lemma ValidAlone(none: seq<Loc>, pool: seq<Tx>)
    requires |none| == 0 && |pool| == 1 && |pool[0].inputs| == 0
    ensures Valid(none) && Valid(none + Pool(pool))
  {
    hide Coins;
    var all := none + Pool(pool);
    assert Follows(all[..0], all[0].tx);
  }

  /** The balances a wallet is sent: confirmed plus unconfirmed is the value of what it is shown,
      whatever the chain and the mempool index, so it is kept whenever what is shown is. */
  lemma BalanceIsShown(script: Script, chain: seq<Loc>, m: Maps, view: View)
    requires Valid(chain)
    requires var f := FoldAll(script, chain);
             IsViewOf(view, m, script, Confirmed(f.live), MinedTxids(f.tally.rows))
    ensures Total(Confirmed(FoldAll(script, chain).live)) + view.delta == Total(Shown(m, script, chain))
  {
    hide Valid, Coins, FoldAll, Money, LedgerRows, IsViewOf, Unspent, Confirmed, MinedTxids, Total;
    FoldedWallet(script, chain);
    var f := FoldAll(script, chain);
    BalanceIsUnspent(view, m, script, Confirmed(f.live), MinedTxids(f.tally.rows));
  }

  /** A poll in which the node answers for everything it lists leaves an index that holds exactly
      the listed transactions: what the statements above ask of the polled index. */
  lemma FullPollHolds(before: set<Txid>, m: Maps, entries: map<Txid, EntryInfo>, fetch: map<Txid, Tx>, bodies: map<Txid, Tx>, pool: seq<Tx>)
    requires Inverse(m) && Sourced(m.txs, bodies)
    requires forall t :: t in m.txs <==> t in entries && (t in before || Answered(fetch, t))
    requires forall t :: t in entries ==> t in before || Answered(fetch, t)
    requires forall i :: 0 <= i < |pool| ==> pool[i].txid in entries && pool[i].txid in bodies && pool[i] == bodies[pool[i].txid]
    requires forall t :: t in entries ==> exists i :: 0 <= i < |pool| && pool[i].txid == t
    ensures Holds(m, pool)
  {
    hide Inverse, Describes, Answered;
  }
}
