/** A script's confirmed state and its mempool view together: balances, unspent outputs and
    history, and why mining a transaction changes none of the money. */
module Wallet {
  import opened Collections
  import opened Ledger
  import opened ScriptFold
  import opened Replay
  import opened Mempool
  import opened MempoolView

  // --------------------------------------------------------------------- combining the two halves

  /** The confirmed unspent outputs the view is given: outpoints and values. */
  function Confirmed(live: map<OutPoint, Utxo>): map<OutPoint, nat> {
    map o | o in live :: live[o].value
  }

  /** The transactions already in the script's confirmed history. */
  function MinedTxids(rows: seq<Row>): set<Txid> {
    set i | 0 <= i < |rows| :: rows[i].txid
  }

  /** Confirmed outputs the mempool does not spend, and pending ones it does not spend. */
  function Unspent(m: Maps, script: Script, confirmed: map<OutPoint, nat>, mined: set<Txid>): map<OutPoint, nat> {
    var pending := Pending(m, script, mined);
    (confirmed - SpentOf(m, mined, confirmed)) + (pending - SpentOf(m, mined, pending))
  }

  /** No outpoint is both confirmed and pending: a confirmed output's transaction is in the
      confirmed rows, and those are skipped. */
  lemma NoOutpointTwice(m: Maps, script: Script, confirmed: map<OutPoint, nat>, mined: set<Txid>)
    requires forall o :: o in confirmed ==> o.txid in mined
    ensures confirmed.Keys !! Pending(m, script, mined).Keys
  {}

  /** The confirmed balance plus the mempool's net effect is the sum of the unspent list. */
  lemma BalanceIsUnspent(view: View, m: Maps, script: Script, confirmed: map<OutPoint, nat>, mined: set<Txid>)
    requires IsViewOf(view, m, script, confirmed, mined)
    requires forall o :: o in confirmed ==> o.txid in mined
    ensures Total(confirmed) + view.delta == Total(Unspent(m, script, confirmed, mined))
  {
    NoOutpointTwice(m, script, confirmed, mined);
    var pending := Pending(m, script, mined);
    var lost, moved := SpentOf(m, mined, confirmed), SpentOf(m, mined, pending);
    hide Pending, SpentOf, EntriesOk, UtxosOk, Total, Only;
    TotalSplit(confirmed, lost);
    TotalSplit(pending, moved);
    TotalUnion(confirmed - lost, pending - moved);
  }

  datatype HistoryEntry = HistoryEntry(txid: Txid, height: int)

  /** The history a client is sent: one entry per row, then one per view entry. */
  function HistoryEntries(rows: seq<Row>, entries: seq<Entry>): (r: seq<HistoryEntry>)
    ensures |r| == |rows| + |entries|
    ensures forall i :: 0 <= i < |rows| ==> r[i] == HistoryEntry(rows[i].txid, rows[i].height)
    ensures forall i :: 0 <= i < |entries| ==> r[|rows| + i] == HistoryEntry(entries[i].txid, entries[i].height)
  {
    seq(|rows|, i requires 0 <= i < |rows| => HistoryEntry(rows[i].txid, rows[i].height)) +
    seq(|entries|, i requires 0 <= i < |entries| => HistoryEntry(entries[i].txid, entries[i].height))
  }

  /** No transaction is listed twice in a script's history. */
  lemma NoTxidTwice(script: Script, locs: seq<Loc>, view: View, m: Maps, confirmed: map<OutPoint, nat>)
    requires Valid(locs)
    requires IsViewOf(view, m, script, confirmed, MinedTxids(FoldAll(script, locs).tally.rows))
    ensures var h := HistoryEntries(FoldAll(script, locs).tally.rows, view.entries);
            forall i, j :: 0 <= i < j < |h| ==> h[i].txid != h[j].txid
  {
    var rows := FoldAll(script, locs).tally.rows;
    hide Valid, FoldAll, EntriesOk, UtxosOk, Pending, SpentOf, LedgerRows, MinedTxids, FundedExactly, LiveMatches, CountsMatch, PeakMatches, Touches;
    RowTxidsDistinct(script, locs);
    FoldIsReplay(script, locs);
    EntriesDistinct(view.entries, m, script, confirmed.Keys, MinedTxids(rows));
    hide IsViewOf;
    JoinedDistinct(rows, view.entries);
  }

  lemma JoinedDistinct(rows: seq<Row>, entries: seq<Entry>)
    requires forall i, j :: 0 <= i < j < |rows| ==> rows[i].txid != rows[j].txid
    requires forall i, j :: 0 <= i < j < |entries| ==> entries[i].txid != entries[j].txid
    requires forall i :: 0 <= i < |entries| ==> entries[i].txid !in MinedTxids(rows)
    ensures var h := HistoryEntries(rows, entries); forall i, j :: 0 <= i < j < |h| ==> h[i].txid != h[j].txid
  {
    assert forall i :: 0 <= i < |rows| ==> rows[i].txid in MinedTxids(rows);
  }

  lemma EntriesDistinct(entries: seq<Entry>, m: Maps, script: Script, confirmed: set<OutPoint>, mined: set<Txid>)
    requires EntriesOk(entries, m, script, confirmed, mined)
    ensures forall i, j :: 0 <= i < j < |entries| ==> entries[i].txid != entries[j].txid
    ensures forall i :: 0 <= i < |entries| ==> entries[i].txid !in mined
  {
    hide InHistory, EntryOf;
    forall i | 0 <= i < |entries| ensures entries[i].txid !in mined { assert entries[i] in entries; }
    forall i, j | 0 <= i < j < |entries| ensures entries[i].txid != entries[j].txid {
      assert entries[i] in entries && entries[j] in entries;
      assert EntryLess(entries[i], entries[j]);
    }
  }

  /** The rows of a history are exactly the transactions that touch the script, once each. */
  lemma {:induction false} RowTxidsDistinct(script: Script, locs: seq<Loc>)
    requires Valid(locs)
    ensures forall i, j :: 0 <= i < j < |LedgerRows(script, locs)| ==> LedgerRows(script, locs)[i].txid != LedgerRows(script, locs)[j].txid
    ensures forall t :: t in MinedTxids(LedgerRows(script, locs)) ==> exists n :: 0 <= n < |locs| && locs[n].tx.txid == t
    ensures forall n :: 0 <= n < |locs| && Touches(locs, n, script) ==> locs[n].tx.txid in MinedTxids(LedgerRows(script, locs))
    decreases |locs|
  {
    if |locs| > 0 {
      var init, l := locs[..|locs|-1], locs[|locs|-1];
      ValidSnoc(locs);
      RowTxidsDistinct(script, init);
      RowTxidsStep(script, init, l);
    }
  }

  lemma RowTxidsStep(script: Script, init: seq<Loc>, l: Loc)
    requires forall i :: 0 <= i < |init| ==> init[i].tx.txid != l.tx.txid
    requires var rows := LedgerRows(script, init);
             && (forall i, j :: 0 <= i < j < |rows| ==> rows[i].txid != rows[j].txid)
             && (forall t :: t in MinedTxids(rows) ==> exists n :: 0 <= n < |init| && init[n].tx.txid == t)
             && (forall n :: 0 <= n < |init| && Touches(init, n, script) ==> init[n].tx.txid in MinedTxids(rows))
    ensures var rows, locs := LedgerRows(script, init + [l]), init + [l];
            && (forall i, j :: 0 <= i < j < |rows| ==> rows[i].txid != rows[j].txid)
            && (forall t :: t in MinedTxids(rows) ==> exists n :: 0 <= n < |locs| && locs[n].tx.txid == t)
            && (forall n :: 0 <= n < |locs| && Touches(locs, n, script) ==> locs[n].tx.txid in MinedTxids(rows))
  {
    var before, after, locs := LedgerRows(script, init), LedgerRows(script, init + [l]), init + [l];
    LedgerRowsSnoc(script, init, l);
    Snoc(init, l);
    TouchesSnoc(script, init, l);
    hide LedgerRows, Touches, Pays, SpendsFrom, Coins, Money;
    forall i | 0 <= i < |before| ensures before[i].txid != l.tx.txid {
      assert before[i].txid in MinedTxids(before);
    }
    forall t | t in MinedTxids(after) ensures exists n :: 0 <= n < |locs| && locs[n].tx.txid == t {
      var i :| 0 <= i < |after| && after[i].txid == t;
      if i < |before| {
        assert before[i].txid in MinedTxids(before);
        var n :| 0 <= n < |init| && init[n].tx.txid == t;
        assert locs[n].tx.txid == t;
      } else {
        assert locs[|init|].tx.txid == t;
      }
    }
    forall n | 0 <= n < |locs| && Touches(locs, n, script) ensures locs[n].tx.txid in MinedTxids(after) {
      if n < |init| {
        assert Touches(init, n, script);
        var i :| 0 <= i < |before| && before[i].txid == init[n].tx.txid;
        assert after[i] == before[i];
      } else {
        assert after[|before|].txid == l.tx.txid;
      }
    }
  }

  lemma TouchesSnoc(script: Script, init: seq<Loc>, l: Loc)
    ensures forall n :: 0 <= n < |init| ==> (Touches(init + [l], n, script) <==> Touches(init, n, script))
    ensures Touches(init + [l], |init|, script) <==> Pays(l.tx, script) || SpendsFrom(Coins(init), l.tx, script)
  {
    hide Coins, Pays, SpendsFrom;
    Snoc(init, l);
  }

  /** What a wallet is shown as unspent, from an index at `chain` and a mempool index `m`. */
  function Shown(m: Maps, script: Script, chain: seq<Loc>): map<OutPoint, nat> {
    var f := FoldAll(script, chain);
    Unspent(m, script, Confirmed(f.live), MinedTxids(f.tally.rows))
  }

  lemma FoldedWallet(script: Script, chain: seq<Loc>)
    requires Valid(chain)
    ensures var f := FoldAll(script, chain);
            Confirmed(f.live) == Money(Coins(chain), script) && f.tally.rows == LedgerRows(script, chain)
    ensures forall o :: o in Money(Coins(chain), script) ==> o.txid in MinedTxids(LedgerRows(script, chain))
  {
    FoldIsReplay(script, chain);
    RowTxidsDistinct(script, chain);
    var f := FoldAll(script, chain);
    OwnedMoney(Coins(chain), script);
    forall o | o in Money(Coins(chain), script) ensures o.txid in MinedTxids(LedgerRows(script, chain)) {
      CoinsClosedForm(chain, o);
      var i :| 0 <= i < |chain| && Creates(chain[i].tx, o);
      assert Coins(chain)[o] == CoinOf(chain[i], o);
      assert chain[i].tx.outputs[o.vout].script == script;
      assert Touches(chain, i, script);
    }
  }

  lemma OwnedMoney(coins: map<OutPoint, Coin>, script: Script)
    ensures Confirmed(Owned(coins, script)) == Money(coins, script)
  {}
}
