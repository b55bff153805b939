/** Finished histories: the unspent outputs in outpoint order, rows in chain order, and the
    listing of unspent outputs a wallet is sent. */
module Histories {
  import opened Collections
  import opened Ledger
  import opened ScriptFold
  import opened Replay
  import opened Chain
  import opened Mempool
  import opened MempoolView
  import opened Wallet

  /** A finished history: `utxos` is listed ascending by outpoint. */
  datatype History = History(tally: Tally, utxos: seq<Utxo>)

  predicate OutPointLess(a: OutPoint, b: OutPoint) {
    a.txid < b.txid || (a.txid == b.txid && a.vout < b.vout)
  }

  /** By outpoint; the other fields never decide, since an outpoint is listed once. */
  predicate UtxoLess(a: Utxo, b: Utxo) {
    OutPointLess(a.outpoint, b.outpoint) ||
    (a.outpoint == b.outpoint && (a.value < b.value || (a.value == b.value &&
      (a.height < b.height || (a.height == b.height && a.position < b.position)))))
  }

  /** By place in the chain, then output index. */
  predicate PlaceLess(a: Utxo, b: Utxo) {
    a.height < b.height || (a.height == b.height &&
      (a.position < b.position || (a.position == b.position &&
        (a.outpoint.vout < b.outpoint.vout || (a.outpoint.vout == b.outpoint.vout &&
          (a.outpoint.txid < b.outpoint.txid || (a.outpoint.txid == b.outpoint.txid && a.value < b.value)))))))
  }

  lemma UtxoOrder()
    ensures StrictTotalOrder(UtxoLess)
  {}

  lemma PlaceOrder()
    ensures StrictTotalOrder(PlaceLess)
  {}

  function UtxosIn(live: map<OutPoint, Utxo>): set<Utxo> {
    set o | o in live :: live[o]
  }

  /** Lists a map's values in key order. */
  function Finish(f: State): History {
    UtxoOrder();
    History(f.tally, SortSet(UtxosIn(f.live), UtxoLess))
  }

  /** The finished listing is exactly the live outputs, ascending by outpoint. */
  lemma FinishLists(script: Script, locs: seq<Loc>)
    requires Valid(locs)
    ensures var f := FoldAll(script, locs);
            var u := Finish(f).utxos;
            && SetOf(u) == UtxosIn(f.live)
            && (forall i, j :: 0 <= i < j < |u| ==>
                  u[i].outpoint.txid < u[j].outpoint.txid || (u[i].outpoint.txid == u[j].outpoint.txid && u[i].outpoint.vout < u[j].outpoint.vout))
  {
    var f := FoldAll(script, locs);
    assert forall o :: o in f.live ==> f.live[o].outpoint == o by {
      hide Valid, Coins, FoldFrom;
      FoldIsReplay(script, locs);
    }
    hide Valid, FoldAll;
    UtxoOrder();
    SortSetAscending(UtxosIn(f.live), UtxoLess);
    hide StrictTotalOrder, SortSet;
    var u := Finish(f).utxos;
    forall i, j | 0 <= i < j < |u| ensures OutPointLess(u[i].outpoint, u[j].outpoint) {
      assert u[i] in SetOf(u) && u[j] in SetOf(u);
      assert UtxoLess(u[i], u[j]);
    }
  }

  // ------------------------------------------------------------------------------ order of rows

  predicate Before(h1: nat, p1: nat, h2: nat, p2: nat) { h1 < h2 || (h1 == h2 && p1 < p2) }

  ghost predicate InOrder(locs: seq<Loc>) {
    forall i, j :: 0 <= i < j < |locs| ==> Before(locs[i].height, locs[i].position, locs[j].height, locs[j].position)
  }

  /** Transaction numbers follow heights and positions. */
  lemma {:induction false} LocsInOrder(chain: seq<Block>)
    ensures InOrder(Locs(chain)) && forall i :: 0 <= i < |Locs(chain)| ==> Locs(chain)[i].height < |chain|
    decreases |chain|
  {
    if |chain| > 0 {
      var init, last := chain[..|chain|-1], chain[|chain|-1];
      LocsInOrder(init);
      Split(chain);
      LocsSnoc(init, last);
    }
  }

  /** A history's rows come in chain order, so sorting them by place changes nothing. */
  lemma {:induction false} RowsInOrder(script: Script, locs: seq<Loc>)
    requires InOrder(locs)
    ensures var rows := LedgerRows(script, locs);
            && (forall i, j :: 0 <= i < j < |rows| ==> Before(rows[i].height, rows[i].position, rows[j].height, rows[j].position))
            && (forall i :: 0 <= i < |rows| ==> exists n :: 0 <= n < |locs| && rows[i].height == locs[n].height && rows[i].position == locs[n].position)
    decreases |locs|
  {
    if |locs| > 0 {
      var init, l := locs[..|locs|-1], locs[|locs|-1];
      Split(locs);
      RowsInOrder(script, init);
      LedgerRowsSnoc(script, init, l);
      hide LedgerRows, Coins, Pays, SpendsFrom, Money;
      var before, rows := LedgerRows(script, init), LedgerRows(script, locs);
      forall i | 0 <= i < |rows|
        ensures exists n :: 0 <= n < |locs| && rows[i].height == locs[n].height && rows[i].position == locs[n].position
        ensures i < |before| ==> Before(rows[i].height, rows[i].position, l.height, l.position)
      {
        if i < |before| {
          var n :| 0 <= n < |init| && before[i].height == init[n].height && before[i].position == init[n].position;
          assert locs[n] == init[n];
        } else {
          assert locs[|init|] == l;
        }
      }
    }
  }

  // ------------------------------------------------------------------------------ unspent listing

  datatype UnspentRow = UnspentRow(outpoint: OutPoint, height: nat, value: nat)

  function ConfirmedLeft(live: map<OutPoint, Utxo>, spent: set<OutPoint>): set<Utxo> {
    set o | o in live && o !in spent :: live[o]
  }

  /** What `listunspent` sends: the live outputs the view does not mark as spent, sorted by place,
      followed by the view's own outputs. */
  function ListUnspent(live: map<OutPoint, Utxo>, view: View): seq<UnspentRow> {
    PlaceOrder();
    ConfirmedRows(SortSet(ConfirmedLeft(live, view.spentConfirmed), PlaceLess)) + PendingRows(view.utxos)
  }

  function ConfirmedRows(a: seq<Utxo>): seq<UnspentRow> {
    seq(|a|, i requires 0 <= i < |a| => UnspentRow(a[i].outpoint, a[i].height, a[i].value))
  }

  function PendingRows(b: seq<Paid>): seq<UnspentRow> {
    seq(|b|, i requires 0 <= i < |b| => UnspentRow(b[i].outpoint, 0, b[i].value))
  }

  /** The rows are exactly the unspent outpoints, each once, with its value. */
  ghost predicate Lists(rows: seq<UnspentRow>, unspent: map<OutPoint, nat>) {
    && (forall i, j :: 0 <= i < j < |rows| ==> rows[i].outpoint != rows[j].outpoint)
    && (forall i :: 0 <= i < |rows| ==> rows[i].outpoint in unspent && unspent[rows[i].outpoint] == rows[i].value)
    && (forall o :: o in unspent ==> exists i :: 0 <= i < |rows| && rows[i].outpoint == o)
  }

  /** A wallet's listing is its unspent outputs. */
  lemma ListingIsUnspent(m: Maps, script: Script, live: map<OutPoint, Utxo>, mined: set<Txid>, view: View)
    requires IsViewOf(view, m, script, Confirmed(live), mined)
    requires forall o :: o in live ==> live[o].outpoint == o && o.txid in mined
    ensures Lists(ListUnspent(live, view), Unspent(m, script, Confirmed(live), mined))
  {
    hide Pending, SpentOf, StrictTotalOrder, SortSet, Unspent, IsViewOf, UtxosOk, ConfirmedLeft, Lists, ConfirmedRows, PendingRows;
    var pending := Pending(m, script, mined);
    var left := pending - SpentOf(m, mined, pending);
    ViewParts(m, script, Confirmed(live), mined, view);
    var a := ConfirmedListing(live, view.spentConfirmed);
    PendingListing(m, mined, pending, view.utxos);
    NoOutpointTwice(m, script, Confirmed(live), mined);
    JoinListings(live, view.spentConfirmed, a, left, view.utxos, pending);
  }

  /** The first `n` rows are live outputs with their heights, by height, position in the block and
      output index. */
  ghost predicate ByPlace(rows: seq<UnspentRow>, n: nat, live: map<OutPoint, Utxo>) {
    && n <= |rows| && (forall i :: 0 <= i < n ==> rows[i].outpoint in live && rows[i].height == live[rows[i].outpoint].height)
    && (forall i, j :: 0 <= i < j < n ==>
          var a, b := live[rows[i].outpoint], live[rows[j].outpoint];
          a.height < b.height || (a.height == b.height &&
            (a.position < b.position || (a.position == b.position && rows[i].outpoint.vout <= rows[j].outpoint.vout))))
  }

  /** The rows from `n` on have height 0 and go by txid and output index. */
  ghost predicate ByOutPoint(rows: seq<UnspentRow>, n: nat) {
    && (forall i :: n <= i < |rows| ==> rows[i].height == 0)
    && (forall i, j :: n <= i < j < |rows| ==>
          rows[i].outpoint.txid < rows[j].outpoint.txid ||
          (rows[i].outpoint.txid == rows[j].outpoint.txid && rows[i].outpoint.vout <= rows[j].outpoint.vout))
  }

  /** The confirmed rows come first, in chain order; then the pending ones at height 0. */
  lemma ListingInOrder(live: map<OutPoint, Utxo>, view: View)
    requires (forall o :: o in live ==> live[o].outpoint == o) && Ascending(view.utxos, PaidLess)
    ensures var rows, n := ListUnspent(live, view), |ConfirmedLeft(live, view.spentConfirmed)|;
            |rows| == n + |view.utxos| && ByPlace(rows, n, live) && ByOutPoint(rows, n)
  {
    var a := ConfirmedListing(live, view.spentConfirmed);
    SortSetAscending(ConfirmedLeft(live, view.spentConfirmed), PlaceLess);
    hide StrictTotalOrder, SortSet, ConfirmedLeft, ByPlace, ByOutPoint, Ascending;
    ConfirmedInOrder(live, a, PendingRows(view.utxos));
    PendingInOrder(ConfirmedRows(a), view.utxos);
  }

  lemma ConfirmedInOrder(live: map<OutPoint, Utxo>, a: seq<Utxo>, rest: seq<UnspentRow>)
    requires Ascending(a, PlaceLess) && forall i :: 0 <= i < |a| ==> a[i].outpoint in live && live[a[i].outpoint] == a[i]
    ensures ByPlace(ConfirmedRows(a) + rest, |a|, live)
  {
    forall i, j | 0 <= i < j < |a| ensures PlaceLess(a[i], a[j]) {}
  }

  lemma PendingInOrder(first: seq<UnspentRow>, b: seq<Paid>)
    requires Ascending(b, PaidLess)
    ensures ByOutPoint(first + PendingRows(b), |first|)
  {
    var rows := first + PendingRows(b);
    forall i, j | |first| <= i < j < |rows|
      ensures rows[i].outpoint.txid < rows[j].outpoint.txid ||
              (rows[i].outpoint.txid == rows[j].outpoint.txid && rows[i].outpoint.vout <= rows[j].outpoint.vout)
    {
      assert PaidLess(b[i - |first|], b[j - |first|]);
    }
  }

  lemma ViewParts(m: Maps, script: Script, confirmed: map<OutPoint, nat>, mined: set<Txid>, view: View)
    requires IsViewOf(view, m, script, confirmed, mined)
    ensures UtxosOk(view.utxos, m, mined, Pending(m, script, mined))
    ensures var pending := Pending(m, script, mined);
            Unspent(m, script, confirmed, mined) == (confirmed - view.spentConfirmed) + (pending - SpentOf(m, mined, pending))
  {
    hide EntriesOk, UtxosOk, Total, Only, Pending;
  }

  lemma ConfirmedListing(live: map<OutPoint, Utxo>, spent: set<OutPoint>) returns (a: seq<Utxo>)
    requires forall o :: o in live ==> live[o].outpoint == o
    ensures StrictTotalOrder(PlaceLess) && a == SortSet(ConfirmedLeft(live, spent), PlaceLess)
    ensures && (forall i, j :: 0 <= i < j < |a| ==> a[i].outpoint != a[j].outpoint)
            && (forall i :: 0 <= i < |a| ==> a[i].outpoint in live && a[i].outpoint !in spent && live[a[i].outpoint] == a[i])
            && (forall o :: o in live && o !in spent ==> exists i :: 0 <= i < |a| && a[i].outpoint == o)
  {
    PlaceOrder();
    SortSetAscending(ConfirmedLeft(live, spent), PlaceLess);
    a := SortSet(ConfirmedLeft(live, spent), PlaceLess);
    hide StrictTotalOrder, SortSet;
    forall i | 0 <= i < |a| ensures a[i].outpoint in live && a[i].outpoint !in spent && live[a[i].outpoint] == a[i] {
      assert a[i] in a;
    }
    forall i, j | 0 <= i < j < |a| ensures a[i].outpoint != a[j].outpoint { assert PlaceLess(a[i], a[j]); }
    forall o | o in live && o !in spent ensures exists i :: 0 <= i < |a| && a[i].outpoint == o {
      assert live[o] in a;
    }
  }

  lemma PendingListing(m: Maps, mined: set<Txid>, pending: map<OutPoint, nat>, utxos: seq<Paid>)
    requires UtxosOk(utxos, m, mined, pending)
    ensures var left := pending - SpentOf(m, mined, pending);
            && (forall i, j :: 0 <= i < j < |utxos| ==> utxos[i].outpoint != utxos[j].outpoint)
            && (forall i :: 0 <= i < |utxos| ==> utxos[i].outpoint in left && left[utxos[i].outpoint] == utxos[i].value)
            && (forall o :: o in left ==> exists i :: 0 <= i < |utxos| && utxos[i].outpoint == o)
  {
    hide SpentOf;
    var left := pending - SpentOf(m, mined, pending);
    forall i | 0 <= i < |utxos| ensures utxos[i].outpoint in left && left[utxos[i].outpoint] == utxos[i].value {
      assert utxos[i] in SetOf(utxos);
    }
    forall i, j | 0 <= i < j < |utxos| ensures utxos[i].outpoint != utxos[j].outpoint { assert PaidLess(utxos[i], utxos[j]); }
    forall o | o in left ensures exists i :: 0 <= i < |utxos| && utxos[i].outpoint == o {
      assert Paid(o, left[o]) in SetOf(utxos);
    }
  }

  lemma JoinListings(live: map<OutPoint, Utxo>, spent: set<OutPoint>, a: seq<Utxo>, left: map<OutPoint, nat>, b: seq<Paid>, pending: map<OutPoint, nat>)
    requires forall i, j :: 0 <= i < j < |a| ==> a[i].outpoint != a[j].outpoint
    requires forall i :: 0 <= i < |a| ==> a[i].outpoint in live && a[i].outpoint !in spent && live[a[i].outpoint] == a[i]
    requires forall o :: o in live && o !in spent ==> exists i :: 0 <= i < |a| && a[i].outpoint == o
    requires forall i, j :: 0 <= i < j < |b| ==> b[i].outpoint != b[j].outpoint
    requires forall i :: 0 <= i < |b| ==> b[i].outpoint in left && left[b[i].outpoint] == b[i].value
    requires forall o :: o in left ==> exists i :: 0 <= i < |b| && b[i].outpoint == o
    requires live.Keys !! pending.Keys && left.Keys <= pending.Keys
    ensures Lists(ConfirmedRows(a) + PendingRows(b), (Confirmed(live) - spent) + left)
  {
    var rows := ConfirmedRows(a) + PendingRows(b);
    var unspent := (Confirmed(live) - spent) + left;
    forall o | o in unspent ensures exists i :: 0 <= i < |rows| && rows[i].outpoint == o {
      if o in left {
        var i :| 0 <= i < |b| && b[i].outpoint == o;
        assert rows[|a| + i].outpoint == o;
      } else {
        var i :| 0 <= i < |a| && a[i].outpoint == o;
        assert rows[i].outpoint == o;
      }
    }
  }
}
