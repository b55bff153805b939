/** What the mempool adds to one script: entries, pending outputs, spent confirmed outputs and
    their net value. */
module MempoolView {
  import opened Collections
  import opened Ledger
  import opened Mempool

  datatype Entry = Entry(txid: Txid, height: int, fee: nat)

  datatype Paid = Paid(outpoint: OutPoint, value: nat)

  datatype View = View(entries: seq<Entry>, delta: int, utxos: seq<Paid>, spentConfirmed: set<OutPoint>)

  /** The protocol's canonical order: height 0 before -1, then by txid. Fees never decide,
      since a txid is listed once. */
  predicate EntryLess(a: Entry, b: Entry) {
    a.height > b.height ||
    (a.height == b.height && (a.txid < b.txid || (a.txid == b.txid && a.fee < b.fee)))
  }

  predicate PaidLess(a: Paid, b: Paid) {
    a.outpoint.txid < b.outpoint.txid ||
    (a.outpoint.txid == b.outpoint.txid &&
     (a.outpoint.vout < b.outpoint.vout || (a.outpoint.vout == b.outpoint.vout && a.value < b.value)))
  }

  lemma EntryOrder()
    ensures StrictTotalOrder(EntryLess)
  {}

  lemma PaidOrder()
    ensures StrictTotalOrder(PaidLess)
  {}

  // ------------------------------------------------------------------------------- what is meant

  /** Every entry lists exactly the scripts its outputs pay. */
  ghost predicate Shaped(m: Maps) {
    forall t :: t in m.txs ==> forall s :: s in m.txs[t].touches <==> exists v :: v in m.txs[t].outputs && m.txs[t].outputs[v].script == s
  }

  /** `o` is an output of an indexed transaction, paying the script. */
  predicate PaysOut(m: Maps, script: Script, o: OutPoint) {
    o.txid in m.txs && o.vout in m.txs[o.txid].outputs && m.txs[o.txid].outputs[o.vout].script == script
  }

  /** `t` is in the script's unconfirmed history: it pays the script, or spends one of its
      confirmed or unconfirmed outputs. */
  ghost predicate InHistory(m: Maps, script: Script, confirmed: set<OutPoint>, t: Txid) {
    && t in m.txs
    && (script in m.txs[t].touches || exists o :: o in m.txs[t].spends && (o in confirmed || PaysOut(m, script, o)))
  }

  /** Outputs of not yet mined transactions that pay the script. */
  function Pending(m: Maps, script: Script, mined: set<Txid>): (r: map<OutPoint, nat>)
    ensures forall o :: o in r <==> PaysOut(m, script, o) && o.txid !in mined
    ensures forall o :: o in r ==> PaysOut(m, script, o) && r[o] == m.txs[o.txid].outputs[o.vout].value
  {
    var keys := set t, v | t in m.txs && v in m.txs[t].outputs && m.txs[t].outputs[v].script == script && t !in mined :: OutPoint(t, v);
    assert forall o :: PaysOut(m, script, o) && o.txid !in mined ==> o == OutPoint(o.txid, o.vout);
    map o | o in keys :: m.txs[o.txid].outputs[o.vout].value
  }

  /** A not yet mined transaction spends `o`. */
  predicate SpentIn(m: Maps, mined: set<Txid>, o: OutPoint) {
    o in m.spentBy && m.spentBy[o] !in mined
  }

  predicate UnconfirmedParent(m: Maps, mined: set<Txid>, t: Txid)
    requires t in m.txs
  {
    exists o :: o in m.txs[t].spends && o.txid in m.txs && o.txid !in mined
  }

  function EntryOf(m: Maps, mined: set<Txid>, t: Txid): Entry
    requires t in m.txs
  {
    Entry(t, if UnconfirmedParent(m, mined, t) then -1 else 0, m.txs[t].fee)
  }

  function SpentOf(m: Maps, mined: set<Txid>, outs: map<OutPoint, nat>): set<OutPoint> {
    set o | o in outs && SpentIn(m, mined, o)
  }

  function Listed(outs: map<OutPoint, nat>): set<Paid> {
    set o | o in outs :: Paid(o, outs[o])
  }

  ghost predicate EntriesOk(entries: seq<Entry>, m: Maps, script: Script, confirmed: set<OutPoint>, mined: set<Txid>) {
    && Ascending(entries, EntryLess)
    && forall e :: e in entries <==>
         e.txid in m.txs && InHistory(m, script, confirmed, e.txid) && e.txid !in mined && e == EntryOf(m, mined, e.txid)
  }

  ghost predicate UtxosOk(utxos: seq<Paid>, m: Maps, mined: set<Txid>, pending: map<OutPoint, nat>) {
    Ascending(utxos, PaidLess) && SetOf(utxos) == Listed(pending - SpentOf(m, mined, pending))
  }

  /** What a view must say: every unmined transaction of the script's history in canonical
      order, its unspent pending outputs, the confirmed ones it spends, and the net effect. */
  ghost predicate IsViewOf(view: View, m: Maps, script: Script, confirmed: map<OutPoint, nat>, mined: set<Txid>) {
    var pending := Pending(m, script, mined);
    && EntriesOk(view.entries, m, script, confirmed.Keys, mined)
    && UtxosOk(view.utxos, m, mined, pending)
    && view.spentConfirmed == SpentOf(m, mined, confirmed)
    && view.delta == Total(pending) - Total(Only(confirmed, view.spentConfirmed)) - Total(Only(pending, SpentOf(m, mined, pending)))
  }

  /** An indexed transaction that is not skipped spends `o`. */
  ghost predicate SomeSpender(m: Maps, mined: set<Txid>, o: OutPoint) {
    exists t :: t in m.txs && t !in mined && o in m.txs[t].spends
  }

  /** What a view says of outputs, by the transactions themselves: spent are the confirmed ones that a
      transaction not skipped spends, and listed are the outputs of such transactions that pay the
      script and that none of them spends. */
  lemma ViewSays(view: View, m: Maps, script: Script, confirmed: map<OutPoint, nat>, mined: set<Txid>, o: OutPoint, value: nat)
    requires Inverse(m) && IsViewOf(view, m, script, confirmed, mined)
    ensures o in view.spentConfirmed <==> o in confirmed && SomeSpender(m, mined, o)
    ensures Paid(o, value) in view.utxos <==>
              && o.txid in m.txs && o.txid !in mined && !SomeSpender(m, mined, o)
              && o.vout in m.txs[o.txid].outputs && m.txs[o.txid].outputs[o.vout] == Output(script, value)
  {
    var pending := Pending(m, script, mined);
    assert SpentIn(m, mined, o) <==> SomeSpender(m, mined, o);
    assert Paid(o, value) in view.utxos <==> Paid(o, value) in SetOf(view.utxos);
    hide Inverse, SpentIn, SomeSpender, EntriesOk, Total, Only, Ascending;
    ListedIs(pending - SpentOf(m, mined, pending), o, value);
  }

  lemma ListedIs(outs: map<OutPoint, nat>, o: OutPoint, value: nat)
    ensures Paid(o, value) in Listed(outs) <==> o in outs && outs[o] == value
  {}

  /** Every entry of a view has the fee the node reported when the transaction arrived. */
  lemma ViewFees(view: View, m: Maps, script: Script, confirmed: map<OutPoint, nat>, mined: set<Txid>, infos: map<Txid, EntryInfo>)
    requires IsViewOf(view, m, script, confirmed, mined) && Reported(m.txs, infos)
    ensures forall e :: e in view.entries ==> e.txid in infos && e.fee == infos[e.txid].fee
  {
    assert forall e :: e in view.entries ==> e.txid in m.txs && e == EntryOf(m, mined, e.txid) by { hide Pending, InHistory, EntryOf; }
  }

  // ----------------------------------------------------------------------------- as the code does it

  /** Collects payers from the script map, and spenders of `confirmed` and of the payers' outputs. */
  method ScriptTxids(index: Index, script: Script, confirmed: set<OutPoint>) returns (txids: set<Txid>)
    requires Inverse(index.Value()) && Shaped(index.Value())
    ensures forall t :: t in txids <==> InHistory(index.Value(), script, confirmed, t)
  {
    ghost var m := index.Value();
    var payers := if script in index.byScript then index.byScript[script] else {};
    var unconfirmed := set t, v | t in payers && t in index.txs && v in index.txs[t].outputs &&
                                  index.txs[t].outputs[v].script == script :: OutPoint(t, v);
    PayersPay(m, script, payers, unconfirmed);
    txids := payers;
    var todo := confirmed + unconfirmed;
    while todo != {}
      invariant todo <= confirmed + unconfirmed
      invariant forall t :: t in txids <==>
                  t in payers || exists o :: o in confirmed + unconfirmed - todo && o in m.spentBy && m.spentBy[o] == t
      decreases todo
    {
      var o :| o in todo;
      if o in index.spentBy {
        txids := txids + {index.spentBy[o]};
      }
      todo := todo - {o};
    }
    forall t ensures t in txids <==> InHistory(m, script, confirmed, t) {
      SpendersAreIndexed(m, script, confirmed, unconfirmed, t);
    }
  }

  lemma PayersPay(m: Maps, script: Script, payers: set<Txid>, unconfirmed: set<OutPoint>)
    requires Inverse(m) && Shaped(m)
    requires payers == if script in m.byScript then m.byScript[script] else {}
    requires unconfirmed == set t, v | t in payers && t in m.txs && v in m.txs[t].outputs &&
                                       m.txs[t].outputs[v].script == script :: OutPoint(t, v)
    ensures forall t :: t in payers <==> t in m.txs && script in m.txs[t].touches
    ensures forall o :: o in unconfirmed <==> PaysOut(m, script, o)
  {
    hide SpentByExact;
    forall o ensures o in unconfirmed <==> PaysOut(m, script, o) {
      assert o == OutPoint(o.txid, o.vout);
    }
  }

  lemma SpendersAreIndexed(m: Maps, script: Script, confirmed: set<OutPoint>, unconfirmed: set<OutPoint>, t: Txid)
    requires Inverse(m) && forall o :: o in unconfirmed <==> PaysOut(m, script, o)
    ensures InHistory(m, script, confirmed, t) <==>
            (t in m.txs && script in m.txs[t].touches) || exists o :: o in confirmed + unconfirmed && o in m.spentBy && m.spentBy[o] == t
  {
    hide ByScriptExact;
    if t in m.txs {
      if o :| o in m.txs[t].spends && (o in confirmed || PaysOut(m, script, o)) {
        assert o in confirmed + unconfirmed && m.spentBy[o] == t;
      }
    }
  }

  /** The outputs of one indexed transaction that pay the script, with their sum. */
  method OwnOutputs(index: Index, script: Script, t: Txid) returns (own: map<OutPoint, nat>, sum: nat)
    requires t in index.txs
    ensures forall o :: o in own <==> o.txid == t && PaysOut(index.Value(), script, o)
    ensures forall o :: o in own ==> PaysOut(index.Value(), script, o) && own[o] == index.txs[o.txid].outputs[o.vout].value
    ensures sum == Total(own)
  {
    own, sum := map[], 0;
    var outputs := index.txs[t].outputs;
    var todo := outputs.Keys;
    while todo != {}
      invariant todo <= outputs.Keys
      invariant forall o :: o in own <==> o.txid == t && o.vout in outputs && o.vout !in todo && outputs[o.vout].script == script
      invariant forall o :: o in own ==> own[o] == outputs[o.vout].value
      invariant sum == Total(own)
      decreases todo
    {
      var v :| v in todo;
      todo := todo - {v};
      if outputs[v].script == script {
        TotalInsert(own, OutPoint(t, v), outputs[v].value);
        own := own[OutPoint(t, v) := outputs[v].value];
        sum := sum + outputs[v].value;
      }
    }
  }

  /** Entries and pending outputs of the script's unmined transactions. */
  method CollectTxs(index: Index, script: Script, members: set<Txid>, mined: set<Txid>)
    returns (entries: set<Entry>, outputs: map<OutPoint, nat>, sum: nat)
    requires members <= index.txs.Keys
    ensures forall e :: e in entries <==> e.txid in members && e == EntryOf(index.Value(), mined, e.txid)
    ensures forall o :: o in outputs <==> o.txid in members && PaysOut(index.Value(), script, o)
    ensures forall o :: o in outputs ==> PaysOut(index.Value(), script, o) && outputs[o] == index.txs[o.txid].outputs[o.vout].value
    ensures sum == Total(outputs)
  {
    entries, outputs, sum := {}, map[], 0;
    ghost var m := index.Value();
    var todo := members;
    while todo != {}
      invariant todo <= members
      invariant forall e :: e in entries <==> e.txid in members - todo && e == EntryOf(m, mined, e.txid)
      invariant forall o :: o in outputs <==> o.txid in members - todo && PaysOut(m, script, o)
      invariant forall o :: o in outputs ==> outputs[o] == m.txs[o.txid].outputs[o.vout].value
      invariant sum == Total(outputs)
      decreases todo
    {
      var t :| t in todo;
      entries := entries + {EntryOf(index.Value(), mined, t)};
      var own, ownSum := OwnOutputs(index, script, t);
      TotalUnion(outputs, own);
      outputs, sum := outputs + own, sum + ownSum;
      todo := todo - {t};
    }
  }

  /** Which of `outs` the mempool spends, with their sum. */
  method SumSpent(index: Index, mined: set<Txid>, outs: map<OutPoint, nat>) returns (spent: set<OutPoint>, sum: nat)
    ensures spent == SpentOf(index.Value(), mined, outs)
    ensures sum == Total(Only(outs, spent))
  {
    spent, sum := {}, 0;
    ghost var m := index.Value();
    var todo := outs.Keys;
    OnlyNothing(outs);
    while todo != {}
      invariant todo <= outs.Keys
      invariant forall o :: o in spent <==> o in outs && o !in todo && SpentIn(m, mined, o)
      invariant sum == Total(Only(outs, spent))
      decreases todo
    {
      var o :| o in todo;
      todo := todo - {o};
      if o in index.spentBy && index.spentBy[o] !in mined {
        OnlyOneMore(outs, spent, o);
        TotalInsert(Only(outs, spent), o, outs[o]);
        spent, sum := spent + {o}, sum + outs[o];
      }
    }
  }

  lemma OnlyNothing(m: map<OutPoint, nat>)
    ensures Only(m, {}) == map[] && Total(Only(m, {})) == 0
  {}

  lemma OnlyOneMore(m: map<OutPoint, nat>, s: set<OutPoint>, o: OutPoint)
    requires o in m && o !in s
    ensures Only(m, s + {o}) == Only(m, s)[o := m[o]]
  {}

  /** Computes a view by loops over members and outpoints, leaving out what is in `mined`. */
  method ScriptView(index: Index, script: Script, confirmed: map<OutPoint, nat>, mined: set<Txid>) returns (view: View)
    requires Inverse(index.Value()) && Shaped(index.Value())
    ensures IsViewOf(view, index.Value(), script, confirmed, mined)
  {
    hide Inverse, Shaped, InHistory, PaysOut, Pending, SpentOf, Listed, StrictTotalOrder, SortSet, IsViewOf, Only, Total, EntryOf;
    var txids := ScriptTxids(index, script, confirmed.Keys);
    HistoryIsIndexed(index.Value(), script, confirmed.Keys);
    var members := set t | t in txids && t !in mined;
    var entries, outputs, paid := CollectTxs(index, script, members, mined);
    var spentConfirmed, lost := SumSpent(index, mined, confirmed);
    var spentPending, moved := SumSpent(index, mined, outputs);
    EntryOrder();
    PaidOrder();
    view := View(SortSet(entries, EntryLess), (paid as int) - (lost as int) - (moved as int), SortSet(Listed(outputs - spentPending), PaidLess), spentConfirmed);
    Assemble(index.Value(), script, confirmed, mined, entries, outputs);
  }

  lemma HistoryIsIndexed(m: Maps, script: Script, confirmed: set<OutPoint>)
    ensures forall t :: InHistory(m, script, confirmed, t) ==> t in m.txs
  {}

  lemma Assemble(m: Maps, script: Script, confirmed: map<OutPoint, nat>, mined: set<Txid>,
                 entries: set<Entry>, outputs: map<OutPoint, nat>)
    requires Shaped(m) && StrictTotalOrder(EntryLess) && StrictTotalOrder(PaidLess)
    requires forall e :: e in entries <==>
               InHistory(m, script, confirmed.Keys, e.txid) && e.txid !in mined && e.txid in m.txs && e == EntryOf(m, mined, e.txid)
    requires forall o :: o in outputs <==> InHistory(m, script, confirmed.Keys, o.txid) && o.txid !in mined && PaysOut(m, script, o)
    requires forall o :: o in outputs ==> PaysOut(m, script, o) && outputs[o] == m.txs[o.txid].outputs[o.vout].value
    ensures IsViewOf(View(SortSet(entries, EntryLess),
                          Total(outputs) - Total(Only(confirmed, SpentOf(m, mined, confirmed))) - Total(Only(outputs, SpentOf(m, mined, outputs))),
                          SortSet(Listed(outputs - SpentOf(m, mined, outputs)), PaidLess),
                          SpentOf(m, mined, confirmed)),
                     m, script, confirmed, mined)
  {
    hide Shaped, StrictTotalOrder, InHistory, PaysOut, Pending, SpentOf, Listed, SortSet, Only, Total, EntryOf, EntriesOk, UtxosOk;
    PendingIs(m, script, confirmed.Keys, mined, outputs);
    SortedEntries(m, script, confirmed.Keys, mined, entries);
    SortedUtxos(m, mined, outputs);
  }

  lemma SortedEntries(m: Maps, script: Script, confirmed: set<OutPoint>, mined: set<Txid>, entries: set<Entry>)
    requires StrictTotalOrder(EntryLess)
    requires forall e :: e in entries <==>
               InHistory(m, script, confirmed, e.txid) && e.txid !in mined && e.txid in m.txs && e == EntryOf(m, mined, e.txid)
    ensures EntriesOk(SortSet(entries, EntryLess), m, script, confirmed, mined)
  {
    hide StrictTotalOrder, InHistory, SortSet, EntryOf, Ascending;
    SortSetAscending(entries, EntryLess);
  }

  lemma SortedUtxos(m: Maps, mined: set<Txid>, outputs: map<OutPoint, nat>)
    requires StrictTotalOrder(PaidLess)
    ensures UtxosOk(SortSet(Listed(outputs - SpentOf(m, mined, outputs)), PaidLess), m, mined, outputs)
  {
    hide StrictTotalOrder, SpentOf, Listed, SortSet, Ascending;
    SortSetAscending(Listed(outputs - SpentOf(m, mined, outputs)), PaidLess);
  }

  /** A pending output belongs to a transaction of the script's history. */
  lemma PendingIs(m: Maps, script: Script, confirmed: set<OutPoint>, mined: set<Txid>, outputs: map<OutPoint, nat>)
    requires Shaped(m)
    requires forall o :: o in outputs <==> InHistory(m, script, confirmed, o.txid) && o.txid !in mined && PaysOut(m, script, o)
    requires forall o :: o in outputs ==> PaysOut(m, script, o) && outputs[o] == m.txs[o.txid].outputs[o.vout].value
    ensures outputs == Pending(m, script, mined)
  {
    forall o ensures o in outputs <==> o in Pending(m, script, mined) {
      if PaysOut(m, script, o) { assert script in m.txs[o.txid].touches; }
    }
  }
}
