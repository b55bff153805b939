/** The mempool index: transactions by txid, and two maps derived from them that must stay
    exact inverses while the poller removes and inserts transactions. */
module Mempool {
  import opened Collections
  import opened Ledger

  /** What the index keeps of one mempool transaction. */
  datatype MempoolTx = MempoolTx(txid: Txid, fee: nat, time: nat,
                                 touches: set<Script>, spends: set<OutPoint>,
                                 outputs: map<nat, Output>)

  /** Entry metadata the node reports. */
  datatype EntryInfo = EntryInfo(fee: nat, time: nat)

  datatype Maps = Maps(txs: map<Txid, MempoolTx>,
                       byScript: map<Script, set<Txid>>,
                       spentBy: map<OutPoint, Txid>)

  /** `m` is the index entry of `tx`. */
  ghost predicate Describes(m: MempoolTx, tx: Tx) {
    && m.txid == tx.txid
    && m.spends == SetOf(tx.inputs)
    && (forall v :: v in m.outputs <==> 0 <= v < |tx.outputs|)
    && (forall v :: v in m.outputs ==> m.outputs[v] == tx.outputs[v])
    && (forall s :: s in m.touches <==> exists v :: v in m.outputs && m.outputs[v].script == s)
  }

  /** Builds the index entry of one parsed transaction. */
  method BuildTx(tx: Tx, info: EntryInfo) returns (m: MempoolTx)
    ensures Describes(m, tx) && m.fee == info.fee && m.time == info.time
  {
    var touches: set<Script> := {};
    var outputs: map<nat, Output> := map[];
    for v := 0 to |tx.outputs|
      invariant forall u :: u in outputs <==> 0 <= u < v
      invariant forall u :: u in outputs ==> outputs[u] == tx.outputs[u]
      invariant forall s :: s in touches <==> exists u :: u in outputs && outputs[u].script == s
    {
      ghost var before := outputs;
      touches := touches + {tx.outputs[v].script};
      outputs := outputs[v := tx.outputs[v]];
      forall s ensures s in touches <==> exists u :: u in outputs && outputs[u].script == s {
        if u :| u in before && before[u].script == s { assert u in outputs && outputs[u].script == s; }
        if s == tx.outputs[v].script { assert v in outputs && outputs[v].script == s; }
      }
    }
    m := MempoolTx(tx.txid, info.fee, info.time, touches, SetOf(tx.inputs), outputs);
  }

  // ------------------------------------------------------------------------------ the invariant

  ghost predicate ByScriptExact(m: Maps) {
    && (forall s :: s in m.byScript ==> m.byScript[s] != {})
    && (forall s, t :: s in m.byScript && t in m.byScript[s] ==> t in m.txs && s in m.txs[t].touches)
    && (forall t, s :: t in m.txs && s in m.txs[t].touches ==> s in m.byScript && t in m.byScript[s])
  }

  ghost predicate SpentByExact(m: Maps) {
    && (forall o :: o in m.spentBy ==> m.spentBy[o] in m.txs && o in m.txs[m.spentBy[o]].spends)
    && (forall t, o :: t in m.txs && o in m.txs[t].spends ==> o in m.spentBy && m.spentBy[o] == t)
  }

  /** `spentBy[o] == t` iff indexed `t` spends `o`; `byScript[s]` is exactly the indexed
      transactions paying `s`, and never empty. */
  ghost predicate Inverse(m: Maps) {
    && (forall t :: t in m.txs ==> m.txs[t].txid == t)
    && ByScriptExact(m)
    && SpentByExact(m)
  }

  // ---------------------------------------------------------------- insertion and removal, as functions

  function AddTouches(byScript: map<Script, set<Txid>>, touches: set<Script>, t: Txid): map<Script, set<Txid>> {
    map s | s in byScript.Keys + touches ::
      (if s in byScript then byScript[s] else {}) + (if s in touches then {t} else {})
  }

  function DropTouches(byScript: map<Script, set<Txid>>, touches: set<Script>, t: Txid): map<Script, set<Txid>> {
    map s | s in byScript && (s in touches ==> byScript[s] - {t} != {}) ::
      if s in touches then byScript[s] - {t} else byScript[s]
  }

  function Inserted(m: Maps, tx: MempoolTx): Maps {
    Maps(m.txs[tx.txid := tx],
         AddTouches(m.byScript, tx.touches, tx.txid),
         m.spentBy + (map o | o in tx.spends :: tx.txid))
  }

  function Removed(m: Maps, t: Txid): Maps {
    if t !in m.txs then m
    else Maps(m.txs - {t}, DropTouches(m.byScript, m.txs[t].touches, t), m.spentBy - m.txs[t].spends)
  }

  lemma InsertByScript(m: Maps, tx: MempoolTx)
    requires ByScriptExact(m) && tx.txid !in m.txs
    ensures ByScriptExact(Inserted(m, tx))
  {}

  lemma InsertSpentBy(m: Maps, tx: MempoolTx)
    requires SpentByExact(m) && tx.txid !in m.txs && tx.spends !! m.spentBy.Keys
    ensures SpentByExact(Inserted(m, tx))
  {}

  /** Inserting a new transaction keeps the maps inverse exactly when nothing indexed
      conflicts with it. */
  lemma InsertKeepsInverse(m: Maps, tx: MempoolTx)
    requires Inverse(m) && tx.txid !in m.txs
    ensures Inverse(Inserted(m, tx)) <==> forall o :: o in tx.spends ==> o !in m.spentBy
  {
    InsertByScript(m, tx);
    if o :| o in tx.spends && o in m.spentBy {
      var t := m.spentBy[o];
      assert t in Inserted(m, tx).txs && o in Inserted(m, tx).txs[t].spends;
      assert Inserted(m, tx).spentBy[o] == tx.txid != t;
    } else {
      InsertSpentBy(m, tx);
    }
  }

  lemma RemoveByScript(m: Maps, t: Txid)
    requires ByScriptExact(m)
    ensures ByScriptExact(Removed(m, t))
  {}

  lemma RemoveSpentBy(m: Maps, t: Txid)
    requires SpentByExact(m)
    ensures SpentByExact(Removed(m, t))
  {}

  lemma RemoveKeepsInverse(m: Maps, t: Txid)
    requires Inverse(m)
    ensures Inverse(Removed(m, t)) && Removed(m, t).txs == m.txs - {t}
  {
    RemoveByScript(m, t);
    RemoveSpentBy(m, t);
    NothingDropped(m.txs, t);
  }

  lemma NothingDropped<K, V>(m: map<K, V>, k: K)
    ensures k !in m ==> m - {k} == m
  {}

  /** Removal undoes insertion. */
  lemma RemoveUndoesInsert(m: Maps, tx: MempoolTx)
    requires Inverse(m) && tx.txid !in m.txs && forall o :: o in tx.spends ==> o !in m.spentBy
    ensures Removed(Inserted(m, tx), tx.txid) == m
  {
    var r := Removed(Inserted(m, tx), tx.txid);
    assert r.txs == m.txs;
    assert r.spentBy == m.spentBy;
    RemoveUndoesTouches(m.byScript, tx.touches, tx.txid);
  }

  lemma RemoveUndoesTouches(byScript: map<Script, set<Txid>>, touches: set<Script>, t: Txid)
    requires forall s :: s in byScript ==> byScript[s] != {} && t !in byScript[s]
    ensures DropTouches(AddTouches(byScript, touches, t), touches, t) == byScript
  {
    var added := AddTouches(byScript, touches, t);
    var r := DropTouches(added, touches, t);
    forall s ensures (s in r <==> s in byScript) && (s in r ==> r[s] == byScript[s]) {
      if s in byScript {
        assert s in added && added[s] - {t} == byScript[s];
      } else if s in touches {
        assert added[s] - {t} == {};
      }
    }
  }

  /** Why removals come first: inserting a replacement before removing what it conflicts
      with loses the spent outpoint. */
  lemma ReplacementNeedsRemovalFirst(m: Maps, tx: MempoolTx, t: Txid, o: OutPoint)
    requires Inverse(m) && tx.txid !in m.txs && t in m.txs
    requires o in m.txs[t].spends && o in tx.spends
    ensures !Inverse(Removed(Inserted(m, tx), t))
  {
    var r := Removed(Inserted(m, tx), t);
    assert tx.txid in r.txs && o in r.txs[tx.txid].spends;
    assert o !in r.spentBy;
  }

  // --------------------------------------------------------------------------------- the index object

  class Index {
    var txs: map<Txid, MempoolTx>
    var byScript: map<Script, set<Txid>>
    var spentBy: map<OutPoint, Txid>

    function Value(): Maps
      reads this
    {
      Maps(txs, byScript, spentBy)
    }

    constructor ()
      ensures Value() == Maps(map[], map[], map[]) && Inverse(Value())
    {
      txs, byScript, spentBy := map[], map[], map[];
    }

    method Insert(tx: MempoolTx)
      modifies this
      ensures Value() == Inserted(old(Value()), tx)
    {
      InsertTouches(tx);
      InsertSpends(tx);
      txs := txs[tx.txid := tx];
    }

    method InsertTouches(tx: MempoolTx)
      modifies this`byScript
      ensures byScript == AddTouches(old(byScript), tx.touches, tx.txid)
    {
      var todo := tx.touches;
      AddNone(byScript, tx.txid);
      assert tx.touches - todo == {};
      while todo != {}
        invariant todo <= tx.touches
        invariant byScript == AddTouches(old(byScript), tx.touches - todo, tx.txid)
        decreases todo
      {
        var s :| s in todo;
        AddOne(old(byScript), tx.touches - todo, s, tx.txid);
        byScript := byScript[s := (if s in byScript then byScript[s] else {}) + {tx.txid}];
        assert tx.touches - (todo - {s}) == tx.touches - todo + {s};
        todo := todo - {s};
      }
      assert tx.touches - {} == tx.touches;
    }

    method InsertSpends(tx: MempoolTx)
      modifies this`spentBy
      ensures spentBy == old(spentBy) + (map o | o in tx.spends :: tx.txid)
    {
      var prevouts := tx.spends;
      while prevouts != {}
        invariant prevouts <= tx.spends
        invariant spentBy == old(spentBy) + (map o | o in tx.spends - prevouts :: tx.txid)
        decreases prevouts
      {
        var o :| o in prevouts;
        spentBy := spentBy[o := tx.txid];
        prevouts := prevouts - {o};
      }
      assert tx.spends - {} == tx.spends;
    }

    method Remove(t: Txid) returns (found: bool)
      modifies this
      ensures Value() == Removed(old(Value()), t)
      ensures found <==> t in old(txs)
    {
      if t !in txs { return false; }
      var tx := txs[t];
      txs := txs - {t};
      var todo := tx.touches;
      while todo != {}
        invariant todo <= tx.touches
        invariant txs == old(txs) - {t} && spentBy == old(spentBy)
        invariant byScript == DropTouches(old(byScript), tx.touches - todo, t)
        decreases todo
      {
        var s :| s in todo;
        DropOneTouch(old(byScript), tx.touches - todo, s, t);
        if s in byScript {
          byScript := byScript[s := byScript[s] - {t}];
          if byScript[s] == {} {
            byScript := byScript - {s};
          }
        }
        assert tx.touches - (todo - {s}) == tx.touches - todo + {s};
        todo := todo - {s};
      }
      assert tx.touches - {} == tx.touches;
      spentBy := spentBy - tx.spends;
      found := true;
    }

    /** Rebuilds the whole index from a list of transactions. */
    method ReplaceAll(all: seq<MempoolTx>)
      requires NoConflicts(all)
      modifies this
      ensures Inverse(Value())
      ensures forall t :: t in txs <==> exists i :: 0 <= i < |all| && all[i].txid == t
      ensures forall i :: 0 <= i < |all| ==> txs[all[i].txid] == all[i]
    {
      txs, byScript, spentBy := map[], map[], map[];
      InsertAll(all);
    }

    /** Inserts new, mutually conflict-free transactions. */
    method InsertAll(all: seq<MempoolTx>)
      requires Inverse(Value()) && NoConflicts(all)
      requires forall i :: 0 <= i < |all| ==> all[i].txid !in txs
      requires forall i, o :: 0 <= i < |all| && o in all[i].spends ==> o !in spentBy
      modifies this
      ensures Inverse(Value())
      ensures forall t :: t in txs <==> t in old(txs) || exists i :: 0 <= i < |all| && all[i].txid == t
      ensures forall t :: t in old(txs) ==> txs[t] == old(txs)[t]
      ensures forall i :: 0 <= i < |all| ==> txs[all[i].txid] == all[i]
    {
      for i := 0 to |all|
        invariant Inverse(Value())
        invariant forall t :: t in txs <==> t in old(txs) || exists j :: 0 <= j < i && all[j].txid == t
        invariant forall t :: t in old(txs) ==> txs[t] == old(txs)[t]
        invariant forall j :: 0 <= j < i ==> txs[all[j].txid] == all[j]
      {
        SpentByKnown(Value(), old(Value()), all, i);
        InsertKeepsInverse(Value(), all[i]);
        Insert(all[i]);
      }
    }
  }

  // --------------------------------------------------------------------------------------- polling

  /** The node's view during a poll: its listing, conflict-free, and the bodies that txids
      commit to. A fetched body with the right txid is that body. */
  ghost predicate Snapshot(entries: map<Txid, EntryInfo>, fetch: map<Txid, Tx>, bodies: map<Txid, Tx>) {
    && (forall t :: t in entries ==> t in bodies && bodies[t].txid == t)
    && (forall t, u :: t in entries && u in entries && t != u ==> SetOf(bodies[t].inputs) !! SetOf(bodies[u].inputs))
    && (forall t :: t in fetch && t in entries && fetch[t].txid == t ==> fetch[t] == bodies[t])
  }

  ghost predicate Sourced(txs: map<Txid, MempoolTx>, bodies: map<Txid, Tx>) {
    forall t :: t in txs ==> t in bodies && Describes(txs[t], bodies[t])
  }

  /** The entry has the fee and time the node reported. */
  predicate ReportedAs(m: MempoolTx, info: EntryInfo) {
    m.fee == info.fee && m.time == info.time
  }

  ghost predicate Reported(txs: map<Txid, MempoolTx>, infos: map<Txid, EntryInfo>) {
    forall t :: t in txs ==> t in infos && ReportedAs(txs[t], infos[t])
  }

  /** The node answered for `t` with the transaction it was asked for. */
  predicate Answered(fetch: map<Txid, Tx>, t: Txid) {
    t in fetch && fetch[t].txid == t
  }

  /** Entries for exactly the wanted txids the node answers for, one each, with what it reported. */
  ghost predicate Arrived(arrivals: seq<MempoolTx>, wanted: set<Txid>, entries: map<Txid, EntryInfo>, fetch: map<Txid, Tx>)
    requires wanted <= entries.Keys
  {
    && (forall i :: 0 <= i < |arrivals| ==>
          arrivals[i].txid in wanted && Answered(fetch, arrivals[i].txid) && Describes(arrivals[i], fetch[arrivals[i].txid]))
    && (forall i :: 0 <= i < |arrivals| ==> ReportedAs(arrivals[i], entries[arrivals[i].txid]))
    && (forall t :: t in wanted && Answered(fetch, t) ==> exists i :: 0 <= i < |arrivals| && arrivals[i].txid == t)
    && (forall i, j :: 0 <= i < j < |arrivals| ==> arrivals[i].txid != arrivals[j].txid)
  }

  /** Index entries for the wanted txids that the node answers for, one each. */
  method FetchWanted(wanted: set<Txid>, entries: map<Txid, EntryInfo>, fetch: map<Txid, Tx>) returns (arrivals: seq<MempoolTx>)
    requires wanted <= entries.Keys
    ensures Arrived(arrivals, wanted, entries, fetch)
  {
    arrivals := [];
    var todo := wanted;
    while todo != {}
      invariant todo <= wanted
      invariant forall i :: 0 <= i < |arrivals| ==>
                  arrivals[i].txid in wanted - todo && Answered(fetch, arrivals[i].txid) && Describes(arrivals[i], fetch[arrivals[i].txid])
      invariant forall i :: 0 <= i < |arrivals| ==> ReportedAs(arrivals[i], entries[arrivals[i].txid])
      invariant forall t :: t in wanted - todo && Answered(fetch, t) ==> exists i :: 0 <= i < |arrivals| && arrivals[i].txid == t
      invariant forall i, j :: 0 <= i < j < |arrivals| ==> arrivals[i].txid != arrivals[j].txid
      decreases todo
    {
      var t :| t in todo;
      ghost var before, left := arrivals, todo;
      todo := todo - {t};
      if t in fetch && fetch[t].txid == t {
        var m := BuildTx(fetch[t], entries[t]);
        arrivals := arrivals + [m];
        assert arrivals[|before|].txid == t;
      }
      forall u | u in wanted - todo && Answered(fetch, u) ensures exists i :: 0 <= i < |arrivals| && arrivals[i].txid == u {
        if u != t {
          assert u in wanted - left;
          var i :| 0 <= i < |before| && before[i].txid == u;
          assert arrivals[i].txid == u;
        }
      }
    }
  }

  /** One refresh: drop what left the node's mempool, then add what arrived. */
  method Poll(index: Index, entries: map<Txid, EntryInfo>, fetch: map<Txid, Tx>, ghost bodies: map<Txid, Tx>)
    returns (added: nat, removed: nat)
    requires Inverse(index.Value()) && Sourced(index.txs, bodies) && Snapshot(entries, fetch, bodies)
    modifies index
    ensures Inverse(index.Value()) && Sourced(index.txs, bodies)
    ensures forall t :: t in index.txs <==> t in entries && (t in old(index.txs) || Answered(fetch, t))
    ensures forall t :: t in index.txs && t in old(index.txs) ==> index.txs[t] == old(index.txs)[t]
    ensures forall t :: t in index.txs && t !in old(index.txs) ==> ReportedAs(index.txs[t], entries[t])
    ensures removed == |old(index.txs).Keys - entries.Keys|
    ensures added == |index.txs.Keys - old(index.txs).Keys|
  {
    hide Inverse, Snapshot, Sourced, Describes, NoConflicts, Answered, ReportedAs, Arrived;
    var known := index.txs.Keys;
    var wanted := entries.Keys - known;
    var gone := known - entries.Keys;
    var arrivals := FetchWanted(wanted, entries, fetch);
    RemoveGone(index, gone);
    SourcedKept(old(index.txs), gone, bodies);
    ArrivalsFit(index.Value(), entries, fetch, bodies, wanted, arrivals);
    index.InsertAll(arrivals);
    added, removed := |arrivals|, |gone|;
    PollOutcome(old(index.txs), index.txs, entries, fetch, bodies, wanted, arrivals);
  }

  /** Over any number of polls, each indexed transaction keeps the fee and time reported by the poll
      it arrived in: `infos` before a poll becomes `infos'` after it. */
  lemma PollReports(before: map<Txid, MempoolTx>, after: map<Txid, MempoolTx>, entries: map<Txid, EntryInfo>, infos: map<Txid, EntryInfo>)
    returns (infos': map<Txid, EntryInfo>)
    requires Reported(before, infos)
    requires forall t :: t in after && t in before ==> after[t] == before[t]
    requires forall t :: t in after && t !in before ==> t in entries && ReportedAs(after[t], entries[t])
    ensures Reported(after, infos') && infos'.Keys == after.Keys
    ensures forall t :: t in infos' ==> infos'[t] == if t in before then infos[t] else entries[t]
  {
    hide ReportedAs;
    infos' := map t | t in after :: if t in before then infos[t] else entries[t];
  }

  method RemoveGone(index: Index, gone: set<Txid>)
    requires Inverse(index.Value())
    modifies index
    ensures Inverse(index.Value()) && index.txs == old(index.txs) - gone
  {
    var todo := gone;
    NothingGone(index.txs, gone - todo);
    while todo != {}
      invariant todo <= gone && Inverse(index.Value())
      invariant index.txs == old(index.txs) - (gone - todo)
      decreases todo
    {
      var t :| t in todo;
      RemoveKeepsInverse(index.Value(), t);
      RemoveOneMore(old(index.txs), gone - todo, t);
      assert gone - (todo - {t}) == gone - todo + {t};
      var _ := index.Remove(t);
      todo := todo - {t};
    }
    assert gone - todo == gone;
  }

  lemma NothingGone<K, V>(m: map<K, V>, s: set<K>)
    requires |s| == 0
    ensures m - s == m
  {}

  lemma RemoveOneMore<K, V>(m: map<K, V>, s: set<K>, k: K)
    ensures m - (s + {k}) == m - s - {k}
  {}

  lemma SourcedKept(txs: map<Txid, MempoolTx>, gone: set<Txid>, bodies: map<Txid, Tx>)
    requires Sourced(txs, bodies)
    ensures Sourced(txs - gone, bodies)
  {}

  lemma PollOutcome(before: map<Txid, MempoolTx>, after: map<Txid, MempoolTx>, entries: map<Txid, EntryInfo>,
                    fetch: map<Txid, Tx>, bodies: map<Txid, Tx>, wanted: set<Txid>, arrivals: seq<MempoolTx>)
    requires Sourced(before, bodies) && Snapshot(entries, fetch, bodies)
    requires wanted == entries.Keys - before.Keys && Arrived(arrivals, wanted, entries, fetch)
    requires forall i :: 0 <= i < |arrivals| ==> arrivals[i].txid in bodies && Describes(arrivals[i], bodies[arrivals[i].txid])
    requires forall t :: t in after <==> (t in before && t in entries) || exists i :: 0 <= i < |arrivals| && arrivals[i].txid == t
    requires forall t :: t in before && t in entries ==> after[t] == before[t]
    requires forall i :: 0 <= i < |arrivals| ==> after[arrivals[i].txid] == arrivals[i]
    ensures Sourced(after, bodies)
    ensures forall t :: t in after <==> t in entries && (t in before || Answered(fetch, t))
    ensures |arrivals| == |after.Keys - before.Keys|
    ensures forall t :: t in after && t !in before ==> ReportedAs(after[t], entries[t])
  {
    hide Describes, Answered, Snapshot, ReportedAs;
    ListedHaveBodies(entries, fetch, bodies);
    ArrivedIds(before, after, entries, arrivals);
    ArrivalsCount(arrivals, after.Keys - before.Keys);
    PollKeeps(before, after, entries, bodies, arrivals);
  }

  lemma ListedHaveBodies(entries: map<Txid, EntryInfo>, fetch: map<Txid, Tx>, bodies: map<Txid, Tx>)
    requires Snapshot(entries, fetch, bodies)
    ensures forall t :: t in entries ==> t in bodies
  {}

  lemma ArrivedIds(before: map<Txid, MempoolTx>, after: map<Txid, MempoolTx>, entries: map<Txid, EntryInfo>, arrivals: seq<MempoolTx>)
    requires forall i :: 0 <= i < |arrivals| ==> arrivals[i].txid !in before
    requires forall t :: t in after <==> (t in before && t in entries) || exists i :: 0 <= i < |arrivals| && arrivals[i].txid == t
    ensures forall t :: t in after.Keys - before.Keys <==> exists i :: 0 <= i < |arrivals| && arrivals[i].txid == t
  {}

  lemma PollKeeps(before: map<Txid, MempoolTx>, after: map<Txid, MempoolTx>, entries: map<Txid, EntryInfo>, bodies: map<Txid, Tx>, arrivals: seq<MempoolTx>)
    requires Sourced(before, bodies)
    requires forall i :: 0 <= i < |arrivals| ==> arrivals[i].txid in bodies && Describes(arrivals[i], bodies[arrivals[i].txid])
    requires forall t :: t in after <==> (t in before && t in entries) || exists i :: 0 <= i < |arrivals| && arrivals[i].txid == t
    requires forall t :: t in before && t in entries ==> after[t] == before[t]
    requires forall i :: 0 <= i < |arrivals| ==> after[arrivals[i].txid] == arrivals[i]
    ensures Sourced(after, bodies)
  {
    hide Describes;
  }

  lemma ArrivalsCount(arrivals: seq<MempoolTx>, newIds: set<Txid>)
    requires forall i, j :: 0 <= i < j < |arrivals| ==> arrivals[i].txid != arrivals[j].txid
    requires forall t :: t in newIds <==> exists i :: 0 <= i < |arrivals| && arrivals[i].txid == t
    ensures |newIds| == |arrivals|
  {
    var ids := seq(|arrivals|, i requires 0 <= i < |arrivals| => arrivals[i].txid);
    DistinctCardinality(ids);
    assert SetOf(ids) == newIds by {
      forall t ensures t in ids <==> t in newIds {
        if t in newIds {
          var i :| 0 <= i < |arrivals| && arrivals[i].txid == t;
          assert ids[i] == t;
        }
      }
    }
  }

  /** After the removals, nothing indexed or arriving conflicts. */
  lemma ArrivalsFit(m: Maps, entries: map<Txid, EntryInfo>, fetch: map<Txid, Tx>, bodies: map<Txid, Tx>, wanted: set<Txid>, arrivals: seq<MempoolTx>)
    requires Inverse(m) && Sourced(m.txs, bodies) && Snapshot(entries, fetch, bodies)
    requires m.txs.Keys <= entries.Keys && wanted <= entries.Keys && wanted !! m.txs.Keys && Arrived(arrivals, wanted, entries, fetch)
    ensures NoConflicts(arrivals)
    ensures forall i :: 0 <= i < |arrivals| ==> arrivals[i].txid in wanted && arrivals[i].txid !in m.txs && arrivals[i].txid in bodies
    ensures forall i, o :: 0 <= i < |arrivals| && o in arrivals[i].spends ==> o !in m.spentBy
    ensures forall i :: 0 <= i < |arrivals| ==> Describes(arrivals[i], bodies[arrivals[i].txid])
  {
    forall i | 0 <= i < |arrivals| ensures arrivals[i].spends == SetOf(bodies[arrivals[i].txid].inputs) {}
    forall i, o | 0 <= i < |arrivals| && o in arrivals[i].spends ensures o !in m.spentBy {
      forall t | t in m.txs ensures o !in m.txs[t].spends {
        assert SetOf(bodies[arrivals[i].txid].inputs) !! SetOf(bodies[t].inputs);
      }
    }
  }

  predicate NoConflicts(all: seq<MempoolTx>) {
    forall i, j :: 0 <= i < j < |all| ==> all[i].txid != all[j].txid && all[i].spends !! all[j].spends
  }

  lemma AddOne(byScript: map<Script, set<Txid>>, touches: set<Script>, s: Script, t: Txid)
    ensures var m := AddTouches(byScript, touches, t);
            AddTouches(byScript, touches + {s}, t) == m[s := (if s in m then m[s] else {}) + {t}]
  {
    var m := AddTouches(byScript, touches, t);
    var a, b := AddTouches(byScript, touches + {s}, t), m[s := (if s in m then m[s] else {}) + {t}];
    forall x ensures (x in a <==> x in b) && (x in a ==> a[x] == b[x]) {
      if x == s && s in a { assert a[s] == (if s in byScript then byScript[s] else {}) + {t}; }
    }
  }

  lemma AddNone(byScript: map<Script, set<Txid>>, t: Txid)
    ensures AddTouches(byScript, {}, t) == byScript
  {
    var a := AddTouches(byScript, {}, t);
    forall x ensures (x in a <==> x in byScript) && (x in a ==> a[x] == byScript[x]) {
      if x in a { assert a[x] == byScript[x] + {}; }
    }
  }

  lemma DropOneTouch(byScript: map<Script, set<Txid>>, touches: set<Script>, s: Script, t: Txid)
    requires s !in touches
    ensures var m := DropTouches(byScript, touches, t);
            && (s in m <==> s in byScript) && (s in m ==> m[s] == byScript[s])
            && DropTouches(byScript, touches + {s}, t) ==
               if s in m && m[s] - {t} == {} then m - {s} else if s in m then m[s := m[s] - {t}] else m
  {}

  lemma SpentByKnown(m: Maps, base: Maps, all: seq<MempoolTx>, i: nat)
    requires i < |all| && Inverse(m) && Inverse(base) && NoConflicts(all)
    requires forall t :: t in m.txs <==> t in base.txs || exists j :: 0 <= j < i && all[j].txid == t
    requires forall t :: t in base.txs ==> m.txs[t] == base.txs[t]
    requires forall j :: 0 <= j < i ==> m.txs[all[j].txid] == all[j]
    requires all[i].txid !in base.txs
    requires forall o :: o in all[i].spends ==> o !in base.spentBy
    ensures all[i].txid !in m.txs
    ensures forall o :: o in all[i].spends ==> o !in m.spentBy
  {
    forall t, o | t in m.txs && o in all[i].spends ensures o !in m.txs[t].spends {
      if t !in base.txs {
        var j :| 0 <= j < i && all[j].txid == t;
        assert all[j].spends !! all[i].spends;
      }
    }
  }
}
