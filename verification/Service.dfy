/** What a subscriber is told about the ledger, given that the subscription protocol is served by
    the queries: the last status sent is the one a plain replay and the mempool give. */
module Service {
  import opened Collections
  import opened Ledger
  import opened ScriptFold
  import opened Replay
  import opened Chain
  import opened Mempool
  import opened MempoolView
  import opened Wallet
  import opened Histories
  import opened Statuses
  import opened Subscriptions

  /** The outpoints and values a finished history lists as unspent. */
  ghost predicate ListsConfirmed(utxos: seq<Utxo>, confirmed: map<OutPoint, nat>) {
    && (forall u :: u in utxos ==> u.outpoint in confirmed && confirmed[u.outpoint] == u.value)
    && (forall o :: o in confirmed ==> exists u :: u in utxos && u.outpoint == o)
  }

  /** The status worked out from a finished history and a mempool. */
  ghost predicate IsStatus(x: Status, h: History, m: Maps, script: Script) {
    exists view, confirmed :: StatusBy(x, h, m, script, view, confirmed)
  }

  ghost predicate StatusBy(x: Status, h: History, m: Maps, script: Script, view: View, confirmed: map<OutPoint, nat>) {
    && ListsConfirmed(h.utxos, confirmed)
    && IsViewOf(view, m, script, confirmed, MinedTxids(h.tally.rows))
    && x == HistoryEntries(h.tally.rows, view.entries)
  }

  /** The status is the ledger's, for every list of waiting transactions the mempool index stands
      for, if and only if the heights hold. */
  ghost predicate LedgersIfHeightsHold(x: Status, locs: seq<Loc>, m: Maps, script: Script) {
    forall pool, rest :: Stands(m, pool, rest, locs) ==> (IsLedgerStatus(x, locs, rest, script) <==> HeightsHold(m, locs, rest, script))
  }

  /** How the queries stand behind the states of the protocol: each chain held is a valid one of
      known blocks and its tip names it; a history read from it is its folded history, which is
      what the history query answers; a status is worked out from that history and the mempool
      polled, as `ScriptStatus` does. */
  ghost predicate Serves(w: World, blocks: map<Hash, Block>, chains: nat -> seq<Block>, mempools: nat -> Maps, script: Script) {
    && (forall i :: KnownChain(blocks, chains(i)) && Valid(Locs(chains(i))) && w.tip(i) == TipOfChain(chains(i)))
    && (forall i :: w.history(i, script) == Finish(FoldAll(script, Locs(chains(i)))))
    && (forall i, j :: IsStatus(w.status(w.history(i, script), j, script), w.history(i, script), mempools(j), script))
  }

  function TipOfChain(chain: seq<Block>): Option<Tip> {
    if |chain| == 0 then None else Some(TipHash(chain))
  }

  /** Works out a script's status from its finished history and the mempool index. */
  method ScriptStatus(index: Index, script: Script, h: History) returns (x: Status)
    requires Inverse(index.Value()) && Shaped(index.Value())
    requires forall i, j :: 0 <= i < j < |h.utxos| ==> h.utxos[i].outpoint != h.utxos[j].outpoint
    ensures IsStatus(x, h, index.Value(), script)
  {
    hide Inverse, Shaped, IsViewOf, HistoryEntries, MinedTxids;
    var confirmed: map<OutPoint, nat> := map[];
    for i := 0 to |h.utxos|
      invariant ListsConfirmed(h.utxos[..i], confirmed)
    {
      Chain.OneMore(h.utxos, i);
      assert forall u :: u in h.utxos[..i] ==> u.outpoint != h.utxos[i].outpoint;
      confirmed := OneMoreConfirmed(h.utxos[..i], confirmed, h.utxos[i]);
    }
    assert h.utxos[..|h.utxos|] == h.utxos;
    var view := ScriptView(index, script, confirmed, MinedTxids(h.tally.rows));
    x := HistoryEntries(h.tally.rows, view.entries);
    assert StatusBy(x, h, index.Value(), script, view, confirmed);
  }

  function OneMoreConfirmed(utxos: seq<Utxo>, confirmed: map<OutPoint, nat>, u: Utxo): (r: map<OutPoint, nat>)
    requires ListsConfirmed(utxos, confirmed) && forall v :: v in utxos ==> v.outpoint != u.outpoint
    ensures ListsConfirmed(utxos + [u], r)
  {
    assert forall v :: v in utxos + [u] <==> v in utxos || v == u;
    assert u in utxos + [u];
    confirmed[u.outpoint := u.value]
  }

  lemma ListedIsMoney(script: Script, locs: seq<Loc>, confirmed: map<OutPoint, nat>)
    requires Valid(locs) && ListsConfirmed(Finish(FoldAll(script, locs)).utxos, confirmed)
    ensures confirmed == Money(Coins(locs), script)
    ensures Finish(FoldAll(script, locs)).tally.rows == LedgerRows(script, locs)
  {
    FoldIsReplay(script, locs);
    FinishLists(script, locs);
    hide Valid, Coins, FoldAll, LedgerRows, Finish, FundedExactly, CountsMatch, PeakMatches;
    var u := Finish(FoldAll(script, locs)).utxos;
    UtxosAre(u, Coins(locs), script, confirmed);
    FinishKeepsRows(FoldAll(script, locs));
  }

  lemma FinishKeepsRows(f: ScriptFold.State)
    ensures Finish(f).tally == f.tally
  {}

  lemma UtxosAre(u: seq<Utxo>, coins: map<OutPoint, Coin>, script: Script, confirmed: map<OutPoint, nat>)
    requires SetOf(u) == UtxosIn(Owned(coins, script)) && ListsConfirmed(u, confirmed)
    ensures confirmed == Money(coins, script)
  {
    assert forall x :: x in u <==> x in UtxosIn(Owned(coins, script));
    forall o ensures (o in confirmed <==> o in Money(coins, script)) && (o in confirmed ==> confirmed[o] == Money(coins, script)[o]) {
      if o in Money(coins, script) {
        assert Owned(coins, script)[o] in u;
      }
    }
  }

  /** A status worked out from the folded history is the one the ledger gives, by the protocol's
      rule of heights, if and only if the heights hold. */
  lemma StatusIsLedgers(x: Status, script: Script, locs: seq<Loc>, m: Maps)
    requires Valid(locs) && IsStatus(x, Finish(FoldAll(script, locs)), m, script)
    ensures LedgersIfHeightsHold(x, locs, m, script)
  {
    hide Valid, Coins, FoldAll, LedgerRows, Finish, Money, EntriesOk, MinedTxids, HistoryEntries, IsLedgerStatus, HeightsHold, Stands;
    var view, confirmed :| StatusBy(x, Finish(FoldAll(script, locs)), m, script, view, confirmed);
    ListedIsMoney(script, locs, confirmed);
    forall pool, rest | Stands(m, pool, rest, locs) ensures IsLedgerStatus(x, locs, rest, script) <==> HeightsHold(m, locs, rest, script) {
      StatusExactly(m, script, locs, pool, rest, view.entries);
    }
  }

  /** From the chain to a subscriber, given that the queries stand behind the protocol: in every
      run, whenever nothing is waiting, the last status a session was sent for a script that the
      latest wake did not skip is the one the ledger gives, the chain being the one the script was
      last read at and the waiting transactions those of the current mempool, if and only if the
      heights hold; and that chain is the current one if its tip is. */
  lemma SessionsSeeTheLedger(w: World, blocks: map<Hash, Block>, chains: nat -> seq<Block>, mempools: nat -> Maps,
                             states: seq<Subscriptions.State>, steps: seq<Step>, k: nat, script: Script)
    requires IsRun(w, states, steps) && k <= |steps| && Quiet(w, states[k])
    requires Serves(w, blocks, chains, mempools, script) && script in states[k].session.scripts
    ensures var st, tr := states[k], TraceAt(states, steps, k);
            && script in tr.read && script in tr.worked
            && var last := LastSent(st.session.sent, script);
            && last.Some?
            && LedgersIfHeightsHold(last.value, Locs(chains(tr.read[script])), mempools(tr.worked[script]), script)
            && (script !in tr.skipped ==> tr.worked[script] == st.server.mempool)
            && (w.tip(tr.read[script]) == w.tip(st.server.chain) <==> chains(tr.read[script]) == chains(st.server.chain))
  {
    WhatIsHeld(w, states, steps, k, script);
    hide IsRun, TraceAt, Quiet, LastSent, IsStatus, LedgersIfHeightsHold, Valid, Locs, FoldAll, Finish, KnownChain;
    var st, tr := states[k], TraceAt(states, steps, k);
    var read, worked := tr.read[script], tr.worked[script];
    StatusIsLedgers(w.status(w.history(read, script), worked, script), script, Locs(chains(read)), mempools(worked));
    TipsNameChains(blocks, chains(read), chains(st.server.chain));
  }

  lemma TipsNameChains(blocks: map<Hash, Block>, a: seq<Block>, b: seq<Block>)
    requires KnownChain(blocks, a) && KnownChain(blocks, b)
    ensures TipOfChain(a) == TipOfChain(b) <==> a == b
  {
    TipIsSome(a);
    TipIsSome(b);
    if TipOfChain(a) == TipOfChain(b) { SameTipSameChain(blocks, a, b); }
  }

  /** In particular, whenever the tip is new and the script's refresh has not failed, it is the
      current ledger's if and only if the heights hold; and they hold once the mempool was polled
      after the refresh. */
  lemma NewTipsAreSeen(w: World, blocks: map<Hash, Block>, chains: nat -> seq<Block>, mempools: nat -> Maps,
                       states: seq<Subscriptions.State>, steps: seq<Step>, k: nat, script: Script)
    requires IsRun(w, states, steps) && k <= |steps| && Quiet(w, states[k]) && TipIsNew(w, states[k].server.chain)
    requires Serves(w, blocks, chains, mempools, script) && script in states[k].session.scripts
    requires script !in TraceAt(states, steps, k).failed
    ensures var st, last := states[k], LastSent(states[k].session.sent, script);
            && last.Some?
            && var locs, m := Locs(chains(st.server.chain)), mempools(st.server.mempool);
            && LedgersIfHeightsHold(last.value, locs, m, script)
            && (forall rest :: Stands(m, rest, rest, locs) ==> IsLedgerStatus(last.value, locs, rest, script))
  {
    SessionsSeeTheLedger(w, blocks, chains, mempools, states, steps, k, script);
    NothingIsLost(w, states, steps, k);
    UpToDateExactly(w, states, steps, k, script);
    SkippedFailed(w, states, steps, k);
    hide IsRun, TraceAt, Quiet, LastSent, Serves, IsLedgerStatus, Valid, Locs, Stands, HeightsHold, TipIsNew, UpToDate;
    var locs, m := Locs(chains(states[k].server.chain)), mempools(states[k].server.mempool);
    forall rest | Stands(m, rest, rest, locs) ensures HeightsHold(m, locs, rest, script) {
      PolledHeightsHold(m, script, locs, rest);
    }
  }

  lemma SkippedFailed(w: World, states: seq<Subscriptions.State>, steps: seq<Step>, k: nat)
    requires IsRun(w, states, steps) && k <= |steps|
    ensures TraceAt(states, steps, k).skipped <= TraceAt(states, steps, k).failed
  {
    RunKeeps(w, states, steps, k);
  }
}
