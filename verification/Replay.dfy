/** The folded history of a script is the history a plain replay of the ledger gives it,
    even when the fold sees only some of the transactions. */
module Replay {
  import opened Collections
  import opened Ledger
  import opened ScriptFold

  // ------------------------------------------------------------------------ the specification

  /** A script's unspent outputs and their values. */
  function Money(coins: map<OutPoint, Coin>, script: Script): map<OutPoint, nat> {
    map o | o in coins && coins[o].script == script :: coins[o].value
  }

  function Owned(coins: map<OutPoint, Coin>, script: Script): map<OutPoint, Utxo> {
    map o | o in coins && coins[o].script == script :: Utxo(o, coins[o].value, coins[o].height, coins[o].position)
  }

  ghost predicate Pays(tx: Tx, script: Script) {
    exists i :: 0 <= i < |tx.outputs| && tx.outputs[i].script == script
  }

  ghost predicate SpendsFrom(coins: map<OutPoint, Coin>, tx: Tx, script: Script) {
    exists i :: 0 <= i < |tx.inputs| && tx.inputs[i] in coins && coins[tx.inputs[i]].script == script
  }

  /** Transaction `n` pays the script or spends one of its coins. */
  ghost predicate Touches(locs: seq<Loc>, n: nat, script: Script)
    requires n < |locs|
  {
    Pays(locs[n].tx, script) || SpendsFrom(Coins(locs[..n]), locs[n].tx, script)
  }

  /** One row for every transaction that touches the script, valued from the coins it finds. */
  ghost function LedgerRows(script: Script, locs: seq<Loc>): seq<Row> {
    if |locs| == 0 then []
    else
      var n := |locs| - 1;
      LedgerRows(script, locs[..n]) +
      (if Touches(locs, n, script) then [RowOf(Money(Coins(locs[..n]), script), script, locs[n])] else [])
  }

  function SumRows(rows: seq<Row>): (nat, nat, nat, nat) {
    if |rows| == 0 then (0, 0, 0, 0)
    else
      var (a, b, c, d) := SumRows(rows[..|rows|-1]);
      var r := rows[|rows|-1];
      (a + r.fundedCount, b + r.funded, c + r.spentCount, d + r.spent)
  }

  function LiveSize(script: Script, locs: seq<Loc>): nat {
    |Owned(Coins(locs), script)|
  }

  ghost predicate LiveMatches(f: State, script: Script, locs: seq<Loc>) {
    f.live == Owned(Coins(locs), script)
  }

  ghost predicate RowsMatch(f: State, script: Script, locs: seq<Loc>) {
    f.tally.rows == LedgerRows(script, locs)
  }

  ghost predicate CountsMatch(t: Tally) {
    (t.fundedCount, t.fundedSum, t.spentCount, t.spentSum) == SumRows(t.rows)
  }

  /** The peak is reached by some prefix and exceeded by none. */
  ghost predicate PeakMatches(f: State, script: Script, locs: seq<Loc>) {
    && (forall k :: 0 <= k <= |locs| ==> LiveSize(script, locs[..k]) <= f.tally.peak)
    && (exists k :: 0 <= k <= |locs| && LiveSize(script, locs[..k]) == f.tally.peak)
  }

  /** `f` holds exactly what a replay of `locs` says about the script. */
  ghost predicate IsHistoryOf(f: State, script: Script, locs: seq<Loc>) {
    && FundedExactly(f.funded, script, locs)
    && LiveMatches(f, script, locs)
    && RowsMatch(f, script, locs)
    && CountsMatch(f.tally)
    && PeakMatches(f, script, locs)
  }

  /** `funded` has exactly the outpoints some transaction pays to the script, each with its value. */
  ghost predicate FundedExactly(funded: map<OutPoint, nat>, script: Script, locs: seq<Loc>) {
    && (forall i, o :: 0 <= i < |locs| && o in PaidOutPoints(script, locs[i].tx) ==>
          o in funded && funded[o] == locs[i].tx.outputs[o.vout].value)
    && (forall o :: o in funded ==> exists i :: 0 <= i < |locs| && o in PaidOutPoints(script, locs[i].tx))
  }

  // ------------------------------------------------------------------------- one replayed step

  lemma {:induction false} SpentByAgree(a: map<OutPoint, nat>, b: map<OutPoint, nat>, inputs: seq<OutPoint>)
    requires forall o :: o in inputs ==> (o in a <==> o in b) && (o in a ==> a[o] == b[o])
    ensures SpentBy(a, inputs) == SpentBy(b, inputs)
    ensures SpentBy(a, inputs).1 > 0 <==> exists i :: 0 <= i < |inputs| && inputs[i] in a
  {
    if |inputs| > 0 {
      var n := |inputs| - 1;
      SpentByAgree(a, b, inputs[..n]);
      if SpentBy(a, inputs[..n]).1 > 0 {
        var i :| 0 <= i < n && inputs[..n][i] in a;
        assert inputs[i] in a;
      }
      if i :| 0 <= i < |inputs| && inputs[i] in a {
        if i < n { assert inputs[..n][i] in a; }
      }
    }
  }

  lemma {:induction false} PaidByCounts(script: Script, outputs: seq<Output>)
    ensures PaidBy(script, outputs).1 > 0 <==> exists i :: 0 <= i < |outputs| && outputs[i].script == script
  {
    if |outputs| > 0 {
      var n := |outputs| - 1;
      PaidByCounts(script, outputs[..n]);
      if PaidBy(script, outputs[..n]).1 > 0 {
        var i :| 0 <= i < n && outputs[..n][i].script == script;
        assert outputs[i].script == script;
      }
      if i :| 0 <= i < |outputs| && outputs[i].script == script {
        if i < n { assert outputs[..n][i].script == script; }
      }
    }
  }

  /** Among unspent coins, `funded` singles out exactly the script's. */
  lemma FundedOnCoins(funded: map<OutPoint, nat>, script: Script, locs: seq<Loc>, o: OutPoint)
    requires Valid(locs) && FundedExactly(funded, script, locs) && o in Coins(locs)
    ensures o in funded <==> Coins(locs)[o].script == script
    ensures o in funded ==> funded[o] == Coins(locs)[o].value
  {
    CoinsClosedForm(locs, o);
    var i :| 0 <= i < |locs| && Creates(locs[i].tx, o);
    assert Coins(locs)[o] == CoinOf(locs[i], o);
    if o in funded {
      var j :| 0 <= j < |locs| && o in PaidOutPoints(script, locs[j].tx);
      assert Creates(locs[j].tx, o);
      assert Coins(locs)[o] == CoinOf(locs[j], o);
    }
  }

  /** `funded` singles out the script's coins, with their values. */
  ghost predicate Singles(funded: map<OutPoint, nat>, coins: map<OutPoint, Coin>, script: Script) {
    forall o :: o in coins ==> (o in funded <==> coins[o].script == script) && (o in funded ==> funded[o] == coins[o].value)
  }

  lemma FundedStep(funded: map<OutPoint, nat>, script: Script, init: seq<Loc>, l: Loc)
    requires FundedExactly(funded, script, init)
    requires forall i :: 0 <= i < |init| ==> init[i].tx.txid != l.tx.txid
    ensures FundedExactly(funded + NewFunded(script, l.tx), script, init + [l])
  {
    var locs := init + [l];
    var funded' := funded + NewFunded(script, l.tx);
    forall i, o | 0 <= i < |locs| && o in PaidOutPoints(script, locs[i].tx)
      ensures o in funded' && funded'[o] == locs[i].tx.outputs[o.vout].value
    {
      if i < |init| { assert locs[i] == init[i]; }
    }
    forall o | o in funded' ensures exists i :: 0 <= i < |locs| && o in PaidOutPoints(script, locs[i].tx) {
      if o in NewFunded(script, l.tx) {
        assert o in PaidOutPoints(script, locs[|init|].tx);
      } else {
        var i :| 0 <= i < |init| && o in PaidOutPoints(script, init[i].tx);
        assert o in PaidOutPoints(script, locs[i].tx);
      }
    }
  }

  /** The live map follows the replay. */
  lemma LiveStep(coins: map<OutPoint, Coin>, funded: map<OutPoint, nat>, script: Script, l: Loc)
    requires Singles(funded, coins, script)
    requires forall o :: o in coins ==> o.txid != l.tx.txid
    ensures (Owned(coins, script) - OwnInputs(funded, l.tx.inputs)) + NewLive(script, l) == Owned(Connect(coins, l), script)
  {
    var live := (Owned(coins, script) - OwnInputs(funded, l.tx.inputs)) + NewLive(script, l);
    var owned := Owned(Connect(coins, l), script);
    forall o ensures (o in live <==> o in owned) && (o in live ==> live[o] == owned[o]) {
      assert o in NewCoins(l) <==> Creates(l.tx, o);
      assert o in NewLive(script, l) <==> Creates(l.tx, o) && l.tx.outputs[o.vout].script == script;
      if !Creates(l.tx, o) {
        assert o in Connect(coins, l) <==> o in coins && o !in l.tx.inputs;
      } else {
        assert Connect(coins, l)[o] == CoinOf(l, o);
      }
    }
  }

  /** Valuing inputs from `funded` is valuing them from the script's own coins. */
  lemma RowStep(coins: map<OutPoint, Coin>, funded: map<OutPoint, nat>, script: Script, l: Loc)
    requires Singles(funded, coins, script)
    requires forall i :: 0 <= i < |l.tx.inputs| ==> l.tx.inputs[i] in coins
    ensures RowOf(funded, script, l) == RowOf(Money(coins, script), script, l)
    ensures Pays(l.tx, script) <==> RowOf(funded, script, l).fundedCount > 0
    ensures SpendsFrom(coins, l.tx, script) <==> RowOf(funded, script, l).spentCount > 0
  {
    SpentByAgree(funded, Money(coins, script), l.tx.inputs);
    PaidByCounts(script, l.tx.outputs);
  }

  lemma FundedSingles(funded: map<OutPoint, nat>, script: Script, locs: seq<Loc>)
    requires Valid(locs) && FundedExactly(funded, script, locs)
    ensures Singles(funded, Coins(locs), script)
  {
    forall o | o in Coins(locs)
      ensures (o in funded <==> Coins(locs)[o].script == script) && (o in funded ==> funded[o] == Coins(locs)[o].value)
    {
      FundedOnCoins(funded, script, locs, o);
    }
  }

  lemma FreshTxid(init: seq<Loc>, tx: Tx)
    requires Valid(init) && Follows(init, tx)
    ensures forall o :: o in Coins(init) ==> o.txid != tx.txid
  {
    hide Coins;
    forall o | o in Coins(init) ensures o.txid != tx.txid { CoinsClosedForm(init, o); }
  }

  /** The row a step adds is the ledger's, and it counts exactly what touches the script. */
  lemma RowFacts(script: Script, init: seq<Loc>, l: Loc, f: State)
    requires Valid(init) && Follows(init, l.tx) && FundedExactly(f.funded, script, init)
    ensures var row := RowOf(f.funded, script, l);
            && row == RowOf(Money(Coins(init), script), script, l)
            && (Pays(l.tx, script) <==> row.fundedCount > 0)
            && (SpendsFrom(Coins(init), l.tx, script) <==> row.spentCount > 0)
  {
    FundedSingles(f.funded, script, init);
    hide Valid, FundedExactly, Singles, Coins;
    RowStep(Coins(init), f.funded, script, l);
  }

  // -------------------------------------------------------------------------------- theorems

  lemma FoldSnoc(f: State, script: Script, init: seq<Loc>, l: Loc)
    ensures FoldFrom(f, script, init + [l]) == Applied(FoldFrom(f, script, init), script, l)
  {
    hide Applied;
    Snoc(init, l);
  }

  lemma ValidSnoc(locs: seq<Loc>)
    requires Valid(locs) && |locs| > 0
    ensures Valid(locs[..|locs|-1]) && Follows(locs[..|locs|-1], locs[|locs|-1].tx)
    ensures locs == locs[..|locs|-1] + [locs[|locs|-1]]
  {
    hide Follows;
    Split(locs);
  }

  lemma CoinsSnoc(init: seq<Loc>, l: Loc)
    ensures Coins(init + [l]) == Connect(Coins(init), l)
  {
    hide Connect;
    Snoc(init, l);
  }

  lemma LedgerRowsSnoc(script: Script, init: seq<Loc>, l: Loc)
    ensures LedgerRows(script, init + [l]) == LedgerRows(script, init) +
              (if Pays(l.tx, script) || SpendsFrom(Coins(init), l.tx, script)
               then [RowOf(Money(Coins(init), script), script, l)] else [])
  {
    hide Coins, Money, RowOf, Pays, SpendsFrom;
    Snoc(init, l);
  }

  lemma NothingYet(script: Script)
    ensures IsHistoryOf(EMPTY, script, [])
  {
    var none: seq<Loc> := [];
    assert Owned(map[], script) == map[];
    assert LiveSize(script, none[..0]) == 0;
  }

  lemma LiveSnoc(script: Script, init: seq<Loc>, l: Loc, f: State)
    requires Valid(init) && Follows(init, l.tx)
    requires FundedExactly(f.funded, script, init) && LiveMatches(f, script, init)
    ensures LiveMatches(Applied(f, script, l), script, init + [l])
  {
    FreshTxid(init, l.tx);
    FundedSingles(f.funded, script, init);
    CoinsSnoc(init, l);
    hide Valid, Follows, FundedExactly, Singles, Coins, Connect, Owned, NewLive, OwnInputs, RowOf, AddRow;
    LiveStep(Coins(init), f.funded, script, l);
  }

  lemma {:induction false} ZeroCounts(funded: map<OutPoint, nat>, script: Script, inputs: seq<OutPoint>, outputs: seq<Output>)
    ensures SpentBy(funded, inputs).1 == 0 ==> SpentBy(funded, inputs).0 == 0
    ensures PaidBy(script, outputs).1 == 0 ==> PaidBy(script, outputs).0 == 0
    decreases |inputs| + |outputs|
  {
    if |inputs| > 0 { ZeroCounts(funded, script, inputs[..|inputs|-1], outputs); }
    if |outputs| > 0 { ZeroCounts(funded, script, inputs, outputs[..|outputs|-1]); }
  }

  /** How a step changes rows and counters, given the row it computes. */
  lemma TallyStep(f: State, script: Script, l: Loc, row: Row)
    requires row == RowOf(f.funded, script, l)
    ensures var t, touched := Applied(f, script, l).tally, row.fundedCount > 0 || row.spentCount > 0;
            && t.rows == f.tally.rows + (if touched then [row] else [])
            && (CountsMatch(f.tally) ==> CountsMatch(t))
            && (touched ==> t.fundedSum == f.tally.fundedSum + row.funded && t.spentSum == f.tally.spentSum + row.spent)
            && (touched ==> t.fundedCount == f.tally.fundedCount + row.fundedCount)
            && (touched ==> t.spentCount == f.tally.spentCount + row.spentCount)
            && (!touched ==> t == f.tally.(peak := t.peak))
            && (!touched ==> row.funded == 0 && row.spent == 0)
  {
    ZeroRow(f, script, l);
    AddedRow(f, script, l);
    hide SpentBy, PaidBy, Applied, RowOf, SumRows;
    RowAdds(f.tally.(peak := Applied(f, script, l).tally.peak), row);
  }

  lemma AddedRow(f: State, script: Script, l: Loc)
    ensures var t := Applied(f, script, l).tally; t == AddRow(f.tally.(peak := t.peak), RowOf(f.funded, script, l))
  {
    hide RowOf, NewLive, NewFunded, OwnInputs;
  }

  lemma ZeroRow(f: State, script: Script, l: Loc)
    ensures var row := RowOf(f.funded, script, l);
            (row.fundedCount == 0 ==> row.funded == 0) && (row.spentCount == 0 ==> row.spent == 0)
  {
    hide SpentBy, PaidBy;
    ZeroCounts(f.funded, script, l.tx.inputs, l.tx.outputs);
  }

  lemma RowAdds(t: Tally, row: Row)
    ensures var touched := row.fundedCount > 0 || row.spentCount > 0;
            && AddRow(t, row).rows == t.rows + (if touched then [row] else [])
            && (CountsMatch(t) ==> CountsMatch(AddRow(t, row)))
  {
    Snoc(t.rows, row);
    AppendNil(t.rows);
  }

  lemma RowsSnoc(script: Script, init: seq<Loc>, l: Loc, f: State)
    requires Valid(init) && Follows(init, l.tx)
    requires FundedExactly(f.funded, script, init) && RowsMatch(f, script, init) && CountsMatch(f.tally)
    ensures RowsMatch(Applied(f, script, l), script, init + [l]) && CountsMatch(Applied(f, script, l).tally)
  {
    hide Valid, Follows, FundedExactly, Coins, Money, Pays, SpendsFrom, RowOf, Applied, CountsMatch;
    RowFacts(script, init, l, f);
    LedgerRowsSnoc(script, init, l);
    hide LedgerRows;
    TallyStep(f, script, l, RowOf(f.funded, script, l));
  }

  lemma PeakStep(script: Script, init: seq<Loc>, l: Loc, peak: nat, peak': nat)
    requires forall k :: 0 <= k <= |init| ==> LiveSize(script, init[..k]) <= peak
    requires exists k :: 0 <= k <= |init| && LiveSize(script, init[..k]) == peak
    requires peak' == Max(peak, LiveSize(script, init + [l]))
    ensures forall k :: 0 <= k <= |init + [l]| ==> LiveSize(script, (init + [l])[..k]) <= peak'
    ensures exists k :: 0 <= k <= |init + [l]| && LiveSize(script, (init + [l])[..k]) == peak'
  {
    hide LiveSize;
    Snoc(init, l);
    var k :| 0 <= k <= |init| && LiveSize(script, init[..k]) == peak;
    assert LiveSize(script, (init + [l])[..if peak' == peak then k else |init| + 1]) == peak';
  }

  lemma PeakSnoc(script: Script, init: seq<Loc>, l: Loc, f: State)
    requires PeakMatches(f, script, init)
    requires LiveMatches(Applied(f, script, l), script, init + [l])
    ensures PeakMatches(Applied(f, script, l), script, init + [l])
  {
    NewPeak(f, script, l);
    hide Coins, Owned, Applied;
    assert |Applied(f, script, l).live| == LiveSize(script, init + [l]);
    hide LiveSize;
    PeakStep(script, init, l, f.tally.peak, Applied(f, script, l).tally.peak);
  }

  lemma NewPeak(f: State, script: Script, l: Loc)
    ensures Applied(f, script, l).tally.peak == Max(f.tally.peak, |Applied(f, script, l).live|)
  {
    hide RowOf, NewLive, NewFunded, OwnInputs;
  }

  /** One step of the fold keeps it equal to the replay. */
  lemma HistoryStep(script: Script, init: seq<Loc>, l: Loc, f: State)
    requires Valid(init) && Follows(init, l.tx)
    requires IsHistoryOf(f, script, init)
    ensures IsHistoryOf(Applied(f, script, l), script, init + [l])
  {
    assert FundedExactly(Applied(f, script, l).funded, script, init + [l]) by {
      assert forall i :: 0 <= i < |init| ==> init[i].tx.txid != l.tx.txid;
      hide Valid, Follows, FundedExactly, RowOf, NewLive, NewFunded, OwnInputs, AddRow;
      FundedStep(f.funded, script, init, l);
    }
    hide Valid, Follows, FundedExactly, LiveMatches, RowsMatch, CountsMatch, PeakMatches, Applied;
    LiveSnoc(script, init, l, f);
    RowsSnoc(script, init, l, f);
    PeakSnoc(script, init, l, f);
  }

  /** Folding every transaction of a valid chain is replaying it. */
  lemma {:induction false} FoldIsReplay(script: Script, locs: seq<Loc>)
    requires Valid(locs)
    ensures IsHistoryOf(FoldAll(script, locs), script, locs)
    decreases |locs|
  {
    hide IsHistoryOf, Applied, Follows;
    if |locs| == 0 {
      Nil(locs);
      NothingYet(script);
    } else {
      var init, l := locs[..|locs|-1], locs[|locs|-1];
      ValidSnoc(locs);
      FoldSnoc(EMPTY, script, init, l);
      hide FoldFrom, Valid;
      FoldIsReplay(script, init);
      HistoryStep(script, init, l, FoldAll(script, init));
    }
  }

  function Select(locs: seq<Loc>, nums: seq<nat>): (r: seq<Loc>)
    requires forall i :: 0 <= i < |nums| ==> nums[i] < |locs|
    ensures |r| == |nums|
  {
    seq(|nums|, i requires 0 <= i < |nums| => locs[nums[i]])
  }

  /** A transaction that does not touch the script leaves the fold as it is. */
  lemma UntouchedIsIdentity(script: Script, init: seq<Loc>, l: Loc)
    requires Valid(init) && Follows(init, l.tx)
    requires !Pays(l.tx, script) && !SpendsFrom(Coins(init), l.tx, script)
    ensures Applied(FoldAll(script, init), script, l) == FoldAll(script, init)
  {
    hide Valid, Follows, FundedExactly, Coins, FoldAll, SpendsFrom, Pays, FoldFrom, Applied, LiveMatches, PeakMatches, RowOf;
    var f := FoldAll(script, init);
    FoldIsReplay(script, init);
    PeakBoundsLive(f, script, init);
    RowFacts(script, init, l, f);
    SpentByAgree(f.funded, f.funded, l.tx.inputs);
    NothingPaid(script, l);
    IdentityStep(f, script, l);
  }

  lemma PeakBoundsLive(f: State, script: Script, locs: seq<Loc>)
    requires LiveMatches(f, script, locs) && PeakMatches(f, script, locs)
    ensures |f.live| <= f.tally.peak
  {
    hide Coins, Owned;
    assert locs[..|locs|] == locs;
    assert LiveSize(script, locs[..|locs|]) <= f.tally.peak;
  }

  lemma NothingPaid(script: Script, l: Loc)
    requires !Pays(l.tx, script)
    ensures NewLive(script, l) == map[] && NewFunded(script, l.tx) == map[]
  {
    assert PaidOutPoints(script, l.tx) == {};
  }

  lemma IdentityStep(f: State, script: Script, l: Loc)
    requires NewLive(script, l) == map[] && NewFunded(script, l.tx) == map[]
    requires RowOf(f.funded, script, l).fundedCount == 0 && RowOf(f.funded, script, l).spentCount == 0
    requires SpentBy(f.funded, l.tx.inputs).1 == 0 ==> forall i :: 0 <= i < |l.tx.inputs| ==> l.tx.inputs[i] !in f.funded
    requires |f.live| <= f.tally.peak
    ensures Applied(f, script, l) == f
  {
    hide SpentBy, PaidBy, NewLive, NewFunded;
    assert OwnInputs(f.funded, l.tx.inputs) == {};
    assert (f.live - {}) + map[] == f.live;
    assert f.funded + map[] == f.funded;
  }

  /** Folding an ascending selection that keeps every transaction touching the script gives
      the same fold as folding the whole chain: extra candidates (prefix collisions) and
      skipped transactions change nothing. */
  lemma {:induction false} SelectionIsEnough(script: Script, locs: seq<Loc>, nums: seq<nat>)
    requires Valid(locs)
    requires Ascending(nums, NatLess)
    requires forall i :: 0 <= i < |nums| ==> nums[i] < |locs|
    requires forall n :: 0 <= n < |locs| && Touches(locs, n, script) ==> n in nums
    ensures FoldAll(script, Select(locs, nums)) == FoldAll(script, locs)
    decreases |locs|
  {
    hide FoldFrom, Applied, Valid, Follows, Touches, Coins, Select;
    if |locs| == 0 {
      SelectNone(locs, nums);
    } else {
      var n := |locs| - 1;
      if n in nums {
        var m := LastIs(nums, n);
        SelectionPrefix(script, locs, nums, nums[..m]);
        ValidSnoc(locs);
        SelectionIsEnough(script, locs[..n], nums[..m]);
        SelectSnoc(locs, nums);
        FoldSnoc(EMPTY, script, Select(locs[..n], nums[..m]), locs[n]);
        FoldSnoc(EMPTY, script, locs[..n], locs[n]);
      } else {
        LastIsNot(nums, n);
        SelectionPrefix(script, locs, nums, nums);
        ValidSnoc(locs);
        SelectionIsEnough(script, locs[..n], nums);
        SelectFront(locs, nums);
        SkipLast(script, locs);
      }
    }
  }

  lemma SkipLast(script: Script, locs: seq<Loc>)
    requires Valid(locs) && |locs| > 0 && !Touches(locs, |locs| - 1, script)
    ensures FoldAll(script, locs) == FoldAll(script, locs[..|locs|-1])
  {
    hide FoldFrom, Valid, Follows, Coins, Applied, Pays, SpendsFrom;
    ValidSnoc(locs);
    UntouchedIsIdentity(script, locs[..|locs|-1], locs[|locs|-1]);
    FoldSnoc(EMPTY, script, locs[..|locs|-1], locs[|locs|-1]);
  }

  lemma SelectNone(locs: seq<Loc>, nums: seq<nat>)
    requires |locs| == 0 && forall i :: 0 <= i < |nums| ==> nums[i] < |locs|
    ensures Select(locs, nums) == locs
  {
    BoundOfSome(nums, |locs|);
  }

  lemma LastIsNot(nums: seq<nat>, n: nat)
    requires n !in nums && forall i :: 0 <= i < |nums| ==> nums[i] <= n
    ensures forall i :: 0 <= i < |nums| ==> nums[i] < n
  {
    forall i | 0 <= i < |nums| ensures nums[i] < n { assert nums[i] in nums; }
  }

  lemma SelectSnoc(locs: seq<Loc>, nums: seq<nat>)
    requires |nums| > 0 && forall i :: 0 <= i < |nums| ==> nums[i] < |locs|
    requires nums[|nums|-1] == |locs| - 1
    requires forall i :: 0 <= i < |nums| - 1 ==> nums[i] < |locs| - 1
    ensures Select(locs, nums) == Select(locs[..|locs|-1], nums[..|nums|-1]) + [locs[|locs|-1]]
  {}

  lemma SelectFront(locs: seq<Loc>, nums: seq<nat>)
    requires |locs| > 0 && forall i :: 0 <= i < |nums| ==> nums[i] < |locs| - 1
    ensures Select(locs, nums) == Select(locs[..|locs|-1], nums)
  {}

  /** The largest number is listed last. */
  lemma LastIs(nums: seq<nat>, n: nat) returns (m: nat)
    requires Ascending(nums, NatLess) && n in nums
    requires forall i :: 0 <= i < |nums| ==> nums[i] <= n
    ensures m == |nums| - 1 && nums[m] == n
    ensures forall i :: 0 <= i < m ==> nums[i] < n
    ensures forall k :: k in nums && k != n ==> k in nums[..m]
    ensures Ascending(nums[..m], NatLess)
  {
    m := |nums| - 1;
    var i :| 0 <= i < |nums| && nums[i] == n;
    assert i < m ==> NatLess(nums[i], nums[m]);
    forall j | 0 <= j < m ensures nums[j] < n { assert NatLess(nums[j], nums[m]); }
    forall k | k in nums && k != n ensures k in nums[..m] {
      var j :| 0 <= j < |nums| && nums[j] == k;
      assert nums[..m][j] == k;
    }
  }

  lemma SelectionPrefix(script: Script, locs: seq<Loc>, nums: seq<nat>, rest: seq<nat>)
    requires |locs| > 0
    requires forall n :: 0 <= n < |locs| && Touches(locs, n, script) ==> n in nums
    requires forall k :: k in nums && k != |locs| - 1 ==> k in rest
    ensures forall n :: 0 <= n < |locs| - 1 && Touches(locs[..|locs|-1], n, script) ==> n in rest
  {
    var init := locs[..|locs|-1];
    forall n | 0 <= n < |init| && Touches(init, n, script) ensures n in rest {
      assert init[..n] == locs[..n];
      assert Touches(locs, n, script);
    }
  }

  /** Extending a fold is folding the longer list from empty. */
  lemma {:induction false} FoldAppend(f: State, script: Script, a: seq<Loc>, b: seq<Loc>)
    ensures FoldFrom(f, script, a + b) == FoldFrom(FoldFrom(f, script, a), script, b)
    decreases |b|
  {
    hide Applied;
    if |b| == 0 {
      Nil(b);
      AppendNil(a);
    } else {
      var init, l := b[..|b|-1], b[|b|-1];
      Split(b);
      AppendAssoc(a, init, [l]);
      FoldSnoc(f, script, a + init, l);
      FoldSnoc(FoldFrom(f, script, a), script, init, l);
      hide FoldFrom;
      FoldAppend(f, script, a, init);
    }
  }

  // ------------------------------------------------------------------------- what rows and sums say

  /** The row of transaction `l`, given the coins before it: what it pays the script, and which of
      the script's coins it spends, each in value and in number. */
  ghost predicate RowSays(row: Row, coins: map<OutPoint, Coin>, script: Script, l: Loc) {
    var got, gone := Money(NewCoins(l), script), Only(Money(coins, script), SetOf(l.tx.inputs));
    && row.txid == l.tx.txid && row.height == l.height && row.position == l.position
    && row.funded == Total(got) && row.fundedCount == |got|
    && row.spent == Total(gone) && row.spentCount == |gone|
  }

  lemma RowOfSays(coins: map<OutPoint, Coin>, script: Script, l: Loc)
    requires Distinct(l.tx.inputs)
    ensures RowSays(RowOf(Money(coins, script), script, l), coins, script, l)
  {
    var m, none: map<OutPoint, nat> := Money(coins, script), map[];
    SpendTotal(m, l.tx.inputs);
    TotalSplit(m, SetOf(l.tx.inputs));
    OnlySize(m, SetOf(l.tx.inputs));
    NewMoney(script, l);
    hide Money, SetOf, Only, NewFunded;
    Snoc(l.tx.outputs, Output([], 0));
    FundedUpToAll(none, script, l.tx);
    PayTotal(none, script, l.tx, |l.tx.outputs|);
    NothingPlus(NewFunded(script, l.tx));
  }

  lemma NewMoney(script: Script, l: Loc)
    ensures Money(NewCoins(l), script) == NewFunded(script, l.tx)
  {
    forall o ensures o in Money(NewCoins(l), script) <==> o in NewFunded(script, l.tx) {
      assert o in NewCoins(l) <==> Creates(l.tx, o);
    }
  }

  lemma NothingPlus<K, V>(m: map<K, V>)
    ensures map[] + m == m
  {}

  lemma OnlySize<K(!new), V>(m: map<K, V>, s: set<K>)
    ensures |Only(m, s)| + |m - s| == |m|
  {
    assert m.Keys == Only(m, s).Keys + (m - s).Keys;
    assert |Only(m, s)| == |Only(m, s).Keys| && |m - s| == |(m - s).Keys| && |m| == |m.Keys|;
  }

  /** One row for each transaction that touches the script, in order, saying what it moved. */
  ghost predicate EachSays(rows: seq<Row>, nums: seq<nat>, script: Script, locs: seq<Loc>) {
    && |nums| == |rows| && Ascending(nums, NatLess)
    && (forall n: nat :: n in nums <==> n < |locs| && Touches(locs, n, script))
    && (forall k :: 0 <= k < |nums| ==> SaysAt(rows[k], nums[k], script, locs))
  }

  ghost predicate SaysAt(row: Row, n: nat, script: Script, locs: seq<Loc>) {
    n < |locs| && RowSays(row, Coins(locs[..n]), script, locs[n])
  }

  /** The rows of a folded history are one for each transaction that touches the script, in order,
      each saying what that transaction moved. */
  lemma RowsSay(script: Script, locs: seq<Loc>) returns (nums: seq<nat>)
    requires Valid(locs)
    ensures EachSays(FoldAll(script, locs).tally.rows, nums, script, locs)
  {
    hide Valid, FoldAll, EachSays;
    FoldIsReplay(script, locs);
    nums := LedgerRowsSay(script, locs);
  }

  lemma {:induction false} LedgerRowsSay(script: Script, locs: seq<Loc>) returns (nums: seq<nat>)
    requires Valid(locs)
    ensures EachSays(LedgerRows(script, locs), nums, script, locs)
    decreases |locs|
  {
    hide Touches, SaysAt, RowSays, RowOf, Money, Coins;
    if |locs| == 0 {
      nums := [];
    } else {
      var init, l := locs[..|locs|-1], locs[|locs|-1];
      ValidSnoc(locs);
      nums := LedgerRowsSay(script, init);
      LedgerRowsSnoc(script, init, l);
      RowOfSays(Coins(init), script, l) by { hide Valid; }
      hide Valid, LedgerRows, EachSays, Follows;
      nums := MoreSays(LedgerRows(script, init), nums, script, init, l, RowOf(Money(Coins(init), script), script, l));
      TakeAll(init, l);
    }
  }

  lemma TakeAll<T>(init: seq<T>, x: T)
    ensures (init + [x])[..|init|] == init
  {}

  lemma MoreSays(rows: seq<Row>, before: seq<nat>, script: Script, init: seq<Loc>, l: Loc, row: Row) returns (nums: seq<nat>)
    requires EachSays(rows, before, script, init) && RowSays(row, Coins(init), script, l)
    ensures EachSays(rows + (if Touches(init + [l], |init|, script) then [row] else []), nums, script, init + [l])
  {
    hide RowSays, SaysAt, Touches;
    var now, touched := init + [l], Touches(init + [l], |init|, script);
    nums := before + if touched then [|init|] else [];
    forall n: nat ensures n in nums <==> n < |now| && Touches(now, n, script) {
      if n < |init| { SameUpTo(script, init, l, n, row); }
    }
    forall k | 0 <= k < |nums| ensures SaysAt((rows + if touched then [row] else [])[k], nums[k], script, now) {
      if k < |before| {
        assert before[k] in before;
        SameUpTo(script, init, l, before[k], rows[k]);
      } else {
        SaysLast(script, init, l, row);
      }
    }
    forall i, j | 0 <= i < j < |nums| ensures NatLess(nums[i], nums[j]) {
      assert before[i] in before;
    }
  }

  lemma SameUpTo(script: Script, init: seq<Loc>, l: Loc, n: nat, row: Row)
    requires n < |init|
    ensures Touches(init + [l], n, script) <==> Touches(init, n, script)
    ensures SaysAt(row, n, script, init) ==> SaysAt(row, n, script, init + [l])
  {
    hide RowSays, Pays, SpendsFrom, Coins;
    Snoc(init, l);
  }

  lemma SaysLast(script: Script, init: seq<Loc>, l: Loc, row: Row)
    requires RowSays(row, Coins(init), script, l)
    ensures SaysAt(row, |init|, script, init + [l])
  {
    hide RowSays, Coins;
    Snoc(init, l);
  }

  /** The sums over the rows are the sums over everything ever paid to the script. */
  lemma {:induction false} FundedInAll(script: Script, locs: seq<Loc>)
    requires Valid(locs)
    ensures var f := FoldAll(script, locs); f.tally.fundedSum == Total(f.funded) && f.tally.fundedCount == |f.funded|
    decreases |locs|
  {
    hide Applied, Follows;
    if |locs| > 0 {
      var init, l := locs[..|locs|-1], locs[|locs|-1];
      ValidSnoc(locs);
      FoldSnoc(EMPTY, script, init, l);
      FundedInAll(script, init);
      FoldIsReplay(script, init);
      hide FoldFrom, Valid, Coins, FoldAll;
      hide LiveMatches, RowsMatch, CountsMatch, PeakMatches;
      FundedMore(script, init, l, FoldAll(script, init));
    }
  }

  lemma FundedMore(script: Script, init: seq<Loc>, l: Loc, f: State)
    requires Valid(init) && Follows(init, l.tx) && FundedExactly(f.funded, script, init)
    requires f.tally.fundedSum == Total(f.funded) && f.tally.fundedCount == |f.funded|
    ensures var g := Applied(f, script, l); g.tally.fundedSum == Total(g.funded) && g.tally.fundedCount == |g.funded|
  {
    FundedApart(script, init, l, f.funded);
    RowOfSays(Coins(init), script, l) by { hide Valid, Coins, FundedExactly; }
    RowFacts(script, init, l, f);
    NewMoney(script, l);
    hide Coins, Valid, Follows, FundedExactly, RowOf, Money, Total, Pays, SpendsFrom, CountsMatch, Applied, NewFunded, Only;
    TallyStep(f, script, l, RowOf(f.funded, script, l));
    TotalUnion(f.funded, NewFunded(script, l.tx));
    UnionSize(f.funded, NewFunded(script, l.tx));
    FundedAfter(f, script, l);
  }

  lemma FundedApart(script: Script, init: seq<Loc>, l: Loc, funded: map<OutPoint, nat>)
    requires Follows(init, l.tx) && FundedExactly(funded, script, init)
    ensures funded.Keys !! NewFunded(script, l.tx).Keys
  {
    hide Coins, Distinct;
    forall o | o in funded ensures o.txid != l.tx.txid {
      var i :| 0 <= i < |init| && o in PaidOutPoints(script, init[i].tx);
    }
  }

  lemma UnionSize<K, V>(a: map<K, V>, b: map<K, V>)
    requires a.Keys !! b.Keys
    ensures |a + b| == |a| + |b|
  {
    assert (a + b).Keys == a.Keys + b.Keys;
    assert |a + b| == |(a + b).Keys| && |a| == |a.Keys| && |b| == |b.Keys|;
  }

  lemma FundedAfter(f: State, script: Script, l: Loc)
    ensures Applied(f, script, l).funded == f.funded + NewFunded(script, l.tx)
  {
    hide RowOf, AddRow, NewLive;
  }

  // ---------------------------------------------------------------------------- conservation

  lemma {:induction false} SpendTotal(m: map<OutPoint, nat>, inputs: seq<OutPoint>)
    requires Distinct(inputs)
    ensures Total(m - SetOf(inputs)) + SpentBy(m, inputs).0 == Total(m)
    ensures |m - SetOf(inputs)| + SpentBy(m, inputs).1 == |m|
    decreases |inputs|
  {
    hide SetOf, Total;
    if |inputs| == 0 {
      DropNothing(m, inputs);
    } else {
      var n := |inputs| - 1;
      SpendTotal(m, inputs[..n]);
      DropLast(m, inputs);
      hide Distinct;
      DropOne(m - SetOf(inputs[..n]), inputs[n]);
    }
  }

  lemma DropNothing(m: map<OutPoint, nat>, inputs: seq<OutPoint>)
    requires |inputs| == 0
    ensures m - SetOf(inputs) == m
  {}

  lemma DropLast(m: map<OutPoint, nat>, inputs: seq<OutPoint>)
    requires Distinct(inputs) && |inputs| > 0
    ensures var n := |inputs| - 1;
            var rest := m - SetOf(inputs[..n]);
            m - SetOf(inputs) == rest - {inputs[n]} && (inputs[n] in m <==> inputs[n] in rest)
  {
    var n := |inputs| - 1;
    assert SetOf(inputs) == SetOf(inputs[..n]) + {inputs[n]};
    assert inputs[n] !in SetOf(inputs[..n]);
  }

  lemma DropOne(m: map<OutPoint, nat>, o: OutPoint)
    ensures Total(m - {o}) + (if o in m then m[o] else 0) == Total(m)
    ensures |m - {o}| + (if o in m then 1 else 0) == |m|
  {
    if o in m {
      TotalRemove(m, o);
      assert (m - {o}).Keys == m.Keys - {o};
    } else {
      assert m - {o} == m;
    }
  }

  lemma {:induction false} PayTotal(m: map<OutPoint, nat>, script: Script, tx: Tx, i: nat)
    requires i <= |tx.outputs|
    requires forall o :: o in m ==> o.txid != tx.txid
    ensures Total(FundedUpTo(m, script, tx, i)) == Total(m) + PaidBy(script, tx.outputs[..i]).0
    ensures |FundedUpTo(m, script, tx, i)| == |m| + PaidBy(script, tx.outputs[..i]).1
  {
    if i > 0 {
      PayTotal(m, script, tx, i - 1);
      assert tx.outputs[..i][..i-1] == tx.outputs[..i-1];
      if tx.outputs[i-1].script == script {
        var o := OutPoint(tx.txid, i - 1);
        FundedUpToAt(m, script, tx, i - 1, o);
        TotalInsert(FundedUpTo(m, script, tx, i - 1), o, tx.outputs[i-1].value);
      }
    }
  }

  /** The script's money after one transaction. */
  lemma MoneyStep(coins: map<OutPoint, Coin>, script: Script, l: Loc)
    requires Distinct(l.tx.inputs)
    requires forall o :: o in coins ==> o.txid != l.tx.txid
    ensures var before, after := Money(coins, script), Money(Connect(coins, l), script);
            var row := RowOf(before, script, l);
            && Total(after) + row.spent == Total(before) + row.funded
            && |after| + row.spentCount == |before| + row.fundedCount
  {
    var before := Money(coins, script);
    var rest := before - SetOf(l.tx.inputs);
    SpendTotal(before, l.tx.inputs);
    MoneyConnect(coins, script, l);
    hide Money, Connect, SetOf, Distinct, NewFunded;
    Snoc(l.tx.outputs, Output([], 0));
    FundedUpToAll(rest, script, l.tx);
    PayTotal(rest, script, l.tx, |l.tx.outputs|);
  }

  lemma MoneyConnect(coins: map<OutPoint, Coin>, script: Script, l: Loc)
    requires forall o :: o in coins ==> o.txid != l.tx.txid
    ensures Money(Connect(coins, l), script) == (Money(coins, script) - SetOf(l.tx.inputs)) + NewFunded(script, l.tx)
    ensures forall o :: o in Money(coins, script) - SetOf(l.tx.inputs) ==> o.txid != l.tx.txid
  {
    var after, sum := Money(Connect(coins, l), script), (Money(coins, script) - SetOf(l.tx.inputs)) + NewFunded(script, l.tx);
    forall o ensures (o in after <==> o in sum) && (o in after ==> after[o] == sum[o]) {
      assert o in NewCoins(l) <==> Creates(l.tx, o);
      assert o in PaidOutPoints(script, l.tx) <==> Creates(l.tx, o) && l.tx.outputs[o.vout].script == script;
      if !Creates(l.tx, o) {
        assert o in Connect(coins, l) <==> o in coins && o !in l.tx.inputs;
      } else {
        assert Connect(coins, l)[o] == CoinOf(l, o);
      }
    }
  }

  /** What a script received minus what it spent is what it still holds, in value and in
      number, after every prefix of a valid history. */
  lemma {:induction false} Conservation(script: Script, locs: seq<Loc>)
    requires Valid(locs)
    ensures Conserved(FoldAll(script, locs).tally, Money(Coins(locs), script))
    decreases |locs|
  {
    hide Money, Applied, Connect, Conserved, Owned, Follows;
    if |locs| == 0 {
      NoMoney(script);
    } else {
      var init, l := locs[..|locs|-1], locs[|locs|-1];
      ValidSnoc(locs);
      FoldSnoc(EMPTY, script, init, l);
      CoinsSnoc(init, l);
      hide FoldFrom, Valid, Coins, FoldAll;
      Conservation(script, init);
      FoldIsReplay(script, init);
      hide FundedExactly, LiveMatches, RowsMatch, CountsMatch, PeakMatches;
      ConservationStep(script, init, l, FoldAll(script, init));
    }
  }

  /** The live set and the money are the same outpoints. */
  lemma LiveIsMoney(script: Script, locs: seq<Loc>)
    requires Valid(locs)
    ensures FoldAll(script, locs).live.Keys == Money(Coins(locs), script).Keys
    ensures |FoldAll(script, locs).live| == |Money(Coins(locs), script)|
  {
    hide FoldAll, Coins, Owned, Money, Valid, RowsMatch, CountsMatch, PeakMatches, FundedExactly;
    FoldIsReplay(script, locs);
    SameSize(Coins(locs), script);
  }

  ghost predicate Conserved(t: Tally, money: map<OutPoint, nat>) {
    && t.fundedSum == t.spentSum + Total(money)
    && t.fundedCount == t.spentCount + |money|
  }

  lemma ConservationStep(script: Script, init: seq<Loc>, l: Loc, f: State)
    requires Valid(init) && Follows(init, l.tx) && FundedExactly(f.funded, script, init)
    requires Conserved(f.tally, Money(Coins(init), script))
    ensures Conserved(Applied(f, script, l).tally, Money(Connect(Coins(init), l), script))
  {
    hide Distinct, Coins, Connect, Money, Valid, FundedExactly, Applied, Pays, SpendsFrom, CountsMatch, RowOf, Total;
    var row := RowOf(f.funded, script, l);
    FreshTxid(init, l.tx);
    RowFacts(script, init, l, f);
    MoneyStep(Coins(init), script, l);
    hide Follows;
    TallyStep(f, script, l, row);
  }

  lemma NoMoney(script: Script)
    ensures Conserved(EMPTY.tally, Money(map[], script))
  {
    assert Money(map[], script) == map[];
  }

  lemma SameSize(coins: map<OutPoint, Coin>, script: Script)
    ensures |Owned(coins, script)| == |Money(coins, script)|
    ensures Owned(coins, script).Keys == Money(coins, script).Keys
  {
    assert Owned(coins, script).Keys == Money(coins, script).Keys;
    assert |Owned(coins, script).Keys| == |Money(coins, script).Keys|;
  }

  /** Every live output was paid by a recorded row, at that row's place in the chain. */
  ghost predicate RowPays(f: State, o: OutPoint, i: nat)
    requires o in f.live
  {
    && i < |f.tally.rows|
    && f.tally.rows[i].txid == o.txid && f.tally.rows[i].fundedCount > 0
    && f.tally.rows[i].height == f.live[o].height && f.tally.rows[i].position == f.live[o].position
  }

  lemma {:induction false} LiveBelongsToRow(script: Script, locs: seq<Loc>, o: OutPoint) returns (i: nat)
    requires Valid(locs) && o in FoldAll(script, locs).live
    ensures RowPays(FoldAll(script, locs), o, i)
    decreases |locs|
  {
    hide Applied, Follows, RowPays, Coins;
    assert |locs| > 0;
    var init, l := locs[..|locs|-1], locs[|locs|-1];
    ValidSnoc(locs);
    FoldSnoc(EMPTY, script, init, l);
    hide FoldFrom, Valid;
    if o in FoldAll(script, init).live && o !in NewLive(script, l) {
      i := LiveBelongsToRow(script, init, o);
      RowKept(FoldAll(script, init), script, l, o, i);
    } else {
      i := |FoldAll(script, init).tally.rows|;
      FoldIsReplay(script, init);
      NewRowPays(FoldAll(script, init), script, init, l, o);
    }
  }

  lemma RowKept(f: State, script: Script, l: Loc, o: OutPoint, i: nat)
    requires o in f.live && RowPays(f, o, i)
    requires o !in NewLive(script, l) && o in Applied(f, script, l).live
    ensures RowPays(Applied(f, script, l), o, i)
  {
    hide RowOf, NewLive, NewFunded, OwnInputs;
  }

  lemma NewRowPays(f: State, script: Script, init: seq<Loc>, l: Loc, o: OutPoint)
    requires Valid(init) && Follows(init, l.tx) && FundedExactly(f.funded, script, init)
    requires o in Applied(f, script, l).live && (o !in f.live || o in NewLive(script, l))
    ensures RowPays(Applied(f, script, l), o, |f.tally.rows|)
  {
    RowFacts(script, init, l, f);
    hide Valid, Follows, FundedExactly, SpendsFrom, OwnInputs, NewFunded, Coins, Money;
    assert o in PaidOutPoints(script, l.tx);
    assert Pays(l.tx, script);
  }
}
