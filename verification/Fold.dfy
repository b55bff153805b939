/** One script's confirmed history, folded in one pass over the transactions that may
    touch it, and its agreement with a plain replay of the whole ledger. */
module ScriptFold {
  import opened Ledger

  datatype Row = Row(txid: Txid, height: nat, position: nat,
                     funded: nat, fundedCount: nat, spent: nat, spentCount: nat)

  datatype Utxo = Utxo(outpoint: OutPoint, value: nat, height: nat, position: nat)

  /** Rows and counters of a script's history, without its unspent outputs. */
  datatype Tally = Tally(rows: seq<Row>, fundedCount: nat, fundedSum: nat,
                         spentCount: nat, spentSum: nat, peak: nat)

  datatype State = State(tally: Tally, funded: map<OutPoint, nat>, live: map<OutPoint, Utxo>)

  const EMPTY := State(Tally([], 0, 0, 0, 0, 0), map[], map[])

  // ---------------------------------------------------------------- the fold, as a function

  /** Value and number of the inputs found in `funded`. */
  function SpentBy(funded: map<OutPoint, nat>, inputs: seq<OutPoint>): (r: (nat, nat)) {
    if |inputs| == 0 then (0, 0)
    else
      var n := |inputs| - 1;
      var (sum, count) := SpentBy(funded, inputs[..n]);
      if inputs[n] in funded then (sum + funded[inputs[n]], count + 1) else (sum, count)
  }

  /** What the outputs pay the script: sum and number. */
  function PaidBy(script: Script, outputs: seq<Output>): (r: (nat, nat)) {
    if |outputs| == 0 then (0, 0)
    else
      var n := |outputs| - 1;
      var (sum, count) := PaidBy(script, outputs[..n]);
      if outputs[n].script == script then (sum + outputs[n].value, count + 1) else (sum, count)
  }

  /** The outpoints of `tx` that pay the script. */
  function PaidOutPoints(script: Script, tx: Tx): set<OutPoint> {
    set o | o in OutPoints(tx) && tx.outputs[o.vout].script == script
  }

  function NewFunded(script: Script, tx: Tx): map<OutPoint, nat> {
    map o | o in PaidOutPoints(script, tx) :: tx.outputs[o.vout].value
  }

  function NewLive(script: Script, l: Loc): map<OutPoint, Utxo> {
    map o | o in PaidOutPoints(script, l.tx) :: Utxo(o, l.tx.outputs[o.vout].value, l.height, l.position)
  }

  function RowOf(funded: map<OutPoint, nat>, script: Script, l: Loc): Row {
    var (spent, spentCount) := SpentBy(funded, l.tx.inputs);
    var (paid, paidCount) := PaidBy(script, l.tx.outputs);
    Row(l.tx.txid, l.height, l.position, paid, paidCount, spent, spentCount)
  }

  function AddRow(t: Tally, row: Row): Tally {
    if row.fundedCount > 0 || row.spentCount > 0 then
      t.(rows := t.rows + [row],
         fundedCount := t.fundedCount + row.fundedCount, fundedSum := t.fundedSum + row.funded,
         spentCount := t.spentCount + row.spentCount, spentSum := t.spentSum + row.spent)
    else t
  }

  function Max(a: nat, b: nat): nat { if a < b then b else a }

  /** The inputs found in `funded`. */
  function OwnInputs(funded: map<OutPoint, nat>, inputs: seq<OutPoint>): set<OutPoint> {
    set o | o in inputs && o in funded
  }

  function Applied(f: State, script: Script, l: Loc): State {
    var live := (f.live - OwnInputs(f.funded, l.tx.inputs)) + NewLive(script, l);
    State(AddRow(f.tally.(peak := Max(f.tally.peak, |live|)), RowOf(f.funded, script, l)),
          f.funded + NewFunded(script, l.tx),
          live)
  }

  function FoldFrom(f: State, script: Script, locs: seq<Loc>): State {
    if |locs| == 0 then f
    else Applied(FoldFrom(f, script, locs[..|locs|-1]), script, locs[|locs|-1])
  }

  function FoldAll(script: Script, locs: seq<Loc>): State {
    FoldFrom(EMPTY, script, locs)
  }

  // ------------------------------------------------------------- the fold, as the code runs it

  /** The mutable fold, updated transaction by transaction. */
  class Fold {
    var tally: Tally
    var funded: map<OutPoint, nat>
    var live: map<OutPoint, Utxo>

    function Value(): State
      reads this
    {
      State(tally, funded, live)
    }

    constructor (start: State)
      ensures Value() == start
    {
      tally, funded, live := start.tally, start.funded, start.live;
    }

    /** Removes what the inputs spend of the script's outputs. */
    method SpendInputs(inputs: seq<OutPoint>) returns (spent: nat, count: nat)
      modifies this`live
      ensures (spent, count) == SpentBy(funded, inputs)
      ensures live == old(live) - OwnInputs(funded, inputs)
    {
      spent, count := 0, 0;
      for i := 0 to |inputs|
        invariant (spent, count) == SpentBy(funded, inputs[..i])
        invariant live == old(live) - OwnInputs(funded, inputs[..i])
      {
        assert inputs[..i+1][..i] == inputs[..i];
        assert inputs[..i+1] == inputs[..i] + [inputs[i]];
        if inputs[i] in funded {
          spent, count := spent + funded[inputs[i]], count + 1;
          live := live - {inputs[i]};
        }
      }
      assert inputs[..|inputs|] == inputs;
    }

    /** Records the outputs paying the script. */
    method FundOutputs(script: Script, l: Loc) returns (paid: nat, count: nat)
      modifies this`funded, this`live
      ensures (paid, count) == PaidBy(script, l.tx.outputs)
      ensures funded == old(funded) + NewFunded(script, l.tx)
      ensures live == old(live) + NewLive(script, l)
    {
      paid, count := 0, 0;
      var outputs := l.tx.outputs;
      for i := 0 to |outputs|
        invariant (paid, count) == PaidBy(script, outputs[..i])
        invariant funded == FundedUpTo(old(funded), script, l.tx, i)
        invariant live == LiveUpTo(old(live), script, l, i)
      {
        assert outputs[..i+1][..i] == outputs[..i];
        if outputs[i].script == script {
          var outpoint := OutPoint(l.tx.txid, i);
          paid, count := paid + outputs[i].value, count + 1;
          funded := funded[outpoint := outputs[i].value];
          live := live[outpoint := Utxo(outpoint, outputs[i].value, l.height, l.position)];
        }
      }
      assert outputs[..|outputs|] == outputs;
      FundedUpToAll(old(funded), script, l.tx);
      LiveUpToAll(old(live), script, l);
    }

    /** One step: the new state is that of the step function. */
    method Apply(script: Script, l: Loc)
      modifies this
      ensures Value() == Applied(old(Value()), script, l)
    {
      var spent, spentCount := SpendInputs(l.tx.inputs);
      var paid, paidCount := FundOutputs(script, l);
      var row := Row(l.tx.txid, l.height, l.position, paid, paidCount, spent, spentCount);
      tally := tally.(peak := Max(tally.peak, |live|));
      if row.fundedCount > 0 || row.spentCount > 0 {
        tally := tally.(rows := tally.rows + [row],
                        fundedCount := tally.fundedCount + row.fundedCount, fundedSum := tally.fundedSum + row.funded,
                        spentCount := tally.spentCount + row.spentCount, spentSum := tally.spentSum + row.spent);
      }
    }
  }

  ghost function FundedUpTo(base: map<OutPoint, nat>, script: Script, tx: Tx, i: nat): map<OutPoint, nat>
    requires i <= |tx.outputs|
  {
    if i == 0 then base
    else
      var m := FundedUpTo(base, script, tx, i - 1);
      if tx.outputs[i-1].script == script then m[OutPoint(tx.txid, i - 1) := tx.outputs[i-1].value] else m
  }

  ghost function LiveUpTo(base: map<OutPoint, Utxo>, script: Script, l: Loc, i: nat): map<OutPoint, Utxo>
    requires i <= |l.tx.outputs|
  {
    if i == 0 then base
    else
      var m := LiveUpTo(base, script, l, i - 1);
      var o := OutPoint(l.tx.txid, i - 1);
      if l.tx.outputs[i-1].script == script then m[o := Utxo(o, l.tx.outputs[i-1].value, l.height, l.position)] else m
  }

  lemma {:induction false} FundedUpToAt(base: map<OutPoint, nat>, script: Script, tx: Tx, i: nat, o: OutPoint)
    requires i <= |tx.outputs|
    ensures var m := FundedUpTo(base, script, tx, i);
            if o in PaidOutPoints(script, tx) && o.vout < i then o in m && m[o] == tx.outputs[o.vout].value
            else (o in m <==> o in base) && (o in m ==> m[o] == base[o])
  {
    if i > 0 {
      FundedUpToAt(base, script, tx, i - 1, o);
      assert o == OutPoint(o.txid, o.vout);
    }
  }

  lemma FundedUpToAll(base: map<OutPoint, nat>, script: Script, tx: Tx)
    ensures FundedUpTo(base, script, tx, |tx.outputs|) == base + NewFunded(script, tx)
  {
    forall o ensures o in FundedUpTo(base, script, tx, |tx.outputs|) <==> o in base + NewFunded(script, tx)
      ensures o in FundedUpTo(base, script, tx, |tx.outputs|) ==>
                FundedUpTo(base, script, tx, |tx.outputs|)[o] == (base + NewFunded(script, tx))[o] {
      FundedUpToAt(base, script, tx, |tx.outputs|, o);
    }
  }

  lemma {:induction false} LiveUpToAt(base: map<OutPoint, Utxo>, script: Script, l: Loc, i: nat, o: OutPoint)
    requires i <= |l.tx.outputs|
    ensures var m := LiveUpTo(base, script, l, i);
            if o in PaidOutPoints(script, l.tx) && o.vout < i then
              o in m && m[o] == Utxo(o, l.tx.outputs[o.vout].value, l.height, l.position)
            else (o in m <==> o in base) && (o in m ==> m[o] == base[o])
  {
    if i > 0 {
      LiveUpToAt(base, script, l, i - 1, o);
      assert o == OutPoint(o.txid, o.vout);
    }
  }

  lemma LiveUpToAll(base: map<OutPoint, Utxo>, script: Script, l: Loc)
    ensures LiveUpTo(base, script, l, |l.tx.outputs|) == base + NewLive(script, l)
  {
    forall o ensures o in LiveUpTo(base, script, l, |l.tx.outputs|) <==> o in base + NewLive(script, l)
      ensures o in LiveUpTo(base, script, l, |l.tx.outputs|) ==>
                LiveUpTo(base, script, l, |l.tx.outputs|)[o] == (base + NewLive(script, l))[o] {
      LiveUpToAt(base, script, l, |l.tx.outputs|, o);
    }
  }
}
