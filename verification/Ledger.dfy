/** The abstract ledger every fast structure is compared with: located transactions,
    the coins a plain replay leaves unspent, and what a valid history is. */
module Ledger {
  import opened Collections

  type Byte = b: int | 0 <= b < 256
  type Script = seq<Byte>
  type Txid = nat

  datatype OutPoint = OutPoint(txid: Txid, vout: nat)
  datatype Output = Output(script: Script, value: nat)

  /** A parsed transaction. `inputs` holds the previous outputs it spends on this chain,
      so a coinbase has none; `raw` is its serialized form. */
  datatype Tx = Tx(txid: Txid, inputs: seq<OutPoint>, outputs: seq<Output>, raw: seq<Byte>)

  /** A transaction at its place in the chain. */
  datatype Loc = Loc(tx: Tx, height: nat, position: nat)

  datatype Coin = Coin(script: Script, value: nat, height: nat, position: nat)

  predicate Creates(tx: Tx, o: OutPoint) {
    o.txid == tx.txid && o.vout < |tx.outputs|
  }

  function OutPoints(tx: Tx): (r: set<OutPoint>)
    ensures forall o :: o in r <==> Creates(tx, o)
  {
    var r := set i | 0 <= i < |tx.outputs| :: OutPoint(tx.txid, i);
    assert forall o :: Creates(tx, o) ==> o == OutPoint(tx.txid, o.vout);
    r
  }

  function CoinOf(l: Loc, o: OutPoint): Coin
    requires Creates(l.tx, o)
  {
    Coin(l.tx.outputs[o.vout].script, l.tx.outputs[o.vout].value, l.height, l.position)
  }

  function NewCoins(l: Loc): map<OutPoint, Coin> {
    map o | o in OutPoints(l.tx) :: CoinOf(l, o)
  }

  /** A transaction removes the coins it spends and adds the ones it creates. */
  function Connect(coins: map<OutPoint, Coin>, l: Loc): map<OutPoint, Coin> {
    (coins - SetOf(l.tx.inputs)) + NewCoins(l)
  }

  /** Plain replay of every transaction. */
  function Coins(locs: seq<Loc>): map<OutPoint, Coin> {
    if |locs| == 0 then map[]
    else Connect(Coins(locs[..|locs|-1]), locs[|locs|-1])
  }

  /** `tx` may come next: a new txid, and distinct inputs that are all unspent. */
  predicate Follows(locs: seq<Loc>, tx: Tx) {
    && (forall i :: 0 <= i < |locs| ==> locs[i].tx.txid != tx.txid)
    && Distinct(tx.inputs)
    && (forall i :: 0 <= i < |tx.inputs| ==> tx.inputs[i] in Coins(locs))
  }

  predicate Valid(locs: seq<Loc>) {
    |locs| == 0 || (Valid(locs[..|locs|-1]) && Follows(locs[..|locs|-1], locs[|locs|-1].tx))
  }

  lemma {:induction false} ValidPrefix(locs: seq<Loc>, k: nat)
    requires Valid(locs) && k <= |locs|
    ensures Valid(locs[..k])
    ensures k < |locs| ==> Follows(locs[..k], locs[k].tx)
    decreases |locs|
  {
    var n := |locs| - 1;
    if k == |locs| {
      assert locs[..k] == locs;
    } else if k < n {
      ValidPrefix(locs[..n], k);
      assert locs[..n][..k] == locs[..k];
    }
  }

  ghost predicate Created(locs: seq<Loc>, o: OutPoint) {
    exists i :: 0 <= i < |locs| && Creates(locs[i].tx, o)
  }

  ghost predicate Spent(locs: seq<Loc>, o: OutPoint) {
    exists i :: 0 <= i < |locs| && o in locs[i].tx.inputs
  }

  /** In a valid history a coin is live exactly when some transaction created it and none
      spends it, whatever their order; and everything spent was created. */
  lemma {:induction false} CoinsClosedForm(locs: seq<Loc>, o: OutPoint)
    requires Valid(locs)
    ensures o in Coins(locs) <==> Created(locs, o) && !Spent(locs, o)
    ensures Spent(locs, o) ==> Created(locs, o)
    ensures forall i :: 0 <= i < |locs| && Creates(locs[i].tx, o) && o in Coins(locs) ==> Coins(locs)[o] == CoinOf(locs[i], o)
    decreases |locs|
  {
    if |locs| > 0 {
      var n := |locs| - 1;
      var init, last := locs[..n], locs[n];
      CoinsClosedForm(init, o);
      assert Created(locs, o) <==> Created(init, o) || Creates(last.tx, o) by {
        if Created(init, o) { var i :| 0 <= i < n && Creates(init[i].tx, o); assert Creates(locs[i].tx, o); }
        if Creates(last.tx, o) { assert Creates(locs[n].tx, o); }
        if Created(locs, o) && !Creates(last.tx, o) {
          var i :| 0 <= i < |locs| && Creates(locs[i].tx, o);
          assert Creates(init[i].tx, o);
        }
      }
      assert Spent(locs, o) <==> Spent(init, o) || o in last.tx.inputs by {
        if Spent(init, o) { var i :| 0 <= i < n && o in init[i].tx.inputs; assert o in locs[i].tx.inputs; }
        if o in last.tx.inputs { assert o in locs[n].tx.inputs; }
        if Spent(locs, o) && o !in last.tx.inputs {
          var i :| 0 <= i < |locs| && o in locs[i].tx.inputs;
          assert o in init[i].tx.inputs;
        }
      }
      assert o in last.tx.inputs ==> o in Coins(init);
      assert o in SetOf(last.tx.inputs) <==> o in last.tx.inputs;
      assert Creates(last.tx, o) ==> !Created(init, o);
      forall i | 0 <= i < |locs| && Creates(locs[i].tx, o) && o in Coins(locs)
        ensures Coins(locs)[o] == CoinOf(locs[i], o)
      {
        if i < n { assert init[i] == locs[i]; assert Created(init, o); }
      }
    }
  }

  /** The creator of an outpoint is unique. */
  lemma {:induction false} UniqueTxids(locs: seq<Loc>, i: nat, j: nat)
    requires Valid(locs) && i < j < |locs|
    ensures locs[i].tx.txid != locs[j].tx.txid
  {
    ValidPrefix(locs, j);
    assert locs[..j][i] == locs[i];
  }

  /** An outpoint is spent at most once. */
  lemma {:induction false} UniqueSpender(locs: seq<Loc>, i: nat, j: nat, o: OutPoint)
    requires Valid(locs) && i < j < |locs|
    requires o in locs[i].tx.inputs
    ensures o !in locs[j].tx.inputs
  {
    ValidPrefix(locs, j);
    CoinsClosedForm(locs[..j], o);
    assert locs[..j][i] == locs[i];
  }

  /** A spend comes after the transaction that created the coin. */
  lemma {:induction false} CreatedBeforeSpent(locs: seq<Loc>, j: nat, o: OutPoint) returns (i: nat)
    requires Valid(locs) && j < |locs| && o in locs[j].tx.inputs
    ensures i < j && Creates(locs[i].tx, o)
    ensures o in Coins(locs[..j]) && Coins(locs[..j])[o] == CoinOf(locs[i], o)
  {
    ValidPrefix(locs, j);
    CoinsClosedForm(locs[..j], o);
    i :| 0 <= i < |locs[..j]| && Creates(locs[..j][i].tx, o);
  }
}
