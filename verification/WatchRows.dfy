/** What the watch cache's history table should hold for a script: one row per output paying
    it and per input spending from it, recomputed from the whole chain. */
module WatchRows {
  import opened Collections
  import opened Ledger
  import opened ScriptFold
  import opened Replay
  import opened Chain
  import opened Histories

  datatype Place = Place(height: nat, position: nat)

  /** The table's primary key. */
  datatype RowKey = RowKey(script: Script, place: Place, isOutput: bool, index: nat)

  /** Positive amounts fund the script, negative ones spend from it. */
  type Rows = map<RowKey, int>

  function PlaceOf(l: Loc): Place { Place(l.height, l.position) }

  function SpendKeys(coins: map<OutPoint, Coin>, script: Script, l: Loc, n: nat): set<RowKey>
    requires n <= |l.tx.inputs|
  {
    set i | 0 <= i < n && l.tx.inputs[i] in coins && coins[l.tx.inputs[i]].script == script :: RowKey(script, PlaceOf(l), false, i)
  }

  /** Rows of the first `n` inputs. */
  function SpendRows(coins: map<OutPoint, Coin>, script: Script, l: Loc, n: nat): Rows
    requires n <= |l.tx.inputs|
  {
    map k | k in SpendKeys(coins, script, l, n) :: 0 - coins[l.tx.inputs[k.index]].value
  }

  function PayKeys(script: Script, l: Loc, n: nat): set<RowKey>
    requires n <= |l.tx.outputs|
  {
    set i | 0 <= i < n && l.tx.outputs[i].script == script :: RowKey(script, PlaceOf(l), true, i)
  }

  /** Rows of the first `n` outputs. */
  function PayRows(script: Script, l: Loc, n: nat): Rows
    requires n <= |l.tx.outputs|
  {
    map k | k in PayKeys(script, l, n) :: l.tx.outputs[k.index].value
  }

  function TxRows(coins: map<OutPoint, Coin>, script: Script, l: Loc): Rows {
    SpendRows(coins, script, l, |l.tx.inputs|) + PayRows(script, l, |l.tx.outputs|)
  }

  /** The script's rows, recomputed from scratch. */
  ghost function ChainRows(script: Script, locs: seq<Loc>): Rows {
    if |locs| == 0 then map[]
    else ChainRows(script, locs[..|locs|-1]) + TxRows(Coins(locs[..|locs|-1]), script, locs[|locs|-1])
  }

  lemma ChainRowsSnoc(script: Script, init: seq<Loc>, l: Loc)
    ensures ChainRows(script, init + [l]) == ChainRows(script, init) + TxRows(Coins(init), script, l)
  {
    hide TxRows;
    Snoc(init, l);
  }

  lemma TxRowsPlace(coins: map<OutPoint, Coin>, script: Script, l: Loc)
    ensures forall k :: k in TxRows(coins, script, l) ==> k.script == script && k.place == PlaceOf(l)
    ensures forall v: nat :: RowKey(script, PlaceOf(l), true, v) in TxRows(coins, script, l) <==> v < |l.tx.outputs| && l.tx.outputs[v].script == script
    ensures forall v: nat :: RowKey(script, PlaceOf(l), true, v) in TxRows(coins, script, l) ==>
              TxRows(coins, script, l)[RowKey(script, PlaceOf(l), true, v)] == l.tx.outputs[v].value
  {}

  lemma SpendRowsStep(coins: map<OutPoint, Coin>, script: Script, l: Loc, i: nat)
    requires i < |l.tx.inputs|
    ensures var o, k := l.tx.inputs[i], RowKey(script, PlaceOf(l), false, i);
            && k !in SpendRows(coins, script, l, i) && (forall j :: j in SpendRows(coins, script, l, i) ==> !j.isOutput)
            && SpendRows(coins, script, l, i + 1) == if o in coins && coins[o].script == script
                 then SpendRows(coins, script, l, i)[k := 0 - coins[o].value] else SpendRows(coins, script, l, i)
  {}

  lemma NoSpendsYet(before: Rows, coins: map<OutPoint, Coin>, script: Script, l: Loc)
    ensures before + SpendRows(coins, script, l, 0) == before
  {
    assert SpendRows(coins, script, l, 0) == map[];
  }

  lemma NoPaysYet(before: Rows, script: Script, l: Loc)
    ensures before + PayRows(script, l, 0) == before
  {
    assert PayRows(script, l, 0) == map[];
  }

  lemma PayRowsStep(script: Script, l: Loc, i: nat)
    requires i < |l.tx.outputs|
    ensures var k := RowKey(script, PlaceOf(l), true, i);
            && k !in PayRows(script, l, i) && k.isOutput
            && PayRows(script, l, i + 1) == if l.tx.outputs[i].script == script
                 then PayRows(script, l, i)[k := l.tx.outputs[i].value] else PayRows(script, l, i)
  {}

  /** A transaction that does not touch the script has no rows. */
  lemma UntouchedHasNone(coins: map<OutPoint, Coin>, script: Script, l: Loc)
    requires !Pays(l.tx, script) && !SpendsFrom(coins, l.tx, script)
    ensures TxRows(coins, script, l) == map[]
  {
    assert SpendKeys(coins, script, l, |l.tx.inputs|) == {};
    assert PayKeys(script, l, |l.tx.outputs|) == {};
  }

  /** Skipping transactions that do not touch the script skips no rows. */
  lemma {:induction false} SkipRows(script: Script, locs: seq<Loc>, a: nat, b: nat)
    requires a <= b <= |locs|
    requires forall n :: a <= n < b ==> !Touches(locs, n, script)
    ensures ChainRows(script, locs[..a]) == ChainRows(script, locs[..b])
    decreases b - a
  {
    hide ChainRows, Touches;
    if a < b {
      SkipRows(script, locs, a, b - 1);
      SkipOne(script, locs, b - 1);
    }
  }

  lemma SkipOne(script: Script, locs: seq<Loc>, n: nat)
    requires n < |locs| && !Touches(locs, n, script)
    ensures ChainRows(script, locs[..n+1]) == ChainRows(script, locs[..n])
  {
    hide ChainRows, TxRows, Coins, Pays, SpendsFrom;
    OneMore(locs, n);
    ChainRowsSnoc(script, locs[..n], locs[n]);
    UntouchedHasNone(Coins(locs[..n]), script, locs[n]);
    PlusNothing(ChainRows(script, locs[..n]));
  }

  lemma PlusNothing<K, V>(m: map<K, V>)
    ensures m + map[] == m
  {}

  /** Transaction `n` has this row. */
  ghost predicate RowAt(script: Script, locs: seq<Loc>, n: nat, k: RowKey)
    requires n < |locs|
  {
    k in TxRows(Coins(locs[..n]), script, locs[n])
  }

  /** Every row belongs to the transaction at its place. */
  lemma {:induction false} RowOwner(script: Script, locs: seq<Loc>, k: RowKey) returns (n: nat)
    requires k in ChainRows(script, locs)
    ensures n < |locs| && RowAt(script, locs, n, k)
    ensures k.script == script && k.place == PlaceOf(locs[n])
    decreases |locs|
  {
    hide TxRows, Coins;
    var m := |locs| - 1;
    if k in TxRows(Coins(locs[..m]), script, locs[m]) {
      n := m;
    } else {
      n := RowOwner(script, locs[..m], k);
      TakeTake(locs, m, n);
    }
    TxRowsPlace(Coins(locs[..n]), script, locs[n]);
  }

  /** And every transaction's rows are there. */
  lemma {:induction false} RowIsThere(script: Script, locs: seq<Loc>, n: nat, k: RowKey)
    requires InOrder(locs) && n < |locs| && RowAt(script, locs, n, k)
    ensures k in ChainRows(script, locs) && ChainRows(script, locs)[k] == TxRows(Coins(locs[..n]), script, locs[n])[k]
    decreases |locs|
  {
    hide TxRows, Coins;
    var m := |locs| - 1;
    if n < m {
      TakeTake(locs, m, n);
      RowIsThere(script, locs[..m], n, k);
      TxRowsPlace(Coins(locs[..n]), script, locs[n]);
      TxRowsPlace(Coins(locs[..m]), script, locs[m]);
      assert Before(locs[n].height, locs[n].position, locs[m].height, locs[m].position);
    }
  }

  /** Transactions at one place are one transaction. */
  lemma SamePlace(locs: seq<Loc>, m: nat, n: nat)
    requires InOrder(locs) && m < |locs| && n < |locs| && PlaceOf(locs[m]) == PlaceOf(locs[n])
    ensures m == n
  {}

  // ------------------------------------------------------------------------------ rows of a prefix

  function Below(rows: Rows, height: nat): Rows {
    map k | k in rows && k.place.height < height :: rows[k]
  }

  /** Dropping the rows from a height on leaves the rows of the blocks below it. */
  lemma {:induction false} RowsBelow(script: Script, chain: seq<Block>, n: nat, cut: nat)
    requires n <= |chain|
    ensures Below(ChainRows(script, Locs(chain[..n])), cut) == ChainRows(script, Locs(chain[..Min(n, cut)]))
    decreases n
  {
    hide ChainRows, Locs, Below;
    if n <= cut {
      AllBelow(script, chain[..n], cut);
    } else {
      RowsBelow(script, chain, n - 1, cut);
      OneMore(chain, n - 1);
      LocsSnoc(chain[..n-1], chain[n-1]);
      BlockRows(script, Locs(chain[..n-1]), BlockLocs(n - 1, chain[n-1]), n - 1, cut);
    }
  }

  lemma AllBelow(script: Script, chain: seq<Block>, cut: nat)
    requires |chain| <= cut
    ensures Below(ChainRows(script, Locs(chain)), cut) == ChainRows(script, Locs(chain))
  {
    hide ChainRows, Locs, RowAt;
    LocsInOrder(chain);
    forall k | k in ChainRows(script, Locs(chain)) ensures k.place.height < cut {
      var n := RowOwner(script, Locs(chain), k);
    }
  }

  /** A block's rows are all at its height. */
  lemma {:induction false} BlockRows(script: Script, locs: seq<Loc>, more: seq<Loc>, height: nat, cut: nat)
    requires cut <= height && forall i :: 0 <= i < |more| ==> more[i].height == height
    ensures Below(ChainRows(script, locs + more), cut) == Below(ChainRows(script, locs), cut)
    decreases |more|
  {
    hide Coins, TxRows, ChainRows;
    if |more| == 0 {
      Nil(more);
      AppendNil(locs);
    } else {
      var init, l := more[..|more|-1], more[|more|-1];
      BlockRows(script, locs, init, height, cut);
      Split(more);
      AppendAssoc(locs, init, [l]);
      ChainRowsSnoc(script, locs + init, l);
      TxRowsPlace(Coins(locs + init), script, l);
      hide Below;
      BelowUnion(ChainRows(script, locs + init), TxRows(Coins(locs + init), script, l), cut);
    }
  }

  lemma BelowUnion(a: Rows, b: Rows, cut: nat)
    requires forall k :: k in b ==> k.place.height >= cut
    ensures Below(a + b, cut) == Below(a, cut)
  {}

  /** Past the highest row's block there is nothing, so the rows are those of the blocks up to it. */
  lemma UpToHighest(script: Script, chain: seq<Block>, n: nat, top: nat)
    requires n <= |chain| && forall k :: k in ChainRows(script, Locs(chain[..n])) ==> k.place.height <= top
    requires exists k :: k in ChainRows(script, Locs(chain[..n])) && k.place.height == top
    ensures top < |chain| && Base(chain, top + 1) <= |Locs(chain)|
    ensures ChainRows(script, Locs(chain[..n])) == ChainRows(script, Locs(chain)[..Base(chain, top + 1)])
  {
    hide ChainRows, Locs, RowAt;
    var rows := ChainRows(script, Locs(chain[..n]));
    var k :| k in rows && k.place.height == top;
    var i := RowOwner(script, Locs(chain[..n]), k);
    LocsInOrder(chain[..n]);
    RowsBelow(script, chain, n, top + 1);
    assert Below(rows, top + 1) == rows;
    LocsPrefix(chain, top + 1);
  }

  // ------------------------------------------------------------------- what the rows say and add up to

  /** The rows, one by one: transaction `n` has a row for each output that pays the script, with its
      value, and for each input that spends one of the script's coins, with the value taken away. */
  lemma RowsSayMoves(script: Script, locs: seq<Loc>, n: nat, i: nat)
    requires InOrder(locs) && n < |locs|
    ensures var rows, tx, k := ChainRows(script, locs), locs[n].tx, RowKey(script, PlaceOf(locs[n]), true, i);
            && (k in rows <==> i < |tx.outputs| && tx.outputs[i].script == script)
            && (k in rows ==> rows[k] == tx.outputs[i].value)
    ensures var rows, tx, coins, k := ChainRows(script, locs), locs[n].tx, Coins(locs[..n]), RowKey(script, PlaceOf(locs[n]), false, i);
            && (k in rows <==> i < |tx.inputs| && tx.inputs[i] in coins && coins[tx.inputs[i]].script == script)
            && (k in rows ==> rows[k] == 0 - coins[tx.inputs[i]].value)
  {
    hide ChainRows, Coins;
    forall k | k == RowKey(script, PlaceOf(locs[n]), true, i) || k == RowKey(script, PlaceOf(locs[n]), false, i)
      ensures k in ChainRows(script, locs) <==> RowAt(script, locs, n, k)
      ensures k in ChainRows(script, locs) ==> ChainRows(script, locs)[k] == TxRows(Coins(locs[..n]), script, locs[n])[k]
    {
      RowIsOf(script, locs, n, k);
    }
    InOut(Coins(locs[..n]), script, locs[n], i);
  }

  lemma RowIsOf(script: Script, locs: seq<Loc>, n: nat, k: RowKey)
    requires InOrder(locs) && n < |locs| && k.place == PlaceOf(locs[n])
    ensures k in ChainRows(script, locs) <==> RowAt(script, locs, n, k)
    ensures k in ChainRows(script, locs) ==> ChainRows(script, locs)[k] == TxRows(Coins(locs[..n]), script, locs[n])[k]
  {
    hide ChainRows, Coins, TxRows, InOrder;
    if k in ChainRows(script, locs) {
      var m := RowOwner(script, locs, k);
      SamePlace(locs, m, n);
    }
    if RowAt(script, locs, n, k) { RowIsThere(script, locs, n, k); }
  }

  lemma InOut(coins: map<OutPoint, Coin>, script: Script, l: Loc, i: nat)
    ensures var k := RowKey(script, PlaceOf(l), true, i);
            && (k in TxRows(coins, script, l) <==> i < |l.tx.outputs| && l.tx.outputs[i].script == script)
            && (k in TxRows(coins, script, l) ==> TxRows(coins, script, l)[k] == l.tx.outputs[i].value)
    ensures var k := RowKey(script, PlaceOf(l), false, i);
            && (k in TxRows(coins, script, l) <==> i < |l.tx.inputs| && l.tx.inputs[i] in coins && coins[l.tx.inputs[i]].script == script)
            && (k in TxRows(coins, script, l) ==> TxRows(coins, script, l)[k] == 0 - coins[l.tx.inputs[i]].value)
  {}

  /** One for an output, minus one for an input. */
  function Sides(rows: Rows): map<RowKey, int> {
    map k | k in rows :: if k.isOutput then 1 else -1
  }

  /** The amounts add up to what the script holds, and outputs outnumber inputs by how many coins that is. */
  lemma {:induction false} RowsAddUp(script: Script, locs: seq<Loc>)
    requires Valid(locs) && InOrder(locs)
    ensures Sum(ChainRows(script, locs)) == Total(Money(Coins(locs), script))
    ensures Sum(Sides(ChainRows(script, locs))) == |Money(Coins(locs), script)|
    decreases |locs|
  {
    hide TxRows, Money, Connect, Follows, RowOf;
    if |locs| == 0 {
      NothingHeld(script);
    } else {
      var init, l := locs[..|locs|-1], locs[|locs|-1];
      ValidSnoc(locs);
      OrderPrefix(locs);
      RowsAddUp(script, init);
      CoinsSnoc(init, l);
      ChainRowsSnoc(script, init, l);
      FreshTxid(init, l.tx);
      FollowsDistinct(init, l.tx);
      hide Valid, Coins, ChainRows;
      MoneyStep(Coins(init), script, l);
      TxRowsAddUp(Coins(init), script, l);
      RowsApart(script, locs);
      hide InOrder, Sides, Sum, Total, Distinct;
      AddUpStep(ChainRows(script, init), TxRows(Coins(init), script, l), Money(Coins(init), script), Money(Connect(Coins(init), l), script),
                RowOf(Money(Coins(init), script), script, l));
    }
  }

  lemma AddUpStep(rows: Rows, more: Rows, before: map<OutPoint, nat>, after: map<OutPoint, nat>, row: Row)
    requires rows.Keys !! more.Keys && Sides(rows).Keys !! Sides(more).Keys
    requires Sum(rows) == Total(before) && Sum(Sides(rows)) == |before|
    requires Sum(more) == row.funded - row.spent && Sum(Sides(more)) == row.fundedCount - row.spentCount
    requires Total(after) + row.spent == Total(before) + row.funded && |after| + row.spentCount == |before| + row.fundedCount
    ensures Sum(rows + more) == Total(after) && Sum(Sides(rows + more)) == |after|
  {
    hide Sides, Sum, Total;
    SumUnion(rows, more);
    SidesUnion(rows, more);
    SumUnion(Sides(rows), Sides(more));
  }

  lemma NothingHeld(script: Script)
    ensures Money(Coins([]), script) == map[] && Sum<RowKey>(map[]) == 0 && Sides(map[]) == map[]
  {}

  lemma FollowsDistinct(init: seq<Loc>, tx: Tx)
    requires Follows(init, tx)
    ensures Distinct(tx.inputs)
  {}

  lemma OrderPrefix(locs: seq<Loc>)
    requires InOrder(locs) && |locs| > 0
    ensures InOrder(locs[..|locs|-1])
  {}

  lemma RowsApart(script: Script, locs: seq<Loc>)
    requires InOrder(locs) && |locs| > 0
    ensures var init, l := locs[..|locs|-1], locs[|locs|-1];
            ChainRows(script, init).Keys !! TxRows(Coins(init), script, l).Keys && Sides(ChainRows(script, init)).Keys !! Sides(TxRows(Coins(init), script, l)).Keys
  {
    hide ChainRows, Coins, TxRows, RowAt;
    var init, l := locs[..|locs|-1], locs[|locs|-1];
    TxRowsPlace(Coins(init), script, l);
    forall k | k in ChainRows(script, init) ensures k !in TxRows(Coins(init), script, l) {
      var n := RowOwner(script, init, k);
      assert Before(locs[n].height, locs[n].position, l.height, l.position);
    }
  }

  lemma SidesUnion(a: Rows, b: Rows)
    ensures Sides(a + b) == Sides(a) + Sides(b)
  {}

  lemma TxRowsAddUp(coins: map<OutPoint, Coin>, script: Script, l: Loc)
    ensures var row := RowOf(Money(coins, script), script, l);
            && Sum(TxRows(coins, script, l)) == row.funded - row.spent
            && Sum(Sides(TxRows(coins, script, l))) == row.fundedCount - row.spentCount
  {
    hide Money, SpendRows, PayRows, Sides;
    SpendsAddUp(coins, script, l, |l.tx.inputs|);
    PaysAddUp(script, l, |l.tx.outputs|);
    AllOf(l.tx.inputs);
    AllOf(l.tx.outputs);
    InputsThenOutputs(coins, script, l);
    SidesUnion(SpendRows(coins, script, l, |l.tx.inputs|), PayRows(script, l, |l.tx.outputs|));
    SumUnion(SpendRows(coins, script, l, |l.tx.inputs|), PayRows(script, l, |l.tx.outputs|));
    SumUnion(Sides(SpendRows(coins, script, l, |l.tx.inputs|)), Sides(PayRows(script, l, |l.tx.outputs|)));
  }

  lemma InputsThenOutputs(coins: map<OutPoint, Coin>, script: Script, l: Loc)
    ensures var a, b := SpendRows(coins, script, l, |l.tx.inputs|), PayRows(script, l, |l.tx.outputs|);
            a.Keys !! b.Keys && Sides(a).Keys !! Sides(b).Keys
  {}

  lemma {:induction false} SpendsAddUp(coins: map<OutPoint, Coin>, script: Script, l: Loc, n: nat)
    requires n <= |l.tx.inputs|
    ensures var rows, sums := SpendRows(coins, script, l, n), SpentBy(Money(coins, script), l.tx.inputs[..n]);
            Sum(rows) == 0 - sums.0 && Sum(Sides(rows)) == 0 - sums.1
  {
    hide Money, Sum, Sides, SpendRows, SpentBy;
    if n == 0 {
      NoneSpent(coins, script, l);
    } else {
      SpendsAddUp(coins, script, l, n - 1);
      SpendRowsStep(coins, script, l, n - 1);
      SpentByStep(Money(coins, script), l.tx.inputs, n);
      MoneyOf(coins, script, l.tx.inputs[n-1]);
      SideOfOne(SpendRows(coins, script, l, n - 1), RowKey(script, PlaceOf(l), false, n - 1),
                if l.tx.inputs[n-1] in Money(coins, script) then 0 - coins[l.tx.inputs[n-1]].value else 0);
    }
  }

  lemma NoneSpent(coins: map<OutPoint, Coin>, script: Script, l: Loc)
    ensures Sum(SpendRows(coins, script, l, 0)) == 0 && Sum(Sides(SpendRows(coins, script, l, 0))) == 0
    ensures SpentBy(Money(coins, script), l.tx.inputs[..0]) == (0, 0)
  {
    NoSpendsYet(map[], coins, script, l);
    PlusNothing(SpendRows(coins, script, l, 0));
  }

  lemma SideOfOne(rows: Rows, k: RowKey, v: int)
    requires k !in rows
    ensures Sum(rows[k := v]) == Sum(rows) + v && Sum(Sides(rows[k := v])) == Sum(Sides(rows)) + if k.isOutput then 1 else -1
  {
    hide Sides, Sum;
    SumInsert(rows, k, v);
    SidesInsert(rows, k, v);
    SumInsert(Sides(rows), k, if k.isOutput then 1 else -1);
  }

  lemma SpentByStep(m: map<OutPoint, nat>, inputs: seq<OutPoint>, n: nat)
    requires 0 < n <= |inputs|
    ensures var before, after := SpentBy(m, inputs[..n-1]), SpentBy(m, inputs[..n]);
            if inputs[n-1] in m then after == (before.0 + m[inputs[n-1]], before.1 + 1) else after == before
  {
    TakeTake(inputs, n, n - 1);
  }

  lemma MoneyOf(coins: map<OutPoint, Coin>, script: Script, o: OutPoint)
    ensures o in Money(coins, script) <==> o in coins && coins[o].script == script
    ensures o in Money(coins, script) ==> Money(coins, script)[o] == coins[o].value
  {}

  lemma {:induction false} PaysAddUp(script: Script, l: Loc, n: nat)
    requires n <= |l.tx.outputs|
    ensures var rows, sums := PayRows(script, l, n), PaidBy(script, l.tx.outputs[..n]);
            Sum(rows) == sums.0 && Sum(Sides(rows)) == sums.1
  {
    if n == 0 {
      NoPaysYet(map[], script, l);
      PlusNothing(PayRows(script, l, 0));
      NothingHeld(script);
    } else {
      PaysAddUp(script, l, n - 1);
      PayRowsStep(script, l, n - 1);
      TakeTake(l.tx.outputs, n, n - 1);
      var k, rows := RowKey(script, PlaceOf(l), true, n - 1), PayRows(script, l, n - 1);
      hide PayRows, Sides, Sum;
      SideOfOne(rows, k, l.tx.outputs[n-1].value);
    }
  }

  lemma SidesInsert(rows: Rows, k: RowKey, v: int)
    requires k !in rows
    ensures k !in Sides(rows) && Sides(rows[k := v]) == Sides(rows)[k := if k.isOutput then 1 else -1]
  {}
}
