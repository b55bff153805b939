/** Finding a confirmed transaction by its txid: the index lists every transaction whose txid
    shares the prefix, and the bodies decide. */
module TxLookups {
  import opened Collections
  import opened Ledger
  import opened Keys
  import opened Chain
  import opened IndexRows
  import opened ScriptRefs
  import opened ScriptQueries

  /** A transaction's bytes, its place in the chain, and how many blocks it has from its own on. */
  datatype LocatedTx = LocatedTx(raw: seq<Byte>, height: nat, hash: Hash, position: nat, confirmations: nat)

  /** Transaction `n` of the chain, as it is located. */
  ghost predicate Locates(chain: seq<Block>, x: LocatedTx, n: nat)
    requires n < |Locs(chain)|
  {
    var l := Locs(chain)[n];
    && l.height < |chain|
    && x == LocatedTx(l.tx.raw, l.height, chain[l.height].hash, l.position, |chain| - l.height)
  }

  ghost predicate HasTxid(chain: seq<Block>, txid: Txid, n: nat)
    requires n < |Locs(chain)|
  {
    Locs(chain)[n].tx.txid == txid
  }

  /** What a search finds is the chain's transaction with the txid, and it finds nothing only if
      there is none. */
  ghost predicate IsFound(chain: seq<Block>, txid: Txid, found: Option<LocatedTx>) {
    match found
    case Some(x) => exists n :: 0 <= n < |Locs(chain)| && HasTxid(chain, txid, n) && Locates(chain, x, n)
    case None => forall n :: 0 <= n < |Locs(chain)| ==> !HasTxid(chain, txid, n)
  }

  /** Looks through the listed transactions, fetching each, until one has the txid. */
  method LocateTx(cfg: Config, snapshot: Snapshot, serves: Ref -> bool, blocks: map<Hash, Block>, ghost chain: seq<Block>, txid: Txid)
    returns (r: Result<Option<LocatedTx>>)
    requires Indexed(cfg, blocks, chain) && Shows(cfg, snapshot, chain) && |cfg.txidPrefix(txid)| == PREFIX_LEN
    ensures r.Ok? ==> IsFound(chain, txid, r.value)
    ensures r.Err? ==> r.error == Fetch
    ensures (forall x :: serves(x)) ==> r.Ok?
  {
    hide AllWellFormed, KnownChain, Locs, Valid, ListsSpent, StoreOf, HeadersOf, RefOf, Body, Numbers, Stores;
    var tip: nat := if |snapshot.headers| == 0 then 0 else |snapshot.headers| - 1;
    var nums := ScanRows(snapshot.txidKeys, snapshot.store.txids, cfg.txidPrefix(txid), 0);
    NumbersAreCandidates(cfg, chain, txid, nums);
    for i := 0 to |nums|
      invariant forall k :: 0 <= k < i ==> !HasTxid(chain, txid, nums[k])
    {
      var ref := ResolveRef(cfg, snapshot, blocks, chain, nums[i]);
      RefParts(chain, nums[i]);
      BodyOfRef(cfg, blocks, chain, nums[i]);
      if !serves(ref) { return Err(Fetch); }
      var tx := Body(blocks, ref).value.tx;
      if tx.txid == txid {
        var behind := if tip < ref.height then 0 else tip - ref.height;
        var x := LocatedTx(tx.raw, ref.height, ref.hash, ref.position, behind + 1);
        assert HasTxid(chain, txid, nums[i]) && Locates(chain, x, nums[i]);
        return Ok(Some(x));
      }
    }
    assert forall n :: n in nums ==> !HasTxid(chain, txid, n);
    r := Ok(None);
  }

  lemma NumbersAreCandidates(cfg: Config, chain: seq<Block>, txid: Txid, nums: seq<nat>)
    requires AllWellFormed(cfg.liquid, chain) && SetOf(nums) == Numbers(StoreOf(cfg, chain).txids, cfg.txidPrefix(txid), 0)
    ensures forall i :: 0 <= i < |nums| ==> nums[i] < |Locs(chain)|
    ensures forall n :: 0 <= n < |Locs(chain)| && HasTxid(chain, txid, n) ==> n in nums
  {
    hide AllWellFormed, StoreOf, Locs, Numbers;
    forall n: nat ensures n in nums <==> n < |Locs(chain)| && cfg.txidPrefix(Locs(chain)[n].tx.txid) == cfg.txidPrefix(txid) {
      TxidNumbers(cfg, chain, txid, 0, n);
      assert n in nums <==> n in SetOf(nums);
    }
    assert forall i :: 0 <= i < |nums| ==> nums[i] in nums;
  }

  /** There is only one answer. */
  lemma FoundIsUnique(chain: seq<Block>, txid: Txid, a: Option<LocatedTx>, b: Option<LocatedTx>)
    requires Valid(Locs(chain)) && IsFound(chain, txid, a) && IsFound(chain, txid, b)
    ensures a == b
  {
    hide Valid, Locs;
    if a.Some? && b.Some? {
      var m :| 0 <= m < |Locs(chain)| && HasTxid(chain, txid, m) && Locates(chain, a.value, m);
      var n :| 0 <= n < |Locs(chain)| && HasTxid(chain, txid, n) && Locates(chain, b.value, n);
      if m < n { UniqueTxids(Locs(chain), m, n); }
      if n < m { UniqueTxids(Locs(chain), n, m); }
    }
  }
}
