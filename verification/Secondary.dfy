/** A read-only follower of the index: it reads header rows from its own tip onwards, and
    reloads everything only when its tip row changed. */
module Secondary {
  import opened Collections
  import opened Chain
  import opened IndexRows

  type HeaderTable = map<nat, HeaderValue>

  // ------------------------------------------------------------------------------- stored headers

  /** Bitcoin and Liquid keys both grow with the height. */
  lemma {:induction false} HeaderKeysGrow(cfg: Config, chain: seq<Block>, h: nat, k: nat)
    requires AllWellFormed(cfg.liquid, chain) && h < k < |chain|
    ensures HeaderKey(cfg.liquid, HeaderOf(chain, h)) < HeaderKey(cfg.liquid, HeaderOf(chain, k))
    decreases k
  {
    assert !cfg.liquid ==> |chain[k].txs| > 0;
    BaseNext(chain, k);
    if h + 1 < k { HeaderKeysGrow(cfg, chain, h, k - 1); }
  }

  /** The header rows of a chain's store are exactly its headers, under their keys. */
  ghost predicate HeadersStored(liquid: bool, table: HeaderTable, chain: seq<Block>) {
    && (forall h :: 0 <= h < |chain| ==>
          HeaderKey(liquid, HeaderOf(chain, h)) in table &&
          table[HeaderKey(liquid, HeaderOf(chain, h))] == SerializeHeader(liquid, HeaderOf(chain, h)))
    && (forall k :: k in table ==> exists h :: 0 <= h < |chain| && k == HeaderKey(liquid, HeaderOf(chain, h)))
  }

  lemma {:induction false} StoredHeaders(cfg: Config, chain: seq<Block>)
    requires AllWellFormed(cfg.liquid, chain)
    ensures HeadersStored(cfg.liquid, StoreOf(cfg, chain).headers, chain)
    decreases |chain|
  {
    hide WellFormed, HeaderOf, Locs, Written, BatchOf, HeadersStored;
    if |chain| == 0 {
      NoHeaders(cfg.liquid, chain);
    } else {
      var init, last := chain[..|chain|-1], chain[|chain|-1];
      Split(chain);
      StoreSnoc(cfg, init, last);
      hide StoreOf;
      StoredHeaders(cfg, init);
      StoreHeader(cfg, init, last, StoreOf(cfg, init));
    }
  }

  lemma NoHeaders(liquid: bool, chain: seq<Block>)
    requires |chain| == 0
    ensures HeadersStored(liquid, map[], chain)
  {}

  lemma StoreHeader(cfg: Config, init: seq<Block>, last: Block, s: Store)
    requires AllWellFormed(cfg.liquid, init) && WellFormed(cfg.liquid, last) && HeadersStored(cfg.liquid, s.headers, init)
    ensures HeadersStored(cfg.liquid, Written(cfg.liquid, s, BatchOf(cfg, |init|, |Locs(init)|, last)).headers, init + [last])
  {
    hide WellFormed, BatchOf, Locs, HeaderOf, HeadersStored, AllWellFormed, StoreOf;
    var chain := init + [last];
    BatchHeader(cfg, |init|, |Locs(init)|, last);
    var header := BatchOf(cfg, |init|, |Locs(init)|, last).header;
    HeaderOfSnoc(init, last);
    StoreSnoc(cfg, init, last);
    forall h | 0 <= h < |init| ensures HeaderKey(cfg.liquid, HeaderOf(chain, h)) != HeaderKey(cfg.liquid, HeaderOf(chain, |init|)) {
      HeaderKeysGrow(cfg, chain, h, |init|);
    }
    AddHeader(cfg.liquid, s.headers, init, chain, header);
  }

  lemma HeaderOfSnoc(init: seq<Block>, last: Block)
    ensures forall h :: 0 <= h < |init| ==> HeaderOf(init + [last], h) == HeaderOf(init, h)
    ensures HeaderOf(init + [last], |init|) == Header(|init|, |Locs(init)| + |last.txs|, last.hash, last.prev)
  {
    HeadersSnoc(init, last);
    forall h | 0 <= h < |init| ensures HeaderOf(init + [last], h) == HeaderOf(init, h) {
      assert HeadersOf(init + [last])[h] == HeadersOf(init)[h];
    }
    assert HeadersOf(init + [last])[|init|] == HeaderOf(init + [last], |init|);
  }

  lemma AddHeader(liquid: bool, table: HeaderTable, init: seq<Block>, chain: seq<Block>, header: Header)
    requires |chain| == |init| + 1 && HeadersStored(liquid, table, init)
    requires forall h :: 0 <= h < |init| ==> HeaderOf(chain, h) == HeaderOf(init, h)
    requires HeaderOf(chain, |init|) == header
    requires forall h :: 0 <= h < |init| ==> HeaderKey(liquid, HeaderOf(chain, h)) != HeaderKey(liquid, header)
    ensures HeadersStored(liquid, table[HeaderKey(liquid, header) := SerializeHeader(liquid, header)], chain)
  {
    hide HeaderOf, SerializeHeader;
    var t := table[HeaderKey(liquid, header) := SerializeHeader(liquid, header)];
    forall k | k in t ensures exists h :: 0 <= h < |chain| && k == HeaderKey(liquid, HeaderOf(chain, h)) {
      if k in table {
        var h :| 0 <= h < |init| && k == HeaderKey(liquid, HeaderOf(init, h));
        assert k == HeaderKey(liquid, HeaderOf(chain, h));
      } else {
        assert k == HeaderKey(liquid, HeaderOf(chain, |init|));
      }
    }
  }

  // --------------------------------------------------------------------------------- reading rows

  /** The keys of a chain's headers from height `h` on, ascending. */
  ghost function KeysFromHeight(liquid: bool, chain: seq<Block>, h: nat): (r: seq<nat>)
    requires h <= |chain|
    ensures |r| == |chain| - h
    ensures forall i :: 0 <= i < |r| ==> r[i] == HeaderKey(liquid, HeaderOf(chain, h + i))
  {
    seq<nat>(|chain| - h, i requires 0 <= i < |chain| - h => HeaderKey(liquid, HeaderOf(chain, h + i)))
  }

  function KeysAtOrAfter(table: HeaderTable, key: nat): set<nat> { set k | k in table && key <= k }

  /** The stored keys from `key` on, ascending. */
  function StoredKeys(table: HeaderTable, key: nat): (r: seq<nat>)
    ensures forall k :: k in r <==> k in KeysAtOrAfter(table, key)
  {
    NatOrder();
    SortSet(KeysAtOrAfter(table, key), NatLess)
  }

  /** The rows from `key` on, read at consecutive positions; `None` stands for a failed
      position check. */
  method HeadersFrom(liquid: bool, table: HeaderTable, key: nat, first: nat) returns (r: Option<seq<Header>>)
    ensures var keys := StoredKeys(table, key);
            && (r.None? <==> exists i :: 0 <= i < |keys| && !Readable(liquid, table, keys, first, i))
            && (r.Some? ==> |r.value| == |keys| && forall i :: 0 <= i < |keys| ==> ReadsTo(liquid, table, keys, first, i, r.value[i]))
  {
    hide StoredKeys;
    var keys := StoredKeys(table, key);
    var rows: seq<Header> := [];
    for i := 0 to |keys|
      invariant |rows| == i
      invariant forall j :: 0 <= j < i ==> ReadsTo(liquid, table, keys, first, j, rows[j])
    {
      assert keys[i] in keys;
      var h := DeserializeHeader(liquid, keys[i], table[keys[i]], first + i);
      if h.None? {
        assert !Readable(liquid, table, keys, first, i);
        return None;
      }
      rows := rows + [h.value];
    }
    r := Some(rows);
    assert forall i :: 0 <= i < |keys| && ReadsTo(liquid, table, keys, first, i, rows[i]) ==> Readable(liquid, table, keys, first, i);
  }

  ghost predicate ReadsTo(liquid: bool, table: HeaderTable, keys: seq<nat>, first: nat, i: nat, h: Header)
    requires i < |keys|
  {
    keys[i] in table && DeserializeHeader(liquid, keys[i], table[keys[i]], first + i) == Some(h)
  }

  ghost predicate Readable(liquid: bool, table: HeaderTable, keys: seq<nat>, first: nat, i: nat)
    requires i < |keys|
  {
    keys[i] in table && DeserializeHeader(liquid, keys[i], table[keys[i]], first + i).Some?
  }

  /** Sorted keys from a key on are the keys of the headers from some height on. */
  lemma SortedKeys(cfg: Config, table: HeaderTable, chain: seq<Block>, key: nat, h: nat)
    requires AllWellFormed(cfg.liquid, chain) && HeadersStored(cfg.liquid, table, chain) && h <= |chain|
    requires forall j :: 0 <= j < h ==> HeaderKey(cfg.liquid, HeaderOf(chain, j)) < key
    requires forall j :: h <= j < |chain| ==> key <= HeaderKey(cfg.liquid, HeaderOf(chain, j))
    ensures StoredKeys(table, key) == KeysFromHeight(cfg.liquid, chain, h)
  {
    NatOrder();
    hide StrictTotalOrder, HeaderOf, HeaderKey, WellFormed, SortSet, AllWellFormed, SerializeHeader;
    var keys := KeysFromHeight(cfg.liquid, chain, h);
    forall i, j | 0 <= i < j < |keys| ensures NatLess(keys[i], keys[j]) {
      HeaderKeysGrow(cfg, chain, h + i, h + j);
    }
    forall k ensures k in keys <==> k in KeysAtOrAfter(table, key) {
      if k in KeysAtOrAfter(table, key) {
        var j :| 0 <= j < |chain| && k == HeaderKey(cfg.liquid, HeaderOf(chain, j));
        assert keys[j - h] == k;
      }
    }
    SortSetAscending(KeysAtOrAfter(table, key), NatLess);
    AscendingUnique(SortSet(KeysAtOrAfter(table, key), NatLess), keys, NatLess);
  }

  /** The first height whose key is at or after `key`. */
  lemma {:induction false} FirstHeight(cfg: Config, chain: seq<Block>, key: nat, n: nat) returns (h: nat)
    requires AllWellFormed(cfg.liquid, chain) && n <= |chain|
    ensures h <= n
    ensures forall j :: 0 <= j < h ==> HeaderKey(cfg.liquid, HeaderOf(chain, j)) < key
    ensures forall j :: h <= j < n ==> key <= HeaderKey(cfg.liquid, HeaderOf(chain, j))
  {
    hide HeaderOf, HeaderKey, AllWellFormed;
    if n == 0 {
      h := 0;
    } else {
      h := FirstHeight(cfg, chain, key, n - 1);
      if h == n - 1 && HeaderKey(cfg.liquid, HeaderOf(chain, n - 1)) < key {
        h := n;
      } else if h < n - 1 {
        HeaderKeysGrow(cfg, chain, h, n - 1);
      }
    }
  }

  /** Rows read at their heights are the headers. */
  lemma ReadAtHeight(liquid: bool, table: HeaderTable, chain: seq<Block>, h: nat, i: nat)
    requires HeadersStored(liquid, table, chain) && h + i < |chain|
    ensures ReadsTo(liquid, table, KeysFromHeight(liquid, chain, h), h, i, HeaderOf(chain, h + i))
  {
    HeaderRoundTrip(liquid, HeaderOf(chain, h + i));
  }

  lemma AllReadAtHeight(liquid: bool, table: HeaderTable, chain: seq<Block>, h: nat)
    requires HeadersStored(liquid, table, chain) && h <= |chain|
    ensures var keys := KeysFromHeight(liquid, chain, h);
            && (forall i :: 0 <= i < |keys| ==> Readable(liquid, table, keys, h, i))
            && (forall i, r :: 0 <= i < |keys| && ReadsTo(liquid, table, keys, h, i, r) ==> r == HeaderOf(chain, h + i))
  {
    hide HeadersStored, DeserializeHeader, HeaderKey, HeaderOf;
    var keys := KeysFromHeight(liquid, chain, h);
    forall i | 0 <= i < |keys| ensures Readable(liquid, table, keys, h, i) {
      ReadAtHeight(liquid, table, chain, h, i);
    }
    forall i, r | 0 <= i < |keys| && ReadsTo(liquid, table, keys, h, i, r) ensures r == HeaderOf(chain, h + i) {
      ReadAtHeight(liquid, table, chain, h, i);
    }
  }

  // ------------------------------------------------------------------------------------- refreshing

  /** Each row names the one before it. */
  predicate RowsLinked(rows: seq<Header>) {
    forall i :: 0 <= i < |rows| - 1 ==> rows[i+1].prev == rows[i].hash
  }

  /** What loading a header list asserts. */
  predicate Loadable(rows: seq<Header>) {
    forall i :: 0 <= i < |rows| ==> LoadableAt(rows, i)
  }

  predicate LoadableAt(rows: seq<Header>, i: nat)
    requires i < |rows|
  {
    rows[i].height == i && rows[i].prev == if i == 0 then ZERO else rows[i-1].hash
  }

  lemma HeadersLoadable(chain: seq<Block>)
    requires Linked(chain)
    ensures Loadable(HeadersOf(chain)) && RowsLinked(HeadersOf(chain))
  {
    forall i | 0 <= i < |chain| ensures LoadableAt(HeadersOf(chain), i) { assert LinkedAt(chain, i); }
    forall i | 0 <= i < |chain| - 1 ensures HeadersOf(chain)[i+1].prev == HeadersOf(chain)[i].hash { assert LinkedAt(chain, i + 1); }
  }

  /** The table has the header rows of a chain, and nothing else. */
  ghost predicate IsStored(cfg: Config, blocks: map<Hash, Block>, table: HeaderTable, chain: seq<Block>) {
    AllWellFormed(cfg.liquid, chain) && KnownChain(blocks, chain) && HeadersStored(cfg.liquid, table, chain)
  }

  lemma StoredReads(cfg: Config, blocks: map<Hash, Block>, table: HeaderTable, chain: seq<Block>, keys: seq<nat>, rows: seq<Header>)
    requires IsStored(cfg, blocks, table, chain) && keys == StoredKeys(table, 0)
    ensures forall i :: 0 <= i < |keys| ==> Readable(cfg.liquid, table, keys, 0, i)
    ensures |rows| == |keys| && (forall i :: 0 <= i < |keys| ==> ReadsTo(cfg.liquid, table, keys, 0, i, rows[i])) ==>
              rows == HeadersOf(chain) && Loadable(rows)
  {
    hide AllWellFormed, HeadersStored, HeadersOf, HeaderOf, StoredKeys, DeserializeHeader, HeaderKey, Loadable, Linked, ReadsTo, Readable;
    SortedKeys(cfg, table, chain, 0, 0);
    AllReadAtHeight(cfg.liquid, table, chain, 0);
    if |rows| == |keys| && forall i :: 0 <= i < |keys| ==> ReadsTo(cfg.liquid, table, keys, 0, i, rows[i]) {
      RowsAreHeaders(chain, 0, rows);
      HeadersLoadable(chain);
    }
  }

  /** Loads the whole header list from stored rows; fails if a row does not fit its position or the
      headers do not link. It does not fail on the rows of a chain. */
  method LoadHeaders(cfg: Config, table: HeaderTable, ghost blocks: map<Hash, Block>, ghost chain: seq<Block>)
    returns (ok: bool, headers: seq<Header>)
    ensures ok ==> Loadable(headers)
    ensures IsStored(cfg, blocks, table, chain) ==> ok && headers == HeadersOf(chain)
  {
    hide IsStored, HeadersOf, StoredKeys, Loadable, ReadsTo, Readable;
    var rows := HeadersFrom(cfg.liquid, table, 0, 0);
    if IsStored(cfg, blocks, table, chain) {
      StoredReads(cfg, blocks, table, chain, StoredKeys(table, 0), if rows.Some? then rows.value else []);
    }
    if rows.None? { return false, []; }
    ok, headers := Loadable(rows.value), rows.value;
  }

  class Follower {
    const cfg: Config
    var headers: seq<Header>

    constructor (cfg: Config)
      ensures this.cfg == cfg && headers == []
    {
      this.cfg, headers := cfg, [];
    }

    /** Reloads the whole header list, or fails and keeps the old one. */
    method Reload(table: HeaderTable, ghost blocks: map<Hash, Block>, ghost chain: seq<Block>) returns (ok: bool)
      modifies this
      ensures if ok then Loadable(headers) else headers == old(headers)
      ensures IsStored(cfg, blocks, table, chain) ==> ok && headers == HeadersOf(chain)
    {
      hide Loadable, IsStored, HeadersOf;
      var loaded;
      ok, loaded := LoadHeaders(cfg, table, blocks, chain);
      if ok { headers := loaded; }
    }

    /** Follows the primary, whose header rows are now `table`. Whatever rows these are, the headers
        still link afterwards; and if they are those of a chain, the headers are that chain's. */
    method Refresh(table: HeaderTable, ghost blocks: map<Hash, Block>, ghost mine: seq<Block>, ghost chain: seq<Block>) returns (ok: bool)
      requires Loadable(headers)
      modifies this
      ensures Loadable(headers) && (!ok ==> headers == old(headers))
      ensures KnownChain(blocks, mine) && old(headers) == HeadersOf(mine) && IsStored(cfg, blocks, table, chain) ==>
                ok && headers == HeadersOf(chain)
    {
      hide IsStored, HeadersOf, HeaderOf, StoredKeys, HeaderKey, RowsLinked, KnownChain, ReadsTo, Readable, Loadable;
      if |headers| > 0 {
        var tip := headers[|headers|-1];
        var rows := HeadersFrom(cfg.liquid, table, HeaderKey(cfg.liquid, tip), tip.height);
        ghost var keys := StoredKeys(table, HeaderKey(cfg.liquid, tip));
        if KnownChain(blocks, mine) && headers == HeadersOf(mine) && IsStored(cfg, blocks, table, chain) {
          TipHeader(mine);
          FromTip(cfg, table, mine, chain, tip, keys) by { assert IsStored(cfg, blocks, table, chain); StoredParts(cfg, blocks, table, chain); }
        }
        if rows.None? { return false; }
        if |rows.value| > 0 && rows.value[0].hash == tip.hash && RowsLinked(rows.value) {
          if KnownChain(blocks, mine) && headers == HeadersOf(mine) && IsStored(cfg, blocks, table, chain) {
            StoredParts(cfg, blocks, table, chain);
            Extends(cfg, table, blocks, mine, chain, tip, keys, rows.value);
          }
          StillLoadable(cfg.liquid, table, keys, headers, rows.value);
          headers := headers + rows.value[1..];
          return true;
        }
      }
      ok := Reload(table, blocks, chain);
    }
  }

  lemma StoredParts(cfg: Config, blocks: map<Hash, Block>, table: HeaderTable, chain: seq<Block>)
    requires IsStored(cfg, blocks, table, chain)
    ensures AllWellFormed(cfg.liquid, chain) && KnownChain(blocks, chain) && HeadersStored(cfg.liquid, table, chain)
  {}

  /** Rows that go on from the tip and link can be appended. */
  lemma StillLoadable(liquid: bool, table: HeaderTable, keys: seq<nat>, headers: seq<Header>, rows: seq<Header>)
    requires Loadable(headers) && |headers| > 0 && |rows| == |keys| > 0 && RowsLinked(rows)
    requires rows[0].hash == headers[|headers|-1].hash
    requires forall i :: 0 <= i < |keys| ==> ReadsTo(liquid, table, keys, headers[|headers|-1].height, i, rows[i])
    ensures Loadable(headers + rows[1..])
  {
    var n, all := |headers|, headers + rows[1..];
    assert LoadableAt(headers, n - 1);
    forall i | 0 <= i < |all| ensures LoadableAt(all, i) {
      if i < n {
        assert LoadableAt(headers, i);
      } else {
        assert ReadsTo(liquid, table, keys, headers[n-1].height, i - n + 1, rows[i - n + 1]);
        assert rows[i - n + 1].prev == rows[i - n].hash;
      }
    }
  }

  lemma RowsAreHeaders(chain: seq<Block>, h: nat, rows: seq<Header>)
    requires h <= |chain| && |rows| == |chain| - h
    requires forall i :: 0 <= i < |rows| ==> rows[i] == HeaderOf(chain, h + i)
    ensures rows == HeadersOf(chain)[h..]
  {}

  lemma TipHeader(mine: seq<Block>)
    requires |mine| > 0
    ensures var tip := HeadersOf(mine)[|mine|-1];
            tip == HeaderOf(mine, |mine| - 1) && tip.height == |mine| - 1 && tip.hash == mine[|mine|-1].hash
  {}

  /** The position a key is read at is right: on Liquid the key is the height, and on Bitcoin
      positions are not checked. */
  lemma StartOfRead(cfg: Config, chain: seq<Block>, tip: Header) returns (h: nat)
    requires AllWellFormed(cfg.liquid, chain)
    ensures h <= |chain| && (cfg.liquid && h < |chain| ==> h == tip.height)
    ensures forall j :: 0 <= j < h ==> HeaderKey(cfg.liquid, HeaderOf(chain, j)) < HeaderKey(cfg.liquid, tip)
    ensures forall j :: h <= j < |chain| ==> HeaderKey(cfg.liquid, tip) <= HeaderKey(cfg.liquid, HeaderOf(chain, j))
  {
    h := FirstHeight(cfg, chain, HeaderKey(cfg.liquid, tip), |chain|);
    hide AllWellFormed;
    if cfg.liquid && h < |chain| {
      assert HeaderKey(cfg.liquid, HeaderOf(chain, h)) == h;
      assert h > 0 ==> HeaderKey(cfg.liquid, HeaderOf(chain, h - 1)) == h - 1;
    }
  }

  /** Reading from the tip's key never fails a position check. */
  lemma FromTip(cfg: Config, table: HeaderTable, mine: seq<Block>, chain: seq<Block>, tip: Header, keys: seq<nat>)
    requires AllWellFormed(cfg.liquid, chain) && HeadersStored(cfg.liquid, table, chain)
    requires keys == StoredKeys(table, HeaderKey(cfg.liquid, tip))
    ensures forall i :: 0 <= i < |keys| ==> Readable(cfg.liquid, table, keys, tip.height, i)
  {
    hide AllWellFormed, StoredKeys, HeaderOf, HeaderKey, HeadersStored;
    var h := StartOfRead(cfg, chain, tip);
    SortedKeys(cfg, table, chain, HeaderKey(cfg.liquid, tip), h);
    AllReadAtHeight(cfg.liquid, table, chain, h);
    forall i | 0 <= i < |keys| ensures Readable(cfg.liquid, table, keys, tip.height, i) {
      assert Readable(cfg.liquid, table, keys, h, i);
      PositionOnBitcoin(cfg.liquid, table, keys, h, tip.height, i);
    }
  }

  lemma PositionOnBitcoin(liquid: bool, table: HeaderTable, keys: seq<nat>, a: nat, b: nat, i: nat)
    requires i < |keys| && Readable(liquid, table, keys, a, i) && (liquid ==> a == b)
    ensures Readable(liquid, table, keys, b, i)
  {}

  /** A first row with the tip's hash puts the whole old chain under the new one. */
  lemma Extends(cfg: Config, table: HeaderTable, blocks: map<Hash, Block>, mine: seq<Block>, chain: seq<Block>, tip: Header, keys: seq<nat>, rows: seq<Header>)
    requires KnownChain(blocks, mine) && KnownChain(blocks, chain)
    requires |mine| > 0 && tip == HeaderOf(mine, |mine| - 1) && tip.height == |mine| - 1 && tip.hash == mine[|mine|-1].hash
    requires AllWellFormed(cfg.liquid, chain) && HeadersStored(cfg.liquid, table, chain)
    requires keys == StoredKeys(table, HeaderKey(cfg.liquid, tip))
    requires |rows| == |keys| > 0 && rows[0].hash == tip.hash
    requires forall i :: 0 <= i < |keys| ==> ReadsTo(cfg.liquid, table, keys, tip.height, i, rows[i])
    ensures HeadersOf(mine) + rows[1..] == HeadersOf(chain)
  {
    hide AllWellFormed, StoredKeys, HeaderOf, HeaderKey, HeadersStored, ReadsTo, KnownChain, HeadersOf;
    var h := StartOfRead(cfg, chain, tip);
    SortedKeys(cfg, table, chain, HeaderKey(cfg.liquid, tip), h);
    FirstRowHash(cfg.liquid, table, chain, h, tip.height, rows[0]);
    SameBlockSamePast(blocks, mine, chain, |mine| - 1, h);
    AllReadAtHeight(cfg.liquid, table, chain, h);
    JoinHeaders(mine, chain, rows);
  }

  lemma FirstRowHash(liquid: bool, table: HeaderTable, chain: seq<Block>, h: nat, position: nat, row: Header)
    requires h < |chain| && HeadersStored(liquid, table, chain)
    requires ReadsTo(liquid, table, KeysFromHeight(liquid, chain, h), position, 0, row)
    ensures row.hash == chain[h].hash
  {
    ReadAtHeight(liquid, table, chain, h, 0);
  }

  lemma JoinHeaders(mine: seq<Block>, chain: seq<Block>, rows: seq<Header>)
    requires 0 < |mine| <= |chain| && mine[..|mine|] == chain[..|mine|] && |rows| == |chain| - (|mine| - 1)
    requires forall i :: 0 <= i < |rows| ==> rows[i] == HeaderOf(chain, |mine| - 1 + i)
    ensures HeadersOf(mine) + rows[1..] == HeadersOf(chain)
  {
    hide HeaderOf;
    HeadersPrefix(chain, |mine|);
    assert mine[..|mine|] == mine;
  }
}
