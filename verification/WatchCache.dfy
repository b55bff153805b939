/** The watch cache: tables brought up to date incrementally, over reorganizations, always
    hold what recomputing them from the active chain would give. */
module WatchCaches {
  import opened Collections
  import opened Ledger
  import opened Replay
  import opened Keys
  import opened TxPos
  import opened Chain
  import opened IndexRows
  import opened Histories
  import opened ScriptRefs
  import opened ScriptQueries
  import opened WatchRows

  /** The tables. Headers are keyed by height, transactions by place; both also forbid two rows
      with one hash or txid. */
  datatype Tables = Tables(headers: map<nat, Hash>, transactions: map<Place, Tx>, history: Rows, watch: set<Script>)

  const NO_ROWS := Tables(map[], map[], map[], {})

  /** One script's part of the history table. */
  function RowsFor(history: Rows, script: Script): Rows {
    map k | k in history && k.script == script :: history[k]
  }

  /** Deletes the headers from a height on; transactions of a deleted header and rows of a
      deleted transaction go with them. */
  function DeletedFrom(d: Tables, height: nat): Tables {
    var headers := map h | h in d.headers && h < height :: d.headers[h];
    var transactions := map p | p in d.transactions && p.height in headers :: d.transactions[p];
    var history := map k | k in d.history && k.place in transactions :: d.history[k];
    Tables(headers, transactions, history, d.watch)
  }

  /** The tables without stale headers and what hangs on them. */
  function OnlyActive(d: Tables, active: seq<Header>): Tables {
    var headers := map h | h in d.headers && IsActive(active, h, d.headers[h]) :: d.headers[h];
    var transactions := map p | p in d.transactions && p.height in headers :: d.transactions[p];
    var history := map k | k in d.history && k.place in transactions :: d.history[k];
    Tables(headers, transactions, history, d.watch)
  }

  // -------------------------------------------------------------------------------- the invariant

  ghost predicate HeadersOk(d: Tables, chain: seq<Block>) {
    forall h :: h in d.headers ==> h < |chain| && d.headers[h] == chain[h].hash
  }

  ghost predicate TxAt(chain: seq<Block>, p: Place, tx: Tx) {
    p.height < |chain| && p.position < |chain[p.height].txs| && tx == chain[p.height].txs[p.position]
  }

  ghost predicate TxsOk(d: Tables, chain: seq<Block>) {
    forall p :: p in d.transactions ==> p.height in d.headers && TxAt(chain, p, d.transactions[p])
  }

  ghost predicate RowsOk(d: Tables) {
    forall k :: k in d.history ==> k.script in d.watch && k.place in d.transactions
  }

  /** A script's rows are those of some prefix of the chain: none yet, or all up to some block. */
  ghost predicate PrefixRows(d: Tables, chain: seq<Block>, script: Script) {
    exists n :: 0 <= n <= |chain| && IsPrefixRows(d, chain, script, n)
  }

  ghost predicate IsPrefixRows(d: Tables, chain: seq<Block>, script: Script, n: nat)
    requires n <= |chain|
  {
    RowsFor(d.history, script) == ChainRows(script, Locs(chain[..n]))
  }

  /** The tables hold part of what the chain says, and for each watched script a whole prefix. */
  ghost predicate Fits(d: Tables, chain: seq<Block>) {
    HeadersOk(d, chain) && TxsOk(d, chain) && RowsOk(d) && forall s :: s in d.watch ==> PrefixRows(d, chain, s)
  }

  /** The header is on the active chain. */
  predicate IsActive(headers: seq<Header>, height: nat, hash: Hash) {
    height < |headers| && headers[height].hash == hash
  }

  // -------------------------------------------------------------------------------- stale headers

  /** Two known chains agree up to a height and nowhere above it. */
  lemma {:induction false} SharedPrefix(blocks: map<Hash, Block>, a: seq<Block>, b: seq<Block>, n: nat) returns (k: nat)
    requires KnownChain(blocks, a) && KnownChain(blocks, b) && n <= |a|
    ensures k <= n && k <= |b| && a[..k] == b[..k]
    ensures forall h :: 0 <= h < n ==> (h < k <==> h < |b| && a[h].hash == b[h].hash)
    decreases n
  {
    if n == 0 {
      return 0;
    }
    if n <= |b| && a[n-1].hash == b[n-1].hash {
      SameBlockSamePast(blocks, a, b, n - 1, n - 1);
      k := n;
      SameHashes(a, b, n);
    } else {
      k := SharedPrefix(blocks, a, b, n - 1);
    }
  }

  lemma SameHashes(a: seq<Block>, b: seq<Block>, n: nat)
    requires n <= |a| && n <= |b| && a[..n] == b[..n]
    ensures forall h :: 0 <= h < n ==> a[h] == b[h]
  {
    forall h | 0 <= h < n ensures a[h] == b[h] { assert a[..n][h] == b[..n][h]; }
  }

  /** Stale headers form a top suffix: below an active one every header is active. */
  lemma StaleIsTop(blocks: map<Hash, Block>, base: seq<Block>, chain: seq<Block>, low: nat, high: nat)
    requires KnownChain(blocks, base) && KnownChain(blocks, chain) && low <= high < |base|
    requires IsActive(HeadersOf(chain), high, base[high].hash)
    ensures IsActive(HeadersOf(chain), low, base[low].hash)
  {
    var k := SharedPrefix(blocks, base, chain, |base|);
    hide KnownChain;
  }

  /** Deleting all stale headers leaves tables that fit the active chain. */
  lemma DeleteFits(blocks: map<Hash, Block>, base: seq<Block>, chain: seq<Block>, d: Tables, from: nat)
    requires KnownChain(blocks, base) && KnownChain(blocks, chain) && Fits(d, base)
    requires forall h :: h in d.headers ==> (h < from <==> IsActive(HeadersOf(chain), h, d.headers[h]))
    ensures Fits(DeletedFrom(d, from), chain) && DeletedFrom(d, from).watch == d.watch
    ensures forall h :: h in DeletedFrom(d, from).headers <==> h in d.headers && IsActive(HeadersOf(chain), h, d.headers[h])
  {
    hide PrefixRows, KnownChain;
    var k := SharedPrefix(blocks, base, chain, |base|);
    SameHashes(base, chain, k);
    assert forall h :: h in d.headers ==> (h < from <==> h < k);
    hide HeadersOf;
    forall s | s in d.watch ensures PrefixRows(DeletedFrom(d, from), chain, s) {
      CutPrefix(base, chain, d, from, k, s);
    }
    hide ChainRows;
    CutParts(base, chain, d, from, k);
  }

  lemma CutParts(base: seq<Block>, chain: seq<Block>, d: Tables, from: nat, k: nat)
    requires k <= |base| && k <= |chain| && forall h :: 0 <= h < k ==> base[h] == chain[h]
    requires forall h :: h in d.headers ==> (h < from <==> h < k)
    requires HeadersOk(d, base) && TxsOk(d, base) && RowsOk(d)
    ensures HeadersOk(DeletedFrom(d, from), chain) && TxsOk(DeletedFrom(d, from), chain) && RowsOk(DeletedFrom(d, from))
  {}

  lemma CutPrefix(base: seq<Block>, chain: seq<Block>, d: Tables, from: nat, k: nat, script: Script)
    requires k <= |base| && k <= |chain| && base[..k] == chain[..k]
    requires forall h :: h in d.headers ==> (h < from <==> h < k)
    requires TxsOk(d, base) && RowsOk(d) && PrefixRows(d, base, script)
    ensures PrefixRows(DeletedFrom(d, from), chain, script)
  {
    hide ChainRows, Locs;
    var n :| 0 <= n <= |base| && IsPrefixRows(d, base, script, n);
    CutRows(base, d, from, k, script);
    RowsBelow(script, base, n, k);
    var m := Min(n, k);
    assert base[..m] == base[..k][..m] && chain[..m] == chain[..k][..m];
    assert IsPrefixRows(DeletedFrom(d, from), chain, script, m);
  }

  lemma CutRows(base: seq<Block>, d: Tables, from: nat, k: nat, script: Script)
    requires forall h :: h in d.headers ==> (h < from <==> h < k)
    requires TxsOk(d, base) && RowsOk(d)
    ensures RowsFor(DeletedFrom(d, from).history, script) == Below(RowsFor(d.history, script), k)
  {
    hide TxAt;
  }

  lemma NothingDeleted(d: Tables, base: seq<Block>, from: nat)
    requires HeadersOk(d, base) && TxsOk(d, base) && RowsOk(d) && |base| <= from
    ensures DeletedFrom(d, from) == d
  {
    hide TxAt;
    assert DeletedFrom(d, from).headers == d.headers;
    assert DeletedFrom(d, from).transactions == d.transactions;
    assert DeletedFrom(d, from).history == d.history;
  }

  lemma DeletesStale(d: Tables, active: seq<Header>, from: nat)
    requires forall h :: h in d.headers ==> (h < from <==> IsActive(active, h, d.headers[h]))
    ensures DeletedFrom(d, from) == OnlyActive(d, active)
  {
    hide IsActive;
    assert DeletedFrom(d, from).headers == OnlyActive(d, active).headers;
  }

  predicate Higher(a: nat, b: nat) { a > b }

  lemma HigherOrder()
    ensures StrictTotalOrder(Higher)
  {}

  // ------------------------------------------------------------------------------- looking up spends

  /** Looking an outpoint up in the tables finds the amount of the script's coin there, if it is
      one. */
  ghost predicate LookupOk(d: Tables, coins: map<OutPoint, Coin>, script: Script, o: OutPoint) {
    var mine := o in coins && coins[o].script == script;
    && (mine ==> exists p :: p in d.transactions && d.transactions[p].txid == o.txid)
    && (forall p :: p in d.transactions && d.transactions[p].txid == o.txid ==> LookupAt(d, coins, script, o, p))
  }

  ghost predicate LookupAt(d: Tables, coins: map<OutPoint, Coin>, script: Script, o: OutPoint, p: Place) {
    var k := RowKey(script, p, true, o.vout);
    && (k in d.history <==> o in coins && coins[o].script == script)
    && (k in d.history ==> d.history[k] == coins[o].value)
  }

  /** With the script's rows complete up to transaction `n`, its inputs are looked up right. */
  lemma LookupsRight(d: Tables, chain: seq<Block>, script: Script, n: nat, o: OutPoint)
    requires Valid(Locs(chain)) && n < |Locs(chain)| && o in Locs(chain)[n].tx.inputs
    requires TxsOk(d, chain) && RowsOk(d) && RowsFor(d.history, script) == ChainRows(script, Locs(chain)[..n])
    ensures LookupOk(d, Coins(Locs(chain)[..n]), script, o)
  {
    hide Valid, Coins, Locs, ChainRows, LookupAt, RowsFor, TxAt;
    var i := CreatedBeforeSpent(Locs(chain), n, o);
    var coins := Coins(Locs(chain)[..n]);
    forall p | p in d.transactions && d.transactions[p].txid == o.txid ensures LookupAt(d, coins, script, o, p) {
      LookupPlace(d, chain, script, n, o, i, p);
    }
    if coins[o].script == script {
      FundingKept(d, chain, script, n, o, i);
    }
  }

  /** The only transaction found by the outpoint's txid is the one that created it. */
  lemma LookupPlace(d: Tables, chain: seq<Block>, script: Script, n: nat, o: OutPoint, i: nat, p: Place)
    requires Valid(Locs(chain)) && i < n < |Locs(chain)| && Creates(Locs(chain)[i].tx, o)
    requires o in Coins(Locs(chain)[..n]) && Coins(Locs(chain)[..n])[o] == CoinOf(Locs(chain)[i], o)
    requires TxsOk(d, chain) && p in d.transactions && d.transactions[p].txid == o.txid
    requires RowsFor(d.history, script) == ChainRows(script, Locs(chain)[..n])
    ensures LookupAt(d, Coins(Locs(chain)[..n]), script, o, p)
  {
    hide Valid, Coins, Locs, ChainRows, TxRows, RowAt;
    var j := PlaceNumber(chain, p, d.transactions[p]);
    if i < j { UniqueTxids(Locs(chain), i, j); }
    if j < i { UniqueTxids(Locs(chain), j, i); }
    FundingRow(script, chain, n, o, i);
    var k := RowKey(script, p, true, o.vout);
    assert k in d.history <==> k in RowsFor(d.history, script);
  }

  lemma PlaceNumber(chain: seq<Block>, p: Place, tx: Tx) returns (n: nat)
    requires TxAt(chain, p, tx)
    ensures n < |Locs(chain)| && Locs(chain)[n] == Loc(tx, p.height, p.position)
  {
    LocAt(chain, p.height, p.position);
    n := Base(chain, p.height) + p.position;
  }

  /** Among the rows of the first `n` transactions, the row of an output created by one of them. */
  lemma FundingRow(script: Script, chain: seq<Block>, n: nat, o: OutPoint, i: nat)
    requires i < n <= |Locs(chain)| && Creates(Locs(chain)[i].tx, o)
    ensures var k, rows := RowKey(script, PlaceOf(Locs(chain)[i]), true, o.vout), ChainRows(script, Locs(chain)[..n]);
            && (k in rows <==> CoinOf(Locs(chain)[i], o).script == script)
            && (k in rows ==> rows[k] == CoinOf(Locs(chain)[i], o).value)
  {
    LocsInOrder(chain);
    hide Locs, ChainRows, TxRows, Coins;
    var locs := Locs(chain)[..n];
    assert InOrder(locs) && locs[i] == Locs(chain)[i];
    var k := RowKey(script, PlaceOf(locs[i]), true, o.vout);
    TxRowsPlace(Coins(locs[..i]), script, locs[i]);
    if k in TxRows(Coins(locs[..i]), script, locs[i]) {
      RowIsThere(script, locs, i, k);
    } else if k in ChainRows(script, locs) {
      var m := RowOwner(script, locs, k);
      SamePlace(locs, m, i);
    }
  }

  /** A funding transaction of the script is in the tables. */
  lemma FundingKept(d: Tables, chain: seq<Block>, script: Script, n: nat, o: OutPoint, i: nat)
    requires i < n < |Locs(chain)| && Creates(Locs(chain)[i].tx, o) && CoinOf(Locs(chain)[i], o).script == script
    requires TxsOk(d, chain) && RowsOk(d) && RowsFor(d.history, script) == ChainRows(script, Locs(chain)[..n])
    ensures exists p :: p in d.transactions && d.transactions[p].txid == o.txid
  {
    hide Locs, ChainRows;
    FundingRow(script, chain, n, o, i);
    var p := PlaceOf(Locs(chain)[i]);
    assert RowKey(script, p, true, o.vout) in RowsFor(d.history, script);
    assert p in d.transactions;
    var j := PlaceNumber(chain, p, d.transactions[p]);
    LocsInOrder(chain);
    SamePlace(Locs(chain), i, j);
  }

  // ------------------------------------------------------------------------------ new locations

  ghost predicate IsLocation(chain: seq<Block>, n: nat, l: Location) {
    n < |Locs(chain)| && Locs(chain)[n].height < |chain| &&
    l == Location(n, Locs(chain)[n].height, Locs(chain)[n].position, HeaderOf(chain, Locs(chain)[n].height))
  }

  /** The locations the index lists for the script from a number on. */
  ghost predicate LocationsFrom(cfg: Config, chain: seq<Block>, script: Script, from: nat, locations: seq<Location>)
    requires AllWellFormed(cfg.liquid, chain)
  {
    var nums := ListedNumbers(cfg, chain, script, from);
    |locations| == |nums| && forall i :: 0 <= i < |nums| ==> IsLocation(chain, nums[i], locations[i])
  }

  /** The script's rows are complete up to some transaction, and these locations are what the
      index lists from it on. */
  ghost predicate NewsFor(cfg: Config, chain: seq<Block>, history: Rows, script: Script, locations: seq<Location>)
    requires AllWellFormed(cfg.liquid, chain)
  {
    exists from :: 0 <= from <= |Locs(chain)| && IsNews(cfg, chain, history, script, locations, from)
  }

  ghost predicate IsNews(cfg: Config, chain: seq<Block>, history: Rows, script: Script, locations: seq<Location>, from: nat)
    requires AllWellFormed(cfg.liquid, chain) && from <= |Locs(chain)|
  {
    RowsFor(history, script) == ChainRows(script, Locs(chain)[..from]) && LocationsFrom(cfg, chain, script, from, locations)
  }

  ghost predicate AllNews(cfg: Config, chain: seq<Block>, d: Tables, news: map<Script, seq<Location>>)
    requires AllWellFormed(cfg.liquid, chain)
  {
    news.Keys == d.watch && forall s :: s in news ==> NewsFor(cfg, chain, d.history, s, news[s])
  }

  function PlaceAt(l: Location): Place { Place(l.height, l.offset) }

  /** A chain the index holds, and what a reader sees of it. */
  ghost predicate Current(cfg: Config, blocks: map<Hash, Block>, chain: seq<Block>, snapshot: Snapshot) {
    Indexed(cfg, blocks, chain) && Shows(cfg, snapshot, chain)
  }

  ghost predicate Watchable(cfg: Config, d: Tables) {
    forall s :: s in d.watch ==> Indexable(cfg.liquid, s) && |cfg.scriptPrefix(s)| == PREFIX_LEN
  }

  /** Index lookups for one script from a number on. */
  method Locate(cfg: Config, snapshot: Snapshot, ghost blocks: map<Hash, Block>, ghost chain: seq<Block>,
                script: Script, from: nat) returns (locations: seq<Location>)
    requires Current(cfg, blocks, chain, snapshot) && |cfg.scriptPrefix(script)| == PREFIX_LEN && from <= |Locs(chain)|
    ensures LocationsFrom(cfg, chain, script, from, locations)
  {
    hide AllWellFormed, KnownChain, Locs, Valid, ListsSpent, StoreOf, HeadersOf, ListedNumbers, Numbers, Stores, FindByTxnum;
    var nums := ScanRows(snapshot.scriptKeys, snapshot.store.scripts, cfg.scriptPrefix(script), from);
    ScannedIsListed(cfg, chain, script, from, nums);
    locations := [];
    for i := 0 to |nums|
      invariant |locations| == i && forall k :: 0 <= k < i ==> IsLocation(chain, nums[k], locations[k])
    {
      FindInvertsNumbering(chain, nums[i]);
      locations := locations + [FindByTxnum(snapshot.headers, nums[i]).value];
    }
  }

  /** The highest block with a row of the script. */
  method MaxHeight(history: Rows, script: Script) returns (top: Option<nat>)
    ensures top.None? ==> RowsFor(history, script) == map[]
    ensures top.Some? ==> (exists k :: k in RowsFor(history, script) && k.place.height == top.value)
    ensures top.Some? ==> (forall k :: k in RowsFor(history, script) ==> k.place.height <= top.value)
  {
    top := None;
    var todo := history.Keys;
    while todo != {}
      invariant todo <= history.Keys
      invariant top.None? ==> forall k :: k in history && k.script == script ==> k in todo
      invariant top.Some? ==> exists k :: k in RowsFor(history, script) && k.place.height == top.value
      invariant top.Some? ==> forall k :: k in RowsFor(history, script) && k !in todo ==> k.place.height <= top.value
      decreases todo
    {
      var k :| k in todo;
      todo := todo - {k};
      if k.script == script && (top.None? || k.place.height > top.value) {
        assert k in RowsFor(history, script);
        top := Some(k.place.height);
      }
    }
  }

  lemma NoRowsAtAll(chain: seq<Block>, script: Script)
    ensures map[] == ChainRows(script, Locs(chain)[..0])
  {}

  /** Scanning goes on after the highest block with a row. */
  lemma GoOnFrom(d: Tables, chain: seq<Block>, script: Script, top: nat)
    requires PrefixRows(d, chain, script)
    requires exists k :: k in RowsFor(d.history, script) && k.place.height == top
    requires forall k :: k in RowsFor(d.history, script) ==> k.place.height <= top
    ensures top < |chain| && Base(chain, top + 1) <= |Locs(chain)|
    ensures RowsFor(d.history, script) == ChainRows(script, Locs(chain)[..Base(chain, top + 1)])
  {
    hide ChainRows, Locs, RowsFor;
    var n :| 0 <= n <= |chain| && IsPrefixRows(d, chain, script, n);
    UpToHighest(script, chain, n, top);
  }

  lemma TopIsKept(d: Tables, chain: seq<Block>, script: Script, top: nat)
    requires HeadersOk(d, chain) && TxsOk(d, chain) && RowsOk(d)
    requires exists k :: k in RowsFor(d.history, script) && k.place.height == top
    ensures top in d.headers && top < |chain| && d.headers[top] == chain[top].hash
  {}

  // ---------------------------------------------------------------------------------- the cache

  class Cache {
    var db: Tables
    const cfg: Config

    constructor (cfg: Config)
      ensures this.cfg == cfg && db == NO_ROWS && Fits(db, [])
    {
      this.cfg := cfg;
      db := NO_ROWS;
    }

    /** Watches more scripts. Addresses never name an unspendable script. */
    method Add(scripts: set<Script>, ghost chain: seq<Block>)
      requires Fits(db, chain)
      modifies this
      ensures Fits(db, chain) && db == old(db).(watch := old(db).watch + scripts)
    {
      AddedFits(db, chain, scripts);
      db := db.(watch := db.watch + scripts);
    }

    /** Deletes every stale header and what hangs on it, scanning down from the highest cached
        header to the first active one. */
    method DropStaleBlocks(headers: seq<Header>, ghost blocks: map<Hash, Block>, ghost base: seq<Block>, ghost chain: seq<Block>)
      requires Fits(db, base) && KnownChain(blocks, base) && KnownChain(blocks, chain) && headers == HeadersOf(chain)
      modifies this
      ensures Fits(db, chain) && db == OnlyActive(old(db), headers)
    {
      hide KnownChain, HeadersOf, HeadersOk, TxsOk, RowsOk, PrefixRows, DeletedFrom, OnlyActive, IsActive;
      var deleteFrom, heights, i := LowestStale(headers, db.headers);
      ghost var from: nat := if deleteFrom.Some? then deleteFrom.value else |base|;
      StaleFound(blocks, base, chain, db, headers, heights, i, from);
      DeleteFits(blocks, base, chain, db, from);
      DeletesStale(db, headers, from);
      NothingDeleted(db, base, |base|);
      if deleteFrom.Some? {
        db := DeletedFrom(db, deleteFrom.value);
      }
    }
  
    /** Drops stale blocks, then looks up each watched script from the block after its highest
        row. */
    method SyncHistory(snapshot: Snapshot, ghost blocks: map<Hash, Block>, ghost base: seq<Block>, ghost chain: seq<Block>)
      returns (news: map<Script, seq<Location>>)
      requires Fits(db, base) && KnownChain(blocks, base) && Current(cfg, blocks, chain, snapshot) && Watchable(cfg, db)
      modifies this
      ensures Fits(db, chain) && db.watch == old(db).watch && AllWellFormed(cfg.liquid, chain)
      ensures AllNews(cfg, chain, db, news)
    {
      hide KnownChain, HeadersOf, HeadersOk, TxsOk, RowsOk, PrefixRows, AllWellFormed, Indexed, Shows, IsActive, Fits, NewsFor, Indexable;
      CurrentParts(cfg, blocks, chain, snapshot);
      DropStaleBlocks(snapshot.headers, blocks, base, chain);
      news := map[];
      ghost var kept := db;
      var todo := db.watch;
      while todo != {}
        invariant db == kept && todo <= db.watch && news.Keys == db.watch - todo
        invariant forall s :: s in news ==> NewsFor(cfg, chain, db.history, s, news[s])
        decreases todo
      {
        var s :| s in todo;
        var locations := NewLocations(snapshot, blocks, chain, s);
        news := news[s := locations];
        todo := todo - {s};
      }
    }

    method NewLocations(snapshot: Snapshot, ghost blocks: map<Hash, Block>, ghost chain: seq<Block>, script: Script)
      returns (locations: seq<Location>)
      requires Fits(db, chain) && Current(cfg, blocks, chain, snapshot) && script in db.watch
      requires |cfg.scriptPrefix(script)| == PREFIX_LEN
      ensures AllWellFormed(cfg.liquid, chain) && NewsFor(cfg, chain, db.history, script, locations)
    {
      hide KnownChain, HeadersOf, HeadersOk, TxsOk, RowsOk, PrefixRows, AllWellFormed, Indexed, Shows, LocationsFrom, RowsFor, ChainRows, Locs;
      CurrentParts(cfg, blocks, chain, snapshot);
      var top := MaxHeight(db.history, script);
      var from: nat := 0;
      if top.Some? {
        TopIsKept(db, chain, script, top.value);
        GoOnFrom(db, chain, script, top.value);
        from := snapshot.headers[top.value].nextTxnum;
      } else {
        NoRowsAtAll(chain, script);
      }
      locations := Locate(cfg, snapshot, blocks, chain, script, from);
      assert IsNews(cfg, chain, db.history, script, locations, from);
    }

    /** Adds the headers of new locations, unless there already. */
    method AddHeaders(locations: set<Location>, ghost blocks: map<Hash, Block>, ghost chain: seq<Block>)
      requires Fits(db, chain) && KnownChain(blocks, chain) && forall l :: l in locations ==> IsLocation(chain, l.txnum, l)
      modifies this
      ensures Fits(db, chain) && db == old(db).(headers := db.headers)
      ensures forall h :: h in db.headers <==> h in old(db).headers || exists l :: l in locations && l.height == h
    {
      hide KnownChain, Fits, IsLocation;
      var todo := locations;
      while todo != {}
        invariant todo <= locations && Fits(db, chain) && db == old(db).(headers := db.headers)
        invariant forall h :: h in db.headers <==> h in old(db).headers || exists l :: l in locations - todo && l.height == h
        decreases todo
      {
        var l :| l in todo;
        HeaderFits(blocks, chain, db, l);
        if l.height !in db.headers && l.header.hash !in db.headers.Values {
          db := db.(headers := db.headers[l.height := l.header.hash]);
        }
        todo := todo - {l};
      }
    }

    /** Fetches and adds the transactions of new locations, unless there already; fails when a
        body is not served. */
    method AddTransactions(locations: set<Location>, snapshot: Snapshot, serves: Ref -> bool, blocks: map<Hash, Block>, ghost chain: seq<Block>)
      returns (ok: bool)
      requires Fits(db, chain) && Current(cfg, blocks, chain, snapshot)
      requires forall l :: l in locations ==> IsLocation(chain, l.txnum, l) && l.height in db.headers
      modifies this
      ensures Fits(db, chain) && db == old(db).(transactions := db.transactions)
      ensures ok ==> forall p :: p in db.transactions <==> p in old(db).transactions || exists l :: l in locations && PlaceAt(l) == p
      ensures (forall r :: serves(r)) ==> ok
    {
      hide KnownChain, Fits, IsLocation, Current;
      var todo := locations;
      while todo != {}
        invariant todo <= locations && Fits(db, chain) && db == old(db).(transactions := db.transactions)
        invariant forall p :: p in db.transactions <==> p in old(db).transactions || exists l :: l in locations - todo && PlaceAt(l) == p
        decreases todo
      {
        var l :| l in todo;
        var tx := TxBytes(cfg, snapshot, serves, blocks, chain, l);
        if tx.None? { return false; }
        TxFits(cfg, blocks, chain, snapshot, db, l, tx.value);
        var p := PlaceAt(l);
        if p !in db.transactions && (forall q :: q in db.transactions ==> db.transactions[q].txid != tx.value.txid) {
          db := db.(transactions := db.transactions[p := tx.value]);
        }
        todo := todo - {l};
      }
      ok := true;
    }
  
    /** The amount the script received in an output, if the tables have it. */
    method FundedAmount(script: Script, o: OutPoint, ghost coins: map<OutPoint, Coin>) returns (amount: Option<int>)
      requires LookupOk(db, coins, script, o)
      ensures amount == if o in coins && coins[o].script == script then Some(coins[o].value) else None
    {
      var places := set p | p in db.transactions && db.transactions[p].txid == o.txid;
      if places == {} {
        assert forall p :: p in db.transactions && db.transactions[p].txid == o.txid ==> p in places;
        return None;
      }
      var p :| p in places;
      assert LookupAt(db, coins, script, o, p);
      var k := RowKey(script, p, true, o.vout);
      amount := if k in db.history then Some(db.history[k]) else None;
    }

    /** Adds a row for each input that spends one of the script's outputs; fails on an output of
        no value. No key is there already. */
    method AddSpends(script: Script, l: Loc, ghost coins: map<OutPoint, Coin>) returns (ok: bool)
      requires forall i :: 0 <= i < |l.tx.inputs| ==> LookupOk(db, coins, script, l.tx.inputs[i])
      requires forall k :: k in db.history && k.script == script ==> k.place != PlaceOf(l)
      modifies this
      ensures db == old(db).(history := db.history)
      ensures ok ==> db.history == old(db).history + SpendRows(coins, script, l, |l.tx.inputs|)
      ensures (forall o :: o in coins && coins[o].script == script ==> coins[o].value > 0) ==> ok
    {
      hide LookupOk, SpendRows;
      ghost var before := db;
      NoSpendsYet(before.history, coins, script, l);
      for i := 0 to |l.tx.inputs|
        invariant db == before.(history := before.history + SpendRows(coins, script, l, i))
      {
        SpendRowsStep(coins, script, l, i);
        LookupLater(before, db, coins, script, l.tx.inputs[i], SpendRows(coins, script, l, i));
        var amount := FundedAmount(script, l.tx.inputs[i], coins);
        if amount.Some? {
          if amount.value <= 0 { return false; }
          var k := RowKey(script, PlaceOf(l), false, i);
          assert k !in db.history;
          db := db.(history := db.history[k := 0 - amount.value]);
        }
      }
      ok := true;
    }

    /** Adds a row for each output that pays the script. */
    method AddPays(script: Script, l: Loc)
      requires forall k :: k in db.history && k.script == script && k.isOutput ==> k.place != PlaceOf(l)
      modifies this
      ensures db == old(db).(history := old(db).history + PayRows(script, l, |l.tx.outputs|))
    {
      hide PayRows;
      ghost var before := db;
      NoPaysYet(before.history, script, l);
      for i := 0 to |l.tx.outputs|
        invariant db == before.(history := before.history + PayRows(script, l, i))
      {
        PayRowsStep(script, l, i);
        if l.tx.outputs[i].script == script {
          var k := RowKey(script, PlaceOf(l), true, i);
          assert k !in db.history;
          db := db.(history := db.history[k := l.tx.outputs[i].value]);
        }
      }
    }

    /** Adds the script's rows of transaction `n`. */
    method AddTxRows(script: Script, at: Location, ghost chain: seq<Block>, ghost n: nat) returns (ok: bool)
      requires Valid(Locs(chain)) && Tidy(db, chain) && script in db.watch && IsLocation(chain, n, at)
      requires Place(at.height, at.offset) in db.transactions
      requires RowsFor(db.history, script) == ChainRows(script, Locs(chain)[..n])
      modifies this
      ensures db == old(db).(history := db.history)
      ensures ok ==> Tidy(db, chain) && SameElsewhere(old(db).history, db.history, script)
      ensures ok ==> RowsFor(db.history, script) == ChainRows(script, Locs(chain)[..n+1])
      ensures PaysPositive(Locs(chain), script) ==> ok
    {
      hide Valid, ChainRows, Locs, Coins, TxRows, SpendRows, PayRows, Tidy, LookupOk, RowsFor, SameElsewhere, PaysPositive;
      ghost var before := db;
      ghost var coins := Coins(Locs(chain)[..n]);
      var l := Loc(db.transactions[Place(at.height, at.offset)], at.height, at.offset);
      ReadyToAdd(db, chain, script, n, at, l);
      PositiveCoins(chain, script, n);
      ok := AddSpends(script, l, coins);
      if !ok { return; }
      SpendsAreSpends(before.history, script, l, coins);
      AddPays(script, l);
      RowsAdded(before, db, script, chain, n, l);
    }

    /** Adds the rows of a script's new locations in chain order. */
    method AddScriptRows(script: Script, locations: seq<Location>, ghost blocks: map<Hash, Block>, ghost chain: seq<Block>) returns (ok: bool)
      requires Tidy(db, chain) && Indexed(cfg, blocks, chain) && AllWellFormed(cfg.liquid, chain)
      requires script in db.watch && Indexable(cfg.liquid, script) && NewsFor(cfg, chain, db.history, script, locations)
      requires InTables(db, locations)
      modifies this
      ensures db == old(db).(history := db.history)
      ensures ok ==> Tidy(db, chain) && SameElsewhere(old(db).history, db.history, script)
      ensures ok ==> RowsFor(db.history, script) == ChainRows(script, Locs(chain))
      ensures PaysPositive(Locs(chain), script) ==> ok
    {
      hide Indexed, AllWellFormed, Tidy, ListedNumbers, RowsFor, ChainRows, Locs, Indexable, PaysPositive, SameElsewhere, IsLocation, Valid;
      ghost var from := NewsStart(cfg, chain, db.history, script, locations);
      ghost var nums := ListedNumbers(cfg, chain, script, from);
      ghost var before := db;
      NewsFacts(cfg, blocks, chain, script, from, nums);
      SameAsItself(before.history, script);
      for i := 0 to |locations|
        invariant Tidy(db, chain) && db == before.(history := db.history) && SameElsewhere(before.history, db.history, script)
        invariant RowsFor(db.history, script) == ChainRows(script, Locs(chain)[..UpTo(nums, i, |Locs(chain)|)])
      {
        ghost var now := db.history;
        ok := AddTxRows(script, locations[i], chain, nums[i]);
        if !ok { return; }
        SkipToNext(cfg, blocks, chain, script, from, nums, i);
        ElsewhereStill(before.history, now, db.history, script);
      }
      ok := true;
      AllOf(Locs(chain));
    }

    /** Adds the new history of every watched script. */
    method AddHistory(news: map<Script, seq<Location>>, ghost blocks: map<Hash, Block>, ghost chain: seq<Block>) returns (ok: bool)
      requires Tidy(db, chain) && Indexed(cfg, blocks, chain) && AllWellFormed(cfg.liquid, chain) && Watchable(cfg, db)
      requires AllNews(cfg, chain, db, news) && forall s :: s in news ==> InTables(db, news[s])
      modifies this
      ensures db == old(db).(history := db.history)
      ensures ok ==> Tidy(db, chain) && Complete(db, chain)
      ensures (forall s :: s in db.watch ==> PaysPositive(Locs(chain), s)) ==> ok
    {
      hide Indexed, AllWellFormed, Tidy, RowsFor, ChainRows, Locs, Indexable, PaysPositive, SameElsewhere, NewsFor, InTables;
      ghost var before := db;
      var todo := news.Keys;
      while todo != {}
        invariant todo <= news.Keys && Tidy(db, chain) && db == before.(history := db.history)
        invariant forall s :: s in todo ==> NewsFor(cfg, chain, db.history, s, news[s])
        invariant forall s :: s in news && s !in todo ==> RowsFor(db.history, s) == ChainRows(s, Locs(chain))
        decreases todo
      {
        var s :| s in todo;
        ghost var now := db.history;
        InTablesStill(before, db, news[s]);
        ok := AddScriptRows(s, news[s], blocks, chain);
        if !ok { return; }
        OthersKept(cfg, chain, now, db.history, s);
        todo := todo - {s};
      }
      ok := true;
    }

    /** Brings the cache up to date in one transaction: on success every watched script's rows
        are those of the active chain, and on failure nothing has changed. */
    method Sync(snapshot: Snapshot, serves: Ref -> bool, blocks: map<Hash, Block>, ghost base: seq<Block>, ghost chain: seq<Block>) returns (ok: bool)
      requires Fits(db, base) && KnownChain(blocks, base) && Current(cfg, blocks, chain, snapshot) && Watchable(cfg, db)
      modifies this
      ensures !ok ==> db == old(db)
      ensures ok ==> Fits(db, chain) && Complete(db, chain) && db.watch == old(db).watch
      ensures (forall r :: serves(r)) && (forall s :: s in db.watch ==> PaysPositive(Locs(chain), s)) ==> ok
    {
      hide KnownChain, Fits, AllWellFormed, Indexed, Shows, Tidy, NewsFor, InTables, Complete, PaysPositive, IsLocation;
      var saved := db;
      CurrentParts(cfg, blocks, chain, snapshot);
      var news := SyncHistory(snapshot, blocks, base, chain);
      var locations := set s, l | s in news && l in news[s] :: l;
      NewsLocated(cfg, blocks, chain, db, news, locations);
      AddHeaders(locations, blocks, chain);
      ok := AddTransactions(locations, snapshot, serves, blocks, chain);
      if !ok {
        db := saved;
        return;
      }
      FitsTidy(db, chain);
      AllInTables(db, news, locations);
      ok := AddHistory(news, blocks, chain);
      if ok {
        CompleteFits(db, chain);
      } else {
        db := saved;
      }
    }
  }

  /** Every watched script's rows are exactly what the whole chain gives it. */
  ghost predicate Complete(d: Tables, chain: seq<Block>) {
    forall s :: s in d.watch ==> RowsFor(d.history, s) == ChainRows(s, Locs(chain))
  }

  ghost predicate InTables(d: Tables, locations: seq<Location>) {
    forall i :: 0 <= i < |locations| ==> Place(locations[i].height, locations[i].offset) in d.transactions
  }

  /** How far the rows are complete once `i` listed transactions are added. */
  function UpTo(nums: seq<nat>, i: nat, end: nat): nat { if i < |nums| then nums[i] else end }

  lemma SameAsItself(rows: Rows, script: Script)
    ensures SameElsewhere(rows, rows, script)
  {}

  lemma ElsewhereStill(a: Rows, b: Rows, c: Rows, script: Script)
    requires SameElsewhere(a, b, script) && SameElsewhere(b, c, script)
    ensures SameElsewhere(a, c, script)
  {}

  lemma NewsStart(cfg: Config, chain: seq<Block>, history: Rows, script: Script, locations: seq<Location>) returns (from: nat)
    requires AllWellFormed(cfg.liquid, chain) && NewsFor(cfg, chain, history, script, locations)
    ensures from <= |Locs(chain)| && IsNews(cfg, chain, history, script, locations, from)
  {
    from :| 0 <= from <= |Locs(chain)| && IsNews(cfg, chain, history, script, locations, from);
  }

  /** The listed numbers ascend within the chain, and nothing before the first touches the script. */
  lemma NewsFacts(cfg: Config, blocks: map<Hash, Block>, chain: seq<Block>, script: Script, from: nat, nums: seq<nat>)
    requires Indexed(cfg, blocks, chain) && AllWellFormed(cfg.liquid, chain) && Indexable(cfg.liquid, script) && from <= |Locs(chain)|
    requires nums == ListedNumbers(cfg, chain, script, from)
    ensures Valid(Locs(chain)) && forall i :: 0 <= i < |nums| ==> nums[i] < |Locs(chain)|
    ensures ChainRows(script, Locs(chain)[..from]) == ChainRows(script, Locs(chain)[..UpTo(nums, 0, |Locs(chain)|)])
  {
    ListedFacts(cfg, chain, script, from);
    hide AllWellFormed, KnownChain, Valid, ListsSpent, Indexable, ListedNumbers, Locs, Ascending;
    if |nums| > 0 { assert from <= nums[0]; }
    NothingBetween(nums, 0, from, |Locs(chain)|);
    SkipTo(cfg, blocks, chain, script, from, nums, from, UpTo(nums, 0, |Locs(chain)|));
  }

  lemma SkipToNext(cfg: Config, blocks: map<Hash, Block>, chain: seq<Block>, script: Script, from: nat, nums: seq<nat>, i: nat)
    requires Indexed(cfg, blocks, chain) && AllWellFormed(cfg.liquid, chain) && Indexable(cfg.liquid, script) && from <= |Locs(chain)|
    requires nums == ListedNumbers(cfg, chain, script, from) && i < |nums|
    ensures nums[i] < |Locs(chain)| && UpTo(nums, i + 1, |Locs(chain)|) <= |Locs(chain)|
    ensures ChainRows(script, Locs(chain)[..nums[i] + 1]) == ChainRows(script, Locs(chain)[..UpTo(nums, i + 1, |Locs(chain)|)])
  {
    hide AllWellFormed, Indexed, Indexable, ListedNumbers, Locs, ChainRows, StoreOf, Numbers;
    ListedFacts(cfg, chain, script, from);
    NextIsLater(nums, i, |Locs(chain)|);
    hide Ascending, UpTo;
    SkipTo(cfg, blocks, chain, script, from, nums, nums[i] + 1, UpTo(nums, i + 1, |Locs(chain)|));
  }

  lemma NextIsLater(nums: seq<nat>, i: nat, end: nat)
    requires Ascending(nums, NatLess) && i < |nums| && forall j :: 0 <= j < |nums| ==> nums[j] < end
    ensures nums[i] < UpTo(nums, i + 1, end) <= end
    ensures forall n :: nums[i] + 1 <= n < UpTo(nums, i + 1, end) ==> n !in nums
  {
    assert i + 1 < |nums| ==> NatLess(nums[i], nums[i + 1]);
    NothingBetween(nums, i + 1, nums[i] + 1, end);
  }

  lemma NothingBetween(nums: seq<nat>, i: nat, a: nat, end: nat)
    requires Ascending(nums, NatLess) && i <= |nums| && (i > 0 ==> nums[i-1] < a)
    ensures forall n :: a <= n < UpTo(nums, i, end) ==> n !in nums
  {
    forall j | 0 <= j < |nums| ensures nums[j] < a || UpTo(nums, i, end) <= nums[j] {
      if j < i - 1 { assert NatLess(nums[j], nums[i-1]); }
      if i < j { assert NatLess(nums[i], nums[j]); }
    }
  }

  /** Transactions the index does not list for the script add no rows. */
  lemma SkipTo(cfg: Config, blocks: map<Hash, Block>, chain: seq<Block>, script: Script, from: nat, nums: seq<nat>, a: nat, b: nat)
    requires Indexed(cfg, blocks, chain) && AllWellFormed(cfg.liquid, chain) && Indexable(cfg.liquid, script)
    requires nums == ListedNumbers(cfg, chain, script, from) && from <= a <= b <= |Locs(chain)|
    requires forall n :: a <= n < b ==> n !in nums
    ensures ChainRows(script, Locs(chain)[..a]) == ChainRows(script, Locs(chain)[..b])
  {
    hide AllWellFormed, Indexed, Indexable, ListedNumbers, Locs, Touches, ChainRows;
    forall n | a <= n < b ensures !Touches(Locs(chain), n, script) {
      if Touches(Locs(chain), n, script) { TouchingIsListed(cfg, blocks, chain, script, from, n); }
    }
    SkipRows(script, Locs(chain), a, b);
  }

  lemma InTablesStill(before: Tables, d: Tables, locations: seq<Location>)
    requires d == before.(history := d.history)
    ensures InTables(before, locations) ==> InTables(d, locations)
  {}

  /** Adding one script's rows leaves the others' as they were. */
  lemma OthersKept(cfg: Config, chain: seq<Block>, before: Rows, after: Rows, script: Script)
    requires AllWellFormed(cfg.liquid, chain) && SameElsewhere(before, after, script)
    ensures forall s :: s != script ==> RowsFor(after, s) == RowsFor(before, s)
    ensures forall s, locations :: s != script && NewsFor(cfg, chain, before, s, locations) ==> NewsFor(cfg, chain, after, s, locations)
  {
    hide AllWellFormed, LocationsFrom, ChainRows, Locs;
    forall s | s != script ensures RowsFor(after, s) == RowsFor(before, s) {
      OtherRows(before, after, script, s);
    }
    hide RowsFor;
    forall s, locations | s != script && NewsFor(cfg, chain, before, s, locations) ensures NewsFor(cfg, chain, after, s, locations) {
      var from := NewsStart(cfg, chain, before, s, locations);
      assert IsNews(cfg, chain, after, s, locations, from);
    }
  }

  lemma OtherRows(before: Rows, after: Rows, script: Script, s: Script)
    requires SameElsewhere(before, after, script) && s != script
    ensures RowsFor(after, s) == RowsFor(before, s)
  {
    forall k ensures (k in RowsFor(after, s) <==> k in RowsFor(before, s)) && (k in RowsFor(after, s) ==> RowsFor(after, s)[k] == RowsFor(before, s)[k]) {}
  }

  lemma NewsLocated(cfg: Config, blocks: map<Hash, Block>, chain: seq<Block>, d: Tables, news: map<Script, seq<Location>>, locations: set<Location>)
    requires AllWellFormed(cfg.liquid, chain) && AllNews(cfg, chain, d, news)
    requires locations == set s, l | s in news && l in news[s] :: l
    ensures forall l :: l in locations ==> IsLocation(chain, l.txnum, l)
  {
    hide AllWellFormed, ChainRows, Locs, RowsFor, ListedNumbers;
    forall l | l in locations ensures IsLocation(chain, l.txnum, l) {
      var s :| s in news && l in news[s];
      var i :| 0 <= i < |news[s]| && news[s][i] == l;
      var from := NewsStart(cfg, chain, d.history, s, news[s]);
      assert IsLocation(chain, ListedNumbers(cfg, chain, s, from)[i], l);
    }
  }

  lemma FitsTidy(d: Tables, chain: seq<Block>)
    requires Fits(d, chain)
    ensures Tidy(d, chain)
  {}

  lemma AllInTables(d: Tables, news: map<Script, seq<Location>>, locations: set<Location>)
    requires locations == set s, l | s in news && l in news[s] :: l
    requires forall l :: l in locations ==> PlaceAt(l) in d.transactions
    ensures forall s :: s in news ==> InTables(d, news[s])
  {
    forall s | s in news ensures InTables(d, news[s]) {
      forall i | 0 <= i < |news[s]| ensures Place(news[s][i].height, news[s][i].offset) in d.transactions {
        assert news[s][i] in news[s];
        assert news[s][i] in locations;
      }
    }
  }

  lemma CompleteFits(d: Tables, chain: seq<Block>)
    requires Tidy(d, chain) && Complete(d, chain)
    ensures Fits(d, chain)
  {
    hide ChainRows, Locs, RowsFor, TxAt;
    assert chain[..|chain|] == chain;
    forall s | s in d.watch ensures PrefixRows(d, chain, s) {
      assert IsPrefixRows(d, chain, s, |chain|);
    }
  }

  lemma SpendsAreSpends(before: Rows, script: Script, l: Loc, coins: map<OutPoint, Coin>)
    requires forall k :: k in before && k.script == script ==> k.place != PlaceOf(l)
    ensures var rows := before + SpendRows(coins, script, l, |l.tx.inputs|);
            forall k :: k in rows && k.script == script && k.isOutput ==> k.place != PlaceOf(l)
  {}

  /** Adding a transaction's rows extends the script's rows by that transaction. */
  lemma RowsAdded(before: Tables, after: Tables, script: Script, chain: seq<Block>, n: nat, l: Loc)
    requires Tidy(before, chain) && script in before.watch && PlaceOf(l) in before.transactions
    requires n < |Locs(chain)| && l == Locs(chain)[n] && RowsFor(before.history, script) == ChainRows(script, Locs(chain)[..n])
    requires var coins := Coins(Locs(chain)[..n]);
             after == before.(history := before.history + SpendRows(coins, script, l, |l.tx.inputs|) + PayRows(script, l, |l.tx.outputs|))
    ensures Tidy(after, chain) && SameElsewhere(before.history, after.history, script)
    ensures RowsFor(after.history, script) == ChainRows(script, Locs(chain)[..n+1])
  {
    hide ChainRows, Locs, Coins, SpendRows, PayRows, TxAt, RowsFor;
    var coins := Coins(Locs(chain)[..n]);
    UnionAssoc(before.history, SpendRows(coins, script, l, |l.tx.inputs|), PayRows(script, l, |l.tx.outputs|));
    OneMore(Locs(chain), n);
    ChainRowsSnoc(script, Locs(chain)[..n], l);
    assert after.history == before.history + TxRows(coins, script, l);
    TxRowsPlace(coins, script, l);
    hide TxRows;
    RowsForUnion(before.history, TxRows(coins, script, l), script);
    TidyUnion(before, TxRows(coins, script, l), script, PlaceOf(l), chain);
  }

  lemma UnionAssoc<K, V>(a: map<K, V>, b: map<K, V>, c: map<K, V>)
    ensures a + b + c == a + (b + c)
  {}

  lemma RowsForUnion(a: Rows, b: Rows, script: Script)
    requires forall k :: k in b ==> k.script == script
    ensures RowsFor(a + b, script) == RowsFor(a, script) + b
    ensures SameElsewhere(a, a + b, script)
  {}

  lemma TidyUnion(d: Tables, more: Rows, script: Script, p: Place, chain: seq<Block>)
    requires Tidy(d, chain) && script in d.watch && p in d.transactions
    requires forall k :: k in more ==> k.script == script && k.place == p
    ensures Tidy(d.(history := d.history + more), chain)
  {
    hide TxAt;
  }

  ghost predicate Tidy(d: Tables, chain: seq<Block>) {
    HeadersOk(d, chain) && TxsOk(d, chain) && RowsOk(d)
  }

  ghost predicate SameElsewhere(a: Rows, b: Rows, script: Script) {
    forall k: RowKey :: k.script != script ==> (k in a <==> k in b) && (k in a ==> a[k] == b[k])
  }

  /** Outputs paying the script have a value. */
  ghost predicate PaysPositive(locs: seq<Loc>, script: Script) {
    forall n, o :: 0 <= n < |locs| && Creates(locs[n].tx, o) && CoinOf(locs[n], o).script == script ==> CoinOf(locs[n], o).value > 0
  }

  lemma LookupLater(before: Tables, d: Tables, coins: map<OutPoint, Coin>, script: Script, o: OutPoint, more: Rows)
    requires LookupOk(before, coins, script, o) && d == before.(history := before.history + more)
    requires forall k :: k in more ==> !k.isOutput
    ensures LookupOk(d, coins, script, o)
  {
    forall p | p in d.transactions && d.transactions[p].txid == o.txid ensures LookupAt(d, coins, script, o, p) {
      assert LookupAt(before, coins, script, o, p);
    }
  }

  /** The sign of each amount, as the balance check counts them. */
  function Signs(rows: Rows): map<RowKey, int> {
    map k | k in rows :: if rows[k] > 0 then 1 else if rows[k] < 0 then -1 else 0
  }

  /** What a query over complete tables counts: amounts add up to the script's balance, and, where
      outputs have a value, signs add up to the number of its unspent outputs. */
  lemma QueriesAddUp(d: Tables, chain: seq<Block>, script: Script)
    requires Valid(Locs(chain)) && Complete(d, chain) && script in d.watch
    ensures var rows, money := RowsFor(d.history, script), Money(Coins(Locs(chain)), script);
            && Sum(rows) == Total(money)
            && (PaysPositive(Locs(chain), script) ==> Sum(Signs(rows)) == |money|)
  {
    LocsInOrder(chain);
    hide Valid, Locs, Coins, Money, Sum, Sides, Signs, PaysPositive, InOrder, ChainRows, RowsFor;
    RowsAddUp(script, Locs(chain));
    if PaysPositive(Locs(chain), script) {
      SignsAreSides(script, chain);
    }
  }

  lemma SignsAreSides(script: Script, chain: seq<Block>)
    requires Valid(Locs(chain)) && InOrder(Locs(chain)) && PaysPositive(Locs(chain), script)
    ensures Signs(ChainRows(script, Locs(chain))) == Sides(ChainRows(script, Locs(chain)))
  {
    hide Valid, Locs, Coins, InOrder, ChainRows, RowAt, PaysPositive;
    var rows := ChainRows(script, Locs(chain));
    forall k | k in rows ensures if k.isOutput then rows[k] > 0 else rows[k] < 0 {
      var n := RowOwner(script, Locs(chain), k);
      RowsSayMoves(script, Locs(chain), n, k.index);
      PositiveCoins(chain, script, n);
      PositivePay(script, Locs(chain), n);
    }
  }

  lemma PositivePay(script: Script, locs: seq<Loc>, n: nat)
    requires PaysPositive(locs, script) && n < |locs|
    ensures forall i :: 0 <= i < |locs[n].tx.outputs| && locs[n].tx.outputs[i].script == script ==> locs[n].tx.outputs[i].value > 0
  {
    var tx := locs[n].tx;
    forall i | 0 <= i < |tx.outputs| && tx.outputs[i].script == script ensures tx.outputs[i].value > 0 {
      assert Creates(tx, OutPoint(tx.txid, i));
    }
  }

  /** Before transaction `n` is added, its inputs can be looked up and its place has no rows. */
  lemma ReadyToAdd(d: Tables, chain: seq<Block>, script: Script, n: nat, at: Location, l: Loc)
    requires Valid(Locs(chain)) && Tidy(d, chain) && IsLocation(chain, n, at) && Place(at.height, at.offset) in d.transactions
    requires l == Loc(d.transactions[Place(at.height, at.offset)], at.height, at.offset)
    requires RowsFor(d.history, script) == ChainRows(script, Locs(chain)[..n])
    ensures n < |Locs(chain)| && l == Locs(chain)[n]
    ensures forall i :: 0 <= i < |l.tx.inputs| ==> LookupOk(d, Coins(Locs(chain)[..n]), script, l.tx.inputs[i])
    ensures forall k :: k in d.history && k.script == script ==> k.place != PlaceOf(l)
  {
    hide Valid, Locs, ChainRows, Coins, LookupOk, RowAt;
    var m := PlaceNumber(chain, PlaceOf(l), l.tx);
    LocsInOrder(chain);
    SamePlace(Locs(chain), m, n);
    forall i | 0 <= i < |l.tx.inputs| ensures LookupOk(d, Coins(Locs(chain)[..n]), script, l.tx.inputs[i]) {
      LookupsRight(d, chain, script, n, l.tx.inputs[i]);
    }
    forall k | k in d.history && k.script == script ensures k.place != PlaceOf(l) {
      assert k in RowsFor(d.history, script);
      var j := RowOwner(script, Locs(chain)[..n], k);
      assert Locs(chain)[..n][j] == Locs(chain)[j];
      if k.place == PlaceOf(l) { SamePlace(Locs(chain), j, n); }
    }
  }

  lemma PositiveCoins(chain: seq<Block>, script: Script, n: nat)
    requires Valid(Locs(chain)) && n <= |Locs(chain)|
    ensures PaysPositive(Locs(chain), script) ==>
              forall o :: o in Coins(Locs(chain)[..n]) && Coins(Locs(chain)[..n])[o].script == script ==> Coins(Locs(chain)[..n])[o].value > 0
  {
    hide Valid, Locs, Coins;
    var locs := Locs(chain)[..n];
    ValidPrefix(Locs(chain), n);
    forall o | PaysPositive(Locs(chain), script) && o in Coins(locs) && Coins(locs)[o].script == script ensures Coins(locs)[o].value > 0 {
      CoinsClosedForm(locs, o);
      var i :| 0 <= i < |locs| && Creates(locs[i].tx, o);
      assert Coins(locs)[o] == CoinOf(Locs(chain)[i], o);
    }
  }

  lemma CurrentParts(cfg: Config, blocks: map<Hash, Block>, chain: seq<Block>, snapshot: Snapshot)
    requires Current(cfg, blocks, chain, snapshot)
    ensures AllWellFormed(cfg.liquid, chain) && KnownChain(blocks, chain) && Valid(Locs(chain))
    ensures snapshot.headers == HeadersOf(chain) && Shows(cfg, snapshot, chain) && Indexed(cfg, blocks, chain)
    ensures |snapshot.headers| == |chain| && forall h :: 0 <= h < |chain| ==> snapshot.headers[h].nextTxnum == Base(chain, h + 1)
  {}

  /** The transaction at a location, fetched by its block and byte range. */
  method TxBytes(cfg: Config, snapshot: Snapshot, serves: Ref -> bool, blocks: map<Hash, Block>, ghost chain: seq<Block>, l: Location)
    returns (tx: Option<Tx>)
    requires Current(cfg, blocks, chain, snapshot) && IsLocation(chain, l.txnum, l)
    ensures tx.Some? ==> tx.value == Locs(chain)[l.txnum].tx
    ensures (forall r :: serves(r)) ==> tx.Some?
  {
    hide KnownChain, HeadersOf, AllWellFormed, Indexed, Locs, Finds, Body, RefOf, ListsSpent, Stores, StoreOf, Valid;
    CurrentParts(cfg, blocks, chain, snapshot);
    ChainLookup(cfg, chain, l.txnum);
    RefParts(chain, l.txnum);
    BodyOfRef(cfg, blocks, chain, l.txnum);
    var pos := GetTxBlockPos(snapshot.store.txpos, l.txnum, Pos(RefOf(chain, l.txnum).offset, RefOf(chain, l.txnum).size));
    var ref := Ref(l.header.hash, l.height, l.offset, pos.offset, pos.size);
    if !serves(ref) { return None; }
    var body := Body(blocks, ref);
    tx := Some(body.value.tx);
  }

  /** Adding a header of the chain keeps the tables fitting, and the header is there afterwards:
      hashes never repeat. */
  lemma HeaderFits(blocks: map<Hash, Block>, chain: seq<Block>, d: Tables, l: Location)
    requires Fits(d, chain) && KnownChain(blocks, chain) && IsLocation(chain, l.txnum, l)
    ensures l.height !in d.headers ==> l.header.hash !in d.headers.Values
    ensures Fits(d.(headers := d.headers[l.height := l.header.hash]), chain)
  {
    hide PrefixRows, TxAt, Locs;
    if l.height !in d.headers && l.header.hash in d.headers.Values {
      var h :| h in d.headers && d.headers[h] == l.header.hash;
      SameBlockSamePast(blocks, chain, chain, h, l.height);
    }
    hide KnownChain;
    SamePrefixes(d, d.(headers := d.headers[l.height := l.header.hash]), chain);
  }

  lemma SamePrefixes(d: Tables, e: Tables, chain: seq<Block>)
    requires d.history == e.history
    ensures forall s :: PrefixRows(d, chain, s) ==> PrefixRows(e, chain, s)
  {
    hide ChainRows, Locs;
    forall s | PrefixRows(d, chain, s) ensures PrefixRows(e, chain, s) {
      var n :| 0 <= n <= |chain| && IsPrefixRows(d, chain, s, n);
      assert IsPrefixRows(e, chain, s, n);
    }
  }

  /** Adding a transaction of the chain, likewise: txids never repeat. */
  lemma TxFits(cfg: Config, blocks: map<Hash, Block>, chain: seq<Block>, snapshot: Snapshot, d: Tables, l: Location, tx: Tx)
    requires Fits(d, chain) && Current(cfg, blocks, chain, snapshot)
    requires IsLocation(chain, l.txnum, l) && l.height in d.headers && tx == Locs(chain)[l.txnum].tx
    ensures var p := Place(l.height, l.offset);
            && Fits(d.(transactions := d.transactions[p := tx]), chain)
            && (p !in d.transactions ==> forall q :: q in d.transactions ==> d.transactions[q].txid != tx.txid)
  {
    hide PrefixRows, AllWellFormed, KnownChain, Shows, Valid, Locs, ListsSpent, HeaderOf, RowsOk;
    var p := Place(l.height, l.offset);
    LocInRange(chain, l.txnum);
    forall q | q in d.transactions && p !in d.transactions ensures d.transactions[q].txid != tx.txid {
      var n := PlaceNumber(chain, q, d.transactions[q]);
      if n < l.txnum { UniqueTxids(Locs(chain), n, l.txnum); }
      if l.txnum < n { UniqueTxids(Locs(chain), l.txnum, n); }
    }
    hide Indexed;
    var e := d.(transactions := d.transactions[p := tx]);
    SamePrefixes(d, e, chain);
    MoreTransactions(d, chain, p, tx);
  }

  lemma MoreTransactions(d: Tables, chain: seq<Block>, p: Place, tx: Tx)
    requires TxsOk(d, chain) && RowsOk(d) && TxAt(chain, p, tx) && p.height in d.headers
    ensures TxsOk(d.(transactions := d.transactions[p := tx]), chain) && RowsOk(d.(transactions := d.transactions[p := tx]))
  {}

  /** The lowest stale header: scans down from the highest one to the first active. */
  method LowestStale(headers: seq<Header>, cached: map<nat, Hash>) returns (deleteFrom: Option<nat>, heights: seq<nat>, i: nat)
    ensures Ascending(heights, Higher) && (forall h :: h in heights <==> h in cached) && i <= |heights|
    ensures forall j :: 0 <= j < i ==> !IsActive(headers, heights[j], cached[heights[j]])
    ensures i < |heights| ==> IsActive(headers, heights[i], cached[heights[i]])
    ensures deleteFrom == if i == 0 then None else Some(heights[i-1])
  {
    hide Ascending, IsActive;
    heights := HighestFirst(cached);
    deleteFrom := None;
    i := 0;
    while i < |heights|
      invariant i <= |heights|
      invariant forall j :: 0 <= j < i ==> !IsActive(headers, heights[j], cached[heights[j]])
      invariant deleteFrom == if i == 0 then None else Some(heights[i-1])
    {
      if IsActive(headers, heights[i], cached[heights[i]]) { break; }
      deleteFrom := Some(heights[i]);
      i := i + 1;
    }
  }

  method HighestFirst(cached: map<nat, Hash>) returns (heights: seq<nat>)
    ensures Ascending(heights, Higher) && forall h :: h in heights <==> h in cached
  {
    HigherOrder();
    heights := SortSet(cached.Keys, Higher);
    SortSetAscending(cached.Keys, Higher);
  }

  lemma AddedFits(d: Tables, chain: seq<Block>, scripts: set<Script>)
    requires Fits(d, chain)
    ensures Fits(d.(watch := d.watch + scripts), chain)
  {
    hide TxAt, ChainRows;
    var more := d.(watch := d.watch + scripts);
    forall s | s in more.watch ensures PrefixRows(more, chain, s) {
      if s in d.watch {
        var n :| 0 <= n <= |chain| && IsPrefixRows(d, chain, s, n);
        assert IsPrefixRows(more, chain, s, n);
      } else {
        NoRowsYet(d, chain, s);
        assert IsPrefixRows(more, chain, s, 0);
      }
    }
  }

  lemma NoRowsYet(d: Tables, chain: seq<Block>, s: Script)
    requires RowsOk(d) && s !in d.watch
    ensures RowsFor(d.history, s) == ChainRows(s, Locs(chain[..0]))
  {
    assert RowsFor(d.history, s) == map[];
  }

  /** Stopping at the first active header leaves no stale one behind. */
  lemma StaleFound(blocks: map<Hash, Block>, base: seq<Block>, chain: seq<Block>, d: Tables, headers: seq<Header>,
                   heights: seq<nat>, i: nat, from: nat)
    requires HeadersOk(d, base) && KnownChain(blocks, base) && KnownChain(blocks, chain) && headers == HeadersOf(chain)
    requires Ascending(heights, Higher) && (forall h :: h in heights <==> h in d.headers) && i <= |heights|
    requires forall j :: 0 <= j < i ==> !IsActive(headers, heights[j], d.headers[heights[j]])
    requires i < |heights| ==> IsActive(headers, heights[i], d.headers[heights[i]])
    requires from == if i == 0 then |base| else heights[i-1]
    ensures forall h :: h in d.headers ==> (h < from <==> IsActive(headers, h, d.headers[h]))
  {
    hide KnownChain, HeadersOf, IsActive;
    forall h | h in d.headers ensures h < from <==> IsActive(headers, h, d.headers[h]) {
      var j :| 0 <= j < |heights| && heights[j] == h;
      if j < i {
        if j < i - 1 { assert Higher(heights[j], heights[i-1]); }
      } else {
        if i > 0 { assert Higher(heights[i-1], heights[j]); }
        if i < j { assert Higher(heights[i], heights[j]); }
        assert heights[i] in heights;
        StaleIsTop(blocks, base, chain, h, heights[i]);
      }
    }
  }

  // --------------------------------------------------------------------------------------- runs

  /** What happens to a cache: scripts are added to the watch list, or it is synchronized with
      the index, which may have moved to any chain of known blocks since. */
  datatype CacheStep = Watch(scripts: set<Script>) | SyncTo(chain: seq<Block>, snapshot: Snapshot, serves: Ref -> bool)

  ghost predicate GoodStep(cfg: Config, blocks: map<Hash, Block>, step: CacheStep) {
    match step
    case Watch(scripts) => forall s :: s in scripts ==> Indexable(cfg.liquid, s) && |cfg.scriptPrefix(s)| == PREFIX_LEN
    case SyncTo(chain, snapshot, _) => Current(cfg, blocks, chain, snapshot)
  }

  /** Nothing stands in the way of the synchronization. */
  ghost predicate Succeeds(step: CacheStep, watch: set<Script>)
    requires step.SyncTo?
  {
    (forall r :: step.serves(r)) && forall s :: s in watch ==> PaysPositive(Locs(step.chain), s)
  }

  /** After any sequence of watch additions and synchronizations over extended and reorganized
      chains, whether or not each succeeded, a synchronization that succeeds leaves every watched
      script with exactly its rows on the active chain. */
  method Run(cache: Cache, blocks: map<Hash, Block>, steps: seq<CacheStep>) returns (ghost base: seq<Block>)
    requires cache.db == NO_ROWS && forall i :: 0 <= i < |steps| ==> GoodStep(cache.cfg, blocks, steps[i])
    modifies cache
    ensures KnownChain(blocks, base) && Fits(cache.db, base)
    ensures |steps| > 0 && steps[|steps|-1].SyncTo? && Succeeds(steps[|steps|-1], cache.db.watch) ==>
              Complete(cache.db, steps[|steps|-1].chain)
  {
    hide KnownChain, Fits, Current, Succeeds, Complete, Indexable;
    base := [];
    NothingFits(blocks);
    for i := 0 to |steps|
      invariant KnownChain(blocks, base) && Fits(cache.db, base) && Watchable(cache.cfg, cache.db)
      invariant i > 0 && steps[i-1].SyncTo? && Succeeds(steps[i-1], cache.db.watch) ==> Complete(cache.db, steps[i-1].chain)
    {
      assert GoodStep(cache.cfg, blocks, steps[i]);
      match steps[i]
      case Watch(scripts) =>
        cache.Add(scripts, base);
      case SyncTo(chain, snapshot, serves) =>
        CurrentParts(cache.cfg, blocks, chain, snapshot);
        var ok := cache.Sync(snapshot, serves, blocks, base, chain);
        WhenSucceeds(steps[i], cache.db.watch);
        if ok { base := chain; }
    }
  }

  lemma NothingFits(blocks: map<Hash, Block>)
    ensures KnownChain(blocks, []) && Fits(NO_ROWS, [])
  {}

  lemma WhenSucceeds(step: CacheStep, watch: set<Script>)
    requires step.SyncTo?
    ensures Succeeds(step, watch) ==> (forall r :: step.serves(r)) && forall s :: s in watch ==> PaysPositive(Locs(step.chain), s)
  {}
}
