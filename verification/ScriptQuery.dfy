/** Queries over a moving chain: a script's history and an outpoint's spender, answered from
    index rows read under the lock and bodies fetched after it is released, while other
    queries use the same cache and the index follows reorganizations. */
module ScriptQueries {
  import opened Collections
  import opened Ledger
  import opened ScriptFold
  import opened Replay
  import opened Keys
  import opened TxPos
  import opened Chain
  import opened IndexRows
  import opened Histories
  import opened ScriptRefs
  import opened ScriptCaches

  const REORG_RETRIES := 3
  const FETCH_BATCH := 512
  const FETCH_WORKERS := 8

  datatype QueryError = Reorg | Deadline | Fetch

  datatype Result<+T> = Ok(value: T) | Err(error: QueryError)

  /** What a reader of the index sees at one instant. */
  datatype Snapshot = Snapshot(headers: seq<Header>, store: Store, scriptKeys: seq<Bytes>, txidKeys: seq<Bytes>)

  datatype CacheOp = GetOp(script: Script) | PutOp(script: Script, cached: CachedScript)

  /** Everything outside one call, instant by instant: the index contents and the chain they
      stand for, whether a body is served, whether the deadline is over, and what other
      threads do to the cache. Every interleaving is some such world. */
  datatype World = World(
    blocks: map<Hash, Block>,
    chain: nat -> seq<Block>,
    index: nat -> Snapshot,
    serves: (nat, Ref) -> bool,
    expired: nat -> bool,
    others: nat -> seq<CacheOp>)

  ghost predicate Shows(cfg: Config, snapshot: Snapshot, chain: seq<Block>)
    requires AllWellFormed(cfg.liquid, chain)
  {
    && snapshot.headers == HeadersOf(chain)
    && snapshot.store == StoreOf(cfg, chain)
    && Stores(snapshot.scriptKeys, snapshot.store.scripts)
    && Stores(snapshot.txidKeys, snapshot.store.txids)
  }

  /** The fold of an entry is the fold of the bodies of its own references. */
  ghost predicate Sound(blocks: map<Hash, Block>, script: Script, c: CachedScript) {
    exists locs :: FoldedFrom(blocks, script, c, locs)
  }

  ghost predicate FoldedFrom(blocks: map<Hash, Block>, script: Script, c: CachedScript, locs: seq<Loc>) {
    BodiesOf(blocks, c.refs, locs) && c.fold == FoldAll(script, locs) && c.history == Finish(c.fold)
  }

  ghost predicate SoundOps(blocks: map<Hash, Block>, ops: seq<CacheOp>) {
    forall i :: 0 <= i < |ops| && ops[i].PutOp? ==> Sound(blocks, ops[i].script, ops[i].cached)
  }

  ghost predicate SoundEntries(blocks: map<Hash, Block>, entries: Entries) {
    forall s :: s in entries ==> Sound(blocks, s, entries[s].cached)
  }

  ghost predicate SoundPuts(blocks: map<Hash, Block>, puts: seq<(Script, CachedScript)>) {
    forall i :: 0 <= i < |puts| ==> Sound(blocks, puts[i].0, puts[i].1)
  }

  /** At each instant the index holds some valid chain of known blocks. */
  ghost predicate IndexFollows(cfg: Config, w: World) {
    forall t :: Indexed(cfg, w.blocks, w.chain(t)) && Shows(cfg, w.index(t), w.chain(t))
  }

  /** Other threads put only sound folds, as this one does. */
  ghost predicate OthersSound(w: World) {
    forall t :: SoundOps(w.blocks, w.others(t))
  }

  /** Something from `t0` until `t1` explains the error: the deadline was over, or a body was not
      served. */
  ghost predicate Caused(w: World, t0: nat, t1: nat, e: QueryError) {
    match e
    case Reorg => false
    case Deadline => exists t :: t0 <= t < t1 && w.expired(t)
    case Fetch => exists t, x :: t0 <= t < t1 && !w.serves(t, x)
  }

  ghost predicate ChainStays(w: World, t0: nat, t1: nat) {
    forall t :: t0 <= t < t1 ==> w.chain(t) == w.chain(t0)
  }

  /** The chain moved in each of `k` successive stretches of time. */
  ghost predicate Moves(w: World, t0: nat, t1: nat, k: nat) {
    if k == 0 then t0 <= t1 else exists m :: t0 <= m <= t1 && Moves(w, t0, m, k - 1) && !ChainStays(w, m, t1)
  }

  // ------------------------------------------------------------------------------- fetching bodies

  lemma BodiesAppend(blocks: map<Hash, Block>, a: seq<Ref>, x: seq<Loc>, b: seq<Ref>, y: seq<Loc>)
    requires BodiesOf(blocks, a, x) && BodiesOf(blocks, b, y)
    ensures BodiesOf(blocks, a + b, x + y)
  {
    hide Body;
    forall i | 0 <= i < |a + b| ensures Body(blocks, (a + b)[i]) == Some((x + y)[i]) {
      if i < |a| {
        assert Body(blocks, a[i]) == Some(x[i]);
      } else {
        assert Body(blocks, b[i - |a|]) == Some(y[i - |a|]);
      }
    }
  }

  lemma Chunk<T>(s: seq<T>, i: nat, j: nat)
    requires i <= j <= |s|
    ensures s[..j] == s[..i] + s[i..j]
  {}

  /** Every reference has a body. */
  ghost predicate AllKnown(blocks: map<Hash, Block>, refs: seq<Ref>) {
    forall i :: 0 <= i < |refs| ==> Body(blocks, refs[i]).Some?
  }

  /** One worker's share, one body after the other. */
  method FetchSlice(w: World, t: nat, refs: seq<Ref>) returns (r: Result<seq<Loc>>)
    ensures r.Ok? ==> BodiesOf(w.blocks, refs, r.value)
    ensures r.Err? ==> r.error == Fetch
    ensures AllKnown(w.blocks, refs) && r.Err? ==> exists x :: !w.serves(t, x)
  {
    hide Body;
    var bodies: seq<Loc> := [];
    for i := 0 to |refs|
      invariant |bodies| == i && forall k :: 0 <= k < i ==> Body(w.blocks, refs[k]) == Some(bodies[k])
    {
      var body := Body(w.blocks, refs[i]);
      if !w.serves(t, refs[i]) || body.None? { return Err(Fetch); }
      bodies := bodies + [body.value];
    }
    r := Ok(bodies);
  }

  /** Splits the references among workers and joins their answers in order. */
  method FetchBodies(w: World, t: nat, refs: seq<Ref>) returns (r: Result<seq<Loc>>)
    ensures r.Ok? ==> BodiesOf(w.blocks, refs, r.value)
    ensures r == Err(Deadline) <==> w.expired(t)
    ensures AllKnown(w.blocks, refs) && r.Err? ==> Caused(w, t, t + 1, r.error)
  {
    hide Body, BodiesOf;
    if w.expired(t) { return Err(Deadline); }
    if |refs| < 2 {
      r := FetchSlice(w, t, refs);
      return;
    }
    var workers: nat := if FETCH_WORKERS < |refs| then FETCH_WORKERS else |refs|;
    var chunk: nat := (|refs| + workers - 1) / workers;
    r := FetchChunks(w, t, refs, chunk);
  }

  method FetchChunks(w: World, t: nat, refs: seq<Ref>, chunk: nat) returns (r: Result<seq<Loc>>)
    requires chunk > 0
    ensures r.Ok? ==> BodiesOf(w.blocks, refs, r.value)
    ensures r.Err? ==> r.error == Fetch
    ensures AllKnown(w.blocks, refs) && r.Err? ==> exists x :: !w.serves(t, x)
  {
    hide Body, BodiesOf;
    var i: nat, bodies: seq<Loc> := 0, [];
    NoBodies(w.blocks, refs);
    while i < |refs|
      invariant i <= |refs| && BodiesOf(w.blocks, refs[..i], bodies)
      decreases |refs| - i
    {
      var j: nat := if i + chunk < |refs| then i + chunk else |refs|;
      var slice := FetchSlice(w, t, refs[i..j]);
      if slice.Err? { return slice; }
      Chunk(refs, i, j);
      BodiesAppend(w.blocks, refs[..i], bodies, refs[i..j], slice.value);
      i, bodies := j, bodies + slice.value;
    }
    AllOf(refs);
    r := Ok(bodies);
  }

  lemma NoBodies(blocks: map<Hash, Block>, refs: seq<Ref>)
    ensures BodiesOf(blocks, refs[..0], [])
  {}

  /** Every listed reference has a body. */
  lemma ListedAreKnown(cfg: Config, blocks: map<Hash, Block>, chain: seq<Block>, script: Script, from: nat)
    requires Indexed(cfg, blocks, chain)
    ensures AllKnown(blocks, RefsOf(cfg, chain, script, from))
  {
    RefsHaveBodies(cfg, blocks, chain, script, from);
    hide RefsOf, Body, KnownChain, AllWellFormed, ListedNumbers, Valid, Locs;
  }

  // ---------------------------------------------------------------------------- listing references

  /** Where a scan from a block's height starts; the whole index when the height before it has
      no header. */
  function FromTxnum(headers: seq<Header>, height: Option<nat>): nat {
    if height.Some? && 0 < height.value <= |headers| then headers[height.value - 1].nextTxnum else 0
  }

  ghost function FromOf(chain: seq<Block>, height: Option<nat>): nat {
    if height.Some? && height.value <= |chain| then Base(chain, height.value) else 0
  }

  lemma FromIsBase(chain: seq<Block>, height: Option<nat>)
    ensures FromTxnum(HeadersOf(chain), height) == FromOf(chain, height)
    ensures FromOf(chain, height) <= |Locs(chain)|
  {
    if height.Some? && height.value <= |chain| {
      BaseMonotone(chain, height.value, |chain|);
      assert chain[..|chain|] == chain;
    }
  }

  function TipOf(headers: seq<Header>): Hash {
    if |headers| == 0 then ZERO else headers[|headers|-1].hash
  }

  /** The references the index lists for a script and the tip they belong to, read under one
      lock. The scan is ascending and repeats nothing, so sorting it changes nothing. */
  method ListRefs(cfg: Config, snapshot: Snapshot, ghost blocks: map<Hash, Block>, ghost chain: seq<Block>,
                  script: Script, height: Option<nat>) returns (tip: Hash, refs: seq<Ref>)
    requires Indexed(cfg, blocks, chain) && Shows(cfg, snapshot, chain) && |cfg.scriptPrefix(script)| == PREFIX_LEN
    ensures tip == TipHash(chain) && refs == RefsOf(cfg, chain, script, FromOf(chain, height))
  {
    hide AllWellFormed, KnownChain, Locs, Valid, ListsSpent, StoreOf, HeadersOf, ListedNumbers, RefsOf, RefOf, Numbers, Stores;
    FromIsBase(chain, height);
    var from: nat := FromTxnum(snapshot.headers, height);
    var nums := ScanRows(snapshot.scriptKeys, snapshot.store.scripts, cfg.scriptPrefix(script), from);
    ScannedIsListed(cfg, chain, script, from, nums);
    refs := [];
    for i := 0 to |nums|
      invariant |refs| == i && forall k :: 0 <= k < i ==> refs[k] == RefsOf(cfg, chain, script, from)[k]
    {
      var ref := ResolveRef(cfg, snapshot, blocks, chain, nums[i]);
      refs := refs + [ref];
      RefsOfAt(cfg, chain, script, from, i);
    }
    tip := TipOf(snapshot.headers);
    TipMatches(chain);
  }

  lemma TipMatches(chain: seq<Block>)
    ensures TipOf(HeadersOf(chain)) == TipHash(chain)
  {}

  lemma ScannedIsListed(cfg: Config, chain: seq<Block>, script: Script, from: nat, nums: seq<nat>)
    requires AllWellFormed(cfg.liquid, chain) && Ascending(nums, NatLess)
    requires SetOf(nums) == Numbers(StoreOf(cfg, chain).scripts, cfg.scriptPrefix(script), from)
    ensures nums == ListedNumbers(cfg, chain, script, from)
    ensures |RefsOf(cfg, chain, script, from)| == |nums|
    ensures forall i :: 0 <= i < |nums| ==> nums[i] < |Locs(chain)|
  {
    ListedFacts(cfg, chain, script, from);
    hide AllWellFormed, StoreOf, Numbers;
    NatOrder();
    SortSetAscending(Numbers(StoreOf(cfg, chain).scripts, cfg.scriptPrefix(script), from), NatLess);
    hide SortSet;
    AscendingUnique(nums, ListedNumbers(cfg, chain, script, from), NatLess);
  }

  lemma RefsOfAt(cfg: Config, chain: seq<Block>, script: Script, from: nat, i: nat)
    requires AllWellFormed(cfg.liquid, chain) && i < |ListedNumbers(cfg, chain, script, from)|
    ensures ListedNumbers(cfg, chain, script, from)[i] < |Locs(chain)|
    ensures RefsOf(cfg, chain, script, from)[i] == RefOf(chain, ListedNumbers(cfg, chain, script, from)[i])
  {
    ListedFacts(cfg, chain, script, from);
    hide AllWellFormed, ListedNumbers, RefOf, Locs;
  }

  /** The block and byte range of a transaction number. */
  method ResolveRef(cfg: Config, snapshot: Snapshot, ghost blocks: map<Hash, Block>, ghost chain: seq<Block>, n: nat) returns (r: Ref)
    requires Indexed(cfg, blocks, chain) && Shows(cfg, snapshot, chain) && n < |Locs(chain)|
    ensures r == RefOf(chain, n)
  {
    hide AllWellFormed, KnownChain, Locs, Valid, ListsSpent, StoreOf, HeadersOf, RefOf, Finds, FindByTxnum, Stores;
    FindInvertsNumbering(chain, n);
    var location := FindByTxnum(snapshot.headers, n).value;
    ChainLookup(cfg, chain, n);
    var pos := GetTxBlockPos(snapshot.store.txpos, n, Pos(RefOf(chain, n).offset, RefOf(chain, n).size));
    r := Ref(location.header.hash, location.height, location.offset, pos.offset, pos.size);
    RefParts(chain, n);
  }

  lemma RefParts(chain: seq<Block>, n: nat)
    requires n < |Locs(chain)|
    ensures var l := Locs(chain)[n];
            && l.height < |chain|
            && RefOf(chain, n).hash == HeaderOf(chain, l.height).hash
            && RefOf(chain, n).height == l.height && RefOf(chain, n).position == l.position
  {
    LocInRange(chain, n);
  }

  // -------------------------------------------------------------------------------------- queries

  class ChainAdapter {
    const cfg: Config
    const w: World
    const scripts: ScriptCache
    /** The present instant; other threads act whenever it moves. */
    var now: nat
    /** When the chain was last looked at. */
    ghost var looked: nat

    constructor (cfg: Config, w: World, scripts: ScriptCache, now: nat)
      ensures this.cfg == cfg && this.w == w && this.scripts == scripts && this.now == now
    {
      this.cfg, this.w, this.scripts, this.now := cfg, w, scripts, now;
    }

    /** Every entry is sound, and so was every fold put so far, by whichever thread. */
    ghost predicate Ready()
      reads scripts
    {
      scripts.Valid() && SoundEntries(w.blocks, scripts.entries) && SoundPuts(w.blocks, scripts.puts)
    }

    /** Time passes: other threads use the cache. */
    method Pass()
      requires Ready() && OthersSound(w)
      modifies this`now, scripts
      ensures Ready() && now == old(now) + 1 && old(scripts.puts) <= scripts.puts
    {
      hide Sound, SoundEntries, SoundPuts, SoundOps;
      var ops := w.others(now);
      assert SoundOps(w.blocks, ops);
      for i := 0 to |ops|
        invariant Ready() && old(scripts.puts) <= scripts.puts
        modifies scripts
      {
        match ops[i]
        case GetOp(script) =>
          ghost var before := scripts.entries;
          var got := scripts.Get(script);
          GetKeepsSound(w.blocks, before, script, scripts.entries);
        case PutOp(script, cached) =>
          OpIsSound(w.blocks, ops, i);
          PutSound(script, cached);
      }
      now := now + 1;
    }

    method PutSound(script: Script, cached: CachedScript)
      requires Ready() && Sound(w.blocks, script, cached)
      modifies scripts
      ensures Ready() && scripts.puts == old(scripts.puts) + [(script, cached)]
    {
      hide Sound, SoundEntries, SoundPuts;
      ghost var before := scripts.entries;
      scripts.Put(script, cached);
      PutKeepsSound(w.blocks, before, script, cached, scripts.entries, scripts.clock, scripts.maxRefs);
      OneMoreSound(w.blocks, old(scripts.puts), script, cached);
    }

    method LookTip() returns (tip: Hash)
      requires IndexFollows(cfg, w)
      modifies this`looked
      ensures tip == TipHash(w.chain(now)) && looked == now
    {
      hide Indexed, AllWellFormed, HeadersOf, StoreOf, Stores, IndexFollows;
      looked := now;
      AtInstant(cfg, w, now);
      tip := TipOf(w.index(now).headers);
      TipMatches(w.chain(now));
    }

    method LookRefs(script: Script, height: Option<nat>) returns (tip: Hash, refs: seq<Ref>)
      requires IndexFollows(cfg, w) && |cfg.scriptPrefix(script)| == PREFIX_LEN
      modifies this`looked
      ensures looked == now && ListedAt(cfg, w, now, script, height, tip, refs)
    {
      hide Indexed, AllWellFormed, Shows, RefsOf, IndexFollows;
      looked := now;
      AtInstant(cfg, w, now);
      tip, refs := ListRefs(cfg, w.index(now), w.blocks, w.chain(now), script, height);
    }

    /** Fetches bodies in rounds, with nothing locked: time passes after each. */
    method FetchAll(refs: seq<Ref>) returns (r: Result<seq<Loc>>)
      requires Ready() && OthersSound(w)
      modifies this`now, scripts
      ensures Ready() && old(now) <= now && old(scripts.puts) <= scripts.puts
      ensures r.Ok? ==> BodiesOf(w.blocks, refs, r.value)
      ensures |refs| > 0 && w.expired(old(now)) ==> r == Err(Deadline)
      ensures AllKnown(w.blocks, refs) && r.Err? ==> Caused(w, old(now), now, r.error)
    {
      hide Body, BodiesOf, Ready, OthersSound, Caused, AllKnown;
      var i: nat, bodies: seq<Loc> := 0, [];
      NoBodies(w.blocks, refs);
      while i < |refs|
        invariant Ready() && old(now) <= now && old(scripts.puts) <= scripts.puts
        invariant i <= |refs| && BodiesOf(w.blocks, refs[..i], bodies) && (i == 0 ==> now == old(now)) && (i > 0 ==> !w.expired(old(now)))
        decreases |refs| - i
      {
        var j: nat := if i + FETCH_BATCH < |refs| then i + FETCH_BATCH else |refs|;
        var batch := FetchBodies(w, now, refs[i..j]);
        Pass();
        PartKnown(w.blocks, refs, i, j);
        if batch.Err? {
          CausedLess(w, old(now), now - 1, now, now, batch.error);
          return batch;
        }
        Chunk(refs, i, j);
        BodiesAppend(w.blocks, refs[..i], bodies, refs[i..j], batch.value);
        i, bodies := j, bodies + batch.value;
      }
      AllOf(refs);
      r := Ok(bodies);
    }

    /** The cached fold to go on from: one of a prefix of the references, or the empty fold. */
    method Resume(script: Script, refs: seq<Ref>) returns (hit: bool, start: CachedScript, ghost locs: seq<Loc>)
      requires Ready()
      modifies scripts
      ensures Ready() && scripts.puts == old(scripts.puts)
      ensures start.refs <= refs && FoldedFrom(w.blocks, script, start, locs)
    {
      hide Sound, SoundEntries, SoundPuts, FoldedFrom, Finish, FoldFrom;
      ghost var before := scripts.entries;
      var cached := scripts.Get(script);
      GetKeepsSound(w.blocks, before, script, scripts.entries);
      if cached.Some? && cached.value.refs <= refs {
        locs := SoundBodies(w.blocks, script, cached.value);
        return true, cached.value, locs;
      }
      NothingFolded(w.blocks, script);
      return false, CachedScript([], EMPTY, Finish(EMPTY)), [];
    }

    method FoldOn(script: Script, start: State, bodies: seq<Loc>) returns (folded: State)
      ensures folded == FoldFrom(start, script, bodies)
    {
      hide Applied;
      var fold := new Fold(start);
      for i := 0 to |bodies|
        invariant fold.Value() == FoldFrom(start, script, bodies[..i])
      {
        Chain.OneMore(bodies, i);
        FoldSnoc(start, script, bodies[..i], bodies[i]);
        fold.Apply(script, bodies[i]);
      }
      AllOf(bodies);
      folded := fold.Value();
    }

    /** One attempt; `None` when the two looks at the tip differ. */
    method Attempt(script: Script) returns (r: Option<Result<History>>)
      requires Ready() && IndexFollows(cfg, w) && OthersSound(w) && |cfg.scriptPrefix(script)| == PREFIX_LEN
      modifies this, scripts
      ensures Ready() && old(now) <= looked < now && old(scripts.puts) <= scripts.puts
      ensures r.None? ==> !ChainStays(w, old(now), now)
      ensures r.Some? && r.value.Ok? ==> Answers(cfg, w, looked, script, r.value.value)
      ensures r.Some? && r.value.Err? ==> Caused(w, old(now), now, r.value.error)
    {
      hide Ready, IndexFollows, OthersSound, BodiesOf, AllKnown, ListedAt, FoldedFrom, Answers, Finish, FoldFrom, ChainStays, Caused, Sound;
      ghost var began := now;
      var tip, refs := LookRefs(script, None);
      Pass();
      var hit, start, locs := Resume(script, refs);
      if hit && |start.refs| == |refs| {
        SoundAnswer(cfg, w, began, script, tip, refs, start, locs);
        return Some(Ok(start.history));
      }
      var tail := refs[|start.refs|..];
      ghost var fetching := now;
      var fetched := FetchAll(tail);
      TailKnown(cfg, w, began, script, None, tip, refs, |start.refs|);
      if fetched.Err? {
        CausedLess(w, began, fetching, now, now, fetched.error);
        return Some(Err(fetched.error));
      }
      var again := LookTip();
      ghost var checked := now;
      Pass();
      if again != tip {
        Moved(cfg, w, began, checked, now, script, None, tip, refs);
        return None;
      }
      var folded := FoldOn(script, start.fold, fetched.value);
      var made := CachedScript(refs, folded, Finish(folded));
      FoldedOn(w.blocks, script, start, locs, refs, fetched.value, made);
      FoldIsSound(w.blocks, script, made, locs + fetched.value);
      PutSound(script, made);
      SameChain(cfg, w, began, checked, script, None, tip, refs);
      SoundAnswer(cfg, w, checked, script, tip, refs, made, locs + fetched.value);
      r := Some(Ok(made.history));
    }

    /** A script's confirmed history: the history of one chain the index held during the call,
        the one it held when last looked at. Every fold put into the cache meanwhile is sound. */
    method ScriptHistory(script: Script) returns (r: Result<History>)
      requires Ready() && IndexFollows(cfg, w) && OthersSound(w) && |cfg.scriptPrefix(script)| == PREFIX_LEN
      modifies this, scripts
      ensures Ready() && old(now) <= looked < now && old(scripts.puts) <= scripts.puts
      ensures r.Ok? && Indexable(cfg.liquid, script) ==> r.value == Finish(FoldAll(script, Locs(w.chain(looked))))
      ensures r == Err(Reorg) ==> Moves(w, old(now), now, 3)
      ensures r.Err? && r.error != Reorg ==> Caused(w, old(now), now, r.error)
    {
      hide Ready, IndexFollows, OthersSound, ChainStays, Caused, Moves;
      var attempt := 0;
      MovesNot(w, now);
      while attempt < REORG_RETRIES
        invariant Ready() && old(now) <= now && old(scripts.puts) <= scripts.puts
        invariant attempt <= REORG_RETRIES && Moves(w, old(now), now, attempt)
        invariant attempt > 0 ==> old(now) <= looked < now
        decreases REORG_RETRIES - attempt
      {
        ghost var began := now;
        var tried := Attempt(script);
        if tried.Some? {
          if tried.value.Err? { CausedLess(w, old(now), began, now, now, tried.value.error); }
          return tried.value;
        }
        MovesMore(w, old(now), began, now, attempt);
        attempt := attempt + 1;
      }
      r := Err(Reorg);
    }

    /** The first listed transaction, from the funding height on, that spends the outpoint. */
    method FindSpender(outpoint: OutPoint, script: Script, fundingHeight: nat) returns (r: Result<Option<Spender>>)
      requires Ready() && IndexFollows(cfg, w) && OthersSound(w) && |cfg.scriptPrefix(script)| == PREFIX_LEN
      modifies this, scripts
      ensures Ready() && old(now) <= looked < now && old(scripts.puts) <= scripts.puts
      ensures r.Ok? ==> SpenderAbove(cfg, w.chain(looked), script, outpoint, fundingHeight, r.value)
      ensures r == Err(Reorg) ==> Moves(w, old(now), now, 3)
      ensures r.Err? && r.error != Reorg ==> Caused(w, old(now), now, r.error)
    {
      hide Ready, IndexFollows, OthersSound, ChainStays, Caused, Moves, SpenderFrom, SpenderAbove, FromOf;
      var attempt := 0;
      MovesNot(w, now);
      while attempt < REORG_RETRIES
        invariant Ready() && old(now) <= now && old(scripts.puts) <= scripts.puts
        invariant attempt <= REORG_RETRIES && Moves(w, old(now), now, attempt)
        invariant attempt > 0 ==> old(now) <= looked < now
        decreases REORG_RETRIES - attempt
      {
        ghost var began := now;
        var tried := TrySpender(outpoint, script, fundingHeight);
        if tried.Some? {
          if tried.value.Err? { CausedLess(w, old(now), began, now, now, tried.value.error); }
          return tried.value;
        }
        MovesMore(w, old(now), began, now, attempt);
        attempt := attempt + 1;
      }
      r := Err(Reorg);
    }

    /** One attempt; `None` when the two looks at the tip differ. */
    method TrySpender(outpoint: OutPoint, script: Script, fundingHeight: nat) returns (r: Option<Result<Option<Spender>>>)
      requires Ready() && IndexFollows(cfg, w) && OthersSound(w) && |cfg.scriptPrefix(script)| == PREFIX_LEN
      modifies this, scripts
      ensures Ready() && old(now) <= looked < now && old(scripts.puts) <= scripts.puts
      ensures r.None? ==> !ChainStays(w, old(now), now)
      ensures r.Some? && r.value.Ok? ==>
                SpenderAbove(cfg, w.chain(looked), script, outpoint, fundingHeight, r.value.value)
      ensures r.Some? && r.value.Err? ==> Caused(w, old(now), now, r.value.error)
    {
      hide Ready, IndexFollows, OthersSound, BodiesOf, AllKnown, ListedAt, ChainStays, Caused, SpenderFrom, SpenderAbove, FromOf, IsScan;
      ghost var began := now;
      var tip, refs := LookRefs(script, Some(fundingHeight));
      TailKnown(cfg, w, began, script, Some(fundingHeight), tip, refs, 0);
      Pass();
      ghost var fetching := now;
      AllOf(refs);
      var scanned := ScanRefs(refs, outpoint);
      if scanned.Err? {
        CausedLess(w, began, fetching, now, now, scanned.error);
        return Some(Err(scanned.error));
      }
      var again := LookTip();
      ghost var checked := now;
      Pass();
      if again != tip {
        Moved(cfg, w, began, checked, now, script, Some(fundingHeight), tip, refs);
        return None;
      }
      SameChain(cfg, w, began, checked, script, Some(fundingHeight), tip, refs);
      ScanAnswers(cfg, w, checked, script, fundingHeight, tip, refs, outpoint, scanned.value);
      r := Some(scanned);
    }

    /** Fetches and looks through the references batch by batch, up to the first match. */
    method ScanRefs(refs: seq<Ref>, outpoint: OutPoint) returns (r: Result<Option<Spender>>)
      requires Ready() && OthersSound(w)
      modifies this`now, scripts
      ensures Ready() && old(now) <= now && old(scripts.puts) <= scripts.puts
      ensures r.Ok? ==> IsScan(w.blocks, refs, outpoint, r.value)
      ensures |refs| > 0 && w.expired(old(now)) ==> r == Err(Deadline)
      ensures AllKnown(w.blocks, refs) && r.Err? ==> Caused(w, old(now), now, r.error)
    {
      hide Body, BodiesOf, Ready, OthersSound, Caused, AllKnown, NoHit, IsScan;
      var i: nat := 0;
      NoHitYet(w.blocks, refs, outpoint);
      while i < |refs|
        invariant Ready() && old(now) <= now && old(scripts.puts) <= scripts.puts
        invariant i <= |refs| && NoHit(w.blocks, refs[..i], outpoint) && (i == 0 ==> now == old(now)) && (i > 0 ==> !w.expired(old(now)))
        decreases |refs| - i
      {
        var j: nat := if i + FETCH_BATCH < |refs| then i + FETCH_BATCH else |refs|;
        var batch := FetchBodies(w, now, refs[i..j]);
        Pass();
        PartKnown(w.blocks, refs, i, j);
        if batch.Err? {
          CausedLess(w, old(now), now - 1, now, now, batch.error);
          return Err(batch.error);
        }
        var k := FirstSpender(batch.value, outpoint);
        BatchScanned(w.blocks, refs, i, j, batch.value, outpoint, k);
        if k < |batch.value| {
          var l := batch.value[k];
          var found := Spender(l.tx.txid, InputIndex(l.tx.inputs, outpoint), l.height, l.position, refs[i + k].hash);
          FoundAt(w.blocks, refs, outpoint, i + k, found, l);
          return Ok(Some(found));
        }
        i := j;
      }
      AllOf(refs);
      ScanEnds(w.blocks, refs, outpoint);
      r := Ok(None);
    }
  }

  /** The spending transaction, which of its inputs spends, and where it is. */
  datatype Spender = Spender(txid: Txid, vin: nat, height: nat, position: nat, hash: Hash)

  /** The first input equal to the outpoint, or the number of inputs. */
  function InputIndex(inputs: seq<OutPoint>, o: OutPoint): (k: nat)
    ensures k <= |inputs| && (forall i :: 0 <= i < k ==> inputs[i] != o)
    ensures k < |inputs| <==> o in inputs
    ensures k < |inputs| ==> inputs[k] == o
  {
    if |inputs| == 0 || inputs[0] == o then 0 else 1 + InputIndex(inputs[1..], o)
  }

  /** The funding transaction itself is passed over. */
  predicate Hits(tx: Tx, o: OutPoint) { tx.txid != o.txid && o in tx.inputs }

  method FirstSpender(bodies: seq<Loc>, o: OutPoint) returns (k: nat)
    ensures k <= |bodies| && (forall i :: 0 <= i < k ==> bodies[i].tx.txid == o.txid || o !in bodies[i].tx.inputs)
    ensures k < |bodies| ==> bodies[k].tx.txid != o.txid && o in bodies[k].tx.inputs
  {
    k := 0;
    while k < |bodies|
      invariant k <= |bodies| && forall i :: 0 <= i < k ==> !Hits(bodies[i].tx, o)
    {
      if bodies[k].tx.txid != o.txid {
        if InputIndex(bodies[k].tx.inputs, o) < |bodies[k].tx.inputs| { return; }
      }
      k := k + 1;
    }
  }

  ghost predicate NoHit(blocks: map<Hash, Block>, refs: seq<Ref>, o: OutPoint) {
    forall i :: 0 <= i < |refs| && Body(blocks, refs[i]).Some? ==> !Hits(Body(blocks, refs[i]).value.tx, o)
  }

  ghost predicate HitAt(blocks: map<Hash, Block>, refs: seq<Ref>, o: OutPoint, i: nat, s: Spender)
    requires i < |refs|
  {
    && Body(blocks, refs[i]).Some?
    && var l := Body(blocks, refs[i]).value;
    && Hits(l.tx, o)
    && s == Spender(l.tx.txid, InputIndex(l.tx.inputs, o), l.height, l.position, refs[i].hash)
  }

  /** Some reference's body spends the outpoint as found, or none does. */
  ghost predicate IsScan(blocks: map<Hash, Block>, refs: seq<Ref>, o: OutPoint, found: Option<Spender>) {
    match found
    case Some(s) => exists i :: 0 <= i < |refs| && HitAt(blocks, refs, o, i, s)
    case None => NoHit(blocks, refs, o)
  }

  lemma NoHitYet(blocks: map<Hash, Block>, refs: seq<Ref>, o: OutPoint)
    ensures NoHit(blocks, refs[..0], o)
  {}

  lemma ScanEnds(blocks: map<Hash, Block>, refs: seq<Ref>, o: OutPoint)
    ensures NoHit(blocks, refs, o) ==> IsScan(blocks, refs, o, None)
  {}

  lemma FoundAt(blocks: map<Hash, Block>, refs: seq<Ref>, o: OutPoint, i: nat, s: Spender, l: Loc)
    requires i < |refs| && Body(blocks, refs[i]) == Some(l) && Hits(l.tx, o)
    requires s == Spender(l.tx.txid, InputIndex(l.tx.inputs, o), l.height, l.position, refs[i].hash)
    ensures IsScan(blocks, refs, o, Some(s))
  {
    hide Body, InputIndex, Hits;
    assert HitAt(blocks, refs, o, i, s);
  }

  lemma BatchScanned(blocks: map<Hash, Block>, refs: seq<Ref>, i: nat, j: nat, bodies: seq<Loc>, o: OutPoint, k: nat)
    requires i <= j <= |refs| && NoHit(blocks, refs[..i], o) && BodiesOf(blocks, refs[i..j], bodies)
    requires k <= |bodies| && forall n :: 0 <= n < k ==> bodies[n].tx.txid == o.txid || o !in bodies[n].tx.inputs
    ensures k < |bodies| ==> i + k < |refs| && Body(blocks, refs[i + k]) == Some(bodies[k])
    ensures k == |bodies| ==> NoHit(blocks, refs[..j], o)
  {
    assert forall n :: 0 <= n < k ==> !Hits(bodies[n].tx, o);
    hide Body, Hits;
    assert k < |bodies| ==> refs[i..j][k] == refs[i + k];
    if k == |bodies| {
      forall n | 0 <= n < j && Body(blocks, refs[n]).Some? ensures !Hits(Body(blocks, refs[n]).value.tx, o) {
        if n < i { assert refs[..i][n] == refs[n]; } else { assert refs[i..j][n - i] == refs[n]; }
      }
    }
  }

  // --------------------------------------------------------------------------------- the spender

  /** Transaction `n` spends the outpoint, and is described by `s`. */
  ghost predicate SpentAt(chain: seq<Block>, o: OutPoint, s: Spender, n: nat)
    requires n < |Locs(chain)|
  {
    var l := Locs(chain)[n];
    && s.txid == l.tx.txid && s.height == l.height && s.position == l.position
    && l.height < |chain| && s.hash == chain[l.height].hash
    && s.vin < |l.tx.inputs| && l.tx.inputs[s.vin] == o
  }

  ghost predicate Spends(chain: seq<Block>, o: OutPoint, n: nat)
    requires n < |Locs(chain)|
  {
    o in Locs(chain)[n].tx.inputs
  }

  /** Wherever the chain creates the outpoint, it pays the script. */
  ghost predicate PaidTo(chain: seq<Block>, o: OutPoint, script: Script) {
    forall n :: 0 <= n < |Locs(chain)| && Creates(Locs(chain)[n].tx, o) ==> CoinOf(Locs(chain)[n], o).script == script
  }

  /** What is found spends the outpoint; and for an output of the script, something is found
      exactly when a transaction from `from` on spends it. */
  ghost predicate SpenderFrom(cfg: Config, chain: seq<Block>, script: Script, o: OutPoint, from: nat, found: Option<Spender>) {
    && (found.Some? ==> exists n :: from <= n < |Locs(chain)| && SpentAt(chain, o, found.value, n))
    && (Indexable(cfg.liquid, script) && PaidTo(chain, o, script) ==>
          (found.Some? <==> exists n :: from <= n < |Locs(chain)| && Spends(chain, o, n)))
  }

  /** The transaction is in a block at the height or above it; a height past the next block stands for
      the whole chain. */
  ghost predicate AtOrAbove(chain: seq<Block>, n: nat, height: nat)
    requires n < |Locs(chain)|
  {
    height > |chain| || Locs(chain)[n].height >= height
  }

  /** The same by heights, as callers ask. */
  ghost predicate SpenderAbove(cfg: Config, chain: seq<Block>, script: Script, o: OutPoint, height: nat, found: Option<Spender>) {
    && (found.Some? ==> exists n :: 0 <= n < |Locs(chain)| && AtOrAbove(chain, n, height) && SpentAt(chain, o, found.value, n))
    && (Indexable(cfg.liquid, script) && PaidTo(chain, o, script) ==>
          (found.Some? <==> exists n :: 0 <= n < |Locs(chain)| && AtOrAbove(chain, n, height) && Spends(chain, o, n)))
  }

  lemma FromIsHeight(chain: seq<Block>, height: nat, n: nat)
    requires n < |Locs(chain)|
    ensures FromOf(chain, Some(height)) <= n <==> AtOrAbove(chain, n, height)
  {
    LocInRange(chain, n);
    var h := Locs(chain)[n].height;
    hide Locs;
    if height <= h { BaseMonotone(chain, height, h); }
    if h < height <= |chain| {
      BaseNext(chain, h);
      BaseMonotone(chain, h + 1, height);
    }
  }

  lemma FromIsAbove(cfg: Config, chain: seq<Block>, script: Script, o: OutPoint, height: nat, found: Option<Spender>)
    ensures SpenderFrom(cfg, chain, script, o, FromOf(chain, Some(height)), found) ==> SpenderAbove(cfg, chain, script, o, height, found)
  {
    hide Locs, SpentAt, Spends, PaidTo, Indexable, FromOf, AtOrAbove;
    forall n | 0 <= n < |Locs(chain)| ensures FromOf(chain, Some(height)) <= n <==> AtOrAbove(chain, n, height) {
      FromIsHeight(chain, height, n);
    }
  }

  /** The spender is unique, and so are the spending input and what is reported of it. */
  lemma SpenderIsUnique(chain: seq<Block>, o: OutPoint, a: Spender, m: nat, b: Spender, n: nat)
    requires Valid(Locs(chain)) && m < |Locs(chain)| && n < |Locs(chain)|
    requires SpentAt(chain, o, a, m) && SpentAt(chain, o, b, n)
    ensures a == b && m == n
  {
    hide Valid, Locs;
    if m < n { UniqueSpender(Locs(chain), m, n, o); }
    if n < m { UniqueSpender(Locs(chain), n, m, o); }
    ValidPrefix(Locs(chain), m);
  }

  /** A scan from the block that creates the outpoint, or an earlier one, skips no spender. */
  lemma NothingBeforeFunding(chain: seq<Block>, o: OutPoint, height: nat, n: nat)
    requires Valid(Locs(chain)) && n < |Locs(chain)| && Spends(chain, o, n)
    requires forall i :: 0 <= i < |Locs(chain)| && Creates(Locs(chain)[i].tx, o) ==> height <= Locs(chain)[i].height
    ensures FromOf(chain, Some(height)) <= n
  {
    hide Valid, Locs;
    var i := CreatedBeforeSpent(Locs(chain), n, o);
    LocInRange(chain, i);
    BaseMonotone(chain, height, Locs(chain)[i].height);
  }

  /** A spender of an output of the script is listed, and is not the funding transaction. */
  lemma SpenderIsListed(cfg: Config, blocks: map<Hash, Block>, chain: seq<Block>, script: Script, o: OutPoint, from: nat, n: nat)
    requires Indexed(cfg, blocks, chain) && Indexable(cfg.liquid, script) && PaidTo(chain, o, script)
    requires from <= n < |Locs(chain)| && Spends(chain, o, n)
    ensures n in ListedNumbers(cfg, chain, script, from) && Hits(Locs(chain)[n].tx, o)
  {
    SpendTouches(chain, script, o, n);
    hide AllWellFormed, KnownChain, Valid, Locs, ListedNumbers, Touches;
    TouchingIsListed(cfg, blocks, chain, script, from, n);
  }

  lemma SpendTouches(chain: seq<Block>, script: Script, o: OutPoint, n: nat)
    requires Valid(Locs(chain)) && PaidTo(chain, o, script) && n < |Locs(chain)| && Spends(chain, o, n)
    ensures Touches(Locs(chain), n, script) && Hits(Locs(chain)[n].tx, o)
  {
    hide Valid, Locs, Coins;
    var i := CreatedBeforeSpent(Locs(chain), n, o);
    UniqueTxids(Locs(chain), i, n);
    var tx := Locs(chain)[n].tx;
    var k := InputIndex(tx.inputs, o);
    assert tx.inputs[k] in Coins(Locs(chain)[..n]) && Coins(Locs(chain)[..n])[tx.inputs[k]].script == script;
    assert SpendsFrom(Coins(Locs(chain)[..n]), tx, script);
  }

  /** Scanning the listed references answers for the chain they were listed in. */
  lemma ScanAnswers(cfg: Config, w: World, t: nat, script: Script, height: nat, tip: Hash, refs: seq<Ref>, o: OutPoint, found: Option<Spender>)
    requires IndexFollows(cfg, w) && ListedAt(cfg, w, t, script, Some(height), tip, refs) && IsScan(w.blocks, refs, o, found)
    ensures SpenderAbove(cfg, w.chain(t), script, o, height, found)
  {
    AtInstant(cfg, w, t);
    FromIsAbove(cfg, w.chain(t), script, o, height, found);
    hide IndexFollows, RefsOf, Indexed, AllWellFormed, IsScan, Shows, FromOf, SpenderFrom, SpenderAbove;
    ScanIsSpender(cfg, w.blocks, w.chain(t), script, FromOf(w.chain(t), Some(height)), o, found);
  }

  lemma ScanIsSpender(cfg: Config, blocks: map<Hash, Block>, chain: seq<Block>, script: Script, from: nat, o: OutPoint, found: Option<Spender>)
    requires Indexed(cfg, blocks, chain) && IsScan(blocks, RefsOf(cfg, chain, script, from), o, found)
    ensures SpenderFrom(cfg, chain, script, o, from, found)
  {
    hide AllWellFormed, KnownChain, Valid, Locs, Body, ListedNumbers, RefsOf, ListsSpent, SpentAt, Spends, PaidTo, Indexable, Hits, HitAt;
    RefsHaveBodies(cfg, blocks, chain, script, from);
    ListedFacts(cfg, chain, script, from);
    var nums, refs := ListedNumbers(cfg, chain, script, from), RefsOf(cfg, chain, script, from);
    if found.Some? {
      var i :| 0 <= i < |refs| && HitAt(blocks, refs, o, i, found.value);
      RefsOfAt(cfg, chain, script, from, i);
      HitSpends(chain, blocks, refs, o, i, found.value, nums[i]);
    }
    if Indexable(cfg.liquid, script) && PaidTo(chain, o, script) {
      forall n | from <= n < |Locs(chain)| && Spends(chain, o, n) ensures found.Some? {
        SpenderIsListed(cfg, blocks, chain, script, o, from, n);
        var i :| 0 <= i < |nums| && nums[i] == n;
        assert Body(blocks, refs[i]) == Some(Locs(chain)[n]);
      }
    }
  }

  lemma HitSpends(chain: seq<Block>, blocks: map<Hash, Block>, refs: seq<Ref>, o: OutPoint, i: nat, s: Spender, n: nat)
    requires i < |refs| && n < |Locs(chain)| && refs[i] == RefOf(chain, n) && Body(blocks, refs[i]) == Some(Locs(chain)[n])
    requires HitAt(blocks, refs, o, i, s)
    ensures SpentAt(chain, o, s, n) && Spends(chain, o, n)
  {
    RefParts(chain, n);
    hide RefOf, Body, Locs;
  }

  /** Inputs as a raw transaction lists them; those that spend nothing on this chain (the
      coinbase, Liquid peg-ins) are left out when it is parsed. */
  datatype RawInput = Ordinary(outpoint: OutPoint) | Foreign

  function Parsed(raw: seq<RawInput>): (r: seq<OutPoint>)
    ensures |r| <= |raw|
  {
    if |raw| == 0 then []
    else if raw[0].Ordinary? then [raw[0].outpoint] + Parsed(raw[1..])
    else Parsed(raw[1..])
  }

  function RawIndex(raw: seq<RawInput>, o: OutPoint): (k: nat)
    ensures k <= |raw| && (k < |raw| ==> raw[k] == Ordinary(o))
  {
    if |raw| == 0 || raw[0] == Ordinary(o) then 0 else 1 + RawIndex(raw[1..], o)
  }

  /** The reported input number is the raw one exactly when no foreign input comes before it. */
  lemma {:induction false} VinIsRaw(raw: seq<RawInput>, o: OutPoint)
    requires RawIndex(raw, o) < |raw|
    ensures InputIndex(Parsed(raw), o) == RawIndex(raw, o) <==> forall i :: 0 <= i < RawIndex(raw, o) ==> raw[i].Ordinary?
    ensures InputIndex(Parsed(raw), o) <= RawIndex(raw, o)
  {
    if raw[0] != Ordinary(o) {
      var rest := raw[1..];
      VinIsRaw(rest, o);
      assert forall i :: 0 < i < |raw| ==> raw[i] == rest[i - 1];
      if raw[0].Ordinary? {
        assert ([raw[0].outpoint] + Parsed(rest))[1..] == Parsed(rest);
        if forall i :: 0 <= i < RawIndex(rest, o) ==> rest[i].Ordinary? {
          assert forall i :: 0 <= i < RawIndex(raw, o) ==> raw[i].Ordinary?;
        } else {
          var i :| 0 <= i < RawIndex(rest, o) && !rest[i].Ordinary?;
          assert !raw[i + 1].Ordinary?;
        }
      }
    }
  }

  /** A peg-in before the spending input shifts the number reported for a confirmed spend. */
  lemma PegInShiftsVin(o: OutPoint)
    ensures RawIndex([Foreign, Ordinary(o)], o) == 1 && InputIndex(Parsed([Foreign, Ordinary(o)]), o) == 0
  {
    assert [Foreign, Ordinary(o)][1..] == [Ordinary(o)];
    assert [Ordinary(o)][1..] == [];
    assert Parsed([Ordinary(o)]) == [o];
  }

  /** At `t` the index lists these references for the script, under this tip. */
  ghost predicate ListedAt(cfg: Config, w: World, t: nat, script: Script, height: Option<nat>, tip: Hash, refs: seq<Ref>) {
    var chain := w.chain(t);
    AllWellFormed(cfg.liquid, chain) && tip == TipHash(chain) && refs == RefsOf(cfg, chain, script, FromOf(chain, height))
  }

  /** The history is that of the chain held at `t`. */
  ghost predicate Answers(cfg: Config, w: World, t: nat, script: Script, h: History) {
    Indexable(cfg.liquid, script) ==> h == Finish(FoldAll(script, Locs(w.chain(t))))
  }

  lemma MovesNot(w: World, t: nat)
    ensures Moves(w, t, t, 0)
  {}

  lemma MovesMore(w: World, t0: nat, t1: nat, t2: nat, k: nat)
    requires t0 <= t1 <= t2 && Moves(w, t0, t1, k) && !ChainStays(w, t1, t2)
    ensures Moves(w, t0, t2, k + 1)
  {
    hide ChainStays;
  }

  lemma PartKnown(blocks: map<Hash, Block>, refs: seq<Ref>, i: nat, j: nat)
    requires i <= j <= |refs|
    ensures AllKnown(blocks, refs) ==> AllKnown(blocks, refs[i..j]) && AllKnown(blocks, refs[i..])
  {
    hide Body;
  }

  lemma CausedLess(w: World, t0: nat, t1: nat, t2: nat, t3: nat, e: QueryError)
    requires t0 <= t1 <= t2 <= t3
    ensures Caused(w, t1, t2, e) ==> Caused(w, t0, t3, e)
  {}

  lemma Moved(cfg: Config, w: World, t0: nat, t1: nat, t2: nat, script: Script, height: Option<nat>, tip: Hash, refs: seq<Ref>)
    requires t0 <= t1 < t2 && ListedAt(cfg, w, t0, script, height, tip, refs) && TipHash(w.chain(t1)) != tip
    ensures !ChainStays(w, t0, t2)
  {
    hide RefsOf;
    assert ChainStays(w, t0, t2) ==> w.chain(t1) == w.chain(t0);
  }

  /** Under the same tip the index holds the same chain, so it lists the same references. */
  lemma SameChain(cfg: Config, w: World, t1: nat, t2: nat, script: Script, height: Option<nat>, tip: Hash, refs: seq<Ref>)
    requires IndexFollows(cfg, w) && ListedAt(cfg, w, t1, script, height, tip, refs) && TipHash(w.chain(t2)) == tip
    ensures w.chain(t1) == w.chain(t2) && ListedAt(cfg, w, t2, script, height, tip, refs)
  {
    AtInstant(cfg, w, t1);
    AtInstant(cfg, w, t2);
    hide IndexFollows, RefsOf, AllWellFormed, KnownChain, Valid, Shows, FromOf;
    SameTipSameChain(w.blocks, w.chain(t1), w.chain(t2));
  }

  /** A sound fold of the references listed at `t` is the history of the chain held then. */
  lemma SoundAnswer(cfg: Config, w: World, t: nat, script: Script, tip: Hash, refs: seq<Ref>, c: CachedScript, locs: seq<Loc>)
    requires IndexFollows(cfg, w) && ListedAt(cfg, w, t, script, None, tip, refs)
    requires c.refs <= refs && |c.refs| == |refs| && FoldedFrom(w.blocks, script, c, locs)
    ensures Answers(cfg, w, t, script, c.history)
  {
    hide FoldFrom, FoldAll, Finish, BodiesOf, RefsOf, Indexed, AllWellFormed, Indexable, Shows;
    AtInstant(cfg, w, t);
    SameLength(c.refs, refs);
    if Indexable(cfg.liquid, script) {
      ListedFoldIsReplay(cfg, w.blocks, w.chain(t), script, locs);
    }
  }

  lemma SameLength<T>(a: seq<T>, b: seq<T>)
    requires a <= b && |a| == |b|
    ensures a == b
  {}

  lemma TailKnown(cfg: Config, w: World, t: nat, script: Script, height: Option<nat>, tip: Hash, refs: seq<Ref>, k: nat)
    requires IndexFollows(cfg, w) && ListedAt(cfg, w, t, script, height, tip, refs) && k <= |refs|
    ensures AllKnown(w.blocks, refs[k..])
  {
    AtInstant(cfg, w, t);
    hide IndexFollows, RefsOf, Indexed, AllWellFormed, AllKnown, Shows, FromOf;
    ListedAreKnown(cfg, w.blocks, w.chain(t), script, FromOf(w.chain(t), height));
    PartKnown(w.blocks, refs, k, |refs|);
  }

  lemma SoundBodies(blocks: map<Hash, Block>, script: Script, c: CachedScript) returns (locs: seq<Loc>)
    requires Sound(blocks, script, c)
    ensures FoldedFrom(blocks, script, c, locs)
  {
    locs :| FoldedFrom(blocks, script, c, locs);
  }

  lemma NothingFolded(blocks: map<Hash, Block>, script: Script)
    ensures FoldedFrom(blocks, script, CachedScript([], EMPTY, Finish(EMPTY)), [])
  {
    hide Finish;
  }

  /** Folding on the bodies of the remaining references is folding them all from empty. */
  lemma FoldedOn(blocks: map<Hash, Block>, script: Script, start: CachedScript, locs: seq<Loc>, refs: seq<Ref>, bodies: seq<Loc>, made: CachedScript)
    requires FoldedFrom(blocks, script, start, locs) && start.refs <= refs && BodiesOf(blocks, refs[|start.refs|..], bodies)
    requires made.refs == refs && made.fold == FoldFrom(start.fold, script, bodies) && made.history == Finish(made.fold)
    ensures FoldedFrom(blocks, script, made, locs + bodies)
  {
    hide BodiesOf, FoldFrom, Finish;
    PrefixAndRest(start.refs, refs);
    BodiesAppend(blocks, start.refs, locs, refs[|start.refs|..], bodies);
    FoldAppend(EMPTY, script, locs, bodies);
  }

  lemma PrefixAndRest<T>(a: seq<T>, b: seq<T>)
    requires a <= b
    ensures b == a + b[|a|..]
  {}

  lemma FoldIsSound(blocks: map<Hash, Block>, script: Script, c: CachedScript, locs: seq<Loc>)
    requires FoldedFrom(blocks, script, c, locs)
    ensures Sound(blocks, script, c)
  {
    hide FoldedFrom;
  }

  lemma OneMoreSound(blocks: map<Hash, Block>, puts: seq<(Script, CachedScript)>, script: Script, c: CachedScript)
    requires SoundPuts(blocks, puts) && Sound(blocks, script, c)
    ensures SoundPuts(blocks, puts + [(script, c)])
  {
    hide Sound;
  }

  lemma AtInstant(cfg: Config, w: World, t: nat)
    requires IndexFollows(cfg, w)
    ensures Indexed(cfg, w.blocks, w.chain(t)) && AllWellFormed(cfg.liquid, w.chain(t))
    ensures Shows(cfg, w.index(t), w.chain(t))
  {
    hide AllWellFormed, KnownChain, Valid, Shows;
  }

  lemma OpIsSound(blocks: map<Hash, Block>, ops: seq<CacheOp>, i: nat)
    requires SoundOps(blocks, ops) && i < |ops| && ops[i].PutOp?
    ensures Sound(blocks, ops[i].script, ops[i].cached)
  {}

  lemma GetKeepsSound(blocks: map<Hash, Block>, before: Entries, script: Script, after: Entries)
    requires SoundEntries(blocks, before)
    requires after == before || (script in before && exists used :: after == before[script := Slot(before[script].cached, used)])
    ensures SoundEntries(blocks, after)
    ensures script in before ==> Sound(blocks, script, before[script].cached)
  {
    hide Sound;
  }

  lemma PutKeepsSound(blocks: map<Hash, Block>, before: Entries, script: Script, cached: CachedScript, after: Entries, clock: nat, max: nat)
    requires SoundEntries(blocks, before) && Sound(blocks, script, cached)
    requires after == before - {script} || Evicts((before - {script})[script := Slot(cached, clock)], after, max)
    ensures SoundEntries(blocks, after)
  {
    hide Sound, Held, Newest;
  }
}
