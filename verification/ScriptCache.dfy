/** A bounded cache of folds: its counter is the sum of the sizes of its entries, its use stamps
    are distinct, and what eviction removes is the oldest part that has to go. */
module ScriptCaches {
  import opened Collections
  import opened Ledger
  import opened ScriptFold
  import opened Histories
  import opened ScriptRefs

  /** A fold, with the references whose bodies went into it. */
  datatype CachedScript = CachedScript(refs: seq<Ref>, fold: State, history: History)

  datatype Slot = Slot(cached: CachedScript, used: nat)

  type Entries = map<Script, Slot>

  function Size(s: Slot): nat { |s.cached.refs| }

  function Sizes(entries: Entries): map<Script, nat> {
    map s | s in entries :: Size(entries[s])
  }

  /** References held in all. */
  ghost function Held(entries: Entries): nat { Total(Sizes(entries)) }

  ghost predicate Consistent(entries: Entries, refs: nat, clock: nat) {
    && refs == Held(entries)
    && (forall s :: s in entries ==> entries[s].used <= clock)
    && (forall s, u :: s in entries && u in entries && s != u ==> entries[s].used != entries[u].used)
  }

  lemma SizesRemove(entries: Entries, s: Script)
    requires s in entries
    ensures Held(entries) == Size(entries[s]) + Held(entries - {s})
  {
    assert Sizes(entries) - {s} == Sizes(entries - {s});
    TotalRemove(Sizes(entries), s);
  }

  lemma SizesInsert(entries: Entries, s: Script, slot: Slot)
    requires s !in entries
    ensures Held(entries[s := slot]) == Held(entries) + Size(slot)
  {
    SizesRemove(entries[s := slot], s);
    assert entries[s := slot] - {s} == entries;
  }

  /** Evicting from `before` leaves `after`: the least recently used go first, and only as many
      as it takes to fit. */
  ghost predicate Evicts(before: Entries, after: Entries, max: nat) {
    && (forall s :: s in after ==> s in before && after[s] == before[s])
    && Held(after) <= max
    && (forall s, u :: s in before && s !in after && u in after ==> before[s].used < before[u].used)
    && (forall s :: s in before && s !in after && Newest(before, after, s) ==> Held(after) + Size(before[s]) > max)
  }

  /** `s` was the last entry to be evicted. */
  ghost predicate Newest(before: Entries, after: Entries, s: Script)
    requires s in before
  {
    forall u :: u in before && u !in after ==> before[u].used <= before[s].used
  }

  class ScriptCache {
    var entries: Entries
    var refs: nat
    const maxRefs: nat
    var clock: nat
    /** Everything put so far, in order, whatever became of it. */
    ghost var puts: seq<(Script, CachedScript)>

    ghost predicate Valid()
      reads this
    {
      Consistent(entries, refs, clock) && refs <= maxRefs
    }

    constructor (maxRefs: nat)
      ensures Valid() && entries == map[] && puts == [] && this.maxRefs == maxRefs
    {
      this.maxRefs := maxRefs;
      entries, refs, clock, puts := map[], 0, 0, [];
    }

    /** Looks a script up and marks it as used. */
    method Get(script: Script) returns (r: Option<CachedScript>)
      requires Valid()
      modifies this`entries, this`clock
      ensures Valid()
      ensures r == if script in old(entries) then Some(old(entries)[script].cached) else None
      ensures clock == old(clock) + 1
      ensures entries == if script in old(entries) then old(entries)[script := Slot(old(entries)[script].cached, clock)] else old(entries)
    {
      clock := clock + 1;
      if script !in entries { return None; }
      var slot := entries[script];
      SameSizes(entries, script, clock);
      entries := entries[script := Slot(slot.cached, clock)];
      r := Some(slot.cached);
    }

    /** Removes an entry, if there. */
    method Drop(script: Script)
      requires Consistent(entries, refs, clock)
      modifies this`entries, this`refs
      ensures Consistent(entries, refs, clock)
      ensures entries == old(entries) - {script} && refs <= old(refs)
    {
      if script in entries {
        SizesRemove(entries, script);
        refs := refs - Size(entries[script]);
        entries := entries - {script};
      } else {
        NothingToDrop(entries, script);
      }
    }

    /** Replaces the script's entry. One that could never fit only loses its old entry, and
        leaves the others alone. */
    method Put(script: Script, cached: CachedScript)
      requires Valid()
      modifies this
      ensures Valid() && puts == old(puts) + [(script, cached)]
      ensures |cached.refs| > maxRefs ==> entries == old(entries) - {script} && clock == old(clock)
      ensures |cached.refs| <= maxRefs ==>
                && clock == old(clock) + 1
                && Evicts((old(entries) - {script})[script := Slot(cached, clock)], entries, maxRefs)
                && script in entries && entries[script] == Slot(cached, clock)
    {
      hide Held, Evicts, Consistent;
      puts := puts + [(script, cached)];
      Drop(script);
      if |cached.refs| > maxRefs { return; }
      clock := clock + 1;
      LatestFits(entries, refs, clock, script, cached);
      entries := entries[script := Slot(cached, clock)];
      refs := refs + |cached.refs|;
      Evict(script);
    }

    /** Evicts until the rest fits; `latest` is the most recently used entry. */
    method Evict(ghost latest: Script)
      requires Consistent(entries, refs, clock)
      requires latest in entries && entries[latest].used == clock && Size(entries[latest]) <= maxRefs
      modifies this`entries, this`refs
      ensures Valid() && Evicts(old(entries), entries, maxRefs)
      ensures latest in entries && entries[latest] == old(entries)[latest]
    {
      hide Consistent, Evicting, Held;
      ghost var before := entries;
      NoneEvicted(before, maxRefs);
      ConsistentFacts(entries, refs, clock);
      while refs > maxRefs
        invariant Consistent(entries, refs, clock) && refs == Held(entries)
        invariant Evicting(before, entries, maxRefs) && latest in entries && entries[latest] == before[latest]
        decreases |entries|
      {
        var oldest := Oldest();
        EvictStep(before, entries, oldest, maxRefs, refs, clock, latest);
        refs := refs - Size(entries[oldest]);
        entries := entries - {oldest};
      }
      EvictingEnds(before, entries, maxRefs);
    }

    /** The least recently used entry. */
    method Oldest() returns (oldest: Script)
      requires entries.Keys != {}
      ensures oldest in entries && forall s :: s in entries ==> entries[oldest].used <= entries[s].used
    {
      var todo := entries.Keys;
      oldest :| oldest in todo;
      todo := todo - {oldest};
      while todo != {}
        invariant todo <= entries.Keys && oldest in entries && oldest !in todo
        invariant forall s :: s in entries && s !in todo ==> entries[oldest].used <= entries[s].used
        decreases todo
      {
        var s :| s in todo;
        todo := todo - {s};
        if entries[s].used < entries[oldest].used { oldest := s; }
      }
    }
  }

  lemma SameSizes(entries: Entries, s: Script, clock: nat)
    requires s in entries
    ensures Held(entries[s := Slot(entries[s].cached, clock)]) == Held(entries)
  {
    assert Sizes(entries[s := Slot(entries[s].cached, clock)]) == Sizes(entries);
  }

  /** A new entry with the next stamp keeps the counter exact and the stamps distinct. */
  lemma LatestFits(entries: Entries, refs: nat, clock: nat, s: Script, cached: CachedScript)
    requires clock > 0 && Consistent(entries, refs, clock - 1) && s !in entries
    ensures Consistent(entries[s := Slot(cached, clock)], refs + |cached.refs|, clock)
  {
    SizesInsert(entries, s, Slot(cached, clock));
    hide Held;
  }

  lemma NothingToDrop(entries: Entries, s: Script)
    requires s !in entries
    ensures entries - {s} == entries
  {}

  /** Eviction so far: the least recently used are gone, and each was needed. */
  ghost predicate Evicting(before: Entries, now: Entries, max: nat) {
    && (forall s :: s in now ==> s in before && now[s] == before[s])
    && (forall s, u :: s in before && s !in now && u in now ==> before[s].used < before[u].used)
    && (forall s :: s in before && s !in now && Newest(before, now, s) ==> Held(now) + Size(before[s]) > max)
  }

  lemma NoneEvicted(before: Entries, max: nat)
    ensures Evicting(before, before, max)
  {}

  lemma EvictingEnds(before: Entries, after: Entries, max: nat)
    requires Evicting(before, after, max) && Held(after) <= max
    ensures Evicts(before, after, max)
  {
    hide Held, Newest;
  }

  lemma ConsistentFacts(entries: Entries, refs: nat, clock: nat)
    requires Consistent(entries, refs, clock)
    ensures refs == Held(entries)
  {}

  /** A single entry that fits does not exceed the bound. */
  lemma OnlyOne(now: Entries, latest: Script)
    requires latest in now
    ensures (forall s :: s in now ==> s == latest) ==> Held(now) == Size(now[latest])
  {
    SizesRemove(now, latest);
    assert (forall s :: s in now ==> s == latest) ==> Sizes(now - {latest}).Keys == {};
  }

  /** The least recently used entry can go: it is not the latest one. */
  lemma EvictStep(before: Entries, now: Entries, oldest: Script, max: nat, refs: nat, clock: nat, latest: Script)
    requires Evicting(before, now, max) && Consistent(now, refs, clock) && refs > max
    requires oldest in now && forall s :: s in now ==> now[oldest].used <= now[s].used
    requires latest in now && now[latest].used == clock && Size(now[latest]) <= max
    ensures oldest != latest && refs >= Size(now[oldest])
    ensures Consistent(now - {oldest}, refs - Size(now[oldest]), clock) && refs - Size(now[oldest]) == Held(now - {oldest})
    ensures Evicting(before, now - {oldest}, max)
    ensures |now - {oldest}| < |now|
  {
    hide Held, Evicting;
    OnlyOne(now, latest);
    SizesRemove(now, oldest);
    assert (now - {oldest}).Keys == now.Keys - {oldest};
    StillEvicting(before, now, oldest, max);
  }

  lemma StillEvicting(before: Entries, now: Entries, oldest: Script, max: nat)
    requires Evicting(before, now, max) && oldest in now && Held(now) > max
    requires forall s :: s in now ==> now[oldest].used <= now[s].used
    requires forall s, u :: s in now && u in now && s != u ==> now[s].used != now[u].used
    ensures Evicting(before, now - {oldest}, max)
  {
    hide Held;
    var after := now - {oldest};
    SizesRemove(now, oldest);
    forall s | s in before && s !in after && Newest(before, after, s) ensures Held(after) + Size(before[s]) > max {
      NewestIsOldest(before, now, oldest, s);
    }
  }

  /** The entry evicted last is the one used last among the evicted. */
  lemma NewestIsOldest(before: Entries, now: Entries, oldest: Script, s: Script)
    requires forall u :: u in now ==> u in before && now[u] == before[u]
    requires forall u, v :: u in before && u !in now && v in now ==> before[u].used < before[v].used
    requires oldest in now && s in before && s !in now - {oldest} && Newest(before, now - {oldest}, s)
    ensures s == oldest
  {
    assert before[oldest].used <= before[s].used;
  }
}
