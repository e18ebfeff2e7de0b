/** The read-through cache of `src/dht_cache.rs`: what a refresh stores, the
    least-recently-used eviction, and the object whose lock-held sections change
    it in place. */
module DhtCache {
  import opened Options

  type Time = nat

  datatype Entry<V> = Entry(value: Option<V>, version: Option<nat>, lastError: Option<string>,
                            lastAccess: Time, size: nat)
  datatype Fetched<V> = Fetched(value: V, version: Option<nat>, size: nat)
  datatype FetchResult<V> = Found(fetched: Fetched<V>) | Missing | Failed(error: string)

  type Entries<K(==), V> = map<K, Entry<V>>

  // ---- sizes ----

  ghost function TotalSize<K, V>(m: Entries<K, V>): nat {
    if m == map[] then 0 else
      var k :| k in m;
      m[k].size + TotalSize(m - {k})
  }

  lemma {:induction false} TotalSizeWithout<K, V>(m: Entries<K, V>, k: K)
    requires k in m
    ensures TotalSize(m) == m[k].size + TotalSize(m - {k})
    decreases |m|
  {
    var j :| j in m && TotalSize(m) == m[j].size + TotalSize(m - {j});
    if j != k {
      TotalSizeWithout(m - {j}, k);
      TotalSizeWithout(m - {k}, j);
      assert m - {j} - {k} == m - {k} - {j};
    }
  }

  lemma {:induction false} TotalSizeMonotone<K, V>(a: Entries<K, V>, b: Entries<K, V>)
    requires a.Keys <= b.Keys && forall k :: k in a ==> a[k] == b[k]
    ensures TotalSize(a) <= TotalSize(b) && |a| <= |b|
    decreases |a|
  {
    if a != map[] {
      var k :| k in a;
      TotalSizeWithout(a, k);
      TotalSizeWithout(b, k);
      TotalSizeMonotone(a - {k}, b - {k});
      assert (a - {k}).Keys == a.Keys - {k} && (b - {k}).Keys == b.Keys - {k};
      assert |a.Keys| == |a| && |b.Keys| == |b|;
    }
  }

  method SumSizes<K, V>(m: Entries<K, V>) returns (total: nat)
    ensures total == TotalSize(m)
  {
    total := 0;
    var rest := m;
    while rest != map[]
      invariant total + TotalSize(rest) == TotalSize(m)
      decreases |rest|
    {
      var k :| k in rest;
      TotalSizeWithout(rest, k);
      assert (rest - {k}).Keys == rest.Keys - {k};
      total, rest := total + rest[k].size, rest - {k};
    }
  }

  // ---- eviction ----

  ghost predicate Over<K, V>(m: Entries<K, V>, maxEntries: nat, maxBytes: nat) {
    |m| > maxEntries || TotalSize(m) > maxBytes
  }

  // `m` holds at most the limits, or a single entry.
  ghost predicate Bounded<K, V>(m: Entries<K, V>, maxEntries: nat, maxBytes: nat) {
    !Over(m, maxEntries, maxBytes) || |m| <= 1
  }

  // `kept` is part of `m`, and nothing dropped is more recent than anything kept.
  ghost predicate RecentPart<K, V>(m: Entries<K, V>, kept: Entries<K, V>) {
    && (forall k :: k in kept ==> k in m && kept[k] == m[k])
    && forall j, k :: j in m && j !in kept && k in kept ==> m[j].lastAccess <= m[k].lastAccess
  }

  /** What `evict` leaves: a most recent part within the limits, from which nothing was dropped
      needlessly: with the last victim `v` put back it is over the limit. */
  ghost predicate Evicted<K, V>(m: Entries<K, V>, kept: Entries<K, V>, maxEntries: nat, maxBytes: nat) {
    && RecentPart(m, kept)
    && Bounded(kept, maxEntries, maxBytes)
    && (kept != m ==> exists v :: v in m && LastVictim(m, kept, v, maxEntries, maxBytes))
  }

  ghost predicate LastVictim<K, V>(m: Entries<K, V>, kept: Entries<K, V>, v: K, maxEntries: nat, maxBytes: nat) {
    && v in m && v !in kept && kept != map[]
    && Over(kept[v := m[v]], maxEntries, maxBytes)
    && forall j :: j in m && j !in kept ==> m[j].lastAccess <= m[v].lastAccess
  }

  method Oldest<K, V>(m: Entries<K, V>) returns (victim: K)
    requires m != map[]
    ensures victim in m && forall k :: k in m ==> m[victim].lastAccess <= m[k].lastAccess
  {
    victim :| victim in m;
    var rest := m.Keys - {victim};
    while rest != {}
      invariant victim in m && rest <= m.Keys
      invariant forall k :: k in m && k !in rest ==> m[victim].lastAccess <= m[k].lastAccess
      decreases |rest|
    {
      var k :| k in rest;
      if m[k].lastAccess < m[victim].lastAccess {
        victim := k;
      }
      rest := rest - {k};
    }
  }

  lemma EvictOne<K, V>(m: Entries<K, V>, cur: Entries<K, V>, v: K, maxEntries: nat, maxBytes: nat)
    requires RecentPart(m, cur) && Over(cur, maxEntries, maxBytes) && |cur| > 1
    requires v in cur && forall k :: k in cur ==> cur[v].lastAccess <= cur[k].lastAccess
    ensures RecentPart(m, cur - {v}) && LastVictim(m, cur - {v}, v, maxEntries, maxBytes)
    ensures |cur - {v}| == |cur| - 1
  {
    var kept := cur - {v};
    assert kept[v := m[v]] == cur;
    assert kept.Keys == cur.Keys - {v};
    assert |kept.Keys| == |kept| && |cur.Keys| == |cur|;
    forall j, k | j in m && j !in kept && k in kept ensures m[j].lastAccess <= m[k].lastAccess {
    }
  }

  method Evict<K, V>(m: Entries<K, V>, maxEntries: nat, maxBytes: nat) returns (kept: Entries<K, V>)
    ensures Evicted(m, kept, maxEntries, maxBytes)
  {
    kept := m;
    var total := SumSizes(kept);
    while |kept| > maxEntries || total > maxBytes
      invariant total == TotalSize(kept) && RecentPart(m, kept)
      invariant kept != m ==> exists v :: v in m && LastVictim(m, kept, v, maxEntries, maxBytes)
      decreases |kept|
    {
      if kept == map[] {
        break;
      }
      var victim := Oldest(kept);
      if |kept| == 1 {
        break;
      }
      EvictOne(m, kept, victim, maxEntries, maxBytes);
      kept := kept - {victim};
      total := SumSizes(kept);
    }
  }

  // Eviction always has a result, and it keeps an entry newer than all others.
  lemma {:induction false} EvictFrom<K, V>(m: Entries<K, V>, cur: Entries<K, V>, maxEntries: nat, maxBytes: nat)
    returns (kept: Entries<K, V>)
    requires RecentPart(m, cur) && (cur != m ==> exists v :: v in m && LastVictim(m, cur, v, maxEntries, maxBytes))
    ensures Evicted(m, kept, maxEntries, maxBytes)
    decreases |cur|
  {
    if Over(cur, maxEntries, maxBytes) && |cur| > 1 {
      var v := OldestOf(cur);
      EvictOne(m, cur, v, maxEntries, maxBytes);
      kept := EvictFrom(m, cur - {v}, maxEntries, maxBytes);
    } else {
      kept := cur;
    }
  }

  lemma {:induction false} OldestOf<K, V>(m: Entries<K, V>) returns (v: K)
    requires m != map[]
    ensures v in m && forall k :: k in m ==> m[v].lastAccess <= m[k].lastAccess
    decreases |m|
  {
    v :| v in m;
    var rest := m - {v};
    assert forall k :: k in m && k != v ==> k in rest;
    if rest != map[] {
      assert rest.Keys == m.Keys - {v};
      var w := OldestOf(rest);
      assert forall k :: k in m && k != v ==> m[w].lastAccess <= m[k].lastAccess;
      if m[w].lastAccess < m[v].lastAccess {
        v := w;
      }
    }
  }

  lemma EvictKeepsNewest<K, V>(m: Entries<K, V>, kept: Entries<K, V>, k: K, maxEntries: nat, maxBytes: nat)
    requires Evicted(m, kept, maxEntries, maxBytes)
    requires k in m && forall j :: j in m && j != k ==> m[j].lastAccess < m[k].lastAccess
    ensures k in kept
  {
    hide TotalSize;
  }

  ghost predicate DistinctTimes<K, V>(m: Entries<K, V>) {
    forall j, k :: j in m && k in m && j != k ==> m[j].lastAccess != m[k].lastAccess
  }

  // Two most recent parts are comparable: one that has `k`, which `kept` lacks, has all of `kept`.
  lemma RecentPartsNest<K, V>(m: Entries<K, V>, kept: Entries<K, V>, other: Entries<K, V>, k: K, j: K)
    requires DistinctTimes(m) && RecentPart(m, kept) && RecentPart(m, other)
    requires k in other && k !in kept
    requires j in m && (j in kept || m[k].lastAccess <= m[j].lastAccess)
    ensures j in other && other[j] == m[j]
  {
  }

  /** With distinct access times eviction drops exactly the shortest least-recently-used prefix that
      brings the cache within its limits: every most recent part that is within them is kept. */
  lemma EvictDropsShortestPrefix<K, V>(m: Entries<K, V>, kept: Entries<K, V>, other: Entries<K, V>,
                                       maxEntries: nat, maxBytes: nat)
    requires DistinctTimes(m) && Evicted(m, kept, maxEntries, maxBytes)
    requires RecentPart(m, other) && Bounded(other, maxEntries, maxBytes)
    ensures other.Keys <= kept.Keys
  {
    if k :| k in other && k !in kept {
      assert k in m;
      var v :| v in m && LastVictim(m, kept, v, maxEntries, maxBytes);
      var bigger := kept[v := m[v]];
      forall j | j in bigger ensures j in other && other[j] == bigger[j] {
        RecentPartsNest(m, kept, other, k, j);
      }
      hide RecentPart, DistinctTimes, TotalSize;
      TotalSizeMonotone(bigger, other);
    }
  }

  lemma EvictIsUnique<K, V>(m: Entries<K, V>, a: Entries<K, V>, b: Entries<K, V>, maxEntries: nat, maxBytes: nat)
    requires DistinctTimes(m) && Evicted(m, a, maxEntries, maxBytes) && Evicted(m, b, maxEntries, maxBytes)
    ensures a == b
  {
    EvictDropsShortestPrefix(m, a, b, maxEntries, maxBytes);
    EvictDropsShortestPrefix(m, b, a, maxEntries, maxBytes);
    assert a.Keys == b.Keys;
  }

  // ---- storing a refresh ----

  // A refresh never replaces a value by one of a lower version.
  predicate IsRollback<V>(prior: Entry<V>, fetched: Fetched<V>) {
    prior.version.Some? && fetched.version.Some? && fetched.version.value < prior.version.value
  }

  predicate IsConflict<V(==)>(prior: Entry<V>, fetched: Fetched<V>) {
    prior.version.Some? && fetched.version == prior.version && prior.value.Some? && prior.value.value != fetched.value
  }

  const CONFLICT: string := "conflicting content for the same version"

  // The table after a result, before eviction, and whether the key got a new entry.
  datatype Update<K(==), V> = Update(entries: Entries<K, V>, replaced: bool)

  function Absorb<K, V(==)>(m: Entries<K, V>, key: K, result: FetchResult<V>, now: Time): Update<K, V> {
    match result
    case Found(f) =>
      if key in m && IsRollback(m[key], f) then Update(m, false)
      else if key in m && IsConflict(m[key], f) then
        Update(m[key := m[key].(lastError := Some(CONFLICT), lastAccess := now)], false)
      else Update(m[key := Entry(Some(f.value), f.version, None, now, f.size)], true)
    case Missing => Update(m[key := Entry(None, None, None, now, 0)], true)
    case Failed(error) =>
      if key in m then Update(m[key := m[key].(lastError := Some(error), lastAccess := now)], false)
      else Update(m, false)
  }

  // The table after a result: eviction follows a new entry only.
  ghost predicate Stored<K, V>(m: Entries<K, V>, key: K, result: FetchResult<V>, now: Time,
                                   maxEntries: nat, maxBytes: nat, after: Entries<K, V>)
  {
    var u := Absorb(m, key, result, now);
    if u.replaced then Evicted(u.entries, after, maxEntries, maxBytes) else after == u.entries
  }

  lemma SameSizes<K, V>(a: Entries<K, V>, b: Entries<K, V>)
    requires a.Keys == b.Keys && forall k :: k in a ==> a[k].size == b[k].size
    ensures TotalSize(a) == TotalSize(b) && |a| == |b|
    decreases |a|
  {
    assert |a| == |a.Keys| && |b| == |b.Keys|;
    if a != map[] {
      var k :| k in a;
      TotalSizeWithout(a, k);
      TotalSizeWithout(b, k);
      assert (a - {k}).Keys == a.Keys - {k} && (b - {k}).Keys == b.Keys - {k};
      SameSizes(a - {k}, b - {k});
    } else {
      assert b == map[];
    }
  }

  function Find<K, V>(m: Entries<K, V>, key: K): Option<Entry<V>> {
    if key in m then Some(m[key]) else None
  }

  // The find is older than the version held.
  predicate Older<V>(held: Option<Entry<V>>, f: Fetched<V>) {
    held.Some? && held.value.version.Some? && f.version.Some? && f.version.value < held.value.version.value
  }

  // The find has the version held, and other content.
  predicate Contradicts<V(==)>(held: Option<Entry<V>>, f: Fetched<V>) {
    && held.Some? && held.value.version.Some? && held.value.version == f.version
    && held.value.value.Some? && held.value.value.value != f.value
  }

  // The result puts new content, or a definite absence, in place of what is held.
  predicate Replaces<V(==)>(held: Option<Entry<V>>, result: FetchResult<V>) {
    result.Missing? || (result.Found? && !Older(held, result.fetched) && !Contradicts(held, result.fetched))
  }

  // What a result makes of the entry of its key: a find that passes the guard is stored with its own
  // size, a definite absence with none; a conflict or an error is noted; an older find changes nothing.
  function EntryAfter<V(==)>(held: Option<Entry<V>>, result: FetchResult<V>, now: Time): Option<Entry<V>> {
    match result
    case Found(f) =>
      if Older(held, f) then held
      else if Contradicts(held, f) then
        Some(held.value.(lastError := Some("conflicting content for the same version"), lastAccess := now))
      else Some(Entry(Some(f.value), f.version, None, now, f.size))
    case Missing => Some(Entry(None, None, None, now, 0))
    case Failed(error) =>
      if held.Some? then Some(held.value.(lastError := Some(error), lastAccess := now)) else None
  }

  /** Limits hold again after every stored result; a version is never replaced by a lower one, though a
      definite absence or an unversioned find may replace it; the entry of the key, if it stays, is what
      the result makes of it, with the size of the find; and no other entry changes. */
  lemma StoredKeeps<K, V>(m: Entries<K, V>, key: K, result: FetchResult<V>, now: Time,
                              maxEntries: nat, maxBytes: nat, after: Entries<K, V>)
    requires Bounded(m, maxEntries, maxBytes) && Stored(m, key, result, now, maxEntries, maxBytes, after)
    ensures Bounded(after, maxEntries, maxBytes)
    ensures key in m && key in after && m[key].version.Some? && after[key].version.Some? ==>
              m[key].version.value <= after[key].version.value
    ensures key in after ==> Some(after[key]) == EntryAfter(Find(m, key), result, now)
    ensures forall k :: k in after && k != key ==> k in m && after[k] == m[k]
  {
    if !Absorb(m, key, result, now).replaced {
      SameSizes(m, after);
    }
  }

  // One store, for the key it is about.
  lemma StoredValue<K, V>(m: Entries<K, V>, key: K, result: FetchResult<V>, now: Time,
                          maxEntries: nat, maxBytes: nat, after: Entries<K, V>)
    requires Stored(m, key, result, now, maxEntries, maxBytes, after) && key in after
    ensures Some(after[key]) == EntryAfter(Find(m, key), result, now)
  {
    hide TotalSize;
  }

  // ---- the shared state and its lock-held sections ----

  datatype Shared<K(==), V> = Shared(entries: Entries<K, V>, inflight: set<K>, global: nat, keyGen: map<K, nat>,
                                     maxEntries: nat, maxBytes: nat)

  function Count<K>(m: map<K, nat>, key: K): nat {
    if key in m then m[key] else 0
  }

  function Touched<K, V>(m: Entries<K, V>, key: K, now: Time): Entries<K, V> {
    if key in m then m[key := m[key].(lastAccess := now)] else m
  }

  ghost predicate WithinLimits<K, V>(c: Shared<K, V>) {
    Bounded(c.entries, c.maxEntries, c.maxBytes)
  }

  // The store section of a refresh whose generation check passed.
  ghost predicate Stores<K, V>(c: Shared<K, V>, key: K, result: FetchResult<V>, now: Time, after: Entries<K, V>) {
    Stored(c.entries, key, result, now, c.maxEntries, c.maxBytes, after)
  }

  /** The cache object: each method is one lock-held section or atomic access of the source. */
  class Cache<K(==), V(==)> {
    const maxEntries: nat
    const maxBytes: nat
    var entries: Entries<K, V>
    var inflight: set<K>
    var globalGeneration: nat
    var keyGeneration: map<K, nat>

    ghost function View(): Shared<K, V>
      reads this
    {
      Shared(entries, inflight, globalGeneration, keyGeneration, maxEntries, maxBytes)
    }

    constructor (maxEntries: nat, maxBytes: nat)
      ensures entries == map[] && inflight == {} && globalGeneration == 0 && keyGeneration == map[]
      ensures this.maxEntries >= 1 && this.maxBytes >= 1 && WithinLimits(View())
    {
      this.maxEntries := if maxEntries < 1 then 1 else maxEntries;
      this.maxBytes := if maxBytes < 1 then 1 else maxBytes;
      entries, inflight, globalGeneration, keyGeneration := map[], {}, 0, map[];
    }

    // `entry`: a read moves the entry to the most recent end.
    method Access(key: K, now: Time) returns (found: Option<Entry<V>>)
      requires WithinLimits(View())
      modifies this`entries
      ensures WithinLimits(View()) && View() == old(View()).(entries := Touched(old(entries), key, now))
      ensures found == if key in entries then Some(entries[key]) else None
    {
      SameSizes(entries, Touched(entries, key, now));
      entries := Touched(entries, key, now);
      found := if key in entries then Some(entries[key]) else None;
    }

    // The first section of `ensure_refresh`; true when the caller is to run the refresh.
    method Reserve(key: K) returns (mine: bool)
      modifies this`inflight
      ensures mine == (key !in old(inflight)) && View() == old(View()).(inflight := old(inflight) + {key})
    {
      mine := key !in inflight;
      if mine {
        inflight := inflight + {key};
      }
    }

    method Release(key: K)
      modifies this`inflight
      ensures View() == old(View()).(inflight := old(inflight) - {key})
    {
      inflight := inflight - {key};
    }

    method StoreResult(key: K, result: FetchResult<V>, now: Time)
      requires WithinLimits(View())
      modifies this`entries
      ensures WithinLimits(View()) && View() == old(View()).(entries := entries)
      ensures Stores(old(View()), key, result, now, entries)
      ensures key in entries ==> Some(entries[key]) == EntryAfter(Find(old(entries), key), result, now)
    {
      var u := Absorb(entries, key, result, now);
      var after := u.entries;
      if u.replaced {
        after := Evict(u.entries, maxEntries, maxBytes);
      }
      StoredKeeps(entries, key, result, now, maxEntries, maxBytes, after);
      entries := after;
    }

    method BumpKey(key: K)
      modifies this`keyGeneration
      ensures View() == old(View()).(keyGen := old(keyGeneration)[key := Count(old(keyGeneration), key) + 1])
    {
      keyGeneration := keyGeneration[key := Count(keyGeneration, key) + 1];
    }

    method DropKey(key: K)
      requires WithinLimits(View())
      modifies this`entries
      ensures WithinLimits(View()) && View() == old(View()).(entries := old(entries) - {key})
    {
      TotalSizeMonotone(entries - {key}, entries);
      entries := entries - {key};
    }

    method BumpAll()
      modifies this`globalGeneration
      ensures View() == old(View()).(global := old(globalGeneration) + 1)
    {
      globalGeneration := globalGeneration + 1;
    }

    method ClearEntries()
      modifies this`entries
      ensures WithinLimits(View()) && View() == old(View()).(entries := map[])
    {
      entries := map[];
    }

    method ClearKeys()
      modifies this`keyGeneration
      ensures View() == old(View()).(keyGen := map[])
    {
      keyGeneration := map[];
    }
  }
}
