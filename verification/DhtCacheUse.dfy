/** What the cache holds of a key and how recently it was used, told from the
    key's own events: the sizes the byte limit counts are those of the finds, and
    eviction goes by the last use. */
module DhtCacheUse {
  import opened Options
  import opened DhtCache
  import opened DhtCacheVersions
  import DR = DhtCacheRuns

  // ---- the entry ----

  // The entry of a key after an event that leaves the key in the table.
  function After<V(==)>(held: Option<Entry<V>>, e: Event<V>): Option<Entry<V>> {
    match e
    case Refreshed(result, now) => EntryAfter(held, result, now)
    case Accessed(now) => if held.Some? then Some(held.value.(lastAccess := now)) else None
    case Elsewhere => held
  }

  function Kept<K, V(==)>(ms: seq<Entries<K, V>>, key: K, es: seq<Event<V>>): Option<Entry<V>>
    requires |ms| == |es| + 1
    decreases |es|
  {
    var n := |es|;
    if n == 0 || key !in ms[n] then None else After(Kept(ms[..n], key, es[..n - 1]), es[n - 1])
  }

  lemma FollowsAfter<K, V>(m: Entries<K, V>, key: K, e: Event<V>, after: Entries<K, V>, maxEntries: nat, maxBytes: nat)
    requires Follows(m, key, e, after, maxEntries, maxBytes) && key in after
    ensures Find(after, key) == After(Find(m, key), e)
  {
    hide TotalSize;
  }

  /** The whole entry of a key is what its events make of it. */
  lemma {:induction false} EntriesFollowTheirEvents<K, V>(ms: seq<Entries<K, V>>, key: K, es: seq<Event<V>>,
                                                          maxEntries: nat, maxBytes: nat)
    requires History(ms, key, es, maxEntries, maxBytes)
    ensures Find(ms[|es|], key) == Kept(ms, key, es)
    decreases |es|
  {
    if es != [] {
      var n := |es| - 1;
      HistoryPrefix(ms, key, es, maxEntries, maxBytes);
      EntriesFollowTheirEvents(ms[..n + 1], key, es[..n], maxEntries, maxBytes);
      if key in ms[n + 1] {
        FollowsAfter(ms[n], key, es[n], ms[n + 1], maxEntries, maxBytes);
      }
      hide Follows, History, After;
    }
  }

  // ---- the find it holds ----

  // The last find that was let through and whose content still stands; none after a definite absence.
  function Content<K, V(==)>(ms: seq<Entries<K, V>>, key: K, es: seq<Event<V>>): Option<Fetched<V>>
    requires |ms| == |es| + 1
    decreases |es|
  {
    if es == [] then None else
      var n := |es| - 1;
      match es[n]
      case Refreshed(Found(f), _) =>
        if Older(Find(ms[n], key), f) || Contradicts(Find(ms[n], key), f) then Content(ms[..n + 1], key, es[..n])
        else Some(f)
      case Refreshed(Missing, _) => None
      case _ => Content(ms[..n + 1], key, es[..n])
  }

  // The bytes the key accounts for.
  function Bytes<K, V(==)>(ms: seq<Entries<K, V>>, key: K, es: seq<Event<V>>): nat
    requires |ms| == |es| + 1
  {
    match Content(ms, key, es) case Some(f) => f.size case None => 0
  }

  /** An entry holds the content, the version and the size of the last find let through, or nothing of
      size zero. */
  lemma {:induction false} SizesAreFetched<K, V>(ms: seq<Entries<K, V>>, key: K, es: seq<Event<V>>,
                                                 maxEntries: nat, maxBytes: nat)
    requires History(ms, key, es, maxEntries, maxBytes) && key in ms[|es|]
    ensures var entry := ms[|es|][key];
            match Content(ms, key, es)
            case Some(f) => entry.value == Some(f.value) && entry.version == f.version && entry.size == f.size
            case None => entry.value == None && entry.version == None && entry.size == 0
    decreases |es|
  {
    var n := |es| - 1;
    HistoryPrefix(ms, key, es, maxEntries, maxBytes);
    FollowsAfter(ms[n], key, es[n], ms[n + 1], maxEntries, maxBytes);
    if key in ms[n] {
      SizesAreFetched(ms[..n + 1], key, es[..n], maxEntries, maxBytes);
    }
    hide Follows, History;
  }

  // ---- the last use ----

  // A read, or a refresh that is not held back as older than what is there.
  predicate Uses<K, V(==)>(m: Entries<K, V>, key: K, e: Event<V>) {
    match e
    case Refreshed(Found(f), _) => !Older(Find(m, key), f)
    case Refreshed(_, _) => true
    case Accessed(_) => true
    case Elsewhere => false
  }

  function LastUse<K, V(==)>(ms: seq<Entries<K, V>>, key: K, es: seq<Event<V>>): Time
    requires |ms| == |es| + 1
    decreases |es|
  {
    if es == [] then 0 else
      var n := |es| - 1;
      if Uses(ms[n], key, es[n]) then es[n].now else LastUse(ms[..n + 1], key, es[..n])
  }

  /** The access time of an entry is that of the key's last store, conflict, error or read. */
  lemma {:induction false} AccessIsLastUse<K, V>(ms: seq<Entries<K, V>>, key: K, es: seq<Event<V>>,
                                                 maxEntries: nat, maxBytes: nat)
    requires History(ms, key, es, maxEntries, maxBytes) && key in ms[|es|]
    ensures ms[|es|][key].lastAccess == LastUse(ms, key, es)
    decreases |es|
  {
    var n := |es| - 1;
    HistoryPrefix(ms, key, es, maxEntries, maxBytes);
    FollowsAfter(ms[n], key, es[n], ms[n + 1], maxEntries, maxBytes);
    if key in ms[n] {
      AccessIsLastUse(ms[..n + 1], key, es[..n], maxEntries, maxBytes);
    }
    hide Follows, History;
  }

  // ---- runs ----

  // The bytes fetched for the given keys, by their events in the run.
  ghost function FetchedBytes<K, V>(w: DR.World<K, V>, ss: seq<DR.Step<K, V>>, keys: set<K>): nat
    requires DR.Legal(w, ss)
    decreases |keys|
  {
    if keys == {} then 0 else
      var k :| k in keys;
      Bytes(Tables(w, ss), k, Events(w, ss, k)) + FetchedBytes(w, ss, keys - {k})
  }

  lemma {:induction false} TotalIsFetched<K, V>(w: DR.World<K, V>, ss: seq<DR.Step<K, V>>, m: Entries<K, V>)
    requires DR.Legal(w, ss)
    requires forall k :: k in m ==> m[k].size == Bytes(Tables(w, ss), k, Events(w, ss, k))
    ensures TotalSize(m) == FetchedBytes(w, ss, m.Keys)
    decreases |m|
  {
    hide Bytes, Tables, Events, DR.Legal;
    if m != map[] {
      var k :| k in m && FetchedBytes(w, ss, m.Keys)
                         == Bytes(Tables(w, ss), k, Events(w, ss, k)) + FetchedBytes(w, ss, m.Keys - {k});
      TotalSizeWithout(m, k);
      assert (m - {k}).Keys == m.Keys - {k};
      TotalIsFetched(w, ss, m - {k});
    }
  }

  lemma RunSizes<K, V>(w: DR.World<K, V>, ss: seq<DR.Step<K, V>>, k: K)
    requires DR.Legal(w, ss) && k !in w.cache.entries && k in DR.Exec(w, ss).cache.entries
    ensures DR.Exec(w, ss).cache.entries[k].size == Bytes(Tables(w, ss), k, Events(w, ss, k))
  {
    RunIsChained(w, ss, k);
    hide DR.Legal, DR.Exec, Events, Tables, Chained;
    SizesAreFetched(Tables(w, ss), k, Events(w, ss, k), w.cache.maxEntries, w.cache.maxBytes);
  }

  lemma RunLimits<K, V>(w: DR.World<K, V>, ss: seq<DR.Step<K, V>>, k: K)
    requires DR.Legal(w, ss) && w.cache.entries == map[] && DR.SingleFlight(w)
    ensures Bounded(DR.Exec(w, ss).cache.entries, w.cache.maxEntries, w.cache.maxBytes)
  {
    assert |w.cache.entries| == 0;
    hide DR.Legal, DR.Exec, Events, Tables, Chained, TotalSize;
    DR.EveryRunIsBounded(w, ss);
    RunIsChained(w, ss, k);
  }

  /** In every interleaving from an empty cache: the entries are no more, and the bytes fetched for them
      no larger, than configured, unless a single entry is left. */
  lemma FetchedBytesAreBounded<K, V>(w: DR.World<K, V>, ss: seq<DR.Step<K, V>>)
    requires DR.Legal(w, ss) && w.cache.entries == map[] && DR.SingleFlight(w)
    ensures var keys := DR.Exec(w, ss).cache.entries.Keys;
            |keys| <= 1 || (|keys| <= w.cache.maxEntries && FetchedBytes(w, ss, keys) <= w.cache.maxBytes)
  {
    hide DR.Legal, DR.Exec, DR.SingleFlight, Bytes, Tables, Events, FetchedBytes, TotalSize;
    var m := DR.Exec(w, ss).cache.entries;
    forall k | k in m ensures m[k].size == Bytes(Tables(w, ss), k, Events(w, ss, k)) {
      RunSizes(w, ss, k);
    }
    TotalIsFetched(w, ss, m);
    if k :| k in m {
      RunLimits(w, ss, k);
    }
    assert |m.Keys| == |m|;
  }

  /** In every interleaving the whole entry of a key is what the run's events for the key make of it. */
  lemma RunsFollowTheirEvents<K, V>(w: DR.World<K, V>, ss: seq<DR.Step<K, V>>, k: K)
    requires DR.Legal(w, ss) && k !in w.cache.entries
    ensures Find(DR.Exec(w, ss).cache.entries, k) == Kept(Tables(w, ss), k, Events(w, ss, k))
  {
    RunIsChained(w, ss, k);
    hide DR.Legal, DR.Exec, Events, Tables, Chained;
    EntriesFollowTheirEvents(Tables(w, ss), k, Events(w, ss, k), w.cache.maxEntries, w.cache.maxBytes);
  }

  // One more step.
  lemma {:induction false} RunExtends<K, V>(w: DR.World<K, V>, ss: seq<DR.Step<K, V>>, s: DR.Step<K, V>, key: K)
    requires DR.Legal(w, ss) && DR.Enabled(DR.Exec(w, ss), s)
    ensures DR.Legal(w, ss + [s]) && DR.Exec(w, ss + [s]) == DR.Next(DR.Exec(w, ss), s)
    ensures Tables(w, ss + [s]) == Tables(w, ss) + [DR.Next(DR.Exec(w, ss), s).cache.entries]
    ensures Events(w, ss + [s], key) == Events(w, ss, key) + [EventOf(DR.Exec(w, ss), s, key)]
    decreases |ss|
  {
    hide DR.Next, DR.Enabled, EventOf;
    if ss == [] {
      assert ss + [s] == [s] && [s][1..] == [];
    } else {
      assert (ss + [s])[1..] == ss[1..] + [s] && (ss + [s])[0] == ss[0];
      RunExtends(DR.Next(w, ss[0]), ss[1..], s, key);
    }
  }

  lemma RunAccess<K, V>(w: DR.World<K, V>, ss: seq<DR.Step<K, V>>, k: K)
    requires DR.Legal(w, ss) && k !in w.cache.entries && k in DR.Exec(w, ss).cache.entries
    ensures DR.Exec(w, ss).cache.entries[k].lastAccess == LastUse(Tables(w, ss), k, Events(w, ss, k))
  {
    RunIsChained(w, ss, k);
    hide DR.Legal, DR.Exec, Events, Tables, Chained;
    AccessIsLastUse(Tables(w, ss), k, Events(w, ss, k), w.cache.maxEntries, w.cache.maxBytes);
  }

  // What the last step of a run does to the last use of a key.
  lemma LastUseExtends<K, V>(w: DR.World<K, V>, ss: seq<DR.Step<K, V>>, s: DR.Step<K, V>, k: K)
    requires DR.Legal(w, ss) && DR.Enabled(DR.Exec(w, ss), s)
    ensures DR.Legal(w, ss + [s])
    ensures var e, m := EventOf(DR.Exec(w, ss), s, k), DR.Exec(w, ss).cache.entries;
            LastUse(Tables(w, ss + [s]), k, Events(w, ss + [s], k))
            == if Uses(m, k, e) then e.now else LastUse(Tables(w, ss), k, Events(w, ss, k))
  {
    RunExtends(w, ss, s, k);
    RunIsChained(w, ss, k);
    hide DR.Legal, DR.Exec, DR.Next, DR.Enabled, Chained, EventOf, Events, Tables;
    var ms, es := Tables(w, ss + [s]), Events(w, ss + [s], k);
    assert ms[..|es|] == Tables(w, ss) && es[..|es| - 1] == Events(w, ss, k);
  }

  lemma DroppedTimes<K, V>(m: Entries<K, V>, key: K, result: FetchResult<V>, now: Time,
                           maxEntries: nat, maxBytes: nat, after: Entries<K, V>, j: K, k: K)
    requires Stored(m, key, result, now, maxEntries, maxBytes, after) && j !in after && k in after
    requires j in m || (j == key && !result.Failed?)
    ensures (if j == key then now else m[j].lastAccess) <= after[k].lastAccess
    ensures j == key ==> Uses(m, key, Refreshed(result, now))
  {
    hide TotalSize;
  }

  /** Eviction goes by the last use: when a store drops a key and keeps another, the one dropped was
      stored or read no later. So a key just read outlives every key used before it. */
  lemma LeastUsedGoFirst<K, V>(w: DR.World<K, V>, ss: seq<DR.Step<K, V>>, s: DR.Step<K, V>, j: K, k: K)
    requires DR.Legal(w, ss) && w.cache.entries == map[] && s.Store? && DR.Enabled(DR.Exec(w, ss), s)
    requires var m := DR.Exec(w, ss).cache.entries;
             j in m || (j == DR.Exec(w, ss).tasks[s.id].key && !s.result.Failed?)
    requires j !in s.after && k in s.after
    ensures DR.Legal(w, ss + [s])
    ensures LastUse(Tables(w, ss + [s]), j, Events(w, ss + [s], j))
            <= LastUse(Tables(w, ss + [s]), k, Events(w, ss + [s], k))
  {
    RunExtends(w, ss, s, k);
    RunAccess(w, ss + [s], k);
    LastUseExtends(w, ss, s, j);
    var v := DR.Exec(w, ss);
    if j in v.cache.entries {
      RunAccess(w, ss, j);
    }
    hide DR.Legal, DR.Exec, Events, Tables, LastUse, Stored, Uses;
    DroppedTimes(v.cache.entries, v.tasks[s.id].key, s.result, s.now, v.cache.maxEntries, v.cache.maxBytes, s.after,
        j, k);
  }
}
