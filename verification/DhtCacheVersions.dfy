/** The version guard of the read cache over the whole life of a key: what a
    reader finds after any results, losses and reads, and exactly when that is the
    highest version ever found. */
module DhtCacheVersions {
  import opened Options
  import opened DhtCache
  import DR = DhtCacheRuns

  // What happens to a key: a refresh result is stored for it, it is read, or something else goes on,
  // which may drop the key (an eviction, an invalidation) but does not change its entry.
  datatype Event<V> = Refreshed(result: FetchResult<V>, now: Time) | Accessed(now: Time) | Elsewhere

  ghost predicate Follows<K, V>(m: Entries<K, V>, key: K, e: Event<V>, after: Entries<K, V>,
                                maxEntries: nat, maxBytes: nat)
  {
    match e
    case Refreshed(result, now) => Stored(m, key, result, now, maxEntries, maxBytes, after)
    case Accessed(now) => after == if key in m then m[key := m[key].(lastAccess := now)] else m
    case Elsewhere => key in after ==> key in m && after[key] == m[key]
  }

  // The tables `ms` before and after each event.
  ghost predicate Chained<K, V>(ms: seq<Entries<K, V>>, key: K, es: seq<Event<V>>, maxEntries: nat, maxBytes: nat) {
    && |ms| == |es| + 1
    && forall i :: 0 <= i < |es| ==> Follows(ms[i], key, es[i], ms[i + 1], maxEntries, maxBytes)
  }

  ghost predicate History<K, V>(ms: seq<Entries<K, V>>, key: K, es: seq<Event<V>>, maxEntries: nat, maxBytes: nat) {
    Chained(ms, key, es, maxEntries, maxBytes) && key !in ms[0]
  }

  lemma HistoryPrefix<K, V>(ms: seq<Entries<K, V>>, key: K, es: seq<Event<V>>, maxEntries: nat, maxBytes: nat)
    requires History(ms, key, es, maxEntries, maxBytes) && es != []
    ensures var n := |es| - 1;
            && History(ms[..n + 1], key, es[..n], maxEntries, maxBytes)
            && Follows(ms[n], key, es[n], ms[n + 1], maxEntries, maxBytes)
  {
  }

  // ---- what the key holds ----

  datatype Holding<V> = Absent | Empty | Content(value: V, version: Option<nat>)

  function Reads<K, V>(m: Entries<K, V>, key: K): Holding<V> {
    if key !in m then Absent
    else if m[key].value.None? then Empty
    else Content(m[key].value.value, m[key].version)
  }

  // A versioned find no higher than the version held is held back.
  function Offer<V>(h: Holding<V>, f: Fetched<V>): Holding<V> {
    if h.Content? && h.version.Some? && f.version.Some? && f.version.value <= h.version.value then h
    else Content(f.value, f.version)
  }

  // What the key holds in the end, told from the events and from where the key is in the table.
  function Held<K, V>(ms: seq<Entries<K, V>>, key: K, es: seq<Event<V>>): Holding<V>
    requires |ms| == |es| + 1
    decreases |es|
  {
    var n := |es|;
    if n == 0 || key !in ms[n] then Absent
    else
      var before := Held(ms[..n], key, es[..n - 1]);
      match es[n - 1]
      case Refreshed(Found(f), _) => Offer(before, f)
      case Refreshed(Missing, _) => Empty
      case _ => before
  }

  // Empty entries carry no version.
  ghost predicate Plain<K, V>(m: Entries<K, V>, key: K) {
    key in m && m[key].value.None? ==> m[key].version.None?
  }

  /** What a reader finds of a key, after any history: nothing when it is not in the table, an empty
      entry after a definite absence, and otherwise what the version guard let through. */
  lemma {:induction false} ReaderFinds<K, V>(ms: seq<Entries<K, V>>, key: K, es: seq<Event<V>>,
                                             maxEntries: nat, maxBytes: nat)
    requires History(ms, key, es, maxEntries, maxBytes)
    ensures Reads(ms[|es|], key) == Held(ms, key, es) && Plain(ms[|es|], key)
    decreases |es|
  {
    if es != [] {
      var n := |es| - 1;
      HistoryPrefix(ms, key, es, maxEntries, maxBytes);
      ReaderFinds(ms[..n + 1], key, es[..n], maxEntries, maxBytes);
      if key in ms[n + 1] && es[n].Refreshed? {
        StoredValue(ms[n], key, es[n].result, es[n].now, maxEntries, maxBytes, ms[n + 1]);
      }
      hide Stored, History;
    }
  }

  // ---- the highest version ----

  predicate Versioned<V>(e: Event<V>) {
    e.Refreshed? && e.result.Found? && e.result.fetched.version.Some?
  }

  function Version<V>(e: Event<V>): nat
    requires Versioned(e)
  {
    e.result.fetched.version.value
  }

  // An event after which nothing of what was found before counts: the key is not in the table, or
  // it is known to be absent, or holds content without a version.
  predicate Forgets<K, V>(ms: seq<Entries<K, V>>, key: K, es: seq<Event<V>>, i: nat)
    requires i < |es| && |ms| == |es| + 1
  {
    || key !in ms[i + 1]
    || (es[i].Refreshed? && es[i].result.Missing?)
    || (es[i].Refreshed? && es[i].result.Found? && es[i].result.fetched.version.None?)
  }

  // The events since the last such one begin here.
  function Since<K, V>(ms: seq<Entries<K, V>>, key: K, es: seq<Event<V>>): (b: nat)
    requires |ms| == |es| + 1
    ensures b <= |es|
    decreases |es|
  {
    var n := |es|;
    if n == 0 || Forgets(ms, key, es, n - 1) then n else Since(ms[..n], key, es[..n - 1])
  }

  // The earliest versioned find of the highest version.
  function Winner<V>(es: seq<Event<V>>): (w: Option<Fetched<V>>)
    ensures w.Some? ==> w.value.version.Some?
  {
    if es == [] then None else
      var best, e := Winner(es[..|es| - 1]), es[|es| - 1];
      if Versioned(e) && (best.None? || Version(e) > best.value.version.value) then Some(e.result.fetched) else best
  }

  lemma {:induction false} WinnerIsEarliest<V>(es: seq<Event<V>>) returns (k: nat)
    ensures Winner(es).None? <==> forall i :: 0 <= i < |es| ==> !Versioned(es[i])
    ensures Winner(es).Some? ==> k < |es| && Versioned(es[k]) && es[k].result.fetched == Winner(es).value
    ensures Winner(es).Some? ==> forall i :: 0 <= i < |es| && Versioned(es[i]) ==>
              if i < k then Version(es[i]) < Version(es[k]) else Version(es[i]) <= Version(es[k])
  {
    k := 0;
    if es != [] {
      var n := |es| - 1;
      k := WinnerIsEarliest(es[..n]);
      assert forall i :: 0 <= i < n ==> es[i] == es[..n][i];
      if Versioned(es[n]) && (Winner(es[..n]).None? || Version(es[n]) > Winner(es[..n]).value.version.value) {
        k := n;
      }
    }
  }

  // The version and content held are those of the winner since the last forgetting.
  ghost predicate HoldsWinner<V>(h: Holding<V>, w: Option<Fetched<V>>) {
    if w.None? then h.Content? ==> h.version.None?
    else h == Content(w.value.value, w.value.version)
  }

  lemma {:induction false} HeldWins<K, V>(ms: seq<Entries<K, V>>, key: K, es: seq<Event<V>>)
    requires |ms| == |es| + 1
    ensures HoldsWinner(Held(ms, key, es), Winner(es[Since(ms, key, es)..]))
    decreases |es|
  {
    var n, b := |es|, Since(ms, key, es);
    if b == n {
      assert es[b..] == [];
    } else {
      HeldWins(ms[..n], key, es[..n - 1]);
      assert es[b..][..n - 1 - b] == es[..n - 1][b..];
      assert es[b..][n - 1 - b] == es[n - 1];
    }
  }

  /** In any history a reader finds the highest version found since the key was last lost, known to be
      absent or found without a version and, of that version, the content that came first; without
      such a find it finds no version. */
  lemma HighestVersionWins<K, V>(ms: seq<Entries<K, V>>, key: K, es: seq<Event<V>>, maxEntries: nat, maxBytes: nat)
    requires History(ms, key, es, maxEntries, maxBytes)
    ensures var m, best := ms[|es|], Winner(es[Since(ms, key, es)..]);
            if best.None? then key in m ==> m[key].version.None?
            else key in m && m[key].value == Some(best.value.value) && m[key].version == best.value.version
  {
    ReaderFinds(ms, key, es, maxEntries, maxBytes);
    HeldWins(ms, key, es);
    hide History, Held, Since, Winner;
  }

  // No version ever found is above the one in the table.
  ghost predicate HoldsHighest<K, V>(m: Entries<K, V>, key: K, es: seq<Event<V>>) {
    forall i :: 0 <= i < |es| && Versioned(es[i]) ==>
      key in m && m[key].version.Some? && Version(es[i]) <= m[key].version.value
  }

  ghost predicate Matched<V>(es: seq<Event<V>>, i: nat, b: nat)
    requires i < |es| && Versioned(es[i])
  {
    exists j :: b <= j < |es| && Versioned(es[j]) && Version(es[i]) <= Version(es[j])
  }

  /** The table holds the highest version ever found exactly when each version found was found again,
      or exceeded, since the key was last lost, known to be absent or found without a version. */
  lemma HoldsHighestIff<K, V>(ms: seq<Entries<K, V>>, key: K, es: seq<Event<V>>, maxEntries: nat, maxBytes: nat)
    requires History(ms, key, es, maxEntries, maxBytes)
    ensures HoldsHighest(ms[|es|], key, es) <==>
            forall i :: 0 <= i < |es| && Versioned(es[i]) ==> Matched(es, i, Since(ms, key, es))
  {
    var m, b := ms[|es|], Since(ms, key, es);
    HighestVersionWins(ms, key, es, maxEntries, maxBytes);
    hide History, Since, Matched, Winner;
    forall i | 0 <= i < |es| && Versioned(es[i])
      ensures Matched(es, i, b) <==> key in m && m[key].version.Some? && Version(es[i]) <= m[key].version.value
    {
      MatchedIff(es, i, b);
    }
  }

  lemma MatchedIff<V>(es: seq<Event<V>>, i: nat, b: nat)
    requires i < |es| && Versioned(es[i]) && b <= |es|
    ensures Matched(es, i, b) <==>
            Winner(es[b..]).Some? && Version(es[i]) <= Winner(es[b..]).value.version.value
  {
    var tail := es[b..];
    var k := WinnerIsEarliest(tail);
    hide Winner;
    if Winner(tail).Some? && Version(es[i]) <= Version(tail[k]) {
      assert es[b + k] == tail[k];
    }
    if j :| b <= j < |es| && Versioned(es[j]) && Version(es[i]) <= Version(es[j]) {
      assert tail[j - b] == es[j];
    }
  }

  // ---- where it fails ----

  function FoundAt<V>(value: V, version: nat, size: nat): FetchResult<V> {
    Found(Fetched(value, Some(version), size))
  }

  // In a table without other entries a store needs no eviction.
  lemma StoredAlone<K, V>(m: Entries<K, V>, key: K, result: FetchResult<V>, now: Time, maxEntries: nat, maxBytes: nat)
    requires m.Keys <= {key}
    ensures Stored(m, key, result, now, maxEntries, maxBytes, Absorb(m, key, result, now).entries)
  {
    var u := Absorb(m, key, result, now).entries;
    assert u.Keys <= {key};
    AtMostOne(u, key);
  }

  lemma AtMostOne<K, V>(m: Entries<K, V>, key: K)
    requires m.Keys <= {key}
    ensures |m| <= 1
  {
    if key in m {
      assert m.Keys == {key};
    } else {
      assert m == map[];
    }
    assert |m| == |m.Keys|;
  }

  /** One empty lookup between two finds disarms the guard: for every key, whatever the limits, the
      lower version replaces the higher. A loss of the key in between does the same. */
  lemma LowerVersionWins<K, V>(key: K, high: V, low: V, newer: nat, older: nat,
                               maxEntries: nat, maxBytes: nat, lost: bool)
    returns (ms: seq<Entries<K, V>>, es: seq<Event<V>>)
    requires older < newer
    ensures es == [Refreshed(FoundAt(high, newer, 0), 0), if lost then Elsewhere else Refreshed(Missing, 0),
                   Refreshed(FoundAt(low, older, 0), 0)]
    ensures History(ms, key, es, maxEntries, maxBytes) && ms[0] == map[] && key in ms[3]
    ensures ms[3][key].value == Some(low) && ms[3][key].version == Some(older) && !HoldsHighest(ms[3], key, es)
  {
    var first, last := FoundAt(high, newer, 0), FoundAt(low, older, 0);
    var m0: Entries<K, V> := map[];
    var m1 := Absorb(m0, key, first, 0).entries;
    var m2 := if lost then m0 else Absorb(m1, key, Missing, 0).entries;
    var m3 := Absorb(m2, key, last, 0).entries;
    StoredAlone(m0, key, first, 0, maxEntries, maxBytes);
    StoredAlone(m1, key, Missing, 0, maxEntries, maxBytes);
    StoredAlone(m2, key, last, 0, maxEntries, maxBytes);
    ms := [m0, m1, m2, m3];
    es := [Refreshed(first, 0), if lost then Elsewhere else Refreshed(Missing, 0), Refreshed(last, 0)];
    hide Stored;
    assert Versioned(es[0]) && Version(es[0]) == newer;
    assert ms[3] == m3;
  }

  // ---- every run of the cache is such a history ----

  // The tables of a run, and what its steps mean for the key.
  ghost function Tables<K, V>(w: DR.World<K, V>, ss: seq<DR.Step<K, V>>): (ms: seq<Entries<K, V>>)
    requires DR.Legal(w, ss)
    ensures |ms| == |ss| + 1 && ms[0] == w.cache.entries
    decreases |ss|
  {
    [w.cache.entries] + if ss == [] then [] else Tables(DR.Next(w, ss[0]), ss[1..])
  }

  ghost function EventOf<K, V>(w: DR.World<K, V>, s: DR.Step<K, V>, key: K): Event<V>
    requires DR.Enabled(w, s)
  {
    if s.Store? && w.tasks[s.id].key == key then Refreshed(s.result, s.now)
    else if s.Access? && s.key == key then Accessed(s.now) else Elsewhere
  }

  ghost function Events<K, V>(w: DR.World<K, V>, ss: seq<DR.Step<K, V>>, key: K): (es: seq<Event<V>>)
    requires DR.Legal(w, ss)
    ensures |es| == |ss|
    decreases |ss|
  {
    if ss == [] then [] else [EventOf(w, ss[0], key)] + Events(DR.Next(w, ss[0]), ss[1..], key)
  }

  lemma StepFollows<K, V>(w: DR.World<K, V>, s: DR.Step<K, V>, key: K)
    requires DR.Enabled(w, s)
    ensures var v := DR.Next(w, s);
            && Follows(w.cache.entries, key, EventOf(w, s, key), v.cache.entries, w.cache.maxEntries, w.cache.maxBytes)
            && v.cache.maxEntries == w.cache.maxEntries && v.cache.maxBytes == w.cache.maxBytes
  {
    hide TotalSize;
  }

  lemma {:induction false} RunIsChained<K, V>(w: DR.World<K, V>, ss: seq<DR.Step<K, V>>, key: K)
    requires DR.Legal(w, ss)
    ensures Chained(Tables(w, ss), key, Events(w, ss, key), w.cache.maxEntries, w.cache.maxBytes)
    ensures Tables(w, ss)[|ss|] == DR.Exec(w, ss).cache.entries
    ensures DR.Exec(w, ss).cache.maxEntries == w.cache.maxEntries && DR.Exec(w, ss).cache.maxBytes == w.cache.maxBytes
    decreases |ss|
  {
    if ss != [] {
      var v := DR.Next(w, ss[0]);
      StepFollows(w, ss[0], key);
      RunIsChained(v, ss[1..], key);
      hide DR.Next, DR.Enabled, Follows, EventOf;
      var ms, es := Tables(w, ss), Events(w, ss, key);
      forall i | 0 <= i < |es| ensures Follows(ms[i], key, es[i], ms[i + 1], w.cache.maxEntries, w.cache.maxBytes) {
        if i > 0 {
          assert ms[i] == Tables(v, ss[1..])[i - 1] && ms[i + 1] == Tables(v, ss[1..])[i];
          assert es[i] == Events(v, ss[1..], key)[i - 1];
        }
      }
    }
  }

  /** In every interleaving from a cache without the key: the table ends up with the highest version ever
      fetched for it exactly when each was fetched again, or exceeded, since the key was last lost,
      known to be absent or found without a version; and it always has the highest since then. */
  lemma RunsHoldHighestIff<K, V>(w: DR.World<K, V>, ss: seq<DR.Step<K, V>>, key: K)
    requires DR.Legal(w, ss) && key !in w.cache.entries
    ensures var m, es := DR.Exec(w, ss).cache.entries, Events(w, ss, key);
            var b := Since(Tables(w, ss), key, es);
            && (HoldsHighest(m, key, es) <==> forall i :: 0 <= i < |es| && Versioned(es[i]) ==> Matched(es, i, b))
            && (var best := Winner(es[b..]);
                if best.None? then key in m ==> m[key].version.None?
                else key in m && m[key].value == Some(best.value.value) && m[key].version == best.value.version)
  {
    RunIsChained(w, ss, key);
    hide DR.Legal, DR.Exec, Events, Tables, Chained;
    HoldsHighestIff(Tables(w, ss), key, Events(w, ss, key), w.cache.maxEntries, w.cache.maxBytes);
    HighestVersionWins(Tables(w, ss), key, Events(w, ss, key), w.cache.maxEntries, w.cache.maxBytes);
  }
}
