/** The cache under concurrent refreshes and invalidations: every interleaving of
    the lock-held sections and atomic accesses of `ensure_refresh`,
    `run_refresh`, `invalidate` and `invalidate_all`. An entry is fresh when the
    fetch behind it began after the last invalidation of its key. */
module DhtCacheRuns {
  import opened Options
  import opened DhtCache

  type Stamp = nat
  type Generation = (nat, nat)

  // A refresh: both halves of its generation read, its fetch, both halves of its check, its store.
  datatype Phase =
    | Reserved
    | SawGlobal(global: nat)
    | Armed(gen: Generation)
    | Fetching(gen: Generation, begun: Stamp)
    | Checking(gen: Generation, begun: Stamp, global: nat)
    | Passed(begun: Stamp)
    | Done

  datatype Task<K> = Task(key: K, phase: Phase)

  // The history: a step counter, when each entry's fetch began, when each key and everything was
  // last invalidated, and the invalidations that have not yet removed entries or key generations.
  datatype Log<K(==)> = Log(clock: Stamp, born: map<K, Stamp>, keyInvalid: map<K, Stamp>, allInvalid: Stamp,
                            dropping: multiset<K>, sweepEntries: nat, sweepKeys: nat)

  datatype World<K(==), V> = World(cache: Shared<K, V>, tasks: map<nat, Task<K>>, log: Log<K>)

  datatype Step<K(==), V> =
    | Reserve(id: nat, key: K)
    | ReadGlobal(id: nat)
    | ReadKey(id: nat)
    | BeginFetch(id: nat)
    | CheckGlobal(id: nat)
    | CheckKey(id: nat)
    | Store(id: nat, result: FetchResult<V>, now: Time, after: Entries<K, V>)
    | Release(id: nat)
    | BumpKey(key: K)
    | DropKey(key: K)
    | BumpAll
    | ClearEntries
    | ClearKeys
    | Access(key: K, now: Time)

  ghost predicate Enabled<K, V>(w: World<K, V>, s: Step<K, V>) {
    match s
    case Reserve(id, key) => id !in w.tasks && key !in w.cache.inflight
    case ReadGlobal(id) => id in w.tasks && w.tasks[id].phase.Reserved?
    case ReadKey(id) => id in w.tasks && w.tasks[id].phase.SawGlobal?
    case BeginFetch(id) => id in w.tasks && w.tasks[id].phase.Armed?
    case CheckGlobal(id) => id in w.tasks && w.tasks[id].phase.Fetching?
    case CheckKey(id) => id in w.tasks && w.tasks[id].phase.Checking?
    case Store(id, result, now, after) =>
      id in w.tasks && w.tasks[id].phase.Passed? && Stores(w.cache, w.tasks[id].key, result, now, after)
    case Release(id) => id in w.tasks && w.tasks[id].phase.Done?
    case BumpKey(_) => true
    case DropKey(key) => key in w.log.dropping
    case BumpAll => true
    case ClearEntries => w.log.sweepEntries > 0
    case ClearKeys => w.log.sweepKeys > 0
    case Access(_, _) => true
  }

  ghost function Advance<K, V>(w: World<K, V>, id: nat, phase: Phase): World<K, V>
    requires id in w.tasks
  {
    w.(tasks := w.tasks[id := w.tasks[id].(phase := phase)])
  }

  // Both halves of the check agree with the generation the refresh started from.
  ghost function Verdict<K, V>(w: World<K, V>, t: Task<K>): Phase
    requires t.phase.Checking?
  {
    if t.phase.gen == (t.phase.global, Count(w.cache.keyGen, t.key)) then Passed(t.phase.begun) else Done
  }

  ghost function StoreFor<K, V>(w: World<K, V>, id: nat, result: FetchResult<V>, now: Time,
                                after: Entries<K, V>): World<K, V>
    requires id in w.tasks && w.tasks[id].phase.Passed?
  {
    var t := w.tasks[id];
    var log := if Replaces(Find(w.cache.entries, t.key), result)
               then w.log.(born := w.log.born[t.key := t.phase.begun]) else w.log;
    Advance(w, id, Done).(cache := w.cache.(entries := after), log := log)
  }

  ghost function Act<K, V>(w: World<K, V>, s: Step<K, V>): World<K, V>
    requires Enabled(w, s)
  {
    var c, log := w.cache, w.log;
    match s
    case Reserve(id, key) =>
      w.(tasks := w.tasks[id := Task(key, Reserved)], cache := c.(inflight := c.inflight + {key}))
    case ReadGlobal(id) => Advance(w, id, SawGlobal(c.global))
    case ReadKey(id) => Advance(w, id, Armed((w.tasks[id].phase.global, Count(c.keyGen, w.tasks[id].key))))
    case BeginFetch(id) => Advance(w, id, Fetching(w.tasks[id].phase.gen, log.clock))
    case CheckGlobal(id) => Advance(w, id, Checking(w.tasks[id].phase.gen, w.tasks[id].phase.begun, c.global))
    case CheckKey(id) => Advance(w, id, Verdict(w, w.tasks[id]))
    case Store(id, result, now, after) => StoreFor(w, id, result, now, after)
    case Release(id) => w.(tasks := w.tasks - {id}, cache := c.(inflight := c.inflight - {w.tasks[id].key}))
    case BumpKey(key) =>
      w.(cache := c.(keyGen := c.keyGen[key := Count(c.keyGen, key) + 1]),
         log := log.(keyInvalid := log.keyInvalid[key := log.clock], dropping := log.dropping + multiset{key}))
    case DropKey(key) =>
      w.(cache := c.(entries := c.entries - {key}), log := log.(dropping := log.dropping - multiset{key}))
    case BumpAll =>
      w.(cache := c.(global := c.global + 1),
          log := log.(allInvalid := log.clock, sweepEntries := log.sweepEntries + 1))
    case ClearEntries =>
      w.(cache := c.(entries := map[]),
          log := log.(sweepEntries := log.sweepEntries - 1, sweepKeys := log.sweepKeys + 1))
    case ClearKeys => w.(cache := c.(keyGen := map[]), log := log.(sweepKeys := log.sweepKeys - 1))
    case Access(key, now) => w.(cache := c.(entries := Touched(c.entries, key, now)))
  }

  ghost function Next<K, V>(w: World<K, V>, s: Step<K, V>): World<K, V>
    requires Enabled(w, s)
  {
    var w' := Act(w, s);
    w'.(log := w'.log.(clock := w'.log.clock + 1))
  }

  function LastInvalid<K>(log: Log<K>, key: K): Stamp {
    if Count(log.keyInvalid, key) < log.allInvalid then log.allInvalid else Count(log.keyInvalid, key)
  }

  predicate Sweeping<K>(log: Log<K>) {
    log.sweepEntries > 0 || log.sweepKeys > 0
  }

  // What an invalidation promises: once it has removed what it drops, no entry is older than it.
  ghost predicate Fresh<K, V>(w: World<K, V>) {
    forall k :: k in w.cache.entries ==>
      Count(w.log.born, k) > LastInvalid(w.log, k) || k in w.log.dropping || w.log.sweepEntries > 0
  }

  // At most one refresh per key, and the in-flight table lists exactly their keys.
  ghost predicate SingleFlight<K, V>(w: World<K, V>) {
    && (forall i, j :: i in w.tasks && j in w.tasks && w.tasks[i].key == w.tasks[j].key ==> i == j)
    && (forall i :: i in w.tasks ==> w.tasks[i].key in w.cache.inflight)
    && (forall k :: k in w.cache.inflight ==> exists i :: i in w.tasks && w.tasks[i].key == k)
  }

  ghost predicate Clocked<K>(log: Log<K>) {
    log.allInvalid < log.clock && forall k :: k in log.keyInvalid ==> log.keyInvalid[k] < log.clock
  }

  // A refresh holding a generation that could still pass has seen every invalidation of its key.
  ghost predicate Current<K, V>(w: World<K, V>, t: Task<K>) {
    match t.phase
    case Reserved => true
    case SawGlobal(g) => g <= w.cache.global
    case Armed(gen) => Holds(w, t.key, gen)
    case Fetching(gen, begun) => begun < w.log.clock && Holds(w, t.key, gen) && Unspoilt(w, t.key, gen, begun)
    case Checking(gen, begun, global) =>
      && begun < w.log.clock
      && (global == gen.0 ==> gen.0 == w.cache.global && Holds(w, t.key, gen) && Unspoilt(w, t.key, gen, begun))
    case Passed(begun) => LastInvalid(w.log, t.key) < begun < w.log.clock && !Sweeping(w.log)
    case Done => true
  }

  ghost predicate Holds<K, V>(w: World<K, V>, key: K, gen: Generation) {
    && gen.0 <= w.cache.global
    && (gen.0 == w.cache.global ==> !Sweeping(w.log) && gen.1 <= Count(w.cache.keyGen, key))
  }

  ghost predicate Unspoilt<K, V>(w: World<K, V>, key: K, gen: Generation, begun: Stamp) {
    gen == (w.cache.global, Count(w.cache.keyGen, key)) ==> begun > LastInvalid(w.log, key)
  }

  ghost predicate Inv<K, V>(w: World<K, V>) {
    && WithinLimits(w.cache) && SingleFlight(w) && Clocked(w.log) && Fresh(w)
    && forall i :: i in w.tasks ==> Current(w, w.tasks[i])
  }

  /** The only schedules that lose freshness: a generation read inside an invalidate_all it has seen
      the beginning of, an invalidation of the key between a refresh's check and its store, and an
      invalidate_all between the first half of a check and the store. */
  ghost predicate Disciplined<K, V>(w: World<K, V>, s: Step<K, V>)
    requires Enabled(w, s)
  {
    match s
    case ReadKey(id) => !(Sweeping(w.log) && w.tasks[id].phase.global == w.cache.global)
    case BumpKey(key) => forall i :: i in w.tasks && w.tasks[i].key == key ==> !w.tasks[i].phase.Passed?
    case BumpAll => forall i :: i in w.tasks ==> !Committed(w.tasks[i].phase)
    case _ => true
  }

  predicate Committed(p: Phase) {
    p.Passed? || (p.Checking? && p.global == p.gen.0)
  }

  // ---- every disciplined step keeps the invariant ----

  lemma LimitsKept<K, V>(w: World<K, V>, s: Step<K, V>)
    requires WithinLimits(w.cache) && Enabled(w, s)
    ensures WithinLimits(Next(w, s).cache)
  {
    hide TotalSize;
    var c := w.cache;
    match s
    case Store(id, result, now, after) =>
      StoredKeeps(c.entries, w.tasks[id].key, result, now, c.maxEntries, c.maxBytes, after);
    case DropKey(key) => TotalSizeMonotone(c.entries - {key}, c.entries);
    case Access(key, now) => SameSizes(c.entries, Touched(c.entries, key, now));
    case ClearEntries => assert |Next(w, s).cache.entries| == 0;
    case _ =>
  }

  // Only taking and giving back a reservation changes which keys are being refreshed.
  lemma SameKeys<K, V>(w: World<K, V>, s: Step<K, V>)
    requires Enabled(w, s) && !s.Reserve? && !s.Release?
    ensures var w' := Next(w, s);
            && w'.cache.inflight == w.cache.inflight && w'.tasks.Keys == w.tasks.Keys
            && forall i :: i in w.tasks ==> w'.tasks[i].key == w.tasks[i].key
  {
    hide Stores, Absorb, Touched;
  }

  lemma FlightKept<K, V>(w: World<K, V>, s: Step<K, V>)
    requires SingleFlight(w) && Enabled(w, s)
    ensures SingleFlight(Next(w, s))
  {
    var w' := Next(w, s);
    if s.Reserve? || s.Release? {
      forall k | k in w'.cache.inflight ensures exists i :: i in w'.tasks && w'.tasks[i].key == k {
        if s.Reserve? && k == s.key {
          assert w'.tasks[s.id].key == k;
        } else {
          var i :| i in w.tasks && w.tasks[i].key == k;
          assert i in w'.tasks && w'.tasks[i].key == k;
        }
      }
    } else {
      SameKeys(w, s);
      hide Next;
      assert forall i :: i in w.tasks ==> w'.tasks[i].key == w.tasks[i].key;
    }
  }

  lemma FreshKept<K, V>(w: World<K, V>, s: Step<K, V>)
    requires Fresh(w) && Clocked(w.log) && Enabled(w, s)
    requires s.Store? ==> Current(w, w.tasks[s.id])
    ensures Fresh(Next(w, s)) && Clocked(Next(w, s).log)
  {
    hide Stores, Absorb, Replaces;
    if s.Store? {
      FreshStored(w, s);
    }
  }

  lemma FreshStored<K, V>(w: World<K, V>, s: Step<K, V>)
    requires Fresh(w) && Clocked(w.log) && Enabled(w, s) && s.Store? && Current(w, w.tasks[s.id])
    ensures Fresh(Next(w, s)) && Clocked(Next(w, s).log)
  {
    hide Stored, Absorb, Replaces;
    var c := w.cache;
    StoredKeys(c.entries, w.tasks[s.id].key, s.result, s.now, c.maxEntries, c.maxBytes, s.after);
  }

  // A store adds no key but its own, and its own only with new content.
  lemma StoredKeys<K, V>(m: Entries<K, V>, key: K, result: FetchResult<V>, now: Time,
                         maxEntries: nat, maxBytes: nat, after: Entries<K, V>)
    requires Stored(m, key, result, now, maxEntries, maxBytes, after)
    ensures after.Keys <= m.Keys + {key} && (key in after && key !in m ==> Replaces(Find(m, key), result))
  {
    hide Evicted;
    var u := Absorb(m, key, result, now);
    if u.replaced {
      EvictedIsPart(u.entries, after, maxEntries, maxBytes);
    }
  }

  lemma EvictedIsPart<K, V>(m: Entries<K, V>, kept: Entries<K, V>, maxEntries: nat, maxBytes: nat)
    requires Evicted(m, kept, maxEntries, maxBytes)
    ensures kept.Keys <= m.Keys
  {
  }

  predicate Invalidation<K, V>(s: Step<K, V>) {
    s.BumpKey? || s.DropKey? || s.BumpAll? || s.ClearEntries? || s.ClearKeys?
  }

  // Nothing a refresh depends on changes in the steps of others, invalidations apart.
  lemma BystanderKeeps<K, V>(w: World<K, V>, s: Step<K, V>, i: nat)
    requires Enabled(w, s) && !Invalidation(s) && i in w.tasks && Current(w, w.tasks[i])
    ensures Current(Next(w, s), w.tasks[i])
  {
    hide Stores, Absorb, Touched, Count;
  }

  lemma OwnStepKeeps<K, V>(w: World<K, V>, s: Step<K, V>, i: nat)
    requires Clocked(w.log) && Enabled(w, s) && Disciplined(w, s) && !Invalidation(s)
    requires i in w.tasks && Current(w, w.tasks[i])
    requires i in Next(w, s).tasks && Next(w, s).tasks[i] != w.tasks[i]
    ensures Current(Next(w, s), Next(w, s).tasks[i])
  {
    hide Stores, Absorb, Touched, Count;
    if s.BeginFetch? {
      BegunNow(w.log, w.tasks[s.id].key);
    }
  }

  lemma BegunNow<K>(log: Log<K>, key: K)
    requires Clocked(log)
    ensures LastInvalid(log, key) < log.clock
  {
  }

  lemma InvalidationKeeps<K, V>(w: World<K, V>, s: Step<K, V>, i: nat)
    requires Enabled(w, s) && Disciplined(w, s) && Invalidation(s)
    requires i in w.tasks && Current(w, w.tasks[i])
    ensures Current(Next(w, s), w.tasks[i])
  {
  }

  lemma Reserving<K, V>(w: World<K, V>, s: Step<K, V>, i: nat)
    requires Enabled(w, s) && i !in w.tasks && i in Next(w, s).tasks
    ensures Current(Next(w, s), Next(w, s).tasks[i])
  {
    hide Stores, Absorb, Touched, Count;
  }

  lemma DisciplinedKeeps<K, V>(w: World<K, V>, s: Step<K, V>)
    requires Inv(w) && Enabled(w, s) && Disciplined(w, s)
    ensures Inv(Next(w, s))
  {
    hide WithinLimits, SingleFlight, Fresh, Clocked, Current, Disciplined, Stores, Absorb, Touched;
    LimitsKept(w, s);
    FlightKept(w, s);
    FreshKept(w, s);
    forall i | i in Next(w, s).tasks ensures Current(Next(w, s), Next(w, s).tasks[i]) {
      if Invalidation(s) {
        InvalidationKeeps(w, s, i);
      } else if i in w.tasks && Next(w, s).tasks[i] == w.tasks[i] {
        BystanderKeeps(w, s, i);
      } else if i in w.tasks {
        OwnStepKeeps(w, s, i);
      } else {
        Reserving(w, s, i);
      }
    }
  }

  // ---- runs ----

  // A sequence of steps that can be taken from `w`: any interleaving.
  ghost predicate Legal<K, V>(w: World<K, V>, ss: seq<Step<K, V>>)
    decreases |ss|
  {
    ss != [] ==> Enabled(w, ss[0]) && Legal(Next(w, ss[0]), ss[1..])
  }

  ghost function Exec<K, V>(w: World<K, V>, ss: seq<Step<K, V>>): World<K, V>
    requires Legal(w, ss)
    decreases |ss|
  {
    if ss == [] then w else Exec(Next(w, ss[0]), ss[1..])
  }

  // An interleaving all of whose steps are disciplined.
  ghost predicate Calm<K, V>(w: World<K, V>, ss: seq<Step<K, V>>): (calm: bool)
    ensures calm ==> Legal(w, ss)
    decreases |ss|
  {
    ss != [] ==> Enabled(w, ss[0]) && Disciplined(w, ss[0]) && Calm(Next(w, ss[0]), ss[1..])
  }

  function Empty<K, V>(maxEntries: nat, maxBytes: nat): World<K, V> {
    World(Shared(map[], {}, 0, map[], maxEntries, maxBytes), map[], Log(1, map[], map[], 0, multiset{}, 0, 0))
  }

  lemma EmptyInv<K, V>(maxEntries: nat, maxBytes: nat)
    ensures Inv(Empty<K, V>(maxEntries, maxBytes))
  {
    assert |Empty<K, V>(maxEntries, maxBytes).cache.entries| == 0;
  }

  /** In every interleaving, disciplined or not, at most one refresh per key runs, the in-flight table
      lists exactly their keys, and the cache is within its limits. */
  lemma {:induction false} EveryRunIsBounded<K, V>(w: World<K, V>, ss: seq<Step<K, V>>)
    requires WithinLimits(w.cache) && SingleFlight(w) && Legal(w, ss)
    ensures WithinLimits(Exec(w, ss).cache) && SingleFlight(Exec(w, ss))
    decreases |ss|
  {
    hide WithinLimits, SingleFlight, Next, Enabled;
    if ss != [] {
      LimitsKept(w, ss[0]);
      FlightKept(w, ss[0]);
      EveryRunIsBounded(Next(w, ss[0]), ss[1..]);
    }
  }

  // ---- generations ----

  // What a refresh of the key compares.
  function Pair<K, V>(w: World<K, V>, key: K): Generation {
    (w.cache.global, Count(w.cache.keyGen, key))
  }

  predicate Below(a: Generation, b: Generation) {
    a.0 < b.0 || (a.0 == b.0 && a.1 < b.1)
  }

  // A section that begins an invalidation of the key.
  predicate Invalidates<K, V>(s: Step<K, V>, key: K) {
    s.BumpAll? || (s.BumpKey? && s.key == key)
  }

  lemma PairAfter<K, V>(w: World<K, V>, s: Step<K, V>, key: K)
    requires Enabled(w, s) && !s.ClearKeys?
    ensures if Invalidates(s, key) then Below(Pair(w, key), Pair(Next(w, s), key))
        else Pair(Next(w, s), key) == Pair(w, key)
  {
    hide Stores, Absorb, Touched;
  }

  /** Until key generations are cleared, the generation pair never falls, and it comes out the same
      exactly when no invalidation of the key, nor of everything, began. */
  lemma {:induction false} PairUnchangedIff<K, V>(w: World<K, V>, ss: seq<Step<K, V>>, key: K)
    requires Legal(w, ss) && forall i :: 0 <= i < |ss| ==> !ss[i].ClearKeys?
    ensures !Below(Pair(Exec(w, ss), key), Pair(w, key))
    ensures Pair(Exec(w, ss), key) == Pair(w, key) <==> forall i :: 0 <= i < |ss| ==> !Invalidates(ss[i], key)
    decreases |ss|
  {
    if ss != [] {
      PairAfter(w, ss[0], key);
      hide Next, Enabled;
      PairUnchangedIff(Next(w, ss[0]), ss[1..], key);
      assert forall i :: 1 <= i < |ss| ==> ss[i] == ss[1..][i - 1];
      assert forall i :: 0 <= i < |ss[1..]| ==> ss[1..][i] == ss[i + 1];
    }
  }

  lemma PairReturns<K, V>(w: World<K, V>, key: K) returns (ss: seq<Step<K, V>>)
    requires w.log.sweepKeys > 0 && Count(w.cache.keyGen, key) == 0
    ensures Legal(w, ss) && BumpKey(key) in ss && Pair(Exec(w, ss), key) == Pair(w, key)
  {
    var bump: Step<K, V>, clear: Step<K, V> := BumpKey(key), ClearKeys;
    ss := [bump, clear];
    var v := Next(w, bump);
    assert ss[1..] == [clear] && [clear][1..] == [];
    assert Enabled(v, clear);
    assert Legal(Next(v, clear), []) && Exec(Next(v, clear), []) == Next(v, clear);
    assert Legal(v, [clear]) && Exec(v, [clear]) == Next(v, clear);
  }

  lemma {:induction false} LegalConcat<K, V>(w: World<K, V>, a: seq<Step<K, V>>, b: seq<Step<K, V>>)
    requires Legal(w, a) && Legal(Exec(w, a), b)
    ensures Legal(w, a + b) && Exec(w, a + b) == Exec(Exec(w, a), b)
    decreases |a|
  {
    hide Next, Enabled;
    if a == [] {
      assert a + b == b;
    } else {
      assert (a + b)[1..] == a[1..] + b;
      LegalConcat(Next(w, a[0]), a[1..], b);
    }
  }

  /** Clearing them brings a pair back: in a run from the empty cache, an invalidation of the key inside
      an invalidate_all leaves the pair as it was before that invalidation. */
  lemma PairComesBack<K, V>(maxEntries: nat, maxBytes: nat, key: K)
    returns (before: seq<Step<K, V>>, rest: seq<Step<K, V>>)
    ensures var w := Empty<K, V>(maxEntries, maxBytes);
            && Legal(w, before) && Legal(w, before + rest) && BumpKey(key) in rest
            && Pair(Exec(w, before + rest), key) == Pair(Exec(w, before), key)
  {
    var w := Empty<K, V>(maxEntries, maxBytes);
    var bump: Step<K, V>, clear: Step<K, V> := BumpAll, ClearEntries;
    before := [bump, clear];
    var v := Next(w, bump);
    assert before[1..] == [clear] && [clear][1..] == [];
    assert Legal(Next(v, clear), []) && Exec(Next(v, clear), []) == Next(v, clear);
    assert Legal(v, [clear]) && Exec(v, [clear]) == Next(v, clear);
    assert Legal(w, before) && Exec(w, before) == Next(v, clear);
    rest := PairReturns(Exec(w, before), key);
    LegalConcat(w, before, rest);
  }

  // ---- freshness ----

  /** Along every disciplined interleaving no entry is older than an invalidation that has finished
      removing. */
  lemma {:induction false} DisciplinedRunsStayFresh<K, V>(w: World<K, V>, ss: seq<Step<K, V>>)
    requires Inv(w) && Calm(w, ss)
    ensures Inv(Exec(w, ss))
    decreases |ss|
  {
    hide Inv, Next, Enabled, Disciplined;
    if ss != [] {
      DisciplinedKeeps(w, ss[0]);
      DisciplinedRunsStayFresh(Next(w, ss[0]), ss[1..]);
    }
  }

  // ---- an undisciplined step can always end in a stale entry ----

  // A refresh that began before the last invalidation of its key and can still pass its check.
  ghost predicate Stale<K, V>(w: World<K, V>, id: nat) {
    && id in w.tasks && SingleFlight(w) && Clocked(w.log)
    && var t := w.tasks[id];
    && (t.phase.Fetching? || t.phase.Checking? || t.phase.Passed?)
    && t.phase.begun <= LastInvalid(w.log, t.key)
    && (t.phase.Fetching? ==> t.phase.gen.0 == w.cache.global)
    && (t.phase.Checking? ==> t.phase.gen.0 == t.phase.global)
    && (!t.phase.Passed? ==> Sweeping(w.log) || Count(w.cache.keyGen, t.key) <= t.phase.gen.1)
  }

  ghost function Gap<K, V>(w: World<K, V>, id: nat): nat
    requires id in w.tasks
  {
    var t := w.tasks[id];
    if (t.phase.Fetching? || t.phase.Checking?) && Count(w.cache.keyGen, t.key) <= t.phase.gen.1
    then t.phase.gen.1 - Count(w.cache.keyGen, t.key) else 0
  }

  ghost function Rank(p: Phase): nat {
    if p.Fetching? then 2 else if p.Checking? then 1 else 0
  }

  lemma NewestMissing<K, V>(c: Shared<K, V>, key: K) returns (now: Time, after: Entries<K, V>)
    ensures Stores(c, key, Missing, now, after) && key in after
  {
    now := After(c.entries);
    var m := Absorb(c.entries, key, Missing, now).entries;
    after := EvictFrom(m, m, c.maxEntries, c.maxBytes);
    EvictKeepsNewest(m, after, key, c.maxEntries, c.maxBytes);
  }

  lemma {:induction false} After<K, V>(m: Entries<K, V>) returns (now: Time)
    ensures forall k :: k in m ==> m[k].lastAccess < now
    decreases |m|
  {
    now := 0;
    if m != map[] {
      var k :| k in m;
      assert (m - {k}).Keys == m.Keys - {k};
      now := After(m - {k});
      assert forall j :: j in m && j != k ==> j in m - {k} && m[j].lastAccess < now;
      now := if now <= m[k].lastAccess then m[k].lastAccess + 1 else now;
    }
  }

  // The next step on the way from a stale refresh to its store.
  ghost function Onward<K, V>(w: World<K, V>, id: nat): Step<K, V>
    requires Stale(w, id)
  {
    var key := w.tasks[id].key;
    if w.log.sweepEntries > 0 then ClearEntries
    else if w.log.sweepKeys > 0 then ClearKeys
    else if Gap(w, id) > 0 then BumpKey(key)
    else if key in w.log.dropping then DropKey(key)
    else if w.tasks[id].phase.Fetching? then CheckGlobal(id)
    else CheckKey(id)
  }

  ghost predicate AtStore<K, V>(w: World<K, V>, id: nat) {
    id in w.tasks && w.tasks[id].phase.Passed? && !Sweeping(w.log) && w.tasks[id].key !in w.log.dropping
  }

  // Sweeping, bumping and dropping leave the refresh stale.
  lemma SweepOnward<K, V>(w: World<K, V>, id: nat, s: Step<K, V>)
    requires Stale(w, id) && Enabled(w, s)
    requires s.ClearEntries? || s.ClearKeys? || (s.DropKey? && !Sweeping(w.log))
    ensures Stale(Next(w, s), id)
  {
    FlightKept(w, s);
    hide SingleFlight;
  }

  lemma BumpOnward<K, V>(w: World<K, V>, id: nat, s: Step<K, V>)
    requires Stale(w, id) && !Sweeping(w.log) && Gap(w, id) > 0 && s == BumpKey(w.tasks[id].key)
    ensures Disciplined(w, s) && Stale(Next(w, s), id)
  {
    FlightKept(w, s);
    assert Disciplined(w, s);
    hide SingleFlight;
  }

  lemma CheckOnward<K, V>(w: World<K, V>, id: nat, s: Step<K, V>)
    requires Stale(w, id) && !Sweeping(w.log) && Gap(w, id) == 0 && Enabled(w, s)
    requires s == CheckGlobal(id) || s == CheckKey(id)
    ensures Stale(Next(w, s), id)
  {
    FlightKept(w, s);
    hide SingleFlight;
  }

  lemma OnwardStep<K, V>(w: World<K, V>, id: nat)
    requires Stale(w, id) && !AtStore(w, id)
    ensures var s := Onward(w, id); Enabled(w, s) && Disciplined(w, s) && Stale(Next(w, s), id)
  {
    hide SingleFlight, Clocked, Next, Stores;
    var s := Onward(w, id);
    if s.BumpKey? {
      BumpOnward(w, id, s);
    } else if s.CheckGlobal? || s.CheckKey? {
      CheckOnward(w, id, s);
    } else {
      SweepOnward(w, id, s);
    }
  }

  // Every onward step brings the store nearer.
  lemma OnwardShrinks<K, V>(w: World<K, V>, id: nat)
    requires Stale(w, id) && !AtStore(w, id) && Enabled(w, Onward(w, id))
    ensures var s := Onward(w, id); var w' := Next(w, s);
            && id in w'.tasks && w'.tasks[id].key == w.tasks[id].key
            && (w.log.sweepEntries, w.log.sweepKeys, Gap(w, id), w.log.dropping[w.tasks[id].key],
                 Rank(w.tasks[id].phase)
                decreases to w'.log.sweepEntries, w'.log.sweepKeys, Gap(w', id), w'.log.dropping[w'.tasks[id].key],
                             Rank(w'.tasks[id].phase))
  {
    hide SingleFlight, Clocked, Stores;
  }

  lemma StaleStore<K, V>(w: World<K, V>, id: nat) returns (s: Step<K, V>)
    requires Stale(w, id) && AtStore(w, id)
    ensures Enabled(w, s) && Disciplined(w, s) && !Fresh(Next(w, s))
  {
    var now, after := NewestMissing(w.cache, w.tasks[id].key);
    s := Store(id, Missing, now, after);
    hide Stores;
    assert w.tasks[id].key in Next(w, s).cache.entries;
  }

  lemma {:induction false} StaleEnds<K, V>(w: World<K, V>, id: nat) returns (ss: seq<Step<K, V>>)
    requires Stale(w, id)
    ensures Calm(w, ss) && !Fresh(Exec(w, ss))
    decreases w.log.sweepEntries, w.log.sweepKeys, Gap(w, id), w.log.dropping[w.tasks[id].key], Rank(w.tasks[id].phase)
  {
    var s: Step<K, V>;
    if AtStore(w, id) {
      s := StaleStore(w, id);
      ss := [s];
    } else {
      OnwardStep(w, id);
      OnwardShrinks(w, id);
      hide Stale, Next, Gap, Rank, Enabled, Disciplined, Fresh;
      s := Onward(w, id);
      ss := StaleEnds(Next(w, s), id);
      ss := [s] + ss;
    }
  }

  // Reading the key generation inside a sweep: begin the fetch, invalidate the key, and finish.
  lemma ReadEnds<K, V>(w: World<K, V>, id: nat) returns (ss: seq<Step<K, V>>)
    requires SingleFlight(w) && Clocked(w.log) && Sweeping(w.log)
    requires id in w.tasks && w.tasks[id].phase.Armed? && w.tasks[id].phase.gen.0 == w.cache.global
    ensures Calm(w, ss) && !Fresh(Exec(w, ss))
  {
    hide Stores, Absorb, Touched;
    var begin, bump := BeginFetch(id), BumpKey(w.tasks[id].key);
    FlightKept(w, begin);
    var w1 := Next(w, begin);
    FlightKept(w1, bump);
    assert Disciplined(w1, bump);
    var w2 := Next(w1, bump);
    ss := StaleEnds(w2, id);
    ss := [begin, bump] + ss;
    assert ss[1..][1..] == ss[2..];
    hide SingleFlight, Fresh;
    assert Calm(w1, ss[1..]);
  }

  lemma InvalidatedInTheWindow<K, V>(w: World<K, V>, s: Step<K, V>, i: nat)
    requires SingleFlight(w) && Clocked(w.log)
    requires i in w.tasks && Current(w, w.tasks[i]) && Committed(w.tasks[i].phase)
    requires s.BumpAll? || (s.BumpKey? && s.key == w.tasks[i].key && w.tasks[i].phase.Passed?)
    ensures Stale(Next(w, s), i)
  {
    FlightKept(w, s);
    hide SingleFlight;
  }

  lemma UndisciplinedEnds<K, V>(w: World<K, V>, s: Step<K, V>) returns (ss: seq<Step<K, V>>)
    requires Inv(w) && Enabled(w, s) && !Disciplined(w, s)
    ensures Calm(Next(w, s), ss) && !Fresh(Exec(Next(w, s), ss))
  {
    FlightKept(w, s);
    hide SingleFlight, Fresh, WithinLimits, Calm, Current, Stale;
    match s
    case ReadKey(id) => ss := ReadEnds(Next(w, s), id);
    case BumpKey(key) =>
      var i :| i in w.tasks && w.tasks[i].key == key && w.tasks[i].phase.Passed?;
      InvalidatedInTheWindow(w, s, i);
      ss := StaleEnds(Next(w, s), i);
    case BumpAll =>
      var i :| i in w.tasks && Committed(w.tasks[i].phase);
      InvalidatedInTheWindow(w, s, i);
      ss := StaleEnds(Next(w, s), i);
  }

  /** A step taken in an invariant state is safe for every disciplined continuation exactly when it
      is disciplined itself: each undisciplined step has a continuation that ends in a stale entry. */
  lemma StepIsSafeIff<K(!new), V(!new)>(w: World<K, V>, s: Step<K, V>)
    requires Inv(w) && Enabled(w, s)
    ensures Disciplined(w, s) <==> forall ss :: Calm(Next(w, s), ss) ==> Fresh(Exec(Next(w, s), ss))
  {
    if Disciplined(w, s) {
      DisciplinedKeeps(w, s);
      forall ss | Calm(Next(w, s), ss) ensures Fresh(Exec(Next(w, s), ss)) {
        DisciplinedRunsStayFresh(Next(w, s), ss);
      }
    } else {
      var ss := UndisciplinedEnds(w, s);
    }
  }

  lemma {:induction false} Follow<K, V>(w: World<K, V>, ss: seq<Step<K, V>>, s: Step<K, V>)
    requires Calm(w, ss) && Enabled(Exec(w, ss), s) && Disciplined(Exec(w, ss), s)
    ensures Calm(w, ss + [s]) && Exec(w, ss + [s]) == Next(Exec(w, ss), s)
    decreases |ss|
  {
    hide Next, Enabled, Disciplined;
    if ss == [] {
      assert ss + [s] == [s];
      assert [s][1..] == [];
    } else {
      Follow(Next(w, ss[0]), ss[1..], s);
      assert (ss + [s])[1..] == ss[1..] + [s];
    }
  }

  // A refresh of `key` up to and including the first half of its check.
  lemma HalfChecked<K, V>(maxEntries: nat, maxBytes: nat, key: K) returns (ss: seq<Step<K, V>>)
    ensures Calm(Empty(maxEntries, maxBytes), ss)
    ensures Exec(Empty<K, V>(maxEntries, maxBytes), ss).tasks == map[0 := Task(key, Checking((0, 0), 4, 0))]
    ensures Exec(Empty<K, V>(maxEntries, maxBytes), ss).cache.keyGen == map[]
  {
    var w := Empty<K, V>(maxEntries, maxBytes);
    hide Calm, Exec, Legal;
    ss := [Reserve(0, key)];
    Start(w, ss[0]);
    Follow(w, ss, ReadGlobal(0));
    ss := ss + [ReadGlobal(0)];
    Follow(w, ss, ReadKey(0));
    ss := ss + [ReadKey(0)];
    Follow(w, ss, BeginFetch(0));
    ss := ss + [BeginFetch(0)];
    Follow(w, ss, CheckGlobal(0));
    ss := ss + [CheckGlobal(0)];
  }

  /** All three windows are reachable from an empty cache, for any key: a generation read inside a
      sweep, an invalidation of the key after the check, and an invalidate_all after its first half. */
  lemma RaceIsReachable<K, V>(maxEntries: nat, maxBytes: nat, key: K)
    returns (read: seq<Step<K, V>>, half: seq<Step<K, V>>, passed: seq<Step<K, V>>)
    ensures var w := Empty<K, V>(maxEntries, maxBytes);
            && Calm(w, read) && Enabled(Exec(w, read), ReadKey(0)) && !Disciplined(Exec(w, read), ReadKey(0))
            && Calm(w, half) && !Disciplined(Exec(w, half), BumpAll)
            && Calm(w, passed) && !Disciplined(Exec(w, passed), BumpKey(key))
  {
    var w := Empty<K, V>(maxEntries, maxBytes);
    read := ReadInSweep(maxEntries, maxBytes, key);
    half := HalfChecked(maxEntries, maxBytes, key);
    hide Calm, Exec, Legal;
    assert Committed(Exec(w, half).tasks[0].phase);
    Follow(w, half, CheckKey(0));
    passed := half + [CheckKey(0)];
    assert Exec(w, passed).tasks[0] == Task(key, Passed(4));
  }

  lemma ReadInSweep<K, V>(maxEntries: nat, maxBytes: nat, key: K) returns (ss: seq<Step<K, V>>)
    ensures var w := Empty<K, V>(maxEntries, maxBytes);
            Calm(w, ss) && Enabled(Exec(w, ss), ReadKey(0)) && !Disciplined(Exec(w, ss), ReadKey(0))
  {
    var w := Empty<K, V>(maxEntries, maxBytes);
    hide Calm, Exec, Legal;
    ss := [Reserve(0, key)];
    Start(w, ss[0]);
    Follow(w, ss, BumpAll);
    ss := ss + [BumpAll];
    Follow(w, ss, ReadGlobal(0));
    ss := ss + [ReadGlobal(0)];
  }

  lemma Start<K, V>(w: World<K, V>, s: Step<K, V>)
    requires Enabled(w, s) && Disciplined(w, s)
    ensures Calm(w, [s]) && Exec(w, [s]) == Next(w, s)
  {
    assert [s][1..] == [];
  }
}
