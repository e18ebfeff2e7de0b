/** The authorization gate (`src/controller/auth_gate.rs`) under concurrency: any
    number of `authorize` calls, cache refreshes with arbitrary DHT records, and
    reloads, interleaved at their locks and awaits. */
module AuthGate {
  import opened Names
  import opened Options
  import opened AuthRecords

  datatype State = Disabled | Active(net: Network) | Misconfigured(reason: string)

  predicate SameTrustDomain(a: State, b: State) {
    match (a, b)
    case (Active(x), Active(y)) => x.hash == y.hash && x.authority == y.authority
    case (Disabled, Disabled) => true
    case _ => false
  }

  datatype WhitelistKey = WhitelistKey(service: Name, hash: Bytes, length: nat, indexExpiresAt: nat)

  // The two read caches of one trust domain, by the documents they hold.
  datatype Caches = Caches(net: Network, index: map<string, IndexDoc>, whitelist: map<WhitelistKey, WhitelistDoc>)

  datatype Decision = Allow | AllowUnprotected | Deny(reason: string)

  // Accepted versions, with the network their documents were verified under, and clears, in order.
  datatype Accept =
    | IndexVersion(net: Network, version: nat)
    | WhitelistVersion(net: Network, service: Name, version: nat)
    | Cleared

  // An index a call has read and checked against the clock at `at`: the network of the state it saw,
  // the caches it took, and whether no reload began in between.
  datatype Reading = Reading(net: Network, cache: nat, steady: bool, index: IndexDoc, at: nat)

  // Why a call ended as it did.
  datatype Basis =
    | Off
    | NotRequired
    | Refused
    | Unlisted(reading: Reading, indexPos: nat)
    | Proven(reading: Reading, indexPos: nat, entry: ServiceEntry, whitelist: WhitelistDoc, listPos: nat)

  datatype Phase =
    | Started
    | Resolved(net: Network, epoch: nat)
    | Holding(net: Network, cache: nat, steady: bool)
    | Indexed(reading: Reading)
    | Counted(reading: Reading, indexPos: nat)
    | Listed(reading: Reading, indexPos: nat, entry: ServiceEntry, whitelist: WhitelistDoc)
    | Finished(decision: Decision, basis: Basis)

  datatype Call = Call(peer: string, service: Name, phase: Phase)

  // A reload holds the state lock from its beginning to its end.
  datatype Reload = Idle | Clearing(next: State, same: bool) | Swapping(next: State, same: bool) | Setting(next: State)

  datatype Gate = Gate(state: State, reload: Reload, epoch: nat, caches: map<nat, Caches>, current: Option<nat>,
                       versions: Versions, log: seq<Accept>, calls: map<nat, Call>)

  datatype Step =
    | Begin(id: nat, peer: string, service: Name)
    | ReadState(id: nat, required: bool)
    | TakeCaches(id: nat)
    | ReadIndex(id: nat, now: nat)
    | CheckIndex(id: nat)
    | ReadWhitelist(id: nat)
    | CheckWhitelist(id: nat)
    | QueryFails(id: nat, reason: string)
    | StoreIndex(cache: nat, key: string, records: seq<Bytes>, now: nat)
    | StoreWhitelist(cache: nat, wkey: WhitelistKey, records: seq<Bytes>)
    | DropIndex(cache: nat, key: string)
    | DropWhitelist(cache: nat, wkey: WhitelistKey)
    | BeginReload(next: State)
    | ClearVersions
    | SwapCaches(made: nat)
    | EndReload

  ghost predicate Enabled(g: Gate, s: Step) {
    match s
    case Begin(id, _, _) => id !in g.calls
    case ReadState(id, _) => id in g.calls && g.calls[id].phase.Started? && g.reload.Idle?
    case TakeCaches(id) => id in g.calls && g.calls[id].phase.Resolved?
    case ReadIndex(id, _) => id in g.calls && g.calls[id].phase.Holding? && g.calls[id].phase.cache in g.caches
    case CheckIndex(id) => id in g.calls && g.calls[id].phase.Indexed? && g.calls[id].phase.reading.cache in g.caches
    case ReadWhitelist(id) => id in g.calls && g.calls[id].phase.Counted? && g.calls[id].phase.reading.cache in g.caches
    case CheckWhitelist(id) => id in g.calls && g.calls[id].phase.Listed? && g.calls[id].phase.reading.cache in g.caches
    case QueryFails(id, _) => id in g.calls && (g.calls[id].phase.Holding? || g.calls[id].phase.Counted?)
    case StoreIndex(c, _, _, _) => c in g.caches
    case StoreWhitelist(c, _, _) => c in g.caches
    case DropIndex(c, _) => c in g.caches
    case DropWhitelist(c, _) => c in g.caches
    case BeginReload(_) => g.reload.Idle?
    case ClearVersions => g.reload.Clearing?
    case SwapCaches(made) => g.reload.Swapping? && made !in g.caches
    case EndReload => g.reload.Setting?
  }

  // ---- one authorization call ----

  function FindEntry(services: seq<ServiceEntry>, service: Name): Option<ServiceEntry> {
    if services == [] then None
    else if services[0].name == service then Some(services[0]) else FindEntry(services[1..], service)
  }

  function KeyFor(service: Name, entry: ServiceEntry, index: IndexDoc): WhitelistKey {
    WhitelistKey(service, entry.hash, entry.length, index.expiresAt)
  }

  function Denied(reason: string): Phase {
    Finished(Deny(reason), Refused)
  }

  function AfterState(state: State, required: bool, epoch: nat): Phase {
    match state
    case Disabled => Finished(Allow, Off)
    case Misconfigured(reason) => Denied(reason)
    case Active(net) => if required then Resolved(net, epoch) else Finished(Allow, NotRequired)
  }

  function AfterIndex(c: Caches, p: Phase, now: nat): Phase
    requires p.Holding?
  {
    var key := IndexKey(p.net);
    if key !in c.index then Denied("auth index unavailable")
    else if now > c.index[key].expiresAt then Denied("auth index expired")
    else Indexed(Reading(p.net, p.cache, p.steady, c.index[key], now))
  }

  function AfterCount(c: Caches, service: Name, p: Phase): Phase
    requires p.Counted?
  {
    match FindEntry(p.reading.index.services, service)
    case None => Finished(AllowUnprotected, Unlisted(p.reading, p.indexPos))
    case Some(entry) =>
      var key := KeyFor(service, entry, p.reading.index);
      if key in c.whitelist then Listed(p.reading, p.indexPos, entry, c.whitelist[key])
      else Denied("whitelist unavailable")
  }

  function Verdict(call: Call, listPos: nat): Phase
    requires call.phase.Listed?
  {
    var p := call.phase;
    if call.peer in p.whitelist.members
    then Finished(Allow, Proven(p.reading, p.indexPos, p.entry, p.whitelist, listPos))
    else Denied("peer not authorized")
  }

  function Put(g: Gate, id: nat, phase: Phase): Gate
    requires id in g.calls
  {
    g.(calls := g.calls[id := g.calls[id].(phase := phase)])
  }

  function IndexChecked(g: Gate, id: nat): Gate
    requires id in g.calls && g.calls[id].phase.Indexed? && g.calls[id].phase.reading.cache in g.caches
  {
    var r := g.calls[id].phase.reading;
    if IndexAccepted(g.versions, r.index.version) then
      Put(g, id, Counted(r, |g.log|)).(versions := g.versions.(index := Some(r.index.version)),
                                       log := g.log + [IndexVersion(g.caches[r.cache].net, r.index.version)])
    else Put(g, id, Denied("auth index rollback"))
  }

  function WhitelistChecked(g: Gate, id: nat): Gate
    requires id in g.calls && g.calls[id].phase.Listed? && g.calls[id].phase.reading.cache in g.caches
  {
    var call := g.calls[id];
    var net := g.caches[call.phase.reading.cache].net;
    var version := call.phase.whitelist.version;
    if WhitelistAccepted(g.versions, call.service, version) then
      var whitelists := g.versions.whitelists[call.service := version];
      Put(g, id, Verdict(call, |g.log|)).(versions := g.versions.(whitelists := whitelists),
                                          log := g.log + [WhitelistVersion(net, call.service, version)])
    else Put(g, id, Denied("whitelist rollback"))
  }

  // ---- refreshes ----

  // A refresh result replaces the cached document unless it is a rollback or a conflict.
  function Refreshed<K, D(==)>(m: map<K, D>, key: K, version: D -> nat, choice: Choice<D>): map<K, D> {
    match choice
    case Conflict => m
    case Chosen(None) => m - {key}
    case Chosen(Some(v)) =>
      if key in m && (v.version < version(m[key]) || (v.version == version(m[key]) && v.doc != m[key])) then m
      else m[key := v.doc]
  }

  function IndexRefreshed(crypto: Crypto, c: Caches, key: string, records: seq<Bytes>, now: nat): Caches {
    c.(index := Refreshed(c.index, key, (d: IndexDoc) => d.version, Select(IndexCheck(crypto, c.net, now), records)))
  }

  function EntryOf(k: WhitelistKey): ServiceEntry {
    ServiceEntry(k.service, k.hash, k.length)
  }

  function WhitelistRefreshed(crypto: Crypto, c: Caches, k: WhitelistKey, records: seq<Bytes>): Caches {
    c.(whitelist := Refreshed(c.whitelist, k, (d: WhitelistDoc) => d.version,
                              Select(WhitelistCheck(crypto, c.net, k.service, EntryOf(k)), records)))
  }

  // ---- reload ----

  // New caches unless the trust domain stays and has some.
  function Swapped(g: Gate, made: nat): Gate
    requires g.reload.Swapping?
  {
    var r := g.reload;
    var h := g.(reload := Setting(r.next));
    if !r.next.Active? then h.(current := None)
    else if r.same && g.current.Some? then h
    else h.(current := Some(made), caches := g.caches[made := Caches(r.next.net, map[], map[])])
  }

  ghost function Next(crypto: Crypto, g: Gate, s: Step): Gate
    requires Enabled(g, s)
  {
    match s
    case Begin(id, peer, service) => g.(calls := g.calls[id := Call(peer, service, Started)])
    case ReadState(id, required) => Put(g, id, AfterState(g.state, required, g.epoch))
    case TakeCaches(id) =>
      var p := g.calls[id].phase;
      if g.current.None? then Put(g, id, Denied("auth caches unavailable"))
      else Put(g, id, Holding(p.net, g.current.value, p.epoch == g.epoch))
    case ReadIndex(id, now) => Put(g, id, AfterIndex(g.caches[g.calls[id].phase.cache], g.calls[id].phase, now))
    case CheckIndex(id) => IndexChecked(g, id)
    case ReadWhitelist(id) =>
      Put(g, id, AfterCount(g.caches[g.calls[id].phase.reading.cache], g.calls[id].service, g.calls[id].phase))
    case CheckWhitelist(id) => WhitelistChecked(g, id)
    case QueryFails(id, reason) => Put(g, id, Denied(reason))
    case StoreIndex(c, key, records, now) =>
        g.(caches := g.caches[c := IndexRefreshed(crypto, g.caches[c], key, records, now)])
    case StoreWhitelist(c, k, records) =>
        g.(caches := g.caches[c := WhitelistRefreshed(crypto, g.caches[c], k, records)])
    case DropIndex(c, key) => g.(caches := g.caches[c := g.caches[c].(index := g.caches[c].index - {key})])
    case DropWhitelist(c, k) => g.(caches := g.caches[c := g.caches[c].(whitelist := g.caches[c].whitelist - {k})])
    case BeginReload(next) => g.(reload := Clearing(next, SameTrustDomain(g.state, next)), epoch := g.epoch + 1)
    case ClearVersions =>
      if g.reload.same then g.(reload := Swapping(g.reload.next, true))
      else g.(reload := Swapping(g.reload.next, false), versions := NO_VERSIONS, log := g.log + [Cleared])
    case SwapCaches(made) => Swapped(g, made)
    case EndReload => g.(reload := Idle, state := g.reload.next)
  }

  // `new`: caches exist exactly when the initial state is active.
  function Initial(state: State): Gate {
    var caches := if state.Active? then map[0 := Caches(state.net, map[], map[])] else map[];
    Gate(state, Idle, 0, caches, if state.Active? then Some(0) else None, NO_VERSIONS, [], map[])
  }
}
