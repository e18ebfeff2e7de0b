/** Every Allow is backed by verified records, in every interleaving of calls,
    refreshes and reloads, and accepted versions never go back. */
module AuthGateRuns {
  import opened Names
  import opened Options
  import opened AuthRecords
  import opened AuthGate

  // ---- accepted versions ----

  // The version table as the accepted versions and clears alone determine it.
  function Replay(log: seq<Accept>): Versions {
    if log == [] then NO_VERSIONS else
      var v := Replay(log[..|log| - 1]);
      match log[|log| - 1]
      case Cleared => NO_VERSIONS
      case IndexVersion(_, n) => v.(index := Some(n))
      case WhitelistVersion(_, x, n) => v.(whitelists := v.whitelists[x := n])
  }

  ghost predicate Allowed(v: Versions, a: Accept) {
    match a
    case Cleared => true
    case IndexVersion(_, n) => IndexAccepted(v, n)
    case WhitelistVersion(_, x, n) => WhitelistAccepted(v, x, n)
  }

  ghost predicate LogOk(log: seq<Accept>) {
    forall k :: 0 <= k < |log| ==> Allowed(Replay(log[..k]), log[k])
  }

  lemma LogAppend(log: seq<Accept>, a: Accept)
    requires LogOk(log) && Allowed(Replay(log), a)
    ensures LogOk(log + [a])
    ensures Replay(log + [a]) == match a
                                 case Cleared => NO_VERSIONS
                                 case IndexVersion(_, n) => Replay(log).(index := Some(n))
                                 case WhitelistVersion(_, x, n) =>
                                     Replay(log).(whitelists := Replay(log).whitelists[x := n])
  {
    var l := log + [a];
    assert l[..|log|] == log;
    forall k | 0 <= k < |l| ensures Allowed(Replay(l[..k]), l[k]) {
      if k < |log| {
        assert l[..k] == log[..k];
      }
    }
  }

  // Two acceptances about the same document kind.
  predicate Alike(a: Accept, b: Accept) {
    (a.IndexVersion? && b.IndexVersion?) || (a.WhitelistVersion? && b.WhitelistVersion? && a.service == b.service)
  }

  ghost predicate AtLeast(v: Versions, a: Accept) {
    match a
    case Cleared => true
    case IndexVersion(_, n) => v.index.Some? && n <= v.index.value
    case WhitelistVersion(_, x, n) => x in v.whitelists && n <= v.whitelists[x]
  }

  lemma {:induction false} ReplayHolds(log: seq<Accept>, j: nat, k: nat)
    requires LogOk(log) && j < k <= |log| && forall i :: j < i < k ==> !log[i].Cleared?
    ensures AtLeast(Replay(log[..k]), log[j])
    decreases k
  {
    assert log[..k][..k - 1] == log[..k - 1];
    if j < k - 1 {
      ReplayHolds(log, j, k - 1);
      assert Allowed(Replay(log[..k - 1]), log[k - 1]);
    }
  }

  /** No rollback: between two clears, a version accepted later is never lower. */
  lemma VersionsNeverGoBack(log: seq<Accept>, j: nat, k: nat)
    requires LogOk(log) && j < k < |log| && Alike(log[j], log[k]) && forall i :: j < i < k ==> !log[i].Cleared?
    ensures log[j].version <= log[k].version
  {
    ReplayHolds(log, j, k);
    assert Allowed(Replay(log[..k]), log[k]);
  }

  // ---- evidence ----

  ghost predicate IndexVerified(crypto: Crypto, net: Network, doc: IndexDoc) {
    exists value :: SignedIndex(crypto, net, value, doc)
  }

  ghost predicate WhitelistVerified(crypto: Crypto, net: Network, entry: ServiceEntry, doc: WhitelistDoc) {
    exists value :: && |value| == entry.length && crypto.hash(value) == entry.hash
                    && SignedWhitelist(crypto, net, entry.name, value, doc)
  }

  ghost predicate CachesOk(crypto: Crypto, c: Caches) {
    && (forall k :: k in c.index ==> IndexVerified(crypto, c.net, c.index[k]))
    && (forall k :: k in c.whitelist ==> WhitelistVerified(crypto, c.net, EntryOf(k), c.whitelist[k]))
  }

  /** A reading stands for an index verified under the network of the caches it came from, unexpired
      when checked; without a reload in between that is the network of the state. */
  ghost predicate ReadingOk(crypto: Crypto, caches: map<nat, Caches>, r: Reading) {
    && r.cache in caches && IndexVerified(crypto, caches[r.cache].net, r.index) && r.at <= r.index.expiresAt
    && (r.steady ==> caches[r.cache].net == r.net)
  }

  ghost predicate Logged(log: seq<Accept>, pos: nat, a: Accept) {
    pos < |log| && log[pos] == a
  }

  ghost predicate Accepted(log: seq<Accept>, caches: map<nat, Caches>, pos: nat, r: Reading) {
    r.cache in caches && Logged(log, pos, IndexVersion(caches[r.cache].net, r.index.version))
  }

  ghost predicate EntryOk(crypto: Crypto, caches: map<nat, Caches>, r: Reading, service: Name, entry: ServiceEntry,
      doc: WhitelistDoc) {
    && r.cache in caches && FindEntry(r.index.services, service) == Some(entry)
    && WhitelistVerified(crypto, caches[r.cache].net, entry, doc)
  }

  ghost predicate BasisOk(crypto: Crypto, caches: map<nat, Caches>, log: seq<Accept>, call: Call, decision: Decision,
      basis: Basis) {
    match basis
    case Off => decision == Allow
    case NotRequired => decision == Allow
    case Refused => decision.Deny?
    case Unlisted(r, i) =>
      && decision == AllowUnprotected && ReadingOk(crypto, caches, r) && Accepted(log, caches, i, r)
      && FindEntry(r.index.services, call.service) == None
    case Proven(r, i, entry, doc, j) =>
      && decision == Allow && ReadingOk(crypto, caches, r) && Accepted(log, caches, i, r)
      && EntryOk(crypto, caches, r, call.service, entry, doc)
      && Logged(log, j, WhitelistVersion(caches[r.cache].net, call.service, doc.version)) && i < j
      && call.peer in doc.members
  }

  ghost predicate CallOk(crypto: Crypto, g: Gate, call: Call) {
    var caches := g.caches;
    match call.phase
    case Started => true
    case Resolved(net, epoch) => epoch <= g.epoch && (epoch == g.epoch ==> g.reload.Idle? && g.state == Active(net))
    case Holding(net, c, steady) => c in caches && (steady ==> caches[c].net == net)
    case Indexed(r) => ReadingOk(crypto, caches, r)
    case Counted(r, i) => ReadingOk(crypto, caches, r) && Accepted(g.log, caches, i, r)
    case Listed(r, i, entry, doc) =>
      && ReadingOk(crypto, caches, r) && Accepted(g.log, caches, i, r)
      && EntryOk(crypto, caches, r, call.service, entry, doc)
    case Finished(decision, basis) => BasisOk(crypto, caches, g.log, call, decision, basis)
  }

  // The current caches belong to the state, or to the one a reload is about to set.
  ghost predicate DomainOk(g: Gate) {
    && (g.current.Some? ==> g.current.value in g.caches)
    && match g.reload
       case Idle => Serves(g, g.state)
       case Clearing(next, same) => Serves(g, g.state) && same == SameTrustDomain(g.state, next)
       case Swapping(next, same) => Serves(g, g.state) && same == SameTrustDomain(g.state, next)
       case Setting(next) => Serves(g, next)
  }

  ghost predicate Serves(g: Gate, state: State) {
    if state.Active? then g.current.Some? && g.current.value in g.caches && g.caches[g.current.value].net == state.net
    else g.current.None?
  }

  ghost predicate Inv(crypto: Crypto, g: Gate) {
    && (forall c :: c in g.caches ==> CachesOk(crypto, g.caches[c]))
    && DomainOk(g)
    && g.versions == Replay(g.log) && LogOk(g.log)
    && forall id :: id in g.calls ==> CallOk(crypto, g, g.calls[id])
  }

  // ---- caches hold only verified documents ----

  lemma IndexRefreshOk(crypto: Crypto, c: Caches, key: string, records: seq<Bytes>, now: nat)
    requires CachesOk(crypto, c)
    ensures CachesOk(crypto, IndexRefreshed(crypto, c, key, records, now))
  {
    var check := IndexCheck(crypto, c.net, now);
    SelectMeans(check, records);
    if Select(check, records).Chosen? && Select(check, records).best.Some? {
      var v := Select(check, records).best.value;
      var value :| value in records && check(value) == Some(v);
      VerifyIndexIff(crypto, c.net, value, now, v.doc);
      assert IndexVerified(crypto, c.net, v.doc);
    }
    hide Select, VerifyIndex, IndexVerified, WhitelistVerified;
  }

  lemma WhitelistRefreshOk(crypto: Crypto, c: Caches, k: WhitelistKey, records: seq<Bytes>)
    requires CachesOk(crypto, c)
    ensures CachesOk(crypto, WhitelistRefreshed(crypto, c, k, records))
  {
    var check := WhitelistCheck(crypto, c.net, k.service, EntryOf(k));
    SelectMeans(check, records);
    if Select(check, records).Chosen? && Select(check, records).best.Some? {
      var v := Select(check, records).best.value;
      var value :| value in records && check(value) == Some(v);
      VerifyWhitelistIff(crypto, c.net, k.service, value, EntryOf(k), v.doc);
      assert WhitelistVerified(crypto, c.net, EntryOf(k), v.doc);
    }
    hide Select, VerifyWhitelist, IndexVerified, WhitelistVerified;
  }

  lemma {:induction false} FindEntryFinds(services: seq<ServiceEntry>, service: Name)
    ensures match FindEntry(services, service)
            case Some(e) => e in services && e.name == service
            case None => forall i :: 0 <= i < |services| ==> services[i].name != service
  {
    if services != [] && services[0].name != service {
      FindEntryFinds(services[1..], service);
      assert services == [services[0]] + services[1..];
    }
  }

  // ---- steps ----

  // Nothing that a call's standing depends on is lost: networks, log, and the state within an epoch.
  ghost predicate Extends(g: Gate, h: Gate) {
    && (forall c :: c in g.caches ==> c in h.caches && h.caches[c].net == g.caches[c].net)
    && g.log <= h.log && g.epoch <= h.epoch
    && (h.epoch == g.epoch && g.reload.Idle? ==> h.reload.Idle? && h.state == g.state)
  }

  lemma CallFrame(crypto: Crypto, g: Gate, h: Gate, call: Call)
    requires CallOk(crypto, g, call) && Extends(g, h)
    ensures CallOk(crypto, h, call)
  {
    hide IndexVerified, WhitelistVerified, FindEntry;
  }

  lemma StepExtends(crypto: Crypto, g: Gate, s: Step)
    requires Enabled(g, s)
    ensures Extends(g, Next(crypto, g, s))
  {
    hide Select, Refreshed, FindEntry;
  }

  lemma CachesKept(crypto: Crypto, g: Gate, s: Step)
    requires Enabled(g, s) && forall c :: c in g.caches ==> CachesOk(crypto, g.caches[c])
    ensures forall c :: c in Next(crypto, g, s).caches ==> CachesOk(crypto, Next(crypto, g, s).caches[c])
  {
    hide IndexVerified, WhitelistVerified, IndexRefreshed, WhitelistRefreshed, FindEntry;
    match s
    case StoreIndex(c, key, records, now) => IndexRefreshOk(crypto, g.caches[c], key, records, now);
    case StoreWhitelist(c, k, records) => WhitelistRefreshOk(crypto, g.caches[c], k, records);
    case _ =>
  }

  lemma DomainKept(crypto: Crypto, g: Gate, s: Step)
    requires Enabled(g, s) && DomainOk(g)
    ensures DomainOk(Next(crypto, g, s))
  {
    hide Select, Refreshed, FindEntry;
  }

  lemma LogKept(crypto: Crypto, g: Gate, s: Step)
    requires Enabled(g, s) && g.versions == Replay(g.log) && LogOk(g.log)
    ensures var h := Next(crypto, g, s); h.versions == Replay(h.log) && LogOk(h.log)
  {
    hide Replay, LogOk, IndexRefreshed, WhitelistRefreshed, FindEntry;
    match s
    case CheckIndex(id) =>
      var n := g.calls[id].phase.reading.index.version;
      if IndexAccepted(g.versions, n) {
        LogAppend(g.log, IndexVersion(g.caches[g.calls[id].phase.reading.cache].net, n));
      }
    case CheckWhitelist(id) =>
      var n := g.calls[id].phase.whitelist.version;
      if WhitelistAccepted(g.versions, g.calls[id].service, n) {
        LogAppend(g.log, WhitelistVersion(g.caches[g.calls[id].phase.reading.cache].net, g.calls[id].service, n));
      }
    case ClearVersions => LogAppend(g.log, Cleared);
    case _ =>
  }

  // ---- a call's own steps ----

  lemma StateRead(crypto: Crypto, g: Gate, id: nat, required: bool)
    requires Enabled(g, ReadState(id, required))
    ensures var h := Next(crypto, g, ReadState(id, required)); CallOk(crypto, h, h.calls[id])
  {
    hide IndexVerified, WhitelistVerified, FindEntry;
  }

  lemma CachesTaken(crypto: Crypto, g: Gate, id: nat)
    requires Enabled(g, TakeCaches(id))
    requires CallOk(crypto, g, g.calls[id]) && DomainOk(g)
    ensures var h := Next(crypto, g, TakeCaches(id)); CallOk(crypto, h, h.calls[id])
  {
    hide IndexVerified, WhitelistVerified, FindEntry, Replay, LogOk, CachesOk;
  }

  lemma IndexRead(crypto: Crypto, g: Gate, id: nat, now: nat)
    requires Enabled(g, ReadIndex(id, now))
    requires CallOk(crypto, g, g.calls[id]) && CachesOk(crypto, g.caches[g.calls[id].phase.cache])
    ensures var h := Next(crypto, g, ReadIndex(id, now)); CallOk(crypto, h, h.calls[id])
  {
    hide IndexVerified, WhitelistVerified, FindEntry, Replay, LogOk;
  }

  lemma IndexCounted(crypto: Crypto, g: Gate, id: nat)
    requires Enabled(g, CheckIndex(id))
    requires CallOk(crypto, g, g.calls[id])
    ensures var h := Next(crypto, g, CheckIndex(id)); CallOk(crypto, h, h.calls[id])
  {
    hide IndexVerified, WhitelistVerified, FindEntry, Replay, LogOk, CachesOk;
  }

  lemma WhitelistRead(crypto: Crypto, g: Gate, id: nat)
    requires Enabled(g, ReadWhitelist(id))
    requires CallOk(crypto, g, g.calls[id]) && CachesOk(crypto, g.caches[g.calls[id].phase.reading.cache])
    ensures var h := Next(crypto, g, ReadWhitelist(id)); CallOk(crypto, h, h.calls[id])
  {
    hide IndexVerified, WhitelistVerified, FindEntry, Replay, LogOk;
    var call := g.calls[id];
    FindEntryFinds(call.phase.reading.index.services, call.service);
    match FindEntry(call.phase.reading.index.services, call.service)
    case None =>
    case Some(e) => assert EntryOf(KeyFor(call.service, e, call.phase.reading.index)) == e;
  }

  lemma WhitelistCounted(crypto: Crypto, g: Gate, id: nat)
    requires Enabled(g, CheckWhitelist(id))
    requires CallOk(crypto, g, g.calls[id])
    ensures var h := Next(crypto, g, CheckWhitelist(id)); CallOk(crypto, h, h.calls[id])
  {
    hide IndexVerified, WhitelistVerified, FindEntry, Replay, LogOk, CachesOk;
  }

  lemma QueryFailed(crypto: Crypto, g: Gate, id: nat, reason: string)
    requires Enabled(g, QueryFails(id, reason))
    ensures var h := Next(crypto, g, QueryFails(id, reason)); CallOk(crypto, h, h.calls[id])
  {
    hide IndexVerified, WhitelistVerified, FindEntry;
  }

  predicate CallStep(s: Step) {
    s.ReadState? || s.TakeCaches? || s.ReadIndex? || s.CheckIndex? || s.ReadWhitelist? || s.CheckWhitelist?
        || s.QueryFails?
  }

  lemma OwnStep(crypto: Crypto, g: Gate, s: Step)
    requires Inv(crypto, g) && Enabled(g, s) && CallStep(s)
    ensures var h := Next(crypto, g, s); s.id in h.calls && CallOk(crypto, h, h.calls[s.id])
  {
    assert CallOk(crypto, g, g.calls[s.id]);
    hide CachesOk, DomainOk, CallOk, Replay, LogOk, FindEntry, IndexRefreshed, WhitelistRefreshed;
    match s
    case ReadState(id, required) => StateRead(crypto, g, id, required);
    case TakeCaches(id) => CachesTaken(crypto, g, id);
    case ReadIndex(id, now) => IndexRead(crypto, g, id, now);
    case CheckIndex(id) => IndexCounted(crypto, g, id);
    case ReadWhitelist(id) => WhitelistRead(crypto, g, id);
    case CheckWhitelist(id) => WhitelistCounted(crypto, g, id);
    case QueryFails(id, reason) => QueryFailed(crypto, g, id, reason);
  }

  // Only its own steps change a call.
  lemma OthersUnchanged(crypto: Crypto, g: Gate, s: Step, id: nat)
    requires Enabled(g, s) && id in Next(crypto, g, s).calls && !(CallStep(s) && s.id == id)
    ensures if s.Begin? && s.id == id then Next(crypto, g, s).calls[id].phase == Started
            else id in g.calls && Next(crypto, g, s).calls[id] == g.calls[id]
  {
    hide IndexRefreshed, WhitelistRefreshed, FindEntry;
  }

  lemma StepKeeps(crypto: Crypto, g: Gate, s: Step)
    requires Inv(crypto, g) && Enabled(g, s)
    ensures Inv(crypto, Next(crypto, g, s))
  {
    var h := Next(crypto, g, s);
    CachesKept(crypto, g, s);
    DomainKept(crypto, g, s);
    LogKept(crypto, g, s);
    StepExtends(crypto, g, s);
    hide CachesOk, DomainOk, Replay, LogOk, Extends, Next;
    forall id | id in h.calls ensures CallOk(crypto, h, h.calls[id]) {
      if CallStep(s) && s.id == id {
        OwnStep(crypto, g, s);
      } else {
        OthersUnchanged(crypto, g, s, id);
        if !(s.Begin? && s.id == id) {
          CallFrame(crypto, g, h, g.calls[id]);
        }
      }
    }
    hide CallOk;
  }

  // ---- runs ----

  function Init(ss: seq<Step>): seq<Step>
    requires ss != []
  {
    ss[..|ss| - 1]
  }

  function Last(ss: seq<Step>): Step
    requires ss != []
  {
    ss[|ss| - 1]
  }

  ghost function Exec(crypto: Crypto, state: State, ss: seq<Step>): Gate
    requires Run(crypto, state, ss)
    decreases |ss|, 1
  {
    if ss == [] then Initial(state) else Next(crypto, Exec(crypto, state, Init(ss)), Last(ss))
  }

  ghost predicate Run(crypto: Crypto, state: State, ss: seq<Step>)
    decreases |ss|, 0
  {
    ss != [] ==> Run(crypto, state, Init(ss)) && Enabled(Exec(crypto, state, Init(ss)), Last(ss))
  }

  lemma {:induction false} RunKeepsInvariant(crypto: Crypto, state: State, ss: seq<Step>)
    requires Run(crypto, state, ss)
    ensures Inv(crypto, Exec(crypto, state, ss))
    decreases |ss|
  {
    if ss != [] {
      hide Inv, Next, Enabled;
      RunKeepsInvariant(crypto, state, Init(ss));
      StepKeeps(crypto, Exec(crypto, state, Init(ss)), Last(ss));
    }
  }

  // ---- what a call that needs authorization gets ----

  lemma WaiverStep(crypto: Crypto, g: Gate, s: Step, id: nat)
    requires Enabled(g, s) && id in Next(crypto, g, s).calls
    requires var p := Next(crypto, g, s).calls[id].phase; p.Finished? && (p.basis == Off || p.basis == NotRequired)
    ensures (id in g.calls && g.calls[id] == Next(crypto, g, s).calls[id]) ||
            (s.ReadState? && s.id == id && g.reload.Idle? && (g.state == Disabled || (g.state.Active? && !s.required)))
  {
    hide IndexRefreshed, WhitelistRefreshed, FindEntry;
  }

  // The run's state read for call `id` found the state active and the service in need of authorization.
  ghost predicate Protected(crypto: Crypto, state: State, ss: seq<Step>, id: nat)
    requires Run(crypto, state, ss)
    decreases |ss|
  {
    ss != [] && (Protected(crypto, state, Init(ss), id) ||
                 (Last(ss) == ReadState(id, true) && Exec(crypto, state, Init(ss)).state.Active?))
  }

  // A call past its state read, and not waived.
  predicate Unwaived(p: Phase) {
    !p.Started? && !(p.Finished? && (p.basis == Off || p.basis == NotRequired))
  }

  lemma UnwaivedKept(crypto: Crypto, g: Gate, s: Step, id: nat)
    requires Enabled(g, s) && id in g.calls
    requires Unwaived(g.calls[id].phase) || (s == ReadState(id, true) && g.state.Active?)
    ensures id in Next(crypto, g, s).calls && Unwaived(Next(crypto, g, s).calls[id].phase)
  {
    hide IndexRefreshed, WhitelistRefreshed, FindEntry;
  }

  lemma {:induction false} ProtectedIsUnwaived(crypto: Crypto, state: State, ss: seq<Step>, id: nat)
    requires Run(crypto, state, ss) && Protected(crypto, state, ss, id)
    ensures id in Exec(crypto, state, ss).calls && Unwaived(Exec(crypto, state, ss).calls[id].phase)
    decreases |ss|
  {
    if Protected(crypto, state, Init(ss), id) {
      ProtectedIsUnwaived(crypto, state, Init(ss), id);
    }
    hide Next;
    UnwaivedKept(crypto, Exec(crypto, state, Init(ss)), Last(ss), id);
  }

  // The run's state read for call `id` found authorization off, or not required for the service.
  ghost predicate Waived(crypto: Crypto, state: State, ss: seq<Step>, id: nat)
    requires Run(crypto, state, ss)
    decreases |ss|
  {
    ss != [] && (Waived(crypto, state, Init(ss), id) ||
                 (Last(ss).ReadState? && Last(ss).id == id &&
                  var found := Exec(crypto, state, Init(ss)).state;
                  found == Disabled || (found.Active? && !Last(ss).required)))
  }

  /** Allow without evidence comes only from a state read that found authorization off or not required. */
  lemma {:induction false} WaiversComeFromTheState(crypto: Crypto, state: State, ss: seq<Step>, id: nat)
    requires Run(crypto, state, ss) && id in Exec(crypto, state, ss).calls
    requires var p := Exec(crypto, state, ss).calls[id].phase; p.Finished? && (p.basis == Off || p.basis == NotRequired)
    ensures Waived(crypto, state, ss, id)
    decreases |ss|
  {
    var g, s := Exec(crypto, state, Init(ss)), Last(ss);
    WaiverStep(crypto, g, s, id);
    hide Next, Enabled;
    if id in g.calls && g.calls[id] == Exec(crypto, state, ss).calls[id] {
      WaiversComeFromTheState(crypto, state, Init(ss), id);
    }
  }

  // The evidence behind an Allow.
  ghost predicate Evidence(crypto: Crypto, g: Gate, call: Call, b: Basis) {
    && b.Proven? && b.reading.cache in g.caches
    && var net := g.caches[b.reading.cache].net;
    && (exists value :: SignedIndex(crypto, net, value, b.reading.index))
    && b.reading.at <= b.reading.index.expiresAt
    && FindEntry(b.reading.index.services, call.service) == Some(b.entry)
    && (exists value :: && |value| == b.entry.length && crypto.hash(value) == b.entry.hash
                        && SignedWhitelist(crypto, net, call.service, value, b.whitelist))
    && call.peer in b.whitelist.members
    && Logged(g.log, b.indexPos, IndexVersion(net, b.reading.index.version))
    && Logged(g.log, b.listPos, WhitelistVersion(net, call.service, b.whitelist.version))
    && LogOk(g.log)
    && (b.reading.steady ==> net == b.reading.net)
  }

  /** A call whose state read found authorization active and required ends in Allow only with evidence:
      an index that verifies under the network of the caches used, unexpired when checked, lists the
      service first with an entry whose length and hash a whitelist record verified under the service's
      key has, and that whitelist names the peer. Both versions were accepted, so neither is below any
      other accepted since the last clear. The network is the state's unless a reload began meanwhile. */
  lemma AllowIsBacked(crypto: Crypto, state: State, ss: seq<Step>, id: nat)
    requires Run(crypto, state, ss) && Protected(crypto, state, ss, id)
    ensures var g := Exec(crypto, state, ss);
            && id in g.calls
            && (g.calls[id].phase.Finished? && g.calls[id].phase.decision == Allow ==>
                  Evidence(crypto, g, g.calls[id], g.calls[id].phase.basis))
  {
    ProtectedIsUnwaived(crypto, state, ss, id);
    RunKeepsInvariant(crypto, state, ss);
    var g := Exec(crypto, state, ss);
    var call := g.calls[id];
    assert CallOk(crypto, g, call);
    hide Exec, Protected, LogOk, Replay, DomainOk;
    if call.phase.Finished? && call.phase.decision == Allow {
      ProvenIsEvidence(crypto, g, call);
    }
  }

  lemma ProvenIsEvidence(crypto: Crypto, g: Gate, call: Call)
    requires CallOk(crypto, g, call) && LogOk(g.log)
    requires call.phase.Finished? && call.phase.decision == Allow && Unwaived(call.phase)
    ensures Evidence(crypto, g, call, call.phase.basis)
  {
    var b := call.phase.basis;
    FindEntryFinds(b.reading.index.services, call.service);
    hide LogOk, FindEntry, SignedIndex, SignedWhitelist;
    assert WhitelistVerified(crypto, g.caches[b.reading.cache].net, b.entry, b.whitelist);
  }

  /** A request let through as unprotected rests on a verified, unexpired and accepted index that
      does not list the service. */
  lemma UnprotectedIsUnlisted(crypto: Crypto, state: State, ss: seq<Step>, id: nat)
    requires Run(crypto, state, ss) && id in Exec(crypto, state, ss).calls
    requires var p := Exec(crypto, state, ss).calls[id].phase; p.Finished? && p.decision == AllowUnprotected
    ensures var g := Exec(crypto, state, ss); var call := g.calls[id]; var b := call.phase.basis;
            && b.Unlisted? && b.reading.cache in g.caches && b.reading.at <= b.reading.index.expiresAt
            && (exists value :: SignedIndex(crypto, g.caches[b.reading.cache].net, value, b.reading.index))
            && (b.reading.steady ==> g.caches[b.reading.cache].net == b.reading.net)
            && (forall i :: 0 <= i < |b.reading.index.services| ==> b.reading.index.services[i].name != call.service)
            && Accepted(g.log, g.caches, b.indexPos, b.reading) && LogOk(g.log)
  {
    RunKeepsInvariant(crypto, state, ss);
    var g := Exec(crypto, state, ss);
    var call := g.calls[id];
    assert CallOk(crypto, g, call);
    FindEntryFinds(call.phase.basis.reading.index.services, call.service);
    hide Exec, FindEntry, LogOk, Replay, SignedIndex;
  }
}
