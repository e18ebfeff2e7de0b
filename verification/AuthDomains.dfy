/** Version history across trust domains. A reload to another domain clears the
    history, but a call still holding caches of the old domain may record a
    version of it afterwards. A recorded version is foreign exactly when the caches
    were of another domain than the history's when the call took them. */
module AuthDomains {
  import opened Names
  import opened Options
  import opened AuthRecords
  import opened AuthGate
  import opened AuthGateRuns

  // The trust domain the version table is kept for: the next one once a reload has cleared it.
  function Domain(g: Gate): Option<Network> {
    var state := if g.reload.Swapping? || g.reload.Setting? then g.reload.next else g.state;
    if state.Active? then Some(state.net) else None
  }

  // Every version accepted since the last clear was of domain `d`.
  ghost predicate Own(log: seq<Accept>, d: Option<Network>) {
    log != [] ==>
      var a := log[|log| - 1];
      a.Cleared? || (Some(a.net) == d && Own(log[..|log| - 1], d))
  }

  /** What it means for single entries. */
  lemma {:induction false} OwnEntries(log: seq<Accept>, d: Option<Network>, k: nat)
    requires Own(log, d) && k < |log| && forall i :: k <= i < |log| ==> !log[i].Cleared?
    ensures Some(log[k].net) == d
    decreases |log|
  {
    if k < |log| - 1 {
      OwnEntries(log[..|log| - 1], d, k);
    }
  }

  // The network a step's accepted version was verified under, if it accepts one.
  ghost function AcceptedFrom(g: Gate, s: Step): Option<Network>
    requires Enabled(g, s)
  {
    match s
    case CheckIndex(id) =>
      var r := g.calls[id].phase.reading;
      if IndexAccepted(g.versions, r.index.version) then Some(g.caches[r.cache].net) else None
    case CheckWhitelist(id) =>
      var p := g.calls[id].phase;
      if WhitelistAccepted(g.versions, g.calls[id].service, p.whitelist.version)
      then Some(g.caches[p.reading.cache].net) else None
    case _ => None
  }

  ghost predicate Foreign(g: Gate, s: Step)
    requires Enabled(g, s)
  {
    AcceptedFrom(g, s).Some? && AcceptedFrom(g, s) != Domain(g)
  }

  ghost predicate Clears(g: Gate, s: Step) {
    s.ClearVersions? && g.reload.Clearing? && !g.reload.same
  }

  lemma StepDomain(crypto: Crypto, g: Gate, s: Step)
    requires DomainOk(g) && Enabled(g, s)
    ensures Clears(g, s) || Domain(Next(crypto, g, s)) == Domain(g)
  {
    hide Select, Refreshed, FindEntry;
  }

  lemma StepLog(crypto: Crypto, g: Gate, s: Step)
    requires Enabled(g, s)
    ensures var log := Next(crypto, g, s).log;
            if Clears(g, s) then log == g.log + [Cleared]
            else if AcceptedFrom(g, s).None? then log == g.log
            else exists a :: log == g.log + [a] && !a.Cleared? && Some(a.net) == AcceptedFrom(g, s)
  {
    hide Select, Refreshed, FindEntry;
  }

  lemma OwnAppend(log: seq<Accept>, a: Accept, d: Option<Network>)
    ensures Own(log + [a], d) <==> a.Cleared? || (Some(a.net) == d && Own(log, d))
  {
    assert (log + [a])[..|log|] == log;
  }

  /** One step keeps the history pure exactly when it is not such an acceptance; a clear makes it pure. */
  lemma StepIsOwnIff(crypto: Crypto, g: Gate, s: Step)
    requires DomainOk(g) && Enabled(g, s)
    ensures var h := Next(crypto, g, s);
            Own(h.log, Domain(h)) <==> Clears(g, s) || (Own(g.log, Domain(g)) && !Foreign(g, s))
  {
    var h := Next(crypto, g, s);
    StepDomain(crypto, g, s);
    StepLog(crypto, g, s);
    hide Next, Enabled, AcceptedFrom, Own, Domain, Clears, DomainOk;
    if Clears(g, s) {
      OwnAppend(g.log, Cleared, Domain(h));
    } else if AcceptedFrom(g, s).Some? {
      var a :| h.log == g.log + [a] && !a.Cleared? && Some(a.net) == AcceptedFrom(g, s);
      OwnAppend(g.log, a, Domain(h));
    }
  }

  // Since the last clear of the run, some call had a version accepted from another domain's caches.
  ghost predicate Mixed(crypto: Crypto, state: State, ss: seq<Step>)
    requires Run(crypto, state, ss)
    decreases |ss|
  {
    ss != [] &&
    var g := Exec(crypto, state, Init(ss));
    !Clears(g, Last(ss)) && (Mixed(crypto, state, Init(ss)) || Foreign(g, Last(ss)))
  }

  /** In every run the versions accepted since the last clear all belong to the current trust domain
      exactly when no call has had one accepted from the caches of another since. */
  lemma {:induction false} VersionsAreOwnIff(crypto: Crypto, state: State, ss: seq<Step>)
    requires Run(crypto, state, ss)
    ensures var g := Exec(crypto, state, ss); Own(g.log, Domain(g)) <==> !Mixed(crypto, state, ss)
    decreases |ss|
  {
    if ss != [] {
      VersionsAreOwnIff(crypto, state, Init(ss));
      RunKeepsInvariant(crypto, state, Init(ss));
      hide Next, Enabled, Own, Domain, Clears, Foreign, CallOk, LogOk, Replay, CachesOk, DomainOk;
      StepIsOwnIff(crypto, Exec(crypto, state, Init(ss)), Last(ss));
    }
  }

  // The network of the caches that were current at the run's TakeCaches step of call `id`.
  ghost function TakenFrom(crypto: Crypto, state: State, ss: seq<Step>, id: nat): Option<Network>
    requires Run(crypto, state, ss)
    decreases |ss|
  {
    if ss == [] then None else
      var g := Exec(crypto, state, Init(ss));
      if Last(ss) == TakeCaches(id) && g.current.Some? && g.current.value in g.caches
      then Some(g.caches[g.current.value].net) else TakenFrom(crypto, state, Init(ss), id)
  }

  // The caches a call holds.
  function HeldBy(p: Phase): Option<nat> {
    match p
    case Holding(_, c, _) => Some(c)
    case Indexed(r) => Some(r.cache)
    case Counted(r, _) => Some(r.cache)
    case Listed(r, _, _, _) => Some(r.cache)
    case _ => None
  }

  lemma HeldAfter(crypto: Crypto, g: Gate, s: Step, id: nat)
    requires Enabled(g, s) && id in Next(crypto, g, s).calls && HeldBy(Next(crypto, g, s).calls[id].phase).Some?
    ensures id in g.calls
    ensures HeldBy(Next(crypto, g, s).calls[id].phase) ==
            if s == TakeCaches(id) then g.current else HeldBy(g.calls[id].phase)
  {
    hide Select, Refreshed, FindEntry;
  }

  lemma {:induction false} HeldIsTaken(crypto: Crypto, state: State, ss: seq<Step>, id: nat)
    requires Run(crypto, state, ss) && id in Exec(crypto, state, ss).calls
    requires HeldBy(Exec(crypto, state, ss).calls[id].phase).Some?
    ensures var g := Exec(crypto, state, ss); var c := HeldBy(g.calls[id].phase).value;
            c in g.caches && TakenFrom(crypto, state, ss, id) == Some(g.caches[c].net)
    decreases |ss|
  {
    var g, s := Exec(crypto, state, Init(ss)), Last(ss);
    RunKeepsInvariant(crypto, state, Init(ss));
    HeldAfter(crypto, g, s, id);
    StepExtends(crypto, g, s);
    hide Next, Enabled, CallOk, LogOk, Replay, CachesOk;
    if s != TakeCaches(id) {
      HeldIsTaken(crypto, state, Init(ss), id);
    }
  }

  /** In every run a step that has a version accepted leaves a foreign one exactly when the caches current
      at its call's TakeCaches step were of another domain than the one the table is kept for now. */
  lemma ForeignIff(crypto: Crypto, state: State, ss: seq<Step>, s: Step)
    requires Run(crypto, state, ss) && Enabled(Exec(crypto, state, ss), s)
    requires AcceptedFrom(Exec(crypto, state, ss), s).Some?
    ensures (s.CheckIndex? || s.CheckWhitelist?) &&
            (Foreign(Exec(crypto, state, ss), s) <==>
             TakenFrom(crypto, state, ss, s.id) != Domain(Exec(crypto, state, ss)))
  {
    HeldIsTaken(crypto, state, ss, s.id);
    hide Exec, TakenFrom, Domain;
  }

  /** Outside a reload such a call holds caches that are no longer the current ones. */
  lemma ForeignCallsAreStale(crypto: Crypto, state: State, ss: seq<Step>, s: Step)
    requires Run(crypto, state, ss) && Enabled(Exec(crypto, state, ss), s) && Foreign(Exec(crypto, state, ss), s)
    requires Exec(crypto, state, ss).reload.Idle?
    ensures (s.CheckIndex? || s.CheckWhitelist?) &&
            Exec(crypto, state, ss).current != Some(Exec(crypto, state, ss).calls[s.id].phase.reading.cache)
  {
    RunKeepsInvariant(crypto, state, ss);
    hide Exec, CallOk, LogOk, Replay, CachesOk;
  }

  // ---- a run in which it happens ----

  lemma Follow(crypto: Crypto, state: State, ss: seq<Step>, s: Step) returns (longer: seq<Step>, g: Gate)
    requires Run(crypto, state, ss) && Enabled(Exec(crypto, state, ss), s)
    ensures longer == ss + [s] && Run(crypto, state, longer)
    ensures g == Exec(crypto, state, longer) == Next(crypto, Exec(crypto, state, ss), s)
  {
    longer := ss + [s];
    assert Init(longer) == ss;
    hide Next, Enabled;
    g := Exec(crypto, state, longer);
  }

  lemma SelectOne<D>(check: Check<D>, value: Bytes, v: Verified<D>)
    requires check(value) == Some(v)
    ensures Select(check, [value]) == Chosen(Some(v))
  {
    assert [value][..0] == [] && [v][..0] == [];
    assert Passing(check, [value]) == [v];
    assert Pick([v]) == Weigh(None, v);
  }

  // A refresh of empty caches that finds one record, which verifies.
  lemma OnlyRecord(crypto: Crypto, net: Network, value: Bytes, doc: IndexDoc, key: string)
    requires VerifyIndex(crypto, net, value, 0) == Ok(doc)
    ensures IndexRefreshed(crypto, Caches(net, map[], map[]), key, [value], 0) == Caches(net, map[key := doc], map[])
  {
    SelectOne(IndexCheck(crypto, net, 0), value, Verified(doc, doc.version, |value|));
    hide VerifyIndex, Select;
  }

  // A call has come as far as `p`; the rest of the gate is as it was.
  ghost predicate Reaches(g: Gate, h: Gate, id: nat, p: Phase) {
    && h.calls.Keys == g.calls.Keys + {id} && h.calls[id].phase == p
    && (forall i :: i in g.calls && i != id ==> h.calls[i] == g.calls[i])
    && h.state == g.state && h.reload == g.reload && h.current == g.current
    && h.versions == g.versions && h.log == g.log && h.caches.Keys == g.caches.Keys
    && forall c :: c in g.caches ==> h.caches[c].net == g.caches[c].net
  }

  // An idle gate of `net` with empty caches.
  ghost predicate Blank(g: Gate, net: Network, cache: nat) {
    && g.reload.Idle? && g.state == Active(net) && g.current == Some(cache)
    && cache in g.caches && g.caches[cache] == Caches(net, map[], map[])
  }

  lemma TakesCaches(crypto: Crypto, state: State, ss: seq<Step>, id: nat, net: Network, cache: nat)
    returns (longer: seq<Step>)
    requires Run(crypto, state, ss) && Blank(Exec(crypto, state, ss), net, cache)
        && id !in Exec(crypto, state, ss).calls
    ensures Run(crypto, state, longer)
    ensures Reaches(Exec(crypto, state, ss), Exec(crypto, state, longer), id, Holding(net, cache, true))
    ensures Exec(crypto, state, longer).caches == Exec(crypto, state, ss).caches
  {
    hide Run, Exec, IndexRefreshed, WhitelistRefreshed, FindEntry;
    var g: Gate;
    longer, g := Follow(crypto, state, ss, Begin(id, "", ""));
    longer, g := Follow(crypto, state, longer, ReadState(id, true));
    longer, g := Follow(crypto, state, longer, TakeCaches(id));
  }

  lemma ReadsCached(crypto: Crypto, state: State, ss: seq<Step>, id: nat, net: Network, cache: nat, doc: IndexDoc)
    returns (longer: seq<Step>)
    requires Run(crypto, state, ss)
    requires var g := Exec(crypto, state, ss);
             && id in g.calls && g.calls[id].phase == Holding(net, cache, true)
             && cache in g.caches && g.caches[cache].index == map[IndexKey(net) := doc]
    ensures Run(crypto, state, longer)
    ensures Reaches(Exec(crypto, state, ss), Exec(crypto, state, longer), id,
        Indexed(Reading(net, cache, true, doc, 0)))
  {
    hide Run, Exec, IndexRefreshed, WhitelistRefreshed, FindEntry;
    var g: Gate;
    longer, g := Follow(crypto, state, ss, ReadIndex(id, 0));
  }

  lemma ReadsIndex(crypto: Crypto, state: State, ss: seq<Step>, id: nat, net: Network, cache: nat, value: Bytes,
      doc: IndexDoc)
    returns (longer: seq<Step>)
    requires Run(crypto, state, ss) && VerifyIndex(crypto, net, value, 0) == Ok(doc)
    requires Blank(Exec(crypto, state, ss), net, cache) && id !in Exec(crypto, state, ss).calls
    ensures Run(crypto, state, longer)
    ensures Reaches(Exec(crypto, state, ss), Exec(crypto, state, longer), id,
        Indexed(Reading(net, cache, true, doc, 0)))
  {
    var key := IndexKey(net);
    hide Run, Exec, IndexRefreshed, WhitelistRefreshed, VerifyIndex, FindEntry, IndexKey;
    longer := TakesCaches(crypto, state, ss, id, net, cache);
    var g := Exec(crypto, state, longer);
    StoresIndex(crypto, g, cache, net, key, value, doc);
    hide Next, Enabled;
    longer, g := Follow(crypto, state, longer, StoreIndex(cache, key, [value], 0));
    longer := ReadsCached(crypto, state, longer, id, net, cache, doc);
  }

  lemma StoresIndex(crypto: Crypto, g: Gate, cache: nat, net: Network, key: string, value: Bytes, doc: IndexDoc)
    requires cache in g.caches && g.caches[cache] == Caches(net, map[], map[])
    requires VerifyIndex(crypto, net, value, 0) == Ok(doc)
    ensures Enabled(g, StoreIndex(cache, key, [value], 0))
    ensures Next(crypto, g, StoreIndex(cache, key, [value], 0)) ==
            g.(caches := g.caches[cache := Caches(net, map[key := doc], map[])])
  {
    OnlyRecord(crypto, net, value, doc, key);
    hide IndexRefreshed, VerifyIndex;
  }

  // A reload to another domain, of a gate whose first call has read its index.
  lemma ChangesDomain(crypto: Crypto, state: State, ss: seq<Step>, a: Network, b: Network, made: nat, p: Phase)
    returns (longer: seq<Step>)
    requires Run(crypto, state, ss) && a != b
    requires var g := Exec(crypto, state, ss);
             g.reload.Idle? && g.state == Active(a) && made !in g.caches && 0 in g.calls && g.calls[0].phase == p
                 && 1 !in g.calls
    ensures Run(crypto, state, longer)
    ensures var g, h := Exec(crypto, state, ss), Exec(crypto, state, longer);
            && Blank(h, b, made) && h.versions == NO_VERSIONS && h.calls == g.calls
            && forall c :: c in g.caches ==> c in h.caches && h.caches[c] == g.caches[c]
  {
    hide Run, Exec, IndexRefreshed, WhitelistRefreshed, FindEntry;
    var g: Gate;
    longer, g := Follow(crypto, state, ss, BeginReload(Active(b)));
    longer, g := Follow(crypto, state, longer, ClearVersions);
    longer, g := Follow(crypto, state, longer, SwapCaches(made));
    longer, g := Follow(crypto, state, longer, EndReload);
  }

  /** A call reads the index of one domain, the gate is reloaded to another, and then the call has its
      version accepted: the history mixes domains, and the new domain's own index, of a lower version,
      is denied as a rollback. */
  lemma StaleCallLocksOutNewDomain(crypto: Crypto, a: Network, b: Network, before: Bytes, oldDoc: IndexDoc,
                                   after: Bytes, newDoc: IndexDoc)
    returns (mixed: seq<Step>, ss: seq<Step>)
    requires a != b && VerifyIndex(crypto, a, before, 0) == Ok(oldDoc) && VerifyIndex(crypto, b, after, 0) == Ok(newDoc)
    requires newDoc.version < oldDoc.version
    ensures Run(crypto, Active(a), mixed) && Mixed(crypto, Active(a), mixed)
    ensures Run(crypto, Active(a), ss)
    ensures var g := Exec(crypto, Active(a), ss);
            g.state == Active(b) && 1 in g.calls && g.calls[1].phase == Denied("auth index rollback")
  {
    var state := Active(a);
    StartsBlank(crypto, a);
    hide Run, Exec, Next, Enabled, VerifyIndex, Mixed, Initial;
    ss := ReadsIndex(crypto, state, [], 0, a, 0, before, oldDoc);
    ss := ChangesDomain(crypto, state, ss, a, b, 1, Indexed(Reading(a, 0, true, oldDoc, 0)));
    mixed := LateAcceptance(crypto, state, ss, a, b, oldDoc);
    ss := ReadsIndex(crypto, state, mixed, 1, b, 1, after, newDoc);
    ss := Rollback(crypto, state, ss, 1, Reading(b, 1, true, newDoc, 0));
  }

  lemma StartsBlank(crypto: Crypto, a: Network)
    ensures Run(crypto, Active(a), []) && Blank(Exec(crypto, Active(a), []), a, 0)
    ensures var g := Exec(crypto, Active(a), []); g.calls == map[] && g.caches.Keys == {0}
  {
  }

  // The call of the old domain has its version accepted after the reload.
  lemma LateAcceptance(crypto: Crypto, state: State, ss: seq<Step>, a: Network, b: Network, doc: IndexDoc)
    returns (longer: seq<Step>)
    requires Run(crypto, state, ss) && a != b && Blank(Exec(crypto, state, ss), b, 1)
    requires var g := Exec(crypto, state, ss);
             && g.versions == NO_VERSIONS && g.calls.Keys == {0}
                  && g.calls[0].phase == Indexed(Reading(a, 0, true, doc, 0))
             && 0 in g.caches && g.caches[0].net == a
    ensures Run(crypto, state, longer) && Mixed(crypto, state, longer)
    ensures var h := Exec(crypto, state, longer);
            Blank(h, b, 1) && h.versions.index == Some(doc.version) && h.calls.Keys == {0}
  {
    hide Run, Exec, Mixed, IndexRefreshed, WhitelistRefreshed, FindEntry;
    var g: Gate;
    longer, g := Follow(crypto, state, ss, CheckIndex(0));
    MixedNow(crypto, state, ss, CheckIndex(0));
  }

  lemma Rollback(crypto: Crypto, state: State, ss: seq<Step>, id: nat, r: Reading) returns (longer: seq<Step>)
    requires Run(crypto, state, ss)
    requires var g := Exec(crypto, state, ss);
             && id in g.calls && g.calls[id].phase == Indexed(r) && r.cache in g.caches
             && g.versions.index.Some? && r.index.version < g.versions.index.value
    ensures Run(crypto, state, longer) && Exec(crypto, state, longer).state == Exec(crypto, state, ss).state
    ensures var h := Exec(crypto, state, longer); id in h.calls && h.calls[id].phase == Denied("auth index rollback")
  {
    hide Run, Exec, IndexRefreshed, WhitelistRefreshed, FindEntry;
    var g: Gate;
    longer, g := Follow(crypto, state, ss, CheckIndex(id));
  }

  lemma MixedNow(crypto: Crypto, state: State, ss: seq<Step>, s: Step)
    requires Run(crypto, state, ss) && Enabled(Exec(crypto, state, ss), s) && Run(crypto, state, ss + [s])
    requires Foreign(Exec(crypto, state, ss), s)
    ensures Mixed(crypto, state, ss + [s])
  {
    assert Init(ss + [s]) == ss && Last(ss + [s]) == s;
    hide Run, Exec, Enabled, Domain;
  }
}
