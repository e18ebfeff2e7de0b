/** What the gate must decide. The runs of `AuthGateRuns` say what every Allow
    rests on; here a call that nothing disturbs gets Allow exactly when it should,
    a refresh stores exactly what it should, and a reload forgets exactly what it
    should. */
module AuthDecisions {
  import opened Names
  import opened Options
  import opened AuthRecords
  import opened AuthGate
  import opened AuthGateRuns

  // How many steps a call has before it.
  function StepsLeft(p: Phase): nat {
    match p
    case Started => 6
    case Resolved(_, _) => 5
    case Holding(_, _, _) => 4
    case Indexed(_) => 3
    case Counted(_, _) => 2
    case Listed(_, _, _, _) => 1
    case Finished(_, _) => 0
  }

  // The next step of call `id`.
  function StepOf(p: Phase, id: nat, required: bool, now: nat): Step
    requires !p.Finished?
  {
    match p
    case Started => ReadState(id, required)
    case Resolved(_, _) => TakeCaches(id)
    case Holding(_, _, _) => ReadIndex(id, now)
    case Indexed(_) => CheckIndex(id)
    case Counted(_, _) => ReadWhitelist(id)
    case Listed(_, _, _, _) => CheckWhitelist(id)
  }

  // The caches a call refers to exist.
  ghost predicate Sound(g: Gate, id: nat) {
    && id in g.calls && g.reload.Idle? && (g.current.Some? ==> g.current.value in g.caches)
    && match g.calls[id].phase
       case Holding(_, c, _) => c in g.caches
       case Indexed(r) => r.cache in g.caches
       case Counted(r, _) => r.cache in g.caches
       case Listed(r, _, _, _) => r.cache in g.caches
       case _ => true
  }

  lemma StepStaysSound(crypto: Crypto, g: Gate, id: nat, required: bool, now: nat)
    requires Sound(g, id) && !g.calls[id].phase.Finished?
    ensures Enabled(g, StepOf(g.calls[id].phase, id, required, now))
    ensures var h := Next(crypto, g, StepOf(g.calls[id].phase, id, required, now));
            Sound(h, id) && StepsLeft(h.calls[id].phase) < StepsLeft(g.calls[id].phase)
  {
    hide FindEntry, IndexRefreshed, WhitelistRefreshed;
  }

  // What call `id` is told if it takes all its steps and nobody else takes any.
  ghost function Outcome(crypto: Crypto, g: Gate, id: nat, required: bool, now: nat): Decision
    requires Sound(g, id)
    decreases StepsLeft(g.calls[id].phase)
  {
    if g.calls[id].phase.Finished? then g.calls[id].phase.decision
    else
      StepStaysSound(crypto, g, id, required, now);
      Outcome(crypto, Next(crypto, g, StepOf(g.calls[id].phase, id, required, now)), id, required, now)
  }

  lemma OutcomeStep(crypto: Crypto, g: Gate, id: nat, required: bool, now: nat) returns (h: Gate)
    requires Sound(g, id) && !g.calls[id].phase.Finished?
    ensures Enabled(g, StepOf(g.calls[id].phase, id, required, now))
    ensures h == Next(crypto, g, StepOf(g.calls[id].phase, id, required, now)) && Sound(h, id)
    ensures Outcome(crypto, g, id, required, now) == Outcome(crypto, h, id, required, now)
    ensures h.calls[id].phase.Finished? ==> Outcome(crypto, g, id, required, now) == h.calls[id].phase.decision
  {
    StepStaysSound(crypto, g, id, required, now);
    hide Sound, Next;
    h := Next(crypto, g, StepOf(g.calls[id].phase, id, required, now));
  }

  // The current caches hold an index of the state's network that is unexpired and not rolled back.
  ghost predicate IndexServes(g: Gate, now: nat) {
    && g.state.Active? && g.current.Some? && g.current.value in g.caches
    && var c, key := g.caches[g.current.value], "/oahd/auth/" + g.state.net.hash + "/service";
    && key in c.index && now <= c.index[key].expiresAt
    && (g.versions.index.Some? ==> g.versions.index.value <= c.index[key].version)
  }

  ghost function ServedIndex(g: Gate, now: nat): IndexDoc
    requires IndexServes(g, now)
  {
    g.caches[g.current.value].index["/oahd/auth/" + g.state.net.hash + "/service"]
  }

  // They hold the whitelist the index binds for the service, not rolled back, and it names the peer.
  ghost predicate WhitelistServes(g: Gate, now: nat, service: Name, peer: string)
    requires IndexServes(g, now)
  {
    exists i :: FirstAt(ServedIndex(g, now).services, service, i) &&
      ListServes(g, ServedIndex(g, now), ServedIndex(g, now).services[i], service, peer)
  }

  // Entry `i` is the first one of the service.
  ghost predicate FirstAt(services: seq<ServiceEntry>, service: Name, i: int) {
    0 <= i < |services| && services[i].name == service && forall k :: 0 <= k < i ==> services[k].name != service
  }

  ghost predicate ListServes(g: Gate, index: IndexDoc, entry: ServiceEntry, service: Name, peer: string)
    requires g.current.Some? && g.current.value in g.caches
  {
    var lists := g.caches[g.current.value].whitelist;
    var key := WhitelistKey(service, entry.hash, entry.length, index.expiresAt);
    && key in lists && peer in lists[key].members
    && (service in g.versions.whitelists ==> g.versions.whitelists[service] <= lists[key].version)
  }

  lemma {:induction false} FindEntryIsFirst(services: seq<ServiceEntry>, service: Name)
    ensures match FindEntry(services, service)
            case Some(e) => exists i :: FirstAt(services, service, i) && services[i] == e
            case None => forall i :: 0 <= i < |services| ==> services[i].name != service
  {
    if services != [] {
      if services[0].name == service {
        assert FirstAt(services, service, 0);
      } else {
        FindEntryIsFirst(services[1..], service);
        if FindEntry(services, service).Some? {
          var i :| FirstAt(services[1..], service, i) && services[1..][i] == FindEntry(services, service).value;
          assert FirstAt(services, service, i + 1);
        }
        assert services == [services[0]] + services[1..];
      }
    }
  }

  // A call past its index check.
  lemma CountedOutcome(crypto: Crypto, g: Gate, id: nat, required: bool, now: nat)
    requires Sound(g, id) && g.calls[id].phase.Counted? && g.current == Some(g.calls[id].phase.reading.cache)
    ensures var call := g.calls[id]; var index := call.phase.reading.index;
            match FindEntry(index.services, call.service)
            case None => Outcome(crypto, g, id, required, now) == AllowUnprotected
            case Some(e) =>
              && (ListServes(g, index, e, call.service, call.peer) ==> Outcome(crypto, g, id, required, now) == Allow)
              && (!ListServes(g, index, e, call.service, call.peer) ==> Outcome(crypto, g, id, required, now).Deny?)
  {
    hide FindEntry, IndexRefreshed, WhitelistRefreshed, Outcome;
    var h := OutcomeStep(crypto, g, id, required, now);
    if !h.calls[id].phase.Finished? {
      var k := OutcomeStep(crypto, h, id, required, now);
    }
  }

  // A call that has taken the current caches.
  lemma HoldingOutcome(crypto: Crypto, g: Gate, id: nat, required: bool, now: nat)
    requires Sound(g, id) && g.calls[id].phase.Holding? && g.current == Some(g.calls[id].phase.cache)
    requires g.state == Active(g.calls[id].phase.net)
    ensures var call := g.calls[id];
            if !IndexServes(g, now) then Outcome(crypto, g, id, required, now).Deny?
            else match FindEntry(ServedIndex(g, now).services, call.service)
              case None => Outcome(crypto, g, id, required, now) == AllowUnprotected
              case Some(e) =>
                var serves := ListServes(g, ServedIndex(g, now), e, call.service, call.peer);
                && (serves ==> Outcome(crypto, g, id, required, now) == Allow)
                && (!serves ==> Outcome(crypto, g, id, required, now).Deny?)
  {
    hide FindEntry, IndexRefreshed, WhitelistRefreshed, IndexKey, Outcome;
    Paths(g.state.net, "");
    var h := OutcomeStep(crypto, g, id, required, now);
    if !h.calls[id].phase.Finished? {
      var k := OutcomeStep(crypto, h, id, required, now);
      if !k.calls[id].phase.Finished? {
        CountedOutcome(crypto, k, id, required, now);
      }
    }
  }

  ghost predicate Unlisted(g: Gate, now: nat, service: Name)
    requires IndexServes(g, now)
  {
    forall i :: 0 <= i < |ServedIndex(g, now).services| ==> ServedIndex(g, now).services[i].name != service
  }

  lemma ActiveOutcome(crypto: Crypto, g: Gate, id: nat, now: nat)
    requires Sound(g, id) && g.calls[id].phase == Started && g.state.Active?
    ensures var call := g.calls[id]; var decision := Outcome(crypto, g, id, true, now);
            && (decision == Allow <==> IndexServes(g, now) && WhitelistServes(g, now, call.service, call.peer))
            && (decision == AllowUnprotected <==> IndexServes(g, now) && Unlisted(g, now, call.service))
  {
    hide FindEntry, IndexRefreshed, WhitelistRefreshed, IndexKey, Outcome, ListServes;
    var h := OutcomeStep(crypto, g, id, true, now);
    var k := OutcomeStep(crypto, h, id, true, now);
    if g.current.Some? {
      HoldingOutcome(crypto, k, id, true, now);
      if IndexServes(g, now) {
        FindEntryIsFirst(ServedIndex(g, now).services, g.calls[id].service);
        SameLists(g, k, now, g.calls[id].service, g.calls[id].peer);
      }
    }
  }

  // Only the caches and versions matter to the whitelist condition.
  lemma SameLists(g: Gate, h: Gate, now: nat, service: Name, peer: string)
    requires g.current == h.current && g.caches == h.caches && g.versions == h.versions && g.current.Some?
    requires g.current.value in g.caches
    ensures forall index, entry :: ListServes(g, index, entry, service, peer) <==>
        ListServes(h, index, entry, service, peer)
  {
  }

  /** A call that nothing disturbs is allowed exactly when it should be: authorization is off, or not
      required for the service; or the current caches hold an unexpired index of the network that is no
      rollback and whose first entry for the service binds a whitelist they hold, no rollback either,
      that names the peer. It is let through as unprotected exactly when such an index does not list
      the service, and otherwise denied. */
  lemma AuthorizeIff(crypto: Crypto, state: State, ss: seq<Step>, id: nat, required: bool, now: nat)
    requires Run(crypto, state, ss) && Exec(crypto, state, ss).reload.Idle?
    requires id in Exec(crypto, state, ss).calls && Exec(crypto, state, ss).calls[id].phase == Started
    ensures var g := Exec(crypto, state, ss); var call := g.calls[id];
            && Sound(g, id)
            && (Outcome(crypto, g, id, required, now) == Allow <==>
                  || g.state == Disabled || (g.state.Active? && !required)
                  || (IndexServes(g, now) && WhitelistServes(g, now, call.service, call.peer)))
            && (Outcome(crypto, g, id, required, now) == AllowUnprotected <==>
                  g.state.Active? && required && IndexServes(g, now) && Unlisted(g, now, call.service))
  {
    RunKeepsInvariant(crypto, state, ss);
    var g := Exec(crypto, state, ss);
    assert DomainOk(g);
    hide Exec, Run, CachesOk, CallOk, LogOk, Replay, IndexRefreshed, WhitelistRefreshed, FindEntry, WhitelistServes,
         ListServes, Unlisted, IndexServes, Outcome;
    if g.state.Active? && required {
      ActiveOutcome(crypto, g, id, now);
    } else {
      var h := OutcomeStep(crypto, g, id, required, now);
    }
  }

  // ---- refreshes and reloads ----

  /** A refresh of the index with records from the DHT: a conflict leaves the cache alone; without a
      signed unexpired record the document goes; and the newest one is stored, unless the cached
      document has a higher version or differs at the same one. */
  lemma RefreshStoresIff(crypto: Crypto, c: Caches, key: string, records: seq<Bytes>, now: nat)
    ensures var m := IndexRefreshed(crypto, c, key, records, now).index;
            match Select(IndexCheck(crypto, c.net, now), records)
            case Conflict => m == c.index
            case Chosen(None) =>
              && m == c.index - {key}
              && (forall value, doc :: value in records && SignedIndex(crypto, c.net, value, doc) ==>
                   doc.expiresAt < now)
            case Chosen(Some(v)) =>
              && Newest(crypto, c.net, records, now, v.doc)
              && (m == c.index[key := v.doc] <==>
                    (key in c.index ==> c.index[key].version < v.doc.version || c.index[key] == v.doc))
              && (m == c.index[key := v.doc] || m == c.index)
  {
    SelectedIndexIsVerified(crypto, c.net, records, now);
    var check := IndexCheck(crypto, c.net, now);
    SelectMeans(check, records);
    if Select(check, records).Chosen? && Select(check, records).best.Some? {
      var v := Select(check, records).best.value;
      hide Select;
      var value :| value in records && check(value) == Some(v);
      assert v.version == v.doc.version;
      var m := IndexRefreshed(crypto, c, key, records, now).index;
      assert m == c.index[key := v.doc] ==> m[key] == v.doc;
    }
  }

  // A whole reload with nothing in between.
  ghost function Reloaded(crypto: Crypto, g: Gate, next: State, made: nat): Gate
    requires g.reload.Idle? && made !in g.caches
  {
    var a := Next(crypto, g, BeginReload(next));
    var b := Next(crypto, a, ClearVersions);
    Next(crypto, Next(crypto, b, SwapCaches(made)), EndReload)
  }

  ghost predicate Stays(state: State, next: State) {
    (state == Disabled && next == Disabled) || (state.Active? && state == next)
  }

  lemma InvServes(crypto: Crypto, g: Gate)
    requires Inv(crypto, g) && g.reload.Idle?
    ensures Serves(g, g.state)
  {
  }

  lemma GateReloads(crypto: Crypto, g: Gate, next: State, made: nat)
    requires g.reload.Idle? && made !in g.caches && Serves(g, g.state)
    ensures var h := Reloaded(crypto, g, next, made);
            && h.state == next && h.reload.Idle?
            && h.versions == (if Stays(g.state, next) then g.versions else NO_VERSIONS)
            && (!next.Active? ==> h.current == None)
            && (next.Active? && Stays(g.state, next) ==> h.current == g.current && h.caches == g.caches)
            && (next.Active? && !Stays(g.state, next) ==>
                  h.current == Some(made) && h.caches == g.caches[made := Caches(next.net, map[], map[])])
  {
    hide IndexRefreshed, WhitelistRefreshed, FindEntry, AfterState, AfterIndex, AfterCount, IndexChecked,
        WhitelistChecked;
  }

  /** A reload sets the state, keeps the version history exactly when the trust domain stays (the same
      network and authority, or authorization off both times), and keeps the caches of an active state
      exactly then too; a new active domain starts with empty caches of its own. */
  lemma ReloadForgetsIff(crypto: Crypto, state: State, ss: seq<Step>, next: State, made: nat)
    requires Run(crypto, state, ss) && Exec(crypto, state, ss).reload.Idle? && made !in Exec(crypto, state, ss).caches
    ensures var g := Exec(crypto, state, ss); var h := Reloaded(crypto, g, next, made);
            var stays := Stays(g.state, next);
            && h.state == next && h.reload.Idle?
            && h.versions == (if stays then g.versions else NO_VERSIONS)
            && (!next.Active? ==> h.current == None)
            && (next.Active? && stays ==> h.current == g.current && h.caches == g.caches)
            && (next.Active? && !stays ==>
                  h.current == Some(made) && h.caches == g.caches[made := Caches(next.net, map[], map[])])
  {
    RunKeepsInvariant(crypto, state, ss);
    hide *;
    InvServes(crypto, Exec(crypto, state, ss));
    GateReloads(crypto, Exec(crypto, state, ss), next, made);
  }
}
