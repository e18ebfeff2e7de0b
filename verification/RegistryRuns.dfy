/** Runs of the registry actor: any commands, readiness sets and job results in
    any order at nondecreasing times, each followed by a pump. Jobs aborted by a
    Reset may still deliver a finished result. The theorems hold of every run. */
module RegistryRuns {
  import opened Names
  import opened Options
  import opened TypesCodec
  import opened Registry
  import opened RegistryPlan
  import opened RegistryInvariant
  import opened RegistrySchedule

  datatype Event =
    | Received(command: Command)
    | Ended(job: Job, outcome: Outcome, order: seq<Name>)
    | Aborted(job: Job)
    | ReadinessChanged(ready: set<Name>)

  // The event is handled at `at` and the pump that follows reads the clock at `pumpAt`.
  datatype Timed = Timed(event: Event, at: Time, pumpAt: Time)

  datatype System = System(state: State, jobs: Jobs, now: Time)

  function Limit(cfg: Config): nat {
    if cfg.maxInflight < 1 then 1 else if cfg.maxInflight > 16 then 16 else cfg.maxInflight
  }

  function FreeSlots(cfg: Config, jobs: Jobs): nat {
    if |jobs| < Limit(cfg) then Limit(cfg) - |jobs| else 0
  }

  ghost predicate Enabled(s: System, e: Timed) {
    && s.now <= e.at <= e.pumpAt
    && match e.event
       case Received(command) => command.Reset? ==> s.state.generation + 1 < U64_MODULUS
       case Ended(job, outcome, order) =>
         job in s.jobs && Fitting(job, outcome) && Lists(order, s.state.prov.announced)
       case Aborted(job) => job in s.jobs && job.generation != s.state.generation
       case ReadinessChanged(_) => true
  }

  ghost function React(cfg: Config, s: System, e: Timed): System
    requires Enabled(s, e)
  {
    match e.event
    case Received(command) => System(Handle(s.state, command, e.at), s.jobs, e.pumpAt)
    case Ended(job, outcome, order) =>
      System(Apply(cfg, s.state, ResultOf(job, outcome), order, e.at), s.jobs - multiset{job}, e.pumpAt)
    case Aborted(job) => System(s.state, s.jobs - multiset{job}, e.pumpAt)
    case ReadinessChanged(ready) => System(ReplaceReady(s.state, ready, e.at), s.jobs, e.pumpAt)
  }

  // What the pump after an event decides.
  ghost function PumpPlan(cfg: Config, s: System): Batch {
    Plan(cfg, s.state, s.now, FreeSlots(cfg, s.jobs))
  }

  ghost function Pump(cfg: Config, s: System): System {
    System(PumpPlan(cfg, s).state, s.jobs + multiset(PumpPlan(cfg, s).jobs), s.now)
  }

  ghost function Step(cfg: Config, s: System, e: Timed): System
    requires Enabled(s, e)
  {
    Pump(cfg, React(cfg, s, e))
  }

  // The jobs spawned by the pump after `e`.
  ghost function Issued(cfg: Config, s: System, e: Timed): seq<Job>
    requires Enabled(s, e)
  {
    PumpPlan(cfg, React(cfg, s, e)).jobs
  }

  function Init(es: seq<Timed>): seq<Timed>
    requires es != []
  {
    es[..|es| - 1]
  }

  function Last(es: seq<Timed>): Timed
    requires es != []
  {
    es[|es| - 1]
  }

  /** The state after the events of a run; the actor's own first event is the initial readiness. */
  ghost function Exec(cfg: Config, es: seq<Timed>): System
    requires Run(cfg, es)
    decreases |es|, 1
  {
    if es == [] then System(INITIAL, multiset{}, 0) else Step(cfg, Exec(cfg, Init(es)), Last(es))
  }

  ghost predicate Run(cfg: Config, es: seq<Timed>)
    decreases |es|, 0
  {
    es != [] ==> Run(cfg, Init(es)) && Enabled(Exec(cfg, Init(es)), Last(es))
  }

  ghost function LocalSet(cfg: Config): set<Name> {
    set x | x in LocalNames(cfg)
  }

  ghost predicate SystemInv(cfg: Config, s: System) {
    Inv(LocalSet(cfg), s.state, s.jobs)
  }

  lemma ReactKeeps(cfg: Config, s: System, e: Timed)
    requires SystemInv(cfg, s) && Enabled(s, e)
    ensures SystemInv(cfg, React(cfg, s, e))
  {
    var local := LocalSet(cfg);
    forall x | x in local ensures IsValidServiceName(x) {
      ValidNamesAreValid(cfg.localServices, x);
    }
    hide Inv, Apply, Handle, ReplaceReady;
    match e.event
    case Received(command) => HandleKeeps(local, s.state, s.jobs, command, e.at);
    case Ended(job, outcome, order) => ResultKeeps(cfg, local, s.state, s.jobs, job, outcome, order, e.at);
    case Aborted(job) => StaleJobLeaves(local, s.state, s.jobs, job, s.state);
    case ReadinessChanged(ready) => ReplaceReadyKeeps(local, s.state, s.jobs, ready, e.at);
  }

  lemma PumpKeeps(cfg: Config, s: System)
    requires SystemInv(cfg, s)
    ensures SystemInv(cfg, Pump(cfg, s))
  {
    hide Inv, Plan;
    PlanKeepsInv(cfg, LocalSet(cfg), s.state, s.jobs, s.now, FreeSlots(cfg, s.jobs));
  }

  /** Every reachable state satisfies the invariant. */
  lemma {:induction false} RunKeepsInvariant(cfg: Config, es: seq<Timed>)
    requires Run(cfg, es)
    ensures SystemInv(cfg, Exec(cfg, es))
    decreases |es|
  {
    if es == [] {
      InitialInv(LocalSet(cfg));
    } else {
      hide SystemInv, React, Pump;
      RunKeepsInvariant(cfg, Init(es));
      ReactKeeps(cfg, Exec(cfg, Init(es)), Last(es));
      PumpKeeps(cfg, React(cfg, Exec(cfg, Init(es)), Last(es)));
    }
  }

  // ---- readings of the invariant, against references computed from the events alone ----

  // Has bootstrap completed since the last Reset?
  predicate BootstrapSeen(es: seq<Timed>)
    decreases |es|
  {
    es != [] && match Last(es).event
      case Received(BootstrapCompleted) => true
      case Received(Reset) => false
      case _ => BootstrapSeen(Init(es))
  }

  function Resets(es: seq<Timed>): nat
    decreases |es|
  {
    if es == [] then 0 else Resets(Init(es)) + if Last(es).event == Received(Reset) then 1 else 0
  }

  // The relay configuration the events have reported last; a Reset forgets the active relays.
  function RelayNeeded(es: seq<Timed>): bool
    decreases |es|
  {
    es != [] && match Last(es).event
      case Received(RelayStateChanged(needRelay, _)) => needRelay
      case _ => RelayNeeded(Init(es))
  }

  function RelaysActive(es: seq<Timed>): nat
    decreases |es|
  {
    if es == [] then 0 else match Last(es).event
      case Received(RelayStateChanged(_, active)) => active
      case Received(Reset) => 0
      case _ => RelaysActive(Init(es))
  }

  predicate RelayOpen(es: seq<Timed>) {
    !RelayNeeded(es) || RelaysActive(es) > 0
  }

  // Services whose start_providing has succeeded, and stop_providing has not, for jobs of the current
  // generation, since they were last to be announced afresh.
  function Advertised(es: seq<Timed>): set<Name>
    decreases |es|
  {
    if es == [] then {} else match Last(es).event
      case Received(Reset) => {}
      case Received(BootstrapCompleted) => {}
      case Received(Reannounce) => {}
      case Received(RelayStateChanged(_, _)) =>
        if RelayOpen(es) && !RelayOpen(Init(es)) then {} else Advertised(Init(es))
      case Ended(Announce(g, x), Done(true), _) =>
        if g == Resets(Init(es)) then Advertised(Init(es)) + {x} else Advertised(Init(es))
      case Ended(Withdraw(g, x), Done(true), _) =>
        if g == Resets(Init(es)) then Advertised(Init(es)) - {x} else Advertised(Init(es))
      case _ => Advertised(Init(es))
  }

  lemma PumpFrame(cfg: Config, s: System)
    ensures SameGates(s.state, Pump(cfg, s).state)
  {
    hide Plan, SameGates;
    PlanKeepsGates(cfg, s.state, s.now, FreeSlots(cfg, s.jobs));
  }

  lemma ApplyFrame(cfg: Config, r: State, result: JobResult, order: seq<Name>, now: Time)
    ensures var q := Apply(cfg, r, result, order, now);
            && q.bootstrapped == r.bootstrapped && q.generation == r.generation
            && q.needRelay == r.needRelay && q.activeRelays == r.activeRelays
  {
    hide ApplyTypesRead, FinishReconcile, AnnounceSucceeded, AnnounceFailed, WithdrawSucceeded, WithdrawFailed;
  }

  lemma ApplyAnnouncedSet(cfg: Config, r: State, result: JobResult, order: seq<Name>, now: Time)
    ensures var q := Apply(cfg, r, result, order, now).prov.announced;
            if result.generation != r.generation then q == r.prov.announced
            else match result
              case Announced(_, x, true) => q == r.prov.announced + {x}
              case Withdrawn(_, x, true) => q == r.prov.announced - {x}
              case _ => q == r.prov.announced
  {
    hide ApplyTypesRead, FinishReconcile, RetryDelay, MarkTypesDirty;
  }

  lemma ApplyMarkSets(cfg: Config, r: State, result: JobResult, order: seq<Name>, now: Time)
    ensures var q := Apply(cfg, r, result, order, now);
            && q.prov.announcing == r.prov.announcing - (if result.Announced? then {result.service} else {})
            && q.prov.withdrawing == r.prov.withdrawing - (if result.Withdrawn? then {result.service} else {})
  {
    hide ApplyTypesRead, FinishReconcile, RetryDelay, MarkTypesDirty;
  }

  lemma ReactTracks(cfg: Config, s: System, e: Timed)
    requires Enabled(s, e)
    ensures var q := React(cfg, s, e).state;
            && q.bootstrapped == (if e.event == Received(BootstrapCompleted) then true
                                  else if e.event == Received(Reset) then false else s.state.bootstrapped)
            && q.generation == s.state.generation + (if e.event == Received(Reset) then 1 else 0)
            && (e.event.Received? && e.event.command.RelayStateChanged? ==>
                  q.needRelay == e.event.command.needRelay && q.activeRelays == e.event.command.active)
            && (!(e.event.Received? && e.event.command.RelayStateChanged?) ==>
                  && q.needRelay == s.state.needRelay
                  && q.activeRelays == if e.event == Received(Reset) then 0 else s.state.activeRelays)
  {
    hide Apply;
    if e.event.Ended? {
      ApplyFrame(cfg, s.state, ResultOf(e.event.job, e.event.outcome), e.event.order, e.at);
    }
  }

  // What an event makes of the announced set.
  lemma ReactAnnounced(cfg: Config, s: System, e: Timed)
    requires Enabled(s, e)
    ensures var p, q := s.state.prov.announced, React(cfg, s, e).state.prov.announced;
            match e.event
            case Received(command) =>
              q == (if command.Reset? || command.BootstrapCompleted? || command.Reannounce? ||
                       (command.RelayStateChanged? && RelayReady(React(cfg, s, e).state) && !RelayReady(s.state))
                    then {} else p)
            case Ended(Announce(g, x), Done(true), _) => q == if g == s.state.generation then p + {x} else p
            case Ended(Withdraw(g, x), Done(true), _) => q == if g == s.state.generation then p - {x} else p
            case _ => q == p
  {
    hide Apply;
    if e.event.Ended? {
      ApplyAnnouncedSet(cfg, s.state, ResultOf(e.event.job, e.event.outcome), e.event.order, e.at);
    }
  }

  /** The state agrees with the events: its flags, its generation, its relay state, and the announced
      set, which is exactly what the results of the current generation add up to, whatever results
      arrive late. */
  lemma {:induction false} RunTracksEvents(cfg: Config, es: seq<Timed>)
    requires Run(cfg, es)
    ensures Exec(cfg, es).state.bootstrapped == BootstrapSeen(es)
    ensures Exec(cfg, es).state.generation == Resets(es)
    ensures Exec(cfg, es).state.needRelay == RelayNeeded(es) && Exec(cfg, es).state.activeRelays == RelaysActive(es)
    ensures Exec(cfg, es).state.prov.announced == Advertised(es)
    decreases |es|
  {
    hide React, Pump;
    if es != [] {
      var s, e := Exec(cfg, Init(es)), Last(es);
      RunTracksEvents(cfg, Init(es));
      ReactTracks(cfg, s, e);
      ReactAnnounced(cfg, s, e);
      PumpFrame(cfg, React(cfg, s, e));
    }
  }

  // ---- marks stand for running jobs ----

  // Each in-flight mark has a running job of the current generation.
  ghost predicate Backed(r: State, jobs: Jobs) {
    && (forall x :: x in r.prov.announcing ==> Announce(r.generation, x) in jobs)
    && (forall x :: x in r.prov.withdrawing ==> Withdraw(r.generation, x) in jobs)
  }

  lemma PlanKeepsBacked(cfg: Config, r: State, jobs: Jobs, now: Time, slots: nat)
    requires Backed(r, jobs)
    ensures var b := Plan(cfg, r, now, slots); Backed(b.state, jobs + multiset(b.jobs))
  {
    var keeps: Property := (q, js) => Backed(q, js);
    assert KeptByWithdraw(now, keeps);
    assert KeptByRetry(now, keeps);
    assert KeptByAnnounce(cfg, now, keeps);
    assert KeptByReconcile(now, keeps);
    hide Backed, KeptByWithdraw, KeptByRetry, KeptByAnnounce, KeptByReconcile, Plan;
    PlanKeeps(cfg, r, jobs, now, slots, keeps);
  }

  lemma ReactKeepsBacked(cfg: Config, s: System, e: Timed)
    requires Enabled(s, e) && Backed(s.state, s.jobs)
    ensures Backed(React(cfg, s, e).state, React(cfg, s, e).jobs)
  {
    hide Apply;
    if e.event.Ended? {
      var result := ResultOf(e.event.job, e.event.outcome);
      ApplyFrame(cfg, s.state, result, e.event.order, e.at);
      ApplyMarkSets(cfg, s.state, result, e.event.order, e.at);
    }
  }

  /** In every run, late results included, a service marked in flight has a running job of the current
      generation. */
  lemma {:induction false} MarksHaveJobs(cfg: Config, es: seq<Timed>)
    requires Run(cfg, es)
    ensures Backed(Exec(cfg, es).state, Exec(cfg, es).jobs)
    decreases |es|
  {
    if es != [] {
      var s, e := Exec(cfg, Init(es)), Last(es);
      hide React, Backed, Plan;
      MarksHaveJobs(cfg, Init(es));
      ReactKeepsBacked(cfg, s, e);
      var q := React(cfg, s, e);
      PlanKeepsBacked(cfg, q.state, q.jobs, q.now, FreeSlots(cfg, q.jobs));
    }
  }

  /** A pump starts jobs of the current generation only, each one due at the time of the pump, and they
      run afterwards. */
  lemma IssuedRun(cfg: Config, es: seq<Timed>, j: Job)
    requires es != [] && Run(cfg, es) && j in Issued(cfg, Exec(cfg, Init(es)), Last(es))
    ensures j in Exec(cfg, es).jobs && j.generation == Resets(es)
    ensures Due(cfg, React(cfg, Exec(cfg, Init(es)), Last(es)).state, j, Last(es).pumpAt)
  {
    var q := React(cfg, Exec(cfg, Init(es)), Last(es));
    RunTracksEvents(cfg, es);
    ReactTime(cfg, Exec(cfg, Init(es)), Last(es));
    hide Plan, React, Advertised, RelayNeeded, RelaysActive;
    PlanStartsOnlyDue(cfg, q.state, q.now, FreeSlots(cfg, q.jobs), j);
    PumpFrame(cfg, q);
  }

  /** Until bootstrap completes after a Reset, nothing is announced, planned, forced, in flight or
      retried, no provider job of the current generation runs, and the pump starts none. */
  lemma BootstrapGatesAnnouncing(cfg: Config, es: seq<Timed>)
    requires Run(cfg, es)
    ensures !BootstrapSeen(es) ==>
              && Exec(cfg, es).state.prov == NO_PROVIDERS
              && (forall j :: j in Exec(cfg, es).jobs && j.generation == Resets(es) ==> !IsProvider(j))
              && (es != [] ==> forall j :: j in Issued(cfg, Exec(cfg, Init(es)), Last(es)) ==> !IsProvider(j))
  {
    RunKeepsInvariant(cfg, es);
    RunTracksEvents(cfg, es);
    hide Advertised, RelayNeeded, RelaysActive, Exec, Issued, IndexOk;
    if es != [] {
      forall j | j in Issued(cfg, Exec(cfg, Init(es)), Last(es))
          ensures j in Exec(cfg, es).jobs && j.generation == Resets(es) {
        IssuedRun(cfg, es, j);
      }
    }
  }

  /** Relay gate, over all interleavings of relay changes and results: while relay is not ready
      everything announced is in the forced-withdraw set and no announcement starts; while relay is
      ready the set is empty; its retry times belong to its members. */
  lemma RelayGatesAnnouncing(cfg: Config, es: seq<Timed>)
    requires Run(cfg, es)
    ensures var r := Exec(cfg, es).state;
            && (RelayReady(r) ==> r.prov.forced == {})
            && (!RelayReady(r) ==>
                  && r.prov.announced <= r.prov.forced
                  && (es != [] ==> forall j :: j in Issued(cfg, Exec(cfg, Init(es)), Last(es)) ==> !j.Announce?))
            && r.prov.forcedRetry.Keys <= r.prov.forced
  {
    RunKeepsInvariant(cfg, es);
    if es != [] {
      var s, e := Exec(cfg, Init(es)), Last(es);
      forall j | j in Issued(cfg, s, e) && j.Announce? ensures RelayReady(Exec(cfg, es).state) {
        PlanStartsOnlyDue(cfg, React(cfg, s, e).state, e.pumpAt, FreeSlots(cfg, React(cfg, s, e).jobs), j);
        PumpFrame(cfg, React(cfg, s, e));
      }
    }
  }

  /** An announced service whose backend is down has a withdraw deadline, is forced out, or a
      Withdraw job of the current generation runs; a ready service never has a deadline. */
  lemma DownServicesLeave(cfg: Config, es: seq<Timed>, x: Name)
    requires Run(cfg, es)
    ensures var s := Exec(cfg, es);
            && (x in s.state.prov.announced && x !in s.state.ready ==>
                  x in s.state.prov.deadline || x in s.state.prov.forced || Withdraw(Resets(es), x) in s.jobs)
            && (x in s.state.ready ==> x !in s.state.prov.deadline)
  {
    RunKeepsInvariant(cfg, es);
    RunTracksEvents(cfg, es);
  }

  /** No announced type name is lost, the index chain is single-flight and never dormant. */
  lemma TypeIndexIsKept(cfg: Config, es: seq<Timed>)
    requires Run(cfg, es)
    ensures var s := Exec(cfg, es);
            && (forall x :: x in s.state.prov.announced ==> NameKept(s.state.index, x))
            && (BootstrapSeen(es) ==> Awake(s.state.index))
            && SingleFlight(s.state.index, Resets(es), s.jobs)
            && KnownOk(s.state.index.known)
  {
    RunKeepsInvariant(cfg, es);
    RunTracksEvents(cfg, es);
  }

  lemma ApplyKnown(cfg: Config, r: State, result: JobResult, order: seq<Name>, now: Time)
    requires KnownOk(r.index.known) && Lists(order, r.prov.announced)
    requires forall x :: x in r.prov.announced ==> IsValidServiceName(x)
    ensures r.index.known <= Apply(cfg, r, result, order, now).index.known
  {
    hide ApplyTypesRead, KnownOk;
    if result.TypesRead? && result.generation == r.generation && r.index.reconcile == Reading {
      TypesReadIndex(cfg, r.index, r.prov.announced, result.types, order, now);
    }
  }

  lemma ReactKnown(cfg: Config, s: System, e: Timed)
    requires Enabled(s, e) && SystemInv(cfg, s)
    ensures s.state.index.known <= React(cfg, s, e).state.index.known
  {
    hide Apply, KnownOk, BootGate, RelayGate, DownLeaves, SingleFlight, NameKept, Awake;
    if e.event.Ended? {
      forall x | x in s.state.prov.announced ensures IsValidServiceName(x) {
        ValidNamesAreValid(cfg.localServices, x);
      }
      ApplyKnown(cfg, s.state, ResultOf(e.event.job, e.event.outcome), e.event.order, e.at);
    }
  }

  /** The index is a monotone union: no event removes a known type, a Reset included. */
  lemma KnownTypesOnlyGrow(cfg: Config, es: seq<Timed>)
    requires Run(cfg, es)
    ensures es != [] ==> Exec(cfg, Init(es)).state.index.known <= Exec(cfg, es).state.index.known
  {
    if es != [] {
      var s, e := Exec(cfg, Init(es)), Last(es);
      RunKeepsInvariant(cfg, Init(es));
      hide React, Pump, SystemInv;
      ReactKnown(cfg, s, e);
      PumpFrame(cfg, React(cfg, s, e));
    }
  }

  lemma JobsBound(cfg: Config, s: System)
    requires |s.jobs| <= Limit(cfg)
    ensures |Pump(cfg, s).jobs| <= Limit(cfg)
    ensures |PumpPlan(cfg, s).jobs| < FreeSlots(cfg, s.jobs) <==> |Pump(cfg, s).jobs| < Limit(cfg)
  {
    assert |multiset(PumpPlan(cfg, s).jobs)| == |PumpPlan(cfg, s).jobs|;
  }

  /** Never do more than sixteen jobs run, nor more than configured, one being the least. */
  lemma {:induction false} JobsStayBounded(cfg: Config, es: seq<Timed>)
    requires Run(cfg, es)
    ensures |Exec(cfg, es).jobs| <= Limit(cfg)
    ensures |Exec(cfg, es).jobs| <= 16 && (|Exec(cfg, es).jobs| <= cfg.maxInflight || |Exec(cfg, es).jobs| <= 1)
    decreases |es|
  {
    hide Pump, Handle, Apply, ReplaceReady;
    if es != [] {
      JobsStayBounded(cfg, Init(es));
      JobsBound(cfg, React(cfg, Exec(cfg, Init(es)), Last(es)));
    }
  }

  // A provider job of the current generation runs for the service.
  ghost predicate Busy(s: System, x: Name) {
    Announce(s.state.generation, x) in s.jobs || Withdraw(s.state.generation, x) in s.jobs
  }

  /** After every pump either the limit is reached, or each service with a due withdrawal or an
      eligible announcement has a running job of the current generation, started now or before, and
      each due index step runs. */
  lemma PumpConservesWork(cfg: Config, es: seq<Timed>, x: Name)
    requires es != [] && Run(cfg, es)
    requires |Exec(cfg, es).jobs| < 16 && (|Exec(cfg, es).jobs| < cfg.maxInflight || |Exec(cfg, es).jobs| < 1)
    ensures var e := Last(es);
            var r := React(cfg, Exec(cfg, Init(es)), e).state;
            && (Wanted(cfg, r, x, e.pumpAt) ==> Busy(Exec(cfg, es), x))
            && (MustSync(r.index, e.pumpAt) ==>
                  ReadTypes(r.generation) in Exec(cfg, es).jobs)
            && (r.index.reconcile == ReadyToWrite && r.index.pendingWrite.Some? ==>
                  WriteTypes(r.generation, r.index.pendingWrite.value) in Exec(cfg, es).jobs)
  {
    var s := React(cfg, Exec(cfg, Init(es)), Last(es));
    MarksHaveJobs(cfg, es);
    assert InFlight(Exec(cfg, es).state, x) ==> Busy(Exec(cfg, es), x);
    hide Plan, Wanted, InFlight, React, Busy, Backed;
    JobsStayBounded(cfg, Init(es));
    assert |s.jobs| <= Limit(cfg) by {
      ReactShrinks(cfg, Exec(cfg, Init(es)), Last(es));
    }
    JobsBound(cfg, s);
    PlanLeavesNothingDue(cfg, s.state, s.now, FreeSlots(cfg, s.jobs), x);
    ReactTime(cfg, Exec(cfg, Init(es)), Last(es));
  }

  lemma ReactShrinks(cfg: Config, s: System, e: Timed)
    requires Enabled(s, e)
    ensures |React(cfg, s, e).jobs| <= |s.jobs|
  {
    hide Handle, Apply, ReplaceReady;
  }

  lemma ReactTime(cfg: Config, s: System, e: Timed)
    requires Enabled(s, e)
    ensures React(cfg, s, e).now == e.pumpAt
  {
    hide Handle, Apply, ReplaceReady;
  }
}
