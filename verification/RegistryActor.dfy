/** `RegistryState` and `ServiceRegistryActor` as the source runs them: fields
    updated in place, with the planner's loops. Each method computes the function
    of `Registry` (or of `RegistryRuns`) that specifies it. */
module RegistryActor {
  import opened Names
  import opened Options
  import opened TypesCodec
  import opened Registry
  import opened RegistryInvariant
  import Runs = RegistryRuns

  class RegistryState {
    const cfg: Config
    var bootstrapped: bool
    var needRelay: bool
    var activeRelays: nat
    var backendReady: set<Name>
    var announced: set<Name>
    var withdrawDeadline: map<Name, Time>
    var relayWithdraw: set<Name>
    var relayWithdrawRetryAt: map<Name, Time>
    var announceInflight: set<Name>
    var withdrawInflight: set<Name>
    var announceFailures: map<Name, nat>
    var announceRetryAt: map<Name, Time>
    var knownTypes: set<Name>
    var reconcile: Reconcile
    var reconcileDirty: bool
    var nextTypesSync: Option<Time>
    var pendingTypesWrite: Option<string>
    var generation: nat

    function Providing(): Providers
      reads this`announced, this`withdrawDeadline, this`relayWithdraw, this`relayWithdrawRetryAt
      reads this`announceInflight, this`withdrawInflight, this`announceFailures, this`announceRetryAt
    {
      Providers(announced, withdrawDeadline, relayWithdraw, relayWithdrawRetryAt, announceInflight,
                withdrawInflight, announceFailures, announceRetryAt)
    }

    function Types(): Index
      reads this`knownTypes, this`reconcile, this`reconcileDirty, this`nextTypesSync, this`pendingTypesWrite
    {
      Index(knownTypes, reconcile, reconcileDirty, nextTypesSync, pendingTypesWrite)
    }

    function View(): State
      reads this
    {
      State(bootstrapped, needRelay, activeRelays, backendReady, Providing(), Types(), generation)
    }

    constructor (cfg: Config)
      ensures this.cfg == cfg && View() == INITIAL
    {
      this.cfg := cfg;
      bootstrapped, needRelay, activeRelays, backendReady := false, false, 0, {};
      announced, withdrawDeadline, relayWithdraw, relayWithdrawRetryAt := {}, map[], {}, map[];
      announceInflight, withdrawInflight, announceFailures, announceRetryAt := {}, {}, map[], map[];
      knownTypes, reconcile, reconcileDirty := {}, Idle, false;
      nextTypesSync, pendingTypesWrite, generation := None, None, 0;
    }

    method MarkDirty(now: Time)
      modifies this`reconcileDirty, this`nextTypesSync
      ensures Types() == MarkTypesDirty(old(Types()), now)
    {
      reconcileDirty := true;
      if reconcile == Idle {
        nextTypesSync := Some(now);
      }
    }

    method BackendsUp(up: set<Name>)
      modifies this`withdrawDeadline, this`announceFailures, this`announceRetryAt
      ensures withdrawDeadline == old(withdrawDeadline) - up
      ensures announceFailures == old(announceFailures) - up
      ensures announceRetryAt == old(announceRetryAt) - up
    {
      var rest := up;
      while rest != {}
        invariant rest <= up
        invariant withdrawDeadline == old(withdrawDeadline) - (up - rest)
        invariant announceFailures == old(announceFailures) - (up - rest)
        invariant announceRetryAt == old(announceRetryAt) - (up - rest)
        decreases |rest|
      {
        var service :| service in rest;
        MinusStep(old(withdrawDeadline), up, rest, service);
        MinusStep(old(announceFailures), up, rest, service);
        MinusStep(old(announceRetryAt), up, rest, service);
        withdrawDeadline := withdrawDeadline - {service};
        announceFailures := announceFailures - {service};
        announceRetryAt := announceRetryAt - {service};
        rest := rest - {service};
      }
      assert up - {} == up;
    }

    method BackendsDown(down: set<Name>, now: Time)
      modifies this`withdrawDeadline, this`announceRetryAt
      ensures withdrawDeadline == GraceDeadlines(old(withdrawDeadline), down * announced, now)
      ensures announceRetryAt == old(announceRetryAt) - down
    {
      hide View, Providing, Types, GraceDeadlines;
      var rest := down;
      GraceStart(withdrawDeadline, down, announced, now);
      while rest != {}
        invariant rest <= down
        invariant withdrawDeadline == GraceDeadlines(old(withdrawDeadline), (down - rest) * announced, now)
        invariant announceRetryAt == old(announceRetryAt) - (down - rest)
        decreases |rest|
      {
        var service :| service in rest;
        MinusStep(old(announceRetryAt), down, rest, service);
        announceRetryAt := announceRetryAt - {service};
        if service in announced && service !in withdrawDeadline {
          withdrawDeadline := withdrawDeadline[service := now + WITHDRAW_GRACE];
        }
        GraceStep(old(withdrawDeadline), down, rest, announced, service, now);
        rest := rest - {service};
      }
      assert down - {} == down;
    }

    method ReplaceBackendReady(ready: set<Name>, now: Time)
      modifies this
      ensures View() == ReplaceReady(old(View()), ready, now)
    {
      hide GraceDeadlines;
      var previous := backendReady;
      backendReady := ready;
      BackendsUp(ready - previous);
      BackendsDown(previous - ready, now);
    }

    method ForgetOnRelayGained()
      modifies this`announced, this`announceFailures, this`announceRetryAt, this`relayWithdraw,
          this`relayWithdrawRetryAt
      ensures Providing() == RelayGained(old(Providing()))
    {
      announced, announceFailures, announceRetryAt := {}, map[], map[];
      relayWithdraw, relayWithdrawRetryAt := {}, map[];
    }

    method ForceOnRelayLost()
      modifies this`relayWithdraw, this`announceRetryAt
      ensures Providing() == RelayLost(old(Providing()))
    {
      relayWithdraw, announceRetryAt := relayWithdraw + announced + announceInflight, map[];
    }

    method OnRelayState(need: bool, active: nat, now: Time)
      modifies this
      ensures View() == Handle(old(View()), RelayStateChanged(need, active), now)
    {
      hide RelayGained, RelayLost, Providing, Types;
      var wasReady := !needRelay || activeRelays > 0;
      needRelay, activeRelays := need, active;
      var nowReady := !needRelay || activeRelays > 0;
      if wasReady == nowReady {
        return;
      }
      if nowReady {
        ForgetOnRelayGained();
      } else {
        ForceOnRelayLost();
      }
    }

    method ClearProviders()
      modifies this`announced, this`withdrawDeadline, this`relayWithdraw, this`relayWithdrawRetryAt
      modifies this`announceInflight, this`withdrawInflight, this`announceFailures, this`announceRetryAt
      ensures Providing() == NO_PROVIDERS
    {
      announced, withdrawDeadline, relayWithdraw, relayWithdrawRetryAt := {}, map[], {}, map[];
      announceInflight, withdrawInflight, announceFailures, announceRetryAt := {}, {}, map[], map[];
    }

    method ClearReconcile()
      modifies this`reconcile, this`reconcileDirty, this`nextTypesSync, this`pendingTypesWrite
      ensures Types() == Index(knownTypes, Idle, false, None, None)
    {
      reconcile, reconcileDirty, nextTypesSync, pendingTypesWrite := Idle, false, None, None;
    }

    method OnReset(now: Time)
      modifies this
      ensures View() == Handle(old(View()), Reset, now)
    {
      hide Providing;
      generation := (generation + 1) % U64_MODULUS;
      bootstrapped, activeRelays := false, 0;
      ClearProviders();
      ClearReconcile();
    }

    method HandleCommand(command: Command, now: Time)
      modifies this
      ensures View() == Handle(old(View()), command, now)
    {
      match command
      case BootstrapCompleted =>
        bootstrapped, announced, announceRetryAt := true, {}, map[];
        MarkDirty(now);
      case Tick =>
      case Reannounce =>
        announced, announceRetryAt := {}, map[];
        MarkDirty(now);
      case RefreshTypes =>
        MarkDirty(now);
      case RelayStateChanged(need, active) => OnRelayState(need, active, now);
      case Reset => OnReset(now);
    }

    method BeginWithdraw(service: Name)
      modifies this`withdrawDeadline, this`relayWithdrawRetryAt, this`withdrawInflight
      ensures View() == StartWithdraw(old(View()), service)
    {
      withdrawDeadline := withdrawDeadline - {service};
      relayWithdrawRetryAt := relayWithdrawRetryAt - {service};
      withdrawInflight := withdrawInflight + {service};
    }

    method BeginAnnounce(service: Name)
      modifies this`announceRetryAt, this`announceInflight
      ensures View() == StartAnnounce(old(View()), service)
    {
      announceRetryAt := announceRetryAt - {service};
      announceInflight := announceInflight + {service};
    }

    method PlanWithdrawLoop(now: Time, slots: nat) returns (jobs: seq<Job>)
      modifies this`withdrawDeadline, this`relayWithdrawRetryAt, this`withdrawInflight
      ensures Batch(View(), jobs) == WithdrawPhase(old(View()), now, slots)
    {
      hide InFlight, StartWithdraw, DueWithdrawals, Providing, Types;
      var due := Sort(DueWithdrawals(View(), now));
      jobs := [];
      var left: nat, i := slots, 0;
      ghost var start := View();
      assert due[0..] == due;
      while i < |due| && left > 0
        invariant 0 <= i <= |due| && left + |jobs| == slots
        invariant var rest := PlanWithdrawals(View(), due[i..], left);
                  PlanWithdrawals(start, due, slots) == Batch(rest.state, jobs + rest.jobs)
      {
        var service := due[i];
        assert due[i..][0] == service && due[i..][1..] == due[i + 1..];
        if !InFlight(View(), service) {
          BeginWithdraw(service);
          AppendAssoc(jobs, Withdraw(generation, service), PlanWithdrawals(View(), due[i + 1..], left - 1).jobs);
          jobs := jobs + [Withdraw(generation, service)];
          left := left - 1;
        }
        i := i + 1;
      }
      assert jobs + [] == jobs;
    }

    method PlanRetryLoop(now: Time, slots: nat) returns (jobs: seq<Job>)
      modifies this`announceRetryAt, this`announceInflight
      ensures Batch(View(), jobs) == RetryPhase(old(View()), now, slots)
    {
      hide InFlight, StartAnnounce, DueRetries, Providing, Types;
      var due := Sort(DueRetries(View(), now));
      jobs := [];
      var left: nat, i := slots, 0;
      ghost var start := View();
      assert due[0..] == due;
      while i < |due| && left > 0
        invariant 0 <= i <= |due| && left + |jobs| == slots
        invariant var rest := PlanRetries(View(), due[i..], left);
                  PlanRetries(start, due, slots) == Batch(rest.state, jobs + rest.jobs)
      {
        var service := due[i];
        assert due[i..][0] == service && due[i..][1..] == due[i + 1..];
        if !InFlight(View(), service) {
          BeginAnnounce(service);
          AppendAssoc(jobs, Announce(generation, service), PlanRetries(View(), due[i + 1..], left - 1).jobs);
          jobs := jobs + [Announce(generation, service)];
          left := left - 1;
        }
        i := i + 1;
      }
      assert jobs + [] == jobs;
    }

    method PlanAnnounceLoop(now: Time, slots: nat) returns (jobs: seq<Job>)
      modifies this`announceRetryAt, this`announceInflight
      ensures Batch(View(), jobs) == AnnouncePhase(cfg, old(View()), now, slots)
    {
      hide AnnounceEligible, StartAnnounce, LocalNames, Providing, Types;
      jobs := [];
      if bootstrapped && RelayReady(View()) && slots > 0 {
        var local := LocalNames(cfg);
        var left: nat, i := slots, 0;
        ghost var start := View();
        assert local[0..] == local;
        while i < |local| && left > 0
          invariant 0 <= i <= |local| && left + |jobs| == slots
          invariant var rest := PlanAnnounces(View(), local[i..], now, left);
                    PlanAnnounces(start, local, now, slots) == Batch(rest.state, jobs + rest.jobs)
        {
          var service := local[i];
          assert local[i..][0] == service && local[i..][1..] == local[i + 1..];
          if AnnounceEligible(View(), service, now) {
            BeginAnnounce(service);
            AppendAssoc(jobs, Announce(generation, service), PlanAnnounces(View(), local[i + 1..], now, left - 1).jobs);
            jobs := jobs + [Announce(generation, service)];
            left := left - 1;
          }
          i := i + 1;
        }
        assert jobs + [] == jobs;
      }
    }

    method PlanReconcileStep(now: Time, slots: nat) returns (jobs: seq<Job>)
      modifies this`nextTypesSync, this`reconcile, this`reconcileDirty, this`pendingTypesWrite
      ensures Batch(View(), jobs) == PlanReconcile(old(View()), now, slots)
    {
      jobs := [];
      if slots > 0 {
        match reconcile
        case Idle =>
          if reconcileDirty || (nextTypesSync.Some? && nextTypesSync.value <= now) {
            nextTypesSync, reconcile, reconcileDirty := None, Reading, false;
            jobs := [ReadTypes(generation)];
          }
        case ReadyToWrite =>
          if pendingTypesWrite.Some? {
            jobs := [WriteTypes(generation, pendingTypesWrite.value)];
            pendingTypesWrite, reconcile := None, Writing;
          } else {
            reconcile := Idle;
          }
        case Reading =>
        case Writing =>
      }
    }

    method PlanJobs(now: Time, slots: nat) returns (jobs: seq<Job>)
      modifies this
      ensures Batch(View(), jobs) == Plan(cfg, old(View()), now, slots) && |jobs| <= slots
    {
      hide WithdrawPhase, RetryPhase, AnnouncePhase, PlanReconcile, View;
      var w := PlanWithdrawLoop(now, slots);
      var t := PlanRetryLoop(now, slots - |w|);
      var a := PlanAnnounceLoop(now, slots - |w| - |t|);
      var c := PlanReconcileStep(now, slots - |w| - |t| - |a|);
      jobs := w + (t + (a + c));
    }

    method MergeKnownTypes(incoming: seq<string>)
      modifies this`knownTypes
      ensures knownTypes == MergeTypes(old(knownTypes), incoming)
    {
      var i := 0;
      while i < |incoming| && |knownTypes| < MAX_TYPES
        invariant 0 <= i <= |incoming|
        invariant MergeTypes(knownTypes, incoming[i..]) == MergeTypes(old(knownTypes), incoming)
      {
        assert incoming[i..][0] == incoming[i] && incoming[i..][1..] == incoming[i + 1..];
        if IsValidServiceName(incoming[i]) {
          knownTypes := knownTypes + {incoming[i]};
        }
        i := i + 1;
      }
    }

    method ApplyResult(result: JobResult, now: Time) returns (ghost order: seq<Name>)
      modifies this
      ensures Lists(order, old(announced)) && View() == Apply(cfg, old(View()), result, order, now)
    {
      hide ApplyAnnounced, ApplyWithdrawn, ApplyTypesRead, FinishReconcile;
      order := Sorted(announced);
      match result
      case Announced(g, service, ok) =>
        announceInflight := announceInflight - {service};
        MarkCleared(old(View()), service, ok, now);
        if g == generation {
          FinishAnnounce(service, ok, now);
        }
      case Withdrawn(g, service, ok) =>
        withdrawInflight := withdrawInflight - {service};
        MarkCleared(old(View()), service, ok, now);
        if g == generation {
          FinishWithdraw(service, ok, now);
        }
      case TypesRead(g, types) =>
        if g == generation && reconcile == Reading {
          order := FinishRead(types, now);
        }
      case TypesWritten(g, ok) =>
        if g == generation && reconcile == Writing {
          FinishChain(now, if ok then cfg.syncInterval else RECONCILE_RETRY);
        }
    }

    method AnnounceOk(service: Name, now: Time)
      modifies this`announceFailures, this`announceRetryAt, this`announced, this`relayWithdraw, this`withdrawDeadline
      ensures Providing() == AnnounceSucceeded(old(Providing()), service, RelayReady(View()),
                                               service in backendReady && bootstrapped, now)
    {
      announceFailures := announceFailures - {service};
      announceRetryAt := announceRetryAt - {service};
      announced := announced + {service};
      if needRelay && activeRelays == 0 {
        relayWithdraw := relayWithdraw + {service};
      } else if !(service in backendReady && bootstrapped) {
        withdrawDeadline := withdrawDeadline[service := now];
      }
    }

    method AnnounceErr(service: Name, now: Time)
      modifies this`announceFailures, this`announceRetryAt
      ensures Providing() == if service in backendReady && bootstrapped
                             then AnnounceFailed(old(Providing()), service, now) else old(Providing())
    {
      hide RetryDelay;
      if service in backendReady && bootstrapped {
        var count := Min((if service in announceFailures then announceFailures[service] else 0) + 1, U32_MAX);
        announceFailures := announceFailures[service := count];
        announceRetryAt := announceRetryAt[service := now + RetryDelay(count)];
      }
    }

    method FinishAnnounce(service: Name, ok: bool, now: Time)
      requires service !in announceInflight
      modifies this`announceFailures, this`announceRetryAt, this`announced, this`reconcileDirty, this`nextTypesSync
      modifies this`relayWithdraw, this`withdrawDeadline
      ensures View() == ApplyAnnounced(old(View()), service, ok, now)
    {
      hide AnnounceSucceeded, AnnounceFailed, MarkTypesDirty, Types;
      assert announceInflight - {service} == announceInflight;
      if ok {
        AnnounceOk(service, now);
        MarkDirty(now);
      } else {
        AnnounceErr(service, now);
      }
    }

    method FinishWithdraw(service: Name, ok: bool, now: Time)
      requires service !in withdrawInflight
      modifies this`announced, this`relayWithdraw, this`relayWithdrawRetryAt, this`announceRetryAt
      modifies this`withdrawDeadline
      ensures View() == ApplyWithdrawn(old(View()), service, ok, now)
    {
      assert withdrawInflight - {service} == withdrawInflight;
      if ok {
        announced := announced - {service};
        relayWithdraw := relayWithdraw - {service};
        relayWithdrawRetryAt := relayWithdrawRetryAt - {service};
        if service in backendReady && RelayReady(View()) {
          announceRetryAt := announceRetryAt[service := now];
        }
      } else if service in relayWithdraw {
        relayWithdrawRetryAt := relayWithdrawRetryAt[service := now + ANNOUNCE_RETRY_INITIAL];
      } else if service in backendReady {
        announceRetryAt := announceRetryAt[service := now];
      } else {
        withdrawDeadline := withdrawDeadline[service := now + ANNOUNCE_RETRY_INITIAL];
      }
    }

    method FinishChain(now: Time, delay: Time)
      modifies this`reconcile, this`pendingTypesWrite, this`nextTypesSync, this`reconcileDirty
      ensures Types() == FinishReconcile(old(Types()), now, delay)
    {
      reconcile, pendingTypesWrite, nextTypesSync := Idle, None, Some(now + delay);
      if reconcileDirty {
        reconcileDirty, nextTypesSync := false, Some(now);
      }
    }

    method FinishRead(types: Option<seq<Name>>, now: Time) returns (order: seq<Name>)
      modifies this`reconcile, this`pendingTypesWrite, this`nextTypesSync, this`reconcileDirty, this`knownTypes
      ensures Lists(order, announced)
      ensures Types() == ApplyTypesRead(cfg, old(Types()), types, order, now)
    {
      hide MergeTypes, EncodeLimited;
      order := Listing(announced);
      match types
      case None => FinishChain(now, RECONCILE_RETRY);
      case Some(list) =>
        var network := set x | x in list;
        MergeKnownTypes(list);
        MergeKnownTypes(order);
        if knownTypes == {} || knownTypes == network {
          FinishChain(now, cfg.syncInterval);
        } else {
          var names := Sort(knownTypes);
          var value, included := EncodeTypesLimited(names, cfg.maxRecordBytes);
          pendingTypesWrite, reconcile, reconcileDirty := Some(value), ReadyToWrite, false;
        }
    }
  }

  // Both result handlers clear the mark themselves, so it may as well be clear already.
  lemma MarkCleared(r: State, x: Name, ok: bool, now: Time)
    ensures ApplyAnnounced(r.(prov := r.prov.(announcing := r.prov.announcing - {x})), x, ok, now) ==
            ApplyAnnounced(r, x, ok, now)
    ensures ApplyWithdrawn(r.(prov := r.prov.(withdrawing := r.prov.withdrawing - {x})), x, ok, now) ==
            ApplyWithdrawn(r, x, ok, now)
  {
    assert r.prov.announcing - {x} - {x} == r.prov.announcing - {x};
    assert r.prov.withdrawing - {x} - {x} == r.prov.withdrawing - {x};
  }

  lemma GraceStart(deadline: map<Name, Time>, down: set<Name>, announced: set<Name>, now: Time)
    ensures GraceDeadlines(deadline, (down - down) * announced, now) == deadline
  {
  }

  // One more service that went down has been dealt with.
  lemma GraceStep(deadline: map<Name, Time>, down: set<Name>, rest: set<Name>, announced: set<Name>, x: Name, now: Time)
    requires x in rest && rest <= down
    ensures var before := GraceDeadlines(deadline, (down - rest) * announced, now);
            GraceDeadlines(deadline, (down - (rest - {x})) * announced, now) ==
              if x in announced && x !in before then before[x := now + WITHDRAW_GRACE] else before
  {
    assert (down - (rest - {x})) * announced == (down - rest) * announced + ({x} * announced);
  }

  lemma MinusStep<V>(m: map<Name, V>, all: set<Name>, rest: set<Name>, x: Name)
    requires rest <= all && x in rest
    ensures m - (all - rest) - {x} == m - (all - (rest - {x}))
  {
  }

  lemma AppendAssoc(jobs: seq<Job>, j: Job, rest: seq<Job>)
    ensures jobs + ([j] + rest) == jobs + [j] + rest
  {
  }

  // The members of a hash set in some order.
  method Listing(s: set<Name>) returns (order: seq<Name>)
    ensures Lists(order, s)
  {
    order := [];
    var rest := s;
    while rest != {}
      invariant rest <= s && Lists(order, s - rest)
      decreases |rest|
    {
      var x :| x in rest;
      order, rest := order + [x], rest - {x};
    }
  }

  /** The actor: the state, and the jobs in its join set. Each method is one turn of its loop. */
  class ServiceRegistryActor {
    const state: RegistryState
    var jobs: multiset<Job>
    var clock: Time

    ghost function System(): Runs.System
      reads this, state
    {
      Runs.System(state.View(), jobs, clock)
    }

    constructor (cfg: Config)
      ensures fresh(state) && state.cfg == cfg
      ensures System() == Runs.Exec(cfg, [])
    {
      state := new RegistryState(cfg);
      jobs, clock := multiset{}, 0;
    }

    method Pump()
      modifies this, state
      ensures System() == Runs.Pump(state.cfg, old(System()))
    {
      hide Plan, RegistryState.View;
      var slots := Runs.FreeSlots(state.cfg, jobs);
      var specs := state.PlanJobs(clock, slots);
      var i := 0;
      ghost var before := jobs;
      while i < |specs|
        invariant 0 <= i <= |specs| && jobs == before + multiset(specs[..i])
        invariant state.View() == old(Runs.PumpPlan(state.cfg, System())).state && clock == old(clock)
      {
        assert specs[..i + 1] == specs[..i] + [specs[i]];
        jobs := jobs + multiset{specs[i]};
        i := i + 1;
      }
      assert specs[..i] == specs;
    }

    method OnCommand(command: Command, at: Time, pumpAt: Time)
      requires Runs.Enabled(System(), Runs.Timed(Runs.Received(command), at, pumpAt))
      modifies this, state
      ensures System() == Runs.Step(state.cfg, old(System()), Runs.Timed(Runs.Received(command), at, pumpAt))
    {
      hide Handle, Runs.Pump;
      state.HandleCommand(command, at);
      clock := pumpAt;
      Pump();
    }

    method OnJobEnded(job: Job, outcome: Outcome, at: Time, pumpAt: Time) returns (ghost order: seq<Name>)
      requires job in jobs && Fitting(job, outcome) && clock <= at <= pumpAt
      modifies this, state
      ensures Lists(order, old(state.announced))
      ensures System() == Runs.Step(state.cfg, old(System()), Runs.Timed(Runs.Ended(job, outcome, order), at, pumpAt))
    {
      hide Apply, Runs.Pump;
      order := state.ApplyResult(ResultOf(job, outcome), at);
      jobs, clock := jobs - multiset{job}, pumpAt;
      Pump();
    }

    method OnJobAborted(job: Job, at: Time, pumpAt: Time)
      requires Runs.Enabled(System(), Runs.Timed(Runs.Aborted(job), at, pumpAt))
      modifies this, state
      ensures System() == Runs.Step(state.cfg, old(System()), Runs.Timed(Runs.Aborted(job), at, pumpAt))
    {
      hide Runs.Pump;
      jobs, clock := jobs - multiset{job}, pumpAt;
      Pump();
    }

    method OnReadiness(ready: set<Name>, at: Time, pumpAt: Time)
      requires clock <= at <= pumpAt
      modifies this, state
      ensures System() == Runs.Step(state.cfg, old(System()), Runs.Timed(Runs.ReadinessChanged(ready), at, pumpAt))
    {
      hide ReplaceReady, Runs.Pump;
      state.ReplaceBackendReady(ready, at);
      clock := pumpAt;
      Pump();
    }
  }
}
