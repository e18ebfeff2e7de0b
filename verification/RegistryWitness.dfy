/** Runs that show the registry's corner cases are reachable, for any node with
    one local service and at least eight job slots. The state of the type index
    does not matter to them and is left open. */
module RegistryWitness {
  import opened Names
  import opened Options
  import opened TypesCodec
  import opened Registry
  import opened RegistryPlan
  import opened RegistryInvariant
  import opened RegistrySchedule
  import opened RegistryRuns
  import opened RegistryMarks
  import opened RegistryGrace

  ghost predicate Lone(cfg: Config, x: Name) {
    LocalNames(cfg) == [x] && Limit(cfg) >= 8
  }

  lemma LoneNodes(x: Name, syncInterval: Time, maxRecordBytes: nat, maxInflight: nat)
    requires IsValidServiceName(x) && maxInflight >= 8
    ensures Lone(Config([x], syncInterval, maxRecordBytes, maxInflight), x)
  {
    assert ValidNames([x]) == [x] + ValidNames([]);
  }

  // The state apart from the type index.
  function Face(r: State): State {
    r.(index := INITIAL.index)
  }

  // Nothing but the one service is waiting for anything.
  predicate Plain(r: State, x: Name) {
    RelayReady(r) && r.prov.deadline.Keys <= {x} && r.prov.forced == {} && r.prov.retryAt == map[]
  }

  // The one provider job a pass starts, and the state after it.
  function LoneJob(r: State, x: Name, now: Time): Option<Job> {
    if WithdrawDue(r, x, now) && !InFlight(r, x) then Some(Withdraw(r.generation, x))
    else if r.bootstrapped && AnnounceEligible(r, x, now) then Some(Announce(r.generation, x))
    else None
  }

  function LoneState(r: State, x: Name, now: Time): State {
    match LoneJob(r, x, now)
    case Some(Withdraw(_, _)) => StartWithdraw(r, x)
    case Some(_) => StartAnnounce(r, x)
    case None => r
  }

  lemma SortedFew(x: Name)
    ensures Sorted({}) == [] && Sorted({x}) == [x]
  {
    LeqTotal(x, x);
    SortedHead({x}, x);
    assert {x} - {x} == {};
  }

  lemma LoneWithdraw(r: State, x: Name, now: Time, slots: nat)
    requires Plain(r, x) && slots >= 1
    ensures WithdrawPhase(r, now, slots) ==
            if WithdrawDue(r, x, now) && !InFlight(r, x) then Batch(StartWithdraw(r, x), [Withdraw(r.generation, x)])
            else Batch(r, [])
  {
    SortedFew(x);
    assert DueWithdrawals(r, now) == if WithdrawDue(r, x, now) then {x} else {};
    assert [x][1..] == [] && [Withdraw(r.generation, x)] + [] == [Withdraw(r.generation, x)];
    assert PlanWithdrawals(r, [], slots) == Batch(r, []);
    assert PlanWithdrawals(StartWithdraw(r, x), [], slots - 1) == Batch(StartWithdraw(r, x), []);
  }

  lemma LoneRetry(r: State, x: Name, now: Time, slots: nat)
    requires Plain(r, x)
    ensures RetryPhase(r, now, slots) == Batch(r, [])
  {
    SortedFew(x);
    assert DueRetries(r, now) == {};
  }

  lemma LoneAnnounce(cfg: Config, r: State, x: Name, now: Time, slots: nat)
    requires Plain(r, x) && Lone(cfg, x) && (slots == 0 ==> InFlight(r, x))
    ensures AnnouncePhase(cfg, r, now, slots) ==
            if r.bootstrapped && AnnounceEligible(r, x, now)
            then Batch(StartAnnounce(r, x), [Announce(r.generation, x)]) else Batch(r, [])
  {
    hide LocalNames;
    assert [x][1..] == [] && [Announce(r.generation, x)] + [] == [Announce(r.generation, x)];
    assert PlanAnnounces(r, [], now, slots) == Batch(r, []);
    if slots > 0 {
      assert PlanAnnounces(StartAnnounce(r, x), [], now, slots - 1) == Batch(StartAnnounce(r, x), []);
    }
  }

  lemma LonePlan(cfg: Config, r: State, x: Name, now: Time, slots: nat) returns (extra: seq<Job>)
    requires Lone(cfg, x) && Plain(r, x) && slots >= 1
    ensures var b := Plan(cfg, r, now, slots);
            && Face(b.state) == Face(LoneState(r, x, now))
            && b.jobs == (if LoneJob(r, x, now).Some? then [LoneJob(r, x, now).value] else []) + extra
            && |extra| <= 1 && forall j :: j in extra ==> !IsProvider(j)
  {
    hide Sorted, ValidNames, PlanWithdrawals, PlanRetries, PlanAnnounces;
    LoneWithdraw(r, x, now, slots);
    var w := WithdrawPhase(r, now, slots);
    hide WithdrawPhase, RetryPhase, AnnouncePhase;
    var m := slots - |w.jobs|;
    LoneRetry(w.state, x, now, m);
    LoneAnnounce(cfg, w.state, x, now, m);
    var a := AnnouncePhase(cfg, w.state, now, m);
    var c := PlanReconcile(a.state, now, m - |a.jobs|);
    assert Face(c.state) == Face(a.state) && |c.jobs| <= 1 && forall j :: j in c.jobs ==> !IsProvider(j);
    LoneParts(cfg, r, now, slots, w, a, c);
    LoneEnd(r, x, now, w, a);
    extra := c.jobs;
    hide WithdrawPhase, RetryPhase, AnnouncePhase, PlanReconcile, LocalNames, LoneState, LoneJob, Plan, Plain;
  }

  lemma LoneParts(cfg: Config, r: State, now: Time, slots: nat, w: Batch, a: Batch, c: Batch)
    requires w == WithdrawPhase(r, now, slots)
    requires RetryPhase(w.state, now, slots - |w.jobs|) == Batch(w.state, [])
    requires a == AnnouncePhase(cfg, w.state, now, slots - |w.jobs|)
    requires c == PlanReconcile(a.state, now, slots - |w.jobs| - |a.jobs|)
    ensures Plan(cfg, r, now, slots) == Batch(c.state, (w.jobs + a.jobs) + c.jobs)
  {
    hide WithdrawPhase, RetryPhase, AnnouncePhase, PlanReconcile;
    assert w.jobs + ([] + (a.jobs + c.jobs)) == (w.jobs + a.jobs) + c.jobs;
  }

  lemma LoneEnd(r: State, x: Name, now: Time, w: Batch, a: Batch)
    requires w == if WithdrawDue(r, x, now) && !InFlight(r, x)
                  then Batch(StartWithdraw(r, x), [Withdraw(r.generation, x)]) else Batch(r, [])
    requires a == if w.state.bootstrapped && AnnounceEligible(w.state, x, now)
                  then Batch(StartAnnounce(w.state, x), [Announce(w.state.generation, x)]) else Batch(w.state, [])
    ensures a.state == LoneState(r, x, now)
    ensures w.jobs + a.jobs == if LoneJob(r, x, now).Some? then [LoneJob(r, x, now).value] else []
  {
  }

  // ---- one event at a time ----

  // What the runs below say of a system: all but the index, its provider jobs, and a bound on its jobs.
  ghost predicate Shows(s: System, f: State, js: Jobs, now: Time, n: nat) {
    && Face(s.state) == f && s.now == now && |s.jobs| <= n
    && forall j :: IsProvider(j) ==> s.jobs[j] == js[j]
  }

  ghost function FaceAfter(cfg: Config, f: State, e: Timed): State
    requires e.event.Ended? ==> IsProvider(e.event.job) && e.event.outcome.Done?
  {
    match e.event
    case Received(command) => Face(Handle(f, command, e.at))
    case Ended(job, outcome, order) => Face(Apply(cfg, f, ResultOf(job, outcome), order, e.at))
    case Aborted(_) => f
    case ReadinessChanged(ready) => ReplaceReady(f, ready, e.at)
  }

  lemma FaceHandles(r: State, command: Command, now: Time)
    ensures Face(Handle(r, command, now)) == Face(Handle(Face(r), command, now))
  {
    hide MarkTypesDirty, Forget, RelayGained, RelayLost;
  }

  lemma FaceApplies(cfg: Config, r: State, job: Job, ok: bool, order: seq<Name>, now: Time)
    requires IsProvider(job)
    ensures Face(Apply(cfg, r, ResultOf(job, Done(ok)), order, now)) ==
            Face(Apply(cfg, Face(r), ResultOf(job, Done(ok)), order, now))
  {
    hide MarkTypesDirty, AnnounceSucceeded, AnnounceFailed, WithdrawSucceeded, WithdrawFailed;
  }

  lemma FaceReacts(cfg: Config, s: System, e: Timed)
    requires Enabled(s, e) && (e.event.Ended? ==> IsProvider(e.event.job) && e.event.outcome.Done?)
    ensures Face(React(cfg, s, e).state) == FaceAfter(cfg, Face(s.state), e)
  {
    hide Handle, Apply;
    match e.event
    case Received(command) => FaceHandles(s.state, command, e.at);
    case Ended(job, outcome, order) => FaceApplies(cfg, s.state, job, outcome.ok, order, e.at);
    case _ =>
  }

  ghost function JobsAfter(js: Jobs, e: Timed): Jobs {
    if e.event.Ended? || e.event.Aborted? then js - multiset{e.event.job} else js
  }

  ghost function JobOf(j: Option<Job>): Jobs {
    if j.Some? then multiset{j.value} else multiset{}
  }

  lemma LoneStep(cfg: Config, s: System, e: Timed, x: Name, f: State, js: Jobs, n: nat)
    requires Lone(cfg, x) && Shows(s, f, js, s.now, n) && Enabled(s, e)
    requires e.event.Ended? ==> IsProvider(e.event.job) && e.event.outcome.Done?
    requires Plain(FaceAfter(cfg, f, e), x) && n - (if e.event.Ended? then 1 else 0) < Limit(cfg)
    ensures var g := FaceAfter(cfg, f, e);
            Shows(Step(cfg, s, e), Face(LoneState(g, x, e.pumpAt)), JobsAfter(js, e) + JobOf(LoneJob(g, x, e.pumpAt)),
                  e.pumpAt, n - (if e.event.Ended? then 1 else 0) + |JobOf(LoneJob(g, x, e.pumpAt))| + 1)
  {
    var q, g := React(cfg, s, e), FaceAfter(cfg, f, e);
    FaceReacts(cfg, s, e);
    ReactJobs(cfg, s, e);
    hide React, FaceAfter, Plain, Pump;
    LonePump(cfg, q, x, g, JobsAfter(js, e), n - (if e.event.Ended? then 1 else 0));
  }

  lemma LonePump(cfg: Config, s: System, x: Name, f: State, js: Jobs, n: nat)
    requires Lone(cfg, x) && Shows(s, f, js, s.now, n) && Plain(f, x) && n < Limit(cfg)
    ensures Shows(Pump(cfg, s), Face(LoneState(f, x, s.now)), js + JobOf(LoneJob(f, x, s.now)), s.now,
                  n + |JobOf(LoneJob(f, x, s.now))| + 1)
  {
    LoneFaces(s.state, x, s.now);
    var extra := LonePlan(cfg, s.state, x, s.now, FreeSlots(cfg, s.jobs));
    hide Plan, LoneJob, LoneState, Plain;
    LoneCount(s.jobs, Plan(cfg, s.state, s.now, FreeSlots(cfg, s.jobs)).jobs, LoneJob(f, x, s.now), extra);
  }

  lemma LoneFaces(r: State, x: Name, now: Time)
    ensures LoneJob(r, x, now) == LoneJob(Face(r), x, now)
    ensures Face(LoneState(r, x, now)) == Face(LoneState(Face(r), x, now))
    ensures Plain(r, x) == Plain(Face(r), x)
  {
  }

  lemma LoneCount(jobs: Jobs, started: seq<Job>, job: Option<Job>, extra: seq<Job>)
    requires started == (if job.Some? then [job.value] else []) + extra
    requires forall j :: j in extra ==> !IsProvider(j)
    ensures forall j :: IsProvider(j) ==> (jobs + multiset(started))[j] == (jobs + JobOf(job))[j]
    ensures |jobs + multiset(started)| == |jobs| + |JobOf(job)| + |extra|
  {
    var m := multiset(extra);
    assert |m| == |extra|;
    assert multiset(started) == JobOf(job) + m;
    forall j | IsProvider(j) ensures m[j] == 0 {
      assert j !in extra;
    }
  }

  lemma Grow(cfg: Config, es: seq<Timed>, e: Timed)
    requires Run(cfg, es) && Enabled(Exec(cfg, es), e)
    ensures Run(cfg, es + [e]) && Exec(cfg, es + [e]) == Step(cfg, Exec(cfg, es), e)
    ensures Init(es + [e]) == es && Last(es + [e]) == e
  {
    hide Enabled, Step;
    assert Init(es + [e]) == es;
  }

  predicate Ordinary(e: Timed) {
    e.event.Ended? ==> IsProvider(e.event.job) && e.event.outcome.Done?
  }

  // Event `e` turns a node showing `f` into one showing `g` and starts `job`.
  ghost predicate Moves(cfg: Config, x: Name, f: State, e: Timed, g: State, job: Option<Job>) {
    && Ordinary(e)
    && var h := FaceAfter(cfg, f, e);
    Plain(h, x) && job == LoneJob(h, x, e.pumpAt) && g == Face(LoneState(h, x, e.pumpAt))
  }

  /** One more event of a run with a single service. */
  lemma Extend(cfg: Config, es: seq<Timed>, e: Timed, x: Name, f: State, js: Jobs, n: nat, g: State, job: Option<Job>)
    requires Lone(cfg, x) && Run(cfg, es) && Shows(Exec(cfg, es), f, js, Exec(cfg, es).now, n)
    requires Enabled(Exec(cfg, es), e) && Moves(cfg, x, f, e, g, job)
    requires (e.event.Ended? ==> n > 0) && n - (if e.event.Ended? then 1 else 0) < Limit(cfg)
    ensures Run(cfg, es + [e]) && Init(es + [e]) == es && Last(es + [e]) == e
    ensures Shows(Exec(cfg, es + [e]), g, JobsAfter(js, e) + JobOf(job), e.pumpAt,
                  n - (if e.event.Ended? then 1 else 0) + |JobOf(job)| + 1)
  {
    hide Run, Exec, Enabled, FaceAfter, Plain, LoneJob, LoneState, Step;
    Grow(cfg, es, e);
    LoneStep(cfg, Exec(cfg, es), e, x, f, js, n);
  }

  // ---- the moves of a node that needs no relay ----

  function Node(bootstrapped: bool, ready: set<Name>, prov: Providers, generation: nat): State {
    State(bootstrapped, false, 0, ready, prov, INITIAL.index, generation)
  }

  function At(event: Event, t: Time): Timed {
    Timed(event, t, t)
  }

  function Announcing(x: Name): Providers {
    NO_PROVIDERS.(announcing := {x})
  }

  function Leaving(x: Name): Providers {
    NO_PROVIDERS.(announced := {x}, withdrawing := {x})
  }

  lemma Connects(cfg: Config, x: Name)
    ensures Moves(cfg, x, Node(false, {}, NO_PROVIDERS, 0), At(ReadinessChanged({x}), 0),
        Node(false, {x}, NO_PROVIDERS, 0), None)
  {
    assert ReplaceReady(Node(false, {}, NO_PROVIDERS, 0), {x}, 0) == Node(false, {x}, NO_PROVIDERS, 0);
  }

  lemma Bootstraps(cfg: Config, x: Name, g: nat)
    ensures Moves(cfg, x, Node(false, {x}, NO_PROVIDERS, g), At(Received(BootstrapCompleted), 0),
                  Node(true, {x}, Announcing(x), g), Some(Announce(g, x)))
  {
  }

  lemma Restarts(cfg: Config, x: Name)
    ensures Moves(cfg, x, Node(true, {x}, Announcing(x), 0), At(Received(Reset), 0),
        Node(false, {x}, NO_PROVIDERS, 1), None)
  {
  }

  lemma LateResult(cfg: Config, x: Name, ok: bool)
    ensures Moves(cfg, x, Node(true, {x}, Announcing(x), 1), At(Ended(Announce(0, x), Done(ok), []), 0),
                  Node(true, {x}, Announcing(x), 1), Some(Announce(1, x)))
  {
  }

  lemma Announces(cfg: Config, x: Name)
    ensures Moves(cfg, x, Node(true, {x}, Announcing(x), 0), At(Ended(Announce(0, x), Done(true), []), 0),
                  Node(true, {x}, NO_PROVIDERS.(announced := {x}), 0), None)
  {
  }

  lemma Disconnects(cfg: Config, x: Name)
    ensures Moves(cfg, x, Node(true, {x}, NO_PROVIDERS.(announced := {x}), 0), At(ReadinessChanged({}), 0),
                  Node(true, {}, NO_PROVIDERS.(announced := {x}, deadline := map[x := WITHDRAW_GRACE]), 0), None)
  {
    var p := NO_PROVIDERS.(announced := {x});
    assert ReplaceReady(Node(true, {x}, p, 0), {}, 0) == Node(true, {}, p.(deadline := map[x := WITHDRAW_GRACE]), 0);
  }

  lemma Expires(cfg: Config, x: Name)
    ensures Moves(cfg, x, Node(true, {}, NO_PROVIDERS.(announced := {x}, deadline := map[x := WITHDRAW_GRACE]), 0),
                  At(Received(Tick), WITHDRAW_GRACE), Node(true, {}, Leaving(x), 0), Some(Withdraw(0, x)))
  {
    assert map[x := WITHDRAW_GRACE] - {x} == map[];
  }

  lemma Reconnects(cfg: Config, x: Name)
    ensures Moves(cfg, x, Node(true, {}, Leaving(x), 0), At(ReadinessChanged({x}), WITHDRAW_GRACE),
                  Node(true, {x}, Leaving(x), 0), None)
  {
    assert ReplaceReady(Node(true, {}, Leaving(x), 0), {x}, WITHDRAW_GRACE) == Node(true, {x}, Leaving(x), 0);
  }

  lemma DropsAgain(cfg: Config, x: Name)
    ensures Moves(cfg, x, Node(true, {x}, Leaving(x), 0), At(ReadinessChanged({}), WITHDRAW_GRACE),
                  Node(true, {}, Leaving(x).(deadline := map[x := 2 * WITHDRAW_GRACE]), 0), None)
  {
    assert ReplaceReady(Node(true, {x}, Leaving(x), 0), {}, WITHDRAW_GRACE) ==
           Node(true, {}, Leaving(x).(deadline := map[x := 2 * WITHDRAW_GRACE]), 0);
  }

  // ---- the runs ----

  lemma Begins(cfg: Config, x: Name) returns (es: seq<Timed>)
    requires Lone(cfg, x)
    ensures Run(cfg, es) && Quiet(es) && Exec(cfg, es).now == 0
    ensures Shows(Exec(cfg, es), Node(true, {x}, Announcing(x), 0), multiset{Announce(0, x)}, 0, 3)
  {
    var up, boot := At(ReadinessChanged({x}), 0), At(Received(BootstrapCompleted), 0);
    Connects(cfg, x);
    Bootstraps(cfg, x, 0);
    assert Run(cfg, []) && Exec(cfg, []) == System(INITIAL, multiset{}, 0) && Quiet([]);
    hide Run, Exec, Moves, Lone;
    Extend(cfg, [], up, x, INITIAL, multiset{}, 0, Node(false, {x}, NO_PROVIDERS, 0), None);
    es := [] + [up];
    Extend(cfg, es, boot, x, Node(false, {x}, NO_PROVIDERS, 0), multiset{}, 1,
           Node(true, {x}, Announcing(x), 0), Some(Announce(0, x)));
    es := es + [boot];
  }

  // A run ending in the given state, and the same run one event longer.
  ghost predicate Reaches(cfg: Config, es: seq<Timed>, f: State, js: Jobs, now: Time, n: nat) {
    Run(cfg, es) && Shows(Exec(cfg, es), f, js, now, n)
  }

  lemma Then(cfg: Config, es: seq<Timed>, e: Timed, x: Name, f: State, js: Jobs, now: Time, n: nat,
             g: State, job: Option<Job>, js': Jobs, m: nat) returns (es': seq<Timed>)
    requires Lone(cfg, x) && Reaches(cfg, es, f, js, now, n) && Moves(cfg, x, f, e, g, job)
    requires Enabled(Exec(cfg, es), e)
    requires js' == JobsAfter(js, e) + JobOf(job)
    requires (e.event.Ended? ==> n > 0) && n - (if e.event.Ended? then 1 else 0) < Limit(cfg)
    requires m == n - (if e.event.Ended? then 1 else 0) + |JobOf(job)| + 1
    ensures es' == es + [e] && Init(es') == es && Last(es') == e && Reaches(cfg, es', g, js', e.pumpAt, m)
    ensures Resets(es') == Resets(es) + (if e.event == Received(Reset) then 1 else 0)
    ensures Quiet(es) && (e.event.Received? ==> e.event.command.Tick?) ==> Quiet(es')
  {
    hide Run, Exec, Moves, Lone;
    Extend(cfg, es, e, x, f, js, n, g, job);
    es' := es + [e];
  }

  lemma Restarted(cfg: Config, x: Name) returns (es: seq<Timed>)
    requires Lone(cfg, x)
    ensures Reaches(cfg, es, Node(false, {x}, NO_PROVIDERS, 1), multiset{Announce(0, x)}, 0, 4) && Resets(es) == 1
  {
    hide Run, Exec, Moves, LocalNames, Limit, Quiet, Resets, DownSince, Caught, Step, Marks, NoStragglers;
    es := Begins(cfg, x);
    QuietFacts(cfg, es);
    Restarts(cfg, x);
    var js := multiset{Announce(0, x)};
    es := Then(cfg, es, At(Received(Reset), 0), x, Node(true, {x}, Announcing(x), 0), js, 0, 3,
               Node(false, {x}, NO_PROVIDERS, 1), None, js, 4);
  }

  lemma Rebooted(cfg: Config, x: Name) returns (es: seq<Timed>)
    requires Lone(cfg, x)
    ensures Reaches(cfg, es, Node(true, {x}, Announcing(x), 1), multiset{Announce(0, x), Announce(1, x)}, 0, 6)
    ensures Resets(es) == 1
  {
    hide Run, Exec, Moves, LocalNames, Limit, Quiet, Resets, DownSince, Caught, Step, Marks, NoStragglers;
    es := Restarted(cfg, x);
    Bootstraps(cfg, x, 1);
    var js := multiset{Announce(0, x)};
    es := Then(cfg, es, At(Received(BootstrapCompleted), 0), x, Node(false, {x}, NO_PROVIDERS, 1), js, 0, 4,
               Node(true, {x}, Announcing(x), 1), Some(Announce(1, x)), multiset{Announce(0, x), Announce(1, x)}, 6);
  }

  /** Connect, bootstrap, Reset, bootstrap, and only then the first generation's result: the mark of the
      running announcement is gone, so it is started twice in one generation. */
  lemma LateResultDoublesTheJob(cfg: Config, x: Name, ok: bool) returns (es: seq<Timed>)
    requires Lone(cfg, x)
    ensures Run(cfg, es) && es != [] && Last(es).event == Ended(Announce(0, x), Done(ok), []) && Resets(es) == 1
    ensures Exec(cfg, es).jobs[Announce(1, x)] == 2 && !Marks(Exec(cfg, es).state, Exec(cfg, es).jobs)
  {
    hide Run, Exec, Moves, LocalNames, Limit, Quiet, Resets, DownSince, Caught, Step, Marks, NoStragglers;
    es := Rebooted(cfg, x);
    LateResult(cfg, x, ok);
    var js, late := multiset{Announce(0, x), Announce(1, x)}, At(Ended(Announce(0, x), Done(ok), []), 0);
    assert Exec(cfg, es).jobs[Announce(0, x)] == js[Announce(0, x)] == 1;
    assert Enabled(Exec(cfg, es), late);
    TwoAnnouncements(x);
    es := Then(cfg, es, late, x, Node(true, {x}, Announcing(x), 1), js, 0, 6,
               Node(true, {x}, Announcing(x), 1), Some(Announce(1, x)), multiset{Announce(1, x), Announce(1, x)}, 7);
    assert Exec(cfg, es).jobs[Announce(1, x)] == 2;
    Doubled(Exec(cfg, es), x);
  }

  lemma TwoAnnouncements(x: Name)
    ensures multiset{Announce(0, x), Announce(1, x)} - multiset{Announce(0, x)} + multiset{Announce(1, x)} ==
            multiset{Announce(1, x), Announce(1, x)}
  {
  }

  lemma Doubled(s: System, x: Name)
    requires s.state.generation == 1 && s.jobs[Announce(1, x)] == 2
    ensures !Marks(s.state, s.jobs)
  {
  }

  // Announced, then disconnected.
  lemma Disconnected(cfg: Config, x: Name) returns (es: seq<Timed>)
    requires Lone(cfg, x)
    ensures Reaches(cfg, es, Node(true, {}, NO_PROVIDERS.(announced := {x}, deadline := map[x := WITHDRAW_GRACE]), 0),
                    multiset{}, 0, 4)
    ensures Quiet(es)
  {
    hide Run, Exec, Moves, LocalNames, Limit, Quiet, Resets, DownSince, Caught, Step, Marks, NoStragglers;
    es := Begins(cfg, x);
    Announces(cfg, x);
    Disconnects(cfg, x);
    var p := NO_PROVIDERS.(announced := {x});
    assert Exec(cfg, es).jobs[Announce(0, x)] == 1;
    es := Then(cfg, es, At(Ended(Announce(0, x), Done(true), []), 0), x, Node(true, {x}, Announcing(x), 0),
               multiset{Announce(0, x)}, 0, 3, Node(true, {x}, p, 0), None, multiset{}, 3);
    es := Then(cfg, es, At(ReadinessChanged({}), 0), x, Node(true, {x}, p, 0), multiset{}, 0, 3,
               Node(true, {}, p.(deadline := map[x := WITHDRAW_GRACE]), 0), None, multiset{}, 4);
  }

  // The withdrawal is running and the backend is back.
  lemma Reconnected(cfg: Config, x: Name) returns (es: seq<Timed>)
    requires Lone(cfg, x)
    ensures Reaches(cfg, es, Node(true, {x}, Leaving(x), 0), multiset{Withdraw(0, x)}, WITHDRAW_GRACE, 7)
    ensures Quiet(es)
  {
    hide Run, Exec, Moves, LocalNames, Limit, Quiet, Resets, DownSince, Caught, Step, Marks, NoStragglers;
    es := Disconnected(cfg, x);
    Expires(cfg, x);
    Reconnects(cfg, x);
    var js := multiset{Withdraw(0, x)};
    es := Then(cfg, es, At(Received(Tick), WITHDRAW_GRACE), x,
               Node(true, {}, NO_PROVIDERS.(announced := {x}, deadline := map[x := WITHDRAW_GRACE]), 0),
               multiset{}, 0, 4,
               Node(true, {}, Leaving(x), 0), Some(Withdraw(0, x)), js, 6);
    es := Then(cfg, es, At(ReadinessChanged({x}), WITHDRAW_GRACE), x, Node(true, {}, Leaving(x), 0),
               js, WITHDRAW_GRACE, 6,
               Node(true, {x}, Leaving(x), 0), None, js, 7);
  }

  /** A withdrawal that is due, a reconnect and a second disconnect: the withdrawal was running at the
      disconnect, and its result ends the announcement at once. */
  lemma CaughtIsReachable(cfg: Config, x: Name) returns (es: seq<Timed>, e: Timed)
    requires Lone(cfg, x)
    ensures Run(cfg, es) && Quiet(es) && x in DownSince(cfg, es) && x in Caught(cfg, es)
    ensures x in Exec(cfg, es).state.prov.announced && Exec(cfg, es).now == DownSince(cfg, es)[x]
    ensures WithdrawsEarly(cfg, es, e, x)
  {
    hide Run, Exec, Moves, LocalNames, Limit, Quiet, Resets, DownSince, Caught, Step, Marks, NoStragglers;
    var before := Reconnected(cfg, x);
    DropsAgain(cfg, x);
    var js, drop := multiset{Withdraw(0, x)}, At(ReadinessChanged({}), WITHDRAW_GRACE);
    assert Exec(cfg, before).jobs[Withdraw(0, x)] == 1;
    es := Then(cfg, before, drop, x, Node(true, {x}, Leaving(x), 0), js, WITHDRAW_GRACE, 7,
               Node(true, {}, Leaving(x).(deadline := map[x := 2 * WITHDRAW_GRACE]), 0), None, js, 8);
    DropsAtOnce(cfg, before, drop, x);
    assert Exec(cfg, es).jobs[Withdraw(0, x)] == 1;
    e := EndsWithdrawal(cfg, Exec(cfg, es), x);
  }

  lemma DropsAtOnce(cfg: Config, es: seq<Timed>, e: Timed, x: Name)
    requires Run(cfg, es + [e]) && Init(es + [e]) == es && Last(es + [e]) == e && Run(cfg, es)
    requires e.event == ReadinessChanged({}) && x in Exec(cfg, es).state.ready
    requires x in Exec(cfg, es).state.prov.announced
        && Withdraw(Exec(cfg, es).state.generation, x) in Exec(cfg, es).jobs
    ensures x in DownSince(cfg, es + [e]) && DownSince(cfg, es + [e])[x] == e.at && x in Caught(cfg, es + [e])
  {
    hide Run, Exec;
  }
}
