/** The registry seen one service at a time. A run of the whole registry is, for
    each service, a run of a small machine that reads only the events and the
    jobs that concern that service. */
module RegistryServices {
  import opened Names
  import opened Options
  import opened TypesCodec
  import opened Registry
  import opened RegistryPlan
  import opened RegistryInvariant
  import opened RegistrySchedule
  import opened RegistryRuns

  // All that the registry knows of one service.
  datatype Service = Service(up: bool, announced: bool, deadline: Option<Time>, forced: bool,
                             forcedRetry: Option<Time>, announcing: bool, withdrawing: bool,
                             failures: nat, retryAt: Option<Time>)

  const UNKNOWN: Service := Service(false, false, None, false, None, false, false, 0, None)

  function At(m: map<Name, Time>, x: Name): Option<Time> {
    if x in m then Some(m[x]) else None
  }

  function View(r: State, x: Name): Service {
    Service(x in r.ready, x in r.prov.announced, At(r.prov.deadline, x), x in r.prov.forced,
            At(r.prov.forcedRetry, x), x in r.prov.announcing, x in r.prov.withdrawing,
            if x in r.prov.failures then r.prov.failures[x] else 0, At(r.prov.retryAt, x))
  }

  // How long the n-th announce failure in a row delays the next attempt, in nanoseconds.
  function Wait(n: nat): Time {
    if n <= 1 then 5_000_000_000
    else if n == 2 then 10_000_000_000
    else if n == 3 then 20_000_000_000
    else if n == 4 then 40_000_000_000
    else 60_000_000_000
  }

  // What the events say about the whole node: bootstrapped, a relay there or not needed, the generation.
  datatype Node = Node(booted: bool, open: bool, generation: nat)

  function NodeAfter(es: seq<Timed>): Node {
    Node(BootstrapSeen(es), RelayOpen(es), Resets(es))
  }

  function Restarted(s: Service): Service {
    s.(announced := false, retryAt := None)
  }

  function Gained(s: Service): Service {
    Service(s.up, false, s.deadline, false, None, s.announcing, s.withdrawing, 0, None)
  }

  function Lost(s: Service): Service {
    s.(forced := s.forced || s.announced || s.announcing, retryAt := None)
  }

  function CameUp(s: Service): Service {
    s.(up := true, deadline := None, failures := 0, retryAt := None)
  }

  // A service that goes down while announced has three seconds, counted once.
  function WentDown(s: Service, at: Time): Service {
    s.(up := false, retryAt := None,
       deadline := if s.announced && s.deadline.None? then Some(at + 3_000_000_000) else s.deadline)
  }

  function Entered(s: Service, n: Node, at: Time): Service {
    var t := s.(announcing := false, announced := true, failures := 0, retryAt := None);
    if !n.open then t.(forced := true)
    else if s.up && n.booted then t
    else t.(deadline := Some(at))
  }

  function NotEntered(s: Service, n: Node, at: Time): Service {
    if s.up && n.booted
    then s.(announcing := false, failures := if s.failures < 0xffff_ffff then s.failures + 1 else 0xffff_ffff,
            retryAt := Some(at + Wait(s.failures + 1)))
    else s.(announcing := false)
  }

  function Left(s: Service, n: Node, at: Time): Service {
    s.(withdrawing := false, announced := false, forced := false, forcedRetry := None,
       retryAt := if s.up && n.open then Some(at) else s.retryAt)
  }

  function NotLeft(s: Service, at: Time): Service {
    var t := s.(withdrawing := false);
    if s.forced then t.(forcedRetry := Some(at + 5_000_000_000))
    else if s.up then t.(retryAt := Some(at))
    else t.(deadline := Some(at + 5_000_000_000))
  }

  // The service after an event, given the node before and after it.
  function AfterEvent(s: Service, n: Node, m: Node, e: Timed, x: Name): Service {
    match e.event
    case Received(BootstrapCompleted) => Restarted(s)
    case Received(Reannounce) => Restarted(s)
    case Received(Reset) => UNKNOWN.(up := s.up)
    case Received(RelayStateChanged(_, _)) =>
      if m.open == n.open then s else if m.open then Gained(s) else Lost(s)
    case Received(_) => s
    case ReadinessChanged(ready) =>
      if (x in ready) == s.up then s else if s.up then WentDown(s, e.at) else CameUp(s)
    case Ended(Announce(g, y), Done(ok), _) =>
      if y != x then s
      else if g != n.generation then s.(announcing := false)
      else if ok then Entered(s, n, e.at) else NotEntered(s, n, e.at)
    case Ended(Withdraw(g, y), Done(ok), _) =>
      if y != x then s
      else if g != n.generation then s.(withdrawing := false)
      else if ok then Left(s, n, e.at) else NotLeft(s, e.at)
    case Ended(_, _, _) => s
    case Aborted(_) => s
  }

  // The service after the pump: started jobs consume the times they were waiting for.
  function AfterPump(s: Service, leaves: bool, enters: bool): Service {
    var t := if leaves then s.(withdrawing := true, deadline := None, forcedRetry := None) else s;
    if enters then t.(announcing := true, retryAt := None) else t
  }

  ghost function Tracked(cfg: Config, es: seq<Timed>, x: Name): Service
    requires Run(cfg, es)
    decreases |es|
  {
    if es == [] then UNKNOWN else
      var s := AfterEvent(Tracked(cfg, Init(es), x), NodeAfter(Init(es)), NodeAfter(es), Last(es), x);
      var jobs := Issued(cfg, Exec(cfg, Init(es)), Last(es));
      AfterPump(s, Withdraw(Resets(es), x) in jobs, Announce(Resets(es), x) in jobs)
  }

  // ---- the whole registry does this to each service ----

  function NodeOf(r: State): Node {
    Node(r.bootstrapped, RelayReady(r), r.generation)
  }

  lemma WaitIsRetryDelay(n: nat)
    ensures RetryDelay(n) == Wait(n)
  {
    assert Pow2(1) == 2 && Pow2(2) == 4 && Pow2(3) == 8 && Pow2(4) == 16;
  }

  lemma HandleView(r: State, command: Command, e: Timed, x: Name)
    requires e.event == Received(command)
    ensures View(Handle(r, command, e.at), x)
            == AfterEvent(View(r, x), NodeOf(r), NodeOf(Handle(r, command, e.at)), e, x)
  {
  }

  lemma ReadyView(r: State, m: Node, e: Timed, x: Name)
    requires e.event.ReadinessChanged?
    ensures View(ReplaceReady(r, e.event.ready, e.at), x) == AfterEvent(View(r, x), NodeOf(r), m, e, x)
  {
  }

  lemma EnteredView(r: State, y: Name, at: Time, x: Name)
    ensures View(ApplyAnnounced(r, y, true, at), x)
            == if y != x then View(r, x) else Entered(View(r, x), NodeOf(r), at)
  {
    hide AnnounceFailed, MarkTypesDirty;
  }

  lemma NotEnteredView(r: State, y: Name, at: Time, x: Name)
    ensures View(ApplyAnnounced(r, y, false, at), x)
            == if y != x then View(r, x) else NotEntered(View(r, x), NodeOf(r), at)
  {
    hide AnnounceSucceeded, MarkTypesDirty, RetryDelay;
    var n := if x in r.prov.failures then r.prov.failures[x] else 0;
    WaitIsRetryDelay(Min(n + 1, U32_MAX));
  }

  lemma WithdrawnView(r: State, y: Name, ok: bool, at: Time, x: Name)
    ensures View(ApplyWithdrawn(r, y, ok, at), x)
            == if y != x then View(r, x)
               else if ok then Left(View(r, x), NodeOf(r), at) else NotLeft(View(r, x), at)
  {
  }

  lemma ApplyView(cfg: Config, r: State, m: Node, e: Timed, x: Name)
    requires e.event.Ended? && Fitting(e.event.job, e.event.outcome)
    ensures View(Apply(cfg, r, ResultOf(e.event.job, e.event.outcome), e.event.order, e.at), x)
            == AfterEvent(View(r, x), NodeOf(r), m, e, x)
  {
    var job, outcome := e.event.job, e.event.outcome;
    if job.Announce? {
      EnteredView(r, job.service, e.at, x);
      NotEnteredView(r, job.service, e.at, x);
    } else if job.Withdraw? {
      WithdrawnView(r, job.service, outcome.ok, e.at, x);
    }
    hide ApplyAnnounced, ApplyWithdrawn, ApplyTypesRead, FinishReconcile, Entered, NotEntered, Left, NotLeft;
  }

  lemma ReactView(cfg: Config, s: System, e: Timed, x: Name)
    requires Enabled(s, e)
    ensures View(React(cfg, s, e).state, x)
            == AfterEvent(View(s.state, x), NodeOf(s.state), NodeOf(React(cfg, s, e).state), e, x)
  {
    var m := NodeOf(React(cfg, s, e).state);
    match e.event {
      case Received(command) => HandleView(s.state, command, e, x);
      case ReadinessChanged(_) => ReadyView(s.state, m, e, x);
      case Ended(_, _, _) => ApplyView(cfg, s.state, m, e, x);
      case Aborted(_) =>
    }
  }

  ghost predicate Pumped(r: State, x: Name, q: State, jobs: Jobs) {
    && q.generation == r.generation
    && View(q, x) == AfterPump(View(r, x), Withdraw(r.generation, x) in jobs, Announce(r.generation, x) in jobs)
  }

  lemma WithdrawPumps(r: State, x: Name, q: State, jobs: Jobs, y: Name)
    requires Pumped(r, x, q, jobs)
    ensures Pumped(r, x, StartWithdraw(q, y), jobs + multiset{Withdraw(q.generation, y)})
  {
  }

  lemma AnnouncePumps(r: State, x: Name, q: State, jobs: Jobs, y: Name)
    requires Pumped(r, x, q, jobs)
    ensures Pumped(r, x, StartAnnounce(q, y), jobs + multiset{Announce(q.generation, y)})
  {
  }

  lemma ReconcileFrame(q: State, now: Time, slots: nat, x: Name)
    ensures var b := PlanReconcile(q, now, slots);
            && b.state.generation == q.generation && View(b.state, x) == View(q, x)
            && forall j :: j in b.jobs ==> !j.Withdraw? && !j.Announce?
  {
    hide SyncDue;
  }

  lemma ReconcilePumps(r: State, x: Name, q: State, jobs: Jobs, now: Time, slots: nat)
    requires Pumped(r, x, q, jobs)
    ensures Pumped(r, x, PlanReconcile(q, now, slots).state, jobs + multiset(PlanReconcile(q, now, slots).jobs))
  {
    ReconcileFrame(q, now, slots, x);
    hide PlanReconcile, View, AfterPump;
    var more := PlanReconcile(q, now, slots).jobs;
    forall j | j == Withdraw(r.generation, x) || j == Announce(r.generation, x)
      ensures j in jobs + multiset(more) <==> j in jobs
    {
      assert j !in multiset(more);
    }
  }

  lemma PumpSteps(cfg: Config, r: State, x: Name, now: Time, keeps: Property)
    requires keeps == ((q, js) => Pumped(r, x, q, js))
    ensures KeptByWithdraw(now, keeps) && KeptByRetry(now, keeps) && KeptByAnnounce(cfg, now, keeps)
    ensures KeptByReconcile(now, keeps)
  {
    hide Pumped, WithdrawDue, RetryDue, CanAnnounce, InFlight, StartWithdraw, StartAnnounce, PlanReconcile;
    forall q, js, y | keeps(q, js)
      ensures keeps(StartWithdraw(q, y), js + multiset{Withdraw(q.generation, y)})
      ensures keeps(StartAnnounce(q, y), js + multiset{Announce(q.generation, y)})
    {
      WithdrawPumps(r, x, q, js, y);
      AnnouncePumps(r, x, q, js, y);
    }
    forall q, js, slots | keeps(q, js)
      ensures keeps(PlanReconcile(q, now, slots).state, js + multiset(PlanReconcile(q, now, slots).jobs))
    {
      ReconcilePumps(r, x, q, js, now, slots);
    }
  }

  lemma PlanView(cfg: Config, r: State, now: Time, slots: nat, x: Name)
    ensures Pumped(r, x, Plan(cfg, r, now, slots).state, multiset(Plan(cfg, r, now, slots).jobs))
  {
    var keeps: Property := (q, js) => Pumped(r, x, q, js);
    PumpSteps(cfg, r, x, now, keeps);
    assert Pumped(r, x, r, multiset{});
    hide *;
    PlanKeeps(cfg, r, multiset{}, now, slots, keeps);
    assert multiset{} + multiset(Plan(cfg, r, now, slots).jobs) == multiset(Plan(cfg, r, now, slots).jobs);
  }

  /** The registry is the product of its services: in every run the registry's knowledge of a service is
      what the events and jobs of that service alone make of it. That fixes, among the rest, the grace
      period, the wait after each announce failure in a row and the wait after a failed withdrawal. */
  lemma {:induction false} ServicesAreIndependent(cfg: Config, es: seq<Timed>, x: Name)
    requires Run(cfg, es)
    ensures View(Exec(cfg, es).state, x) == Tracked(cfg, es, x)
    decreases |es|
  {
    hide React, Plan, AfterEvent, AfterPump, Advertised, BootstrapSeen, Resets, RelayNeeded, RelaysActive;
    if es != [] {
      var s, e := Exec(cfg, Init(es)), Last(es);
      var q := React(cfg, s, e);
      ServicesAreIndependent(cfg, Init(es), x);
      ReactView(cfg, s, e, x);
      RunTracksEvents(cfg, Init(es));
      RunTracksEvents(cfg, es);
      PumpFrame(cfg, q);
      PlanView(cfg, q.state, q.now, FreeSlots(cfg, q.jobs), x);
    }
  }

  // ---- the type index ----

  // Something to publish has changed; an idle index is read at once.
  ghost predicate Marked(ix: Index, at: Time, jx: Index) {
    jx == Index(ix.known, ix.reconcile, true, if ix.reconcile == Idle then Some(at) else ix.nextSync, ix.pendingWrite)
  }

  // The chain has ended: the next read is due after `wait`, or at once if something changed meanwhile.
  ghost predicate Rests(ix: Index, at: Time, wait: Time, jx: Index) {
    jx == Index(jx.known, Idle, false, Some(if ix.dirty then at else at + wait), None)
  }

  // The known types differ from the record just read, so a write follows.
  ghost predicate Writes(ix: Index, jx: Index) {
    && jx.reconcile == ReadyToWrite && !jx.dirty && jx.nextSync == ix.nextSync && jx.pendingWrite.Some?
  }

  // What an event makes of the index.
  ghost predicate IndexStep(cfg: Config, n: Node, ix: Index, e: Timed, jx: Index) {
    match e.event
    case Received(Reset) => jx == Index(ix.known, Idle, false, None, None)
    case Received(BootstrapCompleted) => Marked(ix, e.at, jx)
    case Received(Reannounce) => Marked(ix, e.at, jx)
    case Received(RefreshTypes) => Marked(ix, e.at, jx)
    case Ended(Announce(g, _), Done(true), _) => if g == n.generation then Marked(ix, e.at, jx) else jx == ix
    case Ended(ReadTypes(g), Read(types), _) =>
      if g != n.generation || ix.reconcile != Reading then jx == ix
      else if types.None? then Rests(ix, e.at, 30_000_000_000, jx) && jx.known == ix.known
      else if jx.known == {} || jx.known == (set x | x in types.value) then Rests(ix, e.at, cfg.syncInterval, jx)
      else Writes(ix, jx)
    case Ended(WriteTypes(g, _), Done(ok), _) =>
      if g != n.generation || ix.reconcile != Writing then jx == ix
      else Rests(ix, e.at, if ok then cfg.syncInterval else 30_000_000_000, jx) && jx.known == ix.known
    case _ => jx == ix
  }

  // What the pump makes of it, by the jobs it starts in generation `g`.
  ghost predicate IndexPumped(g: nat, ix: Index, jobs: Jobs, jx: Index) {
    if ReadTypes(g) in jobs then jx == Index(ix.known, Reading, false, None, None)
    else if ix.pendingWrite.Some? && WriteTypes(g, ix.pendingWrite.value) in jobs
    then jx == Index(ix.known, Writing, ix.dirty, ix.nextSync, None)
    else jx == ix
  }

  lemma ReadIndex(cfg: Config, ix: Index, types: Option<seq<Name>>, order: seq<Name>, n: Node, e: Timed)
    requires e.event.Ended? && e.event.job == ReadTypes(n.generation) && e.event.outcome == Read(types)
    requires ix.reconcile == Reading
    ensures IndexStep(cfg, n, ix, e, ApplyTypesRead(cfg, ix, types, order, e.at))
  {
    hide MergeTypes, EncodeLimited;
  }

  lemma ReactIndex(cfg: Config, s: System, e: Timed)
    requires Enabled(s, e)
    ensures IndexStep(cfg, NodeOf(s.state), s.state.index, e, React(cfg, s, e).state.index)
  {
    hide AnnounceSucceeded, AnnounceFailed, WithdrawSucceeded, WithdrawFailed, GraceDeadlines, ApplyTypesRead,
         RelayGained, RelayLost;
    if e.event.Ended? && e.event.job == ReadTypes(s.state.generation) && s.state.index.reconcile == Reading {
      ReadIndex(cfg, s.state.index, e.event.outcome.types, e.event.order, NodeOf(s.state), e);
    }
  }

  ghost predicate IndexSteps(r: State, q: State, jobs: Jobs) {
    && q.generation == r.generation && (q.index.reconcile == ReadyToWrite <==> q.index.pendingWrite.Some?)
    && IndexPumped(r.generation, r.index, jobs, q.index)
    && (ReadTypes(r.generation) in jobs ==> r.index.pendingWrite.None?)
  }

  lemma IndexReconciles(r: State, q: State, jobs: Jobs, now: Time, slots: nat)
    requires IndexSteps(r, q, jobs)
    ensures IndexSteps(r, PlanReconcile(q, now, slots).state, jobs + multiset(PlanReconcile(q, now, slots).jobs))
  {
  }

  lemma PlanIndex(cfg: Config, r: State, now: Time, slots: nat)
    requires r.index.reconcile == ReadyToWrite <==> r.index.pendingWrite.Some?
    ensures var b := Plan(cfg, r, now, slots);
            IndexPumped(r.generation, r.index, multiset(b.jobs), b.state.index)
  {
    var keeps: Property := (q, js) => IndexSteps(r, q, js);
    assert KeptByWithdraw(now, keeps) && KeptByRetry(now, keeps) && KeptByAnnounce(cfg, now, keeps);
    assert IndexSteps(r, r, multiset{});
    hide IndexSteps;
    forall q, js, k: nat | keeps(q, js)
      ensures keeps(PlanReconcile(q, now, k).state, js + multiset(PlanReconcile(q, now, k).jobs))
    {
      IndexReconciles(r, q, js, now, k);
    }
    hide Plan;
    PlanKeeps(cfg, r, multiset{}, now, slots, keeps);
    assert multiset{} + multiset(Plan(cfg, r, now, slots).jobs) == multiset(Plan(cfg, r, now, slots).jobs);
    assert IndexSteps(r, Plan(cfg, r, now, slots).state, multiset(Plan(cfg, r, now, slots).jobs));
  }

  /** The index in every run, step by step: what marks it for a read, when a chain ends and how long
      the next one waits, and what each started job makes of it. */
  lemma IndexFollowsItsChain(cfg: Config, es: seq<Timed>)
    requires es != [] && Run(cfg, es)
    ensures var ix := React(cfg, Exec(cfg, Init(es)), Last(es)).state.index;
            && IndexStep(cfg, NodeAfter(Init(es)), Exec(cfg, Init(es)).state.index, Last(es), ix)
            && IndexPumped(Resets(es), ix, multiset(Issued(cfg, Exec(cfg, Init(es)), Last(es))),
                           Exec(cfg, es).state.index)
  {
    var s, e := Exec(cfg, Init(es)), Last(es);
    var q := React(cfg, s, e);
    RunTracksEvents(cfg, Init(es));
    RunTracksEvents(cfg, es);
    PumpFrame(cfg, q);
    RunKeepsInvariant(cfg, Init(es));
    ReactKeeps(cfg, s, e);
    ReactIndex(cfg, s, e);
    hide React, Plan, IndexStep, IndexPumped, Advertised, BootstrapSeen, Resets, RelayNeeded, RelaysActive,
         ProvidersOk, KnownOk, NameKept, Awake;
    PlanIndex(cfg, q.state, q.now, FreeSlots(cfg, q.jobs));
  }
}
