/** The registry state machine (`RegistryState`) as functions from state to
    state. The classes of `RegistryActor` compute these functions in place. */
module Registry {
  import opened Names
  import opened Options
  import opened TypesCodec

  // Instants and durations, in nanoseconds.
  type Time = nat

  const SECOND: Time := 1_000_000_000
  const WITHDRAW_GRACE: Time := 3 * SECOND
  const ANNOUNCE_RETRY_INITIAL: Time := 5 * SECOND
  const ANNOUNCE_RETRY_MAX: Time := 60 * SECOND
  const RECONCILE_RETRY: Time := 30 * SECOND
  const U32_MAX: nat := 0xffff_ffff
  const U64_MODULUS: nat := 0x1_0000_0000_0000_0000

  // The configuration a run reads; it does not change during the run.
  datatype Config = Config(localServices: seq<string>, syncInterval: Time,
                           maxRecordBytes: nat, maxInflight: nat)

  datatype Command =
    | BootstrapCompleted
    | Tick
    | Reannounce
    | RefreshTypes
    | Reset
    | RelayStateChanged(needRelay: bool, active: nat)

  datatype Job =
    | Announce(generation: nat, service: Name)
    | Withdraw(generation: nat, service: Name)
    | ReadTypes(generation: nat)
    | WriteTypes(generation: nat, value: string)

  datatype JobResult =
    | Announced(generation: nat, service: Name, ok: bool)
    | Withdrawn(generation: nat, service: Name, ok: bool)
    | TypesRead(generation: nat, types: Option<seq<Name>>)
    | TypesWritten(generation: nat, ok: bool)

  datatype Reconcile = Idle | Reading | ReadyToWrite | Writing

  // What is announced, about to be withdrawn, in flight or to be retried.
  datatype Providers = Providers(
    announced: set<Name>,
    deadline: map<Name, Time>,
    forced: set<Name>,
    forcedRetry: map<Name, Time>,
    announcing: set<Name>,
    withdrawing: set<Name>,
    failures: map<Name, nat>,
    retryAt: map<Name, Time>)

  // The service-type index and the state of its reconcile chain.
  datatype Index = Index(
    known: set<Name>,
    reconcile: Reconcile,
    dirty: bool,
    nextSync: Option<Time>,
    pendingWrite: Option<string>)

  datatype State = State(
    bootstrapped: bool,
    needRelay: bool,
    activeRelays: nat,
    ready: set<Name>,
    prov: Providers,
    index: Index,
    generation: nat)

  const NO_PROVIDERS: Providers := Providers({}, map[], {}, map[], {}, {}, map[], map[])
  const INITIAL: State := State(false, false, 0, {}, NO_PROVIDERS, Index({}, Idle, false, None, None), 0)

  predicate RelayReady(r: State) {
    !r.needRelay || r.activeRelays > 0
  }

  function Min(a: nat, b: nat): nat {
    if a < b then a else b
  }

  function Pow2(n: nat): nat {
    if n == 0 then 1 else 2 * Pow2(n - 1)
  }

  // 5 s doubled with every failure after the first, at most 60 s.
  function RetryDelay(failures: nat): Time {
    Min(ANNOUNCE_RETRY_INITIAL * Pow2(Min(if failures == 0 then 0 else failures - 1, 4)), ANNOUNCE_RETRY_MAX)
  }

  function MarkTypesDirty(ix: Index, now: Time): Index {
    ix.(dirty := true, nextSync := if ix.reconcile == Idle then Some(now) else ix.nextSync)
  }

  // Services in `down` without a deadline get one at the end of the grace period.
  function GraceDeadlines(deadline: map<Name, Time>, down: set<Name>, now: Time): map<Name, Time> {
    map x | x in deadline.Keys + down :: if x in deadline then deadline[x] else now + WITHDRAW_GRACE
  }

  function ReplaceReady(r: State, ready: set<Name>, now: Time): State {
    var up, down := ready - r.ready, r.ready - ready;
    r.(ready := ready,
       prov := r.prov.(deadline := GraceDeadlines(r.prov.deadline - up, down * r.prov.announced, now),
                       failures := r.prov.failures - up,
                       retryAt := r.prov.retryAt - up - down))
  }

  function RelayGained(p: Providers): Providers {
    p.(announced := {}, failures := map[], retryAt := map[], forced := {}, forcedRetry := map[])
  }

  function RelayLost(p: Providers): Providers {
    p.(forced := p.forced + p.announced + p.announcing, retryAt := map[])
  }

  // Announce everything again.
  function Forget(p: Providers): Providers {
    p.(announced := {}, retryAt := map[])
  }

  function Handle(r: State, command: Command, now: Time): State {
    match command
    case BootstrapCompleted =>
      r.(bootstrapped := true, prov := Forget(r.prov), index := MarkTypesDirty(r.index, now))
    case Tick => r
    case Reannounce =>
      r.(prov := Forget(r.prov), index := MarkTypesDirty(r.index, now))
    case RefreshTypes =>
      r.(index := MarkTypesDirty(r.index, now))
    case RelayStateChanged(needRelay, active) =>
      var q := r.(needRelay := needRelay, activeRelays := active);
      if RelayReady(r) == RelayReady(q) then q
      else q.(prov := if RelayReady(q) then RelayGained(r.prov) else RelayLost(r.prov))
    case Reset =>
      r.(generation := (r.generation + 1) % U64_MODULUS, bootstrapped := false, activeRelays := 0,
         prov := NO_PROVIDERS, index := Index(r.index.known, Idle, false, None, None))
  }

  // ---- planning ----

  datatype Batch = Batch(state: State, jobs: seq<Job>)

  predicate WithdrawDue(r: State, x: Name, now: Time) {
    || (x in r.prov.deadline && r.prov.deadline[x] <= now && x !in r.ready)
    || (x in r.prov.forced && (x in r.prov.forcedRetry ==> r.prov.forcedRetry[x] <= now))
  }

  predicate RetryDue(r: State, x: Name, now: Time) {
    && x in r.prov.retryAt
    && RelayReady(r)
    && r.prov.retryAt[x] <= now
    && x in r.ready
    && x !in r.prov.announced
    && x !in r.prov.forced
  }

  predicate InFlight(r: State, x: Name) {
    x in r.prov.withdrawing || x in r.prov.announcing
  }

  function DueWithdrawals(r: State, now: Time): set<Name> {
    set x | x in r.prov.deadline.Keys + r.prov.forced && WithdrawDue(r, x, now)
  }

  function DueRetries(r: State, now: Time): set<Name> {
    set x | x in r.prov.retryAt && RetryDue(r, x, now)
  }

  function LocalNames(cfg: Config): seq<Name> {
    ValidNames(cfg.localServices)
  }

  predicate AnnounceEligible(r: State, x: Name, now: Time) {
    && x in r.ready
    && x !in r.prov.announced
    && !InFlight(r, x)
    && (x in r.prov.retryAt ==> r.prov.retryAt[x] <= now)
  }

  function StartWithdraw(r: State, x: Name): State {
    r.(prov := r.prov.(deadline := r.prov.deadline - {x}, forcedRetry := r.prov.forcedRetry - {x},
                       withdrawing := r.prov.withdrawing + {x}))
  }

  function StartAnnounce(r: State, x: Name): State {
    r.(prov := r.prov.(retryAt := r.prov.retryAt - {x}, announcing := r.prov.announcing + {x}))
  }

  function PlanWithdrawals(r: State, due: seq<Name>, slots: nat): (b: Batch)
    ensures |b.jobs| <= slots
    decreases |due|
  {
    if due == [] || slots == 0 then Batch(r, [])
    else if InFlight(r, due[0]) then PlanWithdrawals(r, due[1..], slots)
    else
      var b := PlanWithdrawals(StartWithdraw(r, due[0]), due[1..], slots - 1);
      Batch(b.state, [Withdraw(r.generation, due[0])] + b.jobs)
  }

  function PlanRetries(r: State, due: seq<Name>, slots: nat): (b: Batch)
    ensures |b.jobs| <= slots
    decreases |due|
  {
    if due == [] || slots == 0 then Batch(r, [])
    else if InFlight(r, due[0]) then PlanRetries(r, due[1..], slots)
    else
      var b := PlanRetries(StartAnnounce(r, due[0]), due[1..], slots - 1);
      Batch(b.state, [Announce(r.generation, due[0])] + b.jobs)
  }

  function PlanAnnounces(r: State, local: seq<Name>, now: Time, slots: nat): (b: Batch)
    ensures |b.jobs| <= slots
    decreases |local|
  {
    if local == [] || slots == 0 then Batch(r, [])
    else if !AnnounceEligible(r, local[0], now) then PlanAnnounces(r, local[1..], now, slots)
    else
      var b := PlanAnnounces(StartAnnounce(r, local[0]), local[1..], now, slots - 1);
      Batch(b.state, [Announce(r.generation, local[0])] + b.jobs)
  }

  predicate SyncDue(ix: Index, now: Time) {
    ix.dirty || (ix.nextSync.Some? && ix.nextSync.value <= now)
  }

  function PlanReconcile(r: State, now: Time, slots: nat): (b: Batch)
    ensures |b.jobs| <= slots
  {
    var ix := r.index;
    if slots == 0 then Batch(r, [])
    else match ix.reconcile
      case Idle =>
        if SyncDue(ix, now)
        then Batch(r.(index := ix.(nextSync := None, reconcile := Reading, dirty := false)), [ReadTypes(r.generation)])
        else Batch(r, [])
      case ReadyToWrite =>
        if ix.pendingWrite.Some?
        then Batch(r.(index := ix.(pendingWrite := None, reconcile := Writing)),
                   [WriteTypes(r.generation, ix.pendingWrite.value)])
        else Batch(r.(index := ix.(reconcile := Idle)), [])
      case Reading => Batch(r, [])
      case Writing => Batch(r, [])
  }

  ghost function WithdrawPhase(r: State, now: Time, slots: nat): (b: Batch)
    ensures |b.jobs| <= slots
  {
    PlanWithdrawals(r, Sorted(DueWithdrawals(r, now)), slots)
  }

  ghost function RetryPhase(r: State, now: Time, slots: nat): (b: Batch)
    ensures |b.jobs| <= slots
  {
    PlanRetries(r, Sorted(DueRetries(r, now)), slots)
  }

  function AnnouncePhase(cfg: Config, r: State, now: Time, slots: nat): (b: Batch)
    ensures |b.jobs| <= slots
  {
    if r.bootstrapped && RelayReady(r) && slots > 0
    then PlanAnnounces(r, LocalNames(cfg), now, slots) else Batch(r, [])
  }

  function PlanNew(cfg: Config, r: State, now: Time, slots: nat): (b: Batch)
    ensures |b.jobs| <= slots
  {
    var a := AnnouncePhase(cfg, r, now, slots);
    var c := PlanReconcile(a.state, now, slots - |a.jobs|);
    Batch(c.state, a.jobs + c.jobs)
  }

  ghost function PlanStarts(cfg: Config, r: State, now: Time, slots: nat): (b: Batch)
    ensures |b.jobs| <= slots
  {
    var t := RetryPhase(r, now, slots);
    var n := PlanNew(cfg, t.state, now, slots - |t.jobs|);
    Batch(n.state, t.jobs + n.jobs)
  }

  /** One planning pass: due withdrawals, due retries, new announcements, then the type index. */
  ghost function Plan(cfg: Config, r: State, now: Time, slots: nat): (b: Batch)
    ensures |b.jobs| <= slots
  {
    var w := WithdrawPhase(r, now, slots);
    var s := PlanStarts(cfg, w.state, now, slots - |w.jobs|);
    Batch(s.state, w.jobs + s.jobs)
  }

  // ---- results ----

  function MergeTypes(known: set<Name>, incoming: seq<string>): set<Name>
    decreases |incoming|
  {
    if incoming == [] || |known| >= MAX_TYPES then known
    else MergeTypes(if IsValidServiceName(incoming[0]) then known + {incoming[0]} else known, incoming[1..])
  }

  function AnnounceSucceeded(p: Providers, x: Name, relayReady: bool, wanted: bool, now: Time): Providers {
    var q := p.(failures := p.failures - {x}, retryAt := p.retryAt - {x}, announced := p.announced + {x});
    if !relayReady then q.(forced := q.forced + {x})
    else if wanted then q
    else q.(deadline := q.deadline[x := now])
  }

  function AnnounceFailed(p: Providers, x: Name, now: Time): Providers {
    var count := Min((if x in p.failures then p.failures[x] else 0) + 1, U32_MAX);
    p.(failures := p.failures[x := count], retryAt := p.retryAt[x := now + RetryDelay(count)])
  }

  function ApplyAnnounced(r: State, x: Name, ok: bool, now: Time): State {
    var p := r.prov.(announcing := r.prov.announcing - {x});
    var wanted := x in r.ready && r.bootstrapped;
    if ok then
      r.(prov := AnnounceSucceeded(p, x, RelayReady(r), wanted, now), index := MarkTypesDirty(r.index, now))
    else
      r.(prov := if wanted then AnnounceFailed(p, x, now) else p)
  }

  function WithdrawSucceeded(p: Providers, x: Name, wanted: bool, now: Time): Providers {
    var q := p.(announced := p.announced - {x}, forced := p.forced - {x}, forcedRetry := p.forcedRetry - {x});
    if wanted then q.(retryAt := q.retryAt[x := now]) else q
  }

  function WithdrawFailed(p: Providers, x: Name, ready: bool, now: Time): Providers {
    if x in p.forced then p.(forcedRetry := p.forcedRetry[x := now + ANNOUNCE_RETRY_INITIAL])
    else if ready then p.(retryAt := p.retryAt[x := now])
    else p.(deadline := p.deadline[x := now + ANNOUNCE_RETRY_INITIAL])
  }

  function ApplyWithdrawn(r: State, x: Name, ok: bool, now: Time): State {
    var p := r.prov.(withdrawing := r.prov.withdrawing - {x});
    r.(prov := if ok then WithdrawSucceeded(p, x, x in r.ready && RelayReady(r), now)
               else WithdrawFailed(p, x, x in r.ready, now))
  }

  // The late result of an earlier generation still clears the in-flight mark.
  function ApplyStale(r: State, result: JobResult): State {
    match result
    case Announced(_, x, _) => r.(prov := r.prov.(announcing := r.prov.announcing - {x}))
    case Withdrawn(_, x, _) => r.(prov := r.prov.(withdrawing := r.prov.withdrawing - {x}))
    case TypesRead(_, _) => r
    case TypesWritten(_, _) => r
  }

  // The end of a reconcile chain: idle again, and rerun at once if the index was marked dirty meanwhile.
  function FinishReconcile(ix: Index, now: Time, delay: Time): Index {
    Index(ix.known, Idle, false, Some(if ix.dirty then now else now + delay), None)
  }

  ghost function ApplyTypesRead(cfg: Config, ix: Index, types: Option<seq<Name>>, announced: seq<Name>,
      now: Time): Index {
    match types
    case None => FinishReconcile(ix, now, RECONCILE_RETRY)
    case Some(list) =>
      var known := MergeTypes(MergeTypes(ix.known, list), announced);
      if known == {} || known == (set x | x in list)
      then FinishReconcile(ix.(known := known), now, cfg.syncInterval)
      else Index(known, ReadyToWrite, false, ix.nextSync, Some(EncodeLimited(Sorted(known), cfg.maxRecordBytes)))
  }

  /** `order` lists the announced services in the order the hash set yields them;
      it matters only when the type limit cuts the merge short. */
  ghost function Apply(cfg: Config, r: State, result: JobResult, order: seq<Name>, now: Time): State {
    if result.generation != r.generation then ApplyStale(r, result)
    else match result
      case Announced(_, x, ok) => ApplyAnnounced(r, x, ok, now)
      case Withdrawn(_, x, ok) => ApplyWithdrawn(r, x, ok, now)
      case TypesRead(_, types) =>
        if r.index.reconcile != Reading then r
        else r.(index := ApplyTypesRead(cfg, r.index, types, order, now))
      case TypesWritten(_, ok) =>
        if r.index.reconcile != Writing then r
        else r.(index := FinishReconcile(r.index, now, if ok then cfg.syncInterval else RECONCILE_RETRY))
  }

  ghost predicate Lists(order: seq<Name>, s: set<Name>) {
    forall x :: x in order <==> x in s
  }
}
