/** What every step of the registry keeps, over the state and the multiset of
    jobs that are still in the actor's join set. No clause assumes that results of
    an earlier generation are discarded before they reach the state. */
module RegistryInvariant {
  import opened Names
  import opened Options
  import opened TypesCodec
  import opened Registry
  import opened RegistryPlan

  predicate IsProvider(j: Job) {
    j.Announce? || j.Withdraw?
  }

  // Before bootstrap completes in this generation nothing is announced, planned or retried,
  // and no provider job of this generation runs.
  ghost predicate BootGate(r: State, jobs: Jobs) {
    !r.bootstrapped ==>
      r.prov == NO_PROVIDERS && forall j :: j in jobs && j.generation == r.generation ==> !IsProvider(j)
  }

  ghost predicate GenerationsPast(r: State, jobs: Jobs) {
    forall j :: j in jobs ==> j.generation <= r.generation
  }

  // Only configured services with valid names, `local`, are ever mentioned.
  ghost predicate OnlyLocal(local: set<Name>, p: Providers, jobs: Jobs) {
    && p.announced <= local && p.announcing <= local && p.forced <= local
    && (forall x :: x in p.deadline ==> x in local)
    && (forall x :: x in p.retryAt ==> x in local)
    && (forall j :: j in jobs && IsProvider(j) ==> j.service in local)
  }

  // The forced-withdraw set: everything announced while relay is lost, nothing while relay is ready.
  ghost predicate RelayGate(r: State) {
    && (RelayReady(r) ==> r.prov.forced == {})
    && (!RelayReady(r) ==> r.prov.announced <= r.prov.forced)
    && (forall x :: x in r.prov.forcedRetry ==> x in r.prov.forced)
  }

  // An announced service whose backend is down is on its way out.
  ghost predicate DownLeaves(r: State, jobs: Jobs) {
    && (forall x :: x in r.prov.announced && x !in r.ready ==>
          x in r.prov.deadline || x in r.prov.forced || Withdraw(r.generation, x) in jobs)
    && (forall x :: x in r.prov.deadline ==> x !in r.ready)
  }

  ghost predicate OnlyWrite(jobs: Jobs, g: nat, v: string) {
    jobs[WriteTypes(g, v)] == 1 && forall w :: w != v ==> WriteTypes(g, w) !in jobs
  }

  // Types jobs of this generation match the reconcile state one to one.
  ghost predicate SingleFlight(ix: Index, g: nat, jobs: Jobs) {
    && jobs[ReadTypes(g)] == (if ix.reconcile == Reading then 1 else 0)
    && (ix.reconcile == Writing ==> exists v :: OnlyWrite(jobs, g, v))
    && (ix.reconcile != Writing ==> forall v :: WriteTypes(g, v) !in jobs)
    && (ix.reconcile == ReadyToWrite <==> ix.pendingWrite.Some?)
  }

  // An announced name is in the index, or the index is full, or a read that will merge it is due.
  ghost predicate NameKept(ix: Index, x: Name) {
    x in ix.known || |ix.known| >= MAX_TYPES || ix.dirty || ix.reconcile == Reading ||
    (ix.reconcile == Idle && ix.nextSync.Some?)
  }

  ghost predicate KnownOk(known: set<Name>) {
    |known| <= 4096 && forall x :: x in known ==> IsValidServiceName(x)
  }

  ghost predicate Awake(ix: Index) {
    ix.reconcile != Idle || ix.dirty || ix.nextSync.Some?
  }

  ghost predicate ProvidersOk(local: set<Name>, r: State, jobs: Jobs) {
    && BootGate(r, jobs)
    && GenerationsPast(r, jobs)
    && OnlyLocal(local, r.prov, jobs)
    && RelayGate(r)
    && DownLeaves(r, jobs)
  }

  ghost predicate IndexOk(r: State, jobs: Jobs) {
    && SingleFlight(r.index, r.generation, jobs)
    && KnownOk(r.index.known)
    && (forall x :: x in r.prov.announced ==> NameKept(r.index, x))
    && (r.bootstrapped ==> Awake(r.index))
  }

  ghost predicate Inv(local: set<Name>, r: State, jobs: Jobs) {
    ProvidersOk(local, r, jobs) && IndexOk(r, jobs)
  }

  lemma InitialInv(local: set<Name>)
    ensures Inv(local, INITIAL, multiset{})
  {
  }

  // ---- the half of the invariant a step does not concern ----

  lemma SingleFlightKept(ix: Index, g: nat, jobs: Jobs, ix': Index, jobs': Jobs)
    requires SingleFlight(ix, g, jobs)
    requires ix'.reconcile == ix.reconcile && ix'.pendingWrite == ix.pendingWrite
    requires forall j: Job :: !IsProvider(j) && j.generation == g ==> jobs'[j] == jobs[j]
    ensures SingleFlight(ix', g, jobs')
  {
    if ix.reconcile == Writing {
      var v :| OnlyWrite(jobs, g, v);
      forall w | w != v ensures WriteTypes(g, w) !in jobs' {
        assert jobs'[WriteTypes(g, w)] == jobs[WriteTypes(g, w)];
      }
      assert OnlyWrite(jobs', g, v);
    } else {
      forall v ensures WriteTypes(g, v) !in jobs' {
        assert jobs'[WriteTypes(g, v)] == jobs[WriteTypes(g, v)];
      }
    }
  }

  // A step that leaves the index alone, or only marks it dirty.
  lemma IndexKept(r: State, jobs: Jobs, q: State, jobs': Jobs, now: Time)
    requires IndexOk(r, jobs) && q.generation == r.generation
    requires || q.index == MarkTypesDirty(r.index, now)
             || (q.index == r.index && q.prov.announced <= r.prov.announced && q.bootstrapped == r.bootstrapped)
    requires forall j: Job :: !IsProvider(j) && j.generation == r.generation ==> jobs'[j] == jobs[j]
    ensures IndexOk(q, jobs')
  {
    SingleFlightKept(r.index, r.generation, jobs, q.index, jobs');
  }

  lemma ProvidersKept(local: set<Name>, r: State, jobs: Jobs, q: State, jobs': Jobs)
    requires ProvidersOk(local, r, jobs) && q == r.(index := q.index)
    requires forall j: Job :: IsProvider(j) ==> jobs'[j] == jobs[j]
    requires GenerationsPast(r, jobs')
    ensures ProvidersOk(local, q, jobs')
  {
    forall x | x in q.prov.announced && x !in q.ready
      ensures x in q.prov.deadline || x in q.prov.forced || Withdraw(q.generation, x) in jobs'
    {
      assert jobs'[Withdraw(q.generation, x)] == jobs[Withdraw(q.generation, x)];
    }
    forall j | j in jobs' && IsProvider(j) ensures j in jobs {
      assert jobs'[j] == jobs[j];
    }
  }

  // ---- starting jobs ----

  lemma StartWithdrawKeeps(local: set<Name>, r: State, jobs: Jobs, x: Name)
    requires Inv(local, r, jobs) && (x in r.prov.deadline || x in r.prov.forced)
    ensures Inv(local, StartWithdraw(r, x), jobs + multiset{Withdraw(r.generation, x)})
  {
    IndexKept(r, jobs, StartWithdraw(r, x), jobs + multiset{Withdraw(r.generation, x)}, 0);
  }

  lemma StartAnnounceKeeps(local: set<Name>, r: State, jobs: Jobs, x: Name)
    requires Inv(local, r, jobs) && (x in r.prov.retryAt || (r.bootstrapped && x in local))
    ensures Inv(local, StartAnnounce(r, x), jobs + multiset{Announce(r.generation, x)})
  {
    IndexKept(r, jobs, StartAnnounce(r, x), jobs + multiset{Announce(r.generation, x)}, 0);
  }

  lemma PlanReconcileKeeps(local: set<Name>, r: State, jobs: Jobs, now: Time, slots: nat)
    requires Inv(local, r, jobs)
    ensures var b := PlanReconcile(r, now, slots); Inv(local, b.state, jobs + multiset(b.jobs))
  {
    hide BootGate, OnlyLocal, RelayGate, DownLeaves;
    var b := PlanReconcile(r, now, slots);
    if b.jobs == [] {
      NoJobs(jobs);
    } else {
      var job := b.jobs[0];
      assert multiset(b.jobs) == multiset{job};
      ProvidersKept(local, r, jobs, b.state, jobs + multiset{job});
      if job.WriteTypes? {
        assert OnlyWrite(jobs + multiset{job}, r.generation, job.value);
      }
    }
  }

  /** A planning pass keeps the invariant. */
  lemma PlanKeepsInv(cfg: Config, local: set<Name>, r: State, jobs: Jobs, now: Time, slots: nat)
    requires Inv(local, r, jobs) && forall x :: x in LocalNames(cfg) ==> x in local
    ensures var b := Plan(cfg, r, now, slots); Inv(local, b.state, jobs + multiset(b.jobs))
  {
    var keeps: Property := (q, js) => Inv(local, q, js);
    assert KeptByWithdraw(now, keeps) by {
      forall q, js, x | Inv(local, q, js) && WithdrawDue(q, x, now) {
        StartWithdrawKeeps(local, q, js, x);
      }
    }
    assert KeptByRetry(now, keeps) && KeptByAnnounce(cfg, now, keeps) by {
      forall q, js, x | Inv(local, q, js) && (RetryDue(q, x, now) || CanAnnounce(cfg, q, x, now)) {
        StartAnnounceKeeps(local, q, js, x);
      }
    }
    assert KeptByReconcile(now, keeps) by {
      forall q, js, n | Inv(local, q, js) {
        PlanReconcileKeeps(local, q, js, now, n);
      }
    }
    PlanKeeps(cfg, r, jobs, now, slots, keeps);
  }

  // ---- commands and readiness ----

  lemma ResetKeeps(local: set<Name>, r: State, jobs: Jobs, now: Time)
    requires Inv(local, r, jobs) && r.generation + 1 < U64_MODULUS
    ensures Inv(local, Handle(r, Reset, now), jobs)
  {
    var q := Handle(r, Reset, now);
    assert q.generation == r.generation + 1;
    assert forall j :: j in jobs ==> j.generation < q.generation;
    assert ReadTypes(q.generation) !in jobs;
  }

  lemma HandleKeeps(local: set<Name>, r: State, jobs: Jobs, command: Command, now: Time)
    requires Inv(local, r, jobs)
    requires command.Reset? ==> r.generation + 1 < U64_MODULUS
    ensures Inv(local, Handle(r, command, now), jobs)
  {
    if command.Reset? {
      ResetKeeps(local, r, jobs, now);
    } else {
      IndexKept(r, jobs, Handle(r, command, now), jobs, now);
    }
  }

  lemma ReplaceReadyKeeps(local: set<Name>, r: State, jobs: Jobs, ready: set<Name>, now: Time)
    requires Inv(local, r, jobs)
    ensures Inv(local, ReplaceReady(r, ready, now), jobs)
  {
    IndexKept(r, jobs, ReplaceReady(r, ready, now), jobs, now);
  }

  // ---- results ----

  // What a job reports when it ends.
  datatype Outcome = Done(ok: bool) | Read(types: Option<seq<Name>>)

  predicate Fitting(job: Job, outcome: Outcome) {
    outcome.Read? <==> job.ReadTypes?
  }

  function ResultOf(job: Job, outcome: Outcome): JobResult
    requires Fitting(job, outcome)
  {
    match job
    case Announce(g, x) => Announced(g, x, outcome.ok)
    case Withdraw(g, x) => Withdrawn(g, x, outcome.ok)
    case ReadTypes(g) => TypesRead(g, outcome.types)
    case WriteTypes(g, _) => TypesWritten(g, outcome.ok)
  }

  // A job of an earlier generation leaves the join set; its result clears at most an
  // in-flight mark, and no clause relies on those.
  lemma StaleJobLeaves(local: set<Name>, r: State, jobs: Jobs, job: Job, q: State)
    requires Inv(local, r, jobs) && job in jobs && job.generation != r.generation
    requires || q == r
             || (exists x :: q == r.(prov := r.prov.(announcing := r.prov.announcing - {x})))
             || (exists x :: q == r.(prov := r.prov.(withdrawing := r.prov.withdrawing - {x})))
    ensures Inv(local, q, jobs - multiset{job})
  {
    IndexKept(r, jobs, q, jobs - multiset{job}, 0);
  }

  lemma AnnouncedKeeps(local: set<Name>, r: State, jobs: Jobs, x: Name, ok: bool, now: Time)
    requires ProvidersOk(local, r, jobs) && Announce(r.generation, x) in jobs
    ensures ProvidersOk(local, ApplyAnnounced(r, x, ok, now), jobs - multiset{Announce(r.generation, x)})
  {
    assert r.bootstrapped && x in local;
  }

  lemma WithdrawnKeeps(local: set<Name>, r: State, jobs: Jobs, x: Name, ok: bool, now: Time)
    requires ProvidersOk(local, r, jobs) && Withdraw(r.generation, x) in jobs
    ensures ProvidersOk(local, ApplyWithdrawn(r, x, ok, now), jobs - multiset{Withdraw(r.generation, x)})
  {
    assert r.bootstrapped && x in local;
  }

  lemma {:induction false} MergeTypesFacts(known: set<Name>, incoming: seq<string>)
    requires KnownOk(known)
    ensures var m := MergeTypes(known, incoming);
            && known <= m && KnownOk(m)
            && (forall x :: x in m ==> x in known || x in incoming)
            && (forall x :: x in incoming && IsValidServiceName(x) ==> x in m || |m| >= MAX_TYPES)
    decreases |incoming|
  {
    if incoming != [] && |known| < MAX_TYPES {
      MergeTypesFacts(if IsValidServiceName(incoming[0]) then known + {incoming[0]} else known, incoming[1..]);
    }
  }

  lemma {:induction false} ValidNamesAreValid(list: seq<string>, x: Name)
    requires x in ValidNames(list)
    ensures IsValidServiceName(x) && x in list
  {
    if !(IsValidServiceName(list[0]) && x == list[0]) {
      ValidNamesAreValid(list[1..], x);
    }
  }

  // After both merges every announced name is in the index, or the index is full.
  lemma TypesReadIndex(cfg: Config, ix: Index, announced: set<Name>, types: Option<seq<Name>>, order: seq<Name>,
      now: Time)
    requires KnownOk(ix.known) && Lists(order, announced) && forall x :: x in announced ==> IsValidServiceName(x)
    ensures var q := ApplyTypesRead(cfg, ix, types, order, now);
            && ix.known <= q.known && KnownOk(q.known)
            && (forall x :: x in announced ==> NameKept(q, x))
            && (q.reconcile == ReadyToWrite || q.reconcile == Idle)
            && (q.reconcile == ReadyToWrite <==> q.pendingWrite.Some?)
            && Awake(q)
  {
    hide EncodeLimited, MergeTypes;
    if types.Some? {
      MergeTypesFacts(ix.known, types.value);
      MergeTypesFacts(MergeTypes(ix.known, types.value), order);
    }
  }

  lemma TypesResultKeeps(cfg: Config, local: set<Name>, r: State, jobs: Jobs, job: Job, outcome: Outcome,
                         order: seq<Name>, now: Time)
    requires Inv(local, r, jobs) && job in jobs && job.generation == r.generation && !IsProvider(job)
    requires Fitting(job, outcome) && Lists(order, r.prov.announced)
    requires forall x :: x in local ==> IsValidServiceName(x)
    ensures IndexOk(Apply(cfg, r, ResultOf(job, outcome), order, now), jobs - multiset{job})
  {
    hide ApplyTypesRead;
    if job.ReadTypes? {
      TypesReadIndex(cfg, r.index, r.prov.announced, outcome.types, order, now);
    } else {
      var v :| OnlyWrite(jobs, r.generation, v);
      assert v == job.value;
    }
  }

  lemma CurrentResultKeeps(cfg: Config, local: set<Name>, r: State, jobs: Jobs, job: Job, outcome: Outcome,
                           order: seq<Name>, now: Time)
    requires Inv(local, r, jobs) && job in jobs && job.generation == r.generation
    requires Fitting(job, outcome) && Lists(order, r.prov.announced)
    requires forall x :: x in local ==> IsValidServiceName(x)
    ensures Inv(local, Apply(cfg, r, ResultOf(job, outcome), order, now), jobs - multiset{job})
  {
    hide ApplyTypesRead, BootGate, OnlyLocal, RelayGate, DownLeaves, SingleFlight, NameKept, Awake;
    var q, rest := Apply(cfg, r, ResultOf(job, outcome), order, now), jobs - multiset{job};
    if job.Announce? {
      AnnouncedKeeps(local, r, jobs, job.service, outcome.ok, now);
      IndexKept(r, jobs, q, rest, now);
    } else if job.Withdraw? {
      WithdrawnKeeps(local, r, jobs, job.service, outcome.ok, now);
      IndexKept(r, jobs, q, rest, now);
    } else {
      TypesResultKeeps(cfg, local, r, jobs, job, outcome, order, now);
      ProvidersKept(local, r, jobs, q, rest);
    }
  }

  /** Any result of any job, of whatever generation, keeps the invariant. */
  lemma ResultKeeps(cfg: Config, local: set<Name>, r: State, jobs: Jobs, job: Job, outcome: Outcome,
                    order: seq<Name>, now: Time)
    requires Inv(local, r, jobs) && job in jobs
    requires Fitting(job, outcome) && Lists(order, r.prov.announced)
    requires forall x :: x in local ==> IsValidServiceName(x)
    ensures Inv(local, Apply(cfg, r, ResultOf(job, outcome), order, now), jobs - multiset{job})
  {
    if job.generation == r.generation {
      CurrentResultKeeps(cfg, local, r, jobs, job, outcome, order, now);
    } else {
      StaleJobLeaves(local, r, jobs, job, ApplyStale(r, ResultOf(job, outcome)));
    }
  }
}
