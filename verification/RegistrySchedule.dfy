/** What one planning pass starts: only work that is due, and all of it unless
    the slots run out. */
module RegistrySchedule {
  import opened Names
  import opened Options
  import opened TypesCodec
  import opened Registry
  import opened RegistryPlan

  ghost predicate SameAt(p: Providers, q: Providers, x: Name) {
    && (x in p.deadline <==> x in q.deadline) && (x in p.deadline ==> p.deadline[x] == q.deadline[x])
    && (x in p.forcedRetry <==> x in q.forcedRetry) && (x in p.forcedRetry ==> p.forcedRetry[x] == q.forcedRetry[x])
    && (x in p.retryAt <==> x in q.retryAt) && (x in p.retryAt ==> p.retryAt[x] == q.retryAt[x])
  }

  // `q` is `r` after some provider jobs were started.
  ghost predicate Started(r: State, q: State) {
    && q == r.(prov := q.prov)
    && q.prov.announced == r.prov.announced && q.prov.forced == r.prov.forced
    && (forall x :: InFlight(r, x) ==> InFlight(q, x))
    && (forall x :: !InFlight(q, x) ==> SameAt(r.prov, q.prov, x))
  }

  // No provider job is marked as running for the service.
  predicate Free(p: Providers, x: Name) {
    x !in p.withdrawing && x !in p.announcing
  }

  // The service is to be withdrawn: its deadline has passed with its backend down, or relay loss forces
  // it out and no later retry time is set.
  predicate MustLeave(r: State, x: Name, now: Time) {
    || (x in r.prov.deadline && r.prov.deadline[x] <= now && x !in r.ready)
    || (x in r.prov.forced && (x !in r.prov.forcedRetry || r.prov.forcedRetry[x] <= now))
  }

  // The service can be announced: its backend is up, a relay is there if one is needed, and no later
  // retry time is set.
  predicate MayEnter(r: State, x: Name, now: Time) {
    && x in r.ready && x !in r.prov.announced && (!r.needRelay || r.activeRelays > 0)
    && (x !in r.prov.retryAt || r.prov.retryAt[x] <= now)
  }

  // A read of the type record is wanted: something changed, or the time for it has come.
  predicate MustSync(ix: Index, now: Time) {
    ix.reconcile == Idle && (ix.dirty || (ix.nextSync.Some? && ix.nextSync.value <= now))
  }

  /** The condition under which a job may be started from `r`. */
  ghost predicate Due(cfg: Config, r: State, job: Job, now: Time) {
    && job.generation == r.generation
    && match job
       case Withdraw(_, x) => MustLeave(r, x, now) && Free(r.prov, x)
       case Announce(_, x) =>
         && MayEnter(r, x, now) && Free(r.prov, x)
         && ((x in r.prov.retryAt && x !in r.prov.forced) || (r.bootstrapped && x in LocalNames(cfg)))
       case ReadTypes(_) => MustSync(r.index, now)
       case WriteTypes(_, v) => r.index.reconcile == ReadyToWrite && r.index.pendingWrite == Some(v)
  }

  ghost predicate Sound(cfg: Config, r: State, now: Time, q: State, jobs: Jobs) {
    Started(r, q) && forall j :: j in jobs ==> Due(cfg, r, j, now)
  }

  lemma WithdrawSound(cfg: Config, r: State, now: Time, q: State, jobs: Jobs, x: Name)
    requires Sound(cfg, r, now, q, jobs) && WithdrawDue(q, x, now) && !InFlight(q, x)
    ensures Sound(cfg, r, now, StartWithdraw(q, x), jobs + multiset{Withdraw(q.generation, x)})
  {
    assert SameAt(r.prov, q.prov, x);
    assert Due(cfg, r, Withdraw(q.generation, x), now);
    forall y | !InFlight(StartWithdraw(q, x), y) ensures SameAt(r.prov, StartWithdraw(q, x).prov, y) {
      assert !InFlight(q, y) && SameAt(r.prov, q.prov, y);
    }
  }

  lemma AnnounceSound(cfg: Config, r: State, now: Time, q: State, jobs: Jobs, x: Name)
    requires Sound(cfg, r, now, q, jobs) && !InFlight(q, x)
    requires RetryDue(q, x, now) || CanAnnounce(cfg, q, x, now)
    ensures Sound(cfg, r, now, StartAnnounce(q, x), jobs + multiset{Announce(q.generation, x)})
  {
    assert SameAt(r.prov, q.prov, x);
    assert Due(cfg, r, Announce(q.generation, x), now);
    forall y | !InFlight(StartAnnounce(q, x), y) ensures SameAt(r.prov, StartAnnounce(q, x).prov, y) {
      assert !InFlight(q, y) && SameAt(r.prov, q.prov, y);
    }
  }

  lemma SoundSteps(cfg: Config, r: State, now: Time, keeps: Property)
    requires keeps == ((q, js) => Sound(cfg, r, now, q, js))
    ensures KeptByWithdraw(now, keeps) && KeptByRetry(now, keeps) && KeptByAnnounce(cfg, now, keeps)
  {
    hide Sound;
    forall q, js, x | keeps(q, js) && WithdrawDue(q, x, now) && !InFlight(q, x)
      ensures keeps(StartWithdraw(q, x), js + multiset{Withdraw(q.generation, x)})
    {
      WithdrawSound(cfg, r, now, q, js, x);
    }
    forall q, js, x | keeps(q, js) && !InFlight(q, x) && (RetryDue(q, x, now) || CanAnnounce(cfg, q, x, now))
      ensures keeps(StartAnnounce(q, x), js + multiset{Announce(q.generation, x)})
    {
      AnnounceSound(cfg, r, now, q, js, x);
    }
  }

  // The four phases of a pass.
  lemma PlanPhases(cfg: Config, r: State, now: Time, slots: nat) returns (w: Batch, t: Batch, a: Batch, c: Batch)
    ensures w == WithdrawPhase(r, now, slots)
    ensures t == RetryPhase(w.state, now, slots - |w.jobs|)
    ensures a == AnnouncePhase(cfg, t.state, now, slots - |w.jobs| - |t.jobs|)
    ensures c == PlanReconcile(a.state, now, slots - |w.jobs| - |t.jobs| - |a.jobs|)
    ensures Plan(cfg, r, now, slots) == Batch(c.state, w.jobs + (t.jobs + (a.jobs + c.jobs)))
  {
    hide WithdrawPhase, RetryPhase, AnnouncePhase, PlanReconcile;
    w := WithdrawPhase(r, now, slots);
    t := RetryPhase(w.state, now, slots - |w.jobs|);
    a := AnnouncePhase(cfg, t.state, now, slots - |w.jobs| - |t.jobs|);
    c := PlanReconcile(a.state, now, slots - |w.jobs| - |t.jobs| - |a.jobs|);
  }

  lemma SoundInitially(cfg: Config, r: State, now: Time)
    ensures Sound(cfg, r, now, r, multiset{})
  {
  }

  lemma ProvidersSound(cfg: Config, r: State, now: Time, slots: nat, w: Batch, t: Batch, a: Batch)
    requires w == WithdrawPhase(r, now, slots)
    requires t == RetryPhase(w.state, now, slots - |w.jobs|)
    requires a == AnnouncePhase(cfg, t.state, now, slots - |w.jobs| - |t.jobs|)
    ensures Sound(cfg, r, now, w.state, multiset(w.jobs))
    ensures Sound(cfg, r, now, t.state, multiset(w.jobs) + multiset(t.jobs))
    ensures Sound(cfg, r, now, a.state, multiset(w.jobs) + multiset(t.jobs) + multiset(a.jobs))
  {
    hide *;
    var keeps: Property := (q, js) => Sound(cfg, r, now, q, js);
    SoundInitially(cfg, r, now);
    SoundSteps(cfg, r, now, keeps);
    WithdrawPhaseKeeps(r, multiset{}, now, slots, keeps);
    assert multiset{} + multiset(w.jobs) == multiset(w.jobs);
    RetryPhaseKeeps(w.state, multiset(w.jobs), now, slots - |w.jobs|, keeps);
    AnnouncePhaseKeeps(cfg, t.state, multiset(w.jobs) + multiset(t.jobs), now, slots - |w.jobs| - |t.jobs|, keeps);
  }

  /** A pass starts a job only if it is due in the state the pass began with. */
  lemma PlanStartsOnlyDue(cfg: Config, r: State, now: Time, slots: nat, job: Job)
    requires job in Plan(cfg, r, now, slots).jobs
    ensures Due(cfg, r, job, now)
  {
    var w, t, a, c := PlanPhases(cfg, r, now, slots);
    ProvidersSound(cfg, r, now, slots, w, t, a);
    hide *;
    var all := multiset(w.jobs) + multiset(t.jobs) + multiset(a.jobs);
    assert job in w.jobs || job in t.jobs || job in a.jobs || job in c.jobs;
    if job in w.jobs || job in t.jobs || job in a.jobs {
      assert job in all;
      SoundJob(cfg, r, now, a.state, all, job);
    } else {
      ReconcileJobDue(cfg, r, now, a.state, all, slots - |w.jobs| - |t.jobs| - |a.jobs|, job);
    }
  }

  /** What no planning pass changes. */
  ghost predicate SameGates(r: State, q: State) {
    && q.bootstrapped == r.bootstrapped && q.generation == r.generation && q.ready == r.ready
    && q.needRelay == r.needRelay && q.activeRelays == r.activeRelays
    && q.prov.announced == r.prov.announced && q.prov.forced == r.prov.forced
    && q.index.known == r.index.known
  }

  lemma SoundGates(cfg: Config, r: State, now: Time, q: State, jobs: Jobs, slots: nat)
    requires Sound(cfg, r, now, q, jobs)
    ensures SameGates(r, PlanReconcile(q, now, slots).state)
  {
  }

  lemma PlanKeepsGates(cfg: Config, r: State, now: Time, slots: nat)
    ensures SameGates(r, Plan(cfg, r, now, slots).state)
  {
    hide *;
    var w, t, a, c := PlanPhases(cfg, r, now, slots);
    ProvidersSound(cfg, r, now, slots, w, t, a);
    SoundGates(cfg, r, now, a.state, multiset(w.jobs) + multiset(t.jobs) + multiset(a.jobs),
               slots - |w.jobs| - |t.jobs| - |a.jobs|);
  }

  lemma SoundJob(cfg: Config, r: State, now: Time, q: State, jobs: Jobs, job: Job)
    requires Sound(cfg, r, now, q, jobs) && job in jobs
    ensures Due(cfg, r, job, now)
  {
  }

  lemma ReconcileJobDue(cfg: Config, r: State, now: Time, q: State, jobs: Jobs, slots: nat, job: Job)
    requires Sound(cfg, r, now, q, jobs) && job in PlanReconcile(q, now, slots).jobs
    ensures Due(cfg, r, job, now)
  {
  }

  // ---- nothing due is left behind while a slot is free ----

  lemma {:induction false} WithdrawalsExhaust(r: State, due: seq<Name>, slots: nat, x: Name)
    requires x in due || InFlight(r, x)
    requires |PlanWithdrawals(r, due, slots).jobs| < slots
    ensures InFlight(PlanWithdrawals(r, due, slots).state, x)
    decreases |due|
  {
    if due != [] {
      if InFlight(r, due[0]) {
        WithdrawalsExhaust(r, due[1..], slots, x);
      } else {
        WithdrawalsExhaust(StartWithdraw(r, due[0]), due[1..], slots - 1, x);
      }
    }
  }

  lemma {:induction false} RetriesExhaust(r: State, due: seq<Name>, slots: nat, x: Name)
    requires x in due || InFlight(r, x)
    requires |PlanRetries(r, due, slots).jobs| < slots
    ensures InFlight(PlanRetries(r, due, slots).state, x)
    decreases |due|
  {
    if due != [] {
      if InFlight(r, due[0]) {
        RetriesExhaust(r, due[1..], slots, x);
      } else {
        RetriesExhaust(StartAnnounce(r, due[0]), due[1..], slots - 1, x);
      }
    }
  }

  lemma {:induction false} AnnouncesExhaust(r: State, local: seq<Name>, now: Time, slots: nat, x: Name)
    requires InFlight(r, x) || (x in local && AnnounceEligible(r, x, now))
    requires |PlanAnnounces(r, local, now, slots).jobs| < slots
    ensures InFlight(PlanAnnounces(r, local, now, slots).state, x)
    decreases |local|
  {
    if local != [] {
      if !AnnounceEligible(r, local[0], now) {
        AnnouncesExhaust(r, local[1..], now, slots, x);
      } else {
        AnnouncesExhaust(StartAnnounce(r, local[0]), local[1..], now, slots - 1, x);
      }
    }
  }

  /** A withdrawal or announcement that is due, apart from jobs already in flight for the service. */
  ghost predicate Wanted(cfg: Config, r: State, x: Name, now: Time) {
    || MustLeave(r, x, now)
    || (MayEnter(r, x, now) && x in r.prov.retryAt && x !in r.prov.forced)
    || (MayEnter(r, x, now) && r.bootstrapped && x in LocalNames(cfg))
  }

  lemma PhaseExhausts(cfg: Config, r: State, now: Time, q: State, x: Name)
    requires Started(r, q) && (Wanted(cfg, r, x, now) || InFlight(r, x))
    ensures InFlight(q, x) || Wanted(cfg, q, x, now)
  {
    if !InFlight(q, x) {
      assert SameAt(r.prov, q.prov, x);
    }
  }

  lemma WithdrawPhaseExhausts(r: State, now: Time, slots: nat, x: Name)
    requires |WithdrawPhase(r, now, slots).jobs| < slots
    requires WithdrawDue(r, x, now) || InFlight(r, x)
    ensures InFlight(WithdrawPhase(r, now, slots).state, x)
  {
    WithdrawalsExhaust(r, Sorted(DueWithdrawals(r, now)), slots, x);
  }

  lemma RetryPhaseExhausts(r: State, now: Time, slots: nat, x: Name)
    requires |RetryPhase(r, now, slots).jobs| < slots
    requires RetryDue(r, x, now) || InFlight(r, x)
    ensures InFlight(RetryPhase(r, now, slots).state, x)
  {
    RetriesExhaust(r, Sorted(DueRetries(r, now)), slots, x);
  }

  lemma AnnouncePhaseExhausts(cfg: Config, r: State, now: Time, slots: nat, x: Name)
    requires |AnnouncePhase(cfg, r, now, slots).jobs| < slots
    requires CanAnnounce(cfg, r, x, now) || InFlight(r, x)
    ensures InFlight(AnnouncePhase(cfg, r, now, slots).state, x)
  {
    if r.bootstrapped && RelayReady(r) {
      AnnouncesExhaust(r, LocalNames(cfg), now, slots, x);
    }
  }

  lemma ProvidersExhaust(cfg: Config, r: State, now: Time, slots: nat, x: Name, w: Batch, t: Batch, a: Batch)
    requires w == WithdrawPhase(r, now, slots)
    requires t == RetryPhase(w.state, now, slots - |w.jobs|)
    requires a == AnnouncePhase(cfg, t.state, now, slots - |w.jobs| - |t.jobs|)
    requires |w.jobs| + |t.jobs| + |a.jobs| < slots
    requires Wanted(cfg, r, x, now) || InFlight(r, x)
    ensures InFlight(a.state, x)
  {
    ProvidersSound(cfg, r, now, slots, w, t, a);
    assert Started(r, w.state) && Started(r, t.state);
    hide WithdrawPhase, RetryPhase, AnnouncePhase, Sound, Started;
    if WithdrawDue(r, x, now) || InFlight(r, x) {
      WithdrawPhaseExhausts(r, now, slots, x);
    }
    PhaseExhausts(cfg, r, now, w.state, x);
    if RetryDue(w.state, x, now) || InFlight(w.state, x) {
      RetryPhaseExhausts(w.state, now, slots - |w.jobs|, x);
    }
    PhaseExhausts(cfg, r, now, t.state, x);
    StillWithdrawing(r, now, w.state, t.state, x);
    AnnouncePhaseExhausts(cfg, t.state, now, slots - |w.jobs| - |t.jobs|, x);
  }

  // What is wanted after the retry phase but not in flight can only be a new announcement.
  lemma StillWithdrawing(r: State, now: Time, q: State, s: State, x: Name)
    requires Started(r, q) && Started(r, s)
    requires WithdrawDue(r, x, now) ==> InFlight(q, x)
    requires InFlight(q, x) ==> InFlight(s, x)
    requires RetryDue(q, x, now) ==> InFlight(s, x)
    ensures InFlight(s, x) || (!WithdrawDue(s, x, now) && !RetryDue(s, x, now))
  {
    if !InFlight(s, x) {
      assert SameAt(r.prov, s.prov, x) && SameAt(r.prov, q.prov, x);
    }
  }

  /** The scheduler conserves work: unless a pass uses every slot, each due withdrawal and each
      eligible announcement is in flight after it, and a due step of the index is taken. */
  lemma PlanLeavesNothingDue(cfg: Config, r: State, now: Time, slots: nat, x: Name)
    requires |Plan(cfg, r, now, slots).jobs| < slots
    ensures Wanted(cfg, r, x, now) ==> InFlight(Plan(cfg, r, now, slots).state, x)
    ensures MustSync(r.index, now) ==>
              ReadTypes(r.generation) in Plan(cfg, r, now, slots).jobs
    ensures r.index.reconcile == ReadyToWrite && r.index.pendingWrite.Some? ==>
              WriteTypes(r.generation, r.index.pendingWrite.value) in Plan(cfg, r, now, slots).jobs
  {
    var w, t, a, c := PlanPhases(cfg, r, now, slots);
    hide Plan, WithdrawPhase, RetryPhase, AnnouncePhase;
    if Wanted(cfg, r, x, now) {
      ProvidersExhaust(cfg, r, now, slots, x, w, t, a);
      assert c.state.prov == a.state.prov;
    }
    ProvidersSound(cfg, r, now, slots, w, t, a);
    assert a.state.index == r.index && a.state.generation == r.generation;
  }

  // Each phase starts its own kind of job, and takes no mark away.
  lemma PhaseKinds(cfg: Config, r: State, now: Time, slots: nat)
    ensures forall j :: j in WithdrawPhase(r, now, slots).jobs ==> j.Withdraw?
    ensures forall j :: j in RetryPhase(r, now, slots).jobs ==> j.Announce?
    ensures forall j :: j in AnnouncePhase(cfg, r, now, slots).jobs ==> j.Announce?
  {
    var withdraws: Property := (q: State, js: Jobs) => forall j :: j in js ==> j.Withdraw?;
    var announces: Property := (q: State, js: Jobs) => forall j :: j in js ==> j.Announce?;
    hide WithdrawPhase, RetryPhase, AnnouncePhase, WithdrawDue, RetryDue, CanAnnounce;
    WithdrawPhaseKeeps(r, multiset{}, now, slots, withdraws);
    RetryPhaseKeeps(r, multiset{}, now, slots, announces);
    AnnouncePhaseKeeps(cfg, r, multiset{}, now, slots, announces);
    forall j | j in WithdrawPhase(r, now, slots).jobs ensures j.Withdraw? {
      assert j in multiset{} + multiset(WithdrawPhase(r, now, slots).jobs);
    }
    forall j | j in RetryPhase(r, now, slots).jobs ensures j.Announce? {
      assert j in multiset{} + multiset(RetryPhase(r, now, slots).jobs);
    }
    forall j | j in AnnouncePhase(cfg, r, now, slots).jobs ensures j.Announce? {
      assert j in multiset{} + multiset(AnnouncePhase(cfg, r, now, slots).jobs);
    }
  }

  lemma MarksStay(cfg: Config, r: State, now: Time, slots: nat, x: Name)
    requires InFlight(r, x)
    ensures InFlight(RetryPhase(r, now, slots).state, x) && InFlight(AnnouncePhase(cfg, r, now, slots).state, x)
  {
    var marked: Property := (q, js) => InFlight(q, x);
    hide RetryPhase, AnnouncePhase, RetryDue, CanAnnounce;
    RetryPhaseKeeps(r, multiset{}, now, slots, marked);
    AnnouncePhaseKeeps(cfg, r, multiset{}, now, slots, marked);
  }

  lemma PhasesInOrder(cfg: Config, r: State, now: Time, slots: nat, x: Name, w: Batch, t: Batch, a: Batch)
    requires w == WithdrawPhase(r, now, slots)
    requires t == RetryPhase(w.state, now, slots - |w.jobs|)
    requires a == AnnouncePhase(cfg, t.state, now, slots - |w.jobs| - |t.jobs|)
    requires |w.jobs| < slots && MustLeave(r, x, now)
    ensures InFlight(a.state, x)
  {
    assert WithdrawDue(r, x, now);
    hide WithdrawPhase, RetryPhase, AnnouncePhase, InFlight, WithdrawDue;
    WithdrawPhaseExhausts(r, now, slots, x);
    MarksStay(cfg, w.state, now, slots - |w.jobs|, x);
    MarksStay(cfg, t.state, now, slots - |w.jobs| - |t.jobs|, x);
  }

  lemma ReconcileMarks(r: State, now: Time, slots: nat, x: Name)
    ensures InFlight(PlanReconcile(r, now, slots).state, x) <==> InFlight(r, x)
  {
  }

  /** Withdrawals come first and the index last: a pass that starts anything but a withdrawal leaves no
      due withdrawal behind, and one that starts a step of the index leaves no provider work behind. */
  lemma PlanPriority(cfg: Config, r: State, now: Time, slots: nat, j: Job, x: Name)
    requires j in Plan(cfg, r, now, slots).jobs
    ensures !j.Withdraw? && MustLeave(r, x, now) ==> InFlight(Plan(cfg, r, now, slots).state, x)
    ensures (j.ReadTypes? || j.WriteTypes?) && Wanted(cfg, r, x, now) ==>
              InFlight(Plan(cfg, r, now, slots).state, x)
  {
    hide *;
    var w, t, a, c := PlanPhases(cfg, r, now, slots);
    ReconcileMarks(a.state, now, slots - |w.jobs| - |t.jobs| - |a.jobs|, x);
    PhaseKinds(cfg, r, now, slots);
    PhaseKinds(cfg, w.state, now, slots - |w.jobs|);
    PhaseKinds(cfg, t.state, now, slots - |w.jobs| - |t.jobs|);
    assert j in w.jobs || j in t.jobs || j in a.jobs || j in c.jobs;
    if !j.Withdraw? && MustLeave(r, x, now) {
      PhasesInOrder(cfg, r, now, slots, x, w, t, a);
    }
    if (j.ReadTypes? || j.WriteTypes?) && Wanted(cfg, r, x, now) {
      ProvidersExhaust(cfg, r, now, slots, x, w, t, a);
    }
  }

  // ---- who goes first when the slots run out ----

  // The first `n` names that are in `ok`, each once.
  function Firsts(names: seq<Name>, ok: set<Name>, n: nat): seq<Name> {
    if names == [] || n == 0 then []
    else if names[0] in ok then [names[0]] + Firsts(names[1..], ok - {names[0]}, n - 1)
    else Firsts(names[1..], ok, n)
  }

  function Withdraws(g: nat, names: seq<Name>): seq<Job> {
    seq(|names|, i requires 0 <= i < |names| => Withdraw(g, names[i]))
  }

  function Announces(g: nat, names: seq<Name>): seq<Job> {
    seq(|names|, i requires 0 <= i < |names| => Announce(g, names[i]))
  }

  lemma JobsCons(g: nat, x: Name, names: seq<Name>)
    ensures Withdraws(g, [x] + names) == [Withdraw(g, x)] + Withdraws(g, names)
    ensures Announces(g, [x] + names) == [Announce(g, x)] + Announces(g, names)
  {
  }

  lemma {:induction false} WithdrawalsInOrder(r: State, due: seq<Name>, slots: nat, ok: set<Name>)
    requires forall x :: x in due ==> (x in ok <==> Free(r.prov, x))
    ensures PlanWithdrawals(r, due, slots).jobs == Withdraws(r.generation, Firsts(due, ok, slots))
    decreases |due|
  {
    if due != [] && slots > 0 {
      var x := due[0];
      if InFlight(r, x) {
        WithdrawalsInOrder(r, due[1..], slots, ok);
      } else {
        WithdrawalsInOrder(StartWithdraw(r, x), due[1..], slots - 1, ok - {x});
        JobsCons(r.generation, x, Firsts(due[1..], ok - {x}, slots - 1));
      }
    }
  }

  lemma {:induction false} RetriesInOrder(r: State, due: seq<Name>, slots: nat, ok: set<Name>)
    requires forall x :: x in due ==> (x in ok <==> Free(r.prov, x))
    ensures PlanRetries(r, due, slots).jobs == Announces(r.generation, Firsts(due, ok, slots))
    decreases |due|
  {
    if due != [] && slots > 0 {
      var x := due[0];
      if InFlight(r, x) {
        RetriesInOrder(r, due[1..], slots, ok);
      } else {
        RetriesInOrder(StartAnnounce(r, x), due[1..], slots - 1, ok - {x});
        JobsCons(r.generation, x, Firsts(due[1..], ok - {x}, slots - 1));
      }
    }
  }

  lemma {:induction false} AnnouncesInOrder(r: State, local: seq<Name>, now: Time, slots: nat, ok: set<Name>)
    requires forall x :: x in local ==> (x in ok <==> AnnounceEligible(r, x, now))
    ensures PlanAnnounces(r, local, now, slots).jobs == Announces(r.generation, Firsts(local, ok, slots))
    decreases |local|
  {
    if local != [] && slots > 0 {
      var x := local[0];
      if !AnnounceEligible(r, x, now) {
        AnnouncesInOrder(r, local[1..], now, slots, ok);
      } else {
        AnnouncesInOrder(StartAnnounce(r, x), local[1..], now, slots - 1, ok - {x});
        JobsCons(r.generation, x, Firsts(local[1..], ok - {x}, slots - 1));
      }
    }
  }

  /** Each phase serves its services in order until the slots run out: due withdrawals and due retries by
      name, new announcements as configured. */
  lemma PhasesServeInOrder(cfg: Config, r: State, now: Time, slots: nat)
    ensures var leave := set x | x in r.prov.deadline.Keys + r.prov.forced && MustLeave(r, x, now);
            var free := set x | x in leave && Free(r.prov, x);
            WithdrawPhase(r, now, slots).jobs == Withdraws(r.generation, Firsts(Sorted(leave), free, slots))
    ensures var retry := set x | x in r.prov.retryAt && MayEnter(r, x, now) && x !in r.prov.forced;
            var free := set x | x in retry && Free(r.prov, x);
            RetryPhase(r, now, slots).jobs == Announces(r.generation, Firsts(Sorted(retry), free, slots))
    ensures var ok := set x | x in LocalNames(cfg) && r.bootstrapped && MayEnter(r, x, now) && Free(r.prov, x);
            AnnouncePhase(cfg, r, now, slots).jobs == Announces(r.generation, Firsts(LocalNames(cfg), ok, slots))
  {
    WithdrawPhaseInOrder(r, now, slots);
    RetryPhaseInOrder(r, now, slots);
    AnnouncePhaseInOrder(cfg, r, now, slots);
  }

  lemma WithdrawPhaseInOrder(r: State, now: Time, slots: nat)
    ensures var leave := set x | x in r.prov.deadline.Keys + r.prov.forced && MustLeave(r, x, now);
            var free := set x | x in leave && Free(r.prov, x);
            WithdrawPhase(r, now, slots).jobs == Withdraws(r.generation, Firsts(Sorted(leave), free, slots))
  {
    var leave := set x | x in r.prov.deadline.Keys + r.prov.forced && MustLeave(r, x, now);
    assert leave == DueWithdrawals(r, now);
    WithdrawalsInOrder(r, Sorted(leave), slots, set x | x in leave && Free(r.prov, x));
  }

  lemma RetryPhaseInOrder(r: State, now: Time, slots: nat)
    ensures var retry := set x | x in r.prov.retryAt && MayEnter(r, x, now) && x !in r.prov.forced;
            var free := set x | x in retry && Free(r.prov, x);
            RetryPhase(r, now, slots).jobs == Announces(r.generation, Firsts(Sorted(retry), free, slots))
  {
    var retry := set x | x in r.prov.retryAt && MayEnter(r, x, now) && x !in r.prov.forced;
    assert retry == DueRetries(r, now);
    RetriesInOrder(r, Sorted(retry), slots, set x | x in retry && Free(r.prov, x));
  }

  lemma AnnouncePhaseInOrder(cfg: Config, r: State, now: Time, slots: nat)
    ensures var ok := set x | x in LocalNames(cfg) && r.bootstrapped && MayEnter(r, x, now) && Free(r.prov, x);
            AnnouncePhase(cfg, r, now, slots).jobs == Announces(r.generation, Firsts(LocalNames(cfg), ok, slots))
  {
    var ok := set x | x in LocalNames(cfg) && r.bootstrapped && MayEnter(r, x, now) && Free(r.prov, x);
    if r.bootstrapped && RelayReady(r) && slots > 0 {
      AnnouncesInOrder(r, LocalNames(cfg), now, slots, ok);
    } else {
      NoFirsts(LocalNames(cfg), ok, slots);
    }
  }

  lemma {:induction false} NoFirsts(names: seq<Name>, ok: set<Name>, n: nat)
    requires n == 0 || ok == {}
    ensures Firsts(names, ok, n) == []
  {
    if names != [] && n > 0 {
      NoFirsts(names[1..], ok, n);
    }
  }
}
