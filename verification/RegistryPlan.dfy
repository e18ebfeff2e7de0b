/** Induction over one planning pass: a property that holds when each single job
    is started holds after the whole pass. */
module RegistryPlan {
  import opened Names
  import opened Options
  import opened TypesCodec
  import opened Registry

  type Jobs = multiset<Job>
  type Property = (State, Jobs) -> bool

  ghost predicate KeptByWithdraw(now: Time, keeps: Property) {
    forall q, jobs, x {:trigger keeps(q, jobs), StartWithdraw(q, x)} ::
      keeps(q, jobs) && WithdrawDue(q, x, now) && !InFlight(q, x) ==>
        keeps(StartWithdraw(q, x), jobs + multiset{Withdraw(q.generation, x)})
  }

  ghost predicate KeptByRetry(now: Time, keeps: Property) {
    forall q, jobs, x {:trigger keeps(q, jobs), StartAnnounce(q, x)} ::
      keeps(q, jobs) && RetryDue(q, x, now) && !InFlight(q, x) ==>
        keeps(StartAnnounce(q, x), jobs + multiset{Announce(q.generation, x)})
  }

  ghost predicate CanAnnounce(cfg: Config, q: State, x: Name, now: Time) {
    q.bootstrapped && RelayReady(q) && x in LocalNames(cfg) && AnnounceEligible(q, x, now)
  }

  ghost predicate KeptByAnnounce(cfg: Config, now: Time, keeps: Property) {
    forall q, jobs, x {:trigger keeps(q, jobs), StartAnnounce(q, x)} ::
      keeps(q, jobs) && CanAnnounce(cfg, q, x, now) ==>
        keeps(StartAnnounce(q, x), jobs + multiset{Announce(q.generation, x)})
  }

  ghost predicate KeptByReconcile(now: Time, keeps: Property) {
    forall q, jobs, slots {:trigger keeps(q, jobs), PlanReconcile(q, now, slots)} :: keeps(q, jobs) ==>
      keeps(PlanReconcile(q, now, slots).state, jobs + multiset(PlanReconcile(q, now, slots).jobs))
  }

  lemma NoJobs(jobs: Jobs)
    ensures jobs + multiset([]) == jobs
  {
  }

  lemma ConsJobs(jobs: Jobs, j: Job, rest: seq<Job>)
    ensures jobs + multiset([j] + rest) == jobs + multiset{j} + multiset(rest)
  {
  }

  ghost predicate Distinct(names: seq<Name>) {
    forall i, j :: 0 <= i < j < |names| ==> names[i] != names[j]
  }

  lemma {:induction false} WithdrawalsKeep(r: State, jobs: Jobs, due: seq<Name>, slots: nat, now: Time, keeps: Property)
    requires KeptByWithdraw(now, keeps) && keeps(r, jobs)
    requires Distinct(due) && forall x :: x in due ==> WithdrawDue(r, x, now)
    ensures var b := PlanWithdrawals(r, due, slots); keeps(b.state, jobs + multiset(b.jobs))
    decreases |due|
  {
    if due == [] || slots == 0 {
      NoJobs(jobs);
    } else if InFlight(r, due[0]) {
      WithdrawalsKeep(r, jobs, due[1..], slots, now, keeps);
    } else {
      var q, w := StartWithdraw(r, due[0]), Withdraw(r.generation, due[0]);
      forall x | x in due[1..] ensures WithdrawDue(q, x, now) {
        assert WithdrawDue(r, x, now) && x != due[0];
      }
      WithdrawalsKeep(q, jobs + multiset{w}, due[1..], slots - 1, now, keeps);
      ConsJobs(jobs, w, PlanWithdrawals(q, due[1..], slots - 1).jobs);
    }
  }

  lemma {:induction false} RetriesKeep(r: State, jobs: Jobs, due: seq<Name>, slots: nat, now: Time, keeps: Property)
    requires KeptByRetry(now, keeps) && keeps(r, jobs)
    requires Distinct(due) && forall x :: x in due ==> RetryDue(r, x, now)
    ensures var b := PlanRetries(r, due, slots); keeps(b.state, jobs + multiset(b.jobs))
    decreases |due|
  {
    if due == [] || slots == 0 {
      NoJobs(jobs);
    } else if InFlight(r, due[0]) {
      RetriesKeep(r, jobs, due[1..], slots, now, keeps);
    } else {
      var q, a := StartAnnounce(r, due[0]), Announce(r.generation, due[0]);
      forall x | x in due[1..] ensures RetryDue(q, x, now) {
        assert RetryDue(r, x, now) && x != due[0];
      }
      RetriesKeep(q, jobs + multiset{a}, due[1..], slots - 1, now, keeps);
      ConsJobs(jobs, a, PlanRetries(q, due[1..], slots - 1).jobs);
    }
  }

  lemma {:induction false} AnnouncesKeep(cfg: Config, r: State, jobs: Jobs, local: seq<Name>, slots: nat, now: Time,
      keeps: Property)
    requires KeptByAnnounce(cfg, now, keeps) && keeps(r, jobs)
    requires r.bootstrapped && RelayReady(r) && forall x :: x in local ==> x in LocalNames(cfg)
    ensures var b := PlanAnnounces(r, local, now, slots); keeps(b.state, jobs + multiset(b.jobs))
    decreases |local|
  {
    if local == [] || slots == 0 {
      NoJobs(jobs);
    } else if !AnnounceEligible(r, local[0], now) {
      AnnouncesKeep(cfg, r, jobs, local[1..], slots, now, keeps);
    } else {
      var q, a := StartAnnounce(r, local[0]), Announce(r.generation, local[0]);
      assert CanAnnounce(cfg, r, local[0], now);
      AnnouncesKeep(cfg, q, jobs + multiset{a}, local[1..], slots - 1, now, keeps);
      ConsJobs(jobs, a, PlanAnnounces(q, local[1..], now, slots - 1).jobs);
    }
  }

  lemma SortedDistinct(s: set<Name>)
    ensures Distinct(Sorted(s))
  {
    SortedIncreases(s);
  }

  lemma WithdrawPhaseKeeps(r: State, jobs: Jobs, now: Time, slots: nat, keeps: Property)
    requires KeptByWithdraw(now, keeps) && keeps(r, jobs)
    ensures var b := WithdrawPhase(r, now, slots); keeps(b.state, jobs + multiset(b.jobs))
  {
    SortedDistinct(DueWithdrawals(r, now));
    WithdrawalsKeep(r, jobs, Sorted(DueWithdrawals(r, now)), slots, now, keeps);
  }

  lemma RetryPhaseKeeps(r: State, jobs: Jobs, now: Time, slots: nat, keeps: Property)
    requires KeptByRetry(now, keeps) && keeps(r, jobs)
    ensures var b := RetryPhase(r, now, slots); keeps(b.state, jobs + multiset(b.jobs))
  {
    SortedDistinct(DueRetries(r, now));
    RetriesKeep(r, jobs, Sorted(DueRetries(r, now)), slots, now, keeps);
  }

  lemma AnnouncePhaseKeeps(cfg: Config, r: State, jobs: Jobs, now: Time, slots: nat, keeps: Property)
    requires KeptByAnnounce(cfg, now, keeps) && keeps(r, jobs)
    ensures var b := AnnouncePhase(cfg, r, now, slots); keeps(b.state, jobs + multiset(b.jobs))
  {
    if r.bootstrapped && RelayReady(r) && slots > 0 {
      AnnouncesKeep(cfg, r, jobs, LocalNames(cfg), slots, now, keeps);
    } else {
      NoJobs(jobs);
    }
  }

  lemma AppendJobs(jobs: Jobs, a: seq<Job>, b: seq<Job>)
    ensures jobs + multiset(a + b) == jobs + multiset(a) + multiset(b)
  {
  }

  lemma PlanNewKeeps(cfg: Config, r: State, jobs: Jobs, now: Time, slots: nat, keeps: Property)
    requires KeptByAnnounce(cfg, now, keeps) && KeptByReconcile(now, keeps)
    requires keeps(r, jobs)
    ensures var b := PlanNew(cfg, r, now, slots); keeps(b.state, jobs + multiset(b.jobs))
  {
    var a := AnnouncePhase(cfg, r, now, slots);
    AnnouncePhaseKeeps(cfg, r, jobs, now, slots, keeps);
    var c := PlanReconcile(a.state, now, slots - |a.jobs|);
    assert keeps(c.state, jobs + multiset(a.jobs) + multiset(c.jobs));
    AppendJobs(jobs, a.jobs, c.jobs);
  }

  lemma PlanStartsKeeps(cfg: Config, r: State, jobs: Jobs, now: Time, slots: nat, keeps: Property)
    requires KeptByRetry(now, keeps) && KeptByAnnounce(cfg, now, keeps) && KeptByReconcile(now, keeps)
    requires keeps(r, jobs)
    ensures var b := PlanStarts(cfg, r, now, slots); keeps(b.state, jobs + multiset(b.jobs))
  {
    var t := RetryPhase(r, now, slots);
    RetryPhaseKeeps(r, jobs, now, slots, keeps);
    PlanNewKeeps(cfg, t.state, jobs + multiset(t.jobs), now, slots - |t.jobs|, keeps);
    AppendJobs(jobs, t.jobs, PlanNew(cfg, t.state, now, slots - |t.jobs|).jobs);
  }

  /** What starting each single job keeps, a planning pass keeps. */
  lemma PlanKeeps(cfg: Config, r: State, jobs: Jobs, now: Time, slots: nat, keeps: Property)
    requires KeptByWithdraw(now, keeps) && KeptByRetry(now, keeps) && KeptByAnnounce(cfg, now, keeps)
    requires KeptByReconcile(now, keeps)
    requires keeps(r, jobs)
    ensures var b := Plan(cfg, r, now, slots); keeps(b.state, jobs + multiset(b.jobs))
  {
    var w := WithdrawPhase(r, now, slots);
    WithdrawPhaseKeeps(r, jobs, now, slots, keeps);
    PlanStartsKeeps(cfg, w.state, jobs + multiset(w.jobs), now, slots - |w.jobs|, keeps);
    AppendJobs(jobs, w.jobs, PlanStarts(cfg, w.state, now, slots - |w.jobs|).jobs);
  }
}
