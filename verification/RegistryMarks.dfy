/** Runs in which no result of an earlier generation arrives late: the in-flight
    marks are exactly the running provider jobs. A late result can break this;
    exactly when is stated here too. */
module RegistryMarks {
  import opened Names
  import opened Options
  import opened TypesCodec
  import opened Registry
  import opened RegistryPlan
  import opened RegistryInvariant
  import opened RegistrySchedule
  import opened RegistryRuns

  predicate NoStragglers(es: seq<Timed>)
    decreases |es|
  {
    es != [] ==>
      NoStragglers(Init(es)) && (Last(es).event.Ended? ==> Last(es).event.job.generation == Resets(Init(es)))
  }

  ghost predicate Marks(r: State, jobs: Jobs) {
    && (forall x :: jobs[Announce(r.generation, x)] == if x in r.prov.announcing then 1 else 0)
    && (forall x :: jobs[Withdraw(r.generation, x)] == if x in r.prov.withdrawing then 1 else 0)
    && r.prov.announcing !! r.prov.withdrawing
    && r.prov.announcing !! r.prov.announced
  }

  lemma PlanKeepsMarks(cfg: Config, r: State, jobs: Jobs, now: Time, slots: nat)
    requires Marks(r, jobs)
    ensures var b := Plan(cfg, r, now, slots); Marks(b.state, jobs + multiset(b.jobs))
  {
    var keeps: Property := (q, js) => Marks(q, js);
    assert KeptByWithdraw(now, keeps);
    assert KeptByRetry(now, keeps);
    assert KeptByAnnounce(cfg, now, keeps);
    assert KeptByReconcile(now, keeps) by {
      forall q, js, n | keeps(q, js)
        ensures keeps(PlanReconcile(q, now, n).state, js + multiset(PlanReconcile(q, now, n).jobs))
      {
        ReconcileKeepsMarks(q, js, now, n);
      }
    }
    hide Marks, KeptByWithdraw, KeptByRetry, KeptByAnnounce, KeptByReconcile;
    PlanKeeps(cfg, r, jobs, now, slots, keeps);
  }

  // A step that leaves the marks and their jobs alone and announces nothing.
  lemma MarksUntouched(r: State, jobs: Jobs, q: State, jobs': Jobs)
    requires Marks(r, jobs) && q.generation == r.generation
    requires q.prov.announcing == r.prov.announcing && q.prov.withdrawing == r.prov.withdrawing
    requires q.prov.announced <= r.prov.announced
    requires forall j: Job :: IsProvider(j) && j.generation == r.generation ==> jobs'[j] == jobs[j]
    ensures Marks(q, jobs')
  {
    forall x ensures jobs'[Announce(r.generation, x)] == jobs[Announce(r.generation, x)]
                  && jobs'[Withdraw(r.generation, x)] == jobs[Withdraw(r.generation, x)] {
    }
  }

  lemma ReconcileKeepsMarks(r: State, jobs: Jobs, now: Time, slots: nat)
    requires Marks(r, jobs)
    ensures var b := PlanReconcile(r, now, slots); Marks(b.state, jobs + multiset(b.jobs))
  {
    var b := PlanReconcile(r, now, slots);
    assert forall j :: j in b.jobs ==> !IsProvider(j);
    assert b.state.prov == r.prov && b.state.generation == r.generation;
    hide Marks, PlanReconcile;
    MarksUntouched(r, jobs, b.state, jobs + multiset(b.jobs));
  }

  lemma ApplyKeepsMarks(cfg: Config, r: State, jobs: Jobs, job: Job, outcome: Outcome, order: seq<Name>, now: Time)
    requires Marks(r, jobs) && job in jobs && job.generation == r.generation && Fitting(job, outcome)
    ensures Marks(Apply(cfg, r, ResultOf(job, outcome), order, now), jobs - multiset{job})
  {
    hide Apply;
    var result := ResultOf(job, outcome);
    ApplyFrame(cfg, r, result, order, now);
    ApplyMarkSets(cfg, r, result, order, now);
    ApplyAnnouncedSet(cfg, r, result, order, now);
    if IsProvider(job) {
      assert jobs[job] == 1;
    }
  }

  /** A late result of an earlier generation breaks the match exactly when the service has a mark of
      the same kind, which then belongs to a newer job that is still running. */
  lemma LateResultKeepsMarksIff(cfg: Config, r: State, jobs: Jobs, job: Job, ok: bool, order: seq<Name>, now: Time)
    requires Marks(r, jobs) && job in jobs && IsProvider(job) && job.generation != r.generation
    ensures Marks(Apply(cfg, r, ResultOf(job, Done(ok)), order, now), jobs - multiset{job}) <==>
            job.service !in (if job.Announce? then r.prov.announcing else r.prov.withdrawing)
  {
    var q, rest := ApplyStale(r, ResultOf(job, Done(ok))), jobs - multiset{job};
    var x := job.service;
    var newer := if job.Announce? then Announce(r.generation, x) else Withdraw(r.generation, x);
    assert rest[newer] == jobs[newer];
    if x !in (if job.Announce? then r.prov.announcing else r.prov.withdrawing) {
      MarksUntouched(r, jobs, q, rest);
    }
  }

  lemma HandleKeepsMarks(r: State, jobs: Jobs, command: Command, now: Time)
    requires Marks(r, jobs) && GenerationsPast(r, jobs)
    requires command.Reset? ==> r.generation + 1 < U64_MODULUS
    ensures Marks(Handle(r, command, now), jobs)
  {
    if command.Reset? {
      assert forall j :: j in jobs ==> j.generation != Handle(r, command, now).generation;
    } else {
      MarksUntouched(r, jobs, Handle(r, command, now), jobs);
    }
  }

  lemma ReplaceReadyKeepsMarks(r: State, jobs: Jobs, ready: set<Name>, now: Time)
    requires Marks(r, jobs)
    ensures Marks(ReplaceReady(r, ready, now), jobs)
  {
    MarksUntouched(r, jobs, ReplaceReady(r, ready, now), jobs);
  }

  lemma ReactKeepsMarks(cfg: Config, s: System, e: Timed)
    requires Enabled(s, e) && Marks(s.state, s.jobs) && GenerationsPast(s.state, s.jobs)
    requires e.event.Ended? ==> e.event.job.generation == s.state.generation
    ensures Marks(React(cfg, s, e).state, React(cfg, s, e).jobs)
  {
    hide Apply, Handle, ReplaceReady, Marks, GenerationsPast;
    match e.event
    case Ended(job, outcome, order) => ApplyKeepsMarks(cfg, s.state, s.jobs, job, outcome, order, e.at);
    case Received(command) => HandleKeepsMarks(s.state, s.jobs, command, e.at);
    case Aborted(job) => MarksUntouched(s.state, s.jobs, s.state, s.jobs - multiset{job});
    case ReadinessChanged(ready) => ReplaceReadyKeepsMarks(s.state, s.jobs, ready, e.at);
  }

  lemma PumpKeepsMarks(cfg: Config, s: System)
    requires Marks(s.state, s.jobs)
    ensures Marks(Pump(cfg, s).state, Pump(cfg, s).jobs)
  {
    hide Marks, Plan;
    PlanKeepsMarks(cfg, s.state, s.jobs, s.now, FreeSlots(cfg, s.jobs));
  }

  lemma PastGenerations(cfg: Config, es: seq<Timed>)
    requires Run(cfg, es)
    ensures GenerationsPast(Exec(cfg, es).state, Exec(cfg, es).jobs)
  {
    RunKeepsInvariant(cfg, es);
  }

  lemma {:induction false} RunKeepsMarks(cfg: Config, es: seq<Timed>)
    requires Run(cfg, es) && NoStragglers(es)
    ensures Marks(Exec(cfg, es).state, Exec(cfg, es).jobs)
    decreases |es|
  {
    if es != [] {
      var s, e := Exec(cfg, Init(es)), Last(es);
      hide React, Pump, Marks, GenerationsPast;
      RunKeepsMarks(cfg, Init(es));
      PastGenerations(cfg, Init(es));
      RunTracksEvents(cfg, Init(es));
      ReactKeepsMarks(cfg, s, e);
      PumpKeepsMarks(cfg, React(cfg, s, e));
    }
  }

  /** Without stragglers the running Announce and Withdraw jobs of the current generation are exactly
      the in-flight marks, the marks are disjoint, and each service has at most one such job. */
  lemma MarksAreRunningJobs(cfg: Config, es: seq<Timed>, x: Name)
    requires Run(cfg, es) && NoStragglers(es)
    ensures var p, jobs, g := Exec(cfg, es).state.prov, Exec(cfg, es).jobs, Resets(es);
            && (Announce(g, x) in jobs <==> x in p.announcing)
            && (Withdraw(g, x) in jobs <==> x in p.withdrawing)
            && jobs[Announce(g, x)] + jobs[Withdraw(g, x)] <= 1
            && p.announcing !! p.withdrawing
  {
    RunKeepsMarks(cfg, es);
    RunTracksEvents(cfg, es);
    hide Exec;
  }
}
