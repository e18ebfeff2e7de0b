/** The grace period of a service that was announced when its backend
    disconnected, in runs without Reset and relay loss: what can take it out of
    the announced set before the period is over, and exactly when that can happen. */
module RegistryGrace {
  import opened Names
  import opened Options
  import opened TypesCodec
  import opened Registry
  import opened RegistryPlan
  import opened RegistryInvariant
  import opened RegistrySchedule
  import opened RegistryRuns
  import opened RegistryMarks

  // No Reset, and relay never lost.
  predicate Quiet(es: seq<Timed>)
    decreases |es|
  {
    es != [] ==> Quiet(Init(es)) && match Last(es).event
      case Received(Reset) => false
      case Received(RelayStateChanged(needRelay, active)) => !needRelay || active > 0
      case _ => true
  }

  ghost function NextDown(down: map<Name, Time>, s: System, e: Timed): map<Name, Time> {
    match e.event
    case ReadinessChanged(ready) =>
      map x | x in (down.Keys - ready) + (s.state.ready - ready) * s.state.prov.announced ::
        if x in s.state.ready || x !in down then e.at else down[x]
    case _ => down
  }

  // Services that were announced when their backend last went down and have been down since, with that time.
  ghost function DownSince(cfg: Config, es: seq<Timed>): map<Name, Time>
    requires Run(cfg, es)
    decreases |es|
  {
    if es == [] then map[] else NextDown(DownSince(cfg, Init(es)), Exec(cfg, Init(es)), Last(es))
  }

  ghost predicate InGrace(down: map<Name, Time>, now: Time, r: State) {
    forall x :: x in down ==>
      && x !in r.ready && x !in r.prov.announcing && down[x] <= now
      && (x in r.prov.deadline ==> r.prov.deadline[x] >= down[x] + WITHDRAW_GRACE)
  }

  lemma PlanKeepsGrace(cfg: Config, r: State, now: Time, slots: nat, down: map<Name, Time>)
    requires InGrace(down, now, r)
    ensures InGrace(down, now, Plan(cfg, r, now, slots).state)
  {
    var keeps: Property := (q, js) => InGrace(down, now, q);
    assert KeptByWithdraw(now, keeps);
    assert KeptByRetry(now, keeps);
    assert KeptByAnnounce(cfg, now, keeps);
    assert KeptByReconcile(now, keeps);
    hide InGrace, KeptByWithdraw, KeptByRetry, KeptByAnnounce, KeptByReconcile, Plan;
    PlanKeeps(cfg, r, multiset{}, now, slots, keeps);
  }

  lemma ApplyKeepsGrace(cfg: Config, r: State, jobs: Jobs, job: Job, outcome: Outcome, order: seq<Name>,
                        down: map<Name, Time>, before: Time, now: Time)
    requires InGrace(down, before, r) && before <= now && Marks(r, jobs) && job in jobs
    requires job.generation == r.generation && Fitting(job, outcome)
    ensures InGrace(down, now, Apply(cfg, r, ResultOf(job, outcome), order, now))
  {
    hide ApplyTypesRead, FinishReconcile, RetryDelay, MarkTypesDirty;
    if job.Announce? {
      assert jobs[job] > 0 && job.service in r.prov.announcing;
    }
  }

  lemma ApplyRelay(cfg: Config, r: State, result: JobResult, order: seq<Name>, now: Time)
    ensures RelayReady(Apply(cfg, r, result, order, now)) == RelayReady(r)
  {
    hide ApplyTypesRead, FinishReconcile, AnnounceSucceeded, AnnounceFailed, WithdrawSucceeded, WithdrawFailed;
  }

  // What a quiet run provides before each of its events.
  ghost predicate QuietState(s: System, e: Timed) {
    && Marks(s.state, s.jobs)
    && (forall x :: x in s.state.ready ==> x !in s.state.prov.deadline)
    && RelayReady(s.state)
    && Enabled(s, e)
    && match e.event
       case Received(Reset) => false
       case Received(RelayStateChanged(needRelay, active)) => !needRelay || active > 0
       case Ended(job, _, _) => job.generation == s.state.generation
       case _ => true
  }

  lemma HandleKeepsGrace(r: State, command: Command, down: map<Name, Time>, before: Time, now: Time)
    requires InGrace(down, before, r) && RelayReady(r) && before <= now
    requires !command.Reset? && (command.RelayStateChanged? ==> !command.needRelay || command.active > 0)
    ensures InGrace(down, now, Handle(r, command, now)) && RelayReady(Handle(r, command, now))
  {
  }

  lemma ReadinessKeepsGrace(s: System, ready: set<Name>, e: Timed, down: map<Name, Time>)
    requires QuietState(s, e) && InGrace(down, s.now, s.state) && e.event == ReadinessChanged(ready)
    ensures InGrace(NextDown(down, s, e), e.pumpAt, ReplaceReady(s.state, ready, e.at))
  {
    var r := s.state;
    var q, next := ReplaceReady(r, ready, e.at), NextDown(down, s, e);
    assert q.prov.announcing == r.prov.announcing;
    forall x | x in next
      ensures x !in ready && x !in r.prov.announcing && next[x] <= e.pumpAt
           && (x in q.prov.deadline ==> q.prov.deadline[x] >= next[x] + WITHDRAW_GRACE)
    {
      if x !in r.ready {
        assert x in down;
      }
    }
  }

  lemma ReactKeepsGrace(cfg: Config, s: System, e: Timed, down: map<Name, Time>)
    requires QuietState(s, e) && InGrace(down, s.now, s.state)
    ensures var q := React(cfg, s, e); InGrace(NextDown(down, s, e), q.now, q.state) && RelayReady(q.state)
  {
    hide Apply, Handle, Marks;
    match e.event
    case Ended(job, outcome, order) =>
      ApplyKeepsGrace(cfg, s.state, s.jobs, job, outcome, order, down, s.now, e.at);
      ApplyRelay(cfg, s.state, ResultOf(job, outcome), order, e.at);
    case Received(command) => HandleKeepsGrace(s.state, command, down, s.now, e.at);
    case Aborted(job) =>
    case ReadinessChanged(ready) => ReadinessKeepsGrace(s, ready, e, down);
  }

  lemma {:induction false} QuietFacts(cfg: Config, es: seq<Timed>)
    requires Run(cfg, es) && Quiet(es)
    ensures Resets(es) == 0 && NoStragglers(es)
    decreases |es|
  {
    if es != [] {
      QuietFacts(cfg, Init(es));
      PastGenerations(cfg, Init(es));
      RunTracksEvents(cfg, Init(es));
    }
  }

  lemma QuietStates(cfg: Config, es: seq<Timed>)
    requires es != [] && Run(cfg, es) && Quiet(es) && RelayReady(Exec(cfg, Init(es)).state)
    ensures QuietState(Exec(cfg, Init(es)), Last(es))
  {
    QuietFacts(cfg, es);
    RunTracksEvents(cfg, Init(es));
    RunKeepsMarks(cfg, Init(es));
    NoDeadlineWhenReady(cfg, Init(es));
    hide Marks;
  }

  lemma NoDeadlineWhenReady(cfg: Config, es: seq<Timed>)
    requires Run(cfg, es)
    ensures forall x :: x in Exec(cfg, es).state.ready ==> x !in Exec(cfg, es).state.prov.deadline
  {
    forall x | x in Exec(cfg, es).state.ready ensures x !in Exec(cfg, es).state.prov.deadline {
      DownServicesLeave(cfg, es, x);
    }
  }

  lemma PumpKeepsGrace(cfg: Config, s: System, down: map<Name, Time>)
    requires InGrace(down, s.now, s.state) && RelayReady(s.state)
    ensures InGrace(down, Pump(cfg, s).now, Pump(cfg, s).state) && RelayReady(Pump(cfg, s).state)
  {
    hide InGrace, Plan;
    PlanKeepsGrace(cfg, s.state, s.now, FreeSlots(cfg, s.jobs), down);
    PumpFrame(cfg, s);
  }

  lemma {:induction false} QuietRunsKeepGrace(cfg: Config, es: seq<Timed>)
    requires Run(cfg, es) && Quiet(es)
    ensures InGrace(DownSince(cfg, es), Exec(cfg, es).now, Exec(cfg, es).state)
    ensures RelayReady(Exec(cfg, es).state)
    decreases |es|
  {
    if es != [] {
      hide InGrace, Pump, React, QuietState, NextDown, RelayReady;
      QuietRunsKeepGrace(cfg, Init(es));
      QuietStates(cfg, es);
      ReactKeepsGrace(cfg, Exec(cfg, Init(es)), Last(es), DownSince(cfg, Init(es)));
      PumpKeepsGrace(cfg, React(cfg, Exec(cfg, Init(es)), Last(es)), DownSince(cfg, es));
    }
  }

  lemma NothingForced(cfg: Config, s: System, e: Timed)
    requires SystemInv(cfg, s) && Enabled(s, e) && RelayReady(React(cfg, s, e).state)
    ensures React(cfg, s, e).state.prov.forced == {}
  {
    hide React;
    ReactKeeps(cfg, s, e);
  }

  lemma DueInGrace(cfg: Config, r: State, x: Name, now: Time, down: map<Name, Time>)
    requires Due(cfg, r, Withdraw(r.generation, x), now) && InGrace(down, now, r) && r.prov.forced == {}
    ensures x !in r.ready && (x in down ==> now >= down[x] + WITHDRAW_GRACE)
  {
  }

  /** In a run without Reset and relay loss, a Withdraw job is started only for a service that is
      down, and for one that was announced when it went down not before the grace period is over. */
  lemma NoEarlyStart(cfg: Config, es: seq<Timed>, job: Job)
    requires es != [] && Run(cfg, es) && Quiet(es)
    requires job in Issued(cfg, Exec(cfg, Init(es)), Last(es)) && job.Withdraw?
    ensures job.service !in Exec(cfg, es).state.ready
    ensures job.service in DownSince(cfg, es) ==>
              Last(es).pumpAt >= DownSince(cfg, es)[job.service] + WITHDRAW_GRACE
  {
    var s, e := Exec(cfg, Init(es)), Last(es);
    var q := React(cfg, s, e);
    hide React, InGrace, QuietState, NextDown, RelayReady, SystemInv, Plan;
    QuietRunsKeepGrace(cfg, Init(es));
    QuietStates(cfg, es);
    ReactKeepsGrace(cfg, s, e, DownSince(cfg, Init(es)));
    RunKeepsInvariant(cfg, Init(es));
    NothingForced(cfg, s, e);
    ReactTime(cfg, s, e);
    PlanStartsOnlyDue(cfg, q.state, q.now, FreeSlots(cfg, q.jobs), job);
    DueInGrace(cfg, q.state, job.service, q.now, DownSince(cfg, es));
    PumpFrame(cfg, q);
  }

  // ---- what is withdrawn ----

  ghost function NextCaught(caught: set<Name>, s: System, e: Timed): set<Name> {
    match e.event
    case ReadinessChanged(ready) =>
      (caught - ready) +
      (set x | x in (s.state.ready - ready) * s.state.prov.announced && Withdraw(s.state.generation, x) in s.jobs)
    case Ended(Withdraw(_, x), _, _) => caught - {x}
    case _ => caught
  }

  // Services whose Withdraw job was already running when their backend last went down, and still is.
  ghost function Caught(cfg: Config, es: seq<Timed>): set<Name>
    requires Run(cfg, es)
    decreases |es|
  {
    if es == [] then {} else NextCaught(Caught(cfg, Init(es)), Exec(cfg, Init(es)), Last(es))
  }

  // Within the grace period a running Withdraw job is one that was running at the disconnect.
  ghost predicate CaughtOk(down: map<Name, Time>, caught: set<Name>, g: nat, jobs: Jobs, now: Time) {
    && (forall x :: x in caught ==> Withdraw(g, x) in jobs)
    && (forall x :: x in down && x !in caught && Withdraw(g, x) in jobs ==> now >= down[x] + WITHDRAW_GRACE)
  }

  lemma ReactJobs(cfg: Config, s: System, e: Timed)
    requires Enabled(s, e)
    ensures var q := React(cfg, s, e);
            && q.now == e.pumpAt >= s.now
            && q.jobs == match e.event
                         case Ended(job, _, _) => s.jobs - multiset{job}
                         case Aborted(job) => s.jobs - multiset{job}
                         case _ => s.jobs
  {
    hide Handle, Apply, ReplaceReady;
  }

  // Jobs may end, and Withdraw jobs start for services whose grace period is over.
  lemma CaughtJobs(down: map<Name, Time>, caught: set<Name>, g: nat, jobs: Jobs, now: Time,
                   caught': set<Name>, jobs': Jobs, now': Time)
    requires CaughtOk(down, caught, g, jobs, now) && now <= now'
    requires forall x :: x in caught' ==> x in caught && Withdraw(g, x) in jobs'
    requires forall x :: x in down && x !in caught' && Withdraw(g, x) in jobs' ==>
               now' >= down[x] + WITHDRAW_GRACE || (Withdraw(g, x) in jobs && x !in caught)
    ensures CaughtOk(down, caught', g, jobs', now')
  {
  }

  lemma CaughtReadiness(s: System, e: Timed, down: map<Name, Time>, caught: set<Name>)
    requires CaughtOk(down, caught, s.state.generation, s.jobs, s.now) && Enabled(s, e) && e.event.ReadinessChanged?
    requires forall x :: x in down ==> x !in s.state.ready
    ensures CaughtOk(NextDown(down, s, e), NextCaught(caught, s, e), s.state.generation, s.jobs, e.pumpAt)
  {
  }

  lemma ReactKeepsCaught(cfg: Config, s: System, e: Timed, down: map<Name, Time>, caught: set<Name>)
    requires QuietState(s, e) && CaughtOk(down, caught, s.state.generation, s.jobs, s.now)
    requires forall x :: x in down ==> x !in s.state.ready
    ensures var q := React(cfg, s, e);
            && CaughtOk(NextDown(down, s, e), NextCaught(caught, s, e), q.state.generation, q.jobs, q.now)
            && q.state.generation == s.state.generation
  {
    var g, q := s.state.generation, React(cfg, s, e);
    ReactJobs(cfg, s, e);
    ReactTracks(cfg, s, e);
    if e.event.ReadinessChanged? {
      CaughtReadiness(s, e, down, caught);
    } else {
      if e.event.Ended? && e.event.job.Withdraw? {
        assert s.jobs[e.event.job] == 1;
      }
      hide React, RelayReady, Marks, CaughtOk;
      CaughtJobs(down, caught, g, s.jobs, s.now, NextCaught(caught, s, e), q.jobs, q.now);
    }
  }

  lemma PumpKeepsCaught(cfg: Config, es: seq<Timed>)
    requires es != [] && Run(cfg, es) && Quiet(es)
    requires var q := React(cfg, Exec(cfg, Init(es)), Last(es));
             CaughtOk(DownSince(cfg, es), Caught(cfg, es), q.state.generation, q.jobs, q.now)
    ensures var q := Exec(cfg, es); CaughtOk(DownSince(cfg, es), Caught(cfg, es), q.state.generation, q.jobs, q.now)
  {
    var s, e := Exec(cfg, Init(es)), Last(es);
    var q, down, caught := React(cfg, s, e), DownSince(cfg, es), Caught(cfg, es);
    var g, issued := q.state.generation, Issued(cfg, s, e);
    PumpFrame(cfg, q);
    ReactTime(cfg, s, e);
    assert Exec(cfg, es).jobs == q.jobs + multiset(issued) && Exec(cfg, es).now == q.now;
    assert Exec(cfg, es).state.generation == g;
    forall x | x in down && Withdraw(g, x) in issued ensures q.now >= down[x] + WITHDRAW_GRACE {
      NoEarlyStart(cfg, es, Withdraw(g, x));
    }
    assert forall x :: x in caught ==> Withdraw(g, x) in q.jobs;
    hide React, Exec, Issued, Quiet, Run, DownSince, Caught, CaughtOk;
    CaughtJobs(down, caught, g, q.jobs, q.now, caught, q.jobs + multiset(issued), q.now);
  }

  lemma DownAreDown(cfg: Config, es: seq<Timed>)
    requires Run(cfg, es) && Quiet(es)
    ensures forall x :: x in DownSince(cfg, es) ==> x !in Exec(cfg, es).state.ready
  {
    QuietRunsKeepGrace(cfg, es);
    hide Exec, DownSince;
  }

  lemma {:induction false} QuietRunsKeepCaught(cfg: Config, es: seq<Timed>)
    requires Run(cfg, es) && Quiet(es)
    ensures var q := Exec(cfg, es); CaughtOk(DownSince(cfg, es), Caught(cfg, es), q.state.generation, q.jobs, q.now)
    decreases |es|
  {
    if es != [] {
      hide React, QuietState, NextDown, NextCaught, RelayReady, Pump, InGrace, CaughtOk;
      QuietRunsKeepCaught(cfg, Init(es));
      QuietRunsKeepGrace(cfg, Init(es));
      QuietStates(cfg, es);
      DownAreDown(cfg, Init(es));
      ReactKeepsCaught(cfg, Exec(cfg, Init(es)), Last(es), DownSince(cfg, Init(es)), Caught(cfg, Init(es)));
      PumpKeepsCaught(cfg, es);
    }
  }

  // The end of the grace period of a service that is down.
  ghost function GraceEnd(cfg: Config, es: seq<Timed>, x: Name): Time
    requires Run(cfg, es) && x in DownSince(cfg, es)
  {
    DownSince(cfg, es)[x] + WITHDRAW_GRACE
  }

  // What can take a service out of the announced set while relay is ready and there is no Reset.
  lemma Loses(cfg: Config, s: System, e: Timed, x: Name)
    requires Enabled(s, e) && e.event != Received(Reset) && RelayReady(s.state)
    requires x in s.state.prov.announced && x !in Step(cfg, s, e).state.prov.announced
    ensures match e.event
            case Received(command) => command == BootstrapCompleted || command == Reannounce
            case Ended(job, outcome, _) => job == Withdraw(s.state.generation, x) && outcome == Done(true)
            case _ => false
  {
    ReactAnnounced(cfg, s, e);
    hide React, Plan;
    PumpFrame(cfg, React(cfg, s, e));
  }

  lemma QuietGeneration(cfg: Config, es: seq<Timed>)
    requires Run(cfg, es) && Quiet(es)
    ensures Exec(cfg, es).state.generation == 0 && RelayReady(Exec(cfg, es).state)
  {
    QuietFacts(cfg, es);
    RunTracksEvents(cfg, es);
    QuietRunsKeepGrace(cfg, es);
    hide Exec, Advertised, InGrace;
  }

  /** In a run without Reset and relay loss, a service that was announced when its backend went down
      leaves the announced set within three seconds only to be announced afresh, or by a withdrawal
      that was already running at the disconnect. */
  lemma GraceIsHonoured(cfg: Config, es: seq<Timed>, x: Name)
    requires es != [] && Run(cfg, es) && Quiet(es)
    requires x in DownSince(cfg, Init(es)) && Last(es).at < GraceEnd(cfg, Init(es), x)
    requires x in Exec(cfg, Init(es)).state.prov.announced && x !in Exec(cfg, es).state.prov.announced
    ensures match Last(es).event
            case Received(command) => command == BootstrapCompleted || command == Reannounce
            case Ended(job, outcome, _) => job == Withdraw(0, x) && outcome == Done(true) && x in Caught(cfg, Init(es))
            case _ => false
  {
    var s, e := Exec(cfg, Init(es)), Last(es);
    assert Exec(cfg, es) == Step(cfg, s, e);
    QuietRunsKeepCaught(cfg, Init(es));
    QuietGeneration(cfg, Init(es));
    hide Exec, Run, Step, DownSince, Caught, RelayReady;
    Loses(cfg, s, e, x);
  }

  // A withdrawal result that takes `x` out of the announced set before its grace period is over.
  ghost predicate WithdrawsEarly(cfg: Config, es: seq<Timed>, e: Timed, x: Name)
    requires Run(cfg, es) && x in DownSince(cfg, es)
  {
    && Enabled(Exec(cfg, es), e) && e.at < GraceEnd(cfg, es, x)
    && e.event.Ended? && x !in Step(cfg, Exec(cfg, es), e).state.prov.announced
  }

  lemma EndsWithdrawal(cfg: Config, s: System, x: Name) returns (e: Timed)
    requires Withdraw(s.state.generation, x) in s.jobs
    ensures Enabled(s, e) && e.at == s.now && e.event.Ended? && x !in Step(cfg, s, e).state.prov.announced
  {
    e := Timed(Ended(Withdraw(s.state.generation, x), Done(true), Sorted(s.state.prov.announced)), s.now, s.now);
    ReactAnnounced(cfg, s, e);
    hide React, Plan;
    PumpFrame(cfg, React(cfg, s, e));
  }

  /** While the grace period lasts, a result can take the service out of the announced set exactly
      when a withdrawal was running at the disconnect and has not ended since. */
  lemma WithdrawsEarlyIff(cfg: Config, es: seq<Timed>, x: Name)
    requires Run(cfg, es) && Quiet(es) && x in DownSince(cfg, es) && Exec(cfg, es).now < GraceEnd(cfg, es, x)
    requires x in Exec(cfg, es).state.prov.announced
    ensures (exists e :: WithdrawsEarly(cfg, es, e, x)) <==> x in Caught(cfg, es)
  {
    var s := Exec(cfg, es);
    QuietRunsKeepCaught(cfg, es);
    QuietGeneration(cfg, es);
    hide Exec, Run, Quiet, DownSince, Caught, Step, RelayReady;
    if x in Caught(cfg, es) {
      var e := EndsWithdrawal(cfg, s, x);
      assert WithdrawsEarly(cfg, es, e, x);
    }
    if e :| WithdrawsEarly(cfg, es, e, x) {
      Loses(cfg, s, e, x);
    }
  }
}
