/** The relay manager seen one peer at a time: whether a peer is active, pending
    or resting is read off the events and the attempts that name it. */
module RelayPeers {
  import opened Options
  import opened RelayModel

  // All that the manager knows of one peer.
  datatype Standing = Standing(active: bool, since: Option<Time>, failures: nat, until: Option<Time>)

  const UNTRIED: Standing := Standing(false, None, 0, None)

  function StandingOf(r: Relay, p: Peer): Standing {
    Standing(p in r.active, if p in r.pending then Some(r.pending[p]) else None,
             if p in r.failures then r.failures[p] else 0, if p in r.backoff then Some(r.backoff[p]) else None)
  }

  // Seconds of rest after the n-th failure in a row.
  function Rest(cfg: Config, n: nat): nat {
    if cfg.maxFailures > 0 && n >= cfg.maxFailures then 3600
    else if n <= 1 then 30
    else if n == 2 then 60
    else if n == 3 then 120
    else if n == 4 then 240
    else if n == 5 then 480
    else 600
  }

  function Failure(cfg: Config, s: Standing, now: Time): Standing {
    s.(failures := s.failures + 1, until := Some(now + Rest(cfg, s.failures + 1)))
  }

  // The peer after the addresses of a listener are closed: the first circuit address of it counts.
  function Closing(cfg: Config, s: Standing, addresses: seq<Address>, times: seq<Time>, p: Peer): Standing
    requires |times| == |addresses|
  {
    var i := FirstClosing(addresses, p);
    if i == |addresses| || (!s.active && s.since.None?) then s
    else Failure(cfg, s.(active := false, since := None), times[i])
  }

  predicate Confirms(cfg: Config, e: Event, p: Peer) {
    (e.Circuit? && e.address.peer == Some(p) && p != cfg.self) || e == Accepted(p)
  }

  predicate ClosesAt(addresses: seq<Address>, i: int, p: Peer) {
    0 <= i < |addresses| && addresses[i].circuit && addresses[i].peer == Some(p)
  }

  ghost predicate Closes(e: Event, p: Peer) {
    e.ListenerClosed? && exists i :: ClosesAt(e.addresses, i, p)
  }

  // The first circuit address of the peer, or the number of addresses.
  function FirstClosing(addresses: seq<Address>, p: Peer): (i: nat)
    ensures i <= |addresses| && (i < |addresses| ==> ClosesAt(addresses, i, p))
    ensures forall k :: 0 <= k < i ==> !ClosesAt(addresses, k, p)
  {
    if addresses == [] then 0 else
      var n := |addresses| - 1;
      var i := FirstClosing(addresses[..n], p);
      assert forall k :: 0 <= k < n ==> (ClosesAt(addresses, k, p) <==> ClosesAt(addresses[..n], k, p));
      if i < n || ClosesAt(addresses, n, p) then i else n + 1
  }

  // A reservation unconfirmed for three retry intervals, and three minutes, has failed.
  predicate TimedOut(cfg: Config, s: Standing, now: Time) {
    s.since.Some? && now >= s.since.value + 180 && now >= s.since.value + 3 * cfg.retryInterval
  }

  // The peer after an event; `tried` says whether a tick attempted it.
  function AfterEvent(cfg: Config, s: Standing, e: Event, tried: bool, p: Peer): Standing
    requires Sensible(e)
  {
    match e
    case Circuit(_) => if Confirms(cfg, e, p) then Standing(true, None, 0, None) else s
    case Accepted(_) => if Confirms(cfg, e, p) then Standing(true, None, 0, None) else s
    case ListenerClosed(addresses, times) =>
      Closing(cfg, s, addresses, times, p)
    case Ticked(now, ok) =>
      if !cfg.needed then s else
        var t := if TimedOut(cfg, s, now) then Failure(cfg, s.(since := None), now) else s;
        if !tried then t else if p in ok then t.(since := Some(now)) else Failure(cfg, t, now)
    case Reset => UNTRIED
  }

  predicate Tries(cfg: Config, r: Relay, e: Event, p: Peer) {
    e.Ticked? && p in Tick(cfg, r, e.now, e.ok).attempts
  }

  ghost predicate AllSensible(es: seq<Event>) {
    forall i :: 0 <= i < |es| ==> Sensible(es[i])
  }

  ghost function History(cfg: Config, es: seq<Event>, p: Peer): Standing
    requires AllSensible(es)
  {
    if es == [] then UNTRIED else
      var n := |es| - 1;
      AfterEvent(cfg, History(cfg, es[..n], p), es[n], Tries(cfg, Exec(cfg, es[..n]), es[n], p), p)
  }

  // ---- the whole manager does this to each peer ----

  lemma RestIsDelay(cfg: Config, n: nat)
    ensures Delay(cfg, n) == Rest(cfg, n)
  {
    assert Shifted(1) == 60 && Shifted(2) == 120 && Shifted(3) == 240 && Shifted(4) == 480 && Shifted(5) == 960;
  }

  lemma FailedStanding(cfg: Config, r: Relay, q: Peer, now: Time, p: Peer)
    ensures var s := StandingOf(r, p);
            StandingOf(Failed(cfg, r, q, now), p)
            == if q == p then Failure(cfg, s, now) else s
  {
    RestIsDelay(cfg, Count(r, p) + 1);
    hide Delay;
  }

  lemma {:induction false} ClosedStanding(cfg: Config, r: Relay, addresses: seq<Address>, times: seq<Time>, p: Peer)
    requires |times| == |addresses|
    ensures StandingOf(ClosedAll(cfg, r, addresses, times), p)
            == Closing(cfg, StandingOf(r, p), addresses, times, p)
  {
    if addresses != [] {
      var n := |addresses| - 1;
      var q := ClosedAll(cfg, r, addresses[..n], times[..n]);
      ClosedStanding(cfg, r, addresses[..n], times[..n], p);
      if addresses[n].peer.Some? {
        var x := addresses[n].peer.value;
        FailedStanding(cfg, q.(active := q.active - {x}, pending := q.pending - {x}), x, times[n], p);
      }
      hide Failed;
    }
  }

  lemma ExpiredStanding(cfg: Config, r: Relay, now: Time, p: Peer)
    ensures var s := StandingOf(r, p);
            StandingOf(Expired(cfg, r, now), p)
            == if TimedOut(cfg, s, now) then Failure(cfg, s.(since := None), now) else s
  {
    RestIsDelay(cfg, Count(r, p) + 1);
    hide Delay;
  }

  // What a pass makes of a peer.
  function AfterPass(cfg: Config, s: Standing, tried: bool, now: Time, ok: bool): Standing {
    if !tried then s
    else if ok then s.(since := Some(now))
    else Failure(cfg, s, now)
  }

  lemma {:induction false} PassStanding(cfg: Config, r: Relay, candidates: seq<Peer>, desired: nat, now: Time,
      ok: set<Peer>, p: Peer)
    requires Distinct(candidates)
    ensures var s := TopUpAll(cfg, r, candidates, desired, now, ok);
            && (p in s.attempts ==> p in candidates && !Tracked(r, p))
            && StandingOf(s.relay, p) == AfterPass(cfg, StandingOf(r, p), p in s.attempts, now, p in ok)
  {
    if candidates != [] {
      var n := |candidates| - 1;
      var init, x := candidates[..n], candidates[n];
      PassStanding(cfg, r, init, desired, now, ok, p);
      var s := TopUpAll(cfg, r, init, desired, now, ok);
      assert x !in init;
      FailedStanding(cfg, s.relay, x, now, p);
      hide Failed, Resting, Load;
    }
  }

  lemma TickStanding(cfg: Config, r: Relay, now: Time, ok: set<Peer>, p: Peer)
    ensures var e := Ticked(now, ok);
            StandingOf(Tick(cfg, r, now, ok).relay, p) == AfterEvent(cfg, StandingOf(r, p), e, Tries(cfg, r, e, p), p)
  {
    if cfg.needed {
      var q, cs := Expired(cfg, r, now), Candidates(cfg, cfg.bootstrap);
      ExpiredStanding(cfg, r, now, p);
      CandidatesAre(cfg, cfg.bootstrap);
      PassStanding(cfg, q, cs, Desired(cfg), now, ok, p);
      hide Expired, TopUpAll, Candidates, Desired;
    }
  }

  /** In every run the manager's knowledge of a peer is what the events and attempts that name it make
      of it: active since a confirmation, pending since an attempt, and resting by the number of
      failures in a row. */
  lemma {:induction false} PeersAreIndependent(cfg: Config, es: seq<Event>, p: Peer)
    requires AllSensible(es)
    ensures StandingOf(Exec(cfg, es), p) == History(cfg, es, p)
  {
    if es != [] {
      var n := |es| - 1;
      PeersAreIndependent(cfg, es[..n], p);
      var r := Exec(cfg, es[..n]);
      match es[n]
      case ListenerClosed(addresses, times) => ClosedStanding(cfg, r, addresses, times, p);
      case Ticked(now, ok) => TickStanding(cfg, r, now, ok, p);
      case _ =>
    }
  }

  // ---- which event decides ----

  // Event `k` confirmed the peer, and it has neither been closed nor reset since.
  ghost predicate Holds(cfg: Config, es: seq<Event>, k: int, p: Peer) {
    && 0 <= k < |es| && Confirms(cfg, es[k], p)
    && forall j :: k < j < |es| ==> !es[j].Reset? && !Closes(es[j], p)
  }

  // Event `k` started an attempt for the peer, which since has been neither confirmed, closed nor reset,
  // nor has a tick found it timed out.
  ghost predicate Awaits(cfg: Config, es: seq<Event>, k: int, p: Peer)
    requires AllSensible(es)
  {
    && 0 <= k < |es| && Tries(cfg, Exec(cfg, es[..k]), es[k], p) && p in es[k].ok
    && forall j :: k < j < |es| ==>
         && !es[j].Reset? && !Confirms(cfg, es[j], p) && !Closes(es[j], p)
         && !(es[j].Ticked? && cfg.needed && TimedOut(cfg, Standing(false, Some(es[k].now), 0, None), es[j].now))
  }

  lemma ClosesFirst(e: Event, p: Peer)
    requires e.ListenerClosed?
    ensures Closes(e, p) <==> FirstClosing(e.addresses, p) < |e.addresses|
  {
  }

  lemma ActiveStep(cfg: Config, es: seq<Event>, p: Peer)
    requires AllSensible(es) && es != []
    ensures var n := |es| - 1;
            p in Exec(cfg, es).active <==>
            || Confirms(cfg, es[n], p)
            || (p in Exec(cfg, es[..n]).active && !es[n].Reset? && !Closes(es[n], p))
  {
    var n := |es| - 1;
    PeersAreIndependent(cfg, es[..n], p);
    PeersAreIndependent(cfg, es, p);
    hide Tick, Exec, TimedOut, Failure;
    if es[n].ListenerClosed? {
      ClosesFirst(es[n], p);
    }
  }

  /** A peer is active exactly when a confirmation of it has come and no circuit address of it was closed
      after that, nor everything reset. */
  lemma {:induction false} ActiveIff(cfg: Config, es: seq<Event>, p: Peer)
    requires AllSensible(es)
    ensures p in Exec(cfg, es).active <==> exists k :: Holds(cfg, es, k, p)
  {
    if es != [] {
      hide Exec, Confirms, Closes;
      var n := |es| - 1;
      var init, e := es[..n], es[n];
      ActiveIff(cfg, init, p);
      ActiveStep(cfg, es, p);
      if Confirms(cfg, e, p) {
        assert Holds(cfg, es, n, p);
      }
      forall k | Holds(cfg, init, k, p) && !e.Reset? && !Closes(e, p) ensures Holds(cfg, es, k, p) {
      }
      forall k | Holds(cfg, es, k, p) && k < n ensures Holds(cfg, init, k, p) {
      }
    }
  }

  lemma TriedIsUntracked(cfg: Config, r: Relay, e: Event, p: Peer)
    requires Tries(cfg, r, e, p)
    ensures var s := StandingOf(r, p); cfg.needed && !s.active && (s.since.Some? ==> TimedOut(cfg, s, e.now))
  {
    if cfg.needed {
      var q, cs := Expired(cfg, r, e.now), Candidates(cfg, cfg.bootstrap);
      ExpiredStanding(cfg, r, e.now, p);
      CandidatesAre(cfg, cfg.bootstrap);
      PassStanding(cfg, q, cs, Desired(cfg), e.now, e.ok, p);
      hide Expired, TopUpAll, Candidates, Desired;
    }
  }

  lemma AwaitsPrefix(cfg: Config, es: seq<Event>, k: int, p: Peer)
    requires AllSensible(es) && es != [] && k < |es| - 1
    ensures var n := |es| - 1;
            Awaits(cfg, es, k, p) <==>
            && Awaits(cfg, es[..n], k, p) && !es[n].Reset? && !Confirms(cfg, es[n], p) && !Closes(es[n], p)
            && !(es[n].Ticked? && cfg.needed
                 && TimedOut(cfg, Standing(false, Some(es[k].now), 0, None), es[n].now))
  {
    var n := |es| - 1;
    if 0 <= k {
      assert es[..n][..k] == es[..k];
    }
    hide Tries, TimedOut, Confirms, Closes;
  }

  // One more event.
  lemma PendingStep(cfg: Config, es: seq<Event>, p: Peer)
    requires AllSensible(es) && es != []
    ensures var n := |es| - 1;
            var r, e := Exec(cfg, es[..n]), es[n]; var s := StandingOf(r, p);
            StandingOf(Exec(cfg, es), p).since
            == if Tries(cfg, r, e, p) && p in e.ok then Some(e.now)
               else if e.Reset? || Confirms(cfg, e, p) || Closes(e, p)
                   || (e.Ticked? && cfg.needed && TimedOut(cfg, s, e.now)) then None
               else s.since
  {
    var n := |es| - 1;
    var r, e := Exec(cfg, es[..n]), es[n];
    PeersAreIndependent(cfg, es[..n], p);
    PeersAreIndependent(cfg, es, p);
    hide Tick, Rest, Exec;
    if Tries(cfg, r, e, p) {
      TriedIsUntracked(cfg, r, e, p);
    }
    if e.ListenerClosed? {
      ClosesFirst(e, p);
    }
  }

  lemma AwaitsLast(cfg: Config, es: seq<Event>, p: Peer)
    requires AllSensible(es) && es != []
    ensures var n := |es| - 1; Awaits(cfg, es, n, p) <==> Tries(cfg, Exec(cfg, es[..n]), es[n], p) && p in es[n].ok
  {
    hide Tries, Exec;
  }

  lemma AwaitsBounds(cfg: Config, es: seq<Event>, k: int, p: Peer)
    requires AllSensible(es) && Awaits(cfg, es, k, p)
    ensures 0 <= k < |es| && es[k].Ticked?
  {
  }

  lemma {:induction false} AwaitedIsPending(cfg: Config, es: seq<Event>, k: int, p: Peer)
    requires AllSensible(es) && Awaits(cfg, es, k, p)
    ensures es[k].Ticked? && StandingOf(Exec(cfg, es), p).since == Some(es[k].now)
  {
    AwaitsBounds(cfg, es, k, p);
    hide Awaits, Tries, Confirms, Closes, Exec, StandingOf;
    var n := |es| - 1;
    PendingStep(cfg, es, p);
    if k == n {
      AwaitsLast(cfg, es, p);
    } else {
      AwaitsPrefix(cfg, es, k, p);
      AwaitedIsPending(cfg, es[..n], k, p);
      if Tries(cfg, Exec(cfg, es[..n]), es[n], p) {
        TriedIsUntracked(cfg, Exec(cfg, es[..n]), es[n], p);
      }
    }
  }

  lemma {:induction false} PendingIsAwaited(cfg: Config, es: seq<Event>, p: Peer) returns (k: int)
    requires AllSensible(es) && StandingOf(Exec(cfg, es), p).since.Some?
    ensures Awaits(cfg, es, k, p)
  {
    assert es != [];
    hide Awaits, Tries, Confirms, Closes, Exec, StandingOf;
    var n := |es| - 1;
    PendingStep(cfg, es, p);
    if Tries(cfg, Exec(cfg, es[..n]), es[n], p) && p in es[n].ok {
      AwaitsLast(cfg, es, p);
      k := n;
    } else {
      k := PendingIsAwaited(cfg, es[..n], p);
      AwaitsBounds(cfg, es[..n], k, p);
      AwaitedIsPending(cfg, es[..n], k, p);
      AwaitsPrefix(cfg, es, k, p);
    }
  }

  /** A peer is pending, since the time of event `k`, exactly when that event started an attempt for it
      and nothing since has confirmed, closed, timed out or reset it. */
  lemma PendingIff(cfg: Config, es: seq<Event>, p: Peer)
    requires AllSensible(es)
    ensures p in Exec(cfg, es).pending <==> exists k :: Awaits(cfg, es, k, p)
    ensures forall k :: Awaits(cfg, es, k, p) ==> es[k].Ticked? && Exec(cfg, es).pending[p] == es[k].now
  {
    forall k | Awaits(cfg, es, k, p) ensures p in Exec(cfg, es).pending && Exec(cfg, es).pending[p] == es[k].now {
      AwaitedIsPending(cfg, es, k, p);
    }
    if p in Exec(cfg, es).pending {
      var k := PendingIsAwaited(cfg, es, p);
    }
  }

  // ---- the order of attempts ----

  // An address of `p` comes before every one of `q`.
  ghost predicate Before(addresses: seq<Address>, p: Peer, q: Peer) {
    exists a :: 0 <= a < |addresses| && addresses[a].peer == Some(p) &&
      forall b :: 0 <= b <= a ==> addresses[b].peer != Some(q)
  }

  /** The candidates are in the order in which the configuration first names them. */
  lemma {:induction false} CandidatesInOrder(cfg: Config, addresses: seq<Address>, i: nat, j: nat)
    requires i < j < |Candidates(cfg, addresses)|
    ensures Before(addresses, Candidates(cfg, addresses)[i], Candidates(cfg, addresses)[j])
  {
    var n := |addresses| - 1;
    var init := addresses[..n];
    var cs, all := Candidates(cfg, init), Candidates(cfg, addresses);
    CandidatesAre(cfg, init);
    assert all[i] in cs && Listed(init, all[i]);
    if j < |cs| {
      CandidatesInOrder(cfg, init, i, j);
      var a :| 0 <= a < |init| && init[a].peer == Some(all[i]) &&
               forall b :: 0 <= b <= a ==> init[b].peer != Some(all[j]);
      assert addresses[a].peer == Some(all[i]);
    } else {
      var a :| 0 <= a < |init| && init[a].peer == Some(all[i]);
      assert all[j] !in cs && !Listed(init, all[j]);
      assert addresses[a].peer == Some(all[i]);
    }
  }

  // The candidates that may be tried, in order.
  function Eligibles(r: Relay, candidates: seq<Peer>, now: Time): seq<Peer> {
    if candidates == [] then [] else
      var n := |candidates| - 1;
      Eligibles(r, candidates[..n], now) + if MayTry(r, candidates[n], now) then [candidates[n]] else []
  }

  lemma {:induction false} PassInOrder(cfg: Config, r: Relay, candidates: seq<Peer>, desired: nat, now: Time,
      ok: set<Peer>)
    requires Inv(r) && Distinct(candidates)
    ensures var s := TopUpAll(cfg, r, candidates, desired, now, ok);
            && s.attempts <= Eligibles(r, candidates, now)
            && (Load(s.relay) < desired ==> s.attempts == Eligibles(r, candidates, now))
  {
    if candidates != [] {
      var n := |candidates| - 1;
      var init, p := candidates[..n], candidates[n];
      PassInOrder(cfg, r, init, desired, now, ok);
      TopUpAllOk(cfg, r, init, desired, now, ok);
      var s := TopUpAll(cfg, r, init, desired, now, ok);
      assert p !in init;
      assert Eligible(s.relay, p, now) <==> Eligible(r, p, now);
      if Load(s.relay) < desired && Eligible(s.relay, p, now) {
        AttemptOk(cfg, s.relay, p, now, p in ok);
      }
      assert Eligible(r, p, now) <==> MayTry(r, p, now);
      hide Eligible, MayTry, Load, Inv, Attempt, PassOk;
    }
  }

  /** A tick tries the eligible bootstrap peers in configured order, from the first on, and all of them
      if active plus pending stays below three and below the number of candidates. */
  lemma TicksTryInOrder(cfg: Config, r: Relay, now: Time, ok: set<Peer>)
    requires Inv(r) && cfg.needed
    ensures var s := Tick(cfg, r, now, ok); var cs := Candidates(cfg, cfg.bootstrap);
            var all := Eligibles(Expired(cfg, r, now), cs, now);
            && s.attempts <= all
            && (Load(s.relay) < 3 && Load(s.relay) < |cs| ==> s.attempts == all)
  {
    ExpiredKeeps(cfg, r, now);
    CandidatesAre(cfg, cfg.bootstrap);
    hide Expired, TopUpAll, Eligible, Inv, Load, Candidates;
    PassInOrder(cfg, Expired(cfg, r, now), Candidates(cfg, cfg.bootstrap), Desired(cfg), now, ok);
  }
}
