/** The relay manager object: its methods update the four tables in place and do
    what `RelayModel` says. */
module RelayManager {
  import opened Options
  import opened RelayModel

  class Manager {
    const cfg: Config
    var active: set<Peer>
    var pending: map<Peer, Time>
    var failures: map<Peer, nat>
    var backoff: map<Peer, Time>

    ghost function View(): Relay
      reads this
    {
      Relay(active, pending, failures, backoff)
    }

    constructor (cfg: Config)
      ensures this.cfg == cfg && View() == NONE
    {
      this.cfg := cfg;
      active, pending, failures, backoff := {}, map[], map[], map[];
    }

    method Clear()
      modifies this
      ensures View() == NONE
    {
      active, pending, failures, backoff := {}, map[], map[], map[];
    }

    method OnCircuitReady(a: Address) returns (newly: bool)
      modifies this
      ensures View() == CircuitReady(cfg, old(View()), a)
      ensures newly <==> a.peer.Some? && a.peer.value != cfg.self && a.peer.value !in old(active)
      ensures a.peer.Some? && a.peer.value != cfg.self ==> active == old(active) + {a.peer.value}
    {
      if a.peer.None? || a.peer.value == cfg.self {
        return false;
      }
      var p := a.peer.value;
      newly := p !in active;
      OnReservationAccepted(p);
    }

    method OnReservationAccepted(p: Peer)
      modifies this
      ensures View() == Confirmed(old(View()), p)
      ensures active == old(active) + {p} && p !in pending && p !in failures && p !in backoff
    {
      pending := pending - {p};
      active := active + {p};
      failures := failures - {p};
      backoff := backoff - {p};
    }

    method RecordFailure(p: Peer, now: Time)
      modifies this`failures, this`backoff
      ensures View() == Failed(cfg, old(View()), p, now)
    {
      var count := if p in failures then failures[p] + 1 else 1;
      failures := failures[p := count];
      var delay := if cfg.maxFailures > 0 && count >= cfg.maxFailures then 3600 else BackoffSecs(count);
      backoff := backoff[p := now + delay];
    }

    // Returns whether a tracked relay was lost.
    method OnListenerClosed(addresses: seq<Address>, times: seq<Time>) returns (lost: bool)
      requires |times| == |addresses|
      modifies this
      ensures View() == ClosedAll(cfg, old(View()), addresses, times)
      ensures lost <==> exists k :: 0 <= k < |addresses| && LosesAt(cfg, old(View()), addresses, times, k)
      ensures !lost ==> View() == old(View())
    {
      lost := false;
      for i := 0 to |addresses|
        invariant View() == ClosedAll(cfg, old(View()), addresses[..i], times[..i])
        invariant lost <==> exists k :: 0 <= k < i && LosesAt(cfg, old(View()), addresses, times, k)
        invariant !lost ==> View() == old(View())
      {
        assert LosesAt(cfg, old(View()), addresses, times, i) <==>
               addresses[i].circuit && addresses[i].peer.Some? && Tracked(View(), addresses[i].peer.value);
        assert addresses[..i + 1][..i] == addresses[..i] && times[..i + 1][..i] == times[..i];
        var a := addresses[i];
        if a.circuit && a.peer.Some? {
          var p := a.peer.value;
          if p in active || p in pending {
            active, pending := active - {p}, pending - {p};
            lost := true;
            RecordFailure(p, times[i]);
          }
        }
      }
      assert addresses[..|addresses|] == addresses && times[..|times|] == times;
    }

    // The expired reservations are collected first, then removed one by one.
    method ExpirePending(now: Time)
      modifies this`pending, this`failures, this`backoff
      ensures View() == Expired(cfg, old(View()), now)
    {
      hide Partly, Expired, Failed;
      ghost var r := View();
      var timeout := if cfg.retryInterval * 3 < 180 then 180 else cfg.retryInterval * 3;
      var gone := set p | p in pending && now >= pending[p] + timeout;
      assert forall p :: p in gone <==> IsExpired(cfg, r, p, now);
      hide IsExpired;
      ghost var done: set<Peer> := {};
      var rest := gone;
      PartlyStart(cfg, r, now);
      while rest != {}
        invariant gone == done + rest && done !! rest
        invariant Partly(cfg, r, View(), done, now)
        decreases |rest|
      {
        var p :| p in rest;
        PartlyStep(cfg, r, View(), done, p, now);
        pending := pending - {p};
        RecordFailure(p, now);
        rest, done := rest - {p}, done + {p};
      }
      PartlyDone(cfg, r, View(), gone, now);
    }

    method CollectCandidates() returns (candidates: seq<Peer>)
      ensures candidates == Candidates(cfg, cfg.bootstrap)
    {
      candidates := [];
      var seen: set<Peer> := {};
      for i := 0 to |cfg.bootstrap|
        invariant candidates == Candidates(cfg, cfg.bootstrap[..i])
        invariant forall p :: p in seen <==> p in candidates
      {
        assert cfg.bootstrap[..i + 1][..i] == cfg.bootstrap[..i];
        var peer := cfg.bootstrap[i].peer;
        if peer.Some? && peer.value != cfg.self && peer.value !in seen {
          seen, candidates := seen + {peer.value}, candidates + [peer.value];
        }
      }
      assert cfg.bootstrap[..|cfg.bootstrap|] == cfg.bootstrap;
    }

    // `ok` says which listen requests the swarm accepts.
    method DoTick(now: Time, ok: set<Peer>) returns (attempts: seq<Peer>)
      modifies this
      ensures Pass(View(), attempts) == Tick(cfg, old(View()), now, ok)
    {
      attempts := [];
      if !cfg.needed {
        return;
      }
      ExpirePending(now);
      var candidates := CollectCandidates();
      var desired := Min(RELAY_TARGET, |candidates|);
      ghost var start := View();
      hide TopUpAll, Expired, Candidates, Eligible, Attempt;
      EmptyPass(cfg, start, desired, now, ok);
      for i := 0 to |candidates|
        invariant Pass(View(), attempts) == TopUpAll(cfg, start, candidates[..i], desired, now, ok)
      {
        NextCandidate(cfg, start, candidates, desired, now, ok, i);
        if |active| + |pending| >= desired {
          Saturated(cfg, start, candidates, desired, now, ok, i);
          return;
        }
        var tried := TryCandidate(candidates[i], now, ok);
        if tried {
          attempts := attempts + [candidates[i]];
        }
      }
      assert candidates[..|candidates|] == candidates;
    }

    method TryCandidate(p: Peer, now: Time, ok: set<Peer>) returns (tried: bool)
      modifies this`pending, this`failures, this`backoff
      ensures tried == Eligible(old(View()), p, now)
      ensures View() == if tried then Attempt(cfg, old(View()), p, now, p in ok) else old(View())
    {
      tried := p !in active && p !in pending && !(p in backoff && backoff[p] > now);
      if tried {
        if p in ok {
          pending := pending[p := now];
        } else {
          RecordFailure(p, now);
        }
      }
    }
  }

  // The expired peers in `done` have been dealt with, and no others.
  ghost predicate Partly(cfg: Config, r: Relay, q: Relay, done: set<Peer>, now: Time) {
    && q.active == r.active && q.pending == r.pending - done
    && q.failures.Keys == r.failures.Keys + done && q.backoff.Keys == r.backoff.Keys + done
    && (forall p :: p in q.failures ==> q.failures[p] == if p in done then Count(r, p) + 1 else r.failures[p])
    && (forall p :: p in q.backoff ==> q.backoff[p] == if p in done then now + Delay(cfg, Count(r, p) + 1)
         else r.backoff[p])
  }

  lemma PartlyStart(cfg: Config, r: Relay, now: Time)
    ensures Partly(cfg, r, r, {}, now)
  {
  }

  lemma PartlyStep(cfg: Config, r: Relay, q: Relay, done: set<Peer>, p: Peer, now: Time)
    requires Partly(cfg, r, q, done, now) && p !in done
    ensures Partly(cfg, r, Failed(cfg, q.(pending := q.pending - {p}), p, now), done + {p}, now)
  {
    hide Delay;
    assert Count(q, p) == Count(r, p);
  }

  lemma PartlyDone(cfg: Config, r: Relay, q: Relay, gone: set<Peer>, now: Time)
    requires Partly(cfg, r, q, gone, now) && forall p :: p in gone <==> IsExpired(cfg, r, p, now)
    ensures q == Expired(cfg, r, now)
  {
    hide Delay;
    var e := Expired(cfg, r, now);
    assert gone == set p | p in r.pending && IsExpired(cfg, r, p, now);
    assert q.failures == e.failures;
    assert q.backoff == e.backoff;
  }

  lemma EmptyPass(cfg: Config, r: Relay, desired: nat, now: Time, ok: set<Peer>)
    ensures TopUpAll(cfg, r, [], desired, now, ok) == Pass(r, [])
  {
  }

  lemma NextCandidate(cfg: Config, r: Relay, candidates: seq<Peer>, desired: nat, now: Time, ok: set<Peer>, i: nat)
    requires i < |candidates|
    ensures TopUpAll(cfg, r, candidates[..i + 1], desired, now, ok) ==
            TopUp(cfg, TopUpAll(cfg, r, candidates[..i], desired, now, ok), candidates[i], desired, now, ok)
  {
    assert candidates[..i + 1][..i] == candidates[..i];
  }

  // Once the load is reached the remaining candidates change nothing.
  lemma {:induction false} Saturated(cfg: Config, r: Relay, candidates: seq<Peer>, desired: nat, now: Time,
      ok: set<Peer>, i: nat)
    requires i <= |candidates| && Load(TopUpAll(cfg, r, candidates[..i], desired, now, ok).relay) >= desired
    ensures TopUpAll(cfg, r, candidates, desired, now, ok) == TopUpAll(cfg, r, candidates[..i], desired, now, ok)
    decreases |candidates| - i
  {
    if i == |candidates| {
      assert candidates[..i] == candidates;
    } else {
      assert candidates[..i + 1][..i] == candidates[..i];
      Saturated(cfg, r, candidates, desired, now, ok, i + 1);
    }
  }
}
