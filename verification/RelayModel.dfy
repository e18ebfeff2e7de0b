/** Relay reservations (`src/controller/relay_manager.rs`) on values: what each
    event does to the tracked relays, and what every run keeps. */
module RelayModel {
  import opened Options

  type Peer = nat
  type Time = nat

  const RELAY_TARGET: nat := 3

  // A multiaddr, by the two things the manager reads off it.
  datatype Address = Address(peer: Option<Peer>, circuit: bool)

  datatype Config = Config(self: Peer, needed: bool, bootstrap: seq<Address>, retryInterval: nat, maxFailures: nat)

  datatype Relay = Relay(active: set<Peer>, pending: map<Peer, Time>,
                         failures: map<Peer, nat>, backoff: map<Peer, Time>)

  const NONE: Relay := Relay({}, map[], map[], map[])

  function Min(a: nat, b: nat): nat {
    if a < b then a else b
  }

  function Shifted(n: nat): nat {
    if n == 0 then 30 else 2 * Shifted(n - 1)
  }

  // Seconds to wait after so many consecutive failures.
  function BackoffSecs(count: nat): nat {
    Min(Shifted(Min(if count == 0 then 0 else count - 1, 5)), 600)
  }

  function Delay(cfg: Config, count: nat): nat {
    if cfg.maxFailures > 0 && count >= cfg.maxFailures then 3600 else BackoffSecs(count)
  }

  function Count(r: Relay, p: Peer): nat {
    if p in r.failures then r.failures[p] else 0
  }

  function Failed(cfg: Config, r: Relay, p: Peer, now: Time): Relay {
    r.(failures := r.failures[p := Count(r, p) + 1], backoff := r.backoff[p := now + Delay(cfg, Count(r, p) + 1)])
  }

  // A reservation is confirmed, by either of the two events.
  function Confirmed(r: Relay, p: Peer): Relay {
    Relay(r.active + {p}, r.pending - {p}, r.failures - {p}, r.backoff - {p})
  }

  function CircuitReady(cfg: Config, r: Relay, a: Address): Relay {
    if a.peer.None? || a.peer.value == cfg.self then r else Confirmed(r, a.peer.value)
  }

  function Tracked(r: Relay, p: Peer): bool {
    p in r.active || p in r.pending
  }

  function Closed(cfg: Config, r: Relay, a: Address, now: Time): Relay {
    if !a.circuit || a.peer.None? || !Tracked(r, a.peer.value) then r
    else Failed(cfg, r.(active := r.active - {a.peer.value}, pending := r.pending - {a.peer.value}), a.peer.value, now)
  }

  // `times` holds the clock as it is read for each address.
  function ClosedAll(cfg: Config, r: Relay, addresses: seq<Address>, times: seq<Time>): Relay
    requires |times| == |addresses|
  {
    if addresses == [] then r else
      var n := |addresses| - 1;
      Closed(cfg, ClosedAll(cfg, r, addresses[..n], times[..n]), addresses[n], times[n])
  }

  // Address `i` names a relay that is active or pending when the addresses before it have been dealt with.
  predicate LosesAt(cfg: Config, r: Relay, addresses: seq<Address>, times: seq<Time>, i: nat)
    requires |times| == |addresses| && i < |addresses|
  {
    && addresses[i].circuit && addresses[i].peer.Some?
    && Tracked(ClosedAll(cfg, r, addresses[..i], times[..i]), addresses[i].peer.value)
  }

  function Timeout(cfg: Config): nat {
    if cfg.retryInterval * 3 < 180 then 180 else cfg.retryInterval * 3
  }

  predicate IsExpired(cfg: Config, r: Relay, p: Peer, now: Time) {
    p in r.pending && now >= r.pending[p] + Timeout(cfg)
  }

  // Reservations unconfirmed for too long, all at once: each counts one more failure.
  function Expired(cfg: Config, r: Relay, now: Time): Relay {
    var gone := set p | p in r.pending && IsExpired(cfg, r, p, now);
    Relay(r.active, r.pending - gone,
          map p | p in r.failures.Keys + gone :: if p in gone then Count(r, p) + 1 else r.failures[p],
          map p | p in r.backoff.Keys + gone :: if p in gone then now + Delay(cfg, Count(r, p) + 1) else r.backoff[p])
  }

  // Bootstrap peers other than this node, each once, in configured order.
  function Candidates(cfg: Config, addresses: seq<Address>): seq<Peer> {
    if addresses == [] then [] else
      var n := |addresses| - 1;
      var cs := Candidates(cfg, addresses[..n]);
      match addresses[n].peer
      case None => cs
      case Some(p) => if p == cfg.self || p in cs then cs else cs + [p]
  }

  function Load(r: Relay): nat {
    |r.active| + |r.pending|
  }

  predicate Resting(r: Relay, p: Peer, now: Time) {
    p in r.backoff && r.backoff[p] > now
  }

  predicate Eligible(r: Relay, p: Peer, now: Time) {
    !Tracked(r, p) && !Resting(r, p, now)
  }

  // A pass over the candidates: the state and the attempts made. `ok` says which attempts start.
  datatype Pass = Pass(relay: Relay, attempts: seq<Peer>)

  function Attempt(cfg: Config, r: Relay, p: Peer, now: Time, ok: bool): Relay {
    if ok then r.(pending := r.pending[p := now]) else Failed(cfg, r, p, now)
  }

  function TopUp(cfg: Config, s: Pass, p: Peer, desired: nat, now: Time, ok: set<Peer>): Pass {
    if Load(s.relay) >= desired || !Eligible(s.relay, p, now) then s
    else Pass(Attempt(cfg, s.relay, p, now, p in ok), s.attempts + [p])
  }

  function TopUpAll(cfg: Config, r: Relay, candidates: seq<Peer>, desired: nat, now: Time, ok: set<Peer>): Pass {
    if candidates == [] then Pass(r, []) else
      var n := |candidates| - 1;
      TopUp(cfg, TopUpAll(cfg, r, candidates[..n], desired, now, ok), candidates[n], desired, now, ok)
  }

  function Desired(cfg: Config): nat {
    Min(RELAY_TARGET, |Candidates(cfg, cfg.bootstrap)|)
  }

  function Tick(cfg: Config, r: Relay, now: Time, ok: set<Peer>): Pass {
    if !cfg.needed then Pass(r, [])
    else TopUpAll(cfg, Expired(cfg, r, now), Candidates(cfg, cfg.bootstrap), Desired(cfg), now, ok)
  }

  // ---- what is kept ----

  ghost predicate Inv(r: Relay) {
    && r.active !! r.pending.Keys
    && r.failures.Keys == r.backoff.Keys && r.failures.Keys !! r.active
    && forall p :: p in r.failures ==> r.failures[p] >= 1
  }

  lemma FailedKeeps(cfg: Config, r: Relay, p: Peer, now: Time)
    requires Inv(r) && p !in r.active
    ensures Inv(Failed(cfg, r, p, now))
  {
  }

  lemma {:induction false} ClosedAllKeeps(cfg: Config, r: Relay, addresses: seq<Address>, times: seq<Time>)
    requires Inv(r) && |times| == |addresses|
    ensures Inv(ClosedAll(cfg, r, addresses, times))
  {
    if addresses != [] {
      var n := |addresses| - 1;
      ClosedAllKeeps(cfg, r, addresses[..n], times[..n]);
    }
  }

  predicate Listed(addresses: seq<Address>, p: Peer) {
    exists i :: 0 <= i < |addresses| && addresses[i].peer == Some(p)
  }

  ghost predicate Distinct(s: seq<Peer>) {
    forall i, j :: 0 <= i < j < |s| ==> s[i] != s[j]
  }

  lemma {:induction false} CandidatesAre(cfg: Config, addresses: seq<Address>)
    ensures Distinct(Candidates(cfg, addresses))
    ensures forall p :: p in Candidates(cfg, addresses) <==> p != cfg.self && Listed(addresses, p)
  {
    if addresses != [] {
      var n := |addresses| - 1;
      CandidatesAre(cfg, addresses[..n]);
      var cs := Candidates(cfg, addresses[..n]);
      forall p ensures p in Candidates(cfg, addresses) <==> p != cfg.self && Listed(addresses, p) {
        assert p in cs <==> p != cfg.self && Listed(addresses[..n], p);
        ListedLast(addresses, p);
      }
    }
  }

  lemma ListedLast(addresses: seq<Address>, p: Peer)
    requires addresses != []
    ensures var n := |addresses| - 1;
            Listed(addresses, p) <==> Listed(addresses[..n], p) || addresses[n].peer == Some(p)
  {
    var n := |addresses| - 1;
    if i :| 0 <= i < |addresses| && addresses[i].peer == Some(p) && i < n {
      assert addresses[..n][i].peer == Some(p);
    }
    if i :| 0 <= i < |addresses[..n]| && addresses[..n][i].peer == Some(p) {
      assert addresses[i].peer == Some(p);
    }
  }

  /** What a top-up pass does, for distinct candidates: it attempts only candidates that were neither
      active, pending nor resting when it began, never brings the load above `desired`, and stops short
      of it only when every candidate is active, pending or resting. */
  ghost predicate PassOk(r: Relay, s: Pass, candidates: seq<Peer>, desired: nat, now: Time) {
    && Inv(s.relay) && s.relay.active == r.active
    && (forall i :: 0 <= i < |s.attempts| ==> s.attempts[i] in candidates && Eligible(r, s.attempts[i], now))
    && (forall i, j :: 0 <= i < j < |s.attempts| ==> s.attempts[i] != s.attempts[j])
    && Load(r) <= Load(s.relay) && (Load(s.relay) <= desired || s == Pass(r, []))
    && (Load(s.relay) >= desired || forall p :: p in candidates ==> !Eligible(s.relay, p, now))
    && (forall p :: p !in candidates ==> (Eligible(s.relay, p, now) <==> Eligible(r, p, now)))
  }

  lemma DelayIsPositive(cfg: Config, count: nat)
    ensures Delay(cfg, count) >= 30
  {
    ShiftedMonotone(0, Min(if count == 0 then 0 else count - 1, 5));
  }

  lemma {:induction false} ShiftedMonotone(a: nat, b: nat)
    requires a <= b
    ensures Shifted(a) <= Shifted(b)
  {
    if a < b {
      ShiftedMonotone(a, b - 1);
    }
  }

  /** The wait never shrinks as failures accumulate. */
  lemma DelayIsMonotone(cfg: Config, a: nat, b: nat)
    requires a <= b
    ensures Delay(cfg, a) <= Delay(cfg, b)
  {
    ShiftedMonotone(Min(if a == 0 then 0 else a - 1, 5), Min(if b == 0 then 0 else b - 1, 5));
  }

  lemma AttemptOk(cfg: Config, r: Relay, p: Peer, now: Time, ok: bool)
    requires Inv(r) && Eligible(r, p, now)
    ensures var q := Attempt(cfg, r, p, now, ok);
            && Inv(q) && q.active == r.active && !Eligible(q, p, now)
            && Load(q) == Load(r) + (if ok then 1 else 0)
            && forall x :: x != p ==> (Eligible(q, x, now) <==> Eligible(r, x, now))
  {
    var q := Attempt(cfg, r, p, now, ok);
    if ok {
      assert |q.pending| == |r.pending| + 1;
    } else {
      DelayIsPositive(cfg, Count(r, p) + 1);
      FailedKeeps(cfg, r, p, now);
      assert Resting(q, p, now) && q.pending == r.pending;
    }
    assert Load(q) == Load(r) + (if ok then 1 else 0);
    hide Delay, Count, Load;
    assert forall x :: x != p ==> (Tracked(q, x) <==> Tracked(r, x)) && (Resting(q, x, now) <==> Resting(r, x, now));
  }

  lemma TopUpOk(cfg: Config, r: Relay, s: Pass, init: seq<Peer>, p: Peer, desired: nat, now: Time, ok: set<Peer>)
    requires PassOk(r, s, init, desired, now) && p !in init
    ensures PassOk(r, TopUp(cfg, s, p, desired, now, ok), init + [p], desired, now)
  {
    var q := TopUp(cfg, s, p, desired, now, ok);
    if Load(s.relay) < desired && Eligible(s.relay, p, now) {
      AttemptOk(cfg, s.relay, p, now, p in ok);
      hide Eligible, Attempt, Load, Inv;
      forall i | 0 <= i < |q.attempts| ensures q.attempts[i] in init + [p] && Eligible(r, q.attempts[i], now) {
        if i < |s.attempts| {
          assert q.attempts[i] == s.attempts[i];
        }
      }
    } else {
      hide Eligible, Load, Inv;
    }
  }

  lemma {:induction false} TopUpAllOk(cfg: Config, r: Relay, candidates: seq<Peer>, desired: nat, now: Time,
      ok: set<Peer>)
    requires Inv(r) && Distinct(candidates)
    ensures PassOk(r, TopUpAll(cfg, r, candidates, desired, now, ok), candidates, desired, now)
  {
    if candidates != [] {
      var n := |candidates| - 1;
      var init, p := candidates[..n], candidates[n];
      TopUpAllOk(cfg, r, init, desired, now, ok);
      hide Inv, PassOk, TopUp;
      assert p !in init;
      TopUpOk(cfg, r, TopUpAll(cfg, r, init, desired, now, ok), init, p, desired, now, ok);
      assert init + [p] == candidates;
    }
  }

  lemma {:induction false} FewerKeys<K, V>(m: map<K, V>, n: map<K, V>)
    requires m.Keys <= n.Keys
    ensures |m| <= |n|
    decreases |m|
  {
    if m != map[] {
      var k :| k in m;
      assert (m - {k}).Keys == m.Keys - {k} && (n - {k}).Keys == n.Keys - {k};
      FewerKeys(m - {k}, n - {k});
    }
  }

  // An expired peer starts a back-off, so expiry makes no one eligible.
  lemma ExpiredRests(cfg: Config, r: Relay, now: Time, p: Peer)
    ensures Eligible(Expired(cfg, r, now), p, now) ==> Eligible(r, p, now)
  {
    DelayIsPositive(cfg, Count(r, p) + 1);
    hide Delay;
  }

  lemma ExpiredInv(cfg: Config, r: Relay, now: Time)
    requires Inv(r)
    ensures Inv(Expired(cfg, r, now))
  {
    hide Delay, Timeout;
    var q := Expired(cfg, r, now);
    assert q.failures.Keys == q.backoff.Keys;
  }

  lemma ExpiredKeeps(cfg: Config, r: Relay, now: Time)
    requires Inv(r)
    ensures var q := Expired(cfg, r, now);
            && Inv(q) && q.active == r.active && Load(q) <= Load(r)
            && forall p :: Eligible(q, p, now) ==> Eligible(r, p, now)
  {
    var q := Expired(cfg, r, now);
    assert q.pending.Keys <= r.pending.Keys && q.active == r.active;
    FewerKeys(q.pending, r.pending);
    ExpiredInv(cfg, r, now);
    hide Eligible, Inv, Expired;
    forall p ensures Eligible(q, p, now) ==> Eligible(r, p, now) {
      ExpiredRests(cfg, r, now, p);
    }
  }

  // Neither active nor pending, and not in back-off, which ends at its deadline.
  predicate MayTry(r: Relay, p: Peer, now: Time) {
    p !in r.active && p !in r.pending && (p in r.backoff ==> r.backoff[p] <= now)
  }

  /** Every attempt of a tick is for a distinct bootstrap peer that is not this node and was not
      active, pending or in back-off. The tick brings active plus pending to no more than three, the
      number of candidates, or what it was; it falls short of three and of the candidates only when
      every candidate is active, pending or in back-off. */
  lemma TickTopsUp(cfg: Config, r: Relay, now: Time, ok: set<Peer>)
    requires Inv(r)
    ensures var s, cs := Tick(cfg, r, now, ok), Candidates(cfg, cfg.bootstrap);
            && Inv(s.relay)
            && (forall i :: 0 <= i < |s.attempts| ==>
                  s.attempts[i] in cs && s.attempts[i] != cfg.self && MayTry(r, s.attempts[i], now))
            && (forall i, j :: 0 <= i < j < |s.attempts| ==> s.attempts[i] != s.attempts[j])
            && (Load(s.relay) <= Load(r) || Load(s.relay) <= Min(3, |cs|))
            && (cfg.needed ==>
                  Load(s.relay) >= Min(3, |cs|) || forall p :: p in cs ==> !MayTry(s.relay, p, now))
  {
    assert forall q, p :: MayTry(q, p, now) <==> Eligible(q, p, now);
    if cfg.needed {
      var e, cs := Expired(cfg, r, now), Candidates(cfg, cfg.bootstrap);
      ExpiredKeeps(cfg, r, now);
      CandidatesAre(cfg, cfg.bootstrap);
      TopUpAllOk(cfg, e, cs, Desired(cfg), now, ok);
      hide Expired, TopUpAll, Eligible, Inv, Load, Candidates, MayTry;
    }
  }

  // ---- runs ----

  datatype Event =
    | Circuit(address: Address)
    | Accepted(peer: Peer)
    | ListenerClosed(addresses: seq<Address>, times: seq<Time>)
    | Ticked(now: Time, ok: set<Peer>)
    | Reset

  predicate Sensible(e: Event) {
    e.ListenerClosed? ==> |e.addresses| == |e.times|
  }

  function Next(cfg: Config, r: Relay, e: Event): Relay
    requires Sensible(e)
  {
    match e
    case Circuit(a) => CircuitReady(cfg, r, a)
    case Accepted(p) => Confirmed(r, p)
    case ListenerClosed(addresses, times) => ClosedAll(cfg, r, addresses, times)
    case Ticked(now, ok) => Tick(cfg, r, now, ok).relay
    case Reset => NONE
  }

  function Exec(cfg: Config, es: seq<Event>): Relay
    requires forall i :: 0 <= i < |es| ==> Sensible(es[i])
  {
    if es == [] then NONE else Next(cfg, Exec(cfg, es[..|es| - 1]), es[|es| - 1])
  }

  /** Over every run: active and pending are disjoint, failure counts and deadlines have the same
      keys, and no active relay has any. */
  lemma {:induction false} RelaysStayConsistent(cfg: Config, es: seq<Event>)
    requires forall i :: 0 <= i < |es| ==> Sensible(es[i])
    ensures Inv(Exec(cfg, es))
  {
    if es != [] {
      var n := |es| - 1;
      RelaysStayConsistent(cfg, es[..n]);
      var r := Exec(cfg, es[..n]);
      match es[n]
      case ListenerClosed(addresses, times) => ClosedAllKeeps(cfg, r, addresses, times);
      case Ticked(now, ok) => TickTopsUp(cfg, r, now, ok);
      case _ =>
    }
  }

  // The events that clear a peer's failure record.
  predicate Clears(cfg: Config, e: Event, p: Peer) {
    e.Reset? || e == Accepted(p) || (e.Circuit? && e.address.peer == Some(p) && p != cfg.self)
  }

  /** A failure record is only dropped by a confirmed reservation or a reset; otherwise the count
      never falls, and a peer that fails again waits at least as long as before. */
  lemma FailuresAccumulate(cfg: Config, r: Relay, e: Event, p: Peer)
    requires Inv(r) && Sensible(e) && p in r.failures && !Clears(cfg, e, p)
    ensures var q := Next(cfg, r, e);
            p in q.failures && r.failures[p] <= q.failures[p] && Delay(cfg, r.failures[p]) <= Delay(cfg, q.failures[p])
  {
    match e {
      case ListenerClosed(addresses, times) => ClosedAccumulate(cfg, r, addresses, times, p);
      case Ticked(now, ok) =>
        if cfg.needed {
          TopUpAccumulates(cfg, Expired(cfg, r, now), Candidates(cfg, cfg.bootstrap), Desired(cfg), now, ok, p);
        }
      case _ =>
    }
    DelayIsMonotone(cfg, r.failures[p], Next(cfg, r, e).failures[p]);
  }

  lemma {:induction false} ClosedAccumulate(cfg: Config, r: Relay, addresses: seq<Address>, times: seq<Time>, p: Peer)
    requires |times| == |addresses| && p in r.failures
    ensures var q := ClosedAll(cfg, r, addresses, times); p in q.failures && r.failures[p] <= q.failures[p]
  {
    if addresses != [] {
      var n := |addresses| - 1;
      ClosedAccumulate(cfg, r, addresses[..n], times[..n], p);
    }
  }

  lemma {:induction false} TopUpAccumulates(cfg: Config, r: Relay, candidates: seq<Peer>, desired: nat, now: Time,
      ok: set<Peer>, p: Peer)
    requires p in r.failures
    ensures var q := TopUpAll(cfg, r, candidates, desired, now, ok).relay;
            p in q.failures && r.failures[p] <= q.failures[p]
  {
    if candidates != [] {
      TopUpAccumulates(cfg, r, candidates[..|candidates| - 1], desired, now, ok, p);
    }
  }
}
