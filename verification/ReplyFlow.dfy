/** Reply tokens. Each inbound request has one oneshot sender, which is moved
    from place to place and finally used or dropped; the waiter task sees which.
    A token is nowhere copied: the invariant `Linear` says that the tokens lying
    in all places are exactly the unresolved requests, once each. */
module ReplyFlow {
  import opened Names
  import opened Options

  type Id = nat
  type Wire = nat

  datatype Response = Response(success: bool, data: string)
  datatype Outcome = Ok(response: Response) | Err(message: string)
  datatype Token = Token(id: Id, service: Name, payload: string, wire: Option<Wire>)

  // Everywhere a reply token can be between the swarm actor and a backend.
  datatype Place =
    | Events
    | Refused
    | AuthQueue(worker: nat)
    | Judging(worker: nat)
    | Forwarding(worker: nat)
    | Denied(worker: nat)
    | DispatchQueue
    | BackendQueue(service: Name)
    | Table(service: Name)

  // The receiving half of the oneshot channel.
  datatype Slot = Waiting(at: Place) | Sent(outcome: Outcome) | Dropped

  datatype Flow = Flow(at: map<Place, seq<Token>>, slots: map<Id, Slot>)

  function At(f: Flow, p: Place): seq<Token> {
    if p in f.at then f.at[p] else []
  }

  function Without<T>(s: seq<T>, i: nat): seq<T>
    requires i < |s|
  {
    s[..i] + s[i + 1..]
  }

  function Begin(f: Flow, t: Token): Flow {
    Flow(f.at[Events := At(f, Events) + [t]], f.slots[t.id := Waiting(Events)])
  }

  function Move(f: Flow, p: Place, i: nat, q: Place, wire: Option<Wire>): Flow
    requires i < |At(f, p)|
  {
    var t := At(f, p)[i];
    Flow(f.at[p := Without(At(f, p), i)][q := At(f, q) + [t.(wire := wire)]], f.slots[t.id := Waiting(q)])
  }

  function Consume(f: Flow, p: Place, i: nat, slot: Slot): Flow
    requires i < |At(f, p)|
  {
    Flow(f.at[p := Without(At(f, p), i)], f.slots[At(f, p)[i].id := slot])
  }

  // Resolves every token of a place alike, as the drains and dropped queues do.
  function Drain(f: Flow, p: Place, slot: Slot): (r: Flow)
    ensures forall q :: q != p ==> At(r, q) == At(f, q)
    ensures At(r, p) == [] && r.slots.Keys >= f.slots.Keys
    decreases |At(f, p)|
  {
    if At(f, p) == [] then f else Drain(Consume(f, p, 0, slot), p, slot)
  }

  ghost predicate Linear(f: Flow) {
    && (forall p :: Listed(f.slots, p, At(f, p)))
    && (forall x :: x in f.slots && f.slots[x].Waiting? ==> Lies(f, f.slots[x].at, x))
  }

  // The tokens of one place: each waiting there, no two of the same request.
  ghost predicate Listed(slots: map<Id, Slot>, p: Place, s: seq<Token>) {
    && (forall i :: 0 <= i < |s| ==> s[i].id in slots && slots[s[i].id] == Waiting(p))
    && (forall i, j :: 0 <= i < j < |s| ==> s[i].id != s[j].id)
  }

  ghost predicate Lies(f: Flow, p: Place, x: Id) {
    exists i :: 0 <= i < |At(f, p)| && At(f, p)[i].id == x
  }

  /** What linearity means: an id lies in at most one place, at one position, and only unresolved. */
  lemma TokensAreUnique(f: Flow, p: Place, i: nat, q: Place, j: nat)
    requires Linear(f) && i < |At(f, p)| && j < |At(f, q)| && At(f, p)[i].id == At(f, q)[j].id
    ensures p == q && i == j
  {
    assert Listed(f.slots, p, At(f, p)) && Listed(f.slots, q, At(f, q));
  }

  lemma BeginLinear(f: Flow, t: Token)
    requires Linear(f) && t.id !in f.slots
    ensures Linear(Begin(f, t))
  {
    var g := Begin(f, t);
    assert At(g, Events)[|At(f, Events)|].id == t.id;
    forall r ensures Listed(g.slots, r, At(g, r)) {
      assert Listed(f.slots, r, At(f, r));
    }
    forall x | x in g.slots && g.slots[x].Waiting? ensures Lies(g, g.slots[x].at, x) {
      if x != t.id {
        var i :| 0 <= i < |At(f, f.slots[x].at)| && At(f, f.slots[x].at)[i].id == x;
        assert At(g, g.slots[x].at)[i].id == x;
      }
    }
  }

  // A token other than the one leaving `p` stays where it is.
  lemma StaysPut(f: Flow, p: Place, i: nat, q: Place, x: Id, g: Flow)
    requires i < |At(f, p)| && At(f, p)[i].id != x && Lies(f, q, x)
    requires q == p ==> At(g, p) == Without(At(f, p), i)
    requires q != p ==> At(f, q) <= At(g, q)
    ensures Lies(g, q, x)
  {
    var k :| 0 <= k < |At(f, q)| && At(f, q)[k].id == x;
    if q != p {
      assert At(g, q)[k].id == x;
    } else if k < i {
      assert At(g, q)[k].id == x;
    } else {
      assert At(g, q)[k - 1].id == x;
    }
  }

  lemma MoveLinear(f: Flow, p: Place, i: nat, q: Place, wire: Option<Wire>)
    requires Linear(f) && i < |At(f, p)| && p != q
    ensures Linear(Move(f, p, i, q, wire))
  {
    var g, x := Move(f, p, i, q, wire), At(f, p)[i].id;
    assert At(g, q)[|At(f, q)|].id == x;
    forall r ensures Listed(g.slots, r, At(g, r)) {
      assert Listed(f.slots, r, At(f, r)) && Listed(f.slots, p, At(f, p));
    }
    forall y | y in g.slots && g.slots[y].Waiting? ensures Lies(g, g.slots[y].at, y) {
      if y != x {
        StaysPut(f, p, i, f.slots[y].at, y, g);
      }
    }
  }

  lemma ConsumeLinear(f: Flow, p: Place, i: nat, slot: Slot)
    requires Linear(f) && i < |At(f, p)| && !slot.Waiting?
    ensures Linear(Consume(f, p, i, slot))
  {
    var g := Consume(f, p, i, slot);
    forall r ensures Listed(g.slots, r, At(g, r)) {
      assert Listed(f.slots, r, At(f, r)) && Listed(f.slots, p, At(f, p));
    }
    forall y | y in g.slots && g.slots[y].Waiting? ensures Lies(g, g.slots[y].at, y) {
      StaysPut(f, p, i, f.slots[y].at, y, g);
    }
  }

  /** Draining a place resolves exactly the requests whose token lay there. */
  lemma {:induction false} DrainLinear(f: Flow, p: Place, slot: Slot)
    requires Linear(f) && !slot.Waiting?
    ensures var g := Drain(f, p, slot);
            && Linear(g) && g.slots.Keys == f.slots.Keys
            && forall x :: x in f.slots ==> g.slots[x] == if f.slots[x] == Waiting(p) then slot else f.slots[x]
    decreases |At(f, p)|
  {
    if At(f, p) == [] {
      forall x | x in f.slots ensures f.slots[x] != Waiting(p) {
        assert f.slots[x] == Waiting(p) ==> Lies(f, p, x);
      }
    } else {
      ConsumeLinear(f, p, 0, slot);
      DrainLinear(Consume(f, p, 0, slot), p, slot);
    }
  }
}
