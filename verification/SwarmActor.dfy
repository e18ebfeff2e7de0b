/** The objects that own the tables: the swarm actor, whose handlers update its
    pending tables in place, and the controller's intake, which pushes jobs to
    the authorization queues in turn. Their methods do what the value-level
    models say. */
module SwarmActor {
  import opened Options
  import opened Waiters
  import RF = ReplyFlow
  import In = Inbound

  class Actor {
    var pendingInbound: map<RF.Id, In.Entry>
    var answers: seq<In.Command>
    var pendingKad: map<nat, Pending>
    var pendingOutbound: map<nat, Pending>
    var pendingOutboundPq: map<nat, Pending>
    var sent: seq<Sent>
    ghost var status: map<Waiter, Status>
    ghost var issued: set<(Which, nat)>

    ghost function Entries(): Tables
      reads this`pendingKad, this`pendingOutbound, this`pendingOutboundPq
    {
      Tables(pendingKad, pendingOutbound, pendingOutboundPq)
    }

    ghost function Waiting(): Book
      reads this`pendingKad, this`pendingOutbound, this`pendingOutboundPq, this`sent, this`status, this`issued
    {
      Book(Entries(), sent, status, issued)
    }

    // The inbound half, with the commands still queued.
    ghost function Desk(commands: seq<In.Command>): In.Desk
      reads this`pendingInbound, this`answers
    {
      In.Desk(pendingInbound, commands, answers)
    }

    constructor ()
      ensures Waiting() == EMPTY && Desk([]) == In.START.desk
    {
      pendingInbound, answers, sent := map[], [], [];
      pendingKad, pendingOutbound, pendingOutboundPq := map[], map[], map[];
      status, issued := map[], {};
    }

    method OpenQuery(id: nat, p: Pending)
      requires Enabled(Waiting(), Open(Kad, id, p))
      modifies this`pendingKad, this`status, this`issued
      ensures Waiting() == Next(old(Waiting()), Open(Kad, id, p))
    {
      pendingKad := pendingKad[id := p];
      status, issued := status[p.waiter := Held(Kad, id)], issued + {(Kad, id)};
    }

    method HandleKadEvent(id: nat, r: Result)
      modifies this`pendingKad, this`sent, this`status
      ensures Waiting() == Next(old(Waiting()), Progress(id, r))
    {
      if id in pendingKad {
        var p := pendingKad[id];
        pendingKad := pendingKad - {id};
        match OnResult(p, r) {
          case Wait(q) =>
            pendingKad := pendingKad[id := q];
            assert pendingKad == old(pendingKad)[id := q];
          case Answer(reply) =>
            sent, status := sent + [Sent(p.waiter, reply)], status[p.waiter := Replied];
          case Drop =>
            status := status[p.waiter := Lost];
        }
      }
    }

    method HandleOutbound(id: nat, reply: Reply, sealed: bool)
      modifies this`pendingOutbound, this`pendingOutboundPq, this`sent, this`status
      ensures Waiting() == Next(old(Waiting()), Respond(if sealed then Sealed else Plain, id, reply))
    {
      if sealed {
        if id in pendingOutboundPq {
          sent, status := sent + [Sent(pendingOutboundPq[id].waiter, reply)],
              status[pendingOutboundPq[id].waiter := Replied];
          pendingOutboundPq := pendingOutboundPq - {id};
        }
      } else if id in pendingOutbound {
        sent, status := sent + [Sent(pendingOutbound[id].waiter, reply)], status[pendingOutbound[id].waiter := Replied];
        pendingOutbound := pendingOutbound - {id};
      }
    }

    method SendResponse(c: In.Command, sealable: bool, ghost rest: seq<In.Command>)
      modifies this`pendingInbound, this`answers
      ensures Desk(rest) == In.Handled(old(Desk([c] + rest)), sealable)
    {
      if c.id in pendingInbound {
        if !pendingInbound[c.id].sealed || sealable {
          answers := answers + [c];
        }
        pendingInbound := pendingInbound - {c.id};
      }
    }

    method ConnectionClosed(connection: nat)
      modifies this`pendingInbound
      ensures pendingInbound == In.Retain(old(pendingInbound), connection)
    {
      pendingInbound := map x | x in pendingInbound && pendingInbound[x].connection != connection :: pendingInbound[x];
    }

    // Drains a table of waiters.
    method FailTable(m: map<nat, Pending>) returns (ghost order: seq<nat>)
      modifies this`sent
      ensures Enumerates(order, m) && sent == old(sent) + Notices(m, order)
    {
      var rest := m;
      order := [];
      while rest != map[]
        invariant Drained(m, rest, order)
        invariant sent == old(sent) + Notices(m, order)
        decreases |rest|
      {
        var x :| x in rest;
        DrainStep(m, rest, order, x);
        sent := sent + [Sent(rest[x].waiter, Failed(Reloaded))];
        rest, order := rest - {x}, order + [x];
      }
    }

    // Tells every pending inbound request that the node is reloading.
    method RejectInbound(m: map<RF.Id, In.Entry>, unsealable: set<RF.Id>) returns (ghost order: seq<RF.Id>)
      modifies this`answers
      ensures In.Enumerates(order, m) && answers == old(answers) + In.Rejections(order, m, unsealable)
    {
      var rest := m;
      order := [];
      while rest != map[]
        invariant Drained(m, rest, order)
        invariant answers == old(answers) + In.Rejections(order, m, unsealable)
        decreases |rest|
      {
        var x :| x in rest;
        DrainStep(m, rest, order, x);
        if !rest[x].sealed || x !in unsealable {
          answers := answers + [In.Command(x, In.RELOADING)];
        }
        RejectionsAppend(order, x, m, unsealable);
        rest, order := rest - {x}, order + [x];
      }
    }

    method Reload(unsealable: set<RF.Id>)
      returns (ghost inbound: seq<RF.Id>, ghost kad: seq<nat>, ghost plain: seq<nat>, ghost sealed: seq<nat>)
      requires Accounted(Waiting())
      modifies this
      ensures Waiters.Enabled(old(Waiting()), Waiters.Reload(kad, plain, sealed))
      ensures Waiting() == Next(old(Waiting()), Waiters.Reload(kad, plain, sealed))
      ensures In.Enumerates(inbound, old(pendingInbound)) && pendingInbound == map[]
      ensures answers == old(answers) + In.Rejections(inbound, old(pendingInbound), unsealable)
    {
      ghost var before := Waiting();
      inbound := RejectInbound(pendingInbound, unsealable);
      pendingInbound := map[];
      kad := FailTable(pendingKad);
      plain := FailTable(pendingOutbound);
      sealed := FailTable(pendingOutboundPq);
      ReloadFailsEach(before, kad, plain, sealed);
      pendingKad, pendingOutbound, pendingOutboundPq := map[], map[], map[];
      status, issued := ReloadedBook(before, kad, plain, sealed).status, {};
    }
  }

  // A table of which `rest` is left and the keys in `order` have been taken, each once.
  ghost predicate Drained<V>(m: map<nat, V>, rest: map<nat, V>, order: seq<nat>) {
    && rest.Keys <= m.Keys && (forall x :: x in rest ==> rest[x] == m[x])
    && (forall x :: x in order <==> x in m && x !in rest)
    && (forall i, j :: 0 <= i < j < |order| ==> order[i] != order[j])
  }

  lemma DrainStep<V>(m: map<nat, V>, rest: map<nat, V>, order: seq<nat>, x: nat)
    requires Drained(m, rest, order) && x in rest
    ensures Drained(m, rest - {x}, order + [x]) && x in m && rest[x] == m[x] && |rest - {x}| < |rest|
  {
    assert (rest - {x}).Keys == rest.Keys - {x};
    assert |rest.Keys| == |rest|;
  }

  lemma {:induction false} RejectionsAppend(order: seq<RF.Id>, x: RF.Id, m: map<RF.Id, In.Entry>,
      unsealable: set<RF.Id>)
    requires x in m
    ensures In.Rejections(order + [x], m, unsealable) == In.Rejections(order, m, unsealable) +
              if m[x].sealed && x in unsealable then [] else [In.Command(x, In.RELOADING)]
  {
    if order == [] {
      assert order + [x] == [x] && [x][1..] == [];
      assert In.Rejections([], m, unsealable) == [];
    } else {
      var longer, last := order + [x], if m[x].sealed && x in unsealable then [] else [In.Command(x, In.RELOADING)];
      assert longer[0] == order[0] && longer[1..] == order[1..] + [x];
      var first := if order[0] in m && m[order[0]].sealed && order[0] in unsealable then []
                   else [In.Command(order[0], In.RELOADING)];
      assert In.Rejections(longer, m, unsealable) == first + In.Rejections(longer[1..], m, unsealable);
      assert In.Rejections(order, m, unsealable) == first + In.Rejections(order[1..], m, unsealable);
      RejectionsAppend(order[1..], x, m, unsealable);
      hide In.Rejections;
      var middle := In.Rejections(order[1..], m, unsealable);
      assert first + (middle + last) == (first + middle) + last;
    }
  }

  /** `enqueue_auth`: the controller's side of the authorization queues. */
  class AuthIntake {
    const queues: array<seq<RF.Token>>
    var closed: set<nat>
    var next: nat

    ghost predicate Valid()
      reads this, queues
    {
      queues.Length == In.AUTH_WORKERS && next < In.USIZE_MODULUS &&
      forall i :: 0 <= i < queues.Length ==> |queues[i]| <= In.AUTH_QUEUE_CAPACITY
    }

    constructor ()
      ensures Valid() && fresh(queues) && closed == {} && next == 0
      ensures forall i :: 0 <= i < queues.Length ==> queues[i] == []
    {
      queues := new seq<RF.Token>[In.AUTH_WORKERS](_ => []);
      closed, next := {}, 0;
    }

    // Appends the job to the queue whose turn it is, or says why not; no other queue changes.
    method Enqueue(t: RF.Token) returns (refusal: Option<string>)
      requires Valid()
      modifies this`next, queues
      ensures Valid() && next == (old(next) + 1) % In.USIZE_MODULUS
      ensures var w := old(next) % In.AUTH_WORKERS;
              && refusal == In.QueueRefusal(w in closed, |old(queues[w])|)
              && queues[w] == (if refusal.None? then old(queues[w]) + [t] else old(queues[w]))
              && forall i :: 0 <= i < queues.Length && i != w ==> queues[i] == old(queues[i])
    {
      var w := next % In.AUTH_WORKERS;
      next := (next + 1) % In.USIZE_MODULUS;
      if w in closed {
        refusal := Some("authentication unavailable");
      } else if |queues[w]| == In.AUTH_QUEUE_CAPACITY {
        refusal := Some("authentication overloaded");
      } else {
        queues[w] := queues[w] + [t];
        refusal := None;
      }
    }
  }
}
