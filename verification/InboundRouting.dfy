/** Where inbound requests go: in every run each token still carries the service
    and payload its request arrived with, lies only in the queue and table of
    that service's backend, and is the only one there under its wire id. */
module InboundRouting {
  import opened Names
  import opened Options
  import opened ReplyFlow
  import opened Inbound
  import opened InboundRuns

  datatype Request = Request(service: Name, payload: string)

  // The requests of a run, read off its arrivals.
  function Arrivals(ss: seq<Step>): map<Id, Request>
    decreases |ss|
  {
    if ss == [] then map[] else
      var r := Arrivals(Init(ss));
      if Last(ss).Arrive? then r[Last(ss).id := Request(Last(ss).service, Last(ss).payload)] else r
  }

  // The requests last written to each backend under each wire id, read off the delivering steps.
  ghost function Written(backends: set<Name>, ss: seq<Step>): map<(Name, Wire), Id>
    requires Run(backends, ss)
    decreases |ss|
  {
    if ss == [] then map[] else NextWritten(Written(backends, Init(ss)), Exec(backends, Init(ss)), Last(ss))
  }

  ghost function NextWritten(w: map<(Name, Wire), Id>, n: Net, s: Step): map<(Name, Wire), Id> {
    if s.Deliver? && s.error.None? && At(n.flow, BackendQueue(s.service)) != []
    then w[(s.service, s.wire) := At(n.flow, BackendQueue(s.service))[0].id] else w
  }

  // What a run's steps say of its requests.
  datatype Refs = Refs(requests: map<Id, Request>, written: map<(Name, Wire), Id>)

  predicate AtBackend(p: Place) {
    p.BackendQueue? || p.Table?
  }

  predicate WrittenAs(w: map<(Name, Wire), Id>, service: Name, wire: Wire, x: Id) {
    (service, wire) in w && w[(service, wire)] == x
  }

  predicate Faithful(refs: Refs, p: Place, t: Token) {
    && t.id in refs.requests && refs.requests[t.id] == Request(t.service, t.payload)
    && (AtBackend(p) ==> t.service == p.service)
    && (p.Table? ==> t.wire.Some? && WrittenAs(refs.written, p.service, t.wire.value, t.id))
  }

  ghost predicate Orderly(refs: Refs, p: Place, s: seq<Token>) {
    && (forall i :: 0 <= i < |s| ==> Faithful(refs, p, s[i]))
    && (p.Table? ==> forall i, j :: 0 <= i < j < |s| ==> s[i].wire != s[j].wire)
  }

  ghost predicate Routed(refs: Refs, f: Flow) {
    forall p :: Orderly(refs, p, At(f, p))
  }

  lemma MoveRouted(refs: Refs, f: Flow, p: Place, i: nat, q: Place, wire: Option<Wire>)
    requires Routed(refs, f) && i < |At(f, p)| && p != q && !q.Table?
    requires AtBackend(q) ==> At(f, p)[i].service == q.service
    ensures Routed(refs, Move(f, p, i, q, wire))
  {
    var g := Move(f, p, i, q, wire);
    forall r ensures Orderly(refs, r, At(g, r)) {
      assert Orderly(refs, r, At(f, r)) && Orderly(refs, p, At(f, p));
    }
  }

  // Writing a request under a wire id that no request of the table has.
  lemma WriteRouted(refs: Refs, f: Flow, x: Name, wire: Wire)
    requires Routed(refs, f) && At(f, BackendQueue(x)) != []
    requires forall k :: 0 <= k < |At(f, Table(x))| ==> At(f, Table(x))[k].wire != Some(wire)
    ensures Routed(refs.(written := refs.written[(x, wire) := At(f, BackendQueue(x))[0].id]),
                   Move(f, BackendQueue(x), 0, Table(x), Some(wire)))
  {
    var g := Move(f, BackendQueue(x), 0, Table(x), Some(wire));
    var refs' := refs.(written := refs.written[(x, wire) := At(f, BackendQueue(x))[0].id]);
    forall r ensures Orderly(refs', r, At(g, r)) {
      assert Orderly(refs, r, At(f, r)) && Orderly(refs, BackendQueue(x), At(f, BackendQueue(x)));
    }
  }

  lemma ConsumeRouted(refs: Refs, f: Flow, p: Place, i: nat, slot: Slot)
    requires Routed(refs, f) && i < |At(f, p)|
    ensures Routed(refs, Consume(f, p, i, slot))
  {
    var g := Consume(f, p, i, slot);
    forall r ensures Orderly(refs, r, At(g, r)) {
      assert Orderly(refs, r, At(f, r)) && Orderly(refs, p, At(f, p));
    }
  }

  lemma DrainRouted(refs: Refs, f: Flow, p: Place, slot: Slot)
    requires Routed(refs, f)
    ensures Routed(refs, Drain(f, p, slot))
  {
    var g := Drain(f, p, slot);
    hide Drain;
    forall r ensures Orderly(refs, r, At(g, r)) {
      assert Orderly(refs, r, At(f, r));
    }
  }

  lemma BeginRouted(refs: Refs, f: Flow, t: Token)
    requires Routed(refs, f) && Linear(f) && t.id !in f.slots
    ensures Routed(refs.(requests := refs.requests[t.id := Request(t.service, t.payload)]), Begin(f, t))
  {
    var g, refs' := Begin(f, t), refs.(requests := refs.requests[t.id := Request(t.service, t.payload)]);
    forall r ensures Orderly(refs', r, At(g, r)) {
      assert Orderly(refs, r, At(f, r)) && Listed(f.slots, r, At(f, r));
    }
  }

  lemma WorkerRouted(refs: Refs, backends: set<Name>, n: Net, s: Step)
    requires Routed(refs, n.flow) && Enabled(backends, n, s)
    requires s.Take? || s.Judge? || s.DropDenied? || s.Forward? || s.CloseWorker?
    ensures Routed(refs, Next(backends, n, s).flow)
  {
    hide Routed, Drain;
    var f, w := n.flow, s.worker;
    match s
    case Take(_) => MoveRouted(refs, f, AuthQueue(w), 0, Judging(w), None);
    case Judge(_, _) =>
      MoveRouted(refs, f, Judging(w), 0, Forwarding(w), None);
      MoveRouted(refs, f, Judging(w), 0, Denied(w), None);
    case DropDenied(_) => ConsumeRouted(refs, f, Denied(w), 0, Dropped);
    case Forward(_) =>
      MoveRouted(refs, f, Forwarding(w), 0, DispatchQueue, None);
      MoveRouted(refs, f, Forwarding(w), 0, Denied(w), None);
    case CloseWorker(_) =>
      DrainRouted(refs, f, AuthQueue(w), Dropped);
      var f1 := Drain(f, AuthQueue(w), Dropped);
      DrainRouted(refs, f1, Judging(w), Dropped);
      var f2 := Drain(f1, Judging(w), Dropped);
      DrainRouted(refs, f2, Forwarding(w), Dropped);
      DrainRouted(refs, Drain(f2, Forwarding(w), Dropped), Denied(w), Dropped);
  }

  lemma DispatchRouted(refs: Refs, backends: set<Name>, n: Net, others: nat)
    requires Routed(refs, n.flow) && At(n.flow, DispatchQueue) != []
    ensures Routed(refs, Dispatched(backends, n, others))
  {
    hide Routed;
    var f, x := n.flow, At(n.flow, DispatchQueue)[0].service;
    ConsumeRouted(refs, f, DispatchQueue, 0, Sent(Err("No backend for service " + x)));
    ConsumeRouted(refs, f, DispatchQueue, 0, Sent(Err("backend overloaded " + x)));
    MoveRouted(refs, f, DispatchQueue, 0, BackendQueue(x), None);
  }

  lemma DeliverRouted(refs: Refs, n: Net, s: Step)
    requires Routed(refs, n.flow) && s.Deliver? && At(n.flow, BackendQueue(s.service)) != []
    requires Find(At(n.flow, Table(s.service)), s.wire) == |At(n.flow, Table(s.service))|
    ensures Routed(refs.(written := NextWritten(refs.written, n, s)), Delivered(n, s.service, s.wire, s.error).flow)
  {
    var f, x := n.flow, s.service;
    hide Routed, Drain, Find;
    match s.error
    case None => WriteRouted(refs, f, x, s.wire);
    case Some(e) =>
      var slot := Sent(Err("write to backend failed: " + e));
      ConsumeRouted(refs, f, BackendQueue(x), 0, slot);
      DrainRouted(refs, Consume(f, BackendQueue(x), 0, slot), Table(x), LOST);
      assert refs.(written := refs.written) == refs;
  }

  lemma BackendRouted(refs: Refs, backends: set<Name>, n: Net, s: Step)
    requires Routed(refs, n.flow) && Enabled(backends, n, s)
    requires s.Bounce? || s.Reply? || s.Disconnect? || s.EndBackend? || s.Orphan?
    ensures Routed(refs, Next(backends, n, s).flow)
  {
    hide Routed, Drain, ReplyOutcome;
    var f, x := n.flow, s.service;
    match s
    case Bounce(_) => ConsumeRouted(refs, f, BackendQueue(x), 0, Sent(Err("backend not connected: " + x)));
    case Reply(_, wire, ok, result, error) =>
      var i := Find(At(f, Table(x)), wire);
      if i < |At(f, Table(x))| {
        ConsumeRouted(refs, f, Table(x), i, Sent(ReplyOutcome(ok, result, error)));
      }
    case Disconnect(_) => DrainRouted(refs, f, Table(x), LOST);
    case EndBackend(_) =>
      DrainRouted(refs, f, Table(x), LOST);
      DrainRouted(refs, Drain(f, Table(x), LOST), BackendQueue(x), Dropped);
    case Orphan(_) => DrainRouted(refs, f, Table(x), Sent(Err("dispatcher gone")));
  }

  function NextRequests(r: map<Id, Request>, s: Step): map<Id, Request> {
    if s.Arrive? then r[s.id := Request(s.service, s.payload)] else r
  }

  lemma StepRouted(refs: Refs, backends: set<Name>, n: Net, s: Step)
    requires Routed(refs, n.flow) && Linear(n.flow) && Enabled(backends, n, s)
    ensures Routed(Refs(NextRequests(refs.requests, s), NextWritten(refs.written, n, s)), Next(backends, n, s).flow)
  {
    hide Routed, Linear, Drain, Dispatched, Delivered, ResponseOf, Handled, Rejections;
    match s
    case Arrive(id, service, payload, _) => BeginRouted(refs, n.flow, Token(id, service, payload, None));
    case EnqueueAuth =>
      MoveRouted(refs, n.flow, Events, 0, Refused, None);
      MoveRouted(refs, n.flow, Events, 0, AuthQueue(n.hub.next % AUTH_WORKERS), None);
    case DropRefused => ConsumeRouted(refs, n.flow, Refused, 0, Dropped);
    case Dispatch(others) => DispatchRouted(refs, backends, n, others);
    case EndDispatcher => DrainRouted(refs, n.flow, DispatchQueue, Dropped);
    case Deliver(_, _, _) => DeliverRouted(refs, n, s);
    case _ =>
      if s.Take? || s.Judge? || s.DropDenied? || s.Forward? || s.CloseWorker? {
        WorkerRouted(refs, backends, n, s);
      } else if s.Bounce? || s.Reply? || s.Disconnect? || s.EndBackend? || s.Orphan? {
        BackendRouted(refs, backends, n, s);
      }
  }

  ghost function RefsOf(backends: set<Name>, ss: seq<Step>): Refs
    requires Run(backends, ss)
  {
    Refs(Arrivals(ss), Written(backends, ss))
  }

  /** In every run each token carries the service and payload of its own request, a backend's queue
      and table hold only requests for its service, and each request of a table is the one last
      written under its wire id. */
  lemma {:induction false} RequestsAreRouted(backends: set<Name>, ss: seq<Step>)
    requires Run(backends, ss)
    ensures Routed(RefsOf(backends, ss), Exec(backends, ss).flow)
    decreases |ss|
  {
    if ss != [] {
      RequestsAreRouted(backends, Init(ss));
      RunKeepsInvariant(backends, Init(ss));
      hide Routed, Linear, Staged, DeskOk, Delivering, Next, Enabled, NextWritten;
      StepRouted(RefsOf(backends, Init(ss)), backends, Exec(backends, Init(ss)), Last(ss));
      assert RefsOf(backends, ss) ==
             Refs(NextRequests(Arrivals(Init(ss)), Last(ss)),
                  NextWritten(Written(backends, Init(ss)), Exec(backends, Init(ss)), Last(ss)));
    }
  }

  // ---- replies ----

  // Requests are written at most once, so a wire id that still names one names no other.
  ghost predicate WrittenOnce(w: map<(Name, Wire), Id>, delivered: seq<Id>) {
    && (forall k :: k in w ==> w[k] in delivered)
    && (forall j, k :: j in w && k in w && w[j] == w[k] ==> j == k)
  }

  lemma NewlyDelivered(n: Net, x: Name)
    requires Inv(n) && At(n.flow, BackendQueue(x)) != []
    ensures At(n.flow, BackendQueue(x))[0].id !in n.hist.delivered
  {
    HeadWaits(n.flow, BackendQueue(x), 0);
    var id := At(n.flow, BackendQueue(x))[0].id;
    forall k | 0 <= k < |n.hist.delivered| ensures n.hist.delivered[k] != id {
      assert DeliveredOk(n.hist.delivered[k], n.hist, n.flow.slots);
    }
  }

  lemma DeliveredGrows(backends: set<Name>, n: Net, s: Step)
    requires Enabled(backends, n, s)
    ensures Next(backends, n, s).hist.delivered ==
            n.hist.delivered + (if s.Deliver? then [At(n.flow, BackendQueue(s.service))[0].id] else [])
  {
    hide Drain, ResponseOf, Dispatched, Rejections, Handled;
  }

  lemma {:induction false} EachIsWrittenOnce(backends: set<Name>, ss: seq<Step>)
    requires Run(backends, ss)
    ensures WrittenOnce(Written(backends, ss), Exec(backends, ss).hist.delivered)
    decreases |ss|
  {
    if ss != [] {
      var n, s := Exec(backends, Init(ss)), Last(ss);
      EachIsWrittenOnce(backends, Init(ss));
      RunKeepsInvariant(backends, Init(ss));
      DeliveredGrows(backends, n, s);
      if s.Deliver? {
        NewlyDelivered(n, s.service);
      }
      hide Inv, Next;
    }
  }

  /** In every run a backend's reply resolves exactly the request last written to it under that wire
      id, if it still awaits a reply there, and no other request. */
  lemma ReplyReachesItsRequest(backends: set<Name>, ss: seq<Step>, s: Step, x: Id)
    requires Run(backends, ss) && s.Reply? && Enabled(backends, Exec(backends, ss), s)
    requires x in Exec(backends, ss).flow.slots
    ensures var slots, slots' := Exec(backends, ss).flow.slots, Next(backends, Exec(backends, ss), s).flow.slots;
            x in slots' &&
            slots'[x] == (if slots[x] == Waiting(Table(s.service)) &&
                             WrittenAs(Written(backends, ss), s.service, s.wire, x)
                          then Sent(ReplyOutcome(s.ok, s.result, s.error)) else slots[x])
  {
    var f := Exec(backends, ss).flow;
    RequestsAreRouted(backends, ss);
    EachIsWrittenOnce(backends, ss);
    RunKeepsInvariant(backends, ss);
    hide Exec, Written, Staged, DeskOk, Delivering, ReplyOutcome;
    ReplyFinds(RefsOf(backends, ss), f, s.service, s.wire, x, Exec(backends, ss).hist.delivered);
  }

  lemma ReplyFinds(refs: Refs, f: Flow, service: Name, wire: Wire, x: Id, delivered: seq<Id>)
    requires Routed(refs, f) && Linear(f) && WrittenOnce(refs.written, delivered) && x in f.slots
    ensures var s := At(f, Table(service));
            (Find(s, wire) < |s| && s[Find(s, wire)].id == x) <==>
            (f.slots[x] == Waiting(Table(service)) && WrittenAs(refs.written, service, wire, x))
  {
    var s := At(f, Table(service));
    assert Orderly(refs, Table(service), s) && Listed(f.slots, Table(service), s);
    if f.slots[x] == Waiting(Table(service)) {
      assert Lies(f, Table(service), x);
      var i :| 0 <= i < |s| && s[i].id == x;
      assert Faithful(refs, Table(service), s[i]);
    }
    if Find(s, wire) < |s| {
      assert Faithful(refs, Table(service), s[Find(s, wire)]);
    }
  }
}
