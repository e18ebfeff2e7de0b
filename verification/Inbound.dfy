/** The inbound request path: swarm actor, authorization queues and workers,
    dispatcher, backend tasks and waiter tasks, each taking its own steps in any
    order. Request ids and wire ids are fresh, as random UUIDs are taken to be. */
module Inbound {
  import opened Names
  import opened Options
  import opened ReplyFlow

  const AUTH_WORKERS: nat := 4
  const AUTH_QUEUE_CAPACITY: nat := 32
  const DISPATCH_CAPACITY: nat := 256
  const BACKEND_QUEUE_CAPACITY: nat := 64
  const USIZE_MODULUS: nat := 0x1_0000_0000_0000_0000

  const RELOADING: Response := Fail("node is reloading; retry shortly")
  const HANDLER_DROPPED: Response := Fail("request handler dropped")

  function Fail(text: string): Response {
    Response(false, text)
  }

  datatype Decision = Allow | AllowUnprotected | Deny(reason: string)

  // A pending inbound request; `sealed` marks a post-quantum one, whose reply must be sealed.
  datatype Entry = Entry(connection: nat, sealed: bool)

  // `ServiceSendResponse`, on the actor's single command queue; also a reply put on the wire.
  datatype Command = Command(id: Id, response: Response)

  datatype Desk = Desk(pending: map<Id, Entry>, commands: seq<Command>, answers: seq<Command>)

  // What has happened: waiters that have posted, verdicts, refusals, frames written to backends.
  datatype History = History(woken: set<Id>, allowed: set<Id>, refused: map<Id, Response>, delivered: seq<Id>)

  datatype Hub = Hub(next: nat, closed: set<nat>, dispatcherUp: bool, connected: set<Name>, ended: set<Name>)

  datatype Net = Net(flow: Flow, desk: Desk, hist: History, hub: Hub)

  datatype Step =
    | Arrive(id: Id, service: Name, payload: string, entry: Entry)
    | EnqueueAuth
    | DropRefused
    | Take(worker: nat)
    | Judge(worker: nat, decision: Decision)
    | DropDenied(worker: nat)
    | Forward(worker: nat)
    | CloseWorker(worker: nat)
    | Dispatch(others: nat)
    | EndDispatcher
    | Connect(service: Name)
    | Deliver(service: Name, wire: Wire, error: Option<string>)
    | Bounce(service: Name)
    | Reply(service: Name, wire: Wire, ok: bool, result: Option<string>, error: Option<string>)
    | Disconnect(service: Name)
    | EndBackend(service: Name)
    | Orphan(service: Name)
    | Wake(id: Id)
    | Handle(sealable: bool)
    | CloseConnection(connection: nat)
    | Reload(order: seq<Id>, unsealable: set<Id>)

  // ---- the waiter task ----

  // What the waiter posts once the oneshot is resolved.
  function ResponseOf(slot: Slot): Response {
    match slot
    case Sent(Ok(response)) => response
    case Sent(Err(message)) => Fail(message)
    case _ => HANDLER_DROPPED
  }

  // ---- the swarm actor ----

  // `ServiceSendResponse`: only a request still pending is answered; a sealed reply may fail.
  function Handled(d: Desk, sealable: bool): Desk
    requires d.commands != []
  {
    var c := d.commands[0];
    if c.id !in d.pending then d.(commands := d.commands[1..])
    else Desk(d.pending - {c.id}, d.commands[1..],
              if d.pending[c.id].sealed && !sealable then d.answers else d.answers + [c])
  }

  function Retain(pending: map<Id, Entry>, connection: nat): map<Id, Entry> {
    map x | x in pending && pending[x].connection != connection :: pending[x]
  }

  ghost predicate Enumerates(order: seq<Id>, pending: map<Id, Entry>) {
    && (forall x :: x in order <==> x in pending)
    && (forall i, j :: 0 <= i < j < |order| ==> order[i] != order[j])
  }

  // The reload rejections, in draining order; sealing may fail for some.
  function Rejections(order: seq<Id>, pending: map<Id, Entry>, unsealable: set<Id>): seq<Command> {
    if order == [] then [] else
      (if order[0] in pending && pending[order[0]].sealed && order[0] in unsealable then []
          else [Command(order[0], RELOADING)])
      + Rejections(order[1..], pending, unsealable)
  }

  // ---- authorization ----

  // The job at the head of `p` is refused with `text`: the reply is posted first, and the token goes
  // to `q`, where it is about to be dropped.
  function Refuse(n: Net, p: Place, q: Place, text: string): Net
    requires At(n.flow, p) != []
  {
    var x := At(n.flow, p)[0].id;
    n.(flow := Move(n.flow, p, 0, q, None),
       desk := n.desk.(commands := n.desk.commands + [Command(x, Fail(text))]),
       hist := n.hist.(refused := n.hist.refused[x := Fail(text)]))
  }

  // Why a worker's queue does not take a job, if it does not.
  function QueueRefusal(closed: bool, length: nat): Option<string> {
    if closed then Some("authentication unavailable")
    else if length >= AUTH_QUEUE_CAPACITY then Some("authentication overloaded") else None
  }

  // The workers are served in turn; a job its worker's queue does not take is refused.
  function Enqueued(n: Net): Net
    requires At(n.flow, Events) != []
  {
    var w := n.hub.next % AUTH_WORKERS;
    var m := n.(hub := n.hub.(next := (n.hub.next + 1) % USIZE_MODULUS));
    match QueueRefusal(w in n.hub.closed, |At(n.flow, AuthQueue(w))|)
    case Some(text) => Refuse(m, Events, Refused, text)
    case None => m.(flow := Move(n.flow, Events, 0, AuthQueue(w), None))
  }

  function Judged(n: Net, worker: nat, decision: Decision): Net
    requires At(n.flow, Judging(worker)) != []
  {
    match decision
    case Deny(reason) => Refuse(n, Judging(worker), Denied(worker), "unauthorized: " + reason)
    case _ =>
      n.(flow := Move(n.flow, Judging(worker), 0, Forwarding(worker), None),
         hist := n.hist.(allowed := n.hist.allowed + {At(n.flow, Judging(worker))[0].id}))
  }

  function Forwarded(n: Net, worker: nat): Net
    requires At(n.flow, Forwarding(worker)) != []
  {
    if n.hub.dispatcherUp then n.(flow := Move(n.flow, Forwarding(worker), 0, DispatchQueue, None))
    else Refuse(n, Forwarding(worker), Denied(worker), "service unavailable: channel closed")
  }

  function WorkerGone(f: Flow, worker: nat): Flow {
    Drain(Drain(Drain(Drain(f, AuthQueue(worker), Dropped), Judging(worker), Dropped), Forwarding(worker), Dropped),
          Denied(worker), Dropped)
  }

  // ---- dispatcher and backends ----

  // `others` replies to the backend's own calls share its queue.
  function Dispatched(backends: set<Name>, n: Net, others: nat): Flow
    requires At(n.flow, DispatchQueue) != []
  {
    var x := At(n.flow, DispatchQueue)[0].service;
    if x !in backends || x in n.hub.ended then
      Consume(n.flow, DispatchQueue, 0, Sent(Err("No backend for service " + x)))
    else if |At(n.flow, BackendQueue(x))| + others >= BACKEND_QUEUE_CAPACITY then
      Consume(n.flow, DispatchQueue, 0, Sent(Err("backend overloaded " + x)))
    else Move(n.flow, DispatchQueue, 0, BackendQueue(x), None)
  }

  const LOST: Slot := Sent(Err("backend disconnected"))

  // A frame for the head of the queue is written, or the write fails and the connection with it.
  function Delivered(n: Net, service: Name, wire: Wire, error: Option<string>): Net
    requires At(n.flow, BackendQueue(service)) != []
  {
    var x := At(n.flow, BackendQueue(service))[0].id;
    var m := n.(hist := n.hist.(delivered := n.hist.delivered + [x]));
    match error
    case None => m.(flow := Move(n.flow, BackendQueue(service), 0, Table(service), Some(wire)))
    case Some(e) =>
      var f := Consume(n.flow, BackendQueue(service), 0, Sent(Err("write to backend failed: " + e)));
      m.(flow := Drain(f, Table(service), LOST), hub := n.hub.(connected := n.hub.connected - {service}))
  }

  // The position of the request written under `wire`, or the length of the table.
  function Find(s: seq<Token>, wire: Wire): (i: nat)
    ensures i <= |s| && (i < |s| ==> s[i].wire == Some(wire)) && forall k :: 0 <= k < i ==> s[k].wire != Some(wire)
  {
    if s == [] || s[0].wire == Some(wire) then 0 else 1 + Find(s[1..], wire)
  }

  function ReplyOutcome(ok: bool, result: Option<string>, error: Option<string>): Outcome {
    if ok then Ok(Response(true, if result.Some? then result.value else ""))
    else Err(if error.Some? then error.value else "backend error")
  }

  function Replied(f: Flow, service: Name, wire: Wire, outcome: Outcome): Flow {
    var i := Find(At(f, Table(service)), wire);
    if i < |At(f, Table(service))| then Consume(f, Table(service), i, Sent(outcome)) else f
  }

  // ---- the whole path ----

  ghost predicate Enabled(backends: set<Name>, n: Net, s: Step) {
    var f, hub := n.flow, n.hub;
    match s
    case Arrive(id, _, _, _) => id !in f.slots
    case EnqueueAuth => At(f, Events) != [] && At(f, Refused) == []
    case DropRefused => At(f, Refused) != []
    case Take(w) =>
      && w < AUTH_WORKERS && w !in hub.closed && At(f, AuthQueue(w)) != []
      && At(f, Judging(w)) == [] && At(f, Forwarding(w)) == [] && At(f, Denied(w)) == []
    case Judge(w, _) => At(f, Judging(w)) != []
    case DropDenied(w) => At(f, Denied(w)) != []
    case Forward(w) => At(f, Forwarding(w)) != [] && (hub.dispatcherUp ==> |At(f, DispatchQueue)| < DISPATCH_CAPACITY)
    case CloseWorker(w) => w < AUTH_WORKERS
    case Dispatch(_) => hub.dispatcherUp && At(f, DispatchQueue) != []
    case EndDispatcher => hub.dispatcherUp
    case Connect(x) => x in backends && x !in hub.ended
    case Deliver(x, wire, _) =>
      x in hub.connected && At(f, BackendQueue(x)) != [] && Find(At(f, Table(x)), wire) == |At(f, Table(x))|
    case Bounce(x) => x in backends && x !in hub.connected && x !in hub.ended && At(f, BackendQueue(x)) != []
    case Reply(x, _, _, _, _) => x in hub.connected
    case Disconnect(x) => x in hub.connected
    case EndBackend(x) => x in backends && x !in hub.ended
    case Orphan(x) => !hub.dispatcherUp && x in hub.connected && At(f, BackendQueue(x)) == []
    case Wake(x) => x in f.slots && !f.slots[x].Waiting? && x !in n.hist.woken
    case Handle(_) => n.desk.commands != []
    case CloseConnection(_) => true
    case Reload(order, _) => Enumerates(order, n.desk.pending)
  }

  ghost function Next(backends: set<Name>, n: Net, s: Step): Net
    requires Enabled(backends, n, s)
  {
    var f, d, hub := n.flow, n.desk, n.hub;
    match s
    case Arrive(id, service, payload, entry) =>
      n.(flow := Begin(f, Token(id, service, payload, None)), desk := d.(pending := d.pending[id := entry]))
    case EnqueueAuth => Enqueued(n)
    case DropRefused => n.(flow := Consume(f, Refused, 0, Dropped))
    case Take(w) => n.(flow := Move(f, AuthQueue(w), 0, Judging(w), None))
    case Judge(w, decision) => Judged(n, w, decision)
    case DropDenied(w) => n.(flow := Consume(f, Denied(w), 0, Dropped))
    case Forward(w) => Forwarded(n, w)
    case CloseWorker(w) => n.(flow := WorkerGone(f, w), hub := hub.(closed := hub.closed + {w}))
    case Dispatch(others) => n.(flow := Dispatched(backends, n, others))
    case EndDispatcher => n.(flow := Drain(f, DispatchQueue, Dropped), hub := hub.(dispatcherUp := false))
    case Connect(x) => n.(hub := hub.(connected := hub.connected + {x}))
    case Deliver(x, wire, error) => Delivered(n, x, wire, error)
    case Bounce(x) => n.(flow := Consume(f, BackendQueue(x), 0, Sent(Err("backend not connected: " + x))))
    case Reply(x, wire, ok, result, error) => n.(flow := Replied(f, x, wire, ReplyOutcome(ok, result, error)))
    case Disconnect(x) => n.(flow := Drain(f, Table(x), LOST), hub := hub.(connected := hub.connected - {x}))
    case EndBackend(x) =>
      n.(flow := Drain(Drain(f, Table(x), LOST), BackendQueue(x), Dropped),
         hub := hub.(connected := hub.connected - {x}, ended := hub.ended + {x}))
    case Orphan(x) =>
      n.(flow := Drain(f, Table(x), Sent(Err("dispatcher gone"))),
         hub := hub.(connected := hub.connected - {x}, ended := hub.ended + {x}))
    case Wake(x) =>
      n.(desk := d.(commands := d.commands + [Command(x, ResponseOf(f.slots[x]))]),
         hist := n.hist.(woken := n.hist.woken + {x}))
    case Handle(sealable) => n.(desk := Handled(d, sealable))
    case CloseConnection(connection) => n.(desk := d.(pending := Retain(d.pending, connection)))
    case Reload(order, unsealable) =>
      n.(desk := d.(pending := map[], answers := d.answers + Rejections(order, d.pending, unsealable)))
  }

  const START: Net := Net(Flow(map[], map[]), Desk(map[], [], []), History({}, {}, map[], []), Hub(0, {}, true, {}, {}))
}
