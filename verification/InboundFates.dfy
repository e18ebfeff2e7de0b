/** The life of one inbound request, read off the steps: where its token lies,
    what it is finally resolved with, and what its caller is told. */
module InboundFates {
  import opened Names
  import opened Options
  import opened ReplyFlow
  import opened Inbound
  import opened InboundRuns

  datatype Fate = Unborn | Lying(at: Place) | Told(response: Response) | Gone

  function Means(slot: Slot): Fate {
    match slot
    case Waiting(p) => Lying(p)
    case Sent(Ok(response)) => Told(response)
    case Sent(Err(message)) => Told(Response(false, message))
    case Dropped => Gone
  }

  function FateOf(slots: map<Id, Slot>, x: Id): Fate {
    if x in slots then Means(slots[x]) else Unborn
  }

  function Failed(text: string): Fate {
    Told(Response(false, text))
  }

  // The request is next in line at `p`.
  predicate Head(n: Net, p: Place, x: Id) {
    At(n.flow, p) != [] && At(n.flow, p)[0].id == x
  }

  // The request is the first one in the backend's table that was written under `wire`.
  predicate WrittenAs(n: Net, service: Name, wire: Wire, x: Id) {
    var table := At(n.flow, Table(service));
    exists i :: 0 <= i < |table| && table[i].id == x && table[i].wire == Some(wire) &&
      forall k :: 0 <= k < i ==> table[k].wire != Some(wire)
  }

  predicate WithWorker(fate: Fate, w: nat) {
    fate in {Lying(AuthQueue(w)), Lying(Judging(w)), Lying(Forwarding(w)), Lying(Denied(w))}
  }

  function Queued(backends: set<Name>, n: Net, others: nat): Fate
    requires At(n.flow, DispatchQueue) != []
  {
    var service := At(n.flow, DispatchQueue)[0].service;
    if service !in backends || service in n.hub.ended then Failed("No backend for service " + service)
    else if |At(n.flow, BackendQueue(service))| + others >= 64 then Failed("backend overloaded " + service)
    else Lying(BackendQueue(service))
  }

  // What a step makes of a request that fared as `fate` so far.
  ghost function AfterStep(backends: set<Name>, n: Net, s: Step, x: Id, fate: Fate): Fate {
    match s
    case Arrive(id, _, _, _) => if id == x then Lying(Events) else fate
    case EnqueueAuth =>
      if !Head(n, Events, x) then fate
      else if n.hub.next % 4 in n.hub.closed || |At(n.flow, AuthQueue(n.hub.next % 4))| >= 32 then Lying(Refused)
      else Lying(AuthQueue(n.hub.next % 4))
    case DropRefused => if Head(n, Refused, x) then Gone else fate
    case Take(w) => if Head(n, AuthQueue(w), x) then Lying(Judging(w)) else fate
    case Judge(w, decision) =>
      if !Head(n, Judging(w), x) then fate
      else if decision.Deny? then Lying(Denied(w)) else Lying(Forwarding(w))
    case DropDenied(w) => if Head(n, Denied(w), x) then Gone else fate
    case Forward(w) =>
      if !Head(n, Forwarding(w), x) then fate
      else if n.hub.dispatcherUp then Lying(DispatchQueue) else Lying(Denied(w))
    case CloseWorker(w) => if WithWorker(fate, w) then Gone else fate
    case Dispatch(others) => if Head(n, DispatchQueue, x) then Queued(backends, n, others) else fate
    case EndDispatcher => if fate == Lying(DispatchQueue) then Gone else fate
    case Deliver(service, _, None) => if Head(n, BackendQueue(service), x) then Lying(Table(service)) else fate
    case Deliver(service, _, Some(error)) =>
      if Head(n, BackendQueue(service), x) then Failed("write to backend failed: " + error)
      else if fate == Lying(Table(service)) then Failed("backend disconnected") else fate
    case Bounce(service) =>
      if Head(n, BackendQueue(service), x) then Failed("backend not connected: " + service) else fate
    case Reply(service, wire, ok, result, error) =>
      if !WrittenAs(n, service, wire, x) then fate
      else if ok then Told(Response(true, match result case Some(text) => text case None => ""))
      else Failed(match error case Some(text) => text case None => "backend error")
    case Disconnect(service) => if fate == Lying(Table(service)) then Failed("backend disconnected") else fate
    case EndBackend(service) =>
      if fate == Lying(Table(service)) then Failed("backend disconnected")
      else if fate == Lying(BackendQueue(service)) then Gone else fate
    case Orphan(service) => if fate == Lying(Table(service)) then Failed("dispatcher gone") else fate
    case _ => fate
  }

  ghost function Life(backends: set<Name>, ss: seq<Step>, x: Id): Fate
    requires Run(backends, ss)
    decreases |ss|
  {
    if ss == [] then Unborn
    else AfterStep(backends, Exec(backends, Init(ss)), Last(ss), x, Life(backends, Init(ss), x))
  }

  // ---- each step does this to each request ----

  lemma DrainFate(f: Flow, p: Place, slot: Slot, x: Id)
    requires Linear(f) && !slot.Waiting?
    ensures Linear(Drain(f, p, slot))
    ensures FateOf(Drain(f, p, slot).slots, x)
            == if FateOf(f.slots, x) == Lying(p) then Means(slot) else FateOf(f.slots, x)
  {
    hide Linear, Drain;
    DrainLinear(f, p, slot);
  }

  lemma WorkerFate(backends: set<Name>, n: Net, s: Step, x: Id)
    requires Linear(n.flow) && Enabled(backends, n, s)
    requires s.Take? || s.Judge? || s.DropDenied? || s.Forward? || s.CloseWorker?
    ensures FateOf(Next(backends, n, s).flow.slots, x)
            == AfterStep(backends, n, s, x, FateOf(n.flow.slots, x))
  {
    hide Linear, Drain;
    if s.CloseWorker? {
      var w := s.worker;
      var f1 := Drain(n.flow, AuthQueue(w), Dropped);
      DrainFate(n.flow, AuthQueue(w), Dropped, x);
      var f2 := Drain(f1, Judging(w), Dropped);
      DrainFate(f1, Judging(w), Dropped, x);
      var f3 := Drain(f2, Forwarding(w), Dropped);
      DrainFate(f2, Forwarding(w), Dropped, x);
      DrainFate(f3, Denied(w), Dropped, x);
    }
  }

  lemma DeliverFate(backends: set<Name>, n: Net, s: Step, x: Id)
    requires Linear(n.flow) && Enabled(backends, n, s) && s.Deliver?
    ensures FateOf(Next(backends, n, s).flow.slots, x)
            == AfterStep(backends, n, s, x, FateOf(n.flow.slots, x))
  {
    hide Linear, Drain;
    var p := BackendQueue(s.service);
    HeadWaits(n.flow, p, 0);
    if s.error.Some? {
      var slot := Sent(Err("write to backend failed: " + s.error.value));
      ConsumeLinear(n.flow, p, 0, slot);
      DrainFate(Consume(n.flow, p, 0, slot), Table(s.service), LOST, x);
    }
  }

  lemma ReplyFate(backends: set<Name>, n: Net, s: Step, x: Id)
    requires Linear(n.flow) && Enabled(backends, n, s) && s.Reply?
    ensures FateOf(Next(backends, n, s).flow.slots, x)
            == AfterStep(backends, n, s, x, FateOf(n.flow.slots, x))
  {
    var table := At(n.flow, Table(s.service));
    var i := Find(table, s.wire);
    if i < |table| {
      assert WrittenAs(n, s.service, s.wire, table[i].id);
    }
    forall k | 0 <= k < |table| && table[k].wire == Some(s.wire) && forall j :: 0 <= j < k ==>
        table[j].wire != Some(s.wire)
      ensures k == i
    {
    }
    hide Linear;
  }

  lemma BackendFate(backends: set<Name>, n: Net, s: Step, x: Id)
    requires Linear(n.flow) && Enabled(backends, n, s)
    requires s.Bounce? || s.Disconnect? || s.EndBackend? || s.Orphan? || s.EndDispatcher?
    ensures FateOf(Next(backends, n, s).flow.slots, x)
            == AfterStep(backends, n, s, x, FateOf(n.flow.slots, x))
  {
    hide Linear, Drain;
    match s
    case Bounce(_) =>
    case Disconnect(y) => DrainFate(n.flow, Table(y), LOST, x);
    case EndBackend(y) =>
      DrainFate(n.flow, Table(y), LOST, x);
      DrainFate(Drain(n.flow, Table(y), LOST), BackendQueue(y), Dropped, x);
    case Orphan(y) => DrainFate(n.flow, Table(y), Sent(Err("dispatcher gone")), x);
    case EndDispatcher => DrainFate(n.flow, DispatchQueue, Dropped, x);
  }

  lemma StepFate(backends: set<Name>, n: Net, s: Step, x: Id)
    requires Linear(n.flow) && Enabled(backends, n, s)
    ensures FateOf(Next(backends, n, s).flow.slots, x)
            == AfterStep(backends, n, s, x, FateOf(n.flow.slots, x))
  {
    hide Linear, Drain, ResponseOf, Rejections, Handled, ReplyOutcome;
    if s.Take? || s.Judge? || s.DropDenied? || s.Forward? || s.CloseWorker? {
      WorkerFate(backends, n, s, x);
    } else if s.Deliver? {
      DeliverFate(backends, n, s, x);
    } else if s.Reply? {
      ReplyFate(backends, n, s, x);
    } else if s.Bounce? || s.Disconnect? || s.EndBackend? || s.Orphan? || s.EndDispatcher? {
      BackendFate(backends, n, s, x);
    }
  }

  /** In every run each request fares exactly as the steps that touch it say. */
  lemma {:induction false} FatesFollowTheSteps(backends: set<Name>, ss: seq<Step>, x: Id)
    requires Run(backends, ss)
    ensures FateOf(Exec(backends, ss).flow.slots, x) == Life(backends, ss, x)
    decreases |ss|
  {
    if ss != [] {
      FatesFollowTheSteps(backends, Init(ss), x);
      RunKeepsInvariant(backends, Init(ss));
      hide Next, Enabled, AfterStep, Linear, Staged, DeskOk, Delivering;
      StepFate(backends, Exec(backends, Init(ss)), Last(ss), x);
    }
  }

  /** Every answer but a reload's, to a request that was not refused, tells what became of it: its
      backend's reply, the error of the step that gave it up, or that its handler is gone exactly when
      its token was dropped. */
  lemma AnswersTellTheFate(backends: set<Name>, ss: seq<Step>, k: nat)
    requires Run(backends, ss) && k < |Exec(backends, ss).desk.answers|
    requires Exec(backends, ss).desk.answers[k].id !in Refusals(backends, ss)
    ensures var a := Exec(backends, ss).desk.answers[k];
            || a.response == Response(false, "node is reloading; retry shortly")
            || (match Life(backends, ss, a.id)
                case Told(response) => a.response == response
                case Gone => a.response == Response(false, "request handler dropped")
                case _ => false)
  {
    AnswersAreOutcomes(backends, ss, k);
    FatesFollowTheSteps(backends, ss, Exec(backends, ss).desk.answers[k].id);
    hide Exec, Run, Life, Refusals;
  }

  // ---- the pending table and the wire ----

  // The entry of a request that has arrived and has since been neither handled, nor closed with its
  // connection, nor rejected by a reload.
  ghost function Open(backends: set<Name>, ss: seq<Step>, x: Id): Option<Entry>
    requires Run(backends, ss)
    decreases |ss|
  {
    if ss == [] then None else
      var before, queue := Open(backends, Init(ss), x), Exec(backends, Init(ss)).desk.commands;
      match Last(ss)
      case Arrive(id, _, _, entry) => if id == x then Some(entry) else before
      case Handle(_) => if queue != [] && queue[0].id == x then None else before
      case CloseConnection(connection) => if before.Some? && before.value.connection == connection then None else before
      case Reload(_, _) => None
      case _ => before
  }

  // What has been put on the wire for a request: the first command handled while it was open, unless its
  // reply had to be sealed and could not be; or the reload's rejection.
  ghost function Answer(backends: set<Name>, ss: seq<Step>, x: Id): Option<Response>
    requires Run(backends, ss)
    decreases |ss|
  {
    if ss == [] then None else
      var entry, queue := Open(backends, Init(ss), x), Exec(backends, Init(ss)).desk.commands;
      match Last(ss)
      case Handle(sealable) =>
        if queue != [] && queue[0].id == x && entry.Some? && (entry.value.sealed ==> sealable)
        then Some(queue[0].response) else Answer(backends, Init(ss), x)
      case Reload(_, unsealable) =>
        if entry.Some? && (entry.value.sealed ==> x !in unsealable)
        then Some(Response(false, "node is reloading; retry shortly")) else Answer(backends, Init(ss), x)
      case _ => Answer(backends, Init(ss), x)
  }

  function EntryOf(pending: map<Id, Entry>, x: Id): Option<Entry> {
    if x in pending then Some(pending[x]) else None
  }

  lemma {:induction false} RejectionsIff(order: seq<Id>, pending: map<Id, Entry>, unsealable: set<Id>, c: Command)
    ensures c in Rejections(order, pending, unsealable) <==>
            && c.id in order && c.response == Response(false, "node is reloading; retry shortly")
            && !(c.id in pending && pending[c.id].sealed && c.id in unsealable)
  {
    if order != [] {
      RejectionsIff(order[1..], pending, unsealable, c);
    }
  }

  lemma StepDesk(backends: set<Name>, n: Net, s: Step, x: Id, r: Response)
    requires Enabled(backends, n, s)
    ensures var d, e := n.desk, Next(backends, n, s).desk; var before := EntryOf(d.pending, x);
            match s
            case Arrive(id, _, _, entry) =>
              e.answers == d.answers && EntryOf(e.pending, x) == if id == x then Some(entry) else before
            case Handle(sealable) =>
              && EntryOf(e.pending, x) == (if d.commands[0].id == x then None else before)
              && (Command(x, r) in e.answers <==>
                    || Command(x, r) in d.answers
                    || (d.commands[0] == Command(x, r) && before.Some? && (before.value.sealed ==> sealable)))
            case CloseConnection(connection) =>
              && e.answers == d.answers
              && EntryOf(e.pending, x)
                 == if before.Some? && before.value.connection == connection then None else before
            case Reload(_, unsealable) =>
              && EntryOf(e.pending, x) == None
              && (Command(x, r) in e.answers <==>
                    || Command(x, r) in d.answers
                    || (before.Some? && (before.value.sealed ==> x !in unsealable)
                        && r == Response(false, "node is reloading; retry shortly")))
            case _ => e.answers == d.answers && e.pending == d.pending
  {
    hide Drain, Dispatched, ResponseOf, ReplyOutcome, Rejections, Move, Consume;
    if s.Reload? {
      RejectionsIff(s.order, n.desk.pending, s.unsealable, Command(x, r));
    }
  }

  // A request is open only while it has no answer.
  lemma OpenIsUnanswered(backends: set<Name>, ss: seq<Step>, x: Id, r: Response)
    requires Run(backends, ss) && x in Exec(backends, ss).desk.pending
    ensures Command(x, r) !in Exec(backends, ss).desk.answers
  {
    AnsweredAtMostOnce(backends, ss);
    hide Exec;
  }

  /** The pending table holds exactly the requests that are open, and the wire exactly their answers:
      the first reply handled while the request was open, or the reload's rejection. */
  lemma {:induction false} WireFollowsTheSteps(backends: set<Name>, ss: seq<Step>, x: Id, r: Response)
    requires Run(backends, ss)
    ensures EntryOf(Exec(backends, ss).desk.pending, x) == Open(backends, ss, x)
    ensures Command(x, r) in Exec(backends, ss).desk.answers <==> Answer(backends, ss, x) == Some(r)
    decreases |ss|, 0
  {
    if ss != [] {
      var n := Exec(backends, Init(ss));
      WireFollowsTheSteps(backends, Init(ss), x, r);
      hide Next;
      StepDesk(backends, n, Last(ss), x, r);
      if x in n.desk.pending {
        OpenIsUnanswered(backends, Init(ss), x, r);
        NoAnswerYet(backends, Init(ss), x);
      }
    }
  }

  lemma NoAnswerYet(backends: set<Name>, ss: seq<Step>, x: Id)
    requires Run(backends, ss) && x in Exec(backends, ss).desk.pending
    ensures Answer(backends, ss, x) == None
    decreases |ss|, 1
  {
    if Answer(backends, ss, x).Some? {
      WireFollowsTheSteps(backends, ss, x, Answer(backends, ss, x).value);
      OpenIsUnanswered(backends, ss, x, Answer(backends, ss, x).value);
    }
  }

  // ---- the hub ----

  function HubStep(h: Hub, s: Step): Hub {
    match s
    case EnqueueAuth => h.(next := (h.next + 1) % 0x1_0000_0000_0000_0000)
    case CloseWorker(w) => h.(closed := h.closed + {w})
    case EndDispatcher => h.(dispatcherUp := false)
    case Connect(x) => h.(connected := h.connected + {x})
    case Deliver(x, _, Some(_)) => h.(connected := h.connected - {x})
    case Disconnect(x) => h.(connected := h.connected - {x})
    case EndBackend(x) => h.(connected := h.connected - {x}, ended := h.ended + {x})
    case Orphan(x) => h.(connected := h.connected - {x}, ended := h.ended + {x})
    case _ => h
  }

  // The round-robin turn, closed workers, dispatcher and backend connections, by the steps alone.
  function HubAfter(ss: seq<Step>): Hub
    decreases |ss|
  {
    if ss == [] then Hub(0, {}, true, {}, {}) else HubStep(HubAfter(Init(ss)), Last(ss))
  }

  lemma NextHub(backends: set<Name>, n: Net, s: Step)
    requires Enabled(backends, n, s)
    ensures Next(backends, n, s).hub == HubStep(n.hub, s)
  {
    hide Drain, Dispatched, ResponseOf, ReplyOutcome, Rejections, Handled, Move, Consume, Find, Without;
  }

  /** The hub is what the steps alone make of it: whose turn it is, which workers and backends are gone,
      and which are connected. */
  lemma {:induction false} HubFollowsTheSteps(backends: set<Name>, ss: seq<Step>)
    requires Run(backends, ss)
    ensures Exec(backends, ss).hub == HubAfter(ss)
    decreases |ss|
  {
    if ss != [] {
      hide Next, Enabled, HubStep;
      HubFollowsTheSteps(backends, Init(ss));
      NextHub(backends, Exec(backends, Init(ss)), Last(ss));
    }
  }
}
