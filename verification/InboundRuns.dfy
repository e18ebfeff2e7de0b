/** What every run of the inbound path keeps: tokens are linear, each request is
    answered at most once and never lost, refusals keep their text, and only
    allowed requests reach a backend. */
module InboundRuns {
  import opened Names
  import opened Options
  import opened ReplyFlow
  import opened Inbound

  // ---- the invariant ----

  // Past the authorization verdict.
  predicate Cleared(p: Place) {
    p.Forwarding? || p.DispatchQueue? || p.BackendQueue? || p.Table?
  }

  // Refused, and about to be dropped.
  predicate Doomed(p: Place) {
    p.Refused? || p.Denied?
  }

  ghost predicate SlotOk(x: Id, slot: Slot, h: History) {
    if slot.Waiting? then (Cleared(slot.at) ==> x in h.allowed) && (x in h.refused <==> Doomed(slot.at))
        && x !in h.woken
    else x in h.refused ==> slot == Dropped
  }

  ghost predicate Staged(slots: map<Id, Slot>, h: History) {
    && (forall x :: x in slots ==> SlotOk(x, slots[x], h))
    && h.woken <= slots.Keys && h.allowed <= slots.Keys && h.refused.Keys <= slots.Keys
  }

  // The response of the first queued command for `x`.
  function Earliest(cs: seq<Command>, x: Id): Option<Response> {
    if cs == [] then None else if cs[0].id == x then Some(cs[0].response) else Earliest(cs[1..], x)
  }

  ghost predicate Posted(c: Command, h: History, slots: map<Id, Slot>) {
    c.id in slots && c.id in h.woken && c.response == ResponseOf(slots[c.id])
  }

  // Every queued command is a refusal or what a waiter posted.
  ghost predicate Explained(c: Command, h: History, slots: map<Id, Slot>) {
    c.id in slots && ((c.id in h.refused && c.response == h.refused[c.id]) || Posted(c, h, slots))
  }

  ghost predicate PendingOk(x: Id, cs: seq<Command>, h: History, slots: map<Id, Slot>) {
    && x in slots
    && (x in h.refused ==> Earliest(cs, x) == Some(h.refused[x]))
    && (Earliest(cs, x).Some? || x !in h.woken)
  }

  // A reply on the wire is the reload rejection, the request's refusal, or what its token was resolved with.
  ghost predicate AnswerOk(a: Command, h: History, slots: map<Id, Slot>) {
    && a.id in slots
    && (a.response == RELOADING || (if a.id in h.refused then a.response == h.refused[a.id] else Posted(a, h, slots)))
  }

  ghost predicate DistinctIds(s: seq<Command>) {
    forall i, j :: 0 <= i < j < |s| ==> s[i].id != s[j].id
  }

  ghost predicate DeskOk(d: Desk, h: History, slots: map<Id, Slot>) {
    && (forall k :: 0 <= k < |d.commands| ==> Explained(d.commands[k], h, slots))
    && (forall x :: x in d.pending ==> PendingOk(x, d.commands, h, slots))
    && (forall k :: 0 <= k < |d.answers| ==> AnswerOk(d.answers[k], h, slots) && d.answers[k].id !in d.pending)
    && DistinctIds(d.answers)
  }

  ghost predicate DeliveredOk(x: Id, h: History, slots: map<Id, Slot>) {
    x in slots && x in h.allowed && (slots[x].Waiting? ==> slots[x].at.Table?)
  }

  ghost predicate Delivering(h: History, slots: map<Id, Slot>) {
    && (forall k :: 0 <= k < |h.delivered| ==> DeliveredOk(h.delivered[k], h, slots))
    && (forall i, j :: 0 <= i < j < |h.delivered| ==> h.delivered[i] != h.delivered[j])
  }

  ghost predicate Inv(n: Net) {
    && Linear(n.flow) && Staged(n.flow.slots, n.hist) && DeskOk(n.desk, n.hist, n.flow.slots)
    && Delivering(n.hist, n.flow.slots)
  }

  // ---- the command queue ----

  lemma {:induction false} EarliestAppend(cs: seq<Command>, c: Command, x: Id)
    ensures Earliest(cs + [c], x) ==
            if Earliest(cs, x).Some? then Earliest(cs, x) else if c.id == x then Some(c.response) else None
  {
    if cs == [] {
      assert cs + [c] == [c];
    } else {
      assert (cs + [c])[1..] == cs[1..] + [c];
      EarliestAppend(cs[1..], c, x);
    }
  }

  lemma {:induction false} EarliestIsQueued(cs: seq<Command>, x: Id)
    ensures Earliest(cs, x).Some? ==> exists k :: 0 <= k < |cs| && cs[k].id == x
  {
    if cs != [] {
      EarliestIsQueued(cs[1..], x);
      if cs[0].id != x && Earliest(cs[1..], x).Some? {
        var k :| 0 <= k < |cs[1..]| && cs[1..][k].id == x;
        assert cs[k + 1].id == x;
      }
    }
  }

  // ---- tokens move or are resolved ----

  // The slots a waiter has already read do not change.
  ghost predicate SlotsKept(h: History, slots: map<Id, Slot>, slots': map<Id, Slot>) {
    slots.Keys <= slots'.Keys && forall x :: x in h.woken && x in slots ==> slots'[x] == slots[x]
  }

  lemma DeskFrame(d: Desk, h: History, h': History, slots: map<Id, Slot>, slots': map<Id, Slot>)
    requires DeskOk(d, h, slots) && SlotsKept(h, slots, slots')
    requires h'.woken == h.woken && h'.refused == h.refused
    ensures DeskOk(d, h', slots')
  {
    hide ResponseOf, Earliest;
    forall k | 0 <= k < |d.commands| ensures Explained(d.commands[k], h', slots') {
      assert Explained(d.commands[k], h, slots);
    }
    forall k | 0 <= k < |d.answers| ensures AnswerOk(d.answers[k], h', slots') {
      assert AnswerOk(d.answers[k], h, slots);
    }
  }

  lemma HeadWaits(f: Flow, p: Place, i: nat)
    requires Linear(f) && i < |At(f, p)|
    ensures At(f, p)[i].id in f.slots && f.slots[At(f, p)[i].id] == Waiting(p)
  {
    assert Listed(f.slots, p, At(f, p));
  }

  // History `h'` differs from `h` for request `x` only.
  ghost predicate Concerns(h: History, h': History, x: Id) {
    && h'.woken == h.woken
    && h.allowed <= h'.allowed <= h.allowed + {x}
    && h'.refused.Keys <= h.refused.Keys + {x}
    && forall y :: y in h.refused && y != x ==> y in h'.refused && h'.refused[y] == h.refused[y]
  }

  lemma StagedSet(slots: map<Id, Slot>, h: History, h': History, x: Id, slot: Slot)
    requires Staged(slots, h) && x in slots && slots[x].Waiting? && Concerns(h, h', x) && SlotOk(x, slot, h')
    ensures Staged(slots[x := slot], h')
  {
    forall y | y in slots ensures SlotOk(y, slots[x := slot][y], h') {
      assert SlotOk(y, slots[y], h);
    }
  }

  lemma DeliveringSet(slots: map<Id, Slot>, h: History, h': History, x: Id, slot: Slot)
    requires Delivering(h, slots) && x in slots && h.allowed <= h'.allowed
    requires slots[x].Waiting? && (!slots[x].at.Table? || !slot.Waiting?)
    requires h'.delivered == h.delivered
        || (h'.delivered == h.delivered + [x] && x in h'.allowed && !slots[x].at.Table?)
    requires h'.delivered != h.delivered && slot.Waiting? ==> slot.at.Table?
    ensures Delivering(h', slots[x := slot])
  {
    forall k | 0 <= k < |h.delivered| ensures DeliveredOk(h.delivered[k], h', slots[x := slot]) {
      assert DeliveredOk(h.delivered[k], h, slots);
    }
    forall k | 0 <= k < |h.delivered| && !slots[x].at.Table? ensures h.delivered[k] != x {
      assert DeliveredOk(h.delivered[k], h, slots);
    }
  }

  // What `MoveKeeps` and `ConsumeKeeps` do to the parts that do not depend on places.
  lemma SetKeeps(n: Net, f: Flow, h: History, x: Id, slot: Slot)
    requires Inv(n) && Linear(f) && x in n.flow.slots && f.slots == n.flow.slots[x := slot]
    requires Concerns(n.hist, h, x) && h.refused == n.hist.refused && SlotOk(x, slot, h)
    requires n.flow.slots[x].Waiting? && (!n.flow.slots[x].at.Table? || !slot.Waiting?)
    requires h.delivered == n.hist.delivered ||
             (h.delivered == n.hist.delivered + [x] && x in h.allowed && !n.flow.slots[x].at.Table?)
    requires h.delivered != n.hist.delivered && slot.Waiting? ==> slot.at.Table?
    ensures Inv(n.(flow := f, hist := h))
  {
    var slots := n.flow.slots;
    assert x !in n.hist.woken by {
      assert SlotOk(x, slots[x], n.hist);
    }
    StagedSet(slots, n.hist, h, x, slot);
    DeliveringSet(slots, n.hist, h, x, slot);
    DeskFrame(n.desk, n.hist, h, slots, f.slots);
    hide Linear, Staged, DeskOk, Delivering;
  }

  // A token goes on, not into a place for refused ones.
  lemma MoveKeeps(n: Net, p: Place, q: Place, wire: Option<Wire>, h: History)
    requires Inv(n) && At(n.flow, p) != [] && p != q && !Doomed(p) && !Doomed(q) && !p.Table?
    requires var x := At(n.flow, p)[0].id;
             h == n.hist.(allowed := if p.Judging? then n.hist.allowed + {x} else n.hist.allowed,
                          delivered := if q.Table? then n.hist.delivered + [x] else n.hist.delivered)
    requires Cleared(q) ==> Cleared(p) || p.Judging?
    requires q.Table? ==> Cleared(p)
    ensures Inv(n.(flow := Move(n.flow, p, 0, q, wire), hist := h))
  {
    var x := At(n.flow, p)[0].id;
    MoveLinear(n.flow, p, 0, q, wire);
    HeadWaits(n.flow, p, 0);
    assert SlotOk(x, n.flow.slots[x], n.hist);
    hide Linear, Inv, Inbound.ReplyOutcome;
    SetKeeps(n, Move(n.flow, p, 0, q, wire), h, x, Waiting(q));
  }

  lemma ConsumeKeeps(n: Net, p: Place, i: nat, slot: Slot, h: History)
    requires Inv(n) && i < |At(n.flow, p)| && !slot.Waiting? && (Doomed(p) ==> slot == Dropped)
    requires h == n.hist || (h == n.hist.(delivered := n.hist.delivered + [At(n.flow, p)[i].id]) && Cleared(p)
        && !p.Table?)
    ensures Inv(n.(flow := Consume(n.flow, p, i, slot), hist := h))
  {
    var x := At(n.flow, p)[i].id;
    ConsumeLinear(n.flow, p, i, slot);
    HeadWaits(n.flow, p, i);
    assert SlotOk(x, n.flow.slots[x], n.hist);
    hide Linear, Inv;
    SetKeeps(n, Consume(n.flow, p, i, slot), h, x, slot);
  }

  lemma {:induction false} DrainKeeps(n: Net, p: Place, slot: Slot)
    requires Inv(n) && !slot.Waiting? && (Doomed(p) ==> slot == Dropped)
    ensures Inv(n.(flow := Drain(n.flow, p, slot)))
    decreases |At(n.flow, p)|
  {
    hide Inv;
    if At(n.flow, p) != [] {
      ConsumeKeeps(n, p, 0, slot, n.hist);
      assert n.(flow := Consume(n.flow, p, 0, slot), hist := n.hist) == n.(flow := Consume(n.flow, p, 0, slot));
      DrainKeeps(n.(flow := Consume(n.flow, p, 0, slot)), p, slot);
    }
  }

  // ---- commands are posted and handled ----

  // Neither refused nor woken, so nothing is queued for `x` yet.
  lemma NothingQueued(d: Desk, h: History, slots: map<Id, Slot>, x: Id)
    requires DeskOk(d, h, slots) && x !in h.refused && x !in h.woken
    ensures Earliest(d.commands, x) == None
  {
    EarliestIsQueued(d.commands, x);
    if k :| 0 <= k < |d.commands| && d.commands[k].id == x {
      assert Explained(d.commands[k], h, slots);
    }
  }

  lemma DeskRefuse(d: Desk, h: History, slots: map<Id, Slot>, x: Id, r: Response, slot: Slot)
    requires DeskOk(d, h, slots) && x in slots && x !in h.refused && x !in h.woken
    ensures DeskOk(d.(commands := d.commands + [Command(x, r)]), h.(refused := h.refused[x := r]), slots[x := slot])
  {
    var h', slots', cs := h.(refused := h.refused[x := r]), slots[x := slot], d.commands + [Command(x, r)];
    NothingQueued(d, h, slots, x);
    hide Earliest, ResponseOf;
    forall k | 0 <= k < |cs| ensures Explained(cs[k], h', slots') {
      if k < |d.commands| {
        assert Explained(d.commands[k], h, slots);
      }
    }
    forall y | y in d.pending ensures PendingOk(y, cs, h', slots') {
      assert PendingOk(y, d.commands, h, slots);
      EarliestAppend(d.commands, Command(x, r), y);
    }
    forall k | 0 <= k < |d.answers| ensures AnswerOk(d.answers[k], h', slots') {
      assert AnswerOk(d.answers[k], h, slots);
    }
  }

  lemma RefuseKeeps(n: Net, p: Place, q: Place, text: string)
    requires Inv(n) && At(n.flow, p) != [] && p != q && !Doomed(p) && Doomed(q) && !p.Table?
    ensures Inv(Refuse(n, p, q, text))
  {
    var x, slots := At(n.flow, p)[0].id, n.flow.slots;
    MoveLinear(n.flow, p, 0, q, None);
    HeadWaits(n.flow, p, 0);
    assert SlotOk(x, slots[x], n.hist);
    var h := n.hist.(refused := n.hist.refused[x := Fail(text)]);
    DeskRefuse(n.desk, n.hist, slots, x, Fail(text), Waiting(q));
    StagedSet(slots, n.hist, h, x, Waiting(q));
    DeliveringSet(slots, n.hist, h, x, Waiting(q));
    hide Linear, Staged, DeskOk, Delivering;
  }

  lemma ArriveKeeps(n: Net, t: Token, entry: Entry)
    requires Inv(n) && t.id !in n.flow.slots
    ensures Inv(n.(flow := Begin(n.flow, t), desk := n.desk.(pending := n.desk.pending[t.id := entry])))
  {
    var slots, d := n.flow.slots, n.desk;
    var slots', d' := slots[t.id := Waiting(Events)], d.(pending := d.pending[t.id := entry]);
    BeginLinear(n.flow, t);
    NothingQueued(d, n.hist, slots, t.id);
    DeskFrame(d, n.hist, n.hist, slots, slots');
    assert Staged(slots', n.hist);
    assert DeskOk(d', n.hist, slots') by {
      hide Earliest, ResponseOf;
      forall k | 0 <= k < |d.answers| ensures d.answers[k].id != t.id {
        assert AnswerOk(d.answers[k], n.hist, slots);
      }
    }
    assert Delivering(n.hist, slots') by {
      forall k | 0 <= k < |n.hist.delivered| ensures DeliveredOk(n.hist.delivered[k], n.hist, slots') {
        assert DeliveredOk(n.hist.delivered[k], n.hist, slots);
      }
    }
    hide Linear, Staged, DeskOk, Delivering;
  }

  lemma DeskWake(d: Desk, h: History, slots: map<Id, Slot>, x: Id)
    requires DeskOk(d, h, slots) && x in slots
    ensures DeskOk(d.(commands := d.commands + [Command(x, ResponseOf(slots[x]))]), h.(woken := h.woken + {x}), slots)
  {
    var c := Command(x, ResponseOf(slots[x]));
    var h', cs := h.(woken := h.woken + {x}), d.commands + [c];
    hide Earliest, ResponseOf;
    forall k | 0 <= k < |cs| ensures Explained(cs[k], h', slots) {
      if k < |d.commands| {
        assert Explained(d.commands[k], h, slots);
      }
    }
    forall y | y in d.pending ensures PendingOk(y, cs, h', slots) {
      assert PendingOk(y, d.commands, h, slots);
      EarliestAppend(d.commands, c, y);
    }
    forall k | 0 <= k < |d.answers| ensures AnswerOk(d.answers[k], h', slots) {
      assert AnswerOk(d.answers[k], h, slots);
    }
  }

  lemma WakeKeeps(n: Net, x: Id)
    requires Inv(n) && x in n.flow.slots && !n.flow.slots[x].Waiting?
    ensures Inv(n.(desk := n.desk.(commands := n.desk.commands + [Command(x, ResponseOf(n.flow.slots[x]))]),
                   hist := n.hist.(woken := n.hist.woken + {x})))
  {
    DeskWake(n.desk, n.hist, n.flow.slots, x);
    var h := n.hist.(woken := n.hist.woken + {x});
    assert Staged(n.flow.slots, h) by {
      forall y | y in n.flow.slots ensures SlotOk(y, n.flow.slots[y], h) {
        assert SlotOk(y, n.flow.slots[y], n.hist);
      }
    }
    assert Delivering(h, n.flow.slots) by {
      forall k | 0 <= k < |h.delivered| ensures DeliveredOk(h.delivered[k], h, n.flow.slots) {
        assert DeliveredOk(h.delivered[k], n.hist, n.flow.slots);
      }
    }
    hide Linear, Staged, DeskOk, Delivering, ResponseOf;
  }

  lemma HandleKeeps(d: Desk, h: History, slots: map<Id, Slot>, sealable: bool)
    requires DeskOk(d, h, slots) && d.commands != []
    ensures DeskOk(Handled(d, sealable), h, slots)
  {
    var c, d' := d.commands[0], Handled(d, sealable);
    hide ResponseOf;
    assert Explained(c, h, slots);
    if c.id in d.pending {
      assert PendingOk(c.id, d.commands, h, slots);
    }
    forall k | 0 <= k < |d'.commands| ensures Explained(d'.commands[k], h, slots) {
      assert Explained(d.commands[k + 1], h, slots);
    }
    forall y | y in d'.pending ensures PendingOk(y, d'.commands, h, slots) {
      assert PendingOk(y, d.commands, h, slots);
    }
    forall k | 0 <= k < |d'.answers| ensures AnswerOk(d'.answers[k], h, slots) {
      if k < |d.answers| {
        assert AnswerOk(d.answers[k], h, slots);
      }
    }
  }

  lemma {:induction false} RejectionsAre(order: seq<Id>, pending: map<Id, Entry>, unsealable: set<Id>)
    requires forall i, j :: 0 <= i < j < |order| ==> order[i] != order[j]
    ensures var r := Rejections(order, pending, unsealable);
            && (forall k :: 0 <= k < |r| ==> r[k].id in order && r[k].response == RELOADING)
            && DistinctIds(r)
  {
    if order != [] {
      RejectionsAre(order[1..], pending, unsealable);
    }
  }

  lemma ReloadKeeps(d: Desk, h: History, slots: map<Id, Slot>, order: seq<Id>, unsealable: set<Id>)
    requires DeskOk(d, h, slots) && Enumerates(order, d.pending)
    ensures DeskOk(d.(pending := map[], answers := d.answers + Rejections(order, d.pending, unsealable)), h, slots)
  {
    var r := Rejections(order, d.pending, unsealable);
    RejectionsAre(order, d.pending, unsealable);
    hide ResponseOf, Earliest, Rejections;
    var answers := d.answers + r;
    forall k | 0 <= k < |answers| ensures AnswerOk(answers[k], h, slots) {
      if k < |d.answers| {
        assert AnswerOk(d.answers[k], h, slots);
      } else {
        assert answers[k] == r[k - |d.answers|];
        assert PendingOk(answers[k].id, d.commands, h, slots);
      }
    }
  }

  // ---- every step keeps the invariant ----

  lemma HubFree(n: Net, hub: Hub)
    requires Inv(n)
    ensures Inv(n.(hub := hub))
  {
  }

  lemma EnqueueKeeps(n: Net)
    requires Inv(n) && At(n.flow, Events) != []
    ensures Inv(Enqueued(n))
  {
    var w := n.hub.next % AUTH_WORKERS;
    var m := n.(hub := n.hub.(next := (n.hub.next + 1) % USIZE_MODULUS));
    HubFree(n, m.hub);
    hide Inv;
    if w in n.hub.closed {
      RefuseKeeps(m, Events, Refused, "authentication unavailable");
    } else if |At(n.flow, AuthQueue(w))| >= AUTH_QUEUE_CAPACITY {
      RefuseKeeps(m, Events, Refused, "authentication overloaded");
    } else {
      MoveKeeps(m, Events, AuthQueue(w), None, m.hist);
    }
  }

  lemma WorkerStepKeeps(backends: set<Name>, n: Net, s: Step)
    requires Inv(n) && Enabled(backends, n, s)
    requires s.Take? || s.Judge? || s.DropDenied? || s.Forward? || s.CloseWorker?
    ensures Inv(Next(backends, n, s))
  {
    hide Inv, Drain;
    var w := s.worker;
    match s
    case Take(_) => MoveKeeps(n, AuthQueue(w), Judging(w), None, n.hist);
    case Judge(_, decision) =>
      if decision.Deny? {
        RefuseKeeps(n, Judging(w), Denied(w), "unauthorized: " + decision.reason);
      } else {
        MoveKeeps(n, Judging(w), Forwarding(w), None,
            n.hist.(allowed := n.hist.allowed + {At(n.flow, Judging(w))[0].id}));
      }
    case DropDenied(_) => ConsumeKeeps(n, Denied(w), 0, Dropped, n.hist);
    case Forward(_) =>
      if n.hub.dispatcherUp {
        MoveKeeps(n, Forwarding(w), DispatchQueue, None, n.hist);
      } else {
        RefuseKeeps(n, Forwarding(w), Denied(w), "service unavailable: channel closed");
      }
    case CloseWorker(_) =>
      DrainKeeps(n, AuthQueue(w), Dropped);
      var n1 := n.(flow := Drain(n.flow, AuthQueue(w), Dropped));
      DrainKeeps(n1, Judging(w), Dropped);
      var n2 := n.(flow := Drain(n1.flow, Judging(w), Dropped));
      DrainKeeps(n2, Forwarding(w), Dropped);
      var n3 := n.(flow := Drain(n2.flow, Forwarding(w), Dropped));
      DrainKeeps(n3, Denied(w), Dropped);
      HubFree(n.(flow := WorkerGone(n.flow, w)), Next(backends, n, s).hub);
  }

  lemma DispatchKeeps(backends: set<Name>, n: Net, others: nat)
    requires Inv(n) && At(n.flow, DispatchQueue) != []
    ensures Inv(n.(flow := Dispatched(backends, n, others)))
  {
    hide Inv;
    var x := At(n.flow, DispatchQueue)[0].service;
    ConsumeKeeps(n, DispatchQueue, 0, Sent(Err("No backend for service " + x)), n.hist);
    ConsumeKeeps(n, DispatchQueue, 0, Sent(Err("backend overloaded " + x)), n.hist);
    MoveKeeps(n, DispatchQueue, BackendQueue(x), None, n.hist);
  }

  lemma DeliverKeeps(n: Net, x: Name, wire: Wire, error: Option<string>)
    requires Inv(n) && At(n.flow, BackendQueue(x)) != []
    ensures Inv(Delivered(n, x, wire, error))
  {
    hide Inv, Drain;
    var h := n.hist.(delivered := n.hist.delivered + [At(n.flow, BackendQueue(x))[0].id]);
    match error
    case None => MoveKeeps(n, BackendQueue(x), Table(x), Some(wire), h);
    case Some(e) =>
      var slot := Sent(Err("write to backend failed: " + e));
      ConsumeKeeps(n, BackendQueue(x), 0, slot, h);
      var m := n.(flow := Consume(n.flow, BackendQueue(x), 0, slot), hist := h);
      DrainKeeps(m, Table(x), LOST);
      HubFree(m.(flow := Drain(m.flow, Table(x), LOST)), n.hub.(connected := n.hub.connected - {x}));
  }

  lemma BackendStepKeeps(backends: set<Name>, n: Net, s: Step)
    requires Inv(n) && Enabled(backends, n, s)
    requires s.Bounce? || s.Reply? || s.Disconnect? || s.EndBackend? || s.Orphan?
    ensures Inv(Next(backends, n, s))
  {
    hide Inv, Drain, ReplyOutcome;
    var x := s.service;
    match s
    case Bounce(_) => ConsumeKeeps(n, BackendQueue(x), 0, Sent(Err("backend not connected: " + x)), n.hist);
    case Reply(_, wire, ok, result, error) =>
      var i := Find(At(n.flow, Table(x)), wire);
      if i < |At(n.flow, Table(x))| {
        ConsumeKeeps(n, Table(x), i, Sent(ReplyOutcome(ok, result, error)), n.hist);
      }
    case Disconnect(_) =>
      DrainKeeps(n, Table(x), LOST);
      HubFree(n.(flow := Drain(n.flow, Table(x), LOST)), Next(backends, n, s).hub);
    case EndBackend(_) =>
      DrainKeeps(n, Table(x), LOST);
      var m := n.(flow := Drain(n.flow, Table(x), LOST));
      DrainKeeps(m, BackendQueue(x), Dropped);
      HubFree(m.(flow := Drain(m.flow, BackendQueue(x), Dropped)), Next(backends, n, s).hub);
    case Orphan(_) =>
      DrainKeeps(n, Table(x), Sent(Err("dispatcher gone")));
      HubFree(n.(flow := Drain(n.flow, Table(x), Sent(Err("dispatcher gone")))), Next(backends, n, s).hub);
  }

  lemma ActorStepKeeps(backends: set<Name>, n: Net, s: Step)
    requires Inv(n) && Enabled(backends, n, s)
    requires s.Handle? || s.CloseConnection? || s.Reload?
    ensures Inv(Next(backends, n, s))
  {
    hide Linear, Staged, Delivering, Handled, Rejections;
    match s
    case Handle(sealable) => HandleKeeps(n.desk, n.hist, n.flow.slots, sealable);
    case CloseConnection(_) =>
    case Reload(order, unsealable) => ReloadKeeps(n.desk, n.hist, n.flow.slots, order, unsealable);
  }

  lemma StepKeeps(backends: set<Name>, n: Net, s: Step)
    requires Inv(n) && Enabled(backends, n, s)
    ensures Inv(Next(backends, n, s))
  {
    hide Inv, Drain, Enqueued, Dispatched, Delivered, ResponseOf;
    match s
    case Arrive(id, service, payload, entry) => ArriveKeeps(n, Token(id, service, payload, None), entry);
    case EnqueueAuth => EnqueueKeeps(n);
    case DropRefused => ConsumeKeeps(n, Refused, 0, Dropped, n.hist);
    case Dispatch(others) => DispatchKeeps(backends, n, others);
    case EndDispatcher =>
      DrainKeeps(n, DispatchQueue, Dropped);
      HubFree(n.(flow := Drain(n.flow, DispatchQueue, Dropped)), Next(backends, n, s).hub);
    case Connect(_) => HubFree(n, Next(backends, n, s).hub);
    case Deliver(x, wire, error) => DeliverKeeps(n, x, wire, error);
    case Wake(x) => WakeKeeps(n, x);
    case _ =>
      if s.Handle? || s.CloseConnection? || s.Reload? {
        ActorStepKeeps(backends, n, s);
      } else if s.Take? || s.Judge? || s.DropDenied? || s.Forward? || s.CloseWorker? {
        WorkerStepKeeps(backends, n, s);
      } else {
        BackendStepKeeps(backends, n, s);
      }
  }

  // ---- runs ----

  function Init(ss: seq<Step>): seq<Step>
    requires ss != []
  {
    ss[..|ss| - 1]
  }

  function Last(ss: seq<Step>): Step
    requires ss != []
  {
    ss[|ss| - 1]
  }

  ghost function Exec(backends: set<Name>, ss: seq<Step>): Net
    requires Run(backends, ss)
    decreases |ss|, 1
  {
    if ss == [] then START else Next(backends, Exec(backends, Init(ss)), Last(ss))
  }

  ghost predicate Run(backends: set<Name>, ss: seq<Step>)
    decreases |ss|, 0
  {
    ss != [] ==> Run(backends, Init(ss)) && Enabled(backends, Exec(backends, Init(ss)), Last(ss))
  }

  lemma {:induction false} RunKeepsInvariant(backends: set<Name>, ss: seq<Step>)
    requires Run(backends, ss)
    ensures Inv(Exec(backends, ss))
    decreases |ss|
  {
    if ss != [] {
      hide Inv, Next, Enabled;
      RunKeepsInvariant(backends, Init(ss));
      StepKeeps(backends, Exec(backends, Init(ss)), Last(ss));
    }
  }

  // The refusal a step hands out, read off the state and the step alone.
  ghost function Refusal(n: Net, s: Step): Option<Command> {
    match s
    case EnqueueAuth =>
      if At(n.flow, Events) == [] then None
      else if n.hub.next % 4 in n.hub.closed then
        Some(Command(At(n.flow, Events)[0].id, Response(false, "authentication unavailable")))
      else if |At(n.flow, AuthQueue(n.hub.next % 4))| >= 32 then
        Some(Command(At(n.flow, Events)[0].id, Response(false, "authentication overloaded")))
      else None
    case Judge(w, Deny(reason)) =>
      if At(n.flow, Judging(w)) == [] then None
      else Some(Command(At(n.flow, Judging(w))[0].id, Response(false, "unauthorized: " + reason)))
    case Forward(w) =>
      if At(n.flow, Forwarding(w)) == [] || n.hub.dispatcherUp then None
      else Some(Command(At(n.flow, Forwarding(w))[0].id, Response(false, "service unavailable: channel closed")))
    case _ => None
  }

  ghost predicate Allows(n: Net, s: Step, x: Id) {
    s.Judge? && !s.decision.Deny? && At(n.flow, Judging(s.worker)) != [] && At(n.flow, Judging(s.worker))[0].id == x
  }

  // The refusals and positive verdicts of a run.
  ghost function Refusals(backends: set<Name>, ss: seq<Step>): map<Id, Response>
    requires Run(backends, ss)
    decreases |ss|
  {
    if ss == [] then map[] else
      var r := Refusals(backends, Init(ss));
      match Refusal(Exec(backends, Init(ss)), Last(ss))
      case None => r
      case Some(c) => r[c.id := c.response]
  }

  ghost predicate WasAllowed(backends: set<Name>, ss: seq<Step>, x: Id)
    requires Run(backends, ss)
    decreases |ss|
  {
    ss != [] && (WasAllowed(backends, Init(ss), x) || Allows(Exec(backends, Init(ss)), Last(ss), x))
  }

  lemma HistoryTracks(backends: set<Name>, n: Net, s: Step, x: Id)
    requires Enabled(backends, n, s)
    ensures var h := Next(backends, n, s).hist;
            && h.refused == (match Refusal(n, s)
                             case None => n.hist.refused
                             case Some(c) => n.hist.refused[c.id := c.response])
            && (x in h.allowed <==> x in n.hist.allowed || Allows(n, s, x))
  {
    hide Drain, Handled, ResponseOf, Dispatched, Rejections;
  }

  lemma {:induction false} RunTracksVerdicts(backends: set<Name>, ss: seq<Step>, x: Id)
    requires Run(backends, ss)
    ensures Exec(backends, ss).hist.refused == Refusals(backends, ss)
    ensures x in Exec(backends, ss).hist.allowed <==> WasAllowed(backends, ss, x)
    decreases |ss|
  {
    if ss != [] {
      hide Next, Enabled, Refusal, Allows;
      RunTracksVerdicts(backends, Init(ss), x);
      HistoryTracks(backends, Exec(backends, Init(ss)), Last(ss), x);
    }
  }

  /** A request is answered at most once, and never while it is still pending. */
  lemma AnsweredAtMostOnce(backends: set<Name>, ss: seq<Step>)
    requires Run(backends, ss)
    ensures var d := Exec(backends, ss).desk;
            DistinctIds(d.answers) && forall k :: 0 <= k < |d.answers| ==> d.answers[k].id !in d.pending
  {
    hide Exec;
    RunKeepsInvariant(backends, ss);
  }

  lemma StepLeaves(backends: set<Name>, n: Net, s: Step, x: Id)
    requires Enabled(backends, n, s) && x in n.flow.slots
    ensures x in Next(backends, n, s).flow.slots
    ensures x !in n.desk.pending ==> x !in Next(backends, n, s).desk.pending
    ensures n.desk.answers <= Next(backends, n, s).desk.answers
  {
    hide ResponseOf, Rejections, ReplyOutcome;
  }

  /** A request that has left the pending table at some point of a run is never in it again, and
      answers given by then stay given. */
  lemma {:induction false} LeavesForGood(backends: set<Name>, ss: seq<Step>, k: nat, x: Id)
    requires Run(backends, ss) && k <= |ss|
    ensures Run(backends, ss[..k])
    ensures var n, m := Exec(backends, ss[..k]), Exec(backends, ss);
            && n.desk.answers <= m.desk.answers
            && (x in n.flow.slots && x !in n.desk.pending ==> x in m.flow.slots && x !in m.desk.pending)
    decreases |ss|
  {
    if k == |ss| {
      assert ss[..k] == ss;
    } else {
      assert Init(ss)[..k] == ss[..k];
      LeavesForGood(backends, Init(ss), k, x);
      hide Next, Enabled;
      AnswersGrow(backends, Exec(backends, Init(ss)), Last(ss));
      if x in Exec(backends, Init(ss)).flow.slots {
        StepLeaves(backends, Exec(backends, Init(ss)), Last(ss), x);
      }
    }
  }

  lemma AnswersGrow(backends: set<Name>, n: Net, s: Step)
    requires Enabled(backends, n, s)
    ensures n.desk.answers <= Next(backends, n, s).desk.answers
  {
    hide Drain, ResponseOf, Dispatched, Rejections, ReplyOutcome;
  }

  /** A refused request is never told anything but its refusal, save that the node is reloading: in
      particular never the later "request handler dropped". */
  lemma RefusalsKeepTheirText(backends: set<Name>, ss: seq<Step>, k: nat)
    requires Run(backends, ss) && k < |Exec(backends, ss).desk.answers|
    requires Exec(backends, ss).desk.answers[k].id in Refusals(backends, ss)
    ensures var a := Exec(backends, ss).desk.answers[k];
            || a.response == Refusals(backends, ss)[a.id]
            || a.response == Response(false, "node is reloading; retry shortly")
  {
    RunKeepsInvariant(backends, ss);
    RunTracksVerdicts(backends, ss, 0);
    hide Exec, Refusals;
    var n := Exec(backends, ss);
    assert AnswerOk(n.desk.answers[k], n.hist, n.flow.slots);
  }

  /** Every other answer but a reload's is what the request's token was resolved with: its backend's
      reply, the dispatcher's or backend task's error, or a drop. */
  lemma AnswersAreOutcomes(backends: set<Name>, ss: seq<Step>, k: nat)
    requires Run(backends, ss) && k < |Exec(backends, ss).desk.answers|
    requires Exec(backends, ss).desk.answers[k].id !in Refusals(backends, ss)
    ensures var n := Exec(backends, ss); var a := n.desk.answers[k];
            && a.id in n.flow.slots
            && (a.response == RELOADING || (!n.flow.slots[a.id].Waiting?
                 && a.response == ResponseOf(n.flow.slots[a.id])))
  {
    RunKeepsInvariant(backends, ss);
    RunTracksVerdicts(backends, ss, 0);
    hide Exec, Refusals;
    var n := Exec(backends, ss);
    assert AnswerOk(n.desk.answers[k], n.hist, n.flow.slots);
    assert SlotOk(n.desk.answers[k].id, n.flow.slots[n.desk.answers[k].id], n.hist);
  }

  /** Only requests with a positive verdict are queued for or written to a backend, each of them to
      one backend and once. */
  lemma OnlyAllowedReachBackends(backends: set<Name>, ss: seq<Step>, service: Name, i: nat, x: Id)
    requires Run(backends, ss)
    ensures var n := Exec(backends, ss);
            && (i < |At(n.flow, BackendQueue(service))| ==>
                 WasAllowed(backends, ss, At(n.flow, BackendQueue(service))[i].id))
            && (i < |At(n.flow, Table(service))| ==> WasAllowed(backends, ss, At(n.flow, Table(service))[i].id))
            && (x in n.hist.delivered ==> WasAllowed(backends, ss, x))
            && forall j, k :: 0 <= j < k < |n.hist.delivered| ==> n.hist.delivered[j] != n.hist.delivered[k]
  {
    RunKeepsInvariant(backends, ss);
    RunTracksVerdicts(backends, ss, x);
    var n := Exec(backends, ss);
    hide Exec, WasAllowed;
    if i < |At(n.flow, BackendQueue(service))| {
      HeadWaits(n.flow, BackendQueue(service), i);
      RunTracksVerdicts(backends, ss, At(n.flow, BackendQueue(service))[i].id);
    }
    if i < |At(n.flow, Table(service))| {
      HeadWaits(n.flow, Table(service), i);
      RunTracksVerdicts(backends, ss, At(n.flow, Table(service))[i].id);
    }
    hide Linear, DeskOk;
  }

  /** No pending request is lost: its one token still lies somewhere, or its waiter is about to post,
      or a reply for it is on the command queue. */
  lemma NoRequestIsLost(backends: set<Name>, ss: seq<Step>, x: Id)
    requires Run(backends, ss) && x in Exec(backends, ss).desk.pending
    ensures var n := Exec(backends, ss);
            && x in n.flow.slots
            && (Earliest(n.desk.commands, x).Some? ||
                (x !in n.hist.woken && (n.flow.slots[x].Waiting? ==> Lies(n.flow, n.flow.slots[x].at, x))))
  {
    RunKeepsInvariant(backends, ss);
    hide Exec;
    var n := Exec(backends, ss);
    assert PendingOk(x, n.desk.commands, n.hist, n.flow.slots);
  }

  /** At most one reply token per request exists anywhere in the process. */
  lemma TokensStayLinear(backends: set<Name>, ss: seq<Step>, p: Place, i: nat, q: Place, j: nat)
    requires Run(backends, ss)
    requires var f := Exec(backends, ss).flow;
             i < |At(f, p)| && j < |At(f, q)| && At(f, p)[i].id == At(f, q)[j].id
    ensures p == q && i == j
  {
    RunKeepsInvariant(backends, ss);
    hide Exec;
    TokensAreUnique(Exec(backends, ss).flow, p, i, q, j);
  }

  /** A reload empties the pending table and tells every request in it whose reply can be sealed. */
  lemma ReloadRejectsAll(backends: set<Name>, n: Net, order: seq<Id>, unsealable: set<Id>, x: Id)
    requires Enabled(backends, n, Reload(order, unsealable)) && x in n.desk.pending
    ensures var d := Next(backends, n, Reload(order, unsealable)).desk;
            && d.pending == map[]
            && (!n.desk.pending[x].sealed || x !in unsealable ==>
                  Command(x, Response(false, "node is reloading; retry shortly")) in d.answers)
  {
    if !n.desk.pending[x].sealed || x !in unsealable {
      RejectionsHold(order, n.desk.pending, unsealable, x);
    }
  }

  lemma {:induction false} RejectionsHold(order: seq<Id>, pending: map<Id, Entry>, unsealable: set<Id>, x: Id)
    requires x in order && x in pending && (!pending[x].sealed || x !in unsealable)
    ensures Command(x, RELOADING) in Rejections(order, pending, unsealable)
  {
    if order[0] != x {
      RejectionsHold(order[1..], pending, unsealable, x);
    }
  }
}
