/** The waiter tables of the swarm actor: Kademlia queries and outbound service
    requests. Each command brings one oneshot sender, which is kept in a table
    until its query ends and is answered once, also across a reload that reuses
    query ids. */
module Waiters {
  import opened Options

  type Waiter = nat
  type Peer = nat
  type Record = string

  datatype Error = Reloaded | Failure(text: string)

  datatype Reply =
    | Records(records: seq<Record>)
    | Providers(providers: set<Peer>)
    | Peers(peers: seq<Peer>)
    | Done
    | Answered(data: string)
    | Failed(error: Error)

  datatype Pending =
    | GetRecord(waiter: Waiter, records: seq<Record>)
    | GetProviders(waiter: Waiter, providers: set<Peer>)
    | GetClosestPeers(waiter: Waiter)
    | PutRecord(waiter: Waiter)
    | StartProviding(waiter: Waiter)
    | Request(waiter: Waiter)

  // The result of a query, as progress events report it.
  datatype Result =
    | RecordFound(record: Record)
    | RecordFinished
    | RecordNotFound
    | RecordFailed(text: string)
    | ProvidersFound(batch: set<Peer>)
    | ProvidersFinished
    | ProvidersFailed(text: string)
    | Closest(peers: seq<Peer>)
    | ClosestFailed(text: string)
    | Put(error: Option<string>)
    | Provided(error: Option<string>)

  // The three tables: Kademlia queries, plain and post-quantum outbound requests.
  datatype Which = Kad | Plain | Sealed

  datatype Tables = Tables(kad: map<nat, Pending>, plain: map<nat, Pending>, sealed: map<nat, Pending>)

  function Of(t: Tables, which: Which): map<nat, Pending> {
    match which
    case Kad => t.kad
    case Plain => t.plain
    case Sealed => t.sealed
  }

  function With(t: Tables, which: Which, m: map<nat, Pending>): Tables {
    match which
    case Kad => t.(kad := m)
    case Plain => t.(plain := m)
    case Sealed => t.(sealed := m)
  }

  // Where a waiter is: in a table, answered, or its sender dropped unanswered.
  datatype Status = Held(which: Which, id: nat) | Replied | Lost

  datatype Sent = Sent(waiter: Waiter, reply: Reply)

  datatype Book = Book(tables: Tables, sent: seq<Sent>, status: map<Waiter, Status>, issued: set<(Which, nat)>)

  function Opened(b: Book, which: Which, id: nat, p: Pending): Book {
    b.(tables := With(b.tables, which, Of(b.tables, which)[id := p]), status := b.status[p.waiter := Held(which, id)],
       issued := b.issued + {(which, id)})
  }

  function Changed(b: Book, which: Which, id: nat, p: Pending): Book {
    b.(tables := With(b.tables, which, Of(b.tables, which)[id := p]))
  }

  function Finished(b: Book, which: Which, id: nat, reply: Reply): Book
    requires id in Of(b.tables, which)
  {
    var w := Of(b.tables, which)[id].waiter;
    b.(tables := With(b.tables, which, Of(b.tables, which) - {id}), sent := b.sent + [Sent(w, reply)],
       status := b.status[w := Replied])
  }

  // The entry is removed and its sender dropped.
  function Discarded(b: Book, which: Which, id: nat): Book
    requires id in Of(b.tables, which)
  {
    b.(tables := With(b.tables, which, Of(b.tables, which) - {id}),
       status := b.status[Of(b.tables, which)[id].waiter := Lost])
  }

  // ---- query progress ----

  function OrFailed(error: Option<string>, reply: Reply): Reply {
    if error.Some? then Failed(Failure(error.value)) else reply
  }

  // A step of a query: keep waiting with a new entry, answer, or drop the sender.
  datatype Verdict = Wait(pending: Pending) | Answer(reply: Reply) | Drop

  function OnRecord(p: Pending, r: Result): Verdict {
    if !p.GetRecord? then Drop
    else match r
      case RecordFound(record) => Wait(p.(records := p.records + [record]))
      case RecordFailed(text) => if p.records == [] then Answer(Failed(Failure(text))) else Answer(Records(p.records))
      case _ => Answer(Records(p.records))
  }

  function ApplyGetProviders(p: Pending, r: Result): Verdict {
    if !p.GetProviders? then Wait(p)
    else match r
      case ProvidersFound(batch) => Wait(p.(providers := p.providers + batch))
      case ProvidersFailed(text) => Answer(Failed(Failure(text)))
      case _ => Answer(Providers(p.providers))
  }

  function OnResult(p: Pending, r: Result): Verdict {
    match r
    case RecordFound(_) => OnRecord(p, r)
    case RecordFinished => OnRecord(p, r)
    case RecordNotFound => OnRecord(p, r)
    case RecordFailed(_) => OnRecord(p, r)
    case ProvidersFound(_) => ApplyGetProviders(p, r)
    case ProvidersFinished => ApplyGetProviders(p, r)
    case ProvidersFailed(_) => ApplyGetProviders(p, r)
    case Closest(peers) => if p.GetClosestPeers? then Answer(Peers(peers)) else Drop
    case ClosestFailed(text) => if p.GetClosestPeers? then Answer(Failed(Failure(text))) else Drop
    case Put(error) => if p.PutRecord? then Answer(OrFailed(error, Done)) else Drop
    case Provided(error) => if p.StartProviding? then Answer(OrFailed(error, Done)) else Drop
  }

  function Progressed(b: Book, id: nat, r: Result): Book {
    if id !in b.tables.kad then b
    else match OnResult(b.tables.kad[id], r)
      case Wait(p) => Changed(b, Kad, id, p)
      case Answer(reply) => Finished(b, Kad, id, reply)
      case Drop => Discarded(b, Kad, id)
  }

  // ---- reload ----

  ghost predicate Enumerates(order: seq<nat>, m: map<nat, Pending>) {
    && (forall x :: x in order <==> x in m)
    && (forall i, j :: 0 <= i < j < |order| ==> order[i] != order[j])
  }

  // Drains one table in the given order, telling each waiter that the swarm was reloaded.
  function FailAll(b: Book, which: Which, order: seq<nat>): Book
    decreases |order|
  {
    if order == [] then b
    else if order[0] in Of(b.tables, which)
        then FailAll(Finished(b, which, order[0], Failed(Reloaded)), which, order[1..])
    else FailAll(b, which, order[1..])
  }

  function ReloadedBook(b: Book, kad: seq<nat>, plain: seq<nat>, sealed: seq<nat>): Book {
    FailAll(FailAll(FailAll(b, Kad, kad), Plain, plain), Sealed, sealed).(issued := {})
  }

  // ---- the transition system ----

  datatype Step =
    | Open(which: Which, id: nat, pending: Pending)
    | Refuse(waiter: Waiter, reply: Reply)
    | Progress(id: nat, result: Result)
    | Respond(which: Which, id: nat, reply: Reply)
    | Reload(kad: seq<nat>, plain: seq<nat>, sealed: seq<nat>)

  predicate New(p: Pending) {
    match p
    case GetRecord(_, records) => records == []
    case GetProviders(_, providers) => providers == {}
    case _ => true
  }

  // A waiter is new and an id is used once between reloads.
  ghost predicate Enabled(b: Book, s: Step) {
    match s
    case Open(which, id, p) => p.waiter !in b.status && (which, id) !in b.issued && New(p)
        && (which == Kad <==> !p.Request?)
    case Refuse(w, _) => w !in b.status
    case Progress(_, _) => true
    case Respond(which, _, _) => which != Kad
    case Reload(kad, plain, sealed) =>
      Enumerates(kad, b.tables.kad) && Enumerates(plain, b.tables.plain) && Enumerates(sealed, b.tables.sealed)
  }

  ghost function Next(b: Book, s: Step): Book {
    match s
    case Open(which, id, p) => Opened(b, which, id, p)
    case Refuse(w, reply) => b.(sent := b.sent + [Sent(w, reply)], status := b.status[w := Replied])
    case Progress(id, r) => Progressed(b, id, r)
    case Respond(which, id, reply) => if id in Of(b.tables, which) then Finished(b, which, id, reply) else b
    case Reload(kad, plain, sealed) => ReloadedBook(b, kad, plain, sealed)
  }

  const EMPTY: Book := Book(Tables(map[], map[], map[]), [], map[], {})

  // ---- each waiter is accounted for once ----

  ghost predicate Listed(m: map<nat, Pending>, which: Which, status: map<Waiter, Status>, issued: set<(Which, nat)>) {
    forall id :: id in m ==> m[id].waiter in status && status[m[id].waiter] == Held(which, id) && (which, id) in issued
  }

  ghost predicate Holds(m: map<nat, Pending>, id: nat, w: Waiter) {
    id in m && m[id].waiter == w
  }

  ghost predicate HeldOnce(t: Tables, status: map<Waiter, Status>, issued: set<(Which, nat)>) {
    && Listed(t.kad, Kad, status, issued) && Listed(t.plain, Plain, status, issued)
         && Listed(t.sealed, Sealed, status, issued)
    && (forall w :: w in status && status[w].Held? ==> Holds(Of(t, status[w].which), status[w].id, w))
  }

  ghost predicate WasSent(sent: seq<Sent>, w: Waiter) {
    exists k :: 0 <= k < |sent| && sent[k].waiter == w
  }

  ghost predicate SentOnce(sent: seq<Sent>, status: map<Waiter, Status>) {
    && (forall k :: 0 <= k < |sent| ==> sent[k].waiter in status && status[sent[k].waiter] == Replied)
    && (forall w :: w in status && status[w] == Replied ==> WasSent(sent, w))
    && (forall j, k :: 0 <= j < k < |sent| ==> sent[j].waiter != sent[k].waiter)
  }

  // Every waiter is in exactly one table entry, answered exactly once, or dropped.
  ghost predicate Accounted(b: Book) {
    HeldOnce(b.tables, b.status, b.issued) && SentOnce(b.sent, b.status)
  }

  // Changing one waiter that is not answered, and sending to it if it becomes so.
  lemma SendingKeeps(sent: seq<Sent>, status: map<Waiter, Status>, w: Waiter, now: Status, reply: Reply)
    requires SentOnce(sent, status) && (w in status ==> status[w] != Replied)
    ensures now == Replied ==> SentOnce(sent + [Sent(w, reply)], status[w := now])
    ensures now != Replied ==> SentOnce(sent, status[w := now])
  {
    var sent' := sent + [Sent(w, reply)];
    forall v | v in status && v != w && status[v] == Replied ensures WasSent(sent', v) && WasSent(sent, v) {
      var k :| 0 <= k < |sent| && sent[k].waiter == v;
      assert sent'[k].waiter == v;
    }
    assert sent'[|sent|].waiter == w;
  }

  lemma OpenHeld(b: Book, which: Which, id: nat, p: Pending)
    requires HeldOnce(b.tables, b.status, b.issued) && p.waiter !in b.status && (which, id) !in b.issued
    ensures var q := Opened(b, which, id, p); HeldOnce(q.tables, q.status, q.issued)
  {
    var q := Opened(b, which, id, p);
    forall w | w in q.status && q.status[w].Held? ensures Holds(Of(q.tables, q.status[w].which), q.status[w].id, w) {
      if w != p.waiter {
        assert Holds(Of(b.tables, b.status[w].which), b.status[w].id, w);
      }
    }
  }

  lemma OpenKeeps(b: Book, which: Which, id: nat, p: Pending)
    requires Accounted(b) && p.waiter !in b.status && (which, id) !in b.issued
    ensures Accounted(Opened(b, which, id, p))
  {
    SendingKeeps(b.sent, b.status, p.waiter, Held(which, id), Done);
    OpenHeld(b, which, id, p);
    hide SentOnce, HeldOnce;
  }

  lemma ChangeKeeps(b: Book, which: Which, id: nat, p: Pending)
    requires Accounted(b) && id in Of(b.tables, which) && p.waiter == Of(b.tables, which)[id].waiter
    ensures Accounted(Changed(b, which, id, p))
  {
    hide SentOnce;
    var q := Changed(b, which, id, p);
    forall w | w in q.status && q.status[w].Held? ensures Holds(Of(q.tables, q.status[w].which), q.status[w].id, w) {
      assert Holds(Of(b.tables, b.status[w].which), b.status[w].id, w);
    }
  }

  lemma RemoveHeld(b: Book, which: Which, id: nat, now: Status)
    requires Accounted(b) && id in Of(b.tables, which) && !now.Held?
    ensures HeldOnce(With(b.tables, which, Of(b.tables, which) - {id}),
        b.status[Of(b.tables, which)[id].waiter := now], b.issued)
  {
    hide SentOnce;
    var m, w := Of(b.tables, which), Of(b.tables, which)[id].waiter;
    var t, status := With(b.tables, which, m - {id}), b.status[w := now];
    assert b.status[w] == Held(which, id);
    forall v | v in status && status[v].Held? ensures Holds(Of(t, status[v].which), status[v].id, v) {
      assert Holds(Of(b.tables, b.status[v].which), b.status[v].id, v);
    }
  }

  lemma RemoveKeeps(b: Book, which: Which, id: nat, reply: Reply)
    requires Accounted(b) && id in Of(b.tables, which)
    ensures Accounted(Finished(b, which, id, reply)) && Accounted(Discarded(b, which, id))
  {
    var w := Of(b.tables, which)[id].waiter;
    assert b.status[w] == Held(which, id);
    SendingKeeps(b.sent, b.status, w, Replied, reply);
    SendingKeeps(b.sent, b.status, w, Lost, reply);
    RemoveHeld(b, which, id, Replied);
    RemoveHeld(b, which, id, Lost);
    hide SentOnce, HeldOnce;
  }

  lemma ProgressKeeps(b: Book, id: nat, r: Result)
    requires Accounted(b)
    ensures Accounted(Progressed(b, id, r))
  {
    if id in b.tables.kad {
      var v := OnResult(b.tables.kad[id], r);
      assert v.Wait? ==> v.pending.waiter == b.tables.kad[id].waiter;
      hide Accounted, OnResult;
      match v
      case Wait(p) => ChangeKeeps(b, Kad, id, p);
      case Answer(reply) => RemoveKeeps(b, Kad, id, reply);
      case Drop => RemoveKeeps(b, Kad, id, Done);
    }
  }

  // The reload notices for the waiters of one table, in draining order.
  function Notices(m: map<nat, Pending>, order: seq<nat>): seq<Sent>
    requires forall x :: x in order ==> x in m
  {
    seq(|order|, k requires 0 <= k < |order| => Sent(m[order[k]].waiter, Failed(Reloaded)))
  }

  lemma EnumeratesTail(m: map<nat, Pending>, order: seq<nat>)
    requires Enumerates(order, m) && order != []
    ensures order[0] in m && Enumerates(order[1..], m - {order[0]})
  {
    assert order[0] in order;
    forall y ensures y in order[1..] <==> y in m - {order[0]} {
      assert y in order[1..] ==> y in order;
      if y in m && y != order[0] {
        assert y in order;
      }
    }
  }

  /** Draining a table tells each of its waiters of the reload, once and in order, and no one else. */
  lemma {:induction false} FailAllKeeps(b: Book, which: Which, order: seq<nat>)
    requires Accounted(b) && Enumerates(order, Of(b.tables, which))
    ensures var q := FailAll(b, which, order);
            && Accounted(q) && q.issued == b.issued && q.tables == With(b.tables, which, map[])
            && q.sent == b.sent + Notices(Of(b.tables, which), order)
    decreases |order|
  {
    hide Accounted;
    var m := Of(b.tables, which);
    if order == [] {
      assert forall x :: x in m ==> x in order;
      assert m == map[];
    } else {
      EnumeratesTail(m, order);
      var w, c := m[order[0]].waiter, Finished(b, which, order[0], Failed(Reloaded));
      FailFirst(b, which, order);
      RemoveKeeps(b, which, order[0], Failed(Reloaded));
      hide Enumerates, FailAll, Finished, With, Of;
      FailAllKeeps(c, which, order[1..]);
      NoticesCons(m, order);
    }
  }

  lemma FailFirst(b: Book, which: Which, order: seq<nat>)
    requires order != [] && order[0] in Of(b.tables, which)
    ensures var m, c := Of(b.tables, which), Finished(b, which, order[0], Failed(Reloaded));
            && FailAll(b, which, order) == FailAll(c, which, order[1..])
            && c.sent == b.sent + [Sent(m[order[0]].waiter, Failed(Reloaded))] && c.issued == b.issued
            && Of(c.tables, which) == m - {order[0]} && With(c.tables, which, map[]) == With(b.tables, which, map[])
  {
  }

  lemma NoticesCons(m: map<nat, Pending>, order: seq<nat>)
    requires Enumerates(order, m) && order != []
    ensures order[0] in m && (forall x :: x in order[1..] ==> x in m - {order[0]})
    ensures Notices(m, order) == [Sent(m[order[0]].waiter, Failed(Reloaded))] + Notices(m - {order[0]}, order[1..])
  {
    EnumeratesTail(m, order);
  }

  /** A reload tells every outstanding waiter, once, leaves every table empty and forgets which ids
      were in use; nothing else is sent. */
  lemma ReloadFailsEach(b: Book, kad: seq<nat>, plain: seq<nat>, sealed: seq<nat>)
    requires Accounted(b) && Enabled(b, Reload(kad, plain, sealed))
    ensures var q := Next(b, Reload(kad, plain, sealed));
            && Accounted(q) && q.tables == EMPTY.tables && q.issued == {}
            && q.sent == b.sent + Notices(b.tables.kad, kad) + Notices(b.tables.plain,
                 plain) + Notices(b.tables.sealed, sealed)
  {
    FailAllKeeps(b, Kad, kad);
    var c := FailAll(b, Kad, kad);
    FailAllKeeps(c, Plain, plain);
    var d := FailAll(c, Plain, plain);
    FailAllKeeps(d, Sealed, sealed);
    hide FailAll, SentOnce, Enumerates;
  }

  lemma StepKeeps(b: Book, s: Step)
    requires Accounted(b) && Enabled(b, s)
    ensures Accounted(Next(b, s))
  {
    match s
    case Open(which, id, p) => OpenKeeps(b, which, id, p);
    case Refuse(w, reply) => SendingKeeps(b.sent, b.status, w, Replied, reply);
    case Progress(id, r) => ProgressKeeps(b, id, r);
    case Respond(which, id, reply) =>
      if id in Of(b.tables, which) {
        RemoveKeeps(b, which, id, reply);
      }
    case Reload(kad, plain, sealed) => ReloadFailsEach(b, kad, plain, sealed);
  }

  // ---- runs ----

  function Init(ss: seq<Step>): seq<Step>
    requires ss != []
  {
    ss[..|ss| - 1]
  }

  function Last(ss: seq<Step>): Step
    requires ss != []
  {
    ss[|ss| - 1]
  }

  ghost function Exec(ss: seq<Step>): Book
    decreases |ss|
  {
    if ss == [] then EMPTY else Next(Exec(Init(ss)), Last(ss))
  }

  ghost predicate Run(ss: seq<Step>)
    decreases |ss|
  {
    ss != [] ==> Run(Init(ss)) && Enabled(Exec(Init(ss)), Last(ss))
  }

  /** In every run each waiter is in exactly one table entry, answered exactly once, or was dropped:
      two answers never go to one waiter, whatever ids are reused after a reload. */
  lemma {:induction false} WaitersAreAccounted(ss: seq<Step>)
    requires Run(ss)
    ensures Accounted(Exec(ss))
    decreases |ss|
  {
    if ss != [] {
      hide Accounted, Next, Enabled;
      WaitersAreAccounted(Init(ss));
      StepKeeps(Exec(Init(ss)), Last(ss));
    }
  }

  // The results reported for a query id since it was last opened.
  function Heard(ss: seq<Step>, id: nat): seq<Result>
    decreases |ss|
  {
    if ss == [] then [] else match Last(ss)
      case Open(which, id', _) => if which == Kad && id' == id then [] else Heard(Init(ss), id)
      case Progress(id', r) => if id' == id then Heard(Init(ss), id) + [r] else Heard(Init(ss), id)
      case Reload(_, _, _) => []
      case _ => Heard(Init(ss), id)
  }

  function Found(rs: seq<Result>): seq<Record> {
    if rs == [] then [] else
      Found(rs[..|rs| - 1]) + (if rs[|rs| - 1].RecordFound? then [rs[|rs| - 1].record] else [])
  }

  function Union(rs: seq<Result>): set<Peer> {
    if rs == [] then {} else
      Union(rs[..|rs| - 1]) + (if rs[|rs| - 1].ProvidersFound? then rs[|rs| - 1].batch else {})
  }

  lemma FoundAppend(rs: seq<Result>, r: Result)
    ensures Found(rs + [r]) == Found(rs) + (if r.RecordFound? then [r.record] else [])
    ensures Union(rs + [r]) == Union(rs) + (if r.ProvidersFound? then r.batch else {})
  {
    assert (rs + [r])[..|rs|] == rs;
  }

  ghost predicate Gathers(p: Pending, rs: seq<Result>) {
    && (p.GetRecord? ==> p.records == Found(rs))
    && (p.GetProviders? ==> p.providers == Union(rs))
  }

  /** A waiting query holds exactly what has been reported for it. */
  lemma {:induction false} QueriesGather(ss: seq<Step>, id: nat)
    requires Run(ss) && id in Exec(ss).tables.kad
    ensures Gathers(Exec(ss).tables.kad[id], Heard(ss, id))
    decreases |ss|
  {
    var b, s := Exec(Init(ss)), Last(ss);
    if s.Reload? {
      WaitersAreAccounted(Init(ss));
      ReloadFailsEach(b, s.kad, s.plain, s.sealed);
    } else {
      EntryAfter(b, s, id);
      hide Found, Union, Next;
      if !(s.Open? && s.which == Kad && s.id == id) {
        QueriesGather(Init(ss), id);
        if s.Progress? && s.id == id {
          FoundAppend(Heard(Init(ss), id), s.result);
        }
      }
    }
  }

  // How an entry of the query table came to be there.
  lemma EntryAfter(b: Book, s: Step, id: nat)
    requires !s.Reload? && Enabled(b, s) && id in Next(b, s).tables.kad
    ensures var p := Next(b, s).tables.kad[id];
            if s.Open? && s.which == Kad && s.id == id then New(p)
            else id in b.tables.kad && (if s.Progress? && s.id == id
                then OnResult(b.tables.kad[id], s.result) == Wait(p) else p == b.tables.kad[id])
  {
  }

  /** A record query that ends is answered with every record reported for it, in arrival order;
      it fails only on an error with none, and "not found" is an answer, not an error. */
  lemma RecordReplyIsComplete(ss: seq<Step>, id: nat, r: Result)
    requires Run(ss + [Progress(id, r)]) && Run(ss) && id in Exec(ss).tables.kad && Exec(ss).tables.kad[id].GetRecord?
    requires r.RecordFinished? || r.RecordNotFound? || r.RecordFailed?
    ensures var b, records := Exec(ss), Found(Heard(ss, id));
            Exec(ss + [Progress(id, r)]).sent == b.sent + [Sent(b.tables.kad[id].waiter,
              if r.RecordFailed? && records == [] then Failed(Failure(r.text)) else Records(records))]
  {
    assert Init(ss + [Progress(id, r)]) == ss;
    QueriesGather(ss, id);
  }

  /** A provider query that ends well is answered with the union of all reported batches. */
  lemma ProviderReplyIsUnion(ss: seq<Step>, id: nat)
    requires Run(ss) && id in Exec(ss).tables.kad && Exec(ss).tables.kad[id].GetProviders?
    ensures Exec(ss + [Progress(id, ProvidersFinished)]).sent ==
            Exec(ss).sent + [Sent(Exec(ss).tables.kad[id].waiter, Providers(Union(Heard(ss, id))))]
  {
    assert Init(ss + [Progress(id, ProvidersFinished)]) == ss;
    QueriesGather(ss, id);
  }

  // A result of the kind the query was opened for; libp2p reports no others.
  predicate Matches(p: Pending, r: Result) {
    match r
    case RecordFound(_) => p.GetRecord?
    case RecordFinished => p.GetRecord?
    case RecordNotFound => p.GetRecord?
    case RecordFailed(_) => p.GetRecord?
    case ProvidersFound(_) => p.GetProviders?
    case ProvidersFinished => p.GetProviders?
    case ProvidersFailed(_) => p.GetProviders?
    case Closest(_) => p.GetClosestPeers?
    case ClosestFailed(_) => p.GetClosestPeers?
    case Put(_) => p.PutRecord?
    case Provided(_) => p.StartProviding?
  }

  predicate Providing(r: Result) {
    r.ProvidersFound? || r.ProvidersFinished? || r.ProvidersFailed?
  }

  /** A sender is dropped unanswered exactly when a result of another kind is reported for its query,
      provider results excepted, which leave such an entry alone. */
  lemma DropsIff(b: Book, id: nat, r: Result, w: Waiter)
    requires Accounted(b) && w in b.status && b.status[w] != Lost
    ensures var q := Next(b, Progress(id, r));
            w in q.status && (q.status[w] == Lost <==>
              b.status[w] == Held(Kad, id) && id in b.tables.kad && !Matches(b.tables.kad[id], r) && !Providing(r))
  {
    hide SentOnce;
    if id in b.tables.kad {
      assert b.status[b.tables.kad[id].waiter] == Held(Kad, id);
    }
    if b.status[w].Held? {
      assert Holds(Of(b.tables, b.status[w].which), b.status[w].id, w);
    }
  }
}
