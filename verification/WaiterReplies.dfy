/** What each waiter of the swarm actor is told, read off the steps of a run. */
module WaiterReplies {
  import opened Options
  import opened Waiters

  function Error(text: string): Option<Reply> {
    Some(Failed(Failure(text)))
  }

  // What a query of the given kind answers to a result, after what has been heard before; nothing while
  // it goes on, or when the result is of another kind.
  function Concludes(p: Pending, heard: seq<Result>, r: Result): Option<Reply> {
    match (p, r)
    case (GetRecord(_, _), RecordFinished) => Some(Records(Found(heard)))
    case (GetRecord(_, _), RecordNotFound) => Some(Records(Found(heard)))
    case (GetRecord(_, _), RecordFailed(text)) => if Found(heard) == [] then Error(text)
        else Some(Records(Found(heard)))
    case (GetProviders(_, _), ProvidersFinished) => Some(Providers(Union(heard)))
    case (GetProviders(_, _), ProvidersFailed(text)) => Error(text)
    case (GetClosestPeers(_), Closest(peers)) => Some(Peers(peers))
    case (GetClosestPeers(_), ClosestFailed(text)) => Error(text)
    case (PutRecord(_), Put(None)) => Some(Done)
    case (PutRecord(_), Put(Some(text))) => Error(text)
    case (StartProviding(_), Provided(None)) => Some(Done)
    case (StartProviding(_), Provided(Some(text))) => Error(text)
    case _ => None
  }

  predicate Waits(m: map<nat, Pending>, id: nat, w: Waiter) {
    id in m && m[id].waiter == w
  }

  ghost predicate Outstanding(t: Tables, w: Waiter) {
    exists which, id :: Waits(Of(t, which), id, w)
  }

  // What a step tells a waiter, if anything.
  ghost function Tells(b: Book, heard: nat -> seq<Result>, s: Step, w: Waiter): Option<Reply> {
    match s
    case Open(_, _, _) => None
    case Refuse(v, reply) => if v == w then Some(reply) else None
    case Progress(id, r) => if Waits(b.tables.kad, id, w) then Concludes(b.tables.kad[id], heard(id), r) else None
    case Respond(which, id, reply) => if Waits(Of(b.tables, which), id, w) then Some(reply) else None
    case Reload(_, _, _) => if Outstanding(b.tables, w) then Some(Failed(Reloaded)) else None
  }

  ghost function Told(ss: seq<Step>, w: Waiter): Option<Reply>
    decreases |ss|
  {
    if ss == [] then None
    else
      var now := Tells(Exec(Init(ss)), (id: nat) => Heard(Init(ss), id), Last(ss), w);
      if now.Some? then now else Told(Init(ss), w)
  }

  lemma ConcludesIff(p: Pending, heard: seq<Result>, r: Result)
    requires Gathers(p, heard)
    ensures match OnResult(p, r)
            case Answer(reply) => Concludes(p, heard, r) == Some(reply)
            case _ => Concludes(p, heard, r) == None
  {
    hide Found, Union;
  }

  lemma NoticesTell(m: map<nat, Pending>, order: seq<nat>, w: Waiter, reply: Reply)
    requires Enumerates(order, m)
    ensures Sent(w, reply) in Notices(m, order) <==> reply == Failed(Reloaded) && exists id :: Waits(m, id, w)
  {
    var ns := Notices(m, order);
    if Sent(w, reply) in ns {
      var k :| 0 <= k < |ns| && ns[k] == Sent(w, reply);
      assert order[k] in order;
      assert Waits(m, order[k], w);
    }
    if reply == Failed(Reloaded) && exists id :: Waits(m, id, w) {
      var id :| Waits(m, id, w);
      assert id in order;
      var k :| 0 <= k < |order| && order[k] == id;
      assert ns[k] == Sent(w, reply);
    }
  }

  lemma ReloadTells(b: Book, s: Step, w: Waiter, reply: Reply)
    requires Accounted(b) && Enabled(b, s) && s.Reload?
    ensures Sent(w, reply) in Next(b, s).sent <==>
            Sent(w, reply) in b.sent || (reply == Failed(Reloaded) && Outstanding(b.tables, w))
  {
    ReloadFailsEach(b, s.kad, s.plain, s.sealed);
    NoticesTell(b.tables.kad, s.kad, w, reply);
    NoticesTell(b.tables.plain, s.plain, w, reply);
    NoticesTell(b.tables.sealed, s.sealed, w, reply);
    hide Accounted, Next, Notices, Enumerates;
    assert Of(b.tables, Kad) == b.tables.kad && Of(b.tables, Plain) == b.tables.plain
        && Of(b.tables, Sealed) == b.tables.sealed;
  }

  lemma StepTells(b: Book, heard: nat -> seq<Result>, s: Step, w: Waiter, reply: Reply)
    requires Accounted(b) && Enabled(b, s)
    requires forall id :: id in b.tables.kad ==> Gathers(b.tables.kad[id], heard(id))
    ensures Sent(w, reply) in Next(b, s).sent <==> Sent(w, reply) in b.sent || Tells(b, heard, s, w) == Some(reply)
  {
    if s.Reload? {
      ReloadTells(b, s, w, reply);
    } else if s.Progress? && s.id in b.tables.kad {
      ConcludesIff(b.tables.kad[s.id], heard(s.id), s.result);
    }
    hide Accounted, OnResult, Concludes, FailAll;
  }

  // A waiter that is told something was not told anything before.
  lemma ToldOnce(b: Book, heard: nat -> seq<Result>, s: Step, w: Waiter, reply: Reply)
    requires Accounted(b) && Enabled(b, s) && Tells(b, heard, s, w).Some?
    ensures Sent(w, reply) !in b.sent
  {
    hide Concludes;
    assert s.Progress? ==> Waits(Of(b.tables, Kad), s.id, w);
    if Outstanding(b.tables, w) {
      var which, id :| Waits(Of(b.tables, which), id, w);
      assert b.status[w] == Held(which, id);
    }
  }

  /** In every run each waiter is told exactly what the steps say: the reply of its own request, all that
      was reported for its query or the query's error, or that the swarm was reloaded. */
  lemma {:induction false} WaitersAreToldIff(ss: seq<Step>, w: Waiter, reply: Reply)
    requires Run(ss)
    ensures Sent(w, reply) in Exec(ss).sent <==> Told(ss, w) == Some(reply)
    decreases |ss|
  {
    if ss != [] {
      var b, s, heard := Exec(Init(ss)), Last(ss), (id: nat) => Heard(Init(ss), id);
      WaitersAreToldIff(Init(ss), w, reply);
      WaitersAreAccounted(Init(ss));
      forall id | id in b.tables.kad ensures Gathers(b.tables.kad[id], heard(id)) {
        QueriesGather(Init(ss), id);
      }
      hide Accounted, Next, Enabled, Tells, Heard, Gathers;
      StepTells(b, heard, s, w, reply);
      if Tells(b, heard, s, w).Some? {
        ToldOnce(b, heard, s, w, reply);
      }
    }
  }
}
