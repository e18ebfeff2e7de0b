/** Several registries sharing one type-index record, taken as a single register:
    two rounds in which every node completes one reconcile chain spread every
    name to every node. */
module TypesConvergence {
  import opened Names
  import opened Options
  import opened TypesCodec
  import opened Registry
  import opened RegistryInvariant

  // ---- the size of an encoded set depends monotonically on the set ----

  function Weight(list: seq<string>): nat {
    if list == [] then 0 else ByteLen(Quote(list[0])) + 1 + Weight(list[1..])
  }

  lemma {:induction false} WeightOfElements(list: seq<string>)
    requires list != []
    ensures ByteLen(Elements(list)) + 1 == Weight(list)
  {
    if |list| > 1 {
      WeightOfElements(list[1..]);
      ByteLenConcat(Quote(list[0]) + ",", Elements(list[1..]));
      ByteLenConcat(Quote(list[0]), ",");
    }
  }

  lemma {:induction false} WeightSplit(a: seq<string>, x: string, b: seq<string>)
    ensures Weight(a + [x] + b) == Weight([x]) + Weight(a + b)
  {
    if a == [] {
      assert a + [x] + b == [x] + b && a + b == b;
    } else {
      WeightSplit(a[1..], x, b);
      assert (a + [x] + b)[1..] == a[1..] + [x] + b && (a + b)[1..] == a[1..] + b;
    }
  }

  lemma {:induction false} WeightMonotone(a: seq<string>, b: seq<string>)
    requires forall x :: x in a ==> x in b
    requires forall i, j :: 0 <= i < j < |a| ==> a[i] != a[j]
    ensures Weight(a) <= Weight(b)
  {
    if a != [] {
      assert a[0] in a;
      var i :| 0 <= i < |b| && b[i] == a[0];
      var rest := b[..i] + b[i + 1..];
      forall x | x in a[1..] ensures x in rest {
        var k :| 0 < k < |a| && a[k] == x;
        assert x in a;
        var m :| 0 <= m < |b| && b[m] == x;
        assert m != i;
        assert rest[if m < i then m else m - 1] == x;
      }
      WeightMonotone(a[1..], rest);
      WeightSplit(b[..i], a[0], b[i + 1..]);
      assert b == b[..i] + [a[0]] + b[i + 1..];
    }
  }

  lemma EncodedSubsetFits(s: set<Name>, all: set<Name>, maxBytes: nat)
    requires s <= all && s != {} && ByteLen(Encode(Sorted(all))) <= maxBytes
    ensures ByteLen(Encode(Sorted(s))) <= maxBytes
  {
    var a, b := Sorted(s), Sorted(all);
    var x :| x in s;
    assert x in a && x in b;
    SortedIncreases(s);
    WeightMonotone(a, b);
    WeightOfElements(a);
    WeightOfElements(b);
    EncodeLen(a);
    EncodeLen(b);
  }

  lemma {:induction false} DistinctLength(list: seq<Name>, s: set<Name>)
    requires (forall x :: x in list <==> x in s) && forall i, j :: 0 <= i < j < |list| ==> list[i] != list[j]
    ensures |list| == |s|
  {
    if list == [] {
      assert s == {};
    } else {
      assert list[0] in s;
      forall x ensures x in list[1..] <==> x in s - {list[0]} {
        if x in list[1..] {
          var k :| 0 < k < |list| && list[k] == x;
        }
      }
      DistinctLength(list[1..], s - {list[0]});
    }
  }

  /** What a node publishes for a set within the limits reads back as that set. */
  lemma PublishedSet(s: set<Name>, all: set<Name>, maxBytes: nat)
    requires s <= all && s != {} && KnownOk(all) && ByteLen(Encode(Sorted(all))) <= maxBytes
    ensures ParseTypes(EncodeLimited(Sorted(s), maxBytes)) == Some(Sorted(s))
  {
    EncodedSubsetFits(s, all, maxBytes);
    SortedIncreases(s);
    DistinctLength(Sorted(s), s);
    assert |s| <= |all| by { SubsetSize(s, all); }
    PublishedReadsBack(Sorted(s), maxBytes);
  }

  lemma {:induction false} SubsetSize(s: set<Name>, all: set<Name>)
    requires s <= all
    ensures |s| <= |all|
  {
    if s != {} {
      var x :| x in s;
      SubsetSize(s - {x}, all - {x});
    }
  }

  // ---- merging within the limit ----

  lemma {:induction false} MergeIsUnion(known: set<Name>, incoming: seq<Name>, all: set<Name>)
    requires KnownOk(all) && known <= all && forall x :: x in incoming ==> x in all
    ensures MergeTypes(known, incoming) == known + set x | x in incoming
    decreases |incoming|
  {
    if incoming != [] {
      if |known| >= MAX_TYPES {
        FullSubset(known, all);
      } else {
        MergeIsUnion(known + {incoming[0]}, incoming[1..], all);
        assert incoming == [incoming[0]] + incoming[1..];
      }
    }
  }

  lemma FullSubset(s: set<Name>, all: set<Name>)
    requires s <= all && |s| >= |all|
    ensures s == all
  {
    if x :| x in all && x !in s {
      SubsetSize(s, all - {x});
    }
  }

  // ---- one reconcile chain ----

  // The result of the read job: no record is an empty list, an unreadable record an error.
  function ReadRegister(register: Option<string>): Option<seq<Name>> {
    if register.None? then Some([]) else ParseTypes(register.value)
  }

  datatype ChainResult = ChainResult(state: State, register: Option<string>)

  /** RefreshTypes, the read job and its result, and the write job with its result if one is planned. */
  ghost function Chain(cfg: Config, r: State, register: Option<string>, order: seq<Name>, now: Time): ChainResult {
    var reading := PlanReconcile(Handle(r, RefreshTypes, now), now, 1);
    var merged := Apply(cfg, reading.state, TypesRead(r.generation, ReadRegister(register)), order, now);
    var writing := PlanReconcile(merged, now, 1);
    if merged.index.reconcile == ReadyToWrite && writing.jobs != [] && writing.jobs[0].WriteTypes?
    then ChainResult(Apply(cfg, writing.state, TypesWritten(r.generation, true), order, now),
        Some(writing.jobs[0].value))
    else ChainResult(merged, register)
  }

  ghost predicate Readable(register: Option<string>) {
    ReadRegister(register).Some?
  }

  ghost function Contents(register: Option<string>): set<Name> {
    set x | Readable(register) && x in ReadRegister(register).value
  }

  ghost predicate WithinLimits(cfg: Config, all: set<Name>) {
    KnownOk(all) && ByteLen(Encode(Sorted(all))) <= cfg.maxRecordBytes
  }

  lemma ChainReads(cfg: Config, r: State, register: Option<string>, order: seq<Name>, now: Time)
    requires r.index.reconcile == Idle
    ensures PlanReconcile(Handle(r, RefreshTypes, now), now, 1).jobs == [ReadTypes(r.generation)]
    ensures var merged := Apply(cfg, PlanReconcile(Handle(r, RefreshTypes, now), now, 1).state,
                                TypesRead(r.generation, ReadRegister(register)), order, now);
            merged == r.(index := ApplyTypesRead(cfg, r.index.(nextSync := None, reconcile := Reading, dirty := false),
                                                 ReadRegister(register), order, now))
  {
    hide ApplyTypesRead, ReadRegister;
  }

  lemma ChainShape(cfg: Config, r: State, register: Option<string>, order: seq<Name>, now: Time, ix: Index)
    requires r.index.reconcile == Idle
    requires ix == ApplyTypesRead(cfg, r.index.(nextSync := None, reconcile := Reading, dirty := false),
                                  ReadRegister(register), order, now)
    requires ix.reconcile == ReadyToWrite ==> ix.pendingWrite.Some?
    ensures Chain(cfg, r, register, order, now) ==
            if ix.reconcile == ReadyToWrite
            then ChainResult(r.(index := Index(ix.known, Idle, false,
                Some(if ix.dirty then now else now + cfg.syncInterval), None)),
                             Some(ix.pendingWrite.value))
            else ChainResult(r.(index := ix), register)
  {
    ChainReads(cfg, r, register, order, now);
    hide ApplyTypesRead, ReadRegister;
  }

  // The index after a read, in terms of the merged set alone.
  lemma ReadMerges(cfg: Config, ix: Index, list: seq<Name>, order: seq<Name>, now: Time, all: set<Name>)
    requires KnownOk(all) && ix.known <= all && (forall x :: x in list ==> x in all)
        && (forall x :: x in order ==> x in all)
    ensures var known := ix.known + (set x | x in list) + (set x | x in order);
            ApplyTypesRead(cfg, ix, Some(list), order, now) ==
              if known == {} || known == (set x | x in list)
              then FinishReconcile(ix.(known := known), now, cfg.syncInterval)
              else Index(known, ReadyToWrite, false, ix.nextSync,
                  Some(EncodeLimited(Sorted(known), cfg.maxRecordBytes)))
  {
    MergeIsUnion(ix.known, list, all);
    MergeIsUnion(ix.known + (set x | x in list), order, all);
    hide MergeTypes, EncodeLimited;
  }

  lemma ReadsBack(value: string, known: set<Name>)
    requires ParseTypes(value) == Some(Sorted(known))
    ensures Readable(Some(value)) && Contents(Some(value)) == known
  {
    hide ParseTypes;
  }

  ghost predicate NodeOk(cfg: Config, r: State, all: set<Name>) {
    r.index.reconcile == Idle && WithinLimits(cfg, all) && r.index.known <= all && r.prov.announced <= all
  }

  /** After one chain the node knows what it knew, what it announces and what the register held,
      and the register holds exactly that. */
  lemma ChainMerges(cfg: Config, r: State, register: Option<string>, order: seq<Name>, now: Time, all: set<Name>)
    requires NodeOk(cfg, r, all) && Lists(order, r.prov.announced)
    requires Readable(register) && Contents(register) <= all
    ensures var c := Chain(cfg, r, register, order, now);
            && NodeOk(cfg, c.state, all) && c.state.prov == r.prov
            && c.state.index.known == r.index.known + r.prov.announced + Contents(register)
            && Readable(c.register) && Contents(c.register) == c.state.index.known
  {
    hide EncodeLimited, ReadRegister, ApplyTypesRead, WithinLimits, Chain;
    var list := ReadRegister(register).value;
    var reading := r.index.(nextSync := None, reconcile := Reading, dirty := false);
    assert KnownOk(all) by { Limits(cfg, all); }
    ReadMerges(cfg, reading, list, order, now, all);
    assert (set x | x in list) == Contents(register) && (set x | x in order) == r.prov.announced;
    var known := r.index.known + Contents(register) + r.prov.announced;
    if known != {} && known != Contents(register) {
      Publishes(cfg, known, all);
    }
    ChainShape(cfg, r, register, order, now, ApplyTypesRead(cfg, reading, Some(list), order, now));
  }

  lemma Limits(cfg: Config, all: set<Name>)
    requires WithinLimits(cfg, all)
    ensures KnownOk(all)
  {
  }

  lemma Publishes(cfg: Config, known: set<Name>, all: set<Name>)
    requires WithinLimits(cfg, all) && known <= all && known != {}
    ensures var value := EncodeLimited(Sorted(known), cfg.maxRecordBytes);
            Readable(Some(value)) && Contents(Some(value)) == known
  {
    PublishedSet(known, all, cfg.maxRecordBytes);
    hide EncodeLimited;
    ReadsBack(EncodeLimited(Sorted(known), cfg.maxRecordBytes), known);
  }

  // Over an unreadable record the chain ends after the failed read.
  lemma UnreadableChain(cfg: Config, r: State, register: Option<string>, order: seq<Name>, now: Time)
    requires r.index.reconcile == Idle && !Readable(register)
    ensures var c := Chain(cfg, r, register, order, now);
            && c.register == register && c.state.index.known == r.index.known
            && c.state.prov == r.prov && c.state.index.reconcile == Idle
  {
    ChainReads(cfg, r, register, order, now);
    hide ReadRegister;
  }

  // ---- rounds, on the sets alone ----

  datatype Node = Node(known: set<Name>, announced: set<Name>)
  datatype Sketch = Sketch(nodes: seq<Node>, held: set<Name>)

  function SketchTurn(s: Sketch, i: nat): Sketch
    requires i < |s.nodes|
  {
    var known := s.nodes[i].known + s.nodes[i].announced + s.held;
    Sketch(s.nodes[i := Node(known, s.nodes[i].announced)], known)
  }

  function SketchPlay(s: Sketch, turns: seq<nat>): (r: Sketch)
    requires forall i :: i in turns ==> i < |s.nodes|
    ensures |r.nodes| == |s.nodes|
    decreases |turns|
  {
    if turns == [] then s else
      assert turns[0] in turns && forall i :: i in turns[1..] ==> i in turns;
      SketchPlay(SketchTurn(s, turns[0]), turns[1..])
  }

  // All names anywhere; a turn moves them but makes none.
  ghost predicate Present(s: Sketch, x: Name) {
    x in s.held || exists i :: 0 <= i < |s.nodes| && x in s.nodes[i].known + s.nodes[i].announced
  }

  lemma TurnMakesNoNames(s: Sketch, i: nat, x: Name)
    requires i < |s.nodes| && Present(SketchTurn(s, i), x)
    ensures Present(s, x)
  {
  }

  /** Over any turns: sets only grow; the register gains everything known to or announced by a node
      that had a turn; such a node gains everything the register held; no name appears from nowhere. */
  lemma {:induction false} PlayGrows(s: Sketch, turns: seq<nat>)
    requires forall i :: i in turns ==> i < |s.nodes|
    ensures var v := SketchPlay(s, turns);
            && s.held <= v.held
            && (forall i :: 0 <= i < |s.nodes| ==>
                  v.nodes[i].announced == s.nodes[i].announced && s.nodes[i].known <= v.nodes[i].known)
            && (forall i :: i in turns ==>
                  s.nodes[i].known + s.nodes[i].announced <= v.held && s.held <= v.nodes[i].known)
            && (forall x :: Present(v, x) ==> Present(s, x))
    decreases |turns|
  {
    if turns != [] {
      assert turns[0] in turns;
      var u := SketchTurn(s, turns[0]);
      assert forall i :: i in turns[1..] ==> i in turns;
      PlayGrows(u, turns[1..]);
      forall x | Present(u, x) ensures Present(s, x) {
        TurnMakesNoNames(s, turns[0], x);
      }
      forall i | i in turns && i != turns[0] ensures i in turns[1..] {
      }
    }
  }

  lemma SketchConverges(s: Sketch, first: seq<nat>, second: seq<nat>, i: nat, x: Name)
    requires (forall k :: k in first ==> k < |s.nodes|) && (forall k :: k in second ==> k < |s.nodes|)
    requires (forall k :: 0 <= k < |s.nodes| ==> k in first && k in second) && i < |s.nodes|
    ensures var v := SketchPlay(SketchPlay(s, first), second);
            (x in v.nodes[i].known <==> Present(s, x)) && (x in v.held <==> Present(s, x))
  {
    var u := SketchPlay(s, first);
    PlayGrows(s, first);
    PlayGrows(u, second);
  }

  // ---- rounds of real chains ----

  datatype Turn = Turn(node: nat, order: seq<Name>, now: Time)
  datatype World = World(nodes: seq<State>, register: Option<string>)

  function Movers(turns: seq<Turn>): (r: seq<nat>)
    ensures |r| == |turns| && forall k :: 0 <= k < |r| ==> r[k] == turns[k].node
  {
    seq(|turns|, k requires 0 <= k < |turns| => turns[k].node)
  }

  // Every turn names a node and lists what that node announces.
  ghost predicate Turns(nodes: seq<State>, turns: seq<Turn>) {
    forall k :: 0 <= k < |turns| ==>
      turns[k].node < |nodes| && Lists(turns[k].order, nodes[turns[k].node].prov.announced)
  }

  ghost function TakeTurn(cfgs: seq<Config>, w: World, t: Turn): (v: World)
    requires t.node < |w.nodes| == |cfgs|
    ensures |v.nodes| == |w.nodes|
  {
    var c := Chain(cfgs[t.node], w.nodes[t.node], w.register, t.order, t.now);
    World(w.nodes[t.node := c.state], c.register)
  }

  ghost function Play(cfgs: seq<Config>, w: World, turns: seq<Turn>): (v: World)
    requires |w.nodes| == |cfgs| && forall k :: 0 <= k < |turns| ==> turns[k].node < |cfgs|
    ensures |v.nodes| == |w.nodes|
    decreases |turns|
  {
    if turns == [] then w else Play(cfgs, TakeTurn(cfgs, w, turns[0]), turns[1..])
  }

  // Idle nodes with everything known, announced or recorded within the limits.
  ghost predicate Bounds(cfgs: seq<Config>, w: World, all: set<Name>) {
    && |w.nodes| == |cfgs| && Contents(w.register) <= all
    && forall i :: 0 <= i < |cfgs| ==> NodeOk(cfgs[i], w.nodes[i], all)
  }

  ghost predicate Setting(cfgs: seq<Config>, w: World, all: set<Name>) {
    Bounds(cfgs, w, all) && Readable(w.register)
  }

  ghost function SketchOf(w: World): (s: Sketch)
    ensures |s.nodes| == |w.nodes|
  {
    Sketch(seq(|w.nodes|, i requires 0 <= i < |w.nodes| => Node(w.nodes[i].index.known, w.nodes[i].prov.announced)),
           Contents(w.register))
  }

  lemma TurnRefines(cfgs: seq<Config>, w: World, t: Turn, all: set<Name>)
    requires Setting(cfgs, w, all) && t.node < |cfgs| && Lists(t.order, w.nodes[t.node].prov.announced)
    ensures var v := TakeTurn(cfgs, w, t);
            && Setting(cfgs, v, all) && SketchOf(v) == SketchTurn(SketchOf(w), t.node)
            && (forall i :: 0 <= i < |cfgs| ==> v.nodes[i].prov == w.nodes[i].prov)
  {
    var r := w.nodes[t.node];
    assert NodeOk(cfgs[t.node], r, all);
    ChainMerges(cfgs[t.node], r, w.register, t.order, t.now, all);
    assert forall i :: 0 <= i < |cfgs| && i != t.node ==> NodeOk(cfgs[i], w.nodes[i], all);
    hide Chain, NodeOk, Readable, Contents, Lists;
    var c := Chain(cfgs[t.node], r, w.register, t.order, t.now);
    var v := TakeTurn(cfgs, w, t);
    assert v == World(w.nodes[t.node := c.state], c.register);
    assert c.state.index.known <= all by { KnownWithin(cfgs[t.node], c.state, all); }
    assert SketchOf(v).nodes == SketchTurn(SketchOf(w), t.node).nodes;
  }

  lemma KnownWithin(cfg: Config, r: State, all: set<Name>)
    requires NodeOk(cfg, r, all)
    ensures r.index.known <= all
  {
  }

  lemma {:induction false} PlayRefines(cfgs: seq<Config>, w: World, turns: seq<Turn>, all: set<Name>)
    requires Setting(cfgs, w, all) && Turns(w.nodes, turns)
    ensures var v := Play(cfgs, w, turns);
            && Setting(cfgs, v, all) && SketchOf(v) == SketchPlay(SketchOf(w), Movers(turns))
            && (forall i :: 0 <= i < |cfgs| ==> v.nodes[i].prov == w.nodes[i].prov)
    decreases |turns|
  {
    if turns != [] {
      var u := TakeTurn(cfgs, w, turns[0]);
      TurnRefines(cfgs, w, turns[0], all);
      hide TakeTurn, Setting, SketchOf;
      assert |w.nodes| == |cfgs| by { SettingSize(cfgs, w, all); }
      PlayRefines(cfgs, u, turns[1..], all);
      assert Movers(turns)[1..] == Movers(turns[1..]);
    }
  }

  lemma SettingSize(cfgs: seq<Config>, w: World, all: set<Name>)
    requires Setting(cfgs, w, all)
    ensures |w.nodes| == |cfgs|
  {
  }

  ghost predicate CoversAll(n: nat, turns: seq<Turn>) {
    forall i :: 0 <= i < n ==> i in Movers(turns)
  }

  /** Two rounds, in any order of nodes within each, bring every node's index, and the register, to
      the union of all that was known, announced or recorded. */
  lemma TwoRoundsConverge(cfgs: seq<Config>, w: World, first: seq<Turn>, second: seq<Turn>, all: set<Name>, i: nat,
      x: Name)
    requires Setting(cfgs, w, all) && i < |cfgs|
    requires Turns(w.nodes, first) && Turns(w.nodes, second) && CoversAll(|cfgs|, first) && CoversAll(|cfgs|, second)
    ensures var v := Play(cfgs, Play(cfgs, w, first), second);
            && (x in v.nodes[i].index.known <==> Present(SketchOf(w), x))
            && (x in Contents(v.register) <==> Present(SketchOf(w), x))
  {
    PlayRefines(cfgs, w, first, all);
    var u := Play(cfgs, w, first);
    PlayRefines(cfgs, u, second, all);
    hide Play, Setting, Contents;
    assert |w.nodes| == |cfgs| by { SettingSize(cfgs, w, all); }
    SketchConverges(SketchOf(w), Movers(first), Movers(second), i, x);
  }

  // ---- a record that does not parse ----

  /** An unreadable record is never repaired: whatever chains run, the record and what every node
      knows and announces stay as they are. */
  lemma {:induction false} UnreadableRegisterStays(cfgs: seq<Config>, w: World, turns: seq<Turn>)
    requires |w.nodes| == |cfgs| && !Readable(w.register) && Turns(w.nodes, turns)
    requires forall i :: 0 <= i < |cfgs| ==> w.nodes[i].index.reconcile == Idle
    ensures var v := Play(cfgs, w, turns);
            && v.register == w.register
            && forall i :: 0 <= i < |cfgs| ==>
                 v.nodes[i].index.known == w.nodes[i].index.known && v.nodes[i].prov == w.nodes[i].prov
    decreases |turns|
  {
    if turns != [] {
      var t := turns[0];
      UnreadableChain(cfgs[t.node], w.nodes[t.node], w.register, t.order, t.now);
      hide Chain, Readable;
      UnreadableRegisterStays(cfgs, TakeTurn(cfgs, w, t), turns[1..]);
    }
  }

  // Every node of `v` knows exactly what was known, announced or recorded anywhere in `w`.
  ghost predicate Converged(w: World, v: World) {
    forall i, x :: 0 <= i < |v.nodes| ==> (x in v.nodes[i].index.known <==> Present(SketchOf(w), x))
  }

  /** The empty text does not parse, and a node that announces a name it does not know is short of the
      union beside such a record. */
  lemma SomeTextIsUnreadable(r: State, x: Name)
    requires x in r.prov.announced && x !in r.index.known
    ensures !Readable(Some("")) && !Converged(World([r], Some("")), World([r], Some("")))
  {
    var w := World([r], Some(""));
    assert SkipSpace("") == "";
    assert x in SketchOf(w).nodes[0].announced;
    assert Present(SketchOf(w), x) && x !in w.nodes[0].index.known;
  }

  /** Two rounds bring every node to the union exactly when the record can be read, or every node
      holds the union already. */
  lemma TwoRoundsConvergeIff(cfgs: seq<Config>, w: World, first: seq<Turn>, second: seq<Turn>, all: set<Name>)
    requires Bounds(cfgs, w, all)
    requires Turns(w.nodes, first) && Turns(w.nodes, second) && CoversAll(|cfgs|, first) && CoversAll(|cfgs|, second)
    ensures Converged(w, Play(cfgs, Play(cfgs, w, first), second)) <==> Readable(w.register) || Converged(w, w)
  {
    var u := Play(cfgs, w, first);
    var v := Play(cfgs, u, second);
    if Readable(w.register) {
      forall i, x | 0 <= i < |v.nodes| ensures x in v.nodes[i].index.known <==> Present(SketchOf(w), x) {
        TwoRoundsConverge(cfgs, w, first, second, all, i, x);
      }
    } else {
      UnreadableRegisterStays(cfgs, w, first);
      UnreadableIdle(cfgs, w, first);
      UnreadableRegisterStays(cfgs, u, second);
      hide Play, SketchOf, Present, Readable;
    }
  }

  lemma {:induction false} UnreadableIdle(cfgs: seq<Config>, w: World, turns: seq<Turn>)
    requires |w.nodes| == |cfgs| && !Readable(w.register) && Turns(w.nodes, turns)
    requires forall i :: 0 <= i < |cfgs| ==> w.nodes[i].index.reconcile == Idle
    ensures var v := Play(cfgs, w, turns);
            Turns(v.nodes, turns) && forall i :: 0 <= i < |cfgs| ==> v.nodes[i].index.reconcile == Idle
    decreases |turns|
  {
    UnreadableRegisterStays(cfgs, w, turns);
    if turns != [] {
      var t := turns[0];
      UnreadableChain(cfgs[t.node], w.nodes[t.node], w.register, t.order, t.now);
      hide Chain, Readable;
      UnreadableIdle(cfgs, TakeTurn(cfgs, w, t), turns[1..]);
    }
  }
}
