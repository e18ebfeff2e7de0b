/** Verification and selection of trust records fetched from an untrusted DHT
    (`src/auth.rs`, the selection loops of `src/controller/auth_gate.rs`). The
    signature check (COSE_Sign1, section 4.2 of RFC 9052), the document decoders
    and SHA-256 are arbitrary functions. */
module AuthRecords {
  import opened Names
  import opened Options

  type Bytes = seq<bv8>
  type Authority = nat

  const MAX_DOC_BYTES: nat := 0x10_0000
  const MAX_MEMBERS: nat := 100_000
  const MAX_SERVICES: nat := 10_000
  const AUTH_PREFIX: string := "/oahd/auth"

  datatype AuthError = Cose | Malformed | InvalidSignature | Expired | HashMismatch | TooLarge | InvalidName
  datatype Result<T> = Ok(value: T) | Err(error: AuthError)

  datatype Network = Network(hash: string, authority: Authority)
  datatype ServiceEntry = ServiceEntry(name: Name, hash: Bytes, length: nat)
  datatype IndexDoc = IndexDoc(version: nat, expiresAt: nat, services: seq<ServiceEntry>)
  datatype WhitelistDoc = WhitelistDoc(version: nat, members: seq<string>)

  // `open` checks the envelope of a record against an authority and a key path and gives its payload.
  datatype Crypto = Crypto(open: (Authority, string, Bytes) -> Result<Bytes>,
                           index: Bytes -> Option<IndexDoc>,
                           whitelist: Bytes -> Option<WhitelistDoc>,
                           hash: Bytes -> Bytes)

  function IndexKey(net: Network): string {
    AUTH_PREFIX + "/" + net.hash + "/" + RESERVED_SERVICE
  }

  function ServiceKey(net: Network, service: Name): Option<string> {
    if IsValidServiceName(service) then Some(AUTH_PREFIX + "/" + net.hash + "/" + service) else None
  }

  function Open(c: Crypto, net: Network, path: string, value: Bytes): Result<Bytes> {
    if |value| > MAX_DOC_BYTES then Err(TooLarge) else c.open(net.authority, path, value)
  }

  // The first complaint about the entries of an index, in order.
  function EntryError(services: seq<ServiceEntry>): Option<AuthError> {
    if services == [] then None
    else if !IsValidServiceName(services[0].name) then Some(InvalidName)
    else if |services[0].hash| != 32 then Some(Malformed)
    else EntryError(services[1..])
  }

  function VerifyIndex(c: Crypto, net: Network, value: Bytes, now: nat): Result<IndexDoc> {
    match Open(c, net, IndexKey(net), value)
    case Err(e) => Err(e)
    case Ok(payload) =>
      match c.index(payload)
      case None => Err(Malformed)
      case Some(doc) =>
        if |doc.services| > MAX_SERVICES then Err(TooLarge)
        else if EntryError(doc.services).Some? then Err(EntryError(doc.services).value)
        else if now > doc.expiresAt then Err(Expired)
        else Ok(doc)
  }

  function VerifyWhitelist(c: Crypto, net: Network, service: Name, value: Bytes,
      entry: ServiceEntry): Result<WhitelistDoc> {
    if |value| != entry.length || c.hash(value) != entry.hash then Err(HashMismatch)
    else match ServiceKey(net, service)
      case None => Err(InvalidName)
      case Some(path) =>
        match Open(c, net, path, value)
        case Err(e) => Err(e)
        case Ok(payload) =>
          match c.whitelist(payload)
          case None => Err(Malformed)
          case Some(doc) => if |doc.members| > MAX_MEMBERS then Err(TooLarge) else Ok(doc)
  }

  // ---- what verification establishes ----

  // The record carries the index under the network's signature, bound to the path of the index.
  ghost predicate SignedIndex(c: Crypto, net: Network, value: Bytes, doc: IndexDoc) {
    && |value| <= 1_048_576
    && c.open(net.authority, "/oahd/auth/" + net.hash + "/service", value).Ok?
    && c.index(c.open(net.authority, "/oahd/auth/" + net.hash + "/service", value).value) == Some(doc)
    && |doc.services| <= 10_000
    && forall i :: 0 <= i < |doc.services| ==> IsValidServiceName(doc.services[i].name) && |doc.services[i].hash| == 32
  }

  // The record carries the whitelist under the network's signature, bound to the path of the service.
  ghost predicate SignedWhitelist(c: Crypto, net: Network, service: Name, value: Bytes, doc: WhitelistDoc) {
    && IsValidServiceName(service) && |value| <= 1_048_576
    && c.open(net.authority, "/oahd/auth/" + net.hash + "/" + service, value).Ok?
    && c.whitelist(c.open(net.authority, "/oahd/auth/" + net.hash + "/" + service, value).value) == Some(doc)
    && |doc.members| <= 100_000
  }

  lemma {:induction false} EntryErrorNone(services: seq<ServiceEntry>)
    ensures EntryError(services).None? <==>
            forall i :: 0 <= i < |services| ==> IsValidServiceName(services[i].name) && |services[i].hash| == 32
  {
    if services != [] {
      EntryErrorNone(services[1..]);
      assert services == [services[0]] + services[1..];
    }
  }

  lemma Paths(net: Network, service: Name)
    ensures IndexKey(net) == "/oahd/auth/" + net.hash + "/service"
    ensures IsValidServiceName(service) ==> ServiceKey(net, service) == Some("/oahd/auth/" + net.hash + "/" + service)
  {
    assert AUTH_PREFIX + "/" == "/oahd/auth/";
    assert "/" + RESERVED_SERVICE == "/service";
    assert IndexKey(net) == AUTH_PREFIX + "/" + net.hash + ("/" + RESERVED_SERVICE);
  }

  /** An index record verifies exactly when it is signed and well formed and has not expired. */
  lemma VerifyIndexIff(c: Crypto, net: Network, value: Bytes, now: nat, doc: IndexDoc)
    ensures VerifyIndex(c, net, value, now) == Ok(doc) <==> SignedIndex(c, net, value, doc) && now <= doc.expiresAt
  {
    Paths(net, "");
    EntryErrorNone(doc.services);
    hide IndexKey, EntryError, IsValidServiceName;
  }

  /** A whitelist record verifies for an index entry exactly when it has the length and the hash the
      entry lists and is signed for the service. */
  lemma VerifyWhitelistIff(c: Crypto, net: Network, service: Name, value: Bytes, entry: ServiceEntry,
      doc: WhitelistDoc)
    ensures VerifyWhitelist(c, net, service, value, entry) == Ok(doc) <==>
            |value| == entry.length && c.hash(value) == entry.hash && SignedWhitelist(c, net, service, value, doc)
  {
    Paths(net, service);
    hide IsValidServiceName;
  }

  // ---- key paths ----

  lemma CutAtSlash(a: string, x: string, b: string, y: string)
    requires a + "/" + x == b + "/" + y && '/' !in a && '/' !in b
    ensures a == b && x == y
  {
    var s := a + "/" + x;
    assert s[|a|] == '/' && s[|b|] == '/';
    assert s[..|a|] == a && s[..|b|] == b;
    assert s[|a| + 1..] == x && s[|b| + 1..] == y;
  }

  /** A record is bound to one place: the key paths of two networks and services coincide only when
      both do, and none is the path of an index. */
  lemma KeyPathsAreInjective(a: Network, x: Name, b: Network, y: Name)
    requires '/' !in a.hash && '/' !in b.hash && IsValidServiceName(x) && IsValidServiceName(y)
    ensures ServiceKey(a, x) == ServiceKey(b, y) ==> a.hash == b.hash && x == y
    ensures ServiceKey(a, x).value != IndexKey(b)
  {
    forall tail | ServiceKey(a, x).value == AUTH_PREFIX + "/" + b.hash + "/" + tail
        ensures a.hash == b.hash && x == tail {
      var s := ServiceKey(a, x).value;
      assert s[|AUTH_PREFIX| + 1..] == a.hash + "/" + x;
      assert s[|AUTH_PREFIX| + 1..] == b.hash + "/" + tail;
      CutAtSlash(a.hash, x, b.hash, tail);
    }
  }

  /** With signatures that bind the path, a record signed for one service of one network passes for no
      other service or network, and not as an index. */
  lemma RecordsAreBoundToOnePlace(c: Crypto, a: Network, x: Name, b: Network, y: Name, value: Bytes,
      doc: WhitelistDoc)
    requires '/' !in a.hash && '/' !in b.hash && SignedWhitelist(c, a, x, value, doc)
    requires forall k, l, p, q :: c.open(k, p, value).Ok? && c.open(l, q, value).Ok? ==> k == l && p == q
    ensures (exists other :: SignedWhitelist(c, b, y, value, other)) ==> a == b && x == y
    ensures forall index :: !SignedIndex(c, b, value, index)
  {
    Paths(a, x);
    Paths(b, y);
    if IsValidServiceName(y) {
      KeyPathsAreInjective(a, x, b, y);
    }
    KeyPathsAreInjective(a, x, b, x);
    hide IsValidServiceName, IndexKey;
  }

  // ---- selection ----

  // A record that verified: its document, the document's version and the record's size.
  datatype Verified<D> = Verified(doc: D, version: nat, size: nat)

  // A choice among the verified records, or a conflict.
  datatype Choice<D> = Chosen(best: Option<Verified<D>>) | Conflict

  function Weigh<D(==)>(best: Option<Verified<D>>, v: Verified<D>): Choice<D> {
    if best.None? || v.version > best.value.version then Chosen(Some(v))
    else if v.version == best.value.version && v.doc != best.value.doc then Conflict
    else Chosen(best)
  }

  function Pick<D(==)>(vs: seq<Verified<D>>): Choice<D> {
    if vs == [] then Chosen(None) else
      match Pick(vs[..|vs| - 1])
      case Conflict => Conflict
      case Chosen(best) => Weigh(best, vs[|vs| - 1])
  }

  // What a record comes to under a check.
  type Check<D> = Bytes -> Option<Verified<D>>

  function IndexCheck(c: Crypto, net: Network, now: nat): Check<IndexDoc> {
    value =>
      match VerifyIndex(c, net, value, now)
      case Ok(doc) => Some(Verified(doc, doc.version, |value|))
      case Err(_) => None
  }

  function WhitelistCheck(c: Crypto, net: Network, service: Name, entry: ServiceEntry): Check<WhitelistDoc> {
    value =>
      match VerifyWhitelist(c, net, service, value, entry)
      case Ok(doc) => Some(Verified(doc, doc.version, |value|))
      case Err(_) => None
  }

  // The records that pass, in order.
  function Passing<D>(check: Check<D>, records: seq<Bytes>): seq<Verified<D>> {
    if records == [] then [] else
      var n := |records| - 1;
      Passing(check, records[..n]) + match check(records[n]) case Some(v) => [v] case None => []
  }

  // The choice among the records that pass.
  function Select<D(==)>(check: Check<D>, records: seq<Bytes>): Choice<D> {
    Pick(Passing(check, records))
  }

  lemma PickAppend<D>(vs: seq<Verified<D>>, v: Verified<D>)
    ensures Pick(vs + [v]) == match Pick(vs) case Conflict => Conflict case Chosen(best) => Weigh(best, v)
  {
    assert (vs + [v])[..|vs|] == vs;
  }

  // One more record.
  lemma SelectNext<D>(check: Check<D>, records: seq<Bytes>, i: nat)
    requires i < |records|
    ensures Select(check, records[..i + 1]) ==
            match check(records[i])
            case None => Select(check, records[..i])
            case Some(v) =>
              match Select(check, records[..i]) case Conflict => Conflict case Chosen(best) => Weigh(best, v)
  {
    assert records[..i + 1][..i] == records[..i];
    match check(records[i])
    case None => assert Passing(check, records[..i + 1]) == Passing(check, records[..i]);
    case Some(v) => PickAppend(Passing(check, records[..i]), v);
  }

  // Once in conflict, later records change nothing.
  lemma {:induction false} ConflictStays<D>(check: Check<D>, records: seq<Bytes>, i: nat)
    requires i <= |records| && Select(check, records[..i]).Conflict?
    ensures Select(check, records).Conflict?
    decreases |records| - i
  {
    if i == |records| {
      assert records[..i] == records;
    } else {
      SelectNext(check, records, i);
      ConflictStays(check, records, i + 1);
    }
  }

  method SelectIndex(c: Crypto, net: Network, records: seq<Bytes>, now: nat) returns (r: Choice<IndexDoc>)
    ensures r == Select(IndexCheck(c, net, now), records)
    ensures match r
            case Conflict => true
            case Chosen(Some(v)) => Newest(c, net, records, now, v.doc)
            case Chosen(None) =>
              forall value, doc :: value in records && SignedIndex(c, net, value, doc) ==> doc.expiresAt < now
  {
    SelectedIndexIsVerified(c, net, records, now);
    ghost var check := IndexCheck(c, net, now);
    var best: Option<Verified<IndexDoc>> := None;
    for i := 0 to |records|
      invariant Select(check, records[..i]) == Chosen(best)
    {
      SelectNext(check, records, i);
      match VerifyIndex(c, net, records[i], now) {
        case Err(_) =>
        case Ok(doc) =>
          if best.None? || doc.version > best.value.version {
            best := Some(Verified(doc, doc.version, |records[i]|));
          } else if doc.version == best.value.version && doc != best.value.doc {
            ConflictStays(check, records, i + 1);
            return Conflict;
          }
      }
    }
    assert records[..|records|] == records;
    return Chosen(best);
  }

  method SelectWhitelist(c: Crypto, net: Network, service: Name, records: seq<Bytes>, entry: ServiceEntry)
    returns (r: Choice<WhitelistDoc>)
    ensures r == Select(WhitelistCheck(c, net, service, entry), records)
  {
    ghost var check := WhitelistCheck(c, net, service, entry);
    var best: Option<Verified<WhitelistDoc>> := None;
    for i := 0 to |records|
      invariant Select(check, records[..i]) == Chosen(best)
    {
      SelectNext(check, records, i);
      match VerifyWhitelist(c, net, service, records[i], entry) {
        case Err(_) =>
        case Ok(doc) =>
          if best.None? || doc.version > best.value.version {
            best := Some(Verified(doc, doc.version, |records[i]|));
          } else if doc.version == best.value.version && doc != best.value.doc {
            ConflictStays(check, records, i + 1);
            return Conflict;
          }
      }
    }
    assert records[..|records|] == records;
    return Chosen(best);
  }

  // ---- what a selection means ----

  // `v` has the highest version in `vs`, and every record of that version says the same.
  ghost predicate Best<D>(vs: seq<Verified<D>>, v: Verified<D>) {
    && v in vs
    && forall i :: 0 <= i < |vs| ==> vs[i].version < v.version || (vs[i].version == v.version && vs[i].doc == v.doc)
  }

  // Record `j` disagrees with `i` at the highest version seen up to then.
  ghost predicate Disputes<D>(vs: seq<Verified<D>>, i: nat, j: nat) {
    && i < j < |vs| && vs[i].version == vs[j].version && vs[i].doc != vs[j].doc
    && forall k :: 0 <= k < j ==> vs[k].version <= vs[j].version
  }

  /** Selection succeeds exactly when no record disagrees with an earlier one of the highest version
      so far; what it returns is the best record. */
  lemma {:induction false} PickMeans<D(!new)>(vs: seq<Verified<D>>)
    ensures Pick(vs).Conflict? <==> exists i: nat, j: nat :: Disputes(vs, i, j)
    ensures Pick(vs).Chosen? ==> (Pick(vs).best.None? <==> vs == [])
    ensures Pick(vs).Chosen? && Pick(vs).best.Some? ==> Best(vs, Pick(vs).best.value)
  {
    if vs != [] {
      var n := |vs| - 1;
      var init, v := vs[..n], vs[n];
      PickMeans(init);
      assert vs == init + [v];
      forall i: nat, j: nat | Disputes(init, i, j) ensures Disputes(vs, i, j) {
      }
      forall i: nat, j: nat | Disputes(vs, i, j) && j < n ensures Disputes(init, i, j) {
      }
      if Pick(init).Chosen? && n > 0 {
        var b := Pick(init).best.value;
        var m :| 0 <= m < n && init[m] == b;
        if v.version == b.version && v.doc != b.doc {
          assert Disputes(vs, m, n);
        }
      }
    }
  }

  // ---- the order of the records ----

  lemma {:induction false} PassingConcat<D>(check: Check<D>, a: seq<Bytes>, b: seq<Bytes>)
    ensures Passing(check, a + b) == Passing(check, a) + Passing(check, b)
  {
    if b == [] {
      assert a + b == a;
    } else {
      var n := |b| - 1;
      assert (a + b)[..|a| + n] == a + b[..n];
      PassingConcat(check, a, b[..n]);
    }
  }

  lemma {:induction false} PassingHas<D>(check: Check<D>, records: seq<Bytes>, v: Verified<D>)
    ensures v in Passing(check, records) <==> exists value :: value in records && check(value) == Some(v)
  {
    if records != [] {
      var n := |records| - 1;
      PassingHas(check, records[..n], v);
      assert records == records[..n] + [records[n]];
    }
  }

  // Whether a record passes as `v`.
  ghost predicate Says<D>(check: Check<D>, records: seq<Bytes>, v: Verified<D>) {
    exists value :: value in records && check(value) == Some(v)
  }

  ghost predicate SameRecords(a: seq<Bytes>, b: seq<Bytes>) {
    multiset(a) == multiset(b)
  }

  lemma SameSays<D>(check: Check<D>, a: seq<Bytes>, b: seq<Bytes>, v: Verified<D>)
    requires SameRecords(a, b)
    ensures Says(check, a, v) <==> Says(check, b, v)
  {
    forall value ensures value in a <==> value in b {
      assert value in multiset(a) <==> value in multiset(b);
    }
  }

  // `v` has the highest version of all records that pass, and all of that version say the same.
  ghost predicate Decided<D(!new)>(check: Check<D>, records: seq<Bytes>, v: Verified<D>) {
    && Says(check, records, v)
    && forall u :: Says(check, records, u) ==> u.version < v.version || (u.version == v.version && u.doc == v.doc)
  }

  /** What selecting from records means, whatever their order: a choice is a record of the highest
      version among those that pass, with which all of that version agree; nothing is chosen exactly
      when none passes. */
  lemma SelectMeans<D(!new)>(check: Check<D>, records: seq<Bytes>)
    ensures match Select(check, records)
            case Conflict => true
            case Chosen(None) => forall v :: !Says(check, records, v)
            case Chosen(Some(v)) => Decided(check, records, v)
  {
    var vs := Passing(check, records);
    PickMeans(vs);
    forall v ensures Says(check, records, v) <==> v in vs {
      PassingHas(check, records, v);
    }
    hide Says, Passing, Pick;
  }

  /** Two orders of the same records that both succeed choose the same document. */
  lemma OrdersAgree<D(!new)>(check: Check<D>, a: seq<Bytes>, b: seq<Bytes>)
    requires SameRecords(a, b) && Select(check, a).Chosen? && Select(check, b).Chosen?
    ensures match (Select(check, a).best, Select(check, b).best)
            case (Some(v), Some(w)) => v.doc == w.doc && v.version == w.version
            case (None, None) => true
            case _ => false
  {
    SelectMeans(check, a);
    SelectMeans(check, b);
    forall v ensures Says(check, a, v) <==> Says(check, b, v) {
      SameSays(check, a, b, v);
    }
    hide Says, Select, SameRecords;
  }

  /** Two records of the highest version that pass and differ make selection fail in every order. */
  lemma TopConflictAlwaysFails<D(!new)>(check: Check<D>, a: seq<Bytes>, b: seq<Bytes>, v: Verified<D>, w: Verified<D>)
    requires SameRecords(a, b) && Says(check, a, v) && Says(check, a, w)
    requires v.version == w.version && v.doc != w.doc
    requires forall u :: Says(check, a, u) ==> u.version <= v.version
    ensures Select(check, b).Conflict?
  {
    SelectMeans(check, b);
    forall u ensures Says(check, a, u) <==> Says(check, b, u) {
      SameSays(check, a, b, u);
    }
    hide Says, Select, SameRecords;
  }

  // No two records that pass with one version differ.
  ghost predicate Unanimous<D(!new)>(check: Check<D>, records: seq<Bytes>) {
    forall v, w :: Says(check, records, v) && Says(check, records, w) && v.version == w.version ==> v.doc == w.doc
  }

  lemma ToFront(records: seq<Bytes>, i: nat, j: nat) returns (front: seq<Bytes>)
    requires i < j < |records|
    ensures SameRecords(front, records) && |front| >= 2 && front[0] == records[i] && front[1] == records[j]
  {
    var a, b, c := records[..i], records[i + 1..j], records[j + 1..];
    front := [records[i], records[j]] + a + b + c;
    assert records == a + [records[i]] + b + [records[j]] + c;
  }

  lemma FrontConflicts<D(!new)>(check: Check<D>, front: seq<Bytes>, v: Verified<D>, w: Verified<D>)
    requires |front| >= 2 && check(front[0]) == Some(v) && check(front[1]) == Some(w)
    requires v.version == w.version && v.doc != w.doc
    ensures Select(check, front).Conflict?
  {
    var two, rest := [front[0], front[1]], front[2..];
    assert front == two + rest;
    PassingConcat(check, two, rest);
    assert two[..1] == [front[0]] && [front[0]][..0] == [];
    assert Passing(check, [front[0]]) == [v];
    assert Passing(check, two) == [v, w];
    PickMeans(Passing(check, front));
    assert Disputes(Passing(check, front), 0, 1);
  }

  /** Selection succeeds whatever the order exactly when no two records that pass with one version
      differ, at any version. */
  lemma SucceedsInEveryOrderIff<D(!new)>(check: Check<D>, records: seq<Bytes>)
    ensures Unanimous(check, records) <==>
            forall other :: SameRecords(other, records) ==> Select(check, other).Chosen?
  {
    if Unanimous(check, records) {
      forall other | SameRecords(other, records) ensures Select(check, other).Chosen? {
        UnanimousChooses(check, records, other);
      }
    } else {
      var v, w :| Says(check, records, v) && Says(check, records, w) && v.version == w.version && v.doc != w.doc;
      var a :| a in records && check(a) == Some(v);
      var b :| b in records && check(b) == Some(w);
      var i :| 0 <= i < |records| && records[i] == a;
      var j :| 0 <= j < |records| && records[j] == b;
      var front := ToFront(records, if i < j then i else j, if i < j then j else i);
      if i < j {
        FrontConflicts(check, front, v, w);
      } else {
        FrontConflicts(check, front, w, v);
      }
    }
  }

  lemma UnanimousChooses<D(!new)>(check: Check<D>, records: seq<Bytes>, other: seq<Bytes>)
    requires Unanimous(check, records) && SameRecords(other, records)
    ensures Select(check, other).Chosen?
  {
    var vs := Passing(check, other);
    PickMeans(vs);
    forall k | 0 <= k < |vs| ensures Says(check, records, vs[k]) {
      PassingHas(check, other, vs[k]);
      SameSays(check, other, records, vs[k]);
    }
    hide Says, Passing, Pick;
  }

  // ---- what the two checks pass ----

  /** With an injective hash every record that passes for an index entry is the same bytes, so the
      conflict branch of the whitelist selection is never taken. */
  lemma WhitelistsNeverConflict(c: Crypto, net: Network, service: Name, records: seq<Bytes>, entry: ServiceEntry)
    requires forall a, b :: c.hash(a) == c.hash(b) ==> a == b
    ensures Select(WhitelistCheck(c, net, service, entry), records).Chosen?
  {
    var check := WhitelistCheck(c, net, service, entry);
    forall v, w | Says(check, records, v) && Says(check, records, w) ensures v.doc == w.doc {
      var a :| a in records && check(a) == Some(v);
      var b :| b in records && check(b) == Some(w);
      VerifyWhitelistIff(c, net, service, a, entry, v.doc);
      VerifyWhitelistIff(c, net, service, b, entry, w.doc);
    }
    UnanimousChooses(check, records, records);
  }

  /** What selecting an index from records stands for: a record that is signed and unexpired, older than
      no record that is and equal to every one of its version; and nothing only if none is. */
  ghost predicate Newest(c: Crypto, net: Network, records: seq<Bytes>, now: nat, doc: IndexDoc) {
    && now <= doc.expiresAt && (exists value :: value in records && SignedIndex(c, net, value, doc))
    && forall value, other :: value in records && SignedIndex(c, net, value, other) && now <= other.expiresAt ==>
         other.version < doc.version || other == doc
  }

  lemma IndexSays(c: Crypto, net: Network, records: seq<Bytes>, now: nat, value: Bytes, doc: IndexDoc)
    requires value in records && SignedIndex(c, net, value, doc) && now <= doc.expiresAt
    ensures Says(IndexCheck(c, net, now), records, Verified(doc, doc.version, |value|))
  {
    VerifyIndexIff(c, net, value, now, doc);
    hide VerifyIndex, SignedIndex;
    assert IndexCheck(c, net, now)(value) == Some(Verified(doc, doc.version, |value|));
  }

  lemma SelectedIndexIsVerified(c: Crypto, net: Network, records: seq<Bytes>, now: nat)
    ensures match Select(IndexCheck(c, net, now), records)
            case Conflict => true
            case Chosen(Some(v)) => Newest(c, net, records, now, v.doc)
            case Chosen(None) =>
              forall value, doc :: value in records && SignedIndex(c, net, value, doc) ==> doc.expiresAt < now
  {
    var check := IndexCheck(c, net, now);
    SelectMeans(check, records);
    forall value, doc | value in records && SignedIndex(c, net, value, doc) && now <= doc.expiresAt
      ensures Says(check, records, Verified(doc, doc.version, |value|))
    {
      IndexSays(c, net, records, now, value, doc);
    }
    match Select(check, records)
    case Conflict =>
    case Chosen(None) =>
    case Chosen(Some(best)) =>
      hide Select, SignedIndex;
      var chosen :| chosen in records && check(chosen) == Some(best);
      VerifyIndexIff(c, net, chosen, now, best.doc);
      forall value, other | value in records && SignedIndex(c, net, value, other) && now <= other.expiresAt
        ensures other.version < best.doc.version || other == best.doc
      {
        assert Says(check, records, Verified(other, other.version, |value|));
      }
  }

  // ---- version history ----

  datatype Versions = Versions(index: Option<nat>, whitelists: map<Name, nat>)

  const NO_VERSIONS: Versions := Versions(None, map[])

  predicate IndexAccepted(v: Versions, version: nat) {
    v.index.None? || v.index.value <= version
  }

  predicate WhitelistAccepted(v: Versions, service: Name, version: nat) {
    service !in v.whitelists || v.whitelists[service] <= version
  }

  /** The rollback guard. */
  class AuthVersions {
    var index: Option<nat>
    var whitelists: map<Name, nat>

    ghost function View(): Versions
      reads this
    {
      Versions(index, whitelists)
    }

    constructor ()
      ensures View() == NO_VERSIONS
    {
      index, whitelists := None, map[];
    }

    method CheckIndex(version: nat) returns (ok: bool)
      modifies this`index
      ensures ok == IndexAccepted(old(View()), version)
      ensures View() == if ok then old(View()).(index := Some(version)) else old(View())
    {
      if index.Some? && version < index.value {
        return false;
      }
      index := Some(version);
      return true;
    }

    method CheckWhitelist(service: Name, version: nat) returns (ok: bool)
      modifies this`whitelists
      ensures ok == WhitelistAccepted(old(View()), service, version)
      ensures View() == if ok then old(View()).(whitelists := old(whitelists)[service := version]) else old(View())
    {
      if service in whitelists && version < whitelists[service] {
        return false;
      }
      whitelists := whitelists[service := version];
      return true;
    }

    method Clear()
      modifies this
      ensures View() == NO_VERSIONS
    {
      index, whitelists := None, map[];
    }
  }
}
