/** Service names: the validity rule of `src/auth.rs` and the byte order in
    which `sort` and `BTreeSet` visit them. */
module Names {

  type Name = string

  const RESERVED_SERVICE: Name := "service"

  predicate IsNameChar(c: char) {
    'A' <= c <= 'Z' || 'a' <= c <= 'z' || '0' <= c <= '9' || c == '_' || c == '-'
  }

  predicate IsValidNetworkName(s: string) {
    0 < |s| <= 64 && forall i :: 0 <= i < |s| ==> IsNameChar(s[i])
  }

  predicate IsValidServiceName(s: string) {
    IsValidNetworkName(s) && s != RESERVED_SERVICE
  }

  /** A service name has one to 64 characters, ASCII letters, digits, `_` and `-` only, and is not the
      name reserved for the index. */
  lemma ServiceNamesAre(s: string)
    ensures IsValidServiceName(s) <==>
            && 1 <= |s| <= 64 && s != "service"
            && forall i :: 0 <= i < |s| ==>
                 var c := s[i] as int; 65 <= c <= 90 || 97 <= c <= 122 || 48 <= c <= 57 || c == 95 || c == 45
  {
  }

  // Lexicographic order by code point, which is the byte order of UTF-8.
  predicate Leq(a: Name, b: Name) {
    a == [] || (b != [] && (a[0] < b[0] || (a[0] == b[0] && Leq(a[1..], b[1..]))))
  }

  lemma {:induction false} LeqTotal(a: Name, b: Name)
    ensures Leq(a, b) || Leq(b, a)
  {
    if a != [] && b != [] && a[0] == b[0] {
      LeqTotal(a[1..], b[1..]);
    }
  }

  lemma {:induction false} LeqAntisymmetric(a: Name, b: Name)
    requires Leq(a, b) && Leq(b, a)
    ensures a == b
  {
    if a != [] && b != [] {
      LeqAntisymmetric(a[1..], b[1..]);
      assert a == [a[0]] + a[1..] && b == [b[0]] + b[1..];
    }
  }

  lemma {:induction false} LeqTransitive(a: Name, b: Name, c: Name)
    requires Leq(a, b) && Leq(b, c)
    ensures Leq(a, c)
  {
    if a != [] && a[0] == b[0] && b[0] == c[0] {
      LeqTransitive(a[1..], b[1..], c[1..]);
    }
  }

  predicate IsLeast(m: Name, s: set<Name>) {
    m in s && forall y :: y in s ==> Leq(m, y)
  }

  lemma {:induction false} LeastExists(s: set<Name>)
    requires s != {}
    ensures exists m :: IsLeast(m, s)
  {
    var x :| x in s;
    if s == {x} {
      LeqTotal(x, x);
      assert IsLeast(x, s);
    } else {
      var rest := s - {x};
      LeastExists(rest);
      var m :| IsLeast(m, rest);
      LeqTotal(m, x);
      LeqTotal(x, x);
      if Leq(m, x) {
        assert IsLeast(m, s);
      } else {
        forall y | y in s ensures Leq(x, y) {
          if y != x {
            LeqTransitive(x, m, y);
          }
        }
        assert IsLeast(x, s);
      }
    }
  }

  /** The members of `s` in increasing order, each once. */
  ghost function Sorted(s: set<Name>): (r: seq<Name>)
    ensures forall x :: x in r <==> x in s
  {
    if s == {} then [] else
      LeastExists(s);
      var m :| IsLeast(m, s);
      [m] + Sorted(s - {m})
  }

  lemma SortedHead(s: set<Name>, m: Name)
    requires IsLeast(m, s)
    ensures Sorted(s) == [m] + Sorted(s - {m})
  {
    LeastExists(s);
    var first :| IsLeast(first, s) && Sorted(s) == [first] + Sorted(s - {first});
    LeqAntisymmetric(m, first);
  }

  ghost predicate Increasing(r: seq<Name>) {
    forall i, j :: 0 <= i < j < |r| ==> r[i] != r[j] && Leq(r[i], r[j])
  }

  lemma IncreasingCons(m: Name, tail: seq<Name>)
    requires Increasing(tail) && forall y :: y in tail ==> m != y && Leq(m, y)
    ensures Increasing([m] + tail)
  {
    var r := [m] + tail;
    forall i, j | 0 <= i < j < |r| ensures r[i] != r[j] && Leq(r[i], r[j]) {
      assert r[j] == tail[j - 1] && tail[j - 1] in tail;
    }
  }

  lemma {:induction false} SortedIncreases(s: set<Name>)
    ensures Increasing(Sorted(s))
  {
    if s != {} {
      LeastExists(s);
      var m :| IsLeast(m, s);
      SortedHead(s, m);
      SortedIncreases(s - {m});
      IncreasingCons(m, Sorted(s - {m}));
    }
  }

  method Sort(s: set<Name>) returns (r: seq<Name>)
    ensures r == Sorted(s)
  {
    r := [];
    var rest := s;
    while rest != {}
      invariant r + Sorted(rest) == Sorted(s)
      decreases |rest|
    {
      LeastExists(rest);
      var m :| m in rest && IsLeast(m, rest);
      SortedHead(rest, m);
      assert r + [m] + Sorted(rest - {m}) == r + ([m] + Sorted(rest - {m}));
      r, rest := r + [m], rest - {m};
    }
  }
}
