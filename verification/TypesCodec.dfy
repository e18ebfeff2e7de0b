/** The service-type index record: a JSON array of strings, cut to a size limit
    (`encode_types_limited`) and read back (`parse_types`). Text is a sequence
    of code points; its size in the record is its UTF-8 length. */
module TypesCodec {
  import opened Names
  import opened Options

  const MAX_TYPES: nat := 4096

  function Utf8Width(c: char): nat {
    if c as int < 0x80 then 1 else if c as int < 0x800 then 2
    else if c as int < 0x10000 then 3 else 4
  }

  function ByteLen(s: string): nat {
    if s == [] then 0 else Utf8Width(s[0]) + ByteLen(s[1..])
  }

  lemma {:induction false} ByteLenConcat(a: string, b: string)
    ensures ByteLen(a + b) == ByteLen(a) + ByteLen(b)
  {
    if a == [] {
      assert a + b == b;
    } else {
      assert (a + b)[1..] == a[1..] + b;
      ByteLenConcat(a[1..], b);
    }
  }

  // ---- writing (RFC 8259, sections 5 and 7) ----

  function HexDigit(n: nat): char
    requires n < 16
  {
    "0123456789abcdef"[n]
  }

  function EscapeChar(c: char): string {
    if c == '"' then "\\\""
    else if c == '\\' then "\\\\"
    else if c as int == 8 then "\\b"
    else if c as int == 9 then "\\t"
    else if c as int == 10 then "\\n"
    else if c as int == 12 then "\\f"
    else if c as int == 13 then "\\r"
    else if (c as int) < 0x20 then "\\u00" + [HexDigit(c as int / 16), HexDigit(c as int % 16)]
    else [c]
  }

  function Escape(s: string): string {
    if s == [] then "" else EscapeChar(s[0]) + Escape(s[1..])
  }

  function Quote(s: string): string {
    "\"" + Escape(s) + "\""
  }

  function Elements(list: seq<string>): string {
    if list == [] then ""
    else if |list| == 1 then Quote(list[0])
    else Quote(list[0]) + "," + Elements(list[1..])
  }

  function Encode(list: seq<string>): string {
    "[" + Elements(list) + "]"
  }

  // ---- reading ----

  predicate IsSpace(c: char) {
    c == ' ' || c == '\n' || c == '\t' || c == '\r'
  }

  function SkipSpace(s: string): (r: string)
    ensures |r| <= |s|
  {
    if s != [] && IsSpace(s[0]) then SkipSpace(s[1..]) else s
  }

  function HexValue(c: char): Option<nat> {
    if '0' <= c <= '9' then Some(c as int - '0' as int)
    else if 'a' <= c <= 'f' then Some(c as int - 'a' as int + 10)
    else if 'A' <= c <= 'F' then Some(c as int - 'A' as int + 10)
    else None
  }

  function Hex4(s: string): (r: Option<nat>)
    ensures r.Some? ==> |s| >= 4 && r.value < 0x10000
  {
    if |s| < 4 then None else
      match (HexValue(s[0]), HexValue(s[1]), HexValue(s[2]), HexValue(s[3]))
      case (Some(a), Some(b), Some(c), Some(d)) =>
        if a < 16 && b < 16 && c < 16 && d < 16 then Some(((a * 16 + b) * 16 + c) * 16 + d) else None
      case _ => None
  }

  // A `\u` escape, after the `u`: one unit, or a surrogate pair. Lone surrogates are refused.
  function UnicodeEscape(s: string): (r: Option<(char, string)>)
    ensures r.Some? ==> |r.value.1| < |s|
  {
    var unit := Hex4(s);
    if unit.None? then None
    else if unit.value < 0xD800 || 0xE000 <= unit.value then Some((unit.value as char, s[4..]))
    else if 0xDC00 <= unit.value || |s| < 10 || s[4] != '\\' || s[5] != 'u' then None
    else
      var low := Hex4(s[6..]);
      if low.None? || low.value < 0xDC00 || 0xE000 <= low.value then None
      else Some(((0x10000 + (unit.value - 0xD800) * 0x400 + (low.value - 0xDC00)) as char, s[10..]))
  }

  function EscapeSequence(s: string): (r: Option<(char, string)>)
    ensures r.Some? ==> |r.value.1| < |s|
  {
    if s == [] then None
    else if s[0] == '"' || s[0] == '\\' || s[0] == '/' then Some((s[0], s[1..]))
    else if s[0] == 'b' then Some((8 as char, s[1..]))
    else if s[0] == 't' then Some((9 as char, s[1..]))
    else if s[0] == 'n' then Some((10 as char, s[1..]))
    else if s[0] == 'f' then Some((12 as char, s[1..]))
    else if s[0] == 'r' then Some((13 as char, s[1..]))
    else if s[0] == 'u' then UnicodeEscape(s[1..])
    else None
  }

  // One character of a string literal.
  function NextChar(s: string): (r: Option<(char, string)>)
    ensures r.Some? ==> |r.value.1| < |s|
  {
    if s == [] then None
    else if s[0] == '\\' then EscapeSequence(s[1..])
    else if (s[0] as int) < 0x20 then None
    else Some((s[0], s[1..]))
  }

  // The rest of a string literal, after its opening quote.
  function ParseString(s: string): (r: Option<(string, string)>)
    ensures r.Some? ==> |r.value.1| < |s|
    decreases |s|
  {
    if s != [] && s[0] == '"' then Some(("", s[1..]))
    else
      var head := NextChar(s);
      if head.None? then None else
        var tail := ParseString(head.value.1);
        if tail.None? then None else Some(([head.value.0] + tail.value.0, tail.value.1))
  }

  // One or more strings separated by commas, up to and including the closing bracket.
  function ParseElements(s: string): Option<(seq<string>, string)>
    decreases |s|
  {
    if s == [] || s[0] != '"' then None else
      var first := ParseString(s[1..]);
      if first.None? then None else
        var after := SkipSpace(first.value.1);
        if after == [] then None
        else if after[0] == ']' then Some(([first.value.0], after[1..]))
        else if after[0] != ',' then None
        else
          var rest := ParseElements(SkipSpace(after[1..]));
          if rest.None? then None else Some(([first.value.0] + rest.value.0, rest.value.1))
  }

  function ParseArray(s: string): Option<seq<string>> {
    var open := SkipSpace(s);
    if open == [] || open[0] != '[' then None else
      var body := SkipSpace(open[1..]);
      var parsed := if body != [] && body[0] == ']' then Some(([], body[1..])) else ParseElements(body);
      if parsed.Some? && SkipSpace(parsed.value.1) == [] then Some(parsed.value.0) else None
  }

  function ValidNames(list: seq<string>): seq<Name> {
    if list == [] then []
    else (if IsValidServiceName(list[0]) then [list[0]] else []) + ValidNames(list[1..])
  }

  function Take(list: seq<Name>, n: nat): seq<Name> {
    if |list| <= n then list else list[..n]
  }

  function ParseTypes(value: string): Option<seq<Name>> {
    match ParseArray(value)
    case None => None
    case Some(list) => Some(Take(ValidNames(list), MAX_TYPES))
  }

  // ---- reading undoes writing, for all strings ----

  lemma HexRoundTrip(n: nat)
    requires n < 16
    ensures HexValue(HexDigit(n)) == Some(n)
  {
    var d := "0123456789abcdef";
    assert d[n] == (if n < 10 then ('0' as int + n) as char else ('a' as int + n - 10) as char);
  }

  lemma EscapeCharRoundTrip(c: char, rest: string)
    ensures EscapeChar(c) != [] && EscapeChar(c)[0] != '"'
    ensures NextChar(EscapeChar(c) + rest) == Some((c, rest))
  {
    var e := EscapeChar(c);
    var s := e + rest;
    if |e| == 1 {
      assert s[1..] == rest;
    } else if |e| == 2 {
      assert s[1..][0] == e[1] && s[1..][1..] == rest;
    } else {
      var u := s[2..];
      assert e[1] == 'u' && s[1..][0] == 'u' && s[1..][1..] == u;
      assert u[0] == '0' && u[1] == '0' && u[2] == HexDigit(c as int / 16) && u[3] == HexDigit(c as int % 16);
      HexRoundTrip(c as int / 16);
      HexRoundTrip(c as int % 16);
      assert Hex4(u) == Some(c as int);
      assert u[4..] == rest;
      assert UnicodeEscape(u) == Some((c, rest));
    }
  }

  lemma StringStep(s: string, c: char, tail: string, t: string, rest: string)
    requires s != [] && s[0] != '"' && NextChar(s) == Some((c, tail))
    requires ParseString(tail) == Some((t, rest))
    ensures ParseString(s) == Some(([c] + t, rest))
  {
  }

  lemma {:induction false} StringRoundTrip(t: string, rest: string)
    ensures ParseString(Escape(t) + "\"" + rest) == Some((t, rest))
  {
    if t == [] {
      assert (Escape(t) + "\"" + rest)[1..] == rest;
    } else {
      var tail := Escape(t[1..]) + "\"" + rest;
      var s := EscapeChar(t[0]) + tail;
      assert Escape(t) + "\"" + rest == s;
      EscapeCharRoundTrip(t[0], tail);
      hide EscapeChar, NextChar, ParseString;
      StringRoundTrip(t[1..], rest);
      StringStep(s, t[0], tail, t[1..], rest);
      assert t == [t[0]] + t[1..];
    }
  }

  // One step of the element parser: a quoted string followed by `after`.
  lemma FirstElement(t: string, after: string)
    ensures var s := Quote(t) + after;
            s[0] == '"' && ParseString(s[1..]) == Some((t, after))
  {
    assert (Quote(t) + after)[1..] == Escape(t) + "\"" + after;
    StringRoundTrip(t, after);
  }

  lemma ElementsStep(s: string, t: string, after: string, rest: seq<string>)
    requires s != [] && s[0] == '"' && ParseString(s[1..]) == Some((t, after))
    requires after != [] && (after[0] == ']' || after[0] == ',')
    requires after[0] == ']' ==> rest == [] && |after| == 1
    requires after[0] == ',' ==> ParseElements(SkipSpace(after[1..])) == Some((rest, ""))
    ensures ParseElements(s) == Some(([t] + rest, ""))
  {
    assert SkipSpace(after) == after;
    assert [t] + [] == [t];
  }

  lemma {:induction false} ElementsRoundTrip(list: seq<string>)
    requires list != []
    ensures ParseElements(Elements(list) + "]") == Some((list, ""))
  {
    var rest := list[1..];
    var tail := Elements(rest) + "]";
    var after := if |list| == 1 then "]" else "," + tail;
    var s := Quote(list[0]) + after;
    assert Elements(list) + "]" == s;
    FirstElement(list[0], after);
    if |list| > 1 {
      assert after[1..] == tail && tail[0] == '"';
      assert SkipSpace(tail) == tail;
    }
    hide ParseElements, ParseString, SkipSpace, Quote;
    if |list| > 1 {
      ElementsRoundTrip(rest);
    }
    ElementsStep(s, list[0], after, rest);
    assert list == [list[0]] + rest;
  }

  lemma FirstElementQuote(list: seq<string>)
    requires list != []
    ensures Elements(list) != [] && Elements(list)[0] == '"'
  {
  }

  lemma ArrayStep(body: string, list: seq<string>)
    requires body != [] && body[0] == '"' && ParseElements(body) == Some((list, ""))
    ensures ParseArray("[" + body) == Some(list)
  {
    assert ("[" + body)[1..] == body;
  }

  /** JSON written for any list of strings reads back as that list. */
  lemma ArrayRoundTrip(list: seq<string>)
    ensures ParseArray(Encode(list)) == Some(list)
  {
    if list == [] {
      assert Encode(list) == "[]" && Encode(list)[1..] == "]";
    } else {
      FirstElementQuote(list);
      ElementsRoundTrip(list);
      ArrayStep(Elements(list) + "]", list);
      assert Encode(list) == "[" + (Elements(list) + "]");
    }
  }

  // ---- spaces ----

  predicate Blank(s: string) {
    forall i :: 0 <= i < |s| ==> s[i] == ' ' || s[i] == '\n' || s[i] == '\t' || s[i] == '\r'
  }

  lemma {:induction false} SkipBlank(w: string, s: string)
    requires Blank(w) && (s != [] ==> !IsSpace(s[0]))
    ensures SkipSpace(w + s) == s
  {
    if w == [] {
      assert w + s == s;
    } else {
      assert (w + s)[0] == w[0] && (w + s)[1..] == w[1..] + s;
      SkipBlank(w[1..], s);
    }
  }

  // The elements from the `k`-th on and the closing bracket, with blanks between all tokens, and what follows.
  function Spread(list: seq<string>, k: nat, pad: nat -> string, after: string): string
    requires k < |list|
    decreases |list| - k
  {
    if k == |list| - 1 then Quote(list[k]) + (pad(2 * k) + ("]" + after))
    else Quote(list[k]) + (pad(2 * k) + ("," + (pad(2 * k + 1) + Spread(list, k + 1, pad, after))))
  }

  // One more element in front of what parses as `rest`.
  lemma SpreadStep(t: string, w: string, v: string, tail: string, rest: seq<string>, after: string)
    requires Blank(w) && Blank(v) && tail != [] && tail[0] == '"' && ParseElements(tail) == Some((rest, after))
    ensures ParseElements(Quote(t) + (w + ("," + (v + tail)))) == Some(([t] + rest, after))
  {
    var more := "," + (v + tail);
    FirstElement(t, w + more);
    SkipBlank(w, more);
    SkipBlank(v, tail);
    assert more[1..] == v + tail;
  }

  lemma SpreadEnd(t: string, w: string, after: string)
    requires Blank(w)
    ensures ParseElements(Quote(t) + (w + ("]" + after))) == Some(([t], after))
  {
    FirstElement(t, w + ("]" + after));
    SkipBlank(w, "]" + after);
    assert ("]" + after)[1..] == after;
  }

  lemma SpreadQuotes(list: seq<string>, k: nat, pad: nat -> string, after: string)
    requires k < |list|
    ensures Spread(list, k, pad, after) != [] && Spread(list, k, pad, after)[0] == '"'
  {
  }

  lemma {:induction false} SpreadParses(list: seq<string>, k: nat, pad: nat -> string, after: string)
    requires k < |list| && forall i :: Blank(pad(i))
    ensures ParseElements(Spread(list, k, pad, after)) == Some((list[k..], after))
    decreases |list| - k
  {
    hide ParseElements, Quote, Blank;
    if k == |list| - 1 {
      SpreadEnd(list[k], pad(2 * k), after);
      assert list[k..] == [list[k]];
    } else {
      SpreadParses(list, k + 1, pad, after);
      SpreadQuotes(list, k + 1, pad, after);
      SpreadStep(list[k], pad(2 * k), pad(2 * k + 1), Spread(list, k + 1, pad, after), list[k + 1..], after);
      assert list[k..] == [list[k]] + list[k + 1..];
    }
  }

  /** Blanks between the tokens do not matter to the reader. */
  lemma BlanksDoNotMatter(list: seq<string>, a: string, b: string, c: string, pad: nat -> string)
    requires Blank(a) && Blank(b) && Blank(c) && forall i :: Blank(pad(i))
    ensures ParseArray(a + ("[" + (b + if list == [] then "]" + c else Spread(list, 0, pad, c)))) == Some(list)
  {
    var body := if list == [] then "]" + c else Spread(list, 0, pad, c);
    var open := "[" + (b + body);
    SkipBlank(a, open);
    assert open[1..] == b + body;
    SkipBlank(c, []);
    assert c + [] == c;
    hide ParseElements, Spread, Blank;
    if list == [] {
      assert body[0] == ']' && body[1..] == c;
    } else {
      SpreadQuotes(list, 0, pad, c);
      SpreadParses(list, 0, pad, c);
      assert list[0..] == list;
    }
    SkipBlank(b, body);
  }

  lemma {:induction false} ValidNamesIdentity(list: seq<Name>)
    requires forall x :: x in list ==> IsValidServiceName(x)
    ensures ValidNames(list) == list
  {
    if list != [] {
      ValidNamesIdentity(list[1..]);
      assert list == [list[0]] + list[1..];
    }
  }

  /** `parse_types` of an encoded list of at most 4096 valid names is that list. */
  lemma TypesRoundTrip(list: seq<Name>)
    requires forall x :: x in list ==> IsValidServiceName(x)
    requires |list| <= 4096
    ensures ParseTypes(Encode(list)) == Some(list)
  {
    ArrayRoundTrip(list);
    ValidNamesIdentity(list);
  }

  // ---- the size limit ----

  predicate Fits(list: seq<string>, k: nat, maxBytes: nat)
    requires k <= |list|
  {
    ByteLen(Encode(list[..k])) <= maxBytes
  }

  lemma EncodeLen(list: seq<string>)
    ensures ByteLen(Encode(list)) == 2 + ByteLen(Elements(list))
  {
    ByteLenConcat("[" + Elements(list), "]");
    ByteLenConcat("[", Elements(list));
  }

  lemma {:induction false} ElementsGrow(list: seq<string>, k: nat)
    requires k < |list|
    ensures ByteLen(Elements(list[..k])) <= ByteLen(Elements(list[..k + 1]))
  {
    var longer := list[..k + 1];
    var head := Quote(list[0]) + ",";
    if k == 1 {
      ByteLenConcat(head, Elements(longer[1..]));
      ByteLenConcat(Quote(list[0]), ",");
    } else if k > 1 {
      assert list[..k][1..] == list[1..][..k - 1] && longer[1..] == list[1..][..k];
      ElementsGrow(list[1..], k - 1);
      ByteLenConcat(head, Elements(list[1..][..k - 1]));
      ByteLenConcat(head, Elements(list[1..][..k]));
    }
  }

  lemma {:induction false} FitsDownward(list: seq<string>, j: nat, k: nat, maxBytes: nat)
    requires j <= k <= |list| && Fits(list, k, maxBytes)
    ensures Fits(list, j, maxBytes)
    decreases k
  {
    if j < k {
      ElementsGrow(list, k - 1);
      EncodeLen(list[..k - 1]);
      EncodeLen(list[..k]);
      FitsDownward(list, j, k - 1, maxBytes);
    }
  }

  /** The length of the longest prefix of `list[..k]` whose encoding fits; 0 when none does. */
  function LongestFitting(list: seq<string>, k: nat, maxBytes: nat): (n: nat)
    requires k <= |list|
    ensures n <= k
    ensures n > 0 ==> Fits(list, n, maxBytes)
    ensures forall m :: n < m <= k ==> !Fits(list, m, maxBytes)
  {
    if k == 0 || Fits(list, k, maxBytes) then k else LongestFitting(list, k - 1, maxBytes)
  }

  function EncodeLimited(list: seq<string>, maxBytes: nat): string {
    Encode(list[..LongestFitting(list, |list|, maxBytes)])
  }

  /** The binary search of `encode_types_limited` finds the longest fitting prefix.
      The result is within the limit exactly when the limit leaves room for `[]`. */
  method EncodeTypesLimited(list: seq<string>, maxBytes: nat) returns (value: string, included: nat)
    ensures included == LongestFitting(list, |list|, maxBytes) && value == EncodeLimited(list, maxBytes)
    ensures ByteLen(value) <= maxBytes <==> 2 <= maxBytes
  {
    EmptyFits(list, maxBytes);
    value := Encode(list);
    assert list[..|list|] == list;
    if ByteLen(value) <= maxBytes {
      EncodeLen(list);
      return value, |list|;
    }
    var low, high := 0, |list|;
    while low < high
      invariant 0 <= low <= high <= |list|
      invariant low > 0 ==> Fits(list, low, maxBytes)
      invariant forall m :: high < m <= |list| ==> !Fits(list, m, maxBytes)
    {
      var mid := (low + high + 1) / 2;
      if ByteLen(Encode(list[..mid])) <= maxBytes {
        low := mid;
      } else {
        forall m | mid <= m <= |list| ensures !Fits(list, m, maxBytes) {
          if Fits(list, m, maxBytes) {
            FitsDownward(list, mid, m, maxBytes);
          }
        }
        high := mid - 1;
      }
    }
    value, included := Encode(list[..low]), low;
    EncodeLen(list[..low]);
  }

  lemma EmptyFits(list: seq<string>, maxBytes: nat)
    ensures Fits(list, 0, maxBytes) <==> 2 <= maxBytes
  {
    assert list[..0] == [];
    EncodeLen([]);
  }

  /** What is published reads back as a prefix of the list, and as the whole list
      when the whole list fits. */
  lemma PublishedReadsBack(list: seq<Name>, maxBytes: nat)
    requires forall x :: x in list ==> IsValidServiceName(x)
    requires |list| <= 4096
    ensures ParseTypes(EncodeLimited(list, maxBytes)) == Some(list[..LongestFitting(list, |list|, maxBytes)])
    ensures ByteLen(Encode(list)) <= maxBytes ==> ParseTypes(EncodeLimited(list, maxBytes)) == Some(list)
  {
    TypesRoundTrip(list[..LongestFitting(list, |list|, maxBytes)]);
    assert list[..|list|] == list;
  }
}
