/** The sidecar wire format: a 32-bit big-endian length before each message
    body. The body encoding (CBOR) is any pair of functions; theorems that need
    it ask that decoding inverts encoding. */
module Frames {
  import opened Options

  type Byte = x: int | 0 <= x < 256
  type Bytes = seq<Byte>

  const MAX_FRAME: nat := 0x100_0000

  // `Encode` and `Decode` stand for a body that does not encode or decode.
  datatype Error = TooLarge(length: nat) | Encode | Decode

  datatype Codec<!M> = Codec(encode: M -> Option<Bytes>, decode: Bytes -> Option<M>)

  ghost predicate Inverts<M(!new)>(c: Codec<M>) {
    forall m :: c.encode(m).Some? ==> c.decode(c.encode(m).value) == Some(m)
  }

  datatype Encoded = Frame(bytes: Bytes) | Refused(error: Error)

  function Prefix(n: nat): Bytes
    requires n < 0x1_0000_0000
  {
    var a := n / 0x100;
    var b := a / 0x100;
    [b / 0x100, b % 0x100, a % 0x100, n % 0x100]
  }

  function Length(b: Bytes): nat
    requires |b| >= 4
  {
    var b0: int, b1: int, b2: int, b3: int := b[0], b[1], b[2], b[3];
    ((b0 * 0x100 + b1) * 0x100 + b2) * 0x100 + b3
  }

  function EncodeFrame<M>(c: Codec<M>, m: M): Encoded {
    match c.encode(m)
    case None => Refused(Encode)
    case Some(body) => if |body| > MAX_FRAME then Refused(TooLarge(|body|)) else Frame(Prefix(|body|) + body)
  }

  // One decoding step: more bytes needed, a message, or an error; `rest` is the buffer left.
  datatype Step<M> = More | Item(message: M, rest: Bytes) | Bad(error: Error, rest: Bytes)

  function DecodeOne<M>(c: Codec<M>, b: Bytes): Step<M> {
    if |b| < 4 then More
    else if Length(b) > MAX_FRAME then Bad(TooLarge(Length(b)), b)
    else if |b| < 4 + Length(b) then More
    else match c.decode(b[4..4 + Length(b)])
      case Some(m) => Item(m, b[4 + Length(b)..])
      case None => Bad(Decode, b[4 + Length(b)..])
  }

  // What a reader sees of a byte stream: messages up to the first error, and the bytes left over.
  datatype Seen<M> = Seen(messages: seq<M>, rest: Bytes, error: Option<Error>)

  function DecodeAll<M>(c: Codec<M>, b: Bytes): Seen<M>
    decreases |b|
  {
    match DecodeOne(c, b)
    case More => Seen([], b, None)
    case Bad(e, rest) => Seen([], rest, Some(e))
    case Item(m, rest) =>
      var s := DecodeAll(c, rest);
      s.(messages := [m] + s.messages)
  }

  // Reading chunk by chunk, decoding all that is complete after each, until the first error.
  function Feed<M>(c: Codec<M>, s: Seen<M>, chunk: Bytes): Seen<M> {
    if s.error.Some? then s else
      var t := DecodeAll(c, s.rest + chunk);
      t.(messages := s.messages + t.messages)
  }

  function FeedAll<M>(c: Codec<M>, chunks: seq<Bytes>): Seen<M> {
    if chunks == [] then Seen([], [], None)
    else Feed(c, FeedAll(c, chunks[..|chunks| - 1]), chunks[|chunks| - 1])
  }

  function Concat(chunks: seq<Bytes>): Bytes {
    if chunks == [] then [] else Concat(chunks[..|chunks| - 1]) + chunks[|chunks| - 1]
  }

  // ---- the format, on the bytes ----

  // The length a frame declares in its first four bytes, the most significant first.
  function Declared(b: Bytes): nat
    requires |b| >= 4
  {
    (b[0] as int) * 16_777_216 + (b[1] as int) * 65_536 + (b[2] as int) * 256 + b[3]
  }

  // The bytes begin with a frame of at most 16 MiB that carries `body`, and `rest` follows it.
  ghost predicate Carries(b: Bytes, body: Bytes, rest: Bytes) {
    |b| >= 4 && Declared(b) == |body| <= 16_777_216 && b[4..] == body + rest
  }

  // The bytes begin with the header of a frame that is too large.
  predicate Oversized(b: Bytes, n: nat) {
    |b| >= 4 && Declared(b) == n > 16_777_216
  }

  // No frame is complete, and none is known to be too large.
  predicate Incomplete(b: Bytes) {
    |b| < 4 || (Declared(b) <= 16_777_216 && |b| < 4 + Declared(b))
  }

  lemma LengthIsDeclared(b: Bytes)
    requires |b| >= 4
    ensures Length(b) == Declared(b)
  {
  }

  lemma CarriesOne(b: Bytes, body: Bytes, rest: Bytes)
    requires Carries(b, body, rest)
    ensures |b| >= 4 + Declared(b) && body == b[4..4 + Declared(b)] && rest == b[4 + Declared(b)..]
  {
    var n := Declared(b);
    assert b[4..][..n] == body && b[4..][n..] == rest;
  }

  /** What one decoding step means on the bytes: it waits exactly while no frame is complete, refuses a
      declared length above 16 MiB as soon as the four bytes are there, and otherwise takes exactly the
      first frame and gives its message or drops its body. */
  lemma DecodeOneIff<M>(c: Codec<M>, b: Bytes, body: Bytes, rest: Bytes, n: nat)
    ensures DecodeOne(c, b).More? <==> Incomplete(b)
    ensures DecodeOne(c, b) == Bad(TooLarge(n), b) <==> Oversized(b, n)
    ensures Carries(b, body, rest) ==>
              DecodeOne(c, b) == match c.decode(body) case Some(m) => Item(m, rest) case None => Bad(Decode, rest)
    ensures !Incomplete(b) && !(exists k :: Oversized(b, k)) ==> exists x, y :: Carries(b, x, y)
  {
    if |b| >= 4 {
      LengthIsDeclared(b);
      if Carries(b, body, rest) {
        CarriesOne(b, body, rest);
      }
      if !Incomplete(b) && !(exists k :: Oversized(b, k)) {
        assert !Oversized(b, Declared(b));
        assert Carries(b, b[4..4 + Declared(b)], b[4 + Declared(b)..]);
      }
    }
  }

  /** A message is framed exactly when its body encodes to at most 16 MiB, and the frame carries it. */
  lemma EncodeFrameIff<M>(c: Codec<M>, m: M, bytes: Bytes)
    ensures EncodeFrame(c, m) == Frame(bytes) <==> c.encode(m).Some? && Carries(bytes, c.encode(m).value, [])
  {
    if c.encode(m).Some? {
      var body := c.encode(m).value;
      if |body| <= MAX_FRAME {
        PrefixReadsBack(|body|, body);
        LengthIsDeclared(Prefix(|body|) + body);
        assert (Prefix(|body|) + body)[4..] == body + [];
        if Carries(bytes, body, []) {
          assert body + [] == body;
          SameHeader(bytes, Prefix(|body|) + body);
        }
      }
    }
  }

  lemma SameHeader(a: Bytes, b: Bytes)
    requires |a| >= 4 && |b| >= 4 && Declared(a) == Declared(b) && a[4..] == b[4..]
    ensures a == b
  {
    assert a == [a[0], a[1], a[2], a[3]] + a[4..];
    assert b == [b[0], b[1], b[2], b[3]] + b[4..];
  }

  // The bytes are frames carrying these messages one after the other, and then `rest`.
  ghost predicate Spells<M>(c: Codec<M>, b: Bytes, ms: seq<M>, rest: Bytes)
    decreases |ms|
  {
    if ms == [] then b == rest
    else exists body, tail :: Carries(b, body, tail) && c.decode(body) == Some(ms[0]) && Spells(c, tail, ms[1..], rest)
  }

  // Where the reader stops: at an incomplete frame, an oversized one, or one whose body does not decode.
  ghost predicate Stops<M>(c: Codec<M>, at: Bytes, s: Seen<M>) {
    match s.error
    case None => at == s.rest && Incomplete(at)
    case Some(TooLarge(n)) => at == s.rest && Oversized(at, n)
    case Some(Decode) => exists body :: Carries(at, body, s.rest) && c.decode(body) == None
    case Some(Encode) => false
  }

  /** What a reader sees is what the bytes spell: the messages of the frames up to the first place where
      it has to stop, and why it stops there. */
  lemma {:induction false} ReaderSeesWhatIsSpelled<M>(c: Codec<M>, b: Bytes) returns (at: Bytes)
    ensures Spells(c, b, DecodeAll(c, b).messages, at) && Stops(c, at, DecodeAll(c, b))
    decreases |b|
  {
    DecodeOneIff(c, b, [], [], 0);
    if Incomplete(b) {
      at := b;
    } else if n :| Oversized(b, n) {
      DecodeOneIff(c, b, [], [], n);
      at := b;
    } else {
      var body, tail :| Carries(b, body, tail);
      DecodeOneIff(c, b, body, tail, 0);
      hide DecodeOne, Incomplete, Oversized;
      if c.decode(body).None? {
        at := b;
      } else {
        CarriesOne(b, body, tail);
        at := ReaderSeesWhatIsSpelled(c, tail);
        var s := DecodeAll(c, tail);
        var all := [c.decode(body).value] + s.messages;
        assert DecodeAll(c, b) == s.(messages := all);
        assert all[1..] == s.messages;
        hide Carries;
      }
    }
  }

  lemma DecodeOneExtends<M>(c: Codec<M>, a: Bytes, b: Bytes)
    ensures match DecodeOne(c, a)
            case More => true
            case Item(m, rest) => DecodeOne(c, a + b) == Item(m, rest + b)
            case Bad(e, rest) => DecodeOne(c, a + b) == Bad(e, rest + b)
  {
    if |a| >= 4 {
      assert Length(a + b) == Length(a);
      if |a| >= 4 + Length(a) {
        assert (a + b)[4..4 + Length(a)] == a[4..4 + Length(a)];
        assert (a + b)[4 + Length(a)..] == a[4 + Length(a)..] + b;
      }
    }
  }

  lemma DecodeOneShrinks<M>(c: Codec<M>, a: Bytes)
    ensures DecodeOne(c, a).Item? ==> |DecodeOne(c, a).rest| < |a|
  {
  }

  lemma {:induction false} DecodeAllSplits<M>(c: Codec<M>, a: Bytes, b: Bytes)
    ensures var s, t := DecodeAll(c, a), DecodeAll(c, a + b);
            if s.error.Some? then t.messages == s.messages && t.error == s.error
            else t == (var u := DecodeAll(c, s.rest + b); u.(messages := s.messages + u.messages))
    decreases |a|
  {
    DecodeOneExtends(c, a, b);
    DecodeOneShrinks(c, a);
    hide DecodeOne;
    var step := DecodeOne(c, a);
    if step.Item? {
      DecodeAllSplits(c, step.rest, b);
      var s, t := DecodeAll(c, step.rest), DecodeAll(c, step.rest + b);
      assert DecodeAll(c, a) == s.(messages := [step.message] + s.messages);
      assert DecodeAll(c, a + b) == t.(messages := [step.message] + t.messages);
      hide DecodeAll;
      if s.error.None? {
        var u := DecodeAll(c, s.rest + b);
        assert [step.message] + (s.messages + u.messages) == ([step.message] + s.messages) + u.messages;
      }
    } else if step.More? {
      var u := DecodeAll(c, a + b);
      assert [] + u.messages == u.messages;
    }
  }

  /** Chunking does not matter: whatever pieces a byte stream arrives in, the reader sees the messages
      and the first error of the whole stream, and without an error is left with the same bytes. */
  lemma {:induction false} ChunksDoNotMatter<M>(c: Codec<M>, chunks: seq<Bytes>)
    ensures var s, t := FeedAll(c, chunks), DecodeAll(c, Concat(chunks));
            s.messages == t.messages && s.error == t.error && (s.error.None? ==> s.rest == t.rest)
  {
    if chunks != [] {
      var n := |chunks| - 1;
      ChunksDoNotMatter(c, chunks[..n]);
      DecodeAllSplits(c, Concat(chunks[..n]), chunks[n]);
    }
  }

  lemma PrefixReadsBack(n: nat, tail: Bytes)
    requires n < 0x1_0000_0000
    ensures Length(Prefix(n) + tail) == n
  {
    var p := Prefix(n);
    assert (p + tail)[0] == p[0] && (p + tail)[1] == p[1] && (p + tail)[2] == p[2] && (p + tail)[3] == p[3];
  }

  // The frames of a list of messages, one after the other.
  function Wire<M>(c: Codec<M>, ms: seq<M>): Bytes
    requires forall i :: 0 <= i < |ms| ==> EncodeFrame(c, ms[i]).Frame?
  {
    if ms == [] then [] else EncodeFrame(c, ms[0]).bytes + Wire(c, ms[1..])
  }

  lemma {:induction false} FramesReadBack<M(!new)>(c: Codec<M>, ms: seq<M>)
    requires Inverts(c) && forall i :: 0 <= i < |ms| ==> EncodeFrame(c, ms[i]).Frame?
    ensures DecodeAll(c, Wire(c, ms)) == Seen(ms, [], None)
  {
    if ms != [] {
      var body, tail := c.encode(ms[0]).value, Wire(c, ms[1..]);
      var b := Wire(c, ms);
      assert b == Prefix(|body|) + (body + tail);
      PrefixReadsBack(|body|, body + tail);
      assert b[4..4 + |body|] == body && b[4 + |body|..] == tail;
      FramesReadBack(c, ms[1..]);
      assert ms == [ms[0]] + ms[1..];
    }
  }

  /** Any list of encodable messages, cut into any chunks, is read back exactly, in order, with no
      bytes left and no error. */
  lemma MessagesSurviveAnyChunking<M(!new)>(c: Codec<M>, ms: seq<M>, chunks: seq<Bytes>)
    requires Inverts(c) && forall i :: 0 <= i < |ms| ==> EncodeFrame(c, ms[i]).Frame?
    requires Concat(chunks) == Wire(c, ms)
    ensures FeedAll(c, chunks) == Seen(ms, [], None)
  {
    ChunksDoNotMatter(c, chunks);
    FramesReadBack(c, ms);
  }

  // A frame appended to bytes that read cleanly adds its message at the end.
  lemma AppendedReadsBack<M(!new)>(c: Codec<M>, b: Bytes, m: M)
    requires Inverts(c) && EncodeFrame(c, m).Frame?
    requires DecodeAll(c, b).error.None? && DecodeAll(c, b).rest == []
    ensures DecodeAll(c, b + EncodeFrame(c, m).bytes) == Seen(DecodeAll(c, b).messages + [m], [], None)
  {
    var frame := EncodeFrame(c, m).bytes;
    FramesReadBack(c, [m]);
    assert [m][1..] == [] && Wire(c, [m]) == frame + [] == frame;
    DecodeAllSplits(c, b, frame);
    hide DecodeAll, EncodeFrame, Wire, Inverts;
    assert [] + frame == frame;
  }

  /** The codec's buffer. */
  class SidecarCodec<M(!new)> {
    const codec: Codec<M>
    var buffer: Bytes

    constructor (codec: Codec<M>)
      ensures this.codec == codec && buffer == []
    {
      this.codec, buffer := codec, [];
    }

    // An incomplete frame is left untouched.
    method DecodeNext() returns (s: Step<M>)
      modifies this`buffer
      ensures s == DecodeOne(codec, old(buffer))
      ensures buffer == if s.More? then old(buffer) else s.rest
    {
      if |buffer| < 4 {
        return More;
      }
      var len := Length(buffer);
      if len > MAX_FRAME {
        return Bad(TooLarge(len), buffer);
      }
      if |buffer| < 4 + len {
        return More;
      }
      var body := buffer[4..][..len];
      assert body == buffer[4..4 + len];
      buffer := buffer[4..][len..];
      match codec.decode(body) {
        case Some(m) => return Item(m, buffer);
        case None => return Bad(Decode, buffer);
      }
    }

    // A message refused for its encoding or its size leaves the buffer alone; one accepted is read
    // back after everything already in it.
    method Append(m: M) returns (error: Option<Error>)
      modifies this`buffer
      ensures error.None? <==> codec.encode(m).Some? && |codec.encode(m).value| <= MAX_FRAME
      ensures error.Some? ==> buffer == old(buffer)
      ensures error.Some? ==> error.value == if codec.encode(m).None? then Encode else TooLarge(|codec.encode(m).value|)
      ensures error.None? ==>
                var n, body := |old(buffer)|, codec.encode(m).value;
                && |buffer| == n + 4 + |body| && buffer[..n] == old(buffer)
                && Length(buffer[n..]) == |body| && buffer[n + 4..] == body
      ensures error.None? && Inverts(codec) ==>
                var seen := DecodeAll(codec, old(buffer));
                seen.error.None? && seen.rest == [] ==> DecodeAll(codec, buffer) == Seen(seen.messages + [m], [], None)
    {
      match EncodeFrame(codec, m) {
        case Frame(bytes) =>
          ghost var before, body := buffer, codec.encode(m).value;
          buffer := buffer + bytes;
          PrefixReadsBack(|body|, body);
          assert buffer[|before|..] == bytes;
          if Inverts(codec) && DecodeAll(codec, before).error.None? && DecodeAll(codec, before).rest == [] {
            AppendedReadsBack(codec, before, m);
          }
          return None;
        case Refused(e) => return Some(e);
      }
    }
  }
}
