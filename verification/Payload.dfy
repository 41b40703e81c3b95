/** Bulk decoding against the byte-at-a-time reference, and the sender's side. */
module Payload {
  import opened States
  import opened Bytes
  import opened ChunkHeaders
  import opened Bodies

  // --------------------------------------------------------------- bulk polls

  /** An upper bound on how much payload the reader takes in one go; nothing outside payload. */
  function PayloadRemaining(reader: Reader): Option<nat> {
    match reader
    case Fixed(n) => if n > 0 then Some(n) else None
    case Chunked(Data(n, _)) => Some(n)
    case CloseDelimited => Some(USIZE - 1)
    case _ => None
  }

  datatype Got = Piece(count: nat, first: bool, last: bool) | Ended(stop: Stop)

  /** One poll: the framing bytes skipped, then a piece of payload or a stop. */
  datatype Pulled = Pulled(body: Body, skip: nat, got: Got)

  function Skipping(n: nat, p: Pulled): Pulled {
    p.(skip := n + p.skip)
  }

  /** Extension bytes counted even when their total is what is rejected. */
  function CountedExt(max: nat, ext: nat, scanned: nat, input: bytes): nat {
    if ReadLine(max, ext, scanned, input) == Failed(ExtensionsTooLong) then
      var line := input[..FindCrlf(input, scanned).value - 2];
      ext + |line| - HexLen(line)
    else ext
  }

  function PullPayload(body: Body, input: bytes): (p: Pulled)
    requires InPayload(body.reader)
    ensures InBody(p.body.reader) && p.skip == 0
    ensures p.got.Piece? ==> 1 <= p.got.count <= |input|
  {
    if input == [] then Pulled(body, 0, Ended(Starved))
    else
      var m := Advance(body.reader, |input|);
      Pulled(body.(reader := m.reader), 0, Piece(m.count, m.first, m.last))
  }

  function PullBody(max: nat, body: Body, input: bytes): (p: Pulled)
    requires InBody(body.reader)
    ensures InBody(p.body.reader)
    ensures p.skip <= |input|
    ensures p.got.Piece? ==> p.got.count >= 1 && p.skip + p.got.count <= |input|
    decreases |input|
  {
    match body.reader
    case Fixed(n) =>
      if n == 0 then Pulled(body, 0, Ended(Finished)) else PullPayload(body, input)
    case CloseDelimited => PullPayload(body, input)
    case Chunked(chunk) =>
      match chunk
      case Size(scanned) => (
        match ReadLine(max, body.ext, scanned, input)
        case NoLine => Pulled(body.(reader := Reader.Chunked(Size(NextScan(input)))), 0, Ended(Starved))
        case Failed(f) => Pulled(body.(ext := CountedExt(max, body.ext, scanned, input)), 0, Ended(Broken(f)))
        case Line(end, size, ext) =>
          Skipping(end, PullBody(max, Body(AfterLine(size), ext), input[end..]))
      )
      case Data(_, _) => PullPayload(body, input)
      case DataEnd =>
        if |input| < 2 then Pulled(body, 0, Ended(Starved))
        else if input[..2] != CRLF then Pulled(body, 0, Ended(Broken(MissingCrlf)))
        else Skipping(2, PullBody(max, body.(reader := Reader.Chunked(Size(0))), input[2..]))
      case Trailers => Pulled(body, 0, Ended(AtTrailers))
  }

  /** A piece of payload as tokens: its flags mark its first and last byte. */
  function PieceTokens(data: bytes, first: bool, last: bool): seq<Token> {
    if data == [] then []
    else [Token(data[0], first, last && |data| == 1)] + PieceTokens(data[1..], false, last)
  }

  lemma AdvanceOne(reader: Reader, k: nat)
    requires InPayload(reader) && 1 <= k
    ensures var m, one := Advance(reader, k), Advance(reader, 1);
            && 1 <= m.count <= k && InBody(m.reader)
            && (m.count == 1 ==> m == one)
            && (m.count > 1 ==>
                  var n := Advance(one.reader, k - 1);
                  && InPayload(one.reader) && m.first == one.first && !one.last
                  && n == Moved(m.reader, m.count - 1, false, m.last))
  {
  }

  /** `k` payload bytes taken at once, as the reference sees them. */
  ghost predicate Advances(max: nat, body: Body, input: bytes, k: nat)
    requires InPayload(body.reader) && k <= |input|
  {
    var m := Advance(body.reader, k);
    && 1 <= m.count <= k
    && InBody(m.reader)
    && Decode(max, body, input) ==
       Prepend(PieceTokens(input[..m.count], m.first, m.last),
               Decode(max, body.(reader := m.reader), input[m.count..]))
  }

  lemma OneToken(data: bytes, first: bool, last: bool)
    requires data != []
    ensures PieceTokens(data, first, last) ==
            [Token(data[0], first, last && |data| == 1)] + PieceTokens(data[1..], false, last)
    ensures |data| == 1 ==> PieceTokens(data, first, last) == [Token(data[0], first, last)]
  {
    if |data| == 1 {
      assert data[1..] == [];
    }
  }

  lemma AdvanceMore(max: nat, body: Body, input: bytes, k: nat)
    requires InPayload(body.reader) && 2 <= k <= |input|
    requires Advance(body.reader, k).count > 1
    requires var one := Advance(body.reader, 1).reader;
             InPayload(one) && Advances(max, body.(reader := one), input[1..], k - 1)
    ensures Advances(max, body, input, k)
  {
    var m, one := Advance(body.reader, k), Advance(body.reader, 1);
    AdvanceOne(body.reader, k);
    DecodeOne(max, body, input);
    var data := input[..m.count];
    OneToken(data, m.first, m.last);
    assert data[1..] == input[1..][..m.count - 1];
    assert input[1..][m.count - 1..] == input[m.count..];
    PrependPrepend([Token(input[0], one.first, one.last)], PieceTokens(data[1..], false, m.last),
                   Decode(max, body.(reader := m.reader), input[m.count..]));
  }

  /** Taking `k` payload bytes at once is taking them one at a time. */
  lemma {:induction false} AdvanceIsDecode(max: nat, body: Body, input: bytes, k: nat)
    requires InPayload(body.reader) && 1 <= k <= |input|
    ensures Advances(max, body, input, k)
    decreases k
  {
    AdvanceOne(body.reader, k);
    if Advance(body.reader, k).count == 1 {
      var m := Advance(body.reader, k);
      DecodeOne(max, body, input);
      OneToken(input[..1], m.first, m.last);
    } else {
      AdvanceIsDecode(max, body.(reader := Advance(body.reader, 1).reader), input[1..], k - 1);
      AdvanceMore(max, body, input, k);
    }
  }

  /** What a bulk poll of `input` must have to do with the reference decoding. */
  ghost predicate PullMatches(max: nat, input: bytes, p: Pulled, d: Decoded) {
    && InBody(p.body.reader)
    && p.skip <= |input|
    && match p.got
       case Piece(count, first, last) =>
         var end := p.skip + count;
         && 1 <= count && end <= |input|
         && ScanOk(p.body.reader, input[end..])
         && d == Prepend(PieceTokens(input[p.skip..end], first, last), Decode(max, p.body, input[end..]))
       case Ended(stop) =>
         && d.tokens == [] && d.stop == stop && d.rest == input[p.skip..]
         && (!stop.Broken? ==> d.body == p.body && ScanOk(p.body.reader, d.rest))
  }

  lemma PieceMatches(max: nat, input: bytes, next: Body, m: Moved, d: Decoded)
    requires 1 <= m.count <= |input| && InBody(m.reader) && next.reader == m.reader
    requires !(m.reader.Chunked? && m.reader.chunk.Size?)
    requires d == Prepend(PieceTokens(input[0..m.count], m.first, m.last), Decode(max, next, input[m.count..]))
    ensures PullMatches(max, input, Pulled(next, 0, Piece(m.count, m.first, m.last)), d)
  {
  }

  lemma PullPayloadIsDecode(max: nat, body: Body, input: bytes)
    requires InPayload(body.reader)
    ensures PullMatches(max, input, PullPayload(body, input), Decode(max, body, input))
  {
    var d := Decode(max, body, input);
    if input == [] {
      assert d == Decoded([], body, input, Starved);
    } else {
      AdvanceIsDecode(max, body, input, |input|);
      var m := Advance(body.reader, |input|);
      var next := body.(reader := m.reader);
      assert input[0..m.count] == input[..m.count];
      PieceMatches(max, input, next, m, d);
    }
  }

  lemma SkipMatches(max: nat, input: bytes, n: nat, p: Pulled, d: Decoded)
    requires n <= |input| && PullMatches(max, input[n..], p, d)
    ensures PullMatches(max, input, Skipping(n, p), d)
  {
    assert input[n..][p.skip..] == input[n + p.skip..];
    if p.got.Piece? {
      var end := p.skip + p.got.count;
      assert input[n..][end..] == input[n + end..];
      assert input[n..][p.skip..end] == input[n + p.skip..n + end];
    }
  }

  /**
   One bulk poll refines the reference: it skips framing, takes a piece of the
   tokens the reference produces, and leaves the reference the rest; or it
   stops where and why the reference stops.
   */
  lemma {:induction false} PullIsDecode(max: nat, body: Body, input: bytes)
    requires InBody(body.reader) && ScanOk(body.reader, input)
    ensures PullMatches(max, input, PullBody(max, body, input), Decode(max, body, input))
    decreases |input|, 1
  {
    if InPayload(body.reader) {
      PullPayloadIsDecode(max, body, input);
    } else if body.reader.Chunked? && body.reader.chunk.Size? {
      PullLineIsDecode(max, body, input);
    } else if body.reader.Chunked? && body.reader.chunk.DataEnd? && |input| >= 2 && input[..2] == CRLF {
      var next := body.(reader := Reader.Chunked(Size(0)));
      PullIsDecode(max, next, input[2..]);
      SkipMatches(max, input, 2, PullBody(max, next, input[2..]), Decode(max, next, input[2..]));
    }
  }

  lemma PullStopsAtLine(max: nat, ext: nat, scanned: nat, input: bytes)
    requires Scanned(input, scanned) && !ReadLine(max, ext, scanned, input).Line?
    ensures var body := Body(Reader.Chunked(Size(scanned)), ext);
            PullMatches(max, input, PullBody(max, body, input), Decode(max, body, input))
  {
    ResumedScan(input, scanned);
    if ReadLine(max, ext, scanned, input).NoLine? {
      NextScanned(input, []);
      assert input + [] == input;
    }
  }

  lemma {:induction false} PullLineIsDecode(max: nat, body: Body, input: bytes)
    requires body.reader.Chunked? && body.reader.chunk.Size? && ScanOk(body.reader, input)
    ensures PullMatches(max, input, PullBody(max, body, input), Decode(max, body, input))
    decreases |input|, 0
  {
    var scanned := body.reader.chunk.scanned;
    assert body == Body(Reader.Chunked(Size(scanned)), body.ext);
    var r := ReadLine(max, body.ext, scanned, input);
    if r.Line? {
      var next := Body(AfterLine(r.size), r.ext);
      var rest := input[r.end..];
      PullIsDecode(max, next, rest);
      SkipMatches(max, input, r.end, PullBody(max, next, rest), Decode(max, next, rest));
      assert PullBody(max, body, input) == Skipping(r.end, PullBody(max, next, rest));
      assert Decode(max, body, input) == Decode(max, next, rest);
    } else {
      PullStopsAtLine(max, body.ext, scanned, input);
    }
  }

  // -------------------------------------------------------------- sender side

  datatype Framed = Framed(writer: Framing, prefix: bytes, suffix: bytes)

  /** The framing around `length` body bytes, or nothing if they do not fit. */
  function FrameLength(writer: Framing, length: nat): Option<Framed> {
    match writer
    case Fixed(n) => if length <= n then Some(Framed(Framing.Fixed(n - length), [], [])) else None
    case CloseDelimited => Some(Framed(writer, [], []))
    case Chunked =>
      if length == 0 then Some(Framed(writer, [], [])) else Some(Framed(writer, SizeLine(length), CRLF))
  }

  function FramedBytes(f: Framed, data: bytes): bytes {
    f.prefix + data + f.suffix
  }

  /** The bytes that end a message, before any trailer section. */
  function EndPrefix(writer: Framing): Option<bytes> {
    match writer
    case Fixed(n) => if n == 0 then Some([]) else None
    case CloseDelimited => Some([])
    case Chunked => Some([48, CR, LF])
  }

  /** Frames pieces one after the other. */
  function FrameAll(writer: Framing, pieces: seq<bytes>): Option<(Framing, bytes)> {
    if pieces == [] then Some((writer, []))
    else
      var front := FrameAll(writer, pieces[..|pieces| - 1]);
      if front.None? then None
      else
        var data := pieces[|pieces| - 1];
        var f := FrameLength(front.value.0, |data|);
        if f.None? then None else Some((f.value.writer, front.value.1 + FramedBytes(f.value, data)))
  }

  /** What the receiver should see of one piece: under chunked framing, one chunk. */
  function Seen(writer: Framing, data: bytes): seq<Token> {
    PieceTokens(data, writer.Chunked?, writer.Chunked?)
  }

  function SeenAll(writer: Framing, pieces: seq<bytes>): seq<Token> {
    if pieces == [] then []
    else SeenAll(writer, pieces[..|pieces| - 1]) + Seen(writer, pieces[|pieces| - 1])
  }

  /** How a decoder stops when it has consumed all a writer has framed. */
  function IdleStop(writer: Framing): Stop {
    if writer == Framing.Fixed(0) then Finished else Starved
  }

  predicate Sendable(pieces: seq<bytes>) {
    forall i :: 0 <= i < |pieces| ==> |pieces[i]| < USIZE
  }

  lemma PlainPiece(max: nat, w: Framing, ext: nat, data: bytes)
    requires w.Fixed? || w.CloseDelimited?
    requires w.Fixed? ==> |data| <= w.length
    ensures var next := if w.Fixed? then Framing.Fixed(w.length - |data|) else w;
            Decode(max, Body(ReaderFor(w), ext), data) ==
            Decoded(Seen(w, data), Body(ReaderFor(next), ext), [], IdleStop(next))
  {
    if data != [] {
      AdvanceIsDecode(max, Body(ReaderFor(w), ext), data, |data|);
      assert data[..|data|] == data && data[|data|..] == [];
      var d := Decode(max, Body(Advance(ReaderFor(w), |data|).reader, ext), []);
      assert Seen(w, data) + [] == Seen(w, data);
    }
  }

  lemma SizeLineDecodes(max: nat, ext: nat, size: nat, rest: bytes)
    requires max >= 16 && ext <= max && size < USIZE
    ensures Decode(max, Body(Reader.Chunked(Size(0)), ext), SizeLine(size) + rest) ==
            Decode(max, Body(AfterLine(size), ext), rest)
  {
    var ds := HexDigits(size);
    var input := SizeLine(size) + rest;
    SizeLineParses(size);
    assert IsCrlf(input, |ds|);
    forall i | 0 <= i < |ds|
      ensures !IsCrlf(input, i)
    {
      assert DigitValue(ds[i], 16) < 16;
      assert input[i] == ds[i];
    }
    assert FindCrlf(input, 0) == Some(|ds| + 2);
    assert input[..|ds|] == ds && input[|ds| + 2..] == rest;
  }

  lemma ChunkDecodes(max: nat, ext: nat, data: bytes)
    requires max >= 16 && ext <= max && 1 <= |data| < USIZE
    ensures Decode(max, Body(Reader.Chunked(Size(0)), ext), SizeLine(|data|) + data + CRLF) ==
            Decoded(PieceTokens(data, true, true), Body(Reader.Chunked(Size(0)), ext), [], Starved)
  {
    var body := Body(AfterLine(|data|), ext);
    var rest := data + CRLF;
    assert SizeLine(|data|) + data + CRLF == SizeLine(|data|) + rest;
    SizeLineDecodes(max, ext, |data|, rest);
    AdvanceIsDecode(max, body, rest, |data|);
    assert rest[..|data|] == data && rest[|data|..] == CRLF;
    var end := Body(Reader.Chunked(DataEnd), ext);
    assert CRLF[..2] == CRLF && CRLF[2..] == [];
    var idle := Body(Reader.Chunked(Size(0)), ext);
    assert ReadLine(max, ext, 0, []) == NoLine;
    assert Decode(max, idle, []) == Decoded([], idle, [], Starved);
    assert Decode(max, end, CRLF) == Decode(max, idle, []);
    assert PieceTokens(data, true, true) + [] == PieceTokens(data, true, true);
  }

  /** One framed piece decodes to that piece and leaves the matching reader. */
  lemma PieceDecodes(max: nat, w: Framing, ext: nat, data: bytes)
    requires max >= 16 && ext <= max && |data| < USIZE
    requires FrameLength(w, |data|).Some?
    ensures var f := FrameLength(w, |data|).value;
            Decode(max, Body(ReaderFor(w), ext), FramedBytes(f, data)) ==
            Decoded(Seen(w, data), Body(ReaderFor(f.writer), ext), [], IdleStop(f.writer))
  {
    var f := FrameLength(w, |data|).value;
    if w.Chunked? {
      if data == [] {
        assert FramedBytes(f, data) == [];
        assert ReadLine(max, ext, 0, []) == NoLine;
      } else {
        ChunkDecodes(max, ext, data);
      }
    } else {
      assert FramedBytes(f, data) == data;
      PlainPiece(max, w, ext, data);
    }
  }

  lemma WriterKind(w: Framing, pieces: seq<bytes>)
    requires FrameAll(w, pieces).Some?
    ensures var v := FrameAll(w, pieces).value.0;
            v.Chunked? == w.Chunked? && v.Fixed? == w.Fixed?
  {
    if pieces != [] {
      WriterKind(w, pieces[..|pieces| - 1]);
    }
  }

  lemma NoPiece(max: nat, w: Framing)
    ensures Decode(max, Body(ReaderFor(w), 0), []) == Decoded([], Body(ReaderFor(w), 0), [], IdleStop(w))
  {
    assert ReadLine(max, 0, 0, []) == NoLine;
  }

  /**
   Round trip: whatever pieces a sender frames, a receiver with the matching
   reader decodes exactly those bytes, one chunk per non-empty piece under
   chunked framing, with nothing left over.
   */
  lemma {:induction false} RoundTrip(max: nat, w: Framing, pieces: seq<bytes>)
    requires max >= 16 && Sendable(pieces) && FrameAll(w, pieces).Some?
    ensures var (v, wire) := FrameAll(w, pieces).value;
            Decode(max, Body(ReaderFor(w), 0), wire) ==
            Decoded(SeenAll(w, pieces), Body(ReaderFor(v), 0), [], IdleStop(v))
  {
    if pieces == [] {
      NoPiece(max, w);
    } else {
      var front, data := pieces[..|pieces| - 1], pieces[|pieces| - 1];
      RoundTrip(max, w, front);
      WriterKind(w, front);
      var (v, wire) := FrameAll(w, front).value;
      var f := FrameLength(v, |data|).value;
      PieceDecodes(max, v, 0, data);
      DecodeConcat(max, Body(ReaderFor(w), 0), wire, FramedBytes(f, data));
      assert [] + FramedBytes(f, data) == FramedBytes(f, data);
    }
  }

  /** Ending a message: nothing more for a plain body, the trailers for a chunked one. */
  lemma EndDecodes(max: nat, w: Framing, ext: nat, section: bytes)
    requires max >= 16 && ext <= max && EndPrefix(w).Some?
    requires !w.Chunked? ==> section == []
    ensures Decode(max, Body(ReaderFor(w), ext), EndPrefix(w).value + section) ==
            Decoded([], Body(if w.Chunked? then Reader.Chunked(Trailers) else ReaderFor(w), ext), section,
                    if w.Chunked? then AtTrailers else IdleStop(w))
  {
    if w.Chunked? {
      assert SizeLine(0) == [48, CR, LF];
      SizeLineDecodes(max, ext, 0, section);
    } else {
      assert EndPrefix(w).value + section == [];
    }
  }

  function TotalLength(pieces: seq<bytes>): nat {
    if pieces == [] then 0 else TotalLength(pieces[..|pieces| - 1]) + |pieces[|pieces| - 1]|
  }

  /** A fixed-length message can end exactly when its pieces add up to the length. */
  lemma {:induction false} FixedEndsExactly(n: nat, pieces: seq<bytes>)
    ensures FrameAll(Framing.Fixed(n), pieces).Some? <==> TotalLength(pieces) <= n
    ensures FrameAll(Framing.Fixed(n), pieces).Some? ==>
              FrameAll(Framing.Fixed(n), pieces).value.0 == Framing.Fixed(n - TotalLength(pieces))
    ensures FrameAll(Framing.Fixed(n), pieces).Some? && EndPrefix(FrameAll(Framing.Fixed(n), pieces).value.0).Some?
            <==> TotalLength(pieces) == n
  {
    if pieces == [] {
    } else {
      FixedEndsExactly(n, pieces[..|pieces| - 1]);
    }
  }

  function TokenBytes(tokens: seq<Token>): bytes {
    if tokens == [] then [] else [tokens[0].b] + TokenBytes(tokens[1..])
  }

  function Concat(pieces: seq<bytes>): bytes {
    if pieces == [] then [] else Concat(pieces[..|pieces| - 1]) + pieces[|pieces| - 1]
  }

  lemma {:induction false} PieceBytes(data: bytes, first: bool, last: bool)
    ensures TokenBytes(PieceTokens(data, first, last)) == data
  {
    if data == [] {
    } else {
      PieceBytes(data[1..], false, last);
      assert PieceTokens(data, first, last)[1..] == PieceTokens(data[1..], false, last);
    }
  }

  lemma {:induction false} TokenBytesConcat(s: seq<Token>, t: seq<Token>)
    ensures TokenBytes(s + t) == TokenBytes(s) + TokenBytes(t)
  {
    if s == [] {
      assert s + t == t;
    } else {
      assert (s + t)[1..] == s[1..] + t;
      TokenBytesConcat(s[1..], t);
    }
  }

  /** The tokens a receiver sees spell the concatenated body. */
  lemma {:induction false} SeenBytes(w: Framing, pieces: seq<bytes>)
    ensures TokenBytes(SeenAll(w, pieces)) == Concat(pieces)
  {
    if pieces == [] {
    } else {
      var front, data := pieces[..|pieces| - 1], pieces[|pieces| - 1];
      SeenBytes(w, front);
      TokenBytesConcat(SeenAll(w, front), Seen(w, data));
      PieceBytes(data, w.Chunked?, w.Chunked?);
    }
  }
}
