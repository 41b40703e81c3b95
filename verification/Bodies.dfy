/**
 Message bodies on the wire.

 `Decode` is the reference meaning of a body decoder: it looks at one payload
 byte, or one framing line, at a time. `PullBody` is what one poll does: it
 takes as much payload as is available. `FramePiece` is the sender's side.
 */
module Bodies {
  import opened States
  import opened Bytes
  import opened ChunkHeaders

  datatype Framing = Fixed(length: nat) | Chunked | CloseDelimited

  datatype Chunk =
    | Size(scanned: nat)
    | Data(remaining: nat, first: bool)
    | DataEnd
    | Trailers

  datatype Reader = Head | Fixed(remaining: nat) | Chunked(chunk: Chunk) | CloseDelimited

  /** Why peer input was rejected; message texts carry no behaviour. */
  datatype Fault =
    | ChunkLineTooLong
    | BadChunkSize
    | ExtensionsTooLong
    | MissingCrlf
    | UnexpectedEof
    | HeadTooLong
    | BadSyntax
    | BadRequest
    | BadResponse
    | BadFraming
    | WrongState
    | PeerFailed

  /** Decoder state: where it is and the extension bytes seen so far. */
  datatype Body = Body(reader: Reader, ext: nat)

  /** One body byte, with the chunk boundaries that touch it. */
  datatype Token = Token(b: byte, first: bool, last: bool)

  datatype Stop = Finished | AtTrailers | Starved | Broken(fault: Fault)

  datatype Decoded = Decoded(tokens: seq<Token>, body: Body, rest: bytes, stop: Stop)

  function ReaderFor(framing: Framing): Reader {
    match framing
    case Fixed(n) => Reader.Fixed(n)
    case Chunked => Reader.Chunked(Size(0))
    case CloseDelimited => Reader.CloseDelimited
  }

  /** A reader inside a body; a chunk being read has bytes left. */
  predicate InBody(reader: Reader) {
    !reader.Head? && (reader.Chunked? && reader.chunk.Data? ==> reader.chunk.remaining >= 1)
  }

  /** A reader whose next bytes are payload. */
  predicate InPayload(reader: Reader) {
    && InBody(reader)
    && (reader.Fixed? ==> reader.remaining >= 1)
    && (reader.Chunked? ==> reader.chunk.Data?)
  }

  // --------------------------------------------------------------- CRLF search

  predicate IsCrlf(data: bytes, i: int) {
    0 <= i && i + 1 < |data| && data[i] == CR && data[i + 1] == LF
  }

  /** The end of the first CRLF at or after `start`. */
  function FindCrlf(data: bytes, start: nat): (r: Option<nat>)
    ensures r.Some? ==> start + 2 <= r.value <= |data| && IsCrlf(data, r.value - 2)
    ensures r.Some? ==> forall i :: start <= i < r.value - 2 ==> !IsCrlf(data, i)
    ensures r.None? ==> forall i :: start <= i ==> !IsCrlf(data, i)
    decreases |data| - start
  {
    if start + 2 > |data| then None
    else if IsCrlf(data, start) then Some(start + 2)
    else FindCrlf(data, start + 1)
  }

  /** How long a line without a CRLF already is; a trailing CR does not count yet. */
  function IncompleteLineLen(data: bytes): nat {
    if data != [] && data[|data| - 1] == CR then |data| - 1 else |data|
  }

  /** Everything before a remembered scan position is known to hold no CRLF. */
  predicate Scanned(data: bytes, scanned: nat) {
    && (scanned == 0 || scanned < |data|)
    && forall i :: 0 <= i < scanned ==> !IsCrlf(data, i)
  }

  predicate ScanOk(reader: Reader, data: bytes) {
    reader.Chunked? && reader.chunk.Size? ==> Scanned(data, reader.chunk.scanned)
  }

  /** A resumed search finds what a search from zero finds. */
  lemma ResumedScan(data: bytes, scanned: nat)
    requires Scanned(data, scanned)
    ensures FindCrlf(data, scanned) == FindCrlf(data, 0)
  {
    var a, b := FindCrlf(data, scanned), FindCrlf(data, 0);
    if a.Some? {
      assert IsCrlf(data, a.value - 2);
    }
    if b.Some? {
      assert IsCrlf(data, b.value - 2);
    }
  }

  lemma CrlfAppend(x: bytes, y: bytes, i: int)
    requires i + 1 < |x|
    ensures IsCrlf(x + y, i) == IsCrlf(x, i)
  {
  }

  /** More input never moves a CRLF already found, nor hides an old gap. */
  lemma FindCrlfAppend(x: bytes, y: bytes)
    ensures FindCrlf(x, 0).Some? ==> FindCrlf(x + y, 0) == FindCrlf(x, 0)
    ensures FindCrlf(x, 0).None? && FindCrlf(x + y, 0).Some? ==>
              FindCrlf(x + y, 0).value - 2 >= IncompleteLineLen(x)
  {
    var a, b := FindCrlf(x, 0), FindCrlf(x + y, 0);
    if a.Some? {
      var i := a.value - 2;
      CrlfAppend(x, y, i);
      assert IsCrlf(x + y, i);
      assert b.Some? && b.value - 2 <= i;
      CrlfAppend(x, y, b.value - 2);
    } else if b.Some? {
      var i := b.value - 2;
      assert IsCrlf(x + y, i);
      if i + 1 < |x| {
        CrlfAppend(x, y, i);
        assert false;
      }
    }
  }

  // --------------------------------------------------------- chunk-size lines

  datatype Line = NoLine | Failed(fault: Fault) | Line(end: nat, size: nat, ext: nat)

  /** One chunk-size line with its length and extension limits. */
  function ReadLine(max: nat, ext: nat, scanned: nat, input: bytes): (r: Line)
    ensures r.Line? ==> 2 <= r.end <= |input|
  {
    var end := FindCrlf(input, scanned);
    if end.None? then
      if IncompleteLineLen(input) > max then Failed(ChunkLineTooLong) else NoLine
    else if end.value - 2 > max then Failed(ChunkLineTooLong)
    else
      var line := input[..end.value - 2];
      var size := ChunkHeader(line);
      if size.None? then Failed(BadChunkSize)
      else
        var total := ext + |line| - HexLen(line);
        if total > max then Failed(ExtensionsTooLong) else Line(end.value, size.value, total)
  }

  function AfterLine(size: nat): (r: Reader)
    ensures InBody(r)
  {
    if size == 0 then Reader.Chunked(Trailers) else Reader.Chunked(Data(size, true))
  }

  function NextScan(input: bytes): nat {
    if |input| == 0 then 0 else |input| - 1
  }

  lemma LineAppend(max: nat, ext: nat, x: bytes, y: bytes)
    ensures var r := ReadLine(max, ext, 0, x);
            !r.NoLine? ==> ReadLine(max, ext, 0, x + y) == r
  {
    FindCrlfAppend(x, y);
    var end := FindCrlf(x, 0);
    if end.Some? {
      assert (x + y)[..end.value - 2] == x[..end.value - 2];
    } else if y == [] {
      assert x + y == x;
    } else {
      assert IncompleteLineLen(x + y) >= |x| >= IncompleteLineLen(x);
    }
  }

  // ---------------------------------------------------------------- reference

  function Prepend(tokens: seq<Token>, d: Decoded): Decoded {
    d.(tokens := tokens + d.tokens)
  }

  function Decode(max: nat, body: Body, input: bytes): (d: Decoded)
    requires InBody(body.reader)
    ensures InBody(d.body.reader)
    decreases |input|
  {
    match body.reader
    case Fixed(n) =>
      if n == 0 then Decoded([], body, input, Finished)
      else if input == [] then Decoded([], body, input, Starved)
      else Prepend([Token(input[0], false, false)],
                   Decode(max, body.(reader := Reader.Fixed(n - 1)), input[1..]))
    case CloseDelimited =>
      if input == [] then Decoded([], body, input, Starved)
      else Prepend([Token(input[0], false, false)], Decode(max, body, input[1..]))
    case Chunked(chunk) =>
      match chunk
      case Size(scanned) => (
        match ReadLine(max, body.ext, scanned, input)
        case NoLine => Decoded([], body.(reader := Reader.Chunked(Size(NextScan(input)))), input, Starved)
        case Failed(f) => Decoded([], body.(reader := Reader.Chunked(Size(0))), input, Broken(f))
        case Line(end, size, ext) => Decode(max, Body(AfterLine(size), ext), input[end..])
      )
      case Data(n, first) =>
        if input == [] then Decoded([], body, input, Starved)
        else Prepend([Token(input[0], first, n == 1)],
                     Decode(max, body.(reader := Reader.Chunked(if n == 1 then DataEnd else Data(n - 1, false))),
                            input[1..]))
      case DataEnd =>
        if |input| < 2 then Decoded([], body, input, Starved)
        else if input[..2] != CRLF then Decoded([], body, input, Broken(MissingCrlf))
        else Decode(max, body.(reader := Reader.Chunked(Size(0))), input[2..])
      case Trailers => Decoded([], body, input, AtTrailers)
  }

  datatype Moved = Moved(reader: Reader, count: nat, first: bool, last: bool)

  /** Moves a decoder in payload past at most `available` bytes. */
  function Advance(reader: Reader, available: nat): Moved {
    match reader
    case Fixed(n) =>
      var count := if n < available then n else available;
      Moved(Reader.Fixed(n - count), count, false, false)
    case Chunked(Data(n, first)) =>
      var count := if n < available then n else available;
      Moved(Reader.Chunked(if count == n then DataEnd else Data(n - count, false)), count, first, count == n)
    case _ => Moved(reader, available, false, false)
  }

  lemma PrependPrepend(s: seq<Token>, t: seq<Token>, d: Decoded)
    ensures Prepend(s, Prepend(t, d)) == Prepend(s + t, d)
  {
    assert s + (t + d.tokens) == (s + t) + d.tokens;
  }

  /** The reference takes payload one byte at a time. */
  lemma DecodeOne(max: nat, body: Body, input: bytes)
    requires InPayload(body.reader) && input != []
    ensures var one := Advance(body.reader, 1);
            && one.count == 1 && InBody(one.reader)
            && Decode(max, body, input) ==
               Prepend([Token(input[0], one.first, one.last)],
                       Decode(max, body.(reader := one.reader), input[1..]))
  {
  }

  lemma NextScanned(x: bytes, y: bytes)
    requires FindCrlf(x, 0).None?
    ensures Scanned(x + y, NextScan(x))
  {
    forall i | 0 <= i < NextScan(x)
      ensures !IsCrlf(x + y, i)
    {
      CrlfAppend(x, y, i);
    }
  }

  lemma ScannedAppend(x: bytes, y: bytes, scanned: nat)
    requires Scanned(x, scanned)
    ensures Scanned(x + y, scanned)
  {
    forall i | 0 <= i < scanned
      ensures !IsCrlf(x + y, i)
    {
      CrlfAppend(x, y, i);
    }
  }

  /** Decoding `x + y` is decoding `x` and going on from where it stopped. */
  ghost predicate Concatenates(max: nat, body: Body, x: bytes, y: bytes)
    requires InBody(body.reader)
  {
    var d := Decode(max, body, x);
    && Decode(max, body, x + y) == Prepend(d.tokens, Decode(max, d.body, d.rest + y))
    && (d.stop.Broken? ==> Decode(max, body, x + y).stop == d.stop)
  }

  lemma PayloadConcat(max: nat, body: Body, x: bytes, y: bytes)
    requires InPayload(body.reader) && x != []
    requires InBody(Advance(body.reader, 1).reader)
    requires Concatenates(max, body.(reader := Advance(body.reader, 1).reader), x[1..], y)
    ensures Concatenates(max, body, x, y)
  {
    var one := Advance(body.reader, 1);
    var next := body.(reader := one.reader);
    DecodeOne(max, body, x);
    DecodeOne(max, body, x + y);
    assert (x + y)[1..] == x[1..] + y && (x + y)[0] == x[0];
    var e := Decode(max, next, x[1..]);
    PrependPrepend([Token(x[0], one.first, one.last)], e.tokens, Decode(max, e.body, e.rest + y));
  }

  lemma PrependNone(d: Decoded)
    ensures Prepend([], d) == d
  {
    assert [] + d.tokens == d.tokens;
  }

  /** Nothing consumed and nothing decoded: the longer input starts over. */
  lemma StillConcat(max: nat, body: Body, x: bytes, y: bytes)
    requires InBody(body.reader) && Decode(max, body, x).tokens == []
    requires var d := Decode(max, body, x); d.body == body && d.rest == x && !d.stop.Broken?
    ensures Concatenates(max, body, x, y)
  {
    PrependNone(Decode(max, body, x + y));
  }

  lemma DataEndConcat(max: nat, ext: nat, x: bytes, y: bytes)
    requires |x| >= 2
    requires x[..2] == CRLF ==> Concatenates(max, Body(Reader.Chunked(Size(0)), ext), x[2..], y)
    ensures Concatenates(max, Body(Reader.Chunked(DataEnd), ext), x, y)
  {
    assert (x + y)[..2] == x[..2] && (x + y)[2..] == x[2..] + y;
    PrependNone(Decode(max, Body(Reader.Chunked(DataEnd), ext), x + y));
  }

  /**
   Segmentation has no meaning: decoding `x` and then, from where it stopped,
   the rest with `y` appended, is decoding `x + y` at once. A stop by error is
   an error of the same class for the longer input.
   */
  lemma {:induction false} DecodeConcat(max: nat, body: Body, x: bytes, y: bytes)
    requires InBody(body.reader) && ScanOk(body.reader, x)
    ensures Concatenates(max, body, x, y)
    decreases |x|, 1
  {
    if InPayload(body.reader) && x != [] {
      var next := body.(reader := Advance(body.reader, 1).reader);
      DecodeOne(max, body, x);
      DecodeConcat(max, next, x[1..], y);
      PayloadConcat(max, body, x, y);
    } else if body.reader.Chunked? && body.reader.chunk.Size? {
      LineConcat(max, body.ext, body.reader.chunk.scanned, x, y);
    } else if body.reader.Chunked? && body.reader.chunk.DataEnd? && |x| >= 2 {
      if x[..2] == CRLF {
        DecodeConcat(max, body.(reader := Reader.Chunked(Size(0))), x[2..], y);
      }
      DataEndConcat(max, body.ext, x, y);
    } else {
      StillConcat(max, body, x, y);
    }
  }

  ghost function DecodeAfter(max: nat, ext: nat, input: bytes, r: Line): Decoded
    requires r.Line? ==> r.end <= |input|
  {
    match r
    case NoLine => Decoded([], Body(Reader.Chunked(Size(NextScan(input))), ext), input, Starved)
    case Failed(f) => Decoded([], Body(Reader.Chunked(Size(0)), ext), input, Broken(f))
    case Line(end, size, total) => Decode(max, Body(AfterLine(size), total), input[end..])
  }

  /** One chunk-size line, wherever the scan for its end resumed. */
  lemma DecodeLine(max: nat, ext: nat, scanned: nat, input: bytes)
    requires Scanned(input, scanned)
    ensures Decode(max, Body(Reader.Chunked(Size(scanned)), ext), input) ==
            DecodeAfter(max, ext, input, ReadLine(max, ext, 0, input))
  {
    ResumedScan(input, scanned);
    assert ReadLine(max, ext, scanned, input) == ReadLine(max, ext, 0, input);
  }

  lemma LineStays(max: nat, ext: nat, scanned: nat, x: bytes, y: bytes)
    requires Scanned(x, scanned) && !ReadLine(max, ext, 0, x).Line?
    ensures var body := Body(Reader.Chunked(Size(scanned)), ext);
            var d := Decode(max, body, x);
            && d.tokens == [] && d.rest == x
            && Decode(max, body, x + y) == Decode(max, d.body, x + y)
            && (d.stop.Broken? ==> Decode(max, body, x + y).stop == d.stop)
  {
    DecodeLine(max, ext, scanned, x);
    ScannedAppend(x, y, scanned);
    DecodeLine(max, ext, scanned, x + y);
    LineAppend(max, ext, x, y);
    if ReadLine(max, ext, 0, x).NoLine? {
      NextScanned(x, y);
      DecodeLine(max, ext, NextScan(x), x + y);
    } else {
      DecodeLine(max, ext, 0, x + y);
    }
  }

  /** The chunk-size-line case of `DecodeConcat`. */
  lemma {:induction false} LineConcat(max: nat, ext: nat, scanned: nat, x: bytes, y: bytes)
    requires Scanned(x, scanned)
    ensures Concatenates(max, Body(Reader.Chunked(Size(scanned)), ext), x, y)
    decreases |x|, 0
  {
    var r := ReadLine(max, ext, 0, x);
    if r.Line? {
      DecodeLine(max, ext, scanned, x);
      ScannedAppend(x, y, scanned);
      DecodeLine(max, ext, scanned, x + y);
      LineAppend(max, ext, x, y);
      assert (x + y)[r.end..] == x[r.end..] + y;
      DecodeConcat(max, Body(AfterLine(r.size), r.ext), x[r.end..], y);
    } else {
      LineStays(max, ext, scanned, x, y);
      PrependNone(Decode(max, Body(Reader.Chunked(Size(scanned)), ext), x + y));
    }
  }
}
