/**
 One direction of a message between two endpoints: body bytes a sender has
 framed and a receiver has yet to decode.
 */
module Lanes {
  import opened Bytes
  import opened Bodies
  import opened Payload

  /** How far a sender is with the body behind its head. */
  datatype Sent = Writing(writer: Framing) | Ended(stop: Stop, section: bytes)

  /** What ending a body leaves for the receiver to find, with its trailer section. */
  function EndedAs(writer: Framing, section: bytes): Sent {
    Sent.Ended(if writer.Chunked? then AtTrailers else if writer.CloseDelimited? then Starved else Finished, section)
  }

  /** What is left of a body once everything on the wire is decoded. */
  ghost predicate Leaves(max: nat, d: Decoded, sent: Sent) {
    match sent
    case Writing(w) => d.stop == IdleStop(w) && d.rest == [] && d.body.reader == ReaderFor(w) && d.body.ext <= max
    case Ended(stop, section) =>
      && d.stop == stop && d.rest == section
      && (stop == AtTrailers <==> section != [])
      && (stop == Starved ==> d.body.reader.CloseDelimited?)
      && !stop.Broken?
  }

  /** A decoder and the bytes on their way to it match what was sent. */
  ghost predicate Linked(max: nat, body: Body, wire: bytes, sent: Sent) {
    && InBody(body.reader) && ScanOk(body.reader, wire) && body.ext <= max
    && Leaves(max, Decode(max, body, wire), sent)
  }

  lemma ScanOkAppend(reader: Reader, x: bytes, y: bytes)
    requires ScanOk(reader, x)
    ensures ScanOk(reader, x + y)
  {
    if reader.Chunked? && reader.chunk.Size? {
      ScannedAppend(x, y, reader.chunk.scanned);
    }
  }

  /** A head alone links a fresh decoder to a fresh writer. */
  lemma FreshLinks(max: nat, w: Framing)
    ensures Linked(max, Body(ReaderFor(w), 0), [], Writing(w))
  {
    NoPiece(max, w);
  }

  /** Appending to the wire goes on from where decoding it stopped. */
  lemma WireAppend(max: nat, body: Body, wire: bytes, more: bytes, w: Framing, sent: Sent)
    requires Linked(max, body, wire, Writing(w))
    requires Leaves(max, Decode(max, Decode(max, body, wire).body, more), sent)
    ensures Linked(max, body, wire + more, sent)
  {
    DecodeConcat(max, body, wire, more);
    assert [] + more == more;
    ScanOkAppend(body.reader, wire, more);
  }

  /** Each framed piece keeps decoder and writer in step. */
  lemma DataLinks(max: nat, body: Body, wire: bytes, w: Framing, data: bytes)
    requires Linked(max, body, wire, Writing(w))
    requires max >= 16 && |data| < USIZE && FrameLength(w, |data|).Some?
    ensures var f := FrameLength(w, |data|).value;
            Linked(max, body, wire + FramedBytes(f, data), Writing(f.writer))
  {
    var f, d := FrameLength(w, |data|).value, Decode(max, body, wire);
    PieceDecodes(max, w, d.body.ext, data);
    assert d.body == Body(ReaderFor(w), d.body.ext);
    WireAppend(max, body, wire, FramedBytes(f, data), w, Writing(f.writer));
  }

  /** So does the end of the message. */
  lemma EndLinks(max: nat, body: Body, wire: bytes, w: Framing, section: bytes)
    requires Linked(max, body, wire, Writing(w))
    requires max >= 16 && EndPrefix(w).Some? && (w.Chunked? <==> section != [])
    ensures Linked(max, body, wire + (EndPrefix(w).value + section), EndedAs(w, section))
  {
    var d := Decode(max, body, wire);
    EndDecodes(max, w, d.body.ext, section);
    assert d.body == Body(ReaderFor(w), d.body.ext);
    WireAppend(max, body, wire, EndPrefix(w).value + section, w, EndedAs(w, section));
  }

  // ------------------------------------------------------- receiving from a lane

  /** What one poll of a linked decoder can find. */
  ghost predicate PullLinked(max: nat, input: bytes, channel: bytes, p: Pulled, sent: Sent) {
    && p.skip <= |input|
    && match p.got
       case Piece(count, _, _) =>
         p.skip + count <= |input| && Linked(max, p.body, input[p.skip + count..] + channel, sent)
       case Ended(Starved) => Linked(max, p.body, input[p.skip..] + channel, sent)
       case Ended(Finished) =>
         && input[p.skip..] == [] && channel == []
         && (sent == Writing(Framing.Fixed(0)) || sent == Sent.Ended(Finished, []))
       case Ended(AtTrailers) =>
         && sent == Sent.Ended(AtTrailers, input[p.skip..] + channel)
         && Linked(max, p.body, input[p.skip..] + channel, sent)
       case Ended(Broken(_)) => false
  }

  lemma LeavesAfter(max: nat, tokens: seq<Token>, d: Decoded, sent: Sent)
    ensures Leaves(max, Prepend(tokens, d), sent) == Leaves(max, d, sent)
  {
  }

  lemma PieceLinks(max: nat, body: Body, input: bytes, channel: bytes, p: Pulled, sent: Sent)
    requires InBody(body.reader) && p.got.Piece? && p.body.ext <= max
    requires PullMatches(max, input, p, Decode(max, body, input))
    requires Concatenates(max, body, input, channel)
    requires Leaves(max, Decode(max, body, input + channel), sent)
    ensures PullLinked(max, input, channel, p, sent)
  {
    var rest := input[p.skip + p.got.count..];
    var e := Decode(max, p.body, rest);
    DecodeConcat(max, p.body, rest, channel);
    ScanOkAppend(p.body.reader, rest, channel);
    var after := Decode(max, e.body, e.rest + channel);
    LeavesAfter(max, Decode(max, body, input).tokens, after, sent);
    LeavesAfter(max, e.tokens, after, sent);
  }

  lemma {:induction false} FinishedReader(max: nat, body: Body, input: bytes)
    requires InBody(body.reader)
    ensures Decode(max, body, input).stop == Finished ==> Decode(max, body, input).body.reader == Reader.Fixed(0)
    decreases |input|
  {
    if InPayload(body.reader) && input != [] {
      DecodeOne(max, body, input);
      FinishedReader(max, body.(reader := Advance(body.reader, 1).reader), input[1..]);
    } else if body.reader.Chunked? && body.reader.chunk.Size? {
      var r := ReadLine(max, body.ext, body.reader.chunk.scanned, input);
      if r.Line? {
        FinishedReader(max, Body(AfterLine(r.size), r.ext), input[r.end..]);
      }
    } else if body.reader.Chunked? && body.reader.chunk.DataEnd? && |input| >= 2 && input[..2] == CRLF {
      FinishedReader(max, body.(reader := Reader.Chunked(Size(0))), input[2..]);
    }
  }

  lemma {:induction false} TrailersReader(max: nat, body: Body, input: bytes)
    requires InBody(body.reader)
    ensures Decode(max, body, input).stop == AtTrailers ==>
              Decode(max, body, input).body.reader == Reader.Chunked(Trailers)
    decreases |input|
  {
    if InPayload(body.reader) && input != [] {
      DecodeOne(max, body, input);
      TrailersReader(max, body.(reader := Advance(body.reader, 1).reader), input[1..]);
    } else if body.reader.Chunked? && body.reader.chunk.Size? {
      var r := ReadLine(max, body.ext, body.reader.chunk.scanned, input);
      if r.Line? {
        TrailersReader(max, Body(AfterLine(r.size), r.ext), input[r.end..]);
      }
    } else if body.reader.Chunked? && body.reader.chunk.DataEnd? && |input| >= 2 && input[..2] == CRLF {
      TrailersReader(max, body.(reader := Reader.Chunked(Size(0))), input[2..]);
    }
  }

  lemma StopLinks(max: nat, body: Body, input: bytes, channel: bytes, p: Pulled, sent: Sent)
    requires InBody(body.reader) && p.got.Ended? && (!p.got.stop.Broken? ==> p.body.ext <= max)
    requires PullMatches(max, input, p, Decode(max, body, input))
    requires Concatenates(max, body, input, channel)
    requires Leaves(max, Decode(max, body, input + channel), sent)
    ensures PullLinked(max, input, channel, p, sent)
  {
    var d := Decode(max, body, input);
    LeavesAfter(max, d.tokens, Decode(max, d.body, d.rest + channel), sent);
    if !p.got.stop.Broken? {
      ScanOkAppend(p.body.reader, d.rest, channel);
      if p.got.stop == Finished {
        FinishedReader(max, body, input);
      } else if p.got.stop == AtTrailers {
        TrailersReader(max, body, input);
      }
    }
  }

  /** Polling a linked decoder keeps it linked, or ends it where the sender did. */
  lemma PullLinks(max: nat, body: Body, input: bytes, channel: bytes, sent: Sent)
    requires Linked(max, body, input + channel, sent) && ScanOk(body.reader, input)
    requires var p := PullBody(max, body, input); !(p.got.Ended? && p.got.stop.Broken?) ==> p.body.ext <= max
    ensures PullLinked(max, input, channel, PullBody(max, body, input), sent)
  {
    var p := PullBody(max, body, input);
    PullIsDecode(max, body, input);
    DecodeConcat(max, body, input, channel);
    match p.got
    case Piece(count, first, last) => PieceLinks(max, body, input, channel, p, sent);
    case Ended(stop) => StopLinks(max, body, input, channel, p, sent);
  }

  /** With nothing left on the wire, a linked decoder waits just where the writer is. */
  lemma DryLinks(max: nat, body: Body, sent: Sent)
    requires Linked(max, body, [], sent)
    ensures match sent
            case Writing(w) => body.reader == ReaderFor(w)
            case Ended(stop, section) =>
              section == [] && (if stop == Starved then body.reader.CloseDelimited? else body.reader == Reader.Fixed(0))
  {
    if body.reader.Chunked? && body.reader.chunk.Size? {
      assert ReadLine(max, body.ext, body.reader.chunk.scanned, []) == NoLine;
    }
  }
}
