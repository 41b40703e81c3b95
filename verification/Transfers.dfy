/** A whole message: from the calls that send its body to what a receiver decodes. */
module Transfers {
  import opened States
  import opened Bytes
  import opened Bodies
  import opened Payload
  import opened Fields
  import opened Messages
  import C = Conn

  /** Sends body pieces one call after the other; nothing if one is refused. */
  function SendAll(c: C.Conn, pieces: seq<bytes>): Option<(C.Conn, bytes)> {
    if pieces == [] then Some((c, []))
    else
      var front := SendAll(c, pieces[..|pieces| - 1]);
      if front.None? then None
      else
        var (d, text) := C.SendData(front.value.0, pieces[|pieces| - 1]);
        if text.None? then None else Some((d, front.value.1 + text.value))
  }

  /** Sends the pieces and ends the message. */
  function SendMessage(c: C.Conn, pieces: seq<bytes>, trailers: Headers): Option<(C.Conn, bytes)> {
    var sent := SendAll(c, pieces);
    if sent.None? then None
    else
      var (d, text) := C.EndOfMessage(sent.value.0, trailers);
      if text.None? then None else Some((d, sent.value.1 + text.value))
  }

  /** A sender in the middle of a body: only its writer moves. */
  predicate Writes(c: C.Conn, d: C.Conn, writer: Framing) {
    d.Local() == SendBody && d.state == c.state && d.role == c.role && d.cycle.writer == Some(writer)
  }

  lemma PieceIsFramed(c: C.Conn, d: C.Conn, w: Framing, data: bytes)
    requires Writes(c, d, w)
    ensures var f := FrameLength(w, |data|);
            var (e, text) := C.SendData(d, data);
            && (text.Some? <==> f.Some?)
            && (f.Some? ==> text.value == FramedBytes(f.value, data) && Writes(c, e, f.value.writer))
  {
  }

  /** The calls frame the pieces exactly as their writer does. */
  lemma {:induction false} CallsFrame(c: C.Conn, w: Framing, pieces: seq<bytes>)
    requires Writes(c, c, w)
    ensures SendAll(c, pieces).Some? <==> FrameAll(w, pieces).Some?
    ensures SendAll(c, pieces).Some? ==>
              && SendAll(c, pieces).value.1 == FrameAll(w, pieces).value.1
              && Writes(c, SendAll(c, pieces).value.0, FrameAll(w, pieces).value.0)
  {
    if pieces == [] {
    } else {
      var front := pieces[..|pieces| - 1];
      CallsFrame(c, w, front);
      if FrameAll(w, front).Some? {
        PieceIsFramed(c, SendAll(c, front).value.0, FrameAll(w, front).value.0, pieces[|pieces| - 1]);
      }
    }
  }

  /** The trailer section a message carries: none unless it is chunked. */
  function TrailerSection(w: Framing, trailers: Headers): bytes {
    if w.Chunked? then TrailersText(trailers) else []
  }

  /** Whether this ending may follow: a fixed length is used up, and only chunks carry trailers. */
  predicate MayEnd(w: Framing, trailers: Headers) {
    C.EndText(w, trailers).Some?
  }

  lemma EndIsFramed(c: C.Conn, d: C.Conn, w: Framing, trailers: Headers)
    requires Writes(c, d, w)
    ensures C.EndOfMessage(d, trailers).1.Some? ==>
              MayEnd(w, trailers) && C.EndOfMessage(d, trailers).1.value == EndPrefix(w).value + TrailerSection(w, trailers)
  {
    if EndPrefix(w).Some? {
      assert EndPrefix(w).value + [] == EndPrefix(w).value;
    }
  }

  /** Why a decoder stops that has been given a whole message. */
  function EndStop(w: Framing): Stop {
    match w
    case Fixed(_) => Finished
    case Chunked => AtTrailers
    case CloseDelimited => Starved
  }

  /**
   A whole message, whatever pieces it is sent in: if its calls are accepted, their
   bytes decode to exactly the concatenated body, one chunk per non-empty piece
   under chunked framing; what is left is exactly the trailer section, and a
   plain body leaves nothing.
   */
  lemma MessageRoundTrip(max: nat, c: C.Conn, w: Framing, pieces: seq<bytes>, trailers: Headers)
    requires max >= 16 && Sendable(pieces) && Writes(c, c, w)
    requires SendMessage(c, pieces, trailers).Some?
    ensures var wire := SendMessage(c, pieces, trailers).value.1;
            var d := Decode(max, Body(ReaderFor(w), 0), wire);
            && d.tokens == SeenAll(w, pieces) && TokenBytes(d.tokens) == Concat(pieces)
            && d.rest == TrailerSection(w, trailers) && d.stop == EndStop(w)
  {
    CallsFrame(c, w, pieces);
    var (v, text) := FrameAll(w, pieces).value;
    EndIsFramed(c, SendAll(c, pieces).value.0, v, trailers);
    RoundTrip(max, w, pieces);
    WriterKind(w, pieces);
    SeenBytes(w, pieces);
    EndDecodes(max, v, 0, TrailerSection(v, trailers));
    var end := EndPrefix(v).value + TrailerSection(v, trailers);
    DecodeConcat(max, Body(ReaderFor(w), 0), text, end);
    assert [] + end == end;
    assert SeenAll(w, pieces) + [] == SeenAll(w, pieces);
  }

  lemma FixedEnd(d: C.Conn, left: nat)
    requires d.Local() == SendBody && d.cycle.writer == Some(Framing.Fixed(left))
    ensures C.EndOfMessage(d, []).1.Some? <==> left == 0
  {
  }

  /** A fixed-length message is accepted exactly when its pieces add up to the length. */
  lemma FixedMessageIsExact(c: C.Conn, n: nat, pieces: seq<bytes>)
    requires Writes(c, c, Framing.Fixed(n))
    ensures SendMessage(c, pieces, []).Some? <==> TotalLength(pieces) == n
  {
    CallsFrame(c, Framing.Fixed(n), pieces);
    FixedEndsExactly(n, pieces);
    if FrameAll(Framing.Fixed(n), pieces).Some? {
      FixedEnd(SendAll(c, pieces).value.0, n - TotalLength(pieces));
    }
  }
}
