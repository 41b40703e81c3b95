/**
 A message body however it arrives: in any pieces, copied into the buffer or
 held by the caller, with polls anywhere in between.
 */
module Sessions {
  import opened States
  import opened Bytes
  import opened Bodies
  import opened Payload
  import opened Messages
  import opened Conn
  import opened Runs
  import opened Effects

  // ------------------------------------------------------- what one poll reports

  /** A failure as the caller is told of it: only a server suggests a status. */
  function FailureFor(role: Role, fault: Fault): Next {
    Faulted(PeerFault(fault, if role == Client then None else Some(400)))
  }

  /** What a poll reports when the decoder stops for this reason. */
  predicate Reports(c: Conn, stop: Stop, next: Next) {
    match stop
    case Finished => next == Other(EndPolled([]))
    case Starved =>
      if !c.eof then next == Other(NeedData)
      else if c.cycle.reader.CloseDelimited? then next == Other(EndPolled([]))
      else next == FailureFor(c.role, UnexpectedEof)
    case Broken(fault) => next == FailureFor(c.role, fault)
    case AtTrailers => !next.Content?
  }

  function BodyOf(c: Conn): Bodies.Body {
    Bodies.Body(c.cycle.reader, c.cycle.ext)
  }

  /** The connection after one poll of a body, by what the pull yields. */
  ghost predicate PollsTo(c: Conn, p: Pulled, r: (Conn, Next))
    requires p.skip <= |c.input| && (p.got.Piece? ==> p.skip + p.got.count <= |c.input|)
  {
    var (d, next) := r;
    match p.got
    case Piece(count, first, last) =>
      && next == Content(c.input[p.skip..p.skip + count], first, last)
      && d.input == c.input[p.skip + count..] && BodyOf(d) == p.body && d.Remote() == SendBody
    case Ended(stop) =>
      && Reports(c, stop, next)
      && (stop != AtTrailers ==> d.input == c.input[p.skip..])
      && (stop == Starved && !c.eof ==> BodyOf(d) == p.body && d.Remote() == SendBody)
  }

  /** How a poll of a body passes through the decoder. */
  lemma PollPulls(env: Env, c: Conn)
    requires Sound(c) && c.Remote() == SendBody && !c.cycle.reader.Head?
    ensures NextEventInner(env, c) == AfterBody(env, AfterPull(c, Pull(c)), Pull(c).got)
  {
  }

  lemma PieceReports(env: Env, c: Conn, p: Pulled)
    requires Inv(c) && c.held == 0 && c.Remote() == SendBody && p == Pull(c) && p.got.Piece?
    requires NextEventInner(env, c) == PeerData(AfterPull(c, p), p.got.count, p.got.first, p.got.last)
    ensures PollsTo(c, p, NextEvent(env, c))
  {
    assert c.input[p.skip..][..p.got.count] == c.input[p.skip..p.skip + p.got.count];
    assert c.input[p.skip..][p.got.count..] == c.input[p.skip + p.got.count..];
  }

  lemma EndReports(env: Env, c: Conn, p: Pulled)
    requires c.Remote() == SendBody && Sound(c) && p.skip <= |c.input|
    requires (p.got == Ended(Finished) || p.got == Ended(Starved)) && Inv(AfterPull(c, p)) && AfterPull(c, p).held == 0
    requires p.body.reader.CloseDelimited? == c.cycle.reader.CloseDelimited?
    requires NextEventInner(env, c) == AfterBody(env, AfterPull(c, p), p.got)
    ensures PollsTo(c, p, NextEvent(env, c))
  {
    FinishPeerOk(AfterPull(c, p), []);
  }

  /** Only a close-delimited body has a close-delimited decoder. */
  lemma {:induction false} PullKeepsReader(max: nat, body: Bodies.Body, input: bytes)
    requires InBody(body.reader)
    ensures PullBody(max, body, input).body.reader.CloseDelimited? == body.reader.CloseDelimited?
    decreases |input|
  {
    if body.reader.Chunked? {
      var chunk := body.reader.chunk;
      if chunk.Size? {
        var r := ReadLine(max, body.ext, chunk.scanned, input);
        if r.Line? {
          PullKeepsReader(max, Bodies.Body(AfterLine(r.size), r.ext), input[r.end..]);
        }
      } else if chunk.DataEnd? && |input| >= 2 && input[..2] == CRLF {
        PullKeepsReader(max, body.(reader := Reader.Chunked(Size(0))), input[2..]);
      }
    }
  }

  lemma TrailersNoContent(env: Env, d: Conn)
    requires d.cycle.progress.Within(d.input)
    ensures !ReadTrailers(env, d).1.DataPolled?
  {
  }

  /** A poll of a body reports exactly what its pull yields. */
  lemma PollReports(env: Env, c: Conn)
    requires Inv(c) && c.held == 0 && c.Remote() == SendBody
    ensures PollsTo(c, Pull(c), NextEvent(env, c))
  {
    var p := Pull(c);
    PollPulls(env, c);
    AfterPullInv(c);
    PullKeepsReader(c.limits.maxHead, BodyOf(c), c.input);
    match p.got
    case Piece(_, _, _) => PieceReports(env, c, p);
    case Ended(AtTrailers) => TrailersNoContent(env, AfterPull(c, p));
    case Ended(Broken(_)) =>
    case Ended(_) => EndReports(env, c, p);
  }

  lemma PolledInput(env: Env, c: Conn)
    requires Sound(c)
    ensures var (d, polled) := NextEventInner(env, c);
            NextEvent(env, c).0.input == if polled.DataPolled? then d.input[polled.count..] else d.input
  {
  }

  /** The bytes a poll consumed are the front of the input it found. */
  lemma PolledSuffix(c: Conn, inner: (Conn, Polled), r: (Conn, Next))
    requires Effect(c, inner)
    requires r.0.input ==
             if inner.1.DataPolled? && inner.1.count <= |inner.0.input| then inner.0.input[inner.1.count..] else inner.0.input
    ensures |r.0.input| <= |c.input| && c.input == c.input[..|c.input| - |r.0.input|] + r.0.input
  {
  }

  lemma PollTakesFront(env: Env, c: Conn)
    requires Inv(c)
    ensures var d := NextEvent(env, c).0;
            |d.input| <= |c.input| && c.input == c.input[..|c.input| - |d.input|] + d.input
  {
    InnerEffect(env, c);
    PolledInput(env, c);
    PolledSuffix(c, NextEventInner(env, c), NextEvent(env, c));
  }

  // --------------------------------------------------------------------- feeds

  datatype Ending = Open | Over(stop: Stop, rest: bytes, body: Option<Bodies.Body>, report: Next)

  /** What the caller is told when a body is over before any trailer section. */
  predicate Told(role: Role, stop: Stop, body: Option<Bodies.Body>, report: Next) {
    match stop
    case Finished => report == Other(EndPolled([]))
    case Starved =>
      report == if body.Some? && body.value.reader.CloseDelimited? then Other(EndPolled([]))
                else FailureFor(role, UnexpectedEof)
    case Broken(fault) => report == FailureFor(role, fault)
    case AtTrailers => !report.Content?
  }

  /**
   A connection receiving a body, the bytes its caller holds, the bytes already
   past both, and what polls have shown of the body.
   */
  datatype Feed = Feed(c: Conn, kept: bytes, consumed: bytes, seen: seq<Token>, ending: Ending)

  datatype FeedOp = Copy(data: bytes) | Keep(data: bytes) | HandOver(count: nat) | Ask

  predicate FeedInv(f: Feed) {
    && Inv(f.c) && |f.kept| == f.c.held
    && match f.ending
       case Open => f.c.Remote() == SendBody
       case Over(stop, rest, body, report) =>
         && f.kept == [] && (stop == Starved ==> f.c.eof) && (stop != AtTrailers ==> rest == f.c.input)
         && Told(f.c.role, stop, body, report)
  }

  /** Held bytes are handed over before a poll. */
  predicate InOrder(f: Feed, op: FeedOp) {
    op.Ask? ==> f.c.held == 0
  }

  function BodyUnless(stop: Stop, body: Bodies.Body): Option<Bodies.Body> {
    if stop.Broken? then None else Some(body)
  }

  /** A feed after one poll: what it saw is what the poll handed out. */
  function PolledFeed(f: Feed, p: Pulled, r: (Conn, Next)): Feed
    requires p.skip <= |f.c.input| && |r.0.input| <= |f.c.input|
  {
    var (d, next) := r;
    var g := f.(c := d, consumed := f.consumed + f.c.input[..|f.c.input| - |d.input|]);
    match next
    case Content(data, first, last) => g.(seen := f.seen + PieceTokens(data, first, last))
    case _ =>
      if p.got.Piece? || (p.got == Ended(Starved) && next == Other(NeedData)) then g
      else g.(ending := Over(p.got.stop, f.c.input[p.skip..], BodyUnless(p.got.stop, p.body), next))
  }

  /** One poll of an open body. */
  ghost function Asked(env: Env, f: Feed): Feed
    requires FeedInv(f) && f.ending.Open? && f.c.held == 0
  {
    PollTakesFront(env, f.c);
    PolledFeed(f, Pull(f.c), NextEvent(env, f.c))
  }

  /** The stream bytes one call takes in. */
  function Delivered(f: Feed, op: FeedOp): bytes {
    match op
    case Copy(data) => if ReceiveData(f.c, data).1 then data else []
    case Keep(data) => if f.ending.Open? && HoldBodyData(f.c, |data|).1 then data else []
    case _ => []
  }

  /** One call while a body arrives; once it is over, only more bytes matter. */
  ghost function FeedStep(env: Env, f: Feed, op: FeedOp): Feed
    requires FeedInv(f) && InOrder(f, op)
  {
    match op
    case Copy(data) =>
      var g := f.(c := ReceiveData(f.c, data).0);
      if f.ending.Over? then g.(ending := f.ending.(rest := f.ending.rest + Delivered(f, op))) else g
    case Keep(data) =>
      if f.ending.Open? && HoldBodyData(f.c, |data|).1
      then f.(c := HoldBodyData(f.c, |data|).0, kept := f.kept + data) else f
    case HandOver(count) =>
      if f.ending.Open? && NextEventInPlace(f.c, count).1.Some? && count <= |f.kept| then
        var (first, last) := NextEventInPlace(f.c, count).1.value;
        Feed(NextEventInPlace(f.c, count).0, f.kept[count..], f.consumed + f.kept[..count],
             f.seen + PieceTokens(f.kept[..count], first, last), Open)
      else f
    case Ask => if f.ending.Open? then Asked(env, f) else f
  }

  // ---------------------------------------------------------------- what it means

  /** A decoded body: its bytes with chunk marks, why it stopped, what is left. */
  datatype Shown = Shown(tokens: seq<Token>, stop: Stop, rest: bytes, body: Option<Bodies.Body>)

  function ShownAfter(seen: seq<Token>, d: Decoded): Shown {
    Shown(seen + d.tokens, d.stop, d.rest, BodyUnless(d.stop, d.body))
  }

  /** What has been seen, and what the reference decoder makes of the rest. */
  function OpenView(max: nat, body: Bodies.Body, seen: seq<Token>, pending: bytes, future: bytes): Shown
    requires InBody(body.reader)
  {
    ShownAfter(seen, Decode(max, body, pending + future))
  }

  /** What a feed has shown and would show of `future`, by the reference decoder. */
  ghost function View(f: Feed, future: bytes): Shown
    requires f.ending.Open? ==> InBody(f.c.cycle.reader)
  {
    match f.ending
    case Open => OpenView(f.c.limits.maxHead, BodyOf(f.c), f.seen, f.kept + f.c.input, future)
    case Over(stop, rest, body, _) => Shown(f.seen, stop, rest + future, body)
  }

  lemma {:induction false} RestIsShort(max: nat, body: Bodies.Body, input: bytes)
    requires InBody(body.reader)
    ensures |Decode(max, body, input).rest| <= |input|
    decreases |input|
  {
    if InPayload(body.reader) && input != [] {
      DecodeOne(max, body, input);
      RestIsShort(max, body.(reader := Advance(body.reader, 1).reader), input[1..]);
    } else if body.reader.Chunked? && body.reader.chunk.Size? {
      var r := ReadLine(max, body.ext, body.reader.chunk.scanned, input);
      if r.Line? {
        RestIsShort(max, Bodies.Body(AfterLine(r.size), r.ext), input[r.end..]);
      }
    } else if body.reader.Chunked? && body.reader.chunk.DataEnd? && |input| >= 2 && input[..2] == CRLF {
      RestIsShort(max, body.(reader := Reader.Chunked(Size(0))), input[2..]);
    }
  }

  /** A decoder that stopped decodes nothing more of what it left. */
  lemma StoppedIsStuck(max: nat, body: Bodies.Body, x: bytes)
    requires InBody(body.reader) && ScanOk(body.reader, x)
    ensures var d := Decode(max, body, x);
            Decode(max, d.body, d.rest) == Decoded([], d.body, d.rest, d.stop)
  {
    var d := Decode(max, body, x);
    DecodeConcat(max, body, x, []);
    assert x + [] == x && d.rest + [] == d.rest;
    var e := Decode(max, d.body, d.rest);
    assert d.tokens == d.tokens + e.tokens;
    assert |e.tokens| == 0;
  }

  /** A stuck decoder that is not starved stays where it is, whatever follows. */
  lemma StuckStays(max: nat, body: Bodies.Body, x: bytes, y: bytes, stop: Stop)
    requires InBody(body.reader) && stop != Starved
    requires Decode(max, body, x) == Decoded([], body, x, stop)
    ensures Decode(max, body, x + y) == Decoded([], body, x + y, stop)
  {
    if body.reader.Chunked? && body.reader.chunk.Size? {
      var scanned := body.reader.chunk.scanned;
      var r := ReadLine(max, body.ext, scanned, x);
      if r.Line? {
        RestIsShort(max, Bodies.Body(AfterLine(r.size), r.ext), x[r.end..]);
      } else {
        LineAppend(max, body.ext, x, y);
      }
    } else if body.reader.Chunked? && body.reader.chunk.DataEnd? && |x| >= 2 {
      assert (x + y)[..2] == x[..2];
      if x[..2] == CRLF {
        RestIsShort(max, body.(reader := Reader.Chunked(Size(0))), x[2..]);
      }
    }
  }

  /** More bytes after a stop only lengthen what is left. */
  lemma StoppedStays(max: nat, body: Bodies.Body, x: bytes, y: bytes)
    requires InBody(body.reader) && ScanOk(body.reader, x)
    requires Decode(max, body, x).stop != Starved
    ensures var d := Decode(max, body, x);
            Decode(max, body, x + y) == d.(rest := d.rest + y)
  {
    var d := Decode(max, body, x);
    DecodeConcat(max, body, x, y);
    StoppedIsStuck(max, body, x);
    StuckStays(max, d.body, d.rest, y, d.stop);
    assert d.tokens + [] == d.tokens;
  }

  // --------------------------------------------------------------- step by step

  /** A bulk piece leaves the reference the same meaning of every future. */
  lemma PieceKeepsMeaning(max: nat, body: Bodies.Body, input: bytes, p: Pulled, future: bytes)
    requires InBody(body.reader) && ScanOk(body.reader, input) && p.got.Piece?
    requires PullMatches(max, input, p, Decode(max, body, input))
    ensures var end := p.skip + p.got.count;
            Decode(max, body, input + future) ==
            Prepend(PieceTokens(input[p.skip..end], p.got.first, p.got.last),
                    Decode(max, p.body, input[end..] + future))
  {
    var end := p.skip + p.got.count;
    var piece := PieceTokens(input[p.skip..end], p.got.first, p.got.last);
    var e := Decode(max, p.body, input[end..]);
    DecodeConcat(max, body, input, future);
    DecodeConcat(max, p.body, input[end..], future);
    PrependPrepend(piece, e.tokens, Decode(max, e.body, e.rest + future));
  }

  lemma StarvedKeepsMeaning(max: nat, body: Bodies.Body, input: bytes, p: Pulled, future: bytes)
    requires InBody(body.reader) && ScanOk(body.reader, input) && p.got == Ended(Starved)
    requires PullMatches(max, input, p, Decode(max, body, input))
    ensures Decode(max, body, input + future) == Decode(max, p.body, input[p.skip..] + future)
  {
    DecodeConcat(max, body, input, future);
    PrependNone(Decode(max, p.body, input[p.skip..] + future));
  }

  lemma SeenMore(seen: seq<Token>, piece: seq<Token>, d: Decoded)
    ensures ShownAfter(seen, Prepend(piece, d)) == ShownAfter(seen + piece, d)
  {
    assert seen + (piece + d.tokens) == (seen + piece) + d.tokens;
  }

  lemma PieceShows(max: nat, body: Bodies.Body, seen: seq<Token>, input: bytes, piece: seq<Token>,
                   next: Bodies.Body, rest: bytes, future: bytes)
    requires InBody(body.reader) && InBody(next.reader)
    requires Decode(max, body, input + future) == Prepend(piece, Decode(max, next, rest + future))
    ensures OpenView(max, next, seen + piece, rest, future) == OpenView(max, body, seen, input, future)
  {
    SeenMore(seen, piece, Decode(max, next, rest + future));
  }

  lemma OverShows(max: nat, body: Bodies.Body, input: bytes, p: Pulled, future: bytes)
    requires InBody(body.reader) && ScanOk(body.reader, input) && p.got.Ended?
    requires p.got.stop == Starved ==> future == []
    requires PullMatches(max, input, p, Decode(max, body, input))
    ensures var d := Decode(max, body, input + future);
            && d.tokens == [] && d.stop == p.got.stop && d.rest == input[p.skip..] + future
            && BodyUnless(d.stop, d.body) == BodyUnless(p.got.stop, p.body)
  {
    if p.got.stop == Starved {
      assert input + future == input && input[p.skip..] + future == input[p.skip..];
    } else {
      StoppedStays(max, body, input, future);
    }
  }

  lemma EndShows(max: nat, body: Bodies.Body, seen: seq<Token>, input: bytes, p: Pulled, future: bytes)
    requires InBody(body.reader) && ScanOk(body.reader, input) && p.got.Ended?
    requires p.got.stop == Starved ==> future == []
    requires PullMatches(max, input, p, Decode(max, body, input))
    ensures OpenView(max, body, seen, input, future) ==
            Shown(seen, p.got.stop, input[p.skip..] + future, BodyUnless(p.got.stop, p.body))
  {
    OverShows(max, body, input, p, future);
    assert seen + [] == seen;
  }

  predicate SameSide(c: Conn, d: Conn) {
    d.role == c.role && d.limits == c.limits && d.held == c.held && d.eof == c.eof
  }

  /** The fields of an open feed after a poll. */
  ghost predicate AskedTo(f: Feed, p: Pulled, g: Feed) {
    && f.kept == [] && g.kept == [] && SameSide(f.c, g.c) && p.skip <= |f.c.input|
    && match p.got
       case Piece(count, first, last) =>
         && p.skip + count <= |f.c.input|
         && g.ending.Open? && g.c.input == f.c.input[p.skip + count..] && BodyOf(g.c) == p.body
         && g.seen == f.seen + PieceTokens(f.c.input[p.skip..p.skip + count], first, last)
         && g.c.Remote() == SendBody
       case Ended(stop) =>
         && g.seen == f.seen
         && (if stop == Starved && !f.c.eof
             then g.ending.Open? && g.c.input == f.c.input[p.skip..] && BodyOf(g.c) == p.body && g.c.Remote() == SendBody
             else
               && g.ending.Over? && Told(f.c.role, stop, g.ending.body, g.ending.report)
               && g.ending == Over(stop, f.c.input[p.skip..], BodyUnless(stop, p.body), g.ending.report)
               && (stop != AtTrailers ==> g.c.input == f.c.input[p.skip..]))
  }

  lemma PollKeepsSide(env: Env, c: Conn)
    requires Inv(c)
    ensures SameSide(c, NextEvent(env, c).0)
  {
    InnerEffect(env, c);
  }

  lemma ReportedFields(f: Feed, p: Pulled, r: (Conn, Next))
    requires f.ending.Open? && f.kept == [] && p.skip <= |f.c.input| && |r.0.input| <= |f.c.input|
    requires p.got.Piece? ==> p.skip + p.got.count <= |f.c.input|
    requires PollsTo(f.c, p, r) && SameSide(f.c, r.0)
    requires p.body.reader.CloseDelimited? == f.c.cycle.reader.CloseDelimited?
    ensures AskedTo(f, p, PolledFeed(f, p, r))
  {
  }

  lemma AskedFields(env: Env, f: Feed)
    requires FeedInv(f) && f.ending.Open? && f.c.held == 0
    ensures AskedTo(f, Pull(f.c), Asked(env, f))
  {
    PollReports(env, f.c);
    PollKeepsSide(env, f.c);
    PollTakesFront(env, f.c);
    PullKeepsReader(f.c.limits.maxHead, BodyOf(f.c), f.c.input);
    ReportedFields(f, Pull(f.c), NextEvent(env, f.c));
  }

  lemma AskedConn(env: Env, f: Feed)
    requires FeedInv(f) && f.ending.Open? && f.c.held == 0
    ensures Asked(env, f).c == NextEvent(env, f.c).0
  {
  }

  lemma FieldsInv(f: Feed, p: Pulled, g: Feed)
    requires AskedTo(f, p, g) && f.c.held == 0 && Inv(g.c)
    ensures FeedInv(g) && SameSide(f.c, g.c)
  {
  }

  lemma AskedInv(env: Env, f: Feed)
    requires FeedInv(f) && f.ending.Open? && f.c.held == 0
    ensures FeedInv(Asked(env, f)) && SameSide(f.c, Asked(env, f).c)
  {
    AskedFields(env, f);
    PollInv(env, f.c);
    AskedConn(env, f);
    FieldsInv(f, Pull(f.c), Asked(env, f));
  }

  lemma EmptyKept(f: Feed, future: bytes)
    requires f.kept == [] && (f.ending.Open? ==> InBody(f.c.cycle.reader))
    ensures f.ending.Open? ==> View(f, future) == OpenView(f.c.limits.maxHead, BodyOf(f.c), f.seen, f.c.input, future)
  {
    assert f.kept + f.c.input == f.c.input;
  }

  lemma StarvedShows(max: nat, body: Bodies.Body, seen: seq<Token>, input: bytes, p: Pulled, future: bytes)
    requires InBody(body.reader) && ScanOk(body.reader, input) && p.got == Ended(Starved)
    requires PullMatches(max, input, p, Decode(max, body, input))
    ensures OpenView(max, p.body, seen, input[p.skip..], future) == OpenView(max, body, seen, input, future)
  {
    StarvedKeepsMeaning(max, body, input, p, future);
  }

  lemma FieldsShow(f: Feed, g: Feed, p: Pulled, future: bytes)
    requires f.ending.Open? && InBody(f.c.cycle.reader) && ScanOk(f.c.cycle.reader, f.c.input)
    requires f.c.eof ==> future == []
    requires PullMatches(f.c.limits.maxHead, f.c.input, p, Decode(f.c.limits.maxHead, BodyOf(f.c), f.c.input))
    requires AskedTo(f, p, g)
    ensures View(g, future) == View(f, future)
  {
    var max, body, input := f.c.limits.maxHead, BodyOf(f.c), f.c.input;
    EmptyKept(f, future);
    EmptyKept(g, future);
    if p.got.Piece? {
      var end := p.skip + p.got.count;
      PieceKeepsMeaning(max, body, input, p, future);
      PieceShows(max, body, f.seen, input, PieceTokens(input[p.skip..end], p.got.first, p.got.last),
                 p.body, input[end..], future);
    } else if p.got.stop == Starved && !f.c.eof {
      StarvedShows(max, body, f.seen, input, p, future);
    } else {
      EndShows(max, body, f.seen, input, p, future);
    }
  }

  lemma AskedShows(env: Env, f: Feed, future: bytes)
    requires FeedInv(f) && f.ending.Open? && f.c.held == 0 && (f.c.eof ==> future == [])
    requires FeedInv(Asked(env, f))
    ensures View(Asked(env, f), future) == View(f, future)
  {
    AskedFields(env, f);
    PullIsDecode(f.c.limits.maxHead, BodyOf(f.c), f.c.input);
    FieldsShow(f, Asked(env, f), Pull(f.c), future);
  }

  /** A piece of held payload is the front of what is pending. */
  lemma FrontShows(max: nat, body: Bodies.Body, seen: seq<Token>, kept: bytes, input: bytes, count: nat, future: bytes)
    requires InPayload(body.reader) && 0 < count <= |kept|
    requires Bodies.Advance(body.reader, count).count == count
    ensures var m := Bodies.Advance(body.reader, count);
            && InBody(m.reader)
            && OpenView(max, body.(reader := m.reader), seen + PieceTokens(kept[..count], m.first, m.last),
                        kept[count..] + input, future) ==
               OpenView(max, body, seen, kept + input, future)
  {
    var m, all := Bodies.Advance(body.reader, count), kept + input + future;
    AdvanceIsDecode(max, body, all, count);
    assert all[..count] == kept[..count];
    assert all[count..] == kept[count..] + input + future;
    SeenMore(seen, PieceTokens(kept[..count], m.first, m.last), Decode(max, body.(reader := m.reader), all[count..]));
  }

  lemma HandedOverFields(env: Env, f: Feed, count: nat)
    requires FeedInv(f) && f.ending.Open? && 0 < count <= |f.kept|
    ensures var m, g := Bodies.Advance(f.c.cycle.reader, count), FeedStep(env, f, HandOver(count));
            && InPayload(f.c.cycle.reader) && m.count == count
            && g.ending.Open? && SameSide(f.c.(held := g.c.held), g.c) && g.c.input == f.c.input
            && BodyOf(g.c) == BodyOf(f.c).(reader := m.reader)
            && g.kept == f.kept[count..] && g.seen == f.seen + PieceTokens(f.kept[..count], m.first, m.last)
            && g.consumed == f.consumed + f.kept[..count]
            && FeedInv(g)
  {
    InPlaceInv(f.c, count);
  }

  lemma HandedOverShows(env: Env, f: Feed, count: nat, future: bytes)
    requires FeedInv(f) && f.ending.Open? && 0 < count <= |f.kept|
    ensures var g := FeedStep(env, f, HandOver(count));
            FeedInv(g) && View(g, future) == View(f, future)
  {
    HandedOverFields(env, f, count);
    FrontShows(f.c.limits.maxHead, BodyOf(f.c), f.seen, f.kept, f.c.input, count, future);
  }

  lemma Later(max: nat, body: Bodies.Body, seen: seq<Token>, pending: bytes, more: bytes, future: bytes)
    requires InBody(body.reader)
    ensures OpenView(max, body, seen, pending + more, future) == OpenView(max, body, seen, pending, more + future)
  {
    assert pending + more + future == pending + (more + future);
  }

  lemma ReceivedBody(c: Conn, data: bytes)
    requires Inv(c)
    ensures var (d, ok) := ReceiveData(c, data);
            && d.input == c.input + (if ok then data else []) && BodyOf(d) == BodyOf(c)
            && d.limits == c.limits && d.role == c.role && d.held == c.held && (c.eof ==> d.eof)
            && (c.Remote() == SendBody ==> d.Remote() == SendBody)
            && d.eof == (c.eof || data == [])
            && (c.eof ==> ok == (data == []))
  {
    assert c.input + [] == c.input;
    StateDisableInv(c.state);
  }

  /** Appending to the buffer is receiving those bytes later. */
  lemma MoreShows(f: Feed, g: Feed, more: bytes, future: bytes)
    requires f.ending.Open? ==> InBody(f.c.cycle.reader)
    requires g.c.input == f.c.input + more && g.kept == f.kept && g.seen == f.seen
    requires BodyOf(g.c) == BodyOf(f.c) && g.c.limits == f.c.limits
    requires g.ending == if f.ending.Over? then f.ending.(rest := f.ending.rest + more) else Open
    ensures View(g, future) == View(f, more + future)
  {
    if f.ending.Open? {
      assert f.kept + (f.c.input + more) == f.kept + f.c.input + more;
      Later(f.c.limits.maxHead, BodyOf(f.c), f.seen, f.kept + f.c.input, more, future);
    } else {
      assert f.ending.rest + more + future == f.ending.rest + (more + future);
    }
  }

  lemma CopiedShows(env: Env, f: Feed, data: bytes, future: bytes)
    requires FeedInv(f) && (f.c.eof || data == [] ==> future == [])
    ensures var g := FeedStep(env, f, Copy(data));
            FeedInv(g) && View(g, future) == View(f, Delivered(f, Copy(data)) + future)
  {
    ReceiveInv(f.c, data);
    ReceivedBody(f.c, data);
    MoreShows(f, FeedStep(env, f, Copy(data)), Delivered(f, Copy(data)), future);
  }

  lemma KeptShows(env: Env, f: Feed, data: bytes, future: bytes)
    requires FeedInv(f)
    ensures var g := FeedStep(env, f, Keep(data));
            FeedInv(g) && View(g, future) == View(f, Delivered(f, Keep(data)) + future)
  {
    HoldInv(f.c, |data|);
    if f.ending.Open? && HoldBodyData(f.c, |data|).1 {
      assert (f.kept + data) + [] + future == f.kept + [] + (data + future);
    } else {
      assert [] + future == future;
    }
  }

  /** Each call leaves what the body shows as it was, with its bytes now delivered. */
  lemma StepShows(env: Env, f: Feed, op: FeedOp, future: bytes)
    requires FeedInv(f) && InOrder(f, op)
    requires FeedStep(env, f, op).c.eof ==> future == []
    ensures FeedInv(FeedStep(env, f, op))
    ensures View(FeedStep(env, f, op), future) == View(f, Delivered(f, op) + future)
  {
    assert [] + future == future;
    match op
    case Copy(data) =>
      ReceivedBody(f.c, data);
      CopiedShows(env, f, data, future);
    case Keep(data) => KeptShows(env, f, data, future);
    case HandOver(count) =>
      if f.ending.Open? && 0 < count <= |f.kept| {
        HandedOverShows(env, f, count, future);
      }
    case Ask =>
      if f.ending.Open? {
        AskedInv(env, f);
        AskedShows(env, f, future);
      }
  }

  lemma StepKeeps(env: Env, f: Feed, op: FeedOp)
    requires FeedInv(f) && InOrder(f, op)
    ensures FeedInv(FeedStep(env, f, op))
    ensures f.c.eof ==> FeedStep(env, f, op).c.eof && Delivered(f, op) == []
    ensures FeedStep(env, f, op).c.role == f.c.role
  {
    match op
    case Copy(data) =>
      ReceivedBody(f.c, data);
      CopiedShows(env, f, data, []);
    case Keep(data) => KeptShows(env, f, data, []);
    case HandOver(count) =>
      if f.ending.Open? && 0 < count <= |f.kept| {
        HandedOverFields(env, f, count);
      }
    case Ask =>
      if f.ending.Open? {
        AskedInv(env, f);
      }
  }

  // ---------------------------------------------------------------------- runs

  /** Every call of the run hands held bytes over before it polls. */
  ghost predicate Orderly(env: Env, f: Feed, ops: seq<FeedOp>)
    requires FeedInv(f)
    decreases |ops|
  {
    ops == [] ||
    (InOrder(f, ops[0]) && (StepKeeps(env, f, ops[0]); Orderly(env, FeedStep(env, f, ops[0]), ops[1..])))
  }

  ghost function FeedRun(env: Env, f: Feed, ops: seq<FeedOp>): (g: Feed)
    requires FeedInv(f) && Orderly(env, f, ops)
    ensures FeedInv(g) && g.c.role == f.c.role
    decreases |ops|
  {
    if ops == [] then f
    else
      StepKeeps(env, f, ops[0]);
      FeedRun(env, FeedStep(env, f, ops[0]), ops[1..])
  }

  /** All the bytes a run takes in, in order. */
  ghost function Stream(env: Env, f: Feed, ops: seq<FeedOp>): (s: bytes)
    requires FeedInv(f) && Orderly(env, f, ops)
    ensures f.c.eof ==> s == []
    decreases |ops|
  {
    if ops == [] then []
    else
      StepKeeps(env, f, ops[0]);
      Delivered(f, ops[0]) + Stream(env, FeedStep(env, f, ops[0]), ops[1..])
  }

  /** A run shows what the reference decoder shows of its whole stream. */
  lemma {:induction false} RunShows(env: Env, f: Feed, ops: seq<FeedOp>)
    requires FeedInv(f) && Orderly(env, f, ops)
    ensures View(FeedRun(env, f, ops), []) == View(f, Stream(env, f, ops))
    decreases |ops|
  {
    if ops == [] {
    } else {
      StepKeeps(env, f, ops[0]);
      var g := FeedStep(env, f, ops[0]);
      RunShows(env, g, ops[1..]);
      StepShows(env, f, ops[0], Stream(env, g, ops[1..]));
    }
  }

  /** A connection about to read a body, nothing of it seen yet. */
  function Start(c: Conn): Feed {
    Feed(c, [], [], [], Open)
  }

  predicate AtBody(c: Conn) {
    Inv(c) && c.held == 0 && c.Remote() == SendBody
  }

  /** Nothing more to show without more input: a poll would yield no payload. */
  ghost predicate Drained(f: Feed)
    requires FeedInv(f)
  {
    f.ending.Over? || (f.kept == [] && Pull(f.c).got.Ended?)
  }

  lemma DrainedShows(f: Feed)
    requires FeedInv(f) && Drained(f)
    ensures View(f, []).tokens == f.seen
  {
    if f.ending.Open? {
      PullIsDecode(f.c.limits.maxHead, BodyOf(f.c), f.c.input);
      assert f.kept + f.c.input + [] == f.c.input;
    }
  }

  /**
   Segmentation and holding have no meaning. However the same stream is split,
   copied or held, and polled, a drained body has shown exactly the tokens of one
   whole delivery: the same bytes, the same chunk boundaries. If polls brought it
   to an end, that end has the same cause, the same decoder and the same bytes
   left over, and the caller was told the event or error that belongs to it.
   */
  lemma BodyIsItsStream(env: Env, c: Conn, ops: seq<FeedOp>)
    requires AtBody(c) && Orderly(env, Start(c), ops)
    ensures var f := FeedRun(env, Start(c), ops);
            var d := Decode(c.limits.maxHead, BodyOf(c), c.input + Stream(env, Start(c), ops));
            && (Drained(f) ==> f.seen == d.tokens)
            && (f.ending.Over? ==>
                  && f.ending.stop == d.stop && f.ending.rest == d.rest
                  && f.ending.body == BodyUnless(d.stop, d.body)
                  && Told(c.role, d.stop, BodyUnless(d.stop, d.body), f.ending.report)
                  && (d.stop != AtTrailers ==> f.c.input == d.rest))
  {
    var f := FeedRun(env, Start(c), ops);
    var s := Stream(env, Start(c), ops);
    RunShows(env, Start(c), ops);
    assert [] + c.input + s == c.input + s;
    var d := Decode(c.limits.maxHead, BodyOf(c), c.input + s);
    assert [] + d.tokens == d.tokens;
    if Drained(f) {
      DrainedShows(f);
    }
    if f.ending.Over? {
      assert f.ending.rest + [] == f.ending.rest;
    }
  }

  /** The held path and the copying path, or any two paths, agree. */
  lemma HoldingRefinesCopying(env: Env, c: Conn, held: seq<FeedOp>, copied: seq<FeedOp>)
    requires AtBody(c) && Orderly(env, Start(c), held) && Orderly(env, Start(c), copied)
    requires Stream(env, Start(c), held) == Stream(env, Start(c), copied)
    ensures var f, g := FeedRun(env, Start(c), held), FeedRun(env, Start(c), copied);
            && (Drained(f) && Drained(g) ==> f.seen == g.seen)
            && (f.ending.Over? && g.ending.Over? ==>
                  && f.ending == g.ending.(report := f.ending.report)
                  && (f.ending.stop != AtTrailers ==> f.ending == g.ending))
            && View(f, []) == View(g, [])
  {
    BodyIsItsStream(env, c, held);
    BodyIsItsStream(env, c, copied);
    RunShows(env, Start(c), held);
    RunShows(env, Start(c), copied);
  }

  // -------------------------------------------------------------- conservation

  /** Past, held and buffered bytes together, and what one call added to them. */
  ghost predicate Conserves(f: Feed, g: Feed, more: bytes) {
    g.consumed + g.kept + g.c.input == f.consumed + f.kept + f.c.input + more
  }

  lemma FrontKept(f: Feed, g: Feed, count: nat)
    requires count <= |f.kept| && g.kept == f.kept[count..] && g.consumed == f.consumed + f.kept[..count]
    requires g.c.input == f.c.input
    ensures Conserves(f, g, [])
  {
    assert f.kept[..count] + f.kept[count..] == f.kept;
    Regroup(f.consumed, f.kept[..count], f.kept[count..]);
  }

  lemma HandOverConserves(env: Env, f: Feed, count: nat)
    requires FeedInv(f)
    ensures Conserves(f, FeedStep(env, f, HandOver(count)), [])
  {
    if f.ending.Open? && 0 < count <= |f.kept| {
      HandedOverFields(env, f, count);
      FrontKept(f, FeedStep(env, f, HandOver(count)), count);
    }
  }

  lemma AskedBytes(env: Env, f: Feed)
    requires FeedInv(f) && f.ending.Open? && f.c.held == 0
    requires |NextEvent(env, f.c).0.input| <= |f.c.input|
    ensures var g := Asked(env, f);
            && |g.c.input| <= |f.c.input| && f.kept == [] && g.kept == [] && g.c == NextEvent(env, f.c).0
            && g.consumed == f.consumed + f.c.input[..|f.c.input| - |g.c.input|]
  {
  }

  lemma FrontConserves(f: Feed, g: Feed)
    requires |g.c.input| <= |f.c.input| && f.kept == [] && g.kept == []
    requires f.c.input == f.c.input[..|f.c.input| - |g.c.input|] + g.c.input
    requires g.consumed == f.consumed + f.c.input[..|f.c.input| - |g.c.input|]
    ensures Conserves(f, g, [])
  {
  }

  lemma AskConserves(env: Env, f: Feed)
    requires FeedInv(f) && f.ending.Open? && f.c.held == 0
    ensures Conserves(f, Asked(env, f), [])
  {
    PollTakesFront(env, f.c);
    AskedBytes(env, f);
    FrontConserves(f, Asked(env, f));
  }

  lemma StepConserves(env: Env, f: Feed, op: FeedOp)
    requires FeedInv(f) && InOrder(f, op)
    ensures Conserves(f, FeedStep(env, f, op), Delivered(f, op))
  {
    match op
    case Copy(data) => ReceivedBody(f.c, data);
    case Keep(data) =>
    case HandOver(count) => HandOverConserves(env, f, count);
    case Ask =>
      if f.ending.Open? {
        AskConserves(env, f);
      }
  }

  lemma ConservesOn(f: Feed, g: Feed, h: Feed, more: bytes, rest: bytes)
    requires Conserves(f, g, more) && Conserves(g, h, rest)
    ensures Conserves(f, h, more + rest)
  {
    Regroup(f.consumed + f.kept + f.c.input, more, rest);
  }

  /** At every point, consumed, held and buffered bytes spell the received stream. */
  lemma {:induction false} NothingIsLost(env: Env, f: Feed, ops: seq<FeedOp>)
    requires FeedInv(f) && Orderly(env, f, ops)
    ensures Conserves(f, FeedRun(env, f, ops), Stream(env, f, ops))
    decreases |ops|
  {
    if ops == [] {
    } else {
      StepKeeps(env, f, ops[0]);
      var g := FeedStep(env, f, ops[0]);
      StepConserves(env, f, ops[0]);
      NothingIsLost(env, g, ops[1..]);
      ConservesOn(f, g, FeedRun(env, f, ops), Delivered(f, ops[0]), Stream(env, g, ops[1..]));
    }
  }
}
