/** What two joined endpoints poll of each other's bodies is what was sent. */
module Delivery {
  import opened States
  import opened Bytes
  import opened Bodies
  import opened Payload
  import opened Fields
  import opened Messages
  import opened Conn
  import opened Heads
  import opened Lanes
  import opened Net
  import opened NetSends
  import opened NetPolls
  import opened Agreement
  import Effects
  import Runs
  import Sessions

  /**
   One direction's content: what was sent and with which trailers it was closed,
   and what the other side has polled of both.
   */
  datatype Story = Story(sent: bytes, closed: Option<Headers>, got: bytes, heard: Option<Headers>)

  const NO_STORY := Story([], None, [], None)

  datatype Track = Track(net: Net, up: Story, down: Story)

  // ---------------------------------------------------------------------- steps

  function Sends(st: Story, c: Conn, data: bytes): Story {
    if SendData(c, data).1.Some? then st.(sent := st.sent + data) else st
  }

  function Closes(st: Story, c: Conn, trailers: Headers): Story {
    if EndOfMessage(c, trailers).1.Some? then st.(closed := Some(trailers)) else st
  }

  function Hears(st: Story, next: Next): Story {
    match next
    case Content(data, _, _) => st.(got := st.got + data)
    case Other(EndPolled(trailers)) => st.(heard := Some(trailers))
    case _ => st
  }

  function UpSent(n: Net, up: Story, op: NetOp): Story {
    match op
    case ClientBody(data) => Sends(up, n.c, data)
    case ClientEnd(trailers) => Closes(up, n.c, trailers)
    case _ => up
  }

  function DownSent(n: Net, down: Story, op: NetOp): Story {
    match op
    case ServerBody(data) => Sends(down, n.s, data)
    case ServerEnd(trailers) => Closes(down, n.s, trailers)
    case _ => down
  }

  function TrackStep(env: Env, t: Track, op: NetOp): Track
    requires Sound(t.net.c) && Sound(t.net.s)
  {
    Track(NetStep(env, t.net, op),
          if op.ServerPoll? then Hears(t.up, NextEvent(env, t.net.s).1) else UpSent(t.net, t.up, op),
          if op.ClientPoll? then Hears(t.down, NextEvent(env, t.net.c).1) else DownSent(t.net, t.down, op))
  }

  // ------------------------------------------------------------------ invariant

  /** Decoding the wire yields exactly the content sent and not yet polled. */
  ghost predicate Carried(max: nat, body: Body, wire: bytes, st: Story) {
    && InBody(body.reader) && ScanOk(body.reader, wire) && st.heard.None?
    && st.got <= st.sent
    && TokenBytes(Decode(max, body, wire).tokens) == st.sent[|st.got|..]
  }

  /** The end the sender has put on a lane, if it has. */
  predicate ClosedAs(sent: Sent, trailers: Headers, closed: Option<Headers>) {
    if sent.Writing? then closed.None?
    else closed == Some(trailers) && (sent.stop == AtTrailers || trailers == [])
  }

  /** The trailers a receiver polls with the end of this message. */
  function TrailersOf(sent: Sent, trailers: Headers): Headers {
    if sent.Ended? && sent.stop == AtTrailers then trailers else []
  }

  /** Everything sent has been polled, with its trailers. */
  predicate Complete(sent: Sent, trailers: Headers, st: Story) {
    st.got == st.sent && st.heard == Some(TrailersOf(sent, trailers))
  }

  /** How far one direction is: no message, a head still to be read, a body, or its end. */
  datatype Stage = Unsent | Behind(text: bytes, framing: Framing) | Reading | Over

  function UpStage(l: Log): Stage {
    if !l.asked.requested then Unsent
    else if !l.heard.requested then Behind(l.text, l.proposal.framing)
    else if !l.heard.ended then Reading
    else Stage.Over
  }

  function LastText(last: Option<Response>): bytes {
    if last.Some? then ResponseText(last.value) else []
  }

  function DownStage(l: Log): Stage {
    if l.answered.answer != Responded then Unsent
    else if l.told.answer == NoAnswer then Behind(TextsOf(l.heads) + LastText(l.last), l.framing)
    else if !l.told.ended then Reading
    else Stage.Over
  }

  /** The bytes of one direction decode to where its sender is. */
  ghost predicate StageLinked(max: nat, body: Body, wire: bytes, stage: Stage, sent: Sent) {
    match stage
    case Unsent => true
    case Behind(text, framing) =>
      text <= wire && Linked(max, Body(ReaderFor(framing), 0), wire[|text|..], sent)
    case Reading => Linked(max, body, wire, sent)
    case Over => Spent(wire, sent)
  }

  /** And to the content its receiver has yet to poll. */
  ghost predicate StageTold(max: nat, body: Body, wire: bytes, stage: Stage, sent: Sent, trailers: Headers, st: Story) {
    match stage
    case Unsent => st == NO_STORY
    case Behind(text, framing) =>
      && ClosedAs(sent, trailers, st.closed)
      && text <= wire && Carried(max, Body(ReaderFor(framing), 0), wire[|text|..], st)
    case Reading => ClosedAs(sent, trailers, st.closed) && Carried(max, body, wire, st)
    case Over => ClosedAs(sent, trailers, st.closed) && Complete(sent, trailers, st)
  }

  ghost predicate UpTold(n: Net, st: Story) {
    StageTold(n.s.limits.maxHead, Sessions.BodyOf(n.s), n.s.input + n.up, UpStage(n.log), n.log.up, n.log.upTrailers, st)
  }

  ghost predicate DownTold(n: Net, st: Story) {
    StageTold(n.c.limits.maxHead, Sessions.BodyOf(n.c), n.c.input + n.down, DownStage(n.log), n.log.down,
              n.log.downTrailers, st)
  }

  ghost predicate TrackInv(env: Env, t: Track) {
    NetInv(env, t.net) && UpTold(t.net, t.up) && DownTold(t.net, t.down)
  }

  lemma UpLinked(env: Env, n: Net)
    requires Agrees(env, n)
    ensures StageLinked(n.s.limits.maxHead, Sessions.BodyOf(n.s), n.s.input + n.up, UpStage(n.log), n.log.up)
  {
  }

  lemma AnsweredOnce(x: ConnectionState, y: ConnectionState, l: Log)
    requires StatesOk(x, y, l)
    ensures l.answered.answer == Responded ==> l.told.answer == NoAnswer || l.told.answer == Responded
  {
  }

  lemma DownWire(env: Env, c: Conn, wire: bytes, l: Log)
    requires l.answered.answer == Responded ==> (l.told.answer == NoAnswer || l.told.answer == Responded)
    ensures DownOk(env, c, wire, l) ==> StageLinked(c.limits.maxHead, Sessions.BodyOf(c), wire, DownStage(l), l.down)
  {
  }

  lemma DownLinked(env: Env, n: Net)
    requires Agrees(env, n)
    ensures StageLinked(n.c.limits.maxHead, Sessions.BodyOf(n.c), n.c.input + n.down, DownStage(n.log), n.log.down)
  {
    AnsweredOnce(n.c.state, n.s.state, n.log);
    DownWire(env, n.c, n.c.input + n.down, n.log);
  }

  // ------------------------------------------------------------------ the sender

  lemma FreshCarries(max: nat, w: Framing)
    ensures Carried(max, Body(ReaderFor(w), 0), [], NO_STORY)
  {
    NoPiece(max, w);
  }

  lemma SentMore(got: bytes, sent: bytes, data: bytes)
    requires got <= sent
    ensures got <= sent + data && (sent + data)[|got|..] == sent[|got|..] + data
  {
  }

  lemma AppendCarries(max: nat, body: Body, wire: bytes, more: bytes, tokens: seq<Token>, data: bytes, st: Story)
    requires Carried(max, body, wire, st) && Decode(max, body, wire).rest == []
    requires Decode(max, Decode(max, body, wire).body, more).tokens == tokens
    ensures TokenBytes(tokens) == data ==> Carried(max, body, wire + more, st.(sent := st.sent + data))
  {
    var d := Decode(max, body, wire);
    DecodeConcat(max, body, wire, more);
    assert [] + more == more;
    ScanOkAppend(body.reader, wire, more);
    TokenBytesConcat(d.tokens, tokens);
    SentMore(st.got, st.sent, data);
  }

  /** More content on the wire is that much more to decode. */
  lemma DataCarries(max: nat, body: Body, wire: bytes, w: Framing, data: bytes, st: Story)
    requires Linked(max, body, wire, Writing(w)) && Carried(max, body, wire, st)
    requires max >= 16 && |data| < USIZE && FrameLength(w, |data|).Some?
    ensures Carried(max, body, wire + FramedBytes(FrameLength(w, |data|).value, data), st.(sent := st.sent + data))
  {
    var f, d := FrameLength(w, |data|).value, Decode(max, body, wire);
    PieceDecodes(max, w, d.body.ext, data);
    assert d.body == Body(ReaderFor(w), d.body.ext);
    AppendCarries(max, body, wire, FramedBytes(f, data), Seen(w, data), data, st);
    PieceBytes(data, w.Chunked?, w.Chunked?);
  }

  lemma EndCarries(max: nat, body: Body, wire: bytes, w: Framing, section: bytes, st: Story)
    requires Linked(max, body, wire, Writing(w)) && Carried(max, body, wire, st)
    requires max >= 16 && EndPrefix(w).Some? && (w.Chunked? <==> section != [])
    ensures Carried(max, body, wire + (EndPrefix(w).value + section), st)
  {
    var d := Decode(max, body, wire);
    EndDecodes(max, w, d.body.ext, section);
    assert d.body == Body(ReaderFor(w), d.body.ext);
    AppendCarries(max, body, wire, EndPrefix(w).value + section, [], [], st);
    assert st.sent + [] == st.sent;
  }

  // ---------------------------------------------------------------- the receiver

  lemma SkipTaken(got: bytes, sent: bytes, data: bytes, rest: bytes)
    requires got <= sent && sent[|got|..] == data + rest
    ensures got + data <= sent && sent[|got + data|..] == rest
  {
    assert sent == got + (data + rest);
    Regroup(got, data, rest);
  }

  lemma TakenTells(data: bytes, first: bool, last: bool, d: Decoded, rest: Decoded, st: Story)
    requires d == Prepend(PieceTokens(data, first, last), rest)
    requires st.got <= st.sent && TokenBytes(d.tokens) == st.sent[|st.got|..]
    ensures st.got + data <= st.sent && TokenBytes(rest.tokens) == st.sent[|st.got + data|..]
  {
    TokenBytesConcat(PieceTokens(data, first, last), rest.tokens);
    PieceBytes(data, first, last);
    SkipTaken(st.got, st.sent, data, TokenBytes(rest.tokens));
  }

  /** Polled payload is the front of what was sent and not yet polled. */
  lemma PieceTells(max: nat, body: Body, input: bytes, channel: bytes, p: Pulled, st: Story)
    requires Carried(max, body, input + channel, st) && ScanOk(body.reader, input) && p == PullBody(max, body, input)
    requires p.got.Piece?
    ensures var end := p.skip + p.got.count;
            Carried(max, p.body, input[end..] + channel, st.(got := st.got + input[p.skip..end]))
  {
    var end := p.skip + p.got.count;
    PullIsDecode(max, body, input);
    Sessions.PieceKeepsMeaning(max, body, input, p, channel);
    ScanOkAppend(p.body.reader, input[end..], channel);
    TakenTells(input[p.skip..end], p.got.first, p.got.last, Decode(max, body, input + channel),
               Decode(max, p.body, input[end..] + channel), st);
  }

  lemma WaitTells(max: nat, body: Body, input: bytes, channel: bytes, p: Pulled, st: Story)
    requires Carried(max, body, input + channel, st) && ScanOk(body.reader, input) && p == PullBody(max, body, input)
    requires p.got == Got.Ended(Starved)
    ensures Carried(max, p.body, input[p.skip..] + channel, st)
  {
    PullIsDecode(max, body, input);
    Sessions.StarvedKeepsMeaning(max, body, input, p, channel);
    ScanOkAppend(p.body.reader, input[p.skip..], channel);
  }

  /** A decoder that has stopped has nothing more to tell. */
  lemma StopTells(max: nat, body: Body, input: bytes, channel: bytes, p: Pulled, st: Story)
    requires Carried(max, body, input + channel, st) && ScanOk(body.reader, input) && p == PullBody(max, body, input)
    requires p.got == Got.Ended(Finished) || p.got == Got.Ended(AtTrailers)
    ensures st.got == st.sent
  {
    PullIsDecode(max, body, input);
    Sessions.OverShows(max, body, input, p, channel);
    assert st.sent[|st.got|..] == [];
  }

  /** What a poll within a body tells: more of the content, nothing yet, or the end of all of it. */
  ghost predicate BodyTold(c: Conn, channel: bytes, sent: Sent, trailers: Headers, st: Story, r: (Conn, Next)) {
    var (d, next) := r;
    if next.Other? && next.polled.EndPolled? then Complete(sent, trailers, Hears(st, next))
    else Carried(c.limits.maxHead, Sessions.BodyOf(d), d.input + channel, Hears(st, next))
  }

  /** At its trailers a decoder waits for their end or polls them. */
  lemma TrailersTell(env: Env, c: Conn, d: Conn, channel: bytes, sent: Sent, trailers: Headers, st: Story)
    requires !d.eof && d.cycle.progress.Within(d.input) && d.cycle.reader == Reader.Chunked(Trailers)
    requires d.Remote() == SendBody && d.limits == c.limits && d.role == c.role
    requires sent == Sent.Ended(AtTrailers, d.input + channel) && st.got == st.sent && st.heard.None?
    requires SectionOk(env, c.limits, c.role == Client, sent, trailers)
    ensures var (e, polled) := ReadTrailers(env, d);
            polled.EndPolled? || polled == NeedData
    ensures var (e, polled) := ReadTrailers(env, d);
            BodyTold(c, channel, sent, trailers, st, (e, Other(polled)))
  {
    TrailersPoll(env, d, channel, d.input + channel, trailers);
    assert st.sent[|st.got|..] == [];
  }

  lemma EndTells(c: Conn, channel: bytes, sent: Sent, trailers: Headers, st: Story, r: (Conn, Next))
    requires r.1 == Other(EndPolled([])) && st.got == st.sent && TrailersOf(sent, trailers) == []
    ensures BodyTold(c, channel, sent, trailers, st, r)
  {
  }

  /** Content polled, or nothing yet. */
  lemma ContentTells(c: Conn, channel: bytes, sent: Sent, trailers: Headers, p: Pulled, r: (Conn, Next), st: Story)
    requires Carried(c.limits.maxHead, Sessions.BodyOf(c), c.input + channel, st)
    requires ScanOk(c.cycle.reader, c.input) && !c.eof && p == PullBody(c.limits.maxHead, Sessions.BodyOf(c), c.input)
    requires p.got.Piece? || p.got == Got.Ended(Starved)
    requires p.skip <= |c.input| && (p.got.Piece? ==> p.skip + p.got.count <= |c.input|) && Sessions.PollsTo(c, p, r)
    ensures BodyTold(c, channel, sent, trailers, st, r)
  {
    if p.got.Piece? {
      PieceTells(c.limits.maxHead, Sessions.BodyOf(c), c.input, channel, p, st);
    } else {
      WaitTells(c.limits.maxHead, Sessions.BodyOf(c), c.input, channel, p, st);
    }
  }

  lemma AtTrailersTells(env: Env, c: Conn, channel: bytes, sent: Sent, trailers: Headers, st: Story)
    requires Runs.Inv(c) && c.held == 0 && !c.eof && c.Remote() == SendBody && Pull(c).got == Got.Ended(AtTrailers)
    requires PullLinked(c.limits.maxHead, c.input, channel, Pull(c), sent)
    requires SectionOk(env, c.limits, c.role == Client, sent, trailers)
    requires st.got == st.sent && st.heard.None?
    ensures BodyTold(c, channel, sent, trailers, st, NextEvent(env, c))
  {
    var d := AfterPull(c, Pull(c));
    AtTrailersReady(c);
    Sessions.PollPulls(env, c);
    TrailersTell(env, c, d, channel, sent, trailers, st);
    HandsOut(env, c);
  }

  lemma BodyTells(env: Env, c: Conn, channel: bytes, sent: Sent, trailers: Headers, st: Story)
    requires Runs.Inv(c) && c.held == 0 && !c.eof && c.Remote() == SendBody
    requires Linked(c.limits.maxHead, Sessions.BodyOf(c), c.input + channel, sent)
    requires SectionOk(env, c.limits, c.role == Client, sent, trailers)
    requires Carried(c.limits.maxHead, Sessions.BodyOf(c), c.input + channel, st)
    ensures BodyTold(c, channel, sent, trailers, st, NextEvent(env, c))
  {
    var p := Pull(c);
    Sessions.PollReports(env, c);
    LinkedPull(c, channel, sent);
    match p.got
    case Piece(_, _, _) => ContentTells(c, channel, sent, trailers, p, NextEvent(env, c), st);
    case Ended(Starved) => ContentTells(c, channel, sent, trailers, p, NextEvent(env, c), st);
    case Ended(Finished) =>
      StopTells(c.limits.maxHead, Sessions.BodyOf(c), c.input, channel, p, st);
      EndTells(c, channel, sent, trailers, st, NextEvent(env, c));
    case Ended(AtTrailers) =>
      StopTells(c.limits.maxHead, Sessions.BodyOf(c), c.input, channel, p, st);
      AtTrailersTells(env, c, channel, sent, trailers, st);
  }

  // -------------------------------------------------------------------- one lane

  /** Only the connection's decoder, the bytes on the way and the log's view matter. */
  lemma UpKept(n: Net, m: Net, st: Story)
    requires UpTold(n, st)
    requires m.s.limits == n.s.limits && Sessions.BodyOf(m.s) == Sessions.BodyOf(n.s)
    requires m.s.input + m.up == n.s.input + n.up && UpStage(m.log) == UpStage(n.log)
    requires m.log.up == n.log.up && m.log.upTrailers == n.log.upTrailers
    ensures UpTold(m, st)
  {
  }

  lemma DownKept(n: Net, m: Net, st: Story)
    requires DownTold(n, st)
    requires m.c.limits == n.c.limits && Sessions.BodyOf(m.c) == Sessions.BodyOf(n.c)
    requires m.c.input + m.down == n.c.input + n.down && DownStage(m.log) == DownStage(n.log)
    requires m.log.down == n.log.down && m.log.downTrailers == n.log.downTrailers
    ensures DownTold(m, st)
  {
  }

  lemma NoContent(data: bytes)
    requires FrameLength(Framing.Fixed(0), |data|).Some?
    ensures data == []
  {
  }

  lemma StageData(max: nat, body: Body, wire: bytes, stage: Stage, w: Framing, trailers: Headers, data: bytes, st: Story)
    requires StageLinked(max, body, wire, stage, Writing(w)) && StageTold(max, body, wire, stage, Writing(w), trailers, st)
    requires !stage.Unsent? && max >= 16 && |data| < USIZE && FrameLength(w, |data|).Some?
    ensures var f := FrameLength(w, |data|).value;
            StageTold(max, body, wire + FramedBytes(f, data), stage, Writing(f.writer), trailers,
                      st.(sent := st.sent + data))
  {
    var f := FrameLength(w, |data|).value;
    match stage
    case Behind(text, framing) =>
      DataCarries(max, Body(ReaderFor(framing), 0), wire[|text|..], w, data, st);
      TextStays(text, wire, FramedBytes(f, data));
    case Reading => DataCarries(max, body, wire, w, data, st);
    case Over =>
      NoContent(data);
      assert st.sent + data == st.sent;
  }

  lemma StageEnd(max: nat, body: Body, wire: bytes, stage: Stage, w: Framing, before: Headers, trailers: Headers, st: Story)
    requires StageLinked(max, body, wire, stage, Writing(w)) && StageTold(max, body, wire, stage, Writing(w), before, st)
    requires !stage.Unsent? && max >= 16 && EndPrefix(w).Some?
    requires ClosedAs(EndedAs(w, TrailerPart(w, trailers)), trailers, Some(trailers))
    ensures StageTold(max, body, wire + (EndPrefix(w).value + TrailerPart(w, trailers)), stage,
                      EndedAs(w, TrailerPart(w, trailers)), trailers, st.(closed := Some(trailers)))
  {
    TrailerShape(w, trailers);
    var section := TrailerPart(w, trailers);
    match stage
    case Behind(text, framing) =>
      EndCarries(max, Body(ReaderFor(framing), 0), wire[|text|..], w, section, st);
      TextStays(text, wire, EndPrefix(w).value + section);
    case Reading => EndCarries(max, body, wire, w, section, st);
    case Over =>
  }

  /** A fresh lane behind the heads that announce it. */
  lemma StageStarts(max: nat, body: Body, text: bytes, framing: Framing, trailers: Headers)
    ensures StageTold(max, body, text, Behind(text, framing), Writing(framing), trailers, NO_STORY)
  {
    FreshCarries(max, framing);
    WholeText(text);
  }

  /** The head read, its body is next. */
  lemma StageHeard(max: nat, body: Body, input: bytes, channel: bytes, text: bytes, framing: Framing, sent: Sent,
                   trailers: Headers, st: Story)
    requires StageTold(max, body, input + channel, Behind(text, framing), sent, trailers, st) && |text| <= |input|
    ensures StageTold(max, Body(ReaderFor(framing), 0), input[|text|..] + channel, Reading, sent, trailers, st)
  {
    TextTaken(text, input, channel);
  }

  /** The first of several heads read, the others are next. */
  lemma StageInformed(max: nat, body: Body, input: bytes, channel: bytes, first: bytes, rest: bytes, framing: Framing,
                      sent: Sent, trailers: Headers, st: Story)
    requires StageTold(max, body, input + channel, Behind(first + rest, framing), sent, trailers, st)
    requires |first| <= |input|
    ensures StageTold(max, body, input[|first|..] + channel, Behind(rest, framing), sent, trailers, st)
  {
    TextTaken(first, input, channel);
    PrefixChain(first, rest, input + channel);
  }

  // ----------------------------------------------------------------- step by step

  lemma NothingUp(env: Env, n: Net)
    requires Agrees(env, n) && !n.log.asked.requested
    ensures n.s.input + n.up == [] && n.s.input == [] && n.up == [] && !n.log.heard.requested
  {
    assert |n.s.input + n.up| == 0;
  }

  lemma AskTold(env: Env, n: Net, r: Request, up: Story, down: Story)
    requires NetInv(env, n) && UpTold(n, up) && DownTold(n, down)
    ensures UpTold(AskStep(env, n, r), up) && DownTold(AskStep(env, n, r), down)
  {
    if SendRequest(env, n.c, r).1.Some? {
      AskEffect(env, n.c, r);
      var p, text := SentProposal(env, r).value, SendRequest(env, n.c, r).1.value;
      AskStates(n.c.state, n.s.state, n.log, RequestProposals(r, p.offers).proposals, p.persistent);
      var m := AskStep(env, n, r);
      NothingUp(env, n);
      WholeText(text);
      StageStarts(n.s.limits.maxHead, Sessions.BodyOf(n.s), text, p.framing, n.log.upTrailers);
      DownKept(n, m, down);
    } else {
      Runs.SendRequestInv(env, n.c, r);
    }
  }

  lemma ClientBodyTold(env: Env, n: Net, data: bytes, up: Story, down: Story)
    requires NetInv(env, n) && UpTold(n, up) && DownTold(n, down) && |data| < USIZE
    ensures UpTold(ClientBodyStep(n, data), Sends(up, n.c, data)) && DownTold(ClientBodyStep(n, data), down)
  {
    var m := ClientBodyStep(n, data);
    if SendData(n.c, data).1.Some? {
      DataEffect(n.c, data);
      ClientWrites(n.c.state, n.s.state, n.log);
      UpLinked(env, n);
      StageData(n.s.limits.maxHead, Sessions.BodyOf(n.s), n.s.input + n.up, UpStage(n.log), n.log.up.writer,
                n.log.upTrailers, data, up);
      Regroup(n.s.input, n.up, FramedBytes(FrameLength(n.log.up.writer, |data|).value, data));
      DownKept(n, m, down);
    } else {
      Runs.SendDataInv(n.c, |data|);
    }
  }

  lemma ServerBodyTold(env: Env, n: Net, data: bytes, up: Story, down: Story)
    requires NetInv(env, n) && UpTold(n, up) && DownTold(n, down) && |data| < USIZE
    ensures UpTold(ServerBodyStep(n, data), up) && DownTold(ServerBodyStep(n, data), Sends(down, n.s, data))
  {
    var m := ServerBodyStep(n, data);
    if SendData(n.s, data).1.Some? {
      DataEffect(n.s, data);
      ServerWrites(n.c.state, n.s.state, n.log);
      DownLinked(env, n);
      StageData(n.c.limits.maxHead, Sessions.BodyOf(n.c), n.c.input + n.down, DownStage(n.log), n.log.down.writer,
                n.log.downTrailers, data, down);
      Regroup(n.c.input, n.down, FramedBytes(FrameLength(n.log.down.writer, |data|).value, data));
      UpKept(n, m, up);
    } else {
      Runs.SendDataInv(n.s, |data|);
    }
  }

  /** Only chunked messages are closed with trailers. */
  lemma ClosesPlainly(c: Conn, trailers: Headers)
    requires Runs.Inv(c) && EndOfMessage(c, trailers).1.Some?
    ensures c.cycle.writer.Some? && ClosedAs(EndedAs(c.cycle.writer.value, TrailerPart(c.cycle.writer.value, trailers)),
                                             trailers, Some(trailers))
  {
  }

  /** The client's end put on its lane. */
  predicate UpEnds(n: Net, m: Net, w: Framing, trailers: Headers)
    requires EndPrefix(w).Some?
  {
    && m.s == n.s && m.down == n.down && m.up == n.up + (EndPrefix(w).value + TrailerPart(w, trailers))
    && m.log == n.log.(asked := m.log.asked, up := EndedAs(w, TrailerPart(w, trailers)), upTrailers := trailers)
    && m.log.asked.requested == n.log.asked.requested
    && m.c.limits == n.c.limits && Sessions.BodyOf(m.c) == Sessions.BodyOf(n.c) && m.c.input == n.c.input
  }

  lemma ClientEndMoves(n: Net, trailers: Headers)
    requires Runs.Inv(n.c) && EndOfMessage(n.c, trailers).1.Some? && n.c.role == Client
    ensures n.c.cycle.writer.Some? && EndPrefix(n.c.cycle.writer.value).Some? && n.c.state.client == SendBody
    ensures UpEnds(n, ClientEndStep(n, trailers), n.c.cycle.writer.value, trailers)
    ensures var w := n.c.cycle.writer.value; ClosedAs(EndedAs(w, TrailerPart(w, trailers)), trailers, Some(trailers))
  {
    EndEffect(n.c, trailers);
    ClosesPlainly(n.c, trailers);
  }

  lemma UpEnded(n: Net, m: Net, w: Framing, trailers: Headers, up: Story, down: Story)
    requires UpTold(n, up) && DownTold(n, down) && EndPrefix(w).Some? && UpEnds(n, m, w, trailers)
    requires StageLinked(n.s.limits.maxHead, Sessions.BodyOf(n.s), n.s.input + n.up, UpStage(n.log), n.log.up)
    requires n.log.asked.requested && n.log.up == Writing(w) && n.s.limits.maxHead >= 16
    requires ClosedAs(EndedAs(w, TrailerPart(w, trailers)), trailers, Some(trailers))
    ensures UpTold(m, up.(closed := Some(trailers))) && DownTold(m, down)
  {
    StageEnd(n.s.limits.maxHead, Sessions.BodyOf(n.s), n.s.input + n.up, UpStage(n.log), w, n.log.upTrailers,
             trailers, up);
    Regroup(n.s.input, n.up, EndPrefix(w).value + TrailerPart(w, trailers));
    DownKept(n, m, down);
  }

  lemma ClientEndTold(env: Env, n: Net, trailers: Headers, up: Story, down: Story)
    requires NetInv(env, n) && UpTold(n, up) && DownTold(n, down)
    ensures UpTold(ClientEndStep(n, trailers), Closes(up, n.c, trailers)) && DownTold(ClientEndStep(n, trailers), down)
  {
    if EndOfMessage(n.c, trailers).1.Some? {
      ClientEndMoves(n, trailers);
      ClientWrites(n.c.state, n.s.state, n.log);
      UpLinked(env, n);
      UpEnded(n, ClientEndStep(n, trailers), n.c.cycle.writer.value, trailers, up, down);
    } else {
      Runs.EndInv(n.c, trailers);
    }
  }

  /** The server's end put on its lane. */
  predicate DownEnds(n: Net, m: Net, w: Framing, trailers: Headers)
    requires EndPrefix(w).Some?
  {
    && m.c == n.c && m.up == n.up && m.down == n.down + (EndPrefix(w).value + TrailerPart(w, trailers))
    && m.log == n.log.(answered := m.log.answered, down := EndedAs(w, TrailerPart(w, trailers)), downTrailers := trailers)
    && m.log.answered.answer == n.log.answered.answer
    && m.s.limits == n.s.limits && Sessions.BodyOf(m.s) == Sessions.BodyOf(n.s) && m.s.input == n.s.input
  }

  lemma ServerEndMoves(n: Net, trailers: Headers)
    requires Runs.Inv(n.s) && EndOfMessage(n.s, trailers).1.Some? && n.s.role == Server
    ensures n.s.cycle.writer.Some? && EndPrefix(n.s.cycle.writer.value).Some? && n.s.state.server == SendBody
    ensures DownEnds(n, ServerEndStep(n, trailers), n.s.cycle.writer.value, trailers)
    ensures var w := n.s.cycle.writer.value; ClosedAs(EndedAs(w, TrailerPart(w, trailers)), trailers, Some(trailers))
  {
    EndEffect(n.s, trailers);
    ClosesPlainly(n.s, trailers);
  }

  lemma DownEnded(n: Net, m: Net, w: Framing, trailers: Headers, up: Story, down: Story)
    requires UpTold(n, up) && DownTold(n, down) && EndPrefix(w).Some? && DownEnds(n, m, w, trailers)
    requires StageLinked(n.c.limits.maxHead, Sessions.BodyOf(n.c), n.c.input + n.down, DownStage(n.log), n.log.down)
    requires n.log.answered.answer == Responded && n.log.down == Writing(w) && n.c.limits.maxHead >= 16
    requires ClosedAs(EndedAs(w, TrailerPart(w, trailers)), trailers, Some(trailers))
    ensures UpTold(m, up) && DownTold(m, down.(closed := Some(trailers)))
  {
    StageEnd(n.c.limits.maxHead, Sessions.BodyOf(n.c), n.c.input + n.down, DownStage(n.log), w, n.log.downTrailers,
             trailers, down);
    Regroup(n.c.input, n.down, EndPrefix(w).value + TrailerPart(w, trailers));
    UpKept(n, m, up);
  }

  lemma ServerEndTold(env: Env, n: Net, trailers: Headers, up: Story, down: Story)
    requires NetInv(env, n) && UpTold(n, up) && DownTold(n, down)
    ensures UpTold(ServerEndStep(n, trailers), up) && DownTold(ServerEndStep(n, trailers), Closes(down, n.s, trailers))
  {
    if EndOfMessage(n.s, trailers).1.Some? {
      ServerEndMoves(n, trailers);
      ServerWrites(n.c.state, n.s.state, n.log);
      DownLinked(env, n);
      DownEnded(n, ServerEndStep(n, trailers), n.s.cycle.writer.value, trailers, up, down);
    } else {
      Runs.EndInv(n.s, trailers);
    }
  }

  /** Until the response has begun there is nothing to tell of it. */
  lemma DownUnsent(m: Net)
    requires m.log.answered.answer != Responded
    ensures DownTold(m, NO_STORY)
  {
  }

  lemma NothingDown(n: Net, down: Story)
    requires DownTold(n, down) && n.log.answered.answer != Responded
    ensures down == NO_STORY
  {
  }

  /** What a response head leaves alone: the client, and all of the request direction. */
  predicate HeadMoves(n: Net, m: Net) {
    && m.c == n.c && m.up == n.up && m.s.input == n.s.input && m.s.limits == n.s.limits
    && Sessions.BodyOf(m.s) == Sessions.BodyOf(n.s)
    && m.log == n.log.(answered := m.log.answered, heads := m.log.heads, last := m.log.last,
                       framing := m.log.framing, down := m.log.down)
  }

  lemma InformedLog(n: Net, m: Net, r: Response)
    requires n.log.answered.answer == NoAnswer
    requires m == n.(s := m.s, down := n.down + ResponseText(r),
                     log := if r.status == 101
                            then n.log.(answered := ServerAfter(n.log.answered, SwitchEvent(Upgrade)), last := Some(r))
                            else n.log.(heads := n.log.heads + [r]))
    ensures m.log.answered.answer != Responded
    ensures m.log == n.log.(answered := m.log.answered, heads := m.log.heads, last := m.log.last)
  {
  }

  lemma InformMoves(env: Env, n: Net, r: Response)
    requires Runs.Inv(n.s) && n.log.answered.answer == NoAnswer && SendInformational(env, n.s, r).1.Some?
    ensures HeadMoves(n, InformStep(env, n, r)) && InformStep(env, n, r).log.answered.answer != Responded
  {
    InformEffect(env, n.s, r);
    InformedLog(n, InformStep(env, n, r), r);
  }

  lemma UpHeads(n: Net, m: Net, up: Story)
    requires UpTold(n, up) && HeadMoves(n, m)
    ensures UpTold(m, up)
  {
    UpKept(n, m, up);
  }

  lemma InformTold(env: Env, n: Net, r: Response, up: Story, down: Story)
    requires Runs.Inv(n.s) && UpTold(n, up) && DownTold(n, down)
    requires n.s.state.server == State.SendResponse ==> n.log.answered.answer == NoAnswer
    ensures UpTold(InformStep(env, n, r), up) && DownTold(InformStep(env, n, r), down)
  {
    if SendInformational(env, n.s, r).1.Some? {
      InformEffect(env, n.s, r);
      InformMoves(env, n, r);
      UpHeads(n, InformStep(env, n, r), up);
      NothingDown(n, down);
      DownUnsent(InformStep(env, n, r));
    } else {
      Runs.SendInformationalInv(env, n.s, r);
    }
  }

  lemma AnsweredLog(n: Net, m: Net, r: Response, f: Response, framing: Framing)
    requires n.log.answered == SERVER_START
    requires m == n.(s := m.s, down := n.down + ResponseText(f),
                     log := n.log.(answered := ServerAfter(n.log.answered, n.s.FinalEvent(r)), last := Some(f),
                                   framing := framing, down := Writing(framing)))
    ensures if n.s.OpensTunnel(r) then m.log.answered.answer != Responded else m.log.answered.answer == Responded
    ensures m.log == n.log.(answered := m.log.answered, last := Some(f), framing := framing, down := Writing(framing))
  {
  }

  lemma AnswerMoves(env: Env, n: Net, r: Response)
    requires Runs.Inv(n.s) && n.log.answered == SERVER_START
    requires SendHead(n.s, r, FieldsOf(env.validHost, r.headers)).1.Some?
    ensures var m, f := AnswerStep(env, n, r), SendHead(n.s, r, FieldsOf(env.validHost, r.headers)).1.value;
            && HeadMoves(n, m)
            && (if n.s.OpensTunnel(r) then m.log.answered.answer != Responded
                else
                  && m.log.answered.answer == Responded && m.log.heads == n.log.heads
                  && m.log.last == Some(f) && m.log.down == Writing(m.log.framing)
                  && m.down == n.down + ResponseText(f))
  {
    AnswerEffect(n.s, r, FieldsOf(env.validHost, r.headers));
    var plan := PlanResponse(n.s, r, FieldsOf(env.validHost, r.headers)).value;
    AnsweredLog(n, AnswerStep(env, n, r), r, SendHead(n.s, r, FieldsOf(env.validHost, r.headers)).1.value, plan.framing);
  }

  lemma AnsweredDown(n: Net, m: Net, f: Response)
    requires n.c.input + n.down == TextsOf(n.log.heads) && m.c == n.c && m.down == n.down + ResponseText(f)
    requires m.log.answered.answer == Responded && m.log.told.answer == NoAnswer && m.log.heads == n.log.heads
    requires m.log.last == Some(f) && m.log.down == Writing(m.log.framing)
    ensures DownTold(m, NO_STORY)
  {
    Regroup(n.c.input, n.down, ResponseText(f));
    StageStarts(m.c.limits.maxHead, Sessions.BodyOf(m.c), m.c.input + m.down, m.log.framing, m.log.downTrailers);
  }

  lemma AnswerTold(env: Env, n: Net, r: Response, up: Story, down: Story)
    requires Runs.Inv(n.s) && UpTold(n, up) && DownTold(n, down) && n.log.answered == SERVER_START
    requires n.log.told.answer == NoAnswer && n.c.input + n.down == TextsOf(n.log.heads)
    ensures UpTold(AnswerStep(env, n, r), up) && DownTold(AnswerStep(env, n, r), down)
  {
    var s := FieldsOf(env.validHost, r.headers);
    if SendHead(n.s, r, s).1.Some? {
      AnswerMoves(env, n, r);
      UpHeads(n, AnswerStep(env, n, r), up);
      NothingDown(n, down);
      if n.s.OpensTunnel(r) {
        DownUnsent(AnswerStep(env, n, r));
      } else {
        AnsweredDown(n, AnswerStep(env, n, r), SendHead(n.s, r, s).1.value);
      }
    } else {
      Runs.SendFinalInv(env, n.s, r);
    }
  }

  lemma OwedDown(env: Env, n: Net)
    requires Agrees(env, n) && n.log.told.answer == NoAnswer && n.log.answered.answer == NoAnswer
    ensures n.c.input + n.down == TextsOf(n.log.heads)
  {
  }

  lemma DeliverUpTold(n: Net, count: nat, up: Story, down: Story)
    requires UpTold(n, up) && DownTold(n, down) && 1 <= count <= |n.up| && !n.s.eof
    ensures UpTold(DeliverUpStep(n, count), up) && DownTold(DeliverUpStep(n, count), down)
  {
    Received(n.s, n.up, count);
    UpKept(n, DeliverUpStep(n, count), up);
    DownKept(n, DeliverUpStep(n, count), down);
  }

  lemma DeliverDownTold(n: Net, count: nat, up: Story, down: Story)
    requires UpTold(n, up) && DownTold(n, down) && 1 <= count <= |n.down| && !n.c.eof
    ensures UpTold(DeliverDownStep(n, count), up) && DownTold(DeliverDownStep(n, count), down)
  {
    Received(n.c, n.down, count);
    UpKept(n, DeliverDownStep(n, count), up);
    DownKept(n, DeliverDownStep(n, count), down);
  }

  // ------------------------------------------------------------------------ polls

  /** Outside a body no poll yields content or an end. */
  lemma NothingHeard(env: Env, c: Conn, st: Story)
    requires Runs.Inv(c) && c.Remote() != SendBody
    ensures Hears(st, NextEvent(env, c).1) == st
  {
    Effects.InnerEffect(env, c);
  }

  /** The whole request head is in the buffer, and this is what accepting it yields. */
  predicate Hearing(env: Env, n: Net, r: (Conn, Polled)) {
    && n.log.asked.requested && |n.log.text| <= |n.s.input|
    && r == AcceptRequest(PastSection(n.s, |n.log.text|), n.log.request,
                          FieldsOf(env.validHost, n.log.request.headers),
                          env.validTarget(n.log.request.verb, n.log.request.target))
  }

  lemma RequestDue(env: Env, n: Net, r: (Conn, Polled))
    requires Agrees(env, n) && Patient(env) && !n.log.heard.requested
    requires n.s.role == Server && !n.s.eof && n.s.cycle.progress.Within(n.s.input) && r == ReadHead(env, n.s)
    ensures OnlyScans(n.s, r) || Hearing(env, n, r)
  {
    TextUnderWay(env, n);
    if !n.log.asked.requested {
      NothingToRead(env, n.s);
    } else {
      RequestHeadPolls(env, n.s, n.up, n.log.text, n.log.request);
    }
  }

  lemma ServerScanTold(n: Net, r: (Conn, Polled), up: Story)
    requires UpTold(n, up) && OnlyScans(n.s, r)
    ensures UpTold(PolledServer(n, r.0, Other(r.1)), up)
  {
    assert PolledServer(n, r.0, Other(r.1)) == n.(s := r.0);
    UpKept(n, n.(s := r.0), up);
  }

  lemma HearsRequest(env: Env, n: Net, r: (Conn, Polled))
    requires Agrees(env, n) && !n.log.heard.requested && n.s.role == Server && n.s.cycle.ext == 0 && Hearing(env, n, r)
    ensures var m := PolledServer(n, r.0, Other(r.1));
            && m == n.(s := r.0, log := n.log.(heard := n.log.asked.(ended := false)))
            && r.0.input == n.s.input[|n.log.text|..] && r.0.limits == n.s.limits
            && Sessions.BodyOf(r.0) == Body(ReaderFor(n.log.proposal.framing), 0)
  {
    TextUnderWay(env, n);
    HearStates(n.c.state, n.s.state, n.log, n.log.proposal.persistent);
    RequestAccepted(env, PastSection(n.s, |n.log.text|), n.log.request, n.log.proposal);
  }

  lemma ServerHeard(n: Net, m: Net, up: Story)
    requires UpTold(n, up) && n.log.asked.requested && !n.log.heard.requested && |n.log.text| <= |n.s.input|
    requires m == n.(s := m.s, log := n.log.(heard := n.log.asked.(ended := false)))
    requires m.s.input == n.s.input[|n.log.text|..] && m.s.limits == n.s.limits
    requires Sessions.BodyOf(m.s) == Body(ReaderFor(n.log.proposal.framing), 0)
    ensures UpTold(m, up)
  {
    StageHeard(n.s.limits.maxHead, Sessions.BodyOf(n.s), n.s.input, n.up, n.log.text, n.log.proposal.framing,
               n.log.up, n.log.upTrailers, up);
  }

  lemma ServerHeadTold(env: Env, n: Net, r: (Conn, Polled), up: Story)
    requires Agrees(env, n) && Patient(env) && !n.log.heard.requested && UpTold(n, up)
    requires n.s.role == Server && n.s.cycle.ext == 0 && !n.s.eof && n.s.cycle.progress.Within(n.s.input)
    requires r == ReadHead(env, n.s)
    ensures UpTold(PolledServer(n, r.0, Other(r.1)), up)
  {
    RequestDue(env, n, r);
    if OnlyScans(n.s, r) {
      ServerScanTold(n, r, up);
    } else {
      HearsRequest(env, n, r);
      ServerHeard(n, PolledServer(n, r.0, Other(r.1)), up);
    }
  }

  lemma ClientScanTold(n: Net, r: (Conn, Polled), down: Story)
    requires DownTold(n, down) && OnlyScans(n.c, r)
    ensures DownTold(PolledClient(n, r.0, Other(r.1)), down)
  {
    assert PolledClient(n, r.0, Other(r.1)) == n.(c := r.0);
    DownKept(n, n.(c := r.0), down);
  }

  /** A poll within a body, by what it told. */
  lemma ServerBodyHeard(n: Net, d: Conn, next: Next, up: Story)
    requires UpTold(n, up) && UpStage(n.log) == Reading
    requires BodyPolled(n.s, n.up, n.log.up, (d, next))
    requires BodyTold(n.s, n.up, n.log.up, n.log.upTrailers, up, (d, next))
    ensures UpTold(PolledServer(n, d, next), Hears(up, next))
  {
    if next.Other? && next.polled.EndPolled? {
      PolledServerEnd(n, d, next);
    } else {
      PolledServerOn(n, d, next);
    }
  }

  lemma ServerPollLeavesDown(n: Net, d: Conn, next: Next, down: Story)
    requires DownTold(n, down)
    ensures DownTold(PolledServer(n, d, next), down)
  {
    DownKept(n, PolledServer(n, d, next), down);
  }

  lemma UpTells(env: Env, n: Net, up: Story)
    requires NetInv(env, n) && n.s.state.client == SendBody && UpTold(n, up)
    ensures BodyTold(n.s, n.up, n.log.up, n.log.upTrailers, up, NextEvent(env, n.s)) && UpStage(n.log) == Reading
  {
    ClientSeen(n.c.state, n.s.state, n.log);
    BodyTells(env, n.s, n.up, n.log.up, n.log.upTrailers, up);
  }

  lemma ServerPollTold(env: Env, n: Net, up: Story, down: Story)
    requires NetInv(env, n) && Patient(env) && UpTold(n, up) && DownTold(n, down)
    ensures UpTold(ServerPollStep(env, n), Hears(up, NextEvent(env, n.s).1)) && DownTold(ServerPollStep(env, n), down)
  {
    var (d, next) := NextEvent(env, n.s);
    ServerPollLeavesDown(n, d, next, down);
    ClientSeen(n.c.state, n.s.state, n.log);
    if n.s.state.client == SendBody {
      ServerPollsBody(env, n);
      UpTells(env, n, up);
      ServerBodyHeard(n, d, next, up);
    } else {
      NothingHeard(env, n.s, up);
      if n.s.state.client == Idle {
        PollsForHead(env, n.s);
        ServerPollKeeps(env, n);
        HandsOut(env, n.s);
        ServerHeadTold(env, n, ReadHead(env, n.s), up);
      } else {
        ServerPollsIdle(env, n);
      }
    }
  }

  lemma DownTells(env: Env, n: Net, down: Story)
    requires NetInv(env, n) && n.c.state.server == SendBody && DownTold(n, down)
    ensures BodyTold(n.c, n.down, n.log.down, n.log.downTrailers, down, NextEvent(env, n.c))
    ensures DownStage(n.log) == Reading
  {
    ServerSeen(n.c.state, n.s.state, n.log);
    BodyTells(env, n.c, n.down, n.log.down, n.log.downTrailers, down);
  }

  lemma ClientBodyHeard(n: Net, d: Conn, next: Next, down: Story)
    requires DownTold(n, down) && DownStage(n.log) == Reading
    requires BodyPolled(n.c, n.down, n.log.down, (d, next))
    requires BodyTold(n.c, n.down, n.log.down, n.log.downTrailers, down, (d, next))
    ensures DownTold(PolledClient(n, d, next), Hears(down, next))
  {
  }

  lemma ClientPollLeavesUp(n: Net, d: Conn, next: Next, up: Story)
    requires UpTold(n, up)
    ensures UpTold(PolledClient(n, d, next), up)
  {
    UpKept(n, PolledClient(n, d, next), up);
  }

  lemma UnsentStays(n: Net, d: Conn, next: Next, down: Story)
    requires DownTold(n, down) && n.log.answered.answer != Responded
    ensures DownTold(PolledClient(n, d, next), down)
  {
    NothingDown(n, down);
    DownUnsent(PolledClient(n, d, next));
  }

  lemma ResponseDue(env: Env, n: Net, r: (Conn, Polled))
    requires Agrees(env, n) && n.log.told.answer == NoAnswer && n.log.answered.answer == Responded
    requires n.c.role == Client && !n.c.eof && n.c.cycle.progress.Within(n.c.input) && r == ReadHead(env, n.c)
    ensures FirstHead(n.log).Some? && (OnlyScans(n.c, r) || Reads(env, n.c, FirstHead(n.log).value, r))
  {
    var f := FirstHead(n.log);
    HeadsUnderWay(env, n);
    FirstRead(env, n.c, n.c.input + n.down, n.log);
    ResponseHeadPolls(env, n.c, n.down, ResponseText(f.value), f.value);
  }

  lemma ClientInformedOf(n: Net, m: Net, down: Story)
    requires DownTold(n, down) && n.log.answered.answer == Responded && n.log.told.answer == NoAnswer && n.log.heads != []
    requires |ResponseText(n.log.heads[0])| <= |n.c.input|
    requires m == n.(c := m.c, log := n.log.(heads := n.log.heads[1..]))
    requires m.c.input == n.c.input[|ResponseText(n.log.heads[0])|..] && m.c.limits == n.c.limits
    ensures DownTold(m, down)
  {
    var first, rest := ResponseText(n.log.heads[0]), TextsOf(n.log.heads[1..]);
    TextsFirst(n.log.heads);
    Regroup(first, rest, LastText(n.log.last));
    StageInformed(n.c.limits.maxHead, Sessions.BodyOf(n.c), n.c.input, n.down, first, rest + LastText(n.log.last),
                  n.log.framing, n.log.down, n.log.downTrailers, down);
  }

  lemma InformationalTold(env: Env, n: Net, r: (Conn, Polled), down: Story)
    requires Agrees(env, n) && n.c.role == Client && n.log.told.answer == NoAnswer && n.log.heads != []
    requires Reads(env, n.c, n.log.heads[0], r) && n.log.answered.answer == Responded && DownTold(n, down)
    ensures DownTold(PolledClient(n, r.0, Other(r.1)), down)
  {
    var f := n.log.heads[0];
    HeadsUnderWay(env, n);
    ToldStates(n.c.state, n.s.state, n.log, InformationalEvent, false);
    InformedConn(PastSection(n.c, |ResponseText(f)|), f, FieldsOf(env.validHost, f.headers));
    PolledClientInformed(n, r.0, f);
    ClientInformedOf(n, PolledClient(n, r.0, Other(r.1)), down);
  }

  lemma LastOnly(l: Log)
    requires l.answered.answer == Responded && l.told.answer == NoAnswer && l.heads == [] && l.last.Some?
    ensures DownStage(l) == Behind(ResponseText(l.last.value), l.framing) && DownStage(ToldLog(l)) == Reading
  {
    assert [] + ResponseText(l.last.value) == ResponseText(l.last.value);
  }

  lemma ClientAnsweredWith(n: Net, m: Net, down: Story)
    requires DownTold(n, down) && n.log.answered.answer == Responded && n.log.told.answer == NoAnswer
    requires n.log.heads == [] && n.log.last.Some? && |ResponseText(n.log.last.value)| <= |n.c.input|
    requires m == n.(c := m.c, log := ToldLog(n.log))
    requires m.c.input == n.c.input[|ResponseText(n.log.last.value)|..] && m.c.limits == n.c.limits
    requires Sessions.BodyOf(m.c) == Body(ReaderFor(n.log.framing), 0)
    ensures DownTold(m, down)
  {
    var text := ResponseText(n.log.last.value);
    LastOnly(n.log);
    StageHeard(n.c.limits.maxHead, Sessions.BodyOf(n.c), n.c.input, n.down, text, n.log.framing,
               n.log.down, n.log.downTrailers, down);
  }

  lemma FinalTold(env: Env, n: Net, r: (Conn, Polled), down: Story)
    requires Agrees(env, n) && n.c.role == Client && n.log.told.answer == NoAnswer && n.log.heads == [] && n.log.last.Some?
    requires Reads(env, n.c, n.log.last.value, r) && n.c.cycle.ext == 0 && n.log.answered.answer == Responded
    requires DownTold(n, down)
    ensures DownTold(PolledClient(n, r.0, Other(r.1)), down)
  {
    var f := n.log.last.value;
    var p := PastSection(n.c, |ResponseText(f)|);
    HeadsUnderWay(env, n);
    FinalTaken(env, n.c, n.c.input, n.down, n.log);
    ToldStates(n.c.state, n.s.state, n.log, ResponseEvent, false);
    KindDecides(n.c, p, f);
    AnsweredConn(p, f, FieldsOf(env.validHost, f.headers), n.log.framing);
    PolledClientFinal(n, r.0, f);
    ClientAnsweredWith(n, PolledClient(n, r.0, Other(r.1)), down);
  }

  lemma ClientHeadTold(env: Env, n: Net, r: (Conn, Polled), down: Story)
    requires Agrees(env, n) && Patient(env) && n.log.told.answer == NoAnswer && DownTold(n, down)
    requires n.c.role == Client && n.c.cycle.ext == 0 && !n.c.eof && n.c.cycle.progress.Within(n.c.input)
    requires r == ReadHead(env, n.c)
    ensures DownTold(PolledClient(n, r.0, Other(r.1)), down)
  {
    if n.log.answered.answer != Responded {
      UnsentStays(n, r.0, Other(r.1), down);
    } else {
      ResponseDue(env, n, r);
      if OnlyScans(n.c, r) {
        ClientScanTold(n, r, down);
      } else if n.log.heads != [] {
        InformationalTold(env, n, r, down);
      } else {
        FinalTold(env, n, r, down);
      }
    }
  }

  lemma ClientHeadPollTold(env: Env, n: Net, down: Story)
    requires NetInv(env, n) && Patient(env) && DownTold(n, down) && n.log.told.answer == NoAnswer
    requires (n.c.state.server == Idle || n.c.state.server == State.SendResponse)
    ensures DownTold(ClientPollStep(env, n), down)
  {
    PollsForHead(env, n.c);
    FreshReader(n.c);
    ClientReadsHead(env, n);
    HandsOut(env, n.c);
    ClientHeadTold(env, n, ReadHead(env, n.c), down);
  }

  lemma ClientPollTold(env: Env, n: Net, up: Story, down: Story)
    requires NetInv(env, n) && Patient(env) && UpTold(n, up) && DownTold(n, down)
    ensures UpTold(ClientPollStep(env, n), up) && DownTold(ClientPollStep(env, n), Hears(down, NextEvent(env, n.c).1))
  {
    var (d, next) := NextEvent(env, n.c);
    ClientPollLeavesUp(n, d, next, up);
    ServerSeen(n.c.state, n.s.state, n.log);
    if n.c.state.server == SendBody {
      ClientPollsBody(env, n);
      DownTells(env, n, down);
      ClientBodyHeard(n, d, next, down);
    } else {
      NothingHeard(env, n.c, down);
      if (n.c.state.server == Idle || n.c.state.server == State.SendResponse) {
        ClientHeadPollTold(env, n, down);
      } else {
        ClientPollsIdle(env, n);
      }
    }
  }

  // ------------------------------------------------------------------------- runs

  lemma ClientSendTold(env: Env, n: Net, op: NetOp, up: Story, down: Story)
    requires NetInv(env, n) && UpTold(n, up) && DownTold(n, down) && ClientSends(op) && MayClientSend(env, n, op)
    ensures var m := ClientSendStep(env, n, op); UpTold(m, UpSent(n, up, op)) && DownTold(m, down)
  {
    match op
    case Ask(r) => AskTold(env, n, r, up, down);
    case ClientBody(data) => ClientBodyTold(env, n, data, up, down);
    case ClientEnd(trailers) => ClientEndTold(env, n, trailers, up, down);
  }

  lemma OwedInformTold(env: Env, n: Net, r: Response, up: Story, down: Story)
    requires NetInv(env, n) && UpTold(n, up) && DownTold(n, down)
    ensures UpTold(InformStep(env, n, r), up) && DownTold(InformStep(env, n, r), down)
  {
    OwesAnswer(n.c.state, n.s.state, n.log);
    InformTold(env, n, r, up, down);
  }

  lemma OwedAnswerTold(env: Env, n: Net, r: Response, up: Story, down: Story)
    requires NetInv(env, n) && UpTold(n, up) && DownTold(n, down) && n.s.state.server == State.SendResponse
    ensures UpTold(AnswerStep(env, n, r), up) && DownTold(AnswerStep(env, n, r), down)
  {
    OwesAnswer(n.c.state, n.s.state, n.log);
    OwedDown(env, n);
    AnswerTold(env, n, r, up, down);
  }

  lemma ServerHeadSendTold(env: Env, n: Net, op: NetOp, up: Story, down: Story)
    requires NetInv(env, n) && UpTold(n, up) && DownTold(n, down)
    requires op.Inform? || (op.Answer? && n.s.state.server == State.SendResponse)
    ensures UpTold(ServerSendStep(env, n, op), up) && DownTold(ServerSendStep(env, n, op), down)
  {
    match op
    case Inform(r) => OwedInformTold(env, n, r, up, down);
    case Answer(r) => OwedAnswerTold(env, n, r, up, down);
  }

  lemma MoveTold(env: Env, t: Track, op: NetOp)
    requires TrackInv(env, t) && Patient(env) && MayStep(env, t.net, op) && !ClientSends(op) && !ServerSends(op)
    ensures var u := TrackStep(env, t, op); UpTold(u.net, u.up) && DownTold(u.net, u.down)
  {
    match op
    case DeliverUp(count) => DeliverUpTold(t.net, count, t.up, t.down);
    case DeliverDown(count) => DeliverDownTold(t.net, count, t.up, t.down);
    case ServerPoll => ServerPollTold(env, t.net, t.up, t.down);
    case ClientPoll => ClientPollTold(env, t.net, t.up, t.down);
  }

  lemma ServerBodySendTold(env: Env, t: Track, op: NetOp)
    requires TrackInv(env, t) && ((op.ServerBody? && |op.data| < USIZE) || op.ServerEnd?)
    ensures var u := TrackStep(env, t, op); UpTold(u.net, u.up) && DownTold(u.net, u.down)
  {
    if op.ServerBody? {
      ServerBodyTold(env, t.net, op.data, t.up, t.down);
    } else {
      ServerEndTold(env, t.net, op.trailers, t.up, t.down);
    }
  }

  /** Every step keeps track of every byte. */
  lemma StepTold(env: Env, t: Track, op: NetOp)
    requires TrackInv(env, t) && Patient(env) && MayStep(env, t.net, op)
    ensures var u := TrackStep(env, t, op); UpTold(u.net, u.up) && DownTold(u.net, u.down)
  {
    if ClientSends(op) {
      ClientSendTold(env, t.net, op, t.up, t.down);
    } else if op.Inform? || op.Answer? {
      ServerHeadSendTold(env, t.net, op, t.up, t.down);
    } else if ServerSends(op) {
      ServerBodySendTold(env, t, op);
    } else {
      MoveTold(env, t, op);
    }
  }

  ghost function TrackRun(env: Env, t: Track, ops: seq<NetOp>): Track
    requires MayRun(env, t.net, ops)
    decreases |ops|
  {
    if ops == [] then t else TrackRun(env, TrackStep(env, t, ops[0]), ops[1..])
  }

  lemma {:induction false} RunTold(env: Env, t: Track, ops: seq<NetOp>)
    requires TrackInv(env, t) && Patient(env) && MayRun(env, t.net, ops)
    ensures TrackInv(env, TrackRun(env, t, ops)) && TrackRun(env, t, ops).net == NetRun(env, t.net, ops)
    decreases |ops|
  {
    if ops == [] {
    } else {
      StepTold(env, t, ops[0]);
      StepKeeps(env, t.net, ops[0]);
      RunTold(env, TrackStep(env, t, ops[0]), ops[1..]);
    }
  }

  /**
   What was polled is the front of what was sent; once the end is polled it is all
   of it, with the trailers the sender closed the message with, if it has.
   */
  predicate Faithful(st: Story) {
    && st.got <= st.sent
    && (st.heard.Some? ==>
          st.got == st.sent && st.heard.value == (if st.closed.Some? then st.closed.value else []))
  }

  lemma ToldIsFaithful(max: nat, body: Body, wire: bytes, stage: Stage, sent: Sent, trailers: Headers, st: Story)
    requires StageTold(max, body, wire, stage, sent, trailers, st)
    ensures Faithful(st)
  {
  }

  lemma NoTokens(max: nat, body: Body)
    requires InBody(body.reader) && ScanOk(body.reader, [])
    ensures Decode(max, body, []).tokens == []
  {
  }

  lemma NothingOnTheWay(max: nat, body: Body, stage: Stage, sent: Sent, trailers: Headers, st: Story)
    requires StageTold(max, body, [], stage, sent, trailers, st) && (stage.Behind? ==> stage.text != [])
    ensures st.got == st.sent
  {
    if stage == Reading {
      NoTokens(max, body);
      assert st.sent[|st.got|..] == [];
    }
  }

  /** A head under way has bytes. */
  lemma HeadHasBytes(env: Env, n: Net)
    requires Agrees(env, n)
    ensures UpStage(n.log).Behind? ==> UpStage(n.log).text != []
    ensures DownStage(n.log).Behind? ==> DownStage(n.log).text != []
  {
    if DownStage(n.log).Behind? {
      HeadsUnderWay(env, n);
    }
  }

  lemma TrackSays(env: Env, t: Track)
    requires TrackInv(env, t)
    ensures Faithful(t.up) && Faithful(t.down)
    ensures t.net.up == [] && t.net.s.input == [] ==> t.up.got == t.up.sent
    ensures t.net.down == [] && t.net.c.input == [] ==> t.down.got == t.down.sent
  {
    var n := t.net;
    HeadHasBytes(env, n);
    ToldIsFaithful(n.s.limits.maxHead, Sessions.BodyOf(n.s), n.s.input + n.up, UpStage(n.log), n.log.up,
                   n.log.upTrailers, t.up);
    ToldIsFaithful(n.c.limits.maxHead, Sessions.BodyOf(n.c), n.c.input + n.down, DownStage(n.log), n.log.down,
                   n.log.downTrailers, t.down);
    if n.up == [] && n.s.input == [] {
      assert n.s.input + n.up == [];
      NothingOnTheWay(n.s.limits.maxHead, Sessions.BodyOf(n.s), UpStage(n.log), n.log.up, n.log.upTrailers, t.up);
    }
    if n.down == [] && n.c.input == [] {
      assert n.c.input + n.down == [];
      NothingOnTheWay(n.c.limits.maxHead, Sessions.BodyOf(n.c), DownStage(n.log), n.log.down, n.log.downTrailers, t.down);
    }
  }

  /**
   Over every run of a fresh pair, in each direction: the content polled is the
   front of the content sent, what the decoder would make of buffer and channel is
   exactly the rest, a polled end comes after all of it with the sender's trailers,
   and with nothing left on the way everything sent has been polled.
   */
  lemma RunsDeliver(env: Env, c: Conn, s: Conn, ops: seq<NetOp>)
    requires Patient(env) && FreshPair(c, s) && MayRun(env, Start(c, s), ops)
    ensures var t := TrackRun(env, Track(Start(c, s), NO_STORY, NO_STORY), ops);
            && t.net == NetRun(env, Start(c, s), ops)
            && UpTold(t.net, t.up) && DownTold(t.net, t.down) && Faithful(t.up) && Faithful(t.down)
            && (t.net.up == [] && t.net.s.input == [] ==> t.up.got == t.up.sent)
            && (t.net.down == [] && t.net.c.input == [] ==> t.down.got == t.down.sent)
  {
    var start := Track(Start(c, s), NO_STORY, NO_STORY);
    StartInv(env, c, s);
    RunTold(env, start, ops);
    TrackSays(env, TrackRun(env, start, ops));
  }
}
