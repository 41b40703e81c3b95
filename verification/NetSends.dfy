/** Sends and deliveries keep two joined endpoints in agreement. */
module NetSends {
  import opened States
  import opened Bytes
  import opened Bodies
  import opened Payload
  import opened Fields
  import opened Messages
  import opened Conn
  import opened Heads
  import opened Lanes
  import opened Net
  import Effects
  import Runs
  import Sessions

  // --------------------------------------------------------------- joint states

  /** A joint state is that of its histories and its own keep-alive flag. */
  lemma JointFlag(c: ClientProgress, s: ServerProgress, d: bool)
    ensures Joint(c, s, d) == Joint(c, s, !Joint(c, s, d).keepAlive)
  {
  }

  lemma AskStates(x: ConnectionState, y: ConnectionState, l: Log, offered: SwitchProposals, persistent: bool)
    requires StatesOk(x, y, l) && ProcessEvent(x, Client, RequestEvent(offered)).Some?
    ensures var u := ProcessEvent(x, Client, RequestEvent(offered)).value;
            var t := if persistent then u else DisableKeepAlive(u);
            && !l.asked.requested
            && StatesOk(t, y, l.(asked := ClientAfter(l.asked, RequestEvent(offered))))
            && (x.keepAlive ==> t.keepAlive == persistent)
  {
    var event := RequestEvent(offered);
    var asked := ClientAfter(l.asked, event);
    assert !l.asked.requested;
    ClientStep(l.asked, l.told, !x.keepAlive, event);
    DisableStep(asked, l.told, !x.keepAlive);
    JointFlag(asked, l.told, true);
    JointFlag(asked, l.told, !x.keepAlive);
  }

  lemma ClientEndStates(x: ConnectionState, y: ConnectionState, l: Log)
    requires StatesOk(x, y, l) && x.client == SendBody
    ensures ProcessEvent(x, Client, EndEvent).Some?
    ensures var t := ProcessEvent(x, Client, EndEvent).value;
            && l.asked.requested && !l.asked.ended && t.keepAlive == x.keepAlive
            && StatesOk(t, y, l.(asked := ClientAfter(l.asked, EndEvent)))
  {
    ClientStep(l.asked, l.told, !x.keepAlive, EndEvent);
    JointFlag(ClientAfter(l.asked, EndEvent), l.told, !x.keepAlive);
  }

  lemma ServerEndStates(x: ConnectionState, y: ConnectionState, l: Log)
    requires StatesOk(x, y, l) && y.server == SendBody
    ensures ProcessEvent(y, Server, EndEvent).Some?
    ensures var t := ProcessEvent(y, Server, EndEvent).value;
            && l.answered.answer == Responded && !l.answered.ended && t.keepAlive == y.keepAlive
            && l.heard.requested
            && StatesOk(x, t, l.(answered := ServerAfter(l.answered, EndEvent)))
  {
    ServerStep(l.heard, l.answered, !y.keepAlive, EndEvent);
    JointFlag(l.heard, ServerAfter(l.answered, EndEvent), !y.keepAlive);
  }

  /** A server that owes an answer has heard the request and answered nothing. */
  lemma OwesAnswer(x: ConnectionState, y: ConnectionState, l: Log)
    requires StatesOk(x, y, l)
    ensures y.server == State.SendResponse <==> l.heard.requested && l.answered.answer == NoAnswer
    ensures y.server == State.SendResponse ==> l.answered == SERVER_START && l.told == SERVER_START
  {
  }

  lemma HeadStates(x: ConnectionState, y: ConnectionState, l: Log, event: StateEvent, off: bool)
    requires StatesOk(x, y, l) && y.server == State.SendResponse && ProcessEvent(y, Server, event).Some?
    requires event == InformationalEvent || event == ResponseEvent || event.SwitchEvent?
    ensures var u := ProcessEvent(y, Server, event).value;
            var t := if off then DisableKeepAlive(u) else u;
            && StatesOk(x, t, l.(answered := ServerAfter(l.answered, event)))
            && (t.keepAlive ==> y.keepAlive && !off)
            && (event != ResponseEvent && !off ==> t.keepAlive == y.keepAlive)
            && (event == InformationalEvent && !off ==> t == y)
  {
    OwesAnswer(x, y, l);
    var answered := ServerAfter(l.answered, event);
    ServerStep(l.heard, l.answered, !y.keepAlive, event);
    DisableStep(l.heard, answered, !y.keepAlive);
    JointFlag(l.heard, answered, true);
    JointFlag(l.heard, answered, !y.keepAlive);
  }

  // ------------------------------------------------------------------ the request

  /** What an accepted request changes in a client. */
  lemma AskEffect(env: Env, c: Conn, r: Request)
    requires Runs.Inv(c) && SendRequest(env, c, r).1.Some?
    ensures SentProposal(env, r).Some?
    ensures var p := SentProposal(env, r).value;
            var d := SendRequest(env, c, r).0;
            var next := ProcessEvent(c.state, Client, RequestProposals(r, p.offers));
            && c.role == Client && c.input == [] && next.Some?
            && d.state == (if p.persistent then next.value else DisableKeepAlive(next.value))
            && d == c.(state := d.state, cycle := d.cycle)
            && d.cycle.kind == Some(KindOfMethod(r.verb)) && d.cycle.offers == p.offers
            && d.cycle.continueFirst == p.continues && d.cycle.writer == Some(p.framing)
  {
    SentRequestArrives(env, c, r);
  }

  lemma WholeText(text: bytes)
    ensures text <= text && text[|text|..] == [] && [] + ([] + text) == text
  {
  }

  /** A request just sent: its head is all there is on the wire. */
  lemma AskedUp(env: Env, limits: Limits, body: Bodies.Body, l: Log)
    requires l.asked.requested && !l.heard.requested && l.up == Writing(l.proposal.framing)
    requires RequestArrives(env, l.request, l.proposal) && !l.proposal.framing.CloseDelimited?
    requires ReadsRequest(env, limits, l.text, l.request)
    ensures UpOk(env, limits, body, l.text, l)
  {
    FreshLinks(limits.maxHead, l.proposal.framing);
    WholeText(l.text);
  }

  lemma StatesSame(x: ConnectionState, y: ConnectionState, l: Log, m: Log)
    requires StatesOk(x, y, l)
    requires m.asked == l.asked && m.heard == l.heard && m.answered == l.answered && m.told == l.told
    ensures StatesOk(x, y, m)
  {
  }

  /** The parts of the invariant a request only has to be consistent with. */
  lemma AskRest(env: Env, n: Net, m: Net, r: Request, p: Proposal)
    requires Agrees(env, n) && !n.log.asked.requested
    requires m.c == n.c.(state := m.c.state, cycle := m.c.cycle) && m.s == n.s && m.down == n.down
    requires m.log == n.log.(asked := ClientAfter(n.log.asked, RequestProposals(r, p.offers)), request := AsReceived(env, r),
                             text := m.log.text, proposal := p, up := Writing(p.framing))
    requires m.c.cycle.kind == Some(KindOfMethod(r.verb)) && m.c.cycle.offers == p.offers
    requires m.c.cycle.continueFirst == p.continues && m.c.cycle.writer == Some(p.framing)
    requires n.c.state.keepAlive ==> m.c.state.keepAlive == p.persistent
    ensures FlagsOk(env.validHost, m.c.state.keepAlive, m.s.state.keepAlive, m.log)
    ensures DownOk(env, m.c, m.c.input + m.down, m.log)
    ensures OffersOk(env, m.c, m.s, m.log) && WritersOk(m.c.cycle.writer, m.s.cycle.writer, m.log)
    ensures SectionOk(env, m.s.limits, false, m.log.up, m.log.upTrailers)
    ensures SectionOk(env, m.c.limits, true, m.log.down, m.log.downTrailers)
  {
  }

  lemma AskAgrees(env: Env, n: Net, m: Net, r: Request, p: Proposal, text: bytes)
    requires Agrees(env, n) && ReadsRequest(env, n.s.limits, text, AsReceived(env, r))
    requires RequestArrives(env, AsReceived(env, r), p) && !p.framing.CloseDelimited?
    requires var next := ProcessEvent(n.c.state, Client, RequestProposals(r, p.offers));
             next.Some? && m.c.state == if p.persistent then next.value else DisableKeepAlive(next.value)
    requires m == n.(c := n.c.(state := m.c.state, cycle := m.c.cycle), up := n.up + text,
                     log := n.log.(asked := ClientAfter(n.log.asked, RequestProposals(r, p.offers)),
                                   request := AsReceived(env, r), text := text, proposal := p, up := Writing(p.framing)))
    requires m.c.cycle.kind == Some(KindOfMethod(r.verb)) && m.c.cycle.offers == p.offers
    requires m.c.cycle.continueFirst == p.continues && m.c.cycle.writer == Some(p.framing)
    ensures Agrees(env, m)
  {
    AskStates(n.c.state, n.s.state, n.log, RequestProposals(r, p.offers).proposals, p.persistent);
    StatesSame(m.c.state, m.s.state, n.log.(asked := m.log.asked), m.log);
    AskedUp(env, n.s.limits, Sessions.BodyOf(n.s), m.log);
    WholeText(text);
    AskRest(env, n, m, r, p);
  }

  lemma AskKeeps(env: Env, n: Net, r: Request)
    requires NetInv(env, n)
    requires var text := SendRequest(env, n.c, r).1;
             text.Some? ==> ReadsRequest(env, n.s.limits, text.value, AsReceived(env, r))
    ensures NetInv(env, AskStep(env, n, r))
  {
    Runs.SendRequestInv(env, n.c, r);
    if SendRequest(env, n.c, r).1.Some? {
      AskEffect(env, n.c, r);
      SentRequestArrives(env, n.c, r);
      AskAgrees(env, n, AskStep(env, n, r), r, SentProposal(env, r).value, SendRequest(env, n.c, r).1.value);
    }
  }

  // ------------------------------------------------------------------ body bytes

  /** What accepted body data changes: the writer and a flag, not the joint state. */
  lemma DataEffect(c: Conn, data: bytes)
    requires Runs.Inv(c) && SendData(c, data).1.Some?
    ensures c.Local() == SendBody && c.cycle.writer.Some? && Runs.Inv(SendData(c, data).0)
    ensures var f := FrameLength(c.cycle.writer.value, |data|);
            var (d, text) := SendData(c, data);
            && f.Some? && text.value == FramedBytes(f.value, data)
            && d == c.(cycle := c.cycle.(writer := Some(f.value.writer), waiting := false))
  {
    Runs.SendDataInv(c, |data|);
  }

  lemma TextStays(text: bytes, wire: bytes, more: bytes)
    requires text <= wire
    ensures text <= wire + more && (wire + more)[|text|..] == wire[|text|..] + more
  {
  }

  lemma NoBytes(data: bytes)
    requires FrameLength(Framing.Fixed(0), |data|).Some?
    ensures FramedBytes(FrameLength(Framing.Fixed(0), |data|).value, data) == []
    ensures FrameLength(Framing.Fixed(0), |data|).value.writer == Framing.Fixed(0)
  {
  }

  /** More body on a lane whose head has not been read, or whose body is being read. */
  lemma UpData(env: Env, limits: Limits, body: Bodies.Body, wire: bytes, l: Log, data: bytes)
    requires UpOk(env, limits, body, wire, l) && l.asked.requested && l.up.Writing? && limits.maxHead >= 16
    requires |data| < USIZE && FrameLength(l.up.writer, |data|).Some?
    requires l.heard.ended ==> l.heard.requested
    ensures var f := FrameLength(l.up.writer, |data|).value;
            UpOk(env, limits, body, wire + FramedBytes(f, data), l.(up := Writing(f.writer)))
  {
    var f := FrameLength(l.up.writer, |data|).value;
    if !l.heard.requested {
      var first := Bodies.Body(ReaderFor(l.proposal.framing), 0);
      DataLinks(limits.maxHead, first, wire[|l.text|..], l.up.writer, data);
      TextStays(l.text, wire, FramedBytes(f, data));
    } else if !l.heard.ended {
      DataLinks(limits.maxHead, body, wire, l.up.writer, data);
    } else {
      NoBytes(data);
    }
  }

  lemma ClientWrites(x: ConnectionState, y: ConnectionState, l: Log)
    requires StatesOk(x, y, l) && x.client == SendBody
    ensures l.asked.requested && !l.asked.ended && (l.heard.ended ==> l.heard.requested)
  {
  }

  lemma BodylessByKind(c: Conn, d: Conn, l: Log)
    requires d.cycle.kind == c.cycle.kind
    ensures l.last.Some? ==> d.Bodyless(l.last.value) == c.Bodyless(l.last.value)
  {
  }

  /** The response direction does not depend on how far the request was sent. */
  lemma DownSame(env: Env, c: Conn, d: Conn, wire: bytes, l: Log, m: Log)
    requires DownOk(env, c, wire, l)
    requires d.limits == c.limits && d.lenient == c.lenient && d.cycle.kind == c.cycle.kind
    requires Sessions.BodyOf(d) == Sessions.BodyOf(c)
    requires m == l.(asked := m.asked, up := m.up, upTrailers := m.upTrailers)
    ensures DownOk(env, d, wire, m)
  {
    BodylessByKind(c, d, l);
  }

  /** How far bodies were sent is not part of what states, flags and offers say. */
  lemma BodyProgressSame(env: Env, n: Net, m: Net)
    requires StatesOk(n.c.state, n.s.state, n.log)
    requires FlagsOk(env.validHost, n.c.state.keepAlive, n.s.state.keepAlive, n.log)
    requires m.c.state == n.c.state && m.s.state == n.s.state
    requires m.log == n.log.(up := m.log.up, down := m.log.down)
    ensures StatesOk(m.c.state, m.s.state, m.log)
    ensures FlagsOk(env.validHost, m.c.state.keepAlive, m.s.state.keepAlive, m.log)
  {
  }

  predicate SameHeads(l: Log, m: Log) {
    && m.asked.requested == l.asked.requested && m.asked.offered == l.asked.offered && m.heard == l.heard
    && m.answered.answer == l.answered.answer && m.told == l.told && m.last == l.last && m.heads == l.heads
    && m.request == l.request && m.proposal == l.proposal
  }

  lemma AllowedSame(env: Env, c: Conn, d: Conn, l: Log, m: Log)
    requires l.last.Some? && LastAllowed(env, c, l) && Effects.SameOffers(c, d) && SameHeads(l, m)
    ensures LastAllowed(env, d, m)
  {
  }

  lemma OffersSame(env: Env, n: Net, m: Net)
    requires OffersOk(env, n.c, n.s, n.log)
    requires Effects.SameOffers(n.c, m.c) && Effects.SameOffers(n.s, m.s) && SameHeads(n.log, m.log)
    ensures OffersOk(env, m.c, m.s, m.log)
  {
    if n.log.last.Some? {
      AllowedSame(env, n.c, m.c, n.log, m.log);
    }
  }

  lemma ClientBodyAgrees(env: Env, n: Net, data: bytes, f: Framed, m: Net)
    requires Agrees(env, n) && n.c.state.client == SendBody && n.c.cycle.writer.Some? && n.s.limits.maxHead >= 16
    requires |data| < USIZE && FrameLength(n.c.cycle.writer.value, |data|) == Some(f)
    requires m == n.(c := n.c.(cycle := n.c.cycle.(writer := Some(f.writer), waiting := false)),
                     up := n.up + FramedBytes(f, data), log := n.log.(up := Writing(f.writer)))
    ensures Agrees(env, m)
  {
    ClientWrites(n.c.state, n.s.state, n.log);
    UpData(env, n.s.limits, Sessions.BodyOf(n.s), n.s.input + n.up, n.log, data);
    Regroup(n.s.input, n.up, FramedBytes(f, data));
    DownSame(env, n.c, m.c, n.c.input + n.down, n.log, m.log);
    BodyProgressSame(env, n, m);
    OffersSame(env, n, m);
  }

  lemma ClientBodyKeeps(env: Env, n: Net, data: bytes)
    requires NetInv(env, n) && |data| < USIZE
    ensures NetInv(env, ClientBodyStep(n, data))
  {
    Runs.SendDataInv(n.c, |data|);
    if SendData(n.c, data).1.Some? {
      DataEffect(n.c, data);
      ClientBodyAgrees(env, n, data, FrameLength(n.c.cycle.writer.value, |data|).value, ClientBodyStep(n, data));
    }
  }

  lemma FlagsSame(validHost: bytes -> bool, x: bool, y: bool, l: Log, m: Log)
    requires FlagsOk(validHost, x, y, l) && SameHeads(l, m) && m.framing == l.framing
    ensures FlagsOk(validHost, x, y, m)
  {
  }

  lemma ServerWrites(x: ConnectionState, y: ConnectionState, l: Log)
    requires StatesOk(x, y, l) && y.server == SendBody
    ensures l.answered.answer == Responded && !l.answered.ended && l.heard.requested
  {
  }

  lemma DownData(env: Env, c: Conn, wire: bytes, l: Log, data: bytes)
    requires DownOk(env, c, wire, l) && l.answered.answer == Responded && l.down.Writing? && c.limits.maxHead >= 16
    requires |data| < USIZE && FrameLength(l.down.writer, |data|).Some?
    requires (l.told.answer == NoAnswer || l.told.answer == Responded) && l.heard.requested
    ensures var f := FrameLength(l.down.writer, |data|).value;
            DownOk(env, c, wire + FramedBytes(f, data), l.(down := Writing(f.writer)))
  {
    var f := FrameLength(l.down.writer, |data|).value;
    if l.told.answer == NoAnswer {
      var texts := TextsOf(l.heads) + ResponseText(l.last.value);
      DataLinks(c.limits.maxHead, Bodies.Body(ReaderFor(l.framing), 0), wire[|texts|..], l.down.writer, data);
      TextStays(texts, wire, FramedBytes(f, data));
    } else if !l.told.ended {
      DataLinks(c.limits.maxHead, Sessions.BodyOf(c), wire, l.down.writer, data);
    } else {
      NoBytes(data);
    }
  }

  lemma ServerBodyAgrees(env: Env, n: Net, data: bytes, f: Framed, m: Net)
    requires Agrees(env, n) && n.s.state.server == SendBody && n.s.cycle.writer.Some? && n.c.limits.maxHead >= 16
    requires |data| < USIZE && FrameLength(n.s.cycle.writer.value, |data|) == Some(f)
    requires m == n.(s := n.s.(cycle := n.s.cycle.(writer := Some(f.writer), waiting := false)),
                     down := n.down + FramedBytes(f, data), log := n.log.(down := Writing(f.writer)))
    ensures Agrees(env, m)
  {
    ServerWrites(n.c.state, n.s.state, n.log);
    DownData(env, n.c, n.c.input + n.down, n.log, data);
    Regroup(n.c.input, n.down, FramedBytes(f, data));
    BodyProgressSame(env, n, m);
    OffersSame(env, n, m);
  }

  lemma ServerBodyKeeps(env: Env, n: Net, data: bytes)
    requires NetInv(env, n) && |data| < USIZE
    ensures NetInv(env, ServerBodyStep(n, data))
  {
    Runs.SendDataInv(n.s, |data|);
    if SendData(n.s, data).1.Some? {
      DataEffect(n.s, data);
      ServerBodyAgrees(env, n, data, FrameLength(n.s.cycle.writer.value, |data|).value, ServerBodyStep(n, data));
    }
  }

  // ------------------------------------------------------------------ body ends

  lemma EndEffect(c: Conn, trailers: Headers)
    requires Runs.Inv(c) && EndOfMessage(c, trailers).1.Some?
    ensures c.Local() == SendBody && c.cycle.writer.Some?
    ensures var w := c.cycle.writer.value;
            var (d, text) := EndOfMessage(c, trailers);
            var next := ProcessEvent(c.state, c.role, EndEvent);
            && EndPrefix(w).Some? && text.value == EndPrefix(w).value + TrailerPart(w, trailers)
            && next.Some?
            && d == c.(state := next.value, cycle := c.cycle.(writer := None, waiting := false))
  {
    Runs.EndInv(c, trailers);
    var w := c.cycle.writer.value;
    assert EndPrefix(w).value + [] == EndPrefix(w).value;
  }

  lemma TrailerShape(w: Framing, trailers: Headers)
    ensures w.Chunked? <==> TrailerPart(w, trailers) != []
  {
  }

  /** Ending a body behind heads that have yet to be read. */
  lemma EndBehind(max: nat, framing: Framing, texts: bytes, wire: bytes, w: Framing, section: bytes)
    requires texts <= wire && Linked(max, Bodies.Body(ReaderFor(framing), 0), wire[|texts|..], Writing(w))
    requires max >= 16 && EndPrefix(w).Some? && (w.Chunked? <==> section != [])
    ensures var after := wire + (EndPrefix(w).value + section);
            && texts <= after
            && Linked(max, Bodies.Body(ReaderFor(framing), 0), after[|texts|..], EndedAs(w, section))
  {
    EndLinks(max, Bodies.Body(ReaderFor(framing), 0), wire[|texts|..], w, section);
    TextStays(texts, wire, EndPrefix(w).value + section);
  }

  lemma UpEnd(env: Env, limits: Limits, body: Bodies.Body, wire: bytes, l: Log, trailers: Headers)
    requires UpOk(env, limits, body, wire, l) && l.asked.requested && l.up.Writing? && limits.maxHead >= 16
    requires EndPrefix(l.up.writer).Some? && (l.heard.ended ==> l.heard.requested)
    ensures var w := l.up.writer;
            UpOk(env, limits, body, wire + (EndPrefix(w).value + TrailerPart(w, trailers)),
                 l.(asked := ClientAfter(l.asked, EndEvent), up := EndedAs(w, TrailerPart(w, trailers)), upTrailers := trailers))
  {
    var w := l.up.writer;
    TrailerShape(w, trailers);
    if !l.heard.requested {
      EndBehind(limits.maxHead, l.proposal.framing, l.text, wire, w, TrailerPart(w, trailers));
    } else if !l.heard.ended {
      EndLinks(limits.maxHead, body, wire, w, TrailerPart(w, trailers));
    }
  }

  lemma TrailerRead(env: Env, limits: Limits, fold: bool, w: Framing, trailers: Headers)
    requires w.Chunked? ==> ReadsTrailers(env, limits, fold, TrailersText(trailers), trailers)
    ensures SectionOk(env, limits, fold, EndedAs(w, TrailerPart(w, trailers)), trailers)
  {
  }

  lemma ClientEndAgrees(env: Env, n: Net, trailers: Headers, w: Framing, m: Net)
    requires Agrees(env, n) && n.c.state.client == SendBody && n.c.cycle.writer == Some(w) && n.s.limits.maxHead >= 16
    requires EndPrefix(w).Some? && ProcessEvent(n.c.state, Client, EndEvent).Some?
    requires w.Chunked? ==> ReadsTrailers(env, n.s.limits, false, TrailersText(trailers), trailers)
    requires m == n.(c := n.c.(state := ProcessEvent(n.c.state, Client, EndEvent).value,
                               cycle := n.c.cycle.(writer := None, waiting := false)),
                     up := n.up + (EndPrefix(w).value + TrailerPart(w, trailers)),
                     log := n.log.(asked := ClientAfter(n.log.asked, EndEvent), up := EndedAs(w, TrailerPart(w, trailers)),
                                   upTrailers := trailers))
    ensures Agrees(env, m)
  {
    ClientEndStates(n.c.state, n.s.state, n.log);
    StatesSame(m.c.state, m.s.state, n.log.(asked := m.log.asked), m.log);
    ClientWrites(n.c.state, n.s.state, n.log);
    TrailerRead(env, n.s.limits, false, w, trailers);
    UpEnd(env, n.s.limits, Sessions.BodyOf(n.s), n.s.input + n.up, n.log, trailers);
    var more := EndPrefix(w).value + TrailerPart(w, trailers);
    Regroup(n.s.input, n.up, more);
    DownSame(env, n.c, m.c, n.c.input + n.down, n.log, m.log);
    FlagsSame(env.validHost, n.c.state.keepAlive, n.s.state.keepAlive, n.log, m.log);
    OffersSame(env, n, m);
  }

  lemma ClientEndKeeps(env: Env, n: Net, trailers: Headers)
    requires NetInv(env, n)
    requires n.c.cycle.writer == Some(Framing.Chunked) ==>
               ReadsTrailers(env, n.s.limits, false, TrailersText(trailers), trailers)
    ensures NetInv(env, ClientEndStep(n, trailers))
  {
    Runs.EndInv(n.c, trailers);
    if EndOfMessage(n.c, trailers).1.Some? {
      EndEffect(n.c, trailers);
      ClientEndAgrees(env, n, trailers, n.c.cycle.writer.value, ClientEndStep(n, trailers));
    }
  }

  /** Heads under way, with more of the body behind them. */
  lemma MoreBehind(env: Env, c: Conn, wire: bytes, after: bytes, l: Log, m: Log)
    requires HeadsOk(env, c, wire, l) && l.answered.answer == Responded && m.answered.answer == Responded
    requires m.heads == l.heads && m.last == l.last && m.framing == l.framing
    requires l.last.Some? ==>
               var texts := TextsOf(l.heads) + ResponseText(l.last.value);
               && texts <= after
               && Linked(c.limits.maxHead, Bodies.Body(ReaderFor(l.framing), 0), after[|texts|..], m.down)
    ensures HeadsOk(env, c, after, m)
  {
  }

  lemma HeadsEnd(env: Env, c: Conn, wire: bytes, l: Log, m: Log, trailers: Headers)
    requires HeadsOk(env, c, wire, l) && l.answered.answer == Responded && l.down.Writing? && c.limits.maxHead >= 16
    requires EndPrefix(l.down.writer).Some?
    requires m == l.(answered := m.answered, down := EndedAs(l.down.writer, TrailerPart(l.down.writer, trailers)),
                     downTrailers := m.downTrailers)
    requires m.answered.answer == Responded
    ensures var w := l.down.writer;
            HeadsOk(env, c, wire + (EndPrefix(w).value + TrailerPart(w, trailers)), m)
  {
    var w := l.down.writer;
    TrailerShape(w, trailers);
    EndBehind(c.limits.maxHead, l.framing, TextsOf(l.heads) + ResponseText(l.last.value), wire, w, TrailerPart(w, trailers));
    MoreBehind(env, c, wire, wire + (EndPrefix(w).value + TrailerPart(w, trailers)), l, m);
  }

  lemma BodyEnd(env: Env, c: Conn, wire: bytes, l: Log, m: Log, trailers: Headers)
    requires DownOk(env, c, wire, l) && l.told.answer == Responded && l.down.Writing? && c.limits.maxHead >= 16
    requires EndPrefix(l.down.writer).Some?
    requires m == l.(answered := m.answered, down := EndedAs(l.down.writer, TrailerPart(l.down.writer, trailers)),
                     downTrailers := m.downTrailers)
    ensures var w := l.down.writer;
            DownOk(env, c, wire + (EndPrefix(w).value + TrailerPart(w, trailers)), m)
  {
    var w := l.down.writer;
    TrailerShape(w, trailers);
    if !l.told.ended {
      EndLinks(c.limits.maxHead, Sessions.BodyOf(c), wire, w, TrailerPart(w, trailers));
    }
  }

  lemma EndKeepsAnswer(s: ServerProgress)
    ensures ServerAfter(s, EndEvent).answer == s.answer
  {
  }

  lemma DownEnd(env: Env, c: Conn, wire: bytes, l: Log, m: Log, trailers: Headers)
    requires DownOk(env, c, wire, l) && l.answered.answer == Responded && l.down.Writing? && c.limits.maxHead >= 16
    requires EndPrefix(l.down.writer).Some? && (l.told.answer == NoAnswer || l.told.answer == Responded)
    requires m == l.(answered := m.answered, down := EndedAs(l.down.writer, TrailerPart(l.down.writer, trailers)),
                     downTrailers := m.downTrailers)
    requires m.answered.answer == Responded
    ensures var w := l.down.writer;
            DownOk(env, c, wire + (EndPrefix(w).value + TrailerPart(w, trailers)), m)
  {
    if l.told.answer == NoAnswer {
      HeadsEnd(env, c, wire, l, m, trailers);
    } else {
      BodyEnd(env, c, wire, l, m, trailers);
    }
  }

  lemma ServerEndAgrees(env: Env, n: Net, trailers: Headers, w: Framing, m: Net)
    requires Agrees(env, n) && n.s.state.server == SendBody && n.s.cycle.writer == Some(w) && n.c.limits.maxHead >= 16
    requires EndPrefix(w).Some? && ProcessEvent(n.s.state, Server, EndEvent).Some?
    requires w.Chunked? ==> ReadsTrailers(env, n.c.limits, true, TrailersText(trailers), trailers)
    requires m == n.(s := n.s.(state := ProcessEvent(n.s.state, Server, EndEvent).value,
                               cycle := n.s.cycle.(writer := None, waiting := false)),
                     down := n.down + (EndPrefix(w).value + TrailerPart(w, trailers)),
                     log := n.log.(answered := ServerAfter(n.log.answered, EndEvent),
                                   down := EndedAs(w, TrailerPart(w, trailers)), downTrailers := trailers))
    ensures Agrees(env, m)
  {
    ServerEndStates(n.c.state, n.s.state, n.log);
    StatesSame(m.c.state, m.s.state, n.log.(answered := m.log.answered), m.log);
    ServerWrites(n.c.state, n.s.state, n.log);
    TrailerRead(env, n.c.limits, true, w, trailers);
    EndKeepsAnswer(n.log.answered);
    DownEnd(env, n.c, n.c.input + n.down, n.log, m.log, trailers);
    var more := EndPrefix(w).value + TrailerPart(w, trailers);
    Regroup(n.c.input, n.down, more);
    FlagsSame(env.validHost, n.c.state.keepAlive, n.s.state.keepAlive, n.log, m.log);
    OffersSame(env, n, m);
  }

  lemma ServerEndKeeps(env: Env, n: Net, trailers: Headers)
    requires NetInv(env, n)
    requires n.s.cycle.writer == Some(Framing.Chunked) ==>
               ReadsTrailers(env, n.c.limits, true, TrailersText(trailers), trailers)
    ensures NetInv(env, ServerEndStep(n, trailers))
  {
    Runs.EndInv(n.s, trailers);
    if EndOfMessage(n.s, trailers).1.Some? {
      EndEffect(n.s, trailers);
      ServerEndAgrees(env, n, trailers, n.s.cycle.writer.value, ServerEndStep(n, trailers));
    }
  }

  // ------------------------------------------------------------------- deliveries

  lemma Received(c: Conn, channel: bytes, count: nat)
    requires 1 <= count <= |channel| && !c.eof
    ensures ReceiveData(c, channel[..count]).0 == c.(input := c.input + channel[..count])
    ensures c.input + channel[..count] + channel[count..] == c.input + channel
  {
  }

  /** Moving bytes from a channel into a buffer changes nothing either side has said. */
  lemma DeliveredAgrees(env: Env, n: Net, m: Net)
    requires Agrees(env, n)
    requires m == n.(c := n.c.(input := m.c.input), s := n.s.(input := m.s.input), up := m.up, down := m.down)
    requires m.c.input + m.down == n.c.input + n.down && m.s.input + m.up == n.s.input + n.up
    ensures Agrees(env, m)
  {
    DownSame(env, n.c, m.c, n.c.input + n.down, n.log, n.log);
    OffersSame(env, n, m);
  }

  lemma DeliverUpKeeps(env: Env, n: Net, count: nat)
    requires NetInv(env, n) && 1 <= count <= |n.up|
    ensures NetInv(env, DeliverUpStep(n, count))
  {
    Runs.ReceiveInv(n.s, n.up[..count]);
    Received(n.s, n.up, count);
    DeliveredAgrees(env, n, DeliverUpStep(n, count));
  }

  lemma DeliverDownKeeps(env: Env, n: Net, count: nat)
    requires NetInv(env, n) && 1 <= count <= |n.down|
    ensures NetInv(env, DeliverDownStep(n, count))
  {
    Runs.ReceiveInv(n.c, n.down[..count]);
    Received(n.c, n.down, count);
    DeliveredAgrees(env, n, DeliverDownStep(n, count));
  }

  // ---------------------------------------------------------------- response heads

  /** What a sent informational head changes in a server. */
  lemma InformEffect(env: Env, s: Conn, r: Response)
    requires Runs.Inv(s) && SendInformational(env, s, r).1.Some?
    ensures var (d, text) := SendInformational(env, s, r);
            var event := if r.status == 101 then SwitchEvent(Upgrade) else InformationalEvent;
            var next := ProcessEvent(s.state, Server, event);
            && s.role == Server && r.Informational() && !HasFramingFields(r.headers)
            && text.value == ResponseText(r) && next.Some? && s.state.server == State.SendResponse
            && d == s.(state := next.value, cycle := d.cycle)
            && d.cycle.kind == s.cycle.kind && d.cycle.offers == s.cycle.offers && d.cycle.writer == s.cycle.writer
            && Sessions.BodyOf(d) == Sessions.BodyOf(s)
            && d.cycle.continueFirst == (s.cycle.continueFirst && r.status != 100)
            && (r.status == 101 ==> !s.cycle.continueFirst && s.ValidUpgrade(r))
  {
  }

  lemma NoFramingFields(validHost: bytes -> bool, h: Headers, version: Version)
    requires !HasFramingFields(h)
    ensures FieldsOf(validHost, h).Frame(version, true) == Some(Framing.CloseDelimited)
  {
    FrameIsBy(validHost, h, version, true);
    NothingWritten(version);
  }

  lemma {:induction false} TextsSnoc(heads: seq<Response>, r: Response)
    ensures TextsOf(heads + [r]) == TextsOf(heads) + ResponseText(r)
  {
    if heads == [] {
      assert [] + [r] == [r];
      assert TextsOf([r]) == ResponseText(r) + TextsOf([]);
      WholeText(ResponseText(r));
    } else {
      TextsSnoc(heads[1..], r);
      assert (heads + [r])[1..] == heads[1..] + [r];
      Regroup(ResponseText(heads[0]), TextsOf(heads[1..]), ResponseText(r));
    }
  }

  lemma AwaitsSnoc(continueFirst: bool, heads: seq<Response>, r: Response)
    ensures Awaits(continueFirst, heads + [r]) == (Awaits(continueFirst, heads) && r.status != 100)
  {
    var all := heads + [r];
    assert all[|heads|] == r && forall i :: 0 <= i < |heads| ==> all[i] == heads[i];
  }

  lemma MoreRead(env: Env, limits: Limits, lenient: bool, heads: seq<Response>, r: Response)
    requires HeadsRead(env, limits, lenient, heads) && r.Informational() && r.status != 101
    requires FieldsOf(env.validHost, r.headers).Frame(r.version, true).Some?
    requires ReadsResponse(env, limits, lenient, ResponseText(r), r)
    ensures HeadsRead(env, limits, lenient, heads + [r])
  {
    var all := heads + [r];
    forall i | 0 <= i < |all|
      ensures && all[i].Informational() && all[i].status != 101
              && FieldsOf(env.validHost, all[i].headers).Frame(all[i].version, true).Some?
              && ReadsResponse(env, limits, lenient, ResponseText(all[i]), all[i])
    {
      assert all[i] == if i < |heads| then heads[i] else r;
    }
  }

  /** A further informational head behind those under way. */
  lemma MoreHeads(env: Env, c: Conn, wire: bytes, l: Log, r: Response)
    requires DownOk(env, c, wire, l) && l.told.answer == NoAnswer && l.answered.answer == NoAnswer && l.heard.requested
    requires r.Informational() && r.status != 101 && !HasFramingFields(r.headers)
    requires ReadsResponse(env, c.limits, c.lenient, ResponseText(r), r)
    ensures DownOk(env, c, wire + ResponseText(r), l.(heads := l.heads + [r]))
  {
    NoFramingFields(env.validHost, r.headers, r.version);
    TextsSnoc(l.heads, r);
    MoreRead(env, c.limits, c.lenient, l.heads, r);
  }

  lemma LastIsNone(env: Env, c: Conn, wire: bytes, l: Log)
    requires DownOk(env, c, wire, l) && l.told.answer == NoAnswer && l.answered.answer == NoAnswer
    ensures l.last.None?
  {
  }

  lemma InformAgrees(env: Env, n: Net, m: Net, r: Response)
    requires Agrees(env, n) && n.s.state.server == State.SendResponse
    requires r.Informational() && r.status != 101 && !HasFramingFields(r.headers)
    requires ReadsResponse(env, n.c.limits, n.c.lenient, ResponseText(r), r)
    requires ProcessEvent(n.s.state, Server, InformationalEvent) == Some(m.s.state)
    requires m == n.(s := n.s.(state := m.s.state, cycle := m.s.cycle), down := n.down + ResponseText(r),
                     log := n.log.(heads := n.log.heads + [r]))
    requires m.s.cycle.kind == n.s.cycle.kind && m.s.cycle.offers == n.s.cycle.offers
    requires m.s.cycle.writer == n.s.cycle.writer && Sessions.BodyOf(m.s) == Sessions.BodyOf(n.s)
    requires m.s.cycle.continueFirst == (n.s.cycle.continueFirst && r.status != 100)
    ensures Agrees(env, m)
  {
    OwesAnswer(n.c.state, n.s.state, n.log);
    HeadStates(n.c.state, n.s.state, n.log, InformationalEvent, false);
    StatesSame(m.c.state, m.s.state, n.log, m.log);
    MoreHeads(env, n.c, n.c.input + n.down, n.log, r);
    Regroup(n.c.input, n.down, ResponseText(r));
    AwaitsSnoc(n.c.cycle.continueFirst, n.log.heads, r);
    LastIsNone(env, n.c, n.c.input + n.down, n.log);
  }

  /** The request direction does not depend on what was answered. */
  lemma UpSame(env: Env, limits: Limits, body: Bodies.Body, wire: bytes, l: Log, m: Log)
    requires UpOk(env, limits, body, wire, l)
    requires m.asked == l.asked && m.heard == l.heard && m.request == l.request && m.text == l.text
    requires m.proposal == l.proposal && m.up == l.up
    ensures UpOk(env, limits, body, wire, m)
  {
  }

  lemma SwitchFlags(validHost: bytes -> bool, x: bool, y: bool, z: bool, l: Log, m: Log)
    requires FlagsOk(validHost, x, y, l) && l.heard.requested && l.asked.requested
    requires l.told.answer == NoAnswer && l.answered.answer == NoAnswer
    requires m.asked == l.asked && m.heard == l.heard && m.told == l.told && m.answered.answer.Switched?
    requires m.answered.answer == Switched(Connect) || z == y
    ensures FlagsOk(validHost, x, z, m)
  {
  }

  lemma SwitchedStates(validHost: bytes -> bool, x: ConnectionState, y: ConnectionState, l: Log, m: Log,
                       kind: SwitchKind, off: bool)
    requires StatesOk(x, y, l) && FlagsOk(validHost, x.keepAlive, y.keepAlive, l) && y.server == State.SendResponse
    requires ProcessEvent(y, Server, SwitchEvent(kind)).Some? && (off ==> kind == Connect)
    requires m.asked == l.asked && m.heard == l.heard && m.told == l.told
    requires m.answered == ServerAfter(l.answered, SwitchEvent(kind))
    ensures var u := ProcessEvent(y, Server, SwitchEvent(kind)).value;
            var t := if off then DisableKeepAlive(u) else u;
            StatesOk(x, t, m) && FlagsOk(validHost, x.keepAlive, t.keepAlive, m)
  {
    OwesAnswer(x, y, l);
    HeadStates(x, y, l, SwitchEvent(kind), off);
    var u := ProcessEvent(y, Server, SwitchEvent(kind)).value;
    var t := if off then DisableKeepAlive(u) else u;
    StatesSame(x, t, l.(answered := m.answered), m);
    SwitchFlags(validHost, x.keepAlive, y.keepAlive, t.keepAlive, l, m);
  }

  function SwitchLog(l: Log, kind: SwitchKind, f: Response, framing: Framing, down: Sent): Log {
    l.(answered := ServerAfter(l.answered, SwitchEvent(kind)), last := Some(f), framing := framing, down := down)
  }

  /** A switching head is the last thing HTTP puts on the wire. */
  lemma LastSwitch(env: Env, c: Conn, wire: bytes, l: Log, r: Response, kind: SwitchKind, framing: Framing, down: Sent)
    requires DownOk(env, c, wire, l) && l.told.answer == NoAnswer && l.answered.answer == NoAnswer && l.heard.requested
    requires ReadsResponse(env, c.limits, c.lenient, ResponseText(r), r)
    ensures DownOk(env, c, wire + ResponseText(r), SwitchLog(l, kind, r, framing, down))
  {
  }

  lemma SwitchedLanes(env: Env, n: Net, m: Net, f: Response, kind: SwitchKind, framing: Framing, down: Sent)
    requires WritersOk(n.c.cycle.writer, n.s.cycle.writer, n.log) && m.c.cycle.writer == n.c.cycle.writer
    requires n.log.answered.answer == NoAnswer && m.log == SwitchLog(n.log, kind, f, framing, down)
    requires down.Writing? || down == n.log.down
    requires SectionOk(env, n.s.limits, false, n.log.up, n.log.upTrailers)
    requires SectionOk(env, n.c.limits, true, n.log.down, n.log.downTrailers)
    ensures WritersOk(m.c.cycle.writer, m.s.cycle.writer, m.log)
    ensures SectionOk(env, n.s.limits, false, m.log.up, m.log.upTrailers)
    ensures SectionOk(env, n.c.limits, true, m.log.down, m.log.downTrailers)
  {
  }

  lemma SwitchedSay(env: Env, n: Net, m: Net, f: Response, kind: SwitchKind, off: bool)
    requires StatesOk(n.c.state, n.s.state, n.log) && n.s.state.server == State.SendResponse && (off ==> kind == Connect)
    requires FlagsOk(env.validHost, n.c.state.keepAlive, n.s.state.keepAlive, n.log)
    requires var next := ProcessEvent(n.s.state, Server, SwitchEvent(kind));
             next.Some? && m.s.state == if off then DisableKeepAlive(next.value) else next.value
    requires m.c == n.c && m.log == SwitchLog(n.log, kind, f, m.log.framing, m.log.down)
    ensures StatesOk(m.c.state, m.s.state, m.log)
    ensures FlagsOk(env.validHost, m.c.state.keepAlive, m.s.state.keepAlive, m.log)
  {
    SwitchedStates(env.validHost, n.c.state, n.s.state, n.log, m.log, kind, off);
  }

  lemma SwitchedCarry(env: Env, n: Net, m: Net, f: Response, kind: SwitchKind)
    requires UpOk(env, n.s.limits, Sessions.BodyOf(n.s), n.s.input + n.up, n.log)
    requires DownOk(env, n.c, n.c.input + n.down, n.log)
    requires n.log.told.answer == NoAnswer && n.log.answered.answer == NoAnswer && n.log.heard.requested
    requires ReadsResponse(env, n.c.limits, n.c.lenient, ResponseText(f), f)
    requires m.c == n.c && m.s == n.s.(state := m.s.state, cycle := m.s.cycle) && m.up == n.up
    requires m.down == n.down + ResponseText(f) && m.log == SwitchLog(n.log, kind, f, m.log.framing, m.log.down)
    requires Sessions.BodyOf(m.s) == Sessions.BodyOf(n.s)
    ensures UpOk(env, m.s.limits, Sessions.BodyOf(m.s), m.s.input + m.up, m.log)
    ensures DownOk(env, m.c, m.c.input + m.down, m.log)
  {
    LastSwitch(env, n.c, n.c.input + n.down, n.log, f, kind, m.log.framing, m.log.down);
    Regroup(n.c.input, n.down, ResponseText(f));
    UpSame(env, n.s.limits, Sessions.BodyOf(n.s), n.s.input + n.up, n.log, m.log);
  }

  /** A head that switches protocols, of either kind. */
  lemma SwitchedAgrees(env: Env, n: Net, m: Net, f: Response, kind: SwitchKind, off: bool, framing: Framing, down: Sent)
    requires LanesAgree(env, n) && n.s.state.server == State.SendResponse && (off ==> kind == Connect)
    requires ReadsResponse(env, n.c.limits, n.c.lenient, ResponseText(f), f)
    requires var next := ProcessEvent(n.s.state, Server, SwitchEvent(kind));
             next.Some? && m.s.state == if off then DisableKeepAlive(next.value) else next.value
    requires m.c == n.c && m.s == n.s.(state := m.s.state, cycle := m.s.cycle) && m.up == n.up
    requires m.down == n.down + ResponseText(f) && m.log == SwitchLog(n.log, kind, f, framing, down)
    requires m.s.cycle.kind == n.s.cycle.kind && Sessions.BodyOf(m.s) == Sessions.BodyOf(n.s)
    requires down.Writing? || down == n.log.down
    ensures LanesAgree(env, m)
  {
    OwesAnswer(n.c.state, n.s.state, n.log);
    SwitchedSay(env, n, m, f, kind, off);
    SwitchedCarry(env, n, m, f, kind);
    SwitchedLanes(env, n, m, f, kind, framing, down);
  }

  lemma UpgradeAllowed(c: Conn, d: Conn, r: Response)
    requires d.cycle.offers == c.cycle.offers
    ensures d.ValidUpgrade(r) == c.ValidUpgrade(r)
  {
  }

  /** The offers part of the invariant, once the server actor has switched. */
  lemma SwitchOffers(env: Env, n: Net, m: Net)
    requires OffersOk(env, n.c, n.s, n.log) && n.log.heard.requested && m.c == n.c
    requires m.s.cycle.kind == n.s.cycle.kind
    requires m.log == n.log.(answered := m.log.answered, last := m.log.last, framing := m.log.framing, down := m.log.down)
    requires m.log.answered.answer.Switched? && m.log.last.Some? && LastAllowed(env, m.c, m.log)
    ensures OffersOk(env, m.c, m.s, m.log)
  {
  }

  lemma UpgradeOffers(env: Env, n: Net, m: Net, r: Response)
    requires OffersOk(env, n.c, n.s, n.log) && n.log.heard.requested && n.log.answered == SERVER_START
    requires r.status == 101 && !HasFramingFields(r.headers) && !n.s.cycle.continueFirst && n.s.ValidUpgrade(r)
    requires m.c == n.c && m.s.cycle.kind == n.s.cycle.kind
    requires m.log == SwitchLog(n.log, Upgrade, r, n.log.framing, n.log.down)
    ensures OffersOk(env, m.c, m.s, m.log)
  {
    NoFramingFields(env.validHost, r.headers, r.version);
    UpgradeAllowed(n.s, n.c, r);
    SwitchOffers(env, n, m);
  }

  lemma SwitchAgrees(env: Env, n: Net, m: Net, r: Response)
    requires Agrees(env, n) && n.s.state.server == State.SendResponse
    requires r.Informational() && r.status == 101 && !HasFramingFields(r.headers)
    requires ReadsResponse(env, n.c.limits, n.c.lenient, ResponseText(r), r)
    requires ProcessEvent(n.s.state, Server, SwitchEvent(Upgrade)) == Some(m.s.state)
    requires m == n.(s := n.s.(state := m.s.state, cycle := m.s.cycle), down := n.down + ResponseText(r),
                     log := SwitchLog(n.log, Upgrade, r, n.log.framing, n.log.down))
    requires m.s.cycle.kind == n.s.cycle.kind && Sessions.BodyOf(m.s) == Sessions.BodyOf(n.s)
    requires !n.s.cycle.continueFirst && n.s.ValidUpgrade(r)
    ensures Agrees(env, m)
  {
    OwesAnswer(n.c.state, n.s.state, n.log);
    UpgradeOffers(env, n, m, r);
    SwitchedAgrees(env, n, m, r, Upgrade, false, n.log.framing, n.log.down);
  }

  lemma KindDecides(c: Conn, d: Conn, f: Response)
    requires d.cycle.kind == c.cycle.kind
    ensures d.Bodyless(f) == c.Bodyless(f) && d.OpensTunnel(f) == c.OpensTunnel(f)
    ensures d.FinalEvent(f) == c.FinalEvent(f)
  {
  }

  lemma TunnelOffers(env: Env, n: Net, m: Net, f: Response, framing: Framing)
    requires OffersOk(env, n.c, n.s, n.log) && n.log.heard.requested && n.log.answered == SERVER_START
    requires !f.Informational() && n.s.OpensTunnel(f)
    requires FinalArrives(env.validHost, f, n.s.Bodyless(f), framing)
    requires m.c == n.c && m.s.cycle.kind == n.s.cycle.kind
    requires m.log == SwitchLog(n.log, Connect, f, framing, Writing(framing))
    ensures OffersOk(env, m.c, m.s, m.log)
  {
    KindDecides(n.s, n.c, f);
    SwitchOffers(env, n, m);
  }

  lemma InformKeeps(env: Env, n: Net, r: Response)
    requires NetInv(env, n)
    requires SendInformational(env, n.s, r).1.Some? ==> ReadsResponse(env, n.c.limits, n.c.lenient, ResponseText(r), r)
    ensures NetInv(env, InformStep(env, n, r))
  {
    Runs.SendInformationalInv(env, n.s, r);
    if SendInformational(env, n.s, r).1.Some? {
      InformEffect(env, n.s, r);
      if r.status == 101 {
        SwitchAgrees(env, n, InformStep(env, n, r), r);
      } else {
        InformAgrees(env, n, InformStep(env, n, r), r);
      }
    }
  }

  /** What a sent final head changes in a server. */
  lemma AnswerEffect(c: Conn, r: Response, s: Scanned)
    requires Runs.Inv(c) && SendHead(c, r, s).1.Some?
    ensures PlanResponse(c, r, s).Some?
    ensures var (d, head) := SendHead(c, r, s);
            var framing := PlanResponse(c, r, s).value.framing;
            var next := ProcessEvent(c.state, Server, c.FinalEvent(r));
            && c.role == Server && !r.Informational() && next.Some?
            && (d.state == next.value || d.state == DisableKeepAlive(next.value))
            && (framing.CloseDelimited? ==> d.state == DisableKeepAlive(next.value))
            && d == c.(state := d.state, cycle := d.cycle)
            && d.cycle.kind == c.cycle.kind && Sessions.BodyOf(d) == Sessions.BodyOf(c)
            && d.cycle.writer == (if c.OpensTunnel(r) then None else Some(framing))
  {
  }

  /** A final head and the start of its body, behind the heads under way. */
  lemma LastFinal(env: Env, c: Conn, wire: bytes, l: Log, f: Response, framing: Framing)
    requires DownOk(env, c, wire, l) && l.told.answer == NoAnswer && l.answered.answer == NoAnswer && l.heard.requested
    requires ReadsResponse(env, c.limits, c.lenient, ResponseText(f), f)
    requires FinalArrives(env.validHost, f, c.Bodyless(f), framing)
    ensures DownOk(env, c, wire + ResponseText(f),
                   l.(answered := ServerAfter(l.answered, ResponseEvent), last := Some(f), framing := framing,
                      down := Writing(framing)))
  {
    FreshLinks(c.limits.maxHead, framing);
    WholeText(TextsOf(l.heads) + ResponseText(f));
  }

  lemma AnswerAgrees(env: Env, n: Net, m: Net, f: Response, framing: Framing, off: bool)
    requires Agrees(env, n) && n.s.state.server == State.SendResponse && !f.Informational() && !n.s.OpensTunnel(f)
    requires ReadsResponse(env, n.c.limits, n.c.lenient, ResponseText(f), f)
    requires FinalArrives(env.validHost, f, n.s.Bodyless(f), framing) && (framing.CloseDelimited? ==> off)
    requires FieldsOf(env.validHost, f.headers).Persistent(f.version) == m.s.state.keepAlive
    requires var next := ProcessEvent(n.s.state, Server, ResponseEvent);
             next.Some? && m.s.state == if off then DisableKeepAlive(next.value) else next.value
    requires m == n.(s := n.s.(state := m.s.state, cycle := m.s.cycle), down := n.down + ResponseText(f),
                     log := n.log.(answered := ServerAfter(n.log.answered, ResponseEvent), last := Some(f),
                                   framing := framing, down := Writing(framing)))
    requires m.s.cycle.kind == n.s.cycle.kind && Sessions.BodyOf(m.s) == Sessions.BodyOf(n.s)
    requires m.s.cycle.writer == Some(framing)
    ensures Agrees(env, m)
  {
    OwesAnswer(n.c.state, n.s.state, n.log);
    HeadStates(n.c.state, n.s.state, n.log, ResponseEvent, off);
    StatesSame(m.c.state, m.s.state, n.log.(answered := m.log.answered), m.log);
    KindDecides(n.s, n.c, f);
    LastFinal(env, n.c, n.c.input + n.down, n.log, f, framing);
    Regroup(n.c.input, n.down, ResponseText(f));
  }

  lemma TunnelAgrees(env: Env, n: Net, m: Net, f: Response, framing: Framing, off: bool)
    requires Agrees(env, n) && n.s.state.server == State.SendResponse && !f.Informational() && n.s.OpensTunnel(f)
    requires ReadsResponse(env, n.c.limits, n.c.lenient, ResponseText(f), f)
    requires FinalArrives(env.validHost, f, n.s.Bodyless(f), framing)
    requires var next := ProcessEvent(n.s.state, Server, SwitchEvent(Connect));
             next.Some? && m.s.state == if off then DisableKeepAlive(next.value) else next.value
    requires m == n.(s := n.s.(state := m.s.state, cycle := m.s.cycle), down := n.down + ResponseText(f),
                     log := SwitchLog(n.log, Connect, f, framing, Writing(framing)))
    requires m.s.cycle.kind == n.s.cycle.kind && Sessions.BodyOf(m.s) == Sessions.BodyOf(n.s)
    ensures Agrees(env, m)
  {
    OwesAnswer(n.c.state, n.s.state, n.log);
    TunnelOffers(env, n, m, f, framing);
    SwitchedAgrees(env, n, m, f, Connect, off, framing, Writing(framing));
  }

  /** What `AnswerStep` is when the head is accepted. */
  lemma AnswerSteps(env: Env, n: Net, r: Response)
    requires Runs.Inv(n.s) && SendHead(n.s, r, FieldsOf(env.validHost, r.headers)).1.Some?
    ensures var s := FieldsOf(env.validHost, r.headers);
            var (d, head) := SendHead(n.s, r, s);
            var plan := PlanResponse(n.s, r, s);
            && plan.Some?
            && AnswerStep(env, n, r) ==
               n.(s := d, down := n.down + ResponseText(head.value),
                  log := n.log.(answered := ServerAfter(n.log.answered, n.s.FinalEvent(r)), last := head,
                                framing := plan.value.framing, down := Writing(plan.value.framing)))
  {
    AnswerEffect(n.s, r, FieldsOf(env.validHost, r.headers));
  }

  lemma SameStatus(c: Conn, r: Response, f: Response)
    requires f == r.(headers := f.headers)
    ensures c.Bodyless(f) == c.Bodyless(r) && c.OpensTunnel(f) == c.OpensTunnel(r)
    ensures f.Informational() == r.Informational() && c.FinalEvent(f) == c.FinalEvent(r)
  {
  }

  lemma AnswerMeets(env: Env, n: Net, r: Response, m: Net)
    requires Agrees(env, n) && Runs.Inv(n.s) && n.s.state.server == State.SendResponse && m == AnswerStep(env, n, r)
    requires var head := SendHead(n.s, r, FieldsOf(env.validHost, r.headers)).1;
             head.Some? && ReadsResponse(env, n.c.limits, n.c.lenient, ResponseText(head.value), head.value)
    ensures Agrees(env, m)
  {
    var s := FieldsOf(env.validHost, r.headers);
    var (d, head) := SendHead(n.s, r, s);
    AnswerSteps(env, n, r);
    AnswerEffect(n.s, r, s);
    SentFinalArrives(env, n.s, r);
    var framing := PlanResponse(n.s, r, s).value.framing;
    var off := d.state != ProcessEvent(n.s.state, Server, n.s.FinalEvent(r)).value || framing.CloseDelimited?;
    SameStatus(n.s, r, head.value);
    if n.s.OpensTunnel(r) {
      TunnelAgrees(env, n, m, head.value, framing, off);
    } else {
      AnswerAgrees(env, n, m, head.value, framing, off);
    }
  }

  lemma AnswerSides(env: Env, n: Net, r: Response)
    requires Sides(n) && SendHead(n.s, r, FieldsOf(env.validHost, r.headers)).1.Some?
    ensures Sides(AnswerStep(env, n, r))
  {
    Runs.SendFinalInv(env, n.s, r);
    AnswerSteps(env, n, r);
    AnswerEffect(n.s, r, FieldsOf(env.validHost, r.headers));
  }

  lemma AnswerKeeps(env: Env, n: Net, r: Response)
    requires NetInv(env, n) && n.s.state.server == State.SendResponse
    requires var head := SendHead(n.s, r, FieldsOf(env.validHost, r.headers)).1;
             head.Some? ==> ReadsResponse(env, n.c.limits, n.c.lenient, ResponseText(head.value), head.value)
    ensures NetInv(env, AnswerStep(env, n, r))
  {
    if SendHead(n.s, r, FieldsOf(env.validHost, r.headers)).1.Some? {
      AnswerSides(env, n, r);
      AnswerMeets(env, n, r, AnswerStep(env, n, r));
    } else {
      Runs.SendFinalInv(env, n.s, r);
    }
  }
}
