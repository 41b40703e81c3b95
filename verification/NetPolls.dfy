/** Polls of two joined endpoints never fail and keep them in agreement. */
module NetPolls {
  import opened States
  import opened Bytes
  import opened Bodies
  import opened Payload
  import opened Fields
  import opened Messages
  import opened Conn
  import opened Heads
  import opened Lanes
  import opened Net
  import opened NetSends
  import Effects
  import Runs
  import Sessions

  // ------------------------------------------------------------ sections to parse

  /** What a receiver sees of a section whose text is on its way to it. */
  lemma SectionReads(c: Conn, channel: bytes, text: bytes)
    requires text <= c.input + channel && |text| <= c.limits.maxHead
    ensures if |text| <= |c.input| then Section(c) == text + Section(c)[|text|..] && c.input[..|text|] == text
            else Section(c) == text[..|c.input|]
  {
    if |text| <= |c.input| {
      assert c.input[..|text|] == (c.input + channel)[..|text|] == text;
      assert Section(c)[..|text|] == c.input[..|text|];
    } else {
      assert c.input == (c.input + channel)[..|c.input|] == text[..|c.input|];
    }
  }

  /** A poll that finds no complete section: only the scan position moves. */
  predicate OnlyScans(c: Conn, r: (Conn, Polled)) {
    r.1 == NeedData && r.0 == c.(cycle := c.cycle.(progress := r.0.cycle.progress))
  }

  lemma Waits(c: Conn, skip: bool)
    requires c.cycle.progress.Within(c.input) && !c.eof
    ensures var (d, due) := SectionDue(c, skip);
            && d == c.(cycle := c.cycle.(progress := d.cycle.progress))
            && (!due || |c.input| <= c.limits.maxHead ==> OnlyScans(c, WaitForSection(d, skip)))
  {
  }

  lemma RequestParses(env: Env, d: Conn, text: bytes, q: Request)
    requires ReadsRequest(env, d.limits, text, q)
    requires if |text| <= |d.input| then Section(d) == text + Section(d)[|text|..] else Section(d) == text[..|d.input|]
    ensures env.parseRequest(Section(d), d.limits.maxCount) ==
            if |text| <= |d.input| then Complete(|text|, q) else Partial
  {
  }

  /** A server polled with a request head on its way waits for it or accepts it. */
  lemma RequestHeadPolls(env: Env, s: Conn, channel: bytes, text: bytes, q: Request)
    requires s.role == Server && !s.eof && s.cycle.progress.Within(s.input)
    requires ReadsRequest(env, s.limits, text, q) && text <= s.input + channel
    ensures || OnlyScans(s, ReadHead(env, s))
            || (|text| <= |s.input|
                && ReadHead(env, s) == AcceptRequest(PastSection(s, |text|), q, FieldsOf(env.validHost, q.headers),
                                                     env.validTarget(q.verb, q.target)))
  {
    var (d, due) := SectionDue(s, true);
    Waits(s, true);
    SectionReads(d, channel, text);
    if due {
      RequestParses(env, d, text, q);
    }
  }

  lemma ResponseParses(env: Env, d: Conn, text: bytes, f: Response)
    requires ReadsResponse(env, d.limits, d.lenient, text, f)
    requires if |text| <= |d.input| then Section(d) == text + Section(d)[|text|..] else Section(d) == text[..|d.input|]
    ensures env.parseResponse(Section(d), d.limits.maxCount, d.lenient) ==
            if |text| <= |d.input| then Complete(|text|, Messages.Head(f, false)) else Partial
  {
  }

  lemma TrailersParse(env: Env, d: Conn, fold: bool, text: bytes, trailers: Headers)
    requires ReadsTrailers(env, d.limits, fold, text, trailers)
    requires if |text| <= |d.input| then Section(d) == text + Section(d)[|text|..] else Section(d) == text[..|d.input|]
    ensures env.parseTrailers(Section(d), d.limits.maxCount, fold) ==
            if |text| <= |d.input| then Complete(|text|, trailers) else Partial
  {
  }

  lemma ResponseHeadPolls(env: Env, c: Conn, channel: bytes, text: bytes, f: Response)
    requires c.role == Client && !c.eof && c.cycle.progress.Within(c.input)
    requires ReadsResponse(env, c.limits, c.lenient, text, f) && text <= c.input + channel
    ensures || OnlyScans(c, ReadHead(env, c))
            || (|text| <= |c.input|
                && ReadHead(env, c) == AcceptResponse(PastSection(c, |text|), f, FieldsOf(env.validHost, f.headers)))
  {
    var (d, due) := SectionDue(c, true);
    Waits(c, true);
    SectionReads(d, channel, text);
    if due {
      ResponseParses(env, d, text, f);
    }
  }

  lemma TrailersPoll(env: Env, c: Conn, channel: bytes, text: bytes, trailers: Headers)
    requires !c.eof && c.cycle.progress.Within(c.input)
    requires ReadsTrailers(env, c.limits, c.role == Client, text, trailers) && text == c.input + channel
    ensures || OnlyScans(c, ReadTrailers(env, c))
            || (channel == [] && ReadTrailers(env, c) == FinishPeer(PastSection(c, |c.input|), trailers))
  {
    var (d, due) := SectionDue(c, false);
    Waits(c, false);
    SectionReads(d, channel, text);
    if due {
      TrailersParse(env, d, c.role == Client, text, trailers);
    }
  }

  /** With nothing received, a poll for a head only waits. */
  lemma NothingToRead(env: Env, c: Conn)
    requires Patient(env) && !c.eof && c.input == [] && c.cycle.progress.Within(c.input)
    ensures OnlyScans(c, ReadHead(env, c))
  {
    Waits(c, true);
    assert Section(SectionDue(c, true).0) == [];
  }

  // ------------------------------------------------------------------- body polls

  /** What no poll within a body touches. */
  predicate SameBesides(c: Conn, d: Conn) {
    d == c.(state := d.state, input := d.input,
            cycle := c.cycle.(reader := d.cycle.reader, ext := d.cycle.ext, progress := d.cycle.progress,
                              waiting := d.cycle.waiting))
  }

  /** A poll within a linked body yields content, waits, or ends with the sender. */
  ghost predicate BodyPolled(c: Conn, channel: bytes, sent: Sent, r: (Conn, Next)) {
    var (d, next) := r;
    && SameBesides(c, d)
    && (|| ((next.Content? || next == Other(NeedData))
            && d.state == c.state && Linked(c.limits.maxHead, Sessions.BodyOf(d), d.input + channel, sent))
        || (next.Other? && next.polled.EndPolled?
            && ProcessEvent(c.state, c.role.Peer(), EndEvent) == Some(d.state) && Spent(d.input + channel, sent)))
  }

  /** How `NextEvent` hands out what a poll yields when it does not fail. */
  lemma HandsOut(env: Env, c: Conn)
    requires Sound(c)
    ensures var (d, polled) := NextEventInner(env, c);
            match polled
            case FaultPolled(_) => true
            case DataPolled(count, first, last) =>
              NextEvent(env, c) == (d.(input := d.input[count..]), Content(d.input[..count], first, last))
            case _ => NextEvent(env, c) == (d, Other(polled))
  {
  }

  lemma PieceBodyPolls(c: Conn, channel: bytes, sent: Sent, p: Pulled, d: Conn)
    requires p.got.Piece? && PullLinked(c.limits.maxHead, c.input, channel, p, sent) && c.Remote() == SendBody
    requires p.skip + p.got.count <= |c.input| && d == AfterPull(c, p)
    ensures var (e, polled) := PeerData(d, p.got.count, p.got.first, p.got.last);
            && polled == DataPolled(p.got.count, p.got.first, p.got.last) && e.input == d.input
            && BodyPolled(c, channel, sent,
                          (e.(input := e.input[p.got.count..]), Content(e.input[..p.got.count], p.got.first, p.got.last)))
  {
    assert c.input[p.skip..][p.got.count..] == c.input[p.skip + p.got.count..];
  }

  lemma EndBodyPolls(c: Conn, channel: bytes, sent: Sent, d: Conn, trailers: Headers)
    requires SameBesides(c, d) && d.state == c.state && Runs.StateInv(c.state) && c.Remote() == SendBody
    requires Spent(d.input + channel, sent)
    ensures var (e, polled) := FinishPeer(d, trailers);
            polled == EndPolled(trailers) && BodyPolled(c, channel, sent, (e, Other(polled)))
  {
  }

  lemma TrailerBodyPolls(env: Env, c: Conn, channel: bytes, sent: Sent, d: Conn, trailers: Headers)
    requires SameBesides(c, d) && d.state == c.state && Runs.StateInv(c.state) && c.Remote() == SendBody
    requires !d.eof && d.cycle.progress.Within(d.input) && d.cycle.reader == Reader.Chunked(Trailers)
    requires sent == Sent.Ended(AtTrailers, d.input + channel)
    requires Linked(c.limits.maxHead, Sessions.BodyOf(d), d.input + channel, sent)
    requires SectionOk(env, c.limits, c.role == Client, sent, trailers)
    ensures var (e, polled) := ReadTrailers(env, d);
            && !polled.DataPolled? && !polled.FaultPolled?
            && BodyPolled(c, channel, sent, (e, Other(polled)))
  {
    TrailersPoll(env, d, channel, d.input + channel, trailers);
    if !OnlyScans(d, ReadTrailers(env, d)) {
      EndBodyPolls(c, channel, sent, PastSection(d, |d.input|), trailers);
    }
  }

  lemma LinkedPull(c: Conn, channel: bytes, sent: Sent)
    requires Runs.Inv(c) && c.held == 0 && c.Remote() == SendBody
    requires Linked(c.limits.maxHead, Sessions.BodyOf(c), c.input + channel, sent)
    ensures PullLinked(c.limits.maxHead, c.input, channel, Pull(c), sent)
  {
    Runs.PullKeepsExt(c.limits.maxHead, Sessions.BodyOf(c), c.input);
    PullLinks(c.limits.maxHead, Sessions.BodyOf(c), c.input, channel, sent);
  }

  /** The pull of a body that stops at its trailers leaves the decoder there. */
  lemma AtTrailersReady(c: Conn)
    requires Runs.Inv(c) && c.held == 0 && c.Remote() == SendBody && Pull(c).got == Got.Ended(AtTrailers)
    ensures var d := AfterPull(c, Pull(c));
            d.cycle.reader == Reader.Chunked(Trailers) && d.cycle.progress.Within(d.input)
  {
    Runs.AfterPullInv(c);
  }

  lemma BodyPolls(env: Env, c: Conn, channel: bytes, sent: Sent, trailers: Headers)
    requires Runs.Inv(c) && c.held == 0 && !c.eof && c.Remote() == SendBody
    requires Linked(c.limits.maxHead, Sessions.BodyOf(c), c.input + channel, sent)
    requires SectionOk(env, c.limits, c.role == Client, sent, trailers)
    ensures BodyPolled(c, channel, sent, NextEvent(env, c))
  {
    var p := Pull(c);
    var d := AfterPull(c, p);
    LinkedPull(c, channel, sent);
    Sessions.PollPulls(env, c);
    HandsOut(env, c);
    match p.got
    case Piece(_, _, _) => PieceBodyPolls(c, channel, sent, p, d);
    case Ended(Starved) =>
    case Ended(Finished) => EndBodyPolls(c, channel, sent, d, []);
    case Ended(AtTrailers) =>
      AtTrailersReady(c);
      TrailerBodyPolls(env, c, channel, sent, d, trailers);
  }

  // -------------------------------------------------------------- the server polls

  /** What the peer's progress makes of its state, as this side sees it. */
  lemma ClientSeen(x: ConnectionState, y: ConnectionState, l: Log)
    requires StatesOk(x, y, l)
    ensures y.client == Idle <==> !l.heard.requested
    ensures y.client == SendBody <==> l.heard.requested && !l.heard.ended
    ensures l.heard.ended ==> (y.client == Done || y.client == MustClose || y.client == MightSwitchProtocol || y.client == SwitchedProtocol)
    ensures l.heard.ended ==> l.heard.requested
  {
  }

  lemma ServerSeen(x: ConnectionState, y: ConnectionState, l: Log)
    requires StatesOk(x, y, l)
    ensures x.server == Idle <==> !l.asked.requested
    ensures x.server == State.SendResponse <==> l.asked.requested && l.told.answer == NoAnswer
    ensures x.server == SendBody <==> l.told.answer == Responded && !l.told.ended
    ensures l.told.ended ==> (x.server == Done || x.server == MustClose) && l.told.answer == Responded
    ensures l.told.answer.Switched? ==> x.server == SwitchedProtocol
    ensures l.asked.requested ==> x.client != Idle
  {
  }

  /** Hearing the request. */
  lemma HearStates(x: ConnectionState, y: ConnectionState, l: Log, persistent: bool)
    requires StatesOk(x, y, l) && l.asked.requested && !l.heard.requested && y.keepAlive
    ensures ProcessEvent(y, Client, RequestEvent(l.asked.offered)).Some?
    ensures var u := ProcessEvent(y, Client, RequestEvent(l.asked.offered)).value;
            var t := if persistent then u else DisableKeepAlive(u);
            StatesOk(x, t, l.(heard := l.asked.(ended := false))) && t.keepAlive == persistent
  {
    var event := RequestEvent(l.asked.offered);
    assert ProcessEvent(y, Client, event).Some?;
    ClientStep(l.heard, l.answered, !y.keepAlive, event);
    var heard := ClientAfter(l.heard, event);
    assert heard == l.asked.(ended := false);
    DisableStep(heard, l.answered, !y.keepAlive);
    JointFlag(heard, l.answered, true);
    JointFlag(heard, l.answered, !y.keepAlive);
  }

  /** Hearing that the request has ended. */
  lemma HearEnd(x: ConnectionState, y: ConnectionState, l: Log)
    requires StatesOk(x, y, l) && y.client == SendBody
    requires ProcessEvent(y, Client, EndEvent).Some?
    ensures var t := ProcessEvent(y, Client, EndEvent).value;
            StatesOk(x, t, l.(heard := l.heard.(ended := true))) && t.keepAlive == y.keepAlive
  {
    ClientSeen(x, y, l);
    ClientStep(l.heard, l.answered, !y.keepAlive, EndEvent);
    JointFlag(ClientAfter(l.heard, EndEvent), l.answered, !y.keepAlive);
  }

  lemma ProposalTaken(p: Conn, q: Request, s: Scanned, proposal: Proposal)
    requires p.role == Server && ProposalOf(q, s, proposal.framing, proposal.offers) == proposal
    requires ProcessEvent(p.state, Client, RequestProposals(q, proposal.offers)).Some?
    ensures var (d, polled) := TakeRequest(p, q, s, proposal.framing, proposal.offers);
            var next := ProcessEvent(p.state, Client, RequestProposals(q, proposal.offers)).value;
            && polled == RequestPolled(q)
            && d == p.(state := if proposal.persistent then next else DisableKeepAlive(next),
                       peerVersion := Some(q.version), cycle := d.cycle)
            && d.cycle.kind == Some(KindOfMethod(q.verb)) && d.cycle.offers == proposal.offers
            && d.cycle.continueFirst == proposal.continues && d.cycle.writer == p.cycle.writer
            && Sessions.BodyOf(d) == Bodies.Body(ReaderFor(proposal.framing), p.cycle.ext)
  {
  }

  /** A request that arrives is accepted, and this is what the server makes of it. */
  lemma RequestAccepted(env: Env, p: Conn, q: Request, proposal: Proposal)
    requires p.role == Server && RequestArrives(env, q, proposal)
    requires ProcessEvent(p.state, Client, RequestProposals(q, proposal.offers)).Some?
    ensures var (d, polled) := AcceptRequest(p, q, FieldsOf(env.validHost, q.headers), env.validTarget(q.verb, q.target));
            var next := ProcessEvent(p.state, Client, RequestProposals(q, proposal.offers)).value;
            && polled == RequestPolled(q)
            && d == p.(state := if proposal.persistent then next else DisableKeepAlive(next),
                       peerVersion := Some(q.version), cycle := d.cycle)
            && d.cycle.kind == Some(KindOfMethod(q.verb)) && d.cycle.offers == proposal.offers
            && d.cycle.continueFirst == proposal.continues && d.cycle.writer == p.cycle.writer
            && Sessions.BodyOf(d) == Bodies.Body(ReaderFor(proposal.framing), p.cycle.ext)
  {
    ProposalTaken(p, q, FieldsOf(env.validHost, q.headers), proposal);
  }

  lemma PollsForHead(env: Env, c: Conn)
    requires Runs.Inv(c) && !c.eof && (c.Remote() == Idle || c.Remote() == State.SendResponse)
    ensures NextEventInner(env, c) == ReadHead(env, c)
    ensures OnlyScans(c, ReadHead(env, c)) ==> NextEvent(env, c) == (ReadHead(env, c).0, Other(NeedData))
  {
  }

  lemma PollsIdle(env: Env, c: Conn)
    requires Sound(c) && !c.eof && c.input == [] && (c.Remote() != Closed && c.Remote() != Error)
    requires !IsReading(c.Remote())
    ensures (NextEvent(env, c) == (c, Other(NeedData)) || NextEvent(env, c) == (c, Other(Paused)))
  {
  }

  /** A scan position is nobody else's business. */
  lemma ServerScans(env: Env, n: Net, d: Conn)
    requires Agrees(env, n) && d == n.s.(cycle := n.s.cycle.(progress := d.cycle.progress))
    ensures Agrees(env, n.(s := d))
  {
  }

  lemma ClientScans(env: Env, n: Net, d: Conn)
    requires Agrees(env, n) && d == n.c.(cycle := n.c.cycle.(progress := d.cycle.progress))
    ensures Agrees(env, n.(c := d))
  {
    DownSame(env, n.c, d, n.c.input + n.down, n.log, n.log);
    OffersSame(env, n, n.(c := d));
  }

  lemma HeardOffers(env: Env, n: Net, m: Net)
    requires OffersOk(env, n.c, n.s, n.log) && n.log.asked.requested && !n.log.heard.requested
    requires n.log.heads == [] && n.log.last.None? && n.log.answered == SERVER_START
    requires m.c == n.c && m.log == n.log.(heard := m.log.heard)
    requires m.s.cycle.kind == Some(KindOfMethod(n.log.request.verb)) && m.s.cycle.offers == n.log.proposal.offers
    requires m.s.cycle.continueFirst == n.log.proposal.continues
    ensures OffersOk(env, m.c, m.s, m.log)
  {
  }

  lemma TextTaken(text: bytes, input: bytes, channel: bytes)
    requires |text| <= |input|
    ensures (input + channel)[|text|..] == input[|text|..] + channel
  {
  }

  lemma HeardUp(env: Env, limits: Limits, input: bytes, up: bytes, l: Log, body: Bodies.Body)
    requires UpOk(env, limits, body, input + up, l) && l.asked.requested && !l.heard.requested
    requires |l.text| <= |input|
    ensures UpOk(env, limits, Bodies.Body(ReaderFor(l.proposal.framing), 0), input[|l.text|..] + up,
                 l.(heard := l.asked.(ended := false)))
  {
    TextTaken(l.text, input, up);
  }

  lemma HeardDown(env: Env, c: Conn, wire: bytes, l: Log, m: Log)
    requires DownOk(env, c, wire, l) && m == l.(heard := m.heard)
    requires l.heard.requested ==> m.heard.requested
    ensures DownOk(env, c, wire, m)
  {
  }

  lemma HeardAgrees(env: Env, n: Net, m: Net)
    requires Agrees(env, n) && n.log.asked.requested && !n.log.heard.requested
    requires |n.log.text| <= |n.s.input|
    requires var u := ProcessEvent(n.s.state, Client, RequestEvent(n.log.asked.offered));
             u.Some? && m.s.state == if n.log.proposal.persistent then u.value else DisableKeepAlive(u.value)
    requires m == n.(s := m.s, log := n.log.(heard := n.log.asked.(ended := false)))
    requires m.s.cycle.kind == Some(KindOfMethod(n.log.request.verb)) && m.s.cycle.offers == n.log.proposal.offers
    requires m.s.cycle.continueFirst == n.log.proposal.continues && m.s.cycle.writer == n.s.cycle.writer
    requires Sessions.BodyOf(m.s) == Bodies.Body(ReaderFor(n.log.proposal.framing), 0)
    requires m.s.input == n.s.input[|n.log.text|..] && m.s.limits == n.s.limits
    ensures Agrees(env, m)
  {
    var l := n.log;
    HearStates(n.c.state, n.s.state, l, l.proposal.persistent);
    HeardOffers(env, n, m);
    HeardUp(env, n.s.limits, n.s.input, n.up, l, Sessions.BodyOf(n.s));
    HeardDown(env, n.c, n.c.input + n.down, l, m.log);
  }

  /** The text of the request under way, if the server has yet to read it. */
  lemma TextUnderWay(env: Env, n: Net)
    requires Agrees(env, n) && !n.log.heard.requested
    ensures if n.log.asked.requested
            then ReadsRequest(env, n.s.limits, n.log.text, n.log.request) && n.log.text <= n.s.input + n.up
                 && RequestArrives(env, n.log.request, n.log.proposal)
                 && RequestProposals(n.log.request, n.log.proposal.offers) == RequestEvent(n.log.asked.offered)
                 && n.s.state.keepAlive
            else n.s.input == []
  {
  }

  /** A poll handed out an event other than content. */
  predicate Quiet(polled: Polled) {
    !polled.FaultPolled? && !polled.DataPolled?
  }

  /** The server polls with a whole request head received. */
  lemma ServerHears(env: Env, n: Net, r: (Conn, Polled))
    requires Agrees(env, n) && n.log.asked.requested && !n.log.heard.requested
    requires n.s.role == Server && n.s.cycle.ext == 0 && |n.log.text| <= |n.s.input|
    requires r == AcceptRequest(PastSection(n.s, |n.log.text|), n.log.request, FieldsOf(env.validHost, n.log.request.headers),
                                env.validTarget(n.log.request.verb, n.log.request.target))
    ensures Quiet(r.1) && Agrees(env, PolledServer(n, r.0, Other(r.1)))
  {
    var s, l := n.s, n.log;
    TextUnderWay(env, n);
    HearStates(n.c.state, s.state, l, l.proposal.persistent);
    RequestAccepted(env, PastSection(s, |l.text|), l.request, l.proposal);
    HeardAgrees(env, n, PolledServer(n, r.0, Other(r.1)));
  }

  lemma ServerScanned(env: Env, n: Net, r: (Conn, Polled))
    requires Agrees(env, n) && OnlyScans(n.s, r)
    ensures Quiet(r.1) && Agrees(env, PolledServer(n, r.0, Other(r.1)))
  {
    ServerScans(env, n, r.0);
    assert PolledServer(n, r.0, Other(r.1)) == n.(s := r.0);
  }

  /** The server polls before it has read a request. */
  lemma ServerReadsHead(env: Env, n: Net)
    requires Agrees(env, n) && Patient(env) && !n.log.heard.requested
    requires n.s.role == Server && n.s.cycle.ext == 0 && !n.s.eof && n.s.cycle.progress.Within(n.s.input)
    ensures var r := ReadHead(env, n.s); Quiet(r.1) && Agrees(env, PolledServer(n, r.0, Other(r.1)))
  {
    TextUnderWay(env, n);
    if !n.log.asked.requested {
      NothingToRead(env, n.s);
    } else {
      RequestHeadPolls(env, n.s, n.up, n.log.text, n.log.request);
    }
    if OnlyScans(n.s, ReadHead(env, n.s)) {
      ServerScanned(env, n, ReadHead(env, n.s));
    } else {
      ServerHears(env, n, ReadHead(env, n.s));
    }
  }

  lemma ServerPollsForHead(env: Env, n: Net)
    requires NetInv(env, n) && Patient(env) && !n.log.heard.requested && n.s.state.client == Idle
    ensures Agrees(env, ServerPollStep(env, n)) && !NextEvent(env, n.s).1.Faulted?
  {
    PollsForHead(env, n.s);
    ServerReadsHead(env, n);
    HandsOut(env, n.s);
  }

  lemma ServerOffersSame(env: Env, n: Net, m: Net)
    requires OffersOk(env, n.c, n.s, n.log) && n.log.heard.requested
    requires m.c == n.c && Effects.SameOffers(n.s, m.s)
    requires m.log == n.log.(heard := n.log.heard.(ended := m.log.heard.ended))
    ensures OffersOk(env, m.c, m.s, m.log)
  {
  }

  /** The server polled within a body: it goes on. */
  lemma ServerBodyGoesOn(env: Env, n: Net, d: Conn)
    requires Agrees(env, n) && n.log.heard.requested && !n.log.heard.ended
    requires SameBesides(n.s, d) && d.state == n.s.state
    requires Linked(n.s.limits.maxHead, Sessions.BodyOf(d), d.input + n.up, n.log.up)
    ensures Agrees(env, n.(s := d))
  {
    ServerOffersSame(env, n, n.(s := d));
  }

  /** The server polled the end of a body. */
  lemma ServerBodyEnds(env: Env, n: Net, d: Conn)
    requires Agrees(env, n) && n.s.state.client == SendBody && SameBesides(n.s, d)
    requires ProcessEvent(n.s.state, Client, EndEvent) == Some(d.state) && Spent(d.input + n.up, n.log.up)
    ensures Agrees(env, n.(s := d, log := n.log.(heard := n.log.heard.(ended := true))))
  {
    var m := n.(s := d, log := n.log.(heard := n.log.heard.(ended := true)));
    ClientSeen(n.c.state, n.s.state, n.log);
    HearEnd(n.c.state, n.s.state, n.log);
    HeardDown(env, n.c, n.c.input + n.down, n.log, m.log);
    ServerOffersSame(env, n, m);
  }

  /** The two ways out of a poll within a body. */
  lemma BodyPollCases(c: Conn, channel: bytes, sent: Sent, d: Conn, next: Next)
    requires BodyPolled(c, channel, sent, (d, next))
    ensures SameBesides(c, d) && !next.Faulted?
    ensures if next.Other? && next.polled.EndPolled?
            then ProcessEvent(c.state, c.role.Peer(), EndEvent) == Some(d.state) && Spent(d.input + channel, sent)
            else d.state == c.state && Linked(c.limits.maxHead, Sessions.BodyOf(d), d.input + channel, sent)
                 && (next.Content? || next == Other(NeedData))
  {
  }

  lemma PolledServerEnd(n: Net, d: Conn, next: Next)
    requires next.Other? && next.polled.EndPolled?
    ensures PolledServer(n, d, next) == n.(s := d, log := n.log.(heard := n.log.heard.(ended := true)))
  {
  }

  lemma PolledServerOn(n: Net, d: Conn, next: Next)
    requires next.Content? || next == Other(NeedData)
    ensures PolledServer(n, d, next) == n.(s := d)
  {
  }

  lemma ServerBodyPolled(env: Env, n: Net, d: Conn, next: Next)
    requires Agrees(env, n) && n.s.role == Server && n.s.state.client == SendBody
    requires BodyPolled(n.s, n.up, n.log.up, (d, next))
    ensures Agrees(env, PolledServer(n, d, next)) && !next.Faulted?
  {
    BodyPollCases(n.s, n.up, n.log.up, d, next);
    if next.Other? && next.polled.EndPolled? {
      ServerBodyEnds(env, n, d);
      PolledServerEnd(n, d, next);
    } else {
      ClientSeen(n.c.state, n.s.state, n.log);
      ServerBodyGoesOn(env, n, d);
      PolledServerOn(n, d, next);
    }
  }

  lemma ServerPollsBody(env: Env, n: Net)
    requires NetInv(env, n) && n.s.state.client == SendBody
    ensures BodyPolled(n.s, n.up, n.log.up, NextEvent(env, n.s))
  {
    ClientSeen(n.c.state, n.s.state, n.log);
    BodyPolls(env, n.s, n.up, n.log.up, n.log.upTrailers);
  }

  lemma NothingLeftUp(env: Env, n: Net)
    requires Agrees(env, n) && n.log.heard.ended
    ensures n.s.input == [] && n.up == []
  {
    ClientSeen(n.c.state, n.s.state, n.log);
    assert |n.s.input + n.up| == 0;
  }

  lemma IdleChangesNothing(n: Net, next: Next)
    requires next == Other(NeedData) || next == Other(Paused)
    ensures PolledServer(n, n.s, next) == n && PolledClient(n, n.c, next) == n
  {
  }

  lemma ServerPollsIdle(env: Env, n: Net)
    requires NetInv(env, n) && (n.s.state.client != Idle && n.s.state.client != SendBody)
    ensures ServerPollStep(env, n) == n && !NextEvent(env, n.s).1.Faulted?
  {
    ClientSeen(n.c.state, n.s.state, n.log);
    NothingLeftUp(env, n);
    PollsIdle(env, n.s);
    IdleChangesNothing(n, NextEvent(env, n.s).1);
  }

  lemma ServerPolls(env: Env, n: Net)
    requires NetInv(env, n) && Patient(env)
    ensures Agrees(env, ServerPollStep(env, n)) && !NextEvent(env, n.s).1.Faulted?
  {
    ClientSeen(n.c.state, n.s.state, n.log);
    if n.s.state.client == Idle {
      ServerPollsForHead(env, n);
    } else if n.s.state.client == SendBody {
      ServerPollsBody(env, n);
      ServerBodyPolled(env, n, NextEvent(env, n.s).0, NextEvent(env, n.s).1);
    } else {
      ServerPollsIdle(env, n);
    }
  }

  lemma PollKeepsSide(env: Env, c: Conn)
    requires Runs.Inv(c) && c.held == 0 && !c.eof
    ensures var d := NextEvent(env, c).0;
            Runs.Inv(d) && d.role == c.role && d.held == 0 && !d.eof && d.limits == c.limits
  {
    Runs.PollInv(env, c);
    Effects.InnerEffect(env, c);
  }

  /** A poll of the server never fails and keeps the endpoints in agreement. */
  lemma ServerPollKeeps(env: Env, n: Net)
    requires NetInv(env, n) && Patient(env)
    ensures NetInv(env, ServerPollStep(env, n)) && !NextEvent(env, n.s).1.Faulted?
  {
    ServerPolls(env, n);
    PollKeepsSide(env, n.s);
  }

  // -------------------------------------------------------------- the client polls

  /** Being told of a head. */
  lemma ToldStates(x: ConnectionState, y: ConnectionState, l: Log, event: StateEvent, off: bool)
    requires StatesOk(x, y, l) && l.told.answer == NoAnswer && l.heard.requested
    requires match event
             case InformationalEvent => true
             case ResponseEvent => l.answered.answer == Responded
             case SwitchEvent(kind) => l.answered.answer == Switched(kind)
             case _ => false
    ensures ProcessEvent(x, Server, event).Some?
    ensures var u := ProcessEvent(x, Server, event).value;
            var t := if off then DisableKeepAlive(u) else u;
            && (event != InformationalEvent ==> StatesOk(t, y, l.(told := l.answered.(ended := false))))
            && (event == InformationalEvent && !off ==> t == x)
            && (event.SwitchEvent? && !off ==> t.keepAlive == x.keepAlive)
            && (event == ResponseEvent ==> t.keepAlive == (x.keepAlive && !off && !l.asked.offered.connect))
            && (event == ResponseEvent && y.keepAlive ==> !l.asked.offered.connect)
  {
    assert ProcessEvent(x, Server, event).Some?;
    var told := ServerAfter(l.told, event);
    ServerStep(l.asked, l.told, !x.keepAlive, event);
    DisableStep(l.asked, told, !x.keepAlive);
    JointFlag(l.asked, told, true);
    JointFlag(l.asked, told, !x.keepAlive);
  }

  /** Being told that the response has ended. */
  lemma ToldEnd(x: ConnectionState, y: ConnectionState, l: Log)
    requires StatesOk(x, y, l) && x.server == SendBody && ProcessEvent(x, Server, EndEvent).Some?
    ensures var t := ProcessEvent(x, Server, EndEvent).value;
            StatesOk(t, y, l.(told := l.told.(ended := true))) && t.keepAlive == x.keepAlive
  {
    ServerSeen(x, y, l);
    ServerStep(l.asked, l.told, !x.keepAlive, EndEvent);
    JointFlag(l.asked, ServerAfter(l.told, EndEvent), !x.keepAlive);
  }

  /** An informational head that arrives is accepted and leaves the state alone. */
  lemma InformedConn(c: Conn, f: Response, s: Scanned)
    requires c.role == Client && c.Local() != Idle && f.Informational() && f.status != 101
    requires s.Frame(f.version, true).Some? && ProcessEvent(c.state, Server, InformationalEvent) == Some(c.state)
    ensures var (d, polled) := AcceptResponse(c, f, s);
            && polled == InformationalPolled(f)
            && d == c.(peerVersion := Some(f.version), cycle := d.cycle)
            && d.cycle == c.cycle.(waiting := d.cycle.waiting, continueFirst := c.cycle.continueFirst && f.status != 100)
  {
  }

  /** So is a switch to an offered protocol. */
  lemma SwitchedConn(c: Conn, f: Response, s: Scanned)
    requires c.role == Client && c.Local() != Idle && f.status == 101
    requires !c.cycle.continueFirst && c.ValidUpgrade(f)
    requires s.Frame(f.version, true).Some? && ProcessEvent(c.state, Server, SwitchEvent(Upgrade)).Some?
    ensures var (d, polled) := AcceptResponse(c, f, s);
            && polled == InformationalPolled(f)
            && d == c.(peerVersion := Some(f.version), state := ProcessEvent(c.state, Server, SwitchEvent(Upgrade)).value)
  {
  }

  lemma DisableTwice(s: ConnectionState)
    ensures DisableKeepAlive(DisableKeepAlive(s)) == DisableKeepAlive(s)
  {
  }

  /** So is a final head, with the reader its sender writes for. */
  lemma AnsweredConn(c: Conn, f: Response, s: Scanned, framing: Framing)
    requires c.role == Client && c.Local() != Idle && !f.Informational()
    requires FramedAs(s, f.version, c.Bodyless(f), framing)
    requires ProcessEvent(c.state, Server, c.FinalEvent(f)).Some?
    ensures var (d, polled) := AcceptResponse(c, f, s);
            var next := ProcessEvent(c.state, Server, c.FinalEvent(f)).value;
            var off := !s.Persistent(f.version) || framing.CloseDelimited?;
            && polled == ResponsePolled(f)
            && d == c.(peerVersion := Some(f.version), state := if off then DisableKeepAlive(next) else next, cycle := d.cycle)
            && d.cycle.kind == c.cycle.kind && d.cycle.writer == c.cycle.writer
            && Sessions.BodyOf(d) == Bodies.Body(ReaderFor(framing), c.cycle.ext)
  {
    DisableTwice(ProcessEvent(c.state, Server, c.FinalEvent(f)).value);
  }

  /** The oldest head under way to the client. */
  function FirstHead(l: Log): Option<Response> {
    if l.heads != [] then Some(l.heads[0]) else l.last
  }

  lemma TextsFirst(heads: seq<Response>)
    requires heads != []
    ensures TextsOf(heads) == ResponseText(heads[0]) + TextsOf(heads[1..])
    ensures ResponseText(heads[0]) <= TextsOf(heads)
  {
  }

  lemma PrefixChain(a: bytes, b: bytes, wire: bytes)
    requires a + b <= wire
    ensures a <= wire && b <= wire[|a|..] && wire[|a|..][|b|..] == wire[|a + b|..]
    ensures wire == a + b ==> wire[|a|..] == b
  {
  }

  lemma FirstRead(env: Env, c: Conn, wire: bytes, l: Log)
    requires HeadsOk(env, c, wire, l)
    ensures var f := FirstHead(l);
            if f.None? then wire == []
            else ReadsResponse(env, c.limits, c.lenient, ResponseText(f.value), f.value) && ResponseText(f.value) <= wire
  {
    if l.heads != [] {
      TextsFirst(l.heads);
      var first, rest := ResponseText(l.heads[0]), TextsOf(l.heads[1..]);
      if l.last.None? {
        PrefixChain(first, rest, wire);
      } else {
        Regroup(first, rest, ResponseText(l.last.value));
        PrefixChain(first, rest + ResponseText(l.last.value), wire);
      }
    } else {
      WholeText(if l.last.Some? then ResponseText(l.last.value) else []);
    }
  }

  /** An informational head taken off the wire. */
  lemma HeadTaken(env: Env, c: Conn, wire: bytes, l: Log)
    requires HeadsOk(env, c, wire, l) && l.heads != [] && ResponseText(l.heads[0]) <= wire
    ensures HeadsOk(env, c, wire[|ResponseText(l.heads[0])|..], l.(heads := l.heads[1..]))
  {
    TextsFirst(l.heads);
    var first, rest := ResponseText(l.heads[0]), TextsOf(l.heads[1..]);
    if l.last.None? {
      PrefixChain(first, rest, wire);
    } else {
      var texts := rest + ResponseText(l.last.value);
      Regroup(first, rest, ResponseText(l.last.value));
      PrefixChain(first, texts, wire);
      assert TextsOf(l.heads) + ResponseText(l.last.value) == first + texts;
    }
  }

  lemma AwaitsTaken(continueFirst: bool, heads: seq<Response>)
    requires heads != []
    ensures Awaits(continueFirst && heads[0].status != 100, heads[1..]) == Awaits(continueFirst, heads)
  {
    assert forall i :: 0 <= i < |heads[1..]| ==> heads[1..][i] == heads[i + 1];
    if Awaits(continueFirst && heads[0].status != 100, heads[1..]) {
      forall i | 0 <= i < |heads|
        ensures heads[i].status != 100
      {
        if i > 0 {
          assert heads[1..][i - 1].status != 100;
        }
      }
    }
  }

  lemma InformedOffers(env: Env, n: Net, m: Net)
    requires OffersOk(env, n.c, n.s, n.log) && n.log.heads != [] && n.log.heard.requested && m.s == n.s
    requires m.c.cycle.kind == n.c.cycle.kind && m.c.cycle.offers == n.c.cycle.offers
    requires m.c.cycle.continueFirst == (n.c.cycle.continueFirst && n.log.heads[0].status != 100)
    requires m.log == n.log.(heads := n.log.heads[1..])
    ensures OffersOk(env, m.c, m.s, m.log)
  {
    AwaitsTaken(n.c.cycle.continueFirst, n.log.heads);
    if n.log.last.Some? {
      UpgradeAllowed(n.c, m.c, n.log.last.value);
    }
  }

  lemma InformedDown(env: Env, c: Conn, d: Conn, wire: bytes, l: Log)
    requires HeadsOk(env, c, wire, l) && l.told.answer == NoAnswer && l.heard.requested
    requires d.limits == c.limits && d.lenient == c.lenient && d.cycle.kind == c.cycle.kind
    ensures DownOk(env, d, wire, l)
  {
    BodylessByKind(c, d, l);
  }

  /** The client has read an informational head. */
  lemma ClientInformed(env: Env, n: Net, m: Net)
    requires Agrees(env, n) && n.log.told.answer == NoAnswer && n.log.heads != []
    requires |ResponseText(n.log.heads[0])| <= |n.c.input|
    requires ResponseText(n.log.heads[0]) <= n.c.input + n.down
    requires m == n.(c := m.c, log := n.log.(heads := n.log.heads[1..]))
    requires m.c == n.c.(input := n.c.input[|ResponseText(n.log.heads[0])|..], peerVersion := m.c.peerVersion, cycle := m.c.cycle)
    requires m.c.cycle.kind == n.c.cycle.kind && m.c.cycle.offers == n.c.cycle.offers
    requires m.c.cycle.continueFirst == (n.c.cycle.continueFirst && n.log.heads[0].status != 100)
    requires m.c.cycle.writer == n.c.cycle.writer && Sessions.BodyOf(m.c) == Sessions.BodyOf(n.c)
    ensures Agrees(env, m)
  {
    var text := ResponseText(n.log.heads[0]);
    HeadTaken(env, n.c, n.c.input + n.down, n.log);
    TextTaken(text, n.c.input, n.down);
    InformedDown(env, n.c, m.c, m.c.input + m.down, m.log);
    InformedOffers(env, n, m);
    StatesSame(n.c.state, n.s.state, n.log, m.log);
    UpSame(env, n.s.limits, Sessions.BodyOf(n.s), n.s.input + n.up, n.log, m.log);
  }

  /** The last head of a switch is all that was on the wire. */
  lemma SwitchTaken(env: Env, c: Conn, input: bytes, down: bytes, l: Log)
    requires HeadsOk(env, c, input + down, l) && l.heads == [] && l.last.Some? && l.answered.answer.Switched?
    requires |ResponseText(l.last.value)| <= |input|
    ensures input[|ResponseText(l.last.value)|..] + down == []
  {
    WholeText(ResponseText(l.last.value));
    TextTaken(ResponseText(l.last.value), input, down);
  }

  lemma FinalTaken(env: Env, c: Conn, input: bytes, down: bytes, l: Log)
    requires HeadsOk(env, c, input + down, l) && l.heads == [] && l.last.Some? && l.answered.answer == Responded
    requires |ResponseText(l.last.value)| <= |input|
    ensures Linked(c.limits.maxHead, Bodies.Body(ReaderFor(l.framing), 0),
                   input[|ResponseText(l.last.value)|..] + down, l.down)
    ensures FinalArrives(env.validHost, l.last.value, c.Bodyless(l.last.value), l.framing)
  {
    WholeText(ResponseText(l.last.value));
    TextTaken(ResponseText(l.last.value), input, down);
  }

  /** The log once the last head has been read. */
  function ToldLog(l: Log): Log {
    l.(told := l.answered.(ended := false), last := None)
  }

  lemma ToldOffers(env: Env, n: Net, m: Net)
    requires OffersOk(env, n.c, n.s, n.log) && n.log.heard.requested && n.log.answered.answer != NoAnswer
    requires m.s == n.s && m.c.cycle.kind == n.c.cycle.kind && m.log == ToldLog(n.log)
    ensures OffersOk(env, m.c, m.s, m.log)
  {
  }

  lemma ToldSwitchFlags(validHost: bytes -> bool, x: bool, z: bool, y: bool, l: Log)
    requires FlagsOk(validHost, x, y, l) && l.answered.answer.Switched? && l.heard.requested && l.asked.requested
    requires l.answered.answer == Switched(Connect) || z == x
    ensures FlagsOk(validHost, z, y, ToldLog(l))
  {
  }

  /** The client has read the head of a switch. */
  lemma ClientSwitched(env: Env, n: Net, m: Net, kind: SwitchKind, off: bool)
    requires Agrees(env, n) && n.log.told.answer == NoAnswer && n.log.heads == [] && n.log.last.Some?
    requires n.log.answered.answer == Switched(kind) && n.log.heard.requested && (off ==> kind == Connect)
    requires |ResponseText(n.log.last.value)| <= |n.c.input|
    requires var u := ProcessEvent(n.c.state, Server, SwitchEvent(kind));
             u.Some? && m.c.state == if off then DisableKeepAlive(u.value) else u.value
    requires m.s == n.s && m.up == n.up && m.down == n.down && m.log == ToldLog(n.log)
    requires m.c.input == n.c.input[|ResponseText(n.log.last.value)|..] && m.c.limits == n.c.limits
    requires m.c.cycle.kind == n.c.cycle.kind && m.c.cycle.writer == n.c.cycle.writer
    ensures Agrees(env, m)
  {
    SwitchTaken(env, n.c, n.c.input, n.down, n.log);
    ToldStates(n.c.state, n.s.state, n.log, SwitchEvent(kind), off);
    StatesSame(m.c.state, m.s.state, n.log.(told := m.log.told), m.log);
    ToldOffers(env, n, m);
    UpSame(env, n.s.limits, Sessions.BodyOf(n.s), n.s.input + n.up, n.log, m.log);
    ToldSwitchFlags(env.validHost, n.c.state.keepAlive, m.c.state.keepAlive, n.s.state.keepAlive, n.log);
  }

  lemma ToldFlags(validHost: bytes -> bool, x: bool, z: bool, y: bool, l: Log)
    requires FlagsOk(validHost, x, y, l) && l.answered.answer == Responded && l.told.answer == NoAnswer && l.last.Some?
    requires l.heard.requested && l.asked.requested && (y ==> !l.asked.offered.connect)
    requires var f := l.last.value;
             var off := !FieldsOf(validHost, f.headers).Persistent(f.version) || l.framing.CloseDelimited?;
             z == (x && !off && !l.asked.offered.connect)
    ensures FlagsOk(validHost, z, y, ToldLog(l))
  {
  }

  /** The client has read a final head. */
  lemma ClientAnswered(env: Env, n: Net, m: Net)
    requires Agrees(env, n) && n.log.told.answer == NoAnswer && n.log.heads == [] && n.log.last.Some?
    requires n.log.answered.answer == Responded && n.log.heard.requested
    requires |ResponseText(n.log.last.value)| <= |n.c.input|
    requires var f := n.log.last.value;
             var off := !FieldsOf(env.validHost, f.headers).Persistent(f.version) || n.log.framing.CloseDelimited?;
             var u := ProcessEvent(n.c.state, Server, ResponseEvent);
             u.Some? && m.c.state == if off then DisableKeepAlive(u.value) else u.value
    requires m.s == n.s && m.up == n.up && m.down == n.down && m.log == ToldLog(n.log)
    requires m.c.input == n.c.input[|ResponseText(n.log.last.value)|..] && m.c.limits == n.c.limits
    requires m.c.cycle.kind == n.c.cycle.kind && m.c.cycle.writer == n.c.cycle.writer
    requires Sessions.BodyOf(m.c) == Bodies.Body(ReaderFor(n.log.framing), 0)
    ensures Agrees(env, m)
  {
    var f := n.log.last.value;
    var off := !FieldsOf(env.validHost, f.headers).Persistent(f.version) || n.log.framing.CloseDelimited?;
    FinalTaken(env, n.c, n.c.input, n.down, n.log);
    ToldStates(n.c.state, n.s.state, n.log, ResponseEvent, off);
    StatesSame(m.c.state, m.s.state, n.log.(told := m.log.told), m.log);
    ToldOffers(env, n, m);
    UpSame(env, n.s.limits, Sessions.BodyOf(n.s), n.s.input + n.up, n.log, m.log);
    ToldFlags(env.validHost, n.c.state.keepAlive, m.c.state.keepAlive, n.s.state.keepAlive, n.log);
  }

  /** What the client has to read before its response has begun. */
  lemma HeadsUnderWay(env: Env, n: Net)
    requires Agrees(env, n) && n.log.told.answer == NoAnswer
    ensures HeadsOk(env, n.c, n.c.input + n.down, n.log)
    ensures FirstHead(n.log).Some? ==> n.log.heard.requested && n.log.asked.requested && n.c.state.client != Idle
    ensures n.log.heads != [] ==>
              var f := n.log.heads[0];
              f.Informational() && f.status != 101 && FieldsOf(env.validHost, f.headers).Frame(f.version, true).Some?
    ensures n.log.last.Some? ==> n.log.answered.answer != NoAnswer && LastAllowed(env, n.c, n.log)
  {
    ServerSeen(n.c.state, n.s.state, n.log);
  }

  /** The whole of this head is in the buffer, and this is what accepting it yields. */
  predicate Reads(env: Env, c: Conn, f: Response, r: (Conn, Polled)) {
    && |ResponseText(f)| <= |c.input|
    && r == AcceptResponse(PastSection(c, |ResponseText(f)|), f, FieldsOf(env.validHost, f.headers))
  }

  lemma PolledClientInformed(n: Net, d: Conn, f: Response)
    requires n.log.heads != [] && f.status != 101
    ensures PolledClient(n, d, Other(InformationalPolled(f))) == n.(c := d, log := n.log.(heads := n.log.heads[1..]))
  {
  }

  lemma PolledClientFinal(n: Net, d: Conn, f: Response)
    ensures PolledClient(n, d, Other(ResponsePolled(f))) == n.(c := d, log := ToldLog(n.log))
  {
  }

  lemma PolledClientSwitch(n: Net, d: Conn, f: Response)
    requires f.status == 101 && n.log.answered == n.log.answered.(ended := false)
    ensures PolledClient(n, d, Other(InformationalPolled(f))) == n.(c := d, log := ToldLog(n.log))
  {
  }

  lemma ClientReadsInformational(env: Env, n: Net, r: (Conn, Polled))
    requires Agrees(env, n) && n.c.role == Client && n.log.told.answer == NoAnswer && n.log.heads != []
    requires Reads(env, n.c, n.log.heads[0], r) && ResponseText(n.log.heads[0]) <= n.c.input + n.down
    ensures Quiet(r.1) && Agrees(env, PolledClient(n, r.0, Other(r.1)))
  {
    var f := n.log.heads[0];
    HeadsUnderWay(env, n);
    ToldStates(n.c.state, n.s.state, n.log, InformationalEvent, false);
    InformedConn(PastSection(n.c, |ResponseText(f)|), f, FieldsOf(env.validHost, f.headers));
    PolledClientInformed(n, r.0, f);
    ClientInformed(env, n, n.(c := r.0, log := n.log.(heads := n.log.heads[1..])));
  }

  lemma ClientReadsFinal(env: Env, n: Net, r: (Conn, Polled))
    requires Agrees(env, n) && n.c.role == Client && n.log.told.answer == NoAnswer && n.log.heads == [] && n.log.last.Some?
    requires Reads(env, n.c, n.log.last.value, r) && n.c.cycle.ext == 0 && n.log.answered.answer == Responded
    ensures Quiet(r.1) && Agrees(env, PolledClient(n, r.0, Other(r.1)))
  {
    var f := n.log.last.value;
    var p := PastSection(n.c, |ResponseText(f)|);
    HeadsUnderWay(env, n);
    FinalTaken(env, n.c, n.c.input, n.down, n.log);
    ToldStates(n.c.state, n.s.state, n.log, ResponseEvent, false);
    KindDecides(n.c, p, f);
    AnsweredConn(p, f, FieldsOf(env.validHost, f.headers), n.log.framing);
    PolledClientFinal(n, r.0, f);
    ClientAnswered(env, n, n.(c := r.0, log := ToldLog(n.log)));
  }

  lemma ClientReadsTunnel(env: Env, n: Net, r: (Conn, Polled))
    requires Agrees(env, n) && n.c.role == Client && n.log.told.answer == NoAnswer && n.log.heads == [] && n.log.last.Some?
    requires Reads(env, n.c, n.log.last.value, r) && n.log.answered.answer == Switched(Connect)
    ensures Quiet(r.1) && Agrees(env, PolledClient(n, r.0, Other(r.1)))
  {
    var f := n.log.last.value;
    var p, s := PastSection(n.c, |ResponseText(f)|), FieldsOf(env.validHost, f.headers);
    HeadsUnderWay(env, n);
    ToldStates(n.c.state, n.s.state, n.log, SwitchEvent(Connect), false);
    KindDecides(n.c, p, f);
    AnsweredConn(p, f, s, Framing.Fixed(0));
    PolledClientFinal(n, r.0, f);
    ClientSwitched(env, n, n.(c := r.0, log := ToldLog(n.log)), Connect, !s.Persistent(f.version));
  }

  lemma NothingAwaited(continueFirst: bool, heads: seq<Response>)
    requires heads == []
    ensures Awaits(continueFirst, heads) == continueFirst
  {
  }

  /** A switch ends no body. */
  lemma EndedLater(answered: ServerProgress, heard: ClientProgress)
    requires Plausible(heard, answered) && answered.answer.Switched?
    ensures answered == answered.(ended := false)
  {
  }

  lemma ClientReadsUpgrade(env: Env, n: Net, r: (Conn, Polled))
    requires Agrees(env, n) && n.c.role == Client && n.log.told.answer == NoAnswer && n.log.heads == [] && n.log.last.Some?
    requires Reads(env, n.c, n.log.last.value, r) && n.log.answered.answer == Switched(Upgrade)
    ensures Quiet(r.1) && Agrees(env, PolledClient(n, r.0, Other(r.1)))
  {
    var f := n.log.last.value;
    var p := PastSection(n.c, |ResponseText(f)|);
    HeadsUnderWay(env, n);
    NothingAwaited(n.c.cycle.continueFirst, n.log.heads);
    ToldStates(n.c.state, n.s.state, n.log, SwitchEvent(Upgrade), false);
    UpgradeAllowed(n.c, p, f);
    SwitchedConn(p, f, FieldsOf(env.validHost, f.headers));
    EndedLater(n.log.answered, n.log.heard);
    PolledClientSwitch(n, r.0, f);
    ClientSwitched(env, n, n.(c := r.0, log := ToldLog(n.log)), Upgrade, false);
  }

  lemma ClientReadsLast(env: Env, n: Net, r: (Conn, Polled))
    requires Agrees(env, n) && n.c.role == Client && n.log.told.answer == NoAnswer && n.log.heads == [] && n.log.last.Some?
    requires Reads(env, n.c, n.log.last.value, r) && n.c.cycle.ext == 0
    ensures Quiet(r.1) && Agrees(env, PolledClient(n, r.0, Other(r.1)))
  {
    HeadsUnderWay(env, n);
    match n.log.answered.answer
    case Responded => ClientReadsFinal(env, n, r);
    case Switched(Connect) => ClientReadsTunnel(env, n, r);
    case Switched(Upgrade) => ClientReadsUpgrade(env, n, r);
  }

  /** Before any head is read the client's decoder is fresh. */
  lemma FreshReader(c: Conn)
    requires Runs.Inv(c) && c.role == Client && (c.state.server == Idle || c.state.server == State.SendResponse)
    ensures c.cycle.ext == 0
  {
  }

  lemma ClientScanned(env: Env, n: Net, r: (Conn, Polled))
    requires Agrees(env, n) && OnlyScans(n.c, r)
    ensures Quiet(r.1) && Agrees(env, PolledClient(n, r.0, Other(r.1)))
  {
    ClientScans(env, n, r.0);
    assert PolledClient(n, r.0, Other(r.1)) == n.(c := r.0);
  }

  /** The client polls before its response has begun. */
  lemma ClientReadsHead(env: Env, n: Net)
    requires Agrees(env, n) && Patient(env) && n.log.told.answer == NoAnswer
    requires n.c.role == Client && n.c.cycle.ext == 0 && !n.c.eof && n.c.cycle.progress.Within(n.c.input)
    ensures var r := ReadHead(env, n.c); Quiet(r.1) && Agrees(env, PolledClient(n, r.0, Other(r.1)))
  {
    var f := FirstHead(n.log);
    HeadsUnderWay(env, n);
    FirstRead(env, n.c, n.c.input + n.down, n.log);
    if f.None? {
      assert |n.c.input + n.down| == 0;
      NothingToRead(env, n.c);
    } else {
      ResponseHeadPolls(env, n.c, n.down, ResponseText(f.value), f.value);
    }
    if OnlyScans(n.c, ReadHead(env, n.c)) {
      ClientScanned(env, n, ReadHead(env, n.c));
    } else if n.log.heads != [] {
      ClientReadsInformational(env, n, ReadHead(env, n.c));
    } else {
      ClientReadsLast(env, n, ReadHead(env, n.c));
    }
  }

  lemma ClientPollsForHead(env: Env, n: Net)
    requires NetInv(env, n) && Patient(env) && n.log.told.answer == NoAnswer
    requires (n.c.state.server == Idle || n.c.state.server == State.SendResponse)
    ensures Agrees(env, ClientPollStep(env, n)) && !NextEvent(env, n.c).1.Faulted?
  {
    PollsForHead(env, n.c);
    FreshReader(n.c);
    ClientReadsHead(env, n);
    HandsOut(env, n.c);
  }

  lemma ClientBodyGoesOn(env: Env, n: Net, d: Conn)
    requires Agrees(env, n) && n.log.told.answer == Responded && !n.log.told.ended
    requires SameBesides(n.c, d) && d.state == n.c.state
    requires Linked(n.c.limits.maxHead, Sessions.BodyOf(d), d.input + n.down, n.log.down)
    ensures Agrees(env, n.(c := d))
  {
    OffersSame(env, n, n.(c := d));
  }

  lemma ToldOn(env: Env, n: Net, m: Net)
    requires OffersOk(env, n.c, n.s, n.log) && n.log.last.None? && n.log.answered.answer == Responded
    requires n.log.heard.requested && Effects.SameOffers(n.c, m.c) && m.s == n.s && m.log == n.log.(told := m.log.told)
    ensures OffersOk(env, m.c, m.s, m.log)
  {
  }

  lemma ClientBodyEnds(env: Env, n: Net, d: Conn)
    requires Agrees(env, n) && n.c.state.server == SendBody && SameBesides(n.c, d)
    requires ProcessEvent(n.c.state, Server, EndEvent) == Some(d.state) && Spent(d.input + n.down, n.log.down)
    ensures Agrees(env, n.(c := d, log := n.log.(told := n.log.told.(ended := true))))
  {
    var m := n.(c := d, log := n.log.(told := n.log.told.(ended := true)));
    ServerSeen(n.c.state, n.s.state, n.log);
    ToldEnd(n.c.state, n.s.state, n.log);
    UpSame(env, n.s.limits, Sessions.BodyOf(n.s), n.s.input + n.up, n.log, m.log);
    ToldOn(env, n, m);
  }

  lemma PolledClientEnd(n: Net, d: Conn, next: Next)
    requires next.Other? && next.polled.EndPolled?
    ensures PolledClient(n, d, next) == n.(c := d, log := n.log.(told := n.log.told.(ended := true)))
  {
  }

  lemma PolledClientOn(n: Net, d: Conn, next: Next)
    requires next.Content? || next == Other(NeedData)
    ensures PolledClient(n, d, next) == n.(c := d)
  {
  }

  lemma ClientBodyPolled(env: Env, n: Net, d: Conn, next: Next)
    requires Agrees(env, n) && n.c.role == Client && n.c.state.server == SendBody
    requires BodyPolled(n.c, n.down, n.log.down, (d, next))
    ensures Agrees(env, PolledClient(n, d, next)) && !next.Faulted?
  {
    ServerSeen(n.c.state, n.s.state, n.log);
    BodyPollCases(n.c, n.down, n.log.down, d, next);
    if next.Other? && next.polled.EndPolled? {
      ClientBodyEnds(env, n, d);
      PolledClientEnd(n, d, next);
    } else {
      ClientBodyGoesOn(env, n, d);
      PolledClientOn(n, d, next);
    }
  }

  lemma ClientPollsBody(env: Env, n: Net)
    requires NetInv(env, n) && n.c.state.server == SendBody
    ensures BodyPolled(n.c, n.down, n.log.down, NextEvent(env, n.c))
  {
    ServerSeen(n.c.state, n.s.state, n.log);
    BodyPolls(env, n.c, n.down, n.log.down, n.log.downTrailers);
  }

  lemma NothingLeftDown(env: Env, n: Net)
    requires Agrees(env, n) && (n.log.told.ended || n.log.told.answer.Switched?)
    ensures n.c.input == [] && n.down == []
  {
    ServerSeen(n.c.state, n.s.state, n.log);
    assert |n.c.input + n.down| == 0;
  }

  lemma ClientPollsIdle(env: Env, n: Net)
    requires NetInv(env, n) && (n.c.state.server != Idle && n.c.state.server != State.SendResponse && n.c.state.server != SendBody)
    ensures ClientPollStep(env, n) == n && !NextEvent(env, n.c).1.Faulted?
  {
    ServerSeen(n.c.state, n.s.state, n.log);
    NothingLeftDown(env, n);
    PollsIdle(env, n.c);
    IdleChangesNothing(n, NextEvent(env, n.c).1);
  }

  lemma ClientPolls(env: Env, n: Net)
    requires NetInv(env, n) && Patient(env)
    ensures Agrees(env, ClientPollStep(env, n)) && !NextEvent(env, n.c).1.Faulted?
  {
    ServerSeen(n.c.state, n.s.state, n.log);
    if (n.c.state.server == Idle || n.c.state.server == State.SendResponse) {
      ClientPollsForHead(env, n);
    } else if n.c.state.server == SendBody {
      ClientPollsBody(env, n);
      ClientBodyPolled(env, n, NextEvent(env, n.c).0, NextEvent(env, n.c).1);
    } else {
      ClientPollsIdle(env, n);
    }
  }

  /** A poll of the client never fails and keeps the endpoints in agreement. */
  lemma ClientPollKeeps(env: Env, n: Net)
    requires NetInv(env, n) && Patient(env)
    ensures NetInv(env, ClientPollStep(env, n)) && !NextEvent(env, n.c).1.Faulted?
  {
    ClientPolls(env, n);
    PollKeepsSide(env, n.c);
  }
}
