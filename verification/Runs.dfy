/** Runs of one connection and the invariant every call keeps. */
module Runs {
  import opened States
  import opened Bytes
  import opened Bodies
  import opened Payload
  import opened Buffers
  import opened Fields
  import opened Options
  import opened Messages
  import opened Conn

  /** The calls a caller can make. */
  datatype Op =
    | Receive(data: bytes)
    | Hold(count: nat)
    | InPlace(count: nat)
    | Poll
    | Request(request: Messages.Request)
    | WholeRequest(request: Messages.Request, length: nat)
    | Informational(response: Messages.Response)
    | Response(response: Messages.Response)
    | WholeResponse(response: Messages.Response, length: nat)
    | Body(data: bytes)
    | Finish(trailers: Headers)
    | NextCycle
    | Shut

  predicate IsSend(op: Op) {
    || op.Request? || op.WholeRequest? || op.Informational? || op.Response? || op.WholeResponse?
    || op.Body? || op.Finish?
  }

  /** The calls that serialize something to the peer. */
  function SendStep(env: Env, c: Conn, op: Op): Conn
    requires IsSend(op)
  {
    match op
    case Request(r) => SendRequest(env, c, r).0
    case WholeRequest(r, length) => SendRequestWithBody(env, c, r, length).0
    case Informational(r) => SendInformational(env, c, r).0
    case Response(r) => SendFinal(env, c, r).0
    case WholeResponse(r, length) => SendResponseWithBody(env, c, r, length).0
    case Body(data) => SendData(c, data).0
    case Finish(trailers) => EndOfMessage(c, trailers).0
  }

  /** The others: receiving, polling and the lifecycle. */
  function CallStep(env: Env, c: Conn, op: Op): Conn
    requires Sound(c) && !IsSend(op)
  {
    match op
    case Receive(data) => ReceiveData(c, data).0
    case Hold(count) => HoldBodyData(c, count).0
    case InPlace(count) => NextEventInPlace(c, count).0
    case Poll => NextEvent(env, c).0
    case NextCycle => StartNextCycle(c).0
    case Shut => Close(c).0
  }

  function Step(env: Env, c: Conn, op: Op): Conn
    requires Sound(c)
  {
    if IsSend(op) then SendStep(env, c, op) else CallStep(env, c, op)
  }

  /** The documented caller discipline: held bytes are handed over before a poll. */
  predicate Allowed(c: Conn, op: Op) {
    op.Poll? ==> c.held == 0
  }

  // ---------------------------------------------------------------- invariant

  /** What every run keeps about the joint state. */
  predicate StateInv(s: ConnectionState) {
    && Settled(s)
    && s.client != State.SendResponse && s.server != MightSwitchProtocol
    && (s.client == SwitchedProtocol ==> s.server == SwitchedProtocol)
    && (s.server == State.SendResponse ==> s.client != Idle)
    && (s.server == Idle ==> (s.client == Idle || s.client == Error))
    && (s.client == Idle && s.server != Idle ==> !s.keepAlive)
    && (s.client == MustClose && s.keepAlive ==> s.server == Closed)
    && (!s.proposals.IsEmpty() ==> (s.server == State.SendResponse || s.server == SwitchedProtocol || s.server == Error))
    && (s.client == Error || s.server == Error ==> !s.keepAlive)
  }

  /** A body is written exactly while the local actor is in SendBody. */
  predicate WriterInv(c: Conn) {
    && (c.cycle.writer.Some? <==> c.Local() == SendBody)
    && c.Local() != Error
  }

  /** A body is read while the peer is in SendBody, a head before that. */
  predicate ReaderInv(c: Conn) {
    && Sound(c)
    && (c.Remote() == SendBody ==>
          && !c.cycle.reader.Head?
          && ScanOk(c.cycle.reader, c.input)
          && c.cycle.ext <= c.limits.maxHead
          && (c.cycle.reader == Reader.Chunked(Trailers) || c.cycle.progress == FRESH)
          && (c.role == Server ==> !c.cycle.reader.CloseDelimited?))
    && ((c.Remote() == Idle || c.Remote() == State.SendResponse) ==> c.cycle.reader.Head? && c.cycle.ext == 0)
  }

  /** Held bytes are payload the decoder still expects. */
  predicate HeldInv(c: Conn) {
    c.held > 0 ==> Room(c).Some? && c.held <= Room(c).value
  }

  /** While a response is owed, the cycle remembers what the request proposed. */
  predicate OfferInv(c: Conn) {
    && (c.state.server == State.SendResponse ==>
          && c.cycle.kind.Some?
          && c.state.proposals == SwitchProposals(c.KindIs(ConnectKind), c.cycle.offers != []))
    && (c.state.server == Idle ==> c.cycle.kind.None? && c.cycle.offers == [])
    && (c.cycle.continueFirst ==> (c.state.server == State.SendResponse || c.state.server == Error))
  }

  predicate Inv(c: Conn) {
    StateInv(c.state) && WriterInv(c) && ReaderInv(c) && HeldInv(c) && OfferInv(c)
  }

  lemma NewInv(role: Role, limits: Limits, lenient: bool)
    ensures Inv(NewConn(role, limits, lenient))
  {
  }

  // --------------------------------------------------------- state-level steps

  lemma StateEventInv(s: ConnectionState, role: Role, event: StateEvent)
    requires StateInv(s) && s.Of(role) != Error
    requires ProcessEvent(s, role, event).Some?
    ensures var t := ProcessEvent(s, role, event).value;
            && StateInv(t)
            && t.Of(role) != Error
            && (t.Of(role.Peer()) == SendBody <==> s.Of(role.Peer()) == SendBody)
  {
  }

  lemma StateDisableInv(s: ConnectionState)
    requires StateInv(s)
    ensures var t := DisableKeepAlive(s);
            && StateInv(t) && !t.keepAlive && t.proposals == s.proposals
            && ((s.client != Done) ==> t.client == s.client)
            && ((s.server != Done) ==> t.server == s.server)
            && (t.client == s.client || t.client == MustClose) && (t.server == s.server || t.server == MustClose)
  {
  }

  lemma DisableInv(c: Conn)
    requires Inv(c)
    ensures Inv(c.NoKeepAlive())
  {
    StateDisableInv(c.state);
  }

  // -------------------------------------------------------------- receive side

  lemma ReceiveInv(c: Conn, data: bytes)
    requires Inv(c)
    ensures Inv(ReceiveData(c, data).0)
  {
    if data == [] {
      DisableInv(c.(eof := true));
    } else if !c.eof && c.Remote() == SendBody && c.cycle.reader.Chunked? && c.cycle.reader.chunk.Size? {
      ScannedAppend(c.input, data, c.cycle.reader.chunk.scanned);
    }
  }

  lemma HoldInv(c: Conn, count: nat)
    requires Inv(c)
    ensures Inv(HoldBodyData(c, count).0)
  {
  }

  lemma InPlaceInv(c: Conn, count: nat)
    requires Inv(c)
    ensures Inv(NextEventInPlace(c, count).0)
    ensures 0 < count <= c.held ==> NextEventInPlace(c, count).1.Some?
  {
  }

  /** A failed poll poisons the peer, which no body or head is read from again. */
  lemma PoisonInv(c: Conn)
    requires StateInv(c.state) && WriterInv(c) && OfferInv(c) && c.held == 0
    requires c.Remote() != SwitchedProtocol
    requires !c.cycle.reader.Head? ==> InBody(c.cycle.reader)
    ensures Inv(c.(state := ProcessError(c.state, c.role.Peer())))
  {
  }

  /** What a poll must leave behind, whatever it reports. */
  predicate PollOk(r: (Conn, Polled)) {
    var (d, polled) := r;
    match polled
    case FaultPolled(_) =>
      && StateInv(d.state) && WriterInv(d) && OfferInv(d) && d.held == 0
      && d.Remote() != SwitchedProtocol
      && (!d.cycle.reader.Head? ==> InBody(d.cycle.reader))
    case DataPolled(count, _, _) => count <= |d.input| && Inv(d.(input := d.input[count..]))
    case _ => Inv(d)
  }

  lemma SectionDueInv(c: Conn, skip: bool)
    requires Inv(c) && c.cycle.progress.Within(c.input)
    requires c.Remote() == SendBody ==> c.cycle.reader == Reader.Chunked(Trailers)
    ensures Inv(SectionDue(c, skip).0)
  {
  }

  lemma WaitOk(c: Conn, skip: bool)
    requires Inv(c) && c.held == 0 && c.Remote() != SwitchedProtocol
    ensures PollOk(WaitForSection(c, skip))
  {
  }

  lemma FinishedInv(c: Conn, t: ConnectionState)
    requires Inv(c) && c.held == 0 && c.Remote() == SendBody
    requires ProcessEvent(c.state, c.role.Peer(), EndEvent) == Some(t) && StateInv(t)
    ensures Inv(c.(state := t).WithReader(Reader.Head))
  {
  }

  lemma FinishPeerOk(c: Conn, trailers: Headers)
    requires Inv(c) && c.held == 0 && c.Remote() == SendBody
    ensures PollOk(FinishPeer(c, trailers))
    ensures FinishPeer(c, trailers).1 == EndPolled(trailers)
  {
    StateEventInv(c.state, c.role.Peer(), EndEvent);
    FinishedInv(c, ProcessEvent(c.state, c.role.Peer(), EndEvent).value);
  }

  lemma ClosePeerOk(c: Conn)
    requires Inv(c) && c.held == 0 && (c.Remote() == Idle || c.Remote() == Done || c.Remote() == MustClose)
    ensures PollOk(ClosePeer(c))
    ensures ClosePeer(c).1 == ClosedPolled
  {
    StateEventInv(c.state, c.role.Peer(), ClosedEvent);
  }

  /** Before a peer's message: a fresh section, and a state to read it in. */
  predicate AtHead(c: Conn) {
    && Inv(c) && c.held == 0 && c.cycle.progress == FRESH
    && (c.Remote() == Idle || c.Remote() == State.SendResponse)
  }

  lemma TakeRequestOk(c: Conn, r: Messages.Request, s: Scanned, framing: Bodies.Framing, upgrades: seq<bytes>)
    requires AtHead(c) && c.role == Server && !framing.CloseDelimited?
    ensures PollOk(TakeRequest(c, r, s, framing, upgrades))
  {
    var event := RequestProposals(r, upgrades);
    if ProcessEvent(c.state, Client, event).Some? {
      StateEventInv(c.state, Client, event);
      StateDisableInv(ProcessEvent(c.state, Client, event).value);
    }
  }

  /** A request never ends at close. */
  lemma RequestFraming(s: Scanned, version: Version)
    ensures var f := s.Frame(version, false); f.Some? ==> !f.value.CloseDelimited?
  {
  }

  lemma AcceptRequestOk(c: Conn, r: Messages.Request, s: Scanned, validTarget: bool)
    requires AtHead(c) && c.role == Server
    ensures PollOk(AcceptRequest(c, r, s, validTarget))
  {
    var framing := s.Frame(r.version, false);
    if framing.Some? {
      RequestFraming(s, r.version);
      TakeRequestOk(c, r, s, framing.value, ReceivedUpgrades(r, s));
    }
  }

  /** The server actor's head as the state sees it, with keep-alive off or not. */
  lemma ServerHeadState(s: ConnectionState, event: StateEvent, off: bool)
    requires StateInv(s) && s.client != Error && (s.server == Idle || s.server == State.SendResponse)
    requires (event == InformationalEvent || event == SwitchEvent(Upgrade) || event == SwitchEvent(Connect) || event == ResponseEvent)
    requires ProcessEvent(s, Server, event).Some?
    ensures var u := ProcessEvent(s, Server, event).value;
            var t := if off then DisableKeepAlive(u) else u;
            && StateInv(t) && t.client != Error
            && (t.client == SendBody <==> s.client == SendBody)
            && (event == InformationalEvent ==> t.server == s.server == State.SendResponse && t.proposals == s.proposals)
            && (event == ResponseEvent ==> t.server == SendBody)
            && (event.SwitchEvent? ==> t.server == SwitchedProtocol)
  {
  }

  lemma InformationalInv(c: Conn, t: ConnectionState, status: nat, version: Version)
    requires AtHead(c) && c.role == Client
    requires StateInv(t) && t.client != Error && (t.client == SendBody <==> c.state.client == SendBody)
    requires (t.server == SwitchedProtocol && !c.cycle.continueFirst)
             || (t.server == State.SendResponse && c.state.server == State.SendResponse && t.proposals == c.state.proposals)
    ensures Inv(RecordInformational(c.(state := t), status).(peerVersion := Some(version)))
  {
  }

  lemma TakeInformationalOk(c: Conn, r: Messages.Response, event: StateEvent, faulty: bool)
    requires AtHead(c) && c.role == Client
    requires event == InformationalEvent || (event == SwitchEvent(Upgrade) && !c.cycle.continueFirst)
    ensures PollOk(TakeInformational(c, r, event, faulty))
  {
    var next := ProcessEvent(c.state, Server, event);
    if next.Some? {
      ServerHeadState(c.state, event, faulty);
      InformationalInv(c, if faulty then DisableKeepAlive(next.value) else next.value, r.status, r.version);
    }
  }

  /** A client that has taken a final head, before its body is begun. */
  predicate HeadTaken(c: Conn) {
    && c.role == Client && c.held == 0
    && StateInv(c.state) && WriterInv(c) && OfferInv(c)
    && (c.state.server == SendBody || c.state.server == SwitchedProtocol)
    && c.cycle.progress == FRESH && c.cycle.reader.Head? && c.cycle.ext == 0
  }

  lemma HeadTakenInv(c: Conn, reader: Reader)
    requires HeadTaken(c) && InBody(reader) && (reader.Chunked? ==> reader == Reader.Chunked(Size(0)))
    ensures Inv(c.WithReader(reader)) && HeadTaken(c.NoKeepAlive()) && Inv(c.NoKeepAlive().WithReader(reader))
  {
    StateDisableInv(c.state);
  }

  lemma BeginResponseOk(c: Conn, r: Messages.Response, framing: Option<Bodies.Framing>)
    requires HeadTaken(c) && (c.state.server == SwitchedProtocol ==> c.Bodyless(r))
    ensures PollOk(BeginResponse(c, r, framing))
  {
    HeadTakenInv(c, Reader.Fixed(0));
    if framing.Some? {
      HeadTakenInv(c, ReaderFor(framing.value));
    }
  }

  lemma TakeFinalOk(c: Conn, r: Messages.Response, persistent: bool, framing: Option<Bodies.Framing>)
    requires AtHead(c) && c.role == Client
    ensures PollOk(TakeFinal(c, r, persistent, framing))
  {
    var event := c.FinalEvent(r);
    var next := ProcessEvent(c.state, Server, event);
    if next.Some? {
      ServerHeadState(c.state, event, !persistent);
      var t := if persistent then next.value else DisableKeepAlive(next.value);
      var d := RecordResponse(c.(state := t)).(peerVersion := Some(r.version));
      assert HeadTaken(d);
      BeginResponseOk(d, r, framing);
    }
  }

  lemma AcceptResponseOk(c: Conn, r: Messages.Response, s: Scanned)
    requires AtHead(c) && c.role == Client
    ensures PollOk(AcceptResponse(c, r, s))
  {
    if c.Local() != Idle {
      if r.Informational() {
        var event := c.InformationalKind(r);
        if event.Some? {
          TakeInformationalOk(c, r, event.value, s.Frame(r.version, true).None?);
        }
      } else {
        TakeFinalOk(c, r, s.Persistent(r.version), s.Frame(r.version, true));
      }
    }
  }

  lemma PastSectionInv(c: Conn, end: nat)
    requires Inv(c) && c.held == 0 && end <= |c.input|
    requires c.Remote() == SendBody ==> c.cycle.reader == Reader.Chunked(Trailers)
    ensures Inv(PastSection(c, end))
  {
  }

  lemma ParseRequestHeadOk(env: Env, d: Conn)
    requires Inv(d) && d.held == 0 && d.role == Server && (d.Remote() == Idle || d.Remote() == State.SendResponse)
    ensures PollOk(ParseRequestHead(env, d))
  {
    WaitOk(d, true);
    var parsed := env.parseRequest(Section(d), d.limits.maxCount);
    if parsed.Complete? {
      var r := parsed.value;
      PastSectionInv(d, parsed.end);
      AcceptRequestOk(PastSection(d, parsed.end), r, FieldsOf(env.validHost, r.headers), env.validTarget(r.verb, r.target));
    }
  }

  lemma TakeResponseHeadOk(d: Conn, end: nat, head: Messages.Head, s: Scanned)
    requires Inv(d) && d.held == 0 && d.role == Client && (d.Remote() == Idle || d.Remote() == State.SendResponse)
    requires end <= |d.input|
    ensures PollOk(TakeResponseHead(d, end, head, s))
  {
    var e := if head.dropped then d.NoKeepAlive() else d;
    DisableInv(d);
    StateDisableInv(d.state);
    PastSectionInv(e, end);
    AcceptResponseOk(PastSection(e, end), head.response, s);
  }

  lemma ParseResponseHeadOk(env: Env, d: Conn)
    requires Inv(d) && d.held == 0 && d.role == Client && (d.Remote() == Idle || d.Remote() == State.SendResponse)
    ensures PollOk(ParseResponseHead(env, d))
  {
    WaitOk(d, true);
    var parsed := env.parseResponse(Section(d), d.limits.maxCount, d.lenient);
    if parsed.Complete? {
      TakeResponseHeadOk(d, parsed.end, parsed.value, FieldsOf(env.validHost, parsed.value.response.headers));
    }
  }

  lemma ReadHeadOk(env: Env, c: Conn)
    requires Inv(c) && c.held == 0 && (c.Remote() == Idle || c.Remote() == State.SendResponse)
    ensures PollOk(ReadHead(env, c))
  {
    var d := SectionDue(c, true).0;
    SectionDueInv(c, true);
    WaitOk(d, true);
    if d.role == Server {
      ParseRequestHeadOk(env, d);
    } else {
      ParseResponseHeadOk(env, d);
    }
  }

  lemma ParseTrailersOk(env: Env, d: Conn)
    requires Inv(d) && d.held == 0 && d.Remote() == SendBody && d.cycle.reader == Reader.Chunked(Trailers)
    ensures PollOk(ParseTrailers(env, d))
    ensures ParseTrailers(env, d).1 != Fault400(WrongState)
  {
    WaitOk(d, false);
    var parsed := env.parseTrailers(Section(d), d.limits.maxCount, d.role == Client);
    if parsed.Complete? {
      PastSectionInv(d, parsed.end);
      FinishPeerOk(PastSection(d, parsed.end), parsed.value);
    }
  }

  lemma ReadTrailersOk(env: Env, c: Conn)
    requires Inv(c) && c.held == 0 && c.Remote() == SendBody
    requires c.cycle.reader == Reader.Chunked(Trailers)
    ensures PollOk(ReadTrailers(env, c))
    ensures ReadTrailers(env, c).1 != Fault400(WrongState)
  {
    var d := SectionDue(c, false).0;
    SectionDueInv(c, false);
    WaitOk(d, false);
    ParseTrailersOk(env, d);
  }

  /** Extension bytes of accepted lines stay within the limit. */
  lemma {:induction false} PullKeepsExt(max: nat, body: Bodies.Body, input: bytes)
    requires InBody(body.reader) && body.ext <= max
    ensures var p := PullBody(max, body, input);
            && (!(p.got.Ended? && p.got.stop.Broken?) ==> p.body.ext <= max)
            && (p.body.reader.CloseDelimited? ==> body.reader.CloseDelimited?)
            && !p.body.reader.Head?
    decreases |input|
  {
    if body.reader.Chunked? {
      var chunk := body.reader.chunk;
      if chunk.Size? {
        var r := ReadLine(max, body.ext, chunk.scanned, input);
        if r.Line? {
          PullKeepsExt(max, Bodies.Body(AfterLine(r.size), r.ext), input[r.end..]);
        }
      } else if chunk.DataEnd? && |input| >= 2 && input[..2] == CRLF {
        PullKeepsExt(max, body.(reader := Reader.Chunked(Size(0))), input[2..]);
      }
    }
  }

  /** A pull stops at trailers exactly when it leaves the reader there. */
  lemma {:induction false} PullProgress(max: nat, body: Bodies.Body, input: bytes)
    requires InBody(body.reader)
    ensures var p := PullBody(max, body, input);
            && (p.got == Ended(AtTrailers) <==> p.body.reader == Reader.Chunked(Trailers))
            && (body.reader == Reader.Chunked(Trailers) ==> p == Pulled(body, 0, Ended(AtTrailers)))
    decreases |input|
  {
    if body.reader.Chunked? {
      var chunk := body.reader.chunk;
      if chunk.Size? {
        var r := ReadLine(max, body.ext, chunk.scanned, input);
        if r.Line? {
          PullProgress(max, Bodies.Body(AfterLine(r.size), r.ext), input[r.end..]);
        }
      } else if chunk.DataEnd? && |input| >= 2 && input[..2] == CRLF {
        PullProgress(max, body.(reader := Reader.Chunked(Size(0))), input[2..]);
      }
    }
  }

  /** Replacing the decoder and the input within a body keeps everything else. */
  lemma DecoderInv(c: Conn, reader: Reader, ext: nat, input: bytes, progress: Progress)
    requires Inv(c) && c.held == 0 && c.Remote() == SendBody
    requires InBody(reader) && ScanOk(reader, input) && ext <= c.limits.maxHead
    requires reader.CloseDelimited? ==> c.cycle.reader.CloseDelimited?
    requires progress == FRESH || (progress.Within(input) && reader == Reader.Chunked(Trailers))
    ensures Inv(c.(input := input, cycle := c.cycle.(reader := reader, ext := ext, progress := progress)))
  {
  }

  /** What one pull leaves of the decoder, before its event is processed. */
  ghost predicate PullLeaves(c: Conn, p: Pulled)
    requires p.skip <= |c.input|
  {
    var d := AfterPull(c, p);
    match p.got
    case Piece(count, _, _) => count <= |d.input| && Inv(d.(input := d.input[count..]))
    case Ended(stop) =>
      && (!stop.Broken? ==> Inv(d))
      && (stop == AtTrailers ==> d.cycle.reader == Reader.Chunked(Trailers))
  }

  /** Facts about one pull that do not mention what it decodes. */
  ghost predicate PullSane(max: nat, body: Bodies.Body, input: bytes, p: Pulled) {
    && InBody(p.body.reader) && p.skip <= |input|
    && (p.got.Piece? ==>
          && p.skip + p.got.count <= |input|
          && ScanOk(p.body.reader, input[p.skip + p.got.count..])
          && p.body.ext <= max)
    && (p.got.Ended? && !p.got.stop.Broken? ==> ScanOk(p.body.reader, input[p.skip..]) && p.body.ext <= max)
    && (p.body.reader.CloseDelimited? ==> body.reader.CloseDelimited?)
    && (p.got == Ended(AtTrailers) <==> p.body.reader == Reader.Chunked(Trailers))
    && (body.reader == Reader.Chunked(Trailers) ==> p == Pulled(body, 0, Ended(AtTrailers)))
  }

  lemma PullScans(max: nat, body: Bodies.Body, input: bytes)
    requires InBody(body.reader) && ScanOk(body.reader, input)
    ensures var p := PullBody(max, body, input);
            && (p.got.Piece? ==> ScanOk(p.body.reader, input[p.skip + p.got.count..]))
            && (p.got.Ended? && !p.got.stop.Broken? ==> ScanOk(p.body.reader, input[p.skip..]))
  {
    PullIsDecode(max, body, input);
  }

  lemma PullIsSane(max: nat, body: Bodies.Body, input: bytes)
    requires InBody(body.reader) && ScanOk(body.reader, input) && body.ext <= max
    ensures PullSane(max, body, input, PullBody(max, body, input))
  {
    PullScans(max, body, input);
    PullKeepsExt(max, body, input);
    PullProgress(max, body, input);
  }

  lemma SanePullLeaves(c: Conn, p: Pulled)
    requires Inv(c) && c.held == 0 && c.Remote() == SendBody
    requires PullSane(c.limits.maxHead, Bodies.Body(c.cycle.reader, c.cycle.ext), c.input, p)
    ensures PullLeaves(c, p)
  {
    var d := AfterPull(c, p);
    if p.got.Piece? {
      assert c.input[p.skip..][p.got.count..] == c.input[p.skip + p.got.count..];
      DecoderInv(c, p.body.reader, p.body.ext, c.input[p.skip + p.got.count..], d.cycle.progress);
    } else if !p.got.stop.Broken? {
      DecoderInv(c, p.body.reader, p.body.ext, c.input[p.skip..], d.cycle.progress);
    }
  }

  lemma {:induction false} PullFault(max: nat, body: Bodies.Body, input: bytes)
    requires InBody(body.reader)
    ensures PullBody(max, body, input).got != Ended(Broken(WrongState))
    decreases |input|
  {
    if body.reader.Chunked? {
      var chunk := body.reader.chunk;
      if chunk.Size? {
        var r := ReadLine(max, body.ext, chunk.scanned, input);
        if r.Line? {
          PullFault(max, Bodies.Body(AfterLine(r.size), r.ext), input[r.end..]);
        }
      } else if chunk.DataEnd? && |input| >= 2 && input[..2] == CRLF {
        PullFault(max, body.(reader := Reader.Chunked(Size(0))), input[2..]);
      }
    }
  }

  lemma AfterPullInv(c: Conn)
    requires Inv(c) && c.held == 0 && c.Remote() == SendBody
    ensures PullLeaves(c, Pull(c)) && Pull(c).got != Ended(Broken(WrongState))
  {
    var body := Bodies.Body(c.cycle.reader, c.cycle.ext);
    PullIsSane(c.limits.maxHead, body, c.input);
    PullFault(c.limits.maxHead, body, c.input);
    SanePullLeaves(c, PullBody(c.limits.maxHead, body, c.input));
  }

  lemma PeerDataOk(c: Conn, count: nat, first: bool, last: bool)
    requires count <= |c.input| && Inv(c.(input := c.input[count..])) && c.held == 0 && c.Remote() == SendBody
    ensures PollOk(PeerData(c, count, first, last))
    ensures PeerData(c, count, first, last).1 == DataPolled(count, first, last)
  {
  }

  lemma AfterBodyOk(env: Env, d: Conn, got: Got)
    requires d.held == 0 && d.Remote() == SendBody && got != Ended(Broken(WrongState))
    requires got.Piece? ==> got.count <= |d.input| && Inv(d.(input := d.input[got.count..]))
    requires got.Ended? && !got.stop.Broken? ==> Inv(d)
    requires got.Ended? && got.stop.Broken? ==>
               StateInv(d.state) && WriterInv(d) && OfferInv(d) && InBody(d.cycle.reader)
    requires got == Ended(AtTrailers) ==> d.cycle.reader == Reader.Chunked(Trailers)
    ensures PollOk(AfterBody(env, d, got))
    ensures AfterBody(env, d, got).1 != Fault400(WrongState)
  {
    match got
    case Piece(count, first, last) => PeerDataOk(d, count, first, last);
    case Ended(Finished) => FinishPeerOk(d, []);
    case Ended(Starved) =>
      if d.cycle.reader.CloseDelimited? && d.eof {
        FinishPeerOk(d, []);
      }
    case Ended(Broken(fault)) =>
    case Ended(AtTrailers) => ReadTrailersOk(env, d);
  }

  lemma ReadBodyOk(env: Env, c: Conn)
    requires Inv(c) && c.held == 0 && c.Remote() == SendBody
    ensures PollOk(ReadBody(env, c))
    ensures ReadBody(env, c).1 != Fault400(WrongState)
  {
    AfterPullInv(c);
    AfterBodyOk(env, AfterPull(c, Pull(c)), Pull(c).got);
  }

  /** Dropping leading empty lines at EOF closes the peer. */
  lemma EmptyingOk(c: Conn)
    requires Inv(c) && c.held == 0 && c.Remote() == Idle
    ensures var (d, polled) := ClosePeer(c.(input := []));
            polled == ClosedPolled && Inv(d)
  {
    StateEventInv(c.state, c.role.Peer(), ClosedEvent);
  }

  lemma ReadPeerOk(env: Env, c: Conn)
    requires Inv(c) && c.held == 0 && IsReading(c.Remote())
    ensures PollOk(ReadPeer(env, c))
  {
    if c.Remote() == SendBody {
      ReadBodyOk(env, c);
    } else {
      if c.Remote() == Idle {
        EmptyingOk(c);
      }
      ReadHeadOk(env, c);
    }
  }

  lemma InnerOk(env: Env, c: Conn)
    requires Inv(c) && c.held == 0
    ensures PollOk(NextEventInner(env, c))
  {
    if (c.Remote() == Done || c.Remote() == MustClose) {
      ClosePeerOk(c);
    } else if IsReading(c.Remote()) {
      ReadPeerOk(env, c);
    }
  }

  lemma PollInv(env: Env, c: Conn)
    requires Inv(c) && c.held == 0
    ensures Inv(NextEvent(env, c).0)
  {
    InnerOk(env, c);
    var (d, polled) := NextEventInner(env, c);
    if polled.FaultPolled? {
      PoisonInv(d);
    }
  }

  // ----------------------------------------------------------------- send side

  lemma BeginRequestInv(c: Conn, r: Messages.Request, s: Scanned, framing: Bodies.Framing, upgrades: seq<bytes>)
    requires Inv(c) && c.role == Client
    ensures Inv(BeginRequest(c, r, s, framing, upgrades).0)
    ensures !BeginRequest(c, r, s, framing, upgrades).1 ==> BeginRequest(c, r, s, framing, upgrades).0 == c
  {
    var event := RequestProposals(r, upgrades);
    if ProcessEvent(c.state, Client, event).Some? {
      StateEventInv(c.state, Client, event);
      StateDisableInv(ProcessEvent(c.state, Client, event).value);
    }
  }

  lemma SendRequestInv(env: Env, c: Conn, r: Messages.Request)
    requires Inv(c)
    ensures Inv(SendRequest(env, c, r).0)
    ensures SendRequest(env, c, r).1.None? ==> SendRequest(env, c, r).0 == c
  {
    var s := FieldsOf(env.validHost, r.headers);
    var framing, listed := s.Frame(r.version, false), UpgradeProtocols(r.headers);
    if c.role == Client && framing.Some? && listed.Some? {
      BeginRequestInv(c, r, s, framing.value, if r.version == Http11 then listed.value else []);
    }
  }

  /** A server that has begun a final response, or a tunnel, or sent a 1xx. */
  lemma ServerSendState(s: ConnectionState, event: StateEvent, off: bool)
    requires StateInv(s) && s.server != Error
    requires (event == InformationalEvent || event == SwitchEvent(Upgrade) || event == SwitchEvent(Connect) || event == ResponseEvent)
    requires ProcessEvent(s, Server, event).Some?
    ensures (s.server == Idle || s.server == State.SendResponse)
    ensures var u := ProcessEvent(s, Server, event).value;
            var t := if off then DisableKeepAlive(u) else u;
            && StateInv(t)
            && (t.client == SendBody <==> s.client == SendBody)
            && ((t.client == Idle || t.client == State.SendResponse) ==> t.client == s.client)
            && (event == InformationalEvent ==> t.server == s.server == State.SendResponse && t.proposals == s.proposals)
            && (event == ResponseEvent ==> t.server == SendBody)
            && (event.SwitchEvent? ==> t.server == SwitchedProtocol)
  {
  }

  lemma CommitInformationalInv(c: Conn, status: nat, event: StateEvent)
    requires Inv(c) && c.role == Server
    requires event == InformationalEvent || (event == SwitchEvent(Upgrade) && !c.cycle.continueFirst)
    ensures Inv(CommitInformational(c, status, event).0)
    ensures !CommitInformational(c, status, event).1 ==> CommitInformational(c, status, event).0 == c
  {
    if ProcessEvent(c.state, Server, event).Some? {
      ServerSendState(c.state, event, false);
    }
  }

  lemma SendInformationalInv(env: Env, c: Conn, r: Messages.Response)
    requires Inv(c)
    ensures Inv(SendInformational(env, c, r).0)
    ensures SendInformational(env, c, r).1.None? ==> SendInformational(env, c, r).0 == c
  {
    var event := c.InformationalKind(r);
    if c.role == Server && event.Some? {
      CommitInformationalInv(c, r.status, event.value);
    }
  }

  lemma CommitHeadInv(c: Conn, r: Messages.Response, plan: Plan, close: bool)
    requires Inv(c) && c.role == Server
    ensures Inv(CommitHead(c, r, plan, close).0)
    ensures CommitHead(c, r, plan, close).1.None? ==> CommitHead(c, r, plan, close).0 == c
  {
    var event := c.FinalEvent(r);
    if ProcessEvent(c.state, Server, event).Some? {
      ServerSendState(c.state, event, true);
      ServerSendState(c.state, event, false);
    }
  }

  lemma SendFinalInv(env: Env, c: Conn, r: Messages.Response)
    requires Inv(c)
    ensures Inv(SendFinal(env, c, r).0)
    ensures SendFinal(env, c, r).1.None? ==> SendFinal(env, c, r).0 == c
  {
    var s := FieldsOf(env.validHost, r.headers);
    var plan := PlanResponse(c, r, s);
    if c.role == Server && plan.Some? {
      CommitHeadInv(c, r, plan.value, s.close);
    }
  }

  /** Body data is never refused once its framing is. */
  lemma SendDataInv(c: Conn, length: nat)
    requires Inv(c)
    ensures Inv(SendDataFraming(c, length).0)
    ensures SendDataFraming(c, length).1.None? ==> SendDataFraming(c, length).0 == c
    ensures SendDataFraming(c, length).1.Some? <==>
            c.Local() == SendBody && (c.cycle.writer.value.Fixed? ==> length <= c.cycle.writer.value.length)
  {
  }

  lemma CommitEndInv(c: Conn)
    requires Inv(c)
    ensures Inv(CommitEnd(c).0)
    ensures !CommitEnd(c).1 ==> CommitEnd(c).0 == c
    ensures CommitEnd(c).1 <==> c.Local() == SendBody
  {
    if c.Local() == SendBody {
      StateEventInv(c.state, c.role, EndEvent);
    }
  }

  lemma EndInv(c: Conn, trailers: Headers)
    requires Inv(c)
    ensures Inv(EndOfMessage(c, trailers).0)
    ensures EndOfMessage(c, trailers).1.None? ==> EndOfMessage(c, trailers).0 == c
    ensures EndOfMessage(c, trailers).1.Some? <==>
            && c.Local() == SendBody && ValidTrailers(trailers)
            && EndText(c.cycle.writer.value, trailers).Some?
  {
    CommitEndInv(c);
  }

  // -------------------------------------------------------------- atomic sends

  /** What a send may have moved when it fails part of the way through. */
  predicate SameOutside(c: Conn, d: Conn) {
    d.(state := c.state, cycle := c.cycle) == c
  }

  lemma FinishCompleteInv(c: Conn, head: bytes, length: nat)
    requires Inv(c)
    ensures SameOutside(c, FinishComplete(c, head, length).0)
    ensures FinishComplete(c, head, length).1.Some? ==> Inv(FinishComplete(c, head, length).0)
  {
    if c.Local() != SwitchedProtocol {
      SendDataInv(c, length);
      EndInv(if length == 0 then c else SendDataFraming(c, length).0, []);
    }
  }

  lemma SendCompleteInv(saved: Conn, sent: (Conn, Option<bytes>), length: nat)
    requires Inv(saved) && Inv(sent.0) && SameOutside(saved, sent.0)
    ensures Inv(SendComplete(saved, sent, length).0)
    ensures SendComplete(saved, sent, length).1.None? ==> SendComplete(saved, sent, length).0 == saved
  {
    if sent.1.Some? {
      FinishCompleteInv(sent.0, sent.1.value, length);
    }
  }

  lemma SendRequestOutside(env: Env, c: Conn, r: Messages.Request)
    ensures SameOutside(c, SendRequest(env, c, r).0)
  {
  }

  lemma SendFinalOutside(env: Env, c: Conn, r: Messages.Response)
    ensures SameOutside(c, SendFinal(env, c, r).0)
  {
  }

  lemma WholeRequestInv(env: Env, c: Conn, r: Messages.Request, length: nat)
    requires Inv(c)
    ensures Inv(SendRequestWithBody(env, c, r, length).0)
    ensures SendRequestWithBody(env, c, r, length).1.None? ==> SendRequestWithBody(env, c, r, length).0 == c
  {
    var q := SizedRequest(r, length);
    SendRequestInv(env, c, q);
    SendRequestOutside(env, c, q);
    SendCompleteInv(c, SendRequest(env, c, q), length);
  }

  lemma WholeResponseInv(env: Env, c: Conn, r: Messages.Response, length: nat)
    requires Inv(c)
    ensures Inv(SendResponseWithBody(env, c, r, length).0)
    ensures SendResponseWithBody(env, c, r, length).1.None? ==> SendResponseWithBody(env, c, r, length).0 == c
  {
    var q := SizedResponse(c, r, length);
    SendFinalInv(env, c, q);
    SendFinalOutside(env, c, q);
    SendCompleteInv(c, SendFinal(env, c, q), length);
  }

  lemma CompleteOutside(saved: Conn, sent: (Conn, Option<bytes>), length: nat)
    requires SameOutside(saved, sent.0)
    ensures SameOutside(saved, SendComplete(saved, sent, length).0)
  {
  }

  lemma WholeRequestOutside(env: Env, c: Conn, r: Messages.Request, length: nat)
    ensures SameOutside(c, SendRequestWithBody(env, c, r, length).0)
  {
    SendRequestOutside(env, c, SizedRequest(r, length));
    CompleteOutside(c, SendRequest(env, c, SizedRequest(r, length)), length);
  }

  lemma SendInformationalOutside(env: Env, c: Conn, r: Messages.Response)
    ensures SameOutside(c, SendInformational(env, c, r).0)
  {
  }

  lemma WholeResponseOutside(env: Env, c: Conn, r: Messages.Response, length: nat)
    ensures SameOutside(c, SendResponseWithBody(env, c, r, length).0)
  {
    SendFinalOutside(env, c, SizedResponse(c, r, length));
    CompleteOutside(c, SendFinal(env, c, SizedResponse(c, r, length)), length);
  }

  lemma SendBodyOutside(c: Conn, data: bytes, trailers: Headers)
    ensures SameOutside(c, SendData(c, data).0) && SameOutside(c, EndOfMessage(c, trailers).0)
  {
  }

  /** No send touches anything but the joint state and the cycle. */
  lemma SendsStayInside(env: Env, c: Conn, op: Op)
    requires IsSend(op)
    ensures SameOutside(c, SendStep(env, c, op))
  {
    match op
    case Request(r) => SendRequestOutside(env, c, r);
    case WholeRequest(r, length) => WholeRequestOutside(env, c, r, length);
    case Informational(r) => SendInformationalOutside(env, c, r);
    case Response(r) => SendFinalOutside(env, c, r);
    case WholeResponse(r, length) => WholeResponseOutside(env, c, r, length);
    case Body(data) => SendBodyOutside(c, data, []);
    case Finish(trailers) => SendBodyOutside(c, [], trailers);
  }

  // ---------------------------------------------------------------------- runs

  lemma NextCycleInv(c: Conn)
    requires Inv(c)
    ensures Inv(StartNextCycle(c).0)
  {
    DisableInv(c);
  }

  lemma ShutInv(c: Conn)
    requires Inv(c)
    ensures Inv(Close(c).0)
    ensures !Close(c).1 ==> Close(c).0 == c
  {
    if ProcessEvent(c.state, c.role, ClosedEvent).Some? {
      StateEventInv(c.state, c.role, ClosedEvent);
    }
  }

  lemma SendStepInv(env: Env, c: Conn, op: Op)
    requires Inv(c) && IsSend(op)
    ensures Inv(SendStep(env, c, op))
  {
    match op
    case Request(r) => SendRequestInv(env, c, r);
    case WholeRequest(r, length) => WholeRequestInv(env, c, r, length);
    case Informational(r) => SendInformationalInv(env, c, r);
    case Response(r) => SendFinalInv(env, c, r);
    case WholeResponse(r, length) => WholeResponseInv(env, c, r, length);
    case Body(data) => SendDataInv(c, |data|);
    case Finish(trailers) => EndInv(c, trailers);
  }

  lemma CallStepInv(env: Env, c: Conn, op: Op)
    requires Inv(c) && !IsSend(op) && Allowed(c, op)
    ensures Inv(CallStep(env, c, op))
  {
    match op
    case Receive(data) => ReceiveInv(c, data);
    case Hold(count) => HoldInv(c, count);
    case InPlace(count) => InPlaceInv(c, count);
    case Poll => PollInv(env, c);
    case NextCycle => NextCycleInv(c);
    case Shut => ShutInv(c);
  }

  /** Every call keeps the invariant. */
  lemma StepInv(env: Env, c: Conn, op: Op)
    requires Inv(c) && Allowed(c, op)
    ensures Inv(Step(env, c, op))
  {
    if IsSend(op) {
      SendStepInv(env, c, op);
    } else {
      CallStepInv(env, c, op);
    }
  }

  /** A send that is refused. */
  predicate Refused(env: Env, c: Conn, op: Op)
    requires IsSend(op)
  {
    match op
    case Request(r) => SendRequest(env, c, r).1.None?
    case WholeRequest(r, length) => SendRequestWithBody(env, c, r, length).1.None?
    case Informational(r) => SendInformational(env, c, r).1.None?
    case Response(r) => SendFinal(env, c, r).1.None?
    case WholeResponse(r, length) => SendResponseWithBody(env, c, r, length).1.None?
    case Body(data) => SendData(c, data).1.None?
    case Finish(trailers) => EndOfMessage(c, trailers).1.None?
  }

  /** A refused send leaves the whole connection as it was, also part of the way through. */
  lemma RefusedSendsChangeNothing(env: Env, c: Conn, op: Op)
    requires Inv(c) && IsSend(op) && Refused(env, c, op)
    ensures SendStep(env, c, op) == c && Step(env, c, op) == c
  {
    match op
    case Request(r) => SendRequestInv(env, c, r);
    case WholeRequest(r, length) => WholeRequestInv(env, c, r, length);
    case Informational(r) => SendInformationalInv(env, c, r);
    case Response(r) => SendFinalInv(env, c, r);
    case WholeResponse(r, length) => WholeResponseInv(env, c, r, length);
    case Body(data) => SendDataInv(c, |data|);
    case Finish(trailers) => EndInv(c, trailers);
  }

  /** A run in which held bytes are always handed over before a poll. */
  ghost predicate Disciplined(env: Env, c: Conn, ops: seq<Op>)
    requires Inv(c)
    decreases |ops|
  {
    ops == [] ||
    (Allowed(c, ops[0]) && (StepInv(env, c, ops[0]); Disciplined(env, Step(env, c, ops[0]), ops[1..])))
  }

  ghost function Run(env: Env, c: Conn, ops: seq<Op>): (r: Conn)
    requires Inv(c) && Disciplined(env, c, ops)
    ensures Inv(r)
    decreases |ops|
  {
    if ops == [] then c
    else
      StepInv(env, c, ops[0]);
      Run(env, Step(env, c, ops[0]), ops[1..])
  }

  /**
   Every run from a new connection keeps the coupling of state, writer, reader,
   held bytes and offers.
   */
  lemma RunsKeepInv(env: Env, role: Role, limits: Limits, lenient: bool, ops: seq<Op>)
    ensures Inv(NewConn(role, limits, lenient))
    ensures Disciplined(env, NewConn(role, limits, lenient), ops) ==> Inv(Run(env, NewConn(role, limits, lenient), ops))
  {
    NewInv(role, limits, lenient);
  }

  /** Payload, ends and trailers the decoder yields are never refused by the joint state. */
  lemma DecodedEventIsAccepted(env: Env, c: Conn)
    requires Inv(c) && c.held == 0 && c.Remote() == SendBody
    ensures NextEventInner(env, c).1 != Fault400(WrongState)
  {
    ReadBodyOk(env, c);
  }

  /** A validated switch is never refused: it names a kind this cycle's request offered. */
  lemma ValidatedSwitchIsAccepted(c: Conn, r: Messages.Response)
    requires Inv(c) && c.state.server == State.SendResponse
    ensures c.InformationalKind(r) == Some(SwitchEvent(Upgrade)) ==>
              ProcessEvent(c.state, Server, SwitchEvent(Upgrade)).Some?
    ensures c.OpensTunnel(r) ==> ProcessEvent(c.state, Server, c.FinalEvent(r)).Some?
  {
    if c.InformationalKind(r) == Some(SwitchEvent(Upgrade)) {
      var selected := UpgradeProtocols(r.headers).value;
      assert exists j :: 0 <= j < |c.cycle.offers| && ProtocolMatches(c.cycle.offers[j], selected[0]);
    }
  }
}
