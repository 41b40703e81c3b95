/** Whether a connection persists: what heads announce, and what reuse means. */
module Persistence {
  import opened States
  import opened Bytes
  import opened Bodies
  import opened Payload
  import opened Fields
  import opened Options
  import opened Messages
  import opened Conn
  import opened Runs

  // -------------------------------------------------------- close announcement

  predicate IsFramingField(f: Field) {
    f == Field(CONTENT_LENGTH_NAME, ZERO) || f == Field(TRANSFER_ENCODING_NAME, CHUNKED)
  }

  predicate IsBase(h: Headers, base: Headers) {
    base == h || base == Without(h, TRANSFER_ENCODING)
  }

  /** What planning a response may do to its headers. */
  predicate Reframed(h: Headers, g: Headers) {
    IsBase(h, g) || (g != [] && IsFramingField(g[|g| - 1]) && IsBase(h, g[..|g| - 1]))
  }

  lemma PushReframes(h: Headers, base: Headers, f: Field)
    requires IsFramingField(f) && IsBase(h, base)
    ensures Reframed(h, base + [f])
  {
    assert (base + [f])[..|base|] == base;
  }

  lemma PlanReframes(c: Conn, r: Messages.Response, s: Scanned)
    requires PlanResponse(c, r, s).Some?
    ensures Reframed(r.headers, PlanResponse(c, r, s).value.headers)
  {
    var h := r.headers;
    PushReframes(h, h, Field(CONTENT_LENGTH_NAME, ZERO));
    PushReframes(h, Without(h, TRANSFER_ENCODING), Field(CONTENT_LENGTH_NAME, ZERO));
    PushReframes(h, h, Field(TRANSFER_ENCODING_NAME, CHUNKED));
  }

  lemma FramingNames()
    ensures EqIgnoreCase(CONTENT_LENGTH_NAME, CONTENT_LENGTH)
    ensures EqIgnoreCase(TRANSFER_ENCODING_NAME, TRANSFER_ENCODING)
    ensures !EqIgnoreCase(TRANSFER_ENCODING, CONNECTION) && !EqIgnoreCase(CONTENT_LENGTH, CONNECTION)
  {
  }

  lemma FramingFieldIsOther(base: Headers, f: Field, name: bytes)
    requires IsFramingField(f)
    requires !EqIgnoreCase(TRANSFER_ENCODING, name) && !EqIgnoreCase(CONTENT_LENGTH, name)
    ensures GetAll(base + [f], name) == GetAll(base, name)
  {
    GetAllSnoc(base, f, name);
    FramingNames();
    SameName(CONTENT_LENGTH_NAME, CONTENT_LENGTH, name);
    SameName(TRANSFER_ENCODING_NAME, TRANSFER_ENCODING, name);
  }

  lemma BaseKeeps(h: Headers, base: Headers, name: bytes)
    requires IsBase(h, base) && !EqIgnoreCase(TRANSFER_ENCODING, name)
    ensures GetAll(base, name) == GetAll(h, name)
  {
    WithoutGetAll(h, TRANSFER_ENCODING, name);
  }

  /** Adding or dropping framing fields leaves every other field alone. */
  lemma ReframingKeeps(h: Headers, g: Headers, name: bytes)
    requires Reframed(h, g)
    requires !EqIgnoreCase(TRANSFER_ENCODING, name) && !EqIgnoreCase(CONTENT_LENGTH, name)
    ensures GetAll(g, name) == GetAll(h, name)
  {
    if IsBase(h, g) {
      BaseKeeps(h, g, name);
    } else {
      var base, f := g[..|g| - 1], g[|g| - 1];
      assert g == base + [f];
      BaseKeeps(h, base, name);
      FramingFieldIsOther(base, f, name);
    }
  }

  lemma PlanKeepsConnection(c: Conn, r: Messages.Response, s: Scanned)
    requires PlanResponse(c, r, s).Some?
    ensures GetAll(PlanResponse(c, r, s).value.headers, CONNECTION) == GetAll(r.headers, CONNECTION)
  {
    PlanReframes(c, r, s);
    FramingNames();
    ReframingKeeps(r.headers, PlanResponse(c, r, s).value.headers, CONNECTION);
  }

  predicate Announces(head: Messages.Response) {
    HasToken(head.headers, CONNECTION, CLOSE)
  }

  lemma OptionAnnounces(c: Conn, r: Messages.Response, headers: Headers, keepAlive: bool)
    requires !c.OpensTunnel(r)
    requires keepAlive ==> !HasToken(headers, CONNECTION, CLOSE)
    ensures HasToken(PersistenceHeaders(c, r, headers, keepAlive), CONNECTION, CLOSE) <==> !keepAlive
  {
    SetConnectionOptionIsExact(headers, CLOSE);
    SetConnectionOptionIsExact(headers, KEEP_ALIVE);
    assert KEEP_ALIVE != CLOSE;
  }

  /** The state in which a head is committed. */
  lemma CommitState(c: Conn, r: Messages.Response, plan: Plan, close: bool)
    requires Inv(c) && c.role == Server && CommitHead(c, r, plan, close).1.Some? && !c.OpensTunnel(r)
    ensures var d := CommitHead(c, r, plan, close).0;
            && d.state.server == SendBody
            && (close ==> !d.state.keepAlive)
            && (d.KeepAlive() <==> d.state.keepAlive && c.state.client != Closed)
  {
    ServerSendState(c.state, ResponseEvent, false);
    ServerSendState(c.state, ResponseEvent, true);
  }

  /** The announcement follows the keep-alive flag exactly. */
  lemma CommitAnnounces(c: Conn, r: Messages.Response, s: Scanned)
    requires Inv(c) && c.role == Server && !c.OpensTunnel(r) && SendHead(c, r, s).1.Some?
    requires s.close == HasToken(r.headers, CONNECTION, CLOSE)
    ensures var (d, head) := SendHead(c, r, s);
            && (Announces(head.value) <==> !d.state.keepAlive)
            && (d.KeepAlive() <==> d.state.keepAlive && c.state.client != Closed)
            && d.state.server == SendBody
  {
    var plan := PlanResponse(c, r, s).value;
    PlanKeepsConnection(c, r, s);
    CommitState(c, r, plan, s.close);
    var d := CommitHead(c, r, plan, s.close).0;
    OptionAnnounces(c, r, plan.headers, d.state.keepAlive);
  }

  lemma ScanClose(validHost: bytes -> bool, h: Headers)
    ensures FieldsOf(validHost, h).close == HasToken(h, CONNECTION, CLOSE)
  {
  }

  /** Keep-alive is off already, or this head turns it off itself. */
  predicate ClosesAnyway(c: Conn, plan: Plan, close: bool) {
    !c.state.keepAlive || c.state.proposals.connect || plan.framing.CloseDelimited? || close
  }

  /** To a client that has closed, the head alone decides the keep-alive flag. */
  lemma ClosedClientState(c: Conn, r: Messages.Response, plan: Plan, close: bool)
    requires Inv(c) && c.role == Server && CommitHead(c, r, plan, close).1.Some? && !c.OpensTunnel(r)
    requires c.state.client == Closed
    ensures CommitHead(c, r, plan, close).0.state.keepAlive <==> !ClosesAnyway(c, plan, close)
  {
    var next := ProcessEvent(c.state, Server, ResponseEvent).value;
    assert next.client == Closed;
    assert next.keepAlive <==> c.state.keepAlive && !c.state.proposals.connect;
  }

  /**
   The head of a final response that opens no tunnel has the `close` option if and
   only if persistence has ended, except to a client that has closed, where only
   `ClosesAnyway` makes it say so: otherwise persistence has ended in silence.
   */
  lemma CloseAnnouncementIsExact(env: Env, c: Conn, r: Messages.Response)
    requires Inv(c) && !c.OpensTunnel(r)
    requires SendHead(c, r, FieldsOf(env.validHost, r.headers)).1.Some?
    ensures var (d, head) := SendHead(c, r, FieldsOf(env.validHost, r.headers));
            && (c.state.client != Closed ==> (Announces(head.value) <==> !d.KeepAlive()))
            && (c.state.client == Closed ==> !d.KeepAlive() && (Announces(head.value) <==> !d.state.keepAlive))
    ensures var s := FieldsOf(env.validHost, r.headers);
            var (d, head) := SendHead(c, r, s);
            && PlanResponse(c, r, s).Some?
            && ((Announces(head.value) <==> !d.KeepAlive()) <==>
                  (c.state.client != Closed || ClosesAnyway(c, PlanResponse(c, r, s).value, s.close)))
  {
    var s := FieldsOf(env.validHost, r.headers);
    ScanClose(env.validHost, r.headers);
    CommitAnnounces(c, r, s);
    if c.state.client == Closed {
      ClosedClientState(c, r, PlanResponse(c, r, s).value, s.close);
    }
  }

  lemma {:induction false} KeptTwice(els: seq<bytes>, option: bytes)
    requires IsPersistence(option)
    ensures Kept(Kept(els) + [option]) == Kept(els)
  {
    var kept := Kept(els) + [option];
    if els == [] {
      assert kept == [option] && [option][1..] == [];
    } else if els[0] == [] || IsPersistence(els[0]) {
      KeptTwice(els[1..], option);
    } else {
      KeptTwice(els[1..], option);
      assert kept[1..] == Kept(els[1..]) + [option];
    }
  }

  lemma RewriteKeeps(h: Headers, option: bytes)
    requires option == CLOSE || option == KEEP_ALIVE
    ensures Kept(AllElements(GetAll(SetConnectionOption(h, option), CONNECTION), false)) ==
            Kept(AllElements(GetAll(h, CONNECTION), false))
  {
    RewrittenOptions(h, option);
    KeptTwice(AllElements(GetAll(h, CONNECTION), false), option);
  }

  /** The rewritten `Connection` keeps every other option, in order. */
  lemma OtherOptionsSurvive(env: Env, c: Conn, r: Messages.Response)
    requires Inv(c) && !c.OpensTunnel(r)
    requires SendHead(c, r, FieldsOf(env.validHost, r.headers)).1.Some?
    ensures var (d, head) := SendHead(c, r, FieldsOf(env.validHost, r.headers));
            Kept(AllElements(GetAll(head.value.headers, CONNECTION), false)) ==
            Kept(AllElements(GetAll(r.headers, CONNECTION), false))
  {
    var s := FieldsOf(env.validHost, r.headers);
    var plan := PlanResponse(c, r, s).value;
    PlanKeepsConnection(c, r, s);
    RewriteKeeps(plan.headers, CLOSE);
    RewriteKeeps(plan.headers, KEEP_ALIVE);
  }

  // --------------------------------------------------------------------- reuse

  /** In every state a run reaches, reuse succeeds exactly when both are done. */
  lemma ReuseSucceedsExactly(c: Conn)
    requires Inv(c)
    ensures StartNextCycle(c).1 <==>
            c.state.client == Done && c.state.server == Done && (c.role == Client ==> c.input == [])
    ensures StartNextCycle(c).1 ==> c.KeepAlive() && c.state.proposals.IsEmpty()
  {
  }

  lemma EventLoses(s: ConnectionState, role: Role, event: StateEvent)
    requires !Persists(s)
    ensures var next := ProcessEvent(s, role, event); next.Some? ==> !Persists(next.value)
  {
  }

  lemma SendRequestLoses(env: Env, c: Conn, r: Messages.Request)
    requires !c.KeepAlive()
    ensures !SendRequest(env, c, r).0.KeepAlive()
  {
    var listed := UpgradeProtocols(r.headers);
    if listed.Some? {
      EventLoses(c.state, c.role, RequestProposals(r, listed.value));
    }
    EventLoses(c.state, c.role, RequestProposals(r, []));
  }

  lemma SendInformationalLoses(env: Env, c: Conn, r: Messages.Response)
    requires !c.KeepAlive()
    ensures !SendInformational(env, c, r).0.KeepAlive()
  {
    EventLoses(c.state, c.role, InformationalEvent);
    EventLoses(c.state, c.role, SwitchEvent(Upgrade));
  }

  lemma SendFinalLoses(env: Env, c: Conn, r: Messages.Response)
    requires !c.KeepAlive()
    ensures !SendFinal(env, c, r).0.KeepAlive()
  {
    EventLoses(c.state, c.role, c.FinalEvent(r));
  }

  lemma SendDataLoses(c: Conn, length: nat)
    requires !c.KeepAlive()
    ensures !SendDataFraming(c, length).0.KeepAlive()
  {
    EventLoses(c.state, c.role, DataEvent);
  }

  lemma EndLoses(c: Conn, trailers: Headers)
    requires !c.KeepAlive()
    ensures !EndOfMessage(c, trailers).0.KeepAlive()
  {
    EventLoses(c.state, c.role, EndEvent);
  }

  lemma TakeInformationalLoses(c: Conn, r: Messages.Response, event: StateEvent, faulty: bool)
    requires !c.KeepAlive()
    ensures !TakeInformational(c, r, event, faulty).0.KeepAlive()
  {
    EventLoses(c.state, c.role.Peer(), event);
  }

  lemma TakeFinalLoses(c: Conn, r: Messages.Response, persistent: bool, framing: Option<Bodies.Framing>)
    requires !c.KeepAlive()
    ensures !TakeFinal(c, r, persistent, framing).0.KeepAlive()
  {
    EventLoses(c.state, c.role.Peer(), c.FinalEvent(r));
  }

  lemma AcceptLoses(c: Conn, r: Messages.Response, s: Scanned)
    requires !c.KeepAlive()
    ensures !AcceptResponse(c, r, s).0.KeepAlive()
  {
    var event, framing := c.InformationalKind(r), s.Frame(r.version, true);
    if event.Some? {
      TakeInformationalLoses(c, r, event.value, framing.None?);
    }
    TakeFinalLoses(c, r, s.Persistent(r.version), framing);
  }

  lemma TakeRequestLoses(c: Conn, r: Messages.Request, s: Scanned, framing: Bodies.Framing, upgrades: seq<bytes>)
    requires !c.KeepAlive()
    ensures !TakeRequest(c, r, s, framing, upgrades).0.KeepAlive()
  {
    EventLoses(c.state, c.role.Peer(), RequestProposals(r, upgrades));
  }

  lemma AcceptRequestLoses(c: Conn, r: Messages.Request, s: Scanned, validTarget: bool)
    requires !c.KeepAlive()
    ensures !AcceptRequest(c, r, s, validTarget).0.KeepAlive()
  {
    var framing := s.Frame(r.version, false);
    if framing.Some? {
      TakeRequestLoses(c, r, s, framing.value, ReceivedUpgrades(r, s));
    }
  }

  lemma ParseRequestHeadLoses(env: Env, d: Conn)
    requires !d.KeepAlive()
    ensures !ParseRequestHead(env, d).0.KeepAlive()
  {
    var parsed := env.parseRequest(Section(d), d.limits.maxCount);
    if parsed.Complete? {
      var r := parsed.value;
      AcceptRequestLoses(PastSection(d, parsed.end), r, FieldsOf(env.validHost, r.headers),
                         env.validTarget(r.verb, r.target));
    }
  }

  lemma TakeResponseHeadLoses(d: Conn, end: nat, head: Messages.Head, s: Scanned)
    requires !d.KeepAlive() && end <= |d.input|
    ensures !TakeResponseHead(d, end, head, s).0.KeepAlive()
  {
    AcceptLoses(PastSection(if head.dropped then d.NoKeepAlive() else d, end), head.response, s);
  }

  lemma ParseResponseHeadLoses(env: Env, d: Conn)
    requires !d.KeepAlive()
    ensures !ParseResponseHead(env, d).0.KeepAlive()
  {
    var parsed := env.parseResponse(Section(d), d.limits.maxCount, d.lenient);
    if parsed.Complete? {
      TakeResponseHeadLoses(d, parsed.end, parsed.value, FieldsOf(env.validHost, parsed.value.response.headers));
    }
  }

  lemma ReadHeadLoses(env: Env, c: Conn)
    requires !c.KeepAlive() && c.cycle.progress.Within(c.input)
    ensures !ReadHead(env, c).0.KeepAlive()
  {
    var d := SectionDue(c, true).0;
    ParseRequestHeadLoses(env, d);
    ParseResponseHeadLoses(env, d);
  }

  lemma FinishPeerLoses(c: Conn, trailers: Headers)
    requires !c.KeepAlive()
    ensures !FinishPeer(c, trailers).0.KeepAlive()
  {
    EventLoses(c.state, c.role.Peer(), EndEvent);
  }

  lemma PeerDataLoses(c: Conn, count: nat, first: bool, last: bool)
    requires !c.KeepAlive()
    ensures !PeerData(c, count, first, last).0.KeepAlive()
  {
    EventLoses(c.state, c.role.Peer(), DataEvent);
  }

  lemma ReadTrailersLoses(env: Env, c: Conn)
    requires !c.KeepAlive() && c.cycle.progress.Within(c.input)
    ensures !ReadTrailers(env, c).0.KeepAlive()
  {
    var d := SectionDue(c, false).0;
    var parsed := env.parseTrailers(Section(d), d.limits.maxCount, d.role == Client);
    if parsed.Complete? {
      FinishPeerLoses(PastSection(d, parsed.end), parsed.value);
    }
  }

  lemma AfterBodyLoses(env: Env, d: Conn, got: Got)
    requires !d.KeepAlive()
    requires got == Ended(AtTrailers) ==> d.cycle.progress.Within(d.input)
    requires got.Piece? ==> got.count <= |d.input|
    ensures !AfterBody(env, d, got).0.KeepAlive()
  {
    match got
    case Piece(count, first, last) => PeerDataLoses(d, count, first, last);
    case Ended(AtTrailers) => ReadTrailersLoses(env, d);
    case Ended(_) => FinishPeerLoses(d, []);
  }

  lemma ReadPeerLoses(env: Env, c: Conn)
    requires !c.KeepAlive() && Sound(c) && IsReading(c.Remote())
    ensures !ReadPeer(env, c).0.KeepAlive()
  {
    EventLoses(c.state, c.role.Peer(), ClosedEvent);
    if c.cycle.reader.Head? {
      ReadHeadLoses(env, c);
    } else {
      AfterBodyLoses(env, AfterPull(c, Pull(c)), Pull(c).got);
    }
  }

  lemma PollLoses(env: Env, c: Conn)
    requires !c.KeepAlive() && Sound(c)
    ensures !NextEvent(env, c).0.KeepAlive()
  {
    EventLoses(c.state, c.role.Peer(), ClosedEvent);
    if IsReading(c.Remote()) {
      ReadPeerLoses(env, c);
    }
  }

  lemma FinishCompleteLoses(c: Conn, head: bytes, length: nat)
    requires !c.KeepAlive()
    ensures !FinishComplete(c, head, length).0.KeepAlive()
  {
    SendDataLoses(c, length);
    EndLoses(c, []);
    EndLoses(SendDataFraming(c, length).0, []);
  }

  lemma CompleteLoses(saved: Conn, sent: (Conn, Option<bytes>), length: nat)
    requires !saved.KeepAlive() && !sent.0.KeepAlive()
    ensures !SendComplete(saved, sent, length).0.KeepAlive()
  {
    if sent.1.Some? {
      FinishCompleteLoses(sent.0, sent.1.value, length);
    }
  }

  lemma WholeRequestLoses(env: Env, c: Conn, r: Messages.Request, length: nat)
    requires !c.KeepAlive()
    ensures !SendRequestWithBody(env, c, r, length).0.KeepAlive()
  {
    var q := SizedRequest(r, length);
    SendRequestLoses(env, c, q);
    CompleteLoses(c, SendRequest(env, c, q), length);
  }

  lemma WholeResponseLoses(env: Env, c: Conn, r: Messages.Response, length: nat)
    requires !c.KeepAlive()
    ensures !SendResponseWithBody(env, c, r, length).0.KeepAlive()
  {
    var q := SizedResponse(c, r, length);
    SendFinalLoses(env, c, q);
    CompleteLoses(c, SendFinal(env, c, q), length);
  }

  lemma SendsLose(env: Env, c: Conn, op: Op)
    requires !c.KeepAlive() && IsSend(op)
    ensures !SendStep(env, c, op).KeepAlive()
  {
    match op
    case Request(r) => SendRequestLoses(env, c, r);
    case WholeRequest(r, length) => WholeRequestLoses(env, c, r, length);
    case Informational(r) => SendInformationalLoses(env, c, r);
    case Response(r) => SendFinalLoses(env, c, r);
    case WholeResponse(r, length) => WholeResponseLoses(env, c, r, length);
    case Body(data) => SendDataLoses(c, |data|);
    case Finish(trailers) => EndLoses(c, trailers);
  }

  lemma CallsLose(env: Env, c: Conn, op: Op)
    requires !c.KeepAlive() && Inv(c) && !IsSend(op)
    ensures !CallStep(env, c, op).KeepAlive()
  {
    match op
    case Receive(data) =>
    case Hold(count) =>
    case InPlace(count) => EventLoses(c.state, c.role.Peer(), DataEvent);
    case Poll => PollLoses(env, c);
    case NextCycle => ReuseSucceedsExactly(c);
    case Shut => EventLoses(c.state, c.role, ClosedEvent);
  }

  lemma StepLoses(env: Env, c: Conn, op: Op)
    requires !c.KeepAlive() && Inv(c)
    ensures !Step(env, c, op).KeepAlive()
  {
    if IsSend(op) {
      SendsLose(env, c, op);
    } else {
      CallsLose(env, c, op);
    }
  }

  /** Once lost, persistence is never regained, and no later call starts a cycle. */
  lemma {:induction false} LossIsForever(env: Env, c: Conn, ops: seq<Op>)
    requires Inv(c) && Disciplined(env, c, ops) && !c.KeepAlive()
    ensures !Run(env, c, ops).KeepAlive() && !StartNextCycle(Run(env, c, ops)).1
    decreases |ops|
  {
    if ops == [] {
      ReuseSucceedsExactly(c);
    } else {
      StepInv(env, c, ops[0]);
      StepLoses(env, c, ops[0]);
      LossIsForever(env, Step(env, c, ops[0]), ops[1..]);
    }
  }

  // --------------------------------------------------------- promised delivery

  /** The rest of a request body has been received already. */
  predicate Deliverable(c: Conn) {
    && Inv(c) && c.role == Server && c.state.client == SendBody
    && c.cycle.reader.Fixed? && c.cycle.reader.remaining <= c.held + |c.input|
  }

  /** Handing over held bytes makes progress and never fails. */
  lemma HandOverDelivers(c: Conn, count: nat)
    requires Deliverable(c) && 0 < count <= c.held
    ensures var (d, flags) := NextEventInPlace(c, count);
            && flags.Some? && Deliverable(d) && d.state == c.state
            && d.cycle.reader.remaining + count == c.cycle.reader.remaining
  {
    InPlaceInv(c, count);
  }

  /** The pull of a deliverable body: all that remains, or its end. */
  lemma DeliverablePull(c: Conn)
    requires Deliverable(c) && c.held == 0
    ensures var n := c.cycle.reader.remaining;
            && Pull(c).skip == 0
            && Pull(c).got == (if n > 0 then Piece(n, false, false) else Ended(Finished))
            && AfterPull(c, Pull(c)) == c.WithReader(Reader.Fixed(0))
  {
    assert c.input[0..] == c.input;
  }

  lemma DeliverableEvent(env: Env, c: Conn)
    requires Deliverable(c) && c.held == 0
    ensures var n, d := c.cycle.reader.remaining, c.WithReader(Reader.Fixed(0));
            if n > 0 then
              NextEventInner(env, c) == (d.(cycle := d.cycle.(waiting := false)), DataPolled(n, false, false))
            else
              NextEventInner(env, c) == FinishPeer(d, [])
  {
    DeliverablePull(c);
  }

  lemma EndIsAccepted(c: Conn)
    requires c.role == Server && c.state.client == SendBody
    ensures FinishPeer(c, []).1 == EndPolled([])
    ensures Some(FinishPeer(c, []).0.state) == ProcessEvent(c.state, Client, EndEvent)
  {
  }

  /** A poll yields the rest of the body, then its end; it never waits or fails. */
  lemma PollDelivers(env: Env, c: Conn)
    requires Deliverable(c) && c.held == 0
    ensures var (d, next) := NextEvent(env, c);
            if c.cycle.reader.remaining > 0 then
              && next == Content(c.input[..c.cycle.reader.remaining], false, false)
              && Deliverable(d) && d.state == c.state && d.cycle.reader.remaining == 0 && d.held == 0
            else
              && next == Other(EndPolled([]))
              && Some(d.state) == ProcessEvent(c.state, Client, EndEvent) && Inv(d)
    ensures NextEvent(env, c).0.cycle.writer == c.cycle.writer && NextEvent(env, c).0.role == Server
  {
    DeliverableEvent(env, c);
    PollInv(env, c);
    if c.cycle.reader.remaining == 0 {
      EndIsAccepted(c.WithReader(Reader.Fixed(0)));
    }
  }

  /** Drains a deliverable request: what is held, what is buffered, the end. */
  function Drain(env: Env, c: Conn): Conn
    requires Sound(c) && Sound(NextEventInPlace(c, c.held).0)
    requires Sound(NextEvent(env, NextEventInPlace(c, c.held).0).0)
  {
    var d := NextEventInPlace(c, c.held).0;
    var e := NextEvent(env, d).0;
    if d.cycle.reader == Reader.Fixed(0) then e else NextEvent(env, e).0
  }

  lemma DrainDelivers(env: Env, c: Conn)
    requires Deliverable(c)
    ensures Sound(NextEventInPlace(c, c.held).0)
    ensures Sound(NextEvent(env, NextEventInPlace(c, c.held).0).0)
    ensures Some(Drain(env, c).state) == ProcessEvent(c.state, Client, EndEvent)
    ensures Inv(Drain(env, c)) && Drain(env, c).cycle.writer == c.cycle.writer
    ensures Drain(env, c).role == Server
  {
    var d := NextEventInPlace(c, c.held).0;
    if c.held > 0 {
      HandOverDelivers(c, c.held);
    }
    assert Deliverable(d) && d.held == 0 && d.state == c.state && d.cycle.writer == c.cycle.writer;
    PollDelivers(env, d);
    var e := NextEvent(env, d).0;
    if d.cycle.reader.remaining > 0 {
      PollDelivers(env, e);
    }
  }

  lemma PromiseState(c: Conn, r: Messages.Response, plan: Plan, close: bool)
    requires Inv(c) && c.role == Server && !c.OpensTunnel(r) && c.state.client != Closed
    requires CommitHead(c, r, plan, close).1.Some? && CommitHead(c, r, plan, close).0.state.keepAlive
    requires Inv(CommitHead(c, r, plan, close).0)
    ensures var d := CommitHead(c, r, plan, close).0;
            Deliverable(d) || d.state.client == Done
  {
    ServerSendState(c.state, ResponseEvent, false);
  }

  /** A final head without `close` leaves a request that is done or deliverable. */
  lemma PromiseIsDeliverable(env: Env, c: Conn, r: Messages.Response)
    requires Inv(c) && !c.OpensTunnel(r) && c.state.client != Closed
    requires SendHead(c, r, FieldsOf(env.validHost, r.headers)).1.Some?
    requires !Announces(SendHead(c, r, FieldsOf(env.validHost, r.headers)).1.value)
    ensures var d := SendHead(c, r, FieldsOf(env.validHost, r.headers)).0;
            && Inv(d) && d.state.keepAlive && d.state.server == SendBody
            && (Deliverable(d) || d.state.client == Done)
  {
    var s := FieldsOf(env.validHost, r.headers);
    var plan := PlanResponse(c, r, s).value;
    ScanClose(env.validHost, r.headers);
    CommitAnnounces(c, r, s);
    CommitHeadInv(c, r, plan, s.close);
    PromiseState(c, r, plan, s.close);
  }

  /** Draining reaches the end of the request, and ending the response then frees the cycle. */
  ghost predicate PromiseHolds(env: Env, d: Conn)
    requires Inv(d)
  {
    if d.state.client == Done then CommitEnd(d).1 && StartNextCycle(CommitEnd(d).0).1
    else
      && Deliverable(d)
      && (DrainDelivers(env, d);
          var e := Drain(env, d);
          Inv(e) && e.state.client == Done && CommitEnd(e).1 && StartNextCycle(CommitEnd(e).0).1)
  }

  lemma EndingPersists(c: Conn)
    requires Inv(c) && c.role == Server && c.state.keepAlive
    requires c.state.client == Done && c.state.server == SendBody
    ensures CommitEnd(c).1 && StartNextCycle(CommitEnd(c).0).1
  {
  }

  lemma DeliverableIsKept(env: Env, d: Conn)
    requires Deliverable(d) && d.state.keepAlive && d.state.server == SendBody
    ensures PromiseHolds(env, d)
  {
    DrainDelivers(env, d);
    EndingPersists(Drain(env, d));
  }

  /**
   Promised persistence is deliverable: after a final head without `close`, the
   rest of the request is already here and draining it reaches its end, and
   once the response is ended too the connection starts its next cycle.
   */
  lemma PromiseIsKept(env: Env, c: Conn, r: Messages.Response)
    requires Inv(c) && !c.OpensTunnel(r) && c.state.client != Closed
    requires SendHead(c, r, FieldsOf(env.validHost, r.headers)).1.Some?
    requires !Announces(SendHead(c, r, FieldsOf(env.validHost, r.headers)).1.value)
    ensures var d := SendHead(c, r, FieldsOf(env.validHost, r.headers)).0;
            Inv(d) && PromiseHolds(env, d)
  {
    PromiseIsDeliverable(env, c, r);
    var d := SendHead(c, r, FieldsOf(env.validHost, r.headers)).0;
    if d.state.client == Done {
      EndingPersists(d);
    } else {
      DeliverableIsKept(env, d);
    }
  }
}
