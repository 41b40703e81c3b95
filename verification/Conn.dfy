/**
 One connection as a value: what each call of the engine makes of it.

 These functions are the specification of the methods of `Connection`; the
 run-level properties are proved about them.
 */
module Conn {
  import opened States
  import opened Bytes
  import opened Bodies
  import opened Payload
  import opened Buffers
  import opened Fields
  import opened Options
  import opened Messages

  datatype RequestKind = PlainKind | HeadKind | ConnectKind

  function KindOfMethod(verb: bytes): RequestKind {
    if verb == HEAD then HeadKind else if verb == CONNECT then ConnectKind else PlainKind
  }

  datatype Limits = Limits(maxHead: nat, maxCount: nat)

  /** State of one request/response cycle. */
  datatype Cycle = Cycle(
    progress: Progress,
    reader: Reader,
    writer: Option<Bodies.Framing>,
    ext: nat,
    kind: Option<RequestKind>,
    offers: seq<bytes>,
    waiting: bool,
    continueFirst: bool)

  const NEW_CYCLE := Cycle(FRESH, Reader.Head, None, 0, None, [], false, false)

  datatype Conn = Conn(
    role: Role,
    state: ConnectionState,
    limits: Limits,
    lenient: bool,
    input: bytes,
    held: nat,
    eof: bool,
    peerVersion: Option<Version>,
    cycle: Cycle)
  {
    function Local(): State {
      state.Of(role)
    }

    function Remote(): State {
      state.Of(role.Peer())
    }

    function WithReader(reader: Reader): Conn {
      this.(cycle := cycle.(reader := reader))
    }

    function NoKeepAlive(): Conn {
      this.(state := DisableKeepAlive(state))
    }

    /** The joint state still allows another exchange. */
    predicate KeepAlive() {
      Persists(state)
    }

    predicate KindIs(kind: RequestKind) {
      cycle.kind == Some(kind)
    }

    predicate OpensTunnel(r: Response) {
      KindIs(ConnectKind) && r.Success()
    }

    /** No body follows these responses: decided by status and request method alone. */
    predicate Bodyless(r: Response) {
      r.status == 204 || r.status == 304 || KindIs(HeadKind) || OpensTunnel(r)
    }

    function FinalEvent(r: Response): StateEvent {
      if OpensTunnel(r) then SwitchEvent(Connect) else ResponseEvent
    }

    predicate ValidUpgrade(r: Response) {
      && r.version == Http11
      && HasToken(r.headers, CONNECTION, UPGRADE)
      && var selected := UpgradeProtocols(r.headers);
      selected.Some? && selected.value != [] && AllOffered(cycle.offers, selected.value)
    }

    /** The event of a 1xx response; nothing for a 101 that selects no offer. */
    function InformationalKind(r: Response): Option<StateEvent> {
      if r.status != 101 then Some(InformationalEvent)
      else if !cycle.continueFirst && ValidUpgrade(r) then Some(SwitchEvent(SwitchKind.Upgrade))
      else None
    }
  }

  function NewConn(role: Role, limits: Limits, lenient: bool): Conn {
    Conn(role, INITIAL, limits, lenient, [], 0, false, None, NEW_CYCLE)
  }

  predicate IsReading(state: State) {
    state == Idle || state == State.SendResponse || state == SendBody
  }

  /** What the polling functions rely on to be defined. */
  predicate Sound(c: Conn) {
    && (!c.cycle.reader.Head? ==> InBody(c.cycle.reader))
    && (IsReading(c.Remote()) ==> c.cycle.progress.Within(c.input))
  }

  function AdvanceRole(c: Conn, role: Role, event: StateEvent): Option<Conn> {
    var next := ProcessEvent(c.state, role, event);
    if next.None? then None else Some(c.(state := next.value))
  }

  function RequestProposals(r: Request, upgrades: seq<bytes>): StateEvent {
    RequestEvent(SwitchProposals(r.verb == CONNECT, upgrades != []))
  }

  predicate ContentForbidden(verb: bytes, framing: Bodies.Framing) {
    framing != Bodies.Framing.Fixed(0) && (verb == CONNECT || verb == TRACE)
  }

  function RecordRequest(c: Conn, r: Request, s: Scanned, framing: Bodies.Framing, upgrades: seq<bytes>): Conn {
    var state := if s.Persistent(r.version) then c.state else DisableKeepAlive(c.state);
    var waiting := s.ExpectsContinue(r.version, framing);
    c.(state := state,
       cycle := c.cycle.(kind := Some(KindOfMethod(r.verb)),
                         waiting := waiting,
                         continueFirst := waiting && upgrades != [],
                         offers := upgrades))
  }

  function RecordInformational(c: Conn, status: nat): Conn {
    if status == 100 then c.(cycle := c.cycle.(waiting := false, continueFirst := false)) else c
  }

  function RecordResponse(c: Conn): Conn {
    c.(cycle := c.cycle.(waiting := false, continueFirst := false, offers := []))
  }

  // ---------------------------------------------------------------- receiving

  datatype PeerFault = PeerFault(fault: Fault, status: Option<nat>)

  datatype Polled =
    | RequestPolled(request: Request)
    | InformationalPolled(response: Response)
    | ResponsePolled(response: Response)
    | EndPolled(trailers: Headers)
    | ClosedPolled
    | DataPolled(count: nat, first: bool, last: bool)
    | NeedData
    | Paused
    | FaultPolled(error: PeerFault)

  /** Outcomes of reading a head, as opposed to a body. */
  predicate OfHead(polled: Polled) {
    !polled.DataPolled? && !polled.EndPolled? && !polled.ClosedPolled?
  }

  function Fault400(fault: Fault): Polled {
    FaultPolled(PeerFault(fault, Some(400)))
  }

  /** Input grows, or the stream ends when there is no data; false for data after the end. */
  function ReceiveData(c: Conn, data: bytes): (Conn, bool) {
    if c.eof && data != [] then (c, false)
    else if data == [] then
      var d := c.(eof := true);
      (if c.role == Client then d.NoKeepAlive() else d, true)
    else (c.(input := c.input + data), true)
  }

  /** How many body bytes the caller may keep instead of handing over. */
  function Room(c: Conn): Option<nat> {
    if c.Remote() != SendBody then None else PayloadRemaining(c.cycle.reader)
  }

  function HoldBodyData(c: Conn, count: nat): (Conn, bool) {
    var fits := count != 0 && !c.eof && c.input == [] && Room(c).Some? && c.held + count <= Room(c).value;
    (if fits then c.(held := c.held + count) else c, fits)
  }

  function PeerData(c: Conn, count: nat, first: bool, last: bool): (Conn, Polled) {
    var next := AdvanceRole(c, c.role.Peer(), DataEvent);
    if next.None? then (c, Fault400(WrongState))
    else (next.value.(cycle := next.value.cycle.(waiting := false)), DataPolled(count, first, last))
  }

  /** Hands `count` held bytes over to the decoder; nothing if fewer are held. */
  function NextEventInPlace(c: Conn, count: nat): (Conn, Option<(bool, bool)>) {
    if count == 0 || count > c.held then (c, None)
    else
      var m := Bodies.Advance(c.cycle.reader, count);
      var (d, polled) := PeerData(c.WithReader(m.reader), count, m.first, m.last);
      if !polled.DataPolled? then (d, None) else (d.(held := d.held - count), Some((m.first, m.last)))
  }

  function FinishPeer(c: Conn, trailers: Headers): (Conn, Polled) {
    var next := AdvanceRole(c, c.role.Peer(), EndEvent);
    if next.None? then (c, Fault400(WrongState)) else (next.value.WithReader(Reader.Head), EndPolled(trailers))
  }

  function ClosePeer(c: Conn): (Conn, Polled) {
    var next := AdvanceRole(c, c.role.Peer(), ClosedEvent);
    if next.None? then (c, Fault400(WrongState)) else (next.value, ClosedPolled)
  }

  function NeedDataOrEof(c: Conn): (Conn, Polled) {
    (c, if c.eof then Fault400(UnexpectedEof) else NeedData)
  }

  function Section(c: Conn): bytes {
    if |c.input| <= c.limits.maxHead then c.input else c.input[..c.limits.maxHead]
  }

  function SectionDue(c: Conn, skip: bool): (Conn, bool)
    requires c.cycle.progress.Within(c.input)
  {
    if c.eof || |c.input| > c.limits.maxHead then (c, true)
    else
      var (progress, due) := Due(c.cycle.progress, c.input, skip);
      (c.(cycle := c.cycle.(progress := progress)), due)
  }

  /** A sequence of bare LF and CRLF lines, perhaps none. */
  predicate OnlyEmptyLines(data: bytes) {
    data == []
    || (data[0] == LF && OnlyEmptyLines(data[1..]))
    || (|data| >= 2 && data[0] == CR && data[1] == LF && OnlyEmptyLines(data[2..]))
  }

  /** Past leading empty lines there is something, and no LF in it. */
  predicate StartLineUnfinished(data: bytes) {
    if data == [] then false
    else if data[0] == LF then StartLineUnfinished(data[1..])
    else if |data| >= 2 && data[0] == CR && data[1] == LF then StartLineUnfinished(data[2..])
    else LF !in data
  }

  function WaitForSection(c: Conn, skip: bool): (polled: (Conn, Polled))
    ensures OfHead(polled.1)
  {
    if |c.input| <= c.limits.maxHead then NeedDataOrEof(c)
    else if !skip then (c, Fault400(HeadTooLong))
    else (c, FaultPolled(PeerFault(HeadTooLong, Some(if StartLineUnfinished(Section(c)) then 414 else 431))))
  }

  /** Consumes a complete section. */
  function PastSection(c: Conn, end: nat): Conn
    requires end <= |c.input|
  {
    c.(input := c.input[end..], cycle := c.cycle.(progress := FRESH))
  }

  /** A request coding this engine does not decode is a 501, other faults a 400. */
  function FramingStatus(s: Scanned): nat {
    if s.codings.Some? && s.length.None?
       && s.codings.value.any && !s.codings.value.malformed
       && s.codings.value.lastChunked && !s.codings.value.chunkedBeforeLast
    then 501 else 400
  }

  function ReceivedUpgrades(r: Request, s: Scanned): seq<bytes> {
    if r.version == Http11 && s.upgrade && UpgradeProtocols(r.headers).Some?
    then UpgradeProtocols(r.headers).value else []
  }

  function TakeRequest(c: Conn, r: Request, s: Scanned, framing: Bodies.Framing, upgrades: seq<bytes>): (Conn, Polled) {
    var next := AdvanceRole(c, c.role.Peer(), RequestProposals(r, upgrades));
    if next.None? then (c, Fault400(WrongState))
    else
      var d := RecordRequest(next.value, r, s, framing, upgrades);
      (d.(peerVersion := Some(r.version)).WithReader(ReaderFor(framing)), RequestPolled(r))
  }

  /** Accepts a request head whose fields have been scanned. */
  function AcceptRequest(c: Conn, r: Request, s: Scanned, validTarget: bool): (polled: (Conn, Polled))
    ensures OfHead(polled.1)
  {
    var framing := s.Frame(r.version, false);
    if !validTarget || !s.HostOk(r.version) then (c, Fault400(BadRequest))
    else if framing.None? then
      (c, FaultPolled(PeerFault(BadFraming, Some(if r.version == Http10 then 400 else FramingStatus(s)))))
    else if ContentForbidden(r.verb, framing.value) then (c, Fault400(BadRequest))
    else TakeRequest(c, r, s, framing.value, ReceivedUpgrades(r, s))
  }

  function TakeInformational(c: Conn, r: Response, event: StateEvent, faulty: bool): (Conn, Polled) {
    var next := AdvanceRole(c, c.role.Peer(), event);
    if next.None? then (c, Fault400(WrongState))
    else
      var d := if faulty then next.value.NoKeepAlive() else next.value;
      (RecordInformational(d, r.status).(peerVersion := Some(r.version)), InformationalPolled(r))
  }

  function AcceptInformational(c: Conn, r: Response, s: Scanned): (Conn, Polled) {
    var event := c.InformationalKind(r);
    if event.None? then (c, FaultPolled(PeerFault(BadResponse, None)))
    else TakeInformational(c, r, event.value, s.Frame(r.version, true).None?)
  }

  /** The body of a response: none, or the one its framing delimits. */
  function BeginResponse(c: Conn, r: Response, framing: Option<Bodies.Framing>): (Conn, Polled) {
    if c.Bodyless(r) then
      ((if framing.None? then c.NoKeepAlive() else c).WithReader(Reader.Fixed(0)), ResponsePolled(r))
    else if framing.None? then (c, FaultPolled(PeerFault(BadFraming, Some(400))))
    else
      var d := if framing.value == Bodies.Framing.CloseDelimited then c.NoKeepAlive() else c;
      (d.WithReader(ReaderFor(framing.value)), ResponsePolled(r))
  }

  function TakeFinal(c: Conn, r: Response, persistent: bool, framing: Option<Bodies.Framing>): (Conn, Polled) {
    var next := AdvanceRole(c, c.role.Peer(), c.FinalEvent(r));
    if next.None? then (c, Fault400(WrongState))
    else
      var d := if persistent then next.value else next.value.NoKeepAlive();
      BeginResponse(RecordResponse(d).(peerVersion := Some(r.version)), r, framing)
  }

  function AcceptFinal(c: Conn, r: Response, s: Scanned): (Conn, Polled) {
    TakeFinal(c, r, s.Persistent(r.version), s.Frame(r.version, true))
  }

  function AcceptResponse(c: Conn, r: Response, s: Scanned): (polled: (Conn, Polled))
    ensures OfHead(polled.1)
  {
    if c.Local() == Idle then (c, FaultPolled(PeerFault(BadResponse, None)))
    else if r.Informational() then AcceptInformational(c, r, s)
    else AcceptFinal(c, r, s)
  }

  function ParseRequestHead(env: Env, c: Conn): (r: (Conn, Polled))
    ensures OfHead(r.1)
  {
    match env.parseRequest(Section(c), c.limits.maxCount)
    case Rejected(status) => (c, FaultPolled(PeerFault(BadSyntax, status)))
    case Partial => WaitForSection(c, true)
    case Complete(end, r) =>
      AcceptRequest(PastSection(c, end), r, FieldsOf(env.validHost, r.headers), env.validTarget(r.verb, r.target))
  }

  /** A head whose parse skipped a line ends keep-alive before it is accepted. */
  function TakeResponseHead(c: Conn, end: nat, head: Head, s: Scanned): (r: (Conn, Polled))
    requires end <= |c.input|
    ensures OfHead(r.1)
  {
    AcceptResponse(PastSection(if head.dropped then c.NoKeepAlive() else c, end), head.response, s)
  }

  function ParseResponseHead(env: Env, c: Conn): (r: (Conn, Polled))
    ensures OfHead(r.1)
  {
    match env.parseResponse(Section(c), c.limits.maxCount, c.lenient)
    case Rejected(status) => (c, FaultPolled(PeerFault(BadSyntax, status)))
    case Partial => WaitForSection(c, true)
    case Complete(end, head) => TakeResponseHead(c, end, head, FieldsOf(env.validHost, head.response.headers))
  }

  function ReadHead(env: Env, before: Conn): (r: (Conn, Polled))
    requires before.cycle.progress.Within(before.input)
    ensures OfHead(r.1)
  {
    var (c, due) := SectionDue(before, true);
    if !due then WaitForSection(c, true)
    else if c.role == Server then ParseRequestHead(env, c)
    else ParseResponseHead(env, c)
  }

  function ParseTrailers(env: Env, c: Conn): (r: (Conn, Polled))
    ensures !r.1.DataPolled?
  {
    match env.parseTrailers(Section(c), c.limits.maxCount, c.role == Client)
    case Rejected(status) => (c, FaultPolled(PeerFault(BadSyntax, status)))
    case Partial => WaitForSection(c, false)
    case Complete(end, trailers) => FinishPeer(PastSection(c, end), trailers)
  }

  function ReadTrailers(env: Env, before: Conn): (r: (Conn, Polled))
    requires before.cycle.progress.Within(before.input)
    ensures !r.1.DataPolled?
  {
    var (c, due) := SectionDue(before, false);
    if !due then WaitForSection(c, false) else ParseTrailers(env, c)
  }

  /** The decoder after a pull; entering the trailers starts a new section. */
  function AfterPull(c: Conn, p: Pulled): Conn
    requires p.skip <= |c.input|
  {
    var entered := p.got == Ended(AtTrailers) && c.cycle.reader != Reader.Chunked(Trailers);
    c.(input := c.input[p.skip..],
       cycle := c.cycle.(reader := p.body.reader, ext := p.body.ext,
                         progress := if entered then FRESH else c.cycle.progress))
  }

  function Pull(c: Conn): Pulled
    requires InBody(c.cycle.reader)
  {
    PullBody(c.limits.maxHead, Body(c.cycle.reader, c.cycle.ext), c.input)
  }

  /** The event a pull yields, or what its stop means here. */
  function AfterBody(env: Env, c: Conn, got: Got): (r: (Conn, Polled))
    requires got == Ended(AtTrailers) ==> c.cycle.progress.Within(c.input)
    requires got.Piece? ==> got.count <= |c.input|
    ensures r.1.DataPolled? ==> r.1.count <= |r.0.input|
  {
    match got
    case Piece(count, first, last) => PeerData(c, count, first, last)
    case Ended(Finished) => FinishPeer(c, [])
    case Ended(Starved) =>
      if c.cycle.reader.CloseDelimited? && c.eof then FinishPeer(c, []) else NeedDataOrEof(c)
    case Ended(Broken(fault)) => (c, Fault400(fault))
    case Ended(AtTrailers) => ReadTrailers(env, c)
  }

  function ReadBody(env: Env, c: Conn): (r: (Conn, Polled))
    requires InBody(c.cycle.reader) && c.cycle.progress.Within(c.input)
    ensures r.1.DataPolled? ==> r.1.count <= |r.0.input|
  {
    AfterBody(env, AfterPull(c, Pull(c)), Pull(c).got)
  }

  function ReadPeer(env: Env, c: Conn): (r: (Conn, Polled))
    requires Sound(c) && IsReading(c.Remote())
    ensures r.1.DataPolled? ==> r.1.count <= |r.0.input|
  {
    if c.Remote() == Idle && c.eof && |c.input| <= c.limits.maxHead && OnlyEmptyLines(c.input)
    then ClosePeer(c.(input := []))
    else if c.cycle.reader.Head? then ReadHead(env, c)
    else ReadBody(env, c)
  }

  function IdlePeer(c: Conn): (Conn, Polled) {
    if c.input != [] then (c, Paused) else if c.eof then ClosePeer(c) else (c, NeedData)
  }

  function NextEventInner(env: Env, c: Conn): (r: (Conn, Polled))
    requires Sound(c)
    ensures r.1.DataPolled? ==> r.1.count <= |r.0.input|
  {
    match c.Remote()
    case Closed => (c, ClosedPolled)
    case MightSwitchProtocol => (c, Paused)
    case SwitchedProtocol => (c, Paused)
    case Done => IdlePeer(c)
    case MustClose => IdlePeer(c)
    case Error => (c, FaultPolled(PeerFault(PeerFailed, None)))
    case _ => ReadPeer(env, c)
  }

  /** What a poll hands to the caller. */
  datatype Next =
    | Other(polled: Polled)
    | Content(data: bytes, first: bool, last: bool)
    | Faulted(error: PeerFault)

  function NextEvent(env: Env, c: Conn): (Conn, Next)
    requires Sound(c)
  {
    var (d, polled) := NextEventInner(env, c);
    match polled
    case FaultPolled(error) =>
      (d.(state := ProcessError(d.state, d.role.Peer())),
       Faulted(if c.role == Client then error.(status := None) else error))
    case DataPolled(count, first, last) =>
      (d.(input := d.input[count..]), Content(d.input[..count], first, last))
    case _ => (d, Other(polled))
  }

  // ------------------------------------------------------------------ sending

  /** A request the engine is willing to send, by its scanned fields. */
  predicate SendableRequest(r: Request, s: Scanned, validTarget: bool, listed: Option<seq<bytes>>) {
    var framing := s.Frame(r.version, false);
    && validTarget && ValidHeaders(r.headers) && s.CheckSend() && s.HostOk(Http11)
    && framing.Some? && !ContentForbidden(r.verb, framing.value)
    && !(framing.value == Bodies.Framing.Fixed(0) && s.expectContinue)
    && listed.Some? && !(s.upgrade && listed.value == [])
  }

  function BeginRequest(c: Conn, r: Request, s: Scanned, framing: Bodies.Framing, upgrades: seq<bytes>): (Conn, bool) {
    var next := AdvanceRole(c, c.role, RequestProposals(r, upgrades));
    if next.None? then (c, false)
    else
      var d := RecordRequest(next.value, r, s, framing, upgrades);
      (d.(cycle := d.cycle.(writer := Some(framing))), true)
  }

  function SendRequest(env: Env, c: Conn, r: Request): (Conn, Option<bytes>) {
    var s := FieldsOf(env.validHost, r.headers);
    var listed := UpgradeProtocols(r.headers);
    if c.role != Client || c.input != [] then (c, None)
    else if !SendableRequest(r, s, env.validTarget(r.verb, r.target), listed) then (c, None)
    else
      var (d, ok) := BeginRequest(c, r, s, s.Frame(r.version, false).value,
                                  if r.version == Http11 then listed.value else []);
      (d, if ok then Some(RequestText(r, s.hostAt)) else None)
  }

  predicate SendableInformational(c: Conn, r: Response, s: Scanned) {
    && c.role == Server && r.Informational() && c.peerVersion != Some(Http10)
    && ValidHeaders(r.headers) && ValidReason(r.reason) && s.CheckSend() && !HasFramingFields(r.headers)
  }

  function CommitInformational(c: Conn, status: nat, event: StateEvent): (Conn, bool) {
    var next := AdvanceRole(c, c.role, event);
    if next.None? then (c, false) else (RecordInformational(next.value, status), true)
  }

  function SendInformational(env: Env, c: Conn, r: Response): (Conn, Option<bytes>) {
    var event := c.InformationalKind(r);
    if !SendableInformational(c, r, FieldsOf(env.validHost, r.headers)) || event.None? then (c, None)
    else
      var (d, ok) := CommitInformational(c, r.status, event.value);
      (d, if ok then Some(ResponseText(r)) else None)
  }

  /** The framing a final response is sent with, and its headers so far. */
  datatype Plan = Plan(framing: Bodies.Framing, headers: Headers)

  function PlanResponse(c: Conn, r: Response, s: Scanned): Option<Plan> {
    var http11 := c.peerVersion == Some(Http11) && r.version == Http11;
    var bodyless := c.Bodyless(r);
    var stripped := !http11 && s.codings.Some?;
    var headers := if stripped then Without(r.headers, TRANSFER_ENCODING) else r.headers;
    var declared := s.HasFraming() && !stripped;
    var framing := s.Frame(r.version, bodyless);
    if stripped && s.Frame(Http11, bodyless).None? then None
    else if bodyless then
      if declared && framing.None? then None else Some(Plan(Bodies.Framing.Fixed(0), headers))
    else if r.status == 205 then
      if !declared then Some(Plan(Bodies.Framing.Fixed(0), headers + [Field(CONTENT_LENGTH_NAME, ZERO)]))
      else if framing != Some(Bodies.Framing.Fixed(0)) then None
      else Some(Plan(Bodies.Framing.Fixed(0), headers))
    else if !declared then
      if http11 then Some(Plan(Bodies.Framing.Chunked, headers + [Field(TRANSFER_ENCODING_NAME, CHUNKED)]))
      else Some(Plan(Bodies.Framing.CloseDelimited, headers))
    else if framing.None? then None
    else Some(Plan(framing.value, headers))
  }

  /** Whether request content is still to arrive when a response is sent. */
  predicate Unread(c: Conn) {
    c.cycle.reader.Fixed? ==> c.cycle.reader.remaining > c.held + |c.input|
  }

  predicate SendableResponse(c: Conn, r: Response, s: Scanned) {
    && c.role == Server && !r.Informational()
    && ValidHeaders(r.headers) && ValidReason(r.reason) && s.CheckSend()
    && (r.status == 426 ==> UpgradeProtocols(r.headers).Some? && UpgradeProtocols(r.headers).value != [])
    && !((r.status == 204 || c.OpensTunnel(r)) && s.HasFraming())
  }

  /** The persistence option a final head is sent with. */
  function PersistenceHeaders(c: Conn, r: Response, headers: Headers, keepAlive: bool): Headers {
    if c.OpensTunnel(r) then headers
    else if !keepAlive then SetConnectionOption(headers, CLOSE)
    else if !(c.peerVersion == Some(Http11) && r.version == Http11) then SetConnectionOption(headers, KEEP_ALIVE)
    else headers
  }

  /** Settles keep-alive first; the head then carries the option of the settled flag. */
  function CommitHead(c: Conn, r: Response, plan: Plan, close: bool): (Conn, Option<Response>) {
    var next := AdvanceRole(c, c.role, c.FinalEvent(r));
    if next.None? then (c, None)
    else
      var closing := plan.framing == Bodies.Framing.CloseDelimited
                     || (next.value.Remote() == SendBody && Unread(next.value))
                     || close;
      var d := RecordResponse(if closing then next.value.NoKeepAlive() else next.value);
      (d.(cycle := d.cycle.(writer := if c.OpensTunnel(r) then None else Some(plan.framing))),
       Some(r.(headers := PersistenceHeaders(c, r, plan.headers, d.state.keepAlive))))
  }

  /** The head as sent, after framing and persistence are settled. */
  function SendHead(c: Conn, r: Response, s: Scanned): (Conn, Option<Response>) {
    var plan := PlanResponse(c, r, s);
    if !SendableResponse(c, r, s) || plan.None? then (c, None) else CommitHead(c, r, plan.value, s.close)
  }

  function SendFinal(env: Env, c: Conn, r: Response): (Conn, Option<bytes>) {
    var (d, head) := SendHead(c, r, FieldsOf(env.validHost, r.headers));
    (d, if head.None? then None else Some(ResponseText(head.value)))
  }

  /** The framing around a body object of `length` bytes. */
  function SendDataFraming(c: Conn, length: nat): (Conn, Option<Framed>) {
    var framed := if c.cycle.writer.None? then None else FrameLength(c.cycle.writer.value, length);
    if framed.None? then (c, None)
    else
      var next := AdvanceRole(c, c.role, DataEvent);
      if next.None? then (c, None)
      else
        (next.value.(cycle := next.value.cycle.(writer := Some(framed.value.writer), waiting := false)), framed)
  }

  function SendData(c: Conn, data: bytes): (Conn, Option<bytes>) {
    var (d, framed) := SendDataFraming(c, |data|);
    (d, if framed.None? then None else Some(FramedBytes(framed.value, data)))
  }

  /** The bytes that end the message, when the framing allows these trailers. */
  function EndText(writer: Bodies.Framing, trailers: Headers): Option<bytes> {
    var prefix := EndPrefix(writer);
    if prefix.None? || (!writer.Chunked? && trailers != []) then None
    else if writer.Chunked? then Some(prefix.value + TrailersText(trailers))
    else prefix
  }

  function CommitEnd(c: Conn): (Conn, bool) {
    var next := AdvanceRole(c, c.role, EndEvent);
    if next.None? then (c, false)
    else (next.value.(cycle := next.value.cycle.(writer := None, waiting := false)), true)
  }

  function EndOfMessage(c: Conn, trailers: Headers): (Conn, Option<bytes>) {
    var text := if c.cycle.writer.None? then None else EndText(c.cycle.writer.value, trailers);
    if !ValidTrailers(trailers) || text.None? then (c, None)
    else
      var (d, ok) := CommitEnd(c);
      (d, if ok then text else None)
  }

  /** A complete message with its body left out. */
  datatype Whole = Whole(before: bytes, after: bytes)

  /** Body and end after an accepted head; nothing if any step fails. */
  function FinishComplete(c: Conn, head: bytes, length: nat): (Conn, Option<Whole>) {
    if c.Local() == SwitchedProtocol then (c, if length == 0 then Some(Whole(head, [])) else None)
    else
      var (d, framed) := if length == 0 then (c, Some(Framed(Bodies.Framing.Chunked, [], []))) else SendDataFraming(c, length);
      if framed.None? then (d, None)
      else
        var (e, end) := EndOfMessage(d, []);
        if end.None? then (e, None)
        else (e, Some(Whole(head + framed.value.prefix, framed.value.suffix + end.value)))
  }

  /** A failed complete send restores the state and the cycle it saved. */
  function SendComplete(saved: Conn, sent: (Conn, Option<bytes>), length: nat): (Conn, Option<Whole>) {
    var (c, head) := sent;
    var (d, whole) := if head.None? then (c, None) else FinishComplete(c, head.value, length);
    (if whole.None? then d.(state := saved.state, cycle := saved.cycle) else d, whole)
  }

  function WithLength(h: Headers, length: nat): Headers {
    h + [Field(CONTENT_LENGTH_NAME, Decimal(length))]
  }

  /** A request with the length of the whole body it is sent with, if it should declare one. */
  function SizedRequest(r: Request, length: nat): Request {
    var expects := r.verb == POST || r.verb == PUT || r.verb == PATCH;
    if (expects || length != 0) && !HasFramingFields(r.headers) then r.(headers := WithLength(r.headers, length)) else r
  }

  function SizedResponse(c: Conn, r: Response, length: nat): Response {
    if !HasFramingFields(r.headers) && !c.Bodyless(r) then r.(headers := WithLength(r.headers, length)) else r
  }

  function SendRequestWithBody(env: Env, c: Conn, r: Request, length: nat): (Conn, Option<Whole>) {
    SendComplete(c, SendRequest(env, c, SizedRequest(r, length)), length)
  }

  function SendResponseWithBody(env: Env, c: Conn, r: Response, length: nat): (Conn, Option<Whole>) {
    SendComplete(c, SendFinal(env, c, SizedResponse(c, r, length)), length)
  }

  // ---------------------------------------------------------------- lifecycle

  function StartNextCycle(c: Conn): (Conn, bool) {
    if c.role == Client && c.Remote() == Done && c.input != [] then (c.NoKeepAlive(), false)
    else if !Reusable(c.state) then (c, false)
    else (c.(state := INITIAL, cycle := NEW_CYCLE), true)
  }

  function Close(c: Conn): (Conn, bool) {
    var next := AdvanceRole(c, c.role, ClosedEvent);
    if next.None? then (c, false) else (next.value.(cycle := next.value.cycle.(writer := None)), true)
  }
}
