/**
 A client and a server connection joined by in-order channels, for one cycle.

 `Net` holds both connections and the bytes in each channel. Its log records
 what each actor did and how much of it the other has been told; no connection
 reads it.
 */
module Net {
  import opened States
  import opened Bytes
  import opened Bodies
  import opened Fields
  import opened Messages
  import opened Conn
  import opened Heads
  import opened Lanes
  import Runs
  import Sessions

  datatype Log = Log(
    asked: ClientProgress,
    heard: ClientProgress,
    answered: ServerProgress,
    told: ServerProgress,
    request: Request,
    text: bytes,
    proposal: Proposal,
    up: Sent,
    upTrailers: Headers,
    heads: seq<Response>,
    last: Option<Response>,
    framing: Framing,
    down: Sent,
    downTrailers: Headers)

  datatype Net = Net(c: Conn, s: Conn, up: bytes, down: bytes, log: Log)

  const NOTHING_YET := Log(
    CLIENT_START, CLIENT_START, SERVER_START, SERVER_START,
    Request([], [], [], Http11), [], Proposal(Framing.Fixed(0), [], true, false),
    Writing(Framing.Fixed(0)), [], [], None, Framing.Fixed(0), Writing(Framing.Fixed(0)), [])

  function Start(c: Conn, s: Conn): Net {
    Net(c, s, [], [], NOTHING_YET)
  }

  datatype NetOp =
    | Ask(request: Request)
    | ClientBody(data: bytes)
    | ClientEnd(trailers: Headers)
    | Inform(response: Response)
    | Answer(response: Response)
    | ServerBody(data: bytes)
    | ServerEnd(trailers: Headers)
    | DeliverUp(count: nat)
    | DeliverDown(count: nat)
    | ServerPoll
    | ClientPoll

  // ---------------------------------------------------------------------- steps

  function TrailerPart(writer: Framing, trailers: Headers): bytes {
    if writer.Chunked? then TrailersText(trailers) else []
  }

  function LogAsk(env: Env, l: Log, r: Request, text: bytes): Log {
    var p := SentProposal(env, r);
    if p.None? then l
    else l.(asked := ClientAfter(l.asked, RequestProposals(r, p.value.offers)), request := AsReceived(env, r),
            text := text, proposal := p.value, up := Writing(p.value.framing))
  }

  function AskStep(env: Env, n: Net, r: Request): Net {
    var (d, text) := SendRequest(env, n.c, r);
    if text.None? then n.(c := d)
    else n.(c := d, up := n.up + text.value, log := LogAsk(env, n.log, r, text.value))
  }

  function ClientBodyStep(n: Net, data: bytes): Net {
    var (d, text) := SendData(n.c, data);
    if text.None? || d.cycle.writer.None? then n.(c := d)
    else n.(c := d, up := n.up + text.value, log := n.log.(up := Writing(d.cycle.writer.value)))
  }

  function ClientEndStep(n: Net, trailers: Headers): Net {
    var (d, text) := EndOfMessage(n.c, trailers);
    if text.None? || n.c.cycle.writer.None? then n.(c := d)
    else
      var w := n.c.cycle.writer.value;
      n.(c := d, up := n.up + text.value,
         log := n.log.(asked := ClientAfter(n.log.asked, EndEvent), up := EndedAs(w, TrailerPart(w, trailers)),
                       upTrailers := trailers))
  }

  function InformStep(env: Env, n: Net, r: Response): Net {
    var (d, text) := SendInformational(env, n.s, r);
    if text.None? then n.(s := d)
    else
      n.(s := d, down := n.down + text.value,
         log := if r.status == 101
                then n.log.(answered := ServerAfter(n.log.answered, SwitchEvent(Upgrade)), last := Some(r))
                else n.log.(heads := n.log.heads + [r]))
  }

  function AnswerStep(env: Env, n: Net, r: Response): Net {
    var s := FieldsOf(env.validHost, r.headers);
    var (d, head) := SendHead(n.s, r, s);
    var plan := PlanResponse(n.s, r, s);
    if head.None? || plan.None? then n.(s := d)
    else
      n.(s := d, down := n.down + ResponseText(head.value),
         log := n.log.(answered := ServerAfter(n.log.answered, n.s.FinalEvent(r)), last := head,
                       framing := plan.value.framing, down := Writing(plan.value.framing)))
  }

  function ServerBodyStep(n: Net, data: bytes): Net {
    var (d, text) := SendData(n.s, data);
    if text.None? || d.cycle.writer.None? then n.(s := d)
    else n.(s := d, down := n.down + text.value, log := n.log.(down := Writing(d.cycle.writer.value)))
  }

  function ServerEndStep(n: Net, trailers: Headers): Net {
    var (d, text) := EndOfMessage(n.s, trailers);
    if text.None? || n.s.cycle.writer.None? then n.(s := d)
    else
      var w := n.s.cycle.writer.value;
      n.(s := d, down := n.down + text.value,
         log := n.log.(answered := ServerAfter(n.log.answered, EndEvent), down := EndedAs(w, TrailerPart(w, trailers)),
                       downTrailers := trailers))
  }

  function LogServerPoll(l: Log, next: Next): Log {
    match next
    case Other(RequestPolled(_)) => l.(heard := l.asked.(ended := false))
    case Other(EndPolled(_)) => l.(heard := l.heard.(ended := true))
    case _ => l
  }

  function LogClientPoll(l: Log, next: Next): Log {
    match next
    case Other(InformationalPolled(r)) =>
      if r.status == 101 then l.(told := l.answered, last := None)
      else if l.heads == [] then l else l.(heads := l.heads[1..])
    case Other(ResponsePolled(_)) => l.(told := l.answered.(ended := false), last := None)
    case Other(EndPolled(_)) => l.(told := l.told.(ended := true))
    case _ => l
  }

  function PolledServer(n: Net, d: Conn, next: Next): Net {
    n.(s := d, log := LogServerPoll(n.log, next))
  }

  function PolledClient(n: Net, d: Conn, next: Next): Net {
    n.(c := d, log := LogClientPoll(n.log, next))
  }

  function ServerPollStep(env: Env, n: Net): Net
    requires Sound(n.s)
  {
    PolledServer(n, NextEvent(env, n.s).0, NextEvent(env, n.s).1)
  }

  function ClientPollStep(env: Env, n: Net): Net
    requires Sound(n.c)
  {
    PolledClient(n, NextEvent(env, n.c).0, NextEvent(env, n.c).1)
  }

  function DeliverUpStep(n: Net, count: nat): Net
    requires count <= |n.up|
  {
    n.(s := ReceiveData(n.s, n.up[..count]).0, up := n.up[count..])
  }

  function DeliverDownStep(n: Net, count: nat): Net
    requires count <= |n.down|
  {
    n.(c := ReceiveData(n.c, n.down[..count]).0, down := n.down[count..])
  }

  predicate ClientSends(op: NetOp) {
    op.Ask? || op.ClientBody? || op.ClientEnd?
  }

  predicate ServerSends(op: NetOp) {
    op.Inform? || op.Answer? || op.ServerBody? || op.ServerEnd?
  }

  function ClientSendStep(env: Env, n: Net, op: NetOp): Net
    requires ClientSends(op)
  {
    match op
    case Ask(r) => AskStep(env, n, r)
    case ClientBody(data) => ClientBodyStep(n, data)
    case ClientEnd(trailers) => ClientEndStep(n, trailers)
  }

  function ServerSendStep(env: Env, n: Net, op: NetOp): Net
    requires ServerSends(op)
  {
    match op
    case Inform(r) => InformStep(env, n, r)
    case Answer(r) => AnswerStep(env, n, r)
    case ServerBody(data) => ServerBodyStep(n, data)
    case ServerEnd(trailers) => ServerEndStep(n, trailers)
  }

  function NetStep(env: Env, n: Net, op: NetOp): Net
    requires Sound(n.c) && Sound(n.s)
  {
    if ClientSends(op) then ClientSendStep(env, n, op)
    else if ServerSends(op) then ServerSendStep(env, n, op)
    else
      match op
      case DeliverUp(count) => if count <= |n.up| then DeliverUpStep(n, count) else n
      case DeliverDown(count) => if count <= |n.down| then DeliverDownStep(n, count) else n
      case ServerPoll => ServerPollStep(env, n)
      case ClientPoll => ClientPollStep(env, n)
  }

  // ----------------------------------------------------------- what parsers promise

  /** The receiver's parser reads `text` as this request, and never sooner or later. */
  ghost predicate ReadsRequest(env: Env, limits: Limits, text: bytes, q: Request) {
    && 1 <= |text| <= limits.maxHead
    && (forall more: bytes {:trigger env.parseRequest(text + more, limits.maxCount)} ::
          env.parseRequest(text + more, limits.maxCount) == Complete(|text|, q))
    && (forall k: nat {:trigger env.parseRequest(text[..k], limits.maxCount)} :: k < |text| ==>
          env.parseRequest(text[..k], limits.maxCount) == Partial)
  }

  ghost predicate ReadsResponse(env: Env, limits: Limits, lenient: bool, text: bytes, r: Response) {
    && 1 <= |text| <= limits.maxHead
    && (forall more: bytes {:trigger env.parseResponse(text + more, limits.maxCount, lenient)} ::
          env.parseResponse(text + more, limits.maxCount, lenient) == Complete(|text|, Messages.Head(r, false)))
    && (forall k: nat {:trigger env.parseResponse(text[..k], limits.maxCount, lenient)} :: k < |text| ==>
          env.parseResponse(text[..k], limits.maxCount, lenient) == Partial)
  }

  ghost predicate ReadsTrailers(env: Env, limits: Limits, fold: bool, text: bytes, trailers: Headers) {
    && 1 <= |text| <= limits.maxHead
    && (forall more: bytes {:trigger env.parseTrailers(text + more, limits.maxCount, fold)} ::
          env.parseTrailers(text + more, limits.maxCount, fold) == Complete(|text|, trailers))
    && (forall k: nat {:trigger env.parseTrailers(text[..k], limits.maxCount, fold)} :: k < |text| ==>
          env.parseTrailers(text[..k], limits.maxCount, fold) == Partial)
  }

  /** Parsers ask for more when given nothing. */
  ghost predicate Patient(env: Env) {
    && (forall max: nat :: env.parseRequest([], max) == Partial)
    && (forall max: nat, lenient: bool :: env.parseResponse([], max, lenient) == Partial)
  }

  ghost predicate MayClientSend(env: Env, n: Net, op: NetOp)
    requires ClientSends(op)
  {
    match op
    case Ask(r) =>
      var text := SendRequest(env, n.c, r).1;
      text.Some? ==> ReadsRequest(env, n.s.limits, text.value, AsReceived(env, r))
    case ClientBody(data) => |data| < USIZE
    case ClientEnd(trailers) =>
      n.c.cycle.writer == Some(Framing.Chunked) ==>
        ReadsTrailers(env, n.s.limits, false, TrailersText(trailers), trailers)
  }

  ghost predicate MayServerSend(env: Env, n: Net, op: NetOp)
    requires ServerSends(op)
  {
    match op
    case Inform(r) =>
      SendInformational(env, n.s, r).1.Some? ==>
        ReadsResponse(env, n.c.limits, n.c.lenient, ResponseText(r), r)
    case Answer(r) =>
      && n.s.state.server == State.SendResponse
      && (var head := SendHead(n.s, r, FieldsOf(env.validHost, r.headers)).1;
          head.Some? ==> ReadsResponse(env, n.c.limits, n.c.lenient, ResponseText(head.value), head.value))
    case ServerBody(data) => |data| < USIZE
    case ServerEnd(trailers) =>
      n.s.cycle.writer == Some(Framing.Chunked) ==>
        ReadsTrailers(env, n.c.limits, true, TrailersText(trailers), trailers)
  }

  /**
   What the two endpoints may do: the server answers only a request it received,
   heads and trailers fit their receiver, and channels lose nothing.
   */
  ghost predicate MayStep(env: Env, n: Net, op: NetOp) {
    if ClientSends(op) then MayClientSend(env, n, op)
    else if ServerSends(op) then MayServerSend(env, n, op)
    else
      && (op.DeliverUp? ==> 1 <= op.count <= |n.up|)
      && (op.DeliverDown? ==> 1 <= op.count <= |n.down|)
  }

  // ------------------------------------------------------------------ invariant

  /** Both endpoints are sound, open connections of their role. */
  predicate Sides(n: Net) {
    && Runs.Inv(n.c) && n.c.role == Client && n.c.held == 0 && !n.c.eof && n.c.limits.maxHead >= 16
    && Runs.Inv(n.s) && n.s.role == Server && n.s.held == 0 && !n.s.eof && n.s.limits.maxHead >= 16
  }

  /** Each side's joint state is what its actor did and what it heard of the other. */
  predicate StatesOk(x: ConnectionState, y: ConnectionState, l: Log) {
    && x == Joint(l.asked, l.told, !x.keepAlive) && Plausible(l.asked, l.told)
    && y == Joint(l.heard, l.answered, !y.keepAlive) && Plausible(l.heard, l.answered)
    && !l.asked.closed && !l.answered.closed
    && (if l.heard.requested then l.asked.requested && l.heard == l.asked.(ended := l.heard.ended)
        else l.heard == CLIENT_START && l.answered == SERVER_START)
    && (!l.asked.requested ==> l.asked == CLIENT_START)
    && (if l.told.answer == NoAnswer then l.told == SERVER_START
        else l.told == l.answered.(ended := l.told.ended))
  }

  /** Keep-alive flags agree, or a message that will make them agree is under way. */
  predicate FlagsOk(validHost: bytes -> bool, x: bool, y: bool, l: Log) {
    && (!l.asked.requested ==> x)
    && (!l.heard.requested ==> y)
    && (l.asked.requested && !l.heard.requested ==> x == l.proposal.persistent)
    && (l.heard.requested && (l.answered.answer == NoAnswer || l.answered.answer == Switched(Upgrade)) ==> x == y)
    && (l.answered.answer == Responded && l.told.answer == NoAnswer && l.last.Some? ==>
          && (y ==> x && !l.framing.CloseDelimited?)
          && FieldsOf(validHost, l.last.value.headers).Persistent(l.last.value.version) == y)
    && (l.told.answer == Responded ==> x == y)
  }

  /** What remains of a finished message: nothing, and its sender done or as good as done. */
  predicate Spent(wire: bytes, sent: Sent) {
    wire == [] && (sent == Writing(Framing.Fixed(0)) || sent.Ended?)
  }

  /** The sender's writer is where the lane says it is. */
  predicate WriterAt(writer: Option<Framing>, sent: Sent, ended: bool) {
    && (sent.Writing? <==> !ended)
    && (sent.Writing? ==> writer == Some(sent.writer))
  }

  ghost predicate SectionOk(env: Env, limits: Limits, fold: bool, sent: Sent, trailers: Headers) {
    sent.Ended? && sent.stop == AtTrailers ==> ReadsTrailers(env, limits, fold, sent.section, trailers)
  }

  /** The request direction: bytes the server has yet to decode. */
  ghost predicate UpOk(env: Env, limits: Limits, body: Bodies.Body, wire: bytes, l: Log) {
    if !l.asked.requested then wire == []
    else if !l.heard.requested then
      && RequestArrives(env, l.request, l.proposal) && !l.proposal.framing.CloseDelimited?
      && ReadsRequest(env, limits, l.text, l.request)
      && l.text <= wire
      && Linked(limits.maxHead, Bodies.Body(ReaderFor(l.proposal.framing), 0), wire[|l.text|..], l.up)
    else if !l.heard.ended then Linked(limits.maxHead, body, wire, l.up)
    else Spent(wire, l.up)
  }

  function TextsOf(heads: seq<Response>): bytes {
    if heads == [] then [] else ResponseText(heads[0]) + TextsOf(heads[1..])
  }

  ghost predicate HeadsRead(env: Env, limits: Limits, lenient: bool, heads: seq<Response>) {
    forall i :: 0 <= i < |heads| ==>
      && heads[i].Informational() && heads[i].status != 101
      && FieldsOf(env.validHost, heads[i].headers).Frame(heads[i].version, true).Some?
      && ReadsResponse(env, limits, lenient, ResponseText(heads[i]), heads[i])
  }

  /** Heads under way to the client and, behind the last of them, its body. */
  ghost predicate HeadsOk(env: Env, c: Conn, wire: bytes, l: Log) {
    && HeadsRead(env, c.limits, c.lenient, l.heads)
    && (if l.last.None? then l.answered.answer == NoAnswer && wire == TextsOf(l.heads)
        else
          var texts := TextsOf(l.heads) + ResponseText(l.last.value);
          && l.answered.answer != NoAnswer
          && texts <= wire
          && ReadsResponse(env, c.limits, c.lenient, ResponseText(l.last.value), l.last.value)
          && (if l.answered.answer == Responded
              then
                && FinalArrives(env.validHost, l.last.value, c.Bodyless(l.last.value), l.framing)
                && Linked(c.limits.maxHead, Bodies.Body(ReaderFor(l.framing), 0), wire[|texts|..], l.down)
              else wire == texts))
  }

  /** The response direction: bytes the client has yet to decode. */
  ghost predicate DownOk(env: Env, c: Conn, wire: bytes, l: Log) {
    && (!l.heard.requested ==> l.heads == [] && l.last.None?)
    && (if l.told.answer == NoAnswer then HeadsOk(env, c, wire, l)
        else
          && l.heads == [] && l.last.None?
          && (if l.told.answer.Switched? then wire == []
              else if !l.told.ended then Linked(c.limits.maxHead, Sessions.BodyOf(c), wire, l.down)
              else Spent(wire, l.down)))
  }

  /** Whether a 100 is still awaited once these heads have been read. */
  predicate Awaits(continueFirst: bool, heads: seq<Response>) {
    continueFirst && forall i :: 0 <= i < |heads| ==> heads[i].status != 100
  }

  predicate LastAllowed(env: Env, c: Conn, l: Log)
    requires l.last.Some?
  {
    var r := l.last.value;
    match l.answered.answer
    case NoAnswer => true
    case Responded => !r.Informational() && !c.OpensTunnel(r)
    case Switched(Connect) =>
      !r.Informational() && c.OpensTunnel(r) && FieldsOf(env.validHost, r.headers).Frame(r.version, true).Some?
    case Switched(Upgrade) =>
      && r.status == 101 && c.ValidUpgrade(r) && !Awaits(c.cycle.continueFirst, l.heads)
      && FieldsOf(env.validHost, r.headers).Frame(r.version, true).Some?
  }

  /** Both sides remember the same request, and the last head is one it allows. */
  predicate OffersOk(env: Env, c: Conn, s: Conn, l: Log) {
    && (l.asked.requested && !l.heard.requested ==>
          && c.cycle.kind == Some(KindOfMethod(l.request.verb))
          && c.cycle.offers == l.proposal.offers && c.cycle.continueFirst == l.proposal.continues
          && l.asked.offered == SwitchProposals(l.request.verb == CONNECT, l.proposal.offers != []))
    && (l.heard.requested ==> c.cycle.kind == s.cycle.kind)
    && (l.heard.requested && l.answered.answer == NoAnswer ==>
          c.cycle.offers == s.cycle.offers && s.cycle.continueFirst == Awaits(c.cycle.continueFirst, l.heads))
    && (l.last.Some? ==> LastAllowed(env, c, l))
  }

  predicate WritersOk(up: Option<Framing>, down: Option<Framing>, l: Log) {
    && (l.asked.requested ==> WriterAt(up, l.up, l.asked.ended))
    && (l.answered.answer == Responded ==> WriterAt(down, l.down, l.answered.ended))
  }

  /** States, flags, channels and writers of the two endpoints tell one story. */
  ghost predicate LanesAgree(env: Env, n: Net) {
    && StatesOk(n.c.state, n.s.state, n.log)
    && FlagsOk(env.validHost, n.c.state.keepAlive, n.s.state.keepAlive, n.log)
    && UpOk(env, n.s.limits, Sessions.BodyOf(n.s), n.s.input + n.up, n.log)
    && DownOk(env, n.c, n.c.input + n.down, n.log)
    && WritersOk(n.c.cycle.writer, n.s.cycle.writer, n.log)
    && SectionOk(env, n.s.limits, false, n.log.up, n.log.upTrailers)
    && SectionOk(env, n.c.limits, true, n.log.down, n.log.downTrailers)
  }

  /** And so do the offers both remember. */
  ghost predicate Agrees(env: Env, n: Net) {
    LanesAgree(env, n) && OffersOk(env, n.c, n.s, n.log)
  }

  ghost predicate NetInv(env: Env, n: Net) {
    Sides(n) && Agrees(env, n)
  }

  /** A fresh pair, ready for a cycle. */
  predicate FreshPair(c: Conn, s: Conn) {
    && c.role == Client && s.role == Server
    && c == NewConn(Client, c.limits, c.lenient).(peerVersion := c.peerVersion)
    && s == NewConn(Server, s.limits, s.lenient).(peerVersion := s.peerVersion)
    && c.limits.maxHead >= 16 && s.limits.maxHead >= 16
  }

  lemma StartInv(env: Env, c: Conn, s: Conn)
    requires FreshPair(c, s)
    ensures NetInv(env, Start(c, s))
  {
    assert Runs.Inv(c) && Runs.Inv(s);
    assert c.input + [] == [] && s.input + [] == [];
  }
}
