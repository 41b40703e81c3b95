/** What two joined endpoints agree on, over every interleaving of their calls. */
module Agreement {
  import opened States
  import opened Bytes
  import opened Bodies
  import opened Fields
  import opened Options
  import opened Messages
  import opened Conn
  import opened Heads
  import opened Lanes
  import opened Net
  import opened NetSends
  import opened NetPolls
  import Buffers
  import Runs
  import Sessions

  // ----------------------------------------------------------------------- runs

  /** A poll among the steps did not fail. */
  ghost predicate PollsWell(env: Env, n: Net, op: NetOp)
    requires Sound(n.c) && Sound(n.s)
  {
    && (op.ServerPoll? ==> !NextEvent(env, n.s).1.Faulted?)
    && (op.ClientPoll? ==> !NextEvent(env, n.c).1.Faulted?)
  }

  lemma ClientSendKeeps(env: Env, n: Net, op: NetOp)
    requires NetInv(env, n) && ClientSends(op) && MayClientSend(env, n, op)
    ensures NetInv(env, ClientSendStep(env, n, op))
  {
    match op
    case Ask(r) => AskKeeps(env, n, r);
    case ClientBody(data) => ClientBodyKeeps(env, n, data);
    case ClientEnd(trailers) => ClientEndKeeps(env, n, trailers);
  }

  lemma ServerSendKeeps(env: Env, n: Net, op: NetOp)
    requires NetInv(env, n) && ServerSends(op) && MayServerSend(env, n, op)
    ensures NetInv(env, ServerSendStep(env, n, op))
  {
    match op
    case Inform(r) => InformKeeps(env, n, r);
    case Answer(r) => AnswerKeeps(env, n, r);
    case ServerBody(data) => ServerBodyKeeps(env, n, data);
    case ServerEnd(trailers) => ServerEndKeeps(env, n, trailers);
  }

  lemma MoveKeeps(env: Env, n: Net, op: NetOp)
    requires NetInv(env, n) && Patient(env) && !ClientSends(op) && !ServerSends(op) && MayStep(env, n, op)
    ensures NetInv(env, NetStep(env, n, op)) && PollsWell(env, n, op)
  {
    match op
    case DeliverUp(count) => DeliverUpKeeps(env, n, count);
    case DeliverDown(count) => DeliverDownKeeps(env, n, count);
    case ServerPoll => ServerPollKeeps(env, n);
    case ClientPoll => ClientPollKeeps(env, n);
  }

  /** Every step keeps the endpoints in agreement, and no poll fails. */
  lemma StepKeeps(env: Env, n: Net, op: NetOp)
    requires NetInv(env, n) && Patient(env) && MayStep(env, n, op)
    ensures NetInv(env, NetStep(env, n, op)) && PollsWell(env, n, op)
  {
    if ClientSends(op) {
      ClientSendKeeps(env, n, op);
    } else if ServerSends(op) {
      ServerSendKeeps(env, n, op);
    } else {
      MoveKeeps(env, n, op);
    }
  }

  /** Each step is one the endpoints may take; their connections stay sound throughout. */
  ghost predicate MayRun(env: Env, n: Net, ops: seq<NetOp>)
    decreases |ops|
  {
    ops == [] ||
    (Sound(n.c) && Sound(n.s) && MayStep(env, n, ops[0]) && MayRun(env, NetStep(env, n, ops[0]), ops[1..]))
  }

  ghost function NetRun(env: Env, n: Net, ops: seq<NetOp>): Net
    requires MayRun(env, n, ops)
    decreases |ops|
  {
    if ops == [] then n else NetRun(env, NetStep(env, n, ops[0]), ops[1..])
  }

  ghost predicate NeverFails(env: Env, n: Net, ops: seq<NetOp>)
    requires MayRun(env, n, ops)
    decreases |ops|
  {
    ops == [] || (PollsWell(env, n, ops[0]) && NeverFails(env, NetStep(env, n, ops[0]), ops[1..]))
  }

  /** Whatever the interleaving, the endpoints agree and neither rejects what the other sent. */
  lemma {:induction false} SentIsNeverRejected(env: Env, n: Net, ops: seq<NetOp>)
    requires NetInv(env, n) && Patient(env) && MayRun(env, n, ops)
    ensures NeverFails(env, n, ops) && NetInv(env, NetRun(env, n, ops))
    decreases |ops|
  {
    if ops == [] {
    } else {
      StepKeeps(env, n, ops[0]);
      SentIsNeverRejected(env, NetStep(env, n, ops[0]), ops[1..]);
    }
  }

  // ----------------------------------------------------------- framing agreement

  /** An accepted send starts its writer with the framing the log records. */
  lemma AsksWithFraming(env: Env, n: Net, r: Request)
    requires Runs.Inv(n.c) && SendRequest(env, n.c, r).1.Some?
    ensures var m := AskStep(env, n, r); m.c.cycle.writer == Some(m.log.proposal.framing)
  {
    AskEffect(env, n.c, r);
  }

  lemma AnswersWithFraming(env: Env, n: Net, f: Response)
    requires Runs.Inv(n.s) && !n.s.OpensTunnel(f)
    requires SendHead(n.s, f, FieldsOf(env.validHost, f.headers)).1.Some?
    ensures var m := AnswerStep(env, n, f); m.s.cycle.writer == Some(m.log.framing)
  {
    AnswerEffect(n.s, f, FieldsOf(env.validHost, f.headers));
  }

  lemma HeardFraming(env: Env, n: Net, r: (Conn, Polled))
    requires Agrees(env, n) && Patient(env) && !n.log.heard.requested
    requires n.s.role == Server && !n.s.eof && n.s.cycle.progress.Within(n.s.input)
    requires r == ReadHead(env, n.s) && r.1.RequestPolled?
    ensures r.0.cycle.reader == ReaderFor(n.log.proposal.framing) && r.1.request == n.log.request
  {
    TextUnderWay(env, n);
    if !n.log.asked.requested {
      NothingToRead(env, n.s);
    } else {
      RequestHeadPolls(env, n.s, n.up, n.log.text, n.log.request);
      HearStates(n.c.state, n.s.state, n.log, true);
      RequestAccepted(env, PastSection(n.s, |n.log.text|), n.log.request, n.log.proposal);
    }
  }

  /** The reader a server takes from a request head is for the writer that sent it. */
  lemma RequestFramingAgrees(env: Env, n: Net)
    requires NetInv(env, n) && Patient(env)
    requires NextEvent(env, n.s).1.Other? && NextEvent(env, n.s).1.polled.RequestPolled?
    ensures NextEvent(env, n.s).0.cycle.reader == ReaderFor(n.log.proposal.framing)
    ensures NextEvent(env, n.s).1.polled.request == n.log.request
  {
    ClientSeen(n.c.state, n.s.state, n.log);
    if n.s.state.client == Idle {
      PollsForHead(env, n.s);
      HandsOut(env, n.s);
      HeardFraming(env, n, ReadHead(env, n.s));
    } else if n.s.state.client == SendBody {
      ServerPollsBody(env, n);
    } else {
      ServerPollsIdle(env, n);
    }
  }

  /** A response is only polled while its head is awaited. */
  lemma ResponseWhileAwaited(env: Env, n: Net)
    requires NetInv(env, n) && NextEvent(env, n.c).1.Other? && NextEvent(env, n.c).1.polled.ResponsePolled?
    ensures (n.c.state.server == Idle || n.c.state.server == State.SendResponse) && n.log.told.answer == NoAnswer
  {
    ServerSeen(n.c.state, n.s.state, n.log);
    if n.c.state.server == SendBody {
      ClientPollsBody(env, n);
    } else if n.c.state.server != Idle && n.c.state.server != State.SendResponse {
      NothingLeftDown(env, n);
      PollsIdle(env, n.c);
    }
  }

  lemma ToldHead(env: Env, n: Net, f: Response, r: (Conn, Polled))
    requires Agrees(env, n) && n.log.told.answer == NoAnswer && n.c.role == Client && FirstHead(n.log) == Some(f)
    requires Reads(env, n.c, f, r) && r.1.ResponsePolled?
    ensures n.log.answered.answer == Responded ==> r.0.cycle.reader == ReaderFor(n.log.framing)
    ensures Some(r.1.response) == n.log.last
  {
    var p, s := PastSection(n.c, |ResponseText(f)|), FieldsOf(env.validHost, f.headers);
    HeadsUnderWay(env, n);
    if n.log.heads != [] {
      ToldStates(n.c.state, n.s.state, n.log, InformationalEvent, false);
      InformedConn(p, f, s);
    } else {
      KindDecides(n.c, p, f);
      match n.log.answered.answer
      case Responded =>
        FinalTaken(env, n.c, n.c.input, n.down, n.log);
        ToldStates(n.c.state, n.s.state, n.log, ResponseEvent, false);
        AnsweredConn(p, f, s, n.log.framing);
      case Switched(Connect) =>
        ToldStates(n.c.state, n.s.state, n.log, SwitchEvent(Connect), false);
        AnsweredConn(p, f, s, Framing.Fixed(0));
      case Switched(Upgrade) =>
        NothingAwaited(n.c.cycle.continueFirst, n.log.heads);
        ToldStates(n.c.state, n.s.state, n.log, SwitchEvent(Upgrade), false);
        UpgradeAllowed(n.c, p, f);
        SwitchedConn(p, f, s);
    }
  }

  lemma ToldFraming(env: Env, n: Net, r: (Conn, Polled))
    requires Agrees(env, n) && Patient(env) && n.log.told.answer == NoAnswer
    requires n.c.role == Client && !n.c.eof && n.c.cycle.progress.Within(n.c.input)
    requires r == ReadHead(env, n.c) && r.1.ResponsePolled?
    ensures n.log.answered.answer == Responded ==> r.0.cycle.reader == ReaderFor(n.log.framing)
    ensures Some(r.1.response) == n.log.last
  {
    var f := FirstHead(n.log);
    HeadsUnderWay(env, n);
    FirstRead(env, n.c, n.c.input + n.down, n.log);
    if f.None? {
      assert |n.c.input + n.down| == 0;
      NothingToRead(env, n.c);
    } else {
      ResponseHeadPolls(env, n.c, n.down, ResponseText(f.value), f.value);
      ToldHead(env, n, f.value, r);
    }
  }

  /** The reader a client takes from a final head is for the writer that sent it. */
  lemma ResponseFramingAgrees(env: Env, n: Net)
    requires NetInv(env, n) && Patient(env)
    requires NextEvent(env, n.c).1.Other? && NextEvent(env, n.c).1.polled.ResponsePolled?
    ensures n.log.answered.answer == Responded ==> NextEvent(env, n.c).0.cycle.reader == ReaderFor(n.log.framing)
    ensures Some(NextEvent(env, n.c).1.polled.response) == n.log.last
  {
    ResponseWhileAwaited(env, n);
    PollsForHead(env, n.c);
    HandsOut(env, n.c);
    ToldFraming(env, n, ReadHead(env, n.c));
  }

  // ------------------------------------------------------------- drained endpoints

  /** A poll has nothing to report. */
  predicate NothingNew(next: Next) {
    next == Other(NeedData) || next == Other(Paused)
  }

  /** Nothing under way, nothing buffered, nothing left to poll. */
  ghost predicate Drained(env: Env, n: Net)
    requires Sound(n.c) && Sound(n.s)
  {
    && n.up == [] && n.down == [] && n.c.input == [] && n.s.input == []
    && NothingNew(NextEvent(env, n.c).1) && NothingNew(NextEvent(env, n.s).1)
  }

  /** Both sides see the same actor states, the same proposals and the same persistence. */
  predicate SameView(x: ConnectionState, y: ConnectionState) {
    x.client == y.client && x.server == y.server && x.proposals == y.proposals && (Persists(x) <==> Persists(y))
  }

  /**
   One side has ended what the other has not: a fixed-length body is complete
   before its sender ends the message, and a close-delimited one is ended before
   its connection closes.
   */
  predicate EndUnseen(n: Net) {
    || n.c.cycle.writer == Some(Framing.Fixed(0))
    || n.s.cycle.writer == Some(Framing.Fixed(0))
    || (n.c.state.server == SendBody && n.c.cycle.reader.CloseDelimited? && n.s.cycle.writer.None?)
  }

  lemma BodyStill(env: Env, c: Conn, sent: Sent)
    requires Runs.Inv(c) && c.held == 0 && c.Remote() == SendBody && c.input == []
    requires Linked(c.limits.maxHead, Sessions.BodyOf(c), [], sent) && NothingNew(NextEvent(env, c).1)
    ensures match sent
            case Writing(w) => w != Framing.Fixed(0) && c.cycle.reader == ReaderFor(w)
            case Ended(stop, _) => c.cycle.reader.CloseDelimited?
  {
    DryLinks(c.limits.maxHead, Sessions.BodyOf(c), sent);
    if c.cycle.reader == Reader.Fixed(0) {
      Sessions.PollReports(env, c);
    }
  }

  /** Which actors are writing a body, by what they have done. */
  lemma WritesWhile(x: ConnectionState, y: ConnectionState, l: Log)
    requires StatesOk(x, y, l)
    ensures x.client == SendBody <==> l.asked.requested && !l.asked.ended
    ensures y.server == SendBody <==> l.answered.answer == Responded && !l.answered.ended
    ensures l.answered.ended ==> l.answered.answer == Responded
  {
  }

  /** A drained request direction: the server has heard all, or an end not yet sent. */
  lemma DrainedUp(env: Env, n: Net)
    requires NetInv(env, n) && n.up == [] && n.s.input == [] && NothingNew(NextEvent(env, n.s).1)
    ensures n.log.heard == n.log.asked.(ended := n.log.heard.ended)
    ensures n.log.asked.ended ==> n.log.heard.ended
    ensures n.c.cycle.writer == Some(Framing.Fixed(0)) <==> n.log.heard.ended && !n.log.asked.ended
  {
    assert n.s.input + n.up == [];
    ClientSeen(n.c.state, n.s.state, n.log);
    WritesWhile(n.c.state, n.s.state, n.log);
    if n.log.heard.requested && !n.log.heard.ended {
      BodyStill(env, n.s, n.log.up);
    }
  }

  lemma NothingTold(env: Env, n: Net)
    requires Agrees(env, n) && n.down == [] && n.c.input == [] && n.log.told.answer == NoAnswer
    ensures n.log.answered == SERVER_START
  {
    assert n.c.input + n.down == [];
    HeadsUnderWay(env, n);
    FirstRead(env, n.c, [], n.log);
  }

  /** A drained response direction, likewise. */
  lemma DrainedDown(env: Env, n: Net)
    requires NetInv(env, n) && n.down == [] && n.c.input == [] && NothingNew(NextEvent(env, n.c).1)
    ensures n.log.told == n.log.answered.(ended := n.log.told.ended)
    ensures n.s.cycle.writer == Some(Framing.Fixed(0)) <==> n.log.told.ended && !n.log.answered.ended
    ensures n.log.answered.ended && !n.log.told.ended <==>
            n.c.state.server == SendBody && n.c.cycle.reader.CloseDelimited? && n.s.cycle.writer.None?
  {
    assert n.c.input + n.down == [];
    ServerSeen(n.c.state, n.s.state, n.log);
    WritesWhile(n.c.state, n.s.state, n.log);
    if n.log.told.answer == NoAnswer {
      NothingTold(env, n);
    } else if n.log.told.answer == Responded && !n.log.told.ended {
      BodyStill(env, n.c, n.log.down);
    }
  }

  /** The same histories make the same view, whatever a tunnel did to the flag. */
  lemma SameHistories(x: ConnectionState, y: ConnectionState, l: Log)
    requires StatesOk(x, y, l) && l.heard == l.asked && l.told == l.answered
    requires x.keepAlive == y.keepAlive || l.answered.answer.Switched?
    ensures SameView(x, y)
  {
  }

  lemma DrainedFlags(validHost: bytes -> bool, x: bool, y: bool, l: Log)
    requires FlagsOk(validHost, x, y, l) && l.heard.requested == l.asked.requested
    requires l.told.answer == l.answered.answer && (l.heard.requested || l.answered == SERVER_START)
    ensures x == y || l.answered.answer == Switched(Connect)
  {
    if l.heard.requested {
      match l.answered.answer
      case NoAnswer =>
      case Responded =>
      case Switched(Upgrade) =>
      case Switched(Connect) =>
    }
  }

  /**
   Two drained endpoints agree on actor states, proposals and persistence exactly
   when neither has ended a message whose end the other cannot have seen.
   */
  lemma DrainedEndpointsAgree(env: Env, n: Net)
    requires NetInv(env, n) && Drained(env, n)
    ensures SameView(n.c.state, n.s.state) <==> !EndUnseen(n)
  {
    DrainedUp(env, n);
    DrainedDown(env, n);
    WritesWhile(n.c.state, n.s.state, n.log);
    ClientSeen(n.c.state, n.s.state, n.log);
    ServerSeen(n.c.state, n.s.state, n.log);
    if !EndUnseen(n) {
      DrainedFlags(env.validHost, n.c.state.keepAlive, n.s.state.keepAlive, n.log);
      SameHistories(n.c.state, n.s.state, n.log);
    }
  }

  /**
   Over every run of a fresh pair no poll fails, and whenever both are drained
   they agree exactly so.
   */
  lemma RunsAgree(env: Env, c: Conn, s: Conn, ops: seq<NetOp>)
    requires Patient(env) && FreshPair(c, s) && MayRun(env, Start(c, s), ops)
    ensures var n := NetRun(env, Start(c, s), ops);
            && NeverFails(env, Start(c, s), ops) && Sound(n.c) && Sound(n.s)
            && (Drained(env, n) ==> (SameView(n.c.state, n.s.state) <==> !EndUnseen(n)))
  {
    StartInv(env, c, s);
    SentIsNeverRejected(env, Start(c, s), ops);
    var n := NetRun(env, Start(c, s), ops);
    if Drained(env, n) {
      DrainedEndpointsAgree(env, n);
    }
  }

  // --------------------------------------------------------- where they disagree

  /** A request without content, sent and received but not yet ended by its sender. */
  function Unended(text: bytes, r: Request): seq<NetOp> {
    [Ask(r)] + ([DeliverUp(|text|)] + ([ServerPoll] + ([ServerPoll] + [])))
  }

  /** A fresh server given a whole request head accepts it at once. */
  lemma WholeHeadIsDue(env: Env, s: Conn, text: bytes, q: Request)
    requires s.role == Server && !s.eof && s.cycle.progress == Buffers.FRESH && s.input == text
    requires ReadsRequest(env, s.limits, text, q)
    ensures ReadHead(env, s) == AcceptRequest(PastSection(s, |text|), q, FieldsOf(env.validHost, q.headers),
                                              env.validTarget(q.verb, q.target))
  {
    var (d, due) := SectionDue(s, true);
    assert due;
    Waits(s, true);
    assert text + [] == text;
    SectionReads(d, [], text);
    RequestParses(env, d, text, q);
  }

  /** After a request without content is polled, so is its end, though it was never sent. */
  lemma EndIsHeardEarly(env: Env, s: Conn)
    requires Runs.Inv(s) && s.held == 0 && !s.eof && s.role == Server && s.state.client == SendBody
    requires s.cycle.reader == Reader.Fixed(0) && s.input == []
    ensures NextEvent(env, s).1 == Other(EndPolled([])) && NextEvent(env, s).0.input == []
    ensures Some(NextEvent(env, s).0.state) == ProcessEvent(s.state, Client, EndEvent)
  {
    Sessions.PollReports(env, s);
    Sessions.PollPulls(env, s);
    assert s.input[0..] == [];
  }

  /** A run that leaves the endpoints drained and in disagreement. */
  ghost predicate EndsApart(env: Env, n: Net, ops: seq<NetOp>) {
    && MayRun(env, n, ops)
    && var m := NetRun(env, n, ops);
       Sound(m.c) && Sound(m.s) && Drained(env, m) && !SameView(m.c.state, m.s.state)
  }

  /** A step in front of such a run. */
  lemma ApartAfter(env: Env, n: Net, op: NetOp, ops: seq<NetOp>)
    requires Sound(n.c) && Sound(n.s) && MayStep(env, n, op) && EndsApart(env, NetStep(env, n, op), ops)
    ensures EndsApart(env, n, [op] + ops)
  {
    assert ([op] + ops)[1..] == ops;
  }

  /** Nothing under way or buffered, and a client that has yet to end a complete body. */
  predicate Unfinished(n: Net) {
    && n.up == [] && n.down == [] && n.c.input == []
    && n.c.state.server == State.SendResponse && n.c.cycle.writer == Some(Framing.Fixed(0))
  }

  /** The server has the whole head of a request without content. */
  ghost predicate HeadHere(env: Env, n: Net) {
    && NetInv(env, n) && Unfinished(n) && n.s.input == n.log.text && n.s.cycle.progress == Buffers.FRESH
    && n.log.asked.requested && !n.log.heard.requested && n.log.proposal.framing == Framing.Fixed(0)
  }

  /** The server has polled that head. */
  ghost predicate HeadHeard(env: Env, n: Net) {
    && NetInv(env, n) && Unfinished(n) && n.s.input == []
    && n.log.heard.requested && !n.log.heard.ended && n.s.cycle.reader == Reader.Fixed(0)
  }

  /** The server has polled the end its client has yet to send. */
  ghost predicate EndHeard(env: Env, n: Net) {
    NetInv(env, n) && Unfinished(n) && n.s.input == [] && n.log.heard.ended
  }

  lemma HearsHead(env: Env, n: Net)
    requires HeadHere(env, n) && Patient(env)
    ensures HeadHeard(env, ServerPollStep(env, n))
  {
    ServerPollKeeps(env, n);
    ClientSeen(n.c.state, n.s.state, n.log);
    TextUnderWay(env, n);
    PollsForHead(env, n.s);
    WholeHeadIsDue(env, n.s, n.log.text, n.log.request);
    HearStates(n.c.state, n.s.state, n.log, true);
    RequestAccepted(env, PastSection(n.s, |n.log.text|), n.log.request, n.log.proposal);
    HandsOut(env, n.s);
  }

  lemma HearsEnd(env: Env, n: Net)
    requires HeadHeard(env, n) && Patient(env)
    ensures EndHeard(env, ServerPollStep(env, n))
  {
    ServerPollKeeps(env, n);
    ClientSeen(n.c.state, n.s.state, n.log);
    EndIsHeardEarly(env, n.s);
  }

  lemma ApartNow(env: Env, n: Net)
    requires NetInv(env, n) && Drained(env, n) && EndUnseen(n)
    ensures EndsApart(env, n, [])
  {
    DrainedEndpointsAgree(env, n);
  }

  /** With the early end heard, nothing is left to poll and the two sides differ. */
  lemma ApartOnceEnded(env: Env, n: Net)
    requires EndHeard(env, n) && Patient(env)
    ensures EndsApart(env, n, [])
  {
    ClientSeen(n.c.state, n.s.state, n.log);
    PollsIdle(env, n.s);
    PollsForHead(env, n.c);
    NothingToRead(env, n.c);
    ApartNow(env, n);
  }

  lemma SoundSides(env: Env, n: Net)
    requires NetInv(env, n)
    ensures Sound(n.c) && Sound(n.s)
  {
  }

  lemma ApartOnceHeard(env: Env, n: Net)
    requires HeadHeard(env, n) && Patient(env)
    ensures EndsApart(env, n, [ServerPoll] + [])
  {
    SoundSides(env, n);
    HearsEnd(env, n);
    ApartOnceEnded(env, ServerPollStep(env, n));
    ApartAfter(env, n, ServerPoll, []);
  }

  lemma ApartOnceHere(env: Env, n: Net)
    requires HeadHere(env, n) && Patient(env)
    ensures EndsApart(env, n, [ServerPoll] + ([ServerPoll] + []))
  {
    SoundSides(env, n);
    HearsHead(env, n);
    ApartOnceHeard(env, ServerPollStep(env, n));
    ApartAfter(env, n, ServerPoll, [ServerPoll] + []);
  }

  /** A fresh pair whose client has just sent a request without content. */
  ghost predicate JustAsked(env: Env, n: Net, text: bytes) {
    && NetInv(env, n) && n.up == text != [] && n.down == [] && n.c.input == [] && n.s.input == []
    && n.c.state.server == State.SendResponse && n.c.cycle.writer == Some(Framing.Fixed(0))
    && n.log.text == text && n.s.cycle.progress == Buffers.FRESH
    && n.log.asked.requested && !n.log.heard.requested && n.log.proposal.framing == Framing.Fixed(0)
  }

  lemma AskedFields(env: Env, n: Net, r: Request, text: bytes)
    requires Runs.Inv(n.c) && n.log == NOTHING_YET && n.up == []
    requires SendRequest(env, n.c, r).1 == Some(text)
    requires SentProposal(env, r).Some? ==> SentProposal(env, r).value.framing == Framing.Fixed(0)
    ensures var m := AskStep(env, n, r);
            && m.up == text && m.down == n.down && m.c.input == [] && m.s == n.s
            && m.c.cycle.writer == Some(Framing.Fixed(0)) && m.log.text == text && m.log.told == SERVER_START
            && m.log.asked.requested && !m.log.heard.requested && m.log.proposal.framing == Framing.Fixed(0)
  {
    AskEffect(env, n.c, r);
    assert [] + text == text;
  }

  lemma AskedState(env: Env, m: Net)
    requires Agrees(env, m) && m.log.asked.requested && m.log.told == SERVER_START
    ensures m.c.state.server == State.SendResponse
  {
    ServerSeen(m.c.state, m.s.state, m.log);
  }

  lemma Asks(env: Env, n: Net, r: Request, text: bytes)
    requires NetInv(env, n) && n.log == NOTHING_YET && n.up == [] && n.down == [] && n.s.input == []
    requires n.s.cycle.progress == Buffers.FRESH
    requires SendRequest(env, n.c, r).1 == Some(text) && ReadsRequest(env, n.s.limits, text, AsReceived(env, r))
    requires SentProposal(env, r).Some? ==> SentProposal(env, r).value.framing == Framing.Fixed(0)
    ensures JustAsked(env, AskStep(env, n, r), text)
  {
    AskKeeps(env, n, r);
    AskedFields(env, n, r, text);
    AskedState(env, AskStep(env, n, r));
  }

  lemma Arrives(env: Env, n: Net, text: bytes)
    requires JustAsked(env, n, text)
    ensures HeadHere(env, DeliverUpStep(n, |text|))
  {
    DeliverUpKeeps(env, n, |text|);
    Received(n.s, n.up, |text|);
    assert text[..|text|] == text && [] + text == text;
  }

  lemma ApartOnceAsked(env: Env, n: Net, text: bytes)
    requires JustAsked(env, n, text) && Patient(env)
    ensures EndsApart(env, n, [DeliverUp(|text|)] + ([ServerPoll] + ([ServerPoll] + [])))
  {
    SoundSides(env, n);
    Arrives(env, n, text);
    ApartOnceHere(env, DeliverUpStep(n, |text|));
    ApartAfter(env, n, DeliverUp(|text|), [ServerPoll] + ([ServerPoll] + []));
  }

  /**
   Drained endpoints can disagree: the server polls the end of a request without
   content before the client has ended it.
   */
  lemma EndCanBeEarly(env: Env, c: Conn, s: Conn, r: Request, text: bytes)
    requires Patient(env) && FreshPair(c, s) && SendRequest(env, c, r).1 == Some(text)
    requires ReadsRequest(env, s.limits, text, AsReceived(env, r))
    requires SentProposal(env, r).Some? ==> SentProposal(env, r).value.framing == Framing.Fixed(0)
    ensures EndsApart(env, Start(c, s), Unended(text, r))
  {
    var n := Start(c, s);
    StartInv(env, c, s);
    SoundSides(env, n);
    Asks(env, n, r, text);
    ApartOnceAsked(env, AskStep(env, n, r), text);
    ApartAfter(env, n, Ask(r), [DeliverUp(|text|)] + ([ServerPoll] + ([ServerPoll] + [])));
  }

  // "GET", "/", "a"
  const GET: bytes := [71, 69, 84]
  const ROOT: bytes := [47]
  const HOST_A: bytes := [97]
  const GET_ROOT := Request(GET, ROOT, [Field(HOST, HOST_A)], Http11)

  lemma GetFields(validHost: bytes -> bool)
    requires validHost(HOST_A)
    ensures FieldsOf(validHost, GET_ROOT.headers) == UNSCANNED.(hosts := 1, validHost := true)
  {
    var f := Field(HOST, HOST_A);
    ValuesSnoc([], f);
    assert [] + [f] == [f];
    HostMeaning(validHost, ValuesOf([]), 0, HOST_A);
    EmptySection(validHost);
  }

  lemma GetUpgrades()
    ensures UpgradeProtocols(GET_ROOT.headers) == Some([])
  {
    GetAllOne(Field(HOST, HOST_A), UPGRADE);
    NoUpgradeNoProtocols(GET_ROOT.headers);
  }

  lemma GetHeaders()
    ensures ValidHeaders(GET_ROOT.headers) && HostFirst(GET_ROOT.headers, 0) == GET_ROOT.headers
  {
  }

  lemma GetSendable(s: Scanned, listed: Option<seq<bytes>>)
    requires s == UNSCANNED.(hosts := 1, validHost := true) && listed == Some([])
    ensures SendableRequest(GET_ROOT, s, true, listed)
    ensures ProposalBy(GET_ROOT, s, listed) == Some(Proposal(Framing.Fixed(0), [], true, false))
  {
    GetHeaders();
  }

  lemma GetIsSent(env: Env, c: Conn)
    requires c.role == Client && c.state == INITIAL && c.input == []
    requires env.validTarget(GET, ROOT) && env.validHost(HOST_A)
    ensures SendRequest(env, c, GET_ROOT).1 == Some(RequestText(GET_ROOT, 0))
    ensures SentProposal(env, GET_ROOT) == Some(Proposal(Framing.Fixed(0), [], true, false))
    ensures AsReceived(env, GET_ROOT) == GET_ROOT
  {
    GetFields(env.validHost);
    GetUpgrades();
    GetHeaders();
    GetSendable(FieldsOf(env.validHost, GET_ROOT.headers), UpgradeProtocols(GET_ROOT.headers));
  }

  /** A plain GET is such a request. */
  lemma GetEndsEarly(env: Env, c: Conn, s: Conn)
    requires Patient(env) && FreshPair(c, s)
    requires env.validTarget(GET, ROOT) && env.validHost(HOST_A)
    requires ReadsRequest(env, s.limits, RequestText(GET_ROOT, 0), GET_ROOT)
    ensures EndsApart(env, Start(c, s), Unended(RequestText(GET_ROOT, 0), GET_ROOT))
  {
    GetIsSent(env, c);
    EndCanBeEarly(env, c, s, GET_ROOT, RequestText(GET_ROOT, 0));
  }

  /** A parser that knows just that request. */
  function ReadGet(data: bytes, max: nat): (r: Parse<Request>)
    ensures r.Complete? ==> 1 <= r.end <= |data|
  {
    var text := RequestText(GET_ROOT, 0);
    if text != [] && text <= data then Complete(|text|, GET_ROOT) else Partial
  }

  function GetEnv(): Env {
    Env((verb, target) => true, host => true, ReadGet,
        (data: bytes, max: nat, lenient: bool) => Parse<Messages.Head>.Partial,
        (data: bytes, max: nat, fold: bool) => Parse<Headers>.Partial)
  }

  lemma GetIsRead(limits: Limits)
    requires limits.maxHead >= |RequestText(GET_ROOT, 0)|
    ensures ReadsRequest(GetEnv(), limits, RequestText(GET_ROOT, 0), GET_ROOT)
  {
    var text := RequestText(GET_ROOT, 0);
    assert |text| >= 2;
    forall k: nat | k < |text|
      ensures ReadGet(text[..k], limits.maxCount) == Partial
    {
    }
  }

  /** The disagreement happens: one parser, one request, one run. */
  lemma DisagreementHappens(c: Conn, s: Conn)
    requires FreshPair(c, s) && s.limits.maxHead >= |RequestText(GET_ROOT, 0)|
    ensures EndsApart(GetEnv(), Start(c, s), Unended(RequestText(GET_ROOT, 0), GET_ROOT))
  {
    GetIsRead(s.limits);
    GetEndsEarly(GetEnv(), c, s);
  }
}
