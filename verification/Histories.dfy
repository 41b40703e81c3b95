/** What runs of one connection never do. */
module Histories {
  import opened States
  import opened Bytes
  import opened Bodies
  import opened Payload
  import opened Fields
  import opened Options
  import opened Messages
  import opened Conn
  import opened Runs
  import opened Effects

  // ---------------------------------------------------------- bounded progress

  /** An upper bound on the events polling can still produce without new input. */
  function Potential(c: Conn): nat {
    |c.input| + (if IsReading(c.Remote()) then 2 else if (c.Remote() == Done || c.Remote() == MustClose) then 1 else 0)
  }

  predicate IsEvent(next: Next) {
    next.Content? || (next.Other? && !next.polled.NeedData? && !next.polled.Paused?)
  }

  lemma PeerStep(s: ConnectionState, role: Role, event: StateEvent)
    requires ProcessEvent(s, role, event).Some?
    ensures var t := ProcessEvent(s, role, event).value.Of(role);
            && (event == EndEvent ==> !IsReading(t))
            && (event == ClosedEvent ==> t == Closed)
  {
  }

  lemma FinishSpends(c: Conn, trailers: Headers)
    ensures var (d, polled) := FinishPeer(c, trailers);
            polled.FaultPolled? || (d.input == c.input && !IsReading(d.Remote()))
  {
    if ProcessEvent(c.state, c.role.Peer(), EndEvent).Some? {
      PeerStep(c.state, c.role.Peer(), EndEvent);
    }
  }

  lemma CloseSpends(c: Conn)
    ensures var (d, polled) := ClosePeer(c);
            polled.FaultPolled? || (d.input == c.input && d.Remote() == Closed)
  {
    if ProcessEvent(c.state, c.role.Peer(), ClosedEvent).Some? {
      PeerStep(c.state, c.role.Peer(), ClosedEvent);
    }
  }

  /** Reading a peer's message: a head or content shrinks the input, an end the state. */
  ghost predicate Spends(c: Conn, r: (Conn, Polled)) {
    var (d, polled) := r;
    match polled
    case EndPolled(_) => |d.input| <= |c.input| && !IsReading(d.Remote())
    case ClosedPolled => |d.input| <= |c.input| && d.Remote() == Closed
    case DataPolled(count, _, _) => |d.input| <= |c.input| && count >= 1
    case RequestPolled(_) => |d.input| < |c.input|
    case InformationalPolled(_) => |d.input| < |c.input|
    case ResponsePolled(_) => |d.input| < |c.input|
    case _ => true
  }

  lemma FinishPeerSpends(c: Conn, d: Conn, trailers: Headers)
    requires |d.input| <= |c.input|
    ensures Spends(c, FinishPeer(d, trailers))
  {
    FinishSpends(d, trailers);
  }

  lemma AfterBodySpends(env: Env, c: Conn, d: Conn, got: Got)
    requires |d.input| <= |c.input|
    requires got == Ended(AtTrailers) ==> d.cycle.progress.Within(d.input)
    requires got.Piece? ==> 1 <= got.count <= |d.input|
    ensures Spends(c, AfterBody(env, d, got))
  {
    FinishPeerSpends(c, d, []);
    match got
    case Piece(count, first, last) =>
    case Ended(AtTrailers) =>
      var e := SectionDue(d, false).0;
      var parsed := env.parseTrailers(Section(e), e.limits.maxCount, e.role == Client);
      if parsed.Complete? {
        FinishPeerSpends(c, PastSection(e, parsed.end), parsed.value);
      }
    case Ended(_) =>
  }

  lemma HeadSpends(env: Env, c: Conn)
    requires Inv(c) && (c.Remote() == Idle || c.Remote() == State.SendResponse)
    ensures Spends(c, ReadHead(env, c))
  {
    ReadHeadEffect(env, c);
  }

  lemma BodySpends(env: Env, c: Conn)
    requires Inv(c) && c.Remote() == SendBody
    ensures Spends(c, NextEventInner(env, c))
  {
    AfterBodySpends(env, c, AfterPull(c, Pull(c)), Pull(c).got);
  }

  lemma InnerSpends(env: Env, c: Conn)
    requires Inv(c)
    ensures Spends(c, NextEventInner(env, c)) || c.Remote() == Closed
  {
    CloseSpends(c);
    CloseSpends(c.(input := []));
    if c.Remote() == SendBody {
      BodySpends(env, c);
    } else if IsReading(c.Remote()) {
      HeadSpends(env, c);
    }
  }

  /** Every event short of a closed peer uses up some potential. */
  lemma PollSpends(env: Env, c: Conn)
    requires Inv(c) && c.held == 0 && c.Remote() != Closed
    requires IsEvent(NextEvent(env, c).1)
    ensures Potential(NextEvent(env, c).0) < Potential(c)
  {
    InnerSpends(env, c);
    InnerEffect(env, c);
  }

  /** A connection a run can reach, ready to be polled. */
  type Ready = c: Conn | Inv(c) && c.held == 0
    ghost witness (NewInv(Client, Limits(0, 0), false); NewConn(Client, Limits(0, 0), false))

  /** A poll of an open peer yields an event and leaves this connection. */
  ghost predicate Yields(env: Env, c: Ready, d: Ready) {
    c.Remote() != Closed && IsEvent(NextEvent(env, c).1) && d == NextEvent(env, c).0
  }

  /** Whatever it yields, a poll leaves a connection ready for the next. */
  lemma PollsStayReady(env: Env, c: Ready)
    ensures var d := NextEvent(env, c).0; Inv(d) && d.held == 0
  {
    PollInv(env, c);
    InnerEffect(env, c);
  }

  lemma EventsSpend(env: Env, c: Ready, d: Ready)
    requires Yields(env, c, d)
    ensures Potential(d) < Potential(c)
  {
    PollSpends(env, c);
  }

  lemma {:induction false} Descent(ps: seq<nat>)
    requires |ps| > 0 && forall i :: 0 <= i < |ps| - 1 ==> ps[i + 1] < ps[i]
    ensures |ps| - 1 <= ps[0]
  {
    if |ps| == 1 {
    } else {
      var rest := ps[1..];
      forall i | 0 <= i < |rest| - 1
        ensures rest[i + 1] < rest[i]
      {
        assert ps[(i + 1) + 1] < ps[i + 1];
      }
      Descent(rest);
    }
  }

  /**
   Polling makes bounded progress: without new input, at most two more events
   than buffered bytes come in a row, however the polls go, before NeedData,
   Paused, an error or a closed peer.
   */
  lemma PollingIsBounded(env: Env, run: seq<Ready>)
    requires |run| > 0 && forall i :: 0 <= i < |run| - 1 ==> Yields(env, run[i], run[i + 1])
    ensures |run| - 1 <= |run[0].input| + 2
  {
    var ps := seq(|run|, i requires 0 <= i < |run| => Potential(run[i]));
    forall i | 0 <= i < |ps| - 1
      ensures ps[i + 1] < ps[i]
    {
      EventsSpend(env, run[i], run[i + 1]);
    }
    Descent(ps);
  }

  // -------------------------------------------------------------- switch safety

  /** Both actors have handed the connection to another protocol. */
  predicate Over(c: Conn) {
    c.state.client == SwitchedProtocol && c.state.server == SwitchedProtocol
  }

  lemma OverPolls(env: Env, c: Conn)
    requires Inv(c) && Over(c)
    ensures NextEvent(env, c) == (c, Other(Paused))
  {
  }

  /** No event moves a switched pair, and no send is accepted. */
  lemma OverEvents(s: ConnectionState, role: Role, event: StateEvent)
    requires s.client == SwitchedProtocol && s.server == SwitchedProtocol
    ensures ProcessEvent(s, role, event).None?
  {
  }

  /** What is left of a switched connection by one more call. */
  predicate OverAfter(c: Conn, op: Op, d: Conn) {
    && Over(d) && d.cycle == c.cycle && d.held == 0
    && d.eof == (c.eof || op == Op.Receive([]))
    && (if op.Receive? && !c.eof then d.input == c.input + op.data else d.input == c.input)
  }

  lemma OverRequest(env: Env, c: Conn, r: Messages.Request)
    requires Over(c)
    ensures SendRequest(env, c, r) == (c, None)
  {
    var listed := UpgradeProtocols(r.headers);
    if listed.Some? {
      OverEvents(c.state, c.role, RequestProposals(r, listed.value));
    }
    OverEvents(c.state, c.role, RequestProposals(r, []));
  }

  lemma OverInformational(env: Env, c: Conn, r: Messages.Response)
    requires Over(c)
    ensures SendInformational(env, c, r) == (c, None)
  {
    var event := c.InformationalKind(r);
    if event.Some? {
      OverEvents(c.state, c.role, event.value);
    }
  }

  lemma OverFinal(env: Env, c: Conn, r: Messages.Response)
    requires Over(c)
    ensures SendFinal(env, c, r) == (c, None)
  {
    OverEvents(c.state, c.role, c.FinalEvent(r));
  }

  lemma OverSends(env: Env, c: Conn, op: Op)
    requires Inv(c) && Over(c) && IsSend(op)
    ensures SendStep(env, c, op) == c
  {
    match op
    case Request(r) => OverRequest(env, c, r);
    case WholeRequest(r, length) => OverRequest(env, c, SizedRequest(r, length));
    case Informational(r) => OverInformational(env, c, r);
    case Response(r) => OverFinal(env, c, r);
    case WholeResponse(r, length) => OverFinal(env, c, SizedResponse(c, r, length));
    case Body(data) => OverEvents(c.state, c.role, DataEvent);
    case Finish(trailers) => OverEvents(c.state, c.role, EndEvent);
  }

  lemma OverCalls(env: Env, c: Conn, op: Op)
    requires Inv(c) && Over(c) && !IsSend(op)
    ensures OverAfter(c, op, CallStep(env, c, op))
  {
    match op
    case Poll => OverPolls(env, c);
    case Receive(data) => assert c.input + [] == c.input;
    case Hold(_) =>
    case InPlace(_) =>
    case NextCycle =>
    case Shut => OverEvents(c.state, c.role, ClosedEvent);
  }

  lemma OverStep(env: Env, c: Conn, op: Op)
    requires Inv(c) && Over(c)
    ensures OverAfter(c, op, Step(env, c, op))
  {
    if IsSend(op) {
      OverSends(env, c, op);
    } else {
      OverCalls(env, c, op);
    }
  }

  /** The bytes a run receives, in order. */
  function Received(eof: bool, ops: seq<Op>): bytes
    decreases |ops|
  {
    if ops == [] then []
    else if ops[0].Receive? && !eof then ops[0].data + Received(ops[0].data == [], ops[1..])
    else Received(eof, ops[1..])
  }

  /**
   Once both actors have switched, no call consumes another input byte: what is
   buffered at any later point is what was buffered then and all that arrived.
   */
  lemma {:induction false} NothingIsConsumedAfterSwitch(env: Env, c: Conn, ops: seq<Op>)
    requires Inv(c) && Over(c) && Disciplined(env, c, ops)
    ensures Over(Run(env, c, ops)) && Run(env, c, ops).input == c.input + Received(c.eof, ops)
    decreases |ops|
  {
    if ops == [] {
      assert c.input + [] == c.input;
    } else {
      var d := Step(env, c, ops[0]);
      StepInv(env, c, ops[0]);
      OverStep(env, c, ops[0]);
      NothingIsConsumedAfterSwitch(env, d, ops[1..]);
      if ops[0].Receive? && !c.eof {
        Regroup(c.input, ops[0].data, Received(d.eof, ops[1..]));
      }
    }
  }

  function HeadPolled(next: Next): Option<Messages.Response> {
    match next
    case Other(InformationalPolled(r)) => Some(r)
    case Other(ResponsePolled(r)) => Some(r)
    case _ => None
  }

  function HeadSent(env: Env, c: Conn, op: Op): Option<Messages.Response> {
    match op
    case Informational(r) => if SendInformational(env, c, r).1.Some? then Some(r) else None
    case Response(r) => if SendFinal(env, c, r).1.Some? then Some(r) else None
    case WholeResponse(r, length) => if SendResponseWithBody(env, c, r, length).1.Some? then Some(r) else None
    case _ => None
  }

  /** The response head one call accepts from the peer or sends to it. */
  function HeadSeen(env: Env, c: Conn, op: Op): Option<Messages.Response>
    requires Sound(c)
  {
    if op.Poll? then HeadPolled(NextEvent(env, c).1)
    else if IsSend(op) then HeadSent(env, c, op)
    else None
  }

  lemma FinalIsNotInformational(env: Env, c: Conn, r: Messages.Response)
    requires SendFinal(env, c, r).1.Some?
    ensures !r.Informational() && c.role == Server
  {
  }

  lemma WholeIsNotInformational(env: Env, c: Conn, r: Messages.Response, length: nat)
    requires SendResponseWithBody(env, c, r, length).1.Some?
    ensures !r.Informational() && c.role == Server
  {
    var q := SizedResponse(c, r, length);
    FinalIsNotInformational(env, c, q);
  }

  /** A 101 names only protocols this cycle's request offered. */
  lemma SwitchNamesOffers(env: Env, c: Conn, op: Op, r: Messages.Response)
    requires Inv(c) && HeadSeen(env, c, op) == Some(r) && r.status == 101
    ensures !c.cycle.continueFirst && c.ValidUpgrade(r)
    ensures UpgradeProtocols(r.headers).Some? && AllOffered(c.cycle.offers, UpgradeProtocols(r.headers).value)
  {
    match op
    case Poll => InnerEffect(env, c);
    case Informational(q) =>
    case Response(q) => FinalIsNotInformational(env, c, q);
    case WholeResponse(q, length) => WholeIsNotInformational(env, c, q, length);
  }

  /** A pending 100-continue bars a switch, or the server is beyond sending heads. */
  predicate Barred(c: Conn) {
    c.cycle.continueFirst || (c.role == Client && c.state.server == Error)
  }

  predicate Quiet(head: Option<Messages.Response>) {
    head.Some? ==> head.value.Informational() && head.value.status != 100
  }

  lemma BarredRequest(c: Conn, event: StateEvent)
    requires Inv(c) && Barred(c) && event.RequestEvent?
    ensures ProcessEvent(c.state, Client, event).None?
  {
  }

  lemma RequestStaysBarred(env: Env, c: Conn, r: Messages.Request)
    requires Inv(c) && Barred(c)
    ensures SendRequest(env, c, r) == (c, None)
  {
    var listed := UpgradeProtocols(r.headers);
    if listed.Some? {
      BarredRequest(c, RequestProposals(r, listed.value));
    }
    BarredRequest(c, RequestProposals(r, []));
  }

  lemma InformationalStaysBarred(env: Env, c: Conn, r: Messages.Response)
    requires Inv(c) && Barred(c) && (SendInformational(env, c, r).1.Some? ==> r.status != 100)
    ensures Barred(SendInformational(env, c, r).0)
    ensures SendInformational(env, c, r).1.Some? ==> r.status != 101
  {
  }

  lemma FinalStaysBarred(env: Env, c: Conn, r: Messages.Response)
    requires Inv(c) && SendFinal(env, c, r).1.None?
    ensures SendFinal(env, c, r).0 == c
  {
    SendFinalInv(env, c, r);
  }

  lemma WholeStaysBarred(env: Env, c: Conn, r: Messages.Response, length: nat)
    requires Inv(c) && Quiet(HeadSeen(env, c, Op.WholeResponse(r, length)))
    ensures SendResponseWithBody(env, c, r, length).0 == c && HeadSeen(env, c, Op.WholeResponse(r, length)).None?
  {
    if SendResponseWithBody(env, c, r, length).1.Some? {
      WholeIsNotInformational(env, c, r, length);
    }
    WholeResponseInv(env, c, r, length);
  }

  lemma BodyStaysBarred(env: Env, c: Conn, op: Op)
    requires Inv(c) && Barred(c) && (op.Body? || op.Finish?)
    ensures Barred(SendStep(env, c, op))
  {
  }

  lemma SendsStayBarred(env: Env, c: Conn, op: Op)
    requires Inv(c) && Barred(c) && IsSend(op) && Quiet(HeadSeen(env, c, op))
    ensures Barred(SendStep(env, c, op))
    ensures HeadSeen(env, c, op).Some? ==> HeadSeen(env, c, op).value.status != 101
  {
    match op
    case Request(r) => RequestStaysBarred(env, c, r);
    case WholeRequest(r, length) => RequestStaysBarred(env, c, SizedRequest(r, length));
    case Informational(r) => InformationalStaysBarred(env, c, r);
    case Response(r) => FinalStaysBarred(env, c, r);
    case WholeResponse(r, length) => WholeStaysBarred(env, c, r, length);
    case Body(_) => BodyStaysBarred(env, c, op);
    case Finish(_) => BodyStaysBarred(env, c, op);
  }

  lemma NextCycleBarred(c: Conn)
    requires Inv(c) && Barred(c)
    ensures Barred(StartNextCycle(c).0)
  {
  }

  lemma CallsStayBarred(env: Env, c: Conn, op: Op)
    requires Inv(c) && !IsSend(op) && !op.Poll? && Barred(c)
    ensures Barred(CallStep(env, c, op))
  {
    if op.NextCycle? {
      NextCycleBarred(c);
    }
  }

  lemma FailedPeer(env: Env, c: Conn)
    requires Inv(c) && c.role == Client && c.state.server == Error
    ensures NextEventInner(env, c) == (c, FaultPolled(PeerFault(PeerFailed, None)))
    ensures NextEvent(env, c).0.state.server == Error
  {
  }

  lemma PollStaysBarred(env: Env, c: Conn)
    requires Inv(c) && Barred(c) && Quiet(HeadSeen(env, c, Poll))
    ensures Barred(NextEvent(env, c).0)
    ensures HeadSeen(env, c, Poll).Some? ==> HeadSeen(env, c, Poll).value.status != 101
  {
    InnerEffect(env, c);
    if c.role == Client && c.state.server == Error {
      FailedPeer(env, c);
    }
  }

  /** Neither a 100 nor a final response: the bar stays. */
  lemma StaysBarred(env: Env, c: Conn, op: Op)
    requires Inv(c) && Allowed(c, op) && Barred(c) && Quiet(HeadSeen(env, c, op))
    ensures Barred(Step(env, c, op))
    ensures HeadSeen(env, c, op).Some? ==> HeadSeen(env, c, op).value.status != 101
  {
    if IsSend(op) {
      SendsStayBarred(env, c, op);
    } else if op.Poll? {
      PollStaysBarred(env, c);
    } else {
      CallsStayBarred(env, c, op);
    }
  }

  ghost predicate AllQuiet(env: Env, c: Conn, ops: seq<Op>)
    requires Inv(c) && Disciplined(env, c, ops)
    decreases |ops|
  {
    ops == [] ||
    (&& Quiet(HeadSeen(env, c, ops[0]))
     && (StepInv(env, c, ops[0]); AllQuiet(env, Step(env, c, ops[0]), ops[1..])))
  }

  ghost predicate NoSwitchHead(env: Env, c: Conn, ops: seq<Op>)
    requires Inv(c) && Disciplined(env, c, ops)
    decreases |ops|
  {
    ops == [] ||
    (&& (HeadSeen(env, c, ops[0]).Some? ==> HeadSeen(env, c, ops[0]).value.status != 101)
     && (StepInv(env, c, ops[0]); NoSwitchHead(env, Step(env, c, ops[0]), ops[1..])))
  }

  /**
   While a 100-continue is pending, no 101 is accepted or sent until a 100 or a
   final response is: in any run whose heads are all other informational ones,
   none is a 101.
   */
  lemma {:induction false} SwitchWaitsForContinue(env: Env, c: Conn, ops: seq<Op>)
    requires Inv(c) && Disciplined(env, c, ops) && Barred(c)
    requires AllQuiet(env, c, ops)
    ensures Barred(Run(env, c, ops)) && NoSwitchHead(env, c, ops)
    decreases |ops|
  {
    if ops == [] {
    } else {
      StepInv(env, c, ops[0]);
      StaysBarred(env, c, ops[0]);
      SwitchWaitsForContinue(env, Step(env, c, ops[0]), ops[1..]);
    }
  }

  /** A request that expects 100-continue for its content and offers an upgrade. */
  predicate AsksForBoth(validHost: bytes -> bool, r: Messages.Request) {
    var s := FieldsOf(validHost, r.headers);
    var framing := s.Frame(r.version, false);
    framing.Some? && s.ExpectsContinue(r.version, framing.value) && ReceivedUpgrades(r, s) != []
  }

  /** This call sends or receives such a request. */
  predicate ExchangesBoth(env: Env, c: Conn, op: Op)
    requires Sound(c)
  {
    match op
    case Request(r) => SendRequest(env, c, r).1.Some? && AsksForBoth(env.validHost, r)
    case Poll =>
      && NextEvent(env, c).1.Other? && NextEvent(env, c).1.polled.RequestPolled?
      && AsksForBoth(env.validHost, NextEvent(env, c).1.polled.request)
    case _ => false
  }

  /** An accepted request that asks for both sets the bar, on either side. */
  lemma RequestSetsTheBar(c: Conn, r: Messages.Request, s: Scanned, framing: Bodies.Framing, upgrades: seq<bytes>)
    requires s.ExpectsContinue(r.version, framing) && upgrades != []
    ensures var (d, ok) := BeginRequest(c, r, s, framing, upgrades); ok ==> Barred(d)
    ensures var (d, polled) := TakeRequest(c, r, s, framing, upgrades); polled.RequestPolled? ==> Barred(d)
  {
  }

  lemma SendingBars(env: Env, c: Conn, r: Messages.Request)
    requires SendRequest(env, c, r).1.Some? && AsksForBoth(env.validHost, r)
    ensures Barred(SendRequest(env, c, r).0)
  {
    var s := FieldsOf(env.validHost, r.headers);
    RequestSetsTheBar(c, r, s, s.Frame(r.version, false).value, UpgradeProtocols(r.headers).value);
  }

  lemma AcceptingBars(validHost: bytes -> bool, c: Conn, r: Messages.Request, validTarget: bool)
    ensures var (d, polled) := AcceptRequest(c, r, FieldsOf(validHost, r.headers), validTarget);
            polled.RequestPolled? ==> polled.request == r && (AsksForBoth(validHost, r) ==> Barred(d))
  {
    var s := FieldsOf(validHost, r.headers);
    var framing := s.Frame(r.version, false);
    if framing.Some? && AsksForBoth(validHost, r) {
      RequestSetsTheBar(c, r, s, framing.value, ReceivedUpgrades(r, s));
    }
  }

  lemma ParsingBars(env: Env, c: Conn)
    ensures var (d, polled) := ParseRequestHead(env, c);
            polled.RequestPolled? && AsksForBoth(env.validHost, polled.request) ==> Barred(d)
  {
    var parsed := env.parseRequest(Section(c), c.limits.maxCount);
    if parsed.Complete? {
      AcceptingBars(env.validHost, PastSection(c, parsed.end), parsed.value,
                    env.validTarget(parsed.value.verb, parsed.value.target));
    }
  }

  /** Only a head yields a request. */
  lemma RequestIsRead(env: Env, c: Conn)
    requires Inv(c) && NextEventInner(env, c).1.RequestPolled?
    ensures c.cycle.progress.Within(c.input)
    ensures NextEvent(env, c) == (ParseRequestHead(env, SectionDue(c, true).0).0, Other(NextEventInner(env, c).1))
    ensures NextEventInner(env, c) == ParseRequestHead(env, SectionDue(c, true).0)
  {
    InnerEffect(env, c);
  }

  lemma ExchangeBars(env: Env, c: Conn, op: Op)
    requires Inv(c) && ExchangesBoth(env, c, op)
    ensures Barred(Step(env, c, op))
  {
    match op
    case Request(r) => SendingBars(env, c, r);
    case Poll =>
      RequestIsRead(env, c);
      ParsingBars(env, SectionDue(c, true).0);
  }

  /**
   Once a request that asks for both 100-continue and an upgrade is sent or polled,
   no 101 is accepted or sent before a 100 or a final response.
   */
  lemma UpgradeWaitsItsTurn(env: Env, c: Conn, op: Op, ops: seq<Op>)
    requires Inv(c) && Allowed(c, op) && ExchangesBoth(env, c, op)
    requires (StepInv(env, c, op); Disciplined(env, Step(env, c, op), ops))
    requires (StepInv(env, c, op); AllQuiet(env, Step(env, c, op), ops))
    ensures (StepInv(env, c, op); NoSwitchHead(env, Step(env, c, op), ops))
  {
    StepInv(env, c, op);
    ExchangeBars(env, c, op);
    SwitchWaitsForContinue(env, Step(env, c, op), ops);
  }

  // ------------------------------------------------------------ no stale answers

  /** A client, how many bytes it has received, and how many when its request went out. */
  datatype Watched = Watched(c: Conn, received: nat, asked: Option<nat>)

  function Arrived(c: Conn, op: Op): nat {
    match op
    case Receive(data) => if ReceiveData(c, data).1 then |data| else 0
    case Hold(count) => if HoldBodyData(c, count).1 then count else 0
    case _ => 0
  }

  predicate SendsRequest(env: Env, c: Conn, op: Op) {
    match op
    case Request(r) => SendRequest(env, c, r).1.Some?
    case WholeRequest(r, length) => SendRequestWithBody(env, c, r, length).1.Some?
    case _ => false
  }

  function WatchedStep(env: Env, w: Watched, op: Op): Watched
    requires Sound(w.c)
  {
    Watched(
      Step(env, w.c, op),
      w.received + Arrived(w.c, op),
      if op.NextCycle? && StartNextCycle(w.c).1 then None
      else if SendsRequest(env, w.c, op) then Some(w.received)
      else w.asked)
  }

  /** How many received bytes have been turned into events or dropped. */
  function Used(w: Watched): int {
    w.received - w.c.held - |w.c.input|
  }

  predicate Answering(s: ConnectionState) {
    s.server == State.SendResponse || s.server == SendBody
  }

  predicate WatchedInv(w: Watched) {
    && Inv(w.c) && w.c.role == Client
    && w.c.held + |w.c.input| <= w.received
    && (Answering(w.c.state) ==> w.asked.Some?)
    && (w.asked.Some? ==> w.asked.value <= Used(w))
  }

  /** Which received bytes one call turns into a response head or body, if any. */
  function Answered(env: Env, w: Watched, op: Op): Option<(int, int)>
    requires Sound(w.c)
  {
    match op
    case Poll => (
      match NextEvent(env, w.c).1
      case Other(InformationalPolled(_)) => Some((Used(w), Used(WatchedStep(env, w, op))))
      case Other(ResponsePolled(_)) => Some((Used(w), Used(WatchedStep(env, w, op))))
      case Content(_, _, _) => Some((Used(w), Used(WatchedStep(env, w, op))))
      case _ => None
    )
    case InPlace(count) =>
      if NextEventInPlace(w.c, count).1.Some? then Some((Used(w), Used(WatchedStep(env, w, op)))) else None
    case _ => None
  }

  /** At an accepted request nothing received before it is left to read. */
  lemma RequestFromIdle(s: ConnectionState, event: StateEvent)
    requires StateInv(s) && event.RequestEvent? && ProcessEvent(s, Client, event).Some?
    ensures s.client == Idle && s.server != SendBody
  {
  }

  lemma UnreadBodyHolds(c: Conn)
    requires Inv(c) && c.role == Client && c.state.server != SendBody
    ensures c.held == 0
  {
  }

  /** At an accepted request nothing received before it is left to read. */
  lemma RequestFindsNothing(env: Env, c: Conn, r: Messages.Request)
    requires Inv(c) && SendRequest(env, c, r).1.Some?
    ensures c.input == [] && c.held == 0
  {
    var listed := UpgradeProtocols(r.headers);
    if listed.Some? {
      RequestFromIdle(c.state, RequestProposals(r, if r.version == Http11 then listed.value else []));
    }
    UnreadBodyHolds(c);
  }

  /** Only a request makes the server actor owe an answer. */
  lemma EventAnswering(s: ConnectionState, role: Role, event: StateEvent)
    requires StateInv(s) && ProcessEvent(s, role, event).Some?
    requires Answering(ProcessEvent(s, role, event).value)
    ensures Answering(s) || event.RequestEvent? || (event.ResponseEvent? && s.server == Idle)
  {
  }

  lemma DisableAnswering(s: ConnectionState)
    ensures Answering(DisableKeepAlive(s)) <==> Answering(s)
  {
  }

  /** A poll before any request yields nothing that is an answer. */
  lemma IdlePolled(c: Conn, d: Conn, polled: Polled)
    requires Effect(c, (d, polled)) && Spends(c, (d, polled))
    requires c.role == Client && c.state.client == Idle && c.state.server == Idle
    ensures !polled.FaultPolled? ==> !Answering(d.state)
  {
  }

  lemma FailureAnswersNothing(s: ConnectionState)
    ensures !Answering(ProcessError(s, Server))
  {
  }

  /** A server actor that is past answering, or has failed, stays so when polled. */
  lemma RestingPoll(env: Env, c: Conn)
    requires Sound(c) && c.role == Client && (c.state.server != Idle && c.state.server != State.SendResponse && c.state.server != SendBody)
    ensures !Answering(NextEvent(env, c).0.state)
  {
    CloseSpends(c);
    FailureAnswersNothing(c.state);
    FailureAnswersNothing(ClosePeer(c).0.state);
  }

  lemma IdlePoll(env: Env, c: Conn)
    requires Inv(c) && c.role == Client && c.state.server == Idle
    ensures !Answering(NextEvent(env, c).0.state)
  {
    InnerEffect(env, c);
    InnerSpends(env, c);
    var (d, polled) := NextEventInner(env, c);
    IdlePolled(c, d, polled);
    FailureAnswersNothing(d.state);
  }

  lemma PollAnswering(env: Env, c: Conn)
    requires Inv(c) && c.role == Client && Answering(NextEvent(env, c).0.state)
    ensures Answering(c.state)
  {
    if c.state.server == Idle {
      IdlePoll(env, c);
    } else if !Answering(c.state) {
      RestingPoll(env, c);
    }
  }

  /** Held and buffered bytes after a call, against those before it. */
  predicate BytesOk(w: Watched, v: Watched, answers: bool) {
    && v.c.role == Client && v.c.held + |v.c.input| <= v.received && Used(w) <= Used(v)
    && (answers ==> Used(w) < Used(v))
  }

  lemma PollBytes(env: Env, w: Watched)
    requires WatchedInv(w) && w.c.held == 0
    ensures BytesOk(w, WatchedStep(env, w, Poll), Answered(env, w, Poll).Some?)
  {
    InnerEffect(env, w.c);
  }

  lemma AskFindsNothing(env: Env, c: Conn, op: Op)
    requires Inv(c) && SendsRequest(env, c, op)
    ensures c.input == [] && c.held == 0
  {
    match op
    case Request(r) => RequestFindsNothing(env, c, r);
    case WholeRequest(r, length) => RequestFindsNothing(env, c, SizedRequest(r, length));
  }

  lemma OutsideBytes(w: Watched, v: Watched)
    requires WatchedInv(w) && SameOutside(w.c, v.c) && v.received == w.received
    ensures BytesOk(w, v, false) && Used(v) == Used(w)
  {
  }

  lemma SendBytes(env: Env, w: Watched, op: Op)
    requires WatchedInv(w) && IsSend(op)
    ensures BytesOk(w, WatchedStep(env, w, op), false)
    ensures SendsRequest(env, w.c, op) ==> Used(WatchedStep(env, w, op)) == w.received
  {
    SendsStayInside(env, w.c, op);
    OutsideBytes(w, WatchedStep(env, w, op));
    if SendsRequest(env, w.c, op) {
      AskFindsNothing(env, w.c, op);
    }
  }

  lemma RestBytes(env: Env, w: Watched, op: Op)
    requires WatchedInv(w) && !IsSend(op) && !op.Poll? && !op.InPlace?
    ensures BytesOk(w, WatchedStep(env, w, op), false) && Answered(env, w, op).None?
  {
  }

  lemma InPlaceBytes(env: Env, w: Watched, count: nat)
    requires WatchedInv(w)
    ensures BytesOk(w, WatchedStep(env, w, InPlace(count)), Answered(env, w, InPlace(count)).Some?)
  {
    InPlaceInv(w.c, count);
  }

  /** What a call leaves of held and buffered bytes. */
  lemma StepBytes(env: Env, w: Watched, op: Op)
    requires WatchedInv(w) && Allowed(w.c, op)
    ensures BytesOk(w, WatchedStep(env, w, op), Answered(env, w, op).Some?)
    ensures SendsRequest(env, w.c, op) ==> Used(WatchedStep(env, w, op)) == w.received
  {
    if IsSend(op) {
      SendBytes(env, w, op);
    } else if op.Poll? {
      PollBytes(env, w);
    } else if op.InPlace? {
      InPlaceBytes(env, w, op.count);
    } else {
      RestBytes(env, w, op);
    }
  }

  lemma WholeResponseBytes(env: Env, c: Conn, r: Messages.Response, length: nat)
    requires Inv(c) && c.role == Client
    ensures SendResponseWithBody(env, c, r, length).0 == c
  {
    WholeResponseInv(env, c, r, length);
    if SendResponseWithBody(env, c, r, length).1.Some? {
      WholeIsNotInformational(env, c, r, length);
    }
  }

  /** Without a new request, the server actor answers only if it already did. */
  lemma HeadAnswering(env: Env, c: Conn, op: Op)
    requires Inv(c) && c.role == Client && IsSend(op) && !op.Body? && !op.Finish? && !SendsRequest(env, c, op)
    ensures SendStep(env, c, op) == c
  {
    match op
    case Request(r) => SendRequestInv(env, c, r);
    case WholeRequest(r, length) => WholeRequestInv(env, c, r, length);
    case Informational(r) =>
    case Response(r) => SendFinalInv(env, c, r);
    case WholeResponse(r, length) => WholeResponseBytes(env, c, r, length);
  }

  lemma OwnEventAnswering(c: Conn, event: StateEvent)
    requires Inv(c) && c.role == Client && !event.RequestEvent? && !event.ResponseEvent?
    ensures AdvanceRole(c, Client, event).Some? ==>
              (Answering(AdvanceRole(c, Client, event).value.state) ==> Answering(c.state))
  {
    if ProcessEvent(c.state, Client, event).Some? && Answering(ProcessEvent(c.state, Client, event).value) {
      EventAnswering(c.state, Client, event);
    }
  }

  lemma SendAnswering(env: Env, c: Conn, op: Op)
    requires Inv(c) && c.role == Client && IsSend(op) && !SendsRequest(env, c, op)
    requires Answering(SendStep(env, c, op).state)
    ensures Answering(c.state)
  {
    if op.Body? {
      OwnEventAnswering(c, DataEvent);
    } else if op.Finish? {
      OwnEventAnswering(c, EndEvent);
    } else {
      HeadAnswering(env, c, op);
    }
  }

  lemma CycleAnswering(c: Conn)
    requires Inv(c)
    ensures Answering(StartNextCycle(c).0.state) ==> Answering(c.state) && !StartNextCycle(c).1
  {
    DisableAnswering(c.state);
  }

  lemma InPlaceAnswering(c: Conn, count: nat)
    requires Inv(c) && Answering(NextEventInPlace(c, count).0.state)
    ensures Answering(c.state)
  {
  }

  lemma CallAnswering(env: Env, c: Conn, op: Op)
    requires Inv(c) && c.role == Client && !IsSend(op) && Allowed(c, op)
    requires Answering(CallStep(env, c, op).state)
    ensures Answering(c.state) && (op.NextCycle? ==> !StartNextCycle(c).1)
  {
    match op
    case Poll => PollAnswering(env, c);
    case NextCycle => CycleAnswering(c);
    case Receive(data) => DisableAnswering(c.state);
    case InPlace(count) => InPlaceAnswering(c, count);
    case Hold(count) =>
    case Shut => OwnEventAnswering(c, ClosedEvent);
  }

  lemma StepAnswering(env: Env, w: Watched, op: Op)
    requires WatchedInv(w) && Allowed(w.c, op)
    requires Answering(Step(env, w.c, op).state)
    ensures WatchedStep(env, w, op).asked.Some?
  {
    if !SendsRequest(env, w.c, op) {
      if IsSend(op) {
        SendAnswering(env, w.c, op);
      } else {
        CallAnswering(env, w.c, op);
      }
    }
  }

  lemma WatchedStepInv(env: Env, w: Watched, op: Op)
    requires WatchedInv(w) && Allowed(w.c, op)
    ensures WatchedInv(WatchedStep(env, w, op))
  {
    StepInv(env, w.c, op);
    StepBytes(env, w, op);
    if Answering(Step(env, w.c, op).state) {
      StepAnswering(env, w, op);
    }
  }

  /** One call of a client answers only from bytes that came after its request. */
  lemma AnswerIsFresh(env: Env, w: Watched, op: Op)
    requires WatchedInv(w) && Allowed(w.c, op) && Answered(env, w, op).Some?
    ensures var (first, end) := Answered(env, w, op).value;
            && w.asked.Some? && w.asked.value <= first < end <= w.received
  {
    StepBytes(env, w, op);
    if op.Poll? {
      InnerEffect(env, w.c);
    }
  }

  ghost predicate AllFresh(env: Env, w: Watched, ops: seq<Op>)
    requires WatchedInv(w) && Disciplined(env, w.c, ops)
    decreases |ops|
  {
    ops == [] ||
    (&& (match Answered(env, w, ops[0])
         case None => true
         case Some((first, end)) => w.asked.Some? && w.asked.value <= first < end <= w.received)
     && (StepInv(env, w.c, ops[0]);
         WatchedStepInv(env, w, ops[0]);
         AllFresh(env, WatchedStep(env, w, ops[0]), ops[1..])))
  }

  lemma {:induction false} AnswersStayFresh(env: Env, w: Watched, ops: seq<Op>)
    requires WatchedInv(w) && Disciplined(env, w.c, ops)
    ensures AllFresh(env, w, ops)
    decreases |ops|
  {
    if ops == [] {
    } else {
      StepInv(env, w.c, ops[0]);
      WatchedStepInv(env, w, ops[0]);
      if Answered(env, w, ops[0]).Some? {
        AnswerIsFresh(env, w, ops[0]);
      }
      AnswersStayFresh(env, WatchedStep(env, w, ops[0]), ops[1..]);
    }
  }

  /**
   No stale answers: in every client run, each byte turned into a response head
   or body was received after that cycle's request was accepted, across any
   number of reused cycles.
   */
  lemma NoStaleAnswers(env: Env, limits: Limits, lenient: bool, ops: seq<Op>)
    ensures WatchedInv(Watched(NewConn(Client, limits, lenient), 0, None))
    ensures Disciplined(env, NewConn(Client, limits, lenient), ops) ==>
              AllFresh(env, Watched(NewConn(Client, limits, lenient), 0, None), ops)
  {
    NewInv(Client, limits, lenient);
    if Disciplined(env, NewConn(Client, limits, lenient), ops) {
      AnswersStayFresh(env, Watched(NewConn(Client, limits, lenient), 0, None), ops);
    }
  }
}
