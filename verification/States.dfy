/**
 The joint client/server lifecycle of one HTTP/1.1 exchange.

 An event changes one actor's state, after which rules couple the two. This is
 the lifecycle as a value; `JointStates` updates the same four fields in place
 and is proved to do what these functions say.
 */
module States {

  datatype Option<+T> = None | Some(value: T)

  datatype Role = Client | Server {
    function Peer(): Role {
      if this == Client then Server else Client
    }
  }

  datatype State =
    | Idle
    | SendResponse
    | SendBody
    | Done
    | MightSwitchProtocol
    | SwitchedProtocol
    | MustClose
    | Closed
    | Error

  datatype SwitchKind = Connect | Upgrade

  datatype SwitchProposals = SwitchProposals(connect: bool, upgrade: bool) {
    predicate Contains(kind: SwitchKind) {
      if kind == Connect then connect else upgrade
    }

    predicate IsEmpty() {
      !connect && !upgrade
    }
  }

  const NO_PROPOSALS := SwitchProposals(false, false)

  /** What an actor can do, as far as the joint state distinguishes it. */
  datatype StateEvent =
    | RequestEvent(proposals: SwitchProposals)
    | InformationalEvent
    | ResponseEvent
    | DataEvent
    | EndEvent
    | SwitchEvent(kind: SwitchKind)
    | ClosedEvent

  datatype ConnectionState = ConnectionState(
    client: State,
    server: State,
    keepAlive: bool,
    proposals: SwitchProposals)
  {
    function Of(role: Role): State {
      if role == Client then client else server
    }

    function With(role: Role, state: State): ConnectionState {
      if role == Client then this.(client := state) else this.(server := state)
    }
  }

  const INITIAL := ConnectionState(Idle, Idle, true, NO_PROPOSALS)

  // ---------------------------------------------------------------- stabilize

  /** No coupled rule applies: each line is one rule of the fixed point. */
  predicate Settled(s: ConnectionState) {
    && !(s.client == Done && !s.proposals.IsEmpty())
    && !(s.client == MightSwitchProtocol && (s.server == SwitchedProtocol || s.proposals.IsEmpty()))
    && !(s.client == SwitchedProtocol && s.server == SwitchedProtocol && !s.proposals.IsEmpty())
    && (s.keepAlive || (s.client != Done && s.server != Done))
    && !(s.client == Closed && (s.server == Done || s.server == Idle))
    && !(s.client == Error && s.server == Done)
    && !((s.client == Done || s.client == Idle) && s.server == Closed)
    && !(s.client == Done && s.server == Error)
  }

  /** The fixed point in closed form: switching wins over closing. */
  function Stable(s: ConnectionState): (r: ConnectionState)
    ensures Settled(r)
    ensures Settled(s) ==> r == s
    ensures r.keepAlive == s.keepAlive
  {
    var finished := s.client == Done || s.client == MightSwitchProtocol;
    var both := s.server == SwitchedProtocol
                && (s.client == SwitchedProtocol
                    || (s.client == MightSwitchProtocol)
                    || (s.client == Done && !s.proposals.IsEmpty()));
    var client :=
      if both then SwitchedProtocol
      else if finished && !s.proposals.IsEmpty() then MightSwitchProtocol
      else if finished then (if s.keepAlive && (s.server != Closed && s.server != Error) then Done else MustClose)
      else if s.client == Idle && s.server == Closed then MustClose
      else s.client;
    var server :=
      if s.server == Done && (!s.keepAlive || (s.client == Closed || s.client == Error)) then MustClose
      else if s.server == Idle && s.client == Closed then MustClose
      else s.server;
    ConnectionState(client, server, s.keepAlive, if both then NO_PROPOSALS else s.proposals)
  }

  // -------------------------------------------------------------- transitions

  /** Event-triggered transition of one role, before any joint rule. */
  function DirectTransition(role: Role, state: State, event: StateEvent): Option<State> {
    match role
    case Client => (
      match state
      case Idle =>
        if event.RequestEvent? then Some(SendBody)
        else if event.ClosedEvent? then Some(Closed)
        else None
      case SendBody =>
        if event.DataEvent? then Some(SendBody)
        else if event.EndEvent? then Some(Done)
        else None
      case Done => if event.ClosedEvent? then Some(Closed) else None
      case MustClose => if event.ClosedEvent? then Some(Closed) else None
      case Closed => if event.ClosedEvent? then Some(Closed) else None
      case _ => None
    )
    case Server => (
      match state
      case Idle =>
        if event.ResponseEvent? then Some(SendBody)
        else if event.ClosedEvent? then Some(Closed)
        else None
      case SendResponse =>
        if event.InformationalEvent? then Some(SendResponse)
        else if event.ResponseEvent? then Some(SendBody)
        else if event.SwitchEvent? then Some(SwitchedProtocol)
        else None
      case SendBody =>
        if event.DataEvent? then Some(SendBody)
        else if event.EndEvent? then Some(Done)
        else None
      case Done => if event.ClosedEvent? then Some(Closed) else None
      case MustClose => if event.ClosedEvent? then Some(Closed) else None
      case Closed => if event.ClosedEvent? then Some(Closed) else None
      case _ => None
    )
  }

  /** The complete transition, never taking the body-data shortcut. */
  function FullTransition(s: ConnectionState, role: Role, event: StateEvent): Option<ConnectionState> {
    var current := s.Of(role);
    var moved := DirectTransition(role, current, event);
    if moved.None? then None
    else if role == Client && event.RequestEvent? then
      if s.server != Idle then None
      else Some(Stable(s.(proposals := event.proposals, server := SendResponse, client := moved.value)))
    else if role == Server && event.SwitchEvent? then
      if !s.proposals.Contains(event.kind) then None
      else Some(Stable(s.(server := moved.value)))
    else if role == Server && event.ResponseEvent? then
      var keepAlive := s.keepAlive && !s.proposals.connect && current != Idle;
      Some(Stable(s.(server := moved.value, keepAlive := keepAlive, proposals := NO_PROPOSALS)))
    else
      Some(Stable(s.With(role, moved.value)))
  }

  /** The transition as coded: body data in SendBody skips everything else. */
  function ProcessEvent(s: ConnectionState, role: Role, event: StateEvent): Option<ConnectionState> {
    if event == DataEvent && s.Of(role) == SendBody then Some(s)
    else FullTransition(s, role, event)
  }

  function DisableKeepAlive(s: ConnectionState): ConnectionState {
    Stable(s.(keepAlive := false))
  }

  function ProcessError(s: ConnectionState, role: Role): ConnectionState {
    Stable(s.(keepAlive := false).With(role, Error))
  }

  predicate Reusable(s: ConnectionState) {
    s.client == Done && s.server == Done && s.keepAlive && s.proposals.IsEmpty()
  }

  /** Keep-alive is on and neither actor is closing, closed, failed or switched. */
  predicate Persists(s: ConnectionState) {
    && s.keepAlive
    && (s.client != MustClose && s.client != Closed && s.client != Error && s.client != SwitchedProtocol)
    && (s.server != MustClose && s.server != Closed && s.server != Error && s.server != SwitchedProtocol)
  }

  /** In a settled state the body-data shortcut changes nothing. */
  lemma ShortcutIsFull(s: ConnectionState, role: Role, event: StateEvent)
    requires Settled(s)
    ensures ProcessEvent(s, role, event) == FullTransition(s, role, event)
  {
  }

  // --------------------------------------------------------------------- runs

  datatype StateOp =
    | Act(role: Role, event: StateEvent)
    | Disable
    | Poison(role: Role)
    | NextCycle

  /** One operation; a rejected one leaves the state as it was. */
  function ApplyOp(s: ConnectionState, op: StateOp): ConnectionState {
    match op
    case Act(role, event) =>
      var next := ProcessEvent(s, role, event);
      if next.Some? then next.value else s
    case Disable => DisableKeepAlive(s)
    case Poison(role) => ProcessError(s, role)
    case NextCycle => if Reusable(s) then INITIAL else s
  }

  function RunOps(s: ConnectionState, ops: seq<StateOp>): ConnectionState
    decreases |ops|
  {
    if ops == [] then s else RunOps(ApplyOp(s, ops[0]), ops[1..])
  }

  /** Every run keeps the stored joint state at a fixed point of the rules. */
  lemma {:induction false} RunsStaySettled(s: ConnectionState, ops: seq<StateOp>)
    requires Settled(s)
    ensures Settled(RunOps(s, ops))
    decreases |ops|
  {
    if ops == [] {
    } else {
      RunsStaySettled(ApplyOp(s, ops[0]), ops[1..]);
    }
  }

  /** In every run, two finished actors are exactly a reusable connection. */
  lemma ReuseIsExact(ops: seq<StateOp>)
    ensures var s := RunOps(INITIAL, ops);
            Reusable(s) <==> s.client == Done && s.server == Done
  {
    RunsStaySettled(INITIAL, ops);
  }

  /** Lost persistence is never regained, whatever happens next. */
  lemma {:induction false} LossIsPermanent(s: ConnectionState, ops: seq<StateOp>)
    requires !Persists(s)
    ensures !Persists(RunOps(s, ops))
    decreases |ops|
  {
    if ops == [] {
    } else {
      LossIsPermanent(ApplyOp(s, ops[0]), ops[1..]);
    }
  }

  // --------------------------------------------------------------- confluence

  /** What the client actor alone has done in the current cycle. */
  datatype ClientProgress = ClientProgress(
    requested: bool, offered: SwitchProposals, ended: bool, closed: bool)

  datatype Answer = NoAnswer | Responded | Switched(kind: SwitchKind)

  /** What the server actor alone has done in the current cycle. */
  datatype ServerProgress = ServerProgress(answer: Answer, ended: bool, closed: bool)

  const CLIENT_START := ClientProgress(false, NO_PROPOSALS, false, false)
  const SERVER_START := ServerProgress(NoAnswer, false, false)

  function ClientAfter(p: ClientProgress, event: StateEvent): ClientProgress {
    match event
    case RequestEvent(offered) => p.(requested := true, offered := offered)
    case EndEvent => p.(ended := true)
    case ClosedEvent => p.(closed := true)
    case _ => p
  }

  function ServerAfter(p: ServerProgress, event: StateEvent): ServerProgress {
    match event
    case ResponseEvent => p.(answer := Responded)
    case SwitchEvent(kind) => p.(answer := Switched(kind))
    case EndEvent => p.(ended := true)
    case ClosedEvent => p.(closed := true)
    case _ => p
  }

  /** The joint state as a function of the two actors' separate histories. */
  function Joint(c: ClientProgress, s: ServerProgress, disabled: bool): ConnectionState {
    var client :=
      if c.closed then Closed else if c.ended then Done else if c.requested then SendBody else Idle;
    var server :=
      if s.closed then Closed
      else if s.answer == Responded then (if s.ended then Done else SendBody)
      else if s.answer.Switched? then SwitchedProtocol
      else if c.requested then SendResponse
      else Idle;
    Stable(ConnectionState(
      client,
      server,
      !disabled && !(s.answer == Responded && (c.offered.connect || !c.requested)),
      if s.answer == Responded then NO_PROPOSALS else c.offered))
  }

  /** An actor's own history never repeats a step or ends what it did not begin. */
  predicate Plausible(c: ClientProgress, s: ServerProgress) {
    && (c.ended ==> c.requested)
    && (!c.requested ==> c.offered == NO_PROPOSALS)
    && (c.closed && c.requested ==> c.ended)
    && (s.ended ==> s.answer == Responded)
    && (s.closed && s.answer != NoAnswer ==> s.ended)
    && (s.answer.Switched? ==> c.requested && c.offered.Contains(s.answer.kind))
    && (s.closed && s.answer == NoAnswer ==> !c.requested)
    && (c.closed && !c.requested && s.answer != NoAnswer ==> s.answer == Responded)
  }

  /** One client event moves the joint state as it moves the client's own history. */
  ghost predicate ClientMoves(c: ClientProgress, s: ServerProgress, d: bool, event: StateEvent) {
    ProcessEvent(Joint(c, s, d), Client, event).Some? ==>
      && Plausible(ClientAfter(c, event), s)
      && ProcessEvent(Joint(c, s, d), Client, event).value == Joint(ClientAfter(c, event), s, d)
  }

  lemma ClientRequests(c: ClientProgress, s: ServerProgress, d: bool, offered: SwitchProposals)
    requires Plausible(c, s)
    ensures ClientMoves(c, s, d, RequestEvent(offered))
  {
  }

  lemma ClientEnds(c: ClientProgress, s: ServerProgress, d: bool)
    requires Plausible(c, s)
    ensures ClientMoves(c, s, d, EndEvent)
  {
  }

  lemma ClientClosesUnasked(c: ClientProgress, s: ServerProgress, d: bool)
    requires Plausible(c, s) && !c.requested
    ensures ClientMoves(c, s, d, ClosedEvent)
  {
  }

  lemma ClientClosesAsked(c: ClientProgress, s: ServerProgress, d: bool)
    requires Plausible(c, s) && c.requested
    ensures ClientMoves(c, s, d, ClosedEvent)
  {
  }

  lemma ClientCloses(c: ClientProgress, s: ServerProgress, d: bool)
    requires Plausible(c, s)
    ensures ClientMoves(c, s, d, ClosedEvent)
  {
    if c.requested {
      ClientClosesAsked(c, s, d);
    } else {
      ClientClosesUnasked(c, s, d);
    }
  }

  lemma ClientElse(c: ClientProgress, s: ServerProgress, d: bool, event: StateEvent)
    requires Plausible(c, s) && !event.RequestEvent? && !event.EndEvent? && !event.ClosedEvent?
    ensures ClientMoves(c, s, d, event)
  {
  }

  lemma ClientStep(c: ClientProgress, s: ServerProgress, d: bool, event: StateEvent)
    requires Plausible(c, s)
    requires ProcessEvent(Joint(c, s, d), Client, event).Some?
    ensures Plausible(ClientAfter(c, event), s)
    ensures ProcessEvent(Joint(c, s, d), Client, event).value == Joint(ClientAfter(c, event), s, d)
  {
    match event
    case RequestEvent(offered) => ClientRequests(c, s, d, offered);
    case EndEvent => ClientEnds(c, s, d);
    case ClosedEvent => ClientCloses(c, s, d);
    case _ => ClientElse(c, s, d, event);
  }

  /** One server event likewise. */
  ghost predicate ServerMoves(c: ClientProgress, s: ServerProgress, d: bool, event: StateEvent) {
    ProcessEvent(Joint(c, s, d), Server, event).Some? ==>
      && Plausible(c, ServerAfter(s, event))
      && ProcessEvent(Joint(c, s, d), Server, event).value == Joint(c, ServerAfter(s, event), d)
  }

  lemma ServerRespondsUnasked(c: ClientProgress, s: ServerProgress, d: bool)
    requires Plausible(c, s) && !c.requested
    ensures ServerMoves(c, s, d, ResponseEvent)
  {
  }

  lemma ServerRespondsAsked(c: ClientProgress, s: ServerProgress, d: bool)
    requires Plausible(c, s) && c.requested
    ensures ServerMoves(c, s, d, ResponseEvent)
  {
  }

  lemma ServerResponds(c: ClientProgress, s: ServerProgress, d: bool)
    requires Plausible(c, s)
    ensures ServerMoves(c, s, d, ResponseEvent)
  {
    if c.requested {
      ServerRespondsAsked(c, s, d);
    } else {
      ServerRespondsUnasked(c, s, d);
    }
  }

  lemma ServerSwitches(c: ClientProgress, s: ServerProgress, d: bool, kind: SwitchKind)
    requires Plausible(c, s)
    ensures ServerMoves(c, s, d, SwitchEvent(kind))
  {
  }

  lemma ServerEnds(c: ClientProgress, s: ServerProgress, d: bool)
    requires Plausible(c, s)
    ensures ServerMoves(c, s, d, EndEvent)
  {
  }

  lemma ServerClosesUnanswered(c: ClientProgress, s: ServerProgress, d: bool)
    requires Plausible(c, s) && s.answer != Responded
    ensures ServerMoves(c, s, d, ClosedEvent)
  {
  }

  lemma ServerClosesEnded(c: ClientProgress, s: ServerProgress, d: bool)
    requires Plausible(c, s) && s.answer == Responded && !s.closed
    ensures ServerMoves(c, s, d, ClosedEvent)
  {
  }

  lemma ServerClosesAgain(c: ClientProgress, s: ServerProgress, d: bool)
    requires Plausible(c, s) && s.closed
    ensures ServerMoves(c, s, d, ClosedEvent)
  {
  }

  lemma ServerCloses(c: ClientProgress, s: ServerProgress, d: bool)
    requires Plausible(c, s)
    ensures ServerMoves(c, s, d, ClosedEvent)
  {
    if s.closed {
      ServerClosesAgain(c, s, d);
    } else if s.answer == Responded {
      ServerClosesEnded(c, s, d);
    } else {
      ServerClosesUnanswered(c, s, d);
    }
  }

  lemma ServerElse(c: ClientProgress, s: ServerProgress, d: bool, event: StateEvent)
    requires Plausible(c, s)
    requires !event.ResponseEvent? && !event.SwitchEvent? && !event.EndEvent? && !event.ClosedEvent?
    ensures ServerMoves(c, s, d, event)
  {
  }

  lemma ServerStep(c: ClientProgress, s: ServerProgress, d: bool, event: StateEvent)
    requires Plausible(c, s)
    requires ProcessEvent(Joint(c, s, d), Server, event).Some?
    ensures Plausible(c, ServerAfter(s, event))
    ensures ProcessEvent(Joint(c, s, d), Server, event).value == Joint(c, ServerAfter(s, event), d)
  {
    match event
    case ResponseEvent => ServerResponds(c, s, d);
    case SwitchEvent(kind) => ServerSwitches(c, s, d, kind);
    case EndEvent => ServerEnds(c, s, d);
    case ClosedEvent => ServerCloses(c, s, d);
    case _ => ServerElse(c, s, d, event);
  }

  lemma DisableStep(c: ClientProgress, s: ServerProgress, d: bool)
    requires Plausible(c, s)
    ensures DisableKeepAlive(Joint(c, s, d)) == Joint(c, s, true)
  {
  }

  /** One cycle: actor events and keep-alive being disabled, in some order. */
  predicate Accepted(w: seq<StateOp>)
    decreases |w|
  {
    w == [] ||
    (var last := w[|w| - 1];
     && Accepted(w[..|w| - 1])
     && (last.Disable?
         || (last.Act? && ProcessEvent(RunOps(INITIAL, w[..|w| - 1]), last.role, last.event).Some?)))
  }

  function EventsOf(w: seq<StateOp>, role: Role): seq<StateEvent> {
    if w == [] then []
    else
      var last := w[|w| - 1];
      EventsOf(w[..|w| - 1], role) + (if last.Act? && last.role == role then [last.event] else [])
  }

  function ClientHistory(events: seq<StateEvent>): ClientProgress {
    if events == [] then CLIENT_START
    else ClientAfter(ClientHistory(events[..|events| - 1]), events[|events| - 1])
  }

  function ServerHistory(events: seq<StateEvent>): ServerProgress {
    if events == [] then SERVER_START
    else ServerAfter(ServerHistory(events[..|events| - 1]), events[|events| - 1])
  }

  lemma {:induction false} RunOpsSnoc(s: ConnectionState, ops: seq<StateOp>, op: StateOp)
    ensures RunOps(s, ops + [op]) == ApplyOp(RunOps(s, ops), op)
    decreases |ops|
  {
    if ops == [] {
      assert RunOps(s, [op]) == RunOps(ApplyOp(s, op), [op][1..]);
    } else {
      assert (ops + [op])[1..] == ops[1..] + [op];
      RunOpsSnoc(ApplyOp(s, ops[0]), ops[1..], op);
    }
  }

  lemma HistoriesSnoc(w: seq<StateOp>)
    requires w != []
    ensures var front, last := w[..|w| - 1], w[|w| - 1];
            && ClientHistory(EventsOf(w, Client)) ==
               (if last.Act? && last.role == Client then ClientAfter(ClientHistory(EventsOf(front, Client)), last.event)
                else ClientHistory(EventsOf(front, Client)))
            && ServerHistory(EventsOf(w, Server)) ==
               (if last.Act? && last.role == Server then ServerAfter(ServerHistory(EventsOf(front, Server)), last.event)
                else ServerHistory(EventsOf(front, Server)))
  {
    var front, last := w[..|w| - 1], w[|w| - 1];
    assert forall role :: EventsOf(front, role) + [] == EventsOf(front, role);
    assert last.Act? && last.role == Client ==>
        EventsOf(w, Client)[..|EventsOf(w, Client)| - 1] == EventsOf(front, Client);
    assert last.Act? && last.role == Server ==>
        EventsOf(w, Server)[..|EventsOf(w, Server)| - 1] == EventsOf(front, Server);
  }

  /** The joint state is `Joint` of the two histories. */
  ghost predicate JointOf(w: seq<StateOp>, x: ConnectionState) {
    var c := ClientHistory(EventsOf(w, Client));
    var s := ServerHistory(EventsOf(w, Server));
    Plausible(c, s) && x == Joint(c, s, Disable in w)
  }

  lemma JointStep(w: seq<StateOp>, x: ConnectionState)
    requires w != []
    requires JointOf(w[..|w| - 1], x)
    requires var last := w[|w| - 1];
             last.Disable? || (last.Act? && ProcessEvent(x, last.role, last.event).Some?)
    ensures JointOf(w, ApplyOp(x, w[|w| - 1]))
  {
    var front, last := w[..|w| - 1], w[|w| - 1];
    assert w == front + [last];
    var c := ClientHistory(EventsOf(front, Client));
    var s := ServerHistory(EventsOf(front, Server));
    var d := Disable in front;
    assert Disable in w <==> d || last.Disable?;
    HistoriesSnoc(w);
    if last.Disable? {
      DisableStep(c, s, d);
    } else if last.role == Client {
      ClientStep(c, s, d, last.event);
    } else {
      ServerStep(c, s, d, last.event);
    }
  }

  /** An accepted run ends in the joint state its two histories determine. */
  lemma {:induction false} AcceptedIsJoint(w: seq<StateOp>)
    requires Accepted(w)
    ensures JointOf(w, RunOps(INITIAL, w))
    decreases |w|
  {
    if w == [] {
    } else {
      var front, last := w[..|w| - 1], w[|w| - 1];
      AcceptedIsJoint(front);
      JointStep(w, RunOps(INITIAL, front));
      assert w == front + [last];
      RunOpsSnoc(INITIAL, front, last);
    }
  }

  /**
   Confluence: any two accepted interleavings of the same client events and the
   same server events, with keep-alive disabled in both or in neither, end in
   the same joint state.
   */
  lemma Confluence(w1: seq<StateOp>, w2: seq<StateOp>)
    requires Accepted(w1) && Accepted(w2)
    requires EventsOf(w1, Client) == EventsOf(w2, Client)
    requires EventsOf(w1, Server) == EventsOf(w2, Server)
    requires Disable in w1 <==> Disable in w2
    ensures RunOps(INITIAL, w1) == RunOps(INITIAL, w2)
  {
    AcceptedIsJoint(w1);
    AcceptedIsJoint(w2);
  }

  /** A history that records a step was given that step. */
  lemma {:induction false} ClientHistoryEvents(events: seq<StateEvent>)
    ensures ClientHistory(events).ended <==> EndEvent in events
    ensures ClientHistory(events).requested ==> RequestEvent(ClientHistory(events).offered) in events
  {
    if events == [] {
    } else {
      var front, last := events[..|events| - 1], events[|events| - 1];
      ClientHistoryEvents(front);
      assert events == front + [last];
    }
  }

  lemma {:induction false} ServerHistoryEvents(events: seq<StateEvent>)
    ensures ServerHistory(events).answer.Switched? ==> SwitchEvent(ServerHistory(events).answer.kind) in events
  {
    if events == [] {
    } else {
      var front, last := events[..|events| - 1], events[|events| - 1];
      ServerHistoryEvents(front);
      assert events == front + [last];
    }
  }

  /**
   Switch safety over every accepted run: the server actor switches only to a
   kind the request offered, and the client actor follows only after its own
   end of message.
   */
  lemma SwitchOnlyAsOffered(w: seq<StateOp>)
    requires Accepted(w)
    ensures var x := RunOps(INITIAL, w);
            && (x.server == SwitchedProtocol ==>
                  exists kind, offered :: SwitchEvent(kind) in EventsOf(w, Server)
                    && RequestEvent(offered) in EventsOf(w, Client) && offered.Contains(kind))
            && (x.client == SwitchedProtocol ==> x.server == SwitchedProtocol && EndEvent in EventsOf(w, Client))
  {
    AcceptedIsJoint(w);
    ClientHistoryEvents(EventsOf(w, Client));
    ServerHistoryEvents(EventsOf(w, Server));
    var c, s := ClientHistory(EventsOf(w, Client)), ServerHistory(EventsOf(w, Server));
    if s.answer.Switched? {
      assert SwitchEvent(s.answer.kind) in EventsOf(w, Server) && RequestEvent(c.offered) in EventsOf(w, Client);
    }
  }
}
