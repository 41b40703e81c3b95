/** A run after which a response head says nothing though its connection will not persist. */
module Silence {
  import opened States
  import opened Bytes
  import opened Bodies
  import opened Fields
  import opened Messages
  import opened Conn
  import opened Heads
  import opened Lanes
  import opened NetPolls
  import opened Agreement
  import Persistence
  import Runs

  // --------------------------------------------------------------------- reaching

  /** These calls may be made one after the other and lead from `c` to `d`. */
  ghost predicate Reaches(env: Env, c: Conn, ops: seq<Runs.Op>, d: Conn)
    requires Runs.Inv(c)
  {
    Runs.Disciplined(env, c, ops) && Runs.Run(env, c, ops) == d
  }

  lemma ReachesAfter(env: Env, c: Conn, op: Runs.Op, ops: seq<Runs.Op>, d: Conn)
    requires Runs.Inv(c) && Runs.Allowed(c, op)
    requires Runs.Inv(Runs.Step(env, c, op)) && Reaches(env, Runs.Step(env, c, op), ops, d)
    ensures Reaches(env, c, [op] + ops, d)
  {
    assert ([op] + ops)[1..] == ops;
  }

  // ---------------------------------------------------------------------- the run

  const TEXT: bytes := RequestText(GET_ROOT, 0)

  /** A GET arrives and is polled to its end; then the client closes. */
  function Served(): seq<Runs.Op> {
    [Runs.Op.Receive(TEXT)] + ([Runs.Op.Poll] + ([Runs.Op.Poll] + ([Runs.Op.Receive([])] + ([Runs.Op.Poll] + []))))
  }

  /** A server owing the answer to a request without content. */
  predicate Owes(c: Conn, client: State, eof: bool) {
    && Runs.Inv(c) && c.role == Server && c.held == 0 && c.input == [] && c.eof == eof
    && c.state == ConnectionState(client, State.SendResponse, true, NO_PROPOSALS)
    && c.cycle.kind == Some(PlainKind) && c.peerVersion == Some(Http11)
    && (client == SendBody ==> c.cycle.reader == Reader.Fixed(0))
  }

  lemma GetArrives()
    ensures RequestArrives(GetEnv(), GET_ROOT, Proposal(Framing.Fixed(0), [], true, false))
  {
    var client := NewConn(Client, Limits(0, 0), false);
    GetIsSent(GetEnv(), client);
    SentRequestArrives(GetEnv(), client, GET_ROOT);
  }

  lemma ReadsGet(c: Conn)
    requires Runs.Inv(c) && c == NewConn(Server, c.limits, c.lenient).(input := TEXT) && c.limits.maxHead >= |TEXT|
    ensures NextEventInner(GetEnv(), c) ==
            AcceptRequest(PastSection(c, |TEXT|), GET_ROOT, FieldsOf(GetEnv().validHost, GET_ROOT.headers),
                          GetEnv().validTarget(GET, ROOT))
  {
    GetIsRead(c.limits);
    PollsForHead(GetEnv(), c);
    WholeHeadIsDue(GetEnv(), c, TEXT, GET_ROOT);
  }

  lemma TakesGet(p: Conn)
    requires p.role == Server && p.state == INITIAL && p.cycle.ext == 0 && p.held == 0 && p.input == [] && !p.eof
    ensures var (d, polled) := AcceptRequest(p, GET_ROOT, FieldsOf(GetEnv().validHost, GET_ROOT.headers),
                                             GetEnv().validTarget(GET, ROOT));
            polled == RequestPolled(GET_ROOT) && (Runs.Inv(d) ==> Owes(d, SendBody, false))
  {
    GetArrives();
    assert RequestProposals(GET_ROOT, []) == RequestEvent(NO_PROPOSALS);
    assert ProcessEvent(INITIAL, Client, RequestEvent(NO_PROPOSALS)) ==
           Some(ConnectionState(SendBody, State.SendResponse, true, NO_PROPOSALS));
    RequestAccepted(GetEnv(), p, GET_ROOT, Proposal(Framing.Fixed(0), [], true, false));
  }

  lemma PollsRequest(c: Conn)
    requires Runs.Inv(c) && c == NewConn(Server, c.limits, c.lenient).(input := TEXT) && c.limits.maxHead >= |TEXT|
    ensures Owes(NextEvent(GetEnv(), c).0, SendBody, false)
  {
    Runs.PollInv(GetEnv(), c);
    ReadsGet(c);
    TakesGet(PastSection(c, |TEXT|));
    HandsOut(GetEnv(), c);
  }

  lemma PollsEnd(env: Env, c: Conn)
    requires Owes(c, SendBody, false)
    ensures Owes(NextEvent(env, c).0, Done, false)
  {
    Runs.PollInv(env, c);
    EndIsHeardEarly(env, c);
    assert c.input + [] == [];
    FreshLinks(c.limits.maxHead, Framing.Fixed(0));
    BodyPolls(env, c, [], Writing(Framing.Fixed(0)), []);
  }

  lemma PollsClose(env: Env, c: Conn)
    requires Owes(c, Done, true)
    ensures Owes(NextEvent(env, c).0, Closed, true)
  {
    Runs.PollInv(env, c);
  }

  lemma ThenCloses(env: Env, c: Conn) returns (d: Conn)
    requires Owes(c, Done, true)
    ensures Reaches(env, c, [Runs.Op.Poll] + [], d) && Owes(d, Closed, true)
  {
    PollsClose(env, c);
    d := Runs.Step(env, c, Runs.Op.Poll);
    ReachesAfter(env, c, Runs.Op.Poll, [], d);
  }

  lemma ThenEof(env: Env, c: Conn) returns (d: Conn)
    requires Owes(c, Done, false)
    ensures Reaches(env, c, [Runs.Op.Receive([])] + ([Runs.Op.Poll] + []), d) && Owes(d, Closed, true)
  {
    Runs.ReceiveInv(c, []);
    d := ThenCloses(env, Runs.Step(env, c, Runs.Op.Receive([])));
    ReachesAfter(env, c, Runs.Op.Receive([]), [Runs.Op.Poll] + [], d);
  }

  lemma ThenEnds(env: Env, c: Conn) returns (d: Conn)
    requires Owes(c, SendBody, false)
    ensures Owes(d, Closed, true)
    ensures Reaches(env, c, [Runs.Op.Poll] + ([Runs.Op.Receive([])] + ([Runs.Op.Poll] + [])), d)
  {
    PollsEnd(env, c);
    d := ThenEof(env, Runs.Step(env, c, Runs.Op.Poll));
    ReachesAfter(env, c, Runs.Op.Poll, [Runs.Op.Receive([])] + ([Runs.Op.Poll] + []), d);
  }

  lemma ThenReads(c: Conn) returns (d: Conn)
    requires Runs.Inv(c) && c == NewConn(Server, c.limits, c.lenient).(input := TEXT) && c.limits.maxHead >= |TEXT|
    ensures Owes(d, Closed, true)
    ensures Reaches(GetEnv(), c,
                    [Runs.Op.Poll] + ([Runs.Op.Poll] + ([Runs.Op.Receive([])] + ([Runs.Op.Poll] + []))), d)
  {
    PollsRequest(c);
    d := ThenEnds(GetEnv(), Runs.Step(GetEnv(), c, Runs.Op.Poll));
    ReachesAfter(GetEnv(), c, Runs.Op.Poll, [Runs.Op.Poll] + ([Runs.Op.Receive([])] + ([Runs.Op.Poll] + [])), d);
  }

  lemma GetIsServed(limits: Limits, lenient: bool) returns (d: Conn)
    requires limits.maxHead >= |TEXT|
    ensures Runs.Inv(NewConn(Server, limits, lenient)) && Owes(d, Closed, true)
    ensures Reaches(GetEnv(), NewConn(Server, limits, lenient), Served(), d)
  {
    var c := NewConn(Server, limits, lenient);
    Runs.NewInv(Server, limits, lenient);
    assert |TEXT| >= 2 && [] + TEXT == TEXT;
    Runs.ReceiveInv(c, TEXT);
    d := ThenReads(c.(input := TEXT));
    ReachesAfter(GetEnv(), c, Runs.Op.Receive(TEXT),
                 [Runs.Op.Poll] + ([Runs.Op.Poll] + ([Runs.Op.Receive([])] + ([Runs.Op.Poll] + []))), d);
  }

  // ------------------------------------------------------------------ the response

  const NO_CONTENT := Response(204, [], [], Http11)

  /** A client that has closed is answered, without a word on persistence. */
  lemma AnswersSilently(validHost: bytes -> bool, c: Conn)
    requires Owes(c, Closed, true)
    ensures var (d, head) := SendHead(c, NO_CONTENT, FieldsOf(validHost, []));
            head.Some? && !Persistence.Announces(head.value) && !d.KeepAlive()
  {
    EmptySection(validHost);
    var env := GetEnv().(validHost := validHost);
    Persistence.CloseAnnouncementIsExact(env, c, NO_CONTENT);
  }

  /**
   The silence happens: one parser, one request and five calls leave a server whose
   next response head carries no `close` on a connection that will not persist.
   */
  lemma SilenceHappens(limits: Limits, lenient: bool)
    requires limits.maxHead >= |TEXT|
    ensures var c := NewConn(Server, limits, lenient);
            && Runs.Inv(c) && Runs.Disciplined(GetEnv(), c, Served())
            && var (d, head) := SendHead(Runs.Run(GetEnv(), c, Served()), NO_CONTENT, FieldsOf(GetEnv().validHost, []));
               head.Some? && !Persistence.Announces(head.value) && !d.KeepAlive()
  {
    var d := GetIsServed(limits, lenient);
    AnswersSilently(GetEnv().validHost, d);
  }
}
