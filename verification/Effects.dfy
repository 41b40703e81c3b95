/** What one poll may change, event by event. */
module Effects {
  import opened States
  import opened Bytes
  import opened Bodies
  import opened Payload
  import opened Fields
  import opened Messages
  import opened Conn

  predicate IsSuffix(s: bytes, t: bytes) {
    s == t || (|s| < |t| && s == t[|t| - |s|..])
  }

  /** What no poll touches, and input only ever consumed from the front. */
  predicate Untouched(c: Conn, d: Conn) {
    && d.role == c.role && d.limits == c.limits && d.lenient == c.lenient
    && d.held == c.held && d.eof == c.eof
    && d.cycle.writer == c.cycle.writer
    && IsSuffix(d.input, c.input)
  }

  predicate SameOffers(c: Conn, d: Conn) {
    && d.cycle.offers == c.cycle.offers && d.cycle.continueFirst == c.cycle.continueFirst
    && d.cycle.kind == c.cycle.kind
  }

  predicate RequestEffect(c: Conn, d: Conn) {
    c.role == Server && c.Remote() == Idle && c.state.server == Idle && (d.cycle.continueFirst ==> d.cycle.offers != [])
  }

  predicate InformationalEffect(c: Conn, d: Conn, r: Response) {
    && c.role == Client && c.Local() != Idle && r.Informational()
    && d.cycle.offers == c.cycle.offers
    && d.cycle.continueFirst == (c.cycle.continueFirst && r.status != 100)
    && (r.status == 101 ==> !c.cycle.continueFirst && c.ValidUpgrade(r))
  }

  predicate ResponseEffect(c: Conn, d: Conn, r: Response) {
    && c.role == Client && c.Local() != Idle && !r.Informational()
    && d.cycle.offers == [] && !d.cycle.continueFirst
  }

  /** The effect of a poll on input, offers and flags. */
  predicate Effect(c: Conn, r: (Conn, Polled)) {
    var (d, polled) := r;
    && Untouched(c, d)
    && match polled
       case RequestPolled(_) => |d.input| < |c.input| && RequestEffect(c, d)
       case InformationalPolled(head) => |d.input| < |c.input| && InformationalEffect(c, d, head)
       case ResponsePolled(head) => |d.input| < |c.input| && ResponseEffect(c, d, head)
       case DataPolled(count, _, _) => 1 <= count <= |d.input| && SameOffers(c, d) && c.Remote() == SendBody
       case EndPolled(_) => SameOffers(c, d) && c.Remote() == SendBody
       case ClosedPolled => SameOffers(c, d)
       case NeedData => SameOffers(c, d) && d.state == c.state
       case Paused => d == c
       case FaultPolled(_) => c.role == Server || c.Remote() == SendBody ==> SameOffers(c, d)
  }

  lemma SuffixOfSuffix(a: bytes, b: bytes, c: bytes)
    requires IsSuffix(a, b) && IsSuffix(b, c)
    ensures IsSuffix(a, c)
  {
    if |a| < |b| < |c| {
      assert c[|c| - |b|..][|b| - |a|..] == c[|c| - |a|..];
    }
  }

  /** A head read after `PastSection`, seen from before it. */
  lemma PastSectionEffect(c: Conn, end: nat)
    requires 1 <= end <= |c.input|
    ensures Untouched(c, PastSection(c, end)) && |PastSection(c, end).input| < |c.input|
  {
  }

  lemma TakeRequestEffect(c: Conn, r: Request, s: Scanned, framing: Bodies.Framing, upgrades: seq<bytes>)
    requires c.role == Server
    ensures var (d, polled) := TakeRequest(c, r, s, framing, upgrades);
            && Untouched(c, d) && d.input == c.input
            && (polled == RequestPolled(r) || (polled.FaultPolled? && d == c))
            && (polled.RequestPolled? ==>
                  && RequestEffect(c, d) && d.cycle.offers == upgrades
                  && d.cycle.continueFirst == (s.ExpectsContinue(r.version, framing) && upgrades != []))
  {
  }

  /** What accepting a parsed head does, after its bytes were consumed. */
  predicate HeadEffect(c: Conn, r: (Conn, Polled)) {
    var (d, polled) := r;
    && Untouched(c, d) && d.input == c.input
    && (|| (polled.RequestPolled? && RequestEffect(c, d))
        || (polled.InformationalPolled? && InformationalEffect(c, d, polled.response))
        || (polled.ResponsePolled? && ResponseEffect(c, d, polled.response))
        || (polled.FaultPolled? && (c.role == Server ==> SameOffers(c, d))))
  }

  lemma AcceptRequestEffect(c: Conn, r: Request, s: Scanned, validTarget: bool)
    requires c.role == Server
    ensures HeadEffect(c, AcceptRequest(c, r, s, validTarget))
  {
    var framing := s.Frame(r.version, false);
    if framing.Some? {
      TakeRequestEffect(c, r, s, framing.value, ReceivedUpgrades(r, s));
    }
  }

  lemma TakeInformationalEffect(c: Conn, r: Response, event: StateEvent, faulty: bool)
    ensures var (d, polled) := TakeInformational(c, r, event, faulty);
            && Untouched(c, d) && d.input == c.input
            && (polled == InformationalPolled(r) || polled.FaultPolled?)
            && (polled.InformationalPolled? ==>
                  && d.cycle.offers == c.cycle.offers
                  && d.cycle.continueFirst == (c.cycle.continueFirst && r.status != 100))
  {
  }

  lemma BeginResponseEffect(c: Conn, r: Response, framing: Option<Bodies.Framing>)
    ensures var (d, polled) := BeginResponse(c, r, framing);
            && d == c.(state := d.state, cycle := c.cycle.(reader := d.cycle.reader))
            && (polled == ResponsePolled(r) || polled.FaultPolled?)
  {
  }

  lemma TakeFinalEffect(c: Conn, r: Response, persistent: bool, framing: Option<Bodies.Framing>)
    ensures var (d, polled) := TakeFinal(c, r, persistent, framing);
            && Untouched(c, d) && d.input == c.input
            && (polled == ResponsePolled(r) || polled.FaultPolled?)
            && (polled.ResponsePolled? ==> d.cycle.offers == [] && !d.cycle.continueFirst)
  {
    var next := AdvanceRole(c, c.role.Peer(), c.FinalEvent(r));
    if next.Some? {
      var d := if persistent then next.value else next.value.NoKeepAlive();
      BeginResponseEffect(RecordResponse(d).(peerVersion := Some(r.version)), r, framing);
    }
  }

  lemma AcceptResponseEffect(c: Conn, r: Response, s: Scanned)
    requires c.role == Client
    ensures HeadEffect(c, AcceptResponse(c, r, s))
  {
    var event := c.InformationalKind(r);
    if event.Some? {
      TakeInformationalEffect(c, r, event.value, s.Frame(r.version, true).None?);
    }
    TakeFinalEffect(c, r, s.Persistent(r.version), s.Frame(r.version, true));
  }

  lemma SectionDueEffect(c: Conn, skip: bool)
    requires c.cycle.progress.Within(c.input)
    ensures var d := SectionDue(c, skip).0;
            Untouched(c, d) && d.input == c.input && SameOffers(c, d) && d.state == c.state && d.peerVersion == c.peerVersion
    ensures SectionDue(c, skip).0.cycle.reader == c.cycle.reader
  {
  }

  lemma WaitEffect(c: Conn, d: Conn, skip: bool)
    requires Untouched(c, d) && SameOffers(c, d) && d.state == c.state
    ensures Effect(c, WaitForSection(d, skip))
  {
  }

  /** An effect seen from before a section was dropped off the input. */
  lemma FromBefore(c: Conn, p: Conn, r: (Conn, Polled))
    requires Untouched(c, p) && |p.input| < |c.input| && SameOffers(c, p)
    requires p.Local() == Idle <==> c.Local() == Idle
    requires p.Remote() == Idle ==> c.Remote() == Idle
    requires p.state.server == Idle ==> c.state.server == Idle
    requires HeadEffect(p, r) && c.Remote() != SendBody
    ensures Effect(c, r)
  {
  }

  lemma ParseRequestHeadEffect(env: Env, c: Conn, d: Conn)
    requires Untouched(c, d) && d.input == c.input && SameOffers(c, d) && d.state == c.state && c.role == Server
    requires c.Remote() != SendBody
    ensures Effect(c, ParseRequestHead(env, d))
  {
    WaitEffect(c, d, true);
    var parsed := env.parseRequest(Section(d), d.limits.maxCount);
    if parsed.Complete? {
      var r := parsed.value;
      var p := PastSection(d, parsed.end);
      var s, target := FieldsOf(env.validHost, r.headers), env.validTarget(r.verb, r.target);
      PastSectionEffect(d, parsed.end);
      AcceptRequestEffect(p, r, s, target);
      FromBefore(c, p, AcceptRequest(p, r, s, target));
    }
  }

  lemma DisabledLocal(s: ConnectionState)
    ensures DisableKeepAlive(s).client == Idle <==> s.client == Idle && s.server != Closed
    ensures DisableKeepAlive(s).server == Idle ==> s.server == Idle
  {
  }

  lemma TakeResponseHeadEffect(c: Conn, d: Conn, end: nat, head: Head, s: Scanned)
    requires Untouched(c, d) && d.input == c.input && SameOffers(c, d) && d.state == c.state && c.role == Client
    requires (c.Remote() != Closed && c.Remote() != SendBody) && 1 <= end <= |d.input|
    ensures Effect(c, TakeResponseHead(d, end, head, s))
  {
    var e := if head.dropped then d.NoKeepAlive() else d;
    var p := PastSection(e, end);
    PastSectionEffect(e, end);
    DisabledLocal(d.state);
    AcceptResponseEffect(p, head.response, s);
    FromBefore(c, p, AcceptResponse(p, head.response, s));
  }

  lemma ParseResponseHeadEffect(env: Env, c: Conn, d: Conn)
    requires Untouched(c, d) && d.input == c.input && SameOffers(c, d) && d.state == c.state && c.role == Client
    requires (c.Remote() != Closed && c.Remote() != SendBody)
    ensures Effect(c, ParseResponseHead(env, d))
  {
    WaitEffect(c, d, true);
    var parsed := env.parseResponse(Section(d), d.limits.maxCount, d.lenient);
    if parsed.Complete? {
      TakeResponseHeadEffect(c, d, parsed.end, parsed.value, FieldsOf(env.validHost, parsed.value.response.headers));
    }
  }

  lemma ReadHeadEffect(env: Env, c: Conn)
    requires c.cycle.progress.Within(c.input) && (c.Remote() != Closed && c.Remote() != SendBody)
    ensures Effect(c, ReadHead(env, c))
  {
    var d := SectionDue(c, true).0;
    SectionDueEffect(c, true);
    WaitEffect(c, d, true);
    if c.role == Server {
      ParseRequestHeadEffect(env, c, d);
    } else {
      ParseResponseHeadEffect(env, c, d);
    }
  }

  lemma FinishPeerEffect(c: Conn, d: Conn, trailers: Headers)
    requires Untouched(c, d) && SameOffers(c, d) && d.state == c.state && c.Remote() == SendBody
    ensures Effect(c, FinishPeer(d, trailers))
  {
  }

  lemma ParseTrailersEffect(env: Env, c: Conn, e: Conn)
    requires Untouched(c, e) && SameOffers(c, e) && e.state == c.state && c.Remote() == SendBody
    ensures Effect(c, ParseTrailers(env, e))
  {
    WaitEffect(c, e, false);
    var parsed := env.parseTrailers(Section(e), e.limits.maxCount, e.role == Client);
    if parsed.Complete? {
      PastSectionEffect(e, parsed.end);
      SuffixOfSuffix(PastSection(e, parsed.end).input, e.input, c.input);
      FinishPeerEffect(c, PastSection(e, parsed.end), parsed.value);
    }
  }

  lemma ReadTrailersEffect(env: Env, c: Conn, d: Conn)
    requires Untouched(c, d) && SameOffers(c, d) && d.state == c.state && c.Remote() == SendBody
    requires d.cycle.progress.Within(d.input)
    ensures Effect(c, ReadTrailers(env, d))
  {
    var e := SectionDue(d, false).0;
    SectionDueEffect(d, false);
    WaitEffect(c, e, false);
    ParseTrailersEffect(env, c, e);
  }

  lemma PeerDataEffect(c: Conn, d: Conn, count: nat, first: bool, last: bool)
    requires Untouched(c, d) && SameOffers(c, d) && c.Remote() == SendBody && 1 <= count <= |d.input|
    ensures Effect(c, PeerData(d, count, first, last))
  {
  }

  lemma StarvedEffect(c: Conn, d: Conn)
    requires Untouched(c, d) && SameOffers(c, d) && d.state == c.state
    ensures Effect(c, NeedDataOrEof(d))
  {
  }

  lemma AfterBodyEffect(env: Env, c: Conn, d: Conn, got: Got)
    requires Untouched(c, d) && SameOffers(c, d) && d.state == c.state && c.Remote() == SendBody
    requires got == Ended(AtTrailers) ==> d.cycle.progress.Within(d.input)
    requires got.Piece? ==> 1 <= got.count <= |d.input|
    ensures Effect(c, AfterBody(env, d, got))
  {
    match got
    case Piece(count, first, last) => PeerDataEffect(c, d, count, first, last);
    case Ended(Finished) => FinishPeerEffect(c, d, []);
    case Ended(Starved) =>
      FinishPeerEffect(c, d, []);
      StarvedEffect(c, d);
    case Ended(Broken(_)) =>
    case Ended(AtTrailers) => ReadTrailersEffect(env, c, d);
  }

  lemma AfterPullEffect(c: Conn, p: Pulled)
    requires p.skip <= |c.input|
    ensures var d := AfterPull(c, p); Untouched(c, d) && SameOffers(c, d) && d.state == c.state
  {
  }

  lemma ClosePeerEffect(c: Conn, d: Conn)
    requires Untouched(c, d) && SameOffers(c, d)
    ensures Effect(c, ClosePeer(d))
  {
  }

  lemma ReadPeerEffect(env: Env, c: Conn)
    requires Sound(c) && IsReading(c.Remote()) && (c.Remote() == SendBody <==> !c.cycle.reader.Head?)
    ensures Effect(c, ReadPeer(env, c))
  {
    if c.Remote() == SendBody {
      var p := Pull(c);
      AfterPullEffect(c, p);
      AfterBodyEffect(env, c, AfterPull(c, p), p.got);
    } else {
      ClosePeerEffect(c, c.(input := []));
      ReadHeadEffect(env, c);
    }
  }

  lemma InnerEffect(env: Env, c: Conn)
    requires Sound(c) && (IsReading(c.Remote()) ==> (c.Remote() == SendBody <==> !c.cycle.reader.Head?))
    ensures Effect(c, NextEventInner(env, c))
  {
    if (c.Remote() == Done || c.Remote() == MustClose) {
      ClosePeerEffect(c, c);
    } else if IsReading(c.Remote()) {
      ReadPeerEffect(env, c);
    }
  }
}
