/**
 The connection object: the same calls, made in place.

 Each method follows the engine's own steps on mutable fields and is proved to
 leave exactly the value its function in `Conn` names. The run-level theorems
 about those functions are theorems about this object.
 */
module Connections {
  import opened States
  import opened Bytes
  import opened ChunkHeaders
  import opened Bodies
  import opened Payload
  import opened Buffers
  import opened Fields
  import opened Options
  import opened Messages
  import opened JointStates
  import C = Conn
  import Runs

  /** What the decoder's fields promise each other while a message is read. */
  predicate Coupled(c: C.Conn) {
    && C.Sound(c)
    && (C.IsReading(c.Remote()) ==> (c.Remote() == SendBody <==> !c.cycle.reader.Head?))
    && (c.Remote() == SendBody ==>
          && ScanOk(c.cycle.reader, c.input)
          && (c.cycle.reader == Reader.Chunked(Trailers) || c.cycle.progress == FRESH))
  }

  lemma InvIsCoupled(c: C.Conn)
    requires Runs.Inv(c)
    ensures Coupled(c)
  {
  }

  /** The connection past one chunk-size line. */
  function PastLine(c: C.Conn, end: nat, size: nat, ext: nat): C.Conn
    requires end <= |c.input|
  {
    c.(input := c.input[end..],
       cycle := c.cycle.(reader := AfterLine(size), ext := ext,
                         progress := if size == 0 then FRESH else c.cycle.progress))
  }

  predicate AtChunk(c: C.Conn) {
    Coupled(c) && c.Remote() == SendBody && c.cycle.reader.Chunked?
  }

  /** The extension bytes counted once a line was scanned. */
  function ExtAfter(max: nat, c: C.Conn, line: Line): nat
    requires AtChunk(c) && c.cycle.reader.chunk.Size?
  {
    if line.Line? then line.ext else CountedExt(max, c.cycle.ext, c.cycle.reader.chunk.scanned, c.input)
  }

  /** A decoder at the trailers stays there. */
  lemma LeavesTrailers(max: nat, body: Bodies.Body, input: bytes)
    requires InBody(body.reader)
    ensures body.reader == Reader.Chunked(Trailers) ==> PullBody(max, body, input) == Pulled(body, 0, Ended(AtTrailers))
  {
  }

  lemma ReadsPastSize(env: Env, c: C.Conn, end: nat, size: nat, ext: nat)
    requires AtChunk(c) && c.cycle.reader.chunk.Size?
    requires ReadLine(c.limits.maxHead, c.cycle.ext, c.cycle.reader.chunk.scanned, c.input) == Line(end, size, ext)
    ensures Coupled(PastLine(c, end, size, ext)) && PastLine(c, end, size, ext).Remote() == SendBody
    ensures C.ReadBody(env, c) == C.ReadBody(env, PastLine(c, end, size, ext))
  {
    var d := PastLine(c, end, size, ext);
    var p := C.Pull(d);
    assert C.Pull(c) == Skipping(end, p);
    assert c.input[end..][p.skip..] == c.input[end + p.skip..];
    LeavesTrailers(c.limits.maxHead, Bodies.Body(AfterLine(size), ext), d.input);
    assert C.AfterPull(c, C.Pull(c)) == C.AfterPull(d, p);
  }

  lemma InnerReadsBody(env: Env, d: C.Conn)
    requires Coupled(d) && d.Remote() == SendBody
    ensures C.NextEventInner(env, d) == C.ReadBody(env, d)
  {
  }

  /** Reading a body through a chunk-size line is reading it from behind that line. */
  lemma ReadsPastLine(env: Env, c: C.Conn, end: nat, size: nat, ext: nat)
    requires AtChunk(c) && c.cycle.reader.chunk.Size?
    requires ReadLine(c.limits.maxHead, c.cycle.ext, c.cycle.reader.chunk.scanned, c.input) == Line(end, size, ext)
    ensures Coupled(PastLine(c, end, size, ext)) && PastLine(c, end, size, ext).Remote() == SendBody
    ensures C.ReadBody(env, c) == C.NextEventInner(env, PastLine(c, end, size, ext))
  {
    ReadsPastSize(env, c, end, size, ext);
    InnerReadsBody(env, PastLine(c, end, size, ext));
  }

  /** The connection past the CRLF behind a chunk. */
  function PastCrlf(c: C.Conn): C.Conn
    requires |c.input| >= 2
  {
    c.(input := c.input[2..], cycle := c.cycle.(reader := Reader.Chunked(Size(0))))
  }

  lemma ReadsPastCrlf(env: Env, c: C.Conn)
    requires AtChunk(c) && c.cycle.reader.chunk.DataEnd? && |c.input| >= 2 && c.input[..2] == CRLF
    ensures Coupled(PastCrlf(c)) && PastCrlf(c).Remote() == SendBody
    ensures C.ReadBody(env, c) == C.ReadBody(env, PastCrlf(c))
  {
    var d := PastCrlf(c);
    var p := C.Pull(d);
    assert C.Pull(c) == Skipping(2, p);
    assert c.input[2..][p.skip..] == c.input[2 + p.skip..];
    assert C.AfterPull(c, C.Pull(c)) == C.AfterPull(d, p);
  }

  lemma PayloadStarved(env: Env, c: C.Conn)
    requires Coupled(c) && c.Remote() == SendBody && InPayload(c.cycle.reader) && c.input == []
    ensures C.ReadBody(env, c) == C.AfterBody(env, c, Ended(Starved))
  {
    assert c.input[0..] == c.input;
  }

  lemma PayloadPiece(env: Env, c: C.Conn)
    requires Coupled(c) && c.Remote() == SendBody && InPayload(c.cycle.reader) && c.input != []
    ensures var m := Bodies.Advance(c.cycle.reader, |c.input|);
            C.ReadBody(env, c) == C.PeerData(c.WithReader(m.reader), m.count, m.first, m.last)
  {
    assert c.input[0..] == c.input;
  }

  lemma FixedEnds(env: Env, c: C.Conn)
    requires Coupled(c) && c.Remote() == SendBody && c.cycle.reader == Reader.Fixed(0)
    ensures C.ReadBody(env, c) == C.FinishPeer(c, [])
  {
    assert c.input[0..] == c.input;
  }

  /** A pull that skips nothing leaves the input, and the progress unless trailers begin. */
  lemma SkipsNothing(c: C.Conn, p: Pulled)
    requires p.skip == 0 && (p.got == Ended(AtTrailers) ==> c.cycle.reader == Reader.Chunked(Trailers))
    ensures C.AfterPull(c, p) == c.(cycle := c.cycle.(reader := p.body.reader, ext := p.body.ext))
  {
    assert c.input[0..] == c.input;
  }

  lemma TrailersStop(env: Env, c: C.Conn)
    requires AtChunk(c) && c.cycle.reader.chunk.Trailers?
    ensures C.ReadBody(env, c) == C.ReadTrailers(env, c)
  {
    assert C.Pull(c) == Pulled(Bodies.Body(c.cycle.reader, c.cycle.ext), 0, Ended(AtTrailers));
    SkipsNothing(c, C.Pull(c));
    assert C.AfterPull(c, C.Pull(c)) == c;
  }

  lemma DataEndStops(env: Env, c: C.Conn)
    requires AtChunk(c) && c.cycle.reader.chunk.DataEnd?
    requires |c.input| < 2 || c.input[..2] != CRLF
    ensures C.ReadBody(env, c) ==
            if |c.input| < 2 then C.NeedDataOrEof(c) else (c, C.Fault400(MissingCrlf))
  {
    var stop := if |c.input| < 2 then Starved else Broken(MissingCrlf);
    assert C.Pull(c) == Pulled(Bodies.Body(c.cycle.reader, c.cycle.ext), 0, Ended(stop));
    SkipsNothing(c, C.Pull(c));
    assert C.AfterPull(c, C.Pull(c)) == c;
  }

  /** A chunk-size line that is not there yet. */
  lemma SizeWaits(env: Env, c: C.Conn)
    requires AtChunk(c) && c.cycle.reader.chunk.Size?
    requires ReadLine(c.limits.maxHead, c.cycle.ext, c.cycle.reader.chunk.scanned, c.input).NoLine?
    ensures C.ReadBody(env, c) == C.NeedDataOrEof(c.WithReader(Reader.Chunked(Size(NextScan(c.input)))))
  {
    SkipsNothing(c, C.Pull(c));
    assert C.AfterPull(c, C.Pull(c)) == c.WithReader(Reader.Chunked(Size(NextScan(c.input))));
  }

  /** A chunk-size line that is not acceptable. */
  lemma SizeFails(env: Env, c: C.Conn, fault: Fault)
    requires AtChunk(c) && c.cycle.reader.chunk.Size?
    requires ReadLine(c.limits.maxHead, c.cycle.ext, c.cycle.reader.chunk.scanned, c.input) == Failed(fault)
    ensures var ext := CountedExt(c.limits.maxHead, c.cycle.ext, c.cycle.reader.chunk.scanned, c.input);
            C.ReadBody(env, c) == (c.(cycle := c.cycle.(ext := ext)), C.Fault400(fault))
  {
    SkipsNothing(c, C.Pull(c));
  }

  class Connection {
    const role: Role
    const limits: C.Limits
    const lenient: bool
    const env: Env
    const joint: JointState
    const input: Buffer
    var held: nat
    var eof: bool
    var peerVersion: Option<Version>
    var cycle: C.Cycle

    ghost function Value(): C.Conn
      reads this, joint, input
      requires input.Valid()
    {
      C.Conn(role, joint.Value(), limits, lenient, input.Contents(), held, eof, peerVersion, cycle)
    }

    /** The object is whole, and its value is one a run can reach. */
    ghost predicate Valid()
      reads this, joint, input
    {
      input.Valid() && Runs.Inv(Value())
    }

    constructor (role: Role, limits: C.Limits, lenient: bool, env: Env)
      ensures Valid() && fresh(joint) && fresh(input)
      ensures Value() == C.NewConn(role, limits, lenient) && this.env == env
    {
      this.role, this.limits, this.lenient, this.env := role, limits, lenient, env;
      joint := new JointState();
      input := new Buffer();
      held, eof, peerVersion, cycle := 0, false, None, C.NEW_CYCLE;
    }

    // ------------------------------------------------------------------ reading

    predicate RequestIs(kind: C.RequestKind)
      reads this
    {
      cycle.kind == Some(kind)
    }

    predicate OpensTunnel(r: Response)
      reads this
    {
      RequestIs(C.ConnectKind) && r.Success()
    }

    predicate ResponseHasNoBody(r: Response)
      reads this
    {
      r.status == 204 || r.status == 304 || RequestIs(C.HeadKind) || OpensTunnel(r)
    }

    function FinalResponseEvent(r: Response): StateEvent
      reads this
    {
      if OpensTunnel(r) then SwitchEvent(Connect) else ResponseEvent
    }

    function LocalState(): State
      reads this, joint
    {
      joint.Value().Of(role)
    }

    function PeerState(): State
      reads this, joint
    {
      joint.Value().Of(role.Peer())
    }

    // ----------------------------------------------------------------- receiving

    method RecordEof()
      requires input.Valid()
      modifies this`eof, joint
      ensures input.Valid() && Value() == C.ReceiveData(old(Value()), []).0
    {
      eof := true;
      if role == Client {
        joint.Disable();
      }
    }

    method ReceiveData(data: bytes) returns (ok: bool)
      requires Valid()
      modifies this, joint, input
      ensures Valid() && (Value(), ok) == C.ReceiveData(old(Value()), data)
    {
      Runs.ReceiveInv(Value(), data);
      if eof && data != [] {
        return false;
      }
      if data == [] {
        RecordEof();
      } else {
        input.Extend(data);
      }
      return true;
    }

    function PayloadLeft(): Option<nat>
      reads this, joint
    {
      if PeerState() != SendBody then None else PayloadRemaining(cycle.reader)
    }

    method HoldBodyData(count: nat) returns (fits: bool)
      requires Valid()
      modifies this`held
      ensures Valid() && (Value(), fits) == C.HoldBodyData(old(Value()), count)
    {
      Runs.HoldInv(Value(), count);
      var room := PayloadLeft();
      fits := count != 0 && !eof && input.Contents() == [] && room.Some? && held + count <= room.value;
      if fits {
        held := held + count;
      }
    }

    /** Takes off the decoder what it still expects of the available payload. */
    method AdvancePayload(available: nat) returns (count: nat, first: bool, last: bool)
      modifies this`cycle
      ensures var m := Bodies.Advance(old(cycle.reader), available);
              && cycle == old(cycle).(reader := m.reader)
              && count == m.count && first == m.first && last == m.last
    {
      match cycle.reader
      case Fixed(remaining) =>
        count := if remaining < available then remaining else available;
        cycle := cycle.(reader := Reader.Fixed(remaining - count));
        first, last := false, false;
      case Chunked(Data(remaining, atStart)) =>
        count := if remaining < available then remaining else available;
        first, last := atStart, count == remaining;
        cycle := cycle.(reader := Reader.Chunked(if last then DataEnd else Data(remaining - count, false)));
      case _ =>
        count, first, last := available, false, false;
    }

    method PeerData(count: nat, first: bool, last: bool) returns (polled: C.Polled)
      requires input.Valid()
      modifies this`cycle, joint
      ensures input.Valid() && (Value(), polled) == C.PeerData(old(Value()), count, first, last)
    {
      var ok := joint.Process(role.Peer(), DataEvent);
      if !ok {
        return C.Fault400(WrongState);
      }
      cycle := cycle.(waiting := false);
      return C.DataPolled(count, first, last);
    }

    method NextEventInPlace(count: nat) returns (flags: Option<(bool, bool)>)
      requires Valid()
      modifies this`cycle, this`held, joint
      ensures Valid() && (Value(), flags) == C.NextEventInPlace(old(Value()), count)
    {
      Runs.InPlaceInv(Value(), count);
      if count == 0 || count > held {
        return None;
      }
      flags := HandOver(count);
    }

    method HandOver(count: nat) returns (flags: Option<(bool, bool)>)
      requires input.Valid() && 0 < count <= held
      modifies this`cycle, this`held, joint
      ensures input.Valid() && (Value(), flags) == C.NextEventInPlace(old(Value()), count)
    {
      ghost var c := Value();
      ghost var m := Bodies.Advance(cycle.reader, count);
      var _, first, last := AdvancePayload(count);
      assert Value() == c.WithReader(m.reader);
      var polled := PeerData(count, first, last);
      if !polled.DataPolled? {
        return None;
      }
      held := held - count;
      return Some((first, last));
    }

    method FinishPeer(trailers: Headers) returns (polled: C.Polled)
      requires input.Valid()
      modifies this`cycle, joint
      ensures input.Valid() && (Value(), polled) == C.FinishPeer(old(Value()), trailers)
    {
      var ok := joint.Process(role.Peer(), EndEvent);
      if !ok {
        return C.Fault400(WrongState);
      }
      cycle := cycle.(reader := Reader.Head);
      return C.EndPolled(trailers);
    }

    method PeerClosed() returns (polled: C.Polled)
      requires input.Valid()
      modifies joint
      ensures input.Valid() && (Value(), polled) == C.ClosePeer(old(Value()))
    {
      var ok := joint.Process(role.Peer(), ClosedEvent);
      return if ok then C.ClosedPolled else C.Fault400(WrongState);
    }

    method NeedDataOrEof() returns (polled: C.Polled)
      requires input.Valid()
      ensures (Value(), polled) == C.NeedDataOrEof(Value())
    {
      return if eof then C.Fault400(UnexpectedEof) else C.NeedData;
    }

    method SectionDue(skip: bool) returns (due: bool)
      requires input.Valid() && cycle.progress.Within(input.Contents())
      modifies this`cycle
      ensures (Value(), due) == C.SectionDue(old(Value()), skip)
    {
      if eof || |input.Contents()| > limits.maxHead {
        return true;
      }
      var progress;
      progress, due := DueSection(cycle.progress, input.Contents(), skip);
      cycle := cycle.(progress := progress);
    }

    function Section(): bytes
      reads this, input
      requires input.Valid()
    {
      if |input.Contents()| <= limits.maxHead then input.Contents() else input.Contents()[..limits.maxHead]
    }

    method WaitForSection(skip: bool) returns (polled: C.Polled)
      requires input.Valid()
      ensures (Value(), polled) == C.WaitForSection(Value(), skip)
    {
      if |input.Contents()| <= limits.maxHead {
        polled := NeedDataOrEof();
      } else if !skip {
        polled := C.Fault400(HeadTooLong);
      } else {
        var status := if C.StartLineUnfinished(Section()) then 414 else 431;
        polled := C.FaultPolled(C.PeerFault(HeadTooLong, Some(status)));
      }
    }

    method Drop(count: nat)
      requires input.Valid() && count <= |input.Contents()|
      modifies input
      ensures input.Valid() && input.Contents() == old(input.Contents())[count..]
    {
      input.Consume(count);
    }

    /** Drops a parsed section off the input. */
    method ConsumeSection(end: nat)
      requires input.Valid() && end <= |input.Contents()|
      modifies this`cycle, input
      ensures input.Valid() && Value() == C.PastSection(old(Value()), end)
    {
      ghost var c := Value();
      Drop(end);
      cycle := cycle.(progress := FRESH);
      assert Value() == c.(input := c.input[end..], cycle := c.cycle.(progress := FRESH));
    }

    method RecordRequest(r: Request, fields: Scanned, framing: Bodies.Framing, upgrades: seq<bytes>)
      requires input.Valid()
      modifies this`cycle, joint
      ensures input.Valid() && Value() == C.RecordRequest(old(Value()), r, fields, framing, upgrades)
    {
      if !fields.Persistent(r.version) {
        joint.Disable();
      }
      var waiting := fields.ExpectsContinue(r.version, framing);
      cycle := cycle.(kind := Some(C.KindOfMethod(r.verb)), waiting := waiting,
                      continueFirst := waiting && upgrades != [], offers := upgrades);
    }

    method RecordInformational(status: nat)
      requires input.Valid()
      modifies this`cycle
      ensures Value() == C.RecordInformational(old(Value()), status)
    {
      if status == 100 {
        cycle := cycle.(waiting := false, continueFirst := false);
      }
    }

    method RecordResponse()
      requires input.Valid()
      modifies this`cycle
      ensures Value() == C.RecordResponse(old(Value()))
    {
      cycle := cycle.(waiting := false, continueFirst := false, offers := []);
    }

    method AcceptRequest(r: Request) returns (polled: C.Polled)
      requires input.Valid()
      modifies this`cycle, this`peerVersion, joint
      ensures input.Valid()
      ensures (Value(), polled) == C.AcceptRequest(old(Value()), r, FieldsOf(env.validHost, r.headers),
                                                   env.validTarget(r.verb, r.target))
    {
      if !env.validTarget(r.verb, r.target) {
        return C.Fault400(BadRequest);
      }
      var fields := Scan(env.validHost, r.headers);
      if !fields.HostOk(r.version) {
        return C.Fault400(BadRequest);
      }
      var framing := fields.Frame(r.version, false);
      if framing.None? {
        var status := if r.version == Http10 then 400 else C.FramingStatus(fields);
        return C.FaultPolled(C.PeerFault(BadFraming, Some(status)));
      }
      if C.ContentForbidden(r.verb, framing.value) {
        return C.Fault400(BadRequest);
      }
      polled := TakeRequest(r, fields, framing.value, C.ReceivedUpgrades(r, fields));
    }

    method TakeRequest(r: Request, fields: Scanned, framing: Bodies.Framing, upgrades: seq<bytes>)
      returns (polled: C.Polled)
      requires input.Valid()
      modifies this`cycle, this`peerVersion, joint
      ensures input.Valid() && (Value(), polled) == C.TakeRequest(old(Value()), r, fields, framing, upgrades)
    {
      var ok := joint.Process(role.Peer(), C.RequestProposals(r, upgrades));
      if !ok {
        return C.Fault400(WrongState);
      }
      RecordRequest(r, fields, framing, upgrades);
      peerVersion := Some(r.version);
      cycle := cycle.(reader := ReaderFor(framing));
      return C.RequestPolled(r);
    }

    method AcceptInformational(r: Response, framing: Option<Bodies.Framing>) returns (polled: C.Polled)
      requires input.Valid()
      modifies this`cycle, this`peerVersion, joint
      ensures input.Valid()
      ensures forall s: Scanned :: s.Frame(r.version, true) == framing ==>
                (Value(), polled) == C.AcceptInformational(old(Value()), r, s)
    {
      var event := InformationalEventFor(r);
      if event.None? {
        return C.FaultPolled(C.PeerFault(BadResponse, None));
      }
      var ok := joint.Process(role.Peer(), event.value);
      if !ok {
        return C.Fault400(WrongState);
      }
      if framing.None? {
        joint.Disable();
      }
      RecordInformational(r.status);
      peerVersion := Some(r.version);
      return C.InformationalPolled(r);
    }

    /** The event of a 1xx response; nothing for a 101 that selects no offer. */
    function InformationalEventFor(r: Response): (event: Option<StateEvent>)
      requires input.Valid()
      reads this, joint, input
      ensures event == Value().InformationalKind(r)
    {
      if r.status != 101 then Some(InformationalEvent)
      else if !cycle.continueFirst && ValidUpgradeResponse(r) then Some(SwitchEvent(Upgrade))
      else None
    }

    predicate ValidUpgradeResponse(r: Response)
      reads this
    {
      && r.version == Http11
      && HasToken(r.headers, CONNECTION, UPGRADE)
      && var selected := UpgradeProtocols(r.headers);
      selected.Some? && selected.value != [] && AllOffered(cycle.offers, selected.value)
    }

    method AcceptFinal(r: Response, persistent: bool, framing: Option<Bodies.Framing>) returns (polled: C.Polled)
      requires input.Valid()
      modifies this`cycle, this`peerVersion, joint
      ensures input.Valid() && (Value(), polled) == C.TakeFinal(old(Value()), r, persistent, framing)
    {
      var ok := joint.Process(role.Peer(), FinalResponseEvent(r));
      if !ok {
        return C.Fault400(WrongState);
      }
      if !persistent {
        joint.Disable();
      }
      RecordResponse();
      peerVersion := Some(r.version);
      polled := BeginBody(r, framing);
    }

    method BeginBody(r: Response, declared: Option<Bodies.Framing>) returns (polled: C.Polled)
      requires input.Valid()
      modifies this`cycle, joint
      ensures input.Valid() && (Value(), polled) == C.BeginResponse(old(Value()), r, declared)
    {
      var framing := Bodies.Framing.Fixed(0);
      if ResponseHasNoBody(r) {
        if declared.None? {
          joint.Disable();
        }
      } else if declared.None? {
        return C.FaultPolled(C.PeerFault(BadFraming, Some(400)));
      } else {
        framing := declared.value;
      }
      if framing == Bodies.Framing.CloseDelimited {
        joint.Disable();
      }
      cycle := cycle.(reader := ReaderFor(framing));
      return C.ResponsePolled(r);
    }

    method AcceptResponse(r: Response) returns (polled: C.Polled)
      requires input.Valid()
      modifies this`cycle, this`peerVersion, joint
      ensures input.Valid()
      ensures (Value(), polled) == C.AcceptResponse(old(Value()), r, FieldsOf(env.validHost, r.headers))
    {
      if LocalState() == Idle {
        return C.FaultPolled(C.PeerFault(BadResponse, None));
      }
      var fields := Scan(env.validHost, r.headers);
      var framing := fields.Frame(r.version, true);
      if r.Informational() {
        polled := AcceptInformational(r, framing);
      } else {
        polled := AcceptFinal(r, fields.Persistent(r.version), framing);
      }
    }

    method ReadHead() returns (polled: C.Polled)
      requires input.Valid() && cycle.progress.Within(input.Contents())
      modifies this`cycle, this`peerVersion, joint, input
      ensures input.Valid() && (Value(), polled) == C.ReadHead(env, old(Value()))
    {
      var due := SectionDue(true);
      if !due {
        polled := WaitForSection(true);
      } else if role == Server {
        polled := ParseRequestHead();
      } else {
        polled := ParseResponseHead();
      }
    }

    method ParseRequestHead() returns (polled: C.Polled)
      requires input.Valid()
      modifies this`cycle, this`peerVersion, joint, input
      ensures input.Valid() && (Value(), polled) == C.ParseRequestHead(env, old(Value()))
    {
      match env.parseRequest(Section(), limits.maxCount)
      case Rejected(status) => polled := C.FaultPolled(C.PeerFault(BadSyntax, status));
      case Partial => polled := WaitForSection(true);
      case Complete(end, r) =>
        ConsumeSection(end);
        polled := AcceptRequest(r);
    }

    method ParseResponseHead() returns (polled: C.Polled)
      requires input.Valid()
      modifies this`cycle, this`peerVersion, joint, input
      ensures input.Valid() && (Value(), polled) == C.ParseResponseHead(env, old(Value()))
    {
      match env.parseResponse(Section(), limits.maxCount, lenient)
      case Rejected(status) => polled := C.FaultPolled(C.PeerFault(BadSyntax, status));
      case Partial => polled := WaitForSection(true);
      case Complete(end, head) =>
        if head.dropped {
          joint.Disable();
        }
        ConsumeSection(end);
        polled := AcceptResponse(head.response);
    }

    method ReadTrailers() returns (polled: C.Polled)
      requires input.Valid() && cycle.progress.Within(input.Contents())
      modifies this`cycle, joint, input
      ensures input.Valid() && (Value(), polled) == C.ReadTrailers(env, old(Value()))
    {
      var due := SectionDue(false);
      if !due {
        polled := WaitForSection(false);
        return;
      }
      match env.parseTrailers(Section(), limits.maxCount, role == Client)
      case Rejected(status) => polled := C.FaultPolled(C.PeerFault(BadSyntax, status));
      case Partial => polled := WaitForSection(false);
      case Complete(end, trailers) =>
        ConsumeSection(end);
        polled := FinishPeer(trailers);
    }

    method ReadPayload() returns (polled: C.Polled)
      requires input.Valid() && Coupled(Value()) && PeerState() == SendBody && InPayload(cycle.reader)
      requires !cycle.reader.CloseDelimited?
      modifies this`cycle, joint
      ensures input.Valid() && (Value(), polled) == C.ReadBody(env, old(Value()))
    {
      ghost var c := Value();
      var available := |input.Contents()|;
      if available == 0 {
        PayloadStarved(env, c);
        polled := NeedDataOrEof();
        return;
      }
      PayloadPiece(env, c);
      var count, first, last := AdvancePayload(available);
      polled := PeerData(count, first, last);
    }

    method ReadCloseDelimited() returns (polled: C.Polled)
      requires input.Valid() && Coupled(Value()) && PeerState() == SendBody && cycle.reader.CloseDelimited?
      modifies this`cycle, joint
      ensures input.Valid() && (Value(), polled) == C.ReadBody(env, old(Value()))
    {
      var count := |input.Contents()|;
      if count > 0 {
        PayloadPiece(env, Value());
        polled := PeerData(count, false, false);
        return;
      }
      PayloadStarved(env, Value());
      if eof {
        polled := FinishPeer([]);
      } else {
        polled := C.NeedData;
      }
    }

    /** Reads one chunk-size line with its limits, counting its extension bytes. */
    method ScanLine(scanned: nat) returns (line: Line)
      requires input.Valid()
      modifies this`cycle
      ensures line == ReadLine(limits.maxHead, old(cycle.ext), scanned, input.Contents())
      ensures cycle == old(cycle).(ext := if line.Line? then line.ext
                                          else CountedExt(limits.maxHead, old(cycle.ext), scanned, input.Contents()))
    {
      var end := FindCrlf(input.Contents(), scanned);
      if end.None? {
        return if IncompleteLineLen(input.Contents()) > limits.maxHead then Failed(ChunkLineTooLong) else NoLine;
      }
      if end.value - 2 > limits.maxHead {
        return Failed(ChunkLineTooLong);
      }
      var text := input.Contents()[..end.value - 2];
      var size := ParseChunkHeader(text);
      if size.None? {
        return Failed(BadChunkSize);
      }
      cycle := cycle.(ext := cycle.ext + |text| - HexLen(text));
      if cycle.ext > limits.maxHead {
        return Failed(ExtensionsTooLong);
      }
      return Line(end.value, size.value, cycle.ext);
    }

    method ReadChunkSize(scanned: nat) returns (polled: C.Polled)
      requires input.Valid() && AtChunk(Value()) && cycle.reader.chunk == Size(scanned)
      modifies this`cycle, this`peerVersion, joint, input
      ensures input.Valid() && (Value(), polled) == C.ReadBody(env, old(Value()))
      decreases |input.Contents()|, 2
    {
      ghost var c := Value();
      var line := ScanLine(scanned);
      polled := ActOnLine(line, c);
    }

    /** Goes on by what the scan for a chunk-size line found. */
    method ActOnLine(line: Line, ghost c: C.Conn) returns (polled: C.Polled)
      requires input.Valid() && AtChunk(c) && c.cycle.reader.chunk.Size?
      requires line == ReadLine(limits.maxHead, c.cycle.ext, c.cycle.reader.chunk.scanned, c.input)
      requires Value() == c.(cycle := c.cycle.(ext := ExtAfter(limits.maxHead, c, line)))
      modifies this`cycle, this`peerVersion, joint, input
      ensures input.Valid() && (Value(), polled) == C.ReadBody(env, c)
      decreases |input.Contents()|, 1
    {
      match line
      case NoLine =>
        SizeWaits(env, c);
        assert Value() == c;
        polled := AwaitLine();
      case Failed(fault) =>
        SizeFails(env, c, fault);
        polled := C.Fault400(fault);
      case Line(end, size, ext) =>
        ReadsPastLine(env, c, end, size, ext);
        assert PastLine(Value(), end, size, cycle.ext) == PastLine(c, end, size, ext);
        polled := ReadOn(end, size);
    }

    /** Goes on behind an accepted chunk-size line. */
    method ReadOn(end: nat, size: nat) returns (polled: C.Polled)
      requires input.Valid() && 1 <= end <= |input.Contents()| && Coupled(PastLine(Value(), end, size, cycle.ext))
      modifies this`cycle, this`peerVersion, joint, input
      ensures input.Valid()
      ensures (Value(), polled) == C.NextEventInner(env, PastLine(old(Value()), end, size, old(cycle.ext)))
      decreases |input.Contents()|, 0
    {
      TakeLine(end, size);
      polled := NextEventInner();
    }

    /** Waits for a line's end, remembering how far the search for it went. */
    method AwaitLine() returns (polled: C.Polled)
      requires input.Valid()
      modifies this`cycle
      ensures input.Valid()
      ensures var c := old(Value());
              (Value(), polled) == C.NeedDataOrEof(c.WithReader(Reader.Chunked(Size(NextScan(c.input)))))
    {
      cycle := cycle.(reader := Reader.Chunked(Size(NextScan(input.Contents()))));
      polled := NeedDataOrEof();
    }

    /** Drops an accepted chunk-size line, already counted, off the input. */
    method TakeLine(end: nat, size: nat)
      requires input.Valid() && end <= |input.Contents()|
      modifies this`cycle, input
      ensures input.Valid() && Value() == PastLine(old(Value()), end, size, old(cycle.ext))
    {
      Drop(end);
      if size == 0 {
        cycle := cycle.(reader := Reader.Chunked(Trailers), progress := FRESH);
      } else {
        cycle := cycle.(reader := Reader.Chunked(Data(size, true)));
      }
    }

    method ReadDataEnd() returns (polled: C.Polled)
      requires input.Valid() && AtChunk(Value()) && cycle.reader.chunk.DataEnd?
      modifies this`cycle, this`peerVersion, joint, input
      ensures input.Valid() && (Value(), polled) == C.ReadBody(env, old(Value()))
      decreases |input.Contents()|, 0
    {
      ghost var c := Value();
      if |input.Contents()| < 2 {
        DataEndStops(env, c);
        polled := NeedDataOrEof();
        return;
      }
      if input.Contents()[..2] != CRLF {
        DataEndStops(env, c);
        return C.Fault400(MissingCrlf);
      }
      ReadsPastCrlf(env, c);
      Drop(2);
      cycle := cycle.(reader := Reader.Chunked(Size(0)));
      polled := NextEventInner();
    }

    method ReadChunked() returns (polled: C.Polled)
      requires input.Valid() && AtChunk(Value())
      modifies this`cycle, this`peerVersion, joint, input
      ensures input.Valid() && (Value(), polled) == C.ReadBody(env, old(Value()))
      decreases |input.Contents()|, 3
    {
      match cycle.reader.chunk
      case Size(scanned) => polled := ReadChunkSize(scanned);
      case Data(_, _) => polled := ReadPayload();
      case DataEnd => polled := ReadDataEnd();
      case Trailers =>
        TrailersStop(env, Value());
        polled := ReadTrailers();
    }

    method NextEventInner() returns (polled: C.Polled)
      requires input.Valid() && Coupled(Value())
      modifies this`cycle, this`peerVersion, joint, input
      ensures input.Valid() && (Value(), polled) == C.NextEventInner(env, old(Value()))
      decreases |input.Contents()|, 5
    {
      var state := PeerState();
      if state == Closed {
        return C.ClosedPolled;
      }
      if state == Idle && eof && |input.Contents()| <= limits.maxHead && C.OnlyEmptyLines(input.Contents()) {
        assert input.Contents()[|input.Contents()|..] == [];
        Drop(|input.Contents()|);
        polled := PeerClosed();
        return;
      }
      if state == MightSwitchProtocol || state == SwitchedProtocol {
        return C.Paused;
      }
      if state == Done || state == MustClose {
        polled := IdlePeer();
        return;
      }
      if state == Error {
        return C.FaultPolled(C.PeerFault(PeerFailed, None));
      }
      polled := ReadMessage();
    }

    /** Reads on with whatever decoder the message is in. */
    method ReadMessage() returns (polled: C.Polled)
      requires input.Valid() && Coupled(Value()) && C.IsReading(PeerState())
      modifies this`cycle, this`peerVersion, joint, input
      ensures input.Valid()
      ensures (Value(), polled) == if old(cycle.reader).Head? then C.ReadHead(env, old(Value())) else C.ReadBody(env, old(Value()))
      decreases |input.Contents()|, 4
    {
      match cycle.reader
      case Head => polled := ReadHead();
      case Fixed(remaining) =>
        if remaining == 0 {
          FixedEnds(env, Value());
          polled := FinishPeer([]);
        } else {
          polled := ReadPayload();
        }
      case CloseDelimited => polled := ReadCloseDelimited();
      case Chunked(_) => polled := ReadChunked();
    }

    method IdlePeer() returns (polled: C.Polled)
      requires input.Valid()
      modifies joint
      ensures input.Valid() && (Value(), polled) == C.IdlePeer(old(Value()))
    {
      if input.Contents() != [] {
        return C.Paused;
      }
      if eof {
        polled := PeerClosed();
      } else {
        polled := C.NeedData;
      }
    }

    method NextEvent() returns (next: C.Next)
      requires Valid() && held == 0
      modifies this`cycle, this`peerVersion, joint, input
      ensures Valid() && (Value(), next) == C.NextEvent(env, old(Value()))
    {
      InvIsCoupled(Value());
      Runs.PollInv(env, Value());
      next := HandOutNext();
    }

    /** Polls, and hands out what that yields or records that the peer failed. */
    method HandOutNext() returns (next: C.Next)
      requires input.Valid() && Coupled(Value())
      modifies this`cycle, this`peerVersion, joint, input
      ensures input.Valid() && (Value(), next) == C.NextEvent(env, old(Value()))
    {
      var polled := NextEventInner();
      match polled
      case FaultPolled(error) =>
        joint.Fail(role.Peer());
        next := C.Faulted(if role == Client then error.(status := None) else error);
      case DataPolled(count, first, last) =>
        var data := input.Take(count);
        next := C.Content(data, first, last);
      case _ => next := C.Other(polled);
    }

    // ------------------------------------------------------------------- sending

    method SendRequest(r: Request) returns (text: Option<bytes>)
      requires Valid()
      modifies this`cycle, joint
      ensures Valid() && (Value(), text) == C.SendRequest(env, old(Value()), r)
    {
      Runs.SendRequestInv(env, Value(), r);
      if role != Client || input.Contents() != [] {
        return None;
      }
      text := StartRequest(r);
    }

    /** The framing and offers of a request that may be sent. */
    method CheckRequest(r: Request, fields: Scanned) returns (checked: Option<(Bodies.Framing, seq<bytes>)>)
      ensures checked.Some? ==
              C.SendableRequest(r, fields, env.validTarget(r.verb, r.target), UpgradeProtocols(r.headers))
      ensures checked.Some? ==>
                && fields.Frame(r.version, false) == Some(checked.value.0)
                && UpgradeProtocols(r.headers) == Some(checked.value.1)
    {
      if !env.validTarget(r.verb, r.target) || !ValidHeaders(r.headers) || !fields.CheckSend() || !fields.HostOk(Http11) {
        return None;
      }
      var framing := fields.Frame(r.version, false);
      if framing.None? || C.ContentForbidden(r.verb, framing.value) {
        return None;
      }
      if framing.value == Bodies.Framing.Fixed(0) && fields.expectContinue {
        return None;
      }
      var listed := UpgradeProtocols(r.headers);
      if listed.None? || (fields.upgrade && listed.value == []) {
        return None;
      }
      return Some((framing.value, listed.value));
    }

    method StartRequest(r: Request) returns (text: Option<bytes>)
      requires input.Valid() && role == Client && input.Contents() == []
      modifies this`cycle, joint
      ensures input.Valid() && (Value(), text) == C.SendRequest(env, old(Value()), r)
    {
      var fields := Scan(env.validHost, r.headers);
      var checked := CheckRequest(r, fields);
      if checked.None? {
        return None;
      }
      var (framing, upgrades) := checked.value;
      var ok := BeginRequest(r, fields, framing, if r.version == Http11 then upgrades else []);
      return if ok then Some(RequestText(r, fields.hostAt)) else None;
    }

    method BeginRequest(r: Request, fields: Scanned, framing: Bodies.Framing, upgrades: seq<bytes>) returns (ok: bool)
      requires input.Valid()
      modifies this`cycle, joint
      ensures input.Valid() && (Value(), ok) == C.BeginRequest(old(Value()), r, fields, framing, upgrades)
    {
      ok := joint.Process(role, C.RequestProposals(r, upgrades));
      if !ok {
        return;
      }
      RecordRequest(r, fields, framing, upgrades);
      cycle := cycle.(writer := Some(framing));
    }

    method SendInformationalResponse(r: Response) returns (text: Option<bytes>)
      requires Valid()
      modifies this`cycle, joint
      ensures Valid() && (Value(), text) == C.SendInformational(env, old(Value()), r)
    {
      Runs.SendInformationalInv(env, Value(), r);
      text := StartInformational(r);
    }

    method StartInformational(r: Response) returns (text: Option<bytes>)
      requires input.Valid()
      modifies this`cycle, joint
      ensures input.Valid() && (Value(), text) == C.SendInformational(env, old(Value()), r)
    {
      if role != Server || !r.Informational() || peerVersion == Some(Http10) {
        return None;
      }
      if !ValidHeaders(r.headers) || !ValidReason(r.reason) {
        return None;
      }
      var fields := Scan(env.validHost, r.headers);
      if !fields.CheckSend() || HasFramingFields(r.headers) {
        return None;
      }
      var event := InformationalEventFor(r);
      if event.None? {
        return None;
      }
      var ok := joint.Process(role, event.value);
      if !ok {
        return None;
      }
      RecordInformational(r.status);
      return Some(ResponseText(r));
    }

    /** Chooses the framing of a final response and edits its headers to declare it. */
    method PlanResponse(r: Response, fields: Scanned) returns (plan: Option<C.Plan>)
      requires input.Valid()
      ensures plan == C.PlanResponse(Value(), r, fields)
    {
      var headers := r.headers;
      var http11 := peerVersion == Some(Http11) && r.version == Http11;
      var bodyless := ResponseHasNoBody(r);
      var stripped := !http11 && fields.codings.Some?;
      if stripped {
        if fields.Frame(Http11, bodyless).None? {
          return None;
        }
        headers := Without(headers, TRANSFER_ENCODING);
      }
      var declared := fields.HasFraming() && !stripped;
      var framing := Bodies.Framing.Fixed(0);
      if bodyless {
        if declared && fields.Frame(r.version, bodyless).None? {
          return None;
        }
      } else if r.status == 205 {
        if !declared {
          headers := headers + [Field(CONTENT_LENGTH_NAME, ZERO)];
        } else if fields.Frame(r.version, bodyless) != Some(Bodies.Framing.Fixed(0)) {
          return None;
        }
      } else if !declared {
        if http11 {
          headers := headers + [Field(TRANSFER_ENCODING_NAME, CHUNKED)];
          framing := Bodies.Framing.Chunked;
        } else {
          framing := Bodies.Framing.CloseDelimited;
        }
      } else {
        var chosen := fields.Frame(r.version, bodyless);
        if chosen.None? {
          return None;
        }
        framing := chosen.value;
      }
      return Some(C.Plan(framing, headers));
    }

    method SendResponse(r: Response) returns (text: Option<bytes>)
      requires Valid()
      modifies this`cycle, joint
      ensures Valid() && (Value(), text) == C.SendFinal(env, old(Value()), r)
    {
      Runs.SendFinalInv(env, Value(), r);
      text := StartResponse(r);
    }

    method StartResponse(r: Response) returns (text: Option<bytes>)
      requires input.Valid()
      modifies this`cycle, joint
      ensures input.Valid() && (Value(), text) == C.SendFinal(env, old(Value()), r)
    {
      if role != Server || r.Informational() {
        return None;
      }
      if !ValidHeaders(r.headers) || !ValidReason(r.reason) {
        return None;
      }
      var fields := Scan(env.validHost, r.headers);
      if !fields.CheckSend() {
        return None;
      }
      if r.status == 426 {
        var listed := UpgradeProtocols(r.headers);
        if listed.None? || listed.value == [] {
          return None;
        }
      }
      if (r.status == 204 || OpensTunnel(r)) && fields.HasFraming() {
        return None;
      }
      var plan := PlanResponse(r, fields);
      if plan.None? {
        return None;
      }
      var head := CommitHead(r, plan.value, fields.close);
      return if head.None? then None else Some(ResponseText(head.value));
    }

    /** Records every reason to close, then states in the head whether the connection persists. */
    method CommitHead(r: Response, plan: C.Plan, close: bool) returns (head: Option<Response>)
      requires input.Valid()
      modifies this`cycle, joint
      ensures input.Valid() && (Value(), head) == C.CommitHead(old(Value()), r, plan, close)
    {
      ghost var c := Value();
      var connect := OpensTunnel(r);
      var ok := joint.Process(role, FinalResponseEvent(r));
      if !ok {
        return None;
      }
      ghost var u := Value();
      assert C.AdvanceRole(c, role, c.FinalEvent(r)) == Some(u);
      RecordClose(plan.framing, close);
      cycle := cycle.(writer := if connect then None else Some(plan.framing));
      var http11 := peerVersion == Some(Http11) && r.version == Http11;
      var headers := PersistenceHeaders(r, plan.headers, connect, http11);
      assert headers == C.PersistenceHeaders(c, r, plan.headers, joint.keepAlive);
      return Some(r.(headers := headers));
    }

    /** Ends persistence if the response has a reason to, and the request's claims on it. */
    method RecordClose(framing: Bodies.Framing, close: bool)
      requires input.Valid()
      modifies this`cycle, joint
      ensures input.Valid()
      ensures var u := old(Value());
              var closing := framing == Bodies.Framing.CloseDelimited || (u.Remote() == SendBody && C.Unread(u)) || close;
              Value() == C.RecordResponse(if closing then u.NoKeepAlive() else u)
    {
      var unread := cycle.reader.Fixed? ==> cycle.reader.remaining > held + |input.Contents()|;
      if framing == Bodies.Framing.CloseDelimited || (PeerState() == SendBody && unread) || close {
        joint.Disable();
      }
      RecordResponse();
    }

    method PersistenceHeaders(r: Response, plan: Headers, connect: bool, http11: bool) returns (headers: Headers)
      requires input.Valid() && connect == OpensTunnel(r)
      requires http11 == (peerVersion == Some(Http11) && r.version == Http11)
      ensures headers == C.PersistenceHeaders(Value(), r, plan, joint.keepAlive)
    {
      headers := plan;
      if !connect {
        if !joint.keepAlive {
          headers := SetConnectionOption(headers, CLOSE);
        } else if !http11 {
          headers := SetConnectionOption(headers, KEEP_ALIVE);
        }
      }
    }

    /** The framing around a body object, whose bytes are written unchanged. */
    method SendDataFraming(length: nat) returns (framed: Option<Framed>)
      requires Valid() && length < USIZE
      modifies this`cycle, joint
      ensures Valid() && (Value(), framed) == C.SendDataFraming(old(Value()), length)
    {
      Runs.SendDataInv(Value(), length);
      framed := FrameData(length);
    }

    method FrameData(length: nat) returns (framed: Option<Framed>)
      requires input.Valid() && length < USIZE
      modifies this`cycle, joint
      ensures input.Valid() && (Value(), framed) == C.SendDataFraming(old(Value()), length)
    {
      if cycle.writer.None? {
        return None;
      }
      var next, prefix, suffix := cycle.writer.value, [], [];
      match cycle.writer.value {
        case Fixed(remaining) =>
          if length > remaining {
            return None;
          }
          next := Bodies.Framing.Fixed(remaining - length);
        case CloseDelimited =>
        case Chunked =>
          if length > 0 {
            var line, used := ChunkSize(length);
            prefix, suffix := line[..used], CRLF;
          }
      }
      var ok := joint.Process(role, DataEvent);
      if !ok {
        return None;
      }
      cycle := cycle.(writer := Some(next), waiting := false);
      return Some(Framed(next, prefix, suffix));
    }

    method SendData(data: bytes) returns (text: Option<bytes>)
      requires Valid() && |data| < USIZE
      modifies this`cycle, joint
      ensures Valid() && (Value(), text) == C.SendData(old(Value()), data)
    {
      var framed := SendDataFraming(|data|);
      return if framed.None? then None else Some(framed.value.prefix + data + framed.value.suffix);
    }

    method EndOfMessage(trailers: Headers) returns (text: Option<bytes>)
      requires Valid()
      modifies this`cycle, joint
      ensures Valid() && (Value(), text) == C.EndOfMessage(old(Value()), trailers)
    {
      Runs.EndInv(Value(), trailers);
      text := FinishMessage(trailers);
    }

    method FinishMessage(trailers: Headers) returns (text: Option<bytes>)
      requires input.Valid()
      modifies this`cycle, joint
      ensures input.Valid() && (Value(), text) == C.EndOfMessage(old(Value()), trailers)
    {
      if !ValidTrailers(trailers) || cycle.writer.None? {
        return None;
      }
      var out := [];
      match cycle.writer.value {
        case Fixed(remaining) =>
          if remaining != 0 || trailers != [] {
            return None;
          }
        case CloseDelimited =>
          if trailers != [] {
            return None;
          }
        case Chunked =>
          out := [48, CR, LF] + TrailersText(trailers);
      }
      var ok := joint.Process(role, EndEvent);
      if !ok {
        return None;
      }
      cycle := cycle.(writer := None, waiting := false);
      return Some(out);
    }

    /** Body and end of a complete message, after its head. */
    method FinishComplete(head: bytes, length: nat) returns (whole: Option<C.Whole>)
      requires input.Valid() && length < USIZE
      modifies this`cycle, joint
      ensures input.Valid() && (Value(), whole) == C.FinishComplete(old(Value()), head, length)
    {
      if LocalState() == SwitchedProtocol {
        return if length == 0 then Some(C.Whole(head, [])) else None;
      }
      var before, after := head, [];
      if length != 0 {
        var framed := FrameData(length);
        if framed.None? {
          return None;
        }
        before, after := before + framed.value.prefix, framed.value.suffix;
      }
      var end := FinishMessage([]);
      if end.None? {
        return None;
      }
      assert length == 0 ==> head + [] == head;
      return Some(C.Whole(before, after + end.value));
    }

    /** Completes a message whose head was sent, or restores what was saved before it. */
    method SendComplete(state: ConnectionState, saved: C.Cycle, head: Option<bytes>, length: nat)
      returns (whole: Option<C.Whole>)
      requires input.Valid() && length < USIZE
      modifies this`cycle, joint
      ensures input.Valid()
      ensures (Value(), whole) ==
              C.SendComplete(old(Value()).(state := state, cycle := saved), (old(Value()), head), length)
    {
      whole := None;
      if head.Some? {
        whole := FinishComplete(head.value, length);
      }
      if whole.None? {
        joint.Assign(state);
        cycle := saved;
      }
    }

    method SendRequestWithBody(r: Request, length: nat) returns (whole: Option<C.Whole>)
      requires Valid() && length < USIZE
      modifies this`cycle, joint
      ensures Valid() && (Value(), whole) == C.SendRequestWithBody(env, old(Value()), r, length)
    {
      Runs.WholeRequestInv(env, Value(), r, length);
      whole := WholeRequest(r, length);
    }

    method WholeRequest(r: Request, length: nat) returns (whole: Option<C.Whole>)
      requires Valid() && length < USIZE
      modifies this`cycle, joint
      ensures input.Valid() && (Value(), whole) == C.SendRequestWithBody(env, old(Value()), r, length)
    {
      ghost var c := Value();
      var q := C.SizedRequest(r, length);
      var state, saved := joint.Value(), cycle;
      var head := SendRequest(q);
      Runs.SendRequestOutside(env, c, q);
      assert Value().(state := state, cycle := saved) == c;
      whole := SendComplete(state, saved, head, length);
    }

    method SendResponseWithBody(r: Response, length: nat) returns (whole: Option<C.Whole>)
      requires Valid() && length < USIZE
      modifies this`cycle, joint
      ensures Valid() && (Value(), whole) == C.SendResponseWithBody(env, old(Value()), r, length)
    {
      Runs.WholeResponseInv(env, Value(), r, length);
      whole := WholeResponse(r, length);
    }

    method WholeResponse(r: Response, length: nat) returns (whole: Option<C.Whole>)
      requires input.Valid() && length < USIZE
      modifies this`cycle, joint
      ensures input.Valid() && (Value(), whole) == C.SendResponseWithBody(env, old(Value()), r, length)
    {
      ghost var c := Value();
      var q := if HasFramingFields(r.headers) || ResponseHasNoBody(r) then r
               else r.(headers := C.WithLength(r.headers, length));
      assert q == C.SizedResponse(c, r, length);
      var state, saved := joint.Value(), cycle;
      var head := StartResponse(q);
      Runs.SendFinalOutside(env, c, q);
      assert Value().(state := state, cycle := saved) == c;
      whole := SendComplete(state, saved, head, length);
    }

    // ----------------------------------------------------------------- lifecycle

    method StartNextCycle() returns (ok: bool)
      requires Valid()
      modifies this`cycle, joint
      ensures Valid() && (Value(), ok) == C.StartNextCycle(old(Value()))
    {
      Runs.NextCycleInv(Value());
      if role == Client && PeerState() == Done && input.Contents() != [] {
        joint.Disable();
        return false;
      }
      ok := joint.Restart();
      if ok {
        cycle := C.NEW_CYCLE;
      }
    }

    method Close() returns (ok: bool)
      requires Valid()
      modifies this`cycle, joint
      ensures Valid() && (Value(), ok) == C.Close(old(Value()))
    {
      Runs.ShutInv(Value());
      ok := joint.Process(role, ClosedEvent);
      if ok {
        cycle := cycle.(writer := None);
      }
    }
  }
}
