/** What a receiver makes of a head the other endpoint was willing to send. */
module Heads {
  import opened States
  import opened Bytes
  import opened ChunkHeaders
  import opened Fields
  import opened Options
  import opened Messages
  import opened Conn
  import opened Runs
  import opened Persistence

  // ------------------------------------------------------------------- requests

  lemma {:induction false} GetAllConcat(g: Headers, h: Headers, name: bytes)
    ensures GetAll(g + h, name) == GetAll(g, name) + GetAll(h, name)
  {
    if h == [] {
      assert g + h == g;
    } else {
      var front, f := h[..|h| - 1], h[|h| - 1];
      GetAllConcat(g, front, name);
      assert g + h == (g + front) + [f];
      GetAllSnoc(g + front, f, name);
      assert h == front + [f];
      GetAllSnoc(front, f, name);
    }
  }

  lemma GetAllOne(f: Field, name: bytes)
    ensures GetAll([f], name) == if EqIgnoreCase(f.name, name) then [f.value] else []
  {
    assert [] + [f] == [f];
    GetAllSnoc([], f, name);
  }

  lemma Parts(h: Headers, at: nat)
    requires at < |h|
    ensures h == h[..at] + ([h[at]] + h[at + 1..])
    ensures HostFirst(h, at) == [h[at]] + (h[..at] + h[at + 1..])
  {
  }

  lemma GetAllParts(a: Headers, f: Field, b: Headers, name: bytes)
    ensures var mine := if EqIgnoreCase(f.name, name) then [f.value] else [];
            && GetAll(a + ([f] + b), name) == GetAll(a, name) + (mine + GetAll(b, name))
            && GetAll([f] + (a + b), name) == mine + (GetAll(a, name) + GetAll(b, name))
  {
    GetAllConcat(a, [f] + b, name);
    GetAllConcat([f], b, name);
    GetAllConcat([f], a + b, name);
    GetAllConcat(a, b, name);
    GetAllOne(f, name);
  }

  /** A part that is empty, or all there is, may stand anywhere. */
  lemma OnlyOne(x: seq<bytes>, mine: seq<bytes>, y: seq<bytes>)
    requires mine == [] || (|mine| == 1 && |x + (mine + y)| == 1)
    ensures mine + (x + y) == x + (mine + y)
  {
    if mine != [] {
      assert x == [] && y == [];
    }
  }

  /** Moving one field to the front keeps the values of every other field name. */
  lemma MovedValues(h: Headers, at: nat, name: bytes)
    requires at < |h|
    requires EqIgnoreCase(h[at].name, name) ==> |GetAll(h, name)| == 1
    ensures GetAll(HostFirst(h, at), name) == GetAll(h, name)
  {
    var a, f, b := h[..at], h[at], h[at + 1..];
    var mine := if EqIgnoreCase(f.name, name) then [f.value] else [];
    Parts(h, at);
    GetAllParts(a, f, b, name);
    OnlyOne(GetAll(a, name), mine, GetAll(b, name));
  }

  lemma {:induction false} LastIndexNames(h: Headers, name: bytes)
    requires GetAll(h, name) != []
    ensures LastIndex(h, name) < |h| && EqIgnoreCase(h[LastIndex(h, name)].name, name)
  {
    if !EqIgnoreCase(h[|h| - 1].name, name) {
      LastIndexNames(h[..|h| - 1], name);
    }
  }

  /** A request with one Host reads the same with that field written first. */
  lemma HostFirstIsSame(h: Headers)
    requires |GetAll(h, HOST)| == 1
    ensures SameFields(HostFirst(h, LastIndex(h, HOST)), h)
  {
    var at := LastIndex(h, HOST);
    LastIndexNames(h, HOST);
    KindIsName(h[at].name);
    forall name | IsScanned(name)
      ensures GetAll(HostFirst(h, at), name) == GetAll(h, name)
    {
      MovedValues(h, at, name);
    }
  }

  /** The request as a receiver that parses its head gets it. */
  function AsReceived(env: Env, r: Request): Request {
    r.(headers := HostFirst(r.headers, FieldsOf(env.validHost, r.headers).hostAt))
  }

  /** What the cycle and the joint state take from a request. */
  datatype Proposal = Proposal(framing: Framing, offers: seq<bytes>, persistent: bool, continues: bool)

  function ProposalOf(r: Request, s: Scanned, framing: Framing, offers: seq<bytes>): Proposal {
    Proposal(framing, offers, s.Persistent(r.version), s.ExpectsContinue(r.version, framing) && offers != [])
  }

  predicate Accepts(q: Request, t: Scanned, p: Proposal) {
    && t.HostOk(q.version)
    && t.Frame(q.version, false) == Some(p.framing) && !ContentForbidden(q.verb, p.framing)
    && ReceivedUpgrades(q, t) == p.offers
    && ProposalOf(q, t, p.framing, p.offers) == p
  }

  /** A server that reads this head accepts it, and takes this from it. */
  predicate RequestArrives(env: Env, q: Request, p: Proposal) {
    env.validTarget(q.verb, q.target) && Accepts(q, FieldsOf(env.validHost, q.headers), p)
  }

  function ProposalBy(r: Request, s: Scanned, listed: Option<seq<bytes>>): Option<Proposal> {
    var framing := s.Frame(r.version, false);
    if framing.None? || listed.None? then None
    else Some(ProposalOf(r, s, framing.value, if r.version == Http11 then listed.value else []))
  }

  function SentProposal(env: Env, r: Request): Option<Proposal> {
    ProposalBy(r, FieldsOf(env.validHost, r.headers), UpgradeProtocols(r.headers))
  }

  lemma HostCount(validHost: bytes -> bool, h: Headers)
    ensures var s := FieldsOf(validHost, h);
            && s.hosts == |GetAll(h, HOST)| && s.hostAt == LastIndex(h, HOST)
            && (s.upgradeField <==> GetAll(h, UPGRADE) != [])
  {
  }

  lemma SameUpgrades(g: Headers, h: Headers)
    requires GetAll(g, UPGRADE) == GetAll(h, UPGRADE)
    ensures UpgradeProtocols(g) == UpgradeProtocols(h)
  {
  }

  lemma NoUpgradeNoProtocols(h: Headers)
    requires GetAll(h, UPGRADE) == []
    ensures UpgradeProtocols(h) == Some([])
  {
  }

  lemma SendableArrives(r: Request, s: Scanned, q: Request, t: Scanned, validTarget: bool, listed: Option<seq<bytes>>)
    requires SendableRequest(r, s, validTarget, listed)
    requires t == s.(hostAt := t.hostAt) && q == r.(headers := q.headers)
    requires UpgradeProtocols(q.headers) == listed && (s.upgradeField || listed == Some([]))
    ensures ProposalBy(r, s, listed).Some? && Accepts(q, t, ProposalBy(r, s, listed).value)
    ensures ProposalBy(r, s, listed).value.framing != Framing.CloseDelimited
  {
    RequestFraming(s, r.version);
  }

  lemma SentIsSendable(env: Env, c: Conn, r: Request)
    requires SendRequest(env, c, r).1.Some?
    ensures SendableRequest(r, FieldsOf(env.validHost, r.headers), env.validTarget(r.verb, r.target),
                            UpgradeProtocols(r.headers))
    ensures env.validTarget(r.verb, r.target) && FieldsOf(env.validHost, r.headers).HostOk(Http11)
  {
  }

  /** Every request head a client sends is one a server accepts alike. */
  lemma SentRequestArrives(env: Env, c: Conn, r: Request)
    requires SendRequest(env, c, r).1.Some?
    ensures SentProposal(env, r).Some? && RequestArrives(env, AsReceived(env, r), SentProposal(env, r).value)
    ensures SentProposal(env, r).value.framing != Framing.CloseDelimited
  {
    var q := AsReceived(env, r);
    SentIsSendable(env, c, r);
    HostCount(env.validHost, r.headers);
    HostFirstIsSame(r.headers);
    SameFieldsScan(env.validHost, q.headers, r.headers);
    SameUpgrades(q.headers, r.headers);
    if GetAll(r.headers, UPGRADE) == [] {
      NoUpgradeNoProtocols(r.headers);
    }
    SendableArrives(r, FieldsOf(env.validHost, r.headers), q, FieldsOf(env.validHost, q.headers),
                    env.validTarget(r.verb, r.target), UpgradeProtocols(r.headers));
  }

  // ------------------------------------------------------------------ responses

  /** Framing as the list rule of section 6.3 of RFC 9112 decides it. */
  function FrameBy(encodings: seq<bytes>, lengths: seq<bytes>, version: Version, response: bool): Option<Framing> {
    FramingRule(AllElements(lengths, false), |encodings|, AllCodings(encodings).items, version, response)
  }

  lemma FramingPresent(validHost: bytes -> bool, v: Values)
    ensures Meaning(validHost, v).codings.Some? <==> v.encoding != []
    ensures Meaning(validHost, v).length.Some? <==> AllElements(v.length, false) != []
  {
  }

  lemma FrameIsBy(validHost: bytes -> bool, h: Headers, version: Version, response: bool)
    ensures FieldsOf(validHost, h).Frame(version, response) ==
            FrameBy(GetAll(h, TRANSFER_ENCODING), GetAll(h, CONTENT_LENGTH), version, response)
    ensures FieldsOf(validHost, h).codings.Some? <==> GetAll(h, TRANSFER_ENCODING) != []
    ensures FieldsOf(validHost, h).length.Some? <==> AllElements(GetAll(h, CONTENT_LENGTH), false) != []
  {
    ScanIsListRule(validHost, h, version, response);
    FramingPresent(validHost, ValuesOf(h));
  }

  lemma {:induction false} NoElements(values: seq<bytes>)
    ensures AllElements(values, false) == [] <==> values == []
  {
    if values == [] {
    } else {
      NoElements(values[..|values| - 1]);
    }
  }

  lemma ChunkedToken()
    ensures DropToken(CHUNKED) == [] && TokenName(CHUNKED) == CHUNKED && EqIgnoreCase(CHUNKED, CHUNKED)
  {
    assert DropToken(CHUNKED[7..]) == [];
    assert CHUNKED[6..][1..] == CHUNKED[7..];
    assert DropToken(CHUNKED[6..]) == [];
    assert CHUNKED[5..][1..] == CHUNKED[6..];
    assert DropToken(CHUNKED[5..]) == [];
    assert CHUNKED[4..][1..] == CHUNKED[5..];
    assert DropToken(CHUNKED[4..]) == [];
    assert CHUNKED[3..][1..] == CHUNKED[4..];
    assert DropToken(CHUNKED[3..]) == [];
    assert CHUNKED[2..][1..] == CHUNKED[3..];
    assert DropToken(CHUNKED[2..]) == [];
    assert CHUNKED[1..][1..] == CHUNKED[2..];
    assert DropToken(CHUNKED[1..]) == [];
  }

  lemma WrittenChunked(version: Version)
    requires version == Http11
    ensures FrameBy([CHUNKED], [], version, true) == Some(Framing.Chunked)
  {
    assert DropOws(CHUNKED) == CHUNKED;
    ChunkedToken();
    assert ReadCoding(CHUNKED) == (Coding(true, true), []);
    assert CodingsOf(CHUNKED) == CodingList([Coding(true, true)], false);
    assert [CHUNKED][..0] == [];
    assert AllCodings([]) == CodingList([], false);
    assert AllCodings([CHUNKED]).items == [Coding(true, true)];
  }

  lemma ZeroElement()
    ensures AllElements([ZERO], false) == [ZERO]
  {
    assert [] + [ZERO] == [ZERO];
    OneValue(ZERO);
    ElementsFirst(ZERO, []);
  }

  lemma ZeroParses()
    ensures ParseNumber(ZERO, 10) == Some(0)
  {
  }

  /** A single parsable length frames the message. */
  lemma OneLength(els: seq<bytes>, n: nat, items: seq<Coding>, version: Version)
    requires |els| == 1 && ParseNumber(els[0], 10) == Some(n)
    ensures FramingRule(els, 0, items, version, true) == Some(Framing.Fixed(n))
  {
  }

  lemma WrittenZero(version: Version)
    ensures FrameBy([], [ZERO], version, true) == Some(Framing.Fixed(0))
  {
    ZeroElement();
    ZeroParses();
    OneLength([ZERO], 0, AllCodings([]).items, version);
  }

  /** A framing a sender may declare is the same framing to a recipient. */
  lemma DeclaredIsReceived(encodings: seq<bytes>, lengths: seq<bytes>, version: Version)
    requires encodings != [] || lengths != []
    requires FrameBy(encodings, lengths, version, false).Some?
    ensures FrameBy(encodings, lengths, version, true) == FrameBy(encodings, lengths, version, false)
  {
    NoElements(lengths);
  }

  predicate Strips(c: Conn, r: Response, s: Scanned) {
    !(c.peerVersion == Some(Http11) && r.version == Http11) && s.codings.Some?
  }

  /** What planning starts from: `Transfer-Encoding` is dropped for an HTTP/1.0 peer. */
  function PlanBase(c: Conn, r: Response, s: Scanned): Headers {
    if Strips(c, r, s) then Without(r.headers, TRANSFER_ENCODING) else r.headers
  }

  lemma FramingNamesDiffer()
    ensures !EqIgnoreCase(TRANSFER_ENCODING, CONTENT_LENGTH)
    ensures !EqIgnoreCase(CONTENT_LENGTH_NAME, TRANSFER_ENCODING)
    ensures !EqIgnoreCase(TRANSFER_ENCODING_NAME, CONTENT_LENGTH)
  {
  }

  lemma PushedFields(h: Headers)
    ensures var g := h + [Field(CONTENT_LENGTH_NAME, ZERO)];
            && GetAll(g, TRANSFER_ENCODING) == GetAll(h, TRANSFER_ENCODING)
            && GetAll(g, CONTENT_LENGTH) == GetAll(h, CONTENT_LENGTH) + [ZERO]
    ensures var g := h + [Field(TRANSFER_ENCODING_NAME, CHUNKED)];
            && GetAll(g, TRANSFER_ENCODING) == GetAll(h, TRANSFER_ENCODING) + [CHUNKED]
            && GetAll(g, CONTENT_LENGTH) == GetAll(h, CONTENT_LENGTH)
  {
    FramingNames();
    FramingNamesDiffer();
    GetAllSnoc(h, Field(CONTENT_LENGTH_NAME, ZERO), TRANSFER_ENCODING);
    GetAllSnoc(h, Field(CONTENT_LENGTH_NAME, ZERO), CONTENT_LENGTH);
    GetAllSnoc(h, Field(TRANSFER_ENCODING_NAME, CHUNKED), TRANSFER_ENCODING);
    GetAllSnoc(h, Field(TRANSFER_ENCODING_NAME, CHUNKED), CONTENT_LENGTH);
  }

  predicate Declares(c: Conn, r: Response, s: Scanned) {
    s.HasFraming() && !Strips(c, r, s)
  }

  /** What a plan requires of the fields it was made from. */
  lemma PlanNeedsFraming(c: Conn, r: Response, s: Scanned)
    requires PlanResponse(c, r, s).Some?
    ensures Strips(c, r, s) ==> s.length.None?
    ensures Declares(c, r, s) ==> s.Frame(r.version, c.Bodyless(r)).Some?
  {
  }

  /** A plan without declared framing starts from headers without framing fields. */
  lemma UndeclaredBase(validHost: bytes -> bool, c: Conn, r: Response)
    requires var s := FieldsOf(validHost, r.headers); PlanResponse(c, r, s).Some? && !Declares(c, r, s)
    ensures var base := PlanBase(c, r, FieldsOf(validHost, r.headers));
            GetAll(base, TRANSFER_ENCODING) == [] && GetAll(base, CONTENT_LENGTH) == []
  {
    var h, s := r.headers, FieldsOf(validHost, r.headers);
    WithoutGetAll(h, TRANSFER_ENCODING, TRANSFER_ENCODING);
    WithoutGetAll(h, TRANSFER_ENCODING, CONTENT_LENGTH);
    FramingNamesDiffer();
    NoElements(GetAll(h, CONTENT_LENGTH));
    FramingPresent(validHost, ValuesOf(h));
    PlanNeedsFraming(c, r, s);
  }

  /** The plan in terms of what it starts from. */
  lemma PlanShape(c: Conn, r: Response, s: Scanned)
    requires PlanResponse(c, r, s).Some?
    ensures var plan, base := PlanResponse(c, r, s).value, PlanBase(c, r, s);
            if c.Bodyless(r) then plan == Plan(Framing.Fixed(0), base)
            else if Declares(c, r, s) then plan.headers == base && Some(plan.framing) == s.Frame(r.version, false)
            else if r.status == 205 then plan == Plan(Framing.Fixed(0), base + [Field(CONTENT_LENGTH_NAME, ZERO)])
            else if plan.framing.Chunked? then
              r.version == Http11 && plan == Plan(Framing.Chunked, base + [Field(TRANSFER_ENCODING_NAME, CHUNKED)])
            else plan == Plan(Framing.CloseDelimited, base)
  {
  }

  /** The framing a receiver reads off planned headers is the one planned. */
  predicate FramedAs(t: Scanned, version: Version, bodyless: bool, framing: Framing) {
    if bodyless then framing == Framing.Fixed(0) && t.Frame(version, true).Some?
    else t.Frame(version, true) == Some(framing)
  }

  lemma DeclaredFrames(validHost: bytes -> bool, h: Headers, version: Version, framing: Framing)
    requires var s := FieldsOf(validHost, h); s.HasFraming() && s.Frame(version, false) == Some(framing)
    ensures FieldsOf(validHost, h).Frame(version, true) == Some(framing)
  {
    FrameIsBy(validHost, h, version, true);
    FrameIsBy(validHost, h, version, false);
    DeclaredIsReceived(GetAll(h, TRANSFER_ENCODING), GetAll(h, CONTENT_LENGTH), version);
  }

  lemma NothingWritten(version: Version)
    ensures FrameBy([], [], version, true) == Some(Framing.CloseDelimited)
  {
  }

  lemma UndeclaredFrames(validHost: bytes -> bool, base: Headers, version: Version)
    requires GetAll(base, TRANSFER_ENCODING) == [] && GetAll(base, CONTENT_LENGTH) == []
    ensures FieldsOf(validHost, base).Frame(version, true) == Some(Framing.CloseDelimited)
    ensures FieldsOf(validHost, base + [Field(CONTENT_LENGTH_NAME, ZERO)]).Frame(version, true) == Some(Framing.Fixed(0))
    ensures version == Http11 ==>
              FieldsOf(validHost, base + [Field(TRANSFER_ENCODING_NAME, CHUNKED)]).Frame(version, true) ==
              Some(Framing.Chunked)
  {
    PushedFields(base);
    FrameIsBy(validHost, base, version, true);
    FrameIsBy(validHost, base + [Field(CONTENT_LENGTH_NAME, ZERO)], version, true);
    FrameIsBy(validHost, base + [Field(TRANSFER_ENCODING_NAME, CHUNKED)], version, true);
    assert [] + [ZERO] == [ZERO] && [] + [CHUNKED] == [CHUNKED];
    WrittenZero(version);
    NothingWritten(version);
    if version == Http11 {
      WrittenChunked(version);
    }
  }

  /** Planned headers frame the response for its receiver as it will be written. */
  lemma PlanFrames(validHost: bytes -> bool, c: Conn, r: Response)
    requires PlanResponse(c, r, FieldsOf(validHost, r.headers)).Some?
    ensures var plan := PlanResponse(c, r, FieldsOf(validHost, r.headers)).value;
            FramedAs(FieldsOf(validHost, plan.headers), r.version, c.Bodyless(r), plan.framing)
  {
    var s := FieldsOf(validHost, r.headers);
    PlanShape(c, r, s);
    PlanNeedsFraming(c, r, s);
    if Declares(c, r, s) {
      if !c.Bodyless(r) {
        DeclaredFrames(validHost, r.headers, r.version, PlanResponse(c, r, s).value.framing);
      }
    } else {
      UndeclaredBase(validHost, c, r);
      UndeclaredFrames(validHost, PlanBase(c, r, s), r.version);
    }
  }

  lemma NotConnection()
    ensures !EqIgnoreCase(CONNECTION, TRANSFER_ENCODING) && !EqIgnoreCase(CONNECTION, CONTENT_LENGTH)
  {
  }

  /** Persistence options do not touch framing. */
  lemma PersistenceKeepsFraming(validHost: bytes -> bool, c: Conn, r: Response, headers: Headers, keepAlive: bool)
    ensures FieldsOf(validHost, PersistenceHeaders(c, r, headers, keepAlive)).Frame(r.version, true) ==
            FieldsOf(validHost, headers).Frame(r.version, true)
  {
    var g := PersistenceHeaders(c, r, headers, keepAlive);
    FrameIsBy(validHost, headers, r.version, true);
    FrameIsBy(validHost, g, r.version, true);
    FramingNames();
    NotConnection();
    OthersUnchanged(headers, CLOSE, TRANSFER_ENCODING);
    OthersUnchanged(headers, CLOSE, CONTENT_LENGTH);
    OthersUnchanged(headers, KEEP_ALIVE, TRANSFER_ENCODING);
    OthersUnchanged(headers, KEEP_ALIVE, CONTENT_LENGTH);
  }

  /** A client that reads this final head takes this framing and persistence from it. */
  predicate FinalArrives(validHost: bytes -> bool, f: Response, bodyless: bool, framing: Framing) {
    !f.Informational() && FramedAs(FieldsOf(validHost, f.headers), f.version, bodyless, framing)
  }

  lemma ScanPersistence(validHost: bytes -> bool, h: Headers)
    ensures FieldsOf(validHost, h).close == HasToken(h, CONNECTION, CLOSE)
    ensures FieldsOf(validHost, h).keepAlive == HasToken(h, CONNECTION, KEEP_ALIVE)
  {
  }

  /** A final head says `persistent` to its receiver exactly when the sender's flag does. */
  lemma PersistenceArrives(validHost: bytes -> bool, c: Conn, r: Response, headers: Headers, keepAlive: bool)
    requires !c.OpensTunnel(r) && (keepAlive ==> !HasToken(headers, CONNECTION, CLOSE))
    ensures FieldsOf(validHost, PersistenceHeaders(c, r, headers, keepAlive)).Persistent(r.version) == keepAlive
  {
    var g := PersistenceHeaders(c, r, headers, keepAlive);
    ScanPersistence(validHost, g);
    SetConnectionOptionIsExact(headers, CLOSE);
    SetConnectionOptionIsExact(headers, KEEP_ALIVE);
    assert KEEP_ALIVE != CLOSE;
  }

  /** Every final head a server sends is one a client frames and persists alike. */
  lemma SentFinalArrives(env: Env, c: Conn, r: Response)
    requires Inv(c) && SendHead(c, r, FieldsOf(env.validHost, r.headers)).1.Some?
    ensures var s := FieldsOf(env.validHost, r.headers);
            var (d, head) := SendHead(c, r, s);
            && PlanResponse(c, r, s).Some?
            && head.value == r.(headers := head.value.headers)
            && FinalArrives(env.validHost, head.value, c.Bodyless(r), PlanResponse(c, r, s).value.framing)
            && (!c.OpensTunnel(r) ==>
                  FieldsOf(env.validHost, head.value.headers).Persistent(r.version) == d.state.keepAlive)
  {
    var s := FieldsOf(env.validHost, r.headers);
    var plan := PlanResponse(c, r, s).value;
    var d := SendHead(c, r, s).0;
    PlanFrames(env.validHost, c, r);
    PersistenceKeepsFraming(env.validHost, c, r, plan.headers, d.state.keepAlive);
    if !c.OpensTunnel(r) {
      ScanClose(env.validHost, r.headers);
      PlanKeepsConnection(c, r, s);
      CommitState(c, r, plan, s.close);
      PersistenceArrives(env.validHost, c, r, plan.headers, d.state.keepAlive);
    }
  }
}
