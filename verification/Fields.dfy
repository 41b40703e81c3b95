/**
 Field sections: list elements, the framing and connection-management rules,
 and rewriting of the `Connection` field.

 `FieldsOf` states what a section means: each item depends only on the ordered
 values of one field name. `Scan` is the single streaming pass that computes it.
 */
module Fields {
  import opened States
  import opened Bytes
  import opened ChunkHeaders
  import Bodies

  type Framing = Bodies.Framing

  datatype Field = Field(name: bytes, value: bytes)
  type Headers = seq<Field>

  datatype Version = Http10 | Http11

  const TE: bytes := [116, 101]
  const HOST: bytes := [104, 111, 115, 116]
  const EXPECT: bytes := [101, 120, 112, 101, 99, 116]
  const UPGRADE: bytes := [117, 112, 103, 114, 97, 100, 101]
  const CONNECTION: bytes := [99, 111, 110, 110, 101, 99, 116, 105, 111, 110]
  // "content-length", "transfer-encoding"
  const CONTENT_LENGTH: bytes := [99, 111, 110, 116, 101, 110, 116, 45, 108, 101, 110, 103, 116, 104]
  const TRANSFER_ENCODING: bytes :=
    [116, 114, 97, 110, 115, 102, 101, 114, 45, 101, 110, 99, 111, 100, 105, 110, 103]
  const TRAILER: bytes := [116, 114, 97, 105, 108, 101, 114]

  const CHUNKED: bytes := [99, 104, 117, 110, 107, 101, 100]
  const CLOSE: bytes := [99, 108, 111, 115, 101]
  const KEEP_ALIVE: bytes := [107, 101, 101, 112, 45, 97, 108, 105, 118, 101]
  // "100-continue"
  const CONTINUE_100: bytes := [49, 48, 48, 45, 99, 111, 110, 116, 105, 110, 117, 101]
  const COMPRESS: bytes := [99, 111, 109, 112, 114, 101, 115, 115]
  const DEFLATE: bytes := [100, 101, 102, 108, 97, 116, 101]
  const GZIP: bytes := [103, 122, 105, 112]
  const X_COMPRESS: bytes := [120, 45, 99, 111, 109, 112, 114, 101, 115, 115]
  const X_GZIP: bytes := [120, 45, 103, 122, 105, 112]

  // ------------------------------------------------------------ list elements

  function TrimEnd(s: bytes): (r: bytes)
    ensures |r| <= |s|
    ensures r == [] || !IsOws(r[|r| - 1])
    ensures s != [] && !IsOws(s[|s| - 1]) ==> r == s
  {
    if s != [] && IsOws(s[|s| - 1]) then TrimEnd(s[..|s| - 1]) else s
  }

  function TrimOws(s: bytes): (r: bytes)
    ensures |r| <= |s|
  {
    TrimEnd(DropOws(s))
  }

  datatype Quoting = Quoting(quoted: bool, escaped: bool)

  /** How one byte moves the quote state, and whether it separates elements. */
  function SplitStep(b: byte, quoting: bool, q: Quoting): (bool, Quoting) {
    if q.escaped then (false, q.(escaped := false))
    else if b == BACKSLASH && q.quoted then (false, q.(escaped := true))
    else if b == DQUOTE && quoting then (false, q.(quoted := !q.quoted))
    else (b == COMMA && !q.quoted, q)
  }

  function Split(s: bytes, quoting: bool, q: Quoting): (parts: seq<bytes>)
    ensures |parts| >= 1
  {
    if s == [] then [[]]
    else
      var (separates, next) := SplitStep(s[0], quoting, q);
      var rest := Split(s[1..], quoting, next);
      if separates then [[]] + rest else [[s[0]] + rest[0]] + rest[1..]
  }

  function TrimAll(parts: seq<bytes>): (r: seq<bytes>)
    ensures |r| == |parts|
    ensures forall i :: 0 <= i < |r| ==> r[i] == TrimOws(parts[i])
  {
    seq(|parts|, i requires 0 <= i < |parts| => TrimOws(parts[i]))
  }

  /** Comma-separated elements without surrounding whitespace. */
  function Elements(value: bytes, quoting: bool): seq<bytes> {
    TrimAll(Split(value, quoting, Quoting(false, false)))
  }

  /** The elements of several values of one field, in order. */
  function AllElements(values: seq<bytes>, quoting: bool): seq<bytes> {
    if values == [] then []
    else AllElements(values[..|values| - 1], quoting) + Elements(values[|values| - 1], quoting)
  }

  /** The values of every field with this name, in order. */
  function GetAll(h: Headers, name: bytes): seq<bytes> {
    if h == [] then []
    else
      GetAll(h[..|h| - 1], name)
      + (if EqIgnoreCase(h[|h| - 1].name, name) then [h[|h| - 1].value] else [])
  }

  predicate HasField(h: Headers, name: bytes) {
    GetAll(h, name) != []
  }

  predicate HasFramingFields(h: Headers) {
    HasField(h, TRANSFER_ENCODING) || HasField(h, CONTENT_LENGTH)
  }

  predicate AnyIs(els: seq<bytes>, token: bytes) {
    exists i :: 0 <= i < |els| && EqIgnoreCase(els[i], token)
  }

  predicate HasToken(h: Headers, name: bytes, token: bytes) {
    AnyIs(AllElements(GetAll(h, name), false), token)
  }

  predicate HasEmpty(value: bytes, quoting: bool) {
    TrimOws(value) != [] && [] in Elements(value, quoting)
  }

  predicate AnyEmpty(values: seq<bytes>, quoting: bool) {
    exists i :: 0 <= i < |values| && HasEmpty(values[i], quoting)
  }

  function TokenName(s: bytes): bytes {
    s[..|s| - |DropToken(s)|]
  }

  predicate AnyNames(els: seq<bytes>, token: bytes) {
    exists i :: 0 <= i < |els| && EqIgnoreCase(TokenName(els[i]), token)
  }

  // ----------------------------------------------------------- content length

  datatype Length = ValidLength(n: nat) | InvalidLength | ConflictingLength

  /** Every element must be the same decimal number. */
  function LengthRule(els: seq<bytes>): Option<Length> {
    if els == [] then None
    else
      var first := ParseNumber(els[0], 10);
      if first.None? then Some(InvalidLength)
      else if forall i :: 0 <= i < |els| ==> ParseNumber(els[i], 10) == first then Some(ValidLength(first.value))
      else Some(ConflictingLength)
  }

  /** One more element, as the pass folds it in. */
  function AddLength(length: Option<Length>, element: bytes): Option<Length> {
    var parsed := ParseNumber(element, 10);
    match length
    case None => Some(if parsed.None? then InvalidLength else ValidLength(parsed.value))
    case Some(ValidLength(n)) => if parsed == Some(n) then length else Some(ConflictingLength)
    case Some(_) => length
  }

  lemma LengthRuleSnoc(els: seq<bytes>, element: bytes)
    ensures LengthRule(els + [element]) == AddLength(LengthRule(els), element)
  {
    var all := els + [element];
    if els != [] {
      assert all[0] == els[0];
      var first := ParseNumber(els[0], 10);
      assert (forall i :: 0 <= i < |all| ==> ParseNumber(all[i], 10) == first) <==>
             (forall i :: 0 <= i < |els| ==> ParseNumber(els[i], 10) == first)
             && ParseNumber(element, 10) == first by {
        assert all[|els|] == element;
        assert forall i :: 0 <= i < |els| ==> all[i] == els[i];
      }
    }
  }

  // --------------------------------------------------------- transfer codings

  /** One `transfer-coding`; a malformed one ends its field value. */
  datatype Coding = Coding(chunked: bool, valid: bool) {
    predicate FinalChunked() {
      chunked && valid
    }
  }

  predicate IsRegistered(name: bytes) {
    || EqIgnoreCase(name, CHUNKED) || EqIgnoreCase(name, COMPRESS) || EqIgnoreCase(name, DEFLATE)
    || EqIgnoreCase(name, GZIP) || EqIgnoreCase(name, X_COMPRESS) || EqIgnoreCase(name, X_GZIP)
  }

  /** What follows one parameter and its whitespace, past its `;`. */
  function ReadParameter(a: bytes): (r: Option<bytes>)
    ensures r.Some? ==> |r.value| <= |a|
  {
    var name := DropOws(a);
    var after := DropOws(DropToken(name));
    if |after| == |name| || after == [] || after[0] != EQUALS then None
    else
      var parameter := DropOws(after[1..]);
      if parameter != [] && parameter[0] == DQUOTE then
        var rest := DropQuoted(parameter[1..]);
        if rest.None? then None else Some(DropOws(rest.value))
      else if |DropToken(parameter)| == |parameter| then None
      else Some(DropOws(DropToken(parameter)))
  }

  /** What follows `*( OWS ";" OWS transfer-parameter )`, or nothing if malformed. */
  function ReadParameters(a: bytes): (r: Option<bytes>)
    ensures r.Some? ==> |r.value| <= |a|
    ensures r.Some? && a != [] && a[0] == SEMICOLON ==> |r.value| < |a|
    decreases |a|
  {
    if a == [] || a[0] != SEMICOLON then Some(a)
    else
      var r := ReadParameter(a[1..]);
      if r.None? then None else ReadParameters(r.value)
  }

  /** One coding at the start of `a`: whether it is sound, and what follows it. */
  function ReadCoding(a: bytes): (r: (Coding, bytes))
    ensures |r.1| <= |a|
    ensures r.0.valid ==> r.1 == [] || r.1[0] == COMMA
  {
    var name := TokenName(a);
    var chunked := EqIgnoreCase(name, CHUNKED);
    var b := DropOws(DropToken(a));
    var rest := ReadParameters(b);
    if name == [] || rest.None? then (Coding(chunked, false), [])
    else
      var parameters := b != [] && b[0] == SEMICOLON;
      if (parameters && IsRegistered(name)) || (rest.value != [] && rest.value[0] != COMMA)
      then (Coding(chunked, false), [])
      else (Coding(chunked, true), rest.value)
  }

  datatype CodingList = CodingList(items: seq<Coding>, empty: bool)

  /** The codings of one field value, in order. */
  function CodingsOf(s: bytes): CodingList
    decreases |s|
  {
    var a := DropOws(s);
    if a == [] then CodingList([], true)
    else if a[0] == COMMA then CodingList(CodingsOf(a[1..]).items, true)
    else
      var (coding, rest) := ReadCoding(a);
      if !coding.valid || rest == [] then CodingList([coding], false)
      else
        var more := CodingsOf(rest[1..]);
        CodingList([coding] + more.items, more.empty)
  }

  function AllCodings(values: seq<bytes>): CodingList {
    if values == [] then CodingList([], false)
    else
      var front := AllCodings(values[..|values| - 1]);
      var last := CodingsOf(values[|values| - 1]);
      CodingList(front.items + last.items, front.empty || last.empty)
  }

  /** The flags the pass keeps about a coding list. */
  datatype Codings = Codings(
    any: bool,
    empty: bool,
    malformed: bool,
    lastChunked: bool,
    chunkedBeforeLast: bool,
    otherBeforeLast: bool)
  {
    function Add(c: Coding): Codings {
      Codings(
        true,
        empty,
        malformed || !c.valid,
        c.FinalChunked(),
        chunkedBeforeLast || (any && lastChunked),
        otherBeforeLast || (any && !lastChunked))
    }

    /** The body framing these codings select. */
    function Frame(response: bool): Option<Framing> {
      if malformed || !any then None
      else if response && !lastChunked then Some(Bodies.Framing.CloseDelimited)
      else if !lastChunked || chunkedBeforeLast then None
      else if otherBeforeLast && !response then None
      else Some(Bodies.Framing.Chunked)
    }
  }

  const NO_CODINGS := Codings(false, false, false, false, false, false)

  /** The same flags, said of the whole list. */
  function CodingRule(list: CodingList): Codings {
    var n := |list.items|;
    Codings(
      n > 0,
      list.empty,
      exists i :: 0 <= i < n && !list.items[i].valid,
      n > 0 && list.items[n - 1].FinalChunked(),
      exists i :: 0 <= i < n - 1 && list.items[i].FinalChunked(),
      exists i :: 0 <= i < n - 1 && !list.items[i].FinalChunked())
  }

  lemma CodingRuleSnoc(list: CodingList, c: Coding)
    ensures CodingRule(CodingList(list.items + [c], list.empty)) == CodingRule(list).Add(c)
  {
    var n, all := |list.items|, list.items + [c];
    assert all[n] == c && forall i :: 0 <= i < n ==> all[i] == list.items[i];
    var r, s := CodingRule(CodingList(all, list.empty)), CodingRule(list).Add(c);
    if n > 0 {
      assert all[n - 1] == list.items[n - 1];
    }
  }

  // ------------------------------------------------------------ scanned fields

  datatype Scanned = Scanned(
    hosts: nat,
    validHost: bool,
    hostAt: nat,
    codings: Option<Codings>,
    length: Option<Length>,
    lengths: nat,
    close: bool,
    keepAlive: bool,
    upgrade: bool,
    connectionTe: bool,
    expectContinue: bool,
    upgradeField: bool,
    teField: bool,
    teChunked: bool,
    emptyElements: bool)
  {
    /** What the sections of outgoing heads may not contain, though incoming ones may. */
    predicate CheckSend() {
      && !emptyElements && !(codings.Some? && codings.value.empty)
      && lengths <= 1
      && (upgradeField ==> upgrade)
      && !teChunked
      && (teField ==> connectionTe)
    }

    predicate HasFraming() {
      codings.Some? || length.Some?
    }

    /** Exactly one well-formed Host; none at all is fine under HTTP/1.0. */
    predicate HostOk(version: Version) {
      if hosts == 0 then version == Http10 else hosts == 1 && validHost
    }

    predicate Persistent(version: Version) {
      !close && (version == Http11 || keepAlive)
    }

    predicate ExpectsContinue(version: Version, framing: Framing) {
      version == Http11 && framing != Bodies.Framing.Fixed(0) && expectContinue
    }

    /** The message body length; nothing when the fields are faulty. */
    function Frame(version: Version, response: bool): Option<Framing> {
      if codings.Some? then
        if length.Some? || version == Http10 then None else codings.value.Frame(response)
      else if length.Some? then
        (if length.value.ValidLength? then Some(Bodies.Framing.Fixed(length.value.n)) else None)
      else if response then Some(Bodies.Framing.CloseDelimited)
      else Some(Bodies.Framing.Fixed(0))
    }
  }

  const UNSCANNED := Scanned(0, false, 0, None, None, 0, false, false, false, false, false, false, false, false, false)

  function LastIndex(h: Headers, name: bytes): nat {
    if h == [] then 0
    else if EqIgnoreCase(h[|h| - 1].name, name) then |h| - 1
    else LastIndex(h[..|h| - 1], name)
  }

  /** The ordered values of each field that matters, and where Host was last. */
  datatype Values = Values(
    te: seq<bytes>, host: seq<bytes>, expects: seq<bytes>, upgrade: seq<bytes>,
    connection: seq<bytes>, length: seq<bytes>, encoding: seq<bytes>, hostAt: nat)

  function ValuesOf(h: Headers): Values {
    Values(GetAll(h, TE), GetAll(h, HOST), GetAll(h, EXPECT), GetAll(h, UPGRADE),
           GetAll(h, CONNECTION), GetAll(h, CONTENT_LENGTH), GetAll(h, TRANSFER_ENCODING), LastIndex(h, HOST))
  }

  /** What those values mean, item by item. */
  function Meaning(validHost: bytes -> bool, v: Values): Scanned {
    var options := AllElements(v.connection, false);
    var lengths := AllElements(v.length, false);
    Scanned(
      |v.host|,
      v.host != [] && validHost(v.host[|v.host| - 1]),
      v.hostAt,
      if v.encoding == [] then None else Some(CodingRule(AllCodings(v.encoding))),
      LengthRule(lengths),
      |lengths|,
      AnyIs(options, CLOSE),
      AnyIs(options, KEEP_ALIVE),
      AnyIs(options, UPGRADE),
      AnyIs(options, TE),
      AnyIs(AllElements(v.expects, true), CONTINUE_100),
      v.upgrade != [],
      v.te != [],
      AnyNames(AllElements(v.te, true), CHUNKED),
      AnyEmpty(v.te, true) || AnyEmpty(v.expects, true) || AnyEmpty(v.upgrade, false)
      || AnyEmpty(v.connection, false))
  }

  function FieldsOf(validHost: bytes -> bool, h: Headers): Scanned {
    Meaning(validHost, ValuesOf(h))
  }

  // ------------------------------------------------------------ streaming pass

  ghost function Joined(seen: CodingList, more: CodingList): CodingList {
    CodingList(seen.items + more.items, seen.empty || more.empty)
  }

  lemma JoinComma(seen: CodingList, s: bytes)
    requires var a := DropOws(s); a == [] || a[0] == COMMA
    ensures var a := DropOws(s);
            Joined(seen, CodingsOf(s)) ==
            if a == [] then seen.(empty := true) else Joined(seen.(empty := true), CodingsOf(a[1..]))
  {
    assert seen.items + [] == seen.items;
  }

  lemma CodingsFirst(s: bytes)
    requires var a := DropOws(s); a != [] && a[0] != COMMA
    ensures var (coding, rest) := ReadCoding(DropOws(s));
            CodingsOf(s) ==
            if !coding.valid || rest == [] then CodingList([coding], false)
            else CodingList([coding] + CodingsOf(rest[1..]).items, CodingsOf(rest[1..]).empty)
  {
  }

  lemma JoinMore(seen: CodingList, coding: Coding, more: CodingList)
    ensures Joined(seen, CodingList([coding] + more.items, more.empty)) ==
            Joined(seen.(items := seen.items + [coding]), more)
  {
    assert seen.items + ([coding] + more.items) == (seen.items + [coding]) + more.items;
  }

  lemma JoinCoding(seen: CodingList, s: bytes)
    requires var a := DropOws(s); a != [] && a[0] != COMMA
    ensures var (coding, rest) := ReadCoding(DropOws(s));
            var next := seen.(items := seen.items + [coding]);
            Joined(seen, CodingsOf(s)) ==
            if !coding.valid || rest == [] then next else Joined(next, CodingsOf(rest[1..]))
  {
    var (coding, rest) := ReadCoding(DropOws(s));
    CodingsFirst(s);
    if coding.valid && rest != [] {
      JoinMore(seen, coding, CodingsOf(rest[1..]));
    }
  }

  lemma SkipEmpty(seen: CodingList, value: bytes, at: nat, start: nat) returns (next: CodingList)
    requires at <= start <= |value| && DropOws(value[at..]) == value[start..]
    requires start == |value| || value[start] == COMMA
    ensures CodingRule(next) == CodingRule(seen).(empty := true)
    ensures Joined(seen, CodingsOf(value[at..])) ==
            if start == |value| then next else Joined(next, CodingsOf(value[start + 1..]))
  {
    JoinComma(seen, value[at..]);
    next := seen.(empty := true);
    if start < |value| {
      assert value[start..][1..] == value[start + 1..];
    }
  }

  lemma TakeCoding(seen: CodingList, value: bytes, at: nat, start: nat, coding: Coding, end: nat)
    returns (next: CodingList)
    requires at <= start < |value| && start <= end <= |value|
    requires DropOws(value[at..]) == value[start..] && value[start] != COMMA
    requires ReadCoding(value[start..]).0 == coding
    requires coding.valid ==> ReadCoding(value[start..]).1 == value[end..]
    ensures CodingRule(next) == CodingRule(seen).Add(coding)
    ensures Joined(seen, CodingsOf(value[at..])) ==
            if !coding.valid || end == |value| then next else Joined(next, CodingsOf(value[end + 1..]))
  {
    JoinCoding(seen, value[at..]);
    CodingRuleSnoc(seen, coding);
    next := seen.(items := seen.items + [coding]);
    if end < |value| {
      assert value[end..][1..] == value[end + 1..];
    }
  }

  /** Reads one `Transfer-Encoding` value into the flags, coding by coding. */
  method ReadCodings(before: Codings, value: bytes, ghost list: CodingList) returns (codings: Codings)
    requires before == CodingRule(list)
    ensures codings == CodingRule(Joined(list, CodingsOf(value)))
  {
    codings := before;
    var at, done := 0, false;
    ghost var seen := list;
    assert value[0..] == value;
    while !done
      invariant at <= |value|
      invariant codings == CodingRule(seen)
      invariant Joined(list, CodingsOf(value)) == if done then seen else Joined(seen, CodingsOf(value[at..]))
      decreases !done, |value| - at
    {
      var start := SkipOws(value, at);
      ghost var s := value[at..];
      if start == |value| || value[start] == COMMA {
        codings, done := codings.(empty := true), start == |value|;
        seen := SkipEmpty(seen, value, at, start);
        at := if done then start else start + 1;
      } else {
        var chunked, valid, end := ReadOneCoding(value, start);
        codings, done := codings.Add(Coding(chunked, valid)), !valid || end == |value|;
        seen := TakeCoding(seen, value, at, start, Coding(chunked, valid), end);
        at := if done then end else end + 1;
      }
    }
  }

  method ReadOneCoding(value: bytes, start: nat) returns (chunked: bool, valid: bool, end: nat)
    requires start <= |value|
    ensures start <= end <= |value|
    ensures ReadCoding(value[start..]).0 == Coding(chunked, valid)
    ensures valid ==> ReadCoding(value[start..]).1 == value[end..]
  {
    end := TokenEnd(value, start);
    var name := value[start..end];
    assert name == TokenName(value[start..]);
    chunked := EqIgnoreCase(name, CHUNKED);
    var afterName := SkipOws(value, end);
    end := afterName;
    var after := ReadAllParameters(value, afterName);
    if name == [] || after.None? {
      valid := false;
    } else {
      end := after.value;
      var parameters := afterName < |value| && value[afterName] == SEMICOLON;
      valid := !(parameters && IsRegistered(name)) && (end == |value| || value[end] == COMMA);
    }
  }

  method ReadAllParameters(value: bytes, start: nat) returns (end: Option<nat>)
    requires start <= |value|
    ensures end.Some? ==> start <= end.value <= |value|
    ensures Suffix(value, end) == ReadParameters(value[start..])
  {
    var at := start;
    while at < |value| && value[at] == SEMICOLON
      invariant start <= at <= |value|
      invariant ReadParameters(value[at..]) == ReadParameters(value[start..])
    {
      assert value[at..][1..] == value[at + 1..];
      end := ReadOneParameter(value, at + 1);
      if end.None? {
        return;
      }
      at := end.value;
    }
    end := Some(at);
  }

  method ReadOneParameter(value: bytes, start: nat) returns (end: Option<nat>)
    requires start <= |value|
    ensures end.Some? ==> start <= end.value <= |value|
    ensures Suffix(value, end) == ReadParameter(value[start..])
  {
    var name := SkipOws(value, start);
    var at := TokenEnd(value, name);
    at := SkipOws(value, at);
    if at == name || at == |value| || value[at] != EQUALS {
      return None;
    }
    assert value[at..][1..] == value[at + 1..];
    var parameter := SkipOws(value, at + 1);
    if parameter < |value| && value[parameter] == DQUOTE {
      assert value[parameter..][1..] == value[parameter + 1..];
      end := ParseQuotedString(value, parameter);
      if end.None? {
        return;
      }
      at := end.value;
    } else {
      at := TokenEnd(value, parameter);
      if at == parameter {
        return None;
      }
    }
    at := SkipOws(value, at);
    end := Some(at);
  }

  datatype Kind = TeKind | HostKind | ExpectKind | UpgradeKind | ConnectionKind | LengthKind | EncodingKind | OtherKind

  /** The eight classes of field names the scan tells apart. */
  function KindOf(name: bytes): Kind {
    if |name| == 2 && EqIgnoreCase(name, TE) then TeKind
    else if |name| == 4 && EqIgnoreCase(name, HOST) then HostKind
    else if |name| == 6 && EqIgnoreCase(name, EXPECT) then ExpectKind
    else if |name| == 7 && EqIgnoreCase(name, UPGRADE) then UpgradeKind
    else if |name| == 10 && EqIgnoreCase(name, CONNECTION) then ConnectionKind
    else if |name| == 14 && EqIgnoreCase(name, CONTENT_LENGTH) then LengthKind
    else if |name| == 17 && EqIgnoreCase(name, TRANSFER_ENCODING) then EncodingKind
    else OtherKind
  }

  lemma KindIsName(name: bytes)
    ensures EqIgnoreCase(name, TE) <==> KindOf(name) == TeKind
    ensures EqIgnoreCase(name, HOST) <==> KindOf(name) == HostKind
    ensures EqIgnoreCase(name, EXPECT) <==> KindOf(name) == ExpectKind
    ensures EqIgnoreCase(name, UPGRADE) <==> KindOf(name) == UpgradeKind
    ensures EqIgnoreCase(name, CONNECTION) <==> KindOf(name) == ConnectionKind
    ensures EqIgnoreCase(name, CONTENT_LENGTH) <==> KindOf(name) == LengthKind
    ensures EqIgnoreCase(name, TRANSFER_ENCODING) <==> KindOf(name) == EncodingKind
  {
  }

  lemma GetAllSnoc(h: Headers, f: Field, name: bytes)
    ensures GetAll(h + [f], name) == if EqIgnoreCase(f.name, name) then GetAll(h, name) + [f.value] else GetAll(h, name)
  {
    assert (h + [f])[..|h|] == h;
    assert GetAll(h, name) + [] == GetAll(h, name);
  }

  lemma AllElementsSnoc(values: seq<bytes>, value: bytes, quoting: bool)
    ensures AllElements(values + [value], quoting) == AllElements(values, quoting) + Elements(value, quoting)
  {
    assert (values + [value])[..|values|] == values;
  }

  lemma AnyIsConcat(a: seq<bytes>, b: seq<bytes>, token: bytes)
    ensures AnyIs(a + b, token) <==> AnyIs(a, token) || AnyIs(b, token)
    ensures AnyNames(a + b, token) <==> AnyNames(a, token) || AnyNames(b, token)
  {
    var c := a + b;
    assert forall i :: 0 <= i < |a| ==> c[i] == a[i];
    assert forall i :: 0 <= i < |b| ==> c[|a| + i] == b[i];
    if i :| 0 <= i < |b| && EqIgnoreCase(b[i], token) {
      assert EqIgnoreCase(c[|a| + i], token);
    }
    if i :| 0 <= i < |b| && EqIgnoreCase(TokenName(b[i]), token) {
      assert EqIgnoreCase(TokenName(c[|a| + i]), token);
    }
    if i :| 0 <= i < |a| && EqIgnoreCase(a[i], token) {
      assert EqIgnoreCase(c[i], token);
    }
    if i :| 0 <= i < |a| && EqIgnoreCase(TokenName(a[i]), token) {
      assert EqIgnoreCase(TokenName(c[i]), token);
    }
    if i :| 0 <= i < |c| && EqIgnoreCase(c[i], token) {
      assert c[i] == if i < |a| then a[i] else b[i - |a|];
    }
    if i :| 0 <= i < |c| && EqIgnoreCase(TokenName(c[i]), token) {
      assert c[i] == if i < |a| then a[i] else b[i - |a|];
    }
  }

  lemma AnyEmptySnoc(values: seq<bytes>, value: bytes, quoting: bool)
    ensures AnyEmpty(values + [value], quoting) <==> AnyEmpty(values, quoting) || HasEmpty(value, quoting)
  {
    var all := values + [value];
    assert all[|values|] == value;
    assert forall i :: 0 <= i < |values| ==> all[i] == values[i];
  }

  lemma AllCodingsSnoc(values: seq<bytes>, value: bytes)
    ensures AllCodings(values + [value]) == Joined(AllCodings(values), CodingsOf(value))
  {
    assert (values + [value])[..|values|] == values;
  }

  /** Where one more field line goes. */
  function AddValue(v: Values, at: nat, kind: Kind, value: bytes): Values {
    match kind
    case TeKind => v.(te := v.te + [value])
    case HostKind => v.(host := v.host + [value], hostAt := at)
    case ExpectKind => v.(expects := v.expects + [value])
    case UpgradeKind => v.(upgrade := v.upgrade + [value])
    case ConnectionKind => v.(connection := v.connection + [value])
    case LengthKind => v.(length := v.length + [value])
    case EncodingKind => v.(encoding := v.encoding + [value])
    case OtherKind => v
  }

  lemma TeMeaning(validHost: bytes -> bool, v: Values, value: bytes)
    ensures var s := Meaning(validHost, v);
            Meaning(validHost, v.(te := v.te + [value])) ==
            s.(teField := true,
               teChunked := s.teChunked || AnyNames(Elements(value, true), CHUNKED),
               emptyElements := s.emptyElements || HasEmpty(value, true))
  {
    AllElementsSnoc(v.te, value, true);
    AnyIsConcat(AllElements(v.te, true), Elements(value, true), CHUNKED);
    AnyEmptySnoc(v.te, value, true);
  }

  lemma ExpectMeaning(validHost: bytes -> bool, v: Values, value: bytes)
    ensures var s := Meaning(validHost, v);
            Meaning(validHost, v.(expects := v.expects + [value])) ==
            s.(expectContinue := s.expectContinue || AnyIs(Elements(value, true), CONTINUE_100),
               emptyElements := s.emptyElements || HasEmpty(value, true))
  {
    AllElementsSnoc(v.expects, value, true);
    AnyIsConcat(AllElements(v.expects, true), Elements(value, true), CONTINUE_100);
    AnyEmptySnoc(v.expects, value, true);
  }

  lemma UpgradeMeaning(validHost: bytes -> bool, v: Values, value: bytes)
    ensures var s := Meaning(validHost, v);
            Meaning(validHost, v.(upgrade := v.upgrade + [value])) ==
            s.(upgradeField := true, emptyElements := s.emptyElements || HasEmpty(value, false))
  {
    AnyEmptySnoc(v.upgrade, value, false);
  }

  lemma ConnectionMeaning(validHost: bytes -> bool, v: Values, value: bytes)
    ensures var s := Meaning(validHost, v);
            var options := Elements(value, false);
            Meaning(validHost, v.(connection := v.connection + [value])) ==
            s.(close := s.close || AnyIs(options, CLOSE),
               keepAlive := s.keepAlive || AnyIs(options, KEEP_ALIVE),
               upgrade := s.upgrade || AnyIs(options, UPGRADE),
               connectionTe := s.connectionTe || AnyIs(options, TE),
               emptyElements := s.emptyElements || HasEmpty(value, false))
  {
    var els, more := AllElements(v.connection, false), Elements(value, false);
    AllElementsSnoc(v.connection, value, false);
    AnyIsConcat(els, more, CLOSE);
    AnyIsConcat(els, more, KEEP_ALIVE);
    AnyIsConcat(els, more, UPGRADE);
    AnyIsConcat(els, more, TE);
    AnyEmptySnoc(v.connection, value, false);
  }

  lemma SnocOther(h: Headers, f: Field, name: bytes)
    requires !EqIgnoreCase(f.name, name)
    ensures GetAll(h + [f], name) == GetAll(h, name)
    ensures LastIndex(h + [f], name) == LastIndex(h, name)
  {
    GetAllSnoc(h, f, name);
    assert (h + [f])[..|h|] == h;
  }

  /** Each kind of field line moves only what depends on its own name. */
  lemma ValuesSnoc(h: Headers, f: Field)
    ensures ValuesOf(h + [f]) == AddValue(ValuesOf(h), |h|, KindOf(f.name), f.value)
  {
    KindIsName(f.name);
    GetAllSnoc(h, f, TE);
    GetAllSnoc(h, f, HOST);
    GetAllSnoc(h, f, EXPECT);
    GetAllSnoc(h, f, UPGRADE);
    GetAllSnoc(h, f, CONNECTION);
    GetAllSnoc(h, f, CONTENT_LENGTH);
    GetAllSnoc(h, f, TRANSFER_ENCODING);
    if !EqIgnoreCase(f.name, HOST) {
      SnocOther(h, f, HOST);
    }
  }

  lemma EmptySection(validHost: bytes -> bool)
    ensures Meaning(validHost, ValuesOf([])) == UNSCANNED
  {
  }

  /** The one streaming pass computes exactly what the section means. */
  method Scan(validHost: bytes -> bool, h: Headers) returns (s: Scanned)
    ensures s == FieldsOf(validHost, h)
  {
    s := UNSCANNED;
    var at := 0;
    EmptySection(validHost);
    while at < |h|
      invariant at <= |h|
      invariant s == Meaning(validHost, ValuesOf(h[..at]))
    {
      ghost var front := h[..at];
      assert h[..at + 1] == front + [h[at]];
      ValuesSnoc(front, h[at]);
      s := ScanOne(validHost, s, at, KindOf(h[at].name), h[at].value, ValuesOf(front));
      at := at + 1;
    }
    assert h[..at] == h;
  }

  lemma HostMeaning(validHost: bytes -> bool, v: Values, at: nat, value: bytes)
    ensures var s := Meaning(validHost, v);
            Meaning(validHost, v.(host := v.host + [value], hostAt := at)) ==
            s.(hosts := s.hosts + 1, validHost := validHost(value), hostAt := at)
  {
  }

  /** One field line of the pass. */
  method ScanOne(validHost: bytes -> bool, before: Scanned, at: nat, kind: Kind, value: bytes, ghost v: Values)
    returns (s: Scanned)
    requires before == Meaning(validHost, v)
    ensures s == Meaning(validHost, AddValue(v, at, kind, value))
  {
    s := before;
    match kind
    case TeKind =>
      TeMeaning(validHost, v, value);
      s := s.(teField := true, teChunked := s.teChunked || AnyNames(Elements(value, true), CHUNKED),
              emptyElements := s.emptyElements || HasEmpty(value, true));
    case HostKind =>
      HostMeaning(validHost, v, at, value);
      s := s.(hosts := s.hosts + 1, validHost := validHost(value), hostAt := at);
    case ExpectKind =>
      ExpectMeaning(validHost, v, value);
      s := s.(expectContinue := s.expectContinue || AnyIs(Elements(value, true), CONTINUE_100),
              emptyElements := s.emptyElements || HasEmpty(value, true));
    case UpgradeKind =>
      UpgradeMeaning(validHost, v, value);
      s := s.(upgradeField := true, emptyElements := s.emptyElements || HasEmpty(value, false));
    case ConnectionKind =>
      ConnectionMeaning(validHost, v, value);
      var close, keepAlive, upgrade, te := ScanOptions(Elements(value, false));
      s := s.(close := s.close || close, keepAlive := s.keepAlive || keepAlive,
              upgrade := s.upgrade || upgrade, connectionTe := s.connectionTe || te,
              emptyElements := s.emptyElements || HasEmpty(value, false));
    case LengthKind =>
      s := ScanLengthField(validHost, s, value, v);
    case EncodingKind =>
      s := ScanEncodingField(validHost, s, value, v);
    case OtherKind =>
  }

  method ScanLengthField(validHost: bytes -> bool, before: Scanned, value: bytes, ghost v: Values) returns (s: Scanned)
    requires before == Meaning(validHost, v)
    ensures s == Meaning(validHost, v.(length := v.length + [value]))
  {
    AllElementsSnoc(v.length, value, false);
    var length, lengths :=
      ScanLengths(before.length, before.lengths, AllElements(v.length, false), Elements(value, false));
    s := before.(length := length, lengths := lengths);
  }

  method ScanEncodingField(validHost: bytes -> bool, before: Scanned, value: bytes, ghost v: Values) returns (s: Scanned)
    requires before == Meaning(validHost, v)
    ensures s == Meaning(validHost, v.(encoding := v.encoding + [value]))
  {
    AllCodingsSnoc(v.encoding, value);
    var codings := if before.codings.Some? then before.codings.value else NO_CODINGS;
    codings := ReadCodings(codings, value, AllCodings(v.encoding));
    s := before.(codings := Some(codings));
  }

  lemma AnyIsSnoc(els: seq<bytes>, i: nat, token: bytes)
    requires i < |els|
    ensures AnyIs(els[..i + 1], token) <==> AnyIs(els[..i], token) || EqIgnoreCase(els[i], token)
  {
    assert els[..i + 1][i] == els[i];
    assert forall j :: 0 <= j < i ==> els[..i + 1][j] == els[..i][j];
  }

  method ScanOptions(options: seq<bytes>) returns (close: bool, keepAlive: bool, upgrade: bool, te: bool)
    ensures close == AnyIs(options, CLOSE) && keepAlive == AnyIs(options, KEEP_ALIVE)
    ensures upgrade == AnyIs(options, UPGRADE) && te == AnyIs(options, TE)
  {
    close, keepAlive, upgrade, te := false, false, false, false;
    for i := 0 to |options|
      invariant close == AnyIs(options[..i], CLOSE) && keepAlive == AnyIs(options[..i], KEEP_ALIVE)
      invariant upgrade == AnyIs(options[..i], UPGRADE) && te == AnyIs(options[..i], TE)
    {
      AnyIsSnoc(options, i, CLOSE);
      AnyIsSnoc(options, i, KEEP_ALIVE);
      AnyIsSnoc(options, i, UPGRADE);
      AnyIsSnoc(options, i, TE);
      close := close || EqIgnoreCase(options[i], CLOSE);
      keepAlive := keepAlive || EqIgnoreCase(options[i], KEEP_ALIVE);
      upgrade := upgrade || EqIgnoreCase(options[i], UPGRADE);
      te := te || EqIgnoreCase(options[i], TE);
    }
    assert options[..|options|] == options;
  }

  method ScanLengths(before: Option<Length>, count: nat, ghost front: seq<bytes>, els: seq<bytes>)
    returns (length: Option<Length>, lengths: nat)
    requires before == LengthRule(front) && count == |front|
    ensures length == LengthRule(front + els) && lengths == |front + els|
  {
    length, lengths := before, count;
    ghost var seen := front;
    for i := 0 to |els|
      invariant seen == front + els[..i]
      invariant length == LengthRule(seen) && lengths == |front| + i
    {
      LengthRuleSnoc(seen, els[i]);
      assert front + els[..i + 1] == seen + [els[i]];
      seen := seen + [els[i]];
      length, lengths := AddLength(length, els[i]), lengths + 1;
    }
    assert els[..|els|] == els;
  }

  // ------------------------------------------------------------- section rules

  /** The names of the fields a scan looks at. */
  predicate IsScanned(name: bytes) {
    name in {TE, HOST, EXPECT, UPGRADE, CONNECTION, CONTENT_LENGTH, TRANSFER_ENCODING}
  }

  /** Two sections whose scanned fields agree, name by name. */
  ghost predicate SameFields(g: Headers, h: Headers) {
    forall name :: IsScanned(name) ==> GetAll(g, name) == GetAll(h, name)
  }

  lemma SameFieldsScan(validHost: bytes -> bool, g: Headers, h: Headers)
    requires SameFields(g, h)
    ensures FieldsOf(validHost, g) == FieldsOf(validHost, h).(hostAt := FieldsOf(validHost, g).hostAt)
  {
    assert IsScanned(TE) && IsScanned(HOST) && IsScanned(EXPECT) && IsScanned(UPGRADE);
    assert IsScanned(CONNECTION) && IsScanned(CONTENT_LENGTH) && IsScanned(TRANSFER_ENCODING);
  }

  /** The section without the fields a scan does not look at. */
  function Known(h: Headers): Headers {
    if h == [] then []
    else Known(h[..|h| - 1]) + (if KindOf(h[|h| - 1].name) == OtherKind then [] else [h[|h| - 1]])
  }

  lemma UnknownLast(front: Headers, f: Field)
    requires KindOf(f.name) == OtherKind
    ensures Known(front + [f]) == Known(front)
  {
    assert (front + [f])[..|front|] == front;
    assert Known(front) + [] == Known(front);
  }

  lemma UnscannedName(other: bytes, name: bytes)
    requires KindOf(other) == OtherKind && IsScanned(name)
    ensures !EqIgnoreCase(other, name)
  {
    KindIsName(other);
  }

  lemma {:induction false} KnownGetAll(h: Headers, name: bytes)
    requires IsScanned(name)
    ensures GetAll(Known(h), name) == GetAll(h, name)
  {
    if h == [] {
    } else {
      var front, f := h[..|h| - 1], h[|h| - 1];
      KnownGetAll(front, name);
      assert h == front + [f];
      GetAllSnoc(front, f, name);
      if KindOf(f.name) == OtherKind {
        UnscannedName(f.name, name);
        UnknownLast(front, f);
      } else {
        GetAllSnoc(Known(front), f, name);
      }
    }
  }

  lemma {:induction false} KnownConcat(g: Headers, h: Headers)
    ensures Known(g + h) == Known(g) + Known(h)
  {
    if h == [] {
      assert g + h == g;
    } else {
      var all := g + h;
      KnownConcat(g, h[..|h| - 1]);
      assert all[..|all| - 1] == g + h[..|h| - 1] && all[|all| - 1] == h[|h| - 1];
    }
  }

  /** Only the fields it looks at, in their order, decide what a scan finds, but for where Host is. */
  lemma ScanIgnoresTheRest(validHost: bytes -> bool, g: Headers, h: Headers)
    requires Known(g) == Known(h)
    ensures FieldsOf(validHost, g) == FieldsOf(validHost, h).(hostAt := FieldsOf(validHost, g).hostAt)
  {
    forall name | IsScanned(name)
      ensures GetAll(g, name) == GetAll(h, name)
    {
      KnownGetAll(g, name);
      KnownGetAll(h, name);
    }
    SameFieldsScan(validHost, g, h);
  }

  function Inserted(h: Headers, f: Field, at: nat): Headers
    requires at <= |h|
  {
    h[..at] + [f] + h[at..]
  }

  lemma UnknownInside(g: Headers, f: Field, h: Headers)
    requires KindOf(f.name) == OtherKind
    ensures Known(g + [f] + h) == Known(g + h)
  {
    UnknownLast(g, f);
    KnownConcat(g + [f], h);
    KnownConcat(g, h);
  }

  lemma Rejoined(h: Headers, at: nat)
    requires at <= |h|
    ensures h[..at] + h[at..] == h
  {
  }

  lemma InsertedIsUnknown(h: Headers, f: Field, at: nat)
    requires at <= |h| && KindOf(f.name) == OtherKind
    ensures Known(Inserted(h, f, at)) == Known(h)
  {
    UnknownInside(h[..at], f, h[at..]);
    Rejoined(h, at);
  }

  /** Inserting an unrelated field, removing it or moving it changes nothing but where Host is. */
  lemma UnrelatedFieldIsFree(validHost: bytes -> bool, h: Headers, f: Field, from: nat, to: nat)
    requires from <= |h| && to <= |h| && KindOf(f.name) == OtherKind
    ensures var s := FieldsOf(validHost, Inserted(h, f, from));
            && s == FieldsOf(validHost, h).(hostAt := s.hostAt)
            && s == FieldsOf(validHost, Inserted(h, f, to)).(hostAt := s.hostAt)
  {
    InsertedIsUnknown(h, f, from);
    InsertedIsUnknown(h, f, to);
    ScanIgnoresTheRest(validHost, Inserted(h, f, from), h);
    ScanIgnoresTheRest(validHost, Inserted(h, f, from), Inserted(h, f, to));
  }

  /** What an ordered coding list says: every coding sound, and chunked only last. */
  function CodingFraming(items: seq<Coding>, response: bool): Option<Framing> {
    var n := |items|;
    if n == 0 || exists i :: 0 <= i < n && !items[i].valid then None
    else if !response then
      (if n == 1 && items[0].chunked then Some(Bodies.Framing.Chunked) else None)
    else if !items[n - 1].chunked then Some(Bodies.Framing.CloseDelimited)
    else if exists i :: 0 <= i < n - 1 && items[i].chunked then None
    else Some(Bodies.Framing.Chunked)
  }

  /** The framing of section 6.3 of RFC 9112, said of the flattened lists. */
  function FramingRule(lengths: seq<bytes>, codingFields: nat, items: seq<Coding>, version: Version, response: bool)
    : Option<Framing>
  {
    if codingFields > 0 then
      if lengths != [] || version == Http10 then None else CodingFraming(items, response)
    else if lengths != [] then
      var first := ParseNumber(lengths[0], 10);
      if first.Some? && forall i :: 0 <= i < |lengths| ==> ParseNumber(lengths[i], 10) == first
      then Some(Bodies.Framing.Fixed(first.value)) else None
    else if response then Some(Bodies.Framing.CloseDelimited)
    else Some(Bodies.Framing.Fixed(0))
  }

  lemma CodingFramingIsListRule(list: CodingList, response: bool)
    ensures CodingRule(list).Frame(response) == CodingFraming(list.items, response)
  {
    var n := |list.items|;
    if n > 1 {
      assert list.items[0].FinalChunked() || !list.items[0].FinalChunked();
    }
    if forall i :: 0 <= i < n ==> list.items[i].valid {
      assert forall i :: 0 <= i < n ==> list.items[i].FinalChunked() == list.items[i].chunked;
    }
  }

  lemma MeaningIsListRule(validHost: bytes -> bool, v: Values, version: Version, response: bool)
    ensures Meaning(validHost, v).Frame(version, response) ==
            FramingRule(AllElements(v.length, false), |v.encoding|, AllCodings(v.encoding).items, version, response)
  {
    CodingFramingIsListRule(AllCodings(v.encoding), response);
  }

  /** The flags kept by the streaming pass decide framing exactly as the lists do. */
  lemma ScanIsListRule(validHost: bytes -> bool, h: Headers, version: Version, response: bool)
    ensures FieldsOf(validHost, h).Frame(version, response) ==
            FramingRule(AllElements(GetAll(h, CONTENT_LENGTH), false), |GetAll(h, TRANSFER_ENCODING)|,
                        AllCodings(GetAll(h, TRANSFER_ENCODING)).items, version, response)
  {
    MeaningIsListRule(validHost, ValuesOf(h), version, response);
  }
}
