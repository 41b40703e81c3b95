/** Connection options, upgrade protocols and the validity of sent fields. */
module Options {
  import opened States
  import opened Bytes
  import opened ChunkHeaders
  import opened Fields

  const PLAIN := Quoting(false, false)

  // "Connection", "Content-Length", "Transfer-Encoding", "chunked", "0"
  const CONNECTION_NAME: bytes := [67, 111, 110, 110, 101, 99, 116, 105, 111, 110]
  const CONTENT_LENGTH_NAME: bytes := [67, 111, 110, 116, 101, 110, 116, 45, 76, 101, 110, 103, 116, 104]
  const TRANSFER_ENCODING_NAME: bytes :=
    [84, 114, 97, 110, 115, 102, 101, 114, 45, 69, 110, 99, 111, 100, 105, 110, 103]
  const ZERO: bytes := [48]

  // ------------------------------------------------------- validity of fields

  predicate ValidName(name: bytes) {
    name != [] && AllToken(name)
  }

  predicate ValidValue(value: bytes) {
    value == [] ||
    (IsVchar(value[0]) && IsVchar(value[|value| - 1]) && forall i :: 0 <= i < |value| ==> IsLineValue(value[i]))
  }

  predicate ValidHeaders(h: Headers) {
    forall i :: 0 <= i < |h| ==> ValidName(h[i].name) && ValidValue(h[i].value)
  }

  predicate ValidReason(reason: bytes) {
    forall i :: 0 <= i < |reason| ==> IsLineValue(reason[i])
  }

  predicate ForbiddenInTrailers(name: bytes) {
    || EqIgnoreCase(name, CONTENT_LENGTH) || EqIgnoreCase(name, TRANSFER_ENCODING)
    || EqIgnoreCase(name, HOST) || EqIgnoreCase(name, CONNECTION)
    || EqIgnoreCase(name, TRAILER) || EqIgnoreCase(name, UPGRADE)
    || EqIgnoreCase(name, EXPECT) || EqIgnoreCase(name, TE)
  }

  predicate ValidTrailers(h: Headers) {
    ValidHeaders(h) && forall i :: 0 <= i < |h| ==> !ForbiddenInTrailers(h[i].name)
  }

  // --------------------------------------------------------- upgrade protocols

  function SlashAt(s: bytes): (n: nat)
    ensures n <= |s|
    ensures n < |s| ==> s[n] == SLASH
  {
    if s == [] || s[0] == SLASH then 0 else 1 + SlashAt(s[1..])
  }

  function AfterSlash(s: bytes): Option<bytes> {
    if SlashAt(s) == |s| then None else Some(s[SlashAt(s) + 1..])
  }

  /** Protocol names match case-insensitively, versions exactly. */
  predicate ProtocolMatches(left: bytes, right: bytes) {
    EqIgnoreCase(left[..SlashAt(left)], right[..SlashAt(right)]) && AfterSlash(left) == AfterSlash(right)
  }

  predicate ValidProtocol(value: bytes) {
    && ValidName(value[..SlashAt(value)])
    && (AfterSlash(value).Some? ==> ValidName(AfterSlash(value).value))
  }

  function NonEmpty(els: seq<bytes>): seq<bytes> {
    if els == [] then []
    else NonEmpty(els[..|els| - 1]) + (if els[|els| - 1] != [] then [els[|els| - 1]] else [])
  }

  /** The listed protocols; nothing for an invalid or an empty `Upgrade`. */
  function UpgradeProtocols(h: Headers): Option<seq<bytes>> {
    var values := GetAll(h, UPGRADE);
    var protocols := NonEmpty(AllElements(values, false));
    if exists i :: 0 <= i < |protocols| && !ValidProtocol(protocols[i]) then None
    else if values != [] && protocols == [] then None
    else Some(protocols)
  }

  /** Whether every selected protocol was offered. */
  predicate AllOffered(offered: seq<bytes>, selected: seq<bytes>) {
    forall i :: 0 <= i < |selected| ==>
      exists j :: 0 <= j < |offered| && ProtocolMatches(offered[j], selected[i])
  }

  // -------------------------------------------------------- connection options

  predicate IsPersistence(option: bytes) {
    EqIgnoreCase(option, CLOSE) || EqIgnoreCase(option, KEEP_ALIVE)
  }

  /** The options that are not about persistence, in order. */
  function Kept(els: seq<bytes>): seq<bytes> {
    if els == [] then []
    else if els[0] == [] || IsPersistence(els[0]) then Kept(els[1..])
    else [els[0]] + Kept(els[1..])
  }

  function Join(els: seq<bytes>): bytes {
    if els == [] then []
    else if |els| == 1 then els[0]
    else els[0] + [COMMA] + ([SP] + Join(els[1..]))
  }

  function Without(h: Headers, name: bytes): Headers {
    if h == [] then []
    else Without(h[..|h| - 1], name) + (if EqIgnoreCase(h[|h| - 1].name, name) then [] else [h[|h| - 1]])
  }

  /** One `Connection` field: the former options without close and keep-alive, then the new one. */
  function SetConnectionOption(h: Headers, option: bytes): Headers {
    var options := Kept(AllElements(GetAll(h, CONNECTION), false)) + [option];
    Without(h, CONNECTION) + [Field(CONNECTION_NAME, Join(options))]
  }

  predicate NoComma(s: bytes) {
    forall i :: 0 <= i < |s| ==> s[i] != COMMA
  }

  /** An element as lists hold them: no comma, no surrounding whitespace. */
  predicate Clean(s: bytes) {
    NoComma(s) && (s == [] || (!IsOws(s[0]) && !IsOws(s[|s| - 1])))
  }

  predicate AllClean(els: seq<bytes>) {
    forall i :: 0 <= i < |els| ==> Clean(els[i])
  }

  lemma {:induction false} DropOwsPart(s: bytes)
    requires NoComma(s)
    ensures NoComma(DropOws(s)) && (DropOws(s) == [] || !IsOws(DropOws(s)[0]))
  {
    if s != [] && IsOws(s[0]) {
      DropOwsPart(s[1..]);
    }
  }

  lemma {:induction false} TrimEndPart(s: bytes)
    requires NoComma(s) && (s == [] || !IsOws(s[0]))
    ensures Clean(TrimEnd(s))
  {
    if s != [] && IsOws(s[|s| - 1]) {
      TrimEndPart(s[..|s| - 1]);
    }
  }

  lemma TrimCleans(s: bytes)
    requires NoComma(s)
    ensures Clean(TrimOws(s))
  {
    DropOwsPart(s);
    TrimEndPart(DropOws(s));
  }

  lemma {:induction false} SplitParts(s: bytes)
    ensures forall i :: 0 <= i < |Split(s, false, PLAIN)| ==> NoComma(Split(s, false, PLAIN)[i])
  {
    if s == [] {
    } else {
      SplitParts(s[1..]);
      var rest := Split(s[1..], false, PLAIN);
      assert NoComma(rest[0]);
      var parts := Split(s, false, PLAIN);
      assert parts == if s[0] == COMMA then [[]] + rest else [[s[0]] + rest[0]] + rest[1..];
    }
  }

  lemma ElementsClean(value: bytes)
    ensures AllClean(Elements(value, false))
  {
    SplitParts(value);
    var parts := Split(value, false, PLAIN);
    forall i | 0 <= i < |parts|
      ensures Clean(TrimOws(parts[i]))
    {
      TrimCleans(parts[i]);
    }
  }

  lemma {:induction false} AllElementsClean(values: seq<bytes>)
    ensures AllClean(AllElements(values, false))
  {
    if values == [] {
    } else {
      AllElementsClean(values[..|values| - 1]);
      ElementsClean(values[|values| - 1]);
    }
  }

  lemma {:induction false} SplitFirst(s: bytes, rest: bytes)
    requires NoComma(s)
    ensures Split(s, false, PLAIN) == [s]
    ensures Split(s + [COMMA] + rest, false, PLAIN) == [s] + Split(rest, false, PLAIN)
  {
    var t := s + [COMMA] + rest;
    if s == [] {
      assert t[1..] == rest;
    } else {
      SplitFirst(s[1..], rest);
      assert t[1..] == s[1..] + [COMMA] + rest;
      assert [s[0]] + s[1..] == s;
    }
  }

  lemma TrimClean(s: bytes)
    requires Clean(s)
    ensures TrimOws(s) == s
  {
  }

  /** A space in front of a list changes none of its elements. */
  lemma SpaceIsTrimmed(s: bytes)
    ensures Elements([SP] + s, false) == Elements(s, false)
  {
    var t := [SP] + s;
    assert t[1..] == s;
    var parts := Split(s, false, PLAIN);
    assert Split(t, false, PLAIN) == [[SP] + parts[0]] + parts[1..];
    assert ([SP] + parts[0])[1..] == parts[0];
  }

  lemma ElementsFirst(s: bytes, rest: bytes)
    requires Clean(s)
    ensures Elements(s, false) == [s]
    ensures Elements(s + [COMMA] + rest, false) == [s] + Elements(rest, false)
  {
    SplitFirst(s, rest);
    TrimClean(s);
    var all := Elements(s + [COMMA] + rest, false);
    var tail := Elements(rest, false);
    assert forall i :: 0 <= i < |tail| ==> all[i + 1] == tail[i];
  }

  lemma JoinFirst(s: bytes, w: bytes, rest: seq<bytes>)
    requires Clean(s) && Elements(w, false) == rest
    ensures Elements(s + [COMMA] + w, false) == [s] + rest
  {
    ElementsFirst(s, w);
  }

  /** Joined options read back as the same options in the same order. */
  lemma {:induction false} JoinReadsBack(els: seq<bytes>)
    requires els != [] && AllClean(els)
    ensures Elements(Join(els), false) == els
  {
    if |els| == 1 {
      ElementsFirst(els[0], []);
    } else {
      var rest := els[1..];
      JoinReadsBack(rest);
      SpaceIsTrimmed(Join(rest));
      var w := [SP] + Join(rest);
      JoinFirst(els[0], w, rest);
      assert Join(els) == els[0] + [COMMA] + w;
      assert [els[0]] + rest == els;
    }
  }

  lemma {:induction false} KeptIsClean(els: seq<bytes>)
    requires AllClean(els)
    ensures AllClean(Kept(els))
    ensures forall i :: 0 <= i < |Kept(els)| ==> !IsPersistence(Kept(els)[i])
  {
    if els == [] {
    } else {
      KeptIsClean(els[1..]);
    }
  }

  lemma {:induction false} WithoutGetAll(h: Headers, gone: bytes, name: bytes)
    ensures GetAll(Without(h, gone), name) == if EqIgnoreCase(gone, name) then [] else GetAll(h, name)
  {
    if h == [] {
    } else {
      var front, f := h[..|h| - 1], h[|h| - 1];
      WithoutGetAll(front, gone, name);
      if !EqIgnoreCase(f.name, gone) {
        GetAllSnoc(Without(front, gone), f, name);
      } else {
        assert Without(front, gone) + [] == Without(front, gone);
      }
      assert GetAll(front, name) + [] == GetAll(front, name);
    }
  }

  lemma ReplacedField(h: Headers, value: bytes)
    ensures GetAll(Without(h, CONNECTION) + [Field(CONNECTION_NAME, value)], CONNECTION) == [value]
  {
    WithoutGetAll(h, CONNECTION, CONNECTION);
    GetAllSnoc(Without(h, CONNECTION), Field(CONNECTION_NAME, value), CONNECTION);
  }

  lemma RewrittenClean(els: seq<bytes>, option: bytes)
    requires AllClean(els) && (option == CLOSE || option == KEEP_ALIVE)
    ensures AllClean(Kept(els) + [option])
  {
    KeptIsClean(els);
    assert Clean(option);
  }

  lemma OneValue(value: bytes)
    ensures AllElements([] + [value], false) == Elements(value, false)
  {
    AllElementsSnoc([], value, false);
    assert AllElements([], false) + Elements(value, false) == Elements(value, false);
  }

  lemma RewrittenOptions(h: Headers, option: bytes)
    requires option == CLOSE || option == KEEP_ALIVE
    ensures AllElements(GetAll(SetConnectionOption(h, option), CONNECTION), false) ==
            Kept(AllElements(GetAll(h, CONNECTION), false)) + [option]
  {
    var els := AllElements(GetAll(h, CONNECTION), false);
    var options := Kept(els) + [option];
    AllElementsClean(GetAll(h, CONNECTION));
    RewrittenClean(els, option);
    JoinReadsBack(options);
    ReplacedField(h, Join(options));
    OneValue(Join(options));
    assert [] + [Join(options)] == [Join(options)];
  }

  lemma ConnectionName()
    ensures EqIgnoreCase(CONNECTION_NAME, CONNECTION)
  {
  }

  lemma SameName(a: bytes, b: bytes, name: bytes)
    requires EqIgnoreCase(a, b)
    ensures EqIgnoreCase(a, name) <==> EqIgnoreCase(b, name)
  {
  }

  lemma OthersUnchanged(h: Headers, option: bytes, name: bytes)
    requires !EqIgnoreCase(CONNECTION, name)
    ensures GetAll(SetConnectionOption(h, option), name) == GetAll(h, name)
  {
    var value := Join(Kept(AllElements(GetAll(h, CONNECTION), false)) + [option]);
    WithoutGetAll(h, CONNECTION, name);
    GetAllSnoc(Without(h, CONNECTION), Field(CONNECTION_NAME, value), name);
    ConnectionName();
    SameName(CONNECTION_NAME, CONNECTION, name);
  }

  lemma OnlyOption(kept: seq<bytes>, option: bytes)
    requires option == CLOSE || option == KEEP_ALIVE
    requires forall i :: 0 <= i < |kept| ==> !IsPersistence(kept[i])
    ensures AnyIs(kept + [option], CLOSE) <==> option == CLOSE
    ensures AnyIs(kept + [option], KEEP_ALIVE) <==> option == KEEP_ALIVE
  {
    AnyIsConcat(kept, [option], CLOSE);
    AnyIsConcat(kept, [option], KEEP_ALIVE);
    assert [option][0] == option;
    assert |CLOSE| != |KEEP_ALIVE|;
  }

  /**
   Rewriting a persistence option: the other options keep their order, the new
   one is last, and no other field is touched.
   */
  lemma SetConnectionOptionIsExact(h: Headers, option: bytes)
    requires option == CLOSE || option == KEEP_ALIVE
    ensures var r := SetConnectionOption(h, option);
            && AllElements(GetAll(r, CONNECTION), false) == Kept(AllElements(GetAll(h, CONNECTION), false)) + [option]
            && (forall name :: !EqIgnoreCase(CONNECTION, name) ==> GetAll(r, name) == GetAll(h, name))
            && (HasToken(r, CONNECTION, CLOSE) <==> option == CLOSE)
            && (HasToken(r, CONNECTION, KEEP_ALIVE) <==> option == KEEP_ALIVE)
  {
    RewrittenOptions(h, option);
    forall name | !EqIgnoreCase(CONNECTION, name)
      ensures GetAll(SetConnectionOption(h, option), name) == GetAll(h, name)
    {
      OthersUnchanged(h, option, name);
    }
    AllElementsClean(GetAll(h, CONNECTION));
    KeptIsClean(AllElements(GetAll(h, CONNECTION), false));
    OnlyOption(Kept(AllElements(GetAll(h, CONNECTION), false)), option);
  }
}
