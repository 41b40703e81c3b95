/** Chunk-size lines: the parser, its grammar, and the size printer. */
module ChunkHeaders {
  import opened States
  import opened Bytes

  // ------------------------------------------------------- prefix recognisers

  function DropOws(s: bytes): (r: bytes)
    ensures |r| <= |s|
  {
    if s == [] || !IsOws(s[0]) then s else DropOws(s[1..])
  }

  function DropToken(s: bytes): (r: bytes)
    ensures |r| <= |s|
  {
    if s == [] || !IsToken(s[0]) then s else DropToken(s[1..])
  }

  function HexLen(s: bytes): (n: nat)
    ensures n <= |s|
  {
    if s == [] || DigitValue(s[0], 16) >= 16 then 0 else 1 + HexLen(s[1..])
  }

  predicate IsQdtext(b: byte) {
    b == TAB || b == SP || b == 33 || 35 <= b <= 91 || 93 <= b <= 126 || 128 <= b
  }

  /** What follows a quoted string, from just past its opening quote. */
  function DropQuoted(s: bytes): (r: Option<bytes>)
    ensures r.Some? ==> |r.value| < |s|
  {
    if s == [] then None
    else if s[0] == DQUOTE then Some(s[1..])
    else if s[0] == BACKSLASH then
      if |s| < 2 || !IsLineValue(s[1]) then None else DropQuoted(s[2..])
    else if IsQdtext(s[0]) then DropQuoted(s[1..])
    else None
  }

  /** What follows an optional value, right after an extension name. */
  function ReadValue(c: bytes): (r: Option<bytes>)
    ensures r.Some? ==> |r.value| <= |c|
  {
    var d := DropOws(c);
    if d != [] && d[0] == EQUALS then
      var e := DropOws(d[1..]);
      if e != [] && e[0] == DQUOTE then DropQuoted(e[1..])
      else if |DropToken(e)| == |e| then None
      else Some(DropToken(e))
    else if |d| != |c| && (d == [] || d[0] != SEMICOLON) then None
    else Some(d)
  }

  /** What follows one chunk extension. */
  function ReadExt(s: bytes): (r: Option<bytes>)
    ensures r.Some? ==> |r.value| < |s|
  {
    var a := DropOws(s);
    if a == [] || a[0] != SEMICOLON then None
    else
      var b := DropOws(a[1..]);
      if |DropToken(b)| == |b| then None else ReadValue(DropToken(b))
  }

  /** Whether `s` is a complete chunk-extension list, read greedily. */
  predicate ExtensionsOk(s: bytes)
    decreases |s|
  {
    s == [] || (ReadExt(s).Some? && ExtensionsOk(ReadExt(s).value))
  }

  function ChunkHeader(line: bytes): Option<nat> {
    var digits := HexLen(line);
    var size := ParseNumber(line[..digits], 16);
    if size.Some? && ExtensionsOk(line[digits..]) then size else None
  }

  // ------------------------------------------------------------ cursor parser

  method SkipOws(value: bytes, start: nat) returns (at: nat)
    requires start <= |value|
    ensures start <= at <= |value|
    ensures DropOws(value[start..]) == value[at..]
  {
    at := start;
    while at < |value| && IsOws(value[at])
      invariant start <= at <= |value|
      invariant DropOws(value[start..]) == DropOws(value[at..])
    {
      assert value[at..][1..] == value[at + 1..];
      at := at + 1;
    }
  }

  method TokenEnd(value: bytes, start: nat) returns (at: nat)
    requires start <= |value|
    ensures start <= at <= |value|
    ensures DropToken(value[start..]) == value[at..]
  {
    at := start;
    while at < |value| && IsToken(value[at])
      invariant start <= at <= |value|
      invariant DropToken(value[start..]) == DropToken(value[at..])
    {
      assert value[at..][1..] == value[at + 1..];
      at := at + 1;
    }
  }

  /** The rest of `line` from a cursor, or nothing for a failed read. */
  function Suffix(line: bytes, at: Option<nat>): Option<bytes> {
    if at.Some? && at.value <= |line| then Some(line[at.value..]) else None
  }

  method ParseQuotedString(value: bytes, start: nat) returns (end: Option<nat>)
    requires start < |value|
    ensures end.Some? ==> start < end.value <= |value|
    ensures Suffix(value, end) == DropQuoted(value[start + 1..])
  {
    var at := start + 1;
    while at < |value|
      invariant start + 1 <= at <= |value|
      invariant DropQuoted(value[start + 1..]) == DropQuoted(value[at..])
    {
      ghost var s := value[at..];
      assert s[1..] == value[at + 1..];
      if value[at] == DQUOTE {
        return Some(at + 1);
      } else if value[at] == BACKSLASH {
        if at + 1 >= |value| || !IsLineValue(value[at + 1]) {
          return None;
        }
        assert s[2..] == value[at + 2..];
        at := at + 1;
      } else if !IsQdtext(value[at]) {
        return None;
      }
      at := at + 1;
    }
    return None;
  }

  /** Reads an optional extension value from the cursor just past its name. */
  method ParseValue(line: bytes, afterName: nat) returns (end: Option<nat>)
    requires afterName <= |line|
    ensures end.Some? ==> afterName <= end.value <= |line|
    ensures Suffix(line, end) == ReadValue(line[afterName..])
  {
    var at := SkipOws(line, afterName);
    if at < |line| && line[at] == EQUALS {
      assert line[at..][1..] == line[at + 1..];
      at := SkipOws(line, at + 1);
      if at < |line| && line[at] == DQUOTE {
        assert line[at..][1..] == line[at + 1..];
        end := ParseQuotedString(line, at);
      } else {
        var value := at;
        at := TokenEnd(line, at);
        if at == value {
          return None;
        }
        end := Some(at);
      }
    } else if at != afterName && (at >= |line| || line[at] != SEMICOLON) {
      return None;
    } else {
      end := Some(at);
    }
  }

  method ParseExtension(line: bytes, start: nat) returns (end: Option<nat>)
    requires start < |line|
    ensures end.Some? ==> start < end.value <= |line|
    ensures Suffix(line, end) == ReadExt(line[start..])
  {
    var at := SkipOws(line, start);
    if at >= |line| || line[at] != SEMICOLON {
      return None;
    }
    assert line[at..][1..] == line[at + 1..];
    var name := SkipOws(line, at + 1);
    at := TokenEnd(line, name);
    if at == name {
      return None;
    }
    end := ParseValue(line, at);
  }

  method ParseChunkHeader(line: bytes) returns (size: Option<nat>)
    ensures size == ChunkHeader(line)
  {
    var digits := 0;
    while digits < |line| && DigitValue(line[digits], 16) < 16
      invariant digits <= |line|
      invariant digits + HexLen(line[digits..]) == HexLen(line)
    {
      assert line[digits..][1..] == line[digits + 1..];
      digits := digits + 1;
    }
    assert digits == HexLen(line);
    size := ParseNumber(line[..digits], 16);
    if size.None? {
      return;
    }
    var at := digits;
    while at < |line|
      invariant digits <= at <= |line|
      invariant ExtensionsOk(line[at..]) == ExtensionsOk(line[digits..])
    {
      var end := ParseExtension(line, at);
      if end.None? {
        return None;
      }
      at := end.value;
    }
  }

  // ------------------------------------------------------------------ grammar

  /** `qdtext` or `quoted-pair`. */
  datatype QuotedChar = Plain(b: byte) | Escaped(b: byte) {
    predicate Valid() {
      if Plain? then IsQdtext(b) else IsLineValue(b)
    }

    function Text(): bytes {
      if Plain? then [b] else [BACKSLASH, b]
    }
  }

  /** `[ BWS "=" BWS ( token / quoted-string ) ]`, with its whitespace. */
  datatype ExtValue =
    | NoValue
    | TokenValue(before: bytes, after: bytes, token: bytes)
    | QuotedValue(before: bytes, after: bytes, chars: seq<QuotedChar>)

  /** `BWS ";" BWS chunk-ext-name [ ... ]`. */
  datatype Ext = Ext(lead: bytes, gap: bytes, name: bytes, value: ExtValue)

  ghost predicate ValidChars(chars: seq<QuotedChar>) {
    forall i :: 0 <= i < |chars| ==> chars[i].Valid()
  }

  ghost predicate ValidValue(v: ExtValue) {
    match v
    case NoValue => true
    case TokenValue(p, q, t) => AllOws(p) && AllOws(q) && t != [] && AllToken(t)
    case QuotedValue(p, q, cs) => AllOws(p) && AllOws(q) && ValidChars(cs)
  }

  ghost predicate ValidExt(x: Ext) {
    && AllOws(x.lead) && AllOws(x.gap)
    && x.name != [] && AllToken(x.name)
    && ValidValue(x.value)
  }

  ghost predicate ValidExts(xs: seq<Ext>) {
    forall i :: 0 <= i < |xs| ==> ValidExt(xs[i])
  }

  ghost function CharsText(chars: seq<QuotedChar>): bytes {
    if chars == [] then [DQUOTE] else chars[0].Text() + CharsText(chars[1..])
  }

  ghost function ValueText(v: ExtValue): bytes {
    match v
    case NoValue => []
    case TokenValue(p, q, t) => p + [EQUALS] + q + t
    case QuotedValue(p, q, cs) => p + [EQUALS] + q + [DQUOTE] + CharsText(cs)
  }

  ghost function ExtText(x: Ext): bytes {
    x.lead + [SEMICOLON] + x.gap + x.name + ValueText(x.value)
  }

  ghost function ExtsText(xs: seq<Ext>): bytes {
    if xs == [] then [] else ExtText(xs[0]) + ExtsText(xs[1..])
  }

  /** `chunk-size [ chunk-ext ]` with the size's unbounded value. */
  ghost predicate InGrammar(line: bytes, v: nat) {
    exists ds: bytes, xs: seq<Ext> ::
      && line == ds + ExtsText(xs)
      && ds != [] && AllDigits(ds, 16) && NumberValue(ds, 16) == v
      && ValidExts(xs)
  }

  // Greedy prefixes stop exactly where the grammar says they must.

  lemma {:induction false} DropsOws(ws: bytes, rest: bytes)
    requires AllOws(ws) && (rest == [] || !IsOws(rest[0]))
    ensures DropOws(ws + rest) == rest
  {
    if ws != [] {
      assert (ws + rest)[1..] == ws[1..] + rest;
      DropsOws(ws[1..], rest);
    } else {
      assert ws + rest == rest;
    }
  }

  lemma {:induction false} DropsToken(t: bytes, rest: bytes)
    requires AllToken(t) && (rest == [] || !IsToken(rest[0]))
    ensures DropToken(t + rest) == rest
  {
    if t != [] {
      assert (t + rest)[1..] == t[1..] + rest;
      DropsToken(t[1..], rest);
    } else {
      assert t + rest == rest;
    }
  }

  lemma {:induction false} DropsQuoted(cs: seq<QuotedChar>, rest: bytes)
    requires ValidChars(cs)
    ensures DropQuoted(CharsText(cs) + rest) == Some(rest)
  {
    var s := CharsText(cs) + rest;
    if cs != [] {
      DropsQuoted(cs[1..], rest);
      assert s[|cs[0].Text()|..] == CharsText(cs[1..]) + rest;
    } else {
      assert s[1..] == rest;
    }
  }

  lemma {:induction false} HexStops(ds: bytes, rest: bytes)
    requires AllDigits(ds, 16) && (rest == [] || DigitValue(rest[0], 16) >= 16)
    ensures HexLen(ds + rest) == |ds|
  {
    if ds != [] {
      assert (ds + rest)[1..] == ds[1..] + rest;
      HexStops(ds[1..], rest);
    } else {
      assert ds + rest == rest;
    }
  }

  lemma {:induction false} HexPrefix(s: bytes)
    ensures AllDigits(s[..HexLen(s)], 16)
  {
    if s != [] && DigitValue(s[0], 16) < 16 {
      HexPrefix(s[1..]);
      assert s[..HexLen(s)] == [s[0]] + s[1..][..HexLen(s[1..])];
    }
  }

  lemma {:induction false} OwsSplit(s: bytes) returns (ws: bytes)
    ensures AllOws(ws) && s == ws + DropOws(s)
    ensures DropOws(s) == [] || !IsOws(DropOws(s)[0])
  {
    ws := [];
    if s != [] && IsOws(s[0]) {
      ws := OwsSplit(s[1..]);
      ws := [s[0]] + ws;
    }
  }

  lemma {:induction false} TokenSplit(s: bytes) returns (t: bytes)
    ensures AllToken(t) && s == t + DropToken(s)
  {
    t := [];
    if s != [] && IsToken(s[0]) {
      t := TokenSplit(s[1..]);
      t := [s[0]] + t;
    }
  }

  lemma {:induction false} QuotedSplit(s: bytes) returns (cs: seq<QuotedChar>)
    requires DropQuoted(s).Some?
    ensures ValidChars(cs) && s == CharsText(cs) + DropQuoted(s).value
    decreases |s|
  {
    if s[0] == DQUOTE {
      cs := [];
    } else {
      var k, c := 1, Plain(s[0]);
      if s[0] == BACKSLASH {
        k, c := 2, Escaped(s[1]);
      }
      var rest := QuotedSplit(s[k..]);
      cs := [c] + rest;
      assert cs[1..] == rest && s == s[..k] + s[k..];
    }
  }

  /** An extension list is empty or starts, past whitespace, with `;`. */
  lemma ExtsStart(xs: seq<Ext>)
    requires ValidExts(xs)
    ensures ExtsText(xs) != [] ==> !IsToken(ExtsText(xs)[0]) && DigitValue(ExtsText(xs)[0], 16) >= 16
    ensures ExtsText(xs) == [] <==> xs == []
  {
    if xs != [] {
      var x := xs[0];
      assert ExtsText(xs)[0] == (if x.lead == [] then SEMICOLON else x.lead[0]);
    }
  }

  /** Leading whitespace before `;` is skipped before anything else. */
  lemma SkipLead(s: bytes)
    ensures ReadExt(DropOws(s)) == ReadExt(s)
    ensures s != [] && ExtensionsOk(s) ==> DropOws(s) != [] && DropOws(s)[0] == SEMICOLON && ExtensionsOk(DropOws(s))
  {
    var ws := OwsSplit(s);
    DropsOws([], DropOws(s));
    assert [] + DropOws(s) == DropOws(s);
  }

  lemma ReadTokenValue(p: bytes, q: bytes, t: bytes, rest: bytes)
    requires AllOws(p) && AllOws(q) && t != [] && AllToken(t)
    requires rest == [] || !IsToken(rest[0])
    ensures ReadValue(p + [EQUALS] + q + t + rest) == Some(rest)
  {
    var e := t + rest;
    var d := [EQUALS] + (q + e);
    assert p + [EQUALS] + q + t + rest == p + d;
    DropsOws(p, d);
    assert d[1..] == q + e;
    assert e[0] == t[0];
    DropsOws(q, e);
    DropsToken(t, rest);
  }

  lemma ReadQuotedValue(p: bytes, q: bytes, cs: seq<QuotedChar>, rest: bytes)
    requires AllOws(p) && AllOws(q) && ValidChars(cs)
    ensures ReadValue(p + [EQUALS] + q + [DQUOTE] + CharsText(cs) + rest) == Some(rest)
  {
    var e := [DQUOTE] + (CharsText(cs) + rest);
    var d := [EQUALS] + (q + e);
    assert p + [EQUALS] + q + [DQUOTE] + CharsText(cs) + rest == p + d;
    DropsOws(p, d);
    assert d[1..] == q + e;
    DropsOws(q, e);
    assert e[1..] == CharsText(cs) + rest;
    DropsQuoted(cs, rest);
  }

  /** Reading a rendered value leaves what follows it, up to whitespace. */
  lemma ReadValueComplete(v: ExtValue, rest: bytes)
    requires ValidValue(v) && ExtensionsOk(rest)
    requires rest == [] || !IsToken(rest[0])
    ensures var c := ValueText(v) + rest;
            && (c == [] || !IsToken(c[0]))
            && ReadValue(c) == Some(if v.NoValue? then DropOws(rest) else rest)
  {
    match v
    case NoValue =>
      assert ValueText(v) + rest == rest;
      SkipLead(rest);
    case TokenValue(p, q, t) =>
      ReadTokenValue(p, q, t, rest);
    case QuotedValue(p, q, cs) =>
      ReadQuotedValue(p, q, cs, rest);
  }

  /** Reading a rendered extension reads its value part. */
  lemma ReadExtComplete(x: Ext, c: bytes)
    requires ValidExt(x) && (c == [] || !IsToken(c[0]))
    ensures ReadExt(x.lead + [SEMICOLON] + x.gap + x.name + c) == ReadValue(c)
  {
    var b := x.name + c;
    var a := [SEMICOLON] + (x.gap + b);
    assert x.lead + [SEMICOLON] + x.gap + x.name + c == x.lead + a;
    DropsOws(x.lead, a);
    assert a[1..] == x.gap + b;
    assert b[0] == x.name[0];
    DropsOws(x.gap, b);
    DropsToken(x.name, c);
  }

  lemma {:induction false} ExtensionsComplete(xs: seq<Ext>)
    requires ValidExts(xs)
    ensures ExtensionsOk(ExtsText(xs))
  {
    if xs == [] {
    } else {
      var x, rest := xs[0], ExtsText(xs[1..]);
      ExtensionsComplete(xs[1..]);
      ExtsStart(xs[1..]);
      ReadValueComplete(x.value, rest);
      var c := ValueText(x.value) + rest;
      ReadExtComplete(x, c);
      assert ExtsText(xs) == x.lead + [SEMICOLON] + x.gap + x.name + c;
      SkipLead(rest);
    }
  }

  /** The bytes up to a value, then the value's own text. */
  lemma ValueSplit(c: bytes) returns (p: bytes, q: bytes)
    requires DropOws(c) != [] && DropOws(c)[0] == EQUALS
    ensures AllOws(p) && AllOws(q)
    ensures c == (p + [EQUALS] + q) + DropOws(DropOws(c)[1..])
  {
    var d := DropOws(c);
    p := OwsSplit(c);
    q := OwsSplit(d[1..]);
    assert d == [EQUALS] + d[1..];
    Regroup([EQUALS], q, DropOws(d[1..]));
    Regroup(p, [EQUALS] + q, DropOws(d[1..]));
    Regroup(p, [EQUALS], q);
  }

  /** A value the reader accepts has a derivation. */
  lemma ReadValueSound(c: bytes) returns (v: ExtValue)
    requires ReadValue(c).Some?
    ensures ValidValue(v)
    ensures if v.NoValue? then ReadValue(c).value == DropOws(c) else c == ValueText(v) + ReadValue(c).value
    ensures v.NoValue? && c != [] ==> DropOws(c) != []
  {
    var d := DropOws(c);
    v := NoValue;
    if d != [] && d[0] == EQUALS {
      var p, q := ValueSplit(c);
      var k, e := p + [EQUALS] + q, DropOws(d[1..]);
      if e != [] && e[0] == DQUOTE {
        var cs := QuotedSplit(e[1..]);
        v := QuotedValue(p, q, cs);
        assert e == [DQUOTE] + e[1..];
        Regroup([DQUOTE], CharsText(cs), ReadValue(c).value);
        Regroup(k, [DQUOTE], CharsText(cs));
        Regroup(k, [DQUOTE] + CharsText(cs), ReadValue(c).value);
      } else {
        var t := TokenSplit(e);
        v := TokenValue(p, q, t);
        Regroup(k, t, ReadValue(c).value);
      }
    }
  }

  ghost function Consed(x: Ext, xs: seq<Ext>): (r: seq<Ext>)
    ensures ExtsText(r) == ExtText(x) + ExtsText(xs)
    ensures ValidExt(x) && ValidExts(xs) ==> ValidExts(r)
  {
    assert ([x] + xs)[1..] == xs;
    [x] + xs
  }

  /** Prepending whitespace to an extension list stays in the grammar. */
  lemma PadLead(ws: bytes, xs: seq<Ext>) returns (ys: seq<Ext>)
    requires AllOws(ws) && ValidExts(xs)
    requires xs == [] ==> ws == []
    ensures ValidExts(ys) && ExtsText(ys) == ws + ExtsText(xs)
  {
    ys := xs;
    if xs != [] {
      var y := xs[0].(lead := ws + xs[0].lead);
      assert ExtText(y) == ws + ExtText(xs[0]);
      ys := Consed(y, xs[1..]);
    }
  }

  /** The bytes of one extension up to and including its name. */
  lemma NameSplit(s: bytes) returns (x: Ext)
    requires ReadExt(s).Some?
    ensures ValidExt(x) && x.value == NoValue
    ensures s == (x.lead + [SEMICOLON] + x.gap + x.name) + DropToken(DropOws(DropOws(s)[1..]))
  {
    var a := DropOws(s);
    var b := DropOws(a[1..]);
    var lead := OwsSplit(s);
    var gap := OwsSplit(a[1..]);
    var name := TokenSplit(b);
    x := Ext(lead, gap, name, NoValue);
    assert a == [SEMICOLON] + a[1..];
    Regroup([SEMICOLON], gap, b);
    Regroup(lead, [SEMICOLON] + gap, b);
    Regroup(lead, [SEMICOLON], gap);
    Regroup(lead + [SEMICOLON] + gap, name, DropToken(b));
  }

  /** A value and the extensions after it render the whole tail. */
  lemma TailSound(c: bytes, rest: seq<Ext>) returns (v: ExtValue, ys: seq<Ext>)
    requires ReadValue(c).Some? && ValidExts(rest) && ExtsText(rest) == ReadValue(c).value
    ensures ValidValue(v) && ValidExts(ys) && c == ValueText(v) + ExtsText(ys)
  {
    v := ReadValueSound(c);
    ys := rest;
    if v.NoValue? {
      var ws := OwsSplit(c);
      ExtsStart(rest);
      ys := PadLead(ws, rest);
      assert ValueText(v) + ExtsText(ys) == ExtsText(ys);
    }
  }

  lemma {:induction false} ExtensionsSound(s: bytes) returns (xs: seq<Ext>)
    requires ExtensionsOk(s)
    ensures ValidExts(xs) && ExtsText(xs) == s
    decreases |s|
  {
    if s == [] {
      return [];
    }
    var x := NameSplit(s);
    var c := DropToken(DropOws(DropOws(s)[1..]));
    assert ReadExt(s) == ReadValue(c);
    var rest := ExtensionsSound(ReadExt(s).value);
    var v, ys := TailSound(c, rest);
    xs := Consed(x.(value := v), ys);
    Regroup(x.lead + [SEMICOLON] + x.gap + x.name, ValueText(v), ExtsText(ys));
  }

  lemma HeaderSound(line: bytes, v: nat)
    requires ChunkHeader(line) == Some(v)
    ensures InGrammar(line, v) && v < USIZE
  {
    var digits := HexLen(line);
    HexPrefix(line);
    ParseNumberIsExact(line[..digits], 16, v);
    var xs := ExtensionsSound(line[digits..]);
    assert line == line[..digits] + ExtsText(xs);
  }

  lemma HeaderComplete(ds: bytes, xs: seq<Ext>, v: nat)
    requires ds != [] && AllDigits(ds, 16) && NumberValue(ds, 16) == v && ValidExts(xs)
    ensures ChunkHeader(ds + ExtsText(xs)) == if v < USIZE then Some(v) else None
  {
    var line := ds + ExtsText(xs);
    ExtsStart(xs);
    HexStops(ds, ExtsText(xs));
    assert line[..|ds|] == ds && line[|ds|..] == ExtsText(xs);
    FoldIsExact(ds, 16);
    ExtensionsComplete(xs);
  }

  /**
   The parser accepts a line exactly when it matches the grammar and the
   unbounded size fits in 64 bits, and it returns that size.
   */
  lemma ChunkHeaderIsExact(line: bytes, v: nat)
    ensures ChunkHeader(line) == Some(v) <==> InGrammar(line, v) && v < USIZE
  {
    if ChunkHeader(line) == Some(v) {
      HeaderSound(line, v);
    }
    if InGrammar(line, v) && v < USIZE {
      var ds: bytes, xs: seq<Ext> :|
        line == ds + ExtsText(xs) && ds != [] && AllDigits(ds, 16) && NumberValue(ds, 16) == v && ValidExts(xs);
      HeaderComplete(ds, xs, v);
    }
  }

  // ------------------------------------------------------------------ printer

  function HexDigit(v: nat): byte
    requires v < 16
    ensures DigitValue(HexDigit(v), 16) == v
  {
    if v < 10 then 48 + v else 87 + v
  }

  function HexDigits(n: nat): (s: bytes)
    ensures s != [] && AllDigits(s, 16)
  {
    if n < 16 then [HexDigit(n)] else HexDigits(n / 16) + [HexDigit(n % 16)]
  }

  function Pow16(k: nat): (p: nat)
    ensures p >= 1
  {
    if k == 0 then 1 else 16 * Pow16(k - 1)
  }

  /** Significant bits: the word width less the leading zeros. */
  function BitLength(n: nat): nat {
    if n == 0 then 0 else 1 + BitLength(n / 2)
  }

  /** What is written reads back as the same number. */
  lemma {:induction false} HexDigitsValue(n: nat)
    ensures NumberValue(HexDigits(n), 16) == n
  {
    var s := HexDigits(n);
    if n >= 16 {
      HexDigitsValue(n / 16);
      assert s[..|s| - 1] == HexDigits(n / 16);
    } else {
      assert s[..|s| - 1] == [];
    }
  }

  lemma {:induction false} HexDigitsLength(n: nat)
    ensures |HexDigits(n)| == (if n == 0 then 1 else (BitLength(n) + 3) / 4)
    decreases n
  {
    if n >= 16 {
      HexDigitsLength(n / 16);
      assert BitLength(n) == 4 + BitLength(n / 16) by {
        assert n / 2 / 2 == n / 4 && n / 4 / 2 == n / 8 && n / 8 / 2 == n / 16;
        assert BitLength(n / 4) == 2 + BitLength(n / 16);
        assert BitLength(n) == 2 + BitLength(n / 4);
      }
    } else if n > 0 {
      assert BitLength(n) == 1 + BitLength(n / 2);
      assert n / 2 > 0 ==> BitLength(n / 2) == 1 + BitLength(n / 2 / 2);
      assert n / 2 / 2 > 0 ==> BitLength(n / 2 / 2) == 1 + BitLength(n / 2 / 2 / 2);
      assert BitLength(1) == 1 + BitLength(0);
      assert n / 2 / 2 / 2 <= 1;
    }
  }

  lemma DivUnique(n: nat, d: nat, a: nat, r: nat)
    requires r < d && n == d * a + r
    ensures n / d == a
  {
    var q := n / d;
    assert n == d * q + n % d;
    assert q >= a + 1 ==> d * q >= d * (a + 1);
    assert a >= q + 1 ==> d * a >= d * (q + 1);
  }

  lemma DivDiv(n: nat, p: nat)
    requires p >= 1
    ensures n / (16 * p) == n / 16 / p
  {
    var q, r := n / 16, n % 16;
    var a, b := q / p, q % p;
    assert n == 16 * (a * p + b) + r == (16 * p) * a + (16 * b + r);
    assert 0 <= 16 * b + r < 16 * p;
    DivUnique(n, 16 * p, a, 16 * b + r);
  }

  /** Each printed digit is the nibble the shift selects. */
  lemma {:induction false} HexDigitsAt(n: nat, at: nat)
    requires at < |HexDigits(n)|
    ensures HexDigits(n)[at] == HexDigit(n / Pow16(|HexDigits(n)| - 1 - at) % 16)
    decreases n
  {
    var k := |HexDigits(n)| - 1 - at;
    if n >= 16 && k > 0 {
      HexDigitsAt(n / 16, at);
      assert HexDigits(n)[at] == HexDigits(n / 16)[at];
      DivDiv(n, Pow16(k - 1));
    } else {
      assert k == 0 && n / Pow16(0) == n;
    }
  }

  lemma {:induction false} HexDigitsBound(n: nat, k: nat)
    requires k >= 1 && n < Pow16(k)
    ensures |HexDigits(n)| <= k
    decreases k
  {
    if n >= 16 {
      assert Pow16(k) == 16 * Pow16(k - 1);
      HexDigitsBound(n / 16, k - 1);
    }
  }

  lemma Sixteen(n: nat)
    requires n < USIZE
    ensures |HexDigits(n)| <= 16
  {
    assert Pow16(4) == 0x1_0000;
    assert Pow16(8) == 0x1_0000_0000 by { assert Pow16(6) == 0x100_0000; }
    assert Pow16(12) == 0x1_0000_0000_0000 by { assert Pow16(10) == 0x100_0000_0000; }
    assert Pow16(16) == USIZE by { assert Pow16(14) == 0x100_0000_0000_0000; }
    HexDigitsBound(n, 16);
  }

  /** The chunk-size line `chunk_size` produces. */
  function SizeLine(length: nat): bytes {
    HexDigits(length) + CRLF
  }

  /** Fills the fixed 18-byte prefix and returns how much of it is used. */
  method ChunkSize(length: nat) returns (prefix: array<byte>, len: nat)
    requires length < USIZE
    ensures prefix.Length == 18 && len <= 18
    ensures prefix[..len] == SizeLine(length)
  {
    var digits := (BitLength(length) + 3) / 4;
    if digits < 1 {
      digits := 1;
    }
    HexDigitsLength(length);
    Sixteen(length);
    assert digits == |HexDigits(length)|;
    prefix := new byte[18](_ => 0);
    var at := 0;
    while at < digits
      invariant at <= digits
      invariant forall i :: 0 <= i < at ==> prefix[i] == HexDigits(length)[i]
    {
      HexDigitsAt(length, at);
      prefix[at] := HexDigit(length / Pow16(digits - 1 - at) % 16);
      at := at + 1;
    }
    prefix[digits], prefix[digits + 1] := CR, LF;
    len := digits + 2;
    assert prefix[..digits] == HexDigits(length);
    assert prefix[..len] == prefix[..digits] + [CR, LF];
  }

  /** A printed size line is a chunk header with no extension bytes. */
  lemma SizeLineParses(length: nat)
    requires length < USIZE
    ensures ChunkHeader(HexDigits(length)) == Some(length)
    ensures HexLen(HexDigits(length)) == |HexDigits(length)| <= 16
  {
    var ds := HexDigits(length);
    HexDigitsValue(length);
    Sixteen(length);
    HexStops(ds, []);
    assert ds + [] == ds && ds[..|ds|] == ds && ds[|ds|..] == [];
    ParseNumberIsExact(ds, 16, length);
  }
}
