/** Message heads, their serialization, and the parsers the engine is given. */
module Messages {
  import opened States
  import opened Bytes
  import opened Fields

  datatype Request = Request(verb: bytes, target: bytes, headers: Headers, version: Version)

  /** A three-digit status of one of the five classes. */
  type Status = n: nat | 100 <= n <= 599 witness 200

  datatype Response = Response(status: Status, reason: bytes, headers: Headers, version: Version) {
    predicate Informational() {
      status < 200
    }

    predicate Success() {
      200 <= status < 300
    }
  }

  // "HEAD", "CONNECT", "TRACE", "POST", "PUT", "PATCH"
  const HEAD: bytes := [72, 69, 65, 68]
  const CONNECT: bytes := [67, 79, 78, 78, 69, 67, 84]
  const TRACE: bytes := [84, 82, 65, 67, 69]
  const POST: bytes := [80, 79, 83, 84]
  const PUT: bytes := [80, 85, 84]
  const PATCH: bytes := [80, 65, 84, 67, 72]

  // ------------------------------------------------------------ given parsers

  datatype Parse<+T> = Rejected(status: Option<nat>) | Partial | Complete(end: nat, value: T)

  /** A parsed response, and whether the parser skipped one of its lines. */
  datatype Head = Head(response: Response, dropped: bool)

  /** The head and trailer parsers promise only to consume at least one given byte. */
  type RequestParser = f: (bytes, nat) -> Parse<Request> |
      forall data, max :: f(data, max).Complete? ==> 1 <= f(data, max).end <= |data|
    witness (data: bytes, max: nat) => Parse<Request>.Partial

  type ResponseParser = f: (bytes, nat, bool) -> Parse<Head> |
      forall data, max, lenient :: f(data, max, lenient).Complete? ==> 1 <= f(data, max, lenient).end <= |data|
    witness (data: bytes, max: nat, lenient: bool) => Parse<Head>.Partial

  type TrailerParser = f: (bytes, nat, bool) -> Parse<Headers> |
      forall data, max, fold :: f(data, max, fold).Complete? ==> 1 <= f(data, max, fold).end <= |data|
    witness (data: bytes, max: nat, fold: bool) => Parse<Headers>.Partial

  /** Everything the engine takes from code outside this model. */
  datatype Env = Env(
    validTarget: (bytes, bytes) -> bool,
    validHost: bytes -> bool,
    parseRequest: RequestParser,
    parseResponse: ResponseParser,
    parseTrailers: TrailerParser)

  // ------------------------------------------------------------ serialization

  const COLON_SPACE: bytes := [COLON, SP]
  const SLASH_ONE: bytes := [SP, 72, 84, 84, 80, SLASH]
  const HTTP_SLASH: bytes := [72, 84, 84, 80, SLASH]

  function VersionText(version: Version): bytes {
    if version == Http10 then [49, 46, 48] else [49, 46, 49]
  }

  function FieldText(f: Field): bytes {
    f.name + COLON_SPACE + f.value + CRLF
  }

  function HeadersText(h: Headers): bytes {
    if h == [] then [] else HeadersText(h[..|h| - 1]) + FieldText(h[|h| - 1])
  }

  /** The field at `at` first, the others in order. */
  function HostFirst(h: Headers, at: nat): Headers {
    if at < |h| then [h[at]] + h[..at] + h[at + 1..] else h
  }

  function RequestText(r: Request, hostAt: nat): bytes {
    r.verb + [SP] + r.target + SLASH_ONE + VersionText(r.version) + CRLF
    + HeadersText(HostFirst(r.headers, hostAt)) + CRLF
  }

  function StatusDigits(status: nat): bytes {
    [48 + status / 100 % 10, 48 + status / 10 % 10, 48 + status % 10]
  }

  function ResponseText(r: Response): bytes {
    HTTP_SLASH + VersionText(r.version) + [SP] + StatusDigits(r.status) + [SP] + r.reason + CRLF
    + HeadersText(r.headers) + CRLF
  }

  /** A trailer section, through its terminating empty line. */
  function TrailersText(h: Headers): bytes {
    HeadersText(h) + CRLF
  }

  function Decimal(n: nat): bytes {
    if n < 10 then [48 + n] else Decimal(n / 10) + [48 + n % 10]
  }
}
