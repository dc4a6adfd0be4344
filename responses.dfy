/**
 * Response shaping: the fixed responses of src/server.rs, the `From` impls,
 * `parse_to_json` and the wire format. `ReadReply` is a client's reading of
 * that wire format; it is the partner the serialisation is proved against.
 */
module Responses {
  import opened Results
  import opened Text

  const OK_STATUS := "HTTP/1.1 200 OK"
  const NOT_FOUND_STATUS := "HTTP/1.1 404 NOT FOUND"
  const SERVER_ERROR_STATUS := "HTTP/1.1 500 INTERNAL SERVER ERROR"

  const FRAME_UNAVAILABLE_TEXT := "Unable to get timecode. Make sure source is streaming and decoding has started."
  const SERVER_ERROR_TEXT := "Failed to parse request"
  const NOT_FOUND_TEXT := "Command not found"

  /** What follows the status line up to the Content-Length value. */
  const CRLF := "\r\n"
  const CONTENT_HEADERS := CRLF + "Content-Type: application/json\r\nContent-Length: "
  const HEAD_END := CRLF + CRLF

  datatype Response = Response(statusLine: string, content: string)

  function FrameUnavailable(): Response {
    Response(OK_STATUS, FRAME_UNAVAILABLE_TEXT)
  }

  function ServerErr(): Response {
    Response(SERVER_ERROR_STATUS, SERVER_ERROR_TEXT)
  }

  function NotFound(): Response {
    Response(NOT_FOUND_STATUS, NOT_FOUND_TEXT)
  }

  // ------------------------------------------------------- hexadecimal

  function LowerHexDigit(d: nat): char
    requires d < 16
  {
    if d < 10 then ('0' as int + d) as char else ('a' as int + d - 10) as char
  }

  /** Lower-case hexadecimal without leading zeros, as `\u{..}` escapes print it. */
  function Hex(n: nat): string
  {
    if n < 16 then [LowerHexDigit(n)] else Hex(n / 16) + [LowerHexDigit(n % 16)]
  }

  /** The value of one hexadecimal digit of either case. */
  function HexDigitValue(c: char): Option<nat>
  {
    if '0' <= c <= '9' then Some(c as int - '0' as int)
    else if 'a' <= c <= 'f' then Some(c as int - 'a' as int + 10)
    else if 'A' <= c <= 'F' then Some(c as int - 'A' as int + 10)
    else None
  }

  /** The value of the four hexadecimal digits of a `\uXXXX` JSON escape. */
  function HexQuad(h: string): (r: Option<nat>)
    requires |h| == 4
    ensures r.Some? ==> r.value < 0x10000
  {
    match (HexDigitValue(h[0]), HexDigitValue(h[1]), HexDigitValue(h[2]), HexDigitValue(h[3]))
    case (Some(a), Some(b), Some(c), Some(d)) =>
      if a < 16 && b < 16 && c < 16 && d < 16 then Some(((a * 16 + b) * 16 + c) * 16 + d) else None
    case _ => None
  }

  // -------------------------------------------- Rust `{:#?}` of a String

  /** Characters that `{:#?}` writes as they are (within ASCII). */
  predicate DebugPlain(c: char) {
    ' ' <= c && c != '"' && c != '\\' && c as int != 0x7F
  }

  /** `char::escape_debug` as string formatting applies it. */
  function DebugEscape(c: char): string
  {
    if c == '"' then "\\\""
    else if c == '\\' then "\\\\"
    else if c == '\n' then "\\n"
    else if c == '\r' then "\\r"
    else if c == '\t' then "\\t"
    else if c == '\0' then "\\0"
    else if c < ' ' || c as int == 0x7F then "\\u{" + Hex(c as int) + "}"
    else [c]
  }

  function DebugEscapeAll(s: string): string
  {
    if s == [] then [] else DebugEscape(s[0]) + DebugEscapeAll(s[1..])
  }

  /** The `{:#?}` rendering of a string: quoted and escaped. */
  function DebugQuote(s: string): string
  {
    "\"" + DebugEscapeAll(s) + "\""
  }

  lemma {:induction false} DebugEscapeAppend(a: string, b: string)
    ensures DebugEscapeAll(a + b) == DebugEscapeAll(a) + DebugEscapeAll(b)
  {
    if a == [] {
      assert a + b == b;
    } else {
      assert (a + b)[0] == a[0] && (a + b)[1..] == a[1..] + b;
      DebugEscapeAppend(a[1..], b);
    }
  }

  /** Text made of plain characters is rendered unchanged between the quotes. */
  lemma {:induction false} DebugEscapePlain(s: string)
    requires forall i :: 0 <= i < |s| ==> DebugPlain(s[i])
    ensures DebugEscapeAll(s) == s
  {
    if s != [] {
      DebugEscapePlain(s[1..]);
    }
  }

  /** The `{:#?}` rendering of `p + s` starts with a quote and `p` itself when `p` is plain. */
  lemma DebugQuotePrefix(p: string, s: string)
    requires forall i :: 0 <= i < |p| ==> DebugPlain(p[i])
    ensures |DebugQuote(p + s)| >= |p| + 2
    ensures DebugQuote(p + s)[..|p| + 1] == "\"" + p
  {
    DebugEscapeAppend(p, s);
    DebugEscapePlain(p);
    assert DebugQuote(p + s) == "\"" + p + (DebugEscapeAll(s) + "\"");
  }

  /** `From<String> for Response`: a 200 whose content is the Debug rendering of the text. */
  function FromText(value: string): Response
  {
    Response(OK_STATUS, DebugQuote(value))
  }

  // ------------------------------------------------- serde_json quoting

  const BACKSPACE: char := 8 as char
  const FORM_FEED: char := 12 as char

  /** How `serde_json` escapes one character inside a string literal. */
  function JsonEscape(c: char): string
  {
    if c == '"' then "\\\""
    else if c == '\\' then "\\\\"
    else if c == BACKSPACE then "\\b"
    else if c == FORM_FEED then "\\f"
    else if c == '\n' then "\\n"
    else if c == '\r' then "\\r"
    else if c == '\t' then "\\t"
    else if c < ' ' then "\\u00" + [LowerHexDigit(c as int / 16), LowerHexDigit(c as int % 16)]
    else [c]
  }

  function JsonEscapeAll(s: string): string
  {
    if s == [] then [] else JsonEscape(s[0]) + JsonEscapeAll(s[1..])
  }

  /** `serde_json::to_string` of a string: a JSON string literal. */
  function JsonQuote(s: string): string
  {
    "\"" + JsonEscapeAll(s) + "\""
  }

  /** `Response::parse_to_json`: the content becomes a JSON string literal. */
  function ParseToJson(r: Response): Response
  {
    Response(r.statusLine, JsonQuote(r.content))
  }

  /** `From<Response> for SerializedResponse`: the content goes out as it is, its UTF-8 length declared. */
  function Serialize(r: Response): string
  {
    r.statusLine + CONTENT_HEADERS + Decimal(|Utf8Encode(r.content)|) + HEAD_END + r.content
  }

  /** What the connection handler writes for a response. */
  function Wire(r: Response): string
  {
    Serialize(ParseToJson(r))
  }

  // --------------------------------------------- reading a reply back

  function Prepend(c: char, rest: Option<string>): Option<string>
  {
    match rest
    case None => None
    case Some(s) => Some([c] + s)
  }

  /** The character a two-character JSON escape `\x` stands for. */
  function ShortEscape(x: char): Option<char>
  {
    if x == '"' then Some('"')
    else if x == '\\' then Some('\\')
    else if x == '/' then Some('/')
    else if x == 'b' then Some(BACKSPACE)
    else if x == 'f' then Some(FORM_FEED)
    else if x == 'n' then Some('\n')
    else if x == 'r' then Some('\r')
    else if x == 't' then Some('\t')
    else None
  }

  /** The text of a JSON string literal whose opening quote is already consumed; the closing quote must end `t`. */
  function JsonUnescape(t: string): Option<string>
    decreases |t|
  {
    if t == [] then None
    else if t[0] == '"' then (if |t| == 1 then Some([]) else None)
    else if t[0] == '\\' then
      if |t| < 2 then None
      else if t[1] == 'u' then
        if |t| < 6 then None
        else match HexQuad(t[2..6])
          case None => None
          case Some(v) =>
            if v < 0xD800 || 0xE000 <= v then Prepend(v as char, JsonUnescape(t[6..])) else None
      else match ShortEscape(t[1])
        case None => None
        case Some(c) => Prepend(c, JsonUnescape(t[2..]))
    else if t[0] < ' ' then None
    else Prepend(t[0], JsonUnescape(t[1..]))
  }

  /** The text a JSON string literal stands for. */
  function JsonUnquote(t: string): Option<string>
  {
    if |t| >= 1 && t[0] == '"' then JsonUnescape(t[1..]) else None
  }

  /** The index of the first carriage return. */
  function IndexOfCr(w: string): (r: Option<nat>)
    ensures r.Some? ==> r.value < |w| && w[r.value] == '\r'
  {
    if w == [] then None
    else if w[0] == '\r' then Some(0)
    else match IndexOfCr(w[1..])
      case None => None
      case Some(i) => Some(i + 1)
  }

  /** The length of the run of ASCII digits at the start of `s`. */
  function LeadingDigits(s: string): (n: nat)
    ensures n <= |s| && AllDigits(Codes(s[..n]))
  {
    if s == [] || !IsAsciiDigit(s[0] as int) then 0
    else
      var n := 1 + LeadingDigits(s[1..]);
      assert s[..n] == [s[0]] + s[1..][..n - 1];
      n
  }

  /**
   * A client's reading of a reply: the status line up to the first CR, the two
   * fixed headers, then the Content-Length and the content (`ReadContent`).
   */
  function ReadReply(w: string): Option<Response>
  {
    match IndexOfCr(w)
    case None => None
    case Some(i) =>
      var rest := w[i..];
      if !(|rest| >= |CONTENT_HEADERS| && rest[..|CONTENT_HEADERS|] == CONTENT_HEADERS) then None
      else match ReadContent(rest[|CONTENT_HEADERS|..])
        case None => None
        case Some(content) => Some(Response(w[..i], content))
  }

  /**
   * What follows "Content-Length: ": a numeral that must equal the byte length
   * of what follows the head, the end of the head, and that remainder read as
   * a JSON string literal.
   */
  function ReadContent(after: string): Option<string>
  {
    var n := LeadingDigits(after);
    var tail := after[n..];
    if n == 0 || !(|tail| >= |HEAD_END| && tail[..|HEAD_END|] == HEAD_END) then None
    else
      var body := tail[|HEAD_END|..];
      if DigitsValue(Codes(after[..n])) != |Utf8Encode(body)| then None
      else JsonUnquote(body)
  }

  // ---------------------------------------------------- round trips

  /** Unescaping undoes the escape of one character, whatever follows it. */
  lemma UnescapeEscapedChar(c: char, t: string)
    ensures JsonUnescape(JsonEscape(c) + t) == Prepend(c, JsonUnescape(t))
  {
    var e := JsonEscape(c) + t;
    if c == '"' || c == '\\' || c == BACKSPACE || c == FORM_FEED || c == '\n' || c == '\r' || c == '\t' {
      assert e[0] == '\\' && e[2..] == t;
    } else if c < ' ' {
      var hi, lo := c as int / 16, c as int % 16;
      assert e[0] == '\\' && e[1] == 'u';
      assert e[2..6] == ['0', '0', LowerHexDigit(hi), LowerHexDigit(lo)];
      assert HexQuad(e[2..6]) == Some(c as int);
      assert e[6..] == t;
    } else {
      assert e[0] == c && e[1..] == t;
    }
  }

  lemma {:induction false} UnescapeEscaped(s: string)
    ensures JsonUnescape(JsonEscapeAll(s) + "\"") == Some(s)
  {
    if s != [] {
      UnescapeEscaped(s[1..]);
      assert JsonEscapeAll(s) + "\"" == JsonEscape(s[0]) + (JsonEscapeAll(s[1..]) + "\"");
      UnescapeEscapedChar(s[0], JsonEscapeAll(s[1..]) + "\"");
      assert [s[0]] + s[1..] == s;
    }
  }

  /** JSON quoting is lossless for every string, quotes and backslashes included. */
  lemma JsonRoundTrip(s: string)
    ensures JsonUnquote(JsonQuote(s)) == Some(s)
  {
    UnescapeEscaped(s);
    assert JsonQuote(s)[1..] == JsonEscapeAll(s) + "\"";
  }

  lemma {:induction false} IndexOfCrAfter(a: string, b: string)
    requires '\r' !in a && |b| > 0 && b[0] == '\r'
    ensures IndexOfCr(a + b) == Some(|a|)
  {
    if a != [] {
      assert (a + b)[1..] == a[1..] + b;
      IndexOfCrAfter(a[1..], b);
    }
  }

  lemma {:induction false} LeadingDigitsOf(d: string, t: string)
    requires AllDigits(Codes(d)) && |t| > 0 && !IsAsciiDigit(t[0] as int)
    ensures LeadingDigits(d + t) == |d|
  {
    if d != [] {
      assert (d + t)[1..] == d[1..] + t;
      assert Codes(d)[0] == d[0] as int;
      assert forall i :: 0 <= i < |d| - 1 ==> Codes(d[1..])[i] == Codes(d)[i + 1];
      LeadingDigitsOf(d[1..], t);
    }
  }

  /** How a reader takes apart a numeral, the end of the head and a body. */
  lemma ReadContentOf(d: string, body: string)
    requires |d| > 0 && AllDigits(Codes(d))
    ensures ReadContent(d + HEAD_END + body) ==
      if DigitsValue(Codes(d)) != |Utf8Encode(body)| then None else JsonUnquote(body)
  {
    var after := d + HEAD_END + body;
    assert after == d + (HEAD_END + body);
    assert (HEAD_END + body)[0] == CRLF[0];
    LeadingDigitsOf(d, HEAD_END + body);
    assert after[..|d|] == d;
    var tail := after[|d|..];
    assert tail == HEAD_END + body;
    assert tail[..|HEAD_END|] == HEAD_END;
    assert tail[|HEAD_END|..] == body;
  }

  /** How a reader splits a reply assembled from a status line without CR, a numeral and a body. */
  lemma ReadAssembledReply(status: string, d: string, body: string)
    requires '\r' !in status && |d| > 0 && AllDigits(Codes(d))
    ensures ReadReply(status + CONTENT_HEADERS + d + HEAD_END + body) ==
      if DigitsValue(Codes(d)) != |Utf8Encode(body)| then None
      else match JsonUnquote(body)
        case None => None
        case Some(content) => Some(Response(status, content))
  {
    var w := status + CONTENT_HEADERS + d + HEAD_END + body;
    var tailPart := d + HEAD_END + body;
    assert w == status + (CONTENT_HEADERS + tailPart);
    assert (CONTENT_HEADERS + tailPart)[0] == CRLF[0] == '\r';
    IndexOfCrAfter(status, CONTENT_HEADERS + tailPart);
    var i := |status|;
    assert w[..i] == status;
    var rest := w[i..];
    assert rest == CONTENT_HEADERS + tailPart;
    assert rest[..|CONTENT_HEADERS|] == CONTENT_HEADERS;
    assert rest[|CONTENT_HEADERS|..] == tailPart;
    ReadContentOf(d, body);
  }

  /**
   * What the handler writes is read back as the response it was given: the
   * status line, and the content exactly, with the declared Content-Length
   * equal to the bytes that follow the head.
   */
  lemma WireRoundTrip(r: Response)
    requires '\r' !in r.statusLine
    ensures ReadReply(Wire(r)) == Some(r)
  {
    var q := JsonQuote(r.content);
    var d := Decimal(|Utf8Encode(q)|);
    assert Wire(r) == r.statusLine + CONTENT_HEADERS + d + HEAD_END + q;
    ReadAssembledReply(r.statusLine, d, q);
    DecimalValue(|Utf8Encode(q)|);
    JsonRoundTrip(r.content);
  }

  /** The three fixed responses reach the client intact. */
  lemma FixedRepliesRoundTrip()
    ensures ReadReply(Wire(NotFound())) == Some(NotFound())
    ensures ReadReply(Wire(ServerErr())) == Some(ServerErr())
    ensures ReadReply(Wire(FrameUnavailable())) == Some(FrameUnavailable())
  {
    StatusLinesHaveNoCr();
    WireRoundTrip(NotFound());
    WireRoundTrip(ServerErr());
    WireRoundTrip(FrameUnavailable());
  }

  lemma StatusLinesHaveNoCr()
    ensures '\r' !in OK_STATUS && '\r' !in NOT_FOUND_STATUS && '\r' !in SERVER_ERROR_STATUS
  {
    assert forall i :: 0 <= i < |OK_STATUS| ==> OK_STATUS[i] != '\r';
    assert forall i :: 0 <= i < |NOT_FOUND_STATUS| ==> NOT_FOUND_STATUS[i] != '\r';
    assert forall i :: 0 <= i < |SERVER_ERROR_STATUS| ==> SERVER_ERROR_STATUS[i] != '\r';
  }
}
