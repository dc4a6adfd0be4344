/**
 * Request decoding (`Request::new` and `Request::body` in src/server.rs).
 * The `httparse` parser is outside the model: its outcome arrives as a
 * `ParsedHead`, and the JSON decoder of the body arrives as a function.
 */
module Requests {
  import opened Results
  import opened Text

  /** The number of header slots handed to the parser by the connection handler. */
  const HEADER_SLOTS: nat := 16

  /** The largest `usize` on the 64-bit targets the server is built for. */
  const USIZE_MAX: nat := 0xFFFF_FFFF_FFFF_FFFF

  const CONTENT_LENGTH := "content-length"

  /** One parsed header: a token name and the raw bytes of its value. */
  datatype Header = Header(name: string, value: seq<byte>)

  /** What the header parser reports about the request head. */
  datatype ParseStatus =
    | Complete(headLength: nat)   // the head ends at this byte offset
    | Partial                     // the head did not finish within the buffer / header slots
    | Malformed(reason: string)   // the request line or a header is invalid

  /** The parser's outcome: its status and whatever it filled in. */
  datatype ParsedHead = ParsedHead(
    status: ParseStatus,
    verb: Option<string>,   // the request method
    path: Option<string>,
    headers: seq<Header>)

  datatype Request = Request(
    headers: seq<Header>,
    verb: Option<string>,   // the request method
    path: Option<string>,
    headerOffset: nat,
    buffer: seq<byte>)

  datatype AVChannels = Audio | Video | Both

  /** The JSON payload of every command. */
  datatype EditRequestData = EditRequestData(editType: string, sourceTape: string, avChannel: AVChannels)

  datatype BodyError =
    | MissingLength      // no Content-Length header
    | LengthNotUtf8      // its value is not UTF-8
    | LengthNotNumber    // its value is not a usize numeral
    | BodyOutOfRange     // the declared body runs past the buffer
    | BodyNotUtf8
    | InvalidJson

  /**
   * `Request::new`: the body starts where the parsed head ends; a partial parse
   * falls back to the number of header slots; a malformed head is an error.
   */
  function NewRequest(head: ParsedHead, buffer: seq<byte>, slots: nat): (r: Result<Request, string>)
    ensures r.Err? <==> head.status.Malformed?
    ensures r.Ok? ==> r.value.headerOffset == if head.status.Complete? then head.status.headLength else slots
    ensures r.Ok? ==>
      r.value.verb == head.verb && r.value.path == head.path &&
      r.value.headers == head.headers && r.value.buffer == buffer
  {
    match head.status
    case Complete(n) => Ok(Request(head.headers, head.verb, head.path, n, buffer))
    case Partial => Ok(Request(head.headers, head.verb, head.path, slots, buffer))
    case Malformed(reason) => Err("Could not parse header length: " + reason)
  }

  /** Header names are case-insensitive (section 5.1 of RFC 9110). */
  predicate NamesContentLength(name: string) {
    Lower(name) == CONTENT_LENGTH
  }

  /** The index of the first Content-Length header, as the iterator `find` returns it. */
  function FindContentLength(headers: seq<Header>): (r: Option<nat>)
    ensures r.Some? ==> r.value < |headers| && NamesContentLength(headers[r.value].name)
    ensures r.Some? ==> forall j :: 0 <= j < r.value ==> !NamesContentLength(headers[j].name)
    ensures r.None? ==> forall j :: 0 <= j < |headers| ==> !NamesContentLength(headers[j].name)
  {
    if headers == [] then None
    else if NamesContentLength(headers[0].name) then Some(0)
    else match FindContentLength(headers[1..])
      case None => None
      case Some(i) => Some(i + 1)
  }

  /** The digits of a numeral: a single leading '+' is dropped. */
  function Unsigned(s: seq<byte>): (u: seq<byte>)
    ensures |s| > 0 && s[0] == '+' as int ==> u == s[1..]
    ensures (|s| == 0 || s[0] != '+' as int) ==> u == s
  {
    if |s| > 0 && s[0] == '+' as int then s[1..] else s
  }

  /**
   * `str::parse::<usize>`: an optional leading '+' then one or more ASCII
   * digits, whose value must fit a usize.
   */
  function ParseUsize(s: seq<byte>): (r: Option<nat>)
    ensures r.Some? ==> r.value <= USIZE_MAX
    ensures r.Some? ==>
      |Unsigned(s)| >= 1 && AllDigits(Unsigned(s)) && r.value == DigitsValue(Unsigned(s))
  {
    if |s| == 0 then None
    else if (s[0] == '+' as int || s[0] == '-' as int) && |s| == 1 then None
    else
      var digits := Unsigned(s);
      if AllDigits(digits) && DigitsValue(digits) <= USIZE_MAX then Some(DigitsValue(digits))
      else None
  }

  /**
   * What is accepted is an optional '+', some zeros, and the numeral `Decimal`
   * writes for the value read.
   */
  lemma ParsedSpells(s: seq<byte>)
    requires ParseUsize(s).Some?
    ensures NumeralOf(Unsigned(s), ParseUsize(s).value)
  {
    DigitsSpellValue(Unsigned(s));
  }

  /** A '+' sign, or none. */
  function Sign(plus: bool): (s: seq<byte>)
    ensures |s| <= 1
  {
    if plus then ['+' as int] else []
  }

  /**
   * Every numeral is read as the number it spells, whatever its sign and
   * leading zeros, exactly when that number fits a usize; the numeral the
   * response side writes for a length is among them.
   */
  lemma ParseNumeral(plus: bool, zeros: nat, n: nat)
    ensures ParseUsize(Sign(plus) + Zeros(zeros) + Utf8Encode(Decimal(n)))
            == if n <= USIZE_MAX then Some(n) else None
  {
    var code := Utf8Encode(Decimal(n));
    EncodeDigits(Decimal(n));
    DecimalValue(n);
    var digits := Zeros(zeros) + code;
    LeadingZerosValue(zeros, code);
    assert IsAsciiDigit(digits[0]);
    var s := Sign(plus) + digits;
    assert s == Sign(plus) + Zeros(zeros) + code;
    assert Unsigned(s) == digits;
  }

  /** A numeral is ASCII, so a length that parses never fails the UTF-8 check before it. */
  lemma NumeralIsUtf8(s: seq<byte>)
    requires ParseUsize(s).Some?
    ensures IsUtf8(s)
  {
    AsciiIsUtf8(s);
  }

  /**
   * `Request::body`: the Content-Length of the first matching header gives the
   * body length; the body is that many bytes from the header offset, and is
   * handed to the JSON decoder. Every failure on the way is its own error.
   */
  function Body(req: Request, decode: seq<byte> -> Option<EditRequestData>): (r: Result<EditRequestData, BodyError>)
    ensures FindContentLength(req.headers).None? <==> r == Err(MissingLength)
    ensures FindContentLength(req.headers).Some? ==>
      var value := req.headers[FindContentLength(req.headers).value].value;
      && (r == Err(LengthNotUtf8) <==> !IsUtf8(value))
      && (r == Err(LengthNotNumber) <==> IsUtf8(value) && ParseUsize(value).None?)
      && (IsUtf8(value) && ParseUsize(value).Some? ==>
            var start, end := req.headerOffset, req.headerOffset + ParseUsize(value).value;
            && (r == Err(BodyOutOfRange) <==> end > |req.buffer|)
            && (end <= |req.buffer| ==>
                  var body := req.buffer[start..end];
                  && (r == Err(BodyNotUtf8) <==> !IsUtf8(body))
                  && (r == Err(InvalidJson) <==> IsUtf8(body) && decode(body).None?)
                  && (IsUtf8(body) && decode(body).Some? ==> r == Ok(decode(body).value))))
    ensures r.Ok? ==>
      var value := req.headers[FindContentLength(req.headers).value].value;
      ParseUsize(value).Some? &&
      var len := ParseUsize(value).value;
      req.headerOffset + len <= |req.buffer|
      && IsUtf8(req.buffer[req.headerOffset .. req.headerOffset + len])
      && decode(req.buffer[req.headerOffset .. req.headerOffset + len]) == Some(r.value)
  {
    match FindContentLength(req.headers)
    case None => Err(MissingLength)
    case Some(i) =>
      var value := req.headers[i].value;
      if !IsUtf8(value) then Err(LengthNotUtf8)
      else match ParseUsize(value)
        case None => Err(LengthNotNumber)
        case Some(len) =>
          if req.headerOffset + len > |req.buffer| then Err(BodyOutOfRange)
          else
            var body := req.buffer[req.headerOffset .. req.headerOffset + len];
            if !IsUtf8(body) then Err(BodyNotUtf8)
            else match decode(body)
              case None => Err(InvalidJson)
              case Some(data) => Ok(data)
  }
}
