# edl-server request core in Dafny

A model of the control plane of edl-server, a tape-logging tool. It takes short
HTTP/1.1 commands and uses them to drive an LTC timecode decoder, a cut log and
an Edit Decision List (EDL) writer. The model covers the request-handling core
of `src/server.rs`:

- **Request decoding** (`requests.dfy`, module `Requests`). `Request::new` works
  out the body offset from the header parser's status. `Request::body` finds the
  first `Content-Length` header, matching the name without regard to case
  (section 5.1 of RFC 9110). It reads the value as a `usize` (section 8.6 of
  RFC 9110), slices the body and hands it to the JSON decoder.
- **Routing and edit coordination** (`router.dfy`, module `Router`). A
  `Context` class holds the decode flag, the channel from the decoding thread,
  the cut log and the edits written. Its methods `Route`, `WaitForFirstFrame`,
  `TryLogEdit` and `ParseEditFromLog` change that state step by step, as the
  source does. `PairWith` and `LogEditOutcome` are value-level statements of
  what one pairing attempt does; the methods are proved against them, and the
  lemmas about them state the pairing discipline.
- **Response shaping** (`responses.dfy`, module `Responses`). This covers the
  three fixed responses, `From<String>` (the `{:#?}` rendering), `parse_to_json`
  (serde_json string quoting) and the wire format with its `Content-Length`.
  `ReadReply` is a client's reading of that wire format. It is the partner the
  serialisation is proved against: what the server writes reads back as the
  response it meant (`WireRoundTrip`).
- `text.dfy` (module `Text`) holds UTF-8 encoding and validity, ASCII case
  folding and decimal numerals. `results.dfy` holds `Option` and `Result`.

Behaviour of the code that is easy to misread, and that the model follows:

- A request head the parser rejects makes `handle_connection` return before
  anything is written, so the client gets no reply, not a 500 (`Serve` returns
  `None`).
- The `/start` reply is `Started decoding. "timecode logged: …"`, with a quote.
  `From<String>` wraps the inner text in its `{:#?}` rendering
  (`StartedReplyBegins`).
- `/stop` with no frame available answers `Stopped decoding with ` followed by
  the fixed "Unable to get timecode…" text, not that text alone.
- After a successful push the `pop` in `parse_edit_from_log` always finds a cut.
  It is the `front` that fails, when the log was empty before the push. That
  pop has then taken back the cut just pushed, so the log stays empty.

## Model

| member | source | states |
|---|---|---|
| `Requests.NewRequest` | src/server.rs:97-113 | a complete parse puts the body at the parsed head length; a partial parse falls back to the header-slot count; a malformed head is an error; method, path, headers and buffer are carried over |
| `Requests.FindContentLength` | src/server.rs:141-145 | the result is the first header whose lower-cased name is `content-length`; none is found exactly when no header matches |
| `Requests.ParseUsize` | src/server.rs:150-154 | an accepted value is at most the largest usize; what follows an optional single `+` is one or more ASCII digits, and the value is their positional decimal value |
| `Requests.ParsedSpells` | src/server.rs:150-154 | every accepted text is an optional `+`, then zeros, then the numeral `Decimal` writes for the value read |
| `Requests.ParseNumeral` | src/server.rs:150-154 | conversely, an optional `+`, any number of zeros and the numeral of `n` read back as `n` exactly when `n` fits a usize, and are rejected otherwise; the numeral written for any usize length is among them |
| `Text.DigitsSpellValue` | src/server.rs:150-154 | every non-empty digit string is zeros followed by the canonical numeral of its value |
| `Text.SpelledValue` | src/server.rs:150-154 | conversely, zeros followed by the canonical numeral of `n` are digits whose value is `n` |
| `Requests.NumeralIsUtf8` | src/server.rs:146-154 | a value that parses as a number is valid UTF-8, so the encoding check never rejects a good length |
| `Requests.Body` | src/server.rs:140-161 | each error occurs exactly when its check is the first to fail: no Content-Length header; a value that is not UTF-8; a value that is not a usize numeral; a declared body that runs past the buffer; a body that is not UTF-8; a body the JSON decoder rejects. When every check passes, the result is what the decoder made of the declared number of bytes from the header offset |
| `Text.DecimalValue` | src/server.rs:216-222 | the `Content-Length` numeral reads back as the byte length it was written from |
| `Text.EncodedIsUtf8` | src/server.rs:216 | every string encodes to well-formed UTF-8, the bytes `len()` counts |
| `Responses.DebugQuote` | src/server.rs:199 | the `{:#?}` rendering of a string: a quote, each character escaped as `escape_debug` does within ASCII (`\"`, `\\`, `\n`, `\r`, `\t`, `\0`, `\u{hex}` for the other controls and DEL, everything else as it is), a quote; `DebugQuotePrefix` proves plain text passes through unchanged after the opening quote |
| `Responses.FromText` | src/server.rs:197-207 | exactly a `HTTP/1.1 200 OK` response whose content is `DebugQuote` of the text; `StartedReplyBegins` and `Router.Context.WaitForFirstFrame` state what this makes of the `/start` reply |
| `Responses.DebugQuotePrefix` | src/server.rs:197-206 | the `{:#?}` rendering of plain text followed by anything starts with a quote and that text unchanged |
| `Responses.JsonQuote` | src/server.rs:82 | `serde_json::to_string` of a string: a quote, each character escaped as serde_json does (`\"`, `\\`, `\b`, `\f`, `\n`, `\r`, `\t`, lower-case `\u00XX` for the other controls, everything else as it is), a quote; `JsonRoundTrip` proves the independent JSON reader gives back every string |
| `Responses.ParseToJson` | src/server.rs:80-84 | the status line is kept and the content replaced by its `JsonQuote`; it cannot fail, since quoting a string always succeeds; its losslessness is `JsonRoundTrip` |
| `Responses.JsonRoundTrip` | src/server.rs:80-84 | JSON quoting of the content is lossless: unquoting gives back every string, quotes and backslashes included |
| `Responses.Serialize` | src/server.rs:213-224 | exactly `status_line + CRLF + "Content-Type: application/json" + CRLF + "Content-Length: " + <UTF-8 byte count of the content, in decimal> + CRLF CRLF + content`; `WireRoundTrip` proves a client reads it back as the same response with a truthful Content-Length |
| `Responses.Wire` | src/server.rs:50-58 | the bytes `handle_connection` writes for a routed response: `Serialize` of `ParseToJson`; `WireRoundTrip` proves they read back as that response |
| `Responses.WireRoundTrip` | src/server.rs:213-224 | the serialised reply reads back as the same status line and content; the declared Content-Length equals the UTF-8 byte count of the quoted content that follows the head |
| `Responses.FixedRepliesRoundTrip` | src/server.rs:227-247 | the not-found, server-error and frame-unavailable replies reach a client intact |
| `Responses.FrameUnavailable` | src/server.rs:227-233 | exactly a `HTTP/1.1 200 OK` response with the "Unable to get timecode. Make sure source is streaming and decoding has started." text; `FixedRepliesRoundTrip` proves it reaches a client intact |
| `Responses.ServerErr` | src/server.rs:235-240 | exactly a `HTTP/1.1 500 INTERNAL SERVER ERROR` response with the "Failed to parse request" text; `FixedRepliesRoundTrip` proves it reaches a client intact |
| `Responses.NotFound` | src/server.rs:242-247 | exactly a `HTTP/1.1 404 NOT FOUND` response with the "Command not found" text; `FixedRepliesRoundTrip` proves it reaches a client intact |
| `Router.CommandOf` | src/server.rs:115-137 | a command exactly for method `POST` with path `/start`, `/stop` or `/log`; every other method or path is none, which `Router.Context.Route` (through `Routed`) answers with `NotFound` and no change |
| `Router.PairWith` | src/server.rs:187-194 | push then pop then front: a log of n >= 1 cuts keeps n cuts, the new cut newest, and pairs (oldest, new cut); an empty log stays empty and pairs nothing |
| `Router.ConsecutiveCutsPair` | src/server.rs:187-194 | after a first cut, each later cut is paired with the one logged just before it, one pair per cut |
| `Router.EmptyLogNeverPairs` | src/server.rs:187-194 | from an empty log no sequence of cuts ever forms a pair |
| `Router.StartedReplyBegins` | src/server.rs:118-125 | the `/start` reply content begins `Started decoding. "timecode logged: ` |
| `Router.NoFrameChangesNothing` | src/server.rs:179-185 | no frame yet: the fixed 200 reply, with the cut log and the edits unchanged |
| `Router.LogEditBounds` | src/server.rs:179-194 | one pairing attempt appends at most one edit, keeps a log of at most one cut that short, answers 200 whenever it answers, and writes no edit when it fails |
| `Router.LogEditOutcome` | src/server.rs:179-194 | the value-level `try_log_edit`: no frame yet gives the fixed frame-unavailable reply with the log and EDL kept; another receive error fails with nothing logged; otherwise the log becomes `PairWith`'s, and a formed and written edit is appended and its confirmation answered. Its properties are `NoFrameChangesNothing`, `LogEditBounds` and, through `PairWith`, `ConsecutiveCutsPair` |
| `Router.Context.constructor` | src/server.rs:28-32 | the session starts with an empty cut log and no edits written |
| `Router.Context.DecodeOn` | src/server.rs:119 | decoding is on after a successful switch and unchanged after a failed one |
| `Router.Context.DecodeOff` | src/server.rs:128 | decoding is off after a successful switch and unchanged after a failed one |
| `Router.Context.RecvFrame` | src/server.rs:173 | the blocking receive takes the next channel item |
| `Router.Context.TryRecvFrame` | src/server.rs:188 | the non-blocking receive takes the next item; an empty channel is "no frame yet" |
| `Router.Context.PushCut` | src/server.rs:189-190 | a successful push makes the cut the newest; a failed one changes nothing |
| `Router.Context.PopCut` | src/server.rs:191 | pop removes and returns the oldest cut, or nothing from an empty log |
| `Router.Context.FrontCut` | src/server.rs:192 | the newest cut of the log, or none from an empty log; `Router.Context.ParseEditFromLog` pairs it with the popped oldest cut |
| `Router.Context.ClearCuts` | src/server.rs:120 | the cut log is emptied |
| `Router.Context.WriteEdit` | src/server.rs:181 | a written edit is appended to the EDL; a failed write appends nothing |
| `Router.Context.WaitForFirstFrame` | src/server.rs:172-177 | the next frame is logged as a cut with the payload's fields and its timecode reported; a receive or push failure fails and leaves the log alone |
| `Router.Context.ParseEditFromLog` | src/server.rs:187-194 | a receive failure is returned as it is and logs nothing; otherwise the log becomes `PairWith`'s and the edit is `from_cuts` of the pair; every later failure is not "no frame yet" |
| `Router.Context.TryLogEdit` | src/server.rs:179-185 | the new channel, cut log and EDL and the answer are exactly `LogEditOutcome` of the old ones |
| `Router.Context.Route` | src/server.rs:115-138 | (through `Routed`) non-commands give the 404 and change nothing; `/start` turns decoding on and empties the log even when the body is bad, then holds exactly the new cut; `/stop` leaves decoding off whatever follows; `/stop` and `/log` pair as `LogEditOutcome` says; the log stays at most one cut long and the EDL only grows by one edit |
| `Router.Context.Serve` | src/server.rs:46-63 | a rejected head gets no reply and changes nothing; otherwise the context changes exactly as routing the decoded request does (`Routed`), the bytes written are the serialised routing response, or the generic 500 when routing failed, and they read back as that response; every 500 carries only the generic text, never the internal error |

## Left out

- Socket I/O: `Server::listen`, the accept loop and `handle_connection`'s reads and writes are left out, and so is console output. `Serve` is the pipeline between the read and the write.
- The decoding thread and its channel: the channel is the queue `pending` of items, each a frame, "no value" or another error. How items get there over time is not modelled.
- Router.Context.RecvFrame: a blocking receive on an empty channel hangs the request. The model excludes it by a precondition. `Route` and `Serve` carry it only for a `/start` that gets as far as the receive (`ReachesReceive`: decoding switched on and the body read).
- `httparse`: its result comes in as a `ParsedHead` (status, method, path, headers). The header slice is taken as the parser leaves it, empty slots included.
- `serde_json::from_str` into the payload is the `decodeJson` collaborator. `serde_json::to_string` of a `String` cannot fail, so `ParseToJson` is total and the `?` after it in `handle_connection` never fires.
- `{:#?}` rendering: only the escapes for ASCII are modelled. Rust also writes `\u{…}` for non-ASCII characters that are not printable or that extend a grapheme; those characters are passed through unchanged here.
- The frame's timecode is carried as the text `{:#?}` renders for it. ltc_decode.rs is not part of this model.
- `CutLog`, `Edit::from_cuts`, `Edl::write_from_edit` and the decode switches are not part of this model. They appear only at the interface used here, as the `Collaborators` functions, each of which may fail. A failed push or write is taken to change nothing.
- `AVChannels`: edl.rs is not part of this model. Its variants are taken from the wire protocol (audio, video, both).
- The failures of push, pop, front and `from_cuts` inside `parse_edit_from_log` convert into `DecodeErr`. That conversion is not visible in server.rs. The model takes them to be errors other than "no value".
- Error messages: routing errors are logged and never sent, so the model's `Err` texts are its own. The `anyhow` context chains are not modelled.
- Router.Context.Route: the error results are stated only as failures; their message text is not pinned down, because it is only logged.
- Header-name case folding is ASCII-only, where Rust's `to_lowercase` is Unicode-wide. The parser admits only ASCII token characters in names, so the two agree on every name that reaches `body`.
- `usize` is taken to be 64 bits wide.
- Requests.Body: slicing past the buffer panics in the source (src/server.rs:157-159). So does the sum `body_start + body_length` when it overflows a usize. The model returns the explicit `BodyOutOfRange` error instead; its unbounded sum simply runs past the buffer.
- Router.Context.Serve: where the source panics in `body`, no reply is written and the server process stops. The model instead answers the generic 500, as for any other routing failure.
- The initial decode state is taken to be off. `LTCListener::listen` is not part of this model.
- `Server::new` (the address string) and `Opt` are configuration and are left out.
- `ReadReply` accepts `\uXXXX` escapes only outside the surrogate range, so surrogate pairs are not read. serde_json writes neither.
