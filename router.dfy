/**
 * The request router and edit coordinator of src/server.rs: `Request::route`
 * and `EditRequestData::{wait_for_first_frame, try_log_edit, parse_edit_from_log}`
 * acting on the session context, and the request pipeline of
 * `Server::handle_connection` without its socket I/O.
 *
 * The collaborators whose code is not part of this model (the decoding
 * thread's controls, `CutLog::push`, `Edit::from_cuts`, `Edl::write_from_edit`
 * and the JSON decoder of the body) are the fields of `Collaborators`; the
 * channel from the decoding thread is the queue `pending`.
 */
module Router {
  import opened Results
  import opened Text
  import opened Requests
  import opened Responses

  /** A decoded LTC frame; `timecode` is the text `{:#?}` renders for its timecode. */
  datatype Frame = Frame(timecode: string)

  /** One item waiting in the channel from the decoding thread. */
  datatype Received = Delivered(frame: Frame) | NoVal | Broken(reason: string)

  /** `DecodeErr`: "no frame yet" set apart from every other failure. */
  datatype DecodeErr = NoValue | Failed(reason: string)

  /** One logged cut point. */
  datatype CutRecord = CutRecord(frame: Frame, editType: string, sourceTape: string, avChannel: AVChannels)

  /** An edit as `Edit::from_cuts` builds it; `entry` stands for its contents. */
  datatype Edit = Edit(entry: string)

  /** The outcomes of the calls into code outside this model. */
  datatype Collaborators = Collaborators(
    switchSucceeds: bool -> bool,                          // decode_on (true) / decode_off (false)
    pushSucceeds: CutRecord -> bool,                       // CutLog::push
    fromCuts: (CutRecord, CutRecord) -> Result<Edit, string>,
    writeEdit: Edit -> Result<string, string>,             // the writer's confirmation text
    decodeJson: seq<byte> -> Option<EditRequestData>)      // serde_json::from_str

  /** The three collections a pairing attempt touches. */
  datatype Store = Store(pending: seq<Received>, cutLog: seq<CutRecord>, edl: seq<Edit>)

  datatype Command = Start | Stop | Log

  const START_PREFIX := "Started decoding. "
  const STOP_PREFIX := "Stopped decoding with "
  const LOGGED_PREFIX := "timecode logged: "
  const NO_VALUE_IN_LOG := "No value in cut_log"

  /** The commands `route` acts on: POST to one of three paths. */
  function CommandOf(verb: Option<string>, path: Option<string>): Option<Command>
  {
    if verb != Some("POST") then None
    else if path == Some("/start") then Some(Start)
    else if path == Some("/stop") then Some(Stop)
    else if path == Some("/log") then Some(Log)
    else None
  }

  /**
   * A `/start` that turns decoding on and reads its body goes on to wait,
   * blocking, for the first frame from the decoding thread.
   */
  predicate ReachesReceive(env: Collaborators, req: Request)
  {
    CommandOf(req.verb, req.path) == Some(Start) && env.switchSucceeds(true) && Body(req, env.decodeJson).Ok?
  }

  function CutFor(frame: Frame, data: EditRequestData): CutRecord
  {
    CutRecord(frame, data.editType, data.sourceTape, data.avChannel)
  }

  /** What a receive makes of one channel item. */
  function Take(item: Received): Result<Frame, DecodeErr>
  {
    match item
    case Delivered(frame) => Ok(frame)
    case NoVal => Err(NoValue)
    case Broken(reason) => Err(Failed(reason))
  }

  /** What the non-blocking receive yields: an empty channel has no frame yet. */
  function Next(pending: seq<Received>): Result<Frame, DecodeErr>
  {
    if pending == [] then Err(NoValue) else Take(pending[0])
  }

  /** The channel after the non-blocking receive. */
  function Rest(pending: seq<Received>): seq<Received>
  {
    if pending == [] then [] else pending[1..]
  }

  // ------------------------------------------------------------- pairing

  /** The cut log after `push`, `pop` and `front`, and the (popped, front) pair when both exist. */
  datatype Pairing = Pairing(log: seq<CutRecord>, pair: Option<(CutRecord, CutRecord)>)

  /**
   * Push the new cut as the newest, pop the oldest, peek the newest. A log that
   * held n >= 1 cuts holds n again, the new cut newest, and the pair is (oldest,
   * new cut); from an empty log the pop takes the new cut back and nothing pairs.
   */
  function PairWith(log: seq<CutRecord>, cut: CutRecord): (p: Pairing)
    ensures log == [] ==> p == Pairing([], None)
    ensures log != [] ==> |p.log| == |log| && p.log[|p.log| - 1] == cut && p.pair == Some((log[0], cut))
    ensures log != [] ==> p.log[..|p.log| - 1] == log[1..]
  {
    var pushed := log + [cut];
    var remaining := pushed[1..];
    Pairing(remaining, if remaining == [] then None else Some((pushed[0], remaining[|remaining| - 1])))
  }

  /** The pairs formed when `cuts` arrive one at a time at a log holding `log`. */
  function PairsOver(log: seq<CutRecord>, cuts: seq<CutRecord>): seq<(CutRecord, CutRecord)>
    decreases |cuts|
  {
    if cuts == [] then []
    else
      var p := PairWith(log, cuts[0]);
      (if p.pair.Some? then [p.pair.value] else []) + PairsOver(p.log, cuts[1..])
  }

  /**
   * Once `/start` has logged a first cut, every later cut is paired with the
   * one logged just before it: each cut closes one edit and opens the next.
   */
  lemma {:induction false} ConsecutiveCutsPair(first: CutRecord, cuts: seq<CutRecord>)
    ensures |PairsOver([first], cuts)| == |cuts|
    ensures forall i :: 0 <= i < |cuts| ==> PairsOver([first], cuts)[i] == (([first] + cuts)[i], cuts[i])
    decreases |cuts|
  {
    if cuts != [] {
      assert PairWith([first], cuts[0]) == Pairing([cuts[0]], Some((first, cuts[0])));
      ConsecutiveCutsPair(cuts[0], cuts[1..]);
      var rest := PairsOver([cuts[0]], cuts[1..]);
      assert PairsOver([first], cuts) == [(first, cuts[0])] + rest;
      forall i | 1 <= i < |cuts|
        ensures PairsOver([first], cuts)[i] == (([first] + cuts)[i], cuts[i])
      {
        assert rest[i - 1] == (([cuts[0]] + cuts[1..])[i - 1], cuts[1..][i - 1]);
        assert [cuts[0]] + cuts[1..] == cuts;
      }
    }
  }

  /** Without a `/start`, the log stays empty and no cut is ever paired. */
  lemma {:induction false} EmptyLogNeverPairs(cuts: seq<CutRecord>)
    ensures PairsOver([], cuts) == []
  {
    if cuts != [] {
      EmptyLogNeverPairs(cuts[1..]);
    }
  }

  /**
   * The `/start` reply reads `Started decoding. "timecode logged: ` and then
   * the timecode: the inner text passes through the `{:#?}` rendering of
   * `From<String>`, which opens a quote.
   */
  lemma StartedReplyBegins(frame: Frame)
    ensures var content := START_PREFIX + DebugQuote(LOGGED_PREFIX + frame.timecode);
      var opening := START_PREFIX + "\"" + LOGGED_PREFIX;
      |content| >= |opening| + 1 && content[..|opening|] == opening
  {
    assert forall i :: 0 <= i < |LOGGED_PREFIX| ==> DebugPlain(LOGGED_PREFIX[i]);
    DebugQuotePrefix(LOGGED_PREFIX, frame.timecode);
    var q := DebugQuote(LOGGED_PREFIX + frame.timecode);
    assert (START_PREFIX + q)[..|START_PREFIX| + |LOGGED_PREFIX| + 1] == START_PREFIX + q[..|LOGGED_PREFIX| + 1];
  }

  /** The answer of an operation that fails with a message: None when it fails. */
  function Reply(r: Result<Response, string>): Option<Response>
  {
    if r.Ok? then Some(r.value) else None
  }

  function Prefixed(prefix: string, reply: Option<Response>): Option<Response>
  {
    match reply
    case None => None
    case Some(resp) => Some(Response(resp.statusLine, prefix + resp.content))
  }

  /**
   * What `try_log_edit` leaves behind and answers (None when it fails), given
   * what it finds: the channel, the cut log and the edits written so far.
   */
  function LogEditOutcome(env: Collaborators, data: EditRequestData, s: Store): (Store, Option<Response>)
  {
    var pending := Rest(s.pending);
    match Next(s.pending)
    case Err(NoValue) => (Store(pending, s.cutLog, s.edl), Some(FrameUnavailable()))
    case Err(Failed(_)) => (Store(pending, s.cutLog, s.edl), None)
    case Ok(frame) =>
      var cut := CutFor(frame, data);
      if !env.pushSucceeds(cut) then (Store(pending, s.cutLog, s.edl), None)
      else
        var p := PairWith(s.cutLog, cut);
        match p.pair
        case None => (Store(pending, p.log, s.edl), None)
        case Some((prev, curr)) =>
          match env.fromCuts(prev, curr)
          case Err(_) => (Store(pending, p.log, s.edl), None)
          case Ok(edit) =>
            match env.writeEdit(edit)
            case Err(_) => (Store(pending, p.log, s.edl), None)
            case Ok(confirmation) => (Store(pending, p.log, s.edl + [edit]), Some(FromText(confirmation)))
  }

  /** No frame yet: a 200 with the fixed text, and neither the cut log nor the edits change. */
  lemma NoFrameChangesNothing(env: Collaborators, data: EditRequestData, s: Store)
    requires Next(s.pending) == Err(NoValue)
    ensures LogEditOutcome(env, data, s) == (Store(Rest(s.pending), s.cutLog, s.edl), Some(FrameUnavailable()))
  {
  }

  /**
   * A pairing attempt writes at most one edit, appended after the others, keeps
   * a log of at most one cut at most one cut long, answers 200 whenever it
   * answers, and never writes an edit when it fails.
   */
  lemma LogEditBounds(env: Collaborators, data: EditRequestData, s: Store)
    ensures var (t, reply) := LogEditOutcome(env, data, s);
      && (t.edl == s.edl || (|t.edl| == |s.edl| + 1 && t.edl[..|s.edl|] == s.edl))
      && (|s.cutLog| <= 1 ==> |t.cutLog| <= 1)
      && (reply.Some? ==> reply.value.statusLine == OK_STATUS)
      && (t.edl != s.edl ==> reply.Some?)
  {
  }

  // ------------------------------------------------------- the context

  /** The session context: decode state, the channel, the cut log and the EDL writer. */
  class Context {
    var decoding: bool
    var pending: seq<Received>
    var cutLog: seq<CutRecord>
    var edl: seq<Edit>
    const env: Collaborators

    constructor (env: Collaborators, channel: seq<Received>)
      ensures this.env == env && pending == channel
      ensures !decoding && cutLog == [] && edl == []
    {
      this.env := env;
      pending := channel;
      decoding := false;
      cutLog := [];
      edl := [];
    }

    function Snapshot(): Store
      reads this
    {
      Store(pending, cutLog, edl)
    }

    // The collaborators' operations, at the interface the router uses.

    method DecodeOn() returns (ok: bool)
      modifies this`decoding
      ensures ok == env.switchSucceeds(true)
      ensures decoding == (ok || old(decoding))
    {
      ok := env.switchSucceeds(true);
      if ok {
        decoding := true;
      }
    }

    method DecodeOff() returns (ok: bool)
      modifies this`decoding
      ensures ok == env.switchSucceeds(false)
      ensures decoding == (!ok && old(decoding))
    {
      ok := env.switchSucceeds(false);
      if ok {
        decoding := false;
      }
    }

    /** The blocking receive: the channel is taken to hold the item it waits for. */
    method RecvFrame() returns (r: Result<Frame, DecodeErr>)
      requires pending != []
      modifies this`pending
      ensures r == Take(old(pending)[0]) && pending == old(pending)[1..]
    {
      r := Take(pending[0]);
      pending := pending[1..];
    }

    /** The non-blocking receive. */
    method TryRecvFrame() returns (r: Result<Frame, DecodeErr>)
      modifies this`pending
      ensures r == Next(old(pending)) && pending == Rest(old(pending))
    {
      if pending == [] {
        r := Err(NoValue);
      } else {
        r := Take(pending[0]);
        pending := pending[1..];
      }
    }

    /** `CutLog::push`: the cut becomes the newest. */
    method PushCut(cut: CutRecord) returns (ok: bool)
      modifies this`cutLog
      ensures ok == env.pushSucceeds(cut)
      ensures cutLog == if ok then old(cutLog) + [cut] else old(cutLog)
    {
      ok := env.pushSucceeds(cut);
      if ok {
        cutLog := cutLog + [cut];
      }
    }

    /** `CutLog::pop`: removes and returns the oldest cut. */
    method PopCut() returns (oldest: Option<CutRecord>)
      modifies this`cutLog
      ensures old(cutLog) == [] ==> oldest == None && cutLog == []
      ensures old(cutLog) != [] ==> oldest == Some(old(cutLog)[0]) && cutLog == old(cutLog)[1..]
    {
      if cutLog == [] {
        oldest := None;
      } else {
        oldest := Some(cutLog[0]);
        cutLog := cutLog[1..];
      }
    }

    /** `CutLog::front`: the newest cut. */
    function FrontCut(): Option<CutRecord>
      reads this
    {
      if cutLog == [] then None else Some(cutLog[|cutLog| - 1])
    }

    method ClearCuts()
      modifies this`cutLog
      ensures cutLog == []
    {
      cutLog := [];
    }

    /** `Edl::write_from_edit`: a written edit is appended to the EDL. */
    method WriteEdit(edit: Edit) returns (r: Result<string, string>)
      modifies this`edl
      ensures r == env.writeEdit(edit)
      ensures edl == if r.Ok? then old(edl) + [edit] else old(edl)
    {
      r := env.writeEdit(edit);
      if r.Ok? {
        edl := edl + [edit];
      }
    }

    // The edit coordinator.

    /** Block for the first frame, log it as a cut, and report its timecode. */
    method WaitForFirstFrame(data: EditRequestData) returns (r: Result<Response, string>)
      requires pending != []
      modifies this`pending, this`cutLog
      ensures pending == old(pending)[1..]
      ensures r.Ok? <==> Take(old(pending)[0]).Ok? && env.pushSucceeds(CutFor(old(pending)[0].frame, data))
      ensures r.Ok? ==>
        cutLog == old(cutLog) + [CutFor(old(pending)[0].frame, data)] &&
        r.value == FromText(LOGGED_PREFIX + old(pending)[0].frame.timecode)
      ensures r.Err? ==> cutLog == old(cutLog)
    {
      var tc := RecvFrame();
      if tc.Err? {
        return Err("could not receive a frame");
      }
      var pushed := PushCut(CutFor(tc.value, data));
      if !pushed {
        return Err("could not log the cut");
      }
      r := Ok(FromText(LOGGED_PREFIX + tc.value.timecode));
    }

    /** Receive a frame without blocking, log it, and pair the oldest and newest cuts into an edit. */
    method ParseEditFromLog(data: EditRequestData) returns (r: Result<Edit, DecodeErr>)
      modifies this`pending, this`cutLog
      ensures pending == Rest(old(pending))
      ensures Next(old(pending)).Err? ==> r == Err(Next(old(pending)).error) && cutLog == old(cutLog)
      ensures Next(old(pending)).Ok? ==>
        var cut := CutFor(Next(old(pending)).value, data);
        var p := PairWith(old(cutLog), cut);
        && (!env.pushSucceeds(cut) ==> r.Err? && r.error.Failed? && cutLog == old(cutLog))
        && (env.pushSucceeds(cut) ==> cutLog == p.log)
        && (env.pushSucceeds(cut) ==>
              match p.pair
              case None => r.Err? && r.error.Failed?
              case Some((prev, curr)) =>
                match env.fromCuts(prev, curr)
                case Ok(edit) => r == Ok(edit)
                case Err(_) => r.Err? && r.error.Failed?)
    {
      var tc := TryRecvFrame();
      if tc.Err? {
        return Err(tc.error);
      }
      var cut := CutFor(tc.value, data);
      var pushed := PushCut(cut);
      if !pushed {
        return Err(Failed("could not log the cut"));
      }
      var prev := PopCut();
      var curr := FrontCut();
      if prev.None? || curr.None? {
        return Err(Failed(NO_VALUE_IN_LOG));
      }
      var edit := env.fromCuts(prev.value, curr.value);
      if edit.Err? {
        return Err(Failed(edit.error));
      }
      r := Ok(edit.value);
    }

    /** Pair the next frame into an edit and write it; "no frame yet" is a 200, not a failure. */
    method TryLogEdit(data: EditRequestData) returns (r: Result<Response, string>)
      modifies this`pending, this`cutLog, this`edl
      ensures (Snapshot(), Reply(r)) == LogEditOutcome(env, data, old(Snapshot()))
    {
      var parsed := ParseEditFromLog(data);
      match parsed
      case Ok(edit) =>
        var written := WriteEdit(edit);
        if written.Err? {
          return Err(written.error);
        }
        r := Ok(FromText(written.value));
      case Err(NoValue) =>
        r := Ok(FrameUnavailable());
      case Err(Failed(reason)) =>
        r := Err(reason);
    }

    // The router.

    /**
     * What routing `req` to `r` does to the context. Anything but POST to
     * /start, /stop or /log is the not-found response and changes nothing.
     * /start turns decoding on and clears the log before the body is read;
     * /stop turns decoding off before the body is read; both then proceed as
     * the payload allows. On every path the log holds at most one cut if it did
     * before, and the edit list only ever gains one entry at its end.
     */
    twostate predicate Routed(req: Request, new r: Result<Response, string>)
      reads this
    {
      && (CommandOf(req.verb, req.path) == None ==> r == Ok(NotFound()) && unchanged(this))
      && (r.Ok? ==> r.value.statusLine == OK_STATUS || r.value == NotFound())
      && (|old(cutLog)| <= 1 ==> |cutLog| <= 1)
      && (|old(edl)| <= |edl| <= |old(edl)| + 1 && edl[..|old(edl)|] == old(edl))
      // /start
      && (CommandOf(req.verb, req.path) == Some(Start) ==>
        && edl == old(edl)
        && (!env.switchSucceeds(true) ==> r.Err? && unchanged(this))
        && (env.switchSucceeds(true) ==> decoding && match Body(req, env.decodeJson)
             case Err(_) => r.Err? && cutLog == [] && pending == old(pending)
             case Ok(data) =>
               && old(pending) != []
               && pending == old(pending)[1..]
               && match Take(old(pending)[0])
                  case Err(_) => r.Err? && cutLog == []
                  case Ok(frame) =>
                    if env.pushSucceeds(CutFor(frame, data)) then
                      cutLog == [CutFor(frame, data)] &&
                      r == Ok(Response(OK_STATUS, START_PREFIX + DebugQuote(LOGGED_PREFIX + frame.timecode)))
                    else r.Err? && cutLog == []))
      // /stop
      && (CommandOf(req.verb, req.path) == Some(Stop) ==>
        && decoding == (old(decoding) && !env.switchSucceeds(false))
        && (!env.switchSucceeds(false) ==> r.Err? && Snapshot() == old(Snapshot()))
        && (env.switchSucceeds(false) ==> match Body(req, env.decodeJson)
             case Err(_) => r.Err? && Snapshot() == old(Snapshot())
             case Ok(data) =>
               var (s, reply) := LogEditOutcome(env, data, old(Snapshot()));
               Snapshot() == s && Reply(r) == Prefixed(STOP_PREFIX, reply)))
      // /log
      && (CommandOf(req.verb, req.path) == Some(Log) ==>
        && decoding == old(decoding)
        && match Body(req, env.decodeJson)
           case Err(_) => r.Err? && Snapshot() == old(Snapshot())
           case Ok(data) => (Snapshot(), Reply(r)) == LogEditOutcome(env, data, old(Snapshot())))
    }

    /**
     * `Request::route`. The only blocking step is the wait for the first frame,
     * reached by a /start whose decoding switch and body both succeed; a frame
     * must then be on its way.
     */
    method Route(req: Request) returns (r: Result<Response, string>)
      requires ReachesReceive(env, req) ==> pending != []
      modifies this
      ensures Routed(req, r)
    {
      match CommandOf(req.verb, req.path)
      case None =>
        r := Ok(NotFound());
      case Some(Start) =>
        var on := DecodeOn();
        if !on {
          return Err("could not turn decoding on");
        }
        ClearCuts();
        var body := Body(req, env.decodeJson);
        if body.Err? {
          return Err("could not read the request body");
        }
        var inner := WaitForFirstFrame(body.value);
        if inner.Err? {
          return inner;
        }
        r := Ok(Response(inner.value.statusLine, START_PREFIX + inner.value.content));
      case Some(Stop) =>
        var off := DecodeOff();
        if !off {
          return Err("could not turn decoding off");
        }
        var body := Body(req, env.decodeJson);
        if body.Err? {
          return Err("could not read the request body");
        }
        LogEditBounds(env, body.value, Snapshot());
        var inner := TryLogEdit(body.value);
        if inner.Err? {
          return inner;
        }
        r := Ok(Response(inner.value.statusLine, STOP_PREFIX + inner.value.content));
      case Some(Log) =>
        var body := Body(req, env.decodeJson);
        if body.Err? {
          return Err("could not read the request body");
        }
        LogEditBounds(env, body.value, Snapshot());
        r := TryLogEdit(body.value);
    }

    /**
     * The request pipeline of `handle_connection` without the socket: decode the
     * request, route it, answer a routing failure with the generic 500, quote
     * and serialise. A head the parser rejects gets no reply at all. `routed`
     * is what routing returned, exposed so the reply can be stated against it.
     */
    method Serve(head: ParsedHead, buffer: seq<byte>) returns (ghost routed: Option<Result<Response, string>>, wire: Option<string>)
      requires !head.status.Malformed? && ReachesReceive(env, NewRequest(head, buffer, HEADER_SLOTS).value) ==> pending != []
      modifies this
      ensures head.status.Malformed? ==> routed == None && wire == None && unchanged(this)
      ensures !head.status.Malformed? ==>
        && routed.Some?
        && Routed(NewRequest(head, buffer, HEADER_SLOTS).value, routed.value)
        && wire == Some(Wire(if routed.value.Ok? then routed.value.value else ServerErr()))
      ensures !head.status.Malformed? ==>
        wire.Some? && ReadReply(wire.value) == Some(if routed.value.Ok? then routed.value.value else ServerErr())
      ensures !head.status.Malformed? ==>
        var reply := ReadReply(wire.value).value;
        && reply.statusLine in {OK_STATUS, NOT_FOUND_STATUS, SERVER_ERROR_STATUS}
        && (reply.statusLine == SERVER_ERROR_STATUS ==> reply == ServerErr())
        && (reply.statusLine == NOT_FOUND_STATUS ==> reply == NotFound())
      ensures !head.status.Malformed? && CommandOf(head.verb, head.path) == None ==>
        wire == Some(Wire(NotFound())) && unchanged(this)
    {
      var req := NewRequest(head, buffer, HEADER_SLOTS);
      if req.Err? {
        return None, None;
      }
      var r := Route(req.value);
      routed := Some(r);
      var response := if r.Ok? then r.value else ServerErr();
      StatusLinesHaveNoCr();
      WireRoundTrip(response);
      wire := Some(Wire(response));
    }
  }
}
