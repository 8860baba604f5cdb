/** The connection's objects: fields updated in place, each method tied to `ConnectionModel`. */
module Http2ConnectionTask {
  import opened Wrappers
  import opened Bytes
  import opened Frames
  import opened Messages
  import opened ConnectionModel
  import Settings
  import Goaway
  import HeadersPayload
  import HeaderBlock

  /** `Http2ConnectionContext1`. */
  class Http2ConnectionContext {
    const clientOptions: Settings.ConnectionOptions
    var streamsChannels: set<U32>
    var childTokens: set<U32>
    var inflightHeadersFrameStreamId: Option<U32>
    var currentWindowSizeOfClient: nat
    var currentWindowSizeOfServer: nat
    var currentActiveStreamCount: U32
    var activeMaxStreamId: U32
    var seenMaxStreamId: U32
    var goAwayStreamId: Option<U32>
    var rootCancelled: bool
    var error: Option<Error>

    function View(): ConnContext
      reads this, clientOptions
    {
      ConnContext(streamsChannels, childTokens, clientOptions.View(), inflightHeadersFrameStreamId, currentWindowSizeOfClient,
                  currentWindowSizeOfServer, currentActiveStreamCount, activeMaxStreamId, seenMaxStreamId, goAwayStreamId,
                  rootCancelled, error)
    }

    constructor ()
      ensures View() == FreshContext() && fresh(clientOptions)
    {
      clientOptions := new Settings.ConnectionOptions();
      streamsChannels, childTokens, inflightHeadersFrameStreamId := {}, {}, None;
      currentWindowSizeOfClient, currentWindowSizeOfServer := 65535, 65535;
      currentActiveStreamCount, activeMaxStreamId, seenMaxStreamId := 0, 0, 0;
      goAwayStreamId, rootCancelled, error := None, false, None;
    }

    /** `is_valid_considering_inflight_headers`. */
    method IsValidConsideringInflightHeaders(f: Frame) returns (ok: bool)
      ensures ok == GateAllows(View(), f)
    {
      if inflightHeadersFrameStreamId.None? {
        return true;
      }
      if inflightHeadersFrameStreamId.value != f.sid {
        return false;
      }
      return f.ty.Continuation?;
    }

    method UpdateInflightHeaders(sid: U32)
      modifies this`inflightHeadersFrameStreamId
      ensures View() == old(View()).(gate := Some(sid))
    {
      inflightHeadersFrameStreamId := Some(sid);
    }

    method ClearInflightHeaders()
      modifies this`inflightHeadersFrameStreamId
      ensures View() == old(View()).(gate := None)
    {
      inflightHeadersFrameStreamId := None;
    }

    /** `add_stream` followed by `update_seen_max_stream_id`. */
    method OpenStream(sid: U32)
      modifies this
      ensures View() == AddStream(old(View()), sid)
    {
      streamsChannels := streamsChannels + {sid};
      childTokens := childTokens + {sid};
      currentActiveStreamCount := (currentActiveStreamCount + 1) % TWO_32;
      seenMaxStreamId := Max(seenMaxStreamId, sid);
    }

    method UpdateMaxActiveStreamId(sid: U32)
      modifies this`activeMaxStreamId
      ensures View() == old(View()).(activeMax := Max(sid, old(activeMaxStreamId)))
    {
      activeMaxStreamId := Max(sid, activeMaxStreamId);
    }

    /** `cancel_stream_token`: a stream without a token is left alone. */
    method CancelStreamToken(sid: U32) returns (cancelled: bool)
      modifies this
      ensures cancelled <==> sid in old(childTokens)
      ensures View() == CancelStream(old(View()), sid)
    {
      cancelled := sid in childTokens;
      if cancelled {
        childTokens := childTokens - {sid};
        currentActiveStreamCount := (currentActiveStreamCount as int - 1) % TWO_32;
      }
    }

    /** `get_stream_token_by_stream_id` creates the token it does not find. */
    method GetStreamToken(sid: U32)
      modifies this`childTokens
      ensures View() == old(View()).(tokens := old(childTokens) + {sid})
    {
      if sid !in childTokens {
        childTokens := childTokens + {sid};
      }
      assert childTokens == old(childTokens) + {sid};
    }

    method CancelRootToken()
      modifies this`rootCancelled
      ensures View() == old(View()).(rootCancelled := true)
    {
      rootCancelled := true;
    }

    method SetGoAwayStreamId(sid: U32)
      modifies this`goAwayStreamId
      ensures View() == old(View()).(goAway := Some(sid))
    {
      goAwayStreamId := Some(sid);
    }

    method IncrementWindowSize(n: nat)
      modifies this`currentWindowSizeOfClient
      ensures View() == old(View()).(window := old(currentWindowSizeOfClient) + n)
    {
      currentWindowSizeOfClient := currentWindowSizeOfClient + n;
    }

    method DecrementWindowSize(n: nat)
      requires n <= currentWindowSizeOfClient
      modifies this`currentWindowSizeOfClient
      ensures View() == old(View()).(window := old(currentWindowSizeOfClient) - n)
    {
      currentWindowSizeOfClient := currentWindowSizeOfClient - n;
    }

    method DecrementWindowSizeOfServer(n: nat)
      modifies this`currentWindowSizeOfServer
      ensures View() == old(View()).(serverWindow := (old(currentWindowSizeOfServer) as int - n) % TWO_64)
    {
      currentWindowSizeOfServer := (currentWindowSizeOfServer as int - n) % TWO_64;
    }

    method CountCommandFromStream(command: CountCommand)
      modifies this`currentActiveStreamCount
      ensures View() == Count(old(View()), command)
    {
      match command {
        case Increment => currentActiveStreamCount := (currentActiveStreamCount + 1) % TWO_32;
        case Decrement => currentActiveStreamCount := (currentActiveStreamCount as int - 1) % TWO_32;
        case Keep =>
      }
    }

    method UpdateError(e: Error)
      modifies this`error
      ensures View() == old(View()).(error := Some(e))
    {
      error := Some(e);
    }

    /** `own_error`: takes the error out of the slot. */
    method OwnError() returns (e: Option<Error>)
      modifies this`error
      ensures e == old(error) && View() == old(View()).(error := None)
    {
      e := error;
      error := None;
    }
  }

  // ---- the frame handlers ----

  datatype Handling = Passed(frame: Frame, ack: Option<Frame>) | Refused(error: Error) | Panicked

  function HandlingOf(p: Processed): Handling {
    match p
    case Processed(_, frame, ack) => Passed(frame, ack)
    case Rejected(e) => Refused(e)
    case Crashed => Panicked
  }

  /** A handler returns what the pipeline says and leaves the context as the pipeline says. */
  twostate predicate Follows(ctx: Http2ConnectionContext, p: Processed, h: Handling)
    reads ctx, ctx.clientOptions
  {
    && h == HandlingOf(p)
    && ctx.View() == if p.Processed? then p.ctx else old(ctx.View())
  }

  method CommonValidate(f: Frame) returns (e: Option<Error>)
    ensures e == CommonFault(f)
  {
    if f.sid != 0 && f.sid % 2 == 0 {
      return Some(ConnectionError(ProtocolError));
    }
    if |f.payload| > MAX_FRAME_SIZE {
      if f.sid == 0 || f.ty.Headers? || f.ty.Settings? {
        return Some(ConnectionError(FrameSizeError));
      }
      return Some(StreamError(f.sid, FrameSizeError));
    }
    return None;
  }

  method SettingsFrame(ctx: Http2ConnectionContext, f: Frame) returns (h: Handling)
    requires f.ty.Settings?
    modifies ctx, ctx.clientOptions
    ensures Follows(ctx, HandleSettings(old(ctx.View()), f), h)
  {
    var fault := Settings.Validate(f.sid, f.payload);
    if fault.Some? {
      return Refused(fault.value);
    }
    var partial := Settings.CollectOptions(f.payload);
    ctx.clientOptions.UpdateFrom(partial);
    return Passed(f, if f.ty.ack then None else Some(Plain(FrameType.Settings(true), f.sid, [])));
  }

  method WindowUpdateFrame(ctx: Http2ConnectionContext, f: Frame) returns (h: Handling)
    modifies ctx
    ensures Follows(ctx, HandleWindowUpdate(old(ctx.View()), f), h)
  {
    if |f.payload| < 4 {
      return Panicked;
    }
    var increment := Get32(f.payload) % TWO_31;
    if f.sid == 0 && increment == 0 {
      return Refused(ConnectionError(ProtocolError));
    }
    if f.sid != 0 && increment == 0 {
      return Refused(StreamError(f.sid, ProtocolError));
    }
    if f.sid == 0 && increment + ctx.currentWindowSizeOfClient > TWO_32 - 1 {
      return Refused(ConnectionError(FlowControlError));
    }
    if |f.payload| != 4 {
      return Refused(ConnectionError(FrameSizeError));
    }
    if f.sid == 0 {
      ctx.IncrementWindowSize(increment);
    }
    return Passed(f, None);
  }

  method HeadersFrame(ctx: Http2ConnectionContext, f: Frame) returns (h: Handling)
    requires f.ty.Headers?
    modifies ctx
    ensures Follows(ctx, HandleHeaders(old(ctx.View()), f), h)
  {
    var params := HeadersPayload.DecodePayloadAndValue(f.ty.padded, f.ty.priority, f.payload);
    if params.None? {
      return Panicked;
    }
    if f.sid == 0 {
      return Refused(ConnectionError(ProtocolError));
    }
    if (ctx.currentActiveStreamCount + 1) % TWO_32 > MAX_CONCURRENT_STREAMS {
      return Refused(StreamError(f.sid, RefusedStream));
    }
    if params.value.dependency == Some(f.sid) {
      return Refused(ConnectionError(ProtocolError));
    }
    if ctx.inflightHeadersFrameStreamId.None? && !f.HasEndHeaders() {
      ctx.UpdateInflightHeaders(f.sid);
    }
    return Passed(f.(params := params), None);
  }

  method ContinuationFrame(ctx: Http2ConnectionContext, f: Frame) returns (h: Handling)
    modifies ctx
    ensures Follows(ctx, HandleContinuation(old(ctx.View()), f), h)
  {
    if f.sid == 0 {
      return Refused(ConnectionError(ProtocolError));
    }
    if f.HasEndHeaders() && ctx.inflightHeadersFrameStreamId == Some(f.sid) {
      ctx.ClearInflightHeaders();
    }
    return Passed(f, None);
  }

  method GoAwayFrame(ctx: Http2ConnectionContext, f: Frame) returns (h: Handling)
    modifies ctx
    ensures Follows(ctx, HandleGoAway(old(ctx.View()), f), h)
  {
    if f.sid != 0 {
      return Refused(ConnectionError(ProtocolError));
    }
    if |f.payload| < 8 {
      return Panicked;
    }
    ctx.SetGoAwayStreamId(Get32(f.payload) % TWO_27);
    return Passed(f, None);
  }

  method DataFrame(ctx: Http2ConnectionContext, f: Frame) returns (h: Handling)
    requires f.ty.Data?
    modifies ctx
    ensures Follows(ctx, HandleData(old(ctx.View()), f), h)
  {
    if f.sid == 0 {
      return Refused(ConnectionError(ProtocolError));
    }
    if f.ty.padded {
      if f.payload == [] {
        return Panicked;
      }
      if f.payload[0] > |f.payload| {
        return Refused(ConnectionError(ProtocolError));
      }
    }
    ctx.DecrementWindowSizeOfServer(|f.payload|);
    return Passed(f, None);
  }

  /** The handlers that only read the frame. */
  method ReadOnlyFrame(ctx: Http2ConnectionContext, f: Frame) returns (h: Handling)
    requires f.ty.Ping? || f.ty.Priority? || f.ty.RstStream?
    ensures Follows(ctx, ConnectionModel.Handle(old(ctx.View()), f), h) || CommonFault(f).Some?
  {
    if f.ty.Ping? {
      if f.sid != 0 {
        return Refused(ConnectionError(ProtocolError));
      }
      if |f.payload| != 8 {
        return Refused(ConnectionError(FrameSizeError));
      }
      return Passed(f, if f.ty.ack then None else Some(Plain(Ping(true), 0, f.payload)));
    }
    if f.ty.Priority? {
      if |f.payload| < 5 {
        return Panicked;
      }
      if f.sid == 0 {
        return Refused(ConnectionError(ProtocolError));
      }
      if |f.payload| != 5 {
        return Refused(StreamError(f.sid, FrameSizeError));
      }
      if Get32(f.payload) % TWO_31 == f.sid {
        return Refused(ConnectionError(ProtocolError));
      }
      return Passed(f, None);
    }
    if f.sid == 0 {
      return Refused(ConnectionError(ProtocolError));
    }
    if |f.payload| != 4 {
      return Refused(ConnectionError(FrameSizeError));
    }
    return Passed(f, None);
  }

  /** `FrameHandler::handle`. */
  method HandleParsedFrame(ctx: Http2ConnectionContext, f: Frame) returns (h: Handling)
    modifies ctx, ctx.clientOptions
    ensures Follows(ctx, ConnectionModel.Handle(old(ctx.View()), f), h)
  {
    if f.ty.PushPromise? || f.ty.Unknown? {
      return Passed(f, None);
    }
    var fault := CommonValidate(f);
    if fault.Some? {
      return Refused(fault.value);
    }
    match f.ty {
      case Settings(_) => h := SettingsFrame(ctx, f);
      case WindowUpdate => h := WindowUpdateFrame(ctx, f);
      case Headers(_, _, _, _) => h := HeadersFrame(ctx, f);
      case GoAway => h := GoAwayFrame(ctx, f);
      case Continuation(_) => h := ContinuationFrame(ctx, f);
      case Data(_, _) => h := DataFrame(ctx, f);
      case _ => h := ReadOnlyFrame(ctx, f);
    }
  }

  // ---- the connection ----

  /** What the event loop waits for. */
  datatype Input = FrameParsed(frame: Frame) | FromStream(message: ToConn, hpack: Hpack) | Idle5Seconds

  /** One pass of the loop: the error slot first, then one input. */
  function LoopTurn(c: Conn, input: Input): seq<Outcome> {
    var answered := if c.ctx.error.Some? then AnswerError(c) else Quiet(c);
    if answered.conn.status.Ended? then [answered]
    else
      match input
      case FrameParsed(f) => [answered, OnFrame(answered.conn, f)]
      case FromStream(m, hpack) => [answered, OnMessage(answered.conn, m, hpack)]
      case Idle5Seconds => [answered, Quiet(End(answered.conn.(ctx := answered.conn.ctx.(rootCancelled := true))))]
  }

  function Last(outcomes: seq<Outcome>): Outcome
    requires outcomes != []
  {
    outcomes[|outcomes| - 1]
  }

  /** The passes over a list of inputs, up to the one that ends the loop. */
  function LoopRun(c: Conn, inputs: seq<Input>): seq<Outcome>
    decreases inputs
  {
    if inputs == [] || c.status.Ended? then []
    else LoopTurn(c, inputs[0]) + LoopRun(Last(LoopTurn(c, inputs[0])).conn, inputs[1..])
  }

  function After(c: Conn, outcomes: seq<Outcome>): Conn {
    if outcomes == [] then c else Last(outcomes).conn
  }

  class Http2Connection {
    const connCtx: Http2ConnectionContext
    var written: seq<Frame>
    var pendingFrames: seq<Frame>
    var status: Status

    function View(): Conn
      reads this, connCtx, connCtx.clientOptions
    {
      Conn(connCtx.View(), written, pendingFrames, status)
    }

    constructor (ctx: Http2ConnectionContext, greeting: seq<Frame>)
      ensures connCtx == ctx
      ensures View() == Conn(ctx.View(), greeting, [], Running)
    {
      connCtx, written, pendingFrames, status := ctx, greeting, [], Running;
    }

    /** `send`: false is a frame that cannot be serialized. */
    method SendFrame(f: Frame) returns (ok: bool)
      modifies this`written
      ensures ok == Writable(f)
      ensures written == if ok then old(written) + [f] else old(written)
    {
      ok := Writable(f);
      if ok {
        written := written + [f];
      }
    }

    /** Validation, acknowledgement and forwarding of one frame. */
    method HandleAndForward(f: Frame, toStreams: bool) returns (post: Option<(U32, ToStream)>)
      modifies this, connCtx, connCtx.clientOptions
      ensures var o := if toStreams then Forward(old(View()), f, None) else ConnectionLevel(old(View()), f);
        View() == o.conn && post == o.post
    {
      post := None;
      var h := HandleParsedFrame(connCtx, f);
      match h {
        case Panicked => status := Ended;
        case Refused(e) => connCtx.UpdateError(e);
        case Passed(frame, ack) =>
          if ack.Some? {
            var ok := SendFrame(ack.value);
            if !ok {
              status := Ended;
            }
          }
          if toStreams && f.sid in connCtx.streamsChannels {
            post := Some((f.sid, FrameForRequest(frame)));
          }
      }
    }

    method HandleStreamLevelFrame(f: Frame) returns (created: Option<U32>, post: Option<(U32, ToStream)>)
      modifies this, connCtx, connCtx.clientOptions
      ensures var o := StreamLevel(old(View()), f); View() == o.conn && created == o.created && post == o.post
    {
      created, post := None, None;
      if connCtx.goAwayStreamId.Some? && f.sid > connCtx.goAwayStreamId.value {
        return;
      }
      if f.sid != 0 && f.sid !in connCtx.streamsChannels {
        if f.ty.Headers? {
          connCtx.UpdateMaxActiveStreamId(f.sid);
        }
        if f.sid < connCtx.activeMaxStreamId {
          connCtx.UpdateError(ConnectionError(ProtocolError));
          return;
        }
        connCtx.OpenStream(f.sid);
        created := Some(f.sid);
      }
      post := HandleAndForward(f, true);
    }

    /** The arm of `select!` for a parsed frame. */
    method OnParsedFrame(f: Frame) returns (created: Option<U32>, post: Option<(U32, ToStream)>)
      modifies this, connCtx, connCtx.clientOptions
      ensures var o := OnFrame(old(View()), f); View() == o.conn && created == o.created && post == o.post
    {
      created, post := None, None;
      var allowed := connCtx.IsValidConsideringInflightHeaders(f);
      if !allowed {
        connCtx.UpdateError(ConnectionError(ProtocolError));
        status := Ended;
        return;
      }
      if f.ty.Settings? || f.ty.Ping? || f.ty.GoAway? {
        post := HandleAndForward(f, false);
      } else {
        created, post := HandleStreamLevelFrame(f);
      }
    }

    /** The loop over the frames of a response. */
    method DoResponseToClient(frames: seq<Frame>)
      modifies this, connCtx
      ensures View() == Deliver(old(View()), frames, false)
    {
      var overflowed := false;
      for i := 0 to |frames|
        invariant Deliver(View(), frames[i..], overflowed) == Deliver(old(View()), frames, false)
      {
        assert frames[i..][1..] == frames[i + 1..];
        var f := frames[i];
        if f.ty.Data? {
          if connCtx.currentWindowSizeOfClient < |f.payload| {
            overflowed := true;
          } else {
            connCtx.DecrementWindowSize(|f.payload|);
          }
        }
        if overflowed {
          pendingFrames := pendingFrames + [f];
        } else {
          var ok := SendFrame(f);
          if !ok {
            status := Ended;
            return;
          }
        }
      }
    }

    /** Decoding after HPACK, and the answer to the stream that asked. */
    method DecodeAndAnswer(m: ToConn, hpack: Hpack) returns (post: Option<(U32, ToStream)>)
      requires m.HeadersToDecode? || m.TrailersToDecode?
      modifies connCtx
      ensures var o := OnMessage(old(View()), m, hpack); View() == o.conn && post == o.post
    {
      post := None;
      if hpack.CompressionFailed? {
        connCtx.UpdateError(ConnectionError(CompressionError));
        return;
      }
      if m.HeadersToDecode? {
        var r := HeaderBlock.DecodeHeaders(m.sid, hpack.pairs);
        if r.Err? {
          connCtx.UpdateError(r.error);
        } else if r.value.headers != map[] && m.sid in connCtx.streamsChannels {
          post := Some((m.sid, HeadersDecoded(r.value.headers, r.value.trailers)));
        }
      } else {
        var r := HeaderBlock.DecodeTrailers(m.sid, hpack.pairs, m.declared);
        if r.Err? {
          connCtx.UpdateError(r.error);
        } else if r.value != map[] && m.sid in connCtx.streamsChannels {
          post := Some((m.sid, TrailersDecoded(r.value)));
        }
      }
    }

    /** The arm of `select!` for a message from a stream. */
    method OnStreamMessage(m: ToConn, hpack: Hpack) returns (post: Option<(U32, ToStream)>, launch: Option<U32>)
      modifies this, connCtx
      ensures var o := OnMessage(old(View()), m, hpack); View() == o.conn && post == o.post && launch == o.launch
    {
      post, launch := None, None;
      match m {
        case RequestForDispatch(_, sid) =>
          connCtx.GetStreamToken(sid);
          if sid in connCtx.streamsChannels {
            launch := Some(sid);
          }
        case DoResponse(frames, _) => DoResponseToClient(frames);
        case Failure(e) => connCtx.UpdateError(e);
        case ActiveStreamCount(command, _) => connCtx.CountCommandFromStream(command);
        case _ => post := DecodeAndAnswer(m, hpack);
      }
    }

    /** The top of the loop: the slot is emptied and a protocol error answered. */
    method AnswerPendingError() returns (cancel: Option<U32>)
      requires connCtx.error.Some?
      modifies this, connCtx
      ensures var o := AnswerError(old(View())); View() == o.conn && cancel == o.cancel
    {
      cancel := None;
      var e := connCtx.OwnError();
      match e.value {
        case ConnectionError(code) =>
          connCtx.CancelRootToken();
          var ok := SendFrame(Goaway.WithError(connCtx.seenMaxStreamId, code));
          status := Ended;
        case StreamError(sid, code) =>
          var cancelled := connCtx.CancelStreamToken(sid);
          if cancelled {
            cancel := Some(sid);
          }
          var ok := SendFrame(RstFrame(sid, code));
          status := if ok then status else Ended;
        case OtherError =>
      }
    }

    /** One pass of the `serve` loop: the error slot first, then one input, if the loop is still running. */
    method ServePass(input: Input) returns (ghost turn: seq<Outcome>)
      requires status.Running?
      modifies this, connCtx, connCtx.clientOptions
      ensures turn == LoopTurn(old(View()), input) && Last(turn).conn == View()
    {
      ghost var before := View();
      ghost var answered := Quiet(before);
      if connCtx.error.Some? {
        answered := AnswerError(before);
        var cancel := AnswerPendingError();
      }
      turn := [answered];
      if status.Running? {
        match input {
          case FrameParsed(f) =>
            var created, post := OnParsedFrame(f);
            turn := [answered, OnFrame(answered.conn, f)];
          case FromStream(m, hpack) =>
            var post, launch := OnStreamMessage(m, hpack);
            turn := [answered, OnMessage(answered.conn, m, hpack)];
          case Idle5Seconds =>
            connCtx.CancelRootToken();
            status := Ended;
            turn := [answered, Quiet(View())];
        }
      }
      hide AnswerError, OnFrame, OnMessage;
    }

    /** `serve` after the handshake, over the inputs the outside world provides. */
    method Serve(inputs: seq<Input>) returns (ghost outcomes: seq<Outcome>)
      modifies this, connCtx, connCtx.clientOptions
      ensures outcomes == LoopRun(old(View()), inputs)
      ensures View() == After(old(View()), outcomes)
    {
      outcomes := [];
      var i := 0;
      while i < |inputs| && status.Running?
        invariant 0 <= i <= |inputs|
        invariant View() == After(old(View()), outcomes)
        invariant LoopRun(old(View()), inputs) == outcomes + LoopRun(View(), inputs[i..])
      {
        ghost var before := View();
        ghost var turn := ServePass(inputs[i]);
        RunStep(outcomes, before, inputs[i..]);
        outcomes := outcomes + turn;
        assert inputs[i..][1..] == inputs[i + 1..];
        i := i + 1;
        hide LoopTurn;
      }
      assert outcomes + [] == outcomes;
    }
  }

  lemma RunStep(outcomes: seq<Outcome>, c: Conn, inputs: seq<Input>)
    requires inputs != [] && c.status.Running?
    ensures outcomes + LoopRun(c, inputs)
      == outcomes + LoopTurn(c, inputs[0]) + LoopRun(Last(LoopTurn(c, inputs[0])).conn, inputs[1..])
  {
    hide LoopTurn;
  }
}
