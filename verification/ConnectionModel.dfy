/** What the connection task does with each frame, each stream message and each error. */
module ConnectionModel {
  import opened Wrappers
  import opened Bytes
  import opened Frames
  import opened Messages
  import Settings
  import Goaway
  import HeadersPayload
  import FrameCodec
  import HeaderBlock

  const MAX_FRAME_SIZE: int := 16384
  const MAX_CONCURRENT_STREAMS: int := 100
  const INITIAL_WINDOW: U32 := 65535

  /** `Http2ConnectionContext1`; `tokens` are the streams with an entry in `child_tokens`. */
  datatype ConnContext = ConnContext(
    channels: set<U32>,
    tokens: set<U32>,
    clientOptions: Settings.Options,
    gate: Option<U32>,
    window: nat,
    serverWindow: nat,
    activeCount: U32,
    activeMax: U32,
    seenMax: U32,
    goAway: Option<U32>,
    rootCancelled: bool,
    error: Option<Error>)

  function FreshContext(): ConnContext {
    ConnContext({}, {}, Settings.DEFAULTS, None, 65535, 65535, 0, 0, 0, None, false, None)
  }

  function Max(a: U32, b: U32): U32 { if a < b then b else a }

  // ---- the frame handlers ----

  datatype Processed = Processed(ctx: ConnContext, frame: Frame, ack: Option<Frame>) | Rejected(error: Error) | Crashed

  function CommonFault(f: Frame): Option<Error> {
    if f.sid != 0 && f.sid % 2 == 0 then Some(ConnectionError(ProtocolError))
    else if |f.payload| > MAX_FRAME_SIZE then
      if f.sid == 0 || f.ty.Headers? || f.ty.Settings? then Some(ConnectionError(FrameSizeError))
      else Some(StreamError(f.sid, FrameSizeError))
    else None
  }

  function HandleSettings(ctx: ConnContext, f: Frame): Processed
    requires f.ty.Settings?
  {
    var fault := Settings.Verdict(f.sid, f.payload);
    if fault.Some? then Rejected(fault.value)
    else
      Processed(ctx.(clientOptions := Settings.Apply(ctx.clientOptions, f.payload)), f,
                if f.ty.ack then None else Some(Plain(FrameType.Settings(true), f.sid, [])))
  }

  function HandlePing(ctx: ConnContext, f: Frame): Processed
    requires f.ty.Ping?
  {
    if f.sid != 0 then Rejected(ConnectionError(ProtocolError))
    else if |f.payload| != 8 then Rejected(ConnectionError(FrameSizeError))
    else Processed(ctx, f, if f.ty.ack then None else Some(Plain(Ping(true), 0, f.payload)))
  }

  function HandlePriority(ctx: ConnContext, f: Frame): Processed {
    if |f.payload| < 5 then Crashed
    else if f.sid == 0 then Rejected(ConnectionError(ProtocolError))
    else if |f.payload| != 5 then Rejected(StreamError(f.sid, FrameSizeError))
    else if Get32(f.payload) % TWO_31 == f.sid then Rejected(ConnectionError(ProtocolError))
    else Processed(ctx, f, None)
  }

  function HandleWindowUpdate(ctx: ConnContext, f: Frame): Processed {
    if |f.payload| < 4 then Crashed
    else
      var increment := Get32(f.payload) % TWO_31;
      if f.sid == 0 && increment == 0 then Rejected(ConnectionError(ProtocolError))
      else if f.sid != 0 && increment == 0 then Rejected(StreamError(f.sid, ProtocolError))
      else if f.sid == 0 && increment + ctx.window > TWO_32 - 1 then Rejected(ConnectionError(FlowControlError))
      else if |f.payload| != 4 then Rejected(ConnectionError(FrameSizeError))
      else Processed(if f.sid == 0 then ctx.(window := ctx.window + increment) else ctx, f, None)
  }

  function HandleHeaders(ctx: ConnContext, f: Frame): Processed
    requires f.ty.Headers?
  {
    var params := HeadersPayload.Decode(f.ty.padded, f.ty.priority, f.payload);
    if params.None? then Crashed
    else if f.sid == 0 then Rejected(ConnectionError(ProtocolError))
    else if (ctx.activeCount + 1) % TWO_32 > MAX_CONCURRENT_STREAMS then Rejected(StreamError(f.sid, RefusedStream))
    else if params.value.dependency == Some(f.sid) then Rejected(ConnectionError(ProtocolError))
    else
      Processed(if ctx.gate.None? && !f.HasEndHeaders() then ctx.(gate := Some(f.sid)) else ctx, f.(params := params), None)
  }

  function HandleGoAway(ctx: ConnContext, f: Frame): Processed {
    if f.sid != 0 then Rejected(ConnectionError(ProtocolError))
    else
      match Goaway.DecodePayload(f.payload)
      case None => Crashed
      case Some(p) => Processed(ctx.(goAway := Some(p.0)), f, None)
  }

  function HandleContinuation(ctx: ConnContext, f: Frame): Processed {
    if f.sid == 0 then Rejected(ConnectionError(ProtocolError))
    else if f.HasEndHeaders() && ctx.gate == Some(f.sid) then Processed(ctx.(gate := None), f, None)
    else Processed(ctx, f, None)
  }

  function HandleData(ctx: ConnContext, f: Frame): Processed
    requires f.ty.Data?
  {
    if f.sid == 0 then Rejected(ConnectionError(ProtocolError))
    else if f.ty.padded && f.payload == [] then Crashed
    else if f.ty.padded && f.payload[0] > |f.payload| then Rejected(ConnectionError(ProtocolError))
    else Processed(ctx.(serverWindow := (ctx.serverWindow as int - |f.payload|) % TWO_64), f, None)
  }

  function HandleRstStream(ctx: ConnContext, f: Frame): Processed {
    if f.sid == 0 then Rejected(ConnectionError(ProtocolError))
    else if |f.payload| != 4 then Rejected(ConnectionError(FrameSizeError))
    else Processed(ctx, f, None)
  }

  /** `FrameHandle::handle`: validation common to all types, then the type's own pipeline. */
  function Handle(ctx: ConnContext, f: Frame): Processed {
    if f.ty.PushPromise? || f.ty.Unknown? then Processed(ctx, f, None)
    else
      var fault := CommonFault(f);
      if fault.Some? then Rejected(fault.value)
      else
        match f.ty
        case Settings(_) => HandleSettings(ctx, f)
        case Ping(_) => HandlePing(ctx, f)
        case Priority => HandlePriority(ctx, f)
        case WindowUpdate => HandleWindowUpdate(ctx, f)
        case Headers(_, _, _, _) => HandleHeaders(ctx, f)
        case GoAway => HandleGoAway(ctx, f)
        case Continuation(_) => HandleContinuation(ctx, f)
        case Data(_, _) => HandleData(ctx, f)
        case _ => HandleRstStream(ctx, f)
  }

  // ---- the connection task ----

  datatype Status = Running | Ended

  datatype Conn = Conn(ctx: ConnContext, wire: seq<Frame>, pendingFrames: seq<Frame>, status: Status)

  /** One turn of the event loop and what it does to the streams. */
  datatype Outcome = Outcome(
    conn: Conn,
    created: Option<U32>,
    post: Option<(U32, ToStream)>,
    launch: Option<U32>,
    cancel: Option<U32>)

  function Quiet(c: Conn): Outcome {
    Outcome(c, None, None, None, None)
  }

  function Raise(c: Conn, e: Error): Conn {
    c.(ctx := c.ctx.(error := Some(e)))
  }

  function End(c: Conn): Conn {
    c.(status := Ended)
  }

  predicate Writable(f: Frame) {
    (f.ty.Settings? || f.ty.Ping? || f.ty.Headers? || f.ty.Data? || f.ty.RstStream? || f.ty.GoAway?)
    && |f.payload| <= FrameCodec.MAX_LENGTH
  }

  /** `send`: a frame that cannot be serialized makes `serve` return. */
  function Send(c: Conn, f: Frame): Conn {
    if Writable(f) then c.(wire := c.wire + [f]) else End(c)
  }

  function SendAck(c: Conn, ack: Option<Frame>): Conn {
    if ack.Some? then Send(c, ack.value) else c
  }

  /** `is_valid_considering_inflight_headers`. */
  predicate GateAllows(ctx: ConnContext, f: Frame) {
    ctx.gate.None? || (ctx.gate.value == f.sid && f.ty.Continuation?)
  }

  predicate ShouldIgnore(ctx: ConnContext, f: Frame) {
    ctx.goAway.Some? && f.sid > ctx.goAway.value
  }

  predicate ShouldInit(ctx: ConnContext, f: Frame) {
    f.sid != 0 && f.sid !in ctx.channels
  }

  function AddStream(ctx: ConnContext, sid: U32): ConnContext {
    ctx.(channels := ctx.channels + {sid}, tokens := ctx.tokens + {sid},
         activeCount := (ctx.activeCount + 1) % TWO_32, seenMax := Max(ctx.seenMax, sid))
  }

  function NoteHeaders(ctx: ConnContext, f: Frame): ConnContext {
    if f.ty.Headers? then ctx.(activeMax := Max(f.sid, ctx.activeMax)) else ctx
  }

  /** Validation and forwarding of a frame on a stream that exists, or on stream 0. */
  function Forward(c: Conn, f: Frame, created: Option<U32>): Outcome {
    match Handle(c.ctx, f)
    case Crashed => Outcome(End(c), created, None, None, None)
    case Rejected(e) => Outcome(Raise(c, e), created, None, None, None)
    case Processed(ctx, frame, ack) =>
      Outcome(SendAck(c.(ctx := ctx), ack), created,
              if f.sid in ctx.channels then Some((f.sid, FrameForRequest(frame))) else None, None, None)
  }

  function StreamLevel(c: Conn, f: Frame): Outcome {
    if ShouldIgnore(c.ctx, f) then Quiet(c)
    else if !ShouldInit(c.ctx, f) then Forward(c, f, None)
    else
      var ctx := NoteHeaders(c.ctx, f);
      if f.sid < ctx.activeMax then Quiet(Raise(c.(ctx := ctx), ConnectionError(ProtocolError)))
      else Forward(c.(ctx := AddStream(ctx, f.sid)), f, Some(f.sid))
  }

  function ConnectionLevel(c: Conn, f: Frame): Outcome {
    match Handle(c.ctx, f)
    case Crashed => Quiet(End(c))
    case Rejected(e) => Quiet(Raise(c, e))
    case Processed(ctx, _, ack) => Quiet(SendAck(c.(ctx := ctx), ack))
  }

  /** The `select!` arm for a parsed frame. */
  function OnFrame(c: Conn, f: Frame): Outcome {
    if !GateAllows(c.ctx, f) then Quiet(End(Raise(c, ConnectionError(ProtocolError))))
    else if f.ty.Settings? || f.ty.Ping? || f.ty.GoAway? then ConnectionLevel(c, f)
    else StreamLevel(c, f)
  }

  function CancelStream(ctx: ConnContext, sid: U32): ConnContext {
    if sid in ctx.tokens then ctx.(tokens := ctx.tokens - {sid}, activeCount := (ctx.activeCount as int - 1) % TWO_32)
    else ctx
  }

  function RstFrame(sid: U32, code: ErrorCode): Frame {
    Plain(RstStream, sid, Put32(Code(code)))
  }

  /** The top of the loop: the error slot is emptied and answered. */
  function AnswerError(c: Conn): Outcome
    requires c.ctx.error.Some?
  {
    var ctx := c.ctx.(error := None);
    match c.ctx.error.value
    case ConnectionError(code) =>
      Quiet(End(Send(c.(ctx := ctx.(rootCancelled := true)), Goaway.WithError(ctx.seenMax, code))))
    case StreamError(sid, code) =>
      Outcome(Send(c.(ctx := CancelStream(ctx, sid)), RstFrame(sid, code)), None, None, None,
              if sid in ctx.tokens then Some(sid) else None)
    case OtherError => Quiet(c.(ctx := ctx))
  }

  /** The loop over the frames of one response message. */
  function Deliver(c: Conn, frames: seq<Frame>, overflowed: bool): Conn
    decreases frames
  {
    if frames == [] then c
    else
      var f := frames[0];
      var over := overflowed || (f.ty.Data? && c.ctx.window < |f.payload|);
      var debit := f.ty.Data? && c.ctx.window >= |f.payload|;
      var c1 := if debit then c.(ctx := c.ctx.(window := c.ctx.window - |f.payload|)) else c;
      if over then Deliver(c1.(pendingFrames := c1.pendingFrames + [f]), frames[1..], true)
      else if !Writable(f) then End(c1)
      else Deliver(c1.(wire := c1.wire + [f]), frames[1..], false)
  }

  /** The outcome of HPACK, which is not modelled: a compression error or any list of pairs. */
  datatype Hpack = CompressionFailed | Pairs(pairs: seq<HeaderBlock.Pair>)

  function AnswerHeaders(c: Conn, sid: U32, hpack: Hpack): Outcome {
    match hpack
    case CompressionFailed => Quiet(Raise(c, ConnectionError(CompressionError)))
    case Pairs(ps) =>
      match HeaderBlock.Decoded(sid, ps)
      case Err(e) => Quiet(Raise(c, e))
      case Ok(request) =>
        if request.headers == map[] || sid !in c.ctx.channels then Quiet(c)
        else Outcome(c, None, Some((sid, HeadersDecoded(request.headers, request.trailers))), None, None)
  }

  function AnswerTrailers(c: Conn, sid: U32, declared: set<string>, hpack: Hpack): Outcome {
    match hpack
    case CompressionFailed => Quiet(Raise(c, ConnectionError(CompressionError)))
    case Pairs(ps) =>
      match HeaderBlock.DecodedTrailers(sid, ps, declared)
      case Err(e) => Quiet(Raise(c, e))
      case Ok(headers) =>
        if headers == map[] || sid !in c.ctx.channels then Quiet(c)
        else Outcome(c, None, Some((sid, TrailersDecoded(headers))), None, None)
  }

  function Count(ctx: ConnContext, command: CountCommand): ConnContext {
    match command
    case Increment => ctx.(activeCount := (ctx.activeCount + 1) % TWO_32)
    case Decrement => ctx.(activeCount := (ctx.activeCount as int - 1) % TWO_32)
    case Keep => ctx
  }

  /** The `select!` arm for a message from a stream. */
  function OnMessage(c: Conn, m: ToConn, hpack: Hpack): Outcome {
    match m
    case RequestForDispatch(_, sid) =>
      Outcome(c.(ctx := c.ctx.(tokens := c.ctx.tokens + {sid})), None, None,
              if sid in c.ctx.channels then Some(sid) else None, None)
    case DoResponse(frames, _) => Quiet(Deliver(c, frames, false))
    case HeadersToDecode(_, sid) => AnswerHeaders(c, sid, hpack)
    case TrailersToDecode(_, declared, sid) => AnswerTrailers(c, sid, declared, hpack)
    case Failure(e) => Quiet(Raise(c, e))
    case ActiveStreamCount(command, _) => Quiet(c.(ctx := Count(c.ctx, command)))
  }

  /** The exchange before the loop: own SETTINGS out, the client's first frame in and acknowledged, whatever its type. */
  function Handshake(first: Frame): Option<Conn> {
    var own := Plain(FrameType.Settings(false), 0, Settings.Encode(Settings.DEFAULT_PAYLOAD));
    match Handle(FreshContext(), first)
    case Processed(ctx, _, Some(ack)) => Some(Conn(ctx.(window := INITIAL_WINDOW), [own, ack], [], Running))
    case _ => None
  }
}
