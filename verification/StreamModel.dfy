/** What each operation of a stream does to its fields and what it sends. */
module StreamModel {
  import opened Wrappers
  import opened Bytes
  import opened Frames
  import opened Messages
  import opened RequestContext

  /** RFC 7540 section 5.1. */
  datatype StreamState = Idle | Reserved | Open | HalfClosedLocal | HalfClosedRemote | Closed

  datatype DecodingState = Initial | KeepGoing | Ready | WaitingResponse | Completed

  datatype Stream = Stream(
    id: U32,
    state: StreamState,
    window: U32,
    headerFrames: seq<Frame>,
    headerState: DecodingState,
    declared: Option<set<string>>,
    trailerFrames: seq<Frame>,
    trailerState: DecodingState,
    composited: Option<Headers>,
    bodies: seq<Frame>,
    pending: seq<Frame>,
    requestEnd: bool,
    shouldTerminate: bool,
    dispatched: bool,
    responseCompleted: bool,
    endHeadersSent: bool,
    endStreamSent: bool)

  function NewStream(id: U32, window: U32): Stream {
    Stream(id, Idle, window, [], Initial, None, [], Initial, None, [], [], false, false, false, false, false, false)
  }

  // ---- frames from the client ----

  function ValidateFromClient(s: Stream, f: Frame): Option<Error> {
    if f.ty.Continuation?
       && (s.headerState.Initial? || s.trailerState.Completed?
           || (s.headerState.WaitingResponse? && s.trailerState.Initial?)
           || (s.headerState.Completed? && s.trailerState.Initial?))
    then Some(ConnectionError(ProtocolError))
    else if f.ty.Headers? && !s.headerState.Initial? && !s.trailerState.Initial?
    then Some(ConnectionError(ProtocolError))
    else
      match s.state
      case Idle =>
        if f.ty.RstStream? || f.ty.Data? || f.ty.Ping? || f.ty.Continuation? || f.ty.GoAway? || f.ty.WindowUpdate?
        then Some(ConnectionError(ProtocolError)) else None
      case HalfClosedRemote =>
        if f.ty.Data? || f.ty.Headers? || f.ty.Ping? || f.ty.GoAway? then Some(StreamError(s.id, StreamClosed)) else None
      case Closed =>
        if f.ty.Data? || f.ty.Headers? || f.ty.Ping? || f.ty.GoAway? then Some(StreamError(s.id, StreamClosed)) else None
      case _ => None
  }

  function NextFromClient(state: StreamState, f: Frame): StreamState {
    match state
    case Idle => if f.ty.Headers? then (if f.HasEndStream() then HalfClosedRemote else Open) else Idle
    case Open =>
      if f.ty.RstStream? then Closed else if f.HasEndStream() then HalfClosedRemote else Open
    case HalfClosedLocal => if f.ty.RstStream? || f.HasEndStream() then Closed else HalfClosedLocal
    case HalfClosedRemote => if f.ty.RstStream? then Closed else HalfClosedRemote
    case _ => state
  }

  function NextFromMe(state: StreamState, f: Frame): StreamState {
    match state
    case Idle => if f.ty.Headers? then (if f.HasEndStream() then HalfClosedLocal else Open) else Idle
    case Open =>
      if f.ty.RstStream? then Closed else if f.HasEndStream() then HalfClosedLocal else Open
    case HalfClosedLocal => if f.ty.RstStream? then Closed else HalfClosedLocal
    case HalfClosedRemote => if f.ty.RstStream? || f.HasEndStream() then Closed else HalfClosedRemote
    case _ => state
  }

  /** `From<(StreamState, StreamState)> for ActiveStreamCountCommand`. */
  function CommandOf(prev: StreamState, next: StreamState): CountCommand {
    match (prev, next)
    case (Idle, Open) => Increment
    case (Idle, HalfClosedRemote) => Increment
    case (Idle, HalfClosedLocal) => Increment
    case (Open, Closed) => Decrement
    case (HalfClosedRemote, Closed) => Decrement
    case (HalfClosedLocal, Closed) => Decrement
    case _ => Keep
  }

  /** The header block has already been handed to the decoder. */
  predicate TrailersInProgress(s: Stream) {
    s.headerState.WaitingResponse? || s.headerState.Completed?
  }

  function BlockProgress(f: Frame): DecodingState {
    if f.HasEndHeaders() then Ready else KeepGoing
  }

  function IncrementOf(payload: seq<Byte>): U32
    requires |payload| >= 4
  {
    Get32(payload) % TWO_31
  }

  /** The part of `handle_frame_for_request` behind its match, for an accepted frame. */
  function Store(s: Stream, f: Frame): Stream {
    match f.ty
    case Headers(_, _, _, _) =>
      if TrailersInProgress(s) then s.(trailerState := BlockProgress(f), trailerFrames := s.trailerFrames + [f])
      else s.(headerState := BlockProgress(f), headerFrames := s.headerFrames + [f])
    case Continuation(_) =>
      if TrailersInProgress(s) then s.(trailerState := BlockProgress(f), trailerFrames := s.trailerFrames + [f])
      else s.(headerState := BlockProgress(f), headerFrames := s.headerFrames + [f])
    case Data(_, _) => s.(bodies := s.bodies + [f])
    case _ => s
  }

  datatype Handled = Accepted(next: Stream, command: CountCommand) | Refused(error: Error) | Panic

  /** Everything after validation: state, end-of-request flag, then the frame itself. */
  function Admit(s: Stream, f: Frame): Handled {
    var command := CommandOf(s.state, NextFromClient(s.state, f));
    var s1 := s.(state := NextFromClient(s.state, f), requestEnd := s.requestEnd || f.HasEndStream());
    if !f.ty.WindowUpdate? then Accepted(Store(s1, f), command)
    else if |f.payload| < 4 then Panic
    else if s.window + IncrementOf(f.payload) > TWO_32 - 1 then Refused(StreamError(s.id, FlowControlError))
    else Accepted(s1.(window := s.window + IncrementOf(f.payload)), command)
  }

  function HandleFrame(s: Stream, f: Frame): Handled {
    var verdict := ValidateFromClient(s, f);
    if verdict.Some? then Refused(verdict.value) else Admit(s, f)
  }

  // ---- the four steps before each receive ----

  /** A step either moves the stream and may send one message, or ends its task. */
  datatype Move = Move(next: Stream, message: Option<ToConn>) | Crash

  predicate AllFragments(fs: seq<Frame>) {
    forall f :: f in fs ==> f.HasFragment()
  }

  function CompositeHeaders(s: Stream): Move {
    if !s.headerState.Ready? then Move(s, None)
    else if !AllFragments(s.headerFrames) then Crash
    else Move(s.(headerState := WaitingResponse, headerFrames := []), Some(HeadersToDecode(Fragments(s.headerFrames), s.id)))
  }

  function CompositeTrailers(s: Stream): Move {
    if !(s.requestEnd && s.trailerState.Ready? && s.headerState.Completed?) then Move(s, None)
    else if !AllFragments(s.trailerFrames) || s.declared.None? then Crash
    else
      Move(s.(trailerState := WaitingResponse, trailerFrames := []),
           Some(TrailersToDecode(Fragments(s.trailerFrames), s.declared.value, s.id)))
  }

  predicate ShouldDispatch(s: Stream) {
    s.requestEnd && s.headerState.Completed? && s.trailerState.Completed? && !s.dispatched && s.composited.Some?
  }

  function FirstBody(s: Stream): Option<seq<Byte>> {
    if s.bodies == [] then None else Some(s.bodies[0].payload)
  }

  function DispatchIfNeeded(s: Stream): Move {
    if !ShouldDispatch(s) then Move(s, None)
    else
      match TryFrom(s.composited.value, FirstBody(s))
      case Err(_) => Crash
      case Ok(ctx) =>
        Move(s.(composited := None, bodies := if s.bodies == [] then [] else s.bodies[1..], dispatched := true),
             Some(RequestForDispatch(ctx, s.id)))
  }

  /** `as u32` on a length. */
  function Truncate(n: nat): U32 {
    n % TWO_32
  }

  function FlowSize(f: Frame): nat {
    if f.ty.Data? then |f.payload| else 0
  }

  predicate MustWait(window: U32, f: Frame) {
    window == 0 || (window < Truncate(FlowSize(f)) && f.ty.Data?)
  }

  predicate SendableFromIdle(f: Frame) {
    f.ty.Headers? || f.ty.Priority?
  }

  function SendPending(s: Stream, f: Frame, rest: seq<Frame>): Stream {
    s.(pending := rest, state := NextFromMe(s.state, f),
       endStreamSent := s.endStreamSent || f.HasEndStream(),
       endHeadersSent := s.endHeadersSent || f.HasEndHeaders())
  }

  datatype Drained = Drained(next: Stream, frames: seq<Frame>) | Unexpected

  /** The loop of `response_to_client_if_possible`; note that it leaves the window alone. */
  function Drain(s: Stream, out: seq<Frame>): Drained
    decreases |s.pending|
  {
    if s.pending == [] || MustWait(s.window, s.pending[0]) then Drained(s, out)
    else if s.state.Idle? && !SendableFromIdle(s.pending[0]) then Unexpected
    else Drain(SendPending(s, s.pending[0], s.pending[1..]), out + [s.pending[0]])
  }

  function Respond(s: Stream): Move {
    match Drain(s, [])
    case Unexpected => Crash
    case Drained(s1, out) =>
      if out == [] then Move(s1, None)
      else
        Move(s1.(responseCompleted := s1.responseCompleted || (s1.dispatched && s1.endStreamSent && s1.endHeadersSent)),
             Some(DoResponse(out, s.id)))
  }

  // ---- the other messages ----

  predicate CanSend(window: U32, n: nat) {
    window != 0 && window >= Truncate(n)
  }

  function ResponseHeaders(id: U32, encoded: seq<Byte>): Frame {
    Plain(Headers(true, true, false, false), id, encoded)
  }

  function ResponseData(id: U32, body: Option<seq<Byte>>): Frame {
    Plain(Data(true, false), id, if body.Some? then body.value else [])
  }

  /** `handle_response_object`: the DATA frame goes out now and is debited, or waits undebited. */
  function HandleResponse(s: Stream, encoded: seq<Byte>, body: Option<seq<Byte>>): (Stream, ToConn) {
    var head, data := ResponseHeaders(s.id, encoded), ResponseData(s.id, body);
    var n := |data.payload|;
    if CanSend(s.window, n) then (s.(window := s.window - Truncate(n)), DoResponse([head, data], s.id))
    else (s.(pending := s.pending + [data]), DoResponse([head], s.id))
  }

  function HandleHeadersDecoded(s: Stream, headers: Headers, maybeTrailer: set<string>): (Stream, Option<Error>) {
    var s1 := s.(headerState := Completed,
                 declared := if maybeTrailer == {} then s.declared else Some(maybeTrailer),
                 trailerState := if maybeTrailer == {} then Completed else s.trailerState);
    if maybeTrailer == {} && s.trailerFrames != [] then (s1, Some(ConnectionError(ProtocolError)))
    else (s1.(composited := Some(headers)), None)
  }

  /** None is the `unwrap` on a missing header map. */
  function HandleTrailersDecoded(s: Stream, headers: Headers): Option<Stream> {
    if s.composited.None? then None
    else Some(s.(composited := Some(s.composited.value + headers), trailerState := Completed))
  }

  /** What one received message does: at most one message at once, at most one report afterwards. */
  datatype Reaction = Reaction(next: Stream, message: Option<ToConn>, report: Option<ToConn>) | Unwound

  function React(s: Stream, m: ToStream): Reaction {
    match m
    case FrameForRequest(f) => (
      match HandleFrame(s, f)
      case Accepted(s1, command) => Reaction(s1, None, Some(ActiveStreamCount(command, s.id)))
      case Refused(e) => Reaction(s, None, Some(Failure(e)))
      case Panic => Unwound)
    case ResponseObject(encoded, body) =>
      var (s1, message) := HandleResponse(s, encoded, body);
      Reaction(s1, Some(message), None)
    case HeadersDecoded(headers, maybeTrailer) =>
      var (s1, e) := HandleHeadersDecoded(s, headers, maybeTrailer);
      Reaction(s1, None, if e.Some? then Some(Failure(e.value)) else None)
    case TrailersDecoded(headers) =>
      match HandleTrailersDecoded(s, headers)
      case None => Unwound
      case Some(s1) => Reaction(s1, None, None)
  }

  // ---- flush ----

  /** `flush`: debits what it takes and stops at the first frame that does not fit. */
  function FlushCount(window: U32, pending: seq<Frame>): nat
    decreases pending
  {
    if pending == [] || !CanSend(window, FlowSize(pending[0])) then 0
    else 1 + FlushCount(window - Truncate(FlowSize(pending[0])), pending[1..])
  }

  function TruncatedBytes(fs: seq<Frame>): nat {
    if fs == [] then 0
    else TruncatedBytes(fs[..|fs| - 1]) + Truncate(FlowSize(fs[|fs| - 1]))
  }
}
