/** What every reachable stream task satisfies on its own, and that each of its steps keeps it. */
module StreamInvariant {
  import opened Wrappers
  import opened Bytes
  import opened Frames
  import opened Messages
  import opened RequestContext
  import opened StreamModel
  import opened System
  import HeaderBlock

  // ---- counting messages ----

  datatype Kind = KDispatch | KHeaders | KTrailers | KIncrement | KDecrement

  predicate Is(m: ToConn, k: Kind, sid: U32) {
    match k
    case KDispatch => m.RequestForDispatch? && m.sid == sid
    case KHeaders => m.HeadersToDecode? && m.sid == sid
    case KTrailers => m.TrailersToDecode? && m.sid == sid
    case KIncrement => m == ActiveStreamCount(Increment, sid)
    case KDecrement => m == ActiveStreamCount(Decrement, sid)
  }

  function Num(q: seq<ToConn>, k: Kind, sid: U32): nat {
    if q == [] then 0 else Num(q[..|q| - 1], k, sid) + (if Is(q[|q| - 1], k, sid) then 1 else 0)
  }

  lemma NumAppend(q: seq<ToConn>, m: ToConn, k: Kind, sid: U32)
    ensures Num(q + [m], k, sid) == Num(q, k, sid) + (if Is(m, k, sid) then 1 else 0)
  {
    assert (q + [m])[..|q|] == q;
  }

  // ---- logs ----

  predicate Checked(f: Frame, sid: U32) {
    f.sid == sid && Seen(f) == f && (f.ty.Headers? ==> f.params.Some?) && (f.ty.WindowUpdate? ==> |f.payload| == 4)
  }

  function InboxFrames(q: seq<ToStream>): seq<Frame> {
    if q == [] then []
    else (if q[0].FrameForRequest? then [q[0].frame] else []) + InboxFrames(q[1..])
  }

  /** The inbox holds exactly the forwarded frames not yet taken. */
  predicate Logged(id: U32, forwarded: seq<Frame>, taken: nat, inbox: seq<ToStream>, cancelled: bool) {
    && taken <= |forwarded|
    && (forall i :: 0 <= i < |forwarded| ==> Checked(forwarded[i], id))
    && (!cancelled ==> InboxFrames(inbox) == forwarded[taken..])
  }

  // ---- the first header block ----

  /** HEADERS, then CONTINUATION frames; END_HEADERS on the last frame only, and there iff closed. */
  predicate BlockShape(block: seq<Frame>, closed: bool) {
    && block != []
    && block[0].ty.Headers?
    && (forall i :: 1 <= i < |block| ==> block[i].ty.Continuation?)
    && (forall i :: 0 <= i < |block| - 1 ==> !block[i].HasEndHeaders())
    && (block[|block| - 1].HasEndHeaders() <==> closed)
  }

  predicate BlockPlaced(forwarded: seq<Frame>, first: nat, block: seq<Frame>, closed: bool) {
    if block == [] then !closed && forall i :: 0 <= i < |forwarded| ==> !forwarded[i].ty.Headers?
    else
      && first + |block| <= |forwarded|
      && block == forwarded[first..first + |block|]
      && BlockShape(block, closed)
      && (forall i :: 0 <= i < first ==> !forwarded[i].ty.Headers?)
      && (!closed ==> first + |block| == |forwarded|)
  }

  /** The decoding state says exactly how much of the block has been consumed. */
  predicate HeaderProgress(state: DecodingState, frames: seq<Frame>, first: nat, block: seq<Frame>, closed: bool, taken: nat) {
    match state
    case Initial => frames == [] && (block == [] || taken <= first)
    case KeepGoing =>
      && block != []
      && first < taken <= first + |block|
      && frames == block[..taken - first]
      && (closed ==> taken < first + |block|)
    case Ready => block != [] && closed && taken == first + |block| && frames == block
    case _ => block != [] && closed && first + |block| <= taken && frames == []
  }

  predicate InProgress(state: DecodingState) {
    state.WaitingResponse? || state.Completed?
  }

  /** One decode request at most, and its payload is the whole block. */
  predicate HeaderMessage(id: U32, state: DecodingState, block: seq<Frame>, closed: bool, sent: seq<ToConn>) {
    && AllFragments(block)
    && Num(sent, KHeaders, id) == (if InProgress(state) then 1 else 0)
    && (forall i :: 0 <= i < |sent| && sent[i].HeadersToDecode? ==> closed && sent[i] == HeadersToDecode(Fragments(block), id))
  }

  predicate PhaseOk(id: U32, state: DecodingState, phase: Phase) {
    && (state.Ready? ==> phase.AtHeaders? || phase.AtReport?)
    && (phase.AtReport? ==> phase.message.Failure? || (phase.message.ActiveStreamCount? && phase.message.sid == id))
  }

  // ---- the stream state ----

  function CountHeaders(fs: seq<Frame>): nat {
    if fs == [] then 0 else CountHeaders(fs[..|fs| - 1]) + (if fs[|fs| - 1].ty.Headers? then 1 else 0)
  }

  predicate AnyEnd(fs: seq<Frame>) {
    exists i :: 0 <= i < |fs| && fs[i].HasEndStream()
  }

  predicate AnyReset(fs: seq<Frame>) {
    exists i :: 0 <= i < |fs| && fs[i].ty.RstStream?
  }

  /** Section 5.1 as two half-connections: what the client ended, what the server ended, and a reset. */
  function StateOf(accepted: seq<Frame>, flushed: seq<Frame>): StreamState {
    if CountHeaders(accepted) == 0 then Idle
    else if AnyReset(accepted) then Closed
    else if AnyEnd(accepted) && AnyEnd(flushed) then Closed
    else if AnyEnd(accepted) then HalfClosedRemote
    else if AnyEnd(flushed) then HalfClosedLocal
    else Open
  }

  /** Nothing that opens or fills a request is accepted after its end or after a reset. */
  predicate EndsOnce(accepted: seq<Frame>) {
    forall i, j :: 0 <= i < j < |accepted| && (accepted[i].HasEndStream() || accepted[i].ty.RstStream?) ==>
      !accepted[j].ty.Data? && !accepted[j].ty.Headers?
  }

  predicate StateOk(state: StreamState, requestEnd: bool, headerState: DecodingState, trailerState: DecodingState,
                    pending: seq<Frame>, a: seq<Frame>, flushed: seq<Frame>)
  {
    && state == StateOf(a, flushed)
    && requestEnd == AnyEnd(a)
    && (headerState.Initial? <==> CountHeaders(a) == 0)
    && CountHeaders(a) <= (if trailerState.Initial? then 1 else 2)
    && (AnyEnd(a) || AnyReset(a) ==> CountHeaders(a) > 0)
    && (pending != [] || flushed != [] ==> requestEnd)
    && (!trailerState.Initial? ==> InProgress(headerState))
    && (trailerState.WaitingResponse? ==> requestEnd)
    && EndsOnce(a)
  }

  // ---- flow control ----

  function Credit(accepted: seq<Frame>): nat {
    if accepted == [] then 0
    else
      var f := accepted[|accepted| - 1];
      Credit(accepted[..|accepted| - 1]) + (if f.ty.WindowUpdate? && |f.payload| >= 4 then IncrementOf(f.payload) else 0)
  }

  /** Frames handed to the connection. */
  function OutFrames(sent: seq<ToConn>): seq<Frame> {
    if sent == [] then [] else OutFrames(sent[..|sent| - 1]) + MessageFrames(sent[|sent| - 1])
  }

  function CountData(fs: seq<Frame>): nat {
    if fs == [] then 0 else CountData(fs[..|fs| - 1]) + (if fs[|fs| - 1].ty.Data? then 1 else 0)
  }

  lemma {:induction false} CountDataAppend(a: seq<Frame>, b: seq<Frame>)
    ensures CountData(a + b) == CountData(a) + CountData(b)
  {
    if b == [] {
      assert a + b == a;
    } else {
      assert (a + b)[..|a + b| - 1] == a + b[..|b| - 1];
      CountDataAppend(a, b[..|b| - 1]);
    }
  }

  /** What the direct responses took from the window. */
  function Debit(sent: seq<ToConn>): nat {
    if sent == [] then 0
    else
      var fs := MessageFrames(sent[|sent| - 1]);
      Debit(sent[..|sent| - 1]) + (if fs != [] && fs[0].ty.Headers? then TruncatedBytes(fs) else 0)
  }

  /** A response message: headers, headers and data, or data; never more than one DATA frame, and that last. */
  predicate ResponseShape(fs: seq<Frame>) {
    && 1 <= |fs| <= 2
    && (|fs| == 2 ==> fs[0].ty.Headers? && fs[1].ty.Data?)
    && (|fs| == 1 ==> fs[0].ty.Headers? || fs[0].ty.Data?)
  }

  /** The stream's flow-control ledger. */
  predicate WindowOk(window: U32, pending: seq<Frame>, a: seq<Frame>, flushed: seq<Frame>, sent: seq<ToConn>, responses: nat) {
    && window + Debit(sent) == 65535 + Credit(a)
    && TruncatedBytes(OutFrames(sent)) <= 65535 + Credit(a)
    && CountData(OutFrames(sent)) + |pending| == responses <= 1
    && (responses == 0 ==> pending == [] && flushed == [] && OutFrames(sent) == [])
    && (pending != [] ==> |pending| == 1 && pending[0].ty.Data? && pending[0].HasEndStream() && TruncatedBytes(OutFrames(sent)) == 0)
    && (forall i :: 0 <= i < |sent| && sent[i].DoResponse? ==> ResponseShape(sent[i].frames))
  }

  /** The frames of a response, headers first. */
  function ResponseFrames(id: U32, response: Option<Response>): seq<Frame> {
    match response
    case None => []
    case Some(r) => [ResponseHeaders(id, r.0), ResponseData(id, r.1)]
  }

  /** Payload octets of the DATA frames of a list, joined. */
  function DataPayload(fs: seq<Frame>): seq<Byte> {
    if fs == [] then [] else DataPayload(fs[..|fs| - 1]) + (if fs[|fs| - 1].ty.Data? then fs[|fs| - 1].payload else [])
  }

  function BodyOctets(r: Response): seq<Byte> {
    if r.1.Some? then r.1.value else []
  }

  /**
   * The frames spell the response: HEADERS with the encoded headers whole, then DATA with the body, nothing padded, all
   * on the stream. Every frame has END_STREAM, the HEADERS frame too.
   */
  predicate Carries(fs: seq<Frame>, sid: U32, r: Response) {
    && |fs| == 2
    && fs[0].ty.Headers? && fs[0].HasEndHeaders() && !fs[0].ty.padded && !fs[0].ty.priority && fs[0].payload == r.0
    && fs[1].ty.Data? && !fs[1].ty.padded && DataPayload(fs) == BodyOctets(r)
    && forall i :: 0 <= i < |fs| ==> fs[i].sid == sid && fs[i].HasEndStream()
  }

  lemma ResponseCarries(sid: U32, r: Response)
    ensures Carries(ResponseFrames(sid, Some(r)), sid, r)
  {
    var fs := ResponseFrames(sid, Some(r));
    assert fs[..1] == [fs[0]] && fs[..1][..0] == [];
    assert DataPayload(fs[..1]) == [];
  }

  /** What was handed over and what waits are the response consumed, whole and in order. */
  predicate ResponseOk(id: U32, pending: seq<Frame>, sent: seq<ToConn>, responses: nat, response: Option<Response>) {
    && (response.Some? <==> responses > 0)
    && OutFrames(sent) + pending == ResponseFrames(id, response)
  }

  // ---- request, trailers, dispatch ----

  function MergeAll(headers: Headers, late: seq<Headers>): Headers {
    if late == [] then headers else MergeAll(headers, late[..|late| - 1]) + late[|late| - 1]
  }

  predicate NoPseudo(m: Headers) {
    forall name :: name in m ==> !HeaderBlock.IsPseudoName(name)
  }

  /** Accepted trailers are declared, and none is a pseudo-header. */
  predicate LateOk(late: seq<Headers>, declared: Option<set<string>>) {
    forall i :: 0 <= i < |late| ==> NoPseudo(late[i]) && declared.Some? && late[i].Keys <= declared.value
  }

  /** The decoder's answers and the stream's fields agree. */
  predicate RequestOk(headerState: DecodingState, trailerState: DecodingState, declared: Option<set<string>>, composited: Option<Headers>,
                      trailerFrames: seq<Frame>, reply: Option<(Headers, set<string>)>, late: seq<Headers>)
  {
    && (headerState.Completed? <==> reply.Some?)
    && (reply.None? ==> declared.None? && composited.None? && late == [] && !InProgress(trailerState))
    && (reply.Some? ==>
          && Dispatchable(reply.value.0)
          && declared == (if reply.value.1 == {} then None else Some(reply.value.1))
          && (reply.value.1 == {} ==> trailerState.Completed?)
          && (trailerState.Completed? ==> reply.value.1 == {} || late != [])
          && (composited.Some? ==> composited.value == MergeAll(reply.value.0, late))
          && (!trailerState.Completed? ==> composited.Some?))
    && LateOk(late, declared)
    && AllFragments(trailerFrames)
    && (headerState.WaitingResponse? && !trailerState.Initial? ==> trailerFrames != [])
  }

  /** A request handed over is the header block plus the accepted trailers, with the block's own target. */
  predicate BuiltFrom(ctx: Context, reply: (Headers, set<string>), late: seq<Headers>) {
    && ctx.headers == MergeAll(reply.0, late)
    && PSEUDO_NAMES <= reply.0.Keys
    && Spells(reply.0[":method"], ctx.verb)
    && ctx.path == reply.0[":path"]
    && ctx.host == reply.0[":authority"]
    && ctx.scheme == reply.0[":scheme"]
    && reply.0.Keys <= ctx.headers.Keys <= reply.0.Keys + reply.1
  }

  const PSEUDO_NAMES: set<string> := HeaderBlock.PSEUDO

  predicate DispatchOk(id: U32, dispatched: bool, requestEnd: bool, trailerState: DecodingState, composited: Option<Headers>,
                       sent: seq<ToConn>, reply: Option<(Headers, set<string>)>, late: seq<Headers>, responses: nat)
  {
    && Num(sent, KDispatch, id) == (if dispatched then 1 else 0)
    && (dispatched ==> requestEnd && reply.Some? && trailerState.Completed? && composited.None?)
    && (forall i :: 0 <= i < |sent| && sent[i].RequestForDispatch? ==>
          dispatched && reply.Some? && BuiltFrom(sent[i].ctx, reply.value, late))
    && (responses > 0 ==> dispatched)
    && (reply.Some? && reply.value.1 != {} && composited.None? ==> dispatched)
  }

  /** Without stray CONTINUATION frames a trailer block is sent to the decoder once and answered once. */
  predicate TrailerOk(id: U32, declared: Option<set<string>>, trailerState: DecodingState, sent: seq<ToConn>, late: seq<Headers>, stray: bool) {
    && (forall i :: 0 <= i < |sent| && sent[i].TrailersToDecode? ==> declared == Some(sent[i].declared))
    && (!stray ==>
          && Num(sent, KTrailers, id) == (if trailerState.WaitingResponse? || late != [] then 1 else 0)
          && |late| <= 1
          && (late != [] ==> trailerState.Completed?))
  }

  // ---- the second HEADERS frame ----

  const PROTOCOL_FAILURE := Failure(ConnectionError(ProtocolError))

  /** The failure was sent, no earlier than as message number `at`, or is about to be. */
  predicate Complained(sent: seq<ToConn>, at: nat, phase: Phase) {
    (exists i :: at <= i < |sent| && sent[i] == PROTOCOL_FAILURE) || phase == AtReport(PROTOCOL_FAILURE)
  }

  predicate SecondOk(headerState: DecodingState, trailerFrames: seq<Frame>, dispatched: bool, composited: Option<Headers>,
                     reply: Option<(Headers, set<string>)>, second: bool, secondEarly: bool, complained: bool)
  {
    && (secondEarly ==> second)
    && (second ==> InProgress(headerState))
    && (second && headerState.WaitingResponse? ==> trailerFrames != [])
    && (second && reply.Some? && reply.value.1 == {} ==> complained)
    && (secondEarly && reply.Some? && reply.value.1 == {} ==> !dispatched && composited.None?)
  }

  // ---- the body of a request ----

  function DataFrames(fs: seq<Frame>): seq<Frame> {
    if fs == [] then [] else DataFrames(fs[..|fs| - 1]) + (if fs[|fs| - 1].ty.Data? then [fs[|fs| - 1]] else [])
  }

  function FirstPayload(fs: seq<Frame>): Option<seq<Byte>> {
    if fs == [] then None else Some(fs[0].payload)
  }

  /** The request's body is the first DATA frame accepted, if any was. */
  predicate BodyOk(bodies: seq<Frame>, dispatched: bool, a: seq<Frame>, sent: seq<ToConn>) {
    && (!dispatched ==> bodies == DataFrames(a))
    && (forall i :: 0 <= i < |sent| && sent[i].RequestForDispatch? ==> sent[i].ctx.body == FirstPayload(DataFrames(a)))
  }

  // ---- the trailer block ----

  /** The last HEADERS frame of a list and the CONTINUATION frames behind it. */
  function BlockTail(fs: seq<Frame>): seq<Frame> {
    if fs == [] then []
    else
      var f := fs[|fs| - 1];
      if f.ty.Headers? then [f] else BlockTail(fs[..|fs| - 1]) + (if f.ty.Continuation? then [f] else [])
  }

  /** The trailer block is the second HEADERS frame accepted and the CONTINUATION frames accepted after it. */
  predicate TrailerFrom(trailerState: DecodingState, block: seq<Frame>, a: seq<Frame>) {
    && block == (if CountHeaders(a) == 2 then BlockTail(a) else [])
    && (trailerState.KeepGoing? || trailerState.Ready? || trailerState.WaitingResponse? ==> CountHeaders(a) == 2)
  }

  /** What the decoding state of a trailer block without stray frames says of its shape. */
  predicate TrailerShape(trailerState: DecodingState, block: seq<Frame>) {
    match trailerState
    case Initial => block == []
    case KeepGoing => BlockShape(block, false)
    case Ready => BlockShape(block, true)
    case WaitingResponse => BlockShape(block, true)
    case Completed => true
  }

  /** The trailer block is asked for whole, and is one block unless a CONTINUATION followed its end. */
  predicate TrailerBlockOk(id: U32, headerState: DecodingState, trailerState: DecodingState, trailerFrames: seq<Frame>,
                           block: seq<Frame>, sent: seq<ToConn>, stray: bool, extra: bool)
  {
    && AllFragments(block)
    && (!InProgress(headerState) ==> block == [])
    && (!stray ==>
          && (Num(sent, KTrailers, id) == 0 ==> trailerFrames == block)
          && (forall i :: 0 <= i < |sent| && sent[i].TrailersToDecode? ==> sent[i].sid == id && sent[i].payload == Fragments(block)))
    && (!stray && !extra ==>
          && TrailerShape(trailerState, block)
          && (Num(sent, KTrailers, id) > 0 ==> BlockShape(block, true)))
  }

  // ---- the active-stream count ----

  function Due(phase: Phase, command: CountCommand, id: U32): nat {
    if phase == AtReport(ActiveStreamCount(command, id)) then 1 else 0
  }

  predicate CountOk(id: U32, state: StreamState, phase: Phase, sent: seq<ToConn>) {
    && Num(sent, KIncrement, id) + Due(phase, Increment, id) == (if state.Idle? then 0 else 1)
    && Num(sent, KDecrement, id) + Due(phase, Decrement, id) <= (if state.Closed? then 1 else 0)
  }

  /** Only a stream's own messages, or failures. */
  predicate OwnMessages(id: U32, sent: seq<ToConn>) {
    forall i :: 0 <= i < |sent| ==> sent[i].Failure? || sent[i].sid == id
  }

  predicate BlockInv(s: Stream, phase: Phase, inbox: seq<ToStream>, cancelled: bool, h: History) {
    && Logged(s.id, h.forwarded, h.taken, inbox, cancelled)
    && BlockPlaced(h.forwarded, h.first, h.block, h.closed)
    && HeaderProgress(s.headerState, s.headerFrames, h.first, h.block, h.closed, h.taken)
    && HeaderMessage(s.id, s.headerState, h.block, h.closed, h.sent)
    && PhaseOk(s.id, s.headerState, phase)
  }

  predicate RequestInv(s: Stream, phase: Phase, h: History) {
    && RequestOk(s.headerState, s.trailerState, s.declared, s.composited, s.trailerFrames, h.reply, h.lateReplies)
    && DispatchOk(s.id, s.dispatched, s.requestEnd, s.trailerState, s.composited, h.sent, h.reply, h.lateReplies, h.responses)
    && TrailerOk(s.id, s.declared, s.trailerState, h.sent, h.lateReplies, h.stray)
    && SecondOk(s.headerState, s.trailerFrames, s.dispatched, s.composited, h.reply, h.second, h.secondEarly, Complained(h.sent, h.secondAt, phase))
    && h.secondAt <= |h.sent|
  }

  predicate ContentInv(s: Stream, h: History) {
    && BodyOk(s.bodies, s.dispatched, h.accepted, h.sent)
    && TrailerFrom(s.trailerState, h.trailerBlock, h.accepted)
    && TrailerBlockOk(s.id, s.headerState, s.trailerState, s.trailerFrames, h.trailerBlock, h.sent, h.stray, h.extra)
  }

  /** A task fails on a second answer to its trailers, after it has used up the first. */
  predicate FailedOk(id: U32, phase: Phase, dispatched: bool, sent: seq<ToConn>, late: nat, stray: bool) {
    phase.Failed? ==> stray && dispatched && 1 <= late < Num(sent, KTrailers, id)
  }

  predicate FlowInv(s: Stream, phase: Phase, h: History) {
    && StateOk(s.state, s.requestEnd, s.headerState, s.trailerState, s.pending, h.accepted, h.flushed)
    && WindowOk(s.window, s.pending, h.accepted, h.flushed, h.sent, h.responses)
    && ResponseOk(s.id, s.pending, h.sent, h.responses, h.response)
    && CountOk(s.id, s.state, phase, h.sent)
    && OwnMessages(s.id, h.sent)
    && FailedOk(s.id, phase, s.dispatched, h.sent, |h.lateReplies|, h.stray)
  }

  predicate LocalInv(t: Task) {
    Holds(t.s, t.phase, t.inbox, t.cancelled, t.h)
  }

  /** What the rest of the system guarantees about the next message. */
  predicate HeadOk(t: Task) {
    t.inbox != [] ==>
      match t.inbox[0]
      case FrameForRequest(_) => true
      case ResponseObject(_, _) => t.s.dispatched && t.h.responses == 0
      case HeadersDecoded(headers, _) => t.s.headerState.WaitingResponse? && Dispatchable(headers)
      case TrailersDecoded(headers) =>
        && t.s.declared.Some? && headers.Keys <= t.s.declared.value && NoPseudo(headers)
        && Num(t.h.sent, KTrailers, t.s.id) > |t.h.lateReplies|
  }

  lemma NewTaskInv(sid: U32)
    ensures LocalInv(NewTask(sid))
  {
    hide BlockInv, RequestInv, FlowInv, ContentInv;
    var t := NewTask(sid);
    assert BlockInv(t.s, t.phase, t.inbox, t.cancelled, t.h) by { NewBlock(sid); }
    assert RequestInv(t.s, t.phase, t.h) by { NewRequest(sid); }
    assert FlowInv(t.s, t.phase, t.h) by { NewFlow(sid); }
    assert ContentInv(t.s, t.h) by { NewContent(sid); }
  }

  lemma NewBlock(sid: U32)
    ensures var t := NewTask(sid); BlockInv(t.s, t.phase, t.inbox, t.cancelled, t.h)
  {}

  lemma NewRequest(sid: U32)
    ensures var t := NewTask(sid); RequestInv(t.s, t.phase, t.h)
  {}

  lemma NewFlow(sid: U32)
    ensures var t := NewTask(sid); FlowInv(t.s, t.phase, t.h)
  {
    hide StateOk;
    NewState(NewTask(sid).s, NewTask(sid).h);
  }

  lemma NewState(s: Stream, h: History)
    requires s.state.Idle? && !s.requestEnd && s.headerState.Initial? && s.trailerState.Initial? && s.pending == []
    requires h.accepted == [] && h.flushed == []
    ensures StateOk(s.state, s.requestEnd, s.headerState, s.trailerState, s.pending, h.accepted, h.flushed)
  {}

  lemma NewContent(sid: U32)
    ensures var t := NewTask(sid); ContentInv(t.s, t.h)
  {}

  // ---- appending to the logs ----

  lemma OutAppend(sent: seq<ToConn>, m: ToConn)
    ensures OutFrames(sent + [m]) == OutFrames(sent) + MessageFrames(m)
    ensures Debit(sent + [m]) == Debit(sent) + (if MessageFrames(m) != [] && MessageFrames(m)[0].ty.Headers? then TruncatedBytes(MessageFrames(m)) else 0)
  {
    assert (sent + [m])[..|sent|] == sent;
  }

  lemma AcceptedAppend(a: seq<Frame>, f: Frame)
    ensures CountHeaders(a + [f]) == CountHeaders(a) + (if f.ty.Headers? then 1 else 0)
    ensures AnyEnd(a + [f]) <==> AnyEnd(a) || f.HasEndStream()
    ensures AnyReset(a + [f]) <==> AnyReset(a) || f.ty.RstStream?
    ensures Credit(a + [f]) == Credit(a) + (if f.ty.WindowUpdate? && |f.payload| >= 4 then IncrementOf(f.payload) else 0)
  {
    assert (a + [f])[..|a|] == a;
    assert (a + [f])[|a|] == f;
    assert forall i :: 0 <= i < |a| ==> (a + [f])[i] == a[i];
  }

  lemma {:induction false} TruncatedAppend(a: seq<Frame>, b: seq<Frame>)
    ensures TruncatedBytes(a + b) == TruncatedBytes(a) + TruncatedBytes(b)
  {
    if b == [] {
      assert a + b == a;
    } else {
      assert (a + b)[..|a + b| - 1] == a + b[..|b| - 1];
      TruncatedAppend(a, b[..|b| - 1]);
    }
  }

  // ---- a sent message of one kind leaves the other conditions alone ----

  lemma HeaderMessageQuiet(id: U32, state: DecodingState, block: seq<Frame>, closed: bool, sent: seq<ToConn>, m: ToConn)
    requires HeaderMessage(id, state, block, closed, sent) && !m.HeadersToDecode?
    ensures HeaderMessage(id, state, block, closed, sent + [m])
  {
    NumAppend(sent, m, KHeaders, id);
    hide Num, AllFragments, Fragments;
  }

  lemma WindowQuiet(window: U32, pending: seq<Frame>, a: seq<Frame>, flushed: seq<Frame>, sent: seq<ToConn>, responses: nat, m: ToConn)
    requires WindowOk(window, pending, a, flushed, sent, responses) && !m.DoResponse?
    ensures WindowOk(window, pending, a, flushed, sent + [m], responses)
  {
    OutAppend(sent, m);
    hide OutFrames, Debit, TruncatedBytes, CountData, Credit;
    assert OutFrames(sent) + [] == OutFrames(sent);
  }

  lemma ResponseQuiet(id: U32, pending: seq<Frame>, sent: seq<ToConn>, responses: nat, response: Option<Response>, m: ToConn)
    requires ResponseOk(id, pending, sent, responses, response) && !m.DoResponse?
    ensures ResponseOk(id, pending, sent + [m], responses, response)
  {
    OutAppend(sent, m);
    hide OutFrames, Debit, ResponseFrames;
    assert OutFrames(sent) + [] == OutFrames(sent);
  }

  lemma DispatchQuiet(id: U32, dispatched: bool, requestEnd: bool, trailerState: DecodingState, composited: Option<Headers>,
                      sent: seq<ToConn>, reply: Option<(Headers, set<string>)>, late: seq<Headers>, responses: nat, m: ToConn)
    requires DispatchOk(id, dispatched, requestEnd, trailerState, composited, sent, reply, late, responses) && !m.RequestForDispatch?
    ensures DispatchOk(id, dispatched, requestEnd, trailerState, composited, sent + [m], reply, late, responses)
  {
    NumAppend(sent, m, KDispatch, id);
    hide Num, BuiltFrom;
  }

  lemma TrailerQuiet(id: U32, declared: Option<set<string>>, trailerState: DecodingState, sent: seq<ToConn>, late: seq<Headers>, stray: bool, m: ToConn)
    requires TrailerOk(id, declared, trailerState, sent, late, stray) && !m.TrailersToDecode?
    ensures TrailerOk(id, declared, trailerState, sent + [m], late, stray)
  {
    NumAppend(sent, m, KTrailers, id);
    hide Num;
  }

  lemma CountQuiet(id: U32, state: StreamState, phase: Phase, next: Phase, sent: seq<ToConn>, m: ToConn)
    requires CountOk(id, state, phase, sent) && !m.ActiveStreamCount? && !phase.AtReport? && !next.AtReport?
    ensures CountOk(id, state, next, sent + [m])
  {
    NumAppend(sent, m, KIncrement, id);
    NumAppend(sent, m, KDecrement, id);
    hide Num;
  }

  lemma OwnAppend(id: U32, sent: seq<ToConn>, m: ToConn)
    requires OwnMessages(id, sent) && (m.Failure? || m.sid == id)
    ensures OwnMessages(id, sent + [m])
  {}

  lemma ComplainedQuiet(sent: seq<ToConn>, at: nat, phase: Phase, next: Phase, m: ToConn)
    requires phase.AtReport? ==> phase.message == m
    requires phase.AtReport? && at > |sent| ==> m != PROTOCOL_FAILURE
    requires Complained(sent, at, phase)
    ensures Complained(sent + [m], at, next)
  {
    if phase == AtReport(PROTOCOL_FAILURE) {
      assert (sent + [m])[|sent|] == PROTOCOL_FAILURE;
    } else {
      var i :| at <= i < |sent| && sent[i] == PROTOCOL_FAILURE;
      assert (sent + [m])[i] == PROTOCOL_FAILURE;
    }
  }

  lemma SecondQuiet(hs: DecodingState, trailerFrames: seq<Frame>, dispatched: bool, composited: Option<Headers>,
                    reply: Option<(Headers, set<string>)>, second: bool, secondEarly: bool, c: bool, c1: bool)
    requires SecondOk(hs, trailerFrames, dispatched, composited, reply, second, secondEarly, c) && (c ==> c1)
    ensures SecondOk(hs, trailerFrames, dispatched, composited, reply, second, secondEarly, c1)
  {}

  lemma BodyQuiet(bodies: seq<Frame>, dispatched: bool, a: seq<Frame>, sent: seq<ToConn>, m: ToConn)
    requires BodyOk(bodies, dispatched, a, sent) && !m.RequestForDispatch?
    ensures BodyOk(bodies, dispatched, a, sent + [m])
  {
    hide DataFrames, FirstPayload;
  }

  lemma TrailerBlockQuiet(id: U32, hs: DecodingState, ts: DecodingState, trailerFrames: seq<Frame>, block: seq<Frame>,
                          sent: seq<ToConn>, stray: bool, extra: bool, m: ToConn)
    requires TrailerBlockOk(id, hs, ts, trailerFrames, block, sent, stray, extra) && !m.TrailersToDecode?
    ensures TrailerBlockOk(id, hs, ts, trailerFrames, block, sent + [m], stray, extra)
  {
    NumAppend(sent, m, KTrailers, id);
    hide Num, BlockShape, TrailerShape;
  }

  lemma FailedNot(id: U32, phase: Phase, dispatched: bool, sent: seq<ToConn>, late: nat, stray: bool)
    requires !phase.Failed?
    ensures FailedOk(id, phase, dispatched, sent, late, stray)
  {}

  /** A message that is neither a dispatch request nor a request for trailers leaves the contents alone. */
  lemma ContentQuiet(s: Stream, h: History, m: ToConn)
    requires ContentInv(s, h) && !m.RequestForDispatch? && !m.TrailersToDecode?
    ensures ContentInv(s, h.(sent := h.sent + [m]))
  {
    hide BodyOk, TrailerFrom, TrailerBlockOk;
    BodyQuiet(s.bodies, s.dispatched, h.accepted, h.sent, m);
    TrailerBlockQuiet(s.id, s.headerState, s.trailerState, s.trailerFrames, h.trailerBlock, h.sent, h.stray, h.extra, m);
  }

  /** The part of the invariant that a message without a window, a dispatch or a count in it leaves alone. */
  lemma FlowQuiet(s: Stream, phase: Phase, next: Phase, h: History, m: ToConn)
    requires FlowInv(s, phase, h) && !phase.AtReport? && !next.AtReport? && !next.Failed?
    requires !m.DoResponse? && !m.ActiveStreamCount? && (m.Failure? || m.sid == s.id)
    ensures FlowInv(s, next, h.(sent := h.sent + [m]))
  {
    hide StateOk, WindowOk, ResponseOk, CountOk, OwnMessages, FailedOk;
    WindowQuiet(s.window, s.pending, h.accepted, h.flushed, h.sent, h.responses, m);
    ResponseQuiet(s.id, s.pending, h.sent, h.responses, h.response, m);
    CountQuiet(s.id, s.state, phase, next, h.sent, m);
    OwnAppend(s.id, h.sent, m);
    FailedNot(s.id, next, s.dispatched, h.sent + [m], |h.lateReplies|, h.stray);
  }

  lemma BlockQuiet(s: Stream, phase: Phase, next: Phase, inbox: seq<ToStream>, cancelled: bool, h: History, m: ToConn)
    requires BlockInv(s, phase, inbox, cancelled, h) && !m.HeadersToDecode?
    requires PhaseOk(s.id, s.headerState, next)
    ensures BlockInv(s, next, inbox, cancelled, h.(sent := h.sent + [m]))
  {
    hide Logged, BlockPlaced, HeaderProgress, HeaderMessage, PhaseOk;
    HeaderMessageQuiet(s.id, s.headerState, h.block, h.closed, h.sent, m);
  }

  lemma RequestQuiet(s: Stream, phase: Phase, next: Phase, h: History, m: ToConn)
    requires RequestInv(s, phase, h) && !m.RequestForDispatch? && !m.TrailersToDecode?
    requires phase.AtReport? ==> phase.message == m
    ensures RequestInv(s, next, h.(sent := h.sent + [m]))
  {
    hide RequestOk, DispatchOk, TrailerOk, SecondOk, Complained;
    DispatchQuiet(s.id, s.dispatched, s.requestEnd, s.trailerState, s.composited, h.sent, h.reply, h.lateReplies, h.responses, m);
    TrailerQuiet(s.id, s.declared, s.trailerState, h.sent, h.lateReplies, h.stray, m);
    var c, c1 := Complained(h.sent, h.secondAt, phase), Complained(h.sent + [m], h.secondAt, next);
    if c {
      ComplainedQuiet(h.sent, h.secondAt, phase, next, m);
    }
    SecondQuiet(s.headerState, s.trailerFrames, s.dispatched, s.composited, h.reply, h.second, h.secondEarly, c, c1);
  }

  // ---- before each receive ----

  predicate Holds(s: Stream, phase: Phase, inbox: seq<ToStream>, cancelled: bool, h: History) {
    BlockInv(s, phase, inbox, cancelled, h) && RequestInv(s, phase, h) && FlowInv(s, phase, h) && ContentInv(s, h)
  }

  /** The invariant of a task, taken apart and put together. */
  lemma Parts(t: Task)
    ensures LocalInv(t) <==>
      BlockInv(t.s, t.phase, t.inbox, t.cancelled, t.h) && RequestInv(t.s, t.phase, t.h) && FlowInv(t.s, t.phase, t.h) && ContentInv(t.s, t.h)
  {
    hide BlockInv, RequestInv, FlowInv, ContentInv;
  }

  lemma BlockIdle(s: Stream, phase: Phase, next: Phase, inbox: seq<ToStream>, cancelled: bool, h: History)
    requires BlockInv(s, phase, inbox, cancelled, h) && !next.AtReport? && (s.headerState.Ready? ==> next.AtHeaders?)
    ensures BlockInv(s, next, inbox, cancelled, h)
  {
    hide Logged, BlockPlaced, HeaderProgress, HeaderMessage;
  }

  lemma RequestIdle(s: Stream, phase: Phase, next: Phase, h: History)
    requires RequestInv(s, phase, h) && !phase.AtReport?
    ensures RequestInv(s, next, h)
  {
    hide RequestOk, DispatchOk, TrailerOk, SecondOk;
    SecondQuiet(s.headerState, s.trailerFrames, s.dispatched, s.composited, h.reply, h.second, h.secondEarly,
                Complained(h.sent, h.secondAt, phase), Complained(h.sent, h.secondAt, next));
  }

  lemma CountIdle(id: U32, state: StreamState, phase: Phase, next: Phase, sent: seq<ToConn>)
    requires CountOk(id, state, phase, sent) && !phase.AtReport? && !next.AtReport?
    ensures CountOk(id, state, next, sent)
  {
    hide Num;
  }

  lemma FlowIdle(s: Stream, phase: Phase, next: Phase, h: History)
    requires FlowInv(s, phase, h) && !phase.AtReport? && !next.AtReport? && !next.Failed?
    ensures FlowInv(s, next, h)
  {
    hide StateOk, WindowOk, ResponseOk, CountOk, OwnMessages, FailedOk;
    CountIdle(s.id, s.state, phase, next, h.sent);
    FailedNot(s.id, next, s.dispatched, h.sent, |h.lateReplies|, h.stray);
  }

  /** A step that neither changes the stream nor sends anything. */
  lemma IdleStep(t: Task, next: Phase)
    requires LocalInv(t) && !t.phase.AtReport? && !next.AtReport? && !next.Failed?
    requires t.s.headerState.Ready? ==> next.AtHeaders?
    ensures LocalInv(t.(phase := next))
  {
    hide *;
    Parts(t);
    BlockIdle(t.s, t.phase, next, t.inbox, t.cancelled, t.h);
    RequestIdle(t.s, t.phase, next, t.h);
    FlowIdle(t.s, t.phase, next, t.h);
    Parts(t.(phase := next));
  }

  lemma NotReady(t: Task)
    requires LocalInv(t) && !t.phase.AtHeaders? && !t.phase.AtReport?
    ensures !t.s.headerState.Ready?
  {
    Parts(t);
    hide LocalInv, Logged, BlockPlaced, HeaderProgress, HeaderMessage, RequestInv, FlowInv, ContentInv;
  }

  /** What one of the four moves makes of the task. */
  lemma MoveMade(t: Task, m: Move, next: Phase)
    requires CanStep(t, false) && TaskStep(t, false) == Advance(t, m, next) && m.Move?
    ensures m.message.None? ==> TaskStep(t, false).task == t.(s := m.next, phase := next)
    ensures m.message.Some? ==>
      TaskStep(t, false).task == t.(s := m.next, phase := next, h := t.h.(sent := t.h.sent + [m.message.value]))
  {
    hide TaskStep;
  }

  // ---- the header block is handed to the decoder ----

  function AfterHeaders(s: Stream): Stream {
    s.(headerState := WaitingResponse, headerFrames := [])
  }

  lemma HeadersPhaseBlock(s: Stream, inbox: seq<ToStream>, cancelled: bool, h: History, m: ToConn)
    requires BlockInv(s, AtHeaders, inbox, cancelled, h) && s.headerState.Ready?
    requires m == HeadersToDecode(Fragments(h.block), s.id)
    ensures BlockInv(AfterHeaders(s), AtTrailers, inbox, cancelled, h.(sent := h.sent + [m]))
  {
    NumAppend(h.sent, m, KHeaders, s.id);
    hide Logged, BlockPlaced, Num;
  }

  lemma StateAsked(state: StreamState, requestEnd: bool, ts: DecodingState, pending: seq<Frame>, a: seq<Frame>, flushed: seq<Frame>)
    requires StateOk(state, requestEnd, Ready, ts, pending, a, flushed)
    ensures ts.Initial? && StateOk(state, requestEnd, WaitingResponse, ts, pending, a, flushed)
  {
    hide EndsOnce;
  }

  lemma RequestAsked(ts: DecodingState, declared: Option<set<string>>, composited: Option<Headers>, trailerFrames: seq<Frame>,
                     reply: Option<(Headers, set<string>)>, late: seq<Headers>)
    requires RequestOk(Ready, ts, declared, composited, trailerFrames, reply, late) && ts.Initial?
    ensures RequestOk(WaitingResponse, ts, declared, composited, trailerFrames, reply, late)
  {
    hide Dispatchable, NoPseudo, MergeAll, AllFragments;
  }

  lemma SecondAsked(trailerFrames: seq<Frame>, dispatched: bool, composited: Option<Headers>, reply: Option<(Headers, set<string>)>,
                    second: bool, secondEarly: bool, c: bool)
    requires SecondOk(Ready, trailerFrames, dispatched, composited, reply, second, secondEarly, c)
    ensures SecondOk(WaitingResponse, trailerFrames, dispatched, composited, reply, second, secondEarly, c)
  {}

  lemma TrailerBlockAsked(id: U32, trailerFrames: seq<Frame>, block: seq<Frame>, sent: seq<ToConn>, stray: bool, extra: bool)
    requires TrailerBlockOk(id, Ready, Initial, trailerFrames, block, sent, stray, extra)
    ensures TrailerBlockOk(id, WaitingResponse, Initial, trailerFrames, block, sent, stray, extra)
  {}

  lemma HeadersPhaseRequest(s: Stream, h: History)
    requires RequestInv(s, AtHeaders, h) && ContentInv(s, h) && s.headerState.Ready? && s.trailerState.Initial?
    ensures RequestInv(AfterHeaders(s), AtHeaders, h) && ContentInv(AfterHeaders(s), h)
  {
    hide RequestOk, DispatchOk, TrailerOk, SecondOk, Complained, BodyOk, TrailerFrom, TrailerBlockOk;
    RequestAsked(s.trailerState, s.declared, s.composited, s.trailerFrames, h.reply, h.lateReplies);
    SecondAsked(s.trailerFrames, s.dispatched, s.composited, h.reply, h.second, h.secondEarly, Complained(h.sent, h.secondAt, AtHeaders));
    TrailerBlockAsked(s.id, s.trailerFrames, h.trailerBlock, h.sent, h.stray, h.extra);
  }

  lemma HeadersPhaseFlow(s: Stream, h: History)
    requires FlowInv(s, AtHeaders, h) && s.headerState.Ready?
    ensures s.trailerState.Initial?
    ensures FlowInv(AfterHeaders(s), AtHeaders, h) && AfterHeaders(s).id == s.id
  {
    hide StateOk, WindowOk, ResponseOk, CountOk, OwnMessages, FailedOk;
    StateAsked(s.state, s.requestEnd, s.trailerState, s.pending, h.accepted, h.flushed);
  }

  lemma HeadersMove(t: Task)
    requires t.phase.AtHeaders? && BlockInv(t.s, t.phase, t.inbox, t.cancelled, t.h)
    ensures CanStep(t, false) && TaskStep(t, false) == Advance(t, CompositeHeaders(t.s), AtTrailers)
    ensures CompositeHeaders(t.s) ==
      if t.s.headerState.Ready? then Move(AfterHeaders(t.s), Some(HeadersToDecode(Fragments(t.h.block), t.s.id))) else Move(t.s, None)
  {
    hide Logged, BlockPlaced, PhaseOk;
  }

  lemma HeadersPhase(t: Task)
    requires LocalInv(t) && t.phase.AtHeaders?
    ensures LocalInv(TaskStep(t, false).task)
  {
    hide *;
    Parts(t);
    HeadersMove(t);
    MoveMade(t, CompositeHeaders(t.s), AtTrailers);
    if t.s.headerState.Ready? {
      var m := CompositeHeaders(t.s).message.value;
      HeadersPhaseBlock(t.s, t.inbox, t.cancelled, t.h, m);
      HeadersPhaseFlow(t.s, t.h);
      HeadersPhaseRequest(t.s, t.h);
      FlowQuiet(AfterHeaders(t.s), AtHeaders, AtTrailers, t.h, m);
      RequestQuiet(AfterHeaders(t.s), AtHeaders, AtTrailers, t.h, m);
      ContentQuiet(AfterHeaders(t.s), t.h, m);
      Parts(TaskStep(t, false).task);
    } else {
      IdleStep(t, AtTrailers);
    }
  }

  // ---- a trailer block is handed to the decoder ----

  predicate ShouldAskTrailers(s: Stream) {
    s.requestEnd && s.trailerState.Ready? && s.headerState.Completed?
  }

  function AfterTrailers(s: Stream): Stream {
    s.(trailerState := WaitingResponse, trailerFrames := [])
  }

  lemma TrailersAskable(s: Stream, h: History)
    requires RequestInv(s, AtTrailers, h) && ShouldAskTrailers(s)
    ensures AllFragments(s.trailerFrames) && s.declared.Some?
  {
    hide DispatchOk, TrailerOk, SecondOk, Dispatchable, NoPseudo, MergeAll;
  }

  lemma RequestOfTrailers(declared: Option<set<string>>, composited: Option<Headers>, trailerFrames: seq<Frame>,
                          reply: Option<(Headers, set<string>)>, late: seq<Headers>)
    requires RequestOk(Completed, Ready, declared, composited, trailerFrames, reply, late)
    ensures RequestOk(Completed, WaitingResponse, declared, composited, [], reply, late)
  {
    assert AllFragments([]);
    hide Dispatchable, NoPseudo, MergeAll, AllFragments;
  }

  lemma DispatchOfTrailers(s: Stream, h: History, m: ToConn)
    requires DispatchOk(s.id, s.dispatched, s.requestEnd, Ready, s.composited, h.sent, h.reply, h.lateReplies, h.responses)
    requires m.TrailersToDecode?
    ensures DispatchOk(s.id, s.dispatched, s.requestEnd, WaitingResponse, s.composited, h.sent + [m], h.reply, h.lateReplies, h.responses)
  {
    NumAppend(h.sent, m, KDispatch, s.id);
    hide Num, BuiltFrom;
  }

  lemma TrailerAsked(id: U32, declared: Option<set<string>>, sent: seq<ToConn>, late: seq<Headers>, stray: bool, m: ToConn)
    requires TrailerOk(id, declared, Ready, sent, late, stray)
    requires m.TrailersToDecode? && m.sid == id && declared == Some(m.declared)
    ensures TrailerOk(id, declared, WaitingResponse, sent + [m], late, stray)
  {
    NumAppend(sent, m, KTrailers, id);
    hide Num;
  }

  lemma SecondOfTrailers(s: Stream, h: History, c: bool)
    requires SecondOk(Completed, s.trailerFrames, s.dispatched, s.composited, h.reply, h.second, h.secondEarly, c)
    ensures SecondOk(Completed, [], s.dispatched, s.composited, h.reply, h.second, h.secondEarly, c)
  {}

  lemma TrailersPhaseRequest(s: Stream, h: History, m: ToConn)
    requires RequestInv(s, AtTrailers, h) && ShouldAskTrailers(s)
    requires m.TrailersToDecode? && m.sid == s.id && s.declared == Some(m.declared)
    ensures RequestInv(AfterTrailers(s), AtDispatch, h.(sent := h.sent + [m]))
  {
    hide RequestOk, DispatchOk, TrailerOk, SecondOk, Complained;
    RequestOfTrailers(s.declared, s.composited, s.trailerFrames, h.reply, h.lateReplies);
    DispatchOfTrailers(s, h, m);
    TrailerAsked(s.id, s.declared, h.sent, h.lateReplies, h.stray, m);
    var c, c1 := Complained(h.sent, h.secondAt, AtTrailers), Complained(h.sent + [m], h.secondAt, AtDispatch);
    if c {
      ComplainedQuiet(h.sent, h.secondAt, AtTrailers, AtDispatch, m);
    }
    SecondOfTrailers(s, h, c);
    SecondQuiet(Completed, [], s.dispatched, s.composited, h.reply, h.second, h.secondEarly, c, c1);
  }

  lemma StateOfTrailers(state: StreamState, requestEnd: bool, pending: seq<Frame>, a: seq<Frame>, flushed: seq<Frame>)
    requires StateOk(state, requestEnd, Completed, Ready, pending, a, flushed) && requestEnd
    ensures StateOk(state, requestEnd, Completed, WaitingResponse, pending, a, flushed)
  {
    hide EndsOnce;
  }

  lemma TrailersPhaseFlow(s: Stream, h: History)
    requires FlowInv(s, AtTrailers, h) && ShouldAskTrailers(s)
    ensures FlowInv(AfterTrailers(s), AtTrailers, h) && AfterTrailers(s).id == s.id
  {
    hide StateOk, WindowOk, ResponseOk, CountOk, OwnMessages, FailedOk;
    StateOfTrailers(s.state, s.requestEnd, s.pending, h.accepted, h.flushed);
  }

  lemma TrailersPhaseBlock(s: Stream, inbox: seq<ToStream>, cancelled: bool, h: History)
    requires BlockInv(s, AtTrailers, inbox, cancelled, h)
    ensures BlockInv(AfterTrailers(s), AtTrailers, inbox, cancelled, h)
    ensures PhaseOk(AfterTrailers(s).id, AfterTrailers(s).headerState, AtDispatch)
  {
    hide Logged, BlockPlaced, HeaderProgress, HeaderMessage;
  }

  /** A complete trailer block without stray frames has not been asked for. */
  lemma NotAskedYet(id: U32, declared: Option<set<string>>, trailerFrames: seq<Frame>, block: seq<Frame>, sent: seq<ToConn>, late: seq<Headers>, extra: bool)
    requires TrailerBlockOk(id, Completed, Ready, trailerFrames, block, sent, false, extra)
    requires TrailerOk(id, declared, Ready, sent, late, false)
    ensures trailerFrames == block && Num(sent, KTrailers, id) == 0
    ensures forall i :: 0 <= i < |sent| ==> !sent[i].TrailersToDecode?
  {
    NoneSent(sent, KTrailers, id);
    hide Num, BlockShape, Fragments, AllFragments;
  }

  lemma TrailerBlockSent(id: U32, declared: set<string>, trailerFrames: seq<Frame>, block: seq<Frame>, sent: seq<ToConn>, late: seq<Headers>,
                         stray: bool, extra: bool)
    requires TrailerBlockOk(id, Completed, Ready, trailerFrames, block, sent, stray, extra) && AllFragments(trailerFrames)
    requires TrailerOk(id, Some(declared), Ready, sent, late, stray)
    ensures TrailerBlockOk(id, Completed, WaitingResponse, [], block, sent + [TrailersToDecode(Fragments(trailerFrames), declared, id)], stray, extra)
  {
    hide Num, BlockShape, Fragments, TrailerOk;
    var m := TrailersToDecode(Fragments(trailerFrames), declared, id);
    NumAppend(sent, m, KTrailers, id);
    if !stray {
      NotAskedYet(id, Some(declared), trailerFrames, block, sent, late, extra);
    }
  }

  /** A count of zero means that there is no such message. */
  lemma {:induction false} NoneSent(q: seq<ToConn>, k: Kind, sid: U32)
    ensures Num(q, k, sid) == 0 ==> forall i :: 0 <= i < |q| ==> !Is(q[i], k, sid)
  {
    if q != [] {
      NoneSent(q[..|q| - 1], k, sid);
    }
  }

  lemma TrailersPhaseContent(s: Stream, h: History, m: ToConn)
    requires ContentInv(s, h) && RequestInv(s, AtTrailers, h) && ShouldAskTrailers(s) && s.declared.Some? && AllFragments(s.trailerFrames)
    requires m == TrailersToDecode(Fragments(s.trailerFrames), s.declared.value, s.id)
    ensures ContentInv(AfterTrailers(s), h.(sent := h.sent + [m]))
  {
    assert TrailerFrom(WaitingResponse, h.trailerBlock, h.accepted);
    hide BodyOk, TrailerFrom, TrailerBlockOk, RequestOk, DispatchOk, TrailerOk, SecondOk, Complained, Fragments;
    BodyQuiet(s.bodies, s.dispatched, h.accepted, h.sent, m);
    TrailerBlockSent(s.id, s.declared.value, s.trailerFrames, h.trailerBlock, h.sent, h.lateReplies, h.stray, h.extra);
  }

  lemma TrailersMove(t: Task)
    requires t.phase.AtTrailers? && RequestInv(t.s, t.phase, t.h)
    ensures CanStep(t, false) && TaskStep(t, false) == Advance(t, CompositeTrailers(t.s), AtDispatch)
    ensures ShouldAskTrailers(t.s) ==>
      && AllFragments(t.s.trailerFrames) && t.s.declared.Some?
      && CompositeTrailers(t.s) == Move(AfterTrailers(t.s), Some(TrailersToDecode(Fragments(t.s.trailerFrames), t.s.declared.value, t.s.id)))
    ensures !ShouldAskTrailers(t.s) ==> CompositeTrailers(t.s) == Move(t.s, None)
  {
    hide RequestInv;
    if ShouldAskTrailers(t.s) {
      TrailersAskable(t.s, t.h);
    }
  }

  lemma TrailersPhase(t: Task)
    requires LocalInv(t) && t.phase.AtTrailers?
    ensures LocalInv(TaskStep(t, false).task)
  {
    hide *;
    Parts(t);
    NotReady(t);
    TrailersMove(t);
    MoveMade(t, CompositeTrailers(t.s), AtDispatch);
    if ShouldAskTrailers(t.s) {
      var m := CompositeTrailers(t.s).message.value;
      TrailersPhaseRequest(t.s, t.h, m);
      TrailersPhaseContent(t.s, t.h, m);
      TrailersPhaseFlow(t.s, t.h);
      FlowQuiet(AfterTrailers(t.s), AtTrailers, AtDispatch, t.h, m);
      TrailersPhaseBlock(t.s, t.inbox, t.cancelled, t.h);
      BlockQuiet(AfterTrailers(t.s), AtTrailers, AtDispatch, t.inbox, t.cancelled, t.h, m);
      Parts(TaskStep(t, false).task);
    } else {
      IdleStep(t, AtDispatch);
    }
  }

  // ---- the request is dispatched ----

  lemma {:induction false} MergedKeys(headers: Headers, late: seq<Headers>, declared: set<string>)
    requires forall i :: 0 <= i < |late| ==> NoPseudo(late[i]) && late[i].Keys <= declared
    ensures headers.Keys <= MergeAll(headers, late).Keys <= headers.Keys + declared
    ensures forall name :: name in headers && HeaderBlock.IsPseudoName(name) ==> MergeAll(headers, late)[name] == headers[name]
  {
    if late != [] {
      MergedKeys(headers, late[..|late| - 1], declared);
      assert NoPseudo(late[|late| - 1]);
    }
  }

  lemma MergedMap(s: Stream, h: History)
    requires RequestOk(s.headerState, s.trailerState, s.declared, s.composited, s.trailerFrames, h.reply, h.lateReplies)
    requires ShouldDispatch(s)
    ensures h.reply.Some? && Dispatchable(h.reply.value.0) && s.composited == Some(MergeAll(h.reply.value.0, h.lateReplies))
    ensures var (reply, merged) := (h.reply.value, s.composited.value);
      && reply.0.Keys <= merged.Keys <= reply.0.Keys + reply.1
      && forall name :: name in reply.0 && HeaderBlock.IsPseudoName(name) ==> merged[name] == reply.0[name]
  {
    hide Dispatchable;
    MergedKeys(h.reply.value.0, h.lateReplies, if s.declared.Some? then s.declared.value else {});
    hide NoPseudo, MergeAll;
  }

  lemma MergedBuilds(merged: Headers, reply: (Headers, set<string>), late: seq<Headers>, body: Option<seq<Byte>>)
    requires Dispatchable(reply.0) && merged == MergeAll(reply.0, late)
    requires reply.0.Keys <= merged.Keys <= reply.0.Keys + reply.1
    requires forall name :: name in reply.0 && HeaderBlock.IsPseudoName(name) ==> merged[name] == reply.0[name]
    ensures TryFrom(merged, body).Ok? && BuiltFrom(TryFrom(merged, body).value, reply, late) && TryFrom(merged, body).value.body == body
  {
    hide MergeAll, FromStr, Spells;
    HeaderBlock.SmallNamesAreLower();
    KnownMethodParses(merged[":method"]);
  }

  /** The merged map always builds a request, and with the target of the header block. */
  lemma DispatchBuilds(s: Stream, h: History)
    requires RequestOk(s.headerState, s.trailerState, s.declared, s.composited, s.trailerFrames, h.reply, h.lateReplies)
    requires ShouldDispatch(s)
    ensures TryFrom(s.composited.value, FirstBody(s)).Ok?
    ensures BuiltFrom(TryFrom(s.composited.value, FirstBody(s)).value, h.reply.value, h.lateReplies)
    ensures TryFrom(s.composited.value, FirstBody(s)).value.body == FirstBody(s)
  {
    hide RequestOk, Dispatchable, MergeAll, TryFrom, BuiltFrom, FirstBody;
    MergedMap(s, h);
    MergedBuilds(s.composited.value, h.reply.value, h.lateReplies, FirstBody(s));
  }

  function AfterDispatch(s: Stream): Stream {
    s.(composited := None, bodies := if s.bodies == [] then [] else s.bodies[1..], dispatched := true)
  }

  lemma RequestSpent(s: Stream, h: History)
    requires RequestOk(Completed, Completed, s.declared, s.composited, s.trailerFrames, h.reply, h.lateReplies)
    ensures RequestOk(Completed, Completed, s.declared, None, s.trailerFrames, h.reply, h.lateReplies)
  {
    hide Dispatchable, LateOk, MergeAll, AllFragments;
  }

  lemma DispatchSent(s: Stream, h: History, m: ToConn)
    requires DispatchOk(s.id, false, true, Completed, s.composited, h.sent, h.reply, h.lateReplies, h.responses)
    requires m.RequestForDispatch? && m.sid == s.id && h.reply.Some? && BuiltFrom(m.ctx, h.reply.value, h.lateReplies)
    ensures DispatchOk(s.id, true, true, Completed, None, h.sent + [m], h.reply, h.lateReplies, h.responses)
  {
    NumAppend(h.sent, m, KDispatch, s.id);
    hide Num, BuiltFrom;
  }

  lemma SecondSpent(s: Stream, h: History, c: bool)
    requires SecondOk(Completed, s.trailerFrames, false, s.composited, h.reply, h.second, h.secondEarly, c) && s.composited.Some?
    requires h.reply.Some?
    ensures SecondOk(Completed, s.trailerFrames, true, None, h.reply, h.second, h.secondEarly, c)
  {}

  lemma DispatchPhaseRequest(s: Stream, h: History, m: ToConn)
    requires RequestInv(s, AtDispatch, h) && ShouldDispatch(s)
    requires m.RequestForDispatch? && m.sid == s.id && h.reply.Some? && BuiltFrom(m.ctx, h.reply.value, h.lateReplies)
    ensures RequestInv(AfterDispatch(s), AtRespond, h.(sent := h.sent + [m]))
  {
    hide RequestOk, DispatchOk, TrailerOk, SecondOk, Complained, BuiltFrom;
    RequestSpent(s, h);
    DispatchSent(s, h, m);
    TrailerQuiet(s.id, s.declared, s.trailerState, h.sent, h.lateReplies, h.stray, m);
    var c, c1 := Complained(h.sent, h.secondAt, AtDispatch), Complained(h.sent + [m], h.secondAt, AtRespond);
    if c {
      ComplainedQuiet(h.sent, h.secondAt, AtDispatch, AtRespond, m);
    }
    SecondSpent(s, h, c);
    SecondQuiet(Completed, s.trailerFrames, true, None, h.reply, h.second, h.secondEarly, c, c1);
  }

  lemma DispatchPhaseFlow(s: Stream, h: History)
    requires FlowInv(s, AtDispatch, h)
    ensures FlowInv(AfterDispatch(s), AtDispatch, h) && AfterDispatch(s).id == s.id
  {
    hide StateOk, WindowOk, ResponseOk, CountOk, OwnMessages;
  }

  lemma DispatchPhaseBlock(s: Stream, inbox: seq<ToStream>, cancelled: bool, h: History)
    requires BlockInv(s, AtDispatch, inbox, cancelled, h)
    ensures BlockInv(AfterDispatch(s), AtDispatch, inbox, cancelled, h)
    ensures PhaseOk(AfterDispatch(s).id, AfterDispatch(s).headerState, AtRespond)
  {
    hide Logged, BlockPlaced, HeaderProgress, HeaderMessage;
  }

  lemma BodySent(s: Stream, a: seq<Frame>, sent: seq<ToConn>, m: ToConn)
    requires BodyOk(s.bodies, false, a, sent) && m.RequestForDispatch? && m.ctx.body == FirstBody(s)
    ensures BodyOk(if s.bodies == [] then [] else s.bodies[1..], true, a, sent + [m])
  {
    hide DataFrames;
  }

  lemma DispatchPhaseContent(s: Stream, h: History, m: ToConn)
    requires ContentInv(s, h) && ShouldDispatch(s) && m.RequestForDispatch? && m.ctx.body == FirstBody(s)
    ensures ContentInv(AfterDispatch(s), h.(sent := h.sent + [m]))
  {
    hide BodyOk, TrailerFrom, TrailerBlockOk;
    BodySent(s, h.accepted, h.sent, m);
    TrailerBlockQuiet(s.id, s.headerState, s.trailerState, s.trailerFrames, h.trailerBlock, h.sent, h.stray, h.extra, m);
  }

  lemma DispatchMove(t: Task)
    requires t.phase.AtDispatch? && RequestInv(t.s, t.phase, t.h)
    ensures CanStep(t, false) && TaskStep(t, false) == Advance(t, DispatchIfNeeded(t.s), AtRespond)
    ensures ShouldDispatch(t.s) ==>
      && DispatchIfNeeded(t.s).Move? && DispatchIfNeeded(t.s).message.Some? && DispatchIfNeeded(t.s).next == AfterDispatch(t.s)
      && var m := DispatchIfNeeded(t.s).message.value;
        && m.RequestForDispatch? && m.sid == t.s.id
        && t.h.reply.Some? && BuiltFrom(m.ctx, t.h.reply.value, t.h.lateReplies)
        && m.ctx.body == FirstBody(t.s)
    ensures !ShouldDispatch(t.s) ==> DispatchIfNeeded(t.s) == Move(t.s, None)
  {
    if ShouldDispatch(t.s) {
      RepliedWhenDispatching(t.s, t.h);
      hide RequestInv;
      DispatchBuilds(t.s, t.h);
    }
    hide RequestInv, RequestOk, TryFrom, BuiltFrom, FirstBody;
  }

  lemma RepliedWhenDispatching(s: Stream, h: History)
    requires RequestInv(s, AtDispatch, h) && ShouldDispatch(s)
    ensures h.reply.Some?
    ensures RequestOk(s.headerState, s.trailerState, s.declared, s.composited, s.trailerFrames, h.reply, h.lateReplies)
  {
    hide DispatchOk, TrailerOk, SecondOk, Dispatchable, NoPseudo, MergeAll;
  }

  lemma DispatchPhase(t: Task)
    requires LocalInv(t) && t.phase.AtDispatch?
    ensures LocalInv(TaskStep(t, false).task)
  {
    hide *;
    Parts(t);
    NotReady(t);
    DispatchMove(t);
    MoveMade(t, DispatchIfNeeded(t.s), AtRespond);
    if ShouldDispatch(t.s) {
      var m := DispatchIfNeeded(t.s).message.value;
      DispatchPhaseRequest(t.s, t.h, m);
      DispatchPhaseContent(t.s, t.h, m);
      DispatchPhaseFlow(t.s, t.h);
      FlowQuiet(AfterDispatch(t.s), AtDispatch, AtRespond, t.h, m);
      DispatchPhaseBlock(t.s, t.inbox, t.cancelled, t.h);
      BlockQuiet(AfterDispatch(t.s), AtDispatch, AtRespond, t.inbox, t.cancelled, t.h, m);
      Parts(TaskStep(t, false).task);
    } else {
      IdleStep(t, AtRespond);
    }
  }

  // ---- a waiting frame is sent ----

  predicate WillFlush(s: Stream) {
    s.pending != [] && !MustWait(s.window, s.pending[0])
  }

  predicate OneDataPending(s: Stream) {
    |s.pending| == 1 && s.pending[0].ty.Data? && s.pending[0].HasEndStream() && !s.state.Idle?
  }

  function AfterFlush(s: Stream, f: Frame): Stream {
    var s1 := SendPending(s, f, []);
    s1.(responseCompleted := s1.responseCompleted || (s1.dispatched && s1.endStreamSent && s1.endHeadersSent))
  }

  /** One DATA frame with END_STREAM pending on a stream that is not idle: it goes out alone. */
  lemma FlushOne(s: Stream)
    requires OneDataPending(s) && WillFlush(s)
    ensures StreamModel.Respond(s) == Move(AfterFlush(s, s.pending[0]), Some(DoResponse([s.pending[0]], s.id)))
  {
    var f := s.pending[0];
    assert s.pending[1..] == [] && [] + [f] == [f];
    assert Drain(SendPending(s, f, []), [f]) == Drained(SendPending(s, f, []), [f]);
  }

  /** Flushing the pending frame: the window is not touched, and the ledger still balances. */
  lemma WindowFlush(window: U32, f: Frame, a: seq<Frame>, flushed: seq<Frame>, sent: seq<ToConn>, responses: nat, id: U32)
    requires WindowOk(window, [f], a, flushed, sent, responses) && !MustWait(window, f)
    ensures WindowOk(window, [], a, flushed + [f], sent + [DoResponse([f], id)], responses)
  {
    OutAppend(sent, DoResponse([f], id));
    TruncatedAppend(OutFrames(sent), [f]);
    CountDataAppend(OutFrames(sent), [f]);
    assert [f][..0] == [];
    assert TruncatedBytes([f]) == Truncate(FlowSize(f));
  }

  lemma StateFlush(state: StreamState, headerState: DecodingState, trailerState: DecodingState, f: Frame, a: seq<Frame>, flushed: seq<Frame>)
    requires StateOk(state, true, headerState, trailerState, [f], a, flushed) && f.ty.Data? && f.HasEndStream()
    ensures StateOk(NextFromMe(state, f), true, headerState, trailerState, [], a, flushed + [f])
  {
    assert (flushed + [f])[|flushed|] == f;
    assert AnyEnd(flushed + [f]);
  }

  lemma CountFlush(id: U32, state: StreamState, f: Frame, sent: seq<ToConn>)
    requires CountOk(id, state, AtRespond, sent) && !state.Idle?
    ensures CountOk(id, NextFromMe(state, f), AtReceive, sent + [DoResponse([f], id)])
  {
    NumAppend(sent, DoResponse([f], id), KIncrement, id);
    NumAppend(sent, DoResponse([f], id), KDecrement, id);
    hide Num;
  }

  lemma RespondPhaseFlow(s: Stream, h: History, f: Frame)
    requires FlowInv(s, AtRespond, h) && s.pending == [f] && !MustWait(s.window, f) && OneDataPending(s)
    ensures FlowInv(AfterFlush(s, f), AtReceive, h.(sent := h.sent + [DoResponse([f], s.id)], flushed := h.flushed + [f]))
  {
    hide StateOk, WindowOk, ResponseOk, CountOk, OwnMessages, FailedOk, NextFromMe, MustWait;
    WindowFlush(s.window, f, h.accepted, h.flushed, h.sent, h.responses, s.id);
    ResponseFlush(s.id, f, h.sent, h.responses, h.response);
    FlushRest(s, h, f);
    FailedNot(s.id, AtReceive, s.dispatched, h.sent + [DoResponse([f], s.id)], |h.lateReplies|, h.stray);
  }

  lemma ResponseFlush(id: U32, f: Frame, sent: seq<ToConn>, responses: nat, response: Option<Response>)
    requires ResponseOk(id, [f], sent, responses, response)
    ensures ResponseOk(id, [], sent + [DoResponse([f], id)], responses, response)
  {
    OutAppend(sent, DoResponse([f], id));
    assert OutFrames(sent) + [f] + [] == OutFrames(sent) + [f];
  }

  lemma FlushRest(s: Stream, h: History, f: Frame)
    requires StateOk(s.state, s.requestEnd, s.headerState, s.trailerState, s.pending, h.accepted, h.flushed)
    requires CountOk(s.id, s.state, AtRespond, h.sent) && OwnMessages(s.id, h.sent)
    requires s.pending == [f] && OneDataPending(s)
    ensures StateOk(NextFromMe(s.state, f), s.requestEnd, s.headerState, s.trailerState, [], h.accepted, h.flushed + [f])
    ensures CountOk(s.id, NextFromMe(s.state, f), AtReceive, h.sent + [DoResponse([f], s.id)])
    ensures OwnMessages(s.id, h.sent + [DoResponse([f], s.id)])
  {
    hide StateOk, CountOk, OwnMessages, NextFromMe;
    RequestEnded(s, h);
    StateFlush(s.state, s.headerState, s.trailerState, f, h.accepted, h.flushed);
    CountFlush(s.id, s.state, f, h.sent);
    OwnAppend(s.id, h.sent, DoResponse([f], s.id));
  }

  lemma RequestEnded(s: Stream, h: History)
    requires StateOk(s.state, s.requestEnd, s.headerState, s.trailerState, s.pending, h.accepted, h.flushed) && s.pending != []
    ensures s.requestEnd
  {}

  lemma RespondPhaseRest(s: Stream, inbox: seq<ToStream>, cancelled: bool, h: History, f: Frame)
    requires BlockInv(s, AtRespond, inbox, cancelled, h) && RequestInv(s, AtRespond, h) && ContentInv(s, h)
    ensures var h1 := h.(sent := h.sent + [DoResponse([f], s.id)], flushed := h.flushed + [f]);
      && BlockInv(AfterFlush(s, f), AtReceive, inbox, cancelled, h1) && RequestInv(AfterFlush(s, f), AtReceive, h1)
      && ContentInv(AfterFlush(s, f), h1)
  {
    hide Logged, BlockPlaced, HeaderProgress, HeaderMessage, PhaseOk, RequestOk, DispatchOk, TrailerOk, SecondOk, Complained, BodyOk, TrailerFrom, TrailerBlockOk;
    var m := DoResponse([f], s.id);
    ReceiveReady(s, inbox, cancelled, h);
    BlockQuiet(s, AtRespond, AtReceive, inbox, cancelled, h, m);
    RequestQuiet(s, AtRespond, AtReceive, h, m);
    ContentQuiet(s, h, m);
  }

  lemma ReceiveReady(s: Stream, inbox: seq<ToStream>, cancelled: bool, h: History)
    requires BlockInv(s, AtRespond, inbox, cancelled, h)
    ensures PhaseOk(s.id, s.headerState, AtReceive)
  {
    hide Logged, BlockPlaced, HeaderProgress, HeaderMessage;
  }

  lemma FlushReady(s: Stream, h: History)
    requires FlowInv(s, AtRespond, h)
    ensures s.pending != [] ==> OneDataPending(s)
  {
    hide CountOk, OwnMessages, EndsOnce;
  }

  lemma RespondStepFlushes(t: Task, f: Frame)
    requires t.phase.AtRespond? && StreamModel.Respond(t.s) == Move(AfterFlush(t.s, f), Some(DoResponse([f], t.s.id)))
    ensures CanStep(t, false)
    ensures TaskStep(t, false).task == t.(s := AfterFlush(t.s, f), phase := AtReceive,
                                          h := t.h.(sent := t.h.sent + [DoResponse([f], t.s.id)], flushed := t.h.flushed + [f]))
  {
    hide StreamModel.Respond, AfterFlush;
  }

  lemma RespondStepRests(t: Task)
    requires t.phase.AtRespond? && !WillFlush(t.s)
    ensures CanStep(t, false) && TaskStep(t, false).task == t.(phase := AtReceive)
  {
    hide MustWait;
  }

  lemma RespondPhase(t: Task)
    requires LocalInv(t) && t.phase.AtRespond?
    ensures LocalInv(TaskStep(t, false).task)
  {
    hide *;
    Parts(t);
    FlushReady(t.s, t.h);
    if WillFlush(t.s) {
      OnlyPending(t.s);
      var f := t.s.pending[0];
      FlushOne(t.s);
      RespondStepFlushes(t, f);
      RespondPhaseFlow(t.s, t.h, f);
      RespondPhaseRest(t.s, t.inbox, t.cancelled, t.h, f);
      Parts(TaskStep(t, false).task);
    } else {
      RespondStepRests(t);
      RestPhase(t);
    }
  }

  lemma OnlyPending(s: Stream)
    requires WillFlush(s) && (s.pending != [] ==> OneDataPending(s))
    ensures s.pending != [] && s.pending == [s.pending[0]] && OneDataPending(s) && !MustWait(s.window, s.pending[0])
  {}

  lemma RestPhase(t: Task)
    requires LocalInv(t) && t.phase.AtRespond?
    ensures LocalInv(t.(phase := AtReceive))
  {
    hide *;
    NotReady(t);
    IdleStep(t, AtReceive);
  }

  // ---- a report is sent ----

  lemma ReportPhaseFlow(s: Stream, h: History, m: ToConn)
    requires FlowInv(s, AtReport(m), h) && (m.Failure? || (m.ActiveStreamCount? && m.sid == s.id))
    ensures FlowInv(s, AtHeaders, h.(sent := h.sent + [m]))
  {
    hide WindowOk, ResponseOk, CountOk, StateOk, OwnMessages, FailedOk;
    WindowQuiet(s.window, s.pending, h.accepted, h.flushed, h.sent, h.responses, m);
    ResponseQuiet(s.id, s.pending, h.sent, h.responses, h.response, m);
    CountReported(s.id, s.state, h.sent, m);
    OwnAppend(s.id, h.sent, m);
    FailedNot(s.id, AtHeaders, s.dispatched, h.sent + [m], |h.lateReplies|, h.stray);
  }

  lemma CountReported(id: U32, state: StreamState, sent: seq<ToConn>, m: ToConn)
    requires CountOk(id, state, AtReport(m), sent)
    ensures CountOk(id, state, AtHeaders, sent + [m])
  {
    NumAppend(sent, m, KIncrement, id);
    NumAppend(sent, m, KDecrement, id);
    hide Num;
  }

  lemma ReportPhaseRest(s: Stream, inbox: seq<ToStream>, cancelled: bool, h: History, m: ToConn)
    requires BlockInv(s, AtReport(m), inbox, cancelled, h) && RequestInv(s, AtReport(m), h) && ContentInv(s, h)
    requires m.Failure? || m.ActiveStreamCount?
    ensures var h1 := h.(sent := h.sent + [m]);
      BlockInv(s, AtHeaders, inbox, cancelled, h1) && RequestInv(s, AtHeaders, h1) && ContentInv(s, h1)
  {
    assert PhaseOk(s.id, s.headerState, AtHeaders);
    hide BlockInv, RequestInv, ContentInv, PhaseOk;
    BlockQuiet(s, AtReport(m), AtHeaders, inbox, cancelled, h, m);
    RequestQuiet(s, AtReport(m), AtHeaders, h, m);
    ContentQuiet(s, h, m);
  }

  lemma ReportIsOwn(t: Task)
    requires LocalInv(t) && t.phase.AtReport?
    ensures t.phase.message.Failure? || (t.phase.message.ActiveStreamCount? && t.phase.message.sid == t.s.id)
  {
    hide Logged, BlockPlaced, HeaderProgress, HeaderMessage, RequestInv, FlowInv;
  }

  lemma ReportStep(t: Task)
    requires t.phase.AtReport?
    ensures CanStep(t, false)
    ensures TaskStep(t, false).task == t.(phase := AtHeaders, h := t.h.(sent := t.h.sent + [t.phase.message]))
  {}

  lemma ReportPhase(t: Task)
    requires LocalInv(t) && t.phase.AtReport?
    ensures LocalInv(TaskStep(t, false).task)
  {
    hide *;
    ReportIsOwn(t);
    Parts(t);
    ReportStep(t);
    ReportPhaseFlow(t.s, t.h, t.phase.message);
    ReportPhaseRest(t.s, t.inbox, t.cancelled, t.h, t.phase.message);
    Parts(TaskStep(t, false).task);
  }
}
