/** From a CONTINUATION taken while a trailer block is at the decoder, a run goes on to a failed stream task. */
module StrayRun {
  import opened Wrappers
  import opened Bytes
  import opened Frames
  import opened Messages
  import opened RequestContext
  import opened StreamModel
  import opened ConnectionModel
  import opened System
  import opened StreamInvariant
  import opened SystemInvariant
  import StrayFailure
  import SystemArrive
  import Delivery
  import StreamReceive
  import HeaderBlock

  // ---- enough answers wait: the task fails on its own ----

  predicate BeforeDispatch(phase: Phase) {
    phase.AtHeaders? || phase.AtTrailers? || phase.AtDispatch?
  }

  /** The request is about to be dispatched. */
  predicate AboutToDispatch(s: Stream, phase: Phase) {
    s.trailerState.Completed? && s.composited.Some? && BeforeDispatch(phase)
  }

  /** One answer to trailers more waits than the task can take before it has dispatched its request. */
  predicate Doomed(t: Task) {
    && Live(t) && t.s.headerState.Completed? && t.s.requestEnd
    && (t.s.dispatched || AboutToDispatch(t.s, t.phase) || Waiting(t.inbox, GotTrailers) >= 2)
    && Waiting(t.inbox, GotTrailers) >= 1
  }

  function Rank(phase: Phase): nat {
    match phase
    case AtReport(_) => 5
    case AtHeaders => 4
    case AtTrailers => 3
    case AtDispatch => 2
    case AtRespond => 1
    case _ => 0
  }

  /** The next step is either the failure or one step nearer to it. */
  predicate Nearer(t: Task, t1: Task) {
    t1.phase.Failed? || (Doomed(t1) && t1.cancelled == t.cancelled && (|t1.inbox| < |t.inbox| || (t1.inbox == t.inbox && Rank(t1.phase) < Rank(t.phase))))
  }

  lemma HeadersNearer(t: Task)
    requires LocalInv(t) && Doomed(t) && t.phase.AtHeaders?
    ensures CanStep(t, false) && Nearer(t, TaskStep(t, false).task)
  {
    hide *;
    Parts(t);
    HeadersMove(t);
    MoveMade(t, CompositeHeaders(t.s), AtTrailers);
    HeadersDone(t);
    IdlesFrom(t);
    NothingMoved(t, AtTrailers);
  }

  /** The four moves before a receive, made on a stream that they do not change. */
  predicate Idles(t: Task, next: Phase) {
    || (t.phase.AtHeaders? && next.AtTrailers?)
    || (t.phase.AtTrailers? && next.AtDispatch?)
    || (t.phase.AtDispatch? && next.AtRespond? && !ShouldDispatch(t.s))
    || (t.phase.AtRespond? && next.AtReceive?)
  }

  lemma NothingMoved(t: Task, next: Phase)
    requires Doomed(t) && Idles(t, next)
    ensures Nearer(t, t.(phase := next))
  {
    hide Waiting;
  }

  lemma HeadersDone(t: Task)
    requires Doomed(t)
    ensures t.s.headerState.Completed?
  {
    hide Waiting;
  }

  lemma IdlesFrom(t: Task)
    ensures t.phase.AtHeaders? ==> Idles(t, AtTrailers)
    ensures t.phase.AtTrailers? ==> Idles(t, AtDispatch)
    ensures t.phase.AtDispatch? && !ShouldDispatch(t.s) ==> Idles(t, AtRespond)
    ensures t.phase.AtRespond? ==> Idles(t, AtReceive)
  {
    hide ShouldDispatch;
  }

  lemma TrailersNearer(t: Task)
    requires LocalInv(t) && Doomed(t) && t.phase.AtTrailers?
    ensures CanStep(t, false) && Nearer(t, TaskStep(t, false).task)
  {
    hide *;
    Parts(t);
    TrailersMove(t);
    MoveMade(t, CompositeTrailers(t.s), AtDispatch);
    if ShouldAskTrailers(t.s) {
      TrailersMoved(t, CompositeTrailers(t.s).message.value);
    } else {
      IdlesFrom(t);
      NothingMoved(t, AtDispatch);
    }
  }

  lemma TrailersMoved(t: Task, m: ToConn)
    requires Doomed(t) && t.phase.AtTrailers? && ShouldAskTrailers(t.s)
    ensures Nearer(t, t.(s := AfterTrailers(t.s), phase := AtDispatch, h := t.h.(sent := t.h.sent + [m])))
  {
    hide Waiting;
  }

  lemma DispatchNearer(t: Task)
    requires LocalInv(t) && Doomed(t) && t.phase.AtDispatch?
    ensures CanStep(t, false) && Nearer(t, TaskStep(t, false).task)
  {
    hide *;
    Parts(t);
    DispatchMove(t);
    MoveMade(t, DispatchIfNeeded(t.s), AtRespond);
    if ShouldDispatch(t.s) {
      DispatchMoved(t, DispatchIfNeeded(t.s).message.value);
    } else {
      IdlesFrom(t);
      NothingMoved(t, AtRespond);
    }
  }

  lemma DispatchMoved(t: Task, m: ToConn)
    requires Doomed(t) && t.phase.AtDispatch?
    ensures Nearer(t, t.(s := AfterDispatch(t.s), phase := AtRespond, h := t.h.(sent := t.h.sent + [m])))
  {
    hide Waiting;
  }

  lemma RespondNearer(t: Task)
    requires LocalInv(t) && Doomed(t) && t.phase.AtRespond?
    ensures CanStep(t, false) && Nearer(t, TaskStep(t, false).task)
  {
    hide *;
    Parts(t);
    FlushReady(t.s, t.h);
    if WillFlush(t.s) {
      OnlyPending(t.s);
      var f := t.s.pending[0];
      FlushOne(t.s);
      RespondStepFlushes(t, f);
      FlushMoved(t, f, DoResponse([f], t.s.id));
    } else {
      RespondStepRests(t);
      IdlesFrom(t);
      NothingMoved(t, AtReceive);
    }
  }

  lemma FlushMoved(t: Task, f: Frame, m: ToConn)
    requires Doomed(t) && t.phase.AtRespond?
    ensures Nearer(t, t.(s := AfterFlush(t.s, f), phase := AtReceive, h := t.h.(sent := t.h.sent + [m], flushed := t.h.flushed + [f])))
  {
    hide Waiting;
  }

  lemma ReportNearer(t: Task)
    requires Doomed(t) && t.phase.AtReport?
    ensures CanStep(t, false) && Nearer(t, TaskStep(t, false).task)
  {
    hide Waiting;
  }

  // A message is taken.

  lemma SomethingWaits(t: Task)
    requires Doomed(t) && t.phase.AtReceive?
    ensures t.inbox != [] && CanStep(t, false) && TaskStep(t, false) == ReceiveStep(t)
    ensures Waiting(t.inbox[1..], GotTrailers) == Waiting(t.inbox, GotTrailers) - (if t.inbox[0].TrailersDecoded? then 1 else 0)
  {
    hide ReceiveStep;
  }

  /** The fields of a stream that the trailers still to come depend on. */
  predicate SameRequest(s: Stream, s1: Stream) {
    s1.headerState == s.headerState && (s.requestEnd ==> s1.requestEnd) && s1.dispatched == s.dispatched
  }

  lemma TookNearer(t: Task, t1: Task)
    requires Doomed(t) && t.phase.AtReceive? && t.inbox != [] && !t.inbox[0].TrailersDecoded?
    requires SameRequest(t.s, t1.s) && t1.inbox == t.inbox[1..] && t1.cancelled == t.cancelled
    requires Live(t1)
    ensures Nearer(t, t1)
  {}

  lemma AcceptedKeepsRequest(s: Stream, f: Frame)
    requires HandleFrame(s, f).Accepted? && s.headerState.Completed?
    ensures SameRequest(s, HandleFrame(s, f).next)
  {
    hide HandleFrame, StreamReceive.Allowed;
    StreamReceive.AcceptedEffect(s, f);
  }

  lemma FrameNearer(t: Task, f: Frame)
    requires LocalInv(t) && Doomed(t) && t.phase.AtReceive? && !t.cancelled && t.inbox != [] && t.inbox[0] == FrameForRequest(f)
    ensures CanStep(t, false) && Nearer(t, TaskStep(t, false).task)
  {
    StrayFailure.FrameSurvives(t, f);
    if HandleFrame(t.s, f).Accepted? {
      StreamReceive.ReceiveAcceptedStep(t, f);
      AcceptedKeepsRequest(t.s, f);
    } else {
      StreamReceive.ReceiveRefusedStep(t, f);
    }
    TookNearer(t, TaskStep(t, false).task);
    hide *;
  }

  lemma ResponseNearer(t: Task, encoded: seq<Byte>, body: Option<seq<Byte>>)
    requires Doomed(t) && t.phase.AtReceive? && t.inbox != [] && t.inbox[0] == ResponseObject(encoded, body)
    ensures CanStep(t, false) && Nearer(t, TaskStep(t, false).task)
  {
    hide Waiting, TaskStep, Nearer, CanSend, Truncate;
    StreamReceive.ResponseStep(t, encoded, body);
    TookNearer(t, TaskStep(t, false).task);
  }

  lemma TrailersNearerFailure(t: Task)
    requires LocalInv(t) && HeadOk(t) && Doomed(t) && t.phase.AtReceive? && t.inbox != [] && t.inbox[0].TrailersDecoded?
    ensures CanStep(t, false) && Nearer(t, TaskStep(t, false).task)
  {
    hide LocalInv, HeadOk, TaskStep;
    StrayFailure.MapGone(t);
    StreamReceive.TrailersStep(t, t.inbox[0].headers);
    SomethingWaits(t);
    hide Waiting, CanStep, ReceiveStep;
  }

  lemma ReceiveNearer(t: Task)
    requires LocalInv(t) && HeadOk(t) && Doomed(t) && t.phase.AtReceive? && !t.cancelled
    ensures CanStep(t, false) && Nearer(t, TaskStep(t, false).task)
  {
    hide *;
    SomethingWaits(t);
    match t.inbox[0] {
      case FrameForRequest(f) => FrameNearer(t, f);
      case ResponseObject(encoded, body) => ResponseNearer(t, encoded, body);
      case TrailersDecoded(headers) => TrailersNearerFailure(t);
      case HeadersDecoded(headers, names) =>
        StreamReceive.ExpectedHeaders(t, headers, names);
        HeadersDone(t);
        assert false;
    }
  }

  lemma DoomedNearer(t: Task)
    requires LocalInv(t) && HeadOk(t) && Doomed(t) && !t.cancelled
    ensures CanStep(t, false) && Nearer(t, TaskStep(t, false).task)
  {
    hide *;
    LiveWhenDoomed(t);
    match t.phase {
      case AtHeaders => HeadersNearer(t);
      case AtTrailers => TrailersNearer(t);
      case AtDispatch => DispatchNearer(t);
      case AtRespond => RespondNearer(t);
      case AtReceive => ReceiveNearer(t);
      case AtReport(_) => ReportNearer(t);
    }
  }

  lemma LiveWhenDoomed(t: Task)
    requires Doomed(t)
    ensures !t.phase.Stopped? && !t.phase.Failed?
  {
    hide Waiting;
  }

  /** The task fails by its own steps, one after the other. */
  lemma {:induction false} DoomedFails(y: Sys, sid: U32) returns (y1: Sys)
    requires Joint(y) && sid in y.tasks && !Cancelled(y, sid) && Doomed(y.tasks[sid])
    ensures LeadsBy(y, [], y1) && y1.conn == y.conn && sid in y1.tasks && y1.tasks[sid].phase.Failed?
    decreases |y.tasks[sid].inbox|, Rank(y.tasks[sid].phase)
  {
    hide Joint, LocalInv, HeadOk, TaskStep, Doomed, LeadsBy;
    StrayFailure.Expected(y, sid);
    DoomedNearer(y.tasks[sid]);
    var mid := Next(y, Step(sid));
    LeadsByEvent(y, Step(sid));
    y1 := mid;
    if !mid.tasks[sid].phase.Failed? {
      SystemArrive.NextJoint(y, Step(sid));
      y1 := DoomedFails(mid, sid);
      LeadsQuietly(y, mid, [], y1);
    }
  }

  // ---- the channel is emptied ----

  /** The connection can handle the message, go on, and still serve the stream. */
  predicate Harmless(m: ToConn, sid: U32) {
    match m
    case Failure(ConnectionError(_)) => false
    case Failure(StreamError(id, _)) => id != sid
    case DoResponse(frames, _) => Delivery.AllWritable(frames)
    case _ => true
  }

  predicate AllHarmless(queue: seq<ToConn>, sid: U32) {
    forall i :: 0 <= i < |queue| ==> Harmless(queue[i], sid)
  }

  predicate Serving(y: Sys, sid: U32) {
    sid in y.tasks && !y.conn.ctx.rootCancelled && Served(y.conn, y.tasks[sid], sid) && AllHarmless(y.queue, sid)
  }

  /** HPACK decodes what is asked for, and what the stream asks for are lawful trailers; any pairs otherwise. */
  predicate Decodes(m: ToConn, hpack: Hpack, sid: U32) {
    && (m.HeadersToDecode? || m.TrailersToDecode? ==> hpack.Pairs?)
    && (Is(m, KTrailers, sid) ==> HeaderBlock.TrailersOk(hpack.pairs))
  }

  /** The stream's trailers are answered: their pairs name something declared. */
  predicate Answers(m: ToConn, hpack: Hpack, sid: U32) {
    Is(m, KTrailers, sid) && hpack.Pairs? && HeaderBlock.NamesDeclared(hpack.pairs, m.declared)
  }

  predicate AllDecode(queue: seq<ToConn>, results: seq<Hpack>, sid: U32)
    requires |results| == |queue|
  {
    forall i :: 0 <= i < |queue| ==> Decodes(queue[i], results[i], sid)
  }

  /** How many of the results answer the stream's requests for trailers. */
  function Brought(queue: seq<ToConn>, results: seq<Hpack>, sid: U32): nat
    requires |results| == |queue|
  {
    if queue == [] then 0 else (if Answers(queue[0], results[0], sid) then 1 else 0) + Brought(queue[1..], results[1..], sid)
  }

  lemma {:induction false} BroughtMore(queue: seq<ToConn>, results: seq<Hpack>, m: ToConn, hpack: Hpack, sid: U32)
    requires |results| == |queue|
    ensures Brought(queue + [m], results + [hpack], sid) == Brought(queue, results, sid) + (if Answers(m, hpack, sid) then 1 else 0)
    ensures AllDecode(queue, results, sid) && Decodes(m, hpack, sid) ==> AllDecode(queue + [m], results + [hpack], sid)
  {
    hide Answers, Decodes;
    if queue == [] {
      assert [] + [m] == [m] && [m][1..] == [] && [] + [hpack] == [hpack] && [hpack][1..] == [];
    } else {
      assert (queue + [m])[1..] == queue[1..] + [m] && (results + [hpack])[1..] == results[1..] + [hpack];
      BroughtMore(queue[1..], results[1..], m, hpack, sid);
    }
  }

  /** The error in the slot, if any, costs neither the connection nor the stream. */
  predicate Spared(e: Option<Error>, sid: U32) {
    e.Some? ==> !e.value.ConnectionError? && (e.value.StreamError? ==> e.value.sid != sid)
  }

  /** What the stream gets out of the message. */
  function TrailerAnswer(m: ToConn, hpack: Hpack, sid: U32): seq<ToStream> {
    if Answers(m, hpack, sid) then [TrailersDecoded(HeaderBlock.TrailerMap(hpack.pairs, m.declared))] else []
  }

  /** Connection and stream after a message that was handled without loss to the stream. */
  predicate GoesOn(m: ToConn, hpack: Hpack, sid: U32, o: Outcome) {
    && o.conn.status.Running? && !o.conn.ctx.rootCancelled && Spared(o.conn.ctx.error, sid)
    && AnswerFor(o, sid) == TrailerAnswer(m, hpack, sid)
  }

  lemma ResponseGoesOn(c: Conn, frames: seq<Frame>)
    requires c.status.Running? && Delivery.AllWritable(frames)
    ensures Deliver(c, frames, false).status.Running? && Deliver(c, frames, false).ctx == c.ctx.(window := Deliver(c, frames, false).ctx.window)
  {
    hide Deliver, Writable;
    Delivery.DeliverSplits(c, frames);
    DeliverKeeps(c, frames, false);
  }

  /** A header block of another stream: its error, its answer, or nothing. */
  lemma HeadersGoOn(c: Conn, m: ToConn, hpack: Hpack, sid: U32)
    requires Listening(c) && !c.ctx.rootCancelled && m.HeadersToDecode? && m.sid != sid && hpack.Pairs?
    ensures GoesOn(m, hpack, sid, AnswerHeaders(c, m.sid, hpack))
  {
    hide HeaderBlock.WellFormed, HeaderBlock.HeaderMap, HeaderBlock.DeclaredTrailers;
  }

  lemma TrailersGoOn(c: Conn, m: ToConn, hpack: Hpack, sid: U32)
    requires Listening(c) && !c.ctx.rootCancelled && m.TrailersToDecode? && Decodes(m, hpack, sid)
    requires m.sid == sid ==> sid in c.ctx.channels
    ensures GoesOn(m, hpack, sid, AnswerTrailers(c, m.sid, m.declared, hpack))
  {
    hide HeaderBlock.TrailersOk, HeaderBlock.TrailerMap, HeaderBlock.NamesDeclared;
    if HeaderBlock.TrailersOk(hpack.pairs) {
      HeaderBlock.NothingDeclared(hpack.pairs, m.declared);
    }
  }

  lemma MessageGoesOn(c: Conn, m: ToConn, hpack: Hpack, sid: U32)
    requires Listening(c) && !c.ctx.rootCancelled && Harmless(m, sid) && !Is(m, KHeaders, sid) && Decodes(m, hpack, sid)
    requires Is(m, KTrailers, sid) ==> sid in c.ctx.channels
    ensures GoesOn(m, hpack, sid, OnMessage(c, m, hpack))
  {
    hide Deliver, AnswerHeaders, AnswerTrailers, Delivery.AllWritable, HeaderBlock.TrailersOk, HeaderBlock.NamesDeclared;
    match m {
      case DoResponse(frames, _) => ResponseGoesOn(c, frames);
      case HeadersToDecode(_, id) => HeadersGoOn(c, m, hpack, sid);
      case TrailersToDecode(_, declared, id) => TrailersGoOn(c, m, hpack, sid);
      case _ =>
    }
  }

  lemma HandledOn(y: Sys, hpack: Hpack, sid: U32)
    requires Serving(y, sid) && y.conn.ctx.error.None? && y.queue != []
    requires GoesOn(y.queue[0], hpack, sid, OnMessage(y.conn, y.queue[0], hpack))
    requires OnMessage(y.conn, y.queue[0], hpack).post.Some? ==> !OnMessage(y.conn, y.queue[0], hpack).post.value.1.FrameForRequest?
    ensures var (y1, t) := (OnHandle(y, hpack), y.tasks[sid]);
      Serving(y1, sid) && y1.queue == y.queue[1..] && y1.tasks[sid] == t.(inbox := t.inbox + TrailerAnswer(y.queue[0], hpack, sid))
  {
    hide OnMessage, Answers, Harmless, TrailerAnswer;
    assert y.tasks[sid].inbox + [] == y.tasks[sid].inbox;
  }

  lemma AnsweredOn(y: Sys, sid: U32)
    requires Serving(y, sid) && y.conn.ctx.error.Some?
    ensures Enabled(y, Answer)
    ensures var y1 := OnAnswer(y);
      Serving(y1, sid) && y1.conn.ctx.error.None? && y1.queue == y.queue && y1.tasks[sid] == y.tasks[sid]
  {
    hide Harmless;
  }

  /** No header block of the stream is in the channel any more, and what is asked for is the stream's own trailers. */
  lemma QueuedAsks(t: Task, sid: U32, queue: seq<ToConn>, inFlight: nat, tokens: set<U32>, received: seq<Frame>)
    requires StreamOk(t, sid, queue, inFlight, tokens, received) && t.s.headerState.Completed? && queue != []
    ensures !Is(queue[0], KHeaders, sid)
    ensures Is(queue[0], KTrailers, sid) ==> t.s.declared == Some(queue[0].declared)
  {
    hide LocalInv, BlockInv, FlowInv, ContentInv, InboxOk, BlockReceived, Num, RequestOk, DispatchOk, SecondOk, Complained, Waiting;
    Parts(t);
    OnlyBlockAsked(t);
    if Is(queue[0], KHeaders, sid) {
      NumSome(queue, KHeaders, sid, 0);
    }
    assert Mine(queue[0], sid) ==> queue[0] in t.h.sent;
  }

  lemma OnlyBlockAsked(t: Task)
    requires LocalInv(t) && t.s.headerState.Completed?
    ensures t.h.reply.Some? && Num(t.h.sent, KHeaders, t.s.id) <= 1
  {
    hide Logged, BlockPlaced, HeaderProgress, FlowInv, ContentInv, DispatchOk, TrailerOk, SecondOk, PhaseOk, Num, Dispatchable, NoPseudo, MergeAll;
  }

  lemma MoreWaits(inbox: seq<ToStream>, m: ToConn, hpack: Hpack, sid: U32)
    ensures Waiting(inbox + TrailerAnswer(m, hpack, sid), GotTrailers) == Waiting(inbox, GotTrailers) + (if Answers(m, hpack, sid) then 1 else 0)
  {
    hide Answers, Waiting;
    if Answers(m, hpack, sid) {
      WaitingAppend(inbox, TrailerAnswer(m, hpack, sid)[0], GotTrailers);
    } else {
      assert inbox + [] == inbox;
    }
  }

  /** Only answers were added to the task. */
  predicate Grown(t: Task, t1: Task) {
    t1.s == t.s && t1.phase == t.phase && t1.cancelled == t.cancelled
  }

  lemma HandleOne(y: Sys, hpack: Hpack, sid: U32)
    requires Joint(y) && Serving(y, sid) && y.conn.ctx.error.None? && y.queue != []
    requires y.tasks[sid].s.headerState.Completed? && Decodes(y.queue[0], hpack, sid)
    ensures var y1 := OnHandle(y, hpack);
      && Serving(y1, sid) && y1.queue == y.queue[1..] && Grown(y.tasks[sid], y1.tasks[sid])
      && Waiting(y1.tasks[sid].inbox, GotTrailers)
         == Waiting(y.tasks[sid].inbox, GotTrailers) + (if Answers(y.queue[0], hpack, sid) then 1 else 0)
  {
    hide LocalInv, BlockAtGate, StreamOk, Waiting, Num, OnHandle, OnMessage, Decodes, Answers, Is, GoesOn, GateOk, AnswerTo;
    var t, m := y.tasks[sid], y.queue[0];
    assert At(y, sid) && Skeleton(y);
    QueuedAsks(t, sid, y.queue, Outstanding(y, sid), y.conn.ctx.tokens, y.received);
    MessageGoesOn(y.conn, m, hpack, sid);
    MessageHandled(y.conn, m, hpack);
    AnswersAreNoFrames(m, OnMessage(y.conn, m, hpack));
    HandledOn(y, hpack, sid);
    MoreWaits(t.inbox, m, hpack, sid);
  }

  lemma AnswersAreNoFrames(m: ToConn, o: Outcome)
    requires o.post.Some? ==> AnswerTo(m, o.post.value.1)
    ensures o.post.Some? ==> !o.post.value.1.FrameForRequest?
  {
    hide Dispatchable, NoPseudo;
  }

  /** Every message in the channel is handled, whatever HPACK makes of the blocks. */
  lemma {:induction false} Emptied(y: Sys, sid: U32, results: seq<Hpack>) returns (y1: Sys)
    requires Joint(y) && Serving(y, sid) && y.tasks[sid].s.headerState.Completed?
    requires |results| == |y.queue| && AllDecode(y.queue, results, sid)
    ensures LeadsBy(y, results, y1) && Joint(y1) && Serving(y1, sid) && Grown(y.tasks[sid], y1.tasks[sid])
    ensures Waiting(y1.tasks[sid].inbox, GotTrailers) == Waiting(y.tasks[sid].inbox, GotTrailers) + Brought(y.queue, results, sid)
    decreases |y.queue|, if y.conn.ctx.error.Some? then 1 else 0
  {
    hide Joint, OnAnswer, OnHandle, Decodes, Answers, Waiting, LeadsBy, AllHarmless, Served;
    if y.conn.ctx.error.Some? {
      AnsweredOn(y, sid);
      SystemArrive.NextJoint(y, Answer);
      LeadsByEvent(y, Answer);
      y1 := Emptied(Next(y, Answer), sid, results);
      LeadsQuietly(y, Next(y, Answer), results, y1);
    } else if y.queue != [] {
      var e := Event.Handle(results[0]);
      ServedIsListening(y, sid);
      HandleOne(y, results[0], sid);
      SystemArrive.NextJoint(y, e);
      LeadsByEvent(y, e);
      y1 := Emptied(Next(y, e), sid, results[1..]);
      LeadsByBoth(y, [results[0]], Next(y, e), results[1..], y1);
      assert [results[0]] + results[1..] == results;
    } else {
      y1 := y;
      assert results == [];
      LeadsByNothing(y);
    }
  }

  lemma ServedIsListening(y: Sys, sid: U32)
    requires Serving(y, sid)
    ensures y.conn.status.Running? && (y.conn.ctx.error.None? ==> Listening(y.conn))
  {
    hide AllHarmless;
  }

  // ---- the trailer block is asked for again ----

  lemma StepGoesOn(y: Sys, sid: U32, st: Stepped)
    requires Serving(y, sid) && CanStep(y.tasks[sid], false) && st == TaskStep(y.tasks[sid], false)
    requires st.task.cancelled == y.tasks[sid].cancelled
    requires st.message.Some? ==> Harmless(st.message.value, sid)
    ensures Enabled(y, Step(sid))
    ensures var y1 := Next(y, Step(sid)); Serving(y1, sid) && y1.tasks[sid] == st.task && y1.queue == Log1(y.queue, st.message)
  {
    hide TaskStep, Harmless, CanStep;
  }

  /** The next message is a CONTINUATION with END_HEADERS, and a trailer block is at the decoder. */
  predicate TakesStray(t: Task) {
    && t.phase.AtReceive? && t.inbox != [] && t.inbox[0].FrameForRequest? && t.inbox[0].frame.ty == Continuation(true)
    && t.s.trailerState.WaitingResponse?
  }

  lemma StrayFacts(t: Task)
    requires LocalInv(t) && t.s.trailerState.WaitingResponse?
    ensures t.s.headerState.Completed? && t.s.requestEnd && !t.s.state.Idle?
  {
    hide LocalInv, BlockInv, RequestInv, ContentInv, WindowOk, ResponseOk, CountOk, OwnMessages, FailedOk, EndsOnce, StateOf, AnyEnd;
    Parts(t);
    StrayRequest(t.s, t.phase, t.h);
    StreamReceive.StateFacts(t.s, t.phase, t.h);
  }

  lemma StrayRequest(s: Stream, phase: Phase, h: History)
    requires RequestInv(s, phase, h) && s.trailerState.WaitingResponse?
    ensures s.headerState.Completed?
  {
    hide DispatchOk, TrailerOk, SecondOk, Dispatchable, NoPseudo, MergeAll, Complained, AllFragments;
  }

  lemma StrayAccepted(s: Stream, f: Frame)
    requires f.ty == Continuation(true) && s.trailerState.WaitingResponse? && s.headerState.Completed? && !s.state.Idle?
    ensures HandleFrame(s, f).Accepted?
    ensures var s1 := HandleFrame(s, f).next;
      s1.trailerState.Ready? && s1.headerState.Completed? && s1.declared == s.declared && (s.requestEnd ==> s1.requestEnd)
  {
    hide HandleFrame;
    StreamReceive.AcceptedIffAllowed(s, f);
    StreamReceive.AcceptedEffect(s, f);
  }

  /** The stream holds a complete trailer block again, and has taken one message from its inbox. */
  predicate BlockAgain(inbox: seq<ToStream>, declared: Option<set<string>>, t1: Task) {
    inbox != [] && t1.inbox == inbox[1..] && t1.s.declared == declared && ShouldAskTrailers(t1.s) && !t1.cancelled
  }

  /** The step that takes the frame: no message yet, the report is next. */
  predicate Strayed(t: Task, st: Stepped) {
    && BlockAgain(t.inbox, t.s.declared, st.task) && st.message.None? && !st.task.cancelled
    && st.task.phase.AtReport? && st.task.phase.message.ActiveStreamCount?
  }

  lemma StrayTaken(t: Task, f: Frame)
    requires LocalInv(t) && TakesStray(t) && !t.cancelled && t.inbox[0] == FrameForRequest(f)
    ensures CanStep(t, false) && Strayed(t, TaskStep(t, false))
  {
    hide *;
    TakesWhat(t);
    StrayFacts(t);
    StrayAccepted(t.s, f);
    StreamReceive.ReceiveAcceptedStep(t, f);
    FrameSendsNothing(t, f);
    TookBlock(t, TaskStep(t, false).task);
    TakenStray(t, TaskStep(t, false));
  }

  lemma TakenStray(t: Task, st: Stepped)
    requires BlockAgain(t.inbox, t.s.declared, st.task) && st.message.None?
    requires st.task.phase.AtReport? && st.task.phase.message.ActiveStreamCount?
    ensures Strayed(t, st)
  {}

  lemma TakesWhat(t: Task)
    requires TakesStray(t)
    ensures t.phase.AtReceive? && t.inbox != [] && t.inbox[0].FrameForRequest?
    ensures t.inbox[0].frame.ty == Continuation(true) && t.s.trailerState.WaitingResponse?
  {}

  lemma FrameSendsNothing(t: Task, f: Frame)
    requires t.phase.AtReceive? && t.inbox != [] && t.inbox[0] == FrameForRequest(f)
    ensures CanStep(t, false) && TaskStep(t, false).message.None?
  {
    hide HandleFrame, Consumed;
  }

  lemma TookBlock(t: Task, t1: Task)
    requires t.inbox != [] && t1.inbox == t.inbox[1..] && !t1.cancelled && t1.s.declared == t.s.declared
    requires t1.s.requestEnd && t1.s.trailerState.Ready? && t1.s.headerState.Completed?
    ensures BlockAgain(t.inbox, t.s.declared, t1)
  {}

  lemma ReportOn(inbox: seq<ToStream>, declared: Option<set<string>>, t: Task)
    requires BlockAgain(inbox, declared, t) && t.phase.AtReport?
    ensures CanStep(t, false) && BlockAgain(inbox, declared, TaskStep(t, false).task)
    ensures TaskStep(t, false).message == Some(t.phase.message) && TaskStep(t, false).task.phase.AtHeaders?
    ensures !TaskStep(t, false).task.cancelled
  {}

  lemma HeadersOn(inbox: seq<ToStream>, declared: Option<set<string>>, t: Task)
    requires BlockAgain(inbox, declared, t) && t.phase.AtHeaders?
    ensures CanStep(t, false) && BlockAgain(inbox, declared, TaskStep(t, false).task)
    ensures TaskStep(t, false).message.None? && TaskStep(t, false).task.phase.AtTrailers? && !TaskStep(t, false).task.cancelled
  {}

  /** The request for trailers is out and the task stands before its dispatch. */
  predicate AskedAgain(inbox: seq<ToStream>, declared: Option<set<string>>, t1: Task) {
    && inbox != [] && t1.inbox == inbox[1..] && t1.s.declared == declared && !t1.cancelled
    && t1.phase.AtDispatch? && t1.s.headerState.Completed? && t1.s.requestEnd
  }

  lemma TrailersOn(inbox: seq<ToStream>, declared: Option<set<string>>, t: Task)
    requires BlockAgain(inbox, declared, t) && t.phase.AtTrailers? && LocalInv(t)
    ensures CanStep(t, false) && AskedAgain(inbox, declared, TaskStep(t, false).task)
    ensures TaskStep(t, false).message.Some? && Is(TaskStep(t, false).message.value, KTrailers, t.s.id)
    ensures declared == Some(TaskStep(t, false).message.value.declared)
    ensures !TaskStep(t, false).task.cancelled
  {
    hide LocalInv, RequestInv, CompositeTrailers, AllFragments, Fragments;
    Parts(t);
    TrailersMove(t);
  }

  lemma StepOn(y: Sys, sid: U32, st: Stepped) returns (y1: Sys)
    requires Joint(y) && Serving(y, sid) && CanStep(y.tasks[sid], false) && st == TaskStep(y.tasks[sid], false)
    requires !st.task.cancelled
    requires st.message.Some? ==> Harmless(st.message.value, sid)
    ensures Joint(y1) && Serving(y1, sid) && LeadsBy(y, [], y1)
    ensures y1.tasks[sid] == st.task && y1.queue == Log1(y.queue, st.message)
  {
    hide Joint, TaskStep, CanStep, Harmless, AllHarmless, Log1, LeadsBy;
    StepGoesOn(y, sid, st);
    y1 := Next(y, Step(sid));
    SystemArrive.NextJoint(y, Step(sid));
    LeadsByEvent(y, Step(sid));
  }

  /** The stream has reported the frame and asked for trailers again. */
  predicate AskedTwice(y: Sys, sid: U32, y1: Sys, count: ToConn, ask: ToConn) {
    && sid in y.tasks && sid in y1.tasks
    && AskedAgain(y.tasks[sid].inbox, y.tasks[sid].s.declared, y1.tasks[sid])
    && y1.queue == y.queue + [count] + [ask]
    && count.ActiveStreamCount? && Is(ask, KTrailers, sid) && y.tasks[sid].s.declared == Some(ask.declared)
  }

  /** Four steps: the frame is taken and reported, and the trailers are asked for once more. */
  lemma AsksAgain(y: Sys, sid: U32) returns (y4: Sys, count: ToConn, ask: ToConn)
    requires Joint(y) && Serving(y, sid) && TakesStray(y.tasks[sid])
    ensures LeadsBy(y, [], y4) && Joint(y4) && Serving(y4, sid) && AskedTwice(y, sid, y4, count, ask)
  {
    hide Joint, LocalInv, HeadOk, TaskStep, CanStep, AllHarmless, Served, LeadsBy, BlockAgain, AskedAgain, TakesStray, Harmless, HandleFrame;
    var t := y.tasks[sid];
    TakesWhat(t);
    ServedTask(y, sid);
    StrayTaken(t, t.inbox[0].frame);
    var y1 := StepOn(y, sid, TaskStep(t, false));
    var t1 := y1.tasks[sid];
    ReportOn(t.inbox, t.s.declared, t1);
    count := t1.phase.message;
    SmallMessage(count, sid);
    var y2 := StepOn(y1, sid, TaskStep(t1, false));
    var t2 := y2.tasks[sid];
    HeadersOn(t.inbox, t.s.declared, t2);
    var y3 := StepOn(y2, sid, TaskStep(t2, false));
    var t3 := y3.tasks[sid];
    ServedTask(y3, sid);
    TrailersOn(t.inbox, t.s.declared, t3);
    ask := TaskStep(t3, false).message.value;
    SmallMessage(ask, sid);
    y4 := StepOn(y3, sid, TaskStep(t3, false));
    LeadsQuietly(y, y1, [], y2);
    LeadsQuietly(y, y2, [], y3);
    LeadsQuietly(y, y3, [], y4);
  }

  lemma ServedTask(y: Sys, sid: U32)
    requires Joint(y) && Serving(y, sid)
    ensures LocalInv(y.tasks[sid]) && y.tasks[sid].s.id == sid && !y.tasks[sid].cancelled
  {
    hide Joint, LocalInv, HeadOk, AllHarmless;
    StrayFailure.Expected(y, sid);
  }

  lemma SmallMessage(m: ToConn, sid: U32)
    requires m.ActiveStreamCount? || m.TrailersToDecode?
    ensures Harmless(m, sid)
  {}

  /** Whether the answer to the second request, with these pairs, counts. */
  predicate AnswersAgain(t: Task, ps: seq<HeaderBlock.Pair>) {
    t.s.declared.Some? && HeaderBlock.NamesDeclared(ps, t.s.declared.value)
  }

  /**
   * A stream that the connection serves takes a CONTINUATION with END_HEADERS while a trailer block of its own is at
   * the decoder, and nothing in the channel ends either of them. Then, whatever HPACK makes of the blocks in the channel
   * and of the block the frame adds, as long as each decodes, the stream's own are lawful, and two of its answers name
   * something declared or wait already, a run with just these results goes on to where the task has failed, with the
   * connection running.
   */
  lemma StrayCanFail(y: Sys, sid: U32, results: seq<Hpack>, again: seq<HeaderBlock.Pair>) returns (events: seq<Event>, y1: Sys)
    requires Reachable(y) && Serving(y, sid) && TakesStray(y.tasks[sid])
    requires |results| == |y.queue| && AllDecode(y.queue, results, sid) && HeaderBlock.TrailersOk(again)
    requires Waiting(y.tasks[sid].inbox, GotTrailers) + Brought(y.queue, results, sid) + (if AnswersAgain(y.tasks[sid], again) then 1 else 0) >= 2
    ensures Run(y, events, y1) && HpackOf(events) == results + [CompressionFailed, Pairs(again)]
    ensures sid in y1.tasks && y1.tasks[sid].phase.Failed? && y1.conn.status.Running?
  {
    hide Joint, Reachable, LocalInv, Run, Waiting, Brought, AllDecode, AllHarmless, BlockAgain, TakesStray, HeadOk, HeaderBlock.TrailersOk,
      HeaderBlock.NamesDeclared, HpackOf;
    SystemArrive.ReachableJoint(y);
    var y2, count, ask := AsksAgain(y, sid);
    WaitingRest(y.tasks[sid]);
    var all := results + [CompressionFailed] + [Pairs(again)];
    assert all == results + [CompressionFailed, Pairs(again)];
    BroughtMore(y.queue, results, count, CompressionFailed, sid);
    BroughtMore(y.queue + [count], results + [CompressionFailed], ask, Pairs(again), sid);
    var y3 := Emptied(y2, sid, all);
    Together(y2.tasks[sid], y3.tasks[sid], Brought(y2.queue, all, sid));
    y1 := DoomedFails(y3, sid);
    LeadsQuietly(y, y2, all, y3);
    LeadsByBoth(y, all, y3, [], y1);
    assert all + [] == all;
    events :| Run(y, events, y1) && HpackOf(events) == all;
  }

  lemma WaitingRest(t: Task)
    requires TakesStray(t)
    ensures Waiting(t.inbox[1..], GotTrailers) == Waiting(t.inbox, GotTrailers)
  {}

  lemma Together(t: Task, t1: Task, n: nat)
    requires Grown(t, t1) && t.phase.AtDispatch? && t.s.headerState.Completed? && t.s.requestEnd
    requires Waiting(t1.inbox, GotTrailers) == Waiting(t.inbox, GotTrailers) + n && n + Waiting(t.inbox, GotTrailers) >= 2
    ensures Doomed(t1)
  {
    hide Waiting;
  }
}
