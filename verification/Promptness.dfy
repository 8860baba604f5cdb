/** A stream that waits for a message has done all it can: nothing complete is held back. */
module Promptness {
  import opened Wrappers
  import opened Bytes
  import opened Frames
  import opened Messages
  import opened RequestContext
  import opened StreamModel
  import opened System
  import opened StreamInvariant
  import StreamReceive

  /** The header block, once complete, has been asked for. */
  predicate HeadersAsked(s: Stream) {
    !s.headerState.Ready?
  }

  /** So has the trailer block, once the request has ended and its headers are decoded. */
  predicate TrailersAsked(s: Stream) {
    !(s.requestEnd && s.headerState.Completed? && s.trailerState.Ready?)
  }

  /** A request whose parts are all there has been dispatched. */
  predicate Dispatched(s: Stream) {
    s.requestEnd && s.headerState.Completed? && s.trailerState.Completed? && s.composited.Some? ==> s.dispatched
  }

  /** The window, or what 32 bits leave of the payload's length, keeps the frame from going out. */
  predicate TooLong(window: U32, f: Frame) {
    window == 0 || (f.ty.Data? && |f.payload| % TWO_32 > window)
  }

  predicate Sent(s: Stream) {
    s.pending != [] ==> TooLong(s.window, s.pending[0])
  }

  /** Each of the four steps of a pass has done its part once it is past. */
  predicate Prompt(t: Task) {
    match t.phase
    case AtTrailers => HeadersAsked(t.s)
    case AtDispatch => HeadersAsked(t.s) && TrailersAsked(t.s)
    case AtRespond => HeadersAsked(t.s) && TrailersAsked(t.s) && Dispatched(t.s)
    case AtReceive => HeadersAsked(t.s) && TrailersAsked(t.s) && Dispatched(t.s) && Sent(t.s)
    case _ => true
  }

  // ---- what goes out ----

  lemma {:induction false} DrainStops(s: Stream, out: seq<Frame>)
    ensures Drain(s, out).Drained? ==>
      var s1 := Drain(s, out).next;
      && Sent(s1) && s1 == s.(pending := s1.pending, state := s1.state, endStreamSent := s1.endStreamSent, endHeadersSent := s1.endHeadersSent)
    decreases |s.pending|
  {
    hide NextFromMe;
    if s.pending != [] && !TooLong(s.window, s.pending[0]) && !(s.state.Idle? && !SendableFromIdle(s.pending[0])) {
      DrainStops(SendPending(s, s.pending[0], s.pending[1..]), out + [s.pending[0]]);
    }
  }

  lemma Responds(t: Task)
    requires t.phase.AtRespond? && Prompt(t)
    ensures Prompt(RespondStep(t).task)
  {
    hide Drain;
    DrainStops(t.s, []);
  }

  // ---- every step ----

  lemma ReceivePrompt(t: Task)
    requires t.inbox != []
    ensures Prompt(ReceiveStep(t).task)
  {
    hide React, Consumed;
  }

  lemma StepPrompt(t: Task, cancelled: bool)
    requires Prompt(t) && CanStep(t, cancelled)
    ensures Prompt(TaskStep(t, cancelled).task)
  {
    hide ReceiveStep, RespondStep, AllFragments, Fragments, TryFrom, FirstBody;
    match t.phase {
      case AtRespond => Responds(t);
      case AtReceive =>
        if !cancelled {
          ReceivePrompt(t);
        }
      case _ =>
    }
  }

  // ---- what the stream notes of its response ----

  lemma OneWaits(t: Task)
    requires LocalInv(t)
    ensures |t.s.pending| <= 1
    ensures t.s.pending != [] ==> !t.s.state.Idle?
  {
    hide BlockInv, RequestInv, ContentInv, ResponseOk, CountOk, OwnMessages, FailedOk, EndsOnce, OutFrames, Debit, CountData, TruncatedBytes, Credit;
  }

  lemma WaitsData(t: Task)
    requires LocalInv(t)
    ensures t.s.pending != [] ==> t.s.pending[0].ty.Data? && t.s.pending[0].HasEndStream()
  {
    hide BlockInv, RequestInv, ContentInv, StateOk, ResponseOk, CountOk, OwnMessages, FailedOk, OutFrames, Debit, CountData, TruncatedBytes, Credit;
  }

  /** Only a DATA frame held back passes the loop that sets these marks, so a response never counts as complete. */
  predicate Marked(t: Task) {
    && !t.s.endHeadersSent && !t.s.responseCompleted
    && (t.s.endStreamSent <==> AnyEnd(t.h.flushed))
  }

  lemma RespondMarked(t: Task)
    requires LocalInv(t) && Marked(t) && t.phase.AtRespond?
    ensures Marked(RespondStep(t).task)
  {
    hide LocalInv, NextFromMe;
    OneWaits(t);
    WaitsData(t);
    var s := t.s;
    if s.pending != [] && !MustWait(s.window, s.pending[0]) {
      var f := s.pending[0];
      assert s.pending[1..] == [] && [] + [f] == [f];
      assert Drain(SendPending(s, f, []), [f]) == Drained(SendPending(s, f, []), [f]);
      AcceptedAppend(t.h.flushed, f);
    } else {
      assert t.h.flushed + [] == t.h.flushed;
    }
    hide AnyEnd;
  }

  predicate SameMarks(s: Stream, s1: Stream) {
    s1.endHeadersSent == s.endHeadersSent && s1.endStreamSent == s.endStreamSent && s1.responseCompleted == s.responseCompleted
  }

  lemma StoreMarks(s: Stream, f: Frame)
    ensures SameMarks(s, Store(s, f))
  {
    hide BlockProgress, TrailersInProgress;
  }

  lemma FrameMarks(s: Stream, f: Frame)
    requires HandleFrame(s, f).Accepted?
    ensures SameMarks(s, HandleFrame(s, f).next)
  {
    hide ValidateFromClient, NextFromClient, CommandOf, Store, IncrementOf;
    StoreMarks(s.(state := NextFromClient(s.state, f), requestEnd := s.requestEnd || f.HasEndStream()), f);
  }

  lemma ReactMarks(s: Stream, m: ToStream)
    ensures React(s, m).Reaction? ==> SameMarks(s, React(s, m).next)
  {
    hide HandleFrame, HandleResponse, CanSend, Truncate, ResponseHeaders, ResponseData;
    match m {
      case FrameForRequest(f) =>
        if HandleFrame(s, f).Accepted? {
          FrameMarks(s, f);
        }
      case ResponseObject(encoded, body) => StreamReceive.ResponseAnswered(s, encoded, body);
      case _ =>
    }
  }

  lemma ReceiveMarked(t: Task)
    requires t.inbox != [] && Marked(t)
    ensures Marked(ReceiveStep(t).task)
  {
    hide React, AnyEnd, HandleFrame;
    ReactMarks(t.s, t.inbox[0]);
  }

  lemma StepMarked(t: Task, cancelled: bool)
    requires LocalInv(t) && Marked(t) && CanStep(t, cancelled)
    ensures Marked(TaskStep(t, cancelled).task)
  {
    hide LocalInv, AnyEnd, ReceiveStep, RespondStep, AllFragments, Fragments, TryFrom, FirstBody;
    match t.phase {
      case AtRespond => RespondMarked(t);
      case AtReceive =>
        if !cancelled {
          ReceiveMarked(t);
        }
      case _ =>
    }
  }

  // ---- what waits, and what does not ----

  /** The frame held back goes out, alone and whole, unless the window is empty or it is too long. */
  lemma HeldBack(t: Task)
    requires LocalInv(t) && t.phase.AtRespond? && t.s.pending != []
    ensures CanStep(t, false)
    ensures var st := TaskStep(t, false);
      if TooLong(t.s.window, t.s.pending[0])
      then st.message.None? && st.task.s.pending == t.s.pending
      else st.message == Some(DoResponse([t.s.pending[0]], t.s.id)) && st.task.s.pending == []
    ensures TaskStep(t, false).task.s.window == t.s.window
  {
    hide LocalInv, NextFromMe;
    OneWaits(t);
    var s, f := t.s, t.s.pending[0];
    if !TooLong(s.window, f) {
      assert s.pending[1..] == [] && [] + [f] == [f];
      assert Drain(SendPending(s, f, []), [f]) == Drained(SendPending(s, f, []), [f]);
    }
  }

  /** A response handed over whole and paid for, or without its DATA frame, which is held back. */
  predicate HandedOver(s: Stream, r: Response, s1: Stream, m: ToConn) {
    var n := |BodyOctets(r)| % TWO_32;
    && m.DoResponse? && m.sid == s.id
    && Carries(m.frames + s1.pending, s.id, r)
    && if s.window != 0 && n <= s.window
       then s1.pending == [] && s1.window == s.window - n
       else |s1.pending| == 1 && s1.window == s.window
  }

  lemma AnsweredWhole(s: Stream, r: Response, s1: Stream, m: ToConn)
    requires StreamReceive.Answered(s, r.0, r.1, s1, m) && s.pending == []
    ensures HandedOver(s, r, s1, m)
  {
    hide Carries;
    ResponseCarries(s.id, r);
    var (head, data) := (ResponseHeaders(s.id, r.0), ResponseData(s.id, r.1));
    assert ResponseFrames(s.id, Some(r)) == [head] + [data] == [head, data] + [];
    assert s.pending + [data] == [data];
  }

  lemma ResponseMessage(t: Task, r: Response)
    requires t.phase.AtReceive? && t.inbox != [] && t.inbox[0] == ResponseObject(r.0, r.1)
    ensures CanStep(t, false)
    ensures TaskStep(t, false).task.s == HandleResponse(t.s, r.0, r.1).0
    ensures TaskStep(t, false).message == Some(HandleResponse(t.s, r.0, r.1).1)
  {
    hide HandleResponse, Consumed;
  }

  /** A response goes out whole exactly if the window is open and its length, cut to 32 bits, fits. */
  lemma ResponseTaken(t: Task, r: Response)
    requires LocalInv(t) && HeadOk(t) && t.phase.AtReceive? && t.inbox != [] && t.inbox[0] == ResponseObject(r.0, r.1)
    ensures CanStep(t, false)
    ensures TaskStep(t, false).message.Some? && HandedOver(t.s, r, TaskStep(t, false).task.s, TaskStep(t, false).message.value)
  {
    hide LocalInv, HeadOk, HandedOver, StreamReceive.Answered, HandleResponse, TaskStep;
    NothingHeld(t);
    ResponseMessage(t, r);
    StreamReceive.ResponseAnswered(t.s, r.0, r.1);
    AnsweredWhole(t.s, r, HandleResponse(t.s, r.0, r.1).0, HandleResponse(t.s, r.0, r.1).1);
  }

  lemma NothingHeld(t: Task)
    requires LocalInv(t) && HeadOk(t) && t.inbox != [] && t.inbox[0].ResponseObject?
    ensures t.s.pending == []
  {
    hide BlockInv, RequestInv, ContentInv, ResponseOk, CountOk, OwnMessages, FailedOk, EndsOnce, StateOk, OutFrames, Debit, CountData, TruncatedBytes, Credit;
  }
}
