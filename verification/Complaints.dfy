/** Every frame a stream refuses is reported to the connection once, with the error its rule gives. */
module Complaints {
  import opened Wrappers
  import opened Bytes
  import opened Frames
  import opened Messages
  import opened RequestContext
  import opened StreamModel
  import opened System
  import opened StreamInvariant
  import StreamReceive
  import SystemInvariant
  import Reading
  import Guarantees

  // ---- what a refusal says ----

  /** Requests for a stream whose client side is over, section 5.1 of RFC 7540. */
  predicate Late(state: StreamState, f: Frame) {
    (state.HalfClosedRemote? || state.Closed?) && (f.ty.Data? || f.ty.Headers?)
  }

  /** A third HEADERS frame, or a second one whose trailers nobody waits for. */
  predicate OutOfPlace(s: Stream, f: Frame) {
    f.ty.Headers? && !s.headerState.Initial? && !s.trailerState.Initial?
  }

  /** The error of a refusal, by rule. */
  function Complaint(s: Stream, f: Frame): Error {
    if Late(s.state, f) && !OutOfPlace(s, f) then StreamError(s.id, StreamClosed)
    else if f.ty.WindowUpdate? && !s.state.Idle? then StreamError(s.id, FlowControlError)
    else ConnectionError(ProtocolError)
  }

  /**
   * A refused frame costs the stream if it comes late or pushes the window over 32 bits, each with its own error code,
   * and otherwise costs the connection, with PROTOCOL_ERROR.
   */
  lemma RefusedWith(s: Stream, f: Frame)
    requires HandleFrame(s, f).Refused? && !f.ty.Ping? && !f.ty.GoAway?
    ensures HandleFrame(s, f).error == Complaint(s, f)
  {
    hide IncrementOf, NextFromClient, CommandOf, Store;
  }

  /** A frame is accepted if its type is allowed in the states of the stream and its increment fits 32 bits. */
  predicate Welcome(s: Stream, f: Frame) {
    && StreamReceive.Allowed(s.state, s.headerState, s.trailerState, f)
    && (f.ty.WindowUpdate? ==> s.window + Number(f.payload[..4]) % 0x8000_0000 <= 0xFFFF_FFFF)
  }

  lemma WelcomeIsAccepted(s: Stream, f: Frame)
    requires !f.ty.Ping? && !f.ty.GoAway?
    ensures HandleFrame(s, f).Accepted? <==> Welcome(s, f)
  {
    hide HandleFrame, Number, Get32;
    StreamReceive.AcceptedIffAllowed(s, f);
    if f.ty.WindowUpdate? && |f.payload| >= 4 {
      GetsNumber(f.payload);
    }
  }

  /** A stream that takes a frame accepts it, or leaves everything as it was and is about to report the complaint. */
  lemma FrameJudged(t: Task)
    requires t.phase.AtReceive? && t.inbox != [] && t.inbox[0].FrameForRequest? && Checked(t.inbox[0].frame, t.s.id)
    requires !t.inbox[0].frame.ty.Ping? && !t.inbox[0].frame.ty.GoAway?
    ensures CanStep(t, false)
    ensures var (f, t1) := (t.inbox[0].frame, TaskStep(t, false).task);
      if Welcome(t.s, f)
      then t1.h.accepted == t.h.accepted + [f] && t1.phase.AtReport? && t1.phase.message.ActiveStreamCount?
      else t1.h.accepted == t.h.accepted && t1.s == t.s && t1.phase == AtReport(Failure(Complaint(t.s, f)))
  {
    var f := t.inbox[0].frame;
    hide HandleFrame, Welcome, Complaint;
    WelcomeIsAccepted(t.s, f);
    if HandleFrame(t.s, f).Accepted? {
      StreamReceive.ReceiveAcceptedStep(t, f);
    } else {
      StreamReceive.NotAccepted(t.s, f);
      StreamReceive.ReceiveRefusedStep(t, f);
      RefusedWith(t.s, f);
    }
    hide TaskStep;
  }

  // ---- the count ----

  function Failures(sent: seq<ToConn>): nat {
    if sent == [] then 0 else Failures(sent[..|sent| - 1]) + (if sent[|sent| - 1].Failure? then 1 else 0)
  }

  lemma FailuresAppend(sent: seq<ToConn>, m: ToConn)
    ensures Failures(sent + [m]) == Failures(sent) + (if m.Failure? then 1 else 0)
  {
    assert (sent + [m])[..|sent|] == sent;
  }

  function Due(phase: Phase): nat {
    if phase.AtReport? && phase.message.Failure? then 1 else 0
  }

  /** A second HEADERS frame came before the answer that no trailers are declared. */
  function Undeclared(h: History): nat {
    if h.secondEarly && h.reply.Some? && h.reply.value.1 == {} then 1 else 0
  }

  /** HEADERS frames carry the fields their payload decodes to. */
  predicate Genuine(fs: seq<Frame>) {
    forall i :: 0 <= i < |fs| ==> Seen(fs[i]) == fs[i]
  }

  /** Failures reported or about to be are the frames refused, and one more for trailers that turn out undeclared. */
  predicate Reported(t: Task) {
    && Genuine(t.h.accepted) && |t.h.accepted| <= t.h.taken
    && Failures(t.h.sent) + Due(t.phase) == t.h.taken - |t.h.accepted| + Undeclared(t.h)
    && (t.h.reply.None? ==> (t.s.trailerFrames != [] <==> t.h.secondEarly))
  }

  /** A step that takes no frame and no answer to the header block. */
  lemma ReportedStill(t: Task, t1: Task)
    requires Reported(t) && t1.h.taken == t.h.taken && t1.h.accepted == t.h.accepted && t1.h.secondEarly == t.h.secondEarly
    requires t1.h.reply == t.h.reply && (t.h.reply.None? ==> t1.s.trailerFrames == t.s.trailerFrames)
    requires Failures(t1.h.sent) + Due(t1.phase) == Failures(t.h.sent) + Due(t.phase)
    ensures Reported(t1)
  {
    hide Failures, Seen;
  }

  lemma AdvanceReported(t: Task, m: Move, phase: Phase)
    requires Reported(t) && !t.phase.AtReport? && !phase.AtReport?
    requires m.Move? ==> (m.message.Some? ==> !m.message.value.Failure?) && (t.h.reply.None? ==> m.next.trailerFrames == t.s.trailerFrames)
    ensures Reported(Advance(t, m, phase).task)
  {
    hide Failures, Reported;
    if m.Move? && m.message.Some? {
      FailuresAppend(t.h.sent, m.message.value);
    }
    ReportedStill(t, Advance(t, m, phase).task);
  }

  lemma {:induction false} DrainTrailerFrames(s: Stream, out: seq<Frame>)
    ensures Drain(s, out).Drained? ==> Drain(s, out).next.trailerFrames == s.trailerFrames
    decreases |s.pending|
  {
    if s.pending != [] && !MustWait(s.window, s.pending[0]) && !(s.state.Idle? && !SendableFromIdle(s.pending[0])) {
      DrainTrailerFrames(SendPending(s, s.pending[0], s.pending[1..]), out + [s.pending[0]]);
    }
  }

  lemma RespondReported(t: Task)
    requires Reported(t) && t.phase.AtRespond?
    ensures Reported(RespondStep(t).task)
  {
    hide Failures, Reported, Drain;
    DrainTrailerFrames(t.s, []);
    AdvanceReported(t, StreamModel.Respond(t.s), AtReceive);
    var t1 := Advance(t, StreamModel.Respond(t.s), AtReceive).task;
    ReportedStill(t1, RespondStep(t).task);
  }

  lemma TrailersReported(t: Task)
    requires Reported(t) && t.phase.AtTrailers? && (t.s.headerState.Completed? ==> t.h.reply.Some?)
    ensures CanStep(t, false) && Reported(TaskStep(t, false).task)
  {
    hide Failures, Reported, Advance, AllFragments, Fragments;
    AdvanceReported(t, CompositeTrailers(t.s), AtDispatch);
  }

  lemma ReportReported(t: Task)
    requires Reported(t) && t.phase.AtReport?
    ensures CanStep(t, false) && Reported(TaskStep(t, false).task)
  {
    hide Failures, TaskStep;
    ReportStep(t);
    FailuresAppend(t.h.sent, t.phase.message);
    ReportedStill(t, TaskStep(t, false).task);
  }

  lemma CancelReported(t: Task)
    requires Reported(t) && t.phase.AtReceive?
    ensures CanStep(t, true) && Reported(TaskStep(t, true).task)
  {
    hide Failures, TaskStep;
    StreamReceive.CancelStep(t);
    ReportedStill(t, TaskStep(t, true).task);
  }

  // ---- what is received ----

  /** What the invariant says of a stream that takes a block frame. */
  predicate Placed(s: Stream, h: History) {
    && (h.reply.None? ==> !s.headerState.Completed?)
    && (!s.headerState.Initial? ==> !s.state.Idle? && !s.state.Reserved? && !s.state.HalfClosedLocal?)
    && (s.headerState.WaitingResponse? && !s.trailerState.Initial? ==> s.trailerFrames != [])
  }

  lemma PlacedIn(t: Task)
    requires LocalInv(t)
    ensures Placed(t.s, t.h)
    ensures t.s.headerState.Completed? <==> t.h.reply.Some?
  {
    hide LocalInv, BlockInv, RequestInv, FlowInv, ContentInv;
    Parts(t);
    Reading.ReplySituation(t.s, t.phase, t.h);
    Guarantees.StateFacts(t);
    StreamReceive.StateFacts(t.s, t.phase, t.h);
    BlockFrames(t.s, t.phase, t.h);
  }

  lemma BlockFrames(s: Stream, phase: Phase, h: History)
    requires RequestInv(s, phase, h)
    ensures s.headerState.WaitingResponse? && !s.trailerState.Initial? ==> s.trailerFrames != []
  {
    hide DispatchOk, TrailerOk, SecondOk, Dispatchable, NoPseudo, MergeAll, AllFragments, Complained;
  }

  /** A block frame joins the trailers before the answer exactly if a second HEADERS frame has begun them. */
  lemma TrailersBegun(s: Stream, h: History, f: Frame)
    requires Placed(s, h) && HandleFrame(s, f).Accepted? && h.reply.None? && (s.trailerFrames != [] <==> h.secondEarly)
    ensures HandleFrame(s, f).next.trailerFrames != [] <==> Consumed(s, h, FrameForRequest(f)).secondEarly
  {
    hide HandleFrame;
    StreamReceive.AcceptedEffect(s, f);
  }

  /** A frame is accepted, or its refusal is due to be reported. */
  lemma FrameDue(t: Task)
    requires t.inbox != [] && t.inbox[0].FrameForRequest?
    ensures var (f, t1) := (t.inbox[0].frame, ReceiveStep(t).task);
      || (t1.h == t.h && t1.s == t.s && t1.phase.Failed?)
      || (t1.h == Consumed(t.s, t.h, t.inbox[0]) && !HandleFrame(t.s, f).Panic?
          && t1.s == (if HandleFrame(t.s, f).Accepted? then HandleFrame(t.s, f).next else t.s)
          && Due(t1.phase) == if HandleFrame(t.s, f).Accepted? then 0 else 1)
  {
    hide HandleFrame, Consumed;
  }

  lemma FrameCounted(s: Stream, h: History, f: Frame)
    ensures var h1 := Consumed(s, h, FrameForRequest(f));
      && h1.taken == h.taken + 1 && h1.sent == h.sent && h1.reply == h.reply
      && h1.accepted == (if HandleFrame(s, f).Accepted? then h.accepted + [f] else h.accepted)
      && (!HandleFrame(s, f).Accepted? || h.reply.Some? ==> h1.secondEarly == h.secondEarly || s.headerState.WaitingResponse?)
      && (!HandleFrame(s, f).Accepted? ==> h1.secondEarly == h.secondEarly)
      && (!s.headerState.WaitingResponse? ==> h1.secondEarly == h.secondEarly)
  {
    hide HandleFrame;
  }

  lemma NextGenuine(t: Task)
    requires LocalInv(t) && t.phase.AtReceive? && !t.cancelled && t.inbox != [] && t.inbox[0].FrameForRequest?
    ensures Seen(t.inbox[0].frame) == t.inbox[0].frame
  {
    hide LocalInv, BlockInv, RequestInv, FlowInv, ContentInv, Logged, BlockPlaced, HeaderProgress, Seen;
    Parts(t);
    Reading.FrameTurn(t);
    StreamReceive.BlockParts(t.s, t.phase, t.inbox, t.h);
    StreamReceive.LoggedChecked(t.s.id, t.h.forwarded, t.h.taken, t.inbox, false, t.h.taken);
  }

  lemma FrameReported(t: Task)
    requires LocalInv(t) && Reported(t) && t.phase.AtReceive? && !t.cancelled && t.inbox != [] && t.inbox[0].FrameForRequest?
    ensures Reported(ReceiveStep(t).task)
  {
    hide LocalInv, ReceiveStep, HandleFrame, Consumed, Failures, Seen;
    var f := t.inbox[0].frame;
    PlacedIn(t);
    NextGenuine(t);
    FrameDue(t);
    FrameCounted(t.s, t.h, f);
    if HandleFrame(t.s, f).Accepted? && t.h.reply.None? {
      TrailersBegun(t.s, t.h, f);
    }
    hide Placed;
  }

  predicate AtAnswer(t: Task) {
    LocalInv(t) && Reported(t) && HeadOk(t) && t.phase.AtReceive? && !t.cancelled && t.inbox != []
  }

  lemma ResponseReported(t: Task, encoded: seq<Byte>, body: Option<seq<Byte>>)
    requires AtAnswer(t) && t.inbox[0] == ResponseObject(encoded, body)
    ensures Reported(TaskStep(t, false).task)
  {
    hide LocalInv, HeadOk, TaskStep, HandleResponse, CanSend, Truncate, ResponseHeaders, ResponseData, Failures;
    StreamReceive.ResponseStep(t, encoded, body);
    FailuresAppend(t.h.sent, HandleResponse(t.s, encoded, body).1);
    ReportedStill(t, TaskStep(t, false).task);
  }

  lemma AnswerReported(t: Task, headers: Headers, names: set<string>)
    requires AtAnswer(t) && t.inbox[0] == HeadersDecoded(headers, names)
    ensures Reported(TaskStep(t, false).task)
  {
    hide LocalInv, TaskStep, Failures, Dispatchable;
    PlacedIn(t);
    StreamReceive.HeadersStep(t, headers, names);
    hide Placed;
  }

  lemma TrailersTaken(t: Task, headers: Headers)
    requires AtAnswer(t) && t.inbox[0] == TrailersDecoded(headers)
    ensures Reported(TaskStep(t, false).task)
  {
    hide LocalInv, HeadOk, TaskStep, Failures;
    StreamReceive.TrailersStep(t, headers);
    ReportedStill(t, TaskStep(t, false).task);
  }

  lemma ReceiveReported(t: Task)
    requires AtAnswer(t)
    ensures Reported(TaskStep(t, false).task)
  {
    hide LocalInv, Reported, HeadOk, ReceiveStep, TaskStep;
    SystemInvariant.StepReceives(t);
    match t.inbox[0] {
      case FrameForRequest(_) => FrameReported(t);
      case ResponseObject(encoded, body) => ResponseReported(t, encoded, body);
      case HeadersDecoded(headers, names) => AnswerReported(t, headers, names);
      case TrailersDecoded(headers) => TrailersTaken(t, headers);
    }
  }

  lemma StepReported(t: Task, cancelled: bool)
    requires LocalInv(t) && Reported(t) && HeadOk(t) && CanStep(t, cancelled) && (t.cancelled ==> cancelled)
    ensures Reported(TaskStep(t, cancelled).task)
  {
    hide LocalInv, Reported, HeadOk, ReceiveStep, RespondStep, AllFragments, Fragments, TryFrom, FirstBody, Advance;
    match t.phase {
      case AtHeaders => AdvanceReported(t, CompositeHeaders(t.s), AtTrailers);
      case AtTrailers =>
        PlacedIn(t);
        TrailersReported(t);
      case AtDispatch => AdvanceReported(t, DispatchIfNeeded(t.s), AtRespond);
      case AtRespond => RespondReported(t);
      case AtReport(_) => ReportReported(t);
      case AtReceive =>
        if cancelled {
          CancelReported(t);
        } else {
          ReceiveReported(t);
        }
    }
  }
}
