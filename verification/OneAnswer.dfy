/** A stream's trailers are answered once: the first answer leads straight to the dispatch of the request. */
module OneAnswer {
  import opened Wrappers
  import opened Bytes
  import opened Frames
  import opened Messages
  import opened RequestContext
  import opened StreamModel
  import opened System
  import opened StreamInvariant
  import StreamReceive
  import SystemInvariant
  import Reading

  /** The first answer to a trailer block leads straight to the dispatch, before anything else is received. */
  predicate AnsweredOnce(t: Task) {
    && (Num(t.h.sent, KTrailers, t.s.id) > 0 ==> t.s.requestEnd)
    && |t.h.lateReplies| <= 1
    && (t.h.lateReplies != [] ==> t.s.dispatched || (BeforeDispatch(t.phase) && Complete(t.s)))
  }

  predicate Complete(s: Stream) {
    s.headerState.Completed? && s.trailerState.Completed? && s.requestEnd && s.composited.Some?
  }

  predicate BeforeDispatch(phase: Phase) {
    phase.AtHeaders? || phase.AtTrailers? || phase.AtDispatch?
  }

  /** A step that takes no trailers, and dispatches if it has to. */
  lemma OnceStill(t: Task, t1: Task)
    requires AnsweredOnce(t) && t1.s.id == t.s.id && t1.h.lateReplies == t.h.lateReplies && (t.s.requestEnd ==> t1.s.requestEnd)
    requires Num(t1.h.sent, KTrailers, t.s.id) > 0 ==> Num(t.h.sent, KTrailers, t.s.id) > 0 || t.s.requestEnd
    requires t.s.dispatched ==> t1.s.dispatched
    requires t.h.lateReplies != [] && !t.s.dispatched ==> t1.s.dispatched || (BeforeDispatch(t1.phase) && t1.s == t.s)
    ensures AnsweredOnce(t1)
  {
    hide Num;
  }

  lemma SentOnce(t: Task, t1: Task, m: ToConn)
    requires AnsweredOnce(t) && t1.h == t.h.(sent := t.h.sent + [m]) && (m.TrailersToDecode? ==> t.s.requestEnd)
    requires t1.s.id == t.s.id && (t.s.requestEnd ==> t1.s.requestEnd) && (t.s.dispatched ==> t1.s.dispatched)
    requires t.h.lateReplies != [] && !t.s.dispatched ==> t1.s.dispatched || (BeforeDispatch(t1.phase) && t1.s == t.s)
    ensures AnsweredOnce(t1)
  {
    NumAppend(t.h.sent, m, KTrailers, t.s.id);
    hide Num, AnsweredOnce;
    OnceStill(t, t1);
  }

  lemma Advanced(t: Task, m: Move, phase: Phase)
    ensures m.Crash? ==> Advance(t, m, phase).task == t.(phase := Failed)
    ensures m.Move? && m.message.None? ==> Advance(t, m, phase).task == t.(s := m.next, phase := phase)
    ensures m.Move? && m.message.Some? ==>
      Advance(t, m, phase).task == t.(s := m.next, phase := phase, h := t.h.(sent := t.h.sent + [m.message.value]))
  {}

  lemma AdvanceOnce(t: Task, m: Move, phase: Phase)
    requires AnsweredOnce(t)
    requires m.Move? ==> m.next.id == t.s.id && (t.s.requestEnd ==> m.next.requestEnd) && (t.s.dispatched ==> m.next.dispatched)
    requires m.Move? && m.message.Some? && m.message.value.TrailersToDecode? ==> t.s.requestEnd
    requires t.h.lateReplies != [] && !t.s.dispatched ==> m.Move? && (m.next.dispatched || (BeforeDispatch(phase) && m.next == t.s))
    ensures AnsweredOnce(Advance(t, m, phase).task)
  {
    hide AnsweredOnce, BeforeDispatch, Num, Advance;
    Advanced(t, m, phase);
    if m.Move? && m.message.Some? {
      SentOnce(t, Advance(t, m, phase).task, m.message.value);
    } else {
      OnceStill(t, Advance(t, m, phase).task);
    }
  }

  lemma HeadersOnce(t: Task)
    requires AnsweredOnce(t) && t.phase.AtHeaders?
    ensures CanStep(t, false) && AnsweredOnce(TaskStep(t, false).task)
  {
    AdvanceOnce(t, CompositeHeaders(t.s), AtTrailers);
    hide Num, AllFragments, Fragments, Advance;
  }

  lemma TrailersOnce(t: Task)
    requires AnsweredOnce(t) && t.phase.AtTrailers?
    ensures CanStep(t, false) && AnsweredOnce(TaskStep(t, false).task)
  {
    AdvanceOnce(t, CompositeTrailers(t.s), AtDispatch);
    hide Num, AllFragments, Fragments, Advance;
  }

  lemma DispatchOnce(t: Task)
    requires LocalInv(t) && AnsweredOnce(t) && t.phase.AtDispatch?
    ensures CanStep(t, false) && AnsweredOnce(TaskStep(t, false).task)
  {
    Parts(t);
    hide LocalInv, BlockInv, RequestInv, FlowInv, ContentInv, TryFrom, FirstBody, Num, Advance, TaskStep;
    DispatchMove(t);
    AdvanceOnce(t, DispatchIfNeeded(t.s), AtRespond);
  }

  lemma {:induction false} DrainOnce(s: Stream, out: seq<Frame>)
    ensures Drain(s, out).Drained? ==> Drain(s, out).next.dispatched == s.dispatched && Drain(s, out).next.requestEnd == s.requestEnd
    decreases |s.pending|
  {
    if s.pending != [] && !MustWait(s.window, s.pending[0]) && !(s.state.Idle? && !SendableFromIdle(s.pending[0])) {
      DrainOnce(SendPending(s, s.pending[0], s.pending[1..]), out + [s.pending[0]]);
    }
  }

  lemma RespondOnce(t: Task)
    requires AnsweredOnce(t) && t.phase.AtRespond?
    ensures AnsweredOnce(RespondStep(t).task)
  {
    DrainOnce(t.s, []);
    SystemInvariant.RespondKeeps(t.s);
    assert t.h.lateReplies != [] ==> t.s.dispatched;
    hide AnsweredOnce, Drain, Num;
    AdvanceOnce(t, StreamModel.Respond(t.s), AtReceive);
    FlushedOnce(Advance(t, StreamModel.Respond(t.s), AtReceive).task, RespondStep(t).task.h.flushed);
  }

  lemma FlushedOnce(t: Task, flushed: seq<Frame>)
    requires AnsweredOnce(t)
    ensures AnsweredOnce(t.(h := t.h.(flushed := flushed)))
  {
    hide Num;
  }

  lemma ReportOnce(t: Task)
    requires LocalInv(t) && AnsweredOnce(t) && t.phase.AtReport?
    ensures CanStep(t, false) && AnsweredOnce(TaskStep(t, false).task)
  {
    hide LocalInv, TaskStep, Num;
    ReportStep(t);
    ReportIsOwn(t);
    SentOnce(t, TaskStep(t, false).task, t.phase.message);
  }

  lemma CancelOnce(t: Task)
    requires AnsweredOnce(t) && t.phase.AtReceive?
    ensures CanStep(t, true) && AnsweredOnce(TaskStep(t, true).task)
  {
    hide TaskStep, Num;
    StreamReceive.CancelStep(t);
    OnceStill(t, TaskStep(t, true).task);
  }

  /** What is known when a message is received. */
  predicate AtReceipt(t: Task) {
    LocalInv(t) && AnsweredOnce(t) && HeadOk(t) && t.phase.AtReceive? && t.inbox != []
  }

  /** A frame neither undoes the end of a request nor its dispatch. */
  lemma FrameOnwards(s: Stream, f: Frame)
    requires HandleFrame(s, f).Accepted?
    ensures var s1 := HandleFrame(s, f).next; s1.id == s.id && s1.dispatched == s.dispatched && (s.requestEnd ==> s1.requestEnd)
  {
    hide HandleFrame, StreamReceive.Allowed;
    StreamReceive.AcceptedEffect(s, f);
  }

  lemma FrameOnce(t: Task)
    requires AtReceipt(t) && t.inbox[0].FrameForRequest?
    ensures AnsweredOnce(ReceiveStep(t).task)
  {
    hide LocalInv, HeadOk, ReceiveStep, HandleFrame, Consumed, Num;
    var f := t.inbox[0].frame;
    if HandleFrame(t.s, f).Accepted? {
      FrameOnwards(t.s, f);
    }
    Reading.FrameStep(t);
    SystemInvariant.ConsumedFrame(t.s, t.h, f);
    OnceStill(t, ReceiveStep(t).task);
  }

  lemma ResponseOnce(t: Task, encoded: seq<Byte>, body: Option<seq<Byte>>)
    requires AtReceipt(t) && t.inbox[0] == ResponseObject(encoded, body)
    ensures AnsweredOnce(TaskStep(t, false).task)
  {
    hide LocalInv, HeadOk, TaskStep, HandleResponse, CanSend, Truncate, ResponseHeaders, ResponseData, Num;
    StreamReceive.ResponseStep(t, encoded, body);
    var m := HandleResponse(t.s, encoded, body).1;
    NumAppend(t.h.sent, m, KTrailers, t.s.id);
    OnceStill(t, TaskStep(t, false).task);
  }

  lemma ReplyOnce(t: Task, headers: Headers, names: set<string>)
    requires AtReceipt(t) && t.inbox[0] == HeadersDecoded(headers, names)
    ensures AnsweredOnce(TaskStep(t, false).task)
  {
    hide LocalInv, HeadOk, TaskStep, Num;
    StreamReceive.HeadersStep(t, headers, names);
    OnceStill(t, TaskStep(t, false).task);
  }

  /** Trailers are answered after they were asked for, and before the dispatch unless the stream fails. */
  lemma Awaited(t: Task)
    requires AtReceipt(t) && t.inbox[0].TrailersDecoded?
    ensures t.phase.AtReceive? && t.h.lateReplies != [] ==> t.s.dispatched
    ensures t.s.headerState.Completed? && t.s.requestEnd && |t.h.lateReplies| <= 1
    ensures t.s.composited.Some? ==> !t.s.dispatched
  {
    hide LocalInv, BlockInv, RequestInv, FlowInv, ContentInv, Num, NoPseudo;
    Parts(t);
    Reading.ReplySituation(t.s, t.phase, t.h);
    NotYetDispatched(t);
  }

  lemma LateAnswer(t: Task, t1: Task)
    requires t.h.lateReplies != [] ==> t.s.dispatched
    requires t.s.requestEnd && |t.h.lateReplies| <= 1 && (t.s.composited.Some? ==> !t.s.dispatched)
    requires t1.s.dispatched == t.s.dispatched && t1.s.requestEnd
    requires if t.s.composited.None? then t1.h.lateReplies == t.h.lateReplies
             else |t1.h.lateReplies| == |t.h.lateReplies| + 1 && BeforeDispatch(t1.phase) && Complete(t1.s)
    ensures AnsweredOnce(t1)
  {
    hide Num;
  }

  lemma LateOnce(t: Task, headers: Headers)
    requires AtReceipt(t) && t.inbox[0] == TrailersDecoded(headers)
    ensures AnsweredOnce(TaskStep(t, false).task)
  {
    hide LocalInv, HeadOk, TaskStep, Num;
    Awaited(t);
    StreamReceive.TrailersStep(t, headers);
    LateAnswer(t, TaskStep(t, false).task);
  }

  lemma NotYetDispatched(t: Task)
    requires LocalInv(t)
    ensures t.s.composited.Some? ==> !t.s.dispatched
  {
    hide BlockInv, FlowInv, ContentInv, RequestOk, TrailerOk, SecondOk, BuiltFrom, Num, Complained;
  }

  lemma ReceiveOnce(t: Task)
    requires AtReceipt(t)
    ensures AnsweredOnce(TaskStep(t, false).task)
  {
    hide LocalInv, AnsweredOnce, HeadOk, ReceiveStep, TaskStep;
    SystemInvariant.StepReceives(t);
    match t.inbox[0] {
      case FrameForRequest(_) => FrameOnce(t);
      case ResponseObject(encoded, body) => ResponseOnce(t, encoded, body);
      case HeadersDecoded(headers, names) => ReplyOnce(t, headers, names);
      case TrailersDecoded(headers) => LateOnce(t, headers);
    }
  }

  lemma StepOnce(t: Task, cancelled: bool)
    requires LocalInv(t) && AnsweredOnce(t) && HeadOk(t) && CanStep(t, cancelled)
    ensures AnsweredOnce(TaskStep(t, cancelled).task)
  {
    hide LocalInv, AnsweredOnce, HeadOk, ReceiveStep, RespondStep, CompositeHeaders, CompositeTrailers, DispatchIfNeeded, Advance;
    match t.phase {
      case AtHeaders => HeadersOnce(t);
      case AtTrailers => TrailersOnce(t);
      case AtDispatch => DispatchOnce(t);
      case AtRespond => RespondOnce(t);
      case AtReport(_) => ReportOnce(t);
      case AtReceive =>
        if cancelled {
          CancelOnce(t);
        } else {
          ReceiveOnce(t);
        }
    }
  }
}
