/** The request a stream reads off the frames forwarded to it, and that its history follows this reading. */
module Reading {
  import opened Wrappers
  import opened Bytes
  import opened Frames
  import opened Messages
  import opened RequestContext
  import opened StreamModel
  import opened System
  import opened StreamInvariant
  import StreamReceive
  import SystemInvariant

  /** What has been read: how many header blocks, whether the request has ended, its body and the frames of its trailers. */
  datatype Read = Read(heads: nat, ended: bool, reset: bool, body: Option<seq<Byte>>, block: seq<Frame>)

  const NOTHING_READ := Read(0, false, false, None, [])

  predicate Whole(block: seq<Frame>) {
    block != [] && block[|block| - 1].HasEndHeaders()
  }

  /** One more frame; `trailers` says whether the header block declares any. */
  function ReadMore(r: Read, f: Frame, trailers: bool): Read {
    match f.ty
    case Headers(_, _, _, _) =>
      if r.heads == 0 then r.(heads := 1, ended := f.HasEndStream())
      else if trailers && r.heads == 1 && !r.ended && !r.reset then r.(heads := 2, ended := f.HasEndStream(), block := [f])
      else r
    case Continuation(_) => if r.heads == 2 && !Whole(r.block) then r.(block := r.block + [f]) else r
    case Data(_, _) =>
      if r.heads > 0 && !r.ended && !r.reset
      then r.(ended := f.HasEndStream(), body := if r.body.None? then Some(f.payload) else r.body) else r
    case RstStream => if r.heads > 0 then r.(reset := true) else r
    case _ => r
  }

  function ReadAll(fs: seq<Frame>, trailers: bool): Read {
    if fs == [] then NOTHING_READ else ReadMore(ReadAll(fs[..|fs| - 1], trailers), fs[|fs| - 1], trailers)
  }

  /** Frames behind the end of a request add nothing to its body. */
  lemma {:induction false} BodySettled(a: seq<Frame>, b: seq<Frame>, trailers: bool)
    requires a <= b && ReadAll(a, trailers).ended
    ensures ReadAll(b, trailers).ended && ReadAll(b, trailers).body == ReadAll(a, trailers).body
    decreases |b|
  {
    if a != b {
      assert a <= b[..|b| - 1];
      BodySettled(a, b[..|b| - 1], trailers);
      EndedHasHeads(b[..|b| - 1], trailers);
    }
  }

  /** Nor do frames behind a whole trailer block to that. */
  lemma {:induction false} BlockSettled(a: seq<Frame>, b: seq<Frame>, trailers: bool)
    requires a <= b && ReadAll(a, trailers).heads == 2 && Whole(ReadAll(a, trailers).block)
    ensures ReadAll(b, trailers).heads == 2 && ReadAll(b, trailers).block == ReadAll(a, trailers).block
    decreases |b|
  {
    if a != b {
      assert a <= b[..|b| - 1];
      BlockSettled(a, b[..|b| - 1], trailers);
    }
  }

  lemma {:induction false} EndedHasHeads(fs: seq<Frame>, trailers: bool)
    ensures ReadAll(fs, trailers).ended ==> ReadAll(fs, trailers).heads > 0
  {
    if fs != [] {
      EndedHasHeads(fs[..|fs| - 1], trailers);
    }
  }

  // ---- the stream's history against the reading ----

  /** The accepted frames are the request as read. */
  predicate AgreesOn(accepted: seq<Frame>, r: Read) {
    && r.heads == CountHeaders(accepted)
    && r.ended == AnyEnd(accepted)
    && r.reset == AnyReset(accepted)
    && r.body == FirstPayload(DataFrames(accepted))
  }

  /** The history shows the request as read; the trailer block while nothing came behind its end. */
  predicate Agrees(h: History, r: Read) {
    AgreesOn(h.accepted, r) && (!h.stray && !h.extra ==> r.block == h.trailerBlock)
  }

  /** Whether trailers are declared is open until the decoder answers; a second HEADERS frame accepted before commits to it. */
  predicate Possible(h: History, trailers: bool) {
    && (h.reply.Some? ==> (h.reply.value.1 != {}) == trailers)
    && (h.secondEarly ==> trailers)
  }

  predicate Follows(h: History, trailers: bool) {
    h.taken <= |h.forwarded| && (Possible(h, trailers) ==> Agrees(h, ReadAll(h.forwarded[..h.taken], trailers)))
  }

  /** Trailers were asked for or answered only after a second HEADERS frame. */
  predicate TrailersCame(s: Stream, h: History) {
    Num(h.sent, KTrailers, s.id) > 0 || (s.trailerState.Completed? && s.declared.Some?) ==> CountHeaders(h.accepted) == 2
  }

  predicate ReadOk(t: Task) {
    Follows(t.h, true) && Follows(t.h, false) && TrailersCame(t.s, t.h)
  }

  /** What the invariant of a stream says about accepted frames, decoding states and the trailer block. */
  predicate Situation(s: Stream, h: History) {
    var (n, over) := (CountHeaders(h.accepted), AnyEnd(h.accepted) || AnyReset(h.accepted));
    && n <= 2 && (n == 0 ==> !over)
    && (s.state.Idle? <==> n == 0)
    && (n > 0 ==> if over then s.state.HalfClosedRemote? || s.state.Closed? else s.state.Open?)
    && (s.headerState.Initial? <==> n == 0)
    && (n == 2 ==> !s.trailerState.Initial?)
    && (!s.trailerState.Initial? ==> InProgress(s.headerState))
    && (s.headerState.Completed? <==> h.reply.Some?)
    && (s.trailerState.Completed? ==> h.reply.Some? && (h.reply.value.1 != {} ==> n == 2))
    && (h.reply.Some? && h.reply.value.1 == {} ==> s.trailerState.Completed?)
    && (!s.trailerState.Initial? && !s.trailerState.Completed? ==> n == 2)
    && (n != 2 ==> h.trailerBlock == [])
    && (!h.stray && !h.extra && n == 2 ==>
          if s.trailerState.KeepGoing? then !Whole(h.trailerBlock)
          else (h.reply.Some? && h.reply.value.1 == {}) || Whole(h.trailerBlock))
  }

  lemma AgreesAppend(a: seq<Frame>, r: Read, f: Frame)
    requires AgreesOn(a, r)
    ensures CountHeaders(a + [f]) == r.heads + (if f.ty.Headers? then 1 else 0)
    ensures AnyEnd(a + [f]) <==> r.ended || f.HasEndStream()
    ensures AnyReset(a + [f]) <==> r.reset || f.ty.RstStream?
    ensures FirstPayload(DataFrames(a + [f])) == if f.ty.Data? && r.body.None? then Some(f.payload) else r.body
  {
    hide CountHeaders, AnyEnd, AnyReset, DataFrames;
    AcceptedAppend(a, f);
    StreamReceive.DataAppend(a, f);
    assert DataFrames(a) + [] == DataFrames(a);
  }

  // When the stream accepts a frame, in terms of what it has accepted before.

  lemma HeadersAccepted(s: Stream, h: History, f: Frame)
    requires Situation(s, h) && f.ty.Headers?
    ensures HandleFrame(s, f).Accepted? <==>
      CountHeaders(h.accepted) == 0 || (s.trailerState.Initial? && !AnyEnd(h.accepted) && !AnyReset(h.accepted))
    ensures HandleFrame(s, f).Accepted? && CountHeaders(h.accepted) > 0 ==> s.state.Open?
    ensures s.trailerState.Initial? ==> CountHeaders(h.accepted) <= 1
    ensures CountHeaders(h.accepted) == 1 && !s.trailerState.Initial? ==> h.reply.Some? && h.reply.value.1 == {}
    ensures CountHeaders(h.accepted) != 2 ==> h.trailerBlock == []
    ensures s.headerState.Initial? <==> CountHeaders(h.accepted) == 0
    ensures CountHeaders(h.accepted) == 0 ==> !AnyEnd(h.accepted)
    ensures s.headerState.Completed? <==> h.reply.Some?
    ensures h.reply.Some? && h.reply.value.1 == {} ==> !s.trailerState.Initial?
  {
    hide HandleFrame, CountHeaders, AnyEnd, AnyReset, IncrementOf, Whole;
    StreamReceive.AcceptedIffAllowed(s, f);
  }

  lemma ContinuationAccepted(s: Stream, h: History, f: Frame)
    requires Situation(s, h) && f.ty.Continuation?
    ensures CountHeaders(h.accepted) != 2 && InProgress(s.headerState) ==> !HandleFrame(s, f).Accepted?
    ensures CountHeaders(h.accepted) == 2 && !h.stray && !h.extra && !s.trailerState.Ready? && !s.trailerState.WaitingResponse? ==>
      if s.trailerState.KeepGoing? then HandleFrame(s, f).Accepted? && InProgress(s.headerState) && !Whole(h.trailerBlock)
      else !HandleFrame(s, f).Accepted? && ((h.reply.Some? && h.reply.value.1 == {}) || Whole(h.trailerBlock))
  {
    hide HandleFrame, CountHeaders, AnyEnd, AnyReset, IncrementOf, Whole;
    StreamReceive.AcceptedIffAllowed(s, f);
  }

  lemma OtherAccepted(s: Stream, h: History, f: Frame)
    requires Situation(s, h)
    ensures f.ty.Data? ==> (HandleFrame(s, f).Accepted? <==> CountHeaders(h.accepted) > 0 && !AnyEnd(h.accepted) && !AnyReset(h.accepted))
    ensures f.ty.RstStream? ==> (HandleFrame(s, f).Accepted? <==> CountHeaders(h.accepted) > 0)
  {
    hide HandleFrame, CountHeaders, AnyEnd, AnyReset, IncrementOf, Whole;
    if f.ty.Data? || f.ty.RstStream? {
      StreamReceive.AcceptedIffAllowed(s, f);
    }
  }

  // What the frame adds to the history is what it adds to the reading.

  /** The part of the history that the reading is about. */
  lemma FrameConsumed(s: Stream, h: History, f: Frame)
    ensures var (h1, ok) := (Consumed(s, h, FrameForRequest(f)), HandleFrame(s, f).Accepted?);
      && h1.accepted == (if ok then h.accepted + [f] else h.accepted)
      && h1.trailerBlock == (if ok && IsBlockFrame(f) && InProgress(s.headerState) then h.trailerBlock + [f] else h.trailerBlock)
      && h1.extra == (h.extra || (f.ty.Continuation? && s.trailerState.Ready?))
      && h1.stray == (h.stray || (f.ty.Continuation? && s.trailerState.WaitingResponse?))
      && h1.reply == h.reply
      && h1.secondEarly == (h.secondEarly || (ok && f.ty.Headers? && s.state.Open? && s.headerState.WaitingResponse?))
  {
    hide HandleFrame;
  }

  lemma HeadersRead(s: Stream, h: History, f: Frame, r: Read, trailers: bool)
    requires Situation(s, h) && !s.headerState.KeepGoing? && !s.headerState.Ready? && f.ty.Headers?
    requires Agrees(h, r) && Possible(h, trailers) && Possible(Consumed(s, h, FrameForRequest(f)), trailers)
    ensures Agrees(Consumed(s, h, FrameForRequest(f)), ReadMore(r, f, trailers))
  {
    hide Situation, HandleFrame, Consumed, CountHeaders, AnyEnd, AnyReset, FirstPayload, DataFrames;
    HeadersAccepted(s, h, f);
    FrameConsumed(s, h, f);
    AgreesAppend(h.accepted, r, f);
  }

  lemma ContinuationRead(s: Stream, h: History, f: Frame, r: Read, trailers: bool)
    requires Situation(s, h) && f.ty.Continuation?
    requires Agrees(h, r) && Possible(h, trailers) && (!trailers ==> r.heads <= 1)
    ensures Agrees(Consumed(s, h, FrameForRequest(f)), ReadMore(r, f, trailers))
  {
    hide Situation, HandleFrame, Consumed, CountHeaders, AnyEnd, AnyReset, FirstPayload, DataFrames, Whole;
    ContinuationAccepted(s, h, f);
    FrameConsumed(s, h, f);
    AgreesAppend(h.accepted, r, f);
  }

  lemma OtherRead(s: Stream, h: History, f: Frame, r: Read, trailers: bool)
    requires Situation(s, h) && !IsBlockFrame(f) && Agrees(h, r)
    ensures Agrees(Consumed(s, h, FrameForRequest(f)), ReadMore(r, f, trailers))
  {
    hide Situation, HandleFrame, Consumed, CountHeaders, AnyEnd, AnyReset, FirstPayload, DataFrames;
    OtherAccepted(s, h, f);
    FrameConsumed(s, h, f);
    AgreesAppend(h.accepted, r, f);
  }

  // ---- the situation of a stream ----

  lemma StateSituation(s: Stream, phase: Phase, h: History)
    requires FlowInv(s, phase, h)
    ensures var (n, over) := (CountHeaders(h.accepted), AnyEnd(h.accepted) || AnyReset(h.accepted));
      && n <= 2 && (n == 0 ==> !over)
      && (s.state.Idle? <==> n == 0)
      && (n > 0 ==> if over then s.state.HalfClosedRemote? || s.state.Closed? else s.state.Open?)
      && (s.headerState.Initial? <==> n == 0)
      && (n == 2 ==> !s.trailerState.Initial?)
      && (!s.trailerState.Initial? ==> InProgress(s.headerState))
  {
    hide WindowOk, ResponseOk, CountOk, OwnMessages, EndsOnce, FailedOk, CountHeaders;
  }

  lemma ReplySituation(s: Stream, phase: Phase, h: History)
    requires RequestInv(s, phase, h)
    ensures s.headerState.Completed? <==> h.reply.Some?
    ensures s.declared.Some? <==> h.reply.Some? && h.reply.value.1 != {}
    ensures s.trailerState.Completed? ==> h.reply.Some?
    ensures h.reply.Some? && h.reply.value.1 == {} ==> s.trailerState.Completed?
    ensures !h.stray && s.trailerState.Completed? && s.declared.Some? ==> Num(h.sent, KTrailers, s.id) > 0
  {
    hide DispatchOk, SecondOk, Dispatchable, NoPseudo, MergeAll, Num, Complained;
  }

  lemma TrailerSituation(s: Stream, h: History)
    requires ContentInv(s, h)
    ensures !s.trailerState.Initial? && !s.trailerState.Completed? ==> CountHeaders(h.accepted) == 2
    ensures CountHeaders(h.accepted) != 2 ==> h.trailerBlock == []
    ensures !h.stray && !h.extra ==>
      && (s.trailerState.KeepGoing? ==> !Whole(h.trailerBlock))
      && (s.trailerState.Ready? || s.trailerState.WaitingResponse? || Num(h.sent, KTrailers, s.id) > 0 ==> Whole(h.trailerBlock))
  {
    hide BodyOk, Num, CountHeaders, BlockTail, AllFragments, Fragments;
  }

  lemma SituationHolds(t: Task)
    requires LocalInv(t) && TrailersCame(t.s, t.h)
    ensures Situation(t.s, t.h)
    ensures t.s.declared.Some? <==> t.h.reply.Some? && t.h.reply.value.1 != {}
  {
    hide LocalInv, BlockInv, RequestInv, FlowInv, ContentInv, CountHeaders, AnyEnd, AnyReset, Num, Whole;
    Parts(t);
    StateSituation(t.s, t.phase, t.h);
    ReplySituation(t.s, t.phase, t.h);
    TrailerSituation(t.s, t.h);
  }

  // ---- every step ----

  lemma {:induction false} OneHead(fs: seq<Frame>)
    ensures ReadAll(fs, false).heads <= 1
  {
    if fs != [] {
      OneHead(fs[..|fs| - 1]);
    }
  }

  lemma FrameRead(s: Stream, h: History, f: Frame, trailers: bool)
    requires Situation(s, h) && StreamReceive.InTurn(s.headerState, f) && !s.headerState.Ready?
    requires h.taken < |h.forwarded| && h.forwarded[h.taken] == f && Follows(h, trailers)
    ensures Follows(Consumed(s, h, FrameForRequest(f)), trailers)
  {
    hide Situation, HandleFrame, Agrees, ReadMore, ReadAll;
    SystemInvariant.ConsumedFrame(s, h, f);
    var h1, before := Consumed(s, h, FrameForRequest(f)), h.forwarded[..h.taken];
    var r := ReadAll(before, trailers);
    ReadNext(h.forwarded, h.taken, trailers);
    if Possible(h1, trailers) {
      match f.ty {
        case Headers(_, _, _, _) => HeadersRead(s, h, f, r, trailers);
        case Continuation(_) =>
          OneHead(before);
          ContinuationRead(s, h, f, r, trailers);
        case _ => OtherRead(s, h, f, r, trailers);
      }
    }
  }

  lemma ReadNext(fs: seq<Frame>, n: nat, trailers: bool)
    requires n < |fs|
    ensures ReadAll(fs[..n + 1], trailers) == ReadMore(ReadAll(fs[..n], trailers), fs[n], trailers)
  {
    assert fs[..n + 1][..n] == fs[..n];
  }

  /** A step that accepts nothing, and reveals nothing that was not possible. */
  predicate NothingTaken(h: History, h1: History) {
    && h1.forwarded == h.forwarded && h1.taken == h.taken && h1.accepted == h.accepted && h1.trailerBlock == h.trailerBlock
    && h1.stray == h.stray && h1.extra == h.extra && h1.secondEarly == h.secondEarly
    && (h.reply.Some? ==> h1.reply == h.reply)
  }

  lemma FollowsStill(h: History, h1: History, trailers: bool)
    requires Follows(h, trailers) && NothingTaken(h, h1)
    ensures Follows(h1, trailers)
  {
    hide ReadAll, DataFrames, CountHeaders, AnyEnd, AnyReset;
  }

  /** A third HEADERS frame is never accepted, so two stay two. */
  lemma FrameCame(s: Stream, h: History, f: Frame)
    requires Situation(s, h) && TrailersCame(s, h) && HandleFrame(s, f).Accepted?
    ensures TrailersCame(HandleFrame(s, f).next, Consumed(s, h, FrameForRequest(f)))
  {
    StreamReceive.AcceptedEffect(s, f);
    AcceptedAppend(h.accepted, f);
    hide HandleFrame, Num, CountHeaders, AnyEnd, AnyReset, DataFrames, IncrementOf;
  }

  lemma FrameTurn(t: Task)
    requires LocalInv(t) && t.phase.AtReceive? && !t.cancelled && t.inbox != [] && t.inbox[0].FrameForRequest?
    ensures t.h.taken < |t.h.forwarded| && t.h.forwarded[t.h.taken] == t.inbox[0].frame
    ensures StreamReceive.InTurn(t.s.headerState, t.inbox[0].frame) && !t.s.headerState.Ready?
  {
    hide LocalInv, BlockInv, RequestInv, FlowInv, ContentInv, Logged, BlockPlaced, HeaderProgress;
    Parts(t);
    StreamReceive.BlockParts(t.s, t.phase, t.inbox, t.h);
    StreamReceive.NextTaken(t.s.id, t.h.forwarded, t.h.taken, t.inbox);
    StreamReceive.NextInBlock(t.h.forwarded, t.h.first, t.h.block, t.h.closed, t.h.taken, t.s.headerState, t.s.headerFrames);
  }

  lemma FrameStep(t: Task)
    requires t.inbox != [] && t.inbox[0].FrameForRequest?
    ensures var (f, t1) := (t.inbox[0].frame, ReceiveStep(t).task);
      || t1 == t.(phase := Failed)
      || (t1.h == Consumed(t.s, t.h, t.inbox[0]) && t1.s == if HandleFrame(t.s, f).Accepted? then HandleFrame(t.s, f).next else t.s)
  {
    hide HandleFrame, Consumed;
  }

  lemma FrameReadOk(t: Task)
    requires LocalInv(t) && ReadOk(t) && t.phase.AtReceive? && !t.cancelled && t.inbox != [] && t.inbox[0].FrameForRequest?
    ensures ReadOk(ReceiveStep(t).task)
  {
    hide LocalInv, Follows, Situation, ReceiveStep, HandleFrame, Consumed, TrailersCame;
    var f := t.inbox[0].frame;
    SituationHolds(t);
    FrameTurn(t);
    FrameStep(t);
    FrameRead(t.s, t.h, f, true);
    FrameRead(t.s, t.h, f, false);
    if HandleFrame(t.s, f).Accepted? {
      FrameCame(t.s, t.h, f);
    } else {
      RefusedCame(t.s, t.h, f);
    }
  }

  lemma RefusedCame(s: Stream, h: History, f: Frame)
    requires TrailersCame(s, h) && !HandleFrame(s, f).Accepted?
    ensures TrailersCame(s, Consumed(s, h, FrameForRequest(f)))
  {
    hide HandleFrame, Num, CountHeaders;
  }

  predicate AtAnswer(t: Task) {
    LocalInv(t) && ReadOk(t) && HeadOk(t) && t.phase.AtReceive? && t.inbox != []
  }

  /** An answer taken, a response handed over, or nothing of either. */
  lemma Untaken(t: Task, t1: Task)
    requires ReadOk(t) && NothingTaken(t.h, t1.h) && TrailersCame(t1.s, t1.h)
    ensures ReadOk(t1)
  {
    hide Follows, NothingTaken, TrailersCame;
    FollowsStill(t.h, t1.h, true);
    FollowsStill(t.h, t1.h, false);
  }

  /** A message that asks for no trailers, or asks for them with reason. */
  lemma SentReadOk(t: Task, t1: Task, m: ToConn)
    requires ReadOk(t) && NothingTaken(t.h, t1.h) && t1.h.sent == t.h.sent + [m]
    requires t1.s.id == t.s.id && t1.s.declared == t.s.declared && (t1.s.trailerState.Completed? ==> t.s.trailerState.Completed?)
    requires m.TrailersToDecode? ==> CountHeaders(t.h.accepted) == 2
    ensures ReadOk(t1)
  {
    NumAppend(t.h.sent, m, KTrailers, t.s.id);
    hide Follows, Num, CountHeaders;
    Untaken(t, t1);
  }

  lemma ResponseReadOk(t: Task, encoded: seq<Byte>, body: Option<seq<Byte>>)
    requires AtAnswer(t) && t.inbox[0] == ResponseObject(encoded, body)
    ensures ReadOk(TaskStep(t, false).task)
  {
    hide LocalInv, ReadOk, HeadOk, TaskStep, HandleResponse, CanSend, Truncate, ResponseHeaders, ResponseData, CountHeaders;
    StreamReceive.ResponseStep(t, encoded, body);
    SentReadOk(t, TaskStep(t, false).task, HandleResponse(t.s, encoded, body).1);
  }

  lemma HeadersReadOk(t: Task, headers: Headers, names: set<string>)
    requires AtAnswer(t) && t.inbox[0] == HeadersDecoded(headers, names)
    ensures ReadOk(TaskStep(t, false).task)
  {
    hide LocalInv, BlockInv, RequestInv, FlowInv, ContentInv, Follows, TaskStep, Num, CountHeaders, Dispatchable;
    Parts(t);
    ReplySituation(t.s, t.phase, t.h);
    StreamReceive.HeadersStep(t, headers, names);
    Untaken(t, TaskStep(t, false).task);
  }

  lemma TrailersReadOk(t: Task, headers: Headers)
    requires AtAnswer(t) && t.inbox[0] == TrailersDecoded(headers)
    ensures ReadOk(TaskStep(t, false).task)
  {
    hide LocalInv, Follows, TaskStep, Num, CountHeaders, NoPseudo;
    StreamReceive.TrailersStep(t, headers);
    Untaken(t, TaskStep(t, false).task);
  }

  // ---- the steps before each receive ----

  lemma AdvanceReadOk(t: Task, m: Move, phase: Phase)
    requires ReadOk(t)
    requires m.Move? ==> m.next.id == t.s.id && m.next.declared == t.s.declared
    requires m.Move? && m.next.trailerState.Completed? ==> t.s.trailerState.Completed?
    requires m.Move? && m.message.Some? && m.message.value.TrailersToDecode? ==> CountHeaders(t.h.accepted) == 2
    ensures ReadOk(Advance(t, m, phase).task)
  {
    hide Follows, Num, CountHeaders;
    if m.Move? && m.message.Some? {
      SentReadOk(t, Advance(t, m, phase).task, m.message.value);
    } else {
      Untaken(t, Advance(t, m, phase).task);
    }
  }

  lemma {:induction false} DrainTrailers(s: Stream, out: seq<Frame>)
    ensures Drain(s, out).Drained? ==> Drain(s, out).next.trailerState == s.trailerState
    decreases |s.pending|
  {
    if s.pending != [] && !MustWait(s.window, s.pending[0]) && !(s.state.Idle? && !SendableFromIdle(s.pending[0])) {
      DrainTrailers(SendPending(s, s.pending[0], s.pending[1..]), out + [s.pending[0]]);
    }
  }

  lemma RespondReadOk(t: Task)
    requires ReadOk(t)
    ensures ReadOk(RespondStep(t).task)
  {
    hide ReadOk, Drain;
    DrainTrailers(t.s, []);
    SystemInvariant.RespondKeeps(t.s);
    AdvanceReadOk(t, StreamModel.Respond(t.s), AtReceive);
    FlushedReadOk(Advance(t, StreamModel.Respond(t.s), AtReceive).task, RespondStep(t).task.h.flushed);
  }

  lemma FlushedReadOk(t: Task, flushed: seq<Frame>)
    requires ReadOk(t)
    ensures ReadOk(t.(h := t.h.(flushed := flushed)))
  {
    hide Num, CountHeaders, Follows;
    Untaken(t, t.(h := t.h.(flushed := flushed)));
  }

  lemma MoveReadOk(t: Task)
    requires LocalInv(t) && ReadOk(t) && CanStep(t, false) && !t.phase.AtReceive? && !t.phase.AtReport?
    ensures ReadOk(TaskStep(t, false).task)
  {
    hide LocalInv, ReadOk, RespondStep, Advance, ReceiveStep, AllFragments, Fragments, TryFrom, FirstBody, CountHeaders;
    match t.phase {
      case AtHeaders => AdvanceReadOk(t, CompositeHeaders(t.s), AtTrailers);
      case AtTrailers =>
        TrailersAsked(t);
        AdvanceReadOk(t, CompositeTrailers(t.s), AtDispatch);
      case AtDispatch => AdvanceReadOk(t, DispatchIfNeeded(t.s), AtRespond);
      case AtRespond => RespondReadOk(t);
      case _ =>
    }
  }

  lemma TrailersAsked(t: Task)
    requires LocalInv(t)
    ensures t.s.trailerState.Ready? ==> CountHeaders(t.h.accepted) == 2
  {
    Parts(t);
    hide LocalInv, BlockInv, RequestInv, FlowInv, ContentInv, CountHeaders;
    if t.s.trailerState.Ready? {
      TrailerSituation(t.s, t.h);
    }
  }

  // ---- every step ----

  lemma UnreadReadOk(t: Task, t1: Task)
    requires ReadOk(t) && NothingTaken(t.h, t1.h) && t1.h.sent == t.h.sent
    requires t1.s.id == t.s.id && t1.s.declared == t.s.declared && t1.s.trailerState == t.s.trailerState
    ensures ReadOk(t1)
  {
    hide Follows, Num, CountHeaders;
    Untaken(t, t1);
  }

  lemma ReportReadOk(t: Task)
    requires LocalInv(t) && ReadOk(t) && t.phase.AtReport?
    ensures CanStep(t, false) && ReadOk(TaskStep(t, false).task)
  {
    hide LocalInv, ReadOk, CountHeaders, TaskStep;
    ReportStep(t);
    ReportIsOwn(t);
    SentReadOk(t, TaskStep(t, false).task, t.phase.message);
  }

  lemma CancelReadOk(t: Task)
    requires ReadOk(t) && t.phase.AtReceive?
    ensures CanStep(t, true) && ReadOk(TaskStep(t, true).task)
  {
    hide ReadOk, TaskStep;
    StreamReceive.CancelStep(t);
    UnreadReadOk(t, TaskStep(t, true).task);
  }

  lemma ReceiveReadOk(t: Task)
    requires AtAnswer(t) && !t.cancelled
    ensures ReadOk(TaskStep(t, false).task)
  {
    hide LocalInv, ReadOk, HeadOk, ReceiveStep, TaskStep;
    SystemInvariant.StepReceives(t);
    match t.inbox[0] {
      case FrameForRequest(_) => FrameReadOk(t);
      case ResponseObject(encoded, body) => ResponseReadOk(t, encoded, body);
      case HeadersDecoded(headers, names) => HeadersReadOk(t, headers, names);
      case TrailersDecoded(headers) => TrailersReadOk(t, headers);
    }
  }

  /** Every step of a task keeps its history in line with the reading. */
  lemma StepReadOk(t: Task, cancelled: bool)
    requires LocalInv(t) && ReadOk(t) && HeadOk(t) && CanStep(t, cancelled) && (t.cancelled ==> cancelled)
    ensures ReadOk(TaskStep(t, cancelled).task)
  {
    hide LocalInv, ReadOk, HeadOk, ReceiveStep, RespondStep, CompositeHeaders, CompositeTrailers, DispatchIfNeeded, Advance;
    match t.phase {
      case AtReport(_) => ReportReadOk(t);
      case AtReceive =>
        if cancelled {
          CancelReadOk(t);
        } else {
          ReceiveReadOk(t);
        }
      case _ => MoveReadOk(t);
    }
  }
}
