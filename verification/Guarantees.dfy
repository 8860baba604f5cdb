/** What holds in every run of the server, for every schedule and every client. */
module Guarantees {
  import opened Wrappers
  import opened Bytes
  import opened Frames
  import opened Messages
  import opened RequestContext
  import opened StreamModel
  import opened ConnectionModel
  import opened System
  import opened StreamInvariant
  import StreamReceive
  import SystemInvariant
  import SystemArrive
  import ConnectionInvariant
  import ActiveCount
  import Settings
  import Goaway

  lemma TaskInv(y: Sys, sid: U32)
    requires Reachable(y) && sid in y.tasks
    ensures LocalInv(y.tasks[sid]) && y.tasks[sid].s.id == sid
    ensures SystemInvariant.BlockReceived(y.tasks[sid].h.block, y.tasks[sid].h.start, y.received)
  {
    hide LocalInv, SystemInvariant.Flow, SystemInvariant.InboxOk, SystemInvariant.QueuedWasSent, SystemInvariant.BlockReceived, Reachable;
    SystemArrive.ReachableJoint(y);
    assert SystemInvariant.At(y, sid);
  }

  // ---- header blocks ----

  /** At most one message of a kind, read off the count. */
  lemma {:induction false} AtMostOne(q: seq<ToConn>, k: Kind, sid: U32, i: nat, j: nat)
    requires Num(q, k, sid) <= 1 && i < j < |q|
    ensures !(Is(q[i], k, sid) && Is(q[j], k, sid))
  {
    if Is(q[i], k, sid) && Is(q[j], k, sid) {
      assert q[..j + 1][..j] == q[..j];
      SystemInvariant.NumMonotone(q, k, sid, j + 1);
      SystemInvariant.NumSome(q[..j], k, sid, i);
    }
  }

  function SeenAll(fs: seq<Frame>): seq<Frame> {
    if fs == [] then [] else SeenAll(fs[..|fs| - 1]) + [Seen(fs[|fs| - 1])]
  }

  lemma {:induction false} SeenAt(fs: seq<Frame>, i: nat)
    ensures |SeenAll(fs)| == |fs|
    ensures i < |fs| ==> SeenAll(fs)[i] == Seen(fs[i])
  {
    if fs != [] {
      SeenAt(fs[..|fs| - 1], i);
    }
  }

  /** HEADERS and then CONTINUATION frames of one stream, with END_HEADERS on the last one only. */
  predicate WholeBlock(fs: seq<Frame>, sid: U32) {
    BlockShape(fs, true) && AllFragments(fs) && forall i :: 0 <= i < |fs| ==> fs[i].sid == sid
  }

  lemma BlockIsReceived(h: History, received: seq<Frame>)
    requires SystemInvariant.BlockReceived(h.block, h.start, received)
    ensures h.block == SeenAll(received[h.start..h.start + |h.block|])
  {
    var run := received[h.start..h.start + |h.block|];
    SeenAt(run, 0);
    forall i | 0 <= i < |h.block| ensures h.block[i] == SeenAll(run)[i] {
      SeenAt(run, i);
    }
  }

  lemma BlockFacts(t: Task, i: nat)
    requires LocalInv(t) && i < |t.h.sent| && t.h.sent[i].HeadersToDecode?
    ensures WholeBlock(t.h.block, t.s.id)
    ensures t.h.sent[i] == HeadersToDecode(Fragments(t.h.block), t.s.id)
    ensures Num(t.h.sent, KHeaders, t.s.id) <= 1
    ensures t.h.first + |t.h.block| <= |t.h.forwarded| && t.h.block == t.h.forwarded[t.h.first..t.h.first + |t.h.block|]
    ensures forall k :: 0 <= k < t.h.first ==> !t.h.forwarded[k].ty.Headers?
  {
    hide RequestInv, FlowInv, HeaderProgress, PhaseOk;
    var (h, n) := (t.h, |t.h.block|);
    forall k | 0 <= k < n ensures h.block[k].sid == t.s.id {
      assert h.block[k] == h.forwarded[h.first + k];
    }
  }

  /**
   * The octets of a header block in a received frame: of a HEADERS payload all but pad length, priority fields and
   * padding, and a CONTINUATION payload whole.
   */
  function Piece(f: Frame): seq<Byte> {
    if !f.ty.Headers? then f.payload
    else
      var start := (if f.ty.padded then 1 else 0) + (if f.ty.priority then 5 else 0);
      var pad := if f.ty.padded && f.payload != [] then f.payload[0] else 0;
      if start + pad <= |f.payload| then f.payload[start..|f.payload| - pad] else []
  }

  function Pieces(fs: seq<Frame>): seq<Byte> {
    if fs == [] then [] else Pieces(fs[..|fs| - 1]) + Piece(fs[|fs| - 1])
  }

  lemma SeenPiece(f: Frame)
    requires Seen(f).HasFragment()
    ensures Seen(f).Fragment() == Piece(f)
  {}

  lemma {:induction false} FragmentsReceived(fs: seq<Frame>)
    requires AllFragments(SeenAll(fs))
    ensures Fragments(SeenAll(fs)) == Pieces(fs)
  {
    hide Seen, Piece;
    if fs != [] {
      var before, f := fs[..|fs| - 1], fs[|fs| - 1];
      FragmentsMore(SeenAll(before), Seen(f));
      FragmentsReceived(before);
      SeenPiece(f);
    }
  }

  /** The message carries an unbroken run of received frames, and these are the stream's first header block. */
  predicate AsksForBlock(m: ToConn, sid: U32, h: History, received: seq<Frame>) {
    && h.start + |h.block| <= |received|
    && m == HeadersToDecode(Pieces(received[h.start..h.start + |h.block|]), sid)
    && var run := SeenAll(received[h.start..h.start + |h.block|]);
      && WholeBlock(run, sid)
      && h.first + |run| <= |h.forwarded| && run == h.forwarded[h.first..h.first + |run|]
      && (forall k :: 0 <= k < h.first ==> !h.forwarded[k].ty.Headers?)
  }

  lemma BlockAsked(m: ToConn, t: Task, received: seq<Frame>)
    requires SystemInvariant.BlockReceived(t.h.block, t.h.start, received) && WholeBlock(t.h.block, t.s.id)
    requires m == HeadersToDecode(Fragments(t.h.block), t.s.id)
    requires t.h.first + |t.h.block| <= |t.h.forwarded| && t.h.block == t.h.forwarded[t.h.first..t.h.first + |t.h.block|]
    requires forall k :: 0 <= k < t.h.first ==> !t.h.forwarded[k].ty.Headers?
    ensures AsksForBlock(m, t.s.id, t.h, received)
  {
    hide SeenAll, BlockShape, Fragments, Pieces;
    BlockIsReceived(t.h, received);
    FragmentsReceived(received[t.h.start..t.h.start + |t.h.block|]);
  }

  /**
   * Sections 4.3 and 6.10 of RFC 7540: a stream asks for its header block once, and the payload is the
   * concatenation of the fragments of an unbroken run of received frames, which is the stream's own first
   * HEADERS frame and its CONTINUATION frames up to END_HEADERS.
   */
  lemma HeaderReassembly(y: Sys, sid: U32, i: nat)
    requires Reachable(y) && sid in y.tasks
    requires i < |y.tasks[sid].h.sent| && y.tasks[sid].h.sent[i].HeadersToDecode?
    ensures forall j :: 0 <= j < |y.tasks[sid].h.sent| && y.tasks[sid].h.sent[j].HeadersToDecode? ==> j == i
    ensures AsksForBlock(y.tasks[sid].h.sent[i], sid, y.tasks[sid].h, y.received)
  {
    hide Reachable, LocalInv, AsksForBlock, SystemInvariant.BlockReceived, WholeBlock;
    TaskInv(y, sid);
    var t := y.tasks[sid];
    BlockFacts(t, i);
    BlockAsked(t.h.sent[i], t, y.received);
    forall j | 0 <= j < |t.h.sent| && t.h.sent[j].HeadersToDecode? ensures j == i {
      BlockFacts(t, j);
      if i < j {
        AtMostOne(t.h.sent, KHeaders, sid, i, j);
      } else if j < i {
        AtMostOne(t.h.sent, KHeaders, sid, j, i);
      }
    }
  }

  lemma TrailerBlockFacts(t: Task, i: nat)
    requires LocalInv(t) && i < |t.h.sent| && t.h.sent[i].TrailersToDecode? && !t.h.stray && !t.h.extra
    ensures Num(t.h.sent, KTrailers, t.s.id) <= 1
    ensures CountHeaders(t.h.accepted) == 2 && WholeTrailers(BlockTail(t.h.accepted))
    ensures t.h.sent[i].payload == Fragments(BlockTail(t.h.accepted)) && t.h.sent[i].sid == t.s.id
    ensures t.s.declared == Some(t.h.sent[i].declared)
  {
    Parts(t);
    NoneSent(t.h.sent, KTrailers, t.s.id);
    hide LocalInv, BlockInv, FlowInv, RequestOk, DispatchOk, SecondOk, BodyOk, Complained, TrailerShape, Num, Fragments;
  }

  predicate WholeTrailers(fs: seq<Frame>) {
    BlockShape(fs, true) && AllFragments(fs)
  }

  /**
   * Without a CONTINUATION behind its end a trailer block is asked for once, and the payload is the concatenation of
   * the fragments of the second HEADERS frame accepted and of its CONTINUATION frames, the last with END_HEADERS.
   */
  lemma TrailerReassembly(y: Sys, sid: U32, i: nat)
    requires Reachable(y) && sid in y.tasks && !y.tasks[sid].h.stray && !y.tasks[sid].h.extra
    requires i < |y.tasks[sid].h.sent| && y.tasks[sid].h.sent[i].TrailersToDecode?
    ensures forall j :: 0 <= j < |y.tasks[sid].h.sent| && y.tasks[sid].h.sent[j].TrailersToDecode? ==> j == i
    ensures var (m, a) := (y.tasks[sid].h.sent[i], y.tasks[sid].h.accepted);
      && CountHeaders(a) == 2 && WholeTrailers(BlockTail(a)) && m.payload == Fragments(BlockTail(a))
      && m.sid == sid && y.tasks[sid].s.declared == Some(m.declared)
  {
    hide Reachable, LocalInv;
    TaskInv(y, sid);
    var t := y.tasks[sid];
    TrailerBlockFacts(t, i);
    hide WholeTrailers;
    forall j | 0 <= j < |t.h.sent| && t.h.sent[j].TrailersToDecode? ensures j == i {
      TrailerBlockFacts(t, j);
      if i < j {
        AtMostOne(t.h.sent, KTrailers, sid, i, j);
      } else if j < i {
        AtMostOne(t.h.sent, KTrailers, sid, j, i);
      }
    }
  }

  // ---- dispatch ----

  lemma DispatchFacts(t: Task, i: nat)
    requires LocalInv(t) && i < |t.h.sent| && t.h.sent[i].RequestForDispatch?
    ensures t.h.sent[i].sid == t.s.id && Num(t.h.sent, KDispatch, t.s.id) <= 1
    ensures AnyEnd(t.h.accepted) && t.h.reply.Some? && (t.h.reply.value.1 == {} || t.h.lateReplies != [])
    ensures BuiltFrom(t.h.sent[i].ctx, t.h.reply.value, t.h.lateReplies)
    ensures t.h.sent[i].ctx.body == FirstPayload(DataFrames(t.h.accepted))
    ensures t.s.dispatched && t.s.composited.None?
  {
    Parts(t);
    hide LocalInv, BlockInv, WindowOk, ResponseOk, CountOk, TrailerOk, SecondOk, BuiltFrom, EndsOnce, TrailerFrom, TrailerBlockOk, MergeAll;
  }

  /**
   * A request is dispatched at most once, after END_STREAM was accepted, the header block was decoded and its
   * trailers, if it declared any, were decoded too; it carries the block's target, the merged headers and, for its
   * body, the payload of the first DATA frame accepted.
   */
  lemma DispatchOnce(y: Sys, sid: U32, i: nat)
    requires Reachable(y) && sid in y.tasks
    requires i < |y.tasks[sid].h.sent| && y.tasks[sid].h.sent[i].RequestForDispatch?
    ensures forall j :: 0 <= j < |y.tasks[sid].h.sent| && y.tasks[sid].h.sent[j].RequestForDispatch? ==> j == i
    ensures var h := y.tasks[sid].h;
      && h.sent[i].sid == sid
      && AnyEnd(h.accepted) && h.reply.Some? && (h.reply.value.1 == {} || h.lateReplies != [])
      && BuiltFrom(h.sent[i].ctx, h.reply.value, h.lateReplies)
      && h.sent[i].ctx.body == FirstPayload(DataFrames(h.accepted))
      && y.tasks[sid].s.composited.None?
  {
    hide Reachable, LocalInv;
    TaskInv(y, sid);
    var t := y.tasks[sid];
    DispatchFacts(t, i);
    forall j | 0 <= j < |t.h.sent| && t.h.sent[j].RequestForDispatch? ensures j == i {
      DispatchFacts(t, j);
      if i < j {
        AtMostOne(t.h.sent, KDispatch, sid, i, j);
      } else if j < i {
        AtMostOne(t.h.sent, KDispatch, sid, j, i);
      }
    }
  }

  // ---- flow control of a stream ----

  /** DATA payloads short enough for their length to survive `as u32`. */
  predicate ShortPayloads(fs: seq<Frame>) {
    forall i :: 0 <= i < |fs| ==> FlowSize(fs[i]) < TWO_32
  }

  lemma {:induction false} ShortIsExact(fs: seq<Frame>)
    requires ShortPayloads(fs)
    ensures TruncatedBytes(fs) == DataBytes(fs)
  {
    if fs != [] {
      ShortIsExact(fs[..|fs| - 1]);
    }
  }

  lemma FlowFacts(t: Task)
    requires LocalInv(t)
    ensures TruncatedBytes(OutFrames(t.h.sent)) <= 65535 + Credit(t.h.accepted)
    ensures t.s.window + Debit(t.h.sent) == 65535 + Credit(t.h.accepted)
    ensures CountData(OutFrames(t.h.sent)) + |t.s.pending| == t.h.responses <= 1
  {
    hide BlockInv, RequestInv, StateOk, CountOk, OwnMessages;
  }

  /**
   * The octets a stream hands to the connection never exceed its initial window and the increments it accepted,
   * although the pending path never debits: there is one response, and its one DATA frame was sent or waits.
   */
  lemma StreamFlowControl(y: Sys, sid: U32)
    requires Reachable(y) && sid in y.tasks
    ensures var (s, h) := (y.tasks[sid].s, y.tasks[sid].h);
      && CountData(OutFrames(h.sent)) + |s.pending| == h.responses <= 1
      && s.window + Debit(h.sent) == 65535 + Credit(h.accepted)
      && (ShortPayloads(OutFrames(h.sent)) ==> DataBytes(OutFrames(h.sent)) <= 65535 + Credit(h.accepted))
  {
    hide Reachable, LocalInv;
    TaskInv(y, sid);
    FlowFacts(y.tasks[sid]);
    if ShortPayloads(OutFrames(y.tasks[sid].h.sent)) {
      ShortIsExact(OutFrames(y.tasks[sid].h.sent));
    }
  }

  /** The check before sending respects the window exactly for payloads whose length fits 32 bits. */
  lemma HonestBelow32Bits(n: nat)
    ensures (forall window: U32 :: CanSend(window, n) ==> n <= window) <==> n < TWO_32
  {
    if n >= TWO_32 {
      var window: U32 := TWO_32 - 1;
      assert CanSend(window, n);
    }
  }

  // ---- panics ----

  lemma FailureFacts(t: Task)
    requires LocalInv(t)
    ensures FailedOk(t.s.id, t.phase, t.s.dispatched, t.h.sent, |t.h.lateReplies|, t.h.stray)
    ensures !t.s.trailerState.Initial? ==> InProgress(t.s.headerState)
  {
    Parts(t);
    hide LocalInv, BlockInv, RequestInv, WindowOk, ResponseOk, CountOk, OwnMessages, EndsOnce, ContentInv;
  }

  lemma TrailerFacts(t: Task)
    requires LocalInv(t)
    ensures t.s.headerState.Completed? && t.s.trailerState.Ready? ==> t.s.declared.Some? && t.s.declared.value != {}
    ensures t.s.trailerState.WaitingResponse? ==> t.s.headerState.Completed? && t.s.composited.Some? && !t.s.dispatched
  {
    Parts(t);
    hide LocalInv, BlockInv, FlowInv, TrailerOk, SecondOk, BuiltFrom, ContentInv, MergeAll, Num, Dispatchable, NoPseudo;
  }

  /** What the three `unwrap`s on the header map and on the declared trailers rely on, in every run. */
  lemma TrailersNeedHeaders(y: Sys, sid: U32)
    requires Reachable(y) && sid in y.tasks
    ensures var s := y.tasks[sid].s;
      && (!s.trailerState.Initial? ==> InProgress(s.headerState))
      && (s.headerState.Completed? && s.trailerState.Ready? ==> s.declared.Some? && s.declared.value != {})
      && (s.trailerState.WaitingResponse? ==> s.headerState.Completed? && s.composited.Some? && !s.dispatched)
  {
    hide Reachable, LocalInv;
    TaskInv(y, sid);
    FailureFacts(y.tasks[sid]);
    TrailerFacts(y.tasks[sid]);
  }

  /**
   * No `unwrap` or `expect` of a stream fails unless a CONTINUATION was consumed while a trailer block was at the
   * decoder; and then only after two requests for trailers, one answer to them and the dispatch of the request.
   */
  lemma NoPanic(y: Sys, sid: U32)
    requires Reachable(y) && sid in y.tasks && y.tasks[sid].phase.Failed?
    ensures y.tasks[sid].h.stray && y.tasks[sid].s.dispatched
    ensures 1 <= |y.tasks[sid].h.lateReplies| < Num(y.tasks[sid].h.sent, KTrailers, sid)
  {
    hide Reachable, LocalInv, Num;
    TaskInv(y, sid);
    FailureFacts(y.tasks[sid]);
  }

  // ---- trailers nobody declared ----

  lemma SecondFacts(t: Task)
    requires LocalInv(t) && t.h.reply.Some? && t.h.reply.value.1 == {}
    ensures t.h.second ==> Complained(t.h.sent, t.h.secondAt, t.phase)
    ensures t.h.secondEarly ==> t.h.second && !t.s.dispatched && Num(t.h.sent, KDispatch, t.s.id) == 0
  {
    hide BlockInv, FlowInv, RequestOk, TrailerOk, BuiltFrom;
  }

  lemma OwnAt(t: Task, i: nat)
    requires LocalInv(t) && i < |t.h.sent|
    ensures t.h.sent[i].Failure? || t.h.sent[i].sid == t.s.id
  {
    hide BlockInv, RequestInv, StateOk, WindowOk, ResponseOk, CountOk;
  }

  lemma NoneOfKind(t: Task)
    requires LocalInv(t) && Num(t.h.sent, KDispatch, t.s.id) == 0
    ensures forall i :: 0 <= i < |t.h.sent| ==> !t.h.sent[i].RequestForDispatch?
  {
    hide LocalInv;
    forall i | 0 <= i < |t.h.sent| ensures !t.h.sent[i].RequestForDispatch? {
      OwnAt(t, i);
      if Is(t.h.sent[i], KDispatch, t.s.id) {
        SystemInvariant.NumSome(t.h.sent, KDispatch, t.s.id, i);
      }
    }
  }

  /**
   * A second HEADERS frame on an open stream whose headers declared no trailers ends in a PROTOCOL_ERROR of the
   * connection, whether it came before or after the decoder's answer; if it came before, nothing is ever dispatched.
   */
  lemma UndeclaredTrailers(y: Sys, sid: U32)
    requires Reachable(y) && sid in y.tasks
    requires y.tasks[sid].h.reply.Some? && y.tasks[sid].h.reply.value.1 == {}
    ensures var (t, h) := (y.tasks[sid], y.tasks[sid].h);
      && (h.second ==>
            (exists i :: h.secondAt <= i < |h.sent| && h.sent[i] == PROTOCOL_FAILURE) || t.phase == AtReport(PROTOCOL_FAILURE))
      && (h.secondEarly ==> forall i :: 0 <= i < |h.sent| ==> !h.sent[i].RequestForDispatch?)
  {
    hide Reachable, LocalInv;
    TaskInv(y, sid);
    SecondFacts(y.tasks[sid]);
    if y.tasks[sid].h.secondEarly {
      NoneOfKind(y.tasks[sid]);
    }
  }

  /** The error after a frame and an answer without trailers, in this order. */
  function FrameThenAnswer(s: Stream, f: Frame, headers: Headers): Option<Error> {
    match HandleFrame(s, f)
    case Accepted(s1, _) => HandleHeadersDecoded(s1, headers, {}).1
    case Refused(e) => Some(e)
    case Panic => None
  }

  function AnswerThenFrame(s: Stream, f: Frame, headers: Headers): Option<Error> {
    var (s1, _) := HandleHeadersDecoded(s, headers, {});
    match HandleFrame(s1, f)
    case Accepted(_, _) => None
    case Refused(e) => Some(e)
    case Panic => None
  }

  /** While the block is being decoded the two orders give the same error, unless the client has ended the stream. */
  lemma SecondHeadersConfluent(s: Stream, f: Frame, headers: Headers)
    requires s.headerState.WaitingResponse? && s.trailerState.Initial? && s.trailerFrames == [] && f.ty.Headers?
    ensures AnswerThenFrame(s, f, headers) == Some(ConnectionError(ProtocolError))
    ensures FrameThenAnswer(s, f, headers) == AnswerThenFrame(s, f, headers) <==> !(s.state.HalfClosedRemote? || s.state.Closed?)
  {
    assert s.trailerFrames + [f] != [];
  }

  // ---- the stream state ----

  lemma StateFacts(t: Task)
    requires LocalInv(t)
    ensures t.s.state == StateOf(t.h.accepted, t.h.flushed)
    ensures !t.s.state.Reserved? && !t.s.state.HalfClosedLocal?
    ensures t.s.requestEnd == AnyEnd(t.h.accepted)
    ensures t.s.requestEnd ==> t.s.state.HalfClosedRemote? || t.s.state.Closed?
    ensures CountHeaders(t.h.accepted) <= 2 && EndsOnce(t.h.accepted)
  {
    hide BlockInv, RequestInv, WindowOk, ResponseOk, CountOk, OwnMessages, EndsOnce;
  }

  /**
   * Section 5.1 of RFC 7540: the state is exactly what the two half-connections make of it, and the accepted frames
   * form a request: at most two HEADERS frames, and neither HEADERS nor DATA after END_STREAM or a reset.
   */
  lemma StateAndGrammar(y: Sys, sid: U32)
    requires Reachable(y) && sid in y.tasks
    ensures var (s, h) := (y.tasks[sid].s, y.tasks[sid].h);
      && s.state == StateOf(h.accepted, h.flushed)
      && !s.state.Reserved? && !s.state.HalfClosedLocal?
      && s.requestEnd == AnyEnd(h.accepted)
      && (s.requestEnd ==> s.state.HalfClosedRemote? || s.state.Closed?)
      && CountHeaders(h.accepted) <= 2
      && EndsOnce(h.accepted)
  {
    hide Reachable, LocalInv;
    TaskInv(y, sid);
    StateFacts(y.tasks[sid]);
  }

  // ---- along a run ----

  function Rank(state: DecodingState): nat {
    match state
    case Initial => 0
    case KeepGoing => 1
    case Ready => 2
    case WaitingResponse => 3
    case Completed => 4
  }

  /** What only ever grows. */
  predicate Later(t: Task, t1: Task) {
    && t.h.accepted <= t1.h.accepted && t.h.flushed <= t1.h.flushed && t.h.sent <= t1.h.sent
    && Rank(t.s.headerState) <= Rank(t1.s.headerState)
  }

  lemma FrameLater(s: Stream, f: Frame)
    requires HandleFrame(s, f).Accepted? && !s.headerState.Ready?
    ensures Rank(s.headerState) <= Rank(HandleFrame(s, f).next.headerState)
  {
    hide HandleFrame, StreamReceive.Allowed;
    StreamReceive.AcceptedEffect(s, f);
  }

  lemma ReactLater(s: Stream, m: ToStream)
    requires !s.headerState.Ready?
    ensures React(s, m).Reaction? ==> Rank(s.headerState) <= Rank(React(s, m).next.headerState)
  {
    if m.FrameForRequest? && HandleFrame(s, m.frame).Accepted? {
      FrameLater(s, m.frame);
    }
    hide HandleFrame, CanSend, Truncate, Rank;
    assert forall d :: Rank(d) <= Rank(Completed) by {
      forall d ensures Rank(d) <= Rank(Completed) {
        RankTop(d);
      }
    }
  }

  lemma RankTop(d: DecodingState)
    ensures Rank(d) <= Rank(Completed)
  {}

  lemma ReceiveLater(t: Task)
    requires t.inbox != [] && !t.s.headerState.Ready?
    ensures Later(t, ReceiveStep(t).task)
  {
    hide React, Consumed, Rank;
    ReactLater(t.s, t.inbox[0]);
    ConsumedLater(t.s, t.h, t.inbox[0]);
  }

  lemma ConsumedLater(s: Stream, h: History, m: ToStream)
    ensures var h1 := Consumed(s, h, m); h.accepted <= h1.accepted && h.flushed == h1.flushed && h.sent == h1.sent
  {
    hide HandleFrame;
  }

  lemma NotReadyToReceive(t: Task)
    requires LocalInv(t) && t.phase.AtReceive?
    ensures !t.s.headerState.Ready?
  {
    hide RequestInv, FlowInv, Logged, BlockPlaced, HeaderProgress, HeaderMessage;
  }

  lemma {:induction false} DrainLater(s: Stream, out: seq<Frame>)
    ensures Drain(s, out).Drained? ==> Drain(s, out).next.headerState == s.headerState
    decreases |s.pending|
  {
    if s.pending != [] && !MustWait(s.window, s.pending[0]) && !(s.state.Idle? && !SendableFromIdle(s.pending[0])) {
      DrainLater(SendPending(s, s.pending[0], s.pending[1..]), out + [s.pending[0]]);
    }
  }

  lemma RespondLater(s: Stream)
    ensures StreamModel.Respond(s).Move? ==> StreamModel.Respond(s).next.headerState == s.headerState
  {
    DrainLater(s, []);
    hide Drain;
  }

  lemma AdvanceLater(t: Task, m: Move, phase: Phase)
    requires m.Move? ==> Rank(t.s.headerState) <= Rank(m.next.headerState)
    ensures Later(t, Advance(t, m, phase).task)
  {
    hide Rank;
  }

  lemma FlushedLater(t: Task)
    requires StreamModel.Respond(t.s).Move? ==> Rank(t.s.headerState) <= Rank(StreamModel.Respond(t.s).next.headerState)
    ensures Later(t, RespondStep(t).task)
  {
    hide Rank, StreamModel.Respond, MessageFrames;
  }

  lemma PhaseLater(t: Task, cancelled: bool)
    requires CanStep(t, cancelled) && (t.phase.AtReceive? ==> cancelled)
    ensures Later(t, TaskStep(t, cancelled).task)
  {
    hide ReceiveStep, TryFrom, FirstBody, AllFragments, Fragments, StreamModel.Respond, Advance, Later, RespondStep;
    match t.phase {
      case AtHeaders => AdvanceLater(t, CompositeHeaders(t.s), AtTrailers);
      case AtTrailers => AdvanceLater(t, CompositeTrailers(t.s), AtDispatch);
      case AtDispatch => AdvanceLater(t, DispatchIfNeeded(t.s), AtRespond);
      case AtRespond =>
        RespondLater(t.s);
        FlushedLater(t);
      case AtReceive => Relabelled(t, TaskStep(t, cancelled).task);
      case AtReport(_) => Relabelled(t, TaskStep(t, cancelled).task);
    }
  }

  lemma Relabelled(t: Task, t1: Task)
    requires t1.h.accepted == t.h.accepted && t1.h.flushed == t.h.flushed && t.h.sent <= t1.h.sent && t1.s.headerState == t.s.headerState
    ensures Later(t, t1)
  {}

  lemma StepLater(t: Task, cancelled: bool)
    requires LocalInv(t) && CanStep(t, cancelled)
    ensures Later(t, TaskStep(t, cancelled).task)
  {
    hide LocalInv, TaskStep, ReceiveStep, Later;
    if t.phase.AtReceive? && !cancelled {
      NotReadyToReceive(t);
      ReceiveLater(t);
      SystemInvariant.StepReceives(t);
    } else {
      PhaseLater(t, cancelled);
    }
  }

  /** Another task's move at most hands frames over. */
  predicate Kept(t: Task, t1: Task) {
    && t1.s == t.s && t1.phase == t.phase && t.h.forwarded <= t1.h.forwarded
    && t1.h == t.h.(forwarded := t1.h.forwarded, first := t1.h.first, block := t1.h.block, closed := t1.h.closed, start := t1.h.start)
  }

  lemma KeptLater(t: Task, t1: Task)
    requires Kept(t, t1)
    ensures Later(t, t1)
  {
    hide Rank;
  }

  lemma Unmoved(t: Task)
    ensures Kept(t, t) && Kept(t, t.(cancelled := true))
  {}

  lemma ReceiveKept(t: Task, m: ToStream, at: nat)
    ensures Kept(t, Receive(t, m, at))
  {}

  lemma JointTask(y: Sys, sid: U32)
    requires SystemInvariant.Joint(y) && sid in y.tasks
    ensures LocalInv(y.tasks[sid])
  {
    hide LocalInv, SystemInvariant.BlockAtGate, SystemInvariant.Flow, SystemInvariant.InboxOk, SystemInvariant.QueuedWasSent;
    assert SystemInvariant.At(y, sid);
  }

  lemma ArriveKept(y: Sys, f: Frame, sid: U32)
    requires SystemInvariant.Joint(y) && Listening(y.conn) && sid in y.tasks
    ensures sid in OnArrive(y, f).tasks && Kept(y.tasks[sid], OnArrive(y, f).tasks[sid])
  {
    hide SystemInvariant.At, OnFrame, Kept, Receive, SystemInvariant.GateOk, SystemInvariant.GateAfter, Checked, Seen;
    assert SystemInvariant.Skeleton(y);
    SystemArrive.ArriveSkeleton(y, f);
    var o := OnFrame(y.conn, f);
    Unmoved(y.tasks[sid]);
    if o.post.Some? {
      ReceiveKept(y.tasks[sid], o.post.value.1, |y.received|);
    }
  }

  lemma HandleKept(y: Sys, hpack: Hpack, sid: U32)
    requires y.queue != [] && sid in y.tasks
    ensures sid in OnHandle(y, hpack).tasks && Kept(y.tasks[sid], OnHandle(y, hpack).tasks[sid])
  {
    hide OnMessage, Kept, Receive, NewlyRaised, Launch;
    var o := OnMessage(y.conn, y.queue[0], hpack);
    Unmoved(y.tasks[sid]);
    if o.post.Some? {
      ReceiveKept(y.tasks[sid], o.post.value.1, |y.received|);
    }
  }

  lemma AnswerKept(y: Sys, sid: U32)
    requires y.conn.ctx.error.Some? && sid in y.tasks
    ensures sid in OnAnswer(y).tasks && Kept(y.tasks[sid], OnAnswer(y).tasks[sid])
  {
    hide AnswerError, Kept, Receive;
    Unmoved(y.tasks[sid]);
  }

  lemma ReplyKept(y: Sys, id: U32, r: Response, sid: U32)
    requires id in y.tasks && sid in y.tasks
    ensures Kept(y.tasks[sid], OnReply(y, id, r).tasks[sid])
  {
    hide Kept, Receive;
    Unmoved(y.tasks[sid]);
    ReceiveKept(y.tasks[sid], ResponseObject(r.0, r.1), |y.received|);
  }

  /** Whatever a task receives, and whether or not it is cancelled, its own state and logs stay until it moves. */
  lemma NextKept(y: Sys, e: Event, sid: U32)
    requires SystemInvariant.Joint(y) && Enabled(y, e) && sid in y.tasks && e != Step(sid)
    ensures sid in Next(y, e).tasks && Kept(y.tasks[sid], Next(y, e).tasks[sid])
  {
    hide SystemInvariant.Joint, OnArrive, OnAnswer, OnHandle, Kept, TaskStep, Receive;
    match e {
      case Arrive(f) => ArriveKept(y, f, sid);
      case Handle(hpack) => HandleKept(y, hpack, sid);
      case Answer => AnswerKept(y, sid);
      case Reply(id, encoded, body) => ReplyKept(y, id, (encoded, body), sid);
      case _ => Unmoved(y.tasks[sid]);
    }
  }

  lemma NextLater(y: Sys, e: Event, sid: U32)
    requires SystemInvariant.Joint(y) && Enabled(y, e) && sid in y.tasks
    ensures sid in Next(y, e).tasks && Later(y.tasks[sid], Next(y, e).tasks[sid])
  {
    hide SystemInvariant.Joint, LocalInv, Later, Kept, TaskStep, CanStep;
    if e == Step(sid) {
      JointTask(y, sid);
      StepLater(y.tasks[sid], Cancelled(y, sid));
    } else {
      hide Next, Enabled;
      NextKept(y, e, sid);
      KeptLater(y.tasks[sid], Next(y, e).tasks[sid]);
    }
  }

  lemma {:induction false} RunLater(y0: Sys, events: seq<Event>, y: Sys, sid: U32)
    requires SystemInvariant.Joint(y0) && Run(y0, events, y) && sid in y0.tasks
    ensures sid in y.tasks && Later(y0.tasks[sid], y.tasks[sid])
    decreases events
  {
    hide SystemInvariant.Joint, Next, Enabled, Trace;
    if events != [] {
      var n := |events| - 1;
      var mid := LastEvent(y0, events, y);
      RunLater(y0, events[..n], mid, sid);
      SystemArrive.RunJoint(y0, events[..n], mid);
      NextLater(mid, events[n], sid);
    }
  }

  lemma {:induction false} PrefixCounts(a: seq<Frame>, b: seq<Frame>)
    requires a <= b
    ensures CountHeaders(a) <= CountHeaders(b)
    decreases |b|
  {
    if a != b {
      assert a <= b[..|b| - 1];
      PrefixCounts(a, b[..|b| - 1]);
    }
  }

  /** Idle is never entered again, Closed never left, and header decoding only moves forward. */
  lemma NeverBack(y0: Sys, events: seq<Event>, y: Sys, sid: U32)
    requires Reachable(y0) && Run(y0, events, y) && sid in y0.tasks
    ensures sid in y.tasks
    ensures var (s, s1) := (y0.tasks[sid].s, y.tasks[sid].s);
      && (!s.state.Idle? ==> !s1.state.Idle?)
      && (s.state.Closed? ==> s1.state.Closed?)
      && (s.requestEnd ==> s1.requestEnd)
      && Rank(s.headerState) <= Rank(s1.headerState)
  {
    hide Reachable, Run, LocalInv, SystemInvariant.Joint, SystemInvariant.At, SystemInvariant.Skeleton;
    SystemArrive.ReachableJoint(y0);
    RunLater(y0, events, y, sid);
    SystemArrive.RunJoint(y0, events, y);
    JointTask(y0, sid);
    JointTask(y, sid);
    StateFacts(y0.tasks[sid]);
    StateFacts(y.tasks[sid]);
    PrefixCounts(y0.tasks[sid].h.accepted, y.tasks[sid].h.accepted);
    PrefixMarks(y0.tasks[sid].h.accepted, y.tasks[sid].h.accepted);
    PrefixMarks(y0.tasks[sid].h.flushed, y.tasks[sid].h.flushed);
    hide AnyEnd, AnyReset, CountHeaders, Rank, EndsOnce;
  }

  lemma PrefixMarks(a: seq<Frame>, b: seq<Frame>)
    requires a <= b
    ensures AnyEnd(a) ==> AnyEnd(b)
    ensures AnyReset(a) ==> AnyReset(b)
  {}

  // ---- the connection ----

  /**
   * Octets of DATA on the wire and octets left in the window add up to what was granted, as long as the loop runs,
   * and never exceed it; the window stays a 32-bit number.
   */
  lemma ConnectionFlowControl(y: Sys)
    requires Reachable(y)
    ensures DataBytes(y.conn.wire) + y.conn.ctx.window <= 65535 + y.log.credited
    ensures y.conn.status.Running? ==> DataBytes(y.conn.wire) + y.conn.ctx.window == 65535 + y.log.credited
    ensures y.conn.ctx.window <= 0xFFFF_FFFF
  {
    hide Reachable, ConnectionInvariant.ErrorLedger, ConnectionInvariant.IdLedger;
    ConnectionInvariant.ReachableAccounts(y);
  }

  /** The error codes of section 7 of RFC 7540. */
  predicate Numbered(code: ErrorCode, n: nat) {
    match code
    case NoError => n == 0
    case ProtocolError => n == 1
    case InternalError => n == 2
    case FlowControlError => n == 3
    case SettingsTimeout => n == 4
    case StreamClosed => n == 5
    case FrameSizeError => n == 6
    case RefusedStream => n == 7
    case Cancel => n == 8
    case CompressionError => n == 9
    case ConnectError => n == 10
    case EnhanceYourCalm => n == 11
    case InadequateSecurity => n == 12
    case Http11Required => n == 13
  }

  /** The frame that answers an error, octet by octet; a GOAWAY names the highest stream, as far as 27 bits go. */
  predicate Reports(f: Frame, e: Error, seenMax: U32) {
    match e
    case StreamError(sid, code) => f.ty.RstStream? && f.sid == sid && |f.payload| == 4 && Numbered(code, Number(f.payload))
    case ConnectionError(code) =>
      && f.ty.GoAway? && f.sid == 0 && |f.payload| == 8
      && Number(f.payload[..4]) == seenMax % 0x800_0000 && Numbered(code, Number(f.payload[4..]))
    case OtherError => false
  }

  /** Errors that have an answer on the wire. */
  function Answerable(errors: seq<Error>): seq<Error> {
    if errors == [] then []
    else Answerable(errors[..|errors| - 1]) + (if errors[|errors| - 1].OtherError? then [] else [errors[|errors| - 1]])
  }

  lemma AnswerReports(e: Error, seenMax: U32)
    ensures |ConnectionInvariant.AnswerTo(e, seenMax)| == if e.OtherError? then 0 else 1
    ensures !e.OtherError? ==> Reports(ConnectionInvariant.AnswerTo(e, seenMax)[0], e, seenMax)
  {
    hide Put32, Number;
    if !e.OtherError? {
      PutsNumber(Code(e.code));
      PutsNumber(seenMax % TWO_27);
      assert (Put32(seenMax % TWO_27) + Put32(Code(e.code)))[..4] == Put32(seenMax % TWO_27);
      assert (Put32(seenMax % TWO_27) + Put32(Code(e.code)))[4..] == Put32(Code(e.code));
    }
  }

  lemma {:induction false} AnswersReport(errors: seq<Error>, seenMax: U32)
    ensures |ConnectionInvariant.AnswersTo(errors, seenMax)| == |Answerable(errors)|
    ensures forall i :: 0 <= i < |Answerable(errors)| ==> Reports(ConnectionInvariant.AnswersTo(errors, seenMax)[i], Answerable(errors)[i], seenMax)
  {
    hide Reports, ConnectionInvariant.AnswerTo;
    if errors != [] {
      var before, e := errors[..|errors| - 1], errors[|errors| - 1];
      AnswersReport(before, seenMax);
      AnswerReports(e, seenMax);
      var n := |Answerable(before)|;
      forall i | 0 <= i < |Answerable(errors)| ensures Reports(ConnectionInvariant.AnswersTo(errors, seenMax)[i], Answerable(errors)[i], seenMax) {
        assert i < n ==> Answerable(errors)[i] == Answerable(before)[i];
        assert i < n ==> ConnectionInvariant.AnswersTo(errors, seenMax)[i] == ConnectionInvariant.AnswersTo(before, seenMax)[i];
      }
    }
  }

  /**
   * Every error put into the slot is answered once, in order, by a frame that reports it with its number; only the last
   * one can still wait.
   */
  lemma ErrorsAnsweredOnce(y: Sys)
    requires Reachable(y)
    ensures y.conn.ctx.error.Some? ==> y.log.raised != [] && y.log.raised[|y.log.raised| - 1] == y.conn.ctx.error.value
    ensures var answered := if y.conn.ctx.error.Some? then y.log.raised[..|y.log.raised| - 1] else y.log.raised;
      var answers := ConnectionInvariant.Answers(y.conn.wire);
      && |answers| == |Answerable(answered)|
      && (forall i :: 0 <= i < |answers| ==> Reports(answers[i], Answerable(answered)[i], y.conn.ctx.seenMax))
      && (y.conn.status.Running? ==> ConnectionInvariant.AllLocal(answered))
  {
    hide Reachable, ConnectionInvariant.WindowLedger, ConnectionInvariant.IdLedger, Reports, Answerable, Settings.Legal;
    ConnectionInvariant.ReachableAccounts(y);
    AnswersReport(ConnectionInvariant.Answered(y.conn, y.log.raised), y.conn.ctx.seenMax);
  }

  /** An error in the slot can only be answered or die with the connection; nothing overwrites it. */
  lemma SlotIsNotOverwritten(y: Sys, e: Event)
    requires y.conn.ctx.error.Some? && Enabled(y, e)
    ensures e.Answer? && y.conn.status.Running? ==>
      Next(y, e).conn.wire == y.conn.wire + ConnectionInvariant.AnswerTo(y.conn.ctx.error.value, y.conn.ctx.seenMax)
      && Next(y, e).conn.ctx.error.None?
    ensures !e.Answer? ==> Next(y, e).conn.ctx.error == y.conn.ctx.error && Next(y, e).conn.wire == y.conn.wire
  {
    hide AnswerError, TaskStep, Receive, ConnectionInvariant.AnswerTo, OnFrame, OnMessage;
    if e.Answer? {
      ConnectionInvariant.AnswerWritten(y.conn);
    }
  }

  lemma {:induction false} GoAwayAmongAnswers(errors: seq<Error>, seenMax: U32, f: Frame)
    requires f in ConnectionInvariant.AnswersTo(errors, seenMax) && f.ty.GoAway?
    ensures exists code :: f == Goaway.WithError(seenMax, code)
  {
    var n := |errors| - 1;
    if f in ConnectionInvariant.AnswersTo(errors[..n], seenMax) {
      GoAwayAmongAnswers(errors[..n], seenMax, f);
    }
  }

  lemma {:induction false} AnswerListed(wire: seq<Frame>, i: nat)
    requires i < |wire| && ConnectionInvariant.IsAnswer(wire[i])
    ensures wire[i] in ConnectionInvariant.Answers(wire)
  {
    if i < |wire| - 1 {
      AnswerListed(wire[..|wire| - 1], i);
    }
  }

  /**
   * A GOAWAY is the last frame of the run, and it reports the highest stream ever created, exactly when that number
   * fits the 27 bits the code keeps.
   */
  lemma GoAwayIsLast(y: Sys, i: nat)
    requires Reachable(y) && i < |y.conn.wire| && y.conn.wire[i].ty.GoAway?
    ensures i == |y.conn.wire| - 1 && y.conn.status.Ended?
    ensures Goaway.DecodePayload(y.conn.wire[i].payload).Some?
    ensures ConnectionInvariant.IsMax(y.conn.ctx.channels, y.conn.ctx.seenMax)
    ensures Goaway.DecodePayload(y.conn.wire[i].payload).value.0 == y.conn.ctx.seenMax <==> y.conn.ctx.seenMax < TWO_27
  {
    hide Reachable, ConnectionInvariant.WindowLedger, Goaway.WithError, Goaway.DecodePayload, Settings.Legal;
    ConnectionInvariant.ReachableAccounts(y);
    AnswerListed(y.conn.wire, i);
    GoAwayAmongAnswers(ConnectionInvariant.Answered(y.conn, y.log.raised), y.conn.ctx.seenMax, y.conn.wire[i]);
    var code :| y.conn.wire[i] == Goaway.WithError(y.conn.ctx.seenMax, code);
    Goaway.RoundTrip(y.conn.ctx.seenMax, code);
  }

  /** Section 5.1.1 of RFC 7540: streams are opened with increasing numbers, and no number is used for two streams. */
  lemma StreamNumbers(y: Sys)
    requires Reachable(y)
    ensures ConnectionInvariant.Increasing(y.log.openedIds)
    ensures forall sid :: sid in y.log.openedIds ==> sid in y.conn.ctx.channels
    ensures ConnectionInvariant.IsMax(y.conn.ctx.channels, y.conn.ctx.seenMax)
    ensures y.log.adds == |y.conn.ctx.channels| && y.tasks.Keys == y.conn.ctx.channels
  {
    hide Reachable, ConnectionInvariant.ErrorLedger, ConnectionInvariant.WindowLedger, ActiveCount.Tallies, SystemInvariant.At;
    ConnectionInvariant.ReachableAccounts(y);
    ActiveCount.ReachableCount(y);
    SystemArrive.ReachableJoint(y);
  }

  /** The limits the client has set are always those of section 6.5.2 of RFC 7540. */
  lemma ClientLimits(y: Sys)
    requires Reachable(y)
    ensures y.conn.ctx.clientOptions.initialWindowSize <= TWO_31 - 1
    ensures 16384 <= y.conn.ctx.clientOptions.maxFrameSize <= TWO_24 - 1
  {
    hide Reachable, ConnectionInvariant.ErrorLedger, ConnectionInvariant.WindowLedger, ConnectionInvariant.IdLedger;
    ConnectionInvariant.ReachableAccounts(y);
  }

  // ---- the active count ----

  /**
   * The count is streams added, less streams cancelled, plus Increments, less Decrements, as a 32-bit number. The
   * balance is live tokens plus streams not yet closed, less the dispatch requests that revived a cancelled stream's
   * token, and so it is negative exactly when there are more of these than of the others.
   */
  lemma CountBalances(y: Sys)
    requires Reachable(y)
    ensures y.conn.ctx.activeCount == ActiveCount.Balance(y.log) % TWO_32
    ensures ActiveCount.Balance(y.log) == |y.conn.ctx.tokens| + |y.log.increments - y.log.decrements| - y.log.revivals
    ensures ActiveCount.Balance(y.log) < 0 <==> y.log.revivals > |y.conn.ctx.tokens| + |y.log.increments - y.log.decrements|
  {
    hide Reachable, SystemInvariant.Joint, SystemInvariant.Tallied;
    ActiveCount.ReachableCount(y);
    StillOpen(y.log.increments, y.log.decrements);
  }

  lemma StillOpen(begun: set<U32>, over: set<U32>)
    requires over <= begun
    ensures |begun| - |over| == |begun - over|
  {
    assert begun == (begun - over) + over;
  }

  /** A stream sends each command at most once, and Decrement only after Increment. */
  lemma CommandsOnce(y: Sys, sid: U32)
    requires Reachable(y) && sid in y.tasks
    ensures var sent := y.tasks[sid].h.sent;
      && Num(sent, KIncrement, sid) <= 1 && Num(sent, KDecrement, sid) <= 1
      && (sid in y.log.decrements ==> sid in y.log.increments)
  {
    hide Reachable, LocalInv, SystemInvariant.Joint;
    TaskInv(y, sid);
    ActiveCount.ReachableCount(y);
    ActiveCount.SentCommands(y.tasks[sid]);
    hide Num;
  }

  /** An event that takes one off the count: a cancellation that finds a token, or a Decrement. */
  predicate TakesOneOff(y: Sys, e: Event) {
    || (e.Answer? && y.conn.ctx.error.Some? && y.conn.ctx.error.value.StreamError? && y.conn.ctx.error.value.sid in y.conn.ctx.tokens)
    || (e.Handle? && y.queue != [] && y.queue[0].ActiveStreamCount? && y.queue[0].command.Decrement?)
  }

  lemma BalanceFalls(y: Sys, e: Event)
    requires SystemInvariant.Joint(y) && ActiveCount.Tallies(y) && Enabled(y, e)
    ensures ActiveCount.Balance(Next(y, e).log) < ActiveCount.Balance(y.log) <==> TakesOneOff(y, e)
    ensures TakesOneOff(y, e) ==> ActiveCount.Balance(Next(y, e).log) == ActiveCount.Balance(y.log) - 1
  {
    hide SystemInvariant.Joint, ActiveCount.Tallies, OnAnswer, OnHandle, OnArrive, OnMessage, OnFrame;
    match e {
      case Answer =>
        AnswerTakesOff(y);
      case Handle(hpack) =>
        ActiveCount.HandleLog(y, hpack);
        ActiveCount.NextCommand(y);
      case Arrive(f) =>
        ActiveCount.ArriveLog(y, f);
      case _ =>
        ActiveCount.OtherEvents(y, e);
        hide Next, Enabled;
    }
  }

  lemma AnswerTakesOff(y: Sys)
    requires y.conn.ctx.error.Some?
    ensures var log1 := OnAnswer(y).log;
      log1 == y.log.(cancels := y.log.cancels + (if TakesOneOff(y, Answer) then 1 else 0))
  {
    hide RstFrame, Writable, Goaway.WithError, CancelTask;
  }

  /** The step that makes the balance negative takes one off exactly as many live streams as were revived. */
  lemma UnderflowStep(y: Sys, e: Event)
    requires Reachable(y) && Enabled(y, e) && ActiveCount.Balance(y.log) >= 0
    ensures ActiveCount.Balance(Next(y, e).log) < 0 <==>
      TakesOneOff(y, e) && y.log.revivals == |y.conn.ctx.tokens| + |y.log.increments - y.log.decrements|
  {
    hide Reachable, SystemInvariant.Joint, ActiveCount.Tallies, Next, Enabled, TakesOneOff;
    SystemArrive.ReachableJoint(y);
    ActiveCount.ReachableCount(y);
    CountBalances(y);
    BalanceFalls(y, e);
  }
}
