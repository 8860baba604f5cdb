/** A received frame keeps the invariant of the system, and so does every event of every run. */
module SystemArrive {
  import opened Wrappers
  import opened Bytes
  import opened Frames
  import opened Messages
  import opened StreamModel
  import opened ConnectionModel
  import opened System
  import opened StreamInvariant
  import opened SystemInvariant
  import Goaway
  import HeadersPayload

  // ---- what a frame does to the connection ----

  /** The error just raised stops the delivery of frames to a stream. */
  predicate Cuts(e: Option<Error>, sid: U32) {
    e.Some? && (e.value.ConnectionError? || (e.value.StreamError? && e.value.sid == sid))
  }

  predicate FrameEffect(c: Conn, f: Frame, o: Outcome) {
    && o.launch.None? && o.cancel.None?
    && (o.conn.status.Running? ==> c.status.Running? && GateAllows(c.ctx, f))
    && (o.created.Some? ==> o.created.value == f.sid && f.sid !in c.ctx.channels)
    && o.conn.ctx.channels == c.ctx.channels + (if o.created.Some? then {f.sid} else {})
    && o.conn.ctx.tokens == c.ctx.tokens + (if o.created.Some? then {f.sid} else {})
    && (o.post.Some? ==>
          && o.post.value == (f.sid, FrameForRequest(Seen(f)))
          && Checked(Seen(f), f.sid) && GateAllows(c.ctx, f)
          && o.conn.ctx.gate == GateAfter(c.ctx.gate, f))
    && (o.post.None? && o.conn.status.Running? && c.ctx.gate.Some? ==> Cuts(o.conn.ctx.error, f.sid))
    && GateOk(o.conn.ctx)
  }

  lemma SendKeeps(c: Conn, ack: Option<Frame>)
    ensures SendAck(c, ack).ctx == c.ctx && (SendAck(c, ack).status.Running? ==> c.status.Running?)
  {}

  lemma Forwarded(c: Conn, f: Frame, created: Option<U32>)
    requires GateAllows(c.ctx, f) && GateOk(c.ctx) && f.sid in c.ctx.channels && !ShouldIgnore(c.ctx, f) && !f.ty.GoAway?
    ensures var o := ConnectionModel.Forward(c, f, created);
      && o.launch.None? && o.cancel.None? && o.created == created
      && (o.conn.status.Running? ==> c.status.Running?)
      && o.conn.ctx.channels == c.ctx.channels && o.conn.ctx.tokens == c.ctx.tokens
      && (o.post.Some? ==>
            && o.post.value == (f.sid, FrameForRequest(Seen(f)))
            && Checked(Seen(f), f.sid)
            && o.conn.ctx.gate == GateAfter(c.ctx.gate, f))
      && (o.post.None? && o.conn.status.Running? ==> Cuts(o.conn.ctx.error, f.sid))
      && GateOk(o.conn.ctx)
  {
    HandleFacts(c.ctx, f);
    hide ConnectionModel.Handle, Seen, Checked;
    match ConnectionModel.Handle(c.ctx, f) {
      case Processed(ctx, frame, ack) => SendKeeps(c.(ctx := ctx), ack);
      case _ =>
    }
  }

  /** Stream 0 carries frames too, but no stream has that number. */
  lemma ForwardedNowhere(c: Conn, f: Frame)
    requires c.ctx.gate.None? && f.sid !in c.ctx.channels && f.sid == 0 && !f.ty.GoAway?
    ensures var o := ConnectionModel.Forward(c, f, None); FrameEffect(c, f, o) && o.conn.ctx.channels == c.ctx.channels
  {
    hide ConnectionModel.Handle, Seen, Checked;
    HandleFacts(c.ctx, f);
    ZeroRefused(c.ctx, f);
    match ConnectionModel.Handle(c.ctx, f) {
      case Processed(ctx, frame, ack) => SendKeeps(c.(ctx := ctx), ack);
      case _ =>
    }
  }

  lemma ZeroRefused(ctx: ConnContext, f: Frame)
    requires f.sid == 0
    ensures f.ty.Headers? || f.ty.Continuation? ==> !ConnectionModel.Handle(ctx, f).Processed?
  {
    hide HeadersPayload.Decode;
  }

  lemma FrameTaken(c: Conn, f: Frame)
    requires GateOk(c.ctx) && 0 !in c.ctx.channels
    ensures FrameEffect(c, f, OnFrame(c, f)) && 0 !in OnFrame(c, f).conn.ctx.channels
  {
    if GateAllows(c.ctx, f) {
      if f.ty.Settings? || f.ty.Ping? || f.ty.GoAway? {
        ConnectionLevelTaken(c, f);
      } else {
        StreamLevelTaken(c, f);
      }
      hide ConnectionLevel, StreamLevel;
    }
  }

  lemma ConnectionLevelTaken(c: Conn, f: Frame)
    requires c.ctx.gate.None?
    ensures FrameEffect(c, f, ConnectionLevel(c, f))
    ensures ConnectionLevel(c, f).conn.ctx.channels == c.ctx.channels
    requires f.ty.Settings? || f.ty.Ping? || f.ty.GoAway?
  {
    HandleFacts(c.ctx, f);
    hide ConnectionModel.Handle, Seen, Checked;
    match ConnectionModel.Handle(c.ctx, f) {
      case Processed(ctx, frame, ack) => SendKeeps(c.(ctx := ctx), ack);
      case _ =>
    }
  }

  lemma StreamLevelTaken(c: Conn, f: Frame)
    requires GateOk(c.ctx) && 0 !in c.ctx.channels && GateAllows(c.ctx, f)
    requires !(f.ty.Settings? || f.ty.Ping? || f.ty.GoAway?)
    ensures FrameEffect(c, f, StreamLevel(c, f))
    ensures 0 !in StreamLevel(c, f).conn.ctx.channels
  {
    hide Seen, Checked;
    if ShouldIgnore(c.ctx, f) {
    } else if !ShouldInit(c.ctx, f) {
      if f.sid in c.ctx.channels {
        Forwarded(c, f, None);
      } else {
        ForwardedNowhere(c, f);
      }
      hide ConnectionModel.Forward;
    } else {
      var ctx := NoteHeaders(c.ctx, f);
      if f.sid >= ctx.activeMax {
        Forwarded(c.(ctx := AddStream(ctx, f.sid)), f, Some(f.sid));
      }
      hide ConnectionModel.Forward;
    }
  }

  // ---- what a frame does to a stream ----

  lemma LoggedFrame(id: U32, forwarded: seq<Frame>, taken: nat, inbox: seq<ToStream>, f: Frame)
    requires Logged(id, forwarded, taken, inbox, false) && Checked(f, id)
    ensures Logged(id, forwarded + [f], taken, inbox + [FrameForRequest(f)], false)
  {
    InboxAppend(inbox, FrameForRequest(f));
    assert (forwarded + [f])[taken..] == forwarded[taken..] + [f];
  }

  /** The header block as `NoteForwarded` extends it. */
  predicate BlockExtended(h: History, f: Frame, at: nat, h1: History) {
    && h1 == NoteForwarded(h, f, at)
    && h1.forwarded == h.forwarded + [f]
    && h1.taken == h.taken && h1.sent == h.sent
    && (h.block == [] && f.ty.Headers? ==> h1.block == [f] && h1.first == |h.forwarded| && h1.closed == f.HasEndHeaders() && h1.start == at)
    && (h.block == [] && !f.ty.Headers? ==> h1.block == [] && h1.closed == h.closed && h1.first == h.first && h1.start == h.start)
    && (h.block != [] && !h.closed ==> h1.block == h.block + [f] && h1.closed == f.HasEndHeaders() && h1.first == h.first && h1.start == h.start)
    && (h.block != [] && h.closed ==> h1.block == h.block && h1.closed == h.closed && h1.first == h.first && h1.start == h.start)
  }

  lemma SliceAppend<T>(a: seq<T>, x: T, i: nat, j: nat)
    ensures i <= j <= |a| ==> (a + [x])[i..j] == a[i..j]
    ensures i <= |a| ==> (a + [x])[i..|a| + 1] == a[i..|a|] + [x]
  {}

  lemma PlacedClosed(forwarded: seq<Frame>, first: nat, block: seq<Frame>, f: Frame)
    requires BlockPlaced(forwarded, first, block, true)
    ensures BlockPlaced(forwarded + [f], first, block, true)
  {
    hide BlockShape;
    SliceAppend(forwarded, f, first, first + |block|);
  }

  lemma PlacedMore(forwarded: seq<Frame>, first: nat, block: seq<Frame>, f: Frame)
    requires BlockPlaced(forwarded, first, block, false) && block != [] && f.ty.Continuation?
    ensures BlockPlaced(forwarded + [f], first, block + [f], f.HasEndHeaders())
  {
    SliceAppend(forwarded, f, first, |forwarded|);
    assert BlockShape(block + [f], f.HasEndHeaders());
    hide BlockShape;
  }

  lemma PlacedNone(forwarded: seq<Frame>, first: nat, f: Frame)
    requires BlockPlaced(forwarded, first, [], false)
    ensures f.ty.Headers? ==> BlockPlaced(forwarded + [f], |forwarded|, [f], f.HasEndHeaders())
    ensures !f.ty.Headers? ==> BlockPlaced(forwarded + [f], first, [], false)
  {
    SliceAppend(forwarded, f, |forwarded|, |forwarded|);
    assert forwarded[|forwarded|..|forwarded|] + [f] == [f];
  }

  lemma PlacedFrame(h: History, f: Frame, at: nat, h1: History)
    requires BlockPlaced(h.forwarded, h.first, h.block, h.closed) && BlockExtended(h, f, at, h1)
    requires h.block != [] && !h.closed ==> f.ty.Continuation?
    requires h.block == [] ==> !h.closed
    ensures BlockPlaced(h1.forwarded, h1.first, h1.block, h1.closed)
  {
    hide NoteForwarded, BlockPlaced;
    if h.block == [] {
      PlacedNone(h.forwarded, h.first, f);
    } else if h.closed {
      PlacedClosed(h.forwarded, h.first, h.block, f);
    } else {
      PlacedMore(h.forwarded, h.first, h.block, f);
    }
  }

  lemma ProgressFrame(state: DecodingState, frames: seq<Frame>, h: History, f: Frame, at: nat, h1: History)
    requires h.taken <= |h.forwarded| && BlockExtended(h, f, at, h1)
    requires HeaderProgress(state, frames, h.first, h.block, h.closed, h.taken)
    ensures HeaderProgress(state, frames, h1.first, h1.block, h1.closed, h1.taken)
  {
    if state.KeepGoing? && !h.closed {
      assert (h.block + [f])[..h.taken - h.first] == h.block[..h.taken - h.first];
    }
  }

  lemma MessageFrame(id: U32, state: DecodingState, h: History, f: Frame, at: nat, h1: History)
    requires HeaderMessage(id, state, h.block, h.closed, h.sent) && BlockExtended(h, f, at, h1)
    requires Checked(f, id) && (h.block != [] && !h.closed ==> f.ty.Continuation?) && (h.closed ==> h.block != [])
    ensures HeaderMessage(id, state, h1.block, h1.closed, h1.sent)
  {}

  lemma Extended(h: History, f: Frame, at: nat)
    ensures BlockExtended(h, f, at, NoteForwarded(h, f, at))
  {}

  lemma BlockFrame(s: Stream, phase: Phase, inbox: seq<ToStream>, h: History, f: Frame, at: nat)
    requires BlockInv(s, phase, inbox, false, h) && Checked(f, s.id)
    requires h.block != [] && !h.closed ==> f.ty.Continuation?
    ensures BlockInv(s, phase, inbox + [FrameForRequest(f)], false, NoteForwarded(h, f, at))
  {
    Extended(h, f, at);
    var h1 := NoteForwarded(h, f, at);
    hide NoteForwarded;
    LoggedFrame(s.id, h.forwarded, h.taken, inbox, f);
    PlacedFrame(h, f, at, h1);
    ProgressFrame(s.headerState, s.headerFrames, h, f, at, h1);
    MessageFrame(s.id, s.headerState, h, f, at, h1);
    hide HeaderMessage, HeaderProgress, BlockPlaced, BlockExtended;
  }

  /** The rest of the invariant does not look at what was forwarded. */
  lemma RestFrame(s: Stream, phase: Phase, h: History, f: Frame, at: nat)
    requires RequestInv(s, phase, h) && FlowInv(s, phase, h)
    ensures RequestInv(s, phase, NoteForwarded(h, f, at)) && FlowInv(s, phase, NoteForwarded(h, f, at))
  {
    hide RequestOk, DispatchOk, TrailerOk, SecondOk, StateOk, WindowOk, ResponseOk, CountOk, OwnMessages;
  }

  lemma FrameReceived(t: Task, f: Frame, at: nat)
    requires LocalInv(t) && Checked(f, t.s.id)
    requires !t.cancelled && t.h.block != [] && !t.h.closed ==> f.ty.Continuation?
    ensures LocalInv(Receive(t, FrameForRequest(f), at))
  {
    Parts(t);
    Parts(Receive(t, FrameForRequest(f), at));
    if t.cancelled {
      CancelledReceives(t, FrameForRequest(f));
    } else {
      hide BlockInv, RequestInv, FlowInv, LocalInv;
      BlockFrame(t.s, t.phase, t.inbox, t.h, f, at);
      RestFrame(t.s, t.phase, t.h, f, at);
    }
  }

  lemma CancelledReceives(t: Task, m: ToStream)
    requires BlockInv(t.s, t.phase, t.inbox, t.cancelled, t.h) && t.cancelled
    ensures BlockInv(t.s, t.phase, t.inbox + [m], t.cancelled, t.h)
  {
    hide HeaderMessage, HeaderProgress, BlockPlaced, InboxFrames;
  }

  // ---- a frame arrives ----

  /** An unfinished block of a stream that is not cancelled expects a CONTINUATION, next in line. */
  predicate Expects(t: Task, f: Frame, received: seq<Frame>) {
    !t.cancelled && t.h.block != [] && !t.h.closed ==> f.ty.Continuation? && t.h.start + |t.h.block| == |received|
  }

  lemma Untouched(t: Task, sid: U32, queue: seq<ToConn>, inFlight: nat, tokens: set<U32>, tokens1: set<U32>, received: seq<Frame>, f: Frame)
    requires StreamOk(t, sid, queue, inFlight, tokens, received) && tokens <= tokens1
    ensures StreamOk(t, sid, queue, inFlight, tokens1, received + [f])
  {
    hide LocalInv, Flow, InboxOk, QueuedWasSent, Seen;
  }

  lemma BlockReceivedFrame(h: History, f: Frame, received: seq<Frame>)
    requires BlockReceived(h.block, h.start, received)
    requires h.block != [] && !h.closed ==> h.start + |h.block| == |received|
    ensures var h1 := NoteForwarded(h, Seen(f), |received|); BlockReceived(h1.block, h1.start, received + [f])
  {
    hide NoteForwarded, Seen;
    Extended(h, Seen(f), |received|);
  }

  lemma FlowFrame(sid: U32, sent: seq<ToConn>, queue: seq<ToConn>, inFlight: nat, inbox: seq<ToStream>, responses: nat, replied: bool, late: nat, f: Frame)
    requires Flow(sid, sent, queue, inFlight, inbox, responses, replied, late)
    ensures Flow(sid, sent, queue, inFlight, inbox + [FrameForRequest(f)], responses, replied, late)
  {
    WaitingAppend(inbox, FrameForRequest(f), GotResponse);
    WaitingAppend(inbox, FrameForRequest(f), GotHeaders);
    WaitingAppend(inbox, FrameForRequest(f), GotTrailers);
  }

  /** What `Receive` does to a task that gets a frame. */
  lemma ReceiveFields(t: Task, f: Frame, at: nat)
    ensures var t1 := Receive(t, FrameForRequest(f), at);
      && t1.s == t.s && t1.cancelled == t.cancelled && t1.inbox == t.inbox + [FrameForRequest(f)]
      && t1.h == (if t.cancelled then t.h else NoteForwarded(t.h, f, at))
      && t1.h.sent == t.h.sent && t1.h.responses == t.h.responses && t1.h.reply == t.h.reply && t1.h.lateReplies == t.h.lateReplies
  {}

  lemma InboxOkFrame(inbox: seq<ToStream>, declared: Option<set<string>>, f: Frame)
    requires InboxOk(inbox, declared)
    ensures InboxOk(inbox + [FrameForRequest(f)], declared)
  {}

  lemma GetsFrame(t: Task, sid: U32, queue: seq<ToConn>, inFlight: nat, tokens: set<U32>, tokens1: set<U32>, received: seq<Frame>, f: Frame)
    requires StreamOk(t, sid, queue, inFlight, tokens, received) && tokens <= tokens1
    requires Checked(Seen(f), sid) && Expects(t, f, received)
    ensures StreamOk(Receive(t, FrameForRequest(Seen(f)), |received|), sid, queue, inFlight, tokens1, received + [f])
  {
    assert f.ty == Seen(f).ty;
    hide LocalInv, Flow, QueuedWasSent, BlockReceived, Seen, Checked, Receive, NoteForwarded, InboxOk;
    FrameReceived(t, Seen(f), |received|);
    ReceiveFields(t, Seen(f), |received|);
    FlowFrame(sid, t.h.sent, queue, inFlight, t.inbox, t.h.responses, t.h.reply.Some?, |t.h.lateReplies|, Seen(f));
    InboxOkFrame(t.inbox, t.s.declared, Seen(f));
    if t.cancelled {
      Untouched(t, sid, queue, inFlight, tokens, tokens1, received, f);
    } else {
      BlockReceivedFrame(t.h, f, received);
    }
  }

  /** The gate after a frame that was forwarded to its stream. */
  lemma GateFollows(c: Conn, t: Task, f: Frame, o: Outcome, received: seq<Frame>)
    requires Listening(c) && FrameEffect(c, f, o) && o.post.Some? && Expects(t, f, received)
    requires c.ctx.gate.None? && !t.cancelled ==> t.h.block == [] || t.h.closed
    requires !t.cancelled && t.h.block != [] && !t.h.closed ==> c.ctx.gate == Some(f.sid)
    ensures BlockAtGate(o.conn, Receive(t, FrameForRequest(Seen(f)), |received|), f.sid, received + [f])
  {
    assert Seen(f).ty == f.ty;
    ReceiveFields(t, Seen(f), |received|);
    if !t.cancelled {
      Extended(t.h, Seen(f), |received|);
    }
    hide Receive, NoteForwarded, Seen, Checked, GateOk;
  }

  lemma ServedBefore(c: Conn, t: Task, sid: U32, f: Frame, o: Outcome)
    requires Listening(c) && FrameEffect(c, f, o) && Served(o.conn, t, sid)
    ensures Served(c, t, sid)
  {
    hide GateOk, Checked, Seen, GateAfter;
  }

  lemma PostedAt(y: Sys, f: Frame)
    requires Listening(y.conn) && f.sid in y.tasks && At(y, f.sid)
    requires var o := OnFrame(y.conn, f); FrameEffect(y.conn, f, o) && o.post.Some? && o.created.None?
    ensures At(OnArrive(y, f), f.sid)
  {
    hide OnFrame, StreamOk, Receive, Seen, Checked, GateOk;
    var o := OnFrame(y.conn, f);
    var t := y.tasks[f.sid];
    GetsFrame(t, f.sid, y.queue, Outstanding(y, f.sid), y.conn.ctx.tokens, o.conn.ctx.tokens, y.received, f);
    GateFollows(y.conn, t, f, o, y.received);
  }

  /** A frame that does not reach the stream either leaves its unfinished block alone or cuts it off. */
  lemma PassedGate(c: Conn, t: Task, sid: U32, received: seq<Frame>, f: Frame, o: Outcome)
    requires Listening(c) && BlockAtGate(c, t, sid, received)
    requires FrameEffect(c, f, o) && (o.post.Some? || o.created.Some? ==> sid != f.sid)
    ensures BlockAtGate(o.conn, t, sid, received + [f])
  {
    hide Seen, Checked, GateOk;
    if Served(o.conn, t, sid) {
      ServedBefore(c, t, sid, f, o);
    }
  }

  /** Neither created by the frame nor given it. */
  predicate PassedBy(c: Conn, f: Frame, sid: U32) {
    var o := OnFrame(c, f);
    FrameEffect(c, f, o) && (o.post.Some? || o.created.Some? ==> sid != f.sid)
  }

  lemma PassedTask(y: Sys, f: Frame, sid: U32)
    requires sid in y.tasks && PassedBy(y.conn, f, sid)
    ensures sid in OnArrive(y, f).tasks && OnArrive(y, f).tasks[sid] == y.tasks[sid]
  {
    hide OnFrame, Receive, Seen, Checked, GateOk;
  }

  lemma PassedAt(y: Sys, f: Frame, sid: U32)
    requires Listening(y.conn) && sid in y.tasks && At(y, sid) && sid in OnArrive(y, f).tasks
    requires PassedBy(y.conn, f, sid)
    ensures At(OnArrive(y, f), sid)
  {
    hide OnFrame, StreamOk, BlockAtGate, Receive, Seen, Checked, GateOk, GateAllows, GateAfter, Post, Spawn;
    var o := OnFrame(y.conn, f);
    var t := y.tasks[sid];
    Untouched(t, sid, y.queue, Outstanding(y, sid), y.conn.ctx.tokens, o.conn.ctx.tokens, y.received, f);
    PassedGate(y.conn, t, sid, y.received, f, o);
    PassedTask(y, f, sid);
  }

  lemma {:induction false} NobodysMessages(queue: seq<ToConn>, k: Kind, sid: U32)
    requires forall i :: 0 <= i < |queue| ==> !Mine(queue[i], sid)
    ensures Num(queue, k, sid) == 0
  {
    if queue != [] {
      NobodysMessages(queue[..|queue| - 1], k, sid);
    }
  }

  lemma NewStreamOk(sid: U32, queue: seq<ToConn>, tokens: set<U32>, received: seq<Frame>)
    requires forall i :: 0 <= i < |queue| ==> !Mine(queue[i], sid)
    requires sid in tokens
    ensures StreamOk(NewTask(sid), sid, queue, 0, tokens, received)
  {
    NewTaskInv(sid);
    hide LocalInv;
    NobodysMessages(queue, KDispatch, sid);
    NobodysMessages(queue, KHeaders, sid);
    NobodysMessages(queue, KTrailers, sid);
  }

  lemma Unheard(y: Sys, sid: U32)
    requires Skeleton(y) && sid !in y.conn.ctx.channels
    ensures Outstanding(y, sid) == 0 && forall i :: 0 <= i < |y.queue| ==> !Mine(y.queue[i], sid)
  {
    hide GateOk;
    assert sid !in y.running;
  }

  lemma CreatedAt(y: Sys, f: Frame)
    requires Listening(y.conn) && Skeleton(y)
    requires var o := OnFrame(y.conn, f); FrameEffect(y.conn, f, o) && o.created.Some?
    ensures f.sid in OnArrive(y, f).tasks && At(OnArrive(y, f), f.sid)
  {
    var o := OnFrame(y.conn, f);
    var t := NewTask(f.sid);
    hide OnFrame, StreamOk, Receive, Seen, Checked, GateOk, Skeleton, Mine, GateAfter, GateAllows;
    Unheard(y, f.sid);
    NewStreamOk(f.sid, y.queue, o.conn.ctx.tokens, y.received);
    if o.post.Some? {
      GetsFrame(t, f.sid, y.queue, 0, o.conn.ctx.tokens, o.conn.ctx.tokens, y.received, f);
      GateFollows(y.conn, t, f, o, y.received);
    } else {
      Untouched(t, f.sid, y.queue, 0, o.conn.ctx.tokens, o.conn.ctx.tokens, y.received, f);
    }
  }

  lemma ArriveSkeleton(y: Sys, f: Frame)
    requires Skeleton(y) && Listening(y.conn)
    ensures FrameEffect(y.conn, f, OnFrame(y.conn, f))
    ensures Skeleton(OnArrive(y, f))
    ensures OnArrive(y, f).tasks.Keys == y.tasks.Keys + (if OnFrame(y.conn, f).created.Some? then {f.sid} else {})
  {
    hide OnFrame, Receive, Seen, Checked, GateOk, GateAfter;
    FrameTaken(y.conn, f);
  }

  lemma ArriveAt(y: Sys, f: Frame, sid: U32)
    requires Skeleton(y) && Listening(y.conn) && FrameEffect(y.conn, f, OnFrame(y.conn, f))
    requires sid in OnArrive(y, f).tasks && (sid in y.tasks ==> At(y, sid))
    requires OnFrame(y.conn, f).created.None? || sid != f.sid ==> sid in y.tasks
    ensures At(OnArrive(y, f), sid)
  {
    hide OnFrame, At, OnArrive;
    var o := OnFrame(y.conn, f);
    if o.created.Some? && sid == f.sid {
      CreatedAt(y, f);
    } else if o.post.Some? && sid == f.sid {
      PostedAt(y, f);
    } else {
      PassedAt(y, f, sid);
    }
  }

  lemma ArriveJoint(y: Sys, f: Frame)
    requires Joint(y) && Listening(y.conn)
    ensures Joint(OnArrive(y, f))
  {
    hide OnFrame, At, OnArrive, Skeleton, FrameEffect;
    ArriveSkeleton(y, f);
    forall sid | sid in OnArrive(y, f).tasks ensures At(OnArrive(y, f), sid) {
      ArriveAt(y, f, sid);
    }
  }

  // ---- the other events ----

  lemma CancelledStream(t: Task, sid: U32, queue: seq<ToConn>, inFlight: nat, tokens: set<U32>, tokens1: set<U32>, received: seq<Frame>)
    requires StreamOk(t, sid, queue, inFlight, tokens, received)
    ensures StreamOk(t.(cancelled := true), sid, queue, inFlight, tokens1, received)
  {
    hide LocalInv, Flow, InboxOk, QueuedWasSent, BlockReceived;
    CancelledKeeps(t);
  }

  lemma CancelledKeeps(t: Task)
    requires LocalInv(t)
    ensures LocalInv(t.(cancelled := true))
  {
    hide HeaderMessage, HeaderProgress, BlockPlaced, RequestInv, FlowInv, PhaseOk, InboxFrames;
  }

  predicate ErrorEffect(c: Conn, o: Outcome)
    requires c.ctx.error.Some?
  {
    && o.created.None? && o.post.None? && o.launch.None?
    && o.conn.ctx.channels == c.ctx.channels && o.conn.ctx.gate == c.ctx.gate && o.conn.ctx.goAway == c.ctx.goAway
    && o.conn.ctx.tokens == c.ctx.tokens - (if o.cancel.Some? then {o.cancel.value} else {})
    && (o.conn.status.Running? ==> c.status.Running? && !c.ctx.error.value.ConnectionError?)
    && (o.conn.status.Running? && c.ctx.error.value.StreamError? ==>
          o.cancel == if c.ctx.error.value.sid in c.ctx.tokens then Some(c.ctx.error.value.sid) else None)
    && o.conn.ctx.error.None?
  }

  lemma ErrorAnswered(c: Conn)
    requires c.ctx.error.Some?
    ensures ErrorEffect(c, AnswerError(c))
  {
    hide Goaway.WithError, RstFrame, Writable;
  }

  lemma AnswerAt(y: Sys, sid: U32)
    requires y.conn.status.Running? && y.conn.ctx.error.Some? && sid in y.tasks && At(y, sid)
    ensures sid in OnAnswer(y).tasks && At(OnAnswer(y), sid)
  {
    hide AnswerError, LocalInv, Flow, InboxOk, QueuedWasSent, BlockReceived;
    ErrorAnswered(y.conn);
    var t := y.tasks[sid];
    var o := AnswerError(y.conn);
    CancelledStream(t, sid, y.queue, Outstanding(y, sid), y.conn.ctx.tokens, o.conn.ctx.tokens, y.received);
  }

  lemma AnswerSkeleton(y: Sys)
    requires Skeleton(y) && y.conn.status.Running? && y.conn.ctx.error.Some?
    ensures Skeleton(OnAnswer(y)) && OnAnswer(y).tasks.Keys == y.tasks.Keys
  {
    hide AnswerError;
    ErrorAnswered(y.conn);
  }

  lemma AnswerJoint(y: Sys)
    requires Joint(y) && y.conn.status.Running? && y.conn.ctx.error.Some?
    ensures Joint(OnAnswer(y))
  {
    hide OnAnswer, At, Skeleton;
    AnswerSkeleton(y);
    forall sid | sid in OnAnswer(y).tasks ensures At(OnAnswer(y), sid) {
      AnswerAt(y, sid);
    }
  }

  /** A change of the connection that leaves the streams and the gate alone, and serves no more streams than before. */
  predicate SameForStreams(c: Conn, c1: Conn) {
    && c1.ctx.channels == c.ctx.channels && c1.ctx.tokens == c.ctx.tokens && c1.ctx.gate == c.ctx.gate && c1.ctx.goAway == c.ctx.goAway
    && (c1.status.Running? ==> c.status.Running? && c.ctx.error.None?)
  }

  lemma SameAt(y: Sys, y1: Sys, sid: U32)
    requires sid in y.tasks && At(y, sid) && SameForStreams(y.conn, y1.conn)
    requires y1.tasks == y.tasks && y1.queue == y.queue && y1.running == y.running && y1.received == y.received && y1.log.dropped == y.log.dropped
    ensures At(y1, sid)
  {
    hide StreamOk;
  }

  lemma SameJoint(y: Sys, y1: Sys)
    requires Joint(y) && SameForStreams(y.conn, y1.conn)
    requires y1.tasks == y.tasks && y1.queue == y.queue && y1.running == y.running && y1.received == y.received && y1.log.dropped == y.log.dropped
    ensures Joint(y1)
  {
    hide At;
    forall sid | sid in y1.tasks ensures At(y1, sid) {
      SameAt(y, y1, sid);
    }
  }

  /** After the loop has ended nothing is delivered any more. */
  lemma EndedJoint(y: Sys, rootCancelled: bool)
    requires Joint(y)
    ensures Joint(y.(conn := End(y.conn.(ctx := y.conn.ctx.(rootCancelled := rootCancelled)))))
  {
    hide Joint;
    SameJoint(y, y.(conn := End(y.conn.(ctx := y.conn.ctx.(rootCancelled := rootCancelled)))));
  }

  lemma TroubleJoint(y: Sys)
    requires Joint(y) && Listening(y.conn)
    ensures Joint(OnTrouble(y))
  {
    hide Joint;
    SameJoint(y, OnTrouble(y));
  }

  /** Neither a dispatch task dropped nor another stream's answer changes what is outstanding. */
  lemma DropJoint(y: Sys, sid: U32)
    requires Joint(y) && sid in y.running
    ensures Joint(OnDrop(y, sid))
  {
    hide StreamOk, BlockAtGate;
    forall id | id in y.tasks ensures At(OnDrop(y, sid), id) {
      assert At(y, id);
    }
  }

  lemma ReplyStream(t: Task, sid: U32, queue: seq<ToConn>, inFlight: nat, tokens: set<U32>, received: seq<Frame>, m: ToStream, at: nat)
    requires StreamOk(t, sid, queue, inFlight, tokens, received) && inFlight > 0 && m.ResponseObject?
    ensures Receive(t, m, at) == t.(inbox := t.inbox + [m])
    ensures StreamOk(t.(inbox := t.inbox + [m]), sid, queue, inFlight - 1, tokens, received)
  {
    hide LocalInv, QueuedWasSent, BlockReceived, Receive, AnswerOk;
    AnswerPosted(t, m, at);
    WaitingAppend(t.inbox, m, GotResponse);
    WaitingAppend(t.inbox, m, GotHeaders);
    WaitingAppend(t.inbox, m, GotTrailers);
    InboxOkReply(t.inbox, t.s.declared, m);
    hide InboxOk;
  }

  lemma InboxOkReply(inbox: seq<ToStream>, declared: Option<set<string>>, m: ToStream)
    requires InboxOk(inbox, declared) && m.ResponseObject?
    ensures InboxOk(inbox + [m], declared)
  {}

  lemma ReplyAt(y: Sys, sid: U32, r: Response, id: U32)
    requires sid in y.running && sid in y.tasks && id in y.tasks && At(y, id)
    ensures At(OnReply(y, sid, r), id)
  {
    hide StreamOk, Receive;
    if id == sid {
      ReplyStream(y.tasks[sid], sid, y.queue, Outstanding(y, sid), y.conn.ctx.tokens, y.received, ResponseObject(r.0, r.1), |y.received|);
    }
  }

  lemma ReplyJoint(y: Sys, sid: U32, r: Response)
    requires Joint(y) && sid in y.running && sid in y.tasks
    ensures Joint(OnReply(y, sid, r))
  {
    hide At, Receive;
    forall id | id in y.tasks ensures At(OnReply(y, sid, r), id) {
      ReplyAt(y, sid, r, id);
    }
  }

  lemma NextJoint(y: Sys, e: Event)
    requires Joint(y) && Enabled(y, e)
    ensures Joint(Next(y, e))
  {
    hide Joint, OnArrive, OnAnswer, OnHandle, OnStep, OnReply, OnTrouble;
    match e {
      case Arrive(f) => ArriveJoint(y, f);
      case Answer => AnswerJoint(y);
      case Handle(hpack) => HandleJoint(y, hpack);
      case Trouble => TroubleJoint(y);
      case Timeout => EndedJoint(y, true);
      case Abort => EndedJoint(y, y.conn.ctx.rootCancelled);
      case Step(sid) => StepJoint(y, sid);
      case Reply(sid, encoded, body) => ReplyJoint(y, sid, (encoded, body));
      case Drop(sid) => DropJoint(y, sid);
    }
  }

  /** Every run keeps the invariant. */
  lemma {:induction false} RunJoint(y0: Sys, events: seq<Event>, y: Sys)
    requires Joint(y0) && Run(y0, events, y)
    ensures Joint(y)
    decreases events
  {
    hide Joint, Next, Enabled, Trace;
    if events != [] {
      var n := |events| - 1;
      var mid := LastEvent(y0, events, y);
      RunJoint(y0, events[..n], mid);
      NextJoint(mid, events[n]);
    }
  }

  lemma ReachableJoint(y: Sys)
    requires Reachable(y)
    ensures Joint(y)
  {
    hide Joint, Init, Run;
    var y0, events :| Init(y0) && Run(y0, events, y);
    InitJoint(y0);
    RunJoint(y0, events, y);
  }
}
