/** From the dispatcher's response to the wire: no frame of a response is lost, repeated or reordered. */
module ResponseDelivery {
  import opened Wrappers
  import opened Bytes
  import opened Frames
  import opened Messages
  import opened ConnectionModel
  import opened System
  import opened StreamInvariant
  import opened SystemInvariant
  import SystemArrive
  import ConnectionInvariant
  import Delivery
  import ActiveCount
  import HeaderBlock
  import Settings

  /** The response frames of one stream among those of a list. */
  function OfStream(fs: seq<Frame>, sid: U32): seq<Frame> {
    if fs == [] then []
    else
      var f := fs[|fs| - 1];
      OfStream(fs[..|fs| - 1], sid) + (if f.sid == sid && (f.ty.Headers? || f.ty.Data?) then [f] else [])
  }

  /** The response frames of one stream still in the channel to the connection. */
  function InChannel(queue: seq<ToConn>, sid: U32): seq<Frame> {
    if queue == [] then [] else (if Mine(queue[0], sid) then MessageFrames(queue[0]) else []) + InChannel(queue[1..], sid)
  }

  function HandedOver(tasks: map<U32, Task>, sid: U32): seq<Frame> {
    if sid in tasks then OutFrames(tasks[sid].h.sent) else []
  }

  /** On the wire, then waiting for the connection's window, then in the channel: all that the stream handed over. */
  predicate DeliveredTo(wire: seq<Frame>, waiting: seq<Frame>, queue: seq<ToConn>, tasks: map<U32, Task>, sid: U32) {
    OfStream(wire, sid) + OfStream(waiting, sid) + InChannel(queue, sid) == HandedOver(tasks, sid)
  }

  /** Only DATA frames ever wait for the connection's window. */
  predicate OnlyDataWaits(waiting: seq<Frame>) {
    forall f :: f in waiting ==> f.ty.Data?
  }

  /** What the wire carries of a stream is the beginning of what the stream handed over. */
  predicate Begins(wire: seq<Frame>, tasks: map<U32, Task>, sid: U32) {
    OfStream(wire, sid) <= HandedOver(tasks, sid)
  }

  ghost predicate Conserved(y: Sys) {
    && OnlyDataWaits(y.conn.pendingFrames)
    && (forall sid: U32 :: Begins(y.conn.wire, y.tasks, sid))
    && (y.conn.status.Running? ==> forall sid: U32 :: DeliveredTo(y.conn.wire, y.conn.pendingFrames, y.queue, y.tasks, sid))
  }

  // ---- lists ----

  lemma OfStreamOne(fs: seq<Frame>, f: Frame, sid: U32)
    ensures OfStream(fs + [f], sid) == OfStream(fs, sid) + (if f.sid == sid && (f.ty.Headers? || f.ty.Data?) then [f] else [])
  {
    assert (fs + [f])[..|fs|] == fs;
  }

  lemma {:induction false} OfStreamAppend(a: seq<Frame>, b: seq<Frame>, sid: U32)
    ensures OfStream(a + b, sid) == OfStream(a, sid) + OfStream(b, sid)
  {
    if b == [] {
      assert a + b == a;
    } else {
      var n := |b| - 1;
      assert a + b == (a + b[..n]) + [b[n]];
      OfStreamOne(a + b[..n], b[n], sid);
      OfStreamAppend(a, b[..n], sid);
    }
  }

  /** A list of one stream's response frames is that stream's, and no other's. */
  lemma {:induction false} OfStreamOwn(fs: seq<Frame>, id: U32, sid: U32)
    requires forall f :: f in fs ==> f.sid == id && (f.ty.Headers? || f.ty.Data?)
    ensures OfStream(fs, sid) == if id == sid then fs else []
  {
    if fs != [] {
      OfStreamOwn(fs[..|fs| - 1], id, sid);
      assert fs == fs[..|fs| - 1] + [fs[|fs| - 1]];
    }
  }

  lemma {:induction false} InChannelAppend(queue: seq<ToConn>, m: ToConn, sid: U32)
    ensures InChannel(queue + [m], sid) == InChannel(queue, sid) + (if Mine(m, sid) then MessageFrames(m) else [])
  {
    if queue == [] {
      assert [] + [m] == [m] && [m][1..] == [];
    } else {
      assert (queue + [m])[1..] == queue[1..] + [m] && (queue + [m])[0] == queue[0];
      InChannelAppend(queue[1..], m, sid);
      Associate(if Mine(queue[0], sid) then MessageFrames(queue[0]) else [], InChannel(queue[1..], sid), if Mine(m, sid) then MessageFrames(m) else []);
    }
  }

  // ---- what a message carries ----

  lemma {:induction false} SentIsOut(sent: seq<ToConn>, m: ToConn, f: Frame)
    requires m in sent && f in MessageFrames(m)
    ensures f in OutFrames(sent)
  {
    var n := |sent| - 1;
    if m in sent[..n] {
      SentIsOut(sent[..n], m, f);
    } else {
      assert sent[n] == m;
    }
  }

  /** Everything a stream hands over is part of its one response. */
  lemma HandedOverShape(t: Task)
    requires LocalInv(t)
    ensures OutFrames(t.h.sent) + t.s.pending == ResponseFrames(t.s.id, t.h.response)
  {
    hide BlockInv, RequestInv, StateOk, WindowOk, CountOk, OwnMessages;
  }

  lemma OutIsOwn(t: Task)
    requires LocalInv(t)
    ensures forall f :: f in OutFrames(t.h.sent) ==> f.sid == t.s.id && (f.ty.Headers? || f.ty.Data?)
    ensures |OutFrames(t.h.sent)| <= 2
    ensures OutFrames(t.h.sent) != [] ==> OutFrames(t.h.sent)[0].ty.Headers?
    ensures |OutFrames(t.h.sent)| == 2 ==> OutFrames(t.h.sent)[1].ty.Data?
  {
    hide LocalInv;
    HandedOverShape(t);
    var all := ResponseFrames(t.s.id, t.h.response);
    forall f | f in OutFrames(t.h.sent) ensures f.sid == t.s.id && (f.ty.Headers? || f.ty.Data?) {
      assert f in all;
    }
    assert forall i :: 0 <= i < |OutFrames(t.h.sent)| ==> OutFrames(t.h.sent)[i] == all[i];
  }

  lemma QueuedIsOwn(y: Sys, m: ToConn)
    requires Joint(y) && m in y.queue && m.DoResponse?
    ensures m.sid in y.tasks && LocalInv(y.tasks[m.sid]) && y.tasks[m.sid].s.id == m.sid
    ensures forall f :: f in m.frames ==> f.sid == m.sid && (f.ty.Headers? || f.ty.Data?)
    ensures ResponseShape(m.frames)
  {
    var i :| 0 <= i < |y.queue| && y.queue[i] == m;
    ConnectionInvariant.QueuedShape(y, i);
    assert Skeleton(y) && Addressed(y.queue, y.tasks);
    var t := y.tasks[m.sid];
    assert At(y, m.sid);
    assert m in t.h.sent && LocalInv(t) && t.s.id == m.sid by {
      hide LocalInv, Flow, InboxOk, BlockReceived, BlockAtGate;
    }
    hide Joint, At, Skeleton, LocalInv, ResponseShape;
    OutIsOwn(t);
    forall f | f in m.frames ensures f.sid == m.sid && (f.ty.Headers? || f.ty.Data?) {
      SentIsOut(t.h.sent, m, f);
    }
  }

  // ---- a message is handled ----

  /** While frames of a stream wait for window, nothing of it is left in the channel. */
  lemma WaitingIsLast(wire: seq<Frame>, waiting: seq<Frame>, queue: seq<ToConn>, tasks: map<U32, Task>, sid: U32)
    requires DeliveredTo(wire, waiting, queue, tasks, sid)
    requires sid in tasks && LocalInv(tasks[sid]) && tasks[sid].s.id == sid
    requires forall f :: f in OfStream(waiting, sid) ==> f.ty.Data?
    ensures OfStream(waiting, sid) != [] ==> InChannel(queue, sid) == []
  {
    hide LocalInv;
    OutIsOwn(tasks[sid]);
    var out := OutFrames(tasks[sid].h.sent);
    var w, p, q := OfStream(wire, sid), OfStream(waiting, sid), InChannel(queue, sid);
    assert w + p + q == out;
    if p != [] {
      assert out[|w|] == p[0];
      assert |w| == 1;
    }
  }

  lemma {:induction false} OfStreamSome(fs: seq<Frame>, sid: U32)
    ensures forall f :: f in OfStream(fs, sid) ==> f in fs
  {
    if fs != [] {
      OfStreamSome(fs[..|fs| - 1], sid);
      assert forall f :: f in fs[..|fs| - 1] ==> f in fs;
    }
  }

  /** The part of a response that overflows is its DATA frame. */
  lemma OverflowIsData(window: nat, frames: seq<Frame>)
    requires ResponseShape(frames)
    ensures forall f :: f in frames[Delivery.Fitting(window, frames)..] ==> f.ty.Data?
  {
    if |frames| == 2 {
      assert frames[1..][0] == frames[1] && frames[1..][1..] == [];
    }
  }

  /** Moving a message from the channel to the wire and to the waiting frames keeps the order. */
  lemma SplitKeeps(w: seq<Frame>, p: seq<Frame>, out: seq<Frame>, kept: seq<Frame>, head: seq<Frame>, rest: seq<Frame>)
    requires out + kept == head && (p != [] ==> head + rest == [])
    ensures (w + out) + (p + kept) + rest == w + p + (head + rest)
  {
    if p != [] {
      assert out == [] && kept == [] && rest == [];
    } else {
      assert p + kept == kept && w + p == w;
    }
  }

  lemma ResponseMoved(y: Sys, sid: U32, k: nat)
    requires Joint(y) && Conserved(y) && y.conn.status.Running? && y.queue != [] && y.queue[0].DoResponse?
    requires k <= |y.queue[0].frames|
    ensures var (c, fs) := (y.conn, y.queue[0].frames);
      DeliveredTo(c.wire + fs[..k], c.pendingFrames + fs[k..], y.queue[1..], y.tasks, sid)
  {
    hide Joint, LocalInv, ResponseShape, DeliveredTo, Begins, OfStream;
    var c, m := y.conn, y.queue[0];
    assert m in y.queue;
    QueuedIsOwn(y, m);
    assert DeliveredTo(c.wire, c.pendingFrames, y.queue, y.tasks, sid);
    if sid == m.sid {
      OfStreamSome(c.pendingFrames, sid);
      WaitingIsLast(c.wire, c.pendingFrames, y.queue, y.tasks, sid);
    }
    MessageMoved(c.wire, c.pendingFrames, y.queue, y.tasks, sid, k);
  }

  lemma NextInChannel(queue: seq<ToConn>, sid: U32)
    requires queue != []
    ensures InChannel(queue, sid) == (if Mine(queue[0], sid) then MessageFrames(queue[0]) else []) + InChannel(queue[1..], sid)
  {}

  /** The first `k` frames of the message go to the wire, the others join the waiting ones. */
  lemma MessageMoved(wire: seq<Frame>, waiting: seq<Frame>, queue: seq<ToConn>, tasks: map<U32, Task>, sid: U32, k: nat)
    requires DeliveredTo(wire, waiting, queue, tasks, sid) && queue != [] && queue[0].DoResponse?
    requires forall f :: f in queue[0].frames ==> f.sid == queue[0].sid && (f.ty.Headers? || f.ty.Data?)
    requires sid == queue[0].sid && OfStream(waiting, sid) != [] ==> InChannel(queue, sid) == []
    requires k <= |queue[0].frames|
    ensures var fs := queue[0].frames; DeliveredTo(wire + fs[..k], waiting + fs[k..], queue[1..], tasks, sid)
  {
    hide DeliveredTo, OfStream, InChannel, HandedOver;
    var (m, fs, rest) := (queue[0], queue[0].frames, InChannel(queue[1..], sid));
    NextInChannel(queue, sid);
    PartsOfMessage(fs, m.sid, sid, k);
    var out, kept := OfStream(fs[..k], sid), OfStream(fs[k..], sid);
    OfStreamAppend(wire, fs[..k], sid);
    OfStreamAppend(waiting, fs[k..], sid);
    var w, p := OfStream(wire, sid), OfStream(waiting, sid);
    if sid != m.sid {
      OtherMoved(w, p, rest);
    } else {
      SplitKeeps(w, p, out, kept, fs, rest);
    }
    Redelivered(wire, waiting, queue, wire + fs[..k], waiting + fs[k..], queue[1..], tasks, sid);
  }

  lemma Redelivered(wire: seq<Frame>, waiting: seq<Frame>, queue: seq<ToConn>, wire1: seq<Frame>, waiting1: seq<Frame>, queue1: seq<ToConn>,
                    tasks: map<U32, Task>, sid: U32)
    requires DeliveredTo(wire, waiting, queue, tasks, sid)
    requires OfStream(wire1, sid) + OfStream(waiting1, sid) + InChannel(queue1, sid) == OfStream(wire, sid) + OfStream(waiting, sid) + InChannel(queue, sid)
    ensures DeliveredTo(wire1, waiting1, queue1, tasks, sid)
  {
    hide OfStream, InChannel, HandedOver;
  }

  lemma PartsOfMessage(fs: seq<Frame>, id: U32, sid: U32, k: nat)
    requires k <= |fs| && forall f :: f in fs ==> f.sid == id && (f.ty.Headers? || f.ty.Data?)
    ensures OfStream(fs[..k], sid) == if id == sid then fs[..k] else []
    ensures OfStream(fs[k..], sid) == if id == sid then fs[k..] else []
    ensures fs[..k] + fs[k..] == fs
  {
    OfStreamOwn(fs[..k], id, sid);
    OfStreamOwn(fs[k..], id, sid);
  }

  lemma OtherMoved(w: seq<Frame>, p: seq<Frame>, rest: seq<Frame>)
    ensures (w + []) + (p + []) + rest == w + p + ([] + rest)
  {}

  lemma DeliveredBegins(wire: seq<Frame>, waiting: seq<Frame>, queue: seq<ToConn>, tasks: map<U32, Task>, sid: U32)
    requires DeliveredTo(wire, waiting, queue, tasks, sid)
    ensures Begins(wire, tasks, sid)
  {
    hide OfStream, InChannel, HandedOver;
  }

  lemma ResponseSplit(y: Sys, c1: Conn, k: nat)
    requires Joint(y) && Conserved(y) && y.conn.status.Running? && y.queue != [] && y.queue[0].DoResponse?
    requires k <= |y.queue[0].frames| && Delivery.Split(y.conn, y.queue[0].frames, k, c1)
    requires OnlyDataWaits(y.queue[0].frames[k..])
    ensures Conserved(y.(conn := c1, queue := y.queue[1..]))
  {
    hide Joint, DeliveredTo, Begins;
    forall sid: U32 ensures DeliveredTo(c1.wire, c1.pendingFrames, y.queue[1..], y.tasks, sid) && Begins(c1.wire, y.tasks, sid) {
      ResponseMoved(y, sid, k);
      DeliveredBegins(c1.wire, c1.pendingFrames, y.queue[1..], y.tasks, sid);
    }
  }

  lemma ResponseHandled(y: Sys, hpack: Hpack)
    requires Joint(y) && Conserved(y) && Listening(y.conn) && y.queue != [] && y.queue[0].DoResponse?
    ensures Conserved(OnHandle(y, hpack))
  {
    hide Joint, Deliver, OnHandle, LocalInv, ResponseShape, Writable, Delivery.Fitting, DeliveredTo, Begins;
    var c, fs := y.conn, y.queue[0].frames;
    var c1, k := Deliver(c, fs, false), Delivery.Fitting(c.ctx.window, fs);
    assert y.queue[0] in y.queue;
    QueuedIsOwn(y, y.queue[0]);
    OverflowIsData(c.ctx.window, fs);
    OnHandleResponse(y, hpack);
    if Delivery.AllWritable(fs[..k]) {
      Delivery.DeliverSplits(c, fs);
      ResponseSplit(y, c1, k);
      SameConserved(y.(conn := c1, queue := y.queue[1..]), OnHandle(y, hpack));
    } else {
      var j := Delivery.DeliverStops(c, fs);
      ResponseStopped(y, c1, j);
      SameConserved(y.(conn := c1, queue := y.queue[1..]), OnHandle(y, hpack));
    }
  }

  /** A response that cannot be written whole ends the connection, and only its beginning is on the wire. */
  lemma ResponseStopped(y: Sys, c1: Conn, k: nat)
    requires Joint(y) && Conserved(y) && y.conn.status.Running? && y.queue != [] && y.queue[0].DoResponse?
    requires k < |y.queue[0].frames| && Delivery.StoppedAt(y.conn, y.queue[0].frames, k, c1)
    ensures Conserved(y.(conn := c1, queue := y.queue[1..]))
  {
    hide Joint, DeliveredTo, Begins, Writable;
    var (c, fs) := (y.conn, y.queue[0].frames);
    forall sid: U32 ensures Begins(c1.wire, y.tasks, sid) {
      ResponseMoved(y, sid, k);
      DeliveredBegins(c.wire + fs[..k], c.pendingFrames + fs[k..], y.queue[1..], y.tasks, sid);
    }
  }

  lemma SameConserved(y: Sys, y1: Sys)
    requires Conserved(y) && y1.conn == y.conn && y1.queue == y.queue && y1.tasks == y.tasks
    ensures Conserved(y1)
  {
    hide DeliveredTo, Begins;
  }

  lemma OnHandleResponse(y: Sys, hpack: Hpack)
    requires y.queue != [] && y.queue[0].DoResponse?
    ensures var y1 := OnHandle(y, hpack);
      y1.conn == Deliver(y.conn, y.queue[0].frames, false) && y1.queue == y.queue[1..] && y1.tasks == y.tasks
  {
    hide Deliver;
  }

  lemma OtherMessageHandled(y: Sys, hpack: Hpack)
    requires Conserved(y) && y.queue != [] && !y.queue[0].DoResponse?
    ensures Conserved(OnHandle(y, hpack))
  {
    ConnectionInvariant.OtherHandled(y.conn, y.queue[0], hpack);
    OtherKeepsWaiting(y.conn, y.queue[0], hpack);
    ActiveCount.HandleKeys(y, hpack);
    var y1 := OnHandle(y, hpack);
    forall sid: U32 ensures HandedOver(y1.tasks, sid) == HandedOver(y.tasks, sid) && InChannel(y1.queue, sid) == InChannel(y.queue, sid) {
      if sid in y.tasks {
        ActiveCount.SentUnchanged(y, hpack, sid);
      }
      assert [] + InChannel(y.queue[1..], sid) == InChannel(y.queue[1..], sid);
      hide OnMessage, Post, NewlyRaised;
    }
    hide OnMessage, Post, NewlyRaised, Conserved;
    assert y.conn.wire + [] == y.conn.wire;
    WireOnly(y, y1, []);
  }

  lemma OtherKeepsWaiting(c: Conn, m: ToConn, hpack: Hpack)
    requires !m.DoResponse?
    ensures OnMessage(c, m, hpack).conn.pendingFrames == c.pendingFrames
  {
    hide HeaderBlock.Decoded, HeaderBlock.DecodedTrailers;
  }

  // ---- the other events ----

  lemma StepDelivered(wire: seq<Frame>, waiting: seq<Frame>, queue: seq<ToConn>, tasks: map<U32, Task>, sid: U32, t1: Task, message: Option<ToConn>, id: U32)
    requires DeliveredTo(wire, waiting, queue, tasks, id) && sid in tasks
    requires t1.h.sent == Log1(tasks[sid].h.sent, message)
    requires message.Some? ==> message.value.Failure? || message.value.sid == sid
    ensures DeliveredTo(wire, waiting, Log1(queue, message), tasks[sid := t1], id)
  {
    if message.Some? {
      var m := message.value;
      InChannelAppend(queue, m, id);
      OutAppend(tasks[sid].h.sent, m);
      var added := if Mine(m, id) then MessageFrames(m) else [];
      Associate(OfStream(wire, id) + OfStream(waiting, id), InChannel(queue, id), added);
      assert HandedOver(tasks, id) + [] == HandedOver(tasks, id) && InChannel(queue, id) + [] == InChannel(queue, id);
      hide OfStream, InChannel, OutFrames;
    }
  }

  lemma StepBegins(wire: seq<Frame>, tasks: map<U32, Task>, sid: U32, t1: Task, message: Option<ToConn>, id: U32)
    requires Begins(wire, tasks, id) && sid in tasks && t1.h.sent == Log1(tasks[sid].h.sent, message)
    ensures Begins(wire, tasks[sid := t1], id)
  {
    if message.Some? {
      OutAppend(tasks[sid].h.sent, message.value);
      hide OfStream, OutFrames;
    }
  }

  lemma StepConserves(y: Sys, sid: U32)
    requires Joint(y) && Conserved(y) && sid in y.tasks && CanStep(y.tasks[sid], Cancelled(y, sid))
    ensures Conserved(OnStep(y, sid))
  {
    hide TaskStep, LocalInv, BlockAtGate, Flow, InboxOk, QueuedWasSent, BlockReceived, DeliveredTo, Begins;
    var t, cancelled := y.tasks[sid], Cancelled(y, sid);
    assert At(y, sid);
    StepSelf(t, sid, cancelled, y.queue, Outstanding(y, sid), y.conn.ctx.tokens, y.received);
    MessageIsOwn(t, cancelled);
    StepLogs(t, cancelled);
    hide Joint, At;
    var st := TaskStep(t, cancelled);
    var queue1, tasks1 := Log1(y.queue, st.message), y.tasks[sid := st.task];
    forall id: U32 ensures Begins(y.conn.wire, tasks1, id) {
      StepBegins(y.conn.wire, y.tasks, sid, st.task, st.message, id);
    }
    if y.conn.status.Running? {
      forall id: U32 ensures DeliveredTo(y.conn.wire, y.conn.pendingFrames, queue1, tasks1, id) {
        StepDelivered(y.conn.wire, y.conn.pendingFrames, y.queue, y.tasks, sid, st.task, st.message, id);
      }
    }
  }

  /** New frames on the wire that belong to no response. */
  lemma NotOfStream(wire: seq<Frame>, fs: seq<Frame>, sid: U32)
    requires |fs| <= 1 && (fs != [] ==> !fs[0].ty.Headers? && !fs[0].ty.Data?)
    ensures OfStream(wire + fs, sid) == OfStream(wire, sid)
  {
    if fs == [] {
      assert wire + fs == wire;
    } else {
      assert fs == [fs[0]];
      OfStreamOne(wire, fs[0], sid);
    }
  }

  lemma WireOnly(y: Sys, y1: Sys, fs: seq<Frame>)
    requires Conserved(y) && (y1.conn.status.Running? ==> y.conn.status.Running?)
    requires y1.conn.wire == y.conn.wire + fs && y1.conn.pendingFrames == y.conn.pendingFrames
    requires forall sid: U32 :: InChannel(y1.queue, sid) == InChannel(y.queue, sid)
    requires |fs| <= 1 && (fs != [] ==> !fs[0].ty.Headers? && !fs[0].ty.Data?)
    requires forall sid: U32 :: HandedOver(y1.tasks, sid) == HandedOver(y.tasks, sid)
    ensures Conserved(y1)
  {
    forall sid: U32 ensures OfStream(y1.conn.wire, sid) == OfStream(y.conn.wire, sid) && Begins(y1.conn.wire, y1.tasks, sid) {
      NotOfStream(y.conn.wire, fs, sid);
      assert Begins(y.conn.wire, y.tasks, sid);
      hide OfStream, HandedOver;
    }
    if y1.conn.status.Running? {
      forall sid: U32 ensures DeliveredTo(y1.conn.wire, y1.conn.pendingFrames, y1.queue, y1.tasks, sid) {
        assert DeliveredTo(y.conn.wire, y.conn.pendingFrames, y.queue, y.tasks, sid);
        hide OfStream, HandedOver, InChannel;
      }
    }
  }

  lemma FrameKeepsWaiting(c: Conn, f: Frame)
    ensures OnFrame(c, f).conn.pendingFrames == c.pendingFrames
  {
    hide ConnectionModel.Handle, Writable;
  }

  lemma ArriveConserves(y: Sys, f: Frame)
    requires Joint(y) && ConnectionInvariant.Accounts(y) && Conserved(y) && Listening(y.conn)
    ensures Conserved(OnArrive(y, f))
  {
    hide OnFrame, OnArrive, SystemArrive.FrameEffect, Settings.Legal, Conserved, At;
    var y1, c1 := OnArrive(y, f), OnFrame(y.conn, f).conn;
    assert Skeleton(y);
    SystemArrive.ArriveSkeleton(y, f);
    ConnectionInvariant.FrameAccounted(y.conn, f);
    FrameKeepsWaiting(y.conn, f);
    ActiveCount.ArriveLog(y, f);
    forall sid: U32 ensures HandedOver(y1.tasks, sid) == HandedOver(y.tasks, sid) {
      if sid in y1.tasks {
        ActiveCount.ArriveSent(y, f, sid);
      }
    }
    hide Joint;
    var fs := c1.wire[|y.conn.wire|..];
    assert c1.wire == y.conn.wire + fs;
    WireOnly(y, y1, fs);
  }

  lemma AnswerConserves(y: Sys)
    requires Conserved(y) && y.conn.status.Running? && y.conn.ctx.error.Some?
    ensures Conserved(OnAnswer(y))
  {
    hide AnswerError, CancelTask, Conserved, ConnectionInvariant.AnswerTo;
    var e := y.conn.ctx.error.value;
    ConnectionInvariant.AnswerWritten(y.conn);
    ConnectionInvariant.AnswerFrames(y.conn.ctx.seenMax, e);
    AnswerKeepsWaiting(y.conn);
    ActiveCount.AnswerSame(y);
    WireOnly(y, OnAnswer(y), ConnectionInvariant.AnswerTo(e, y.conn.ctx.seenMax));
  }

  lemma AnswerKeepsWaiting(c: Conn)
    requires c.ctx.error.Some?
    ensures AnswerError(c).conn.pendingFrames == c.pendingFrames
  {
    hide RstFrame, Writable;
  }

  lemma NextConserved(y: Sys, e: Event)
    requires Joint(y) && ConnectionInvariant.Accounts(y) && Conserved(y) && Enabled(y, e)
    ensures Conserved(Next(y, e))
  {
    hide Joint, ConnectionInvariant.Accounts, OnArrive, OnAnswer, OnHandle, OnStep, OnReply, Conserved;
    match e {
      case Arrive(f) => ArriveConserves(y, f);
      case Answer => AnswerConserves(y);
      case Handle(hpack) =>
        if y.queue[0].DoResponse? {
          ResponseHandled(y, hpack);
        } else {
          OtherMessageHandled(y, hpack);
        }
      case Step(sid) => StepConserves(y, sid);
      case Reply(sid, encoded, body) =>
        ActiveCount.ReplySame(y, sid, (encoded, body));
        ReplyKeepsConn(y, sid, (encoded, body));
        WireOnly(y, Next(y, e), []);
      case _ =>
        assert y.conn.wire + [] == y.conn.wire;
        WireOnly(y, Next(y, e), []);
    }
  }

  lemma ReplyKeepsConn(y: Sys, sid: U32, r: Response)
    requires sid in y.tasks
    ensures OnReply(y, sid, r).conn == y.conn && y.conn.wire + [] == y.conn.wire
  {
    hide Receive;
  }

  lemma {:induction false} RunConserved(y0: Sys, events: seq<Event>, y: Sys)
    requires Joint(y0) && ConnectionInvariant.Accounts(y0) && Conserved(y0) && Run(y0, events, y)
    ensures Conserved(y)
    decreases events
  {
    hide Joint, ConnectionInvariant.Accounts, Conserved, Next, Enabled, Trace;
    if events != [] {
      var n := |events| - 1;
      var mid := LastEvent(y0, events, y);
      RunConserved(y0, events[..n], mid);
      SystemArrive.RunJoint(y0, events[..n], mid);
      ConnectionInvariant.RunAccounts(y0, events[..n], mid);
      NextConserved(mid, events[n]);
    }
  }

  /** The two frames of the handshake belong to no stream's response. */
  lemma GreetingSilent(wire: seq<Frame>, sid: U32)
    requires |wire| == 2 && wire[0].ty.Settings? && (wire[1].ty.Settings? || wire[1].ty.Ping?)
    ensures OfStream(wire, sid) == []
  {
    assert wire == [wire[0]] + [wire[1]] && [] + [wire[0]] == [wire[0]];
    OfStreamOne([], wire[0], sid);
    OfStreamOne([wire[0]], wire[1], sid);
  }

  lemma {:induction false} InitConserved(y: Sys)
    requires Init(y)
    ensures Conserved(y)
  {
    forall sid: U32 ensures OfStream(y.conn.wire, sid) == [] {
      GreetingSilent(y.conn.wire, sid);
    }
  }

  lemma ReachableConserved(y: Sys)
    requires Reachable(y)
    ensures Conserved(y) && Joint(y)
  {
    hide Joint, ConnectionInvariant.Accounts, Init, Run, Conserved;
    var y0, events :| Init(y0) && Run(y0, events, y);
    InitJoint(y0);
    ConnectionInvariant.InitAccounts(y0);
    InitConserved(y0);
    RunConserved(y0, events, y);
    SystemArrive.ReachableJoint(y);
  }

  /** A stream's response frames: on the wire, waiting for the connection's window, in the channel, held back. */
  function Everywhere(y: Sys, sid: U32): seq<Frame>
    requires sid in y.tasks
  {
    OfStream(y.conn.wire, sid) + OfStream(y.conn.pendingFrames, sid) + InChannel(y.queue, sid) + y.tasks[sid].s.pending
  }

  /**
   * While the connection runs, the response frames of a stream on the wire, then those waiting for the connection's
   * window, then those in the channel, then the one the stream holds back, spell its response, once it has one.
   */
  lemma ResponseReachesWire(y: Sys, sid: U32)
    requires Reachable(y) && y.conn.status.Running? && sid in y.tasks
    ensures match y.tasks[sid].h.response
      case None => Everywhere(y, sid) == []
      case Some(r) => Carries(Everywhere(y, sid), sid, r)
  {
    hide Joint, Reachable, LocalInv, Carries;
    ReachableConserved(y);
    JointTask(y, sid);
    assert DeliveredTo(y.conn.wire, y.conn.pendingFrames, y.queue, y.tasks, sid);
    HandedOverShape(y.tasks[sid]);
    assert Everywhere(y, sid) == ResponseFrames(sid, y.tasks[sid].h.response);
    if y.tasks[sid].h.response.Some? {
      ResponseCarries(sid, y.tasks[sid].h.response.value);
    }
  }

  /** In every run, also after its loop has ended, a stream's frames on the wire begin a list that spells its response. */
  lemma WireBeginsResponse(y: Sys, sid: U32) returns (rest: seq<Frame>)
    requires Reachable(y)
    ensures if sid in y.tasks && y.tasks[sid].h.response.Some?
      then Carries(OfStream(y.conn.wire, sid) + rest, sid, y.tasks[sid].h.response.value)
      else OfStream(y.conn.wire, sid) == []
  {
    hide Joint, Reachable, LocalInv, OfStream, Carries;
    rest := [];
    ReachableConserved(y);
    assert Begins(y.conn.wire, y.tasks, sid);
    if sid in y.tasks {
      JointTask(y, sid);
      HandedOverShape(y.tasks[sid]);
      var all, w := ResponseFrames(sid, y.tasks[sid].h.response), OfStream(y.conn.wire, sid);
      if y.tasks[sid].h.response.Some? {
        ResponseCarries(sid, y.tasks[sid].h.response.value);
        rest := all[|w|..];
        assert w + rest == all;
      }
    }
  }

  lemma JointTask(y: Sys, sid: U32)
    requires Joint(y) && sid in y.tasks
    ensures LocalInv(y.tasks[sid]) && y.tasks[sid].s.id == sid
  {
    hide LocalInv, BlockAtGate, Flow, InboxOk, QueuedWasSent;
    assert At(y, sid);
  }
}
