/** More accounts of the connection over a run: acknowledgements, settings, failures taken, octets received, its end. */
module ConnectionLedgers {
  import opened Wrappers
  import opened Bytes
  import opened Frames
  import opened Messages
  import opened ConnectionModel
  import opened System
  import ConnectionInvariant
  import StreamInvariant
  import SystemInvariant
  import SystemArrive
  import Delivery
  import Settings
  import HeadersPayload
  import Goaway

  // ---- what a SETTINGS or PING frame is due ----

  /** A SETTINGS frame the connection obeys, sections 6.5 and 6.5.2 of RFC 7540. */
  predicate Obeyed(f: Frame) {
    && f.ty.Settings? && f.sid == 0 && |f.payload| <= 16384 && |f.payload| % 6 == 0
    && forall e :: e in Settings.Decode(f.payload) ==> Settings.InRange(e)
  }

  predicate Pinged(f: Frame) {
    f.ty.Ping? && f.sid == 0 && |f.payload| == 8
  }

  /** SETTINGS are acknowledged by an empty frame, PING by its own octets; acknowledgements are not. */
  function AckDue(f: Frame): seq<Frame> {
    if Obeyed(f) && !f.ty.ack then [Plain(FrameType.Settings(true), 0, [])]
    else if Pinged(f) && !f.ty.ack then [Plain(Ping(true), 0, f.payload)]
    else []
  }

  function AcksDue(received: seq<Frame>): seq<Frame> {
    if received == [] then [] else AcksDue(received[..|received| - 1]) + AckDue(received[|received| - 1])
  }

  /** The limits after the entries of every SETTINGS frame obeyed, one at a time. */
  function LimitsAfter(o: Settings.Options, received: seq<Frame>): Settings.Options {
    if received == [] then o
    else
      var (before, f) := (LimitsAfter(o, received[..|received| - 1]), received[|received| - 1]);
      if Obeyed(f) then Settings.AssignAll(before, Settings.Decode(f.payload)) else before
  }

  predicate IsControl(f: Frame) {
    f.ty.Settings? || f.ty.Ping?
  }

  /** The SETTINGS and PING frames on the wire. */
  function Controls(wire: seq<Frame>): seq<Frame> {
    if wire == [] then [] else Controls(wire[..|wire| - 1]) + (if IsControl(wire[|wire| - 1]) then [wire[|wire| - 1]] else [])
  }

  /** The first list is the second with some members left out. */
  predicate Within<T(==)>(part: seq<T>, whole: seq<T>) {
    if part == [] then true
    else if whole == [] then false
    else if part[|part| - 1] == whole[|whole| - 1] then Within(part[..|part| - 1], whole[..|whole| - 1])
    else Within(part, whole[..|whole| - 1])
  }

  // ---- the ledger ----

  /** What is kept from the handshake on; `start` is the connection it left. */
  ghost predicate Ledgers(start: Conn, y: Sys) {
    && (y.conn.status.Running? ==>
          && Controls(y.conn.wire) == start.wire + AcksDue(y.received)
          && y.conn.ctx.clientOptions == LimitsAfter(start.ctx.clientOptions, y.received))
    && y.conn.ctx.serverWindow == (65535 - y.log.debited) % TWO_64
    && Within(y.log.reported, y.log.raised)
    && (y.conn.ctx.rootCancelled ==> y.conn.status.Ended?)
    && (!ConnectionInvariant.NoGoAway(y.conn.wire) ==> y.conn.ctx.rootCancelled)
  }

  // ---- lists ----

  lemma ControlsOne(wire: seq<Frame>, f: Frame)
    ensures Controls(wire + [f]) == Controls(wire) + (if IsControl(f) then [f] else [])
  {
    assert (wire + [f])[..|wire|] == wire;
  }

  lemma {:induction false} ControlsNone(wire: seq<Frame>, fs: seq<Frame>)
    requires forall f :: f in fs ==> !IsControl(f)
    ensures Controls(wire + fs) == Controls(wire)
  {
    if fs == [] {
      assert wire + fs == wire;
    } else {
      var n := |fs| - 1;
      assert wire + fs == (wire + fs[..n]) + [fs[n]];
      ControlsNone(wire, fs[..n]);
      ControlsOne(wire + fs[..n], fs[n]);
    }
  }

  lemma {:induction false} OneMore(received: seq<Frame>, f: Frame, o: Settings.Options)
    ensures AcksDue(received + [f]) == AcksDue(received) + AckDue(f)
    ensures LimitsAfter(o, received + [f]) ==
      if Obeyed(f) then Settings.AssignAll(LimitsAfter(o, received), Settings.Decode(f.payload)) else LimitsAfter(o, received)
  {
    assert (received + [f])[..|received|] == received;
  }

  lemma {:induction false} WithinShorter<T>(part: seq<T>, whole: seq<T>)
    requires part != [] && Within(part, whole)
    ensures Within(part[..|part| - 1], whole)
    decreases |whole|, 0
  {
    var n := |whole| - 1;
    if part[|part| - 1] == whole[n] {
      WithinMore(part[..|part| - 1], whole[..n], whole[n]);
      assert whole[..n] + [whole[n]] == whole;
    } else {
      WithinShorter(part, whole[..n]);
      WithinMore(part[..|part| - 1], whole[..n], whole[n]);
      assert whole[..n] + [whole[n]] == whole;
    }
  }

  lemma {:induction false} WithinMore<T>(part: seq<T>, whole: seq<T>, x: T)
    requires Within(part, whole)
    ensures Within(part, whole + [x])
    decreases |whole|, 1
  {
    assert (whole + [x])[..|whole|] == whole;
    if part != [] && part[|part| - 1] == x {
      WithinShorter(part, whole);
    }
  }

  lemma WithinBoth<T>(part: seq<T>, whole: seq<T>, x: T)
    requires Within(part, whole)
    ensures Within(part + [x], whole + [x])
  {
    assert (part + [x])[..|part|] == part && (whole + [x])[..|whole|] == whole;
  }

  // ---- a frame arrives ----

  /** What a frame that is let through leaves in the context, besides gate and streams. */
  lemma HandledLedgers(ctx: ConnContext, f: Frame)
    ensures var p := ConnectionModel.Handle(ctx, f);
      && (p.Processed? ==>
            && p.ctx.clientOptions == (if Obeyed(f) then Settings.AssignAll(ctx.clientOptions, Settings.Decode(f.payload)) else ctx.clientOptions)
            && p.ctx.serverWindow == (if f.ty.Data? then (ctx.serverWindow as int - |f.payload|) % TWO_64 else ctx.serverWindow)
            && p.ctx.rootCancelled == ctx.rootCancelled
            && (if p.ack.Some? then [p.ack.value] else []) == AckDue(f))
      && (!p.Processed? ==> !Obeyed(f) && AckDue(f) == [])
  {
    hide Settings.Apply, Settings.Verdict, Settings.Decode, Settings.InRange, Settings.AssignAll, Get32, HeadersPayload.Decode, Goaway.DecodePayload;
    Settings.VerdictIsRange(f.sid, f.payload);
    Settings.ApplyIsInOrder(ctx.clientOptions, f.payload);
  }

  /** The effect of a frame taken from the reader. */
  predicate FrameLedgers(c: Conn, f: Frame, o: Outcome) {
    && (o.conn.status.Running? ==>
          && Controls(o.conn.wire) == Controls(c.wire) + AckDue(f)
          && o.conn.ctx.clientOptions == if Obeyed(f) then Settings.AssignAll(c.ctx.clientOptions, Settings.Decode(f.payload)) else c.ctx.clientOptions)
    && o.conn.ctx.serverWindow == (if o.post.Some? && f.ty.Data? then (c.ctx.serverWindow as int - |f.payload|) % TWO_64 else c.ctx.serverWindow)
    && o.conn.ctx.rootCancelled == c.ctx.rootCancelled
    && (o.conn.status.Running? ==> c.status.Running?)
    && (ConnectionInvariant.NoGoAway(c.wire) ==> ConnectionInvariant.NoGoAway(o.conn.wire))
  }

  lemma AckSent(c: Conn, f: Frame, ack: Option<Frame>)
    requires (if ack.Some? then [ack.value] else []) == AckDue(f)
    ensures var c1 := SendAck(c, ack);
      && c1.ctx == c.ctx && c1.status == c.status && Controls(c1.wire) == Controls(c.wire) + AckDue(f)
      && (ConnectionInvariant.NoGoAway(c.wire) ==> ConnectionInvariant.NoGoAway(c1.wire))
  {
    hide Controls, Obeyed;
    if ack.Some? {
      ControlsOne(c.wire, ack.value);
    } else {
      assert Controls(c.wire) + [] == Controls(c.wire);
    }
  }

  lemma ForwardLedgers(c: Conn, f: Frame, created: Option<U32>)
    requires f.sid in c.ctx.channels || !f.ty.Data? || f.sid == 0
    ensures FrameLedgers(c, f, ConnectionModel.Forward(c, f, created))
  {
    hide ConnectionModel.Handle, AckDue, Obeyed, SendAck, ConnectionInvariant.NoGoAway, Controls, System.Seen, StreamInvariant.Checked;
    HandledLedgers(c.ctx, f);
    SystemInvariant.HandleFacts(c.ctx, f);
    ZeroData(c.ctx, f);
    assert Controls(c.wire) + [] == Controls(c.wire);
    match ConnectionModel.Handle(c.ctx, f) {
      case Processed(ctx, _, ack) => AckSent(c.(ctx := ctx), f, ack);
      case _ =>
    }
  }

  lemma ZeroData(ctx: ConnContext, f: Frame)
    ensures f.sid == 0 && f.ty.Data? ==> !ConnectionModel.Handle(ctx, f).Processed?
  {}

  lemma LevelLedgers(c: Conn, f: Frame)
    requires f.ty.Settings? || f.ty.Ping? || f.ty.GoAway?
    ensures FrameLedgers(c, f, ConnectionLevel(c, f))
  {
    hide ConnectionModel.Handle, AckDue, Obeyed, SendAck, ConnectionInvariant.NoGoAway, Controls;
    HandledLedgers(c.ctx, f);
    assert Controls(c.wire) + [] == Controls(c.wire);
    match ConnectionModel.Handle(c.ctx, f) {
      case Processed(ctx, _, ack) => AckSent(c.(ctx := ctx), f, ack);
      case _ =>
    }
  }

  lemma OnFrameLedgers(c: Conn, f: Frame)
    ensures FrameLedgers(c, f, OnFrame(c, f))
  {
    hide ConnectionLevel, ConnectionModel.Forward, ConnectionInvariant.NoGoAway, Controls;
    assert Controls(c.wire) + [] == Controls(c.wire);
    if GateAllows(c.ctx, f) {
      if f.ty.Settings? || f.ty.Ping? || f.ty.GoAway? {
        LevelLedgers(c, f);
      } else if !ShouldIgnore(c.ctx, f) {
        if !ShouldInit(c.ctx, f) {
          ForwardLedgers(c, f, None);
          hide FrameLedgers;
        } else {
          var ctx := NoteHeaders(c.ctx, f);
          if f.sid >= ctx.activeMax {
            ForwardLedgers(c.(ctx := AddStream(ctx, f.sid)), f, Some(f.sid));
          }
        }
      }
    }
  }

  lemma Debited(window: nat, debited: nat, n: nat)
    requires window == (65535 - debited) % TWO_64
    ensures (window - n) % TWO_64 == (65535 - (debited + n)) % TWO_64
  {}

  lemma ArriveLedgers(start: Conn, y: Sys, f: Frame)
    requires Ledgers(start, y) && Listening(y.conn)
    ensures Ledgers(start, OnArrive(y, f))
  {
    hide OnFrame, Receive, Controls, AckDue, Obeyed, Within, ConnectionInvariant.NoGoAway, Settings.AssignAll, AcksDue, LimitsAfter;
    var o := OnFrame(y.conn, f);
    OnFrameLedgers(y.conn, f);
    OneMore(y.received, f, start.ctx.clientOptions);
    Debited(y.conn.ctx.serverWindow, y.log.debited, |f.payload|);
    RaisedMore(y.log.reported, y.log.raised, o.conn);
    SystemInvariant.Associate(start.wire, AcksDue(y.received), AckDue(f));
  }

  lemma {:induction false} RaisedMore(reported: seq<Error>, raised: seq<Error>, c: Conn)
    requires Within(reported, raised)
    ensures Within(reported, raised + NewlyRaised(c))
  {
    if c.ctx.error.Some? {
      WithinMore(reported, raised, c.ctx.error.value);
    } else {
      assert raised + [] == raised;
    }
  }

  // ---- the other events ----

  /** A change of the connection that writes no SETTINGS, no PING and no GOAWAY, and leaves these accounts alone. */
  predicate Aside(c: Conn, c1: Conn) {
    && c1.ctx.clientOptions == c.ctx.clientOptions && c1.ctx.serverWindow == c.ctx.serverWindow
    && c1.ctx.rootCancelled == c.ctx.rootCancelled
    && (c1.status.Running? ==> c.status.Running?)
    && Controls(c1.wire) == Controls(c.wire)
    && (ConnectionInvariant.NoGoAway(c.wire) ==> ConnectionInvariant.NoGoAway(c1.wire))
  }

  lemma AsideLedgers(start: Conn, y: Sys, y1: Sys)
    requires Ledgers(start, y) && Aside(y.conn, y1.conn) && y1.received == y.received && y1.log.debited == y.log.debited
    requires Within(y1.log.reported, y1.log.raised)
    ensures Ledgers(start, y1)
  {
    hide Controls, AcksDue, LimitsAfter, Within, ConnectionInvariant.NoGoAway;
  }

  lemma ResponseAside(c: Conn, frames: seq<Frame>)
    requires StreamInvariant.ResponseShape(frames) && c.status.Running?
    ensures Aside(c, Deliver(c, frames, false))
  {
    hide Deliver, Writable, Delivery.Fitting, Delivery.AllWritable, Delivery.Leaked, ConnectionInvariant.Answers, ConnectionInvariant.NoGoAway, Controls,
      StreamInvariant.ResponseShape;
    var c1, k := Deliver(c, frames, false), Delivery.Fitting(c.ctx.window, frames);
    SystemInvariant.DeliverKeeps(c, frames, false);
    ConnectionInvariant.ResponseDelivered(c, frames);
    if Delivery.AllWritable(frames[..k]) {
      Delivery.DeliverSplits(c, frames);
    } else {
      k := Delivery.DeliverStops(c, frames);
    }
    NoControls(frames);
    ControlsNone(c.wire, frames[..k]);
  }

  lemma NoControls(frames: seq<Frame>)
    requires StreamInvariant.ResponseShape(frames)
    ensures forall f :: f in frames ==> !IsControl(f)
  {}

  lemma OtherAside(c: Conn, m: ToConn, hpack: Hpack)
    requires !m.DoResponse?
    ensures Aside(c, OnMessage(c, m, hpack).conn)
  {
    hide OnMessage, Controls;
    ConnectionInvariant.OtherHandled(c, m, hpack);
  }

  /** A failure that is taken is in the slot. */
  lemma FailureRaised(c: Conn, e: Error, hpack: Hpack)
    ensures NewlyRaised(OnMessage(c, Failure(e), hpack).conn) == [e]
  {}

  lemma {:induction false} HandleWithin(c: Conn, m: ToConn, hpack: Hpack, reported: seq<Error>, raised: seq<Error>)
    requires Within(reported, raised)
    ensures Within(if m.Failure? then reported + [m.error] else reported, raised + NewlyRaised(OnMessage(c, m, hpack).conn))
  {
    hide OnMessage, Within, NewlyRaised;
    if m.Failure? {
      FailureRaised(c, m.error, hpack);
      WithinBoth(reported, raised, m.error);
    } else {
      RaisedMore(reported, raised, OnMessage(c, m, hpack).conn);
    }
  }

  lemma HandleLedgers(start: Conn, y: Sys, hpack: Hpack)
    requires Ledgers(start, y) && SystemInvariant.Joint(y) && Listening(y.conn) && y.queue != []
    ensures Ledgers(start, OnHandle(y, hpack))
  {
    hide OnMessage, Deliver, Post, Launch, Ledgers, Within, NewlyRaised, SystemInvariant.Joint, StreamInvariant.ResponseShape, Aside;
    assert Within(y.log.reported, y.log.raised) by { LedgersWithin(start, y); }
    HandleWithin(y.conn, y.queue[0], hpack, y.log.reported, y.log.raised);
    if y.queue[0].DoResponse? {
      ConnectionInvariant.QueuedShape(y, 0);
      ResponseAside(y.conn, y.queue[0].frames);
      ResponseDelivers(y.conn, y.queue[0], hpack);
    } else {
      OtherAside(y.conn, y.queue[0], hpack);
    }
    AsideLedgers(start, y, OnHandle(y, hpack));
  }

  lemma ResponseDelivers(c: Conn, m: ToConn, hpack: Hpack)
    requires m.DoResponse?
    ensures OnMessage(c, m, hpack).conn == Deliver(c, m.frames, false)
  {
    hide Deliver;
  }

  lemma LedgersWithin(start: Conn, y: Sys)
    requires Ledgers(start, y)
    ensures Within(y.log.reported, y.log.raised)
  {
    hide Within, Controls, AcksDue, LimitsAfter;
  }

  /** Answering a stream error leaves these accounts alone; answering any other cancels the root token and ends the loop. */
  lemma AnswerLedgers(start: Conn, y: Sys)
    requires Ledgers(start, y) && y.conn.status.Running? && y.conn.ctx.error.Some?
    ensures Ledgers(start, OnAnswer(y))
  {
    hide Ledgers, Within, AnswerError, CancelTask;
    LedgersWithin(start, y);
    AnswerAside(y.conn);
    if y.conn.ctx.error.value.ConnectionError? {
      EndedLedgers(start, y, OnAnswer(y));
    } else {
      AsideLedgers(start, y, OnAnswer(y));
    }
  }

  lemma EndedLedgers(start: Conn, y: Sys, y1: Sys)
    requires Ledgers(start, y) && y1.conn.status.Ended? && y1.conn.ctx.rootCancelled && y1.conn.ctx.serverWindow == y.conn.ctx.serverWindow
    requires y1.log.debited == y.log.debited && y1.log.reported == y.log.reported && y1.log.raised == y.log.raised
    ensures Ledgers(start, y1)
  {
    hide Within, Controls, AcksDue, LimitsAfter;
  }

  lemma AnswerAside(c: Conn)
    requires c.ctx.error.Some?
    ensures var c1 := AnswerError(c).conn;
      && c1.ctx.serverWindow == c.ctx.serverWindow
      && if c.ctx.error.value.ConnectionError? then c1.status.Ended? && c1.ctx.rootCancelled else Aside(c, c1)
  {
    hide Controls, Writable, Goaway.WithError;
    var c1 := AnswerError(c).conn;
    ConnectionInvariant.AnswerWritten(c);
    if c.ctx.error.value.StreamError? {
      assert c1.wire == c.wire + [c1.wire[|c.wire|]];
      ControlsOne(c.wire, c1.wire[|c.wire|]);
    } else if c.ctx.error.value.OtherError? {
      assert c1.wire == c.wire;
    }
  }

  lemma NextLedgers(start: Conn, y: Sys, e: Event)
    requires SystemInvariant.Joint(y) && Ledgers(start, y) && Enabled(y, e)
    ensures Ledgers(start, Next(y, e))
  {
    hide SystemInvariant.Joint, OnArrive, OnAnswer, OnHandle, TaskStep, Receive, Ledgers, Within;
    LedgersWithin(start, y);
    match e {
      case Arrive(f) => ArriveLedgers(start, y, f);
      case Answer => AnswerLedgers(start, y);
      case Handle(hpack) => HandleLedgers(start, y, hpack);
      case Timeout => EndedLedgers(start, y, Next(y, e));
      case Trouble =>
        WithinMore(y.log.reported, y.log.raised, OtherError);
        AsideLedgers(start, y, Next(y, e));
      case _ => AsideLedgers(start, y, Next(y, e));
    }
  }

  lemma {:induction false} RunLedgers(y0: Sys, events: seq<Event>, y: Sys)
    requires SystemInvariant.Joint(y0) && Ledgers(y0.conn, y0) && Run(y0, events, y)
    ensures Ledgers(y0.conn, y)
    decreases events
  {
    hide SystemInvariant.Joint, Ledgers, Next, Enabled, Trace;
    if events != [] {
      var n := |events| - 1;
      var mid := LastEvent(y0, events, y);
      RunLedgers(y0, events[..n], mid);
      SystemArrive.RunJoint(y0, events[..n], mid);
      NextLedgers(y0.conn, mid, events[n]);
    }
  }

  lemma InitLedgers(y: Sys)
    requires Init(y)
    ensures Ledgers(y.conn, y)
  {
    var w := y.conn.wire;
    assert w == ([] + [w[0]]) + [w[1]];
    ControlsOne([], w[0]);
    ControlsOne([w[0]], w[1]);
    assert w + [] == w && [] + [w[0]] == [w[0]];
  }

  // ---- what every run keeps ----

  /**
   * While the loop runs, the SETTINGS and PING frames on the wire are the two of the handshake and then one
   * acknowledgement for each SETTINGS and PING frame received that is due one, in order; and the client's limits are
   * those of the handshake after every entry of every SETTINGS frame obeyed since.
   */
  lemma ControlsAcknowledged(y0: Sys, events: seq<Event>, y: Sys)
    requires Init(y0) && Run(y0, events, y) && y.conn.status.Running?
    ensures Controls(y.conn.wire) == y0.conn.wire + AcksDue(y.received)
    ensures y.conn.ctx.clientOptions == LimitsAfter(y0.conn.ctx.clientOptions, y.received)
  {
    hide SystemInvariant.Joint, Init, Run, Controls, AcksDue, LimitsAfter, Within, ConnectionInvariant.NoGoAway;
    SystemInvariant.InitJoint(y0);
    InitLedgers(y0);
    RunLedgers(y0, events, y);
  }

  /**
   * In every run each failure taken from a stream is among the errors raised, in order; and a GOAWAY is written only
   * with the root token cancelled, which ends every stream at its next receive, and the loop itself.
   */
  lemma FailuresRaised(y: Sys)
    requires Reachable(y)
    ensures Within(y.log.reported, y.log.raised)
    ensures (exists f :: f in y.conn.wire && f.ty.GoAway?) ==> y.conn.ctx.rootCancelled
    ensures y.conn.ctx.rootCancelled ==> y.conn.status.Ended?
  {
    hide SystemInvariant.Joint, Init, Run, Controls, AcksDue, LimitsAfter, Within;
    var y0, events :| Init(y0) && Run(y0, events, y);
    SystemInvariant.InitJoint(y0);
    InitLedgers(y0);
    RunLedgers(y0, events, y);
  }

  /** In every run the server's window is 65535 less the DATA octets handed to streams, wrapped to 64 bits. */
  lemma ServerWindowDebited(y: Sys)
    requires Reachable(y)
    ensures y.conn.ctx.serverWindow == (65535 - y.log.debited) % 0x1_0000_0000_0000_0000
  {
    hide SystemInvariant.Joint, Init, Run, Controls, AcksDue, LimitsAfter, Within, ConnectionInvariant.NoGoAway;
    var y0, events :| Init(y0) && Run(y0, events, y);
    SystemInvariant.InitJoint(y0);
    InitLedgers(y0);
    RunLedgers(y0, events, y);
  }
}
