/** Exactly what ends the connection's loop. */
module LoopEnd {
  import opened Bytes
  import opened Frames
  import opened ConnectionModel
  import opened System
  import opened SystemInvariant
  import SystemArrive
  import ConnectionRules
  import ConnectionInvariant
  import ResponseDelivery
  import Delivery
  import HeadersPayload
  import Goaway
  import Settings
  import StreamInvariant

  /** The gate lets the frame through, and it is neither ignored nor of a stream that cannot be opened any more. */
  predicate LookedAt(c: Conn, f: Frame) {
    && (c.ctx.gate.None? || (f.ty.Continuation? && f.sid == c.ctx.gate.value))
    && (ConnectionRules.ForStreams(f) ==>
          && (c.ctx.goAway.None? || f.sid <= c.ctx.goAway.value)
          && (f.sid == 0 || f.sid in c.ctx.channels || f.sid >= c.ctx.activeMax))
  }

  /** A frame the loop would write, before anything overflows, whose length 24 bits cannot hold. */
  predicate Unwritable(window: nat, frames: seq<Frame>) {
    exists i :: 0 <= i < Delivery.Fitting(window, frames) && |frames[i].payload| > 0xFF_FFFF
  }

  /** What ends the loop. */
  predicate Ends(y: Sys, e: Event) {
    match e
    case Arrive(f) =>
      || (y.conn.ctx.gate.Some? && !(f.ty.Continuation? && f.sid == y.conn.ctx.gate.value))
      || (LookedAt(y.conn, f) && ConnectionRules.TooShort(f))
    case Answer => y.conn.ctx.error.Some? && y.conn.ctx.error.value.ConnectionError?
    case Handle(_) => y.queue != [] && y.queue[0].DoResponse? && Unwritable(y.conn.ctx.window, y.queue[0].frames)
    case Timeout => true
    case Abort => true
    case _ => false
  }

  // ---- a frame ----

  lemma AcksGoOut(c: Conn, ctx: ConnContext, f: Frame)
    requires ConnectionModel.Handle(ctx, f).Processed?
    ensures SendAck(c, ConnectionModel.Handle(ctx, f).ack).status == c.status
  {
    hide Settings.Apply, Settings.Verdict, Get32, HeadersPayload.Decode, Goaway.DecodePayload, CommonFault;
  }

  lemma Crashes(ctx: ConnContext, f: Frame)
    ensures ConnectionModel.Handle(ctx, f).Crashed? <==> ConnectionRules.TooShort(f)
  {
    hide ConnectionModel.Handle;
    ConnectionRules.CrashesIffTooShort(ctx, f);
  }

  lemma FrameEnds(c: Conn, f: Frame)
    requires Listening(c) && 0 !in c.ctx.channels
    ensures OnFrame(c, f).conn.status.Ended? <==>
      (c.ctx.gate.Some? && !(f.ty.Continuation? && f.sid == c.ctx.gate.value)) || (LookedAt(c, f) && ConnectionRules.TooShort(f))
  {
    hide ConnectionModel.Handle, SendAck, ConnectionRules.TooShort;
    var ctx := ConnectionRules.ContextOf(c.ctx, f);
    Crashes(c.ctx, f);
    Crashes(ctx, f);
    forall d: Conn ensures ConnectionModel.Handle(c.ctx, f).Processed? ==> SendAck(d, ConnectionModel.Handle(c.ctx, f).ack).status == d.status {
      if ConnectionModel.Handle(c.ctx, f).Processed? {
        AcksGoOut(d, c.ctx, f);
      }
    }
    forall d: Conn ensures ConnectionModel.Handle(ctx, f).Processed? ==> SendAck(d, ConnectionModel.Handle(ctx, f).ack).status == d.status {
      if ConnectionModel.Handle(ctx, f).Processed? {
        AcksGoOut(d, ctx, f);
      }
    }
  }

  // ---- a message ----

  lemma ResponseEnds(c: Conn, frames: seq<Frame>)
    requires c.status.Running? && forall f :: f in frames ==> f.ty.Headers? || f.ty.Data?
    ensures Deliver(c, frames, false).status.Ended? <==> Unwritable(c.ctx.window, frames)
  {
    hide Deliver, Delivery.Fitting, Delivery.Leaked;
    var k := Delivery.Fitting(c.ctx.window, frames);
    if Delivery.AllWritable(frames[..k]) {
      Delivery.DeliverSplits(c, frames);
      assert forall i :: 0 <= i < k ==> frames[i] in frames[..k];
    } else {
      var j := Delivery.DeliverStops(c, frames);
      var f :| f in frames[..k] && !Writable(f);
      var i :| 0 <= i < k && frames[..k][i] == f;
      assert frames[i] == f && frames[i] in frames;
    }
  }

  lemma MessageEnds(y: Sys, hpack: Hpack)
    requires Joint(y) && Listening(y.conn) && y.queue != []
    ensures OnHandle(y, hpack).conn.status.Ended? <==> y.queue[0].DoResponse? && Unwritable(y.conn.ctx.window, y.queue[0].frames)
  {
    hide Joint, OnMessage, Deliver, Unwritable, Post, Launch, NewlyRaised, StreamInvariant.ResponseShape, StreamInvariant.LocalInv;
    var m := y.queue[0];
    if m.DoResponse? {
      assert m in y.queue;
      ResponseDelivery.QueuedIsOwn(y, m);
      ResponseEnds(y.conn, m.frames);
      ResponseDelivery.OnHandleResponse(y, hpack);
    } else {
      ConnectionInvariant.OtherHandled(y.conn, m, hpack);
    }
  }

  lemma AnswerEnds(c: Conn)
    requires c.ctx.error.Some? && c.status.Running?
    ensures AnswerError(c).conn.status.Ended? <==> c.ctx.error.value.ConnectionError?
  {
    hide AnswerError;
    ConnectionInvariant.AnswerWritten(c);
  }

  /**
   * In every reachable state in which the loop runs, the next event ends it exactly if it is a frame the gate does not let
   * through, a frame looked at whose payload is too short to read, an error of the connection being answered, a response
   * with a frame too long for 24 bits about to be written, the timer, or a failed write.
   */
  lemma LoopEndsIff(y: Sys, e: Event)
    requires Reachable(y) && Enabled(y, e) && y.conn.status.Running?
    ensures Next(y, e).conn.status.Ended? <==> Ends(y, e)
  {
    hide Reachable, At, OnFrame, OnMessage, AnswerError, Receive, TaskStep, CanStep, ConnectionRules.TooShort, Unwritable, LookedAt, Post, NewlyRaised, Credited, Launch;
    SystemArrive.ReachableJoint(y);
    match e {
      case Arrive(f) => FrameEnds(y.conn, f);
      case Answer => AnswerEnds(y.conn);
      case Handle(hpack) => MessageEnds(y, hpack);
      case _ =>
    }
  }
}
