/** Which frames the connection lets through, refuses, or never looks at, as rules rather than as steps. */
module ConnectionRules {
  import opened Wrappers
  import opened Bytes
  import opened Frames
  import opened ConnectionModel
  import StreamModel
  import System
  import SystemInvariant
  import Settings
  import HeadersPayload
  import Goaway

  /** Stream numbers a client may use: 0 for the connection, odd ones for its streams. */
  predicate ClientNumber(sid: U32) {
    sid == 0 || sid % 2 == 1
  }

  function DependencyOf(f: Frame): Option<U32>
    requires f.ty.Headers? && HeadersPayload.LongEnough(f.ty.padded, f.ty.priority, f.payload)
  {
    HeadersPayload.Decode(f.ty.padded, f.ty.priority, f.payload).value.dependency
  }

  /** Sections 6.1 to 6.10 of RFC 7540, as far as the code checks them; the cap on a window is the code's own. */
  predicate Admissible(ctx: ConnContext, f: Frame) {
    f.ty.PushPromise? || f.ty.Unknown? ||
    (ClientNumber(f.sid) && |f.payload| <= MAX_FRAME_SIZE &&
     match f.ty
     case Data(_, padded) => f.sid != 0 && (padded ==> f.payload != [] && f.payload[0] <= |f.payload|)
     case Headers(_, _, padded, priority) =>
       && f.sid != 0 && HeadersPayload.LongEnough(padded, priority, f.payload)
       && (ctx.activeCount + 1) % TWO_32 <= MAX_CONCURRENT_STREAMS
       && DependencyOf(f) != Some(f.sid)
     case Priority => f.sid != 0 && |f.payload| == 5 && Get32(f.payload) % TWO_31 != f.sid
     case RstStream => f.sid != 0 && |f.payload| == 4
     case Settings(_) => f.sid == 0 && |f.payload| % 6 == 0 && forall e :: e in Settings.Decode(f.payload) ==> Settings.InRange(e)
     case Ping(_) => f.sid == 0 && |f.payload| == 8
     case GoAway => f.sid == 0 && |f.payload| >= 8
     case WindowUpdate =>
       && |f.payload| == 4 && StreamModel.IncrementOf(f.payload) != 0
       && (f.sid == 0 ==> ctx.window + StreamModel.IncrementOf(f.payload) <= TWO_32 - 1)
     case _ => f.sid != 0)
  }

  /** The pipeline lets exactly the admissible frames through. */
  lemma ProcessedIffAdmissible(ctx: ConnContext, f: Frame)
    ensures ConnectionModel.Handle(ctx, f).Processed? <==> Admissible(ctx, f)
  {
    hide Settings.Verdict, Settings.InRange, Settings.Apply, Settings.Decode, Get32;
    Settings.VerdictIsRange(f.sid, f.payload);
  }

  /** What only costs the client the stream; everything else costs the connection. */
  predicate OnlyTheStream(ctx: ConnContext, f: Frame) {
    && f.sid % 2 == 1
    && if |f.payload| > MAX_FRAME_SIZE then !f.ty.Headers? && !f.ty.Settings?
       else
         || (f.ty.WindowUpdate? && |f.payload| >= 4 && StreamModel.IncrementOf(f.payload) == 0)
         || (f.ty.Priority? && |f.payload| > 5)
         || (f.ty.Headers? && (ctx.activeCount + 1) % TWO_32 > MAX_CONCURRENT_STREAMS)
  }

  /** A refusal is a stream error exactly in these cases, and then it names the frame's own stream. */
  lemma RefusalScope(ctx: ConnContext, f: Frame)
    requires ConnectionModel.Handle(ctx, f).Rejected?
    ensures ConnectionModel.Handle(ctx, f).error.StreamError? <==> OnlyTheStream(ctx, f)
    ensures ConnectionModel.Handle(ctx, f).error.StreamError? ==> ConnectionModel.Handle(ctx, f).error.sid == f.sid
  {
    SystemInvariant.SettingsFault(f);
    hide Settings.Verdict, Settings.Apply, Get32, HeadersPayload.Decode, Goaway.DecodePayload;
  }

  /** The first entry out of range is an initial window beyond 2^31 - 1. */
  predicate WindowSettingBad(entries: seq<Settings.Entry>) {
    entries != [] && if Settings.InRange(entries[0]) then WindowSettingBad(entries[1..]) else entries[0].0 == 4
  }

  /** The four codes a refusal can have; PROTOCOL_ERROR is for everything the other three do not cover. */
  predicate CodeFits(ctx: ConnContext, f: Frame, code: ErrorCode) {
    var fine := ClientNumber(f.sid) && |f.payload| <= 16384;
    && (code == FrameSizeError <==>
          ClientNumber(f.sid) &&
          (|f.payload| > 16384
           || (f.ty.Settings? && f.sid == 0 && |f.payload| % 6 != 0)
           || (f.ty.Ping? && f.sid == 0 && |f.payload| != 8)
           || (f.ty.RstStream? && f.sid != 0 && |f.payload| != 4)
           || (f.ty.Priority? && f.sid != 0 && |f.payload| > 5)
           || (f.ty.WindowUpdate? && |f.payload| > 4 && StreamModel.IncrementOf(f.payload) != 0
               && (f.sid == 0 ==> ctx.window + StreamModel.IncrementOf(f.payload) <= TWO_32 - 1))))
    && (code == FlowControlError <==>
          fine &&
          ((f.ty.WindowUpdate? && f.sid == 0 && |f.payload| >= 4 && ctx.window + StreamModel.IncrementOf(f.payload) > TWO_32 - 1
            && StreamModel.IncrementOf(f.payload) != 0)
           || (f.ty.Settings? && f.sid == 0 && |f.payload| % 6 == 0 && WindowSettingBad(Settings.Decode(f.payload)))))
    && (code == RefusedStream <==>
          fine && f.ty.Headers? && f.sid != 0 && HeadersPayload.LongEnough(f.ty.padded, f.ty.priority, f.payload)
          && (ctx.activeCount + 1) % TWO_32 > 100)
    && code in {FrameSizeError, FlowControlError, RefusedStream, ProtocolError}
  }

  lemma {:induction false} WindowFault(entries: seq<Settings.Entry>)
    ensures var fault := Settings.FirstFault(Settings.KnownAll(entries));
      fault.Some? ==> fault.value == ConnectionError(if WindowSettingBad(entries) then FlowControlError else ProtocolError)
    ensures Settings.FirstFault(Settings.KnownAll(entries)).None? ==> !WindowSettingBad(entries)
  {
    if entries != [] {
      var known, rest := Settings.Known(entries[0]), Settings.KnownAll(entries[1..]);
      WindowFault(entries[1..]);
      Settings.OneFault(entries[0], rest);
      if known == [] {
        assert known + rest == rest;
      } else {
        assert known == [known[0]] && (known + rest)[0] == known[0] && (known + rest)[1..] == rest;
      }
    }
  }

  /** Which error a refused frame raises, for every frame type. */
  lemma RefusalCode(ctx: ConnContext, f: Frame)
    requires ConnectionModel.Handle(ctx, f).Rejected?
    ensures !ConnectionModel.Handle(ctx, f).error.OtherError? && CodeFits(ctx, f, ConnectionModel.Handle(ctx, f).error.code)
  {
    hide Settings.FirstFault, Settings.KnownAll, Settings.Apply, Settings.Decode, Settings.InRange, WindowSettingBad, Get32, Goaway.DecodePayload;
    SystemInvariant.SettingsFault(f);
    WindowFault(Settings.Decode(f.payload));
  }

  /** Past the checks common to all types, the payload is too short to be read. */
  predicate TooShort(f: Frame) {
    && ClientNumber(f.sid) && |f.payload| <= 16384
    && match f.ty
       case Data(_, padded) => f.sid != 0 && padded && f.payload == []
       case Headers(_, _, padded, priority) => !HeadersPayload.LongEnough(padded, priority, f.payload)
       case Priority => |f.payload| < 5
       case WindowUpdate => |f.payload| < 4
       case GoAway => f.sid == 0 && |f.payload| < 8
       case _ => false
  }

  /** Only such a payload stops the connection task. */
  lemma CrashesIffTooShort(ctx: ConnContext, f: Frame)
    ensures ConnectionModel.Handle(ctx, f).Crashed? <==> TooShort(f)
  {
    hide Settings.Verdict, Settings.Apply, Get32;
  }

  /** An increment is the low 31 bits of four octets. */
  lemma IncrementOctets(payload: seq<Byte>)
    requires |payload| >= 4
    ensures StreamModel.IncrementOf(payload) == Number(payload[..4]) % 0x8000_0000
  {
    GetsNumber(payload);
  }

  // ---- which frames reach a stream ----

  predicate ForStreams(f: Frame) {
    !f.ty.Settings? && !f.ty.Ping? && !f.ty.GoAway?
  }

  /** The frame passes the gate and lies below the client's GOAWAY. */
  predicate Considered(c: Conn, f: Frame) {
    && (c.ctx.gate.None? || (f.ty.Continuation? && f.sid == c.ctx.gate.value))
    && ForStreams(f)
    && (c.ctx.goAway.None? || f.sid <= c.ctx.goAway.value)
  }

  /** The context in which a frame is validated: its stream exists by then, and counts. */
  function ContextOf(ctx: ConnContext, f: Frame): ConnContext {
    if f.sid == 0 || f.sid in ctx.channels then ctx else AddStream(NoteHeaders(ctx, f), f.sid)
  }

  /**
   * A stream is created exactly for a considered frame with a new number not below those opened by HEADERS, and a
   * frame reaches its stream exactly if it is also admissible; a new stream number below raises PROTOCOL_ERROR.
   */
  lemma FrameFate(c: Conn, f: Frame)
    requires 0 !in c.ctx.channels
    ensures var o := OnFrame(c, f);
      var isNew := Considered(c, f) && f.sid != 0 && f.sid !in c.ctx.channels;
      && (o.created.Some? <==> isNew && f.sid >= c.ctx.activeMax)
      && (o.post.Some? <==> Considered(c, f) && f.sid in o.conn.ctx.channels && Admissible(ContextOf(c.ctx, f), f))
      && (isNew && f.sid < c.ctx.activeMax ==> o.conn.ctx.error == Some(ConnectionError(ProtocolError)) && o.post.None?)
  {
    hide ConnectionModel.Handle, Admissible, SendAck, System.Seen;
    ProcessedIffAdmissible(ContextOf(c.ctx, f), f);
    ProcessedIffAdmissible(c.ctx, f);
    SystemInvariant.HandleFacts(c.ctx, f);
    SystemInvariant.HandleFacts(ContextOf(c.ctx, f), f);
    AckKeeps();
  }

  /** A frame the gate does not let through ends the loop at once, unanswered. */
  lemma GateViolated(c: Conn, f: Frame)
    requires c.ctx.gate.Some? && !(f.ty.Continuation? && f.sid == c.ctx.gate.value)
    ensures var c1 := OnFrame(c, f).conn;
      c1.status.Ended? && c1.wire == c.wire && c1.ctx == c.ctx.(error := Some(ConnectionError(ProtocolError)))
    ensures OnFrame(c, f).post.None? && OnFrame(c, f).created.None?
  {}

  /** A frame that is looked at and refused puts its error into the slot. */
  lemma RefusalRaised(c: Conn, f: Frame)
    requires c.ctx.gate.None? || (f.ty.Continuation? && f.sid == c.ctx.gate.value)
    requires ForStreams(f) ==> Considered(c, f) && (f.sid == 0 || f.sid in OnFrame(c, f).conn.ctx.channels) && 0 !in c.ctx.channels
    ensures var p := ConnectionModel.Handle(if ForStreams(f) then ContextOf(c.ctx, f) else c.ctx, f);
      && (p.Rejected? ==> OnFrame(c, f).conn.ctx.error == Some(p.error) && OnFrame(c, f).conn.status == c.status)
      && (p.Crashed? ==> OnFrame(c, f).conn.status.Ended?)
  {
    hide ConnectionModel.Handle, SendAck, System.Seen;
    AckKeeps();
    SystemInvariant.HandleFacts(c.ctx, f);
    SystemInvariant.HandleFacts(ContextOf(c.ctx, f), f);
  }

  lemma AckKeeps()
    ensures forall d: Conn, ack :: SendAck(d, ack).ctx == d.ctx
  {
    hide Writable;
  }
}
