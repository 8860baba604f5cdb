/** The connection's own accounts over a run: window, errors and their answers, stream numbers, client limits. */
module ConnectionInvariant {
  import opened Wrappers
  import opened Bytes
  import opened Frames
  import opened Messages
  import opened ConnectionModel
  import opened System
  import opened Delivery
  import StreamInvariant
  import SystemInvariant
  import SystemArrive
  import StreamModel
  import Settings
  import Goaway
  import HeaderBlock
  import HeadersPayload

  // ---- the accounts ----

  /** Octets written plus octets left never exceed what was granted, and match it while the loop runs. */
  predicate WindowLedger(c: Conn, credited: nat) {
    && DataBytes(c.wire) + c.ctx.window <= INITIAL_WINDOW as int + credited
    && (c.status.Running? ==> DataBytes(c.wire) + c.ctx.window == INITIAL_WINDOW as int + credited)
    && c.ctx.window < TWO_32
  }

  predicate IsAnswer(f: Frame) {
    f.ty.RstStream? || f.ty.GoAway?
  }

  /** The frames on the wire that answer errors. */
  function Answers(wire: seq<Frame>): seq<Frame> {
    if wire == [] then [] else Answers(wire[..|wire| - 1]) + (if IsAnswer(wire[|wire| - 1]) then [wire[|wire| - 1]] else [])
  }

  function AnswerTo(e: Error, seenMax: U32): seq<Frame> {
    match e
    case StreamError(sid, code) => [RstFrame(sid, code)]
    case ConnectionError(code) => [Goaway.WithError(seenMax, code)]
    case OtherError => []
  }

  function AnswersTo(errors: seq<Error>, seenMax: U32): seq<Frame> {
    if errors == [] then [] else AnswersTo(errors[..|errors| - 1], seenMax) + AnswerTo(errors[|errors| - 1], seenMax)
  }

  /** The raised errors that have left the slot. */
  function Answered(c: Conn, raised: seq<Error>): seq<Error>
    requires c.ctx.error.Some? ==> raised != []
  {
    if c.ctx.error.Some? then raised[..|raised| - 1] else raised
  }

  predicate NoGoAway(wire: seq<Frame>) {
    forall i :: 0 <= i < |wire| ==> !wire[i].ty.GoAway?
  }

  predicate AllLocal(errors: seq<Error>) {
    forall i :: 0 <= i < |errors| ==> !errors[i].ConnectionError?
  }

  predicate GoAwayLast(wire: seq<Frame>) {
    forall i :: 0 <= i < |wire| - 1 ==> !wire[i].ty.GoAway?
  }

  /** Each error is answered once, in order, before the next one; a GOAWAY ends the run. */
  predicate ErrorLedger(c: Conn, raised: seq<Error>) {
    && (c.ctx.error.Some? ==> raised != [] && raised[|raised| - 1] == c.ctx.error.value)
    && Answers(c.wire) == AnswersTo(Answered(c, raised), c.ctx.seenMax)
    && GoAwayLast(c.wire)
    && (c.status.Running? ==> NoGoAway(c.wire) && AllLocal(Answered(c, raised)))
  }

  predicate Increasing(ids: seq<U32>) {
    forall i, j :: 0 <= i < j < |ids| ==> ids[i] < ids[j]
  }

  predicate IsMax(channels: set<U32>, m: U32) {
    (forall sid :: sid in channels ==> sid <= m) && (if channels == {} then m == 0 else m in channels)
  }

  predicate IdLedger(ctx: ConnContext, openedIds: seq<U32>) {
    && Increasing(openedIds)
    && (forall sid :: sid in openedIds ==> sid in ctx.channels)
    && ctx.activeMax == (if openedIds == [] then 0 else openedIds[|openedIds| - 1])
    && IsMax(ctx.channels, ctx.seenMax)
    && 0 !in ctx.channels
  }

  predicate Accounts(y: Sys) {
    && WindowLedger(y.conn, y.log.credited)
    && ErrorLedger(y.conn, y.log.raised)
    && IdLedger(y.conn.ctx, y.log.openedIds)
    && Settings.Legal(y.conn.ctx.clientOptions)
  }

  // ---- growing the logs ----

  lemma AnswersOne(wire: seq<Frame>, f: Frame)
    ensures Answers(wire + [f]) == Answers(wire) + (if IsAnswer(f) then [f] else [])
    ensures DataBytes(wire + [f]) == DataBytes(wire) + Size(f)
  {
    assert (wire + [f])[..|wire|] == wire;
  }

  lemma {:induction false} AnswersMany(wire: seq<Frame>, fs: seq<Frame>)
    requires forall f :: f in fs ==> !IsAnswer(f)
    ensures Answers(wire + fs) == Answers(wire)
  {
    if fs == [] {
      assert wire + fs == wire;
    } else {
      var n := |fs| - 1;
      assert wire + fs == (wire + fs[..n]) + [fs[n]];
      AnswersMany(wire, fs[..n]);
      AnswersOne(wire + fs[..n], fs[n]);
    }
  }

  lemma AnswersToOne(errors: seq<Error>, e: Error, seenMax: U32)
    ensures AnswersTo(errors + [e], seenMax) == AnswersTo(errors, seenMax) + AnswerTo(e, seenMax)
  {
    assert (errors + [e])[..|errors|] == errors;
  }

  /** Answers to stream errors do not mention the highest stream. */
  lemma {:induction false} AnswersToLocal(errors: seq<Error>, a: U32, b: U32)
    requires AllLocal(errors)
    ensures AnswersTo(errors, a) == AnswersTo(errors, b)
  {
    if errors != [] {
      AnswersToLocal(errors[..|errors| - 1], a, b);
    }
  }

  // ---- a received frame ----

  predicate AckWritten(c: Conn, c1: Conn) {
    || c1.wire == c.wire
    || (|c1.wire| == |c.wire| + 1 && c1.wire[..|c.wire|] == c.wire && (c1.wire[|c.wire|].ty.Settings? || c1.wire[|c.wire|].ty.Ping?))
  }

  /** What a frame does to the accounts of the connection. */
  predicate FrameAccounts(c: Conn, f: Frame, o: Outcome) {
    && AckWritten(c, o.conn)
    && o.conn.ctx.window == c.ctx.window + Credited(o.conn, f)
    && o.conn.ctx.window < TWO_32
    && Settings.Legal(o.conn.ctx.clientOptions)
    && (o.conn.status.Running? ==> c.status.Running?)
    && o.conn.ctx.seenMax == (if o.created.Some? then Max(c.ctx.seenMax, f.sid) else c.ctx.seenMax)
    && o.conn.ctx.activeMax == (if o.created.Some? && f.ty.Headers? then f.sid else c.ctx.activeMax)
    && (o.created.Some? && f.ty.Headers? ==> f.sid >= c.ctx.activeMax)
    && o.conn.ctx.activeCount == (c.ctx.activeCount + (if o.created.Some? then 1 else 0)) % TWO_32
  }

  /** What the handlers of the frame types do to them. */
  lemma HandleAccounts(ctx: ConnContext, f: Frame)
    requires Settings.Legal(ctx.clientOptions) && ctx.window < TWO_32
    ensures var p := ConnectionModel.Handle(ctx, f); p.Processed? ==>
      && p.ctx.activeCount == ctx.activeCount && p.ctx.activeMax == ctx.activeMax && p.ctx.seenMax == ctx.seenMax
      && p.ctx.window < TWO_32
      && (f.ty.WindowUpdate? ==> |f.payload| == 4)
      && p.ctx.window == ctx.window + (if f.ty.WindowUpdate? && f.sid == 0 then StreamModel.IncrementOf(f.payload) else 0)
      && Settings.Legal(p.ctx.clientOptions)
      && (p.ack.Some? ==> (p.ack.value.ty.Settings? || p.ack.value.ty.Ping?) && Writable(p.ack.value))
  {
    hide Settings.Apply, Settings.Verdict, Settings.Legal, Get32, HeadersPayload.Decode, Goaway.DecodePayload, CommonFault;
    if Settings.Verdict(f.sid, f.payload) == None {
      Settings.ApplyKeepsLegal(ctx.clientOptions, f.sid, f.payload);
    }
  }

  /** Forwarding a frame, once its stream exists. */
  predicate ForwardAccounts(c: Conn, f: Frame, c1: Conn) {
    && AckWritten(c, c1)
    && c1.ctx.window == c.ctx.window + Credited(c1, f) && c1.ctx.window < TWO_32
    && Settings.Legal(c1.ctx.clientOptions)
    && (c1.status.Running? ==> c.status.Running?)
    && c1.ctx.seenMax == c.ctx.seenMax && c1.ctx.activeMax == c.ctx.activeMax && c1.ctx.activeCount == c.ctx.activeCount
  }

  lemma Acknowledged(c: Conn, ack: Option<Frame>)
    requires ack.Some? ==> (ack.value.ty.Settings? || ack.value.ty.Ping?) && Writable(ack.value)
    ensures AckWritten(c, SendAck(c, ack)) && SendAck(c, ack).ctx == c.ctx && SendAck(c, ack).status == c.status
  {
    hide Writable;
  }

  lemma ForwardAccounted(c: Conn, f: Frame, created: Option<U32>)
    requires Listening(c) && Settings.Legal(c.ctx.clientOptions) && c.ctx.window < TWO_32
    ensures ForwardAccounts(c, f, ConnectionModel.Forward(c, f, created).conn)
    ensures ConnectionModel.Forward(c, f, created).created == created
  {
    hide ConnectionModel.Handle, Settings.Legal, StreamModel.IncrementOf, Writable, SystemInvariant.GateAfter, Seen, StreamInvariant.Checked;
    HandleAccounts(c.ctx, f);
    SystemInvariant.HandleFacts(c.ctx, f);
    match ConnectionModel.Handle(c.ctx, f) {
      case Processed(ctx, _, ack) => Acknowledged(c.(ctx := ctx), ack);
      case _ =>
    }
  }

  lemma LevelAccounted(c: Conn, f: Frame)
    requires Listening(c) && Settings.Legal(c.ctx.clientOptions) && c.ctx.window < TWO_32
    requires f.ty.Settings? || f.ty.Ping? || f.ty.GoAway?
    ensures ForwardAccounts(c, f, ConnectionLevel(c, f).conn)
  {
    hide ConnectionModel.Handle, Settings.Legal, StreamModel.IncrementOf, Writable, SystemInvariant.GateAfter, Seen, StreamInvariant.Checked;
    HandleAccounts(c.ctx, f);
    SystemInvariant.HandleFacts(c.ctx, f);
    match ConnectionModel.Handle(c.ctx, f) {
      case Processed(ctx, _, ack) => Acknowledged(c.(ctx := ctx), ack);
      case _ =>
    }
  }

  lemma StreamLevelAccounted(c: Conn, f: Frame)
    requires Listening(c) && Settings.Legal(c.ctx.clientOptions) && c.ctx.window < TWO_32
    ensures FrameAccounts(c, f, StreamLevel(c, f))
  {
    hide ConnectionModel.Forward, Settings.Legal, StreamModel.IncrementOf;
    if ShouldIgnore(c.ctx, f) {
    } else if !ShouldInit(c.ctx, f) {
      ForwardAccounted(c, f, None);
    } else {
      var ctx := NoteHeaders(c.ctx, f);
      if f.sid >= ctx.activeMax {
        ForwardAccounted(c.(ctx := AddStream(ctx, f.sid)), f, Some(f.sid));
      }
    }
  }

  lemma FrameAccounted(c: Conn, f: Frame)
    requires Listening(c) && Settings.Legal(c.ctx.clientOptions) && c.ctx.window < TWO_32
    ensures FrameAccounts(c, f, OnFrame(c, f))
  {
    hide ConnectionLevel, StreamLevel, Settings.Legal, StreamModel.IncrementOf;
    if GateAllows(c.ctx, f) {
      if f.ty.Settings? || f.ty.Ping? || f.ty.GoAway? {
        LevelAccounted(c, f);
        NothingCreated(c, f);
      } else {
        StreamLevelAccounted(c, f);
      }
    }
  }

  lemma NothingCreated(c: Conn, f: Frame)
    ensures ConnectionLevel(c, f).created.None?
  {
    hide ConnectionModel.Handle, SendAck;
  }

  lemma AckedWire(c: Conn, c1: Conn)
    requires AckWritten(c, c1)
    ensures DataBytes(c1.wire) == DataBytes(c.wire) && Answers(c1.wire) == Answers(c.wire)
    ensures NoGoAway(c.wire) ==> NoGoAway(c1.wire) && GoAwayLast(c1.wire)
  {
    if c1.wire != c.wire {
      var ack := c1.wire[|c.wire|];
      assert c1.wire == c.wire + [ack];
      AnswersOne(c.wire, ack);
    }
  }

  lemma RaisedOnce(c: Conn, c1: Conn, raised: seq<Error>)
    requires ErrorLedger(c, raised) && c.ctx.error.None? && c.status.Running?
    requires Answers(c1.wire) == Answers(c.wire) && (c1.ctx.seenMax == c.ctx.seenMax || AllLocal(raised))
    requires GoAwayLast(c1.wire) && NoGoAway(c1.wire)
    ensures ErrorLedger(c1, raised + NewlyRaised(c1))
  {
    AnswersToLocal(raised, c.ctx.seenMax, c1.ctx.seenMax);
    assert raised + [] == raised;
    if c1.ctx.error.Some? {
      assert (raised + [c1.ctx.error.value])[..|raised|] == raised;
    }
  }

  lemma IdsAfterFrame(c: Conn, f: Frame, o: Outcome, ids: seq<U32>)
    requires IdLedger(c.ctx, ids) && FrameAccounts(c, f, o) && SystemArrive.FrameEffect(c, f, o)
    requires o.created.Some? ==> f.sid != 0
    ensures IdLedger(o.conn.ctx, if o.created.Some? && f.ty.Headers? then ids + [f.sid] else ids)
  {
    hide AckWritten, Settings.Legal, SystemInvariant.GateOk, SystemInvariant.GateAfter, Seen, StreamInvariant.Checked, Credited;
    if ids != [] {
      assert ids[|ids| - 1] in ids;
    }
  }

  lemma ArriveAccounts(y: Sys, f: Frame)
    requires Accounts(y) && SystemInvariant.Joint(y) && Listening(y.conn)
    ensures Accounts(OnArrive(y, f))
  {
    var c, o := y.conn, OnFrame(y.conn, f);
    assert SystemInvariant.Skeleton(y);
    SystemArrive.FrameTaken(c, f);
    FrameAccounted(c, f);
    hide OnFrame, Settings.Legal, SystemInvariant.Skeleton, Receive;
    AckedWire(c, o.conn);
    RaisedOnce(c, o.conn, y.log.raised);
    IdsAfterFrame(c, f, o, y.log.openedIds);
    hide ErrorLedger, IdLedger, SystemArrive.FrameEffect, AckWritten, Credited;
  }

  // ---- an error is answered ----

  lemma AnswerFrames(seenMax: U32, e: Error)
    ensures |AnswerTo(e, seenMax)| <= 1
    ensures AnswerTo(e, seenMax) != [] ==> IsAnswer(AnswerTo(e, seenMax)[0]) && Writable(AnswerTo(e, seenMax)[0])
    ensures AnswerTo(e, seenMax) != [] ==> (AnswerTo(e, seenMax)[0].ty.GoAway? <==> e.ConnectionError?)
  {}

  /** Emptying the slot writes exactly the answer to the error in it. */
  lemma AnswerWritten(c: Conn)
    requires c.ctx.error.Some?
    ensures var c1 := AnswerError(c).conn;
      && c1.wire == c.wire + AnswerTo(c.ctx.error.value, c.ctx.seenMax)
      && c1.status == (if c.ctx.error.value.ConnectionError? then Ended else c.status)
      && c1.ctx == c.ctx.(error := None, rootCancelled := c1.ctx.rootCancelled, tokens := c1.ctx.tokens, activeCount := c1.ctx.activeCount)
  {
    hide RstFrame, Goaway.WithError, Writable;
    AnswerFrames(c.ctx.seenMax, c.ctx.error.value);
    assert c.wire + [] == c.wire;
  }

  /** The connection after its error was answered. */
  predicate AfterAnswer(c: Conn, e: Error, c1: Conn) {
    && c1.wire == c.wire + AnswerTo(e, c.ctx.seenMax)
    && c1.status == (if e.ConnectionError? then Ended else c.status)
    && c1.ctx == c.ctx.(error := None, rootCancelled := c1.ctx.rootCancelled, tokens := c1.ctx.tokens, activeCount := c1.ctx.activeCount)
  }

  lemma AnsweredWire(c: Conn, e: Error, c1: Conn)
    requires AfterAnswer(c, e, c1)
    ensures DataBytes(c1.wire) == DataBytes(c.wire)
    ensures Answers(c1.wire) == Answers(c.wire) + AnswerTo(e, c.ctx.seenMax)
    ensures NoGoAway(c.wire) ==> GoAwayLast(c1.wire) && (!e.ConnectionError? ==> NoGoAway(c1.wire))
  {
    AnswerFrames(c.ctx.seenMax, e);
    var answer := AnswerTo(e, c.ctx.seenMax);
    hide AnswerTo;
    if answer == [] {
      assert c.wire + answer == c.wire;
    } else {
      assert answer == [answer[0]];
      AnswersOne(c.wire, answer[0]);
    }
  }

  lemma LocalAppend(errors: seq<Error>, e: Error)
    ensures AllLocal(errors) && !e.ConnectionError? ==> AllLocal(errors + [e])
  {}

  lemma ErrorsAfterAnswer(c: Conn, e: Error, c1: Conn, raised: seq<Error>)
    requires ErrorLedger(c, raised) && c.status.Running? && c.ctx.error == Some(e) && AfterAnswer(c, e, c1)
    ensures ErrorLedger(c1, raised)
  {
    hide AnswerTo, AnswersTo, Answers, NoGoAway, GoAwayLast;
    AnsweredWire(c, e, c1);
    var rest := raised[..|raised| - 1];
    assert rest + [e] == raised;
    AnswersToOne(rest, e, c.ctx.seenMax);
    LocalAppend(rest, e);
  }

  lemma AnswerAccounts(y: Sys)
    requires Accounts(y) && y.conn.status.Running? && y.conn.ctx.error.Some?
    ensures Accounts(OnAnswer(y))
  {
    hide AnswerError, CancelTask, ErrorLedger, Answers, AnswerTo, Settings.Legal;
    var c, e := y.conn, y.conn.ctx.error.value;
    var c1 := AnswerError(c).conn;
    AnswerWritten(c);
    assert AfterAnswer(c, e, c1);
    ErrorsAfterAnswer(c, e, c1, y.log.raised);
    AnsweredWire(c, e, c1);
  }

  // ---- a stream message is handled ----

  /** Writing a response touches neither the error accounts nor, in sum, the window's. */
  predicate Delivered(c: Conn, c1: Conn) {
    && DataBytes(c1.wire) + c1.ctx.window <= DataBytes(c.wire) + c.ctx.window
    && (c1.status.Running? ==> DataBytes(c1.wire) + c1.ctx.window == DataBytes(c.wire) + c.ctx.window)
    && c1.ctx == c.ctx.(window := c1.ctx.window) && c1.ctx.window <= c.ctx.window
    && Answers(c1.wire) == Answers(c.wire) && (NoGoAway(c.wire) ==> NoGoAway(c1.wire))
  }

  lemma ResponseHasNoAnswer(frames: seq<Frame>)
    requires StreamInvariant.ResponseShape(frames)
    ensures forall i :: 0 <= i < |frames| ==> !IsAnswer(frames[i])
  {}

  lemma NoGoAwayAppended(wire: seq<Frame>, fs: seq<Frame>)
    requires NoGoAway(wire) && forall f :: f in fs ==> !IsAnswer(f)
    ensures NoGoAway(wire + fs)
  {
    forall i | 0 <= i < |wire + fs| ensures !(wire + fs)[i].ty.GoAway? {
      assert i >= |wire| ==> fs[i - |wire|] in fs;
    }
  }

  lemma ResponseWire(c: Conn, c1: Conn, frames: seq<Frame>, k: nat)
    requires StreamInvariant.ResponseShape(frames) && k <= |frames| && c1.wire == c.wire + frames[..k]
    ensures DataBytes(c1.wire) == DataBytes(c.wire) + DataBytes(frames[..k])
    ensures Answers(c1.wire) == Answers(c.wire) && (NoGoAway(c.wire) ==> NoGoAway(c1.wire))
  {
    hide *;
    ResponseHasNoAnswer(frames);
    DataBytesAppend(c.wire, frames[..k]);
    AnswersMany(c.wire, frames[..k]);
    if NoGoAway(c.wire) {
      NoGoAwayAppended(c.wire, frames[..k]);
    }
  }

  lemma ResponseDelivered(c: Conn, frames: seq<Frame>)
    requires StreamInvariant.ResponseShape(frames) && c.status.Running?
    ensures Delivered(c, Deliver(c, frames, false))
  {
    hide Deliver, Fitting, Writable, Leaked, AllWritable, StreamInvariant.ResponseShape, Answers, NoGoAway, DataBytes;
    var c1, k := Deliver(c, frames, false), Fitting(c.ctx.window, frames);
    SystemInvariant.DeliverKeeps(c, frames, false);
    OneDataLeaksNothing(c.ctx.window, frames);
    if AllWritable(frames[..k]) {
      DeliverSplits(c, frames);
    } else {
      k := DeliverStops(c, frames);
    }
    ResponseWire(c, c1, frames, k);
  }

  lemma OneDataLeaksNothing(window: nat, frames: seq<Frame>)
    requires StreamInvariant.ResponseShape(frames)
    ensures var k := Fitting(window, frames);
      DataBytes(frames[..k]) <= window && Leaked(window - DataBytes(frames[..k]), frames[k..]) == 0
  {
    if |frames| == 2 {
      assert frames[1..][1..] == [] && frames[1..][0] == frames[1];
      assert frames[..2][..1] == frames[..1] && frames[..1][..0] == [];
    } else {
      assert frames[1..] == [] && frames[..1][..0] == [];
    }
    assert frames[0..] == frames;
  }

  /** The other messages leave the wire and the window alone. */
  lemma OtherHandled(c: Conn, m: ToConn, hpack: Hpack)
    requires !m.DoResponse?
    ensures var c1 := OnMessage(c, m, hpack).conn;
      && c1.wire == c.wire && c1.status == c.status
      && c1.ctx == c.ctx.(tokens := c1.ctx.tokens, error := c1.ctx.error, activeCount := c1.ctx.activeCount)
  {
    hide HeaderBlock.Decoded, HeaderBlock.DecodedTrailers;
  }

  /** Every response waiting in the channel has the shape its stream gave it. */
  lemma QueuedShape(y: Sys, i: nat)
    requires SystemInvariant.Joint(y) && i < |y.queue| && y.queue[i].DoResponse?
    ensures StreamInvariant.ResponseShape(y.queue[i].frames)
  {
    hide SystemInvariant.Flow, StreamInvariant.LocalInv, SystemInvariant.InboxOk, SystemInvariant.BlockReceived;
    var sid := y.queue[i].sid;
    assert SystemInvariant.Skeleton(y) && y.queue[i].sid in y.tasks;
    assert SystemInvariant.At(y, sid);
    SentShape(y.tasks[sid], y.queue[i]);
  }

  lemma SentShape(t: Task, m: ToConn)
    requires StreamInvariant.LocalInv(t) && m.DoResponse?
    ensures m in t.h.sent ==> StreamInvariant.ResponseShape(m.frames)
  {
    hide StreamInvariant.BlockInv, StreamInvariant.RequestInv, StreamInvariant.StateOk, StreamInvariant.CountOk, StreamInvariant.OwnMessages,
      StreamInvariant.ResponseShape;
  }

  lemma MessageAccounts(c: Conn, m: ToConn, hpack: Hpack)
    requires m.DoResponse? ==> StreamInvariant.ResponseShape(m.frames)
    requires c.status.Running?
    ensures var c1 := OnMessage(c, m, hpack).conn;
      && DataBytes(c1.wire) + c1.ctx.window <= DataBytes(c.wire) + c.ctx.window
      && (c1.status.Running? ==> DataBytes(c1.wire) + c1.ctx.window == DataBytes(c.wire) + c.ctx.window)
      && c1.ctx == c.ctx.(window := c1.ctx.window, tokens := c1.ctx.tokens, error := c1.ctx.error, activeCount := c1.ctx.activeCount)
      && c1.ctx.window <= c.ctx.window
      && Answers(c1.wire) == Answers(c.wire) && (NoGoAway(c.wire) ==> NoGoAway(c1.wire))
  {
    hide Deliver, Answers, NoGoAway, StreamInvariant.ResponseShape, AnswerHeaders, AnswerTrailers;
    if m.DoResponse? {
      ResponseDelivered(c, m.frames);
    } else {
      OtherHandled(c, m, hpack);
    }
  }

  lemma HandleAccountsKept(y: Sys, hpack: Hpack)
    requires Accounts(y) && SystemInvariant.Joint(y) && Listening(y.conn) && y.queue != []
    ensures Accounts(OnHandle(y, hpack))
  {
    hide OnMessage, Settings.Legal, SystemInvariant.Joint, Answers, AnswersTo, StreamInvariant.ResponseShape, Post, Launch;
    if y.queue[0].DoResponse? {
      QueuedShape(y, 0);
    }
    MessageAccounts(y.conn, y.queue[0], hpack);
    RaisedOnce(y.conn, OnMessage(y.conn, y.queue[0], hpack).conn, y.log.raised);
    hide ErrorLedger, NewlyRaised;
  }

  lemma TroubleAccounts(y: Sys)
    requires Accounts(y) && Listening(y.conn)
    ensures Accounts(OnTrouble(y))
  {
    assert GoAwayLast(y.conn.wire);
    RaisedOnce(y.conn, Raise(y.conn, OtherError), y.log.raised);
  }

  lemma NextAccounts(y: Sys, e: Event)
    requires SystemInvariant.Joint(y) && Accounts(y) && Enabled(y, e)
    ensures Accounts(Next(y, e))
  {
    hide SystemInvariant.Joint, OnArrive, OnAnswer, OnHandle, OnTrouble, TaskStep, Receive, Settings.Legal;
    match e {
      case Arrive(f) => ArriveAccounts(y, f);
      case Answer => AnswerAccounts(y);
      case Handle(hpack) => HandleAccountsKept(y, hpack);
      case Trouble => TroubleAccounts(y);
      case _ =>
    }
  }

  lemma {:induction false} RunAccounts(y0: Sys, events: seq<Event>, y: Sys)
    requires SystemInvariant.Joint(y0) && Accounts(y0) && Run(y0, events, y)
    ensures Accounts(y)
    decreases events
  {
    hide SystemInvariant.Joint, Accounts, Next, Enabled, Trace;
    if events != [] {
      var n := |events| - 1;
      var mid := LastEvent(y0, events, y);
      RunAccounts(y0, events[..n], mid);
      SystemArrive.RunJoint(y0, events[..n], mid);
      NextAccounts(mid, events[n]);
    }
  }

  lemma InitAccounts(y: Sys)
    requires Init(y)
    ensures Accounts(y)
  {
    var own := y.conn.wire[0];
    assert y.conn.wire == [own] + [y.conn.wire[1]];
    AnswersOne([], own);
    AnswersOne([own], y.conn.wire[1]);
    assert [] + [own] == [own];
  }

  lemma ReachableAccounts(y: Sys)
    requires Reachable(y)
    ensures Accounts(y)
  {
    hide SystemInvariant.Joint, Accounts, Init, Run;
    var y0, events :| Init(y0) && Run(y0, events, y);
    SystemInvariant.InitJoint(y0);
    InitAccounts(y0);
    RunAccounts(y0, events, y);
  }
}
