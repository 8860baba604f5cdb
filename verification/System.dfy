/** The connection task, the stream tasks and the channels between them as one step system. */
module System {
  import opened Wrappers
  import opened Bytes
  import opened Frames
  import opened Messages
  import opened StreamModel
  import opened ConnectionModel
  import HeaderBlock
  import HeadersPayload
  import Settings

  /** Where a stream task stands in its `serve` loop; each phase does at most one channel operation. */
  datatype Phase =
    | AtHeaders | AtTrailers | AtDispatch | AtRespond | AtReceive | AtReport(message: ToConn)
    | Stopped | Failed

  /** What has happened to a stream, kept beside it for the proofs. */
  datatype History = History(
    forwarded: seq<Frame>,    // frames put into the inbox while the stream was not cancelled
    taken: nat,               // how many of them the task has consumed
    first: nat,               // position in `forwarded` of the first HEADERS frame
    block: seq<Frame>,        // that frame and the CONTINUATION frames of its header block
    closed: bool,             // the block has its END_HEADERS frame
    start: nat,               // position of the block's first frame among all received frames
    accepted: seq<Frame>,     // consumed frames that passed validation
    sent: seq<ToConn>,        // messages sent to the connection
    flushed: seq<Frame>,      // frames sent by `response_to_client_if_possible`
    responses: nat,           // response objects consumed
    response: Option<Response>,  // the last of them: encoded headers and body
    reply: Option<(Headers, set<string>)>,  // the decoder's answer to the header block
    lateReplies: seq<Headers>,              // its answers to trailer blocks
    trailerBlock: seq<Frame>, // block frames accepted once the header block was with the decoder
    extra: bool,              // a CONTINUATION was consumed behind a complete trailer block not yet sent
    stray: bool,              // a CONTINUATION was consumed while a trailer block was at the decoder
    second: bool,             // a HEADERS frame was consumed while the stream was open
    secondAt: nat,            // how many messages had been sent when the first of these was consumed
    secondEarly: bool)        // one of them was stored before the answer to the header block

  datatype Task = Task(s: Stream, phase: Phase, inbox: seq<ToStream>, cancelled: bool, h: History)

  const NOTHING_YET := History([], 0, 0, [], false, 0, [], [], [], 0, None, None, [], [], false, false, false, 0, false)

  function NewTask(sid: U32): Task {
    Task(NewStream(sid, INITIAL_WINDOW), AtHeaders, [], false, NOTHING_YET)
  }

  predicate Live(t: Task) {
    !t.phase.Stopped? && !t.phase.Failed?
  }

  // ---- a step of a stream task ----

  datatype Stepped = Stepped(task: Task, message: Option<ToConn>)

  function Log1(sent: seq<ToConn>, message: Option<ToConn>): seq<ToConn> {
    if message.Some? then sent + [message.value] else sent
  }

  function Advance(t: Task, m: Move, phase: Phase): Stepped {
    match m
    case Crash => Stepped(t.(phase := Failed), None)
    case Move(s, message) => Stepped(t.(s := s, phase := phase, h := t.h.(sent := Log1(t.h.sent, message))), message)
  }

  function MessageFrames(m: ToConn): seq<Frame> {
    if m.DoResponse? then m.frames else []
  }

  function RespondStep(t: Task): Stepped {
    var st := Advance(t, StreamModel.Respond(t.s), AtReceive);
    if st.message.None? then st
    else st.(task := st.task.(h := st.task.h.(flushed := t.h.flushed + MessageFrames(st.message.value))))
  }

  predicate IsBlockFrame(f: Frame) {
    f.ty.Headers? || f.ty.Continuation?
  }

  /** History after consuming a message, given the stream before it. */
  function Consumed(s: Stream, h: History, m: ToStream): History {
    match m
    case FrameForRequest(f) =>
      var ok := HandleFrame(s, f).Accepted?;
      var again := f.ty.Headers? && s.state.Open?;
      h.(taken := h.taken + 1,
         accepted := if ok then h.accepted + [f] else h.accepted,
         trailerBlock := if ok && IsBlockFrame(f) && TrailersInProgress(s) then h.trailerBlock + [f] else h.trailerBlock,
         extra := h.extra || (f.ty.Continuation? && s.trailerState.Ready?),
         stray := h.stray || (f.ty.Continuation? && s.trailerState.WaitingResponse?),
         second := h.second || again,
         secondAt := if again && !h.second then |h.sent| else h.secondAt,
         secondEarly := h.secondEarly || (again && ok && s.headerState.WaitingResponse?))
    case ResponseObject(encoded, body) => h.(responses := h.responses + 1, response := Some((encoded, body)))
    case HeadersDecoded(headers, maybeTrailer) => h.(reply := Some((headers, maybeTrailer)))
    case TrailersDecoded(headers) => h.(lateReplies := h.lateReplies + [headers])
  }

  function ReceiveStep(t: Task): Stepped
    requires t.inbox != []
  {
    var m := t.inbox[0];
    var h := Consumed(t.s, t.h, m);
    match React(t.s, m)
    case Unwound => Stepped(t.(phase := Failed), None)
    case Reaction(s, message, report) =>
      Stepped(t.(s := s, inbox := t.inbox[1..], phase := if report.Some? then AtReport(report.value) else AtHeaders,
                 h := h.(sent := Log1(h.sent, message))), message)
  }

  predicate CanStep(t: Task, cancelled: bool) {
    Live(t) && (t.phase.AtReceive? ==> cancelled || t.inbox != [])
  }

  function TaskStep(t: Task, cancelled: bool): Stepped
    requires CanStep(t, cancelled)
  {
    match t.phase
    case AtHeaders => Advance(t, CompositeHeaders(t.s), AtTrailers)
    case AtTrailers => Advance(t, CompositeTrailers(t.s), AtDispatch)
    case AtDispatch => Advance(t, DispatchIfNeeded(t.s), AtRespond)
    case AtRespond => RespondStep(t)
    case AtReceive =>
      if cancelled then Stepped(t.(s := t.s.(shouldTerminate := true), phase := Stopped), None) else ReceiveStep(t)
    case AtReport(m) => Stepped(t.(phase := AtHeaders, h := t.h.(sent := t.h.sent + [m])), Some(m))
    case _ => Stepped(t, None)
  }

  // ---- messages from the connection ----

  /** A frame as the HEADERS handler leaves it. */
  function Seen(f: Frame): Frame {
    if f.ty.Headers? then f.(params := HeadersPayload.Decode(f.ty.padded, f.ty.priority, f.payload)) else f
  }

  function NoteForwarded(h: History, f: Frame, at: nat): History {
    var h1 :=
      if h.block == [] then
        if f.ty.Headers? then h.(first := |h.forwarded|, block := [f], closed := f.HasEndHeaders(), start := at) else h
      else if !h.closed then h.(block := h.block + [f], closed := f.HasEndHeaders())
      else h;
    h1.(forwarded := h.forwarded + [f])
  }

  function Receive(t: Task, m: ToStream, at: nat): Task {
    t.(inbox := t.inbox + [m],
       h := if m.FrameForRequest? && !t.cancelled then NoteForwarded(t.h, m.frame, at) else t.h)
  }

  // ---- the system ----

  /** A header block or trailer block as the stream sent it, and the pairs HPACK gave for it. */
  type Block = (seq<Byte>, seq<HeaderBlock.Pair>)

  /** What a handler answers: encoded headers, and perhaps a body. */
  type Response = (seq<Byte>, Option<seq<Byte>>)

  datatype Ledger = Ledger(
    raised: seq<Error>,       // every error put into the slot
    credited: nat,            // accepted window increments on stream 0
    openedIds: seq<U32>,       // streams created by a HEADERS frame, in order
    adds: nat,                // streams created
    cancels: nat,             // cancellations that found a token
    increments: set<U32>,     // streams whose Increment was handled
    decrements: set<U32>,     // streams whose Decrement was handled
    revivals: nat,            // dispatch requests that re-created a cancelled stream's token
    headerBlocks: map<U32, Block>,        // the block a stream's answer was decoded from
    trailerBlocks: map<U32, seq<Block>>,  // the same for the answers to trailer blocks, in order
    dropped: multiset<U32>,   // dispatch tasks cancelled before their answer
    replies: map<U32, seq<Response>>,     // what the dispatch tasks of a stream answered, in order
    debited: nat,             // DATA octets handed to streams
    reported: seq<Error>)     // failures taken from streams

  datatype Sys = Sys(
    conn: Conn,
    tasks: map<U32, Task>,
    queue: seq<ToConn>,       // the streams' shared channel to the connection
    running: multiset<U32>,   // dispatch tasks in flight
    received: seq<Frame>,     // every frame the connection took from the reader
    log: Ledger)

  /** The scheduler's choice, together with what the outside world decides. */
  datatype Event =
    | Arrive(frame: Frame)                    // the connection takes a frame from the reader
    | Answer                                  // the connection empties its error slot
    | Handle(hpack: Hpack)                    // the connection takes a stream message
    | Trouble                                 // sending to a stream, or writing an acknowledgement, fails
    | Timeout                                 // the five-second timer ends the loop
    | Abort                                   // a failed write or send makes `serve` return
    | Step(sid: U32)                          // a stream task moves
    | Reply(sid: U32, encoded: seq<Byte>, body: Option<seq<Byte>>)  // a dispatch task finishes
    | Drop(sid: U32)                          // a dispatch task is cancelled

  predicate Listening(c: Conn) {
    c.status.Running? && c.ctx.error.None?
  }

  predicate Enabled(y: Sys, e: Event) {
    match e
    case Arrive(_) => Listening(y.conn)
    case Answer => y.conn.status.Running? && y.conn.ctx.error.Some?
    case Handle(_) => Listening(y.conn) && y.queue != []
    case Trouble => Listening(y.conn)
    case Timeout => Listening(y.conn)
    case Abort => y.conn.status.Running?
    case Step(sid) => sid in y.tasks && CanStep(y.tasks[sid], Cancelled(y, sid))
    case Reply(sid, _, _) => sid in y.running && sid in y.tasks
    case Drop(sid) => sid in y.running
  }

  predicate Cancelled(y: Sys, sid: U32)
    requires sid in y.tasks
  {
    y.tasks[sid].cancelled || y.conn.ctx.rootCancelled
  }

  function Spawn(tasks: map<U32, Task>, created: Option<U32>): map<U32, Task> {
    if created.Some? then tasks[created.value := NewTask(created.value)] else tasks
  }

  function Post(tasks: map<U32, Task>, post: Option<(U32, ToStream)>, at: nat): map<U32, Task> {
    if post.Some? && post.value.0 in tasks
    then tasks[post.value.0 := Receive(tasks[post.value.0], post.value.1, at)]
    else tasks
  }

  function CancelTask(tasks: map<U32, Task>, cancel: Option<U32>): map<U32, Task> {
    if cancel.Some? && cancel.value in tasks then tasks[cancel.value := tasks[cancel.value].(cancelled := true)] else tasks
  }

  function Launch(running: multiset<U32>, launch: Option<U32>): multiset<U32> {
    if launch.Some? then running + multiset{launch.value} else running
  }

  /** Errors newly placed in the slot. */
  function NewlyRaised(c: Conn): seq<Error> {
    if c.ctx.error.Some? then [c.ctx.error.value] else []
  }

  /** What a WINDOW_UPDATE on stream 0 grants, unless it was answered with an error. */
  function Credited(after: Conn, f: Frame): nat {
    if f.ty.WindowUpdate? && f.sid == 0 && |f.payload| >= 4 && Listening(after) then IncrementOf(f.payload) else 0
  }

  function OnArrive(y: Sys, f: Frame): Sys {
    var o := OnFrame(y.conn, f);
    y.(conn := o.conn,
       tasks := Post(Spawn(y.tasks, o.created), o.post, |y.received|),
       received := y.received + [f],
       log := y.log.(
         raised := y.log.raised + NewlyRaised(o.conn),
         credited := y.log.credited + Credited(o.conn, f),
         openedIds := if o.created.Some? && f.ty.Headers? then y.log.openedIds + [f.sid] else y.log.openedIds,
         adds := y.log.adds + (if o.created.Some? then 1 else 0),
         debited := y.log.debited + (if o.post.Some? && f.ty.Data? then |f.payload| else 0)))
  }

  function OnAnswer(y: Sys): Sys
    requires y.conn.ctx.error.Some?
  {
    var o := AnswerError(y.conn);
    y.(conn := o.conn, tasks := CancelTask(y.tasks, o.cancel),
       log := y.log.(cancels := y.log.cancels + (if o.cancel.Some? then 1 else 0)))
  }

  function BlocksOf(blocks: map<U32, seq<Block>>, sid: U32): seq<Block> {
    if sid in blocks then blocks[sid] else []
  }

  function OnHandle(y: Sys, hpack: Hpack): Sys
    requires y.queue != []
  {
    var m := y.queue[0];
    var o := OnMessage(y.conn, m, hpack);
    y.(conn := o.conn, queue := y.queue[1..],
       tasks := Post(y.tasks, o.post, |y.received|),
       running := Launch(y.running, o.launch),
       log := y.log.(
         raised := y.log.raised + NewlyRaised(o.conn),
         increments := if m.ActiveStreamCount? && m.command.Increment? then y.log.increments + {m.sid} else y.log.increments,
         decrements := if m.ActiveStreamCount? && m.command.Decrement? then y.log.decrements + {m.sid} else y.log.decrements,
         reported := if m.Failure? then y.log.reported + [m.error] else y.log.reported,
         revivals := y.log.revivals + (if m.RequestForDispatch? && m.sid !in y.conn.ctx.tokens then 1 else 0),
         headerBlocks := if o.post.Some? && m.HeadersToDecode? && hpack.Pairs? then y.log.headerBlocks[m.sid := (m.payload, hpack.pairs)] else y.log.headerBlocks,
         trailerBlocks :=
           if o.post.Some? && m.TrailersToDecode? && hpack.Pairs?
           then y.log.trailerBlocks[m.sid := BlocksOf(y.log.trailerBlocks, m.sid) + [(m.payload, hpack.pairs)]] else y.log.trailerBlocks))
  }

  /** An error that is no `Http2Error` lands in the slot. */
  function OnTrouble(y: Sys): Sys {
    y.(conn := Raise(y.conn, OtherError), log := y.log.(raised := y.log.raised + [OtherError]))
  }

  function OnStep(y: Sys, sid: U32): Sys
    requires sid in y.tasks && CanStep(y.tasks[sid], Cancelled(y, sid))
  {
    var st := TaskStep(y.tasks[sid], Cancelled(y, sid));
    y.(tasks := y.tasks[sid := st.task], queue := Log1(y.queue, st.message))
  }

  function RepliesOf(replies: map<U32, seq<Response>>, sid: U32): seq<Response> {
    if sid in replies then replies[sid] else []
  }

  function OnReply(y: Sys, sid: U32, r: Response): Sys
    requires sid in y.tasks
  {
    y.(tasks := y.tasks[sid := Receive(y.tasks[sid], ResponseObject(r.0, r.1), |y.received|)],
       running := y.running - multiset{sid},
       log := y.log.(replies := y.log.replies[sid := RepliesOf(y.log.replies, sid) + [r]]))
  }

  function OnDrop(y: Sys, sid: U32): Sys {
    y.(running := y.running - multiset{sid}, log := y.log.(dropped := y.log.dropped + multiset{sid}))
  }

  /** Dispatch tasks of a stream that were started and have not answered. */
  function Outstanding(y: Sys, sid: U32): nat {
    y.running[sid] + y.log.dropped[sid]
  }

  function Next(y: Sys, e: Event): Sys
    requires Enabled(y, e)
  {
    match e
    case Arrive(f) => OnArrive(y, f)
    case Answer => OnAnswer(y)
    case Handle(hpack) => OnHandle(y, hpack)
    case Trouble => OnTrouble(y)
    case Timeout => y.(conn := End(y.conn.(ctx := y.conn.ctx.(rootCancelled := true))))
    case Abort => y.(conn := End(y.conn))
    case Step(sid) => OnStep(y, sid)
    case Reply(sid, encoded, body) => OnReply(y, sid, (encoded, body))
    case Drop(sid) => OnDrop(y, sid)
  }

  /** The server's own settings, entry by entry. */
  const ANNOUNCED: seq<Settings.Entry> := [(1, 4096), (2, 1), (3, 100), (4, 65535), (5, 16384), (6, 1)]

  /** The two frames the handshake writes: the server's settings, and the acknowledgement of the client's first frame. */
  predicate Greeting(wire: seq<Frame>) {
    && |wire| == 2
    && wire[0].ty == FrameType.Settings(false) && wire[0].sid == 0 && Settings.Decode(wire[0].payload) == ANNOUNCED
    && (wire[1].ty == FrameType.Settings(true) || wire[1].ty == Ping(true)) && wire[1].sid == 0
  }

  /** A connection as the handshake leaves it, whatever legal settings the client sent, if its first frame had any. */
  predicate Greeted(c: Conn) {
    && c.ctx == FreshContext().(clientOptions := c.ctx.clientOptions)
    && Settings.Legal(c.ctx.clientOptions)
    && Greeting(c.wire)
    && c.pendingFrames == [] && c.status.Running?
  }

  /** The client's first frame is a SETTINGS frame, whose entries count, or a PING; and it is acknowledged as such. */
  lemma HandshakeGreets(first: Frame)
    requires Handshake(first).Some?
    ensures Greeted(Handshake(first).value)
    ensures first.sid == 0 && (first.ty == FrameType.Settings(false) || (first.ty == Ping(false) && |first.payload| == 8))
    ensures var (ack, options) := (Handshake(first).value.wire[1], Handshake(first).value.ctx.clientOptions);
      if first.ty.Settings?
      then ack.ty == FrameType.Settings(true) && ack.payload == []
           && options == Settings.AssignAll(Settings.DEFAULTS, Settings.Decode(first.payload))
      else ack.ty == Ping(true) && ack.payload == first.payload && options == Settings.DEFAULTS
  {
    if first.ty.Settings? {
      Settings.VerdictIsRange(first.sid, first.payload);
      Settings.ApplyIsInOrder(Settings.DEFAULTS, first.payload);
      if Settings.Verdict(first.sid, first.payload) == None {
        Settings.ApplyKeepsLegal(Settings.DEFAULTS, first.sid, first.payload);
      }
    }
    Settings.DecodeEncode(Settings.DEFAULT_PAYLOAD);
    hide Settings.Apply, Settings.Encode, Settings.Decode, Settings.AssignAll, Settings.Verdict, Settings.InRange, HeadersPayload.Decode, Get32;
  }

  /** The state right after the handshake. */
  predicate Init(y: Sys) {
    && Greeted(y.conn)
    && y == Sys(y.conn, map[], [], multiset{}, [], Ledger([], 0, [], 0, 0, {}, {}, 0, map[], map[], multiset{}, map[], 0, []))
  }

  ghost predicate Happens(y: Sys, e: Event, y1: Sys) {
    Enabled(y, e) && Next(y, e) == y1
  }

  /** The states of a run, one more than its events; every event was enabled when it happened. */
  ghost predicate Trace(states: seq<Sys>, events: seq<Event>) {
    && |states| == |events| + 1
    && forall i {:trigger events[i]} :: 0 <= i < |events| ==> Happens(states[i], events[i], states[i + 1])
  }

  ghost predicate Run(y0: Sys, events: seq<Event>, y: Sys) {
    exists states :: Trace(states, events) && states[0] == y0 && states[|events|] == y
  }

  lemma RunNone(y: Sys)
    ensures Run(y, [], y)
  {
    assert Trace([y], []);
  }

  /** A run that is not empty ends with an event. */
  lemma LastEvent(y0: Sys, events: seq<Event>, y: Sys) returns (mid: Sys)
    requires Run(y0, events, y) && events != []
    ensures var n := |events| - 1; Run(y0, events[..n], mid) && Enabled(mid, events[n]) && Next(mid, events[n]) == y
  {
    hide Enabled, Next;
    var n := |events| - 1;
    var states :| Trace(states, events) && states[0] == y0 && states[|events|] == y;
    mid := states[n];
    assert Happens(states[n], events[n], states[n + 1]);
    assert Trace(states[..n + 1], events[..n]) by {
      forall i | 0 <= i < n ensures Happens(states[..n + 1][i], events[..n][i], states[..n + 1][i + 1]) {
        assert Happens(states[i], events[i], states[i + 1]);
      }
    }
    assert states[..n + 1][0] == y0 && states[..n + 1][n] == mid;
  }

  lemma OneMoreEvent(y0: Sys, events: seq<Event>, mid: Sys, e: Event)
    requires Run(y0, events, mid) && Enabled(mid, e)
    ensures Run(y0, events + [e], Next(mid, e))
  {
    hide Enabled, Next;
    var states :| Trace(states, events) && states[0] == y0 && states[|events|] == mid;
    var states1, events1 := states + [Next(mid, e)], events + [e];
    forall i | 0 <= i < |events1| ensures Happens(states1[i], events1[i], states1[i + 1]) {
      if i < |events| {
        assert Happens(states[i], events[i], states[i + 1]);
      }
    }
    assert Trace(states1, events1) && states1[0] == y0 && states1[|events1|] == Next(mid, e);
  }

  /** What HPACK answered along a run, message by message as the connection handled them; one without a block ignores it. */
  function HpackOf(events: seq<Event>): seq<Hpack> {
    if events == [] then [] else (if events[0].Handle? then [events[0].hpack] else []) + HpackOf(events[1..])
  }

  lemma {:induction false} HpackJoin(before: seq<Event>, after: seq<Event>)
    ensures HpackOf(before + after) == HpackOf(before) + HpackOf(after)
  {
    if before == [] {
      assert before + after == after;
    } else {
      assert (before + after)[1..] == before[1..] + after && (before + after)[0] == before[0];
      HpackJoin(before[1..], after);
    }
  }

  lemma {:induction false} RunJoin(a: Sys, before: seq<Event>, b: Sys, after: seq<Event>, c: Sys)
    requires Run(a, before, b) && Run(b, after, c)
    ensures Run(a, before + after, c)
    decreases |after|
  {
    hide Enabled, Next;
    if after == [] {
      assert before + after == before;
    } else {
      var n := |after| - 1;
      var mid := LastEvent(b, after, c);
      RunJoin(a, before, b, after[..n], mid);
      OneMoreEvent(a, before + after[..n], mid, after[n]);
      assert before + after == before + after[..n] + [after[n]];
    }
  }

  /** Some run goes from `y` to `y1` with these answers of HPACK. */
  ghost predicate LeadsBy(y: Sys, results: seq<Hpack>, y1: Sys) {
    exists events :: Run(y, events, y1) && HpackOf(events) == results
  }

  lemma LeadsByNothing(y: Sys)
    ensures LeadsBy(y, [], y)
  {
    hide Run;
    RunNone(y);
    assert HpackOf([]) == [];
  }

  lemma LeadsByBoth(a: Sys, before: seq<Hpack>, b: Sys, after: seq<Hpack>, c: Sys)
    requires LeadsBy(a, before, b) && LeadsBy(b, after, c)
    ensures LeadsBy(a, before + after, c)
  {
    hide Run, HpackOf;
    var first :| Run(a, first, b) && HpackOf(first) == before;
    var second :| Run(b, second, c) && HpackOf(second) == after;
    RunJoin(a, first, b, second, c);
    HpackJoin(first, second);
  }

  /** Events in front that handle no message. */
  lemma LeadsQuietly(a: Sys, b: Sys, results: seq<Hpack>, c: Sys)
    requires LeadsBy(a, [], b) && LeadsBy(b, results, c)
    ensures LeadsBy(a, results, c)
  {
    hide LeadsBy;
    LeadsByBoth(a, [], b, results, c);
    assert [] + results == results;
  }

  lemma HpackOfOne(e: Event)
    ensures HpackOf([e]) == if e.Handle? then [e.hpack] else []
  {
    assert [e][1..] == [] && HpackOf([]) == [];
  }

  lemma LeadsByEvent(y: Sys, e: Event)
    requires Enabled(y, e)
    ensures LeadsBy(y, if e.Handle? then [e.hpack] else [], Next(y, e))
  {
    hide Enabled, Next, Run;
    RunNone(y);
    OneMoreEvent(y, [], y, e);
    assert [] + [e] == [e];
    HpackOfOne(e);
  }

  ghost predicate LeadsTo(y: Sys, y1: Sys) {
    exists results :: LeadsBy(y, results, y1)
  }

  lemma LeadsToNext(y: Sys, e: Event)
    requires Enabled(y, e)
    ensures LeadsTo(y, Next(y, e))
  {
    hide LeadsBy, Enabled, Next;
    LeadsByEvent(y, e);
  }

  lemma LeadsBoth(a: Sys, b: Sys, c: Sys)
    requires LeadsTo(a, b) && LeadsTo(b, c)
    ensures LeadsTo(a, c)
  {
    hide LeadsBy;
    var before :| LeadsBy(a, before, b);
    var after :| LeadsBy(b, after, c);
    LeadsByBoth(a, before, b, after, c);
  }

  ghost predicate Reachable(y: Sys) {
    exists y0, events :: Init(y0) && Run(y0, events, y)
  }
}
