/** What every reachable state of the whole system satisfies: the tasks, the channels and the gate together. */
module SystemInvariant {
  import opened Wrappers
  import opened Bytes
  import opened Frames
  import opened Messages
  import opened RequestContext
  import opened StreamModel
  import opened ConnectionModel
  import opened System
  import opened StreamInvariant
  import StreamReceive
  import HeaderBlock
  import HeadersPayload
  import Settings
  import Goaway

  // ---- counting what is in the channels ----

  datatype Got = GotResponse | GotHeaders | GotTrailers

  predicate Brings(m: ToStream, g: Got) {
    match g
    case GotResponse => m.ResponseObject?
    case GotHeaders => m.HeadersDecoded?
    case GotTrailers => m.TrailersDecoded?
  }

  function Waiting(q: seq<ToStream>, g: Got): nat {
    if q == [] then 0 else (if Brings(q[0], g) then 1 else 0) + Waiting(q[1..], g)
  }

  lemma {:induction false} WaitingAppend(q: seq<ToStream>, m: ToStream, g: Got)
    ensures Waiting(q + [m], g) == Waiting(q, g) + (if Brings(m, g) then 1 else 0)
  {
    if q == [] {
      assert [] + [m] == [m] && [m][1..] == [];
    } else {
      assert (q + [m])[1..] == q[1..] + [m];
      WaitingAppend(q[1..], m, g);
    }
  }

  lemma {:induction false} WaitingSome(q: seq<ToStream>, g: Got, i: nat)
    requires i < |q| && Brings(q[i], g)
    ensures Waiting(q, g) > 0
  {
    if i > 0 {
      WaitingSome(q[1..], g, i - 1);
    }
  }

  lemma Associate<T>(a: seq<T>, b: seq<T>, c: seq<T>)
    ensures (a + b) + c == a + (b + c)
  {}

  lemma {:induction false} InboxAppend(q: seq<ToStream>, m: ToStream)
    ensures InboxFrames(q + [m]) == InboxFrames(q) + (if m.FrameForRequest? then [m.frame] else [])
  {
    if q == [] {
      assert [] + [m] == [m] && [m][1..] == [];
    } else {
      assert (q + [m])[1..] == q[1..] + [m] && (q + [m])[0] == q[0];
      InboxAppend(q[1..], m);
      Associate(if q[0].FrameForRequest? then [q[0].frame] else [], InboxFrames(q[1..]), if m.FrameForRequest? then [m.frame] else []);
    }
  }

  lemma {:induction false} NumTail(q: seq<ToConn>, k: Kind, sid: U32)
    requires q != []
    ensures Num(q, k, sid) == (if Is(q[0], k, sid) then 1 else 0) + Num(q[1..], k, sid)
  {
    if |q| == 1 {
      assert q[..0] == [] && q[1..] == [];
    } else {
      var n := |q| - 1;
      assert q[..n][1..] == q[1..][..n - 1] && q[1..][n - 1] == q[n];
      NumTail(q[..n], k, sid);
    }
  }

  lemma {:induction false} NumSome(q: seq<ToConn>, k: Kind, sid: U32, i: nat)
    requires i < |q| && Is(q[i], k, sid)
    ensures Num(q, k, sid) > 0
  {
    if i < |q| - 1 {
      NumSome(q[..|q| - 1], k, sid, i);
    }
  }

  lemma {:induction false} NumMonotone(q: seq<ToConn>, k: Kind, sid: U32, n: nat)
    requires n <= |q|
    ensures Num(q[..n], k, sid) <= Num(q, k, sid)
  {
    if n == |q| {
      assert q[..n] == q;
    } else {
      assert q[..|q| - 1][..n] == q[..n];
      NumMonotone(q[..|q| - 1], k, sid, n);
    }
  }

  // ---- requests, answers and responses in flight ----

  /** Every answer to come, waiting or consumed belongs to a request that was sent, and every dispatch is accounted for. */
  predicate Flow(sid: U32, sent: seq<ToConn>, queue: seq<ToConn>, inFlight: nat, inbox: seq<ToStream>, responses: nat, replied: bool, late: nat) {
    && Num(queue, KDispatch, sid) + inFlight + Waiting(inbox, GotResponse) + responses == Num(sent, KDispatch, sid)
    && Num(queue, KHeaders, sid) + Waiting(inbox, GotHeaders) + (if replied then 1 else 0) <= Num(sent, KHeaders, sid)
    && Num(queue, KTrailers, sid) + Waiting(inbox, GotTrailers) + late <= Num(sent, KTrailers, sid)
  }

  predicate Mine(m: ToConn, sid: U32) {
    !m.Failure? && m.sid == sid
  }

  predicate QueuedWasSent(sid: U32, sent: seq<ToConn>, queue: seq<ToConn>) {
    forall i :: 0 <= i < |queue| && Mine(queue[i], sid) ==> queue[i] in sent
  }

  predicate AnswerOk(m: ToStream, declared: Option<set<string>>) {
    && (m.HeadersDecoded? ==> Dispatchable(m.headers))
    && (m.TrailersDecoded? ==> declared.Some? && m.headers.Keys <= declared.value && NoPseudo(m.headers))
  }

  predicate InboxOk(inbox: seq<ToStream>, declared: Option<set<string>>) {
    forall i :: 0 <= i < |inbox| ==> AnswerOk(inbox[i], declared)
  }

  /** Count commands are handled once each, in the order sent, Increment before Decrement. */
  predicate Tallied(sid: U32, sent: seq<ToConn>, queue: seq<ToConn>, inc: bool, dec: bool) {
    && Num(queue, KIncrement, sid) + (if inc then 1 else 0) == Num(sent, KIncrement, sid)
    && Num(queue, KDecrement, sid) + (if dec then 1 else 0) == Num(sent, KDecrement, sid)
    && (dec ==> inc)
    && (forall i :: 0 <= i < |queue| && Is(queue[i], KDecrement, sid) ==> inc || Num(queue[..i], KIncrement, sid) > 0)
  }

  /** The first header block is a contiguous run of what the connection received. */
  predicate BlockReceived(block: seq<Frame>, start: nat, received: seq<Frame>) {
    && start + |block| <= |received|
    && (forall i :: 0 <= i < |block| ==> block[i] == Seen(received[start + i]))
  }

  predicate StreamOk(t: Task, sid: U32, queue: seq<ToConn>, inFlight: nat, tokens: set<U32>, received: seq<Frame>) {
    && LocalInv(t)
    && t.s.id == sid
    && (sid in tokens || t.cancelled)
    && Flow(sid, t.h.sent, queue, inFlight, t.inbox, t.h.responses, t.h.reply.Some?, |t.h.lateReplies|)
    && QueuedWasSent(sid, t.h.sent, queue)
    && InboxOk(t.inbox, t.s.declared)
    && BlockReceived(t.h.block, t.h.start, received)
  }

  // ---- the gate ----

  /** The connection still delivers frames to the stream, now and after it has answered its error. */
  predicate Served(c: Conn, t: Task, sid: U32) {
    && c.status.Running? && !t.cancelled
    && match c.ctx.error
       case None => true
       case Some(ConnectionError(_)) => false
       case Some(StreamError(id, _)) => id != sid
       case Some(OtherError) => true
  }

  /** An unfinished header block holds the gate and is the last thing received. */
  predicate BlockAtGate(c: Conn, t: Task, sid: U32, received: seq<Frame>) {
    Served(c, t, sid) && t.h.block != [] && !t.h.closed ==>
      c.ctx.gate == Some(sid) && t.h.start + |t.h.block| == |received|
  }

  predicate GateOk(ctx: ConnContext) {
    ctx.gate.Some? ==> ctx.gate.value in ctx.channels && (ctx.goAway.None? || ctx.gate.value <= ctx.goAway.value)
  }

  predicate Addressed(queue: seq<ToConn>, tasks: map<U32, Task>) {
    forall i :: 0 <= i < |queue| ==> queue[i].Failure? || queue[i].sid in tasks
  }

  predicate Skeleton(y: Sys) {
    && y.tasks.Keys == y.conn.ctx.channels && 0 !in y.conn.ctx.channels
    && Addressed(y.queue, y.tasks)
    && (forall sid :: sid in y.running ==> sid in y.tasks)
    && (forall sid :: sid in y.log.dropped ==> sid in y.tasks)
    && GateOk(y.conn.ctx)
  }

  predicate At(y: Sys, sid: U32)
    requires sid in y.tasks
  {
    && StreamOk(y.tasks[sid], sid, y.queue, Outstanding(y, sid), y.conn.ctx.tokens, y.received)
    && BlockAtGate(y.conn, y.tasks[sid], sid, y.received)
  }

  ghost predicate Joint(y: Sys) {
    Skeleton(y) && forall sid :: sid in y.tasks ==> At(y, sid)
  }

  lemma InitJoint(y: Sys)
    requires Init(y)
    ensures Joint(y)
  {
  }

  // ---- a stream task moves ----

  lemma {:induction false} DrainKeeps(s: Stream, out: seq<Frame>)
    ensures Drain(s, out).Drained? ==> Drain(s, out).next.id == s.id && Drain(s, out).next.declared == s.declared
    decreases |s.pending|
  {
    if s.pending != [] && !MustWait(s.window, s.pending[0]) && !(s.state.Idle? && !SendableFromIdle(s.pending[0])) {
      DrainKeeps(SendPending(s, s.pending[0], s.pending[1..]), out + [s.pending[0]]);
    }
  }

  lemma ReactKeeps(s: Stream, m: ToStream)
    ensures React(s, m).Reaction? ==> React(s, m).next.id == s.id && (!m.HeadersDecoded? ==> React(s, m).next.declared == s.declared)
  {
    match m {
      case FrameForRequest(f) => FrameKeeps(s, f);
      case ResponseObject(encoded, body) => StreamReceive.ResponseAnswered(s, encoded, body);
      case _ =>
    }
    hide HandleFrame, HandleResponse, CanSend, Truncate;
  }

  /** A step sends at most one message and logs it, and leaves the record of the header block alone. */
  predicate SameLog(t: Task, st: Stepped) {
    && st.task.h.sent == Log1(t.h.sent, st.message)
    && st.task.cancelled == t.cancelled
    && st.task.s.id == t.s.id
    && st.task.h.block == t.h.block && st.task.h.closed == t.h.closed && st.task.h.start == t.h.start
  }

  /** The inbox and the record of answers consumed. */
  predicate SameAnswers(t: Task, t1: Task) {
    && t1.inbox == t.inbox && t1.s.declared == t.s.declared
    && t1.h.responses == t.h.responses && t1.h.reply == t.h.reply && t1.h.lateReplies == t.h.lateReplies
  }

  predicate TookAnswer(t: Task, t1: Task)
    requires t.inbox != []
  {
    var m := t.inbox[0];
    && t1.inbox == t.inbox[1..]
    && (!m.HeadersDecoded? ==> t1.s.declared == t.s.declared)
    && t1.h.responses == t.h.responses + (if m.ResponseObject? then 1 else 0)
    && t1.h.reply.Some? == (t.h.reply.Some? || m.HeadersDecoded?)
    && |t1.h.lateReplies| == |t.h.lateReplies| + (if m.TrailersDecoded? then 1 else 0)
  }

  lemma ConsumedFrame(s: Stream, h: History, f: Frame)
    ensures StreamReceive.OnlyFrameFields(h, Consumed(s, h, FrameForRequest(f)))
  {
    hide HandleFrame;
  }

  /** How a consumed message shows in the history. */
  lemma ConsumedLogs(s: Stream, h: History, m: ToStream)
    ensures var h1 := Consumed(s, h, m);
      && h1.sent == h.sent && h1.block == h.block && h1.closed == h.closed && h1.start == h.start
      && h1.responses == h.responses + (if m.ResponseObject? then 1 else 0)
      && h1.reply.Some? == (h.reply.Some? || m.HeadersDecoded?)
      && |h1.lateReplies| == |h.lateReplies| + (if m.TrailersDecoded? then 1 else 0)
  {
    if m.FrameForRequest? {
      ConsumedFrame(s, h, m.frame);
      hide Consumed;
    }
    hide HandleFrame;
  }

  lemma ReceiveLogs(t: Task)
    requires t.inbox != []
    ensures SameLog(t, ReceiveStep(t))
    ensures SameAnswers(t, ReceiveStep(t).task) || TookAnswer(t, ReceiveStep(t).task)
  {
    hide React, Consumed;
    ReactKeeps(t.s, t.inbox[0]);
    ConsumedLogs(t.s, t.h, t.inbox[0]);
  }

  lemma FrameKeeps(s: Stream, f: Frame)
    ensures HandleFrame(s, f).Accepted? ==> HandleFrame(s, f).next.id == s.id && HandleFrame(s, f).next.declared == s.declared
  {
    hide HandleFrame, StreamReceive.Allowed;
    if HandleFrame(s, f).Accepted? {
      StreamReceive.AcceptedEffect(s, f);
    }
  }

  lemma StepLogs(t: Task, cancelled: bool)
    requires CanStep(t, cancelled)
    ensures SameLog(t, TaskStep(t, cancelled))
    ensures SameAnswers(t, TaskStep(t, cancelled).task) ||
      (t.phase.AtReceive? && t.inbox != [] && TookAnswer(t, TaskStep(t, cancelled).task))
  {
    if t.phase.AtReceive? && !cancelled {
      hide *;
      ReceiveLogs(t);
      StepReceives(t);
    } else {
      hide ReceiveStep, TryFrom, FirstBody, AllFragments, ShouldDispatch, StreamModel.Respond;
      RespondKeeps(t.s);
    }
  }

  lemma RespondKeeps(s: Stream)
    ensures StreamModel.Respond(s).Move? ==> StreamModel.Respond(s).next.id == s.id && StreamModel.Respond(s).next.declared == s.declared
  {
    DrainKeeps(s, []);
    hide Drain;
  }

  lemma StepReceives(t: Task)
    requires t.phase.AtReceive? && t.inbox != []
    ensures CanStep(t, false) && TaskStep(t, false) == ReceiveStep(t)
  {
    hide ReceiveStep;
  }

  lemma BothAppend(sent: seq<ToConn>, queue: seq<ToConn>, m: ToConn, k: Kind, sid: U32)
    ensures Num(sent + [m], k, sid) - Num(sent, k, sid) == Num(queue + [m], k, sid) - Num(queue, k, sid)
  {
    NumAppend(sent, m, k, sid);
    NumAppend(queue, m, k, sid);
    hide Num;
  }

  lemma FlowLog(sid: U32, sent: seq<ToConn>, queue: seq<ToConn>, inFlight: nat, inbox: seq<ToStream>, responses: nat, replied: bool, late: nat, message: Option<ToConn>)
    requires Flow(sid, sent, queue, inFlight, inbox, responses, replied, late)
    ensures Flow(sid, Log1(sent, message), Log1(queue, message), inFlight, inbox, responses, replied, late)
  {
    if message.Some? {
      BothAppend(sent, queue, message.value, KDispatch, sid);
      BothAppend(sent, queue, message.value, KHeaders, sid);
      BothAppend(sent, queue, message.value, KTrailers, sid);
      hide Num, Is;
    }
  }

  lemma FlowStep(t: Task, cancelled: bool, sid: U32, queue: seq<ToConn>, inFlight: nat)
    requires CanStep(t, cancelled)
    requires Flow(sid, t.h.sent, queue, inFlight, t.inbox, t.h.responses, t.h.reply.Some?, |t.h.lateReplies|)
    ensures var st := TaskStep(t, cancelled);
      Flow(sid, st.task.h.sent, Log1(queue, st.message), inFlight, st.task.inbox, st.task.h.responses, st.task.h.reply.Some?, |st.task.h.lateReplies|)
  {
    hide TaskStep, Num;
    StepLogs(t, cancelled);
    FlowLog(sid, t.h.sent, queue, inFlight, t.inbox, t.h.responses, t.h.reply.Some?, |t.h.lateReplies|, TaskStep(t, cancelled).message);
  }

  /** With the traffic accounted for, the next message is always one the stream expects. */
  lemma NextExpected(t: Task, queue: seq<ToConn>, inFlight: nat)
    requires LocalInv(t) && InboxOk(t.inbox, t.s.declared)
    requires Flow(t.s.id, t.h.sent, queue, inFlight, t.inbox, t.h.responses, t.h.reply.Some?, |t.h.lateReplies|)
    ensures HeadOk(t)
  {
    hide Logged, BlockPlaced, HeaderProgress, TrailerOk, SecondOk, FlowInv, PhaseOk;
    if t.inbox != [] {
      assert AnswerOk(t.inbox[0], t.s.declared);
      hide NoPseudo, Dispatchable, InboxOk;
    }
  }

  lemma InboxOkStep(t: Task, cancelled: bool, queue: seq<ToConn>, inFlight: nat)
    requires LocalInv(t) && CanStep(t, cancelled) && InboxOk(t.inbox, t.s.declared)
    requires Flow(t.s.id, t.h.sent, queue, inFlight, t.inbox, t.h.responses, t.h.reply.Some?, |t.h.lateReplies|)
    ensures InboxOk(TaskStep(t, cancelled).task.inbox, TaskStep(t, cancelled).task.s.declared)
  {
    hide TaskStep, Flow, NoPseudo, Dispatchable;
    StepLogs(t, cancelled);
    if t.inbox != [] && t.inbox[0].HeadersDecoded? {
      FirstAnswer(t, queue, inFlight);
    }
  }

  /** When the answer to the header block arrives no trailers are declared, so none are waiting. */
  lemma FirstAnswer(t: Task, queue: seq<ToConn>, inFlight: nat)
    requires LocalInv(t) && t.inbox != [] && t.inbox[0].HeadersDecoded?
    requires Flow(t.s.id, t.h.sent, queue, inFlight, t.inbox, t.h.responses, t.h.reply.Some?, |t.h.lateReplies|)
    ensures t.s.declared.None?
  {
    hide Logged, BlockPlaced, HeaderProgress, DispatchOk, TrailerOk, SecondOk, FlowInv, PhaseOk;
  }

  lemma QueuedLog(sid: U32, sent: seq<ToConn>, queue: seq<ToConn>, message: Option<ToConn>)
    requires QueuedWasSent(sid, sent, queue)
    ensures QueuedWasSent(sid, Log1(sent, message), Log1(queue, message))
  {}

  lemma StepSelf(t: Task, sid: U32, cancelled: bool, queue: seq<ToConn>, inFlight: nat, tokens: set<U32>, received: seq<Frame>)
    requires StreamOk(t, sid, queue, inFlight, tokens, received) && CanStep(t, cancelled) && (t.cancelled ==> cancelled)
    ensures StreamOk(TaskStep(t, cancelled).task, sid, Log1(queue, TaskStep(t, cancelled).message), inFlight, tokens, received)
  {
    hide LocalInv, Flow, QueuedWasSent, InboxOk, BlockReceived, TaskStep, HeadOk;
    NextExpected(t, queue, inFlight);
    StreamReceive.StepKeeps(t, cancelled);
    StepLogs(t, cancelled);
    FlowStep(t, cancelled, sid, queue, inFlight);
    InboxOkStep(t, cancelled, queue, inFlight);
    QueuedLog(sid, t.h.sent, queue, TaskStep(t, cancelled).message);
  }

  lemma StepOther(t: Task, sid: U32, queue: seq<ToConn>, m: ToConn, inFlight: nat, tokens: set<U32>, received: seq<Frame>)
    requires StreamOk(t, sid, queue, inFlight, tokens, received) && !Mine(m, sid)
    ensures StreamOk(t, sid, queue + [m], inFlight, tokens, received)
  {
    hide LocalInv, InboxOk, BlockReceived;
    NumAppend(queue, m, KDispatch, sid);
    NumAppend(queue, m, KHeaders, sid);
    NumAppend(queue, m, KTrailers, sid);
    hide Num;
  }

  lemma MessageIsOwn(t: Task, cancelled: bool)
    requires LocalInv(t) && CanStep(t, cancelled) && LocalInv(TaskStep(t, cancelled).task)
    ensures var st := TaskStep(t, cancelled); st.message.Some? ==> st.message.value.Failure? || st.message.value.sid == t.s.id
  {
    hide TaskStep, LocalInv;
    StepLogs(t, cancelled);
    LastIsOwn(TaskStep(t, cancelled).task);
  }

  lemma LastIsOwn(t: Task)
    requires LocalInv(t)
    ensures t.h.sent != [] ==> t.h.sent[|t.h.sent| - 1].Failure? || t.h.sent[|t.h.sent| - 1].sid == t.s.id
  {
    hide BlockInv, RequestInv, StateOk, WindowOk, ResponseOk, CountOk;
  }

  lemma StepAt(y: Sys, sid: U32, id: U32)
    requires sid in y.tasks && CanStep(y.tasks[sid], Cancelled(y, sid)) && At(y, sid) && id in y.tasks && At(y, id)
    ensures At(OnStep(y, sid), id)
  {
    hide TaskStep, LocalInv, Flow, QueuedWasSent, InboxOk, BlockReceived;
    var t := y.tasks[sid];
    var cancelled := Cancelled(y, sid);
    StepSelf(t, sid, cancelled, y.queue, Outstanding(y, sid), y.conn.ctx.tokens, y.received);
    StepLogs(t, cancelled);
    MessageIsOwn(t, cancelled);
    var m := TaskStep(t, cancelled).message;
    if id != sid && m.Some? {
      StepOther(y.tasks[id], id, y.queue, m.value, Outstanding(y, id), y.conn.ctx.tokens, y.received);
    }
  }

  lemma StepSkeleton(y: Sys, sid: U32)
    requires Skeleton(y) && sid in y.tasks && CanStep(y.tasks[sid], Cancelled(y, sid)) && At(y, sid)
    ensures Skeleton(OnStep(y, sid))
  {
    hide TaskStep, LocalInv, BlockAtGate, Flow, QueuedWasSent, InboxOk, BlockReceived, GateOk;
    var t := y.tasks[sid];
    var cancelled := Cancelled(y, sid);
    StepSelf(t, sid, cancelled, y.queue, Outstanding(y, sid), y.conn.ctx.tokens, y.received);
    MessageIsOwn(t, cancelled);
  }

  lemma StepJoint(y: Sys, sid: U32)
    requires Joint(y) && sid in y.tasks && CanStep(y.tasks[sid], Cancelled(y, sid))
    ensures Joint(OnStep(y, sid))
  {
    hide At, Skeleton, TaskStep;
    StepSkeleton(y, sid);
    forall id | id in y.tasks ensures At(OnStep(y, sid), id) {
      StepAt(y, sid, id);
    }
  }

  // ---- the connection handles a stream message ----

  lemma {:induction false} DeliverKeeps(c: Conn, frames: seq<Frame>, overflowed: bool)
    ensures var c1 := Deliver(c, frames, overflowed);
      c1.ctx == c.ctx.(window := c1.ctx.window) && (c1.status.Running? ==> c.status.Running?)
    decreases frames
  {
    if frames != [] {
      var f := frames[0];
      var c1 := if f.ty.Data? && c.ctx.window >= |f.payload| then c.(ctx := c.ctx.(window := c.ctx.window - |f.payload|)) else c;
      DeliverKeeps(c1.(pendingFrames := c1.pendingFrames + [f]), frames[1..], true);
      DeliverKeeps(c1.(wire := c1.wire + [f]), frames[1..], false);
    }
  }

  /** The answer the connection gives to a request for decoding. */
  predicate AnswerTo(m: ToConn, answer: ToStream) {
    || (m.HeadersToDecode? && answer.HeadersDecoded? && Dispatchable(answer.headers))
    || (m.TrailersToDecode? && answer.TrailersDecoded? && answer.headers.Keys <= m.declared && NoPseudo(answer.headers))
  }

  /** What handling a message can change in the connection, as far as the streams are concerned. */
  predicate MessageEffect(c: Conn, m: ToConn, o: Outcome) {
    && o.conn.ctx.channels == c.ctx.channels && o.conn.ctx.gate == c.ctx.gate && o.conn.ctx.goAway == c.ctx.goAway
    && c.ctx.tokens <= o.conn.ctx.tokens
    && (o.conn.status.Running? ==> c.status.Running?)
    && o.created.None? && o.cancel.None?
    && (o.launch.Some? ==> m.RequestForDispatch? && o.launch.value == m.sid)
    && (m.RequestForDispatch? && m.sid in c.ctx.channels ==> o.launch.Some?)
    && (m.RequestForDispatch? && m.sid !in c.ctx.channels ==> o.launch.None?)
    && (o.post.Some? ==> Mine(m, o.post.value.0) && AnswerTo(m, o.post.value.1))
  }

  lemma HeadersAnswered(c: Conn, m: ToConn, hpack: Hpack)
    requires m.HeadersToDecode?
    ensures MessageEffect(c, m, AnswerHeaders(c, m.sid, hpack))
  {
    hide Dispatchable, HeaderBlock.WellFormed, HeaderBlock.HeaderMap, HeaderBlock.DeclaredTrailers;
    if hpack.Pairs? && HeaderBlock.Decoded(m.sid, hpack.pairs).Ok? {
      WellFormedIsDispatchable(hpack.pairs);
    }
  }

  lemma TrailersAnswered(c: Conn, m: ToConn, hpack: Hpack)
    requires m.TrailersToDecode?
    ensures MessageEffect(c, m, AnswerTrailers(c, m.sid, m.declared, hpack))
  {
    hide HeaderBlock.TrailersOk, HeaderBlock.TrailerMap;
    if hpack.Pairs? && HeaderBlock.DecodedTrailers(m.sid, hpack.pairs, m.declared).Ok? {
      TrailersAreHarmless(map[], hpack.pairs, m.declared);
    }
  }

  lemma MessageHandled(c: Conn, m: ToConn, hpack: Hpack)
    ensures MessageEffect(c, m, OnMessage(c, m, hpack))
  {
    hide Deliver, AnswerHeaders, AnswerTrailers;
    match m {
      case HeadersToDecode(_, _) => HeadersAnswered(c, m, hpack);
      case TrailersToDecode(_, _, _) => TrailersAnswered(c, m, hpack);
      case DoResponse(frames, _) => DeliverKeeps(c, frames, false);
      case _ =>
    }
  }

  lemma FlowPop(sid: U32, sent: seq<ToConn>, queue: seq<ToConn>, inFlight: nat, inbox: seq<ToStream>, responses: nat, replied: bool, late: nat,
                launched: bool, answer: seq<ToStream>)
    requires Flow(sid, sent, queue, inFlight, inbox, responses, replied, late) && queue != []
    requires launched <==> queue[0].RequestForDispatch? && queue[0].sid == sid
    requires |answer| <= 1 && (answer != [] ==> Mine(queue[0], sid) && AnswerTo(queue[0], answer[0]))
    ensures Flow(sid, sent, queue[1..], inFlight + (if launched then 1 else 0), inbox + answer, responses, replied, late)
  {
    hide Num, Waiting;
    NumTail(queue, KDispatch, sid);
    NumTail(queue, KHeaders, sid);
    NumTail(queue, KTrailers, sid);
    if answer == [] {
      assert inbox + answer == inbox;
    } else {
      assert answer == [answer[0]];
      WaitingAppend(inbox, answer[0], GotResponse);
      WaitingAppend(inbox, answer[0], GotHeaders);
      WaitingAppend(inbox, answer[0], GotTrailers);
    }
  }

  /** A message other than a frame goes to the end of the inbox and changes nothing else. */
  lemma AnswerPosted(t: Task, m: ToStream, at: nat)
    requires LocalInv(t) && !m.FrameForRequest?
    ensures Receive(t, m, at) == t.(inbox := t.inbox + [m])
    ensures LocalInv(t.(inbox := t.inbox + [m]))
  {
    hide BlockPlaced, HeaderProgress, HeaderMessage, RequestInv, FlowInv, PhaseOk, InboxFrames;
    InboxAppend(t.inbox, m);
    assert InboxFrames(t.inbox) + [] == InboxFrames(t.inbox);
  }

  lemma AnswerFits(t: Task, m: ToConn, answer: ToStream)
    requires LocalInv(t) && m in t.h.sent && AnswerTo(m, answer)
    ensures AnswerOk(answer, t.s.declared)
  {
    hide BlockInv, RequestOk, DispatchOk, SecondOk, FlowInv, NoPseudo, Dispatchable;
    var i :| 0 <= i < |t.h.sent| && t.h.sent[i] == m;
  }

  function Posted(t: Task, answer: seq<ToStream>, at: nat): Task {
    if answer == [] then t else Receive(t, answer[0], at)
  }

  lemma PostedAnswer(t: Task, m: ToConn, answer: seq<ToStream>, at: nat)
    requires LocalInv(t) && m in t.h.sent && InboxOk(t.inbox, t.s.declared)
    requires |answer| <= 1 && (answer != [] ==> AnswerTo(m, answer[0]))
    ensures Posted(t, answer, at) == t.(inbox := t.inbox + answer)
    ensures LocalInv(t.(inbox := t.inbox + answer)) && InboxOk(t.inbox + answer, t.s.declared)
  {
    hide AnswerOk, Receive, LocalInv;
    if answer == [] {
      NothingPosted(t, answer, at);
    } else {
      AnswerFits(t, m, answer[0]);
      AnswerPosted(t, answer[0], at);
      assert answer == [answer[0]];
    }
  }

  lemma PopStream(t: Task, sid: U32, queue: seq<ToConn>, inFlight: nat, tokens: set<U32>, tokens1: set<U32>, received: seq<Frame>,
                  launched: bool, answer: seq<ToStream>)
    requires StreamOk(t, sid, queue, inFlight, tokens, received) && queue != [] && tokens <= tokens1
    requires launched <==> queue[0].RequestForDispatch? && queue[0].sid == sid
    requires |answer| <= 1 && (answer != [] ==> Mine(queue[0], sid) && AnswerTo(queue[0], answer[0]))
    ensures StreamOk(Posted(t, answer, |received|), sid, queue[1..], inFlight + (if launched then 1 else 0), tokens1, received)
    ensures Posted(t, answer, |received|) == t.(inbox := t.inbox + answer)
  {
    hide LocalInv, Flow, BlockReceived, InboxOk, AnswerTo, Posted;
    FlowPop(sid, t.h.sent, queue, inFlight, t.inbox, t.h.responses, t.h.reply.Some?, |t.h.lateReplies|, launched, answer);
    assert QueuedWasSent(sid, t.h.sent, queue[1..]);
    if answer == [] {
      NothingPosted(t, answer, |received|);
    } else {
      PostedAnswer(t, queue[0], answer, |received|);
    }
  }

  lemma NothingPosted(t: Task, answer: seq<ToStream>, at: nat)
    requires answer == []
    ensures Posted(t, answer, at) == t == t.(inbox := t.inbox + answer)
  {
    assert t.inbox + answer == t.inbox;
  }

  function AnswerFor(o: Outcome, sid: U32): seq<ToStream> {
    if o.post.Some? && o.post.value.0 == sid then [o.post.value.1] else []
  }

  lemma HandleAt(y: Sys, hpack: Hpack, sid: U32)
    requires y.queue != [] && Listening(y.conn) && sid in y.tasks && At(y, sid) && sid in y.conn.ctx.channels
    ensures sid in OnHandle(y, hpack).tasks && At(OnHandle(y, hpack), sid)
  {
    hide OnMessage, StreamOk, Receive, AnswerTo;
    var o := OnMessage(y.conn, y.queue[0], hpack);
    MessageHandled(y.conn, y.queue[0], hpack);
    PopStream(y.tasks[sid], sid, y.queue, Outstanding(y, sid), y.conn.ctx.tokens, o.conn.ctx.tokens, y.received, o.launch == Some(sid), AnswerFor(o, sid));
    assert OnHandle(y, hpack).tasks[sid] == Posted(y.tasks[sid], AnswerFor(o, sid), |y.received|);
  }

  lemma HandleJoint(y: Sys, hpack: Hpack)
    requires Joint(y) && y.queue != [] && Listening(y.conn)
    ensures Joint(OnHandle(y, hpack))
  {
    assert y.tasks.Keys == y.conn.ctx.channels;
    hide At, Skeleton, OnHandle;
    HandleSkeleton(y, hpack);
    forall sid | sid in OnHandle(y, hpack).tasks ensures At(OnHandle(y, hpack), sid) {
      HandleAt(y, hpack, sid);
    }
  }

  lemma HandleSkeleton(y: Sys, hpack: Hpack)
    requires Skeleton(y) && y.queue != []
    ensures Skeleton(OnHandle(y, hpack)) && OnHandle(y, hpack).tasks.Keys == y.tasks.Keys
  {
    hide OnMessage, AnswerTo, Receive, GateOk, Post, NewlyRaised;
    MessageHandled(y.conn, y.queue[0], hpack);
    PostKeys(y.tasks, OnMessage(y.conn, y.queue[0], hpack).post, |y.received|);
    GateFollows(y.conn.ctx, OnMessage(y.conn, y.queue[0], hpack).conn.ctx);
  }

  lemma PostKeys(tasks: map<U32, Task>, post: Option<(U32, ToStream)>, at: nat)
    ensures Post(tasks, post, at).Keys == tasks.Keys
  {
    hide Receive;
  }

  lemma GateFollows(ctx: ConnContext, ctx1: ConnContext)
    requires GateOk(ctx) && ctx1.channels == ctx.channels && ctx1.gate == ctx.gate && ctx1.goAway == ctx.goAway
    ensures GateOk(ctx1)
  {}

  // ---- the connection takes a frame ----

  function GateAfter(gate: Option<U32>, f: Frame): Option<U32> {
    if f.ty.Headers? && gate.None? && !f.HasEndHeaders() then Some(f.sid)
    else if f.ty.Continuation? && f.HasEndHeaders() && gate == Some(f.sid) then None
    else gate
  }

  /** What the pipeline of the frame handlers guarantees about a frame it lets through. */
  lemma HandleFacts(ctx: ConnContext, f: Frame)
    ensures var p := ConnectionModel.Handle(ctx, f);
      && (p.Processed? ==>
            && p.ctx.channels == ctx.channels && p.ctx.tokens == ctx.tokens && p.ctx.error == ctx.error
            && p.ctx.gate == GateAfter(ctx.gate, f)
            && (!f.ty.GoAway? ==> p.ctx.goAway == ctx.goAway)
            && p.frame == Seen(f) && Checked(Seen(f), f.sid))
      && (p.Rejected? ==> p.error.ConnectionError? || (p.error.StreamError? && p.error.sid == f.sid))
  {
    hide Get32, HeadersPayload.Decode, Settings.Apply, Settings.Verdict, Goaway.DecodePayload, CommonFault;
    SettingsFault(f);
  }

  lemma {:induction false} FirstFaultKind(ps: seq<Settings.Parameter>)
    ensures Settings.FirstFault(ps).Some? ==> Settings.FirstFault(ps).value.ConnectionError?
  {
    if ps != [] {
      FirstFaultKind(ps[1..]);
    }
  }

  lemma SettingsFault(f: Frame)
    ensures Settings.Verdict(f.sid, f.payload).Some? ==> Settings.Verdict(f.sid, f.payload).value.ConnectionError?
    ensures CommonFault(f).Some? ==> CommonFault(f).value.ConnectionError? || (CommonFault(f).value.StreamError? && CommonFault(f).value.sid == f.sid)
  {
    FirstFaultKind(Settings.KnownAll(Settings.Decode(f.payload)));
  }
}
