/** What a stream is given is settled by the frames received, whatever the schedule; so are its block and its request. */
module Confluence {
  import opened Wrappers
  import opened Bytes
  import opened Frames
  import opened Messages
  import opened RequestContext
  import opened StreamModel
  import opened ConnectionModel
  import opened System
  import opened StreamInvariant
  import opened SystemInvariant
  import ConnectionRules
  import SystemArrive
  import DecodedAnswers
  import Guarantees
  import Reading
  import StreamReceive
  import Complaints
  import RequestRuns
  import HeaderBlock
  import Goaway

  // ---- the frames a stream deserves ----

  /** The id that a GOAWAY the connection accepts tells it. */
  function Announced(f: Frame): Option<U32> {
    if f.ty.GoAway? && f.sid == 0 && |f.payload| <= MAX_FRAME_SIZE && Goaway.DecodePayload(f.payload).Some?
    then Some(Goaway.DecodePayload(f.payload).value.0) else None
  }

  function GoAwayAfter(received: seq<Frame>): Option<U32> {
    if received == [] then None
    else
      var id := Announced(received[|received| - 1]);
      if id.Some? then id else GoAwayAfter(received[..|received| - 1])
  }

  predicate Meant(goAway: Option<U32>, f: Frame, sid: U32) {
    f.sid == sid && ConnectionRules.ForStreams(f) && (goAway.None? || sid <= goAway.value)
  }

  /** The stream's frames among those received, but for what the client's GOAWAY hides; a function of these frames alone. */
  function Deserved(received: seq<Frame>, sid: U32): seq<Frame> {
    if received == [] then []
    else
      var (before, f) := (received[..|received| - 1], received[|received| - 1]);
      Deserved(before, sid) + (if Meant(GoAwayAfter(before), f, sid) then [Seen(f)] else [])
  }

  lemma {:induction false} DeservedMore(received: seq<Frame>, f: Frame, sid: U32)
    ensures Deserved(received + [f], sid) == Deserved(received, sid) + (if Meant(GoAwayAfter(received), f, sid) then [Seen(f)] else [])
    ensures GoAwayAfter(received + [f]) == if Announced(f).Some? then Announced(f) else GoAwayAfter(received)
  {
    assert (received + [f])[..|received|] == received;
  }

  lemma {:induction false} DeservedGrows(a: seq<Frame>, b: seq<Frame>, sid: U32)
    requires a <= b
    ensures Deserved(a, sid) <= Deserved(b, sid)
    decreases |b|
  {
    if a != b {
      assert a <= b[..|b| - 1];
      DeservedGrows(a, b[..|b| - 1], sid);
    }
  }

  // ---- the invariant ----

  /** A stream has been given a beginning of what it deserves, and all of it as long as it is served. */
  predicate Given(c: Conn, t: Task, sid: U32, received: seq<Frame>) {
    && t.h.forwarded <= Deserved(received, sid)
    && (Served(c, t, sid) ==> t.h.forwarded == Deserved(received, sid))
  }

  /** The connection goes on. */
  predicate Unbroken(c: Conn) {
    c.status.Running? && (c.ctx.error.Some? ==> !c.ctx.error.value.ConnectionError?)
  }

  ghost predicate AllGiven(y: Sys) {
    && (forall sid :: sid in y.tasks ==> Given(y.conn, y.tasks[sid], sid, y.received))
    && (y.conn.status.Running? ==> y.conn.ctx.goAway == GoAwayAfter(y.received))
    && (Unbroken(y.conn) ==> forall sid: U32 :: sid != 0 && sid !in y.tasks ==> Deserved(y.received, sid) == [])
  }

  lemma InitGiven(y: Sys)
    requires Init(y)
    ensures AllGiven(y)
  {}

  // ---- a frame arrives ----

  lemma GoAwayTaken(c: Conn, f: Frame)
    requires OnFrame(c, f).conn.status.Running?
    ensures OnFrame(c, f).conn.ctx.goAway == if Announced(f).Some? then Announced(f) else c.ctx.goAway
  {
    hide Get32, HandleSettings, HandlePing, HandlePriority, HandleWindowUpdate, HandleHeaders, HandleContinuation, HandleData, HandleRstStream,
      Writable, Goaway.DecodePayload;
    HandledGoAway(c.ctx, f);
    HandledGoAway(ConnectionRules.ContextOf(c.ctx, f), f);
    hide ConnectionModel.Handle;
  }

  lemma HandledGoAway(ctx: ConnContext, f: Frame)
    ensures ConnectionModel.Handle(ctx, f).Processed? ==>
      ConnectionModel.Handle(ctx, f).ctx.goAway == if Announced(f).Some? then Announced(f) else ctx.goAway
    ensures Announced(f).Some? ==> ConnectionModel.Handle(ctx, f).Processed?
  {
    hide Get32, Goaway.DecodePayload;
  }

  /** A frame a stream deserves reaches it, or raises an error that cuts it off; nothing else reaches it. */
  predicate Reaches(c: Conn, f: Frame, o: Outcome) {
    && (o.post.Some? ==> Meant(c.ctx.goAway, f, f.sid))
    && (o.post.None? && o.conn.status.Running? && Meant(c.ctx.goAway, f, f.sid) ==> SystemArrive.Cuts(o.conn.ctx.error, f.sid))
    && (Unbroken(o.conn) && Meant(c.ctx.goAway, f, f.sid) ==> f.sid in o.conn.ctx.channels)
  }

  lemma FrameReaches(c: Conn, f: Frame)
    requires GateOk(c.ctx) && 0 !in c.ctx.channels && f.sid != 0
    ensures Reaches(c, f, OnFrame(c, f))
  {
    HandleFacts(c.ctx, f);
    HandleFacts(ConnectionRules.ContextOf(c.ctx, f), f);
    ConnectionRules.AckKeeps();
    hide ConnectionModel.Handle, SendAck, Seen, Checked;
  }

  lemma ArriveTask(y: Sys, f: Frame, sid: U32)
    requires sid in OnArrive(y, f).tasks
    ensures var (o, at) := (OnFrame(y.conn, f), |y.received|);
      var was := if o.created == Some(sid) then NewTask(sid) else if sid in y.tasks then y.tasks[sid] else NewTask(sid);
      OnArrive(y, f).tasks[sid] == if o.post.Some? && o.post.value.0 == sid then Receive(was, o.post.value.1, at) else was
  {
    hide OnFrame, Receive, NewTask;
  }

  lemma GivenFrame(t: Task, f: Frame, at: nat)
    ensures var t1 := Receive(t, FrameForRequest(f), at);
      t1.cancelled == t.cancelled && t1.h.forwarded == if t.cancelled then t.h.forwarded else t.h.forwarded + [f]
  {}

  lemma {:induction false} NamedAfter(c: Conn, was: Task, f: Frame, o: Outcome, received: seq<Frame>)
    requires Listening(c) && c.ctx.goAway == GoAwayAfter(received) && Given(c, was, f.sid, received)
    requires SystemArrive.FrameEffect(c, f, o) && Reaches(c, f, o)
    ensures Given(o.conn, if o.post.Some? then Receive(was, o.post.value.1, |received|) else was, f.sid, received + [f])
  {
    hide Receive, Seen, Checked, GateOk, GateAfter, GateAllows, Deserved, GoAwayAfter;
    DeservedMore(received, f, f.sid);
    if o.post.Some? {
      GivenFrame(was, Seen(f), |received|);
    }
  }

  /** The stream the frame names. */
  lemma NamedGiven(y: Sys, f: Frame)
    requires Skeleton(y) && AllGiven(y) && Listening(y.conn) && f.sid in OnArrive(y, f).tasks
    ensures Given(OnArrive(y, f).conn, OnArrive(y, f).tasks[f.sid], f.sid, y.received + [f])
  {
    hide OnFrame, Receive, NewTask, Skeleton, SystemArrive.FrameEffect, Reaches, Seen, Deserved, GoAwayAfter, Given, Post, Spawn;
    var (o, sid) := (OnFrame(y.conn, f), f.sid);
    SystemArrive.ArriveSkeleton(y, f);
    NamedNow(y, f);
    ArriveTask(y, f, sid);
    var was := if o.created == Some(sid) then NewTask(sid) else if sid in y.tasks then y.tasks[sid] else NewTask(sid);
    if o.created == Some(sid) {
      NewGiven(y.conn, sid, y.received);
    }
    NamedAfter(y.conn, was, f, o, y.received);
  }

  /** What is known of the frame and of the stream it names. */
  lemma NamedNow(y: Sys, f: Frame)
    requires Skeleton(y) && Listening(y.conn) && f.sid in OnArrive(y, f).tasks
    ensures f.sid != 0 && Reaches(y.conn, f, OnFrame(y.conn, f))
    ensures var o := OnFrame(y.conn, f);
      && (o.created.Some? ==> o.created.value == f.sid && f.sid !in y.tasks)
      && (o.created.None? ==> f.sid in y.tasks)
      && (o.post.Some? ==> o.post.value.0 == f.sid)
  {
    hide OnFrame, OnArrive, Reaches, Seen, Checked, GateOk, GateAfter;
    SystemArrive.ArriveSkeleton(y, f);
    assert f.sid != 0;
    FrameReaches(y.conn, f);
  }

  lemma {:induction false} NewGiven(c: Conn, sid: U32, received: seq<Frame>)
    requires Deserved(received, sid) == []
    ensures Given(c, NewTask(sid), sid, received)
  {}

  /** Any other stream. */
  lemma OtherGiven(y: Sys, f: Frame, sid: U32)
    requires Skeleton(y) && Listening(y.conn) && sid in y.tasks && sid != f.sid && Given(y.conn, y.tasks[sid], sid, y.received)
    ensures sid in OnArrive(y, f).tasks && Given(OnArrive(y, f).conn, OnArrive(y, f).tasks[sid], sid, y.received + [f])
  {
    hide OnFrame, Receive, NewTask, Skeleton, Deserved, GoAwayAfter, Seen, Checked, GateOk, GateAfter, Served;
    SystemArrive.ArriveSkeleton(y, f);
    ArriveTask(y, f, sid);
    DeservedMore(y.received, f, sid);
    var o := OnFrame(y.conn, f);
    if Served(o.conn, y.tasks[sid], sid) {
      SystemArrive.ServedBefore(y.conn, y.tasks[sid], sid, f, o);
    }
    assert Deserved(y.received, sid) + [] == Deserved(y.received, sid);
  }

  /** A stream that does not exist after the frame. */
  lemma AbsentDeserves(y: Sys, f: Frame, sid: U32)
    requires Skeleton(y) && AllGiven(y) && Listening(y.conn) && sid != 0 && sid !in OnArrive(y, f).tasks && Unbroken(OnArrive(y, f).conn)
    ensures Deserved(y.received + [f], sid) == []
  {
    hide OnFrame, Receive, NewTask, Deserved, GoAwayAfter, Seen, Checked, GateOk, GateAfter;
    SystemArrive.ArriveSkeleton(y, f);
    DeservedMore(y.received, f, sid);
    if sid == f.sid {
      FrameReaches(y.conn, f);
    }
  }

  lemma ArriveGiven(y: Sys, f: Frame)
    requires Skeleton(y) && AllGiven(y) && Listening(y.conn)
    ensures AllGiven(OnArrive(y, f))
  {
    hide OnFrame, Receive, NewTask, Skeleton, Deserved, Seen, Given, SystemArrive.FrameEffect, Post, Spawn, Announced;
    SystemArrive.ArriveSkeleton(y, f);
    forall sid | sid in OnArrive(y, f).tasks ensures Given(OnArrive(y, f).conn, OnArrive(y, f).tasks[sid], sid, y.received + [f]) {
      if sid == f.sid {
        NamedGiven(y, f);
      } else {
        OtherGiven(y, f, sid);
      }
    }
    if OnArrive(y, f).conn.status.Running? {
      GoAwayTaken(y.conn, f);
      DeservedMore(y.received, f, f.sid);
    }
    if Unbroken(OnArrive(y, f).conn) {
      forall sid: U32 | sid != 0 && sid !in OnArrive(y, f).tasks ensures Deserved(y.received + [f], sid) == [] {
        AbsentDeserves(y, f, sid);
      }
    }
  }

  // ---- the other events ----

  /** No stream is forwarded anything, created or served again. */
  ghost predicate Withheld(y: Sys, y1: Sys) {
    && y1.received == y.received && y1.tasks.Keys == y.tasks.Keys
    && (forall sid :: sid in y.tasks ==> y1.tasks[sid].h.forwarded == y.tasks[sid].h.forwarded)
    && (forall sid :: sid in y.tasks && Served(y1.conn, y1.tasks[sid], sid) ==> Served(y.conn, y.tasks[sid], sid))
    && (y1.conn.status.Running? ==> y.conn.status.Running? && y1.conn.ctx.goAway == y.conn.ctx.goAway)
    && (Unbroken(y1.conn) ==> Unbroken(y.conn))
  }

  lemma WithheldGiven(y: Sys, y1: Sys)
    requires AllGiven(y) && Withheld(y, y1)
    ensures AllGiven(y1)
  {
    hide Deserved, GoAwayAfter, Served, Unbroken;
    forall sid | sid in y1.tasks ensures Given(y1.conn, y1.tasks[sid], sid, y1.received) {
      assert Given(y.conn, y.tasks[sid], sid, y.received);
    }
  }

  predicate Forwarded(t: Task, t1: Task) {
    t1.h.forwarded == t.h.forwarded && t1.cancelled == t.cancelled
  }

  lemma ConsumedForwards(s: Stream, h: History, m: ToStream)
    ensures Consumed(s, h, m).forwarded == h.forwarded
  {
    hide HandleFrame;
  }

  lemma ReceiveForwards(t: Task)
    requires t.inbox != []
    ensures Forwarded(t, ReceiveStep(t).task)
  {
    hide React, Consumed;
    ConsumedForwards(t.s, t.h, t.inbox[0]);
  }

  lemma AdvanceForwards(t: Task, m: Move, phase: Phase)
    ensures Forwarded(t, Advance(t, m, phase).task)
  {}

  lemma StepForwards(t: Task, cancelled: bool)
    requires CanStep(t, cancelled)
    ensures Forwarded(t, TaskStep(t, cancelled).task)
  {
    hide CompositeHeaders, CompositeTrailers, DispatchIfNeeded, StreamModel.Respond, ReceiveStep, Advance, MessageFrames;
    match t.phase {
      case AtHeaders => AdvanceForwards(t, CompositeHeaders(t.s), AtTrailers);
      case AtTrailers => AdvanceForwards(t, CompositeTrailers(t.s), AtDispatch);
      case AtDispatch => AdvanceForwards(t, DispatchIfNeeded(t.s), AtRespond);
      case AtRespond => AdvanceForwards(t, StreamModel.Respond(t.s), AtReceive);
      case AtReceive =>
        if !cancelled {
          ReceiveForwards(t);
        }
      case _ =>
    }
  }

  lemma PostedForwards(t: Task, m: ToStream, at: nat)
    requires !m.FrameForRequest?
    ensures Forwarded(t, Receive(t, m, at))
  {}

  lemma StepWithheld(y: Sys, sid: U32)
    requires sid in y.tasks && CanStep(y.tasks[sid], Cancelled(y, sid))
    ensures Withheld(y, OnStep(y, sid))
  {
    hide TaskStep, CanStep;
    StepForwards(y.tasks[sid], Cancelled(y, sid));
  }

  lemma HandleForwards(y: Sys, hpack: Hpack, sid: U32)
    requires y.queue != [] && sid in y.tasks
    ensures OnHandle(y, hpack).tasks.Keys == y.tasks.Keys && Forwarded(y.tasks[sid], OnHandle(y, hpack).tasks[sid])
  {
    hide OnMessage, Receive, NewlyRaised, Launch;
    var o := OnMessage(y.conn, y.queue[0], hpack);
    MessageHandled(y.conn, y.queue[0], hpack);
    if o.post.Some? && o.post.value.0 in y.tasks {
      PostedForwards(y.tasks[o.post.value.0], o.post.value.1, |y.received|);
    }
  }

  lemma HandleWithheld(y: Sys, hpack: Hpack)
    requires y.queue != [] && Listening(y.conn)
    ensures Withheld(y, OnHandle(y, hpack))
  {
    hide OnMessage, Post, NewlyRaised, Launch;
    MessageHandled(y.conn, y.queue[0], hpack);
    PostKeys(y.tasks, OnMessage(y.conn, y.queue[0], hpack).post, |y.received|);
    forall sid | sid in y.tasks ensures Forwarded(y.tasks[sid], OnHandle(y, hpack).tasks[sid]) {
      HandleForwards(y, hpack, sid);
    }
  }

  lemma ReplyWithheld(y: Sys, sid: U32, r: Response)
    requires sid in y.tasks
    ensures Withheld(y, OnReply(y, sid, r))
  {
    hide Receive;
    PostedForwards(y.tasks[sid], ResponseObject(r.0, r.1), |y.received|);
  }

  /** The stream of an error that is answered is cancelled by then. */
  lemma AnsweredServed(c: Conn, t: Task, sid: U32, o: Outcome)
    requires c.ctx.error.Some? && SystemArrive.ErrorEffect(c, o) && (sid in c.ctx.tokens || t.cancelled)
    requires Served(o.conn, if o.cancel == Some(sid) then t.(cancelled := true) else t, sid)
    ensures Served(c, t, sid)
  {}

  lemma AnswerWithheld(y: Sys)
    requires Joint(y) && y.conn.status.Running? && y.conn.ctx.error.Some?
    ensures Withheld(y, OnAnswer(y))
  {
    hide AnswerError, At, Served, Skeleton;
    SystemArrive.ErrorAnswered(y.conn);
    var o := AnswerError(y.conn);
    forall sid | sid in y.tasks && Served(o.conn, OnAnswer(y).tasks[sid], sid) ensures Served(y.conn, y.tasks[sid], sid) {
      TokenHeld(y, sid);
      AnsweredServed(y.conn, y.tasks[sid], sid, o);
    }
  }

  lemma TokenHeld(y: Sys, sid: U32)
    requires sid in y.tasks && At(y, sid)
    ensures sid in y.conn.ctx.tokens || y.tasks[sid].cancelled
  {
    hide LocalInv, Flow, QueuedWasSent, InboxOk, BlockReceived, BlockAtGate;
  }

  lemma NextGiven(y: Sys, e: Event)
    requires Joint(y) && AllGiven(y) && Enabled(y, e)
    ensures AllGiven(Next(y, e))
  {
    hide Skeleton, At, AllGiven, OnArrive, OnAnswer, OnHandle, OnStep, OnReply, TaskStep;
    match e {
      case Arrive(f) => ArriveGiven(y, f);
      case Answer => AnswerWithheld(y);
      case Handle(hpack) => HandleWithheld(y, hpack);
      case Step(sid) => StepWithheld(y, sid);
      case Reply(sid, encoded, body) => ReplyWithheld(y, sid, (encoded, body));
      case _ =>
    }
    if !e.Arrive? {
      WithheldGiven(y, Next(y, e));
    }
  }

  lemma {:induction false} RunGiven(y0: Sys, events: seq<Event>, y: Sys)
    requires Joint(y0) && AllGiven(y0) && Run(y0, events, y)
    ensures AllGiven(y)
    decreases events
  {
    hide Joint, AllGiven, Next, Enabled, Trace;
    if events != [] {
      var n := |events| - 1;
      var mid := LastEvent(y0, events, y);
      RunGiven(y0, events[..n], mid);
      SystemArrive.RunJoint(y0, events[..n], mid);
      NextGiven(mid, events[n]);
    }
  }

  lemma ReachableGiven(y: Sys)
    requires Reachable(y)
    ensures AllGiven(y)
  {
    hide Joint, AllGiven, Init, Run;
    var y0, events :| Init(y0) && Run(y0, events, y);
    InitJoint(y0);
    InitGiven(y0);
    RunGiven(y0, events, y);
  }

  lemma {:induction false} DeservedForStreams(received: seq<Frame>, sid: U32)
    ensures forall f :: f in Deserved(received, sid) ==> ConnectionRules.ForStreams(f)
  {
    hide GoAwayAfter;
    if received != [] {
      DeservedForStreams(received[..|received| - 1], sid);
    }
  }

  /**
   * In every reachable state a stream that takes a frame accepts it if its type is allowed and its increment fits 32 bits,
   * and otherwise changes nothing and is about to report the error that the rule for the frame gives.
   */
  lemma FramesAreJudged(y: Sys, sid: U32)
    requires Reachable(y) && sid in y.tasks && y.tasks[sid].phase.AtReceive? && !Cancelled(y, sid)
    requires y.tasks[sid].inbox != [] && y.tasks[sid].inbox[0].FrameForRequest?
    ensures Enabled(y, Step(sid))
    ensures var (t, f, t1) := (y.tasks[sid], y.tasks[sid].inbox[0].frame, Next(y, Step(sid)).tasks[sid]);
      if Complaints.Welcome(t.s, f)
      then t1.h.accepted == t.h.accepted + [f] && t1.phase.AtReport? && t1.phase.message.ActiveStreamCount?
      else t1.h.accepted == t.h.accepted && t1.s == t.s && t1.phase == AtReport(Failure(Complaints.Complaint(t.s, f)))
  {
    hide Reachable, LocalInv, TaskStep, SystemInvariant.BlockReceived, Deserved, Served, GoAwayAfter, Unbroken, Complaints.Welcome,
      Complaints.Complaint, Checked;
    var t := y.tasks[sid];
    Guarantees.TaskInv(y, sid);
    ReachableGiven(y);
    assert Given(y.conn, t, sid, y.received);
    DeservedForStreams(y.received, sid);
    FrameNext(t);
    assert t.inbox[0].frame == Deserved(y.received, sid)[t.h.taken];
    assert ConnectionRules.ForStreams(t.inbox[0].frame);
    Complaints.FrameJudged(t);
  }

  lemma FrameNext(t: Task)
    requires LocalInv(t) && t.phase.AtReceive? && !t.cancelled && t.inbox != [] && t.inbox[0].FrameForRequest?
    ensures t.h.taken < |t.h.forwarded| && t.h.forwarded[t.h.taken] == t.inbox[0].frame && Checked(t.inbox[0].frame, t.s.id)
  {
    hide LocalInv, BlockInv, RequestInv, FlowInv, ContentInv, Logged, BlockPlaced, HeaderProgress, Checked;
    Parts(t);
    Reading.FrameTurn(t);
    StreamReceive.BlockParts(t.s, t.phase, t.inbox, t.h);
    StreamReceive.LoggedChecked(t.s.id, t.h.forwarded, t.h.taken, t.inbox, false, t.h.taken);
  }

  // ---- the same frames, another schedule ----

  /** Two states, perhaps of different runs, of which the second has received at least what the first has. */
  ghost predicate MoreReceived(y: Sys, z: Sys, sid: U32) {
    Reachable(y) && Reachable(z) && y.received <= z.received && sid in y.tasks && sid in z.tasks
  }

  predicate Comparable<T(==)>(a: seq<T>, b: seq<T>) {
    a <= b || b <= a
  }

  lemma BothForwarded(y: Sys, z: Sys, sid: U32)
    requires MoreReceived(y, z, sid)
    ensures Comparable(y.tasks[sid].h.forwarded, z.tasks[sid].h.forwarded)
  {
    hide Reachable, Deserved, Served, GoAwayAfter, Unbroken;
    ReachableGiven(y);
    ReachableGiven(z);
    assert Given(y.conn, y.tasks[sid], sid, y.received) && Given(z.conn, z.tasks[sid], sid, z.received);
    DeservedGrows(y.received, z.received, sid);
  }

  /** Two frame lists one of which begins the other have the same first block, if both have it whole. */
  lemma OneFirstBlock(a: seq<Frame>, first: nat, block: seq<Frame>, b: seq<Frame>, first1: nat, block1: seq<Frame>)
    requires BlockPlaced(a, first, block, true) && BlockPlaced(b, first1, block1, true) && Comparable(a, b)
    ensures block == block1
  {
    assert a[first] == block[0] && b[first1] == block1[0];
    assert first == first1;
    var n := if |block| < |block1| then |block| else |block1|;
    forall k | 0 <= k < n ensures block[k] == block1[k] {
      assert block[k] == a[first + k] && block1[k] == b[first + k];
    }
    assert block[n - 1] == block1[n - 1];
  }

  lemma AskedPlaced(t: Task, i: nat)
    requires LocalInv(t) && i < |t.h.sent| && t.h.sent[i].HeadersToDecode?
    ensures BlockPlaced(t.h.forwarded, t.h.first, t.h.block, true) && t.h.sent[i] == HeadersToDecode(Fragments(t.h.block), t.s.id)
  {
    hide RequestInv, FlowInv, ContentInv, HeaderProgress, PhaseOk, BlockPlaced, Num, Fragments, AllFragments;
  }

  /** Whatever the schedule, a stream asks for the same header block. */
  lemma SameBlock(y: Sys, z: Sys, sid: U32, i: nat, j: nat)
    requires MoreReceived(y, z, sid)
    requires i < |y.tasks[sid].h.sent| && y.tasks[sid].h.sent[i].HeadersToDecode?
    requires j < |z.tasks[sid].h.sent| && z.tasks[sid].h.sent[j].HeadersToDecode?
    ensures y.tasks[sid].h.sent[i] == z.tasks[sid].h.sent[j]
  {
    hide Reachable, LocalInv, BlockPlaced, SystemInvariant.BlockReceived, Comparable;
    BothForwarded(y, z, sid);
    Guarantees.TaskInv(y, sid);
    Guarantees.TaskInv(z, sid);
    var (t, u) := (y.tasks[sid], z.tasks[sid]);
    AskedPlaced(t, i);
    AskedPlaced(u, j);
    OneFirstBlock(t.h.forwarded, t.h.first, t.h.block, u.h.forwarded, u.h.first, u.h.block);
  }

  /** What both streams have read, one reading at least as long as the other. */
  lemma BothRead(y: Sys, z: Sys, sid: U32, trailers: bool)
    requires MoreReceived(y, z, sid)
    requires Reading.Possible(y.tasks[sid].h, trailers) && Reading.Possible(z.tasks[sid].h, trailers)
    ensures var (h, k) := (y.tasks[sid].h, z.tasks[sid].h);
      && h.taken <= |h.forwarded| && k.taken <= |k.forwarded|
      && Comparable(h.forwarded[..h.taken], k.forwarded[..k.taken])
      && Reading.Agrees(h, Reading.ReadAll(h.forwarded[..h.taken], trailers))
      && Reading.Agrees(k, Reading.ReadAll(k.forwarded[..k.taken], trailers))
  {
    hide Reachable, Reading.Agrees, Reading.Possible, Reading.ReadAll;
    BothForwarded(y, z, sid);
    RequestRuns.HistoryIsReading(y, sid);
    RequestRuns.HistoryIsReading(z, sid);
  }

  lemma TrailersAsked(t: Task, i: nat)
    requires LocalInv(t) && i < |t.h.sent| && t.h.sent[i].TrailersToDecode? && !t.h.stray && !t.h.extra
    ensures t.h.sent[i].payload == Fragments(t.h.trailerBlock) && t.h.sent[i].sid == t.s.id
    ensures CountHeaders(t.h.accepted) == 2 && Reading.Whole(t.h.trailerBlock) && Reading.Possible(t.h, true)
  {
    Parts(t);
    NoneSent(t.h.sent, KTrailers, t.s.id);
    hide LocalInv, BlockInv, FlowInv, DispatchOk, SecondOk, BodyOk, Dispatchable, NoPseudo, MergeAll, Num, Complained, Fragments, AllFragments;
  }

  /** Nor does the schedule show in the trailer block, as long as nothing came behind its end. */
  lemma SameTrailers(y: Sys, z: Sys, sid: U32, i: nat, j: nat)
    requires MoreReceived(y, z, sid)
    requires !y.tasks[sid].h.stray && !y.tasks[sid].h.extra && !z.tasks[sid].h.stray && !z.tasks[sid].h.extra
    requires i < |y.tasks[sid].h.sent| && y.tasks[sid].h.sent[i].TrailersToDecode?
    requires j < |z.tasks[sid].h.sent| && z.tasks[sid].h.sent[j].TrailersToDecode?
    ensures y.tasks[sid].h.sent[i].payload == z.tasks[sid].h.sent[j].payload
  {
    hide Reachable, LocalInv, Reading.ReadAll, SystemInvariant.BlockReceived, Reading.Whole, Reading.Possible, CountHeaders, AnyEnd, AnyReset, DataFrames, Fragments;
    Guarantees.TaskInv(y, sid);
    Guarantees.TaskInv(z, sid);
    TrailersAsked(y.tasks[sid], i);
    TrailersAsked(z.tasks[sid], j);
    BothRead(y, z, sid, true);
    var (a, b) := (Taken(y.tasks[sid]), Taken(z.tasks[sid]));
    if a <= b {
      Reading.BlockSettled(a, b, true);
    } else {
      Reading.BlockSettled(b, a, true);
    }
  }

  function Taken(t: Task): seq<Frame>
    requires t.h.taken <= |t.h.forwarded|
  {
    t.h.forwarded[..t.h.taken]
  }

  /** HPACK gave the same pairs for the header block and for the first trailer block, where it answered both times. */
  predicate SamePairs(y: Sys, z: Sys, sid: U32) {
    var (b, b1) := (BlocksOf(y.log.trailerBlocks, sid), BlocksOf(z.log.trailerBlocks, sid));
    && (sid in y.log.headerBlocks && sid in z.log.headerBlocks ==> y.log.headerBlocks[sid].1 == z.log.headerBlocks[sid].1)
    && (b != [] && b1 != [] ==> b[0].1 == b1[0].1)
  }

  lemma DispatchPossible(t: Task, i: nat)
    requires LocalInv(t) && i < |t.h.sent| && t.h.sent[i].RequestForDispatch?
    ensures t.h.reply.Some? && Reading.Possible(t.h, t.h.reply.value.1 != {})
  {
    hide LocalInv, BuiltFrom, Num, AnyEnd, DataFrames, Complained;
    Guarantees.DispatchFacts(t, i);
    if t.h.reply.value.1 == {} {
      Guarantees.SecondFacts(t);
      NumSome(t.h.sent, KDispatch, t.s.id, i);
    }
  }

  lemma {:induction false} FirstTrailers(blocks: seq<Block>, declared: set<string>)
    ensures |DecodedAnswers.TrailerMaps(blocks, declared)| == |blocks|
    ensures blocks != [] ==> DecodedAnswers.TrailerMaps(blocks, declared)[0] == HeaderBlock.TrailerMap(blocks[0].1, declared)
  {
    if blocks != [] {
      FirstTrailers(blocks[..|blocks| - 1], declared);
    }
  }

  /** The trailers of a dispatched request: none, or what the pairs of the first trailer block say. */
  lemma {:induction false} LateReplies(t: Task, i: nat, trailers: seq<Block>)
    requires LocalInv(t) && i < |t.h.sent| && t.h.sent[i].RequestForDispatch? && |t.h.lateReplies| <= 1
    requires t.h.reply.Some? && t.h.lateReplies <= DecodedAnswers.TrailerMaps(trailers, t.h.reply.value.1)
    ensures t.h.reply.value.1 == {} ==> t.h.lateReplies == []
    ensures t.h.reply.value.1 != {} ==> trailers != [] && t.h.lateReplies == [HeaderBlock.TrailerMap(trailers[0].1, t.h.reply.value.1)]
  {
    hide LocalInv, BuiltFrom, AnyEnd, DataFrames, Num, HeaderBlock.TrailerMap, DecodedAnswers.TrailerMaps;
    Guarantees.DispatchFacts(t, i);
    if t.h.lateReplies != [] {
      AnswersAreDeclared(t);
    }
    FirstTrailers(trailers, t.h.reply.value.1);
  }

  lemma AnswersAreDeclared(t: Task)
    requires LocalInv(t) && t.h.reply.Some? && t.h.lateReplies != []
    ensures t.h.reply.value.1 != {}
  {
    hide BlockInv, FlowInv, ContentInv, DispatchOk, TrailerOk, SecondOk, Dispatchable, MergeAll, Complained, NoPseudo;
    assert NoPseudo(t.h.lateReplies[0]);
  }

  /** The answers a request is completed with: the first, if trailers are declared. */
  function Completing(trailers: seq<Block>, declared: set<string>): seq<Headers> {
    if declared == {} || trailers == [] then [] else [HeaderBlock.TrailerMap(trailers[0].1, declared)]
  }

  /** A dispatched request in terms of HPACK's results and of the frames accepted. */
  predicate Composed(m: ToConn, y: Sys, sid: U32)
    requires sid in y.tasks
  {
    && m.RequestForDispatch? && m.sid == sid && sid in y.log.headerBlocks
    && var (h, ps) := (y.tasks[sid].h, y.log.headerBlocks[sid].1);
      var names := HeaderBlock.DeclaredTrailers(ps);
      && (names != {} ==> BlocksOf(y.log.trailerBlocks, sid) != [])
      && HeaderBlock.WellFormed(ps) && DecodedAnswers.TargetOf(m.ctx, ps)
      && m.ctx.headers == MergeAll(HeaderBlock.HeaderMap(ps), Completing(BlocksOf(y.log.trailerBlocks, sid), names))
      && m.ctx.body == FirstPayload(DataFrames(h.accepted))
      && AnyEnd(h.accepted) && Reading.Possible(h, names != {})
  }

  lemma RequestComposed(y: Sys, sid: U32, i: nat)
    requires Reachable(y) && sid in y.tasks
    requires i < |y.tasks[sid].h.sent| && y.tasks[sid].h.sent[i].RequestForDispatch?
    ensures Composed(y.tasks[sid].h.sent[i], y, sid)
  {
    hide Reachable, LocalInv, SystemInvariant.BlockReceived, Reading.Possible, AnyEnd, DataFrames, MergeAll, BuiltFrom, DecodedAnswers.TargetOf,
      DecodedAnswers.TrailerMaps, DecodedAnswers.TrailersIn, HeaderBlock.HeaderMap, HeaderBlock.DeclaredTrailers, HeaderBlock.TrailerMap,
      HeaderBlock.FieldsOk, HeaderBlock.TrailersOk;
    var (t, trailers) := (y.tasks[sid], BlocksOf(y.log.trailerBlocks, sid));
    Guarantees.TaskInv(y, sid);
    Guarantees.DispatchFacts(t, i);
    DispatchPossible(t, i);
    DecodedAnswers.RequestDecoded(y, sid, i);
    DecodedAnswers.AnswersDecoded(y, sid);
    RequestRuns.TrailersAnsweredOnce(y, sid);
    LateReplies(t, i, trailers);
  }

  /**
   * The request handed to the dispatcher does not depend on the schedule: if in two runs the connection received the
   * same frames, or one more than the other, and HPACK gave the same pairs, then the two requests are the same, in
   * target, headers, trailers and body.
   */
  lemma SameRequest(y: Sys, z: Sys, sid: U32, i: nat, j: nat)
    requires MoreReceived(y, z, sid) && SamePairs(y, z, sid)
    requires i < |y.tasks[sid].h.sent| && y.tasks[sid].h.sent[i].RequestForDispatch?
    requires j < |z.tasks[sid].h.sent| && z.tasks[sid].h.sent[j].RequestForDispatch?
    ensures y.tasks[sid].h.sent[i] == z.tasks[sid].h.sent[j]
  {
    hide Reachable, Reading.ReadAll, Reading.Possible, AnyEnd, AnyReset, CountHeaders, DataFrames, MergeAll, HeaderBlock.HeaderMap,
      HeaderBlock.DeclaredTrailers, HeaderBlock.TrailerMap, HeaderBlock.Lookup, HeaderBlock.FieldsOk, Spells;
    RequestComposed(y, sid, i);
    RequestComposed(z, sid, j);
    SpellsOne(HeaderBlock.Lookup(y.log.headerBlocks[sid].1, ":method").value, y.tasks[sid].h.sent[i].ctx.verb, z.tasks[sid].h.sent[j].ctx.verb);
    var trailers := HeaderBlock.DeclaredTrailers(y.log.headerBlocks[sid].1) != {};
    BothRead(y, z, sid, trailers);
    var (a, b) := (Taken(y.tasks[sid]), Taken(z.tasks[sid]));
    if a <= b {
      Reading.BodySettled(a, b, trailers);
    } else {
      Reading.BodySettled(b, a, trailers);
    }
  }
}
