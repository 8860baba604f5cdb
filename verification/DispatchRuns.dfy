/** From the dispatch request to the response: every request is handed to a handler, and its answer is the one consumed. */
module DispatchRuns {
  import opened Wrappers
  import opened Bytes
  import opened Frames
  import opened Messages
  import opened StreamModel
  import opened ConnectionModel
  import opened System
  import opened StreamInvariant
  import opened SystemInvariant
  import SystemArrive
  import ActiveCount
  import DecodedAnswers

  /**
   * In every run each dispatch request of a stream is in the channel, at a handler, answered with a response that waits
   * or was consumed, or was dropped with its handler's task: none is lost, and none is handed over twice.
   */
  lemma EveryDispatchRuns(y: Sys, sid: U32)
    requires Reachable(y) && sid in y.tasks
    ensures var t := y.tasks[sid];
      Num(t.h.sent, KDispatch, sid)
      == Num(y.queue, KDispatch, sid) + y.running[sid] + Waiting(t.inbox, GotResponse) + t.h.responses + y.log.dropped[sid]
  {
    hide Reachable, Joint, LocalInv, Num, Waiting;
    SystemArrive.ReachableJoint(y);
    DecodedAnswers.TaskFacts(y, sid);
  }

  // ---- the answers ----

  function ResponsesIn(inbox: seq<ToStream>): seq<Response> {
    if inbox == [] then []
    else (if inbox[0].ResponseObject? then [(inbox[0].encodedHeaders, inbox[0].body)] else []) + ResponsesIn(inbox[1..])
  }

  function Consumed1(response: Option<Response>): seq<Response> {
    if response.Some? then [response.value] else []
  }

  /** The response consumed and those waiting are what the handlers answered, in order. */
  predicate Kept(t: Task, replies: seq<Response>) {
    Consumed1(t.h.response) + ResponsesIn(t.inbox) == replies
  }

  ghost predicate AllKept(y: Sys) {
    && y.log.replies.Keys <= y.tasks.Keys
    && forall sid :: sid in y.tasks ==> Kept(y.tasks[sid], RepliesOf(y.log.replies, sid))
  }

  lemma {:induction false} ResponsesAppend(inbox: seq<ToStream>, m: ToStream)
    ensures ResponsesIn(inbox + [m]) == ResponsesIn(inbox) + (if m.ResponseObject? then [(m.encodedHeaders, m.body)] else [])
  {
    if inbox == [] {
      assert [] + [m] == [m] && [m][1..] == [];
    } else {
      assert (inbox + [m])[1..] == inbox[1..] + [m] && (inbox + [m])[0] == inbox[0];
      ResponsesAppend(inbox[1..], m);
      Associate(if inbox[0].ResponseObject? then [(inbox[0].encodedHeaders, inbox[0].body)] else [], ResponsesIn(inbox[1..]),
                if m.ResponseObject? then [(m.encodedHeaders, m.body)] else []);
    }
  }

  lemma {:induction false} ReceiveKept(t: Task, replies: seq<Response>, m: ToStream, at: nat)
    requires Kept(t, replies)
    ensures Kept(Receive(t, m, at), if m.ResponseObject? then replies + [(m.encodedHeaders, m.body)] else replies)
  {
    hide ResponsesIn;
    ResponsesAppend(t.inbox, m);
    Associate(Consumed1(t.h.response), ResponsesIn(t.inbox), if m.ResponseObject? then [(m.encodedHeaders, m.body)] else []);
    assert replies + [] == replies;
  }

  /** What a step does to the inbox and to the response. */
  predicate TookOne(t: Task, t1: Task)
    requires t.inbox != []
  {
    var m := t.inbox[0];
    && t1.inbox == t.inbox[1..]
    && t1.h.response == if m.ResponseObject? then Some((m.encodedHeaders, m.body)) else t.h.response
  }

  predicate TookNone(t: Task, t1: Task) {
    t1.inbox == t.inbox && t1.h.response == t.h.response
  }

  lemma ReceiveTakes(t: Task)
    requires t.inbox != []
    ensures TookNone(t, ReceiveStep(t).task) || TookOne(t, ReceiveStep(t).task)
  {
    hide React, HandleFrame;
  }

  lemma AdvanceTakes(t: Task, m: Move, phase: Phase)
    ensures TookNone(t, Advance(t, m, phase).task)
  {}

  lemma StepTakes(t: Task, cancelled: bool)
    requires CanStep(t, cancelled)
    ensures TookNone(t, TaskStep(t, cancelled).task) || (t.inbox != [] && TookOne(t, TaskStep(t, cancelled).task))
  {
    hide ReceiveStep, Advance, CompositeHeaders, CompositeTrailers, DispatchIfNeeded, StreamModel.Respond, MessageFrames;
    match t.phase {
      case AtHeaders => AdvanceTakes(t, CompositeHeaders(t.s), AtTrailers);
      case AtTrailers => AdvanceTakes(t, CompositeTrailers(t.s), AtDispatch);
      case AtDispatch => AdvanceTakes(t, DispatchIfNeeded(t.s), AtRespond);
      case AtRespond => AdvanceTakes(t, StreamModel.Respond(t.s), AtReceive);
      case AtReceive =>
        if !cancelled {
          ReceiveTakes(t);
        }
      case _ =>
    }
  }

  /** A response is waited for only when none has been consumed. */
  lemma FirstResponse(t: Task, queue: seq<ToConn>, inFlight: nat)
    requires LocalInv(t) && t.inbox != [] && t.inbox[0].ResponseObject?
    requires Flow(t.s.id, t.h.sent, queue, inFlight, t.inbox, t.h.responses, t.h.reply.Some?, |t.h.lateReplies|)
    ensures t.h.response.None?
  {
    hide BlockInv, RequestOk, TrailerOk, SecondOk, ContentInv, StateOk, CountOk, OwnMessages, FailedOk, Num, OutFrames, Debit, CountData,
      TruncatedBytes, Credit, Complained, BuiltFrom;
    assert Waiting(t.inbox, GotResponse) > 0;
  }

  lemma StepKept(t: Task, cancelled: bool, replies: seq<Response>, queue: seq<ToConn>, inFlight: nat)
    requires LocalInv(t) && CanStep(t, cancelled) && Kept(t, replies)
    requires Flow(t.s.id, t.h.sent, queue, inFlight, t.inbox, t.h.responses, t.h.reply.Some?, |t.h.lateReplies|)
    ensures Kept(TaskStep(t, cancelled).task, replies)
  {
    hide LocalInv, Flow, TaskStep;
    StepTakes(t, cancelled);
    if t.inbox != [] && t.inbox[0].ResponseObject? {
      FirstResponse(t, queue, inFlight);
    }
    var rest := if t.inbox != [] then ResponsesIn(t.inbox[1..]) else [];
    assert [] + rest == rest;
  }

  // ---- every event ----

  lemma StepAllKept(y: Sys, sid: U32)
    requires Joint(y) && AllKept(y) && sid in y.tasks && CanStep(y.tasks[sid], Cancelled(y, sid))
    ensures AllKept(OnStep(y, sid))
  {
    hide Joint, LocalInv, Flow, QueuedWasSent, TaskStep, CanStep, Kept, RepliesOf;
    DecodedAnswers.TaskFacts(y, sid);
    StepKept(y.tasks[sid], Cancelled(y, sid), RepliesOf(y.log.replies, sid), y.queue, Outstanding(y, sid));
  }

  lemma ReplyAllKept(y: Sys, sid: U32, r: Response)
    requires AllKept(y) && sid in y.tasks
    ensures AllKept(OnReply(y, sid, r))
  {
    hide Kept, Receive;
    ReceiveKept(y.tasks[sid], RepliesOf(y.log.replies, sid), ResponseObject(r.0, r.1), |y.received|);
  }

  lemma HandleAllKept(y: Sys, hpack: Hpack)
    requires AllKept(y) && y.queue != []
    ensures AllKept(OnHandle(y, hpack))
  {
    hide Kept, OnMessage, Receive, NewlyRaised, Launch, RepliesOf;
    ActiveCount.HandleKeys(y, hpack);
    MessageHandled(y.conn, y.queue[0], hpack);
    var o := OnMessage(y.conn, y.queue[0], hpack);
    if o.post.Some? && o.post.value.0 in y.tasks {
      ReceiveKept(y.tasks[o.post.value.0], RepliesOf(y.log.replies, o.post.value.0), o.post.value.1, |y.received|);
    }
  }

  lemma NewKept(sid: U32)
    ensures Kept(NewTask(sid), [])
  {}

  lemma ArriveTaskKept(y: Sys, f: Frame, sid: U32)
    requires Skeleton(y) && AllKept(y) && Listening(y.conn) && sid in OnArrive(y, f).tasks
    ensures Kept(OnArrive(y, f).tasks[sid], RepliesOf(y.log.replies, sid))
  {
    hide OnFrame, Skeleton, Receive, NewTask, Seen, Checked, GateOk, Kept;
    SystemArrive.ArriveSkeleton(y, f);
    NewKept(sid);
    var o := OnFrame(y.conn, f);
    var before := if o.created == Some(sid) then NewTask(sid) else y.tasks[sid];
    if o.created == Some(sid) {
      assert sid !in y.tasks.Keys by { assert Skeleton(y); KeysAreChannels(y); }
    }
    if o.post.Some? && o.post.value.0 == sid {
      ReceiveKept(before, RepliesOf(y.log.replies, sid), o.post.value.1, |y.received|);
    }
  }

  lemma KeysAreChannels(y: Sys)
    requires Skeleton(y)
    ensures y.tasks.Keys == y.conn.ctx.channels
  {}

  lemma ArriveAllKept(y: Sys, f: Frame)
    requires Skeleton(y) && AllKept(y) && Listening(y.conn)
    ensures AllKept(OnArrive(y, f))
  {
    hide OnFrame, Skeleton, Receive, SystemArrive.FrameEffect, Post, Spawn, Credited, NewlyRaised, Kept;
    SystemArrive.ArriveSkeleton(y, f);
    forall sid | sid in OnArrive(y, f).tasks ensures Kept(OnArrive(y, f).tasks[sid], RepliesOf(y.log.replies, sid)) {
      ArriveTaskKept(y, f, sid);
    }
  }

  lemma AnswerAllKept(y: Sys)
    requires AllKept(y) && y.conn.ctx.error.Some?
    ensures AllKept(OnAnswer(y))
  {
    hide AnswerError, ResponsesIn;
    forall sid | sid in OnAnswer(y).tasks ensures Kept(OnAnswer(y).tasks[sid], RepliesOf(y.log.replies, sid)) {
      assert Kept(y.tasks[sid], RepliesOf(y.log.replies, sid));
    }
  }

  lemma NextAllKept(y: Sys, e: Event)
    requires Joint(y) && AllKept(y) && Enabled(y, e)
    ensures AllKept(Next(y, e))
  {
    hide Skeleton, At, OnArrive, OnAnswer, OnHandle, OnStep, OnReply, AllKept, Kept;
    match e {
      case Arrive(f) => ArriveAllKept(y, f);
      case Answer => AnswerAllKept(y);
      case Handle(hpack) => HandleAllKept(y, hpack);
      case Step(sid) => StepAllKept(y, sid);
      case Reply(sid, encoded, body) => ReplyAllKept(y, sid, (encoded, body));
      case _ => SameAllKept(y, Next(y, e));
    }
  }

  lemma SameAllKept(y: Sys, y1: Sys)
    requires AllKept(y) && y1.tasks == y.tasks && y1.log.replies == y.log.replies
    ensures AllKept(y1)
  {
    hide Kept;
  }

  lemma {:induction false} RunAllKept(y0: Sys, events: seq<Event>, y: Sys)
    requires Joint(y0) && AllKept(y0) && Run(y0, events, y)
    ensures AllKept(y)
    decreases events
  {
    hide Joint, AllKept, Next, Enabled, Trace;
    if events != [] {
      var n := |events| - 1;
      var mid := LastEvent(y0, events, y);
      RunAllKept(y0, events[..n], mid);
      SystemArrive.RunJoint(y0, events[..n], mid);
      NextAllKept(mid, events[n]);
    }
  }

  /** In every run the response a stream consumed, then those waiting for it, are what the handlers answered, in order. */
  lemma RepliesReachStream(y: Sys, sid: U32)
    requires Reachable(y) && sid in y.tasks
    ensures Consumed1(y.tasks[sid].h.response) + ResponsesIn(y.tasks[sid].inbox) == RepliesOf(y.log.replies, sid)
  {
    hide Joint, Init, Run, ResponsesIn;
    var y0, events :| Init(y0) && Run(y0, events, y);
    InitJoint(y0);
    assert AllKept(y0) by { InitKept(y0); }
    RunAllKept(y0, events, y);
    assert Kept(y.tasks[sid], RepliesOf(y.log.replies, sid));
  }

  lemma InitKept(y: Sys)
    requires Init(y)
    ensures AllKept(y)
  {}
}
