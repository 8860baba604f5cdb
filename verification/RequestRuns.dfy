/** What every run keeps of a stream: reading, answers to trailers, promptness and the reports of its refusals. */
module RequestRuns {
  import opened Bytes
  import opened Frames
  import opened Messages
  import opened StreamModel
  import opened ConnectionModel
  import opened System
  import opened StreamInvariant
  import opened SystemInvariant
  import SystemArrive
  import Guarantees
  import Reading
  import OneAnswer
  import Promptness
  import Complaints

  predicate OnTrack(t: Task) {
    Reading.ReadOk(t) && OneAnswer.AnsweredOnce(t) && Promptness.Prompt(t) && Promptness.Marked(t) && Complaints.Reported(t)
  }

  ghost predicate AllOnTrack(y: Sys) {
    forall sid :: sid in y.tasks ==> OnTrack(y.tasks[sid])
  }

  lemma StepOnTrack(t: Task, cancelled: bool)
    requires LocalInv(t) && OnTrack(t) && HeadOk(t) && CanStep(t, cancelled) && (t.cancelled ==> cancelled)
    ensures OnTrack(TaskStep(t, cancelled).task)
  {
    hide LocalInv, HeadOk, TaskStep, Reading.ReadOk, OneAnswer.AnsweredOnce, Promptness.Prompt, Promptness.Marked, Complaints.Reported;
    Reading.StepReadOk(t, cancelled);
    OneAnswer.StepOnce(t, cancelled);
    Promptness.StepPrompt(t, cancelled);
    Promptness.StepMarked(t, cancelled);
    Complaints.StepReported(t, cancelled);
  }

  lemma KeptOnTrack(t: Task, t1: Task)
    requires OnTrack(t) && Guarantees.Kept(t, t1)
    ensures OnTrack(t1)
  {
    hide Reading.ReadAll, Num, CountHeaders, DataFrames, AnyEnd, AnyReset, Complaints.Failures, Seen;
    assert t1.h.forwarded[..t.h.taken] == t.h.forwarded[..t.h.taken];
  }

  lemma NewOnTrack(sid: U32)
    ensures OnTrack(NewTask(sid))
  {}

  lemma NewcomerOnTrack(y: Sys, f: Frame, sid: U32)
    requires sid !in y.tasks && sid in OnArrive(y, f).tasks
    ensures OnTrack(OnArrive(y, f).tasks[sid])
  {
    hide OnTrack, Guarantees.Kept, OnFrame, Receive, NewTask;
    var o := OnFrame(y.conn, f);
    NewOnTrack(sid);
    if o.post.Some? {
      Guarantees.ReceiveKept(NewTask(sid), o.post.value.1, |y.received|);
      KeptOnTrack(NewTask(sid), Receive(NewTask(sid), o.post.value.1, |y.received|));
    }
  }

  lemma Newcomers(y: Sys, e: Event, sid: U32)
    requires Joint(y) && Enabled(y, e) && sid in Next(y, e).tasks && sid !in y.tasks
    ensures e.Arrive?
  {
    hide OnArrive, AnswerError, OnMessage, Receive, TaskStep, Joint, NewlyRaised, Launch;
  }

  lemma TaskExpects(y: Sys, sid: U32)
    requires Joint(y) && sid in y.tasks
    ensures LocalInv(y.tasks[sid]) && HeadOk(y.tasks[sid])
  {
    hide LocalInv, BlockAtGate, Flow, InboxOk, QueuedWasSent,
      BlockReceived, HeadOk;
    assert At(y, sid);
    NextExpected(y.tasks[sid], y.queue, Outstanding(y, sid));
  }

  lemma TaskOnTrack(y: Sys, e: Event, sid: U32)
    requires Joint(y) && Enabled(y, e) && sid in y.tasks && OnTrack(y.tasks[sid])
    ensures sid in Next(y, e).tasks && OnTrack(Next(y, e).tasks[sid])
  {
    hide Joint, LocalInv, OnTrack, HeadOk, Guarantees.Kept, TaskStep, CanStep;
    if e == Step(sid) {
      TaskExpects(y, sid);
      StepOnTrack(y.tasks[sid], Cancelled(y, sid));
    } else {
      hide Next, Enabled;
      Guarantees.NextKept(y, e, sid);
      KeptOnTrack(y.tasks[sid], Next(y, e).tasks[sid]);
    }
  }

  lemma NextOnTrack(y: Sys, e: Event)
    requires Joint(y) && AllOnTrack(y) && Enabled(y, e)
    ensures AllOnTrack(Next(y, e))
  {
    hide Joint, OnTrack, OnArrive, OnAnswer, OnHandle, OnStep, OnReply, TaskStep;
    forall sid | sid in Next(y, e).tasks ensures OnTrack(Next(y, e).tasks[sid]) {
      if sid in y.tasks {
        TaskOnTrack(y, e, sid);
      } else {
        Newcomers(y, e, sid);
        NewcomerOnTrack(y, e.frame, sid);
      }
    }
  }

  lemma {:induction false} RunOnTrack(y0: Sys, events: seq<Event>, y: Sys)
    requires Joint(y0) && AllOnTrack(y0) && Run(y0, events, y)
    ensures AllOnTrack(y)
    decreases events
  {
    hide Joint, AllOnTrack, Next, Enabled, Trace;
    if events != [] {
      var n := |events| - 1;
      var mid := LastEvent(y0, events, y);
      RunOnTrack(y0, events[..n], mid);
      SystemArrive.RunJoint(y0, events[..n], mid);
      NextOnTrack(mid, events[n]);
    }
  }

  lemma StartOnTrack(y: Sys)
    requires Init(y)
    ensures AllOnTrack(y)
  {}

  lemma ReachableOnTrack(y: Sys)
    requires Reachable(y)
    ensures AllOnTrack(y)
  {
    hide Joint, Init, Run, AllOnTrack;
    var y0, events :| Init(y0) && Run(y0, events, y);
    InitJoint(y0);
    StartOnTrack(y0);
    RunOnTrack(y0, events, y);
  }

  /**
   * In every run the frames a stream has accepted are the request as read off the frames forwarded to it, although
   * what the stream accepts depends on when the decoder answers.
   */
  lemma HistoryIsReading(y: Sys, sid: U32)
    requires Reachable(y) && sid in y.tasks
    ensures var h := y.tasks[sid].h; forall trailers :: Reading.Possible(h, trailers) ==>
      h.taken <= |h.forwarded| && Reading.Agrees(h, Reading.ReadAll(h.forwarded[..h.taken], trailers))
  {
    hide Reachable, Reading.Agrees, Reading.ReadAll, Reading.TrailersCame, OneAnswer.AnsweredOnce;
    ReachableOnTrack(y);
    assert OnTrack(y.tasks[sid]);
  }

  /** Trailers are asked for after the end of the request, and one answer to them is consumed at most. */
  lemma TrailersAnsweredOnce(y: Sys, sid: U32)
    requires Reachable(y) && sid in y.tasks
    ensures var (s, h) := (y.tasks[sid].s, y.tasks[sid].h);
      && (Num(h.sent, KTrailers, sid) > 0 ==> s.requestEnd && CountHeaders(h.accepted) == 2)
      && |h.lateReplies| <= 1
      && (y.tasks[sid].phase.AtReceive? && h.lateReplies != [] ==> s.dispatched)
  {
    hide Reachable, LocalInv, Reading.Follows, BlockReceived, Num, CountHeaders, OneAnswer.Complete;
    Guarantees.TaskInv(y, sid);
    ReachableOnTrack(y);
    assert OnTrack(y.tasks[sid]);
  }

  /**
   * In every run a stream that waits for a message has asked for every complete block, has dispatched its request if
   * all its parts are there, and holds a DATA frame back only if the window is empty or shorter than what 32 bits leave
   * of the payload's length.
   */
  lemma NothingHeldBack(y: Sys, sid: U32)
    requires Reachable(y) && sid in y.tasks && y.tasks[sid].phase.AtReceive?
    ensures var s := y.tasks[sid].s;
      && !s.headerState.Ready?
      && !(s.requestEnd && s.headerState.Completed? && s.trailerState.Ready?)
      && (s.requestEnd && s.headerState.Completed? && s.trailerState.Completed? && s.composited.Some? ==> s.dispatched)
      && (s.pending != [] ==> s.window == 0 || (s.pending[0].ty.Data? && |s.pending[0].payload| % TWO_32 > s.window))
  {
    hide Reachable, Reading.ReadOk, OneAnswer.AnsweredOnce, Complaints.Reported, Promptness.Marked;
    ReachableOnTrack(y);
    assert OnTrack(y.tasks[sid]);
  }

  /** And when its window is looked at, a frame held back goes out, alone and whole, exactly if neither is the case. */
  lemma HeldFrameGoesOut(y: Sys, sid: U32)
    requires Reachable(y) && sid in y.tasks && y.tasks[sid].phase.AtRespond? && y.tasks[sid].s.pending != []
    ensures Enabled(y, Step(sid))
    ensures var (s, y1) := (y.tasks[sid].s, Next(y, Step(sid)));
      if s.window == 0 || (s.pending[0].ty.Data? && |s.pending[0].payload| % TWO_32 > s.window)
      then y1.queue == y.queue && y1.tasks[sid].s.pending == s.pending
      else y1.queue == y.queue + [DoResponse([s.pending[0]], sid)] && y1.tasks[sid].s.pending == []
  {
    hide Reachable, LocalInv, TaskStep, BlockReceived;
    Guarantees.TaskInv(y, sid);
    Promptness.HeldBack(y.tasks[sid]);
    StepSame(y.tasks[sid], Cancelled(y, sid));
  }

  /** A response is handed over whole and paid for exactly if it fits; otherwise its DATA frame is held back, unpaid. */
  lemma ResponseHandedOver(y: Sys, sid: U32, r: Response)
    requires Reachable(y) && sid in y.tasks && y.tasks[sid].phase.AtReceive? && !Cancelled(y, sid)
    requires y.tasks[sid].inbox != [] && y.tasks[sid].inbox[0] == ResponseObject(r.0, r.1)
    ensures Enabled(y, Step(sid))
    ensures var y1 := Next(y, Step(sid));
      && |y1.queue| == |y.queue| + 1 && y1.queue[..|y.queue|] == y.queue
      && Promptness.HandedOver(y.tasks[sid].s, r, y1.tasks[sid].s, y1.queue[|y.queue|])
  {
    hide Reachable, Joint, LocalInv, TaskStep, HeadOk, Promptness.HandedOver, BlockReceived;
    SystemArrive.ReachableJoint(y);
    Guarantees.TaskInv(y, sid);
    TaskExpects(y, sid);
    Promptness.ResponseTaken(y.tasks[sid], r);
  }

  lemma StepSame(t: Task, cancelled: bool)
    requires CanStep(t, false) && !t.phase.AtReceive?
    ensures CanStep(t, cancelled) && TaskStep(t, cancelled) == TaskStep(t, false)
  {
    hide ReceiveStep, RespondStep, Advance, CompositeHeaders, CompositeTrailers, DispatchIfNeeded;
  }

  /** In no run does a stream count its response as complete: HEADERS frames do not pass the loop that would mark them. */
  lemma NeverCompleted(y: Sys, sid: U32)
    requires Reachable(y) && sid in y.tasks
    ensures var (s, h) := (y.tasks[sid].s, y.tasks[sid].h);
      !s.responseCompleted && !s.endHeadersSent && (s.endStreamSent <==> exists f :: f in h.flushed && f.HasEndStream())
  {
    hide Reachable, Reading.ReadOk, OneAnswer.AnsweredOnce, Promptness.Prompt, Complaints.Reported;
    ReachableOnTrack(y);
    assert OnTrack(y.tasks[sid]);
    var flushed := y.tasks[sid].h.flushed;
    assert forall i :: 0 <= i < |flushed| ==> flushed[i] in flushed;
  }

  /**
   * A trailer block asked for without a CONTINUATION behind its end is, octet for octet, what the second HEADERS frame
   * accepted and its CONTINUATION frames hold of a header block.
   */
  lemma TrailerOctets(y: Sys, sid: U32, i: nat)
    requires Reachable(y) && sid in y.tasks && !y.tasks[sid].h.stray && !y.tasks[sid].h.extra
    requires i < |y.tasks[sid].h.sent| && y.tasks[sid].h.sent[i].TrailersToDecode?
    ensures y.tasks[sid].h.sent[i].payload == Guarantees.Pieces(BlockTail(y.tasks[sid].h.accepted))
  {
    hide Reachable, LocalInv, Reading.ReadOk, OneAnswer.AnsweredOnce, Promptness.Prompt, Complaints.Failures, Guarantees.Pieces, Seen, BlockShape;
    ReachableOnTrack(y);
    assert OnTrack(y.tasks[sid]);
    Guarantees.TrailerReassembly(y, sid, i);
    var a := y.tasks[sid].h.accepted;
    TailGenuine(a);
    Guarantees.FragmentsReceived(BlockTail(a));
  }

  lemma {:induction false} TailGenuine(a: seq<Frame>)
    requires Complaints.Genuine(a)
    ensures Complaints.Genuine(BlockTail(a)) && Guarantees.SeenAll(BlockTail(a)) == BlockTail(a)
  {
    hide Seen;
    if a != [] && !a[|a| - 1].ty.Headers? {
      TailGenuine(a[..|a| - 1]);
    }
    AllSeen(BlockTail(a));
  }

  lemma {:induction false} AllSeen(fs: seq<Frame>)
    requires Complaints.Genuine(fs)
    ensures Guarantees.SeenAll(fs) == fs
  {
    hide Seen;
    if fs != [] {
      AllSeen(fs[..|fs| - 1]);
    }
  }

  /** In every run the failures a stream has reported or is about to are its refused frames, and its undeclared trailers. */
  lemma RefusalsReported(y: Sys, sid: U32)
    requires Reachable(y) && sid in y.tasks
    ensures var (h, phase) := (y.tasks[sid].h, y.tasks[sid].phase);
      Complaints.Failures(h.sent) + (if phase.AtReport? && phase.message.Failure? then 1 else 0)
      == h.taken - |h.accepted| + (if h.secondEarly && h.reply.Some? && h.reply.value.1 == {} then 1 else 0)
  {
    hide Reachable, Reading.ReadOk, OneAnswer.AnsweredOnce, Promptness.Prompt, Complaints.Failures;
    ReachableOnTrack(y);
    assert OnTrack(y.tasks[sid]);
  }
}
