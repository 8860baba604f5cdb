/** When a stream task panics: the exact step, and that a stray CONTINUATION is enough to get there. */
module StrayFailure {
  import opened Bytes
  import opened Frames
  import opened Messages
  import opened StreamModel
  import opened System
  import opened StreamInvariant
  import opened SystemInvariant
  import SystemArrive
  import StreamReceive

  // ---- the step that fails ----

  lemma MovesSurvive(t: Task)
    requires LocalInv(t) && (t.phase.AtHeaders? || t.phase.AtTrailers? || t.phase.AtDispatch?)
    ensures CanStep(t, false) && !TaskStep(t, false).task.phase.Failed?
  {
    hide *;
    Parts(t);
    if t.phase.AtHeaders? {
      HeadersMove(t);
      Advanced(t, CompositeHeaders(t.s), AtTrailers);
    } else if t.phase.AtTrailers? {
      TrailersMove(t);
      Advanced(t, CompositeTrailers(t.s), AtDispatch);
    } else {
      DispatchMove(t);
      Advanced(t, DispatchIfNeeded(t.s), AtRespond);
    }
  }

  lemma Advanced(t: Task, m: Move, next: Phase)
    requires m.Move? && !next.Failed?
    ensures !Advance(t, m, next).task.phase.Failed?
  {}

  lemma RespondSurvives(t: Task)
    requires LocalInv(t) && t.phase.AtRespond?
    ensures CanStep(t, false) && TaskStep(t, false).task.phase.AtReceive?
  {
    hide *;
    Parts(t);
    FlushReady(t.s, t.h);
    if WillFlush(t.s) {
      OnlyPending(t.s);
      FlushOne(t.s);
      RespondStepFlushes(t, t.s.pending[0]);
    } else {
      RespondStepRests(t);
    }
  }

  lemma FrameSurvives(t: Task, f: Frame)
    requires LocalInv(t) && t.phase.AtReceive? && !t.cancelled && t.inbox != [] && t.inbox[0] == FrameForRequest(f)
    ensures CanStep(t, false) && TaskStep(t, false).task.phase.AtReport?
    ensures !HandleFrame(t.s, f).Panic?
  {
    hide *;
    var (s, h) := (t.s, t.h);
    if HandleFrame(s, f).Accepted? {
      StreamReceive.ReceiveAcceptedStep(t, f);
    } else {
      Parts(t);
      StreamReceive.BlockParts(s, t.phase, t.inbox, h);
      StreamReceive.StateFacts(s, t.phase, h);
      StreamReceive.NextTaken(s.id, h.forwarded, h.taken, t.inbox);
      StreamReceive.LoggedChecked(s.id, h.forwarded, h.taken, t.inbox, false, h.taken);
      StreamReceive.RefusedBlock(s, h, f);
      StreamReceive.ReceiveRefusedStep(t, f);
    }
  }

  lemma AnswerSurvives(t: Task)
    requires t.phase.AtReceive? && t.inbox != [] && !t.inbox[0].FrameForRequest?
    ensures CanStep(t, false)
    ensures TaskStep(t, false).task.phase.Failed? <==> t.inbox[0].TrailersDecoded? && t.s.composited.None?
  {
    hide CanSend, Truncate;
  }

  /** The header map is missing, when trailers arrive, exactly because it was used up by a dispatch. */
  lemma MapGone(t: Task)
    requires LocalInv(t) && HeadOk(t) && t.phase.AtReceive? && t.inbox != [] && t.inbox[0].TrailersDecoded?
    ensures t.s.composited.None? <==> t.s.dispatched
  {
    Parts(t);
    hide LocalInv, BlockInv, FlowInv, ContentInv, RequestOk, TrailerOk, SecondOk, BuiltFrom, HeadOk, Num, Complained;
    StreamReceive.ExpectedTrailers(t, t.inbox[0].headers);
    if t.s.composited.None? {
      StreamReceive.MissingMap(t.s, t.h);
    }
  }

  lemma StopSurvives(t: Task)
    requires t.phase.AtReceive?
    ensures CanStep(t, true) && !TaskStep(t, true).task.phase.Failed?
  {}

  lemma CancelledSteps(t: Task)
    requires !t.phase.AtReceive? && Live(t)
    ensures CanStep(t, true) && CanStep(t, false) && TaskStep(t, true) == TaskStep(t, false)
  {}

  lemma ReportSurvives(t: Task)
    requires t.phase.AtReport?
    ensures CanStep(t, false) && TaskStep(t, false).task.phase.AtHeaders?
  {}

  lemma FailsIff(t: Task, cancelled: bool)
    requires LocalInv(t) && HeadOk(t) && CanStep(t, cancelled) && (t.cancelled ==> cancelled)
    ensures TaskStep(t, cancelled).task.phase.Failed? <==>
      t.phase.AtReceive? && !cancelled && t.inbox[0].TrailersDecoded? && t.s.dispatched
  {
    hide LocalInv, HeadOk, TaskStep;
    if t.phase.AtReceive? {
      if cancelled {
        StopSurvives(t);
      } else if t.inbox[0].FrameForRequest? {
        FrameSurvives(t, t.inbox[0].frame);
      } else {
        AnswerSurvives(t);
        if t.inbox[0].TrailersDecoded? {
          MapGone(t);
        }
      }
    } else {
      CancelledSteps(t);
      if t.phase.AtRespond? {
        RespondSurvives(t);
      } else if t.phase.AtReport? {
        ReportSurvives(t);
      } else {
        MovesSurvive(t);
      }
    }
  }

  /** In every run, the next step of a task fails exactly if it takes an answer to trailers on a dispatched stream. */
  lemma NextStepFailsIff(y: Sys, sid: U32)
    requires Reachable(y) && sid in y.tasks && CanStep(y.tasks[sid], Cancelled(y, sid))
    ensures Next(y, Step(sid)).tasks[sid].phase.Failed? <==>
      var t := y.tasks[sid];
      t.phase.AtReceive? && !Cancelled(y, sid) && t.inbox[0].TrailersDecoded? && t.s.dispatched
  {
    hide Reachable, LocalInv, HeadOk, TaskStep, Joint;
    SystemArrive.ReachableJoint(y);
    Expected(y, sid);
    FailsIff(y.tasks[sid], Cancelled(y, sid));
  }

  lemma Expected(y: Sys, sid: U32)
    requires Joint(y) && sid in y.tasks
    ensures LocalInv(y.tasks[sid]) && HeadOk(y.tasks[sid]) && y.tasks[sid].s.id == sid
  {
    hide LocalInv, BlockAtGate, Flow, QueuedWasSent, InboxOk, BlockReceived, HeadOk;
    assert At(y, sid);
    NextExpected(y.tasks[sid], y.queue, Outstanding(y, sid));
  }
}
