/** The loops of the stream and connection objects are runs of the step system. */
module Refinement {
  import opened Wrappers
  import opened Messages
  import opened StreamModel
  import opened ConnectionModel
  import opened System
  import opened Http2StreamTask
  import opened Http2ConnectionTask

  // ---- one pass of a stream's loop ----

  /** `n` steps of a task that is not cancelled, or fewer if it cannot go on. */
  function Steps(t: Task, n: nat): Task
    decreases n
  {
    if n == 0 || !CanStep(t, false) then t else Steps(TaskStep(t, false).task, n - 1)
  }

  /** The part of the task that a pass of the loop determines. */
  predicate Reached(t: Task, s: Stream, sent: seq<ToConn>, phase: Phase, inbox: seq<ToStream>) {
    t.s == s && t.h.sent == sent && t.phase == phase && t.inbox == inbox
  }

  lemma LogEmit(sent: seq<ToConn>, message: Option<ToConn>)
    ensures Log1(sent, message) == sent + Emit(message)
  {}

  /** One of the four steps before the receive. */
  function MoveAt(t: Task): Move {
    match t.phase
    case AtHeaders => CompositeHeaders(t.s)
    case AtTrailers => CompositeTrailers(t.s)
    case AtDispatch => DispatchIfNeeded(t.s)
    case _ => StreamModel.Respond(t.s)
  }

  function PhaseAfter(phase: Phase): Phase {
    match phase
    case AtHeaders => AtTrailers
    case AtTrailers => AtDispatch
    case AtDispatch => AtRespond
    case _ => AtReceive
  }

  predicate BeforeReceiving(phase: Phase) {
    phase.AtHeaders? || phase.AtTrailers? || phase.AtDispatch? || phase.AtRespond?
  }

  lemma OneMove(t: Task)
    requires BeforeReceiving(t.phase)
    ensures CanStep(t, false)
    ensures var (m, t1) := (MoveAt(t), TaskStep(t, false).task);
      if m.Crash? then Reached(t1, t.s, t.h.sent, Failed, t.inbox)
      else Reached(t1, m.next, t.h.sent + Emit(m.message), PhaseAfter(t.phase), t.inbox)
  {
    hide CompositeHeaders, CompositeTrailers, DispatchIfNeeded, StreamModel.Respond;
    if MoveAt(t).Move? {
      LogEmit(t.h.sent, MoveAt(t).message);
    }
  }

  lemma Receiving(t: Task)
    requires t.phase.AtReceive? && t.inbox != []
    ensures CanStep(t, false)
    ensures var (r, t1) := (React(t.s, t.inbox[0]), TaskStep(t, false).task);
      if r.Unwound? then Reached(t1, t.s, t.h.sent, Failed, t.inbox)
      else Reached(t1, r.next, t.h.sent + Emit(r.message), if r.report.Some? then AtReport(r.report.value) else AtHeaders, t.inbox[1..])
  {
    hide React;
    SentKept(t.s, t.h, t.inbox[0]);
    if React(t.s, t.inbox[0]).Reaction? {
      LogEmit(t.h.sent, React(t.s, t.inbox[0]).message);
    }
    hide Consumed;
  }

  lemma SentKept(s: Stream, h: History, m: ToStream)
    ensures Consumed(s, h, m).sent == h.sent
  {
    hide HandleFrame;
  }

  lemma Reporting(t: Task)
    requires t.phase.AtReport?
    ensures CanStep(t, false) && Reached(TaskStep(t, false).task, t.s, t.h.sent + [t.phase.message], AtHeaders, t.inbox)
  {}

  lemma Associate(x: seq<ToConn>, a: seq<ToConn>, b: seq<ToConn>, c: seq<ToConn>, d: seq<ToConn>)
    ensures x + a + b == x + (a + b) && x + a + b + c == x + (a + b + c) && x + a + b + c + d == x + (a + b + c + d)
  {}

  lemma StepFirst(t: Task, n: nat)
    requires CanStep(t, false)
    ensures Steps(t, n + 1) == Steps(TaskStep(t, false).task, n)
  {
    hide TaskStep;
  }

  /** The four moves, as far as they go. */
  lemma FourMoves(t: Task) returns (n: nat)
    requires t.phase.AtHeaders?
    ensures var b := BeforeReceive(t.s);
      if b.alive then Reached(Steps(t, n), b.next, t.h.sent + b.sent, AtReceive, t.inbox)
      else Steps(t, n).phase.Failed? && Steps(t, n).h.sent == t.h.sent + b.sent
  {
    hide CompositeHeaders, CompositeTrailers, DispatchIfNeeded, StreamModel.Respond, TaskStep, Emit, CanStep;
    var a := CompositeHeaders(t.s);
    OneMove(t);
    var t1 := TaskStep(t, false).task;
    StepFirst(t, 0);
    if a.Crash? {
      assert t.h.sent + [] == t.h.sent;
      return 1;
    }
    var b := CompositeTrailers(a.next);
    OneMove(t1);
    var t2 := TaskStep(t1, false).task;
    StepFirst(t, 1);
    StepFirst(t1, 0);
    if b.Crash? {
      return 2;
    }
    var c := DispatchIfNeeded(b.next);
    OneMove(t2);
    var t3 := TaskStep(t2, false).task;
    StepFirst(t, 2);
    StepFirst(t1, 1);
    StepFirst(t2, 0);
    if c.Crash? {
      Associate(t.h.sent, Emit(a.message), Emit(b.message), [], []);
      return 3;
    }
    var d := StreamModel.Respond(c.next);
    OneMove(t3);
    StepFirst(t, 3);
    StepFirst(t1, 2);
    StepFirst(t2, 1);
    StepFirst(t3, 0);
    Associate(t.h.sent, Emit(a.message), Emit(b.message), Emit(c.message), if d.Crash? then [] else Emit(d.message));
    return 4;
  }

  lemma {:induction false} StepsAdd(t: Task, n: nat, k: nat)
    ensures Steps(t, n + k) == Steps(Steps(t, n), k)
    decreases n
  {
    hide TaskStep, CanStep;
    if n > 0 && CanStep(t, false) {
      StepsAdd(TaskStep(t, false).task, n - 1, k);
    }
  }

  /**
   * A pass of `serve` over one message is a run of task steps: the same stream afterwards, the same messages sent,
   * and a failed task exactly when the pass does not survive.
   */
  lemma PassIsSteps(t: Task) returns (n: nat)
    requires t.phase.AtHeaders? && t.inbox != []
    ensures var turn := FullTurn(t.s, t.inbox[0]);
      if turn.alive then Reached(Steps(t, n), turn.next, t.h.sent + turn.sent, AtHeaders, t.inbox[1..])
      else Steps(t, n).phase.Failed? && Steps(t, n).h.sent == t.h.sent + turn.sent
  {
    hide BeforeReceive, React, TaskStep;
    n := FourMoves(t);
    var b := BeforeReceive(t.s);
    if b.alive {
      var t4 := Steps(t, n);
      Receiving(t4);
      var t5 := TaskStep(t4, false).task;
      StepsAdd(t, n, 1);
      assert Steps(t4, 1) == Steps(t5, 0) == t5;
      var r := React(b.next, t.inbox[0]);
      if r.Reaction? && r.report.Some? {
        Reporting(t5);
        StepsAdd(t, n + 1, 1);
        var t6 := TaskStep(t5, false).task;
        assert Steps(t5, 1) == Steps(t6, 0) == t6;
        assert t.h.sent + b.sent + Emit(r.message) + [r.report.value] == t.h.sent + (b.sent + Emit(r.message) + Emit(r.report));
        n := n + 2;
      } else if r.Reaction? {
        assert t.h.sent + b.sent + Emit(r.message) == t.h.sent + (b.sent + Emit(r.message) + Emit(r.report));
        n := n + 1;
      } else {
        n := n + 1;
      }
    }
  }

  // ---- one pass of the connection's loop ----

  /** The events of one pass: the error is answered if there is one, then the input is taken. */
  function EventsOf(c: Conn, input: Input): seq<Event> {
    var answers := if c.ctx.error.Some? then [Answer] else [];
    if c.ctx.error.Some? && AnswerError(c).conn.status.Ended? then answers
    else answers + [InputEvent(input)]
  }

  lemma OneEvent(y: Sys, e: Event)
    requires Enabled(y, e)
    ensures Run(y, [e], Next(y, e))
  {
    hide Next, Enabled, Trace;
    RunNone(y);
    OneMoreEvent(y, [], y, e);
    assert [] + [e] == [e];
  }

  lemma TwoEvents(y: Sys, e: Event, y1: Sys, f: Event)
    requires Enabled(y, e) && Next(y, e) == y1 && Enabled(y1, f)
    ensures Run(y, [e, f], Next(y1, f))
  {
    hide Next, Enabled, Trace;
    OneEvent(y, e);
    OneMoreEvent(y, [e], y1, f);
    assert [e] + [f] == [e, f];
  }

  function InputEvent(input: Input): Event {
    match input
    case FrameParsed(f) => Arrive(f)
    case FromStream(_, hpack) => Event.Handle(hpack)
    case Idle5Seconds => Timeout
  }

  function InputOutcome(c: Conn, input: Input): Outcome {
    match input
    case FrameParsed(f) => OnFrame(c, f)
    case FromStream(m, hpack) => OnMessage(c, m, hpack)
    case Idle5Seconds => Quiet(End(c.(ctx := c.ctx.(rootCancelled := true))))
  }

  lemma InputTaken(y: Sys, input: Input)
    requires Listening(y.conn) && (input.FromStream? ==> y.queue != [] && y.queue[0] == input.message)
    ensures Enabled(y, InputEvent(input)) && Next(y, InputEvent(input)).conn == InputOutcome(y.conn, input).conn
  {
    hide OnFrame, OnMessage, Post, Spawn, Launch, NewlyRaised, Credited;
  }

  lemma ErrorTaken(y: Sys)
    requires y.conn.status.Running? && y.conn.ctx.error.Some?
    ensures Enabled(y, Answer) && Next(y, Answer).conn == AnswerError(y.conn).conn && Next(y, Answer).queue == y.queue
    ensures AnswerError(y.conn).conn.ctx.error.None?
  {
    SlotEmptied(y.conn);
    hide AnswerError, CancelTask;
  }

  /** What the connection object does in one pass of its loop is what these events do to the connection. */
  lemma PassIsEvents(y: Sys, input: Input) returns (y1: Sys)
    requires y.conn.status.Running?
    requires input.FromStream? ==> y.queue != [] && y.queue[0] == input.message
    ensures Run(y, EventsOf(y.conn, input), y1)
    ensures y1.conn == Last(LoopTurn(y.conn, input)).conn
  {
    hide OnFrame, OnMessage, AnswerError, Next, Enabled, Run;
    if y.conn.ctx.error.Some? {
      ErrorTaken(y);
      var mid := Next(y, Answer);
      OneEvent(y, Answer);
      if mid.conn.status.Ended? {
        y1 := mid;
      } else {
        InputTaken(mid, input);
        TwoEvents(y, Answer, mid, InputEvent(input));
        y1 := Next(mid, InputEvent(input));
        assert [Answer] + [InputEvent(input)] == [Answer, InputEvent(input)];
      }
    } else {
      InputTaken(y, input);
      OneEvent(y, InputEvent(input));
      y1 := Next(y, InputEvent(input));
      assert [] + [InputEvent(input)] == [InputEvent(input)];
    }
  }

  lemma SlotEmptied(c: Conn)
    requires c.ctx.error.Some?
    ensures AnswerError(c).conn.ctx.error.None?
  {
    hide RstFrame, Writable;
  }
}
