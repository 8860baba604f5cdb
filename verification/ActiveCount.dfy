/** The connection's count of active streams over a run. */
module ActiveCount {
  import opened Wrappers
  import opened Bytes
  import opened Frames
  import opened Messages
  import opened ConnectionModel
  import opened System
  import opened SystemInvariant
  import opened RequestContext
  import opened StreamInvariant
  import SystemArrive
  import ConnectionInvariant
  import StreamModel
  import Settings
  import Goaway
  import HeaderBlock

  /** Every stream's commands are handled once each, Increment before Decrement. */
  ghost predicate Tallies(y: Sys) {
    && (forall sid :: sid in y.tasks ==>
          Tallied(sid, y.tasks[sid].h.sent, y.queue, sid in y.log.increments, sid in y.log.decrements))
    && y.log.increments <= y.tasks.Keys
    && y.log.decrements <= y.log.increments
  }

  /** Additions, cancellations and handled commands, as a number that may exceed 32 bits. */
  function Balance(log: Ledger): int {
    log.adds - log.cancels + |log.increments| - |log.decrements|
  }

  predicate Counted(ctx: ConnContext, log: Ledger) {
    && ctx.activeCount == Balance(log) % TWO_32
    && log.adds == |ctx.channels|
    && ctx.tokens <= ctx.channels
    && log.cancels + |ctx.tokens| == log.adds + log.revivals
  }

  ghost predicate CountInv(y: Sys) {
    Tallies(y) && Counted(y.conn.ctx, y.log)
  }

  lemma InitCount(y: Sys)
    requires Init(y)
    ensures CountInv(y)
  {}

  // ---- commands on their way ----

  lemma TalliedLog(sid: U32, sent: seq<ToConn>, queue: seq<ToConn>, inc: bool, dec: bool, m: ToConn)
    requires Tallied(sid, sent, queue, inc, dec)
    requires Is(m, KDecrement, sid) ==> Num(sent, KIncrement, sid) > 0
    ensures Tallied(sid, sent + [m], queue + [m], inc, dec)
  {
    hide Num;
    BothAppend(sent, queue, m, KIncrement, sid);
    BothAppend(sent, queue, m, KDecrement, sid);
    NumAppend(sent, m, KIncrement, sid);
    assert forall i :: 0 <= i < |queue| ==> (queue + [m])[..i] == queue[..i];
    assert (queue + [m])[..|queue|] == queue;
  }

  lemma TalliedOther(sid: U32, sent: seq<ToConn>, queue: seq<ToConn>, inc: bool, dec: bool, m: ToConn)
    requires Tallied(sid, sent, queue, inc, dec) && !Mine(m, sid)
    ensures Tallied(sid, sent, queue + [m], inc, dec)
  {
    hide Num;
    NumAppend(queue, m, KIncrement, sid);
    NumAppend(queue, m, KDecrement, sid);
    assert forall i :: 0 <= i < |queue| ==> (queue + [m])[..i] == queue[..i];
  }

  lemma TalliedPop(sid: U32, sent: seq<ToConn>, queue: seq<ToConn>, inc: bool, dec: bool)
    requires Tallied(sid, sent, queue, inc, dec) && queue != []
    requires Num(sent, KIncrement, sid) <= 1 && Num(sent, KDecrement, sid) <= 1
    ensures Is(queue[0], KIncrement, sid) ==> !inc
    ensures Is(queue[0], KDecrement, sid) ==> !dec && inc
    ensures Tallied(sid, sent, queue[1..], inc || Is(queue[0], KIncrement, sid),
                    dec || Is(queue[0], KDecrement, sid))
  {
    NumTail(queue, KIncrement, sid);
    NumTail(queue, KDecrement, sid);
    assert queue[..0] == [];
    forall i | 0 <= i < |queue| - 1 && Is(queue[1..][i], KDecrement, sid)
      ensures inc || Is(queue[0], KIncrement, sid) || Num(queue[1..][..i], KIncrement, sid) > 0
    {
      assert Is(queue[i + 1], KDecrement, sid);
      NumTail(queue[..i + 1], KIncrement, sid);
      assert queue[..i + 1][1..] == queue[1..][..i];
    }
  }

  /** A stream sends at most one command of each kind, and Decrement only after Increment. */
  lemma SentCommands(t: Task)
    requires LocalInv(t)
    ensures Num(t.h.sent, KIncrement, t.s.id) <= 1
    ensures Num(t.h.sent, KDecrement, t.s.id) <= 1
    ensures t.phase == AtReport(ActiveStreamCount(Decrement, t.s.id)) ==> Num(t.h.sent, KIncrement, t.s.id) == 1
  {
    hide BlockInv, RequestInv, ContentInv, StateOk, WindowOk, ResponseOk, OwnMessages, Num;
  }

  /** Count commands only ever leave a stream as the report on a frame. */
  lemma CommandsAreReports(t: Task, cancelled: bool)
    requires CanStep(t, cancelled)
    ensures var m := TaskStep(t, cancelled).message;
      m.Some? && m.value.ActiveStreamCount? ==> t.phase == AtReport(m.value)
  {
    hide StreamModel.HandleFrame, StreamModel.Drain, TryFrom, StreamModel.HandleHeadersDecoded, StreamModel.CanSend, Consumed;
  }

  // ---- each event keeps the tallies ----

  lemma StepTallied(y: Sys, sid: U32, id: U32)
    requires sid in y.tasks && CanStep(y.tasks[sid], Cancelled(y, sid)) && At(y, sid)
    requires id in y.tasks && Tallied(id, y.tasks[id].h.sent, y.queue, id in y.log.increments, id in y.log.decrements)
    ensures Tallied(id, OnStep(y, sid).tasks[id].h.sent, OnStep(y, sid).queue, id in y.log.increments, id in y.log.decrements)
  {
    hide LocalInv, Flow, QueuedWasSent, InboxOk, BlockReceived, TaskStep, BlockAtGate, Tallied;
    var t, cancelled := y.tasks[sid], Cancelled(y, sid);
    StepSelf(t, sid, cancelled, y.queue, Outstanding(y, sid), y.conn.ctx.tokens, y.received);
    StepLogs(t, cancelled);
    MessageIsOwn(t, cancelled);
    CommandsAreReports(t, cancelled);
    SentCommands(t);
    var m := TaskStep(t, cancelled).message;
    if m.Some? {
      if id == sid {
        TalliedLog(id, t.h.sent, y.queue, id in y.log.increments, id in y.log.decrements, m.value);
      } else {
        TalliedOther(id, y.tasks[id].h.sent, y.queue, id in y.log.increments, id in y.log.decrements, m.value);
      }
    }
  }

  /** Answers go to the inbox; what a stream has sent stays as it was. */
  lemma SentUnchanged(y: Sys, hpack: Hpack, sid: U32)
    requires y.queue != [] && sid in y.tasks
    ensures sid in OnHandle(y, hpack).tasks && OnHandle(y, hpack).tasks[sid].h.sent == y.tasks[sid].h.sent
  {
    hide OnMessage, NewlyRaised, Launch;
  }

  lemma HandleTallied(y: Sys, hpack: Hpack, sid: U32)
    requires y.queue != [] && sid in y.tasks && At(y, sid)
    requires Tallied(sid, y.tasks[sid].h.sent, y.queue, sid in y.log.increments, sid in y.log.decrements)
    ensures var y1 := OnHandle(y, hpack);
      && sid in y1.tasks && Tallied(sid, y1.tasks[sid].h.sent, y1.queue, sid in y1.log.increments, sid in y1.log.decrements)
    ensures Is(y.queue[0], KIncrement, sid) ==> sid !in y.log.increments
    ensures Is(y.queue[0], KDecrement, sid) ==> sid !in y.log.decrements && sid in y.log.increments
  {
    hide OnMessage, NewlyRaised, Launch, Tallied, LocalInv, Flow, QueuedWasSent, InboxOk, BlockReceived, BlockAtGate, Post;
    SentUnchanged(y, hpack, sid);
    SentCommands(y.tasks[sid]);
    TalliedPop(sid, y.tasks[sid].h.sent, y.queue, sid in y.log.increments, sid in y.log.decrements);
  }

  lemma HandleTallies(y: Sys, hpack: Hpack)
    requires Joint(y) && Tallies(y) && y.queue != []
    ensures Tallies(OnHandle(y, hpack))
  {
    hide OnMessage, NewlyRaised, Launch, Tallied, At, Post;
    assert Skeleton(y);
    HandleKeys(y, hpack);
    forall sid | sid in y.tasks
      ensures var y1 := OnHandle(y, hpack); sid in y1.tasks && Tallied(sid, y1.tasks[sid].h.sent, y1.queue, sid in y1.log.increments, sid in y1.log.decrements)
    {
      HandleTallied(y, hpack, sid);
    }
    if y.queue[0].ActiveStreamCount? {
      assert At(y, y.queue[0].sid);
      HandleTallied(y, hpack, y.queue[0].sid);
    }
  }

  lemma HandleKeys(y: Sys, hpack: Hpack)
    requires y.queue != []
    ensures OnHandle(y, hpack).tasks.Keys == y.tasks.Keys
  {
    hide OnMessage, NewlyRaised, Launch, Receive;
  }

  lemma StepTallies(y: Sys, sid: U32)
    requires Joint(y) && Tallies(y) && sid in y.tasks && CanStep(y.tasks[sid], Cancelled(y, sid))
    ensures Tallies(OnStep(y, sid))
  {
    hide Tallied, At, TaskStep;
    assert At(y, sid);
    forall id | id in y.tasks
      ensures Tallied(id, OnStep(y, sid).tasks[id].h.sent, OnStep(y, sid).queue, id in y.log.increments, id in y.log.decrements)
    {
      StepTallied(y, sid, id);
    }
  }

  lemma NewTallied(sid: U32, queue: seq<ToConn>)
    requires forall i :: 0 <= i < |queue| ==> !Mine(queue[i], sid)
    ensures Tallied(sid, [], queue, false, false)
  {
    SystemArrive.NobodysMessages(queue, KIncrement, sid);
    SystemArrive.NobodysMessages(queue, KDecrement, sid);
  }

  /** Posting a frame or cancelling a task does not change what the task has sent. */
  lemma ArriveSent(y: Sys, f: Frame, sid: U32)
    requires sid in OnArrive(y, f).tasks && SystemArrive.FrameEffect(y.conn, f, OnFrame(y.conn, f)) && Skeleton(y)
    ensures sid in y.tasks ==> OnArrive(y, f).tasks[sid].h.sent == y.tasks[sid].h.sent
    ensures sid !in y.tasks ==> OnArrive(y, f).tasks[sid].h.sent == []
  {
    hide OnFrame, Seen, Checked, GateOk, GateAfter, Receive;
    var o := OnFrame(y.conn, f);
    if o.post.Some? && o.post.value.0 == sid {
      PostedSent(if o.created == Some(sid) then NewTask(sid) else y.tasks[sid], o.post.value.1, |y.received|);
    }
  }

  lemma PostedSent(t: Task, m: ToStream, at: nat)
    ensures Receive(t, m, at).h.sent == t.h.sent
  {}

  lemma ArriveTallies(y: Sys, f: Frame)
    requires Joint(y) && Tallies(y) && Listening(y.conn)
    ensures Tallies(OnArrive(y, f))
  {
    SystemArrive.ArriveSkeleton(y, f);
    forall sid | sid in OnArrive(y, f).tasks
      ensures Tallied(sid, OnArrive(y, f).tasks[sid].h.sent, y.queue, sid in y.log.increments, sid in y.log.decrements)
    {
      ArriveSent(y, f, sid);
      hide OnArrive, Tallied, SystemArrive.FrameEffect;
      if sid !in y.tasks {
        NewTallied(sid, y.queue);
      }
    }
    ArriveLog(y, f);
    hide OnArrive, Tallied, SystemArrive.FrameEffect;
  }

  lemma ArriveLog(y: Sys, f: Frame)
    ensures var y1 := OnArrive(y, f);
      && y1.queue == y.queue && y1.log.increments == y.log.increments && y1.log.decrements == y.log.decrements
      && y1.log.cancels == y.log.cancels && y1.log.revivals == y.log.revivals
      && y1.log.adds == y.log.adds + (if OnFrame(y.conn, f).created.Some? then 1 else 0)
      && y1.conn == OnFrame(y.conn, f).conn
  {
    hide OnFrame, Post, Spawn;
  }

  /** The remaining events leave queue, commands and logs of sent messages alone. */
  predicate SameTallies(y: Sys, y1: Sys) {
    && y1.tasks.Keys == y.tasks.Keys
    && (forall sid :: sid in y.tasks ==> y1.tasks[sid].h.sent == y.tasks[sid].h.sent)
    && y1.queue == y.queue && y1.log.increments == y.log.increments && y1.log.decrements == y.log.decrements
  }

  lemma TalliesFollow(y: Sys, y1: Sys)
    requires Tallies(y) && SameTallies(y, y1)
    ensures Tallies(y1)
  {
    hide Tallied;
  }

  lemma AnswerSame(y: Sys)
    requires y.conn.ctx.error.Some?
    ensures SameTallies(y, OnAnswer(y))
  {
    hide AnswerError;
  }

  lemma ReplySame(y: Sys, sid: U32, r: Response)
    requires sid in y.tasks
    ensures SameTallies(y, OnReply(y, sid, r))
  {}

  lemma NextTallies(y: Sys, e: Event)
    requires Joint(y) && Tallies(y) && Enabled(y, e)
    ensures Tallies(Next(y, e))
  {
    hide Joint, Tallies, OnArrive, OnAnswer, OnHandle, OnStep, OnReply;
    match e {
      case Arrive(f) => ArriveTallies(y, f);
      case Answer => AnswerSame(y); TalliesFollow(y, OnAnswer(y));
      case Handle(hpack) => HandleTallies(y, hpack);
      case Step(sid) => StepTallies(y, sid);
      case Reply(sid, encoded, body) =>
        ReplySame(y, sid, (encoded, body));
        TalliesFollow(y, OnReply(y, sid, (encoded, body)));
      case _ => TalliesFollow(y, Next(y, e));
    }
  }

  // ---- each event keeps the count ----

  lemma Mod32(x: int, d: int)
    ensures (x % TWO_32 + d) % TWO_32 == (x + d) % TWO_32
  {}

  lemma CountedFrame(ctx: ConnContext, log: Ledger, created: Option<U32>, ctx1: ConnContext, log1: Ledger)
    requires Counted(ctx, log) && (created.Some? ==> created.value !in ctx.channels)
    requires ctx1.channels == ctx.channels + (if created.Some? then {created.value} else {})
    requires ctx1.tokens == ctx.tokens + (if created.Some? then {created.value} else {})
    requires ctx1.activeCount == (ctx.activeCount + (if created.Some? then 1 else 0)) % TWO_32
    requires log1.adds == log.adds + (if created.Some? then 1 else 0) && log1.cancels == log.cancels && log1.revivals == log.revivals
    requires log1.increments == log.increments && log1.decrements == log.decrements
    ensures Counted(ctx1, log1)
  {
    if created.Some? {
      Mod32(Balance(log), 1);
      assert created.value !in ctx.tokens;
    } else {
      assert ctx1.channels == ctx.channels && ctx1.tokens == ctx.tokens;
    }
  }

  lemma ArriveCounted(y: Sys, f: Frame)
    requires Skeleton(y) && ConnectionInvariant.Accounts(y) && Listening(y.conn) && Counted(y.conn.ctx, y.log)
    ensures Counted(OnArrive(y, f).conn.ctx, OnArrive(y, f).log)
  {
    hide Skeleton, Counted, OnFrame, OnArrive, ConnectionInvariant.AckWritten, Seen, Checked, GateOk, GateAfter, Settings.Legal, Credited;
    SystemArrive.ArriveSkeleton(y, f);
    hide ConnectionInvariant.ErrorLedger, ConnectionInvariant.IdLedger;
    ConnectionInvariant.FrameAccounted(y.conn, f);
    ArriveLog(y, f);
    var o := OnFrame(y.conn, f);
    CountedFrame(y.conn.ctx, y.log, o.created, o.conn.ctx, OnArrive(y, f).log);
  }

  /** Answering an error cancels at most one stream, and only one that has a token. */
  lemma AnswerCancels(c: Conn)
    requires c.ctx.error.Some?
    ensures var o := AnswerError(c);
      && o.conn.ctx.channels == c.ctx.channels
      && (o.cancel.None? ==> o.conn.ctx.tokens == c.ctx.tokens && o.conn.ctx.activeCount == c.ctx.activeCount)
      && (o.cancel.Some? ==>
            && o.cancel.value in c.ctx.tokens
            && o.conn.ctx.tokens == c.ctx.tokens - {o.cancel.value}
            && o.conn.ctx.activeCount == (c.ctx.activeCount as int - 1) % TWO_32)
  {
    hide RstFrame, Goaway.WithError, Writable;
  }

  lemma AnswerCounted(y: Sys)
    requires y.conn.ctx.error.Some? && Counted(y.conn.ctx, y.log)
    ensures Counted(OnAnswer(y).conn.ctx, OnAnswer(y).log)
  {
    hide AnswerError, CancelTask;
    AnswerCancels(y.conn);
    Mod32(Balance(y.log), -1);
  }

  /** What a stream message does to the count and to the tokens. */
  lemma MessageCounts(c: Conn, m: ToConn, hpack: Hpack)
    ensures var ctx := OnMessage(c, m, hpack).conn.ctx;
      && ctx.channels == c.ctx.channels
      && ctx.tokens == c.ctx.tokens + (if m.RequestForDispatch? then {m.sid} else {})
      && ctx.activeCount == (if m.ActiveStreamCount? then Count(c.ctx, m.command).activeCount else c.ctx.activeCount)
  {
    hide Deliver, HeaderBlock.Decoded, HeaderBlock.DecodedTrailers;
    if m.DoResponse? {
      DeliverKeeps(c, m.frames, false);
    }
  }

  lemma HandleLog(y: Sys, hpack: Hpack)
    requires y.queue != []
    ensures var (log, log1, m) := (y.log, OnHandle(y, hpack).log, y.queue[0]);
      && log1.adds == log.adds && log1.cancels == log.cancels
      && log1.increments == (if m.ActiveStreamCount? && m.command.Increment? then log.increments + {m.sid} else log.increments)
      && log1.decrements == (if m.ActiveStreamCount? && m.command.Decrement? then log.decrements + {m.sid} else log.decrements)
      && log1.revivals == log.revivals + (if m.RequestForDispatch? && m.sid !in y.conn.ctx.tokens then 1 else 0)
      && OnHandle(y, hpack).conn == OnMessage(y.conn, m, hpack).conn
  {
    hide OnMessage, Post, Launch, NewlyRaised;
  }

  /** The first message in the channel is addressed to a stream, and a command in it has not been handled before. */
  lemma NextCommand(y: Sys)
    requires Joint(y) && Tallies(y) && y.queue != []
    ensures var m := y.queue[0];
      && (!m.Failure? ==> m.sid in y.conn.ctx.channels)
      && (m.ActiveStreamCount? && m.command.Increment? ==> m.sid !in y.log.increments)
      && (m.ActiveStreamCount? && m.command.Decrement? ==> m.sid !in y.log.decrements)
  {
    hide At, Tallied, OnHandle, GateOk;
    var m := y.queue[0];
    assert Skeleton(y);
    if m.ActiveStreamCount? {
      HandleTallied(y, CompressionFailed, m.sid);
    }
  }

  lemma HandleCounted(y: Sys, hpack: Hpack)
    requires Joint(y) && Tallies(y) && y.queue != [] && Counted(y.conn.ctx, y.log)
    ensures Counted(OnHandle(y, hpack).conn.ctx, OnHandle(y, hpack).log)
  {
    hide Joint, Tallies, OnHandle, OnMessage, Counted, Count;
    NextCommand(y);
    MessageCounts(y.conn, y.queue[0], hpack);
    HandleLog(y, hpack);
    CountedMessage(y.conn.ctx, y.log, y.queue[0], OnHandle(y, hpack).conn.ctx, OnHandle(y, hpack).log);
  }

  lemma CountedMessage(ctx: ConnContext, log: Ledger, m: ToConn, ctx1: ConnContext, log1: Ledger)
    requires Counted(ctx, log) && (!m.Failure? ==> m.sid in ctx.channels)
    requires m.ActiveStreamCount? && m.command.Increment? ==> m.sid !in log.increments
    requires m.ActiveStreamCount? && m.command.Decrement? ==> m.sid !in log.decrements
    requires ctx1.channels == ctx.channels
    requires ctx1.tokens == ctx.tokens + (if m.RequestForDispatch? then {m.sid} else {})
    requires ctx1.activeCount == (if m.ActiveStreamCount? then Count(ctx, m.command).activeCount else ctx.activeCount)
    requires log1.adds == log.adds && log1.cancels == log.cancels
    requires log1.increments == (if m.ActiveStreamCount? && m.command.Increment? then log.increments + {m.sid} else log.increments)
    requires log1.decrements == (if m.ActiveStreamCount? && m.command.Decrement? then log.decrements + {m.sid} else log.decrements)
    requires log1.revivals == log.revivals + (if m.RequestForDispatch? && m.sid !in ctx.tokens then 1 else 0)
    ensures Counted(ctx1, log1)
  {
    if m.RequestForDispatch? {
      CountedToken(ctx, log, m.sid, ctx1, log1);
    } else {
      assert ctx1.tokens == ctx.tokens;
      if m.ActiveStreamCount? {
        CountedCommand(ctx, log, m.command, m.sid, ctx1, log1);
      }
    }
  }

  lemma CountedToken(ctx: ConnContext, log: Ledger, sid: U32, ctx1: ConnContext, log1: Ledger)
    requires Counted(ctx, log) && sid in ctx.channels
    requires ctx1.channels == ctx.channels && ctx1.tokens == ctx.tokens + {sid} && ctx1.activeCount == ctx.activeCount
    requires log1.adds == log.adds && log1.cancels == log.cancels
    requires log1.increments == log.increments && log1.decrements == log.decrements
    requires log1.revivals == log.revivals + (if sid in ctx.tokens then 0 else 1)
    ensures Counted(ctx1, log1)
  {
    if sid in ctx.tokens {
      assert ctx1.tokens == ctx.tokens;
    }
  }

  lemma CountedCommand(ctx: ConnContext, log: Ledger, command: CountCommand, sid: U32, ctx1: ConnContext, log1: Ledger)
    requires Counted(ctx, log)
    requires command.Increment? ==> sid !in log.increments
    requires command.Decrement? ==> sid !in log.decrements
    requires ctx1.channels == ctx.channels && ctx1.tokens == ctx.tokens && ctx1.activeCount == Count(ctx, command).activeCount
    requires log1.adds == log.adds && log1.cancels == log.cancels && log1.revivals == log.revivals
    requires log1.increments == if command.Increment? then log.increments + {sid} else log.increments
    requires log1.decrements == if command.Decrement? then log.decrements + {sid} else log.decrements
    ensures Counted(ctx1, log1)
  {
    match command {
      case Increment =>
        Mod32(Balance(log), 1);
        assert Balance(log1) == Balance(log) + 1;
      case Decrement =>
        Mod32(Balance(log), -1);
        assert Balance(log1) == Balance(log) - 1;
      case Keep =>
    }
  }

  // ---- every run ----

  lemma NextCount(y: Sys, e: Event)
    requires Joint(y) && ConnectionInvariant.Accounts(y) && CountInv(y) && Enabled(y, e)
    ensures CountInv(Next(y, e))
  {
    hide Tallies, OnArrive, OnAnswer, OnHandle, TaskStep, Receive, Counted, Skeleton, ConnectionInvariant.Accounts, At;
    NextTallies(y, e);
    match e {
      case Arrive(f) => ArriveCounted(y, f);
      case Answer => AnswerCounted(y);
      case Handle(hpack) => HandleCounted(y, hpack);
      case _ =>
        OtherEvents(y, e);
        SameCounted(y.conn.ctx, y.log, Next(y, e).conn.ctx, Next(y, e).log);
    }
  }

  lemma OtherEvents(y: Sys, e: Event)
    requires Enabled(y, e) && !e.Arrive? && !e.Answer? && !e.Handle?
    ensures Next(y, e).conn.ctx == y.conn.ctx.(error := Next(y, e).conn.ctx.error, rootCancelled := Next(y, e).conn.ctx.rootCancelled)
    ensures var log := Next(y, e).log; log == y.log.(raised := log.raised, replies := log.replies, dropped := log.dropped)
  {
    hide TaskStep, Receive;
  }

  lemma SameCounted(ctx: ConnContext, log: Ledger, ctx1: ConnContext, log1: Ledger)
    requires Counted(ctx, log)
    requires ctx1 == ctx.(error := ctx1.error, rootCancelled := ctx1.rootCancelled) && log1 == log.(raised := log1.raised, replies := log1.replies, dropped := log1.dropped)
    ensures Counted(ctx1, log1)
  {}

  lemma {:induction false} RunCount(y0: Sys, events: seq<Event>, y: Sys)
    requires Joint(y0) && ConnectionInvariant.Accounts(y0) && CountInv(y0) && Run(y0, events, y)
    ensures CountInv(y)
    decreases events
  {
    hide Joint, ConnectionInvariant.Accounts, CountInv, Next, Enabled, Trace;
    if events != [] {
      var n := |events| - 1;
      var mid := LastEvent(y0, events, y);
      RunCount(y0, events[..n], mid);
      SystemArrive.RunJoint(y0, events[..n], mid);
      ConnectionInvariant.RunAccounts(y0, events[..n], mid);
      NextCount(mid, events[n]);
    }
  }

  lemma ReachableCount(y: Sys)
    requires Reachable(y)
    ensures CountInv(y)
  {
    hide Joint, ConnectionInvariant.Accounts, CountInv, Init, Run;
    var y0, events :| Init(y0) && Run(y0, events, y);
    InitJoint(y0);
    ConnectionInvariant.InitAccounts(y0);
    InitCount(y0);
    RunCount(y0, events, y);
  }
}
