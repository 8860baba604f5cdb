/** The connection and one stream as a small state, on which a run can be worked out event by event. */
module Scenario {
  import opened Wrappers
  import opened Bytes
  import opened Frames
  import opened Messages
  import opened RequestContext
  import opened StreamModel
  import opened ConnectionModel
  import opened System
  import opened StreamInvariant
  import Refinement
  import StrayRun
  import HeaderBlock
  import Goaway
  import Settings

  const SID: U32 := 1

  /** The connection and its one stream, without the wire and without the stream's past. */
  datatype Scene = Scene(
    ctx: ConnContext,
    queue: seq<ToConn>,
    s: Stream,
    phase: Phase,
    inbox: seq<ToStream>,
    cancelled: bool,
    received: seq<Frame>,
    record: Record)

  /** The entries of the ledger that the count is made of, and those of the decoder's answers. */
  datatype Record = Record(
    adds: nat,
    cancels: nat,
    increments: set<U32>,
    decrements: set<U32>,
    headerBlocks: map<U32, Block>,
    trailerBlocks: map<U32, seq<Block>>)

  function RecordOf(log: Ledger): Record {
    Record(log.adds, log.cancels, log.increments, log.decrements, log.headerBlocks, log.trailerBlocks)
  }

  predicate ShowsTask(t: Task, x: Scene) {
    t.s == x.s && t.phase == x.phase && t.inbox == x.inbox && t.cancelled == x.cancelled
  }

  predicate Shows(y: Sys, x: Scene) {
    && y.conn.ctx == x.ctx && y.conn.status.Running? && !x.ctx.rootCancelled
    && y.queue == x.queue
    && y.tasks.Keys == {SID} && ShowsTask(y.tasks[SID], x)
    && y.received == x.received && RecordOf(y.log) == x.record
  }

  // ---- the stream moves ----

  function Bare(x: Scene): Task {
    Task(x.s, x.phase, x.inbox, x.cancelled, NOTHING_YET)
  }

  predicate CanMove(x: Scene) {
    !x.cancelled && CanStep(Bare(x), false)
  }

  function MoveOn(x: Scene): Scene
    requires CanMove(x)
  {
    var st := TaskStep(Bare(x), false);
    x.(s := st.task.s, phase := st.task.phase, inbox := st.task.inbox, queue := Log1(x.queue, st.message))
  }

  /** A step does not look at the record of the past. */
  lemma PastUnused(t: Task, h: History)
    requires CanStep(t, false)
    ensures var (a, b) := (TaskStep(t, false), TaskStep(t.(h := h), false));
      a.message == b.message && a.task.s == b.task.s && a.task.phase == b.task.phase && a.task.inbox == b.task.inbox
      && a.task.cancelled == t.cancelled
  {
    hide StreamModel.Respond, CompositeHeaders, CompositeTrailers, DispatchIfNeeded, React, Consumed;
  }

  lemma MoveShown(y: Sys, x: Scene)
    requires Shows(y, x) && CanMove(x)
    ensures Enabled(y, Step(SID)) && Shows(Next(y, Step(SID)), MoveOn(x))
  {
    hide TaskStep;
    PastUnused(y.tasks[SID], NOTHING_YET);
  }

  // ---- the connection takes a frame ----

  function Alone(ctx: ConnContext): Conn {
    Conn(ctx, [], [], Running)
  }

  /** Frames of a stream that the connection answers nothing to by itself. */
  predicate Silent(f: Frame) {
    f.ty.Headers? || f.ty.Continuation? || f.ty.RstStream? || f.ty.WindowUpdate?
  }

  lemma WireUnused(c: Conn, f: Frame)
    requires Silent(f) && c.status.Running?
    ensures var (a, b) := (OnFrame(c, f), OnFrame(Alone(c.ctx), f));
      && a.post == b.post && a.created == b.created
      && a.conn.ctx == b.conn.ctx && a.conn.status == b.conn.status
  {
    hide HandleHeaders, HandleContinuation, HandleRstStream, HandleWindowUpdate, CommonFault;
    NoAck(c.ctx, f);
    hide ConnectionModel.Handle;
  }

  lemma NoAck(ctx: ConnContext, f: Frame)
    requires Silent(f)
    ensures ConnectionModel.Handle(ctx, f).Processed? ==> ConnectionModel.Handle(ctx, f).ack.None?
  {}

  function Arrived(inbox: seq<ToStream>, post: Option<(U32, ToStream)>): seq<ToStream> {
    if post.Some? && post.value.0 == SID then inbox + [post.value.1] else inbox
  }

  predicate CanTake(x: Scene, f: Frame) {
    && Silent(f) && x.ctx.error.None?
    && var o := OnFrame(Alone(x.ctx), f);
      o.created.None? && o.conn.status.Running? && !o.conn.ctx.rootCancelled
  }

  function Take(x: Scene, f: Frame): Scene {
    var o := OnFrame(Alone(x.ctx), f);
    x.(ctx := o.conn.ctx, inbox := Arrived(x.inbox, o.post), received := x.received + [f])
  }

  lemma TakeShown(y: Sys, x: Scene, f: Frame)
    requires Shows(y, x) && CanTake(x, f)
    ensures Enabled(y, Arrive(f)) && Shows(Next(y, Arrive(f)), Take(x, f))
  {
    hide OnFrame, NoteForwarded, NewlyRaised, Credited;
    WireUnused(y.conn, f);
  }

  /** The scene after the frame that opens the stream. */
  lemma OpenShown(y: Sys, f: Frame, m: ToStream)
    requires Init(y) && Silent(f) && f.ty.Headers?
    requires var o := OnFrame(Alone(y.conn.ctx), f);
      o.conn.status.Running? && !o.conn.ctx.rootCancelled && o.created == Some(SID) && o.post == Some((SID, m))
    ensures Enabled(y, Arrive(f))
    ensures Shows(Next(y, Arrive(f)),
                  Scene(OnFrame(Alone(y.conn.ctx), f).conn.ctx, [], NewStream(SID, INITIAL_WINDOW), AtHeaders, [m], false, [f],
                        Record(1, 0, {}, {}, map[], map[])))
  {
    hide OnFrame, NoteForwarded, NewlyRaised, Credited, Settings.Legal;
    WireUnused(y.conn, f);
    assert [] + [m] == [m];
  }

  // ---- the connection takes a message ----

  predicate CanHeed(x: Scene, hpack: Hpack) {
    && x.ctx.error.None? && x.queue != [] && !x.queue[0].DoResponse?
  }

  function Noted(record: Record, m: ToConn, hpack: Hpack, posted: bool): Record {
    record.(increments := if m.ActiveStreamCount? && m.command.Increment? then record.increments + {m.sid} else record.increments,
            decrements := if m.ActiveStreamCount? && m.command.Decrement? then record.decrements + {m.sid} else record.decrements,
            headerBlocks := if posted && m.HeadersToDecode? && hpack.Pairs? then record.headerBlocks[m.sid := (m.payload, hpack.pairs)] else record.headerBlocks,
            trailerBlocks :=
              if posted && m.TrailersToDecode? && hpack.Pairs?
              then record.trailerBlocks[m.sid := BlocksOf(record.trailerBlocks, m.sid) + [(m.payload, hpack.pairs)]] else record.trailerBlocks)
  }

  function Heed(x: Scene, hpack: Hpack): Scene
    requires x.queue != []
  {
    var o := OnMessage(Alone(x.ctx), x.queue[0], hpack);
    x.(ctx := o.conn.ctx, queue := x.queue[1..], inbox := Arrived(x.inbox, o.post), record := Noted(x.record, x.queue[0], hpack, o.post.Some?))
  }

  lemma WireUnheard(c: Conn, m: ToConn, hpack: Hpack)
    requires c.status.Running? && !m.DoResponse?
    ensures var (a, b) := (OnMessage(c, m, hpack), OnMessage(Alone(c.ctx), m, hpack));
      a.post == b.post && a.conn.ctx == b.conn.ctx && a.conn.status.Running? && a.conn.ctx.rootCancelled == c.ctx.rootCancelled
  {
    hide HeaderBlock.Decoded, HeaderBlock.DecodedTrailers;
  }

  lemma HeedTask(y: Sys, x: Scene, o: Outcome)
    requires Shows(y, x)
    ensures var tasks := Post(y.tasks, o.post, |y.received|);
      tasks.Keys == {SID} && ShowsTask(tasks[SID], x.(inbox := Arrived(x.inbox, o.post)))
  {
    hide NoteForwarded;
  }

  lemma HeedLog(y: Sys, hpack: Hpack)
    requires y.queue != []
    ensures RecordOf(OnHandle(y, hpack).log) == Noted(RecordOf(y.log), y.queue[0], hpack, OnMessage(y.conn, y.queue[0], hpack).post.Some?)
    ensures var (o, y1) := (OnMessage(y.conn, y.queue[0], hpack), OnHandle(y, hpack));
      y1.conn == o.conn && y1.queue == y.queue[1..] && y1.received == y.received && y1.tasks == Post(y.tasks, o.post, |y.received|)
  {
    hide OnMessage, Post, NewlyRaised, Launch, BlocksOf;
  }

  lemma HeedShown(y: Sys, x: Scene, hpack: Hpack)
    requires Shows(y, x) && CanHeed(x, hpack)
    ensures Enabled(y, Event.Handle(hpack)) && Shows(Next(y, Event.Handle(hpack)), Heed(x, hpack))
  {
    hide OnMessage, OnHandle, Post, NewlyRaised, Launch, BlocksOf;
    WireUnheard(y.conn, y.queue[0], hpack);
    HeedTask(y, x, OnMessage(y.conn, y.queue[0], hpack));
    HeedLog(y, hpack);
  }

  // ---- the connection answers an error ----

  predicate CanAnswer(x: Scene) {
    x.ctx.error.Some? && x.ctx.error.value.StreamError?
  }

  function AnswerOne(x: Scene): Scene
    requires CanAnswer(x)
  {
    var (ctx, sid) := (x.ctx.(error := None), x.ctx.error.value.sid);
    var found := sid in ctx.tokens;
    x.(ctx := CancelStream(ctx, sid), cancelled := x.cancelled || (found && sid == SID),
       record := x.record.(cancels := x.record.cancels + (if found then 1 else 0)))
  }

  lemma AnswerShown(y: Sys, x: Scene)
    requires Shows(y, x) && CanAnswer(x)
    ensures Enabled(y, Answer) && Shows(Next(y, Answer), AnswerOne(x))
  {
    hide Goaway.WithError;
  }

  // ---- any of these ----

  predicate Fits(x: Scene, e: Event) {
    match e
    case Step(sid) => sid == SID && CanMove(x)
    case Arrive(f) => CanTake(x, f)
    case Handle(hpack) => CanHeed(x, hpack)
    case Answer => CanAnswer(x)
    case _ => false
  }

  function Play(x: Scene, e: Event): Scene
    requires Fits(x, e)
  {
    match e
    case Step(_) => MoveOn(x)
    case Arrive(f) => Take(x, f)
    case Handle(hpack) => Heed(x, hpack)
    case Answer => AnswerOne(x)
  }

  lemma Played(y: Sys, x: Scene, e: Event)
    requires Shows(y, x) && Fits(x, e)
    ensures Enabled(y, e) && Shows(Next(y, e), Play(x, e))
  {
    hide MoveOn, Take, Heed, AnswerOne, Enabled, Next, Shows, CanMove, CanTake, CanHeed, CanAnswer;
    match e {
      case Step(_) => MoveShown(y, x);
      case Arrive(f) => TakeShown(y, x, f);
      case Handle(hpack) => HeedShown(y, x, hpack);
      case Answer => AnswerShown(y, x);
    }
  }

  /** One event more in a run whose last scene is known. */
  lemma Onward(y0: Sys, y: Sys, x: Scene, e: Event, x1: Scene) returns (y1: Sys)
    requires LeadsTo(y0, y) && Shows(y, x) && Fits(x, e) && Play(x, e) == x1
    ensures LeadsTo(y0, y1) && Shows(y1, x1)
  {
    hide *;
    Played(y, x, e);
    y1 := Next(y, e);
    LeadsToNext(y, e);
    LeadsBoth(y0, y, y1);
  }

  // ---- what the moves of these runs do ----

  /** This move has nothing to hand over. */
  predicate NothingToDo(x: Scene) {
    match x.phase
    case AtHeaders => !x.s.headerState.Ready?
    case AtTrailers => !ShouldAskTrailers(x.s)
    case AtDispatch => !ShouldDispatch(x.s)
    case AtRespond => x.s.pending == []
    case _ => false
  }

  lemma IdleMove(x: Scene)
    requires NothingToDo(x) && !x.cancelled
    ensures Fits(x, Step(SID)) && Play(x, Step(SID)) == x.(phase := Refinement.PhaseAfter(x.phase))
  {}

  /** Nothing to hand over before the next receive. */
  predicate Resting(x: Scene) {
    !x.s.headerState.Ready? && !ShouldAskTrailers(x.s) && !ShouldDispatch(x.s) && x.s.pending == [] && !x.cancelled
  }

  lemma {:induction false} Rested(y0: Sys, y: Sys, x: Scene) returns (y1: Sys)
    requires LeadsTo(y0, y) && Shows(y, x) && Resting(x) && Refinement.BeforeReceiving(x.phase)
    ensures LeadsTo(y0, y1) && Shows(y1, x.(phase := AtReceive))
    decreases StrayRun.Rank(x.phase)
  {
    hide LeadsTo, Shows, Fits, Play, ShouldAskTrailers, ShouldDispatch;
    IdleMove(x);
    y1 := Onward(y0, y, x, Step(SID), x.(phase := Refinement.PhaseAfter(x.phase)));
    if !x.phase.AtRespond? {
      y1 := Rested(y0, y1, x.(phase := Refinement.PhaseAfter(x.phase)));
    }
  }

  lemma FrameMove(x: Scene, f: Frame)
    requires x.phase.AtReceive? && !x.cancelled && x.inbox != [] && x.inbox[0] == FrameForRequest(f) && HandleFrame(x.s, f).Accepted?
    ensures Fits(x, Step(SID))
    ensures Play(x, Step(SID)) ==
      x.(s := HandleFrame(x.s, f).next, inbox := x.inbox[1..], phase := AtReport(ActiveStreamCount(HandleFrame(x.s, f).command, x.s.id)))
  {
    hide HandleFrame, Consumed;
  }

  lemma ReportMove(x: Scene)
    requires x.phase.AtReport? && !x.cancelled
    ensures Fits(x, Step(SID)) && Play(x, Step(SID)) == x.(phase := AtHeaders, queue := x.queue + [x.phase.message])
  {}

  lemma HeadersMoved(x: Scene)
    requires x.phase.AtHeaders? && !x.cancelled && x.s.headerState.Ready? && AllFragments(x.s.headerFrames)
    ensures Fits(x, Step(SID))
    ensures Play(x, Step(SID)) ==
      x.(phase := AtTrailers, s := AfterHeaders(x.s), queue := x.queue + [HeadersToDecode(Fragments(x.s.headerFrames), x.s.id)])
  {}

  lemma AnswerMove(x: Scene, headers: Headers, names: set<string>)
    requires x.phase.AtReceive? && !x.cancelled && x.inbox != [] && x.inbox[0] == HeadersDecoded(headers, names)
    requires HandleHeadersDecoded(x.s, headers, names).1.None?
    ensures Fits(x, Step(SID))
    ensures Play(x, Step(SID)) == x.(s := HandleHeadersDecoded(x.s, headers, names).0, inbox := x.inbox[1..], phase := AtHeaders)
  {}

  lemma CountMove(x: Scene, hpack: Hpack)
    requires x.ctx.error.None? && x.queue != [] && x.queue[0].ActiveStreamCount?
    ensures Fits(x, Event.Handle(hpack))
    ensures Play(x, Event.Handle(hpack)) ==
      x.(ctx := Count(x.ctx, x.queue[0].command), queue := x.queue[1..], record := Noted(x.record, x.queue[0], hpack, false))
  {}

  lemma DecodeMove(x: Scene, ps: seq<HeaderBlock.Pair>)
    requires x.ctx.error.None? && x.queue != [] && x.queue[0].HeadersToDecode? && x.queue[0].sid == SID && SID in x.ctx.channels
    requires HeaderBlock.WellFormed(ps)
    ensures Fits(x, Event.Handle(Pairs(ps)))
    ensures Play(x, Event.Handle(Pairs(ps))) ==
      x.(queue := x.queue[1..], inbox := x.inbox + [HeadersDecoded(HeaderBlock.HeaderMap(ps), HeaderBlock.DeclaredTrailers(ps))],
         record := x.record.(headerBlocks := x.record.headerBlocks[SID := (x.queue[0].payload, ps)]))
  {
    assert ":path" in HeaderBlock.HeaderMap(ps);
    hide HeaderBlock.WellFormed, HeaderBlock.HeaderMap, HeaderBlock.DeclaredTrailers;
  }

  lemma TrailersMoved(x: Scene, declared: set<string>)
    requires x.phase.AtTrailers? && !x.cancelled && ShouldAskTrailers(x.s) && AllFragments(x.s.trailerFrames) && x.s.declared == Some(declared)
    ensures Fits(x, Step(SID))
    ensures Play(x, Step(SID)) ==
      x.(phase := AtDispatch, s := AfterTrailers(x.s), queue := x.queue + [TrailersToDecode(Fragments(x.s.trailerFrames), declared, x.s.id)])
  {}

  lemma DecodeTrailersMove(x: Scene, ts: seq<HeaderBlock.Pair>)
    requires x.ctx.error.None? && x.queue != [] && x.queue[0].TrailersToDecode? && x.queue[0].sid == SID && SID in x.ctx.channels
    requires HeaderBlock.TrailersOk(ts) && HeaderBlock.NamesDeclared(ts, x.queue[0].declared)
    ensures Fits(x, Event.Handle(Pairs(ts)))
    ensures Play(x, Event.Handle(Pairs(ts))) ==
      x.(queue := x.queue[1..], inbox := x.inbox + [TrailersDecoded(HeaderBlock.TrailerMap(ts, x.queue[0].declared))],
         record := x.record.(trailerBlocks := x.record.trailerBlocks[SID := BlocksOf(x.record.trailerBlocks, SID) + [(x.queue[0].payload, ts)]]))
  {
    hide HeaderBlock.TrailersOk, HeaderBlock.NamesDeclared, HeaderBlock.TrailerMap, BlocksOf;
    HeaderBlock.NothingDeclared(ts, x.queue[0].declared);
  }

  lemma MergeMove(x: Scene, late: Headers)
    requires x.phase.AtReceive? && !x.cancelled && x.inbox != [] && x.inbox[0] == TrailersDecoded(late)
    ensures Fits(x, Step(SID))
    ensures Play(x, Step(SID)) ==
      if x.s.composited.None? then x.(phase := Failed)
      else x.(s := x.s.(composited := Some(x.s.composited.value + late), trailerState := Completed), inbox := x.inbox[1..], phase := AtHeaders)
  {}

  lemma DispatchMoved(x: Scene, ctx: Context)
    requires x.phase.AtDispatch? && !x.cancelled && ShouldDispatch(x.s) && TryFrom(x.s.composited.value, FirstBody(x.s)) == Ok(ctx)
    ensures Fits(x, Step(SID))
    ensures Play(x, Step(SID)) == x.(phase := AtRespond, s := AfterDispatch(x.s), queue := x.queue + [RequestForDispatch(ctx, x.s.id)])
  {}
}
