/** A run from the handshake to a negative count of active streams. */
module UnderflowRun {
  import opened Wrappers
  import opened Bytes
  import opened Frames
  import opened Messages
  import opened RequestContext
  import opened StreamModel
  import opened ConnectionModel
  import opened System
  import opened StreamInvariant
  import opened Scenario
  import opened OpenedStream
  import ActiveCount
  import HeaderBlock
  import Settings

  const RESET: Frame := Plain(RstStream, SID, [0, 0, 0, 8])

  /** A window update of nothing, which is an error of the stream. */
  const NO_UPDATE: Frame := Plain(WindowUpdate, SID, [0, 0, 0, 0])

  /** The connection can take frames of the stream. */
  predicate Attentive(ctx: ConnContext) {
    ctx.error.None? && ctx.gate.None? && ctx.goAway.None? && SID in ctx.channels && !ctx.rootCancelled
  }

  lemma ResetMove(x: Scene)
    requires Attentive(x.ctx)
    ensures Fits(x, Arrive(RESET)) && Play(x, Arrive(RESET)) == x.(inbox := x.inbox + [FrameForRequest(RESET)], received := x.received + [RESET])
  {}

  lemma NoUpdateMove(x: Scene)
    requires Attentive(x.ctx)
    ensures Fits(x, Arrive(NO_UPDATE))
    ensures Play(x, Arrive(NO_UPDATE)) == x.(ctx := x.ctx.(error := Some(StreamError(SID, ProtocolError))), received := x.received + [NO_UPDATE])
  {}

  lemma CancelMove(x: Scene)
    requires x.ctx.error == Some(StreamError(SID, ProtocolError)) && SID in x.ctx.tokens
    ensures Fits(x, Answer)
    ensures Play(x, Answer) ==
      x.(ctx := CancelStream(x.ctx.(error := None), SID), cancelled := true, record := x.record.(cancels := x.record.cancels + 1))
  {}

  lemma ReviveMove(x: Scene, hpack: Hpack)
    requires x.ctx.error.None? && x.queue != [] && x.queue[0].RequestForDispatch? && x.queue[0].sid == SID
    ensures Fits(x, Event.Handle(hpack))
    ensures Play(x, Event.Handle(hpack)) == x.(ctx := x.ctx.(tokens := x.ctx.tokens + {SID}), queue := x.queue[1..])
  {}

  // A request without a body is dispatched.

  function Requested(block: seq<Byte>, headers: Headers): Stream {
    AfterHeaders(Filled(true, block)).(headerState := Completed, trailerState := Completed, composited := Some(headers))
  }

  lemma AnswerTaken(block: seq<Byte>, headers: Headers)
    ensures HandleHeadersDecoded(AfterHeaders(Filled(true, block)), headers, {}) == (Requested(block, headers), None)
  {
    hide Seen;
  }

  lemma CompleteDispatches(block: seq<Byte>, headers: Headers)
    requires Dispatchable(headers)
    ensures var s := Requested(block, headers);
      && ShouldDispatch(s) && TryFrom(headers, FirstBody(s)).Ok?
      && !s.headerState.Ready? && !ShouldAskTrailers(s) && s.id == SID
  {
    DispatchableIffBuilt(headers, FirstBody(Requested(block, headers)));
    hide TryFrom, Dispatchable, Seen;
  }

  /** A request for dispatch waits in the channel. */
  function Dispatching(options: Settings.Options, block: seq<Byte>, ps: seq<HeaderBlock.Pair>, ctx: Context): Scene
    requires HeaderBlock.WellFormed(ps)
  {
    Decoding(options, true, block, ps).(
      s := AfterDispatch(Requested(block, HeaderBlock.HeaderMap(ps))), inbox := [], queue := [RequestForDispatch(ctx, SID)])
  }

  lemma RequestSent(y0: Sys, block: seq<Byte>, ps: seq<HeaderBlock.Pair>) returns (y1: Sys, ctx: Context)
    requires Init(y0) && |block| <= MAX_FRAME_SIZE && HeaderBlock.WellFormed(ps) && HeaderBlock.DeclaredTrailers(ps) == {}
    ensures LeadsTo(y0, y1) && Shows(y1, Dispatching(y0.conn.ctx.clientOptions, block, ps, ctx))
  {
    hide Init, LeadsTo, Shows, Fits, Play, Seen, HandleHeadersDecoded, Resting, OneStream, Filled, AfterHeaders, ShouldDispatch, Dispatchable,
      HeaderBlock.FieldsOk, HeaderBlock.Complete, HeaderBlock.HeaderMap, HeaderBlock.DeclaredTrailers;
    WellFormedIsDispatchable(ps);
    var headers := HeaderBlock.HeaderMap(ps);
    y1 := BlockDecoded(y0, true, block, ps);
    var x := Decoding(y0.conn.ctx.clientOptions, true, block, ps);
    AnswerTaken(block, headers);
    AnswerMove(x, headers, {});
    y1 := Onward(y0, y1, x, Step(SID), Play(x, Step(SID)));
    x := Play(x, Step(SID));
    CompleteDispatches(block, headers);
    IdleMove(x);
    y1 := Onward(y0, y1, x, Step(SID), Play(x, Step(SID)));
    x := Play(x, Step(SID));
    IdleMove(x);
    y1 := Onward(y0, y1, x, Step(SID), Play(x, Step(SID)));
    x := Play(x, Step(SID));
    ctx := TryFrom(headers, FirstBody(x.s)).value;
    DispatchMoved(x, ctx);
    y1 := Onward(y0, y1, x, Step(SID), Play(x, Step(SID)));
    x := Play(x, Step(SID));
    DispatchedRests(x, block, headers);
    y1 := Rested(y0, y1, x);
    assert [] + [RequestForDispatch(ctx, SID)] == [RequestForDispatch(ctx, SID)] && [HeadersDecoded(headers, {})][1..] == [];
  }

  lemma DispatchedRests(x: Scene, block: seq<Byte>, headers: Headers)
    requires x.s == AfterDispatch(Requested(block, headers)) && !x.cancelled
    ensures Resting(x)
  {
    hide Seen;
  }

  // The client resets the stream while the request waits in the channel.

  function Reset(block: seq<Byte>, headers: Headers): Stream {
    AfterDispatch(Requested(block, headers)).(state := Closed)
  }

  lemma ResetTaken(block: seq<Byte>, headers: Headers)
    ensures HandleFrame(AfterDispatch(Requested(block, headers)), RESET) == Accepted(Reset(block, headers), Decrement)
    ensures AfterDispatch(Requested(block, headers)).id == SID
  {
    hide Seen;
  }

  /** The connection has counted one stream in, and its dispatch request and its Decrement wait. */
  predicate Waits(x: Scene, received: seq<Frame>, block: seq<Byte>, ps: seq<HeaderBlock.Pair>) {
    && !x.cancelled && x.received == received && x.record == Record(1, 0, {SID}, {}, map[SID := (block, ps)], map[])
    && |x.queue| == 2 && x.queue[0].RequestForDispatch? && x.queue[0].sid == SID && x.queue[1] == ActiveStreamCount(Decrement, SID)
  }

  lemma StreamReset(y0: Sys, block: seq<Byte>, ps: seq<HeaderBlock.Pair>) returns (y1: Sys, x1: Scene)
    requires Init(y0) && |block| <= MAX_FRAME_SIZE && HeaderBlock.WellFormed(ps) && HeaderBlock.DeclaredTrailers(ps) == {}
    ensures LeadsTo(y0, y1) && Shows(y1, x1)
    ensures x1.ctx == CountedIn(y0.conn.ctx.clientOptions) && Waits(x1, [Opening(true, block), RESET], block, ps)
  {
    hide Init, LeadsTo, Shows, Fits, Play, HandleFrame, Requested, AfterDispatch, Reset, Settings.Legal,
      HeaderBlock.FieldsOk, HeaderBlock.Complete, HeaderBlock.HeaderMap, HeaderBlock.DeclaredTrailers;
    var ctx;
    y1, ctx := RequestSent(y0, block, ps);
    var headers := HeaderBlock.HeaderMap(ps);
    var x := Dispatching(y0.conn.ctx.clientOptions, block, ps, ctx);
    ResetMove(x);
    y1 := Onward(y0, y1, x, Arrive(RESET), Play(x, Arrive(RESET)));
    x := Play(x, Arrive(RESET));
    ResetTaken(block, headers);
    FrameMove(x, RESET);
    y1 := Onward(y0, y1, x, Step(SID), Play(x, Step(SID)));
    x := Play(x, Step(SID));
    ReportMove(x);
    y1 := Onward(y0, y1, x, Step(SID), Play(x, Step(SID)));
    x1 := Play(x, Step(SID));
    assert [Opening(true, block)] + [RESET] == [Opening(true, block), RESET];
  }

  /** The stream is cancelled, its waiting request revives its token, and it is cancelled again. */
  lemma CancelledTwice(y0: Sys, y: Sys, x: Scene, received: seq<Frame>, block: seq<Byte>, ps: seq<HeaderBlock.Pair>) returns (y1: Sys, x1: Scene)
    requires LeadsTo(y0, y) && Shows(y, x) && Waits(x, received, block, ps)
    requires Attentive(x.ctx) && SID in x.ctx.tokens && x.ctx.activeCount == 2
    ensures LeadsTo(y0, y1) && Shows(y1, x1)
    ensures x1.record == Record(1, 2, {SID}, {SID}, map[SID := (block, ps)], map[]) && x1.ctx.activeCount == TWO_32 - 1
    ensures x1.received == received + [NO_UPDATE] + [NO_UPDATE]
  {
    hide LeadsTo, Shows, Fits, Play;
    NoUpdateMove(x);
    y1 := Onward(y0, y, x, Arrive(NO_UPDATE), Play(x, Arrive(NO_UPDATE)));
    x1 := Play(x, Arrive(NO_UPDATE));
    CancelMove(x1);
    y1 := Onward(y0, y1, x1, Answer, Play(x1, Answer));
    x1 := Play(x1, Answer);
    ReviveMove(x1, CompressionFailed);
    y1 := Onward(y0, y1, x1, Event.Handle(CompressionFailed), Play(x1, Event.Handle(CompressionFailed)));
    x1 := Play(x1, Event.Handle(CompressionFailed));
    CountMove(x1, CompressionFailed);
    y1 := Onward(y0, y1, x1, Event.Handle(CompressionFailed), Play(x1, Event.Handle(CompressionFailed)));
    x1 := Play(x1, Event.Handle(CompressionFailed));
    NoUpdateMove(x1);
    y1 := Onward(y0, y1, x1, Arrive(NO_UPDATE), Play(x1, Arrive(NO_UPDATE)));
    x1 := Play(x1, Arrive(NO_UPDATE));
    CancelMove(x1);
    y1 := Onward(y0, y1, x1, Answer, Play(x1, Answer));
    x1 := Play(x1, Answer);
  }

  /**
   * From every state the handshake leaves, and for every header block for which HPACK gives well-formed pairs that
   * declare no trailers, there is a run to a negative balance, which the 32-bit count shows as its largest value: the
   * request is dispatched and its stream reset; an error cancels the stream before the connection handles the dispatch
   * request, and another error after it.
   */
  lemma RunThatUnderflows(y0: Sys, block: seq<Byte>, ps: seq<HeaderBlock.Pair>) returns (events: seq<Event>, y1: Sys)
    requires Init(y0) && |block| <= MAX_FRAME_SIZE && HeaderBlock.WellFormed(ps) && HeaderBlock.DeclaredTrailers(ps) == {}
    ensures Run(y0, events, y1) && y1.conn.status.Running?
    ensures y1.received == [Opening(true, block), RESET, NO_UPDATE, NO_UPDATE]
    ensures y1.log.headerBlocks == map[SID := (block, ps)] && y1.log.trailerBlocks == map[]
    ensures ActiveCount.Balance(y1.log) == -1 && y1.conn.ctx.activeCount == 0xFFFF_FFFF
  {
    hide Init, Run, Settings.Legal, HeaderBlock.WellFormed, HeaderBlock.DeclaredTrailers, HpackOf;
    var y2, x := StreamReset(y0, block, ps);
    CountedTwo(y0.conn.ctx.clientOptions);
    var x1;
    y1, x1 := CancelledTwice(y0, y2, x, [Opening(true, block), RESET], block, ps);
    assert |{SID}| == 1;
    var results :| LeadsBy(y0, results, y1);
    events :| Run(y0, events, y1);
    hide ShowsTask;
  }

  lemma CountedTwo(options: Settings.Options)
    ensures Attentive(CountedIn(options)) && SID in CountedIn(options).tokens && CountedIn(options).activeCount == 2
  {}

  /** The pairs of a plain GET are an instance, whatever octets encode them. */
  lemma SomeRunUnderflows(y0: Sys, block: seq<Byte>) returns (events: seq<Event>, y1: Sys)
    requires Init(y0) && |block| <= MAX_FRAME_SIZE
    ensures Run(y0, events, y1) && ActiveCount.Balance(y1.log) == -1 && y1.log.headerBlocks == map[SID := (block, GET_ROOT)]
  {
    hide Init, Run, HeaderBlock.WellFormed;
    RootIsWellFormed();
    events, y1 := RunThatUnderflows(y0, block, GET_ROOT);
  }
}
