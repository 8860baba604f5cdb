/** A run from the handshake to a stream task that has failed. */
module FailingRun {
  import opened Wrappers
  import opened Bytes
  import opened Frames
  import opened Messages
  import opened RequestContext
  import opened StreamModel
  import opened ConnectionModel
  import opened System
  import opened StreamInvariant
  import opened Scenario
  import opened OpenedStream
  import Settings
  import HeaderBlock

  /** A CONTINUATION frame that has no block to continue, whatever its octets. */
  function Stray(block: seq<Byte>): Frame {
    Plain(Continuation(true), SID, block)
  }

  /** The connection can take frames of the stream. */
  predicate Receptive(x: Scene) {
    x.ctx.error.None? && x.ctx.gate.None? && x.ctx.goAway.None? && SID in x.ctx.channels && !x.ctx.rootCancelled && x.ctx.activeCount < 10
  }

  lemma ClosingMove(x: Scene, block: seq<Byte>)
    requires Receptive(x) && |block| <= MAX_FRAME_SIZE
    ensures var f := Opening(true, block);
      Fits(x, Arrive(f)) && Play(x, Arrive(f)) == x.(inbox := x.inbox + [FrameForRequest(Seen(f))], received := x.received + [f])
  {}

  lemma StrayMove(x: Scene, block: seq<Byte>)
    requires Receptive(x) && |block| <= MAX_FRAME_SIZE
    ensures var f := Stray(block);
      Fits(x, Arrive(f)) && Play(x, Arrive(f)) == x.(inbox := x.inbox + [FrameForRequest(f)], received := x.received + [f])
  {}

  // The header block promises trailers, and the stream waits for them.

  function Promised(block: seq<Byte>, headers: Headers, names: set<string>): Stream {
    AfterHeaders(Filled(false, block)).(headerState := Completed, declared := Some(names), composited := Some(headers))
  }

  lemma PromiseTaken(block: seq<Byte>, headers: Headers, names: set<string>)
    requires names != {}
    ensures HandleHeadersDecoded(AfterHeaders(Filled(false, block)), headers, names) == (Promised(block, headers, names), None)
  {
    hide Seen;
  }

  lemma PromisedRests(x: Scene, block: seq<Byte>, headers: Headers, names: set<string>)
    requires x.s == Promised(block, headers, names) && !x.cancelled
    ensures Resting(x)
  {
    hide Seen;
  }

  function Promising(options: Settings.Options, block: seq<Byte>, ps: seq<HeaderBlock.Pair>): Scene
    requires HeaderBlock.WellFormed(ps)
  {
    Decoding(options, false, block, ps).(
      s := Promised(block, HeaderBlock.HeaderMap(ps), HeaderBlock.DeclaredTrailers(ps)), inbox := [])
  }

  lemma TrailersPromised(y0: Sys, block: seq<Byte>, ps: seq<HeaderBlock.Pair>) returns (y1: Sys)
    requires Init(y0) && |block| <= MAX_FRAME_SIZE && HeaderBlock.WellFormed(ps) && HeaderBlock.DeclaredTrailers(ps) != {}
    ensures LeadsTo(y0, y1) && Shows(y1, Promising(y0.conn.ctx.clientOptions, block, ps))
  {
    hide Init, LeadsTo, Shows, Fits, Play, Seen, Promised, HandleHeadersDecoded, Resting, OneStream, Filled, AfterHeaders,
      HeaderBlock.FieldsOk, HeaderBlock.Complete, HeaderBlock.HeaderMap, HeaderBlock.DeclaredTrailers;
    var headers, names := HeaderBlock.HeaderMap(ps), HeaderBlock.DeclaredTrailers(ps);
    y1 := BlockDecoded(y0, false, block, ps);
    var x := Decoding(y0.conn.ctx.clientOptions, false, block, ps);
    PromiseTaken(block, headers, names);
    AnswerMove(x, headers, names);
    y1 := Onward(y0, y1, x, Step(SID), Play(x, Step(SID)));
    x := Play(x, Step(SID));
    PromisedRests(x, block, headers, names);
    y1 := Rested(y0, y1, x);
    assert [HeadersDecoded(headers, names)][1..] == [];
  }

  // The trailer block comes, and is handed to the decoder.

  function WithTrailers(s: Stream, second: seq<Byte>): Stream {
    s.(state := HalfClosedRemote, requestEnd := true, trailerState := Ready, trailerFrames := [Seen(Opening(true, second))])
  }

  lemma TrailersTaken(block: seq<Byte>, headers: Headers, names: set<string>, second: seq<Byte>)
    ensures var s := Promised(block, headers, names);
      s.id == SID && HandleFrame(s, Seen(Opening(true, second))) == Accepted(WithTrailers(s, second), Keep)
  {
    hide Seen, AllFragments, Fragments;
    OpeningSeen(true, second);
    var f := Seen(Opening(true, second));
    assert [] + [f] == [f];
  }

  const KEEP: ToConn := ActiveStreamCount(Keep, SID)

  /** The trailer block has been taken, with `s` the stream before. */
  lemma TrailersCome(y0: Sys, y: Sys, x: Scene, second: seq<Byte>) returns (y1: Sys)
    requires LeadsTo(y0, y) && Shows(y, x) && |second| <= MAX_FRAME_SIZE
    requires Receptive(x) && x.phase.AtReceive? && x.inbox == [] && x.queue == [] && !x.cancelled
    requires x.s.id == SID && HandleFrame(x.s, Seen(Opening(true, second))) == Accepted(WithTrailers(x.s, second), Keep)
    ensures LeadsTo(y0, y1)
    ensures Shows(y1, x.(s := WithTrailers(x.s, second), queue := [KEEP], phase := AtHeaders, received := x.received + [Opening(true, second)]))
  {
    hide LeadsTo, Shows, Fits, Play, Seen, HandleFrame, WithTrailers;
    var f, x1 := Opening(true, second), x;
    ClosingMove(x1, second);
    y1 := Onward(y0, y, x1, Arrive(f), Play(x1, Arrive(f)));
    x1 := Play(x1, Arrive(f));
    FrameMove(x1, Seen(f));
    y1 := Onward(y0, y1, x1, Step(SID), Play(x1, Step(SID)));
    x1 := Play(x1, Step(SID));
    ReportMove(x1);
    y1 := Onward(y0, y1, x1, Step(SID), Play(x1, Step(SID)));
    assert [] + [KEEP] == [KEEP] && ([] + [FrameForRequest(Seen(f))])[1..] == [];
  }

  /** A complete trailer block is asked for. */
  lemma BlockAsked(y0: Sys, y: Sys, x: Scene, names: set<string>, block: seq<Byte>) returns (y1: Sys)
    requires LeadsTo(y0, y) && Shows(y, x) && x.phase.AtHeaders? && !x.cancelled
    requires x.s.headerState.Completed? && x.s.id == SID && ShouldAskTrailers(x.s) && x.s.declared == Some(names) && x.s.pending == []
    requires AllFragments(x.s.trailerFrames) && Fragments(x.s.trailerFrames) == block
    ensures LeadsTo(y0, y1)
    ensures Shows(y1, x.(s := AfterTrailers(x.s), queue := x.queue + [TrailersToDecode(block, names, SID)], phase := AtReceive))
  {
    hide LeadsTo, Shows, Fits, Play, AllFragments, Fragments;
    var x1 := x;
    IdleMove(x1);
    y1 := Onward(y0, y, x1, Step(SID), Play(x1, Step(SID)));
    x1 := Play(x1, Step(SID));
    TrailersMoved(x1, names);
    y1 := Onward(y0, y1, x1, Step(SID), Play(x1, Step(SID)));
    x1 := Play(x1, Step(SID));
    y1 := Rested(y0, y1, x1);
  }

  // The stray frame, and what it makes of the stream.

  function Strayed(s: Stream, stray: seq<Byte>): Stream {
    s.(trailerState := Ready, trailerFrames := [Stray(stray)])
  }

  /** A trailer block of this stream is at the decoder. */
  predicate AtDecoder(s: Stream) {
    && s.id == SID && s.state.HalfClosedRemote? && s.requestEnd && s.headerState.Completed? && s.declared.Some? && s.composited.Some?
    && s.trailerState.WaitingResponse? && s.trailerFrames == [] && s.bodies == [] && s.pending == [] && !s.dispatched
  }

  lemma StrayTaken(s: Stream, stray: seq<Byte>)
    requires AtDecoder(s)
    ensures HandleFrame(s, Stray(stray)) == Accepted(Strayed(s, stray), Keep)
    ensures AllFragments([Stray(stray)]) && Fragments([Stray(stray)]) == stray
    ensures AfterTrailers(Strayed(s, stray)) == s
  {
    assert [] + [Stray(stray)] == [Stray(stray)];
    assert [Stray(stray)][1..] == [] && stray + [] == stray;
  }

  lemma StrayComes(y0: Sys, y: Sys, x: Scene, names: set<string>, stray: seq<Byte>) returns (y1: Sys)
    requires LeadsTo(y0, y) && Shows(y, x) && |stray| <= MAX_FRAME_SIZE
    requires Receptive(x) && x.phase.AtReceive? && x.inbox == [] && !x.cancelled && AtDecoder(x.s) && x.s.declared == Some(names)
    ensures LeadsTo(y0, y1)
    ensures Shows(y1, x.(queue := x.queue + [KEEP] + [TrailersToDecode(stray, names, SID)], received := x.received + [Stray(stray)]))
  {
    hide LeadsTo, Shows, Fits, Play, HandleFrame, AllFragments, Fragments;
    var f, x1 := Stray(stray), x;
    StrayMove(x1, stray);
    y1 := Onward(y0, y, x1, Arrive(f), Play(x1, Arrive(f)));
    x1 := Play(x1, Arrive(f));
    StrayTaken(x.s, stray);
    FrameMove(x1, f);
    y1 := Onward(y0, y1, x1, Step(SID), Play(x1, Step(SID)));
    x1 := Play(x1, Step(SID));
    ReportMove(x1);
    y1 := Onward(y0, y1, x1, Step(SID), Play(x1, Step(SID)));
    x1 := Play(x1, Step(SID));
    y1 := BlockAsked(y0, y1, x1, names, stray);
    assert ([] + [FrameForRequest(f)])[1..] == [];
  }

  // Both trailer blocks are answered.

  /** Lawful trailers of which something was declared. */
  predicate Welcome(ts: seq<HeaderBlock.Pair>, names: set<string>) {
    HeaderBlock.TrailersOk(ts) && HeaderBlock.NamesDeclared(ts, names)
  }

  /** The answer to one trailer block, behind a count message that changes nothing. */
  lemma OneAnswered(y0: Sys, y: Sys, x: Scene, block: seq<Byte>, names: set<string>, ts: seq<HeaderBlock.Pair>) returns (y1: Sys)
    requires LeadsTo(y0, y) && Shows(y, x) && x.ctx.error.None? && SID in x.ctx.channels && Welcome(ts, names)
    requires |x.queue| >= 2 && x.queue[0] == KEEP && x.queue[1] == TrailersToDecode(block, names, SID)
    ensures LeadsTo(y0, y1)
    ensures Shows(y1, x.(queue := x.queue[2..], inbox := x.inbox + [TrailersDecoded(HeaderBlock.TrailerMap(ts, names))],
                         record := x.record.(trailerBlocks := x.record.trailerBlocks[SID := BlocksOf(x.record.trailerBlocks, SID) + [(block, ts)]])))
  {
    hide LeadsTo, Shows, Fits, Play, HeaderBlock.TrailersOk, HeaderBlock.NamesDeclared, HeaderBlock.TrailerMap, BlocksOf;
    var x1 := x;
    CountMove(x1, CompressionFailed);
    y1 := Onward(y0, y, x1, Event.Handle(CompressionFailed), Play(x1, Event.Handle(CompressionFailed)));
    x1 := Play(x1, Event.Handle(CompressionFailed));
    DecodeTrailersMove(x1, ts);
    y1 := Onward(y0, y1, x1, Event.Handle(Pairs(ts)), Play(x1, Event.Handle(Pairs(ts))));
    assert x.queue[1..][1..] == x.queue[2..];
  }

  // The first answer completes the request, the second finds the header map gone.

  lemma MergedDispatches(s: Stream, late: Headers)
    requires AtDecoder(s) && Dispatchable(s.composited.value + late)
    ensures var s1 := s.(composited := Some(s.composited.value + late), trailerState := Completed);
      && ShouldDispatch(s1) && TryFrom(s1.composited.value, FirstBody(s1)).Ok?
      && !s1.headerState.Ready? && !ShouldAskTrailers(s1) && AfterDispatch(s1).pending == []
  {
    hide TryFrom, Dispatchable;
    DispatchableIffBuilt(s.composited.value + late, None);
  }

  lemma SecondAnswerFails(y0: Sys, y: Sys, x: Scene, first: Headers, second: Headers) returns (y1: Sys, x1: Scene)
    requires LeadsTo(y0, y) && Shows(y, x) && x.phase.AtReceive? && !x.cancelled && AtDecoder(x.s)
    requires x.inbox == [TrailersDecoded(first), TrailersDecoded(second)] && Dispatchable(x.s.composited.value + first)
    ensures LeadsTo(y0, y1) && Shows(y1, x1) && x1.phase.Failed? && x1.received == x.received && x1.record == x.record
  {
    hide LeadsTo, Shows, Fits, Play, ShouldDispatch, ShouldAskTrailers, TryFrom, Dispatchable;
    MergedDispatches(x.s, first);
    MergeMove(x, first);
    y1 := Onward(y0, y, x, Step(SID), Play(x, Step(SID)));
    x1 := Play(x, Step(SID));
    IdleMove(x1);
    y1 := Onward(y0, y1, x1, Step(SID), Play(x1, Step(SID)));
    x1 := Play(x1, Step(SID));
    IdleMove(x1);
    y1 := Onward(y0, y1, x1, Step(SID), Play(x1, Step(SID)));
    x1 := Play(x1, Step(SID));
    DispatchMoved(x1, TryFrom(x1.s.composited.value, FirstBody(x1.s)).value);
    y1 := Onward(y0, y1, x1, Step(SID), Play(x1, Step(SID)));
    x1 := Play(x1, Step(SID));
    IdleMove(x1);
    y1 := Onward(y0, y1, x1, Step(SID), Play(x1, Step(SID)));
    x1 := Play(x1, Step(SID));
    MergeMove(x1, second);
    y1 := Onward(y0, y1, x1, Step(SID), Play(x1, Step(SID)));
    x1 := Play(x1, Step(SID));
  }

  // ---- the run ----

  /** One trailer block is at the decoder, and the stream waits. */
  function Expecting(options: Settings.Options, block: seq<Byte>, ps: seq<HeaderBlock.Pair>, second: seq<Byte>): Scene
    requires HeaderBlock.WellFormed(ps)
  {
    var x := Promising(options, block, ps);
    x.(s := AfterTrailers(WithTrailers(x.s, second)), queue := [KEEP, TrailersToDecode(second, HeaderBlock.DeclaredTrailers(ps), SID)],
       received := [Opening(false, block), Opening(true, second)])
  }

  lemma TrailersAsked(y0: Sys, block: seq<Byte>, ps: seq<HeaderBlock.Pair>, second: seq<Byte>) returns (y1: Sys)
    requires Init(y0) && |block| <= MAX_FRAME_SIZE && |second| <= MAX_FRAME_SIZE
    requires HeaderBlock.WellFormed(ps) && HeaderBlock.DeclaredTrailers(ps) != {}
    ensures LeadsTo(y0, y1) && Shows(y1, Expecting(y0.conn.ctx.clientOptions, block, ps, second))
  {
    hide Init, LeadsTo, Shows, Seen, HandleFrame, AllFragments, Fragments,
      HeaderBlock.FieldsOk, HeaderBlock.Complete, HeaderBlock.HeaderMap, HeaderBlock.DeclaredTrailers;
    var headers, names := HeaderBlock.HeaderMap(ps), HeaderBlock.DeclaredTrailers(ps);
    y1 := TrailersPromised(y0, block, ps);
    var x := Promising(y0.conn.ctx.clientOptions, block, ps);
    TrailersTaken(block, headers, names, second);
    y1 := TrailersCome(y0, y1, x, second);
    x := x.(s := WithTrailers(x.s, second), queue := [KEEP], phase := AtHeaders, received := x.received + [Opening(true, second)]);
    OpeningSeen(true, second);
    y1 := BlockAsked(y0, y1, x, names, second);
    assert [KEEP] + [TrailersToDecode(second, names, SID)] == [KEEP, TrailersToDecode(second, names, SID)];
    assert [Opening(false, block)] + [Opening(true, second)] == [Opening(false, block), Opening(true, second)];
  }

  lemma ExpectingAtDecoder(options: Settings.Options, block: seq<Byte>, ps: seq<HeaderBlock.Pair>, second: seq<Byte>)
    requires HeaderBlock.WellFormed(ps)
    ensures var x := Expecting(options, block, ps, second);
      && AtDecoder(x.s) && Receptive(x)
      && x.s.declared == Some(HeaderBlock.DeclaredTrailers(ps)) && x.s.composited == Some(HeaderBlock.HeaderMap(ps))
  {
    hide Seen, HeaderBlock.FieldsOk, HeaderBlock.Complete, HeaderBlock.HeaderMap, HeaderBlock.DeclaredTrailers;
  }

  lemma LateIsHarmless(ps: seq<HeaderBlock.Pair>, ts: seq<HeaderBlock.Pair>)
    requires HeaderBlock.WellFormed(ps) && HeaderBlock.TrailersOk(ts)
    ensures Dispatchable(HeaderBlock.HeaderMap(ps) + HeaderBlock.TrailerMap(ts, HeaderBlock.DeclaredTrailers(ps)))
  {
    hide HeaderBlock.FieldsOk, HeaderBlock.Complete, HeaderBlock.TrailersOk, HeaderBlock.TrailerMap, HeaderBlock.HeaderMap,
      HeaderBlock.DeclaredTrailers, Dispatchable;
    WellFormedIsDispatchable(ps);
    TrailersAreHarmless(HeaderBlock.HeaderMap(ps), ts, HeaderBlock.DeclaredTrailers(ps));
  }

  /** What was received, and what HPACK made of the header block and of the two trailer blocks. */
  predicate Recorded(received: seq<Frame>, record: Record, block: seq<Byte>, ps: seq<HeaderBlock.Pair>,
                     second: seq<Byte>, ts: seq<HeaderBlock.Pair>, stray: seq<Byte>, us: seq<HeaderBlock.Pair>)
  {
    && received == [Opening(false, block), Opening(true, second), Stray(stray)]
    && record.headerBlocks == map[SID := (block, ps)]
    && record.trailerBlocks == map[SID := [(second, ts), (stray, us)]]
  }

  lemma FirstBlock(a: Block)
    ensures var none: map<U32, seq<Block>> := map[]; none[SID := BlocksOf(none, SID) + [a]] == map[SID := [a]]
  {
    assert [] + [a] == [a];
  }

  lemma SecondBlock(a: Block, b: Block)
    ensures var one := map[SID := [a]]; one[SID := BlocksOf(one, SID) + [b]] == map[SID := [a, b]]
  {
    assert [a] + [b] == [a, b];
  }

  lemma SceneThatFails(y0: Sys, block: seq<Byte>, ps: seq<HeaderBlock.Pair>, second: seq<Byte>, ts: seq<HeaderBlock.Pair>,
                       stray: seq<Byte>, us: seq<HeaderBlock.Pair>) returns (y1: Sys, x1: Scene)
    requires Init(y0) && |block| <= MAX_FRAME_SIZE && |second| <= MAX_FRAME_SIZE && |stray| <= MAX_FRAME_SIZE
    requires HeaderBlock.WellFormed(ps) && HeaderBlock.DeclaredTrailers(ps) != {}
    requires Welcome(ts, HeaderBlock.DeclaredTrailers(ps)) && Welcome(us, HeaderBlock.DeclaredTrailers(ps))
    ensures LeadsTo(y0, y1) && Shows(y1, x1) && x1.phase.Failed? && Recorded(x1.received, x1.record, block, ps, second, ts, stray, us)
  {
    hide Init, LeadsTo, Shows, Seen, AtDecoder, WithTrailers, AfterTrailers, Filled, Promised, OneStream, CountedIn, Dispatchable,
      HeaderBlock.FieldsOk, HeaderBlock.Complete, HeaderBlock.HeaderMap, HeaderBlock.DeclaredTrailers, HeaderBlock.TrailersOk,
      HeaderBlock.NamesDeclared, HeaderBlock.TrailerMap;
    var options, names := y0.conn.ctx.clientOptions, HeaderBlock.DeclaredTrailers(ps);
    y1 := TrailersAsked(y0, block, ps, second);
    var x := Expecting(options, block, ps, second);
    ExpectingAtDecoder(options, block, ps, second);
    y1 := StrayComes(y0, y1, x, names, stray);
    var ask, again := TrailersToDecode(second, names, SID), TrailersToDecode(stray, names, SID);
    x := x.(queue := x.queue + [KEEP] + [again], received := x.received + [Stray(stray)]);
    assert [KEEP, ask] + [KEEP] + [again] == [KEEP, ask, KEEP, again];
    assert [Opening(false, block), Opening(true, second)] + [Stray(stray)] == [Opening(false, block), Opening(true, second), Stray(stray)];
    assert x.queue == [KEEP, ask, KEEP, again] && x.queue[2..] == [KEEP, again] && x.queue[2..][2..] == [];
    var first, late := HeaderBlock.TrailerMap(ts, names), HeaderBlock.TrailerMap(us, names);
    y1 := OneAnswered(y0, y1, x, second, names, ts);
    FirstBlock((second, ts));
    x := x.(queue := [KEEP, again], inbox := [TrailersDecoded(first)], record := x.record.(trailerBlocks := map[SID := [(second, ts)]]));
    assert [] + [TrailersDecoded(first)] == [TrailersDecoded(first)];
    y1 := OneAnswered(y0, y1, x, stray, names, us);
    SecondBlock((second, ts), (stray, us));
    x := x.(queue := [], inbox := [TrailersDecoded(first), TrailersDecoded(late)],
            record := x.record.(trailerBlocks := map[SID := [(second, ts), (stray, us)]]));
    assert [TrailersDecoded(first)] + [TrailersDecoded(late)] == [TrailersDecoded(first), TrailersDecoded(late)];
    LateIsHarmless(ps, ts);
    y1, x1 := SecondAnswerFails(y0, y1, x, first, late);
  }

  /**
   * From every state the handshake leaves there is a run to a failed stream task, with the connection running, for
   * every header block, trailer block and CONTINUATION payload, and for every three lists of pairs HPACK may give for
   * them: well formed and declaring trailers the first, lawful and with something declared the other two.
   */
  lemma RunThatFails(y0: Sys, block: seq<Byte>, ps: seq<HeaderBlock.Pair>, second: seq<Byte>, ts: seq<HeaderBlock.Pair>,
                     stray: seq<Byte>, us: seq<HeaderBlock.Pair>) returns (events: seq<Event>, y1: Sys)
    requires Init(y0) && |block| <= MAX_FRAME_SIZE && |second| <= MAX_FRAME_SIZE && |stray| <= MAX_FRAME_SIZE
    requires HeaderBlock.WellFormed(ps) && HeaderBlock.DeclaredTrailers(ps) != {}
    requires Welcome(ts, HeaderBlock.DeclaredTrailers(ps)) && Welcome(us, HeaderBlock.DeclaredTrailers(ps))
    ensures Run(y0, events, y1) && SID in y1.tasks && y1.tasks[SID].phase.Failed? && y1.conn.status.Running?
    ensures y1.received == [Opening(false, block), Opening(true, second), Stray(stray)]
    ensures y1.log.headerBlocks == map[SID := (block, ps)] && y1.log.trailerBlocks == map[SID := [(second, ts), (stray, us)]]
  {
    hide Init, Run, HpackOf, HeaderBlock.WellFormed, HeaderBlock.DeclaredTrailers, Welcome;
    var x;
    y1, x := SceneThatFails(y0, block, ps, second, ts, stray, us);
    var results :| LeadsBy(y0, results, y1);
    events :| Run(y0, events, y1);
  }

  /** A request that promises the trailer `x`, and that trailer twice, are an instance, whatever octets encode them. */
  lemma SomeRunFails(y0: Sys, block: seq<Byte>, second: seq<Byte>, stray: seq<Byte>) returns (events: seq<Event>, y1: Sys)
    requires Init(y0) && |block| <= MAX_FRAME_SIZE && |second| <= MAX_FRAME_SIZE && |stray| <= MAX_FRAME_SIZE
    ensures Run(y0, events, y1) && SID in y1.tasks && y1.tasks[SID].phase.Failed?
    ensures y1.log.headerBlocks == map[SID := (block, GET_WITH_TRAILER)]
  {
    hide Init, Run, HeaderBlock.WellFormed;
    TrailerIsWellFormed();
    var ts := [HeaderBlock.Pair("x", "")];
    assert ts[0].name in {"x"} && HeaderBlock.TrailerOk(ts[0]);
    events, y1 := RunThatFails(y0, block, GET_WITH_TRAILER, second, ts, stray, ts);
  }
}
