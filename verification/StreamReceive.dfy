/** Consuming a message keeps the stream invariant. */
module StreamReceive {
  import opened Wrappers
  import opened Bytes
  import opened Frames
  import opened Messages
  import opened RequestContext
  import opened StreamModel
  import opened System
  import opened StreamInvariant

  // ---- frames ----

  lemma NextTaken(id: U32, forwarded: seq<Frame>, taken: nat, inbox: seq<ToStream>)
    requires Logged(id, forwarded, taken, inbox, false) && inbox != []
    ensures inbox[0].FrameForRequest? ==>
      taken < |forwarded| && forwarded[taken] == inbox[0].frame && Logged(id, forwarded, taken + 1, inbox[1..], false)
    ensures !inbox[0].FrameForRequest? ==> Logged(id, forwarded, taken, inbox[1..], false)
  {
    if inbox[0].FrameForRequest? {
      var rest := InboxFrames(inbox[1..]);
      assert forwarded[taken..] == [inbox[0].frame] + rest;
      assert forwarded[taken] == forwarded[taken..][0];
      assert forwarded[taken + 1..] == forwarded[taken..][1..] == rest;
    }
  }

  /** Where the next frame stands relative to the first header block. */
  lemma NextInBlock(forwarded: seq<Frame>, first: nat, block: seq<Frame>, closed: bool, taken: nat, state: DecodingState, frames: seq<Frame>)
    requires BlockPlaced(forwarded, first, block, closed) && HeaderProgress(state, frames, first, block, closed, taken)
    requires taken < |forwarded|
    ensures state.Initial? && forwarded[taken].ty.Headers? ==> block != [] && taken == first && forwarded[taken] == block[0]
    ensures state.Initial? && !forwarded[taken].ty.Headers? ==> block == [] || taken + 1 <= first
    ensures state.KeepGoing? ==>
      && taken < first + |block|
      && forwarded[taken] == block[taken - first]
      && forwarded[taken].ty.Continuation?
      && (forwarded[taken].HasEndHeaders() <==> closed && taken + 1 == first + |block|)
  {
    if block != [] && first <= taken < first + |block| {
      assert forwarded[taken] == block[taken - first];
    }
  }

  // What acceptance means, field by field.

  /** The checks an accepted frame has passed. */
  predicate Allowed(state: StreamState, hs: DecodingState, ts: DecodingState, f: Frame) {
    && (f.ty.Continuation? ==> !hs.Initial? && !ts.Completed? && !(InProgress(hs) && ts.Initial?))
    && (f.ty.Headers? ==> hs.Initial? || ts.Initial?)
    && (state.Idle? ==> !f.ty.RstStream? && !f.ty.Data? && !f.ty.Continuation? && !f.ty.WindowUpdate?)
    && (state.HalfClosedRemote? || state.Closed? ==> !f.ty.Data? && !f.ty.Headers?)
    && (f.ty.WindowUpdate? ==> |f.payload| >= 4)
  }

  function HeaderStateAfter(hs: DecodingState, f: Frame): DecodingState {
    if IsBlockFrame(f) && !InProgress(hs) then BlockProgress(f) else hs
  }

  function TrailerStateAfter(hs: DecodingState, ts: DecodingState, f: Frame): DecodingState {
    if IsBlockFrame(f) && InProgress(hs) then BlockProgress(f) else ts
  }

  predicate Effect(s: Stream, f: Frame, s1: Stream, command: CountCommand) {
    Allowed(s.state, s.headerState, s.trailerState, f) && Fields(s, f, s1, command)
  }

  predicate Fields(s: Stream, f: Frame, s1: Stream, command: CountCommand)
    requires f.ty.WindowUpdate? ==> |f.payload| >= 4
  {
    && s1.id == s.id
    && s1.state == NextFromClient(s.state, f)
    && command == CommandOf(s.state, s1.state)
    && s1.requestEnd == (s.requestEnd || f.HasEndStream())
    && s1.window == s.window + (if f.ty.WindowUpdate? then IncrementOf(f.payload) else 0)
    && s1.headerState == HeaderStateAfter(s.headerState, f)
    && s1.headerFrames == (if IsBlockFrame(f) && !InProgress(s.headerState) then s.headerFrames + [f] else s.headerFrames)
    && s1.trailerState == TrailerStateAfter(s.headerState, s.trailerState, f)
    && s1.trailerFrames == (if IsBlockFrame(f) && InProgress(s.headerState) then s.trailerFrames + [f] else s.trailerFrames)
    && s1.declared == s.declared && s1.composited == s.composited
    && s1.bodies == (if f.ty.Data? then s.bodies + [f] else s.bodies)
    && s1.pending == s.pending && s1.dispatched == s.dispatched
  }

  lemma AcceptedAllowed(s: Stream, f: Frame)
    requires HandleFrame(s, f).Accepted?
    ensures Allowed(s.state, s.headerState, s.trailerState, f) && HandleFrame(s, f) == Admit(s, f)
  {
    hide NextFromClient, CommandOf, Store;
  }

  /** A forwarded frame is accepted exactly if its state allows it and it does not push the window over 32 bits. */
  lemma AcceptedIffAllowed(s: Stream, f: Frame)
    requires !f.ty.Ping? && !f.ty.GoAway?
    ensures HandleFrame(s, f).Accepted? <==>
      Allowed(s.state, s.headerState, s.trailerState, f) && (f.ty.WindowUpdate? ==> s.window + IncrementOf(f.payload) <= TWO_32 - 1)
  {
    hide NextFromClient, CommandOf, Store, IncrementOf;
  }

  function Opened(s: Stream, f: Frame): Stream {
    s.(state := NextFromClient(s.state, f), requestEnd := s.requestEnd || f.HasEndStream())
  }

  /** Where an accepted frame is kept. */
  lemma StoreCases(s: Stream, f: Frame)
    ensures IsBlockFrame(f) && InProgress(s.headerState) ==>
      Store(s, f) == s.(trailerState := BlockProgress(f), trailerFrames := s.trailerFrames + [f])
    ensures IsBlockFrame(f) && !InProgress(s.headerState) ==>
      Store(s, f) == s.(headerState := BlockProgress(f), headerFrames := s.headerFrames + [f])
    ensures f.ty.Data? ==> Store(s, f) == s.(bodies := s.bodies + [f])
    ensures !IsBlockFrame(f) && !f.ty.Data? ==> Store(s, f) == s
  {
    hide BlockProgress;
  }

  lemma StoreFields(s: Stream, f: Frame)
    requires !f.ty.WindowUpdate?
    ensures Fields(s, f, Store(Opened(s, f), f), CommandOf(s.state, NextFromClient(s.state, f)))
  {
    StoreCases(Opened(s, f), f);
    hide NextFromClient, CommandOf, BlockProgress, Store;
  }

  lemma AcceptedEffect(s: Stream, f: Frame)
    requires HandleFrame(s, f).Accepted?
    ensures Effect(s, f, HandleFrame(s, f).next, HandleFrame(s, f).command)
  {
    AcceptedAllowed(s, f);
    hide ValidateFromClient, NextFromClient, CommandOf, HandleFrame, Store;
    if f.ty.WindowUpdate? {
    } else {
      StoreFields(s, f);
      hide Fields;
    }
  }

  /** Panic is a WINDOW_UPDATE too short to read; a refusal leaves only these reasons for block frames. */
  lemma NotAccepted(s: Stream, f: Frame)
    requires !HandleFrame(s, f).Accepted?
    ensures HandleFrame(s, f).Panic? ==> f.ty.WindowUpdate? && |f.payload| < 4
    ensures f.ty.Headers? && s.headerState.Initial? ==> s.state.HalfClosedRemote? || s.state.Closed?
    ensures f.ty.Continuation? && s.headerState.KeepGoing? ==> s.trailerState.Completed? || s.state.Idle?
    ensures f.ty.Headers? && !s.headerState.Initial? && !s.trailerState.Initial? ==> HandleFrame(s, f) == Refused(ConnectionError(ProtocolError))
    ensures f.ty.Headers? && s.state.Open? ==> !s.headerState.Initial? && !s.trailerState.Initial?
  {}

  /** The header block after one more frame. */
  lemma ProgressAccepted(forwarded: seq<Frame>, first: nat, block: seq<Frame>, closed: bool, taken: nat, hs: DecodingState, frames: seq<Frame>, f: Frame)
    requires BlockPlaced(forwarded, first, block, closed) && HeaderProgress(hs, frames, first, block, closed, taken)
    requires taken < |forwarded| && forwarded[taken] == f && !hs.Ready?
    requires f.ty.Continuation? ==> !hs.Initial?
    ensures HeaderProgress(HeaderStateAfter(hs, f), if IsBlockFrame(f) && !InProgress(hs) then frames + [f] else frames, first, block, closed, taken + 1)
  {
    NextInBlock(forwarded, first, block, closed, taken, hs, frames);
    if hs.Initial? && f.ty.Headers? {
      assert frames + [f] == [f] == block[..1];
      if closed && f.HasEndHeaders() {
        assert |block| == 1 && block == [f];
      }
    } else if hs.KeepGoing? {
      assert frames + [f] == block[..taken - first] + [block[taken - first]] == block[..taken + 1 - first];
    }
  }

  lemma ProgressRefused(forwarded: seq<Frame>, first: nat, block: seq<Frame>, closed: bool, taken: nat, hs: DecodingState, frames: seq<Frame>, f: Frame)
    requires BlockPlaced(forwarded, first, block, closed) && HeaderProgress(hs, frames, first, block, closed, taken)
    requires taken < |forwarded| && forwarded[taken] == f && !hs.Ready? && !hs.KeepGoing?
    requires f.ty.Headers? ==> !hs.Initial?
    ensures HeaderProgress(hs, frames, first, block, closed, taken + 1)
  {
    NextInBlock(forwarded, first, block, closed, taken, hs, frames);
  }

  lemma EndsOnceAppend(a: seq<Frame>, f: Frame)
    requires EndsOnce(a) && (AnyEnd(a) || AnyReset(a) ==> !f.ty.Data? && !f.ty.Headers?)
    ensures EndsOnce(a + [f])
  {
    forall i, j | 0 <= i < j < |a + [f]| && ((a + [f])[i].HasEndStream() || (a + [f])[i].ty.RstStream?)
      ensures !(a + [f])[j].ty.Data? && !(a + [f])[j].ty.Headers?
    {
      assert (a + [f])[i] == a[i];
    }
  }

  /** Behind the gate no HEADERS frame meets an unfinished header block. */
  predicate InTurn(hs: DecodingState, f: Frame) {
    hs.KeepGoing? ==> f.ty.Continuation?
  }

  lemma StateAccepted(state: StreamState, requestEnd: bool, hs: DecodingState, ts: DecodingState, pending: seq<Frame>, a: seq<Frame>, flushed: seq<Frame>, f: Frame)
    requires StateOk(state, requestEnd, hs, ts, pending, a, flushed)
    requires Allowed(state, hs, ts, f) && InTurn(hs, f) && !hs.Ready?
    ensures StateOk(NextFromClient(state, f), requestEnd || f.HasEndStream(), HeaderStateAfter(hs, f), TrailerStateAfter(hs, ts, f), pending, a + [f], flushed)
  {
    AcceptedAppend(a, f);
    EndsOnceAppend(a, f);
  }

  lemma WindowAccepted(window: U32, window1: U32, pending: seq<Frame>, a: seq<Frame>, flushed: seq<Frame>, sent: seq<ToConn>, responses: nat, f: Frame)
    requires WindowOk(window, pending, a, flushed, sent, responses)
    requires f.ty.WindowUpdate? ==> |f.payload| >= 4
    requires window1 == window + (if f.ty.WindowUpdate? then IncrementOf(f.payload) else 0)
    ensures WindowOk(window1, pending, a + [f], flushed, sent, responses)
  {
    AcceptedAppend(a, f);
  }

  lemma CountAccepted(id: U32, state: StreamState, f: Frame, sent: seq<ToConn>)
    requires CountOk(id, state, AtReceive, sent)
    ensures CountOk(id, NextFromClient(state, f), AtReport(ActiveStreamCount(CommandOf(state, NextFromClient(state, f)), id)), sent)
  {
    hide Num;
  }

  /** Consuming a frame touches only these fields of the history. */
  predicate OnlyFrameFields(h: History, h1: History) {
    h1 == h.(taken := h1.taken, accepted := h1.accepted, trailerBlock := h1.trailerBlock, extra := h1.extra, stray := h1.stray,
             second := h1.second, secondAt := h1.secondAt, secondEarly := h1.secondEarly)
  }

  /** History after a consumed frame that was accepted. */
  function AcceptedHistory(s: Stream, h: History, f: Frame): History {
    var again := f.ty.Headers? && s.state.Open?;
    h.(taken := h.taken + 1, accepted := h.accepted + [f],
       trailerBlock := if IsBlockFrame(f) && InProgress(s.headerState) then h.trailerBlock + [f] else h.trailerBlock,
       extra := h.extra || (f.ty.Continuation? && s.trailerState.Ready?),
       stray := h.stray || (f.ty.Continuation? && s.trailerState.WaitingResponse?),
       second := h.second || again,
       secondAt := if again && !h.second then |h.sent| else h.secondAt,
       secondEarly := h.secondEarly || (again && s.headerState.WaitingResponse?))
  }

  lemma FrameAcceptedFlow(s: Stream, h: History, f: Frame, s1: Stream, command: CountCommand, h1: History)
    requires FlowInv(s, AtReceive, h) && Effect(s, f, s1, command) && InTurn(s.headerState, f) && !s.headerState.Ready?
    requires OnlyFrameFields(h, h1) && h1.accepted == h.accepted + [f]
    ensures FlowInv(s1, AtReport(ActiveStreamCount(command, s.id)), h1)
  {
    assert f.ty.WindowUpdate? ==> |f.payload| >= 4;
    hide StateOk, WindowOk, ResponseOk, CountOk, OwnMessages, FailedOk, Allowed;
    StateAccepted(s.state, s.requestEnd, s.headerState, s.trailerState, s.pending, h.accepted, h.flushed, f);
    WindowAccepted(s.window, s1.window, s.pending, h.accepted, h.flushed, h.sent, h.responses, f);
    CountAccepted(s.id, s.state, f, h.sent);
    FailedNot(s.id, AtReport(ActiveStreamCount(command, s.id)), s.dispatched, h.sent, |h.lateReplies|, h1.stray);
  }

  lemma RequestAccepted(hs: DecodingState, ts: DecodingState, declared: Option<set<string>>, composited: Option<Headers>,
                        trailerFrames: seq<Frame>, reply: Option<(Headers, set<string>)>, late: seq<Headers>, f: Frame, state: StreamState)
    requires RequestOk(hs, ts, declared, composited, trailerFrames, reply, late)
    requires Allowed(state, hs, ts, f) && (IsBlockFrame(f) ==> f.HasFragment()) && !hs.Ready?
    ensures RequestOk(HeaderStateAfter(hs, f), TrailerStateAfter(hs, ts, f), declared, composited,
                      if IsBlockFrame(f) && InProgress(hs) then trailerFrames + [f] else trailerFrames, reply, late)
  {
    hide Dispatchable, NoPseudo, MergeAll;
    assert forall g :: g in trailerFrames + [f] ==> g in trailerFrames || g == f;
  }

  lemma DispatchAccepted(s: Stream, h: History, f: Frame, requestEnd: bool)
    requires DispatchOk(s.id, s.dispatched, s.requestEnd, s.trailerState, s.composited, h.sent, h.reply, h.lateReplies, h.responses)
    requires Allowed(s.state, s.headerState, s.trailerState, f) && (s.requestEnd ==> requestEnd)
    requires RequestOk(s.headerState, s.trailerState, s.declared, s.composited, s.trailerFrames, h.reply, h.lateReplies)
    ensures DispatchOk(s.id, s.dispatched, requestEnd, TrailerStateAfter(s.headerState, s.trailerState, f), s.composited,
                       h.sent, h.reply, h.lateReplies, h.responses)
  {
    hide Num, BuiltFrom, Dispatchable, NoPseudo, MergeAll;
  }

  lemma TrailerAccepted(s: Stream, h: History, f: Frame, stray: bool)
    requires TrailerOk(s.id, s.declared, s.trailerState, h.sent, h.lateReplies, h.stray)
    requires Allowed(s.state, s.headerState, s.trailerState, f)
    requires stray == (h.stray || (f.ty.Continuation? && s.trailerState.WaitingResponse?))
    ensures TrailerOk(s.id, s.declared, TrailerStateAfter(s.headerState, s.trailerState, f), h.sent, h.lateReplies, stray)
  {
    hide Num;
  }

  lemma SecondAccepted(s: Stream, h: History, f: Frame, h1: History, complained: bool)
    requires SecondOk(s.headerState, s.trailerFrames, s.dispatched, s.composited, h.reply, h.second, h.secondEarly, complained)
    requires Allowed(s.state, s.headerState, s.trailerState, f) && !s.headerState.Ready? && InTurn(s.headerState, f)
    requires RequestOk(s.headerState, s.trailerState, s.declared, s.composited, s.trailerFrames, h.reply, h.lateReplies)
    requires s.state.Open? ==> !s.headerState.Initial?
    requires h1 == AcceptedHistory(s, h, f)
    requires !s.trailerState.Initial? ==> InProgress(s.headerState)
    ensures h1.second && !h.second && h.reply.Some? ==> h.reply.value.1 != {}
    ensures SecondOk(HeaderStateAfter(s.headerState, f),
                     if IsBlockFrame(f) && InProgress(s.headerState) then s.trailerFrames + [f] else s.trailerFrames,
                     s.dispatched, s.composited, h.reply, h1.second, h1.secondEarly, complained)
  {
    hide Dispatchable, NoPseudo, MergeAll;
  }

  lemma FrameAcceptedRequest(s: Stream, h: History, f: Frame, s1: Stream, command: CountCommand)
    requires RequestInv(s, AtReceive, h) && Effect(s, f, s1, command)
    requires (IsBlockFrame(f) ==> f.HasFragment()) && InTurn(s.headerState, f) && !s.headerState.Ready?
    requires s.state.Open? ==> !s.headerState.Initial?
    requires !s.trailerState.Initial? ==> InProgress(s.headerState)
    ensures RequestInv(s1, AtReport(ActiveStreamCount(command, s.id)), AcceptedHistory(s, h, f))
  {
    hide RequestOk, DispatchOk, TrailerOk, SecondOk, Allowed;
    var h1, report := AcceptedHistory(s, h, f), AtReport(ActiveStreamCount(command, s.id));
    RequestAccepted(s.headerState, s.trailerState, s.declared, s.composited, s.trailerFrames, h.reply, h.lateReplies, f, s.state);
    DispatchAccepted(s, h, f, s1.requestEnd);
    TrailerAccepted(s, h, f, h1.stray);
    var c, c1 := Complained(h.sent, h.secondAt, AtReceive), Complained(h.sent, h1.secondAt, report);
    SecondAccepted(s, h, f, h1, c);
    SecondMoved(s1, h1, c, c1, h.second);
  }

  /** A first second HEADERS frame that was accepted is one that no failure is due for yet. */
  lemma SecondMoved(s1: Stream, h1: History, c: bool, c1: bool, before: bool)
    requires SecondOk(s1.headerState, s1.trailerFrames, s1.dispatched, s1.composited, h1.reply, h1.second, h1.secondEarly, c)
    requires h1.second && !before && h1.reply.Some? ==> h1.reply.value.1 != {}
    requires before || !h1.second ==> (c ==> c1)
    ensures SecondOk(s1.headerState, s1.trailerFrames, s1.dispatched, s1.composited, h1.reply, h1.second, h1.secondEarly, c1)
  {}

  lemma DataAppend(a: seq<Frame>, f: Frame)
    ensures DataFrames(a + [f]) == DataFrames(a) + (if f.ty.Data? then [f] else [])
  {
    assert (a + [f])[..|a|] == a;
  }

  lemma BodyAccepted(s: Stream, a: seq<Frame>, sent: seq<ToConn>, f: Frame, bodies: seq<Frame>)
    requires BodyOk(s.bodies, s.dispatched, a, sent) && (s.dispatched ==> !f.ty.Data?)
    requires bodies == if f.ty.Data? then s.bodies + [f] else s.bodies
    requires !s.dispatched ==> forall i :: 0 <= i < |sent| ==> !sent[i].RequestForDispatch?
    ensures BodyOk(bodies, s.dispatched, a + [f], sent)
  {
    hide DataFrames;
    DataAppend(a, f);
    assert DataFrames(a) + [] == DataFrames(a);
  }

  lemma {:induction false} AllAppend(fs: seq<Frame>, f: Frame)
    requires AllFragments(fs) && f.HasFragment()
    ensures AllFragments(fs + [f])
  {}

  /** One more frame of a trailer block. */
  lemma ShapeAppend(ts: DecodingState, block: seq<Frame>, f: Frame)
    requires TrailerShape(ts, block) && IsBlockFrame(f) && (if ts.Initial? then f.ty.Headers? else ts.KeepGoing? && f.ty.Continuation?)
    ensures TrailerShape(BlockProgress(f), block + [f])
  {}

  lemma TrailerBlockAccepted(s: Stream, h: History, f: Frame, h1: History)
    requires TrailerBlockOk(s.id, s.headerState, s.trailerState, s.trailerFrames, h.trailerBlock, h.sent, h.stray, h.extra)
    requires TrailerOk(s.id, s.declared, s.trailerState, h.sent, h.lateReplies, h.stray)
    requires Allowed(s.state, s.headerState, s.trailerState, f) && (IsBlockFrame(f) ==> f.HasFragment()) && InProgress(s.headerState)
    requires h1 == AcceptedHistory(s, h, f) && IsBlockFrame(f)
    ensures TrailerBlockOk(s.id, s.headerState, BlockProgress(f), s.trailerFrames + [f], h1.trailerBlock, h.sent, h1.stray, h1.extra)
  {
    hide Num, Fragments, BlockShape;
    AllAppend(h.trailerBlock, f);
    NoneSent(h.sent, KTrailers, s.id);
    TrailersOwn(s, h);
    if !h1.stray && !h1.extra {
      ShapeAppend(s.trailerState, h.trailerBlock, f);
    }
  }

  lemma TrailersOwn(s: Stream, h: History)
    requires TrailerBlockOk(s.id, s.headerState, s.trailerState, s.trailerFrames, h.trailerBlock, h.sent, h.stray, h.extra)
    ensures !h.stray ==> forall i :: 0 <= i < |h.sent| && h.sent[i].TrailersToDecode? ==> h.sent[i].sid == s.id
  {}

  lemma TrailerBlockPast(id: U32, hs: DecodingState, hs1: DecodingState, ts: DecodingState, trailerFrames: seq<Frame>, block: seq<Frame>,
                         sent: seq<ToConn>, stray: bool, extra: bool, stray1: bool, extra1: bool)
    requires TrailerBlockOk(id, hs, ts, trailerFrames, block, sent, stray, extra)
    requires InProgress(hs1) <==> InProgress(hs)
    requires (stray ==> stray1) && (extra ==> extra1)
    ensures TrailerBlockOk(id, hs1, ts, trailerFrames, block, sent, stray1, extra1)
  {
    hide Num, Fragments, BlockShape;
  }

  lemma FrameAcceptedContent(s: Stream, h: History, f: Frame, s1: Stream, command: CountCommand)
    requires ContentInv(s, h) && RequestInv(s, AtReceive, h) && Effect(s, f, s1, command)
    requires (IsBlockFrame(f) ==> f.HasFragment()) && (InProgress(s1.headerState) <==> InProgress(s.headerState))
    requires InTurn(s.headerState, f) && !s.headerState.Ready?
    requires s.requestEnd ==> !f.ty.Data?
    requires HeadersSeen(s, h)
    ensures ContentInv(s1, AcceptedHistory(s, h, f))
  {
    hide RequestOk, DispatchOk, TrailerOk, SecondOk, Complained, BodyOk, TrailerFrom, TrailerBlockOk, Allowed;
    TrailerFromAccepted(s, h, f);
    DispatchedFacts(s, h);
    var h1 := AcceptedHistory(s, h, f);
    BodyAccepted(s, h.accepted, h.sent, f, s1.bodies);
    if IsBlockFrame(f) && InProgress(s.headerState) {
      TrailerBlockAccepted(s, h, f, h1);
    } else {
      TrailerBlockPast(s.id, s.headerState, s1.headerState, s.trailerState, s.trailerFrames, h.trailerBlock, h.sent, h.stray, h.extra, h1.stray, h1.extra);
    }
  }

  /** How many HEADERS frames the decoding states stand for. */
  predicate HeadersSeen(s: Stream, h: History) {
    && (s.headerState.Initial? <==> CountHeaders(h.accepted) == 0)
    && (s.trailerState.Initial? ==> CountHeaders(h.accepted) <= 1)
    && (!s.trailerState.Initial? ==> InProgress(s.headerState))
  }

  lemma StateHeaders(s: Stream, phase: Phase, h: History)
    requires FlowInv(s, phase, h)
    ensures HeadersSeen(s, h)
  {
    hide WindowOk, ResponseOk, CountOk, OwnMessages, EndsOnce, FailedOk, StateOf, AnyEnd, AnyReset, CountHeaders;
  }

  lemma TrailerFromAccepted(s: Stream, h: History, f: Frame)
    requires TrailerFrom(s.trailerState, h.trailerBlock, h.accepted) && HeadersSeen(s, h)
    requires Allowed(s.state, s.headerState, s.trailerState, f) && InTurn(s.headerState, f) && !s.headerState.Ready?
    ensures TrailerFrom(TrailerStateAfter(s.headerState, s.trailerState, f), AcceptedHistory(s, h, f).trailerBlock, h.accepted + [f])
  {
    hide CountHeaders, BlockProgress;
    AcceptedAppend(h.accepted, f);
    assert (h.accepted + [f])[..|h.accepted|] == h.accepted;
    assert BlockTail(h.accepted) + [] == BlockTail(h.accepted);
  }

  lemma DispatchedFacts(s: Stream, h: History)
    requires RequestInv(s, AtReceive, h)
    ensures s.dispatched ==> s.requestEnd
    ensures !s.dispatched ==> forall i :: 0 <= i < |h.sent| ==> !h.sent[i].RequestForDispatch?
  {
    hide RequestOk, TrailerOk, SecondOk, Complained, BuiltFrom, Num;
  }

  // A refused frame leaves the stream as it was.

  lemma RefusedRequest(s: Stream, h: History, f: Frame, e: Error, h1: History)
    requires RequestInv(s, AtReceive, h) && RefusedHistory(s, h, f, h1)
    requires f.ty.Headers? && s.state.Open? ==> e == ConnectionError(ProtocolError) && InProgress(s.headerState) && !s.trailerState.Initial?
    ensures RequestInv(s, AtReport(Failure(e)), h1)
  {
    hide RequestOk, DispatchOk, TrailerOk, SecondOk;
    BlockStarted(s, h);
    TrailerStrayed(s.id, s.declared, s.trailerState, h.sent, h.lateReplies, h.stray, h1.stray);
    var c, c1 := Complained(h.sent, h.secondAt, AtReceive), Complained(h.sent, h1.secondAt, AtReport(Failure(e)));
    SecondRefused(s, h, f, h1, c, c1);
  }

  lemma BlockStarted(s: Stream, h: History)
    requires RequestInv(s, AtReceive, h)
    ensures s.headerState.WaitingResponse? && !s.trailerState.Initial? ==> s.trailerFrames != []
    ensures h.secondEarly ==> h.second
  {
    hide DispatchOk, TrailerOk, Complained, Dispatchable, NoPseudo, MergeAll;
  }

  lemma TrailerStrayed(id: U32, declared: Option<set<string>>, ts: DecodingState, sent: seq<ToConn>, late: seq<Headers>, stray: bool, stray1: bool)
    requires TrailerOk(id, declared, ts, sent, late, stray) && (stray ==> stray1)
    ensures TrailerOk(id, declared, ts, sent, late, stray1)
  {
    hide Num;
  }

  predicate RefusedHistory(s: Stream, h: History, f: Frame, h1: History) {
    && OnlyFrameFields(h, h1) && h1.accepted == h.accepted && h1.trailerBlock == h.trailerBlock && h1.secondEarly == h.secondEarly
    && (h.stray ==> h1.stray) && (h.extra ==> h1.extra)
    && h1.second == (h.second || (f.ty.Headers? && s.state.Open?))
    && h1.secondAt == (if f.ty.Headers? && s.state.Open? && !h.second then |h.sent| else h.secondAt)
  }

  lemma SecondRefused(s: Stream, h: History, f: Frame, h1: History, c: bool, c1: bool)
    requires SecondOk(s.headerState, s.trailerFrames, s.dispatched, s.composited, h.reply, h.second, h.secondEarly, c)
    requires h1.second == (h.second || (f.ty.Headers? && s.state.Open?)) && h1.secondEarly == h.secondEarly
    requires f.ty.Headers? && s.state.Open? ==>
      c1 && InProgress(s.headerState) && (s.headerState.WaitingResponse? ==> s.trailerFrames != [])
    requires h.secondEarly ==> h.second
    requires h1.second && !(f.ty.Headers? && s.state.Open?) ==> (c ==> c1)
    ensures SecondOk(s.headerState, s.trailerFrames, s.dispatched, s.composited, h.reply, h1.second, h1.secondEarly, c1)
  {}

  lemma FrameRefusedRest(s: Stream, h: History, f: Frame, e: Error, h1: History)
    requires FlowInv(s, AtReceive, h) && ContentInv(s, h) && RefusedHistory(s, h, f, h1)
    ensures FlowInv(s, AtReport(Failure(e)), h1) && ContentInv(s, h1)
  {
    hide StateOk, WindowOk, ResponseOk, CountOk, OwnMessages, FailedOk, BodyOk, TrailerFrom, TrailerBlockOk;
    CountFailure(s.id, s.state, h.sent, e);
    FailedNot(s.id, AtReport(Failure(e)), s.dispatched, h.sent, |h.lateReplies|, h1.stray);
    TrailerBlockPast(s.id, s.headerState, s.headerState, s.trailerState, s.trailerFrames, h.trailerBlock, h.sent, h.stray, h.extra, h1.stray, h1.extra);
  }

  lemma CountFailure(id: U32, state: StreamState, sent: seq<ToConn>, e: Error)
    requires CountOk(id, state, AtReceive, sent)
    ensures CountOk(id, state, AtReport(Failure(e)), sent)
  {
    hide Num;
  }

  lemma BlockAfterFrame(s: Stream, h: History, inbox: seq<ToStream>, s1: Stream, h1: History, phase: Phase)
    requires BlockInv(s, AtReceive, inbox, false, h) && inbox != [] && s1.id == s.id
    requires OnlyFrameFields(h, h1) && h1.taken == h.taken + 1
    requires Logged(s.id, h.forwarded, h.taken + 1, inbox[1..], false)
    requires HeaderProgress(s1.headerState, s1.headerFrames, h.first, h.block, h.closed, h.taken + 1)
    requires InProgress(s1.headerState) <==> InProgress(s.headerState)
    requires phase.AtReport? && (phase.message.Failure? || (phase.message.ActiveStreamCount? && phase.message.sid == s.id))
    ensures BlockInv(s1, phase, inbox[1..], false, h1)
  {
    hide Logged, BlockPlaced, HeaderProgress;
  }

  lemma ReceiveAcceptedStep(t: Task, f: Frame)
    requires t.phase.AtReceive? && t.inbox != [] && t.inbox[0] == FrameForRequest(f) && HandleFrame(t.s, f).Accepted?
    ensures CanStep(t, false)
    ensures var (r, h1) := (HandleFrame(t.s, f), AcceptedHistory(t.s, t.h, f));
      && TaskStep(t, false).task == t.(s := r.next, inbox := t.inbox[1..], phase := AtReport(ActiveStreamCount(r.command, t.s.id)), h := h1)
      && OnlyFrameFields(t.h, h1) && h1.taken == t.h.taken + 1 && h1.accepted == t.h.accepted + [f]
  {
    hide HandleFrame;
  }

  lemma BlockParts(s: Stream, phase: Phase, inbox: seq<ToStream>, h: History)
    requires BlockInv(s, phase, inbox, false, h)
    ensures Logged(s.id, h.forwarded, h.taken, inbox, false)
    ensures BlockPlaced(h.forwarded, h.first, h.block, h.closed)
    ensures HeaderProgress(s.headerState, s.headerFrames, h.first, h.block, h.closed, h.taken)
    ensures phase.AtReceive? ==> !s.headerState.Ready?
  {
    hide Logged, BlockPlaced, HeaderProgress, HeaderMessage;
  }

  /** Facts about the fields that the stream state settles. */
  lemma StateFacts(s: Stream, phase: Phase, h: History)
    requires FlowInv(s, phase, h)
    ensures s.state.Idle? <==> s.headerState.Initial?
    ensures !s.trailerState.Initial? ==> InProgress(s.headerState)
    ensures s.state.Open? ==> !s.headerState.Initial?
  {
    hide WindowOk, ResponseOk, CountOk, OwnMessages, EndsOnce;
  }

  lemma ReceiveAccepted(t: Task, f: Frame)
    requires LocalInv(t) && t.phase.AtReceive? && !t.cancelled && t.inbox != [] && t.inbox[0] == FrameForRequest(f)
    requires HandleFrame(t.s, f).Accepted?
    ensures LocalInv(TaskStep(t, false).task)
  {
    hide *;
    var (s, h) := (t.s, t.h);
    Parts(t);
    BlockParts(s, t.phase, t.inbox, h);
    StateFacts(s, t.phase, h);
    AcceptedEffect(s, f);
    ReceiveAcceptedStep(t, f);
    var Accepted(s1, command) := HandleFrame(s, f);
    var h1 := AcceptedHistory(s, h, f);
    NextTaken(s.id, h.forwarded, h.taken, t.inbox);
    LoggedChecked(s.id, h.forwarded, h.taken, t.inbox, false, h.taken);
    AcceptedBlock(s, h, f, s1, command);
    FrameAcceptedFlow(s, h, f, s1, command, h1);
    FrameAcceptedRequest(s, h, f, s1, command);
    NoDataAfterEnd(s, t.phase, h, f);
    EffectAllowed(s, f, s1, command);
    StateHeaders(s, t.phase, h);
    FrameAcceptedContent(s, h, f, s1, command);
    BlockAfterFrame(s, h, t.inbox, s1, h1, AtReport(ActiveStreamCount(command, s.id)));
    Parts(TaskStep(t, false).task);
  }

  lemma EffectAllowed(s: Stream, f: Frame, s1: Stream, command: CountCommand)
    requires Effect(s, f, s1, command)
    ensures s.state.HalfClosedRemote? || s.state.Closed? ==> !f.ty.Data?
  {
    hide Fields;
  }

  /** The state of a stream whose request has ended. */
  lemma NoDataAfterEnd(s: Stream, phase: Phase, h: History, f: Frame)
    requires FlowInv(s, phase, h)
    ensures s.requestEnd ==> s.state.HalfClosedRemote? || s.state.Closed?
  {
    hide WindowOk, ResponseOk, CountOk, OwnMessages, EndsOnce, FailedOk, AnyEnd, AnyReset, CountHeaders;
  }

  lemma AcceptedBlock(s: Stream, h: History, f: Frame, s1: Stream, command: CountCommand)
    requires BlockPlaced(h.forwarded, h.first, h.block, h.closed)
    requires HeaderProgress(s.headerState, s.headerFrames, h.first, h.block, h.closed, h.taken)
    requires h.taken < |h.forwarded| && h.forwarded[h.taken] == f && !s.headerState.Ready?
    requires Checked(f, s.id) && Effect(s, f, s1, command)
    ensures HeaderProgress(s1.headerState, s1.headerFrames, h.first, h.block, h.closed, h.taken + 1)
    ensures InTurn(s.headerState, f)
    ensures IsBlockFrame(f) ==> f.HasFragment()
    ensures InProgress(s1.headerState) <==> InProgress(s.headerState)
    ensures s1.id == s.id
  {
    hide HeaderProgress, BlockPlaced;
    NextInBlock(h.forwarded, h.first, h.block, h.closed, h.taken, s.headerState, s.headerFrames);
    ProgressAccepted(h.forwarded, h.first, h.block, h.closed, h.taken, s.headerState, s.headerFrames, f);
  }

  lemma ReceiveRefusedStep(t: Task, f: Frame)
    requires t.phase.AtReceive? && t.inbox != [] && t.inbox[0] == FrameForRequest(f) && HandleFrame(t.s, f).Refused?
    ensures CanStep(t, false)
    ensures TaskStep(t, false).task == t.(inbox := t.inbox[1..], phase := AtReport(Failure(HandleFrame(t.s, f).error)),
                                          h := Consumed(t.s, t.h, FrameForRequest(f)))
    ensures var h1 := Consumed(t.s, t.h, FrameForRequest(f));
      RefusedHistory(t.s, t.h, f, h1) && OnlyFrameFields(t.h, h1) && h1.taken == t.h.taken + 1
  {
    hide HandleFrame;
  }

  lemma RefusedBlock(s: Stream, h: History, f: Frame)
    requires BlockPlaced(h.forwarded, h.first, h.block, h.closed)
    requires HeaderProgress(s.headerState, s.headerFrames, h.first, h.block, h.closed, h.taken)
    requires h.taken < |h.forwarded| && h.forwarded[h.taken] == f && !s.headerState.Ready?
    requires Checked(f, s.id) && !HandleFrame(s, f).Accepted?
    requires s.state.Idle? <==> s.headerState.Initial?
    requires !s.trailerState.Initial? ==> InProgress(s.headerState)
    ensures HandleFrame(s, f).Refused?
    ensures HeaderProgress(s.headerState, s.headerFrames, h.first, h.block, h.closed, h.taken + 1)
    ensures !s.headerState.KeepGoing?
    ensures f.ty.Headers? && s.state.Open? ==>
      HandleFrame(s, f).error == ConnectionError(ProtocolError) && InProgress(s.headerState) && !s.trailerState.Initial?
  {
    NotAccepted(s, f);
    hide HandleFrame;
    NextInBlock(h.forwarded, h.first, h.block, h.closed, h.taken, s.headerState, s.headerFrames);
    assert !s.headerState.KeepGoing?;
    ProgressRefused(h.forwarded, h.first, h.block, h.closed, h.taken, s.headerState, s.headerFrames, f);
    hide HeaderProgress, BlockPlaced;
  }

  lemma LoggedChecked(id: U32, forwarded: seq<Frame>, taken: nat, inbox: seq<ToStream>, cancelled: bool, i: nat)
    requires Logged(id, forwarded, taken, inbox, cancelled) && i < |forwarded|
    ensures Checked(forwarded[i], id)
    ensures Logged(id, forwarded, taken, [], true)
  {}

  lemma ReceiveRefused(t: Task, f: Frame)
    requires LocalInv(t) && t.phase.AtReceive? && !t.cancelled && t.inbox != [] && t.inbox[0] == FrameForRequest(f)
    requires !HandleFrame(t.s, f).Accepted?
    ensures LocalInv(TaskStep(t, false).task)
  {
    hide *;
    var (s, h) := (t.s, t.h);
    Parts(t);
    BlockParts(s, t.phase, t.inbox, h);
    StateFacts(s, t.phase, h);
    NextTaken(s.id, h.forwarded, h.taken, t.inbox);
    LoggedChecked(s.id, h.forwarded, h.taken, t.inbox, false, h.taken);
    RefusedBlock(s, h, f);
    ReceiveRefusedStep(t, f);
    var e, h1 := HandleFrame(s, f).error, Consumed(s, h, FrameForRequest(f));
    RefusedRequest(s, h, f, e, h1);
    FrameRefusedRest(s, h, f, e, h1);
    BlockAfterFrame(s, h, t.inbox, s, h1, AtReport(Failure(e)));
    Parts(TaskStep(t, false).task);
  }

  // ---- responses and the decoder's answers ----

  lemma DirectBytes(head: Frame, data: Frame)
    requires head.ty.Headers? && data.ty.Data?
    ensures TruncatedBytes([head]) == 0 && TruncatedBytes([head, data]) == Truncate(|data.payload|)
    ensures CountData([head]) == 0 && CountData([head, data]) == 1
  {
    assert [head][..0] == [] && [head, data][..1] == [head];
  }

  /** The response goes out whole and is debited. */
  lemma WindowDirect(id: U32, window: U32, a: seq<Frame>, flushed: seq<Frame>, sent: seq<ToConn>, head: Frame, data: Frame)
    requires WindowOk(window, [], a, flushed, sent, 0) && CanSend(window, |data.payload|)
    requires head.ty.Headers? && data.ty.Data?
    ensures WindowOk(window - Truncate(|data.payload|), [], a, flushed, sent + [DoResponse([head, data], id)], 1)
  {
    hide Credit, Debit, TruncatedBytes, CountData, OutFrames, Truncate;
    DirectBytes(head, data);
    OutAppend(sent, DoResponse([head, data], id));
    assert [] + [head, data] == [head, data];
  }

  /** Or its DATA frame waits, and nothing is debited. */
  lemma WindowWaiting(id: U32, window: U32, a: seq<Frame>, flushed: seq<Frame>, sent: seq<ToConn>, head: Frame, data: Frame)
    requires WindowOk(window, [], a, flushed, sent, 0)
    requires head.ty.Headers? && data.ty.Data? && data.HasEndStream()
    ensures WindowOk(window, [data], a, flushed, sent + [DoResponse([head], id)], 1)
  {
    hide Credit, Debit, TruncatedBytes, CountData, OutFrames, Truncate;
    DirectBytes(head, data);
    OutAppend(sent, DoResponse([head], id));
    assert [] + [head] == [head];
  }

  /** What a response object changes: the window and the pending frames, and one message. */
  predicate Answered(s: Stream, encoded: seq<Byte>, body: Option<seq<Byte>>, s1: Stream, m: ToConn) {
    var head, data := ResponseHeaders(s.id, encoded), ResponseData(s.id, body);
    && s1 == s.(window := s1.window, pending := s1.pending)
    && if CanSend(s.window, |data.payload|)
       then s1.window == s.window - Truncate(|data.payload|) && s1.pending == s.pending && m == DoResponse([head, data], s.id)
       else s1.window == s.window && s1.pending == s.pending + [data] && m == DoResponse([head], s.id)
  }

  lemma ResponseStep(t: Task, encoded: seq<Byte>, body: Option<seq<Byte>>)
    requires t.phase.AtReceive? && t.inbox != [] && t.inbox[0] == ResponseObject(encoded, body)
    ensures CanStep(t, false)
    ensures var (s1, m) := HandleResponse(t.s, encoded, body);
      && Answered(t.s, encoded, body, s1, m)
      && TaskStep(t, false).task == t.(s := s1, inbox := t.inbox[1..], phase := AtHeaders,
                                       h := t.h.(responses := t.h.responses + 1, response := Some((encoded, body)), sent := t.h.sent + [m]))
  {
    hide HandleResponse, Answered;
    ResponseAnswered(t.s, encoded, body);
  }

  lemma ResponseAnswered(s: Stream, encoded: seq<Byte>, body: Option<seq<Byte>>)
    ensures var (s1, m) := HandleResponse(s, encoded, body); Answered(s, encoded, body, s1, m)
  {
    hide CanSend, Truncate, ResponseHeaders, ResponseData;
  }

  lemma ReceiveResponse(t: Task, encoded: seq<Byte>, body: Option<seq<Byte>>)
    requires LocalInv(t) && t.phase.AtReceive? && !t.cancelled && t.inbox != [] && t.inbox[0] == ResponseObject(encoded, body)
    requires t.s.dispatched && t.h.responses == 0
    ensures LocalInv(TaskStep(t, false).task)
  {
    hide *;
    var (s, h) := (t.s, t.h);
    Parts(t);
    BlockParts(s, t.phase, t.inbox, h);
    NextTaken(s.id, h.forwarded, h.taken, t.inbox);
    ResponseStep(t, encoded, body);
    var (s1, m) := HandleResponse(s, encoded, body);
    ResponseRequest(s, h, encoded, body, s1, m);
    ResponseFlow(s, h, encoded, body, s1, m);
    ResponseBlock(s, t.inbox, h, encoded, body, s1, m);
    ResponseContent(s, h, encoded, body, s1, m);
    Parts(TaskStep(t, false).task);
  }

  lemma ResponseWindow(s: Stream, h: History, encoded: seq<Byte>, body: Option<seq<Byte>>, s1: Stream, m: ToConn)
    requires WindowOk(s.window, [], h.accepted, h.flushed, h.sent, 0) && s.pending == [] && Answered(s, encoded, body, s1, m)
    ensures WindowOk(s1.window, s1.pending, h.accepted, h.flushed, h.sent + [m], 1)
  {
    hide WindowOk, ResponseOk, Truncate, CanSend;
    var head, data := ResponseHeaders(s.id, encoded), ResponseData(s.id, body);
    if CanSend(s.window, |data.payload|) {
      WindowDirect(s.id, s.window, h.accepted, h.flushed, h.sent, head, data);
    } else {
      WindowWaiting(s.id, s.window, h.accepted, h.flushed, h.sent, head, data);
      assert [] + [data] == [data];
    }
  }

  lemma ResponseFlow(s: Stream, h: History, encoded: seq<Byte>, body: Option<seq<Byte>>, s1: Stream, m: ToConn)
    requires FlowInv(s, AtReceive, h) && h.responses == 0 && s.requestEnd && Answered(s, encoded, body, s1, m)
    ensures FlowInv(s1, AtHeaders, h.(responses := 1, response := Some((encoded, body)), sent := h.sent + [m]))
  {
    hide StateOk, WindowOk, ResponseOk, CountOk, OwnMessages, FailedOk, Truncate, CanSend;
    NothingPending(s, h);
    ResponseWindow(s, h, encoded, body, s1, m);
    ResponseWhole(s, h, encoded, body, s1, m);
    CountQuiet(s.id, s.state, AtReceive, AtHeaders, h.sent, m);
    StatePending(s, s1.pending, h);
    OwnAppend(s.id, h.sent, m);
    FailedNot(s.id, AtHeaders, s.dispatched, h.sent + [m], |h.lateReplies|, h.stray);
  }

  lemma NothingPending(s: Stream, h: History)
    requires FlowInv(s, AtReceive, h) && h.responses == 0
    ensures s.pending == []
  {
    hide StateOk, CountOk, OwnMessages, ResponseOk;
  }

  lemma TwoParts<T>(head: T, data: T)
    ensures [] + [head, data] + [] == [head, data] && [] + [head] + ([] + [data]) == [head, data]
  {}

  lemma NothingOut(id: U32, sent: seq<ToConn>, response: Option<Response>)
    requires ResponseOk(id, [], sent, 0, response)
    ensures OutFrames(sent) == []
  {
    hide OutFrames;
    assert OutFrames(sent) + [] == OutFrames(sent);
  }

  /** Headers and data, together or one now and one later. */
  lemma ResponseWhole(s: Stream, h: History, encoded: seq<Byte>, body: Option<seq<Byte>>, s1: Stream, m: ToConn)
    requires ResponseOk(s.id, [], h.sent, 0, h.response) && s.pending == [] && Answered(s, encoded, body, s1, m)
    ensures ResponseOk(s.id, s1.pending, h.sent + [m], 1, Some((encoded, body)))
  {
    hide OutFrames, CanSend, Truncate, ResponseHeaders, ResponseData, Debit, TruncatedBytes;
    NothingOut(s.id, h.sent, h.response);
    OutAppend(h.sent, m);
    TwoParts(ResponseHeaders(s.id, encoded), ResponseData(s.id, body));
  }

  lemma StatePending(s: Stream, pending: seq<Frame>, h: History)
    requires StateOk(s.state, s.requestEnd, s.headerState, s.trailerState, s.pending, h.accepted, h.flushed) && s.requestEnd
    ensures StateOk(s.state, s.requestEnd, s.headerState, s.trailerState, pending, h.accepted, h.flushed)
  {}

  lemma ResponseBlock(s: Stream, inbox: seq<ToStream>, h: History, encoded: seq<Byte>, body: Option<seq<Byte>>, s1: Stream, m: ToConn)
    requires BlockInv(s, AtReceive, inbox, false, h) && inbox != [] && Answered(s, encoded, body, s1, m)
    requires Logged(s.id, h.forwarded, h.taken, inbox[1..], false)
    ensures BlockInv(s1, AtHeaders, inbox[1..], false, h.(responses := h.responses + 1, response := Some((encoded, body)), sent := h.sent + [m]))
  {
    hide HeaderMessage, Logged, BlockPlaced, HeaderProgress, Truncate, CanSend;
    HeaderMessageQuiet(s.id, s.headerState, h.block, h.closed, h.sent, m);
  }

  lemma ResponseRequest(s: Stream, h: History, encoded: seq<Byte>, body: Option<seq<Byte>>, s1: Stream, m: ToConn)
    requires RequestInv(s, AtReceive, h) && s.dispatched && Answered(s, encoded, body, s1, m)
    ensures s.requestEnd
    ensures RequestInv(s1, AtHeaders, h.(responses := h.responses + 1, response := Some((encoded, body)), sent := h.sent + [m]))
  {
    hide RequestOk, TrailerOk, SecondOk, DispatchOk, Complained, Truncate, CanSend;
    DispatchedFacts(s, h);
    RequestQuiet(s, AtReceive, AtHeaders, h, m);
    DispatchCounted(s, h, h.sent + [m]);
  }

  lemma DispatchCounted(s: Stream, h: History, sent: seq<ToConn>)
    requires DispatchOk(s.id, s.dispatched, s.requestEnd, s.trailerState, s.composited, sent, h.reply, h.lateReplies, h.responses) && s.dispatched
    ensures DispatchOk(s.id, s.dispatched, s.requestEnd, s.trailerState, s.composited, sent, h.reply, h.lateReplies, h.responses + 1)
  {
    hide Num, BuiltFrom;
  }

  lemma ResponseContent(s: Stream, h: History, encoded: seq<Byte>, body: Option<seq<Byte>>, s1: Stream, m: ToConn)
    requires ContentInv(s, h) && Answered(s, encoded, body, s1, m)
    ensures ContentInv(s1, h.(responses := h.responses + 1, response := Some((encoded, body)), sent := h.sent + [m]))
  {
    hide BodyOk, TrailerFrom, TrailerBlockOk, Truncate, CanSend;
    ContentQuiet(s, h, m);
  }

  function ReportOrNext(e: Option<Error>): Phase {
    if e.Some? then AtReport(Failure(e.value)) else AtHeaders
  }

  /** Before the answer nothing was dispatched and no trailers were asked for. */
  lemma NothingBeforeReply(s: Stream, h: History)
    requires RequestInv(s, AtReceive, h) && s.headerState.WaitingResponse?
    ensures h.reply.None? && h.lateReplies == [] && !s.dispatched && s.declared.None? && s.composited.None?
    ensures !InProgress(s.trailerState)
    ensures forall i :: 0 <= i < |h.sent| ==> !h.sent[i].RequestForDispatch? && !h.sent[i].TrailersToDecode?
  {
    hide SecondOk, BuiltFrom, MergeAll;
  }

  lemma TrailersUnasked(id: U32, ts: DecodingState, ts1: DecodingState, declared: Option<set<string>>, sent: seq<ToConn>, stray: bool)
    requires TrailerOk(id, None, ts, sent, [], stray) && !InProgress(ts) && (ts1 == ts || ts1.Completed?)
    requires forall i :: 0 <= i < |sent| ==> !sent[i].TrailersToDecode?
    ensures TrailerOk(id, declared, ts1, sent, [], stray)
  {}

  /** What the answer to the header block sets. */
  predicate Replied(s: Stream, headers: Headers, names: set<string>, s1: Stream) {
    && s1 == s.(headerState := Completed, declared := s1.declared, trailerState := s1.trailerState, composited := s1.composited)
    && s1.declared == (if names == {} then None else Some(names))
    && s1.trailerState == (if names == {} then Completed else s.trailerState)
    && s1.composited == (if names == {} && s.trailerFrames != [] then None else Some(headers))
  }

  lemma ReplyFields(s: Stream, headers: Headers, names: set<string>)
    requires s.declared.None? && s.composited.None?
    ensures var (s1, e) := HandleHeadersDecoded(s, headers, names);
      && Replied(s, headers, names, s1)
      && e == (if names == {} && s.trailerFrames != [] then Some(ConnectionError(ProtocolError)) else None)
  {}

  lemma RequestReplied(s: Stream, headers: Headers, names: set<string>, s1: Stream)
    requires RequestOk(WaitingResponse, s.trailerState, None, None, s.trailerFrames, None, []) && !InProgress(s.trailerState)
    requires Replied(s, headers, names, s1) && Dispatchable(headers)
    ensures RequestOk(Completed, s1.trailerState, s1.declared, s1.composited, s.trailerFrames, Some((headers, names)), [])
  {
    hide Dispatchable, NoPseudo;
  }

  lemma DispatchReplied(s: Stream, h: History, reply: (Headers, set<string>), s1: Stream)
    requires DispatchOk(s.id, false, s.requestEnd, s.trailerState, None, h.sent, None, [], h.responses)
    requires forall i :: 0 <= i < |h.sent| ==> !h.sent[i].RequestForDispatch?
    requires reply.1 != {} ==> s1.composited.Some?
    ensures DispatchOk(s.id, false, s.requestEnd, s1.trailerState, s1.composited, h.sent, Some(reply), [], h.responses)
  {
    hide BuiltFrom;
  }

  lemma SecondReplied(s: Stream, s1: Stream, second: bool, secondEarly: bool, headers: Headers, names: set<string>, c: bool, c1: bool)
    requires SecondOk(WaitingResponse, s.trailerFrames, false, None, None, second, secondEarly, c) && Replied(s, headers, names, s1)
    requires names == {} && s.trailerFrames != [] ==> c1
    ensures SecondOk(Completed, s.trailerFrames, false, s1.composited, Some((headers, names)), second, secondEarly, c1)
  {}

  lemma HeadersReplyRequest(s: Stream, h: History, headers: Headers, names: set<string>)
    requires RequestInv(s, AtReceive, h) && s.headerState.WaitingResponse? && Dispatchable(headers)
    ensures var (s1, e) := HandleHeadersDecoded(s, headers, names);
      RequestInv(s1, ReportOrNext(e), h.(reply := Some((headers, names))))
  {
    hide RequestOk, DispatchOk, TrailerOk, SecondOk, Dispatchable, HandleHeadersDecoded;
    NothingBeforeReply(s, h);
    ReplyFields(s, headers, names);
    var (s1, e) := HandleHeadersDecoded(s, headers, names);
    RequestReplied(s, headers, names, s1);
    DispatchReplied(s, h, (headers, names), s1);
    TrailersUnasked(s.id, s.trailerState, s1.trailerState, s1.declared, h.sent, h.stray);
    SecondReplied(s, s1, h.second, h.secondEarly, headers, names,
                  Complained(h.sent, h.secondAt, AtReceive), Complained(h.sent, h.secondAt, ReportOrNext(e)));
  }

  lemma HeadersReplyContent(s: Stream, h: History, headers: Headers, names: set<string>)
    requires ContentInv(s, h) && s.headerState.WaitingResponse? && s.declared.None? && s.composited.None?
    requires forall i :: 0 <= i < |h.sent| ==> !h.sent[i].TrailersToDecode?
    ensures ContentInv(HandleHeadersDecoded(s, headers, names).0, h.(reply := Some((headers, names))))
  {
    hide BodyOk, TrailerFrom, TrailerBlockOk, HandleHeadersDecoded;
    TrailersOver(s.trailerState, h.trailerBlock, h.accepted);
    ReplyFields(s, headers, names);
    TrailerBlockReplied(s, h, HandleHeadersDecoded(s, headers, names).0.trailerState);
  }

  lemma TrailersOver(ts: DecodingState, block: seq<Frame>, a: seq<Frame>)
    requires TrailerFrom(ts, block, a)
    ensures TrailerFrom(Completed, block, a)
  {
    hide BlockTail, CountHeaders;
  }

  lemma TrailerBlockReplied(s: Stream, h: History, ts: DecodingState)
    requires TrailerBlockOk(s.id, WaitingResponse, s.trailerState, s.trailerFrames, h.trailerBlock, h.sent, h.stray, h.extra)
    requires ts == s.trailerState || ts.Completed?
    ensures TrailerBlockOk(s.id, Completed, ts, s.trailerFrames, h.trailerBlock, h.sent, h.stray, h.extra)
  {
    hide Num, Fragments, BlockShape;
  }

  lemma HeadersReplyBlock(s: Stream, inbox: seq<ToStream>, h: History, headers: Headers, names: set<string>)
    requires BlockInv(s, AtReceive, inbox, false, h) && s.headerState.WaitingResponse? && inbox != []
    requires Logged(s.id, h.forwarded, h.taken, inbox[1..], false)
    ensures var (s1, e) := HandleHeadersDecoded(s, headers, names);
      BlockInv(s1, ReportOrNext(e), inbox[1..], false, h.(reply := Some((headers, names))))
  {
    hide BlockPlaced, Logged, HeaderProgress, HeaderMessage;
    BlockAnswered(s, h);
  }

  lemma HeadersReplyFlow(s: Stream, h: History, headers: Headers, names: set<string>)
    requires FlowInv(s, AtReceive, h) && s.headerState.WaitingResponse? && s.declared.None? && s.composited.None?
    ensures var (s1, e) := HandleHeadersDecoded(s, headers, names);
      FlowInv(s1, ReportOrNext(e), h.(reply := Some((headers, names))))
  {
    hide StateOk, WindowOk, ResponseOk, CountOk, OwnMessages, FailedOk, HandleHeadersDecoded;
    ReplyFields(s, headers, names);
    var (s1, e) := HandleHeadersDecoded(s, headers, names);
    StateAnswered(s.state, s.requestEnd, s.trailerState, s1.trailerState, s.pending, h.accepted, h.flushed);
    if e.Some? {
      CountFailure(s.id, s.state, h.sent, e.value);
    } else {
      CountIdle(s.id, s.state, AtReceive, AtHeaders, h.sent);
    }
    FailedNot(s.id, ReportOrNext(e), s.dispatched, h.sent, |h.lateReplies|, h.stray);
  }

  lemma StateAnswered(state: StreamState, requestEnd: bool, ts: DecodingState, ts1: DecodingState, pending: seq<Frame>, a: seq<Frame>, flushed: seq<Frame>)
    requires StateOk(state, requestEnd, WaitingResponse, ts, pending, a, flushed) && (ts1 == ts || ts1.Completed?)
    ensures StateOk(state, requestEnd, Completed, ts1, pending, a, flushed)
  {
    hide EndsOnce;
  }

  lemma BlockAnswered(s: Stream, h: History)
    requires HeaderProgress(WaitingResponse, s.headerFrames, h.first, h.block, h.closed, h.taken)
    requires HeaderMessage(s.id, WaitingResponse, h.block, h.closed, h.sent)
    ensures HeaderProgress(Completed, s.headerFrames, h.first, h.block, h.closed, h.taken)
    ensures HeaderMessage(s.id, Completed, h.block, h.closed, h.sent)
  {}

  function AfterReply(s: Stream, headers: Headers): Stream
    requires s.composited.Some?
  {
    s.(composited := Some(s.composited.value + headers), trailerState := Completed)
  }

  lemma RequestMerged(s: Stream, h: History, headers: Headers)
    requires RequestOk(s.headerState, s.trailerState, s.declared, s.composited, s.trailerFrames, h.reply, h.lateReplies) && s.composited.Some?
    requires s.declared.Some? && headers.Keys <= s.declared.value && NoPseudo(headers)
    ensures s.headerState.Completed?
    ensures RequestOk(s.headerState, Completed, s.declared, Some(s.composited.value + headers), s.trailerFrames, h.reply, h.lateReplies + [headers])
  {
    hide NoPseudo, Dispatchable, AllFragments;
    var late := h.lateReplies + [headers];
    assert late[..|h.lateReplies|] == h.lateReplies;
  }

  lemma DispatchMerged(s: Stream, h: History, headers: Headers)
    requires DispatchOk(s.id, s.dispatched, s.requestEnd, s.trailerState, s.composited, h.sent, h.reply, h.lateReplies, h.responses)
    requires s.composited.Some?
    ensures !s.dispatched
    ensures DispatchOk(s.id, s.dispatched, s.requestEnd, Completed, Some(s.composited.value + headers), h.sent, h.reply, h.lateReplies + [headers], h.responses)
  {
    hide Num, BuiltFrom;
  }

  lemma TrailerMerged(s: Stream, h: History, headers: Headers)
    requires TrailerOk(s.id, s.declared, s.trailerState, h.sent, h.lateReplies, h.stray) && Num(h.sent, KTrailers, s.id) > |h.lateReplies|
    ensures TrailerOk(s.id, s.declared, Completed, h.sent, h.lateReplies + [headers], h.stray)
  {
    hide Num;
  }

  lemma SecondMerged(s: Stream, h: History, headers: Headers, c: bool, c1: bool)
    requires SecondOk(s.headerState, s.trailerFrames, s.dispatched, s.composited, h.reply, h.second, h.secondEarly, c) && s.composited.Some?
    requires c ==> c1
    ensures SecondOk(s.headerState, s.trailerFrames, s.dispatched, Some(s.composited.value + headers), h.reply, h.second, h.secondEarly, c1)
  {}

  lemma TrailersReplyRequest(s: Stream, h: History, headers: Headers)
    requires RequestInv(s, AtReceive, h) && s.composited.Some?
    requires s.declared.Some? && headers.Keys <= s.declared.value && NoPseudo(headers)
    requires Num(h.sent, KTrailers, s.id) > |h.lateReplies|
    ensures RequestInv(AfterReply(s, headers), AtHeaders, h.(lateReplies := h.lateReplies + [headers]))
    ensures s.headerState.Completed?
  {
    hide RequestOk, DispatchOk, TrailerOk, SecondOk, NoPseudo, Num;
    RequestMerged(s, h, headers);
    DispatchMerged(s, h, headers);
    TrailerMerged(s, h, headers);
    SecondMerged(s, h, headers, Complained(h.sent, h.secondAt, AtReceive), Complained(h.sent, h.secondAt, AtHeaders));
  }

  lemma TrailersReplyFlow(s: Stream, h: History, headers: Headers)
    requires FlowInv(s, AtReceive, h) && s.composited.Some? && s.headerState.Completed?
    ensures FlowInv(AfterReply(s, headers), AtHeaders, h.(lateReplies := h.lateReplies + [headers]))
  {
    hide StateOk, WindowOk, ResponseOk, CountOk, OwnMessages, FailedOk;
    StateMerged(s.state, s.requestEnd, s.trailerState, s.pending, h.accepted, h.flushed);
    CountIdle(s.id, s.state, AtReceive, AtHeaders, h.sent);
    FailedNot(s.id, AtHeaders, s.dispatched, h.sent, |h.lateReplies| + 1, h.stray);
  }

  lemma StateMerged(state: StreamState, requestEnd: bool, ts: DecodingState, pending: seq<Frame>, a: seq<Frame>, flushed: seq<Frame>)
    requires StateOk(state, requestEnd, Completed, ts, pending, a, flushed)
    ensures StateOk(state, requestEnd, Completed, Completed, pending, a, flushed)
  {
    hide EndsOnce;
  }

  lemma TrailersReplyRest(s: Stream, inbox: seq<ToStream>, h: History, headers: Headers)
    requires BlockInv(s, AtReceive, inbox, false, h) && ContentInv(s, h) && s.composited.Some? && inbox != []
    requires Logged(s.id, h.forwarded, h.taken, inbox[1..], false)
    ensures var h1 := h.(lateReplies := h.lateReplies + [headers]);
      BlockInv(AfterReply(s, headers), AtHeaders, inbox[1..], false, h1) && ContentInv(AfterReply(s, headers), h1)
  {
    hide BlockPlaced, Logged, HeaderProgress, HeaderMessage, BodyOk, TrailerFrom, TrailerBlockOk;
    TrailersOver(s.trailerState, h.trailerBlock, h.accepted);
    TrailerBlockDone(s, h);
  }

  lemma TrailerBlockDone(s: Stream, h: History)
    requires TrailerBlockOk(s.id, s.headerState, s.trailerState, s.trailerFrames, h.trailerBlock, h.sent, h.stray, h.extra)
    ensures TrailerBlockOk(s.id, s.headerState, Completed, s.trailerFrames, h.trailerBlock, h.sent, h.stray, h.extra)
  {
    hide Num, Fragments, BlockShape;
  }

  lemma TrailersStep(t: Task, headers: Headers)
    requires t.phase.AtReceive? && t.inbox != [] && t.inbox[0] == TrailersDecoded(headers)
    ensures CanStep(t, false)
    ensures TaskStep(t, false).task ==
      if t.s.composited.None? then t.(phase := Failed)
      else t.(s := AfterReply(t.s, headers), inbox := t.inbox[1..], phase := AtHeaders, h := t.h.(lateReplies := t.h.lateReplies + [headers]))
  {}

  lemma ExpectedTrailers(t: Task, headers: Headers)
    requires HeadOk(t) && t.inbox != [] && t.inbox[0] == TrailersDecoded(headers)
    ensures t.s.declared.Some? && headers.Keys <= t.s.declared.value && NoPseudo(headers)
    ensures Num(t.h.sent, KTrailers, t.s.id) > |t.h.lateReplies|
  {
    hide Num, NoPseudo;
  }

  lemma ReceiveTrailers(t: Task, headers: Headers)
    requires LocalInv(t) && t.phase.AtReceive? && !t.cancelled && t.inbox != [] && t.inbox[0] == TrailersDecoded(headers)
    requires HeadOk(t)
    ensures LocalInv(TaskStep(t, false).task)
  {
    hide *;
    var (s, h) := (t.s, t.h);
    Parts(t);
    ExpectedTrailers(t, headers);
    BlockParts(s, t.phase, t.inbox, h);
    NextTaken(s.id, h.forwarded, h.taken, t.inbox);
    TrailersStep(t, headers);
    if s.composited.Some? {
      TrailersReplyRequest(s, h, headers);
      TrailersReplyFlow(s, h, headers);
      TrailersReplyRest(s, t.inbox, h, headers);
      Parts(TaskStep(t, false).task);
    } else {
      FailedOnlyWhenStray(t);
    }
  }

  /** A missing header map when trailers arrive betrays a dispatch, an answer before this one and a stray CONTINUATION. */
  lemma MissingMap(s: Stream, h: History)
    requires RequestInv(s, AtReceive, h) && s.composited.None? && s.declared.Some?
    requires Num(h.sent, KTrailers, s.id) > |h.lateReplies|
    ensures h.stray && s.dispatched && h.lateReplies != []
  {
    hide SecondOk, BuiltFrom, Complained, MergeAll, Dispatchable, NoPseudo, Num;
  }

  lemma FlowFailed(s: Stream, h: History)
    requires FlowInv(s, AtReceive, h) && h.stray && s.dispatched && 1 <= |h.lateReplies| < Num(h.sent, KTrailers, s.id)
    ensures FlowInv(s, Failed, h)
  {
    hide StateOk, WindowOk, ResponseOk, CountOk, OwnMessages, Num;
    CountIdle(s.id, s.state, AtReceive, Failed, h.sent);
  }

  lemma FailedOnlyWhenStray(t: Task)
    requires LocalInv(t) && t.phase.AtReceive? && t.s.composited.None? && t.s.declared.Some?
    requires Num(t.h.sent, KTrailers, t.s.id) > |t.h.lateReplies|
    ensures t.h.stray && LocalInv(t.(phase := Failed))
  {
    hide *;
    Parts(t);
    NotReady(t);
    MissingMap(t.s, t.h);
    SomeReplies(t.h);
    FlowFailed(t.s, t.h);
    BlockIdle(t.s, AtReceive, Failed, t.inbox, t.cancelled, t.h);
    RequestIdle(t.s, AtReceive, Failed, t.h);
    Parts(t.(phase := Failed));
  }

  lemma SomeReplies(h: History)
    ensures h.lateReplies != [] ==> 1 <= |h.lateReplies|
  {}

  lemma HeadersStep(t: Task, headers: Headers, names: set<string>)
    requires t.phase.AtReceive? && t.inbox != [] && t.inbox[0] == HeadersDecoded(headers, names)
    ensures CanStep(t, false)
    ensures var (s1, e) := HandleHeadersDecoded(t.s, headers, names);
      TaskStep(t, false).task == t.(s := s1, inbox := t.inbox[1..], phase := ReportOrNext(e), h := t.h.(reply := Some((headers, names))))
  {
    hide HandleHeadersDecoded;
  }

  lemma ExpectedHeaders(t: Task, headers: Headers, names: set<string>)
    requires HeadOk(t) && t.inbox != [] && t.inbox[0] == HeadersDecoded(headers, names)
    ensures t.s.headerState.WaitingResponse? && Dispatchable(headers)
  {
    hide Dispatchable;
  }

  lemma ReceiveHeaders(t: Task, headers: Headers, names: set<string>)
    requires LocalInv(t) && t.phase.AtReceive? && !t.cancelled && t.inbox != [] && t.inbox[0] == HeadersDecoded(headers, names)
    requires HeadOk(t)
    ensures LocalInv(TaskStep(t, false).task)
  {
    hide *;
    Parts(t);
    ExpectedHeaders(t, headers, names);
    BlockParts(t.s, t.phase, t.inbox, t.h);
    NextTaken(t.s.id, t.h.forwarded, t.h.taken, t.inbox);
    NothingBeforeReply(t.s, t.h);
    HeadersStep(t, headers, names);
    HeadersReplyRequest(t.s, t.h, headers, names);
    HeadersReplyBlock(t.s, t.inbox, t.h, headers, names);
    HeadersReplyFlow(t.s, t.h, headers, names);
    HeadersReplyContent(t.s, t.h, headers, names);
    Parts(TaskStep(t, false).task);
  }

  lemma CancelPhase(t: Task)
    requires LocalInv(t) && t.phase.AtReceive?
    ensures LocalInv(TaskStep(t, true).task)
  {
    hide *;
    NotReady(t);
    IdleStep(t, Stopped);
    Terminated(t.(phase := Stopped));
    CancelStep(t);
  }

  lemma CancelStep(t: Task)
    requires t.phase.AtReceive?
    ensures CanStep(t, true) && TaskStep(t, true).task == t.(s := t.s.(shouldTerminate := true), phase := Stopped)
  {}

  /** The flag does not matter to anything else. */
  lemma Terminated(t: Task)
    requires LocalInv(t)
    ensures LocalInv(t.(s := t.s.(shouldTerminate := true)))
  {
    hide Logged, BlockPlaced, HeaderProgress, HeaderMessage, PhaseOk, RequestOk, DispatchOk, TrailerOk, SecondOk, Complained,
      StateOk, WindowOk, ResponseOk, CountOk, OwnMessages, FailedOk, BodyOk, TrailerFrom, TrailerBlockOk;
  }

  /** Every step of a stream task keeps its invariant. */
  lemma StepKeeps(t: Task, cancelled: bool)
    requires LocalInv(t) && CanStep(t, cancelled) && (t.cancelled ==> cancelled)
    requires t.phase.AtReceive? && !cancelled ==> HeadOk(t)
    ensures LocalInv(TaskStep(t, cancelled).task)
  {
    match t.phase {
      case AtHeaders => HeadersPhase(t);
      case AtTrailers => TrailersPhase(t);
      case AtDispatch => DispatchPhase(t);
      case AtRespond => RespondPhase(t);
      case AtReport(_) => ReportPhase(t);
      case AtReceive =>
        if cancelled {
          CancelPhase(t);
        } else {
          match t.inbox[0] {
            case FrameForRequest(f) =>
              if HandleFrame(t.s, f).Accepted? {
                ReceiveAccepted(t, f);
              } else {
                ReceiveRefused(t, f);
              }
            case ResponseObject(encoded, body) => ReceiveResponse(t, encoded, body);
            case HeadersDecoded(headers, names) => ReceiveHeaders(t, headers, names);
            case TrailersDecoded(headers) => ReceiveTrailers(t, headers);
          }
        }
    }
  }
}
