/** Where a stream's headers and trailers come from: the pairs HPACK gave for the blocks the stream sent. */
module DecodedAnswers {
  import opened Wrappers
  import opened Bytes
  import opened Frames
  import opened Messages
  import opened RequestContext
  import opened StreamModel
  import opened ConnectionModel
  import opened System
  import opened StreamInvariant
  import opened SystemInvariant
  import SystemArrive
  import ActiveCount
  import HeaderBlock

  /** The answer to a header block is the map of its pairs and what they declare. */
  predicate HeadersFrom(blocks: map<U32, Block>, sid: U32, sent: seq<ToConn>, headers: Headers, names: set<string>) {
    && sid in blocks
    && HeadersToDecode(blocks[sid].0, sid) in sent
    && HeaderBlock.WellFormed(blocks[sid].1)
    && headers == HeaderBlock.HeaderMap(blocks[sid].1) && names == HeaderBlock.DeclaredTrailers(blocks[sid].1)
  }

  /** The answers to trailer blocks: of each, the declared names. */
  function TrailerMaps(blocks: seq<Block>, declared: set<string>): seq<Headers> {
    if blocks == [] then []
    else TrailerMaps(blocks[..|blocks| - 1], declared) + [HeaderBlock.TrailerMap(blocks[|blocks| - 1].1, declared)]
  }

  function TrailersIn(inbox: seq<ToStream>): seq<Headers> {
    if inbox == [] then []
    else (if inbox[0].TrailersDecoded? then [inbox[0].headers] else []) + TrailersIn(inbox[1..])
  }

  /** Trailers consumed and trailers waiting are the answers to the stream's trailer blocks, in order. */
  predicate TrailersFrom(blocks: seq<Block>, sid: U32, declared: Option<set<string>>, sent: seq<ToConn>, late: seq<Headers>, inbox: seq<ToStream>) {
    if declared.None? then blocks == [] && late == [] && TrailersIn(inbox) == []
    else
      && late + TrailersIn(inbox) == TrailerMaps(blocks, declared.value)
      && forall i :: 0 <= i < |blocks| ==> HeaderBlock.TrailersOk(blocks[i].1) && TrailersToDecode(blocks[i].0, declared.value, sid) in sent
  }

  predicate AnswersFrom(blocks: map<U32, Block>, sid: U32, sent: seq<ToConn>, reply: Option<(Headers, set<string>)>, inbox: seq<ToStream>) {
    && (reply.Some? ==> HeadersFrom(blocks, sid, sent, reply.value.0, reply.value.1))
    && (forall i :: 0 <= i < |inbox| && inbox[i].HeadersDecoded? ==> HeadersFrom(blocks, sid, sent, inbox[i].headers, inbox[i].maybeTrailer))
  }

  predicate Origin(t: Task, sid: U32, blocks: map<U32, Block>, trailers: seq<Block>) {
    && AnswersFrom(blocks, sid, t.h.sent, t.h.reply, t.inbox)
    && TrailersFrom(trailers, sid, t.s.declared, t.h.sent, t.h.lateReplies, t.inbox)
  }

  predicate OriginAt(y: Sys, sid: U32)
    requires sid in y.tasks
  {
    Origin(y.tasks[sid], sid, y.log.headerBlocks, BlocksOf(y.log.trailerBlocks, sid))
  }

  ghost predicate Traced(y: Sys) {
    && y.log.trailerBlocks.Keys <= y.tasks.Keys
    && forall sid :: sid in y.tasks ==> OriginAt(y, sid)
  }

  lemma InitTraced(y: Sys)
    requires Init(y)
    ensures Traced(y)
  {}

  // ---- a message more in the log, a message more in the inbox ----

  lemma {:induction false} TrailersInAppend(inbox: seq<ToStream>, m: ToStream)
    ensures TrailersIn(inbox + [m]) == TrailersIn(inbox) + (if m.TrailersDecoded? then [m.headers] else [])
  {
    if inbox == [] {
      assert [] + [m] == [m] && [m][1..] == [];
    } else {
      assert (inbox + [m])[1..] == inbox[1..] + [m] && (inbox + [m])[0] == inbox[0];
      TrailersInAppend(inbox[1..], m);
      Associate(if inbox[0].TrailersDecoded? then [inbox[0].headers] else [], TrailersIn(inbox[1..]), if m.TrailersDecoded? then [m.headers] else []);
    }
  }

  lemma SentMore(t: Task, t1: Task, sid: U32, blocks: map<U32, Block>, trailers: seq<Block>, message: Option<ToConn>)
    requires Origin(t, sid, blocks, trailers) && SameAnswers(t, t1) && t1.h.sent == Log1(t.h.sent, message)
    ensures Origin(t1, sid, blocks, trailers)
  {
    hide TrailerMaps, TrailersIn, HeaderBlock.WellFormed, HeaderBlock.HeaderMap, HeaderBlock.DeclaredTrailers, HeaderBlock.TrailersOk;
    assert forall m :: m in t.h.sent ==> m in t1.h.sent;
  }

  lemma AnswersMore(blocks: map<U32, Block>, sid: U32, sent: seq<ToConn>, reply: Option<(Headers, set<string>)>, inbox: seq<ToStream>, m: ToStream)
    requires AnswersFrom(blocks, sid, sent, reply, inbox)
    requires m.HeadersDecoded? ==> HeadersFrom(blocks, sid, sent, m.headers, m.maybeTrailer)
    ensures AnswersFrom(blocks, sid, sent, reply, inbox + [m])
  {
    hide HeadersFrom;
  }

  lemma TrailersMore(blocks: seq<Block>, sid: U32, declared: Option<set<string>>, sent: seq<ToConn>, late: seq<Headers>, inbox: seq<ToStream>, m: ToStream)
    requires TrailersFrom(blocks, sid, declared, sent, late, inbox) && !m.TrailersDecoded?
    ensures TrailersFrom(blocks, sid, declared, sent, late, inbox + [m])
  {
    hide TrailersIn, TrailerMaps, HeaderBlock.TrailersOk;
    TrailersInAppend(inbox, m);
    assert TrailersIn(inbox) + [] == TrailersIn(inbox);
  }

  lemma Received(t: Task, m: ToStream, at: nat)
    ensures var t1 := Receive(t, m, at);
      t1.s == t.s && t1.inbox == t.inbox + [m] && t1.h.sent == t.h.sent && t1.h.reply == t.h.reply && t1.h.lateReplies == t.h.lateReplies
  {}

  /** A message that is no answer of the decoder. */
  lemma Unanswered(t: Task, m: ToStream, at: nat, sid: U32, blocks: map<U32, Block>, trailers: seq<Block>)
    requires Origin(t, sid, blocks, trailers) && !m.HeadersDecoded? && !m.TrailersDecoded?
    ensures Origin(Receive(t, m, at), sid, blocks, trailers)
  {
    hide AnswersFrom, TrailersFrom, HeadersFrom, Receive;
    Received(t, m, at);
    AnswersMore(blocks, sid, t.h.sent, t.h.reply, t.inbox, m);
    TrailersMore(trailers, sid, t.s.declared, t.h.sent, t.h.lateReplies, t.inbox, m);
  }

  // ---- the decoder answers ----

  /** The answer to a header block, which is the only one. */
  lemma HeadersPosted(t: Task, sid: U32, blocks: map<U32, Block>, trailers: seq<Block>, payload: seq<Byte>, ps: seq<HeaderBlock.Pair>, at: nat)
    requires Origin(t, sid, blocks, trailers) && HeadersToDecode(payload, sid) in t.h.sent && HeaderBlock.WellFormed(ps)
    requires t.h.reply.None? && forall i :: 0 <= i < |t.inbox| ==> !t.inbox[i].HeadersDecoded?
    ensures Origin(Receive(t, HeadersDecoded(HeaderBlock.HeaderMap(ps), HeaderBlock.DeclaredTrailers(ps)), at), sid, blocks[sid := (payload, ps)], trailers)
  {
    var m := HeadersDecoded(HeaderBlock.HeaderMap(ps), HeaderBlock.DeclaredTrailers(ps));
    var blocks1 := blocks[sid := (payload, ps)];
    assert HeadersFrom(blocks1, sid, t.h.sent, m.headers, m.maybeTrailer);
    assert AnswersFrom(blocks1, sid, t.h.sent, t.h.reply, t.inbox);
    hide AnswersFrom, TrailersFrom, HeadersFrom, Receive, HeaderBlock.FieldsOk, HeaderBlock.Complete, HeaderBlock.HeaderMap, HeaderBlock.DeclaredTrailers;
    Received(t, m, at);
    AnswersMore(blocks1, sid, t.h.sent, t.h.reply, t.inbox, m);
    TrailersMore(trailers, sid, t.s.declared, t.h.sent, t.h.lateReplies, t.inbox, m);
  }

  /** Blocks of other streams do not matter. */
  lemma OtherBlocks(t: Task, sid: U32, blocks: map<U32, Block>, blocks1: map<U32, Block>, trailers: seq<Block>)
    requires Origin(t, sid, blocks, trailers)
    requires sid in blocks ==> sid in blocks1 && blocks1[sid] == blocks[sid]
    ensures Origin(t, sid, blocks1, trailers)
  {
    hide TrailersFrom, HeaderBlock.WellFormed, HeaderBlock.HeaderMap, HeaderBlock.DeclaredTrailers;
  }

  lemma TrailersAnswered(blocks: seq<Block>, sid: U32, declared: set<string>, sent: seq<ToConn>, late: seq<Headers>, inbox: seq<ToStream>,
                         payload: seq<Byte>, ps: seq<HeaderBlock.Pair>)
    requires TrailersFrom(blocks, sid, Some(declared), sent, late, inbox)
    requires TrailersToDecode(payload, declared, sid) in sent && HeaderBlock.TrailersOk(ps)
    ensures TrailersFrom(blocks + [(payload, ps)], sid, Some(declared), sent, late, inbox + [TrailersDecoded(HeaderBlock.TrailerMap(ps, declared))])
  {
    hide TrailersIn, HeaderBlock.TrailersOk, HeaderBlock.TrailerMap;
    var m := TrailersDecoded(HeaderBlock.TrailerMap(ps, declared));
    TrailersInAppend(inbox, m);
    Associate(late, TrailersIn(inbox), [m.headers]);
    assert (blocks + [(payload, ps)])[..|blocks|] == blocks;
  }

  lemma TrailersPosted(t: Task, sid: U32, blocks: map<U32, Block>, trailers: seq<Block>, declared: set<string>, payload: seq<Byte>, ps: seq<HeaderBlock.Pair>, at: nat)
    requires Origin(t, sid, blocks, trailers) && t.s.declared == Some(declared)
    requires TrailersToDecode(payload, declared, sid) in t.h.sent && HeaderBlock.TrailersOk(ps)
    ensures Origin(Receive(t, TrailersDecoded(HeaderBlock.TrailerMap(ps, declared)), at), sid, blocks, trailers + [(payload, ps)])
  {
    hide AnswersFrom, TrailersFrom, Receive, HeaderBlock.TrailersOk, HeaderBlock.TrailerMap;
    var m := TrailersDecoded(HeaderBlock.TrailerMap(ps, declared));
    Received(t, m, at);
    AnswersMore(blocks, sid, t.h.sent, t.h.reply, t.inbox, m);
    TrailersAnswered(trailers, sid, declared, t.h.sent, t.h.lateReplies, t.inbox, payload, ps);
  }

  // ---- the stream takes an answer ----

  /** What a consumed message adds to the stream's record of answers. */
  predicate TookContent(t: Task, t1: Task)
    requires t.inbox != []
  {
    var m := t.inbox[0];
    && t1.inbox == t.inbox[1..]
    && t1.h.reply == (if m.HeadersDecoded? then Some((m.headers, m.maybeTrailer)) else t.h.reply)
    && t1.h.lateReplies == (if m.TrailersDecoded? then t.h.lateReplies + [m.headers] else t.h.lateReplies)
    && t1.s.declared == (if m.HeadersDecoded? && m.maybeTrailer != {} then Some(m.maybeTrailer) else t.s.declared)
  }

  lemma ContentTaken(t: Task)
    requires t.inbox != []
    ensures SameAnswers(t, ReceiveStep(t).task) || TookContent(t, ReceiveStep(t).task)
  {
    hide HandleFrame, CanSend, Truncate;
    ReactKeeps(t.s, t.inbox[0]);
  }

  lemma SentKept(blocks: map<U32, Block>, sid: U32, sent: seq<ToConn>, sent1: seq<ToConn>, reply: Option<(Headers, set<string>)>, inbox: seq<ToStream>)
    requires AnswersFrom(blocks, sid, sent, reply, inbox) && sent <= sent1
    ensures AnswersFrom(blocks, sid, sent1, reply, inbox)
  {
    hide HeaderBlock.WellFormed, HeaderBlock.HeaderMap, HeaderBlock.DeclaredTrailers;
    assert forall m :: m in sent ==> m in sent1;
  }

  lemma AnswerTaken(blocks: map<U32, Block>, sid: U32, sent: seq<ToConn>, reply: Option<(Headers, set<string>)>, inbox: seq<ToStream>)
    requires AnswersFrom(blocks, sid, sent, reply, inbox) && inbox != []
    ensures AnswersFrom(blocks, sid, sent, if inbox[0].HeadersDecoded? then Some((inbox[0].headers, inbox[0].maybeTrailer)) else reply, inbox[1..])
  {
    hide HeadersFrom;
    assert forall i :: 0 <= i < |inbox[1..]| ==> inbox[1..][i] == inbox[i + 1];
  }

  /** The next trailers move from the inbox to the record; the first answer settles what is declared. */
  lemma TrailersTaken(blocks: seq<Block>, sid: U32, declared: Option<set<string>>, sent: seq<ToConn>, sent1: seq<ToConn>, late: seq<Headers>,
                      inbox: seq<ToStream>, declared1: Option<set<string>>)
    requires TrailersFrom(blocks, sid, declared, sent, late, inbox) && inbox != [] && sent <= sent1
    requires if inbox[0].HeadersDecoded? then declared.None? else declared1 == declared
    ensures TrailersFrom(blocks, sid, declared1, sent1, if inbox[0].TrailersDecoded? then late + [inbox[0].headers] else late, inbox[1..])
  {
    assert forall m :: m in sent ==> m in sent1;
    var rest := TrailersIn(inbox[1..]);
    if inbox[0].TrailersDecoded? {
      Associate(late, [inbox[0].headers], rest);
    } else {
      assert [] + rest == rest;
    }
    hide HeaderBlock.TrailersOk;
  }

  lemma Taken(t: Task, t1: Task, message: Option<ToConn>, sid: U32, blocks: map<U32, Block>, trailers: seq<Block>)
    requires Origin(t, sid, blocks, trailers) && t.inbox != [] && TookContent(t, t1) && t1.h.sent == Log1(t.h.sent, message)
    requires t.inbox[0].HeadersDecoded? ==> t.s.declared.None?
    ensures Origin(t1, sid, blocks, trailers)
  {
    hide AnswersFrom, TrailersFrom;
    SentKept(blocks, sid, t.h.sent, t1.h.sent, t.h.reply, t.inbox);
    AnswerTaken(blocks, sid, t1.h.sent, t.h.reply, t.inbox);
    TrailersTaken(trailers, sid, t.s.declared, t.h.sent, t1.h.sent, t.h.lateReplies, t.inbox, t1.s.declared);
  }

  // ---- every event ----

  lemma TaskFacts(y: Sys, sid: U32)
    requires Joint(y) && sid in y.tasks
    ensures var t := y.tasks[sid];
      && LocalInv(t) && t.s.id == sid && QueuedWasSent(sid, t.h.sent, y.queue)
      && Flow(sid, t.h.sent, y.queue, Outstanding(y, sid), t.inbox, t.h.responses, t.h.reply.Some?, |t.h.lateReplies|)
  {
    hide LocalInv, Flow, QueuedWasSent, InboxOk, BlockReceived, BlockAtGate;
    assert At(y, sid);
  }

  lemma StepTraced(y: Sys, sid: U32)
    requires Joint(y) && Traced(y) && sid in y.tasks && CanStep(y.tasks[sid], Cancelled(y, sid))
    ensures Traced(OnStep(y, sid))
  {
    hide Joint, LocalInv, Flow, QueuedWasSent, TaskStep, Origin, CanStep, BlocksOf;
    TaskFacts(y, sid);
    assert OriginAt(y, sid);
    StepOrigin(y.tasks[sid], Cancelled(y, sid), sid, y.queue, Outstanding(y, sid), y.log.headerBlocks, BlocksOf(y.log.trailerBlocks, sid));
    forall id | id in y.tasks ensures OriginAt(OnStep(y, sid), id) {
      assert OriginAt(y, id);
    }
  }

  lemma StepOrigin(t: Task, cancelled: bool, sid: U32, queue: seq<ToConn>, inFlight: nat, blocks: map<U32, Block>, trailers: seq<Block>)
    requires LocalInv(t) && t.s.id == sid && CanStep(t, cancelled) && Origin(t, sid, blocks, trailers)
    requires Flow(t.s.id, t.h.sent, queue, inFlight, t.inbox, t.h.responses, t.h.reply.Some?, |t.h.lateReplies|)
    ensures Origin(TaskStep(t, cancelled).task, sid, blocks, trailers)
  {
    hide LocalInv, Flow, TaskStep, ReceiveStep, Origin;
    StepLogs(t, cancelled);
    var st := TaskStep(t, cancelled);
    if SameAnswers(t, st.task) {
      SentMore(t, st.task, sid, blocks, trailers, st.message);
    } else {
      ReceiveTook(t, cancelled);
      if t.inbox[0].HeadersDecoded? {
        FirstAnswer(t, queue, inFlight);
      }
      Taken(t, st.task, st.message, sid, blocks, trailers);
    }
  }

  lemma ReceiveTook(t: Task, cancelled: bool)
    requires CanStep(t, cancelled) && !SameAnswers(t, TaskStep(t, cancelled).task)
    requires t.phase.AtReceive? && t.inbox != []
    ensures TookContent(t, TaskStep(t, cancelled).task)
  {
    hide ReceiveStep;
    if !cancelled {
      StepReceives(t);
      ContentTaken(t);
    }
  }

  /** A header block answered now has not been answered before. */
  lemma Unreplied(t: Task, sid: U32, queue: seq<ToConn>, inFlight: nat)
    requires LocalInv(t) && t.s.id == sid && queue != [] && Is(queue[0], KHeaders, sid)
    requires Flow(sid, t.h.sent, queue, inFlight, t.inbox, t.h.responses, t.h.reply.Some?, |t.h.lateReplies|)
    ensures t.h.reply.None? && forall i :: 0 <= i < |t.inbox| ==> !t.inbox[i].HeadersDecoded?
  {
    hide LocalInv, Num, Waiting, Is;
    OneRequest(t);
    NumSome(queue, KHeaders, sid, 0);
    forall i | 0 <= i < |t.inbox| ensures !t.inbox[i].HeadersDecoded? {
      if t.inbox[i].HeadersDecoded? {
        WaitingSome(t.inbox, GotHeaders, i);
      }
    }
  }

  lemma OneRequest(t: Task)
    requires LocalInv(t)
    ensures Num(t.h.sent, KHeaders, t.s.id) <= 1
  {
    hide Logged, BlockPlaced, HeaderProgress, RequestInv, FlowInv, ContentInv, PhaseOk, Num;
  }

  lemma AskedFor(t: Task, m: ToConn)
    requires LocalInv(t) && m in t.h.sent && m.TrailersToDecode?
    ensures t.s.declared == Some(m.declared)
  {
    hide BlockInv, RequestOk, DispatchOk, SecondOk, FlowInv, ContentInv, Num, Complained;
    var i :| 0 <= i < |t.h.sent| && t.h.sent[i] == m;
  }

  /** What is posted is decoded from the pairs that were chosen. */
  lemma PostedFrom(c: Conn, m: ToConn, hpack: Hpack)
    ensures var o := OnMessage(c, m, hpack); o.post.Some? ==>
      && hpack.Pairs? && !m.Failure? && o.post.value.0 == m.sid && m.sid in c.ctx.channels
      && (m.HeadersToDecode? ==>
            && HeaderBlock.WellFormed(hpack.pairs)
            && o.post.value.1 == HeadersDecoded(HeaderBlock.HeaderMap(hpack.pairs), HeaderBlock.DeclaredTrailers(hpack.pairs)))
      && (!m.HeadersToDecode? ==>
            && m.TrailersToDecode? && HeaderBlock.TrailersOk(hpack.pairs)
            && o.post.value.1 == TrailersDecoded(HeaderBlock.TrailerMap(hpack.pairs, m.declared)))
  {
    hide Deliver, HeaderBlock.FieldsOk, HeaderBlock.TrailersOk, HeaderBlock.TrailerMap, HeaderBlock.HeaderMap, HeaderBlock.DeclaredTrailers;
  }

  lemma HandleOwn(t: Task, sid: U32, queue: seq<ToConn>, inFlight: nat, blocks: map<U32, Block>, trailers: seq<Block>, c: Conn, hpack: Hpack, at: nat)
    requires LocalInv(t) && t.s.id == sid && queue != [] && QueuedWasSent(sid, t.h.sent, queue)
    requires Flow(sid, t.h.sent, queue, inFlight, t.inbox, t.h.responses, t.h.reply.Some?, |t.h.lateReplies|)
    requires Origin(t, sid, blocks, trailers)
    requires var o := OnMessage(c, queue[0], hpack); o.post.Some? && o.post.value.0 == sid
    ensures hpack.Pairs?
    ensures var (m, o) := (queue[0], OnMessage(c, queue[0], hpack));
      && (m.HeadersToDecode? ==>
            Origin(Receive(t, o.post.value.1, at), sid, blocks[sid := (m.payload, hpack.pairs)], trailers))
      && (m.TrailersToDecode? ==>
            Origin(Receive(t, o.post.value.1, at), sid, blocks, trailers + [(m.payload, hpack.pairs)]))
  {
    hide LocalInv, Flow, Origin, Receive, OnMessage, HeaderBlock.FieldsOk, HeaderBlock.TrailersOk, HeaderBlock.TrailerMap, HeaderBlock.HeaderMap,
      HeaderBlock.DeclaredTrailers;
    var m := queue[0];
    PostedFrom(c, m, hpack);
    assert Mine(m, sid) && m in t.h.sent;
    if m.HeadersToDecode? {
      Unreplied(t, sid, queue, inFlight);
      HeadersPosted(t, sid, blocks, trailers, m.payload, hpack.pairs, at);
    } else {
      AskedFor(t, m);
      TrailersPosted(t, sid, blocks, trailers, m.declared, m.payload, hpack.pairs, at);
    }
  }

  lemma HandleOrigin(y: Sys, hpack: Hpack, sid: U32)
    requires Joint(y) && y.queue != [] && sid in y.tasks && OriginAt(y, sid)
    ensures sid in OnHandle(y, hpack).tasks && OriginAt(OnHandle(y, hpack), sid)
  {
    hide Joint, LocalInv, Flow, QueuedWasSent, Origin, OnMessage, Receive, NewlyRaised, Launch;
    var o := OnMessage(y.conn, y.queue[0], hpack);
    PostedFrom(y.conn, y.queue[0], hpack);
    if o.post.Some? && o.post.value.0 == sid {
      TaskFacts(y, sid);
      HandleOwn(y.tasks[sid], sid, y.queue, Outstanding(y, sid), y.log.headerBlocks, BlocksOf(y.log.trailerBlocks, sid), y.conn, hpack, |y.received|);
    } else {
      OtherBlocks(y.tasks[sid], sid, y.log.headerBlocks, OnHandle(y, hpack).log.headerBlocks, BlocksOf(y.log.trailerBlocks, sid));
    }
  }

  lemma HandleTraced(y: Sys, hpack: Hpack)
    requires Joint(y) && Traced(y) && y.queue != []
    ensures Traced(OnHandle(y, hpack))
  {
    hide Joint, OriginAt, OnMessage, Receive, NewlyRaised, Launch;
    PostedFrom(y.conn, y.queue[0], hpack);
    TaskKeys(y);
    ActiveCount.HandleKeys(y, hpack);
    forall sid | sid in OnHandle(y, hpack).tasks ensures OriginAt(OnHandle(y, hpack), sid) {
      HandleOrigin(y, hpack, sid);
    }
  }

  lemma TaskKeys(y: Sys)
    requires Joint(y)
    ensures y.tasks.Keys == y.conn.ctx.channels
  {
    hide At;
  }

  lemma NewOrigin(sid: U32, blocks: map<U32, Block>)
    ensures Origin(NewTask(sid), sid, blocks, [])
  {}

  lemma ArriveOrigin(y: Sys, f: Frame, sid: U32)
    requires Traced(y) && Skeleton(y) && Listening(y.conn) && sid in OnArrive(y, f).tasks
    ensures OriginAt(OnArrive(y, f), sid)
  {
    SystemArrive.ArriveSkeleton(y, f);
    hide OnFrame, Skeleton, Receive, Origin, NewTask, Seen, Checked, GateOk;
    var o := OnFrame(y.conn, f);
    var before := if o.created == Some(sid) then NewTask(sid) else y.tasks[sid];
    if o.created == Some(sid) {
      NewOrigin(sid, y.log.headerBlocks);
    } else {
      assert OriginAt(y, sid);
    }
    if o.post.Some? && o.post.value.0 == sid {
      Unanswered(before, o.post.value.1, |y.received|, sid, y.log.headerBlocks, BlocksOf(y.log.trailerBlocks, sid));
    }
  }

  lemma ArriveTraced(y: Sys, f: Frame)
    requires Joint(y) && Traced(y) && Listening(y.conn)
    ensures Traced(OnArrive(y, f))
  {
    assert Skeleton(y);
    SystemArrive.ArriveSkeleton(y, f);
    hide OnFrame, Skeleton, Joint, OriginAt, Receive, SystemArrive.FrameEffect, Post, Spawn, Credited, NewlyRaised;
    forall sid | sid in OnArrive(y, f).tasks ensures OriginAt(OnArrive(y, f), sid) {
      ArriveOrigin(y, f, sid);
    }
  }

  lemma CancelTraced(y: Sys)
    requires Traced(y) && y.conn.ctx.error.Some?
    ensures Traced(OnAnswer(y))
  {
    hide AnswerError, AnswersFrom, TrailersFrom;
    forall sid | sid in OnAnswer(y).tasks ensures OriginAt(OnAnswer(y), sid) {
      assert OriginAt(y, sid);
    }
  }

  lemma ReplyTraced(y: Sys, sid: U32, r: Response)
    requires Traced(y) && sid in y.tasks
    ensures Traced(OnReply(y, sid, r))
  {
    hide Origin, Receive;
    forall id | id in y.tasks ensures OriginAt(OnReply(y, sid, r), id) {
      assert OriginAt(y, id);
      if id == sid {
        Unanswered(y.tasks[sid], ResponseObject(r.0, r.1), |y.received|, sid, y.log.headerBlocks, BlocksOf(y.log.trailerBlocks, sid));
      }
    }
  }

  lemma NextTraced(y: Sys, e: Event)
    requires Joint(y) && Traced(y) && Enabled(y, e)
    ensures Traced(Next(y, e))
  {
    hide Joint, OnArrive, OnAnswer, OnHandle, OnStep, OnReply, Origin;
    match e {
      case Arrive(f) => ArriveTraced(y, f);
      case Answer => CancelTraced(y);
      case Handle(hpack) => HandleTraced(y, hpack);
      case Step(sid) => StepTraced(y, sid);
      case Reply(sid, encoded, body) => ReplyTraced(y, sid, (encoded, body));
      case _ => SameTraced(y, Next(y, e));
    }
  }

  lemma SameTraced(y: Sys, y1: Sys)
    requires Traced(y) && y1.tasks == y.tasks && y1.log.headerBlocks == y.log.headerBlocks && y1.log.trailerBlocks == y.log.trailerBlocks
    ensures Traced(y1)
  {
    hide Origin;
    forall sid | sid in y1.tasks ensures OriginAt(y1, sid) {
      assert OriginAt(y, sid);
    }
  }

  lemma {:induction false} RunTraced(y0: Sys, events: seq<Event>, y: Sys)
    requires Joint(y0) && Traced(y0) && Run(y0, events, y)
    ensures Traced(y)
    decreases events
  {
    hide Joint, Traced, Next, Enabled, Trace;
    if events != [] {
      var n := |events| - 1;
      var mid := LastEvent(y0, events, y);
      RunTraced(y0, events[..n], mid);
      SystemArrive.RunJoint(y0, events[..n], mid);
      NextTraced(mid, events[n]);
    }
  }

  lemma ReachableTraced(y: Sys)
    requires Reachable(y)
    ensures Traced(y)
  {
    hide Joint, Traced, Init, Run;
    var y0, events :| Init(y0) && Run(y0, events, y);
    InitJoint(y0);
    InitTraced(y0);
    RunTraced(y0, events, y);
  }

  // ---- what a dispatched request is made of ----

  lemma DispatchBuilt(t: Task, i: nat)
    requires LocalInv(t) && i < |t.h.sent| && t.h.sent[i].RequestForDispatch?
    ensures t.h.reply.Some? && BuiltFrom(t.h.sent[i].ctx, t.h.reply.value, t.h.lateReplies)
    ensures t.s.declared == if t.h.reply.value.1 == {} then None else Some(t.h.reply.value.1)
  {
    Parts(t);
    hide LocalInv, BlockInv, FlowInv, ContentInv, TrailerOk, SecondOk, BuiltFrom, MergeAll, Num, Complained, Dispatchable, NoPseudo;
  }

  /** The target of the request is the block's, by its last values. */
  predicate TargetOf(ctx: Context, ps: seq<HeaderBlock.Pair>) {
    && HeaderBlock.Lookup(ps, ":method").Some? && Spells(HeaderBlock.Lookup(ps, ":method").value, ctx.verb)
    && Some(ctx.path) == HeaderBlock.Lookup(ps, ":path")
    && Some(ctx.scheme) == HeaderBlock.Lookup(ps, ":scheme")
    && Some(ctx.host) == HeaderBlock.Lookup(ps, ":authority")
  }

  lemma TargetBuilt(ctx: Context, ps: seq<HeaderBlock.Pair>, late: seq<Headers>)
    requires HeaderBlock.WellFormed(ps) && BuiltFrom(ctx, (HeaderBlock.HeaderMap(ps), HeaderBlock.DeclaredTrailers(ps)), late)
    ensures TargetOf(ctx, ps) && ctx.headers == MergeAll(HeaderBlock.HeaderMap(ps), late)
  {
    hide HeaderBlock.FieldsOk, HeaderBlock.Complete, HeaderBlock.HeaderMap, HeaderBlock.DeclaredTrailers, HeaderBlock.Lookup, MergeAll, Spells;
    HeaderBlock.HeaderMapIsLastWins(ps, ":method");
    HeaderBlock.HeaderMapIsLastWins(ps, ":path");
    HeaderBlock.HeaderMapIsLastWins(ps, ":scheme");
    HeaderBlock.HeaderMapIsLastWins(ps, ":authority");
  }

  /**
   * In every run, a request handed to the dispatcher is made of the pairs HPACK gave for the one header block of its
   * stream: target, headers and, in the order of the trailer blocks sent, the declared names of their pairs.
   */
  lemma RequestDecoded(y: Sys, sid: U32, i: nat)
    requires Reachable(y) && sid in y.tasks
    requires i < |y.tasks[sid].h.sent| && y.tasks[sid].h.sent[i].RequestForDispatch?
    ensures sid in y.log.headerBlocks
    ensures var (h, block, trailers) := (y.tasks[sid].h, y.log.headerBlocks[sid], BlocksOf(y.log.trailerBlocks, sid));
      && HeadersToDecode(block.0, sid) in h.sent && HeaderBlock.WellFormed(block.1)
      && TargetOf(h.sent[i].ctx, block.1)
      && h.lateReplies <= TrailerMaps(trailers, HeaderBlock.DeclaredTrailers(block.1))
      && h.sent[i].ctx.headers == MergeAll(HeaderBlock.HeaderMap(block.1), h.lateReplies)
  {
    hide Reachable, Joint, LocalInv, TargetOf, BuiltFrom, HeaderBlock.FieldsOk, HeaderBlock.HeaderMap, HeaderBlock.DeclaredTrailers,
      HeaderBlock.Lookup, HeaderBlock.TrailersOk, TrailersIn, TrailerMaps, MergeAll;
    SystemArrive.ReachableJoint(y);
    ReachableTraced(y);
    var t := y.tasks[sid];
    TaskFacts(y, sid);
    assert OriginAt(y, sid);
    DispatchBuilt(t, i);
    TargetBuilt(t.h.sent[i].ctx, y.log.headerBlocks[sid].1, t.h.lateReplies);
  }

  /** Every answer a stream was given or will take, with the blocks it answers. */
  lemma AnswersDecoded(y: Sys, sid: U32)
    requires Reachable(y) && sid in y.tasks
    ensures var (t, blocks, trailers) := (y.tasks[sid], y.log.headerBlocks, BlocksOf(y.log.trailerBlocks, sid));
      && (t.h.reply.Some? ==> HeadersFrom(blocks, sid, t.h.sent, t.h.reply.value.0, t.h.reply.value.1))
      && (t.s.declared.Some? ==>
            && t.h.lateReplies + TrailersIn(t.inbox) == TrailerMaps(trailers, t.s.declared.value)
            && forall i :: 0 <= i < |trailers| ==> TrailersToDecode(trailers[i].0, t.s.declared.value, sid) in t.h.sent)
  {
    hide Reachable, HeadersFrom, TrailersIn, TrailerMaps, HeaderBlock.TrailersOk;
    ReachableTraced(y);
    assert OriginAt(y, sid);
  }

  // ---- when the decoder answers at all ----

  /**
   * A header block is answered iff it is well formed. A trailer block is answered iff it is lawful and names something
   * declared; if it names nothing declared, nothing happens at all, and the stream waits.
   */
  lemma AnsweredIff(c: Conn, m: ToConn, ps: seq<HeaderBlock.Pair>)
    requires !m.Failure? && m.sid in c.ctx.channels
    ensures m.HeadersToDecode? ==> (OnMessage(c, m, Pairs(ps)).post.Some? <==> HeaderBlock.WellFormed(ps))
    ensures m.TrailersToDecode? ==>
      && (OnMessage(c, m, Pairs(ps)).post.Some? <==> HeaderBlock.TrailersOk(ps) && HeaderBlock.NamesDeclared(ps, m.declared))
      && (HeaderBlock.TrailersOk(ps) && !HeaderBlock.NamesDeclared(ps, m.declared) ==> OnMessage(c, m, Pairs(ps)) == Quiet(c))
  {
    if m.HeadersToDecode? && HeaderBlock.WellFormed(ps) {
      assert ":path" in HeaderBlock.HeaderMap(ps);
    }
    if m.TrailersToDecode? && HeaderBlock.TrailersOk(ps) {
      HeaderBlock.NothingDeclared(ps, m.declared);
    }
    hide Deliver, HeaderBlock.WellFormed, HeaderBlock.TrailersOk, HeaderBlock.TrailerMap, HeaderBlock.HeaderMap, HeaderBlock.DeclaredTrailers, HeaderBlock.NamesDeclared;
  }

  /** A block HPACK cannot decompress costs the connection; one whose pairs are not lawful costs its stream. */
  lemma RefusedWith(c: Conn, m: ToConn, ps: seq<HeaderBlock.Pair>)
    requires m.HeadersToDecode? || m.TrailersToDecode?
    ensures OnMessage(c, m, CompressionFailed).conn.ctx.error == Some(ConnectionError(CompressionError))
    ensures OnMessage(c, m, Pairs(ps)).conn.ctx.error ==
      if (if m.HeadersToDecode? then HeaderBlock.WellFormed(ps) else HeaderBlock.TrailersOk(ps)) then c.ctx.error
      else Some(StreamError(m.sid, ProtocolError))
  {
    hide HeaderBlock.WellFormed, HeaderBlock.TrailersOk, HeaderBlock.TrailerMap, HeaderBlock.HeaderMap, HeaderBlock.DeclaredTrailers;
  }
}
