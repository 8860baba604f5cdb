/** The stream object: fields updated in place, each method tied to `StreamModel`. */
module Http2StreamTask {
  import opened Wrappers
  import opened Bytes
  import opened Frames
  import opened Messages
  import opened RequestContext
  import opened StreamModel
  import Promptness

  /** One pass of `serve` from the top of the loop to the bottom. */
  datatype Turn = Turn(next: Stream, sent: seq<ToConn>, alive: bool)

  function Emit(message: Option<ToConn>): seq<ToConn> {
    if message.Some? then [message.value] else []
  }

  /** The four steps in the order `serve` runs them. */
  function BeforeReceive(s: Stream): Turn {
    var a := CompositeHeaders(s);
    if a.Crash? then Turn(s, [], false)
    else
      var b := CompositeTrailers(a.next);
      if b.Crash? then Turn(s, Emit(a.message), false)
      else
        var c := DispatchIfNeeded(b.next);
        if c.Crash? then Turn(s, Emit(a.message) + Emit(b.message), false)
        else
          var d := Respond(c.next);
          if d.Crash? then Turn(s, Emit(a.message) + Emit(b.message) + Emit(c.message), false)
          else Turn(d.next, Emit(a.message) + Emit(b.message) + Emit(c.message) + Emit(d.message), true)
  }

  /** A whole pass that receives `m`. */
  function FullTurn(s: Stream, m: ToStream): Turn {
    var t := BeforeReceive(s);
    if !t.alive then t
    else
      match React(t.next, m)
      case Unwound => Turn(s, t.sent, false)
      case Reaction(s1, message, report) => Turn(s1, t.sent + Emit(message) + Emit(report), true)
  }

  /** All passes over a list of received messages, up to the first that ends the task. */
  function FullRun(s: Stream, inbox: seq<ToStream>): Turn
    decreases inbox
  {
    if inbox == [] then Turn(s, [], true)
    else
      var t := FullTurn(s, inbox[0]);
      if !t.alive then t
      else
        var rest := FullRun(t.next, inbox[1..]);
        Turn(rest.next, t.sent + rest.sent, rest.alive)
  }

  lemma FlushStep(out: seq<Frame>, f: Frame, pending: seq<Frame>, window: U32)
    requires pending != [] && f == pending[0]
    ensures TruncatedBytes(out + [f]) == TruncatedBytes(out) + Truncate(FlowSize(f))
    ensures out + pending == out + [f] + pending[1..]
    ensures FlushCount(window, pending) == if CanSend(window, FlowSize(f)) then 1 + FlushCount(window - Truncate(FlowSize(f)), pending[1..]) else 0
  {
    assert (out + [f])[..|out|] == out;
  }

  /** One frame of the pending queue, and the end of the loop. */
  lemma DrainOne(s: Stream, out: seq<Frame>)
    ensures s.pending == [] || MustWait(s.window, s.pending[0]) ==> Drain(s, out) == Drained(s, out)
    ensures s.pending != [] && !MustWait(s.window, s.pending[0]) ==>
      var f := s.pending[0];
      Drain(s, out) == if s.state.Idle? && !SendableFromIdle(f) then Unexpected else Drain(SendPending(s, f, s.pending[1..]), out + [f])
  {
    hide SendPending, MustWait;
  }

  lemma FullRunStep(sent: seq<ToConn>, s: Stream, inbox: seq<ToStream>)
    requires inbox != [] && FullTurn(s, inbox[0]).alive
    ensures var t := FullTurn(s, inbox[0]);
      && FullRun(s, inbox).next == FullRun(t.next, inbox[1..]).next
      && FullRun(s, inbox).alive == FullRun(t.next, inbox[1..]).alive
      && sent + FullRun(s, inbox).sent == sent + t.sent + FullRun(t.next, inbox[1..]).sent
  {
    var t := FullTurn(s, inbox[0]);
    var rest := FullRun(t.next, inbox[1..]);
    assert FullRun(s, inbox) == Turn(rest.next, t.sent + rest.sent, rest.alive);
  }

  lemma FragmentsCons(buf: seq<Byte>, fs: seq<Frame>)
    requires fs != []
    ensures AllFragments(fs) <==> fs[0].HasFragment() && AllFragments(fs[1..])
    ensures AllFragments(fs) ==> buf + Fragments(fs) == buf + fs[0].Fragment() + Fragments(fs[1..])
  {
    assert fs == [fs[0]] + fs[1..];
  }

  lemma NoFragments(buf: seq<Byte>)
    ensures AllFragments([]) && buf + Fragments([]) == buf
  {}

  class Http2Stream {
    const streamId: U32
    var streamState: StreamState
    var windowAboutClient: U32
    var inflightHeaders: seq<Frame>
    var decodingHeaderState: DecodingState
    var maybeTrailers: Option<set<string>>
    var inflightTrailersHeaders: seq<Frame>
    var decodingTrailersState: DecodingState
    var compositedHeader: Option<Headers>
    var inflightBodies: seq<Frame>
    var pendingFrames: seq<Frame>
    var requestEnd: bool
    var shouldTerminateStream: bool
    var dispatched: bool
    var responseCompleted: bool
    var sendEndHeadersCompleted: bool
    var sendEndStreamCompleted: bool

    function View(): Stream
      reads this
    {
      Stream(streamId, streamState, windowAboutClient, inflightHeaders, decodingHeaderState, maybeTrailers,
             inflightTrailersHeaders, decodingTrailersState, compositedHeader, inflightBodies, pendingFrames,
             requestEnd, shouldTerminateStream, dispatched, responseCompleted, sendEndHeadersCompleted, sendEndStreamCompleted)
    }

    constructor (id: U32, window: U32)
      ensures View() == NewStream(id, window)
    {
      streamId, streamState, windowAboutClient := id, Idle, window;
      inflightHeaders, decodingHeaderState := [], Initial;
      maybeTrailers, inflightTrailersHeaders, decodingTrailersState := None, [], Initial;
      compositedHeader, inflightBodies, pendingFrames := None, [], [];
      requestEnd, shouldTerminateStream, dispatched := false, false, false;
      responseCompleted, sendEndHeadersCompleted, sendEndStreamCompleted := false, false, false;
    }

    method ValidateFrame(f: Frame) returns (e: Option<Error>)
      ensures e == ValidateFromClient(View(), f)
    {
      if f.ty.Continuation? && (
         decodingHeaderState.Initial? || decodingTrailersState.Completed?
         || (decodingHeaderState.WaitingResponse? && decodingTrailersState.Initial?)
         || (decodingHeaderState.Completed? && decodingTrailersState.Initial?))
      {
        return Some(ConnectionError(ProtocolError));
      }
      if f.ty.Headers? && (
         (!decodingHeaderState.Initial? && !decodingTrailersState.Initial?)
         || (decodingHeaderState.Completed? && decodingTrailersState.WaitingResponse?)
         || (decodingHeaderState.Completed? && decodingTrailersState.Ready?)
         || (decodingHeaderState.Completed? && decodingTrailersState.Completed?))
      {
        return Some(ConnectionError(ProtocolError));
      }
      var closed := Some(StreamError(streamId, StreamClosed));
      match (streamState, f.ty) {
        case (Idle, Headers(_, _, _, _)) => return None;
        case (Idle, Priority) => return None;
        case (Idle, RstStream) => return Some(ConnectionError(ProtocolError));
        case (Idle, Data(_, _)) => return Some(ConnectionError(ProtocolError));
        case (Idle, Ping(_)) => return Some(ConnectionError(ProtocolError));
        case (Idle, Continuation(_)) => return Some(ConnectionError(ProtocolError));
        case (Idle, GoAway) => return Some(ConnectionError(ProtocolError));
        case (Idle, WindowUpdate) => return Some(ConnectionError(ProtocolError));
        case (HalfClosedRemote, Data(_, _)) => return closed;
        case (HalfClosedRemote, Headers(_, _, _, _)) => return closed;
        case (HalfClosedRemote, Ping(_)) => return closed;
        case (HalfClosedRemote, GoAway) => return closed;
        case (Closed, Data(_, _)) => return closed;
        case (Closed, Headers(_, _, _, _)) => return closed;
        case (Closed, Ping(_)) => return closed;
        case (Closed, GoAway) => return closed;
        case _ => return None;
      }
    }

    method MaybeNextStateFromClient(f: Frame) returns (prev: StreamState, next: StreamState)
      modifies this`streamState
      ensures prev == old(streamState) && next == streamState == NextFromClient(prev, f)
    {
      prev := streamState;
      if streamState.Idle? && f.ty.Headers? && f.HasEndStream() {
        streamState := HalfClosedRemote;
      } else if streamState.Idle? && f.ty.Headers? {
        streamState := Open;
      } else if streamState.Open? && (f.ty.Headers? || f.ty.Data?) && f.HasEndStream() {
        streamState := HalfClosedRemote;
      } else if streamState.Open? && f.ty.RstStream? {
        streamState := Closed;
      } else if streamState.HalfClosedLocal? && (f.ty.Headers? || f.ty.Data?) && f.HasEndStream() {
        streamState := Closed;
      } else if streamState.HalfClosedLocal? && f.ty.RstStream? {
        streamState := Closed;
      } else if streamState.HalfClosedRemote? && f.ty.RstStream? {
        streamState := Closed;
      }
      next := streamState;
    }

    method MaybeNextStateFromMe(f: Frame)
      modifies this`streamState
      ensures streamState == NextFromMe(old(streamState), f)
    {
      if streamState.Idle? && f.ty.Headers? && f.HasEndStream() {
        streamState := HalfClosedLocal;
      } else if streamState.Idle? && f.ty.Headers? {
        streamState := Open;
      } else if streamState.Open? && (f.ty.Headers? || f.ty.Data?) && f.HasEndStream() {
        streamState := HalfClosedLocal;
      } else if (streamState.Open? || streamState.HalfClosedLocal? || streamState.HalfClosedRemote?) && f.ty.RstStream? {
        streamState := Closed;
      } else if streamState.HalfClosedRemote? && (f.ty.Headers? || f.ty.Data?) && f.HasEndStream() {
        streamState := Closed;
      }
    }

    method StoreBlockFrame(f: Frame)
      requires f.ty.Headers? || f.ty.Continuation?
      modifies this
      ensures View() == Store(old(View()), f)
    {
      if decodingHeaderState.WaitingResponse? || decodingHeaderState.Completed? {
        decodingTrailersState := if f.HasEndHeaders() then Ready else KeepGoing;
        inflightTrailersHeaders := inflightTrailersHeaders + [f];
      } else {
        decodingHeaderState := if f.HasEndHeaders() then Ready else KeepGoing;
        inflightHeaders := inflightHeaders + [f];
      }
    }

    /** Queues a frame of a header block, a trailer block or a body. */
    method StoreFrame(f: Frame)
      modifies this
      ensures View() == Store(old(View()), f)
    {
      hide BlockProgress;
      if f.ty.Headers? || f.ty.Continuation? {
        StoreBlockFrame(f);
      } else if f.ty.Data? {
        inflightBodies := inflightBodies + [f];
      }
    }

    /** A WINDOW_UPDATE on the stream: the cap is 2^32 - 1, not the 2^31 - 1 of the RFC. */
    method Credit(increment: U32) returns (e: Option<Error>)
      modifies this`windowAboutClient
      ensures e.None? <==> increment + old(windowAboutClient) <= TWO_32 - 1
      ensures e.None? ==> windowAboutClient == old(windowAboutClient) + increment
      ensures e.Some? ==> e.value == StreamError(streamId, FlowControlError) && windowAboutClient == old(windowAboutClient)
    {
      var val: int := increment + windowAboutClient;
      if val > TWO_32 - 1 {
        return Some(StreamError(streamId, FlowControlError));
      }
      windowAboutClient := windowAboutClient + increment;
      return None;
    }

    /** The state and the end-of-request flag move before the frame is stored. */
    method AdmitFrame(f: Frame) returns (r: Handled)
      modifies this
      ensures r == Admit(old(View()), f)
      ensures r.Accepted? ==> View() == r.next
      ensures r.Refused? ==> View() == old(View())
    {
      hide Store, CommandOf;
      var prev, next := MaybeNextStateFromClient(f);
      var command := CommandOf(prev, next);
      if f.HasEndStream() {
        requestEnd := true;
      }
      if f.ty.WindowUpdate? {
        if |f.payload| < 4 {
          return Panic;
        }
        var e := Credit(IncrementOf(f.payload));
        if e.Some? {
          return Refused(e.value);
        }
      } else {
        StoreFrame(f);
      }
      return Accepted(View(), command);
    }

    /** `handle_frame_for_request`. */
    method HandleFrameForRequest(f: Frame) returns (r: Handled)
      modifies this
      ensures r == HandleFrame(old(View()), f)
      ensures r.Accepted? ==> View() == r.next
      ensures r.Refused? ==> View() == old(View())
    {
      var e := ValidateFrame(f);
      if e.Some? {
        return Refused(e.value);
      }
      r := AdmitFrame(f);
    }

    /** Pops every queued frame of a block and concatenates the fragments. */
    method DrainFragments(frames: seq<Frame>) returns (block: Option<seq<Byte>>)
      ensures block == if AllFragments(frames) then Some(Fragments(frames)) else None
    {
      var queue := frames;
      var buf: seq<Byte> := [];
      while queue != []
        invariant AllFragments(frames) <==> AllFragments(queue)
        invariant AllFragments(frames) ==> Fragments(frames) == buf + Fragments(queue)
        decreases |queue|
      {
        var f := queue[0];
        FragmentsCons(buf, queue);
        if !f.HasFragment() {
          return None;
        }
        assert queue == [f] + queue[1..];
        buf := buf + f.Fragment();
        queue := queue[1..];
      }
      NoFragments(buf);
      return Some(buf);
    }

    method MaybeCompositeHeaders() returns (r: Move)
      modifies this
      ensures r == CompositeHeaders(old(View()))
      ensures r.Move? ==> View() == r.next
    {
      if !decodingHeaderState.Ready? {
        return Move(View(), None);
      }
      decodingHeaderState := WaitingResponse;
      var block := DrainFragments(inflightHeaders);
      inflightHeaders := [];
      if block.None? {
        return Crash;
      }
      return Move(View(), Some(HeadersToDecode(block.value, streamId)));
    }

    method MaybeCompositeTrailers() returns (r: Move)
      modifies this
      ensures r == CompositeTrailers(old(View()))
      ensures r.Move? ==> View() == r.next
    {
      if requestEnd && decodingTrailersState.Ready? && decodingHeaderState.Completed? {
        var block := DrainFragments(inflightTrailersHeaders);
        inflightTrailersHeaders := [];
        if block.None? {
          return Crash;
        }
        decodingTrailersState := WaitingResponse;
        if maybeTrailers.None? {
          return Crash;
        }
        return Move(View(), Some(TrailersToDecode(block.value, maybeTrailers.value, streamId)));
      }
      return Move(View(), None);
    }

    method MaybeDispatchIfNeeded() returns (r: Move)
      modifies this
      ensures r == DispatchIfNeeded(old(View()))
      ensures r.Move? ==> View() == r.next
    {
      if requestEnd && decodingHeaderState.Completed? && decodingTrailersState.Completed? && !dispatched && compositedHeader.Some? {
        var headers := compositedHeader.value;
        compositedHeader := None;
        var body := None;
        if inflightBodies != [] {
          body := Some(inflightBodies[0].payload);
          inflightBodies := inflightBodies[1..];
        }
        dispatched := true;
        var built := TryFrom(headers, body);
        if built.Err? {
          return Crash;
        }
        return Move(View(), Some(RequestForDispatch(built.value, streamId)));
      }
      return Move(View(), None);
    }

    /** The first frame of the queue goes out: state and end marks follow it. */
    method SendNext()
      requires pendingFrames != []
      modifies this
      ensures View() == SendPending(old(View()), old(pendingFrames[0]), old(pendingFrames[1..])) && pendingFrames == old(pendingFrames[1..])
      ensures windowAboutClient == old(windowAboutClient)
    {
      hide NextFromMe;
      var f := pendingFrames[0];
      pendingFrames := pendingFrames[1..];
      MaybeNextStateFromMe(f);
      if f.HasEndStream() {
        sendEndStreamCompleted := true;
      }
      if f.HasEndHeaders() {
        sendEndHeadersCompleted := true;
      }
    }

    /** Pops pending frames while the window and the state allow it; None is the unexpected state. */
    method DrainPending() returns (out: Option<seq<Frame>>)
      modifies this
      ensures match Drain(old(View()), [])
        case Unexpected => out.None?
        case Drained(next, frames) => out == Some(frames) && View() == next
      ensures out.Some? ==>
        && out.value + pendingFrames == old(pendingFrames) && windowAboutClient == old(windowAboutClient)
        && (forall f :: f in out.value ==> !Promptness.TooLong(windowAboutClient, f))
        && (pendingFrames != [] ==> Promptness.TooLong(windowAboutClient, pendingFrames[0]))
    {
      hide Drain, SendPending;
      ghost var whole := Drain(View(), []);
      var taken: seq<Frame> := [];
      while pendingFrames != []
        invariant Drain(View(), taken) == whole
        invariant taken + pendingFrames == old(pendingFrames) && windowAboutClient == old(windowAboutClient)
        invariant forall f :: f in taken ==> !Promptness.TooLong(windowAboutClient, f)
        decreases |pendingFrames|
      {
        ghost var before := View();
        DrainOne(before, taken);
        var f := pendingFrames[0];
        var size := if f.ty.Data? then |f.payload| else 0;
        if windowAboutClient == 0 {
          break;
        }
        if windowAboutClient < Truncate(size) && f.ty.Data? {
          break;
        }
        if streamState.Idle? && !(f.ty.Headers? || f.ty.Priority?) {
          return None;
        }
        SendNext();
        taken := taken + [f];
      }
      DrainOne(View(), taken);
      return Some(taken);
    }

    /** `response_to_client_if_possible`. */
    method ResponseToClientIfPossible() returns (r: Move)
      modifies this
      ensures r == Respond(old(View()))
      ensures r.Move? ==> View() == r.next
    {
      var out := DrainPending();
      if out.None? {
        return Crash;
      }
      if out.value != [] {
        if dispatched && sendEndStreamCompleted && sendEndHeadersCompleted {
          responseCompleted := true;
        }
        return Move(View(), Some(DoResponse(out.value, streamId)));
      }
      return Move(View(), None);
    }

    method CanSendFrame(n: nat) returns (ok: bool)
      ensures ok == CanSend(windowAboutClient, n)
    {
      if windowAboutClient == 0 {
        return false;
      }
      return windowAboutClient >= Truncate(n);
    }

    method HandleResponseObject(encoded: seq<Byte>, body: Option<seq<Byte>>) returns (message: ToConn)
      modifies this
      ensures (View(), message) == HandleResponse(old(View()), encoded, body)
    {
      var frames := [ResponseHeaders(streamId, encoded)];
      var data := ResponseData(streamId, body);
      var n := |data.payload|;
      var ok := CanSendFrame(n);
      if ok {
        windowAboutClient := windowAboutClient - Truncate(n);
        frames := frames + [data];
        assert frames == [ResponseHeaders(streamId, encoded), data];
      } else {
        pendingFrames := pendingFrames + [data];
      }
      return DoResponse(frames, streamId);
    }

    /** The decoder's answer to the header block. */
    method OnHeadersDecoded(headers: Headers, maybeTrailer: set<string>) returns (e: Option<Error>)
      modifies this
      ensures (View(), e) == HandleHeadersDecoded(old(View()), headers, maybeTrailer)
    {
      decodingHeaderState := Completed;
      if maybeTrailer != {} {
        maybeTrailers := Some(maybeTrailer);
      } else {
        decodingTrailersState := Completed;
      }
      if maybeTrailer == {} && inflightTrailersHeaders != [] {
        return Some(ConnectionError(ProtocolError));
      }
      compositedHeader := Some(headers);
      return None;
    }

    /** `flush`: sent then kept is what was pending, and the window pays for exactly what was sent. */
    method Flush() returns (out: seq<Frame>)
      modifies this`windowAboutClient, this`pendingFrames
      ensures var k := FlushCount(old(windowAboutClient), old(pendingFrames));
        k <= |old(pendingFrames)| && out == old(pendingFrames)[..k] && pendingFrames == old(pendingFrames)[k..]
      ensures windowAboutClient + TruncatedBytes(out) == old(windowAboutClient)
      ensures pendingFrames != [] ==>
        windowAboutClient == 0 || (pendingFrames[0].ty.Data? && |pendingFrames[0].payload| % 0x1_0000_0000 > windowAboutClient)
    {
      out := [];
      ghost var k := FlushCount(windowAboutClient, pendingFrames);
      while pendingFrames != []
        invariant |out| + FlushCount(windowAboutClient, pendingFrames) == k
        invariant out + pendingFrames == old(pendingFrames)
        invariant windowAboutClient + TruncatedBytes(out) == old(windowAboutClient)
        decreases |pendingFrames|
      {
        var f := pendingFrames[0];
        var size := if f.ty.Data? then |f.payload| else 0;
        FlushStep(out, f, pendingFrames, windowAboutClient);
        var ok := CanSendFrame(size);
        if !ok {
          break;
        }
        windowAboutClient := windowAboutClient - Truncate(size);
        out := out + [f];
        pendingFrames := pendingFrames[1..];
      }
      assert |out| == k;
    }

    /** The body of the `select!` arm that received a message. */
    method OnMessage(m: ToStream) returns (r: Reaction)
      modifies this
      ensures r == React(old(View()), m)
      ensures r.Reaction? ==> View() == r.next
    {
      match m {
        case FrameForRequest(f) =>
          var h := HandleFrameForRequest(f);
          match h {
            case Accepted(_, command) => return Reaction(View(), None, Some(ActiveStreamCount(command, streamId)));
            case Refused(e) => return Reaction(View(), None, Some(Failure(e)));
            case Panic => return Unwound;
          }
        case ResponseObject(encoded, body) =>
          var message := HandleResponseObject(encoded, body);
          return Reaction(View(), Some(message), None);
        case HeadersDecoded(headers, maybeTrailer) =>
          var e := OnHeadersDecoded(headers, maybeTrailer);
          return Reaction(View(), None, if e.Some? then Some(Failure(e.value)) else None);
        case TrailersDecoded(headers) =>
          if compositedHeader.None? {
            return Unwound;
          }
          compositedHeader := Some(compositedHeader.value + headers);
          decodingTrailersState := Completed;
          return Reaction(View(), None, None);
      }
    }

    /** The four steps of the loop before its receive. */
    method TakeSteps() returns (sent: seq<ToConn>, alive: bool)
      modifies this
      ensures var t := BeforeReceive(old(View())); sent == t.sent && alive == t.alive && (alive ==> View() == t.next)
    {
      hide CompositeHeaders, CompositeTrailers, DispatchIfNeeded, Respond, Emit;
      sent, alive := [], false;
      var a := MaybeCompositeHeaders();
      if a.Crash? {
        return;
      }
      sent := Emit(a.message);
      var b := MaybeCompositeTrailers();
      if b.Crash? {
        return;
      }
      sent := sent + Emit(b.message);
      var c := MaybeDispatchIfNeeded();
      if c.Crash? {
        return;
      }
      sent := sent + Emit(c.message);
      var d := ResponseToClientIfPossible();
      if d.Crash? {
        return;
      }
      sent := sent + Emit(d.message);
      alive := true;
    }

    /** One pass of the `serve` loop. */
    method ServeOnce(m: ToStream) returns (sent: seq<ToConn>, alive: bool)
      modifies this
      ensures var t := FullTurn(old(View()), m); sent == t.sent && alive == t.alive && (alive ==> View() == t.next)
    {
      hide BeforeReceive, React, Emit;
      sent, alive := TakeSteps();
      if !alive {
        return;
      }
      var r := OnMessage(m);
      if r.Unwound? {
        alive := false;
        return;
      }
      sent := sent + Emit(r.message);
      sent := sent + Emit(r.report);
    }

    /** `serve` over the messages of one stream's life. */
    method Serve(inbox: seq<ToStream>) returns (sent: seq<ToConn>, alive: bool)
      modifies this
      ensures var t := FullRun(old(View()), inbox); sent == t.sent && alive == t.alive && (alive ==> View() == t.next)
    {
      sent, alive := [], true;
      ghost var whole := FullRun(View(), inbox);
      for i := 0 to |inbox|
        invariant alive
        invariant var rest := FullRun(View(), inbox[i..]);
          whole == Turn(rest.next, sent + rest.sent, rest.alive)
      {
        assert inbox[i..][1..] == inbox[i + 1..];
        if FullTurn(View(), inbox[i]).alive {
          FullRunStep(sent, View(), inbox[i..]);
        }
        var more;
        more, alive := ServeOnce(inbox[i]);
        sent := sent + more;
        if !alive {
          return;
        }
      }
    }
  }
}
