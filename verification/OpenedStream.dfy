/** From the handshake to a stream whose header block has been decoded. */
module OpenedStream {
  import opened Wrappers
  import opened Bytes
  import opened Frames
  import opened Messages
  import opened StreamModel
  import opened ConnectionModel
  import opened System
  import opened StreamInvariant
  import opened Scenario
  import Text
  import HeaderBlock
  import Settings

  /** A HEADERS frame that is a whole block, whatever its octets; END_STREAM or not. */
  function Opening(endStream: bool, block: seq<Byte>): Frame {
    Plain(Headers(endStream, true, false, false), SID, block)
  }

  lemma OpeningSeen(endStream: bool, block: seq<Byte>)
    ensures var f := Seen(Opening(endStream, block));
      && f.ty == Headers(endStream, true, false, false) && f.sid == SID
      && AllFragments([f]) && Fragments([f]) == block
  {
    var f := Seen(Opening(endStream, block));
    assert f.HasFragment() && f.Fragment() == block;
    assert [f][1..] == [] && block + [] == block;
  }

  function OneStream(options: Settings.Options): ConnContext {
    AddStream(FreshContext().(clientOptions := options, activeMax := SID), SID)
  }

  lemma OpeningTaken(y: Sys, endStream: bool, block: seq<Byte>)
    requires Init(y) && |block| <= MAX_FRAME_SIZE
    ensures var (o, f) := (OnFrame(Alone(y.conn.ctx), Opening(endStream, block)), Opening(endStream, block));
      && o.conn == Alone(OneStream(y.conn.ctx.clientOptions)) && !o.conn.ctx.rootCancelled
      && o.created == Some(SID) && o.post == Some((SID, FrameForRequest(Seen(f))))
  {
    hide Settings.Legal;
  }

  /** The stream once the block has been accepted; its header block goes to the decoder next. */
  function Filled(endStream: bool, block: seq<Byte>): Stream {
    NewStream(SID, INITIAL_WINDOW).(
      state := if endStream then HalfClosedRemote else Open, requestEnd := endStream,
      headerState := Ready, headerFrames := [Seen(Opening(endStream, block))])
  }

  lemma OpeningAccepted(endStream: bool, block: seq<Byte>)
    ensures HandleFrame(NewStream(SID, INITIAL_WINDOW), Seen(Opening(endStream, block))) == Accepted(Filled(endStream, block), Increment)
  {
    hide Seen, AllFragments, Fragments;
    OpeningSeen(endStream, block);
    var f := Seen(Opening(endStream, block));
    assert [] + [f] == [f];
  }

  /** What the stream asks for is in the channel. */
  function Asking(options: Settings.Options, endStream: bool, block: seq<Byte>): Scene {
    Scene(OneStream(options), [ActiveStreamCount(Increment, SID), HeadersToDecode(block, SID)],
          AfterHeaders(Filled(endStream, block)), AtReceive, [], false, [Opening(endStream, block)], Record(1, 0, {}, {}, map[], map[]))
  }

  /** The connection once the stream's Increment has been handled. */
  function CountedIn(options: Settings.Options): ConnContext {
    Count(OneStream(options), Increment)
  }

  /** The header block has just been decoded. */
  function Decoding(options: Settings.Options, endStream: bool, block: seq<Byte>, ps: seq<HeaderBlock.Pair>): Scene
    requires HeaderBlock.WellFormed(ps)
  {
    Scene(CountedIn(options), [], AfterHeaders(Filled(endStream, block)), AtReceive,
          [HeadersDecoded(HeaderBlock.HeaderMap(ps), HeaderBlock.DeclaredTrailers(ps))], false,
          [Opening(endStream, block)], Record(1, 0, {SID}, {}, map[SID := (block, ps)], map[]))
  }

  /** From the handshake to a stream with its header block accepted. */
  lemma StreamOpened(y0: Sys, endStream: bool, block: seq<Byte>) returns (y1: Sys)
    requires Init(y0) && |block| <= MAX_FRAME_SIZE
    ensures LeadsTo(y0, y1) && Shows(y1, Asking(y0.conn.ctx.clientOptions, endStream, block))
  {
    hide Init, LeadsTo, Shows, Fits, Play, OnFrame, OneStream, Seen, Resting, Enabled, Next, AllFragments, Fragments;
    var f, options := Opening(endStream, block), y0.conn.ctx.clientOptions;
    var m := FrameForRequest(Seen(f));
    OpeningTaken(y0, endStream, block);
    OpenShown(y0, f, m);
    y1 := Next(y0, Arrive(f));
    LeadsToNext(y0, Arrive(f));
    var x := Scene(OneStream(options), [], NewStream(SID, INITIAL_WINDOW), AtHeaders, [m], false, [f], Record(1, 0, {}, {}, map[], map[]));
    NewRests(x);
    y1 := Rested(y0, y1, x);
    x := x.(phase := AtReceive);
    OpeningAccepted(endStream, block);
    FrameMove(x, Seen(f));
    y1 := Onward(y0, y1, x, Step(SID), Play(x, Step(SID)));
    x := Play(x, Step(SID));
    ReportMove(x);
    y1 := Onward(y0, y1, x, Step(SID), Play(x, Step(SID)));
    x := Play(x, Step(SID));
    OpeningSeen(endStream, block);
    HeadersMoved(x);
    y1 := Onward(y0, y1, x, Step(SID), Play(x, Step(SID)));
    x := Play(x, Step(SID));
    AskedRests(x, endStream, block);
    y1 := Rested(y0, y1, x);
    assert [m][1..] == [];
    assert [] + [ActiveStreamCount(Increment, SID)] + [HeadersToDecode(block, SID)] == [ActiveStreamCount(Increment, SID), HeadersToDecode(block, SID)];
  }

  lemma NewRests(x: Scene)
    requires x.s == NewStream(SID, INITIAL_WINDOW) && !x.cancelled
    ensures Resting(x)
  {}

  lemma AskedRests(x: Scene, endStream: bool, block: seq<Byte>)
    requires x.s == AfterHeaders(Filled(endStream, block)) && !x.cancelled
    ensures Resting(x)
  {
    hide Seen;
  }

  /** The decoder's answer reaches the stream. */
  lemma BlockDecoded(y0: Sys, endStream: bool, block: seq<Byte>, ps: seq<HeaderBlock.Pair>) returns (y1: Sys)
    requires Init(y0) && |block| <= MAX_FRAME_SIZE && HeaderBlock.WellFormed(ps)
    ensures LeadsTo(y0, y1) && Shows(y1, Decoding(y0.conn.ctx.clientOptions, endStream, block, ps))
  {
    hide Init, LeadsTo, Shows, Fits, Play, Seen, HeaderBlock.FieldsOk, HeaderBlock.Complete, HeaderBlock.HeaderMap, HeaderBlock.DeclaredTrailers;
    y1 := StreamOpened(y0, endStream, block);
    var inc, ask := ActiveStreamCount(Increment, SID), HeadersToDecode(block, SID);
    var x := Asking(y0.conn.ctx.clientOptions, endStream, block);
    CountMove(x, CompressionFailed);
    y1 := Onward(y0, y1, x, Event.Handle(CompressionFailed), Play(x, Event.Handle(CompressionFailed)));
    x := Play(x, Event.Handle(CompressionFailed));
    DecodeMove(x, ps);
    y1 := Onward(y0, y1, x, Event.Handle(Pairs(ps)), Play(x, Event.Handle(Pairs(ps))));
    x := Play(x, Event.Handle(Pairs(ps)));
    var answer := HeadersDecoded(HeaderBlock.HeaderMap(ps), HeaderBlock.DeclaredTrailers(ps));
    assert [inc, ask][1..] == [ask] && [ask][1..] == [] && [] + [answer] == [answer];
    assert x == Decoding(y0.conn.ctx.clientOptions, endStream, block, ps);
  }

  // ---- two header blocks ----

  const GET_ROOT: seq<HeaderBlock.Pair> := [
    HeaderBlock.Pair(":method", "GET"), HeaderBlock.Pair(":scheme", "http"),
    HeaderBlock.Pair(":authority", "a"), HeaderBlock.Pair(":path", "/")]

  const GET_WITH_TRAILER: seq<HeaderBlock.Pair> := GET_ROOT + [HeaderBlock.Pair("trailer", "x")]

  lemma RootNames(i: nat)
    requires i < 4
    ensures GET_ROOT[i].name in HeaderBlock.PSEUDO && HeaderBlock.FieldOk(GET_ROOT[i])
    ensures GET_ROOT[i].name != "trailer"
    ensures forall j :: 0 <= j < 4 && j != i ==> GET_ROOT[j].name != GET_ROOT[i].name
  {
    HeaderBlock.SmallNamesAreLower();
  }

  lemma RootLookups()
    ensures HeaderBlock.Lookup(GET_ROOT, ":method") == Some("GET") && HeaderBlock.Lookup(GET_ROOT, ":path") == Some("/")
    ensures HeaderBlock.Lookup(GET_ROOT, "trailer") == None
  {
    hide HeaderBlock.Lookup, HeaderBlock.FieldOk;
    RootNames(0);
    RootNames(1);
    RootNames(2);
    RootNames(3);
    assert GET_ROOT[0].name == ":method" && GET_ROOT[3].name == ":path";
    HeaderBlock.LookupMentions(GET_ROOT, ":method");
    HeaderBlock.LookupMentions(GET_ROOT, ":path");
    HeaderBlock.LookupMentions(GET_ROOT, "trailer");
  }

  lemma RootFields()
    ensures HeaderBlock.FieldsOk(GET_ROOT) && HeaderBlock.Complete(GET_ROOT)
  {
    hide HeaderBlock.FieldOk, HeaderBlock.IsPseudoName;
    var ps := GET_ROOT;
    assert |ps| == 4 && ps[0].name == ":method" && ps[1].name == ":scheme" && ps[2].name == ":authority" && ps[3].name == ":path";
    forall i | 0 <= i < 4
      ensures HeaderBlock.FieldOk(ps[i]) && HeaderBlock.IsPseudoName(ps[i].name)
      ensures forall j :: 0 <= j < 4 && j != i ==> ps[j].name != ps[i].name
    {
      RootNames(i);
      HeaderBlock.SmallNamesAreLower();
    }
  }

  lemma RootIsWellFormed()
    ensures HeaderBlock.WellFormed(GET_ROOT) && HeaderBlock.DeclaredTrailers(GET_ROOT) == {}
  {
    RootFields();
    RootLookups();
    hide HeaderBlock.Lookup, HeaderBlock.FieldsOk, HeaderBlock.Complete;
  }

  lemma TrailerFields()
    ensures HeaderBlock.FieldsOk(GET_WITH_TRAILER) && HeaderBlock.Complete(GET_WITH_TRAILER)
  {
    RootFields();
    HeaderBlock.SmallNamesAreLower();
    var ps := GET_WITH_TRAILER;
    assert |ps| == 5 && ps[4] == HeaderBlock.Pair("trailer", "x") && forall i :: 0 <= i < 4 ==> ps[i] == GET_ROOT[i];
    assert ps[0].name == ":method" && ps[1].name == ":scheme" && ps[2].name == ":authority" && ps[3].name == ":path";
    assert HeaderBlock.FieldOk(ps[4]) && !HeaderBlock.IsPseudoName(ps[4].name);
    hide HeaderBlock.FieldOk, HeaderBlock.IsPseudoName;
  }

  lemma OnePiece()
    ensures Text.Split("x") == ["x"]
  {
    assert "x"[1..] == "";
    var rest := Text.Split("x"[1..]);
    assert rest == [""];
    assert ['x'] + rest[0] == "x" && rest[1..] == [];
    assert ["x"] + [] == ["x"];
  }

  lemma TrailerLookups()
    ensures HeaderBlock.Lookup(GET_WITH_TRAILER, ":method") == Some("GET") && HeaderBlock.Lookup(GET_WITH_TRAILER, ":path") == Some("/")
    ensures HeaderBlock.DeclaredTrailers(GET_WITH_TRAILER) == {"x"}
  {
    RootLookups();
    var p := HeaderBlock.Pair("trailer", "x");
    HeaderBlock.LookupStep(GET_ROOT, p, ":method");
    HeaderBlock.LookupStep(GET_ROOT, p, ":path");
    HeaderBlock.DeclaredStep(GET_ROOT, p);
    OnePiece();
    hide HeaderBlock.Lookup;
  }

  lemma TrailerIsWellFormed()
    ensures HeaderBlock.WellFormed(GET_WITH_TRAILER) && HeaderBlock.DeclaredTrailers(GET_WITH_TRAILER) == {"x"}
  {
    TrailerFields();
    TrailerLookups();
    hide HeaderBlock.Lookup, HeaderBlock.FieldsOk, HeaderBlock.Complete, HeaderBlock.DeclaredTrailers;
  }
}
