/** Frames, flags and errors of the HTTP/2 half of the server. */
module Frames {
  import opened Wrappers
  import opened Bytes

  /** Each frame type with the flags RFC 7540 section 6 defines for it. */
  datatype FrameType =
    | Data(endStream: bool, padded: bool)
    | Headers(endStream: bool, endHeaders: bool, padded: bool, priority: bool)
    | Priority
    | RstStream
    | Settings(ack: bool)
    | PushPromise
    | Ping(ack: bool)
    | GoAway
    | WindowUpdate
    | Continuation(endHeaders: bool)
    | Unknown(code: Byte)

  /** The decoded fields of a HEADERS payload. */
  datatype HeaderParams = HeaderParams(
    padLength: Option<Byte>,
    exclusive: Option<bool>,
    dependency: Option<U32>,
    weight: Option<int>,
    fragment: seq<Byte>)

  /** A frame as the tasks pass it around; only HEADERS frames ever get `params`. */
  datatype Frame = Frame(ty: FrameType, sid: U32, payload: seq<Byte>, params: Option<HeaderParams>) {

    predicate HasEndStream() {
      (ty.Data? || ty.Headers?) && ty.endStream
    }

    predicate HasEndHeaders() {
      (ty.Headers? || ty.Continuation?) && ty.endHeaders
    }

    /** The header block fragment can be read without hitting an `expect`. */
    predicate HasFragment() {
      ty.Continuation? || (ty.Headers? && params.Some?)
    }

    function Fragment(): seq<Byte>
      requires HasFragment()
    {
      if ty.Continuation? then payload else params.value.fragment
    }
  }

  function Plain(ty: FrameType, sid: U32, payload: seq<Byte>): Frame {
    Frame(ty, sid, payload, None)
  }

  datatype ErrorCode =
    | NoError | ProtocolError | InternalError | FlowControlError | SettingsTimeout
    | StreamClosed | FrameSizeError | RefusedStream | Cancel | CompressionError
    | ConnectError | EnhanceYourCalm | InadequateSecurity | Http11Required

  function Code(e: ErrorCode): U32 {
    match e
    case NoError => 0x0
    case ProtocolError => 0x1
    case InternalError => 0x2
    case FlowControlError => 0x3
    case SettingsTimeout => 0x4
    case StreamClosed => 0x5
    case FrameSizeError => 0x6
    case RefusedStream => 0x7
    case Cancel => 0x8
    case CompressionError => 0x9
    case ConnectError => 0xa
    case EnhanceYourCalm => 0xb
    case InadequateSecurity => 0xc
    case Http11Required => 0xd
  }

  /** `OtherError` stands for every `anyhow` error that is not an `Http2Error`. */
  datatype Error =
    | ConnectionError(code: ErrorCode)
    | StreamError(sid: U32, code: ErrorCode)
    | OtherError

  /** Concatenation of the fragments of a list of HEADERS and CONTINUATION frames. */
  function Fragments(fs: seq<Frame>): seq<Byte>
    requires forall f :: f in fs ==> f.HasFragment()
  {
    if fs == [] then [] else fs[0].Fragment() + Fragments(fs[1..])
  }

  /** The fragments of a longer list are the fragments so far and the new one. */
  lemma {:induction false} FragmentsMore(fs: seq<Frame>, f: Frame)
    requires forall g :: g in fs + [f] ==> g.HasFragment()
    ensures f.HasFragment() && forall g :: g in fs ==> g.HasFragment()
    ensures Fragments(fs + [f]) == Fragments(fs) + f.Fragment()
  {
    assert f in fs + [f] && forall g :: g in fs ==> g in fs + [f];
    if fs == [] {
      assert [] + [f] == [f] && [f][1..] == [];
    } else {
      assert (fs + [f])[1..] == fs[1..] + [f] && (fs + [f])[0] == fs[0];
      assert forall g :: g in fs[1..] + [f] ==> g in fs + [f];
      FragmentsMore(fs[1..], f);
      assert fs[0].Fragment() + (Fragments(fs[1..]) + f.Fragment()) == (fs[0].Fragment() + Fragments(fs[1..])) + f.Fragment();
    }
  }

  /** Payload octets of the DATA frames of a list, the only octets under flow control. */
  function DataBytes(fs: seq<Frame>): nat {
    if fs == [] then 0
    else DataBytes(fs[..|fs| - 1]) + (if fs[|fs| - 1].ty.Data? then |fs[|fs| - 1].payload| else 0)
  }

  lemma {:induction false} DataBytesAppend(fs: seq<Frame>, gs: seq<Frame>)
    ensures DataBytes(fs + gs) == DataBytes(fs) + DataBytes(gs)
  {
    if gs == [] {
      assert fs + gs == fs;
    } else {
      assert (fs + gs)[..|fs + gs| - 1] == fs + gs[..|gs| - 1];
      DataBytesAppend(fs, gs[..|gs| - 1]);
    }
  }
}
