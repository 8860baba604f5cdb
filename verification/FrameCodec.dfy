/** The frame writer and the reader that inverts it (RFC 7540 section 4.1). */
module FrameCodec {
  import opened Wrappers
  import opened Bytes
  import opened Frames

  const MAX_LENGTH: int := 0xFF_FFFF

  function Bit(b: bool): int { if b then 1 else 0 }

  function TypeCode(ty: FrameType): Byte {
    match ty
    case Data(_, _) => 0x00
    case Headers(_, _, _, _) => 0x01
    case Priority => 0x02
    case RstStream => 0x03
    case Settings(_) => 0x04
    case PushPromise => 0x05
    case Ping(_) => 0x06
    case GoAway => 0x07
    case WindowUpdate => 0x08
    case Continuation(_) => 0x09
    case Unknown(_) => 0x0a
  }

  function FlagBits(ty: FrameType): Byte {
    match ty
    case Data(es, p) => Bit(es) + 8 * Bit(p)
    case Headers(es, eh, p, pr) => Bit(es) + 4 * Bit(eh) + 8 * Bit(p) + 32 * Bit(pr)
    case Settings(a) => Bit(a)
    case Ping(a) => Bit(a)
    case Continuation(eh) => 4 * Bit(eh)
    case _ => 0
  }

  function FrameHeader(f: Frame): seq<Byte>
    requires |f.payload| <= MAX_LENGTH
  {
    Put24(|f.payload|) + [TypeCode(f.ty), FlagBits(f.ty)] + Put32(f.sid % TWO_31)
  }

  /** The octets of one frame, or an error when the 24-bit length cannot hold the payload. */
  function Serialize(f: Frame): Result<seq<Byte>, Error> {
    if |f.payload| > MAX_LENGTH then Err(OtherError) else Ok(FrameHeader(f) + f.payload)
  }

  /** The numbers of section 6 of RFC 7540; an unknown type is written as 10. */
  predicate TypeNumber(ty: FrameType, n: int) {
    match ty
    case Data(_, _) => n == 0
    case Headers(_, _, _, _) => n == 1
    case Priority => n == 2
    case RstStream => n == 3
    case Settings(_) => n == 4
    case PushPromise => n == 5
    case Ping(_) => n == 6
    case GoAway => n == 7
    case WindowUpdate => n == 8
    case Continuation(_) => n == 9
    case Unknown(_) => n == 10
  }

  predicate FlagAt(flags: int, bit: int)
    requires bit > 0
  {
    flags / bit % 2 == 1
  }

  /** Figure 1 of RFC 7540, octet by octet: length, type, flags, a reserved bit that is 0, and the stream identifier. */
  lemma FrameLayout(f: Frame)
    requires |f.payload| <= MAX_LENGTH
    ensures Serialize(f).Ok?
    ensures var b := Serialize(f).value;
      && |b| == 9 + |f.payload| && b[9..] == f.payload
      && Number(b[..3]) == |f.payload|
      && TypeNumber(f.ty, b[3])
      && b[5] < 0x80 && Number(b[5..9]) == f.sid % 0x8000_0000
  {
    hide Number, FlagBits;
    PutsNumber(|f.payload|);
    PutsNumber(f.sid % TWO_31);
    var b := Serialize(f).value;
    assert b[..3] == Put24(|f.payload|) && b[5..9] == Put32(f.sid % TWO_31);
    assert b[9..] == f.payload;
  }

  /** END_STREAM and ACK are bit 1, END_HEADERS 4, PADDED 8, PRIORITY 32; every bit a type does not define is 0. */
  lemma FlagLayout(f: Frame)
    requires |f.payload| <= MAX_LENGTH && Serialize(f).Ok?
    ensures var flags := Serialize(f).value[4];
      && (FlagAt(flags, 1) <==> f.HasEndStream() || ((f.ty.Settings? || f.ty.Ping?) && f.ty.ack))
      && (FlagAt(flags, 4) <==> f.HasEndHeaders())
      && (FlagAt(flags, 8) <==> (f.ty.Data? || f.ty.Headers?) && f.ty.padded)
      && (FlagAt(flags, 32) <==> f.ty.Headers? && f.ty.priority)
      && !FlagAt(flags, 2) && !FlagAt(flags, 16) && !FlagAt(flags, 64) && !FlagAt(flags, 128)
  {
    hide Put32;
  }

  /** `h2_frame_to_bytes`: appends to one growing buffer. */
  method H2FrameToBytes(f: Frame) returns (r: Result<seq<Byte>, Error>)
    ensures r == Serialize(f)
  {
    if |f.payload| > MAX_LENGTH {
      return Err(OtherError);
    }
    var sid := f.sid % TWO_31;
    var len := |f.payload|;
    var out: seq<Byte> := [];
    out := out + [len / 0x1_0000];
    out := out + [len / 0x100 % 0x100];
    out := out + [len % 0x100];
    out := out + [TypeCode(f.ty)];
    out := out + [FlagBits(f.ty)];
    out := out + [sid / 0x100_0000];
    out := out + [sid / 0x1_0000 % 0x100];
    out := out + [sid / 0x100 % 0x100];
    out := out + [sid % 0x100];
    out := out + f.payload;
    assert out == FrameHeader(f) + f.payload;
    return Ok(out);
  }

  /** Reading a flags octet keeps only the flags the type defines (section 4.1). */
  function ParseType(code: Byte, flags: Byte): FrameType {
    var es, eh, p, pr := flags % 2 == 1, flags / 4 % 2 == 1, flags / 8 % 2 == 1, flags / 32 % 2 == 1;
    match code
    case 0x00 => Data(es, p)
    case 0x01 => Headers(es, eh, p, pr)
    case 0x02 => Priority
    case 0x03 => RstStream
    case 0x04 => Settings(es)
    case 0x05 => PushPromise
    case 0x06 => Ping(es)
    case 0x07 => GoAway
    case 0x08 => WindowUpdate
    case 0x09 => Continuation(eh)
    case _ => Unknown(code)
  }

  datatype Parsed = Closed | Parsed(frame: Option<Frame>, rest: seq<Byte>)

  /** One `parse_frame`: nine octets, then the announced payload. PUSH_PROMISE has no facade. */
  function ParseFrame(input: seq<Byte>): (p: Parsed)
    ensures p.Parsed? ==> |p.rest| < |input|
  {
    if |input| < 9 || |input| < 9 + Get24(input) then Closed
    else
      var len := Get24(input);
      var ty := ParseType(input[3], input[4]);
      var sid := Get32(input[5..]) % TWO_31;
      Parsed(if ty.PushPromise? then None else Some(Plain(ty, sid, input[9..9 + len])), input[9 + len..])
  }

  /** Everything the reader task hands to the connection, in order. */
  function ParseAll(input: seq<Byte>): seq<Frame>
    decreases |input|
  {
    match ParseFrame(input)
    case Closed => []
    case Parsed(f, rest) => (if f.Some? then [f.value] else []) + ParseAll(rest)
  }

  /** A reader over the octets still unread. */
  class Reader {
    var unread: seq<Byte>

    constructor (input: seq<Byte>)
      ensures unread == input
    {
      unread := input;
    }

    method ReadExact(n: nat) returns (buf: Option<seq<Byte>>)
      modifies this
      ensures |old(unread)| < n ==> buf == None && unread == []
      ensures |old(unread)| >= n ==> buf == Some(old(unread)[..n]) && unread == old(unread)[n..]
    {
      if |unread| < n {
        unread := [];
        return None;
      }
      buf := Some(unread[..n]);
      unread := unread[n..];
    }

    /** `Http2Handler::parse_frame`. */
    method ParseNext() returns (r: Parsed)
      modifies this
      ensures r == ParseFrame(old(unread))
      ensures r.Parsed? ==> unread == r.rest
    {
      ghost var input := unread;
      var head := ReadExact(9);
      if head.None? {
        return Closed;
      }
      var len := Get24(head.value);
      var ty := ParseType(head.value[3], head.value[4]);
      var sid := Get32(head.value[5..]) % TWO_31;
      assert head.value[5..] == input[5..9];
      assert len == Get24(input);
      var payload := ReadExact(len);
      if payload.None? {
        return Closed;
      }
      assert payload.value == input[9..9 + len];
      return Parsed(if ty.PushPromise? then None else Some(Plain(ty, sid, payload.value)), unread);
    }

    /** The reader loop: frames go to the connection until the stream of octets ends. */
    method ReadAll() returns (frames: seq<Frame>)
      modifies this
      ensures frames == ParseAll(old(unread))
    {
      frames := [];
      ghost var left := unread;
      var r := ParseNext();
      while r.Parsed?
        invariant r == ParseFrame(left) && (r.Parsed? ==> unread == r.rest)
        invariant frames + ParseAll(left) == ParseAll(old(unread))
        decreases |left|
      {
        AppendStep(frames, r.frame, left);
        if r.frame.Some? {
          frames := frames + [r.frame.value];
        }
        left := unread;
        r := ParseNext();
      }
    }
  }

  lemma AppendStep(frames: seq<Frame>, f: Option<Frame>, input: seq<Byte>)
    requires ParseFrame(input).Parsed? && f == ParseFrame(input).frame
    ensures (if f.Some? then frames + [f.value] else frames) + ParseAll(ParseFrame(input).rest) == frames + ParseAll(input)
  {
    hide ParseFrame;
  }

  /** What the other side sees of a written frame. */
  function Received(f: Frame): Option<Frame> {
    if f.ty.PushPromise? then None
    else Some(Plain(if f.ty.Unknown? then Unknown(0x0a) else f.ty, f.sid % TWO_31, f.payload))
  }

  /** Frames that survive the trip untouched. */
  predicate Portable(f: Frame) {
    !f.ty.PushPromise? && (f.ty.Unknown? ==> f.ty.code == 0x0a) && f.sid < TWO_31 && f.params == None
  }

  function ReceivedAll(fs: seq<Frame>): seq<Frame> {
    if fs == [] then []
    else (if Received(fs[0]).Some? then [Received(fs[0]).value] else []) + ReceivedAll(fs[1..])
  }

  /** Octets of a list of frames written one after the other. */
  function SerializeAll(fs: seq<Frame>): seq<Byte>
    requires forall f :: f in fs ==> |f.payload| <= MAX_LENGTH
  {
    if fs == [] then [] else Serialize(fs[0]).value + SerializeAll(fs[1..])
  }

  lemma ParseTypeInverts(ty: FrameType)
    ensures ParseType(TypeCode(ty), FlagBits(ty)) == if ty.Unknown? then Unknown(0x0a) else ty
  {}

  lemma ParseSerialized(f: Frame, rest: seq<Byte>)
    requires |f.payload| <= MAX_LENGTH
    ensures ParseFrame(Serialize(f).value + rest) == Parsed(Received(f), rest)
  {
    var input := Serialize(f).value + rest;
    GetPut24(|f.payload|, input[3..]);
    assert input == Put24(|f.payload|) + input[3..];
    assert input[5..] == Put32(f.sid % TWO_31) + (f.payload + rest);
    GetPut32(f.sid % TWO_31, f.payload + rest);
    ParseTypeInverts(f.ty);
    assert input[9..9 + |f.payload|] == f.payload;
    assert input[9 + |f.payload|..] == rest;
    hide ParseType, TypeCode, FlagBits, Get24, Get32, Put24, Put32;
  }

  /** Reading back any list of written frames yields exactly those frames, nothing merged or split. */
  lemma {:induction false} ReadBack(fs: seq<Frame>)
    requires forall f :: f in fs ==> |f.payload| <= MAX_LENGTH
    ensures ParseAll(SerializeAll(fs)) == ReceivedAll(fs)
  {
    if fs == [] {
    } else {
      ParseSerialized(fs[0], SerializeAll(fs[1..]));
      ReadBack(fs[1..]);
    }
  }

  /** The list read back is the list written exactly when every frame in it is portable. */
  lemma ReadBackIdentity(fs: seq<Frame>)
    requires forall f :: f in fs ==> |f.payload| <= MAX_LENGTH
    ensures ParseAll(SerializeAll(fs)) == fs <==> forall f :: f in fs ==> Portable(f)
  {
    ReadBack(fs);
    ReceivedAllIdentity(fs);
  }

  lemma PortableArrives(f: Frame)
    ensures Received(f) == Some(f) <==> Portable(f)
  {}

  lemma {:induction false} PortableAllArrive(fs: seq<Frame>)
    requires forall f :: f in fs ==> Portable(f)
    ensures ReceivedAll(fs) == fs
  {
    hide Received, Portable;
    if fs != [] {
      PortableAllArrive(fs[1..]);
      PortableArrives(fs[0]);
      assert fs == [fs[0]] + fs[1..];
    }
  }

  lemma {:induction false} ArrivedAllPortable(fs: seq<Frame>, i: nat)
    requires ReceivedAll(fs) == fs && i < |fs|
    ensures Portable(fs[i])
  {
    hide Received, Portable;
    ReceivedAllLength(fs);
    ReceivedAllLength(fs[1..]);
    PortableArrives(fs[0]);
    assert fs == [fs[0]] + ReceivedAll(fs[1..]);
    if i > 0 {
      ArrivedAllPortable(fs[1..], i - 1);
    }
  }

  lemma ReceivedAllIdentity(fs: seq<Frame>)
    ensures ReceivedAll(fs) == fs <==> forall f :: f in fs ==> Portable(f)
  {
    hide Portable, ReceivedAll;
    if ReceivedAll(fs) == fs {
      forall i | 0 <= i < |fs| ensures Portable(fs[i]) {
        ArrivedAllPortable(fs, i);
      }
    } else if forall f :: f in fs ==> Portable(f) {
      PortableAllArrive(fs);
    }
  }

  lemma {:induction false} ReceivedAllLength(fs: seq<Frame>)
    ensures |ReceivedAll(fs)| <= |fs|
    ensures |ReceivedAll(fs)| == |fs| > 0 ==> Received(fs[0]) == Some(ReceivedAll(fs)[0])
  {
    if fs != [] {
      ReceivedAllLength(fs[1..]);
    }
  }

  /** Unique decodability: two portable lists with the same octets are the same list. */
  lemma SerializeAllInjective(fs: seq<Frame>, gs: seq<Frame>)
    requires forall f :: f in fs ==> |f.payload| <= MAX_LENGTH && Portable(f)
    requires forall f :: f in gs ==> |f.payload| <= MAX_LENGTH && Portable(f)
    requires SerializeAll(fs) == SerializeAll(gs)
    ensures fs == gs
  {
    ReadBackIdentity(fs);
    ReadBackIdentity(gs);
  }
}
