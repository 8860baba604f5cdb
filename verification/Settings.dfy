/** SETTINGS payloads: encode, decode, validate and apply (RFC 7540 section 6.5). */
module Settings {
  import opened Wrappers
  import opened Bytes
  import opened Frames

  type Entry = (U16, U32)

  datatype Options = Options(
    headerTableSize: U32,
    enablePush: bool,
    maxConcurrentStreams: U32,
    initialWindowSize: U32,
    maxFrameSize: U32,
    maxHeaderListSize: U32)

  datatype PartialOptions = PartialOptions(
    headerTableSize: Option<U32>,
    enablePush: Option<bool>,
    maxConcurrentStreams: Option<U32>,
    initialWindowSize: Option<U32>,
    maxFrameSize: Option<U32>,
    maxHeaderListSize: Option<U32>)

  const DEFAULTS := Options(4096, false, 100, 65535, 16384, 1)
  const NOTHING := PartialOptions(None, None, None, None, None, None)

  const DEFAULT_PAYLOAD: seq<Entry> := [(1, 4096), (2, 1), (3, 100), (4, 65535), (5, 16384), (6, 1)]

  // ---- wire format ----

  function Encode(entries: seq<Entry>): seq<Byte> {
    if entries == [] then [] else Put16(entries[0].0) + Put32(entries[0].1) + Encode(entries[1..])
  }

  function Decode(payload: seq<Byte>): seq<Entry> {
    if |payload| < 6 then [] else [(Get16(payload), Get32(payload[2..]))] + Decode(payload[6..])
  }

  lemma EncodeStep(buf: seq<Byte>, entries: seq<Entry>)
    requires entries != []
    ensures buf + Encode(entries) == buf + Put16(entries[0].0) + Put32(entries[0].1) + Encode(entries[1..])
  {
    hide Put16, Put32;
  }

  method EncodePayload(entries: seq<Entry>) returns (buf: seq<Byte>)
    ensures buf == Encode(entries)
  {
    buf := [];
    for i := 0 to |entries|
      invariant buf + Encode(entries[i..]) == Encode(entries)
    {
      hide Encode, Put16, Put32;
      EncodeStep(buf, entries[i..]);
      assert entries[i..][1..] == entries[i + 1..];
      var (id, value) := entries[i];
      buf := buf + Put16(id);
      buf := buf + Put32(value);
    }
  }

  method DecodePayload(payload: seq<Byte>) returns (out: seq<Entry>)
    ensures out == Decode(payload)
  {
    out := [];
    var rest := payload;
    while |rest| >= 6
      invariant out + Decode(rest) == Decode(payload)
      decreases |rest|
    {
      out := out + [(Get16(rest), Get32(rest[2..]))];
      rest := rest[6..];
    }
  }

  lemma {:induction false} EncodeAppend(a: seq<Entry>, b: seq<Entry>)
    ensures Encode(a + b) == Encode(a) + Encode(b)
  {
    if a == [] {
      assert a + b == b;
    } else {
      assert (a + b)[1..] == a[1..] + b;
      EncodeAppend(a[1..], b);
    }
  }

  lemma {:induction false} DecodeAppend(a: seq<Byte>, b: seq<Byte>)
    requires |a| % 6 == 0
    ensures Decode(a + b) == Decode(a) + Decode(b)
    decreases |a|
  {
    if a == [] {
      assert a + b == b;
    } else {
      assert (a + b)[6..] == a[6..] + b;
      DecodeAppend(a[6..], b);
    }
  }

  lemma {:induction false} DecodeEncode(entries: seq<Entry>)
    ensures |Encode(entries)| == 6 * |entries|
    ensures Decode(Encode(entries)) == entries
  {
    if entries != [] {
      var (id, value) := entries[0];
      var e, tail := Encode(entries), Encode(entries[1..]);
      DecodeEncode(entries[1..]);
      assert e == Put16(id) + (Put32(value) + tail) && e[2..] == Put32(value) + tail && e[6..] == tail;
      GetPut16(id, Put32(value) + tail);
      GetPut32(value, tail);
    }
  }

  /** Figure 10 of RFC 7540: each entry is two octets of identifier and four of value, the most significant first. */
  lemma {:induction false} EntryLayout(entries: seq<Entry>, i: nat)
    requires i < |entries|
    ensures |Encode(entries)| == 6 * |entries|
    ensures var b := Encode(entries)[6 * i..6 * i + 6]; Number(b[..2]) == entries[i].0 && Number(b[2..]) == entries[i].1
  {
    hide Number, Put16, Put32;
    DecodeEncode(entries);
    var (id, value) := entries[0];
    var e, tail := Encode(entries), Encode(entries[1..]);
    PutsNumber(id);
    PutsNumber(value);
    assert e == Put16(id) + Put32(value) + tail;
    if i == 0 {
      assert e[..6][..2] == Put16(id) && e[..6][2..] == Put32(value);
    } else {
      EntryLayout(entries[1..], i - 1);
      assert e[6 * i..6 * i + 6] == tail[6 * (i - 1)..6 * (i - 1) + 6];
    }
  }

  /** Encoding what was decoded gives the payload back exactly when no octets trail the last entry. */
  lemma {:induction false} EncodeDecode(payload: seq<Byte>)
    ensures Encode(Decode(payload)) == payload[..|payload| - |payload| % 6]
    ensures Encode(Decode(payload)) == payload <==> |payload| % 6 == 0
    decreases |payload|
  {
    if |payload| >= 6 {
      EncodeDecode(payload[6..]);
      PutGet16(payload);
      PutGet32(payload[2..]);
      var whole := |payload| - |payload| % 6;
      assert payload[..whole] == payload[..2] + payload[2..][..4] + payload[6..][..whole - 6];
    }
  }

  // ---- applying settings ----

  /** The RFC's order of processing: one entry takes effect at a time (section 6.5.3). */
  function Assign(o: Options, e: Entry): Options {
    match e.0
    case 1 => o.(headerTableSize := e.1)
    case 2 => o.(enablePush := e.1 == 1)
    case 3 => o.(maxConcurrentStreams := e.1)
    case 4 => o.(initialWindowSize := e.1)
    case 5 => o.(maxFrameSize := e.1)
    case 6 => o.(maxHeaderListSize := e.1)
    case _ => o
  }

  function AssignAll(o: Options, entries: seq<Entry>): Options
    decreases entries
  {
    if entries == [] then o else AssignAll(Assign(o, entries[0]), entries[1..])
  }

  function Collect(p: PartialOptions, e: Entry): PartialOptions {
    match e.0
    case 1 => p.(headerTableSize := Some(e.1))
    case 2 => p.(enablePush := Some(e.1 == 1))
    case 3 => p.(maxConcurrentStreams := Some(e.1))
    case 4 => p.(initialWindowSize := Some(e.1))
    case 5 => p.(maxFrameSize := Some(e.1))
    case 6 => p.(maxHeaderListSize := Some(e.1))
    case _ => p
  }

  function CollectAll(p: PartialOptions, entries: seq<Entry>): PartialOptions
    decreases entries
  {
    if entries == [] then p else CollectAll(Collect(p, entries[0]), entries[1..])
  }

  /** `options`: one pass over the decoded payload. */
  method CollectOptions(payload: seq<Byte>) returns (p: PartialOptions)
    ensures p == CollectAll(NOTHING, Decode(payload))
  {
    var entries := DecodePayload(payload);
    p := NOTHING;
    for i := 0 to |entries|
      invariant CollectAll(p, entries[i..]) == CollectAll(NOTHING, entries)
    {
      assert entries[i..][1..] == entries[i + 1..];
      match entries[i].0 {
        case 1 => p := p.(headerTableSize := Some(entries[i].1));
        case 2 =>
          var value := if entries[i].1 == 1 then true else false;
          p := p.(enablePush := Some(value));
        case 3 => p := p.(maxConcurrentStreams := Some(entries[i].1));
        case 4 => p := p.(initialWindowSize := Some(entries[i].1));
        case 5 => p := p.(maxFrameSize := Some(entries[i].1));
        case 6 => p := p.(maxHeaderListSize := Some(entries[i].1));
        case _ =>
      }
    }
  }

  function OrElse<T>(v: Option<T>, other: T): T {
    if v.Some? then v.value else other
  }

  function Update(o: Options, p: PartialOptions): Options {
    Options(
      OrElse(p.headerTableSize, o.headerTableSize),
      OrElse(p.enablePush, o.enablePush),
      OrElse(p.maxConcurrentStreams, o.maxConcurrentStreams),
      OrElse(p.initialWindowSize, o.initialWindowSize),
      OrElse(p.maxFrameSize, o.maxFrameSize),
      OrElse(p.maxHeaderListSize, o.maxHeaderListSize))
  }

  /** `Http2ConnectionOptions`. */
  class ConnectionOptions {
    var headerTableSize: U32
    var enablePush: bool
    var maxConcurrentStreams: U32
    var initialWindowSize: U32
    var maxFrameSize: U32
    var maxHeaderListSize: U32

    function View(): Options
      reads this
    {
      Options(headerTableSize, enablePush, maxConcurrentStreams, initialWindowSize, maxFrameSize, maxHeaderListSize)
    }

    constructor ()
      ensures View() == DEFAULTS
    {
      headerTableSize, enablePush, maxConcurrentStreams := 4096, false, 100;
      initialWindowSize, maxFrameSize, maxHeaderListSize := 65535, 16384, 1;
    }

    method UpdateFrom(p: PartialOptions)
      modifies this
      ensures View() == Update(old(View()), p)
    {
      if p.headerTableSize.Some? {
        headerTableSize := p.headerTableSize.value;
      }
      if p.enablePush.Some? {
        enablePush := p.enablePush.value;
      }
      if p.maxConcurrentStreams.Some? {
        maxConcurrentStreams := p.maxConcurrentStreams.value;
      }
      if p.initialWindowSize.Some? {
        initialWindowSize := p.initialWindowSize.value;
      }
      if p.maxFrameSize.Some? {
        maxFrameSize := p.maxFrameSize.value;
      }
      if p.maxHeaderListSize.Some? {
        maxHeaderListSize := p.maxHeaderListSize.value;
      }
    }
  }

  /** The effect of one SETTINGS payload on the client's options. */
  function Apply(o: Options, payload: seq<Byte>): Options {
    Update(o, CollectAll(NOTHING, Decode(payload)))
  }

  lemma UpdateOne(o: Options, p: PartialOptions, e: Entry)
    ensures Update(o, Collect(p, e)) == Assign(Update(o, p), e)
  {
    match e.0 {
      case 1 =>
      case 2 =>
      case 3 =>
      case 4 =>
      case 5 =>
      case 6 =>
      case _ =>
    }
  }

  lemma {:induction false} UpdateCollected(o: Options, p: PartialOptions, entries: seq<Entry>)
    ensures Update(o, CollectAll(p, entries)) == AssignAll(Update(o, p), entries)
    decreases entries
  {
    if entries != [] {
      UpdateOne(o, p, entries[0]);
      hide Update, Collect, Assign;
      UpdateCollected(o, Collect(p, entries[0]), entries[1..]);
    }
  }

  /** Collecting first and updating once equals the one-entry-at-a-time order. */
  lemma ApplyIsInOrder(o: Options, payload: seq<Byte>)
    ensures Apply(o, payload) == AssignAll(o, Decode(payload))
  {
    UpdateCollected(o, NOTHING, Decode(payload));
  }

  lemma {:induction false} AssignAllAppend(o: Options, a: seq<Entry>, b: seq<Entry>)
    ensures AssignAll(o, a + b) == AssignAll(AssignAll(o, a), b)
    decreases a
  {
    if a == [] {
      assert a + b == b;
    } else {
      assert (a + b)[1..] == a[1..] + b;
      AssignAllAppend(Assign(o, a[0]), a[1..], b);
    }
  }

  /** One long SETTINGS payload acts like two short ones, cut anywhere between entries. */
  lemma ApplyConcatenation(o: Options, a: seq<Byte>, b: seq<Byte>)
    requires |a| % 6 == 0
    ensures Apply(o, a + b) == Apply(Apply(o, a), b)
  {
    DecodeAppend(a, b);
    AssignAllAppend(o, Decode(a), Decode(b));
    ApplyIsInOrder(o, a + b);
    ApplyIsInOrder(o, a);
    ApplyIsInOrder(Apply(o, a), b);
  }

  // ---- validation ----

  datatype Parameter =
    | HeaderTableSize(value: U32) | EnablePush(value: U32) | MaxConcurrentStreams(value: U32)
    | InitialWindowSize(value: U32) | MaxFrameSize(value: U32) | MaxHeaderListSize(value: U32)

  function Known(e: Entry): seq<Parameter> {
    match e.0
    case 1 => [HeaderTableSize(e.1)]
    case 2 => [EnablePush(e.1)]
    case 3 => [MaxConcurrentStreams(e.1)]
    case 4 => [InitialWindowSize(e.1)]
    case 5 => [MaxFrameSize(e.1)]
    case 6 => [MaxHeaderListSize(e.1)]
    case _ => []
  }

  function KnownAll(entries: seq<Entry>): seq<Parameter> {
    if entries == [] then [] else Known(entries[0]) + KnownAll(entries[1..])
  }

  lemma Reassociate<T>(a: seq<T>, b: seq<T>, c: seq<T>)
    ensures a + (b + c) == a + b + c
  {}

  lemma KnownAllStep(raw: seq<Parameter>, rest: seq<Byte>)
    requires |rest| >= 6
    ensures raw + KnownAll(Decode(rest)) == raw + Known((Get16(rest), Get32(rest[2..]))) + KnownAll(Decode(rest[6..]))
  {
    var e, entries := (Get16(rest), Get32(rest[2..])), Decode(rest);
    assert entries[0] == e && entries[1..] == Decode(rest[6..]);
    Reassociate(raw, Known(e), KnownAll(Decode(rest[6..])));
  }

  method RawOptions(payload: seq<Byte>) returns (raw: seq<Parameter>)
    ensures raw == KnownAll(Decode(payload))
  {
    raw := [];
    var rest := payload;
    while |rest| >= 6
      invariant raw + KnownAll(Decode(rest)) == KnownAll(Decode(payload))
      decreases |rest|
    {
      var id, v := Get16(rest), Get32(rest[2..]);
      KnownAllStep(raw, rest);
      raw := raw + Known((id, v));
      rest := rest[6..];
    }
  }

  /** The ranges of section 6.5.2. */
  predicate InRange(e: Entry) {
    && (e.0 == 2 ==> e.1 <= 1)
    && (e.0 == 4 ==> e.1 <= TWO_31 - 1)
    && (e.0 == 5 ==> 16384 <= e.1 <= TWO_24 - 1)
  }

  function Fault(p: Parameter): Option<Error> {
    match p
    case EnablePush(v) => if v > 1 then Some(ConnectionError(ProtocolError)) else None
    case InitialWindowSize(v) => if v > TWO_31 - 1 then Some(ConnectionError(FlowControlError)) else None
    case MaxFrameSize(v) => if v > TWO_24 - 1 || v < 16384 then Some(ConnectionError(ProtocolError)) else None
    case _ => None
  }

  function FirstFault(ps: seq<Parameter>): Option<Error> {
    if ps == [] then None else if Fault(ps[0]).Some? then Fault(ps[0]) else FirstFault(ps[1..])
  }

  function Verdict(sid: U32, payload: seq<Byte>): Option<Error> {
    if sid != 0 then Some(ConnectionError(ProtocolError))
    else if |payload| % 6 != 0 then Some(ConnectionError(FrameSizeError))
    else FirstFault(KnownAll(Decode(payload)))
  }

  /** `SettingsFrameHandler::validate`. */
  method Validate(sid: U32, payload: seq<Byte>) returns (r: Option<Error>)
    ensures r == Verdict(sid, payload)
  {
    if sid != 0 {
      return Some(ConnectionError(ProtocolError));
    }
    if |payload| % 6 != 0 {
      return Some(ConnectionError(FrameSizeError));
    }
    var raw := RawOptions(payload);
    for i := 0 to |raw|
      invariant FirstFault(raw[i..]) == FirstFault(raw)
    {
      assert raw[i..][1..] == raw[i + 1..];
      if Fault(raw[i]).Some? {
        return Fault(raw[i]);
      }
    }
    return None;
  }

  /** The frame is accepted exactly when it is on stream 0, holds whole entries, and each is in range. */
  lemma VerdictIsRange(sid: U32, payload: seq<Byte>)
    ensures Verdict(sid, payload) == None <==>
      sid == 0 && |payload| % 6 == 0 && forall e :: e in Decode(payload) ==> InRange(e)
  {
    NoFaultIsRange(Decode(payload));
  }

  lemma OneFault(e: Entry, rest: seq<Parameter>)
    ensures FirstFault(Known(e) + rest) == None <==> InRange(e) && FirstFault(rest) == None
  {
    if Known(e) == [] {
      assert Known(e) + rest == rest;
    } else {
      assert Known(e) == [Known(e)[0]] && (Known(e) + rest)[0] == Known(e)[0] && (Known(e) + rest)[1..] == rest;
    }
  }

  lemma {:induction false} NoFaultIsRange(entries: seq<Entry>)
    ensures FirstFault(KnownAll(entries)) == None <==> forall e :: e in entries ==> InRange(e)
  {
    if entries != [] {
      NoFaultIsRange(entries[1..]);
      OneFault(entries[0], KnownAll(entries[1..]));
      assert forall x :: x in entries <==> x == entries[0] || x in entries[1..];
      hide FirstFault, InRange, Known;
    }
  }

  /** The client limits the server works with are always legal. */
  predicate Legal(o: Options) {
    o.initialWindowSize <= TWO_31 - 1 && 16384 <= o.maxFrameSize <= TWO_24 - 1
  }

  lemma {:induction false} AssignAllKeepsLegal(o: Options, entries: seq<Entry>)
    requires Legal(o) && forall e :: e in entries ==> InRange(e)
    ensures Legal(AssignAll(o, entries))
    decreases entries
  {
    if entries != [] {
      assert entries[0] in entries;
      AssignAllKeepsLegal(Assign(o, entries[0]), entries[1..]);
    }
  }

  /** An accepted SETTINGS frame keeps them legal. */
  lemma ApplyKeepsLegal(o: Options, sid: U32, payload: seq<Byte>)
    requires Legal(o) && Verdict(sid, payload) == None
    ensures Legal(Apply(o, payload))
  {
    VerdictIsRange(sid, payload);
    ApplyIsInOrder(o, payload);
    AssignAllKeepsLegal(o, Decode(payload));
  }

  // ---- the frame that goes out ----

  /** `TryInto<Bytes>` decodes a payload and re-encodes it, so trailing octets never reach the wire. */
  method Reencode(payload: seq<Byte>) returns (buf: seq<Byte>)
    ensures buf == payload[..|payload| - |payload| % 6]
  {
    var entries := DecodePayload(payload);
    buf := EncodePayload(entries);
    EncodeDecode(payload);
  }
}
