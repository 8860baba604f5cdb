/** The HEADERS payload layout of RFC 7540 section 6.2, Figure 7, and its decoder. */
module HeadersPayload {
  import opened Wrappers
  import opened Bytes
  import opened Frames

  /** Octets in front of the fragment: pad length, then dependency and weight. */
  function PrefixLength(padded: bool, priority: bool): nat {
    (if padded then 1 else 0) + (if priority then 5 else 0)
  }

  function PadLength(padded: bool, payload: seq<Byte>): nat
    requires padded ==> |payload| >= 1
  {
    if padded then payload[0] else 0
  }

  /** Enough octets for the flags and for the announced padding. */
  predicate LongEnough(padded: bool, priority: bool, payload: seq<Byte>) {
    && |payload| >= PrefixLength(padded, priority)
    && |payload| >= PrefixLength(padded, priority) + PadLength(padded, payload)
  }

  /** What decoding yields; None is a read past the end, which stops the connection task. */
  function Decode(padded: bool, priority: bool, payload: seq<Byte>): Option<HeaderParams> {
    if !LongEnough(padded, priority, payload) then None
    else
      var start := PrefixLength(padded, priority);
      var pad := PadLength(padded, payload);
      var fields := if padded then payload[1..] else payload;
      Some(HeaderParams(
        if padded then Some(payload[0]) else None,
        if priority then Some(Get32(fields) >= TWO_31) else None,
        if priority then Some(Get32(fields) % TWO_31) else None,
        if priority then Some(fields[4] as int + 1) else None,
        payload[start..|payload| - pad]))
  }

  /** `decode_payload_and_value`: a cursor moves over the payload and fills the parameters. */
  method DecodePayloadAndValue(padded: bool, priority: bool, payload: seq<Byte>) returns (r: Option<HeaderParams>)
    ensures r == Decode(padded, priority, payload)
  {
    hide Get32;
    var rest := payload;
    var pad := 0;
    var params := HeaderParams(None, None, None, None, []);
    if padded {
      if |rest| < 1 {
        return None;
      }
      params := params.(padLength := Some(rest[0]));
      pad := rest[0];
      rest := rest[1..];
    }
    if priority {
      if |rest| < 4 {
        return None;
      }
      ghost var fields := rest;
      var raw := Get32(rest);
      rest := rest[4..];
      if |rest| < 1 {
        return None;
      }
      params := params.(exclusive := Some(raw >= TWO_31), dependency := Some(raw % TWO_31), weight := Some(rest[0] as int + 1));
      rest := rest[1..];
      assert rest == fields[5..];
    }
    if |rest| < pad {
      return None;
    }
    assert rest == payload[PrefixLength(padded, priority)..] by {
      if padded && priority {
        assert payload[1..][5..] == payload[6..];
      }
    }
    params := params.(fragment := rest[..|rest| - pad]);
    assert params.fragment == payload[PrefixLength(padded, priority)..|payload| - pad];
    return Some(params);
  }

  datatype PriorityFields = PriorityFields(exclusive: bool, dependency: U32, weight: int)

  predicate ValidPriority(p: PriorityFields) {
    p.dependency < TWO_31 && 1 <= p.weight <= 256
  }

  /** The sender's side of Figure 7. */
  function Layout(padding: Option<seq<Byte>>, priority: Option<PriorityFields>, fragment: seq<Byte>): seq<Byte>
    requires padding.Some? ==> |padding.value| < 0x100
    requires priority.Some? ==> ValidPriority(priority.value)
  {
    (if padding.Some? then [|padding.value|] else [])
    + PriorityOctets(priority)
    + fragment
    + (if padding.Some? then padding.value else [])
  }

  function PriorityOctets(priority: Option<PriorityFields>): seq<Byte>
    requires priority.Some? ==> ValidPriority(priority.value)
  {
    match priority
    case None => []
    case Some(p) => Put32(if p.exclusive then TWO_31 + p.dependency else p.dependency) + [p.weight - 1]
  }

  function ParamsOf(padding: Option<seq<Byte>>, priority: Option<PriorityFields>, fragment: seq<Byte>): HeaderParams
    requires padding.Some? ==> |padding.value| < 0x100
  {
    HeaderParams(
      if padding.Some? then Some(|padding.value|) else None,
      if priority.Some? then Some(priority.value.exclusive) else None,
      if priority.Some? then Some(priority.value.dependency) else None,
      if priority.Some? then Some(priority.value.weight) else None,
      fragment)
  }

  lemma DecodePriorityOctets(p: PriorityFields, tail: seq<Byte>)
    requires ValidPriority(p)
    ensures var fields := PriorityOctets(Some(p)) + tail;
      && (Get32(fields) >= TWO_31 <==> p.exclusive)
      && Get32(fields) % TWO_31 == p.dependency
      && fields[4] as int + 1 == p.weight
  {
    var raw := if p.exclusive then TWO_31 + p.dependency else p.dependency;
    var fields := PriorityOctets(Some(p)) + tail;
    assert fields == Put32(raw) + ([p.weight - 1] + tail);
    GetPut32(raw, [p.weight - 1] + tail);
  }

  lemma Pieces(pre: seq<Byte>, octets: seq<Byte>, fragment: seq<Byte>, pad: seq<Byte>)
    ensures var payload := pre + octets + fragment + pad;
      && |payload| == |pre| + |octets| + |fragment| + |pad|
      && payload[|pre|..] == octets + (fragment + pad)
      && payload[|pre| + |octets|..|payload| - |pad|] == fragment
      && (pre != [] ==> payload[0] == pre[0])
  {}

  /** Decoding what was laid out returns every field, whatever octets pad it. */
  lemma DecodeLayout(padding: Option<seq<Byte>>, priority: Option<PriorityFields>, fragment: seq<Byte>)
    requires padding.Some? ==> |padding.value| < 0x100
    requires priority.Some? ==> ValidPriority(priority.value)
    ensures Decode(padding.Some?, priority.Some?, Layout(padding, priority, fragment)) == Some(ParamsOf(padding, priority, fragment))
  {
    var pre, pad := if padding.Some? then [|padding.value|] else [], if padding.Some? then padding.value else [];
    var octets, payload := PriorityOctets(priority), Layout(padding, priority, fragment);
    assert |octets| == if priority.Some? then 5 else 0;
    Pieces(pre, octets, fragment, pad);
    if priority.Some? {
      DecodePriorityOctets(priority.value, fragment + pad);
    }
    hide PriorityOctets, Get32;
    assert payload[|pre|..] == if padding.Some? then payload[1..] else payload;
  }

  lemma TopBit(raw: U32)
    ensures raw == if raw >= TWO_31 then TWO_31 + raw % TWO_31 else raw % TWO_31
  {}

  /** The five octets of dependency and weight are those of the fields read from them. */
  lemma PriorityBack(fields: seq<Byte>)
    requires |fields| >= 5
    ensures var p := PriorityFields(Get32(fields) >= TWO_31, Get32(fields) % TWO_31, fields[4] as int + 1);
      ValidPriority(p) && PriorityOctets(Some(p)) == fields[..5]
  {
    hide Get32, Put32;
    PutGet32(fields);
    TopBit(Get32(fields));
    assert fields[..5] == fields[..4] + [fields[4]];
  }

  /** Every payload that decodes was laid out from the decoded fields and the octets left over. */
  lemma LayoutDecode(padded: bool, priority: bool, payload: seq<Byte>)
    ensures Decode(padded, priority, payload).Some? <==> LongEnough(padded, priority, payload)
    ensures Decode(padded, priority, payload).Some? ==>
      var d := Decode(padded, priority, payload).value;
      var padding := if padded then Some(payload[|payload| - payload[0]..]) else None;
      var fields := if priority then Some(PriorityFields(d.exclusive.value, d.dependency.value, d.weight.value)) else None;
      && (fields.Some? ==> ValidPriority(fields.value))
      && payload == Layout(padding, fields, d.fragment)
  {
    if LongEnough(padded, priority, payload) {
      var d := Decode(padded, priority, payload).value;
      var start := PrefixLength(padded, priority);
      Cut(payload, start, |payload| - PadLength(padded, payload));
      if priority {
        PriorityBack(if padded then payload[1..] else payload);
      }
      if padded {
        assert payload[..start] == [payload[0]] + payload[1..start] && payload[1..start] == payload[1..][..start - 1];
      }
    }
    hide Get32, PriorityOctets;
  }

  lemma Cut(payload: seq<Byte>, i: nat, j: nat)
    requires i <= j <= |payload|
    ensures payload == payload[..i] + payload[i..j] + payload[j..]
  {}
}
