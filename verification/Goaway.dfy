/** GOAWAY payloads (RFC 7540 section 6.8) with the mask the code really uses. */
module Goaway {
  import opened Wrappers
  import opened Bytes
  import opened Frames

  /** `with_error`: the last stream id is kept to 27 bits, the constant being `0x7FFF_FFF`. */
  function WithError(lastStreamId: U32, code: ErrorCode): Frame {
    Plain(GoAway, 0, Put32(lastStreamId % TWO_27) + Put32(Code(code)))
  }

  /** `decode_payload_static`; None is a read past the end. */
  function DecodePayload(payload: seq<Byte>): Option<(U32, U32)> {
    if |payload| < 8 then None else Some((Get32(payload) % TWO_27, Get32(payload[4..])))
  }

  /** The error code always survives; the stream id survives exactly below 2^27, short of the 31 bits of the RFC. */
  lemma RoundTrip(lastStreamId: U32, code: ErrorCode)
    ensures DecodePayload(WithError(lastStreamId, code).payload).Some?
    ensures DecodePayload(WithError(lastStreamId, code).payload).value.1 == Code(code)
    ensures DecodePayload(WithError(lastStreamId, code).payload).value.0 == lastStreamId <==> lastStreamId < TWO_27
  {
    hide Put32, Get32;
    var p := WithError(lastStreamId, code).payload;
    GetPut32(lastStreamId % TWO_27, Put32(Code(code)));
    GetPut32(Code(code), []);
    assert p[4..] == Put32(Code(code)) + [];
  }
}
