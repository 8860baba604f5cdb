/** What travels over the channels between the connection task and the stream tasks. */
module Messages {
  import opened Wrappers
  import opened Bytes
  import opened Frames
  import opened RequestContext
  import HeaderBlock

  type Headers = HeaderBlock.Headers

  datatype CountCommand = Increment | Decrement | Keep

  /** Connection to stream. A response carries its header block as the HPACK encoder left it. */
  datatype ToStream =
    | FrameForRequest(frame: Frame)
    | ResponseObject(encodedHeaders: seq<Byte>, body: Option<seq<Byte>>)
    | HeadersDecoded(headers: Headers, maybeTrailer: set<string>)
    | TrailersDecoded(headers: Headers)

  /** Stream to connection. */
  datatype ToConn =
    | RequestForDispatch(ctx: Context, sid: U32)
    | DoResponse(frames: seq<Frame>, sid: U32)
    | HeadersToDecode(payload: seq<Byte>, sid: U32)
    | TrailersToDecode(payload: seq<Byte>, declared: set<string>, sid: U32)
    | Failure(error: Error)
    | ActiveStreamCount(command: CountCommand, sid: U32)
}
