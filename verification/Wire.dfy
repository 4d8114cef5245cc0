/**
 The ExtProc messages exchanged with Envoy, as values.

 Text and body bytes share one type: a `Bytes` holds one `char` per byte, so a string
 literal stands for its own bytes.
 */
module Wire {

  type Bytes = seq<char>

  datatype Option<+T> = None | Some(value: T)

  /** Direction of a message within one HTTP exchange. */
  datatype Side = RequestSide | ResponseSide

  /** Body processing modes the server accepts. BUFFERED_PARTIAL is rejected while parsing. */
  datatype BodyMode = NoBody | Streamed | Buffered | FullDuplex

  /** One header as Envoy sends it; a non-empty `rawValue` takes precedence. */
  datatype HeaderValue = HeaderValue(key: Bytes, value: Bytes, rawValue: Bytes)

  /** One request variant; the side says which half of the exchange it belongs to. */
  datatype Message =
    | Headers(side: Side, headers: seq<HeaderValue>, endOfStream: bool)
    | Body(side: Side, body: Bytes, endOfStream: bool)
    | Trailers(side: Side)

  datatype AppendAction = AppendIfExistsOrAdd | OverwriteIfExistsOrAdd

  datatype HeaderOption = HeaderOption(key: Bytes, value: Bytes, action: AppendAction)

  datatype HeaderMutation = HeaderMutation(setHeaders: seq<HeaderOption>, removeHeaders: seq<Bytes>)

  /** `Replace` is full replacement; `Chunk` is the streamed wire format of full duplex. */
  datatype BodyMutation = Replace(bytes: Bytes) | Chunk(bytes: Bytes, endOfStream: bool)

  datatype CommonResponse = CommonResponse(
    headerMutation: Option<HeaderMutation>,
    bodyMutation: Option<BodyMutation>,
    clearRouteCache: bool)

  /** The server's own fixed reply texts. */
  datatype Notice =
    | NoText
    | BufferingNeedsFinalBody
    | ResponseBodyRequired
    | BytesForHeadersOnlyRequest
    | GuardrailsNotInFullDuplex
    | SelectedNotInFullDuplex
    | SelectedNeedsBuffered
    | AmbiguousSelection
    | RequestTooLarge
    | SelectedRequestTooLarge

  /** The body of an immediate response: what a filter supplied, or a fixed text. */
  datatype ReplyText = Supplied(bytes: Bytes) | Fixed(notice: Notice)

  datatype ImmediateResponse = ImmediateResponse(
    status: int,
    headers: Option<HeaderMutation>,
    body: ReplyText)

  /** Processing-mode override that may ride on a request-headers reply. */
  datatype ModeOverride = ModeOverride(requestMode: BodyMode, responseMode: BodyMode)

  datatype Payload =
    | HeadersReply(side: Side, common: CommonResponse)
    | BodyReply(side: Side, common: CommonResponse)
    | TrailersReply(side: Side)
    | Immediate(immediate: ImmediateResponse)

  datatype Reply = Reply(payload: Payload, modeOverride: Option<ModeOverride>)

  /** Reasons a stream ends with a gRPC status instead of a reply. */
  datatype Status =
    | MissingRequestHeaders
    | MissingResponseHeaders
    | ContextMissing
    | ContextAlreadyPresent
    | OutOfOrder
    | RequestAfterLocalReply
    | BodyInNoneMode
    | BodyAfterHeadersEos
    | DuplicateAfterEos
    | LocalReplyRequest
    | FilterError
    | BodyTooLarge
    | LateProtocolConfig
    | UnsupportedBodyMode
    | TransportError

  datatype Result<+T> = Ok(value: T) | Err(status: Status)

  /** Largest value of the source's machine word. */
  const USIZE_MAX: nat := 0xFFFF_FFFF_FFFF_FFFF

  /** Saturating addition of two machine words. */
  function SaturatingAdd(a: nat, b: nat): (sum: nat)
    ensures a + b <= USIZE_MAX ==> sum == a + b
    ensures sum <= USIZE_MAX
  {
    if a + b <= USIZE_MAX then a + b else USIZE_MAX
  }
}
