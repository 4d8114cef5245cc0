/**
 One ExtProc stream as a value: the state, the effect of one message, and whole runs
 (`src/server.rs`, `src/handlers.rs`, `src/pipeline.rs`). The stateful server of
 `Pipeline`, `Handlers` and `Server` is proved to compute exactly these functions.

 A step answers with a structured batch: for one direction, at most one headers reply,
 then body replies, then at most one trailers reply; or a single immediate response.
 */
module StreamSpec {
  import opened Wire
  import opened HeaderMaps
  import opened Filters
  import opened Guardrails
  import opened Sequencing
  import opened Chunking

  // ---------------------------------------------------------------------------
  // State
  // ---------------------------------------------------------------------------

  /** What the stream remembers about one direction. */
  datatype Half = Half(
    mode: BodyMode,
    furthest: Option<PhaseStep>,
    headersState: PhaseState,
    bodyState: PhaseState,
    body: Bytes,
    bodySeen: bool,
    executed: bool,
    sent: bool,
    deferred: Option<HeaderMutation>)

  datatype Stream = MkStream(
    carried: Option<Carried>,
    request: Option<seq<HeaderValue>>,
    response: Option<HeaderMap>,
    req: Half,
    resp: Half,
    streamedBytes: nat,
    bufferedProcessed: bool,
    localReply: bool,
    eagerBody: bool)
  {
    function At(side: Side): Half {
      if side.RequestSide? then req else resp
    }

    function With(side: Side, half: Half): Stream {
      if side.RequestSide? then this.(req := half) else this.(resp := half)
    }
  }

  /** Settings of the server: the pipeline's capabilities, the body ceiling, the selector. */
  datatype Config = Config(caps: Capabilities, maxBody: Option<nat>, selector: Selector)
  {
    function NeedsBody(side: Side): bool {
      if side.RequestSide? then caps.needsRequestBody else caps.needsResponseBody
    }
  }

  function NewHalf(mode: BodyMode): Half {
    Half(mode, None, Active, Active, [], false, false, false, None)
  }

  /** A stream before its first message, with the protocol configuration of that message. */
  function NewStream(requestMode: BodyMode, responseMode: BodyMode, eagerBody: bool): Stream {
    MkStream(Some(NOTHING_CARRIED), None, None, NewHalf(requestMode), NewHalf(responseMode), 0, false, false, eagerBody)
  }

  // ---------------------------------------------------------------------------
  // Replies
  // ---------------------------------------------------------------------------

  datatype Batch =
    | Halt(immediate: ImmediateResponse)
    | Answer(headers: Option<CommonResponse>, bodies: seq<CommonResponse>, trailers: bool, modeOverride: Option<ModeOverride>)

  const NOTHING := Answer(None, [], false, None)

  function HeadersOnly(common: CommonResponse): Batch {
    Answer(Some(common), [], false, None)
  }

  function BodyReplies(side: Side, commons: seq<CommonResponse>): seq<Reply> {
    seq(|commons|, i requires 0 <= i < |commons| => Reply(BodyReply(side, commons[i]), None))
  }

  /** The replies a batch stands for, in the order they are sent. */
  function Render(side: Side, batch: Batch): seq<Reply> {
    match batch
    case Halt(immediate) => [Reply(Immediate(immediate), None)]
    case Answer(headers, bodies, trailers, modeOverride) =>
      (if headers.Some? then [Reply(HeadersReply(side, headers.value), modeOverride)] else [])
      + BodyReplies(side, bodies)
      + (if trailers then [Reply(TrailersReply(side), None)] else [])
  }

  /** State, replies and hook calls of one step; an error ends the stream. */
  datatype Outcome = Outcome(st: Stream, result: Result<Batch>, calls: Calls)

  function Done(st: Stream, batch: Batch): Outcome {
    Outcome(st, Ok(batch), NO_CALLS)
  }

  function Fail(st: Stream, status: Status): Outcome {
    Outcome(st, Err(status), NO_CALLS)
  }

  // ---------------------------------------------------------------------------
  // Pipeline phases
  // ---------------------------------------------------------------------------

  /** When the full pipeline runs: at headers that end the stream, or over a body. */
  datatype Phase = AtHeaders | OverBody

  function StartStage(st: Stream, response: Option<HeaderMap>, body: Bytes): Stage
    requires st.request.Some? && st.carried.Some?
  {
    Stage(Hydrate(st.carried.value, FreshContext(st.request.value, response)), body, Go, NO_CALLS)
  }

  /** Request hooks of one phase, in order, stopping at the first that does not proceed. */
  function RequestStage(cfg: Config, oracle: Oracle, s0: Stage, executed: bool, phase: Phase, ordinary: bool): Stage {
    var s1 := if executed then s0 else HeaderStage(oracle, OnRequest, s0);
    if !s1.verdict.Go? || phase.AtHeaders? then s1 else RequestBodyStage(cfg, oracle, s1, ordinary)
  }

  /** The body part: the selected-upstream input limit is checked before any body hook. */
  function RequestBodyStage(cfg: Config, oracle: Oracle, s: Stage, ordinary: bool): Stage {
    if cfg.caps.needsSelectedBody && |s.body| > cfg.caps.selectedLimit then
      s.(verdict := Stop(Rejection(413, NoText)))
    else
      var s2 := if ordinary then BodyStage(oracle, OnRequestBody, s, true) else s;
      if s2.verdict.Go? then SelectedStage(cfg.caps, cfg.maxBody, oracle, s2) else s2
  }

  /** `build_request`. */
  function BuildRequest(st: Stream, phase: Phase, mutation: Option<HeaderMutation>, originalLen: nat, eos: bool)
    : (Stream, Batch)
  {
    var body := st.req.body;
    var sized := WithContentLength(mutation, body, originalLen);
    if phase.OverBody? && st.req.headersState.Completed? then
      if body != [] then
        (st, Halt(Rejection(500, BytesForHeadersOnlyRequest)))
      else (st.(req := st.req.(sent := true)), HeadersOnly(HeadersCommon(RequestSide, sized)))
    else if phase.AtHeaders? then (st, HeadersOnly(HeadersCommon(RequestSide, sized)))
    else (st, BodyBatch(RequestSide, st.req.mode, sized, body, eos))
  }

  /** A body answer: in full duplex the headers reply goes first and carries the mutation. */
  function BodyBatch(side: Side, mode: BodyMode, mutation: Option<HeaderMutation>, body: Bytes, eos: bool): Batch {
    if mode.FullDuplex? then
      Answer(Some(HeadersCommon(side, mutation)), BodyResponses(side, mode, Some(body), None, eos), false, None)
    else Answer(None, BodyResponses(side, mode, Some(body), mutation, eos), false, None)
  }

  /** `run_request_pipeline_inner`. */
  function RunRequest(cfg: Config, oracle: Oracle, st: Stream, phase: Phase, eos: bool, ordinary: bool): Outcome {
    if st.request.None? then Fail(st, MissingRequestHeaders)
    else if st.carried.None? then Fail(st, ContextMissing)
    else
      var s0 := StartStage(st, None, st.req.body);
      var executed := st.req.executed || HeaderStage(oracle, OnRequest, s0).verdict.Go?;
      var s := RequestStage(cfg, oracle, s0, st.req.executed, phase, ordinary);
      var st1 := st.(carried := None, req := st.req.(body := s.body, executed := executed));
      match s.verdict
      case Broken => Outcome(st1, Err(FilterError), s.calls)
      case Stop(immediate) => Outcome(st1, Ok(Halt(immediate)), s.calls)
      case Go =>
        var (st2, batch) := BuildRequest(st1.(carried := Some(Dehydrate(s.ctx))), phase, CollectRequest(s.ctx.edits), |st.req.body|, eos);
        Outcome(st2, Ok(batch), s.calls)
  }

  /** Response hooks of one phase. */
  function ResponseStage(oracle: Oracle, s0: Stage, executed: bool, phase: Phase): Stage {
    var s1 := if phase.AtHeaders? || !executed then HeaderStage(oracle, OnResponse, s0) else s0;
    if !s1.verdict.Go? || phase.AtHeaders? then s1 else BodyStage(oracle, OnResponseBody, s1, true)
  }

  /** The response diff of a context, absent when it has no response. */
  function CollectResponse(ctx: Context, original: HeaderMap): Option<HeaderMutation> {
    if ctx.response.None? then None else Diff(ctx.response.value, original)
  }

  /** The answer of a response phase; over a body, the deferred mutation goes with the current one. */
  function BuildResponse(st: Stream, ctx: Context, original: HeaderMap, originalLen: nat, phase: Phase, eos: bool): (Stream, Batch) {
    var current, body := CollectResponse(ctx, original), st.resp.body;
    if phase.AtHeaders? then
      (st, HeadersOnly(HeadersCommon(ResponseSide, WithContentLength(current, body, originalLen))))
    else
      (st.(resp := st.resp.(deferred := None)),
       BodyBatch(ResponseSide, st.resp.mode, WithContentLength(Merge(st.resp.deferred, current), body, originalLen), body, eos))
  }

  /** `run_response_pipeline`: consumes the response headers. */
  function RunResponse(oracle: Oracle, st: Stream, phase: Phase, eos: bool): Outcome {
    if st.request.None? then Fail(st, MissingRequestHeaders)
    else if st.response.None? then Fail(st, MissingResponseHeaders)
    else if st.carried.None? then Fail(st.(response := None), ContextMissing)
    else
      var original := st.response.value;
      var s := ResponseStage(oracle, StartStage(st, Some(original), st.resp.body), st.resp.executed, phase);
      var st1 := st.(carried := None, response := None, resp := st.resp.(body := s.body));
      match s.verdict
      case Broken => Outcome(st1, Err(FilterError), s.calls)
      case Stop(immediate) => Outcome(st1, Ok(Halt(immediate)), s.calls)
      case Go =>
        var (st2, batch) := BuildResponse(st1.(carried := Some(Dehydrate(s.ctx))), s.ctx, original, |st.resp.body|, phase, eos);
        Outcome(st2, Ok(batch), s.calls)
  }

  /** How a header mutation collected early reaches Envoy. */
  datatype Delivery = Send | DeferWithResponse | DeferSilent

  /** `deliver_request` and `deliver_response`. */
  function Deliver(st: Stream, side: Side, delivery: Delivery, mutation: Option<HeaderMutation>): (Stream, Batch) {
    match delivery
    case Send => (st, HeadersOnly(HeadersCommon(side, mutation)))
    case DeferWithResponse => (st.With(side, st.At(side).(deferred := mutation)), HeadersOnly(HeadersCommon(side, None)))
    case DeferSilent => (st.With(side, st.At(side).(deferred := mutation)), NOTHING)
  }

  function Delivered(st: Stream, side: Side, delivery: Delivery, mutation: Option<HeaderMutation>, calls: Calls): Outcome {
    var (st', batch) := Deliver(st, side, delivery, mutation);
    Outcome(st', Ok(batch), calls)
  }

  /** `run_request_header_filters_early`. */
  function EarlyRequest(oracle: Oracle, st: Stream, delivery: Delivery): Outcome {
    if st.request.None? then Delivered(st, RequestSide, delivery, None, NO_CALLS)
    else if st.carried.None? then Fail(st, ContextMissing)
    else
      var s := HeaderStage(oracle, OnRequest, StartStage(st, None, []));
      var st1 := st.(carried := None);
      match s.verdict
      case Broken => Outcome(st1, Err(FilterError), s.calls)
      case Stop(immediate) => Outcome(st1, Ok(Halt(immediate)), s.calls)
      case Go =>
        var st2 := st.(carried := Some(Dehydrate(s.ctx)), req := st.req.(executed := true));
        Delivered(st2, RequestSide, delivery, CollectRequest(s.ctx.edits), s.calls)
  }

  /** `run_response_header_filters_early`: the response headers stay in the state, as filtered. */
  function EarlyResponse(oracle: Oracle, st: Stream, delivery: Delivery): Outcome {
    if st.request.None? || st.response.None? then Delivered(st, ResponseSide, delivery, None, NO_CALLS)
    else if st.carried.None? then Fail(st, ContextMissing)
    else
      var original := st.response.value;
      var s := HeaderStage(oracle, OnResponse, StartStage(st, Some(original), []));
      var st1 := st.(carried := None, response := s.ctx.response);
      match s.verdict
      case Broken => Outcome(st1, Err(FilterError), s.calls)
      case Stop(immediate) => Outcome(st1, Ok(Halt(immediate)), s.calls)
      case Go =>
        if st.resp.mode.NoBody? && s.ctx.shared.responseBodyMode.StreamBuffer? then
          Outcome(st1, Ok(Halt(Rejection(502, ResponseBodyRequired))), s.calls)
        else
          var st2 := st1.(carried := Some(Dehydrate(s.ctx)), resp := st.resp.(executed := true));
          Delivered(st2, ResponseSide, delivery, CollectResponse(s.ctx, original), s.calls)
  }

  // ---------------------------------------------------------------------------
  // Streamed chunks
  // ---------------------------------------------------------------------------

  /** `passthrough_chunk`: no filters; the first chunk carries the deferred headers reply. */
  function Passthrough(st: Stream, side: Side, chunk: Bytes, eos: bool): Outcome {
    var half := st.At(side);
    var bodies := BodyResponses(side, half.mode, if chunk == [] then None else Some(chunk), None, eos);
    if half.sent then Done(st, Answer(None, bodies, false, None))
    else Done(st.With(side, half.(sent := true, deferred := None)),
              Answer(Some(HeadersCommon(side, half.deferred)), bodies, false, None))
  }

  predicate OverLimit(total: nat, limit: Option<nat>) {
    limit.Some? && total > limit.value
  }

  /** `buffer_response_chunk`: the chunk to filter now and the bytes still held, or nothing when too large. */
  function HoldBack(mode: FilterBodyMode, chunk: Bytes, held: Bytes, eos: bool, maxBody: Option<nat>): Option<(Bytes, Bytes)> {
    match mode
    case Stream => Some((chunk, held))
    case StreamBuffer(maxBytes) =>
      var total := SaturatingAdd(|held|, |chunk|);
      if OverLimit(total, maxBytes) || OverLimit(total, maxBody) then None
      else if eos then Some((held + chunk, [])) else Some(([], held + chunk))
  }

  function BodyKind(side: Side): HookKind {
    if side.RequestSide? then OnRequestBody else OnResponseBody
  }

  /** `process_streamed_body_chunk`. */
  function StreamedChunk(cfg: Config, oracle: Oracle, st: Stream, side: Side, chunk: Bytes, eos: bool): Outcome {
    if st.request.None? then Fail(st, MissingRequestHeaders)
    else if side.ResponseSide? && st.response.None? then Fail(st, MissingResponseHeaders)
    else if st.carried.None? then Fail(st, ContextMissing)
    else
      var s0 := StartStage(st, if side.RequestSide? then None else st.response, chunk);
      var input := if side.RequestSide? then Some((chunk, st.resp.body))
                   else HoldBack(s0.ctx.shared.responseBodyMode, chunk, st.resp.body, eos, cfg.maxBody);
      if input.None? then Fail(st.(carried := None), BodyTooLarge)
      else
        var s := BodyStage(oracle, BodyKind(side), s0.(body := input.value.0), eos);
        var st1 := st.(carried := None,
                       response := if side.RequestSide? then st.response else s.ctx.response,
                       resp := st.resp.(body := input.value.1));
        match s.verdict
        case Broken => Outcome(st1, Err(FilterError), s.calls)
        case Stop(immediate) => Outcome(st1, Ok(Halt(immediate)), s.calls)
        case Go =>
          var data := if s.body != [] then Some(s.body) else if chunk != [] then Some([]) else None;
          Outcome(st1.(carried := Some(Dehydrate(s.ctx))),
                  Ok(Answer(None, BodyResponses(side, st.At(side).mode, data, None, eos), false, None)), s.calls)
  }

  /** `flush_streamed_body_filters`: the end-of-stream call when trailers close the body. */
  function FlushStreamed(oracle: Oracle, st: Stream, side: Side): Outcome {
    if side.ResponseSide? && st.resp.body != [] then
      Done(st, Halt(Rejection(502, BufferingNeedsFinalBody)))
    else if st.request.None? then Fail(st, MissingRequestHeaders)
    else if side.ResponseSide? && st.response.None? then Fail(st, MissingResponseHeaders)
    else if st.carried.None? then Fail(st, ContextMissing)
    else
      var ctx := StartStage(st, if side.RequestSide? then None else st.response, []).ctx;
      var c := Invoke(oracle, BodyKind(side), ctx, None, true);
      var calls := NO_CALLS.(body := Some(c));
      var st1 := st.(carried := if c.verdict.Broken? then None else Some(Dehydrate(c.after)),
                     response := if side.RequestSide? then st.response else c.after.response);
      match c.verdict
      case Broken => Outcome(st1, Err(FilterError), calls)
      case Stop(immediate) => Outcome(st1, Ok(Halt(immediate)), calls)
      case Go => Outcome(st1, Ok(NOTHING), calls)
  }

  // ---------------------------------------------------------------------------
  // Plans: which phase a message triggers, and on which state
  // ---------------------------------------------------------------------------

  /** Either the step is settled without filters, or exactly one phase runs. */
  datatype Plan =
    | Settle(outcome: Outcome)
    | FullRequest(st: Stream, phase: Phase, eos: bool, ordinary: bool)
    | FullResponse(st: Stream, phase: Phase, eos: bool)
    | HeadersEarly(st: Stream, side: Side, delivery: Delivery)
    | FilterChunk(st: Stream, side: Side, chunk: Bytes, eos: bool)
    | Flush(st: Stream, side: Side)

  function Execute(cfg: Config, oracle: Oracle, plan: Plan): Outcome {
    match plan
    case Settle(outcome) => outcome
    case FullRequest(st, phase, eos, ordinary) => RunRequest(cfg, oracle, st, phase, eos, ordinary)
    case FullResponse(st, phase, eos) => RunResponse(oracle, st, phase, eos)
    case HeadersEarly(st, side, delivery) =>
      if side.RequestSide? then EarlyRequest(oracle, st, delivery) else EarlyResponse(oracle, st, delivery)
    case FilterChunk(st, side, chunk, eos) => StreamedChunk(cfg, oracle, st, side, chunk, eos)
    case Flush(st, side) => FlushStreamed(oracle, st, side)
  }

  /** The state a plan starts from, or ends in when no phase runs. */
  function PlanState(plan: Plan): Stream {
    if plan.Settle? then plan.outcome.st else plan.st
  }

  /** Planning moves neither the parked context nor the modes, and calls no hook. */
  predicate PlanFrame(st: Stream, plan: Plan) {
    && PlanState(plan).carried == st.carried
    && PlanState(plan).req.mode == st.req.mode && PlanState(plan).resp.mode == st.resp.mode
    && (plan.Settle? ==> plan.outcome.calls == NO_CALLS)
    && (plan.Settle? && plan.outcome.result.Ok? && plan.outcome.result.value.Answer? ==>
          plan.outcome.result.value.modeOverride.None?)
  }

  function Settled(st: Stream, batch: Batch): Plan {
    Settle(Done(st, batch))
  }

  function Refused(st: Stream, status: Status): Plan {
    Settle(Fail(st, status))
  }

  /** `EosTracker::check_and_mark` on one direction. */
  function Mark(half: Half, step: PhaseStep, eos: bool): (Half, Result<PhaseState>) {
    var state := if step.BodyStep? then half.bodyState else half.headersState;
    if state.Completed? then (half, Ok(Completed))
    else if step.BodyStep? && half.headersState.Completed? then (half, Err(BodyAfterHeadersEos))
    else if !eos then (half, Ok(Active))
    else (if step.BodyStep? then half.(bodyState := Completed) else half.(headersState := Completed), Ok(Active))
  }

  /** The chain has selected-upstream hooks that the request mode cannot feed; the headers are refused after filtering. */
  predicate SelectedUnsupported(cfg: Config, mode: BodyMode) {
    cfg.caps.needsSelectedBody && (mode.NoBody? || mode.Streamed?)
  }

  /** `handle_request_headers_with_body`. */
  function RequestHeadersWithBodyPlan(cfg: Config, st: Stream): (plan: Plan)
    ensures PlanFrame(st, plan)
  {
    var mode := st.req.mode;
    if SelectedUnsupported(cfg, mode) then HeadersEarly(st, RequestSide, DeferSilent)
    else
      match mode
      case NoBody => HeadersEarly(st.(req := st.req.(sent := true)), RequestSide, Send)
      case Streamed => HeadersEarly(st.(req := st.req.(sent := true)), RequestSide, Send)
      case FullDuplex =>
        if !cfg.caps.needsRequestBody then HeadersEarly(st, RequestSide, DeferSilent) else Settled(st, NOTHING)
      case Buffered => Settled(st.(req := st.req.(sent := true)), HeadersOnly(HeadersCommon(RequestSide, None)))
  }

  /** Request headers that passed admission. */
  function AdmittedHeadersPlan(cfg: Config, st: Stream, headers: seq<HeaderValue>, eos: bool): (plan: Plan)
    ensures PlanFrame(st, plan)
  {
    if (st.req.mode.FullDuplex? || st.resp.mode.FullDuplex?) && HasSelectedGuardrail(cfg.selector, headers) then
      Settled(st, Halt(Rejection(500, GuardrailsNotInFullDuplex)))
    else if eos then
      if cfg.caps.needsSelectedBody then FullRequest(st, OverBody, true, false)
      else FullRequest(st, AtHeaders, true, true)
    else if st.req.mode.FullDuplex? && cfg.caps.needsSelectedBody then
      Settled(st, Halt(Rejection(500, SelectedNotInFullDuplex)))
    else RequestHeadersWithBodyPlan(cfg, st)
  }

  /** `handle_request_headers`. */
  ghost function RequestHeadersPlan(cfg: Config, st: Stream, headers: seq<HeaderValue>, eos: bool): (plan: Plan)
    ensures PlanFrame(st, plan)
  {
    var (half, entry) := Mark(st.req, HeadersStep, eos);
    if entry == Ok(Completed) then Refused(st, DuplicateAfterEos)
    else if !Admitted(headers) then Settled(st.(req := half), Halt(Rejection(400, AmbiguousSelection)))
    else
      AdmittedHeadersPlan(cfg, st.(req := half, request := Some(headers)), headers, eos)
  }

  /** `request_body_limit_exceeded`. */
  function OversizedRequest(cfg: Config): Batch {
    Halt(Rejection(413, if cfg.caps.needsSelectedBody then SelectedRequestTooLarge else RequestTooLarge))
  }

  /** `accumulate_request_body`: BUFFERED runs the pipeline on every message, full duplex at the end. */
  function AccumulateRequestPlan(cfg: Config, st: Stream, chunk: Bytes, eos: bool): (plan: Plan)
    ensures PlanFrame(st, plan)
  {
    if OverLimit(SaturatingAdd(|st.req.body|, |chunk|), cfg.maxBody) then Settled(st, OversizedRequest(cfg))
    else
      var st1 := st.(req := st.req.(body := st.req.body + chunk));
      if !eos && !st.req.mode.Buffered? then Settled(st1, NOTHING)
      else FullRequest(st1.(bufferedProcessed := st.req.mode.Buffered?), OverBody, eos, true)
  }

  /** `handle_body_redelivery`: after the end of stream only full duplex tolerates a body message. */
  function RedeliveryPlan(st: Stream, mode: BodyMode): (plan: Plan)
    ensures PlanFrame(st, plan)
  {
    if mode.FullDuplex? then Settled(st, NOTHING) else Refused(st, DuplicateAfterEos)
  }

  /** A chunk that is not held: counted against the ceiling, then filtered or passed through. */
  function CountedRequestPlan(cfg: Config, st: Stream, chunk: Bytes, eos: bool): (plan: Plan)
    ensures PlanFrame(st, plan)
  {
    var total := SaturatingAdd(st.streamedBytes, |chunk|);
    if OverLimit(total, cfg.maxBody) then Settled(st, OversizedRequest(cfg))
    else
      var counted := st.(streamedBytes := total);
      if cfg.caps.needsRequestBody then FilterChunk(counted, RequestSide, chunk, eos)
      else Settle(Passthrough(counted, RequestSide, chunk, eos))
  }

  /** `handle_request_body`. */
  function RequestBodyPlan(cfg: Config, st: Stream, chunk: Bytes, eos: bool): (plan: Plan)
    ensures PlanFrame(st, plan)
  {
    var st0 := st.(req := st.req.(bodySeen := true));
    var (half, entry) := Mark(st0.req, BodyStep, eos);
    match entry
    case Err(status) => Refused(st0, status)
    case Ok(Completed) => RedeliveryPlan(st0, half.mode)
    case Ok(Active) =>
      var st1 := st0.(req := half);
      if half.mode.Streamed? || (half.mode.FullDuplex? && !cfg.caps.needsRequestBody) then
        CountedRequestPlan(cfg, st1, chunk, eos)
      else AccumulateRequestPlan(cfg, st1, chunk, eos)
  }

  /** Response headers that announce a body, by mode and body needs. */
  function OpenResponsePlan(cfg: Config, st: Stream): (plan: Plan)
    ensures PlanFrame(st, plan)
  {
    match st.resp.mode
    case NoBody => HeadersEarly(st.(resp := st.resp.(sent := true)), ResponseSide, Send)
    case Streamed => HeadersEarly(st.(resp := st.resp.(sent := true)), ResponseSide, Send)
    case FullDuplex =>
      if !cfg.caps.needsResponseBody then HeadersEarly(st, ResponseSide, DeferSilent) else Settled(st, NOTHING)
    case Buffered =>
      if cfg.caps.needsResponseBody then Settled(st, HeadersOnly(HeadersCommon(ResponseSide, None)))
      else HeadersEarly(st, ResponseSide, DeferWithResponse)
  }

  /** `handle_response_headers`. */
  function ResponseHeadersPlan(cfg: Config, st: Stream, headers: seq<HeaderValue>, eos: bool): (plan: Plan)
    ensures PlanFrame(st, plan)
  {
    var (half, entry) := Mark(st.resp, HeadersStep, eos);
    if entry == Ok(Completed) then Refused(st, DuplicateAfterEos)
    else
      var st1 := st.(resp := half, response := Some(FromEnvoy(headers)));
      if eos then FullResponse(st1, AtHeaders, true) else OpenResponsePlan(cfg, st1)
  }

  /** `accumulate_response_body`. */
  function AccumulateResponsePlan(cfg: Config, st: Stream, chunk: Bytes, eos: bool): (plan: Plan)
    ensures PlanFrame(st, plan)
  {
    if OverLimit(SaturatingAdd(|st.resp.body|, |chunk|), cfg.maxBody) then Refused(st, BodyTooLarge)
    else
      var st1 := st.(resp := st.resp.(body := st.resp.body + chunk));
      if !eos then Settled(st1, NOTHING) else FullResponse(st1, OverBody, true)
  }

  /** `handle_response_body`. */
  function ResponseBodyPlan(cfg: Config, st: Stream, chunk: Bytes, eos: bool): (plan: Plan)
    ensures PlanFrame(st, plan)
  {
    var st0 := st.(resp := st.resp.(bodySeen := true));
    var (half, entry) := Mark(st0.resp, BodyStep, eos);
    match entry
    case Err(status) => Refused(st0, status)
    case Ok(Completed) => RedeliveryPlan(st0, half.mode)
    case Ok(Active) =>
      var st1 := st0.(resp := half);
      if (half.mode.Streamed? || half.mode.FullDuplex?) && !cfg.caps.needsResponseBody then
        Settle(Passthrough(st1, ResponseSide, chunk, eos))
      else if half.mode.Streamed? then FilterChunk(st1, ResponseSide, chunk, eos)
      else AccumulateResponsePlan(cfg, st1, chunk, eos)
  }

  /** The direction announced a body that is not complete yet, so its trailers would be what completes it. */
  predicate BodyOpen(st: Stream, side: Side) {
    && (if side.RequestSide? then st.request.Some? else st.response.Some?)
    && st.At(side).headersState.Active?
    && st.At(side).bodyState.Active?
  }

  /** Body needs of a direction whose body trailers close. */
  predicate TrailingNeeds(cfg: Config, side: Side) {
    cfg.NeedsBody(side) || (side.RequestSide? && cfg.caps.needsSelectedBody)
  }

  /** The body pipeline run by trailers; the emitted chunk does not end the stream. */
  function TrailingPlan(st: Stream, side: Side): (plan: Plan)
    ensures PlanFrame(st, plan)
  {
    if side.RequestSide? then FullRequest(st, OverBody, false, true) else FullResponse(st, OverBody, false)
  }

  /** What is released, by mode, when trailers have completed a body. */
  function ClosePlan(cfg: Config, st: Stream, side: Side): (plan: Plan)
    ensures PlanFrame(st, plan)
  {
    var half := st.At(side);
    match half.mode
    case NoBody => Settled(st, NOTHING)
    case Streamed => if TrailingNeeds(cfg, side) then Flush(st, side) else Settled(st, NOTHING)
    case FullDuplex =>
      if TrailingNeeds(cfg, side) then TrailingPlan(st, side)
      else if half.sent then Settled(st, NOTHING)
      else Settled(st.With(side, half.(sent := true, deferred := None)), HeadersOnly(HeadersCommon(side, half.deferred)))
    case Buffered =>
      if side.RequestSide? && st.bufferedProcessed then Settled(st, NOTHING) else TrailingPlan(st, side)
  }

  /** `finalize_body_on_trailers`. */
  function TrailersPlan(cfg: Config, st: Stream, side: Side): (plan: Plan)
    ensures PlanFrame(st, plan)
  {
    if !BodyOpen(st, side) then Settled(st, NOTHING)
    else
      ClosePlan(cfg, st.With(side, st.At(side).(bodyState := Completed)), side)
  }

  /** `local_reply_passthrough`: no filters, same end-of-stream rules. */
  function LocalReplyPlan(st: Stream, m: Message): (plan: Plan)
    ensures PlanFrame(st, plan)
  {
    if m.side.RequestSide? then Refused(st, LocalReplyRequest)
    else
      match m
      case Headers(_, _, eos) =>
        var (half, entry) := Mark(st.resp, HeadersStep, eos);
        if entry == Ok(Completed) then Refused(st, DuplicateAfterEos)
        else if !eos && half.mode.FullDuplex? then Settled(st.(resp := half), NOTHING)
        else Settled(st.(resp := half.(sent := true)), HeadersOnly(HeadersCommon(ResponseSide, None)))
      case Body(_, chunk, eos) =>
        var (half, entry) := Mark(st.resp, BodyStep, eos);
        (match entry
         case Err(status) => Refused(st, status)
         case Ok(Completed) => RedeliveryPlan(st, half.mode)
         case Ok(Active) =>
           var st1 := st.(resp := half);
           if half.mode.FullDuplex? then Settle(Passthrough(st1, ResponseSide, chunk, eos))
           else Settled(st1, Answer(None, BodyResponses(ResponseSide, half.mode, None, None, eos), false, None)))
      case Trailers(_) => Settled(st, Answer(None, [], true, None))
  }

  /** The handler a message reaches once the dispatch checks passed. */
  ghost function HandlerPlan(cfg: Config, st: Stream, m: Message): (plan: Plan)
    ensures PlanFrame(st, plan)
  {
    if st.localReply then LocalReplyPlan(st, m)
    else
      match m
      case Headers(RequestSide, headers, eos) => RequestHeadersPlan(cfg, st, headers, eos)
      case Headers(ResponseSide, headers, eos) => ResponseHeadersPlan(cfg, st, headers, eos)
      case Body(RequestSide, chunk, eos) => RequestBodyPlan(cfg, st, chunk, eos)
      case Body(ResponseSide, chunk, eos) => ResponseBodyPlan(cfg, st, chunk, eos)
      case Trailers(side) => TrailersPlan(cfg, st, side)
  }

  /** The state after the phase tracker accepted a message. */
  function Advanced(st: Stream, m: Message): Stream {
    st.With(m.side, st.At(m.side).(furthest := Some(StepOf(m))))
      .(localReply := st.localReply || (m.side.ResponseSide? && st.req.furthest.None?))
  }

  /** The first check a message fails before it reaches a handler. */
  function DispatchError(st: Stream, m: Message): Option<Status> {
    if m.Body? && st.At(m.side).mode.NoBody? then Some(BodyInNoneMode)
    else if m.side.RequestSide? && st.localReply then Some(RequestAfterLocalReply)
    else if InvalidTransition(st.At(m.side).furthest, StepOf(m)) then Some(OutOfOrder)
    else None
  }

  ghost function PlanFor(cfg: Config, st: Stream, m: Message): (plan: Plan)
    ensures PlanFrame(st, plan)
  {
    if DispatchError(st, m).Some? then Refused(st, DispatchError(st, m).value)
    else HandlerPlan(cfg, Advanced(st, m), m)
  }

  // ---------------------------------------------------------------------------
  // Finishing: what a handler does with the outcome of its phase
  // ---------------------------------------------------------------------------

  /** `apply_response_mode_override`. */
  function OverrideMode(cfg: Config, st: Stream, batch: Batch, headers: seq<HeaderValue>): (Stream, Batch) {
    if st.req.mode.FullDuplex? || st.resp.mode.FullDuplex? || st.resp.mode.NoBody? || st.eagerBody
       || cfg.caps.responseBodyMode.StreamBuffer?
       || !ShouldStream(cfg.selector, headers)
       || batch.Halt? || batch.headers.None? then (st, batch)
    else (st.(resp := st.resp.(mode := Streamed)), batch.(modeOverride := Some(ModeOverride(st.req.mode, Streamed))))
  }

  function FinishRequestHeaders(cfg: Config, headers: seq<HeaderValue>, eos: bool, o: Outcome): Outcome {
    if o.result.Err? then o
    else if !eos && SelectedUnsupported(cfg, o.st.req.mode) && !o.result.value.Halt? then
      o.(result := Ok(Halt(Rejection(500, SelectedNeedsBuffered))))
    else
      var (st, batch) := OverrideMode(cfg, o.st, o.result.value, headers);
      o.(st := st, result := Ok(batch))
  }

  /**
   Trailers: a BUFFERED pipeline has no message left to answer, an empty full-duplex body that
   never had a chunk is not sent, and the acknowledgement is dropped after an immediate.
   */
  function FinishTrailers(cfg: Config, side: Side, o: Outcome): Outcome {
    if o.result.Err? || o.result.value.Halt? then o
    else
      var half, batch := o.st.At(side), o.result.value;
      var kept := if half.mode.Buffered? then NOTHING
                  else if half.mode.FullDuplex? && TrailingNeeds(cfg, side) && !half.bodySeen && half.body == [] then
                    batch.(bodies := [])
                  else batch;
      o.(result := Ok(kept.(trailers := true)))
  }

  function Finish(cfg: Config, m: Message, localReply: bool, o: Outcome): Outcome {
    if localReply then o
    else
      match m
      case Headers(RequestSide, headers, eos) => FinishRequestHeaders(cfg, headers, eos, o)
      case Trailers(side) => FinishTrailers(cfg, side, o)
      case _ => o
  }

  /** `dispatch_request`. */
  ghost function Step(cfg: Config, oracle: Oracle, st: Stream, m: Message): Outcome {
    Finish(cfg, m, Advanced(st, m).localReply, Execute(cfg, oracle, PlanFor(cfg, st, m)))
  }

  // ---------------------------------------------------------------------------
  // Runs
  // ---------------------------------------------------------------------------

  /** A message with the filter behaviour it will meet. */
  datatype Event = Event(m: Message, oracle: Oracle)

  /** A processed message, its replies and its hook calls. */
  datatype Exchange = Exchange(m: Message, batch: Batch, calls: Calls)

  datatype RunStatus = Running | Ended | Failed(status: Status)

  /** `unfinished` holds the hook calls of the step that failed, if one did. */
  datatype Run = Run(st: Stream, status: RunStatus, log: seq<Exchange>, unfinished: Calls)

  /** One more message: nothing happens after an immediate response or an error. */
  ghost function Advance(cfg: Config, r: Run, e: Event): Run {
    if !r.status.Running? then r
    else
      var o := Step(cfg, e.oracle, r.st, e.m);
      match o.result
      case Err(status) => Run(o.st, Failed(status), r.log, o.calls)
      case Ok(batch) =>
        Run(o.st, if batch.Halt? then Ended else Running, r.log + [Exchange(e.m, batch, o.calls)], NO_CALLS)
  }

  /** The run of a list of messages from a given point. */
  ghost function RunFrom(cfg: Config, r: Run, events: seq<Event>): Run {
    if events == [] then r
    else Advance(cfg, RunFrom(cfg, r, events[..|events| - 1]), events[|events| - 1])
  }

  function Fresh(requestMode: BodyMode, responseMode: BodyMode, eagerBody: bool): Run {
    Run(NewStream(requestMode, responseMode, eagerBody), Running, [], NO_CALLS)
  }

  /** All replies of a log, in the order they are sent. */
  function Sent(log: seq<Exchange>): seq<Reply> {
    if log == [] then []
    else
      var x := log[|log| - 1];
      Sent(log[..|log| - 1]) + Render(x.m.side, x.batch)
  }

  function Listed(c: Option<Call>): seq<Call> {
    if c.Some? then [c.value] else []
  }

  /** The hook calls of one message as a list. */
  function CallList(calls: Calls): seq<Call> {
    Listed(calls.header) + Listed(calls.body) + Listed(calls.selected)
  }

  /** All hook calls of a log, in order. */
  function LoggedCalls(log: seq<Exchange>): seq<Call> {
    if log == [] then [] else LoggedCalls(log[..|log| - 1]) + CallList(log[|log| - 1].calls)
  }

  /** All hook calls of a run, in order, those of a failing step included. */
  function AllCalls(r: Run): seq<Call> {
    LoggedCalls(r.log) + CallList(r.unfinished)
  }

  /** Messages accepted so far. */
  function Messages(log: seq<Exchange>): seq<Message> {
    seq(|log|, i requires 0 <= i < |log| => log[i].m)
  }
}
