/**
 What each pipeline phase does to the stream, stated once so that the message handlers can
 be reasoned about without looking into the phases again.
 */
module Effects {
  import opened Wire
  import opened HeaderMaps
  import opened Filters
  import opened Chunking
  import opened StreamSpec

  // ---------------------------------------------------------------------------
  // Threading of the long-lived context
  // ---------------------------------------------------------------------------

  function After(start: Shared, c: Option<Call>): Shared {
    if c.Some? then c.value.after.shared else start
  }

  predicate StartsAt(start: Shared, c: Option<Call>) {
    c.Some? ==> c.value.before.shared == start
  }

  /** Each call starts from the fields the previous one left. */
  predicate Chained(start: Shared, calls: Calls) {
    && StartsAt(start, calls.header)
    && StartsAt(After(start, calls.header), calls.body)
    && StartsAt(After(After(start, calls.header), calls.body), calls.selected)
  }

  function ChainEnd(start: Shared, calls: Calls): Shared {
    After(After(After(start, calls.header), calls.body), calls.selected)
  }

  predicate Proceeds(o: Outcome) {
    o.result.Ok? && !o.result.value.Halt?
  }

  /** A phase threads the parked fields through its calls and parks what the last one left. */
  predicate Threads(st: Stream, o: Outcome) {
    && st.carried.Some?
    && Chained(Parked(st.carried.value), o.calls)
    && (Proceeds(o) ==> o.st.carried.Some? && Parked(o.st.carried.value) == ChainEnd(Parked(st.carried.value), o.calls))
  }

  /** An immediate ends the stream; the only failure of a phase is a failing hook. */
  predicate FailsOnlyInHook(o: Outcome) {
    o.result.Err? ==> o.result.status.FilterError?
  }

  /** No phase touches the stream-wide fields. */
  predicate SameStream(st: Stream, st': Stream) {
    && st'.request == st.request && st'.streamedBytes == st.streamedBytes
    && st'.bufferedProcessed == st.bufferedProcessed && st'.localReply == st.localReply && st'.eagerBody == st.eagerBody
  }

  // ---------------------------------------------------------------------------
  // Request pipeline
  // ---------------------------------------------------------------------------

  /** The header edits asked for by the last hook of a phase. */
  function LastEdits(calls: Calls): Edits {
    if calls.selected.Some? then calls.selected.value.after.edits
    else if calls.body.Some? then calls.body.value.after.edits
    else if calls.header.Some? then calls.header.value.after.edits
    else NO_EDITS
  }

  predicate IsCall(c: Option<Call>, kind: HookKind) {
    c.Some? ==> c.value.kind == kind
  }

  /** Which hooks a full request phase may call, and with what. */
  predicate RequestCalls(st: Stream, phase: Phase, ordinary: bool, calls: Calls) {
    && IsCall(calls.header, OnRequest) && (calls.header.Some? ==> !st.req.executed)
    && IsCall(calls.body, OnRequestBody)
    && (calls.body.Some? ==> phase.OverBody? && ordinary && calls.body.value.eos && calls.body.value.data == Some(st.req.body))
    && IsCall(calls.selected, OnSelectedBody)
  }

  /** A full request phase that proceeds called every hook it has. */
  predicate RequestCallsAll(cfg: Config, st: Stream, phase: Phase, ordinary: bool, calls: Calls) {
    && calls.header.Some? == !st.req.executed
    && calls.body.Some? == (phase.OverBody? && ordinary)
    && calls.selected.Some? == (phase.OverBody? && cfg.caps.needsSelectedBody)
  }

  /** State after a full request phase that proceeds. */
  predicate RequestState(st: Stream, phase: Phase, o: Outcome) {
    && SameStream(st, o.st) && o.st.response == st.response && o.st.resp == st.resp
    && o.st.req == st.req.(executed := true, body := o.st.req.body,
                           sent := st.req.sent || (phase.OverBody? && st.req.headersState.Completed?))
    && o.st.req.body == (if o.calls.selected.Some? then o.calls.selected.value.produced
                         else if o.calls.body.Some? then o.calls.body.value.produced else st.req.body)
    && (phase.OverBody? && st.req.headersState.Completed? ==> o.st.req.body == [])
  }

  /** The answer of a full request phase that proceeds. */
  predicate RequestBatch(st: Stream, phase: Phase, eos: bool, o: Outcome)
    requires Proceeds(o)
  {
    var body := o.st.req.body;
    var mutation := WithContentLength(CollectRequest(LastEdits(o.calls)), body, |st.req.body|);
    o.result.value == (if phase.AtHeaders? || st.req.headersState.Completed? then HeadersOnly(HeadersCommon(RequestSide, mutation))
                       else BodyBatch(RequestSide, st.req.mode, mutation, body, eos))
  }

  /** The hooks of a request phase: which ran, with what, and what they leave. */
  predicate RequestStaged(cfg: Config, s0: Stage, executed: bool, phase: Phase, ordinary: bool, s: Stage) {
    && IsCall(s.calls.header, OnRequest) && (s.calls.header.Some? <==> !executed)
    && IsCall(s.calls.body, OnRequestBody) && IsCall(s.calls.selected, OnSelectedBody)
    && Chained(s0.ctx.shared, s.calls) && s.ctx.shared == ChainEnd(s0.ctx.shared, s.calls)
    && (s.calls.body.Some? ==> phase.OverBody? && ordinary && s.calls.body.value.eos && s.calls.body.value.data == Some(s0.body))
    && (s.verdict.Go? ==>
          && s.calls.body.Some? == (phase.OverBody? && ordinary)
          && s.calls.selected.Some? == (phase.OverBody? && cfg.caps.needsSelectedBody)
          && s.ctx.edits == (if s.calls == NO_CALLS then s0.ctx.edits else LastEdits(s.calls))
          && s.body == (if s.calls.selected.Some? then s.calls.selected.value.produced
                        else if s.calls.body.Some? then s.calls.body.value.produced else s0.body))
  }

  /** The body hooks of a request phase, after its header part left `s1`. */
  predicate RequestBodyStaged(cfg: Config, s1: Stage, ordinary: bool, s: Stage) {
    && s.calls.header == s1.calls.header
    && IsCall(s.calls.body, OnRequestBody) && IsCall(s.calls.selected, OnSelectedBody)
    && StartsAt(s1.ctx.shared, s.calls.body) && StartsAt(After(s1.ctx.shared, s.calls.body), s.calls.selected)
    && s.ctx.shared == After(After(s1.ctx.shared, s.calls.body), s.calls.selected)
    && (s.calls.body.Some? ==> ordinary && s.calls.body.value.eos && s.calls.body.value.data == Some(s1.body))
    && (s.verdict.Go? ==>
          && s.calls.body.Some? == ordinary && s.calls.selected.Some? == cfg.caps.needsSelectedBody
          && s.ctx.edits == (if s.calls.selected.Some? then s.calls.selected.value.after.edits
                             else if s.calls.body.Some? then s.calls.body.value.after.edits else s1.ctx.edits)
          && s.body == (if s.calls.selected.Some? then s.calls.selected.value.produced
                        else if s.calls.body.Some? then s.calls.body.value.produced else s1.body))
  }

  lemma RequestBodyStageEffect(cfg: Config, oracle: Oracle, s1: Stage, ordinary: bool)
    requires s1.verdict.Go? && s1.calls.body.None? && s1.calls.selected.None?
    ensures RequestBodyStaged(cfg, s1, ordinary, RequestBodyStage(cfg, oracle, s1, ordinary))
  {
  }

  lemma RequestStageEffect(cfg: Config, oracle: Oracle, s0: Stage, executed: bool, phase: Phase, ordinary: bool)
    requires s0.verdict.Go? && s0.calls == NO_CALLS
    ensures RequestStaged(cfg, s0, executed, phase, ordinary, RequestStage(cfg, oracle, s0, executed, phase, ordinary))
    ensures RequestStage(cfg, oracle, s0, executed, phase, ordinary).verdict.Go? ==>
              executed || HeaderStage(oracle, OnRequest, s0).verdict.Go?
  {
    hide RequestBodyStage;
    var s1 := if executed then s0 else HeaderStage(oracle, OnRequest, s0);
    if s1.verdict.Go? {
      RequestBodyStageEffect(cfg, oracle, s1, ordinary);
    }
  }

  lemma RequestThreads(cfg: Config, oracle: Oracle, st: Stream, phase: Phase, eos: bool, ordinary: bool)
    requires st.request.Some? && st.carried.Some?
    ensures Threads(st, RunRequest(cfg, oracle, st, phase, eos, ordinary))
  {
    hide RequestStage, HeaderStage, CollectRequest, BuildRequest, Chained, ChainEnd, LastEdits, IsCall;
    var s0 := StartStage(st, None, st.req.body);
    RequestStageEffect(cfg, oracle, s0, st.req.executed, phase, ordinary);
    var s := RequestStage(cfg, oracle, s0, st.req.executed, phase, ordinary);
    ParkingIsLossless(s.ctx, st.carried.value, st.request.value, None);
    if s.verdict.Go? {
      var executed := st.req.executed || HeaderStage(oracle, OnRequest, s0).verdict.Go?;
      BuildRequestIs(st.(carried := Some(Dehydrate(s.ctx)), req := st.req.(body := s.body, executed := executed)),
                     phase, CollectRequest(s.ctx.edits), |st.req.body|, eos);
    }
  }

  lemma RequestCallsAre(cfg: Config, oracle: Oracle, st: Stream, phase: Phase, eos: bool, ordinary: bool)
    requires st.request.Some? && st.carried.Some?
    ensures var o := RunRequest(cfg, oracle, st, phase, eos, ordinary);
            && FailsOnlyInHook(o) && RequestCalls(st, phase, ordinary, o.calls)
            && (Proceeds(o) ==> RequestCallsAll(cfg, st, phase, ordinary, o.calls))
  {
    hide RequestStage, HeaderStage, BuildRequest;
    RequestStageEffect(cfg, oracle, StartStage(st, None, st.req.body), st.req.executed, phase, ordinary);
  }

  /** What the answer of a request phase does to the stream, and what it is. */
  lemma BuildRequestIs(st: Stream, phase: Phase, mutation: Option<HeaderMutation>, originalLen: nat, eos: bool)
    ensures var (st', batch) := BuildRequest(st, phase, mutation, originalLen, eos);
            var bodyless := phase.OverBody? && st.req.headersState.Completed?;
            var sized := WithContentLength(mutation, st.req.body, originalLen);
            && st'.carried == st.carried
            && (!batch.Halt? ==>
                  && st' == st.(req := st.req.(sent := st.req.sent || bodyless))
                  && (bodyless ==> st.req.body == [])
                  && batch == if phase.AtHeaders? || bodyless then HeadersOnly(HeadersCommon(RequestSide, sized))
                              else BodyBatch(RequestSide, st.req.mode, sized, st.req.body, eos))
  {
    hide WithContentLength, BodyBatch, HeadersCommon;
  }

  /** A request phase that proceeds: its hooks went through, and its answer was built on what they left. */
  lemma RequestGoes(cfg: Config, oracle: Oracle, st: Stream, phase: Phase, eos: bool, ordinary: bool)
    requires st.request.Some? && st.carried.Some?
    requires Proceeds(RunRequest(cfg, oracle, st, phase, eos, ordinary))
    ensures var s0, o := StartStage(st, None, st.req.body), RunRequest(cfg, oracle, st, phase, eos, ordinary);
            var s := RequestStage(cfg, oracle, s0, st.req.executed, phase, ordinary);
            var bodyless := phase.OverBody? && st.req.headersState.Completed?;
            var sized := WithContentLength(CollectRequest(s.ctx.edits), s.body, |st.req.body|);
            && s.verdict.Go? && o.calls == s.calls && (bodyless ==> s.body == [])
            && o.st == st.(carried := Some(Dehydrate(s.ctx)),
                           req := st.req.(body := s.body, executed := true, sent := st.req.sent || bodyless))
            && o.result.value == (if phase.AtHeaders? || bodyless then HeadersOnly(HeadersCommon(RequestSide, sized))
                                  else BodyBatch(RequestSide, st.req.mode, sized, s.body, eos))
  {
    hide RequestStage, HeaderStage, CollectRequest, WithContentLength, BodyBatch, HeadersCommon, BuildRequest, RequestStaged,
         Hydrate, Dehydrate;
    var s0 := StartStage(st, None, st.req.body);
    RequestStageEffect(cfg, oracle, s0, st.req.executed, phase, ordinary);
    var s := RequestStage(cfg, oracle, s0, st.req.executed, phase, ordinary);
    BuildRequestIs(st.(carried := Some(Dehydrate(s.ctx)), req := st.req.(body := s.body, executed := true)),
                   phase, CollectRequest(s.ctx.edits), |st.req.body|, eos);
  }

  lemma RequestStateIs(cfg: Config, oracle: Oracle, st: Stream, phase: Phase, eos: bool, ordinary: bool)
    requires st.request.Some? && st.carried.Some?
    requires Proceeds(RunRequest(cfg, oracle, st, phase, eos, ordinary))
    ensures RequestState(st, phase, RunRequest(cfg, oracle, st, phase, eos, ordinary))
  {
    hide RunRequest, RequestStage, CollectRequest, WithContentLength, BodyBatch, HeadersCommon, Chained, ChainEnd, Hydrate,
         Dehydrate, LastEdits, IsCall;
    RequestGoes(cfg, oracle, st, phase, eos, ordinary);
    RequestStageEffect(cfg, oracle, StartStage(st, None, st.req.body), st.req.executed, phase, ordinary);
  }

  lemma RequestBatchIs(cfg: Config, oracle: Oracle, st: Stream, phase: Phase, eos: bool, ordinary: bool)
    requires st.request.Some? && st.carried.Some?
    requires Proceeds(RunRequest(cfg, oracle, st, phase, eos, ordinary))
    ensures RequestBatch(st, phase, eos, RunRequest(cfg, oracle, st, phase, eos, ordinary))
  {
    hide RunRequest, RequestStage, CollectRequest, WithContentLength, BodyBatch, HeadersCommon, Chained, ChainEnd, Dehydrate,
         IsCall;
    RequestGoes(cfg, oracle, st, phase, eos, ordinary);
    RequestStageEffect(cfg, oracle, StartStage(st, None, st.req.body), st.req.executed, phase, ordinary);
  }

  // ---------------------------------------------------------------------------
  // Response pipeline
  // ---------------------------------------------------------------------------

  /** The response headers after the last response hook of a phase. */
  function LastHeaders(original: HeaderMap, calls: Calls): HeaderMap {
    var afterHeader := if calls.header.Some? && calls.header.value.after.response.Some?
                       then calls.header.value.after.response.value else original;
    if calls.body.Some? && calls.body.value.after.response.Some? then calls.body.value.after.response.value else afterHeader
  }

  predicate ResponseCalls(st: Stream, phase: Phase, calls: Calls) {
    && IsCall(calls.header, OnResponse) && (calls.header.Some? ==> phase.AtHeaders? || !st.resp.executed)
    && IsCall(calls.body, OnResponseBody)
    && (calls.body.Some? ==> phase.OverBody? && calls.body.value.eos && calls.body.value.data == Some(st.resp.body))
    && calls.selected.None?
  }

  /** State and calls after a full response phase that proceeds. */
  predicate ResponseState(st: Stream, phase: Phase, o: Outcome) {
    && SameStream(st, o.st) && o.st.response.None? && o.st.req == st.req
    && o.st.resp == st.resp.(body := o.st.resp.body, deferred := if phase.AtHeaders? then st.resp.deferred else None)
    && o.st.resp.body == (if o.calls.body.Some? then o.calls.body.value.produced else st.resp.body)
    && o.calls.header.Some? == (phase.AtHeaders? || !st.resp.executed)
    && o.calls.body.Some? == phase.OverBody?
  }

  /** Answer of a full response phase that proceeds. */
  predicate ResponseBatch(st: Stream, phase: Phase, eos: bool, o: Outcome)
    requires st.response.Some? && Proceeds(o)
  {
    var body := o.st.resp.body;
    var diff := Diff(LastHeaders(st.response.value, o.calls), st.response.value);
    var mutation := WithContentLength(if phase.AtHeaders? then diff else Merge(st.resp.deferred, diff), body, |st.resp.body|);
    && o.result.value == (if phase.AtHeaders? then HeadersOnly(HeadersCommon(ResponseSide, mutation))
                          else BodyBatch(ResponseSide, st.resp.mode, mutation, body, eos))
  }

  /** The hooks of a response phase: which ran, with what, and what they leave. */
  predicate ResponseStaged(s0: Stage, executed: bool, phase: Phase, s: Stage)
    requires s0.ctx.response.Some?
  {
    && IsCall(s.calls.header, OnResponse) && (s.calls.header.Some? <==> phase.AtHeaders? || !executed)
    && IsCall(s.calls.body, OnResponseBody) && s.calls.selected.None?
    && Chained(s0.ctx.shared, s.calls) && s.ctx.shared == ChainEnd(s0.ctx.shared, s.calls)
    && (s.calls.body.Some? ==> phase.OverBody? && s.calls.body.value.eos && s.calls.body.value.data == Some(s0.body))
    && (s.verdict.Go? ==>
          && s.calls.body.Some? == phase.OverBody?
          && s.ctx.response == Some(LastHeaders(s0.ctx.response.value, s.calls))
          && s.body == (if s.calls.body.Some? then s.calls.body.value.produced else s0.body))
  }

  lemma ResponseStageEffect(oracle: Oracle, s0: Stage, executed: bool, phase: Phase)
    requires s0.verdict.Go? && s0.calls == NO_CALLS && s0.ctx.response.Some?
    ensures ResponseStaged(s0, executed, phase, ResponseStage(oracle, s0, executed, phase))
  {
  }

  lemma ResponseThreads(oracle: Oracle, st: Stream, phase: Phase, eos: bool)
    requires st.request.Some? && st.response.Some? && st.carried.Some?
    ensures var o := RunResponse(oracle, st, phase, eos);
            FailsOnlyInHook(o) && Threads(st, o) && ResponseCalls(st, phase, o.calls)
  {
    hide ResponseStage, CollectResponse, WithContentLength, BodyBatch, HeadersCommon, Merge, LastHeaders;
    ResponseStageEffect(oracle, StartStage(st, st.response, st.resp.body), st.resp.executed, phase);
  }

  lemma ResponseStateIs(oracle: Oracle, st: Stream, phase: Phase, eos: bool)
    requires st.request.Some? && st.response.Some? && st.carried.Some?
    requires Proceeds(RunResponse(oracle, st, phase, eos))
    ensures ResponseState(st, phase, RunResponse(oracle, st, phase, eos))
  {
    hide ResponseStage, CollectResponse, WithContentLength, BodyBatch, HeadersCommon, Merge, LastHeaders, Chained, ChainEnd,
         Hydrate, Dehydrate, IsCall;
    assert StartStage(st, st.response, st.resp.body).ctx.response.Some? by { HydrateKeepsResponse(st); }
    ResponseStageEffect(oracle, StartStage(st, st.response, st.resp.body), st.resp.executed, phase);
  }

  lemma HydrateKeepsResponse(st: Stream)
    requires st.request.Some? && st.carried.Some?
    ensures StartStage(st, st.response, st.resp.body).ctx.response == st.response
  {
  }

  lemma ResponseBatchIs(oracle: Oracle, st: Stream, phase: Phase, eos: bool)
    requires st.request.Some? && st.response.Some? && st.carried.Some?
    requires Proceeds(RunResponse(oracle, st, phase, eos))
    ensures ResponseBatch(st, phase, eos, RunResponse(oracle, st, phase, eos))
  {
    hide ResponseStage, Diff, WithContentLength, BodyBatch, HeadersCommon, Merge, LastHeaders, Chained, ChainEnd, IsCall;
    ResponseStageEffect(oracle, StartStage(st, st.response, st.resp.body), st.resp.executed, phase);
  }

  // ---------------------------------------------------------------------------
  // Early header filters
  // ---------------------------------------------------------------------------

  /** Only the header hook of one direction was called. */
  predicate OnlyHeaderCall(kind: HookKind, calls: Calls) {
    calls.header.Some? && IsCall(calls.header, kind) && calls.body.None? && calls.selected.None?
  }

  predicate EarlyProceeds(
    st: Stream, side: Side, delivery: Delivery, mutation: Option<HeaderMutation>, response: Option<HeaderMap>, o: Outcome)
    requires Proceeds(o)
  {
    && SameStream(st, o.st) && o.st.response == response
    && (if side.RequestSide? then o.st.resp == st.resp else o.st.req == st.req)
    && (side.ResponseSide? && o.calls.header.Some? ==>
          o.calls.header.value.before.response == st.response && o.calls.header.value.after.response == response)
    && o.st.At(side) == st.At(side).(executed := true, deferred := if delivery.Send? then st.At(side).deferred else mutation)
    && o.result.value == (match delivery
                          case Send => HeadersOnly(HeadersCommon(side, mutation))
                          case DeferWithResponse => HeadersOnly(HeadersCommon(side, None))
                          case DeferSilent => NOTHING)
  }

  lemma EarlyRequestThreads(oracle: Oracle, st: Stream, delivery: Delivery)
    requires st.request.Some? && st.carried.Some?
    ensures var o := EarlyRequest(oracle, st, delivery);
            FailsOnlyInHook(o) && Threads(st, o) && OnlyHeaderCall(OnRequest, o.calls)
  {
    hide CollectRequest, HeadersCommon;
  }

  lemma EarlyRequestEffect(oracle: Oracle, st: Stream, delivery: Delivery)
    requires st.request.Some? && st.carried.Some? && Proceeds(EarlyRequest(oracle, st, delivery))
    ensures var o := EarlyRequest(oracle, st, delivery);
            EarlyProceeds(st, RequestSide, delivery, CollectRequest(LastEdits(o.calls)), st.response, o)
  {
    hide CollectRequest, HeadersCommon, Hydrate, Dehydrate;
  }

  lemma EarlyResponseThreads(oracle: Oracle, st: Stream, delivery: Delivery)
    requires st.request.Some? && st.response.Some? && st.carried.Some?
    ensures var o := EarlyResponse(oracle, st, delivery);
            FailsOnlyInHook(o) && Threads(st, o) && OnlyHeaderCall(OnResponse, o.calls)
  {
    hide Diff, HeadersCommon;
  }

  lemma EarlyResponseEffect(oracle: Oracle, st: Stream, delivery: Delivery)
    requires st.request.Some? && st.response.Some? && st.carried.Some? && Proceeds(EarlyResponse(oracle, st, delivery))
    ensures var o := EarlyResponse(oracle, st, delivery);
            var headers := LastHeaders(st.response.value, o.calls);
            EarlyProceeds(st, ResponseSide, delivery, Diff(headers, st.response.value), Some(headers), o)
  {
    hide Diff, HeadersCommon, Dehydrate;
  }

  // ---------------------------------------------------------------------------
  // Streamed chunks
  // ---------------------------------------------------------------------------

  /** Only the body hook of one direction may be called. */
  predicate OnlyBodyCall(side: Side, calls: Calls) {
    calls.header.None? && IsCall(calls.body, BodyKind(side)) && calls.selected.None?
  }

  /** The response headers a streamed phase leaves behind. */
  predicate KeepsResponse(st: Stream, side: Side, o: Outcome) {
    if side.RequestSide? then o.st.response == st.response else o.st.response.Some?
  }

  /** Whether the filters asked for the whole response body before it is released. */
  predicate Buffering(st: Stream, side: Side) {
    side.ResponseSide? && st.carried.Some? && Parked(st.carried.value).responseBodyMode.StreamBuffer?
  }

  /** State after a streamed chunk: a buffering response holds it back until the end. */
  predicate ChunkState(st: Stream, side: Side, chunk: Bytes, eos: bool, o: Outcome) {
    && SameStream(st, o.st) && KeepsResponse(st, side, o) && o.st.req == st.req
    && o.st.resp == st.resp.(body := if !Buffering(st, side) then st.resp.body else if eos then [] else st.resp.body + chunk)
  }

  /**
   Call and answer of a streamed chunk: the hook gets the chunk, or in a buffering response
   everything held so far; what Envoy forwards is what the hook produced, and nothing when it
   was not called.
   */
  predicate ChunkReply(st: Stream, side: Side, chunk: Bytes, eos: bool, o: Outcome)
    requires Proceeds(o)
  {
    var input := if !Buffering(st, side) then chunk else if eos then st.resp.body + chunk else [];
    var batch := o.result.value;
    && o.calls.body.Some? == (input != [] || eos)
    && (o.calls.body.Some? ==> o.calls.body.value.data == Some(input) && o.calls.body.value.eos == eos)
    && batch == Answer(None, batch.bodies, false, None) && |batch.bodies| == 1
    && Forwarded(chunk, batch.bodies[0]) == (if o.calls.body.Some? then o.calls.body.value.produced else [])
  }

  /** A buffering response never holds more than either limit. */
  predicate WithinLimits(cfg: Config, st: Stream, chunk: Bytes) {
    st.carried.Some? && Parked(st.carried.value).responseBodyMode.StreamBuffer? ==>
      var total := SaturatingAdd(|st.resp.body|, |chunk|);
      !OverLimit(total, Parked(st.carried.value).responseBodyMode.maxBytes) && !OverLimit(total, cfg.maxBody)
  }

  /** A body hook called on a fresh stage threads the context and leaves the other calls alone. */
  predicate BodyStaged(kind: HookKind, s0: Stage, s: Stage) {
    && s.calls.header.None? && s.calls.selected.None? && IsCall(s.calls.body, kind)
    && Chained(s0.ctx.shared, s.calls) && s.ctx.shared == ChainEnd(s0.ctx.shared, s.calls)
  }

  lemma BodyStageEffect(oracle: Oracle, kind: HookKind, s0: Stage, eos: bool)
    requires s0.verdict.Go? && s0.calls == NO_CALLS
    ensures BodyStaged(kind, s0, BodyStage(oracle, kind, s0, eos))
  {
  }

  lemma StreamedChunkThreads(cfg: Config, oracle: Oracle, st: Stream, side: Side, chunk: Bytes, eos: bool)
    requires st.request.Some? && (side.ResponseSide? ==> st.response.Some?) && st.carried.Some?
    ensures var o := StreamedChunk(cfg, oracle, st, side, chunk, eos);
            && (o.result.Err? ==> o.result.status.FilterError? || o.result.status.BodyTooLarge?)
            && Threads(st, o) && OnlyBodyCall(side, o.calls)
  {
    hide BodyResponses, HoldBack, BodyStage;
    var s0 := StartStage(st, if side.RequestSide? then None else st.response, chunk);
    var input := if side.RequestSide? then Some((chunk, st.resp.body))
                 else HoldBack(s0.ctx.shared.responseBodyMode, chunk, st.resp.body, eos, cfg.maxBody);
    if input.Some? {
      BodyStageEffect(oracle, BodyKind(side), s0.(body := input.value.0), eos);
    }
  }

  lemma ChunkStateIs(cfg: Config, oracle: Oracle, st: Stream, side: Side, chunk: Bytes, eos: bool)
    requires st.request.Some? && (side.ResponseSide? ==> st.response.Some?) && st.carried.Some?
    requires Proceeds(StreamedChunk(cfg, oracle, st, side, chunk, eos))
    ensures ChunkState(st, side, chunk, eos, StreamedChunk(cfg, oracle, st, side, chunk, eos))
  {
    hide BodyResponses, Dehydrate, BodyStage;
    var s0 := StartStage(st, if side.RequestSide? then None else st.response, chunk);
    var input := if side.RequestSide? then Some((chunk, st.resp.body))
                 else HoldBack(s0.ctx.shared.responseBodyMode, chunk, st.resp.body, eos, cfg.maxBody);
    BodyStageKeepsResponse(oracle, BodyKind(side), s0.(body := input.value.0), eos);
  }

  lemma BodyStageKeepsResponse(oracle: Oracle, kind: HookKind, s0: Stage, eos: bool)
    ensures s0.ctx.response.Some? ==> BodyStage(oracle, kind, s0, eos).ctx.response.Some?
  {
  }

  lemma ChunkFits(cfg: Config, oracle: Oracle, st: Stream, chunk: Bytes, eos: bool)
    requires st.request.Some? && st.response.Some? && st.carried.Some?
    requires Proceeds(StreamedChunk(cfg, oracle, st, ResponseSide, chunk, eos))
    ensures WithinLimits(cfg, st, chunk)
  {
    hide BodyResponses, BodyStage, Dehydrate;
  }

  lemma ChunkReplyIs(cfg: Config, oracle: Oracle, st: Stream, side: Side, chunk: Bytes, eos: bool)
    requires st.request.Some? && (side.ResponseSide? ==> st.response.Some?) && st.carried.Some?
    requires st.At(side).mode.Streamed?
    requires Proceeds(StreamedChunk(cfg, oracle, st, side, chunk, eos))
    ensures ChunkReply(st, side, chunk, eos, StreamedChunk(cfg, oracle, st, side, chunk, eos))
  {
    hide BodyResponses, Forwarded, Dehydrate;
    var mode := st.At(side).mode;
    forall data: Option<Bytes>
      ensures var cs := BodyResponses(side, mode, data, None, eos);
              |cs| == 1 && Forwarded(chunk, cs[0]) == (if data.Some? then data.value else chunk)
    {
      StreamedReplyForwards(side, mode, chunk, data, None, eos);
    }
  }

  /** Trailers give the body hook its final call, with no data. */
  predicate FlushProceeds(st: Stream, side: Side, o: Outcome)
    requires Proceeds(o)
  {
    && KeepsResponse(st, side, o)
    && SameStream(st, o.st) && o.st.req == st.req && o.st.resp == st.resp
    && o.result.value == NOTHING
    && o.calls.body.Some? && o.calls.body.value.data.None? && o.calls.body.value.eos
  }

  lemma FlushEffect(oracle: Oracle, st: Stream, side: Side)
    requires st.request.Some? && (side.ResponseSide? ==> st.response.Some?) && st.carried.Some?
    ensures var o := FlushStreamed(oracle, st, side);
            && FailsOnlyInHook(o) && Threads(st, o) && OnlyBodyCall(side, o.calls)
            && (side.ResponseSide? && st.resp.body != [] ==> o.result.Ok? && o.result.value.Halt? && o.calls == NO_CALLS)
            && (Proceeds(o) ==> FlushProceeds(st, side, o))
  {
    hide FlushStreamed, Threads, OnlyBodyCall, FlushProceeds, FailsOnlyInHook;
    FlushThreads(oracle, st, side);
    if Proceeds(FlushStreamed(oracle, st, side)) {
      FlushStateIs(oracle, st, side);
    }
  }

  lemma FlushThreads(oracle: Oracle, st: Stream, side: Side)
    requires st.request.Some? && (side.ResponseSide? ==> st.response.Some?) && st.carried.Some?
    ensures var o := FlushStreamed(oracle, st, side);
            && FailsOnlyInHook(o) && Threads(st, o) && OnlyBodyCall(side, o.calls)
            && (side.ResponseSide? && st.resp.body != [] ==> o.result.Ok? && o.result.value.Halt? && o.calls == NO_CALLS)
  {
  }

  lemma FlushStateIs(oracle: Oracle, st: Stream, side: Side)
    requires st.request.Some? && (side.ResponseSide? ==> st.response.Some?) && st.carried.Some?
    requires Proceeds(FlushStreamed(oracle, st, side))
    ensures FlushProceeds(st, side, FlushStreamed(oracle, st, side))
  {
    hide Dehydrate;
  }

  // ---------------------------------------------------------------------------
  // Plans
  // ---------------------------------------------------------------------------

  /** What the phase of a plan needs to find in the stream. */
  predicate Ready(plan: Plan) {
    plan.Settle?
    || (&& plan.st.request.Some? && plan.st.carried.Some?
        && (plan.FullResponse? ==> plan.st.response.Some?)
        && ((plan.HeadersEarly? || plan.FilterChunk? || plan.Flush?) && plan.side.ResponseSide? ==> plan.st.response.Some?)
        && (plan.FilterChunk? ==> plan.st.At(plan.side).mode.Streamed?))
  }

  /** Hook calls a phase may make, and the ways it may fail. */
  predicate CallsFit(plan: Plan, o: Outcome) {
    match plan
    case Settle(outcome) => true
    case FullRequest(st, phase, _, ordinary) => FailsOnlyInHook(o) && RequestCalls(st, phase, ordinary, o.calls)
    case FullResponse(st, phase, _) => FailsOnlyInHook(o) && ResponseCalls(st, phase, o.calls)
    case HeadersEarly(_, side, _) =>
      FailsOnlyInHook(o) && OnlyHeaderCall(if side.RequestSide? then OnRequest else OnResponse, o.calls)
    case FilterChunk(_, side, _, _) =>
      && (o.result.Err? ==> o.result.status.FilterError? || o.result.status.BodyTooLarge?)
      && OnlyBodyCall(side, o.calls)
    case Flush(st, side) =>
      && FailsOnlyInHook(o) && OnlyBodyCall(side, o.calls)
      && (side.ResponseSide? && st.resp.body != [] ==> o.result.Ok? && o.result.value.Halt? && o.calls == NO_CALLS)
  }

  /** State and answer of a phase that proceeds. */
  predicate PhaseProceeds(cfg: Config, plan: Plan, o: Outcome)
    requires Ready(plan) && Proceeds(o)
  {
    match plan
    case Settle(outcome) => true
    case FullRequest(st, phase, eos, ordinary) =>
      RequestCallsAll(cfg, st, phase, ordinary, o.calls) && RequestState(st, phase, o) && RequestBatch(st, phase, eos, o)
    case FullResponse(st, phase, eos) => ResponseState(st, phase, o) && ResponseBatch(st, phase, eos, o)
    case HeadersEarly(st, RequestSide, delivery) =>
      EarlyProceeds(st, RequestSide, delivery, CollectRequest(LastEdits(o.calls)), st.response, o)
    case HeadersEarly(st, ResponseSide, delivery) =>
      var headers := LastHeaders(st.response.value, o.calls);
      EarlyProceeds(st, ResponseSide, delivery, Diff(headers, st.response.value), Some(headers), o)
    case FilterChunk(st, side, chunk, eos) =>
      && ChunkState(st, side, chunk, eos, o) && ChunkReply(st, side, chunk, eos, o)
      && (side.ResponseSide? ==> WithinLimits(cfg, st, chunk))
    case Flush(st, side) => FlushProceeds(st, side, o)
  }

  /** All that is ever used about the execution of a plan, whatever the filters do. */
  predicate Executed(cfg: Config, plan: Plan, o: Outcome) {
    && Ready(plan)
    && CallsFit(plan, o)
    && (if plan.Settle? then o == plan.outcome else Threads(plan.st, o))
    && (Proceeds(o) ==> PhaseProceeds(cfg, plan, o))
  }

  lemma ExecuteFits(cfg: Config, oracle: Oracle, plan: Plan)
    requires Ready(plan)
    ensures Executed(cfg, plan, Execute(cfg, oracle, plan))
  {
    hide RunRequest, RunResponse, EarlyRequest, EarlyResponse, StreamedChunk, FlushStreamed;
    hide RequestCalls, RequestCallsAll, RequestState, RequestBatch, ResponseCalls, ResponseState, ResponseBatch,
         EarlyProceeds, ChunkState, ChunkReply, FlushProceeds, Threads, OnlyHeaderCall, OnlyBodyCall;
    match plan
    case Settle(_) =>
    case FullRequest(st, phase, eos, ordinary) =>
      RequestThreads(cfg, oracle, st, phase, eos, ordinary);
      RequestCallsAre(cfg, oracle, st, phase, eos, ordinary);
      if Proceeds(RunRequest(cfg, oracle, st, phase, eos, ordinary)) {
        RequestStateIs(cfg, oracle, st, phase, eos, ordinary);
        RequestBatchIs(cfg, oracle, st, phase, eos, ordinary);
      }
    case FullResponse(st, phase, eos) =>
      ResponseThreads(oracle, st, phase, eos);
      if Proceeds(RunResponse(oracle, st, phase, eos)) {
        ResponseStateIs(oracle, st, phase, eos);
        ResponseBatchIs(oracle, st, phase, eos);
      }
    case HeadersEarly(st, side, delivery) =>
      if side.RequestSide? {
        EarlyRequestThreads(oracle, st, delivery);
        if Proceeds(EarlyRequest(oracle, st, delivery)) {
          EarlyRequestEffect(oracle, st, delivery);
        }
      } else {
        EarlyResponseThreads(oracle, st, delivery);
        if Proceeds(EarlyResponse(oracle, st, delivery)) {
          EarlyResponseEffect(oracle, st, delivery);
        }
      }
    case FilterChunk(st, side, chunk, eos) =>
      StreamedChunkThreads(cfg, oracle, st, side, chunk, eos);
      if Proceeds(StreamedChunk(cfg, oracle, st, side, chunk, eos)) {
        ChunkStateIs(cfg, oracle, st, side, chunk, eos);
        if side.ResponseSide? {
          ChunkFits(cfg, oracle, st, chunk, eos);
        }
        ChunkReplyIs(cfg, oracle, st, side, chunk, eos);
      }
    case Flush(st, side) => FlushEffect(oracle, st, side);
  }
}
