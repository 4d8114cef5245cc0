/**
 The invariant every live stream keeps, message by message.
 */
module Invariant {
  import opened Wire
  import opened HeaderMaps
  import opened Filters
  import opened Guardrails
  import opened Sequencing
  import opened Chunking
  import opened StreamSpec
  import opened Effects

  /** One direction: which flags go with which point of its message sequence. */
  predicate HalfInv(h: Half) {
    && (h.furthest.None? ==> h == NewHalf(h.mode))
    && (h.headersState.Completed? ==> h.bodyState.Active? && !h.bodySeen && h.body == [])
    && (h.bodyState.Completed? ==> h.furthest == Some(BodyStep) || h.furthest == Some(TrailersStep))
    && (h.furthest == Some(HeadersStep) ==> !h.bodySeen && h.body == [])
    && (h.furthest == Some(BodyStep) ==> h.bodySeen)
    && (h.mode.NoBody? ==> !h.bodySeen)
  }

  /** The direction saw headers that do not end the stream. */
  predicate Opened(h: Half) {
    h.furthest.Some? && h.headersState.Active?
  }

  /** Nothing more will be delivered for the direction but acknowledgements. */
  predicate Closed(h: Half) {
    h.headersState.Completed? || h.bodyState.Completed? || h.furthest == Some(TrailersStep)
  }

  /** Response headers are consumed by the full response pipeline. */
  predicate ResponseConsumed(cfg: Config, h: Half) {
    h.headersState.Completed?
    || (h.bodyState.Completed? && (h.mode.Buffered? || (h.mode.FullDuplex? && cfg.caps.needsResponseBody)))
  }

  /** Header filters ran when the headers arrived. */
  predicate RanEarly(cfg: Config, side: Side, h: Half) {
    Opened(h)
    && (h.mode.NoBody? || h.mode.Streamed?
        || (h.mode.FullDuplex? && !cfg.NeedsBody(side))
        || (h.mode.Buffered? && side.ResponseSide? && !cfg.NeedsBody(side)))
  }

  predicate RequestInv(cfg: Config, st: Stream) {
    && HalfInv(st.req)
    && (st.request.Some? <==> st.req.furthest.Some?)
    && (Opened(st.req) && !st.req.mode.Buffered? ==> !cfg.caps.needsSelectedBody)
    && (Opened(st.req) && st.req.furthest == Some(TrailersStep) ==> st.req.bodyState.Completed?)
    && (RanEarly(cfg, RequestSide, st.req) ==> st.req.executed)
    && (st.req.furthest.Some? && !st.req.executed ==>
          && Opened(st.req) && (st.req.mode.Buffered? || st.req.mode.FullDuplex?) && st.req.bodyState.Active?
          && (st.req.mode.Buffered? ==> !st.req.bodySeen))
    && (st.bufferedProcessed <==> st.req.mode.Buffered? && st.req.bodySeen)
    && (Opened(st.req) && !st.req.mode.FullDuplex? ==> st.req.sent)
    && (st.req.mode.FullDuplex? && Opened(st.req) && cfg.caps.needsRequestBody ==> !st.req.sent)
    && (st.req.mode.FullDuplex? && !cfg.caps.needsRequestBody && st.req.bodyState.Completed? ==> st.req.sent)
  }

  predicate ResponseInv(cfg: Config, st: Stream) {
    && HalfInv(st.resp)
    && (st.resp.furthest.Some? ==> st.req.furthest.Some?)
    && (st.response.Some? <==> st.resp.furthest.Some? && !ResponseConsumed(cfg, st.resp))
    && (Opened(st.resp) && st.resp.furthest == Some(TrailersStep) ==> st.resp.bodyState.Completed?)
    && (st.resp.executed <==> RanEarly(cfg, ResponseSide, st.resp))
    && (Opened(st.resp) && (st.resp.mode.NoBody? || st.resp.mode.Streamed?) ==> st.resp.sent)
    && (Opened(st.resp) && (st.resp.mode.Buffered? || (st.resp.mode.FullDuplex? && cfg.caps.needsResponseBody)) ==> !st.resp.sent)
    && (st.resp.mode.FullDuplex? && !cfg.caps.needsResponseBody && st.resp.bodyState.Completed? ==> st.resp.sent)
  }

  predicate LocalReplyInv(st: Stream) {
    && st.request.None? && st.response.None?
    && st.req == NewHalf(st.req.mode)
    && st.resp.furthest.Some?
    && (st.resp.headersState.Completed? ==> st.resp.bodyState.Active?)
    && (st.resp.bodyState.Completed? ==> st.resp.furthest == Some(BodyStep) || st.resp.furthest == Some(TrailersStep))
    && st.resp.body == [] && st.resp.deferred.None?
    && (!(Opened(st.resp) && st.resp.mode.FullDuplex?) ==> st.resp.sent)
    && (st.resp.furthest == Some(BodyStep) ==> st.resp.sent)
  }

  /** Holds at every message boundary of a live stream. */
  predicate Inv(cfg: Config, st: Stream) {
    && st.carried.Some?
    && (if st.localReply then LocalReplyInv(st) else RequestInv(cfg, st) && ResponseInv(cfg, st))
  }

  /** Errors the code guards against but that no accepted message sequence can trigger. */
  predicate InternalError(status: Status) {
    status.MissingRequestHeaders? || status.MissingResponseHeaders? || status.ContextMissing?
    || status.ContextAlreadyPresent? || status.LocalReplyRequest?
  }

  /** The step of message `m` when its phase ends with `o`. */
  function Stepped(cfg: Config, st: Stream, m: Message, o: Outcome): Outcome {
    Finish(cfg, m, Advanced(st, m).localReply, o)
  }

  /** A plan finds what it needs, and does not fail by itself for an internal reason. */
  ghost predicate Sound(plan: Plan) {
    Ready(plan) && (plan.Settle? && plan.outcome.result.Err? ==> !InternalError(plan.outcome.result.status))
  }

  // What it takes for a message of each kind to be handled: the stream is live, the dispatch
  // checks passed, and `o` is how the phase of its plan ended.

  ghost predicate RequestHeadersRan(cfg: Config, st: Stream, headers: seq<HeaderValue>, eos: bool, o: Outcome) {
    var m := Headers(RequestSide, headers, eos);
    Inv(cfg, st) && DispatchError(st, m).None? && Executed(cfg, RequestHeadersPlan(cfg, Advanced(st, m), headers, eos), o)
  }

  ghost predicate RequestBodyRan(cfg: Config, st: Stream, chunk: Bytes, eos: bool, o: Outcome) {
    var m := Body(RequestSide, chunk, eos);
    Inv(cfg, st) && DispatchError(st, m).None? && Executed(cfg, RequestBodyPlan(cfg, Advanced(st, m), chunk, eos), o)
  }

  ghost predicate ResponseHeadersRan(cfg: Config, st: Stream, headers: seq<HeaderValue>, eos: bool, o: Outcome) {
    var m := Headers(ResponseSide, headers, eos);
    && Inv(cfg, st) && DispatchError(st, m).None? && st.req.furthest.Some?
    && Executed(cfg, ResponseHeadersPlan(cfg, Advanced(st, m), headers, eos), o)
  }

  ghost predicate ResponseBodyRan(cfg: Config, st: Stream, chunk: Bytes, eos: bool, o: Outcome) {
    var m := Body(ResponseSide, chunk, eos);
    && Inv(cfg, st) && DispatchError(st, m).None? && !st.localReply
    && Executed(cfg, ResponseBodyPlan(cfg, Advanced(st, m), chunk, eos), o)
  }

  ghost predicate TrailersRan(cfg: Config, st: Stream, side: Side, o: Outcome) {
    && Inv(cfg, st) && DispatchError(st, Trailers(side)).None? && !st.localReply
    && Executed(cfg, TrailersPlan(cfg, Advanced(st, Trailers(side)), side), o)
  }

  ghost predicate LocalReplyRan(cfg: Config, st: Stream, m: Message, o: Outcome) {
    && Inv(cfg, st) && DispatchError(st, m).None? && m.side.ResponseSide? && st.req.furthest.None?
    && Executed(cfg, LocalReplyPlan(Advanced(st, m), m), o)
  }

  /** The first message of a direction: nothing is known but its mode and whether it ends the stream. */
  function HeadersMarked(mode: BodyMode, eos: bool): Half {
    NewHalf(mode).(furthest := Some(HeadersStep), headersState := if eos then Completed else Active)
  }

  /** How request headers went: refused as ambiguous, or on to the plan of admitted headers. */
  ghost predicate RequestHeadersWent(cfg: Config, st: Stream, headers: seq<HeaderValue>, eos: bool, o: Outcome) {
    var st' := st.(req := HeadersMarked(st.req.mode, eos));
    && Inv(cfg, st) && !st.localReply && st.req == NewHalf(st.req.mode)
    && (if !Admitted(headers) then o == Done(st', Halt(Rejection(400, AmbiguousSelection)))
        else Executed(cfg, AdmittedHeadersPlan(cfg, st'.(request := Some(headers)), headers, eos), o))
  }

  lemma RequestHeadersCases(cfg: Config, st: Stream, headers: seq<HeaderValue>, eos: bool, o: Outcome)
    requires RequestHeadersRan(cfg, st, headers, eos, o)
    ensures RequestHeadersWent(cfg, st, headers, eos, o)
  {
    hide PlanFrame, AdmittedHeadersPlan, Admitted, ResponseInv, LocalReplyInv, CallsFit, PhaseProceeds, Threads, Ready;
  }

  /** How response headers went, outside local replies. */
  ghost predicate ResponseHeadersWent(cfg: Config, st: Stream, headers: seq<HeaderValue>, eos: bool, o: Outcome) {
    var st' := st.(resp := HeadersMarked(st.resp.mode, eos), response := Some(FromEnvoy(headers)));
    && Inv(cfg, st) && !st.localReply && st.resp == NewHalf(st.resp.mode) && st.req.furthest.Some?
    && Executed(cfg, if eos then FullResponse(st', AtHeaders, true) else OpenResponsePlan(cfg, st'), o)
  }

  lemma ResponseHeadersCases(cfg: Config, st: Stream, headers: seq<HeaderValue>, eos: bool, o: Outcome)
    requires ResponseHeadersRan(cfg, st, headers, eos, o)
    ensures ResponseHeadersWent(cfg, st, headers, eos, o)
  {
    hide PlanFrame, OpenResponsePlan, FromEnvoy, RequestInv, CallsFit, PhaseProceeds, Threads, Ready;
  }

  /** How trailers went: they close a body that is open, and change nothing but their own place otherwise. */
  ghost predicate TrailersWent(cfg: Config, st: Stream, side: Side, o: Outcome) {
    var st' := st.With(side, st.At(side).(furthest := Some(TrailersStep)));
    && Inv(cfg, st) && !st.localReply && st.At(side).furthest.Some? && st.At(side).furthest != Some(TrailersStep)
    && st.req.furthest.Some?
    && (if BodyOpen(st, side) then Executed(cfg, ClosePlan(cfg, st'.With(side, st'.At(side).(bodyState := Completed)), side), o)
        else o == Done(st', NOTHING))
  }

  lemma TrailersCases(cfg: Config, st: Stream, side: Side, o: Outcome)
    requires TrailersRan(cfg, st, side, o)
    ensures TrailersWent(cfg, st, side, o)
  {
    hide PlanFrame, ClosePlan, RequestInv, LocalReplyInv, CallsFit, PhaseProceeds, Threads, Ready;
  }

  /** A body message arrived: its direction remembers it, and whether it ends the stream. */
  function BodyMarked(st: Stream, side: Side, eos: bool): Stream {
    var h := st.At(side);
    st.With(side, h.(furthest := Some(BodyStep), bodySeen := true, bodyState := if eos then Completed else h.bodyState))
  }

  /** How a request body message went, case by case. */
  ghost predicate RequestBodyWent(cfg: Config, st: Stream, chunk: Bytes, eos: bool, o: Outcome) {
    var h, st' := st.req, BodyMarked(st, RequestSide, eos && st.req.bodyState.Active?);
    && Inv(cfg, st) && !st.localReply && h.furthest.Some? && h.furthest != Some(TrailersStep) && !h.mode.NoBody?
    && (if h.bodyState.Completed? then o == if h.mode.FullDuplex? then Done(st', NOTHING) else Fail(st', DuplicateAfterEos)
        else if h.headersState.Completed? then o.result.Err? && o.calls == NO_CALLS
        else if h.mode.Streamed? || (h.mode.FullDuplex? && !cfg.caps.needsRequestBody) then
          Executed(cfg, CountedRequestPlan(cfg, st', chunk, eos), o)
        else Executed(cfg, AccumulateRequestPlan(cfg, st', chunk, eos), o))
  }

  lemma RequestBodyCases(cfg: Config, st: Stream, chunk: Bytes, eos: bool, o: Outcome)
    requires RequestBodyRan(cfg, st, chunk, eos, o)
    ensures RequestBodyWent(cfg, st, chunk, eos, o)
  {
    hide PlanFrame, CountedRequestPlan, AccumulateRequestPlan, RequestInv, ResponseInv, LocalReplyInv, CallsFit,
         PhaseProceeds, Threads, Ready;
    RequestIsNoLocalReply(cfg, st, chunk, eos);
  }

  lemma RequestIsNoLocalReply(cfg: Config, st: Stream, chunk: Bytes, eos: bool)
    requires Inv(cfg, st) && DispatchError(st, Body(RequestSide, chunk, eos)).None?
    ensures !st.localReply && st.req.furthest.Some? && st.req.furthest != Some(TrailersStep) && !st.req.mode.NoBody?
  {
    hide Inv;
  }

  /** How a response body message went, outside local replies. */
  ghost predicate ResponseBodyWent(cfg: Config, st: Stream, chunk: Bytes, eos: bool, o: Outcome) {
    var h, st' := st.resp, BodyMarked(st, ResponseSide, eos && st.resp.bodyState.Active?);
    && Inv(cfg, st) && !st.localReply && h.furthest.Some? && h.furthest != Some(TrailersStep) && !h.mode.NoBody? && st.req.furthest.Some?
    && (if h.bodyState.Completed? then o == if h.mode.FullDuplex? then Done(st', NOTHING) else Fail(st', DuplicateAfterEos)
        else if h.headersState.Completed? then o.result.Err? && o.calls == NO_CALLS
        else if (h.mode.Streamed? || h.mode.FullDuplex?) && !cfg.caps.needsResponseBody then
          o == Passthrough(st', ResponseSide, chunk, eos)
        else if h.mode.Streamed? then Executed(cfg, FilterChunk(st', ResponseSide, chunk, eos), o)
        else Executed(cfg, AccumulateResponsePlan(cfg, st', chunk, eos), o))
  }

  lemma ResponseBodyCases(cfg: Config, st: Stream, chunk: Bytes, eos: bool, o: Outcome)
    requires ResponseBodyRan(cfg, st, chunk, eos, o)
    ensures ResponseBodyWent(cfg, st, chunk, eos, o)
  {
    hide PlanFrame, Passthrough, AccumulateResponsePlan, RequestInv, ResponseInv, LocalReplyInv, CallsFit, PhaseProceeds,
         Threads, Ready;
    ResponseFollowsRequest(cfg, st);
  }

  lemma ResponseFollowsRequest(cfg: Config, st: Stream)
    requires Inv(cfg, st) && !st.localReply && st.resp.furthest.Some?
    ensures st.req.furthest.Some?
  {
  }

  /** The request half of the invariant reads nothing of the response. */
  lemma RequestInvFrame(cfg: Config, st: Stream, st': Stream)
    requires RequestInv(cfg, st)
    requires st'.req == st.req && st'.request == st.request && st'.bufferedProcessed == st.bufferedProcessed
    ensures RequestInv(cfg, st')
  {
  }

  /** The response half reads of the request only that it was opened. */
  lemma ResponseInvFrame(cfg: Config, st: Stream, st': Stream)
    requires ResponseInv(cfg, st)
    requires st'.resp == st.resp && st'.response == st.response && (st.req.furthest.Some? ==> st'.req.furthest.Some?)
    ensures ResponseInv(cfg, st')
  {
  }

  lemma RequestPlansAreSound(cfg: Config, st: Stream, m: Message)
    requires Inv(cfg, st) && m.side.RequestSide?
    ensures Sound(PlanFor(cfg, st, m))
  {
    hide PlanFrame, Sound, LocalReplyPlan, RequestHeadersPlan, RequestBodyPlan, TrailersPlan, RequestInv, ResponseInv,
         LocalReplyInv;
    if DispatchError(st, m).Some? {
      RefusalIsSound(st, DispatchError(st, m).value);
    } else {
      match m
      case Headers(_, headers, eos) => RequestHeadersPlanIsSound(cfg, Advanced(st, m), headers, eos);
      case Body(_, chunk, eos) => RequestBodyPlanIsSound(cfg, st, chunk, eos);
      case Trailers(_) => RequestTrailersPlanIsSound(cfg, st);
    }
  }

  lemma RequestHeadersPlanIsSound(cfg: Config, st: Stream, headers: seq<HeaderValue>, eos: bool)
    requires st.carried.Some?
    ensures Sound(RequestHeadersPlan(cfg, st, headers, eos))
  {
    hide PlanFrame, HeadersCommon, Admitted, HasSelectedGuardrail, Rejection;
  }

  lemma RequestBodyPlanIsSound(cfg: Config, st: Stream, chunk: Bytes, eos: bool)
    requires Inv(cfg, st) && DispatchError(st, Body(RequestSide, chunk, eos)).None?
    ensures Sound(RequestBodyPlan(cfg, Advanced(st, Body(RequestSide, chunk, eos)), chunk, eos))
  {
    hide PlanFrame, HeadersCommon, BodyResponses, OversizedRequest, Rejection, ResponseInv;
  }

  lemma RequestTrailersPlanIsSound(cfg: Config, st: Stream)
    requires Inv(cfg, st) && DispatchError(st, Trailers(RequestSide)).None?
    ensures Sound(TrailersPlan(cfg, Advanced(st, Trailers(RequestSide)), RequestSide))
  {
    hide PlanFrame, HeadersCommon, ResponseInv;
  }

  lemma ResponsePlansAreSound(cfg: Config, st: Stream, m: Message)
    requires Inv(cfg, st) && m.side.ResponseSide?
    ensures Sound(PlanFor(cfg, st, m))
  {
    hide PlanFrame, Sound, LocalReplyPlan, ResponseHeadersPlan, ResponseBodyPlan, TrailersPlan, RequestInv, ResponseInv,
         LocalReplyInv;
    if DispatchError(st, m).Some? {
      RefusalIsSound(st, DispatchError(st, m).value);
    } else if Advanced(st, m).localReply {
      LocalReplyPlanIsSound(Advanced(st, m), m);
    } else {
      RequestWasOpened(cfg, st, m);
      match m
      case Headers(_, headers, eos) => ResponseHeadersPlanIsSound(cfg, Advanced(st, m), headers, eos);
      case Body(_, chunk, eos) => ResponseBodyPlanIsSound(cfg, st, chunk, eos);
      case Trailers(_) => ResponseTrailersPlanIsSound(cfg, Advanced(st, m));
    }
  }

  lemma RefusalIsSound(st: Stream, status: Status)
    requires !InternalError(status)
    ensures Sound(Refused(st, status))
  {
  }

  lemma LocalReplyPlanIsSound(st: Stream, m: Message)
    requires m.side.ResponseSide?
    ensures Sound(LocalReplyPlan(st, m))
  {
    hide PlanFrame, HeadersCommon, BodyResponses;
  }

  /** A response that did not open the stream finds the request. */
  lemma RequestWasOpened(cfg: Config, st: Stream, m: Message)
    requires Inv(cfg, st) && m.side.ResponseSide? && !Advanced(st, m).localReply
    ensures st.request.Some? && st.carried.Some? && !st.localReply && st.req.furthest.Some?
  {
  }

  lemma ResponseHeadersPlanIsSound(cfg: Config, st: Stream, headers: seq<HeaderValue>, eos: bool)
    requires st.request.Some? && st.carried.Some?
    ensures Sound(ResponseHeadersPlan(cfg, st, headers, eos))
  {
    hide PlanFrame, HeadersCommon, FromEnvoy;
  }

  lemma ResponseBodyPlanIsSound(cfg: Config, st: Stream, chunk: Bytes, eos: bool)
    requires Inv(cfg, st) && !st.localReply && st.request.Some? && DispatchError(st, Body(ResponseSide, chunk, eos)).None?
    requires st.req.furthest.Some?
    ensures Sound(ResponseBodyPlan(cfg, Advanced(st, Body(ResponseSide, chunk, eos)), chunk, eos))
  {
    hide PlanFrame, HeadersCommon, BodyResponses, RequestInv;
  }

  lemma ResponseTrailersPlanIsSound(cfg: Config, st: Stream)
    requires st.request.Some? && st.carried.Some?
    ensures Sound(TrailersPlan(cfg, st, ResponseSide))
  {
    hide PlanFrame, HeadersCommon;
  }

  lemma RequestHeadersKeep(cfg: Config, st: Stream, headers: seq<HeaderValue>, eos: bool, o: Outcome)
    requires RequestHeadersRan(cfg, st, headers, eos, o) && Proceeds(FinishRequestHeaders(cfg, headers, eos, o))
    ensures Inv(cfg, FinishRequestHeaders(cfg, headers, eos, o).st)
  {
    hide Inv, Executed, FinishRequestHeaders;
    if eos {
      RequestEndKeeps(cfg, st, headers, eos, o);
    } else {
      RequestOpeningKeeps(cfg, st, headers, eos, o);
    }
  }

  lemma RequestEndKeeps(cfg: Config, st: Stream, headers: seq<HeaderValue>, eos: bool, o: Outcome)
    requires RequestHeadersRan(cfg, st, headers, eos, o) && Proceeds(FinishRequestHeaders(cfg, headers, eos, o))
    requires eos
    ensures Inv(cfg, FinishRequestHeaders(cfg, headers, eos, o).st)
  {
    hide PlanFrame, HeadersCommon, Admitted, HasSelectedGuardrail, ShouldStream, CollectRequest, RequestBatch, CallsFit,
         Chained, Parked, ChainEnd, ResponseCalls, ResponseState, ResponseBatch, ChunkState, ChunkReply, WithinLimits,
         FlushProceeds, OnlyBodyCall, LocalReplyInv, RequestHeadersRan, RequestHeadersPlan, DispatchError;
    RequestHeadersCases(cfg, st, headers, eos, o);
  }

  lemma RequestOpeningKeeps(cfg: Config, st: Stream, headers: seq<HeaderValue>, eos: bool, o: Outcome)
    requires RequestHeadersRan(cfg, st, headers, eos, o) && Proceeds(FinishRequestHeaders(cfg, headers, eos, o))
    requires !eos
    ensures Inv(cfg, FinishRequestHeaders(cfg, headers, eos, o).st)
  {
    hide RequestHeadersRan, FinishRequestHeaders, Inv;
    if st.req.mode.FullDuplex? {
      DuplexRequestOpeningKeeps(cfg, st, headers, eos, o);
    } else {
      PlainRequestOpeningKeeps(cfg, st, headers, eos, o);
    }
  }

  lemma DuplexRequestOpeningKeeps(cfg: Config, st: Stream, headers: seq<HeaderValue>, eos: bool, o: Outcome)
    requires RequestHeadersRan(cfg, st, headers, eos, o) && Proceeds(FinishRequestHeaders(cfg, headers, eos, o))
    requires !eos
    requires st.req.mode.FullDuplex?
    ensures Inv(cfg, FinishRequestHeaders(cfg, headers, eos, o).st)
  {
    hide PlanFrame, HeadersCommon, Admitted, HasSelectedGuardrail, ShouldStream, CollectRequest, RequestBatch, CallsFit,
         Chained, Parked, ChainEnd, ChunkReply, ChunkState, WithinLimits, FlushProceeds, ResponseState, ResponseBatch,
         LocalReplyInv, ResponseCalls, OnlyBodyCall, RequestHeadersRan, RequestHeadersPlan, DispatchError;
    RequestHeadersCases(cfg, st, headers, eos, o);
  }

  lemma PlainRequestOpeningKeeps(cfg: Config, st: Stream, headers: seq<HeaderValue>, eos: bool, o: Outcome)
    requires RequestHeadersRan(cfg, st, headers, eos, o) && Proceeds(FinishRequestHeaders(cfg, headers, eos, o))
    requires !eos
    requires !st.req.mode.FullDuplex?
    ensures Inv(cfg, FinishRequestHeaders(cfg, headers, eos, o).st)
  {
    hide PlanFrame, HeadersCommon, Admitted, HasSelectedGuardrail, ShouldStream, CollectRequest, RequestBatch, CallsFit,
         Chained, Parked, ChainEnd, ChunkReply, ChunkState, WithinLimits, FlushProceeds, ResponseState, ResponseBatch,
         LocalReplyInv, ResponseCalls, OnlyBodyCall, RequestHeadersRan, RequestHeadersPlan, DispatchError;
    RequestHeadersCases(cfg, st, headers, eos, o);
  }

  lemma RequestBodyKeeps(cfg: Config, st: Stream, chunk: Bytes, eos: bool, o: Outcome)
    requires RequestBodyRan(cfg, st, chunk, eos, o) && Proceeds(o)
    ensures Inv(cfg, o.st)
  {
    hide Inv, Executed;
    if st.req.mode.Streamed? {
      StreamedRequestBodyKeeps(cfg, st, chunk, eos, o);
    } else {
      OtherRequestBodyKeeps(cfg, st, chunk, eos, o);
    }
  }

  lemma StreamedRequestBodyKeeps(cfg: Config, st: Stream, chunk: Bytes, eos: bool, o: Outcome)
    requires RequestBodyRan(cfg, st, chunk, eos, o) && Proceeds(o)
    requires st.req.mode.Streamed?
    ensures Inv(cfg, o.st)
  {
    hide PlanFrame, HeadersCommon, BodyResponses, RequestBatch, ChunkReply, WithinLimits, CallsFit, Chained, Parked,
         ChainEnd, ResponseInv, ResponseCalls, ResponseState, ResponseBatch, EarlyProceeds, FlushProceeds, OnlyHeaderCall,
         LocalReplyInv, RequestBodyRan, RequestBodyPlan, DispatchError;
    RequestBodyCases(cfg, st, chunk, eos, o);
    ResponseInvFrame(cfg, st, o.st);
  }

  lemma OtherRequestBodyKeeps(cfg: Config, st: Stream, chunk: Bytes, eos: bool, o: Outcome)
    requires RequestBodyRan(cfg, st, chunk, eos, o) && Proceeds(o)
    requires !st.req.mode.Streamed?
    ensures Inv(cfg, o.st)
  {
    hide Inv, Executed;
    if st.req.mode.FullDuplex? {
      DuplexRequestBodyKeeps(cfg, st, chunk, eos, o);
    } else {
      BufferedRequestBodyKeeps(cfg, st, chunk, eos, o);
    }
  }

  lemma DuplexRequestBodyKeeps(cfg: Config, st: Stream, chunk: Bytes, eos: bool, o: Outcome)
    requires RequestBodyRan(cfg, st, chunk, eos, o) && Proceeds(o)
    requires !st.req.mode.Streamed?
    requires st.req.mode.FullDuplex?
    ensures Inv(cfg, o.st)
  {
    hide PlanFrame, HeadersCommon, BodyResponses, RequestBatch, ChunkReply, WithinLimits, CallsFit, Chained, Parked,
         ChainEnd, ResponseInv, ResponseCalls, ResponseState, ResponseBatch, EarlyProceeds, FlushProceeds, OnlyHeaderCall,
         LocalReplyInv, RequestBodyRan, RequestBodyPlan, DispatchError;
    RequestBodyCases(cfg, st, chunk, eos, o);
    ResponseInvFrame(cfg, st, o.st);
  }

  lemma BufferedRequestBodyKeeps(cfg: Config, st: Stream, chunk: Bytes, eos: bool, o: Outcome)
    requires RequestBodyRan(cfg, st, chunk, eos, o) && Proceeds(o)
    requires !st.req.mode.Streamed?
    requires !st.req.mode.FullDuplex?
    ensures Inv(cfg, o.st)
  {
    hide PlanFrame, HeadersCommon, BodyResponses, RequestBatch, ChunkReply, WithinLimits, CallsFit, Chained, Parked,
         ChainEnd, ResponseInv, ResponseCalls, ResponseState, ResponseBatch, EarlyProceeds, FlushProceeds, OnlyHeaderCall,
         LocalReplyInv, RequestBodyRan, RequestBodyPlan, DispatchError;
    RequestBodyCases(cfg, st, chunk, eos, o);
    ResponseInvFrame(cfg, st, o.st);
  }

  lemma ResponseHeadersKeep(cfg: Config, st: Stream, headers: seq<HeaderValue>, eos: bool, o: Outcome)
    requires ResponseHeadersRan(cfg, st, headers, eos, o) && Proceeds(o)
    ensures Inv(cfg, o.st)
  {
    hide ResponseHeadersRan, Executed, FromEnvoy, RequestInv, ResponseInv, LocalReplyInv, OpenResponsePlan, PlanFrame;
    ResponseHeadersCases(cfg, st, headers, eos, o);
    var st1 := st.(resp := HeadersMarked(st.resp.mode, eos), response := Some(FromEnvoy(headers)));
    if eos {
      ResponseEndsAtHeaders(cfg, st1, o);
    } else if cfg.caps.needsResponseBody {
      ResponseOpensFiltered(cfg, st1, o);
    } else {
      ResponseOpensUnfiltered(cfg, st1, o);
    }
    RequestInvFrame(cfg, st, o.st);
  }

  lemma ResponseEndsAtHeaders(cfg: Config, st: Stream, o: Outcome)
    requires st.resp == HeadersMarked(st.resp.mode, true) && st.req.furthest.Some? && st.carried.Some?
    requires Executed(cfg, FullResponse(st, AtHeaders, true), o) && Proceeds(o)
    ensures ResponseInv(cfg, o.st) && o.st.carried.Some? && !o.st.localReply == !st.localReply
    ensures o.st.req == st.req && o.st.request == st.request && o.st.bufferedProcessed == st.bufferedProcessed
  {
    hide PlanFrame, HeadersCommon, ResponseBatch, CallsFit, Chained, Parked, ChainEnd;
  }

  lemma ResponseOpensFiltered(cfg: Config, st: Stream, o: Outcome)
    requires st.resp == HeadersMarked(st.resp.mode, false) && st.req.furthest.Some? && st.carried.Some?
    requires st.response.Some? && cfg.caps.needsResponseBody
    requires Executed(cfg, OpenResponsePlan(cfg, st), o) && Proceeds(o)
    ensures ResponseInv(cfg, o.st) && o.st.carried.Some? && !o.st.localReply == !st.localReply
    ensures o.st.req == st.req && o.st.request == st.request && o.st.bufferedProcessed == st.bufferedProcessed
  {
    hide PlanFrame, HeadersCommon, Diff, ResponseBatch, CallsFit, Chained, Parked, ChainEnd;
  }

  lemma ResponseOpensUnfiltered(cfg: Config, st: Stream, o: Outcome)
    requires st.resp == HeadersMarked(st.resp.mode, false) && st.req.furthest.Some? && st.carried.Some?
    requires st.response.Some? && !cfg.caps.needsResponseBody
    requires Executed(cfg, OpenResponsePlan(cfg, st), o) && Proceeds(o)
    ensures ResponseInv(cfg, o.st) && o.st.carried.Some? && !o.st.localReply == !st.localReply
    ensures o.st.req == st.req && o.st.request == st.request && o.st.bufferedProcessed == st.bufferedProcessed
  {
    hide PlanFrame, HeadersCommon, Diff, ResponseBatch, CallsFit, Chained, Parked, ChainEnd;
  }

  lemma ResponseBodyKeeps(cfg: Config, st: Stream, chunk: Bytes, eos: bool, o: Outcome)
    requires ResponseBodyRan(cfg, st, chunk, eos, o) && Proceeds(o)
    ensures Inv(cfg, o.st)
  {
    hide Inv, Executed;
    if st.resp.mode.Streamed? {
      StreamedResponseBodyKeeps(cfg, st, chunk, eos, o);
    } else {
      OtherResponseBodyKeeps(cfg, st, chunk, eos, o);
    }
  }

  lemma StreamedResponseBodyKeeps(cfg: Config, st: Stream, chunk: Bytes, eos: bool, o: Outcome)
    requires ResponseBodyRan(cfg, st, chunk, eos, o) && Proceeds(o)
    requires st.resp.mode.Streamed?
    ensures Inv(cfg, o.st)
  {
    hide PlanFrame, HeadersCommon, BodyResponses, ResponseBatch, ChunkReply, WithinLimits, Buffering, CallsFit, Chained,
         Parked, ChainEnd, RequestInv, RequestCalls, RequestCallsAll, RequestState, RequestBatch, EarlyProceeds,
         FlushProceeds, OnlyHeaderCall, LocalReplyInv, ResponseBodyRan, ResponseBodyPlan, DispatchError;
    ResponseBodyCases(cfg, st, chunk, eos, o);
    RequestInvFrame(cfg, st, o.st);
  }

  lemma OtherResponseBodyKeeps(cfg: Config, st: Stream, chunk: Bytes, eos: bool, o: Outcome)
    requires ResponseBodyRan(cfg, st, chunk, eos, o) && Proceeds(o)
    requires !st.resp.mode.Streamed?
    ensures Inv(cfg, o.st)
  {
    hide Inv, Executed;
    if st.resp.mode.FullDuplex? {
      DuplexResponseBodyKeeps(cfg, st, chunk, eos, o);
    } else {
      BufferedResponseBodyKeeps(cfg, st, chunk, eos, o);
    }
  }

  lemma DuplexResponseBodyKeeps(cfg: Config, st: Stream, chunk: Bytes, eos: bool, o: Outcome)
    requires ResponseBodyRan(cfg, st, chunk, eos, o) && Proceeds(o)
    requires !st.resp.mode.Streamed?
    requires st.resp.mode.FullDuplex?
    ensures Inv(cfg, o.st)
  {
    hide PlanFrame, HeadersCommon, BodyResponses, ResponseBatch, ChunkReply, WithinLimits, Buffering, CallsFit, Chained,
         Parked, ChainEnd, RequestInv, RequestCalls, RequestCallsAll, RequestState, RequestBatch, EarlyProceeds,
         FlushProceeds, OnlyHeaderCall, LocalReplyInv, ResponseBodyRan, ResponseBodyPlan, DispatchError;
    ResponseBodyCases(cfg, st, chunk, eos, o);
    RequestInvFrame(cfg, st, o.st);
  }

  lemma BufferedResponseBodyKeeps(cfg: Config, st: Stream, chunk: Bytes, eos: bool, o: Outcome)
    requires ResponseBodyRan(cfg, st, chunk, eos, o) && Proceeds(o)
    requires !st.resp.mode.Streamed?
    requires !st.resp.mode.FullDuplex?
    ensures Inv(cfg, o.st)
  {
    hide PlanFrame, HeadersCommon, BodyResponses, ResponseBatch, ChunkReply, WithinLimits, Buffering, CallsFit, Chained,
         Parked, ChainEnd, RequestInv, RequestCalls, RequestCallsAll, RequestState, RequestBatch, EarlyProceeds,
         FlushProceeds, OnlyHeaderCall, LocalReplyInv, ResponseBodyRan, ResponseBodyPlan, DispatchError;
    ResponseBodyCases(cfg, st, chunk, eos, o);
    RequestInvFrame(cfg, st, o.st);
  }

  lemma RequestTrailersKeep(cfg: Config, st: Stream, o: Outcome)
    requires TrailersRan(cfg, st, RequestSide, o) && Proceeds(o)
    ensures Inv(cfg, o.st)
  {
    hide TrailersRan, Inv, BodyOpen;
    if BodyOpen(st, RequestSide) {
      ClosingRequestTrailersKeep(cfg, st, o);
    } else {
      LateRequestTrailersKeep(cfg, st, o);
    }
  }

  lemma ClosingRequestTrailersKeep(cfg: Config, st: Stream, o: Outcome)
    requires TrailersRan(cfg, st, RequestSide, o) && Proceeds(o)
    requires BodyOpen(st, RequestSide)
    ensures Inv(cfg, o.st)
  {
    hide PlanFrame, HeadersCommon, RequestBatch, CallsFit, Chained, Parked, ChainEnd, ResponseInv, ResponseCalls,
         ResponseState, ResponseBatch, ChunkState, ChunkReply, WithinLimits, EarlyProceeds, OnlyHeaderCall, LocalReplyInv,
         TrailersRan, TrailersPlan, DispatchError;
    TrailersCases(cfg, st, RequestSide, o);
    ResponseInvFrame(cfg, st, o.st);
  }

  lemma LateRequestTrailersKeep(cfg: Config, st: Stream, o: Outcome)
    requires TrailersRan(cfg, st, RequestSide, o) && Proceeds(o)
    requires !BodyOpen(st, RequestSide)
    ensures Inv(cfg, o.st)
  {
    hide PlanFrame, HeadersCommon, RequestBatch, CallsFit, Chained, Parked, ChainEnd, ResponseInv, ResponseCalls,
         ResponseState, ResponseBatch, ChunkState, ChunkReply, WithinLimits, EarlyProceeds, OnlyHeaderCall, LocalReplyInv,
         TrailersRan, TrailersPlan, DispatchError;
    TrailersCases(cfg, st, RequestSide, o);
    ResponseInvFrame(cfg, st, o.st);
  }

  lemma ResponseTrailersKeep(cfg: Config, st: Stream, o: Outcome)
    requires TrailersRan(cfg, st, ResponseSide, o) && Proceeds(o)
    ensures Inv(cfg, o.st)
  {
    hide Inv, Executed;
    if st.resp.bodyState.Completed? || st.resp.headersState.Completed? {
      LateResponseTrailersKeep(cfg, st, o);
    } else {
      ClosingResponseTrailersKeep(cfg, st, o);
    }
  }

  lemma LateResponseTrailersKeep(cfg: Config, st: Stream, o: Outcome)
    requires TrailersRan(cfg, st, ResponseSide, o) && Proceeds(o)
    requires st.resp.bodyState.Completed? || st.resp.headersState.Completed?
    ensures Inv(cfg, o.st)
  {
    hide PlanFrame, HeadersCommon, ResponseBatch, CallsFit, Chained, Parked, ChainEnd, RequestInv, RequestCalls,
         RequestCallsAll, RequestState, RequestBatch, ChunkState, ChunkReply, WithinLimits, EarlyProceeds, OnlyHeaderCall,
         LocalReplyInv, TrailersRan, TrailersPlan, DispatchError;
    TrailersCases(cfg, st, ResponseSide, o);
    RequestInvFrame(cfg, st, o.st);
  }

  lemma ClosingResponseTrailersKeep(cfg: Config, st: Stream, o: Outcome)
    requires TrailersRan(cfg, st, ResponseSide, o) && Proceeds(o)
    requires !(st.resp.bodyState.Completed? || st.resp.headersState.Completed?)
    ensures Inv(cfg, o.st)
  {
    hide Inv, Executed;
    if st.resp.mode.FullDuplex? {
      DuplexResponseTrailersKeep(cfg, st, o);
    } else {
      OtherResponseTrailersKeep(cfg, st, o);
    }
  }

  lemma DuplexResponseTrailersKeep(cfg: Config, st: Stream, o: Outcome)
    requires TrailersRan(cfg, st, ResponseSide, o) && Proceeds(o)
    requires !(st.resp.bodyState.Completed? || st.resp.headersState.Completed?)
    requires st.resp.mode.FullDuplex?
    ensures Inv(cfg, o.st)
  {
    hide PlanFrame, HeadersCommon, ResponseBatch, CallsFit, Chained, Parked, ChainEnd, RequestInv, RequestCalls,
         RequestCallsAll, RequestState, RequestBatch, ChunkState, ChunkReply, WithinLimits, EarlyProceeds, OnlyHeaderCall,
         LocalReplyInv, TrailersRan, TrailersPlan, DispatchError;
    TrailersCases(cfg, st, ResponseSide, o);
    RequestInvFrame(cfg, st, o.st);
  }

  lemma OtherResponseTrailersKeep(cfg: Config, st: Stream, o: Outcome)
    requires TrailersRan(cfg, st, ResponseSide, o) && Proceeds(o)
    requires !(st.resp.bodyState.Completed? || st.resp.headersState.Completed?)
    requires !st.resp.mode.FullDuplex?
    ensures Inv(cfg, o.st)
  {
    hide PlanFrame, HeadersCommon, ResponseBatch, CallsFit, Chained, Parked, ChainEnd, RequestInv, RequestCalls,
         RequestCallsAll, RequestState, RequestBatch, ChunkState, ChunkReply, WithinLimits, EarlyProceeds, OnlyHeaderCall,
         LocalReplyInv, TrailersRan, TrailersPlan, DispatchError;
    TrailersCases(cfg, st, ResponseSide, o);
    RequestInvFrame(cfg, st, o.st);
  }

  /** A local reply is settled without any phase. */
  lemma LocalReplySettles(cfg: Config, st: Stream, m: Message, o: Outcome)
    requires Executed(cfg, LocalReplyPlan(st, m), o)
    ensures LocalReplyPlan(st, m).Settle? && o == LocalReplyPlan(st, m).outcome && o.calls == NO_CALLS
  {
    hide BodyResponses, HeadersCommon, PhaseProceeds, CallsFit, Threads;
  }

  /** What a body message of a local reply does to the stream. */
  predicate LocalBodyEffect(st: Stream, m: Message, o: Outcome)
    requires m.Body? && Proceeds(o)
  {
    var h, first := st.resp, st.resp.bodyState.Active?;
    && st.localReply && h.headersState.Active? && h.furthest.Some? && h.furthest != Some(TrailersStep)
    && o.st == st.(resp := h.(furthest := Some(BodyStep), bodyState := if m.endOfStream then Completed else h.bodyState,
                              sent := h.sent || (first && h.mode.FullDuplex?)))
    && (o.result.value.headers.Some? <==> first && h.mode.FullDuplex? && !h.sent)
    && o.result.value.bodies
       == (if !first then []
           else BodyResponses(ResponseSide, h.mode, if h.mode.FullDuplex? && m.body != [] then Some(m.body) else None, None, m.endOfStream))
  }

  lemma LocalBodyPlanIs(st: Stream, m: Message)
    requires LocalReplyInv(st) && st.localReply && m.side.ResponseSide? && m.Body?
    requires st.resp.furthest != Some(TrailersStep)
    ensures var plan := LocalReplyPlan(Advanced(st, m), m);
            plan.Settle? && (Proceeds(plan.outcome) ==> LocalBodyEffect(st, m, plan.outcome))
  {
    hide PlanFrame, BodyResponses, HeadersCommon;
  }

  /** Only a stream already in a local reply gets a body without a request. */
  lemma LocalReplyBegan(cfg: Config, st: Stream, m: Message)
    requires Inv(cfg, st) && DispatchError(st, m).None?
    requires m.side.ResponseSide? && st.req.furthest.None? && m.Body?
    ensures st.localReply && LocalReplyInv(st) && st.resp.furthest != Some(TrailersStep)
  {
    hide RequestInv, HalfInv;
  }

  lemma LocalReplyBodyIs(cfg: Config, st: Stream, m: Message, o: Outcome)
    requires LocalReplyRan(cfg, st, m, o) && m.Body? && Proceeds(o)
    ensures LocalReplyInv(st) && LocalBodyEffect(st, m, o) && o.calls == NO_CALLS
  {
    hide Inv, Executed, LocalReplyPlan, LocalReplyInv, LocalBodyEffect, DispatchError;
    LocalReplySettles(cfg, Advanced(st, m), m, o);
    LocalReplyBegan(cfg, st, m);
    LocalBodyPlanIs(st, m);
  }

  lemma LocalReplyKeeps(cfg: Config, st: Stream, m: Message, o: Outcome)
    requires LocalReplyRan(cfg, st, m, o) && Proceeds(o)
    ensures Inv(cfg, o.st)
  {
    hide Inv, Executed;
    if m.Body? {
      LocalReplyBodyKeeps(cfg, st, m, o);
    } else {
      LocalReplyOtherKeeps(cfg, st, m, o);
    }
  }

  lemma LocalReplyBodyKeeps(cfg: Config, st: Stream, m: Message, o: Outcome)
    requires LocalReplyRan(cfg, st, m, o) && Proceeds(o)
    requires m.Body?
    ensures Inv(cfg, o.st)
  {
    LocalReplyBodyIs(cfg, st, m, o);
    hide Executed, LocalReplyPlan, PlanFrame, DispatchError;
  }

  lemma LocalReplyOtherKeeps(cfg: Config, st: Stream, m: Message, o: Outcome)
    requires LocalReplyRan(cfg, st, m, o) && Proceeds(o)
    requires !m.Body?
    ensures Inv(cfg, o.st)
  {
    hide PlanFrame, BodyResponses, HeadersCommon;
  }
}
