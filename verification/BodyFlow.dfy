/**
 Body bytes through one step: what is held, what is answered, what the hooks are given.
 */
module BodyFlow {
  import opened Wire
  import opened HeaderMaps
  import opened Filters
  import opened Guardrails
  import opened Chunking
  import opened StreamSpec
  import opened Effects
  import opened Invariant
  import opened Steps

  /** A body message that is not a redelivery. */
  predicate FirstDelivery(st: Stream, m: Message) {
    m.Body? && st.At(m.side).bodyState.Active?
  }

  /** Bodies of this direction are not filtered. */
  predicate PassesThrough(cfg: Config, st: Stream, side: Side) {
    st.localReply || !cfg.NeedsBody(side)
  }

  /** Full duplex: chunks out for bytes in, now or once the body is closed. */
  predicate DuplexFlow(cfg: Config, st: Stream, m: Message, o: Outcome)
    requires Proceeds(o)
  {
    var h, h', bodies := st.At(m.side), o.st.At(m.side), o.result.value.bodies;
    var passes := PassesThrough(cfg, o.st, m.side);
    if FirstDelivery(st, m) && passes then
      bodies == Chunks(m.side, m.body, None, m.endOfStream) && h'.body == h.body
    else if FirstDelivery(st, m) && !m.endOfStream then
      bodies == [] && h'.body == h.body + m.body
    else if FirstDelivery(st, m) then
      && bodies == Chunks(m.side, h'.body, None, true)
      && FinalCall(o.calls) && o.calls.body.value.data == Some(h.body + m.body) && o.calls.body.value.produced == h'.body
    else if m.Trailers? && !passes && !Closed(h) then
      && bodies == (if !h.bodySeen && h'.body == [] then [] else Chunks(m.side, h'.body, None, false))
      && FinalCall(o.calls) && o.calls.body.value.data == Some(h.body) && o.calls.body.value.produced == h'.body
    else bodies == [] && h'.body == h.body && o.calls.body.None?
  }

  /** Bytes Envoy forwards for a body message answered by one reply. */
  function ForwardedBy(m: Message, batch: Batch): Bytes {
    if m.Body? && batch.Answer? && |batch.bodies| == 1 then Forwarded(m.body, batch.bodies[0]) else []
  }

  /** STREAMED: every chunk is answered at once with what the filters made of it. */
  predicate StreamedFlow(cfg: Config, st: Stream, m: Message, o: Outcome)
    requires Proceeds(o)
  {
    var bodies := o.result.value.bodies;
    && (|bodies| == if m.Body? then 1 else 0)
    && (m.Body? ==> st.At(m.side).bodyState.Active?)
    && (m.Body? && PassesThrough(cfg, o.st, m.side) ==> Forwarded(m.body, bodies[0]) == m.body && o.calls.body.None?)
    && (m.Body? && !PassesThrough(cfg, o.st, m.side) ==>
          && ChunkReply(st, m.side, m.body, m.endOfStream, o)
          && o.st.resp.body == (if !Buffering(st, m.side) then st.resp.body else if m.endOfStream then [] else st.resp.body + m.body)
          && (m.side.ResponseSide? ==> WithinLimits(cfg, st, m.body)))
    && (!m.Body? && o.calls.body.Some? ==>
          m.Trailers? && FinalCall(o.calls) && o.calls.body.value.data.None? && (m.side.ResponseSide? ==> st.resp.body == []))
    && (!m.Body? ==> o.st.resp.body == st.resp.body)
  }

  /** What the hooks of a BUFFERED request leave in its buffer. */
  function RequestOutput(before: Bytes, calls: Calls): Bytes {
    if calls.selected.Some? then calls.selected.value.produced
    else if calls.body.Some? then calls.body.value.produced else before
  }

  /** Counting and accumulating bytes against the ceiling. */
  predicate Metered(cfg: Config, st: Stream, m: Message, o: Outcome) {
    var h, h' := st.At(m.side), o.st.At(m.side);
    var counted := FirstDelivery(st, m) && m.side.RequestSide? && (h.mode.Streamed? || (h.mode.FullDuplex? && !cfg.caps.needsRequestBody));
    var held := FirstDelivery(st, m) && !o.st.localReply
                && ((h.mode.FullDuplex? && cfg.NeedsBody(m.side)) || (h.mode.Buffered? && m.side.ResponseSide?));
    && o.st.streamedBytes == (if counted then SaturatingAdd(st.streamedBytes, |m.body|) else st.streamedBytes)
    && (counted ==> !OverLimit(o.st.streamedBytes, cfg.maxBody))
    && (held ==> !OverLimit(SaturatingAdd(|h.body|, |m.body|), cfg.maxBody))
    && (held && !m.endOfStream ==> h'.body == h.body + m.body)
    && (!m.Body? && h'.bodyState.Active? ==> h'.body == h.body)
    && (m.side.RequestSide? && h.mode.Buffered? && Opened(h') ==> h'.body == RequestOutput(h.body, o.calls))
    && (h.mode.Buffered? && m.side.ResponseSide? && held && m.endOfStream ==>
          o.calls.body.Some? && o.calls.body.value.data == Some(h.body + m.body) && o.calls.body.value.eos)
  }

  predicate FlowOk(cfg: Config, st: Stream, m: Message, o: Outcome)
    requires Proceeds(o)
  {
    && (st.At(m.side).mode.FullDuplex? ==> DuplexFlow(cfg, st, m, o))
    && (st.At(m.side).mode.Streamed? ==> StreamedFlow(cfg, st, m, o))
    && Metered(cfg, st, m, o)
    && (o.st.localReply && st.resp.mode.FullDuplex? && Opened(o.st.resp) ==> (o.st.resp.sent <==> st.resp.sent || m.Body?))
  }

  lemma RequestHeadersFlow(cfg: Config, st: Stream, headers: seq<HeaderValue>, eos: bool, o: Outcome)
    requires RequestHeadersRan(cfg, st, headers, eos, o) && Proceeds(FinishRequestHeaders(cfg, headers, eos, o))
    ensures FlowOk(cfg, st, Headers(RequestSide, headers, eos), FinishRequestHeaders(cfg, headers, eos, o))
  {
    hide Inv, Executed, FinishRequestHeaders, FlowOk;
    if eos {
      RequestEndFlow(cfg, st, headers, eos, o);
    } else {
      RequestOpeningFlow(cfg, st, headers, eos, o);
    }
  }

  lemma RequestEndFlow(cfg: Config, st: Stream, headers: seq<HeaderValue>, eos: bool, o: Outcome)
    requires RequestHeadersRan(cfg, st, headers, eos, o) && Proceeds(FinishRequestHeaders(cfg, headers, eos, o))
    requires eos
    ensures FlowOk(cfg, st, Headers(RequestSide, headers, eos), FinishRequestHeaders(cfg, headers, eos, o))
  {
    hide PlanFrame, HeadersCommon, Admitted, HasSelectedGuardrail, ShouldStream, CollectRequest, WithContentLength, Threads,
         ResponseInv, ResponseCalls, ResponseState, ResponseBatch, ChunkState, ChunkReply, WithinLimits, FlushProceeds,
         OnlyBodyCall, LocalReplyInv, RequestHeadersRan, RequestHeadersPlan, DispatchError;
    RequestHeadersCases(cfg, st, headers, eos, o);
  }

  lemma RequestOpeningFlow(cfg: Config, st: Stream, headers: seq<HeaderValue>, eos: bool, o: Outcome)
    requires RequestHeadersRan(cfg, st, headers, eos, o) && Proceeds(FinishRequestHeaders(cfg, headers, eos, o))
    requires !eos
    ensures FlowOk(cfg, st, Headers(RequestSide, headers, eos), FinishRequestHeaders(cfg, headers, eos, o))
  {
    hide PlanFrame, HeadersCommon, Admitted, HasSelectedGuardrail, ShouldStream, CollectRequest, WithContentLength, Threads,
         ResponseInv, ChunkReply, ChunkState, WithinLimits, FlushProceeds, ResponseState, ResponseBatch, ResponseCalls,
         RequestBatch, OnlyBodyCall, LocalReplyInv, RequestHeadersRan, RequestHeadersPlan, DispatchError;
    RequestHeadersCases(cfg, st, headers, eos, o);
  }

  lemma RequestBodyFlow(cfg: Config, st: Stream, chunk: Bytes, eos: bool, o: Outcome)
    requires RequestBodyRan(cfg, st, chunk, eos, o) && Proceeds(o)
    ensures FlowOk(cfg, st, Body(RequestSide, chunk, eos), o)
  {
    hide Inv, Executed, FlowOk;
    if st.req.mode.FullDuplex? {
      DuplexRequestBodyFlow(cfg, st, chunk, eos, o);
    } else {
      PlainRequestBodyFlow(cfg, st, chunk, eos, o);
    }
  }

  lemma DuplexRequestBodyFlow(cfg: Config, st: Stream, chunk: Bytes, eos: bool, o: Outcome)
    requires RequestBodyRan(cfg, st, chunk, eos, o) && Proceeds(o)
    requires st.req.mode.FullDuplex?
    ensures FlowOk(cfg, st, Body(RequestSide, chunk, eos), o)
  {
    hide PlanFrame, HeadersCommon, CollectRequest, WithContentLength, Threads, ResponseInv, Chunks, AffectsRouting,
         ResponseCalls, ResponseState, ResponseBatch, EarlyProceeds, FlushProceeds, OnlyHeaderCall, LocalReplyInv,
         RequestBodyRan, RequestBodyPlan, DispatchError;
    RequestBodyCases(cfg, st, chunk, eos, o);
  }

  lemma PlainRequestBodyFlow(cfg: Config, st: Stream, chunk: Bytes, eos: bool, o: Outcome)
    requires RequestBodyRan(cfg, st, chunk, eos, o) && Proceeds(o)
    requires !st.req.mode.FullDuplex?
    ensures FlowOk(cfg, st, Body(RequestSide, chunk, eos), o)
  {
    hide PlanFrame, HeadersCommon, CollectRequest, WithContentLength, Threads, ResponseInv, Chunks, AffectsRouting,
         ResponseCalls, ResponseState, ResponseBatch, EarlyProceeds, FlushProceeds, OnlyHeaderCall, LocalReplyInv,
         RequestBodyRan, RequestBodyPlan, DispatchError;
    RequestBodyCases(cfg, st, chunk, eos, o);
  }

  lemma ResponseHeadersFlow(cfg: Config, st: Stream, headers: seq<HeaderValue>, eos: bool, o: Outcome)
    requires ResponseHeadersRan(cfg, st, headers, eos, o) && Proceeds(o)
    ensures FlowOk(cfg, st, Headers(ResponseSide, headers, eos), o)
  {
    hide PlanFrame, HeadersCommon, FromEnvoy, Diff, Merge, WithContentLength, Threads, RequestInv, RequestCalls,
         RequestCallsAll, RequestState, RequestBatch, ChunkState, ChunkReply, WithinLimits, FlushProceeds, OnlyBodyCall,
         LocalReplyInv, ResponseHeadersRan, ResponseHeadersPlan, DispatchError;
    ResponseHeadersCases(cfg, st, headers, eos, o);
  }

  lemma ResponseBodyFlow(cfg: Config, st: Stream, chunk: Bytes, eos: bool, o: Outcome)
    requires ResponseBodyRan(cfg, st, chunk, eos, o) && Proceeds(o)
    ensures FlowOk(cfg, st, Body(ResponseSide, chunk, eos), o)
  {
    hide Inv, Executed;
    if st.resp.mode.Streamed? {
      StreamedResponseBodyFlow(cfg, st, chunk, eos, o);
    } else {
      OtherResponseBodyFlow(cfg, st, chunk, eos, o);
    }
  }

  lemma StreamedResponseBodyFlow(cfg: Config, st: Stream, chunk: Bytes, eos: bool, o: Outcome)
    requires ResponseBodyRan(cfg, st, chunk, eos, o) && Proceeds(o)
    requires st.resp.mode.Streamed?
    ensures FlowOk(cfg, st, Body(ResponseSide, chunk, eos), o)
  {
    hide PlanFrame, HeadersCommon, Diff, Merge, WithContentLength, Threads, RequestInv, Chunks, AffectsRouting,
         ResponseBatch, ResponseState, EarlyProceeds, FlushProceeds, RequestCalls, RequestCallsAll, RequestState,
         RequestBatch, OnlyHeaderCall, LocalReplyInv, ResponseBodyRan, ResponseBodyPlan, DispatchError;
    ResponseBodyCases(cfg, st, chunk, eos, o);
  }

  lemma OtherResponseBodyFlow(cfg: Config, st: Stream, chunk: Bytes, eos: bool, o: Outcome)
    requires ResponseBodyRan(cfg, st, chunk, eos, o) && Proceeds(o)
    requires !st.resp.mode.Streamed?
    ensures FlowOk(cfg, st, Body(ResponseSide, chunk, eos), o)
  {
    hide PlanFrame, HeadersCommon, Diff, Merge, WithContentLength, Threads, RequestInv, Chunks, AffectsRouting, ChunkReply,
         ChunkState, WithinLimits, EarlyProceeds, FlushProceeds, RequestCalls, RequestCallsAll, RequestState, RequestBatch,
         OnlyHeaderCall, LocalReplyInv, ResponseBodyRan, ResponseBodyPlan, DispatchError;
    ResponseBodyCases(cfg, st, chunk, eos, o);
  }

  lemma TrailersFlow(cfg: Config, st: Stream, side: Side, o: Outcome)
    requires TrailersRan(cfg, st, side, o) && Proceeds(o)
    ensures FlowOk(cfg, st, Trailers(side), FinishTrailers(cfg, side, o))
  {
    hide Inv, Executed, FlowOk;
    if side.RequestSide? {
      RequestTrailersFlow(cfg, st, side, o);
    } else {
      ResponseTrailersFlow(cfg, st, side, o);
    }
  }

  lemma RequestTrailersFlow(cfg: Config, st: Stream, side: Side, o: Outcome)
    requires TrailersRan(cfg, st, side, o) && Proceeds(o)
    requires side.RequestSide?
    ensures FlowOk(cfg, st, Trailers(side), FinishTrailers(cfg, side, o))
  {
    hide PlanFrame, HeadersCommon, CollectRequest, Diff, Merge, WithContentLength, Threads, Chunks, ChunkReply, ChunkState,
         WithinLimits, EarlyProceeds, ResponseState, ResponseBatch, ResponseCalls, ResponseInv, LocalReplyInv,
         OnlyHeaderCall, TrailersRan, TrailersPlan, DispatchError;
    TrailersCases(cfg, st, side, o);
  }

  lemma ResponseTrailersFlow(cfg: Config, st: Stream, side: Side, o: Outcome)
    requires TrailersRan(cfg, st, side, o) && Proceeds(o)
    requires side.ResponseSide?
    ensures FlowOk(cfg, st, Trailers(side), FinishTrailers(cfg, side, o))
  {
    hide TrailersRan, FlowOk;
    if st.resp.bodyState.Completed? || st.resp.headersState.Completed? {
      LateResponseTrailersFlow(cfg, st, side, o);
    } else {
      ClosingResponseTrailersFlow(cfg, st, side, o);
    }
  }

  lemma LateResponseTrailersFlow(cfg: Config, st: Stream, side: Side, o: Outcome)
    requires TrailersRan(cfg, st, side, o) && Proceeds(o)
    requires side.ResponseSide?
    requires st.resp.bodyState.Completed? || st.resp.headersState.Completed?
    ensures FlowOk(cfg, st, Trailers(side), FinishTrailers(cfg, side, o))
  {
    hide PlanFrame, HeadersCommon, CollectRequest, Diff, Merge, WithContentLength, Threads, Chunks, ChunkReply, ChunkState,
         WithinLimits, EarlyProceeds, RequestState, RequestBatch, RequestCalls, RequestCallsAll, RequestInv, LocalReplyInv,
         OnlyHeaderCall, TrailersRan, TrailersPlan, DispatchError;
    TrailersCases(cfg, st, side, o);
  }

  lemma ClosingResponseTrailersFlow(cfg: Config, st: Stream, side: Side, o: Outcome)
    requires TrailersRan(cfg, st, side, o) && Proceeds(o)
    requires side.ResponseSide?
    requires !(st.resp.bodyState.Completed? || st.resp.headersState.Completed?)
    ensures FlowOk(cfg, st, Trailers(side), FinishTrailers(cfg, side, o))
  {
    hide PlanFrame, HeadersCommon, CollectRequest, Diff, Merge, WithContentLength, Threads, Chunks, ChunkReply, ChunkState,
         WithinLimits, EarlyProceeds, RequestState, RequestBatch, RequestCalls, RequestCallsAll, RequestInv, LocalReplyInv,
         OnlyHeaderCall, TrailersRan, TrailersPlan, DispatchError;
    TrailersCases(cfg, st, side, o);
  }

  lemma LocalReplyFlow(cfg: Config, st: Stream, m: Message, o: Outcome)
    requires LocalReplyRan(cfg, st, m, o) && Proceeds(o)
    ensures FlowOk(cfg, st, m, o)
  {
    hide Inv, Executed;
    if m.Body? {
      LocalReplyBodyFlow(cfg, st, m, o);
    } else {
      LocalReplyOtherFlow(cfg, st, m, o);
    }
  }

  lemma LocalReplyBodyFlow(cfg: Config, st: Stream, m: Message, o: Outcome)
    requires LocalReplyRan(cfg, st, m, o) && Proceeds(o)
    requires m.Body?
    ensures FlowOk(cfg, st, m, o)
  {
    LocalReplyBodyIs(cfg, st, m, o);
    hide LocalReplyRan, LocalReplyPlan, Executed, Inv, DispatchError, HeadersCommon, ChunksFrom, AffectsRouting;
  }

  lemma LocalReplyOtherFlow(cfg: Config, st: Stream, m: Message, o: Outcome)
    requires LocalReplyRan(cfg, st, m, o) && Proceeds(o)
    requires !m.Body?
    ensures FlowOk(cfg, st, m, o)
  {
    hide PlanFrame, HeadersCommon, Chunks, AffectsRouting, PhaseProceeds, CallsFit, Threads, ChunkReply, WithinLimits,
         Buffering, ResponseConsumed;
  }

  /** The facts about body bytes, for every step that proceeds. */
  lemma StepFlows(cfg: Config, oracle: Oracle, st: Stream, m: Message)
    requires Inv(cfg, st) && Proceeds(Step(cfg, oracle, st, m))
    ensures FlowOk(cfg, st, m, Step(cfg, oracle, st, m))
  {
    if m.side.RequestSide? {
      RequestPlansAreSound(cfg, st, m);
    } else {
      ResponsePlansAreSound(cfg, st, m);
    }
    var plan := PlanFor(cfg, st, m);
    var p := Execute(cfg, oracle, plan);
    ExecuteFits(cfg, oracle, plan);
    assert DispatchError(st, m).None?;
    LocalReplyIff(cfg, st, m);
    DispatchedFlow(cfg, st, m, p);
  }

  lemma DispatchedFlow(cfg: Config, st: Stream, m: Message, o: Outcome)
    requires Inv(cfg, st) && DispatchError(st, m).None?
    requires Executed(cfg, PlanFor(cfg, st, m), o) && Proceeds(Stepped(cfg, st, m, o))
    ensures FlowOk(cfg, st, m, Stepped(cfg, st, m, o))
  {
    LocalReplyIff(cfg, st, m);
    hide Inv, FlowOk, Executed, PlanFrame, DispatchError, RequestHeadersPlan, RequestBodyPlan, ResponseHeadersPlan,
         ResponseBodyPlan, TrailersPlan, LocalReplyPlan, FinishRequestHeaders;
    if Advanced(st, m).localReply {
      LocalReplyFlow(cfg, st, m, o);
    } else {
      match m
      case Headers(RequestSide, headers, eos) => RequestHeadersFlow(cfg, st, headers, eos, o);
      case Headers(ResponseSide, headers, eos) => ResponseHeadersFlow(cfg, st, headers, eos, o);
      case Body(RequestSide, chunk, eos) => RequestBodyFlow(cfg, st, chunk, eos, o);
      case Body(ResponseSide, chunk, eos) => ResponseBodyFlow(cfg, st, chunk, eos, o);
      case Trailers(side) => TrailersFlow(cfg, st, side, o);
    }
  }
}
