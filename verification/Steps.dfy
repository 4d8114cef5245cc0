/**
 What one message adds to the history of a stream: replies emitted and hooks called.
 */
module Steps {
  import opened Wire
  import opened HeaderMaps
  import opened Filters
  import opened Guardrails
  import opened Sequencing
  import opened Chunking
  import opened StreamSpec
  import opened Effects
  import opened Invariant

  // ---------------------------------------------------------------------------
  // Headers replies
  // ---------------------------------------------------------------------------

  /** Whether the headers reply of a direction is out, read off the state. */
  predicate Emitted(cfg: Config, st: Stream, side: Side) {
    var h := st.At(side);
    && h.furthest.Some?
    && (h.mode.FullDuplex? && h.headersState.Active? ==>
          if !st.localReply && cfg.NeedsBody(side) then h.bodyState.Completed? else h.sent)
  }

  /** A step sends the headers reply exactly when it was due, and never a body reply before it. */
  predicate EmitsInOrder(cfg: Config, st: Stream, side: Side, o: Outcome)
    requires Proceeds(o)
  {
    && (o.result.value.headers.Some? <==> Emitted(cfg, o.st, side) && !Emitted(cfg, st, side))
    && (Emitted(cfg, st, side) ==> Emitted(cfg, o.st, side))
    && (o.result.value.bodies != [] ==> Emitted(cfg, o.st, side))
  }

  /** A message leaves the other direction alone, but for the mode of a response not yet begun. */
  predicate OtherUntouched(st: Stream, side: Side, st': Stream) {
    && (side.RequestSide? ==> st'.resp == st.resp.(mode := st'.resp.mode) && (st.resp.furthest.Some? ==> st'.resp == st.resp))
    && (side.ResponseSide? ==> st'.req == st.req)
    && (st.req.furthest.Some? ==> st'.localReply == st.localReply)
  }

  lemma RequestHeadersEmit(cfg: Config, st: Stream, headers: seq<HeaderValue>, eos: bool, o: Outcome)
    requires RequestHeadersRan(cfg, st, headers, eos, o) && Proceeds(FinishRequestHeaders(cfg, headers, eos, o))
    ensures EmitsInOrder(cfg, st, RequestSide, FinishRequestHeaders(cfg, headers, eos, o))
    ensures OtherUntouched(st, RequestSide, FinishRequestHeaders(cfg, headers, eos, o).st)
  {
    hide Inv, Executed;
    if eos {
      RequestEndEmits(cfg, st, headers, eos, o);
    } else {
      RequestOpeningEmits(cfg, st, headers, eos, o);
    }
  }

  lemma RequestEndEmits(cfg: Config, st: Stream, headers: seq<HeaderValue>, eos: bool, o: Outcome)
    requires RequestHeadersRan(cfg, st, headers, eos, o) && Proceeds(FinishRequestHeaders(cfg, headers, eos, o))
    requires eos
    ensures EmitsInOrder(cfg, st, RequestSide, FinishRequestHeaders(cfg, headers, eos, o))
    ensures OtherUntouched(st, RequestSide, FinishRequestHeaders(cfg, headers, eos, o).st)
  {
    hide PlanFrame, HeadersCommon, Admitted, HasSelectedGuardrail, ShouldStream, CollectRequest, WithContentLength, CallsFit,
         Chained, Parked, ChainEnd, ResponseCalls, ResponseState, ResponseBatch, ChunkState, ChunkReply, WithinLimits,
         FlushProceeds, OnlyBodyCall, LocalReplyInv, RequestHeadersRan, RequestHeadersPlan, DispatchError;
    RequestHeadersCases(cfg, st, headers, eos, o);
  }

  lemma RequestOpeningEmits(cfg: Config, st: Stream, headers: seq<HeaderValue>, eos: bool, o: Outcome)
    requires RequestHeadersRan(cfg, st, headers, eos, o) && Proceeds(FinishRequestHeaders(cfg, headers, eos, o))
    requires !eos
    ensures EmitsInOrder(cfg, st, RequestSide, FinishRequestHeaders(cfg, headers, eos, o))
    ensures OtherUntouched(st, RequestSide, FinishRequestHeaders(cfg, headers, eos, o).st)
  {
    hide Inv, Executed;
    if st.req.mode.FullDuplex? {
      DuplexRequestOpeningEmits(cfg, st, headers, eos, o);
    } else {
      PlainRequestOpeningEmits(cfg, st, headers, eos, o);
    }
  }

  lemma DuplexRequestOpeningEmits(cfg: Config, st: Stream, headers: seq<HeaderValue>, eos: bool, o: Outcome)
    requires RequestHeadersRan(cfg, st, headers, eos, o) && Proceeds(FinishRequestHeaders(cfg, headers, eos, o))
    requires !eos
    requires st.req.mode.FullDuplex?
    ensures EmitsInOrder(cfg, st, RequestSide, FinishRequestHeaders(cfg, headers, eos, o))
    ensures OtherUntouched(st, RequestSide, FinishRequestHeaders(cfg, headers, eos, o).st)
  {
    hide PlanFrame, HeadersCommon, Admitted, HasSelectedGuardrail, ShouldStream, CollectRequest, WithContentLength, CallsFit,
         Chained, Parked, ChainEnd, ResponseCalls, ResponseState, ResponseBatch, ChunkState, ChunkReply, WithinLimits,
         FlushProceeds, OnlyBodyCall, LocalReplyInv, RequestHeadersRan, RequestHeadersPlan, DispatchError;
    RequestHeadersCases(cfg, st, headers, eos, o);
  }

  lemma PlainRequestOpeningEmits(cfg: Config, st: Stream, headers: seq<HeaderValue>, eos: bool, o: Outcome)
    requires RequestHeadersRan(cfg, st, headers, eos, o) && Proceeds(FinishRequestHeaders(cfg, headers, eos, o))
    requires !eos
    requires !st.req.mode.FullDuplex?
    ensures EmitsInOrder(cfg, st, RequestSide, FinishRequestHeaders(cfg, headers, eos, o))
    ensures OtherUntouched(st, RequestSide, FinishRequestHeaders(cfg, headers, eos, o).st)
  {
    hide PlanFrame, HeadersCommon, Admitted, HasSelectedGuardrail, ShouldStream, CollectRequest, WithContentLength, CallsFit,
         Chained, Parked, ChainEnd, ResponseCalls, ResponseState, ResponseBatch, ChunkState, ChunkReply, WithinLimits,
         FlushProceeds, OnlyBodyCall, LocalReplyInv, RequestHeadersRan, RequestHeadersPlan, DispatchError;
    RequestHeadersCases(cfg, st, headers, eos, o);
  }

  lemma RequestBodyEmits(cfg: Config, st: Stream, chunk: Bytes, eos: bool, o: Outcome)
    requires RequestBodyRan(cfg, st, chunk, eos, o) && Proceeds(o)
    ensures EmitsInOrder(cfg, st, RequestSide, o)
    ensures OtherUntouched(st, RequestSide, o.st)
  {
    hide Inv, Executed;
    if st.req.mode.FullDuplex? {
      DuplexRequestBodyEmits(cfg, st, chunk, eos, o);
    } else {
      PlainRequestBodyEmits(cfg, st, chunk, eos, o);
    }
  }

  lemma DuplexRequestBodyEmits(cfg: Config, st: Stream, chunk: Bytes, eos: bool, o: Outcome)
    requires RequestBodyRan(cfg, st, chunk, eos, o) && Proceeds(o)
    requires st.req.mode.FullDuplex?
    ensures EmitsInOrder(cfg, st, RequestSide, o)
    ensures OtherUntouched(st, RequestSide, o.st)
  {
    hide PlanFrame, HeadersCommon, BodyResponses, CollectRequest, WithContentLength, CallsFit, Chained, Parked, ChainEnd,
         Forwarded, ResponseCalls, ResponseState, ResponseBatch, EarlyProceeds, FlushProceeds, OnlyHeaderCall, ResponseInv,
         LocalReplyInv, RequestBodyRan, RequestBodyPlan, DispatchError;
    RequestBodyCases(cfg, st, chunk, eos, o);
  }

  lemma PlainRequestBodyEmits(cfg: Config, st: Stream, chunk: Bytes, eos: bool, o: Outcome)
    requires RequestBodyRan(cfg, st, chunk, eos, o) && Proceeds(o)
    requires !st.req.mode.FullDuplex?
    ensures EmitsInOrder(cfg, st, RequestSide, o)
    ensures OtherUntouched(st, RequestSide, o.st)
  {
    hide RequestBodyRan;
    if st.req.mode.Streamed? {
      StreamedRequestBodyEmits(cfg, st, chunk, eos, o);
    } else {
      BufferedRequestBodyEmits(cfg, st, chunk, eos, o);
    }
  }

  lemma StreamedRequestBodyEmits(cfg: Config, st: Stream, chunk: Bytes, eos: bool, o: Outcome)
    requires RequestBodyRan(cfg, st, chunk, eos, o) && Proceeds(o)
    requires !st.req.mode.FullDuplex?
    requires st.req.mode.Streamed?
    ensures EmitsInOrder(cfg, st, RequestSide, o)
    ensures OtherUntouched(st, RequestSide, o.st)
  {
    hide PlanFrame, HeadersCommon, BodyResponses, CollectRequest, WithContentLength, CallsFit, Chained, Parked, ChainEnd,
         Forwarded, ResponseCalls, ResponseState, ResponseBatch, EarlyProceeds, FlushProceeds, OnlyHeaderCall, ResponseInv,
         LocalReplyInv, RequestBodyRan, RequestBodyPlan, DispatchError;
    RequestBodyCases(cfg, st, chunk, eos, o);
  }

  lemma BufferedRequestBodyEmits(cfg: Config, st: Stream, chunk: Bytes, eos: bool, o: Outcome)
    requires RequestBodyRan(cfg, st, chunk, eos, o) && Proceeds(o)
    requires !st.req.mode.FullDuplex?
    requires !st.req.mode.Streamed?
    ensures EmitsInOrder(cfg, st, RequestSide, o)
    ensures OtherUntouched(st, RequestSide, o.st)
  {
    hide PlanFrame, HeadersCommon, BodyResponses, CollectRequest, WithContentLength, CallsFit, Chained, Parked, ChainEnd,
         Forwarded, ResponseCalls, ResponseState, ResponseBatch, EarlyProceeds, FlushProceeds, OnlyHeaderCall, ResponseInv,
         LocalReplyInv, RequestBodyRan, RequestBodyPlan, DispatchError;
    RequestBodyCases(cfg, st, chunk, eos, o);
  }

  lemma ResponseHeadersEmit(cfg: Config, st: Stream, headers: seq<HeaderValue>, eos: bool, o: Outcome)
    requires ResponseHeadersRan(cfg, st, headers, eos, o) && Proceeds(o)
    ensures EmitsInOrder(cfg, st, ResponseSide, o)
    ensures OtherUntouched(st, ResponseSide, o.st)
  {
    hide PlanFrame, HeadersCommon, FromEnvoy, Diff, Merge, WithContentLength, CallsFit, Chained, Parked, ChainEnd,
         RequestInv, RequestCalls, RequestCallsAll, RequestState, RequestBatch, ChunkState, ChunkReply, WithinLimits,
         FlushProceeds, OnlyBodyCall, ResponseHeadersRan, ResponseHeadersPlan, DispatchError;
    ResponseHeadersCases(cfg, st, headers, eos, o);
  }

  lemma ResponseBodyEmits(cfg: Config, st: Stream, chunk: Bytes, eos: bool, o: Outcome)
    requires ResponseBodyRan(cfg, st, chunk, eos, o) && Proceeds(o)
    ensures EmitsInOrder(cfg, st, ResponseSide, o)
    ensures OtherUntouched(st, ResponseSide, o.st)
  {
    hide Inv, Executed;
    if st.resp.mode.FullDuplex? {
      DuplexResponseBodyEmits(cfg, st, chunk, eos, o);
    } else {
      PlainResponseBodyEmits(cfg, st, chunk, eos, o);
    }
  }

  lemma DuplexResponseBodyEmits(cfg: Config, st: Stream, chunk: Bytes, eos: bool, o: Outcome)
    requires ResponseBodyRan(cfg, st, chunk, eos, o) && Proceeds(o)
    requires st.resp.mode.FullDuplex?
    ensures EmitsInOrder(cfg, st, ResponseSide, o)
    ensures OtherUntouched(st, ResponseSide, o.st)
  {
    hide PlanFrame, HeadersCommon, BodyResponses, Diff, Merge, WithContentLength, CallsFit, Chained, Parked, ChainEnd,
         Forwarded, RequestInv, RequestCalls, RequestCallsAll, RequestState, RequestBatch, EarlyProceeds, FlushProceeds,
         OnlyHeaderCall, LocalReplyInv, ResponseBodyRan, ResponseBodyPlan, DispatchError;
    ResponseBodyCases(cfg, st, chunk, eos, o);
  }

  lemma PlainResponseBodyEmits(cfg: Config, st: Stream, chunk: Bytes, eos: bool, o: Outcome)
    requires ResponseBodyRan(cfg, st, chunk, eos, o) && Proceeds(o)
    requires !st.resp.mode.FullDuplex?
    ensures EmitsInOrder(cfg, st, ResponseSide, o)
    ensures OtherUntouched(st, ResponseSide, o.st)
  {
    hide PlanFrame, HeadersCommon, BodyResponses, Diff, Merge, WithContentLength, CallsFit, Chained, Parked, ChainEnd,
         Forwarded, RequestInv, RequestCalls, RequestCallsAll, RequestState, RequestBatch, EarlyProceeds, FlushProceeds,
         OnlyHeaderCall, LocalReplyInv, ResponseBodyRan, ResponseBodyPlan, DispatchError;
    ResponseBodyCases(cfg, st, chunk, eos, o);
  }

  lemma TrailersEmit(cfg: Config, st: Stream, side: Side, o: Outcome)
    requires TrailersRan(cfg, st, side, o) && Proceeds(o)
    ensures EmitsInOrder(cfg, st, side, FinishTrailers(cfg, side, o))
    ensures OtherUntouched(st, side, o.st)
  {
    hide Inv, Executed;
    if side.RequestSide? {
      RequestTrailersEmit(cfg, st, side, o);
    } else {
      ResponseTrailersEmit(cfg, st, side, o);
    }
  }

  lemma RequestTrailersEmit(cfg: Config, st: Stream, side: Side, o: Outcome)
    requires TrailersRan(cfg, st, side, o) && Proceeds(o)
    requires side.RequestSide?
    ensures EmitsInOrder(cfg, st, side, FinishTrailers(cfg, side, o))
    ensures OtherUntouched(st, side, o.st)
  {
    hide PlanFrame, HeadersCommon, CollectRequest, Diff, Merge, WithContentLength, CallsFit, Chained, Parked, ChainEnd,
         BodyResponses, ChunkReply, ChunkState, WithinLimits, EarlyProceeds, ResponseState, ResponseBatch, ResponseCalls,
         ResponseInv, LocalReplyInv, OnlyHeaderCall, TrailersRan, TrailersPlan, DispatchError;
    TrailersCases(cfg, st, side, o);
  }

  lemma ResponseTrailersEmit(cfg: Config, st: Stream, side: Side, o: Outcome)
    requires TrailersRan(cfg, st, side, o) && Proceeds(o)
    requires side.ResponseSide?
    ensures EmitsInOrder(cfg, st, side, FinishTrailers(cfg, side, o))
    ensures OtherUntouched(st, side, o.st)
  {
    hide PlanFrame, HeadersCommon, CollectRequest, Diff, Merge, WithContentLength, CallsFit, Chained, Parked, ChainEnd,
         BodyResponses, ChunkReply, ChunkState, WithinLimits, EarlyProceeds, RequestState, RequestBatch, RequestCalls,
         RequestCallsAll, RequestInv, LocalReplyInv, OnlyHeaderCall, TrailersRan, TrailersPlan, DispatchError;
    TrailersCases(cfg, st, side, o);
  }

  lemma LocalReplyEmits(cfg: Config, st: Stream, m: Message, o: Outcome)
    requires LocalReplyRan(cfg, st, m, o) && Proceeds(o)
    ensures EmitsInOrder(cfg, st, ResponseSide, o)
    ensures OtherUntouched(st, ResponseSide, o.st)
  {
    hide Inv, Executed;
    if m.Body? {
      LocalReplyBodyEmits(cfg, st, m, o);
    } else {
      LocalReplyOtherEmits(cfg, st, m, o);
    }
  }

  lemma LocalReplyBodyEmits(cfg: Config, st: Stream, m: Message, o: Outcome)
    requires LocalReplyRan(cfg, st, m, o) && Proceeds(o)
    requires m.Body?
    ensures EmitsInOrder(cfg, st, ResponseSide, o)
    ensures OtherUntouched(st, ResponseSide, o.st)
  {
    LocalReplyBodyIs(cfg, st, m, o);
    hide Executed, LocalReplyPlan, PlanFrame, DispatchError, RequestInv, ResponseInv;
  }

  lemma LocalReplyOtherEmits(cfg: Config, st: Stream, m: Message, o: Outcome)
    requires LocalReplyRan(cfg, st, m, o) && Proceeds(o)
    requires !m.Body?
    ensures EmitsInOrder(cfg, st, ResponseSide, o)
    ensures OtherUntouched(st, ResponseSide, o.st)
  {
    hide PlanFrame, BodyResponses, HeadersCommon;
  }

  // ---------------------------------------------------------------------------
  // Hook calls
  // ---------------------------------------------------------------------------

  function HeaderKind(side: Side): HookKind {
    if side.RequestSide? then OnRequest else OnResponse
  }

  /** Whether the header hook of a direction has run, read off the state. */
  predicate HeaderRan(cfg: Config, st: Stream, side: Side) {
    if side.RequestSide? then st.req.executed
    else st.resp.executed || (!st.localReply && st.resp.furthest.Some? && ResponseConsumed(cfg, st.resp))
  }

  /** The direction gives its body hook a final call when the body is closed. */
  predicate FiltersBody(cfg: Config, st: Stream, side: Side) {
    var mode := st.At(side).mode;
    !st.localReply && (mode.Buffered? || (cfg.NeedsBody(side) && (mode.Streamed? || mode.FullDuplex?)))
  }

  predicate FinalCall(calls: Calls) {
    calls.body.Some? && calls.body.value.eos
  }

  /** Hooks called by one step belong to its direction; the header hook runs at most once. */
  predicate HooksInOrder(cfg: Config, st: Stream, side: Side, calls: Calls) {
    && IsCall(calls.header, HeaderKind(side)) && (calls.header.Some? ==> !HeaderRan(cfg, st, side))
    && IsCall(calls.body, BodyKind(side)) && (FinalCall(calls) ==> FiltersBody(cfg, st, side) && !Closed(st.At(side)))
    && IsCall(calls.selected, OnSelectedBody)
  }

  /** How far a message moves its direction. */
  predicate Progresses(st: Stream, m: Message, st': Stream) {
    var h, h' := st.At(m.side), st'.At(m.side);
    && h'.furthest == Some(StepOf(m)) && (h.furthest.None? <==> m.Headers?)
    && (!m.Headers? ==> h'.headersState == h.headersState)
    && (m.Headers? ==> (h'.headersState.Completed? <==> m.endOfStream))
    && (m.Body? ==> (h'.bodyState.Completed? <==> h.bodyState.Completed? || m.endOfStream))
    && st'.localReply == Advanced(st, m).localReply
    && (h.bodyState.Completed? ==> h'.bodyState.Completed?)
    && (h'.bodyState.Completed? ==> h.bodyState.Completed? || !Closed(h))
    && (!st'.localReply ==> h'.bodySeen == (h.bodySeen || m.Body?))
  }

  /** A step that proceeds records the header hook, and gives the final body call when it closes the body. */
  predicate HooksRecorded(cfg: Config, st: Stream, m: Message, o: Outcome) {
    && Progresses(st, m, o.st)
    && (HeaderRan(cfg, o.st, m.side) <==> HeaderRan(cfg, st, m.side) || o.calls.header.Some?)
    && (FinalCall(o.calls) <==>
          && FiltersBody(cfg, st, m.side)
          && (if m.side.RequestSide? && st.req.mode.Buffered? then m.Body? || (m.Trailers? && !Closed(st.req) && !st.req.bodySeen)
              else !Closed(st.At(m.side)) && o.st.At(m.side).bodyState.Completed?))
  }

  lemma RequestHeadersHooks(cfg: Config, st: Stream, headers: seq<HeaderValue>, eos: bool, o: Outcome)
    requires RequestHeadersRan(cfg, st, headers, eos, o)
    ensures HooksInOrder(cfg, st, RequestSide, o.calls)
    ensures Proceeds(o) ==> HooksRecorded(cfg, st, Headers(RequestSide, headers, eos), o)
  {
    hide PlanFrame, HeadersCommon, Admitted, HasSelectedGuardrail, CollectRequest, WithContentLength, RequestBatch, Threads,
         ResponseInv, ResponseCalls, ResponseState, ResponseBatch, ChunkState, ChunkReply, WithinLimits, FlushProceeds,
         OnlyBodyCall, LocalReplyInv, RequestHeadersRan, RequestHeadersPlan, DispatchError;
    RequestHeadersCases(cfg, st, headers, eos, o);
  }

  lemma RequestBodyHooks(cfg: Config, st: Stream, chunk: Bytes, eos: bool, o: Outcome)
    requires RequestBodyRan(cfg, st, chunk, eos, o)
    ensures HooksInOrder(cfg, st, RequestSide, o.calls)
    ensures Proceeds(o) ==> HooksRecorded(cfg, st, Body(RequestSide, chunk, eos), o)
  {
    hide Inv, Executed;
    if st.req.mode.Streamed? {
      StreamedRequestBodyHooks(cfg, st, chunk, eos, o);
    } else {
      OtherRequestBodyHooks(cfg, st, chunk, eos, o);
    }
  }

  lemma StreamedRequestBodyHooks(cfg: Config, st: Stream, chunk: Bytes, eos: bool, o: Outcome)
    requires RequestBodyRan(cfg, st, chunk, eos, o)
    requires st.req.mode.Streamed?
    ensures HooksInOrder(cfg, st, RequestSide, o.calls)
    ensures Proceeds(o) ==> HooksRecorded(cfg, st, Body(RequestSide, chunk, eos), o)
  {
    hide PlanFrame, HeadersCommon, BodyResponses, RequestBatch, Threads, Forwarded, ResponseInv, ResponseCalls,
         ResponseState, ResponseBatch, EarlyProceeds, FlushProceeds, OnlyHeaderCall, LocalReplyInv, RequestBodyRan,
         RequestBodyPlan, DispatchError;
    RequestBodyCases(cfg, st, chunk, eos, o);
  }

  lemma OtherRequestBodyHooks(cfg: Config, st: Stream, chunk: Bytes, eos: bool, o: Outcome)
    requires RequestBodyRan(cfg, st, chunk, eos, o)
    requires !st.req.mode.Streamed?
    ensures HooksInOrder(cfg, st, RequestSide, o.calls)
    ensures Proceeds(o) ==> HooksRecorded(cfg, st, Body(RequestSide, chunk, eos), o)
  {
    hide PlanFrame, HeadersCommon, BodyResponses, RequestBatch, Threads, Forwarded, ResponseInv, ResponseCalls,
         ResponseState, ResponseBatch, EarlyProceeds, FlushProceeds, OnlyHeaderCall, LocalReplyInv, RequestBodyRan,
         RequestBodyPlan, DispatchError;
    RequestBodyCases(cfg, st, chunk, eos, o);
  }

  lemma ResponseHeadersHooks(cfg: Config, st: Stream, headers: seq<HeaderValue>, eos: bool, o: Outcome)
    requires ResponseHeadersRan(cfg, st, headers, eos, o)
    ensures HooksInOrder(cfg, st, ResponseSide, o.calls)
    ensures Proceeds(o) ==> HooksRecorded(cfg, st, Headers(ResponseSide, headers, eos), o)
  {
    hide PlanFrame, HeadersCommon, FromEnvoy, Diff, ResponseBatch, Threads, RequestInv, RequestCalls, RequestCallsAll,
         RequestState, RequestBatch, ChunkState, ChunkReply, WithinLimits, FlushProceeds, OnlyBodyCall, ResponseHeadersRan,
         ResponseHeadersPlan, DispatchError;
    ResponseHeadersCases(cfg, st, headers, eos, o);
  }

  lemma ResponseBodyHooks(cfg: Config, st: Stream, chunk: Bytes, eos: bool, o: Outcome)
    requires ResponseBodyRan(cfg, st, chunk, eos, o)
    ensures HooksInOrder(cfg, st, ResponseSide, o.calls)
    ensures Proceeds(o) ==> HooksRecorded(cfg, st, Body(ResponseSide, chunk, eos), o)
  {
    hide Inv, Executed;
    if st.resp.mode.Streamed? {
      StreamedResponseBodyHooks(cfg, st, chunk, eos, o);
    } else {
      OtherResponseBodyHooks(cfg, st, chunk, eos, o);
    }
  }

  lemma StreamedResponseBodyHooks(cfg: Config, st: Stream, chunk: Bytes, eos: bool, o: Outcome)
    requires ResponseBodyRan(cfg, st, chunk, eos, o)
    requires st.resp.mode.Streamed?
    ensures HooksInOrder(cfg, st, ResponseSide, o.calls)
    ensures Proceeds(o) ==> HooksRecorded(cfg, st, Body(ResponseSide, chunk, eos), o)
  {
    hide PlanFrame, HeadersCommon, BodyResponses, ResponseBatch, Threads, Forwarded, RequestInv, RequestCalls,
         RequestCallsAll, RequestState, RequestBatch, EarlyProceeds, FlushProceeds, OnlyHeaderCall, LocalReplyInv,
         ResponseBodyRan, ResponseBodyPlan, DispatchError;
    ResponseBodyCases(cfg, st, chunk, eos, o);
  }

  lemma OtherResponseBodyHooks(cfg: Config, st: Stream, chunk: Bytes, eos: bool, o: Outcome)
    requires ResponseBodyRan(cfg, st, chunk, eos, o)
    requires !st.resp.mode.Streamed?
    ensures HooksInOrder(cfg, st, ResponseSide, o.calls)
    ensures Proceeds(o) ==> HooksRecorded(cfg, st, Body(ResponseSide, chunk, eos), o)
  {
    hide Inv, Executed;
    if st.resp.mode.FullDuplex? {
      DuplexResponseBodyHooks(cfg, st, chunk, eos, o);
    } else {
      BufferedResponseBodyHooks(cfg, st, chunk, eos, o);
    }
  }

  lemma DuplexResponseBodyHooks(cfg: Config, st: Stream, chunk: Bytes, eos: bool, o: Outcome)
    requires ResponseBodyRan(cfg, st, chunk, eos, o)
    requires !st.resp.mode.Streamed?
    requires st.resp.mode.FullDuplex?
    ensures HooksInOrder(cfg, st, ResponseSide, o.calls)
    ensures Proceeds(o) ==> HooksRecorded(cfg, st, Body(ResponseSide, chunk, eos), o)
  {
    hide PlanFrame, HeadersCommon, BodyResponses, ResponseBatch, Threads, Forwarded, RequestInv, ChunkReply, ChunkState,
         WithinLimits, EarlyProceeds, FlushProceeds, BodyBatch, RequestCalls, RequestCallsAll, RequestState, RequestBatch,
         OnlyHeaderCall, LocalReplyInv, ResponseBodyRan, ResponseBodyPlan, DispatchError;
    ResponseBodyCases(cfg, st, chunk, eos, o);
  }

  lemma BufferedResponseBodyHooks(cfg: Config, st: Stream, chunk: Bytes, eos: bool, o: Outcome)
    requires ResponseBodyRan(cfg, st, chunk, eos, o)
    requires !st.resp.mode.Streamed?
    requires !st.resp.mode.FullDuplex?
    ensures HooksInOrder(cfg, st, ResponseSide, o.calls)
    ensures Proceeds(o) ==> HooksRecorded(cfg, st, Body(ResponseSide, chunk, eos), o)
  {
    hide PlanFrame, HeadersCommon, BodyResponses, ResponseBatch, Threads, Forwarded, RequestInv, RequestCalls,
         RequestCallsAll, RequestState, RequestBatch, EarlyProceeds, FlushProceeds, OnlyHeaderCall, LocalReplyInv,
         ResponseBodyRan, ResponseBodyPlan, DispatchError;
    ResponseBodyCases(cfg, st, chunk, eos, o);
  }

  lemma TrailersHooks(cfg: Config, st: Stream, side: Side, o: Outcome)
    requires TrailersRan(cfg, st, side, o)
    ensures HooksInOrder(cfg, st, side, o.calls)
    ensures Proceeds(o) ==> HooksRecorded(cfg, st, Trailers(side), o)
  {
    hide Inv, Executed;
    if side.RequestSide? {
      RequestTrailersHooks(cfg, st, side, o);
    } else {
      ResponseTrailersHooks(cfg, st, side, o);
    }
  }

  lemma RequestTrailersHooks(cfg: Config, st: Stream, side: Side, o: Outcome)
    requires TrailersRan(cfg, st, side, o)
    requires side.RequestSide?
    ensures HooksInOrder(cfg, st, side, o.calls)
    ensures Proceeds(o) ==> HooksRecorded(cfg, st, Trailers(side), o)
  {
    hide PlanFrame, HeadersCommon, RequestBatch, ResponseBatch, Threads, ChunkReply, ChunkState, WithinLimits, EarlyProceeds,
         ResponseState, ResponseCalls, ResponseInv, LocalReplyInv, OnlyHeaderCall, TrailersRan, TrailersPlan, DispatchError;
    TrailersCases(cfg, st, side, o);
  }

  lemma ResponseTrailersHooks(cfg: Config, st: Stream, side: Side, o: Outcome)
    requires TrailersRan(cfg, st, side, o)
    requires side.ResponseSide?
    ensures HooksInOrder(cfg, st, side, o.calls)
    ensures Proceeds(o) ==> HooksRecorded(cfg, st, Trailers(side), o)
  {
    hide TrailersRan;
    if st.resp.bodyState.Completed? || st.resp.headersState.Completed? {
      LateResponseTrailersHooks(cfg, st, side, o);
    } else {
      ClosingResponseTrailersHooks(cfg, st, side, o);
    }
  }

  lemma LateResponseTrailersHooks(cfg: Config, st: Stream, side: Side, o: Outcome)
    requires TrailersRan(cfg, st, side, o)
    requires side.ResponseSide?
    requires st.resp.bodyState.Completed? || st.resp.headersState.Completed?
    ensures HooksInOrder(cfg, st, side, o.calls)
    ensures Proceeds(o) ==> HooksRecorded(cfg, st, Trailers(side), o)
  {
    hide PlanFrame, HeadersCommon, RequestBatch, ResponseBatch, Threads, ChunkReply, ChunkState, WithinLimits, EarlyProceeds,
         RequestState, RequestCalls, RequestCallsAll, RequestInv, LocalReplyInv, OnlyHeaderCall, TrailersRan, TrailersPlan,
         DispatchError;
    TrailersCases(cfg, st, side, o);
  }

  lemma ClosingResponseTrailersHooks(cfg: Config, st: Stream, side: Side, o: Outcome)
    requires TrailersRan(cfg, st, side, o)
    requires side.ResponseSide?
    requires !(st.resp.bodyState.Completed? || st.resp.headersState.Completed?)
    ensures HooksInOrder(cfg, st, side, o.calls)
    ensures Proceeds(o) ==> HooksRecorded(cfg, st, Trailers(side), o)
  {
    hide PlanFrame, HeadersCommon, RequestBatch, ResponseBatch, Threads, ChunkReply, ChunkState, WithinLimits, EarlyProceeds,
         RequestState, RequestCalls, RequestCallsAll, RequestInv, LocalReplyInv, OnlyHeaderCall, TrailersRan, TrailersPlan,
         DispatchError;
    TrailersCases(cfg, st, side, o);
  }

  // ---------------------------------------------------------------------------
  // Context and modes
  // ---------------------------------------------------------------------------

  /** Phases move no mode and send no override. */
  lemma PhaseFrame(cfg: Config, plan: Plan, o: Outcome)
    requires Executed(cfg, plan, o) && Proceeds(o) && !plan.Settle?
    ensures o.st.req.mode == plan.st.req.mode && o.st.resp.mode == plan.st.resp.mode
    ensures o.result.value.modeOverride.None?
  {
    hide PlanFrame, HeadersCommon, BodyResponses, CollectRequest, WithContentLength, Diff, Merge, CallsFit, Threads,
         Forwarded;
  }

  /** The modes change exactly as the override sent with the request headers says. */
  predicate FollowsOverride(st: Stream, m: Message, o: Outcome)
    requires Proceeds(o)
  {
    var sent := o.result.value.modeOverride;
    && o.st.req.mode == st.req.mode
    && o.st.resp.mode == (if sent.Some? then sent.value.responseMode else st.resp.mode)
    && (sent.Some? ==> m.Headers? && m.side.RequestSide? && o.result.value.headers.Some?
                       && sent.value == ModeOverride(st.req.mode, Streamed))
    && (st.resp.mode.NoBody? || st.resp.mode.FullDuplex? || st.req.mode.FullDuplex? ==> sent.None?)
  }

  /** A step threads the long-lived context through its hook calls. */
  lemma StepThreads(cfg: Config, st: Stream, m: Message, o: Outcome)
    requires Inv(cfg, st)
    requires Executed(cfg, PlanFor(cfg, st, m), o)
    ensures Threads(st, Stepped(cfg, st, m, o))
  {
    hide HandlerPlan, Chained, ChainEnd, Parked, CallsFit, PhaseProceeds, ShouldStream;
    var plan := PlanFor(cfg, st, m);
    hide PlanFor;
    assert Threads(st, o) by {
      if plan.Settle? {
        NoCallsChain(Parked(st.carried.value));
      }
    }
  }

  /** The modes of a step follow the override it sends. */
  lemma StepFollows(cfg: Config, st: Stream, m: Message, o: Outcome)
    requires Inv(cfg, st)
    requires Executed(cfg, PlanFor(cfg, st, m), o) && Proceeds(Stepped(cfg, st, m, o))
    ensures FollowsOverride(st, m, Stepped(cfg, st, m, o))
  {
    hide HandlerPlan, Threads, CallsFit, PhaseProceeds, ShouldStream, Inv;
    var plan := PlanFor(cfg, st, m);
    hide PlanFor;
    if !plan.Settle? && Proceeds(o) {
      PhaseFrame(cfg, plan, o);
    }
  }

  lemma NoCallsChain(start: Shared)
    ensures Chained(start, NO_CALLS) && ChainEnd(start, NO_CALLS) == start
  {
  }

  // ---------------------------------------------------------------------------
  // All facts about one step
  // ---------------------------------------------------------------------------

  /** What a step that proceeds adds to the history. */
  predicate Advances(cfg: Config, st: Stream, m: Message, o: Outcome)
    requires Proceeds(o)
  {
    && Inv(cfg, o.st)
    && EmitsInOrder(cfg, st, m.side, o)
    && OtherUntouched(st, m.side, o.st)
    && HooksRecorded(cfg, st, m, o)
    && FollowsOverride(st, m, o)
  }

  /** Every step of a live stream, whatever the message and the filters. */
  predicate StepGood(cfg: Config, st: Stream, m: Message, o: Outcome) {
    && (o.result.Err? ==> !InternalError(o.result.status))
    && Threads(st, o)
    && HooksInOrder(cfg, st, m.side, o.calls)
    && (Proceeds(o) ==> Advances(cfg, st, m, o))
  }

  lemma SettledHooks(cfg: Config, st: Stream, m: Message, o: Outcome)
    requires o.calls == NO_CALLS
    ensures HooksInOrder(cfg, st, m.side, o.calls)
  {
  }

  lemma LocalReplyHooks(cfg: Config, st: Stream, m: Message, o: Outcome)
    requires LocalReplyRan(cfg, st, m, o) && Proceeds(o)
    ensures HooksRecorded(cfg, st, m, o)
  {
    hide Inv, Executed;
    if m.Body? {
      LocalReplyBodyHooks(cfg, st, m, o);
    } else {
      LocalReplyOtherHooks(cfg, st, m, o);
    }
  }

  lemma LocalReplyBodyHooks(cfg: Config, st: Stream, m: Message, o: Outcome)
    requires LocalReplyRan(cfg, st, m, o) && Proceeds(o)
    requires m.Body?
    ensures HooksRecorded(cfg, st, m, o)
  {
    LocalReplyBodyIs(cfg, st, m, o);
    hide Executed, LocalReplyPlan, PlanFrame, DispatchError, RequestInv, ResponseInv;
  }

  lemma LocalReplyOtherHooks(cfg: Config, st: Stream, m: Message, o: Outcome)
    requires LocalReplyRan(cfg, st, m, o) && Proceeds(o)
    requires !m.Body?
    ensures HooksRecorded(cfg, st, m, o)
  {
    hide PlanFrame, BodyResponses, HeadersCommon;
  }

  lemma RequestHeadersGood(cfg: Config, st: Stream, headers: seq<HeaderValue>, eos: bool, o: Outcome)
    requires RequestHeadersRan(cfg, st, headers, eos, o)
    ensures HooksInOrder(cfg, st, RequestSide, o.calls) && FinishRequestHeaders(cfg, headers, eos, o).calls == o.calls
    ensures Proceeds(FinishRequestHeaders(cfg, headers, eos, o)) ==>
              var f := FinishRequestHeaders(cfg, headers, eos, o);
              && Inv(cfg, f.st) && EmitsInOrder(cfg, st, RequestSide, f) && OtherUntouched(st, RequestSide, f.st)
              && HooksRecorded(cfg, st, Headers(RequestSide, headers, eos), f)
  {
    RequestHeadersHooks(cfg, st, headers, eos, o);
    var f := FinishRequestHeaders(cfg, headers, eos, o);
    if Proceeds(f) {
      RequestHeadersKeep(cfg, st, headers, eos, o);
      RequestHeadersEmit(cfg, st, headers, eos, o);
      hide RequestHeadersPlan, Executed, Inv, EmitsInOrder, OtherUntouched, ShouldStream;
      assert f.st.req == o.st.req && f.calls == o.calls && f.st.localReply == o.st.localReply;
    }
  }

  /** The step lemma: one case per kind of message. */
  lemma StepIsGood(cfg: Config, oracle: Oracle, st: Stream, m: Message)
    requires Inv(cfg, st)
    ensures StepGood(cfg, st, m, Step(cfg, oracle, st, m))
  {
    hide Inv, HandlerPlan, Executed, PlanFrame, Threads, HooksInOrder, EmitsInOrder, OtherUntouched, HooksRecorded,
         FollowsOverride, RunRequest, RunResponse, EarlyRequest, EarlyResponse, StreamedChunk, FlushStreamed, InternalError,
         Sound;
    if m.side.RequestSide? {
      RequestPlansAreSound(cfg, st, m);
    } else {
      ResponsePlansAreSound(cfg, st, m);
    }
    var plan := PlanFor(cfg, st, m);
    var p := Execute(cfg, oracle, plan);
    SoundIsReady(plan);
    ExecuteFits(cfg, oracle, plan);
    StepThreads(cfg, st, m, p);
    if Proceeds(Stepped(cfg, st, m, p)) {
      StepFollows(cfg, st, m, p);
    }
    StepErrors(cfg, st, m, p);
    if DispatchError(st, m).Some? {
      SettledHooks(cfg, st, m, p);
    } else {
      DispatchedStep(cfg, st, m, p);
    }
  }

  lemma SoundIsReady(plan: Plan)
    requires Sound(plan)
    ensures Ready(plan)
  {
  }

  lemma StepErrors(cfg: Config, st: Stream, m: Message, o: Outcome)
    requires Executed(cfg, PlanFor(cfg, st, m), o) && Sound(PlanFor(cfg, st, m))
    ensures Stepped(cfg, st, m, o).result.Err? ==> !InternalError(Stepped(cfg, st, m, o).result.status)
  {
    hide PlanFor, PhaseProceeds, Threads, RequestCalls, ResponseCalls, ShouldStream;
  }

  lemma LocalReplyIff(cfg: Config, st: Stream, m: Message)
    requires Inv(cfg, st) && DispatchError(st, m).None?
    ensures Advanced(st, m).localReply <==> m.side.ResponseSide? && st.req.furthest.None?
    ensures st.localReply ==> Advanced(st, m).localReply
  {
  }

  lemma TrailersGood(cfg: Config, st: Stream, side: Side, o: Outcome)
    requires TrailersRan(cfg, st, side, o)
    ensures HooksInOrder(cfg, st, side, o.calls) && FinishTrailers(cfg, side, o).calls == o.calls
    ensures Proceeds(FinishTrailers(cfg, side, o)) ==>
              var f := FinishTrailers(cfg, side, o);
              && Inv(cfg, f.st) && EmitsInOrder(cfg, st, side, f) && OtherUntouched(st, side, f.st)
              && HooksRecorded(cfg, st, Trailers(side), f)
  {
    TrailersHooks(cfg, st, side, o);
    if Proceeds(o) {
      TrailersEmit(cfg, st, side, o);
      if side.RequestSide? {
        RequestTrailersKeep(cfg, st, o);
      } else {
        ResponseTrailersKeep(cfg, st, o);
      }
      hide TrailersPlan, Executed, Inv, EmitsInOrder, OtherUntouched;
    }
  }

  lemma DispatchedStep(cfg: Config, st: Stream, m: Message, o: Outcome)
    requires Inv(cfg, st) && DispatchError(st, m).None?
    requires Executed(cfg, PlanFor(cfg, st, m), o)
    ensures HooksInOrder(cfg, st, m.side, Stepped(cfg, st, m, o).calls)
    ensures Proceeds(Stepped(cfg, st, m, o)) ==>
              var f := Stepped(cfg, st, m, o);
              && Inv(cfg, f.st) && EmitsInOrder(cfg, st, m.side, f) && OtherUntouched(st, m.side, f.st)
              && HooksRecorded(cfg, st, m, f)
  {
    hide EmitsInOrder, OtherUntouched, HooksRecorded, HooksInOrder, Inv, Executed, PlanFrame, DispatchError,
         RequestHeadersPlan, RequestBodyPlan, ResponseHeadersPlan, ResponseBodyPlan, TrailersPlan, LocalReplyPlan,
         FinishRequestHeaders, FinishTrailers;
    LocalReplyIff(cfg, st, m);
    if Advanced(st, m).localReply {
      LocalReplySettles(cfg, Advanced(st, m), m, o);
      SettledHooks(cfg, st, m, o);
      if Proceeds(o) {
        LocalReplyKeeps(cfg, st, m, o);
        LocalReplyEmits(cfg, st, m, o);
        LocalReplyHooks(cfg, st, m, o);
      }
    } else {
      match m
      case Headers(RequestSide, headers, eos) => RequestHeadersGood(cfg, st, headers, eos, o);
      case Headers(ResponseSide, headers, eos) =>
        ResponseHeadersHooks(cfg, st, headers, eos, o);
        if Proceeds(o) {
          ResponseHeadersKeep(cfg, st, headers, eos, o);
          ResponseHeadersEmit(cfg, st, headers, eos, o);
        }
      case Body(RequestSide, chunk, eos) =>
        RequestBodyHooks(cfg, st, chunk, eos, o);
        if Proceeds(o) {
          RequestBodyKeeps(cfg, st, chunk, eos, o);
          RequestBodyEmits(cfg, st, chunk, eos, o);
        }
      case Body(ResponseSide, chunk, eos) =>
        ResponseBodyHooks(cfg, st, chunk, eos, o);
        if Proceeds(o) {
          ResponseBodyKeeps(cfg, st, chunk, eos, o);
          ResponseBodyEmits(cfg, st, chunk, eos, o);
        }
      case Trailers(side) => TrailersGood(cfg, st, side, o);
    }
  }
}
