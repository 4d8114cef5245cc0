/**
 Header mutations through one step: which mutation the filters asked for, when it is parked
 and which reply carries it.
 */
module HeaderFlow {
  import opened Wire
  import opened HeaderMaps
  import opened Filters
  import opened Guardrails
  import opened Chunking
  import opened StreamSpec
  import opened Effects
  import opened Invariant
  import opened Steps

  /** The mutation a header hook asks for: its request edits, or what it changed in the response headers. */
  function MutationOf(side: Side, c: Call): Option<HeaderMutation> {
    if side.RequestSide? then CollectRequest(c.after.edits)
    else if c.after.response.Some? && c.before.response.Some? then Diff(c.after.response.value, c.before.response.value)
    else None
  }

  /** Headers whose filters run early: the reply carries the mutation, or it is parked. */
  predicate EarlyFlow(st: Stream, m: Message, o: Outcome)
    requires Proceeds(o) && m.Headers?
  {
    var mode, c := st.At(m.side).mode, o.calls.header;
    && c.Some?
    && var mutation := MutationOf(m.side, c.value);
       && (m.side.ResponseSide? ==>
             && c.value.before.response == Some(FromEnvoy(m.headers)) && c.value.after.response.Some?
             && o.st.response == c.value.after.response)
       && o.result.value.headers
          == (if mode.FullDuplex? then None else Some(HeadersCommon(m.side, if mode.Buffered? then None else mutation)))
       && o.st.At(m.side).deferred == (if mode.FullDuplex? || mode.Buffered? then mutation else None)
       && (mode.FullDuplex? ==> !o.st.At(m.side).sent)
  }

  /** Later messages of such a direction: a full-duplex reply takes the parked mutation, nothing else moves it. */
  predicate ParkedFlow(st: Stream, m: Message, o: Outcome)
    requires Proceeds(o)
  {
    var h, h', reply := st.At(m.side), o.st.At(m.side), o.result.value.headers;
    && (reply.None? && h'.bodyState.Active? ==>
          h'.deferred == h.deferred && (m.side.ResponseSide? && h.mode.Buffered? ==> o.st.response == st.response))
    && (h.mode.FullDuplex? ==>
          if h.sent then reply.None? && h'.sent && h'.deferred == h.deferred
          else if reply.Some? then reply == Some(HeadersCommon(m.side, h.deferred)) && h'.sent && h'.deferred.None?
          else !h'.sent && h'.deferred == h.deferred)
    && (!h.mode.FullDuplex? ==> reply.None?)
  }

  predicate MutationFlow(cfg: Config, st: Stream, m: Message, o: Outcome)
    requires Proceeds(o)
  {
    && (m.side.RequestSide? ==> o.st.response == st.response)
    && (!o.st.localReply && m.Headers? && RanEarly(cfg, m.side, o.st.At(m.side)) ==> EarlyFlow(st, m, o))
    && (!o.st.localReply && !m.Headers? && RanEarly(cfg, m.side, st.At(m.side)) ==> ParkedFlow(st, m, o))
  }

  lemma RequestHeadersMutation(cfg: Config, st: Stream, headers: seq<HeaderValue>, eos: bool, o: Outcome)
    requires RequestHeadersRan(cfg, st, headers, eos, o) && Proceeds(FinishRequestHeaders(cfg, headers, eos, o))
    ensures MutationFlow(cfg, st, Headers(RequestSide, headers, eos), FinishRequestHeaders(cfg, headers, eos, o))
  {
    hide PlanFrame, HeadersCommon, Admitted, HasSelectedGuardrail, ShouldStream, CollectRequest, WithContentLength, Threads,
         ResponseInv, ResponseCalls, ResponseState, ResponseBatch, ChunkState, ChunkReply, WithinLimits, FlushProceeds,
         OnlyBodyCall, LocalReplyInv, RequestHeadersRan, RequestHeadersPlan, DispatchError;
    RequestHeadersCases(cfg, st, headers, eos, o);
  }

  lemma RequestBodyMutation(cfg: Config, st: Stream, chunk: Bytes, eos: bool, o: Outcome)
    requires RequestBodyRan(cfg, st, chunk, eos, o) && Proceeds(o)
    ensures MutationFlow(cfg, st, Body(RequestSide, chunk, eos), o)
  {
    hide PlanFrame, HeadersCommon, BodyResponses, CollectRequest, WithContentLength, Threads, ResponseInv, Forwarded,
         ResponseCalls, ResponseState, ResponseBatch, EarlyProceeds, FlushProceeds, OnlyHeaderCall, LocalReplyInv,
         RequestBodyRan, RequestBodyPlan, DispatchError;
    RequestBodyCases(cfg, st, chunk, eos, o);
  }

  lemma ResponseHeadersMutation(cfg: Config, st: Stream, headers: seq<HeaderValue>, eos: bool, o: Outcome)
    requires ResponseHeadersRan(cfg, st, headers, eos, o) && Proceeds(o)
    ensures MutationFlow(cfg, st, Headers(ResponseSide, headers, eos), o)
  {
    hide PlanFrame, HeadersCommon, FromEnvoy, Diff, Merge, WithContentLength, Threads, RequestInv, RequestCalls,
         RequestCallsAll, RequestState, RequestBatch, ChunkState, ChunkReply, WithinLimits, FlushProceeds, OnlyBodyCall,
         LocalReplyInv, ResponseHeadersRan, ResponseHeadersPlan, DispatchError;
    ResponseHeadersCases(cfg, st, headers, eos, o);
  }

  lemma ResponseBodyMutation(cfg: Config, st: Stream, chunk: Bytes, eos: bool, o: Outcome)
    requires ResponseBodyRan(cfg, st, chunk, eos, o) && Proceeds(o)
    ensures MutationFlow(cfg, st, Body(ResponseSide, chunk, eos), o)
  {
    hide PlanFrame, HeadersCommon, BodyResponses, Diff, Merge, WithContentLength, Threads, RequestInv, Forwarded,
         RequestCalls, RequestCallsAll, RequestState, RequestBatch, EarlyProceeds, FlushProceeds, OnlyHeaderCall,
         LocalReplyInv, ResponseBodyRan, ResponseBodyPlan, DispatchError;
    ResponseBodyCases(cfg, st, chunk, eos, o);
  }

  lemma TrailersMutation(cfg: Config, st: Stream, side: Side, o: Outcome)
    requires TrailersRan(cfg, st, side, o) && Proceeds(o)
    ensures MutationFlow(cfg, st, Trailers(side), FinishTrailers(cfg, side, o))
  {
    hide PlanFrame, HeadersCommon, BodyResponses, CollectRequest, Diff, Merge, WithContentLength, Threads, ChunkState,
         ChunkReply, WithinLimits, EarlyProceeds, OnlyHeaderCall, LocalReplyInv, TrailersRan, TrailersPlan, DispatchError;
    TrailersCases(cfg, st, side, o);
  }

  // ---------------------------------------------------------------------------
  // Closing a held body
  // ---------------------------------------------------------------------------

  /** What the filters asked for by the time the body is closed, a parked response mutation included. */
  function FilterMutation(st: Stream, side: Side, calls: Calls): Option<HeaderMutation> {
    if side.RequestSide? then CollectRequest(LastEdits(calls))
    else if st.response.None? then None
    else Merge(st.resp.deferred, Diff(LastHeaders(st.response.value, calls), st.response.value))
  }

  /** The reply that releases a held body corrects the declared length from what came in to what goes out. */
  predicate ClosingFlow(st: Stream, m: Message, o: Outcome)
    requires Proceeds(o)
  {
    var h, body, batch := st.At(m.side), o.st.At(m.side).body, o.result.value;
    (h.mode.FullDuplex? || h.mode.Buffered?) && FinalCall(o.calls) ==>
      && !m.Headers?
      && o.calls.body.value.data == Some(if m.Body? then h.body + m.body else h.body)
      && (m.side.ResponseSide? ==> o.st.resp.deferred.None?)
      && (m.side.ResponseSide? || o.calls.selected.None? ==> body == o.calls.body.value.produced)
      && var emitted := WithContentLength(FilterMutation(st, m.side, o.calls), body, |o.calls.body.value.data.value|);
         && (h.mode.FullDuplex? ==> batch.headers == Some(HeadersCommon(m.side, emitted)))
         && (h.mode.Buffered? && m.Body? ==> batch.bodies == [BodyCommon(m.side, emitted, Some(Replace(body)))])
  }

  lemma RequestHeadersClosing(cfg: Config, st: Stream, headers: seq<HeaderValue>, eos: bool, o: Outcome)
    requires RequestHeadersRan(cfg, st, headers, eos, o) && Proceeds(FinishRequestHeaders(cfg, headers, eos, o))
    ensures ClosingFlow(st, Headers(RequestSide, headers, eos), FinishRequestHeaders(cfg, headers, eos, o))
  {
    hide PlanFrame, HeadersCommon, Admitted, HasSelectedGuardrail, ShouldStream, CollectRequest, WithContentLength, Threads,
         ResponseInv, PhaseProceeds, FilterMutation, ResponseCalls, ResponseState, ResponseBatch, ChunkState, ChunkReply,
         WithinLimits, FlushProceeds, OnlyBodyCall, LocalReplyInv, RequestHeadersRan, RequestHeadersPlan, DispatchError;
    RequestHeadersCases(cfg, st, headers, eos, o);
  }

  lemma RequestBodyClosing(cfg: Config, st: Stream, chunk: Bytes, eos: bool, o: Outcome)
    requires RequestBodyRan(cfg, st, chunk, eos, o) && Proceeds(o)
    ensures ClosingFlow(st, Body(RequestSide, chunk, eos), o)
  {
    hide PlanFrame, HeadersCommon, BodyCommon, Chunks, CollectRequest, WithContentLength, Threads, ResponseInv, Forwarded,
         ResponseCalls, ResponseState, ResponseBatch, EarlyProceeds, FlushProceeds, OnlyHeaderCall, LocalReplyInv,
         RequestBodyRan, RequestBodyPlan, DispatchError;
    RequestBodyCases(cfg, st, chunk, eos, o);
  }

  lemma ResponseHeadersClosing(cfg: Config, st: Stream, headers: seq<HeaderValue>, eos: bool, o: Outcome)
    requires ResponseHeadersRan(cfg, st, headers, eos, o) && Proceeds(o)
    ensures ClosingFlow(st, Headers(ResponseSide, headers, eos), o)
  {
    hide PlanFrame, HeadersCommon, FromEnvoy, Diff, Merge, WithContentLength, Threads, RequestInv, PhaseProceeds,
         FilterMutation, RequestCalls, RequestCallsAll, RequestState, RequestBatch, ChunkState, ChunkReply, WithinLimits,
         FlushProceeds, OnlyBodyCall, LocalReplyInv, ResponseHeadersRan, ResponseHeadersPlan, DispatchError;
    ResponseHeadersCases(cfg, st, headers, eos, o);
  }

  lemma ResponseBodyClosing(cfg: Config, st: Stream, chunk: Bytes, eos: bool, o: Outcome)
    requires ResponseBodyRan(cfg, st, chunk, eos, o) && Proceeds(o)
    ensures ClosingFlow(st, Body(ResponseSide, chunk, eos), o)
  {
    hide PlanFrame, HeadersCommon, BodyCommon, Chunks, Diff, Merge, WithContentLength, Threads, RequestInv, Forwarded,
         RequestCalls, RequestCallsAll, RequestState, RequestBatch, EarlyProceeds, FlushProceeds, OnlyHeaderCall,
         LocalReplyInv, ResponseBodyRan, ResponseBodyPlan, DispatchError;
    ResponseBodyCases(cfg, st, chunk, eos, o);
  }

  lemma TrailersClosing(cfg: Config, st: Stream, side: Side, o: Outcome)
    requires TrailersRan(cfg, st, side, o) && Proceeds(o)
    ensures ClosingFlow(st, Trailers(side), FinishTrailers(cfg, side, o))
  {
    hide PlanFrame, HeadersCommon, BodyResponses, CollectRequest, Diff, Merge, WithContentLength, Threads, ChunkState,
         ChunkReply, WithinLimits, EarlyProceeds, OnlyHeaderCall, LocalReplyInv, TrailersRan, TrailersPlan, DispatchError;
    TrailersCases(cfg, st, side, o);
  }

  // ---------------------------------------------------------------------------
  // Headers that end the stream
  // ---------------------------------------------------------------------------

  /** What the filters made of headers that end the stream. */
  function EndedMutation(m: Message, calls: Calls): Option<HeaderMutation>
    requires m.Headers?
  {
    if m.side.RequestSide? then CollectRequest(LastEdits(calls))
    else Diff(LastHeaders(FromEnvoy(m.headers), calls), FromEnvoy(m.headers))
  }

  /** One headers reply that carries it, and no body. */
  predicate EndedFlow(m: Message, o: Outcome)
    requires m.Headers?
  {
    Proceeds(o) && !o.st.localReply && m.endOfStream ==>
      && o.calls.header.Some? && o.result.value.bodies == []
      && o.result.value.headers == Some(HeadersCommon(m.side, EndedMutation(m, o.calls)))
  }

  lemma RequestEnded(cfg: Config, st: Stream, headers: seq<HeaderValue>, eos: bool, o: Outcome)
    requires RequestHeadersRan(cfg, st, headers, eos, o)
    ensures EndedFlow(Headers(RequestSide, headers, eos), FinishRequestHeaders(cfg, headers, eos, o))
  {
    hide PlanFrame, HeadersCommon, Admitted, HasSelectedGuardrail, ShouldStream, CollectRequest, Threads, ResponseInv, ResponseCalls,
         ResponseState, ResponseBatch, ChunkState, ChunkReply, WithinLimits, FlushProceeds, OnlyBodyCall, LocalReplyInv,
         RequestHeadersRan, RequestHeadersPlan, DispatchError, LengthSet, LastEdits;
    RequestHeadersCases(cfg, st, headers, eos, o);
  }

  lemma ResponseEnded(cfg: Config, st: Stream, headers: seq<HeaderValue>, eos: bool, o: Outcome)
    requires ResponseHeadersRan(cfg, st, headers, eos, o)
    ensures EndedFlow(Headers(ResponseSide, headers, eos), o)
  {
    hide PlanFrame, HeadersCommon, FromEnvoy, Diff, Threads, RequestInv, RequestCalls, RequestCallsAll, RequestState, RequestBatch,
         ChunkState, ChunkReply, WithinLimits, FlushProceeds, OnlyBodyCall, ResponseHeadersRan, ResponseHeadersPlan,
         DispatchError, LengthSet, LastHeaders;
    ResponseHeadersCases(cfg, st, headers, eos, o);
  }

  // ---------------------------------------------------------------------------
  // Every step
  // ---------------------------------------------------------------------------

  lemma StepMoves(cfg: Config, oracle: Oracle, st: Stream, m: Message)
    requires Inv(cfg, st) && Proceeds(Step(cfg, oracle, st, m))
    ensures MutationFlow(cfg, st, m, Step(cfg, oracle, st, m)) && ClosingFlow(st, m, Step(cfg, oracle, st, m))
    ensures m.Headers? ==> EndedFlow(m, Step(cfg, oracle, st, m))
  {
    if m.side.RequestSide? {
      RequestPlansAreSound(cfg, st, m);
    } else {
      ResponsePlansAreSound(cfg, st, m);
    }
    var plan := PlanFor(cfg, st, m);
    var p := Execute(cfg, oracle, plan);
    ExecuteFits(cfg, oracle, plan);
    assert DispatchError(st, m).None?;
    DispatchedMoves(cfg, st, m, p);
  }

  lemma DispatchedMoves(cfg: Config, st: Stream, m: Message, o: Outcome)
    requires Inv(cfg, st) && DispatchError(st, m).None?
    requires Executed(cfg, PlanFor(cfg, st, m), o) && Proceeds(Stepped(cfg, st, m, o))
    ensures MutationFlow(cfg, st, m, Stepped(cfg, st, m, o)) && ClosingFlow(st, m, Stepped(cfg, st, m, o))
    ensures m.Headers? ==> EndedFlow(m, Stepped(cfg, st, m, o))
  {
    LocalReplyIff(cfg, st, m);
    hide Inv, MutationFlow, ClosingFlow, EndedFlow, Executed, PlanFrame, DispatchError, RequestHeadersPlan, RequestBodyPlan,
         ResponseHeadersPlan, ResponseBodyPlan, TrailersPlan, LocalReplyPlan, FinishRequestHeaders;
    if Advanced(st, m).localReply {
      LocalReplyMoves(cfg, st, m, o);
    } else {
      match m
      case Headers(RequestSide, headers, eos) =>
        RequestHeadersMutation(cfg, st, headers, eos, o);
        RequestHeadersClosing(cfg, st, headers, eos, o);
        RequestEnded(cfg, st, headers, eos, o);
      case Headers(ResponseSide, headers, eos) =>
        ResponseHeadersMutation(cfg, st, headers, eos, o);
        ResponseHeadersClosing(cfg, st, headers, eos, o);
        ResponseEnded(cfg, st, headers, eos, o);
      case Body(RequestSide, chunk, eos) =>
        RequestBodyMutation(cfg, st, chunk, eos, o);
        RequestBodyClosing(cfg, st, chunk, eos, o);
      case Body(ResponseSide, chunk, eos) =>
        ResponseBodyMutation(cfg, st, chunk, eos, o);
        ResponseBodyClosing(cfg, st, chunk, eos, o);
      case Trailers(side) =>
        TrailersMutation(cfg, st, side, o);
        TrailersClosing(cfg, st, side, o);
    }
  }

  lemma LocalReplyMoves(cfg: Config, st: Stream, m: Message, o: Outcome)
    requires LocalReplyRan(cfg, st, m, o) && Proceeds(o)
    ensures MutationFlow(cfg, st, m, o) && ClosingFlow(st, m, o) && (m.Headers? ==> EndedFlow(m, o))
  {
    LocalReplySettles(cfg, Advanced(st, m), m, o);
    assert o.st.localReply by {
      hide BodyResponses, HeadersCommon;
    }
    hide LocalReplyPlan, Executed, EarlyFlow, ParkedFlow;
  }
}
