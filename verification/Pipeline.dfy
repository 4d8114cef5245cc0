/**
 The pipeline phases as the server runs them, step by step on the stream state
 (`src/pipeline.rs`). Every method is proved to do exactly what its specification in
 `StreamSpec` says: same new state, same replies, same hook calls.
 */
module Pipeline {
  import opened Wire
  import opened HeaderMaps
  import opened Filters
  import opened Chunking
  import opened StreamSpec
  import opened StreamStates

  type Replies = Result<seq<Reply>>

  /** The replies of an outcome as the flat list that is sent. */
  function Rendered(side: Side, result: Result<Batch>): Replies {
    match result
    case Err(status) => Err(status)
    case Ok(batch) => Ok(Render(side, batch))
  }

  /** A method did what its specification says. */
  ghost predicate Refines(side: Side, o: Outcome, st: Stream, r: Replies, calls: Calls) {
    st == o.st && r == Rendered(side, o.result) && calls == o.calls
  }

  // ---------------------------------------------------------------------------
  // Reply builders
  // ---------------------------------------------------------------------------

  function HeadersMessage(side: Side, mutation: Option<HeaderMutation>): Reply {
    Reply(HeadersReply(side, HeadersCommon(side, mutation)), None)
  }

  function ImmediateMessage(immediate: ImmediateResponse): Reply {
    Reply(Immediate(immediate), None)
  }

  /** `body_responses` wrapped for a direction. */
  method BodyRepliesFor(side: Side, mode: BodyMode, data: Option<Bytes>, mutation: Option<HeaderMutation>, eos: bool)
    returns (replies: seq<Reply>)
    ensures replies == BodyReplies(side, BodyResponses(side, mode, data, mutation, eos))
  {
    var commons: seq<CommonResponse>;
    if mode.FullDuplex? {
      commons := BodyResponsesStreamed(side, data, mutation, eos);
    } else {
      commons := [BodyCommon(side, mutation, if data.Some? then Some(Replace(data.value)) else None)];
    }
    replies := BodyReplies(side, commons);
  }

  /** A body answer renders as the headers reply, if any, followed by the body replies. */
  lemma RenderBodies(side: Side, headers: Option<CommonResponse>, bodies: seq<CommonResponse>)
    ensures Render(side, Answer(headers, bodies, false, None))
            == if headers.None? then BodyReplies(side, bodies)
               else [Reply(HeadersReply(side, headers.value), None)] + BodyReplies(side, bodies)
  {
    hide BodyReplies;
    var replies := BodyReplies(side, bodies);
    assert [] + replies + [] == replies;
  }

  /** `build_request_for_phase` and `build_response_for_phase`. */
  method BuildForPhase(side: Side, phase: Phase, mutation: Option<HeaderMutation>, body: Bytes, mode: BodyMode, eos: bool)
    returns (replies: seq<Reply>)
    ensures replies == Render(side, if phase.AtHeaders? then HeadersOnly(HeadersCommon(side, mutation))
                                    else BodyBatch(side, mode, mutation, body, eos))
  {
    if phase.AtHeaders? {
      RenderBodies(side, Some(HeadersCommon(side, mutation)), []);
      return [HeadersMessage(side, mutation)];
    }
    var headersFirst := mode.FullDuplex?;
    var bodies := BodyRepliesFor(side, mode, Some(body), if headersFirst then None else mutation, eos);
    RenderBodies(side, if headersFirst then Some(HeadersCommon(side, mutation)) else None,
                 BodyResponses(side, mode, Some(body), if headersFirst then None else mutation, eos));
    replies := if headersFirst then [HeadersMessage(side, mutation)] + bodies else bodies;
  }

  /** `with_content_length`, by way of `set_content_length`. */
  method CorrectLength(mutation: Option<HeaderMutation>, body: Bytes, originalLen: nat) returns (r: Option<HeaderMutation>)
    ensures r == WithContentLength(mutation, body, originalLen)
  {
    if |body| != originalLen {
      var corrected := SetContentLength(mutation, |body|);
      return Some(corrected);
    }
    return mutation;
  }

  // ---------------------------------------------------------------------------
  // Hooks
  // ---------------------------------------------------------------------------

  /** `execute_http_request` or `execute_http_response`, with the action read as a verdict. */
  method RunHeaderFilters(oracle: Oracle, kind: HookKind, ctx: Context, ghost body: Bytes, ghost before: Calls)
    returns (after: Context, verdict: Verdict, ghost calls: Calls)
    ensures var s := HeaderStage(oracle, kind, Stage(ctx, [], Go, NO_CALLS));
            after == s.ctx && verdict == s.verdict
    ensures Stage(after, body, verdict, calls) == HeaderStage(oracle, kind, Stage(ctx, body, Go, before))
  {
    calls := before.(header := Some(Invoke(oracle, kind, ctx, None, false)));
    match oracle(kind, ctx, None, false)
    case Raised => return ctx, Broken, calls;
    case Returned(shared, headers, edits, _, action) =>
      after := ctx.(shared := shared, response := if ctx.response.Some? then Some(headers) else None, edits := edits);
      verdict := if action.ShortCircuit? then Stop(ImmediateOf(action.status, action.headers, action.body)) else Go;
  }

  /** `run_body_filters` and `run_resp_body_filters`: the buffer is taken, and refilled with what the filters leave. */
  method RunBodyFilters(oracle: Oracle, kind: HookKind, ctx: Context, buffer: Bytes, eos: bool, ghost before: Calls)
    returns (after: Context, left: Bytes, verdict: Verdict, ghost calls: Calls)
    ensures var s := BodyStage(oracle, kind, Stage(ctx, buffer, Go, NO_CALLS), eos);
            after == s.ctx && left == s.body && verdict == s.verdict
    ensures Stage(after, left, verdict, calls) == BodyStage(oracle, kind, Stage(ctx, buffer, Go, before), eos)
  {
    if buffer == [] && !eos {
      return ctx, buffer, Go, before;
    }
    calls := before.(body := Some(Invoke(oracle, kind, ctx, Some(buffer), eos)));
    left := [];
    match oracle(kind, ctx, Some(buffer), eos)
    case Raised => return ctx, left, Broken, calls;
    case Returned(shared, headers, edits, body, action) =>
      after := ctx.(shared := shared, response := if ctx.response.Some? then Some(headers) else None, edits := edits);
      if body.Some? {
        left := body.value;
      }
      verdict := if action.ShortCircuit? then Stop(ImmediateOf(action.status, action.headers, action.body)) else Go;
  }

  /** `run_selected_upstream_body_filters`. */
  method RunSelectedFilters(caps: Capabilities, maxBody: Option<nat>, oracle: Oracle, ctx: Context, buffer: Bytes, ghost before: Calls)
    returns (after: Context, left: Bytes, verdict: Verdict, ghost calls: Calls)
    ensures var s := SelectedStage(caps, maxBody, oracle, Stage(ctx, buffer, Go, NO_CALLS));
            after == s.ctx && left == s.body && verdict == s.verdict
    ensures Stage(after, left, verdict, calls) == SelectedStage(caps, maxBody, oracle, Stage(ctx, buffer, Go, before))
  {
    if !caps.needsSelectedBody {
      return ctx, buffer, Go, before;
    }
    calls := before.(selected := Some(Invoke(oracle, OnSelectedBody, ctx, Some(buffer), true)));
    left := [];
    match oracle(OnSelectedBody, ctx, Some(buffer), true)
    case Raised => return ctx, left, Broken, calls;
    case Returned(shared, headers, edits, body, action) =>
      after := ctx.(shared := shared, response := if ctx.response.Some? then Some(headers) else None, edits := edits);
      if body.Some? {
        left := body.value;
      }
      if action.ShortCircuit? {
        verdict := Stop(ImmediateOf(action.status, action.headers, action.body));
      } else if caps.selectedWriter && maxBody.Some? && |left| > maxBody.value {
        verdict := Stop(Rejection(413, NoText));
      } else {
        verdict := Go;
      }
  }

  // ---------------------------------------------------------------------------
  // Full phases
  // ---------------------------------------------------------------------------

  /** `run_request_body_filters_at_eos`, after the check of the selected-upstream input limit. */
  method RunRequestBodyHooks(cfg: Config, oracle: Oracle, ctx: Context, buffer: Bytes, ordinary: bool, ghost before: Calls)
    returns (after: Context, left: Bytes, verdict: Verdict, ghost calls: Calls)
    ensures Stage(after, left, verdict, calls) == RequestBodyStage(cfg, oracle, Stage(ctx, buffer, Go, before), ordinary)
  {
    hide BodyStage, SelectedStage;
    after, left, verdict, calls := ctx, buffer, Go, before;
    if cfg.caps.needsSelectedBody && |buffer| > cfg.caps.selectedLimit {
      verdict := Stop(Rejection(413, NoText));
      return;
    }
    if ordinary {
      after, left, verdict, calls := RunBodyFilters(oracle, OnRequestBody, after, left, true, calls);
      if !verdict.Go? {
        return;
      }
    }
    after, left, verdict, calls := RunSelectedFilters(cfg.caps, cfg.maxBody, oracle, after, left, calls);
  }

  /** The hooks of a request phase, as `run_request_pipeline_inner` goes through them. */
  method RunRequestHooks(state: StreamState, oracle: Oracle, ctx: Context, phase: Phase, ordinary: bool)
    returns (after: Context, verdict: Verdict, ghost calls: Calls)
    modifies state
    ensures var h := old(state.View()).req;
            var s0 := Stage(ctx, h.body, Go, NO_CALLS);
            && Stage(after, state.View().req.body, verdict, calls) == RequestStage(state.cfg, oracle, s0, h.executed, phase, ordinary)
            && state.View() == old(state.View()).(req := h.(
                 body := state.View().req.body, executed := h.executed || HeaderStage(oracle, OnRequest, s0).verdict.Go?))
  {
    hide HeaderStage, RequestBodyStage;
    after, verdict, calls := ctx, Go, NO_CALLS;
    if !state.requestFiltersExecuted {
      after, verdict, calls := RunHeaderFilters(oracle, OnRequest, ctx, state.requestBody, NO_CALLS);
      if !verdict.Go? {
        return;
      }
      state.requestFiltersExecuted := true;
    }
    if phase.OverBody? {
      var left;
      after, left, verdict, calls := RunRequestBodyHooks(state.cfg, oracle, after, state.requestBody, ordinary, calls);
      state.requestBody := left;
    }
  }

  /** `build_request`: a headers-only request must not gain a body. */
  method BuildRequestReplies(state: StreamState, phase: Phase, mutation: Option<HeaderMutation>, originalLen: nat, eos: bool)
    returns (replies: seq<Reply>)
    modifies state
    ensures var (st, batch) := BuildRequest(old(state.View()), phase, mutation, originalLen, eos);
            state.View() == st && replies == Render(RequestSide, batch)
  {
    if phase.OverBody? && state.eosTracker.requestHeaders.Completed? {
      if state.requestBody != [] {
        return [ImmediateMessage(Rejection(500, BytesForHeadersOnlyRequest))];
      }
      state.requestHeadersSent := true;
      var sized := CorrectLength(mutation, state.requestBody, originalLen);
      RenderBodies(RequestSide, Some(HeadersCommon(RequestSide, sized)), []);
      return [HeadersMessage(RequestSide, sized)];
    }
    var sized := CorrectLength(mutation, state.requestBody, originalLen);
    replies := BuildForPhase(RequestSide, phase, sized, state.requestBody, state.requestMode, eos);
  }

  /** The end of `run_request_pipeline_inner`. */
  method FinishRequest(state: StreamState, ctx: Context, priorLen: nat, phase: Phase, eos: bool) returns (replies: seq<Reply>)
    requires state.View().carried.None?
    modifies state
    ensures var before := old(state.View()).(carried := Some(Dehydrate(ctx)));
            var (st, batch) := BuildRequest(before, phase, CollectRequest(ctx.edits), priorLen, eos);
            state.View() == st && replies == Render(RequestSide, batch)
  {
    hide BuildRequest, Render, CollectRequest, StreamState.View, Filters.Dehydrate;
    var mutation := CollectRequest(ctx.edits);
    var captured := state.Dehydrate(ctx);
    assert captured.Ok?;
    replies := BuildRequestReplies(state, phase, mutation, priorLen, eos);
  }

  /** `run_request_pipeline_inner`. */
  method RunRequestPipeline(state: StreamState, oracle: Oracle, phase: Phase, eos: bool, ordinary: bool)
    returns (r: Replies, ghost calls: Calls)
    modifies state
    ensures Refines(RequestSide, RunRequest(state.cfg, oracle, old(state.View()), phase, eos, ordinary), state.View(), r, calls)
  {
    hide RequestStage, HeaderStage, BuildRequest, Render, CollectRequest, Filters.Hydrate, Filters.Dehydrate,
         StreamState.View;
    calls := NO_CALLS;
    var request := state.RequestKept();
    if request.None? {
      return Err(MissingRequestHeaders), calls;
    }
    var priorLen := |state.Buffer(RequestSide)|;
    var hydrated := state.Hydrate(FreshContext(request.value, None));
    if hydrated.Err? {
      return Err(hydrated.status), calls;
    }
    var ctx, verdict;
    ctx, verdict, calls := RunRequestHooks(state, oracle, hydrated.value, phase, ordinary);
    match verdict {
      case Broken => return Err(FilterError), calls;
      case Stop(immediate) =>
        RenderHalt(RequestSide, immediate);
        return Ok([ImmediateMessage(immediate)]), calls;
      case Go =>
    }
    var replies := FinishRequest(state, ctx, priorLen, phase, eos);
    return Ok(replies), calls;
  }

  lemma RenderHalt(side: Side, immediate: ImmediateResponse)
    ensures Render(side, Halt(immediate)) == [ImmediateMessage(immediate)]
  {
  }

  /** The hooks of a response phase; header filters that ran early are not run again over a body. */
  method RunResponseHooks(state: StreamState, oracle: Oracle, ctx: Context, phase: Phase)
    returns (after: Context, verdict: Verdict, ghost calls: Calls)
    modifies state
    ensures var h := old(state.View()).resp;
            && Stage(after, state.View().resp.body, verdict, calls)
               == ResponseStage(oracle, Stage(ctx, h.body, Go, NO_CALLS), h.executed, phase)
            && state.View() == old(state.View()).(resp := h.(body := state.View().resp.body))
  {
    hide HeaderStage, BodyStage;
    after, verdict, calls := ctx, Go, NO_CALLS;
    if phase.AtHeaders? || !state.responseFiltersExecuted {
      after, verdict, calls := RunHeaderFilters(oracle, OnResponse, ctx, state.responseBody, NO_CALLS);
      if !verdict.Go? {
        return;
      }
    }
    if phase.OverBody? {
      var left;
      after, left, verdict, calls := RunBodyFilters(oracle, OnResponseBody, after, state.responseBody, true, calls);
      state.responseBody := left;
    }
  }

  /** The start of `run_response_pipeline`: the headers leave the state, then the context does. */
  method TakeResponse(state: StreamState) returns (r: Result<(Context, HeaderMap)>)
    modifies state
    ensures var st := old(state.View());
            if st.request.None? then r == Err(MissingRequestHeaders) && state.View() == st
            else if st.response.None? then r == Err(MissingResponseHeaders) && state.View() == st
            else if st.carried.None? then r == Err(ContextMissing) && state.View() == st.(response := None)
            else
              && r == Ok((StartStage(st, st.response, []).ctx, st.response.value))
              && state.View() == st.(response := None, carried := None)
  {
    if state.request.None? {
      return Err(MissingRequestHeaders);
    }
    if state.response.None? {
      return Err(MissingResponseHeaders);
    }
    var original := state.response.value;
    state.response := None;
    var hydrated := state.Hydrate(FreshContext(state.request.value, Some(original)));
    if hydrated.Err? {
      return Err(hydrated.status);
    }
    return Ok((hydrated.value, original));
  }

  /** The end of `run_response_pipeline`. */
  method FinishResponse(state: StreamState, ctx: Context, original: HeaderMap, originalLen: nat, phase: Phase, eos: bool)
    returns (replies: seq<Reply>)
    requires state.View().carried.None?
    modifies state
    ensures var (st, batch) := BuildResponse(old(state.View()).(carried := Some(Dehydrate(ctx))), ctx, original, originalLen, phase, eos);
            state.View() == st && replies == Render(ResponseSide, batch)
  {
    hide Render, Diff, WithContentLength, BodyBatch, HeadersCommon;
    var mutation := CollectResponse(ctx, original);
    var captured := state.Dehydrate(ctx);
    assert captured.Ok?;
    if phase.OverBody? {
      var deferred := state.TakeDeferred(ResponseSide);
      mutation := Merge(deferred, mutation);
    }
    var sized := CorrectLength(mutation, state.responseBody, originalLen);
    replies := BuildForPhase(ResponseSide, phase, sized, state.responseBody, state.responseMode, eos);
  }

  /** `run_response_pipeline`: the response headers and, over a body, the deferred mutation are taken. */
  method RunResponsePipeline(state: StreamState, oracle: Oracle, phase: Phase, eos: bool) returns (r: Replies, ghost calls: Calls)
    modifies state
    ensures Refines(ResponseSide, RunResponse(oracle, old(state.View()), phase, eos), state.View(), r, calls)
  {
    hide ResponseStage, Render, BuildResponse, Filters.Hydrate, Filters.Dehydrate, StreamState.View;
    calls := NO_CALLS;
    var originalLen := |state.Buffer(ResponseSide)|;
    var taken := TakeResponse(state);
    if taken.Err? {
      return Err(taken.status), calls;
    }
    var (ctx, original) := taken.value;
    var verdict;
    ctx, verdict, calls := RunResponseHooks(state, oracle, ctx, phase);
    match verdict {
      case Broken => return Err(FilterError), calls;
      case Stop(immediate) =>
        RenderHalt(ResponseSide, immediate);
        return Ok([ImmediateMessage(immediate)]), calls;
      case Go =>
    }
    var replies := FinishResponse(state, ctx, original, originalLen, phase, eos);
    return Ok(replies), calls;
  }

  // ---------------------------------------------------------------------------
  // Early header filters
  // ---------------------------------------------------------------------------

  /** `deliver_request` and `deliver_response`. */
  method DeliverMutation(state: StreamState, side: Side, delivery: Delivery, mutation: Option<HeaderMutation>) returns (replies: seq<Reply>)
    modifies state
    ensures var (st, batch) := Deliver(old(state.View()), side, delivery, mutation);
            state.View() == st && replies == Render(side, batch)
  {
    if delivery.Send? {
      RenderBodies(side, Some(HeadersCommon(side, mutation)), []);
      return [HeadersMessage(side, mutation)];
    }
    if side.RequestSide? {
      state.deferredRequestMutation := mutation;
    } else {
      state.deferredResponseMutation := mutation;
    }
    if delivery.DeferSilent? {
      RenderBodies(side, None, []);
      return [];
    }
    RenderBodies(side, Some(HeadersCommon(side, None)), []);
    return [HeadersMessage(side, None)];
  }

  /** `run_request_header_filters_early`. */
  method RunRequestHeadersEarly(state: StreamState, oracle: Oracle, delivery: Delivery) returns (r: Replies, ghost calls: Calls)
    modifies state
    ensures Refines(RequestSide, EarlyRequest(oracle, old(state.View()), delivery), state.View(), r, calls)
  {
    hide HeaderStage, Render, Deliver, CollectRequest, Filters.Hydrate, Filters.Dehydrate, StreamState.View;
    calls := NO_CALLS;
    var request := state.RequestKept();
    if request.None? {
      var replies := DeliverMutation(state, RequestSide, delivery, None);
      return Ok(replies), calls;
    }
    var hydrated := state.Hydrate(FreshContext(request.value, None));
    if hydrated.Err? {
      return Err(hydrated.status), calls;
    }
    var ctx, verdict;
    ctx, verdict, calls := RunHeaderFilters(oracle, OnRequest, hydrated.value, [], NO_CALLS);
    match verdict {
      case Broken => return Err(FilterError), calls;
      case Stop(immediate) =>
        RenderHalt(RequestSide, immediate);
        return Ok([ImmediateMessage(immediate)]), calls;
      case Go =>
    }
    state.MarkFiltersExecuted(RequestSide);
    var captured := state.Dehydrate(ctx);
    assert captured.Ok?;
    var replies := DeliverMutation(state, RequestSide, delivery, CollectRequest(ctx.edits));
    return Ok(replies), calls;
  }

  /** The end of `run_response_header_filters_early`: buffering needs a body to buffer. */
  method FinishEarlyResponse(state: StreamState, ctx: Context, original: HeaderMap, delivery: Delivery) returns (replies: seq<Reply>)
    requires state.View().carried.None?
    modifies state
    ensures var st := old(state.View());
            if st.resp.mode.NoBody? && ctx.shared.responseBodyMode.StreamBuffer? then
              state.View() == st && replies == Render(ResponseSide, Halt(Rejection(502, ResponseBodyRequired)))
            else
              var (st', batch) := Deliver(st.(carried := Some(Dehydrate(ctx)), resp := st.resp.(executed := true)), ResponseSide, delivery,
                                          CollectResponse(ctx, original));
              state.View() == st' && replies == Render(ResponseSide, batch)
  {
    hide Render, Deliver, Diff;
    if state.Mode(ResponseSide).NoBody? && ctx.shared.responseBodyMode.StreamBuffer? {
      RenderHalt(ResponseSide, Rejection(502, ResponseBodyRequired));
      return [ImmediateMessage(Rejection(502, ResponseBodyRequired))];
    }
    state.MarkFiltersExecuted(ResponseSide);
    var captured := state.Dehydrate(ctx);
    assert captured.Ok?;
    replies := DeliverMutation(state, ResponseSide, delivery, CollectResponse(ctx, original));
  }

  /** `run_response_header_filters_early`: the response headers are filtered in place. */
  method RunResponseHeadersEarly(state: StreamState, oracle: Oracle, delivery: Delivery) returns (r: Replies, ghost calls: Calls)
    modifies state
    ensures Refines(ResponseSide, EarlyResponse(oracle, old(state.View()), delivery), state.View(), r, calls)
  {
    hide HeaderStage, Render, Deliver, Diff, Filters.Hydrate, Filters.Dehydrate, StreamState.View;
    calls := NO_CALLS;
    var request, response := state.RequestKept(), state.ResponseKept();
    if request.None? || response.None? {
      var replies := DeliverMutation(state, ResponseSide, delivery, None);
      return Ok(replies), calls;
    }
    var original := response.value;
    var hydrated := state.Hydrate(FreshContext(request.value, Some(original)));
    if hydrated.Err? {
      return Err(hydrated.status), calls;
    }
    var ctx, verdict;
    ctx, verdict, calls := RunHeaderFilters(oracle, OnResponse, hydrated.value, [], NO_CALLS);
    state.UpdateResponse(ResponseSide, ctx.response);
    match verdict {
      case Broken => return Err(FilterError), calls;
      case Stop(immediate) =>
        RenderHalt(ResponseSide, immediate);
        return Ok([ImmediateMessage(immediate)]), calls;
      case Go =>
    }
    var replies := FinishEarlyResponse(state, ctx, original, delivery);
    return Ok(replies), calls;
  }

  // ---------------------------------------------------------------------------
  // Streamed chunks
  // ---------------------------------------------------------------------------

  /** `body_data_if_present`. */
  function DataIfPresent(buffer: Bytes): Option<Bytes> {
    if buffer == [] then None else Some(buffer)
  }

  /** `deferred_header_response`: the parked mutation leaves with the headers reply. */
  method DeferredHeadersReply(state: StreamState, side: Side) returns (reply: Reply)
    modifies state
    ensures reply == HeadersMessage(side, old(state.View()).At(side).deferred)
    ensures state.View() == old(state.View()).With(side, old(state.View()).At(side).(deferred := None))
  {
    var mutation := state.TakeDeferred(side);
    reply := HeadersMessage(side, mutation);
  }

  /** `passthrough_chunk`. */
  method PassthroughChunk(state: StreamState, side: Side, chunk: Bytes, eos: bool) returns (replies: seq<Reply>)
    modifies state
    ensures Refines(side, Passthrough(old(state.View()), side, chunk, eos), state.View(), Ok(replies), NO_CALLS)
  {
    hide BodyResponses, BodyReplies, HeadersCommon;
    var mode := state.Mode(side);
    var bodies := BodyRepliesFor(side, mode, DataIfPresent(chunk), None, eos);
    var first := state.TakeFirstChunk(side);
    RenderBodies(side, if first then Some(HeadersCommon(side, old(state.View()).At(side).deferred)) else None,
                 BodyResponses(side, mode, DataIfPresent(chunk), None, eos));
    if !first {
      return bodies;
    }
    var headers := DeferredHeadersReply(state, side);
    replies := [headers] + bodies;
  }

  /** `buffer_response_chunk`: the chunk to filter now and the bytes still held; a refusal changes neither. */
  method BufferResponseChunk(mode: FilterBodyMode, chunk: Bytes, buffered: Bytes, eos: bool, serverLimit: Option<nat>)
    returns (r: Result<(Bytes, Bytes)>)
    ensures var held := HoldBack(mode, chunk, buffered, eos, serverLimit);
            r == if held.None? then Err(BodyTooLarge) else Ok(held.value)
  {
    if mode.Stream? {
      return Ok((chunk, buffered));
    }
    var total := SaturatingAdd(|buffered|, |chunk|);
    if (mode.maxBytes.Some? && total > mode.maxBytes.value) || (serverLimit.Some? && total > serverLimit.value) {
      return Err(BodyTooLarge);
    }
    var held := buffered + chunk;
    return Ok(if eos then (held, []) else ([], held));
  }

  /** The checks and the input of `process_streamed_body_chunk`: the context, and the chunk to filter now. */
  method TakeChunk(state: StreamState, side: Side, body: Bytes, eos: bool) returns (r: Result<(Context, Bytes)>)
    modifies state
    ensures var st := old(state.View());
            if st.request.None? then r == Err(MissingRequestHeaders) && state.View() == st
            else if side.ResponseSide? && st.response.None? then r == Err(MissingResponseHeaders) && state.View() == st
            else if st.carried.None? then r == Err(ContextMissing) && state.View() == st
            else
              var ctx := StartStage(st, if side.RequestSide? then None else st.response, body).ctx;
              var input := if side.RequestSide? then Some((body, st.resp.body))
                           else HoldBack(ctx.shared.responseBodyMode, body, st.resp.body, eos, state.cfg.maxBody);
              if input.None? then r == Err(BodyTooLarge) && state.View() == st.(carried := None)
              else r == Ok((ctx, input.value.0)) && state.View() == st.(carried := None, resp := st.resp.(body := input.value.1))
  {
    hide HoldBack;
    if state.request.None? {
      return Err(MissingRequestHeaders);
    }
    if side.ResponseSide? && state.response.None? {
      return Err(MissingResponseHeaders);
    }
    var hydrated := state.Hydrate(FreshContext(state.request.value, if side.RequestSide? then None else state.response));
    if hydrated.Err? {
      return Err(hydrated.status);
    }
    if side.RequestSide? {
      return Ok((hydrated.value, body));
    }
    var held := BufferResponseChunk(hydrated.value.shared.responseBodyMode, body, state.responseBody, eos, state.cfg.maxBody);
    if held.Err? {
      return Err(held.status);
    }
    state.responseBody := held.value.1;
    return Ok((hydrated.value, held.value.0));
  }

  /** `process_streamed_body_chunk`. */
  method ProcessStreamedChunk(state: StreamState, oracle: Oracle, side: Side, body: Bytes, eos: bool)
    returns (r: Replies, ghost calls: Calls)
    modifies state
    ensures Refines(side, StreamedChunk(state.cfg, oracle, old(state.View()), side, body, eos), state.View(), r, calls)
  {
    hide BodyStage, Render, HoldBack, BodyResponses, StreamState.View;
    calls := NO_CALLS;
    var input := TakeChunk(state, side, body, eos);
    if input.Err? {
      return Err(input.status), calls;
    }
    var (ctx, chunk) := input.value;
    var verdict;
    ctx, chunk, verdict, calls := RunBodyFilters(oracle, BodyKind(side), ctx, chunk, eos, calls);
    state.UpdateResponse(side, ctx.response);
    match verdict {
      case Broken => return Err(FilterError), calls;
      case Stop(immediate) =>
        RenderHalt(side, immediate);
        return Ok([ImmediateMessage(immediate)]), calls;
      case Go =>
    }
    var replies := AnswerChunk(state, side, body, ctx, chunk, eos);
    return Ok(replies), calls;
  }

  /** The end of `process_streamed_body_chunk`: a chunk the filters cleared is replaced by nothing, explicitly. */
  method AnswerChunk(state: StreamState, side: Side, body: Bytes, ctx: Context, chunk: Bytes, eos: bool) returns (replies: seq<Reply>)
    requires state.View().carried.None?
    modifies state
    ensures var st := old(state.View());
            var data := if chunk != [] then Some(chunk) else if body != [] then Some([]) else None;
            && state.View() == st.(carried := Some(Dehydrate(ctx)))
            && replies == Render(side, Answer(None, BodyResponses(side, st.At(side).mode, data, None, eos), false, None))
  {
    hide Render, BodyResponses, StreamState.View;
    var captured := state.Dehydrate(ctx);
    assert captured.Ok?;
    var data := if body != [] && chunk == [] then Some(chunk) else DataIfPresent(chunk);
    replies := BodyRepliesFor(side, state.Mode(side), data, None, eos);
    RenderBodies(side, None, BodyResponses(side, state.Mode(side), data, None, eos));
  }

  /** `flush_streamed_body_filters`: the final call without data; pending bytes are refused. */
  method FlushStreamedFilters(state: StreamState, oracle: Oracle, side: Side) returns (r: Replies, ghost calls: Calls)
    modifies state
    ensures Refines(side, FlushStreamed(oracle, old(state.View()), side), state.View(), r, calls)
  {
    hide Render;
    calls := NO_CALLS;
    if side.ResponseSide? && state.responseBody != [] {
      RenderHalt(side, Rejection(502, BufferingNeedsFinalBody));
      return Ok([ImmediateMessage(Rejection(502, BufferingNeedsFinalBody))]), calls;
    }
    if state.request.None? {
      return Err(MissingRequestHeaders), calls;
    }
    if side.ResponseSide? && state.response.None? {
      return Err(MissingResponseHeaders), calls;
    }
    var hydrated := state.Hydrate(FreshContext(state.request.value, if side.RequestSide? then None else state.response));
    if hydrated.Err? {
      return Err(hydrated.status), calls;
    }
    var call := Invoke(oracle, BodyKind(side), hydrated.value, None, true);
    calls := NO_CALLS.(body := Some(call));
    if side.ResponseSide? {
      state.response := call.after.response;
    }
    if call.verdict.Broken? {
      return Err(FilterError), calls;
    }
    var captured := state.Dehydrate(call.after);
    assert captured.Ok?;
    if call.verdict.Stop? {
      RenderHalt(side, call.verdict.immediate);
      return Ok([ImmediateMessage(call.verdict.immediate)]), calls;
    }
    RenderBodies(side, None, []);
    return Ok([]), calls;
  }
}
