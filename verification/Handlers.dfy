/**
 The message handlers on the stream state (`src/handlers.rs`). Each is proved to do what the
 plan of its message prescribes.
 */
module Handlers {
  import opened Wire
  import opened HeaderMaps
  import opened Filters
  import opened Guardrails
  import opened Sequencing
  import opened Chunking
  import opened StreamSpec
  import opened StreamStates
  import opened Pipeline

  // ---------------------------------------------------------------------------
  // Bodies
  // ---------------------------------------------------------------------------

  /** `check_body_limit`. */
  function CheckBodyLimit(current: nat, incoming: nat, limit: Option<nat>): (r: Result<()>)
    ensures r.Ok? <==> !OverLimit(SaturatingAdd(current, incoming), limit)
  {
    if limit.Some? && SaturatingAdd(current, incoming) > limit.value then Err(BodyTooLarge) else Ok(())
  }

  /** `handle_body_redelivery`: nothing to say on a first delivery. */
  function BodyRedelivery(entry: PhaseState, mode: BodyMode): (r: Option<Replies>)
    ensures r.Some? <==> entry.Completed?
    ensures r.Some? ==> if mode.FullDuplex? then r.value == Ok([]) else r.value == Err(DuplicateAfterEos)
  {
    if entry.Active? then None
    else if mode.FullDuplex? then Some(Ok([])) else Some(Err(DuplicateAfterEos))
  }

  function OversizedReply(cfg: Config): Reply {
    ImmediateMessage(Rejection(413, if cfg.caps.needsSelectedBody then SelectedRequestTooLarge else RequestTooLarge))
  }

  lemma RenderNothing(side: Side)
    ensures Render(side, NOTHING) == []
  {
  }

  /** `accumulate_request_body`. */
  method AccumulateRequestBody(state: StreamState, oracle: Oracle, chunk: Bytes, eos: bool) returns (r: Replies, ghost calls: Calls)
    modifies state
    ensures Refines(RequestSide, Execute(state.cfg, oracle, AccumulateRequestPlan(state.cfg, old(state.View()), chunk, eos)),
                    state.View(), r, calls)
  {
    hide RunRequest, Render, PlanFrame;
    calls := NO_CALLS;
    if CheckBodyLimit(|state.requestBody|, |chunk|, state.cfg.maxBody).Err? {
      RenderHalt(RequestSide, OversizedRequest(state.cfg).immediate);
      return Ok([OversizedReply(state.cfg)]), calls;
    }
    state.requestBody := state.requestBody + chunk;
    if !eos && !state.requestMode.Buffered? {
      RenderNothing(RequestSide);
      return Ok([]), calls;
    }
    state.bufferedRequestBodyProcessed := state.requestMode.Buffered?;
    r, calls := RunRequestPipeline(state, oracle, OverBody, eos, true);
  }

  /** `reject_streamed_request_over_limit`: the counter moves only when the chunk fits. */
  method CountStreamedRequest(state: StreamState, len: nat) returns (rejected: bool)
    modifies state
    ensures rejected == OverLimit(SaturatingAdd(old(state.streamedRequestBytes), len), state.cfg.maxBody)
    ensures state.View() == old(state.View()).(
              streamedBytes := if rejected then old(state.streamedRequestBytes) else SaturatingAdd(old(state.streamedRequestBytes), len))
  {
    if CheckBodyLimit(state.streamedRequestBytes, len, state.cfg.maxBody).Err? {
      return true;
    }
    state.streamedRequestBytes := SaturatingAdd(state.streamedRequestBytes, len);
    return false;
  }

  /** The chunks `handle_request_body` does not accumulate. */
  method ForwardRequestChunk(state: StreamState, oracle: Oracle, chunk: Bytes, eos: bool) returns (r: Replies, ghost calls: Calls)
    modifies state
    ensures Refines(RequestSide, Execute(state.cfg, oracle, CountedRequestPlan(state.cfg, old(state.View()), chunk, eos)),
                    state.View(), r, calls)
  {
    hide StreamedChunk, Passthrough, Render, PlanFrame;
    calls := NO_CALLS;
    var rejected := CountStreamedRequest(state, |chunk|);
    if rejected {
      RenderHalt(RequestSide, OversizedRequest(state.cfg).immediate);
      return Ok([OversizedReply(state.cfg)]), calls;
    }
    if state.cfg.caps.needsRequestBody {
      r, calls := ProcessStreamedChunk(state, oracle, RequestSide, chunk, eos);
    } else {
      var replies := PassthroughChunk(state, RequestSide, chunk, eos);
      r := Ok(replies);
    }
  }

  /** `handle_request_body`. */
  method HandleRequestBody(state: StreamState, oracle: Oracle, chunk: Bytes, eos: bool) returns (r: Replies, ghost calls: Calls)
    modifies state, state.eosTracker
    ensures Refines(RequestSide, Execute(state.cfg, oracle, RequestBodyPlan(state.cfg, old(state.View()), chunk, eos)),
                    state.View(), r, calls)
  {
    hide CountedRequestPlan, AccumulateRequestPlan, RunRequest, StreamedChunk, Render, PlanFrame;
    calls := NO_CALLS;
    var mode := state.requestMode;
    state.MarkBodySeen(RequestSide);
    var entry := state.CheckAndMark(RequestSide, BodyStep, eos);
    if entry.Err? {
      return Err(entry.status), calls;
    }
    var redelivery := BodyRedelivery(entry.value, mode);
    if redelivery.Some? {
      RenderNothing(RequestSide);
      return redelivery.value, calls;
    }
    if mode.Streamed? || (mode.FullDuplex? && !state.cfg.caps.needsRequestBody) {
      r, calls := ForwardRequestChunk(state, oracle, chunk, eos);
    } else {
      r, calls := AccumulateRequestBody(state, oracle, chunk, eos);
    }
  }

  /** `accumulate_response_body`. */
  method AccumulateResponseBody(state: StreamState, oracle: Oracle, chunk: Bytes, eos: bool) returns (r: Replies, ghost calls: Calls)
    modifies state
    ensures Refines(ResponseSide, Execute(state.cfg, oracle, AccumulateResponsePlan(state.cfg, old(state.View()), chunk, eos)),
                    state.View(), r, calls)
  {
    hide RunResponse, Render, PlanFrame;
    calls := NO_CALLS;
    var within := CheckBodyLimit(|state.responseBody|, |chunk|, state.cfg.maxBody);
    if within.Err? {
      return Err(within.status), calls;
    }
    state.responseBody := state.responseBody + chunk;
    if !eos {
      RenderNothing(ResponseSide);
      return Ok([]), calls;
    }
    r, calls := RunResponsePipeline(state, oracle, OverBody, true);
  }

  /** `handle_response_body`. */
  method HandleResponseBody(state: StreamState, oracle: Oracle, chunk: Bytes, eos: bool) returns (r: Replies, ghost calls: Calls)
    modifies state, state.eosTracker
    ensures Refines(ResponseSide, Execute(state.cfg, oracle, ResponseBodyPlan(state.cfg, old(state.View()), chunk, eos)),
                    state.View(), r, calls)
  {
    hide StreamedChunk, RunResponse, Passthrough, Render, PlanFrame, AccumulateResponsePlan;
    calls := NO_CALLS;
    var mode := state.responseMode;
    state.MarkBodySeen(ResponseSide);
    var entry := state.CheckAndMark(ResponseSide, BodyStep, eos);
    if entry.Err? {
      return Err(entry.status), calls;
    }
    var redelivery := BodyRedelivery(entry.value, mode);
    if redelivery.Some? {
      RenderNothing(ResponseSide);
      return redelivery.value, calls;
    }
    var needsBody := state.cfg.caps.needsResponseBody;
    if (mode.Streamed? || mode.FullDuplex?) && !needsBody {
      var replies := PassthroughChunk(state, ResponseSide, chunk, eos);
      r := Ok(replies);
    } else if mode.Streamed? {
      r, calls := ProcessStreamedChunk(state, oracle, ResponseSide, chunk, eos);
    } else {
      r, calls := AccumulateResponseBody(state, oracle, chunk, eos);
    }
  }

  // ---------------------------------------------------------------------------
  // Request headers
  // ---------------------------------------------------------------------------

  /** `set_response_mode_streamed`: only a request-headers reply can carry the override. */
  function StreamedOverride(reply: Reply, requestMode: BodyMode): Reply {
    if reply.payload.HeadersReply? && reply.payload.side.RequestSide? then reply.(modeOverride := Some(ModeOverride(requestMode, Streamed)))
    else reply
  }

  /** The override loop leaves a rendered batch with the override on its headers reply, if it has one. */
  lemma OverrideOfRender(batch: Batch, replies: seq<Reply>, requestMode: BodyMode)
    requires var sent := Render(RequestSide, batch);
             |replies| == |sent| && forall i :: 0 <= i < |sent| ==> replies[i] == StreamedOverride(sent[i], requestMode)
    ensures replies == Render(RequestSide, if batch.Answer? && batch.headers.Some?
                                           then batch.(modeOverride := Some(ModeOverride(requestMode, Streamed))) else batch)
    ensures batch.Answer? && batch.headers.Some? <==>
              exists i :: 0 <= i < |replies| && replies[i].payload.HeadersReply? && replies[i].payload.side.RequestSide?
  {
    var sent := Render(RequestSide, batch);
    if batch.Answer? && batch.headers.Some? {
      assert replies[0].payload.HeadersReply?;
    }
  }

  /** `apply_response_mode_override`. */
  method ApplyModeOverride(state: StreamState, replies: seq<Reply>, headers: seq<HeaderValue>, ghost batch: Batch)
    returns (overridden: seq<Reply>)
    requires replies == Render(RequestSide, batch)
    modifies state
    ensures var (st, sent) := OverrideMode(state.cfg, old(state.View()), batch, headers);
            state.View() == st && overridden == Render(RequestSide, sent)
  {
    hide ShouldStream, Render;
    if state.requestMode.FullDuplex? || state.responseMode.FullDuplex? || state.responseMode.NoBody? || state.eagerBody {
      return replies;
    }
    if state.cfg.caps.responseBodyMode.StreamBuffer? || !ShouldStream(state.cfg.selector, headers) {
      return replies;
    }
    overridden := replies;
    var applied := false;
    for i := 0 to |overridden|
      invariant |overridden| == |replies|
      invariant forall k :: 0 <= k < i ==> overridden[k] == StreamedOverride(replies[k], state.requestMode)
      invariant forall k :: i <= k < |replies| ==> overridden[k] == replies[k]
      invariant applied <==> exists k :: 0 <= k < i && overridden[k].payload.HeadersReply? && overridden[k].payload.side.RequestSide?
    {
      applied := applied || (overridden[i].payload.HeadersReply? && overridden[i].payload.side.RequestSide?);
      overridden := overridden[i := StreamedOverride(overridden[i], state.requestMode)];
    }
    OverrideOfRender(batch, overridden, state.requestMode);
    if applied {
      state.responseMode := Streamed;
    }
  }

  /** `handle_request_headers_with_body`, the unsupported selected-upstream case included. */
  method HandleRequestHeadersWithBody(state: StreamState, oracle: Oracle) returns (r: Replies, ghost calls: Calls)
    modifies state
    ensures var o := Execute(state.cfg, oracle, RequestHeadersWithBodyPlan(state.cfg, old(state.View())));
            var refused := SelectedUnsupported(state.cfg, old(state.requestMode)) && o.result.Ok? && !o.result.value.Halt?;
            Refines(RequestSide, if refused then o.(result := Ok(Halt(Rejection(500, SelectedNeedsBuffered)))) else o,
                    state.View(), r, calls)
  {
    hide EarlyRequest, Render, PlanFrame, HeadersCommon;
    calls := NO_CALLS;
    var mode := state.requestMode;
    if state.cfg.caps.needsSelectedBody && (mode.NoBody? || mode.Streamed?) {
      ghost var o := EarlyRequest(oracle, state.View(), DeferSilent);
      r, calls := RunRequestHeadersEarly(state, oracle, DeferSilent);
      if r.Err? {
        return;
      }
      RenderedHalt(RequestSide, o.result.value);
      if r.value != [] && r.value[0].payload.Immediate? {
        return;
      }
      RenderHalt(RequestSide, Rejection(500, SelectedNeedsBuffered));
      return Ok([ImmediateMessage(Rejection(500, SelectedNeedsBuffered))]), calls;
    }
    match mode {
      case NoBody =>
        state.requestHeadersSent := true;
        r, calls := RunRequestHeadersEarly(state, oracle, Send);
      case Streamed =>
        state.requestHeadersSent := true;
        r, calls := RunRequestHeadersEarly(state, oracle, Send);
      case FullDuplex =>
        if !state.cfg.caps.needsRequestBody {
          r, calls := RunRequestHeadersEarly(state, oracle, DeferSilent);
        } else {
          RenderNothing(RequestSide);
          r := Ok([]);
        }
      case Buffered =>
        state.requestHeadersSent := true;
        RenderHeadersOnly(RequestSide, None);
        r := Ok([HeadersMessage(RequestSide, None)]);
    }
  }

  lemma RenderHeadersOnly(side: Side, mutation: Option<HeaderMutation>)
    ensures Render(side, HeadersOnly(HeadersCommon(side, mutation))) == [HeadersMessage(side, mutation)]
  {
  }

  /** Some reply is an immediate response. */
  predicate AnyImmediate(replies: seq<Reply>) {
    exists i :: 0 <= i < |replies| && replies[i].payload.Immediate?
  }

  /** A batch halts exactly when its first, equally its last, reply is an immediate response. */
  lemma RenderedHalt(side: Side, batch: Batch)
    ensures var sent := Render(side, batch);
            && (batch.Halt? <==> sent != [] && sent[0].payload.Immediate?)
            && (batch.Halt? <==> sent != [] && sent[|sent| - 1].payload.Immediate?)
            && (batch.Halt? <==> AnyImmediate(sent))
  {
    var sent := Render(side, batch);
    assert batch.Halt? ==> sent[0].payload.Immediate?;
  }

  /** Running the header filters early leaves the request mode alone. */
  lemma EarlyKeepsMode(cfg: Config, oracle: Oracle, st: Stream)
    ensures Execute(cfg, oracle, RequestHeadersWithBodyPlan(cfg, st)).st.req.mode == st.req.mode
  {
    hide EarlyRequest, HeadersCommon, PlanFrame;
    var sent := st.(req := st.req.(sent := true));
    EarlyRequestKeepsMode(oracle, st, DeferSilent);
    EarlyRequestKeepsMode(oracle, sent, Send);
  }

  lemma EarlyRequestKeepsMode(oracle: Oracle, st: Stream, delivery: Delivery)
    ensures EarlyRequest(oracle, st, delivery).st.req.mode == st.req.mode
  {
    hide CollectRequest, HeadersCommon, HeaderStage, Hydrate, Dehydrate;
  }

  /** The outcome of a request-headers phase with the refusal of unsupported selected-upstream hooks. */
  ghost function Refusing(cfg: Config, mode: BodyMode, eos: bool, o: Outcome): Outcome {
    if !eos && SelectedUnsupported(cfg, mode) && o.result.Ok? && !o.result.value.Halt?
    then o.(result := Ok(Halt(Rejection(500, SelectedNeedsBuffered)))) else o
  }

  /** Request headers that passed admission: `handle_request_headers` up to the mode override. */
  method RouteRequestHeaders(state: StreamState, oracle: Oracle, headers: seq<HeaderValue>, eos: bool)
    returns (r: Replies, ghost calls: Calls)
    modifies state
    ensures var st := old(state.View());
            var o := Execute(state.cfg, oracle, AdmittedHeadersPlan(state.cfg, st, headers, eos));
            Refines(RequestSide, Refusing(state.cfg, st.req.mode, eos, o), state.View(), r, calls)
  {
    hide RunRequest, RequestHeadersWithBodyPlan, Render, HasSelectedGuardrail, PlanFrame;
    if (state.requestMode.FullDuplex? || state.responseMode.FullDuplex?) && HasSelectedGuardrail(state.cfg.selector, headers) {
      RenderHalt(RequestSide, Rejection(500, GuardrailsNotInFullDuplex));
      return Ok([ImmediateMessage(Rejection(500, GuardrailsNotInFullDuplex))]), NO_CALLS;
    }
    if eos {
      if state.cfg.caps.needsSelectedBody {
        r, calls := RunRequestPipeline(state, oracle, OverBody, true, false);
      } else {
        r, calls := RunRequestPipeline(state, oracle, AtHeaders, true, true);
      }
    } else if state.requestMode.FullDuplex? && state.cfg.caps.needsSelectedBody {
      RenderHalt(RequestSide, Rejection(500, SelectedNotInFullDuplex));
      return Ok([ImmediateMessage(Rejection(500, SelectedNotInFullDuplex))]), NO_CALLS;
    } else {
      r, calls := HandleRequestHeadersWithBody(state, oracle);
    }
  }

  /** The admitted plan moves no request mode when more is to come. */
  lemma AdmittedKeepsMode(cfg: Config, oracle: Oracle, st: Stream, headers: seq<HeaderValue>)
    ensures Execute(cfg, oracle, AdmittedHeadersPlan(cfg, st, headers, false)).st.req.mode == st.req.mode
  {
    hide RequestHeadersWithBodyPlan, HasSelectedGuardrail, PlanFrame;
    EarlyKeepsMode(cfg, oracle, st);
  }

  /** `handle_request_headers`. */
  method HandleRequestHeaders(state: StreamState, oracle: Oracle, headers: seq<HeaderValue>, eos: bool)
    returns (r: Replies, ghost calls: Calls)
    modifies state, state.eosTracker
    ensures Refines(RequestSide,
                    FinishRequestHeaders(state.cfg, headers, eos,
                                         Execute(state.cfg, oracle, RequestHeadersPlan(state.cfg, old(state.View()), headers, eos))),
                    state.View(), r, calls)
  {
    hide RunRequest, AdmittedHeadersPlan, Render, PlanFrame, Admitted, OverrideMode, EarlyRequest;
    calls := NO_CALLS;
    var entry := state.CheckAndMark(RequestSide, HeadersStep, eos);
    if entry == Ok(Completed) {
      return Err(DuplicateAfterEos), calls;
    }
    var ambiguous := RejectAmbiguous(headers);
    if ambiguous {
      RenderHalt(RequestSide, Rejection(400, AmbiguousSelection));
      HaltIsNotOverridden(state.cfg, state.View(), Rejection(400, AmbiguousSelection), headers);
      return Ok([ImmediateMessage(Rejection(400, AmbiguousSelection))]), calls;
    }
    state.request := Some(headers);
    ghost var st := state.View();
    ghost var o := Execute(state.cfg, oracle, AdmittedHeadersPlan(state.cfg, st, headers, eos));
    AdmittedKeepsMode(state.cfg, oracle, st, headers);
    r, calls := RouteRequestHeaders(state, oracle, headers, eos);
    if r.Err? {
      return;
    }
    HaltIsNotOverridden(state.cfg, o.st, Rejection(500, SelectedNeedsBuffered), headers);
    var replies := ApplyModeOverride(state, r.value, headers, Refusing(state.cfg, st.req.mode, eos, o).result.value);
    r := Ok(replies);
  }

  lemma HaltIsNotOverridden(cfg: Config, st: Stream, immediate: ImmediateResponse, headers: seq<HeaderValue>)
    ensures OverrideMode(cfg, st, Halt(immediate), headers) == (st, Halt(immediate))
  {
    hide ShouldStream;
  }

  // ---------------------------------------------------------------------------
  // Response headers
  // ---------------------------------------------------------------------------

  /** `envoy_headers_to_response`: the conversion loop. */
  method HeadersFromEnvoy(headers: seq<HeaderValue>) returns (h: HeaderMap)
    ensures h == FromEnvoy(headers)
  {
    h := HeaderMap([], map[]);
    for i := 0 to |headers|
      invariant h == FromEnvoy(headers[..i])
    {
      assert headers[..i + 1][..i] == headers[..i];
      if headers[i].key != ":status" {
        var value := if headers[i].rawValue == [] then headers[i].value else headers[i].rawValue;
        h := Append(h, LowerName(headers[i].key), value);
      }
    }
    assert headers[..|headers|] == headers;
  }

  /** The mode cases of `handle_response_headers`. */
  method OpenResponse(state: StreamState, oracle: Oracle) returns (r: Replies, ghost calls: Calls)
    modifies state
    ensures Refines(ResponseSide, Execute(state.cfg, oracle, OpenResponsePlan(state.cfg, old(state.View()))), state.View(), r, calls)
  {
    hide EarlyResponse, Render, PlanFrame, HeadersCommon;
    calls := NO_CALLS;
    match state.responseMode {
      case NoBody =>
        state.responseHeadersSent := true;
        r, calls := RunResponseHeadersEarly(state, oracle, Send);
      case Streamed =>
        state.responseHeadersSent := true;
        r, calls := RunResponseHeadersEarly(state, oracle, Send);
      case FullDuplex =>
        if !state.cfg.caps.needsResponseBody {
          r, calls := RunResponseHeadersEarly(state, oracle, DeferSilent);
        } else {
          RenderNothing(ResponseSide);
          r := Ok([]);
        }
      case Buffered =>
        if state.cfg.caps.needsResponseBody {
          RenderHeadersOnly(ResponseSide, None);
          r := Ok([HeadersMessage(ResponseSide, None)]);
        } else {
          r, calls := RunResponseHeadersEarly(state, oracle, DeferWithResponse);
        }
    }
  }

  /** `handle_response_headers`. */
  method HandleResponseHeaders(state: StreamState, oracle: Oracle, headers: seq<HeaderValue>, eos: bool)
    returns (r: Replies, ghost calls: Calls)
    modifies state, state.eosTracker
    ensures Refines(ResponseSide, Execute(state.cfg, oracle, ResponseHeadersPlan(state.cfg, old(state.View()), headers, eos)),
                    state.View(), r, calls)
  {
    hide RunResponse, EarlyResponse, Render, PlanFrame, FromEnvoy, HeadersCommon, OpenResponsePlan;
    calls := NO_CALLS;
    var entry := state.CheckAndMark(ResponseSide, HeadersStep, eos);
    if entry == Ok(Completed) {
      return Err(DuplicateAfterEos), calls;
    }
    var converted := HeadersFromEnvoy(headers);
    state.response := Some(converted);
    if eos {
      r, calls := RunResponsePipeline(state, oracle, AtHeaders, true);
    } else {
      r, calls := OpenResponse(state, oracle);
    }
  }

  // ---------------------------------------------------------------------------
  // Local replies
  // ---------------------------------------------------------------------------

  /** The acknowledgement goes after everything else. */
  lemma RenderAck(side: Side, batch: Batch)
    requires batch.Answer?
    ensures Render(side, batch.(trailers := true)) == Render(side, batch.(trailers := false)) + [Reply(TrailersReply(side), None)]
  {
  }

  /** `local_reply_headers`. */
  method LocalReplyHeaders(state: StreamState, headers: seq<HeaderValue>, eos: bool) returns (r: Replies)
    modifies state, state.eosTracker
    ensures Refines(ResponseSide, LocalReplyPlan(old(state.View()), Headers(ResponseSide, headers, eos)).outcome, state.View(), r, NO_CALLS)
  {
    hide Render, PlanFrame, HeadersCommon;
    var entry := state.CheckAndMark(ResponseSide, HeadersStep, eos);
    if entry == Ok(Completed) {
      return Err(DuplicateAfterEos);
    }
    if !eos && state.responseMode.FullDuplex? {
      RenderNothing(ResponseSide);
      return Ok([]);
    }
    state.responseHeadersSent := true;
    RenderHeadersOnly(ResponseSide, None);
    return Ok([HeadersMessage(ResponseSide, None)]);
  }

  /** `local_reply_body`. */
  method LocalReplyBody(state: StreamState, chunk: Bytes, eos: bool) returns (r: Replies)
    modifies state, state.eosTracker
    ensures Refines(ResponseSide, LocalReplyPlan(old(state.View()), Body(ResponseSide, chunk, eos)).outcome, state.View(), r, NO_CALLS)
  {
    hide Render, PlanFrame, Passthrough, BodyResponses;
    var mode := state.responseMode;
    var entry := state.CheckAndMark(ResponseSide, BodyStep, eos);
    if entry.Err? {
      return Err(entry.status);
    }
    var redelivery := BodyRedelivery(entry.value, mode);
    if redelivery.Some? {
      RenderNothing(ResponseSide);
      return redelivery.value;
    }
    if mode.FullDuplex? {
      var replies := PassthroughChunk(state, ResponseSide, chunk, eos);
      return Ok(replies);
    }
    var replies := BodyRepliesFor(ResponseSide, mode, None, None, eos);
    RenderBodies(ResponseSide, None, BodyResponses(ResponseSide, mode, None, None, eos));
    return Ok(replies);
  }

  /** `local_reply_passthrough`. */
  method LocalReplyPassthrough(state: StreamState, m: Message) returns (r: Replies)
    modifies state, state.eosTracker
    ensures Refines(m.side, LocalReplyPlan(old(state.View()), m).outcome, state.View(), r, NO_CALLS)
  {
    hide Render, PlanFrame, Passthrough, BodyResponses, HeadersCommon;
    if m.side.RequestSide? {
      return Err(LocalReplyRequest);
    }
    RenderAck(ResponseSide, NOTHING);
    RenderNothing(ResponseSide);
    assert NOTHING.(trailers := false) == NOTHING && NOTHING.(trailers := true) == Answer(None, [], true, None);
    match m
    case Headers(_, headers, eos) =>
      assert m == Headers(ResponseSide, headers, eos);
      r := LocalReplyHeaders(state, headers, eos);
    case Body(_, chunk, eos) =>
      assert m == Body(ResponseSide, chunk, eos);
      r := LocalReplyBody(state, chunk, eos);
    case Trailers(_) =>
      var ack := [Reply(TrailersReply(ResponseSide), None)];
      assert [] + ack == ack;
      r := Ok(ack);
  }

  // ---------------------------------------------------------------------------
  // Trailers
  // ---------------------------------------------------------------------------

  /** The replies with a property, in order. */
  function Keep(replies: seq<Reply>, p: Reply -> bool): seq<Reply> {
    if replies == [] then [] else (if p(replies[0]) then [replies[0]] else []) + Keep(replies[1..], p)
  }

  function IsImmediate(): Reply -> bool {
    (r: Reply) => r.payload.Immediate?
  }

  function IsNotBody(): Reply -> bool {
    (r: Reply) => !r.payload.BodyReply?
  }

  lemma {:induction false} KeepConcat(a: seq<Reply>, b: seq<Reply>, p: Reply -> bool)
    ensures Keep(a + b, p) == Keep(a, p) + Keep(b, p)
    decreases |a|
  {
    if a == [] {
      assert a + b == b;
    } else {
      var head := if p(a[0]) then [a[0]] else [];
      assert (a + b)[0] == a[0] && (a + b)[1..] == a[1..] + b;
      KeepConcat(a[1..], b, p);
      ConcatAssociates(head, Keep(a[1..], p), Keep(b, p));
    }
  }

  lemma {:induction false} KeepAll(s: seq<Reply>, p: Reply -> bool)
    requires forall i :: 0 <= i < |s| ==> p(s[i])
    ensures Keep(s, p) == s
  {
    if s != [] {
      KeepAll(s[1..], p);
    }
  }

  lemma {:induction false} KeepNone(s: seq<Reply>, p: Reply -> bool)
    requires forall i :: 0 <= i < |s| ==> !p(s[i])
    ensures Keep(s, p) == []
  {
    if s != [] {
      KeepNone(s[1..], p);
    }
  }

  /** `rejection_only` on a rendered batch. */
  lemma KeepImmediates(side: Side, batch: Batch)
    ensures Keep(Render(side, batch), IsImmediate()) == Render(side, if batch.Halt? then batch else NOTHING)
  {
    hide Keep;
    var sent := Render(side, batch);
    if batch.Halt? {
      KeepAll(sent, IsImmediate());
    } else {
      KeepNone(sent, IsImmediate());
      RenderNothing(side);
    }
  }

  /** Dropping the body replies of a rendered batch. */
  lemma DropBodies(side: Side, batch: Batch)
    ensures Keep(Render(side, batch), IsNotBody()) == Render(side, if batch.Halt? then batch else batch.(bodies := []))
  {
    hide Keep;
    if batch.Halt? {
      KeepAll(Render(side, batch), IsNotBody());
    } else {
      var h := if batch.headers.Some? then [Reply(HeadersReply(side, batch.headers.value), batch.modeOverride)] else [];
      var b := BodyReplies(side, batch.bodies);
      var t := if batch.trailers then [Reply(TrailersReply(side), None)] else [];
      KeepConcat(h + b, t, IsNotBody());
      KeepConcat(h, b, IsNotBody());
      KeepAll(h, IsNotBody());
      KeepNone(b, IsNotBody());
      KeepAll(t, IsNotBody());
      assert BodyReplies(side, []) == [];
    }
  }

  /** `run_trailing_body_pipeline`. */
  method RunTrailingPipeline(state: StreamState, oracle: Oracle, side: Side) returns (r: Replies, ghost calls: Calls)
    modifies state
    ensures Refines(side, Execute(state.cfg, oracle, TrailingPlan(old(state.View()), side)), state.View(), r, calls)
  {
    hide RunRequest, RunResponse, Render, PlanFrame;
    if side.RequestSide? {
      r, calls := RunRequestPipeline(state, oracle, OverBody, false, true);
    } else {
      r, calls := RunResponsePipeline(state, oracle, OverBody, false);
    }
  }

  /** A phase run by trailers moves no mode, receives no body and acknowledges nothing. */
  predicate TrailingFrame(st: Stream, side: Side, o: Outcome) {
    && o.st.At(side).mode == st.At(side).mode && o.st.At(side).bodySeen == st.At(side).bodySeen
    && (o.result.Ok? && o.result.value.Answer? ==> !o.result.value.trailers)
  }

  lemma TrailingRequestFrame(cfg: Config, oracle: Oracle, st: Stream)
    ensures TrailingFrame(st, RequestSide, RunRequest(cfg, oracle, st, OverBody, false, true))
  {
    hide RequestStage, HeaderStage, CollectRequest, WithContentLength, BodyResponses, HeadersCommon;
  }

  lemma TrailingResponseFrame(oracle: Oracle, st: Stream)
    ensures TrailingFrame(st, ResponseSide, RunResponse(oracle, st, OverBody, false))
  {
    hide ResponseStage, CollectResponse, Merge, WithContentLength, BodyResponses, HeadersCommon, Hydrate, Dehydrate;
  }

  /** What the replies of an outcome look like before the acknowledgement. */
  ghost function Unacknowledged(cfg: Config, side: Side, o: Outcome): Outcome {
    if o.result.Err? || o.result.value.Halt? then o
    else o.(result := Ok(FinishTrailers(cfg, side, o).result.value.(trailers := false)))
  }

  /** `run_trailing_fds_body`: an empty body that never had a message is not sent. */
  method RunTrailingDuplexBody(state: StreamState, oracle: Oracle, side: Side) returns (r: Replies, ghost calls: Calls)
    requires TrailingNeeds(state.cfg, side) && state.Mode(side).FullDuplex?
    modifies state
    ensures Refines(side, Unacknowledged(state.cfg, side, Execute(state.cfg, oracle, TrailingPlan(old(state.View()), side))),
                    state.View(), r, calls)
  {
    hide RunRequest, RunResponse, Render, PlanFrame;
    var chunkSeen := if side.RequestSide? then state.requestBodySeen else state.responseBodySeen;
    ghost var st := state.View();
    r, calls := RunTrailingPipeline(state, oracle, side);
    TrailingRequestFrame(state.cfg, oracle, st);
    TrailingResponseFrame(oracle, st);
    if r.Err? {
      return;
    }
    ghost var batch := Execute(state.cfg, oracle, TrailingPlan(st, side)).result.value;
    var producedBody := if side.RequestSide? then state.requestBody != [] else state.responseBody != [];
    if chunkSeen || producedBody {
      assert batch.Answer? ==> batch.(trailers := true).(trailers := false) == batch;
      return;
    }
    DropBodies(side, batch);
    assert batch.Answer? ==> batch.(bodies := []).(trailers := true).(trailers := false) == batch.(bodies := []);
    r := Ok(Keep(r.value, IsNotBody()));
  }

  /** The mode cases of `finalize_body_on_trailers`. */
  method ReleaseByMode(state: StreamState, oracle: Oracle, side: Side) returns (r: Replies, ghost calls: Calls)
    modifies state
    ensures Refines(side, Unacknowledged(state.cfg, side, Execute(state.cfg, oracle, ClosePlan(state.cfg, old(state.View()), side))),
                    state.View(), r, calls)
  {
    hide Render, PlanFrame, RunRequest, RunResponse, FlushStreamed, HeadersCommon;
    calls := NO_CALLS;
    RenderNothing(side);
    var needsBody := if side.RequestSide? then state.cfg.caps.needsRequestBody || state.cfg.caps.needsSelectedBody
                     else state.cfg.caps.needsResponseBody;
    ghost var st := state.View();
    match state.Mode(side) {
      case NoBody => r := Ok([]);
      case Streamed =>
        if needsBody {
          FlushFrame(oracle, st, side);
          r, calls := FlushStreamedFilters(state, oracle, side);
        } else {
          r := Ok([]);
        }
      case FullDuplex =>
        if needsBody {
          r, calls := RunTrailingDuplexBody(state, oracle, side);
        } else {
          r := FlushDeferredHeaders(state, side);
        }
      case Buffered =>
        if side.RequestSide? && state.bufferedRequestBodyProcessed {
          return Ok([]), calls;
        }
        TrailingRequestFrame(state.cfg, oracle, st);
        TrailingResponseFrame(oracle, st);
        r, calls := RunTrailingPipeline(state, oracle, side);
        if r.Ok? {
          KeepImmediates(side, Execute(state.cfg, oracle, TrailingPlan(st, side)).result.value);
          r := Ok(Keep(r.value, IsImmediate()));
        }
    }
  }

  /** `finalize_body_on_trailers`. */
  method FinalizeBodyOnTrailers(state: StreamState, oracle: Oracle, side: Side) returns (r: Replies, ghost calls: Calls)
    modifies state, state.eosTracker
    ensures Refines(side, Unacknowledged(state.cfg, side, Execute(state.cfg, oracle, TrailersPlan(state.cfg, old(state.View()), side))),
                    state.View(), r, calls)
  {
    hide Render, PlanFrame, ClosePlan, RunRequest, RunResponse, FlushStreamed;
    RenderNothing(side);
    state.ReadStates();
    if !state.BodyIsOpen(side) {
      return Ok([]), NO_CALLS;
    }
    state.CompleteBody(side);
    r, calls := ReleaseByMode(state, oracle, side);
  }

  lemma FlushFrame(oracle: Oracle, st: Stream, side: Side)
    ensures TrailingFrame(st, side, FlushStreamed(oracle, st, side))
    ensures FlushStreamed(oracle, st, side).result.Ok? && !FlushStreamed(oracle, st, side).result.value.Halt? ==>
              FlushStreamed(oracle, st, side).result.value == NOTHING
  {
  }

  /** `flush_deferred_fds_headers`. */
  method FlushDeferredHeaders(state: StreamState, side: Side) returns (r: Replies)
    modifies state
    ensures var st := old(state.View());
            var h := st.At(side);
            && state.View() == (if h.sent then st else st.With(side, h.(sent := true, deferred := None)))
            && r == Ok(Render(side, if h.sent then NOTHING else HeadersOnly(HeadersCommon(side, h.deferred))))
  {
    var first := state.TakeFirstChunk(side);
    if first {
      var reply := DeferredHeadersReply(state, side);
      RenderHeadersOnly(side, old(state.View()).At(side).deferred);
      return Ok([reply]);
    }
    RenderNothing(side);
    return Ok([]);
  }

  /** `handle_trailers`: acknowledge unless the last reply is an immediate response. */
  method HandleTrailers(state: StreamState, oracle: Oracle, side: Side) returns (r: Replies, ghost calls: Calls)
    modifies state, state.eosTracker
    ensures Refines(side, FinishTrailers(state.cfg, side, Execute(state.cfg, oracle, TrailersPlan(state.cfg, old(state.View()), side))),
                    state.View(), r, calls)
  {
    hide Execute, TrailersPlan, Render;
    ghost var o := Execute(state.cfg, oracle, TrailersPlan(state.cfg, state.View(), side));
    r, calls := FinalizeBodyOnTrailers(state, oracle, side);
    if r.Err? {
      return;
    }
    ghost var batch := Unacknowledged(state.cfg, side, o).result.value;
    RenderedHalt(side, batch);
    if r.value == [] || !r.value[|r.value| - 1].payload.Immediate? {
      RenderAck(side, batch);
      r := Ok(r.value + [Reply(TrailersReply(side), None)]);
    }
  }
}
