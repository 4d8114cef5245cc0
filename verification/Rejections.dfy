/**
 The server's own immediate responses: which ones there are, and exactly when each is sent.
 */
module Rejections {
  import opened Wire
  import opened HeaderMaps
  import opened Filters
  import opened Guardrails
  import opened Chunking
  import opened StreamSpec
  import opened Effects
  import opened Invariant
  import opened Steps
  import opened Runs
  import opened Grammar
  import opened Enforcement
  import opened Hooks

  // ---------------------------------------------------------------------------
  // When a rejection is due
  // ---------------------------------------------------------------------------

  /** Status and text of a rejection. */
  datatype Cause = Cause(status: int, notice: Notice)

  predicate AllGo(calls: Calls) {
    Goes(calls.header) && Goes(calls.body) && Goes(calls.selected)
  }

  /** The body given to selected-upstream hooks has the filter's limit; what they write has the server's. */
  function SelectedDue(cfg: Config, input: nat, calls: Calls): Option<Cause> {
    if cfg.caps.needsSelectedBody
       && (|| input > cfg.caps.selectedLimit
           || (&& cfg.caps.selectedWriter && cfg.maxBody.Some? && calls.selected.Some?
               && |calls.selected.value.produced| > cfg.maxBody.value))
    then Some(Cause(413, NoText)) else None
  }

  ghost function RequestHeadersDue(cfg: Config, st: Stream, headers: seq<HeaderValue>, eos: bool, calls: Calls): Option<Cause> {
    if !Admitted(headers) then Some(Cause(400, AmbiguousSelection))
    else if (st.req.mode.FullDuplex? || st.resp.mode.FullDuplex?) && HasSelectedGuardrail(cfg.selector, headers) then
      Some(Cause(500, GuardrailsNotInFullDuplex))
    else if !cfg.caps.needsSelectedBody then None
    else if eos then
      if SelectedDue(cfg, 0, calls).Some? then SelectedDue(cfg, 0, calls)
      else if calls.selected.Some? && calls.selected.value.produced != [] then Some(Cause(500, BytesForHeadersOnlyRequest))
      else None
    else match st.req.mode
      case FullDuplex => Some(Cause(500, SelectedNotInFullDuplex))
      case Buffered => None
      case _ => Some(Cause(500, SelectedNeedsBuffered))
  }

  function RequestBodyDue(cfg: Config, st: Stream, chunk: Bytes, eos: bool, calls: Calls): Option<Cause> {
    var passes := st.req.mode.Streamed? || (st.req.mode.FullDuplex? && !cfg.caps.needsRequestBody);
    var before := if passes then st.streamedBytes else |st.req.body|;
    if st.req.bodyState.Completed? then None
    else if cfg.maxBody.Some? && SaturatingAdd(before, |chunk|) > cfg.maxBody.value then
      Some(Cause(413, if cfg.caps.needsSelectedBody then SelectedRequestTooLarge else RequestTooLarge))
    else if passes || (st.req.mode.FullDuplex? && !eos) then None
    else SelectedDue(cfg, |st.req.body| + |chunk|, calls)
  }

  /** Why the server itself rejects a message, given what the hooks it called left, if none of them stopped. */
  ghost function Due(cfg: Config, st: Stream, m: Message, calls: Calls): Option<Cause> {
    match m
    case Headers(RequestSide, headers, eos) => RequestHeadersDue(cfg, st, headers, eos, calls)
    case Headers(ResponseSide, _, eos) =>
      if !eos && st.resp.mode.NoBody? && calls.header.Some? && calls.header.value.after.shared.responseBodyMode.StreamBuffer?
      then Some(Cause(502, ResponseBodyRequired)) else None
    case Body(RequestSide, chunk, eos) => RequestBodyDue(cfg, st, chunk, eos, calls)
    case Body(ResponseSide, _, _) => None
    case Trailers(RequestSide) =>
      if !Closed(st.req) && ((st.req.mode.Buffered? && !st.req.bodySeen) || (st.req.mode.FullDuplex? && cfg.caps.needsRequestBody))
      then SelectedDue(cfg, |st.req.body|, calls) else None
    case Trailers(ResponseSide) =>
      if !Closed(st.resp) && st.resp.mode.Streamed? && cfg.caps.needsResponseBody && st.resp.body != []
      then Some(Cause(502, BufferingNeedsFinalBody)) else None
  }

  /** A batch is the rejection that is due, or an answer if none is. */
  predicate Rejects(batch: Batch, due: Option<Cause>) {
    if due.Some? then batch == Halt(ImmediateResponse(due.value.status, None, Fixed(due.value.notice))) else batch.Answer?
  }

  // ---------------------------------------------------------------------------
  // Phases
  // ---------------------------------------------------------------------------

  /** The bytes a full request phase leaves. */
  function Remaining(st: Stream, calls: Calls): Bytes {
    if calls.selected.Some? then calls.selected.value.produced
    else if calls.body.Some? then calls.body.value.produced else st.req.body
  }

  function PhaseDue(cfg: Config, plan: Plan, calls: Calls): Option<Cause> {
    match plan
    case FullRequest(st, OverBody, _, _) =>
      if SelectedDue(cfg, |st.req.body|, calls).Some? then SelectedDue(cfg, |st.req.body|, calls)
      else if st.req.headersState.Completed? && Remaining(st, calls) != [] then Some(Cause(500, BytesForHeadersOnlyRequest))
      else None
    case HeadersEarly(st, ResponseSide, _) =>
      if st.resp.mode.NoBody? && calls.header.Some? && calls.header.value.after.shared.responseBodyMode.StreamBuffer?
      then Some(Cause(502, ResponseBodyRequired)) else None
    case Flush(st, ResponseSide) => if st.resp.body != [] then Some(Cause(502, BufferingNeedsFinalBody)) else None
    case _ => None
  }

  /** The hooks of a request phase, if none stopped: the verdict is the one the limits give. */
  lemma RequestStageRejects(cfg: Config, oracle: Oracle, s0: Stage, executed: bool, phase: Phase, ordinary: bool)
    requires s0.verdict.Go? && s0.calls == NO_CALLS
    ensures var s := RequestStage(cfg, oracle, s0, executed, phase, ordinary);
            AllGo(s.calls) ==>
              var due := if phase.AtHeaders? then None else SelectedDue(cfg, |s0.body|, s.calls);
              && s.verdict == (if due.Some? then Stop(ImmediateResponse(413, None, Fixed(NoText))) else Go)
              && s.body == (if s.calls.selected.Some? then s.calls.selected.value.produced
                            else if s.calls.body.Some? then s.calls.body.value.produced else s0.body)
  {
    hide Invoke;
  }

  predicate PhaseRejects(cfg: Config, plan: Plan, o: Outcome) {
    AllGo(o.calls) && o.result.Ok? ==> Rejects(o.result.value, PhaseDue(cfg, plan, o.calls))
  }

  lemma RequestRejects(cfg: Config, oracle: Oracle, st: Stream, phase: Phase, eos: bool, ordinary: bool)
    ensures PhaseRejects(cfg, FullRequest(st, phase, eos, ordinary), RunRequest(cfg, oracle, st, phase, eos, ordinary))
  {
    hide RequestStage, HeaderStage, StartStage, CollectRequest, WithContentLength, BodyResponses, HeadersCommon, Dehydrate, AllGo;
    if st.request.Some? && st.carried.Some? {
      var s0 := StartStage(st, None, st.req.body);
      StageStarts(st, RequestSide, st.req.body);
      RequestStageRejects(cfg, oracle, s0, st.req.executed, phase, ordinary);
    }
  }

  lemma ResponseRejects(cfg: Config, oracle: Oracle, st: Stream, phase: Phase, eos: bool)
    ensures PhaseRejects(cfg, FullResponse(st, phase, eos), RunResponse(oracle, st, phase, eos))
  {
    hide CollectResponse, WithContentLength, BodyResponses, HeadersCommon, Hydrate, Dehydrate, Merge, Invoke;
  }

  lemma EarlyRequestRejects(cfg: Config, oracle: Oracle, st: Stream, delivery: Delivery)
    ensures PhaseRejects(cfg, HeadersEarly(st, RequestSide, delivery), EarlyRequest(oracle, st, delivery))
  {
    hide CollectRequest, HeadersCommon, Hydrate, Dehydrate, Invoke;
  }

  lemma EarlyResponseRejects(cfg: Config, oracle: Oracle, st: Stream, delivery: Delivery)
    ensures PhaseRejects(cfg, HeadersEarly(st, ResponseSide, delivery), EarlyResponse(oracle, st, delivery))
  {
    hide CollectResponse, HeadersCommon, Hydrate, Dehydrate, Invoke;
  }

  lemma ChunkRejects(cfg: Config, oracle: Oracle, st: Stream, side: Side, chunk: Bytes, eos: bool)
    ensures PhaseRejects(cfg, FilterChunk(st, side, chunk, eos), StreamedChunk(cfg, oracle, st, side, chunk, eos))
  {
    hide HoldBack, BodyResponses, Hydrate, Dehydrate, Invoke;
  }

  lemma FlushRejects(cfg: Config, oracle: Oracle, st: Stream, side: Side)
    ensures PhaseRejects(cfg, Flush(st, side), FlushStreamed(oracle, st, side))
  {
    hide Hydrate, Dehydrate, Invoke;
  }

  lemma ExecuteRejects(cfg: Config, oracle: Oracle, plan: Plan)
    requires !plan.Settle?
    ensures PhaseRejects(cfg, plan, Execute(cfg, oracle, plan))
  {
    hide PhaseRejects, RunRequest, RunResponse, EarlyRequest, EarlyResponse, StreamedChunk, FlushStreamed;
    match plan
    case FullRequest(st, phase, eos, ordinary) => RequestRejects(cfg, oracle, st, phase, eos, ordinary);
    case FullResponse(st, phase, eos) => ResponseRejects(cfg, oracle, st, phase, eos);
    case HeadersEarly(st, side, delivery) =>
      if side.RequestSide? {
        EarlyRequestRejects(cfg, oracle, st, delivery);
      } else {
        EarlyResponseRejects(cfg, oracle, st, delivery);
      }
    case FilterChunk(st, side, chunk, eos) => ChunkRejects(cfg, oracle, st, side, chunk, eos);
    case Flush(st, side) => FlushRejects(cfg, oracle, st, side);
  }

  // ---------------------------------------------------------------------------
  // Plans
  // ---------------------------------------------------------------------------

  /** The hooks of a headers-only request are refused after they ran. */
  predicate RefusedAfterwards(cfg: Config, st: Stream, m: Message) {
    IsRequestHeaders(m) && !m.endOfStream && SelectedUnsupported(cfg, st.req.mode)
  }

  /** A plan rejects for the cause that is due, or leaves it to its phase or to the end of the handler. */
  ghost predicate PlanRejects(cfg: Config, st: Stream, m: Message, plan: Plan) {
    if plan.Settle? then
      plan.outcome.result.Ok? ==> Rejects(plan.outcome.result.value, Due(cfg, st, m, NO_CALLS))
    else
      forall calls: Calls :: (calls.body.Some? && plan.FullRequest? ==> plan.ordinary) ==>
        if RefusedAfterwards(cfg, st, m) then
          PhaseDue(cfg, plan, calls).None? && Due(cfg, st, m, calls) == Some(Cause(500, SelectedNeedsBuffered))
        else PhaseDue(cfg, plan, calls) == Due(cfg, st, m, calls)
  }

  lemma RequestHeadersPlanRejects(cfg: Config, st: Stream, headers: seq<HeaderValue>, eos: bool)
    requires Inv(cfg, st) && DispatchError(st, Headers(RequestSide, headers, eos)).None?
    ensures var m := Headers(RequestSide, headers, eos); PlanRejects(cfg, st, m, PlanFor(cfg, st, m))
  {
    hide PlanFrame, HeadersCommon, Admitted, HasSelectedGuardrail, ResponseInv;
  }

  lemma RequestBodyPlanRejects(cfg: Config, st: Stream, chunk: Bytes, eos: bool)
    requires Inv(cfg, st) && DispatchError(st, Body(RequestSide, chunk, eos)).None?
    ensures var m := Body(RequestSide, chunk, eos); PlanRejects(cfg, st, m, PlanFor(cfg, st, m))
  {
    hide PlanFrame, HeadersCommon, BodyResponses, ResponseInv, PlanRejects, CountedRequestPlan, AccumulateRequestPlan;
    RequestIsNoLocalReply(cfg, st, chunk, eos);
    var m := Body(RequestSide, chunk, eos);
    if st.req.bodyState.Completed? || st.req.headersState.Completed? {
      assert PlanRejects(cfg, st, m, PlanFor(cfg, st, m)) by { LateBodyPlanRejects(cfg, st, chunk, eos); }
    } else if st.req.mode.Streamed? || (st.req.mode.FullDuplex? && !cfg.caps.needsRequestBody) {
      CountedPlanRejects(cfg, st, chunk, eos);
    } else {
      HeldPlanRejects(cfg, st, chunk, eos);
    }
  }

  lemma LateBodyPlanRejects(cfg: Config, st: Stream, chunk: Bytes, eos: bool)
    requires DispatchError(st, Body(RequestSide, chunk, eos)).None? && !st.localReply
    requires st.req.bodyState.Completed? || st.req.headersState.Completed?
    ensures var m := Body(RequestSide, chunk, eos); PlanRejects(cfg, st, m, PlanFor(cfg, st, m))
  {
    hide PlanFrame, DispatchError, CountedRequestPlan, AccumulateRequestPlan;
  }

  lemma CountedPlanRejects(cfg: Config, st: Stream, chunk: Bytes, eos: bool)
    requires st.req.bodyState.Active? && st.req.headersState.Active?
    requires st.req.mode.Streamed? || (st.req.mode.FullDuplex? && !cfg.caps.needsRequestBody)
    ensures PlanRejects(cfg, st, Body(RequestSide, chunk, eos), CountedRequestPlan(cfg, BodyMarked(st, RequestSide, eos), chunk, eos))
  {
    hide PlanFrame, HeadersCommon, BodyResponses;
  }

  lemma HeldPlanRejects(cfg: Config, st: Stream, chunk: Bytes, eos: bool)
    requires st.req.bodyState.Active? && st.req.headersState.Active? && !st.req.mode.Streamed? && !st.req.mode.NoBody?
    requires st.req.mode.FullDuplex? ==> cfg.caps.needsRequestBody
    ensures PlanRejects(cfg, st, Body(RequestSide, chunk, eos), AccumulateRequestPlan(cfg, BodyMarked(st, RequestSide, eos), chunk, eos))
  {
    hide PlanFrame, SelectedDue, Remaining;
    assert |st.req.body + chunk| == |st.req.body| + |chunk|;
  }

  lemma ResponseHeadersPlanRejects(cfg: Config, st: Stream, headers: seq<HeaderValue>, eos: bool)
    requires DispatchError(st, Headers(ResponseSide, headers, eos)).None? && !Advanced(st, Headers(ResponseSide, headers, eos)).localReply
    ensures var m := Headers(ResponseSide, headers, eos); PlanRejects(cfg, st, m, PlanFor(cfg, st, m))
  {
    hide PlanFrame, HeadersCommon, FromEnvoy;
  }

  lemma ResponseBodyPlanRejects(cfg: Config, st: Stream, chunk: Bytes, eos: bool)
    requires DispatchError(st, Body(ResponseSide, chunk, eos)).None? && !Advanced(st, Body(ResponseSide, chunk, eos)).localReply
    ensures var m := Body(ResponseSide, chunk, eos); PlanRejects(cfg, st, m, PlanFor(cfg, st, m))
  {
    hide PlanFrame, HeadersCommon, BodyResponses;
  }

  lemma RequestTrailersPlanRejects(cfg: Config, st: Stream)
    requires Inv(cfg, st) && DispatchError(st, Trailers(RequestSide)).None?
    ensures PlanRejects(cfg, st, Trailers(RequestSide), PlanFor(cfg, st, Trailers(RequestSide)))
  {
    hide PlanFrame, HeadersCommon, ResponseInv;
  }

  lemma ResponseTrailersPlanRejects(cfg: Config, st: Stream)
    requires Inv(cfg, st) && DispatchError(st, Trailers(ResponseSide)).None? && !Advanced(st, Trailers(ResponseSide)).localReply
    ensures PlanRejects(cfg, st, Trailers(ResponseSide), PlanFor(cfg, st, Trailers(ResponseSide)))
  {
    hide PlanFrame, HeadersCommon, RequestInv;
  }

  /** What the end of a handler adds: the refusal of selected-upstream hooks outside BUFFERED. */
  lemma FinishRejects(cfg: Config, st: Stream, m: Message, o: Outcome, due: Option<Cause>)
    requires o.result.Ok? && (RefusedAfterwards(cfg, st, m) ==> due.Some?) && (Proceeds(o) ==> o.st.req.mode == st.req.mode)
    requires || Rejects(o.result.value, due)
             || (RefusedAfterwards(cfg, st, m) && due == Some(Cause(500, SelectedNeedsBuffered)) && Proceeds(o))
    ensures var f := Finish(cfg, m, false, o); f.result.Ok? && Rejects(f.result.value, due)
  {
    hide ShouldStream;
  }

  lemma RefusalIsDue(cfg: Config, st: Stream, m: Message, calls: Calls)
    requires RefusedAfterwards(cfg, st, m)
    ensures Due(cfg, st, m, calls).Some?
  {
    hide Admitted, HasSelectedGuardrail;
  }

  // ---------------------------------------------------------------------------
  // Steps and runs
  // ---------------------------------------------------------------------------

  lemma HandledPlanRejects(cfg: Config, st: Stream, m: Message)
    requires Inv(cfg, st) && DispatchError(st, m).None? && !Advanced(st, m).localReply
    ensures PlanRejects(cfg, st, m, PlanFor(cfg, st, m))
  {
    hide Inv, PlanFor, PlanRejects, PlanFrame, DispatchError;
    match m
    case Headers(RequestSide, headers, eos) => RequestHeadersPlanRejects(cfg, st, headers, eos);
    case Headers(ResponseSide, headers, eos) => ResponseHeadersPlanRejects(cfg, st, headers, eos);
    case Body(RequestSide, chunk, eos) => RequestBodyPlanRejects(cfg, st, chunk, eos);
    case Body(ResponseSide, chunk, eos) => ResponseBodyPlanRejects(cfg, st, chunk, eos);
    case Trailers(RequestSide) => RequestTrailersPlanRejects(cfg, st);
    case Trailers(ResponseSide) => ResponseTrailersPlanRejects(cfg, st);
  }

  /** A headers-only request runs no ordinary body hook. */
  lemma OrdinaryOnly(cfg: Config, oracle: Oracle, plan: Plan)
    requires Ready(plan)
    ensures Execute(cfg, oracle, plan).calls.body.Some? && plan.FullRequest? ==> plan.ordinary
  {
    ExecuteFits(cfg, oracle, plan);
    hide Execute, PhaseProceeds, Threads, Ready;
  }

  lemma HandledStepRejects(cfg: Config, oracle: Oracle, st: Stream, m: Message)
    requires Inv(cfg, st) && DispatchError(st, m).None? && !Advanced(st, m).localReply && Sound(PlanFor(cfg, st, m))
    ensures var o := Step(cfg, oracle, st, m);
            o.result.Ok? && AllGo(o.calls) ==> Rejects(o.result.value, Due(cfg, st, m, o.calls))
  {
    hide Inv, HandlerPlan, Execute, Finish, AllGo, DispatchError, Due, PhaseDue, Rejects;
    HandledPlanRejects(cfg, st, m);
    var plan := PlanFor(cfg, st, m);
    hide PlanFor;
    var p := Execute(cfg, oracle, plan);
    SettledIs(cfg, oracle, plan);
    OrdinaryOnly(cfg, oracle, plan);
    ExecuteFits(cfg, oracle, plan);
    if RefusedAfterwards(cfg, st, m) {
      RefusalIsDue(cfg, st, m, p.calls);
    }
    if !plan.Settle? {
      ExecuteRejects(cfg, oracle, plan);
      if Proceeds(p) {
        PhaseFrame(cfg, plan, p);
      }
    }
    FinishFails(cfg, m, p);
    if p.result.Ok? && AllGo(p.calls) {
      assert Rejects(p.result.value, None) ==> Proceeds(p) by { AnswerProceeds(p); }
      FinishRejects(cfg, st, m, p, Due(cfg, st, m, p.calls));
    }
  }

  lemma AnswerProceeds(o: Outcome)
    requires o.result.Ok?
    ensures Rejects(o.result.value, None) ==> Proceeds(o)
  {
  }

  lemma FinishFails(cfg: Config, m: Message, o: Outcome)
    ensures var f := Finish(cfg, m, false, o); f.calls == o.calls && (f.result.Ok? ==> o.result.Ok?)
  {
    hide ShouldStream;
  }

  lemma StepRejects(cfg: Config, oracle: Oracle, st: Stream, m: Message)
    requires Inv(cfg, st)
    ensures var o := Step(cfg, oracle, st, m);
            o.result.Ok? && AllGo(o.calls) ==>
              Rejects(o.result.value, if Advanced(st, m).localReply then None else Due(cfg, st, m, o.calls))
  {
    hide Inv, Step, Due, Rejects, AllGo, Advanced, DispatchError, Sound;
    if DispatchError(st, m).Some? {
      RefusedIsNoAnswer(cfg, oracle, st, m);
    } else if Advanced(st, m).localReply {
      LocalReplyAnswers(cfg, oracle, st, m);
    } else {
      if m.side.RequestSide? {
        RequestPlansAreSound(cfg, st, m);
      } else {
        ResponsePlansAreSound(cfg, st, m);
      }
      HandledStepRejects(cfg, oracle, st, m);
    }
  }

  lemma RefusedIsNoAnswer(cfg: Config, oracle: Oracle, st: Stream, m: Message)
    requires DispatchError(st, m).Some?
    ensures Step(cfg, oracle, st, m).result.Err?
  {
    hide HandlerPlan, PlanFrame;
  }

  lemma LocalReplyAnswers(cfg: Config, oracle: Oracle, st: Stream, m: Message)
    requires DispatchError(st, m).None? && Advanced(st, m).localReply
    ensures var o := Step(cfg, oracle, st, m); o.result.Ok? ==> Rejects(o.result.value, None)
  {
    hide PlanFrame, HeadersCommon, BodyResponses, DispatchError;
  }

  /** The immediate response that a hook of these calls asked for, if one did; calls end at the first that does. */
  function Asked(calls: Calls): Option<ImmediateResponse> {
    var list := CallList(calls);
    if list != [] && list[|list| - 1].verdict.Stop? then Some(list[|list| - 1].verdict.immediate) else None
  }

  /**
   Every immediate response of a run has one of two origins: a hook asked for it, or the server
   itself rejects the message, for the one cause that is due. When neither is the case the
   message is answered.
   */
  lemma ImmediatesHaveACause(cfg: Config, start: Run, events: seq<Event>, next: Event)
    requires IsFresh(start)
    ensures var r := RunFrom(cfg, start, events);
            var o := Step(cfg, next.oracle, r.st, next.m);
            r.status.Running? && o.result.Ok? ==>
              if Asked(o.calls).Some? then o.result.value == Halt(Asked(o.calls).value)
              else Rejects(o.result.value, if Advanced(r.st, next.m).localReply then None else Due(cfg, r.st, next.m, o.calls))
  {
    hide RunFrom, Step, Inv, Due, Rejects, Advanced;
    LiveRunsKeepInv(cfg, start, events);
    var r := RunFrom(cfg, start, events);
    if r.status.Running? {
      StepHeeds(cfg, next.oracle, r.st, next.m);
      StepRejects(cfg, next.oracle, r.st, next.m);
      var o := Step(cfg, next.oracle, r.st, next.m);
      if o.result.Ok? {
        HeededOrGone(next.oracle, r.st, next.m, o);
      }
    }
  }

  lemma HeededOrGone(oracle: Oracle, st: Stream, m: Message, o: Outcome)
    requires StepHeeded(oracle, st, m, o) && o.result.Ok?
    ensures if Asked(o.calls).Some? then o.result.value == Halt(Asked(o.calls).value) else AllGo(o.calls)
  {
    hide AnsweredBy, GivenBytes, LeavesHeaders;
    var list := CallList(o.calls);
    CallsAreListed(o.calls);
    if list != [] && Asked(o.calls).None? {
      assert forall i :: 0 <= i < |list| ==> list[i].verdict.Go?;
    }
  }

  lemma CallsAreListed(calls: Calls)
    ensures forall c :: c in CallList(calls) <==> Some(c) == calls.header || Some(c) == calls.body || Some(c) == calls.selected
  {
  }

  // ---------------------------------------------------------------------------
  // Failures
  // ---------------------------------------------------------------------------

  /** A step that failed although its message was in order: a hook broke, or a response outgrew its ceiling. */
  predicate FailsForCause(m: Message, o: Outcome) {
    o.result.Err? ==>
      || (o.result.status.FilterError? && exists i :: 0 <= i < |CallList(o.calls)| && CallList(o.calls)[i].verdict.Broken?)
      || (o.result.status.BodyTooLarge? && m.Body? && m.side.ResponseSide? && o.calls == NO_CALLS)
  }

  lemma PhaseFails(cfg: Config, oracle: Oracle, plan: Plan)
    requires Ready(plan) && !plan.Settle?
    ensures var o := Execute(cfg, oracle, plan);
            o.result.Err? && o.result.status.BodyTooLarge? ==> plan.FilterChunk? && plan.side.ResponseSide? && o.calls == NO_CALLS
    ensures var o := Execute(cfg, oracle, plan);
            o.result.Err? ==> (o.result.status.FilterError? && CallList(o.calls) != []) || o.result.status.BodyTooLarge?
  {
    ExecuteFits(cfg, oracle, plan);
    assert Execute(cfg, oracle, plan).result == Err(FilterError) ==> CallList(Execute(cfg, oracle, plan).calls) != [] by {
      ExecuteHeeds(cfg, oracle, plan);
    }
    hide PhaseProceeds, Threads, RequestCalls, ResponseCalls, RunRequest, RunResponse, EarlyRequest, EarlyResponse, FlushStreamed,
         BodyStage, HoldBack, BodyResponses, Hydrate, Dehydrate;
  }

  /** Settled failures: out of order, too large for a held response, or internal. */
  predicate SettlesForCause(m: Message, plan: Plan) {
    plan.Settle? && plan.outcome.result.Err? ==>
      var status := plan.outcome.result.status;
      SequencingError(status) || InternalError(status) || (status.BodyTooLarge? && m.Body? && m.side.ResponseSide?)
  }

  lemma PlansSettleForCause(cfg: Config, st: Stream, m: Message)
    ensures SettlesForCause(m, PlanFor(cfg, st, m))
  {
    hide PlanFrame, RequestHeadersPlan, RequestBodyPlan, ResponseHeadersPlan, ResponseBodyPlan, TrailersPlan, LocalReplyPlan,
         SettlesForCause;
    var st1 := Advanced(st, m);
    if DispatchError(st, m).Some? {
      DispatchSettles(st, m);
    } else if st1.localReply {
      LocalReplySettlesForCause(st1, m);
    } else {
      match m
      case Headers(_, headers, eos) => HeadersSettle(cfg, st1, m);
      case Body(_, chunk, eos) => BodySettles(cfg, st1, m);
      case Trailers(side) => TrailersSettle(cfg, st1, side);
    }
  }

  lemma DispatchSettles(st: Stream, m: Message)
    requires DispatchError(st, m).Some?
    ensures SettlesForCause(m, Refused(st, DispatchError(st, m).value))
  {
  }

  lemma LocalReplySettlesForCause(st: Stream, m: Message)
    ensures SettlesForCause(m, LocalReplyPlan(st, m))
  {
    hide PlanFrame, HeadersCommon, BodyResponses;
  }

  lemma HeadersSettle(cfg: Config, st: Stream, m: Message)
    requires m.Headers?
    ensures SettlesForCause(m, if m.side.RequestSide? then RequestHeadersPlan(cfg, st, m.headers, m.endOfStream)
                               else ResponseHeadersPlan(cfg, st, m.headers, m.endOfStream))
  {
    hide PlanFrame, HeadersCommon, Admitted, HasSelectedGuardrail, FromEnvoy;
  }

  lemma BodySettles(cfg: Config, st: Stream, m: Message)
    requires m.Body?
    ensures SettlesForCause(m, if m.side.RequestSide? then RequestBodyPlan(cfg, st, m.body, m.endOfStream)
                               else ResponseBodyPlan(cfg, st, m.body, m.endOfStream))
  {
    hide PlanFrame, HeadersCommon, BodyResponses;
  }

  lemma TrailersSettle(cfg: Config, st: Stream, side: Side)
    ensures SettlesForCause(Trailers(side), TrailersPlan(cfg, st, side))
  {
    hide PlanFrame, HeadersCommon;
  }

  lemma StepFails(cfg: Config, oracle: Oracle, st: Stream, m: Message)
    requires Inv(cfg, st)
    ensures var o := Step(cfg, oracle, st, m);
            !Rejected(st, m) && o.result.Err? ==>
              || (o.result.status.FilterError? && CallList(o.calls) != [])
              || (o.result.status.BodyTooLarge? && m.Body? && m.side.ResponseSide? && o.calls == NO_CALLS)
  {
    hide Inv, Rejected, PlanFor, Execute, Finish, Sound, Executed;
    StepVerdict(cfg, oracle, st, m);
    if m.side.RequestSide? {
      RequestPlansAreSound(cfg, st, m);
    } else {
      ResponsePlansAreSound(cfg, st, m);
    }
    var plan := PlanFor(cfg, st, m);
    SoundIsReady(plan);
    StepIsGood(cfg, oracle, st, m);
    FailureStands(cfg, m, Advanced(st, m).localReply, Execute(cfg, oracle, plan));
    PlansSettleForCause(cfg, st, m);
    if plan.Settle? {
      SettledIs(cfg, oracle, plan);
    } else {
      PhaseFails(cfg, oracle, plan);
      ChunkIsOfBody(cfg, st, m);
    }
  }

  lemma ChunkIsOfBody(cfg: Config, st: Stream, m: Message)
    ensures PlanFor(cfg, st, m).FilterChunk? ==> m.Body? && PlanFor(cfg, st, m).side == m.side
  {
    hide HandlerPlan, PlanFrame, DispatchError, Advanced;
    if DispatchError(st, m).None? {
      if Advanced(st, m).localReply {
        LocalReplyIsSettled(cfg, Advanced(st, m), m);
      } else {
        HandledPlansOn(cfg, st, m);
      }
    }
  }

  lemma LocalReplyIsSettled(cfg: Config, st: Stream, m: Message)
    requires st.localReply
    ensures HandlerPlan(cfg, st, m).Settle?
  {
    LocalReplyStays(st, m);
    hide LocalReplyPlan;
  }

  lemma FailureStands(cfg: Config, m: Message, localReply: bool, o: Outcome)
    ensures var f := Finish(cfg, m, localReply, o); f.calls == o.calls && (f.result.Err? <==> o.result.Err?) && (f.result.Err? ==> f == o)
  {
    hide ShouldStream;
  }

  /**
   Every failure of a run has a cause: a message the grammar forbids fails with the status it
   gives, and any other only for a hook that broke or a response over its ceiling.
   */
  lemma FailuresHaveACause(cfg: Config, start: Run, events: seq<Event>, next: Event)
    requires IsFresh(start)
    ensures var r := RunFrom(cfg, start, events);
            var o, ms, mode := Step(cfg, next.oracle, r.st, next.m), Messages(r.log), start.st.At(next.m.side).mode;
            r.status.Running? ==>
              if Allowed(ms, next.m, mode) then FailsForCause(next.m, o) else o.result == Err(Reason(ms, next.m, mode))
  {
    hide RunFrom, Step, Inv, Rejected, Reason, Allowed, HistoryKept;
    LiveRunsKeepInv(cfg, start, events);
    var r := RunFrom(cfg, start, events);
    if r.status.Running? {
      AcceptsExactlyTheGrammar(cfg, start, events, next);
      StepVerdict(cfg, next.oracle, r.st, next.m);
      StepFails(cfg, next.oracle, r.st, next.m);
      StepHeeds(cfg, next.oracle, r.st, next.m);
      var o := Step(cfg, next.oracle, r.st, next.m);
      if o.result.Err? && o.result.status.FilterError? {
        assert CallList(o.calls) != [] ==> CallList(o.calls)[|CallList(o.calls)| - 1].verdict.Broken?;
      }
    }
  }
}
