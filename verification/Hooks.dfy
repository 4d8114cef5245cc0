/**
 The server does what the filters say: every hook call of every run is made in the context the
 stream is in, its answer is recorded as given, and its verdict is obeyed.
 */
module Hooks {
  import opened Wire
  import opened HeaderMaps
  import opened Filters
  import opened Guardrails
  import opened Chunking
  import opened StreamSpec
  import opened Effects
  import opened Invariant
  import opened Runs
  import opened Conservation
  import opened HeaderDelivery
  import opened Enforcement

  // ---------------------------------------------------------------------------
  // What is owed to the filters
  // ---------------------------------------------------------------------------

  /** A recorded call says what the filter answered; a phase without response headers gets none. */
  predicate AnsweredBy(oracle: Oracle, c: Call) {
    match oracle(c.kind, c.before, c.data, c.eos)
    case Raised => c.verdict == Broken
    case Returned(shared, headers, edits, body, action) =>
      && c.after.shared == shared && c.after.edits == edits && c.after.request == c.before.request
      && c.after.response == (if c.before.response.Some? then Some(headers) else None)
      && c.produced == (if body.Some? then body.value else [])
      && c.verdict == (match action case Proceed => Go case ShortCircuit(status, fields, text) => Stop(ImmediateOf(status, fields, text)))
  }

  /**
   The calls of one step: the first gets the given context, each later one what the call before
   it left, and only the last may not proceed.
   */
  predicate InTurn(start: Context, calls: seq<Call>) {
    && (forall i :: 0 <= i < |calls| ==> calls[i].before == if i == 0 then start else calls[i - 1].after)
    && (forall i :: 0 <= i < |calls| - 1 ==> calls[i].verdict.Go?)
  }

  /** The last call, if it does not proceed, decides the step. */
  predicate Decided(calls: seq<Call>, result: Result<Batch>) {
    calls != [] ==>
      match calls[|calls| - 1].verdict
      case Go => result.Ok?
      case Stop(immediate) => result == Ok(Halt(immediate))
      case Broken => result == Err(FilterError)
  }

  /** Header hooks get no bytes; the selected-upstream hook gets what the ordinary one left, or the body held if that did not run. */
  predicate GivenBytes(held: Bytes, calls: Calls) {
    && (calls.header.Some? ==> calls.header.value.data.None? && !calls.header.value.eos)
    && (calls.selected.Some? ==>
          && calls.selected.value.eos
          && calls.selected.value.data == Some(if calls.body.Some? then calls.body.value.produced else held))
  }

  predicate Heeds(oracle: Oracle, start: Context, held: Bytes, calls: Calls, result: Result<Batch>) {
    && (forall i :: 0 <= i < |CallList(calls)| ==> AnsweredBy(oracle, CallList(calls)[i]))
    && InTurn(start, CallList(calls)) && Decided(CallList(calls), result)
    && GivenBytes(held, calls)
  }

  // ---------------------------------------------------------------------------
  // One phase
  // ---------------------------------------------------------------------------

  /** The context a call leaves, or the one before it if it was not made. */
  function Left(start: Context, c: Option<Call>): Context {
    if c.Some? then c.value.after else start
  }

  predicate Follows(oracle: Oracle, start: Context, c: Option<Call>) {
    c.Some? ==> AnsweredBy(oracle, c.value) && c.value.before == start
  }

  predicate Goes(c: Option<Call>) {
    c.Some? ==> c.value.verdict.Go?
  }

  /** The last call, if it does not proceed, gives its verdict to the phase; nothing else breaks one. */
  predicate Decides(calls: Calls, verdict: Verdict) {
    var last := if calls.selected.Some? then calls.selected else if calls.body.Some? then calls.body else calls.header;
    && (verdict.Broken? ==> last.Some?)
    && (last.Some? ==> if last.value.verdict.Go? then !verdict.Broken? else verdict == last.value.verdict)
  }

  /** The same, call by call, for the hooks of a phase. */
  predicate Staged(oracle: Oracle, s0: Stage, s: Stage) {
    var calls, start := s.calls, s0.ctx;
    && Follows(oracle, start, calls.header)
    && Follows(oracle, Left(start, calls.header), calls.body)
    && Follows(oracle, Left(Left(start, calls.header), calls.body), calls.selected)
    && s.ctx == Left(Left(Left(start, calls.header), calls.body), calls.selected)
    && (calls.body.Some? || calls.selected.Some? ==> Goes(calls.header))
    && (calls.selected.Some? ==> Goes(calls.body))
    && Decides(calls, s.verdict) && GivenBytes(s0.body, calls)
  }

  /** How a phase ends on a verdict. */
  predicate EndsOn(verdict: Verdict, result: Result<Batch>) {
    match verdict
    case Go => result.Ok?
    case Stop(immediate) => result == Ok(Halt(immediate))
    case Broken => result == Err(FilterError)
  }

  lemma StagedHeeds(oracle: Oracle, s0: Stage, s: Stage, result: Result<Batch>)
    requires Staged(oracle, s0, s) && EndsOn(s.verdict, result)
    ensures forall held :: held == s0.body || s.calls.selected.None? ==> Heeds(oracle, s0.ctx, held, s.calls, result)
  {
    hide AnsweredBy;
  }

  /** The two facts a phase needs of its hooks. */
  lemma StageHeeds(oracle: Oracle, s0: Stage, s: Stage, result: Result<Batch>)
    requires Staged(oracle, s0, s) && EndsOn(s.verdict, result)
    ensures forall held :: held == s0.body || s.calls.selected.None? ==> Heeds(oracle, s0.ctx, held, s.calls, result)
    ensures s.verdict.Broken? ==> CallList(s.calls) != []
  {
    hide Staged, Heeds, EndsOn;
    StagedHeeds(oracle, s0, s, result);
    if s.verdict.Broken? {
      BrokenWasCalled(oracle, s0, s);
    }
  }

  lemma BrokenWasCalled(oracle: Oracle, s0: Stage, s: Stage)
    requires Staged(oracle, s0, s) && s.verdict.Broken?
    ensures CallList(s.calls) != []
  {
    hide Follows, GivenBytes;
  }

  lemma RequestStageHeeds(cfg: Config, oracle: Oracle, s0: Stage, executed: bool, phase: Phase, ordinary: bool)
    requires s0.verdict.Go? && s0.calls == NO_CALLS
    ensures Staged(oracle, s0, RequestStage(cfg, oracle, s0, executed, phase, ordinary))
    ensures var calls := RequestStage(cfg, oracle, s0, executed, phase, ordinary).calls;
            calls.selected.Some? && calls.body.None? ==> !ordinary
  {
    hide AnsweredBy;
    InvokeAnswers();
    hide Invoke;
  }

  lemma InvokeAnswers()
    ensures forall oracle, kind, ctx, data, eos ::
              var c := Invoke(oracle, kind, ctx, data, eos);
              AnsweredBy(oracle, c) && c.kind == kind && c.before == ctx && c.data == data && c.eos == eos
  {
  }

  lemma ResponseStageHeeds(oracle: Oracle, s0: Stage, executed: bool, phase: Phase)
    requires s0.verdict.Go? && s0.calls == NO_CALLS
    ensures Staged(oracle, s0, ResponseStage(oracle, s0, executed, phase))
    ensures ResponseStage(oracle, s0, executed, phase).calls.selected.None?
  {
    hide AnsweredBy;
    InvokeAnswers();
    hide Invoke;
  }

  /** The context a phase starts from: the parked fields, the request, the response in response phases, no edits. */
  function StartOf(st: Stream, side: Side): Context
    requires st.request.Some? && st.carried.Some?
  {
    Context(Parked(st.carried.value), st.request.value, if side.RequestSide? then None else st.response, NO_EDITS)
  }

  function PlanSide(plan: Plan): Side
    requires !plan.Settle?
  {
    if plan.FullRequest? then RequestSide else if plan.FullResponse? then ResponseSide else plan.side
  }

  /** The context after the calls of a step. */
  function EndContext(start: Context, calls: Calls): Context {
    Left(Left(Left(start, calls.header), calls.body), calls.selected)
  }

  /** The response headers a phase leaves: full response phases consume them, response hooks change them, others do not. */
  predicate LeavesResponse(plan: Plan, o: Outcome)
    requires Ready(plan) && !plan.Settle?
  {
    o.st.response == if plan.FullResponse? then None
                     else if PlanSide(plan).RequestSide? then plan.st.response
                     else EndContext(StartOf(plan.st, ResponseSide), o.calls).response
  }

  predicate PhaseHeeds(oracle: Oracle, plan: Plan, o: Outcome)
    requires Ready(plan) && !plan.Settle?
  {
    && Heeds(oracle, StartOf(plan.st, PlanSide(plan)), plan.st.req.body, o.calls, o.result)
    && (o.calls.selected.Some? && o.calls.body.None? ==> plan.FullRequest? && !plan.ordinary)
    && (o.result == Err(FilterError) ==> CallList(o.calls) != [])
    && (Proceeds(o) ==> LeavesResponse(plan, o))
  }

  lemma StageStarts(st: Stream, side: Side, body: Bytes)
    requires st.request.Some? && st.carried.Some?
    ensures StartStage(st, if side.RequestSide? then None else st.response, body) == Stage(StartOf(st, side), body, Go, NO_CALLS)
  {
    ParkingIsLossless(StartOf(st, side), st.carried.value, st.request.value, if side.RequestSide? then None else st.response);
  }

  lemma RequestHeeds(cfg: Config, oracle: Oracle, st: Stream, phase: Phase, eos: bool, ordinary: bool)
    requires st.request.Some? && st.carried.Some?
    ensures PhaseHeeds(oracle, FullRequest(st, phase, eos, ordinary), RunRequest(cfg, oracle, st, phase, eos, ordinary))
  {
    hide Staged, Heeds, RequestStage, StartStage, HeaderStage, CollectRequest, WithContentLength, BodyBatch, HeadersCommon, Dehydrate;
    var s0 := StartStage(st, None, st.req.body);
    StageStarts(st, RequestSide, st.req.body);
    RequestStageHeeds(cfg, oracle, s0, st.req.executed, phase, ordinary);
    StageHeeds(oracle, s0, RequestStage(cfg, oracle, s0, st.req.executed, phase, ordinary),
                RunRequest(cfg, oracle, st, phase, eos, ordinary).result);
  }

  lemma ResponseHeeds(oracle: Oracle, st: Stream, phase: Phase, eos: bool)
    requires st.request.Some? && st.response.Some? && st.carried.Some?
    ensures PhaseHeeds(oracle, FullResponse(st, phase, eos), RunResponse(oracle, st, phase, eos))
  {
    hide Staged, Heeds, ResponseStage, StartStage, CollectResponse, WithContentLength, BodyBatch, HeadersCommon, Merge, Dehydrate;
    var s0 := StartStage(st, st.response, st.resp.body);
    StageStarts(st, ResponseSide, st.resp.body);
    ResponseStageHeeds(oracle, s0, st.resp.executed, phase);
    var s := ResponseStage(oracle, s0, st.resp.executed, phase);
    StageHeeds(oracle, s0, s, RunResponse(oracle, st, phase, eos).result);
  }

  lemma EarlyRequestHeeds(oracle: Oracle, st: Stream, delivery: Delivery)
    requires st.request.Some? && st.carried.Some?
    ensures PhaseHeeds(oracle, HeadersEarly(st, RequestSide, delivery), EarlyRequest(oracle, st, delivery))
  {
    hide Heeds, Staged, HeaderStage, StartStage, CollectRequest, HeadersCommon, Dehydrate;
    StageStarts(st, RequestSide, []);
    var s0 := StartStage(st, None, []);
    HeaderStageHeeds(oracle, OnRequest, s0);
    StageHeeds(oracle, s0, HeaderStage(oracle, OnRequest, s0), EarlyRequest(oracle, st, delivery).result);
  }

  lemma EarlyResponseHeeds(oracle: Oracle, st: Stream, delivery: Delivery)
    requires st.request.Some? && st.carried.Some? && st.response.Some?
    ensures PhaseHeeds(oracle, HeadersEarly(st, ResponseSide, delivery), EarlyResponse(oracle, st, delivery))
  {
    hide Heeds, Staged, HeaderStage, StartStage, CollectResponse, HeadersCommon, Dehydrate;
    StageStarts(st, ResponseSide, []);
    var s0 := StartStage(st, st.response, []);
    HeaderStageHeeds(oracle, OnResponse, s0);
    StageHeeds(oracle, s0, HeaderStage(oracle, OnResponse, s0), EarlyResponse(oracle, st, delivery).result);
  }

  lemma HeaderStageHeeds(oracle: Oracle, kind: HookKind, s0: Stage)
    requires s0.calls == NO_CALLS
    ensures var s := HeaderStage(oracle, kind, s0);
            Staged(oracle, s0, s) && s.calls.selected.None? && s.ctx == EndContext(s0.ctx, s.calls)
  {
    hide AnsweredBy, Invoke;
    InvokeAnswers();
  }

  lemma ChunkHeeds(cfg: Config, oracle: Oracle, st: Stream, side: Side, chunk: Bytes, eos: bool)
    requires st.request.Some? && st.carried.Some? && (side.ResponseSide? ==> st.response.Some?) && st.At(side).mode.Streamed?
    ensures PhaseHeeds(oracle, FilterChunk(st, side, chunk, eos), StreamedChunk(cfg, oracle, st, side, chunk, eos))
  {
    hide Heeds, Staged, BodyStage, StartStage, HoldBack, BodyResponses, Dehydrate;
    StageStarts(st, side, chunk);
    var s0 := StartStage(st, if side.RequestSide? then None else st.response, chunk);
    var input := if side.RequestSide? then Some((chunk, st.resp.body))
                 else HoldBack(s0.ctx.shared.responseBodyMode, chunk, st.resp.body, eos, cfg.maxBody);
    var o := StreamedChunk(cfg, oracle, st, side, chunk, eos);
    if input.Some? {
      BodyStageHeeds(oracle, BodyKind(side), s0.(body := input.value.0), eos);
      StageHeeds(oracle, s0.(body := input.value.0), BodyStage(oracle, BodyKind(side), s0.(body := input.value.0), eos), o.result);
    } else {
      NoCallHeeds(oracle, s0.ctx, st.req.body, o.result);
    }
  }

  lemma BodyStageHeeds(oracle: Oracle, kind: HookKind, s0: Stage, eos: bool)
    requires s0.verdict.Go? && s0.calls == NO_CALLS
    ensures var s := BodyStage(oracle, kind, s0, eos);
            Staged(oracle, s0, s) && s.calls.selected.None? && s.ctx == EndContext(s0.ctx, s.calls)
  {
    hide AnsweredBy, Invoke;
    InvokeAnswers();
  }

  lemma NoCallHeeds(oracle: Oracle, start: Context, held: Bytes, result: Result<Batch>)
    ensures Heeds(oracle, start, held, NO_CALLS, result)
  {
  }

  lemma FlushHeeds(oracle: Oracle, st: Stream, side: Side)
    requires st.request.Some? && st.carried.Some? && (side.ResponseSide? ==> st.response.Some?)
    ensures PhaseHeeds(oracle, Flush(st, side), FlushStreamed(oracle, st, side))
  {
    hide Heeds, Invoke, StartStage, Dehydrate;
    InvokeAnswers();
    StageStarts(st, side, []);
    var s0, o := StartStage(st, if side.RequestSide? then None else st.response, []), FlushStreamed(oracle, st, side);
    if o.calls == NO_CALLS {
      NoCallHeeds(oracle, s0.ctx, st.req.body, o.result);
    } else {
      var c := Invoke(oracle, BodyKind(side), s0.ctx, None, true);
      var s := Stage(c.after, [], c.verdict, NO_CALLS.(body := Some(c)));
      assert Staged(oracle, s0, s) by { hide AnsweredBy; }
      StageHeeds(oracle, s0, s, o.result);
    }
  }

  lemma ExecuteHeeds(cfg: Config, oracle: Oracle, plan: Plan)
    requires Ready(plan) && !plan.Settle?
    ensures PhaseHeeds(oracle, plan, Execute(cfg, oracle, plan))
  {
    hide PhaseHeeds, RunRequest, RunResponse, EarlyRequest, EarlyResponse, StreamedChunk, FlushStreamed;
    match plan
    case FullRequest(st, phase, eos, ordinary) => RequestHeeds(cfg, oracle, st, phase, eos, ordinary);
    case FullResponse(st, phase, eos) => ResponseHeeds(oracle, st, phase, eos);
    case HeadersEarly(st, side, delivery) =>
      if side.RequestSide? {
        EarlyRequestHeeds(oracle, st, delivery);
      } else {
        EarlyResponseHeeds(oracle, st, delivery);
      }
    case FilterChunk(st, side, chunk, eos) => ChunkHeeds(cfg, oracle, st, side, chunk, eos);
    case Flush(st, side) => FlushHeeds(oracle, st, side);
  }

  // ---------------------------------------------------------------------------
  // One step
  // ---------------------------------------------------------------------------

  /** The request a step works on: the one that arrives, or the one kept. */
  function RequestAt(st: Stream, m: Message): Option<seq<HeaderValue>> {
    if IsRequestHeaders(m) then Some(m.headers) else st.request
  }

  /** The response headers a step works on: the ones that arrive, or the ones kept. */
  function ResponseAt(st: Stream, m: Message): Option<HeaderMap> {
    if m.Headers? && m.side.ResponseSide? then Some(FromEnvoy(m.headers)) else st.response
  }

  /** The context the first hook of a step gets. */
  function ContextAt(st: Stream, m: Message): Context
    requires st.carried.Some? && RequestAt(st, m).Some?
  {
    Context(Parked(st.carried.value), RequestAt(st, m).value, if m.side.RequestSide? then None else ResponseAt(st, m), NO_EDITS)
  }

  /** A plan works on the headers that arrived or were kept, unless it refuses the message. */
  predicate PlansOn(st: Stream, m: Message, plan: Plan) {
    || (plan.Settle? && !Proceeds(plan.outcome))
    || (&& PlanState(plan).request == RequestAt(st, m) && PlanState(plan).response == ResponseAt(st, m)
        && (!plan.Settle? ==> PlanSide(plan) == m.side) && (plan.FilterChunk? ==> m.Body?)
        && (plan.FullRequest? && !plan.ordinary ==> m.Headers? && plan.st.req.body == st.req.body))
  }

  lemma RequestHeadersPlanOn(cfg: Config, st: Stream, headers: seq<HeaderValue>, eos: bool)
    ensures PlansOn(st, Headers(RequestSide, headers, eos), RequestHeadersPlan(cfg, st, headers, eos))
  {
    hide PlanFrame, HeadersCommon, Admitted, HasSelectedGuardrail;
  }

  lemma RequestBodyPlanOn(cfg: Config, st: Stream, chunk: Bytes, eos: bool)
    ensures PlansOn(st, Body(RequestSide, chunk, eos), RequestBodyPlan(cfg, st, chunk, eos))
  {
    hide PlanFrame, PlansOn, CountedRequestPlan, AccumulateRequestPlan;
    forall st': Stream | st'.request == st.request && st'.response == st.response
      ensures PlansOn(st, Body(RequestSide, chunk, eos), CountedRequestPlan(cfg, st', chunk, eos))
      ensures PlansOn(st, Body(RequestSide, chunk, eos), AccumulateRequestPlan(cfg, st', chunk, eos))
      ensures PlansOn(st, Body(RequestSide, chunk, eos), RedeliveryPlan(st', st'.req.mode))
      ensures forall status :: PlansOn(st, Body(RequestSide, chunk, eos), Refused(st', status))
    {
      CountedPlanOn(cfg, st, st', chunk, eos);
      AccumulatePlanOn(cfg, st, st', chunk, eos);
      SettledPlansOn(st, st', Body(RequestSide, chunk, eos));
    }
  }

  lemma CountedPlanOn(cfg: Config, st: Stream, st': Stream, chunk: Bytes, eos: bool)
    requires st'.request == st.request && st'.response == st.response
    ensures PlansOn(st, Body(RequestSide, chunk, eos), CountedRequestPlan(cfg, st', chunk, eos))
  {
    hide PlanFrame, HeadersCommon, BodyResponses, OversizedRequest;
  }

  lemma AccumulatePlanOn(cfg: Config, st: Stream, st': Stream, chunk: Bytes, eos: bool)
    requires st'.request == st.request && st'.response == st.response
    ensures PlansOn(st, Body(RequestSide, chunk, eos), AccumulateRequestPlan(cfg, st', chunk, eos))
  {
    hide PlanFrame, OversizedRequest;
  }

  lemma SettledPlansOn(st: Stream, st': Stream, m: Message)
    requires st'.request == st.request && st'.response == st.response && m.Body?
    ensures PlansOn(st, m, RedeliveryPlan(st', st'.req.mode))
    ensures forall status :: PlansOn(st, m, Refused(st', status))
  {
    hide PlanFrame;
  }

  lemma TrailersPlanOn(cfg: Config, st: Stream, side: Side)
    ensures PlansOn(st, Trailers(side), TrailersPlan(cfg, st, side))
  {
    hide PlanFrame, HeadersCommon;
  }

  lemma ResponseHeadersPlanOn(cfg: Config, st: Stream, headers: seq<HeaderValue>, eos: bool)
    ensures PlansOn(st, Headers(ResponseSide, headers, eos), ResponseHeadersPlan(cfg, st, headers, eos))
  {
    hide PlanFrame, HeadersCommon, FromEnvoy;
  }

  lemma ResponseBodyPlanOn(cfg: Config, st: Stream, chunk: Bytes, eos: bool)
    ensures PlansOn(st, Body(ResponseSide, chunk, eos), ResponseBodyPlan(cfg, st, chunk, eos))
  {
    hide PlanFrame, HeadersCommon, BodyResponses;
  }

  /** The plan of a message that reaches a handler outside local replies. */
  lemma HandledPlansOn(cfg: Config, st: Stream, m: Message)
    requires DispatchError(st, m).None? && !Advanced(st, m).localReply
    ensures PlansOn(st, m, PlanFor(cfg, st, m))
  {
    hide PlansOn, PlanFrame, RequestHeadersPlan, RequestBodyPlan, ResponseHeadersPlan, ResponseBodyPlan, TrailersPlan, DispatchError;
    var st1 := Advanced(st, m);
    match m {
      case Headers(RequestSide, headers, eos) => RequestHeadersPlanOn(cfg, st1, headers, eos);
      case Headers(ResponseSide, headers, eos) => ResponseHeadersPlanOn(cfg, st1, headers, eos);
      case Body(RequestSide, chunk, eos) => RequestBodyPlanOn(cfg, st1, chunk, eos);
      case Body(ResponseSide, chunk, eos) => ResponseBodyPlanOn(cfg, st1, chunk, eos);
      case Trailers(side) => TrailersPlanOn(cfg, st1, side);
    }
    AdvancedPlansOn(st, m, PlanFor(cfg, st, m));
  }

  lemma AdvancedPlansOn(st: Stream, m: Message, plan: Plan)
    ensures PlansOn(Advanced(st, m), m, plan) ==> PlansOn(st, m, plan)
    ensures Advanced(st, m).carried == st.carried
  {
    hide FromEnvoy;
  }

  /** A handler may replace an answer, or turn it into a rejection; a verdict that decided the phase stands. */
  lemma FinishKeepsVerdict(cfg: Config, m: Message, localReply: bool, o: Outcome)
    ensures var f := Finish(cfg, m, localReply, o);
            && f.calls == o.calls && f.st.request == o.st.request && f.st.response == o.st.response
            && (if Proceeds(o) then f.result.Ok? else f.result == o.result)
  {
    hide ShouldStream, SelectedUnsupported;
  }

  lemma AnswerMayChange(oracle: Oracle, start: Context, held: Bytes, calls: Calls, before: Result<Batch>, after: Result<Batch>)
    requires Heeds(oracle, start, held, calls, before)
    requires after == before || (before.Ok? && before.value.Answer? && after.Ok?)
    ensures Heeds(oracle, start, held, calls, after)
  {
    hide AnsweredBy, InTurn, GivenBytes, CallList;
  }

  lemma FinishHeeds(cfg: Config, m: Message, localReply: bool, oracle: Oracle, start: Context, held: Bytes, o: Outcome)
    requires Heeds(oracle, start, held, o.calls, o.result)
    ensures var f := Finish(cfg, m, localReply, o);
            && f.calls == o.calls && Heeds(oracle, start, held, f.calls, f.result)
            && f.st.request == o.st.request && f.st.response == o.st.response && (Proceeds(f) ==> Proceeds(o))
  {
    hide Finish, Heeds;
    FinishKeepsVerdict(cfg, m, localReply, o);
    AnswerMayChange(oracle, start, held, o.calls, o.result, Finish(cfg, m, localReply, o).result);
  }

  /** What a step that proceeds leaves of the headers. */
  predicate LeavesHeaders(st: Stream, m: Message, o: Outcome) {
    && o.st.request == RequestAt(st, m)
    && (o.st.response.Some? ==>
          o.st.response == if m.side.ResponseSide? && CallList(o.calls) != [] then CallList(o.calls)[|CallList(o.calls)| - 1].after.response
                           else ResponseAt(st, m))
  }

  /** The filters are heeded in one step of a live stream; without an ordinary body hook there is no body to hold. */
  predicate StepHeeded(oracle: Oracle, st: Stream, m: Message, o: Outcome) {
    && (CallList(o.calls) != [] ==>
          && st.carried.Some? && RequestAt(st, m).Some? && (m.side.ResponseSide? ==> ResponseAt(st, m).Some?)
          && Heeds(oracle, ContextAt(st, m), [], o.calls, o.result))
    && (Proceeds(o) && !o.st.localReply ==> LeavesHeaders(st, m, o))
  }

  lemma StepHeeds(cfg: Config, oracle: Oracle, st: Stream, m: Message)
    requires Inv(cfg, st)
    ensures StepHeeded(oracle, st, m, Step(cfg, oracle, st, m))
  {
    hide Inv, PlanFor, Execute, Finish, Executed, PhaseHeeds, PlansOn, LocalReplyPlan, StepHeeded, Advanced, DispatchError, PlanFrame;
    var o := Step(cfg, oracle, st, m);
    if m.side.RequestSide? {
      RequestPlansAreSound(cfg, st, m);
    } else {
      ResponsePlansAreSound(cfg, st, m);
    }
    if DispatchError(st, m).Some? {
      RefusedFails(cfg, oracle, st, m);
      SilentStepHeeds(cfg, oracle, st, m);
    } else if Advanced(st, m).localReply {
      SilentStepHeeds(cfg, oracle, st, m);
    } else {
      HandledPlansOn(cfg, st, m);
      HandledStepHeeds(cfg, oracle, st, m);
    }
  }

  lemma SilentStepHeeds(cfg: Config, oracle: Oracle, st: Stream, m: Message)
    requires DispatchError(st, m).Some? || Advanced(st, m).localReply
    ensures StepHeeded(oracle, st, m, Step(cfg, oracle, st, m))
  {
    hide PlanFrame, HeadersCommon, BodyResponses, HandlerPlan, Heeds, LeavesHeaders, DispatchError;
    if DispatchError(st, m).None? {
      LocalReplyStays(Advanced(st, m), m);
      LocalReplyIsSilent(cfg, oracle, st, m);
    }
  }

  lemma LocalReplyIsSilent(cfg: Config, oracle: Oracle, st: Stream, m: Message)
    requires DispatchError(st, m).None? && Advanced(st, m).localReply
    ensures var o := Step(cfg, oracle, st, m); o.calls == NO_CALLS && o.st.localReply
  {
    hide PlanFrame, HeadersCommon, BodyResponses, DispatchError;
  }

  /** Without a body hook of its own, a bodyless request has nothing held for the selected-upstream one. */
  lemma NothingHeld(cfg: Config, st: Stream, m: Message, plan: Plan)
    requires Inv(cfg, st) && DispatchError(st, m).None? && PlansOn(st, m, plan) && plan.FullRequest? && !plan.ordinary
    ensures plan.st.req.body == []
  {
  }

  lemma HandledStepHeeds(cfg: Config, oracle: Oracle, st: Stream, m: Message)
    requires Inv(cfg, st) && DispatchError(st, m).None? && !Advanced(st, m).localReply
    requires Sound(PlanFor(cfg, st, m)) && PlansOn(st, m, PlanFor(cfg, st, m))
    ensures StepHeeded(oracle, st, m, Step(cfg, oracle, st, m))
  {
    hide Inv, HandlerPlan, Execute, Finish, Heeds, RequestAt, ResponseAt, DispatchError;
    var plan := PlanFor(cfg, st, m);
    hide PlanFor;
    var o, localReply := Execute(cfg, oracle, plan), Advanced(st, m).localReply;
    if plan.Settle? {
      SettledIs(cfg, oracle, plan);
      var start := Context(FRESH, [], None, NO_EDITS);
      NoCallHeeds(oracle, start, [], o.result);
      FinishHeeds(cfg, m, localReply, oracle, start, [], o);
    } else {
      ExecuteHeeds(cfg, oracle, plan);
      if Proceeds(o) {
        PhaseKeepsRequest(cfg, plan, o) by { ExecuteFits(cfg, oracle, plan); }
      }
      if plan.FullRequest? && !plan.ordinary {
        NothingHeld(cfg, st, m, plan);
      }
      HeldMattersForBodyless(oracle, ContextAt(st, m), plan.st.req.body, o);
      FinishHeeds(cfg, m, localReply, oracle, ContextAt(st, m), [], o);
      EndOfCalls(ContextAt(st, m), o.calls);
    }
  }

  lemma HeldMattersForBodyless(oracle: Oracle, start: Context, held: Bytes, o: Outcome)
    requires Heeds(oracle, start, held, o.calls, o.result) && (o.calls.selected.Some? && o.calls.body.None? ==> held == [])
    ensures Heeds(oracle, start, [], o.calls, o.result)
  {
    hide AnsweredBy;
  }

  lemma EndOfCalls(start: Context, calls: Calls)
    ensures EndContext(start, calls) == if CallList(calls) == [] then start else CallList(calls)[|CallList(calls)| - 1].after
  {
  }

  // ---------------------------------------------------------------------------
  // Runs
  // ---------------------------------------------------------------------------

  /** The response headers as the hooks of these exchanges left them. */
  function ResponseLeft(log: seq<Exchange>): Option<HeaderMap>
    decreases |log|, 0
  {
    if log == [] then None
    else
      var x := log[|log| - 1];
      var calls := CallList(x.calls);
      if x.m.side.ResponseSide? && calls != [] then calls[|calls| - 1].after.response else ResponseBefore(log[..|log| - 1], x.m)
  }

  /** The response headers the first hook of the next exchange gets: newly arrived ones, or those left. */
  function ResponseBefore(before: seq<Exchange>, m: Message): Option<HeaderMap>
    decreases |before|, 1
  {
    if m.Headers? && m.side.ResponseSide? then Some(FromEnvoy(m.headers)) else ResponseLeft(before)
  }

  /** The request headers received, the message at hand included. */
  ghost function RequestReceived(before: seq<Exchange>, m: Message): Option<Message> {
    Last(Messages(before) + [m], HeadersOn(RequestSide))
  }

  /**
   The filters are heeded in one exchange: its first hook gets the fields the last hook of the
   stream left, the request headers received, on the response side the response headers as
   received or left, and no edits.
   */
  ghost predicate ExchangeHeeded(oracle: Oracle, before: seq<Exchange>, m: Message, calls: Calls, result: Result<Batch>) {
    CallList(calls) != [] ==>
      var request, response := RequestReceived(before, m), ResponseBefore(before, m);
      && request.Some? && request.value.Headers? && (m.side.ResponseSide? ==> response.Some?)
      && var fields := EndOf(FRESH, LoggedCalls(before));
         Heeds(oracle, Context(fields, request.value.headers, if m.side.RequestSide? then None else response, NO_EDITS), [], calls, result)
  }

  /** What a live run keeps of the headers it received. */
  ghost predicate HeadersKnown(r: Run) {
    && (r.st.request.Some? ==>
          var received := Last(Messages(r.log), HeadersOn(RequestSide));
          received.Some? && received.value.Headers? && received.value.headers == r.st.request.value)
    && (r.st.response.Some? ==> r.st.response == ResponseLeft(r.log))
  }

  ghost predicate RunHeeded(events: seq<Event>, r: Run) {
    && |r.log| <= |events| && (r.status.Running? ==> |r.log| == |events| && HeadersKnown(r))
    && (forall i :: 0 <= i < |r.log| ==>
          && r.log[i].m == events[i].m
          && ExchangeHeeded(events[i].oracle, r.log[..i], r.log[i].m, r.log[i].calls, Ok(r.log[i].batch)))
    && (r.status.Failed? ==>
          && |r.log| < |events|
          && ExchangeHeeded(events[|r.log|].oracle, r.log, events[|r.log|].m, r.unfinished, Err(r.status.status)))
  }

  lemma MessagesAppend(before: seq<Exchange>, x: Exchange)
    ensures Messages(before + [x]) == Messages(before) + [x.m] && (before + [x])[..|before|] == before
  {
  }

  /** A stream that runs and knows its headers makes its next hook calls in the context its log tells. */
  lemma StepIsExchange(r: Run, oracle: Oracle, m: Message, o: Outcome)
    requires r.status.Running? && r.unfinished == NO_CALLS && ContextKept(r) && HeadersKnown(r) && StepHeeded(oracle, r.st, m, o)
    ensures ExchangeHeeded(oracle, r.log, m, o.calls, o.result)
  {
    hide Heeds, CallList, EndOf, FromEnvoy, Last, LoggedCalls, LeavesHeaders;
    if CallList(o.calls) != [] {
      assert AllCalls(r) == LoggedCalls(r.log) by { LoggedIsAll(r); }
      RequestIsReceived(r, m);
    }
  }

  lemma LoggedIsAll(r: Run)
    requires r.unfinished == NO_CALLS
    ensures AllCalls(r) == LoggedCalls(r.log)
  {
  }

  lemma RequestIsReceived(r: Run, m: Message)
    requires HeadersKnown(r)
    ensures RequestAt(r.st, m).Some? ==>
              var received := RequestReceived(r.log, m);
              received.Some? && received.value.Headers? && received.value.headers == RequestAt(r.st, m).value
  {
    LastConcat(Messages(r.log), [m], HeadersOn(RequestSide));
    LastHeadersOfOne(m, RequestSide);
    hide Last;
  }

  lemma HeadersStayKnown(r: Run, oracle: Oracle, m: Message, o: Outcome, r': Run)
    requires HeadersKnown(r) && StepHeeded(oracle, r.st, m, o) && Proceeds(o)
    requires r'.st == o.st && r'.log == r.log + [Exchange(m, o.result.value, o.calls)]
    requires o.st.localReply ==> o.st.request.None? && o.st.response.None?
    ensures HeadersKnown(r')
  {
    hide Heeds, CallList, FromEnvoy, Last, LoggedCalls;
    var x := Exchange(m, o.result.value, o.calls);
    MessagesAppend(r.log, x);
    RequestIsReceived(r, m);
    assert o.st.request.Some? ==> Last(Messages(r'.log), HeadersOn(RequestSide)) == RequestReceived(r.log, m);
    assert ResponseLeft(r'.log) == if m.side.ResponseSide? && CallList(o.calls) != []
                                   then CallList(o.calls)[|CallList(o.calls)| - 1].after.response else ResponseBefore(r.log, m);
    assert !o.st.localReply ==> LeavesHeaders(r.st, m, o);
  }

  lemma LocalReplyHasNoHeaders(cfg: Config, start: Run, events: seq<Event>)
    requires IsFresh(start)
    ensures var r := RunFrom(cfg, start, events);
            r.status.Running? && r.st.localReply ==> r.st.request.None? && r.st.response.None?
  {
    LiveRunsKeepInv(cfg, start, events);
    hide RunFrom;
  }

  lemma ExchangeIsHeeded(events: seq<Event>, r: Run, e: Event, o: Outcome, r': Run)
    requires r.status.Running? && RunHeeded(events, r) && ExchangeHeeded(e.oracle, r.log, e.m, o.calls, o.result)
    requires match o.result
             case Ok(batch) => r'.log == r.log + [Exchange(e.m, batch, o.calls)] && !r'.status.Failed?
             case Err(status) => r'.log == r.log && r'.status == Failed(status) && r'.unfinished == o.calls
    requires r'.status.Running? ==> HeadersKnown(r')
    ensures RunHeeded(events + [e], r')
  {
    hide ExchangeHeeded, HeadersKnown;
    var all := events + [e];
    forall i | 0 <= i < |r'.log|
      ensures r'.log[i].m == all[i].m
      ensures ExchangeHeeded(all[i].oracle, r'.log[..i], r'.log[i].m, r'.log[i].calls, Ok(r'.log[i].batch))
    {
      assert r'.log[..i] == r.log[..i];
      assert i == |r.log| ==> r.log[..i] == r.log;
    }
  }

  lemma StoppedIsHeeded(events: seq<Event>, r: Run, e: Event)
    requires !r.status.Running? && RunHeeded(events, r)
    ensures RunHeeded(events + [e], r)
  {
    hide ExchangeHeeded, HeadersKnown;
  }

  /**
   In every run the hooks of every exchange, and of the step that failed, are called in the
   context the stream is in, their answers are recorded as given, and the first that does not
   proceed decides the step.
   */
  lemma {:induction false} FiltersAreHeeded(cfg: Config, start: Run, events: seq<Event>)
    requires IsFresh(start)
    ensures RunHeeded(events, RunFrom(cfg, start, events))
  {
    hide Step, Inv, RunHeeded, StepHeeded, ContextKept, ExchangeHeeded;
    if events == [] {
      FreshIsHeeded(start);
    } else {
      var init, e := events[..|events| - 1], events[|events| - 1];
      var r, r' := RunFrom(cfg, start, init), RunFrom(cfg, start, events);
      assert events == init + [e];
      FiltersAreHeeded(cfg, start, init);
      if r.status.Running? {
        LiveRunsKeepInv(cfg, start, init);
        LiveIsFinished(cfg, start, init);
        ContextIsOneLongLivedValue(cfg, start, init);
        var o := Step(cfg, e.oracle, r.st, e.m);
        StepHeeds(cfg, e.oracle, r.st, e.m);
        RunKnows(init, r);
        StepIsExchange(r, e.oracle, e.m, o);
        LocalReplyHasNoHeaders(cfg, start, events);
        if Proceeds(o) {
          HeadersStayKnown(r, e.oracle, e.m, o, r');
        }
        ExchangeIsHeeded(init, r, e, o, r');
      } else {
        StoppedIsHeeded(init, r, e);
      }
    }
  }

  lemma RunKnows(events: seq<Event>, r: Run)
    requires r.status.Running? && RunHeeded(events, r)
    ensures HeadersKnown(r)
  {
  }

  lemma FreshIsHeeded(start: Run)
    requires IsFresh(start)
    ensures RunHeeded([], start)
  {
  }

  /** A call that stopped is answered by its own immediate response, the last reply; a call that broke fails the stream. */
  ghost predicate Obeyed(r: Run, c: Call) {
    && (c.verdict.Stop? ==>
          && r.status.Ended? && Sent(r.log) != []
          && Sent(r.log)[|Sent(r.log)| - 1] == Reply(Immediate(c.verdict.immediate), None))
    && (c.verdict.Broken? ==> r.status == Failed(FilterError))
  }

  ghost predicate AllObeyed(r: Run) {
    forall i :: 0 <= i < |AllCalls(r)| ==> Obeyed(r, AllCalls(r)[i])
  }

  /** Over every run: no filter verdict is ignored, and none is replaced by another answer. */
  lemma {:induction false} VerdictsAreObeyed(cfg: Config, start: Run, events: seq<Event>)
    requires IsFresh(start)
    ensures AllObeyed(RunFrom(cfg, start, events))
  {
    hide Step, Inv, StepHeeded, AllCalls, CallList, AllObeyed;
    if events == [] {
      NoVerdictYet(start);
    } else {
      var init, e := events[..|events| - 1], events[|events| - 1];
      var r, r' := RunFrom(cfg, start, init), RunFrom(cfg, start, events);
      VerdictsAreObeyed(cfg, start, init);
      if r.status.Running? {
        LiveRunsKeepInv(cfg, start, init);
        LiveIsFinished(cfg, start, init);
        StepHeeds(cfg, e.oracle, r.st, e.m);
        var o := Step(cfg, e.oracle, r.st, e.m);
        ContextStep(r, r', o.calls);
        NextVerdicts(r, e, o, r');
      } else {
        assert r' == r;
      }
    }
  }

  lemma NoVerdictYet(start: Run)
    requires IsFresh(start)
    ensures AllObeyed(start)
  {
  }

  lemma NextVerdicts(r: Run, e: Event, o: Outcome, r': Run)
    requires r.status.Running? && StepHeeded(e.oracle, r.st, e.m, o) && AllCalls(r') == AllCalls(r) + CallList(o.calls)
    requires AllObeyed(r)
    requires match o.result
             case Ok(batch) => r'.log == r.log + [Exchange(e.m, batch, o.calls)] && (batch.Halt? ==> r'.status.Ended?)
             case Err(status) => r'.status == Failed(status)
    ensures AllObeyed(r')
  {
    hide AllCalls, CallList, AnsweredBy, GivenBytes, LeavesHeaders, Sent;
    if o.result.Ok? {
      SentGrows(r.log, Exchange(e.m, o.result.value, o.calls));
    }
    forall i | 0 <= i < |AllCalls(r')| ensures Obeyed(r', AllCalls(r')[i]) {
      if i < |AllCalls(r)| {
        assert Obeyed(r, AllCalls(r)[i]);
      }
    }
  }
}
