/**
 The shape of every reply the server sends: which part may carry what, and when Envoy is told
 to drop its cached route.
 */
module Replies {
  import opened Wire
  import opened HeaderMaps
  import opened Filters
  import opened Guardrails
  import opened Chunking
  import opened StreamSpec
  import opened Runs
  import opened Hooks

  // ---------------------------------------------------------------------------
  // Well-formed replies
  // ---------------------------------------------------------------------------

  /** The route is dropped exactly with a request mutation that can change it. */
  predicate Routed(side: Side, c: CommonResponse) {
    c.clearRouteCache <==> side.RequestSide? && AffectsRouting(c.headerMutation)
  }

  /** A headers reply carries no body. */
  predicate HeadersFormed(side: Side, c: CommonResponse) {
    Routed(side, c) && c.bodyMutation.None?
  }

  /** A body reply uses the streamed format exactly in full duplex, and carries a header mutation only in BUFFERED mode. */
  predicate BodyFormed(side: Side, mode: BodyMode, c: CommonResponse) {
    Routed(side, c) && (IsChunk(c) <==> mode.FullDuplex?) && (c.headerMutation.Some? ==> mode.Buffered?)
  }

  predicate AllRouted(side: Side, cs: seq<CommonResponse>) {
    forall i :: 0 <= i < |cs| ==> Routed(side, cs[i])
  }

  predicate AllFormed(side: Side, mode: BodyMode, cs: seq<CommonResponse>) {
    forall i :: 0 <= i < |cs| ==> BodyFormed(side, mode, cs[i])
  }

  predicate Formed(side: Side, mode: BodyMode, batch: Batch) {
    batch.Answer? ==> (batch.headers.Some? ==> HeadersFormed(side, batch.headers.value)) && AllFormed(side, mode, batch.bodies)
  }

  lemma CommonsAreRouted()
    ensures forall side, mutation, body :: Routed(side, BodyCommon(side, mutation, body))
    ensures forall side, mutation :: HeadersFormed(side, HeadersCommon(side, mutation))
  {
  }

  lemma {:induction false} ChunksAreRouted(side: Side, data: Bytes, mutation: Option<HeaderMutation>, eos: bool, offset: nat)
    requires offset <= |data|
    ensures AllRouted(side, ChunksFrom(side, data, mutation, eos, offset))
    decreases |data| - offset
  {
    CommonsAreRouted();
    if offset < |data| {
      var end := ChunkEnd(data, offset);
      ChunksAreRouted(side, data, mutation, eos, end);
      var cs, rest := ChunksFrom(side, data, mutation, eos, offset), ChunksFrom(side, data, mutation, eos, end);
      assert cs == [cs[0]] + rest;
      assert forall i :: 0 < i < |cs| ==> cs[i] == rest[i - 1];
    }
  }

  lemma BodiesAreFormed(side: Side, mode: BodyMode, data: Option<Bytes>, mutation: Option<HeaderMutation>, eos: bool)
    requires mutation.Some? ==> mode.Buffered?
    ensures AllFormed(side, mode, BodyResponses(side, mode, data, mutation, eos))
  {
    hide Routed, StreamedBytes, ChunksFrom;
    CommonsAreRouted();
    if mode.FullDuplex? {
      var body := if data.Some? then data.value else [];
      ChunksAreRouted(side, body, mutation, eos, 0);
      ChunksConserveBody(side, body, mutation, eos);
    }
  }

  // ---------------------------------------------------------------------------
  // Phases and plans
  // ---------------------------------------------------------------------------

  /** The answer of a phase or of a settled message is well formed for its direction. */
  predicate OutcomeFormed(side: Side, mode: BodyMode, o: Outcome) {
    o.result.Ok? ==> Formed(side, mode, o.result.value)
  }

  lemma BodyBatchFormed(side: Side, mode: BodyMode, mutation: Option<HeaderMutation>, body: Bytes, eos: bool)
    requires mode.FullDuplex? || mode.Buffered?
    ensures Formed(side, mode, BodyBatch(side, mode, mutation, body, eos))
  {
    hide Routed, AllFormed, BodyResponses, HeadersCommon;
    CommonsAreRouted();
    BodiesAreFormed(side, mode, Some(body), if mode.FullDuplex? then None else mutation, eos);
  }

  lemma HeadersOnlyFormed(side: Side, mode: BodyMode, mutation: Option<HeaderMutation>)
    ensures Formed(side, mode, HeadersOnly(HeadersCommon(side, mutation)))
  {
  }

  /** A full phase over a body runs where bodies are held until they are complete, or at headers that end the stream. */
  predicate PlanFits(st: Stream, m: Message, plan: Plan) {
    if plan.Settle? then OutcomeFormed(m.side, st.At(m.side).mode, plan.outcome)
    else
      var half := plan.st.At(m.side);
      && PlanSide(plan) == m.side && half.mode == st.At(m.side).mode
      && (plan.FullRequest? || plan.FullResponse? ==>
            || plan.phase.AtHeaders? || half.mode.FullDuplex? || half.mode.Buffered?
            || (plan.FullRequest? && half.headersState.Completed?))
      && (plan.FilterChunk? ==> half.mode.Streamed?)
  }

  lemma RequestFormed(cfg: Config, oracle: Oracle, st: Stream, m: Message, plan: Plan)
    requires PlanFits(st, m, plan) && plan.FullRequest?
    ensures OutcomeFormed(RequestSide, st.req.mode, RunRequest(cfg, oracle, plan.st, plan.phase, plan.eos, plan.ordinary))
  {
    hide RequestStage, HeaderStage, CollectRequest, WithContentLength, BodyBatch, HeadersCommon, Hydrate, Dehydrate, Formed;
    AnswersAreFormed(RequestSide, st.req.mode);
    HaltIsFormed(RequestSide, st.req.mode);
  }

  lemma HaltIsFormed(side: Side, mode: BodyMode)
    ensures forall immediate :: Formed(side, mode, Halt(immediate))
    ensures Formed(side, mode, NOTHING)
  {
  }

  /** The answers a full phase can give. */
  lemma AnswersAreFormed(side: Side, mode: BodyMode)
    ensures forall mutation :: Formed(side, mode, HeadersOnly(HeadersCommon(side, mutation)))
    ensures mode.FullDuplex? || mode.Buffered? ==>
              forall mutation, body, eos :: Formed(side, mode, BodyBatch(side, mode, mutation, body, eos))
  {
    hide Formed, HeadersOnly, BodyBatch;
    forall mutation ensures Formed(side, mode, HeadersOnly(HeadersCommon(side, mutation))) {
      HeadersOnlyFormed(side, mode, mutation);
    }
    if mode.FullDuplex? || mode.Buffered? {
      forall mutation, body, eos ensures Formed(side, mode, BodyBatch(side, mode, mutation, body, eos)) {
        BodyBatchFormed(side, mode, mutation, body, eos);
      }
    }
  }

  lemma ResponseFormed(oracle: Oracle, st: Stream, m: Message, plan: Plan)
    requires PlanFits(st, m, plan) && plan.FullResponse?
    ensures OutcomeFormed(ResponseSide, st.resp.mode, RunResponse(oracle, plan.st, plan.phase, plan.eos))
  {
    hide ResponseStage, CollectResponse, WithContentLength, BodyBatch, HeadersCommon, Merge, Hydrate, Dehydrate, Formed;
    AnswersAreFormed(ResponseSide, st.resp.mode);
    HaltIsFormed(ResponseSide, st.resp.mode);
  }

  lemma EarlyFormed(oracle: Oracle, st: Stream, side: Side, delivery: Delivery)
    ensures OutcomeFormed(side, st.At(side).mode,
                          if side.RequestSide? then EarlyRequest(oracle, st, delivery) else EarlyResponse(oracle, st, delivery))
  {
    hide HeaderStage, StartStage, CollectRequest, CollectResponse, HeadersCommon, Dehydrate, Formed;
    AnswersAreFormed(side, st.At(side).mode);
    HaltIsFormed(side, st.At(side).mode);
  }

  lemma ChunkFormed(cfg: Config, oracle: Oracle, st: Stream, side: Side, chunk: Bytes, eos: bool)
    ensures OutcomeFormed(side, st.At(side).mode, StreamedChunk(cfg, oracle, st, side, chunk, eos))
  {
    hide BodyStage, StartStage, HoldBack, BodyResponses, Dehydrate, AllFormed;
    forall data ensures AllFormed(side, st.At(side).mode, BodyResponses(side, st.At(side).mode, data, None, eos)) {
      BodiesAreFormed(side, st.At(side).mode, data, None, eos);
    }
  }

  lemma FlushFormed(oracle: Oracle, st: Stream, side: Side, mode: BodyMode)
    ensures OutcomeFormed(side, mode, FlushStreamed(oracle, st, side))
  {
    hide Invoke, StartStage, Dehydrate, Formed;
    HaltIsFormed(side, mode);
  }

  lemma ExecuteFormed(cfg: Config, oracle: Oracle, st: Stream, m: Message, plan: Plan)
    requires PlanFits(st, m, plan)
    ensures OutcomeFormed(m.side, st.At(m.side).mode, Execute(cfg, oracle, plan))
  {
    hide OutcomeFormed, RunRequest, RunResponse, EarlyRequest, EarlyResponse, StreamedChunk, FlushStreamed;
    match plan
    case Settle(_) =>
    case FullRequest(st', phase, eos, ordinary) => RequestFormed(cfg, oracle, st, m, plan);
    case FullResponse(st', phase, eos) => ResponseFormed(oracle, st, m, plan);
    case HeadersEarly(st', side, delivery) => EarlyFormed(oracle, st', side, delivery);
    case FilterChunk(st', side, chunk, eos) => ChunkFormed(cfg, oracle, st', side, chunk, eos);
    case Flush(st', side) => FlushFormed(oracle, st', side, st'.At(side).mode);
  }

  /** Settled answers are built from these. */
  lemma SettledAnswersAreFormed(side: Side, mode: BodyMode)
    ensures forall mutation :: Formed(side, mode, HeadersOnly(HeadersCommon(side, mutation)))
    ensures forall immediate :: Formed(side, mode, Halt(immediate))
    ensures Formed(side, mode, NOTHING) && Formed(side, mode, Answer(None, [], true, None))
    ensures forall data, eos :: Formed(side, mode, Answer(None, BodyResponses(side, mode, data, None, eos), false, None))
    ensures forall mutation, data, eos ::
              Formed(side, mode, Answer(Some(HeadersCommon(side, mutation)), BodyResponses(side, mode, data, None, eos), false, None))
  {
    hide BodyResponses, HeadersCommon, AllFormed;
    CommonsAreRouted();
    forall data, eos ensures AllFormed(side, mode, BodyResponses(side, mode, data, None, eos)) {
      BodiesAreFormed(side, mode, data, None, eos);
    }
    NoneIsFormed(side, mode);
  }

  lemma NoneIsFormed(side: Side, mode: BodyMode)
    ensures AllFormed(side, mode, [])
  {
  }

  lemma HeadersPlanFits(cfg: Config, st: Stream, m: Message)
    requires m.Headers? && !st.localReply
    ensures PlanFits(st, m, if m.side.RequestSide? then RequestHeadersPlan(cfg, st, m.headers, m.endOfStream)
                            else ResponseHeadersPlan(cfg, st, m.headers, m.endOfStream))
  {
    hide PlanFrame, HeadersCommon, Admitted, HasSelectedGuardrail, FromEnvoy, Formed;
    SettledAnswersAreFormed(m.side, st.At(m.side).mode);
  }

  lemma RequestBodyPlanFits(cfg: Config, st: Stream, m: Message)
    requires m.Body? && m.side.RequestSide? && !st.localReply && !st.req.mode.NoBody?
    ensures PlanFits(st, m, RequestBodyPlan(cfg, st, m.body, m.endOfStream))
  {
    hide PlanFrame, HeadersCommon, BodyResponses, Formed;
    SettledAnswersAreFormed(RequestSide, st.req.mode);
  }

  lemma ResponseBodyPlanFits(cfg: Config, st: Stream, m: Message)
    requires m.Body? && m.side.ResponseSide? && !st.localReply && !st.resp.mode.NoBody?
    ensures PlanFits(st, m, ResponseBodyPlan(cfg, st, m.body, m.endOfStream))
  {
    hide PlanFrame, HeadersCommon, BodyResponses, Formed;
    SettledAnswersAreFormed(ResponseSide, st.resp.mode);
  }

  lemma TrailersPlanFits(cfg: Config, st: Stream, side: Side)
    requires !st.localReply
    ensures PlanFits(st, Trailers(side), TrailersPlan(cfg, st, side))
  {
    hide PlanFrame, HeadersCommon, Formed;
    SettledAnswersAreFormed(side, st.At(side).mode);
  }

  lemma LocalReplyPlanFits(st: Stream, m: Message)
    requires st.localReply
    ensures PlanFits(st, m, LocalReplyPlan(st, m))
  {
    hide PlanFrame, HeadersCommon, BodyResponses, Formed;
    SettledAnswersAreFormed(m.side, st.At(m.side).mode);
  }

  lemma PlansFit(cfg: Config, st: Stream, m: Message)
    ensures PlanFits(st, m, PlanFor(cfg, st, m))
  {
    hide PlanFits, PlanFrame, RequestHeadersPlan, RequestBodyPlan, ResponseHeadersPlan, ResponseBodyPlan, TrailersPlan, LocalReplyPlan;
    var st1 := Advanced(st, m);
    if DispatchError(st, m).Some? {
      RefusalFits(st, m, DispatchError(st, m).value);
    } else {
      if st1.localReply {
        LocalReplyPlanFits(st1, m);
      } else if m.Headers? {
        HeadersPlanFits(cfg, st1, m);
      } else if m.Trailers? {
        TrailersPlanFits(cfg, st1, m.side);
      } else if m.side.RequestSide? {
        RequestBodyPlanFits(cfg, st1, m);
      } else {
        ResponseBodyPlanFits(cfg, st1, m);
      }
      AdvancedFits(st, m, PlanFor(cfg, st, m));
    }
  }

  lemma RefusalFits(st: Stream, m: Message, status: Status)
    ensures PlanFits(st, m, Refused(st, status))
  {
  }

  lemma AdvancedFits(st: Stream, m: Message, plan: Plan)
    ensures PlanFits(Advanced(st, m), m, plan) ==> PlanFits(st, m, plan)
  {
    hide OutcomeFormed;
  }

  // ---------------------------------------------------------------------------
  // Steps and runs
  // ---------------------------------------------------------------------------

  /** Finishing only drops bodies, adds the trailers reply or an override, or rejects. */
  lemma FinishFormed(cfg: Config, m: Message, localReply: bool, side: Side, mode: BodyMode, o: Outcome)
    requires OutcomeFormed(side, mode, o)
    ensures OutcomeFormed(side, mode, Finish(cfg, m, localReply, o))
  {
    hide Routed, ShouldStream, BodyFormed, HeadersFormed;
  }

  lemma StepFormed(cfg: Config, oracle: Oracle, st: Stream, m: Message)
    ensures OutcomeFormed(m.side, st.At(m.side).mode, Step(cfg, oracle, st, m))
  {
    hide OutcomeFormed, PlanFits, PlanFor, Execute, Finish;
    var plan := PlanFor(cfg, st, m);
    PlansFit(cfg, st, m);
    ExecuteFormed(cfg, oracle, st, m, plan);
    FinishFormed(cfg, m, Advanced(st, m).localReply, m.side, st.At(m.side).mode, Execute(cfg, oracle, plan));
  }

  /** The body mode of a direction after some replies: the configured one, or for a response the last one asked for. */
  function ModeSoFar(start: Run, log: seq<Exchange>, side: Side): BodyMode {
    if side.RequestSide? then start.st.req.mode else ModeAfter(start.st.resp.mode, Sent(log))
  }

  /** Every answer of a run is well formed for the mode its direction is in at that point. */
  ghost predicate AllAnswersFormed(start: Run, log: seq<Exchange>) {
    forall i :: 0 <= i < |log| ==> Formed(log[i].m.side, ModeSoFar(start, log[..i], log[i].m.side), log[i].batch)
  }

  lemma AnswerIsFormed(start: Run, log: seq<Exchange>, x: Exchange)
    requires AllAnswersFormed(start, log) && Formed(x.m.side, ModeSoFar(start, log, x.m.side), x.batch)
    ensures AllAnswersFormed(start, log + [x])
  {
    hide Formed, ModeSoFar;
    var all := log + [x];
    forall i | 0 <= i < |all| ensures Formed(all[i].m.side, ModeSoFar(start, all[..i], all[i].m.side), all[i].batch) {
      assert i < |log| ==> all[..i] == log[..i];
      assert i == |log| ==> all[..i] == log;
    }
  }

  /**
   Over every run and in every mode: headers replies carry no body; body replies use the
   streamed format exactly in full duplex; only BUFFERED ones carry header mutations.
   */
  lemma {:induction false} AnswersFitTheirMode(cfg: Config, start: Run, events: seq<Event>)
    requires IsFresh(start)
    ensures AllAnswersFormed(start, RunFrom(cfg, start, events).log)
  {
    hide Step, AllAnswersFormed, Formed;
    if events == [] {
      NoAnswers(start);
    } else {
      var init, e := events[..|events| - 1], events[|events| - 1];
      var r := RunFrom(cfg, start, init);
      AnswersFitTheirMode(cfg, start, init);
      if r.status.Running? {
        ModesAgreeWithOverridesSent(cfg, start, init);
        StepFormed(cfg, e.oracle, r.st, e.m);
        var o := Step(cfg, e.oracle, r.st, e.m);
        if o.result.Ok? {
          AnswerIsFormed(start, r.log, Exchange(e.m, o.result.value, o.calls));
        }
      }
    }
  }

  lemma NoAnswers(start: Run)
    requires IsFresh(start)
    ensures AllAnswersFormed(start, start.log)
  {
  }

  /** Envoy is told to drop its cached route iff the reply to a request can change a header but `content-length`, or removes that one. */
  ghost predicate RouteIsFollowed(reply: Reply) {
    reply.payload.HeadersReply? || reply.payload.BodyReply? ==>
      var mutation := reply.payload.common.headerMutation;
      reply.payload.common.clearRouteCache
      <==> reply.payload.side.RequestSide? && (!ChangesOnlyLength(mutation) || CONTENT_LENGTH in Removes(mutation))
  }

  ghost predicate RoutesFollowed(replies: seq<Reply>) {
    forall i :: 0 <= i < |replies| ==> RouteIsFollowed(replies[i])
  }

  lemma RenderedRoutes(side: Side, mode: BodyMode, batch: Batch)
    requires Formed(side, mode, batch)
    ensures RoutesFollowed(Render(side, batch))
  {
    hide ChangesOnlyLength, AffectsRouting;
    forall mutation
      ensures AffectsRouting(mutation) <==> !ChangesOnlyLength(mutation) || CONTENT_LENGTH in Removes(mutation)
    {
      RouteCacheClearedIff(mutation);
    }
  }

  /** Over every run, for every reply sent. */
  lemma {:induction false} RouteCacheFollowsMutations(cfg: Config, start: Run, events: seq<Event>)
    requires IsFresh(start)
    ensures RoutesFollowed(Sent(RunFrom(cfg, start, events).log))
  {
    hide Step, Formed, RouteIsFollowed, Sent, Render;
    if events == [] {
      assert Sent(start.log) == [] by { NothingSent(start); }
    } else {
      var init, e := events[..|events| - 1], events[|events| - 1];
      var r := RunFrom(cfg, start, init);
      RouteCacheFollowsMutations(cfg, start, init);
      if r.status.Running? {
        StepFormed(cfg, e.oracle, r.st, e.m);
        var o := Step(cfg, e.oracle, r.st, e.m);
        if o.result.Ok? {
          SentGrows(r.log, Exchange(e.m, o.result.value, o.calls));
          RenderedRoutes(e.m.side, r.st.At(e.m.side).mode, o.result.value);
        }
      }
    }
  }

  lemma NothingSent(start: Run)
    requires IsFresh(start)
    ensures Sent(start.log) == []
  {
  }
}
