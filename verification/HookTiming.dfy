/**
 When the hooks run: header hooks on arrival or with the body, selected-upstream hooks with the
 complete request.
 */
module HookTiming {
  import opened Wire
  import opened HeaderMaps
  import opened Filters
  import opened Guardrails
  import opened Chunking
  import opened StreamSpec
  import opened Effects
  import opened Invariant
  import opened Steps
  import opened Runs
  import opened Enforcement
  import opened Hooks

  /** Header hooks run on arrival unless the headers announce a body that filters are to see first. */
  predicate RunsOnArrival(cfg: Config, st: Stream, side: Side, eos: bool) {
    eos
    || match st.At(side).mode
       case NoBody => true
       case Streamed => true
       case FullDuplex => !cfg.NeedsBody(side)
       case Buffered => side.ResponseSide? && !cfg.NeedsBody(side)
  }

  /** Header hooks that did not run on arrival run with the first final call of the body. */
  predicate HeaderHookDue(cfg: Config, st: Stream, m: Message, calls: Calls) {
    if m.Headers? then RunsOnArrival(cfg, st, m.side, m.endOfStream)
    else FinalCall(calls) && !HeaderRan(cfg, st, m.side)
  }

  /** Selected-upstream hooks run with headers that end the request, with BUFFERED bodies, and with trailers that close a bodyless one. */
  predicate SelectedHookDue(cfg: Config, st: Stream, m: Message) {
    && cfg.caps.needsSelectedBody && m.side.RequestSide?
    && match m
       case Headers(_, _, eos) => eos
       case Body(_, _, _) => true
       case Trailers(_) => !Closed(st.req) && !st.req.bodySeen
  }

  /** Outside local replies, the hooks called by a step that proceeds are those that are due. */
  predicate HooksDue(cfg: Config, st: Stream, m: Message, o: Outcome) {
    Proceeds(o) && !o.st.localReply ==>
      && (o.calls.header.Some? <==> HeaderHookDue(cfg, st, m, o.calls))
      && (o.calls.selected.Some? <==> SelectedHookDue(cfg, st, m))
  }

  lemma RequestHeadersDue(cfg: Config, st: Stream, headers: seq<HeaderValue>, eos: bool, o: Outcome)
    requires RequestHeadersRan(cfg, st, headers, eos, o)
    ensures HooksDue(cfg, st, Headers(RequestSide, headers, eos), FinishRequestHeaders(cfg, headers, eos, o))
  {
    hide PlanFrame, HeadersCommon, Admitted, HasSelectedGuardrail, ShouldStream, CollectRequest, WithContentLength, RequestBatch,
         Threads, ResponseInv, ResponseCalls, ResponseState, ResponseBatch, ChunkState, ChunkReply, WithinLimits, FlushProceeds,
         OnlyBodyCall, LocalReplyInv, RequestHeadersRan, RequestHeadersPlan, DispatchError, RequestState;
    RequestHeadersCases(cfg, st, headers, eos, o);
  }

  lemma RequestBodyDue(cfg: Config, st: Stream, chunk: Bytes, eos: bool, o: Outcome)
    requires RequestBodyRan(cfg, st, chunk, eos, o)
    ensures HooksDue(cfg, st, Body(RequestSide, chunk, eos), o)
  {
    hide PlanFrame, HeadersCommon, BodyResponses, RequestBatch, Threads, Forwarded, ResponseInv, ResponseCalls, ResponseState,
         ResponseBatch, EarlyProceeds, FlushProceeds, OnlyHeaderCall, LocalReplyInv, RequestBodyRan, RequestBodyPlan,
         DispatchError, RequestState, ChunkState, WithinLimits;
    RequestBodyCases(cfg, st, chunk, eos, o);
  }

  lemma ResponseHeadersDue(cfg: Config, st: Stream, headers: seq<HeaderValue>, eos: bool, o: Outcome)
    requires ResponseHeadersRan(cfg, st, headers, eos, o)
    ensures HooksDue(cfg, st, Headers(ResponseSide, headers, eos), o)
  {
    hide PlanFrame, HeadersCommon, FromEnvoy, Diff, ResponseBatch, Threads, RequestInv, RequestCalls, RequestCallsAll,
         RequestState, RequestBatch, ChunkState, ChunkReply, WithinLimits, FlushProceeds, OnlyBodyCall, ResponseHeadersRan,
         ResponseHeadersPlan, DispatchError;
    ResponseHeadersCases(cfg, st, headers, eos, o);
  }

  lemma ResponseBodyDue(cfg: Config, st: Stream, chunk: Bytes, eos: bool, o: Outcome)
    requires ResponseBodyRan(cfg, st, chunk, eos, o)
    ensures HooksDue(cfg, st, Body(ResponseSide, chunk, eos), o)
  {
    hide PlanFrame, HeadersCommon, BodyResponses, ResponseBatch, Threads, Forwarded, RequestInv, RequestCalls, RequestCallsAll,
         RequestState, RequestBatch, EarlyProceeds, FlushProceeds, OnlyHeaderCall, LocalReplyInv, ResponseBodyRan,
         ResponseBodyPlan, DispatchError, ChunkState, WithinLimits, BodyBatch;
    ResponseBodyCases(cfg, st, chunk, eos, o);
  }

  lemma TrailersDue(cfg: Config, st: Stream, side: Side, o: Outcome)
    requires TrailersRan(cfg, st, side, o)
    ensures HooksDue(cfg, st, Trailers(side), FinishTrailers(cfg, side, o))
  {
    hide PlanFrame, HeadersCommon, RequestBatch, ResponseBatch, Threads, ChunkReply, ChunkState, WithinLimits, EarlyProceeds,
         LocalReplyInv, OnlyHeaderCall, TrailersRan, TrailersPlan, DispatchError;
    TrailersCases(cfg, st, side, o);
  }

  lemma DispatchedDue(cfg: Config, st: Stream, m: Message, o: Outcome)
    requires Inv(cfg, st) && DispatchError(st, m).None? && !Advanced(st, m).localReply && Executed(cfg, PlanFor(cfg, st, m), o)
    ensures HooksDue(cfg, st, m, Stepped(cfg, st, m, o))
  {
    LocalReplyIff(cfg, st, m);
    hide Inv, HooksDue, Executed, PlanFrame, DispatchError, RequestHeadersPlan, RequestBodyPlan, ResponseHeadersPlan,
         ResponseBodyPlan, TrailersPlan, FinishRequestHeaders, FinishTrailers;
    match m
    case Headers(RequestSide, headers, eos) => RequestHeadersDue(cfg, st, headers, eos, o);
    case Headers(ResponseSide, headers, eos) => ResponseHeadersDue(cfg, st, headers, eos, o);
    case Body(RequestSide, chunk, eos) => RequestBodyDue(cfg, st, chunk, eos, o);
    case Body(ResponseSide, chunk, eos) => ResponseBodyDue(cfg, st, chunk, eos, o);
    case Trailers(side) => TrailersDue(cfg, st, side, o);
  }

  lemma StepHooksDue(cfg: Config, oracle: Oracle, st: Stream, m: Message)
    requires Inv(cfg, st)
    ensures HooksDue(cfg, st, m, Step(cfg, oracle, st, m))
  {
    hide Inv, HandlerPlan, Execute, Executed, PlanFrame, Advanced, Finish, DispatchError;
    RefusedFails(cfg, oracle, st, m);
    if m.side.RequestSide? {
      RequestPlansAreSound(cfg, st, m);
    } else {
      ResponsePlansAreSound(cfg, st, m);
    }
    var plan := PlanFor(cfg, st, m);
    ExecuteFits(cfg, oracle, plan);
    if DispatchError(st, m).None? {
      if Advanced(st, m).localReply {
        LocalReplyIsSilent(cfg, oracle, st, m);
      } else {
        DispatchedDue(cfg, st, m, Execute(cfg, oracle, plan));
      }
    }
  }

  /** In every run, outside local replies: each message runs exactly the header and selected-upstream hooks that are due with it. */
  lemma HooksRunWhenDue(cfg: Config, start: Run, events: seq<Event>, next: Event)
    requires IsFresh(start)
    ensures var r := RunFrom(cfg, start, events);
            r.status.Running? ==> HooksDue(cfg, r.st, next.m, Step(cfg, next.oracle, r.st, next.m))
  {
    hide RunFrom, Step, Inv, HooksDue;
    LiveRunsKeepInv(cfg, start, events);
    var r := RunFrom(cfg, start, events);
    if r.status.Running? {
      StepHooksDue(cfg, next.oracle, r.st, next.m);
    }
  }
}
