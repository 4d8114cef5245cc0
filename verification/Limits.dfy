/**
 The body ceiling over whole runs: verdicts depend on the bytes received, not on how they were cut.
 */
module Limits {
  import opened Wire
  import opened HeaderMaps
  import opened Filters
  import opened Chunking
  import opened StreamSpec
  import opened Effects
  import opened Invariant
  import opened Steps
  import opened Runs
  import opened Grammar
  import opened BodyFlow
  import opened Conservation
  import opened Streaming

  /** Request bytes that pass without being held are counted. */
  predicate Counted(cfg: Config, st: Stream, side: Side) {
    side.RequestSide? && !st.localReply && (st.req.mode.Streamed? || (st.req.mode.FullDuplex? && !cfg.caps.needsRequestBody))
  }

  /** Bytes that wait for the end of the body are held in a buffer that only grows. */
  predicate Held(cfg: Config, st: Stream, side: Side) {
    var mode := st.At(side).mode;
    !st.localReply && ((mode.FullDuplex? && cfg.NeedsBody(side)) || (mode.Buffered? && side.ResponseSide?))
  }

  /** BUFFERED requests are filtered message by message, so their buffer holds filter output. */
  predicate Rewritten(st: Stream, side: Side) {
    side.RequestSide? && !st.localReply && st.req.mode.Buffered?
  }

  /** What the filters left in the buffer of a BUFFERED request after these exchanges. */
  function RequestBuffer(log: seq<Exchange>): Bytes {
    if log == [] then []
    else
      var x, before := log[|log| - 1], RequestBuffer(log[..|log| - 1]);
      if x.m.side.RequestSide? then RequestOutput(before, x.calls) else before
  }

  /** Counter and buffer hold the bytes received so far, saturation included. */
  ghost predicate TalliesKept(cfg: Config, r: Run, side: Side) {
    var received := Received(Messages(r.log), side);
    && (Counted(cfg, r.st, side) ==> r.st.streamedBytes == SaturatingAdd(0, |received|) && !OverLimit(r.st.streamedBytes, cfg.maxBody))
    && (Held(cfg, r.st, side) && r.st.At(side).bodyState.Active? ==>
          r.st.At(side).body == received && !OverLimit(SaturatingAdd(0, |received|), cfg.maxBody))
    && (Rewritten(r.st, side) && Opened(r.st.req) ==> r.st.req.body == RequestBuffer(r.log))
    && (r.st.At(side).furthest.None? ==> received == [] && (side.RequestSide? ==> RequestBuffer(r.log) == []))
  }

  lemma BufferGrows(log: seq<Exchange>, x: Exchange)
    ensures RequestBuffer(log + [x]) == if x.m.side.RequestSide? then RequestOutput(RequestBuffer(log), x.calls) else RequestBuffer(log)
  {
    assert (log + [x])[..|log|] == log;
  }

  lemma UnopenedIsEmpty(cfg: Config, st: Stream, side: Side)
    requires Inv(cfg, st) && st.At(side).furthest.None?
    ensures st.At(side).body == []
  {
  }

  lemma TalliesStep(cfg: Config, r: Run, m: Message, o: Outcome, r': Run, side: Side)
    requires LiveStep(cfg, r, m, o, r') && TalliesKept(cfg, r, side) && m.side == side
    ensures TalliesKept(cfg, r', side)
  {
    hide Received, SeenBodyEnd, Bodies, Sent, Messages, StepGood, HistoryKept, DuplexFlow, StreamedFlow, Inv, RequestBuffer,
         RequestOutput;
    BothEndsGrow(r, m, o.result.value, o.calls, side);
    FirstIffNotEnded(cfg, r, m, o, r');
    UnopenedHalf(cfg, r, m, o, r');
    StepProgress(cfg, r, m, o, r');
    BufferGrows(r.log, Exchange(m, o.result.value, o.calls));
    if m.Headers? {
      UnopenedIsEmpty(cfg, r.st, side);
    }
    var received := Received(Messages(r.log), side);
    assert received + [] == received;
  }

  lemma TalliesOtherStep(cfg: Config, r: Run, m: Message, o: Outcome, r': Run, side: Side)
    requires LiveStep(cfg, r, m, o, r') && TalliesKept(cfg, r, side) && m.side != side
    ensures TalliesKept(cfg, r', side)
  {
    hide Received, SeenBodyEnd, Bodies, Sent, Messages, StepGood, HistoryKept, DuplexFlow, StreamedFlow, Inv, RequestBuffer,
         RequestOutput;
    BothEndsGrow(r, m, o.result.value, o.calls, side);
    UnopenedHalf(cfg, r, m, o, r');
    StepProgress(cfg, r, m, o, r');
    BufferGrows(r.log, Exchange(m, o.result.value, o.calls));
    var received := Received(Messages(r.log), side);
    assert received + [] == received;
  }

  lemma {:induction false} TalliesAreExact(cfg: Config, start: Run, events: seq<Event>, side: Side)
    requires IsFresh(start)
    ensures RunFrom(cfg, start, events).status.Running? ==> TalliesKept(cfg, RunFrom(cfg, start, events), side)
  {
    var r := RunFrom(cfg, start, events);
    if events == [] {
      assert Messages(start.log) == [];
    } else if r.status.Running? {
      var init, e := events[..|events| - 1], events[|events| - 1];
      LastStep(cfg, start, events);
      TalliesAreExact(cfg, start, init, side);
      var r0 := RunFrom(cfg, start, init);
      var o := Step(cfg, e.oracle, r0.st, e.m);
      assert r0.status.Running?;
      hide Step, TalliesKept, RunFrom, Inv, StepGood, FlowOk;
      if e.m.side != side {
        TalliesOtherStep(cfg, r0, e.m, o, r, side);
      } else {
        TalliesStep(cfg, r0, e.m, o, r, side);
      }
    }
  }

  // ---------------------------------------------------------------------------
  // Verdict
  // ---------------------------------------------------------------------------

  /** A body message was refused for its size, with no filter called: 413 for a request, a status for a response. */
  predicate RefusedForSize(cfg: Config, side: Side, o: Outcome) {
    && o.calls == NO_CALLS
    && o.result == if side.ResponseSide? then Err(BodyTooLarge)
                   else Ok(Halt(ImmediateResponse(413, None, Fixed(if cfg.caps.needsSelectedBody then SelectedRequestTooLarge
                                                                   else RequestTooLarge))))
  }

  /** The tally a first delivery is checked with. */
  function Tally(cfg: Config, st: Stream, side: Side): nat {
    if Counted(cfg, st, side) then st.streamedBytes else |st.At(side).body|
  }

  /** How the plan of a body message treats its size: settled with the refusal and nothing moved, or a phase that cannot refuse. */
  ghost predicate PlansBySize(cfg: Config, st: Stream, side: Side, chunk: Bytes, plan: Plan) {
    if OverLimit(SaturatingAdd(Tally(cfg, st, side), |chunk|), cfg.maxBody) then
      && plan.Settle? && RefusedForSize(cfg, side, plan.outcome)
      && plan.outcome.st.streamedBytes == st.streamedBytes && plan.outcome.st.At(side).body == st.At(side).body
    else
      match plan
      case Settle(outcome) => outcome.result.Ok? && outcome.result.value.Answer?
      case FullRequest(st', phase, _, ordinary) => side.RequestSide? && phase.OverBody? && ordinary && st'.req.headersState.Active?
      case FilterChunk(_, side', _, _) => side.RequestSide? && side' == side
      case FullResponse(_, _, _) => side.ResponseSide?
      case _ => false
  }

  lemma RequestPlansBySize(cfg: Config, st: Stream, chunk: Bytes, eos: bool)
    requires Inv(cfg, st) && !Rejected(st, Body(RequestSide, chunk, eos)) && st.req.bodyState.Active?
    ensures PlansBySize(cfg, st, RequestSide, chunk, PlanFor(cfg, st, Body(RequestSide, chunk, eos)))
  {
    hide PlanFrame, HeadersCommon, BodyResponses, ResponseInv, RequestInv, HalfInv;
  }

  lemma ResponsePlansBySize(cfg: Config, st: Stream, chunk: Bytes, eos: bool)
    requires Inv(cfg, st) && !Rejected(st, Body(ResponseSide, chunk, eos)) && st.resp.bodyState.Active?
    requires Held(cfg, st, ResponseSide)
    ensures PlansBySize(cfg, st, ResponseSide, chunk, PlanFor(cfg, st, Body(ResponseSide, chunk, eos)))
  {
    hide PlanFrame, HeadersCommon, BodyResponses, OversizedRequest;
  }

  /** Without a hook call, a request phase halts only for the selected-upstream limit, with a text of its own. */
  lemma RequestHaltsElsewhere(cfg: Config, oracle: Oracle, st: Stream, eos: bool)
    requires st.req.headersState.Active?
    ensures !RefusedForSize(cfg, RequestSide, RunRequest(cfg, oracle, st, OverBody, eos, true))
  {
    hide CollectRequest, WithContentLength, BodyBatch, Hydrate, Dehydrate;
  }

  lemma ChunkHaltsInHook(cfg: Config, oracle: Oracle, st: Stream, chunk: Bytes, eos: bool)
    ensures !RefusedForSize(cfg, RequestSide, StreamedChunk(cfg, oracle, st, RequestSide, chunk, eos))
  {
    hide BodyResponses, HoldBack, Hydrate, Dehydrate;
  }

  /** On the step itself: refused exactly when the tally and the chunk exceed the ceiling. */
  lemma StepSizeVerdict(cfg: Config, oracle: Oracle, st: Stream, m: Message)
    requires Inv(cfg, st) && m.Body? && !Rejected(st, m) && st.At(m.side).bodyState.Active?
    requires m.side.ResponseSide? ==> Held(cfg, st, ResponseSide)
    ensures var o := Step(cfg, oracle, st, m);
            && (RefusedForSize(cfg, m.side, o) <==> OverLimit(SaturatingAdd(Tally(cfg, st, m.side), |m.body|), cfg.maxBody))
            && (RefusedForSize(cfg, m.side, o) ==>
                  o.st.streamedBytes == st.streamedBytes && o.st.At(m.side).body == st.At(m.side).body)
  {
    hide Inv, Rejected, HandlerPlan, RunRequest, RunResponse, StreamedChunk, PlanFrame;
    var plan := PlanFor(cfg, st, m);
    if m.side.RequestSide? {
      RequestPlansBySize(cfg, st, m.body, m.endOfStream);
      RequestPlansAreSound(cfg, st, m);
    } else {
      ResponsePlansBySize(cfg, st, m.body, m.endOfStream);
      ResponsePlansAreSound(cfg, st, m);
    }
    hide PlanFor;
    match plan
    case FullRequest(st', phase, eos, ordinary) => RequestHaltsElsewhere(cfg, oracle, st', eos);
    case FilterChunk(st', side, chunk, eos) => ChunkHaltsInHook(cfg, oracle, st', chunk, eos);
    case FullResponse(st', phase, eos) => ResponseThreads(oracle, st', phase, eos);
    case _ =>
  }

  /** A body message that a live run may receive next, whose bytes are checked against the ceiling on arrival. */
  ghost predicate Weighed(cfg: Config, start: Run, r: Run, m: Message) {
    && r.status.Running? && m.Body?
    && Allowed(Messages(r.log), m, start.st.At(m.side).mode) && !SeenBodyEnd(Messages(r.log), m.side)
    && (Counted(cfg, r.st, m.side) || Held(cfg, r.st, m.side) || Rewritten(r.st, m.side))
  }

  /**
   The verdict on the size of a message: by the bytes received, or for a BUFFERED request by
   what the filters left of them.
   */
  ghost predicate WeighedByBytes(cfg: Config, r: Run, next: Event)
    requires next.m.Body?
  {
    var m, o := next.m, Step(cfg, next.oracle, r.st, next.m);
    var before := if Rewritten(r.st, m.side) then RequestBuffer(r.log) else Received(Messages(r.log), m.side);
    && (cfg.maxBody.Some? && !Rewritten(r.st, m.side) ==> |before| <= cfg.maxBody.value)
    && (RefusedForSize(cfg, m.side, o) <==> cfg.maxBody.Some? && |before| + |m.body| > cfg.maxBody.value)
    && (RefusedForSize(cfg, m.side, o) ==>
          o.st.streamedBytes == r.st.streamedBytes && o.st.At(m.side).body == r.st.At(m.side).body)
  }

  /**
   For a ceiling below the largest machine word, a body message is refused exactly when the
   bytes received before it and its own exceed the ceiling, however they were cut into
   messages; everything before it was within the ceiling, and a refusal leaves counter and
   buffer as they were. A BUFFERED request, filtered after every message, is weighed by what
   the filters left.
   */
  lemma SizeVerdictIgnoresChunking(cfg: Config, start: Run, events: seq<Event>, next: Event)
    requires IsFresh(start) && (cfg.maxBody.Some? ==> cfg.maxBody.value < USIZE_MAX)
    ensures var r := RunFrom(cfg, start, events);
            Weighed(cfg, start, r, next.m) ==> WeighedByBytes(cfg, r, next)
  {
    hide Received, Seen, SeenTrailers, SeenHeadersEnd, SeenBodyEnd, Messages, Step, RunFrom, Inv, Rejected, HistoryKept,
         RequestBuffer, RefusedForSize;
    var r := RunFrom(cfg, start, events);
    if Weighed(cfg, start, r, next.m) {
      LiveRunsKeepInv(cfg, start, events);
      HistoryIsRemembered(cfg, start, events);
      DeliveryNeverChanges(cfg, start, events);
      TalliesAreExact(cfg, start, events, next.m.side);
      RejectedIffNotAllowed(cfg, r, next.m);
      FirstWhileOpen(cfg, r, next.m);
      StepSizeVerdict(cfg, next.oracle, r.st, next.m);
    }
  }

  lemma FirstWhileOpen(cfg: Config, r: Run, m: Message)
    requires Inv(cfg, r.st) && HistoryKept(r) && m.Body? && !Rejected(r.st, m) && !SeenBodyEnd(Messages(r.log), m.side)
    ensures r.st.At(m.side).bodyState.Active? && Opened(r.st.At(m.side))
  {
    hide SeenBodyEnd, Seen, SeenTrailers, SeenHeadersEnd, RequestInv, ResponseInv, LocalReplyInv;
  }

  // ---------------------------------------------------------------------------
  // Buffering STREAMED responses
  // ---------------------------------------------------------------------------

  /** The plan of a chunk of a filtered STREAMED response. */
  lemma ResponseChunkIsFiltered(cfg: Config, st: Stream, m: Message)
    requires Inv(cfg, st) && m.Body? && m.side.ResponseSide? && !Rejected(st, m) && st.resp.bodyState.Active?
    requires st.resp.mode.Streamed? && !PassesThrough(cfg, st, ResponseSide)
    ensures var plan := PlanFor(cfg, st, m);
            && plan.FilterChunk? && plan.side.ResponseSide? && plan.chunk == m.body && plan.eos == m.endOfStream
            && plan.st.carried == st.carried && plan.st.carried.Some? && plan.st.request.Some? && plan.st.response.Some?
            && plan.st.resp.body == st.resp.body
  {
    hide PlanFrame, HeadersCommon, BodyResponses;
  }

  /** The chunk handler refuses exactly what cannot be held, before any hook and without touching the held bytes. */
  lemma ChunkRefusedIff(cfg: Config, oracle: Oracle, st: Stream, chunk: Bytes, eos: bool)
    requires st.carried.Some? && st.request.Some? && st.response.Some?
    ensures var o := StreamedChunk(cfg, oracle, st, ResponseSide, chunk, eos);
            var mode, total := Parked(st.carried.value).responseBodyMode, SaturatingAdd(|st.resp.body|, |chunk|);
            && (RefusedForSize(cfg, ResponseSide, o)
                <==> mode.StreamBuffer? && (OverLimit(total, mode.maxBytes) || OverLimit(total, cfg.maxBody)))
            && (RefusedForSize(cfg, ResponseSide, o) ==> o.st.resp.body == st.resp.body)
  {
    hide BodyResponses, BodyStage, Dehydrate;
  }

  /** The buffering the hooks ask for after these exchanges. */
  function ModeAfterCalls(log: seq<Exchange>): FilterBodyMode {
    EndOf(FRESH, LoggedCalls(log)).responseBodyMode
  }

  /** A chunk that a live, filtered STREAMED response may receive next, with ceilings below the largest machine word. */
  ghost predicate WeighedForHolding(cfg: Config, start: Run, r: Run, m: Message) {
    && r.status.Running? && m.Body? && m.side.ResponseSide?
    && Allowed(Messages(r.log), m, start.st.resp.mode) && !SeenBodyEnd(Messages(r.log), ResponseSide)
    && r.st.resp.mode.Streamed? && !PassesThrough(cfg, r.st, ResponseSide)
    && (cfg.maxBody.Some? ==> cfg.maxBody.value < USIZE_MAX)
    && (ModeAfterCalls(r.log).StreamBuffer? && ModeAfterCalls(r.log).maxBytes.Some? ==> ModeAfterCalls(r.log).maxBytes.value < USIZE_MAX)
  }

  /** Refused exactly when the hooks ask to buffer and the held bytes with the chunk exceed one of the two ceilings. */
  ghost predicate WeighedByHeld(cfg: Config, r: Run, next: Event)
    requires next.m.Body?
  {
    var o, mode := Step(cfg, next.oracle, r.st, next.m), ModeAfterCalls(r.log);
    var total := |HeldAfter(r.log)| + |next.m.body|;
    && (RefusedForSize(cfg, ResponseSide, o)
        <==> mode.StreamBuffer? && (OverLimit(total, mode.maxBytes) || OverLimit(total, cfg.maxBody)))
    && (RefusedForSize(cfg, ResponseSide, o) ==> o.st.resp.body == HeldAfter(r.log))
  }

  /**
   A STREAMED response that buffers: a chunk is refused exactly when the bytes held and its own
   exceed the ceiling the hooks asked for or the server's, however they were cut; the held bytes
   stay as they were. A response that does not buffer is never refused for its size.
   */
  lemma HoldingVerdictIgnoresChunking(cfg: Config, start: Run, events: seq<Event>, next: Event)
    requires IsFresh(start)
    ensures var r := RunFrom(cfg, start, events);
            WeighedForHolding(cfg, start, r, next.m) ==> WeighedByHeld(cfg, r, next)
  {
    hide Seen, SeenTrailers, SeenHeadersEnd, SeenBodyEnd, Messages, Step, RunFrom, Inv, Rejected, HistoryKept, HeldAfter,
         RefusedForSize, LoggedCalls, Parked, ForwardsFilterOutput, OneContext, EndOf;
    var r := RunFrom(cfg, start, events);
    if WeighedForHolding(cfg, start, r, next.m) {
      LiveRunsKeepInv(cfg, start, events);
      HistoryIsRemembered(cfg, start, events);
      DeliveryNeverChanges(cfg, start, events);
      RejectedIffNotAllowed(cfg, r, next.m);
      FirstWhileOpen(cfg, r, next.m);
      LiveIsFinished(cfg, start, events);
      ContextIsOneLongLivedValue(cfg, start, events);
      StreamedRepliesRefineFilters(cfg, start, events, ResponseSide);
      assert AllCalls(r) == LoggedCalls(r.log);
      ResponseChunkIsFiltered(cfg, r.st, next.m);
      var plan := PlanFor(cfg, r.st, next.m);
      BodyStepExecutes(cfg, next.oracle, r.st, next.m);
      ChunkRefusedIff(cfg, next.oracle, plan.st, next.m.body, next.m.endOfStream);
    }
  }

  /** A body step is its phase: nothing is left to finish. */
  lemma BodyStepExecutes(cfg: Config, oracle: Oracle, st: Stream, m: Message)
    requires m.Body?
    ensures Step(cfg, oracle, st, m) == Execute(cfg, oracle, PlanFor(cfg, st, m))
  {
    hide PlanFor, Execute;
  }
}
