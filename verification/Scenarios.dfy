/**
 Concrete streams that show where a property stops holding. Each one stands beside the theorem
 that gives the exact condition.
 */
module Scenarios {
  import opened Wire
  import opened HeaderMaps
  import opened Filters
  import opened Guardrails
  import opened Sequencing
  import opened Chunking
  import opened StreamSpec
  import opened Effects
  import opened Invariant
  import opened Steps
  import opened Runs
  import opened Grammar
  import opened BodyFlow
  import opened Conservation
  import opened Streaming
  import opened Limits
  import opened HeaderFlow
  import opened HeaderDelivery

  // ---------------------------------------------------------------------------
  // Filters and settings
  // ---------------------------------------------------------------------------

  const NO_HEADERS: HeaderMap := HeaderMap([], map[])

  /** A filter that lets bytes through, asks for a response body mode, and sets the response headers. */
  function Asking(mode: FilterBodyMode, headers: HeaderMap): Oracle {
    (kind, ctx: Context, data: Option<Bytes>, eos) =>
      Returned(ctx.shared.(responseBodyMode := mode), headers, ctx.edits, data, Proceed)
  }

  /** No limits, no guardrails, body filters in both directions or in none. */
  function Plain(filtersBodies: bool): Config {
    Config(Capabilities(filtersBodies, filtersBodies, false, false, 0, Stream), None, DISABLED)
  }

  /** A run of one more event, when it stays alive. */
  lemma RunGrows(cfg: Config, start: Run, events: seq<Event>, e: Event)
    requires RunFrom(cfg, start, events).status.Running?
    ensures var r := RunFrom(cfg, start, events);
            var o := Step(cfg, e.oracle, r.st, e.m);
            var r' := RunFrom(cfg, start, events + [e]);
            Proceeds(o) ==> r'.status.Running? && r'.st == o.st && r'.log == r.log + [Exchange(e.m, o.result.value, o.calls)]
                            && r'.unfinished == NO_CALLS
  {
    hide Step;
    assert (events + [e])[..|events|] == events;
  }

  // ---------------------------------------------------------------------------
  // BUFFERED requests
  // ---------------------------------------------------------------------------

  /** A BUFFERED request after its headers, or between two of its bodies. */
  predicate OpenBufferedRequest(st: Stream) {
    && st.carried.Some? && st.request == Some([]) && st.req.mode.Buffered? && st.req.headersState.Active? && st.req.bodyState.Active?
    && (st.req.furthest == Some(HeadersStep) || st.req.furthest == Some(BodyStep)) && !st.localReply
    && st.resp == NewHalf(st.resp.mode) && st.response.None?
  }

  lemma BufferedRequestOpens(oracle: Oracle, mode: BodyMode)
    ensures var o := Step(Plain(false), oracle, NewStream(Buffered, mode, false), Headers(RequestSide, [], false));
            && Proceeds(o) && OpenBufferedRequest(o.st) && o.st.resp.mode == mode
            && o.result.value == HeadersOnly(HeadersCommon(RequestSide, None))
  {
    hide PlanFrame, HeadersCommon;
    assert Admitted([]);
  }

  /** Such filters never stop a request phase. */
  lemma RequestHooksGo(s0: Stage, executed: bool)
    requires s0.verdict.Go?
    ensures RequestStage(Plain(false), Asking(Stream, NO_HEADERS), s0, executed, OverBody, true).verdict.Go?
  {
  }

  lemma RequestPhaseProceeds(st: Stream, eos: bool)
    requires st.request.Some? && st.carried.Some? && st.req.headersState.Active?
    ensures Proceeds(RunRequest(Plain(false), Asking(Stream, NO_HEADERS), st, OverBody, eos, true))
  {
    hide RequestStage, HeaderStage, CollectRequest, WithContentLength, BodyResponses, Hydrate, Dehydrate;
    RequestHooksGo(StartStage(st, None, st.req.body), st.req.executed);
  }

  lemma RequestPhaseGoes(st: Stream, eos: bool)
    requires st.request.Some? && st.carried.Some? && st.req.headersState.Active?
    ensures var o := RunRequest(Plain(false), Asking(Stream, NO_HEADERS), st, OverBody, eos, true);
            Proceeds(o) && o.st.carried.Some? && RequestState(st, OverBody, o)
  {
    hide RunRequest, RequestState, Chained, ChainEnd, Parked;
    RequestPhaseProceeds(st, eos);
    RequestThreads(Plain(false), Asking(Stream, NO_HEADERS), st, OverBody, eos, true);
    RequestStateIs(Plain(false), Asking(Stream, NO_HEADERS), st, OverBody, eos, true);
  }

  /** The state a body message of an open BUFFERED request hands to the pipeline. */
  function Accumulated(st: Stream, chunk: Bytes, eos: bool): Stream {
    st.(bufferedProcessed := true,
        req := st.req.(furthest := Some(BodyStep), bodySeen := true, body := st.req.body + chunk,
                       bodyState := if eos then Completed else st.req.bodyState))
  }

  lemma BufferedBodyRunsPipeline(oracle: Oracle, st: Stream, chunk: Bytes, eos: bool)
    requires OpenBufferedRequest(st)
    ensures Step(Plain(false), oracle, st, Body(RequestSide, chunk, eos))
            == RunRequest(Plain(false), oracle, Accumulated(st, chunk, eos), OverBody, eos, true)
  {
    hide PlanFrame, HeadersCommon, BodyResponses, RunRequest;
  }

  lemma BufferedRequestContinues(st: Stream, chunk: Bytes, eos: bool)
    requires OpenBufferedRequest(st)
    ensures var o := Step(Plain(false), Asking(Stream, NO_HEADERS), st, Body(RequestSide, chunk, eos));
            Proceeds(o) && o.st.req.mode.Buffered? && !o.st.localReply && (!eos ==> OpenBufferedRequest(o.st))
  {
    hide Step, RunRequest;
    BufferedBodyRunsPipeline(Asking(Stream, NO_HEADERS), st, chunk, eos);
    RequestPhaseGoes(Accumulated(st, chunk, eos), eos);
  }

  /**
   A BUFFERED request in two messages is filtered twice, each time as if the body ended there:
   two end-of-stream calls for one body.
   */
  lemma TwoBuffersTwoFinalCalls(a: Bytes, b: Bytes)
    ensures var filter := Asking(Stream, NO_HEADERS);
            var events := [Event(Headers(RequestSide, [], false), filter), Event(Body(RequestSide, a, false), filter),
                           Event(Body(RequestSide, b, true), filter)];
            var r := RunFrom(Plain(false), Fresh(Buffered, Buffered, false), events);
            r.status.Running? && Count(AllCalls(r), FinalOf(RequestSide)) == 2
  {
    hide Step, AllCalls, FinalCallsKept, OpenBufferedRequest;
    var cfg, start, filter := Plain(false), Fresh(Buffered, Buffered, false), Asking(Stream, NO_HEADERS);
    var e0, e1, e2 := Event(Headers(RequestSide, [], false), filter), Event(Body(RequestSide, a, false), filter),
                      Event(Body(RequestSide, b, true), filter);
    BufferedRequestOpens(filter, Buffered);
    RunGrows(cfg, start, [], e0);
    assert [] + [e0] == [e0] && [e0] + [e1] == [e0, e1] && [e0, e1] + [e2] == [e0, e1, e2];
    BufferedRequestContinues(RunFrom(cfg, start, [e0]).st, a, false);
    RunGrows(cfg, start, [e0], e1);
    BufferedRequestContinues(RunFrom(cfg, start, [e0, e1]).st, b, true);
    RunGrows(cfg, start, [e0, e1], e2);
    var r := RunFrom(cfg, start, [e0, e1, e2]);
    FinalCallsAreDue(cfg, start, [e0, e1, e2], RequestSide);
    DueIsCounted(cfg, r, RequestSide);
    assert Messages(r.log) == [e0.m, e1.m, e2.m];
    CountThree(e0.m, e1.m, e2.m, BodyOn(RequestSide));
    hide RunFrom, Count;
  }

  lemma CountThree<T>(x: T, y: T, z: T, p: T -> bool)
    ensures Count([x, y, z], p) == (if p(x) then 1 else 0) + (if p(y) then 1 else 0) + (if p(z) then 1 else 0)
  {
    assert [x, y, z] == [x] + [y] + [z];
    CountConcat([x] + [y], [z], p);
    CountConcat([x], [y], p);
    CountOne(x, p);
    CountOne(y, p);
    CountOne(z, p);
  }

  // ---------------------------------------------------------------------------
  // BUFFERED responses
  // ---------------------------------------------------------------------------

  /** One header that the response did not have. */
  const ONE_HEADER: HeaderMap := (assert Lower("x") == "x"; HeaderMap(["x"], map["x" := ["1"]]))

  /** A BUFFERED response whose header filters ran on arrival and left `h`. */
  predicate ParkedResponse(st: Stream, h: HeaderMap) {
    && st.carried.Some? && st.request.Some? && !st.localReply && st.req.furthest.Some? && st.response == Some(h)
    && st.resp == NewHalf(Buffered).(furthest := Some(HeadersStep), executed := true, deferred := Diff(h, NO_HEADERS))
  }

  /** Response headers of a request in progress, as they reach the plan that opens the response. */
  function ResponseArrived(st: Stream, headers: HeaderMap): Stream {
    st.(response := Some(headers), resp := st.resp.(furthest := Some(HeadersStep)))
  }

  lemma ResponseHeadersOpen(cfg: Config, oracle: Oracle, st: Stream)
    requires !st.localReply && st.req.furthest.Some? && st.resp == NewHalf(st.resp.mode)
    ensures Step(cfg, oracle, st, Headers(ResponseSide, [], false))
            == Execute(cfg, oracle, OpenResponsePlan(cfg, ResponseArrived(st, NO_HEADERS)))
  {
    hide PlanFrame, Execute, OpenResponsePlan;
    assert FromEnvoy([]) == NO_HEADERS;
  }

  lemma BufferedResponseOpens(st: Stream, h: HeaderMap)
    requires OpenBufferedRequest(st) && st.resp.mode.Buffered?
    ensures var o := Step(Plain(false), Asking(Stream, h), st, Headers(ResponseSide, [], false));
            && Proceeds(o) && ParkedResponse(o.st, h)
            && o.result.value == HeadersOnly(HeadersCommon(ResponseSide, None))
  {
    hide Step, PlanFrame, HeadersCommon, Diff, Dehydrate;
    ResponseHeadersOpen(Plain(false), Asking(Stream, h), st);
  }

  /** Such filters never stop a response phase over a body. */
  lemma ResponseHooksGo(s0: Stage, h: HeaderMap, executed: bool)
    requires s0.verdict.Go? && s0.ctx.response.Some?
    ensures var s := ResponseStage(Asking(Stream, h), s0, executed, OverBody);
            && s.verdict.Go? && s.calls.body.Some?
            && s.calls.body.value.after.response == Some(h) && s.calls.body.value.produced == s0.body
  {
  }

  lemma ResponsePhaseProceeds(st: Stream, h: HeaderMap, eos: bool)
    requires st.request.Some? && st.response.Some? && st.carried.Some?
    ensures var o := RunResponse(Asking(Stream, h), st, OverBody, eos);
            && Proceeds(o) && o.calls.body.Some?
            && o.calls.body.value.after.response == Some(h) && o.calls.body.value.produced == st.resp.body
  {
    hide ResponseStage, HeaderStage, CollectResponse, WithContentLength, BodyResponses, Merge, Dehydrate;
    ResponseHooksGo(StartStage(st, st.response, st.resp.body), h, st.resp.executed);
  }

  lemma ResponsePhaseGoes(st: Stream, h: HeaderMap, eos: bool)
    requires st.request.Some? && st.response.Some? && st.carried.Some?
    ensures var o := RunResponse(Asking(Stream, h), st, OverBody, eos);
            && Proceeds(o) && ResponseState(st, OverBody, o)
            && o.calls.body.Some? && o.calls.body.value.after.response == Some(h) && o.calls.body.value.produced == st.resp.body
  {
    hide RunResponse, ResponseState;
    ResponsePhaseProceeds(st, h, eos);
    ResponseStateIs(Asking(Stream, h), st, OverBody, eos);
  }

  lemma ClosingRunsPipeline(st: Stream, h: HeaderMap, oracle: Oracle, m: Message)
    requires ParkedResponse(st, h) && (m == Trailers(ResponseSide) || m == Body(ResponseSide, [], true))
    ensures var half := st.resp.(furthest := Some(StepOf(m)), bodyState := Completed, bodySeen := m.Body?);
            var o := RunResponse(oracle, st.(resp := half), OverBody, m.Body?);
            Step(Plain(false), oracle, st, m) == if m.Body? then o else FinishTrailers(Plain(false), ResponseSide, o)
  {
    hide PlanFrame, HeadersCommon, BodyResponses, RunResponse, Diff, FinishTrailers;
    assert st.resp.body + [] == [];
  }

  lemma BufferedResponseCloses(st: Stream, h: HeaderMap, last: HeaderMap, m: Message)
    requires ParkedResponse(st, h) && (m == Trailers(ResponseSide) || m == Body(ResponseSide, [], true))
    ensures var o := Step(Plain(false), Asking(Stream, last), st, m);
            && Proceeds(o) && o.st.resp.bodyState.Completed?
            && o.calls.body.Some? && o.calls.body.value.after.response == Some(last) && o.calls.body.value.produced == []
  {
    hide Step, RunResponse, Diff;
    ClosingRunsPipeline(st, h, Asking(Stream, last), m);
    var half := st.resp.(furthest := Some(StepOf(m)), bodyState := Completed, bodySeen := m.Body?);
    ResponsePhaseGoes(st.(resp := half), last, m.Body?);
  }

  /** The three messages of a BUFFERED exchange whose response hook adds a header. */
  function BufferedEvents(close: Message, last: HeaderMap): seq<Event> {
    [Event(Headers(RequestSide, [], false), Asking(Stream, NO_HEADERS)),
     Event(Headers(ResponseSide, [], false), Asking(Stream, ONE_HEADER)),
     Event(close, Asking(Stream, last))]
  }

  /** The first two messages leave the added header parked, and their replies carry nothing. */
  lemma HeaderIsParked(close: Message, last: HeaderMap)
    ensures var events := BufferedEvents(close, last);
            var r := RunFrom(Plain(false), Fresh(Buffered, Buffered, false), events[..2]);
            && r.status.Running? && r.unfinished == NO_CALLS && ParkedResponse(r.st, ONE_HEADER)
            && r.st.resp.deferred.Some?
            && Sent(r.log) == [Reply(HeadersReply(RequestSide, HeadersCommon(RequestSide, None)), None),
                               Reply(HeadersReply(ResponseSide, HeadersCommon(ResponseSide, None)), None)]
            && Messages(r.log) == [events[0].m, events[1].m]
  {
    hide Step, RunFrom, Render, HeadersCommon, Diff, OpenBufferedRequest, ParkedResponse, Sent, Messages;
    var cfg, start, events := Plain(false), Fresh(Buffered, Buffered, false), BufferedEvents(close, last);
    var e0, e1 := events[0], events[1];
    assert [] + [e0] == [e0] && [e0] + [e1] == [e0, e1] && events[..2] == [e0, e1];
    NothingYet(cfg, start);
    BufferedRequestOpens(e0.oracle, Buffered);
    RunGrows(cfg, start, [], e0);
    var r1 := RunFrom(cfg, start, [e0]);
    BufferedResponseOpens(r1.st, ONE_HEADER);
    RunGrows(cfg, start, [e0], e1);
    var r2 := RunFrom(cfg, start, [e0, e1]);
    HeaderWasAdded(r2.st);
    TwoExchanges(r2.log, r1.log[0], r2.log[1]);
    RenderedHeaders(RequestSide);
    RenderedHeaders(ResponseSide);
  }

  lemma TwoExchanges(log: seq<Exchange>, x: Exchange, y: Exchange)
    requires log == [x, y]
    ensures Sent(log) == Render(x.m.side, x.batch) + Render(y.m.side, y.batch) && Messages(log) == [x.m, y.m]
  {
    hide Render;
    SentGrows([], x);
    SentGrows([x], y);
    assert [] + [x] == [x] && [x] + [y] == log;
  }

  lemma HeaderWasAdded(st: Stream)
    requires ParkedResponse(st, ONE_HEADER)
    ensures st.resp.deferred.Some?
  {
    hide Diff;
    DiffAbsent(ONE_HEADER, NO_HEADERS);
    assert "x" in ONE_HEADER.fields;
  }

  lemma RenderedHeaders(side: Side)
    ensures Render(side, HeadersOnly(HeadersCommon(side, None))) == [Reply(HeadersReply(side, HeadersCommon(side, None)), None)]
  {
  }

  /** The last step of such an exchange, from the run that precedes it. */
  lemma BufferedExchangeCloses(close: Message, last: HeaderMap)
    requires close == Trailers(ResponseSide) || close == Body(ResponseSide, [], true)
    ensures var cfg, start, events := Plain(false), Fresh(Buffered, Buffered, false), BufferedEvents(close, last);
            var r, r' := RunFrom(cfg, start, events[..2]), RunFrom(cfg, start, events);
            var o := Step(cfg, events[2].oracle, r.st, close);
            && r.status.Running? && ParkedResponse(r.st, ONE_HEADER) && Proceeds(o) && o.st.resp.bodyState.Completed?
            && o.calls.body.Some? && o.calls.body.value.after.response == Some(last) && o.calls.body.value.produced == []
            && r'.status.Running? && r'.st == o.st && r'.log == r.log + [Exchange(close, o.result.value, o.calls)]
            && Sent(r'.log) == Sent(r.log) + Render(ResponseSide, o.result.value)
  {
    hide Step, Render, Diff, HeadersCommon;
    var cfg, start, events := Plain(false), Fresh(Buffered, Buffered, false), BufferedEvents(close, last);
    HeaderIsParked(close, last);
    var r := RunFrom(cfg, start, events[..2]);
    BufferedResponseCloses(r.st, ONE_HEADER, last, close);
    RunGrows(cfg, start, events[..2], events[2]);
    assert events[..2] + [events[2]] == events;
    var o := Step(cfg, events[2].oracle, r.st, close);
    SentGrows(r.log, Exchange(close, o.result.value, o.calls));
  }

  predicate Mutates(reply: Reply) {
    (reply.payload.HeadersReply? || reply.payload.BodyReply?) && reply.payload.common.headerMutation.Some?
  }

  /**
   A BUFFERED response closed by trailers: the response hook added a header, the stream lives
   on, and no reply ever carried a header mutation.
   */
  lemma TrailersDropTheHeader()
    ensures var cfg, start, events := Plain(false), Fresh(Buffered, Buffered, false), BufferedEvents(Trailers(ResponseSide), ONE_HEADER);
            var r, r' := RunFrom(cfg, start, events[..2]), RunFrom(cfg, start, events);
            && HeaderCall(r, ResponseSide).Some? && MutationOf(ResponseSide, HeaderCall(r, ResponseSide).value).Some?
            && r'.status.Running? && Closed(r'.st.resp) && r'.st.resp.deferred.None?
            && forall reply :: reply in Sent(r'.log) ==> !Mutates(reply)
  {
    hide Step, Render, Diff, RunFrom, HeaderCall, MutationOf, Delivers, AffectsRouting;
    var cfg, start, events := Plain(false), Fresh(Buffered, Buffered, false), BufferedEvents(Trailers(ResponseSide), ONE_HEADER);
    BufferedExchangeCloses(Trailers(ResponseSide), ONE_HEADER);
    HeaderIsParked(Trailers(ResponseSide), ONE_HEADER);
    ParkedMutationIsCarriedIff(cfg, start, events[..2], events[2]);
    RenderedAck();
  }

  lemma RenderedAck()
    ensures Render(ResponseSide, NOTHING.(trailers := true)) == [Reply(TrailersReply(ResponseSide), None)]
  {
  }

  /**
   A BUFFERED response closed by a body message whose hook drops the header that the response
   hook had added: the merged mutation Envoy gets still sets it.
   */
  lemma DroppedHeaderSurvives()
    ensures var cfg, start := Plain(false), Fresh(Buffered, Buffered, false);
            var events := BufferedEvents(Body(ResponseSide, [], true), NO_HEADERS);
            var r := RunFrom(cfg, start, events);
            && r.status.Running? && |r.log| == 3 && r.log[2].batch.Answer? && |r.log[2].batch.bodies| == 1
            && r.log[2].calls.body.Some? && r.log[2].calls.body.value.after.response == Some(NO_HEADERS)
            && Apply(FromEnvoy([]).fields, r.log[2].batch.bodies[0].headerMutation) != NO_HEADERS.fields
  {
    hide Step, Render, Diff, RunFrom, HeaderCall, HeadersReceived, HeadersSent, BufferedMutation, AffectsRouting, Received;
    var m := Body(ResponseSide, [], true);
    var cfg, start, events := Plain(false), Fresh(Buffered, Buffered, false), BufferedEvents(m, NO_HEADERS);
    var r := RunFrom(cfg, start, events[..2]);
    var o := Step(cfg, events[2].oracle, r.st, m);
    BufferedExchangeCloses(m, NO_HEADERS);
    HeaderIsParked(m, NO_HEADERS);
    assert |r.log| == |Messages(r.log)|;
    BufferedResponseDeliversAtEnd(cfg, start, events[..2], events[2]);
    MutationIsParkedOrSent(cfg, start, events[..2], ResponseSide);
    TalliesAreExact(cfg, start, events[..2], ResponseSide);
    BufferedMutationReachesFinal(NO_HEADERS, ONE_HEADER, NO_HEADERS, [], 0);
    assert "x" in ONE_HEADER.fields && "x" !in NO_HEADERS.fields && Changed(ONE_HEADER.fields, NO_HEADERS.fields, "x");
    HeadersReceivedAre(r, events[0].m, events[1].m);
    assert FromEnvoy([]) == NO_HEADERS && r.st.resp.body + [] == [];
    assert LastHeaders(ONE_HEADER, o.calls) == NO_HEADERS;
    assert CarriesBoth(r, m, o);
  }

  lemma HeadersReceivedAre(r: Run, a: Message, b: Message)
    requires Messages(r.log) == [a, b] && b.Headers? && b.side.ResponseSide?
    ensures HeadersReceived(r, ResponseSide) == Some(b)
  {
  }

  // ---------------------------------------------------------------------------
  // STREAMED responses
  // ---------------------------------------------------------------------------

  /** A live STREAMED exchange between two messages: the request is open and the hooks want `mode`. */
  predicate StreamingExchange(st: Stream, mode: FilterBodyMode) {
    && st.carried.Some? && Parked(st.carried.value).responseBodyMode == mode && st.request == Some([]) && !st.localReply
    && st.req.mode.Streamed? && st.req.headersState.Active? && st.req.bodyState.Active?
    && (st.req.furthest == Some(HeadersStep) || st.req.furthest == Some(BodyStep))
  }

  /** Its response is open and holds some bytes. */
  predicate HoldingResponse(st: Stream, held: Bytes) {
    && st.response.Some? && st.resp.mode.Streamed? && st.resp.headersState.Active? && st.resp.bodyState.Active?
    && (st.resp.furthest == Some(HeadersStep) || st.resp.furthest == Some(BodyStep)) && st.resp.body == held
  }

  lemma StreamingRequestRunsEarly(oracle: Oracle)
    ensures var st := NewStream(Streamed, Streamed, false);
            var half := st.req.(furthest := Some(HeadersStep), sent := true);
            var o := EarlyRequest(oracle, st.(request := Some([]), req := half), Send);
            Step(Plain(true), oracle, st, Headers(RequestSide, [], false)) == FinishRequestHeaders(Plain(true), [], false, o)
  {
    hide PlanFrame, EarlyRequest, FinishRequestHeaders;
    assert Admitted([]);
  }

  lemma StreamingRequestOpens()
    ensures var o := Step(Plain(true), Asking(Stream, NO_HEADERS), NewStream(Streamed, Streamed, false), Headers(RequestSide, [], false));
            Proceeds(o) && StreamingExchange(o.st, Stream) && o.st.resp == NewHalf(Streamed)
  {
    hide Step, HeadersCommon, CollectRequest;
    StreamingRequestRunsEarly(Asking(Stream, NO_HEADERS));
  }

  lemma StreamingResponseOpens(st: Stream)
    requires StreamingExchange(st, Stream) && st.resp == NewHalf(Streamed)
    ensures var o := Step(Plain(true), Asking(StreamBuffer(None), NO_HEADERS), st, Headers(ResponseSide, [], false));
            Proceeds(o) && StreamingExchange(o.st, StreamBuffer(None)) && HoldingResponse(o.st, []) && o.calls.body.None?
  {
    hide Step, PlanFrame, HeadersCommon, Diff;
    ResponseHeadersOpen(Plain(true), Asking(StreamBuffer(None), NO_HEADERS), st);
  }

  /** The state a chunk of an open STREAMED direction hands to the chunk handler. */
  function Arrived(st: Stream, side: Side, chunk: Bytes, eos: bool): Stream {
    var half := st.At(side).(furthest := Some(BodyStep), bodySeen := true, bodyState := if eos then Completed else st.At(side).bodyState);
    st.With(side, half).(streamedBytes := if side.RequestSide? then SaturatingAdd(st.streamedBytes, |chunk|) else st.streamedBytes)
  }

  lemma RequestChunkIsStreamed(oracle: Oracle, st: Stream, mode: FilterBodyMode, chunk: Bytes, eos: bool)
    requires StreamingExchange(st, mode)
    ensures Step(Plain(true), oracle, st, Body(RequestSide, chunk, eos))
            == StreamedChunk(Plain(true), oracle, Arrived(st, RequestSide, chunk, eos), RequestSide, chunk, eos)
  {
    hide PlanFrame, HeadersCommon, BodyResponses, StreamedChunk, Parked;
  }

  lemma ResponseChunkIsStreamed(oracle: Oracle, st: Stream, mode: FilterBodyMode, held: Bytes, chunk: Bytes, eos: bool)
    requires StreamingExchange(st, mode) && HoldingResponse(st, held)
    ensures Step(Plain(true), oracle, st, Body(ResponseSide, chunk, eos))
            == StreamedChunk(Plain(true), oracle, Arrived(st, ResponseSide, chunk, eos), ResponseSide, chunk, eos)
  {
    hide PlanFrame, HeadersCommon, BodyResponses, StreamedChunk, Parked;
  }

  lemma ResponseChunkIsHeld(st: Stream, chunk: Bytes)
    requires StreamingExchange(st, StreamBuffer(None)) && HoldingResponse(st, [])
    ensures var o := Step(Plain(true), Asking(Stream, NO_HEADERS), st, Body(ResponseSide, chunk, false));
            Proceeds(o) && StreamingExchange(o.st, StreamBuffer(None)) && HoldingResponse(o.st, chunk) && o.calls.body.None?
  {
    hide Step, BodyResponses;
    assert [] + chunk == chunk;
    ResponseChunkIsStreamed(Asking(Stream, NO_HEADERS), st, StreamBuffer(None), [], chunk, false);
  }

  lemma RequestHookChangesMode(st: Stream, mode: FilterBodyMode, next: FilterBodyMode, held: Bytes, chunk: Bytes)
    requires StreamingExchange(st, mode) && HoldingResponse(st, held) && chunk != []
    ensures var o := Step(Plain(true), Asking(next, NO_HEADERS), st, Body(RequestSide, chunk, false));
            Proceeds(o) && StreamingExchange(o.st, next) && HoldingResponse(o.st, held)
  {
    hide Step, BodyResponses;
    RequestChunkIsStreamed(Asking(next, NO_HEADERS), st, mode, chunk, false);
  }

  lemma LastChunkGoesAlone(st: Stream, held: Bytes, chunk: Bytes)
    requires StreamingExchange(st, Stream) && HoldingResponse(st, held)
    ensures var o := Step(Plain(true), Asking(Stream, NO_HEADERS), st, Body(ResponseSide, chunk, true));
            && Proceeds(o) && o.st.resp.bodyState.Completed? && o.st.resp.mode.Streamed? && !o.st.localReply && o.st.resp.body == held
            && o.calls.body.Some? && o.calls.body.value.data == Some(chunk)
  {
    hide Step, BodyResponses;
    ResponseChunkIsStreamed(Asking(Stream, NO_HEADERS), st, Stream, held, chunk, true);
  }

  /** Response chunk `a` is buffered, a request hook stops the buffering, and `b` ends the response. */
  function StrandingEvents(a: Bytes, b: Bytes): seq<Event> {
    var asking := Asking(Stream, NO_HEADERS);
    [Event(Headers(RequestSide, [], false), asking),
     Event(Headers(ResponseSide, [], false), Asking(StreamBuffer(None), NO_HEADERS)),
     Event(Body(ResponseSide, a, false), asking),
     Event(Body(RequestSide, "x", false), asking),
     Event(Body(ResponseSide, b, true), asking)]
  }

  /**
   Bytes can be stranded: a hook of the other direction stops the buffering while bytes are
   held, the last chunk goes to the filters alone, and the held bytes never do.
   */
  lemma HeldBytesAreStranded(a: Bytes, b: Bytes)
    requires a != []
    ensures var r := RunFrom(Plain(true), Fresh(Streamed, Streamed, false), StrandingEvents(a, b));
            && r.status.Running? && FilteredToTheEnd(Plain(true), r.st) && Stranded(r.log)
            && r.st.resp.body == HeldAfter(r.log) == a
            && multiset(Given(r.log)) != multiset(Received(Messages(r.log), ResponseSide))
  {
    hide Step, Given, HeldAfter, Received, Messages, LoggedCalls, ForwardsFilterOutput, InOrder;
    var cfg, start, es := Plain(true), Fresh(Streamed, Streamed, false), StrandingEvents(a, b);
    HoldingPrefix(a, b);
    var r, r' := RunFrom(cfg, start, es[..4]), RunFrom(cfg, start, es);
    LastChunkGoesAlone(r.st, a, b);
    RunGrows(cfg, start, es[..4], es[4]);
    assert es[..4] + [es[4]] == es;
    ContextIsOneLongLivedValue(cfg, start, es[..4]);
    LiveIsFinished(cfg, start, es[..4]);
    BufferingIsLogged(r, ResponseSide);
    StreamedRepliesRefineFilters(cfg, start, es[..4], ResponseSide);
    StreamedRepliesRefineFilters(cfg, start, es, ResponseSide);
    EveryResponseByteIsAccounted(cfg, start, es);
    var o := Step(cfg, es[4].oracle, r.st, es[4].m);
    AccountGrows(r.log, Exchange(es[4].m, o.result.value, o.calls));
    hide RunFrom, ContextKept;
  }

  /** A chunk goes to the filters at once, past the held bytes. */
  lemma ChunkGoesAhead(st: Stream, held: Bytes, chunk: Bytes)
    requires StreamingExchange(st, Stream) && HoldingResponse(st, held) && chunk != []
    ensures var o := Step(Plain(true), Asking(Stream, NO_HEADERS), st, Body(ResponseSide, chunk, false));
            && Proceeds(o) && StreamingExchange(o.st, Stream) && HoldingResponse(o.st, held)
            && o.calls.body.Some? && o.calls.body.value.data == Some(chunk) && o.calls.body.value.produced == chunk
  {
    hide Step, BodyResponses;
    ResponseChunkIsStreamed(Asking(Stream, NO_HEADERS), st, Stream, held, chunk, false);
  }

  /** An empty last chunk takes the held bytes to the filters. */
  lemma LastChunkTakesHeld(st: Stream, held: Bytes)
    requires StreamingExchange(st, StreamBuffer(None)) && HoldingResponse(st, held)
    ensures var o := Step(Plain(true), Asking(Stream, NO_HEADERS), st, Body(ResponseSide, [], true));
            && Proceeds(o) && o.st.resp.bodyState.Completed? && o.st.resp.furthest == Some(BodyStep)
            && o.st.resp.mode.Streamed? && !o.st.localReply && o.st.resp.body == []
            && o.calls.body.Some? && o.calls.body.value.data == Some(held) && o.calls.body.value.produced == held
  {
    hide Step, BodyResponses;
    assert held + [] == held;
    ResponseChunkIsStreamed(Asking(Stream, NO_HEADERS), st, StreamBuffer(None), held, [], true);
  }

  /** What one more event adds to the record of the response. */
  lemma RecordGrows(cfg: Config, start: Run, events: seq<Event>, e: Event)
    requires IsFresh(start) && RunFrom(cfg, start, events).status.Running?
    requires Proceeds(Step(cfg, e.oracle, RunFrom(cfg, start, events).st, e.m))
    ensures var r, r' := RunFrom(cfg, start, events), RunFrom(cfg, start, events + [e]);
            var calls := Step(cfg, e.oracle, r.st, e.m).calls;
            && r'.status.Running? && r'.st == Step(cfg, e.oracle, r.st, e.m).st
            && Given(r'.log) == Given(r.log)
               + (if e.m.side.ResponseSide? && calls.body.Some? && calls.body.value.data.Some? then calls.body.value.data.value else [])
            && Produced(r'.log, ResponseSide) == Produced(r.log, ResponseSide)
               + (if e.m.side.ResponseSide? && calls.body.Some? then calls.body.value.produced else [])
            && Received(Messages(r'.log), ResponseSide) == Received(Messages(r.log), ResponseSide)
               + (if e.m.side.ResponseSide? && e.m.Body? && r.st.resp.bodyState.Active? then e.m.body else [])
            && (InOrder(r'.log) ==> InOrder(r.log) && !(Overtakes(r.log, e.m) && e.m.body != []))
  {
    hide Step, Given, Produced, Received, Messages, InOrder, HeldAfter, Overtakes, SeenBodyEnd, Inv, StepGood, FlowOk,
         HistoryKept;
    var r := RunFrom(cfg, start, events);
    var o := Step(cfg, e.oracle, r.st, e.m);
    RunGrows(cfg, start, events, e);
    assert (events + [e])[..|events|] == events;
    LastStep(cfg, start, events + [e]);
    var r' := RunFrom(cfg, start, events + [e]);
    hide RunFrom;
    FirstIffNotEnded(cfg, r, e.m, o, r');
    BothEndsGrow(r, e.m, o.result.value, o.calls, ResponseSide);
    AccountGrows(r.log, Exchange(e.m, o.result.value, o.calls));
    OutputGrows(r.log, Exchange(e.m, o.result.value, o.calls), ResponseSide);
  }

  /** The first four events: `a` is held, nothing was given or produced. */
  lemma HoldingPrefix(a: Bytes, b: Bytes)
    ensures var r := RunFrom(Plain(true), Fresh(Streamed, Streamed, false), StrandingEvents(a, b)[..4]);
            && r.status.Running? && StreamingExchange(r.st, Stream) && HoldingResponse(r.st, a)
            && Given(r.log) == [] && Produced(r.log, ResponseSide) == [] && Received(Messages(r.log), ResponseSide) == a
  {
    hide Step, RunFrom, StreamingExchange, Given, Produced, Received, Messages, InOrder, Overtakes;
    var cfg, start, es := Plain(true), Fresh(Streamed, Streamed, false), StrandingEvents(a, b);
    assert es[..1] == [] + [es[0]] && es[..2] == es[..1] + [es[1]] && es[..3] == es[..2] + [es[2]] && es[..4] == es[..3] + [es[3]];
    NothingYet(cfg, start);
    StreamingRequestOpens();
    RecordGrows(cfg, start, [], es[0]);
    StreamingResponseOpens(RunFrom(cfg, start, es[..1]).st);
    RecordGrows(cfg, start, es[..1], es[1]);
    ResponseChunkIsHeld(RunFrom(cfg, start, es[..2]).st, a);
    RecordGrows(cfg, start, es[..2], es[2]);
    RequestHookChangesMode(RunFrom(cfg, start, es[..3]).st, StreamBuffer(None), Stream, a, "x");
    RecordGrows(cfg, start, es[..3], es[3]);
    assert [] + a == a && a + [] == a;
  }

  lemma NothingYet(cfg: Config, start: Run)
    requires IsFresh(start)
    ensures var r := RunFrom(cfg, start, []);
            r == start && Given(r.log) == [] && Produced(r.log, ResponseSide) == [] && Received(Messages(r.log), ResponseSide) == []
  {
    assert Messages(start.log) == [];
  }

  /** After `a` is held and the buffering stops, `b` comes; a request hook asks to buffer again, and the response ends. */
  function ReorderingEvents(a: Bytes, b: Bytes): seq<Event> {
    StrandingEvents(a, b)[..4]
    + [Event(Body(ResponseSide, b, false), Asking(Stream, NO_HEADERS))]
    + [Event(Body(RequestSide, "x", false), Asking(StreamBuffer(None), NO_HEADERS))]
    + [Event(Body(ResponseSide, [], true), Asking(Stream, NO_HEADERS))]
  }

  /**
   Bytes can be reordered: `b` overtakes the held `a`, so the filters get, and Envoy forwards,
   `b` before `a`, although in the end no byte is missing.
   */
  lemma HeldBytesAreReordered(a: Bytes, b: Bytes)
    requires a != [] && b != []
    ensures var r := RunFrom(Plain(true), Fresh(Streamed, Streamed, false), ReorderingEvents(a, b));
            && r.status.Running? && FilteredToTheEnd(Plain(true), r.st) && !InOrder(r.log) && !Stranded(r.log)
            && Received(Messages(r.log), ResponseSide) == a + b
            && Given(r.log) == b + a && Visible(r.log, ResponseSide) == b + a
  {
    hide Step, RunFrom, Given, Produced, Visible, TrailingOutput, Received, Messages, InOrder, Stranded, HeldAfter,
         LoggedCalls, ForwardsFilterOutput, Parked, OneContext, EndOf, SeenBodyEnd;
    var cfg, start := Plain(true), Fresh(Streamed, Streamed, false);
    var e4, e5, e6 := Event(Body(ResponseSide, b, false), Asking(Stream, NO_HEADERS)),
                      Event(Body(RequestSide, "x", false), Asking(StreamBuffer(None), NO_HEADERS)),
                      Event(Body(ResponseSide, [], true), Asking(Stream, NO_HEADERS));
    var es4 := StrandingEvents(a, b)[..4];
    HoldingPrefix(a, b);
    var r4 := RunFrom(cfg, start, es4);
    Overtaken(cfg, start, es4, b);
    ChunkGoesAhead(r4.st, a, b);
    RecordGrows(cfg, start, es4, e4);
    RequestHookChangesMode(RunFrom(cfg, start, es4 + [e4]).st, Stream, StreamBuffer(None), a, "x");
    RecordGrows(cfg, start, es4 + [e4], e5);
    LastChunkTakesHeld(RunFrom(cfg, start, es4 + [e4] + [e5]).st, a);
    RecordGrows(cfg, start, es4 + [e4] + [e5], e6);
    var es := ReorderingEvents(a, b);
    EveryResponseByteIsAccounted(cfg, start, es);
    StreamedRepliesRefineFilters(cfg, start, es, ResponseSide);
    StreamedOutputIsProducedIff(cfg, start, es, ResponseSide);
    assert [] + b == b && b + [] == b && a + b + [] == a + b;
  }

  /** A live exchange that stopped buffering with bytes held: the next chunk overtakes them. */
  lemma Overtaken(cfg: Config, start: Run, events: seq<Event>, chunk: Bytes)
    requires IsFresh(start) && cfg.caps.needsResponseBody
    requires var r := RunFrom(cfg, start, events);
             r.status.Running? && StreamingExchange(r.st, Stream) && HoldingResponse(r.st, r.st.resp.body) && r.st.resp.body != []
    ensures Overtakes(RunFrom(cfg, start, events).log, Body(ResponseSide, chunk, false))
  {
    hide Step, RunFrom, HeldAfter, LoggedCalls, ForwardsFilterOutput, OneContext, EndOf;
    var r := RunFrom(cfg, start, events);
    ContextIsOneLongLivedValue(cfg, start, events);
    LiveIsFinished(cfg, start, events);
    BufferingIsLogged(r, ResponseSide);
    StreamedRepliesRefineFilters(cfg, start, events, ResponseSide);
  }

  // ---------------------------------------------------------------------------
  // Output at trailers
  // ---------------------------------------------------------------------------

  /** A filter that answers every call with the same bytes. */
  function Saying(bytes: Bytes): Oracle {
    (kind, ctx: Context, data: Option<Bytes>, eos) => Returned(ctx.shared, NO_HEADERS, ctx.edits, Some(bytes), Proceed)
  }

  lemma TrailersFlush(st: Stream, oracle: Oracle)
    requires StreamingExchange(st, Stream)
    ensures var half := st.req.(furthest := Some(TrailersStep), bodyState := Completed);
            Step(Plain(true), oracle, st, Trailers(RequestSide))
            == FinishTrailers(Plain(true), RequestSide, FlushStreamed(oracle, st.(req := half), RequestSide))
  {
    hide PlanFrame, HeadersCommon, FlushStreamed, FinishTrailers, Parked;
  }

  lemma FinalCallSpeaks(st: Stream, bytes: Bytes)
    requires StreamingExchange(st, Stream)
    ensures var o := Step(Plain(true), Saying(bytes), st, Trailers(RequestSide));
            && Proceeds(o) && o.calls.body.Some? && o.calls.body.value.produced == bytes
            && o.st.req.mode.Streamed? && !o.st.localReply
  {
    hide Step, Dehydrate;
    TrailersFlush(st, Saying(bytes));
  }

  /** Trailers drop what the final call produces: a STREAMED request closed by trailers shows Envoy none of it. */
  lemma TrailersDropOutput(bytes: Bytes)
    requires bytes != []
    ensures var events := [Event(Headers(RequestSide, [], false), Asking(Stream, NO_HEADERS)), Event(Trailers(RequestSide), Saying(bytes))];
            var r := RunFrom(Plain(true), Fresh(Streamed, Streamed, false), events);
            && r.status.Running? && TrailingOutput(r.log, RequestSide) != []
            && Produced(r.log, RequestSide) != Visible(r.log, RequestSide)
  {
    hide Step, RunFrom, Produced, Visible, TrailingOutput;
    var cfg, start := Plain(true), Fresh(Streamed, Streamed, false);
    var e0, e1 := Event(Headers(RequestSide, [], false), Asking(Stream, NO_HEADERS)), Event(Trailers(RequestSide), Saying(bytes));
    NothingYet(cfg, start);
    StreamingRequestOpens();
    RunGrows(cfg, start, [], e0);
    assert [] + [e0] == [e0] && [e0] + [e1] == [e0, e1];
    var r := RunFrom(cfg, start, [e0]);
    FinalCallSpeaks(r.st, bytes);
    RunGrows(cfg, start, [e0], e1);
    var o := Step(cfg, e1.oracle, r.st, e1.m);
    OutputGrows(r.log, Exchange(e1.m, o.result.value, o.calls), RequestSide);
    StreamedOutputIsProducedIff(cfg, start, [e0, e1], RequestSide);
  }
}
