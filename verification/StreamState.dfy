/**
 The mutable per-stream state (`StreamState` of `src/server.rs`) and its abstract value.
 */
module StreamStates {
  import opened Wire
  import opened HeaderMaps
  import opened Filters
  import opened Sequencing
  import opened StreamSpec

  class StreamState {
    /** Pipeline capabilities, body ceiling and response-mode selector; fixed for the stream. */
    const cfg: Config
    const phaseOrder: PhaseOrderTracker
    const eosTracker: EosTracker

    var carriedContext: Option<Carried>
    var request: Option<seq<HeaderValue>>
    var response: Option<HeaderMap>

    var requestBody: Bytes
    var responseBody: Bytes
    var streamedRequestBytes: nat
    var requestBodySeen: bool
    var responseBodySeen: bool
    var bufferedRequestBodyProcessed: bool

    var requestFiltersExecuted: bool
    var responseFiltersExecuted: bool
    var requestHeadersSent: bool
    var responseHeadersSent: bool
    var deferredRequestMutation: Option<HeaderMutation>
    var deferredResponseMutation: Option<HeaderMutation>

    var requestMode: BodyMode
    var responseMode: BodyMode
    var eagerBody: bool

    /** The stream this object stands for. */
    ghost function View(): Stream
      reads this, phaseOrder, eosTracker
    {
      MkStream(
        carriedContext, request, response,
        Half(requestMode, phaseOrder.request, eosTracker.requestHeaders, eosTracker.requestBody, requestBody, requestBodySeen,
             requestFiltersExecuted, requestHeadersSent, deferredRequestMutation),
        Half(responseMode, phaseOrder.response, eosTracker.responseHeaders, eosTracker.responseBody, responseBody, responseBodySeen,
             responseFiltersExecuted, responseHeadersSent, deferredResponseMutation),
        streamedRequestBytes, bufferedRequestBodyProcessed, phaseOrder.localReply, eagerBody)
    }

    /** The carried-context slot starts full; bodies are BUFFERED until the first message says otherwise. */
    constructor (cfg: Config)
      ensures this.cfg == cfg && fresh(phaseOrder) && fresh(eosTracker)
      ensures View() == NewStream(Buffered, Buffered, false)
    {
      this.cfg := cfg;
      phaseOrder := new PhaseOrderTracker();
      eosTracker := new EosTracker();
      carriedContext, request, response := Some(NOTHING_CARRIED), None, None;
      requestBody, responseBody, streamedRequestBytes := [], [], 0;
      requestBodySeen, responseBodySeen, bufferedRequestBodyProcessed := false, false, false;
      requestFiltersExecuted, responseFiltersExecuted, requestHeadersSent, responseHeadersSent := false, false, false, false;
      deferredRequestMutation, deferredResponseMutation := None, None;
      requestMode, responseMode, eagerBody := Buffered, Buffered, false;
      new;
      assert eosTracker.State(HeadersOf(RequestSide)).Active? && eosTracker.State(BodyOf(RequestSide)).Active?;
      assert eosTracker.State(HeadersOf(ResponseSide)).Active? && eosTracker.State(BodyOf(ResponseSide)).Active?;
    }

    /** The body mode of a direction. */
    function Mode(side: Side): (mode: BodyMode)
      reads this, phaseOrder, eosTracker
      ensures mode == View().At(side).mode
    {
      if side.RequestSide? then requestMode else responseMode
    }

    /** The bytes accumulated for a direction. */
    function Buffer(side: Side): (bytes: Bytes)
      reads this, phaseOrder, eosTracker
      ensures bytes == View().At(side).body
    {
      if side.RequestSide? then requestBody else responseBody
    }

    /** The headers kept from the two headers phases. */
    function RequestKept(): (headers: Option<seq<HeaderValue>>)
      reads this, phaseOrder, eosTracker
      ensures headers == View().request
    {
      request
    }

    function ResponseKept(): (headers: Option<HeaderMap>)
      reads this, phaseOrder, eosTracker
      ensures headers == View().response
    {
      response
    }

    /** `HydratedContext::hydrate`: empty the slot into a fresh context; an empty slot is an error. */
    method Hydrate(ctx: Context) returns (r: Result<Context>)
      modifies this
      ensures View() == old(View()).(carried := None)
      ensures var slot := old(View()).carried;
              r == if slot.None? then Err(ContextMissing) else Ok(Filters.Hydrate(slot.value, ctx))
    {
      var slot := carriedContext;
      carriedContext := None;
      if slot.None? {
        return Err(ContextMissing);
      }
      var c := slot.value;
      var shared := ctx.shared.(
        branchIterations := c.branchIterations, cluster := c.cluster, executedFilters := c.executedFilters,
        metadata := c.metadata, filterState := c.filterState);
      if c.responseBodyMode.Some? {
        shared := shared.(responseBodyMode := c.responseBodyMode.value);
      }
      shared := shared.(requestBodyBytes := c.requestBodyBytes, responseBodyBytes := c.responseBodyBytes);
      return Ok(ctx.(shared := shared));
    }

    /** `HydratedContext::dehydrate`: refill the slot, which must be empty. */
    method Dehydrate(ctx: Context) returns (r: Result<()>)
      modifies this
      ensures old(View()).carried.Some? ==> r == Err(ContextAlreadyPresent) && View() == old(View())
      ensures old(View()).carried.None? ==> r == Ok(()) && View() == old(View()).(carried := Some(Filters.Dehydrate(ctx)))
    {
      if carriedContext.Some? {
        return Err(ContextAlreadyPresent);
      }
      var s := ctx.shared;
      carriedContext := Some(Carried(
        s.cluster, s.branchIterations, s.executedFilters, s.metadata, s.filterState,
        Some(s.responseBodyMode), s.requestBodyBytes, s.responseBodyBytes));
      return Ok(());
    }

    /** Response phases change the response headers in place; request phases have none. */
    method UpdateResponse(side: Side, headers: Option<HeaderMap>)
      modifies this
      ensures View() == old(View()).(response := if side.RequestSide? then old(View()).response else headers)
    {
      if side.ResponseSide? {
        response := headers;
      }
    }

    /** `take_first_chunk`: mark a direction's headers reply as sent; true on the first call. */
    method TakeFirstChunk(side: Side) returns (first: bool)
      modifies this
      ensures first == !old(View()).At(side).sent
      ensures View() == old(View()).With(side, old(View()).At(side).(sent := true))
    {
      if side.RequestSide? {
        first := !requestHeadersSent;
        requestHeadersSent := true;
      } else {
        first := !responseHeadersSent;
        responseHeadersSent := true;
      }
    }

    /** `EosTracker::check_and_mark` on the state's tracker, as an effect on one direction. */
    method CheckAndMark(side: Side, step: PhaseStep, eos: bool) returns (entry: Result<PhaseState>)
      requires !step.TrailersStep?
      modifies eosTracker
      ensures var (half, expected) := Mark(old(View()).At(side), step, eos);
              entry == expected && View() == old(View()).With(side, half)
    {
      var phase := if step.BodyStep? then BodyOf(side) else HeadersOf(side);
      entry := eosTracker.CheckAndMark(phase, eos);
      assert forall p :: eosTracker.State(p) == if entry == Ok(Active) && eos && p == phase then Completed else old(eosTracker.State(p));
      ReadStates();
    }

    /** `EosTracker::mark_complete` for a body that trailers close. */
    method CompleteBody(side: Side)
      modifies eosTracker
      ensures View() == old(View()).With(side, old(View()).At(side).(bodyState := Completed))
    {
      eosTracker.MarkComplete(BodyOf(side));
      assert forall p :: eosTracker.State(p) == if p == BodyOf(side) then Completed else old(eosTracker.State(p));
      ReadStates();
    }

    /** Reading all four phase states. */
    lemma ReadStates()
      ensures eosTracker.State(HeadersOf(RequestSide)) == eosTracker.requestHeaders
      ensures eosTracker.State(BodyOf(RequestSide)) == eosTracker.requestBody
      ensures eosTracker.State(HeadersOf(ResponseSide)) == eosTracker.responseHeaders
      ensures eosTracker.State(BodyOf(ResponseSide)) == eosTracker.responseBody
    {
    }

    /** Header filters of a direction ran; they are not run again. */
    method MarkFiltersExecuted(side: Side)
      modifies this
      ensures View() == old(View()).With(side, old(View()).At(side).(executed := true))
    {
      if side.RequestSide? {
        requestFiltersExecuted := true;
      } else {
        responseFiltersExecuted := true;
      }
    }

    /** Take the parked header mutation of a direction. */
    method TakeDeferred(side: Side) returns (mutation: Option<HeaderMutation>)
      modifies this
      ensures mutation == old(View()).At(side).deferred
      ensures View() == old(View()).With(side, old(View()).At(side).(deferred := None))
    {
      if side.RequestSide? {
        mutation := deferredRequestMutation;
        deferredRequestMutation := None;
      } else {
        mutation := deferredResponseMutation;
        deferredResponseMutation := None;
      }
    }

    /** `mark_body_chunk_seen`. */
    method MarkBodySeen(side: Side)
      modifies this
      ensures View() == old(View()).With(side, old(View()).At(side).(bodySeen := true))
    {
      if side.RequestSide? {
        requestBodySeen := true;
      } else {
        responseBodySeen := true;
      }
    }

    /** `body_open`. */
    predicate BodyIsOpen(side: Side)
      reads this, eosTracker
    {
      && (if side.RequestSide? then request.Some? else response.Some?)
      && !eosTracker.State(HeadersOf(side)).Completed?
      && !eosTracker.State(BodyOf(side)).Completed?
    }

    /** `release_buffers_after_immediate`. */
    method ReleaseBuffers()
      modifies this
      ensures View() == Released(old(View()))
    {
      requestBody := [];
      responseBody := [];
      streamedRequestBytes := 0;
    }
  }

  /** The state left after an immediate response: no buffered bytes. */
  function Released(st: Stream): Stream {
    st.(req := st.req.(body := []), resp := st.resp.(body := []), streamedBytes := 0)
  }
}
