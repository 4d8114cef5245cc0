/**
 Guardrails over whole runs: whatever the server decides about body modes, no guardrail that
 could fire on the request is left without the bodies it needs.
 */
module Enforcement {
  import opened Wire
  import opened HeaderMaps
  import opened Filters
  import opened Guardrails
  import opened Chunking
  import opened StreamSpec
  import opened Effects
  import opened Invariant
  import opened Steps
  import opened Runs

  // ---------------------------------------------------------------------------
  // One step
  // ---------------------------------------------------------------------------

  predicate IsRequestHeaders(m: Message) {
    m.Headers? && m.side.RequestSide?
  }

  /** The request a stream keeps, and whether Envoy sends bodies eagerly. */
  predicate KeepsRequest(st: Stream, st': Stream) {
    st'.request == st.request && st'.eagerBody == st.eagerBody
  }

  lemma RequestPlanKeepsRequest(cfg: Config, st: Stream, m: Message)
    requires m.side.RequestSide? && !m.Headers?
    ensures KeepsRequest(st, PlanState(PlanFor(cfg, st, m)))
  {
    hide PlanFrame, LocalReplyPlan, RequestBodyPlan, TrailersPlan, Advanced;
    var st1 := Advanced(st, m);
    assert KeepsRequest(st, st1) by { AdvancedKeepsRequest(st, m); }
    if st1.localReply {
      LocalReplyPlanKeepsRequest(st1, m);
    } else {
      match m
      case Body(_, chunk, eos) => RequestBodyPlanKeepsRequest(cfg, st1, chunk, eos);
      case Trailers(side) => TrailersPlanKeepsRequest(cfg, st1, side);
    }
  }

  lemma RequestBodyPlanKeepsRequest(cfg: Config, st: Stream, chunk: Bytes, eos: bool)
    ensures KeepsRequest(st, PlanState(RequestBodyPlan(cfg, st, chunk, eos)))
  {
    hide PlanFrame, HeadersCommon, BodyResponses, OversizedRequest;
  }

  lemma ResponsePlanKeepsRequest(cfg: Config, st: Stream, m: Message)
    requires m.side.ResponseSide?
    ensures KeepsRequest(st, PlanState(PlanFor(cfg, st, m)))
  {
    hide PlanFrame, LocalReplyPlan, ResponseHeadersPlan, ResponseBodyPlan, TrailersPlan, Advanced;
    var st1 := Advanced(st, m);
    assert KeepsRequest(st, st1) by { AdvancedKeepsRequest(st, m); }
    if st1.localReply {
      LocalReplyPlanKeepsRequest(st1, m);
    } else {
      match m
      case Headers(_, headers, eos) => ResponseHeadersPlanKeepsRequest(cfg, st1, headers, eos);
      case Body(_, chunk, eos) => ResponseBodyPlanKeepsRequest(cfg, st1, chunk, eos);
      case Trailers(side) => TrailersPlanKeepsRequest(cfg, st1, side);
    }
  }

  lemma AdvancedKeepsRequest(st: Stream, m: Message)
    ensures KeepsRequest(st, Advanced(st, m))
  {
  }

  lemma LocalReplyPlanKeepsRequest(st: Stream, m: Message)
    ensures KeepsRequest(st, PlanState(LocalReplyPlan(st, m)))
  {
    hide PlanFrame, HeadersCommon, BodyResponses;
  }

  lemma ResponseHeadersPlanKeepsRequest(cfg: Config, st: Stream, headers: seq<HeaderValue>, eos: bool)
    ensures KeepsRequest(st, PlanState(ResponseHeadersPlan(cfg, st, headers, eos)))
  {
    hide PlanFrame, HeadersCommon, FromEnvoy;
  }

  lemma ResponseBodyPlanKeepsRequest(cfg: Config, st: Stream, chunk: Bytes, eos: bool)
    ensures KeepsRequest(st, PlanState(ResponseBodyPlan(cfg, st, chunk, eos)))
  {
    hide PlanFrame, HeadersCommon, BodyResponses;
  }

  lemma TrailersPlanKeepsRequest(cfg: Config, st: Stream, side: Side)
    ensures KeepsRequest(st, PlanState(TrailersPlan(cfg, st, side)))
  {
    hide PlanFrame, HeadersCommon;
  }

  lemma PhaseKeepsRequest(cfg: Config, plan: Plan, o: Outcome)
    requires Executed(cfg, plan, o) && Proceeds(o)
    ensures KeepsRequest(PlanState(plan), o.st)
  {
    hide PlanFrame, HeadersCommon, BodyResponses, CollectRequest, WithContentLength, Diff, Merge, CallsFit, Threads,
         Forwarded;
  }

  lemma StepKeepsRequest(cfg: Config, oracle: Oracle, st: Stream, m: Message)
    requires Inv(cfg, st) && Proceeds(Step(cfg, oracle, st, m)) && !IsRequestHeaders(m)
    ensures KeepsRequest(st, Step(cfg, oracle, st, m).st)
  {
    hide Inv, HandlerPlan, Execute, Executed, PlanFrame;
    if m.side.RequestSide? {
      RequestPlansAreSound(cfg, st, m);
      RequestPlanKeepsRequest(cfg, st, m);
    } else {
      ResponsePlansAreSound(cfg, st, m);
      ResponsePlanKeepsRequest(cfg, st, m);
    }
    var plan := PlanFor(cfg, st, m);
    ExecuteFits(cfg, oracle, plan);
    hide PlanFor;
    PhaseKeepsRequest(cfg, plan, Execute(cfg, oracle, plan));
  }

  /** The modes can still be overridden, and neither Envoy nor a filter has settled how the body is delivered. */
  predicate Overridable(cfg: Config, st: Stream) {
    && !st.req.mode.FullDuplex? && !st.resp.mode.FullDuplex? && !st.resp.mode.NoBody?
    && !st.eagerBody && !cfg.caps.responseBodyMode.StreamBuffer?
  }

  /** The response of a request is to be streamed. */
  predicate OverrideDue(cfg: Config, st: Stream, headers: seq<HeaderValue>) {
    Overridable(cfg, st) && ShouldStream(cfg.selector, headers)
  }

  /** What request headers that the stream survives say about the guardrails; an override is sent exactly when due. */
  predicate Cleared(cfg: Config, st: Stream, headers: seq<HeaderValue>, overridden: bool) {
    && (st.req.mode.FullDuplex? || st.resp.mode.FullDuplex? ==> !HasSelectedGuardrail(cfg.selector, headers))
    && (overridden <==> OverrideDue(cfg, st, headers))
  }

  lemma HeadersPlanClears(cfg: Config, st: Stream, headers: seq<HeaderValue>, eos: bool)
    ensures var plan := RequestHeadersPlan(cfg, st, headers, eos);
            (plan.Settle? && (plan.outcome.result.Err? || plan.outcome.result.value.Halt?))
            || (Admitted(headers) && Cleared(cfg, st, headers, OverrideDue(cfg, st, headers)) && PlanState(plan).request == Some(headers)
                && PlanState(plan).eagerBody == st.eagerBody)
  {
    hide PlanFrame, HeadersCommon, Admitted, HasSelectedGuardrail, ShouldStream;
  }

  /** Outside full duplex the headers reply goes out with the request headers, so an override has something to ride on. */
  lemma HeadersReplyIsSent(cfg: Config, oracle: Oracle, st: Stream, m: Message)
    requires Inv(cfg, st) && Proceeds(Step(cfg, oracle, st, m)) && IsRequestHeaders(m) && !st.req.mode.FullDuplex?
    ensures Step(cfg, oracle, st, m).result.value.headers.Some?
  {
    StepIsGood(cfg, oracle, st, m);
    hide Step, HooksInOrder, OtherUntouched, Threads, FiltersBody, ResponseInv;
    var o := Step(cfg, oracle, st, m);
    assert EmitsInOrder(cfg, st, RequestSide, o) && Progresses(st, m, o.st) && o.st.req.mode == st.req.mode;
  }

  /** What a phase that proceeds hands to the override: the modes and the eager flag of the stream, and no override yet. */
  predicate Unoverridden(st: Stream, o: Outcome) {
    && o.st.req.mode == st.req.mode && o.st.resp.mode == st.resp.mode && o.st.eagerBody == st.eagerBody
    && (Proceeds(o) ==> o.result.value.modeOverride.None?)
  }

  lemma FinishedOverride(cfg: Config, st: Stream, headers: seq<HeaderValue>, eos: bool, o: Outcome)
    requires Unoverridden(st, o) && Proceeds(FinishRequestHeaders(cfg, headers, eos, o))
    ensures var f := FinishRequestHeaders(cfg, headers, eos, o);
            && f.st.request == o.st.request && f.st.eagerBody == o.st.eagerBody
            && (f.result.value.modeOverride.Some? <==> f.result.value.headers.Some? && OverrideDue(cfg, st, headers))
  {
    hide ShouldStream;
  }

  lemma RequestHeadersAreCleared(cfg: Config, oracle: Oracle, st: Stream, m: Message)
    requires Inv(cfg, st) && Proceeds(Step(cfg, oracle, st, m)) && IsRequestHeaders(m)
    ensures var o := Step(cfg, oracle, st, m);
            && o.st.request == Some(m.headers) && o.st.eagerBody == st.eagerBody && Admitted(m.headers)
            && Cleared(cfg, st, m.headers, o.result.value.modeOverride.Some?)
  {
    hide Inv, Execute, Executed, RequestHeadersPlan, Admitted, Cleared, OverrideDue, FinishRequestHeaders;
    RequestPlansAreSound(cfg, st, m);
    var plan := PlanFor(cfg, st, m);
    var o := Execute(cfg, oracle, plan);
    ExecuteFits(cfg, oracle, plan);
    assert DispatchError(st, m).None? by { RefusedFails(cfg, oracle, st, m); }
    LocalReplyIff(cfg, st, m);
    var st1 := Advanced(st, m);
    HeadersPlanClears(cfg, st1, m.headers, m.endOfStream);
    SettledIs(cfg, oracle, plan);
    assert Proceeds(o) by { FinishNeedsProceeds(cfg, m, o); }
    if !plan.Settle? {
      PhaseFrame(cfg, plan, o);
    }
    PhaseKeepsRequest(cfg, plan, o);
    FinishedOverride(cfg, st1, m.headers, m.endOfStream, o);
    ClearedAtStart(cfg, st, m, Step(cfg, oracle, st, m).result.value.modeOverride.Some?);
    if !st.req.mode.FullDuplex? {
      HeadersReplyIsSent(cfg, oracle, st, m);
    }
  }

  lemma FinishNeedsProceeds(cfg: Config, m: Message, o: Outcome)
    requires m.Headers?
    ensures Proceeds(Finish(cfg, m, false, o)) ==> Proceeds(o)
  {
    hide ShouldStream;
  }

  /** Taking its place in the order changes nothing a message is cleared by. */
  lemma ClearedAtStart(cfg: Config, st: Stream, m: Message, overridden: bool)
    requires m.Headers?
    ensures Cleared(cfg, Advanced(st, m), m.headers, overridden) <==> Cleared(cfg, st, m.headers, overridden)
    ensures OverrideDue(cfg, Advanced(st, m), m.headers) <==> OverrideDue(cfg, st, m.headers)
    ensures Advanced(st, m).eagerBody == st.eagerBody && OverrideDue(cfg, st, m.headers) ==> !st.req.mode.FullDuplex?
  {
    hide ShouldStream, HasSelectedGuardrail;
  }

  lemma SettledIs(cfg: Config, oracle: Oracle, plan: Plan)
    ensures plan.Settle? ==> Execute(cfg, oracle, plan) == plan.outcome
  {
  }

  lemma RefusedFails(cfg: Config, oracle: Oracle, st: Stream, m: Message)
    ensures DispatchError(st, m).Some? ==> !Proceeds(Step(cfg, oracle, st, m))
  {
    hide HandlerPlan, PlanFrame;
  }

  // ---------------------------------------------------------------------------
  // Runs
  // ---------------------------------------------------------------------------

  /** Some reply asks Envoy to stream the response. */
  ghost predicate AsksToStream(replies: seq<Reply>) {
    exists i :: 0 <= i < |replies| && replies[i].modeOverride.Some?
  }

  /** What a live run knows about the request it admitted. */
  ghost predicate ClearedKept(cfg: Config, start: Run, r: Run) {
    && r.st.eagerBody == start.st.eagerBody
    && (r.st.request.None? ==> !AsksToStream(Sent(r.log)))
    && (r.st.request.Some? ==>
          Admitted(r.st.request.value) && Cleared(cfg, start.st, r.st.request.value, AsksToStream(Sent(r.log))))
  }

  lemma AsksConcat(a: seq<Reply>, side: Side, batch: Batch)
    ensures AsksToStream(a + Render(side, batch))
            <==> AsksToStream(a) || (batch.Answer? && batch.headers.Some? && batch.modeOverride.Some?)
  {
    hide Render;
    RenderedOverride(side, batch);
    var b := Render(side, batch);
    var all := a + b;
    assert forall i :: 0 <= i < |a| ==> all[i] == a[i];
    assert forall i :: 0 <= i < |b| ==> all[|a| + i] == b[i];
    if AsksToStream(all) {
      var i :| 0 <= i < |all| && all[i].modeOverride.Some?;
      assert i >= |a| ==> b[i - |a|].modeOverride.Some?;
    }
  }

  lemma ClearedStep(cfg: Config, start: Run, r: Run, m: Message, o: Outcome)
    requires Proceeds(o) && ClearedKept(cfg, start, r) && FollowsOverride(r.st, m, o)
    requires IsRequestHeaders(m) ==> r.st.req.mode == start.st.req.mode && r.st.resp.mode == start.st.resp.mode
    requires IsRequestHeaders(m) ==>
               && r.st.request.None? && o.st.request == Some(m.headers) && o.st.eagerBody == r.st.eagerBody && Admitted(m.headers)
               && Cleared(cfg, r.st, m.headers, o.result.value.modeOverride.Some?)
    requires !IsRequestHeaders(m) ==> KeepsRequest(r.st, o.st)
    ensures ClearedKept(cfg, start, Run(o.st, Running, r.log + [Exchange(m, o.result.value, o.calls)], NO_CALLS))
  {
    hide Admitted, HasSelectedGuardrail, ShouldStream, AsksToStream, Render, Sent;
    SentGrows(r.log, Exchange(m, o.result.value, o.calls));
    AsksConcat(Sent(r.log), m.side, o.result.value);
  }

  lemma {:induction false} LiveRequestsAreCleared(cfg: Config, start: Run, events: seq<Event>)
    requires IsFresh(start)
    ensures RunFrom(cfg, start, events).status.Running? ==> ClearedKept(cfg, start, RunFrom(cfg, start, events))
  {
    hide Step, Inv, Admitted, HasSelectedGuardrail, ShouldStream, Threads, EmitsInOrder, HooksRecorded, HooksInOrder,
         FollowsOverride, OtherUntouched;
    var r := RunFrom(cfg, start, events);
    if events != [] && r.status.Running? {
      var init, e := events[..|events| - 1], events[|events| - 1];
      var r0 := RunFrom(cfg, start, init);
      LiveRequestsAreCleared(cfg, start, init);
      LiveRunsKeepInv(cfg, start, init);
      ModesBeforeOverride(cfg, start, init);
      StepIsGood(cfg, e.oracle, r0.st, e.m);
      var o := Step(cfg, e.oracle, r0.st, e.m);
      hide ClearedKept, RunFrom, Cleared;
      if IsRequestHeaders(e.m) {
        RequestHeadersAreCleared(cfg, e.oracle, r0.st, e.m);
        HeadersComeOnce(cfg, e.oracle, r0.st, e.m);
      } else {
        StepKeepsRequest(cfg, e.oracle, r0.st, e.m);
      }
      ClearedStep(cfg, start, r0, e.m, o);
    }
  }

  /** Until an override is sent, the modes are the configured ones. */
  lemma ModesBeforeOverride(cfg: Config, start: Run, events: seq<Event>)
    requires IsFresh(start)
    ensures var r := RunFrom(cfg, start, events);
            r.status.Running? && !AsksToStream(Sent(r.log)) ==>
              r.st.req.mode == start.st.req.mode && r.st.resp.mode == start.st.resp.mode
  {
    ModesAgreeWithOverridesSent(cfg, start, events);
    var replies := Sent(RunFrom(cfg, start, events).log);
    hide RunFrom, Sent;
    if !AsksToStream(replies) {
      ModeAfterPlain(start.st.resp.mode, replies);
    }
  }

  lemma HeadersComeOnce(cfg: Config, oracle: Oracle, st: Stream, m: Message)
    requires Inv(cfg, st) && Proceeds(Step(cfg, oracle, st, m)) && IsRequestHeaders(m)
    ensures st.request.None?
  {
    hide HandlerPlan, PlanFrame;
    RefusedFails(cfg, oracle, st, m);
    hide Step;
  }

  /**
   No guardrail is bypassed. While a stream lives, its request headers are unambiguous; if the
   server asked Envoy to stream the response, no response-phase guardrail can fire on them; and
   in full duplex, where guardrails cannot be enforced, none can fire at all.
   */
  lemma NoGuardrailIsBypassed(cfg: Config, start: Run, events: seq<Event>, entries: seq<FilterEntry>)
    requires IsFresh(start) && Describes(cfg.selector, entries)
    ensures var r := RunFrom(cfg, start, events);
            r.status.Running? && r.st.request.Some? ==>
              var headers := r.st.request.value;
              && Admitted(headers)
              && (AsksToStream(Sent(r.log)) ==> forall e :: e in entries && InResponsePhase(e) ==> !CanFire(e, headers))
              && (start.st.req.mode.FullDuplex? || start.st.resp.mode.FullDuplex? ==> forall e :: e in entries ==> !CanFire(e, headers))
  {
    hide RunFrom, Step, Admitted, ShouldStream, HasSelectedGuardrail, AsksToStream, Describes, CanFire, InResponsePhase;
    LiveRequestsAreCleared(cfg, start, events);
    var r := RunFrom(cfg, start, events);
    if r.status.Running? && r.st.request.Some? {
      SelectorIsSound(cfg.selector, entries, r.st.request.value);
    }
  }

  lemma {:induction false} OverriddenIsStreamed(mode: BodyMode, replies: seq<Reply>, requestMode: BodyMode)
    requires OverridesAreStreamed(replies, requestMode)
    ensures ModeAfter(mode, replies) == if AsksToStream(replies) then Streamed else mode
  {
    if replies != [] {
      var init, last := replies[..|replies| - 1], replies[|replies| - 1];
      assert forall i :: 0 <= i < |init| ==> init[i] == replies[i];
      OverriddenIsStreamed(mode, init, requestMode);
    }
  }

  /** Over every live run the response is STREAMED by override exactly when that is due, and its mode says so. */
  lemma OverrideIsSentIffDue(cfg: Config, start: Run, events: seq<Event>)
    requires IsFresh(start)
    ensures var r := RunFrom(cfg, start, events);
            r.status.Running? && r.st.request.Some? ==>
              && (AsksToStream(Sent(r.log)) <==> OverrideDue(cfg, start.st, r.st.request.value))
              && r.st.resp.mode == if OverrideDue(cfg, start.st, r.st.request.value) then Streamed else start.st.resp.mode
  {
    hide RunFrom, Step, Admitted, HasSelectedGuardrail, OverrideDue, AsksToStream, Sent;
    LiveRequestsAreCleared(cfg, start, events);
    ModesAgreeWithOverridesSent(cfg, start, events);
    var r := RunFrom(cfg, start, events);
    OverriddenIsStreamed(start.st.resp.mode, Sent(r.log), start.st.req.mode);
  }

  /**
   On a valid configuration whose selection names are subject to admission, the server asks
   Envoy to stream the response of a live request exactly when the modes can be overridden
   and no response-phase guardrail can fire on the request.
   */
  lemma ResponseIsStreamedIffUnguarded(cfg: Config, start: Run, events: seq<Event>, entries: seq<FilterEntry>)
    requires IsFresh(start) && Describes(cfg.selector, entries) && cfg.selector.valid
    requires forall name :: name in cfg.selector.guardrailHeaders + cfg.selector.outputHeaders ==> IsSelectionHeader(name)
    ensures var r := RunFrom(cfg, start, events);
            r.status.Running? && r.st.request.Some? ==>
              (AsksToStream(Sent(r.log)) <==>
                 && Overridable(cfg, start.st)
                 && forall e :: e in entries && InResponsePhase(e) ==> !CanFire(e, r.st.request.value))
  {
    hide RunFrom, Step, Admitted, ShouldStream, HasSelectedGuardrail, AsksToStream, Sent, Describes, CanFire, InResponsePhase,
         IsSelectionHeader, Overridable;
    LiveRequestsAreCleared(cfg, start, events);
    OverrideIsSentIffDue(cfg, start, events);
    var r := RunFrom(cfg, start, events);
    if r.status.Running? && r.st.request.Some? {
      SelectorIsExact(cfg.selector, entries, r.st.request.value);
    }
  }
}
