/**
 A STREAMED response whose filters asked for the whole body: nothing is released before the
 end, and the body filter sees exactly the concatenation of all chunks, once.
 */
module Withholding {
  import opened Wire
  import opened Filters
  import opened Sequencing
  import opened Chunking
  import opened StreamSpec
  import opened Effects
  import opened Invariant
  import opened Steps
  import opened Runs
  import opened Grammar
  import opened BodyFlow
  import opened Conservation
  import opened Streaming

  /** From the response header hook on, every hook leaves the buffering request in place. */
  ghost predicate KeepsBuffering(calls: seq<Call>, maxBytes: Option<nat>) {
    forall i, j :: 0 <= i <= j < |calls| && calls[i].kind == OnResponse ==>
      calls[j].after.shared.responseBodyMode == StreamBuffer(maxBytes)
  }

  lemma KeepsBufferingPrefix(calls: seq<Call>, more: seq<Call>, maxBytes: Option<nat>)
    requires KeepsBuffering(calls + more, maxBytes)
    ensures KeepsBuffering(calls, maxBytes)
  {
    var all := calls + more;
    forall i, j | 0 <= i <= j < |calls| && calls[i].kind == OnResponse
      ensures calls[j].after.shared.responseBodyMode == StreamBuffer(maxBytes)
    {
      assert all[i] == calls[i] && all[j] == calls[j];
    }
  }

  /** A live stream whose response hook ran under `KeepsBuffering` parks the buffering request. */
  lemma BufferingIsParked(cfg: Config, r: Run, maxBytes: Option<nat>)
    requires r.status.Running? && ContextKept(r) && HeaderHookKept(cfg, r, ResponseSide)
    requires HeaderRan(cfg, r.st, ResponseSide) && KeepsBuffering(AllCalls(r), maxBytes)
    ensures r.st.carried.Some? && Parked(r.st.carried.value).responseBodyMode == StreamBuffer(maxBytes)
  {
    hide Count, AllCalls, HeaderRan, Parked;
    var calls := AllCalls(r);
    CountPositive(calls, OfKind(OnResponse));
    var i :| 0 <= i < |calls| && OfKind(OnResponse)(calls[i]);
    assert calls[i].kind == OnResponse && i <= |calls| - 1;
  }

  /** The direction is a STREAMED response with body filters whose headers announced a body. */
  predicate StreamsResponse(cfg: Config, st: Stream) {
    st.resp.mode.Streamed? && !st.localReply && cfg.caps.needsResponseBody && Opened(st.resp)
  }

  /** The held bytes fit both ceilings. */
  predicate Fits(cfg: Config, maxBytes: Option<nat>, size: nat) {
    !OverLimit(SaturatingAdd(0, size), maxBytes) && !OverLimit(SaturatingAdd(0, size), cfg.maxBody)
  }

  ghost predicate Withheld(cfg: Config, r: Run, maxBytes: Option<nat>) {
    var received, visible := Received(Messages(r.log), ResponseSide), Visible(r.log, ResponseSide);
    var bodyCalls := Count(AllCalls(r), OfKind(OnResponseBody));
    && (r.st.resp.furthest.None? ==> received == [] && visible == [] && bodyCalls == 0)
    && (StreamsResponse(cfg, r.st) && KeepsBuffering(AllCalls(r), maxBytes) ==>
          && Fits(cfg, maxBytes, |received|)
          && (if r.st.resp.bodyState.Active? then visible == [] && r.st.resp.body == received && bodyCalls == 0
              else
                && bodyCalls == 1
                && (if SeenBodyEnd(Messages(r.log), ResponseSide) then FinalCallMade(AllCalls(r), ResponseSide, received, visible)
                    else received == [] && visible == [])))
  }

  /** What one exchange adds to the visible bytes and the calls. */
  lemma VisibleGrows(cfg: Config, r: Run, m: Message, o: Outcome, r': Run, side: Side)
    requires LiveStep(cfg, r, m, o, r')
    ensures Visible(r'.log, side) == Visible(r.log, side) + if m.side == side then ForwardedBy(m, o.result.value) else []
    ensures AllCalls(r') == AllCalls(r) + CallList(o.calls)
    ensures Count(AllCalls(r'), OfKind(BodyKind(side))) == Count(AllCalls(r), OfKind(BodyKind(side)))
            + if m.side == side && o.calls.body.Some? then 1 else 0
  {
    hide Inv, StepGood, FlowOk, HistoryKept, CallList, AllCalls, Count, Progresses, OtherUntouched, FollowsOverride,
         FinalCall, FiltersBody, HeaderRan, OfKind, Forwarded;
    StepProgress(cfg, r, m, o, r');
    assert r'.log[..|r'.log| - 1] == r.log;
    ContextStep(r, r', o.calls);
    BodyCallCount(cfg, r.st, m.side, o.calls, side);
    CountConcat(AllCalls(r), CallList(o.calls), OfKind(BodyKind(side)));
  }

  lemma BodyCallCount(cfg: Config, st: Stream, side: Side, calls: Calls, other: Side)
    requires HooksInOrder(cfg, st, side, calls)
    ensures Count(CallList(calls), OfKind(BodyKind(other))) == if side == other && calls.body.Some? then 1 else 0
  {
    hide Count, CallList;
    CallListCount(calls, OfKind(BodyKind(other)));
  }

  lemma WithheldHeadersStep(cfg: Config, r: Run, m: Message, o: Outcome, r': Run, maxBytes: Option<nat>)
    requires LiveStep(cfg, r, m, o, r') && Withheld(cfg, r, maxBytes) && m.side.ResponseSide? && m.Headers?
    ensures Withheld(cfg, r', maxBytes)
  {
    hide HistoryKept, CallList, AllCalls, Count, Received, SeenBodyEnd, Bodies, Sent, Messages, Visible, KeepsBuffering,
         FinalCallMade, Metered, DuplexFlow, Threads, EmitsInOrder, HooksInOrder, RequestInv;
    assert Inv(cfg, o.st);
    BothEndsGrow(r, m, o.result.value, o.calls, ResponseSide);
    VisibleGrows(cfg, r, m, o, r', ResponseSide);
    StepProgress(cfg, r, m, o, r');
    UnopenedHalf(cfg, r, m, o, r');
    var received, visible := Received(Messages(r.log), ResponseSide), Visible(r.log, ResponseSide);
    assert received + [] == received && visible + [] == visible;
  }

  lemma WithheldBodyStep(cfg: Config, r: Run, m: Message, o: Outcome, r': Run, maxBytes: Option<nat>)
    requires LiveStep(cfg, r, m, o, r') && Withheld(cfg, r, maxBytes) && m.side.ResponseSide? && m.Body?
    requires StreamsResponse(cfg, r.st) ==> KeepsBuffering(AllCalls(r), maxBytes)
                                            && Parked(r.st.carried.value).responseBodyMode == StreamBuffer(maxBytes)
    ensures Withheld(cfg, r', maxBytes)
  {
    hide HistoryKept, CallList, AllCalls, Count, Received, SeenBodyEnd, Bodies, Sent, Messages, Visible, KeepsBuffering,
         Parked, FinalCallMade, Metered, DuplexFlow, Threads, EmitsInOrder, RequestInv, ResponseInv, LocalReplyInv,
         Forwarded;
    BothEndsGrow(r, m, o.result.value, o.calls, ResponseSide);
    VisibleGrows(cfg, r, m, o, r', ResponseSide);
    FirstIffNotEnded(cfg, r, m, o, r');
    StepProgress(cfg, r, m, o, r');
    UnopenedHalf(cfg, r, m, o, r');
    var received, visible := Received(Messages(r.log), ResponseSide), Visible(r.log, ResponseSide);
    if StreamsResponse(cfg, o.st) && m.endOfStream {
      FinalCallAdded(AllCalls(r), o.calls, ResponseSide);
      assert [] + o.calls.body.value.produced == o.calls.body.value.produced;
    }
  }

  lemma WithheldTrailersStep(cfg: Config, r: Run, m: Message, o: Outcome, r': Run, maxBytes: Option<nat>)
    requires LiveStep(cfg, r, m, o, r') && Withheld(cfg, r, maxBytes) && m == Trailers(ResponseSide)
    requires StreamsResponse(cfg, r.st) ==> KeepsBuffering(AllCalls(r), maxBytes)
    ensures Withheld(cfg, r', maxBytes)
  {
    hide HistoryKept, CallList, AllCalls, Count, Received, SeenBodyEnd, Bodies, Sent, Messages, Visible, KeepsBuffering,
         Parked, FinalCallMade, Metered, DuplexFlow, Threads, EmitsInOrder, RequestInv, ResponseInv, LocalReplyInv,
         Forwarded;
    BothEndsGrow(r, m, o.result.value, o.calls, ResponseSide);
    VisibleGrows(cfg, r, m, o, r', ResponseSide);
    FirstIffNotEnded(cfg, r, m, o, r');
    StepProgress(cfg, r, m, o, r');
    UnopenedHalf(cfg, r, m, o, r');
    var received, visible := Received(Messages(r.log), ResponseSide), Visible(r.log, ResponseSide);
    assert received + [] == received && visible + [] == visible;
    if StreamsResponse(cfg, o.st) && r.st.resp.bodyState.Completed? {
      FinalCallStays(AllCalls(r), CallList(o.calls), ResponseSide, received, visible);
    }
  }

  lemma WithheldOtherStep(cfg: Config, r: Run, m: Message, o: Outcome, r': Run, maxBytes: Option<nat>)
    requires LiveStep(cfg, r, m, o, r') && Withheld(cfg, r, maxBytes) && m.side.RequestSide?
    requires KeepsBuffering(AllCalls(r'), maxBytes) ==> KeepsBuffering(AllCalls(r), maxBytes)
    ensures Withheld(cfg, r', maxBytes)
  {
    hide HistoryKept, CallList, AllCalls, Count, Received, SeenBodyEnd, Bodies, Sent, Messages, Visible, KeepsBuffering,
         Parked, FinalCallMade, FlowOk, StepGood, Inv, Forwarded;
    BothEndsGrow(r, m, o.result.value, o.calls, ResponseSide);
    VisibleGrows(cfg, r, m, o, r', ResponseSide);
    StepProgress(cfg, r, m, o, r');
    UnopenedHalf(cfg, r, m, o, r');
    var received, visible := Received(Messages(r.log), ResponseSide), Visible(r.log, ResponseSide);
    assert received + [] == received && visible + [] == visible;
    if StreamsResponse(cfg, r.st) && KeepsBuffering(AllCalls(r), maxBytes) && r.st.resp.bodyState.Completed?
       && SeenBodyEnd(Messages(r.log), ResponseSide) {
      FinalCallStays(AllCalls(r), CallList(o.calls), ResponseSide, received, visible);
    }
  }

  /**
   Withholding, for every chunking: while the hooks keep asking for the whole body, Envoy sees
   no byte before the end, the held bytes are the ones received and fit both ceilings, and no
   body hook runs. The end of stream gives exactly one body call, on the concatenation of all
   chunks, and Envoy sees what it produced. Trailers close the body only if nothing was held.
   */
  lemma {:induction false} NothingIsVisibleBeforeTheEnd(cfg: Config, start: Run, events: seq<Event>, maxBytes: Option<nat>)
    requires IsFresh(start)
    ensures RunFrom(cfg, start, events).status.Running? ==> Withheld(cfg, RunFrom(cfg, start, events), maxBytes)
  {
    var r := RunFrom(cfg, start, events);
    if events == [] {
      assert Messages(start.log) == [];
    } else if r.status.Running? {
      var init, e := events[..|events| - 1], events[|events| - 1];
      LastStep(cfg, start, events);
      NothingIsVisibleBeforeTheEnd(cfg, start, init, maxBytes);
      ContextIsOneLongLivedValue(cfg, start, init);
      HeaderHooksRunOnce(cfg, start, init, ResponseSide);
      var r0 := RunFrom(cfg, start, init);
      var o := Step(cfg, e.oracle, r0.st, e.m);
      assert r0.status.Running?;
      hide Step, RunFrom;
      WithheldStep(cfg, r0, e.m, o, r, maxBytes);
    }
  }

  lemma WithheldStep(cfg: Config, r: Run, m: Message, o: Outcome, r': Run, maxBytes: Option<nat>)
    requires LiveStep(cfg, r, m, o, r') && Withheld(cfg, r, maxBytes)
    requires ContextKept(r) && HeaderHookKept(cfg, r, ResponseSide)
    ensures Withheld(cfg, r', maxBytes)
  {
    hide HistoryKept, CallList, AllCalls, Received, SeenBodyEnd, Sent, Messages, Visible, KeepsBuffering, Parked, FlowOk,
         StepGood, ContextKept, HeaderHookKept, RequestInv, LocalReplyInv;
    StepProgress(cfg, r, m, o, r');
    UnopenedHalf(cfg, r, m, o, r');
    ContextStep(r, r', o.calls);
    if KeepsBuffering(AllCalls(r'), maxBytes) {
      KeepsBufferingPrefix(AllCalls(r), CallList(o.calls), maxBytes);
    }
    if m.side.RequestSide? {
      WithheldOtherStep(cfg, r, m, o, r', maxBytes);
    } else if !KeepsBuffering(AllCalls(r'), maxBytes) {
      assert r'.st.resp.furthest.Some?;
    } else if m.Headers? {
      WithheldHeadersStep(cfg, r, m, o, r', maxBytes);
    } else {
      if StreamsResponse(cfg, r.st) {
        BufferingIsParked(cfg, r, maxBytes);
      }
      if m.Body? {
        WithheldBodyStep(cfg, r, m, o, r', maxBytes);
      } else {
        WithheldTrailersStep(cfg, r, m, o, r', maxBytes);
      }
    }
  }

  /** A live run that withholds bytes and may still receive trailers. */
  ghost predicate HasPending(cfg: Config, r: Run, maxBytes: Option<nat>) {
    var ms := Messages(r.log);
    && r.status.Running? && StreamsResponse(cfg, r.st) && KeepsBuffering(AllCalls(r), maxBytes)
    && !SeenTrailers(ms, ResponseSide) && !SeenBodyEnd(ms, ResponseSide) && Received(ms, ResponseSide) != []
  }

  /** Closing a withheld body with trailers while bytes are pending is always rejected, with no hook called. */
  lemma TrailersRejectPendingBytes(cfg: Config, start: Run, events: seq<Event>, maxBytes: Option<nat>, oracle: Oracle)
    requires IsFresh(start)
    ensures var r := RunFrom(cfg, start, events);
            HasPending(cfg, r, maxBytes) ==>
              var o := Step(cfg, oracle, r.st, Trailers(ResponseSide));
              o.result == Ok(Halt(Rejection(502, BufferingNeedsFinalBody))) && o.calls == NO_CALLS
  {
    hide RunFrom, Received, SeenBodyEnd, Messages, AllCalls, Visible, KeepsBuffering, SeenTrailers, Seen, SeenHeadersEnd,
         Step;
    var r := RunFrom(cfg, start, events);
    if HasPending(cfg, r, maxBytes) {
      NothingIsVisibleBeforeTheEnd(cfg, start, events, maxBytes);
      LiveRunsKeepInv(cfg, start, events);
      HistoryIsRemembered(cfg, start, events);
      PendingTrailers(cfg, oracle, r.st);
    }
  }

  lemma PendingTrailers(cfg: Config, oracle: Oracle, st: Stream)
    requires Inv(cfg, st) && StreamsResponse(cfg, st) && BodyOpen(st, ResponseSide) && st.resp.furthest != Some(TrailersStep)
    requires st.resp.body != []
    ensures var o := Step(cfg, oracle, st, Trailers(ResponseSide));
            o.result == Ok(Halt(Rejection(502, BufferingNeedsFinalBody))) && o.calls == NO_CALLS
  {
    LocalReplyIff(cfg, st, Trailers(ResponseSide));
  }
}
