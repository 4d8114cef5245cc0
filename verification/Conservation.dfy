/**
 Body bytes over whole runs: what Envoy sent, what it got back, what the filters saw.
 */
module Conservation {
  import opened Wire
  import opened Filters
  import opened Sequencing
  import opened Chunking
  import opened StreamSpec
  import opened Effects
  import opened Invariant
  import opened Steps
  import opened Runs
  import opened Grammar
  import opened BodyFlow

  // ---------------------------------------------------------------------------
  // Both ends of a direction
  // ---------------------------------------------------------------------------

  /** Body bytes received in a direction; what it repeats after the end does not count. */
  ghost function Received(ms: seq<Message>, side: Side): Bytes {
    if ms == [] then []
    else
      var init, m := ms[..|ms| - 1], ms[|ms| - 1];
      Received(init, side) + if m.Body? && m.side == side && !SeenBodyEnd(init, side) then m.body else []
  }

  /** Body replies of a direction, in the order they are sent. */
  function Bodies(replies: seq<Reply>, side: Side): seq<CommonResponse> {
    if replies == [] then []
    else
      var last := replies[|replies| - 1].payload;
      Bodies(replies[..|replies| - 1], side) + if last.BodyReply? && last.side == side then [last.common] else []
  }

  lemma {:induction false} BodiesConcat(a: seq<Reply>, b: seq<Reply>, side: Side)
    ensures Bodies(a + b, side) == Bodies(a, side) + Bodies(b, side)
    decreases |b|
  {
    if b == [] {
      assert a + b == a;
    } else {
      assert (a + b)[..|a + b| - 1] == a + b[..|b| - 1];
      BodiesConcat(a, b[..|b| - 1], side);
    }
  }

  lemma {:induction false} BodiesOfBodyReplies(side: Side, commons: seq<CommonResponse>, other: Side)
    ensures Bodies(BodyReplies(side, commons), other) == if side == other then commons else []
  {
    if commons != [] {
      var init := commons[..|commons| - 1];
      assert BodyReplies(side, commons)[..|commons| - 1] == BodyReplies(side, init);
      BodiesOfBodyReplies(side, init, other);
      assert commons == init + [commons[|commons| - 1]];
    }
  }

  lemma {:induction false} NoBodies(replies: seq<Reply>, side: Side)
    requires forall i :: 0 <= i < |replies| ==> !replies[i].payload.BodyReply?
    ensures Bodies(replies, side) == []
  {
    if replies != [] {
      NoBodies(replies[..|replies| - 1], side);
    }
  }

  lemma BodiesOfRender(side: Side, batch: Batch, other: Side)
    ensures Bodies(Render(side, batch), other) == if batch.Answer? && side == other then batch.bodies else []
  {
    hide Bodies, BodyReplies;
    if batch.Halt? {
      NoBodies(Render(side, batch), other);
    } else {
      var h := if batch.headers.Some? then [Reply(HeadersReply(side, batch.headers.value), batch.modeOverride)] else [];
      var b := BodyReplies(side, batch.bodies);
      var t := if batch.trailers then [Reply(TrailersReply(side), None)] else [];
      BodiesConcat(h + b, t, other);
      BodiesConcat(h, b, other);
      BodiesOfBodyReplies(side, batch.bodies, other);
      NoBodies(h, other);
      NoBodies(t, other);
    }
  }

  // ---------------------------------------------------------------------------
  // The last step of a live run
  // ---------------------------------------------------------------------------

  /** Everything known about a step that keeps the stream alive. */
  ghost predicate LiveStep(cfg: Config, r: Run, m: Message, o: Outcome, r': Run) {
    && r.status.Running? && Proceeds(o)
    && r' == Run(o.st, Running, r.log + [Exchange(m, o.result.value, o.calls)], NO_CALLS)
    && Inv(cfg, r.st) && HistoryKept(r)
    && StepGood(cfg, r.st, m, o) && FlowOk(cfg, r.st, m, o)
    && r.st.At(m.side).furthest != Some(TrailersStep)
    && (m.side.RequestSide? ==> !r.st.localReply)
    && (m.side.ResponseSide? && r.st.req.furthest.None? ==> o.st.localReply)
    && r.unfinished == NO_CALLS
  }

  lemma {:induction false} LiveIsFinished(cfg: Config, start: Run, events: seq<Event>)
    requires IsFresh(start)
    ensures RunFrom(cfg, start, events).status.Running? ==> RunFrom(cfg, start, events).unfinished == NO_CALLS
  {
    hide Step;
    if events != [] {
      LiveIsFinished(cfg, start, events[..|events| - 1]);
    }
  }

  lemma LastStep(cfg: Config, start: Run, events: seq<Event>)
    requires IsFresh(start) && events != [] && RunFrom(cfg, start, events).status.Running?
    ensures var r, e := RunFrom(cfg, start, events[..|events| - 1]), events[|events| - 1];
            LiveStep(cfg, r, e.m, Step(cfg, e.oracle, r.st, e.m), RunFrom(cfg, start, events))
  {
    var init, e := events[..|events| - 1], events[|events| - 1];
    var r := RunFrom(cfg, start, init);
    LiveRunsKeepInv(cfg, start, init);
    LiveIsFinished(cfg, start, init);
    HistoryIsRemembered(cfg, start, init);
    StepIsGood(cfg, e.oracle, r.st, e.m);
    hide Inv, HistoryKept, StepGood, FlowOk;
    var o := Step(cfg, e.oracle, r.st, e.m);
    assert Proceeds(o) by { hide Step; }
    StepFlows(cfg, e.oracle, r.st, e.m);
    RequestNeedsNoLocalReply(cfg, e.oracle, r.st, e.m);
    OpensLocalReply(cfg, e.oracle, r.st, e.m);
    NothingAfterTrailers(cfg, e.oracle, r.st, e.m);
    hide Step;
  }

  /** What one exchange adds to both ends of a direction. */
  lemma BothEndsGrow(r: Run, m: Message, batch: Batch, calls: Calls, side: Side)
    ensures var log := r.log + [Exchange(m, batch, calls)];
            && Bodies(Sent(log), side) == Bodies(Sent(r.log), side) + (if batch.Answer? && m.side == side then batch.bodies else [])
            && Messages(log) == Messages(r.log) + [m]
            && Received(Messages(log), side) == Received(Messages(r.log), side)
               + (if m.Body? && m.side == side && !SeenBodyEnd(Messages(r.log), side) then m.body else [])
            && (SeenBodyEnd(Messages(log), side) <==> SeenBodyEnd(Messages(r.log), side) || (m.Body? && m.side == side && m.endOfStream))
  {
    hide SeenBodyEnd, Render, Bodies;
    var log := r.log + [Exchange(m, batch, calls)];
    assert log[..|log| - 1] == r.log;
    BodiesConcat(Sent(r.log), Render(m.side, batch), side);
    BodiesOfRender(m.side, batch, side);
    var ms := Messages(r.log);
    assert Messages(log) == ms + [m];
    assert (ms + [m])[..|ms|] == ms;
    SeenGrows(ms, m, side);
  }

  // ---------------------------------------------------------------------------
  // Full duplex
  // ---------------------------------------------------------------------------

  /** A legal streamed body so far: chunks within the limit, and the end marked on the last one only, iff it came. */
  ghost predicate WellChunked(out: seq<CommonResponse>, ended: bool) {
    && (ended ==> out != [])
    && forall i :: 0 <= i < |out| ==>
         && IsChunk(out[i]) && |out[i].bodyMutation.value.bytes| <= BODY_CHUNK_LIMIT
         && (out[i].bodyMutation.value.endOfStream <==> ended && i == |out| - 1)
  }

  lemma WellChunkedAppend(out: seq<CommonResponse>, side: Side, data: Bytes, eos: bool)
    requires WellChunked(out, false)
    ensures WellChunked(out + Chunks(side, data, None, eos), eos)
    ensures StreamedBytes(out + Chunks(side, data, None, eos)) == StreamedBytes(out) + data
  {
    ChunksConserveBody(side, data, None, eos);
    StreamedBytesConcat(out, Chunks(side, data, None, eos));
    hide Chunks, StreamedBytes;
  }

  /** The end-of-stream body call of a direction in a list of calls, with its input and its output. */
  ghost predicate FinalCallMade(calls: seq<Call>, side: Side, input: Bytes, output: Bytes) {
    exists i :: 0 <= i < |calls| && FinalOf(side)(calls[i]) && calls[i].data == Some(input) && calls[i].produced == output
  }

  lemma FinalCallStays(calls: seq<Call>, more: seq<Call>, side: Side, input: Bytes, output: Bytes)
    requires FinalCallMade(calls, side, input, output)
    ensures FinalCallMade(calls + more, side, input, output)
  {
    var i :| 0 <= i < |calls| && FinalOf(side)(calls[i]) && calls[i].data == Some(input) && calls[i].produced == output;
    assert (calls + more)[i] == calls[i];
  }

  lemma FinalCallAdded(before: seq<Call>, calls: Calls, side: Side)
    requires FinalCall(calls) && calls.body.value.kind == BodyKind(side) && calls.body.value.data.Some?
    ensures FinalCallMade(before + CallList(calls), side, calls.body.value.data.value, calls.body.value.produced)
  {
    var i := |before| + |Listed(calls.header)|;
    assert (before + CallList(calls))[i] == calls.body.value;
  }

  /** What a live run says about the bytes of a full-duplex direction. */
  ghost predicate DuplexKept(cfg: Config, r: Run, side: Side) {
    var h := r.st.At(side);
    var out, received := Bodies(Sent(r.log), side), Received(Messages(r.log), side);
    && WellChunked(out, SeenBodyEnd(Messages(r.log), side))
    && (if PassesThrough(cfg, r.st, side) then StreamedBytes(out) == received
        else if h.bodyState.Active? then out == [] && h.body == received
        else StreamedBytes(out) == h.body && FinalCallMade(AllCalls(r), side, received, StreamedBytes(out)))
  }

  /** In a live direction a body message is a first delivery exactly while no end of stream came. */
  lemma FirstIffNotEnded(cfg: Config, r: Run, m: Message, o: Outcome, r': Run)
    requires LiveStep(cfg, r, m, o, r')
    ensures FirstDelivery(r.st, m) <==> m.Body? && !SeenBodyEnd(Messages(r.log), m.side)
    ensures r.st.At(m.side).bodyState.Completed? <==> SeenBodyEnd(Messages(r.log), m.side)
  {
    assert Progresses(r.st, m, o.st);
    hide StepGood, FlowOk, Seen, SeenTrailers, SeenHeadersEnd, SeenBodyEnd, RequestInv, LocalReplyInv, ResponseInv;
  }

  /** Before its headers arrive nothing of a direction is held or ended. */
  lemma UnopenedHalf(cfg: Config, r: Run, m: Message, o: Outcome, r': Run)
    requires LiveStep(cfg, r, m, o, r')
    ensures o.st.localReply && !r.st.localReply ==>
              r.st.req == NewHalf(r.st.req.mode) && r.st.resp == NewHalf(r.st.resp.mode) && m.Headers?
    ensures r.st.localReply ==> o.st.localReply
    ensures m.Headers? ==> o.st.At(m.side).bodyState.Active? && r.st.At(m.side).bodyState.Active?
  {
    assert Progresses(r.st, m, o.st) && Inv(cfg, o.st);
    hide StepGood, FlowOk, HistoryKept;
  }

  lemma DuplexPassStep(cfg: Config, r: Run, m: Message, o: Outcome, r': Run, side: Side)
    requires LiveStep(cfg, r, m, o, r') && r.st.At(side).mode.FullDuplex? && DuplexKept(cfg, r, side) && m.side == side
    requires PassesThrough(cfg, o.st, side)
    ensures DuplexKept(cfg, r', side)
  {
    hide Received, SeenBodyEnd, Bodies, Sent, AllCalls, StreamedBytes, Chunks, WellChunked, Inv, Messages, FinalCallMade,
         StepGood, HistoryKept, Metered, StreamedFlow;
    BothEndsGrow(r, m, o.result.value, o.calls, side);
    FirstIffNotEnded(cfg, r, m, o, r');
    UnopenedHalf(cfg, r, m, o, r');
    var out := Bodies(Sent(r.log), side);
    NoChunks();
    if FirstDelivery(r.st, m) {
      WellChunkedAppend(out, side, m.body, m.endOfStream);
    } else {
      assert out + [] == out;
    }
  }

  lemma DuplexFilterStep(cfg: Config, r: Run, m: Message, o: Outcome, r': Run, side: Side)
    requires LiveStep(cfg, r, m, o, r') && r.st.At(side).mode.FullDuplex? && DuplexKept(cfg, r, side) && m.side == side
    requires !PassesThrough(cfg, o.st, side)
    ensures DuplexKept(cfg, r', side)
  {
    hide Received, SeenBodyEnd, Bodies, Sent, AllCalls, StreamedBytes, Chunks, WellChunked, Inv, Messages, FinalCallMade,
         StepGood, HistoryKept, Metered, StreamedFlow, CallList;
    BothEndsGrow(r, m, o.result.value, o.calls, side);
    FirstIffNotEnded(cfg, r, m, o, r');
    UnopenedHalf(cfg, r, m, o, r');
    ContextStep(r, r', o.calls);
    StepProgress(cfg, r, m, o, r');
    NoChunks();
    var out, h, h' := Bodies(Sent(r.log), side), r.st.At(side), o.st.At(side);
    var received, received' := Received(Messages(r.log), side), Received(Messages(r'.log), side);
    assert out + [] == out && received + [] == received;
    assert m.Headers? || m.Trailers? ==> SeenBodyEnd(Messages(r'.log), side) == SeenBodyEnd(Messages(r.log), side);
    if FirstDelivery(r.st, m) && m.endOfStream {
      FinalCallAdded(AllCalls(r), o.calls, side);
      WellChunkedAppend(out, side, h'.body, true);
    } else if m.Trailers? && !Closed(h) {
      FinalCallAdded(AllCalls(r), o.calls, side);
      WellChunkedAppend(out, side, h'.body, false);
    } else if h.bodyState.Completed? {
      FinalCallStays(AllCalls(r), CallList(o.calls), side, received, StreamedBytes(out));
    }
  }

  lemma StepProgress(cfg: Config, r: Run, m: Message, o: Outcome, r': Run)
    requires LiveStep(cfg, r, m, o, r')
    ensures Progresses(r.st, m, o.st) && HooksInOrder(cfg, r.st, m.side, o.calls) && OtherUntouched(r.st, m.side, o.st)
    ensures FollowsOverride(r.st, m, o)
    ensures m.Trailers? && !o.st.localReply && !Closed(r.st.At(m.side)) ==> o.st.At(m.side).bodyState.Completed?
  {
    hide FlowOk, HistoryKept, Threads, Progresses, OtherUntouched, FollowsOverride, HooksInOrder, EmitsInOrder;
    assert Inv(cfg, o.st);
    assert Progresses(r.st, m, o.st);
    hide StepGood;
    if m.Trailers? {
      TrailersClose(cfg, r.st, m, o.st);
    }
  }

  lemma TrailersClose(cfg: Config, st: Stream, m: Message, st': Stream)
    requires Inv(cfg, st) && Inv(cfg, st') && Progresses(st, m, st') && m.Trailers? && OtherUntouched(st, m.side, st')
    requires m.side.RequestSide? ==> !st.localReply
    requires m.side.ResponseSide? && st.req.furthest.None? ==> st'.localReply
    ensures !st'.localReply && !Closed(st.At(m.side)) ==> st'.At(m.side).bodyState.Completed?
  {
  }

  /** A message of the other direction. */
  lemma DuplexOtherStep(cfg: Config, r: Run, m: Message, o: Outcome, r': Run, side: Side)
    requires LiveStep(cfg, r, m, o, r') && r'.st.At(side).mode.FullDuplex? && DuplexKept(cfg, r, side) && m.side != side
    ensures DuplexKept(cfg, r', side)
  {
    hide Received, SeenBodyEnd, Bodies, Sent, AllCalls, StreamedBytes, Chunks, WellChunked, Messages, FinalCallMade,
         StepGood, FlowOk, CallList, RequestInv, ResponseInv, LocalReplyInv;
    BothEndsGrow(r, m, o.result.value, o.calls, side);
    ContextStep(r, r', o.calls);
    StepProgress(cfg, r, m, o, r');
    UnopenedHalf(cfg, r, m, o, r');
    NoChunks();
    var out, received := Bodies(Sent(r.log), side), Received(Messages(r.log), side);
    assert out + [] == out && received + [] == received;
    if !PassesThrough(cfg, r.st, side) && r.st.At(side).bodyState.Completed? {
      FinalCallStays(AllCalls(r), CallList(o.calls), side, Received(Messages(r.log), side), StreamedBytes(out));
    }
  }

  /**
   Full duplex conserves bytes, for every way of cutting a body into messages. Unfiltered, the
   chunks sent concatenate to the bytes received. Filtered, nothing is sent until the body is
   closed; then the chunks concatenate to what the one final body call produced, and that call
   was given exactly the bytes received. No chunk exceeds the limit, and the end of stream is
   marked on exactly the last chunk iff a body message carried it, never when trailers close.
   */
  lemma {:induction false} FullDuplexConservesBytes(cfg: Config, start: Run, events: seq<Event>, side: Side)
    requires IsFresh(start) && start.st.At(side).mode.FullDuplex?
    ensures RunFrom(cfg, start, events).status.Running? ==> DuplexKept(cfg, RunFrom(cfg, start, events), side)
  {
    hide Step, Inv, StepGood, FlowOk, HistoryKept;
    var r := RunFrom(cfg, start, events);
    if events == [] {
      assert Messages(start.log) == [];
    } else if r.status.Running? {
      var init, e := events[..|events| - 1], events[|events| - 1];
      LastStep(cfg, start, events);
      DeliveryNeverChanges(cfg, start, init);
      DeliveryNeverChanges(cfg, start, events);
      FullDuplexConservesBytes(cfg, start, init, side);
      var r0 := RunFrom(cfg, start, init);
      var o := Step(cfg, e.oracle, r0.st, e.m);
      assert r0.status.Running?;
      hide DuplexKept, RunFrom;
      if e.m.side != side {
        DuplexOtherStep(cfg, r0, e.m, o, r, side);
      } else if PassesThrough(cfg, o.st, side) {
        DuplexPassStep(cfg, r0, e.m, o, r, side);
      } else {
        DuplexFilterStep(cfg, r0, e.m, o, r, side);
      }
    }
  }

  // ---------------------------------------------------------------------------
  // Local replies
  // ---------------------------------------------------------------------------

  ghost predicate LocalReplyKept(r: Run) {
    && (r.st.localReply && r.st.resp.mode.FullDuplex? && Opened(r.st.resp) ==> (r.st.resp.sent <==> BodyMessages(r, ResponseSide) > 0))
    && (r.log == [] ==> !r.st.resp.sent)
  }

  /**
   A local reply in full duplex whose headers did not end the stream gets its one headers reply
   with the first body message, and none if trailers close it without one.
   */
  lemma {:induction false} LocalReplyHeadersNeedABody(cfg: Config, start: Run, events: seq<Event>)
    requires IsFresh(start) && start.st.resp.mode.FullDuplex?
    ensures var r := RunFrom(cfg, start, events);
            r.status.Running? ==>
              && LocalReplyKept(r)
              && (r.st.localReply && Opened(r.st.resp) ==>
                    Count(Sent(r.log), Headed(ResponseSide)) == if BodyMessages(r, ResponseSide) > 0 then 1 else 0)
  {
    hide Step, BodyMessages;
    var r := RunFrom(cfg, start, events);
    OneHeadersReplyPerDirection(cfg, start, events, ResponseSide);
    DeliveryNeverChanges(cfg, start, events);
    if events != [] && r.status.Running? {
      var init, e := events[..|events| - 1], events[|events| - 1];
      LastStep(cfg, start, events);
      LocalReplyHeadersNeedABody(cfg, start, init);
      DeliveryNeverChanges(cfg, start, init);
      var r0 := RunFrom(cfg, start, init);
      var o := Step(cfg, e.oracle, r0.st, e.m);
      hide RunFrom, LocalReplyKept;
      LocalReplyStep(cfg, r0, e.m, o, r);
    }
  }

  lemma LocalReplyStep(cfg: Config, r: Run, m: Message, o: Outcome, r': Run)
    requires LiveStep(cfg, r, m, o, r') && LocalReplyKept(r) && r.st.resp.mode.FullDuplex?
    ensures LocalReplyKept(r')
  {
    hide StepGood, DuplexFlow, StreamedFlow, Metered, RequestInv, ResponseInv, HistoryKept;
    StepProgress(cfg, r, m, o, r');
    UnopenedHalf(cfg, r, m, o, r');
    MessagesGrow(r, m, o.result.value, o.calls, ResponseSide);
    hide Count;
    if !r.st.localReply && o.st.localReply {
      NothingLogged(r);
    }
  }

  lemma NothingLogged(r: Run)
    requires HistoryKept(r) && r.st.req.furthest.None? && r.st.resp.furthest.None?
    ensures BodyMessages(r, ResponseSide) == 0
  {
    assert Messages(r.log) == [];
  }

  /** An exchange that leaves what Envoy sent as it is, and calls no hook. */
  predicate PassesUntouched(mode: BodyMode, x: Exchange) {
    && x.batch.Answer? && x.calls == NO_CALLS
    && (x.batch.headers.Some? ==> x.batch.headers.value.headerMutation.None?)
    && (forall i :: 0 <= i < |x.batch.bodies| ==> x.batch.bodies[i].headerMutation.None?)
    && (x.m.Body? && !mode.FullDuplex? ==> |x.batch.bodies| == 1 && Forwarded(x.m.body, x.batch.bodies[0]) == x.m.body)
  }

  ghost predicate AllUntouched(r: Run) {
    r.st.localReply ==> forall i :: 0 <= i < |r.log| ==> PassesUntouched(r.st.resp.mode, r.log[i])
  }

  /** The plan of a local reply message. */
  lemma LocalPlanUntouched(st: Stream, m: Message)
    requires st.localReply && m.side.ResponseSide? && (m.Body? && st.resp.mode.FullDuplex? ==> st.resp.deferred.None?)
    ensures var plan := LocalReplyPlan(st, m);
            && plan.Settle?
            && (Proceeds(plan.outcome) ==>
                  && PassesUntouched(st.resp.mode, Exchange(m, plan.outcome.result.value, plan.outcome.calls))
                  && plan.outcome.st.resp.mode == st.resp.mode)
  {
    hide PlanFrame, Chunks;
    ChunksCarryNothing(m);
  }

  lemma ChunksCarryNothing(m: Message)
    ensures m.Body? ==>
              forall data, eos :: var cs := Chunks(ResponseSide, data, None, eos); forall i :: 0 <= i < |cs| ==> cs[i].headerMutation.None?
  {
    forall data, eos ensures var cs := Chunks(ResponseSide, data, None, eos); forall i :: 0 <= i < |cs| ==> cs[i].headerMutation.None? {
      ChunksConserveBody(ResponseSide, data, None, eos);
    }
  }

  lemma LocalStepUntouched(cfg: Config, oracle: Oracle, st: Stream, m: Message)
    requires Inv(cfg, st) && Proceeds(Step(cfg, oracle, st, m)) && Advanced(st, m).localReply && m.side.ResponseSide?
    ensures var o := Step(cfg, oracle, st, m);
            PassesUntouched(st.resp.mode, Exchange(m, o.result.value, o.calls)) && o.st.resp.mode == st.resp.mode
  {
    hide PlanFrame, LocalReplyPlan, PassesUntouched, RequestInv;
    LocalPlanUntouched(Advanced(st, m), m);
  }

  /** A local reply, over whole runs: no hook ever sees it, no header of it is changed, and every body passes as it is. */
  lemma {:induction false} LocalRepliesAreUntouched(cfg: Config, start: Run, events: seq<Event>)
    requires IsFresh(start)
    ensures RunFrom(cfg, start, events).status.Running? ==> AllUntouched(RunFrom(cfg, start, events))
  {
    hide Step, Inv, StepGood, FlowOk, HistoryKept, PassesUntouched, AllUntouched;
    var r := RunFrom(cfg, start, events);
    if events == [] {
      NothingTouched(r);
    } else if r.status.Running? {
      var init, e := events[..|events| - 1], events[|events| - 1];
      LastStep(cfg, start, events);
      LocalRepliesAreUntouched(cfg, start, init);
      var r0 := RunFrom(cfg, start, init);
      var o := Step(cfg, e.oracle, r0.st, e.m);
      if o.st.localReply {
        LocalReplyGoesOn(cfg, r0, e.m, o, r);
        LocalStepUntouched(cfg, e.oracle, r0.st, e.m);
        UntouchedGrows(r0, e.m, o, r);
      } else {
        NothingTouched(r);
      }
    }
  }

  lemma NothingTouched(r: Run)
    requires r.log == [] || !r.st.localReply
    ensures AllUntouched(r)
  {
  }

  lemma LocalReplyGoesOn(cfg: Config, r: Run, m: Message, o: Outcome, r': Run)
    requires LiveStep(cfg, r, m, o, r') && o.st.localReply
    ensures Advanced(r.st, m).localReply && m.side.ResponseSide? && (r.st.localReply || r.log == [])
  {
    assert Progresses(r.st, m, o.st);
    hide FlowOk, StepGood, Seen, SeenTrailers, SeenHeadersEnd, SeenBodyEnd;
    assert !r.st.localReply ==> Messages(r.log) == [];
  }

  lemma UntouchedGrows(r: Run, m: Message, o: Outcome, r': Run)
    requires AllUntouched(r) && (r.st.localReply || r.log == []) && Proceeds(o) && o.st.resp.mode == r.st.resp.mode
    requires r'.st == o.st && r'.log == r.log + [Exchange(m, o.result.value, o.calls)]
    requires PassesUntouched(r.st.resp.mode, Exchange(m, o.result.value, o.calls))
    ensures AllUntouched(r')
  {
    hide PassesUntouched;
  }
}
