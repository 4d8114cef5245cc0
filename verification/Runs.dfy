/**
 Properties of every run: any configuration, any message sequence, any filter behaviour.
 */
module Runs {
  import opened Wire
  import opened Filters
  import opened Chunking
  import opened StreamSpec
  import opened Effects
  import opened Invariant
  import opened Steps

  // ---------------------------------------------------------------------------
  // Counting
  // ---------------------------------------------------------------------------

  function Count<T>(s: seq<T>, p: T -> bool): nat {
    if s == [] then 0 else Count(s[..|s| - 1], p) + if p(s[|s| - 1]) then 1 else 0
  }

  lemma {:induction false} CountConcat<T>(a: seq<T>, b: seq<T>, p: T -> bool)
    ensures Count(a + b, p) == Count(a, p) + Count(b, p)
    decreases |b|
  {
    if b == [] {
      assert a + b == a;
    } else {
      assert (a + b)[..|a + b| - 1] == a + b[..|b| - 1];
      CountConcat(a, b[..|b| - 1], p);
    }
  }

  lemma {:induction false} CountNone<T>(s: seq<T>, p: T -> bool)
    requires forall i :: 0 <= i < |s| ==> !p(s[i])
    ensures Count(s, p) == 0
  {
    if s != [] {
      CountNone(s[..|s| - 1], p);
    }
  }

  lemma CountOne<T>(x: T, p: T -> bool)
    ensures Count([x], p) == if p(x) then 1 else 0
  {
    assert [x][..0] == [];
  }

  function Headed(side: Side): Reply -> bool {
    (r: Reply) => r.payload.HeadersReply? && r.payload.side == side
  }

  function Bodied(side: Side): Reply -> bool {
    (r: Reply) => r.payload.BodyReply? && r.payload.side == side
  }

  function Halting(): Reply -> bool {
    (r: Reply) => r.payload.Immediate?
  }

  function OfKind(kind: HookKind): Call -> bool {
    (c: Call) => c.kind == kind
  }

  function FinalOf(side: Side): Call -> bool {
    (c: Call) => c.kind == BodyKind(side) && c.eos
  }

  function BodyOn(side: Side): Message -> bool {
    (m: Message) => m.Body? && m.side == side
  }

  // ---------------------------------------------------------------------------
  // Live streams keep the invariant
  // ---------------------------------------------------------------------------

  /** The starting point of a stream, in any pair of body modes. */
  predicate IsFresh(r: Run) {
    r == Fresh(r.st.req.mode, r.st.resp.mode, r.st.eagerBody)
  }

  lemma FreshInv(cfg: Config, r: Run)
    requires IsFresh(r)
    ensures Inv(cfg, r.st)
  {
  }

  lemma {:induction false} LiveRunsKeepInv(cfg: Config, start: Run, events: seq<Event>)
    requires IsFresh(start)
    ensures RunFrom(cfg, start, events).status.Running? ==> Inv(cfg, RunFrom(cfg, start, events).st)
  {
    hide Step, Inv, Threads, HooksInOrder;
    if events == [] {
      FreshInv(cfg, start);
    } else {
      var init, e := events[..|events| - 1], events[|events| - 1];
      LiveRunsKeepInv(cfg, start, init);
      var r := RunFrom(cfg, start, init);
      if r.status.Running? {
        StepIsGood(cfg, e.oracle, r.st, e.m);
      }
    }
  }

  // ---------------------------------------------------------------------------
  // One long-lived context
  // ---------------------------------------------------------------------------

  /** The calls form one chain: each starts from the fields the previous one left. */
  ghost predicate OneContext(start: Shared, calls: seq<Call>) {
    && (calls != [] ==> calls[0].before.shared == start)
    && forall i :: 0 < i < |calls| ==> calls[i].before.shared == calls[i - 1].after.shared
  }

  function EndOf(start: Shared, calls: seq<Call>): Shared {
    if calls == [] then start else calls[|calls| - 1].after.shared
  }

  lemma OneContextConcat(start: Shared, a: seq<Call>, b: seq<Call>)
    requires OneContext(start, a) && OneContext(EndOf(start, a), b)
    ensures OneContext(start, a + b) && EndOf(start, a + b) == EndOf(EndOf(start, a), b)
  {
  }

  lemma ChainedIsOneContext(start: Shared, calls: Calls)
    requires Chained(start, calls)
    ensures OneContext(start, CallList(calls)) && EndOf(start, CallList(calls)) == ChainEnd(start, calls)
  {
    var a, b := After(start, calls.header), After(After(start, calls.header), calls.body);
    OneContextConcat(start, Listed(calls.header), Listed(calls.body));
    OneContextConcat(start, Listed(calls.header) + Listed(calls.body), Listed(calls.selected));
  }

  /** What one more exchange adds to the replies sent. */
  lemma SentGrows(log: seq<Exchange>, x: Exchange)
    ensures Sent(log + [x]) == Sent(log) + Render(x.m.side, x.batch)
  {
    assert (log + [x])[..|log|] == log;
  }

  /** What a run says about the context: the slot is full while it lives, and all calls share one value. */
  ghost predicate ContextKept(r: Run) {
    && (r.status.Failed? ==> !InternalError(r.status.status))
    && OneContext(FRESH, AllCalls(r))
    && (r.status.Running? ==> r.st.carried.Some? && Parked(r.st.carried.value) == EndOf(FRESH, AllCalls(r)))
  }

  /**
   Rebuilding the context for every phase behaves like one context that lives as long as the
   stream: the slot is full at every message boundary, no internal error is reachable, and
   every hook, in either direction, starts from exactly the fields the previous hook left.
   */
  lemma {:induction false} ContextIsOneLongLivedValue(cfg: Config, start: Run, events: seq<Event>)
    requires IsFresh(start)
    ensures ContextKept(RunFrom(cfg, start, events))
  {
    hide Step, Inv, HooksInOrder, Advances, Threads, ContextKept, CallList, AllCalls;
    if events != [] {
      var init, e := events[..|events| - 1], events[|events| - 1];
      var r := RunFrom(cfg, start, init);
      ContextIsOneLongLivedValue(cfg, start, init);
      if r.status.Running? {
        LiveRunsKeepInv(cfg, start, init);
        StepIsGood(cfg, e.oracle, r.st, e.m);
        var o := Step(cfg, e.oracle, r.st, e.m);
        ContextStep(r, RunFrom(cfg, start, events), o.calls);
        ContextGrows(r, RunFrom(cfg, start, events), o);
      }
    } else {
      FreshContextKept(start);
    }
  }

  lemma FreshContextKept(start: Run)
    requires IsFresh(start)
    ensures ContextKept(start)
  {
    ParkingIsLossless(FreshContext([], None), NOTHING_CARRIED, [], None);
  }

  lemma ContextGrows(r: Run, r': Run, o: Outcome)
    requires r.status.Running? && ContextKept(r) && Threads(r.st, o) && AllCalls(r') == AllCalls(r) + CallList(o.calls)
    requires o.result.Err? ==> r'.status == Failed(o.result.status) && !InternalError(o.result.status)
    requires o.result.Ok? ==> (if o.result.value.Halt? then r'.status.Ended? else r'.status.Running? && r'.st == o.st)
    ensures ContextKept(r')
  {
    hide Parked, Chained, ChainEnd, EndOf, OneContext, CallList, InternalError, AllCalls;
    ChainedIsOneContext(Parked(r.st.carried.value), o.calls);
    OneContextConcat(FRESH, AllCalls(r), CallList(o.calls));
  }

  /** The calls of a step come after those of the run so far, whether it succeeds or fails. */
  lemma ContextStep(r: Run, r': Run, calls: Calls)
    requires r.unfinished == NO_CALLS
    requires || (r'.unfinished == NO_CALLS && r'.log != [] && r'.log[..|r'.log| - 1] == r.log && r'.log[|r'.log| - 1].calls == calls)
             || (r'.log == r.log && r'.unfinished == calls)
    ensures AllCalls(r') == AllCalls(r) + CallList(calls)
  {
    assert AllCalls(r) == LoggedCalls(r.log);
  }

  // ---------------------------------------------------------------------------
  // Headers replies
  // ---------------------------------------------------------------------------

  /** No body reply of a direction is sent before its headers reply. */
  ghost predicate BodiesFollowHeaders(replies: seq<Reply>, side: Side) {
    forall j :: 0 <= j < |replies| && Bodied(side)(replies[j]) ==> exists i :: 0 <= i < j && Headed(side)(replies[i])
  }

  lemma RenderCounts(side: Side, batch: Batch, other: Side)
    ensures Count(Render(side, batch), Headed(other))
            == if batch.Answer? && batch.headers.Some? && side == other then 1 else 0
    ensures Count(Render(side, batch), Halting()) == if batch.Halt? then 1 else 0
  {
    if batch.Halt? {
      CountOne(Reply(Immediate(batch.immediate), None), Headed(other));
      CountOne(Reply(Immediate(batch.immediate), None), Halting());
    } else {
      var h := if batch.headers.Some? then [Reply(HeadersReply(side, batch.headers.value), batch.modeOverride)] else [];
      var b := BodyReplies(side, batch.bodies);
      var t := if batch.trailers then [Reply(TrailersReply(side), None)] else [];
      CountNone(b, Headed(other));
      CountNone(t, Headed(other));
      CountNone(h + b + t, Halting());
      CountConcat(h + b, t, Headed(other));
      CountConcat(h, b, Headed(other));
      if batch.headers.Some? {
        CountOne(h[0], Headed(other));
      }
    }
  }

  lemma {:induction false} CountPositive<T>(s: seq<T>, p: T -> bool)
    ensures Count(s, p) > 0 <==> exists i :: 0 <= i < |s| && p(s[i])
  {
    if s != [] {
      var init := s[..|s| - 1];
      CountPositive(init, p);
      if exists i :: 0 <= i < |init| && p(init[i]) {
        var i :| 0 <= i < |init| && p(init[i]);
        assert p(s[i]);
      } else if p(s[|s| - 1]) {
      } else {
        assert forall i :: 0 <= i < |s| ==> !p(s[i]) by {
          assert forall i :: 0 <= i < |init| ==> init[i] == s[i];
        }
      }
    }
  }

  /** Appending a batch keeps the order if its direction already has, or now sends, the headers reply. */
  lemma RenderFollowsHeaders(replies: seq<Reply>, side: Side, batch: Batch, other: Side)
    requires BodiesFollowHeaders(replies, other)
    requires side == other && batch.Answer? && batch.bodies != [] ==> batch.headers.Some? || Count(replies, Headed(other)) > 0
    ensures BodiesFollowHeaders(replies + Render(side, batch), other)
  {
    var sent := replies + Render(side, batch);
    CountPositive(replies, Headed(other));
    forall j | 0 <= j < |sent| && Bodied(other)(sent[j])
      ensures exists i :: 0 <= i < j && Headed(other)(sent[i])
    {
      if j < |replies| {
        var i :| 0 <= i < j && Headed(other)(replies[i]);
        assert Headed(other)(sent[i]);
      } else if Count(replies, Headed(other)) > 0 {
        var i :| 0 <= i < |replies| && Headed(other)(replies[i]);
        assert Headed(other)(sent[i]);
      } else {
        RenderedBody(side, batch, other, j - |replies|);
        assert Headed(other)(sent[|replies|]);
      }
    }
  }

  /** A rendered body reply belongs to the batch's own direction and stands after its headers reply. */
  lemma RenderedBody(side: Side, batch: Batch, other: Side, j: nat)
    requires j < |Render(side, batch)| && Bodied(other)(Render(side, batch)[j])
    ensures side == other && batch.Answer? && batch.bodies != []
    ensures batch.headers.Some? ==> j > 0 && Headed(side)(Render(side, batch)[0])
  {
  }

  /** Reading the state, the headers reply of the other direction is untouched by a step. */
  lemma OtherEmission(cfg: Config, st: Stream, side: Side, other: Side, st': Stream)
    requires Inv(cfg, st) && OtherUntouched(st, side, st') && side != other
    requires side.RequestSide? && st.req.furthest.None? ==> !st.localReply
    ensures Emitted(cfg, st', other) == Emitted(cfg, st, other)
  {
  }

  /** What a run says about the headers replies it sent in one direction. */
  ghost predicate HeadersKept(cfg: Config, r: Run, side: Side) {
    var replies := Sent(r.log);
    && BodiesFollowHeaders(replies, side)
    && Count(replies, Headed(side)) <= 1
    && (r.status.Running? ==> Count(replies, Headed(side)) == if Emitted(cfg, r.st, side) then 1 else 0)
  }

  lemma HeadersReplyStep(cfg: Config, r: Run, m: Message, o: Outcome, side: Side)
    requires r.status.Running? && Inv(cfg, r.st) && o.result.Ok?
    requires StepGood(cfg, r.st, m, o)
    requires HeadersKept(cfg, r, side)
    requires m.side.RequestSide? ==> !r.st.localReply
    ensures HeadersKept(cfg, Run(o.st, if o.result.value.Halt? then Ended else Running,
                                 r.log + [Exchange(m, o.result.value, o.calls)], NO_CALLS), side)
  {
    hide Inv, Emitted, BodiesFollowHeaders, Threads, HooksInOrder, HooksRecorded, FollowsOverride, Render, InternalError,
         Count, Headed;
    var log := r.log + [Exchange(m, o.result.value, o.calls)];
    assert log[..|log| - 1] == r.log;
    var batch := o.result.value;
    RenderCounts(m.side, batch, side);
    CountConcat(Sent(r.log), Render(m.side, batch), Headed(side));
    RenderFollowsHeaders(Sent(r.log), m.side, batch, side);
    if Proceeds(o) && m.side != side {
      OtherEmission(cfg, r.st, m.side, side, o.st);
    }
  }

  /**
   In every run each direction gets at most one headers reply, before all of its body replies.
   While the stream lives and did not open with a local reply, a direction that has closed,
   by headers, body or trailers, got exactly one.
   */
  lemma {:induction false} OneHeadersReplyPerDirection(cfg: Config, start: Run, events: seq<Event>, side: Side)
    requires IsFresh(start)
    ensures HeadersKept(cfg, RunFrom(cfg, start, events), side)
    ensures var r := RunFrom(cfg, start, events);
            r.status.Running? && !r.st.localReply && Closed(r.st.At(side)) ==> Count(Sent(r.log), Headed(side)) == 1
  {
    var r := RunFrom(cfg, start, events);
    if events != [] {
      var init, e := events[..|events| - 1], events[|events| - 1];
      var r0 := RunFrom(cfg, start, init);
      OneHeadersReplyPerDirection(cfg, start, init, side);
      if r0.status.Running? {
        LiveRunsKeepInv(cfg, start, init);
        StepIsGood(cfg, e.oracle, r0.st, e.m);
        hide Inv, HeadersKept, StepGood, Emitted;
        var o := Step(cfg, e.oracle, r0.st, e.m);
        if o.result.Ok? {
          RequestNeedsNoLocalReply(cfg, e.oracle, r0.st, e.m);
          hide Step;
          HeadersReplyStep(cfg, r0, e.m, o, side);
        } else {
          HeadersFail(cfg, r0, r, side);
        }
      }
    }
    LiveRunsKeepInv(cfg, start, events);
    if r.status.Running? && !r.st.localReply && Closed(r.st.At(side)) {
      ClosedIsEmitted(cfg, r.st, side);
    }
  }

  lemma HeadersFail(cfg: Config, r: Run, r': Run, side: Side)
    requires HeadersKept(cfg, r, side) && r'.log == r.log && !r'.status.Running?
    ensures HeadersKept(cfg, r', side)
  {
  }

  lemma RequestNeedsNoLocalReply(cfg: Config, oracle: Oracle, st: Stream, m: Message)
    requires Step(cfg, oracle, st, m).result.Ok?
    ensures m.side.RequestSide? ==> !st.localReply
  {
    hide HandlerPlan;
  }

  lemma ClosedIsEmitted(cfg: Config, st: Stream, side: Side)
    requires Inv(cfg, st) && !st.localReply && Closed(st.At(side))
    ensures Emitted(cfg, st, side)
  {
  }

  /**
   The exception: the trailers of a local reply are acknowledged without the deferred full-duplex
   headers reply, so such a direction can close without one.
   */
  lemma LocalReplyCanCloseWithoutHeaders(cfg: Config, start: Run, headers: seq<HeaderValue>, a: Oracle, b: Oracle)
    requires IsFresh(start) && start.st.resp.mode.FullDuplex?
    ensures var r := RunFrom(cfg, start, [Event(Headers(ResponseSide, headers, false), a), Event(Trailers(ResponseSide), b)]);
            && r.status.Running? && r.st.localReply && Closed(r.st.resp)
            && Count(Sent(r.log), Headed(ResponseSide)) == 0
  {
    hide Step, Count, Headed;
    var e, f := Event(Headers(ResponseSide, headers, false), a), Event(Trailers(ResponseSide), b);
    var begun := Advanced(start.st, e.m);
    SilentLocalReply(cfg, start, headers, a, b);
    var r1 := Run(begun, Running, [Exchange(e.m, NOTHING, NO_CALLS)], NO_CALLS);
    assert [e, f][..1] == [e] && [e][..0] == [];
    assert RunFrom(cfg, start, [e]) == r1;
    var log := [Exchange(e.m, NOTHING, NO_CALLS), Exchange(f.m, NOTHING.(trailers := true), NO_CALLS)];
    assert RunFrom(cfg, start, [e, f]).log == log;
    assert log[..1] == r1.log && r1.log[..0] == [];
    assert log == r1.log + [log[1]];
    SentGrows(r1.log, log[1]);
    assert Sent(r1.log) == [];
    assert [] + Render(ResponseSide, log[1].batch) == Render(ResponseSide, log[1].batch);
    RenderCounts(ResponseSide, log[1].batch, ResponseSide);
  }

  lemma SilentLocalReply(cfg: Config, start: Run, headers: seq<HeaderValue>, a: Oracle, b: Oracle)
    requires IsFresh(start) && start.st.resp.mode.FullDuplex?
    ensures var m, n := Headers(ResponseSide, headers, false), Trailers(ResponseSide);
            var begun := Advanced(start.st, m);
            && Step(cfg, a, start.st, m) == Done(begun, NOTHING)
            && Step(cfg, b, begun, n) == Done(Advanced(begun, n), NOTHING.(trailers := true))
  {
    hide PlanFrame;
  }

  // ---------------------------------------------------------------------------
  // Immediate responses
  // ---------------------------------------------------------------------------

  /** At most one immediate response, the last reply of the run, sent exactly when the run ended by it. */
  ghost predicate ImmediateLast(r: Run) {
    var replies := Sent(r.log);
    && Count(replies, Halting()) == (if r.status.Ended? then 1 else 0)
    && (r.status.Ended? ==> replies != [] && replies[|replies| - 1].payload.Immediate?)
    && forall i :: 0 <= i < |replies| - 1 ==> !replies[i].payload.Immediate?
  }

  lemma RenderedImmediates(side: Side, batch: Batch)
    ensures var added := Render(side, batch);
            && (forall i :: 0 <= i < |added| - 1 ==> !added[i].payload.Immediate?)
            && (batch.Halt? ==> added != [] && added[|added| - 1].payload.Immediate?)
            && (!batch.Halt? ==> forall i :: 0 <= i < |added| ==> !added[i].payload.Immediate?)
  {
  }

  lemma NoneHalts(replies: seq<Reply>)
    ensures Count(replies, Halting()) == 0 ==> forall i :: 0 <= i < |replies| ==> !replies[i].payload.Immediate?
  {
    CountPositive(replies, Halting());
    assert forall i :: 0 <= i < |replies| ==> Halting()(replies[i]) == replies[i].payload.Immediate?;
  }

  lemma ImmediateStep(r: Run, m: Message, o: Outcome)
    requires r.status.Running? && ImmediateLast(r) && o.result.Ok?
    ensures ImmediateLast(Run(o.st, if o.result.value.Halt? then Ended else Running,
                              r.log + [Exchange(m, o.result.value, o.calls)], NO_CALLS))
  {
    hide Count, Render, Halting;
    var batch := o.result.value;
    var added := Render(m.side, batch);
    RenderedImmediates(m.side, batch);
    var log := r.log + [Exchange(m, batch, o.calls)];
    assert log[..|log| - 1] == r.log;
    RenderCounts(m.side, batch, RequestSide);
    CountConcat(Sent(r.log), added, Halting());
    NoneHalts(Sent(r.log));
  }

  /** Over every run, trailer acknowledgements included. */
  lemma {:induction false} ImmediateIsSingleAndLast(cfg: Config, start: Run, events: seq<Event>)
    requires IsFresh(start)
    ensures ImmediateLast(RunFrom(cfg, start, events))
  {
    if events != [] {
      hide Step;
      var init, e := events[..|events| - 1], events[|events| - 1];
      var r0 := RunFrom(cfg, start, init);
      ImmediateIsSingleAndLast(cfg, start, init);
      hide ImmediateLast;
      if r0.status.Running? {
        var o := Step(cfg, e.oracle, r0.st, e.m);
        if o.result.Ok? {
          ImmediateStep(r0, e.m, o);
        } else {
          FailKeepsLog(r0, RunFrom(cfg, start, events));
        }
      }
    }
  }

  lemma FailKeepsLog(r: Run, r': Run)
    requires ImmediateLast(r) && r.status.Running? && r'.log == r.log && r'.status.Failed?
    ensures ImmediateLast(r')
  {
  }

  // ---------------------------------------------------------------------------
  // Modes
  // ---------------------------------------------------------------------------

  /** The response mode Envoy uses after reading replies that may carry overrides. */
  function ModeAfter(mode: BodyMode, replies: seq<Reply>): BodyMode {
    if replies == [] then mode
    else
      var last := replies[|replies| - 1];
      if last.modeOverride.Some? then last.modeOverride.value.responseMode else ModeAfter(mode, replies[..|replies| - 1])
  }

  lemma {:induction false} ModeAfterConcat(mode: BodyMode, a: seq<Reply>, b: seq<Reply>)
    ensures ModeAfter(mode, a + b) == ModeAfter(ModeAfter(mode, a), b)
    decreases |b|
  {
    if b == [] {
      assert a + b == a;
    } else {
      assert (a + b)[..|a + b| - 1] == a + b[..|b| - 1];
      ModeAfterConcat(mode, a, b[..|b| - 1]);
    }
  }

  lemma {:induction false} ModeAfterPlain(mode: BodyMode, replies: seq<Reply>)
    requires forall i :: 0 <= i < |replies| ==> replies[i].modeOverride.None?
    ensures ModeAfter(mode, replies) == mode
  {
    if replies != [] {
      ModeAfterPlain(mode, replies[..|replies| - 1]);
    }
  }

  /** Only the headers reply of a batch can carry an override, and it comes first. */
  lemma RenderedOverride(side: Side, batch: Batch)
    ensures var sent := Render(side, batch);
            if batch.Answer? && batch.headers.Some?
            then sent != [] && sent[0].modeOverride == batch.modeOverride && forall i :: 0 < i < |sent| ==> sent[i].modeOverride.None?
            else forall i :: 0 <= i < |sent| ==> sent[i].modeOverride.None?
  {
  }

  lemma RenderMode(mode: BodyMode, side: Side, batch: Batch)
    ensures ModeAfter(mode, Render(side, batch))
            == if batch.Answer? && batch.headers.Some? && batch.modeOverride.Some? then batch.modeOverride.value.responseMode else mode
  {
    hide Render, ModeAfter;
    RenderedOverride(side, batch);
    var sent := Render(side, batch);
    if batch.Answer? && batch.headers.Some? {
      var h, rest := sent[..1], sent[1..];
      assert sent == h + rest;
      ModeAfterConcat(mode, h, rest);
      ModeAfterPlain(ModeAfter(mode, h), rest);
      ModeAfterOne(mode, sent[0]);
      assert h == [sent[0]];
    } else {
      ModeAfterPlain(mode, sent);
    }
  }

  lemma ModeAfterOne(mode: BodyMode, reply: Reply)
    ensures ModeAfter(mode, [reply]) == if reply.modeOverride.Some? then reply.modeOverride.value.responseMode else mode
  {
    assert [reply][..0] == [];
  }

  /** An override asks for a STREAMED response, keeps the request mode and rides on a request-headers reply. */
  ghost predicate OverridesAreStreamed(replies: seq<Reply>, requestMode: BodyMode) {
    forall i :: 0 <= i < |replies| && replies[i].modeOverride.Some? ==>
      && replies[i].payload.HeadersReply? && replies[i].payload.side.RequestSide?
      && replies[i].modeOverride.value == ModeOverride(requestMode, Streamed)
  }

  /** What a run says about the modes, given the ones it started with. */
  ghost predicate ModesKept(requestMode: BodyMode, responseMode: BodyMode, r: Run) {
    && OverridesAreStreamed(Sent(r.log), requestMode)
    && (r.status.Running? ==> r.st.req.mode == requestMode && r.st.resp.mode == ModeAfter(responseMode, Sent(r.log)))
  }

  lemma OverridesConcat(a: seq<Reply>, b: seq<Reply>, requestMode: BodyMode)
    requires OverridesAreStreamed(a, requestMode) && OverridesAreStreamed(b, requestMode)
    ensures OverridesAreStreamed(a + b, requestMode)
  {
  }

  lemma RenderedOverrides(side: Side, batch: Batch, requestMode: BodyMode)
    requires batch.Answer? && batch.modeOverride.Some? ==>
               side.RequestSide? && batch.modeOverride.value == ModeOverride(requestMode, Streamed)
    ensures OverridesAreStreamed(Render(side, batch), requestMode)
  {
  }

  lemma ModesStep(requestMode: BodyMode, responseMode: BodyMode, r: Run, m: Message, o: Outcome)
    requires r.status.Running? && ModesKept(requestMode, responseMode, r)
    requires o.result.Ok? && (Proceeds(o) ==> FollowsOverride(r.st, m, o))
    ensures ModesKept(requestMode, responseMode,
                      Run(o.st, if o.result.value.Halt? then Ended else Running,
                          r.log + [Exchange(m, o.result.value, o.calls)], NO_CALLS))
  {
    hide Render, ModeAfter, OverridesAreStreamed;
    var batch := o.result.value;
    var log := r.log + [Exchange(m, batch, o.calls)];
    assert log[..|log| - 1] == r.log;
    RenderedOverrides(m.side, batch, requestMode);
    OverridesConcat(Sent(r.log), Render(m.side, batch), requestMode);
    RenderMode(r.st.resp.mode, m.side, batch);
    ModeAfterConcat(responseMode, Sent(r.log), Render(m.side, batch));
  }

  /**
   Envoy and the server always agree on the modes: the request mode never changes, and the
   response mode is the configured one updated by the overrides actually sent.
   */
  lemma {:induction false} ModesAgreeWithOverridesSent(cfg: Config, start: Run, events: seq<Event>)
    requires IsFresh(start)
    ensures ModesKept(start.st.req.mode, start.st.resp.mode, RunFrom(cfg, start, events))
  {
    if events != [] {
      hide Step, Inv, EmitsInOrder, OtherUntouched, HooksRecorded, HooksInOrder, Threads, OverridesAreStreamed,
           FollowsOverride;
      var init, e := events[..|events| - 1], events[|events| - 1];
      var r0 := RunFrom(cfg, start, init);
      ModesAgreeWithOverridesSent(cfg, start, init);
      if r0.status.Running? {
        LiveRunsKeepInv(cfg, start, init);
        StepIsGood(cfg, e.oracle, r0.st, e.m);
        var o := Step(cfg, e.oracle, r0.st, e.m);
        if o.result.Ok? {
          ModesStep(start.st.req.mode, start.st.resp.mode, r0, e.m, o);
        }
      }
    }
  }

  // ---------------------------------------------------------------------------
  // Hook calls
  // ---------------------------------------------------------------------------

  /** Header hook of a direction: called exactly when the state says so, and never twice. */
  ghost predicate HeaderHookKept(cfg: Config, r: Run, side: Side) {
    && Count(AllCalls(r), OfKind(HeaderKind(side))) <= 1
    && (r.status.Running? ==> Count(AllCalls(r), OfKind(HeaderKind(side))) == if HeaderRan(cfg, r.st, side) then 1 else 0)
  }

  lemma CallListCount(calls: Calls, p: Call -> bool)
    ensures Count(CallList(calls), p)
            == (if calls.header.Some? && p(calls.header.value) then 1 else 0)
               + (if calls.body.Some? && p(calls.body.value) then 1 else 0)
               + (if calls.selected.Some? && p(calls.selected.value) then 1 else 0)
  {
    var h, b, s := Listed(calls.header), Listed(calls.body), Listed(calls.selected);
    CountConcat(h + b, s, p);
    CountConcat(h, b, p);
    ListedCount(calls.header, p);
    ListedCount(calls.body, p);
    ListedCount(calls.selected, p);
    hide Count;
  }

  lemma ListedCount(c: Option<Call>, p: Call -> bool)
    ensures Count(Listed(c), p) == if c.Some? && p(c.value) then 1 else 0
  {
    if c.Some? {
      CountOne(c.value, p);
    }
  }

  lemma OtherHeaderHook(cfg: Config, st: Stream, side: Side, other: Side, st': Stream)
    requires Inv(cfg, st) && OtherUntouched(st, side, st') && side != other
    requires side.RequestSide? && st.req.furthest.None? ==> !st.localReply
    ensures HeaderRan(cfg, st', other) == HeaderRan(cfg, st, other)
  {
  }

  /** One step: the header hook runs only if it has not, and the state records it. */
  lemma HeaderHookStep(cfg: Config, r: Run, r': Run, m: Message, o: Outcome, side: Side)
    requires r.status.Running? && Inv(cfg, r.st) && HeaderHookKept(cfg, r, side)
    requires HooksInOrder(cfg, r.st, m.side, o.calls) && AllCalls(r') == AllCalls(r) + CallList(o.calls)
    requires r'.status.Running? ==>
               && r'.st == o.st && HooksRecorded(cfg, r.st, m, o) && OtherUntouched(r.st, m.side, o.st)
               && (m.side.RequestSide? ==> !r.st.localReply)
    ensures HeaderHookKept(cfg, r', side)
  {
    hide Inv, HeaderRan, Count, CallList, AllCalls, OtherUntouched, Progresses, FiltersBody;
    CallListCount(o.calls, OfKind(HeaderKind(side)));
    CountConcat(AllCalls(r), CallList(o.calls), OfKind(HeaderKind(side)));
    if r'.status.Running? && m.side != side {
      OtherHeaderHook(cfg, r.st, m.side, side, o.st);
    }
  }

  /** `on_request` and `on_response` each run at most once per stream, failing calls included. */
  lemma {:induction false} HeaderHooksRunOnce(cfg: Config, start: Run, events: seq<Event>, side: Side)
    requires IsFresh(start)
    ensures HeaderHookKept(cfg, RunFrom(cfg, start, events), side)
  {
    hide Step, Inv, Threads, EmitsInOrder, FollowsOverride, OtherUntouched, HooksRecorded, HooksInOrder, CallList, AllCalls,
         HeaderHookKept;
    if events == [] {
      NoHookYet(cfg, start, side);
    } else {
      var init, e := events[..|events| - 1], events[|events| - 1];
      var r0, r := RunFrom(cfg, start, init), RunFrom(cfg, start, events);
      HeaderHooksRunOnce(cfg, start, init, side);
      if r0.status.Running? {
        LiveRunsKeepInv(cfg, start, init);
        StepIsGood(cfg, e.oracle, r0.st, e.m);
        var o := Step(cfg, e.oracle, r0.st, e.m);
        if Proceeds(o) {
          RequestNeedsNoLocalReply(cfg, e.oracle, r0.st, e.m);
        }
        ContextStep(r0, r, o.calls);
        HeaderHookStep(cfg, r0, r, e.m, o, side);
      }
    }
  }

  lemma NoHookYet(cfg: Config, start: Run, side: Side)
    requires IsFresh(start)
    ensures HeaderHookKept(cfg, start, side) && FinalCallsKept(cfg, start, side)
  {
    assert AllCalls(start) == [] && Messages(start.log) == [];
  }

  /** Body messages of a direction accepted so far. */
  function BodyMessages(r: Run, side: Side): nat {
    Count(Messages(r.log), BodyOn(side))
  }

  /** End-of-stream body calls due so far: one when the body is closed, one per message for BUFFERED requests. */
  function FinalCallsDue(cfg: Config, r: Run, side: Side): nat {
    if !FiltersBody(cfg, r.st, side) then 0
    else if side.RequestSide? && r.st.req.mode.Buffered? && BodyMessages(r, side) > 0 then BodyMessages(r, side)
    else if r.st.At(side).bodyState.Completed? then 1 else 0
  }

  ghost predicate FinalCallsKept(cfg: Config, r: Run, side: Side) {
    r.status.Running? ==>
      && Count(AllCalls(r), FinalOf(side)) == FinalCallsDue(cfg, r, side)
      && (!r.st.localReply ==> (r.st.At(side).bodySeen <==> BodyMessages(r, side) > 0))
  }

  lemma MessagesGrow(r: Run, m: Message, batch: Batch, calls: Calls, side: Side)
    ensures Count(Messages(r.log + [Exchange(m, batch, calls)]), BodyOn(side))
            == Count(Messages(r.log), BodyOn(side)) + if m.Body? && m.side == side then 1 else 0
  {
    assert Messages(r.log + [Exchange(m, batch, calls)]) == Messages(r.log) + [m];
    CountConcat(Messages(r.log), [m], BodyOn(side));
    CountOne(m, BodyOn(side));
  }

  /** Arithmetic of one step, on the state alone. */
  lemma FinalCallsStep(cfg: Config, r: Run, r': Run, m: Message, o: Outcome, side: Side)
    requires Inv(cfg, r.st) && Proceeds(o) && r'.st == o.st
    requires Inv(cfg, o.st) && HooksInOrder(cfg, r.st, m.side, o.calls) && HooksRecorded(cfg, r.st, m, o)
    requires OtherUntouched(r.st, m.side, o.st) && FollowsOverride(r.st, m, o)
    requires m.side.RequestSide? ==> !r.st.localReply
    requires m.side.ResponseSide? && r.st.req.furthest.None? ==> o.st.localReply
    requires BodyMessages(r', side) == BodyMessages(r, side) + if m.Body? && m.side == side then 1 else 0
    requires !r.st.localReply ==> (r.st.At(side).bodySeen <==> BodyMessages(r, side) > 0)
    ensures FinalCallsDue(cfg, r', side) == FinalCallsDue(cfg, r, side) + if FinalCall(o.calls) && m.side == side then 1 else 0
    ensures !o.st.localReply ==> (o.st.At(side).bodySeen <==> BodyMessages(r', side) > 0)
  {
    hide BodyMessages;
  }

  lemma {:induction false} FinalCallsAreDue(cfg: Config, start: Run, events: seq<Event>, side: Side)
    requires IsFresh(start)
    ensures FinalCallsKept(cfg, RunFrom(cfg, start, events), side)
  {
    hide Step, Inv, Threads, EmitsInOrder, FollowsOverride, OtherUntouched, HooksRecorded, HooksInOrder, CallList, AllCalls,
         FinalCallsKept;
    var r := RunFrom(cfg, start, events);
    if events == [] {
      NoHookYet(cfg, start, side);
    } else if r.status.Running? {
      var init, e := events[..|events| - 1], events[|events| - 1];
      var r0 := RunFrom(cfg, start, init);
      FinalCallsAreDue(cfg, start, init, side);
      LiveRunsKeepInv(cfg, start, init);
      StepIsGood(cfg, e.oracle, r0.st, e.m);
      var o := Step(cfg, e.oracle, r0.st, e.m);
      RequestNeedsNoLocalReply(cfg, e.oracle, r0.st, e.m);
      OpensLocalReply(cfg, e.oracle, r0.st, e.m);
      ContextStep(r0, r, o.calls);
      FinalCallsGrow(cfg, r0, r, e.m, o, side);
    } else {
      StoppedOwesNothing(cfg, r, side);
    }
  }

  lemma StoppedOwesNothing(cfg: Config, r: Run, side: Side)
    requires !r.status.Running?
    ensures FinalCallsKept(cfg, r, side)
  {
  }

  lemma FinalCallsGrow(cfg: Config, r: Run, r': Run, m: Message, o: Outcome, side: Side)
    requires r.status.Running? && FinalCallsKept(cfg, r, side) && Inv(cfg, r.st) && Proceeds(o) && r'.st == o.st
    requires r'.log == r.log + [Exchange(m, o.result.value, o.calls)] && AllCalls(r') == AllCalls(r) + CallList(o.calls)
    requires Inv(cfg, o.st) && HooksInOrder(cfg, r.st, m.side, o.calls) && HooksRecorded(cfg, r.st, m, o)
    requires OtherUntouched(r.st, m.side, o.st) && FollowsOverride(r.st, m, o)
    requires m.side.RequestSide? ==> !r.st.localReply
    requires m.side.ResponseSide? && r.st.req.furthest.None? ==> o.st.localReply
    ensures FinalCallsKept(cfg, r', side)
  {
    hide Inv, FollowsOverride, OtherUntouched, HooksRecorded, HooksInOrder, AllCalls, FinalCallsDue, Count, CallList,
         FinalOf, BodyOn;
    MessagesGrow(r, m, o.result.value, o.calls, side);
    FinalCallsStep(cfg, r, r', m, o, side);
    CallListFinal(cfg, r.st, m.side, side, o.calls);
    CountConcat(AllCalls(r), CallList(o.calls), FinalOf(side));
  }

  /**
   The body hook of a direction gets its end-of-stream call exactly once when the body is
   closed, whether an end-of-stream message or trailers close it. A BUFFERED request is
   filtered once per body message, so there the count is the number of body messages, and
   one when trailers close a body that never had a message.
   */
  lemma {:induction false} FinalBodyCallExactlyOnce(cfg: Config, start: Run, events: seq<Event>, side: Side)
    requires IsFresh(start)
    ensures FinalCallsKept(cfg, RunFrom(cfg, start, events), side)
    ensures var r := RunFrom(cfg, start, events);
            r.status.Running? && FiltersBody(cfg, r.st, side) && Opened(r.st.At(side)) && Closed(r.st.At(side)) ==>
              var n := BodyMessages(r, side);
              Count(AllCalls(r), FinalOf(side)) == if side.RequestSide? && r.st.req.mode.Buffered? && n > 0 then n else 1
  {
    hide Step, Inv, FinalCallsKept;
    FinalCallsAreDue(cfg, start, events, side);
    ClosedBodyIsCompleted(cfg, start, events, side);
    var r := RunFrom(cfg, start, events);
    hide RunFrom, Count, AllCalls;
    if r.status.Running? {
      assert FinalCallsKept(cfg, r, side) ==> Count(AllCalls(r), FinalOf(side)) == FinalCallsDue(cfg, r, side) by {
        DueIsCounted(cfg, r, side);
      }
    }
  }

  lemma DueIsCounted(cfg: Config, r: Run, side: Side)
    requires r.status.Running? && FinalCallsKept(cfg, r, side)
    ensures Count(AllCalls(r), FinalOf(side)) == FinalCallsDue(cfg, r, side)
  {
  }

  lemma ClosedBodyIsCompleted(cfg: Config, start: Run, events: seq<Event>, side: Side)
    requires IsFresh(start)
    ensures var r := RunFrom(cfg, start, events);
            r.status.Running? && !r.st.localReply && Opened(r.st.At(side)) && Closed(r.st.At(side)) ==>
              r.st.At(side).bodyState.Completed?
  {
    LiveRunsKeepInv(cfg, start, events);
    hide Step;
  }

  lemma OpensLocalReply(cfg: Config, oracle: Oracle, st: Stream, m: Message)
    requires Inv(cfg, st) && Proceeds(Step(cfg, oracle, st, m))
    ensures m.side.ResponseSide? && st.req.furthest.None? ==> Step(cfg, oracle, st, m).st.localReply
  {
    hide Inv, LocalReplyPlan, RequestHeadersPlan, RequestBodyPlan, ResponseHeadersPlan, ResponseBodyPlan, TrailersPlan,
         PlanFrame;
    if DispatchError(st, m).None? && m.side.ResponseSide? && st.req.furthest.None? {
      LocalReplyIff(cfg, st, m);
      LocalReplyStays(Advanced(st, m), m);
    }
  }

  lemma LocalReplyStays(st: Stream, m: Message)
    requires st.localReply
    ensures LocalReplyPlan(st, m).Settle? && LocalReplyPlan(st, m).outcome.st.localReply
  {
    hide BodyResponses, HeadersCommon, PlanFrame;
  }

  lemma CallListFinal(cfg: Config, st: Stream, side: Side, other: Side, calls: Calls)
    requires HooksInOrder(cfg, st, side, calls)
    ensures Count(CallList(calls), FinalOf(other)) == if FinalCall(calls) && side == other then 1 else 0
  {
    CallListCount(calls, FinalOf(other));
    hide Count, CallList;
  }
}
