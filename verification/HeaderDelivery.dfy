/**
 Header mutations over whole runs: the mutation of an early header hook reaches Envoy exactly
 once, and the declared length is the length of the body that was sent.
 */
module HeaderDelivery {
  import opened Wire
  import opened HeaderMaps
  import opened Filters
  import opened Chunking
  import opened StreamSpec
  import opened Effects
  import opened Invariant
  import opened Steps
  import opened Runs
  import opened Grammar
  import opened BodyFlow
  import opened Conservation
  import opened Limits
  import opened HeaderFlow

  /** The last element with a property. */
  function Last<T>(s: seq<T>, p: T -> bool): Option<T> {
    if s == [] then None
    else if p(s[|s| - 1]) then Some(s[|s| - 1]) else Last(s[..|s| - 1], p)
  }

  lemma {:induction false} LastConcat<T>(a: seq<T>, b: seq<T>, p: T -> bool)
    ensures Last(a + b, p) == if Last(b, p).Some? then Last(b, p) else Last(a, p)
    decreases |b|
  {
    if b == [] {
      assert a + b == a;
    } else {
      assert (a + b)[..|a + b| - 1] == a + b[..|b| - 1];
      LastConcat(a, b[..|b| - 1], p);
    }
  }

  lemma {:induction false} LastNone<T>(s: seq<T>, p: T -> bool)
    requires forall i :: 0 <= i < |s| ==> !p(s[i])
    ensures Last(s, p).None?
  {
    if s != [] {
      LastNone(s[..|s| - 1], p);
    }
  }

  function HeadersOn(side: Side): Message -> bool {
    (m: Message) => m.Headers? && m.side == side
  }

  lemma LastHeadersReply(side: Side, batch: Batch, other: Side)
    ensures Last(Render(side, batch), Headed(other))
            == if batch.Answer? && batch.headers.Some? && side == other
               then Some(Reply(HeadersReply(side, batch.headers.value), batch.modeOverride)) else None
  {
    hide Last;
    if batch.Answer? && batch.headers.Some? && side == other {
      var h := [Reply(HeadersReply(side, batch.headers.value), batch.modeOverride)];
      var rest := BodyReplies(side, batch.bodies) + if batch.trailers then [Reply(TrailersReply(side), None)] else [];
      assert Render(side, batch) == h + rest;
      LastConcat(h, rest, Headed(other));
      LastNone(rest, Headed(other));
      LastOfOne(h[0], Headed(other));
    } else {
      LastNone(Render(side, batch), Headed(other));
    }
  }

  lemma LastOfOne<T>(x: T, p: T -> bool)
    ensures Last([x], p) == if p(x) then Some(x) else None
  {
    assert [x][..0] == [];
  }

  lemma LastHeaderCall(cfg: Config, st: Stream, side: Side, calls: Calls, other: Side)
    requires HooksInOrder(cfg, st, side, calls)
    ensures Last(CallList(calls), OfKind(HeaderKind(other))) == if side == other then calls.header else None
  {
    hide Last;
    var p := OfKind(HeaderKind(other));
    var rest := Listed(calls.body) + Listed(calls.selected);
    assert CallList(calls) == Listed(calls.header) + rest;
    LastConcat(Listed(calls.header), rest, p);
    LastNone(rest, p);
    if calls.header.Some? {
      LastOfOne(calls.header.value, p);
    } else {
      LastNone(Listed(calls.header), p);
    }
  }

  /** The call of the header hook of a direction; there is at most one. */
  function HeaderCall(r: Run, side: Side): Option<Call> {
    Last(AllCalls(r), OfKind(HeaderKind(side)))
  }

  /** The headers reply of a direction; there is at most one. */
  function HeadersSent(r: Run, side: Side): Option<Reply> {
    Last(Sent(r.log), Headed(side))
  }

  /** The headers Envoy delivered for a direction; there are at most one. */
  function HeadersReceived(r: Run, side: Side): Option<Message> {
    Last(Messages(r.log), HeadersOn(side))
  }

  predicate SentWith(r: Run, side: Side, mutation: Option<HeaderMutation>) {
    var sent := HeadersSent(r, side);
    sent.Some? && sent.value.payload.HeadersReply? && sent.value.payload.common == HeadersCommon(side, mutation)
  }

  /** Where the mutation of the header hook is: parked, or in the headers reply, never both. */
  ghost predicate MutationKept(cfg: Config, r: Run, side: Side) {
    var h, call := r.st.At(side), HeaderCall(r, side);
    && (h.furthest.None? ==> HeadersSent(r, side).None?)
    && (!r.st.localReply && RanEarly(cfg, side, h) ==>
      && call.Some?
      && (side.ResponseSide? ==>
            && HeadersReceived(r, side).Some? && HeadersReceived(r, side).value.Headers?
            && call.value.before.response == Some(FromEnvoy(HeadersReceived(r, side).value.headers))
            && call.value.after.response.Some?)
      && var mutation := MutationOf(side, call.value);
         match h.mode {
           case NoBody => SentWith(r, side, mutation)
           case Streamed => SentWith(r, side, mutation)
           case FullDuplex =>
             if h.sent then SentWith(r, side, mutation) && h.deferred.None? else HeadersSent(r, side).None? && h.deferred == mutation
           case Buffered =>
             && SentWith(r, side, None)
             && (h.bodyState.Active? ==> h.deferred == mutation && r.st.response == call.value.after.response)
         })
  }

  /** What one exchange adds to the three records. */
  lemma RecordsGrow(cfg: Config, r: Run, m: Message, o: Outcome, r': Run, side: Side)
    requires LiveStep(cfg, r, m, o, r')
    ensures HeaderCall(r', side) == if m.side == side && o.calls.header.Some? then o.calls.header else HeaderCall(r, side)
    ensures HeadersReceived(r', side) == if m.side == side && m.Headers? then Some(m) else HeadersReceived(r, side)
    ensures HeadersSent(r', side)
            == if m.side == side && o.result.value.headers.Some?
               then Some(Reply(HeadersReply(side, o.result.value.headers.value), o.result.value.modeOverride)) else HeadersSent(r, side)
  {
    hide Last, Inv, StepGood, FlowOk, HistoryKept, CallList, AllCalls, Render, Progresses, OtherUntouched, FollowsOverride,
         HooksInOrder, Headed, OfKind, HeadersOn;
    StepProgress(cfg, r, m, o, r');
    assert r'.log[..|r'.log| - 1] == r.log;
    ContextStep(r, r', o.calls);
    LastConcat(AllCalls(r), CallList(o.calls), OfKind(HeaderKind(side)));
    LastHeaderCall(cfg, r.st, m.side, o.calls, side);
    LastConcat(Sent(r.log), Render(m.side, o.result.value), Headed(side));
    LastHeadersReply(m.side, o.result.value, side);
    assert Messages(r'.log) == Messages(r.log) + [m];
    LastConcat(Messages(r.log), [m], HeadersOn(side));
    LastHeadersOfOne(m, side);
  }

  lemma LastHeadersOfOne(m: Message, side: Side)
    ensures Last([m], HeadersOn(side)) == if m.Headers? && m.side == side then Some(m) else None
  {
    LastOfOne(m, HeadersOn(side));
  }

  lemma MutationHeadersStep(cfg: Config, r: Run, m: Message, o: Outcome, r': Run, side: Side)
    requires LiveStep(cfg, r, m, o, r') && MutationKept(cfg, r, side) && m.side == side && m.Headers?
    requires MutationFlow(cfg, r.st, m, o)
    ensures MutationKept(cfg, r', side)
  {
    hide Inv, FlowOk, StepGood, HistoryKept, HeaderCall, HeadersSent, HeadersReceived, MutationOf, HeadersCommon, FromEnvoy,
         ParkedFlow;
    StepProgress(cfg, r, m, o, r');
    UnopenedHalf(cfg, r, m, o, r');
    RecordsGrow(cfg, r, m, o, r', side);
    EarlyStaysEarly(cfg, r, m, o, r');
  }

  lemma MutationLaterStep(cfg: Config, r: Run, m: Message, o: Outcome, r': Run, side: Side)
    requires LiveStep(cfg, r, m, o, r') && MutationKept(cfg, r, side) && m.side == side && !m.Headers?
    requires MutationFlow(cfg, r.st, m, o)
    ensures MutationKept(cfg, r', side)
  {
    hide Inv, FlowOk, StepGood, HistoryKept, HeaderCall, HeadersSent, HeadersReceived, MutationOf, HeadersCommon, FromEnvoy,
         EarlyFlow;
    StepProgress(cfg, r, m, o, r');
    UnopenedHalf(cfg, r, m, o, r');
    RecordsGrow(cfg, r, m, o, r', side);
    EarlyStaysEarly(cfg, r, m, o, r');
  }

  lemma MutationOtherStep(cfg: Config, r: Run, m: Message, o: Outcome, r': Run, side: Side)
    requires LiveStep(cfg, r, m, o, r') && MutationKept(cfg, r, side) && m.side != side
    requires MutationFlow(cfg, r.st, m, o)
    ensures MutationKept(cfg, r', side)
  {
    hide Inv, FlowOk, StepGood, HistoryKept, HeaderCall, HeadersSent, HeadersReceived, MutationOf, HeadersCommon, FromEnvoy,
         EarlyFlow, ParkedFlow;
    StepProgress(cfg, r, m, o, r');
    UnopenedHalf(cfg, r, m, o, r');
    RecordsGrow(cfg, r, m, o, r', side);
  }

  /** Outside the headers step, whether a direction's header filters ran early does not change. */
  lemma EarlyStaysEarly(cfg: Config, r: Run, m: Message, o: Outcome, r': Run)
    requires LiveStep(cfg, r, m, o, r')
    ensures RanEarly(cfg, m.side, o.st.At(m.side)) && !m.Headers? ==>
              RanEarly(cfg, m.side, r.st.At(m.side)) && (!o.st.localReply ==> o.calls.header.None?)
    ensures o.st.At(m.side).mode == r.st.At(m.side).mode
  {
    StepProgress(cfg, r, m, o, r');
    hide FlowOk, HistoryKept, Threads, EmitsInOrder;
  }

  /**
   Deferred mutations are conserved. When header filters ran on arrival of the headers, what
   they asked for is in exactly one place: in the one headers reply, or, before a full-duplex
   direction sent it, parked. A BUFFERED response keeps it parked until the body is closed.
   */
  lemma {:induction false} MutationIsParkedOrSent(cfg: Config, start: Run, events: seq<Event>, side: Side)
    requires IsFresh(start)
    ensures RunFrom(cfg, start, events).status.Running? ==> MutationKept(cfg, RunFrom(cfg, start, events), side)
  {
    hide Step, Inv, StepGood, FlowOk, HistoryKept, MutationFlow, ClosingFlow;
    var r := RunFrom(cfg, start, events);
    if events != [] && r.status.Running? {
      var init, e := events[..|events| - 1], events[|events| - 1];
      LastStep(cfg, start, events);
      MutationIsParkedOrSent(cfg, start, init, side);
      var r0 := RunFrom(cfg, start, init);
      var o := Step(cfg, e.oracle, r0.st, e.m);
      assert r0.status.Running?;
      StepMoves(cfg, e.oracle, r0.st, e.m);
      hide RunFrom, MutationKept;
      if e.m.side != side {
        MutationOtherStep(cfg, r0, e.m, o, r, side);
      } else if e.m.Headers? {
        MutationHeadersStep(cfg, r0, e.m, o, r, side);
      } else {
        MutationLaterStep(cfg, r0, e.m, o, r, side);
      }
    }
  }

  // ---------------------------------------------------------------------------
  // BUFFERED responses
  // ---------------------------------------------------------------------------

  /** The step that follows a live run, when it proceeds. */
  lemma NextStep(cfg: Config, start: Run, events: seq<Event>, next: Event)
    requires IsFresh(start) && RunFrom(cfg, start, events).status.Running?
    requires Proceeds(Step(cfg, next.oracle, RunFrom(cfg, start, events).st, next.m))
    ensures var r, r' := RunFrom(cfg, start, events), RunFrom(cfg, start, events + [next]);
            && LiveStep(cfg, r, next.m, Step(cfg, next.oracle, r.st, next.m), r')
            && ClosingFlow(r.st, next.m, Step(cfg, next.oracle, r.st, next.m))
            && !Rejected(r.st, next.m)
  {
    assert (events + [next])[..|events|] == events;
    LastStep(cfg, start, events + [next]);
    var r := RunFrom(cfg, start, events);
    StepMoves(cfg, next.oracle, r.st, next.m);
    StepVerdict(cfg, next.oracle, r.st, next.m);
    hide Step, Inv, StepGood, FlowOk, HistoryKept, ClosingFlow, Rejected;
  }

  /** Response headers at three moments: as received, after the header hook, after the body hook. */
  function BufferedMutation(h0: HeaderMap, h1: HeaderMap, h2: HeaderMap, produced: Bytes, size: nat): Option<HeaderMutation> {
    WithContentLength(Merge(Diff(h1, h0), Diff(h2, h1)), produced, size)
  }

  /** No header the header hook changed is dropped by the body hook, but for some that do not matter. */
  ghost predicate NoLateDrop(h0: HeaderMap, h1: HeaderMap, h2: HeaderMap, exempt: set<Bytes>) {
    forall name :: name in h1.fields && name !in h2.fields && name !in exempt ==> !Changed(h1.fields, h0.fields, name)
  }

  lemma LengthKept(mutation: Option<HeaderMutation>, body: Bytes)
    ensures WithContentLength(mutation, body, |body|) == mutation
  {
  }

  lemma SameButOne(a: Multimap, b: Multimap, name: Bytes)
    requires name in a
    ensures a == b[name := a[name]] <==> forall n :: n != name ==> SameAt(a, b, n)
  {
    var c := b[name := a[name]];
    if forall n :: n != name ==> SameAt(a, b, n) {
      forall n ensures n in a <==> n in c ensures n in a ==> a[n] == c[n] {
        assert n != name ==> SameAt(a, b, n);
      }
      assert a == c;
    } else {
      var n :| n != name && !SameAt(a, b, n);
      assert !SameAt(a, c, n);
    }
  }

  lemma SameWithout(a: Multimap, b: Multimap, c: Multimap, name: Bytes, n: Bytes)
    requires a - {name} == b - {name} && n != name
    ensures SameAt(a, c, n) <==> SameAt(b, c, n)
  {
    assert n in a <==> n in a - {name};
    assert n in b <==> n in b - {name};
    assert n in a ==> a[n] == (a - {name})[n];
    assert n in b ==> b[n] == (b - {name})[n];
  }

  /**
   The merged mutation takes the received headers to the final ones exactly when the body hook
   dropped nothing the header hook had changed. A resized body gets its declared length as well,
   and then a dropped `content-length` does not matter. Body hooks that leave the headers alone
   always meet the condition.
   */
  lemma BufferedMutationReachesFinal(h0: HeaderMap, h1: HeaderMap, h2: HeaderMap, produced: Bytes, size: nat)
    ensures var result := Apply(h0.fields, BufferedMutation(h0, h1, h2, produced, size));
            if |produced| == size then result == h2.fields <==> NoLateDrop(h0, h1, h2, {})
            else result == h2.fields[CONTENT_LENGTH := [Decimal(|produced|)]] <==> NoLateDrop(h0, h1, h2, {CONTENT_LENGTH})
    ensures h1.fields == h2.fields ==> NoLateDrop(h0, h1, h2, {})
  {
    hide Apply, Diff, Merge, Changed, WithContentLength, LengthSet, Decimal, DecimalValue, SetNames, WithoutLength,
         IsContentLength, LeavesLength, SameAt;
    var merged := Merge(Diff(h1, h0), Diff(h2, h1));
    if |produced| == size {
      MergedDiffsReachFinal(h0, h1, h2);
      LengthKept(merged, produced);
    } else {
      var result := Apply(h0.fields, WithContentLength(merged, produced, size));
      DeclaredLengthIsEmittedLength(h0.fields, merged, produced, size);
      SameButOne(result, h2.fields, CONTENT_LENGTH);
      forall name | name != CONTENT_LENGTH
        ensures SameAt(result, h2.fields, name)
                <==> !(name in h1.fields && name !in h2.fields && Changed(h1.fields, h0.fields, name))
      {
        SameWithout(result, Apply(h0.fields, merged), h2.fields, CONTENT_LENGTH, name);
        MergedDiffsReachFinalAt(h0, h1, h2, name);
      }
    }
  }

  /** A live BUFFERED response whose header filters ran early gets its last body message. */
  ghost predicate EndsBuffered(cfg: Config, r: Run, m: Message, o: Outcome) {
    && r.status.Running? && !r.st.localReply && r.st.resp.mode.Buffered? && RanEarly(cfg, ResponseSide, r.st.resp)
    && m.Body? && m.side.ResponseSide? && m.endOfStream && Proceeds(o)
  }

  /** The one reply carries both mutations, over the headers as received, and the body the filters left. */
  ghost predicate CarriesBoth(r: Run, m: Message, o: Outcome)
    requires m.Body? && Proceeds(o)
  {
    var call, received := HeaderCall(r, ResponseSide), HeadersReceived(r, ResponseSide);
    && FinalCall(o.calls) && call.Some? && call.value.after.response.Some? && received.Some? && received.value.Headers?
    && var h0, h1, produced := FromEnvoy(received.value.headers), call.value.after.response.value, o.calls.body.value.produced;
       var size := |Received(Messages(r.log), ResponseSide) + m.body|;
       o.result.value.bodies
       == [BodyCommon(ResponseSide, BufferedMutation(h0, h1, LastHeaders(h1, o.calls), produced, size), Some(Replace(produced)))]
  }

  /**
   BUFFERED response whose header filters ran early: the reply that ends the body carries the
   parked mutation and the body hook's own, over the headers as received.
   */
  lemma BufferedResponseDeliversAtEnd(cfg: Config, start: Run, events: seq<Event>, next: Event)
    requires IsFresh(start)
    ensures var r := RunFrom(cfg, start, events);
            var o := Step(cfg, next.oracle, r.st, next.m);
            EndsBuffered(cfg, r, next.m, o) ==> CarriesBoth(r, next.m, o)
  {
    hide Step, RunFrom, Inv, StepGood, FlowOk, HistoryKept, HeaderCall, HeadersReceived, HeadersSent, Received, Messages,
         Rejected, FromEnvoy, Diff, LastHeaders, Merge, WithContentLength, BodyCommon;
    var r := RunFrom(cfg, start, events);
    var o := Step(cfg, next.oracle, r.st, next.m);
    if EndsBuffered(cfg, r, next.m, o) {
      MutationIsParkedOrSent(cfg, start, events, ResponseSide);
      TalliesAreExact(cfg, start, events, ResponseSide);
      NextStep(cfg, start, events, next);
      var r' := RunFrom(cfg, start, events + [next]);
      UnopenedHalf(cfg, r, next.m, o, r');
      ClosesHeldBody(cfg, r, next.m, o, r');
    }
  }

  /** An end-of-stream body message that proceeds closes an open body, with a final call if the body is filtered. */
  lemma ClosesHeldBody(cfg: Config, r: Run, m: Message, o: Outcome, r': Run)
    requires LiveStep(cfg, r, m, o, r') && m.Body? && m.endOfStream && !Rejected(r.st, m) && !o.st.localReply
    requires !r.st.At(m.side).mode.FullDuplex? && FiltersBody(cfg, r.st, m.side)
    ensures FinalCall(o.calls) && r.st.At(m.side).bodyState.Active?
  {
    StepProgress(cfg, r, m, o, r');
    hide FlowOk, HistoryKept, Threads, EmitsInOrder;
  }

  /**
   Trailers that close a BUFFERED body are only acknowledged: the pipeline runs, but no reply is
   left to carry what it asked for, so a parked mutation reaches Envoy iff a body message ends
   the stream.
   */
  lemma BufferedTrailersCarryNothing(cfg: Config, oracle: Oracle, st: Stream, side: Side)
    requires Inv(cfg, st) && st.At(side).mode.Buffered? && Proceeds(Step(cfg, oracle, st, Trailers(side)))
    requires side.ResponseSide? ==> st.req.furthest.Some?
    ensures Step(cfg, oracle, st, Trailers(side)).result == Ok(NOTHING.(trailers := true))
  {
    if side.RequestSide? {
      RequestPlansAreSound(cfg, st, Trailers(side));
    } else {
      ResponsePlansAreSound(cfg, st, Trailers(side));
    }
    assert DispatchError(st, Trailers(side)).None?;
    LocalReplyIff(cfg, st, Trailers(side));
    var plan := PlanFor(cfg, st, Trailers(side));
    ExecuteFits(cfg, oracle, plan);
    var o := Execute(cfg, oracle, plan);
    assert !Advanced(st, Trailers(side)).localReply;
    hide Inv, Execute, TrailersPlan;
    assert o.st.At(side).mode.Buffered? by {
      if !plan.Settle? {
        PhaseFrame(cfg, plan, o);
      }
    }
  }

  /** The reply to headers that end the stream means what the filters asked for, to whoever holds the headers. */
  ghost predicate EndDelivered(m: Message, o: Outcome, held: Multimap)
    requires m.Headers? && Proceeds(o)
  {
    var reply := o.result.value.headers;
    && o.calls.header.Some? && reply.Some? && o.result.value.bodies == []
    && if m.side.RequestSide? then
         forall name :: GetAll(Apply(held, reply.value.headerMutation), name) == Edited(held, LastEdits(o.calls), name)
       else
         Apply(FromEnvoy(m.headers).fields, reply.value.headerMutation) == LastHeaders(FromEnvoy(m.headers), o.calls).fields
  }

  /**
   Headers that end the stream, in every mode: one headers reply, no body reply; a request ends
   up edited as the last hook asked, and a response with the headers the last hook left.
   */
  lemma HeadersOnlyAreDelivered(cfg: Config, start: Run, events: seq<Event>, next: Event, held: Multimap)
    requires IsFresh(start) && next.m.Headers? && next.m.endOfStream
    ensures var r := RunFrom(cfg, start, events);
            var o := Step(cfg, next.oracle, r.st, next.m);
            r.status.Running? && Proceeds(o) && !o.st.localReply ==> EndDelivered(next.m, o, held)
  {
    hide RunFrom, Step, Inv, Apply, Diff, FromEnvoy, CollectRequest, Edited, LastEdits, LastHeaders, AffectsRouting;
    LiveRunsKeepInv(cfg, start, events);
    var r := RunFrom(cfg, start, events);
    var o := Step(cfg, next.oracle, r.st, next.m);
    if r.status.Running? && Proceeds(o) && !o.st.localReply {
      StepMoves(cfg, next.oracle, r.st, next.m);
      if next.m.side.RequestSide? {
        forall name ensures GetAll(Apply(held, CollectRequest(LastEdits(o.calls))), name) == Edited(held, LastEdits(o.calls), name) {
          RequestEditsTakeEffect(held, LastEdits(o.calls), name);
        }
      } else {
        DiffIsExact(LastHeaders(FromEnvoy(next.m.headers), o.calls), FromEnvoy(next.m.headers));
      }
    }
  }

  /** A mutation includes another: all of its removals, and all that it sets but the length. */
  predicate Includes(m: HeaderMutation, parked: HeaderMutation) {
    parked.removeHeaders <= m.removeHeaders && WithoutLength(parked.setHeaders) <= WithoutLength(m.setHeaders)
  }

  /** Some reply of a batch takes the parked mutation to Envoy. */
  ghost predicate Delivers(batch: Batch, parked: HeaderMutation) {
    && batch.Answer?
    && exists common: CommonResponse ::
         (common in batch.bodies || batch.headers == Some(common))
         && common.headerMutation.Some? && Includes(common.headerMutation.value, parked)
  }

  lemma {:induction false} WithoutLengthConcat(a: seq<HeaderOption>, b: seq<HeaderOption>)
    ensures WithoutLength(a + b) == WithoutLength(a) + WithoutLength(b)
    decreases |b|
  {
    if b == [] {
      assert a + b == a;
    } else {
      assert (a + b)[..|a + b| - 1] == a + b[..|b| - 1];
      WithoutLengthConcat(a, b[..|b| - 1]);
    }
  }

  lemma {:induction false} WithoutLengthTwice(a: seq<HeaderOption>)
    ensures WithoutLength(WithoutLength(a)) == WithoutLength(a)
  {
    if a != [] {
      var init, last := a[..|a| - 1], a[|a| - 1];
      WithoutLengthTwice(init);
      WithoutLengthConcat(WithoutLength(init), if IsContentLength(last.key) then [] else [last]);
      assert [last][..0] == [];
    }
  }

  /** Merging and correcting the length keep everything the parked mutation asked for. */
  lemma MergeIncludes(parked: HeaderMutation, current: Option<HeaderMutation>, body: Bytes, originalLen: nat)
    ensures var sent := WithContentLength(Merge(Some(parked), current), body, originalLen);
            sent.Some? && Includes(sent.value, parked)
  {
    var merged := Merge(Some(parked), current).value;
    if current.Some? {
      WithoutLengthConcat(parked.setHeaders, current.value.setHeaders);
    }
    if |body| != originalLen {
      var option := HeaderOption(CONTENT_LENGTH, Decimal(|body|), OverwriteIfExistsOrAdd);
      WithoutLengthTwice(merged.setHeaders);
      WithoutLengthConcat(WithoutLength(merged.setHeaders), [option]);
    }
  }

  /** A live BUFFERED response with a parked mutation, closed by the next message. */
  ghost predicate ClosesParked(cfg: Config, r: Run, m: Message, o: Outcome) {
    && r.status.Running? && !r.st.localReply && r.st.resp.mode.Buffered? && RanEarly(cfg, ResponseSide, r.st.resp)
    && r.st.resp.bodyState.Active? && r.st.resp.deferred.Some?
    && m.side.ResponseSide? && Proceeds(o) && o.st.resp.bodyState.Completed?
  }

  /** The mutation of the header hook was parked, is gone now, and Envoy got it iff a body message closed the body. */
  ghost predicate ParkedIsCarriedByBody(r: Run, m: Message, o: Outcome)
    requires Proceeds(o)
  {
    var call, parked := HeaderCall(r, ResponseSide), r.st.resp.deferred;
    && call.Some? && parked == MutationOf(ResponseSide, call.value) && parked.Some?
    && o.st.resp.deferred.None?
    && (Delivers(o.result.value, parked.value) <==> m.Body?)
    && (m.Trailers? ==> o.result.value == NOTHING.(trailers := true))
  }

  /**
   A BUFFERED response's parked mutation reaches Envoy exactly when an end-of-stream body
   message closes the body. When trailers close it the mutation is dropped: the reply is the
   bare acknowledgement, and nothing is parked any more.
   */
  lemma ParkedMutationIsCarriedIff(cfg: Config, start: Run, events: seq<Event>, next: Event)
    requires IsFresh(start)
    ensures var r := RunFrom(cfg, start, events);
            var o := Step(cfg, next.oracle, r.st, next.m);
            ClosesParked(cfg, r, next.m, o) ==> ParkedIsCarriedByBody(r, next.m, o)
  {
    hide Step, RunFrom, Inv, StepGood, FlowOk, HistoryKept, HeaderCall, HeadersReceived, HeadersSent, ClosingFlow,
         MutationOf, Delivers, FromEnvoy, Messages;
    var r := RunFrom(cfg, start, events);
    var o := Step(cfg, next.oracle, r.st, next.m);
    if ClosesParked(cfg, r, next.m, o) {
      MutationIsParkedOrSent(cfg, start, events, ResponseSide);
      NextStep(cfg, start, events, next);
      var r' := RunFrom(cfg, start, events + [next]);
      ClosingCarries(cfg, r, next.m, o, r');
      if next.m.Trailers? {
        RequestOpened(cfg, r);
        BufferedTrailersCarryNothing(cfg, next.oracle, r.st, ResponseSide);
        NothingIsCarried(r.st.resp.deferred.value);
      }
    }
  }

  lemma NothingIsCarried(parked: HeaderMutation)
    ensures !Delivers(NOTHING.(trailers := true), parked)
  {
  }

  lemma RequestOpened(cfg: Config, r: Run)
    requires Inv(cfg, r.st) && !r.st.localReply && r.st.resp.furthest.Some?
    ensures r.st.req.furthest.Some?
  {
  }

  lemma ClosingCarries(cfg: Config, r: Run, m: Message, o: Outcome, r': Run)
    requires LiveStep(cfg, r, m, o, r') && ClosingFlow(r.st, m, o) && ClosesParked(cfg, r, m, o)
    ensures !m.Headers? && o.st.resp.deferred.None?
    ensures m.Body? ==> Delivers(o.result.value, r.st.resp.deferred.value)
  {
    StepProgress(cfg, r, m, o, r');
    UnopenedHalf(cfg, r, m, o, r');
    assert FinalCall(o.calls) by {
      hide FlowOk, HistoryKept, Threads, EmitsInOrder, RequestInv, LocalReplyInv, ClosingFlow;
    }
    hide LiveStep, FinalCall, Includes, LastHeaders, Diff;
    if m.Body? {
      var parked, h := r.st.resp.deferred.value, r.st.resp;
      var current := if r.st.response.None? then None else Diff(LastHeaders(r.st.response.value, o.calls), r.st.response.value);
      assert r.st.response.Some?;
      MergeIncludes(parked, current, o.st.resp.body, |h.body + m.body|);
      assert o.result.value.bodies[0] in o.result.value.bodies;
    }
  }

  // ---------------------------------------------------------------------------
  // Declared length
  // ---------------------------------------------------------------------------

  lemma {:induction false} NothingReceived(ms: seq<Message>, side: Side)
    requires Count(ms, BodyOn(side)) == 0
    ensures Received(ms, side) == []
  {
    if ms != [] {
      NothingReceived(ms[..|ms| - 1], side);
    }
  }

  /** The reply closes a held body: full duplex, or BUFFERED in one request message or at the end of a response. */
  predicate ReleasesBody(r: Run, m: Message, o: Outcome) {
    var mode := r.st.At(m.side).mode;
    && r.status.Running? && Proceeds(o) && FinalCall(o.calls)
    && (mode.FullDuplex? || (mode.Buffered? && m.Body? && (m.side.RequestSide? ==> BodyMessages(r, RequestSide) == 0)))
  }

  /** The final call of a held body is given exactly the bytes received. */
  lemma ReleasedBodyIsReceived(cfg: Config, start: Run, events: seq<Event>, next: Event)
    requires IsFresh(start)
    ensures var r := RunFrom(cfg, start, events);
            var o := Step(cfg, next.oracle, r.st, next.m);
            ReleasesBody(r, next.m, o) ==>
              o.calls.body.value.data == Some(Received(Messages(r.log) + [next.m], next.m.side))
  {
    hide Step, RunFrom, Inv, StepGood, FlowOk, HistoryKept, ClosingFlow, TalliesKept, FinalCallsKept, FinalCallsDue,
         Received, Rejected, Count;
    var r := RunFrom(cfg, start, events);
    var o := Step(cfg, next.oracle, r.st, next.m);
    if ReleasesBody(r, next.m, o) {
      NextStep(cfg, start, events, next);
      TalliesAreExact(cfg, start, events, next.m.side);
      FinalBodyCallExactlyOnce(cfg, start, events, RequestSide);
      var r' := RunFrom(cfg, start, events + [next]);
      HeldIsReceived(cfg, r, next.m, o, r');
      assert Messages(r'.log) == Messages(r.log) + [next.m];
    }
  }

  lemma HeldIsReceived(cfg: Config, r: Run, m: Message, o: Outcome, r': Run)
    requires LiveStep(cfg, r, m, o, r') && ReleasesBody(r, m, o) && ClosingFlow(r.st, m, o)
    requires TalliesKept(cfg, r, m.side) && FinalCallsKept(cfg, r, RequestSide)
    ensures o.calls.body.value.data == Some(Received(Messages(r'.log), m.side))
  {
    hide HistoryKept, SeenBodyEnd, FlowOk, StepGood, FilterMutation, WithContentLength, BodyCommon, HeadersCommon, Received,
         Messages, AllCalls, Count, ResponseInv, LocalReplyInv, Bodies, Sent;
    StepProgress(cfg, r, m, o, r');
    BothEndsGrow(r, m, o.result.value, o.calls, m.side);
    FirstIffNotEnded(cfg, r, m, o, r');
    var received := Received(Messages(r.log), m.side);
    assert received + [] == received;
    if m.side.RequestSide? && r.st.req.mode.Buffered? {
      NothingReceived(Messages(r.log), RequestSide);
      assert !r.st.req.bodySeen;
      assert r.st.req.furthest.Some? && !r.st.req.furthest.value.BodyStep? && !r.st.req.furthest.value.TrailersStep?;
    }
  }

  /** The mutation that travels with a released body: on the headers reply in full duplex, on the body reply otherwise. */
  function ReleasedMutation(st: Stream, m: Message, batch: Batch): Option<HeaderMutation> {
    if batch.Halt? then None
    else if st.At(m.side).mode.FullDuplex? then (if batch.headers.Some? then batch.headers.value.headerMutation else None)
    else if batch.bodies != [] then batch.bodies[0].headerMutation else None
  }

  /** The bytes Envoy makes of a released body. */
  function ReleasedBytes(st: Stream, m: Message, batch: Batch): Bytes {
    if batch.Halt? then [] else if st.At(m.side).mode.FullDuplex? then StreamedBytes(batch.bodies) else ForwardedBy(m, batch)
  }

  /** The released bytes are the buffer the filters left, and the mutation corrects the length they declare. */
  lemma ReleaseCorrectsLength(cfg: Config, r: Run, m: Message, o: Outcome, r': Run)
    requires LiveStep(cfg, r, m, o, r') && ReleasesBody(r, m, o) && ClosingFlow(r.st, m, o)
    ensures o.calls.body.value.data.Some?
    ensures ReleasedMutation(r.st, m, o.result.value)
            == WithContentLength(FilterMutation(r.st, m.side, o.calls), ReleasedBytes(r.st, m, o.result.value),
                                 |o.calls.body.value.data.value|)
  {
    hide Inv, HistoryKept, Threads, EmitsInOrder, FilterMutation, WithContentLength, StreamedBytes, Chunks, AffectsRouting,
         Metered, StreamedFlow, Progresses, OtherUntouched, FollowsOverride, HooksRecorded;
    var h, h' := r.st.At(m.side), o.st.At(m.side);
    if h.mode.FullDuplex? {
      assert DuplexFlow(cfg, r.st, m, o);
      NoChunks();
      ChunksConserveBody(m.side, h'.body, None, true);
      ChunksConserveBody(m.side, h'.body, None, false);
      DuplexRelease(cfg, r, m, o, r');
    }
  }

  lemma DuplexRelease(cfg: Config, r: Run, m: Message, o: Outcome, r': Run)
    requires LiveStep(cfg, r, m, o, r') && FinalCall(o.calls) && r.st.At(m.side).mode.FullDuplex?
    ensures StreamedBytes(o.result.value.bodies) == o.st.At(m.side).body
  {
    hide Inv, HistoryKept, Threads, EmitsInOrder, StreamedBytes, Chunks, Metered, StreamedFlow, OtherUntouched,
         FollowsOverride;
    UnopenedHalf(cfg, r, m, o, r');
    var body := o.st.At(m.side).body;
    assert DuplexFlow(cfg, r.st, m, o);
    NoChunks();
    ChunksConserveBody(m.side, body, None, true);
    ChunksConserveBody(m.side, body, None, false);
  }

  /**
   Declared length equals emitted length. If the headers Envoy holds declare the size of the
   body it sent and the filters do not touch `content-length`, the headers after the released
   mutation declare exactly the bytes Envoy ends up with, and every other header is as the
   filters wanted. A resized body gets exactly one `content-length` entry, and the filters'
   other entries keep their order.
   */
  lemma ReleasedBodyDeclaresItsLength(cfg: Config, start: Run, events: seq<Event>, next: Event, held: Multimap)
    requires IsFresh(start)
    ensures var r := RunFrom(cfg, start, events);
            var o := Step(cfg, next.oracle, r.st, next.m);
            var asked, size := FilterMutation(r.st, next.m.side, o.calls), |Received(Messages(r.log) + [next.m], next.m.side)|;
            ReleasesBody(r, next.m, o) && Declares(held, size) && LeavesLength(asked) ==>
              var emitted := ReleasedBytes(r.st, next.m, o.result.value);
              SendsLength(held, asked, ReleasedMutation(r.st, next.m, o.result.value), |emitted|, |emitted| != size)
  {
    hide SendsLength, Declares, LeavesLength, Inv, StepGood, FlowOk, HistoryKept, ClosingFlow, ReleasedMutation,
         ReleasedBytes, FilterMutation, Received, Step, WithContentLength, Rejected, RunFrom;
    var r := RunFrom(cfg, start, events);
    var o := Step(cfg, next.oracle, r.st, next.m);
    var asked, size := FilterMutation(r.st, next.m.side, o.calls), |Received(Messages(r.log) + [next.m], next.m.side)|;
    if ReleasesBody(r, next.m, o) && Declares(held, size) && LeavesLength(asked) {
      NextStep(cfg, start, events, next);
      ReleasedBodyIsReceived(cfg, start, events, next);
      ReleaseCorrectsLength(cfg, r, next.m, o, RunFrom(cfg, start, events + [next]));
      DeclaredLengthIsEmittedLength(held, asked, ReleasedBytes(r.st, next.m, o.result.value), size);
    }
  }

  /** A live, unfiltered full-duplex direction whose headers reply is out, with headers that declare the bytes received. */
  ghost predicate DeclaredAsReceived(cfg: Config, r: Run, side: Side, held: Multimap) {
    && r.status.Running? && !r.st.localReply && RanEarly(cfg, side, r.st.At(side)) && r.st.At(side).sent
    && Declares(held, |Received(Messages(r.log), side)|)
    && (HeaderCall(r, side).Some? ==> LeavesLength(MutationOf(side, HeaderCall(r, side).value)))
  }

  /** The headers reply that was sent declares the bytes that were sent. */
  ghost predicate DeclaredAsSent(r: Run, side: Side, held: Multimap) {
    var call, sent := HeaderCall(r, side), HeadersSent(r, side);
    && call.Some? && sent.Some? && sent.value.payload.HeadersReply?
    && SendsLength(held, MutationOf(side, call.value), sent.value.payload.common.headerMutation,
                   |StreamedBytes(Bodies(Sent(r.log), side))|, false)
  }

  /** Unfiltered full duplex: the bytes are conserved, so headers that declared them still do. */
  lemma PassthroughKeepsDeclaredLength(cfg: Config, start: Run, events: seq<Event>, side: Side, held: Multimap)
    requires IsFresh(start) && start.st.At(side).mode.FullDuplex?
    ensures var r := RunFrom(cfg, start, events);
            DeclaredAsReceived(cfg, r, side, held) ==> DeclaredAsSent(r, side, held)
  {
    hide RunFrom, Received, SendsLength, Declares, LeavesLength, MutationOf, HeaderCall, HeadersSent, Bodies, StreamedBytes,
         WithContentLength, WellChunked, FinalCallMade, SeenBodyEnd, FromEnvoy, HeadersReceived;
    var r := RunFrom(cfg, start, events);
    if DeclaredAsReceived(cfg, r, side, held) {
      MutationIsParkedOrSent(cfg, start, events, side);
      FullDuplexConservesBytes(cfg, start, events, side);
      DeliveryNeverChanges(cfg, start, events);
      var received, asked := Received(Messages(r.log), side), MutationOf(side, HeaderCall(r, side).value);
      LengthKept(asked, received);
      DeclaredLengthIsEmittedLength(held, asked, received, |received|);
    }
  }
}
