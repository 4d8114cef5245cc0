/**
 Which message sequences a stream accepts, stated on the sequence alone.
 */
module Grammar {
  import opened Wire
  import opened HeaderMaps
  import opened Filters
  import opened Guardrails
  import opened Sequencing
  import opened Chunking
  import opened StreamSpec
  import opened Effects
  import opened Invariant
  import opened Steps
  import opened Runs

  ghost predicate Seen(ms: seq<Message>, side: Side) {
    exists i :: 0 <= i < |ms| && ms[i].side == side
  }

  ghost predicate SeenTrailers(ms: seq<Message>, side: Side) {
    exists i :: 0 <= i < |ms| && ms[i].Trailers? && ms[i].side == side
  }

  ghost predicate SeenHeadersEnd(ms: seq<Message>, side: Side) {
    exists i :: 0 <= i < |ms| && ms[i].Headers? && ms[i].side == side && ms[i].endOfStream
  }

  ghost predicate SeenBodyEnd(ms: seq<Message>, side: Side) {
    exists i :: 0 <= i < |ms| && ms[i].Body? && ms[i].side == side && ms[i].endOfStream
  }

  predicate OpenedByResponse(ms: seq<Message>) {
    ms != [] && ms[0].side.ResponseSide?
  }

  /**
   A message may follow `before` iff it is the first of its direction exactly when it is the
   headers, nothing of the direction came after trailers, a body has a mode that delivers
   bodies, headers that announced one and, outside full duplex, no earlier end of stream; and
   no request message follows a response that opened the stream.
   */
  ghost predicate Allowed(before: seq<Message>, m: Message, mode: BodyMode) {
    && (m.side.RequestSide? ==> !OpenedByResponse(before))
    && (m.Headers? <==> !Seen(before, m.side))
    && !SeenTrailers(before, m.side)
    && (m.Body? ==> !mode.NoBody? && !SeenHeadersEnd(before, m.side) && (mode.FullDuplex? || !SeenBodyEnd(before, m.side)))
  }

  /** The status of a message the grammar forbids; the first that applies, in this order. */
  ghost function Reason(before: seq<Message>, m: Message, mode: BodyMode): Status {
    if m.Body? && mode.NoBody? then BodyInNoneMode
    else if m.side.RequestSide? && OpenedByResponse(before) then RequestAfterLocalReply
    else if m.Headers? == Seen(before, m.side) || SeenTrailers(before, m.side) then OutOfOrder
    else if SeenHeadersEnd(before, m.side) then BodyAfterHeadersEos
    else DuplicateAfterEos
  }

  predicate SequencingError(status: Status) {
    status.OutOfOrder? || status.RequestAfterLocalReply? || status.BodyInNoneMode?
    || status.BodyAfterHeadersEos? || status.DuplicateAfterEos?
  }

  // ---------------------------------------------------------------------------
  // Reading the history off the state
  // ---------------------------------------------------------------------------

  /** The trackers remember exactly what the grammar asks about. */
  ghost predicate Remembers(h: Half, ms: seq<Message>, side: Side) {
    && (h.furthest.Some? <==> Seen(ms, side))
    && (h.furthest == Some(TrailersStep) <==> SeenTrailers(ms, side))
    && (h.headersState.Completed? <==> SeenHeadersEnd(ms, side))
    && (h.furthest != Some(TrailersStep) ==> (h.bodyState.Completed? <==> SeenBodyEnd(ms, side)))
  }

  lemma SeenGrows(ms: seq<Message>, m: Message, side: Side)
    ensures Seen(ms + [m], side) <==> Seen(ms, side) || m.side == side
    ensures SeenTrailers(ms + [m], side) <==> SeenTrailers(ms, side) || (m.Trailers? && m.side == side)
    ensures SeenHeadersEnd(ms + [m], side) <==> SeenHeadersEnd(ms, side) || (m.Headers? && m.side == side && m.endOfStream)
    ensures SeenBodyEnd(ms + [m], side) <==> SeenBodyEnd(ms, side) || (m.Body? && m.side == side && m.endOfStream)
  {
    var all := ms + [m];
    assert all[|ms|] == m && forall i :: 0 <= i < |ms| ==> all[i] == ms[i];
    SeenPrefix(ms, all, side);
  }

  lemma SeenPrefix(ms: seq<Message>, all: seq<Message>, side: Side)
    requires |ms| <= |all| && forall i :: 0 <= i < |ms| ==> all[i] == ms[i]
    ensures Seen(ms, side) ==> Seen(all, side)
    ensures SeenTrailers(ms, side) ==> SeenTrailers(all, side)
    ensures SeenHeadersEnd(ms, side) ==> SeenHeadersEnd(all, side)
    ensures SeenBodyEnd(ms, side) ==> SeenBodyEnd(all, side)
  {
    if Seen(ms, side) {
      var i :| 0 <= i < |ms| && ms[i].side == side;
      assert all[i].side == side;
    }
    if SeenTrailers(ms, side) {
      var i :| 0 <= i < |ms| && ms[i].Trailers? && ms[i].side == side;
      assert all[i].Trailers?;
    }
    if SeenHeadersEnd(ms, side) {
      var i :| 0 <= i < |ms| && ms[i].Headers? && ms[i].side == side && ms[i].endOfStream;
      assert all[i].Headers?;
    }
    if SeenBodyEnd(ms, side) {
      var i :| 0 <= i < |ms| && ms[i].Body? && ms[i].side == side && ms[i].endOfStream;
      assert all[i].Body?;
    }
  }

  /** All that the dispatch layer knows, in terms of the accepted messages. */
  ghost predicate HistoryKept(r: Run) {
    var ms := Messages(r.log);
    && Remembers(r.st.req, ms, RequestSide)
    && Remembers(r.st.resp, ms, ResponseSide)
    && (r.st.localReply <==> OpenedByResponse(ms))
    && (r.st.req.furthest.None? && r.st.resp.furthest.None? ==> ms == [])
    && (r.st.req.furthest.None? && r.st.resp.furthest.Some? ==> r.st.localReply)
  }

  lemma HistoryStep(cfg: Config, r: Run, m: Message, batch: Batch, calls: Calls, st': Stream)
    requires Inv(cfg, r.st) && Inv(cfg, st') && HistoryKept(r)
    requires Progresses(r.st, m, st') && OtherUntouched(r.st, m.side, st')
    requires r.st.At(m.side).furthest != Some(TrailersStep)
    requires m.side.RequestSide? ==> !r.st.localReply
    ensures HistoryKept(Run(st', Running, r.log + [Exchange(m, batch, calls)], NO_CALLS))
  {
    var ms := Messages(r.log);
    assert Messages(r.log + [Exchange(m, batch, calls)]) == ms + [m];
    SeenGrows(ms, m, RequestSide);
    SeenGrows(ms, m, ResponseSide);
    hide Seen, SeenTrailers, SeenHeadersEnd, SeenBodyEnd;
  }

  lemma {:induction false} HistoryIsRemembered(cfg: Config, start: Run, events: seq<Event>)
    requires IsFresh(start)
    ensures RunFrom(cfg, start, events).status.Running? ==> HistoryKept(RunFrom(cfg, start, events))
  {
    if events != [] {
      var init, e := events[..|events| - 1], events[|events| - 1];
      var r0, r := RunFrom(cfg, start, init), RunFrom(cfg, start, events);
      HistoryIsRemembered(cfg, start, init);
      if r0.status.Running? && r.status.Running? {
        LiveRunsKeepInv(cfg, start, init);
        LiveRunsKeepInv(cfg, start, events);
        StepIsGood(cfg, e.oracle, r0.st, e.m);
        RequestNeedsNoLocalReply(cfg, e.oracle, r0.st, e.m);
        NothingAfterTrailers(cfg, e.oracle, r0.st, e.m);
        hide Step, Inv, Threads, EmitsInOrder, FollowsOverride, HooksInOrder, HistoryKept, Progresses, OtherUntouched;
        var o := Step(cfg, e.oracle, r0.st, e.m);
        HistoryStep(cfg, r0, e.m, o.result.value, o.calls, o.st);
      }
    } else {
      assert Messages(start.log) == [];
    }
  }

  lemma NothingAfterTrailers(cfg: Config, oracle: Oracle, st: Stream, m: Message)
    requires Step(cfg, oracle, st, m).result.Ok?
    ensures st.At(m.side).furthest != Some(TrailersStep)
  {
    hide HandlerPlan;
  }

  // ---------------------------------------------------------------------------
  // Verdict
  // ---------------------------------------------------------------------------

  /** The sequencing checks, on the state. */
  predicate Rejected(st: Stream, m: Message) {
    || DispatchError(st, m).Some?
    || (m.Body? && (st.At(m.side).headersState.Completed? || (st.At(m.side).bodyState.Completed? && !st.At(m.side).mode.FullDuplex?)))
  }

  /** The status they give. */
  function Refusal(st: Stream, m: Message): Status {
    if DispatchError(st, m).Some? then DispatchError(st, m).value else LateReason(st.At(m.side))
  }

  function LateReason(h: Half): Status {
    if h.headersState.Completed? then BodyAfterHeadersEos else DuplicateAfterEos
  }

  predicate SettlesWithSequencingError(plan: Plan) {
    plan.Settle? && plan.outcome.result.Err? && SequencingError(plan.outcome.result.status)
  }

  lemma RequestVerdict(cfg: Config, st: Stream, m: Message)
    requires Inv(cfg, st) && m.side.RequestSide?
    ensures SettlesWithSequencingError(PlanFor(cfg, st, m)) <==> Rejected(st, m)
    ensures Rejected(st, m) ==> PlanFor(cfg, st, m).outcome.result == Err(Refusal(st, m))
  {
    hide HeadersCommon, BodyResponses, Admitted, HasSelectedGuardrail, OversizedRequest, Rejection, ResponseInv, PlanFrame;
  }

  lemma ResponseVerdict(cfg: Config, st: Stream, m: Message)
    requires Inv(cfg, st) && m.side.ResponseSide?
    ensures SettlesWithSequencingError(PlanFor(cfg, st, m)) <==> Rejected(st, m)
    ensures Rejected(st, m) ==> PlanFor(cfg, st, m).outcome.result == Err(Refusal(st, m))
  {
    hide LocalReplyPlan, ResponseHeadersPlan, ResponseBodyPlan, TrailersPlan, PlanFrame, RequestInv, ResponseInv,
         LocalReplyInv;
    var st1 := Advanced(st, m);
    if DispatchError(st, m).None? {
      ResponseEndsOnce(cfg, st);
      if st1.localReply {
        LocalReplyVerdict(st1, m);
      } else {
        match m
        case Headers(_, headers, eos) => ResponseHeadersVerdict(cfg, st1, headers, eos);
        case Body(_, chunk, eos) => ResponseBodyVerdict(cfg, st1, chunk, eos);
        case Trailers(side) => TrailersVerdict(cfg, st1, side);
      }
    }
  }

  lemma ResponseEndsOnce(cfg: Config, st: Stream)
    requires Inv(cfg, st)
    ensures st.resp.furthest.None? ==> st.resp.headersState.Active?
    ensures st.resp.headersState.Completed? ==> st.resp.bodyState.Active?
  {
  }

  /** A body that its direction may no longer receive. */
  predicate BodyIsLate(h: Half) {
    h.headersState.Completed? || (h.bodyState.Completed? && !h.mode.FullDuplex?)
  }

  lemma LocalReplyVerdict(st: Stream, m: Message)
    requires m.side.ResponseSide? && (m.Headers? ==> st.resp.headersState.Active?)
    requires st.resp.headersState.Completed? ==> st.resp.bodyState.Active?
    ensures SettlesWithSequencingError(LocalReplyPlan(st, m)) <==> m.Body? && BodyIsLate(st.resp)
    ensures m.Body? && BodyIsLate(st.resp) ==> LocalReplyPlan(st, m).outcome.result == Err(LateReason(st.resp))
  {
    hide HeadersCommon, BodyResponses, PlanFrame;
  }

  lemma ResponseHeadersVerdict(cfg: Config, st: Stream, headers: seq<HeaderValue>, eos: bool)
    requires st.resp.headersState.Active?
    ensures !SettlesWithSequencingError(ResponseHeadersPlan(cfg, st, headers, eos))
  {
    hide HeadersCommon, FromEnvoy, PlanFrame;
  }

  lemma ResponseBodyVerdict(cfg: Config, st: Stream, chunk: Bytes, eos: bool)
    requires st.resp.headersState.Completed? ==> st.resp.bodyState.Active?
    ensures SettlesWithSequencingError(ResponseBodyPlan(cfg, st, chunk, eos)) <==> BodyIsLate(st.resp)
    ensures BodyIsLate(st.resp) ==> ResponseBodyPlan(cfg, st, chunk, eos).outcome.result == Err(LateReason(st.resp))
  {
    hide HeadersCommon, BodyResponses, PlanFrame;
  }

  lemma TrailersVerdict(cfg: Config, st: Stream, side: Side)
    ensures !SettlesWithSequencingError(TrailersPlan(cfg, st, side))
  {
    hide HeadersCommon, PlanFrame;
  }

  lemma StepVerdict(cfg: Config, oracle: Oracle, st: Stream, m: Message)
    requires Inv(cfg, st)
    ensures var result := Step(cfg, oracle, st, m).result;
            && (result.Err? && SequencingError(result.status) <==> Rejected(st, m))
            && (Rejected(st, m) ==> result == Err(Refusal(st, m)))
  {
    hide HandlerPlan, Rejected, Refusal, PhaseProceeds, Threads, RequestCalls, ResponseCalls, ShouldStream, Inv, Advanced;
    if m.side.RequestSide? {
      RequestPlansAreSound(cfg, st, m);
      RequestVerdict(cfg, st, m);
    } else {
      ResponsePlansAreSound(cfg, st, m);
      ResponseVerdict(cfg, st, m);
    }
    var plan := PlanFor(cfg, st, m);
    ExecuteFits(cfg, oracle, plan);
    hide PlanFor;
    assert !plan.Settle? && Execute(cfg, oracle, plan).result.Err? ==>
             !SequencingError(Execute(cfg, oracle, plan).result.status);
  }

  /** Reading the verdict off the history. */
  lemma RejectedIffNotAllowed(cfg: Config, r: Run, m: Message)
    requires Inv(cfg, r.st) && HistoryKept(r)
    ensures Rejected(r.st, m) <==> !Allowed(Messages(r.log), m, r.st.At(m.side).mode)
  {
    hide Seen, SeenTrailers, SeenHeadersEnd, SeenBodyEnd;
  }

  lemma RefusalIsReason(cfg: Config, r: Run, m: Message)
    requires Inv(cfg, r.st) && HistoryKept(r) && Rejected(r.st, m)
    ensures Refusal(r.st, m) == Reason(Messages(r.log), m, r.st.At(m.side).mode)
  {
    hide Seen, SeenTrailers, SeenHeadersEnd, SeenBodyEnd;
  }

  /**
   A live stream answers the next message with a sequencing error exactly when the grammar
   forbids it there, whatever the filters do, and with the status the grammar gives; the stream is a local reply exactly when a
   response message opened it. Body delivery and full duplex never change with an override.
   */
  lemma AcceptsExactlyTheGrammar(cfg: Config, start: Run, events: seq<Event>, next: Event)
    requires IsFresh(start)
    ensures var r := RunFrom(cfg, start, events);
            var result := Step(cfg, next.oracle, r.st, next.m).result;
            r.status.Running? ==>
              && (result.Err? && SequencingError(result.status)
                  <==> !Allowed(Messages(r.log), next.m, start.st.At(next.m.side).mode))
              && (!Allowed(Messages(r.log), next.m, start.st.At(next.m.side).mode) ==>
                    result == Err(Reason(Messages(r.log), next.m, start.st.At(next.m.side).mode)))
              && (r.st.localReply <==> OpenedByResponse(Messages(r.log)))
  {
    hide Step, Rejected, Refusal, Inv, Seen, SeenTrailers, SeenHeadersEnd, SeenBodyEnd, RunFrom;
    var r := RunFrom(cfg, start, events);
    if r.status.Running? {
      LiveRunsKeepInv(cfg, start, events);
      HistoryIsRemembered(cfg, start, events);
      StepVerdict(cfg, next.oracle, r.st, next.m);
      RejectedIffNotAllowed(cfg, r, next.m);
      if Rejected(r.st, next.m) {
        RefusalIsReason(cfg, r, next.m);
      }
      DeliveryNeverChanges(cfg, start, events);
    }
  }

  lemma {:induction false} DeliveryNeverChanges(cfg: Config, start: Run, events: seq<Event>)
    requires IsFresh(start)
    ensures var r := RunFrom(cfg, start, events);
            r.status.Running? ==>
              && r.st.req.mode == start.st.req.mode
              && (r.st.resp.mode.NoBody? <==> start.st.resp.mode.NoBody?)
              && (r.st.resp.mode.FullDuplex? <==> start.st.resp.mode.FullDuplex?)
  {
    if events != [] {
      var init, e := events[..|events| - 1], events[|events| - 1];
      var r0 := RunFrom(cfg, start, init);
      DeliveryNeverChanges(cfg, start, init);
      if r0.status.Running? {
        LiveRunsKeepInv(cfg, start, init);
        StepIsGood(cfg, e.oracle, r0.st, e.m);
        hide Step, Inv, EmitsInOrder, OtherUntouched, HooksRecorded, HooksInOrder, Threads;
      }
    }
  }

  // ---------------------------------------------------------------------------
  // Whole sequences
  // ---------------------------------------------------------------------------

  /** The messages of one direction, in order. */
  function Projection(ms: seq<Message>, side: Side): seq<Message> {
    if ms == [] then []
    else Projection(ms[..|ms| - 1], side) + if ms[|ms| - 1].side == side then [ms[|ms| - 1]] else []
  }

  /** The part of a direction between its first message and the trailers, if it ends in any. */
  function Middle(p: seq<Message>): seq<Message> {
    if p == [] then []
    else if p[|p| - 1].Trailers? && |p| > 1 then p[1..|p| - 1] else p[1..]
  }

  predicate Ends(b: Message) {
    b.Body? && b.endOfStream
  }

  /** Bodies a mode delivers: none in NONE mode or after headers that end the stream; outside full duplex only the last ends it. */
  ghost predicate BodiesFit(bodies: seq<Message>, ended: bool, mode: BodyMode) {
    && (forall b :: b in bodies ==> b.Body?)
    && (bodies != [] ==> !mode.NoBody? && !ended && (mode.FullDuplex? || forall b :: b in bodies[..|bodies| - 1] ==> !Ends(b)))
  }

  /** The language of one direction: headers, then bodies, then at most one trailers. */
  ghost predicate InLanguage(p: seq<Message>, mode: BodyMode) {
    p == [] || (p[0].Headers? && BodiesFit(Middle(p), p[0].endOfStream, mode))
  }

  /** A message sequence a stream may receive: both directions in their language, no request behind a local reply. */
  ghost predicate WellFormed(ms: seq<Message>, start: Run) {
    && InLanguage(Projection(ms, RequestSide), start.st.req.mode)
    && InLanguage(Projection(ms, ResponseSide), start.st.resp.mode)
    && (OpenedByResponse(ms) ==> Projection(ms, RequestSide) == [])
  }

  lemma {:induction false} ProjectionHolds(ms: seq<Message>, side: Side)
    ensures forall x :: x in Projection(ms, side) <==> x in ms && x.side == side
  {
    if ms != [] {
      var init, last := ms[..|ms| - 1], ms[|ms| - 1];
      ProjectionHolds(init, side);
      assert ms == init + [last];
    }
  }

  /** A direction in its language: where its headers and trailers are, and what lies between. */
  lemma LanguageShape(p: seq<Message>, mode: BodyMode)
    requires InLanguage(p, mode) && p != []
    ensures forall x :: x in p ==> (x.Headers? ==> x == p[0]) && (x.Trailers? ==> x == p[|p| - 1])
    ensures forall x :: x in p && x.Body? <==> x in Middle(p)
    ensures p[0] in p && p[|p| - 1] in p
  {
    forall x | x in p ensures (x.Headers? ==> x == p[0]) && (x.Trailers? ==> x == p[|p| - 1]) && (x.Body? ==> x in Middle(p)) {
      var i :| 0 <= i < |p| && p[i] == x;
      if 0 < i < |p| - 1 || (i == |p| - 1 && i > 0 && !x.Trailers?) {
        assert Middle(p)[i - 1] == x;
        assert x in Middle(p) && x.Body?;
      }
    }
  }

  /** What the grammar asks of a history, read off the projection of one direction. */
  lemma ProjectionRemembers(ms: seq<Message>, side: Side, mode: BodyMode)
    requires InLanguage(Projection(ms, side), mode)
    ensures var p := Projection(ms, side);
            && (Seen(ms, side) <==> p != [])
            && (SeenTrailers(ms, side) <==> p != [] && p[|p| - 1].Trailers?)
            && (SeenHeadersEnd(ms, side) <==> p != [] && p[0].endOfStream)
            && (SeenBodyEnd(ms, side) <==> exists b :: b in Middle(p) && Ends(b))
  {
    var p := Projection(ms, side);
    ProjectionHolds(ms, side);
    SeenMembers(ms, side);
    hide Seen, SeenTrailers, SeenHeadersEnd, SeenBodyEnd, Projection;
    if p != [] {
      LanguageShape(p, mode);
      assert p[0].Headers?;
      hide InLanguage, Middle;
    }
  }

  lemma SeenMembers(ms: seq<Message>, side: Side)
    ensures Seen(ms, side) <==> exists x :: x in ms && x.side == side
    ensures SeenTrailers(ms, side) <==> exists x :: x in ms && x.side == side && x.Trailers?
    ensures SeenHeadersEnd(ms, side) <==> exists x :: x in ms && x.side == side && x.Headers? && x.endOfStream
    ensures SeenBodyEnd(ms, side) <==> exists x :: x in ms && x.side == side && Ends(x)
  {
    assert forall i :: 0 <= i < |ms| ==> ms[i] in ms;
  }

  /** May the message come next, given the direction so far. */
  ghost predicate Continues(p: seq<Message>, m: Message, mode: BodyMode) {
    if p == [] then m.Headers?
    else
      && !m.Headers? && !p[|p| - 1].Trailers?
      && (m.Body? ==> !mode.NoBody? && p[0].Headers? && !p[0].endOfStream && (mode.FullDuplex? || forall b :: b in Middle(p) ==> !Ends(b)))
  }

  /** One more message keeps a direction in the language exactly when it may come next. */
  lemma LanguageGrows(p: seq<Message>, m: Message, mode: BodyMode)
    ensures InLanguage(p + [m], mode) <==> InLanguage(p, mode) && Continues(p, m, mode)
  {
    var q := p + [m];
    if p == [] {
      assert q == [m] && Middle(q) == [];
    } else {
      assert q[0] == p[0] && q[|q| - 1] == m;
      if m.Trailers? {
        assert Middle(q) == p[1..];
      } else {
        assert Middle(q) == p[1..] + [m];
      }
      MiddleGrows(p, m, mode);
    }
  }

  lemma MiddleGrows(p: seq<Message>, m: Message, mode: BodyMode)
    requires p != []
    ensures var bodies := if m.Trailers? then p[1..] else p[1..] + [m];
            p[0].Headers? && BodiesFit(bodies, p[0].endOfStream, mode) <==> InLanguage(p, mode) && Continues(p, m, mode)
  {
    var rest := p[1..];
    if p[|p| - 1].Trailers? {
      NothingFollowsTrailers(p, m, mode);
    } else if p[0].Headers? {
      assert Middle(p) == rest;
      if !m.Trailers? {
        OneMoreBody(rest, m, p[0].endOfStream, mode);
      }
      hide BodiesFit;
    }
  }

  lemma NothingFollowsTrailers(p: seq<Message>, m: Message, mode: BodyMode)
    requires p != [] && p[|p| - 1].Trailers?
    ensures !(p[0].Headers? && BodiesFit(p[1..], p[0].endOfStream, mode))
    ensures !(p[0].Headers? && BodiesFit(p[1..] + [m], p[0].endOfStream, mode))
  {
    if |p| > 1 {
      var rest := p[1..];
      assert rest[|rest| - 1] == p[|p| - 1] && rest[|rest| - 1] in rest && rest[|rest| - 1] in rest + [m];
    }
  }

  /** One more body fits exactly when the mode delivers it and, outside full duplex, none before it ended the stream. */
  lemma OneMoreBody(rest: seq<Message>, m: Message, ended: bool, mode: BodyMode)
    ensures BodiesFit(rest + [m], ended, mode)
            <==> && BodiesFit(rest, ended, mode) && m.Body? && !mode.NoBody? && !ended
                 && (mode.FullDuplex? || forall b :: b in rest ==> !Ends(b))
  {
    assert (rest + [m])[..|rest|] == rest && m in rest + [m];
    assert forall b :: b in rest + [m] <==> b in rest || b == m;
    assert rest != [] ==> rest == rest[..|rest| - 1] + [rest[|rest| - 1]];
  }

  /** On a direction in its language, what may come next is what the grammar allows. */
  lemma ContinuesIffAllowed(ms: seq<Message>, m: Message, mode: BodyMode)
    requires InLanguage(Projection(ms, m.side), mode)
    ensures Continues(Projection(ms, m.side), m, mode)
            <==> && (m.Headers? <==> !Seen(ms, m.side)) && !SeenTrailers(ms, m.side)
                 && (m.Body? ==> !mode.NoBody? && !SeenHeadersEnd(ms, m.side) && (mode.FullDuplex? || !SeenBodyEnd(ms, m.side)))
  {
    hide Seen, SeenTrailers, SeenHeadersEnd, SeenBodyEnd, Projection, Middle, BodiesFit;
    ProjectionRemembers(ms, m.side, mode);
  }

  lemma ProjectionGrows(ms: seq<Message>, m: Message, side: Side)
    ensures Projection(ms + [m], side) == if m.side == side then Projection(ms, side) + [m] else Projection(ms, side)
  {
    assert (ms + [m])[..|ms|] == ms;
  }

  /** A sequence is well-formed exactly when each of its messages is allowed after the ones before it. */
  lemma WellFormedGrows(ms: seq<Message>, m: Message, start: Run)
    ensures WellFormed(ms + [m], start) <==> WellFormed(ms, start) && Allowed(ms, m, start.st.At(m.side).mode)
  {
    hide Seen, SeenTrailers, SeenHeadersEnd, SeenBodyEnd, Projection, InLanguage, Continues;
    ProjectionGrows(ms, m, RequestSide);
    ProjectionGrows(ms, m, ResponseSide);
    var p, mode := Projection(ms, m.side), start.st.At(m.side).mode;
    LanguageGrows(p, m, mode);
    if InLanguage(p, mode) {
      ContinuesIffAllowed(ms, m, mode);
    }
    if ms == [] {
      EmptyProjection();
    } else {
      assert (ms + [m])[0] == ms[0];
    }
  }

  lemma EmptyProjection()
    ensures Projection([], RequestSide) == [] && Projection([], ResponseSide) == []
  {
  }

  /** The messages of a list of events. */
  function MessagesOf(events: seq<Event>): seq<Message> {
    seq(|events|, i requires 0 <= i < |events| => events[i].m)
  }

  lemma LastMessage(events: seq<Event>)
    requires events != []
    ensures MessagesOf(events) == MessagesOf(events[..|events| - 1]) + [events[|events| - 1].m]
  {
  }

  lemma {:induction false} LiveRunsAcceptAll(cfg: Config, start: Run, events: seq<Event>)
    requires IsFresh(start)
    ensures RunFrom(cfg, start, events).status.Running? ==>
              Messages(RunFrom(cfg, start, events).log) == MessagesOf(events)
  {
    hide Step;
    if events != [] {
      var init := events[..|events| - 1];
      LiveRunsAcceptAll(cfg, start, init);
      LastMessage(events);
    }
  }

  /** The run was refused for the order of its messages. */
  predicate OutOfSequence(status: RunStatus) {
    status.Failed? && SequencingError(status.status)
  }

  /**
   The language of a stream. A run that is still live received a well-formed sequence, and a
   well-formed sequence is never refused for its order: only a filter, a size limit or another
   decision of a handler can stop it. So a run that was stopped by nothing else is live exactly
   when its whole sequence is well-formed.
   */
  lemma {:induction false} StreamsAcceptExactlyTheLanguage(cfg: Config, start: Run, events: seq<Event>)
    requires IsFresh(start)
    ensures var status := RunFrom(cfg, start, events).status;
            && (status.Running? ==> WellFormed(MessagesOf(events), start))
            && (OutOfSequence(status) ==> !WellFormed(MessagesOf(events), start))
  {
    hide Step, WellFormed, MessagesOf, SequencingError, Allowed;
    if events == [] {
      EmptyIsWellFormed(start);
      assert MessagesOf(events) == [] by { NoMessages(events); }
    } else {
      var init, e := events[..|events| - 1], events[|events| - 1];
      StreamsAcceptExactlyTheLanguage(cfg, start, init);
      LiveRunsAcceptAll(cfg, start, init);
      AcceptsExactlyTheGrammar(cfg, start, init, e);
      LastMessage(events);
      WellFormedGrows(MessagesOf(init), e.m, start);
    }
  }

  lemma EmptyIsWellFormed(start: Run)
    ensures WellFormed([], start)
  {
  }

  lemma NoMessages(events: seq<Event>)
    requires events == []
    ensures MessagesOf(events) == []
  {
  }
}
