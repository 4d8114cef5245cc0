/**
 Trailers are acknowledged: every trailers message that the stream survives is answered, last
 of all its replies, by one trailers reply of its direction, and nothing else is.
 */
module Acknowledgement {
  import opened Wire
  import opened HeaderMaps
  import opened Filters
  import opened Guardrails
  import opened Chunking
  import opened StreamSpec
  import opened Effects
  import opened Invariant
  import opened Runs
  import opened Enforcement

  // ---------------------------------------------------------------------------
  // One step
  // ---------------------------------------------------------------------------

  /** A plan that settles a message without filters does not acknowledge trailers by itself. */
  predicate LeavesTrailers(plan: Plan) {
    plan.Settle? && Proceeds(plan.outcome) ==> !plan.outcome.result.value.trailers
  }

  lemma PlansLeaveTrailers(cfg: Config, st: Stream, m: Message)
    requires !st.localReply
    ensures LeavesTrailers(HandlerPlan(cfg, st, m))
  {
    hide PlanFrame, RequestHeadersPlan, RequestBodyPlan, ResponseHeadersPlan, ResponseBodyPlan, TrailersPlan, LeavesTrailers;
    match m
    case Headers(side, headers, eos) => HeadersPlansLeaveTrailers(cfg, st, headers, eos);
    case Body(side, chunk, eos) => BodyPlansLeaveTrailers(cfg, st, chunk, eos);
    case Trailers(side) => TrailersPlanLeavesTrailers(cfg, st, side);
  }

  lemma HeadersPlansLeaveTrailers(cfg: Config, st: Stream, headers: seq<HeaderValue>, eos: bool)
    ensures LeavesTrailers(RequestHeadersPlan(cfg, st, headers, eos)) && LeavesTrailers(ResponseHeadersPlan(cfg, st, headers, eos))
  {
    hide PlanFrame, HeadersCommon, Admitted, HasSelectedGuardrail, FromEnvoy;
  }

  lemma BodyPlansLeaveTrailers(cfg: Config, st: Stream, chunk: Bytes, eos: bool)
    ensures LeavesTrailers(RequestBodyPlan(cfg, st, chunk, eos)) && LeavesTrailers(ResponseBodyPlan(cfg, st, chunk, eos))
  {
    hide PlanFrame, HeadersCommon, BodyResponses;
  }

  lemma TrailersPlanLeavesTrailers(cfg: Config, st: Stream, side: Side)
    ensures LeavesTrailers(TrailersPlan(cfg, st, side))
  {
    hide PlanFrame, HeadersCommon;
  }

  lemma PhaseLeavesTrailers(cfg: Config, plan: Plan, o: Outcome)
    requires Executed(cfg, plan, o) && Proceeds(o) && !plan.Settle?
    ensures !o.result.value.trailers
  {
    hide PlanFrame, HeadersCommon, BodyResponses, CollectRequest, WithContentLength, Diff, Merge, CallsFit, Threads, Forwarded;
  }

  /** In every mode, for every capability, local replies included: a step that proceeds acknowledges exactly trailers. */
  lemma StepAcknowledges(cfg: Config, oracle: Oracle, st: Stream, m: Message)
    requires Inv(cfg, st) && Proceeds(Step(cfg, oracle, st, m))
    ensures Step(cfg, oracle, st, m).result.value.trailers <==> m.Trailers?
  {
    hide Inv, HandlerPlan, Execute, Executed, PlanFrame, Finish, LocalReplyPlan;
    if m.side.RequestSide? {
      RequestPlansAreSound(cfg, st, m);
    } else {
      ResponsePlansAreSound(cfg, st, m);
    }
    RefusedFails(cfg, oracle, st, m);
    var plan := PlanFor(cfg, st, m);
    var o := Execute(cfg, oracle, plan);
    ExecuteFits(cfg, oracle, plan);
    SettledIs(cfg, oracle, plan);
    FinishAcknowledges(cfg, m, Advanced(st, m).localReply, o);
    if Advanced(st, m).localReply {
      LocalReplyAcknowledges(cfg, Advanced(st, m), m);
    } else {
      PlansLeaveTrailers(cfg, Advanced(st, m), m);
      if !plan.Settle? {
        PhaseLeavesTrailers(cfg, plan, o);
      }
    }
  }

  lemma FinishAcknowledges(cfg: Config, m: Message, localReply: bool, o: Outcome)
    ensures var f := Finish(cfg, m, localReply, o);
            Proceeds(f) ==> Proceeds(o) && f.result.value.trailers == (o.result.value.trailers || (!localReply && m.Trailers?))
  {
    hide ShouldStream;
  }

  lemma LocalReplyAcknowledges(cfg: Config, st: Stream, m: Message)
    requires st.localReply
    ensures var plan := HandlerPlan(cfg, st, m);
            plan.Settle? && (Proceeds(plan.outcome) ==> (plan.outcome.result.value.trailers <==> m.Trailers?))
  {
    hide PlanFrame, HeadersCommon, BodyResponses;
  }

  // ---------------------------------------------------------------------------
  // Runs
  // ---------------------------------------------------------------------------

  function Acknowledging(side: Side): Reply -> bool {
    (r: Reply) => r.payload.TrailersReply? && r.payload.side == side
  }

  function TrailersOn(side: Side): Message -> bool {
    (m: Message) => m.Trailers? && m.side == side
  }

  /** The trailers reply of a batch is its last reply, and its only one of that kind. */
  lemma RenderedTrailers(side: Side, batch: Batch, other: Side)
    ensures Count(Render(side, batch), Acknowledging(other)) == if batch.Answer? && batch.trailers && side == other then 1 else 0
    ensures var sent := Render(side, batch);
            batch.Answer? && batch.trailers ==> sent != [] && sent[|sent| - 1] == Reply(TrailersReply(side), None)
  {
    if batch.Halt? {
      CountOne(Reply(Immediate(batch.immediate), None), Acknowledging(other));
    } else {
      var h := if batch.headers.Some? then [Reply(HeadersReply(side, batch.headers.value), batch.modeOverride)] else [];
      var b := BodyReplies(side, batch.bodies);
      var t := if batch.trailers then [Reply(TrailersReply(side), None)] else [];
      CountConcat(h + b, t, Acknowledging(other));
      CountNone(h + b, Acknowledging(other));
      if batch.trailers {
        CountOne(t[0], Acknowledging(other));
      }
    }
  }

  /** The run was ended by an immediate response to the trailers of this direction. */
  predicate HaltedAtTrailers(r: Run, side: Side) {
    r.status.Ended? && r.log != [] && TrailersOn(side)(r.log[|r.log| - 1].m)
  }

  /** Trailers replies and trailers messages of a run go together, each reply after all others of its message. */
  ghost predicate TrailersAnswered(r: Run, side: Side) {
    && Count(Messages(r.log), TrailersOn(side))
       == Count(Sent(r.log), Acknowledging(side)) + (if HaltedAtTrailers(r, side) then 1 else 0)
    && forall i :: 0 <= i < |r.log| && r.log[i].m == Trailers(side) && r.log[i].batch.Answer? ==>
         var replies := Render(side, r.log[i].batch);
         replies != [] && replies[|replies| - 1] == Reply(TrailersReply(side), None)
  }

  lemma TrailersStep(r: Run, m: Message, o: Outcome, r': Run, side: Side)
    requires r.status.Running? && TrailersAnswered(r, side) && o.result.Ok?
    requires Proceeds(o) ==> (o.result.value.trailers <==> m.Trailers?)
    requires r'.log == r.log + [Exchange(m, o.result.value, o.calls)] && (r'.status.Ended? <==> o.result.value.Halt?)
    ensures TrailersAnswered(r', side)
  {
    hide Render, Sent, Count, Acknowledging, TrailersOn;
    var batch := o.result.value;
    SentGrows(r.log, Exchange(m, batch, o.calls));
    CountConcat(Sent(r.log), Render(m.side, batch), Acknowledging(side));
    RenderedTrailers(m.side, batch, side);
    assert Messages(r'.log) == Messages(r.log) + [m];
    CountConcat(Messages(r.log), [m], TrailersOn(side));
    CountOne(m, TrailersOn(side));
    TrailersOnIs(m, side);
  }

  lemma TrailersOnIs(m: Message, side: Side)
    ensures TrailersOn(side)(m) <==> m == Trailers(side)
  {
  }

  lemma FailureAnswersNothing(r: Run, r': Run, side: Side)
    requires r.status.Running? && TrailersAnswered(r, side) && r'.log == r.log && r'.status.Failed?
    ensures TrailersAnswered(r', side)
  {
  }

  /**
   Over every run each direction gets one trailers reply per trailers message, unless an
   immediate response answers the trailers instead; it is the last reply to its message, and no
   other message gets one.
   */
  lemma {:induction false} TrailersAreAcknowledged(cfg: Config, start: Run, events: seq<Event>, side: Side)
    requires IsFresh(start)
    ensures TrailersAnswered(RunFrom(cfg, start, events), side)
  {
    hide Step, Inv, TrailersAnswered;
    var r' := RunFrom(cfg, start, events);
    if events == [] {
      NothingToAcknowledge(start, side);
    } else {
      var init, e := events[..|events| - 1], events[|events| - 1];
      var r := RunFrom(cfg, start, init);
      TrailersAreAcknowledged(cfg, start, init, side);
      if r.status.Running? {
        LiveRunsKeepInv(cfg, start, init);
        var o := Step(cfg, e.oracle, r.st, e.m);
        if o.result.Ok? {
          if Proceeds(o) {
            StepAcknowledges(cfg, e.oracle, r.st, e.m);
          }
          TrailersStep(r, e.m, o, r', side);
        } else {
          FailureAnswersNothing(r, r', side);
        }
      }
    }
  }

  lemma NothingToAcknowledge(start: Run, side: Side)
    requires IsFresh(start)
    ensures TrailersAnswered(start, side)
  {
    assert Messages(start.log) == [];
  }
}
