/**
 Full duplex tolerates body messages repeated after the end of stream: they change nothing.
 */
module Redelivery {
  import opened Wire
  import opened Filters
  import opened Sequencing
  import opened StreamSpec
  import opened Invariant
  import opened Runs
  import opened Grammar

  /** A repeated body message leaves the stream as it is and is not answered, local replies included. */
  lemma RepeatedBodyIsIgnored(cfg: Config, oracle: Oracle, st: Stream, m: Message)
    requires Inv(cfg, st) && m.Body? && st.At(m.side).mode.FullDuplex?
    requires st.At(m.side).bodyState.Completed? && st.At(m.side).furthest != Some(TrailersStep)
    requires m.side.RequestSide? ==> !st.localReply
    ensures Step(cfg, oracle, st, m) == Outcome(st, Ok(NOTHING), NO_CALLS)
  {
    hide PlanFrame, AccumulateRequestPlan, AccumulateResponsePlan, Passthrough;
    assert st.At(m.side).furthest == Some(BodyStep);
    assert Advanced(st, m) == st;
  }

  // ---------------------------------------------------------------------------
  // Runs
  // ---------------------------------------------------------------------------

  /** The message repeats a body that already ended, in full duplex and before trailers. */
  ghost predicate Repeats(before: seq<Message>, m: Message, start: Run) {
    m.Body? && start.st.At(m.side).mode.FullDuplex? && SeenBodyEnd(before, m.side) && !SeenTrailers(before, m.side)
  }

  /** The events without their repeated bodies. */
  ghost function Distinct(events: seq<Event>, start: Run): seq<Event> {
    if events == [] then []
    else
      var init, e := events[..|events| - 1], events[|events| - 1];
      Distinct(init, start) + if Repeats(MessagesOf(init), e.m, start) then [] else [e]
  }

  /** Two runs nobody can tell apart: same state, status, replies and hook calls. */
  ghost predicate Same(r: Run, r': Run) {
    && r.st == r'.st && r.status == r'.status && r.unfinished == r'.unfinished
    && Sent(r.log) == Sent(r'.log) && LoggedCalls(r.log) == LoggedCalls(r'.log)
  }

  lemma LogGrows(log: seq<Exchange>, x: Exchange)
    ensures Sent(log + [x]) == Sent(log) + Render(x.m.side, x.batch)
    ensures LoggedCalls(log + [x]) == LoggedCalls(log) + CallList(x.calls)
  {
    assert (log + [x])[..|log|] == log;
  }

  lemma SilentExchange(log: seq<Exchange>, m: Message)
    ensures Sent(log + [Exchange(m, NOTHING, NO_CALLS)]) == Sent(log)
    ensures LoggedCalls(log + [Exchange(m, NOTHING, NO_CALLS)]) == LoggedCalls(log)
  {
    LogGrows(log, Exchange(m, NOTHING, NO_CALLS));
  }

  /** The same event takes indistinguishable runs to indistinguishable runs. */
  lemma AdvanceSame(cfg: Config, r: Run, r': Run, e: Event)
    requires Same(r, r')
    ensures Same(Advance(cfg, r, e), Advance(cfg, r', e))
  {
    hide Step;
    if r.status.Running? {
      var o := Step(cfg, e.oracle, r.st, e.m);
      if o.result.Ok? {
        LogGrows(r.log, Exchange(e.m, o.result.value, o.calls));
        LogGrows(r'.log, Exchange(e.m, o.result.value, o.calls));
      }
    }
  }

  /** Redelivery is stuttering: dropping every repeated body gives an indistinguishable run. */
  lemma {:induction false} RedeliveryIsStuttering(cfg: Config, start: Run, events: seq<Event>)
    requires IsFresh(start)
    ensures Same(RunFrom(cfg, start, events), RunFrom(cfg, start, Distinct(events, start)))
  {
    if events != [] {
      var init, e := events[..|events| - 1], events[|events| - 1];
      RedeliveryIsStuttering(cfg, start, init);
      var r, d := RunFrom(cfg, start, init), Distinct(init, start);
      if !Repeats(MessagesOf(init), e.m, start) {
        AdvanceSame(cfg, r, RunFrom(cfg, start, d), e);
        assert (d + [e])[..|d|] == d;
      } else {
        assert d + [] == d;
        if r.status.Running? {
          LiveRunsKeepInv(cfg, start, init);
          HistoryIsRemembered(cfg, start, init);
          LiveRunsAcceptAll(cfg, start, init);
          DeliveryNeverChanges(cfg, start, init);
          RepeatIsCompleted(cfg, r, e.m, start);
          RepeatedBodyIsIgnored(cfg, e.oracle, r.st, e.m);
          SilentExchange(r.log, e.m);
        }
      }
    }
  }

  lemma RepeatIsCompleted(cfg: Config, r: Run, m: Message, start: Run)
    requires HistoryKept(r) && Repeats(Messages(r.log), m, start) && Inv(cfg, r.st)
    ensures r.st.At(m.side).bodyState.Completed? && r.st.At(m.side).furthest != Some(TrailersStep)
    ensures m.side.RequestSide? ==> !r.st.localReply
  {
    hide SeenBodyEnd, SeenTrailers, Seen, SeenHeadersEnd, RequestInv, ResponseInv;
  }

  // ---------------------------------------------------------------------------
  // Insertion at any point
  // ---------------------------------------------------------------------------

  /** Two histories that agree on what has ended. */
  ghost predicate EndsAlike(a: seq<Message>, b: seq<Message>) {
    && (SeenBodyEnd(a, RequestSide) <==> SeenBodyEnd(b, RequestSide))
    && (SeenBodyEnd(a, ResponseSide) <==> SeenBodyEnd(b, ResponseSide))
    && (SeenTrailers(a, RequestSide) <==> SeenTrailers(b, RequestSide))
    && (SeenTrailers(a, ResponseSide) <==> SeenTrailers(b, ResponseSide))
  }

  lemma EndsAlikeGrows(a: seq<Message>, b: seq<Message>, m: Message)
    requires EndsAlike(a, b)
    ensures EndsAlike(a + [m], b + [m])
  {
    hide Seen, SeenTrailers, SeenHeadersEnd, SeenBodyEnd;
    SeenGrows(a, m, RequestSide);
    SeenGrows(a, m, ResponseSide);
    SeenGrows(b, m, RequestSide);
    SeenGrows(b, m, ResponseSide);
  }

  lemma RepeatsAlike(a: seq<Message>, b: seq<Message>, m: Message, start: Run)
    requires EndsAlike(a, b)
    ensures Repeats(a, m, start) <==> Repeats(b, m, start)
  {
    hide SeenBodyEnd, SeenTrailers;
  }

  lemma {:induction false} DistinctTail(a: seq<Event>, b: seq<Event>, post: seq<Event>, start: Run)
    requires Distinct(a, start) == Distinct(b, start) && EndsAlike(MessagesOf(a), MessagesOf(b))
    ensures Distinct(a + post, start) == Distinct(b + post, start) && EndsAlike(MessagesOf(a + post), MessagesOf(b + post))
    decreases |post|
  {
    hide SeenBodyEnd, SeenTrailers, MessagesOf, EndsAlike;
    if post == [] {
      assert a + post == a && b + post == b;
    } else {
      var init, e := post[..|post| - 1], post[|post| - 1];
      DistinctTail(a, b, init, start);
      RepeatsAlike(MessagesOf(a + init), MessagesOf(b + init), e.m, start);
      assert (a + post)[..|a + post| - 1] == a + init && (b + post)[..|b + post| - 1] == b + init;
      LastMessage(a + post);
      LastMessage(b + post);
      EndsAlikeGrows(MessagesOf(a + init), MessagesOf(b + init), e.m);
    }
  }

  lemma {:induction false} DistinctRepeats(pre: seq<Event>, repeats: seq<Event>, start: Run)
    requires forall i :: 0 <= i < |repeats| ==> Repeats(MessagesOf(pre), repeats[i].m, start)
    ensures Distinct(pre + repeats, start) == Distinct(pre, start) && EndsAlike(MessagesOf(pre + repeats), MessagesOf(pre))
    decreases |repeats|
  {
    hide SeenBodyEnd, SeenTrailers, MessagesOf;
    if repeats == [] {
      assert pre + repeats == pre;
    } else {
      var init, e := repeats[..|repeats| - 1], repeats[|repeats| - 1];
      DistinctRepeats(pre, init, start);
      assert (pre + repeats)[..|pre + repeats| - 1] == pre + init;
      LastMessage(pre + repeats);
      SeenGrows(MessagesOf(pre + init), e.m, RequestSide);
      SeenGrows(MessagesOf(pre + init), e.m, ResponseSide);
    }
  }

  /** Inserting any number of repeated bodies, of either direction, at any point after the end of stream. */
  lemma InsertedRepeatsChangeNothing(cfg: Config, start: Run, pre: seq<Event>, repeats: seq<Event>, post: seq<Event>)
    requires IsFresh(start)
    requires forall i :: 0 <= i < |repeats| ==> Repeats(MessagesOf(pre), repeats[i].m, start)
    ensures Same(RunFrom(cfg, start, pre + repeats + post), RunFrom(cfg, start, pre + post))
  {
    DistinctRepeats(pre, repeats, start);
    DistinctTail(pre + repeats, pre, post, start);
    RedeliveryIsStuttering(cfg, start, pre + repeats + post);
    RedeliveryIsStuttering(cfg, start, pre + post);
  }
}
