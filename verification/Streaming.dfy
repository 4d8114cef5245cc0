/**
 STREAMED bodies over whole runs: every chunk is answered with what the filters made of it,
 and every byte of a response is with the filters or still held, whatever the hooks ask for.
 */
module Streaming {
  import opened Wire
  import opened Filters
  import opened Sequencing
  import opened Chunking
  import opened StreamSpec
  import opened Effects
  import opened Invariant
  import opened Steps
  import opened Runs
  import opened Grammar
  import opened BodyFlow
  import opened Conservation

  // ---------------------------------------------------------------------------
  // What a log says about buffering
  // ---------------------------------------------------------------------------

  /** After these exchanges the hooks want the whole response body before any of it is released. */
  predicate Buffers(log: seq<Exchange>, side: Side) {
    side.ResponseSide? && EndOf(FRESH, LoggedCalls(log)).responseBodyMode.StreamBuffer?
  }

  /** Response bytes held after these exchanges: chunks that came while buffering, until an end of stream takes them. */
  function HeldAfter(log: seq<Exchange>): Bytes {
    if log == [] then []
    else
      var before, x := log[..|log| - 1], log[|log| - 1];
      if !x.m.Body? || !x.m.side.ResponseSide? || !Buffers(before, ResponseSide) then HeldAfter(before)
      else if x.m.endOfStream then [] else HeldAfter(before) + x.m.body
  }

  /** What the body filters are to be given for a chunk that comes after these exchanges. */
  function FilterInput(before: seq<Exchange>, m: Message): Bytes
    requires m.Body?
  {
    if !Buffers(before, m.side) then m.body else if m.endOfStream then HeldAfter(before) + m.body else []
  }

  lemma LogSplits(log: seq<Exchange>, x: Exchange)
    ensures (log + [x])[..|log|] == log && (log + [x])[|log|] == x
    ensures HeldAfter(log + [x]) == if !x.m.Body? || !x.m.side.ResponseSide? || !Buffers(log, ResponseSide) then HeldAfter(log)
                                    else if x.m.endOfStream then [] else HeldAfter(log) + x.m.body
  {
  }

  // ---------------------------------------------------------------------------
  // Refinement, chunk by chunk
  // ---------------------------------------------------------------------------

  /**
   What Envoy forwards for one body message is what the filters made of it. Without filters it
   is the chunk itself. With filters, the body hook is called exactly when there is something
   to give it or the stream ends; it is given the chunk, or while buffering nothing until the
   end and then everything held and the chunk; and its output is what Envoy forwards.
   */
  ghost predicate ForwardsFilterOutput(before: seq<Exchange>, x: Exchange, passes: bool)
    requires x.m.Body?
  {
    && x.batch.Answer? && |x.batch.bodies| == 1
    && var forwarded, call, input := Forwarded(x.m.body, x.batch.bodies[0]), x.calls.body, FilterInput(before, x.m);
       if passes then forwarded == x.m.body && call.None?
       else
         && (call.Some? <==> input != [] || x.m.endOfStream)
         && (call.Some? ==> call.value.data == Some(input) && call.value.eos == x.m.endOfStream)
         && forwarded == if call.Some? then call.value.produced else []
  }

  /** All body exchanges of a STREAMED direction refine the filters, and the buffer holds what was held back. */
  ghost predicate LogForwards(cfg: Config, r: Run, side: Side) {
    && (r.st.At(side).mode.Streamed? ==>
          forall i :: 0 <= i < |r.log| && r.log[i].m.Body? && r.log[i].m.side == side ==>
            ForwardsFilterOutput(r.log[..i], r.log[i], PassesThrough(cfg, r.st, side)))
    && (side.ResponseSide? && r.st.resp.furthest.None? ==> HeldAfter(r.log) == [])
    && (side.ResponseSide? && r.st.resp.mode.Streamed? && !PassesThrough(cfg, r.st, side) ==> r.st.resp.body == HeldAfter(r.log))
  }

  /** The parked context says what the log says. */
  lemma BufferingIsLogged(r: Run, side: Side)
    requires r.status.Running? && ContextKept(r) && r.unfinished == NO_CALLS
    ensures Buffering(r.st, side) <==> Buffers(r.log, side)
    ensures Buffers(r.log, side) ==> side.ResponseSide?
  {
    assert AllCalls(r) == LoggedCalls(r.log);
  }

  lemma ExchangeForwards(cfg: Config, r: Run, m: Message, o: Outcome, r': Run)
    requires LiveStep(cfg, r, m, o, r') && m.Body? && r.st.At(m.side).mode.Streamed? && ContextKept(r)
    requires LogForwards(cfg, r, m.side)
    ensures ForwardsFilterOutput(r.log, Exchange(m, o.result.value, o.calls), PassesThrough(cfg, o.st, m.side))
    ensures m.side.ResponseSide? && !PassesThrough(cfg, o.st, m.side) ==> o.st.resp.body == HeldAfter(r'.log)
  {
    hide Inv, HistoryKept, Metered, DuplexFlow, Forwarded, StepGood, ContextKept, Buffers, HeldAfter, Buffering,
         WithinLimits;
    UnopenedHalf(cfg, r, m, o, r');
    BufferingIsLogged(r, m.side);
    LogSplits(r.log, Exchange(m, o.result.value, o.calls));
    assert StreamedFlow(cfg, r.st, m, o);
  }

  lemma ForwardsStep(cfg: Config, r: Run, m: Message, o: Outcome, r': Run, side: Side)
    requires LiveStep(cfg, r, m, o, r') && LogForwards(cfg, r, side) && ContextKept(r) && m.side == side
    ensures LogForwards(cfg, r', side)
  {
    hide Inv, StepGood, Metered, DuplexFlow, ForwardsFilterOutput, Seen, SeenTrailers, SeenHeadersEnd, SeenBodyEnd,
         ContextKept, HeldAfter, ChunkReply, Buffering, WithinLimits;
    StepProgress(cfg, r, m, o, r');
    UnopenedHalf(cfg, r, m, o, r');
    LogSplits(r.log, Exchange(m, o.result.value, o.calls));
    assert forall i :: 0 <= i < |r.log| ==> r'.log[..i] == r.log[..i] && r'.log[i] == r.log[i];
    if m.Body? && r.st.At(side).mode.Streamed? {
      ExchangeForwards(cfg, r, m, o, r');
    }
    UnseenIsUnlogged(r, side);
  }

  lemma ForwardsOtherStep(cfg: Config, r: Run, m: Message, o: Outcome, r': Run, side: Side)
    requires LiveStep(cfg, r, m, o, r') && LogForwards(cfg, r, side) && m.side != side
    ensures LogForwards(cfg, r', side)
  {
    hide RequestInv, LocalReplyInv, StepGood, FlowOk, ForwardsFilterOutput, Seen, SeenTrailers, SeenHeadersEnd, SeenBodyEnd,
         HeldAfter;
    StepProgress(cfg, r, m, o, r');
    UnopenedHalf(cfg, r, m, o, r');
    LogSplits(r.log, Exchange(m, o.result.value, o.calls));
    assert forall i :: 0 <= i < |r.log| ==> r'.log[..i] == r.log[..i] && r'.log[i] == r.log[i];
    UnseenIsUnlogged(r, side);
  }

  lemma UnseenIsUnlogged(r: Run, side: Side)
    requires HistoryKept(r)
    ensures r.st.At(side).furthest.None? ==> forall i :: 0 <= i < |r.log| ==> r.log[i].m.side != side
  {
    if r.st.At(side).furthest.None? {
      assert !Seen(Messages(r.log), side);
      forall i | 0 <= i < |r.log| ensures r.log[i].m.side != side {
        assert Messages(r.log)[i] == r.log[i].m;
      }
    }
  }

  /** STREAMED refinement: every chunk of either direction, empty, held back and final ones included. */
  lemma {:induction false} StreamedRepliesRefineFilters(cfg: Config, start: Run, events: seq<Event>, side: Side)
    requires IsFresh(start)
    ensures RunFrom(cfg, start, events).status.Running? ==> LogForwards(cfg, RunFrom(cfg, start, events), side)
  {
    hide Step, Inv, StepGood, FlowOk, HistoryKept, ForwardsFilterOutput, ContextKept;
    var r := RunFrom(cfg, start, events);
    if events != [] && r.status.Running? {
      var init, e := events[..|events| - 1], events[|events| - 1];
      LastStep(cfg, start, events);
      StreamedRepliesRefineFilters(cfg, start, init, side);
      ContextIsOneLongLivedValue(cfg, start, init);
      var r0 := RunFrom(cfg, start, init);
      var o := Step(cfg, e.oracle, r0.st, e.m);
      assert r0.status.Running?;
      hide RunFrom, LogForwards;
      if e.m.side == side {
        ForwardsStep(cfg, r0, e.m, o, r, side);
      } else {
        ForwardsOtherStep(cfg, r0, e.m, o, r, side);
      }
    }
  }

  // ---------------------------------------------------------------------------
  // Every byte of a response is accounted for
  // ---------------------------------------------------------------------------

  /** Response bytes given to the body filters, call by call. */
  function Given(log: seq<Exchange>): Bytes {
    if log == [] then []
    else
      var x := log[|log| - 1];
      Given(log[..|log| - 1])
      + if x.m.side.ResponseSide? && x.calls.body.Some? && x.calls.body.value.data.Some? then x.calls.body.value.data.value else []
  }

  /** A response chunk goes past bytes that are still held, because the hooks stopped asking to buffer. */
  predicate Overtakes(before: seq<Exchange>, m: Message) {
    m.Body? && m.side.ResponseSide? && !Buffers(before, ResponseSide) && HeldAfter(before) != []
  }

  /** No chunk with bytes ever overtook held ones. */
  predicate InOrder(log: seq<Exchange>) {
    log == []
    || (InOrder(log[..|log| - 1])
        && !(Overtakes(log[..|log| - 1], log[|log| - 1].m) && log[|log| - 1].m.body != []))
  }

  /** The last body message of the response overtook held bytes. */
  predicate Stranded(log: seq<Exchange>) {
    log != []
    && (Stranded(log[..|log| - 1])
        || (Overtakes(log[..|log| - 1], log[|log| - 1].m) && log[|log| - 1].m.endOfStream))
  }

  /** Filtered and held bytes against received ones. */
  ghost predicate Accounted(given: Bytes, held: Bytes, received: Bytes, inOrder: bool) {
    && multiset(given) + multiset(held) == multiset(received)
    && (inOrder ==> given + held == received)
  }

  ghost predicate AccountKept(cfg: Config, r: Run) {
    var given, held, received := Given(r.log), HeldAfter(r.log), Received(Messages(r.log), ResponseSide);
    var ended := SeenBodyEnd(Messages(r.log), ResponseSide);
    && (r.st.resp.furthest.None? ==> given == [] && held == [] && received == [] && InOrder(r.log) && !Stranded(r.log) && !ended)
    && (r.st.resp.mode.Streamed? && !PassesThrough(cfg, r.st, ResponseSide) ==>
          && Accounted(given, held, received, InOrder(r.log))
          && (Stranded(r.log) <==> ended && held != [])
          && (r.st.resp.bodyState.Completed? && !ended ==> held == []))
  }

  lemma AccountGrows(log: seq<Exchange>, x: Exchange)
    ensures Given(log + [x]) == Given(log)
            + if x.m.side.ResponseSide? && x.calls.body.Some? && x.calls.body.value.data.Some? then x.calls.body.value.data.value else []
    ensures InOrder(log + [x]) <==> InOrder(log) && !(Overtakes(log, x.m) && x.m.body != [])
    ensures Stranded(log + [x]) <==> Stranded(log) || (Overtakes(log, x.m) && x.m.endOfStream)
  {
    hide Overtakes, HeldAfter;
    assert (log + [x])[..|log|] == log;
  }

  /** A chunk that is not buffered goes to the filters at once. */
  lemma PassAccounted(given: Bytes, held: Bytes, received: Bytes, inOrder: bool, chunk: Bytes)
    requires Accounted(given, held, received, inOrder)
    ensures Accounted(given + chunk, held, received + chunk, inOrder && (held == [] || chunk == []))
  {
    assert inOrder && held == [] ==> given + chunk + held == given + held + chunk;
    assert inOrder && chunk == [] ==> given + chunk + held == given + held + chunk;
  }

  /** A buffered chunk joins the held bytes; the last one takes them all to the filters. */
  lemma HoldAccounted(given: Bytes, held: Bytes, received: Bytes, inOrder: bool, chunk: Bytes)
    requires Accounted(given, held, received, inOrder)
    ensures Accounted(given, held + chunk, received + chunk, inOrder)
    ensures Accounted(given + (held + chunk), [], received + chunk, inOrder)
  {
    assert given + (held + chunk) == given + held + chunk;
    assert given + (held + chunk) + [] == given + (held + chunk);
  }

  lemma AccountBodyStep(cfg: Config, r: Run, m: Message, o: Outcome, r': Run)
    requires LiveStep(cfg, r, m, o, r') && AccountKept(cfg, r) && m.side.ResponseSide? && m.Body?
    requires LogForwards(cfg, r', ResponseSide)
    ensures AccountKept(cfg, r')
  {
    hide Inv, HistoryKept, StepGood, Metered, DuplexFlow, ChunkReply, WithinLimits, Buffering, SeenBodyEnd, Received,
         Messages, Buffers, HeldAfter, Given, InOrder, Stranded, Accounted, Forwarded, Bodies, Sent;
    var x := Exchange(m, o.result.value, o.calls);
    BothEndsGrow(r, m, o.result.value, o.calls, ResponseSide);
    FirstIffNotEnded(cfg, r, m, o, r');
    StepProgress(cfg, r, m, o, r');
    UnopenedHalf(cfg, r, m, o, r');
    LogSplits(r.log, x);
    AccountGrows(r.log, x);
    var given, held, received := Given(r.log), HeldAfter(r.log), Received(Messages(r.log), ResponseSide);
    if r'.st.resp.mode.Streamed? && !PassesThrough(cfg, r'.st, ResponseSide) {
      assert ForwardsFilterOutput(r.log, x, false);
      PassAccounted(given, held, received, InOrder(r.log), m.body);
      HoldAccounted(given, held, received, InOrder(r.log), m.body);
      assert given + [] == given;
    }
  }

  lemma AccountStep(cfg: Config, r: Run, m: Message, o: Outcome, r': Run)
    requires LiveStep(cfg, r, m, o, r') && AccountKept(cfg, r) && !(m.side.ResponseSide? && m.Body?)
    requires LogForwards(cfg, r, ResponseSide)
    ensures AccountKept(cfg, r')
  {
    hide HistoryKept, Metered, DuplexFlow, ChunkReply, WithinLimits, Buffering, SeenBodyEnd, Received, Messages, Buffers,
         HeldAfter, Given, InOrder, Stranded, Accounted, Forwarded, Bodies, Sent, RequestInv, ResponseInv, LocalReplyInv,
         Threads, EmitsInOrder, ForwardsFilterOutput;
    var x := Exchange(m, o.result.value, o.calls);
    BothEndsGrow(r, m, o.result.value, o.calls, ResponseSide);
    StepProgress(cfg, r, m, o, r');
    UnopenedHalf(cfg, r, m, o, r');
    LogSplits(r.log, x);
    AccountGrows(r.log, x);
    NothingAccounted();
    var given, received := Given(r.log), Received(Messages(r.log), ResponseSide);
    assert given + [] == given && received + [] == received;
  }

  lemma NothingAccounted()
    ensures Accounted([], [], [], true)
  {
    var nothing: Bytes := [];
    assert nothing + nothing == nothing;
  }

  /** The response was STREAMED through body filters and is closed. */
  predicate FilteredToTheEnd(cfg: Config, st: Stream) {
    st.resp.mode.Streamed? && !PassesThrough(cfg, st, ResponseSide) && st.resp.bodyState.Completed?
  }

  /**
   Conservation for filtered STREAMED responses, whatever the hooks of either direction ask for
   and however often they change their mind: the bytes given to the body filters and the bytes
   held are together the bytes received, and in the order received as long as no chunk overtook
   held bytes. When the body is closed, every byte went through the filters exactly unless the
   last body message came after the hooks stopped asking to buffer, while bytes were held.
   */
  lemma {:induction false} EveryResponseByteIsAccounted(cfg: Config, start: Run, events: seq<Event>)
    requires IsFresh(start)
    ensures var r := RunFrom(cfg, start, events);
            r.status.Running? ==>
              && AccountKept(cfg, r)
              && (FilteredToTheEnd(cfg, r.st) ==>
                    (multiset(Given(r.log)) == multiset(Received(Messages(r.log), ResponseSide)) <==> !Stranded(r.log)))
  {
    hide Step, Inv, StepGood, FlowOk, HistoryKept, LogForwards, InOrder, Stranded, Given, HeldAfter;
    var r := RunFrom(cfg, start, events);
    if events == [] {
      EmptyAccount(cfg, start);
    } else if r.status.Running? {
      var init, e := events[..|events| - 1], events[|events| - 1];
      LastStep(cfg, start, events);
      EveryResponseByteIsAccounted(cfg, start, init);
      StreamedRepliesRefineFilters(cfg, start, init, ResponseSide);
      StreamedRepliesRefineFilters(cfg, start, events, ResponseSide);
      var r0 := RunFrom(cfg, start, init);
      var o := Step(cfg, e.oracle, r0.st, e.m);
      assert r0.status.Running?;
      hide RunFrom, AccountKept;
      if e.m.side.ResponseSide? && e.m.Body? {
        AccountBodyStep(cfg, r0, e.m, o, r);
      } else {
        AccountStep(cfg, r0, e.m, o, r);
      }
    }
    if r.status.Running? && FilteredToTheEnd(cfg, r.st) {
      GivenIffNotStranded(cfg, r);
    }
  }

  lemma EmptyAccount(cfg: Config, start: Run)
    requires IsFresh(start)
    ensures AccountKept(cfg, start)
  {
    assert Messages(start.log) == [];
    NothingAccounted();
  }

  lemma GivenIffNotStranded(cfg: Config, r: Run)
    requires AccountKept(cfg, r) && FilteredToTheEnd(cfg, r.st)
    ensures multiset(Given(r.log)) == multiset(Received(Messages(r.log), ResponseSide)) <==> !Stranded(r.log)
  {
    hide Given, HeldAfter, Received, Messages, InOrder, Stranded, SeenBodyEnd;
    var given, held := Given(r.log), HeldAfter(r.log);
    assert |multiset(given) + multiset(held)| == |given| + |held|;
    assert held == [] ==> multiset(held) == multiset{};
  }

  // ---------------------------------------------------------------------------
  // What Envoy ends up with
  // ---------------------------------------------------------------------------

  /** Body bytes of a direction that Envoy has forwarded, chunk by chunk. */
  function Visible(log: seq<Exchange>, side: Side): Bytes {
    if log == [] then []
    else
      var x := log[|log| - 1];
      Visible(log[..|log| - 1], side) + if x.m.side == side then ForwardedBy(x.m, x.batch) else []
  }

  /** Everything the body hooks of a direction produced. */
  function Produced(log: seq<Exchange>, side: Side): Bytes {
    if log == [] then []
    else
      var x := log[|log| - 1];
      Produced(log[..|log| - 1], side) + if x.m.side == side && x.calls.body.Some? then x.calls.body.value.produced else []
  }

  /** What the final call made by trailers produced; no message is left to carry it. */
  function TrailingOutput(log: seq<Exchange>, side: Side): Bytes {
    if log == [] then []
    else
      var x := log[|log| - 1];
      TrailingOutput(log[..|log| - 1], side)
      + if x.m.side == side && x.m.Trailers? && x.calls.body.Some? then x.calls.body.value.produced else []
  }

  lemma OutputGrows(log: seq<Exchange>, x: Exchange, side: Side)
    ensures Visible(log + [x], side) == Visible(log, side) + if x.m.side == side then ForwardedBy(x.m, x.batch) else []
    ensures Produced(log + [x], side)
            == Produced(log, side) + if x.m.side == side && x.calls.body.Some? then x.calls.body.value.produced else []
    ensures TrailingOutput(log + [x], side)
            == TrailingOutput(log, side)
               + if x.m.side == side && x.m.Trailers? && x.calls.body.Some? then x.calls.body.value.produced else []
  {
    assert (log + [x])[..|log|] == log;
  }

  /** The output of a STREAMED direction: what is visible, and what trailers dropped. */
  ghost predicate OutputKept(cfg: Config, r: Run, side: Side) {
    var visible, produced, dropped := Visible(r.log, side), Produced(r.log, side), TrailingOutput(r.log, side);
    && (r.st.At(side).furthest.None? ==> visible == [] && produced == [] && Received(Messages(r.log), side) == [])
    && (r.st.At(side).furthest != Some(TrailersStep) ==> dropped == [])
    && (r.st.At(side).mode.Streamed? ==>
          if PassesThrough(cfg, r.st, side) then visible == Received(Messages(r.log), side)
          else produced == visible + dropped)
  }

  lemma OutputStep(cfg: Config, r: Run, m: Message, o: Outcome, r': Run, side: Side)
    requires LiveStep(cfg, r, m, o, r') && OutputKept(cfg, r, side) && m.side == side
    requires LogForwards(cfg, r', side)
    ensures OutputKept(cfg, r', side)
  {
    hide Inv, HistoryKept, StepGood, Metered, DuplexFlow, ChunkReply, WithinLimits, Buffering, SeenBodyEnd, Received,
         Messages, Buffers, HeldAfter, Visible, Produced, TrailingOutput, Forwarded, Bodies, Sent;
    var x := Exchange(m, o.result.value, o.calls);
    BothEndsGrow(r, m, o.result.value, o.calls, side);
    FirstIffNotEnded(cfg, r, m, o, r');
    StepProgress(cfg, r, m, o, r');
    UnopenedHalf(cfg, r, m, o, r');
    assert r'.log[..|r.log|] == r.log && r'.log[|r.log|] == x;
    OutputGrows(r.log, x, side);
    var visible, produced, received := Visible(r.log, side), Produced(r.log, side), Received(Messages(r.log), side);
    assert visible + [] == visible && produced + [] == produced && received + [] == received;
    if m.Body? && r'.st.At(side).mode.Streamed? {
      assert ForwardsFilterOutput(r.log, x, PassesThrough(cfg, r'.st, side));
      assert ForwardedBy(m, o.result.value) == Forwarded(m.body, o.result.value.bodies[0]);
    }
  }

  lemma OutputOtherStep(cfg: Config, r: Run, m: Message, o: Outcome, r': Run, side: Side)
    requires LiveStep(cfg, r, m, o, r') && OutputKept(cfg, r, side) && m.side != side
    ensures OutputKept(cfg, r', side)
  {
    hide Inv, HistoryKept, StepGood, FlowOk, SeenBodyEnd, Received, Messages, Visible, Produced, TrailingOutput, Bodies,
         Sent;
    BothEndsGrow(r, m, o.result.value, o.calls, side);
    StepProgress(cfg, r, m, o, r');
    UnopenedHalf(cfg, r, m, o, r');
    OutputGrows(r.log, Exchange(m, o.result.value, o.calls), side);
    var visible, produced, received := Visible(r.log, side), Produced(r.log, side), Received(Messages(r.log), side);
    assert visible + [] == visible && produced + [] == produced && received + [] == received;
  }

  /**
   Over a whole STREAMED body, either direction: without body filters Envoy ends up with the
   bytes it sent; with them, with all that the body hooks produced, if and only if the final
   call made by trailers produced nothing, and otherwise with all but that.
   */
  lemma {:induction false} StreamedOutputIsProducedIff(cfg: Config, start: Run, events: seq<Event>, side: Side)
    requires IsFresh(start)
    ensures var r := RunFrom(cfg, start, events);
            r.status.Running? ==>
              && OutputKept(cfg, r, side)
              && (r.st.At(side).mode.Streamed? && !PassesThrough(cfg, r.st, side) ==>
                    (Visible(r.log, side) == Produced(r.log, side) <==> TrailingOutput(r.log, side) == []))
  {
    hide Step, Inv, StepGood, FlowOk, HistoryKept, LogForwards;
    var r := RunFrom(cfg, start, events);
    if events == [] {
      assert Messages(start.log) == [];
    } else if r.status.Running? {
      var init, e := events[..|events| - 1], events[|events| - 1];
      LastStep(cfg, start, events);
      StreamedOutputIsProducedIff(cfg, start, init, side);
      StreamedRepliesRefineFilters(cfg, start, events, side);
      var r0 := RunFrom(cfg, start, init);
      var o := Step(cfg, e.oracle, r0.st, e.m);
      assert r0.status.Running?;
      hide RunFrom, OutputKept;
      if e.m.side == side {
        OutputStep(cfg, r0, e.m, o, r, side);
      } else {
        OutputOtherStep(cfg, r0, e.m, o, r, side);
      }
    }
    if r.status.Running? && r.st.At(side).mode.Streamed? && !PassesThrough(cfg, r.st, side) {
      ProducedIff(cfg, r, side);
    }
  }

  lemma ProducedIff(cfg: Config, r: Run, side: Side)
    requires OutputKept(cfg, r, side) && r.st.At(side).mode.Streamed? && !PassesThrough(cfg, r.st, side)
    ensures Visible(r.log, side) == Produced(r.log, side) <==> TrailingOutput(r.log, side) == []
  {
    hide Visible, Produced, TrailingOutput, Received, Messages;
    assert Visible(r.log, side) + [] == Visible(r.log, side);
    assert |Produced(r.log, side)| == |Visible(r.log, side)| + |TrailingOutput(r.log, side)|;
  }
}
