/**
 The order in which the bytes of a filtered STREAMED response reach the body filters, byte by
 byte: each byte is known by its position in the body Envoy delivered.
 */
module Ordering {
  import opened Wire
  import opened Chunking
  import opened StreamSpec
  import opened Effects
  import opened Invariant
  import opened Steps
  import opened Runs
  import opened Grammar
  import opened BodyFlow
  import opened Conservation
  import opened Streaming

  // ---------------------------------------------------------------------------
  // Positions
  // ---------------------------------------------------------------------------

  /** `len` consecutive positions. */
  function Range(first: nat, len: nat): (ps: seq<nat>)
    ensures |ps| == len
  {
    seq(len, i requires 0 <= i < len => first + i)
  }

  /** Where received bytes are: handed to the filters, in that order, or held; and how many there are. */
  datatype Positions = Positions(given: seq<nat>, held: seq<nat>, count: nat)

  /** A response chunk of `len` bytes arrives. */
  function Arrive(ps: Positions, len: nat, buffers: bool, eos: bool): Positions {
    var added := Range(ps.count, len);
    if !buffers then Positions(ps.given + added, ps.held, ps.count + len)
    else if eos then Positions(ps.given + (ps.held + added), [], ps.count + len)
    else Positions(ps.given, ps.held + added, ps.count + len)
  }

  /** The positions after a log, given what the hooks asked for when each chunk came. */
  function PositionsAfter(log: seq<Exchange>): Positions {
    if log == [] then Positions([], [], 0)
    else
      var before, m := log[..|log| - 1], log[|log| - 1].m;
      if m.Body? && m.side.ResponseSide?
      then Arrive(PositionsAfter(before), |m.body|, Buffers(before, ResponseSide), m.endOfStream)
      else PositionsAfter(before)
  }

  lemma PositionsGrow(log: seq<Exchange>, x: Exchange)
    ensures PositionsAfter(log + [x])
            == if x.m.Body? && x.m.side.ResponseSide?
               then Arrive(PositionsAfter(log), |x.m.body|, Buffers(log, ResponseSide), x.m.endOfStream)
               else PositionsAfter(log)
  {
    assert (log + [x])[..|log|] == log;
  }

  /** Every position below the count is in exactly one place, once. */
  ghost predicate Placed(ps: Positions) {
    && multiset(ps.given) + multiset(ps.held) == multiset(Range(0, ps.count))
    && |ps.given| + |ps.held| == ps.count
    && forall p :: p in ps.given || p in ps.held ==> p < ps.count
  }

  /** Nothing was moved: handed over and held positions are those received, in order. */
  predicate InPlace(ps: Positions) {
    ps.given + ps.held == Range(0, ps.count)
  }

  lemma RangeSplits(n: nat, len: nat)
    ensures Range(0, n + len) == Range(0, n) + Range(n, len)
  {
  }

  lemma MultisetConcat(a: seq<nat>, b: seq<nat>)
    ensures multiset(a + b) == multiset(a) + multiset(b)
  {
  }

  lemma ArriveIsPlaced(ps: Positions, len: nat, buffers: bool, eos: bool)
    requires Placed(ps)
    ensures Placed(Arrive(ps, len, buffers, eos))
  {
    var added, before := Range(ps.count, len), Range(0, ps.count);
    RangeSplits(ps.count, len);
    assert forall p :: p in added ==> p < ps.count + len;
    MultisetConcat(before, added);
    MultisetConcat(ps.given, added);
    MultisetConcat(ps.held, added);
    MultisetConcat(ps.given, ps.held + added);
    hide Range;
  }

  /** Bytes that join the end keep or lose nothing: in place exactly if they were. */
  lemma HoldingKeepsPlace(ps: Positions, len: nat, eos: bool)
    requires Placed(ps)
    ensures InPlace(Arrive(ps, len, true, eos)) <==> InPlace(ps)
  {
    RangeSplits(ps.count, len);
    var added, before := Range(ps.count, len), Range(0, ps.count);
    var all, now := ps.given + ps.held, Arrive(ps, len, true, eos);
    assert now.given + now.held == all + added;
    assert (all + added)[..ps.count] == all && (before + added)[..ps.count] == before;
  }

  /** Bytes that go straight to the filters stay in place exactly if nothing is held, or there are none of them. */
  lemma PassingKeepsPlaceIff(ps: Positions, len: nat, eos: bool)
    requires Placed(ps)
    ensures InPlace(Arrive(ps, len, false, eos)) <==> InPlace(ps) && (ps.held == [] || len == 0)
  {
    RangeSplits(ps.count, len);
    var added, before := Range(ps.count, len), Range(0, ps.count);
    var now := ps.given + added + ps.held;
    if ps.held == [] {
      assert now == ps.given + added && ps.given + ps.held == ps.given;
      assert now[..ps.count] == ps.given && (before + added)[..ps.count] == before;
    } else if len == 0 {
      assert added == [] && ps.given + added == ps.given && before + added == before;
    } else {
      assert now[|now| - 1] == ps.held[|ps.held| - 1] && ps.held[|ps.held| - 1] in ps.held;
      assert (before + added)[ps.count + len - 1] == ps.count + len - 1;
    }
  }

  /** On every log: the bytes are in place exactly when no chunk overtook held ones. */
  lemma {:induction false} InPlaceIffInOrder(log: seq<Exchange>)
    ensures Placed(PositionsAfter(log)) && |PositionsAfter(log).held| == |HeldAfter(log)|
    ensures InPlace(PositionsAfter(log)) <==> InOrder(log)
  {
    if log == [] {
      assert Range(0, 0) == [];
    } else {
      hide PositionsAfter, HeldAfter, InOrder, Placed, InPlace, Buffers, Stranded, Given;
      var before, x := log[..|log| - 1], log[|log| - 1];
      assert before + [x] == log;
      InPlaceIffInOrder(before);
      PositionsGrow(before, x);
      LogSplits(before, x);
      AccountGrows(before, x);
      var ps := PositionsAfter(before);
      if x.m.Body? && x.m.side.ResponseSide? {
        ArriveIsPlaced(ps, |x.m.body|, Buffers(before, ResponseSide), x.m.endOfStream);
        HoldingKeepsPlace(ps, |x.m.body|, x.m.endOfStream);
        PassingKeepsPlaceIff(ps, |x.m.body|, x.m.endOfStream);
      }
    }
  }

  // ---------------------------------------------------------------------------
  // The bytes at the positions
  // ---------------------------------------------------------------------------

  /** `picked` are the bytes of `all` at these positions. */
  ghost predicate Picks(all: Bytes, ps: seq<nat>, picked: Bytes) {
    |picked| == |ps| && forall i :: 0 <= i < |ps| ==> ps[i] < |all| && picked[i] == all[ps[i]]
  }

  lemma PicksMore(all: Bytes, ps: seq<nat>, picked: Bytes, more: Bytes)
    requires Picks(all, ps, picked)
    ensures Picks(all + more, ps, picked)
    ensures Picks(all + more, Range(|all|, |more|), more)
  {
  }

  lemma PicksConcat(all: Bytes, ps: seq<nat>, picked: Bytes, qs: seq<nat>, others: Bytes)
    requires Picks(all, ps, picked) && Picks(all, qs, others)
    ensures Picks(all, ps + qs, picked + others)
  {
  }

  /** What was given to the filters and what is held are the received bytes at the positions of the log. */
  ghost predicate Located(log: seq<Exchange>) {
    var ps, received := PositionsAfter(log), Received(Messages(log), ResponseSide);
    ps.count == |received| && Picks(received, ps.given, Given(log)) && Picks(received, ps.held, HeldAfter(log))
  }

  ghost predicate LocatedKept(cfg: Config, r: Run) {
    r.st.resp.furthest.None? || (r.st.resp.mode.Streamed? && !PassesThrough(cfg, r.st, ResponseSide)) ==> Located(r.log)
  }

  /** A chunk that is given, held, or given with all that is held. */
  lemma ArriveIsLocated(ps: Positions, received: Bytes, given: Bytes, held: Bytes, chunk: Bytes, buffers: bool, eos: bool)
    requires ps.count == |received| && Picks(received, ps.given, given) && Picks(received, ps.held, held)
    ensures var now := Arrive(ps, |chunk|, buffers, eos);
            && now.count == |received + chunk|
            && Picks(received + chunk, now.given, if !buffers then given + chunk else if eos then given + (held + chunk) else given)
            && Picks(received + chunk, now.held, if !buffers then held else if eos then [] else held + chunk)
  {
    hide Picks;
    PicksMore(received, ps.given, given, chunk);
    PicksMore(received, ps.held, held, chunk);
    var added := Range(ps.count, |chunk|);
    PicksConcat(received + chunk, ps.given, given, added, chunk);
    PicksConcat(received + chunk, ps.held, held, added, chunk);
    PicksConcat(received + chunk, ps.given, given, ps.held + added, held + chunk);
    PicksNothing(received + chunk);
  }

  lemma PicksNothing(all: Bytes)
    ensures Picks(all, [], [])
  {
  }

  lemma LocatedBodyStep(cfg: Config, r: Run, m: Message, o: Outcome, r': Run)
    requires LiveStep(cfg, r, m, o, r') && LocatedKept(cfg, r) && m.side.ResponseSide? && m.Body?
    requires LogForwards(cfg, r', ResponseSide)
    ensures LocatedKept(cfg, r')
  {
    hide Inv, HistoryKept, StepGood, Metered, DuplexFlow, ChunkReply, WithinLimits, Buffering, Forwarded, Bodies, Sent, SeenBodyEnd,
         Received, Messages, Buffers, HeldAfter, Given, InOrder, Stranded, PositionsAfter, Located;
    var x := Exchange(m, o.result.value, o.calls);
    FirstIffNotEnded(cfg, r, m, o, r');
    StepProgress(cfg, r, m, o, r');
    UnopenedHalf(cfg, r, m, o, r');
    if r'.st.resp.mode.Streamed? && !PassesThrough(cfg, r'.st, ResponseSide) {
      assert r'.log[..|r.log|] == r.log && r'.log[|r.log|] == x;
      assert ForwardsFilterOutput(r.log, x, false);
      ChunkIsLocated(r, x);
    }
  }

  /** A filtered chunk on arrival: at once, with all that is held, or later. */
  lemma ChunkIsLocated(r: Run, x: Exchange)
    requires Located(r.log) && x.m.Body? && x.m.side.ResponseSide? && !SeenBodyEnd(Messages(r.log), ResponseSide)
    requires ForwardsFilterOutput(r.log, x, false)
    ensures Located(r.log + [x])
  {
    hide Forwarded, SeenBodyEnd, Received, Messages, Buffers, HeldAfter, Given, InOrder, Stranded, PositionsAfter, Picks, Arrive, Bodies,
         Sent;
    var log := r.log;
    BothEndsGrow(r, x.m, x.batch, x.calls, ResponseSide);
    LogSplits(log, x);
    AccountGrows(log, x);
    PositionsGrow(log, x);
    var given := Given(log);
    ArriveIsLocated(PositionsAfter(log), Received(Messages(log), ResponseSide), given, HeldAfter(log), x.m.body,
                    Buffers(log, ResponseSide), x.m.endOfStream);
    assert given + [] == given;
  }

  lemma LocatedStep(cfg: Config, r: Run, m: Message, o: Outcome, r': Run)
    requires LiveStep(cfg, r, m, o, r') && LocatedKept(cfg, r) && !(m.side.ResponseSide? && m.Body?)
    ensures LocatedKept(cfg, r')
  {
    hide Inv, HistoryKept, StepGood, Metered, DuplexFlow, SeenBodyEnd, Received, Messages, Buffers, HeldAfter, Given,
         InOrder, Stranded, PositionsAfter, Picks;
    var x := Exchange(m, o.result.value, o.calls);
    BothEndsGrow(r, m, o.result.value, o.calls, ResponseSide);
    StepProgress(cfg, r, m, o, r');
    UnopenedHalf(cfg, r, m, o, r');
    LogSplits(r.log, x);
    AccountGrows(r.log, x);
    PositionsGrow(r.log, x);
    var given, received := Given(r.log), Received(Messages(r.log), ResponseSide);
    assert given + [] == given && received + [] == received;
  }

  lemma {:induction false} BytesAreLocated(cfg: Config, start: Run, events: seq<Event>)
    requires IsFresh(start)
    ensures RunFrom(cfg, start, events).status.Running? ==> LocatedKept(cfg, RunFrom(cfg, start, events))
  {
    hide Step, Inv, StepGood, FlowOk, HistoryKept, LogForwards;
    var r := RunFrom(cfg, start, events);
    if events == [] {
      assert Messages(start.log) == [];
    } else if r.status.Running? {
      var init, e := events[..|events| - 1], events[|events| - 1];
      LastStep(cfg, start, events);
      BytesAreLocated(cfg, start, init);
      StreamedRepliesRefineFilters(cfg, start, events, ResponseSide);
      var r0 := RunFrom(cfg, start, init);
      var o := Step(cfg, e.oracle, r0.st, e.m);
      assert r0.status.Running?;
      hide RunFrom, LocatedKept;
      if e.m.side.ResponseSide? && e.m.Body? {
        LocatedBodyStep(cfg, r0, e.m, o, r);
      } else {
        LocatedStep(cfg, r0, e.m, o, r);
      }
    }
  }

  /** The response of a live stream goes through body filters in STREAMED mode. */
  predicate FiltersResponse(cfg: Config, r: Run) {
    r.status.Running? && r.st.resp.mode.Streamed? && !PassesThrough(cfg, r.st, ResponseSide)
  }

  /**
   The order of a filtered STREAMED response, whatever the hooks ask for: every received byte is
   with the filters or held, at the position the log says, exactly once; and the bytes handed to
   the filters followed by the held ones are the received bytes in their order if and only if no
   chunk with bytes came unbuffered while bytes were held.
   */
  lemma ResponseOrderIsKeptIff(cfg: Config, start: Run, events: seq<Event>)
    requires IsFresh(start)
    ensures var r := RunFrom(cfg, start, events);
            FiltersResponse(cfg, r) ==>
              && Located(r.log) && Placed(PositionsAfter(r.log))
              && (InPlace(PositionsAfter(r.log)) <==> InOrder(r.log))
  {
    hide RunFrom, Located, Placed, InPlace, InOrder, PositionsAfter, HeldAfter;
    BytesAreLocated(cfg, start, events);
    InPlaceIffInOrder(RunFrom(cfg, start, events).log);
  }
}
