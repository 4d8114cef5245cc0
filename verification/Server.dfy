/**
 Dispatch and the message loop of one ExtProc stream (`src/server.rs`).
 */
module Server {
  import opened Wire
  import opened Filters
  import opened Sequencing
  import opened StreamSpec
  import opened Chunking
  import opened Invariant
  import opened Runs
  import opened StreamStates
  import opened Pipeline
  import opened Handlers

  /** A message that fails a dispatch check reaches no handler. */
  lemma RefusedStep(cfg: Config, oracle: Oracle, st: Stream, m: Message)
    requires DispatchError(st, m).Some?
    ensures Step(cfg, oracle, st, m) == Fail(st, DispatchError(st, m).value)
  {
    hide HandlerPlan, PlanFrame;
  }

  /** A message that passes them is handled on the advanced state; a local reply is settled there. */
  lemma AcceptedStep(cfg: Config, oracle: Oracle, st: Stream, m: Message)
    requires DispatchError(st, m).None?
    ensures Step(cfg, oracle, st, m)
            == Finish(cfg, m, Advanced(st, m).localReply, Execute(cfg, oracle, HandlerPlan(cfg, Advanced(st, m), m)))
    ensures Advanced(st, m).localReply ==>
              LocalReplyPlan(Advanced(st, m), m).Settle? && Step(cfg, oracle, st, m) == LocalReplyPlan(Advanced(st, m), m).outcome
  {
    hide PlanFrame, RequestHeadersPlan, RequestBodyPlan, ResponseHeadersPlan, ResponseBodyPlan, TrailersPlan, BodyResponses,
         HeadersCommon;
  }

  /** `dispatch_request`: the body-mode check, the phase tracker, then the handler. */
  method Dispatch(state: StreamState, oracle: Oracle, m: Message) returns (r: Replies, ghost calls: Calls)
    modifies state, state.eosTracker, state.phaseOrder
    ensures Refines(m.side, Step(state.cfg, oracle, old(state.View()), m), state.View(), r, calls)
  {
    hide Execute, RequestHeadersPlan, RequestBodyPlan, ResponseHeadersPlan, ResponseBodyPlan, TrailersPlan, LocalReplyPlan,
         FinishRequestHeaders, FinishTrailers, PlanFrame, Render, Step;
    calls := NO_CALLS;
    ghost var st := state.View();
    if DispatchError(st, m).Some? {
      RefusedStep(state.cfg, oracle, st, m);
    } else {
      AcceptedStep(state.cfg, oracle, st, m);
    }
    var valid := ValidateBodyMessage(m, state.requestMode, state.responseMode);
    if valid.Err? {
      return Err(valid.status), calls;
    }
    var ordered := state.phaseOrder.CheckAndAdvance(m);
    if ordered.Err? {
      return Err(ordered.status), calls;
    }
    assert state.View() == Advanced(old(state.View()), m);
    if state.phaseOrder.localReply {
      r := LocalReplyPassthrough(state, m);
      return;
    }
    match m
    case Headers(RequestSide, headers, eos) => r, calls := HandleRequestHeaders(state, oracle, headers, eos);
    case Headers(ResponseSide, headers, eos) => r, calls := HandleResponseHeaders(state, oracle, headers, eos);
    case Body(RequestSide, chunk, eos) => r, calls := HandleRequestBody(state, oracle, chunk, eos);
    case Body(ResponseSide, chunk, eos) => r, calls := HandleResponseBody(state, oracle, chunk, eos);
    case Trailers(side) => r, calls := HandleTrailers(state, oracle, side);
  }

  // ---------------------------------------------------------------------------
  // Protocol configuration
  // ---------------------------------------------------------------------------

  /** The body modes Envoy announces, as wire numbers, and whether it sends bodies eagerly. */
  datatype ProtocolConfiguration = ProtocolConfiguration(requestMode: int, responseMode: int, eagerBody: bool)

  /** `BodyMode::try_from`: BUFFERED_PARTIAL and unknown numbers are refused. */
  function BodyModeOf(value: int): Option<BodyMode> {
    if value == 0 then Some(NoBody)
    else if value == 1 then Some(Streamed)
    else if value == 2 then Some(Buffered)
    else if value == 4 then Some(FullDuplex)
    else None
  }

  /** Why a configuration is refused, if it is. */
  function ConfigError(config: Option<ProtocolConfiguration>, first: bool): Option<Status> {
    if config.None? then None
    else if !first then Some(LateProtocolConfig)
    else if BodyModeOf(config.value.requestMode).None? || BodyModeOf(config.value.responseMode).None? then Some(UnsupportedBodyMode)
    else None
  }

  function Configured(st: Stream, config: Option<ProtocolConfiguration>): Stream
    requires ConfigError(config, true).None?
  {
    if config.None? then st
    else st.(req := st.req.(mode := BodyModeOf(config.value.requestMode).value),
             resp := st.resp.(mode := BodyModeOf(config.value.responseMode).value),
             eagerBody := config.value.eagerBody)
  }

  /** The number by which Envoy names a body mode. */
  function WireNumber(mode: BodyMode): int {
    match mode
    case NoBody => 0
    case Streamed => 1
    case Buffered => 2
    case FullDuplex => 4
  }

  /** Both directions ask for one of the four modes the server has. */
  predicate Offered(config: ProtocolConfiguration) {
    && (exists mode :: WireNumber(mode) == config.requestMode)
    && (exists mode :: WireNumber(mode) == config.responseMode)
  }

  /** The modes and the eager flag are the ones configured, each in its own direction. */
  predicate RunsAs(requestMode: BodyMode, responseMode: BodyMode, eagerBody: bool, config: ProtocolConfiguration) {
    WireNumber(requestMode) == config.requestMode && WireNumber(responseMode) == config.responseMode && eagerBody == config.eagerBody
  }

  lemma OfferedIsParsed(config: ProtocolConfiguration)
    ensures Offered(config) <==> BodyModeOf(config.requestMode).Some? && BodyModeOf(config.responseMode).Some?
    ensures forall n :: BodyModeOf(n).Some? ==> WireNumber(BodyModeOf(n).value) == n
  {
    assert forall n :: BodyModeOf(n).Some? ==> WireNumber(BodyModeOf(n).value) == n;
    assert forall mode :: BodyModeOf(WireNumber(mode)) == Some(mode);
  }

  /**
   `apply_protocol_config`: accepted on the first message only and only with modes the server
   has, each direction taking its own; a refusal changes nothing.
   */
  method ApplyProtocolConfig(state: StreamState, config: Option<ProtocolConfiguration>, firstProcessed: bool) returns (r: Result<()>)
    modifies state
    ensures var error := ConfigError(config, !firstProcessed);
            && r == (if error.Some? then Err(error.value) else Ok(()))
            && state.View() == (if config.None? || error.Some? then old(state.View()) else Configured(old(state.View()), config))
    ensures r == Err(LateProtocolConfig) <==> config.Some? && firstProcessed
    ensures r == Err(UnsupportedBodyMode) <==> config.Some? && !firstProcessed && !Offered(config.value)
    ensures r.Err? ==> r.status.LateProtocolConfig? || r.status.UnsupportedBodyMode?
    ensures r.Ok? && config.Some? ==> RunsAs(state.requestMode, state.responseMode, state.eagerBody, config.value)
  {
    if config.Some? {
      OfferedIsParsed(config.value);
    }
    if config.None? {
      return Ok(());
    }
    if firstProcessed {
      return Err(LateProtocolConfig);
    }
    var requestMode, responseMode := BodyModeOf(config.value.requestMode), BodyModeOf(config.value.responseMode);
    if requestMode.None? || responseMode.None? {
      return Err(UnsupportedBodyMode);
    }
    state.requestMode, state.responseMode, state.eagerBody := requestMode.value, responseMode.value, config.value.eagerBody;
    return Ok(());
  }

  // ---------------------------------------------------------------------------
  // The message loop
  // ---------------------------------------------------------------------------

  /** What the inbound side yields: a transport failure, or a message whose request field may be missing. */
  datatype Inbound =
    | TransportFailure
    | Item(config: Option<ProtocolConfiguration>, request: Option<Message>, oracle: Oracle)

  /** The run of an inbound stream: configuration, then messages, until something ends it. */
  ghost function Serve(cfg: Config, r: Run, first: bool, inbound: seq<Inbound>): Run
    decreases |inbound|
  {
    if inbound == [] || !r.status.Running? then r
    else if inbound[0].TransportFailure? then r.(status := Failed(TransportError))
    else Serve(cfg, ServeItem(cfg, r, first, inbound[0]), false, inbound[1..])
  }

  ghost function ServeItem(cfg: Config, r: Run, first: bool, item: Inbound): Run
    requires item.Item?
  {
    var error := ConfigError(item.config, first);
    if error.Some? then r.(status := Failed(error.value))
    else
      var configured := if item.config.None? then r else r.(st := Configured(r.st, item.config));
      if item.request.None? then configured else Advance(cfg, configured, Event(item.request.value, item.oracle))
  }

  /** How a run looks from outside: an error, or a regular end. */
  function Ending(status: RunStatus): Result<()> {
    if status.Failed? then Err(status.status) else Ok(())
  }

  /** At most one headers reply per direction, before its bodies; at most one immediate response, the last; no internal error. */
  ghost predicate Orderly(sent: seq<Reply>, result: Result<()>) {
    && Count(sent, Headed(RequestSide)) <= 1 && BodiesFollowHeaders(sent, RequestSide)
    && Count(sent, Headed(ResponseSide)) <= 1 && BodiesFollowHeaders(sent, ResponseSide)
    && Count(sent, Halting()) <= 1 && (forall i :: 0 <= i < |sent| - 1 ==> !sent[i].payload.Immediate?)
    && (result.Err? ==> !InternalError(result.status))
  }

  /** Whether the response channel, which takes `room` replies if it ever closes, refuses one of them. */
  predicate ChannelCloses(replies: seq<Reply>, room: Option<nat>) {
    room.Some? && |replies| > room.value
  }

  /** The send loop of `process_messages`: replies go out in order until the channel refuses one. */
  method SendAll(sent: seq<Reply>, replies: seq<Reply>, room: Option<nat>) returns (out: seq<Reply>, closed: bool)
    requires !ChannelCloses(sent, room)
    ensures closed == ChannelCloses(sent + replies, room)
    ensures out == if closed then (sent + replies)[..room.value] else sent + replies
  {
    out := sent;
    for i := 0 to |replies|
      invariant out == sent + replies[..i] && !ChannelCloses(out, room)
    {
      if room.Some? && |out| == room.value {
        assert (sent + replies)[..|out|] == out;
        return out, true;
      }
      out := out + [replies[i]];
      assert replies[..i + 1] == replies[..i] + [replies[i]];
    }
    assert replies[..|replies|] == replies;
    return out, false;
  }

  /** How the loop goes on after a message. */
  datatype Turn = Continues | Halts | Closes | Fails(status: Status)

  /** What a message does to the run, to the replies sent and to the loop. */
  ghost predicate Answered(next: Run, room: Option<nat>, sent: seq<Reply>, turn: Turn) {
    match turn
    case Continues => next.status.Running? && sent == Sent(next.log) && !ChannelCloses(sent, room) && next.unfinished == NO_CALLS
    case Halts => next.status.Ended? && sent == Sent(next.log) && !ChannelCloses(sent, room)
    case Closes => !next.status.Failed? && ChannelCloses(Sent(next.log), room) && sent == Sent(next.log)[..room.value]
    case Fails(status) => next.status == Failed(status) && sent == Sent(next.log) && !ChannelCloses(sent, room)
  }

  /** One turn of the loop, once the configuration is applied: dispatch, send, and look for an immediate response. */
  method AnswerMessage(state: StreamState, oracle: Oracle, m: Message, before: seq<Reply>, room: Option<nat>, ghost run: Run)
    returns (sent: seq<Reply>, turn: Turn)
    requires run.status.Running? && run.unfinished == NO_CALLS && state.View() == run.st
    requires before == Sent(run.log) && !ChannelCloses(before, room)
    modifies state, state.eosTracker, state.phaseOrder
    ensures Answered(Advance(state.cfg, run, Event(m, oracle)), room, sent, turn)
    ensures state.View() == Advance(state.cfg, run, Event(m, oracle)).st
  {
    hide Step, Render, ChannelCloses, StreamState.View, AnyImmediate, Sent;
    var replies, calls := Dispatch(state, oracle, m);
    if replies.Err? {
      return before, Fails(replies.status);
    }
    ghost var batch := Step(state.cfg, oracle, run.st, m).result.value;
    SentGrows(run.log, Exchange(m, batch, calls));
    RenderedHalt(m.side, batch);
    var closed;
    sent, closed := SendAll(before, replies.value, room);
    turn := if closed then Closes
            else if AnyImmediate(replies.value) then Halts else Continues;
  }

  /** What goes out and how the stream ends, given the run and the channel. */
  ghost predicate Served(run: Run, room: Option<nat>, sent: seq<Reply>, result: Result<()>) {
    var all := Sent(run.log);
    if ChannelCloses(all, room) then sent == all[..room.value] && result == Ok(())
    else sent == all && result == Ending(run.status)
  }

  /**
   `process_messages`: every reply is sent in order; an immediate response ends the loop and
   frees the buffers, and a response channel that closes ends it quietly.
   */
  method ProcessMessages(state: StreamState, inbound: seq<Inbound>, room: Option<nat>) returns (sent: seq<Reply>, result: Result<()>)
    requires state.View() == NewStream(Buffered, Buffered, false)
    modifies state, state.eosTracker, state.phaseOrder
    ensures var run := Serve(state.cfg, Fresh(Buffered, Buffered, false), true, inbound);
            && Served(run, room, sent, result)
            && (!ChannelCloses(Sent(run.log), room) ==> state.View() == if run.status.Ended? then Released(run.st) else run.st)
    ensures Orderly(sent, result)
  {
    hide Step, Render, Configured, Orderly, ChannelCloses, Advance, StreamState.View;
    ghost var whole := Serve(state.cfg, Fresh(Buffered, Buffered, false), true, inbound);
    ServedIsOrderly(state.cfg, inbound, room);
    NothingCloses(room);
    sent := [];
    var firstProcessed := false;
    ghost var run := Fresh(Buffered, Buffered, false);
    var i := 0;
    while i < |inbound|
      invariant 0 <= i <= |inbound|
      invariant firstProcessed <==> i > 0
      invariant run.status.Running? && run.unfinished == NO_CALLS
      invariant whole == Serve(state.cfg, run, !firstProcessed, inbound[i..])
      invariant state.View() == run.st && sent == Sent(run.log) && !ChannelCloses(sent, room)
    {
      var item := inbound[i];
      if item.TransportFailure? {
        return sent, Err(TransportError);
      }
      ghost var next := ServeItem(state.cfg, run, !firstProcessed, item);
      assert inbound[i..][1..] == inbound[i + 1..];
      var configured := ApplyProtocolConfig(state, item.config, firstProcessed);
      if configured.Err? {
        return sent, Err(configured.status);
      }
      ghost var configuredRun := run.(st := state.View());
      firstProcessed := true;
      i := i + 1;
      if item.request.None? {
        run := next;
        continue;
      }
      ServeExtends(state.cfg, next, false, inbound[i..]);
      PrefixCloses(Sent(next.log), Sent(whole.log), room);
      var turn;
      sent, turn := AnswerMessage(state, item.oracle, item.request.value, sent, room, configuredRun);
      run := next;
      match turn {
        case Continues =>
        case Fails(status) => return sent, Err(status);
        case Closes => return sent, Ok(());
        case Halts =>
          state.ReleaseBuffers();
          return sent, Ok(());
      }
    }
    return sent, Ok(());
  }

  /** `handle_stream`: one stream from its first message to its end, on a state of its own. */
  method HandleStream(cfg: Config, inbound: seq<Inbound>, room: Option<nat>) returns (sent: seq<Reply>, result: Result<()>)
    ensures Served(Serve(cfg, Fresh(Buffered, Buffered, false), true, inbound), room, sent, result)
    ensures Orderly(sent, result)
  {
    hide Served, Serve, Orderly;
    var state := new StreamState(cfg);
    sent, result := ProcessMessages(state, inbound, room);
  }

  lemma NothingCloses(room: Option<nat>)
    ensures !ChannelCloses([], room)
  {
  }

  /** If the channel refuses a reply of a prefix, it refuses the same reply of the whole. */
  lemma PrefixCloses(some: seq<Reply>, all: seq<Reply>, room: Option<nat>)
    requires some <= all
    ensures ChannelCloses(some, room) ==> ChannelCloses(all, room) && some[..room.value] == all[..room.value]
  {
  }

  /** Serving only adds replies. */
  lemma {:induction false} ServeExtends(cfg: Config, r: Run, first: bool, inbound: seq<Inbound>)
    ensures Sent(r.log) <= Sent(Serve(cfg, r, first, inbound).log)
    decreases |inbound|
  {
    hide Step, Sent, ServeItem;
    if inbound != [] && r.status.Running? && inbound[0].Item? {
      ItemExtends(cfg, r, first, inbound[0]);
      ServeExtends(cfg, ServeItem(cfg, r, first, inbound[0]), false, inbound[1..]);
    }
  }

  lemma ItemExtends(cfg: Config, r: Run, first: bool, item: Inbound)
    requires item.Item?
    ensures Sent(r.log) <= Sent(ServeItem(cfg, r, first, item).log)
  {
    hide Step, Render, Configured, Sent;
    var next := ServeItem(cfg, r, first, item);
    if next.log != r.log {
      SentGrows(r.log, next.log[|next.log| - 1]);
    }
  }

  /** Cutting orderly replies short, quietly, leaves them orderly. */
  lemma OrderlyPrefix(sent: seq<Reply>, result: Result<()>, k: nat)
    requires Orderly(sent, result) && k <= |sent|
    ensures Orderly(sent[..k], Ok(()))
  {
    hide Count, Headed, Halting, Bodied;
    var a, b := sent[..k], sent[k..];
    assert sent == a + b;
    CountConcat(a, b, Headed(RequestSide));
    CountConcat(a, b, Headed(ResponseSide));
    CountConcat(a, b, Halting());
    FollowsPrefix(a, b, RequestSide);
    FollowsPrefix(a, b, ResponseSide);
  }

  /** Whatever arrives and whenever the channel closes. */
  lemma ServedIsOrderly(cfg: Config, inbound: seq<Inbound>, room: Option<nat>)
    ensures var run := Serve(cfg, Fresh(Buffered, Buffered, false), true, inbound);
            forall sent, result :: Served(run, room, sent, result) ==> Orderly(sent, result)
  {
    hide Step, Serve, Orderly, Sent;
    var run := Serve(cfg, Fresh(Buffered, Buffered, false), true, inbound);
    ServedRepliesAreOrderly(cfg, inbound);
    if ChannelCloses(Sent(run.log), room) {
      OrderlyPrefix(Sent(run.log), Ending(run.status), room.value);
    }
  }

  lemma FollowsPrefix(a: seq<Reply>, b: seq<Reply>, side: Side)
    requires BodiesFollowHeaders(a + b, side)
    ensures BodiesFollowHeaders(a, side)
  {
    var all := a + b;
    forall j | 0 <= j < |a| && Bodied(side)(a[j]) ensures exists i :: 0 <= i < j && Headed(side)(a[i]) {
      assert all[j] == a[j];
      var i :| 0 <= i < j && Headed(side)(all[i]);
      assert Headed(side)(a[i]);
    }
  }

  // ---------------------------------------------------------------------------
  // Every inbound stream is a run
  // ---------------------------------------------------------------------------

  /** The start that the first item configures. */
  ghost function StartOf(inbound: seq<Inbound>): Run {
    if inbound != [] && inbound[0].Item? && ConfigError(inbound[0].config, true).None?
    then Run(Configured(NewStream(Buffered, Buffered, false), inbound[0].config), Running, [], NO_CALLS)
    else Fresh(Buffered, Buffered, false)
  }

  /** An item that ends the stream by itself: a transport failure, a late configuration, or one with a mode the server does not have. */
  predicate Faulty(item: Inbound, first: bool) {
    item.TransportFailure? || (item.config.Some? && !(first && Offered(item.config.value)))
  }

  function Fault(item: Inbound, first: bool): Status {
    if item.TransportFailure? then TransportError else if first then UnsupportedBodyMode else LateProtocolConfig
  }

  /** How many items come before the first faulty one. */
  function Healthy(inbound: seq<Inbound>, first: bool): (n: nat)
    ensures n <= |inbound| && forall k :: 0 <= k < n ==> !Faulty(inbound[k], first && k == 0)
    ensures n < |inbound| ==> Faulty(inbound[n], first && n == 0)
  {
    if inbound == [] || Faulty(inbound[0], first) then 0 else 1 + Healthy(inbound[1..], false)
  }

  /** The messages of some items, in order; an item may have none. */
  function Requests(items: seq<Inbound>): seq<Event> {
    if items == [] then []
    else (if items[0].Item? && items[0].request.Some? then [Event(items[0].request.value, items[0].oracle)] else []) + Requests(items[1..])
  }

  /** A run that is still alive when a faulty item comes fails for it. */
  function CutShort(r: Run, inbound: seq<Inbound>, n: nat, first: bool): Run
    requires n <= |inbound|
  {
    if r.status.Running? && n < |inbound| then r.(status := Failed(Fault(inbound[n], first && n == 0))) else r
  }

  lemma FaultyIffRefused(item: Inbound, first: bool)
    ensures Faulty(item, first) <==> item.TransportFailure? || ConfigError(item.config, first).Some?
    ensures item.Item? && Faulty(item, first) ==> ConfigError(item.config, first) == Some(Fault(item, first))
  {
    if item.Item? && item.config.Some? {
      OfferedIsParsed(item.config.value);
    }
  }

  lemma {:induction false} RunFromFront(cfg: Config, r: Run, e: Event, events: seq<Event>)
    ensures RunFrom(cfg, r, [e] + events) == RunFrom(cfg, Advance(cfg, r, e), events)
    decreases |events|
  {
    hide Step;
    if events == [] {
      assert [e] + events == [e] && [e][..0] == [];
    } else {
      var init := events[..|events| - 1];
      assert ([e] + events)[..|events|] == [e] + init;
      RunFromFront(cfg, r, e, init);
    }
  }

  lemma {:induction false} StoppedRunStays(cfg: Config, r: Run, events: seq<Event>)
    requires !r.status.Running?
    ensures RunFrom(cfg, r, events) == r
  {
    if events != [] {
      StoppedRunStays(cfg, r, events[..|events| - 1]);
    }
  }

  lemma {:induction false} LaterItemsRun(cfg: Config, r: Run, inbound: seq<Inbound>)
    ensures var n := Healthy(inbound, false);
            Serve(cfg, r, false, inbound) == CutShort(RunFrom(cfg, r, Requests(inbound[..n])), inbound, n, false)
    decreases |inbound|
  {
    hide Step, Faulty;
    var n := Healthy(inbound, false);
    if inbound != [] {
      FaultyIffRefused(inbound[0], false);
    }
    if !r.status.Running? {
      StoppedRunStays(cfg, r, Requests(inbound[..n]));
    } else if n > 0 {
      LaterItemsRun(cfg, ServeItem(cfg, r, false, inbound[0]), inbound[1..]);
      OneItemFirst(cfg, r, inbound[..n]);
      assert inbound[..n][1..] == inbound[1..][..n - 1];
    }
  }

  /** The message of the first item, if it has one, and then those of the others. */
  lemma OneItemFirst(cfg: Config, r: Run, items: seq<Inbound>)
    requires items != [] && items[0].Item?
    ensures var after := if items[0].request.None? then r else Advance(cfg, r, Event(items[0].request.value, items[0].oracle));
            RunFrom(cfg, r, Requests(items)) == RunFrom(cfg, after, Requests(items[1..]))
  {
    hide Step, Advance, RunFrom;
    if items[0].request.Some? {
      RunFromFront(cfg, r, Event(items[0].request.value, items[0].oracle), Requests(items[1..]));
    } else {
      assert [] + Requests(items[1..]) == Requests(items[1..]);
    }
  }

  /** A fresh stream in the modes of an accepted first configuration, or BUFFERED both ways without one. */
  predicate StartsAs(r: Run, inbound: seq<Inbound>) {
    && IsFresh(r)
    && if inbound != [] && inbound[0].Item? && inbound[0].config.Some? && Offered(inbound[0].config.value)
       then RunsAs(r.st.req.mode, r.st.resp.mode, r.st.eagerBody, inbound[0].config.value)
       else r.st.req.mode.Buffered? && r.st.resp.mode.Buffered? && !r.st.eagerBody
  }

  lemma StartIsConfigured(inbound: seq<Inbound>)
    ensures StartsAs(StartOf(inbound), inbound)
  {
    if inbound != [] && inbound[0].Item? && inbound[0].config.Some? {
      OfferedIsParsed(inbound[0].config.value);
    }
  }

  /**
   Whatever arrives, the loop behaves like the run of the messages before the first faulty item,
   from a fresh stream in the configured modes; if the run is still alive then, it fails for
   exactly the fault of that item. So every theorem about runs holds of the replies the server
   sends.
   */
  lemma EveryStreamIsARun(cfg: Config, inbound: seq<Inbound>)
    ensures StartsAs(StartOf(inbound), inbound)
    ensures var n := Healthy(inbound, true);
            Serve(cfg, Fresh(Buffered, Buffered, false), true, inbound)
            == CutShort(RunFrom(cfg, StartOf(inbound), Requests(inbound[..n])), inbound, n, true)
  {
    hide Step, Faulty, StartsAs;
    StartIsConfigured(inbound);
    var n, unused := Healthy(inbound, true), Fresh(Buffered, Buffered, false);
    if inbound != [] {
      FaultyIffRefused(inbound[0], true);
    }
    if n > 0 {
      LaterItemsRun(cfg, ServeItem(cfg, unused, true, inbound[0]), inbound[1..]);
      OneItemFirst(cfg, StartOf(inbound), inbound[..n]);
      assert inbound[..n][1..] == inbound[1..][..n - 1];
    }
  }

  /** The theorems about runs, for whatever arrives on the stream. */
  lemma ServedRepliesAreOrderly(cfg: Config, inbound: seq<Inbound>)
    ensures var run := Serve(cfg, Fresh(Buffered, Buffered, false), true, inbound);
            Orderly(Sent(run.log), Ending(run.status))
  {
    hide Step, RunFrom, Serve, Count, BodiesFollowHeaders, OneContext, Sent, AllCalls;
    var start, events := StartOf(inbound), Requests(inbound[..Healthy(inbound, true)]);
    EveryStreamIsARun(cfg, inbound);
    OneHeadersReplyPerDirection(cfg, start, events, RequestSide);
    OneHeadersReplyPerDirection(cfg, start, events, ResponseSide);
    ImmediateIsSingleAndLast(cfg, start, events);
    ContextIsOneLongLivedValue(cfg, start, events);
  }
}
