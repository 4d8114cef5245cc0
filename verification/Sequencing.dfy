/**
 Message sequencing: the per-direction phase order and the end-of-stream lifecycle
 (`src/protocol.rs`).
 */
module Sequencing {
  import opened Wire

  datatype PhaseStep = HeadersStep | BodyStep | TrailersStep

  datatype PhaseState = Active | Completed

  /** The four phases whose end of stream is tracked. */
  datatype ProtocolPhase = HeadersOf(side: Side) | BodyOf(side: Side)

  function StepOf(m: Message): PhaseStep {
    match m
    case Headers(_, _, _) => HeadersStep
    case Body(_, _, _) => BodyStep
    case Trailers(_) => TrailersStep
  }

  function Rank(step: PhaseStep): nat {
    match step
    case HeadersStep => 0
    case BodyStep => 1
    case TrailersStep => 2
  }

  /** A direction opens with headers, never goes back, and repeats only bodies. */
  predicate InvalidTransition(current: Option<PhaseStep>, step: PhaseStep) {
    match current
    case None => step != HeadersStep
    case Some(prev) => Rank(step) < Rank(prev) || (step == prev && step != BodyStep)
  }

  /** `validate_body_message`: no body message in NONE mode. */
  function ValidateBodyMessage(m: Message, requestMode: BodyMode, responseMode: BodyMode): Result<()> {
    if m.Body? && (if m.side.RequestSide? then requestMode else responseMode).NoBody? then Err(BodyInNoneMode)
    else Ok(())
  }

  /** `PhaseOrderTracker`. */
  class PhaseOrderTracker {
    var request: Option<PhaseStep>
    var response: Option<PhaseStep>
    var localReply: bool

    constructor ()
      ensures request == None && response == None && !localReply
    {
      request, response, localReply := None, None, false;
    }

    function Furthest(side: Side): Option<PhaseStep>
      reads this
    {
      if side.RequestSide? then request else response
    }

    /** Validate a message's position and advance; a rejection leaves the tracker as it was. */
    method CheckAndAdvance(m: Message) returns (r: Result<()>)
      modifies this
      ensures r == if m.side.RequestSide? && old(localReply) then Err(RequestAfterLocalReply)
                   else if InvalidTransition(old(Furthest(m.side)), StepOf(m)) then Err(OutOfOrder)
                   else Ok(())
      ensures r.Err? ==> unchanged(this)
      ensures r.Ok? ==>
                && request == (if m.side.RequestSide? then Some(StepOf(m)) else old(request))
                && response == (if m.side.ResponseSide? then Some(StepOf(m)) else old(response))
                && localReply == (old(localReply) || (m.side.ResponseSide? && old(request).None?))
    {
      var step := StepOf(m);
      if m.side.RequestSide? && localReply {
        return Err(RequestAfterLocalReply);
      }
      var opensLocalReply := m.side.ResponseSide? && request.None?;
      var current := if m.side.RequestSide? then request else response;
      var invalid := match current {
        case None => step != HeadersStep
        case Some(prev) => Rank(step) < Rank(prev) || (step == prev && step != BodyStep)
      };
      if invalid {
        return Err(OutOfOrder);
      }
      if m.side.RequestSide? {
        request := Some(step);
      } else {
        response := Some(step);
      }
      localReply := localReply || opensLocalReply;
      return Ok(());
    }
  }

  /** `EosTracker`. */
  class EosTracker {
    var requestHeaders: PhaseState
    var requestBody: PhaseState
    var responseHeaders: PhaseState
    var responseBody: PhaseState

    constructor ()
      ensures forall phase :: State(phase) == Active
    {
      requestHeaders, requestBody, responseHeaders, responseBody := Active, Active, Active, Active;
    }

    function State(phase: ProtocolPhase): PhaseState
      reads this
    {
      match phase
      case HeadersOf(RequestSide) => requestHeaders
      case BodyOf(RequestSide) => requestBody
      case HeadersOf(ResponseSide) => responseHeaders
      case BodyOf(ResponseSide) => responseBody
    }

    /** Whether a body phase is entered although its headers already ended the stream. */
    predicate BodyAfterHeadersEnd(phase: ProtocolPhase)
      reads this
    {
      phase.BodyOf? && State(HeadersOf(phase.side)).Completed?
    }

    /** The state on entry; the phase completes only on a first delivery that ends the stream. */
    method CheckAndMark(phase: ProtocolPhase, receivedEos: bool) returns (r: Result<PhaseState>)
      modifies this
      ensures r == if old(State(phase)).Completed? then Ok(Completed)
                   else if old(BodyAfterHeadersEnd(phase)) then Err(BodyAfterHeadersEos)
                   else Ok(Active)
      ensures forall p :: State(p) == if r == Ok(Active) && receivedEos && p == phase then Completed else old(State(p))
    {
      var entry := State(phase);
      if entry.Completed? {
        return Ok(Completed);
      }
      var headersCompleted := match phase {
        case BodyOf(RequestSide) => requestHeaders.Completed?
        case BodyOf(ResponseSide) => responseHeaders.Completed?
        case HeadersOf(_) => false
      };
      if headersCompleted {
        return Err(BodyAfterHeadersEos);
      }
      if receivedEos {
        MarkComplete(phase);
      }
      return Ok(Active);
    }

    /** Force a phase to completion, as trailers do. */
    method MarkComplete(phase: ProtocolPhase)
      modifies this
      ensures forall p :: State(p) == if p == phase then Completed else old(State(p))
    {
      match phase
      case HeadersOf(RequestSide) => requestHeaders := Completed;
      case BodyOf(RequestSide) => requestBody := Completed;
      case HeadersOf(ResponseSide) => responseHeaders := Completed;
      case BodyOf(ResponseSide) => responseBody := Completed;
    }
  }
}
