# A verified model of the Praxis ExtProc stream server

Envoy opens one gRPC stream per HTTP exchange and sends headers, body and trailers messages in
two independently interleaved directions. The server answers each message with a batch of
replies: header and body mutations, nothing at all, or an immediate response that ends the
stream. This project models that server and proves what it promises, for every message
sequence, every body mode (NONE, STREAMED, BUFFERED, FULL_DUPLEX_STREAMED) and every behaviour
of the filters.

## How it is built

- `Wire` has the messages and replies as values. A `Bytes` holds one character per byte.
- `HeaderMaps`, `Chunking` model the transformers of `src/adapter.rs` and `src/response.rs`,
  together with what Envoy does with a reply: a header mutation first removes and then sets, an
  absent body mutation forwards the original chunk, a present one replaces it.
- `Filters` is the pipeline as an oracle: a hook gets the context, optional bytes and the
  end-of-stream flag and may do anything with them. Every message comes with its own oracle, so
  filters may behave differently every time. Capability flags are fixed parameters.
- `Sequencing` has the two trackers of `src/protocol.rs` as classes.
- `StreamSpec` is the specification of the stream machine: `Step` is one `dispatch_request`, and
  `RunFrom` is a whole stream. A step first plans (which phase runs, on which state), then
  executes one phase, then finishes. A run records its messages, replies and hook calls.
- `StreamStates`, `Pipeline`, `Handlers`, `Server` are the server itself, in its own imperative
  form: a mutable stream state, the phase runners, the handlers and the message loop. Every
  method is proved to produce exactly the state, replies and hook calls of its specification, so
  the run theorems are theorems about `ProcessMessages`.
- `Effects`, `Invariant`, `Steps`, `BodyFlow`, `HeaderFlow` say what one step does, once per kind
  of message. `Runs`, `Grammar`, `Conservation`, `Streaming`, `Ordering`, `Withholding`, `Limits`,
  `Redelivery`, `HeaderDelivery` and `Enforcement` prove the properties of all runs from that, and
  `Scenarios` has concrete streams.
- `Hooks`, `HookTiming`, `Rejections`, `Acknowledgement` and `Replies` say over all runs what the
  server owes the two parties it stands between: each hook is called when due and in the context
  the stream is in, its answer is obeyed, every immediate response and every failure has exactly
  one of the listed causes, trailers are acknowledged, and every reply has the form its mode
  allows.
- `Guardrails` is the response-mode selector of `src/response_mode.rs` and the admission check;
  `Quantities` is the Kubernetes quantity parser of `src/grpc_limits.rs`.

Where a property holds only under a condition, the condition is proved exact, and a concrete
stream in `Scenarios` or `Runs` shows what happens without it:

- Merging a deferred mutation with a later one is composition iff the later one removes no
  header the deferred one set (`MergeComposesIff`, `BufferedMutationReachesFinal`). In
  `DroppedHeaderSurvives` a BUFFERED response hook adds a header, the body hook drops it, and the
  reply still sets it.
- A BUFFERED response's parked mutation reaches Envoy iff a body message closes the body
  (`ParkedMutationIsCarriedIff`). In `TrailersDropTheHeader` trailers close it and no reply ever
  carries the added header.
- A closed direction has exactly one headers reply, except that a local reply in full duplex that
  trailers close before any body message has none (`OneHeadersReplyPerDirection`,
  `LocalReplyHeadersNeedABody`). `LocalReplyCanCloseWithoutHeaders` is such a stream.
- A BUFFERED request is filtered once per body message, so its end-of-stream call is made once
  per message and not once per body (`FinalBodyCallExactlyOnce`). In `TwoBuffersTwoFinalCalls`
  one body in two messages gets two.
- Every byte of a filtered STREAMED response goes through the body filters, unless the hooks stop
  asking to buffer while bytes are held and the last body message comes then
  (`EveryResponseByteIsAccounted`). In `HeldBytesAreStranded` a request hook does that and the
  held bytes are never filtered or forwarded.
- They go through in the order received iff no chunk with bytes came unbuffered while bytes were
  held (`ResponseOrderIsKeptIff`, on positions, since equal bytes cannot be told apart). In
  `HeldBytesAreReordered` one did, and Envoy forwards the second chunk before the first.
- Envoy ends up with all that STREAMED body hooks produced iff the final call made by trailers
  produced nothing (`StreamedOutputIsProducedIff`). In `TrailersDropOutput` it did, and the bytes
  are gone.
- A reject or terminal response of a filter reaches Envoy with all values of a header iff there is
  at most one, since each overwrites the one before (`ImmediateCarries`): of two `set-cookie`
  values only the last arrives.
- The route cache is cleared iff a header other than `content-length` can change or
  `content-length` is removed (`RouteCacheClearedIff`).

Where `docs/architecture.md` and the code differ, the model follows the code: body filters run at
trailers when trailers close a body (the document says trailers have no hooks); response header
filters run on arrival only in some modes (the document says always); and bodies are accumulated
only in BUFFERED and filtered full duplex (the document says always).

## Model

| member | source | states |
|---|---|---|
| Server.ProcessMessages | src/server.rs:237-286 | Whatever arrives (late or unsupported configuration, missing request field, transport failure included) and whenever the response channel closes, the replies sent are those of the specified run, cut where the channel closed, the ending is its ending, buffers are released after an immediate response; per direction at most one headers reply, before all bodies; at most one immediate response, last; never an internal error |
| Server.HandleStream | src/server.rs:211-231 | The same promises for a stream handled from start to end on a fresh state |
| Server.SendAll | src/server.rs:265-270 | Replies go out in order up to the first one the channel refuses |
| Server.AnswerMessage | src/server.rs:259-277 | One turn of the loop: dispatch, send, and stop at an immediate response, an error or a closed channel, exactly as the run does |
| Server.EveryStreamIsARun | src/server.rs:237-280 | Every inbound stream is the run of the messages before its first faulty item, from a fresh state in which each direction has the mode its wire number asks for (BUFFERED both ways without a configuration); if it is still alive then, it fails for exactly that fault: transport, late configuration or unsupported mode |
| Server.ServedRepliesAreOrderly | src/server.rs:245-277 | The ordering theorems hold of the replies of every inbound stream |
| Server.Dispatch | src/server.rs:346-365 | Body-mode check, phase tracker and handlers produce exactly the specified step: state, replies, hook calls |
| Server.ApplyProtocolConfig | src/server.rs:302-335 | Configuration is taken on the first message only; it is refused iff one of its two numbers names none of NONE 0, STREAMED 1, BUFFERED 2, FULL_DUPLEX_STREAMED 4; otherwise each direction runs in the mode of its own number; a refusal changes nothing |
| StreamStates.StreamState.constructor | src/server.rs:615-653 | A new stream has a full context slot and is BUFFERED both ways |
| StreamStates.StreamState.Hydrate | src/server.rs:491-508 | Empties the slot into a fresh context, all eight fields; an empty slot is an error |
| StreamStates.StreamState.Dehydrate | src/server.rs:519-536 | Refills an empty slot with all eight fields; a full one is an error and is kept |
| StreamStates.StreamState.TakeFirstChunk | src/server.rs:395-406 | True exactly on the first call per direction |
| StreamStates.StreamState.ReleaseBuffers | src/server.rs:285-290 | Both bodies and the byte counter are cleared, nothing else changes |
| Filters.ParkingIsLossless | src/server.rs:491-536 | Parking and rebuilding the context gives back the same long-lived fields, in any phase |
| Runs.ContextIsOneLongLivedValue | src/pipeline.rs:76-122 | Rebuilding the context per phase refines one long-lived context: in every run each hook of either direction starts from exactly the fields the previous one left; the slot is full at every message boundary; missing-context, context-present and missing-headers errors are unreachable |
| Runs.LiveRunsKeepInv | src/server.rs:555-613 | Every live stream satisfies the state invariant that ties flags, buffers and trackers together |
| Steps.StepIsGood | src/server.rs:346-365 | One step, any message, any filters: no internal error, context threaded, hooks of the right direction in order, header hook at most once, and if it proceeds the invariant, headers-reply order, hook records and modes are kept |
| Runs.OneHeadersReplyPerDirection | src/handlers.rs:257-302 | At most one headers reply per direction, before every body reply; exactly one once a direction without local reply has closed by headers, body or trailers, in all modes, for all capabilities |
| Conservation.LocalReplyHeadersNeedABody | src/handlers.rs:69-112 | A full-duplex local reply opened without end of stream has its headers reply iff a body message arrived |
| Runs.LocalReplyCanCloseWithoutHeaders | src/handlers.rs:48-61 | Concrete run: local reply headers then trailers in full duplex close the direction with no headers reply |
| Runs.ImmediateIsSingleAndLast | src/handlers.rs:555-571 | At most one immediate response per run, and it is the last reply, trailers included |
| Runs.ModesAgreeWithOverridesSent | src/handlers.rs:206-238 | The request mode never changes; the response mode is the configured one updated by the overrides actually sent, which only ask for STREAMED and ride on request-headers replies |
| Enforcement.NoGuardrailIsBypassed | src/handlers.rs:156-203 | While a stream lives its selection headers are unambiguous; if an override asked to stream the response, no response-phase guardrail can fire on the request; in full duplex none can fire at all |
| Enforcement.LiveRequestsAreCleared | src/handlers.rs:206-238 | In a live run an override was sent iff it was due: neither mode full duplex, the response not NONE, bodies not eager, no filter that needs the whole response, and the selector streams the request; the admitted request never changes |
| Enforcement.RequestHeadersAreCleared | src/handlers.rs:206-238 | On the step itself: request headers that the stream survives are answered with an override iff it is due; outside full duplex there is always a headers reply to carry it |
| Enforcement.OverrideIsSentIffDue | src/handlers.rs:231-234 | In every live run the override is sent iff due, and the response mode is STREAMED then and the configured one otherwise |
| Enforcement.ResponseIsStreamedIffUnguarded | src/response_mode.rs:106-131 | On a valid configuration with admitted names the response of a live request is streamed by override iff the modes can be overridden and no response-phase guardrail can fire |
| Hooks.FiltersAreHeeded | src/pipeline.rs:76-122 | Every hook call of every exchange, and of the step that failed: the first gets the fields the last hook of the stream left, the request headers as received, on the response side the response headers as received or as the last response hook left them, and no edits; each later one gets what the one before left; the record is what the filter answered; the selected-upstream hook gets what the ordinary body hook left, or nothing for a request without a body; only the last call may not proceed, and it decides the step |
| Hooks.StepHeeds | src/pipeline.rs:619-722 | The same for one step of a live stream, with the headers the step keeps |
| Hooks.VerdictsAreObeyed | src/pipeline.rs:707-722 | Over every run: a hook that asks for an immediate response ends the stream with exactly that response as its last reply; a hook that fails ends it with an internal status |
| HookTiming.HooksRunWhenDue | src/handlers.rs:241-322 | A message that the stream survives runs the header hook iff it is headers filtered on arrival, or the first final body call of headers that were not; it runs the selected-upstream hook iff it completes the request or is a BUFFERED body |
| Rejections.ImmediatesHaveACause | src/handlers.rs:382-428 | Every immediate response was asked for by a hook or is the server's own rejection for the one cause that is due: ambiguous selection 400, guardrails or selected-upstream hooks in full duplex 500, selected-upstream hooks outside BUFFERED 500, oversized request 413, selected-upstream input or output over its limit 413, bytes for a headers-only request 500, buffering in NONE mode 502, pending bytes at trailers 502; without a cause the message is answered |
| Rejections.StepRejects | src/pipeline.rs:125-135 | The same iff on one step whose hooks all proceeded |
| Rejections.FailuresHaveACause | src/server.rs:346-365 | A message the grammar forbids fails with the status it gives; any other fails only because a hook failed or a response body outgrew its ceiling |
| Replies.AnswersFitTheirMode | src/response.rs:273-339 | Over every run: headers replies carry no body; body replies use the streamed format iff the direction is full duplex, and carry header mutations only in BUFFERED mode |
| Replies.RouteCacheFollowsMutations | src/response.rs:85-96 | Over every reply sent: the route cache is cleared iff it answers a request and its mutation can change a header other than `content-length` or removes that one |
| Acknowledgement.TrailersAreAcknowledged | src/handlers.rs:555-571 | Over every run, mode and capability: as many trailers replies per direction as trailers messages, less one if an immediate response answered the last of them; each is the last reply to its message, and no other message gets one |
| Acknowledgement.StepAcknowledges | src/handlers.rs:562-569 | A step that proceeds acknowledges trailers iff its message is trailers, local replies included |
| Conservation.LocalRepliesAreUntouched | src/handlers.rs:48-112 | A local reply of Envoy: no hook sees it, no header of it changes, every body passes as it is |
| Runs.HeaderHooksRunOnce | src/pipeline.rs:138-152 | `on_request` and `on_response` run at most once per stream, failing calls included |
| Runs.FinalBodyCallExactlyOnce | src/pipeline.rs:732-751 | A filtered body that is closed got exactly one end-of-stream call, whether a body message or trailers closed it; a BUFFERED request got one per body message |
| Scenarios.TwoBuffersTwoFinalCalls | src/handlers.rs:441-445 | Concrete stream: a BUFFERED request body in two messages gets two end-of-stream calls |
| Grammar.AcceptsExactlyTheGrammar | src/protocol.rs:135-194 | A live stream refuses the next message for sequencing exactly when the grammar forbids it after the messages accepted so far, and with the status the grammar gives; it is a local reply exactly when a response opened it |
| Grammar.StreamsAcceptExactlyTheLanguage | src/protocol.rs:135-194 | Whole sequences: a live run received, per direction, headers, bodies, at most one trailers, within its mode and with no request behind a local reply; and such a sequence is never refused for its order, so only a filter, a limit or a handler can stop it |
| Grammar.WellFormedGrows | src/protocol.rs:276-303 | A sequence is in that language iff each message is allowed after the ones before it |
| Grammar.HistoryIsRemembered | src/protocol.rs:113-122 | The trackers record exactly what the grammar asks: seen, ended by headers, ended by body, trailers |
| Grammar.StepVerdict | src/server.rs:351-355 | A step fails for sequencing iff one of the checks refuses the message, with the status of the first that does, whatever the filters do |
| Sequencing.PhaseOrderTracker.CheckAndAdvance | src/protocol.rs:135-166 | Verdict and new position; a rejected message leaves the tracker unchanged |
| Sequencing.EosTracker.CheckAndMark | src/protocol.rs:276-303 | State on entry; only a first delivery with end of stream completes its phase, and no other phase changes |
| Sequencing.EosTracker.MarkComplete | src/protocol.rs:309-316 | Exactly one phase becomes complete |
| Conservation.FullDuplexConservesBytes | src/pipeline.rs:321-392 | For every cut of a body into full-duplex messages: unfiltered, the chunks sent concatenate to the bytes received; filtered, nothing goes out until the body closes, then the chunks concatenate to the output of the one final call, which was given exactly the bytes received; every chunk is at most 63,488 bytes; the end is marked on exactly the last chunk iff a body message carried it |
| Chunking.BodyResponsesStreamed | src/response.rs:314-339 | The offset loop computes the chunk sequence |
| Chunking.ChunksConserveBody | src/response.rs:314-339 | The chunks concatenate to the body; all but the last have exactly 63,488 bytes and the last no more; the mutation rides on the first only and the end on the last only |
| Chunking.StreamedReplyForwards | src/response.rs:273-297 | Outside full duplex one reply makes Envoy forward the given data, or the original if none is given |
| Streaming.StreamedRepliesRefineFilters | src/pipeline.rs:444-521 | For every STREAMED chunk of either direction: without body filters Envoy forwards the chunk; with them the body hook is called iff there is something to give it or the stream ends, it is given the chunk, or while the hooks ask to buffer nothing until the end and then all that was held and the chunk, and Envoy forwards its output, nothing if it was not called; the buffer holds exactly the chunks held back |
| Streaming.EveryResponseByteIsAccounted | src/pipeline.rs:395-415 | Whatever hooks of either direction ask for and however often they change it, bytes given to the response body filters and bytes held are together the bytes received; once the body is closed every byte was filtered iff the last body message did not come unbuffered while bytes were held |
| Ordering.ResponseOrderIsKeptIff | src/pipeline.rs:395-415 | By position: every received byte was given to the filters or is held, exactly once; given then held bytes are the received ones in order iff no chunk with bytes came unbuffered while bytes were held |
| Ordering.InPlaceIffInOrder | src/pipeline.rs:402-413 | The same equivalence on the positions of any log |
| Scenarios.HeldBytesAreReordered | src/pipeline.rs:402-413 | Concrete stream: a chunk overtakes held bytes, so filters get and Envoy forwards them in the wrong order although none is missing |
| Streaming.StreamedOutputIsProducedIff | src/pipeline.rs:892-911 | Over a whole STREAMED body Envoy ends up with the bytes it sent if unfiltered, else with all that the body hooks produced iff the final call made by trailers produced nothing, and otherwise with all but that |
| Scenarios.TrailersDropOutput | src/pipeline.rs:850-884 | Concrete stream: the final call made by trailers produces bytes that Envoy never sees |
| Scenarios.HeldBytesAreStranded | src/pipeline.rs:402-404 | Concrete stream: a request hook stops the buffering, the last chunk is filtered alone and the held bytes never are |
| Withholding.NothingIsVisibleBeforeTheEnd | src/pipeline.rs:395-415 | While the hooks keep asking to buffer a STREAMED response: no byte is visible before the end, the held bytes are the ones received and fit both ceilings, no body hook runs; the end gives one call on the exact concatenation and its output is what becomes visible; trailers close only if nothing was held |
| Withholding.TrailersRejectPendingBytes | src/pipeline.rs:850-861 | Trailers with withheld bytes pending are always answered with the 502 rejection, and no hook is called |
| Limits.SizeVerdictIgnoresChunking | src/handlers.rs:715-723 | For a ceiling below the largest machine word, the step of a body message is the size refusal with no hook called iff the bytes received so far and its own exceed the ceiling, however they were cut; everything before was within it; a refusal leaves counter and buffer unchanged. A BUFFERED request is weighed by what the filters left of the earlier messages |
| Limits.StepSizeVerdict | src/handlers.rs:369-379 | On any live state the step is refused for size iff counter or buffer and the chunk exceed the ceiling under saturating addition |
| Limits.HoldingVerdictIgnoresChunking | src/pipeline.rs:395-415 | A chunk of a filtered STREAMED response is refused for size iff the hooks ask to buffer and the held bytes and its own exceed their ceiling or the server's; the held bytes stay as they were |
| Limits.TalliesAreExact | src/handlers.rs:369-379 | Counter and accumulating buffers equal the bytes received, saturation included; the buffer of a BUFFERED request equals the last output of its filters |
| Redelivery.RedeliveryIsStuttering | src/handlers.rs:124-138 | Dropping every body message repeated after the end in full duplex gives the same state, status, replies and hook calls, local replies included |
| Redelivery.InsertedRepeatsChangeNothing | src/handlers.rs:325-342 | Inserting any number of repeated bodies at any point after the end changes nothing |
| Redelivery.RepeatedBodyIsIgnored | src/handlers.rs:97-112 | A repeated full-duplex body leaves the stream as it is and is not answered |
| HeaderDelivery.MutationIsParkedOrSent | src/pipeline.rs:588-615 | What an early header hook asked for is in exactly one place: in the one headers reply, or parked while full duplex has not sent it, or parked until a BUFFERED response closes |
| HeaderDelivery.HeadersOnlyAreDelivered | src/pipeline.rs:155-267 | Headers that end the stream get one headers reply and no body reply; whatever headers Envoy holds, a request ends up edited as the last hook asked, and a response with the headers the last hook left |
| HeaderDelivery.BufferedResponseDeliversAtEnd | src/pipeline.rs:248-267 | The reply that ends a BUFFERED response carries the parked mutation merged with the body hook's, over the headers as received, with the length corrected |
| HeaderDelivery.BufferedMutationReachesFinal | src/pipeline.rs:931-941 | That mutation takes the received headers to the final ones iff the body hook dropped nothing the header hook had changed; for a resized body, to the final ones with the corrected length iff the same holds of every header but `content-length` |
| HeaderDelivery.ParkedMutationIsCarriedIff | src/handlers.rs:577-604 | When a live BUFFERED response with a parked mutation is closed, the mutation leaves the state, and the reply includes all it asked for iff a body message closed it; with trailers the reply is the bare acknowledgement |
| HeaderDelivery.BufferedTrailersCarryNothing | src/handlers.rs:595-601 | Trailers of a BUFFERED direction in any live state are only acknowledged |
| Scenarios.TrailersDropTheHeader | src/handlers.rs:687-696 | Concrete stream: the response hook adds a header, trailers close the BUFFERED body, and no reply ever mutates a header |
| Scenarios.DroppedHeaderSurvives | src/pipeline.rs:931-941 | Concrete stream: the body hook drops the header the response hook added, and the merged mutation still sets it |
| HeaderDelivery.ReleasedBodyIsReceived | src/handlers.rs:431-446 | The final call of a held body is given exactly the bytes received |
| HeaderDelivery.ReleasedBodyDeclaresItsLength | src/pipeline.rs:256-313 | If Envoy's headers declare the body it sent and filters leave `content-length` alone, then after the released mutation they declare exactly the bytes of the BUFFERED body or of all full-duplex chunks; other headers are as the filters wanted; a resized body has exactly one length entry and the others keep their order |
| HeaderDelivery.PassthroughKeepsDeclaredLength | src/pipeline.rs:369-392 | Unfiltered full duplex: headers that declared the bytes received declare the bytes sent |
| HeaderMaps.DiffIsExact | src/adapter.rs:255-300 | The diff takes the original headers to the current ones, value order kept, whichever half is applied first; it is absent iff nothing changed and mentions exactly the changed and dropped names |
| HeaderMaps.MergeComposesIff | src/pipeline.rs:931-941 | Concatenating two mutations is composing them iff the later removes no name the earlier sets |
| HeaderMaps.MergedDiffsReachFinal | src/pipeline.rs:931-941 | Merged diffs of two phases reach the final headers iff no header changed early is dropped late |
| HeaderMaps.MergedDiffsReachFinalAt | src/pipeline.rs:931-941 | The same, name by name |
| HeaderMaps.MergeCanResurrect | src/pipeline.rs:931-941 | Concrete headers for which the merged mutation keeps a header that was removed |
| HeaderMaps.SetContentLength | src/adapter.rs:500-511 | The retain-and-push loop leaves the other entries in order and one length entry |
| HeaderMaps.DeclaredLengthIsEmittedLength | src/pipeline.rs:304-313 | The corrected mutation declares exactly the emitted size and does otherwise what the filters asked |
| HeaderMaps.DecimalRoundTrip | src/adapter.rs:500-511 | Decimal text of a length reads back as that length |
| HeaderMaps.RouteCacheClearedIff | src/response.rs:257-266 | A mutation changes no header but `content-length`, whatever Envoy holds, iff it names no other; the route cache is cleared iff another header can change or `content-length` is removed |
| HeaderMaps.ConversionKeepsValues | src/adapter.rs:382-402 | Converting response headers keeps every value of every name in order |
| Filters.RequestEditsTakeEffect | src/adapter.rs:204-241 | The request mutation does to every header what the edits mean: a rewritten path wins, then the last value set, then removal followed by additions in order; it is absent iff there are no edits |
| Filters.SetValueArrives | src/adapter.rs:220-224 | The value set last for a header is what Envoy then holds, if it is tabs and visible ASCII; any other value arrives empty |
| Filters.ImmediateCarries | src/adapter.rs:314-366 | An immediate response has the status and body text the filter gave; of a header given several times only the last value arrives, so all values arrive iff there is at most one |
| Pipeline.RunRequestPipeline | src/pipeline.rs:76-122 | Hydrate, header hook if not yet run, limit check, body hooks, capture and answer: exactly the specified phase, every early exit included |
| Pipeline.RunRequestBodyHooks | src/pipeline.rs:732-751 | Selected-upstream input limit, ordinary then selected-upstream hooks, stopping at the first that does not proceed |
| Pipeline.RunSelectedFilters | src/pipeline.rs:782-812 | Selected-upstream hook with the writer's output ceiling |
| Pipeline.BuildRequestReplies | src/pipeline.rs:155-194 | A headers-only request gets one headers reply or, if filters produced bytes, a rejection |
| Pipeline.RunResponsePipeline | src/pipeline.rs:210-267 | The full response phase, response headers and deferred mutation consumed |
| Pipeline.RunResponseHooks | src/pipeline.rs:272-295 | Early header filters are not run again over a body |
| Pipeline.BuildForPhase | src/pipeline.rs:321-360 | In full duplex the headers reply goes first and takes the mutation |
| Pipeline.CorrectLength | src/pipeline.rs:304-313 | The length entry is set iff the size changed |
| Pipeline.RunRequestHeadersEarly | src/pipeline.rs:619-640 | Early request headers with each delivery strategy |
| Pipeline.RunResponseHeadersEarly | src/pipeline.rs:643-680 | Early response headers; buffering in NONE mode is refused |
| Pipeline.DeliverMutation | src/pipeline.rs:588-615 | Sent now, or parked with or without an empty reply |
| Pipeline.RunBodyFilters | src/pipeline.rs:754-775 | The buffer is taken and refilled with what the filters leave; an empty chunk that is not final is skipped |
| Pipeline.PassthroughChunk | src/pipeline.rs:369-392 | The first chunk carries the deferred headers reply |
| Pipeline.BufferResponseChunk | src/pipeline.rs:395-415 | Both ceilings are checked before anything is held; at the end the whole body is handed out |
| Pipeline.ProcessStreamedChunk | src/pipeline.rs:444-521 | One STREAMED chunk in either direction, a cleared chunk staying an explicit empty replacement |
| Pipeline.DeferredHeadersReply | src/pipeline.rs:422-433 | The parked mutation leaves the state with the reply |
| Pipeline.FlushStreamedFilters | src/pipeline.rs:850-884 | The final call without data; pending bytes are refused |
| Handlers.HandleRequestHeaders | src/handlers.rs:156-203 | Admission, full-duplex guardrail refusal, routing by mode and the response-mode override |
| Handlers.HandleRequestHeadersWithBody | src/handlers.rs:257-322 | Routing by mode; selected-upstream hooks outside BUFFERED are refused after the header filters |
| Handlers.ApplyModeOverride | src/handlers.rs:206-238 | The loop marks exactly the request-headers reply, and the mode changes iff there is one |
| Handlers.HandleRequestBody | src/handlers.rs:325-364 | Redelivery, byte counting, passthrough, streamed filtering or accumulation |
| Handlers.CountStreamedRequest | src/handlers.rs:369-379 | The counter moves only when the chunk fits |
| Handlers.AccumulateRequestBody | src/handlers.rs:431-446 | BUFFERED runs on every message, full duplex at the end; an oversized chunk changes nothing |
| Handlers.HandleResponseHeaders | src/handlers.rs:469-502 | Response headers by mode and body needs |
| Handlers.HandleResponseBody | src/handlers.rs:505-531 | Response bodies by mode and body needs |
| Handlers.AccumulateResponseBody | src/handlers.rs:534-547 | Chunks are held until the end; an oversized chunk is an error that changes nothing |
| Handlers.HeadersFromEnvoy | src/adapter.rs:382-402 | The conversion loop builds the header map |
| Handlers.HandleTrailers | src/handlers.rs:555-571 | The acknowledgement follows unless the last reply is an immediate response |
| Handlers.FinalizeBodyOnTrailers | src/handlers.rs:577-604 | Held-back work is released by mode when trailers close the body |
| Handlers.RunTrailingDuplexBody | src/handlers.rs:612-632 | An empty body that never had a message is not streamed |
| Handlers.KeepImmediates | src/handlers.rs:687-696 | Filtering a batch for immediate responses keeps a rejection and nothing else |
| Handlers.FlushDeferredHeaders | src/handlers.rs:652-658 | The deferred headers reply is sent once |
| Handlers.LocalReplyPassthrough | src/handlers.rs:48-112 | A local reply is acknowledged without filters under the same end-of-stream rules |
| Handlers.BodyRedelivery | src/handlers.rs:124-138 | A verdict iff the phase was complete: ignored in full duplex, refused otherwise |
| Guardrails.FromConfig | src/response_mode.rs:45-98 | The loop with early exit collects exactly what the entries say, whatever their order |
| Guardrails.AddEntry | src/response_mode.rs:51-84 | One turn of the loop reports an entry iff it is unsupported, and otherwise adds exactly its share |
| Guardrails.RejectAmbiguous | src/handlers.rs:382-409 | Rejects iff some selection header is repeated or not a plain boolean |
| Guardrails.PhasesMean | src/response_mode.rs:155-168 | A guardrail is in the request phase unless switched off and in the response phase only if switched on; a key that is no boolean makes it unsupported |
| Guardrails.SelectedHeaderIs | src/response_mode.rs:170-193 | The supported condition is exactly one `when` on one guardrail header with the value `true`, name folded |
| Guardrails.SelectionHeadersAre | src/handlers.rs:404-409 | The names under admission are the two phase selectors and identifiers of 64 hexadecimal digits |
| Guardrails.AdmittedMeans | src/handlers.rs:382-401 | Admitted iff every header with a selection name is `true` or `false` and alone under its folded name |
| Guardrails.SelectorIsSound | src/response_mode.rs:106-131 | For any configuration and headers, streaming implies no response-phase guardrail can fire, and no selected guardrail implies none can |
| Guardrails.SelectorIsExact | src/response_mode.rs:106-131 | On admitted headers and valid configurations with admitted names, both verdicts are equivalences |
| Guardrails.SelectorIgnoresOrder | src/response_mode.rs:45-98 | Verdicts do not depend on entry order or chain split |
| Guardrails.NoticedIffTrue | src/response_mode.rs:196-202 | On admitted headers a selection is noticed iff its value is exactly `true` |
| Guardrails.TrueIsNoticed | src/response_mode.rs:196-202 | A header the filters read as `true` is always noticed, repeated or raw values included |
| Quantities.ParseNumber | src/grpc_limits.rs:131-188 | A digit string I.F yields the ceiling of (I + F/10^k) times the multiplier; it fails exactly when malformed, zero, over a u128 intermediate or over the machine word |
| Quantities.ParseQuantity | src/grpc_limits.rs:115-127 | The suffix scan gives that value for the one suffix that matches, and an error if none does |
| Quantities.Resolve | src/grpc_limits.rs:80-93 | Default when absent or blank, plain integers before quantities, the result always positive and within a machine word; surrounding Unicode white space does not matter |
| Quantities.FractionalDigits | src/grpc_limits.rs:162-173 | The loop computes scale and value exactly, and overflows iff there are more than 38 digits |
| Quantities.ScaleAndCeilIsExact | src/grpc_limits.rs:176-188 | Exact ceiling or overflow of the product; the last addition never fails |
| Quantities.CeilingIsLeast | src/grpc_limits.rs:176-188 | The ceiling is the least whole number of bytes that suffices |
| Quantities.SuffixIsUnique | src/grpc_limits.rs:47-55 | At most one suffix matches any string |
| Quantities.ScaleFitsIff | src/grpc_limits.rs:162-173 | A power of ten fits a u128 iff its exponent is at most 38 |
| Quantities.DecimalSizeRoundTrips | src/grpc_limits.rs:100-108 | Printing any positive machine word in decimal reads back as itself |

## Left out

- Body text of a filter's immediate response: taken as text; replacing bytes that are no UTF-8 is not modelled.
- Filters and the pipeline that runs them: an arbitrary oracle with fixed capability flags; logging, counters and metrics are not modelled.
- Request conversion (method, URI, host, client address): the model keeps the received header list as the request; the response status code is not kept either.
- HTTP field syntax: header names and values are taken as valid, so the conversion drops none.
- gRPC transport, force-shutdown and drain: not modelled; the response channel is a number of replies it takes before it closes.
- TLS, health, metrics and token-review servers, FIPS status, build tooling: not modelled.
- YAML configuration: the selector starts from parsed filter entries, the server from the resulting limit.
- Texts of the server's own error replies and gRPC messages: one constructor each, not the wording.
- Processing-mode override: the header send modes it also carries are constant and not modelled.
- Handlers.HeadersFromEnvoy: does not keep the response status code, which no reply depends on, and drops no header, because field syntax is not modelled.
