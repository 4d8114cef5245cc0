/**
 The filter pipeline as an oracle, the per-phase filter context, and the state that crosses
 phase boundaries (`HydratedContext` of `src/server.rs`, the hook runners of `src/pipeline.rs`).
 */
module Filters {
  import opened Wire
  import opened HeaderMaps

  /** Buffering a filter may request for the response body. */
  datatype FilterBodyMode = Stream | StreamBuffer(maxBytes: Option<nat>)

  /** Capabilities of a pipeline, fixed when it is built. */
  datatype Capabilities = Capabilities(
    needsRequestBody: bool,
    needsResponseBody: bool,
    needsSelectedBody: bool,
    selectedWriter: bool,
    selectedLimit: nat,
    responseBodyMode: FilterBodyMode)

  /** Typed per-filter state; the server only moves it. */
  datatype Opaque = Opaque(id: int)

  /** The context fields that live for the whole stream. */
  datatype Shared = Shared(
    cluster: Option<Bytes>,
    branchIterations: map<Bytes, nat>,
    executedFilters: seq<bool>,
    metadata: map<Bytes, Bytes>,
    filterState: map<nat, Opaque>,
    responseBodyMode: FilterBodyMode,
    requestBodyBytes: nat,
    responseBodyBytes: nat)

  /** The same fields parked between phases; no mode is recorded until a first capture. */
  datatype Carried = Carried(
    cluster: Option<Bytes>,
    branchIterations: map<Bytes, nat>,
    executedFilters: seq<bool>,
    metadata: map<Bytes, Bytes>,
    filterState: map<nat, Opaque>,
    responseBodyMode: Option<FilterBodyMode>,
    requestBodyBytes: nat,
    responseBodyBytes: nat)

  /** Request header edits a filter asks for. */
  datatype Edits = Edits(
    extra: seq<(Bytes, Bytes)>,
    sets: seq<(Bytes, Bytes)>,
    removes: seq<Bytes>,
    path: Option<Bytes>)

  const NO_EDITS := Edits([], [], [], None)

  /** What a hook may see and change during one phase. */
  datatype Context = Context(
    shared: Shared,
    request: seq<HeaderValue>,
    response: Option<HeaderMap>,
    edits: Edits)

  const FRESH := Shared(None, map[], [], map[], map[], Stream, 0, 0)

  const NOTHING_CARRIED := Carried(None, map[], [], map[], map[], None, 0, 0)

  /** `build_filter_context`, with the response attached in response phases. */
  function FreshContext(request: seq<HeaderValue>, response: Option<HeaderMap>): Context {
    Context(FRESH, request, response, NO_EDITS)
  }

  /** `HydratedContext::hydrate` on a present slot. */
  function Hydrate(carried: Carried, ctx: Context): Context {
    ctx.(shared := Shared(
      carried.cluster, carried.branchIterations, carried.executedFilters, carried.metadata, carried.filterState,
      if carried.responseBodyMode.Some? then carried.responseBodyMode.value else ctx.shared.responseBodyMode,
      carried.requestBodyBytes, carried.responseBodyBytes))
  }

  /** `HydratedContext::dehydrate` into an empty slot. */
  function Dehydrate(ctx: Context): Carried {
    var s := ctx.shared;
    Carried(s.cluster, s.branchIterations, s.executedFilters, s.metadata, s.filterState,
            Some(s.responseBodyMode), s.requestBodyBytes, s.responseBodyBytes)
  }

  /** The long-lived fields a parked value stands for. */
  function Parked(carried: Carried): Shared {
    Hydrate(carried, FreshContext([], None)).shared
  }

  /** Parking and unparking lose nothing, and do not depend on the phase that rebuilds the context. */
  lemma ParkingIsLossless(ctx: Context, carried: Carried, request: seq<HeaderValue>, response: Option<HeaderMap>)
    ensures Parked(Dehydrate(ctx)) == ctx.shared
    ensures Hydrate(carried, FreshContext(request, response)) == Context(Parked(carried), request, response, NO_EDITS)
    ensures Parked(NOTHING_CARRIED) == FRESH
  {
  }

  // ---------------------------------------------------------------------------
  // Hooks
  // ---------------------------------------------------------------------------

  datatype HookKind = OnRequest | OnResponse | OnRequestBody | OnResponseBody | OnSelectedBody

  /** A reject or a terminal response short-circuits; every other action proceeds. */
  datatype Action = Proceed | ShortCircuit(status: int, headers: seq<(Bytes, Bytes)>, body: Bytes)

  /** `immediate_response`: every header of a reject or terminal response overwrites. */
  function ImmediateOf(status: int, headers: seq<(Bytes, Bytes)>, body: Bytes): ImmediateResponse {
    ImmediateResponse(status, if headers == [] then None else Some(HeaderMutation(Replacing(headers), [])), Supplied(body))
  }

  function Replacing(headers: seq<(Bytes, Bytes)>): seq<HeaderOption> {
    seq(|headers|, i requires 0 <= i < |headers| => HeaderOption(headers[i].0, headers[i].1, OverwriteIfExistsOrAdd))
  }

  /** A hook fails, or returns the context fields it may change, the body and an action. */
  datatype HookReply =
    | Raised
    | Returned(shared: Shared, headers: HeaderMap, edits: Edits, body: Option<Bytes>, action: Action)

  /** Arbitrary filter behaviour; a fresh oracle comes with every message. */
  type Oracle = (HookKind, Context, Option<Bytes>, bool) -> HookReply

  datatype Verdict = Go | Stop(immediate: ImmediateResponse) | Broken

  /** Record of one hook call: what it was given and what it left behind. */
  datatype Call = Call(
    kind: HookKind,
    before: Context,
    data: Option<Bytes>,
    eos: bool,
    after: Context,
    produced: Bytes,
    verdict: Verdict)

  /** Hook calls of one message, in order: at most one header, one body and one selected-upstream hook. */
  datatype Calls = Calls(header: Option<Call>, body: Option<Call>, selected: Option<Call>)

  const NO_CALLS := Calls(None, None, None)

  /** Progress of a phase through its hooks: context, body buffer, verdict and calls so far. */
  datatype Stage = Stage(ctx: Context, body: Bytes, verdict: Verdict, calls: Calls)

  /** Call one hook. The request is shared, and only a phase that has response headers changes them. */
  function Invoke(oracle: Oracle, kind: HookKind, ctx: Context, data: Option<Bytes>, eos: bool): Call {
    match oracle(kind, ctx, data, eos)
    case Raised => Call(kind, ctx, data, eos, ctx, [], Broken)
    case Returned(shared, headers, edits, body, action) =>
      var after := Context(shared, ctx.request, if ctx.response.Some? then Some(headers) else None, edits);
      Call(kind, ctx, data, eos, after, if body.Some? then body.value else [],
           if action.ShortCircuit? then Stop(ImmediateOf(action.status, action.headers, action.body)) else Go)
  }

  /** `execute_http_request` or `execute_http_response`: no body involved. */
  function HeaderStage(oracle: Oracle, kind: HookKind, s: Stage): Stage {
    var c := Invoke(oracle, kind, s.ctx, None, false);
    Stage(c.after, s.body, c.verdict, s.calls.(header := Some(c)))
  }

  /** `run_body_filters` and `run_resp_body_filters`: nothing to do for an empty chunk that is not final. */
  function BodyStage(oracle: Oracle, kind: HookKind, s: Stage, eos: bool): Stage {
    if s.body == [] && !eos then s
    else
      var c := Invoke(oracle, kind, s.ctx, Some(s.body), eos);
      Stage(c.after, c.produced, c.verdict, s.calls.(body := Some(c)))
  }

  /** The server's own rejections. */
  function Rejection(status: int, notice: Notice): ImmediateResponse {
    ImmediateResponse(status, None, Fixed(notice))
  }

  /** `run_selected_upstream_body_filters`. */
  function SelectedStage(caps: Capabilities, maxBody: Option<nat>, oracle: Oracle, s: Stage): Stage {
    if !caps.needsSelectedBody then s
    else
      var c := Invoke(oracle, OnSelectedBody, s.ctx, Some(s.body), true);
      var tooLarge := c.verdict.Go? && caps.selectedWriter && maxBody.Some? && |c.produced| > maxBody.value;
      Stage(c.after, c.produced, if tooLarge then Stop(Rejection(413, NoText)) else c.verdict,
            s.calls.(selected := Some(c)))
  }

  // ---------------------------------------------------------------------------
  // Request header mutations
  // ---------------------------------------------------------------------------

  /** `to_str().unwrap_or_default()`: visible ASCII and tab survive, anything else becomes empty. */
  function HeaderText(value: Bytes): Bytes {
    if forall i :: 0 <= i < |value| ==> value[i] == '\t' || ' ' <= value[i] <= '~' then value else []
  }

  function Appends(extra: seq<(Bytes, Bytes)>): seq<HeaderOption> {
    seq(|extra|, i requires 0 <= i < |extra| => HeaderOption(extra[i].0, extra[i].1, AppendIfExistsOrAdd))
  }

  function Overwrites(sets: seq<(Bytes, Bytes)>): seq<HeaderOption> {
    seq(|sets|, i requires 0 <= i < |sets| => HeaderOption(sets[i].0, HeaderText(sets[i].1), OverwriteIfExistsOrAdd))
  }

  function PathRewrite(path: Option<Bytes>): seq<HeaderOption> {
    if path.Some? then [HeaderOption(":path", path.value, OverwriteIfExistsOrAdd)] else []
  }

  /** `collect_request_header_mutations`. */
  function CollectRequest(edits: Edits): Option<HeaderMutation> {
    if edits == NO_EDITS then None
    else Some(HeaderMutation(Appends(edits.extra) + Overwrites(edits.sets) + PathRewrite(edits.path), edits.removes))
  }

  // What the edits mean, name by name

  /** The values a filter wants added to a name, in order. */
  function Added(extra: seq<(Bytes, Bytes)>, name: Bytes): seq<Bytes> {
    if extra == [] then []
    else
      var last := extra[|extra| - 1];
      Added(extra[..|extra| - 1], name) + if Lower(last.0) == name then [last.1] else []
  }

  /** The value a filter set last for a name. */
  function LastSet(sets: seq<(Bytes, Bytes)>, name: Bytes): Option<Bytes> {
    if sets == [] then None
    else
      var last := sets[|sets| - 1];
      if Lower(last.0) == name then Some(last.1) else LastSet(sets[..|sets| - 1], name)
  }

  /** Bytes a header value may have to be read as text: a tab, or 32 to 126. */
  predicate Readable(value: Bytes) {
    forall i :: 0 <= i < |value| ==> value[i] as int == 9 || 32 <= value[i] as int <= 126
  }

  /** A value that is not readable text is sent as an empty one. */
  function SentValue(value: Bytes): Bytes {
    if Readable(value) then value else []
  }

  lemma TextIsReadable(value: Bytes)
    ensures HeaderText(value) == SentValue(value)
  {
  }

  lemma {:induction false} AppendsAdd(m: Multimap, extra: seq<(Bytes, Bytes)>, name: Bytes)
    ensures GetAll(ApplySets(m, Appends(extra)), name) == GetAll(m, name) + Added(extra, name)
  {
    hide Lower;
    if extra != [] {
      var init, last := extra[..|extra| - 1], Appends(extra)[|extra| - 1];
      assert Appends(extra) == Appends(init) + [last];
      AppendsAdd(m, init, name);
      ApplySetsConcat(m, Appends(init), [last]);
      ApplyOne(ApplySets(m, Appends(init)), last);
    }
  }

  lemma {:induction false} OverwritesSet(m: Multimap, sets: seq<(Bytes, Bytes)>, name: Bytes)
    ensures GetAll(ApplySets(m, Overwrites(sets)), name)
            == if LastSet(sets, name).Some? then [SentValue(LastSet(sets, name).value)] else GetAll(m, name)
  {
    hide HeaderText, Readable;
    if sets != [] {
      TextIsReadable(sets[|sets| - 1].1);
      var init, last := sets[..|sets| - 1], Overwrites(sets)[|sets| - 1];
      assert Overwrites(sets) == Overwrites(init) + [last];
      OverwritesSet(m, init, name);
      ApplySetsConcat(m, Overwrites(init), [last]);
      ApplyOne(ApplySets(m, Overwrites(init)), last);
    }
  }

  lemma ApplyOne(m: Multimap, o: HeaderOption)
    ensures ApplySets(m, [o]) == ApplyOption(m, o)
  {
    assert [o][1..] == [];
  }

  /** What a filter's edits mean for one header of the request. */
  function Edited(m: Multimap, edits: Edits, name: Bytes): seq<Bytes> {
    if edits.path.Some? && name == ":path" then [edits.path.value]
    else if LastSet(edits.sets, name).Some? then [SentValue(LastSet(edits.sets, name).value)]
    else (if name in RemoveNames(edits.removes) then [] else GetAll(m, name)) + Added(edits.extra, name)
  }

  /**
   The mutation sent for a request does to every header what the edits mean: a rewritten path
   wins, then the last value set, as it is if it is readable text and empty otherwise, then
   removal followed by the additions in order; a header the edits do not mention stays as it is.
   Without edits nothing is sent.
   */
  lemma RequestEditsTakeEffect(m: Multimap, edits: Edits, name: Bytes)
    ensures GetAll(Apply(m, CollectRequest(edits)), name) == Edited(m, edits, name)
    ensures CollectRequest(edits).None? <==> edits.extra == [] && edits.sets == [] && edits.removes == [] && edits.path.None?
  {
    hide HeaderText, SentValue, Added, LastSet, Lower, Appends, Overwrites, ApplySets, RemoveNames;
    var start := m - RemoveNames(edits.removes);
    var added := ApplySets(start, Appends(edits.extra));
    var overwritten := ApplySets(added, Overwrites(edits.sets));
    AppendsAdd(start, edits.extra, name);
    OverwritesSet(added, edits.sets, name);
    ApplySetsConcat(start, Appends(edits.extra) + Overwrites(edits.sets), PathRewrite(edits.path));
    ApplySetsConcat(start, Appends(edits.extra), Overwrites(edits.sets));
    PathRewriteOverwrites(overwritten, edits.path);
    if edits == NO_EDITS {
      NoEditsMeanNothing(m, name);
    }
  }

  lemma PathRewriteOverwrites(m: Multimap, path: Option<Bytes>)
    ensures ApplySets(m, PathRewrite(path)) == if path.Some? then m[":path" := [path.value]] else m
  {
    assert Lower(":path") == ":path";
    if path.Some? {
      ApplyOne(m, PathRewrite(path)[0]);
    }
  }

  lemma NoEditsMeanNothing(m: Multimap, name: Bytes)
    ensures Edited(m, NO_EDITS, name) == GetAll(m, name)
  {
    assert GetAll(m, name) + [] == GetAll(m, name);
  }

  /** The value a filter sets last for a header is what Envoy then holds, if it is readable text, and an empty one if not. */
  lemma SetValueArrives(m: Multimap, edits: Edits, i: nat, name: Bytes)
    requires i < |edits.sets| && Lower(edits.sets[i].0) == name
    requires forall j :: i < j < |edits.sets| ==> Lower(edits.sets[j].0) != name
    requires edits.path.Some? ==> name != ":path"
    ensures GetAll(Apply(m, CollectRequest(edits)), name) == [if Readable(edits.sets[i].1) then edits.sets[i].1 else []]
  {
    hide Apply, CollectRequest, Readable;
    RequestEditsTakeEffect(m, edits, name);
    LastSetIs(edits.sets, i, name);
  }

  lemma {:induction false} LastSetIs(sets: seq<(Bytes, Bytes)>, i: nat, name: Bytes)
    requires i < |sets| && Lower(sets[i].0) == name && forall j :: i < j < |sets| ==> Lower(sets[j].0) != name
    ensures LastSet(sets, name) == Some(sets[i].1)
  {
    if i < |sets| - 1 {
      LastSetIs(sets[..|sets| - 1], i, name);
    }
  }

  // ---------------------------------------------------------------------------
  // Headers of immediate responses
  // ---------------------------------------------------------------------------

  lemma {:induction false} ReplacingKeepsLast(m: Multimap, headers: seq<(Bytes, Bytes)>, name: Bytes)
    ensures GetAll(ApplySets(m, Replacing(headers)), name)
            == if LastSet(headers, name).Some? then [LastSet(headers, name).value] else GetAll(m, name)
  {
    hide Lower;
    if headers != [] {
      var init, last := headers[..|headers| - 1], Replacing(headers)[|headers| - 1];
      assert Replacing(headers) == Replacing(init) + [last];
      ReplacingKeepsLast(m, init, name);
      ApplySetsConcat(m, Replacing(init), [last]);
      ApplyOne(ApplySets(m, Replacing(init)), last);
    }
  }

  /** How often a name occurs says how many values a filter gave it. */
  lemma {:induction false} AddedIsOneOf(headers: seq<(Bytes, Bytes)>, name: Bytes)
    ensures LastSet(headers, name).None? <==> Added(headers, name) == []
    ensures LastSet(headers, name).Some? ==> Added(headers, name)[|Added(headers, name)| - 1] == LastSet(headers, name).value
  {
    hide Lower;
    if headers != [] {
      AddedIsOneOf(headers[..|headers| - 1], name);
    }
  }

  /**
   An immediate response has the status and body the filter gave it. Of its headers Envoy keeps
   one value per name, the last, since each of them overwrites: all values of a name arrive
   exactly if there is at most one.
   */
  lemma ImmediateCarries(status: int, headers: seq<(Bytes, Bytes)>, body: Bytes, name: Bytes)
    ensures var immediate := ImmediateOf(status, headers, body);
            var arrived, given := GetAll(Apply(map[], immediate.headers), name), Added(headers, name);
            && immediate.status == status && immediate.body == Supplied(body)
            && arrived == (if given == [] then [] else [given[|given| - 1]])
            && (arrived == given <==> |given| <= 1)
  {
    hide Added, LastSet, Lower, ApplySets;
    AddedIsOneOf(headers, name);
    ReplacingKeepsLast(map[], headers, name);
    NothingRemoved(headers);
  }

  lemma NothingRemoved(headers: seq<(Bytes, Bytes)>)
    ensures Apply(map[], if headers == [] then None else Some(HeaderMutation(Replacing(headers), [])))
            == ApplySets(map[], Replacing(headers))
  {
    var empty: Multimap := map[];
    assert empty - RemoveNames([]) == empty;
  }
}
