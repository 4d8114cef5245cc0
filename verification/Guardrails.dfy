/**
 Guardrail selection: the conservative selector of `src/response_mode.rs`, the admission of
 selection headers of `src/handlers.rs`, and what the configured filters can do with a request.
 */
module Guardrails {
  import opened Wire
  import opened HeaderMaps

  // ---------------------------------------------------------------------------
  // Configuration
  // ---------------------------------------------------------------------------

  /** A boolean of an untyped mapping. */
  datatype Flag = Missing | NotBool | Flag(on: bool)

  /** The `phase` key of an untyped filter entry. */
  datatype PhaseConfig = Absent | NotMapping | Phases(request: Flag, response: Flag)

  /** Matchers of a condition other than headers; only their presence matters here. */
  datatype Matcher = Grpc | Path | PathPrefix | Methods | BoundUpstream | SelectedUpstream

  datatype Condition =
    | When(matchers: set<Matcher>, headers: Option<seq<(Bytes, Bytes)>>)
    | Unless(matchers: set<Matcher>, headers: Option<seq<(Bytes, Bytes)>>)

  datatype FilterEntry = FilterEntry(
    filterType: Bytes,
    phase: PhaseConfig,
    conditions: seq<Condition>,
    responseConditions: seq<Condition>)

  const GUARDRAIL: Bytes := "ai_guardrails"
  const PREFIX: Bytes := "x-aigateway-guardrail-"

  /** `guardrail_phases`: request defaults to on, response to off. */
  function GuardrailPhases(entry: FilterEntry): Option<(bool, bool)> {
    match entry.phase
    case Absent => Some((true, false))
    case NotMapping => None
    case Phases(request, response) =>
      if request.NotBool? || response.NotBool? then None
      else Some((if request.Flag? then request.on else true, if response.Flag? then response.on else false))
  }

  /** `selected_guardrail_header`: the one header name of the exact supported condition. */
  function SelectedHeader(entry: FilterEntry): Option<Bytes> {
    if entry.responseConditions != [] || |entry.conditions| != 1 || !entry.conditions[0].When? then None
    else
      var c := entry.conditions[0];
      if c.matchers != {} || c.headers.None? || |c.headers.value| != 1 then None
      else
        var (name, value) := c.headers.value[0];
        if value == "true" && PREFIX <= Lower(name) then Some(Lower(name)) else None
  }

  predicate IsGuardrail(entry: FilterEntry) {
    entry.filterType == GUARDRAIL
  }

  /** Whether a guardrail entry takes part in some phase. */
  predicate Enabled(entry: FilterEntry) {
    IsGuardrail(entry) && GuardrailPhases(entry).Some?
    && (GuardrailPhases(entry).value.0 || GuardrailPhases(entry).value.1)
  }

  predicate InResponsePhase(entry: FilterEntry) {
    IsGuardrail(entry) && GuardrailPhases(entry).Some? && GuardrailPhases(entry).value.1
  }

  predicate Unconditional(entry: FilterEntry) {
    entry.conditions == [] && entry.responseConditions == []
  }

  /** An entry whose selection the selector can follow. */
  predicate Supported(entry: FilterEntry) {
    !IsGuardrail(entry)
    || (GuardrailPhases(entry).Some?
        && (Enabled(entry) ==> Unconditional(entry) || SelectedHeader(entry).Some?))
  }

  /**
   What the phase keys of a guardrail mean: the request phase is on unless switched off, the
   response phase is off unless switched on, and a value that is no boolean makes the entry
   unsupported.
   */
  lemma PhasesMean(entry: FilterEntry)
    requires entry.filterType == "ai_guardrails"
    ensures var p := entry.phase;
            var malformed := p.NotMapping? || (p.Phases? && (p.request.NotBool? || p.response.NotBool?));
            && (InResponsePhase(entry) <==> !malformed && p.Phases? && p.response == Flag(true))
            && (Enabled(entry) <==> !malformed && !(p.Phases? && p.request == Flag(false) && p.response != Flag(true)))
            && (malformed ==> !Supported(entry))
  {
  }

  /** The one condition the selector can follow: a single `when` on one guardrail header with the value `true`. */
  lemma SelectedHeaderIs(entry: FilterEntry, name: Bytes)
    ensures SelectedHeader(entry) == Some(name)
            <==> entry.responseConditions == [] && "x-aigateway-guardrail-" <= name
                 && exists key :: Lower(key) == name && entry.conditions == [When({}, Some([(key, "true")]))]
  {
    if SelectedHeader(entry) == Some(name) {
      var c := entry.conditions[0];
      var key := c.headers.value[0].0;
      assert c.headers.value == [(key, "true")];
      assert entry.conditions == [When({}, Some([(key, "true")]))];
    }
  }

  // ---------------------------------------------------------------------------
  // Selector
  // ---------------------------------------------------------------------------

  datatype InvalidReason = InvalidPhase | UnsupportedCondition

  datatype Selector = Selector(
    enabled: bool,
    unconditionalGuardrail: bool,
    alwaysOnResponse: bool,
    outputHeaders: set<Bytes>,
    guardrailHeaders: set<Bytes>,
    valid: bool,
    invalidReason: Option<InvalidReason>)

  const DISABLED := Selector(false, false, false, {}, {}, false, None)

  function InvalidSelector(output: set<Bytes>, guardrail: set<Bytes>, reason: InvalidReason): Selector {
    Selector(true, false, false, output, guardrail, false, Some(reason))
  }

  ghost predicate AnyGuardrail(entries: seq<FilterEntry>) {
    exists e :: e in entries && IsGuardrail(e)
  }

  ghost predicate AllSupported(entries: seq<FilterEntry>) {
    forall e :: e in entries ==> Supported(e)
  }

  /** The facts a valid selector collects. */
  ghost predicate Collects(s: Selector, entries: seq<FilterEntry>) {
    && (s.unconditionalGuardrail <==> exists e :: e in entries && Enabled(e) && Unconditional(e))
    && (s.alwaysOnResponse <==> exists e :: e in entries && InResponsePhase(e) && Unconditional(e))
    && (forall name :: name in s.guardrailHeaders <==>
          exists e :: e in entries && Enabled(e) && SelectedHeader(e) == Some(name))
    && (forall name :: name in s.outputHeaders <==>
          exists e :: e in entries && InResponsePhase(e) && SelectedHeader(e) == Some(name))
  }

  /** What a selector must know about a list of entries, whatever their order. */
  ghost predicate Describes(s: Selector, entries: seq<FilterEntry>) {
    && (s.enabled <==> AnyGuardrail(entries))
    && (s.valid <==> AnyGuardrail(entries) && AllSupported(entries))
    && (s.invalidReason.Some? <==> !AllSupported(entries))
    && (s.valid ==> Collects(s, entries))
  }

  /** One more entry adds exactly its own share to what is collected. */
  lemma CollectsOneMore(s: Selector, t: Selector, before: seq<FilterEntry>, entry: FilterEntry)
    requires Collects(s, before)
    requires t.unconditionalGuardrail == (s.unconditionalGuardrail || (Enabled(entry) && Unconditional(entry)))
    requires t.alwaysOnResponse == (s.alwaysOnResponse || (InResponsePhase(entry) && Unconditional(entry)))
    requires t.guardrailHeaders == s.guardrailHeaders
               + if Enabled(entry) && SelectedHeader(entry).Some? then {SelectedHeader(entry).value} else {}
    requires t.outputHeaders == s.outputHeaders
               + if InResponsePhase(entry) && SelectedHeader(entry).Some? then {SelectedHeader(entry).value} else {}
    ensures Collects(t, before + [entry])
    ensures AnyGuardrail(before + [entry]) <==> AnyGuardrail(before) || IsGuardrail(entry)
  {
    assert forall e :: e in before + [entry] <==> e in before || e == entry;
    assert entry in before + [entry];
  }

  function Flatten(chains: seq<seq<FilterEntry>>): seq<FilterEntry> {
    if chains == [] then [] else chains[0] + Flatten(chains[1..])
  }

  /** What is known after some entries, none of which was unsupported. */
  ghost predicate Knows(s: Selector, before: seq<FilterEntry>) {
    && s == Selector(s.enabled, s.unconditionalGuardrail, s.alwaysOnResponse, s.outputHeaders, s.guardrailHeaders, true, None)
    && (s.enabled <==> AnyGuardrail(before)) && AllSupported(before) && Collects(s, before)
  }

  lemma KnowsOneMore(s: Selector, t: Selector, before: seq<FilterEntry>, entry: FilterEntry)
    requires Knows(s, before) && Supported(entry)
    requires t == Selector(
                    s.enabled || IsGuardrail(entry),
                    s.unconditionalGuardrail || (Enabled(entry) && Unconditional(entry)),
                    s.alwaysOnResponse || (InResponsePhase(entry) && Unconditional(entry)),
                    s.outputHeaders + (if InResponsePhase(entry) && SelectedHeader(entry).Some? then {SelectedHeader(entry).value} else {}),
                    s.guardrailHeaders + (if Enabled(entry) && SelectedHeader(entry).Some? then {SelectedHeader(entry).value} else {}),
                    true, None)
    ensures Knows(t, before + [entry])
  {
    hide Collects, AnyGuardrail, Supported, SelectedHeader, Enabled, InResponsePhase, Unconditional;
    CollectsOneMore(s, t, before, entry);
    assert forall e :: e in before + [entry] <==> e in before || e == entry;
  }

  /** One turn of the `from_config` loop; an unsupported entry is reported, with what was collected so far. */
  method AddEntry(s: Selector, entry: FilterEntry, ghost before: seq<FilterEntry>) returns (t: Selector, reason: Option<InvalidReason>)
    requires Knows(s, before)
    ensures reason.Some? <==> !Supported(entry)
    ensures reason.Some? ==> IsGuardrail(entry)
    ensures reason.None? ==> Knows(t, before + [entry])
  {
    hide Knows;
    t, reason := s, None;
    if entry.filterType == GUARDRAIL {
      t := t.(enabled := true);
      var phases := GuardrailPhases(entry);
      if phases.None? {
        return t, Some(InvalidPhase);
      }
      if phases.value.0 || phases.value.1 {
        var header := SelectedHeader(entry);
        if header.Some? {
          t := t.(guardrailHeaders := t.guardrailHeaders + {header.value});
          if phases.value.1 {
            t := t.(outputHeaders := t.outputHeaders + {header.value});
          }
        } else if entry.conditions == [] && entry.responseConditions == [] {
          t := t.(unconditionalGuardrail := true, alwaysOnResponse := t.alwaysOnResponse || phases.value.1);
        } else {
          return t, Some(UnsupportedCondition);
        }
      }
    }
    SelectorParts(s, before);
    KnowsOneMore(s, t, before, entry);
  }

  lemma SelectorParts(s: Selector, before: seq<FilterEntry>)
    requires Knows(s, before)
    ensures s.valid && s.invalidReason.None?
  {
  }

  /** `from_config`: one pass over all entries, giving up at the first unsupported one. */
  method FromConfig(chains: seq<seq<FilterEntry>>) returns (s: Selector)
    ensures Describes(s, Flatten(chains))
  {
    hide Collects, Supported;
    var entries := Flatten(chains);
    s := Selector(false, false, false, {}, {}, true, None);
    assert Knows(s, []) by { NothingKnown(); }
    for i := 0 to |entries|
      invariant Knows(s, entries[..i])
    {
      var reason;
      s, reason := AddEntry(s, entries[i], entries[..i]);
      assert entries[i] in entries;
      if reason.Some? {
        return InvalidSelector(s.outputHeaders, s.guardrailHeaders, reason.value);
      }
      assert entries[..i + 1] == entries[..i] + [entries[i]];
    }
    assert entries[..|entries|] == entries;
    if !s.enabled {
      return DISABLED;
    }
  }

  lemma NothingKnown()
    ensures Knows(Selector(false, false, false, {}, {}, true, None), [])
  {
  }

  // ---------------------------------------------------------------------------
  // Request headers
  // ---------------------------------------------------------------------------

  predicate Continuation(c: char) {
    0x80 as char <= c <= 0xBF as char
  }

  /** Well-formed UTF-8, by the table of section 4 of RFC 3629. */
  predicate ValidUtf8(s: Bytes) {
    if s == [] then true
    else if s[0] < 0x80 as char then ValidUtf8(s[1..])
    else if 0xC2 as char <= s[0] <= 0xDF as char then |s| >= 2 && Continuation(s[1]) && ValidUtf8(s[2..])
    else if 0xE0 as char <= s[0] <= 0xEF as char then
      && |s| >= 3 && Continuation(s[1]) && Continuation(s[2])
      && (s[0] == 0xE0 as char ==> s[1] >= 0xA0 as char)
      && (s[0] == 0xED as char ==> s[1] <= 0x9F as char)
      && ValidUtf8(s[3..])
    else if 0xF0 as char <= s[0] <= 0xF4 as char then
      && |s| >= 4 && Continuation(s[1]) && Continuation(s[2]) && Continuation(s[3])
      && (s[0] == 0xF0 as char ==> s[1] >= 0x90 as char)
      && (s[0] == 0xF4 as char ==> s[1] <= 0x8F as char)
      && ValidUtf8(s[4..])
    else false
  }

  /** `header_value_str`: the raw bytes when they are text, the string field otherwise. */
  function SelectionText(h: HeaderValue): Bytes {
    if h.rawValue == [] then h.value else if ValidUtf8(h.rawValue) then h.rawValue else h.value
  }

  /** The bytes the filters and the admission check look at. */
  function HeaderBytes(h: HeaderValue): Bytes {
    if h.rawValue == [] then h.value else h.rawValue
  }

  /** Texts of the headers of one name, in order. */
  function TextsOf(headers: seq<HeaderValue>, name: Bytes): seq<Bytes> {
    if headers == [] then []
    else (if Lower(headers[0].key) == Lower(name) then [SelectionText(headers[0])] else []) + TextsOf(headers[1..], name)
  }

  /** `header_may_be_selected`: anything but absence or one plain `false`. */
  predicate MayBeSelected(headers: seq<HeaderValue>, name: Bytes) {
    TextsOf(headers, name) != [] && TextsOf(headers, name) != ["false"]
  }

  /** `should_stream`. */
  predicate ShouldStream(s: Selector, headers: seq<HeaderValue>) {
    && s.enabled && s.valid && !s.alwaysOnResponse
    && !exists name :: name in s.outputHeaders && MayBeSelected(headers, name)
  }

  /** `has_selected_guardrail`. */
  predicate HasSelectedGuardrail(s: Selector, headers: seq<HeaderValue>) {
    s.enabled
    && (!s.valid || s.unconditionalGuardrail
        || exists name :: name in s.guardrailHeaders && MayBeSelected(headers, name))
  }

  /** `is_guardrail_selection_header`, on a folded name. */
  predicate IsSelectionHeader(name: Bytes) {
    PREFIX <= name
    && var suffix := name[|PREFIX|..];
       suffix == "input" || suffix == "output"
       || (|suffix| == 64 && forall i :: 0 <= i < 64 ==>
             '0' <= suffix[i] <= '9' || 'a' <= suffix[i] <= 'f' || 'A' <= suffix[i] <= 'F')
  }

  predicate IsBoolean(value: Bytes) {
    value == "true" || value == "false"
  }

  predicate SelectsAt(headers: seq<HeaderValue>, i: nat, name: Bytes)
    requires i < |headers|
  {
    Lower(headers[i].key) == name && IsSelectionHeader(name)
  }

  /** Every selection header among the first `k` occurs once and is a plain boolean. */
  ghost predicate AdmittedUpTo(headers: seq<HeaderValue>, k: nat)
    requires k <= |headers|
  {
    && (forall i :: 0 <= i < k && SelectsAt(headers, i, Lower(headers[i].key)) ==> IsBoolean(HeaderBytes(headers[i])))
    && (forall i, j :: 0 <= i < j < k && SelectsAt(headers, i, Lower(headers[i].key))
                       ==> Lower(headers[i].key) != Lower(headers[j].key))
  }

  ghost predicate Admitted(headers: seq<HeaderValue>) {
    AdmittedUpTo(headers, |headers|)
  }

  /** The names under admission: the two phase selectors and the identifiers of 64 hexadecimal digits. */
  lemma SelectionHeadersAre(suffix: Bytes)
    ensures IsSelectionHeader("x-aigateway-guardrail-" + suffix)
            <==> suffix == "input" || suffix == "output" || (|suffix| == 64 && forall c :: c in suffix ==> c in "0123456789abcdefABCDEF")
  {
    var name := PREFIX + suffix;
    assert name[|PREFIX|..] == suffix;
    assert forall i :: 0 <= i < |suffix| ==> suffix[i] in suffix;
    assert forall c: char :: c in "0123456789abcdefABCDEF" <==> '0' <= c <= '9' || 'a' <= c <= 'f' || 'A' <= c <= 'F';
  }

  /** Admission in plain words: whatever has a selection name, folded, is one of two texts and alone under its name. */
  lemma AdmittedMeans(headers: seq<HeaderValue>)
    ensures Admitted(headers)
            <==> forall i :: 0 <= i < |headers| && IsSelectionHeader(Lower(headers[i].key)) ==>
                   && (HeaderBytes(headers[i]) == "true" || HeaderBytes(headers[i]) == "false")
                   && forall j :: 0 <= j < |headers| && j != i ==> Lower(headers[j].key) != Lower(headers[i].key)
  {
    hide IsSelectionHeader, Lower, HeaderBytes;
  }

  /** `reject_ambiguous_guardrail_selection`: one pass collecting the names seen so far. */
  method RejectAmbiguous(headers: seq<HeaderValue>) returns (rejected: bool)
    ensures rejected <==> !Admitted(headers)
  {
    hide IsSelectionHeader, IsBoolean, Lower, HeaderBytes;
    var names: set<Bytes> := {};
    for k := 0 to |headers|
      invariant AdmittedUpTo(headers, k)
      invariant forall name :: name in names <==> exists i :: 0 <= i < k && SelectsAt(headers, i, name)
    {
      var name := Lower(headers[k].key);
      if !IsSelectionHeader(name) {
        continue;
      }
      if name in names || !IsBoolean(HeaderBytes(headers[k])) {
        assert SelectsAt(headers, k, name);
        return true;
      }
      assert forall i :: 0 <= i < k ==> !SelectsAt(headers, i, name);
      names := names + {name};
      assert SelectsAt(headers, k, name);
    }
    return false;
  }

  // ---------------------------------------------------------------------------
  // What the filters can do
  // ---------------------------------------------------------------------------

  /** A header the filters see with exactly this value. */
  ghost predicate Carries(headers: seq<HeaderValue>, name: Bytes, value: Bytes) {
    exists i :: 0 <= i < |headers| && Lower(headers[i].key) == Lower(name) && HeaderBytes(headers[i]) == value
  }

  /** Whether a condition can hold; only header matchers are looked at, the others may go either way. */
  ghost predicate CanHold(c: Condition, headers: seq<HeaderValue>) {
    c.When? && c.headers.Some? ==>
      forall m :: m in c.headers.value ==> Carries(headers, m.0, m.1)
  }

  /** Whether an enabled guardrail can fire on a request. */
  ghost predicate CanFire(entry: FilterEntry, headers: seq<HeaderValue>) {
    Enabled(entry) && forall i :: 0 <= i < |entry.conditions| ==> CanHold(entry.conditions[i], headers)
  }

  lemma {:induction false} TextsCover(headers: seq<HeaderValue>, name: Bytes, i: nat)
    requires i < |headers| && Lower(headers[i].key) == Lower(name)
    ensures SelectionText(headers[i]) in TextsOf(headers, name)
    decreases |headers|
  {
    if i > 0 {
      TextsCover(headers[1..], name, i - 1);
    }
  }

  lemma {:induction false} TextsComeFrom(headers: seq<HeaderValue>, name: Bytes, text: Bytes)
    requires text in TextsOf(headers, name)
    ensures exists i :: 0 <= i < |headers| && Lower(headers[i].key) == Lower(name) && SelectionText(headers[i]) == text
    decreases |headers|
  {
    if Lower(headers[0].key) == Lower(name) && SelectionText(headers[0]) == text {
    } else {
      TextsComeFrom(headers[1..], name, text);
      var i :| 0 <= i < |headers[1..]| && Lower(headers[1..][i].key) == Lower(name) && SelectionText(headers[1..][i]) == text;
      assert headers[i + 1] == headers[1..][i];
    }
  }

  lemma {:induction false} TextsOfUnique(headers: seq<HeaderValue>, name: Bytes)
    requires forall i, j :: 0 <= i < j < |headers| ==>
               !(Lower(headers[i].key) == Lower(name) && Lower(headers[j].key) == Lower(name))
    ensures |TextsOf(headers, name)| <= 1
    decreases |headers|
  {
    if headers != [] {
      TextsOfUnique(headers[1..], name);
      if TextsOf(headers[1..], name) != [] {
        TextsComeFrom(headers[1..], name, TextsOf(headers[1..], name)[0]);
      }
    }
  }

  /** ASCII bytes are text. */
  lemma {:induction false} AsciiIsUtf8(s: Bytes)
    requires forall i :: 0 <= i < |s| ==> s[i] < 0x80 as char
    ensures ValidUtf8(s)
  {
    if s != [] {
      AsciiIsUtf8(s[1..]);
    }
  }

  /** A header that carries `true` is always noticed, duplicates and odd encodings included. */
  lemma TrueIsNoticed(headers: seq<HeaderValue>, name: Bytes)
    requires Carries(headers, name, "true")
    ensures MayBeSelected(headers, name)
  {
    var i :| 0 <= i < |headers| && Lower(headers[i].key) == Lower(name) && HeaderBytes(headers[i]) == "true";
    AsciiIsUtf8("true");
    TextsCover(headers, name, i);
    assert "true" in TextsOf(headers, name);
  }

  /** On admitted headers a selection name is noticed exactly when it carries `true`. */
  lemma NoticedIffTrue(headers: seq<HeaderValue>, name: Bytes)
    requires Admitted(headers) && Lower(name) == name && IsSelectionHeader(name)
    ensures MayBeSelected(headers, name) <==> Carries(headers, name, "true")
  {
    hide Lower, ValidUtf8, IsSelectionHeader, TextsOf;
    if Carries(headers, name, "true") {
      TrueIsNoticed(headers, name);
    } else {
      AsciiIsUtf8("false");
      assert forall i :: 0 <= i < |headers| && Lower(headers[i].key) == name ==> SelectsAt(headers, i, name);
      TextsOfUnique(headers, name);
      if TextsOf(headers, name) != [] {
        var text := TextsOf(headers, name)[0];
        TextsComeFrom(headers, name, text);
        var i :| 0 <= i < |headers| && Lower(headers[i].key) == Lower(name) && SelectionText(headers[i]) == text;
        assert IsBoolean(HeaderBytes(headers[i])) && HeaderBytes(headers[i]) != "true";
        assert TextsOf(headers, name) == ["false"];
      }
    }
  }

  /** The supported condition asks for `true` under the selected name. */
  lemma SelectedHeaderMeaning(entry: FilterEntry, headers: seq<HeaderValue>)
    requires SelectedHeader(entry).Some?
    ensures Lower(SelectedHeader(entry).value) == SelectedHeader(entry).value
    ensures !Unconditional(entry)
    ensures Enabled(entry) ==> (CanFire(entry, headers) <==> Carries(headers, SelectedHeader(entry).value, "true"))
  {
    var m := entry.conditions[0].headers.value[0];
    assert forall n :: n in entry.conditions[0].headers.value ==> n == m;
    assert m in entry.conditions[0].headers.value;
  }

  /**
   Soundness, for every configuration and every header list: streaming the response is chosen
   only if no response-phase guardrail can fire, and a request is let through in full duplex
   only if no guardrail can fire at all.
   */
  lemma SelectorIsSound(s: Selector, entries: seq<FilterEntry>, headers: seq<HeaderValue>)
    requires Describes(s, entries)
    ensures ShouldStream(s, headers) ==> forall e :: e in entries && InResponsePhase(e) ==> !CanFire(e, headers)
    ensures !HasSelectedGuardrail(s, headers) ==> forall e :: e in entries ==> !CanFire(e, headers)
  {
    forall e | e in entries && CanFire(e, headers)
      ensures InResponsePhase(e) ==> !ShouldStream(s, headers)
      ensures HasSelectedGuardrail(s, headers)
    {
      if s.valid && !Unconditional(e) {
        SelectedHeaderMeaning(e, headers);
        TrueIsNoticed(headers, SelectedHeader(e).value);
      }
    }
  }

  /**
   Exactness: on admitted headers, for a valid configuration whose selection names are all
   subject to admission, both verdicts say precisely what the guardrails can do.
   */
  lemma SelectorIsExact(s: Selector, entries: seq<FilterEntry>, headers: seq<HeaderValue>)
    requires Describes(s, entries) && s.valid && Admitted(headers)
    requires forall name :: name in s.guardrailHeaders + s.outputHeaders ==> IsSelectionHeader(name)
    ensures ShouldStream(s, headers) <==> forall e :: e in entries && InResponsePhase(e) ==> !CanFire(e, headers)
    ensures HasSelectedGuardrail(s, headers) <==> exists e :: e in entries && CanFire(e, headers)
  {
    SelectorIsSound(s, entries, headers);
    if s.unconditionalGuardrail {
      var e :| e in entries && Enabled(e) && Unconditional(e);
      assert CanFire(e, headers);
    }
    if s.alwaysOnResponse {
      var e :| e in entries && InResponsePhase(e) && Unconditional(e);
      assert CanFire(e, headers);
    }
    forall name | name in s.guardrailHeaders && MayBeSelected(headers, name)
      ensures exists e :: e in entries && CanFire(e, headers)
    {
      var e :| e in entries && Enabled(e) && SelectedHeader(e) == Some(name);
      SelectedHeaderMeaning(e, headers);
      NoticedIffTrue(headers, name);
    }
    forall name | name in s.outputHeaders && MayBeSelected(headers, name)
      ensures exists e :: e in entries && InResponsePhase(e) && CanFire(e, headers)
    {
      var e :| e in entries && InResponsePhase(e) && SelectedHeader(e) == Some(name);
      SelectedHeaderMeaning(e, headers);
      NoticedIffTrue(headers, name);
    }
  }

  /** Verdicts depend on which entries are configured, not on their order or chain. */
  lemma SelectorIgnoresOrder(
    s: Selector, t: Selector, entries: seq<FilterEntry>, reordered: seq<FilterEntry>, headers: seq<HeaderValue>)
    requires Describes(s, entries) && Describes(t, reordered)
    requires forall e :: e in entries <==> e in reordered
    ensures s.enabled == t.enabled && s.valid == t.valid
    ensures ShouldStream(s, headers) == ShouldStream(t, headers)
    ensures HasSelectedGuardrail(s, headers) == HasSelectedGuardrail(t, headers)
  {
    if s.valid {
      assert s.guardrailHeaders == t.guardrailHeaders && s.outputHeaders == t.outputHeaders;
    }
  }
}
