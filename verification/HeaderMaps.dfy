/**
 Header maps, the mutations the server sends, and what Envoy does with them
 (`src/adapter.rs`, `merge_mutations` and `with_content_length` of `src/pipeline.rs`,
 `mutation_affects_routing` of `src/response.rs`).
 */
module HeaderMaps {
  import opened Wire

  // ---------------------------------------------------------------------------
  // Header maps
  // ---------------------------------------------------------------------------

  function LowerChar(c: char): char {
    if 'A' <= c <= 'Z' then c - 'A' + 'a' else c
  }

  /** ASCII case folding. */
  function Lower(s: Bytes): Bytes {
    seq(|s|, i requires 0 <= i < |s| => LowerChar(s[i]))
  }

  type Multimap = map<Bytes, seq<Bytes>>

  /**
   A header map: its names in iteration order and the value list of each. Names are folded,
   occur once and carry at least one value.
   */
  datatype RawHeaderMap = HeaderMap(names: seq<Bytes>, fields: Multimap)
  {
    ghost predicate Valid() {
      && (forall i, j :: 0 <= i < j < |names| ==> names[i] != names[j])
      && (forall name :: name in names <==> name in fields)
      && (forall name :: name in fields ==> fields[name] != [] && Lower(name) == name)
    }
  }

  type HeaderMap = h: RawHeaderMap | h.Valid() witness HeaderMap([], map[])

  /** `get_all`: the values of a name, none when it is absent. */
  function GetAll(m: Multimap, name: Bytes): seq<Bytes> {
    if name in m then m[name] else []
  }

  /** Append one value to a header map. */
  function Append(h: HeaderMap, name: Bytes, value: Bytes): (r: HeaderMap)
    requires Lower(name) == name
    ensures r.fields == h.fields[name := GetAll(h.fields, name) + [value]]
  {
    HeaderMap(if name in h.fields then h.names else h.names + [name],
              h.fields[name := GetAll(h.fields, name) + [value]])
  }

  /** The response header map built from Envoy's list; `:status` is not a field. */
  function FromEnvoy(headers: seq<HeaderValue>): (r: HeaderMap) {
    if headers == [] then HeaderMap([], map[])
    else
      var last := headers[|headers| - 1];
      var h := FromEnvoy(headers[..|headers| - 1]);
      if last.key == ":status" then h
      else Append(h, LowerName(last.key), if last.rawValue == [] then last.value else last.rawValue)
  }

  /** The values Envoy sent for a name, in order. */
  function ValuesSent(headers: seq<HeaderValue>, name: Bytes): seq<Bytes> {
    if headers == [] then []
    else
      var last := headers[|headers| - 1];
      ValuesSent(headers[..|headers| - 1], name)
      + if last.key != ":status" && Lower(last.key) == name then [if last.rawValue == [] then last.value else last.rawValue] else []
  }

  /** Conversion keeps every value of every name, in order, names folded; only the status line is left out. */
  lemma {:induction false} ConversionKeepsValues(headers: seq<HeaderValue>, name: Bytes)
    ensures GetAll(FromEnvoy(headers).fields, name) == ValuesSent(headers, name)
  {
    if headers != [] {
      ConversionKeepsValues(headers[..|headers| - 1], name);
    }
  }

  /** The folded form of a name. */
  function LowerName(key: Bytes): (name: Bytes)
    ensures Lower(name) == name
  {
    Lower(key)
  }

  // ---------------------------------------------------------------------------
  // What Envoy does with a header mutation
  // ---------------------------------------------------------------------------

  function ApplyOption(m: Multimap, o: HeaderOption): Multimap {
    match o.action
    case OverwriteIfExistsOrAdd => m[Lower(o.key) := [o.value]]
    case AppendIfExistsOrAdd => m[Lower(o.key) := GetAll(m, Lower(o.key)) + [o.value]]
  }

  function ApplySets(m: Multimap, sets: seq<HeaderOption>): Multimap
    decreases |sets|
  {
    if sets == [] then m else ApplySets(ApplyOption(m, sets[0]), sets[1..])
  }

  function SetNames(sets: seq<HeaderOption>): set<Bytes> {
    set o | o in sets :: Lower(o.key)
  }

  function RemoveNames(removes: seq<Bytes>): set<Bytes> {
    set name | name in removes :: Lower(name)
  }

  /** Envoy removes first, then sets. */
  function Apply(m: Multimap, mutation: Option<HeaderMutation>): Multimap {
    if mutation.None? then m
    else ApplySets(m - RemoveNames(mutation.value.removeHeaders), mutation.value.setHeaders)
  }

  /** The opposite order, to state that a mutation does not depend on it. */
  function ApplySetsFirst(m: Multimap, mutation: Option<HeaderMutation>): Multimap {
    if mutation.None? then m
    else ApplySets(m, mutation.value.setHeaders) - RemoveNames(mutation.value.removeHeaders)
  }

  /** Names a mutation sets or removes. */
  function Sets(m: Option<HeaderMutation>): set<Bytes> {
    if m.None? then {} else SetNames(m.value.setHeaders)
  }

  function Removes(m: Option<HeaderMutation>): set<Bytes> {
    if m.None? then {} else RemoveNames(m.value.removeHeaders)
  }

  lemma {:induction false} ApplySetsConcat(m: Multimap, a: seq<HeaderOption>, b: seq<HeaderOption>)
    ensures ApplySets(m, a + b) == ApplySets(ApplySets(m, a), b)
    decreases |a|
  {
    if a == [] {
      assert a + b == b;
    } else {
      assert (a + b)[1..] == a[1..] + b;
      ApplySetsConcat(ApplyOption(m, a[0]), a[1..], b);
    }
  }

  /** Sets touch exactly their own names, and each name independently of all others. */
  lemma {:induction false} ApplySetsIsLocal(m: Multimap, m': Multimap, sets: seq<HeaderOption>, name: Bytes)
    requires name in m <==> name in m'
    requires name in m ==> m[name] == m'[name]
    ensures name in ApplySets(m, sets) <==> name in m || name in SetNames(sets)
    ensures name in ApplySets(m, sets) <==> name in ApplySets(m', sets)
    ensures name in ApplySets(m, sets) ==> ApplySets(m, sets)[name] == ApplySets(m', sets)[name]
    ensures name !in SetNames(sets) && name in m ==> ApplySets(m, sets)[name] == m[name]
    decreases |sets|
  {
    if sets != [] {
      ApplySetsIsLocal(ApplyOption(m, sets[0]), ApplyOption(m', sets[0]), sets[1..], name);
      assert sets == [sets[0]] + sets[1..];
      assert SetNames(sets) == {Lower(sets[0].key)} + SetNames(sets[1..]);
    }
  }

  lemma SetsCommuteWithRemoves(m: Multimap, sets: seq<HeaderOption>, names: set<Bytes>)
    requires SetNames(sets) !! names
    ensures ApplySets(m - names, sets) == ApplySets(m, sets) - names
  {
    var l, r := ApplySets(m - names, sets), ApplySets(m, sets) - names;
    forall name ensures name in l <==> name in r ensures name in l ==> l[name] == r[name] {
      if name in names {
        ApplySetsIsLocal(m - names, m - names, sets, name);
      } else {
        ApplySetsIsLocal(m - names, m, sets, name);
      }
    }
  }

  // ---------------------------------------------------------------------------
  // Response header diff
  // ---------------------------------------------------------------------------

  /** Options that make `name` carry exactly `values`: overwrite with the first, append the rest. */
  function ReplaceValues(name: Bytes, values: seq<Bytes>): seq<HeaderOption> {
    seq(|values|, i requires 0 <= i < |values| =>
      HeaderOption(name, values[i], if i == 0 then OverwriteIfExistsOrAdd else AppendIfExistsOrAdd))
  }

  /** The current value list of a name differs from the original one. */
  predicate Changed(current: Multimap, original: Multimap, name: Bytes) {
    name in current && GetAll(original, name) != current[name]
  }

  function ChangedOptions(names: seq<Bytes>, current: Multimap, original: Multimap): seq<HeaderOption> {
    if names == [] then []
    else (if Changed(current, original, names[0]) then ReplaceValues(names[0], current[names[0]]) else [])
         + ChangedOptions(names[1..], current, original)
  }

  function DroppedNames(names: seq<Bytes>, current: Multimap): seq<Bytes> {
    if names == [] then []
    else (if names[0] in current then [] else [names[0]]) + DroppedNames(names[1..], current)
  }

  /** `collect_response_header_mutations_diff`. */
  function Diff(current: HeaderMap, original: HeaderMap): Option<HeaderMutation> {
    var sets := ChangedOptions(current.names, current.fields, original.fields);
    var removes := DroppedNames(original.names, current.fields);
    if sets == [] && removes == [] then None else Some(HeaderMutation(sets, removes))
  }

  lemma {:induction false} AppendValues(m: Multimap, name: Bytes, values: seq<Bytes>, k: nat)
    requires Lower(name) == name && 0 < k <= |values|
    requires GetAll(m, name) == values[..k]
    ensures ApplySets(m, ReplaceValues(name, values)[k..]) == m[name := values]
    decreases |values| - k
  {
    var options := ReplaceValues(name, values);
    if k == |values| {
      assert values[..k] == values;
      assert m == m[name := values];
    } else {
      assert options[k..][1..] == options[k + 1..];
      assert values[..k] + [values[k]] == values[..k + 1];
      var m1 := ApplyOption(m, options[k]);
      AppendValues(m1, name, values, k + 1);
      assert m1[name := values] == m[name := values];
    }
  }

  lemma ReplaceValuesReplaces(m: Multimap, name: Bytes, values: seq<Bytes>)
    requires Lower(name) == name && values != []
    ensures ApplySets(m, ReplaceValues(name, values)) == m[name := values]
  {
    var options := ReplaceValues(name, values);
    var m1 := ApplyOption(m, options[0]);
    assert values[..1] == [values[0]];
    AppendValues(m1, name, values, 1);
    assert m1[name := values] == m[name := values];
  }

  /** After the options of a run of names, those of them that changed hold their current values. */
  lemma {:induction false} ChangedOptionsApply(
    m: Multimap, names: seq<Bytes>, current: Multimap, original: Multimap, name: Bytes)
    requires forall n :: n in names ==> n in current && current[n] != [] && Lower(n) == n
    ensures var r := ApplySets(m, ChangedOptions(names, current, original));
            if name in names && Changed(current, original, name) then name in r && r[name] == current[name]
            else (name in r <==> name in m) && (name in m ==> r[name] == m[name])
    ensures name in SetNames(ChangedOptions(names, current, original))
            <==> name in names && Changed(current, original, name)
    decreases |names|
  {
    if names != [] {
      var n, rest := names[0], names[1..];
      var head := if Changed(current, original, n) then ReplaceValues(n, current[n]) else [];
      var tail := ChangedOptions(rest, current, original);
      ApplySetsConcat(m, head, tail);
      assert SetNames(head + tail) == SetNames(head) + SetNames(tail);
      ChangedOptionsApply(ApplySets(m, head), rest, current, original, name);
      if Changed(current, original, n) {
        ReplaceValuesReplaces(m, n, current[n]);
        assert head[0] in head && SetNames(head) == {n};
      }
    }
  }

  lemma {:induction false} DroppedNamesAre(names: seq<Bytes>, current: Multimap, name: Bytes)
    requires forall n :: n in names ==> Lower(n) == n
    ensures name in RemoveNames(DroppedNames(names, current)) <==> name in names && name !in current
    decreases |names|
  {
    if names != [] {
      var head := if names[0] in current then [] else [names[0]];
      var tail := DroppedNames(names[1..], current);
      assert RemoveNames(head + tail) == RemoveNames(head) + RemoveNames(tail);
      assert names[0] !in current ==> RemoveNames(head) == {names[0]} by {
        assert names[0] !in current ==> head[0] in head;
      }
      DroppedNamesAre(names[1..], current, name);
    }
  }

  /** The names a diff sets are the changed ones, the names it removes the dropped ones. */
  lemma DiffNames(current: HeaderMap, original: HeaderMap)
    ensures Sets(Diff(current, original)) == set name | name in current.fields && Changed(current.fields, original.fields, name)
    ensures Removes(Diff(current, original)) == original.fields.Keys - current.fields.Keys
    ensures Diff(current, original).None? <==> Sets(Diff(current, original)) + Removes(Diff(current, original)) == {}
  {
    var o, c := original.fields, current.fields;
    var sets, removes := ChangedOptions(current.names, c, o), DroppedNames(original.names, c);
    forall name ensures name in SetNames(sets) <==> name in c && Changed(c, o, name) {
      ChangedOptionsApply(o, current.names, c, o, name);
    }
    forall name ensures name in RemoveNames(removes) <==> name in o && name !in c {
      DroppedNamesAre(original.names, c, name);
    }
    assert sets != [] ==> Lower(sets[0].key) in SetNames(sets);
    assert removes != [] ==> Lower(removes[0]) in RemoveNames(removes);
  }

  lemma DiffApplies(current: HeaderMap, original: HeaderMap)
    requires Diff(current, original).Some?
    ensures Apply(original.fields, Diff(current, original)) == current.fields
  {
    DiffNames(current, original);
    var o, c, d := original.fields, current.fields, Diff(current, original).value;
    var start := o - RemoveNames(d.removeHeaders);
    var r := ApplySets(start, d.setHeaders);
    forall name ensures name in r <==> name in c ensures name in r ==> r[name] == c[name] {
      ChangedOptionsApply(start, current.names, c, o, name);
    }
  }

  lemma DiffAbsent(current: HeaderMap, original: HeaderMap)
    ensures Diff(current, original).None? <==> current.fields == original.fields
  {
    DiffNames(current, original);
    var o, c, d := original.fields, current.fields, Diff(current, original);
    if d.None? {
      forall name ensures name in o <==> name in c ensures name in o ==> o[name] == c[name] {
        assert name !in Sets(d) && name !in Removes(d);
      }
      assert o == c;
    } else {
      var name :| name in Sets(d) + Removes(d);
      assert GetAll(o, name) != GetAll(c, name);
    }
  }

  /**
   The diff turns the original headers into the current ones, whichever of its two halves
   goes first; it is absent exactly when there is nothing to do, and never mentions a name
   whose value list is the same on both sides.
   */
  lemma DiffIsExact(current: HeaderMap, original: HeaderMap)
    ensures Apply(original.fields, Diff(current, original)) == current.fields
    ensures ApplySetsFirst(original.fields, Diff(current, original)) == current.fields
    ensures Diff(current, original).None? <==> current.fields == original.fields
    ensures Sets(Diff(current, original)) == set name | name in current.fields && Changed(current.fields, original.fields, name)
    ensures Removes(Diff(current, original)) == original.fields.Keys - current.fields.Keys
  {
    DiffNames(current, original);
    DiffAbsent(current, original);
    var d := Diff(current, original);
    if d.Some? {
      DiffApplies(current, original);
      SetsCommuteWithRemoves(original.fields, d.value.setHeaders, Removes(d));
    }
  }

  // ---------------------------------------------------------------------------
  // Merging a deferred mutation with a later one
  // ---------------------------------------------------------------------------

  /** `merge_mutations`: plain concatenation. */
  function Merge(deferred: Option<HeaderMutation>, current: Option<HeaderMutation>): Option<HeaderMutation> {
    match (deferred, current)
    case (None, c) => c
    case (d, None) => d
    case (Some(d), Some(c)) =>
      Some(HeaderMutation(d.setHeaders + c.setHeaders, d.removeHeaders + c.removeHeaders))
  }

  /**
   Concatenation is composition exactly when the later mutation removes no header that the
   deferred one set; otherwise Envoy, removing first, keeps the header alive. The later
   mutation is a diff, so it never sets and removes the same name.
   */
  lemma MergeComposesIff(m: Multimap, deferred: Option<HeaderMutation>, current: Option<HeaderMutation>)
    requires Sets(current) !! Removes(current)
    ensures Apply(m, Merge(deferred, current)) == Apply(Apply(m, deferred), current)
            <==> Sets(deferred) !! Removes(current)
  {
    if deferred.Some? && current.Some? {
      var d, c := deferred.value, current.value;
      var early := m - RemoveNames(d.removeHeaders);
      assert RemoveNames(d.removeHeaders + c.removeHeaders)
          == RemoveNames(d.removeHeaders) + RemoveNames(c.removeHeaders);
      assert m - RemoveNames(d.removeHeaders + c.removeHeaders) == early - RemoveNames(c.removeHeaders);
      var start := early - RemoveNames(c.removeHeaders);
      ApplySetsConcat(start, d.setHeaders, c.setHeaders);
      var merged := ApplySets(ApplySets(start, d.setHeaders), c.setHeaders);
      var composed := ApplySets(ApplySets(early, d.setHeaders) - RemoveNames(c.removeHeaders), c.setHeaders);
      if Sets(deferred) !! Removes(current) {
        SetsCommuteWithRemoves(early, d.setHeaders, RemoveNames(c.removeHeaders));
      } else {
        var name :| name in Sets(deferred) && name in Removes(current);
        ApplySetsIsLocal(start, start, d.setHeaders, name);
        ApplySetsIsLocal(ApplySets(start, d.setHeaders), ApplySets(start, d.setHeaders), c.setHeaders, name);
        var removed := ApplySets(early, d.setHeaders) - RemoveNames(c.removeHeaders);
        ApplySetsIsLocal(removed, removed, c.setHeaders, name);
        assert name in merged && name !in composed;
      }
    }
  }

  /**
   Two response phases over the same headers: the merged mutation takes the headers Envoy
   holds to the final ones iff the second phase dropped no header the first one changed.
   */
  lemma MergedDiffsReachFinal(h0: HeaderMap, h1: HeaderMap, h2: HeaderMap)
    ensures Apply(h0.fields, Merge(Diff(h1, h0), Diff(h2, h1))) == h2.fields
            <==> (forall name :: name in h1.fields && name !in h2.fields ==> !Changed(h1.fields, h0.fields, name))
  {
    DiffIsExact(h1, h0);
    DiffIsExact(h2, h1);
    var d, c := Diff(h1, h0), Diff(h2, h1);
    MergeComposesIff(h0.fields, d, c);
    assert forall name :: name in Removes(c) <==> name in h1.fields && name !in h2.fields;
    assert forall name :: name in Sets(d) <==> name in h1.fields && Changed(h1.fields, h0.fields, name);
    assert Sets(d) !! Removes(c) <==> forall name :: name in Removes(c) ==> name !in Sets(d);
  }

  /** A name has the same values in both maps, or is in neither. */
  predicate SameAt(a: Multimap, b: Multimap, name: Bytes) {
    (name in a <==> name in b) && (name in a ==> a[name] == b[name])
  }

  function Parts(m: Option<HeaderMutation>): HeaderMutation {
    if m.Some? then m.value else HeaderMutation([], [])
  }

  /** Applying a merged mutation: all removals, then the early sets, then the late ones. */
  lemma MergeApplies(m: Multimap, deferred: Option<HeaderMutation>, current: Option<HeaderMutation>)
    ensures Apply(m, Merge(deferred, current))
            == ApplySets(ApplySets(m - Removes(deferred) - Removes(current), Parts(deferred).setHeaders), Parts(current).setHeaders)
  {
    var d, c := Parts(deferred), Parts(current);
    assert m - {} == m && m - Removes(deferred) - {} == m - Removes(deferred);
    ApplySetsConcat(m - Removes(deferred) - Removes(current), d.setHeaders, c.setHeaders);
    if deferred.Some? && current.Some? {
      assert RemoveNames(d.removeHeaders + c.removeHeaders) == Removes(deferred) + Removes(current);
      assert m - RemoveNames(d.removeHeaders + c.removeHeaders) == m - Removes(deferred) - Removes(current);
    }
  }

  lemma ApplyInParts(m: Multimap, mutation: Option<HeaderMutation>)
    ensures Apply(m, mutation) == ApplySets(m - Removes(mutation), Parts(mutation).setHeaders)
    ensures Sets(mutation) == SetNames(Parts(mutation).setHeaders)
  {
    assert m - {} == m;
  }

  /**
   Name by name, merged diffs of two phases reach the final value exactly when the second phase
   did not drop a header the first one changed.
   */
  lemma MergedDiffsReachFinalAt(h0: HeaderMap, h1: HeaderMap, h2: HeaderMap, name: Bytes)
    ensures SameAt(Apply(h0.fields, Merge(Diff(h1, h0), Diff(h2, h1))), h2.fields, name)
            <==> !(name in h1.fields && name !in h2.fields && Changed(h1.fields, h0.fields, name))
  {
    var d, c := Diff(h1, h0), Diff(h2, h1);
    DiffIsExact(h1, h0);
    DiffIsExact(h2, h1);
    MergeApplies(h0.fields, d, c);
    ApplyInParts(h0.fields, d);
    ApplyInParts(h1.fields, c);
    hide Diff, Merge, Apply, Parts, ApplySets, Sets, Removes;
    var early, start := h0.fields - Removes(d), h0.fields - Removes(d) - Removes(c);
    var ds, cs := Parts(d).setHeaders, Parts(c).setHeaders;
    ApplySetsIsLocal(start, start, ds, name);
    var merged := ApplySets(start, ds);
    if name in Removes(c) {
      ApplySetsIsLocal(merged, merged, cs, name);
    } else {
      ApplySetsIsLocal(start, early, ds, name);
      ApplySetsIsLocal(merged, h1.fields - Removes(c), cs, name);
    }
  }

  /** Concatenation loses a removal: set `x` early, remove it later, and `x` survives. */
  lemma MergeCanResurrect()
    ensures exists h0: HeaderMap, h1: HeaderMap, h2: HeaderMap ::
              Apply(h0.fields, Merge(Diff(h1, h0), Diff(h2, h1))) != h2.fields
  {
    assert Lower("x") == "x";
    var fields: Multimap := map["x" := ["1"]];
    var h0: HeaderMap, h1: HeaderMap, h2: HeaderMap := HeaderMap([], map[]), HeaderMap(["x"], fields), HeaderMap([], map[]);
    assert Changed(h1.fields, h0.fields, "x") && "x" !in h2.fields;
    MergedDiffsReachFinal(h0, h1, h2);
  }

  // ---------------------------------------------------------------------------
  // Content length
  // ---------------------------------------------------------------------------

  const CONTENT_LENGTH: Bytes := "content-length"

  predicate IsContentLength(key: Bytes) {
    Lower(key) == CONTENT_LENGTH
  }

  function Digit(n: nat): char
    requires n < 10
  {
    '0' + n as char
  }

  /** Decimal text of a length. */
  function Decimal(n: nat): Bytes {
    if n < 10 then [Digit(n)] else Decimal(n / 10) + [Digit(n % 10)]
  }

  /** The number a decimal text denotes. */
  function DecimalValue(s: Bytes): int {
    if s == [] then 0 else 10 * DecimalValue(s[..|s| - 1]) + (s[|s| - 1] as int - '0' as int)
  }

  lemma {:induction false} DecimalRoundTrip(n: nat)
    ensures DecimalValue(Decimal(n)) == n
  {
    if n >= 10 {
      DecimalRoundTrip(n / 10);
      assert Decimal(n)[..|Decimal(n)| - 1] == Decimal(n / 10);
    } else {
      assert Decimal(n)[..0] == [];
    }
  }

  /** The options that do not set `content-length`, in order. */
  function WithoutLength(sets: seq<HeaderOption>): seq<HeaderOption> {
    if sets == [] then []
    else
      var last := sets[|sets| - 1];
      WithoutLength(sets[..|sets| - 1]) + if IsContentLength(last.key) then [] else [last]
  }

  /** What `set_content_length` leaves behind. */
  function LengthSet(mutation: Option<HeaderMutation>, len: nat): HeaderMutation {
    var base := if mutation.Some? then mutation.value else HeaderMutation([], []);
    HeaderMutation(
      WithoutLength(base.setHeaders) + [HeaderOption(CONTENT_LENGTH, Decimal(len), OverwriteIfExistsOrAdd)],
      base.removeHeaders)
  }

  /** `set_content_length`: drop every prior entry in place, then push the new one. */
  method SetContentLength(mutation: Option<HeaderMutation>, len: nat) returns (r: HeaderMutation)
    ensures r == LengthSet(mutation, len)
  {
    r := if mutation.Some? then mutation.value else HeaderMutation([], []);
    var kept: seq<HeaderOption> := [];
    for i := 0 to |r.setHeaders|
      invariant kept == WithoutLength(r.setHeaders[..i])
    {
      assert r.setHeaders[..i + 1][..i] == r.setHeaders[..i];
      if !IsContentLength(r.setHeaders[i].key) {
        kept := kept + [r.setHeaders[i]];
      }
    }
    assert r.setHeaders[..|r.setHeaders|] == r.setHeaders;
    r := r.(setHeaders := kept + [HeaderOption(CONTENT_LENGTH, Decimal(len), OverwriteIfExistsOrAdd)]);
  }

  /** `with_content_length`: correct the declared size when the emitted body was resized. */
  function WithContentLength(mutation: Option<HeaderMutation>, body: Bytes, originalLen: nat): Option<HeaderMutation> {
    if |body| != originalLen then Some(LengthSet(mutation, |body|)) else mutation
  }

  lemma {:induction false} WithoutLengthKeeps(m: Multimap, sets: seq<HeaderOption>, name: Bytes)
    ensures CONTENT_LENGTH !in SetNames(WithoutLength(sets))
    ensures name != CONTENT_LENGTH ==>
              && (name in ApplySets(m, WithoutLength(sets)) <==> name in ApplySets(m, sets))
              && (name in ApplySets(m, sets) ==> ApplySets(m, WithoutLength(sets))[name] == ApplySets(m, sets)[name])
    decreases |sets|
  {
    if sets != [] {
      var init, last := sets[..|sets| - 1], sets[|sets| - 1];
      assert sets == init + [last];
      WithoutLengthKeeps(m, init, name);
      ApplySetsConcat(m, init, [last]);
      if !IsContentLength(last.key) {
        ApplySetsConcat(m, WithoutLength(init), [last]);
        assert SetNames(WithoutLength(init) + [last]) == SetNames(WithoutLength(init)) + {Lower(last.key)};
        if name != CONTENT_LENGTH {
          ApplySetsIsLocal(ApplySets(m, WithoutLength(init)), ApplySets(m, init), [last], name);
        }
      } else {
        assert WithoutLength(init) + [] == WithoutLength(init);
        ApplySetsIsLocal(ApplySets(m, init), ApplySets(m, init), [last], name);
        assert SetNames([last]) == {CONTENT_LENGTH} by { assert last in [last]; }
      }
    }
  }

  /** The mutation leaves `content-length` to Envoy. */
  predicate LeavesLength(mutation: Option<HeaderMutation>) {
    CONTENT_LENGTH !in Sets(mutation) + Removes(mutation)
  }

  /** Headers that declare exactly `len`. */
  predicate Declares(m: Multimap, len: nat) {
    CONTENT_LENGTH in m && m[CONTENT_LENGTH] == [Decimal(len)] && DecimalValue(m[CONTENT_LENGTH][0]) == len
  }

  /**
   `sent` declares `len` to whoever holds the headers `m`, and otherwise does what `asked` does.
   If it corrects the length, it has exactly one entry for it, the last, and keeps the order of
   the others; if not, it is what was asked for.
   */
  predicate SendsLength(m: Multimap, asked: Option<HeaderMutation>, sent: Option<HeaderMutation>, len: nat, corrects: bool) {
    && Declares(Apply(m, sent), len)
    && Apply(m, sent) - {CONTENT_LENGTH} == Apply(m, asked) - {CONTENT_LENGTH}
    && (!corrects ==> sent == asked)
    && (corrects ==>
          && sent.Some? && sent.value.setHeaders != []
          && var sets := sent.value.setHeaders;
             && IsContentLength(sets[|sets| - 1].key) && CONTENT_LENGTH !in SetNames(sets[..|sets| - 1])
             && sets[..|sets| - 1] == WithoutLength(if asked.Some? then asked.value.setHeaders else []))
  }

  /**
   Declared length equals emitted length. When the headers Envoy holds declare the original
   size and the filters left `content-length` alone, the mutated headers declare exactly the
   emitted size, and every other name ends up as the filters wanted. A resized body needs no
   such assumption.
   */
  lemma DeclaredLengthIsEmittedLength(m: Multimap, mutation: Option<HeaderMutation>, body: Bytes, originalLen: nat)
    requires |body| == originalLen ==> Declares(m, originalLen) && LeavesLength(mutation)
    ensures SendsLength(m, mutation, WithContentLength(mutation, body, originalLen), |body|, |body| != originalLen)
  {
    DecimalRoundTrip(|body|);
    if |body| != originalLen {
      LengthSetSends(m, mutation, |body|);
    } else if mutation.Some? {
      var start := m - RemoveNames(mutation.value.removeHeaders);
      ApplySetsIsLocal(start, start, mutation.value.setHeaders, CONTENT_LENGTH);
    }
  }

  lemma LengthSetSends(m: Multimap, mutation: Option<HeaderMutation>, len: nat)
    ensures SendsLength(m, mutation, Some(LengthSet(mutation, len)), len, true)
  {
    hide Decimal, DecimalValue, Lower;
    DecimalRoundTrip(len);
    var base := if mutation.Some? then mutation.value else HeaderMutation([], []);
    var start := m - RemoveNames(base.removeHeaders);
    assert mutation.None? ==> start == m && Apply(m, mutation) == ApplySets(start, base.setHeaders);
    var kept := WithoutLength(base.setHeaders);
    var option := HeaderOption(CONTENT_LENGTH, Decimal(len), OverwriteIfExistsOrAdd);
    assert (kept + [option])[..|kept|] == kept;
    LengthIsLower();
    ApplySetsConcat(start, kept, [option]);
    var r, filtered := Apply(m, Some(LengthSet(mutation, len))), ApplySets(start, base.setHeaders);
    assert r == ApplySets(start, kept)[CONTENT_LENGTH := [Decimal(len)]];
    forall name ensures name != CONTENT_LENGTH ==> (name in r <==> name in filtered) && (name in r ==> r[name] == filtered[name])
            ensures CONTENT_LENGTH !in SetNames(kept)
    {
      WithoutLengthKeeps(start, base.setHeaders, name);
    }
    assert r - {CONTENT_LENGTH} == filtered - {CONTENT_LENGTH};
  }

  lemma LengthIsLower()
    ensures Lower(CONTENT_LENGTH) == CONTENT_LENGTH
  {
  }

  // ---------------------------------------------------------------------------
  // Route cache
  // ---------------------------------------------------------------------------

  /** `mutation_affects_routing`. */
  predicate AffectsRouting(mutation: Option<HeaderMutation>) {
    mutation.Some?
    && (mutation.value.removeHeaders != []
        || exists o :: o in mutation.value.setHeaders && !IsContentLength(o.key))
  }

  /** Whatever headers Envoy holds, the mutation changes no header but `content-length`. */
  ghost predicate ChangesOnlyLength(mutation: Option<HeaderMutation>) {
    forall m :: Apply(m, mutation) - {CONTENT_LENGTH} == m - {CONTENT_LENGTH}
  }

  /**
   The route cache is kept only if no other header can change. It is cleared exactly when some
   header other than `content-length` can change or `content-length` itself is removed: the
   code asks whether anything is removed at all, so removing only the length clears it too.
   */
  lemma RouteCacheClearedIff(mutation: Option<HeaderMutation>)
    ensures ChangesOnlyLength(mutation) <==> Sets(mutation) + Removes(mutation) <= {CONTENT_LENGTH}
    ensures AffectsRouting(mutation) <==> !ChangesOnlyLength(mutation) || CONTENT_LENGTH in Removes(mutation)
  {
    if Sets(mutation) + Removes(mutation) <= {CONTENT_LENGTH} {
      LengthOnlyIsLocal(mutation);
    } else {
      var name :| name in Sets(mutation) + Removes(mutation) && name != CONTENT_LENGTH;
      OtherNameChanges(mutation, name);
    }
    AffectsRoutingNames(mutation);
  }

  lemma AffectsRoutingNames(mutation: Option<HeaderMutation>)
    ensures AffectsRouting(mutation) <==> Removes(mutation) != {} || !(Sets(mutation) <= {CONTENT_LENGTH})
  {
    if mutation.Some? {
      var removes, sets := mutation.value.removeHeaders, mutation.value.setHeaders;
      assert removes != [] ==> Lower(removes[0]) in Removes(mutation);
      assert forall o :: o in sets ==> Lower(o.key) in Sets(mutation);
    }
  }

  lemma LengthOnlyIsLocal(mutation: Option<HeaderMutation>)
    requires Sets(mutation) + Removes(mutation) <= {CONTENT_LENGTH}
    ensures ChangesOnlyLength(mutation)
  {
    if mutation.Some? {
      forall m ensures Apply(m, mutation) - {CONTENT_LENGTH} == m - {CONTENT_LENGTH} {
        var start := m - RemoveNames(mutation.value.removeHeaders);
        var r := ApplySets(start, mutation.value.setHeaders);
        forall name | name != CONTENT_LENGTH
          ensures name in r <==> name in m
          ensures name in r ==> r[name] == m[name]
        {
          assert name !in Sets(mutation) + Removes(mutation);
          ApplySetsIsLocal(start, start, mutation.value.setHeaders, name);
        }
      }
    }
  }

  /** A name that is set appears where there was none; one that is only removed disappears. */
  lemma OtherNameChanges(mutation: Option<HeaderMutation>, name: Bytes)
    requires name in Sets(mutation) + Removes(mutation) && name != CONTENT_LENGTH
    ensures !ChangesOnlyLength(mutation)
  {
    var removes, sets := RemoveNames(mutation.value.removeHeaders), mutation.value.setHeaders;
    var m: Multimap := if name in Sets(mutation) then map[] else map[name := [[]]];
    ApplySetsIsLocal(m - removes, m - removes, sets, name);
    var r := Apply(m, mutation);
    assert name in r - {CONTENT_LENGTH} <==> name !in m - {CONTENT_LENGTH};
  }
}
