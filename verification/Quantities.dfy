/**
 Kubernetes quantities for the gRPC message limit (`src/grpc_limits.rs`).
 */
module Quantities {
  import opened Wire
  import opened HeaderMaps

  const U128_MAX: nat := 0xFFFF_FFFF_FFFF_FFFF_FFFF_FFFF_FFFF_FFFF

  const DEFAULT_SIZE: nat := 32 * 1024 * 1024 + 1024 * 1024

  /** Suffixes in scan order. */
  const SUFFIXES: seq<(Bytes, nat)> := [
    ("Ki", 1024), ("Mi", 1024 * 1024), ("Gi", 1024 * 1024 * 1024),
    ("K", 1000), ("k", 1000), ("M", 1000 * 1000), ("G", 1000 * 1000 * 1000)]

  datatype Parsed = Size(bytes: nat) | Malformed | Overflow | NotPositive

  predicate EndsWith(s: Bytes, suffix: Bytes) {
    |suffix| <= |s| && s[|s| - |suffix|..] == suffix
  }

  /** The bytes are one Unicode white space character in UTF-8. */
  predicate IsSpace(s: Bytes) {
    || (|s| == 1 && ('\t' <= s[0] <= '\r' || s[0] == ' '))
    || (|s| == 2 && s[0] as int == 0xC2 && (s[1] as int == 0x85 || s[1] as int == 0xA0))
    || (|s| == 3 && ThreeByteSpace(s[0] as int, s[1] as int, s[2] as int))
  }

  /** The Ogham space, the general punctuation spaces and separators, and the ideographic space. */
  predicate ThreeByteSpace(a: int, b: int, c: int) {
    || (a == 0xE1 && b == 0x9A && c == 0x80)
    || (a == 0xE2 && b == 0x80 && (0x80 <= c <= 0x8A || c == 0xA8 || c == 0xA9 || c == 0xAF))
    || (a == 0xE2 && b == 0x81 && c == 0x9F)
    || (a == 0xE3 && b == 0x80 && c == 0x80)
  }

  /** Length of the white space character a text starts or ends with, zero if it does not. */
  function SpaceAtStart(s: Bytes): (n: nat)
    ensures n <= |s|
    ensures n > 0 ==> IsSpace(s[..n])
  {
    if |s| >= 1 && IsSpace(s[..1]) then 1
    else if |s| >= 2 && IsSpace(s[..2]) then 2
    else if |s| >= 3 && IsSpace(s[..3]) then 3 else 0
  }

  function SpaceAtEnd(s: Bytes): (n: nat)
    ensures n <= |s|
    ensures n > 0 ==> IsSpace(s[|s| - n..])
  {
    if |s| >= 1 && IsSpace(s[|s| - 1..]) then 1
    else if |s| >= 2 && IsSpace(s[|s| - 2..]) then 2
    else if |s| >= 3 && IsSpace(s[|s| - 3..]) then 3 else 0
  }

  /** `trim`, over the Unicode white space characters. */
  function Trim(s: Bytes): Bytes
    decreases |s|
  {
    if SpaceAtStart(s) > 0 then Trim(s[SpaceAtStart(s)..])
    else if SpaceAtEnd(s) > 0 then Trim(s[..|s| - SpaceAtEnd(s)])
    else s
  }

  function StripPlus(s: Bytes): Bytes {
    if s != [] && s[0] == '+' then s[1..] else s
  }

  predicate IsDigit(c: char) {
    '0' <= c <= '9'
  }

  predicate AllDigits(s: Bytes) {
    forall i :: 0 <= i < |s| ==> IsDigit(s[i])
  }

  /** The number a digit string denotes. */
  function DigitsValue(s: Bytes): nat
    requires AllDigits(s)
  {
    if s == [] then 0 else 10 * DigitsValue(s[..|s| - 1]) + (s[|s| - 1] as int - '0' as int)
  }

  function Pow10(k: nat): (p: nat)
    ensures p > 0
  {
    if k == 0 then 1 else 10 * Pow10(k - 1)
  }

  function IndexOf(s: Bytes, c: char): (i: nat)
    ensures i <= |s|
    ensures forall j :: 0 <= j < i ==> s[j] != c
    ensures i < |s| ==> s[i] == c
  {
    if s == [] || s[0] == c then 0 else 1 + IndexOf(s[1..], c)
  }

  /** `split_decimal_parts`: integer and fraction digits around the first dot. */
  function SplitDecimal(num: Bytes): Option<(Bytes, Bytes)> {
    var dot := IndexOf(num, '.');
    var integer := num[..dot];
    var fraction := if dot < |num| then num[dot + 1..] else [];
    if (integer == [] && fraction == []) || !AllDigits(integer) || !AllDigits(fraction) then None
    else Some((integer, fraction))
  }

  // ---------------------------------------------------------------------------
  // Exact meaning
  // ---------------------------------------------------------------------------

  /** `(I + F / 10^k) * mul`, times `10^k`. */
  function Scaled(integer: nat, scale: nat, fractional: nat, mul: nat): nat {
    (integer * scale + fractional) * mul
  }

  /** Rounding up. */
  function Ceiling(a: nat, b: nat): nat
    requires b > 0
  {
    (a + b - 1) / b
  }

  lemma DivisionIs(a: nat, b: nat, q: nat, r: nat)
    requires b > 0 && r < b && a == q * b + r
    ensures a / b == q
  {
    var d := a / b;
    assert a == d * b + a % b;
    assert d < q ==> (d + 1) * b <= q * b;
    assert d > q ==> (q + 1) * b <= d * b;
  }

  lemma CeilingCases(a: nat, b: nat)
    requires b > 0
    ensures Ceiling(a, b) == a / b + (if a % b == 0 then 0 else 1)
  {
    var q, r := a / b, a % b;
    if r == 0 {
      DivisionIs(a + b - 1, b, q, b - 1);
    } else {
      assert (q + 1) * b == q * b + b;
      DivisionIs(a + b - 1, b, q + 1, r - 1);
    }
  }

  lemma MulMonotone(x: nat, y: nat, b: nat)
    requires x <= y
    ensures x * b <= y * b
  {
    assert y * b == x * b + (y - x) * b;
  }

  /** `Ceiling` is the least whole number of bytes that covers the exact value. */
  lemma CeilingIsLeast(a: nat, b: nat, v: nat)
    requires b > 0
    ensures v * b >= a <==> v >= Ceiling(a, b)
  {
    CeilingCases(a, b);
    var q, r := a / b, a % b;
    assert a == q * b + r;
    if v >= q + 1 {
      MulMonotone(q + 1, v, b);
      assert (q + 1) * b == q * b + b;
    } else {
      MulMonotone(v, q, b);
      if v < q {
        MulMonotone(v + 1, q, b);
        assert (v + 1) * b == v * b + b;
      }
    }
  }

  /**
   What a suffixed number means: the exact value rounded up to whole bytes, refused when it
   is zero, when it does not fit the machine word, or when the scaled value or its scale
   does not fit 128 bits.
   */
  function QuantityOf(num: Bytes, mul: nat): Parsed {
    match SplitDecimal(StripPlus(num))
    case None => Malformed
    case Some((integer, fraction)) =>
      var scale := Pow10(|fraction|);
      var scaled := Scaled(DigitsValue(integer), scale, DigitsValue(fraction), mul);
      if |fraction| > 38 || scaled > U128_MAX then Overflow
      else if scaled == 0 then NotPositive
      else if Ceiling(scaled, scale) > USIZE_MAX then Overflow
      else Size(Ceiling(scaled, scale))
  }

  /** The number part of a string that ends with suffix `k`. */
  function NumberPart(raw: Bytes, k: nat): Bytes
    requires k < |SUFFIXES| && EndsWith(raw, SUFFIXES[k].0)
  {
    Trim(raw[..|raw| - |SUFFIXES[k].0|])
  }

  /** At most one suffix fits any string, so the scan order does not matter. */
  lemma SuffixIsUnique(raw: Bytes, j: nat, k: nat)
    requires j < |SUFFIXES| && k < |SUFFIXES|
    requires EndsWith(raw, SUFFIXES[j].0) && EndsWith(raw, SUFFIXES[k].0)
    ensures j == k
  {
    var n := |raw|;
    var s, t := SUFFIXES[j].0, SUFFIXES[k].0;
    assert s[|s| - 1] == raw[n - 1] == t[|t| - 1];
    if s[|s| - 1] == 'i' {
      assert j < 3 && k < 3;
      assert s[0] == raw[n - 2] == t[0];
    } else {
      assert 3 <= j && 3 <= k && s == [raw[n - 1]] == t;
    }
  }

  // ---------------------------------------------------------------------------
  // The checked computation
  // ---------------------------------------------------------------------------

  function CheckedMul(a: nat, b: nat): Option<nat> {
    if a * b <= U128_MAX then Some(a * b) else None
  }

  function CheckedAdd(a: nat, b: nat): Option<nat> {
    if a + b <= U128_MAX then Some(a + b) else None
  }

  /** `parse_u128_or_zero`. */
  function ParseU128(integer: Bytes): Option<nat>
    requires AllDigits(integer)
  {
    if DigitsValue(integer) <= U128_MAX then Some(DigitsValue(integer)) else None
  }

  lemma {:induction false} Pow10Monotone(a: nat, b: nat)
    requires a <= b
    ensures 1 <= Pow10(a) <= Pow10(b)
    decreases b
  {
    if b > 0 && a < b {
      Pow10Monotone(a, b - 1);
    } else if a > 0 {
      Pow10Monotone(a - 1, a - 1);
    }
  }

  /** The scale fits 128 bits exactly up to 38 digits. */
  lemma ScaleFitsIff(k: nat)
    ensures Pow10(k) <= U128_MAX <==> k <= 38
  {
    assert Pow10(10) == 10_000_000_000;
    assert Pow10(20) == 100_000_000_000_000_000_000;
    assert Pow10(30) == 1_000_000_000_000_000_000_000_000_000_000;
    assert Pow10(38) == 100_000_000_000_000_000_000_000_000_000_000_000_000;
    if k <= 38 {
      Pow10Monotone(k, 38);
    } else {
      Pow10Monotone(39, k);
    }
  }

  lemma {:induction false} DigitsBelowScale(s: Bytes)
    requires AllDigits(s)
    ensures DigitsValue(s) < Pow10(|s|)
  {
    if s != [] {
      DigitsBelowScale(s[..|s| - 1]);
    }
  }

  /** `fractional_digits`: fails exactly when the scale does not fit. */
  method FractionalDigits(fraction: Bytes) returns (r: Option<(nat, nat)>)
    requires AllDigits(fraction)
    ensures r == if |fraction| <= 38 then Some((Pow10(|fraction|), DigitsValue(fraction))) else None
  {
    var scale, fractional := 1, 0;
    for i := 0 to |fraction|
      invariant scale == Pow10(i) <= U128_MAX
      invariant fractional == DigitsValue(fraction[..i])
    {
      ScaleFitsIff(i + 1);
      assert fraction[..i + 1][..i] == fraction[..i];
      DigitsBelowScale(fraction[..i + 1]);
      var nextScale := CheckedMul(scale, 10);
      if nextScale.None? {
        return None;
      }
      scale := nextScale.value;
      var shifted := CheckedMul(fractional, 10);
      if shifted.None? {
        return None;
      }
      var next := CheckedAdd(shifted.value, fraction[i] as int - '0' as int);
      if next.None? {
        return None;
      }
      fractional := next.value;
    }
    ScaleFitsIff(|fraction|);
    assert fraction[..|fraction|] == fraction;
    return Some((scale, fractional));
  }

  /** `scale_and_ceil`; the last checked addition is kept although it never fails. */
  function ScaleAndCeil(integer: nat, scale: nat, fractional: nat, mul: nat): Option<nat>
    requires scale > 0
  {
    match CheckedMul(integer, scale)
    case None => None
    case Some(product) =>
      match CheckedAdd(product, fractional)
      case None => None
      case Some(sum) =>
        match CheckedMul(sum, mul)
        case None => None
        case Some(scaled) => if scaled % scale == 0 then Some(scaled / scale) else CheckedAdd(scaled / scale, 1)
  }

  /**
   The checked chain fails exactly when the exact scaled value exceeds 128 bits: no earlier
   intermediate can overflow alone, and rounding up never does.
   */
  lemma ScaleAndCeilIsExact(integer: nat, scale: nat, fractional: nat, mul: nat)
    requires scale > 0 && mul > 0
    ensures var scaled := Scaled(integer, scale, fractional, mul);
            ScaleAndCeil(integer, scale, fractional, mul)
            == if scaled <= U128_MAX then Some(Ceiling(scaled, scale)) else None
  {
    var product := integer * scale;
    var sum := product + fractional;
    var scaled := sum * mul;
    MulGrows(sum, mul);
    CeilingCases(scaled, scale);
    if scaled % scale != 0 {
      HalvingLeavesRoom(scaled, scale);
    }
    assert scaled <= U128_MAX ==> CheckedMul(integer, scale) == Some(product) && CheckedAdd(product, fractional) == Some(sum);
    assert CheckedMul(sum, mul) == if scaled <= U128_MAX then Some(scaled) else None;
  }

  lemma HalvingLeavesRoom(a: nat, b: nat)
    requires b > 0 && a % b != 0
    ensures a / b + 1 <= a
  {
    var q, r := a / b, a % b;
    assert a == q * b + r;
    assert q * b >= q by { MulGrows(q, b); }
  }

  lemma MulGrows(q: nat, b: nat)
    requires b > 0
    ensures q * b >= q
  {
    assert q * b == q + q * (b - 1);
  }

  /** `parse_decimal_quantity` followed by the range checks of `parse_k8s_quantity`. */
  method ParseNumber(num: Bytes, mul: nat) returns (r: Parsed)
    requires mul > 0
    ensures r == QuantityOf(num, mul)
  {
    var parts := SplitDecimal(StripPlus(num));
    if parts.None? {
      return Malformed;
    }
    var (integer, fraction) := parts.value;
    Pow10Monotone(0, |fraction|);
    ghost var scaled := Scaled(DigitsValue(integer), Pow10(|fraction|), DigitsValue(fraction), mul);
    ScaleAndCeilIsExact(DigitsValue(integer), Pow10(|fraction|), DigitsValue(fraction), mul);
    var i := ParseU128(integer);
    if i.None? {
      ScaledAtLeast(DigitsValue(integer), Pow10(|fraction|), DigitsValue(fraction), mul);
      return Overflow;
    }
    var f := FractionalDigits(fraction);
    if f.None? {
      return Overflow;
    }
    var bytes := ScaleAndCeil(i.value, f.value.0, f.value.1, mul);
    if bytes.None? {
      return Overflow;
    }
    CeilingIsLeast(scaled, Pow10(|fraction|), 0);
    if bytes.value == 0 {
      return NotPositive;
    }
    if bytes.value > USIZE_MAX {
      return Overflow;
    }
    return Size(bytes.value);
  }

  lemma ScaledAtLeast(integer: nat, scale: nat, fractional: nat, mul: nat)
    requires scale > 0 && mul > 0
    ensures Scaled(integer, scale, fractional, mul) >= integer
  {
    MulGrows(integer, scale);
    MulGrows(integer * scale + fractional, mul);
  }

  /** `parse_k8s_quantity`: scan the suffixes, longer first. */
  method ParseQuantity(raw: Bytes) returns (r: Parsed)
    ensures (forall k :: 0 <= k < |SUFFIXES| ==> !EndsWith(raw, SUFFIXES[k].0)) ==> r == Malformed
    ensures forall k :: 0 <= k < |SUFFIXES| && EndsWith(raw, SUFFIXES[k].0) ==>
              r == QuantityOf(NumberPart(raw, k), SUFFIXES[k].1)
  {
    for k := 0 to |SUFFIXES|
      invariant forall j :: 0 <= j < k ==> !EndsWith(raw, SUFFIXES[j].0)
    {
      if EndsWith(raw, SUFFIXES[k].0) {
        r := ParseNumber(NumberPart(raw, k), SUFFIXES[k].1);
        forall j | 0 <= j < |SUFFIXES| && EndsWith(raw, SUFFIXES[j].0) ensures j == k {
          SuffixIsUnique(raw, j, k);
        }
        return;
      }
    }
    return Malformed;
  }

  // ---------------------------------------------------------------------------
  // Resolution
  // ---------------------------------------------------------------------------

  /** Parsing a machine word: optional plus sign, digits, no overflow. */
  function PlainInteger(raw: Bytes): Option<nat> {
    var digits := StripPlus(raw);
    if digits == [] || !AllDigits(digits) || DigitsValue(digits) > USIZE_MAX then None else Some(DigitsValue(digits))
  }

  /** `resolve_grpc_max_recv_msg_size_from`. */
  method Resolve(raw: Option<Bytes>) returns (r: Parsed)
    ensures raw.None? || Trim(raw.value) == [] ==> r == Size(DEFAULT_SIZE)
    ensures raw.Some? && Trim(raw.value) != [] ==>
              match PlainInteger(Trim(raw.value)) {
                case Some(n) => r == if n == 0 then NotPositive else Size(n)
                case None =>
                  && ((forall k :: 0 <= k < |SUFFIXES| ==> !EndsWith(Trim(raw.value), SUFFIXES[k].0)) ==> r == Malformed)
                  && forall k :: 0 <= k < |SUFFIXES| && EndsWith(Trim(raw.value), SUFFIXES[k].0) ==>
                       r == QuantityOf(NumberPart(Trim(raw.value), k), SUFFIXES[k].1)
              }
    ensures r.Size? ==> 0 < r.bytes <= USIZE_MAX
  {
    if raw.None? || Trim(raw.value) == [] {
      return Size(DEFAULT_SIZE);
    }
    var text := Trim(raw.value);
    var n := PlainInteger(text);
    if n.Some? {
      return if n.value == 0 then NotPositive else Size(n.value);
    }
    r := ParseQuantity(text);
    if r.Size? {
      var k :| 0 <= k < |SUFFIXES| && EndsWith(text, SUFFIXES[k].0);
      SizeInRange(NumberPart(text, k), SUFFIXES[k].1);
    }
  }

  lemma SizeInRange(num: Bytes, mul: nat)
    requires QuantityOf(num, mul).Size?
    ensures 0 < QuantityOf(num, mul).bytes <= USIZE_MAX
  {
    var parts := SplitDecimal(StripPlus(num)).value;
    var scale := Pow10(|parts.1|);
    Pow10Monotone(0, |parts.1|);
    CeilingIsLeast(Scaled(DigitsValue(parts.0), scale, DigitsValue(parts.1), mul), scale, 0);
  }

  lemma {:induction false} DecimalDigits(n: nat)
    ensures AllDigits(Decimal(n)) && Decimal(n) != [] && DigitsValue(Decimal(n)) == n
  {
    if n >= 10 {
      DecimalDigits(n / 10);
      var s := Decimal(n);
      assert s[..|s| - 1] == Decimal(n / 10);
    } else {
      assert Decimal(n)[..0] == [];
    }
  }

  /** Printing any positive machine word and resolving it gives it back. */
  lemma DecimalSizeRoundTrips(n: nat)
    requires 0 < n <= USIZE_MAX
    ensures Trim(Decimal(n)) == Decimal(n) != []
    ensures PlainInteger(Decimal(n)) == Some(n)
  {
    DecimalDigits(n);
    DigitsAreNotSpace(Decimal(n));
  }

  /** No white space character starts or ends with a digit. */
  lemma DigitStartsNoSpace(s: Bytes)
    requires s != [] && IsDigit(s[0])
    ensures SpaceAtStart(s) == 0
  {
    assert forall n :: 0 < n <= |s| ==> s[..n][0] == s[0];
  }

  lemma DigitEndsNoSpace(s: Bytes)
    requires s != [] && IsDigit(s[|s| - 1])
    ensures SpaceAtEnd(s) == 0
  {
  }

  lemma DigitsAreNotSpace(s: Bytes)
    requires s != [] && AllDigits(s)
    ensures Trim(s) == s
  {
    hide SpaceAtStart, SpaceAtEnd;
    DigitStartsNoSpace(s);
    DigitEndsNoSpace(s);
  }
}
