/** The `suggest` subcommand of internal/app/suggest.go: it reads a VPA's recommendation
    quantities as text, splits each into a numeric prefix and a unit suffix, scales it
    (limits by 1.5) and writes it back with a unit chosen by size. Magnitudes are exact
    reals here. */
module Suggest {
  import opened Wrappers
  import opened Text
  import Args

  const MultMi: int := 1048576

  // ---------------------------------------------------------------------------
  // getValue: split and scale.
  // ---------------------------------------------------------------------------

  predicate IsDigit(c: char)
  {
    '0' <= c <= '9'
  }

  /** The characters getValue's scan accepts as part of the number. */
  predicate IsNumeric(c: char)
  {
    IsDigit(c) || c == '.'
  }

  predicate AllNumeric(s: string)
  {
    forall i :: 0 <= i < |s| ==> IsNumeric(s[i])
  }

  predicate AllDigits(s: string)
  {
    forall i :: 0 <= i < |s| ==> IsDigit(s[i])
  }

  /** The split index: the first position whose character is neither a digit nor '.',
      or the length when there is none. */
  function SplitPoint(v: string): (p: nat)
    ensures p <= |v|
    ensures forall i :: 0 <= i < p ==> IsNumeric(v[i])
    ensures p < |v| ==> !IsNumeric(v[p])
  {
    if v == [] || !IsNumeric(v[0]) then 0
    else
      var p := SplitPoint(v[1..]);
      assert forall i :: 1 <= i < p + 1 ==> v[i] == v[1..][i - 1];
      p + 1
  }

  /** The value of a string of decimal digits. */
  function DigitsValue(s: string): nat
    requires AllDigits(s)
  {
    if s == [] then 0 else 10 * DigitsValue(s[..|s| - 1]) + (s[|s| - 1] as int - '0' as int)
  }

  function Pow10(n: nat): (r: nat)
    ensures r >= 1
  {
    if n == 0 then 1 else 10 * Pow10(n - 1)
  }

  /** `strconv.ParseFloat` on a string of digits and dots: it succeeds iff there is at most
      one dot and at least one digit, and then reads the digits after the dot as a fraction
      (the case with a dot is stated by ParseDecimalFraction). */
  function ParseDecimal(s: string): (r: Option<real>)
    requires AllNumeric(s)
    ensures r.Some? ==> r.value >= 0.0
    ensures '.' !in s ==> (r.Some? <==> s != [])
    ensures AllDigits(s) && s != [] ==> r == Some(DigitsValue(s) as real)
  {
    var k := IndexOf(s, '.');
    if k < 0 then
      DotFreeDigits(s);
      if s == [] then None else Some(DigitsValue(s) as real)
    else
      var whole, frac := s[..k], s[k + 1..];
      if '.' in frac || |whole| + |frac| == 0 then None
      else
        NumericSlice(s, 0, k);
        NumericSlice(s, k + 1, |s|);
        DotFreeDigits(whole);
        DotFreeDigits(frac);
        Some(DigitsValue(whole) as real + (DigitsValue(frac) as real) / (Pow10(|frac|) as real))
  }

  /** Text with a dot parses iff it has no second dot and at least one digit; the digits
      before the dot are then the whole part and the digits after it the fraction, in units
      of ten to the number of fraction digits. */
  lemma {:induction false} ParseDecimalFraction(s: string, k: int)
    requires AllNumeric(s) && k == IndexOf(s, '.') && k >= 0
    ensures ParseDecimal(s).Some? <==> '.' !in s[k + 1..] && |s| >= 2
    ensures ParseDecimal(s).Some? ==> AllDigits(s[..k]) && AllDigits(s[k + 1..])
    ensures ParseDecimal(s).Some? ==>
              ParseDecimal(s).value
              == DigitsValue(s[..k]) as real + DigitsValue(s[k + 1..]) as real / Pow10(|s| - k - 1) as real
  {
    if ParseDecimal(s).Some? {
      NumericSlice(s, 0, k);
      NumericSlice(s, k + 1, |s|);
      DotFreeDigits(s[..k]);
      DotFreeDigits(s[k + 1..]);
    }
  }

  lemma NumericSlice(s: string, i: nat, j: nat)
    requires AllNumeric(s) && i <= j <= |s|
    ensures AllNumeric(s[i..j])
  {
    assert forall k :: 0 <= k < j - i ==> s[i..j][k] == s[i + k];
  }

  /** Digits and dots without a dot are digits. */
  lemma DotFreeDigits(s: string)
    requires AllNumeric(s) && '.' !in s
    ensures AllDigits(s)
  {
    forall i | 0 <= i < |s| ensures IsDigit(s[i]) {
      assert s[i] in s;
    }
  }

  /** The suffix switch: "m" divides by 1000, "Mi" multiplies by 1048576, any other
      suffix (for example "Gi" or "k") leaves the value as it is. */
  function ScaleSuffix(suffix: string, n: real): (r: real)
    ensures suffix == "m" ==> r * 1000.0 == n
    ensures suffix == "Mi" ==> r == n * (MultMi as real)
    ensures suffix != "m" && suffix != "Mi" ==> r == n
  {
    if suffix == "m" then n / 1000.0
    else if suffix == "Mi" then n * (MultMi as real)
    else n
  }

  /** What getValue yields when its error is nil: the parsed prefix, scaled by the suffix;
      None when the prefix does not parse. */
  function Value(v: string): Option<real>
  {
    var p := SplitPoint(v);
    var n := ParseDecimal(v[..p]);
    if n.Some? then Some(ScaleSuffix(v[p..], n.value)) else None
  }

  /** The prefix is all digits and dots, the suffix starts with neither, and together they
      make up the input. */
  lemma {:induction false} SplitSpec(v: string)
    ensures var p := SplitPoint(v);
            && AllNumeric(v[..p])
            && (v[p..] == [] || !IsNumeric(v[p..][0]))
            && v[..p] + v[p..] == v
  {
    var p := SplitPoint(v);
    assert AllNumeric(v[..p]) by {
      forall i | 0 <= i < p ensures IsNumeric(v[..p][i]) {
        assert v[..p][i] == v[i];
      }
    }
    assert p < |v| ==> v[p..][0] == v[p];
    assert v[..p] + v[p..] == v;
  }

  /** The split index is the only one with all digits and dots before it and neither at it. */
  lemma SplitPointUnique(v: string, p: nat)
    requires p <= |v|
    requires forall i :: 0 <= i < p ==> IsNumeric(v[i])
    requires p < |v| ==> !IsNumeric(v[p])
    ensures SplitPoint(v) == p
  {
  }

  /** A run of digits followed by an empty suffix or one that starts with neither a digit
      nor '.' reads as that number, scaled by the suffix. */
  lemma ValueOfDigits(ds: string, suffix: string)
    requires AllDigits(ds) && ds != []
    requires suffix == [] || !IsNumeric(suffix[0])
    ensures Value(ds + suffix) == Some(ScaleSuffix(suffix, DigitsValue(ds) as real))
  {
    var v := ds + suffix;
    assert forall i :: 0 <= i < |ds| ==> v[i] == ds[i];
    assert |suffix| > 0 ==> v[|ds|] == suffix[0];
    SplitPointUnique(v, |ds|);
    assert v[..|ds|] == ds && v[|ds|..] == suffix;
  }

  lemma DigitsValue250()
    ensures AllDigits("250") && DigitsValue("250") == 250
  {
    assert "250"[..2] == "25" && "25"[..1] == "2" && "2"[..0] == "";
  }

  lemma DigitsValue128()
    ensures AllDigits("128") && DigitsValue("128") == 128
  {
    assert "128"[..2] == "12" && "12"[..1] == "1" && "1"[..0] == "";
  }

  /** Worked case: "250m" is a quarter. */
  lemma ValueMilliExample()
    ensures Value("250m") == Some(0.25)
  {
    DigitsValue250();
    assert "250m" == "250" + "m";
    ValueOfDigits("250", "m");
  }

  /** Worked case: "128Mi" is 128 MiB. */
  lemma ValueMebiExample()
    ensures Value("128Mi") == Some(128.0 * (MultMi as real))
  {
    DigitsValue128();
    assert "128Mi" == "128" + "Mi";
    ValueOfDigits("128", "Mi");
  }

  /** Worked case: "2Gi" is read as 2, since "Gi" is not one of the two handled suffixes. */
  lemma ValueGibiExample()
    ensures Value("2Gi") == Some(2.0)
  {
    assert AllDigits("2") && DigitsValue("2") == 2 by { assert "2"[..0] == ""; }
    assert "2Gi" == "2" + "Gi";
    ValueOfDigits("2", "Gi");
  }

  /** Worked case: an empty prefix does not parse. */
  lemma ValueEmptyPrefixExample()
    ensures Value("m") == None && Value("") == None
  {
    SplitPointUnique("m", 0);
  }

  /** A fractional prefix: "1.5" is one and a half. */
  lemma ParseOneAndAHalf()
    ensures ParseDecimal("1.5") == Some(1.5)
  {
    assert IndexOf("1.5", '.') == 1 && "1.5"[..1] == "1" && "1.5"[2..] == "5";
    assert DigitsValue("1") == 1 by { assert "1"[..0] == ""; }
    assert DigitsValue("5") == 5 by { assert "5"[..0] == ""; }
  }

  /** A lone "." has no digit and does not parse. */
  lemma ParseLoneDot()
    ensures ParseDecimal(".") == None
  {
    assert IndexOf(".", '.') == 0;
  }

  /** Two dots do not parse. */
  lemma ParseTwoDots()
    ensures ParseDecimal("1.2.3") == None
  {
    assert IndexOf("1.2.3", '.') == 1 && "1.2.3"[2..] == "2.3";
  }

  /** `getValue`: the scan loop that finds the split index, then the parse and the suffix
      switch. None stands for a non-nil error. */
  method GetValue(v: string) returns (r: Option<real>)
    ensures r == Value(v)
  {
    var p := -1;
    var i := 0;
    while i < |v|
      invariant 0 <= i <= |v|
      invariant p == -1 ==> forall j :: 0 <= j < i ==> IsNumeric(v[j])
      invariant p != -1 ==> p == SplitPoint(v)
    {
      if !IsNumeric(v[i]) && p < 0 {
        SplitPointUnique(v, i);
        p := i;
      }
      i := i + 1;
    }
    if p < 0 {
      SplitPointUnique(v, |v|);
      p := |v|;
    }
    var n := ParseDecimal(v[..p]);
    var suffix := v[p..];
    var scaled := if n.Some? then ScaleSuffix(suffix, n.value) else 0.0;
    r := if n.Some? then Some(scaled) else None;
  }

  // ---------------------------------------------------------------------------
  // calcValue: unit selection and formatting.
  // ---------------------------------------------------------------------------

  datatype Scaled = Scaled(magnitude: real, suffix: string)

  /** The unit calcValue picks for a scaled value n. */
  function Unit(n: real): (s: Scaled)
    ensures s.suffix == "m" <==> n < 10.0
    ensures s.suffix == "Mi" <==> n > MultMi as real
    ensures s.suffix == "" <==> 10.0 <= n <= MultMi as real
  {
    if n < 10.0 then Scaled(n * 1000.0, "m")
    else if n > MultMi as real then Scaled(n / (MultMi as real), "Mi")
    else Scaled(n, "")
  }

  /** Reading the chosen unit back through getValue's suffix switch gives the value again. */
  lemma UnitRoundTrip(n: real)
    ensures ScaleSuffix(Unit(n).suffix, Unit(n).magnitude) == n
  {
  }

  /** `math.RoundToEven`: the nearest integer, ties to the even one. */
  function RoundHalfEven(x: real): (r: int)
    ensures -0.5 <= x - r as real <= 0.5
    ensures x - r as real == 0.5 || x - r as real == -0.5 ==> r % 2 == 0
    ensures x >= 0.0 ==> r >= 0
  {
    var f := x.Floor;
    var d := x - f as real;
    if d < 0.5 then f
    else if d > 0.5 then f + 1
    else if f % 2 == 0 then f
    else f + 1
  }

  function DigitChar(d: nat): char
    requires d < 10
  {
    ('0' as int + d) as char
  }

  /** `%d` of a natural number: its decimal digits, with no leading zero. */
  function NatToString(k: nat): (s: string)
    ensures s != [] && AllDigits(s)
    ensures DigitsValue(s) == k
    ensures |s| == 1 || s[0] != '0'
  {
    if k < 10 then
      assert [DigitChar(k)][..0] == [];
      [DigitChar(k)]
    else
      var t := NatToString(k / 10);
      var s := t + [DigitChar(k % 10)];
      assert s[..|s| - 1] == t;
      s
  }

  /** `%d` of an integer. */
  function FormatInt(i: int): string
  {
    if i < 0 then "-" + NatToString(-i) else NatToString(i)
  }

  /** `calcValue`: None when the value does not parse; otherwise the value times the scale,
      rounded to an integer in the unit picked by size, with that unit's suffix. */
  function CalcValue(v: string, scale: real): Option<string>
  {
    var n := Value(v);
    if n.None? then None else Some(Format(n.value * scale))
  }

  /** calcValue's one error path: it returns nil exactly when getValue fails. */
  lemma CalcValueNilIffUnparsed(v: string, scale: real)
    ensures CalcValue(v, scale).None? <==> Value(v).None?
  {
  }

  /** The text written for a scaled value: rounded in the unit chosen for it, with its suffix. */
  function Format(n: real): string
  {
    var u := Unit(n);
    FormatInt(RoundHalfEven(u.magnitude)) + u.suffix
  }

  /** getValue splits a formatted suggestion back into its number and its unit. */
  lemma ValueOfFormatted(k: nat, suffix: string)
    requires suffix == "" || suffix == "m" || suffix == "Mi"
    ensures Value(NatToString(k) + suffix) == Some(ScaleSuffix(suffix, k as real))
  {
    ValueOfDigits(NatToString(k), suffix);
  }

  /** Half of the unit a value is written in: 0.0005 for "m", 0.5 for none, half a MiB for "Mi". */
  function HalfUnit(n: real): real
  {
    if n < 10.0 then 0.0005 else if n > MultMi as real then (MultMi as real) / 2.0 else 0.5
  }

  /** A written value, read back through getValue, is the value up to half its unit. */
  lemma FormatReadsBack(n: real)
    requires n >= 0.0
    ensures Value(Format(n)).Some?
    ensures -HalfUnit(n) <= Value(Format(n)).value - n <= HalfUnit(n)
  {
    var u := Unit(n);
    var k := RoundHalfEven(u.magnitude);
    assert k >= 0;
    assert Format(n) == NatToString(k) + u.suffix;
    ValueOfFormatted(k, u.suffix);
    UnitRoundTrip(n);
    ScaleSuffixBound(u.suffix, k as real, u.magnitude);
  }

  /** A suggestion, read back through getValue, is the scaled value up to half a unit of
      the suffix it was written in: 0.0005 for "m", 0.5 for none, half a MiB for "Mi". */
  lemma SuggestionReadsBack(v: string, scale: real)
    requires Value(v).Some? && scale >= 0.0
    ensures CalcValue(v, scale).Some?
    ensures var n := Value(v).value * scale;
            var back := Value(CalcValue(v, scale).value);
            && back.Some?
            && -HalfUnit(n) <= back.value - n <= HalfUnit(n)
  {
    var n := Value(v).value * scale;
    assert n >= 0.0 by {
      ValueNonNegative(v);
      MulNonNegative(Value(v).value, scale);
    }
    assert CalcValue(v, scale) == Some(Format(n)) by {
      CalcValueFormat(v, scale);
    }
    FormatReadsBack(n);
  }

  lemma CalcValueFormat(v: string, scale: real)
    requires Value(v).Some?
    ensures CalcValue(v, scale) == Some(Format(Value(v).value * scale))
  {
  }

  lemma MulNonNegative(x: real, y: real)
    requires x >= 0.0 && y >= 0.0
    ensures x * y >= 0.0
  {
  }

  /** Values half a unit apart stay within half of the suffix's unit of each other once scaled. */
  lemma ScaleSuffixBound(suffix: string, a: real, b: real)
    requires suffix == "" || suffix == "m" || suffix == "Mi"
    requires -0.5 <= a - b <= 0.5
    ensures var half := if suffix == "m" then 0.0005 else if suffix == "Mi" then (MultMi as real) / 2.0 else 0.5;
            -half <= ScaleSuffix(suffix, a) - ScaleSuffix(suffix, b) <= half
  {
    if suffix == "Mi" {
      assert ScaleSuffix(suffix, a) - ScaleSuffix(suffix, b) == (a - b) * (MultMi as real);
    }
  }

  lemma ValueNonNegative(v: string)
    requires Value(v).Some?
    ensures Value(v).value >= 0.0
  {
  }

  lemma NatToString250()
    ensures NatToString(250) == "250"
  {
    assert NatToString(2) == "2";
    assert NatToString(25) == "25";
  }

  lemma RoundHalfEvenOfInt(k: int)
    ensures RoundHalfEven(k as real) == k
  {
  }

  /** Worked case: a quarter cpu is written "250m". */
  lemma CalcValueMilliExample()
    ensures CalcValue("250m", 1.0) == Some("250m")
  {
    ValueMilliExample();
    CalcValueFormat("250m", 1.0);
    FormatQuarter();
  }

  lemma FormatQuarter()
    ensures Format(0.25 * 1.0) == "250m"
  {
    assert Unit(0.25) == Scaled(250.0, "m");
    RoundHalfEvenOfInt(250);
    NatToString250();
  }

  /** Worked case: 1.5 times 128 MiB is written "192Mi". */
  lemma CalcValueMebiExample()
    ensures CalcValue("128Mi", 1.5) == Some("192Mi")
  {
    ValueMebiExample();
    CalcValueFormat("128Mi", 1.5);
    Format192Mebi();
  }

  lemma Format192Mebi()
    ensures Format(128.0 * (MultMi as real) * 1.5) == "192Mi"
  {
    var n := 192.0 * (MultMi as real);
    assert 128.0 * (MultMi as real) * 1.5 == n;
    assert Unit(n) == Scaled(192.0, "Mi");
    RoundHalfEvenOfInt(192);
    NatToString192();
  }

  lemma NatToString192()
    ensures NatToString(192) == "192"
  {
    assert NatToString(19) == "19";
  }

  // ---------------------------------------------------------------------------
  // The subcommand.
  // ---------------------------------------------------------------------------

  /** A container recommendation's Target and UpperBound quantities, as their strings. */
  datatype RecommendedQuantities =
    RecommendedQuantities(containerName: string, target: map<string, string>, upperBound: map<string, string>)

  datatype SuggestVpa = SuggestVpa(namespace: string, name: string,
                                   recommendation: Option<seq<RecommendedQuantities>>)

  datatype SuggestValues = SuggestValues(cpu: Option<string>, memory: Option<string>)

  datatype SuggestData = SuggestData(requests: SuggestValues, limits: SuggestValues)

  datatype Suggestion = Suggestion(containerName: string, data: SuggestData)

  const RequestScale := 1.0
  const LimitScale := 1.5

  function ValueAt(m: map<string, string>, key: string, scale: real): Option<string>
  {
    if key in m then CalcValue(m[key], scale) else None
  }

  /** The resources block for one container: requests from Target at scale 1, limits from
      UpperBound at scale 1.5, a field left nil when its key is absent or does not parse. */
  function SuggestFor(c: RecommendedQuantities): (d: SuggestData)
    ensures d.requests.cpu.Some? ==> "cpu" in c.target && d.requests.cpu == CalcValue(c.target["cpu"], 1.0)
    ensures d.requests.memory.Some? ==> "memory" in c.target && d.requests.memory == CalcValue(c.target["memory"], 1.0)
    ensures d.limits.cpu.Some? ==> "cpu" in c.upperBound && d.limits.cpu == CalcValue(c.upperBound["cpu"], 1.5)
    ensures d.limits.memory.Some? ==> "memory" in c.upperBound && d.limits.memory == CalcValue(c.upperBound["memory"], 1.5)
    ensures "cpu" in c.target && Value(c.target["cpu"]).Some? ==> d.requests.cpu.Some?
    ensures "cpu" in c.upperBound && Value(c.upperBound["cpu"]).Some? ==> d.limits.cpu.Some?
    ensures "memory" in c.target && Value(c.target["memory"]).Some? ==> d.requests.memory.Some?
    ensures "memory" in c.upperBound && Value(c.upperBound["memory"]).Some? ==> d.limits.memory.Some?
  {
    SuggestData(SuggestValues(ValueAt(c.target, "cpu", RequestScale), ValueAt(c.target, "memory", RequestScale)),
                SuggestValues(ValueAt(c.upperBound, "cpu", LimitScale), ValueAt(c.upperBound, "memory", LimitScale)))
  }

  datatype SuggestOutcome =
    | LookupFailed(error: string)
    | NoRecommendation(namespace: string, name: string)
    | Suggested(suggestions: seq<Suggestion>)

  const ErrNameMissing := "resource name must be specified"

  /** `suggestArgs.Verify`: the name must be given. */
  function SuggestVerify(name: string): (err: Option<string>)
    ensures err.None? <==> name != ""
    ensures err.Some? ==> err.value == ErrNameMissing
  {
    if name == "" then Some(ErrNameMissing) else None
  }

  /** The body of Exec's loop for one container: each present key is passed through
      calcValue at its scale. */
  method SuggestContainer(c: RecommendedQuantities) returns (s: Suggestion)
    ensures s == Suggestion(c.containerName, SuggestFor(c))
  {
    var reqCpu, reqMemory, limCpu, limMemory := None, None, None, None;
    if "cpu" in c.target {
      reqCpu := CalcValue(c.target["cpu"], RequestScale);
    }
    if "memory" in c.target {
      reqMemory := CalcValue(c.target["memory"], RequestScale);
    }
    if "cpu" in c.upperBound {
      limCpu := CalcValue(c.upperBound["cpu"], LimitScale);
    }
    if "memory" in c.upperBound {
      limMemory := CalcValue(c.upperBound["memory"], LimitScale);
    }
    s := Suggestion(c.containerName, SuggestData(SuggestValues(reqCpu, reqMemory), SuggestValues(limCpu, limMemory)));
  }

  /** One resources block per container recommendation, in order, each filled as SuggestFor
      says. */
  predicate SuggestsEach(recs: seq<RecommendedQuantities>, out: seq<Suggestion>)
  {
    && |out| == |recs|
    && forall i :: 0 <= i < |recs| ==> out[i] == Suggestion(recs[i].containerName, SuggestFor(recs[i]))
  }

  /** Exec's loop over the container recommendations: one block each, in order. */
  method SuggestAll(recs: seq<RecommendedQuantities>) returns (out: seq<Suggestion>)
    ensures SuggestsEach(recs, out)
  {
    out := [];
    var i := 0;
    while i < |recs|
      invariant 0 <= i <= |recs|
      invariant |out| == i
      invariant forall j :: 0 <= j < i ==> out[j] == Suggestion(recs[j].containerName, SuggestFor(recs[j]))
    {
      var suggestion := SuggestContainer(recs[i]);
      out := out + [suggestion];
      i := i + 1;
    }
  }

  /** `suggestArgs.Exec`: fetch the VPA named by `ns/name` (the cluster GET is the `fetch`
      parameter); stop on a lookup error or a missing recommendation; otherwise one
      resources block per container recommendation, in order. */
  method Exec(namespace: string, name: string, fetch: (string, string) -> Result<SuggestVpa, string>)
    returns (outcome: SuggestOutcome)
    ensures var parts := Args.GetParts(namespace, name);
            var got := fetch(parts.ns, parts.name);
            && (got.Err? ==> outcome == LookupFailed(got.error))
            && (got.Ok? && got.value.recommendation.None? ==>
                  outcome == NoRecommendation(got.value.namespace, got.value.name))
            && (got.Ok? && got.value.recommendation.Some? ==>
                  outcome.Suggested? && SuggestsEach(got.value.recommendation.value, outcome.suggestions))
  {
    var parts := Args.GetParts(namespace, name);
    var got := fetch(parts.ns, parts.name);
    if got.Err? {
      return LookupFailed(got.error);
    }
    var vpa := got.value;
    if vpa.recommendation.None? {
      return NoRecommendation(vpa.namespace, vpa.name);
    }
    var out := SuggestAll(vpa.recommendation.value);
    outcome := Suggested(out);
  }
}
