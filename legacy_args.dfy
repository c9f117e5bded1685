/** The argument validators of the older top-level args.go: `CompareArgs.Verify`, which
    reads the modes as strings and stops at the first one it does not know, and
    `ModeArgs.Verify`. */
module LegacyArgs {
  import opened Wrappers
  import opened Text
  import Args
  import Compare

  /** The legacy switch on a lower-cased mode: "off", "initial" and "auto" only (no "init"). */
  function ParseLegacyMode(m: string): (r: Option<Args.ModeEnum>)
    ensures r == Some(Args.ModeOff) <==> EqualFold(m, "off")
    ensures r == Some(Args.ModeInitial) <==> EqualFold(m, "initial")
    ensures r == Some(Args.ModeAuto) <==> EqualFold(m, "auto")
    ensures r.None? <==> !EqualFold(m, "off") && !EqualFold(m, "initial") && !EqualFold(m, "auto")
  {
    ToLowerMatches(m, "off");
    ToLowerMatches(m, "initial");
    ToLowerMatches(m, "auto");
    var s := ToLower(m);
    if s == "off" then Some(Args.ModeOff)
    else if s == "initial" then Some(Args.ModeInitial)
    else if s == "auto" then Some(Args.ModeAuto)
    else None
  }

  /** "init" is an alias in the current parser but unknown here. */
  lemma InitAliasOnlyInCurrentParser(cur: Args.ModeEnum)
    ensures ParseLegacyMode("init").None?
    ensures Args.UnmarshalMode(cur, "init") == Unmarshalled(Args.ModeInitial, None)
  {
    assert !EqualFold("init", "off") && !EqualFold("init", "initial");
    assert !EqualFold("init", "auto") by { assert LowerChar("init"[0]) != "auto"[0]; }
    assert EqualFold("init", "init");
  }

  /** The index of the first mode the legacy switch rejects, or the length when none is. */
  function FirstUnknown(modes: seq<string>): (k: nat)
    ensures k <= |modes|
    ensures forall i :: 0 <= i < k ==> ParseLegacyMode(modes[i]).Some?
    ensures k < |modes| ==> ParseLegacyMode(modes[k]).None?
  {
    if modes == [] || ParseLegacyMode(modes[0]).None? then 0
    else
      var k := FirstUnknown(modes[1..]);
      assert forall i :: 1 <= i < k + 1 ==> modes[i] == modes[1..][i - 1];
      k + 1
  }

  /** The modes parsed, unknown ones as the zero value (which sets nothing). */
  function Parsed(modes: seq<string>): (r: seq<Args.ModeEnum>)
    ensures |r| == |modes|
    ensures forall i :: 0 <= i < |modes| && ParseLegacyMode(modes[i]).Some? ==> r[i] == ParseLegacyMode(modes[i]).value
  {
    seq(|modes|, i requires 0 <= i < |modes| => var p := ParseLegacyMode(modes[i]); if p.Some? then p.value else 0)
  }

  /** `CompareArgs` of args.go; Verify updates `filter` in place. */
  class LegacyCompareArgs {
    var allPods: bool
    var modes: seq<string>
    var head: int
    var tail: int
    var sort: seq<int>
    var filter: Compare.CompareFilter

    constructor (allPods: bool, modes: seq<string>, head: int, tail: int, sort: seq<int>)
      ensures this.allPods == allPods && this.modes == modes
      ensures this.head == head && this.tail == tail && this.sort == sort
      ensures filter == Compare.NoFilter
    {
      this.allPods, this.modes, this.head, this.tail, this.sort := allPods, modes, head, tail, sort;
      filter := Compare.NoFilter;
    }

    /** `CompareArgs.Verify`: each known mode turns on filtering and its own flag, in order;
        the first unknown one returns an error quoting it, and the flags the modes before it
        set stay set. */
    method Verify() returns (err: Option<string>)
      modifies this`filter
      ensures var k := FirstUnknown(modes);
              && (err.None? <==> k == |modes|)
              && (err.Some? ==> err.value == Args.UnknownModeMessage(modes[k]))
              && filter == Compare.ApplyModes(old(filter), Parsed(modes[..k]))
    {
      var ms, f0 := modes, filter;
      var i := 0;
      while i < |ms|
        invariant 0 <= i <= |ms|
        invariant AllKnown(ms[..i])
        invariant filter == Compare.ApplyModes(f0, Parsed(ms[..i]))
      {
        var next := ApplyLegacyMode(filter, ms[i]);
        if next.None? {
          AllKnownSpec(ms[..i]);
          FirstUnknownAt(ms, i);
          return Some(Args.UnknownModeMessage(ms[i]));
        }
        ParsedStep(f0, ms, i);
        assert ms[..i + 1][..i] == ms[..i];
        filter := next.value;
        i := i + 1;
      }
      assert ms[..i] == ms;
      AllKnownSpec(ms);
      FirstUnknownAt(ms, |ms|);
      assert ms[..|ms|] == ms;
      err := None;
    }
  }

  /** One iteration of Verify's loop: the lower-cased mode sets filtering and its own
      flag, and an unknown one yields nothing. */
  method ApplyLegacyMode(f: Compare.CompareFilter, text: string) returns (r: Option<Compare.CompareFilter>)
    ensures r.None? <==> ParseLegacyMode(text).None?
    ensures r.Some? ==> r.value == Compare.ApplyMode(f, ParseLegacyMode(text).value)
  {
    var mode := ToLower(text);
    ToLowerMatches(text, "off");
    ToLowerMatches(text, "initial");
    ToLowerMatches(text, "auto");
    if mode == "off" {
      r := Some(f.(filter := true, showOff := true));
    } else if mode == "initial" {
      r := Some(f.(filter := true, showInitial := true));
    } else if mode == "auto" {
      r := Some(f.(filter := true, showAuto := true));
    } else {
      r := None;
    }
  }

  /** Every mode is one the legacy switch knows, stated mode by mode along the list. */
  ghost predicate AllKnown(modes: seq<string>)
  {
    modes == [] || (AllKnown(modes[..|modes| - 1]) && ParseLegacyMode(modes[|modes| - 1]).Some?)
  }

  lemma {:induction false} AllKnownSpec(modes: seq<string>)
    ensures AllKnown(modes) <==> forall j :: 0 <= j < |modes| ==> ParseLegacyMode(modes[j]).Some?
  {
    if modes != [] {
      var init := modes[..|modes| - 1];
      AllKnownSpec(init);
      assert forall j :: 0 <= j < |init| ==> init[j] == modes[j];
    }
  }

  /** Parsing one more known mode applies it after the ones before. */
  lemma ParsedStep(f: Compare.CompareFilter, modes: seq<string>, i: nat)
    requires i < |modes| && ParseLegacyMode(modes[i]).Some?
    ensures Compare.ApplyModes(f, Parsed(modes[..i + 1]))
            == Compare.ApplyMode(Compare.ApplyModes(f, Parsed(modes[..i])), ParseLegacyMode(modes[i]).value)
  {
    var ps := Parsed(modes[..i + 1]);
    assert ps[..i] == Parsed(modes[..i]);
    assert ps[i] == ParseLegacyMode(modes[i]).value;
  }

  /** The first unknown index is the only one with known modes before it and an unknown one at it. */
  lemma FirstUnknownAt(modes: seq<string>, k: nat)
    requires k <= |modes|
    requires forall i :: 0 <= i < k ==> ParseLegacyMode(modes[i]).Some?
    requires k < |modes| ==> ParseLegacyMode(modes[k]).None?
    ensures FirstUnknown(modes) == k
  {
  }

  /** From a fresh filter and with every mode known: filtering is on iff some mode was given,
      and each flag iff its mode was given in some letter case. */
  lemma {:induction false} LegacyVerifyFromNone(modes: seq<string>)
    requires FirstUnknown(modes) == |modes|
    ensures var g := Compare.ApplyModes(Compare.NoFilter, Parsed(modes));
            && (g.filter <==> modes != [])
            && (g.showOff <==> exists i :: 0 <= i < |modes| && EqualFold(modes[i], "off"))
            && (g.showInitial <==> exists i :: 0 <= i < |modes| && EqualFold(modes[i], "initial"))
            && (g.showAuto <==> exists i :: 0 <= i < |modes| && EqualFold(modes[i], "auto"))
  {
    var ps := Parsed(modes);
    Compare.ApplyModesFromNone(ps);
    if modes != [] {
      assert Compare.IsNamedMode(ps[0]);
    }
    if Args.ModeOff in ps {
      var i :| 0 <= i < |ps| && ps[i] == Args.ModeOff;
      assert EqualFold(modes[i], "off");
    }
    if Args.ModeInitial in ps {
      var i :| 0 <= i < |ps| && ps[i] == Args.ModeInitial;
      assert EqualFold(modes[i], "initial");
    }
    if Args.ModeAuto in ps {
      var i :| 0 <= i < |ps| && ps[i] == Args.ModeAuto;
      assert EqualFold(modes[i], "auto");
    }
    if exists i :: 0 <= i < |modes| && EqualFold(modes[i], "off") {
      var i :| 0 <= i < |modes| && EqualFold(modes[i], "off");
      assert ps[i] == Args.ModeOff;
    }
    if exists i :: 0 <= i < |modes| && EqualFold(modes[i], "initial") {
      var i :| 0 <= i < |modes| && EqualFold(modes[i], "initial");
      assert ps[i] == Args.ModeInitial;
    }
    if exists i :: 0 <= i < |modes| && EqualFold(modes[i], "auto") {
      var i :| 0 <= i < |modes| && EqualFold(modes[i], "auto");
      assert ps[i] == Args.ModeAuto;
    }
  }

  /** ["off", "bogus"]: the error names "bogus" and the Off flag set before it stays set. */
  lemma EarlierFlagsStaySet()
    ensures FirstUnknown(["off", "bogus"]) == 1
    ensures Compare.ApplyModes(Compare.NoFilter, Parsed(["off", "bogus"][..1])) == Compare.CompareFilter(true, true, false, false)
  {
    var ms := ["off", "bogus"];
    assert ParseLegacyMode("off") == Some(Args.ModeOff) by { assert EqualFold("off", "off"); }
    assert !EqualFold("bogus", "off") && !EqualFold("bogus", "initial") && !EqualFold("bogus", "auto");
    FirstUnknownAt(ms, 1);
    assert ms[..1] == ["off"];
    assert Parsed(["off"]) == [Args.ModeOff];
    assert [Args.ModeOff][..0] == [];
  }

  // ---------------------------------------------------------------------------
  // ModeArgs.Verify.
  // ---------------------------------------------------------------------------

  const NoNamesMessage := "no names specified"

  /** The names joined by single spaces, as `%v` prints a string slice between brackets. */
  function JoinSpace(names: seq<string>): string
  {
    if names == [] then "" else if |names| == 1 then names[0] else names[0] + " " + JoinSpace(names[1..])
  }

  /** `ModeArgs.Verify` as written: the message formats the `*ModeArgs` receiver itself,
      which prints as "&{<mode> [<names>]}", not the rejected mode. */
  function ModeArgsVerifyAsWritten(mode: string, names: seq<string>): (err: Option<string>)
    ensures err.None? <==> ModeArgsVerify(mode, names).None?
    ensures ParseLegacyMode(mode).None? ==>
              err == Some(Args.UnknownModeMessage("&{" + mode + " [" + JoinSpace(names) + "]}"))
  {
    if ParseLegacyMode(mode).None? then Some(Args.UnknownModeMessage("&{" + mode + " [" + JoinSpace(names) + "]}"))
    else if |names| == 0 then Some(NoNamesMessage)
    else None
  }

  /** "bogus" with name "web" is reported as '&{bogus [web]}'. */
  lemma ModeArgsVerifyAsWrittenQuotesStruct()
    ensures ModeArgsVerifyAsWritten("bogus", ["web"]) == Some(Args.UnknownModeMessage("&{bogus [web]}"))
    ensures ModeArgsVerifyAsWritten("bogus", ["web"]) != ModeArgsVerify("bogus", ["web"])
  {
    assert !EqualFold("bogus", "off") && !EqualFold("bogus", "initial") && !EqualFold("bogus", "auto");
    assert JoinSpace(["web"]) == "web";
    assert "&{" + "bogus" + " [" + "web" + "]}" == "&{bogus [web]}";
    assert Args.UnknownModeMessage("&{bogus [web]}") != Args.UnknownModeMessage("bogus") by {
      assert Args.UnknownModeMessage("&{bogus [web]}")[15] == '&';
      assert Args.UnknownModeMessage("bogus")[15] == 'b';
    }
  }

  /** `ModeArgs.Verify`, with the message quoting the rejected mode: the mode is checked
      first (off, initial or auto, any letter case), then at least one name is required. */
  function ModeArgsVerify(mode: string, names: seq<string>): (err: Option<string>)
    ensures err.None? <==> ParseLegacyMode(mode).Some? && names != []
    ensures ParseLegacyMode(mode).None? ==> err == Some(Args.UnknownModeMessage(mode))
    ensures ParseLegacyMode(mode).Some? && names == [] ==> err == Some(NoNamesMessage)
  {
    if ParseLegacyMode(mode).None? then Some(Args.UnknownModeMessage(mode))
    else if |names| == 0 then Some(NoNamesMessage)
    else None
  }

  /** An unknown mode is reported even when no names are given: the mode check comes first. */
  lemma ModeCheckedBeforeNames()
    ensures ModeArgsVerify("bogus", []) == Some(Args.UnknownModeMessage("bogus"))
    ensures ModeArgsVerify("Auto", []) == Some(NoNamesMessage)
    ensures ModeArgsVerify("Auto", ["web"]) == None
  {
    assert !EqualFold("bogus", "off") && !EqualFold("bogus", "initial") && !EqualFold("bogus", "auto");
    assert ToLower("Auto") == "auto";
    assert EqualFold("Auto", "auto");
  }
}
