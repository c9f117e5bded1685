/** The enumerations and argument helpers of internal/app/args.go. */
module Args {
  import opened Wrappers
  import opened Text

  /** Go's `modeEnum int`; the zero value is 0, which is none of the named modes. */
  type ModeEnum = int

  const ModeOff: ModeEnum := 1
  const ModeInitial: ModeEnum := 2
  const ModeAuto: ModeEnum := 3

  const ModeOffText := "Off"
  const ModeInitialText := "Initial"
  const ModeAutoText := "Auto"

  /** `modeEnum.String`: Initial and Auto by name, every other value as "Off". */
  function ModeString(m: ModeEnum): (r: string)
    ensures r in {ModeOffText, ModeInitialText, ModeAutoText}
    ensures r == ModeInitialText <==> m == ModeInitial
    ensures r == ModeAutoText <==> m == ModeAuto
  {
    if m == ModeInitial then ModeInitialText
    else if m == ModeAuto then ModeAutoText
    else ModeOffText
  }

  const AllowedModes := "', allowed values: Off, Initial & Auto"

  /** The rejection message, quoting the text that was rejected. */
  function UnknownModeMessage(text: string): string
  {
    "unknown mode: '" + text + AllowedModes
  }

  /** `modeEnum.UnmarshalText` with its error message quoting the rejected text. "off",
      "initial" (or "init") and "auto" are accepted in any letter case; any other text is
      an error and leaves the receiver as it was. */
  function UnmarshalMode(cur: ModeEnum, text: string): (r: Unmarshalled<ModeEnum>)
    ensures r.err.None? <==> EqualFold(text, "off") || EqualFold(text, "initial")
                               || EqualFold(text, "init") || EqualFold(text, "auto")
    ensures r.err.None? ==> r.receiver in {ModeOff, ModeInitial, ModeAuto}
    ensures r.receiver == ModeOff && r.err.None? <==> EqualFold(text, "off")
    ensures r.receiver == ModeInitial && r.err.None? <==> EqualFold(text, "initial") || EqualFold(text, "init")
    ensures r.receiver == ModeAuto && r.err.None? <==> EqualFold(text, "auto")
    ensures r.err.Some? ==> r.receiver == cur && r.err == Some(UnknownModeMessage(text))
  {
    ToLowerMatches(text, "off");
    ToLowerMatches(text, "initial");
    ToLowerMatches(text, "init");
    ToLowerMatches(text, "auto");
    var s := ToLower(text);
    if s == "off" then Unmarshalled(ModeOff, None)
    else if s == "initial" || s == "init" then Unmarshalled(ModeInitial, None)
    else if s == "auto" then Unmarshalled(ModeAuto, None)
    else Unmarshalled(cur, Some(UnknownModeMessage(text)))
  }

  /** `modeEnum.UnmarshalText` as written: the message formats the receiver, whose
      String() is the mode held BEFORE the call, not the rejected text. */
  function UnmarshalModeAsWritten(cur: ModeEnum, text: string): (r: Unmarshalled<ModeEnum>)
    ensures r.receiver == UnmarshalMode(cur, text).receiver
    ensures r.err.None? <==> UnmarshalMode(cur, text).err.None?
    ensures r.err.Some? ==> r.err == Some(UnknownModeMessage(ModeString(cur)))
  {
    var s := ToLower(text);
    if s == "off" then Unmarshalled(ModeOff, None)
    else if s == "initial" || s == "init" then Unmarshalled(ModeInitial, None)
    else if s == "auto" then Unmarshalled(ModeAuto, None)
    else Unmarshalled(cur, Some(UnknownModeMessage(ModeString(cur))))
  }

  /** On a fresh (zero) receiver, rejecting "bogus" reports 'Off' and never mentions "bogus". */
  lemma UnmarshalModeAsWrittenHidesInput()
    ensures UnmarshalModeAsWritten(0, "bogus").err == Some(UnknownModeMessage(ModeOffText))
    ensures UnmarshalModeAsWritten(0, "bogus").err != UnmarshalMode(0, "bogus").err
  {
    ToLowerOfLower("bogus");
    UnmarshalModeNamesInput();
    assert UnknownModeMessage(ModeOffText)[15] == 'O';
    assert UnknownModeMessage("bogus")[15] == 'b';
  }

  /** The corrected definition rejects "bogus" with a message built from "bogus" itself. */
  lemma UnmarshalModeNamesInput()
    ensures UnmarshalMode(0, "bogus") == Unmarshalled(0, Some(UnknownModeMessage("bogus")))
  {
    assert !EqualFold("bogus", "off") && !EqualFold("bogus", "initial");
    assert !EqualFold("bogus", "init") && !EqualFold("bogus", "auto");
  }

  /** The corrected message always contains the rejected text, right after the opening quote. */
  lemma UnmarshalModeQuotesInput(cur: ModeEnum, text: string)
    requires UnmarshalMode(cur, text).err.Some?
    ensures var msg := UnmarshalMode(cur, text).err.value;
            |msg| >= 15 + |text| && msg[15..15 + |text|] == text
  {
    var msg := UnknownModeMessage(text);
    assert msg == ("unknown mode: '" + text) + AllowedModes;
    assert (("unknown mode: '" + text) + AllowedModes)[15..15 + |text|] == ("unknown mode: '" + text)[15..];
  }

  /** Every named mode survives String followed by UnmarshalText, whatever the receiver held. */
  lemma ModeRoundTrip(m: ModeEnum, cur: ModeEnum)
    requires m in {ModeOff, ModeInitial, ModeAuto}
    ensures UnmarshalMode(cur, ModeString(m)) == Unmarshalled(m, None)
  {
    assert ToLower("Off") == "off";
    assert ToLower("Initial") == "initial";
    assert ToLower("Auto") == "auto";
  }

  /** The zero value is not a named mode: it prints as "Off" and reads back as ModeOff. */
  lemma ZeroModeReadsBackAsOff()
    ensures ModeString(0) == ModeOffText
    ensures UnmarshalMode(0, ModeString(0)) == Unmarshalled(ModeOff, None)
  {
    assert ToLower("Off") == "off";
  }

  /** `strings.SplitN(s, "/", 2)`: the whole string, or the parts around the first "/". */
  function SplitN2(s: string, sep: char): (parts: seq<string>)
    ensures 1 <= |parts| <= 2
    ensures |parts| == 1 <==> sep !in s
    ensures |parts| == 1 ==> parts[0] == s
    ensures |parts| == 2 ==> sep !in parts[0] && parts[0] + [sep] + parts[1] == s
  {
    var i := IndexOf(s, sep);
    if i < 0 then [s]
    else
      SplitAt(s, i);
      [s[..i], s[i + 1..]]
  }

  /** Cutting out one position and putting it back gives the text again. */
  lemma SplitAt(s: string, i: nat)
    requires i < |s|
    ensures s[..i] + [s[i]] + s[i + 1..] == s
  {
    assert s == s[..i] + s[i..];
    assert s[i..] == [s[i]] + s[i + 1..];
  }

  datatype Parts = Parts(ns: string, name: string)

  /** `cmdArgs.getParts`: "ns/name" splits at its first "/", a bare name takes the
      default namespace, and an empty namespace becomes "default". */
  function GetParts(namespace: string, input: string): (r: Parts)
    ensures r.ns != ""
    ensures '/' in input ==> '/' !in r.ns
    ensures '/' in input && input[0] != '/' ==> r.ns + "/" + r.name == input
    ensures '/' in input && input[0] == '/' ==> r.ns == "default" && "/" + r.name == input
    ensures '/' !in input ==> r.name == input && r.ns == (if namespace == "" then "default" else namespace)
  {
    var parts := SplitN2(input, '/');
    var i := IndexOf(input, '/');
    assert i >= 0 ==> input == input[..i] + "/" + input[i + 1..];
    var ns := if |parts| > 1 then parts[0] else namespace;
    var name := if |parts| > 1 then parts[1] else input;
    Parts(if ns == "" then "default" else ns, name)
  }

  /** Only the first "/" splits: "a/b/c" is namespace "a", name "b/c". */
  lemma GetPartsFirstSlash()
    ensures GetParts("x", "a/b/c") == Parts("a", "b/c")
  {
    assert IndexOf("a/b/c", '/') == 1;
  }

  /** A leading "/" leaves an empty namespace, which becomes "default". */
  lemma GetPartsLeadingSlash()
    ensures GetParts("x", "/y") == Parts("default", "y")
  {
    assert IndexOf("/y", '/') == 0;
  }

  /** A bare name takes the given namespace, or "default" when that is empty. */
  lemma GetPartsBareName()
    ensures GetParts("prod", "web") == Parts("prod", "web")
    ensures GetParts("", "web") == Parts("default", "web")
  {
    assert '/' !in "web";
  }

  /** A trailing "/" gives an empty name. */
  lemma GetPartsEmptyName()
    ensures GetParts("prod", "ns/") == Parts("ns", "")
  {
    assert IndexOf("ns/", '/') == 2;
  }
}
