/** The output-format enumeration of the older top-level encode.go. Its String names all
    three formats in its switch; its behaviour is the same as internal/app/encode.go's. */
module LegacyEncode {
  import opened Wrappers
  import opened Text
  import Encode

  type FormatEnum = int

  const FormatYaml: FormatEnum := 0
  const FormatJson: FormatEnum := 1
  const FormatToml: FormatEnum := 2

  /** `FormatEnum.String`: the three formats by name, any other value as "yaml". */
  function FormatString(f: FormatEnum): (r: string)
    ensures r in {"yaml", "json", "toml"}
    ensures f == FormatYaml ==> r == "yaml"
    ensures r == "json" <==> f == FormatJson
    ensures r == "toml" <==> f == FormatToml
  {
    if f == FormatYaml then "yaml"
    else if f == FormatJson then "json"
    else if f == FormatToml then "toml"
    else "yaml"
  }

  /** `FormatEnum.UnmarshalText`: "yaml", "json" and "toml" in any letter case; any other
      text is an error that quotes the lower-cased text and leaves the receiver as it was. */
  function UnmarshalFormat(cur: FormatEnum, text: string): (r: Unmarshalled<FormatEnum>)
    ensures r.err.None? <==> EqualFold(text, "yaml") || EqualFold(text, "json") || EqualFold(text, "toml")
    ensures r.receiver == FormatYaml && r.err.None? <==> EqualFold(text, "yaml")
    ensures r.receiver == FormatJson && r.err.None? <==> EqualFold(text, "json")
    ensures r.receiver == FormatToml && r.err.None? <==> EqualFold(text, "toml")
    ensures r.err.Some? ==> r.receiver == cur && r.err == Some(Encode.UnknownFormatMessage(ToLower(text)))
  {
    ToLowerMatches(text, "yaml");
    ToLowerMatches(text, "json");
    ToLowerMatches(text, "toml");
    var s := ToLower(text);
    if s == "yaml" then Unmarshalled(FormatYaml, None)
    else if s == "json" then Unmarshalled(FormatJson, None)
    else if s == "toml" then Unmarshalled(FormatToml, None)
    else Unmarshalled(cur, Some(Encode.UnknownFormatMessage(s)))
  }

  /** Each defined format survives String then UnmarshalText, whatever the receiver held. */
  lemma FormatRoundTrip(f: FormatEnum, cur: FormatEnum)
    requires f in {FormatYaml, FormatJson, FormatToml}
    ensures UnmarshalFormat(cur, FormatString(f)) == Unmarshalled(f, None)
  {
    assert ToLower("yaml") == "yaml";
    assert ToLower("json") == "json";
    assert ToLower("toml") == "toml";
  }

  /** The two versions agree on every value and every text: naming formatYAML in the
      switch, or leaving it to the default, changes nothing. */
  lemma AgreesWithCurrent(f: FormatEnum, cur: FormatEnum, text: string)
    ensures FormatString(f) == Encode.FormatString(f)
    ensures UnmarshalFormat(cur, text) == Encode.UnmarshalFormat(cur, text)
  {
  }
}
