/** The output-format enumeration of internal/app/encode.go. */
module Encode {
  import opened Wrappers
  import opened Text

  /** Go's `formatEnum int`; YAML is the zero value. */
  type FormatEnum = int

  const FormatYaml: FormatEnum := 0
  const FormatJson: FormatEnum := 1
  const FormatToml: FormatEnum := 2

  /** `formatEnum.String`: JSON and TOML by name, every other value as "yaml". */
  function FormatString(f: FormatEnum): (r: string)
    ensures r in {"yaml", "json", "toml"}
    ensures r == "json" <==> f == FormatJson
    ensures r == "toml" <==> f == FormatToml
  {
    if f == FormatJson then "json"
    else if f == FormatToml then "toml"
    else "yaml"
  }

  function UnknownFormatMessage(lowered: string): string
  {
    "unknown mode: '" + lowered + "', allowed values: yaml, json & toml"
  }

  /** `formatEnum.UnmarshalText`: "yaml", "json" and "toml" in any letter case; any other
      text is an error that quotes the lower-cased text and leaves the receiver as it was. */
  function UnmarshalFormat(cur: FormatEnum, text: string): (r: Unmarshalled<FormatEnum>)
    ensures r.err.None? <==> EqualFold(text, "yaml") || EqualFold(text, "json") || EqualFold(text, "toml")
    ensures r.receiver == FormatYaml && r.err.None? <==> EqualFold(text, "yaml")
    ensures r.receiver == FormatJson && r.err.None? <==> EqualFold(text, "json")
    ensures r.receiver == FormatToml && r.err.None? <==> EqualFold(text, "toml")
    ensures r.err.Some? ==> r.receiver == cur && r.err == Some(UnknownFormatMessage(ToLower(text)))
  {
    ToLowerMatches(text, "yaml");
    ToLowerMatches(text, "json");
    ToLowerMatches(text, "toml");
    var s := ToLower(text);
    if s == "yaml" then Unmarshalled(FormatYaml, None)
    else if s == "json" then Unmarshalled(FormatJson, None)
    else if s == "toml" then Unmarshalled(FormatToml, None)
    else Unmarshalled(cur, Some(UnknownFormatMessage(s)))
  }

  /** The zero value prints as "yaml", and each defined format survives String then UnmarshalText. */
  lemma FormatRoundTrip(f: FormatEnum, cur: FormatEnum)
    requires f in {FormatYaml, FormatJson, FormatToml}
    ensures FormatString(0) == "yaml"
    ensures UnmarshalFormat(cur, FormatString(f)) == Unmarshalled(f, None)
  {
    assert ToLower("yaml") == "yaml";
    assert ToLower("json") == "json";
    assert ToLower("toml") == "toml";
  }
}
