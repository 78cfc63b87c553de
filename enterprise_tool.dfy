/**
 * What the four enterprise tools share: the stored tool record, Python's
 * `dict.get` with a default, the name passed to the code template, and the
 * way the matching frontend form displays a stored setting.
 */
module EnterpriseTool {
  import opened Text

  /** A stored tool: its display name and its configuration settings. */
  datatype Tool = Tool(name: string, config: map<string, string>)

  /** `config.get(key, default)`: the default replaces a missing key only. */
  function Get(config: map<string, string>, key: string, default: string): (r: string)
    ensures key in config ==> r == config[key]
    ensures key !in config ==> r == default
  {
    if key in config then config[key] else default
  }

  /** `config?.key || default` in the frontend form: the default replaces a missing key
      and an empty value alike. */
  function FormValue(config: map<string, string>, key: string, default: string): (r: string)
    ensures key in config && config[key] != "" ==> r == config[key]
    ensures key !in config || config[key] == "" ==> r == default
  {
    if key in config && config[key] != "" then config[key] else default
  }

  /** The backend and the form show the same value exactly when the key is missing, its
      value is not empty, or the default itself is empty. */
  lemma GetAgreesWithForm(config: map<string, string>, key: string, default: string)
    ensures Get(config, key, default) == FormValue(config, key, default)
        <==> key !in config || config[key] != "" || default == ""
  {
  }

  /** `name.lower().replace(" ", "_")`, the `name` argument of every tool's code template. */
  function CodeName(name: string): (r: string)
    ensures |r| == |name|
    ensures forall i :: 0 <= i < |r| ==> r[i] != ' ' && !IsAsciiUpper(r[i])
    ensures forall i :: 0 <= i < |r| && IsAsciiUpper(name[i]) ==> r[i] == (name[i] as int + 32) as char
    ensures forall i :: 0 <= i < |r| && name[i] == ' ' ==> r[i] == '_'
    ensures forall i :: 0 <= i < |r| && name[i] != ' ' && !IsAsciiUpper(name[i]) ==> r[i] == name[i]
  {
    ReplaceChar(Lower(name), ' ', '_')
  }

  /** Applying the name rule a second time changes nothing. */
  lemma CodeNameIdempotent(name: string)
    ensures CodeName(CodeName(name)) == CodeName(name)
  {
    var once := CodeName(name);
    LowerFixed(once);
  }
}
