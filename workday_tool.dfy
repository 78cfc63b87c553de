/**
 * The Workday tool's two projections of its stored settings: `to_node`, the
 * record shown on a canvas node, and the arguments `to_code` hands to its code
 * template; and the defaults its configuration form displays.
 */
module WorkdayTool {
  import opened Text
  import opened EnterpriseTool

  /** A stored setting of a Workday tool. */
  datatype Setting =
    | TenantUrl
    | TenantName
    | Environment
    | AuthType
    | ClientId
    | ClientSecret
    | RefreshToken
    | Username
    | Password
    | ApiVersion
    | ServiceName
    | ReportFormat

  /** The key under which a setting is stored. */
  function Key(s: Setting): string {
    match s
    case TenantUrl => "tenant_url"
    case TenantName => "tenant_name"
    case Environment => "environment"
    case AuthType => "auth_type"
    case ClientId => "client_id"
    case ClientSecret => "client_secret"
    case RefreshToken => "refresh_token"
    case Username => "username"
    case Password => "password"
    case ApiVersion => "api_version"
    case ServiceName => "service_name"
    case ReportFormat => "report_format"
  }

  /** Distinct settings are stored under distinct keys, none of them `name` or `type`. */
  lemma KeysDistinct(s: Setting, t: Setting)
    ensures Key(s) == Key(t) ==> s == t
    ensures Key(s) != "name" && Key(s) != "type"
  {
  }

  /** The settings `to_node` copies onto the node; the others are credentials. */
  const NodeSettings: set<Setting> := {TenantUrl, TenantName, Environment, AuthType, ApiVersion, ServiceName, ReportFormat}

  /** Every setting `to_code` passes to the template. */
  const AllSettings: set<Setting> := NodeSettings + {ClientId, ClientSecret, RefreshToken, Username, Password}

  /** The fallback `to_node` and `to_code` use for a setting missing from the stored configuration. */
  function BackendDefault(s: Setting): string {
    match s
    case Environment => "Implementation"
    case AuthType => "oauth"
    case ApiVersion => "v40.0"
    case ReportFormat => "json"
    case _ => ""
  }

  /** The value the Workday configuration form shows for a setting that is missing or empty. */
  function FormDefault(s: Setting): string {
    match s
    case Environment => "Implementation"
    case AuthType => "oauth"
    case ApiVersion => "v40.0"
    case ReportFormat => "json"
    case _ => ""
  }

  /** The stored value of a setting, or its backend default when the key is missing. */
  function Value(tool: Tool, s: Setting): (r: string)
    ensures Key(s) in tool.config ==> r == tool.config[Key(s)]
    ensures Key(s) !in tool.config ==> r == BackendDefault(s)
  {
    Get(tool.config, Key(s), BackendDefault(s))
  }

  /** The stored settings named in `domain`, each under its key, missing ones at their default. */
  function Project(tool: Tool, domain: set<Setting>): (r: map<string, string>)
    ensures r.Keys == set s | s in domain :: Key(s)
    ensures forall s :: s !in domain ==> Key(s) !in r
    ensures forall s :: s in domain ==> r[Key(s)] == Value(tool, s)
  {
    var m := map s | s in domain :: Key(s) := Value(tool, s);
    assert forall s :: Key(s) in m.Keys ==> s in domain by {
      forall s | Key(s) in m.Keys ensures s in domain {
        var t :| t in domain && Key(t) == Key(s);
        KeysDistinct(s, t);
      }
    }
    m
  }

  /** `to_node`: the tool's name and type and its non-credential settings, never a credential. */
  function ToNode(tool: Tool): (r: map<string, string>)
    ensures r.Keys == {"name", "type"} + (set s | s in NodeSettings :: Key(s))
    ensures r["name"] == tool.name && r["type"] == "workday"
    ensures forall s :: s !in NodeSettings ==> Key(s) !in r
  {
    var settings := Project(tool, NodeSettings);
    settings["name" := tool.name]["type" := "workday"]
  }

  /** A setting on the node is the stored value verbatim, or the backend default when the key is missing. */
  lemma NodeSetting(tool: Tool, s: Setting)
    requires s in NodeSettings
    ensures Key(s) in tool.config ==> ToNode(tool)[Key(s)] == tool.config[Key(s)]
    ensures Key(s) !in tool.config ==> ToNode(tool)[Key(s)] == BackendDefault(s)
  {
    KeysDistinct(s, s);
  }

  /** The arguments of `to_code`: the normalised name and every setting, credentials included. */
  function ToCodeArgs(tool: Tool): (r: map<string, string>)
    ensures r.Keys == {"name"} + (set s | s in AllSettings :: Key(s))
    ensures r["name"] == CodeName(tool.name)
  {
    var settings := Project(tool, AllSettings);
    settings["name" := CodeName(tool.name)]
  }

  /** A template argument is the stored value verbatim, or the backend default when the key is missing. */
  lemma CodeArg(tool: Tool, s: Setting)
    requires s in AllSettings
    ensures Key(s) in tool.config ==> ToCodeArgs(tool)[Key(s)] == tool.config[Key(s)]
    ensures Key(s) !in tool.config ==> ToCodeArgs(tool)[Key(s)] == BackendDefault(s)
  {
    KeysDistinct(s, s);
  }

  /** The node and the template agree on every setting they share; the template receives the
      credentials in addition, the node its type. */
  lemma CodeArgsExtendNode(tool: Tool)
    ensures forall s :: s in NodeSettings ==> ToCodeArgs(tool)[Key(s)] == ToNode(tool)[Key(s)]
    ensures forall s :: Key(s) in ToCodeArgs(tool) && Key(s) !in ToNode(tool) <==> s in AllSettings - NodeSettings
    ensures "type" in ToNode(tool) && "type" !in ToCodeArgs(tool)
  {
    forall s | s in NodeSettings ensures ToCodeArgs(tool)[Key(s)] == ToNode(tool)[Key(s)] {
      NodeSetting(tool, s);
      CodeArg(tool, s);
    }
    forall s ensures Key(s) in ToCodeArgs(tool) && Key(s) !in ToNode(tool) <==> s in AllSettings - NodeSettings {
      KeysDistinct(s, s);
    }
    assert "type" !in ToCodeArgs(tool) by {
      forall s ensures Key(s) != "type" { KeysDistinct(s, s); }
    }
  }

  /** The fallbacks of the backend are the ones the form shows. */
  lemma DefaultsAgree(s: Setting)
    ensures BackendDefault(s) == FormDefault(s)
  {
  }

  /** For a setting that is not stored, the template sees what the form shows; for a stored one
      the two differ exactly when it is empty and the form has a non-empty default. */
  lemma BackendMatchesForm(tool: Tool, s: Setting)
    requires s in AllSettings
    ensures Key(s) !in tool.config ==> ToCodeArgs(tool)[Key(s)] == FormValue(tool.config, Key(s), FormDefault(s))
    ensures ToCodeArgs(tool)[Key(s)] == FormValue(tool.config, Key(s), FormDefault(s))
      <==> Key(s) !in tool.config || tool.config[Key(s)] != "" || FormDefault(s) == ""
  {
    CodeArg(tool, s);
    GetAgreesWithForm(tool.config, Key(s), FormDefault(s));
  }
}
