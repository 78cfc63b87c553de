/**
 * The flow code generator: it turns a submitted flow graph into the context of
 * the LangGraph program template. Every node contributes the code of its LLM
 * and of its tool (each alias and each tool name once), every agent node a
 * function, and every edge is rewritten from node ids to function names.
 *
 * The database lookups, the tools' code templates and the program template
 * are collaborators this model does not see; they are the fields of `Backend`.
 */
module FlowCodegen {
  import opened Wrappers
  import opened Text

  /** The LLM chosen on a node: its alias, its type (`remote` or not) and the model name. */
  datatype LlmChoice = LlmChoice(alias: string, llmType: string, model: string)

  /** A node of the submitted flow graph; `settings` is the node's free-form `node` record. */
  datatype FlowNode = FlowNode(
    id: string,
    nodeType: string,
    nodeLabel: string,
    description: string,
    llm: Option<LlmChoice>,
    tool: Option<string>,
    settings: map<string, string>)

  /** An edge: node ids on input, function names or `START` / `END` once resolved. */
  datatype Edge = Edge(source: string, target: string)

  /** One item of an insertion-ordered dictionary from a name to generated code. */
  datatype Entry = Entry(key: string, code: string)

  /** One element of the template's `nodes` list. */
  datatype NodeFunction = NodeFunction(functionName: string, code: string)

  /** The arguments handed to a tool's `get_agent_fn`. */
  datatype AgentCall = AgentCall(
    agentLabel: string,
    agentDescription: string,
    systemPrompt: string,
    userPrompt: string,
    toolName: string,
    agentInput: string,
    agentOutput: string)

  /** What the program template is rendered with. */
  datatype Context = Context(nodes: seq<NodeFunction>, edges: seq<Edge>, llms: seq<string>, tools: seq<string>)

  /** The collaborators of the generator, as functions of what they are given. */
  datatype Backend = Backend(
    llmCode: (string, bool, string) -> string,      // the LLM client found by alias, rendered for a model
    toolCode: string -> string,                     // the tool found by name, rendered by its `to_code`
    toolFunctionName: string -> string,             // the tool's `sanitize_to_func_name`
    agentFunction: (string, AgentCall) -> string,   // the named tool's `get_agent_fn`
    render: Context -> string)                      // the program template

  /** The result of a generation: the program, or the node and prompt key whose lookup failed. */
  datatype Generated = Rendered(program: string) | KeyMissing(nodeId: string, key: string)

  // ----- function names -----

  /** `label.lower().strip().replace(" ", "_").replace("-", "_")`. */
  function SanitizeLabel(text: string): string {
    ReplaceChar(ReplaceChar(PyStrip(Lower(text)), ' ', '_'), '-', '_')
  }

  /** Stripping a string without capitals leaves a shorter one without capitals, whose ends
      are not whitespace. */
  lemma StripShape(s: string)
    requires forall i :: 0 <= i < |s| ==> !IsAsciiUpper(s[i])
    ensures |PyStrip(s)| <= |s|
    ensures forall i :: 0 <= i < |PyStrip(s)| ==> !IsAsciiUpper(PyStrip(s)[i])
    ensures PyStrip(s) != [] ==> !IsPyWhitespace(PyStrip(s)[0]) && !IsPyWhitespace(PyStrip(s)[|PyStrip(s)| - 1])
  {
    TrimIsSlice(s, IsPyWhitespace);
    var t := PyStrip(s);
    var lo := TrimLo(s, IsPyWhitespace);
    forall i | 0 <= i < |t| ensures !IsAsciiUpper(t[i]) {
      assert t[i] == s[lo + i];
    }
  }

  /** Lower-casing and stripping commute: no whitespace character is a capital, and no
      capital becomes whitespace. */
  lemma StripLowerCommute(text: string)
    ensures PyStrip(Lower(text)) == Lower(PyStrip(text))
  {
    var lowered := Lower(text);
    assert forall i :: 0 <= i < |text| ==> (IsPyWhitespace(lowered[i]) <==> IsPyWhitespace(text[i]));
    TrimSameBounds(lowered, text, IsPyWhitespace);
    TrimIsSlice(lowered, IsPyWhitespace);
    TrimIsSlice(text, IsPyWhitespace);
    var lo := TrimLo(text, IsPyWhitespace);
    var stripped := PyStrip(lowered);
    var plain := PyStrip(text);
    forall k | 0 <= k < |plain| ensures stripped[k] == Lower(plain)[k] {
      assert stripped[k] == lowered[lo + k];
      assert plain[k] == text[lo + k];
    }
  }

  /** A sanitized label is the stripped label, character for character, with each space and
      hyphen turned into `_` and each capital into its lower-case letter; so it has no space,
      hyphen or capital letter, and neither starts nor ends with whitespace. */
  lemma SanitizedShape(text: string)
    ensures |SanitizeLabel(text)| == |PyStrip(text)| <= |text|
    ensures forall k :: 0 <= k < |SanitizeLabel(text)| && (PyStrip(text)[k] == ' ' || PyStrip(text)[k] == '-') ==>
      SanitizeLabel(text)[k] == '_'
    ensures forall k :: 0 <= k < |SanitizeLabel(text)| && IsAsciiUpper(PyStrip(text)[k]) ==>
      SanitizeLabel(text)[k] == (PyStrip(text)[k] as int + 32) as char
    ensures forall k :: (0 <= k < |SanitizeLabel(text)| && PyStrip(text)[k] != ' ' && PyStrip(text)[k] != '-' &&
                         !IsAsciiUpper(PyStrip(text)[k])) ==> SanitizeLabel(text)[k] == PyStrip(text)[k]
    ensures forall i :: 0 <= i < |SanitizeLabel(text)| ==>
      SanitizeLabel(text)[i] != ' ' && SanitizeLabel(text)[i] != '-' && !IsAsciiUpper(SanitizeLabel(text)[i])
    ensures SanitizeLabel(text) != [] ==>
      !IsPyWhitespace(SanitizeLabel(text)[0]) && !IsPyWhitespace(SanitizeLabel(text)[|SanitizeLabel(text)| - 1])
  {
    StripLowerCommute(text);
    TrimIsSlice(text, IsPyWhitespace);
    var plain := PyStrip(text);
    var lowered := Lower(plain);
    var once := ReplaceChar(lowered, ' ', '_');
    var r := ReplaceChar(once, '-', '_');
    assert r == SanitizeLabel(text);
    forall i | 0 <= i < |r| ensures r[i] != ' ' && r[i] != '-' && !IsAsciiUpper(r[i]) {
      assert once[i] != ' ';
    }
    if r != [] {
      assert !IsPyWhitespace(plain[0]) && !IsPyWhitespace(plain[|plain| - 1]);
    }
  }

  /** A label sanitizes to the empty string exactly when it is all whitespace. */
  lemma SanitizedEmptyIffBlank(text: string)
    ensures SanitizeLabel(text) == [] <==> forall i :: 0 <= i < |text| ==> IsPyWhitespace(text[i])
  {
    var lowered := Lower(text);
    assert forall i :: 0 <= i < |text| ==> (IsPyWhitespace(lowered[i]) <==> IsPyWhitespace(text[i]));
    TrimEmptyIffAllWhitespace(lowered, IsPyWhitespace);
  }

  /** Sanitizing a sanitized label changes nothing. */
  lemma SanitizeIdempotent(text: string)
    ensures SanitizeLabel(SanitizeLabel(text)) == SanitizeLabel(text)
  {
    var r := SanitizeLabel(text);
    SanitizedShape(text);
    LowerFixed(r);
    TrimFixed(r, IsPyWhitespace);
    var once := ReplaceChar(r, ' ', '_');
    assert once == r;
    assert ReplaceChar(once, '-', '_') == r;
  }

  /** `sanitize_label(label) or f"node_{id}"`: the name of a node's function. */
  function FunctionName(n: FlowNode): (r: string)
    ensures r != []
    ensures SanitizeLabel(n.nodeLabel) != [] ==> r == SanitizeLabel(n.nodeLabel)
    ensures SanitizeLabel(n.nodeLabel) == [] ==> r == "node_" + n.id
  {
    var name := SanitizeLabel(n.nodeLabel);
    if name != [] then name else "node_" + n.id
  }

  predicate IsTerminal(n: FlowNode) {
    n.nodeType == "start" || n.nodeType == "end"
  }

  /** What an edge endpoint that names node `n` becomes. */
  function EndpointName(n: FlowNode): string {
    if !IsTerminal(n) then FunctionName(n)
    else if n.nodeType == "start" then "START"
    else "END"
  }

  // ----- edges -----

  /** An endpoint resolved by the first node whose id it names; left as it is when none does. */
  function Resolve(nodes: seq<FlowNode>, endpoint: string): string {
    if nodes == [] then endpoint
    else if nodes[0].id == endpoint then EndpointName(nodes[0])
    else Resolve(nodes[1..], endpoint)
  }

  /** The first node carrying the id decides the endpoint. */
  lemma {:induction false} ResolveFirstMatch(nodes: seq<FlowNode>, endpoint: string, i: nat)
    requires i < |nodes| && nodes[i].id == endpoint
    requires forall j :: 0 <= j < i ==> nodes[j].id != endpoint
    ensures Resolve(nodes, endpoint) == EndpointName(nodes[i])
  {
    if i > 0 {
      ResolveFirstMatch(nodes[1..], endpoint, i - 1);
    }
  }

  /** An endpoint that names no node is kept verbatim. */
  lemma {:induction false} ResolveUnmatched(nodes: seq<FlowNode>, endpoint: string)
    requires forall j :: 0 <= j < |nodes| ==> nodes[j].id != endpoint
    ensures Resolve(nodes, endpoint) == endpoint
  {
    if nodes != [] {
      ResolveUnmatched(nodes[1..], endpoint);
    }
  }

  function ResolveEdge(nodes: seq<FlowNode>, e: Edge): Edge {
    Edge(Resolve(nodes, e.source), Resolve(nodes, e.target))
  }

  /** The scan over the nodes for one endpoint, stopping at the first match. */
  method ResolveEndpoint(nodes: seq<FlowNode>, endpoint: string) returns (r: string)
    ensures r == Resolve(nodes, endpoint)
  {
    r := endpoint;
    var i := 0;
    while i < |nodes|
      invariant 0 <= i <= |nodes|
      invariant Resolve(nodes, endpoint) == Resolve(nodes[i..], endpoint)
    {
      if nodes[i].id == endpoint {
        r := EndpointName(nodes[i]);
        break;
      }
      assert nodes[i..][1..] == nodes[i + 1..];
      i := i + 1;
    }
  }

  // ----- the LLM and tool tables -----

  /** The two dictionaries the node loop fills. */
  datatype Registry = Llms | Tools

  /** The entry node `n` offers to a registry: its LLM alias with the client's code, or its
      tool name with the tool's code. */
  function Contribution(n: FlowNode, b: Backend, registry: Registry): Option<Entry> {
    match registry
    case Llms =>
      if n.llm.Some? then
        Some(Entry(n.llm.value.alias, b.llmCode(n.llm.value.alias, n.llm.value.llmType == "remote", n.llm.value.model)))
      else None
    case Tools =>
      if n.tool.Some? then Some(Entry(n.tool.value, b.toolCode(n.tool.value))) else None
  }

  /** The placeholder put into a registry that is still empty after a node. */
  const Placeholder := Entry("default", "pass")

  /** `key in d.keys()`. */
  predicate HasKey(t: seq<Entry>, key: string) {
    exists i :: 0 <= i < |t| && t[i].key == key
  }

  /** `list(d.values())`. */
  function Values(t: seq<Entry>): (r: seq<string>)
    ensures |r| == |t| && forall i :: 0 <= i < |t| ==> r[i] == t[i].code
  {
    seq(|t|, i requires 0 <= i < |t| => t[i].code)
  }

  /** A dictionary holds each key once. */
  predicate DistinctKeys(t: seq<Entry>) {
    forall i, j :: 0 <= i < j < |t| ==> t[i].key != t[j].key
  }

  /** `d.get(k)`. */
  function Lookup(t: seq<Entry>, k: string): (r: Option<string>)
    ensures r.Some? <==> HasKey(t, k)
  {
    if t == [] then None
    else if Lookup(t[..|t| - 1], k).Some? then Lookup(t[..|t| - 1], k)
    else if t[|t| - 1].key == k then Some(t[|t| - 1].code)
    else None
  }

  /** One node's turn on a registry: insert its entry unless the key is present, then insert
      the placeholder if the registry is still empty. */
  function Register(t: seq<Entry>, c: Option<Entry>): (r: seq<Entry>)
    ensures r != []
    ensures |t| <= |r| && r[..|t|] == t
  {
    var added := if c.Some? && !HasKey(t, c.value.key) then t + [c.value] else t;
    assert added[..|t|] == t;
    if |added| == 0 then [Placeholder] else added
  }

  /** A registry turn keeps the keys distinct, and afterwards the offered key is present. */
  lemma RegisterKeepsKeysDistinct(t: seq<Entry>, c: Option<Entry>)
    requires DistinctKeys(t)
    ensures DistinctKeys(Register(t, c))
    ensures c.Some? ==> HasKey(Register(t, c), c.value.key)
  {
    var r := Register(t, c);
    if c.Some? {
      if HasKey(t, c.value.key) {
        var i :| 0 <= i < |t| && t[i].key == c.value.key;
        assert r[i] == t[i];
      } else {
        assert r[|r| - 1] == c.value;
      }
    }
  }

  /** The registry after the node loop has visited `ns`. */
  function Table(ns: seq<FlowNode>, b: Backend, registry: Registry): (r: seq<Entry>)
    ensures ns != [] ==> r != []
    decreases |ns|
  {
    if ns == [] then []
    else Register(Table(ns[..|ns| - 1], b, registry), Contribution(ns[|ns| - 1], b, registry))
  }

  /** A registry never holds a key twice. */
  lemma {:induction false} TableKeysDistinct(ns: seq<FlowNode>, b: Backend, registry: Registry)
    ensures DistinctKeys(Table(ns, b, registry))
    decreases |ns|
  {
    if ns != [] {
      TableKeysDistinct(ns[..|ns| - 1], b, registry);
      RegisterKeepsKeysDistinct(Table(ns[..|ns| - 1], b, registry), Contribution(ns[|ns| - 1], b, registry));
    }
  }

  /** Some node of `ns` offers exactly entry `e`. */
  ghost predicate Contributed(ns: seq<FlowNode>, b: Backend, registry: Registry, e: Entry) {
    exists j :: 0 <= j < |ns| && Contribution(ns[j], b, registry) == Some(e)
  }

  /** Every entry of a registry was offered by a node, or is the placeholder, which only a
      first node offering nothing puts there. */
  lemma {:induction false} TableEntriesFromNodes(ns: seq<FlowNode>, b: Backend, registry: Registry)
    ensures forall e :: e in Table(ns, b, registry) ==>
      Contributed(ns, b, registry, e) || (e == Placeholder && Contribution(ns[0], b, registry).None?)
  {
    if ns != [] {
      var init := ns[..|ns| - 1];
      TableEntriesFromNodes(init, b, registry);
      var last := Contribution(ns[|ns| - 1], b, registry);
      forall e | e in Table(ns, b, registry)
        ensures Contributed(ns, b, registry, e) || (e == Placeholder && Contribution(ns[0], b, registry).None?)
      {
        if e in Table(init, b, registry) {
          assert init[0] == ns[0];
          if Contributed(init, b, registry, e) {
            var j :| 0 <= j < |init| && Contribution(init[j], b, registry) == Some(e);
            assert ns[j] == init[j];
            assert Contribution(ns[j], b, registry) == Some(e);
          }
        } else if last.Some? && e == last.value {
          assert Contribution(ns[|ns| - 1], b, registry) == Some(e);
        } else {
          assert init == [];
          assert ns[|ns| - 1] == ns[0];
        }
      }
    }
  }

  /** Every key a node offers ends up in the registry. */
  lemma {:induction false} EveryKeyRegistered(ns: seq<FlowNode>, b: Backend, registry: Registry, i: nat)
    requires i < |ns| && Contribution(ns[i], b, registry).Some?
    ensures Lookup(Table(ns, b, registry), Contribution(ns[i], b, registry).value.key).Some?
  {
    var init := ns[..|ns| - 1];
    var k := Contribution(ns[i], b, registry).value.key;
    if i < |ns| - 1 {
      assert init[i] == ns[i];
      EveryKeyRegistered(init, b, registry, i);
      var t := Table(init, b, registry);
      var j :| 0 <= j < |t| && t[j].key == k;
      assert Table(ns, b, registry)[j] == t[j];
    }
  }

  /** The registry after a prefix of the nodes is a prefix of the final one: entries are
      never replaced or reordered. */
  lemma {:induction false} TablePrefix(ns: seq<FlowNode>, b: Backend, registry: Registry, k: nat)
    requires k <= |ns|
    ensures |Table(ns[..k], b, registry)| <= |Table(ns, b, registry)|
    ensures Table(ns, b, registry)[..|Table(ns[..k], b, registry)|] == Table(ns[..k], b, registry)
    decreases |ns|
  {
    if k < |ns| {
      var init := ns[..|ns| - 1];
      assert init[..k] == ns[..k];
      TablePrefix(init, b, registry, k);
    } else {
      assert ns[..k] == ns;
    }
  }

  /** No node before the first offer of a key ever put that key in the registry, unless it is
      the placeholder's and the first node offered nothing. */
  lemma KeyAbsentBefore(ns: seq<FlowNode>, b: Backend, registry: Registry, i: nat, k: string)
    requires i <= |ns| && (k != Placeholder.key || i == 0 || Contribution(ns[0], b, registry).Some?)
    requires forall j :: 0 <= j < i ==>
      Contribution(ns[j], b, registry).None? || Contribution(ns[j], b, registry).value.key != k
    ensures !HasKey(Table(ns[..i], b, registry), k)
  {
    if i > 0 {
      var prefix := ns[..i];
      TableEntriesFromNodes(prefix, b, registry);
      var t := Table(prefix, b, registry);
      assert forall m :: 0 <= m < |prefix| ==> prefix[m] == ns[m];
      assert prefix[0] == ns[0];
      forall j | 0 <= j < |t| ensures t[j].key != k {
        assert t[j] in t;
      }
    } else {
      assert ns[..0] == [];
    }
  }

  /** The first node to offer a key decides its code: later offers of the same key are
      ignored. The placeholder's key `default` is decided this way too, unless the first node
      offered nothing and the placeholder took the key. */
  lemma FirstOccurrenceWins(ns: seq<FlowNode>, b: Backend, registry: Registry, i: nat)
    requires i < |ns| && Contribution(ns[i], b, registry).Some?
    requires forall j :: 0 <= j < i ==>
      Contribution(ns[j], b, registry).None? || Contribution(ns[j], b, registry).value.key != Contribution(ns[i], b, registry).value.key
    requires Contribution(ns[i], b, registry).value.key != Placeholder.key || i == 0 || Contribution(ns[0], b, registry).Some?
    ensures Lookup(Table(ns, b, registry), Contribution(ns[i], b, registry).value.key)
      == Some(Contribution(ns[i], b, registry).value.code)
  {
    var e := Contribution(ns[i], b, registry).value;
    KeyAbsentBefore(ns, b, registry, i, e.key);
    var t := Table(ns[..i], b, registry);
    assert ns[..i + 1][..i] == ns[..i];
    var u := Table(ns[..i + 1], b, registry);
    assert u == t + [e];
    assert u[..|t|] == t;
    assert Lookup(u, e.key) == Some(e.code);
    TablePrefix(ns, b, registry, i + 1);
    LookupExtended(u, Table(ns, b, registry), e.key);
  }

  /** A key found in a dictionary is found with the same code once the dictionary has grown. */
  lemma {:induction false} LookupExtended(t: seq<Entry>, u: seq<Entry>, k: string)
    requires |t| <= |u| && u[..|t|] == t && Lookup(t, k).Some?
    ensures Lookup(u, k) == Lookup(t, k)
    decreases |u|
  {
    if |u| > |t| {
      assert u[..|u| - 1][..|t|] == t;
      LookupExtended(t, u[..|u| - 1], k);
    } else {
      assert u == t;
    }
  }

  /** A registry filled by at least one node is never empty. */
  lemma NonEmptyRegistries(ns: seq<FlowNode>, b: Backend)
    requires ns != []
    ensures |Values(Table(ns, b, Llms))| > 0 && |Values(Table(ns, b, Tools))| > 0
  {
  }

  /** When the first node offers nothing, the placeholder takes the key `default`: a later
      node's LLM or tool named `default` is ignored and the key keeps the code `pass`. */
  lemma DefaultAliasShadowed(ns: seq<FlowNode>, b: Backend, registry: Registry, i: nat)
    requires 0 < i < |ns| && Contribution(ns[0], b, registry).None?
    requires Contribution(ns[i], b, registry).Some? && Contribution(ns[i], b, registry).value.key == Placeholder.key
    ensures Lookup(Table(ns, b, registry), Placeholder.key) == Some(Placeholder.code)
  {
    assert ns[..1][..0] == [];
    var first := ns[..1];
    assert first[..|first| - 1] == [] && first[|first| - 1] == ns[0];
    assert Table(first[..|first| - 1], b, registry) == [];
    assert Register([], None) == [Placeholder];
    var t := Table(first, b, registry);
    assert t == [Placeholder];
    assert Lookup(t, Placeholder.key) == Some(Placeholder.code);
    TablePrefix(ns, b, registry, 1);
    LookupExtended(t, Table(ns, b, registry), Placeholder.key);
  }

  // ----- agent functions -----

  /** The keys of the `node` record that `get_agent_fn`'s arguments read, in that order. */
  const PromptKeys: seq<string> := ["systemPrompt", "userPrompt", "inputFormat", "outputMode"]

  /** The first of `keys` that `m` lacks. */
  function FirstAbsent(keys: seq<string>, m: map<string, string>): (r: Option<string>)
    ensures r.Some? ==> r.value in keys && r.value !in m
    ensures r.None? <==> forall k :: k in keys ==> k in m
  {
    if keys == [] then None
    else if keys[0] !in m then Some(keys[0])
    else FirstAbsent(keys[1..], m)
  }

  /** The prompt key whose lookup fails for node `n`: only agent nodes with a tool look them up. */
  function MissingAt(n: FlowNode): Option<string> {
    if IsTerminal(n) || n.tool.None? then None else FirstAbsent(PromptKeys, n.settings)
  }

  /** The failed lookup that ends generation, if any: the first node, in graph order, that
      lacks a prompt key. */
  function FirstMissing(ns: seq<FlowNode>): (r: Option<(string, string)>)
    ensures r.None? <==> forall j :: 0 <= j < |ns| ==> MissingAt(ns[j]).None?
    decreases |ns|
  {
    if ns == [] then None
    else if FirstMissing(ns[..|ns| - 1]).Some? then FirstMissing(ns[..|ns| - 1])
    else if MissingAt(ns[|ns| - 1]).Some? then Some((ns[|ns| - 1].id, MissingAt(ns[|ns| - 1]).value))
    else None
  }

  /** The failure reported is the one of the first node that lacks a key. */
  lemma {:induction false} FirstMissingIsFirst(ns: seq<FlowNode>, i: nat)
    requires i < |ns| && MissingAt(ns[i]).Some?
    requires forall j :: 0 <= j < i ==> MissingAt(ns[j]).None?
    ensures FirstMissing(ns) == Some((ns[i].id, MissingAt(ns[i]).value))
  {
    var init := ns[..|ns| - 1];
    if i < |ns| - 1 {
      assert init[i] == ns[i];
      assert forall j :: 0 <= j < i ==> init[j] == ns[j];
      FirstMissingIsFirst(init, i);
    } else {
      assert forall j :: 0 <= j < |init| ==> init[j] == ns[j];
    }
  }

  /** The arguments of `get_agent_fn`: the prompts are wrapped as a triple-quoted string and
      a triple-quoted f-string, and the tool name is passed through the tool's own rule. */
  function AgentCallOf(n: FlowNode, b: Backend): AgentCall
    requires n.tool.Some? && forall k :: k in PromptKeys ==> k in n.settings
  {
    AgentCall(
      n.nodeLabel,
      n.description,
      "\"\"\"" + n.settings["systemPrompt"] + "\"\"\"",
      "f\"\"\"" + n.settings["userPrompt"] + "\"\"\"",
      b.toolFunctionName(n.tool.value),
      n.settings["inputFormat"],
      n.settings["outputMode"])
  }

  /** The `nodes` element of an agent node: a `pass` stub without a tool, otherwise the
      tool's agent function under the node's function name. */
  function NodeFunctionOf(n: FlowNode, b: Backend): (r: NodeFunction)
    requires !IsTerminal(n) && MissingAt(n).None?
    ensures n.tool.None? ==> r.functionName == "pass" && r.code == "pass"
    ensures n.tool.Some? ==> r.functionName == EndpointName(n) && r.functionName != "" 
  {
    if n.tool.None? then NodeFunction("pass", "pass")
    else NodeFunction(FunctionName(n), b.agentFunction(n.tool.value, AgentCallOf(n, b)))
  }

  /** How many nodes of `ns` are neither start nor end. */
  function AgentCount(ns: seq<FlowNode>): (r: nat)
    ensures r <= |ns|
    decreases |ns|
  {
    if ns == [] then 0
    else AgentCount(ns[..|ns| - 1]) + (if IsTerminal(ns[|ns| - 1]) then 0 else 1)
  }

  /** The template's `nodes` list after the node loop has visited `ns`. */
  function Functions(ns: seq<FlowNode>, b: Backend): (r: seq<NodeFunction>)
    requires FirstMissing(ns).None?
    ensures |r| == AgentCount(ns)
    decreases |ns|
  {
    if ns == [] then []
    else
      var init := ns[..|ns| - 1];
      assert forall j :: 0 <= j < |init| ==> init[j] == ns[j];
      var n := ns[|ns| - 1];
      Functions(init, b) + (if IsTerminal(n) then [] else [NodeFunctionOf(n, b)])
  }

  /** One function per agent node, in graph order: the agent node at position `i` owns the
      element after the functions of the agent nodes before it. */
  lemma {:induction false} FunctionsInGraphOrder(ns: seq<FlowNode>, b: Backend, i: nat)
    requires FirstMissing(ns).None? && i < |ns| && !IsTerminal(ns[i])
    ensures AgentCount(ns[..i]) < |Functions(ns, b)|
      && Functions(ns, b)[AgentCount(ns[..i])] == NodeFunctionOf(ns[i], b)
  {
    var init := ns[..|ns| - 1];
    assert forall j :: 0 <= j < |init| ==> init[j] == ns[j];
    if i < |ns| - 1 {
      assert init[i] == ns[i];
      assert init[..i] == ns[..i];
      FunctionsInGraphOrder(init, b, i);
    } else {
      assert ns[..i] == init;
    }
  }

  /** An agent node with a tool, the first to carry its id, is called by its edges under the
      same name its function is given. */
  lemma FunctionNameMatchesEdges(ns: seq<FlowNode>, b: Backend, i: nat)
    requires FirstMissing(ns).None? && i < |ns| && !IsTerminal(ns[i]) && ns[i].tool.Some?
    requires forall j :: 0 <= j < i ==> ns[j].id != ns[i].id
    ensures AgentCount(ns[..i]) < |Functions(ns, b)|
      && Functions(ns, b)[AgentCount(ns[..i])].functionName == Resolve(ns, ns[i].id)
  {
    FunctionsInGraphOrder(ns, b, i);
    ResolveFirstMatch(ns, ns[i].id, i);
  }

  /** An agent node without a tool, the first to carry its id, gets the stub name `pass`,
      while the edges naming it are resolved to its function name, which is not `pass`
      unless its label sanitizes to it. */
  lemma ToollessNodeIsUnreachable(ns: seq<FlowNode>, b: Backend, i: nat)
    requires FirstMissing(ns).None? && i < |ns| && !IsTerminal(ns[i]) && ns[i].tool.None?
    requires forall j :: 0 <= j < i ==> ns[j].id != ns[i].id
    requires SanitizeLabel(ns[i].nodeLabel) != "pass"
    ensures AgentCount(ns[..i]) < |Functions(ns, b)|
      && Functions(ns, b)[AgentCount(ns[..i])].functionName == "pass"
    ensures Resolve(ns, ns[i].id) == FunctionName(ns[i]) && FunctionName(ns[i]) != "pass"
  {
    FunctionsInGraphOrder(ns, b, i);
    ResolveFirstMatch(ns, ns[i].id, i);
    if SanitizeLabel(ns[i].nodeLabel) == [] {
      assert |FunctionName(ns[i])| >= 5;
    }
  }

  // ----- generate -----

  /** How one more node changes what the node loop has built. */
  lemma VisitStep(nodes: seq<FlowNode>, b: Backend, i: nat)
    requires i < |nodes| && FirstMissing(nodes[..i]).None? && MissingAt(nodes[i]).None?
    ensures FirstMissing(nodes[..i + 1]).None?
    ensures Table(nodes[..i + 1], b, Llms) == Register(Table(nodes[..i], b, Llms), Contribution(nodes[i], b, Llms))
    ensures Table(nodes[..i + 1], b, Tools) == Register(Table(nodes[..i], b, Tools), Contribution(nodes[i], b, Tools))
    ensures Functions(nodes[..i + 1], b)
      == Functions(nodes[..i], b) + (if IsTerminal(nodes[i]) then [] else [NodeFunctionOf(nodes[i], b)])
  {
    assert nodes[..i + 1][..i] == nodes[..i];
  }

  /** One node's turn on a registry: `d[key] = code` when the key is new, then the
      placeholder when the registry is still empty. */
  method Remember(t: seq<Entry>, c: Option<Entry>) returns (r: seq<Entry>)
    ensures r == Register(t, c)
  {
    r := t;
    if c.Some? && !HasKey(r, c.value.key) {
      r := r + [c.value];
    }
    if |r| == 0 {
      r := [Placeholder];
    }
  }

  /** The node loop of `generate`: fills the two registries and the function list node by
      node, and stops at the first node whose prompt lookup fails. */
  method VisitNodes(nodes: seq<FlowNode>, b: Backend)
    returns (failure: Option<(string, string)>, llms: seq<Entry>, tools: seq<Entry>, functions: seq<NodeFunction>)
    ensures failure == FirstMissing(nodes)
    ensures failure.None? ==>
      llms == Table(nodes, b, Llms) && tools == Table(nodes, b, Tools) && functions == Functions(nodes, b)
  {
    llms, tools, functions := [], [], [];
    var i := 0;
    assert nodes[..i] == [];
    assert FirstMissing(nodes[..i]).None?;
    assert llms == Table(nodes[..i], b, Llms) && tools == Table(nodes[..i], b, Tools);
    assert functions == Functions(nodes[..i], b);
    while i < |nodes|
      invariant 0 <= i <= |nodes|
      invariant FirstMissing(nodes[..i]).None?
      invariant llms == Table(nodes[..i], b, Llms)
      invariant tools == Table(nodes[..i], b, Tools)
      invariant functions == Functions(nodes[..i], b)
    {
      var n := nodes[i];
      llms := Remember(llms, Contribution(n, b, Llms));
      tools := Remember(tools, Contribution(n, b, Tools));
      var missing := MissingAt(n);
      if missing.Some? {
        assert forall j :: 0 <= j < i ==> nodes[..i][j] == nodes[j];
        FirstMissingIsFirst(nodes, i);
        return Some((n.id, missing.value)), llms, tools, functions;
      }
      VisitStep(nodes, b, i);
      if !IsTerminal(n) {
        if n.tool.None? {
          functions := functions + [NodeFunction("pass", "pass")];
        } else {
          var call := AgentCallOf(n, b);
          functions := functions + [NodeFunction(FunctionName(n), b.agentFunction(n.tool.value, call))];
        }
      }
      assert llms == Table(nodes[..i + 1], b, Llms);
      assert tools == Table(nodes[..i + 1], b, Tools);
      assert functions == Functions(nodes[..i + 1], b);
      i := i + 1;
    }
    assert nodes[..i] == nodes;
    failure := None;
  }

  /** `generate`: visits the nodes, then rewrites every edge in place and renders the template.
      A failed prompt lookup ends it before any edge is touched. */
  method Generate(nodes: seq<FlowNode>, edges: array<Edge>, b: Backend) returns (out: Generated)
    modifies edges
    ensures FirstMissing(nodes).Some? ==>
      out == KeyMissing(FirstMissing(nodes).value.0, FirstMissing(nodes).value.1) && edges[..] == old(edges[..])
    ensures FirstMissing(nodes).None? ==>
      (forall i :: 0 <= i < edges.Length ==> edges[i] == ResolveEdge(nodes, old(edges[i])))
      && out == Rendered(b.render(Context(
           Functions(nodes, b), edges[..], Values(Table(nodes, b, Llms)), Values(Table(nodes, b, Tools)))))
  {
    var failure, llms, tools, functions := VisitNodes(nodes, b);
    if failure.Some? {
      return KeyMissing(failure.value.0, failure.value.1);
    }
    var k := 0;
    while k < edges.Length
      invariant 0 <= k <= edges.Length
      invariant forall j :: 0 <= j < k ==> edges[j] == ResolveEdge(nodes, old(edges[j]))
      invariant forall j :: k <= j < edges.Length ==> edges[j] == old(edges[j])
    {
      var e := edges[k];
      var source := ResolveEndpoint(nodes, e.source);
      var target := ResolveEndpoint(nodes, e.target);
      edges[k] := Edge(source, target);
      k := k + 1;
    }
    out := Rendered(b.render(Context(functions, edges[..], Values(llms), Values(tools))));
  }
}
