/**
 * The canvas node record shared by the four tool-operation panels, and the
 * nested spread update each panel's `handleUpdate` performs:
 * `node.data.toolOperation.<integration>[field] := value`, every enclosing
 * level rebuilt by copying.
 */
module CanvasNode {
  import opened Wrappers

  datatype Integration = Salesforce | Sap | Workday | Databricks

  /** One integration's operation settings: field name to text (JSON is kept as unparsed text). */
  type Settings = map<string, string>

  datatype ToolOperation = ToolOperation(
    salesforce: Option<Settings>,
    sap: Option<Settings>,
    workday: Option<Settings>,
    databricks: Option<Settings>)

  datatype NodeSettings = NodeSettings(
    inputFormat: Option<string>, outputMode: Option<string>,
    systemPrompt: Option<string>, userPrompt: Option<string>)

  datatype LlmRef = LlmRef(alias: string, provider: string, model: string, llmType: Option<string>)

  datatype ToolRef = ToolRef(id: string, name: string, description: string, toolType: Option<string>)

  datatype NodeData = NodeData(
    nodeType: string,
    nodeLabel: string,
    description: Option<string>,
    settings: Option<NodeSettings>,
    llm: Option<LlmRef>,
    tool: Option<ToolRef>,
    toolOperation: Option<ToolOperation>)

  datatype Position = Position(x: real, y: real)

  datatype CustomNode = CustomNode(id: string, nodeType: string, data: NodeData, position: Position)

  /** `toolOperation?.<integration>`. */
  function SettingsOf(ops: Option<ToolOperation>, i: Integration): Option<Settings> {
    match ops
    case None => None
    case Some(o) =>
      match i
      case Salesforce => o.salesforce
      case Sap => o.sap
      case Workday => o.workday
      case Databricks => o.databricks
  }

  /** `node.data.toolOperation?.<integration>?.<key>`. */
  function Stored(node: CustomNode, i: Integration, key: string): Option<string> {
    match SettingsOf(node.data.toolOperation, i)
    case None => None
    case Some(s) => if key in s then Some(s[key]) else None
  }

  /** JavaScript's `value || fallback` on an optional string: the fallback replaces a
      missing value and an empty one alike. */
  function OrDefault(value: Option<string>, fallback: string): (r: string)
    ensures value.Some? && value.value != "" ==> r == value.value
    ensures value.None? || value.value == "" ==> r == fallback
  {
    if value.Some? && value.value != "" then value.value else fallback
  }

  /** `{ ...ops, <integration>: settings }`; spreading an absent object copies nothing. */
  function WithSettings(ops: Option<ToolOperation>, i: Integration, s: Settings): (r: ToolOperation)
    ensures SettingsOf(Some(r), i) == Some(s)
    ensures forall j :: j != i ==> SettingsOf(Some(r), j) == SettingsOf(ops, j)
  {
    var o := ops.GetOr(ToolOperation(None, None, None, None));
    match i
    case Salesforce => o.(salesforce := Some(s))
    case Sap => o.(sap := Some(s))
    case Workday => o.(workday := Some(s))
    case Databricks => o.(databricks := Some(s))
  }

  /** The body of each panel's `handleUpdate`: exactly the one key of the one integration
      changes; the node's id, type, position, its other data and the other integrations'
      settings are untouched. */
  function UpdateField(node: CustomNode, i: Integration, field: string, value: string): (r: CustomNode)
    ensures r.id == node.id && r.nodeType == node.nodeType && r.position == node.position
    ensures r.data.(toolOperation := None) == node.data.(toolOperation := None)
    ensures Stored(r, i, field) == Some(value)
    ensures forall k :: k != field ==> Stored(r, i, k) == Stored(node, i, k)
    ensures forall j :: j != i ==> SettingsOf(r.data.toolOperation, j) == SettingsOf(node.data.toolOperation, j)
  {
    var settings := SettingsOf(node.data.toolOperation, i).GetOr(map[]);
    node.(data := node.data.(toolOperation := Some(WithSettings(node.data.toolOperation, i, settings[field := value]))))
  }
}
