# Agent builder: tool wizard, operation panels and flow code generation

This project is a Dafny model of the core of an agent-building application.
Users assemble agents as flow graphs on a canvas. They register enterprise
tools (Databricks, Salesforce, Workday, SAP) through a step-by-step wizard.
The backend turns a saved flow into a LangGraph program. The model covers
four parts.

- **The tool-creation wizard** (`wizard.dfy`, module `ToolCreationWizard`).
  It has five ordered steps: type, basic, config, preview and review. Each step
  has a validator that records a message in a per-step error record. The class
  `Wizard` holds the current step and the errors. Its methods are the handlers
  for Next, Previous and step clicks, and the effect that resets the wizard when
  edit mode is left. Each method is specified by a pure transition function.
  Traces of user events (`Run`) show that only Next gains ground.
- **The four operation panels of a canvas node** (`*_operation.dfy`). Each panel
  is a class with one field per `useState` text. The panel loads from the node's
  `toolOperation` settings (`CanvasNode`), with the `||` defaults. It sends
  every edit to the host as a copy of the node with one key changed. It shows
  each input only for some sub-operations. Lemmas relate the render guards to a
  table of inputs, and state the reload round trip after an edit.
- **The enterprise tools' projections** (`*_tool.dfy`, `enterprise_tool.dfy`).
  `to_node` is the record a canvas node shows. The arguments of `to_code` are
  what the code template receives. Both come from the stored configuration
  with `dict.get` defaults. Lemmas compare those defaults with the ones the
  configuration forms display.
- **The flow code generator** (`codegen.dfy`, module `FlowCodegen`).
  `sanitize_label` turns a node label into a function name. `generate` visits
  the nodes to build the LLM and tool registries and the agent functions. It
  then rewrites every edge in place from node ids to function names, and
  renders the program template. The registries are Python dictionaries, kept
  in insertion order. They are modelled as sequences of key/code entries with
  distinct keys.

`text.dfy` models the string built-ins the core relies on, over ASCII:
`lower`, `strip`, single-character `replace` and JavaScript's `trim`.
`wrappers.dfy` holds `Option`.

Two behaviours of the generator are stated as lemmas rather than corrected.

- `DefaultAliasShadowed`: if the first node offers no LLM, the placeholder
  `default` entry goes into the LLM dictionary. Any later LLM aliased
  `default` is then skipped. The same holds for tools.
- `ToollessNodeIsUnreachable`: an agent node without a tool appears in the
  function list under the name `pass`. The edges naming it carry its
  sanitised label, or `node_<id>`, instead.

## Model

| member | source | states |
|---|---|---|
| Text.Lower | backend/services/flows/codegen.py:31 | lower-casing keeps the length, turns each ASCII capital into its lower-case letter and changes no other character |
| Text.ReplaceChar | backend/services/flows/codegen.py:31 | replacing one character by another keeps the length, puts the replacement at every position of the replaced character and changes no other position |
| Text.TrimEmptyIffAllWhitespace | frontend/src/components/tools/ToolCreationWizard.tsx:103 | trimming yields the empty text exactly when every character is whitespace |
| Text.TrimIsSlice | backend/services/flows/codegen.py:31 | the trimmed text is a contiguous slice of the input, only whitespace is cut on either side, and its ends are not whitespace |
| Text.TrimFixed | backend/services/flows/codegen.py:31 | a text whose ends are not whitespace is left unchanged by trimming |
| Text.LowerFixed | backend/services/flows/codegen.py:31 | a text without capitals is left unchanged by lower-casing |
| ToolCreationWizard.IndexOf | frontend/src/components/tools/ToolCreationWizard.tsx:45-51 | every step has a position in the five-step list and the list holds that step there |
| ToolCreationWizard.IndexOfInjective | frontend/src/components/tools/ToolCreationWizard.tsx:45-51 | distinct steps have distinct positions |
| ToolCreationWizard.InitialStep | frontend/src/components/tools/ToolCreationWizard.tsx:70 | editing an existing tool starts on the basic step, a new tool on the type step |
| ToolCreationWizard.BlankIffAllWhitespace | frontend/src/components/tools/ToolCreationWizard.tsx:103 | the `!s || s.trim() === ''` test holds exactly when every character is whitespace |
| ToolCreationWizard.ValidationRules | frontend/src/components/tools/ToolCreationWizard.tsx:89-130 | each validator's verdict without trimming: a type is needed, a name with a non-whitespace character, preview text with one unless the tool is custom code; configuration and review always pass |
| ToolCreationWizard.ErrorMessages | frontend/src/components/tools/ToolCreationWizard.tsx:94-125 | a failing validator records its own step's message |
| ToolCreationWizard.Advance | frontend/src/components/tools/ToolCreationWizard.tsx:143-145 | Next moves to the following position, and stays put at the last one |
| ToolCreationWizard.Retreat | frontend/src/components/tools/ToolCreationWizard.tsx:160-164 | Previous moves to the preceding position, and stays put at the first one |
| ToolCreationWizard.StepErrors.With | frontend/src/components/tools/ToolCreationWizard.tsx:91-128 | recording a step's error sets that entry and leaves the other four as they were |
| ToolCreationWizard.Wizard.constructor | frontend/src/components/tools/ToolCreationWizard.tsx:70-77 | mounting starts on the initial step with no errors |
| ToolCreationWizard.Wizard.OnEditingToolChange | frontend/src/components/tools/ToolCreationWizard.tsx:80-84 | leaving edit mode returns to the type step; entering it keeps the step; errors are untouched |
| ToolCreationWizard.Wizard.ValidateStep | frontend/src/components/tools/ToolCreationWizard.tsx:89-130 | returns whether the step is valid, rewrites that step's error entry only, never moves |
| ToolCreationWizard.Wizard.HandleNext | frontend/src/components/tools/ToolCreationWizard.tsx:132-158 | the new step and the number of preview calls are those of the next-transition, the current step's error is rewritten and no other |
| ToolCreationWizard.Wizard.HandlePrevious | frontend/src/components/tools/ToolCreationWizard.tsx:160-164 | moves back one step with no validation and no change to the errors |
| ToolCreationWizard.Wizard.HandleStepClick | frontend/src/components/tools/ToolCreationWizard.tsx:166-171 | moves to the clicked step exactly when its index is at most the current position |
| ToolCreationWizard.NextMovesAtMostOne | frontend/src/components/tools/ToolCreationWizard.tsx:132-158 | Next stays put when validation fails, moves exactly one position forward when it passes and no preview is generated, and never leaves the review step |
| ToolCreationWizard.NextCallsPreviewOnlyWhenNeeded | frontend/src/components/tools/ToolCreationWizard.tsx:139-151 | the preview is generated exactly once when leaving configuration for a generated tool with no preview text, never otherwise; its failure keeps the wizard on configuration |
| ToolCreationWizard.CustomCodeNeverGeneratesPreview | frontend/src/components/tools/ToolCreationWizard.tsx:139 | a custom-code tool goes from configuration to preview with no generation |
| ToolCreationWizard.WhitespacePreviewAsymmetry | frontend/src/components/tools/ToolCreationWizard.tsx:116 | a preview made only of whitespace skips generation and enables submit, yet fails the preview validator and blocks Next on the preview step |
| ToolCreationWizard.NavigationButtons | frontend/src/components/tools/ToolCreationWizard.tsx:521-531 | Previous is offered on every step but the first and Next on every step but the last, exactly where they would move |
| ToolCreationWizard.SubmitRule | frontend/src/components/tools/ToolCreationWizard.tsx:545 | submit is enabled exactly when not submitting and the tool is custom code or has preview text |
| ToolCreationWizard.OnlyNextGainsGround | frontend/src/components/tools/ToolCreationWizard.tsx:132-171 | over any sequence of Next, Previous, indicator clicks and edit-mode changes, the position grows by at most the number of Next events |
| ToolCreationWizard.ReviewNeedsFourNexts | frontend/src/components/tools/ToolCreationWizard.tsx:45-51 | with clicks issued by the step indicator, a new tool reaches the review step only after at least four Next events |
| ToolCreationWizard.ClickTrustsIndex | frontend/src/components/tools/ToolCreationWizard.tsx:166-171 | the click handler trusts its index: an index that is not the target's own can jump forward |
| CanvasNode.OrDefault | frontend/src/components/canvas/toolOperations/DatabricksOperationConfig.tsx:11-49 | `value || fallback`: a stored non-empty text wins, a missing or empty one gives the fallback |
| CanvasNode.WithSettings | frontend/src/components/canvas/toolOperations/DatabricksOperationConfig.tsx:73-80 | replacing one integration's settings leaves the other three integrations' settings as they were |
| CanvasNode.UpdateField | frontend/src/components/canvas/toolOperations/DatabricksOperationConfig.tsx:69-84 | the nested spread update: sets one field of one integration, keeps every other field, integration, node attribute and position |
| DatabricksOperation.KeysDistinct | frontend/src/components/canvas/toolOperations/DatabricksOperationConfig.tsx:69-84 | distinct inputs are stored under distinct keys, none of them the operation's |
| DatabricksOperation.Defaults | frontend/src/components/canvas/toolOperations/DatabricksOperationConfig.tsx:11-49 | tableDefinition and parameters start from `{}`, the HTTP method from `GET`, the rest from the empty text |
| DatabricksOperation.HandleUpdate | frontend/src/components/canvas/toolOperations/DatabricksOperationConfig.tsx:69-84 | sets exactly the given key of this integration's settings; every other key, integration and node attribute is kept |
| DatabricksOperation.Panel.constructor | frontend/src/components/canvas/toolOperations/DatabricksOperationConfig.tsx:11-49 | the local state mirrors the node: stored texts, defaults for missing or empty ones |
| DatabricksOperation.Panel.OnNodeIdChange | frontend/src/components/canvas/toolOperations/DatabricksOperationConfig.tsx:51-67 | with a node id every input reloads from the node; without one nothing changes |
| DatabricksOperation.Panel.HandleOperationChange | frontend/src/components/canvas/toolOperations/DatabricksOperationConfig.tsx:86-89 | records the sub-operation locally, keeps every input, and emits the one update of the operation key |
| DatabricksOperation.Panel.HandleFieldChange | frontend/src/components/canvas/toolOperations/DatabricksOperationConfig.tsx:123-384 | a shown input's edit is kept verbatim locally and in the single update it emits; other inputs and the operation are unchanged |
| DatabricksOperation.OperationsMatchDeclaredType | frontend/src/components/canvas/toolOperations/DatabricksOperationConfig.tsx:112-118 | the selector offers exactly the sub-operations the node type declares, each once |
| DatabricksOperation.ShowsMatchesTable | frontend/src/components/canvas/toolOperations/DatabricksOperationConfig.tsx:123-384 | the render guards show an input exactly when it belongs to the sub-operation's row of the input table |
| DatabricksOperation.EveryOperationShowsInputs | frontend/src/components/canvas/toolOperations/DatabricksOperationConfig.tsx:123-384 | every offered sub-operation shows some input; the empty choice shows none |
| DatabricksOperation.ReloadAfterEdit | frontend/src/components/canvas/toolOperations/DatabricksOperationConfig.tsx:11-49 | after an edit is applied and the panel reloads, the edited input shows the new text (its default when empty) and everything else is unchanged |
| DatabricksOperation.OperationChangeKeepsFields | frontend/src/components/canvas/toolOperations/DatabricksOperationConfig.tsx:86-89 | changing the sub-operation stores the new choice and keeps the inputs of the earlier one |
| DatabricksOperation.FreshNodeLoadsDefaults | frontend/src/components/canvas/toolOperations/DatabricksOperationConfig.tsx:11-49 | a node with no settings for this integration loads no sub-operation and every default |
| WorkdayOperation.KeysDistinct | frontend/src/components/canvas/toolOperations/WorkdayOperationConfig.tsx:61-76 | distinct inputs are stored under distinct keys, none of them the operation's |
| WorkdayOperation.Defaults | frontend/src/components/canvas/toolOperations/WorkdayOperationConfig.tsx:11-43 | report data, document data and parameters start from `{}`, the HTTP method from `GET`, the rest from the empty text |
| WorkdayOperation.HandleUpdate | frontend/src/components/canvas/toolOperations/WorkdayOperationConfig.tsx:61-76 | sets exactly the given key of this integration's settings; every other key, integration and node attribute is kept |
| WorkdayOperation.Panel.constructor | frontend/src/components/canvas/toolOperations/WorkdayOperationConfig.tsx:11-43 | the local state mirrors the node: stored texts, defaults for missing or empty ones |
| WorkdayOperation.Panel.OnNodeIdChange | frontend/src/components/canvas/toolOperations/WorkdayOperationConfig.tsx:45-59 | with a node id every input reloads from the node; without one nothing changes |
| WorkdayOperation.Panel.HandleOperationChange | frontend/src/components/canvas/toolOperations/WorkdayOperationConfig.tsx:78-81 | records the sub-operation locally, keeps every input, and emits the one update of the operation key |
| WorkdayOperation.Panel.HandleFieldChange | frontend/src/components/canvas/toolOperations/WorkdayOperationConfig.tsx:115-297 | a shown input's edit is kept verbatim locally and in the single update it emits; other inputs and the operation are unchanged |
| WorkdayOperation.OperationsMatchDeclaredType | frontend/src/components/canvas/toolOperations/WorkdayOperationConfig.tsx:104-110 | the selector offers exactly the sub-operations the node type declares, each once |
| WorkdayOperation.ShowsMatchesTable | frontend/src/components/canvas/toolOperations/WorkdayOperationConfig.tsx:115-297 | the render guards show an input exactly when it belongs to the sub-operation's row of the input table |
| WorkdayOperation.EveryOperationShowsInputs | frontend/src/components/canvas/toolOperations/WorkdayOperationConfig.tsx:115-297 | every offered sub-operation shows some input; the empty choice shows none |
| WorkdayOperation.ReloadAfterEdit | frontend/src/components/canvas/toolOperations/WorkdayOperationConfig.tsx:11-43 | after an edit is applied and the panel reloads, the edited input shows the new text (its default when empty) and everything else is unchanged |
| WorkdayOperation.OperationChangeKeepsFields | frontend/src/components/canvas/toolOperations/WorkdayOperationConfig.tsx:78-81 | changing the sub-operation stores the new choice and keeps the inputs of the earlier one |
| WorkdayOperation.FreshNodeLoadsDefaults | frontend/src/components/canvas/toolOperations/WorkdayOperationConfig.tsx:11-43 | a node with no settings for this integration loads no sub-operation and every default |
| SapOperation.KeysDistinct | frontend/src/components/canvas/toolOperations/SAPOperationConfig.tsx:61-76 | distinct inputs are stored under distinct keys, none of them the operation's |
| SapOperation.Defaults | frontend/src/components/canvas/toolOperations/SAPOperationConfig.tsx:11-43 | parameters start from `{}`, the HTTP method from `GET`, the rest from the empty text |
| SapOperation.HandleUpdate | frontend/src/components/canvas/toolOperations/SAPOperationConfig.tsx:61-76 | sets exactly the given key of this integration's settings; every other key, integration and node attribute is kept |
| SapOperation.Panel.constructor | frontend/src/components/canvas/toolOperations/SAPOperationConfig.tsx:11-43 | the local state mirrors the node: stored texts, defaults for missing or empty ones |
| SapOperation.Panel.OnNodeIdChange | frontend/src/components/canvas/toolOperations/SAPOperationConfig.tsx:45-59 | with a node id every input reloads from the node; without one nothing changes |
| SapOperation.Panel.HandleOperationChange | frontend/src/components/canvas/toolOperations/SAPOperationConfig.tsx:78-81 | records the sub-operation locally, keeps every input, and emits the one update of the operation key |
| SapOperation.Panel.HandleFieldChange | frontend/src/components/canvas/toolOperations/SAPOperationConfig.tsx:117-302 | a shown input's edit is kept verbatim locally and in the single update it emits; other inputs and the operation are unchanged |
| SapOperation.OperationsMatchDeclaredType | frontend/src/components/canvas/toolOperations/SAPOperationConfig.tsx:104-112 | the selector offers exactly the sub-operations the node type declares, each once |
| SapOperation.ShowsMatchesTable | frontend/src/components/canvas/toolOperations/SAPOperationConfig.tsx:117-302 | the render guards show an input exactly when it belongs to the sub-operation's row of the input table |
| SapOperation.EveryOperationShowsInputs | frontend/src/components/canvas/toolOperations/SAPOperationConfig.tsx:117-302 | every offered sub-operation shows some input; the empty choice shows none |
| SapOperation.ReloadAfterEdit | frontend/src/components/canvas/toolOperations/SAPOperationConfig.tsx:11-43 | after an edit is applied and the panel reloads, the edited input shows the new text (its default when empty) and everything else is unchanged |
| SapOperation.OperationChangeKeepsFields | frontend/src/components/canvas/toolOperations/SAPOperationConfig.tsx:78-81 | changing the sub-operation stores the new choice and keeps the inputs of the earlier one |
| SapOperation.FreshNodeLoadsDefaults | frontend/src/components/canvas/toolOperations/SAPOperationConfig.tsx:11-43 | a node with no settings for this integration loads no sub-operation and every default |
| SapOperation.OdataPrefixShowsEntity | frontend/src/components/canvas/toolOperations/SAPOperationConfig.tsx:136 | the entity input is guarded by a prefix test: any unlisted sub-operation starting with `odata_` shows the entity input and nothing else |
| SapOperation.OdataDeleteHasNoParameters | frontend/src/components/canvas/toolOperations/SAPOperationConfig.tsx:176-302 | OData delete offers the entity and record id but not parameters |
| SalesforceOperation.KeysDistinct | frontend/src/components/canvas/toolOperations/SalesforceOperationConfig.tsx:53-68 | distinct inputs are stored under distinct keys, none of them the operation's |
| SalesforceOperation.Defaults | frontend/src/components/canvas/toolOperations/SalesforceOperationConfig.tsx:11-37 | field values and parameters start from `{}`, the rest from the empty text |
| SalesforceOperation.HandleUpdate | frontend/src/components/canvas/toolOperations/SalesforceOperationConfig.tsx:53-68 | sets exactly the given key of this integration's settings; every other key, integration and node attribute is kept |
| SalesforceOperation.Panel.constructor | frontend/src/components/canvas/toolOperations/SalesforceOperationConfig.tsx:11-37 | the local state mirrors the node: stored texts, defaults for missing or empty ones |
| SalesforceOperation.Panel.OnNodeIdChange | frontend/src/components/canvas/toolOperations/SalesforceOperationConfig.tsx:39-51 | with a node id every input reloads from the node; without one nothing changes |
| SalesforceOperation.Panel.HandleOperationChange | frontend/src/components/canvas/toolOperations/SalesforceOperationConfig.tsx:70-73 | records the sub-operation locally, keeps every input, and emits the one update of the operation key |
| SalesforceOperation.Panel.HandleFieldChange | frontend/src/components/canvas/toolOperations/SalesforceOperationConfig.tsx:108-254 | a shown input's edit is kept verbatim locally and in the single update it emits; other inputs and the operation are unchanged |
| SalesforceOperation.OperationsMatchDeclaredType | frontend/src/components/canvas/toolOperations/SalesforceOperationConfig.tsx:96-103 | the selector offers exactly the sub-operations the node type declares, each once |
| SalesforceOperation.ShowsMatchesTable | frontend/src/components/canvas/toolOperations/SalesforceOperationConfig.tsx:108-254 | the render guards show an input exactly when it belongs to the sub-operation's row of the input table |
| SalesforceOperation.EveryOperationShowsInputs | frontend/src/components/canvas/toolOperations/SalesforceOperationConfig.tsx:108-254 | every offered sub-operation shows some input; the empty choice shows none |
| SalesforceOperation.ReloadAfterEdit | frontend/src/components/canvas/toolOperations/SalesforceOperationConfig.tsx:11-37 | after an edit is applied and the panel reloads, the edited input shows the new text (its default when empty) and everything else is unchanged |
| SalesforceOperation.OperationChangeKeepsFields | frontend/src/components/canvas/toolOperations/SalesforceOperationConfig.tsx:70-73 | changing the sub-operation stores the new choice and keeps the inputs of the earlier one |
| SalesforceOperation.FreshNodeLoadsDefaults | frontend/src/components/canvas/toolOperations/SalesforceOperationConfig.tsx:11-37 | a node with no settings for this integration loads no sub-operation and every default |
| SalesforceOperation.ObjectShownExceptApex | frontend/src/components/canvas/toolOperations/SalesforceOperationConfig.tsx:108 | every offered sub-operation except Apex shows the object input; `custom` is not offered |
| EnterpriseTool.Get | backend/services/tools/sap/sap.py:12-21 | `dict.get(key, default)`: the stored value whenever the key is present, empty or not; the default only when it is missing |
| EnterpriseTool.FormValue | frontend/src/components/tools/SAPConfig.tsx:94 | `config?.key || default`: the stored value when present and non-empty, the default otherwise |
| EnterpriseTool.GetAgreesWithForm | backend/services/tools/sap/sap.py:12-21 | the backend and form lookups agree exactly when the key is missing, the stored value is non-empty, or the default is empty |
| EnterpriseTool.CodeName | backend/services/tools/sap/sap.py:11 | the template name keeps the length, turns each capital into its lower-case letter and each space into `_`, and keeps every other character |
| EnterpriseTool.CodeNameIdempotent | backend/services/tools/sap/sap.py:11 | normalising a normalised name changes nothing |
| DatabricksTool.KeysDistinct | backend/services/tools/databricks/databricks.py:27-38 | distinct settings are stored under distinct keys, none of them `name` or `type` |
| DatabricksTool.Value | backend/services/tools/databricks/databricks.py:9-25 | a setting reads as its stored value when the key is present and as its backend default when missing |
| DatabricksTool.ToNode | backend/services/tools/databricks/databricks.py:27-38 | the node record holds exactly `name`, `type` and the non-credential settings; the name is the tool's, the type the integration's, no credential appears |
| DatabricksTool.NodeSetting | backend/services/tools/databricks/databricks.py:27-38 | a node setting is the stored value verbatim, or the backend default when missing |
| DatabricksTool.ToCodeArgs | backend/services/tools/databricks/databricks.py:9-25 | the template receives exactly `name` and every setting, credentials included, the name normalised |
| DatabricksTool.CodeArg | backend/services/tools/databricks/databricks.py:9-25 | a template argument is the stored value verbatim, or the backend default when missing |
| DatabricksTool.CodeArgsExtendNode | backend/services/tools/databricks/databricks.py:9-25 | node and template agree on every shared setting; the template alone has the credentials, the node alone the type |
| DatabricksTool.DefaultsAgree | frontend/src/components/tools/DatabricksConfig.tsx:80-193 | the backend fallbacks are the defaults the configuration form displays |
| DatabricksTool.BackendMatchesForm | frontend/src/components/tools/DatabricksConfig.tsx:80-193 | the template sees what the form shows exactly unless a stored value is empty and the form default is not |
| SalesforceTool.KeysDistinct | backend/services/tools/salesforce/salesforce.py:27-37 | distinct settings are stored under distinct keys, none of them `name` or `type` |
| SalesforceTool.Value | backend/services/tools/salesforce/salesforce.py:9-25 | a setting reads as its stored value when the key is present and as its backend default when missing |
| SalesforceTool.ToNode | backend/services/tools/salesforce/salesforce.py:27-37 | the node record holds exactly `name`, `type` and the non-credential settings; the name is the tool's, the type the integration's, no credential appears |
| SalesforceTool.NodeSetting | backend/services/tools/salesforce/salesforce.py:27-37 | a node setting is the stored value verbatim, or the backend default when missing |
| SalesforceTool.ToCodeArgs | backend/services/tools/salesforce/salesforce.py:9-25 | the template receives exactly `name` and every setting, credentials included, the name normalised |
| SalesforceTool.CodeArg | backend/services/tools/salesforce/salesforce.py:9-25 | a template argument is the stored value verbatim, or the backend default when missing |
| SalesforceTool.CodeArgsExtendNode | backend/services/tools/salesforce/salesforce.py:9-25 | node and template agree on every shared setting; the template alone has the credentials, the node alone the type |
| SalesforceTool.DefaultsAgree | frontend/src/components/tools/SalesforceConfig.tsx:47-227 | the backend fallbacks are the defaults the configuration form displays |
| SalesforceTool.BackendMatchesForm | frontend/src/components/tools/SalesforceConfig.tsx:47-227 | the template sees what the form shows exactly unless a stored value is empty and the form default is not |
| WorkdayTool.KeysDistinct | backend/services/tools/workday/workday.py:26-37 | distinct settings are stored under distinct keys, none of them `name` or `type` |
| WorkdayTool.Value | backend/services/tools/workday/workday.py:9-24 | a setting reads as its stored value when the key is present and as its backend default when missing |
| WorkdayTool.ToNode | backend/services/tools/workday/workday.py:26-37 | the node record holds exactly `name`, `type` and the non-credential settings; the name is the tool's, the type the integration's, no credential appears |
| WorkdayTool.NodeSetting | backend/services/tools/workday/workday.py:26-37 | a node setting is the stored value verbatim, or the backend default when missing |
| WorkdayTool.ToCodeArgs | backend/services/tools/workday/workday.py:9-24 | the template receives exactly `name` and every setting, credentials included, the name normalised |
| WorkdayTool.CodeArg | backend/services/tools/workday/workday.py:9-24 | a template argument is the stored value verbatim, or the backend default when missing |
| WorkdayTool.CodeArgsExtendNode | backend/services/tools/workday/workday.py:9-24 | node and template agree on every shared setting; the template alone has the credentials, the node alone the type |
| WorkdayTool.DefaultsAgree | frontend/src/components/tools/WorkdayConfig.tsx:61-209 | the backend fallbacks are the defaults the configuration form displays |
| WorkdayTool.BackendMatchesForm | frontend/src/components/tools/WorkdayConfig.tsx:61-209 | the template sees what the form shows exactly unless a stored value is empty and the form default is not |
| SapTool.KeysDistinct | backend/services/tools/sap/sap.py:24-35 | distinct settings are stored under distinct keys, none of them `name` or `type` |
| SapTool.Value | backend/services/tools/sap/sap.py:9-22 | a setting reads as its stored value when the key is present and as its backend default when missing |
| SapTool.ToNode | backend/services/tools/sap/sap.py:24-35 | the node record holds exactly `name`, `type` and the non-credential settings; the name is the tool's, the type the integration's, no credential appears |
| SapTool.NodeSetting | backend/services/tools/sap/sap.py:24-35 | a node setting is the stored value verbatim, or the backend default when missing |
| SapTool.ToCodeArgs | backend/services/tools/sap/sap.py:9-22 | the template receives exactly `name` and every setting, credentials included, the name normalised |
| SapTool.CodeArg | backend/services/tools/sap/sap.py:9-22 | a template argument is the stored value verbatim, or the backend default when missing |
| SapTool.CodeArgsExtendNode | backend/services/tools/sap/sap.py:9-22 | node and template agree on every shared setting; the template alone has the credentials, the node alone the type |
| SapTool.DefaultsAgree | frontend/src/components/tools/SAPConfig.tsx:94-174 | the backend fallbacks are the defaults the configuration form displays |
| SapTool.BackendMatchesForm | frontend/src/components/tools/SAPConfig.tsx:94-174 | the template sees what the form shows exactly unless a stored value is empty and the form default is not |
| FlowCodegen.StripLowerCommute | backend/services/flows/codegen.py:31 | lower-casing before stripping gives what stripping before lower-casing gives |
| FlowCodegen.SanitizedShape | backend/services/flows/codegen.py:30-31 | the function name is the stripped label character for character, spaces and hyphens turned into `_` and capitals into lower case; so it has none of those and does not start or end with whitespace |
| FlowCodegen.SanitizedEmptyIffBlank | backend/services/flows/codegen.py:86 | the name is empty, and `node_<id>` is used instead, exactly when the label is all whitespace |
| FlowCodegen.SanitizeIdempotent | backend/services/flows/codegen.py:30-31 | sanitising a sanitised label changes nothing |
| FlowCodegen.FunctionName | backend/services/flows/codegen.py:86 | an agent's function name is the sanitised label whenever that is non-empty, and `node_` followed by the node id otherwise |
| FlowCodegen.ResolveFirstMatch | backend/services/flows/codegen.py:102-111 | an edge endpoint resolves through the first node carrying its id: `START`, `END` or that node's function name |
| FlowCodegen.ResolveUnmatched | backend/services/flows/codegen.py:102-111 | an endpoint no node carries is left as it is |
| FlowCodegen.ResolveEndpoint | backend/services/flows/codegen.py:102-123 | the inner search loop with `break` computes the first-match resolution |
| FlowCodegen.Lookup | backend/services/flows/codegen.py:54 | a key is found in a registry exactly when some entry carries it |
| FlowCodegen.Register | backend/services/flows/codegen.py:54-66 | one node's turn on a registry never empties it and never rewrites an earlier entry |
| FlowCodegen.RegisterKeepsKeysDistinct | backend/services/flows/codegen.py:54-66 | the registry stays a dictionary: keys remain distinct, and a contributed key is present afterwards |
| FlowCodegen.Table | backend/services/flows/codegen.py:51-66 | a registry built from a non-empty node list is non-empty |
| FlowCodegen.TableKeysDistinct | backend/services/flows/codegen.py:51-66 | every LLM and tool alias appears at most once |
| FlowCodegen.TableEntriesFromNodes | backend/services/flows/codegen.py:51-66 | every registry entry was offered by some node, or is the placeholder, and then the first node offered nothing |
| FlowCodegen.EveryKeyRegistered | backend/services/flows/codegen.py:54-66 | every alias or tool name some node contributes is registered |
| FlowCodegen.FirstOccurrenceWins | backend/services/flows/codegen.py:54-65 | the code registered under a key is that of the first node contributing it; for `default` this holds unless the first node offered nothing |
| FlowCodegen.NonEmptyRegistries | backend/services/flows/codegen.py:59-66 | both rendered lists are non-empty for a non-empty graph |
| FlowCodegen.DefaultAliasShadowed | backend/services/flows/codegen.py:59 | when the first node offers nothing, the placeholder takes `default`, and a later LLM or tool named `default` is ignored: the key keeps the code `pass` |
| FlowCodegen.FirstAbsent | backend/services/flows/codegen.py:83 | reports a prompt key missing from the node's settings, and none exactly when all four are present |
| FlowCodegen.FirstMissing | backend/services/flows/codegen.py:69-91 | generation fails on some node exactly when an agent node with a tool lacks a prompt key |
| FlowCodegen.FirstMissingIsFirst | backend/services/flows/codegen.py:69-91 | the failure names the first such node and its first missing key |
| FlowCodegen.NodeFunctionOf | backend/services/flows/codegen.py:70-91 | a toolless agent node gets the `pass` stub; one with a tool gets its function name |
| FlowCodegen.Functions | backend/services/flows/codegen.py:69-91 | one function per agent node, start and end nodes contributing none |
| FlowCodegen.FunctionsInGraphOrder | backend/services/flows/codegen.py:69-91 | the i-th agent node's function is the i-th of the list |
| FlowCodegen.FunctionNameMatchesEdges | backend/services/flows/codegen.py:86-117 | an agent node with a tool is called by its edges under the name its function is given |
| FlowCodegen.ToollessNodeIsUnreachable | backend/services/flows/codegen.py:70-117 | a toolless agent node, first with its id and whose label does not sanitise to `pass`, has its function listed as `pass` while its edges resolve to its function name, which differs |
| FlowCodegen.Remember | backend/services/flows/codegen.py:54-66 | the in-place dictionary insert computes one registry step |
| FlowCodegen.VisitNodes | backend/services/flows/codegen.py:51-91 | the node loop fails exactly at the first missing prompt key and otherwise builds both registries and the function list |
| FlowCodegen.Generate | backend/services/flows/codegen.py:41-140 | a failed lookup leaves the edges untouched; otherwise every edge is rewritten in place to its resolution and the template receives the functions, edges and both registries' code in insertion order |

## Left out

- JSX markup, styling, icons, the Cancel button and `onSubmit` are not modelled. Only the conditions that decide which buttons and inputs appear, and when they are disabled, are kept.
- The tool draft is reduced to the two fields the wizard reads, `type` and `name`. The step contents that edit the rest of the form belong to the host and are not part of this model.
- `onPreview` is asynchronous. Its outcome is a boolean parameter of `HandleNext`. React's batching of state updates and stale closures are not modelled: each handler sees the state as the previous one left it.
- `ToolCreationWizard.Wizard.HandleStepClick`: it takes the index the caller passes. `OnlyNextGainsGround` assumes the index is the target's own, which is how the step indicator calls it.
- The Next button is disabled while a preview is being generated. Previous and the step indicator stay live meanwhile, and a click there can interleave with the pending `handleNext`. `OnlyNextGainsGround` treats every handler as atomic, so it does not cover that interleaving.
- The operation panels keep their own copy of the settings. The model reloads it only through `OnNodeIdChange`, as the source's effect does. The host's `onUpdate` callback is the returned node.
- `sanitize_to_func_name`, `get_agent_fn`, the tools' `render_template`, the LLM clients' `to_code`, and the database lookups `get_llm_client_by_alias` and `get_tool_by_name` are collaborators whose code is not part of this model. They are the fields of `FlowCodegen.Backend`. The inputs passed to them are modelled exactly.
- `get_tool_by_name` returning nothing, which makes the source fail on `None`, is not modelled. The backend lookups are total.
- A prompt key missing from a node's settings raises `KeyError` in the source. It is modelled as the `KeyMissing` result. The registry inserts that happen before it for the same node are discarded with the exception.
- Logging to the console and to a file, and the re-raise of a template failure, are left out. Rendering is a total function here.
- `FlowCodegen.Generate`: the source mutates the edge objects of the flow payload, which the caller also holds. The model rewrites an array of edge values in place, which captures the update but not that aliasing.
- `Text.Lower`, `Text.PyStrip`, `Text.JsTrim`: ASCII only. Unicode case mapping and Unicode whitespace are not modelled.
- Tool configurations are modelled as maps from text to text. Non-text values that the JSON column could hold are not modelled.
