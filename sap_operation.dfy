/**
 * The SAP operation panel of a canvas node: the sub-operation chosen,
 * one local text field per input, the defaults used when a stored value is
 * missing or empty, which inputs each sub-operation shows, and the update
 * each edit sends to the host.
 */
module SapOperation {
  import opened Wrappers
  import opened CanvasNode

  datatype Field =
      FunctionName
    | OdataEntity
    | OdataQuery
    | Parameters
    | RecordId
    | IdocType
    | IdocData
    | CustomEndpoint
    | CustomMethod
    | CustomBody

  /** The key of `toolOperation.sap` the sub-operation itself is stored under. */
  const OperationKey: string := "operation"

  /** The key of `toolOperation.sap` each field is stored under. */
  function Key(f: Field): string {
    match f
    case FunctionName => "functionName"
    case OdataEntity => "odataEntity"
    case OdataQuery => "odataQuery"
    case Parameters => "parameters"
    case RecordId => "recordId"
    case IdocType => "idocType"
    case IdocData => "idocData"
    case CustomEndpoint => "customEndpoint"
    case CustomMethod => "customMethod"
    case CustomBody => "customBody"
  }

  /** Distinct fields are stored under distinct keys, none of them the operation's. */
  lemma KeysDistinct(f: Field, g: Field)
    ensures Key(f) == Key(g) ==> f == g
    ensures Key(f) != OperationKey
  {
  }

  /** The value a field starts from when nothing usable is stored. */
  function Default(f: Field): string {
    match f
    case Parameters => "{}"
    case CustomMethod => "GET"
    case _ => ""
  }

  /** The defaults: an empty JSON object for Parameters, `GET` for the HTTP method, the empty text otherwise. */
  lemma Defaults(f: Field)
    ensures Default(f) == "{}" <==> f == Parameters
    ensures Default(f) == "GET" <==> f == CustomMethod
    ensures Default(f) == "" <==> f != Parameters && f != CustomMethod
  {
  }

  /** The sub-operations the selector offers besides the empty choice. */
  const Operations: seq<string> := ["rfc", "odata_query", "odata_create", "odata_update", "odata_delete", "bapi", "idoc", "custom"]

  /** `s.startsWith(prefix)`. */
  predicate StartsWith(s: string, prefix: string) {
    |prefix| <= |s| && s[..|prefix|] == prefix
  }

  /** The conditions under which the panel renders each input, one per guarded block. */
  predicate Shows(operation: string, f: Field) {
    match f
    case FunctionName => operation in ["rfc", "bapi"]
    case OdataEntity => StartsWith(operation, "odata_")
    case OdataQuery => operation == "odata_query"
    case RecordId => operation in ["odata_update", "odata_delete"]
    case IdocType | IdocData => operation == "idoc"
    case CustomEndpoint | CustomMethod | CustomBody => operation == "custom"
    case Parameters => operation in ["rfc", "bapi", "odata_create", "odata_update"]
  }

  /** The inputs each sub-operation offers, as a table. */
  function FieldsFor(operation: string): set<Field> {
    if operation == "rfc" then {FunctionName, Parameters}
    else if operation == "odata_query" then {OdataEntity, OdataQuery}
    else if operation == "odata_create" then {OdataEntity, Parameters}
    else if operation == "odata_update" then {OdataEntity, RecordId, Parameters}
    else if operation == "odata_delete" then {OdataEntity, RecordId}
    else if operation == "bapi" then {FunctionName, Parameters}
    else if operation == "idoc" then {IdocType, IdocData}
    else if operation == "custom" then {CustomEndpoint, CustomMethod, CustomBody}
    else {}
  }

  /** `handleUpdate(field, value)`: sets `toolOperation.sap[field]` and nothing else. */
  function HandleUpdate(node: CustomNode, field: string, value: string): (r: CustomNode)
    ensures Stored(r, Sap, field) == Some(value)
    ensures forall k :: k != field ==> Stored(r, Sap, k) == Stored(node, Sap, k)
    ensures forall j :: j != Sap ==> SettingsOf(r.data.toolOperation, j) == SettingsOf(node.data.toolOperation, j)
    ensures r.id == node.id && r.nodeType == node.nodeType && r.position == node.position
    ensures r.data.(toolOperation := None) == node.data.(toolOperation := None)
  {
    UpdateField(node, Sap, field, value)
  }

  /** The value a field's local state takes from the node: the stored text, or the default. */
  function Loaded(node: CustomNode, f: Field): string {
    OrDefault(Stored(node, Sap, Key(f)), Default(f))
  }

  function LoadedOperation(node: CustomNode): string {
    OrDefault(Stored(node, Sap, OperationKey), "")
  }

  /** The panel's local state: one `useState` text per input, plus the chosen sub-operation. */
  class Panel {
    var operation: string
    var functionName: string
    var odataEntity: string
    var odataQuery: string
    var parameters: string
    var recordId: string
    var idocType: string
    var idocData: string
    var customEndpoint: string
    var customMethod: string
    var customBody: string

    function Value(f: Field): string
      reads this
    {
      match f
      case FunctionName => functionName
      case OdataEntity => odataEntity
      case OdataQuery => odataQuery
      case Parameters => parameters
      case RecordId => recordId
      case IdocType => idocType
      case IdocData => idocData
      case CustomEndpoint => customEndpoint
      case CustomMethod => customMethod
      case CustomBody => customBody
    }

    /** The local state shows what `node` stores, defaults filled in. */
    ghost predicate Mirrors(node: CustomNode)
      reads this
    {
      operation == LoadedOperation(node) && forall f :: Value(f) == Loaded(node, f)
    }

    /** Checks `Mirrors` one field at a time. */
    lemma MirrorsByCases(node: CustomNode)
      requires operation == LoadedOperation(node)
      requires functionName == Loaded(node, FunctionName)
      requires odataEntity == Loaded(node, OdataEntity)
      requires odataQuery == Loaded(node, OdataQuery)
      requires parameters == Loaded(node, Parameters)
      requires recordId == Loaded(node, RecordId)
      requires idocType == Loaded(node, IdocType)
      requires idocData == Loaded(node, IdocData)
      requires customEndpoint == Loaded(node, CustomEndpoint)
      requires customMethod == Loaded(node, CustomMethod)
      requires customBody == Loaded(node, CustomBody)
      ensures Mirrors(node)
    {
      forall f ensures Value(f) == Loaded(node, f) {
        match f {
          case FunctionName =>
          case OdataEntity =>
          case OdataQuery =>
          case Parameters =>
          case RecordId =>
          case IdocType =>
          case IdocData =>
          case CustomEndpoint =>
          case CustomMethod =>
          case CustomBody =>
        }
      }
    }

    /** Mounting the panel on `node`. */
    constructor (node: CustomNode)
      ensures Mirrors(node)
    {
      operation := LoadedOperation(node);
      functionName := Loaded(node, FunctionName);
      odataEntity := Loaded(node, OdataEntity);
      odataQuery := Loaded(node, OdataQuery);
      parameters := Loaded(node, Parameters);
      recordId := Loaded(node, RecordId);
      idocType := Loaded(node, IdocType);
      idocData := Loaded(node, IdocData);
      customEndpoint := Loaded(node, CustomEndpoint);
      customMethod := Loaded(node, CustomMethod);
      customBody := Loaded(node, CustomBody);
      new;
      MirrorsByCases(node);
    }

    /** The effect keyed on `node.id`: a node with an id reloads every field. */
    method OnNodeIdChange(node: CustomNode)
      modifies this
      ensures node.id != "" ==> Mirrors(node)
      ensures node.id == "" ==> operation == old(operation) && forall f :: Value(f) == old(Value(f))
    {
      if node.id != "" {
        operation := LoadedOperation(node);
        functionName := Loaded(node, FunctionName);
        odataEntity := Loaded(node, OdataEntity);
        odataQuery := Loaded(node, OdataQuery);
        parameters := Loaded(node, Parameters);
        recordId := Loaded(node, RecordId);
        idocType := Loaded(node, IdocType);
        idocData := Loaded(node, IdocData);
        customEndpoint := Loaded(node, CustomEndpoint);
        customMethod := Loaded(node, CustomMethod);
        customBody := Loaded(node, CustomBody);
        MirrorsByCases(node);
      }
    }

    /** `handleOperationChange`: records the choice locally and emits exactly one update,
        for the operation key; the fields of the earlier choice are kept. */
    method HandleOperationChange(node: CustomNode, newOperation: string) returns (updated: CustomNode)
      modifies this
      ensures operation == newOperation
      ensures forall f :: Value(f) == old(Value(f))
      ensures updated == HandleUpdate(node, OperationKey, newOperation)
    {
      operation := newOperation;
      updated := HandleUpdate(node, OperationKey, newOperation);
    }

    /** The `onChange` handler of a shown input: the text is kept verbatim, locally and in
        the one update emitted. */
    method HandleFieldChange(node: CustomNode, f: Field, value: string) returns (updated: CustomNode)
      requires Shows(operation, f)
      modifies this
      ensures Value(f) == value
      ensures forall g :: g != f ==> Value(g) == old(Value(g))
      ensures operation == old(operation)
      ensures updated == HandleUpdate(node, Key(f), value)
    {
      match f {
        case FunctionName => functionName := value;
        case OdataEntity => odataEntity := value;
        case OdataQuery => odataQuery := value;
        case Parameters => parameters := value;
        case RecordId => recordId := value;
        case IdocType => idocType := value;
        case IdocData => idocData := value;
        case CustomEndpoint => customEndpoint := value;
        case CustomMethod => customMethod := value;
        case CustomBody => customBody := value;
      }
      forall g | g != f
        ensures Value(g) == old(Value(g))
      {
        match g {
          case FunctionName =>
          case OdataEntity =>
          case OdataQuery =>
          case Parameters =>
          case RecordId =>
          case IdocType =>
          case IdocData =>
          case CustomEndpoint =>
          case CustomMethod =>
          case CustomBody =>
        }
      }
      updated := HandleUpdate(node, Key(f), value);
    }
  }

  /** The sub-operations the node type declares for its SAP settings. */
  const DeclaredOperations: set<string> := {"rfc", "odata_query", "odata_create", "odata_update", "odata_delete", "bapi", "idoc", "custom"}

  /** The selector offers exactly the declared sub-operations, each once. */
  lemma OperationsMatchDeclaredType()
    ensures (set op | op in Operations) == DeclaredOperations
    ensures forall i, j :: 0 <= i < j < |Operations| ==> Operations[i] != Operations[j]
  {
  }

  /** The visibility conditions and the table agree on every input, for every sub-operation that is offered and for every other text that does not start with `odata_`. */
  lemma ShowsMatchesTable(operation: string, f: Field)
    requires operation in Operations || !StartsWith(operation, "odata_")
    ensures Shows(operation, f) <==> f in FieldsFor(operation)
  {
    if operation in ["odata_query", "odata_create", "odata_update", "odata_delete"] {
      assert operation[..6] == "odata_";
    } else if operation == "custom" {
      assert operation[0] != 'o';
    }
  }

  /** The entity input is guarded by a prefix test rather than a list: any sub-operation
      text starting with `odata_`, offered or not, shows it, and an unknown one shows
      nothing else. */
  lemma OdataPrefixShowsEntity(operation: string, f: Field)
    requires StartsWith(operation, "odata_") && operation !in Operations
    ensures Shows(operation, f) <==> f == OdataEntity
  {
  }

  /** Parameters accompany rfc, bapi, odata_create and odata_update only: deleting by OData
      takes an entity and a record id but no parameters. */
  lemma OdataDeleteHasNoParameters()
    ensures FieldsFor("odata_delete") == {OdataEntity, RecordId}
    ensures Shows("odata_delete", OdataEntity) && Shows("odata_delete", RecordId) && !Shows("odata_delete", Parameters)
  {
  }

  /** Every offered sub-operation shows at least one input; the empty choice shows none. */
  lemma EveryOperationShowsInputs()
    ensures forall op :: op in Operations ==> FieldsFor(op) != {}
    ensures forall f :: !Shows("", f)
  {
  }

  /** Round trip: after the host applies an edit and the panel reloads, the edited input
      shows the new text (or its default, for an empty text) and every other input and
      the operation show what they showed before. */
  lemma ReloadAfterEdit(node: CustomNode, f: Field, value: string)
    ensures Loaded(HandleUpdate(node, Key(f), value), f) == (if value == "" then Default(f) else value)
    ensures forall g :: g != f ==> Loaded(HandleUpdate(node, Key(f), value), g) == Loaded(node, g)
    ensures LoadedOperation(HandleUpdate(node, Key(f), value)) == LoadedOperation(node)
  {
    var r := HandleUpdate(node, Key(f), value);
    forall g | g != f
      ensures Loaded(r, g) == Loaded(node, g)
    {
      KeysDistinct(g, f);
    }
    KeysDistinct(f, f);
  }

  /** Changing the sub-operation does not clear the inputs filled in under an earlier one. */
  lemma OperationChangeKeepsFields(node: CustomNode, newOperation: string)
    ensures LoadedOperation(HandleUpdate(node, OperationKey, newOperation)) == newOperation
    ensures forall f :: Loaded(HandleUpdate(node, OperationKey, newOperation), f) == Loaded(node, f)
  {
    forall f
      ensures Loaded(HandleUpdate(node, OperationKey, newOperation), f) == Loaded(node, f)
    {
      KeysDistinct(f, f);
    }
  }

  /** A node with no SAP settings loads every default and no sub-operation. */
  lemma FreshNodeLoadsDefaults(node: CustomNode)
    requires SettingsOf(node.data.toolOperation, Sap).None?
    ensures LoadedOperation(node) == ""
    ensures forall f :: Loaded(node, f) == Default(f)
  {
  }
}
