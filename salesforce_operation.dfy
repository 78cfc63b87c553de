/**
 * The Salesforce operation panel of a canvas node: the sub-operation chosen,
 * one local text field per input, the defaults used when a stored value is
 * missing or empty, which inputs each sub-operation shows, and the update
 * each edit sends to the host.
 */
module SalesforceOperation {
  import opened Wrappers
  import opened CanvasNode

  datatype Field =
      SObject
    | SoqlQuery
    | FieldValues
    | RecordId
    | SearchQuery
    | ApexClass
    | ApexMethod
    | Parameters

  /** The key of `toolOperation.salesforce` the sub-operation itself is stored under. */
  const OperationKey: string := "operation"

  /** The key of `toolOperation.salesforce` each field is stored under. */
  function Key(f: Field): string {
    match f
    case SObject => "object"
    case SoqlQuery => "soqlQuery"
    case FieldValues => "fields"
    case RecordId => "recordId"
    case SearchQuery => "searchQuery"
    case ApexClass => "apexClass"
    case ApexMethod => "apexMethod"
    case Parameters => "parameters"
  }

  /** Distinct fields are stored under distinct keys, none of them the operation's. */
  lemma KeysDistinct(f: Field, g: Field)
    ensures Key(f) == Key(g) ==> f == g
    ensures Key(f) != OperationKey
  {
  }

  /** The value a field starts from when nothing usable is stored. */
  function Default(f: Field): string {
    match f
    case FieldValues => "{}"
    case Parameters => "{}"
    case _ => ""
  }

  /** The defaults: an empty JSON object for FieldValues, Parameters, the empty text otherwise. */
  lemma Defaults(f: Field)
    ensures Default(f) == "{}" <==> f == FieldValues || f == Parameters
    ensures Default(f) == "" <==> f != FieldValues && f != Parameters
  {
  }

  /** The sub-operations the selector offers besides the empty choice. */
  const Operations: seq<string> := ["query", "create", "update", "delete", "search", "get_by_id", "apex"]

  /** The conditions under which the panel renders each input, one per guarded block. */
  predicate Shows(operation: string, f: Field) {
    match f
    case SObject => operation != "" && operation in ["query", "create", "update", "delete", "search", "get_by_id"]
    case SoqlQuery => operation == "query"
    case FieldValues => operation in ["create", "update"]
    case RecordId => operation in ["update", "delete", "get_by_id"]
    case SearchQuery => operation == "search"
    case ApexClass | ApexMethod | Parameters => operation == "apex"
  }

  /** The inputs each sub-operation offers, as a table. */
  function FieldsFor(operation: string): set<Field> {
    if operation == "query" then {SObject, SoqlQuery}
    else if operation == "create" then {SObject, FieldValues}
    else if operation == "update" then {SObject, FieldValues, RecordId}
    else if operation == "delete" then {SObject, RecordId}
    else if operation == "search" then {SObject, SearchQuery}
    else if operation == "get_by_id" then {SObject, RecordId}
    else if operation == "apex" then {ApexClass, ApexMethod, Parameters}
    else {}
  }

  /** `handleUpdate(field, value)`: sets `toolOperation.salesforce[field]` and nothing else. */
  function HandleUpdate(node: CustomNode, field: string, value: string): (r: CustomNode)
    ensures Stored(r, Salesforce, field) == Some(value)
    ensures forall k :: k != field ==> Stored(r, Salesforce, k) == Stored(node, Salesforce, k)
    ensures forall j :: j != Salesforce ==> SettingsOf(r.data.toolOperation, j) == SettingsOf(node.data.toolOperation, j)
    ensures r.id == node.id && r.nodeType == node.nodeType && r.position == node.position
    ensures r.data.(toolOperation := None) == node.data.(toolOperation := None)
  {
    UpdateField(node, Salesforce, field, value)
  }

  /** The value a field's local state takes from the node: the stored text, or the default. */
  function Loaded(node: CustomNode, f: Field): string {
    OrDefault(Stored(node, Salesforce, Key(f)), Default(f))
  }

  function LoadedOperation(node: CustomNode): string {
    OrDefault(Stored(node, Salesforce, OperationKey), "")
  }

  /** The panel's local state: one `useState` text per input, plus the chosen sub-operation. */
  class Panel {
    var operation: string
    var sObject: string
    var soqlQuery: string
    var fieldValues: string
    var recordId: string
    var searchQuery: string
    var apexClass: string
    var apexMethod: string
    var parameters: string

    function Value(f: Field): string
      reads this
    {
      match f
      case SObject => sObject
      case SoqlQuery => soqlQuery
      case FieldValues => fieldValues
      case RecordId => recordId
      case SearchQuery => searchQuery
      case ApexClass => apexClass
      case ApexMethod => apexMethod
      case Parameters => parameters
    }

    /** The local state shows what `node` stores, defaults filled in. */
    ghost predicate Mirrors(node: CustomNode)
      reads this
    {
      operation == LoadedOperation(node) && forall f :: Value(f) == Loaded(node, f)
    }

    /** Checks `Mirrors` one field at a time. */
    lemma MirrorsByCases(node: CustomNode)
      requires operation == LoadedOperation(node)
      requires sObject == Loaded(node, SObject)
      requires soqlQuery == Loaded(node, SoqlQuery)
      requires fieldValues == Loaded(node, FieldValues)
      requires recordId == Loaded(node, RecordId)
      requires searchQuery == Loaded(node, SearchQuery)
      requires apexClass == Loaded(node, ApexClass)
      requires apexMethod == Loaded(node, ApexMethod)
      requires parameters == Loaded(node, Parameters)
      ensures Mirrors(node)
    {
      forall f ensures Value(f) == Loaded(node, f) {
        match f {
          case SObject =>
          case SoqlQuery =>
          case FieldValues =>
          case RecordId =>
          case SearchQuery =>
          case ApexClass =>
          case ApexMethod =>
          case Parameters =>
        }
      }
    }

    /** Mounting the panel on `node`. */
    constructor (node: CustomNode)
      ensures Mirrors(node)
    {
      operation := LoadedOperation(node);
      sObject := Loaded(node, SObject);
      soqlQuery := Loaded(node, SoqlQuery);
      fieldValues := Loaded(node, FieldValues);
      recordId := Loaded(node, RecordId);
      searchQuery := Loaded(node, SearchQuery);
      apexClass := Loaded(node, ApexClass);
      apexMethod := Loaded(node, ApexMethod);
      parameters := Loaded(node, Parameters);
      new;
      MirrorsByCases(node);
    }

    /** The effect keyed on `node.id`: a node with an id reloads every field. */
    method OnNodeIdChange(node: CustomNode)
      modifies this
      ensures node.id != "" ==> Mirrors(node)
      ensures node.id == "" ==> operation == old(operation) && forall f :: Value(f) == old(Value(f))
    {
      if node.id != "" {
        operation := LoadedOperation(node);
        sObject := Loaded(node, SObject);
        soqlQuery := Loaded(node, SoqlQuery);
        fieldValues := Loaded(node, FieldValues);
        recordId := Loaded(node, RecordId);
        searchQuery := Loaded(node, SearchQuery);
        apexClass := Loaded(node, ApexClass);
        apexMethod := Loaded(node, ApexMethod);
        parameters := Loaded(node, Parameters);
        MirrorsByCases(node);
      }
    }

    /** `handleOperationChange`: records the choice locally and emits exactly one update,
        for the operation key; the fields of the earlier choice are kept. */
    method HandleOperationChange(node: CustomNode, newOperation: string) returns (updated: CustomNode)
      modifies this
      ensures operation == newOperation
      ensures forall f :: Value(f) == old(Value(f))
      ensures updated == HandleUpdate(node, OperationKey, newOperation)
    {
      operation := newOperation;
      updated := HandleUpdate(node, OperationKey, newOperation);
    }

    /** The `onChange` handler of a shown input: the text is kept verbatim, locally and in
        the one update emitted. */
    method HandleFieldChange(node: CustomNode, f: Field, value: string) returns (updated: CustomNode)
      requires Shows(operation, f)
      modifies this
      ensures Value(f) == value
      ensures forall g :: g != f ==> Value(g) == old(Value(g))
      ensures operation == old(operation)
      ensures updated == HandleUpdate(node, Key(f), value)
    {
      match f {
        case SObject => sObject := value;
        case SoqlQuery => soqlQuery := value;
        case FieldValues => fieldValues := value;
        case RecordId => recordId := value;
        case SearchQuery => searchQuery := value;
        case ApexClass => apexClass := value;
        case ApexMethod => apexMethod := value;
        case Parameters => parameters := value;
      }
      forall g | g != f
        ensures Value(g) == old(Value(g))
      {
        match g {
          case SObject =>
          case SoqlQuery =>
          case FieldValues =>
          case RecordId =>
          case SearchQuery =>
          case ApexClass =>
          case ApexMethod =>
          case Parameters =>
        }
      }
      updated := HandleUpdate(node, Key(f), value);
    }
  }

  /** The sub-operations the node type declares for its Salesforce settings. */
  const DeclaredOperations: set<string> := {"query", "create", "update", "delete", "search", "get_by_id", "apex"}

  /** The selector offers exactly the declared sub-operations, each once. */
  lemma OperationsMatchDeclaredType()
    ensures (set op | op in Operations) == DeclaredOperations
    ensures forall i, j :: 0 <= i < j < |Operations| ==> Operations[i] != Operations[j]
  {
  }

  /** The visibility conditions and the table agree on every input and every sub-operation, offered or not. */
  lemma ShowsMatchesTable(operation: string, f: Field)
    ensures Shows(operation, f) <==> f in FieldsFor(operation)
  {
  }

  /** The object input accompanies every offered sub-operation except `apex`, and the
      selector has no `custom` choice. */
  lemma ObjectShownExceptApex()
    ensures forall op :: op in Operations ==> (Shows(op, SObject) <==> op != "apex")
    ensures "custom" !in Operations
  {
  }

  /** Every offered sub-operation shows at least one input; the empty choice shows none. */
  lemma EveryOperationShowsInputs()
    ensures forall op :: op in Operations ==> FieldsFor(op) != {}
    ensures forall f :: !Shows("", f)
  {
  }

  /** Round trip: after the host applies an edit and the panel reloads, the edited input
      shows the new text (or its default, for an empty text) and every other input and
      the operation show what they showed before. */
  lemma ReloadAfterEdit(node: CustomNode, f: Field, value: string)
    ensures Loaded(HandleUpdate(node, Key(f), value), f) == (if value == "" then Default(f) else value)
    ensures forall g :: g != f ==> Loaded(HandleUpdate(node, Key(f), value), g) == Loaded(node, g)
    ensures LoadedOperation(HandleUpdate(node, Key(f), value)) == LoadedOperation(node)
  {
    var r := HandleUpdate(node, Key(f), value);
    forall g | g != f
      ensures Loaded(r, g) == Loaded(node, g)
    {
      KeysDistinct(g, f);
    }
    KeysDistinct(f, f);
  }

  /** Changing the sub-operation does not clear the inputs filled in under an earlier one. */
  lemma OperationChangeKeepsFields(node: CustomNode, newOperation: string)
    ensures LoadedOperation(HandleUpdate(node, OperationKey, newOperation)) == newOperation
    ensures forall f :: Loaded(HandleUpdate(node, OperationKey, newOperation), f) == Loaded(node, f)
  {
    forall f
      ensures Loaded(HandleUpdate(node, OperationKey, newOperation), f) == Loaded(node, f)
    {
      KeysDistinct(f, f);
    }
  }

  /** A node with no Salesforce settings loads every default and no sub-operation. */
  lemma FreshNodeLoadsDefaults(node: CustomNode)
    requires SettingsOf(node.data.toolOperation, Salesforce).None?
    ensures LoadedOperation(node) == ""
    ensures forall f :: Loaded(node, f) == Default(f)
  {
  }
}
