/**
 * The Workday operation panel of a canvas node: the sub-operation chosen,
 * one local text field per input, the defaults used when a stored value is
 * missing or empty, which inputs each sub-operation shows, and the update
 * each edit sends to the host.
 */
module WorkdayOperation {
  import opened Wrappers
  import opened CanvasNode

  datatype Field =
      ReportName
    | ReportData
    | ServiceName
    | DocumentType
    | DocumentId
    | DocumentData
    | Parameters
    | CustomEndpoint
    | CustomMethod
    | CustomBody

  /** The key of `toolOperation.workday` the sub-operation itself is stored under. */
  const OperationKey: string := "operation"

  /** The key of `toolOperation.workday` each field is stored under. */
  function Key(f: Field): string {
    match f
    case ReportName => "reportName"
    case ReportData => "reportData"
    case ServiceName => "serviceName"
    case DocumentType => "documentType"
    case DocumentId => "documentId"
    case DocumentData => "documentData"
    case Parameters => "parameters"
    case CustomEndpoint => "customEndpoint"
    case CustomMethod => "customMethod"
    case CustomBody => "customBody"
  }

  /** Distinct fields are stored under distinct keys, none of them the operation's. */
  lemma KeysDistinct(f: Field, g: Field)
    ensures Key(f) == Key(g) ==> f == g
    ensures Key(f) != OperationKey
  {
  }

  /** The value a field starts from when nothing usable is stored. */
  function Default(f: Field): string {
    match f
    case ReportData => "{}"
    case DocumentData => "{}"
    case Parameters => "{}"
    case CustomMethod => "GET"
    case _ => ""
  }

  /** The defaults: an empty JSON object for ReportData, DocumentData, Parameters, `GET` for the HTTP method, the empty text otherwise. */
  lemma Defaults(f: Field)
    ensures Default(f) == "{}" <==> f == ReportData || f == DocumentData || f == Parameters
    ensures Default(f) == "GET" <==> f == CustomMethod
    ensures Default(f) == "" <==> f != ReportData && f != DocumentData && f != Parameters && f != CustomMethod
  {
  }

  /** The sub-operations the selector offers besides the empty choice. */
  const Operations: seq<string> := ["get_report", "put_report", "get_document", "put_document", "web_service", "custom"]

  /** The conditions under which the panel renders each input, one per guarded block. */
  predicate Shows(operation: string, f: Field) {
    var documentOp := operation in ["get_document", "put_document"];
    match f
    case ReportName => operation in ["get_report", "put_report"]
    case ReportData => operation == "put_report"
    case ServiceName => operation == "web_service"
    case DocumentType => documentOp
    case DocumentId => documentOp && operation == "get_document"
    case DocumentData => documentOp && operation == "put_document"
    case CustomEndpoint | CustomMethod | CustomBody => operation == "custom"
    case Parameters => operation in ["get_report", "web_service"]
  }

  /** The inputs each sub-operation offers, as a table. */
  function FieldsFor(operation: string): set<Field> {
    if operation == "get_report" then {ReportName, Parameters}
    else if operation == "put_report" then {ReportName, ReportData}
    else if operation == "get_document" then {DocumentType, DocumentId}
    else if operation == "put_document" then {DocumentType, DocumentData}
    else if operation == "web_service" then {ServiceName, Parameters}
    else if operation == "custom" then {CustomEndpoint, CustomMethod, CustomBody}
    else {}
  }

  /** `handleUpdate(field, value)`: sets `toolOperation.workday[field]` and nothing else. */
  function HandleUpdate(node: CustomNode, field: string, value: string): (r: CustomNode)
    ensures Stored(r, Workday, field) == Some(value)
    ensures forall k :: k != field ==> Stored(r, Workday, k) == Stored(node, Workday, k)
    ensures forall j :: j != Workday ==> SettingsOf(r.data.toolOperation, j) == SettingsOf(node.data.toolOperation, j)
    ensures r.id == node.id && r.nodeType == node.nodeType && r.position == node.position
    ensures r.data.(toolOperation := None) == node.data.(toolOperation := None)
  {
    UpdateField(node, Workday, field, value)
  }

  /** The value a field's local state takes from the node: the stored text, or the default. */
  function Loaded(node: CustomNode, f: Field): string {
    OrDefault(Stored(node, Workday, Key(f)), Default(f))
  }

  function LoadedOperation(node: CustomNode): string {
    OrDefault(Stored(node, Workday, OperationKey), "")
  }

  /** The panel's local state: one `useState` text per input, plus the chosen sub-operation. */
  class Panel {
    var operation: string
    var reportName: string
    var reportData: string
    var serviceName: string
    var documentType: string
    var documentId: string
    var documentData: string
    var parameters: string
    var customEndpoint: string
    var customMethod: string
    var customBody: string

    function Value(f: Field): string
      reads this
    {
      match f
      case ReportName => reportName
      case ReportData => reportData
      case ServiceName => serviceName
      case DocumentType => documentType
      case DocumentId => documentId
      case DocumentData => documentData
      case Parameters => parameters
      case CustomEndpoint => customEndpoint
      case CustomMethod => customMethod
      case CustomBody => customBody
    }

    /** The local state shows what `node` stores, defaults filled in. */
    ghost predicate Mirrors(node: CustomNode)
      reads this
    {
      operation == LoadedOperation(node) && forall f :: Value(f) == Loaded(node, f)
    }

    /** Checks `Mirrors` one field at a time. */
    lemma MirrorsByCases(node: CustomNode)
      requires operation == LoadedOperation(node)
      requires reportName == Loaded(node, ReportName)
      requires reportData == Loaded(node, ReportData)
      requires serviceName == Loaded(node, ServiceName)
      requires documentType == Loaded(node, DocumentType)
      requires documentId == Loaded(node, DocumentId)
      requires documentData == Loaded(node, DocumentData)
      requires parameters == Loaded(node, Parameters)
      requires customEndpoint == Loaded(node, CustomEndpoint)
      requires customMethod == Loaded(node, CustomMethod)
      requires customBody == Loaded(node, CustomBody)
      ensures Mirrors(node)
    {
      forall f ensures Value(f) == Loaded(node, f) {
        match f {
          case ReportName =>
          case ReportData =>
          case ServiceName =>
          case DocumentType =>
          case DocumentId =>
          case DocumentData =>
          case Parameters =>
          case CustomEndpoint =>
          case CustomMethod =>
          case CustomBody =>
        }
      }
    }

    /** Mounting the panel on `node`. */
    constructor (node: CustomNode)
      ensures Mirrors(node)
    {
      operation := LoadedOperation(node);
      reportName := Loaded(node, ReportName);
      reportData := Loaded(node, ReportData);
      serviceName := Loaded(node, ServiceName);
      documentType := Loaded(node, DocumentType);
      documentId := Loaded(node, DocumentId);
      documentData := Loaded(node, DocumentData);
      parameters := Loaded(node, Parameters);
      customEndpoint := Loaded(node, CustomEndpoint);
      customMethod := Loaded(node, CustomMethod);
      customBody := Loaded(node, CustomBody);
      new;
      MirrorsByCases(node);
    }

    /** The effect keyed on `node.id`: a node with an id reloads every field. */
    method OnNodeIdChange(node: CustomNode)
      modifies this
      ensures node.id != "" ==> Mirrors(node)
      ensures node.id == "" ==> operation == old(operation) && forall f :: Value(f) == old(Value(f))
    {
      if node.id != "" {
        operation := LoadedOperation(node);
        reportName := Loaded(node, ReportName);
        reportData := Loaded(node, ReportData);
        serviceName := Loaded(node, ServiceName);
        documentType := Loaded(node, DocumentType);
        documentId := Loaded(node, DocumentId);
        documentData := Loaded(node, DocumentData);
        parameters := Loaded(node, Parameters);
        customEndpoint := Loaded(node, CustomEndpoint);
        customMethod := Loaded(node, CustomMethod);
        customBody := Loaded(node, CustomBody);
        MirrorsByCases(node);
      }
    }

    /** `handleOperationChange`: records the choice locally and emits exactly one update,
        for the operation key; the fields of the earlier choice are kept. */
    method HandleOperationChange(node: CustomNode, newOperation: string) returns (updated: CustomNode)
      modifies this
      ensures operation == newOperation
      ensures forall f :: Value(f) == old(Value(f))
      ensures updated == HandleUpdate(node, OperationKey, newOperation)
    {
      operation := newOperation;
      updated := HandleUpdate(node, OperationKey, newOperation);
    }

    /** The `onChange` handler of a shown input: the text is kept verbatim, locally and in
        the one update emitted. */
    method HandleFieldChange(node: CustomNode, f: Field, value: string) returns (updated: CustomNode)
      requires Shows(operation, f)
      modifies this
      ensures Value(f) == value
      ensures forall g :: g != f ==> Value(g) == old(Value(g))
      ensures operation == old(operation)
      ensures updated == HandleUpdate(node, Key(f), value)
    {
      match f {
        case ReportName => reportName := value;
        case ReportData => reportData := value;
        case ServiceName => serviceName := value;
        case DocumentType => documentType := value;
        case DocumentId => documentId := value;
        case DocumentData => documentData := value;
        case Parameters => parameters := value;
        case CustomEndpoint => customEndpoint := value;
        case CustomMethod => customMethod := value;
        case CustomBody => customBody := value;
      }
      forall g | g != f
        ensures Value(g) == old(Value(g))
      {
        match g {
          case ReportName =>
          case ReportData =>
          case ServiceName =>
          case DocumentType =>
          case DocumentId =>
          case DocumentData =>
          case Parameters =>
          case CustomEndpoint =>
          case CustomMethod =>
          case CustomBody =>
        }
      }
      updated := HandleUpdate(node, Key(f), value);
    }
  }

  /** The sub-operations the node type declares for its Workday settings. */
  const DeclaredOperations: set<string> := {"get_report", "put_report", "get_document", "put_document", "web_service", "custom"}

  /** The selector offers exactly the declared sub-operations, each once. */
  lemma OperationsMatchDeclaredType()
    ensures (set op | op in Operations) == DeclaredOperations
    ensures forall i, j :: 0 <= i < j < |Operations| ==> Operations[i] != Operations[j]
  {
  }

  /** The visibility conditions and the table agree on every input and every sub-operation, offered or not. */
  lemma ShowsMatchesTable(operation: string, f: Field)
    ensures Shows(operation, f) <==> f in FieldsFor(operation)
  {
  }

  /** Every offered sub-operation shows at least one input; the empty choice shows none. */
  lemma EveryOperationShowsInputs()
    ensures forall op :: op in Operations ==> FieldsFor(op) != {}
    ensures forall f :: !Shows("", f)
  {
  }

  /** Round trip: after the host applies an edit and the panel reloads, the edited input
      shows the new text (or its default, for an empty text) and every other input and
      the operation show what they showed before. */
  lemma ReloadAfterEdit(node: CustomNode, f: Field, value: string)
    ensures Loaded(HandleUpdate(node, Key(f), value), f) == (if value == "" then Default(f) else value)
    ensures forall g :: g != f ==> Loaded(HandleUpdate(node, Key(f), value), g) == Loaded(node, g)
    ensures LoadedOperation(HandleUpdate(node, Key(f), value)) == LoadedOperation(node)
  {
    var r := HandleUpdate(node, Key(f), value);
    forall g | g != f
      ensures Loaded(r, g) == Loaded(node, g)
    {
      KeysDistinct(g, f);
    }
    KeysDistinct(f, f);
  }

  /** Changing the sub-operation does not clear the inputs filled in under an earlier one. */
  lemma OperationChangeKeepsFields(node: CustomNode, newOperation: string)
    ensures LoadedOperation(HandleUpdate(node, OperationKey, newOperation)) == newOperation
    ensures forall f :: Loaded(HandleUpdate(node, OperationKey, newOperation), f) == Loaded(node, f)
  {
    forall f
      ensures Loaded(HandleUpdate(node, OperationKey, newOperation), f) == Loaded(node, f)
    {
      KeysDistinct(f, f);
    }
  }

  /** A node with no Workday settings loads every default and no sub-operation. */
  lemma FreshNodeLoadsDefaults(node: CustomNode)
    requires SettingsOf(node.data.toolOperation, Workday).None?
    ensures LoadedOperation(node) == ""
    ensures forall f :: Loaded(node, f) == Default(f)
  {
  }
}
