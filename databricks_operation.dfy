/**
 * The Databricks operation panel of a canvas node: the sub-operation chosen,
 * one local text field per input, the defaults used when a stored value is
 * missing or empty, which inputs each sub-operation shows, and the update
 * each edit sends to the host.
 */
module DatabricksOperation {
  import opened Wrappers
  import opened CanvasNode

  datatype Field =
      SqlQuery
    | NotebookPath
    | TableName
    | Catalog
    | Schema
    | Query
    | TableDefinition
    | JobId
    | Parameters
    | CustomEndpoint
    | CustomMethod
    | CustomBody

  /** The key of `toolOperation.databricks` the sub-operation itself is stored under. */
  const OperationKey: string := "operation"

  /** The key of `toolOperation.databricks` each field is stored under. */
  function Key(f: Field): string {
    match f
    case SqlQuery => "sqlQuery"
    case NotebookPath => "notebookPath"
    case TableName => "tableName"
    case Catalog => "catalog"
    case Schema => "schema"
    case Query => "query"
    case TableDefinition => "tableDefinition"
    case JobId => "jobId"
    case Parameters => "parameters"
    case CustomEndpoint => "customEndpoint"
    case CustomMethod => "customMethod"
    case CustomBody => "customBody"
  }

  /** Distinct fields are stored under distinct keys, none of them the operation's. */
  lemma KeysDistinct(f: Field, g: Field)
    ensures Key(f) == Key(g) ==> f == g
    ensures Key(f) != OperationKey
  {
  }

  /** The value a field starts from when nothing usable is stored. */
  function Default(f: Field): string {
    match f
    case TableDefinition => "{}"
    case Parameters => "{}"
    case CustomMethod => "GET"
    case _ => ""
  }

  /** The defaults: an empty JSON object for TableDefinition, Parameters, `GET` for the HTTP method, the empty text otherwise. */
  lemma Defaults(f: Field)
    ensures Default(f) == "{}" <==> f == TableDefinition || f == Parameters
    ensures Default(f) == "GET" <==> f == CustomMethod
    ensures Default(f) == "" <==> f != TableDefinition && f != Parameters && f != CustomMethod
  {
  }

  /** The sub-operations the selector offers besides the empty choice. */
  const Operations: seq<string> := ["execute_sql", "run_notebook", "query_table", "create_table", "run_job", "custom"]

  /** The conditions under which the panel renders each input, one per guarded block. */
  predicate Shows(operation: string, f: Field) {
    var tableOp := operation in ["query_table", "create_table"];
    match f
    case SqlQuery => operation == "execute_sql"
    case Catalog | Schema => operation == "execute_sql" || tableOp
    case NotebookPath => operation == "run_notebook"
    case TableName => tableOp
    case Query => tableOp && operation == "query_table"
    case TableDefinition => tableOp && operation == "create_table"
    case JobId => operation == "run_job"
    case Parameters => operation == "run_notebook" || operation == "run_job"
    case CustomEndpoint | CustomMethod | CustomBody => operation == "custom"
  }

  /** The inputs each sub-operation offers, as a table. */
  function FieldsFor(operation: string): set<Field> {
    if operation == "execute_sql" then {SqlQuery, Catalog, Schema}
    else if operation == "run_notebook" then {NotebookPath, Parameters}
    else if operation == "query_table" then {TableName, Catalog, Schema, Query}
    else if operation == "create_table" then {TableName, Catalog, Schema, TableDefinition}
    else if operation == "run_job" then {JobId, Parameters}
    else if operation == "custom" then {CustomEndpoint, CustomMethod, CustomBody}
    else {}
  }

  /** `handleUpdate(field, value)`: sets `toolOperation.databricks[field]` and nothing else. */
  function HandleUpdate(node: CustomNode, field: string, value: string): (r: CustomNode)
    ensures Stored(r, Databricks, field) == Some(value)
    ensures forall k :: k != field ==> Stored(r, Databricks, k) == Stored(node, Databricks, k)
    ensures forall j :: j != Databricks ==> SettingsOf(r.data.toolOperation, j) == SettingsOf(node.data.toolOperation, j)
    ensures r.id == node.id && r.nodeType == node.nodeType && r.position == node.position
    ensures r.data.(toolOperation := None) == node.data.(toolOperation := None)
  {
    UpdateField(node, Databricks, field, value)
  }

  /** The value a field's local state takes from the node: the stored text, or the default. */
  function Loaded(node: CustomNode, f: Field): string {
    OrDefault(Stored(node, Databricks, Key(f)), Default(f))
  }

  function LoadedOperation(node: CustomNode): string {
    OrDefault(Stored(node, Databricks, OperationKey), "")
  }

  /** The panel's local state: one `useState` text per input, plus the chosen sub-operation. */
  class Panel {
    var operation: string
    var sqlQuery: string
    var notebookPath: string
    var tableName: string
    var catalog: string
    var schema: string
    var query: string
    var tableDefinition: string
    var jobId: string
    var parameters: string
    var customEndpoint: string
    var customMethod: string
    var customBody: string

    function Value(f: Field): string
      reads this
    {
      match f
      case SqlQuery => sqlQuery
      case NotebookPath => notebookPath
      case TableName => tableName
      case Catalog => catalog
      case Schema => schema
      case Query => query
      case TableDefinition => tableDefinition
      case JobId => jobId
      case Parameters => parameters
      case CustomEndpoint => customEndpoint
      case CustomMethod => customMethod
      case CustomBody => customBody
    }

    /** The local state shows what `node` stores, defaults filled in. */
    ghost predicate Mirrors(node: CustomNode)
      reads this
    {
      operation == LoadedOperation(node) && forall f :: Value(f) == Loaded(node, f)
    }

    /** Checks `Mirrors` one field at a time. */
    lemma MirrorsByCases(node: CustomNode)
      requires operation == LoadedOperation(node)
      requires sqlQuery == Loaded(node, SqlQuery)
      requires notebookPath == Loaded(node, NotebookPath)
      requires tableName == Loaded(node, TableName)
      requires catalog == Loaded(node, Catalog)
      requires schema == Loaded(node, Schema)
      requires query == Loaded(node, Query)
      requires tableDefinition == Loaded(node, TableDefinition)
      requires jobId == Loaded(node, JobId)
      requires parameters == Loaded(node, Parameters)
      requires customEndpoint == Loaded(node, CustomEndpoint)
      requires customMethod == Loaded(node, CustomMethod)
      requires customBody == Loaded(node, CustomBody)
      ensures Mirrors(node)
    {
      forall f ensures Value(f) == Loaded(node, f) {
        match f {
          case SqlQuery =>
          case NotebookPath =>
          case TableName =>
          case Catalog =>
          case Schema =>
          case Query =>
          case TableDefinition =>
          case JobId =>
          case Parameters =>
          case CustomEndpoint =>
          case CustomMethod =>
          case CustomBody =>
        }
      }
    }

    /** Mounting the panel on `node`. */
    constructor (node: CustomNode)
      ensures Mirrors(node)
    {
      operation := LoadedOperation(node);
      sqlQuery := Loaded(node, SqlQuery);
      notebookPath := Loaded(node, NotebookPath);
      tableName := Loaded(node, TableName);
      catalog := Loaded(node, Catalog);
      schema := Loaded(node, Schema);
      query := Loaded(node, Query);
      tableDefinition := Loaded(node, TableDefinition);
      jobId := Loaded(node, JobId);
      parameters := Loaded(node, Parameters);
      customEndpoint := Loaded(node, CustomEndpoint);
      customMethod := Loaded(node, CustomMethod);
      customBody := Loaded(node, CustomBody);
      new;
      MirrorsByCases(node);
    }

    /** The effect keyed on `node.id`: a node with an id reloads every field. */
    method OnNodeIdChange(node: CustomNode)
      modifies this
      ensures node.id != "" ==> Mirrors(node)
      ensures node.id == "" ==> operation == old(operation) && forall f :: Value(f) == old(Value(f))
    {
      if node.id != "" {
        operation := LoadedOperation(node);
        sqlQuery := Loaded(node, SqlQuery);
        notebookPath := Loaded(node, NotebookPath);
        tableName := Loaded(node, TableName);
        catalog := Loaded(node, Catalog);
        schema := Loaded(node, Schema);
        query := Loaded(node, Query);
        tableDefinition := Loaded(node, TableDefinition);
        jobId := Loaded(node, JobId);
        parameters := Loaded(node, Parameters);
        customEndpoint := Loaded(node, CustomEndpoint);
        customMethod := Loaded(node, CustomMethod);
        customBody := Loaded(node, CustomBody);
        MirrorsByCases(node);
      }
    }

    /** `handleOperationChange`: records the choice locally and emits exactly one update,
        for the operation key; the fields of the earlier choice are kept. */
    method HandleOperationChange(node: CustomNode, newOperation: string) returns (updated: CustomNode)
      modifies this
      ensures operation == newOperation
      ensures forall f :: Value(f) == old(Value(f))
      ensures updated == HandleUpdate(node, OperationKey, newOperation)
    {
      operation := newOperation;
      updated := HandleUpdate(node, OperationKey, newOperation);
    }

    /** The `onChange` handler of a shown input: the text is kept verbatim, locally and in
        the one update emitted. */
    method HandleFieldChange(node: CustomNode, f: Field, value: string) returns (updated: CustomNode)
      requires Shows(operation, f)
      modifies this
      ensures Value(f) == value
      ensures forall g :: g != f ==> Value(g) == old(Value(g))
      ensures operation == old(operation)
      ensures updated == HandleUpdate(node, Key(f), value)
    {
      match f {
        case SqlQuery => sqlQuery := value;
        case NotebookPath => notebookPath := value;
        case TableName => tableName := value;
        case Catalog => catalog := value;
        case Schema => schema := value;
        case Query => query := value;
        case TableDefinition => tableDefinition := value;
        case JobId => jobId := value;
        case Parameters => parameters := value;
        case CustomEndpoint => customEndpoint := value;
        case CustomMethod => customMethod := value;
        case CustomBody => customBody := value;
      }
      forall g | g != f
        ensures Value(g) == old(Value(g))
      {
        match g {
          case SqlQuery =>
          case NotebookPath =>
          case TableName =>
          case Catalog =>
          case Schema =>
          case Query =>
          case TableDefinition =>
          case JobId =>
          case Parameters =>
          case CustomEndpoint =>
          case CustomMethod =>
          case CustomBody =>
        }
      }
      updated := HandleUpdate(node, Key(f), value);
    }
  }

  /** The sub-operations the node type declares for its Databricks settings. */
  const DeclaredOperations: set<string> := {"execute_sql", "run_notebook", "query_table", "create_table", "run_job", "custom"}

  /** The selector offers exactly the declared sub-operations, each once. */
  lemma OperationsMatchDeclaredType()
    ensures (set op | op in Operations) == DeclaredOperations
    ensures forall i, j :: 0 <= i < j < |Operations| ==> Operations[i] != Operations[j]
  {
  }

  /** The visibility conditions and the table agree on every input and every sub-operation, offered or not. */
  lemma ShowsMatchesTable(operation: string, f: Field)
    ensures Shows(operation, f) <==> f in FieldsFor(operation)
  {
  }

  /** Every offered sub-operation shows at least one input; the empty choice shows none. */
  lemma EveryOperationShowsInputs()
    ensures forall op :: op in Operations ==> FieldsFor(op) != {}
    ensures forall f :: !Shows("", f)
  {
  }

  /** Round trip: after the host applies an edit and the panel reloads, the edited input
      shows the new text (or its default, for an empty text) and every other input and
      the operation show what they showed before. */
  lemma ReloadAfterEdit(node: CustomNode, f: Field, value: string)
    ensures Loaded(HandleUpdate(node, Key(f), value), f) == (if value == "" then Default(f) else value)
    ensures forall g :: g != f ==> Loaded(HandleUpdate(node, Key(f), value), g) == Loaded(node, g)
    ensures LoadedOperation(HandleUpdate(node, Key(f), value)) == LoadedOperation(node)
  {
    var r := HandleUpdate(node, Key(f), value);
    forall g | g != f
      ensures Loaded(r, g) == Loaded(node, g)
    {
      KeysDistinct(g, f);
    }
    KeysDistinct(f, f);
  }

  /** Changing the sub-operation does not clear the inputs filled in under an earlier one. */
  lemma OperationChangeKeepsFields(node: CustomNode, newOperation: string)
    ensures LoadedOperation(HandleUpdate(node, OperationKey, newOperation)) == newOperation
    ensures forall f :: Loaded(HandleUpdate(node, OperationKey, newOperation), f) == Loaded(node, f)
  {
    forall f
      ensures Loaded(HandleUpdate(node, OperationKey, newOperation), f) == Loaded(node, f)
    {
      KeysDistinct(f, f);
    }
  }

  /** A node with no Databricks settings loads every default and no sub-operation. */
  lemma FreshNodeLoadsDefaults(node: CustomNode)
    requires SettingsOf(node.data.toolOperation, Databricks).None?
    ensures LoadedOperation(node) == ""
    ensures forall f :: Loaded(node, f) == Default(f)
  {
  }
}
