/** The records of the RdbProcessorSpecification document: the global state
    tree, the fifteen action input records and the action family.
 */
module Types {
  import opened Values

  /** The column type enumeration (`RdbColumnType`, and the value-identical
      `RdbColumnTypeInput` used by column updates). */
  datatype ColumnType = Boolean | Date | DateTime | Float | Int | String | Text

  /** The wire name of each enumeration member. */
  function ColumnTypeName(t: ColumnType): (r: string)
    ensures ParseColumnType(r) == Some(t)
  {
    match t
    case Boolean => "Boolean"
    case Date => "Date"
    case DateTime => "DateTime"
    case Float => "Float"
    case Int => "Int"
    case String => "String"
    case Text => "Text"
  }

  function ParseColumnType(s: string): (r: Option<ColumnType>)
  {
    if s == "Boolean" then Some(Boolean)
    else if s == "Date" then Some(Date)
    else if s == "DateTime" then Some(DateTime)
    else if s == "Float" then Some(Float)
    else if s == "Int" then Some(Int)
    else if s == "String" then Some(String)
    else if s == "Text" then Some(Text)
    else None
  }

  lemma ParseColumnTypeInverse(s: string)
    ensures ParseColumnType(s).Some? ==> ColumnTypeName(ParseColumnType(s).value) == s
  {
  }

  // ---------------------------------------------------------------------
  // Global state

  datatype QueryFilterParam = QueryFilterParam(
    id: string,
    name: Nullable<string>,
    paramType: Nullable<string>,   // `type` in the source
    optional: bool)

  datatype QuerySpecification = QuerySpecification(
    id: string,
    name: Nullable<string>,
    querySchema: Nullable<string>,
    queryExample: Nullable<string>,
    filter: seq<QueryFilterParam>)

  datatype RdbColumn = RdbColumn(
    id: string,
    name: Nullable<string>,
    columnType: ColumnType,        // `type` in the source
    description: Nullable<string>,
    sourceDocModel: Nullable<string>,
    sourceProperty: Nullable<string>,
    primaryKey: bool)

  datatype RdbTable = RdbTable(
    id: string,
    name: Nullable<string>,
    columns: seq<RdbColumn>)

  /** `RdbProcessorSpecificationState`, the global scope of the document. */
  datatype GlobalState = GlobalState(
    name: Nullable<string>,
    description: Nullable<string>,
    querySpecifications: seq<QuerySpecification>,
    rdbSpecification: seq<RdbTable>)

  /** The id of each kind of entry, as the key that `find` and `filter` compare. */
  function QuerySpecId(q: QuerySpecification): string { q.id }
  function FilterParamId(p: QueryFilterParam): string { p.id }
  function TableId(t: RdbTable): string { t.id }
  function ColumnId(c: RdbColumn): string { c.id }

  // ---------------------------------------------------------------------
  // Action inputs

  datatype SetSpecInput = SetSpecInput(
    name: InputMaybe<string>,
    description: InputMaybe<string>)

  datatype AddQuerySpecificationInput = AddQuerySpecificationInput(
    id: string,
    querySchema: InputMaybe<string>,
    queryExample: InputMaybe<string>)

  datatype UpdateQuerySchemaInput = UpdateQuerySchemaInput(
    id: string,
    querySchema: InputMaybe<string>)

  datatype UpdateQueryExampleInput = UpdateQueryExampleInput(
    id: string,
    queryExample: InputMaybe<string>)

  datatype DeleteQuerySpecificationInput = DeleteQuerySpecificationInput(id: string)

  datatype AddQueryFilterParamInput = AddQueryFilterParamInput(
    querySpecId: string,
    id: string,
    name: InputMaybe<string>,
    paramType: InputMaybe<string>,
    optional: bool)

  datatype UpdateFilterParamInput = UpdateFilterParamInput(
    querySpecId: string,
    id: string,
    name: InputMaybe<string>,
    paramType: InputMaybe<string>,
    optional: InputMaybe<bool>)

  datatype DeleteFilterParamInput = DeleteFilterParamInput(
    querySpecId: string,
    id: string)

  datatype SetQuerySpecNameInput = SetQuerySpecNameInput(
    querySpecId: string,
    name: InputMaybe<string>)

  datatype AddRdbTableInput = AddRdbTableInput(
    id: string,
    name: InputMaybe<string>)

  datatype UpdateTableNameInput = UpdateTableNameInput(
    id: string,
    name: InputMaybe<string>)

  datatype DeleteRdbTableInput = DeleteRdbTableInput(id: string)

  datatype AddRdbColumnInput = AddRdbColumnInput(
    tableId: string,
    id: string,
    name: InputMaybe<string>,
    columnType: ColumnType,
    description: InputMaybe<string>,
    sourceDocModel: InputMaybe<string>,
    sourceProperty: InputMaybe<string>,
    primaryKey: bool)

  datatype UpdateRdbColumnInput = UpdateRdbColumnInput(
    tableId: string,
    id: string,
    name: InputMaybe<string>,
    columnType: InputMaybe<ColumnType>,
    description: InputMaybe<string>,
    sourceDocModel: InputMaybe<string>,
    sourceProperty: InputMaybe<string>,
    primaryKey: InputMaybe<bool>)

  datatype DeleteRdbColumnInput = DeleteRdbColumnInput(
    tableId: string,
    id: string)

  // ---------------------------------------------------------------------
  // The action family: the union of the metadata, query-specification and
  // rdb-specification action types, one variant per type tag.

  datatype Action =
    | SetSpecAction(setSpec: SetSpecInput)
    | AddQuerySpecificationAction(addQuerySpecification: AddQuerySpecificationInput)
    | UpdateQuerySchemaAction(updateQuerySchema: UpdateQuerySchemaInput)
    | UpdateQueryExampleAction(updateQueryExample: UpdateQueryExampleInput)
    | DeleteQuerySpecificationAction(deleteQuerySpecification: DeleteQuerySpecificationInput)
    | AddQueryFilterParamAction(addQueryFilterParam: AddQueryFilterParamInput)
    | UpdateFilterParamAction(updateFilterParam: UpdateFilterParamInput)
    | DeleteFilterParamAction(deleteFilterParam: DeleteFilterParamInput)
    | SetQuerySpecNameAction(setQuerySpecName: SetQuerySpecNameInput)
    | AddRdbTableAction(addRdbTable: AddRdbTableInput)
    | UpdateTableNameAction(updateTableName: UpdateTableNameInput)
    | DeleteRdbTableAction(deleteRdbTable: DeleteRdbTableInput)
    | AddRdbColumnAction(addRdbColumn: AddRdbColumnInput)
    | UpdateRdbColumnAction(updateRdbColumn: UpdateRdbColumnInput)
    | DeleteRdbColumnAction(deleteRdbColumn: DeleteRdbColumnInput)

  /** The type tag each action carries. */
  function TypeTag(a: Action): string
  {
    match a
    case SetSpecAction(_) => "SET_SPEC"
    case AddQuerySpecificationAction(_) => "ADD_QUERY_SPECIFICATION"
    case UpdateQuerySchemaAction(_) => "UPDATE_QUERY_SCHEMA"
    case UpdateQueryExampleAction(_) => "UPDATE_QUERY_EXAMPLE"
    case DeleteQuerySpecificationAction(_) => "DELETE_QUERY_SPECIFICATION"
    case AddQueryFilterParamAction(_) => "ADD_QUERY_FILTER_PARAM"
    case UpdateFilterParamAction(_) => "UPDATE_FILTER_PARAM"
    case DeleteFilterParamAction(_) => "DELETE_FILTER_PARAM"
    case SetQuerySpecNameAction(_) => "SET_QUERY_SPEC_NAME"
    case AddRdbTableAction(_) => "ADD_RDB_TABLE"
    case UpdateTableNameAction(_) => "UPDATE_TABLE_NAME"
    case DeleteRdbTableAction(_) => "DELETE_RDB_TABLE"
    case AddRdbColumnAction(_) => "ADD_RDB_COLUMN"
    case UpdateRdbColumnAction(_) => "UPDATE_RDB_COLUMN"
    case DeleteRdbColumnAction(_) => "DELETE_RDB_COLUMN"
  }

  /** The fifteen type tags the dispatch switch recognises. */
  const OperationTypes: set<string> := {
    "SET_SPEC", "ADD_QUERY_SPECIFICATION", "UPDATE_QUERY_SCHEMA",
    "UPDATE_QUERY_EXAMPLE", "DELETE_QUERY_SPECIFICATION", "ADD_QUERY_FILTER_PARAM",
    "UPDATE_FILTER_PARAM", "DELETE_FILTER_PARAM", "SET_QUERY_SPEC_NAME",
    "ADD_RDB_TABLE", "UPDATE_TABLE_NAME", "DELETE_RDB_TABLE",
    "ADD_RDB_COLUMN", "UPDATE_RDB_COLUMN", "DELETE_RDB_COLUMN"
  }
}
