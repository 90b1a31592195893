/** The dispatch router of the document: document actions and unknown type
    tags pass through, every recognised tag has its input validated by that
    action's schema and, when it passes, runs exactly one operation on the
    global state in place.
 */
module Reducer {
  import opened Values
  import opened Json
  import opened Types
  import opened Schema
  import opened State
  import opened SpecificationMetadata
  import opened QuerySpecificationOps
  import opened RdbSpecificationOps

  /** An action as it reaches the reducer: a type tag and an unvalidated
      input. */
  datatype RawAction = RawAction(actionType: string, input: Json)

  /** What the reducer does with an action. `Rejected` is the validation
      error the schema throws before any operation runs. */
  datatype Outcome = Passthrough | Rejected | Dispatched(action: Action)

  // ---------------------------------------------------------------------
  // Validation and decoding by type tag

  /** The schema the switch applies to the input of `tag`. Each comparison
      tests the length first, which lets the verifier rule out the other
      tags without comparing characters. */
  predicate InputSchema(tag: string, j: Json)
  {
    if |tag| == 8 && tag == "SET_SPEC" then SetSpecInputSchema(j)
    else if |tag| == 23 && tag == "ADD_QUERY_SPECIFICATION" then AddQuerySpecificationInputSchema(j)
    else if |tag| == 19 && tag == "UPDATE_QUERY_SCHEMA" then UpdateQuerySchemaInputSchema(j)
    else if |tag| == 20 && tag == "UPDATE_QUERY_EXAMPLE" then UpdateQueryExampleInputSchema(j)
    else if |tag| == 26 && tag == "DELETE_QUERY_SPECIFICATION" then DeleteQuerySpecificationInputSchema(j)
    else if |tag| == 22 && tag == "ADD_QUERY_FILTER_PARAM" then AddQueryFilterParamInputSchema(j)
    else if |tag| == 19 && tag == "UPDATE_FILTER_PARAM" then UpdateFilterParamInputSchema(j)
    else if |tag| == 19 && tag == "DELETE_FILTER_PARAM" then DeleteFilterParamInputSchema(j)
    else if |tag| == 19 && tag == "SET_QUERY_SPEC_NAME" then SetQuerySpecNameInputSchema(j)
    else if |tag| == 13 && tag == "ADD_RDB_TABLE" then AddRdbTableInputSchema(j)
    else if |tag| == 17 && tag == "UPDATE_TABLE_NAME" then UpdateTableNameInputSchema(j)
    else if |tag| == 16 && tag == "DELETE_RDB_TABLE" then DeleteRdbTableInputSchema(j)
    else if |tag| == 14 && tag == "ADD_RDB_COLUMN" then AddRdbColumnInputSchema(j)
    else if |tag| == 17 && tag == "UPDATE_RDB_COLUMN" then UpdateRdbColumnInputSchema(j)
    else if |tag| == 17 && tag == "DELETE_RDB_COLUMN" then DeleteRdbColumnInputSchema(j)
    else false
  }

  /** The typed action an accepted input of `tag` stands for. */
  function DecodeAction(tag: string, j: Json): (a: Action)
    requires InputSchema(tag, j)
    ensures TypeTag(a) == tag
  {
    if |tag| == 8 && tag == "SET_SPEC" then SetSpecAction(DecodeSetSpecInput(j))
    else if |tag| == 23 && tag == "ADD_QUERY_SPECIFICATION" then AddQuerySpecificationAction(DecodeAddQuerySpecificationInput(j))
    else if |tag| == 19 && tag == "UPDATE_QUERY_SCHEMA" then UpdateQuerySchemaAction(DecodeUpdateQuerySchemaInput(j))
    else if |tag| == 20 && tag == "UPDATE_QUERY_EXAMPLE" then UpdateQueryExampleAction(DecodeUpdateQueryExampleInput(j))
    else if |tag| == 26 && tag == "DELETE_QUERY_SPECIFICATION" then DeleteQuerySpecificationAction(DecodeDeleteQuerySpecificationInput(j))
    else if |tag| == 22 && tag == "ADD_QUERY_FILTER_PARAM" then AddQueryFilterParamAction(DecodeAddQueryFilterParamInput(j))
    else if |tag| == 19 && tag == "UPDATE_FILTER_PARAM" then UpdateFilterParamAction(DecodeUpdateFilterParamInput(j))
    else if |tag| == 19 && tag == "DELETE_FILTER_PARAM" then DeleteFilterParamAction(DecodeDeleteFilterParamInput(j))
    else if |tag| == 19 && tag == "SET_QUERY_SPEC_NAME" then SetQuerySpecNameAction(DecodeSetQuerySpecNameInput(j))
    else if |tag| == 13 && tag == "ADD_RDB_TABLE" then AddRdbTableAction(DecodeAddRdbTableInput(j))
    else if |tag| == 17 && tag == "UPDATE_TABLE_NAME" then UpdateTableNameAction(DecodeUpdateTableNameInput(j))
    else if |tag| == 16 && tag == "DELETE_RDB_TABLE" then DeleteRdbTableAction(DecodeDeleteRdbTableInput(j))
    else if |tag| == 14 && tag == "ADD_RDB_COLUMN" then AddRdbColumnAction(DecodeAddRdbColumnInput(j))
    else if |tag| == 17 && tag == "UPDATE_RDB_COLUMN" then UpdateRdbColumnAction(DecodeUpdateRdbColumnInput(j))
    else DeleteRdbColumnAction(DecodeDeleteRdbColumnInput(j))
  }

  /** The input of a typed action, written as a value. */
  function EncodeAction(a: Action): Json
  {
    match a
    case SetSpecAction(i) => EncodeSetSpecInput(i)
    case AddQuerySpecificationAction(i) => EncodeAddQuerySpecificationInput(i)
    case UpdateQuerySchemaAction(i) => EncodeUpdateQuerySchemaInput(i)
    case UpdateQueryExampleAction(i) => EncodeUpdateQueryExampleInput(i)
    case DeleteQuerySpecificationAction(i) => EncodeDeleteQuerySpecificationInput(i)
    case AddQueryFilterParamAction(i) => EncodeAddQueryFilterParamInput(i)
    case UpdateFilterParamAction(i) => EncodeUpdateFilterParamInput(i)
    case DeleteFilterParamAction(i) => EncodeDeleteFilterParamInput(i)
    case SetQuerySpecNameAction(i) => EncodeSetQuerySpecNameInput(i)
    case AddRdbTableAction(i) => EncodeAddRdbTableInput(i)
    case UpdateTableNameAction(i) => EncodeUpdateTableNameInput(i)
    case DeleteRdbTableAction(i) => EncodeDeleteRdbTableInput(i)
    case AddRdbColumnAction(i) => EncodeAddRdbColumnInput(i)
    case UpdateRdbColumnAction(i) => EncodeUpdateRdbColumnInput(i)
    case DeleteRdbColumnAction(i) => EncodeDeleteRdbColumnInput(i)
  }

  // ---------------------------------------------------------------------
  // Routing

  /** The decision the reducer takes for `action`. `documentActionTypes`
      stands for the framework's document-action test, which is checked
      first. */
  function Route(documentActionTypes: set<string>, action: RawAction): (o: Outcome)
    ensures action.actionType in documentActionTypes ==> o.Passthrough?
    ensures action.actionType !in OperationTypes ==> o.Passthrough?
    ensures o.Rejected? <==>
      action.actionType !in documentActionTypes && action.actionType in OperationTypes
      && !InputSchema(action.actionType, action.input)
    ensures o.Dispatched? <==>
      action.actionType !in documentActionTypes && action.actionType in OperationTypes
      && InputSchema(action.actionType, action.input)
    ensures o.Dispatched? ==> TypeTag(o.action) == action.actionType
  {
    if action.actionType in documentActionTypes then Passthrough
    else if action.actionType !in OperationTypes then Passthrough
    else if !InputSchema(action.actionType, action.input) then Rejected
    else Dispatched(DecodeAction(action.actionType, action.input))
  }

  predicate IsQuerySpecificationAction(a: Action)
  {
    a.AddQuerySpecificationAction? || a.UpdateQuerySchemaAction? || a.UpdateQueryExampleAction?
    || a.DeleteQuerySpecificationAction? || a.AddQueryFilterParamAction? || a.UpdateFilterParamAction?
    || a.DeleteFilterParamAction? || a.SetQuerySpecNameAction?
  }

  predicate IsRdbSpecificationAction(a: Action)
  {
    a.AddRdbTableAction? || a.UpdateTableNameAction? || a.DeleteRdbTableAction?
    || a.AddRdbColumnAction? || a.UpdateRdbColumnAction? || a.DeleteRdbColumnAction?
  }

  /** The eight operations of the query-specification reducer; each keeps
      the metadata and the tables. */
  function ApplyQuerySpecification(s: GlobalState, a: Action): (r: GlobalState)
    requires IsQuerySpecificationAction(a)
    ensures OnlyQueriesChanged(s, r)
  {
    match a
    case AddQuerySpecificationAction(i) => AddQuerySpecification(s, i)
    case UpdateQuerySchemaAction(i) => UpdateQuerySchema(s, i)
    case UpdateQueryExampleAction(i) => UpdateQueryExample(s, i)
    case DeleteQuerySpecificationAction(i) => DeleteQuerySpecification(s, i)
    case AddQueryFilterParamAction(i) => AddQueryFilterParam(s, i)
    case UpdateFilterParamAction(i) => UpdateFilterParam(s, i)
    case DeleteFilterParamAction(i) => DeleteFilterParam(s, i)
    case SetQuerySpecNameAction(i) => SetQuerySpecName(s, i)
  }

  /** The six operations of the RDB-specification reducer; each keeps the
      metadata and the query specifications. */
  function ApplyRdbSpecification(s: GlobalState, a: Action): (r: GlobalState)
    requires IsRdbSpecificationAction(a)
    ensures OnlyTablesChanged(s, r)
  {
    match a
    case AddRdbTableAction(i) => AddRdbTable(s, i)
    case UpdateTableNameAction(i) => UpdateTableName(s, i)
    case DeleteRdbTableAction(i) => DeleteRdbTable(s, i)
    case AddRdbColumnAction(i) => AddRdbColumn(s, i)
    case UpdateRdbColumnAction(i) => UpdateRdbColumn(s, i)
    case DeleteRdbColumnAction(i) => DeleteRdbColumn(s, i)
  }

  /** The global state once the reducer has handled `action`: the
      operation of the decoded action when it is dispatched, the state as
      it was otherwise. */
  function Reduce(s: GlobalState, documentActionTypes: set<string>, action: RawAction): GlobalState
  {
    match Route(documentActionTypes, action)
    case Dispatched(a) => Apply(s, a)
    case _ => s
  }

  /** The one operation an action runs, in the reducer module that owns it.
      Each module's operations touch only their own part of the state
      tree. */
  function Apply(s: GlobalState, a: Action): (r: GlobalState)
    ensures a.SetSpecAction? ==>
      r.querySpecifications == s.querySpecifications && r.rdbSpecification == s.rdbSpecification
    ensures IsQuerySpecificationAction(a) ==> OnlyQueriesChanged(s, r)
    ensures IsRdbSpecificationAction(a) ==> OnlyTablesChanged(s, r)
  {
    if a.SetSpecAction? then SetSpec(s, a.setSpec)
    else if IsQuerySpecificationAction(a) then ApplyQuerySpecification(s, a)
    else ApplyRdbSpecification(s, a)
  }

  method ApplyQuerySpecificationOperation(state: GlobalStateObject, a: Action)
    requires IsQuerySpecificationAction(a)
    modifies state
    ensures state.Value() == ApplyQuerySpecification(old(state.Value()), a)
  {
    match a
    case AddQuerySpecificationAction(i) => AddQuerySpecificationOperation(state, i);
    case UpdateQuerySchemaAction(i) => UpdateQuerySchemaOperation(state, i);
    case UpdateQueryExampleAction(i) => UpdateQueryExampleOperation(state, i);
    case DeleteQuerySpecificationAction(i) => DeleteQuerySpecificationOperation(state, i);
    case AddQueryFilterParamAction(i) => AddQueryFilterParamOperation(state, i);
    case UpdateFilterParamAction(i) => UpdateFilterParamOperation(state, i);
    case DeleteFilterParamAction(i) => DeleteFilterParamOperation(state, i);
    case SetQuerySpecNameAction(i) => SetQuerySpecNameOperation(state, i);
  }

  method ApplyRdbSpecificationOperation(state: GlobalStateObject, a: Action)
    requires IsRdbSpecificationAction(a)
    modifies state
    ensures state.Value() == ApplyRdbSpecification(old(state.Value()), a)
  {
    match a
    case AddRdbTableAction(i) => AddRdbTableOperation(state, i);
    case UpdateTableNameAction(i) => UpdateTableNameOperation(state, i);
    case DeleteRdbTableAction(i) => DeleteRdbTableOperation(state, i);
    case AddRdbColumnAction(i) => AddRdbColumnOperation(state, i);
    case UpdateRdbColumnAction(i) => UpdateRdbColumnOperation(state, i);
    case DeleteRdbColumnAction(i) => DeleteRdbColumnOperation(state, i);
  }

  /** Runs the operation method of `a` on the state object. */
  method ApplyOperation(state: GlobalStateObject, a: Action)
    modifies state
    ensures state.Value() == Apply(old(state.Value()), a)
  {
    if a.SetSpecAction? {
      SetSpecOperation(state, a.setSpec);
    } else if IsQuerySpecificationAction(a) {
      ApplyQuerySpecificationOperation(state, a);
    } else {
      ApplyRdbSpecificationOperation(state, a);
    }
  }

  /** `stateReducer`: a document action or an unknown tag passes through;
      otherwise the input is validated by the schema of its tag, which
      rejects it before any change, or the operation of that tag runs on the
      global state in place. The operation is given the original input. */
  method StateReducer(state: GlobalStateObject, action: RawAction, documentActionTypes: set<string>)
    returns (outcome: Outcome)
    modifies state
    ensures outcome == Route(documentActionTypes, action)
    ensures outcome.Dispatched? ==> state.Value() == Apply(old(state.Value()), outcome.action)
    ensures !outcome.Dispatched? ==> state.Value() == old(state.Value())
    ensures state.Value() == Reduce(old(state.Value()), documentActionTypes, action)
  {
    if action.actionType in documentActionTypes {
      return Passthrough;
    }
    if action.actionType !in OperationTypes {
      return Passthrough;
    }
    if !InputSchema(action.actionType, action.input) {
      return Rejected;
    }
    var a := DecodeAction(action.actionType, action.input);
    ApplyOperation(state, a);
    outcome := Dispatched(a);
  }
}
