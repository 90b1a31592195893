/** Properties of the dispatch router: every typed action reaches exactly its
    own operation, the tags are one-to-one, validating a stripped copy of the
    input would decide the same, and two end-to-end runs from the default
    state.
 */
module ReducerProperties {
  import opened Values
  import opened Lists
  import opened Json
  import opened Types
  import opened Schema
  import opened SchemaProperties
  import opened Factories
  import opened QuerySpecificationOps
  import opened RdbSpecificationOps
  import opened Reducer

  // ---------------------------------------------------------------------
  // Tags

  /** `a` and `b` are actions of the same operation. */
  predicate SameOperation(a: Action, b: Action)
  {
    && a.SetSpecAction? == b.SetSpecAction?
    && a.AddQuerySpecificationAction? == b.AddQuerySpecificationAction?
    && a.UpdateQuerySchemaAction? == b.UpdateQuerySchemaAction?
    && a.UpdateQueryExampleAction? == b.UpdateQueryExampleAction?
    && a.DeleteQuerySpecificationAction? == b.DeleteQuerySpecificationAction?
    && a.AddQueryFilterParamAction? == b.AddQueryFilterParamAction?
    && a.UpdateFilterParamAction? == b.UpdateFilterParamAction?
    && a.DeleteFilterParamAction? == b.DeleteFilterParamAction?
    && a.SetQuerySpecNameAction? == b.SetQuerySpecNameAction?
    && a.AddRdbTableAction? == b.AddRdbTableAction?
    && a.UpdateTableNameAction? == b.UpdateTableNameAction?
    && a.DeleteRdbTableAction? == b.DeleteRdbTableAction?
    && a.AddRdbColumnAction? == b.AddRdbColumnAction?
    && a.UpdateRdbColumnAction? == b.UpdateRdbColumnAction?
    && a.DeleteRdbColumnAction? == b.DeleteRdbColumnAction?
  }

  /** Every action's tag is one the switch recognises, and two actions share
      a tag exactly when they are actions of the same operation. */
  lemma TypeTagOneToOne(a: Action, b: Action)
    ensures TypeTag(a) in OperationTypes
    ensures TypeTag(a) == TypeTag(b) <==> SameOperation(a, b)
  {
  }

  /** Every recognised tag is the tag of some action. */
  lemma EveryTagHasAnOperation(tag: string)
    requires tag in OperationTypes
    ensures exists a: Action :: TypeTag(a) == tag
  {
    if |tag| == 8 && tag == "SET_SPEC" {
      assert TypeTag(SetSpecAction(SetSpecInput(Absent, Absent))) == tag;
    }     else if |tag| == 23 && tag == "ADD_QUERY_SPECIFICATION" {
      assert TypeTag(AddQuerySpecificationAction(AddQuerySpecificationInput("", Absent, Absent))) == tag;
    }     else if |tag| == 19 && tag == "UPDATE_QUERY_SCHEMA" {
      assert TypeTag(UpdateQuerySchemaAction(UpdateQuerySchemaInput("", Absent))) == tag;
    }     else if |tag| == 20 && tag == "UPDATE_QUERY_EXAMPLE" {
      assert TypeTag(UpdateQueryExampleAction(UpdateQueryExampleInput("", Absent))) == tag;
    }     else if |tag| == 26 && tag == "DELETE_QUERY_SPECIFICATION" {
      assert TypeTag(DeleteQuerySpecificationAction(DeleteQuerySpecificationInput(""))) == tag;
    }     else if |tag| == 22 && tag == "ADD_QUERY_FILTER_PARAM" {
      assert TypeTag(AddQueryFilterParamAction(AddQueryFilterParamInput("", "", Absent, Absent, false))) == tag;
    }     else if |tag| == 19 && tag == "UPDATE_FILTER_PARAM" {
      assert TypeTag(UpdateFilterParamAction(UpdateFilterParamInput("", "", Absent, Absent, Absent))) == tag;
    }     else if |tag| == 19 && tag == "DELETE_FILTER_PARAM" {
      assert TypeTag(DeleteFilterParamAction(DeleteFilterParamInput("", ""))) == tag;
    }     else if |tag| == 19 && tag == "SET_QUERY_SPEC_NAME" {
      assert TypeTag(SetQuerySpecNameAction(SetQuerySpecNameInput("", Absent))) == tag;
    }     else if |tag| == 13 && tag == "ADD_RDB_TABLE" {
      assert TypeTag(AddRdbTableAction(AddRdbTableInput("", Absent))) == tag;
    }     else if |tag| == 17 && tag == "UPDATE_TABLE_NAME" {
      assert TypeTag(UpdateTableNameAction(UpdateTableNameInput("", Absent))) == tag;
    }     else if |tag| == 16 && tag == "DELETE_RDB_TABLE" {
      assert TypeTag(DeleteRdbTableAction(DeleteRdbTableInput(""))) == tag;
    }     else if |tag| == 14 && tag == "ADD_RDB_COLUMN" {
      assert TypeTag(AddRdbColumnAction(AddRdbColumnInput("", "", Absent, String, Absent, Absent, Absent, false))) == tag;
    }     else if |tag| == 17 && tag == "UPDATE_RDB_COLUMN" {
      assert TypeTag(UpdateRdbColumnAction(UpdateRdbColumnInput("", "", Absent, Absent, Absent, Absent, Absent, Absent))) == tag;
    } else {
      assert TypeTag(DeleteRdbColumnAction(DeleteRdbColumnInput("", ""))) == tag;
    }
  }

  // ---------------------------------------------------------------------
  // Routing

  /** The encoded input of an action passes the schema of its tag and
      decodes back to the action. */
  predicate DecodesToItself(a: Action)
  {
    InputSchema(TypeTag(a), EncodeAction(a)) && DecodeAction(TypeTag(a), EncodeAction(a)) == a
  }

  // One lemma per action, from the round trip of its input schema.

  lemma SetSpecActionDecodesToItself(i: SetSpecInput)
    ensures DecodesToItself(SetSpecAction(i))
  {
    var j := EncodeSetSpecInput(i);
    SetSpecInputRoundTrip(i);
    assert InputSchema("SET_SPEC", j);
    assert DecodeAction("SET_SPEC", j) == SetSpecAction(i);
  }

  lemma AddQuerySpecificationActionDecodesToItself(i: AddQuerySpecificationInput)
    ensures DecodesToItself(AddQuerySpecificationAction(i))
  {
    var j := EncodeAddQuerySpecificationInput(i);
    AddQuerySpecificationInputRoundTrip(i);
    assert InputSchema("ADD_QUERY_SPECIFICATION", j);
    assert DecodeAction("ADD_QUERY_SPECIFICATION", j) == AddQuerySpecificationAction(i);
  }

  lemma UpdateQuerySchemaActionDecodesToItself(i: UpdateQuerySchemaInput)
    ensures DecodesToItself(UpdateQuerySchemaAction(i))
  {
    var j := EncodeUpdateQuerySchemaInput(i);
    UpdateQuerySchemaInputRoundTrip(i);
    assert InputSchema("UPDATE_QUERY_SCHEMA", j);
    assert DecodeAction("UPDATE_QUERY_SCHEMA", j) == UpdateQuerySchemaAction(i);
  }

  lemma UpdateQueryExampleActionDecodesToItself(i: UpdateQueryExampleInput)
    ensures DecodesToItself(UpdateQueryExampleAction(i))
  {
    var j := EncodeUpdateQueryExampleInput(i);
    UpdateQueryExampleInputRoundTrip(i);
    assert InputSchema("UPDATE_QUERY_EXAMPLE", j);
    assert DecodeAction("UPDATE_QUERY_EXAMPLE", j) == UpdateQueryExampleAction(i);
  }

  lemma DeleteQuerySpecificationActionDecodesToItself(i: DeleteQuerySpecificationInput)
    ensures DecodesToItself(DeleteQuerySpecificationAction(i))
  {
    var j := EncodeDeleteQuerySpecificationInput(i);
    DeleteQuerySpecificationInputRoundTrip(i);
    assert InputSchema("DELETE_QUERY_SPECIFICATION", j);
    assert DecodeAction("DELETE_QUERY_SPECIFICATION", j) == DeleteQuerySpecificationAction(i);
  }

  lemma AddQueryFilterParamActionDecodesToItself(i: AddQueryFilterParamInput)
    ensures DecodesToItself(AddQueryFilterParamAction(i))
  {
    var j := EncodeAddQueryFilterParamInput(i);
    AddQueryFilterParamInputRoundTrip(i);
    assert InputSchema("ADD_QUERY_FILTER_PARAM", j);
    assert DecodeAction("ADD_QUERY_FILTER_PARAM", j) == AddQueryFilterParamAction(i);
  }

  lemma UpdateFilterParamActionDecodesToItself(i: UpdateFilterParamInput)
    ensures DecodesToItself(UpdateFilterParamAction(i))
  {
    var j := EncodeUpdateFilterParamInput(i);
    UpdateFilterParamInputRoundTrip(i);
    assert InputSchema("UPDATE_FILTER_PARAM", j);
    assert DecodeAction("UPDATE_FILTER_PARAM", j) == UpdateFilterParamAction(i);
  }

  lemma DeleteFilterParamActionDecodesToItself(i: DeleteFilterParamInput)
    ensures DecodesToItself(DeleteFilterParamAction(i))
  {
    var j := EncodeDeleteFilterParamInput(i);
    DeleteFilterParamInputRoundTrip(i);
    assert InputSchema("DELETE_FILTER_PARAM", j);
    assert DecodeAction("DELETE_FILTER_PARAM", j) == DeleteFilterParamAction(i);
  }

  lemma SetQuerySpecNameActionDecodesToItself(i: SetQuerySpecNameInput)
    ensures DecodesToItself(SetQuerySpecNameAction(i))
  {
    var j := EncodeSetQuerySpecNameInput(i);
    SetQuerySpecNameInputRoundTrip(i);
    assert InputSchema("SET_QUERY_SPEC_NAME", j);
    assert DecodeAction("SET_QUERY_SPEC_NAME", j) == SetQuerySpecNameAction(i);
  }

  lemma AddRdbTableActionDecodesToItself(i: AddRdbTableInput)
    ensures DecodesToItself(AddRdbTableAction(i))
  {
    var j := EncodeAddRdbTableInput(i);
    AddRdbTableInputRoundTrip(i);
    assert InputSchema("ADD_RDB_TABLE", j);
    assert DecodeAction("ADD_RDB_TABLE", j) == AddRdbTableAction(i);
  }

  lemma UpdateTableNameActionDecodesToItself(i: UpdateTableNameInput)
    ensures DecodesToItself(UpdateTableNameAction(i))
  {
    var j := EncodeUpdateTableNameInput(i);
    UpdateTableNameInputRoundTrip(i);
    assert InputSchema("UPDATE_TABLE_NAME", j);
    assert DecodeAction("UPDATE_TABLE_NAME", j) == UpdateTableNameAction(i);
  }

  lemma DeleteRdbTableActionDecodesToItself(i: DeleteRdbTableInput)
    ensures DecodesToItself(DeleteRdbTableAction(i))
  {
    var j := EncodeDeleteRdbTableInput(i);
    DeleteRdbTableInputRoundTrip(i);
    assert InputSchema("DELETE_RDB_TABLE", j);
    assert DecodeAction("DELETE_RDB_TABLE", j) == DeleteRdbTableAction(i);
  }

  lemma AddRdbColumnActionDecodesToItself(i: AddRdbColumnInput)
    ensures DecodesToItself(AddRdbColumnAction(i))
  {
    var j := EncodeAddRdbColumnInput(i);
    AddRdbColumnInputRoundTrip(i);
    assert InputSchema("ADD_RDB_COLUMN", j);
    assert DecodeAction("ADD_RDB_COLUMN", j) == AddRdbColumnAction(i);
  }

  lemma UpdateRdbColumnActionDecodesToItself(i: UpdateRdbColumnInput)
    ensures DecodesToItself(UpdateRdbColumnAction(i))
  {
    var j := EncodeUpdateRdbColumnInput(i);
    UpdateRdbColumnInputRoundTrip(i);
    assert InputSchema("UPDATE_RDB_COLUMN", j);
    assert DecodeAction("UPDATE_RDB_COLUMN", j) == UpdateRdbColumnAction(i);
  }

  lemma DeleteRdbColumnActionDecodesToItself(i: DeleteRdbColumnInput)
    ensures DecodesToItself(DeleteRdbColumnAction(i))
  {
    var j := EncodeDeleteRdbColumnInput(i);
    DeleteRdbColumnInputRoundTrip(i);
    assert InputSchema("DELETE_RDB_COLUMN", j);
    assert DecodeAction("DELETE_RDB_COLUMN", j) == DeleteRdbColumnAction(i);
  }

  lemma ActionDecodesToItself(a: Action)
    ensures DecodesToItself(a)
  {
    match a
    case SetSpecAction(i) => SetSpecActionDecodesToItself(i);
    case AddQuerySpecificationAction(i) => AddQuerySpecificationActionDecodesToItself(i);
    case UpdateQuerySchemaAction(i) => UpdateQuerySchemaActionDecodesToItself(i);
    case UpdateQueryExampleAction(i) => UpdateQueryExampleActionDecodesToItself(i);
    case DeleteQuerySpecificationAction(i) => DeleteQuerySpecificationActionDecodesToItself(i);
    case AddQueryFilterParamAction(i) => AddQueryFilterParamActionDecodesToItself(i);
    case UpdateFilterParamAction(i) => UpdateFilterParamActionDecodesToItself(i);
    case DeleteFilterParamAction(i) => DeleteFilterParamActionDecodesToItself(i);
    case SetQuerySpecNameAction(i) => SetQuerySpecNameActionDecodesToItself(i);
    case AddRdbTableAction(i) => AddRdbTableActionDecodesToItself(i);
    case UpdateTableNameAction(i) => UpdateTableNameActionDecodesToItself(i);
    case DeleteRdbTableAction(i) => DeleteRdbTableActionDecodesToItself(i);
    case AddRdbColumnAction(i) => AddRdbColumnActionDecodesToItself(i);
    case UpdateRdbColumnAction(i) => UpdateRdbColumnActionDecodesToItself(i);
    case DeleteRdbColumnAction(i) => DeleteRdbColumnActionDecodesToItself(i);
  }

  /** An action written out with its own tag and encoded input is accepted
      and dispatched to that very action. */
  lemma EncodedActionRoutesToItself(documentActionTypes: set<string>, a: Action)
    requires TypeTag(a) !in documentActionTypes
    ensures Route(documentActionTypes, RawAction(TypeTag(a), EncodeAction(a))) == Dispatched(a)
  {
    TypeTagOneToOne(a, a);
    ActionDecodesToItself(a);
  }

  /** The keys the object schema of `tag` declares. */
  function DeclaredKeys(tag: string): set<string>
  {
    if |tag| == 8 && tag == "SET_SPEC" then SetSpecInputKeys
    else if |tag| == 23 && tag == "ADD_QUERY_SPECIFICATION" then AddQuerySpecificationInputKeys
    else if |tag| == 19 && tag == "UPDATE_QUERY_SCHEMA" then UpdateQuerySchemaInputKeys
    else if |tag| == 20 && tag == "UPDATE_QUERY_EXAMPLE" then UpdateQueryExampleInputKeys
    else if |tag| == 26 && tag == "DELETE_QUERY_SPECIFICATION" then DeleteQuerySpecificationInputKeys
    else if |tag| == 22 && tag == "ADD_QUERY_FILTER_PARAM" then AddQueryFilterParamInputKeys
    else if |tag| == 19 && tag == "UPDATE_FILTER_PARAM" then UpdateFilterParamInputKeys
    else if |tag| == 19 && tag == "DELETE_FILTER_PARAM" then DeleteFilterParamInputKeys
    else if |tag| == 19 && tag == "SET_QUERY_SPEC_NAME" then SetQuerySpecNameInputKeys
    else if |tag| == 13 && tag == "ADD_RDB_TABLE" then AddRdbTableInputKeys
    else if |tag| == 17 && tag == "UPDATE_TABLE_NAME" then UpdateTableNameInputKeys
    else if |tag| == 16 && tag == "DELETE_RDB_TABLE" then DeleteRdbTableInputKeys
    else if |tag| == 14 && tag == "ADD_RDB_COLUMN" then AddRdbColumnInputKeys
    else if |tag| == 17 && tag == "UPDATE_RDB_COLUMN" then UpdateRdbColumnInputKeys
    else if |tag| == 17 && tag == "DELETE_RDB_COLUMN" then DeleteRdbColumnInputKeys
    else {}
  }

  /** The copy `parse` returns: an object keeps only its declared keys. */
  function Parsed(tag: string, j: Json): (r: Json)
    ensures j.JObject? <==> r.JObject?
    ensures r.JObject? ==> forall k :: k in r.fields ==> k in DeclaredKeys(tag)
  {
    if j.JObject? then Restrict(j, DeclaredKeys(tag)) else j
  }

  /** Two objects agree on key `k`: both lack it, or both hold the same
      value there. */
  predicate Agree(o1: map<string, Json>, o2: map<string, Json>, k: string)
  {
    (k in o1 <==> k in o2) && (k in o1 ==> o1[k] == o2[k])
  }

  /** Deciding on `p` instead of `j` accepts the same inputs and yields
      the same action. */
  predicate SameDecision(t: string, j: Json, p: Json)
  {
    && InputSchema(t, p) == InputSchema(t, j)
    && (InputSchema(t, j) ==> DecodeAction(t, p) == DecodeAction(t, j))
  }

  // One lemma per tag: the schema of the tag reads only the keys it
  // declares, on which the parsed copy agrees with the original.

  lemma ParsedSetSpecDecidesTheSame(j: Json)
    requires j.JObject?
    ensures SameDecision("SET_SPEC", j, Parsed("SET_SPEC", j))
  {
    var p := Parsed("SET_SPEC", j);
    assert Agree(p.fields, j.fields, "description");
    assert Agree(p.fields, j.fields, "name");
  }

  lemma ParsedAddQuerySpecificationDecidesTheSame(j: Json)
    requires j.JObject?
    ensures SameDecision("ADD_QUERY_SPECIFICATION", j, Parsed("ADD_QUERY_SPECIFICATION", j))
  {
    var p := Parsed("ADD_QUERY_SPECIFICATION", j);
    assert Agree(p.fields, j.fields, "id");
    assert Agree(p.fields, j.fields, "queryExample");
    assert Agree(p.fields, j.fields, "querySchema");
  }

  lemma ParsedUpdateQuerySchemaDecidesTheSame(j: Json)
    requires j.JObject?
    ensures SameDecision("UPDATE_QUERY_SCHEMA", j, Parsed("UPDATE_QUERY_SCHEMA", j))
  {
    var p := Parsed("UPDATE_QUERY_SCHEMA", j);
    assert Agree(p.fields, j.fields, "id");
    assert Agree(p.fields, j.fields, "querySchema");
  }

  lemma ParsedUpdateQueryExampleDecidesTheSame(j: Json)
    requires j.JObject?
    ensures SameDecision("UPDATE_QUERY_EXAMPLE", j, Parsed("UPDATE_QUERY_EXAMPLE", j))
  {
    var p := Parsed("UPDATE_QUERY_EXAMPLE", j);
    assert Agree(p.fields, j.fields, "id");
    assert Agree(p.fields, j.fields, "queryExample");
  }

  lemma ParsedDeleteQuerySpecificationDecidesTheSame(j: Json)
    requires j.JObject?
    ensures SameDecision("DELETE_QUERY_SPECIFICATION", j, Parsed("DELETE_QUERY_SPECIFICATION", j))
  {
    var p := Parsed("DELETE_QUERY_SPECIFICATION", j);
    assert Agree(p.fields, j.fields, "id");
  }

  lemma ParsedAddQueryFilterParamDecidesTheSame(j: Json)
    requires j.JObject?
    ensures SameDecision("ADD_QUERY_FILTER_PARAM", j, Parsed("ADD_QUERY_FILTER_PARAM", j))
  {
    var p := Parsed("ADD_QUERY_FILTER_PARAM", j);
    assert Agree(p.fields, j.fields, "id");
    assert Agree(p.fields, j.fields, "name");
    assert Agree(p.fields, j.fields, "optional");
    assert Agree(p.fields, j.fields, "querySpecId");
    assert Agree(p.fields, j.fields, "type");
  }

  lemma ParsedUpdateFilterParamDecidesTheSame(j: Json)
    requires j.JObject?
    ensures SameDecision("UPDATE_FILTER_PARAM", j, Parsed("UPDATE_FILTER_PARAM", j))
  {
    var p := Parsed("UPDATE_FILTER_PARAM", j);
    assert Agree(p.fields, j.fields, "id");
    assert Agree(p.fields, j.fields, "name");
    assert Agree(p.fields, j.fields, "optional");
    assert Agree(p.fields, j.fields, "querySpecId");
    assert Agree(p.fields, j.fields, "type");
  }

  lemma ParsedDeleteFilterParamDecidesTheSame(j: Json)
    requires j.JObject?
    ensures SameDecision("DELETE_FILTER_PARAM", j, Parsed("DELETE_FILTER_PARAM", j))
  {
    var p := Parsed("DELETE_FILTER_PARAM", j);
    assert Agree(p.fields, j.fields, "id");
    assert Agree(p.fields, j.fields, "querySpecId");
  }

  lemma ParsedSetQuerySpecNameDecidesTheSame(j: Json)
    requires j.JObject?
    ensures SameDecision("SET_QUERY_SPEC_NAME", j, Parsed("SET_QUERY_SPEC_NAME", j))
  {
    var p := Parsed("SET_QUERY_SPEC_NAME", j);
    assert Agree(p.fields, j.fields, "name");
    assert Agree(p.fields, j.fields, "querySpecId");
  }

  lemma ParsedAddRdbTableDecidesTheSame(j: Json)
    requires j.JObject?
    ensures SameDecision("ADD_RDB_TABLE", j, Parsed("ADD_RDB_TABLE", j))
  {
    var p := Parsed("ADD_RDB_TABLE", j);
    assert Agree(p.fields, j.fields, "id");
    assert Agree(p.fields, j.fields, "name");
  }

  lemma ParsedUpdateTableNameDecidesTheSame(j: Json)
    requires j.JObject?
    ensures SameDecision("UPDATE_TABLE_NAME", j, Parsed("UPDATE_TABLE_NAME", j))
  {
    var p := Parsed("UPDATE_TABLE_NAME", j);
    assert Agree(p.fields, j.fields, "id");
    assert Agree(p.fields, j.fields, "name");
  }

  lemma ParsedDeleteRdbTableDecidesTheSame(j: Json)
    requires j.JObject?
    ensures SameDecision("DELETE_RDB_TABLE", j, Parsed("DELETE_RDB_TABLE", j))
  {
    var p := Parsed("DELETE_RDB_TABLE", j);
    assert Agree(p.fields, j.fields, "id");
  }

  lemma ParsedAddRdbColumnDecidesTheSame(j: Json)
    requires j.JObject?
    ensures SameDecision("ADD_RDB_COLUMN", j, Parsed("ADD_RDB_COLUMN", j))
  {
    var p := Parsed("ADD_RDB_COLUMN", j);
    assert Agree(p.fields, j.fields, "description");
    assert Agree(p.fields, j.fields, "id");
    assert Agree(p.fields, j.fields, "name");
    assert Agree(p.fields, j.fields, "primaryKey");
    assert Agree(p.fields, j.fields, "sourceDocModel");
    assert Agree(p.fields, j.fields, "sourceProperty");
    assert Agree(p.fields, j.fields, "tableId");
    assert Agree(p.fields, j.fields, "type");
  }

  /** The column-update schema is the costliest to decide; its locality is
      proved on its own. */
  lemma UpdateRdbColumnInputLocal(j: Json, p: Json)
    requires j.JObject? && p.JObject?
    requires Agree(p.fields, j.fields, "description") && Agree(p.fields, j.fields, "id")
          && Agree(p.fields, j.fields, "name") && Agree(p.fields, j.fields, "primaryKey")
          && Agree(p.fields, j.fields, "sourceDocModel") && Agree(p.fields, j.fields, "sourceProperty")
          && Agree(p.fields, j.fields, "tableId") && Agree(p.fields, j.fields, "type")
    ensures UpdateRdbColumnInputSchema(p) == UpdateRdbColumnInputSchema(j)
    ensures UpdateRdbColumnInputSchema(j) ==> DecodeUpdateRdbColumnInput(p) == DecodeUpdateRdbColumnInput(j)
  {
  }

  lemma ParsedUpdateRdbColumnDecidesTheSame(j: Json)
    requires j.JObject?
    ensures SameDecision("UPDATE_RDB_COLUMN", j, Parsed("UPDATE_RDB_COLUMN", j))
  {
    var p := Parsed("UPDATE_RDB_COLUMN", j);
    assert Agree(p.fields, j.fields, "description");
    assert Agree(p.fields, j.fields, "id");
    assert Agree(p.fields, j.fields, "name");
    assert Agree(p.fields, j.fields, "primaryKey");
    assert Agree(p.fields, j.fields, "sourceDocModel");
    assert Agree(p.fields, j.fields, "sourceProperty");
    assert Agree(p.fields, j.fields, "tableId");
    assert Agree(p.fields, j.fields, "type");
    UpdateRdbColumnInputLocal(j, p);
  }

  lemma ParsedDeleteRdbColumnDecidesTheSame(j: Json)
    requires j.JObject?
    ensures SameDecision("DELETE_RDB_COLUMN", j, Parsed("DELETE_RDB_COLUMN", j))
  {
    var p := Parsed("DELETE_RDB_COLUMN", j);
    assert Agree(p.fields, j.fields, "id");
    assert Agree(p.fields, j.fields, "tableId");
  }

  /** The reducer hands the operation the original input and discards the
      parsed copy; deciding on the parsed copy would make no difference. */
  lemma ParsedCopyRoutesTheSame(documentActionTypes: set<string>, action: RawAction)
    ensures Route(documentActionTypes, action.(input := Parsed(action.actionType, action.input)))
         == Route(documentActionTypes, action)
  {
    var t, j := action.actionType, action.input;
    if j.JObject? {
      if t == "SET_SPEC" {
        ParsedSetSpecDecidesTheSame(j);
      } else if t == "ADD_QUERY_SPECIFICATION" {
        ParsedAddQuerySpecificationDecidesTheSame(j);
      } else if t == "UPDATE_QUERY_SCHEMA" {
        ParsedUpdateQuerySchemaDecidesTheSame(j);
      } else if t == "UPDATE_QUERY_EXAMPLE" {
        ParsedUpdateQueryExampleDecidesTheSame(j);
      } else if t == "DELETE_QUERY_SPECIFICATION" {
        ParsedDeleteQuerySpecificationDecidesTheSame(j);
      } else if t == "ADD_QUERY_FILTER_PARAM" {
        ParsedAddQueryFilterParamDecidesTheSame(j);
      } else if t == "UPDATE_FILTER_PARAM" {
        ParsedUpdateFilterParamDecidesTheSame(j);
      } else if t == "DELETE_FILTER_PARAM" {
        ParsedDeleteFilterParamDecidesTheSame(j);
      } else if t == "SET_QUERY_SPEC_NAME" {
        ParsedSetQuerySpecNameDecidesTheSame(j);
      } else if t == "ADD_RDB_TABLE" {
        ParsedAddRdbTableDecidesTheSame(j);
      } else if t == "UPDATE_TABLE_NAME" {
        ParsedUpdateTableNameDecidesTheSame(j);
      } else if t == "DELETE_RDB_TABLE" {
        ParsedDeleteRdbTableDecidesTheSame(j);
      } else if t == "ADD_RDB_COLUMN" {
        ParsedAddRdbColumnDecidesTheSame(j);
      } else if t == "UPDATE_RDB_COLUMN" {
        ParsedUpdateRdbColumnDecidesTheSame(j);
      } else if t == "DELETE_RDB_COLUMN" {
        ParsedDeleteRdbColumnDecidesTheSame(j);
      }
    }
  }

  /** An add-column input without its primary-key flag is rejected, so the
      table list is left as it was. */
  lemma AddRdbColumnWithoutPrimaryKeyRejected(documentActionTypes: set<string>)
    requires "ADD_RDB_COLUMN" !in documentActionTypes
    ensures Route(documentActionTypes, RawAction("ADD_RDB_COLUMN",
              JObject(map["tableId" := JString("t1"), "id" := JString("c1"), "type" := JString("String")])))
         == Rejected
  {
    var j := JObject(map["tableId" := JString("t1"), "id" := JString("c1"), "type" := JString("String")]);
    assert !AddRdbColumnInputSchema(j);
  }

  // ---------------------------------------------------------------------
  // End-to-end runs from the default state

  /** Three actions, each written out with its own tag and encoded input
      and sent to the reducer in turn, run their three operations in that
      order. */
  lemma EncodedActionsReduce(s: GlobalState, documentActionTypes: set<string>, a1: Action, a2: Action, a3: Action)
    requires OperationTypes !! documentActionTypes
    ensures
      var s1 := Reduce(s, documentActionTypes, RawAction(TypeTag(a1), EncodeAction(a1)));
      var s2 := Reduce(s1, documentActionTypes, RawAction(TypeTag(a2), EncodeAction(a2)));
      Reduce(s2, documentActionTypes, RawAction(TypeTag(a3), EncodeAction(a3))) == Apply(Apply(Apply(s, a1), a2), a3)
  {
    TypeTagOneToOne(a1, a1);
    TypeTagOneToOne(a2, a2);
    TypeTagOneToOne(a3, a3);
    EncodedActionRoutesToItself(documentActionTypes, a1);
    EncodedActionRoutesToItself(documentActionTypes, a2);
    EncodedActionRoutesToItself(documentActionTypes, a3);
  }

  /** A table, a column added to it, and the column renamed. */
  lemma TableColumnRun()
    ensures
      var s1 := AddRdbTable(DefaultGlobalState(), AddRdbTableInput("t1", Given("users")));
      var s2 := AddRdbColumn(s1, AddRdbColumnInput("t1", "c1", Given("id"), String, Absent, Absent, Absent, true));
      var s3 := UpdateRdbColumn(s2, UpdateRdbColumnInput("t1", "c1", Given("user_id"), Absent, Absent, Absent, Absent, Absent));
      s3 == GlobalState(Null, Null, [],
                        [RdbTable("t1", NonNull("users"),
                                  [RdbColumn("c1", NonNull("user_id"), String, Null, Null, Null, true)])])
  {
    var s1 := AddRdbTable(DefaultGlobalState(), AddRdbTableInput("t1", Given("users")));
    assert s1.rdbSpecification == [RdbTable("t1", NonNull("users"), [])];
    FirstIndexUnique(s1.rdbSpecification, TableId, "t1", 0);
    var column := RdbColumn("c1", NonNull("id"), String, Null, Null, Null, true);
    var s2 := AddRdbColumn(s1, AddRdbColumnInput("t1", "c1", Given("id"), String, Absent, Absent, Absent, true));
    assert s2.rdbSpecification[0].columns == [column];
    assert s2.rdbSpecification == [RdbTable("t1", NonNull("users"), [column])];
    FirstIndexUnique(s2.rdbSpecification, TableId, "t1", 0);
    FirstIndexUnique(s2.rdbSpecification[0].columns, ColumnId, "c1", 0);
    var update := UpdateRdbColumnInput("t1", "c1", Given("user_id"), Absent, Absent, Absent, Absent, Absent);
    var renamed := column.(name := NonNull("user_id"));
    assert PatchColumn(column, update) == renamed;
    var s3 := UpdateRdbColumn(s2, update);
    assert |s3.rdbSpecification| == 1 && s3.rdbSpecification[0].columns == [renamed];
    assert s3.rdbSpecification == [RdbTable("t1", NonNull("users"), [renamed])];
  }

  /** The same run, each step sent to the reducer as an action with its
      own tag and encoded input. */
  lemma TableColumnScenario(documentActionTypes: set<string>, a1: Action, a2: Action, a3: Action)
    requires OperationTypes !! documentActionTypes
    requires a1 == AddRdbTableAction(AddRdbTableInput("t1", Given("users")))
    requires a2 == AddRdbColumnAction(AddRdbColumnInput("t1", "c1", Given("id"), String, Absent, Absent, Absent, true))
    requires a3 == UpdateRdbColumnAction(
                     UpdateRdbColumnInput("t1", "c1", Given("user_id"), Absent, Absent, Absent, Absent, Absent))
    ensures
      var s1 := Reduce(DefaultGlobalState(), documentActionTypes, RawAction(TypeTag(a1), EncodeAction(a1)));
      var s2 := Reduce(s1, documentActionTypes, RawAction(TypeTag(a2), EncodeAction(a2)));
      Reduce(s2, documentActionTypes, RawAction(TypeTag(a3), EncodeAction(a3)))
        == GlobalState(Null, Null, [],
                       [RdbTable("t1", NonNull("users"),
                                 [RdbColumn("c1", NonNull("user_id"), String, Null, Null, Null, true)])])
  {
    var s0 := DefaultGlobalState();
    EncodedActionsReduce(s0, documentActionTypes, a1, a2, a3);
    TableColumnRun();
    var s1 := AddRdbTable(s0, a1.addRdbTable);
    assert Apply(s0, a1) == s1;
    var s2 := AddRdbColumn(s1, a2.addRdbColumn);
    assert Apply(s1, a2) == s2;
    assert Apply(s2, a3) == UpdateRdbColumn(s2, a3.updateRdbColumn);
  }

  /** A query specification, a filter parameter in it, and its deletion. */
  lemma QueryFilterRun()
    ensures
      var s1 := AddQuerySpecification(DefaultGlobalState(), AddQuerySpecificationInput("q1", Absent, Absent));
      var s2 := AddQueryFilterParam(s1, AddQueryFilterParamInput("q1", "f1", Absent, Absent, false));
      var s3 := DeleteFilterParam(s2, DeleteFilterParamInput("q1", "f1"));
      s3 == GlobalState(Null, Null, [QuerySpecification("q1", NonNull(""), Null, Null, [])], [])
  {
    var s1 := AddQuerySpecification(DefaultGlobalState(), AddQuerySpecificationInput("q1", Absent, Absent));
    assert s1.querySpecifications == [QuerySpecification("q1", NonNull(""), Null, Null, [])];
    FirstIndexUnique(s1.querySpecifications, QuerySpecId, "q1", 0);
    var s2 := AddQueryFilterParam(s1, AddQueryFilterParamInput("q1", "f1", Absent, Absent, false));
    assert |s2.querySpecifications| == 1;
    assert s2.querySpecifications[0].filter == [QueryFilterParam("f1", Null, Null, false)];
    assert s2.querySpecifications
        == [QuerySpecification("q1", NonNull(""), Null, Null, [QueryFilterParam("f1", Null, Null, false)])];
    FirstIndexUnique(s2.querySpecifications, QuerySpecId, "q1", 0);
  }

  /** The same run, each step sent to the reducer as an action with its
      own tag and encoded input. */
  lemma QueryFilterScenario(documentActionTypes: set<string>, a1: Action, a2: Action, a3: Action)
    requires OperationTypes !! documentActionTypes
    requires a1 == AddQuerySpecificationAction(AddQuerySpecificationInput("q1", Absent, Absent))
    requires a2 == AddQueryFilterParamAction(AddQueryFilterParamInput("q1", "f1", Absent, Absent, false))
    requires a3 == DeleteFilterParamAction(DeleteFilterParamInput("q1", "f1"))
    ensures
      var s1 := Reduce(DefaultGlobalState(), documentActionTypes, RawAction(TypeTag(a1), EncodeAction(a1)));
      var s2 := Reduce(s1, documentActionTypes, RawAction(TypeTag(a2), EncodeAction(a2)));
      Reduce(s2, documentActionTypes, RawAction(TypeTag(a3), EncodeAction(a3)))
        == GlobalState(Null, Null, [QuerySpecification("q1", NonNull(""), Null, Null, [])], [])
  {
    EncodedActionsReduce(DefaultGlobalState(), documentActionTypes, a1, a2, a3);
    QueryFilterRun();
  }
}
