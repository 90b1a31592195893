/** What the schemas accept and reject, and the round trip between each
    input's encoder and decoder. */
module SchemaProperties {
  import opened Values
  import opened Json
  import opened Types
  import opened Schema

  // ---------------------------------------------------------------------
  // Reading back an optional field written next to the required ones

  lemma ReadString(req: map<string, Json>, fs: map<string, InputMaybe<Json>>, k: string, f: InputMaybe<string>)
    requires k !in req && k in fs && fs[k] == StringInput(f)
    ensures NullishString(req + NullishFields(fs), k) && GetNullishString(req + NullishFields(fs), k) == f
  {
  }

  lemma ReadBoolean(req: map<string, Json>, fs: map<string, InputMaybe<Json>>, k: string, f: InputMaybe<bool>)
    requires k !in req && k in fs && fs[k] == BooleanInput(f)
    ensures NullishBoolean(req + NullishFields(fs), k) && GetNullishBoolean(req + NullishFields(fs), k) == f
  {
  }

  lemma ReadColumnType(req: map<string, Json>, fs: map<string, InputMaybe<Json>>, k: string, f: InputMaybe<ColumnType>)
    requires k !in req && k in fs && fs[k] == ColumnTypeInput(f)
    ensures NullishColumnTypeInput(req + NullishFields(fs), k) && GetNullishColumnType(req + NullishFields(fs), k) == f
  {
    if f.Given? {
      ColumnTypeEnumsAgree(ColumnTypeName(f.value));
    }
  }

  // ---------------------------------------------------------------------
  // Round trips: every typed input, written as a value, passes its schema
  // and decodes back to itself.

  lemma SetSpecInputRoundTrip(i: SetSpecInput)
    ensures SetSpecInputSchema(EncodeSetSpecInput(i))
    ensures DecodeSetSpecInput(EncodeSetSpecInput(i)) == i
  {
  }

  lemma AddQuerySpecificationInputRoundTrip(i: AddQuerySpecificationInput)
    ensures AddQuerySpecificationInputSchema(EncodeAddQuerySpecificationInput(i))
    ensures DecodeAddQuerySpecificationInput(EncodeAddQuerySpecificationInput(i)) == i
  {
  }

  lemma UpdateQuerySchemaInputRoundTrip(i: UpdateQuerySchemaInput)
    ensures UpdateQuerySchemaInputSchema(EncodeUpdateQuerySchemaInput(i))
    ensures DecodeUpdateQuerySchemaInput(EncodeUpdateQuerySchemaInput(i)) == i
  {
  }

  lemma UpdateQueryExampleInputRoundTrip(i: UpdateQueryExampleInput)
    ensures UpdateQueryExampleInputSchema(EncodeUpdateQueryExampleInput(i))
    ensures DecodeUpdateQueryExampleInput(EncodeUpdateQueryExampleInput(i)) == i
  {
  }

  lemma DeleteQuerySpecificationInputRoundTrip(i: DeleteQuerySpecificationInput)
    ensures DeleteQuerySpecificationInputSchema(EncodeDeleteQuerySpecificationInput(i))
    ensures DecodeDeleteQuerySpecificationInput(EncodeDeleteQuerySpecificationInput(i)) == i
  {
  }

  lemma AddQueryFilterParamInputRoundTrip(i: AddQueryFilterParamInput)
    ensures AddQueryFilterParamInputSchema(EncodeAddQueryFilterParamInput(i))
    ensures DecodeAddQueryFilterParamInput(EncodeAddQueryFilterParamInput(i)) == i
  {
  }

  lemma UpdateFilterParamInputRoundTrip(i: UpdateFilterParamInput)
    ensures UpdateFilterParamInputSchema(EncodeUpdateFilterParamInput(i))
    ensures DecodeUpdateFilterParamInput(EncodeUpdateFilterParamInput(i)) == i
  {
  }

  lemma DeleteFilterParamInputRoundTrip(i: DeleteFilterParamInput)
    ensures DeleteFilterParamInputSchema(EncodeDeleteFilterParamInput(i))
    ensures DecodeDeleteFilterParamInput(EncodeDeleteFilterParamInput(i)) == i
  {
  }

  lemma SetQuerySpecNameInputRoundTrip(i: SetQuerySpecNameInput)
    ensures SetQuerySpecNameInputSchema(EncodeSetQuerySpecNameInput(i))
    ensures DecodeSetQuerySpecNameInput(EncodeSetQuerySpecNameInput(i)) == i
  {
  }

  lemma AddRdbTableInputRoundTrip(i: AddRdbTableInput)
    ensures AddRdbTableInputSchema(EncodeAddRdbTableInput(i))
    ensures DecodeAddRdbTableInput(EncodeAddRdbTableInput(i)) == i
  {
  }

  lemma UpdateTableNameInputRoundTrip(i: UpdateTableNameInput)
    ensures UpdateTableNameInputSchema(EncodeUpdateTableNameInput(i))
    ensures DecodeUpdateTableNameInput(EncodeUpdateTableNameInput(i)) == i
  {
  }

  lemma DeleteRdbTableInputRoundTrip(i: DeleteRdbTableInput)
    ensures DeleteRdbTableInputSchema(EncodeDeleteRdbTableInput(i))
    ensures DecodeDeleteRdbTableInput(EncodeDeleteRdbTableInput(i)) == i
  {
  }

  lemma AddRdbColumnInputRoundTrip(i: AddRdbColumnInput)
    ensures AddRdbColumnInputSchema(EncodeAddRdbColumnInput(i))
    ensures DecodeAddRdbColumnInput(EncodeAddRdbColumnInput(i)) == i
  {
    var req := map["tableId" := JString(i.tableId), "id" := JString(i.id),
                   "type" := JString(ColumnTypeName(i.columnType)), "primaryKey" := JBool(i.primaryKey)];
    var fs := map["name" := StringInput(i.name), "description" := StringInput(i.description),
                  "sourceDocModel" := StringInput(i.sourceDocModel),
                  "sourceProperty" := StringInput(i.sourceProperty)];
    assert EncodeAddRdbColumnInput(i) == JObject(req + NullishFields(fs));
    ColumnTypeEnumsAgree(ColumnTypeName(i.columnType));
    ReadString(req, fs, "name", i.name);
    ReadString(req, fs, "description", i.description);
    ReadString(req, fs, "sourceDocModel", i.sourceDocModel);
    ReadString(req, fs, "sourceProperty", i.sourceProperty);
  }

  lemma UpdateRdbColumnInputRoundTrip(i: UpdateRdbColumnInput)
    ensures UpdateRdbColumnInputSchema(EncodeUpdateRdbColumnInput(i))
    ensures DecodeUpdateRdbColumnInput(EncodeUpdateRdbColumnInput(i)) == i
  {
    var req := map["tableId" := JString(i.tableId), "id" := JString(i.id)];
    var fs := map["name" := StringInput(i.name), "type" := ColumnTypeInput(i.columnType),
                  "description" := StringInput(i.description),
                  "sourceDocModel" := StringInput(i.sourceDocModel),
                  "sourceProperty" := StringInput(i.sourceProperty),
                  "primaryKey" := BooleanInput(i.primaryKey)];
    assert EncodeUpdateRdbColumnInput(i) == JObject(req + NullishFields(fs));
    ReadString(req, fs, "name", i.name);
    ReadColumnType(req, fs, "type", i.columnType);
    ReadString(req, fs, "description", i.description);
    ReadString(req, fs, "sourceDocModel", i.sourceDocModel);
    ReadString(req, fs, "sourceProperty", i.sourceProperty);
    ReadBoolean(req, fs, "primaryKey", i.primaryKey);
  }

  lemma DeleteRdbColumnInputRoundTrip(i: DeleteRdbColumnInput)
    ensures DeleteRdbColumnInputSchema(EncodeDeleteRdbColumnInput(i))
    ensures DecodeDeleteRdbColumnInput(EncodeDeleteRdbColumnInput(i)) == i
  {
  }

  // ---------------------------------------------------------------------
  // Acceptance and rejection

  /** The empty object is a valid `setSpec` input and asks for no change. */
  lemma SetSpecInputAcceptsEmpty()
    ensures SetSpecInputSchema(JObject(map[]))
    ensures DecodeSetSpecInput(JObject(map[])) == SetSpecInput(Absent, Absent)
  {
  }

  /** Adding a filter parameter needs a boolean `optional`; updating one
      accepts it missing or null. */
  lemma FilterParamOptionalRequirements(j: Json)
    requires j.JObject? && StringField(j.fields, "id") && StringField(j.fields, "querySpecId")
    ensures AddQueryFilterParamInputSchema(j) ==> "optional" in j.fields && j.fields["optional"].JBool?
    ensures !AddQueryFilterParamInputSchema(JObject(j.fields - {"optional"}))
    ensures !AddQueryFilterParamInputSchema(JObject(j.fields["optional" := JNull]))
    ensures UpdateFilterParamInputSchema(j) ==> UpdateFilterParamInputSchema(JObject(j.fields - {"optional"}))
    ensures UpdateFilterParamInputSchema(j) ==> UpdateFilterParamInputSchema(JObject(j.fields["optional" := JNull]))
    ensures UpdateFilterParamInputSchema(JObject(map["id" := j.fields["id"], "querySpecId" := j.fields["querySpecId"]]))
  {
  }

  /** The smallest valid column add: both ids, a column type and the
      primary-key flag; the four descriptive strings may be missing. Without
      the flag, or with a type outside the enumeration, it is rejected. */
  lemma AddRdbColumnInputRequirements(tableId: string, id: string, typeName: string, pk: bool, extra: map<string, Json>)
    ensures var o := extra["tableId" := JString(tableId)]["id" := JString(id)]["type" := JString(typeName)]
                          ["primaryKey" := JBool(pk)];
      && (AddRdbColumnInputSchema(JObject(o)) <==>
            RdbColumnTypeSchema(typeName)
            && NullishString(extra, "name") && NullishString(extra, "description")
            && NullishString(extra, "sourceDocModel") && NullishString(extra, "sourceProperty"))
      && !AddRdbColumnInputSchema(JObject(o - {"primaryKey"}))
      && !AddRdbColumnInputSchema(JObject(o["primaryKey" := JNull]))
      && !AddRdbColumnInputSchema(JObject(o - {"type"}))
  {
  }

  /** A column update needs nothing but the two ids; a null type and a null
      primary-key flag are accepted and decode as explicit nulls. */
  lemma UpdateRdbColumnInputRequirements(tableId: string, id: string)
    ensures var o := map["tableId" := JString(tableId), "id" := JString(id)];
      && UpdateRdbColumnInputSchema(JObject(o))
      && DecodeUpdateRdbColumnInput(JObject(o))
           == UpdateRdbColumnInput(tableId, id, Absent, Absent, Absent, Absent, Absent, Absent)
      && UpdateRdbColumnInputSchema(JObject(o["type" := JNull]["primaryKey" := JNull]))
      && DecodeUpdateRdbColumnInput(JObject(o["type" := JNull]["primaryKey" := JNull]))
           == UpdateRdbColumnInput(tableId, id, Absent, ExplicitNull, Absent, Absent, Absent, ExplicitNull)
      && !UpdateRdbColumnInputSchema(JObject(o - {"id"}))
      && !UpdateRdbColumnInputSchema(JObject(o - {"tableId"}))
  {
  }

  /** A value accepted by a schema with an id field carries that field as a
      string: a missing or non-string id is always rejected. */
  lemma IdFieldsAreRequiredStrings(j: Json)
    requires j.JObject?
    requires !StringField(j.fields, "id")
    ensures !AddQuerySpecificationInputSchema(j) && !UpdateQuerySchemaInputSchema(j)
    ensures !UpdateQueryExampleInputSchema(j) && !DeleteQuerySpecificationInputSchema(j)
    ensures !AddQueryFilterParamInputSchema(j) && !UpdateFilterParamInputSchema(j)
    ensures !DeleteFilterParamInputSchema(j)
    ensures !AddRdbTableInputSchema(j) && !UpdateTableNameInputSchema(j) && !DeleteRdbTableInputSchema(j)
    ensures !AddRdbColumnInputSchema(j) && !UpdateRdbColumnInputSchema(j) && !DeleteRdbColumnInputSchema(j)
  {
  }

  /** The same for the parent ids of the nested lists. */
  lemma ParentIdFieldsAreRequiredStrings(j: Json)
    requires j.JObject?
    ensures !StringField(j.fields, "querySpecId") ==>
      !AddQueryFilterParamInputSchema(j) && !UpdateFilterParamInputSchema(j)
      && !DeleteFilterParamInputSchema(j) && !SetQuerySpecNameInputSchema(j)
    ensures !StringField(j.fields, "tableId") ==>
      !AddRdbColumnInputSchema(j) && !UpdateRdbColumnInputSchema(j) && !DeleteRdbColumnInputSchema(j)
  {
  }

  // ---------------------------------------------------------------------
  // State records

  /** In a state record a nullable field takes null but must be present. */
  lemma StateRecordNullableFieldsRequired(o: map<string, Json>)
    ensures QueryFilterParamSchema(JObject(o)) ==>
      QueryFilterParamSchema(JObject(o["name" := JNull])) && !QueryFilterParamSchema(JObject(o - {"name"}))
      && QueryFilterParamSchema(JObject(o["type" := JNull])) && !QueryFilterParamSchema(JObject(o - {"type"}))
    ensures QuerySpecificationSchema(JObject(o)) ==>
      QuerySpecificationSchema(JObject(o["querySchema" := JNull])) && !QuerySpecificationSchema(JObject(o - {"querySchema"}))
      && QuerySpecificationSchema(JObject(o["queryExample" := JNull])) && !QuerySpecificationSchema(JObject(o - {"queryExample"}))
    ensures RdbColumnSchema(JObject(o)) ==>
      RdbColumnSchema(JObject(o["sourceDocModel" := JNull])) && !RdbColumnSchema(JObject(o - {"sourceDocModel"}))
    ensures RdbTableSchema(JObject(o)) ==>
      RdbTableSchema(JObject(o["name" := JNull])) && !RdbTableSchema(JObject(o - {"name"}))
    ensures RdbProcessorSpecificationStateSchema(JObject(o)) ==>
      RdbProcessorSpecificationStateSchema(JObject(o["description" := JNull]))
      && !RdbProcessorSpecificationStateSchema(JObject(o - {"description"}))
  {
  }

  lemma EncodeQuerySpecificationValid(q: QuerySpecification)
    ensures QuerySpecificationSchema(EncodeQuerySpecification(q))
  {
    var items := EncodeQuerySpecification(q).fields["filter"].items;
    forall k | 0 <= k < |items|
      ensures QueryFilterParamSchema(items[k])
    {
      assert items[k] == EncodeFilterParam(q.filter[k]);
    }
  }

  lemma EncodeTableValid(t: RdbTable)
    ensures RdbTableSchema(EncodeTable(t))
  {
    var items := EncodeTable(t).fields["columns"].items;
    forall k | 0 <= k < |items|
      ensures RdbColumnSchema(items[k])
    {
      assert items[k] == EncodeColumn(t.columns[k]);
      ColumnTypeEnumsAgree(ColumnTypeName(t.columns[k].columnType));
    }
  }

  /** Every state the model can hold, written as a value, passes the state
      schema. */
  lemma EncodeStateValid(s: GlobalState)
    ensures RdbProcessorSpecificationStateSchema(EncodeState(s))
  {
    var qs := EncodeState(s).fields["querySpecifications"].items;
    forall k | 0 <= k < |qs|
      ensures QuerySpecificationSchema(qs[k])
    {
      EncodeQuerySpecificationValid(s.querySpecifications[k]);
    }
    var ts := EncodeState(s).fields["rdbSpecification"].items;
    forall k | 0 <= k < |ts|
      ensures RdbTableSchema(ts[k])
    {
      EncodeTableValid(s.rdbSpecification[k]);
    }
  }

  /** The optional field `f` is what object `o` holds at `k`: missing
      when absent, `null` when explicitly null, the value when given. */
  predicate WritesBack(o: map<string, Json>, k: string, f: InputMaybe<Json>)
  {
    (f.Absent? <==> k !in o) && (k in o ==> o[k] == (if f.Given? then f.value else JNull))
  }

  /** Every required field of `req` repeats what `o` holds at its key. */
  predicate AllRequired(o: map<string, Json>, req: map<string, Json>)
  {
    forall k :: k in req ==> k in o && o[k] == req[k]
  }

  /** Every optional field of `fs` writes back what `o` holds at its key. */
  predicate AllWriteBack(o: map<string, Json>, fs: map<string, InputMaybe<Json>>)
  {
    forall k :: k in fs ==> WritesBack(o, k, fs[k])
  }

  lemma AddRequired(o: map<string, Json>, req: map<string, Json>, k: string, v: Json)
    requires AllRequired(o, req) && k in o && o[k] == v
    ensures AllRequired(o, req[k := v])
  {
  }

  lemma AddWriteBack(o: map<string, Json>, fs: map<string, InputMaybe<Json>>, k: string, f: InputMaybe<Json>)
    requires AllWriteBack(o, fs) && WritesBack(o, k, f)
    ensures AllWriteBack(o, fs[k := f])
  {
  }

  lemma StringWritesBack(o: map<string, Json>, k: string)
    requires NullishString(o, k)
    ensures WritesBack(o, k, StringInput(GetNullishString(o, k)))
  {
  }

  lemma BooleanWritesBack(o: map<string, Json>, k: string)
    requires NullishBoolean(o, k)
    ensures WritesBack(o, k, BooleanInput(GetNullishBoolean(o, k)))
  {
  }

  lemma ColumnTypeWritesBack(o: map<string, Json>, k: string)
    requires NullishColumnTypeInput(o, k)
    ensures WritesBack(o, k, ColumnTypeInput(GetNullishColumnType(o, k)))
  {
  }

  /** Required fields `req` and optional fields `fs` that repeat what `j`
      holds at each of their keys write exactly `j` restricted to those keys. */
  lemma EncodedIsRestrict(j: Json, req: map<string, Json>, fs: map<string, InputMaybe<Json>>, keys: set<string>)
    requires j.JObject? && req.Keys + fs.Keys == keys
    requires AllRequired(j.fields, req) && AllWriteBack(j.fields, fs)
    ensures req + NullishFields(fs) == Restrict(j, keys).fields
  {
    var e := req + NullishFields(fs);
    var r := Restrict(j, keys).fields;
    forall k | k in e
      ensures k in r && e[k] == r[k]
    {
      if k !in req {
        assert WritesBack(j.fields, k, fs[k]);
      }
    }
    forall k | k in r
      ensures k in e
    {
      if k !in req {
        assert WritesBack(j.fields, k, fs[k]);
      }
    }
  }

  // ---------------------------------------------------------------------
  // The converse round trips: an object a schema accepts, decoded and
  // written back, is the object with only the declared keys kept.

  lemma SetSpecInputDecodeEncode(j: Json)
    requires SetSpecInputSchema(j)
    ensures EncodeSetSpecInput(DecodeSetSpecInput(j)) == Restrict(j, SetSpecInputKeys)
  {
    var o, i := j.fields, DecodeSetSpecInput(j);
    var r0: map<string, Json> := map[];
    var f0: map<string, InputMaybe<Json>> := map[];
    StringWritesBack(o, "name");
    AddWriteBack(o, f0, "name", StringInput(i.name));
    var f1 := f0["name" := StringInput(i.name)];
    StringWritesBack(o, "description");
    AddWriteBack(o, f1, "description", StringInput(i.description));
    var f2 := f1["description" := StringInput(i.description)];
    EncodedIsRestrict(j, r0, f2, SetSpecInputKeys);
    assert r0 + NullishFields(f2) == NullishFields(f2);
  }

  lemma AddQuerySpecificationInputDecodeEncode(j: Json)
    requires AddQuerySpecificationInputSchema(j)
    ensures EncodeAddQuerySpecificationInput(DecodeAddQuerySpecificationInput(j)) == Restrict(j, AddQuerySpecificationInputKeys)
  {
    var o, i := j.fields, DecodeAddQuerySpecificationInput(j);
    var r0: map<string, Json> := map[];
    AddRequired(o, r0, "id", JString(i.id));
    var r1 := r0["id" := JString(i.id)];
    var f0: map<string, InputMaybe<Json>> := map[];
    StringWritesBack(o, "querySchema");
    AddWriteBack(o, f0, "querySchema", StringInput(i.querySchema));
    var f1 := f0["querySchema" := StringInput(i.querySchema)];
    StringWritesBack(o, "queryExample");
    AddWriteBack(o, f1, "queryExample", StringInput(i.queryExample));
    var f2 := f1["queryExample" := StringInput(i.queryExample)];
    EncodedIsRestrict(j, r1, f2, AddQuerySpecificationInputKeys);
  }

  lemma UpdateQuerySchemaInputDecodeEncode(j: Json)
    requires UpdateQuerySchemaInputSchema(j)
    ensures EncodeUpdateQuerySchemaInput(DecodeUpdateQuerySchemaInput(j)) == Restrict(j, UpdateQuerySchemaInputKeys)
  {
    var o, i := j.fields, DecodeUpdateQuerySchemaInput(j);
    var r0: map<string, Json> := map[];
    AddRequired(o, r0, "id", JString(i.id));
    var r1 := r0["id" := JString(i.id)];
    var f0: map<string, InputMaybe<Json>> := map[];
    StringWritesBack(o, "querySchema");
    AddWriteBack(o, f0, "querySchema", StringInput(i.querySchema));
    var f1 := f0["querySchema" := StringInput(i.querySchema)];
    EncodedIsRestrict(j, r1, f1, UpdateQuerySchemaInputKeys);
  }

  lemma UpdateQueryExampleInputDecodeEncode(j: Json)
    requires UpdateQueryExampleInputSchema(j)
    ensures EncodeUpdateQueryExampleInput(DecodeUpdateQueryExampleInput(j)) == Restrict(j, UpdateQueryExampleInputKeys)
  {
    var o, i := j.fields, DecodeUpdateQueryExampleInput(j);
    var r0: map<string, Json> := map[];
    AddRequired(o, r0, "id", JString(i.id));
    var r1 := r0["id" := JString(i.id)];
    var f0: map<string, InputMaybe<Json>> := map[];
    StringWritesBack(o, "queryExample");
    AddWriteBack(o, f0, "queryExample", StringInput(i.queryExample));
    var f1 := f0["queryExample" := StringInput(i.queryExample)];
    EncodedIsRestrict(j, r1, f1, UpdateQueryExampleInputKeys);
  }

  lemma DeleteQuerySpecificationInputDecodeEncode(j: Json)
    requires DeleteQuerySpecificationInputSchema(j)
    ensures EncodeDeleteQuerySpecificationInput(DecodeDeleteQuerySpecificationInput(j)) == Restrict(j, DeleteQuerySpecificationInputKeys)
  {
    var o, i := j.fields, DecodeDeleteQuerySpecificationInput(j);
    var r0: map<string, Json> := map[];
    AddRequired(o, r0, "id", JString(i.id));
    var r1 := r0["id" := JString(i.id)];
    var f0: map<string, InputMaybe<Json>> := map[];
    EncodedIsRestrict(j, r1, f0, DeleteQuerySpecificationInputKeys);
    assert NullishFields(f0) == map[];
  }

  lemma AddQueryFilterParamInputDecodeEncode(j: Json)
    requires AddQueryFilterParamInputSchema(j)
    ensures EncodeAddQueryFilterParamInput(DecodeAddQueryFilterParamInput(j)) == Restrict(j, AddQueryFilterParamInputKeys)
  {
    var o, i := j.fields, DecodeAddQueryFilterParamInput(j);
    var r0: map<string, Json> := map[];
    AddRequired(o, r0, "querySpecId", JString(i.querySpecId));
    var r1 := r0["querySpecId" := JString(i.querySpecId)];
    AddRequired(o, r1, "id", JString(i.id));
    var r2 := r1["id" := JString(i.id)];
    AddRequired(o, r2, "optional", JBool(i.optional));
    var r3 := r2["optional" := JBool(i.optional)];
    var f0: map<string, InputMaybe<Json>> := map[];
    StringWritesBack(o, "name");
    AddWriteBack(o, f0, "name", StringInput(i.name));
    var f1 := f0["name" := StringInput(i.name)];
    StringWritesBack(o, "type");
    AddWriteBack(o, f1, "type", StringInput(i.paramType));
    var f2 := f1["type" := StringInput(i.paramType)];
    EncodedIsRestrict(j, r3, f2, AddQueryFilterParamInputKeys);
  }

  lemma UpdateFilterParamInputDecodeEncode(j: Json)
    requires UpdateFilterParamInputSchema(j)
    ensures EncodeUpdateFilterParamInput(DecodeUpdateFilterParamInput(j)) == Restrict(j, UpdateFilterParamInputKeys)
  {
    var o, i := j.fields, DecodeUpdateFilterParamInput(j);
    var r0: map<string, Json> := map[];
    AddRequired(o, r0, "querySpecId", JString(i.querySpecId));
    var r1 := r0["querySpecId" := JString(i.querySpecId)];
    AddRequired(o, r1, "id", JString(i.id));
    var r2 := r1["id" := JString(i.id)];
    var f0: map<string, InputMaybe<Json>> := map[];
    StringWritesBack(o, "name");
    AddWriteBack(o, f0, "name", StringInput(i.name));
    var f1 := f0["name" := StringInput(i.name)];
    StringWritesBack(o, "type");
    AddWriteBack(o, f1, "type", StringInput(i.paramType));
    var f2 := f1["type" := StringInput(i.paramType)];
    BooleanWritesBack(o, "optional");
    AddWriteBack(o, f2, "optional", BooleanInput(i.optional));
    var f3 := f2["optional" := BooleanInput(i.optional)];
    EncodedIsRestrict(j, r2, f3, UpdateFilterParamInputKeys);
  }

  lemma DeleteFilterParamInputDecodeEncode(j: Json)
    requires DeleteFilterParamInputSchema(j)
    ensures EncodeDeleteFilterParamInput(DecodeDeleteFilterParamInput(j)) == Restrict(j, DeleteFilterParamInputKeys)
  {
    var o, i := j.fields, DecodeDeleteFilterParamInput(j);
    var r0: map<string, Json> := map[];
    AddRequired(o, r0, "querySpecId", JString(i.querySpecId));
    var r1 := r0["querySpecId" := JString(i.querySpecId)];
    AddRequired(o, r1, "id", JString(i.id));
    var r2 := r1["id" := JString(i.id)];
    var f0: map<string, InputMaybe<Json>> := map[];
    EncodedIsRestrict(j, r2, f0, DeleteFilterParamInputKeys);
    assert NullishFields(f0) == map[];
  }

  lemma SetQuerySpecNameInputDecodeEncode(j: Json)
    requires SetQuerySpecNameInputSchema(j)
    ensures EncodeSetQuerySpecNameInput(DecodeSetQuerySpecNameInput(j)) == Restrict(j, SetQuerySpecNameInputKeys)
  {
    var o, i := j.fields, DecodeSetQuerySpecNameInput(j);
    var r0: map<string, Json> := map[];
    AddRequired(o, r0, "querySpecId", JString(i.querySpecId));
    var r1 := r0["querySpecId" := JString(i.querySpecId)];
    var f0: map<string, InputMaybe<Json>> := map[];
    StringWritesBack(o, "name");
    AddWriteBack(o, f0, "name", StringInput(i.name));
    var f1 := f0["name" := StringInput(i.name)];
    EncodedIsRestrict(j, r1, f1, SetQuerySpecNameInputKeys);
  }

  lemma AddRdbTableInputDecodeEncode(j: Json)
    requires AddRdbTableInputSchema(j)
    ensures EncodeAddRdbTableInput(DecodeAddRdbTableInput(j)) == Restrict(j, AddRdbTableInputKeys)
  {
    var o, i := j.fields, DecodeAddRdbTableInput(j);
    var r0: map<string, Json> := map[];
    AddRequired(o, r0, "id", JString(i.id));
    var r1 := r0["id" := JString(i.id)];
    var f0: map<string, InputMaybe<Json>> := map[];
    StringWritesBack(o, "name");
    AddWriteBack(o, f0, "name", StringInput(i.name));
    var f1 := f0["name" := StringInput(i.name)];
    EncodedIsRestrict(j, r1, f1, AddRdbTableInputKeys);
  }

  lemma UpdateTableNameInputDecodeEncode(j: Json)
    requires UpdateTableNameInputSchema(j)
    ensures EncodeUpdateTableNameInput(DecodeUpdateTableNameInput(j)) == Restrict(j, UpdateTableNameInputKeys)
  {
    var o, i := j.fields, DecodeUpdateTableNameInput(j);
    var r0: map<string, Json> := map[];
    AddRequired(o, r0, "id", JString(i.id));
    var r1 := r0["id" := JString(i.id)];
    var f0: map<string, InputMaybe<Json>> := map[];
    StringWritesBack(o, "name");
    AddWriteBack(o, f0, "name", StringInput(i.name));
    var f1 := f0["name" := StringInput(i.name)];
    EncodedIsRestrict(j, r1, f1, UpdateTableNameInputKeys);
  }

  lemma DeleteRdbTableInputDecodeEncode(j: Json)
    requires DeleteRdbTableInputSchema(j)
    ensures EncodeDeleteRdbTableInput(DecodeDeleteRdbTableInput(j)) == Restrict(j, DeleteRdbTableInputKeys)
  {
    var o, i := j.fields, DecodeDeleteRdbTableInput(j);
    var r0: map<string, Json> := map[];
    AddRequired(o, r0, "id", JString(i.id));
    var r1 := r0["id" := JString(i.id)];
    var f0: map<string, InputMaybe<Json>> := map[];
    EncodedIsRestrict(j, r1, f0, DeleteRdbTableInputKeys);
    assert NullishFields(f0) == map[];
  }

  lemma AddRdbColumnInputDecodeEncode(j: Json)
    requires AddRdbColumnInputSchema(j)
    ensures EncodeAddRdbColumnInput(DecodeAddRdbColumnInput(j)) == Restrict(j, AddRdbColumnInputKeys)
  {
    var o, i := j.fields, DecodeAddRdbColumnInput(j);
    var r0: map<string, Json> := map[];
    AddRequired(o, r0, "tableId", JString(i.tableId));
    var r1 := r0["tableId" := JString(i.tableId)];
    AddRequired(o, r1, "id", JString(i.id));
    var r2 := r1["id" := JString(i.id)];
    AddRequired(o, r2, "type", JString(ColumnTypeName(i.columnType)));
    var r3 := r2["type" := JString(ColumnTypeName(i.columnType))];
    AddRequired(o, r3, "primaryKey", JBool(i.primaryKey));
    var r4 := r3["primaryKey" := JBool(i.primaryKey)];
    var f0: map<string, InputMaybe<Json>> := map[];
    StringWritesBack(o, "name");
    AddWriteBack(o, f0, "name", StringInput(i.name));
    var f1 := f0["name" := StringInput(i.name)];
    StringWritesBack(o, "description");
    AddWriteBack(o, f1, "description", StringInput(i.description));
    var f2 := f1["description" := StringInput(i.description)];
    StringWritesBack(o, "sourceDocModel");
    AddWriteBack(o, f2, "sourceDocModel", StringInput(i.sourceDocModel));
    var f3 := f2["sourceDocModel" := StringInput(i.sourceDocModel)];
    StringWritesBack(o, "sourceProperty");
    AddWriteBack(o, f3, "sourceProperty", StringInput(i.sourceProperty));
    var f4 := f3["sourceProperty" := StringInput(i.sourceProperty)];
    EncodedIsRestrict(j, r4, f4, AddRdbColumnInputKeys);
  }

  lemma UpdateRdbColumnInputDecodeEncode(j: Json)
    requires UpdateRdbColumnInputSchema(j)
    ensures EncodeUpdateRdbColumnInput(DecodeUpdateRdbColumnInput(j)) == Restrict(j, UpdateRdbColumnInputKeys)
  {
    var o, i := j.fields, DecodeUpdateRdbColumnInput(j);
    var r0: map<string, Json> := map[];
    AddRequired(o, r0, "tableId", JString(i.tableId));
    var r1 := r0["tableId" := JString(i.tableId)];
    AddRequired(o, r1, "id", JString(i.id));
    var r2 := r1["id" := JString(i.id)];
    var f0: map<string, InputMaybe<Json>> := map[];
    StringWritesBack(o, "name");
    AddWriteBack(o, f0, "name", StringInput(i.name));
    var f1 := f0["name" := StringInput(i.name)];
    ColumnTypeWritesBack(o, "type");
    AddWriteBack(o, f1, "type", ColumnTypeInput(i.columnType));
    var f2 := f1["type" := ColumnTypeInput(i.columnType)];
    StringWritesBack(o, "description");
    AddWriteBack(o, f2, "description", StringInput(i.description));
    var f3 := f2["description" := StringInput(i.description)];
    StringWritesBack(o, "sourceDocModel");
    AddWriteBack(o, f3, "sourceDocModel", StringInput(i.sourceDocModel));
    var f4 := f3["sourceDocModel" := StringInput(i.sourceDocModel)];
    StringWritesBack(o, "sourceProperty");
    AddWriteBack(o, f4, "sourceProperty", StringInput(i.sourceProperty));
    var f5 := f4["sourceProperty" := StringInput(i.sourceProperty)];
    BooleanWritesBack(o, "primaryKey");
    AddWriteBack(o, f5, "primaryKey", BooleanInput(i.primaryKey));
    var f6 := f5["primaryKey" := BooleanInput(i.primaryKey)];
    EncodedIsRestrict(j, r2, f6, UpdateRdbColumnInputKeys);
  }

  lemma DeleteRdbColumnInputDecodeEncode(j: Json)
    requires DeleteRdbColumnInputSchema(j)
    ensures EncodeDeleteRdbColumnInput(DecodeDeleteRdbColumnInput(j)) == Restrict(j, DeleteRdbColumnInputKeys)
  {
    var o, i := j.fields, DecodeDeleteRdbColumnInput(j);
    var r0: map<string, Json> := map[];
    AddRequired(o, r0, "tableId", JString(i.tableId));
    var r1 := r0["tableId" := JString(i.tableId)];
    AddRequired(o, r1, "id", JString(i.id));
    var r2 := r1["id" := JString(i.id)];
    var f0: map<string, InputMaybe<Json>> := map[];
    EncodedIsRestrict(j, r2, f0, DeleteRdbColumnInputKeys);
    assert NullishFields(f0) == map[];
  }
}
