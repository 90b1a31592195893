/** The validation schemas of the document: one object schema per action
    input, the state-record schemas and the two column-type enumerations,
    written as predicates over dynamic values. Each input schema comes with
    the decoder that reads the typed record out of a value it accepts and an
    encoder that writes a typed record back as a value; the two are proved
    inverse.

    Object schemas are not strict: keys they do not declare are allowed (and
    dropped from the parsed copy). `nullish` fields may be missing, `null` or
    of the named type; `nullable` fields must be present but may be `null`.
 */
module Schema {
  import opened Values
  import opened Json
  import opened Types

  // ---------------------------------------------------------------------
  // Enumerations

  const ColumnTypeNames: set<string> := {"Boolean", "Date", "DateTime", "Float", "Int", "String", "Text"}

  /** `RdbColumnTypeSchema`. */
  predicate RdbColumnTypeSchema(s: string)
  {
    s in ColumnTypeNames
  }

  /** `RdbColumnTypeInputSchema`, declared separately with the same members. */
  predicate RdbColumnTypeInputSchema(s: string)
  {
    s in ColumnTypeNames
  }

  /** Both enumerations accept exactly the same seven names, which are
      exactly the names of the column types. */
  lemma ColumnTypeEnumsAgree(s: string)
    ensures RdbColumnTypeSchema(s) <==> RdbColumnTypeInputSchema(s)
    ensures RdbColumnTypeSchema(s) <==> s in ColumnTypeNames
    ensures RdbColumnTypeSchema(s) <==> ParseColumnType(s).Some?
    ensures |ColumnTypeNames| == 7
  {
  }

  // ---------------------------------------------------------------------
  // Field shapes

  /** `z.string()`: present and a string. */
  predicate StringField(o: map<string, Json>, k: string) { k in o && o[k].JString? }

  /** `z.string().nullish()`: missing, `null` or a string. */
  predicate NullishString(o: map<string, Json>, k: string) { k !in o || o[k].JNull? || o[k].JString? }

  /** `z.string().nullable()`: present, and `null` or a string. */
  predicate NullableString(o: map<string, Json>, k: string) { k in o && (o[k].JNull? || o[k].JString?) }

  /** `z.boolean()`. */
  predicate BooleanField(o: map<string, Json>, k: string) { k in o && o[k].JBool? }

  /** `z.boolean().nullish()`. */
  predicate NullishBoolean(o: map<string, Json>, k: string) { k !in o || o[k].JNull? || o[k].JBool? }

  /** `RdbColumnTypeSchema` as a required field. */
  predicate ColumnTypeField(o: map<string, Json>, k: string)
  {
    k in o && o[k].JString? && RdbColumnTypeSchema(o[k].s)
  }

  /** `RdbColumnTypeInputSchema.nullish()`. */
  predicate NullishColumnTypeInput(o: map<string, Json>, k: string)
  {
    k !in o || o[k].JNull? || (o[k].JString? && RdbColumnTypeInputSchema(o[k].s))
  }

  /** `z.literal(lit).optional()`: missing or exactly the literal. */
  predicate OptionalLiteral(o: map<string, Json>, k: string, lit: string)
  {
    k !in o || o[k] == JString(lit)
  }

  // ---------------------------------------------------------------------
  // Reading fields out of an accepted value

  function GetString(o: map<string, Json>, k: string): string
    requires StringField(o, k)
  {
    o[k].s
  }

  function GetNullishString(o: map<string, Json>, k: string): (r: InputMaybe<string>)
    requires NullishString(o, k)
    ensures r.Absent? <==> k !in o
    ensures r.ExplicitNull? <==> k in o && o[k].JNull?
    ensures r.Given? <==> k in o && o[k].JString?
    ensures r.Given? ==> o[k] == JString(r.value)
  {
    if k !in o then Absent
    else if o[k].JString? then Given(o[k].s)
    else ExplicitNull
  }

  function GetBoolean(o: map<string, Json>, k: string): bool
    requires BooleanField(o, k)
  {
    o[k].b
  }

  function GetNullishBoolean(o: map<string, Json>, k: string): (r: InputMaybe<bool>)
    requires NullishBoolean(o, k)
    ensures r.Absent? <==> k !in o
    ensures r.ExplicitNull? <==> k in o && o[k].JNull?
    ensures r.Given? ==> o[k] == JBool(r.value)
  {
    if k !in o then Absent
    else if o[k].JBool? then Given(o[k].b)
    else ExplicitNull
  }

  function GetColumnType(o: map<string, Json>, k: string): (r: ColumnType)
    requires ColumnTypeField(o, k)
    ensures o[k] == JString(ColumnTypeName(r))
  {
    ParseColumnType(o[k].s).value
  }

  function GetNullishColumnType(o: map<string, Json>, k: string): (r: InputMaybe<ColumnType>)
    requires NullishColumnTypeInput(o, k)
    ensures r.Absent? <==> k !in o
    ensures r.ExplicitNull? <==> k in o && o[k].JNull?
    ensures r.Given? ==> o[k] == JString(ColumnTypeName(r.value))
  {
    if k !in o then Absent
    else if o[k].JString? then Given(ParseColumnType(o[k].s).value)
    else ExplicitNull
  }

  // ---------------------------------------------------------------------
  // Writing fields

  /** The object entries of the optional fields `fs`: a missing field
      writes no key, an explicit null writes `null`. */
  function NullishFields(fs: map<string, InputMaybe<Json>>): map<string, Json>
  {
    map k | k in fs && !fs[k].Absent? :: if fs[k].Given? then fs[k].value else JNull
  }

  function StringInput(f: InputMaybe<string>): InputMaybe<Json>
  {
    match f
    case Absent => Absent
    case ExplicitNull => ExplicitNull
    case Given(v) => Given(JString(v))
  }

  function BooleanInput(f: InputMaybe<bool>): InputMaybe<Json>
  {
    match f
    case Absent => Absent
    case ExplicitNull => ExplicitNull
    case Given(v) => Given(JBool(v))
  }

  function ColumnTypeInput(f: InputMaybe<ColumnType>): InputMaybe<Json>
  {
    match f
    case Absent => Absent
    case ExplicitNull => ExplicitNull
    case Given(v) => Given(JString(ColumnTypeName(v)))
  }

  function NullableStringValue(v: Nullable<string>): Json
  {
    match v
    case Null => JNull
    case NonNull(s) => JString(s)
  }

  // ---------------------------------------------------------------------
  // The keys each input schema declares: `parse` keeps these and drops
  // every other key of the object.

  const SetSpecInputKeys: set<string> := {"description", "name"}
  const AddQuerySpecificationInputKeys: set<string> := {"id", "queryExample", "querySchema"}
  const UpdateQuerySchemaInputKeys: set<string> := {"id", "querySchema"}
  const UpdateQueryExampleInputKeys: set<string> := {"id", "queryExample"}
  const DeleteQuerySpecificationInputKeys: set<string> := {"id"}
  const AddQueryFilterParamInputKeys: set<string> := {"id", "name", "optional", "querySpecId", "type"}
  const UpdateFilterParamInputKeys: set<string> := {"id", "name", "optional", "querySpecId", "type"}
  const DeleteFilterParamInputKeys: set<string> := {"id", "querySpecId"}
  const SetQuerySpecNameInputKeys: set<string> := {"name", "querySpecId"}
  const AddRdbTableInputKeys: set<string> := {"id", "name"}
  const UpdateTableNameInputKeys: set<string> := {"id", "name"}
  const DeleteRdbTableInputKeys: set<string> := {"id"}
  const AddRdbColumnInputKeys: set<string> := {"description", "id", "name", "primaryKey", "sourceDocModel", "sourceProperty", "tableId", "type"}
  const UpdateRdbColumnInputKeys: set<string> := {"description", "id", "name", "primaryKey", "sourceDocModel", "sourceProperty", "tableId", "type"}
  const DeleteRdbColumnInputKeys: set<string> := {"id", "tableId"}

  // ---------------------------------------------------------------------
  // Input schemas, decoders and encoders, in the order the dispatch
  // switch lists the action types.

  // SetSpecInput
  predicate SetSpecInputSchema(j: Json)
  {
    j.JObject? && NullishString(j.fields, "description") && NullishString(j.fields, "name")
  }
  function DecodeSetSpecInput(j: Json): SetSpecInput
    requires SetSpecInputSchema(j)
  {
    SetSpecInput(GetNullishString(j.fields, "name"), GetNullishString(j.fields, "description"))
  }
  function EncodeSetSpecInput(i: SetSpecInput): Json
  {
    JObject(NullishFields(map["name" := StringInput(i.name), "description" := StringInput(i.description)]))
  }

  // AddQuerySpecificationInput
  predicate AddQuerySpecificationInputSchema(j: Json)
  {
    j.JObject? && StringField(j.fields, "id")
    && NullishString(j.fields, "queryExample") && NullishString(j.fields, "querySchema")
  }
  function DecodeAddQuerySpecificationInput(j: Json): AddQuerySpecificationInput
    requires AddQuerySpecificationInputSchema(j)
  {
    AddQuerySpecificationInput(GetString(j.fields, "id"),
      GetNullishString(j.fields, "querySchema"), GetNullishString(j.fields, "queryExample"))
  }
  function EncodeAddQuerySpecificationInput(i: AddQuerySpecificationInput): Json
  {
    JObject(map["id" := JString(i.id)]
            + NullishFields(map["querySchema" := StringInput(i.querySchema), "queryExample" := StringInput(i.queryExample)]))
  }

  // UpdateQuerySchemaInput
  predicate UpdateQuerySchemaInputSchema(j: Json)
  {
    j.JObject? && StringField(j.fields, "id") && NullishString(j.fields, "querySchema")
  }
  function DecodeUpdateQuerySchemaInput(j: Json): UpdateQuerySchemaInput
    requires UpdateQuerySchemaInputSchema(j)
  {
    UpdateQuerySchemaInput(GetString(j.fields, "id"), GetNullishString(j.fields, "querySchema"))
  }
  function EncodeUpdateQuerySchemaInput(i: UpdateQuerySchemaInput): Json
  {
    JObject(map["id" := JString(i.id)] + NullishFields(map["querySchema" := StringInput(i.querySchema)]))
  }

  // UpdateQueryExampleInput
  predicate UpdateQueryExampleInputSchema(j: Json)
  {
    j.JObject? && StringField(j.fields, "id") && NullishString(j.fields, "queryExample")
  }
  function DecodeUpdateQueryExampleInput(j: Json): UpdateQueryExampleInput
    requires UpdateQueryExampleInputSchema(j)
  {
    UpdateQueryExampleInput(GetString(j.fields, "id"), GetNullishString(j.fields, "queryExample"))
  }
  function EncodeUpdateQueryExampleInput(i: UpdateQueryExampleInput): Json
  {
    JObject(map["id" := JString(i.id)] + NullishFields(map["queryExample" := StringInput(i.queryExample)]))
  }

  // DeleteQuerySpecificationInput
  predicate DeleteQuerySpecificationInputSchema(j: Json)
  {
    j.JObject? && StringField(j.fields, "id")
  }
  function DecodeDeleteQuerySpecificationInput(j: Json): DeleteQuerySpecificationInput
    requires DeleteQuerySpecificationInputSchema(j)
  {
    DeleteQuerySpecificationInput(GetString(j.fields, "id"))
  }
  function EncodeDeleteQuerySpecificationInput(i: DeleteQuerySpecificationInput): Json
  {
    JObject(map["id" := JString(i.id)])
  }

  // AddQueryFilterParamInput
  predicate AddQueryFilterParamInputSchema(j: Json)
  {
    j.JObject? && StringField(j.fields, "id") && NullishString(j.fields, "name")
    && BooleanField(j.fields, "optional") && StringField(j.fields, "querySpecId")
    && NullishString(j.fields, "type")
  }
  function DecodeAddQueryFilterParamInput(j: Json): AddQueryFilterParamInput
    requires AddQueryFilterParamInputSchema(j)
  {
    AddQueryFilterParamInput(GetString(j.fields, "querySpecId"), GetString(j.fields, "id"),
      GetNullishString(j.fields, "name"), GetNullishString(j.fields, "type"),
      GetBoolean(j.fields, "optional"))
  }
  function EncodeAddQueryFilterParamInput(i: AddQueryFilterParamInput): Json
  {
    JObject(map["querySpecId" := JString(i.querySpecId), "id" := JString(i.id), "optional" := JBool(i.optional)]
            + NullishFields(map["name" := StringInput(i.name), "type" := StringInput(i.paramType)]))
  }

  // UpdateFilterParamInput
  predicate UpdateFilterParamInputSchema(j: Json)
  {
    j.JObject? && StringField(j.fields, "id") && NullishString(j.fields, "name")
    && NullishBoolean(j.fields, "optional") && StringField(j.fields, "querySpecId")
    && NullishString(j.fields, "type")
  }
  function DecodeUpdateFilterParamInput(j: Json): UpdateFilterParamInput
    requires UpdateFilterParamInputSchema(j)
  {
    UpdateFilterParamInput(GetString(j.fields, "querySpecId"), GetString(j.fields, "id"),
      GetNullishString(j.fields, "name"), GetNullishString(j.fields, "type"),
      GetNullishBoolean(j.fields, "optional"))
  }
  function EncodeUpdateFilterParamInput(i: UpdateFilterParamInput): Json
  {
    JObject(map["querySpecId" := JString(i.querySpecId), "id" := JString(i.id)]
            + NullishFields(map["name" := StringInput(i.name), "type" := StringInput(i.paramType),
                                "optional" := BooleanInput(i.optional)]))
  }

  // DeleteFilterParamInput
  predicate DeleteFilterParamInputSchema(j: Json)
  {
    j.JObject? && StringField(j.fields, "id") && StringField(j.fields, "querySpecId")
  }
  function DecodeDeleteFilterParamInput(j: Json): DeleteFilterParamInput
    requires DeleteFilterParamInputSchema(j)
  {
    DeleteFilterParamInput(GetString(j.fields, "querySpecId"), GetString(j.fields, "id"))
  }
  function EncodeDeleteFilterParamInput(i: DeleteFilterParamInput): Json
  {
    JObject(map["querySpecId" := JString(i.querySpecId), "id" := JString(i.id)])
  }

  // SetQuerySpecNameInput
  predicate SetQuerySpecNameInputSchema(j: Json)
  {
    j.JObject? && NullishString(j.fields, "name") && StringField(j.fields, "querySpecId")
  }
  function DecodeSetQuerySpecNameInput(j: Json): SetQuerySpecNameInput
    requires SetQuerySpecNameInputSchema(j)
  {
    SetQuerySpecNameInput(GetString(j.fields, "querySpecId"), GetNullishString(j.fields, "name"))
  }
  function EncodeSetQuerySpecNameInput(i: SetQuerySpecNameInput): Json
  {
    JObject(map["querySpecId" := JString(i.querySpecId)] + NullishFields(map["name" := StringInput(i.name)]))
  }

  // AddRdbTableInput
  predicate AddRdbTableInputSchema(j: Json)
  {
    j.JObject? && StringField(j.fields, "id") && NullishString(j.fields, "name")
  }
  function DecodeAddRdbTableInput(j: Json): AddRdbTableInput
    requires AddRdbTableInputSchema(j)
  {
    AddRdbTableInput(GetString(j.fields, "id"), GetNullishString(j.fields, "name"))
  }
  function EncodeAddRdbTableInput(i: AddRdbTableInput): Json
  {
    JObject(map["id" := JString(i.id)] + NullishFields(map["name" := StringInput(i.name)]))
  }

  // UpdateTableNameInput
  predicate UpdateTableNameInputSchema(j: Json)
  {
    j.JObject? && StringField(j.fields, "id") && NullishString(j.fields, "name")
  }
  function DecodeUpdateTableNameInput(j: Json): UpdateTableNameInput
    requires UpdateTableNameInputSchema(j)
  {
    UpdateTableNameInput(GetString(j.fields, "id"), GetNullishString(j.fields, "name"))
  }
  function EncodeUpdateTableNameInput(i: UpdateTableNameInput): Json
  {
    JObject(map["id" := JString(i.id)] + NullishFields(map["name" := StringInput(i.name)]))
  }

  // DeleteRdbTableInput
  predicate DeleteRdbTableInputSchema(j: Json)
  {
    j.JObject? && StringField(j.fields, "id")
  }
  function DecodeDeleteRdbTableInput(j: Json): DeleteRdbTableInput
    requires DeleteRdbTableInputSchema(j)
  {
    DeleteRdbTableInput(GetString(j.fields, "id"))
  }
  function EncodeDeleteRdbTableInput(i: DeleteRdbTableInput): Json
  {
    JObject(map["id" := JString(i.id)])
  }

  // AddRdbColumnInput
  predicate AddRdbColumnInputSchema(j: Json)
  {
    j.JObject? && NullishString(j.fields, "description") && StringField(j.fields, "id")
    && NullishString(j.fields, "name") && BooleanField(j.fields, "primaryKey")
    && NullishString(j.fields, "sourceDocModel") && NullishString(j.fields, "sourceProperty")
    && StringField(j.fields, "tableId") && ColumnTypeField(j.fields, "type")
  }
  function DecodeAddRdbColumnInput(j: Json): AddRdbColumnInput
    requires AddRdbColumnInputSchema(j)
  {
    AddRdbColumnInput(GetString(j.fields, "tableId"), GetString(j.fields, "id"),
      GetNullishString(j.fields, "name"), GetColumnType(j.fields, "type"),
      GetNullishString(j.fields, "description"), GetNullishString(j.fields, "sourceDocModel"),
      GetNullishString(j.fields, "sourceProperty"), GetBoolean(j.fields, "primaryKey"))
  }
  function EncodeAddRdbColumnInput(i: AddRdbColumnInput): Json
  {
    JObject(map["tableId" := JString(i.tableId), "id" := JString(i.id),
                "type" := JString(ColumnTypeName(i.columnType)), "primaryKey" := JBool(i.primaryKey)]
            + NullishFields(map["name" := StringInput(i.name), "description" := StringInput(i.description),
                                "sourceDocModel" := StringInput(i.sourceDocModel),
                                "sourceProperty" := StringInput(i.sourceProperty)]))
  }

  // UpdateRdbColumnInput
  predicate UpdateRdbColumnInputSchema(j: Json)
  {
    j.JObject? && NullishString(j.fields, "description") && StringField(j.fields, "id")
    && NullishString(j.fields, "name") && NullishBoolean(j.fields, "primaryKey")
    && NullishString(j.fields, "sourceDocModel") && NullishString(j.fields, "sourceProperty")
    && StringField(j.fields, "tableId") && NullishColumnTypeInput(j.fields, "type")
  }
  function DecodeUpdateRdbColumnInput(j: Json): UpdateRdbColumnInput
    requires UpdateRdbColumnInputSchema(j)
  {
    UpdateRdbColumnInput(GetString(j.fields, "tableId"), GetString(j.fields, "id"),
      GetNullishString(j.fields, "name"), GetNullishColumnType(j.fields, "type"),
      GetNullishString(j.fields, "description"), GetNullishString(j.fields, "sourceDocModel"),
      GetNullishString(j.fields, "sourceProperty"), GetNullishBoolean(j.fields, "primaryKey"))
  }
  function EncodeUpdateRdbColumnInput(i: UpdateRdbColumnInput): Json
  {
    JObject(map["tableId" := JString(i.tableId), "id" := JString(i.id)]
            + NullishFields(map["name" := StringInput(i.name), "type" := ColumnTypeInput(i.columnType),
                                "description" := StringInput(i.description),
                                "sourceDocModel" := StringInput(i.sourceDocModel),
                                "sourceProperty" := StringInput(i.sourceProperty),
                                "primaryKey" := BooleanInput(i.primaryKey)]))
  }

  // DeleteRdbColumnInput
  predicate DeleteRdbColumnInputSchema(j: Json)
  {
    j.JObject? && StringField(j.fields, "id") && StringField(j.fields, "tableId")
  }
  function DecodeDeleteRdbColumnInput(j: Json): DeleteRdbColumnInput
    requires DeleteRdbColumnInputSchema(j)
  {
    DeleteRdbColumnInput(GetString(j.fields, "tableId"), GetString(j.fields, "id"))
  }
  function EncodeDeleteRdbColumnInput(i: DeleteRdbColumnInput): Json
  {
    JObject(map["tableId" := JString(i.tableId), "id" := JString(i.id)])
  }

  // ---------------------------------------------------------------------
  // State-record schemas

  predicate QueryFilterParamSchema(j: Json)
  {
    j.JObject? && OptionalLiteral(j.fields, "__typename", "QueryFilterParam")
    && StringField(j.fields, "id") && NullableString(j.fields, "name")
    && BooleanField(j.fields, "optional") && NullableString(j.fields, "type")
  }

  predicate QuerySpecificationSchema(j: Json)
  {
    j.JObject? && OptionalLiteral(j.fields, "__typename", "QuerySpecification")
    && "filter" in j.fields && j.fields["filter"].JArray?
    && (forall k :: 0 <= k < |j.fields["filter"].items| ==> QueryFilterParamSchema(j.fields["filter"].items[k]))
    && StringField(j.fields, "id") && NullableString(j.fields, "name")
    && NullableString(j.fields, "queryExample") && NullableString(j.fields, "querySchema")
  }

  predicate RdbColumnSchema(j: Json)
  {
    j.JObject? && OptionalLiteral(j.fields, "__typename", "RdbColumn")
    && NullableString(j.fields, "description") && StringField(j.fields, "id")
    && NullableString(j.fields, "name") && BooleanField(j.fields, "primaryKey")
    && NullableString(j.fields, "sourceDocModel") && NullableString(j.fields, "sourceProperty")
    && ColumnTypeField(j.fields, "type")
  }

  predicate RdbTableSchema(j: Json)
  {
    j.JObject? && OptionalLiteral(j.fields, "__typename", "RdbTable")
    && "columns" in j.fields && j.fields["columns"].JArray?
    && (forall k :: 0 <= k < |j.fields["columns"].items| ==> RdbColumnSchema(j.fields["columns"].items[k]))
    && StringField(j.fields, "id") && NullableString(j.fields, "name")
  }

  predicate RdbProcessorSpecificationStateSchema(j: Json)
  {
    j.JObject? && OptionalLiteral(j.fields, "__typename", "RdbProcessorSpecificationState")
    && NullableString(j.fields, "description") && NullableString(j.fields, "name")
    && "querySpecifications" in j.fields && j.fields["querySpecifications"].JArray?
    && (forall k :: 0 <= k < |j.fields["querySpecifications"].items| ==>
          QuerySpecificationSchema(j.fields["querySpecifications"].items[k]))
    && "rdbSpecification" in j.fields && j.fields["rdbSpecification"].JArray?
    && (forall k :: 0 <= k < |j.fields["rdbSpecification"].items| ==>
          RdbTableSchema(j.fields["rdbSpecification"].items[k]))
  }

  // State encoders: the plain-object form of each state record.

  function EncodeFilterParam(p: QueryFilterParam): Json
  {
    JObject(map["id" := JString(p.id), "name" := NullableStringValue(p.name),
                "optional" := JBool(p.optional), "type" := NullableStringValue(p.paramType)])
  }

  function EncodeQuerySpecification(q: QuerySpecification): Json
  {
    JObject(map["id" := JString(q.id), "name" := NullableStringValue(q.name),
                "querySchema" := NullableStringValue(q.querySchema),
                "queryExample" := NullableStringValue(q.queryExample),
                "filter" := JArray(seq(|q.filter|, k requires 0 <= k < |q.filter| => EncodeFilterParam(q.filter[k])))])
  }

  function EncodeColumn(c: RdbColumn): Json
  {
    JObject(map["id" := JString(c.id), "name" := NullableStringValue(c.name),
                "type" := JString(ColumnTypeName(c.columnType)),
                "description" := NullableStringValue(c.description),
                "sourceDocModel" := NullableStringValue(c.sourceDocModel),
                "sourceProperty" := NullableStringValue(c.sourceProperty),
                "primaryKey" := JBool(c.primaryKey)])
  }

  function EncodeTable(t: RdbTable): Json
  {
    JObject(map["id" := JString(t.id), "name" := NullableStringValue(t.name),
                "columns" := JArray(seq(|t.columns|, k requires 0 <= k < |t.columns| => EncodeColumn(t.columns[k])))])
  }

  function EncodeState(s: GlobalState): Json
  {
    JObject(map["name" := NullableStringValue(s.name), "description" := NullableStringValue(s.description),
                "querySpecifications" := JArray(seq(|s.querySpecifications|, k requires 0 <= k < |s.querySpecifications| =>
                                                    EncodeQuerySpecification(s.querySpecifications[k]))),
                "rdbSpecification" := JArray(seq(|s.rdbSpecification|, k requires 0 <= k < |s.rdbSpecification| =>
                                                 EncodeTable(s.rdbSpecification[k])))])
  }
}
