# RdbProcessorSpecification reducer, modelled in Dafny

This project models the action reducer of the RdbProcessorSpecification
document model. The document's global state is a small tree:

- a root `name` and `description`;
- a list of query specifications, each owning a `filter` list of parameters;
- a list of RDB tables, each owning a list of columns.

Fifteen actions change that tree in place. The reducer works in three steps:

1. A document action, or a type tag it does not know, passes through unchanged.
2. Otherwise the action's input is checked against the object schema for its tag. A failed check throws before anything changes.
3. A passing input runs exactly one operation on the global state object:
   - `setSpec` for the metadata;
   - eight query-specification operations;
   - six RDB-specification operations.

The operations append, find the first entry with an id and patch it, or filter out every entry with an id.

Modules:

- `Values`: `Nullable` (a stored field that may be null), `InputMaybe` (an input field that is absent, explicitly null or given) and the update rules `Patch`/`PatchOr`.
- `Types`: the state records, the fifteen input records, the action union and its type tags.
- `Lists`: `find` and `filter` as loop methods (`Find`, `Filter`), each proved equal to a recursive reference function (`FirstIndex`, `RemoveAll`).
- `State`: the global state object the operations mutate (`GlobalStateObject`).
- `SpecificationMetadata`, `QuerySpecificationOps`, `RdbSpecificationOps`: each operation twice.
  - A specification function on the state value states what the operation does.
  - An `...Operation` method changes the state object in place and is proved to produce that function's result.
- `QuerySpecificationProperties`, `RdbSpecificationProperties`: lemmas that relate several operations.
- `Json`, `Schema`, `SchemaProperties`: the validation schemas as predicates over dynamic values.
  - A key missing from an object is an `undefined` field.
  - Each input schema has a decoder to the typed input and an encoder back, proved to round-trip in both directions: a typed input survives encoding and decoding, and an accepted object survives decoding and encoding up to the undeclared keys `parse` drops.
- `Factories`: `defaultGlobalState`, `defaultLocalState`, `createGlobalState`.
- `Reducer`, `ReducerProperties`: routing, the in-place `StateReducer` method and end-to-end properties.

Source cells are paths relative to the repository root. Below the table, `DM` is short for `document-models/rdb-processor-specification`.

## Model

| member | source | states |
|---|---|---|
| Values.OrNull | document-models/rdb-processor-specification/src/reducers/rdb-specification.ts:7 | `x ?? null` is non-null exactly when the input gave a value, and then holds that value |
| Values.OrDefault | document-models/rdb-processor-specification/src/reducers/rdb-specification.ts:43-55 | `x ?? d`, as in the update defaults `?? "String"` and `?? false` here and `optional ?? false` at `DM/src/reducers/query-specification.ts:51`, is the given value, or `d` when the input is absent or null |
| Values.Patch | document-models/rdb-processor-specification/src/reducers/specification-metadata.ts:5-10 | a nullable field is unchanged when the input field is absent, null when it is explicitly null, and the given value otherwise |
| Values.PatchOr | document-models/rdb-processor-specification/src/reducers/rdb-specification.ts:42-44 | a non-nullable field is unchanged when the input field is absent, the default when it is null, and the given value otherwise |
| Values.PatchIdempotent | document-models/rdb-processor-specification/src/reducers/specification-metadata.ts:5-10 | applying the same field patch twice equals applying it once |
| Values.PatchOrIdempotent | document-models/rdb-processor-specification/src/reducers/rdb-specification.ts:42-44 | the same for patches with a default |
| Types.ColumnTypeName | document-models/rdb-processor-specification/gen/schema/zod.ts:40-48 | parsing the wire name of a column type gives that type back |
| Types.ParseColumnType | document-models/rdb-processor-specification/gen/schema/zod.ts:40-48 | reads one of the seven wire names as its column type, and any other string as none |
| Types.ParseColumnTypeInverse | document-models/rdb-processor-specification/gen/schema/zod.ts:40-48 | whenever a string parses to a column type, the wire name of that type is the string itself |
| Lists.FirstIndex | document-models/rdb-processor-specification/src/reducers/query-specification.ts:14 | the result is an index whose id matches and no earlier entry matches; the result is none exactly when no entry matches |
| Lists.FirstIndexUnique | document-models/rdb-processor-specification/src/reducers/query-specification.ts:14 | any index that is the first match is the result of `FirstIndex` |
| Lists.FirstIndexSameKeys | document-models/rdb-processor-specification/src/reducers/query-specification.ts:14-17 | two lists with the same ids position by position have the same first match, so a patch that keeps ids keeps the lookup |
| Lists.RemoveAll | document-models/rdb-processor-specification/src/reducers/query-specification.ts:26 | the result holds only entries of the input without the id and every such entry; it is the input when nothing matches and shorter when something does |
| Lists.RemoveAllAppend | document-models/rdb-processor-specification/src/reducers/query-specification.ts:26 | filtering distributes over concatenation, so survivors keep their relative order |
| Lists.RemoveAllIdempotent | document-models/rdb-processor-specification/src/reducers/query-specification.ts:26 | filtering twice by the same id equals filtering once |
| Lists.RemoveAllAppended | document-models/rdb-processor-specification/src/reducers/query-specification.ts:4-27 | an entry appended and then filtered out by its own id leaves the filter of the earlier list |
| Lists.Find | document-models/rdb-processor-specification/src/reducers/query-specification.ts:14 | the `find` loop returns the first matching index, or none when no entry matches; it equals `FirstIndex` |
| Lists.Filter | document-models/rdb-processor-specification/src/reducers/query-specification.ts:26 | the `filter` loop keeps no entry with the id and equals `RemoveAll` |
| State.GlobalStateObject.constructor | document-models/rdb-processor-specification/gen/ph-factories.ts:14-21 | a new state object holds the given value |
| SpecificationMetadata.SetSpec | document-models/rdb-processor-specification/src/reducers/specification-metadata.ts:4-11 | name and description each follow the absent/null/value rule; both lists are untouched |
| SpecificationMetadata.SetSpecOperation | document-models/rdb-processor-specification/src/reducers/specification-metadata.ts:4-11 | the in-place update leaves the object holding `SetSpec` of its old value |
| SpecificationMetadata.SetSpecEmptyInput | document-models/rdb-processor-specification/src/reducers/specification-metadata.ts:4-11 | the empty input changes nothing |
| SpecificationMetadata.SetSpecFieldsIndependent | document-models/rdb-processor-specification/src/reducers/specification-metadata.ts:5-10 | setting name then description, in either order, equals setting both at once |
| SpecificationMetadata.SetSpecIdempotent | document-models/rdb-processor-specification/src/reducers/specification-metadata.ts:4-11 | repeating a `setSpec` changes nothing more |
| QuerySpecificationOps.NewQuerySpecification | document-models/rdb-processor-specification/src/reducers/query-specification.ts:5-11 | a new entry has the input id, name `""`, schema and example from the input or null, and an empty filter list |
| QuerySpecificationOps.AddQuerySpecification | document-models/rdb-processor-specification/src/reducers/query-specification.ts:4-12 | the list grows by one; earlier entries are unchanged and the new entry is last; no uniqueness check |
| QuerySpecificationOps.AddQuerySpecificationOperation | document-models/rdb-processor-specification/src/reducers/query-specification.ts:4-12 | the in-place push produces `AddQuerySpecification` of the old value |
| QuerySpecificationOps.UpdateQuerySchema | document-models/rdb-processor-specification/src/reducers/query-specification.ts:13-18 | an unknown id is a no-op; otherwise only the first match changes, by the present-only patch of `querySchema` |
| QuerySpecificationOps.UpdateQuerySchemaOperation | document-models/rdb-processor-specification/src/reducers/query-specification.ts:13-18 | find-then-assign produces `UpdateQuerySchema` of the old value |
| QuerySpecificationOps.UpdateQueryExample | document-models/rdb-processor-specification/src/reducers/query-specification.ts:19-24 | the same present-only, first-match rule for `queryExample` |
| QuerySpecificationOps.UpdateQueryExampleOperation | document-models/rdb-processor-specification/src/reducers/query-specification.ts:19-24 | find-then-assign produces `UpdateQueryExample` of the old value |
| QuerySpecificationOps.DeleteQuerySpecification | document-models/rdb-processor-specification/src/reducers/query-specification.ts:25-27 | every entry with the id is removed together with its filters; every other entry survives; the state is unchanged exactly when no entry has the id |
| QuerySpecificationOps.DeleteQuerySpecificationOperation | document-models/rdb-processor-specification/src/reducers/query-specification.ts:25-27 | the reassignment by `filter` produces `DeleteQuerySpecification` of the old value |
| QuerySpecificationOps.NewFilterParam | document-models/rdb-processor-specification/src/reducers/query-specification.ts:31-36 | a new parameter has the input id and `optional`; name and type come from the input or are null |
| QuerySpecificationOps.AddQueryFilterParam | document-models/rdb-processor-specification/src/reducers/query-specification.ts:28-38 | a missing parent is a no-op; otherwise the parameter is appended to the first matching parent's filter list only |
| QuerySpecificationOps.AddQueryFilterParamOperation | document-models/rdb-processor-specification/src/reducers/query-specification.ts:28-38 | find-then-push produces `AddQueryFilterParam` of the old value |
| QuerySpecificationOps.PatchFilterParam | document-models/rdb-processor-specification/src/reducers/query-specification.ts:44-52 | only present fields change; an explicit null `optional` becomes false; the id is kept |
| QuerySpecificationOps.UpdateFilterParam | document-models/rdb-processor-specification/src/reducers/query-specification.ts:39-55 | a missing parent or child is a no-op; otherwise only the first matching child of the first matching parent is patched |
| QuerySpecificationOps.UpdateFilterParamOperation | document-models/rdb-processor-specification/src/reducers/query-specification.ts:39-55 | the nested find-then-assign produces `UpdateFilterParam` of the old value |
| QuerySpecificationOps.DeleteFilterParam | document-models/rdb-processor-specification/src/reducers/query-specification.ts:56-61 | a missing parent is a no-op; otherwise every child with the id is removed from that parent only |
| QuerySpecificationOps.DeleteFilterParamOperation | document-models/rdb-processor-specification/src/reducers/query-specification.ts:56-61 | find-then-filter produces `DeleteFilterParam` of the old value |
| QuerySpecificationOps.SetQuerySpecName | document-models/rdb-processor-specification/src/reducers/query-specification.ts:62-69 | a missing entry is a no-op; otherwise the first match's name follows the present-only patch |
| QuerySpecificationOps.SetQuerySpecNameOperation | document-models/rdb-processor-specification/src/reducers/query-specification.ts:62-69 | find-then-assign produces `SetQuerySpecName` of the old value |
| QuerySpecificationProperties.AddQuerySpecificationThenDelete | document-models/rdb-processor-specification/src/reducers/query-specification.ts:4-27 | deleting a freshly added id that was not used before restores the state |
| QuerySpecificationProperties.UpdateAfterDeleteIsNoOp | document-models/rdb-processor-specification/src/reducers/query-specification.ts:13-27 | after a delete, updating the schema or example of that id changes nothing |
| QuerySpecificationProperties.UpdateQuerySchemaAbsentIsNoOp | document-models/rdb-processor-specification/src/reducers/query-specification.ts:15 | an update with `querySchema` absent changes nothing |
| QuerySpecificationProperties.UpdateQuerySchemaIdempotent | document-models/rdb-processor-specification/src/reducers/query-specification.ts:13-18 | repeating a schema update changes nothing more |
| QuerySpecificationProperties.UpdateQueryExampleIdempotent | document-models/rdb-processor-specification/src/reducers/query-specification.ts:19-24 | repeating an example update changes nothing more |
| QuerySpecificationProperties.DeleteQuerySpecificationIdempotent | document-models/rdb-processor-specification/src/reducers/query-specification.ts:25-27 | repeating a delete changes nothing more |
| QuerySpecificationProperties.DeleteFilterParamKeepsOrder | document-models/rdb-processor-specification/src/reducers/query-specification.ts:56-61 | in the parent query, a surviving parameter stays between the survivors before and after it |
| QuerySpecificationProperties.DeleteQuerySpecificationKeepsOrder | document-models/rdb-processor-specification/src/reducers/query-specification.ts:25-27 | a surviving entry stays between the survivors that came before it and those that came after it |
| QuerySpecificationProperties.UpdateFirstDeleteEvery | document-models/rdb-processor-specification/src/reducers/query-specification.ts:13-27 | with a duplicated id, an update leaves the later duplicate untouched while a delete removes both |
| QuerySpecificationProperties.AddQueryFilterParamInOrder | document-models/rdb-processor-specification/src/reducers/query-specification.ts:28-38 | two parameter adds to one parent append both, in call order |
| QuerySpecificationProperties.AddQueryFilterParamThenDelete | document-models/rdb-processor-specification/src/reducers/query-specification.ts:28-61 | deleting a freshly added, previously unused parameter id restores the state |
| QuerySpecificationProperties.UpdateFilterParamIdempotent | document-models/rdb-processor-specification/src/reducers/query-specification.ts:39-55 | repeating a parameter update changes nothing more |
| QuerySpecificationProperties.SetQuerySpecNameIdempotent | document-models/rdb-processor-specification/src/reducers/query-specification.ts:62-69 | repeating a rename changes nothing more |
| RdbSpecificationOps.NewTable | document-models/rdb-processor-specification/src/reducers/rdb-specification.ts:5-9 | a new table has the input id, the name or null, and no columns |
| RdbSpecificationOps.AddRdbTable | document-models/rdb-processor-specification/src/reducers/rdb-specification.ts:4-10 | the table list grows by one; earlier tables are unchanged and the new one is last; duplicate ids are not checked |
| RdbSpecificationOps.AddRdbTableOperation | document-models/rdb-processor-specification/src/reducers/rdb-specification.ts:4-10 | the in-place push produces `AddRdbTable` of the old value |
| RdbSpecificationOps.UpdateTableName | document-models/rdb-processor-specification/src/reducers/rdb-specification.ts:11-16 | an unknown id is a no-op; otherwise only the first match is renamed, by the present-only patch |
| RdbSpecificationOps.UpdateTableNameOperation | document-models/rdb-processor-specification/src/reducers/rdb-specification.ts:11-16 | find-then-assign produces `UpdateTableName` of the old value |
| RdbSpecificationOps.DeleteRdbTable | document-models/rdb-processor-specification/src/reducers/rdb-specification.ts:17-19 | every table with the id is removed and every other table survives; unchanged exactly when no table has the id |
| RdbSpecificationOps.DeleteRdbTableOperation | document-models/rdb-processor-specification/src/reducers/rdb-specification.ts:17-19 | the reassignment by `filter` produces `DeleteRdbTable` of the old value |
| RdbSpecificationOps.NewColumn | document-models/rdb-processor-specification/src/reducers/rdb-specification.ts:23-31 | a new column carries the input id, type and primary-key flag; its four optional strings come from the input or are null |
| RdbSpecificationOps.AddRdbColumn | document-models/rdb-processor-specification/src/reducers/rdb-specification.ts:20-33 | a missing table is a no-op; otherwise exactly one column is appended to the first matching table and nothing else changes |
| RdbSpecificationOps.AddRdbColumnOperation | document-models/rdb-processor-specification/src/reducers/rdb-specification.ts:20-33 | find-then-push produces `AddRdbColumn` of the old value |
| RdbSpecificationOps.PatchColumn | document-models/rdb-processor-specification/src/reducers/rdb-specification.ts:39-56 | only present fields change; an explicit null type becomes `String`, an explicit null primary key becomes false, other explicit nulls become null |
| RdbSpecificationOps.UpdateRdbColumn | document-models/rdb-processor-specification/src/reducers/rdb-specification.ts:34-59 | a missing table or column is a no-op; otherwise only the first matching column of the first matching table is patched, and its siblings are unchanged |
| RdbSpecificationOps.UpdateRdbColumnOperation | document-models/rdb-processor-specification/src/reducers/rdb-specification.ts:34-59 | the field-by-field assignments produce `UpdateRdbColumn` of the old value |
| RdbSpecificationOps.DeleteRdbColumn | document-models/rdb-processor-specification/src/reducers/rdb-specification.ts:60-65 | a missing table is a no-op; otherwise every column with the id is removed from that table only and the rest survive |
| RdbSpecificationOps.DeleteRdbColumnOperation | document-models/rdb-processor-specification/src/reducers/rdb-specification.ts:60-65 | find-then-filter produces `DeleteRdbColumn` of the old value |
| RdbSpecificationProperties.AddRdbTableThenDelete | document-models/rdb-processor-specification/src/reducers/rdb-specification.ts:4-19 | deleting a freshly added, previously unused table id restores the state |
| RdbSpecificationProperties.DeletedTableUnreachable | document-models/rdb-processor-specification/src/reducers/rdb-specification.ts:17-19 | after a table delete its columns cannot be reached: column adds, updates and deletes naming it are no-ops |
| RdbSpecificationProperties.UpdateTableNameIdempotent | document-models/rdb-processor-specification/src/reducers/rdb-specification.ts:11-16 | repeating a rename changes nothing more |
| RdbSpecificationProperties.DeleteRdbTableIdempotent | document-models/rdb-processor-specification/src/reducers/rdb-specification.ts:17-19 | repeating a table delete changes nothing more |
| RdbSpecificationProperties.NewColumns | document-models/rdb-processor-specification/src/reducers/rdb-specification.ts:23-31 | the columns built from a list of inputs, one per input, in order |
| RdbSpecificationProperties.ColumnsAppendedTrans | document-models/rdb-processor-specification/src/reducers/rdb-specification.ts:20-33 | appending `c1` and then `c2` to one table appends `c1 + c2` |
| RdbSpecificationProperties.AddRdbColumnsInOrder | document-models/rdb-processor-specification/src/reducers/rdb-specification.ts:20-33 | any number of adds to one existing table append one column per call, in call order; the count grows by the number of calls and other tables are unchanged |
| RdbSpecificationProperties.AddRdbColumnThenDelete | document-models/rdb-processor-specification/src/reducers/rdb-specification.ts:20-65 | deleting a freshly added, previously unused column id restores the state |
| RdbSpecificationProperties.UpdateRdbColumnIdempotent | document-models/rdb-processor-specification/src/reducers/rdb-specification.ts:34-59 | repeating a column update changes nothing more |
| RdbSpecificationProperties.DeleteRdbTableKeepsOrder | document-models/rdb-processor-specification/src/reducers/rdb-specification.ts:17-19 | a surviving table stays between the survivors before and after it |
| RdbSpecificationProperties.DeleteRdbColumnKeepsOrder | document-models/rdb-processor-specification/src/reducers/rdb-specification.ts:60-65 | a surviving column stays between the survivors before and after it |
| Json.Restrict | document-models/rdb-processor-specification/gen/schema/zod.ts:63 | the copy an object schema returns keeps exactly the declared keys that were present, with their values |
| Schema.RdbColumnTypeSchema | document-models/rdb-processor-specification/gen/schema/zod.ts:40-48 | a column type in a state record is one of the seven names `Boolean`, `Date`, `DateTime`, `Float`, `Int`, `String`, `Text` |
| Schema.RdbColumnTypeInputSchema | document-models/rdb-processor-specification/gen/schema/zod.ts:50-58 | a column type in an input is one of the same seven names |
| Schema.ColumnTypeEnumsAgree | document-models/rdb-processor-specification/gen/schema/zod.ts:40-58 | both enums accept exactly the same seven names, which are exactly the names of the column types |
| Schema.GetNullishString | document-models/rdb-processor-specification/gen/schema/zod.ts:65 | a nullish string reads as absent when the key is missing, explicit null when it holds null, and given when it holds a string |
| Schema.GetNullishBoolean | document-models/rdb-processor-specification/gen/schema/zod.ts:221 | the same for a nullish boolean |
| Schema.GetColumnType | document-models/rdb-processor-specification/gen/schema/zod.ts:93 | an accepted enum field reads as the type whose wire name it holds |
| Schema.GetNullishColumnType | document-models/rdb-processor-specification/gen/schema/zod.ts:256 | a nullish enum field reads as absent, explicit null or the named type |
| SchemaProperties.ReadString | document-models/rdb-processor-specification/gen/schema/zod.ts:65 | an optional string written next to the required fields passes its field check and reads back as written |
| SchemaProperties.ReadBoolean | document-models/rdb-processor-specification/gen/schema/zod.ts:221 | the same for an optional boolean |
| SchemaProperties.ReadColumnType | document-models/rdb-processor-specification/gen/schema/zod.ts:256 | the same for an optional column type |
| Schema.SetSpecInputSchema | document-models/rdb-processor-specification/gen/schema/zod.ts:208-213 | an object that accepts `name` and `description` missing, null or strings; allows any other key |
| Schema.DecodeSetSpecInput | document-models/rdb-processor-specification/gen/schema/zod.ts:208-213 | reads the typed input out of an accepted object: `name` and `description` as absent when missing, explicit null when null, and given otherwise |
| Schema.EncodeSetSpecInput | document-models/rdb-processor-specification/gen/schema/zod.ts:208-213 | writes a typed input as an object with exactly the declared keys it needs: `name` and `description` only when not absent, as null when explicitly null |
| SchemaProperties.SetSpecInputRoundTrip | document-models/rdb-processor-specification/gen/schema/zod.ts:208-213 | every typed input, encoded, passes the schema and decodes to itself |
| SchemaProperties.SetSpecInputDecodeEncode | document-models/rdb-processor-specification/gen/schema/zod.ts:208-213 | every object the schema accepts, decoded and encoded again, is the object `parse` returns: the declared keys that were present, with their values, and no other key |
| Schema.AddQuerySpecificationInputSchema | document-models/rdb-processor-specification/gen/schema/zod.ts:72-80 | an object that requires `id` as a string; accepts `querySchema` and `queryExample` missing, null or strings; allows any other key |
| Schema.DecodeAddQuerySpecificationInput | document-models/rdb-processor-specification/gen/schema/zod.ts:72-80 | reads the typed input out of an accepted object: `id` as a plain value; `querySchema` and `queryExample` as absent when missing, explicit null when null, and given otherwise |
| Schema.EncodeAddQuerySpecificationInput | document-models/rdb-processor-specification/gen/schema/zod.ts:72-80 | writes a typed input as an object with exactly the declared keys it needs: `id` always; `querySchema` and `queryExample` only when not absent, as null when explicitly null |
| SchemaProperties.AddQuerySpecificationInputRoundTrip | document-models/rdb-processor-specification/gen/schema/zod.ts:72-80 | the same round trip |
| SchemaProperties.AddQuerySpecificationInputDecodeEncode | document-models/rdb-processor-specification/gen/schema/zod.ts:72-80 | the converse round trip: decoding then encoding an accepted object gives its parsed copy |
| Schema.UpdateQuerySchemaInputSchema | document-models/rdb-processor-specification/gen/schema/zod.ts:236-243 | an object that requires `id` as a string; accepts `querySchema` missing, null or a string; allows any other key |
| Schema.DecodeUpdateQuerySchemaInput | document-models/rdb-processor-specification/gen/schema/zod.ts:236-243 | reads the typed input out of an accepted object: `id` as a plain value; `querySchema` as absent when missing, explicit null when null, and given otherwise |
| Schema.EncodeUpdateQuerySchemaInput | document-models/rdb-processor-specification/gen/schema/zod.ts:236-243 | writes a typed input as an object with exactly the declared keys it needs: `id` always; `querySchema` only when not absent, as null when explicitly null |
| SchemaProperties.UpdateQuerySchemaInputRoundTrip | document-models/rdb-processor-specification/gen/schema/zod.ts:236-243 | the same round trip |
| SchemaProperties.UpdateQuerySchemaInputDecodeEncode | document-models/rdb-processor-specification/gen/schema/zod.ts:236-243 | the converse round trip: decoding then encoding an accepted object gives its parsed copy |
| Schema.UpdateQueryExampleInputSchema | document-models/rdb-processor-specification/gen/schema/zod.ts:227-234 | an object that requires `id` as a string; accepts `queryExample` missing, null or a string; allows any other key |
| Schema.DecodeUpdateQueryExampleInput | document-models/rdb-processor-specification/gen/schema/zod.ts:227-234 | reads the typed input out of an accepted object: `id` as a plain value; `queryExample` as absent when missing, explicit null when null, and given otherwise |
| Schema.EncodeUpdateQueryExampleInput | document-models/rdb-processor-specification/gen/schema/zod.ts:227-234 | writes a typed input as an object with exactly the declared keys it needs: `id` always; `queryExample` only when not absent, as null when explicitly null |
| SchemaProperties.UpdateQueryExampleInputRoundTrip | document-models/rdb-processor-specification/gen/schema/zod.ts:227-234 | the same round trip |
| SchemaProperties.UpdateQueryExampleInputDecodeEncode | document-models/rdb-processor-specification/gen/schema/zod.ts:227-234 | the converse round trip: decoding then encoding an accepted object gives its parsed copy |
| Schema.DeleteQuerySpecificationInputSchema | document-models/rdb-processor-specification/gen/schema/zod.ts:115-121 | an object that requires `id` as a string; allows any other key |
| Schema.DecodeDeleteQuerySpecificationInput | document-models/rdb-processor-specification/gen/schema/zod.ts:115-121 | reads the typed input out of an accepted object: `id` as a plain value |
| Schema.EncodeDeleteQuerySpecificationInput | document-models/rdb-processor-specification/gen/schema/zod.ts:115-121 | writes a typed input as an object with exactly the declared keys it needs: `id` always |
| SchemaProperties.DeleteQuerySpecificationInputRoundTrip | document-models/rdb-processor-specification/gen/schema/zod.ts:115-121 | the same round trip |
| SchemaProperties.DeleteQuerySpecificationInputDecodeEncode | document-models/rdb-processor-specification/gen/schema/zod.ts:115-121 | the converse round trip: decoding then encoding an accepted object gives its parsed copy |
| Schema.AddQueryFilterParamInputSchema | document-models/rdb-processor-specification/gen/schema/zod.ts:60-70 | an object that requires `querySpecId` and `id` as strings; requires `optional` as a boolean; accepts `name` and `type` missing, null or of the declared type; allows any other key |
| Schema.DecodeAddQueryFilterParamInput | document-models/rdb-processor-specification/gen/schema/zod.ts:60-70 | reads the typed input out of an accepted object: `querySpecId`, `id` and `optional` as plain values; `name` and `type` as absent when missing, explicit null when null, and given otherwise |
| Schema.EncodeAddQueryFilterParamInput | document-models/rdb-processor-specification/gen/schema/zod.ts:60-70 | writes a typed input as an object with exactly the declared keys it needs: `querySpecId`, `id` and `optional` always; `name` and `type` only when not absent, as null when explicitly null |
| SchemaProperties.AddQueryFilterParamInputRoundTrip | document-models/rdb-processor-specification/gen/schema/zod.ts:60-70 | the same round trip |
| SchemaProperties.AddQueryFilterParamInputDecodeEncode | document-models/rdb-processor-specification/gen/schema/zod.ts:60-70 | the converse round trip: decoding then encoding an accepted object gives its parsed copy |
| Schema.UpdateFilterParamInputSchema | document-models/rdb-processor-specification/gen/schema/zod.ts:215-225 | an object that requires `querySpecId` and `id` as strings; accepts `name`, `type` and `optional` missing, null or of the declared type; allows any other key |
| Schema.DecodeUpdateFilterParamInput | document-models/rdb-processor-specification/gen/schema/zod.ts:215-225 | reads the typed input out of an accepted object: `querySpecId` and `id` as plain values; `name`, `type` and `optional` as absent when missing, explicit null when null, and given otherwise |
| Schema.EncodeUpdateFilterParamInput | document-models/rdb-processor-specification/gen/schema/zod.ts:215-225 | writes a typed input as an object with exactly the declared keys it needs: `querySpecId` and `id` always; `name`, `type` and `optional` only when not absent, as null when explicitly null |
| SchemaProperties.UpdateFilterParamInputRoundTrip | document-models/rdb-processor-specification/gen/schema/zod.ts:215-225 | the same round trip |
| SchemaProperties.UpdateFilterParamInputDecodeEncode | document-models/rdb-processor-specification/gen/schema/zod.ts:215-225 | the converse round trip: decoding then encoding an accepted object gives its parsed copy |
| Schema.DeleteFilterParamInputSchema | document-models/rdb-processor-specification/gen/schema/zod.ts:106-113 | an object that requires `querySpecId` and `id` as strings; allows any other key |
| Schema.DecodeDeleteFilterParamInput | document-models/rdb-processor-specification/gen/schema/zod.ts:106-113 | reads the typed input out of an accepted object: `querySpecId` and `id` as plain values |
| Schema.EncodeDeleteFilterParamInput | document-models/rdb-processor-specification/gen/schema/zod.ts:106-113 | writes a typed input as an object with exactly the declared keys it needs: `querySpecId` and `id` always |
| SchemaProperties.DeleteFilterParamInputRoundTrip | document-models/rdb-processor-specification/gen/schema/zod.ts:106-113 | the same round trip |
| SchemaProperties.DeleteFilterParamInputDecodeEncode | document-models/rdb-processor-specification/gen/schema/zod.ts:106-113 | the converse round trip: decoding then encoding an accepted object gives its parsed copy |
| Schema.SetQuerySpecNameInputSchema | document-models/rdb-processor-specification/gen/schema/zod.ts:199-206 | an object that requires `querySpecId` as a string; accepts `name` missing, null or a string; allows any other key |
| Schema.DecodeSetQuerySpecNameInput | document-models/rdb-processor-specification/gen/schema/zod.ts:199-206 | reads the typed input out of an accepted object: `querySpecId` as a plain value; `name` as absent when missing, explicit null when null, and given otherwise |
| Schema.EncodeSetQuerySpecNameInput | document-models/rdb-processor-specification/gen/schema/zod.ts:199-206 | writes a typed input as an object with exactly the declared keys it needs: `querySpecId` always; `name` only when not absent, as null when explicitly null |
| SchemaProperties.SetQuerySpecNameInputRoundTrip | document-models/rdb-processor-specification/gen/schema/zod.ts:199-206 | the same round trip |
| SchemaProperties.SetQuerySpecNameInputDecodeEncode | document-models/rdb-processor-specification/gen/schema/zod.ts:199-206 | the converse round trip: decoding then encoding an accepted object gives its parsed copy |
| Schema.AddRdbTableInputSchema | document-models/rdb-processor-specification/gen/schema/zod.ts:97-104 | an object that requires `id` as a string; accepts `name` missing, null or a string; allows any other key |
| Schema.DecodeAddRdbTableInput | document-models/rdb-processor-specification/gen/schema/zod.ts:97-104 | reads the typed input out of an accepted object: `id` as a plain value; `name` as absent when missing, explicit null when null, and given otherwise |
| Schema.EncodeAddRdbTableInput | document-models/rdb-processor-specification/gen/schema/zod.ts:97-104 | writes a typed input as an object with exactly the declared keys it needs: `id` always; `name` only when not absent, as null when explicitly null |
| SchemaProperties.AddRdbTableInputRoundTrip | document-models/rdb-processor-specification/gen/schema/zod.ts:97-104 | the same round trip |
| SchemaProperties.AddRdbTableInputDecodeEncode | document-models/rdb-processor-specification/gen/schema/zod.ts:97-104 | the converse round trip: decoding then encoding an accepted object gives its parsed copy |
| Schema.UpdateTableNameInputSchema | document-models/rdb-processor-specification/gen/schema/zod.ts:260-267 | an object that requires `id` as a string; accepts `name` missing, null or a string; allows any other key |
| Schema.DecodeUpdateTableNameInput | document-models/rdb-processor-specification/gen/schema/zod.ts:260-267 | reads the typed input out of an accepted object: `id` as a plain value; `name` as absent when missing, explicit null when null, and given otherwise |
| Schema.EncodeUpdateTableNameInput | document-models/rdb-processor-specification/gen/schema/zod.ts:260-267 | writes a typed input as an object with exactly the declared keys it needs: `id` always; `name` only when not absent, as null when explicitly null |
| SchemaProperties.UpdateTableNameInputRoundTrip | document-models/rdb-processor-specification/gen/schema/zod.ts:260-267 | the same round trip |
| SchemaProperties.UpdateTableNameInputDecodeEncode | document-models/rdb-processor-specification/gen/schema/zod.ts:260-267 | the converse round trip: decoding then encoding an accepted object gives its parsed copy |
| Schema.DeleteRdbTableInputSchema | document-models/rdb-processor-specification/gen/schema/zod.ts:132-138 | an object that requires `id` as a string; allows any other key |
| Schema.DecodeDeleteRdbTableInput | document-models/rdb-processor-specification/gen/schema/zod.ts:132-138 | reads the typed input out of an accepted object: `id` as a plain value |
| Schema.EncodeDeleteRdbTableInput | document-models/rdb-processor-specification/gen/schema/zod.ts:132-138 | writes a typed input as an object with exactly the declared keys it needs: `id` always |
| SchemaProperties.DeleteRdbTableInputRoundTrip | document-models/rdb-processor-specification/gen/schema/zod.ts:132-138 | the same round trip |
| SchemaProperties.DeleteRdbTableInputDecodeEncode | document-models/rdb-processor-specification/gen/schema/zod.ts:132-138 | the converse round trip: decoding then encoding an accepted object gives its parsed copy |
| Schema.AddRdbColumnInputSchema | document-models/rdb-processor-specification/gen/schema/zod.ts:82-95 | an object that requires `tableId` and `id` as strings; requires `type` as a column-type name; requires `primaryKey` as a boolean; accepts `name`, `description`, `sourceDocModel` and `sourceProperty` missing, null or strings; allows any other key |
| Schema.DecodeAddRdbColumnInput | document-models/rdb-processor-specification/gen/schema/zod.ts:82-95 | reads the typed input out of an accepted object: `tableId`, `id`, `type` and `primaryKey` as plain values; `name`, `description`, `sourceDocModel` and `sourceProperty` as absent when missing, explicit null when null, and given otherwise |
| Schema.EncodeAddRdbColumnInput | document-models/rdb-processor-specification/gen/schema/zod.ts:82-95 | writes a typed input as an object with exactly the declared keys it needs: `tableId`, `id`, `type` and `primaryKey` always; `name`, `description`, `sourceDocModel` and `sourceProperty` only when not absent, as null when explicitly null |
| SchemaProperties.AddRdbColumnInputRoundTrip | document-models/rdb-processor-specification/gen/schema/zod.ts:82-95 | the same round trip |
| SchemaProperties.AddRdbColumnInputDecodeEncode | document-models/rdb-processor-specification/gen/schema/zod.ts:82-95 | the converse round trip: decoding then encoding an accepted object gives its parsed copy |
| Schema.UpdateRdbColumnInputSchema | document-models/rdb-processor-specification/gen/schema/zod.ts:245-258 | an object that requires `tableId` and `id` as strings; accepts `name`, `type`, `description`, `sourceDocModel`, `sourceProperty` and `primaryKey` missing, null or of the declared type; allows any other key |
| Schema.DecodeUpdateRdbColumnInput | document-models/rdb-processor-specification/gen/schema/zod.ts:245-258 | reads the typed input out of an accepted object: `tableId` and `id` as plain values; `name`, `type`, `description`, `sourceDocModel`, `sourceProperty` and `primaryKey` as absent when missing, explicit null when null, and given otherwise |
| Schema.EncodeUpdateRdbColumnInput | document-models/rdb-processor-specification/gen/schema/zod.ts:245-258 | writes a typed input as an object with exactly the declared keys it needs: `tableId` and `id` always; `name`, `type`, `description`, `sourceDocModel`, `sourceProperty` and `primaryKey` only when not absent, as null when explicitly null |
| SchemaProperties.UpdateRdbColumnInputRoundTrip | document-models/rdb-processor-specification/gen/schema/zod.ts:245-258 | the same round trip |
| SchemaProperties.UpdateRdbColumnInputDecodeEncode | document-models/rdb-processor-specification/gen/schema/zod.ts:245-258 | the converse round trip: decoding then encoding an accepted object gives its parsed copy |
| Schema.DeleteRdbColumnInputSchema | document-models/rdb-processor-specification/gen/schema/zod.ts:123-130 | an object that requires `tableId` and `id` as strings; allows any other key |
| Schema.DecodeDeleteRdbColumnInput | document-models/rdb-processor-specification/gen/schema/zod.ts:123-130 | reads the typed input out of an accepted object: `tableId` and `id` as plain values |
| Schema.EncodeDeleteRdbColumnInput | document-models/rdb-processor-specification/gen/schema/zod.ts:123-130 | writes a typed input as an object with exactly the declared keys it needs: `tableId` and `id` always |
| SchemaProperties.DeleteRdbColumnInputRoundTrip | document-models/rdb-processor-specification/gen/schema/zod.ts:123-130 | the same round trip |
| SchemaProperties.DeleteRdbColumnInputDecodeEncode | document-models/rdb-processor-specification/gen/schema/zod.ts:123-130 | the converse round trip: decoding then encoding an accepted object gives its parsed copy |
| Schema.QueryFilterParamSchema | document-models/rdb-processor-specification/gen/schema/zod.ts:140-150 | a stored parameter: a string `id`, a boolean `optional`, `name` and `type` present and null or a string, and an optional `__typename` literal |
| Schema.QuerySpecificationSchema | document-models/rdb-processor-specification/gen/schema/zod.ts:152-163 | a stored query: a string `id`, a `filter` array of valid parameters, and `name`, `queryExample`, `querySchema` present and null or a string |
| Schema.RdbColumnSchema | document-models/rdb-processor-specification/gen/schema/zod.ts:165-176 | a stored column: a string `id`, an enum `type`, a boolean `primaryKey`, and the four other fields present and null or a string |
| Schema.RdbProcessorSpecificationStateSchema | document-models/rdb-processor-specification/gen/schema/zod.ts:178-188 | the global state: `name` and `description` present and null or a string, and two arrays of valid queries and valid tables |
| Schema.RdbTableSchema | document-models/rdb-processor-specification/gen/schema/zod.ts:190-197 | a stored table: a string `id`, `name` present and null or a string, and a `columns` array of valid columns |
| Schema.EncodeFilterParam | document-models/rdb-processor-specification/gen/schema/zod.ts:140-150 | a stored parameter as its plain object, every field written, null for a null field |
| Schema.EncodeQuerySpecification | document-models/rdb-processor-specification/gen/schema/zod.ts:152-163 | a stored query as its plain object, its filter list written entry by entry |
| Schema.EncodeColumn | document-models/rdb-processor-specification/gen/schema/zod.ts:165-176 | a stored column as its plain object, its type as its wire name |
| Schema.EncodeTable | document-models/rdb-processor-specification/gen/schema/zod.ts:190-197 | a stored table as its plain object, its columns written entry by entry |
| Schema.EncodeState | document-models/rdb-processor-specification/gen/schema/zod.ts:178-188 | the global state as the plain object the state schema checks |
| SchemaProperties.SetSpecInputAcceptsEmpty | document-models/rdb-processor-specification/gen/schema/zod.ts:208-213 | the empty object is a valid `setSpec` input and decodes to "change nothing" |
| SchemaProperties.FilterParamOptionalRequirements | document-models/rdb-processor-specification/gen/schema/zod.ts:60-70 | adding a parameter needs a boolean `optional` and rejects it missing or null; the update schema (lines 215-225) accepts it missing or null and needs only the two ids |
| SchemaProperties.AddRdbColumnInputRequirements | document-models/rdb-processor-specification/gen/schema/zod.ts:82-95 | with both ids, a type and the flag present, the input is accepted exactly when the type is an enum member and the four strings are nullish; without the flag, with a null flag or without the type it is rejected |
| SchemaProperties.UpdateRdbColumnInputRequirements | document-models/rdb-processor-specification/gen/schema/zod.ts:245-258 | the two ids alone are accepted and decode to an all-absent patch; null type and null flag are accepted as explicit nulls; a missing id is rejected |
| SchemaProperties.IdFieldsAreRequiredStrings | document-models/rdb-processor-specification/gen/schema/zod.ts:60-138 | every schema with an `id` field rejects an input whose `id` is missing or not a string |
| SchemaProperties.ParentIdFieldsAreRequiredStrings | document-models/rdb-processor-specification/gen/schema/zod.ts:60-130 | the same for `querySpecId` and `tableId` |
| SchemaProperties.StateRecordNullableFieldsRequired | document-models/rdb-processor-specification/gen/schema/zod.ts:140-197 | in the state records a nullable field accepts null but must be present |
| SchemaProperties.EncodeQuerySpecificationValid | document-models/rdb-processor-specification/gen/schema/zod.ts:140-163 | every typed query specification, written out, passes its schema |
| SchemaProperties.EncodeTableValid | document-models/rdb-processor-specification/gen/schema/zod.ts:165-197 | every typed table, written out, passes its schema |
| SchemaProperties.EncodeStateValid | document-models/rdb-processor-specification/gen/schema/zod.ts:178-188 | every state the model can hold, written out, passes the state schema |
| Factories.Whole | document-models/rdb-processor-specification/gen/ph-factories.ts:35-37 | the partial state that supplies every field |
| Factories.DefaultGlobalState | document-models/rdb-processor-specification/gen/ph-factories.ts:14-21 | null name, null description and two empty lists |
| Factories.DefaultLocalState | document-models/rdb-processor-specification/gen/ph-factories.ts:23-25 | the empty record |
| Factories.Override | document-models/rdb-processor-specification/gen/ph-factories.ts:39-40 | a supplied field wins over the default |
| Factories.CreateGlobalState | document-models/rdb-processor-specification/gen/ph-factories.ts:35-42 | no argument gives the defaults; otherwise each supplied field overrides its default and each unsupplied field keeps it |
| Factories.CreateGlobalStateNothingSupplied | document-models/rdb-processor-specification/gen/ph-factories.ts:35-42 | no argument, or an empty one, gives `defaultGlobalState()` |
| Factories.CreateGlobalStateWhole | document-models/rdb-processor-specification/gen/ph-factories.ts:39-40 | a partial state that supplies every field is returned as it is |
| Factories.CreateGlobalStateOneField | document-models/rdb-processor-specification/gen/ph-factories.ts:39-40 | supplying one field changes only that field of the default |
| Factories.InitialGlobalStateIsDefault | document-models/rdb-processor-specification/gen/utils.ts:16-21 | the document utilities' initial state equals the factory default |
| Factories.DefaultGlobalStateValid | document-models/rdb-processor-specification/gen/ph-factories.ts:14-21 | the default state passes the state schema |
| Reducer.InputSchema | document-models/rdb-processor-specification/gen/reducer.ts:22-157 | the schema the switch validates with for each of the fifteen tags, and no schema for any other tag |
| Reducer.DecodeAction | document-models/rdb-processor-specification/gen/reducer.ts:22-157 | an accepted input decodes to an action carrying the tag it came with |
| Reducer.EncodeAction | document-models/rdb-processor-specification/gen/reducer.ts:22-157 | the input of each action in the form its tag's schema checks; it is inverse to `DecodeAction` |
| Reducer.Route | document-models/rdb-processor-specification/gen/reducer.ts:13-161 | document actions and unknown tags pass through; a known tag is rejected exactly when its schema fails and dispatched exactly when it passes, to an action of that tag |
| Reducer.Reduce | document-models/rdb-processor-specification/gen/reducer.ts:13-161 | the state after one action: the operation of the decoded action when it is dispatched, the old state on a passthrough or a rejection |
| Reducer.ApplyQuerySpecification | document-models/rdb-processor-specification/gen/reducer.ts:32-102 | each of the eight query-specification actions runs its operation, which keeps the metadata and the tables |
| Reducer.ApplyRdbSpecification | document-models/rdb-processor-specification/gen/reducer.ts:104-156 | each of the six table and column actions runs its operation, which keeps the metadata and the query specifications |
| Reducer.Apply | document-models/rdb-processor-specification/gen/reducer.ts:22-157 | each action runs one operation; metadata actions keep both lists, query actions keep the metadata and tables, table actions keep the metadata and queries |
| Reducer.ApplyQuerySpecificationOperation | document-models/rdb-processor-specification/gen/reducer.ts:32-102 | the in-place query-specification operation of an action leaves the object holding `ApplyQuerySpecification` of its old value |
| Reducer.ApplyRdbSpecificationOperation | document-models/rdb-processor-specification/gen/reducer.ts:104-156 | the in-place table or column operation leaves the object holding `ApplyRdbSpecification` of its old value |
| Reducer.ApplyOperation | document-models/rdb-processor-specification/gen/reducer.ts:25-155 | running the operation method of an action leaves the object holding `Apply` of its old value |
| Reducer.StateReducer | document-models/rdb-processor-specification/gen/reducer.ts:13-161 | the outcome is `Route`'s; a dispatched action changes the state to `Apply` of the old state, and a passthrough or rejection leaves it exactly as it was; either way the new state is `Reduce` of the old one |
| ReducerProperties.TypeTagOneToOne | document-models/rdb-processor-specification/gen/reducer.ts:22-157 | every action's tag is one the switch knows, and two actions share a tag exactly when they belong to the same operation |
| ReducerProperties.EveryTagHasAnOperation | document-models/rdb-processor-specification/gen/reducer.ts:22-157 | each of the fifteen tags belongs to some action |
| ReducerProperties.ActionDecodesToItself | document-models/rdb-processor-specification/gen/reducer.ts:22-157 | for every action, its encoded input passes the schema of its own tag and decodes back to that action |
| ReducerProperties.EncodedActionRoutesToItself | document-models/rdb-processor-specification/gen/reducer.ts:22-157 | an action sent with its own tag and encoded input is accepted and dispatched as that very action |
| ReducerProperties.DeclaredKeys | document-models/rdb-processor-specification/gen/schema/zod.ts:60-267 | for each tag, the keys its input schema declares, the same `InputKeys` sets the converse round trips use |
| ReducerProperties.Parsed | document-models/rdb-processor-specification/gen/reducer.ts:24 | the parsed copy keeps only declared keys |
| ReducerProperties.UpdateRdbColumnInputLocal | document-models/rdb-processor-specification/gen/schema/zod.ts:245-258 | two objects that agree on the eight declared keys are both accepted or both rejected by the column-update schema, and decode alike |
| ReducerProperties.ParsedCopyRoutesTheSame | document-models/rdb-processor-specification/gen/reducer.ts:24-29 | the operation receives the original input, and deciding on the parsed copy instead would give the same outcome and the same action |
| ReducerProperties.AddRdbColumnWithoutPrimaryKeyRejected | document-models/rdb-processor-specification/gen/reducer.ts:131-138 | a column add without its primary-key flag is rejected |
| ReducerProperties.EncodedActionsReduce | document-models/rdb-processor-specification/gen/reducer.ts:13-161 | three actions, each sent with its own tag and encoded input, run their three operations in that order |
| ReducerProperties.TableColumnRun | document-models/rdb-processor-specification/src/reducers/rdb-specification.ts:4-59 | from the default state: add table `t1`, add column `c1`, rename `c1`; the result is one table holding one column with exactly the expected fields |
| ReducerProperties.TableColumnScenario | document-models/rdb-processor-specification/gen/reducer.ts:13-161 | the same run, each step sent to the reducer as an action, validated, decoded and applied, for any set of document-action tags disjoint from the fifteen |
| ReducerProperties.QueryFilterRun | document-models/rdb-processor-specification/src/reducers/query-specification.ts:4-61 | from the default state: add query `q1`, add parameter `f1`, delete `f1`; the result is one query with name `""` and an empty filter list |
| ReducerProperties.QueryFilterScenario | document-models/rdb-processor-specification/gen/reducer.ts:13-161 | the same run, each step sent to the reducer as an action |

## Left out

- Scope: the reducer applies each operation to `state[action.scope]`. Only the global scope is modelled, which is the scope every action creator of this document uses. An action with scope `local` would run its operation on the empty local record `{}`. There `setSpec` would set the metadata fields its input gives, and each of the other fourteen operations would throw a `TypeError` on the missing list, for example at `state.querySpecifications.push` (`DM/src/reducers/query-specification.ts:5`) or at `state.rdbSpecification.find`. The local scope is not modelled.
- `isDocumentAction` is framework code. The model takes the set of document-action type tags as a parameter of `Route` and `StateReducer`.
- Framework code from `document-model/core` is not part of this model:
  - `createReducer`, the operation history and its `index`;
  - `defaultPHState`, `createState`, `createLocalState` and the document factories;
  - `generateId`, file save and load.
- The `dispatch` callback passed to every operation is not modelled; no operation uses it.
- Validation errors carry no detail. `Rejected` stands for the error the schema throws; the list of issues zod would report is not modelled.
- An input key that is present but holds `undefined` cannot be written as a dynamic value here. The operations treat it exactly like a missing key, because they test `!== undefined`. A partial state given to `createGlobalState` with a key set to `undefined` would also override the default with `undefined`; that is not modelled.
- The add operations have fallbacks the model does not reach: `optional ?? false` in `addQueryFilterParam`, and `type ?? null` and `primaryKey ?? false` in `addRdbColumn`. The add schemas require these fields, so they are never missing once validation has passed. The typed add inputs carry them as plain values.
- Aliasing: `find` returns a reference to a nested record that is then assigned in place. The model replaces the entry at the index of the first match instead. Nested records are values, so no second reference to them can be observed.
- `Lists.Find` and `Lists.Filter` write `Array.prototype.find` and `filter` as loops.
- Numbers appear in no schema, so dynamic numbers are integers only.
- The state schemas are not applied by the reducer. The model states what they accept and proves that every typed state passes. Decoding a state value back is not modelled.
- Schema.EncodeState: writes no `__typename` key. The state schemas allow the key to be missing.
- Test assertions that the reducer code cannot satisfy are not modelled:
  - `DM/src/tests/rdb-specification.test.ts:329` expects `sourceDocModel` to become null on an update that omits it.
  - `DM/src/tests/query-specification.test.ts:293` expects `type` to become null on an update that omits it.
  - `DM/src/tests/query-specification.test.ts:45-50` leaves out the `name: ""` field the reducer sets.

  The model follows the code.
- The editors, the GraphQL subgraph (schema and resolvers), the document-model metadata and the generated creators and operation interfaces are not modelled. They are UI, network I/O or declarations without behaviour.

Two behaviours of the code that the model keeps:

- An add appends a new entry even when its id is already in the list (`DM/src/reducers/query-specification.ts:5`, `DM/src/reducers/rdb-specification.ts:5`).
- A delete removes every entry with the id (`DM/src/reducers/query-specification.ts:26`), while an update changes only the first match (`DM/src/reducers/query-specification.ts:14`); `QuerySpecificationProperties.UpdateFirstDeleteEvery` states the difference.
