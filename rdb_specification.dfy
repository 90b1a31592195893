/** The six RDB-specification operations on tables and their columns, in the
    same two forms as the query-specification operations: a specification
    function on the state value and an operation method that changes the
    state object in place.
 */
module RdbSpecificationOps {
  import opened Values
  import opened Types
  import opened Lists
  import opened State

  /** Only the table list may differ between `s` and `r`. */
  predicate OnlyTablesChanged(s: GlobalState, r: GlobalState)
  {
    r.name == s.name && r.description == s.description && r.querySpecifications == s.querySpecifications
  }

  function FindTable(s: GlobalState, id: string): Option<nat>
  {
    FirstIndex(s.rdbSpecification, TableId, id)
  }

  function FindColumn(t: RdbTable, id: string): Option<nat>
  {
    FirstIndex(t.columns, ColumnId, id)
  }

  // ---------------------------------------------------------------------
  // addRdbTable

  function NewTable(input: AddRdbTableInput): (t: RdbTable)
    ensures t.id == input.id && t.name == OrNull(input.name) && t.columns == []
  {
    RdbTable(input.id, OrNull(input.name), [])
  }

  function AddRdbTable(s: GlobalState, input: AddRdbTableInput): (r: GlobalState)
    ensures OnlyTablesChanged(s, r)
    ensures |r.rdbSpecification| == |s.rdbSpecification| + 1
    ensures r.rdbSpecification[..|s.rdbSpecification|] == s.rdbSpecification
    ensures r.rdbSpecification[|s.rdbSpecification|] == NewTable(input)
  {
    s.(rdbSpecification := s.rdbSpecification + [NewTable(input)])
  }

  method AddRdbTableOperation(state: GlobalStateObject, input: AddRdbTableInput)
    modifies state
    ensures state.Value() == AddRdbTable(old(state.Value()), input)
  {
    state.rdbSpecification := state.rdbSpecification + [RdbTable(input.id, OrNull(input.name), [])];
  }

  // ---------------------------------------------------------------------
  // updateTableName

  function UpdateTableName(s: GlobalState, input: UpdateTableNameInput): (r: GlobalState)
    ensures OnlyTablesChanged(s, r)
    ensures FindTable(s, input.id).None? ==> r == s
    ensures FindTable(s, input.id).Some? ==>
      var i := FindTable(s, input.id).value;
      UnchangedExcept(s.rdbSpecification, r.rdbSpecification, i) &&
      r.rdbSpecification[i] == s.rdbSpecification[i].(name := Patch(s.rdbSpecification[i].name, input.name))
  {
    match FindTable(s, input.id)
    case None => s
    case Some(i) =>
      if input.name.Absent? then s
      else
        var t := s.rdbSpecification[i];
        s.(rdbSpecification := s.rdbSpecification[i := t.(name := OrNull(input.name))])
  }

  method UpdateTableNameOperation(state: GlobalStateObject, input: UpdateTableNameInput)
    modifies state
    ensures state.Value() == UpdateTableName(old(state.Value()), input)
  {
    var found := Find(state.rdbSpecification, TableId, input.id);
    if found.Some? && !input.name.Absent? {
      var i := found.value;
      var t := state.rdbSpecification[i];
      state.rdbSpecification := state.rdbSpecification[i := t.(name := OrNull(input.name))];
    }
  }

  // ---------------------------------------------------------------------
  // deleteRdbTable

  function DeleteRdbTable(s: GlobalState, input: DeleteRdbTableInput): (r: GlobalState)
    ensures OnlyTablesChanged(s, r)
    ensures forall j :: 0 <= j < |r.rdbSpecification| ==>
      r.rdbSpecification[j].id != input.id && r.rdbSpecification[j] in s.rdbSpecification
    ensures forall j :: 0 <= j < |s.rdbSpecification| && s.rdbSpecification[j].id != input.id ==>
      s.rdbSpecification[j] in r.rdbSpecification
    ensures FindTable(s, input.id).None? <==> r == s
  {
    s.(rdbSpecification := RemoveAll(s.rdbSpecification, TableId, input.id))
  }

  method DeleteRdbTableOperation(state: GlobalStateObject, input: DeleteRdbTableInput)
    modifies state
    ensures state.Value() == DeleteRdbTable(old(state.Value()), input)
  {
    state.rdbSpecification := Filter(state.rdbSpecification, TableId, input.id);
  }

  // ---------------------------------------------------------------------
  // addRdbColumn

  function NewColumn(input: AddRdbColumnInput): (c: RdbColumn)
    ensures c.id == input.id && c.columnType == input.columnType && c.primaryKey == input.primaryKey
    ensures c.name == OrNull(input.name) && c.description == OrNull(input.description)
    ensures c.sourceDocModel == OrNull(input.sourceDocModel) && c.sourceProperty == OrNull(input.sourceProperty)
  {
    RdbColumn(input.id, OrNull(input.name), input.columnType, OrNull(input.description),
              OrNull(input.sourceDocModel), OrNull(input.sourceProperty), input.primaryKey)
  }

  function AddRdbColumn(s: GlobalState, input: AddRdbColumnInput): (r: GlobalState)
    ensures OnlyTablesChanged(s, r)
    ensures FindTable(s, input.tableId).None? ==> r == s
    ensures FindTable(s, input.tableId).Some? ==>
      var i := FindTable(s, input.tableId).value;
      UnchangedExcept(s.rdbSpecification, r.rdbSpecification, i) &&
      r.rdbSpecification[i].(columns := s.rdbSpecification[i].columns) == s.rdbSpecification[i] &&
      r.rdbSpecification[i].columns == s.rdbSpecification[i].columns + [NewColumn(input)]
  {
    match FindTable(s, input.tableId)
    case None => s
    case Some(i) =>
      var t := s.rdbSpecification[i];
      s.(rdbSpecification := s.rdbSpecification[i := t.(columns := t.columns + [NewColumn(input)])])
  }

  method AddRdbColumnOperation(state: GlobalStateObject, input: AddRdbColumnInput)
    modifies state
    ensures state.Value() == AddRdbColumn(old(state.Value()), input)
  {
    var found := Find(state.rdbSpecification, TableId, input.tableId);
    if found.Some? {
      var i := found.value;
      var t := state.rdbSpecification[i];
      var column := RdbColumn(input.id, OrNull(input.name), input.columnType, OrNull(input.description),
                              OrNull(input.sourceDocModel), OrNull(input.sourceProperty), input.primaryKey);
      state.rdbSpecification := state.rdbSpecification[i := t.(columns := t.columns + [column])];
    }
  }

  // ---------------------------------------------------------------------
  // updateRdbColumn

  /** The field-by-field update of one column. Unlike the other fields, an
      explicit null column type becomes `String`, and an explicit null
      primary-key flag becomes false. */
  function PatchColumn(c: RdbColumn, input: UpdateRdbColumnInput): (r: RdbColumn)
    ensures r.id == c.id
    ensures r.name == Patch(c.name, input.name)
    ensures input.columnType.Absent? ==> r.columnType == c.columnType
    ensures input.columnType.ExplicitNull? ==> r.columnType == String
    ensures input.columnType.Given? ==> r.columnType == input.columnType.value
    ensures r.description == Patch(c.description, input.description)
    ensures r.sourceDocModel == Patch(c.sourceDocModel, input.sourceDocModel)
    ensures r.sourceProperty == Patch(c.sourceProperty, input.sourceProperty)
    ensures input.primaryKey.Absent? ==> r.primaryKey == c.primaryKey
    ensures input.primaryKey.ExplicitNull? ==> r.primaryKey == false
    ensures input.primaryKey.Given? ==> r.primaryKey == input.primaryKey.value
  {
    c.(name := Patch(c.name, input.name),
       columnType := PatchOr(c.columnType, input.columnType, String),
       description := Patch(c.description, input.description),
       sourceDocModel := Patch(c.sourceDocModel, input.sourceDocModel),
       sourceProperty := Patch(c.sourceProperty, input.sourceProperty),
       primaryKey := PatchOr(c.primaryKey, input.primaryKey, false))
  }

  function UpdateRdbColumn(s: GlobalState, input: UpdateRdbColumnInput): (r: GlobalState)
    ensures OnlyTablesChanged(s, r)
    ensures FindTable(s, input.tableId).None? ==> r == s
    ensures FindTable(s, input.tableId).Some? ==>
      var i := FindTable(s, input.tableId).value;
      var t := s.rdbSpecification[i];
      && (FindColumn(t, input.id).None? ==> r == s)
      && (FindColumn(t, input.id).Some? ==>
            var k := FindColumn(t, input.id).value;
            && UnchangedExcept(s.rdbSpecification, r.rdbSpecification, i)
            && r.rdbSpecification[i].(columns := t.columns) == t
            && UnchangedExcept(t.columns, r.rdbSpecification[i].columns, k)
            && r.rdbSpecification[i].columns[k] == PatchColumn(t.columns[k], input))
  {
    match FindTable(s, input.tableId)
    case None => s
    case Some(i) =>
      var t := s.rdbSpecification[i];
      match FindColumn(t, input.id)
      case None => s
      case Some(k) =>
        var t' := t.(columns := t.columns[k := PatchColumn(t.columns[k], input)]);
        s.(rdbSpecification := s.rdbSpecification[i := t'])
  }

  method UpdateRdbColumnOperation(state: GlobalStateObject, input: UpdateRdbColumnInput)
    modifies state
    ensures state.Value() == UpdateRdbColumn(old(state.Value()), input)
  {
    var found := Find(state.rdbSpecification, TableId, input.tableId);
    if found.Some? {
      var i := found.value;
      var t := state.rdbSpecification[i];
      var foundColumn := Find(t.columns, ColumnId, input.id);
      if foundColumn.Some? {
        var k := foundColumn.value;
        var c := t.columns[k];
        ghost var c0 := c;
        if !input.name.Absent? {
          c := c.(name := OrNull(input.name));
        }
        assert c == c0.(name := Patch(c0.name, input.name));
        if !input.columnType.Absent? {
          c := c.(columnType := OrDefault(input.columnType, String));
        }
        assert c.columnType == PatchOr(c0.columnType, input.columnType, String);
        if !input.description.Absent? {
          c := c.(description := OrNull(input.description));
        }
        assert c.description == Patch(c0.description, input.description);
        if !input.sourceDocModel.Absent? {
          c := c.(sourceDocModel := OrNull(input.sourceDocModel));
        }
        assert c.sourceDocModel == Patch(c0.sourceDocModel, input.sourceDocModel);
        if !input.sourceProperty.Absent? {
          c := c.(sourceProperty := OrNull(input.sourceProperty));
        }
        assert c.sourceProperty == Patch(c0.sourceProperty, input.sourceProperty);
        if !input.primaryKey.Absent? {
          c := c.(primaryKey := OrDefault(input.primaryKey, false));
        }
        assert c == PatchColumn(c0, input);
        state.rdbSpecification := state.rdbSpecification[i := t.(columns := t.columns[k := c])];
      }
    }
  }

  // ---------------------------------------------------------------------
  // deleteRdbColumn

  function DeleteRdbColumn(s: GlobalState, input: DeleteRdbColumnInput): (r: GlobalState)
    ensures OnlyTablesChanged(s, r)
    ensures FindTable(s, input.tableId).None? ==> r == s
    ensures FindTable(s, input.tableId).Some? ==>
      var i := FindTable(s, input.tableId).value;
      var t := s.rdbSpecification[i];
      && UnchangedExcept(s.rdbSpecification, r.rdbSpecification, i)
      && r.rdbSpecification[i].(columns := t.columns) == t
      && (forall j :: 0 <= j < |r.rdbSpecification[i].columns| ==>
            r.rdbSpecification[i].columns[j].id != input.id && r.rdbSpecification[i].columns[j] in t.columns)
      && (forall j :: 0 <= j < |t.columns| && t.columns[j].id != input.id ==>
            t.columns[j] in r.rdbSpecification[i].columns)
      && (FindColumn(t, input.id).None? ==> r == s)
  {
    match FindTable(s, input.tableId)
    case None => s
    case Some(i) =>
      var t := s.rdbSpecification[i];
      s.(rdbSpecification := s.rdbSpecification[i := t.(columns := RemoveAll(t.columns, ColumnId, input.id))])
  }

  method DeleteRdbColumnOperation(state: GlobalStateObject, input: DeleteRdbColumnInput)
    modifies state
    ensures state.Value() == DeleteRdbColumn(old(state.Value()), input)
  {
    var found := Find(state.rdbSpecification, TableId, input.tableId);
    if found.Some? {
      var i := found.value;
      var t := state.rdbSpecification[i];
      var kept := Filter(t.columns, ColumnId, input.id);
      state.rdbSpecification := state.rdbSpecification[i := t.(columns := kept)];
    }
  }
}
