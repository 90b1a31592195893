/** Properties that relate several RDB-specification operations: columns
    accumulate in call order, adds are undone by deletes, a deleted table
    takes its columns with it, and updates are idempotent.
 */
module RdbSpecificationProperties {
  import opened Values
  import opened Types
  import opened Lists
  import opened RdbSpecificationOps

  /** Deleting a freshly added table by its id restores the state, provided
      no earlier table had that id. */
  lemma AddRdbTableThenDelete(s: GlobalState, input: AddRdbTableInput)
    requires FindTable(s, input.id).None?
    ensures DeleteRdbTable(AddRdbTable(s, input), DeleteRdbTableInput(input.id)) == s
  {
    RemoveAllAppended(s.rdbSpecification, NewTable(input), TableId);
  }

  /** Once a table is deleted its columns cannot be reached: column adds,
      updates and deletes that name it are all no-ops. */
  lemma DeletedTableUnreachable(s: GlobalState, id: string,
                                add: AddRdbColumnInput, update: UpdateRdbColumnInput, delete: DeleteRdbColumnInput)
    requires add.tableId == id && update.tableId == id && delete.tableId == id
    ensures var d := DeleteRdbTable(s, DeleteRdbTableInput(id));
      && FindTable(d, id).None?
      && AddRdbColumn(d, add) == d
      && UpdateRdbColumn(d, update) == d
      && DeleteRdbColumn(d, delete) == d
  {
  }

  lemma UpdateTableNameIdempotent(s: GlobalState, input: UpdateTableNameInput)
    ensures UpdateTableName(UpdateTableName(s, input), input) == UpdateTableName(s, input)
  {
    var r := UpdateTableName(s, input);
    FirstIndexSameKeys(s.rdbSpecification, r.rdbSpecification, TableId, input.id);
  }

  lemma DeleteRdbTableIdempotent(s: GlobalState, input: DeleteRdbTableInput)
    ensures DeleteRdbTable(DeleteRdbTable(s, input), input) == DeleteRdbTable(s, input)
  {
    RemoveAllIdempotent(s.rdbSpecification, TableId, input.id);
  }

  /** Adds a sequence of columns, one `addRdbColumn` per input, in order. */
  function AddRdbColumns(s: GlobalState, inputs: seq<AddRdbColumnInput>): GlobalState
    decreases |inputs|
  {
    if |inputs| == 0 then s
    else AddRdbColumns(AddRdbColumn(s, inputs[0]), inputs[1..])
  }

  function NewColumns(inputs: seq<AddRdbColumnInput>): (cs: seq<RdbColumn>)
    ensures |cs| == |inputs|
    ensures forall j :: 0 <= j < |inputs| ==> cs[j] == NewColumn(inputs[j])
  {
    if |inputs| == 0 then [] else [NewColumn(inputs[0])] + NewColumns(inputs[1..])
  }

  /** `r` is `s` with `cols` appended to the columns of table `i` and
      nothing else changed. */
  predicate ColumnsAppended(s: GlobalState, r: GlobalState, i: nat, cols: seq<RdbColumn>)
    requires i < |s.rdbSpecification|
  {
    && OnlyTablesChanged(s, r)
    && UnchangedExcept(s.rdbSpecification, r.rdbSpecification, i)
    && r.rdbSpecification[i] == s.rdbSpecification[i].(columns := s.rdbSpecification[i].columns + cols)
  }

  lemma ColumnsAppendedTrans(s: GlobalState, s1: GlobalState, r: GlobalState, i: nat,
                             c1: seq<RdbColumn>, c2: seq<RdbColumn>)
    requires i < |s.rdbSpecification|
    requires ColumnsAppended(s, s1, i, c1) && ColumnsAppended(s1, r, i, c2)
    ensures ColumnsAppended(s, r, i, c1 + c2)
  {
    assert s.rdbSpecification[i].columns + c1 + c2 == s.rdbSpecification[i].columns + (c1 + c2);
  }

  /** Any number of column adds to one existing table append exactly one
      column per call, in call order, and leave every other table alone. */
  lemma {:induction false} AddRdbColumnsInOrder(s: GlobalState, id: string, inputs: seq<AddRdbColumnInput>)
    requires FindTable(s, id).Some?
    requires forall j :: 0 <= j < |inputs| ==> inputs[j].tableId == id
    ensures FindTable(AddRdbColumns(s, inputs), id) == FindTable(s, id)
    ensures ColumnsAppended(s, AddRdbColumns(s, inputs), FindTable(s, id).value, NewColumns(inputs))
    ensures |AddRdbColumns(s, inputs).rdbSpecification[FindTable(s, id).value].columns|
         == |s.rdbSpecification[FindTable(s, id).value].columns| + |inputs|
    decreases |inputs|
  {
    var i := FindTable(s, id).value;
    if |inputs| == 0 {
      assert s.rdbSpecification[i].(columns := s.rdbSpecification[i].columns + []) == s.rdbSpecification[i];
    } else {
      var s1 := AddRdbColumn(s, inputs[0]);
      assert ColumnsAppended(s, s1, i, [NewColumn(inputs[0])]);
      FirstIndexSameKeys(s.rdbSpecification, s1.rdbSpecification, TableId, id);
      AddRdbColumnsInOrder(s1, id, inputs[1..]);
      ColumnsAppendedTrans(s, s1, AddRdbColumns(s, inputs), i, [NewColumn(inputs[0])], NewColumns(inputs[1..]));
      assert NewColumns(inputs) == [NewColumn(inputs[0])] + NewColumns(inputs[1..]);
    }
  }

  /** Deleting a freshly added column by its id restores the state, provided
      its table had no column with that id. */
  lemma AddRdbColumnThenDelete(s: GlobalState, input: AddRdbColumnInput)
    requires FindTable(s, input.tableId).Some?
    requires FindColumn(s.rdbSpecification[FindTable(s, input.tableId).value], input.id).None?
    ensures DeleteRdbColumn(AddRdbColumn(s, input), DeleteRdbColumnInput(input.tableId, input.id)) == s
  {
    var i := FindTable(s, input.tableId).value;
    var t := s.rdbSpecification[i];
    var s1 := AddRdbColumn(s, input);
    FirstIndexSameKeys(s.rdbSpecification, s1.rdbSpecification, TableId, input.tableId);
    RemoveAllAppended(t.columns, NewColumn(input), ColumnId);
    var s2 := DeleteRdbColumn(s1, DeleteRdbColumnInput(input.tableId, input.id));
    assert s2.rdbSpecification[i] == t;
    assert s2.rdbSpecification == s.rdbSpecification;
  }

  lemma UpdateRdbColumnIdempotent(s: GlobalState, input: UpdateRdbColumnInput)
    ensures UpdateRdbColumn(UpdateRdbColumn(s, input), input) == UpdateRdbColumn(s, input)
  {
    var r := UpdateRdbColumn(s, input);
    FirstIndexSameKeys(s.rdbSpecification, r.rdbSpecification, TableId, input.tableId);
    match FindTable(s, input.tableId)
    case None =>
    case Some(i) =>
      var t := s.rdbSpecification[i];
      match FindColumn(t, input.id)
      case None =>
      case Some(k) =>
        var c := PatchColumn(t.columns[k], input);
        var rt := t.(columns := t.columns[k := c]);
        assert r.rdbSpecification == s.rdbSpecification[i := rt];
        FirstIndexSameKeys(t.columns, rt.columns, ColumnId, input.id);
        assert FindColumn(rt, input.id) == Some(k);
        assert PatchColumn(c, input) == c;
        assert rt.(columns := rt.columns[k := c]) == rt;
  }

  /** A table delete keeps the surviving tables in their original relative
      order: a table with another id stays between what was before and
      after it. */
  lemma DeleteRdbTableKeepsOrder(s: GlobalState, id: string,
                                 before: seq<RdbTable>, x: RdbTable, after: seq<RdbTable>)
    requires s.rdbSpecification == before + [x] + after
    requires x.id != id
    ensures DeleteRdbTable(s, DeleteRdbTableInput(id)).rdbSpecification
         == RemoveAll(before, TableId, id) + [x] + RemoveAll(after, TableId, id)
  {
    RemoveAllAppend(before + [x], after, TableId, id);
    RemoveAllAppend(before, [x], TableId, id);
  }

  /** A column delete keeps the surviving columns of that table in their
      original relative order. */
  lemma DeleteRdbColumnKeepsOrder(s: GlobalState, input: DeleteRdbColumnInput,
                                  before: seq<RdbColumn>, x: RdbColumn, after: seq<RdbColumn>)
    requires FindTable(s, input.tableId).Some?
    requires s.rdbSpecification[FindTable(s, input.tableId).value].columns == before + [x] + after
    requires x.id != input.id
    ensures DeleteRdbColumn(s, input).rdbSpecification[FindTable(s, input.tableId).value].columns
         == RemoveAll(before, ColumnId, input.id) + [x] + RemoveAll(after, ColumnId, input.id)
  {
    RemoveAllAppend(before + [x], after, ColumnId, input.id);
    RemoveAllAppend(before, [x], ColumnId, input.id);
  }
}
