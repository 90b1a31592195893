/** The eight query-specification operations. Each is a specification
    function on the global state value and an operation method that changes
    the state object in place and is proved to produce exactly that value.

    Parents and children are located with `find`, which picks the FIRST entry
    with the id; deletes use `filter`, which drops EVERY entry with the id.
    No operation checks that ids are unique, and a missing parent or child is
    a silent no-op.
 */
module QuerySpecificationOps {
  import opened Values
  import opened Types
  import opened Lists
  import opened State

  /** Only the query-specification list may differ between `s` and `r`. */
  predicate OnlyQueriesChanged(s: GlobalState, r: GlobalState)
  {
    r.name == s.name && r.description == s.description && r.rdbSpecification == s.rdbSpecification
  }

  function FindQuery(s: GlobalState, id: string): Option<nat>
  {
    FirstIndex(s.querySpecifications, QuerySpecId, id)
  }

  // ---------------------------------------------------------------------
  // addQuerySpecification

  function NewQuerySpecification(input: AddQuerySpecificationInput): (q: QuerySpecification)
    ensures q.id == input.id && q.name == NonNull("") && q.filter == []
    ensures q.querySchema == OrNull(input.querySchema)
    ensures q.queryExample == OrNull(input.queryExample)
  {
    QuerySpecification(input.id, NonNull(""), OrNull(input.querySchema), OrNull(input.queryExample), [])
  }

  function AddQuerySpecification(s: GlobalState, input: AddQuerySpecificationInput): (r: GlobalState)
    ensures OnlyQueriesChanged(s, r)
    ensures |r.querySpecifications| == |s.querySpecifications| + 1
    ensures r.querySpecifications[..|s.querySpecifications|] == s.querySpecifications
    ensures r.querySpecifications[|s.querySpecifications|] == NewQuerySpecification(input)
  {
    s.(querySpecifications := s.querySpecifications + [NewQuerySpecification(input)])
  }

  method AddQuerySpecificationOperation(state: GlobalStateObject, input: AddQuerySpecificationInput)
    modifies state
    ensures state.Value() == AddQuerySpecification(old(state.Value()), input)
  {
    state.querySpecifications := state.querySpecifications + [
      QuerySpecification(input.id, NonNull(""), OrNull(input.querySchema), OrNull(input.queryExample), [])
    ];
  }

  // ---------------------------------------------------------------------
  // updateQuerySchema

  function UpdateQuerySchema(s: GlobalState, input: UpdateQuerySchemaInput): (r: GlobalState)
    ensures OnlyQueriesChanged(s, r)
    ensures FindQuery(s, input.id).None? ==> r == s
    ensures FindQuery(s, input.id).Some? ==>
      var i := FindQuery(s, input.id).value;
      UnchangedExcept(s.querySpecifications, r.querySpecifications, i) &&
      r.querySpecifications[i] ==
        s.querySpecifications[i].(querySchema := Patch(s.querySpecifications[i].querySchema, input.querySchema))
  {
    match FindQuery(s, input.id)
    case None => s
    case Some(i) =>
      if input.querySchema.Absent? then s
      else
        var q := s.querySpecifications[i];
        s.(querySpecifications := s.querySpecifications[i := q.(querySchema := OrNull(input.querySchema))])
  }

  method UpdateQuerySchemaOperation(state: GlobalStateObject, input: UpdateQuerySchemaInput)
    modifies state
    ensures state.Value() == UpdateQuerySchema(old(state.Value()), input)
  {
    var found := Find(state.querySpecifications, QuerySpecId, input.id);
    if found.Some? && !input.querySchema.Absent? {
      var i := found.value;
      var q := state.querySpecifications[i];
      state.querySpecifications := state.querySpecifications[i := q.(querySchema := OrNull(input.querySchema))];
    }
  }

  // ---------------------------------------------------------------------
  // updateQueryExample

  function UpdateQueryExample(s: GlobalState, input: UpdateQueryExampleInput): (r: GlobalState)
    ensures OnlyQueriesChanged(s, r)
    ensures FindQuery(s, input.id).None? ==> r == s
    ensures FindQuery(s, input.id).Some? ==>
      var i := FindQuery(s, input.id).value;
      UnchangedExcept(s.querySpecifications, r.querySpecifications, i) &&
      r.querySpecifications[i] ==
        s.querySpecifications[i].(queryExample := Patch(s.querySpecifications[i].queryExample, input.queryExample))
  {
    match FindQuery(s, input.id)
    case None => s
    case Some(i) =>
      if input.queryExample.Absent? then s
      else
        var q := s.querySpecifications[i];
        s.(querySpecifications := s.querySpecifications[i := q.(queryExample := OrNull(input.queryExample))])
  }

  method UpdateQueryExampleOperation(state: GlobalStateObject, input: UpdateQueryExampleInput)
    modifies state
    ensures state.Value() == UpdateQueryExample(old(state.Value()), input)
  {
    var found := Find(state.querySpecifications, QuerySpecId, input.id);
    if found.Some? && !input.queryExample.Absent? {
      var i := found.value;
      var q := state.querySpecifications[i];
      state.querySpecifications := state.querySpecifications[i := q.(queryExample := OrNull(input.queryExample))];
    }
  }

  // ---------------------------------------------------------------------
  // deleteQuerySpecification

  function DeleteQuerySpecification(s: GlobalState, input: DeleteQuerySpecificationInput): (r: GlobalState)
    ensures OnlyQueriesChanged(s, r)
    ensures forall j :: 0 <= j < |r.querySpecifications| ==>
      r.querySpecifications[j].id != input.id && r.querySpecifications[j] in s.querySpecifications
    ensures forall j :: 0 <= j < |s.querySpecifications| && s.querySpecifications[j].id != input.id ==>
      s.querySpecifications[j] in r.querySpecifications
    ensures FindQuery(s, input.id).None? <==> r == s
  {
    s.(querySpecifications := RemoveAll(s.querySpecifications, QuerySpecId, input.id))
  }

  method DeleteQuerySpecificationOperation(state: GlobalStateObject, input: DeleteQuerySpecificationInput)
    modifies state
    ensures state.Value() == DeleteQuerySpecification(old(state.Value()), input)
  {
    state.querySpecifications := Filter(state.querySpecifications, QuerySpecId, input.id);
  }

  // ---------------------------------------------------------------------
  // addQueryFilterParam

  function NewFilterParam(input: AddQueryFilterParamInput): (p: QueryFilterParam)
    ensures p.id == input.id && p.optional == input.optional
    ensures p.name == OrNull(input.name) && p.paramType == OrNull(input.paramType)
  {
    QueryFilterParam(input.id, OrNull(input.name), OrNull(input.paramType), input.optional)
  }

  function AddQueryFilterParam(s: GlobalState, input: AddQueryFilterParamInput): (r: GlobalState)
    ensures OnlyQueriesChanged(s, r)
    ensures FindQuery(s, input.querySpecId).None? ==> r == s
    ensures FindQuery(s, input.querySpecId).Some? ==>
      var i := FindQuery(s, input.querySpecId).value;
      UnchangedExcept(s.querySpecifications, r.querySpecifications, i) &&
      r.querySpecifications[i].(filter := s.querySpecifications[i].filter) == s.querySpecifications[i] &&
      r.querySpecifications[i].filter == s.querySpecifications[i].filter + [NewFilterParam(input)]
  {
    match FindQuery(s, input.querySpecId)
    case None => s
    case Some(i) =>
      var q := s.querySpecifications[i];
      s.(querySpecifications := s.querySpecifications[i := q.(filter := q.filter + [NewFilterParam(input)])])
  }

  method AddQueryFilterParamOperation(state: GlobalStateObject, input: AddQueryFilterParamInput)
    modifies state
    ensures state.Value() == AddQueryFilterParam(old(state.Value()), input)
  {
    var found := Find(state.querySpecifications, QuerySpecId, input.querySpecId);
    if found.Some? {
      var i := found.value;
      var q := state.querySpecifications[i];
      var param := QueryFilterParam(input.id, OrNull(input.name), OrNull(input.paramType), input.optional);
      state.querySpecifications := state.querySpecifications[i := q.(filter := q.filter + [param])];
    }
  }

  // ---------------------------------------------------------------------
  // updateFilterParam

  /** The field-by-field update of one filter parameter. */
  function PatchFilterParam(p: QueryFilterParam, input: UpdateFilterParamInput): (r: QueryFilterParam)
    ensures r.id == p.id
    ensures r.name == Patch(p.name, input.name)
    ensures r.paramType == Patch(p.paramType, input.paramType)
    ensures input.optional.Absent? ==> r.optional == p.optional
    ensures input.optional.ExplicitNull? ==> r.optional == false
    ensures input.optional.Given? ==> r.optional == input.optional.value
  {
    p.(name := Patch(p.name, input.name),
       paramType := Patch(p.paramType, input.paramType),
       optional := PatchOr(p.optional, input.optional, false))
  }

  function FindFilterParam(q: QuerySpecification, id: string): Option<nat>
  {
    FirstIndex(q.filter, FilterParamId, id)
  }

  function UpdateFilterParam(s: GlobalState, input: UpdateFilterParamInput): (r: GlobalState)
    ensures OnlyQueriesChanged(s, r)
    ensures FindQuery(s, input.querySpecId).None? ==> r == s
    ensures FindQuery(s, input.querySpecId).Some? ==>
      var i := FindQuery(s, input.querySpecId).value;
      var q := s.querySpecifications[i];
      && (FindFilterParam(q, input.id).None? ==> r == s)
      && (FindFilterParam(q, input.id).Some? ==>
            var k := FindFilterParam(q, input.id).value;
            && UnchangedExcept(s.querySpecifications, r.querySpecifications, i)
            && r.querySpecifications[i].(filter := q.filter) == q
            && UnchangedExcept(q.filter, r.querySpecifications[i].filter, k)
            && r.querySpecifications[i].filter[k] == PatchFilterParam(q.filter[k], input))
  {
    match FindQuery(s, input.querySpecId)
    case None => s
    case Some(i) =>
      var q := s.querySpecifications[i];
      match FindFilterParam(q, input.id)
      case None => s
      case Some(k) =>
        var q' := q.(filter := q.filter[k := PatchFilterParam(q.filter[k], input)]);
        s.(querySpecifications := s.querySpecifications[i := q'])
  }

  method UpdateFilterParamOperation(state: GlobalStateObject, input: UpdateFilterParamInput)
    modifies state
    ensures state.Value() == UpdateFilterParam(old(state.Value()), input)
  {
    var found := Find(state.querySpecifications, QuerySpecId, input.querySpecId);
    if found.Some? {
      var i := found.value;
      var q := state.querySpecifications[i];
      var foundParam := Find(q.filter, FilterParamId, input.id);
      if foundParam.Some? {
        var k := foundParam.value;
        var p := q.filter[k];
        if !input.name.Absent? {
          p := p.(name := OrNull(input.name));
        }
        if !input.paramType.Absent? {
          p := p.(paramType := OrNull(input.paramType));
        }
        if !input.optional.Absent? {
          p := p.(optional := OrDefault(input.optional, false));
        }
        state.querySpecifications := state.querySpecifications[i := q.(filter := q.filter[k := p])];
      }
    }
  }

  // ---------------------------------------------------------------------
  // deleteFilterParam

  function DeleteFilterParam(s: GlobalState, input: DeleteFilterParamInput): (r: GlobalState)
    ensures OnlyQueriesChanged(s, r)
    ensures FindQuery(s, input.querySpecId).None? ==> r == s
    ensures FindQuery(s, input.querySpecId).Some? ==>
      var i := FindQuery(s, input.querySpecId).value;
      var q := s.querySpecifications[i];
      && UnchangedExcept(s.querySpecifications, r.querySpecifications, i)
      && r.querySpecifications[i].(filter := q.filter) == q
      && (forall j :: 0 <= j < |r.querySpecifications[i].filter| ==>
            r.querySpecifications[i].filter[j].id != input.id && r.querySpecifications[i].filter[j] in q.filter)
      && (forall j :: 0 <= j < |q.filter| && q.filter[j].id != input.id ==>
            q.filter[j] in r.querySpecifications[i].filter)
      && (FindFilterParam(q, input.id).None? ==> r == s)
  {
    match FindQuery(s, input.querySpecId)
    case None => s
    case Some(i) =>
      var q := s.querySpecifications[i];
      s.(querySpecifications := s.querySpecifications[i := q.(filter := RemoveAll(q.filter, FilterParamId, input.id))])
  }

  method DeleteFilterParamOperation(state: GlobalStateObject, input: DeleteFilterParamInput)
    modifies state
    ensures state.Value() == DeleteFilterParam(old(state.Value()), input)
  {
    var found := Find(state.querySpecifications, QuerySpecId, input.querySpecId);
    if found.Some? {
      var i := found.value;
      var q := state.querySpecifications[i];
      var kept := Filter(q.filter, FilterParamId, input.id);
      state.querySpecifications := state.querySpecifications[i := q.(filter := kept)];
    }
  }

  // ---------------------------------------------------------------------
  // setQuerySpecName

  function SetQuerySpecName(s: GlobalState, input: SetQuerySpecNameInput): (r: GlobalState)
    ensures OnlyQueriesChanged(s, r)
    ensures FindQuery(s, input.querySpecId).None? ==> r == s
    ensures FindQuery(s, input.querySpecId).Some? ==>
      var i := FindQuery(s, input.querySpecId).value;
      UnchangedExcept(s.querySpecifications, r.querySpecifications, i) &&
      r.querySpecifications[i] ==
        s.querySpecifications[i].(name := Patch(s.querySpecifications[i].name, input.name))
  {
    match FindQuery(s, input.querySpecId)
    case None => s
    case Some(i) =>
      if input.name.Absent? then s
      else
        var q := s.querySpecifications[i];
        s.(querySpecifications := s.querySpecifications[i := q.(name := OrNull(input.name))])
  }

  method SetQuerySpecNameOperation(state: GlobalStateObject, input: SetQuerySpecNameInput)
    modifies state
    ensures state.Value() == SetQuerySpecName(old(state.Value()), input)
  {
    var found := Find(state.querySpecifications, QuerySpecId, input.querySpecId);
    if found.Some? {
      if !input.name.Absent? {
        var i := found.value;
        var q := state.querySpecifications[i];
        state.querySpecifications := state.querySpecifications[i := q.(name := OrNull(input.name))];
      }
    }
  }
}
