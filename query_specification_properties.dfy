/** Properties that relate several query-specification operations: adds
    undone by deletes, updates that cannot see deleted entries, idempotence,
    and the first-match / every-match asymmetry between updates and deletes.
 */
module QuerySpecificationProperties {
  import opened Values
  import opened Types
  import opened Lists
  import opened QuerySpecificationOps

  /** Deleting a freshly added query specification by its id restores the
      list, provided no earlier entry had that id. */
  lemma AddQuerySpecificationThenDelete(s: GlobalState, input: AddQuerySpecificationInput)
    requires FindQuery(s, input.id).None?
    ensures DeleteQuerySpecification(AddQuerySpecification(s, input), DeleteQuerySpecificationInput(input.id)) == s
  {
    var added := AddQuerySpecification(s, input);
    assert added.querySpecifications == s.querySpecifications + [NewQuerySpecification(input)];
    RemoveAllAppended(s.querySpecifications, NewQuerySpecification(input), QuerySpecId);
  }

  /** After a delete no entry carries the id, so updating it is a no-op. */
  lemma UpdateAfterDeleteIsNoOp(s: GlobalState, id: string, schema: InputMaybe<string>, example: InputMaybe<string>)
    ensures var d := DeleteQuerySpecification(s, DeleteQuerySpecificationInput(id));
      && UpdateQuerySchema(d, UpdateQuerySchemaInput(id, schema)) == d
      && UpdateQueryExample(d, UpdateQueryExampleInput(id, example)) == d
  {
  }

  /** An update with the schema field absent changes nothing. */
  lemma UpdateQuerySchemaAbsentIsNoOp(s: GlobalState, id: string)
    ensures UpdateQuerySchema(s, UpdateQuerySchemaInput(id, Absent)) == s
  {
  }

  lemma UpdateQuerySchemaIdempotent(s: GlobalState, input: UpdateQuerySchemaInput)
    ensures UpdateQuerySchema(UpdateQuerySchema(s, input), input) == UpdateQuerySchema(s, input)
  {
    var r := UpdateQuerySchema(s, input);
    FirstIndexSameKeys(s.querySpecifications, r.querySpecifications, QuerySpecId, input.id);
  }

  lemma UpdateQueryExampleIdempotent(s: GlobalState, input: UpdateQueryExampleInput)
    ensures UpdateQueryExample(UpdateQueryExample(s, input), input) == UpdateQueryExample(s, input)
  {
    var r := UpdateQueryExample(s, input);
    FirstIndexSameKeys(s.querySpecifications, r.querySpecifications, QuerySpecId, input.id);
  }

  lemma DeleteQuerySpecificationIdempotent(s: GlobalState, input: DeleteQuerySpecificationInput)
    ensures DeleteQuerySpecification(DeleteQuerySpecification(s, input), input) == DeleteQuerySpecification(s, input)
  {
    RemoveAllIdempotent(s.querySpecifications, QuerySpecId, input.id);
  }

  /** A delete keeps the surviving entries in their original relative order:
      an entry with another id stays between what was before and after it. */
  lemma DeleteQuerySpecificationKeepsOrder(s: GlobalState, id: string,
                                           before: seq<QuerySpecification>, x: QuerySpecification,
                                           after: seq<QuerySpecification>)
    requires s.querySpecifications == before + [x] + after
    requires x.id != id
    ensures DeleteQuerySpecification(s, DeleteQuerySpecificationInput(id)).querySpecifications
         == RemoveAll(before, QuerySpecId, id) + [x] + RemoveAll(after, QuerySpecId, id)
  {
    RemoveAllAppend(before + [x], after, QuerySpecId, id);
    RemoveAllAppend(before, [x], QuerySpecId, id);
  }

  /** With a duplicated id, an update reaches only the first of the two
      entries while a delete removes both. */
  lemma UpdateFirstDeleteEvery(s: GlobalState, i: nat, k: nat, schema: string)
    requires i < k < |s.querySpecifications|
    requires s.querySpecifications[i].id == s.querySpecifications[k].id
    ensures var id := s.querySpecifications[k].id;
      && UpdateQuerySchema(s, UpdateQuerySchemaInput(id, Given(schema))).querySpecifications[k] == s.querySpecifications[k]
      && s.querySpecifications[i] !in DeleteQuerySpecification(s, DeleteQuerySpecificationInput(id)).querySpecifications
      && s.querySpecifications[k] !in DeleteQuerySpecification(s, DeleteQuerySpecificationInput(id)).querySpecifications
  {
    var id := s.querySpecifications[k].id;
    var f := FindQuery(s, id);
    assert f.Some? && f.value <= i;
    var d := DeleteQuerySpecification(s, DeleteQuerySpecificationInput(id)).querySpecifications;
    assert forall j :: 0 <= j < |d| ==> d[j].id != id;
  }

  /** Filter parameters added to one parent accumulate in call order. */
  lemma AddQueryFilterParamInOrder(s: GlobalState, a: AddQueryFilterParamInput, b: AddQueryFilterParamInput)
    requires a.querySpecId == b.querySpecId
    requires FindQuery(s, a.querySpecId).Some?
    ensures var i := FindQuery(s, a.querySpecId).value;
      AddQueryFilterParam(AddQueryFilterParam(s, a), b).querySpecifications[i].filter
        == s.querySpecifications[i].filter + [NewFilterParam(a), NewFilterParam(b)]
  {
    var s1 := AddQueryFilterParam(s, a);
    FirstIndexSameKeys(s.querySpecifications, s1.querySpecifications, QuerySpecId, a.querySpecId);
  }

  /** Deleting a freshly added filter parameter by its id restores the state,
      provided its parent had no parameter with that id. */
  lemma AddQueryFilterParamThenDelete(s: GlobalState, input: AddQueryFilterParamInput)
    requires FindQuery(s, input.querySpecId).Some?
    requires FindFilterParam(s.querySpecifications[FindQuery(s, input.querySpecId).value], input.id).None?
    ensures DeleteFilterParam(AddQueryFilterParam(s, input), DeleteFilterParamInput(input.querySpecId, input.id)) == s
  {
    var i := FindQuery(s, input.querySpecId).value;
    var q := s.querySpecifications[i];
    var s1 := AddQueryFilterParam(s, input);
    FirstIndexSameKeys(s.querySpecifications, s1.querySpecifications, QuerySpecId, input.querySpecId);
    RemoveAllAppended(q.filter, NewFilterParam(input), FilterParamId);
    var s2 := DeleteFilterParam(s1, DeleteFilterParamInput(input.querySpecId, input.id));
    assert s2.querySpecifications[i] == q;
    assert s2.querySpecifications == s.querySpecifications;
  }

  /** A parameter delete keeps the surviving parameters of that query
      specification in their original relative order. */
  lemma DeleteFilterParamKeepsOrder(s: GlobalState, input: DeleteFilterParamInput,
                                    before: seq<QueryFilterParam>, x: QueryFilterParam,
                                    after: seq<QueryFilterParam>)
    requires FindQuery(s, input.querySpecId).Some?
    requires s.querySpecifications[FindQuery(s, input.querySpecId).value].filter == before + [x] + after
    requires x.id != input.id
    ensures DeleteFilterParam(s, input).querySpecifications[FindQuery(s, input.querySpecId).value].filter
         == RemoveAll(before, FilterParamId, input.id) + [x] + RemoveAll(after, FilterParamId, input.id)
  {
    RemoveAllAppend(before + [x], after, FilterParamId, input.id);
    RemoveAllAppend(before, [x], FilterParamId, input.id);
  }

  lemma UpdateFilterParamIdempotent(s: GlobalState, input: UpdateFilterParamInput)
    ensures UpdateFilterParam(UpdateFilterParam(s, input), input) == UpdateFilterParam(s, input)
  {
    var r := UpdateFilterParam(s, input);
    FirstIndexSameKeys(s.querySpecifications, r.querySpecifications, QuerySpecId, input.querySpecId);
    match FindQuery(s, input.querySpecId)
    case None =>
    case Some(i) =>
      var q := s.querySpecifications[i];
      match FindFilterParam(q, input.id)
      case None =>
      case Some(k) =>
        var p := PatchFilterParam(q.filter[k], input);
        var rq := q.(filter := q.filter[k := p]);
        assert r.querySpecifications == s.querySpecifications[i := rq];
        FirstIndexSameKeys(q.filter, rq.filter, FilterParamId, input.id);
        assert FindFilterParam(rq, input.id) == Some(k);
        assert PatchFilterParam(p, input) == p;
        assert rq.(filter := rq.filter[k := p]) == rq;
  }

  lemma SetQuerySpecNameIdempotent(s: GlobalState, input: SetQuerySpecNameInput)
    ensures SetQuerySpecName(SetQuerySpecName(s, input), input) == SetQuerySpecName(s, input)
  {
    var r := SetQuerySpecName(s, input);
    FirstIndexSameKeys(s.querySpecifications, r.querySpecifications, QuerySpecId, input.querySpecId);
  }
}
