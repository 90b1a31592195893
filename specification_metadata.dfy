/** The metadata operation: `setSpec` overwrites the root name and
    description with whichever of the two the input carries.
 */
module SpecificationMetadata {
  import opened Values
  import opened Types
  import opened State

  function SetSpec(s: GlobalState, input: SetSpecInput): (r: GlobalState)
    ensures input.name.Absent? ==> r.name == s.name
    ensures input.name.ExplicitNull? ==> r.name == Null
    ensures input.name.Given? ==> r.name == NonNull(input.name.value)
    ensures input.description.Absent? ==> r.description == s.description
    ensures input.description.ExplicitNull? ==> r.description == Null
    ensures input.description.Given? ==> r.description == NonNull(input.description.value)
    ensures r.querySpecifications == s.querySpecifications
    ensures r.rdbSpecification == s.rdbSpecification
  {
    s.(name := Patch(s.name, input.name),
       description := Patch(s.description, input.description))
  }

  method SetSpecOperation(state: GlobalStateObject, input: SetSpecInput)
    modifies state
    ensures state.Value() == SetSpec(old(state.Value()), input)
  {
    if !input.name.Absent? {
      state.name := OrNull(input.name);
    }
    if !input.description.Absent? {
      state.description := OrNull(input.description);
    }
  }

  /** The empty input changes nothing. */
  lemma SetSpecEmptyInput(s: GlobalState)
    ensures SetSpec(s, SetSpecInput(Absent, Absent)) == s
  {
  }

  /** Name and description are updated independently: setting one and then the
      other is the same as setting both at once, in either order. */
  lemma SetSpecFieldsIndependent(s: GlobalState, name: InputMaybe<string>, description: InputMaybe<string>)
    ensures SetSpec(SetSpec(s, SetSpecInput(name, Absent)), SetSpecInput(Absent, description))
         == SetSpec(s, SetSpecInput(name, description))
    ensures SetSpec(SetSpec(s, SetSpecInput(Absent, description)), SetSpecInput(name, Absent))
         == SetSpec(s, SetSpecInput(name, description))
  {
  }

  /** Applying the same metadata twice is the same as applying it once. */
  lemma SetSpecIdempotent(s: GlobalState, input: SetSpecInput)
    ensures SetSpec(SetSpec(s, input), input) == SetSpec(s, input)
  {
  }
}
