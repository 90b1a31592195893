/** The state factories: the default global and local states and
    `createGlobalState`, which lays a partial state over the defaults. */
module Factories {
  import opened Values
  import opened Json
  import opened Types
  import opened Schema

  /** A global state with any subset of its four fields supplied. */
  datatype PartialGlobalState = PartialGlobalState(
    name: Option<Nullable<string>>,
    description: Option<Nullable<string>>,
    querySpecifications: Option<seq<QuerySpecification>>,
    rdbSpecification: Option<seq<RdbTable>>)

  /** The partial state that supplies every field of `s`. */
  function Whole(s: GlobalState): (p: PartialGlobalState)
    ensures p.name.Some? && p.description.Some? && p.querySpecifications.Some? && p.rdbSpecification.Some?
  {
    PartialGlobalState(Some(s.name), Some(s.description), Some(s.querySpecifications), Some(s.rdbSpecification))
  }

  const NothingSupplied := PartialGlobalState(None, None, None, None)

  /** `defaultGlobalState()`. */
  function DefaultGlobalState(): (s: GlobalState)
    ensures s.name.Null? && s.description.Null?
    ensures |s.querySpecifications| == 0 && |s.rdbSpecification| == 0
  {
    GlobalState(Null, Null, [], [])
  }

  /** `initialGlobalState` of the document utilities, declared separately. */
  const InitialGlobalState := GlobalState(Null, Null, [], [])

  /** The local state holds no fields; `defaultLocalState()` is the empty
      record. */
  type LocalState = map<string, Json>

  function DefaultLocalState(): (l: LocalState)
    ensures |l| == 0
  {
    map[]
  }

  /** One field of an object spread: a supplied field wins over the
      default. */
  function Override<T>(default: T, supplied: Option<T>): (r: T)
    ensures supplied.Some? ==> r == supplied.value
    ensures supplied.None? ==> r == default
  {
    if supplied.Some? then supplied.value else default
  }

  /** `createGlobalState(state?)`: the defaults with every supplied field of
      `state` laid over them; no argument gives the defaults. */
  function CreateGlobalState(state: Option<PartialGlobalState>): (r: GlobalState)
    ensures state.None? ==> r == DefaultGlobalState()
    ensures state.Some? ==>
      && r.name == Override(DefaultGlobalState().name, state.value.name)
      && r.description == Override(DefaultGlobalState().description, state.value.description)
      && r.querySpecifications == Override(DefaultGlobalState().querySpecifications, state.value.querySpecifications)
      && r.rdbSpecification == Override(DefaultGlobalState().rdbSpecification, state.value.rdbSpecification)
  {
    var d := DefaultGlobalState();
    var p := if state.Some? then state.value else NothingSupplied;
    GlobalState(Override(d.name, p.name), Override(d.description, p.description),
                Override(d.querySpecifications, p.querySpecifications),
                Override(d.rdbSpecification, p.rdbSpecification))
  }

  // ---------------------------------------------------------------------
  // Properties

  /** With no argument, or with an empty one, the defaults come back. */
  lemma CreateGlobalStateNothingSupplied()
    ensures CreateGlobalState(None) == DefaultGlobalState()
    ensures CreateGlobalState(Some(NothingSupplied)) == DefaultGlobalState()
  {
  }

  /** A partial state that supplies every field is taken as it is. */
  lemma CreateGlobalStateWhole(s: GlobalState)
    ensures CreateGlobalState(Some(Whole(s))) == s
  {
  }

  /** Supplying one field changes that field and keeps the defaults of the
      rest. */
  lemma CreateGlobalStateOneField(name: Nullable<string>, tables: seq<RdbTable>)
    ensures CreateGlobalState(Some(NothingSupplied.(name := Some(name))))
         == DefaultGlobalState().(name := name)
    ensures CreateGlobalState(Some(NothingSupplied.(rdbSpecification := Some(tables))))
         == DefaultGlobalState().(rdbSpecification := tables)
  {
  }

  /** The document utilities' initial state is the factory default. */
  lemma InitialGlobalStateIsDefault()
    ensures InitialGlobalState == DefaultGlobalState()
  {
  }

  /** The default state passes the state schema. */
  lemma DefaultGlobalStateValid()
    ensures RdbProcessorSpecificationStateSchema(EncodeState(DefaultGlobalState()))
  {
    var e := EncodeState(DefaultGlobalState());
    assert e.fields["querySpecifications"].items == [];
    assert e.fields["rdbSpecification"].items == [];
  }
}
