/** Nullable state fields and the three-way input fields of action payloads.

    A stored field of the document is either `null` or a value. An input field
    of an action payload can additionally be left out of the payload entirely
    (`undefined`); the operations tell the two apart with `!== undefined` and
    collapse what is left with `?? null` or `?? default`.
 */
module Values {

  /** A state field that may hold `null`. */
  datatype Nullable<T> = Null | NonNull(value: T)

  /** An input field: absent from the payload, explicitly `null`, or given. */
  datatype InputMaybe<T> = Absent | ExplicitNull | Given(value: T)

  datatype Option<T> = None | Some(value: T)

  /** `f ?? null`: absent and explicit null both become null. */
  function OrNull<T>(f: InputMaybe<T>): (r: Nullable<T>)
    ensures r.NonNull? <==> f.Given?
    ensures f.Given? ==> r.value == f.value
  {
    match f
    case Given(v) => NonNull(v)
    case _ => Null
  }

  /** `f ?? d`: absent and explicit null both become the default `d`. */
  function OrDefault<T>(f: InputMaybe<T>, d: T): (r: T)
    ensures f.Given? ==> r == f.value
    ensures !f.Given? ==> r == d
  {
    match f
    case Given(v) => v
    case _ => d
  }

  /** `if (f !== undefined) { field = f ?? null }`: the update rule of every
      nullable field. */
  function Patch<T>(current: Nullable<T>, f: InputMaybe<T>): (r: Nullable<T>)
    ensures f.Absent? ==> r == current
    ensures f.ExplicitNull? ==> r == Null
    ensures f.Given? ==> r == NonNull(f.value)
  {
    if f.Absent? then current else OrNull(f)
  }

  /** `if (f !== undefined) { field = f ?? d }`: the update rule of a field
      that is not nullable in the state (a boolean, the column type). */
  function PatchOr<T>(current: T, f: InputMaybe<T>, d: T): (r: T)
    ensures f.Absent? ==> r == current
    ensures f.ExplicitNull? ==> r == d
    ensures f.Given? ==> r == f.value
  {
    if f.Absent? then current else OrDefault(f, d)
  }

  /** Applying the same patch twice is the same as applying it once. */
  lemma PatchIdempotent<T>(current: Nullable<T>, f: InputMaybe<T>)
    ensures Patch(Patch(current, f), f) == Patch(current, f)
  {
  }

  lemma PatchOrIdempotent<T>(current: T, f: InputMaybe<T>, d: T)
    ensures PatchOr(PatchOr(current, f, d), f, d) == PatchOr(current, f, d)
  {
  }
}
