/** The two array primitives every operation is built from: `find` (the first
    entry whose id equals a given id) and `filter` (every entry whose id differs
    from a given id, in their original order). Each is a recursive reference
    function and a loop method proved equal to it.
 */
module Lists {
  import opened Values

  /** Index of the first entry of `s` whose key is `id`. */
  function FirstIndex<T>(s: seq<T>, key: T -> string, id: string): (r: Option<nat>)
    ensures r.Some? ==> r.value < |s| && key(s[r.value]) == id
    ensures r.Some? ==> forall j :: 0 <= j < r.value ==> key(s[j]) != id
    ensures r.None? <==> forall j :: 0 <= j < |s| ==> key(s[j]) != id
  {
    if |s| == 0 then None
    else if key(s[0]) == id then Some(0)
    else match FirstIndex(s[1..], key, id)
      case None => None
      case Some(i) => Some(i + 1)
  }

  /** The clauses of FirstIndex determine it: any index that satisfies them is it. */
  lemma FirstIndexUnique<T>(s: seq<T>, key: T -> string, id: string, i: nat)
    requires i < |s| && key(s[i]) == id
    requires forall j :: 0 <= j < i ==> key(s[j]) != id
    ensures FirstIndex(s, key, id) == Some(i)
  {
    var r := FirstIndex(s, key, id);
    assert r.Some?;
    assert !(r.value < i) && !(r.value > i);
  }

  /** Two sequences whose entries carry the same keys position by position
      have the same first match. Updates that keep ids rely on this. */
  lemma {:induction false} FirstIndexSameKeys<T>(a: seq<T>, b: seq<T>, key: T -> string, id: string)
    requires |a| == |b|
    requires forall j :: 0 <= j < |a| ==> key(a[j]) == key(b[j])
    ensures FirstIndex(a, key, id) == FirstIndex(b, key, id)
  {
    if |a| > 0 && key(a[0]) != id {
      FirstIndexSameKeys(a[1..], b[1..], key, id);
    }
  }

  /** `b` agrees with `a` everywhere except possibly at position `i`. */
  predicate UnchangedExcept<T(==)>(a: seq<T>, b: seq<T>, i: int)
  {
    |a| == |b| && forall j :: 0 <= j < |a| && j != i ==> a[j] == b[j]
  }

  /** The entries of `s` whose key is not `id`, in their original order. */
  function RemoveAll<T>(s: seq<T>, key: T -> string, id: string): (r: seq<T>)
    ensures |r| <= |s|
    ensures forall j :: 0 <= j < |r| ==> key(r[j]) != id && r[j] in s
    ensures forall j :: 0 <= j < |s| && key(s[j]) != id ==> s[j] in r
    ensures (forall j :: 0 <= j < |s| ==> key(s[j]) != id) ==> r == s
    ensures (exists j :: 0 <= j < |s| && key(s[j]) == id) ==> |r| < |s|
  {
    if |s| == 0 then []
    else if key(s[0]) == id then RemoveAll(s[1..], key, id)
    else [s[0]] + RemoveAll(s[1..], key, id)
  }

  /** Filtering commutes with concatenation, so the survivors keep their order. */
  lemma {:induction false} RemoveAllAppend<T>(a: seq<T>, b: seq<T>, key: T -> string, id: string)
    ensures RemoveAll(a + b, key, id) == RemoveAll(a, key, id) + RemoveAll(b, key, id)
  {
    if |a| == 0 {
      assert a + b == b;
    } else {
      assert (a + b)[1..] == a[1..] + b;
      RemoveAllAppend(a[1..], b, key, id);
    }
  }

  /** Filtering twice by the same id removes nothing more. */
  lemma {:induction false} RemoveAllIdempotent<T>(s: seq<T>, key: T -> string, id: string)
    ensures RemoveAll(RemoveAll(s, key, id), key, id) == RemoveAll(s, key, id)
  {
    var r := RemoveAll(s, key, id);
    assert forall j :: 0 <= j < |r| ==> key(r[j]) != id;
  }

  /** An entry appended at the end and then filtered out by its own id leaves
      the filter of what was there before. */
  lemma RemoveAllAppended<T>(s: seq<T>, x: T, key: T -> string)
    ensures RemoveAll(s + [x], key, key(x)) == RemoveAll(s, key, key(x))
  {
    RemoveAllAppend(s, [x], key, key(x));
    assert RemoveAll([x], key, key(x)) == [];
  }

  /** `array.find`, returning the index of the element found. */
  method Find<T>(s: seq<T>, key: T -> string, id: string) returns (r: Option<nat>)
    ensures r.Some? ==> r.value < |s| && key(s[r.value]) == id
    ensures r.Some? ==> forall j :: 0 <= j < r.value ==> key(s[j]) != id
    ensures r.None? ==> forall j :: 0 <= j < |s| ==> key(s[j]) != id
    ensures r == FirstIndex(s, key, id)
  {
    var i := 0;
    while i < |s|
      invariant 0 <= i <= |s|
      invariant forall j :: 0 <= j < i ==> key(s[j]) != id
    {
      if key(s[i]) == id {
        FirstIndexUnique(s, key, id, i);
        return Some(i);
      }
      i := i + 1;
    }
    return None;
  }

  /** `array.filter(x => key(x) !== id)`. */
  method Filter<T>(s: seq<T>, key: T -> string, id: string) returns (r: seq<T>)
    ensures forall j :: 0 <= j < |r| ==> key(r[j]) != id
    ensures r == RemoveAll(s, key, id)
  {
    r := [];
    var i := 0;
    while i < |s|
      invariant 0 <= i <= |s|
      invariant r == RemoveAll(s[..i], key, id)
    {
      assert s[..i + 1] == s[..i] + [s[i]];
      RemoveAllAppend(s[..i], [s[i]], key, id);
      if key(s[i]) != id {
        r := r + [s[i]];
      }
      i := i + 1;
    }
    assert s[..i] == s;
  }
}
