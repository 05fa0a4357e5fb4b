/**
 * The three list primitives the stores use to reconcile their in-memory
 * lists with a service reply, keyed by a record's `id`: `findIndex`,
 * `find` and `filter(x => x.id !== id)`, plus the indexed replacement
 * `list[findIndex(...)] = record` that follows a successful update.
 */
module Collections {
  import opened Remote

  /** `i` is the position of the first element of `s` whose key is `id`. */
  ghost predicate FirstMatch<T>(s: seq<T>, key: T -> string, id: string, i: int)
  {
    0 <= i < |s| && key(s[i]) == id && forall j :: 0 <= j < i ==> key(s[j]) != id
  }

  /** `findIndex`: the first position holding `id`, or -1 when no element does. */
  function FindIndex<T>(s: seq<T>, key: T -> string, id: string): (r: int)
    ensures -1 <= r < |s|
    ensures r == -1 <==> forall j :: 0 <= j < |s| ==> key(s[j]) != id
    ensures r != -1 ==> FirstMatch(s, key, id, r)
  {
    if |s| == 0 then -1
    else if key(s[0]) == id then 0
    else
      var k := FindIndex(s[1..], key, id);
      if k == -1 then -1 else k + 1
  }

  /** `find`: the first element holding `id`, or null (`undefined`) when none does. */
  function Find<T>(s: seq<T>, key: T -> string, id: string): (r: Option<T>)
    ensures r.None? <==> forall j :: 0 <= j < |s| ==> key(s[j]) != id
    ensures r.Some? ==> exists i :: FirstMatch(s, key, id, i) && s[i] == r.value
  {
    var i := FindIndex(s, key, id);
    if i == -1 then None else Some(s[i])
  }

  /** `filter(x => x.id !== id)`: every element whose key is not `id`, in order. */
  function Without<T>(s: seq<T>, key: T -> string, id: string): (r: seq<T>)
    ensures |r| <= |s|
    ensures forall j :: 0 <= j < |r| ==> r[j] in s && key(r[j]) != id
    ensures forall j :: 0 <= j < |s| && key(s[j]) != id ==> s[j] in r
    ensures (forall j :: 0 <= j < |s| ==> key(s[j]) != id) ==> r == s
  {
    if |s| == 0 then []
    else (if key(s[0]) == id then [] else [s[0]]) + Without(s[1..], key, id)
  }

  /** Filtering works piecewise, so the survivors keep their relative order. */
  lemma {:induction false} WithoutConcat<T>(a: seq<T>, b: seq<T>, key: T -> string, id: string)
    ensures Without(a + b, key, id) == Without(a, key, id) + Without(b, key, id)
  {
    if |a| == 0 {
      assert a + b == b;
    } else {
      assert (a + b)[0] == a[0];
      assert (a + b)[1..] == a[1..] + b;
      WithoutConcat(a[1..], b, key, id);
    }
  }

  /**
   * `list[findIndex(id)] = x` when the index is not -1: the first element
   * holding `id` becomes `x`, and nothing else changes.
   */
  function ReplaceFirst<T>(s: seq<T>, key: T -> string, id: string, x: T): (r: seq<T>)
    ensures |r| == |s|
    ensures (forall j :: 0 <= j < |s| ==> key(s[j]) != id) ==> r == s
    ensures forall i :: FirstMatch(s, key, id, i) ==> r == s[i := x]
  {
    var i := FindIndex(s, key, id);
    if i == -1 then s else s[i := x]
  }
}
