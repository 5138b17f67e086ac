/** Failure values for the resume builder.

    The builder reads every entity through a dictionary lookup; a name that
    is missing raises a lookup failure that aborts the whole run. `Result`
    carries that failure as a value naming the collection and the key.
 */
module Results {

  datatype Option<+T> = None | Some(value: T)

  /** A failed lookup `collection[key]`. */
  datatype Missing = Missing(collection: string, key: string)

  datatype Result<+T> = Ok(value: T) | Err(error: Missing)

  /** `keys[i]` is the first key of `keys` that `m` lacks. */
  ghost predicate FirstMissingAt<T>(keys: seq<string>, m: map<string, T>, i: int)
  {
    && 0 <= i < |keys|
    && keys[i] !in m
    && forall j :: 0 <= j < i ==> keys[j] in m
  }

  /** Looks every key up in order, stopping at the first one that is absent,
      as a loop of subscripts `m[k]` does. */
  function LookupAll<T>(collection: string, keys: seq<string>, m: map<string, T>): (r: Result<seq<T>>)
    ensures r.Ok? <==> forall k :: k in keys ==> k in m
    ensures r.Ok? ==> |r.value| == |keys| && forall i :: 0 <= i < |keys| ==> r.value[i] == m[keys[i]]
    ensures r.Err? ==> r.error.collection == collection
    ensures r.Err? ==> exists i :: FirstMissingAt(keys, m, i) && keys[i] == r.error.key
  {
    if |keys| == 0 then Ok([])
    else if keys[0] !in m then
      assert FirstMissingAt(keys, m, 0);
      Err(Missing(collection, keys[0]))
    else
      match LookupAll(collection, keys[1..], m)
      case Err(e) =>
        assert exists i :: FirstMissingAt(keys, m, i) && keys[i] == e.key by {
          var i :| FirstMissingAt(keys[1..], m, i) && keys[1..][i] == e.key;
          assert FirstMissingAt(keys, m, i + 1);
        }
        Err(e)
      case Ok(vs) => Ok([m[keys[0]]] + vs)
  }

  /** Lookups of `a + b` fail at the first failure of `a`, else at that of `b`. */
  lemma {:induction false} LookupAllAppend<T>(collection: string, a: seq<string>, b: seq<string>, m: map<string, T>)
    ensures LookupAll(collection, a + b, m) ==
      match LookupAll(collection, a, m)
      case Err(e) => Err(e)
      case Ok(va) =>
        match LookupAll(collection, b, m)
        case Err(e) => Err(e)
        case Ok(vb) => Ok(va + vb)
  {
    if |a| == 0 {
      assert a + b == b;
      match LookupAll(collection, b, m)
      case Err(e) =>
      case Ok(vb) => assert [] + vb == vb;
    } else {
      assert (a + b)[0] == a[0];
      assert (a + b)[1..] == a[1..] + b;
      if a[0] in m {
        LookupAllAppend(collection, a[1..], b, m);
        match LookupAll(collection, a[1..], m)
        case Err(e) =>
        case Ok(va) =>
          match LookupAll(collection, b, m)
          case Err(e) =>
          case Ok(vb) =>
            assert [m[a[0]]] + (va + vb) == ([m[a[0]]] + va) + vb;
      }
    }
  }
}
