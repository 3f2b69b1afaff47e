/**
 * The test doubles of capoeira/mocks.py: an in-memory stand-in for the
 * memcache client, and a request object whose arguments are wrapped in
 * lists as the HTTP layer delivers them.
 */
module Mocks {
  import opened Wrappers
  import opened Data
  import Util

  /** `DictionaryCache`: a dictionary behind memcache's `add`/`get`. */
  class DictionaryCache {
    var cache: map<string, string>

    constructor ()
      ensures cache == map[]
    {
      cache := map[];
    }

    /** `add(key, value)`: stores the value, overwriting any earlier one. */
    method Add(key: string, value: string)
      modifies this
      ensures cache == old(cache)[key := value]
      ensures Get(key) == Success(value)
      ensures forall k :: k != key ==> Get(k) == old(Get(k))
    {
      cache := cache[key := value];
    }

    /** `get(key)`: the stored value; a missing key raises KeyError (memcache would return None). */
    function Get(key: string): (r: Result<string, Error>)
      reads this
      ensures r.Success? <==> key in cache
      ensures r.Success? ==> r.value == cache[key]
      ensures r.Failure? ==> r.error == KeyError(key)
    {
      if key in cache then Success(cache[key]) else Failure(KeyError(key))
    }
  }

  /** The argument dictionary `MockRequest(a)` builds: every value in a one-element list. */
  function Wrapped<V>(a: map<string, V>): map<string, seq<V>>
  {
    map k | k in a :: [a[k]]
  }

  /** `MockRequest`: carries `args` shaped like the ones the HTTP layer passes. */
  class MockRequest<V> {
    var args: map<string, seq<V>>

    constructor (a: map<string, V>)
      ensures args.Keys == a.Keys
      ensures forall k :: k in a ==> args[k] == [a[k]]
      ensures args == Wrapped(a)
    {
      var built: map<string, seq<V>> := map[];
      var todo := a.Keys;
      while todo != {}
        invariant todo <= a.Keys
        invariant built.Keys == a.Keys - todo
        invariant forall k :: k in built ==> built[k] == [a[k]]
        decreases todo
      {
        var key :| key in todo;
        built := built[key := [a[key]]];
        todo := todo - {key};
      }
      args := built;
    }
  }

  /** Unwrapping the arguments of `MockRequest(a)` gives back `a`. */
  lemma UnwrapWrapped<V>(a: map<string, V>)
    ensures Util.Unwrapped(Wrapped(a)) == Success(a)
  {
    var w := Wrapped(a);
    assert forall k :: k in w ==> |w[k]| > 0;
    var u := map k | k in w :: w[k][0];
    assert u == a;
  }
}
