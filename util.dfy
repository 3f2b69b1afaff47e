/**
 * The helpers of util.py that the services chain into their callbacks,
 * and `unwrapArgs`, which turns the request-argument dictionary (every
 * value a list) into a plain dictionary. Printing is not modelled.
 */
module Util {
  import opened Wrappers
  import opened Data

  /** `pipe` prints a marker and hands its argument on unchanged. */
  function Pipe<T>(inp: T): (r: T)
    ensures r == inp
  {
    inp
  }

  /** `tee` prints its argument and hands it on unchanged. */
  function Tee<T>(inp: T): (r: T)
    ensures r == inp
  {
    inp
  }

  /** `null` discards its argument and returns None. */
  function Null<T>(inp: T): (r: Option<T>)
    ensures r == None
  {
    None
  }

  /** `wrap(d)`: a callback that ignores its argument and returns `d`. */
  function Wrap<A(!new), T>(d: T): (f: A -> T)
    ensures forall a :: f(a) == d
  {
    _ => d
  }

  /**
   * What `unwrapArgs` returns: the first element of every list, under the
   * same key. `val[0]` on an empty list raises IndexError.
   */
  function Unwrapped<V>(argDict: map<string, seq<V>>): Result<map<string, V>, Error>
  {
    if forall k :: k in argDict ==> |argDict[k]| > 0 then
      Success(map k | k in argDict :: argDict[k][0])
    else Failure(IndexError)
  }

  /** `unwrapArgs(argDict)`: fills a fresh dict with `setdefault(key, val[0])`. */
  method UnwrapArgs<V>(argDict: map<string, seq<V>>) returns (r: Result<map<string, V>, Error>)
    ensures r.Success? <==> forall k :: k in argDict ==> |argDict[k]| > 0
    ensures r.Failure? ==> r.error == IndexError
    ensures r.Success? ==> r.value.Keys == argDict.Keys
    ensures r.Success? ==> forall k :: k in argDict ==> r.value[k] == argDict[k][0]
    ensures r == Unwrapped(argDict)
  {
    var unwrapped: map<string, V> := map[];
    var todo := argDict.Keys;
    while todo != {}
      invariant todo <= argDict.Keys
      invariant unwrapped.Keys == argDict.Keys - todo
      invariant forall k :: k in unwrapped ==> |argDict[k]| > 0 && unwrapped[k] == argDict[k][0]
      decreases todo
    {
      var key :| key in todo;
      var val := argDict[key];
      if |val| == 0 {
        return Failure(IndexError);
      }
      if key !in unwrapped {
        unwrapped := unwrapped[key := val[0]];
      }
      todo := todo - {key};
    }
    assert unwrapped == map k | k in argDict :: argDict[k][0];
    r := Success(unwrapped);
  }
}
