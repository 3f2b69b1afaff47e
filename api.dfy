/**
 * api.py: the older interface objects. An `APIInterface` holds a default
 * parameter dictionary whose `baseURL` entry is the endpoint; `buildQuery`
 * merges the call's parameters over the defaults and appends the other
 * entries as unescaped `key=value` pairs joined with `&`.
 */
module Api {
  import opened Wrappers
  import opened Data
  import opened UrlEncoding

  /** The reserved key that carries the endpoint in the older interfaces. */
  const BaseURLKey: string := "baseURL"

  /** The fields of an `APIInterface` object; they are set once and never updated. */
  datatype APIInterface = APIInterface(defaultDict: ParamDict, apiKey: Option<string>)

  /** `APIInterface()`: no defaults and no API key. */
  function NewAPIInterface(): (i: APIInterface)
    ensures i.defaultDict == map[] && i.apiKey == None
  {
    APIInterface(map[], None)
  }

  /** `'{}={}'.format(param, val)` for each key, in iteration order. */
  function PairStrings(merged: ParamDict, order: seq<string>): (r: seq<string>)
    requires forall j :: 0 <= j < |order| ==> order[j] in merged
    ensures |r| == |order|
    ensures forall j :: 0 <= j < |order| ==> r[j] == order[j] + "=" + Render(merged[order[j]])
    decreases |order|
  {
    if order == [] then []
    else [order[0] + "=" + Render(merged[order[0]])] + PairStrings(merged, order[1..])
  }

  /** The string `buildQuery` returns, or the exception it raises. */
  function LegacyQuery(i: APIInterface, paramDict: ParamDict, order: seq<string>): Result<string, Error>
    requires IsEnumeration(order, MergeParams(i.defaultDict, paramDict).Keys - {BaseURLKey})
  {
    var merged := MergeParams(i.defaultDict, paramDict);
    var paramString := PairStrings(merged, order);
    if BaseURLKey !in merged then Failure(KeyError(BaseURLKey))
    else match merged[BaseURLKey]
      case Str(base) => Success(base + Join(paramString, '&'))
      case Int(_) => Failure(TypeError)
  }

  /**
   * `APIInterface.buildQuery(paramDict)`: copy the defaults, update them
   * with the call's parameters, render the pairs, prefix the base URL.
   */
  method BuildQuery(i: APIInterface, paramDict: ParamDict, order: seq<string>) returns (r: Result<string, Error>)
    requires IsEnumeration(order, MergeParams(i.defaultDict, paramDict).Keys - {BaseURLKey})
    ensures r == LegacyQuery(i, paramDict, order)
  {
    var mergedDict := i.defaultDict;
    mergedDict := mergedDict + paramDict;
    var paramString := PairStrings(mergedDict, order);
    if BaseURLKey !in mergedDict {
      return Failure(KeyError(BaseURLKey));
    }
    var base := mergedDict[BaseURLKey];
    if !base.Str? {
      return Failure(TypeError);
    }
    r := Success(base.s + Join(paramString, '&'));
  }

  // ---------------------------------------------------------------------
  // What a built query looks like.

  /** `buildQuery` raises KeyError exactly when neither side supplies `baseURL`. */
  lemma LegacyQueryNeedsBaseURL(i: APIInterface, paramDict: ParamDict, order: seq<string>)
    requires IsEnumeration(order, MergeParams(i.defaultDict, paramDict).Keys - {BaseURLKey})
    ensures LegacyQuery(i, paramDict, order) == Failure(KeyError(BaseURLKey))
        <==> BaseURLKey !in i.defaultDict && BaseURLKey !in paramDict
  {
  }

  /**
   * A successful query is the merged base URL followed by the `key=value`
   * pieces of every other merged key joined with `&`; `baseURL` itself is
   * never among them.
   */
  lemma LegacyQueryShape(i: APIInterface, paramDict: ParamDict, order: seq<string>)
    requires IsEnumeration(order, MergeParams(i.defaultDict, paramDict).Keys - {BaseURLKey})
    requires LegacyQuery(i, paramDict, order).Success?
    ensures BaseURLKey in MergeParams(i.defaultDict, paramDict)
    ensures MergeParams(i.defaultDict, paramDict)[BaseURLKey].Str?
    ensures LegacyQuery(i, paramDict, order).value
         == MergeParams(i.defaultDict, paramDict)[BaseURLKey].s
            + Join(PairStrings(MergeParams(i.defaultDict, paramDict), order), '&')
    ensures BaseURLKey !in order
  {
  }

  /**
   * Every parameter of the call appears as `key=value` with the call's
   * value, and every default the call does not override appears with the
   * default value.
   */
  lemma LegacyQueryParamsWin(i: APIInterface, paramDict: ParamDict, order: seq<string>, k: string)
    requires IsEnumeration(order, MergeParams(i.defaultDict, paramDict).Keys - {BaseURLKey})
    requires k != BaseURLKey && (k in paramDict || k in i.defaultDict)
    ensures exists j :: (0 <= j < |order| && order[j] == k
      && PairStrings(MergeParams(i.defaultDict, paramDict), order)[j]
         == k + "=" + Render(if k in paramDict then paramDict[k] else i.defaultDict[k]))
  {
    var merged := MergeParams(i.defaultDict, paramDict);
    assert k in merged.Keys - {BaseURLKey};
    var j :| 0 <= j < |order| && order[j] == k;
    assert PairStrings(merged, order)[j] == k + "=" + Render(merged[k]);
  }

  /** Number of occurrences of `c` in `s`. */
  function CountChar(s: string, c: char): nat
    decreases |s|
  {
    if s == [] then 0 else (if s[0] == c then 1 else 0) + CountChar(s[1..], c)
  }

  lemma {:induction false} CountCharAppend(a: string, b: string, c: char)
    ensures CountChar(a + b, c) == CountChar(a, c) + CountChar(b, c)
    decreases |a|
  {
    if a == [] {
      assert a + b == b;
    } else {
      assert (a + b)[0] == a[0] && (a + b)[1..] == a[1..] + b;
      CountCharAppend(a[1..], b, c);
    }
  }

  lemma {:induction false} CountCharAbsent(s: string, c: char)
    requires c !in s
    ensures CountChar(s, c) == 0
    decreases |s|
  {
    if s != [] {
      assert c !in s[1..];
      CountCharAbsent(s[1..], c);
    }
  }

  /** Joining n pieces that hold no separator writes exactly n - 1 separators. */
  lemma {:induction false} JoinSeparatorCount(xs: seq<string>, sep: char)
    requires |xs| >= 1
    requires forall j :: 0 <= j < |xs| ==> sep !in xs[j]
    ensures CountChar(Join(xs, sep), sep) == |xs| - 1
    decreases |xs|
  {
    CountCharAbsent(xs[0], sep);
    if |xs| > 1 {
      JoinSeparatorCount(xs[1..], sep);
      CountCharAppend(xs[0] + [sep], Join(xs[1..], sep), sep);
      CountCharAppend(xs[0], [sep], sep);
      assert CountChar([sep], sep) == 1;
    }
  }

  /**
   * When no key, value or base URL contains `&`, a query over n keys other
   * than `baseURL` contains exactly n - 1 `&` separators.
   */
  lemma LegacyQuerySeparators(i: APIInterface, paramDict: ParamDict, order: seq<string>)
    requires IsEnumeration(order, MergeParams(i.defaultDict, paramDict).Keys - {BaseURLKey})
    requires LegacyQuery(i, paramDict, order).Success?
    requires |order| >= 1
    requires forall k :: k in MergeParams(i.defaultDict, paramDict) ==>
               '&' !in k && '&' !in Render(MergeParams(i.defaultDict, paramDict)[k])
    ensures CountChar(LegacyQuery(i, paramDict, order).value, '&') == |order| - 1
  {
    var merged := MergeParams(i.defaultDict, paramDict);
    var pairs := PairStrings(merged, order);
    forall j | 0 <= j < |pairs| ensures '&' !in pairs[j] {
      assert pairs[j] == order[j] + "=" + Render(merged[order[j]]);
    }
    JoinSeparatorCount(pairs, '&');
    var base := merged[BaseURLKey].s;
    assert '&' !in Render(merged[BaseURLKey]);
    CountCharAbsent(base, '&');
    CountCharAppend(base, Join(pairs, '&'), '&');
  }
}
