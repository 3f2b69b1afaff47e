/**
 * apiservice.py: the base class of the remote services. A service holds
 * per-service default parameters (the endpoint among them under the
 * reserved key `_baseURL`) and, optionally, a cache client. A lookup builds
 * its query string, consults the cache, fetches the page when the cache
 * has nothing usable, parses the body as JSON and stores the raw body.
 */
module ApiService {
  import opened Wrappers
  import opened Data
  import opened UrlEncoding
  import opened Mocks
  import Util

  /** The reserved key naming the endpoint; it never reaches the query string. */
  const BaseKey: string := "_baseURL"

  /** The parts of a built query: the endpoint and the pairs `urlencode` writes. */
  datatype QueryTarget = QueryTarget(base: Value, pairs: seq<(string, string)>)

  /** `(str(k), str(v))` for every key of `merged`, in iteration order. */
  function RenderedPairs(merged: ParamDict, order: seq<string>): (r: seq<(string, string)>)
    requires forall j :: 0 <= j < |order| ==> order[j] in merged
    ensures |r| == |order|
    ensures forall j :: 0 <= j < |order| ==> r[j] == (order[j], Render(merged[order[j]]))
    decreases |order|
  {
    if order == [] then []
    else [(order[0], Render(merged[order[0]]))] + RenderedPairs(merged, order[1..])
  }

  /**
   * The query `_buildQuery` builds: the defaults updated with the call's
   * parameters, the endpoint taken out of the merged dictionary, the rest
   * encoded. `merged['_baseURL']` raises KeyError when neither side has it.
   */
  function Target(defaults: ParamDict, params: ParamDict, order: seq<string>): Result<QueryTarget, Error>
    requires IsEnumeration(order, MergeParams(defaults, params).Keys - {BaseKey})
  {
    var merged := MergeParams(defaults, params);
    if BaseKey !in merged then Failure(KeyError(BaseKey))
    else Success(QueryTarget(merged[BaseKey], RenderedPairs(merged - {BaseKey}, order)))
  }

  /** `base + urlencode(merged)`: `+` raises TypeError unless the endpoint is a string. */
  function TargetString(t: QueryTarget): Result<string, Error>
  {
    var encoded :- UrlEncode(t.pairs);
    if t.base.Str? then Success(t.base.s + encoded) else Failure(TypeError)
  }

  /** The string `_buildQuery(params)` returns, or the exception it raises. */
  function BuildQuerySpec(defaults: ParamDict, params: ParamDict, order: seq<string>): Result<string, Error>
    requires IsEnumeration(order, MergeParams(defaults, params).Keys - {BaseKey})
  {
    var t :- Target(defaults, params, order);
    TargetString(t)
  }

  /** What the remote page fetch (`getPage`) yields: a body or a failure. */
  datatype FetchResult = Page(body: string) | FetchFailed

  /** How `_deferredQuery` ends: it raises, or its deferred fires with a value. */
  datatype Outcome = Raised(error: Error) | Returned(value: Json)

  /** One lookup: its outcome, whether a page was fetched, and the cache contents afterwards. */
  datatype QueryStep = QueryStep(outcome: Outcome, fetched: bool, stored: map<string, string>)

  /**
   * `_deferredQuery(parameters)` against a service whose `enableMemcache`
   * attribute is `enable` (None when it was never set) and whose cache
   * holds `stored`. A missing attribute, a cache miss on the dictionary
   * cache, and a query that cannot be built all raise before the `try`;
   * a failed fetch returns `{}`; a body that is not JSON returns None;
   * otherwise the parsed body is returned and the raw body cached.
   */
  function QuerySpec(defaults: ParamDict, parameters: ParamDict, order: seq<string>,
                     enable: Option<bool>, stored: map<string, string>,
                     fetch: string -> FetchResult, parse: string -> Option<Json>): QueryStep
    requires IsEnumeration(order, MergeParams(defaults, parameters).Keys - {BaseKey})
  {
    match BuildQuerySpec(defaults, parameters, order)
    case Failure(e) => QueryStep(Raised(e), false, stored)
    case Success(query) =>
      if enable.None? then QueryStep(Raised(AttributeError("enableMemcache")), false, stored)
      else if enable.value && query !in stored then QueryStep(Raised(KeyError(query)), false, stored)
      else
        var cached := if enable.value then stored[query] else "";
        var needFetch := cached == "";
        if needFetch && fetch(query).FetchFailed? then QueryStep(Returned(JObj(map[])), true, stored)
        else
          var body := if needFetch then fetch(query).body else cached;
          match parse(body)
          case None => QueryStep(Returned(JNull), needFetch, stored)
          case Some(parsed) =>
            QueryStep(Returned(parsed), needFetch, if enable.value then stored[query := body] else stored)
  }

  /** `APIService`: defaults, and a cache client when one was given. */
  class APIService {
    var defaults: ParamDict
    var cache: DictionaryCache?
    /** The `enableMemcache` attribute: None while it has never been assigned. */
    var enableMemcache: Option<bool>

    /** `enableMemcache` is set, to True, exactly when a client was passed. */
    ghost predicate Valid()
      reads this
    {
      enableMemcache == (if cache != null then Some(true) else None)
    }

    /** The contents of the cache client, empty when there is none. */
    function Stored(): map<string, string>
      reads this, cache
    {
      if cache == null then map[] else cache.cache
    }

    /** `APIService(memcacheClient=None)`. */
    constructor (memcacheClient: DictionaryCache?)
      ensures Valid()
      ensures defaults == map[] && cache == memcacheClient
    {
      defaults := map[];
      cache := memcacheClient;
      if memcacheClient != null {
        enableMemcache := Some(true);
      } else {
        enableMemcache := None;
      }
    }

    /** `_addToCache(query, response)`: stores the raw response and hands it on. */
    method AddToCache(query: string, response: string) returns (r: string)
      requires cache != null
      modifies cache
      ensures cache.cache == old(cache.cache)[query := response]
      ensures r == response
    {
      cache.Add(query, response);
      r := response;
    }

    /**
     * `_buildQuery(params)`: works on a copy of the defaults, which it
     * leaves as they were (the method modifies nothing).
     */
    method BuildQuery(params: ParamDict, order: seq<string>) returns (r: Result<string, Error>)
      requires IsEnumeration(order, MergeParams(defaults, params).Keys - {BaseKey})
      ensures r == BuildQuerySpec(defaults, params, order)
    {
      var merged := defaults;
      merged := merged + params;
      if BaseKey !in merged {
        return Failure(KeyError(BaseKey));
      }
      var base := merged[BaseKey];
      merged := merged - {BaseKey};
      var encoded := UrlEncode(RenderedPairs(merged, order));
      if encoded.Failure? {
        return Failure(encoded.error);
      }
      if !base.Str? {
        return Failure(TypeError);
      }
      r := Success(base.s + encoded.value);
    }

    /** `_unwrapArgs(request)`: the first element of each list in `request.args`. */
    method UnwrapArgs<V>(request: MockRequest<V>) returns (r: Result<map<string, V>, Error>)
      ensures r.Success? <==> forall k :: k in request.args ==> |request.args[k]| > 0
      ensures r.Failure? ==> r.error == IndexError
      ensures r.Success? ==> r.value.Keys == request.args.Keys
      ensures r.Success? ==> forall k :: k in request.args ==> r.value[k] == request.args[k][0]
    {
      r := Util.UnwrapArgs(request.args);
    }

    /** `_deferredQuery(parameters)`, with the fetch and the JSON parser as oracles. */
    method DeferredQuery(parameters: ParamDict, order: seq<string>,
                         fetch: string -> FetchResult, parse: string -> Option<Json>)
      returns (outcome: Outcome, fetched: bool)
      requires Valid()
      requires IsEnumeration(order, MergeParams(defaults, parameters).Keys - {BaseKey})
      modifies cache
      ensures QueryStep(outcome, fetched, Stored())
           == QuerySpec(defaults, parameters, order, enableMemcache, old(Stored()), fetch, parse)
    {
      fetched := false;
      var built := BuildQuery(parameters, order);
      if built.Failure? {
        return Raised(built.error), false;
      }
      var query := built.value;
      var response: Option<string> := None;
      if enableMemcache.None? {
        return Raised(AttributeError("enableMemcache")), false;
      }
      if enableMemcache.value {
        var got := cache.Get(query);
        if got.Failure? {
          return Raised(got.error), false;
        }
        response := Some(got.value);
      }
      // try:
      if response.None? || response.value == "" {
        fetched := true;
        var page := fetch(query);
        if page.FetchFailed? {
          // except Exception: returnValue(dict())
          return Returned(JObj(map[])), true;
        }
        response := Some(page.body);
      }
      var parsed := parse(response.value);
      if parsed.None? {
        // except ValueError: logged; `parsed` stays None
        return Returned(JNull), fetched;
      }
      if enableMemcache.value {
        var _ := AddToCache(query, response.value);
      }
      outcome := Returned(parsed.value);
    }
  }

  // ---------------------------------------------------------------------
  // Query building.

  /**
   * `_buildQuery` succeeds on the target exactly when one side supplies
   * `_baseURL`; the endpoint is the call's when it has one, else the
   * default; and the encoded pairs cover every other merged key, never
   * `_baseURL`.
   */
  lemma TargetBase(defaults: ParamDict, params: ParamDict, order: seq<string>)
    requires IsEnumeration(order, MergeParams(defaults, params).Keys - {BaseKey})
    ensures Target(defaults, params, order).Success? <==> BaseKey in defaults || BaseKey in params
    ensures Target(defaults, params, order).Failure? ==> Target(defaults, params, order).error == KeyError(BaseKey)
    ensures Target(defaults, params, order).Success? ==>
      Target(defaults, params, order).value.base
        == (if BaseKey in params then params[BaseKey] else defaults[BaseKey])
    ensures Target(defaults, params, order).Success? ==>
      forall j :: 0 <= j < |Target(defaults, params, order).value.pairs| ==>
        Target(defaults, params, order).value.pairs[j].0 != BaseKey
  {
  }

  /**
   * A key of the call's parameters is encoded with the call's value; a
   * default the call does not override is encoded with the default value.
   */
  lemma TargetParamsWin(defaults: ParamDict, params: ParamDict, order: seq<string>, k: string)
    requires IsEnumeration(order, MergeParams(defaults, params).Keys - {BaseKey})
    requires Target(defaults, params, order).Success?
    requires k != BaseKey && (k in params || k in defaults)
    ensures exists j :: (0 <= j < |order|
      && Target(defaults, params, order).value.pairs[j]
         == (k, Render(if k in params then params[k] else defaults[k])))
  {
    var merged := MergeParams(defaults, params);
    assert k in merged.Keys - {BaseKey};
    var j :| 0 <= j < |order| && order[j] == k;
    assert RenderedPairs(merged - {BaseKey}, order)[j] == (k, Render(merged[k]));
  }

  /**
   * A built query is the endpoint followed by the encoded pairs, and the
   * part after the endpoint decodes back to exactly those pairs.
   */
  lemma BuildQueryDecodes(defaults: ParamDict, params: ParamDict, order: seq<string>)
    requires IsEnumeration(order, MergeParams(defaults, params).Keys - {BaseKey})
    requires BuildQuerySpec(defaults, params, order).Success?
    ensures Target(defaults, params, order).Success?
    ensures var t := Target(defaults, params, order).value;
      var q := BuildQuerySpec(defaults, params, order).value;
      && t.base.Str? && |t.base.s| <= |q| && q[..|t.base.s|] == t.base.s
      && DecodeQuery(q[|t.base.s|..]) == t.pairs
  {
    var t := Target(defaults, params, order).value;
    var q := BuildQuerySpec(defaults, params, order).value;
    UrlEncodeRoundTrip(t.pairs);
    assert q == t.base.s + UrlEncode(t.pairs).value;
    assert q[|t.base.s|..] == UrlEncode(t.pairs).value;
  }

  // ---------------------------------------------------------------------
  // The cache and fetch paths of `_deferredQuery`.

  /**
   * Without a cache client `enableMemcache` was never assigned, so every
   * lookup whose query can be built raises AttributeError before fetching.
   */
  lemma NoClientAlwaysRaises(defaults: ParamDict, parameters: ParamDict, order: seq<string>,
                             stored: map<string, string>,
                             fetch: string -> FetchResult, parse: string -> Option<Json>)
    requires IsEnumeration(order, MergeParams(defaults, parameters).Keys - {BaseKey})
    requires BuildQuerySpec(defaults, parameters, order).Success?
    ensures QuerySpec(defaults, parameters, order, None, stored, fetch, parse)
         == QueryStep(Raised(AttributeError("enableMemcache")), false, stored)
  {
  }

  /** The dictionary cache raises KeyError on a miss, so the lookup raises instead of fetching. */
  lemma DictionaryCacheMissRaises(defaults: ParamDict, parameters: ParamDict, order: seq<string>,
                                  stored: map<string, string>,
                                  fetch: string -> FetchResult, parse: string -> Option<Json>)
    requires IsEnumeration(order, MergeParams(defaults, parameters).Keys - {BaseKey})
    requires BuildQuerySpec(defaults, parameters, order).Success?
    requires BuildQuerySpec(defaults, parameters, order).value !in stored
    ensures var query := BuildQuerySpec(defaults, parameters, order).value;
      QuerySpec(defaults, parameters, order, Some(true), stored, fetch, parse)
        == QueryStep(Raised(KeyError(query)), false, stored)
  {
  }

  /**
   * A non-empty cached response is parsed without a fetch: it yields the
   * parsed value (None when it is not JSON), and re-adding the same body
   * leaves the cache as it was.
   */
  lemma TruthyCachedResponseNotFetched(defaults: ParamDict, parameters: ParamDict, order: seq<string>,
                                       stored: map<string, string>,
                                       fetch: string -> FetchResult, parse: string -> Option<Json>)
    requires IsEnumeration(order, MergeParams(defaults, parameters).Keys - {BaseKey})
    requires BuildQuerySpec(defaults, parameters, order).Success?
    requires var query := BuildQuerySpec(defaults, parameters, order).value;
      query in stored && stored[query] != ""
    ensures var query := BuildQuerySpec(defaults, parameters, order).value;
      var step := QuerySpec(defaults, parameters, order, Some(true), stored, fetch, parse);
      && !step.fetched
      && step.stored == stored
      && step.outcome == Returned(if parse(stored[query]).Some? then parse(stored[query]).value else JNull)
  {
    var query := BuildQuerySpec(defaults, parameters, order).value;
    assert stored[query := stored[query]] == stored;
  }

  /**
   * When the page has to be fetched (caching off, or an empty cached
   * response): a failed fetch yields `{}`, a body that is not JSON yields
   * None, and neither touches the cache; a parsed body is returned and,
   * with caching on, the raw body is cached under the query string.
   */
  lemma FetchedResponseOutcomes(defaults: ParamDict, parameters: ParamDict, order: seq<string>,
                                enable: bool, stored: map<string, string>,
                                fetch: string -> FetchResult, parse: string -> Option<Json>)
    requires IsEnumeration(order, MergeParams(defaults, parameters).Keys - {BaseKey})
    requires BuildQuerySpec(defaults, parameters, order).Success?
    requires var query := BuildQuerySpec(defaults, parameters, order).value;
      enable ==> query in stored && stored[query] == ""
    ensures var query := BuildQuerySpec(defaults, parameters, order).value;
      var step := QuerySpec(defaults, parameters, order, Some(enable), stored, fetch, parse);
      && step.fetched
      && (fetch(query).FetchFailed? ==> step.outcome == Returned(JObj(map[])) && step.stored == stored)
      && (fetch(query).Page? && parse(fetch(query).body).None? ==>
            step.outcome == Returned(JNull) && step.stored == stored)
      && (fetch(query).Page? && parse(fetch(query).body).Some? ==>
            && step.outcome == Returned(parse(fetch(query).body).value)
            && step.stored == (if enable then stored[query := fetch(query).body] else stored))
  {
  }
}
