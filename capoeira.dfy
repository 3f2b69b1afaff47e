/**
 * capoeira.py: `CapoeiraService`, which looks queries up through the older
 * interfaces (api.py, lastfm.py, songkick.py) behind a dictionary of
 * timestamped responses that stay fresh for 24 hours, and merges the
 * Songkick events found for a list of similar artists.
 */
module Capoeira {
  import opened Wrappers
  import opened Data
  import opened Merge
  import Api
  import LegacyLastFM
  import LegacySongkick
  import ApiService

  /** The interface object a query went through. */
  datatype Interface =
    | SongkickAPI(api: Api.APIInterface)
    | LastFMAPI(lastfm: LegacyLastFM.LastFMInterface)

  /** `CacheEntry(response, interface, timestamp)`, the time in seconds. */
  datatype CacheEntry = CacheEntry(response: Json, interface: Interface, timestamp: int)

  /** `timedelta(hours=24)` in seconds. */
  const TTL: int := 86400

  /** The freshness test of `deferredQuery`: `timestamp + 24h > now`. */
  predicate IsFresh(entry: CacheEntry, now: int)
  {
    entry.timestamp + TTL > now
  }

  /**
   * `interface.buildQuery(paramDict)`: only the Songkick interface extends
   * `APIInterface`; `LastFMInterface` has no `buildQuery`, so the attribute
   * lookup raises.
   */
  function InterfaceQuery(i: Interface, paramDict: ParamDict, order: seq<string>): Result<string, Error>
    requires i.SongkickAPI? ==> IsEnumeration(order, MergeParams(i.api.defaultDict, paramDict).Keys - {Api.BaseURLKey})
  {
    match i
    case SongkickAPI(api) => Api.LegacyQuery(api, paramDict, order)
    case LastFMAPI(_) => Failure(AttributeError("buildQuery"))
  }

  /**
   * How the deferred returned by `deferredQuery` ends: it fires with the
   * consuming callback's value, or it ends in failure (the `stderr.write`
   * errbacks raise TypeError on a Failure object, so a failed fetch or parse
   * is never recovered), or `deferredQuery` raises before returning it.
   */
  datatype Delivery = Delivered(value: Json) | FailedDeferred | RaisedNow(error: Error)

  /** One lookup: what is delivered, whether a page was fetched, and the cache afterwards. */
  datatype LookupStep = LookupStep(delivery: Delivery, fetched: bool, cache: map<string, CacheEntry>)

  /**
   * `deferredQuery(interface, paramDict, consumingCallback)` on a service
   * whose cache is `cache`: a fresh entry is delivered without fetching;
   * otherwise the page is fetched and parsed, and a parsed response is
   * cached with the time it arrived (`arrival`) and delivered.
   */
  function DeferredQuerySpec(cache: map<string, CacheEntry>, i: Interface, paramDict: ParamDict, order: seq<string>,
                             now: int, arrival: int, fetch: string -> ApiService.FetchResult,
                             parse: string -> Option<Json>, consume: Json -> Json): LookupStep
    requires i.SongkickAPI? ==> IsEnumeration(order, MergeParams(i.api.defaultDict, paramDict).Keys - {Api.BaseURLKey})
  {
    match InterfaceQuery(i, paramDict, order)
    case Failure(e) => LookupStep(RaisedNow(e), false, cache)
    case Success(q) =>
      if q in cache && IsFresh(cache[q], now) then LookupStep(Delivered(consume(cache[q].response)), false, cache)
      else
        match fetch(q)
        case FetchFailed => LookupStep(FailedDeferred, true, cache)
        case Page(body) =>
          match parse(body)
          case None => LookupStep(FailedDeferred, true, cache)
          case Some(v) => LookupStep(Delivered(consume(v)), true, cache[q := CacheEntry(v, i, arrival)])
  }

  /** The list `similarArtistsDeferredList` indexes: `query['similarartists']['artist']`. */
  function ArtistList(query: Json): Result<seq<Json>, Error>
  {
    var similar :- Index(query, "similarartists");
    var artists :- Index(similar, "artist");
    match artists
    case JArr(items) => Success(items)
    // `artists[0]` on a JSON object: its keys are strings, so KeyError(0).
    case JObj(fields) => if fields == map[] then Success([]) else Failure(KeyError("0"))
    // `artists[0]['name']` on a string: TypeError.
    case JStr(s) => if s == "" then Success([]) else Failure(TypeError)
    case _ => Failure(TypeError)
  }

  /** `[cleanString(a['name']) for a in artists]`, failing at the first artist without a name. */
  function NamesOf(artists: seq<Json>, clean: Json -> string): Result<seq<string>, Error>
    decreases |artists|
  {
    if artists == [] then Success([])
    else
      var name :- Index(artists[0], "name");
      var rest :- NamesOf(artists[1..], clean);
      Success([clean(name)] + rest)
  }

  /** The artist names `similarArtistsDeferredList` extracts; `cleanString` is the parameter `clean`. */
  function ArtistNames(query: Json, clean: Json -> string): Result<seq<string>, Error>
  {
    var artists :- ArtistList(query);
    NamesOf(artists, clean)
  }

  /**
   * The parameter dictionaries of the secondary lookups: one
   * `upcomingEvents(artistName)` per name, with the import-time date
   * defaults passed in.
   */
  function SimilarArtistQueries(query: Json, clean: Json -> string, minDate: Value, maxDate: Value)
    : Result<seq<ParamDict>, Error>
  {
    var names :- ArtistNames(query, clean);
    Success(seq(|names|, k requires 0 <= k < |names| => LegacySongkick.UpcomingEvents(Str(names[k]), minDate, maxDate)))
  }

  /** `CapoeiraService`: the two interfaces and the response cache. */
  class CapoeiraService {
    const lastFMInterface: LegacyLastFM.LastFMInterface
    const songkickInterface: Api.APIInterface
    var cache: map<string, CacheEntry>

    /** `CapoeiraService(lastFM, songkick)`, given what `./cache` unpickles to, if it exists. */
    constructor (lastFMInterface: LegacyLastFM.LastFMInterface, songkickInterface: Api.APIInterface,
                 persisted: Option<map<string, CacheEntry>>)
      ensures this.lastFMInterface == lastFMInterface && this.songkickInterface == songkickInterface
      ensures cache == (if persisted.Some? then persisted.value else map[])
    {
      this.lastFMInterface := lastFMInterface;
      this.songkickInterface := songkickInterface;
      if persisted.Some? {
        cache := persisted.value;
      } else {
        cache := map[];
      }
    }

    /**
     * `addToCache(queryString, interface, response)` at time `now`: any
     * earlier entry is deleted, then the new one inserted; every other key
     * keeps its entry, and the response is handed on.
     */
    method AddToCache(queryString: string, interface: Interface, response: Json, now: int) returns (r: Json)
      modifies this
      ensures cache == old(cache)[queryString := CacheEntry(response, interface, now)]
      ensures forall q :: q in old(cache) && q != queryString ==> q in cache && cache[q] == old(cache)[q]
      ensures r == response
    {
      if queryString in cache {
        cache := cache - {queryString};
      }
      cache := cache[queryString := CacheEntry(response, interface, now)];
      r := response;
    }

    /** `deferredQuery`, with the clock reading, the fetch and the parser as parameters. */
    method DeferredQuery(interface: Interface, paramDict: ParamDict, order: seq<string>, now: int, arrival: int,
                         fetch: string -> ApiService.FetchResult, parse: string -> Option<Json>,
                         consume: Json -> Json)
      returns (delivery: Delivery, fetched: bool)
      requires interface.SongkickAPI? ==>
        IsEnumeration(order, MergeParams(interface.api.defaultDict, paramDict).Keys - {Api.BaseURLKey})
      modifies this
      ensures LookupStep(delivery, fetched, cache)
           == DeferredQuerySpec(old(cache), interface, paramDict, order, now, arrival, fetch, parse, consume)
    {
      var built: Result<string, Error>;
      match interface {
        case SongkickAPI(api) =>
          built := Api.BuildQuery(api, paramDict, order);
        case LastFMAPI(_) =>
          built := Failure(AttributeError("buildQuery"));
      }
      if built.Failure? {
        return RaisedNow(built.error), false;
      }
      var queryString := built.value;
      if queryString in cache && cache[queryString].timestamp + TTL > now {
        return Delivered(consume(cache[queryString].response)), false;
      }
      var page := fetch(queryString);
      if page.FetchFailed? {
        return FailedDeferred, true;
      }
      var parsed := parse(page.body);
      if parsed.None? {
        return FailedDeferred, true;
      }
      var response := AddToCache(queryString, interface, parsed.value, arrival);
      delivery, fetched := Delivered(consume(response)), true;
    }

    /**
     * `songkickQuery(args, call)`: `call(**args)` binds the request's
     * arguments (`call` returns the built parameters or the exception the
     * binding raises, such as TypeError for an unexpected keyword), then the
     * built parameters are looked up and consumed by `pipe`.
     */
    method SongkickQuery(args: ParamDict, call: ParamDict -> Result<ParamDict, Error>, order: seq<string>,
                         now: int, arrival: int, fetch: string -> ApiService.FetchResult,
                         parse: string -> Option<Json>)
      returns (delivery: Delivery, fetched: bool)
      requires call(args).Success? ==>
        IsEnumeration(order, MergeParams(songkickInterface.defaultDict, call(args).value).Keys - {Api.BaseURLKey})
      modifies this
      ensures call(args).Failure? ==> delivery == RaisedNow(call(args).error) && !fetched && cache == old(cache)
      ensures call(args).Success? ==>
        LookupStep(delivery, fetched, cache)
          == DeferredQuerySpec(old(cache), SongkickAPI(songkickInterface), call(args).value, order, now, arrival,
                               fetch, parse, j => j)
    {
      var built := call(args);
      if built.Failure? {
        return RaisedNow(built.error), false;
      }
      delivery, fetched := DeferredQuery(SongkickAPI(songkickInterface), built.value, order, now, arrival,
                                         fetch, parse, j => j);
    }

    /**
     * `lastFMQuery(args, call)`: after `call(**args)` binds the arguments,
     * the lookup goes through the Last.fm interface, so it raises before
     * any fetch: the binding's exception if it fails, AttributeError otherwise.
     */
    method LastFMQuery(args: ParamDict, call: ParamDict -> Result<ParamDict, Error>, now: int, arrival: int,
                       fetch: string -> ApiService.FetchResult, parse: string -> Option<Json>)
      returns (delivery: Delivery, fetched: bool)
      modifies this
      ensures delivery == RaisedNow(if call(args).Failure? then call(args).error else AttributeError("buildQuery"))
      ensures !fetched && cache == old(cache)
    {
      var built := call(args);
      if built.Failure? {
        return RaisedNow(built.error), false;
      }
      delivery, fetched := DeferredQuery(LastFMAPI(lastFMInterface), built.value, [], now, arrival,
                                         fetch, parse, j => j);
    }

    /**
     * `combineQuery(args, consumingCallback)`: `artistGetSimilar(**args)`
     * raises TypeError unless `args` holds `artist` and only the keywords
     * the method takes; otherwise the similar-artist lookup goes through the
     * Last.fm interface, so it raises AttributeError before any fetch and
     * `similarArtistsDeferredList` is never reached.
     */
    method CombineQuery(args: ParamDict, now: int, arrival: int,
                        fetch: string -> ApiService.FetchResult, parse: string -> Option<Json>,
                        consume: Json -> Json)
      returns (delivery: Delivery, fetched: bool)
      modifies this
      ensures "artist" in args && args.Keys <= LegacyLastFM.ArtistGetSimilarKeywords ==>
        delivery == RaisedNow(AttributeError("buildQuery"))
      ensures !("artist" in args && args.Keys <= LegacyLastFM.ArtistGetSimilarKeywords) ==>
        delivery == RaisedNow(TypeError)
      ensures !fetched && cache == old(cache)
    {
      var built := LegacyLastFM.BindArtistGetSimilar(args);
      if built.Failure? {
        return RaisedNow(built.error), false;
      }
      delivery, fetched := DeferredQuery(LastFMAPI(lastFMInterface), built.value, [],
                                         now, arrival, fetch, parse, consume);
    }

    /** `mergeResults(results)`: the comprehension, then the two nested loops over a local dictionary. */
    method MergeResults(batch: Batch) returns (r: Result<EventMap, Error>)
      ensures r == MergeSpec(batch)
    {
      var results: seq<Json> := [];
      var i := 0;
      while i < |batch|
        invariant 0 <= i <= |batch|
        invariant SuccessfulResults(batch[..i]) == Success(results)
      {
        SuccessfulResultsAppend(batch[..i], [batch[i]]);
        assert batch[..i + 1] == batch[..i] + [batch[i]];
        assert [batch[i]][1..] == [];
        assert SuccessfulResults([]) == Success([]);
        if batch[i].0 {
          var result := ResultsOf(batch[i].1);
          if result.Failure? {
            SuccessfulResultsAppend(batch[..i + 1], batch[i + 1..]);
            assert batch[..i + 1] + batch[i + 1..] == batch;
            return Failure(result.error);
          }
          assert SuccessfulResults([batch[i]]) == Success([result.value] + []);
          assert [result.value] + [] == [result.value];
          results := results + [result.value];
        } else {
          assert results + [] == results;
        }
        i := i + 1;
      }
      assert batch[..i] == batch;

      var merged: EventMap := map[];
      var j := 0;
      while j < |results|
        invariant 0 <= j <= |results|
        invariant FoldResults(map[], results) == FoldResults(merged, results[j..])
      {
        var result := results[j];
        assert results[j..][0] == result && results[j..][1..] == results[j + 1..];
        var events := EventsOf(result);
        if events.Failure? {
          return Failure(events.error);
        }
        ghost var start := merged;
        var k := 0;
        while k < |events.value|
          invariant 0 <= k <= |events.value|
          invariant FoldEvents(start, events.value) == FoldEvents(merged, events.value[k..])
        {
          var event := events.value[k];
          assert events.value[k..][0] == event && events.value[k..][1..] == events.value[k + 1..];
          var id := IdOf(event);
          if id.Failure? {
            return Failure(id.error);
          }
          merged := merged[id.value := event];
          k := k + 1;
        }
        j := j + 1;
      }
      r := Success(merged);
    }
  }

  // ---------------------------------------------------------------------
  // The cache path of `deferredQuery`.

  /** An entry is fresh exactly until 24 hours after its timestamp: at exactly 24 hours it is stale. */
  lemma FreshnessWindow(entry: CacheEntry, now: int)
    ensures IsFresh(entry, now) <==> now < entry.timestamp + 86400
    ensures !IsFresh(entry, entry.timestamp + 86400) && IsFresh(entry, entry.timestamp + 86399)
  {
  }

  /**
   * A buildable query is served from the cache, without a fetch and with
   * the cache unchanged, exactly when its entry is fresh; otherwise the page
   * is fetched.
   */
  lemma FreshHitServedFromCache(cache: map<string, CacheEntry>, i: Interface, paramDict: ParamDict,
                                order: seq<string>, now: int, arrival: int,
                                fetch: string -> ApiService.FetchResult, parse: string -> Option<Json>,
                                consume: Json -> Json)
    requires i.SongkickAPI? ==> IsEnumeration(order, MergeParams(i.api.defaultDict, paramDict).Keys - {Api.BaseURLKey})
    requires InterfaceQuery(i, paramDict, order).Success?
    ensures var q := InterfaceQuery(i, paramDict, order).value;
      var step := DeferredQuerySpec(cache, i, paramDict, order, now, arrival, fetch, parse, consume);
      && (!step.fetched <==> q in cache && IsFresh(cache[q], now))
      && (q in cache && IsFresh(cache[q], now) ==>
            step.delivery == Delivered(consume(cache[q].response)) && step.cache == cache)
  {
  }

  /**
   * On a miss whose fetch and parse succeed, the cache afterwards maps the
   * query to the parsed response, the interface and the arrival time, and
   * the parsed response is what is consumed.
   */
  lemma MissCachesParsedResponse(cache: map<string, CacheEntry>, i: Interface, paramDict: ParamDict,
                                 order: seq<string>, now: int, arrival: int,
                                 fetch: string -> ApiService.FetchResult, parse: string -> Option<Json>,
                                 consume: Json -> Json)
    requires i.SongkickAPI? ==> IsEnumeration(order, MergeParams(i.api.defaultDict, paramDict).Keys - {Api.BaseURLKey})
    requires InterfaceQuery(i, paramDict, order).Success?
    requires var q := InterfaceQuery(i, paramDict, order).value;
      !(q in cache && IsFresh(cache[q], now)) && fetch(q).Page? && parse(fetch(q).body).Some?
    ensures var q := InterfaceQuery(i, paramDict, order).value;
      var v := parse(fetch(q).body).value;
      var step := DeferredQuerySpec(cache, i, paramDict, order, now, arrival, fetch, parse, consume);
      && step.cache == cache[q := CacheEntry(v, i, arrival)]
      && step.delivery == Delivered(consume(v))
      && IsFresh(step.cache[q], arrival)
  {
  }

  /** A failed fetch or a body that is not JSON fails the deferred and caches nothing. */
  lemma FailureLeavesCache(cache: map<string, CacheEntry>, i: Interface, paramDict: ParamDict,
                           order: seq<string>, now: int, arrival: int,
                           fetch: string -> ApiService.FetchResult, parse: string -> Option<Json>,
                           consume: Json -> Json)
    requires i.SongkickAPI? ==> IsEnumeration(order, MergeParams(i.api.defaultDict, paramDict).Keys - {Api.BaseURLKey})
    requires InterfaceQuery(i, paramDict, order).Success?
    requires var q := InterfaceQuery(i, paramDict, order).value;
      !(q in cache && IsFresh(cache[q], now)) && (fetch(q).FetchFailed? || parse(fetch(q).body).None?)
    ensures DeferredQuerySpec(cache, i, paramDict, order, now, arrival, fetch, parse, consume)
         == LookupStep(FailedDeferred, true, cache)
  {
  }

  /** Whatever the cache holds, a Last.fm lookup raises AttributeError and fetches nothing. */
  lemma LastFMInterfaceRaises(cache: map<string, CacheEntry>, lastfm: LegacyLastFM.LastFMInterface,
                              paramDict: ParamDict, order: seq<string>, now: int, arrival: int,
                              fetch: string -> ApiService.FetchResult, parse: string -> Option<Json>,
                              consume: Json -> Json)
    ensures DeferredQuerySpec(cache, LastFMAPI(lastfm), paramDict, order, now, arrival, fetch, parse, consume)
         == LookupStep(RaisedNow(AttributeError("buildQuery")), false, cache)
  {
  }

  // ---------------------------------------------------------------------
  // Similar artists.

  /**
   * Names are extracted exactly when every artist has a `name`, one per
   * artist and in list order.
   */
  lemma {:induction false} NamesOfArtists(artists: seq<Json>, clean: Json -> string)
    ensures NamesOf(artists, clean).Success? <==> forall i :: 0 <= i < |artists| ==> Field(artists[i], "name").Some?
    ensures NamesOf(artists, clean).Success? ==>
      && |NamesOf(artists, clean).value| == |artists|
      && forall i :: 0 <= i < |artists| ==>
           NamesOf(artists, clean).value[i] == clean(Field(artists[i], "name").value)
    decreases |artists|
  {
    if artists != [] {
      NamesOfArtists(artists[1..], clean);
      assert forall i :: 1 <= i < |artists| ==> artists[i] == artists[1..][i - 1];
    }
  }

  /**
   * `similarArtistsDeferredList` issues exactly one secondary query per
   * similar artist, in list order, each for that artist's cleaned name at
   * the default location.
   */
  lemma OneQueryPerSimilarArtist(query: Json, clean: Json -> string, minDate: Value, maxDate: Value)
    requires SimilarArtistQueries(query, clean, minDate, maxDate).Success?
    ensures ArtistList(query).Success?
    ensures var artists := ArtistList(query).value;
      var queries := SimilarArtistQueries(query, clean, minDate, maxDate).value;
      && |queries| == |artists|
      && forall i :: 0 <= i < |artists| ==>
           && Field(artists[i], "name").Some?
           && queries[i] == LegacySongkick.UpcomingEvents(Str(clean(Field(artists[i], "name").value)), minDate, maxDate)
           && queries[i]["location"] == Str(LegacySongkick.DefaultLocation)
  {
    NamesOfArtists(ArtistList(query).value, clean);
  }
}
