/**
 * capoeira/lastfm.py: the Last.fm service built on `APIService`. Its
 * defaults carry the key, the JSON format and the endpoint; each call
 * builds the method-specific parameters and looks them up.
 */
module LastFM {
  import opened Wrappers
  import opened Data
  import opened Mocks
  import opened ApiService

  const AudioscrobblerURL: string := "http://ws.audioscrobbler.com/2.0/?"

  /** `self.defaults` of `LastFMAPIService(apiKey)`. */
  function LastFMDefaults(apiKey: string): ParamDict
  {
    map["api_key" := Str(apiKey), "format" := Str("json"), BaseKey := Str(AudioscrobblerURL)]
  }

  /** `_artistGetSimilar(artist, limit=1000, autocorrect=0)`. */
  function ArtistGetSimilar(artist: Value, limit: Value := Int(1000), autocorrect: Value := Int(0)): ParamDict
  {
    map["method" := Str("artist.getsimilar"), "artist" := artist, "limit" := limit, "autocorrect" := autocorrect]
  }

  /** `_trackGetSimilar(track, artist, limit=1000, autocorrect=0)`. */
  function TrackGetSimilar(track: Value, artist: Value, limit: Value := Int(1000), autocorrect: Value := Int(0))
    : ParamDict
  {
    map["method" := Str("track.getsimilar"), "track" := track, "artist" := artist, "limit" := limit,
        "autocorrect" := autocorrect]
  }

  /** `_tagGetSimilar(tag)`. */
  function TagGetSimilar(tag: Value): ParamDict
  {
    map["method" := Str("tag.getsimilar"), "tag" := tag]
  }

  /** The keys every Last.fm query string carries from the defaults. */
  const DefaultKeys: set<string> := {"api_key", "format"}

  /** The defaults are the two default keys and the endpoint. */
  lemma DefaultKeysShape(apiKey: string)
    ensures LastFMDefaults(apiKey).Keys == DefaultKeys + {BaseKey}
    ensures BaseKey !in DefaultKeys && |DefaultKeys| == 2
  {
    assert "api_key" != "format" by { assert |"api_key"| != |"format"|; }
  }

  /** Without the call overriding them, the merged keys are the call's plus the key and the format. */
  lemma LastFMMergedKeys(apiKey: string, params: ParamDict)
    requires BaseKey !in params && "api_key" !in params && "format" !in params
    ensures MergeParams(LastFMDefaults(apiKey), params).Keys - {BaseKey} == params.Keys + DefaultKeys
    ensures |params.Keys + DefaultKeys| == |params| + 2
  {
    DefaultKeysShape(apiKey);
    var d := LastFMDefaults(apiKey).Keys;
    assert MergeParams(LastFMDefaults(apiKey), params).Keys == d + params.Keys;
    DisjointUnionSize(params.Keys, DefaultKeys);
  }

  lemma DisjointUnionSize(a: set<string>, b: set<string>)
    requires a !! b
    ensures |a + b| == |a| + |b|
  {
  }

  /**
   * None of the Last.fm calls names an endpoint, so every query goes to the
   * audioscrobbler endpoint and encodes the call's own keys plus the key
   * and the format.
   */
  lemma LastFMTarget(apiKey: string, params: ParamDict, order: seq<string>)
    requires BaseKey !in params && "api_key" !in params && "format" !in params
    requires IsEnumeration(order, params.Keys + DefaultKeys)
    ensures MergeParams(LastFMDefaults(apiKey), params).Keys - {BaseKey} == params.Keys + DefaultKeys
    ensures var t := Target(LastFMDefaults(apiKey), params, order);
      && t.Success?
      && t.value.base == Str(AudioscrobblerURL)
      && |t.value.pairs| == |params| + 2
  {
    LastFMMergedKeys(apiKey, params);
    EnumerationLength(order, params.Keys + DefaultKeys);
  }

  /** Each query carries `api_key=<key>`, `format=json`, and each of the call's parameters. */
  lemma LastFMTargetPair(apiKey: string, params: ParamDict, order: seq<string>, k: string)
    requires BaseKey !in params && "api_key" !in params && "format" !in params
    requires IsEnumeration(order, params.Keys + DefaultKeys)
    requires k in params || k in DefaultKeys
    ensures MergeParams(LastFMDefaults(apiKey), params).Keys - {BaseKey} == params.Keys + DefaultKeys
    ensures Target(LastFMDefaults(apiKey), params, order).Success?
    ensures exists j :: (0 <= j < |order|
      && Target(LastFMDefaults(apiKey), params, order).value.pairs[j]
         == (k, if k == "api_key" then apiKey else if k == "format" then "json" else Render(params[k])))
  {
    LastFMMergedKeys(apiKey, params);
    DefaultKeysShape(apiKey);
    var d := LastFMDefaults(apiKey);
    assert k != BaseKey;
    assert k in params || k in d;
    TargetParamsWin(d, params, order, k);
    var v := if k in params then params[k] else d[k];
    assert Render(v) == (if k == "api_key" then apiKey else if k == "format" then "json" else Render(params[k]));
  }

  /** The call builders never name an endpoint, the key or the format. */
  lemma CallsLeaveDefaultsAlone(artist: Value, track: Value, tag: Value, limit: Value, autocorrect: Value)
    ensures forall p :: p in {ArtistGetSimilar(artist, limit, autocorrect),
                              TrackGetSimilar(track, artist, limit, autocorrect), TagGetSimilar(tag)} ==>
      BaseKey !in p && "api_key" !in p && "format" !in p
  {
  }

  /**
   * The builders' keys, their `method` values, and the defaults
   * `limit=1000` and `autocorrect=0`.
   */
  lemma BuildersShape(artist: Value, track: Value, tag: Value)
    ensures ArtistGetSimilar(artist).Keys == {"method", "artist", "limit", "autocorrect"}
    ensures ArtistGetSimilar(artist)["limit"] == Int(1000) && ArtistGetSimilar(artist)["autocorrect"] == Int(0)
    ensures ArtistGetSimilar(artist)["method"] == Str("artist.getsimilar") && ArtistGetSimilar(artist)["artist"] == artist
    ensures TrackGetSimilar(track, artist).Keys == {"method", "track", "artist", "limit", "autocorrect"}
    ensures TrackGetSimilar(track, artist)["method"] == Str("track.getsimilar")
    ensures TrackGetSimilar(track, artist)["track"] == track && TrackGetSimilar(track, artist)["artist"] == artist
    ensures TrackGetSimilar(track, artist)["limit"] == Int(1000) && TrackGetSimilar(track, artist)["autocorrect"] == Int(0)
    ensures TagGetSimilar(tag).Keys == {"method", "tag"}
    ensures TagGetSimilar(tag)["method"] == Str("tag.getsimilar") && TagGetSimilar(tag)["tag"] == tag
  {
  }

  /** `LastFMAPIService`: an `APIService` whose defaults are the Last.fm key, format and endpoint. */
  class LastFMAPIService {
    const apiKey: string
    const service: APIService

    ghost predicate Valid()
      reads this, service
    {
      service.Valid() && service.defaults == LastFMDefaults(apiKey)
    }

    constructor (apiKey: string, memcacheClient: DictionaryCache?)
      ensures Valid() && fresh(service)
      ensures this.apiKey == apiKey && service.cache == memcacheClient
    {
      this.apiKey := apiKey;
      var s := new APIService(memcacheClient);
      s.defaults := LastFMDefaults(apiKey);
      service := s;
    }

    /** The lookup every `lastFM...Similar` call performs on the parameters it builds. */
    method Lookup(params: ParamDict, order: seq<string>,
                  fetch: string -> FetchResult, parse: string -> Option<Json>)
      returns (outcome: Outcome, fetched: bool)
      requires Valid()
      requires IsEnumeration(order, MergeParams(LastFMDefaults(apiKey), params).Keys - {BaseKey})
      modifies service.cache
      ensures Valid()
      ensures QueryStep(outcome, fetched, service.Stored())
           == QuerySpec(service.defaults, params, order, service.enableMemcache, old(service.Stored()), fetch, parse)
    {
      outcome, fetched := service.DeferredQuery(params, order, fetch, parse);
    }

    /** `lastFMArtistSimilar(...)`. */
    method LastFMArtistSimilar(artist: Value, limit: Value, autocorrect: Value, order: seq<string>,
                               fetch: string -> FetchResult, parse: string -> Option<Json>)
      returns (outcome: Outcome, fetched: bool)
      requires Valid()
      requires IsEnumeration(order, MergeParams(LastFMDefaults(apiKey), ArtistGetSimilar(artist, limit, autocorrect)).Keys
                                    - {BaseKey})
      modifies service.cache
      ensures Valid()
      ensures QueryStep(outcome, fetched, service.Stored())
           == QuerySpec(service.defaults, ArtistGetSimilar(artist, limit, autocorrect), order,
                        service.enableMemcache, old(service.Stored()), fetch, parse)
    {
      outcome, fetched := Lookup(ArtistGetSimilar(artist, limit, autocorrect), order, fetch, parse);
    }

    /** `lastFMTrackSimilar(...)`. */
    method LastFMTrackSimilar(track: Value, artist: Value, limit: Value, autocorrect: Value, order: seq<string>,
                              fetch: string -> FetchResult, parse: string -> Option<Json>)
      returns (outcome: Outcome, fetched: bool)
      requires Valid()
      requires IsEnumeration(order, MergeParams(LastFMDefaults(apiKey),
                                                TrackGetSimilar(track, artist, limit, autocorrect)).Keys - {BaseKey})
      modifies service.cache
      ensures Valid()
      ensures QueryStep(outcome, fetched, service.Stored())
           == QuerySpec(service.defaults, TrackGetSimilar(track, artist, limit, autocorrect), order,
                        service.enableMemcache, old(service.Stored()), fetch, parse)
    {
      outcome, fetched := Lookup(TrackGetSimilar(track, artist, limit, autocorrect), order, fetch, parse);
    }

    /** `lastFMTagSimilar(tag)`. */
    method LastFMTagSimilar(tag: Value, order: seq<string>,
                            fetch: string -> FetchResult, parse: string -> Option<Json>)
      returns (outcome: Outcome, fetched: bool)
      requires Valid()
      requires IsEnumeration(order, MergeParams(LastFMDefaults(apiKey), TagGetSimilar(tag)).Keys - {BaseKey})
      modifies service.cache
      ensures Valid()
      ensures QueryStep(outcome, fetched, service.Stored())
           == QuerySpec(service.defaults, TagGetSimilar(tag), order,
                        service.enableMemcache, old(service.Stored()), fetch, parse)
    {
      outcome, fetched := Lookup(TagGetSimilar(tag), order, fetch, parse);
    }
  }
}
