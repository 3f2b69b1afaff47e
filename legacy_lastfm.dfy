/**
 * lastfm.py: the older Last.fm interface. It keeps its endpoint in a
 * separate `baseURL` attribute rather than in its defaults, and it is not
 * an `APIInterface`: it has no `buildQuery`.
 */
module LegacyLastFM {
  import opened Wrappers
  import opened Data

  const AudioscrobblerURL: string := "http://ws.audioscrobbler.com/2.0/?"

  /** The fields `LastFMInterface.__init__` sets. */
  datatype LastFMInterface = LastFMInterface(apiKey: string, defaultDict: ParamDict, baseURL: string)

  /** `LastFMInterface(apiKey)`: the key and JSON format as defaults; the endpoint kept apart. */
  function NewLastFMInterface(apiKey: string): (i: LastFMInterface)
    ensures i.apiKey == apiKey
    ensures i.defaultDict.Keys == {"api_key", "format"}
    ensures i.defaultDict["api_key"] == Str(apiKey) && i.defaultDict["format"] == Str("json")
    ensures "baseURL" !in i.defaultDict && i.baseURL == AudioscrobblerURL
  {
    LastFMInterface(apiKey, map["api_key" := Str(apiKey), "format" := Str("json")], AudioscrobblerURL)
  }

  /** `artistGetSimilar(artist, limit=-1, autocorrect=0)`. */
  function ArtistGetSimilar(artist: Value, limit: Value := Int(-1), autocorrect: Value := Int(0)): (p: ParamDict)
    ensures p.Keys == {"method", "artist", "limit", "autocorrect"}
    ensures p["method"] == Str("artist.getsimilar") && p["artist"] == artist
    ensures p["limit"] == limit && p["autocorrect"] == autocorrect
  {
    map["method" := Str("artist.getsimilar"), "artist" := artist,
        "limit" := limit, "autocorrect" := autocorrect]
  }

  /** The keywords `artistGetSimilar` accepts. */
  const ArtistGetSimilarKeywords: set<string> := {"artist", "limit", "autocorrect"}

  /**
   * `artistGetSimilar(**args)`: Python binds each keyword to the parameter
   * of that name, raising TypeError for a keyword the method does not take
   * or when `artist` is missing; an absent `limit` or `autocorrect` takes
   * its default.
   */
  function BindArtistGetSimilar(args: ParamDict): (r: Result<ParamDict, Error>)
    ensures r.Success? <==> "artist" in args && args.Keys <= ArtistGetSimilarKeywords
    ensures r.Failure? ==> r.error == TypeError
    ensures r.Success? ==>
      && r.value.Keys == {"method"} + ArtistGetSimilarKeywords
      && r.value["method"] == Str("artist.getsimilar")
      && (forall k :: k in args ==> k in r.value && r.value[k] == args[k])
      && ("limit" !in args ==> r.value["limit"] == Int(-1))
      && ("autocorrect" !in args ==> r.value["autocorrect"] == Int(0))
  {
    if "artist" !in args || !(args.Keys <= ArtistGetSimilarKeywords) then Failure(TypeError)
    else
      Success(ArtistGetSimilar(args["artist"], if "limit" in args then args["limit"] else Int(-1),
                               if "autocorrect" in args then args["autocorrect"] else Int(0)))
  }

  /** `trackGetSimilar(track, artist, limit=-1, autocorrect=0)`. */
  function TrackGetSimilar(track: Value, artist: Value, limit: Value := Int(-1), autocorrect: Value := Int(0)): (p: ParamDict)
    ensures p.Keys == {"method", "track", "artist", "limit", "autocorrect"}
    ensures p["method"] == Str("track.getsimilar") && p["track"] == track && p["artist"] == artist
    ensures p["limit"] == limit && p["autocorrect"] == autocorrect
  {
    map["method" := Str("track.getsimilar"), "track" := track, "artist" := artist,
        "limit" := limit, "autocorrect" := autocorrect]
  }

  /** `tagGetSimilar(tag)`. */
  function TagGetSimilar(tag: Value): (p: ParamDict)
    ensures p.Keys == {"method", "tag"}
    ensures p["method"] == Str("tag.getsimilar") && p["tag"] == tag
  {
    map["method" := Str("tag.getsimilar"), "tag" := tag]
  }

  /** Called with the artist alone, the builder asks for every similar artist (-1) without autocorrection. */
  lemma ArtistGetSimilarDefaults(artist: Value)
    ensures ArtistGetSimilar(artist)["limit"] == Int(-1)
    ensures ArtistGetSimilar(artist)["autocorrect"] == Int(0)
    ensures Render(ArtistGetSimilar(artist)["limit"]) == "-1"
  {
  }
}
