/**
 * songkick.py: the older Songkick interface, an `APIInterface` whose
 * defaults carry the events endpoint under `baseURL`.
 */
module LegacySongkick {
  import opened Wrappers
  import opened Data
  import opened UrlEncoding
  import opened Api

  const EventsURL: string := "http://api.songkick.com/api/3.0/events.json?"
  const DefaultLocation: string := "sk:26330"

  /** `SongkickInterface(apiKey)`: the events endpoint and the key as defaults. */
  function NewSongkickInterface(apiKey: string): (i: APIInterface)
    ensures i.apiKey == Some(apiKey)
    ensures i.defaultDict.Keys == {BaseURLKey, "apikey"}
    ensures i.defaultDict[BaseURLKey] == Str(EventsURL) && i.defaultDict["apikey"] == Str(apiKey)
  {
    APIInterface(map[BaseURLKey := Str(EventsURL), "apikey" := Str(apiKey)], Some(apiKey))
  }

  /**
   * `upcomingEvents(artist, location='sk:26330', minDate, maxDate)`. The
   * date defaults are read from the clock when the module is imported, so
   * here the caller passes them.
   */
  function UpcomingEvents(artist: Value, minDate: Value, maxDate: Value,
                          location: Value := Str(DefaultLocation)): (p: ParamDict)
    ensures p.Keys == {"artist_name", "location", "min_date", "max_date"}
    ensures p["artist_name"] == artist && p["location"] == location
    ensures p["min_date"] == minDate && p["max_date"] == maxDate
  {
    map["artist_name" := artist, "location" := location, "min_date" := minDate, "max_date" := maxDate]
  }

  /**
   * Through `buildQuery`, an upcoming-events lookup always succeeds and
   * hits the events endpoint: the builder never sets `baseURL`, so the
   * default one is used; the API key and all four parameters follow.
   */
  lemma UpcomingEventsQuery(apiKey: string, artist: Value, minDate: Value, maxDate: Value, location: Value,
                            order: seq<string>)
    requires IsEnumeration(order, MergeParams(NewSongkickInterface(apiKey).defaultDict,
                                              UpcomingEvents(artist, minDate, maxDate, location)).Keys - {BaseURLKey})
    ensures var q := LegacyQuery(NewSongkickInterface(apiKey), UpcomingEvents(artist, minDate, maxDate, location), order);
      q.Success? && q.value[..|EventsURL|] == EventsURL
    ensures |order| == 5
  {
    var i := NewSongkickInterface(apiKey);
    var p := UpcomingEvents(artist, minDate, maxDate, location);
    EventsMergedKeys(apiKey, artist, minDate, maxDate, location);
    LegacyQueryShape(i, p, order);
    EnumerationLength(order, EventsKeys);
    EventsKeysCount();
  }

  /** The keys an upcoming-events query carries besides `baseURL`. */
  const EventsKeys: set<string> := {"apikey", "artist_name", "location", "min_date", "max_date"}

  /** The builder never sets `baseURL`, so the default endpoint stays; the other keys are the key and the four parameters. */
  lemma EventsMergedKeys(apiKey: string, artist: Value, minDate: Value, maxDate: Value, location: Value)
    ensures var merged := MergeParams(NewSongkickInterface(apiKey).defaultDict, UpcomingEvents(artist, minDate, maxDate, location));
      merged.Keys - {BaseURLKey} == EventsKeys && merged[BaseURLKey] == Str(EventsURL)
  {
  }

  lemma EventsKeysCount()
    ensures |EventsKeys| == 5
  {
  }
}
