/**
 * capoeira/songkick.py: the Songkick service built on `APIService`, and
 * `SongkickResponse`, which reads the status, error message and results
 * out of a parsed Songkick reply.
 */
module Songkick {
  import opened Wrappers
  import opened Data
  import opened UrlEncoding
  import opened Mocks
  import opened ApiService

  const EventsURL: string := "http://api.songkick.com/api/3.0/events.json?"
  const LocationsURL: string := "http://api.songkick.com/api/3.0/search/locations.json?"
  /** The metro area `upcomingEvents` searches when no location is given. */
  const DefaultLocation: string := "sk:26330"

  /** The attributes `SongkickResponse.__init__` sets; `results` is None when `_results` is never set. */
  datatype ResponseView = ResponseView(status: Json, message: Json, results: Option<Json>)

  /**
   * What `SongkickResponse(response)` reads, or the exception its
   * subscripts raise: the error message when the status is not "ok", the
   * results (and an empty message) when it is.
   */
  function Classify(response: Json): Result<ResponseView, Error>
  {
    var page :- Index(response, "resultsPage");
    var status :- Index(page, "status");
    if status != JStr("ok") then
      var error :- Index(page, "error");
      var message :- Index(error, "message");
      Success(ResponseView(status, message, None))
    else
      var results :- Index(page, "results");
      Success(ResponseView(status, JStr(""), Some(results)))
  }

  /** A reply that `SongkickResponse.__init__` accepts. */
  class SongkickResponse {
    const response: Json
    const status: Json
    const message: Json
    /** `_results`: None when the attribute was never set. */
    const results: Option<Json>

    constructor (response: Json)
      requires Classify(response).Success?
      ensures this.response == response
      ensures ResponseView(status, message, results) == Classify(response).value
      ensures Valid()
    {
      var view := Classify(response).value;
      this.response := response;
      status := view.status;
      message := view.message;
      results := view.results;
    }

    /** The attributes are the ones `__init__` reads out of `response`. */
    predicate Valid()
    {
      Classify(response) == Wrappers.Success(ResponseView(status, message, results))
    }

    /** The `success` property: the reply's `resultsPage.status` is "ok". */
    function Success(): (r: bool)
      ensures r <==> status == JStr("ok")
      ensures Valid() ==>
        (r <==> Field(Field(response, "resultsPage").value, "status") == Some(JStr("ok")))
    {
      status == JStr("ok")
    }

    /** The `results` property: AttributeError when the status was not "ok", since `_results` was never set. */
    function Results(): (r: Result<Json, Error>)
      ensures r.Failure? ==> r.error == AttributeError("_results")
      ensures Valid() ==> (r.Failure? <==> !Success())
      ensures Valid() && r.Success? ==>
        Field(Field(response, "resultsPage").value, "results") == Some(r.value)
    {
      if results.Some? then Wrappers.Success(results.value) else Failure(AttributeError("_results"))
    }
  }

  /**
   * A reply that classifies is successful exactly when it carries results,
   * and then its results are `resultsPage.results` and its message is empty;
   * otherwise its message is `resultsPage.error.message`.
   */
  lemma ClassifySuccessIffResults(response: Json)
    requires Classify(response).Success?
    ensures var v := Classify(response).value;
      && Field(response, "resultsPage").Some?
      && Field(Field(response, "resultsPage").value, "status") == Some(v.status)
      && (v.status == JStr("ok") <==> v.results.Some?)
      && (v.results.Some? ==>
            (v.message == JStr("") && Field(Field(response, "resultsPage").value, "results") == v.results))
      && (v.results.None? ==>
            (Field(Field(response, "resultsPage").value, "error").Some?
             && Field(Field(Field(response, "resultsPage").value, "error").value, "message") == Some(v.message)))
  {
  }

  /**
   * The reply's keys that `SongkickResponse` needs: a status that is not
   * "ok" without an `error` entry raises KeyError('error'); an "ok" status
   * without `results` raises KeyError('results').
   */
  lemma ClassifyMissingKeys(response: Json, page: map<string, Json>)
    requires Field(response, "resultsPage") == Some(JObj(page))
    requires "status" in page
    ensures page["status"] != JStr("ok") && "error" !in page ==> Classify(response) == Failure(KeyError("error"))
    ensures page["status"] == JStr("ok") && "results" !in page ==> Classify(response) == Failure(KeyError("results"))
    ensures "resultsPage" in response.fields
  {
  }

  /** An error reply such as the one for an invalid key: not successful, with its message. */
  lemma ErrorReplyMessage(response: Json, status: string, message: string)
    requires status != "ok"
    requires response == JObj(map["resultsPage" := JObj(map["status" := JStr(status),
                                                            "error" := JObj(map["message" := JStr(message)])])])
    ensures Classify(response) == Success(ResponseView(JStr(status), JStr(message), None))
  {
    var page := map["status" := JStr(status), "error" := JObj(map["message" := JStr(message)])];
    assert Index(response, "resultsPage") == Wrappers.Success(JObj(page));
    assert Index(JObj(page), "status") == Wrappers.Success(JStr(status));
    assert JStr(status) != JStr("ok");
  }

  /** `self.defaults` of `SongkickAPIService(apiKey)`. */
  function SongkickDefaults(apiKey: string): ParamDict
  {
    map["apikey" := Str(apiKey), BaseKey := Str(EventsURL)]
  }

  /** `upcomingEvents(artist, location, minDate, maxDate)`; the date defaults are left to the caller. */
  function UpcomingEvents(artist: Value, minDate: Value, maxDate: Value, location: Value := Str(DefaultLocation)): ParamDict
  {
    map["artist_name" := artist, "location" := location, "min_date" := minDate, "max_date" := maxDate]
  }

  /** `locationByName(name)`: overrides the endpoint with the location search. */
  function LocationByName(name: Value): ParamDict
  {
    map[BaseKey := Str(LocationsURL), "query" := name]
  }

  /**
   * The service defaults are the key and the events endpoint;
   * `upcomingEvents` carries exactly the artist, the location (by default
   * `sk:26330`) and the two dates, unchanged; `locationByName` carries the
   * search endpoint and the name.
   */
  lemma BuildersShape(apiKey: string, artist: Value, minDate: Value, maxDate: Value, name: Value)
    ensures UpcomingEvents(artist, minDate, maxDate).Keys == {"artist_name", "location", "min_date", "max_date"}
    ensures UpcomingEvents(artist, minDate, maxDate)["location"] == Str(DefaultLocation)
    ensures UpcomingEvents(artist, minDate, maxDate)["artist_name"] == artist
    ensures UpcomingEvents(artist, minDate, maxDate)["min_date"] == minDate
    ensures UpcomingEvents(artist, minDate, maxDate)["max_date"] == maxDate
    ensures LocationByName(name).Keys == {BaseKey, "query"}
    ensures LocationByName(name)[BaseKey] == Str(LocationsURL) && LocationByName(name)["query"] == name
    ensures SongkickDefaults(apiKey).Keys == {"apikey", BaseKey}
    ensures SongkickDefaults(apiKey)["apikey"] == Str(apiKey) && SongkickDefaults(apiKey)[BaseKey] == Str(EventsURL)
  {
  }

  /** The keys an upcoming-events query string carries. */
  const UpcomingEventsKeys: set<string> := {"apikey", "artist_name", "location", "min_date", "max_date"}

  /** The keys a location query string carries. */
  const LocationKeys: set<string> := {"apikey", "query"}

  lemma UpcomingEventsMergedKeys(apiKey: string, artist: Value, minDate: Value, maxDate: Value, location: Value)
    ensures MergeParams(SongkickDefaults(apiKey), UpcomingEvents(artist, minDate, maxDate, location)).Keys - {BaseKey}
         == UpcomingEventsKeys
  {
  }

  lemma LocationMergedKeys(apiKey: string, name: Value)
    ensures MergeParams(SongkickDefaults(apiKey), LocationByName(name)).Keys - {BaseKey} == LocationKeys
  {
  }

  /**
   * An upcoming-events query goes to the events endpoint with five pairs:
   * the key, the artist, the location and both dates.
   */
  lemma UpcomingEventsTarget(apiKey: string, artist: Value, minDate: Value, maxDate: Value, location: Value,
                             order: seq<string>)
    requires IsEnumeration(order, UpcomingEventsKeys)
    ensures MergeParams(SongkickDefaults(apiKey), UpcomingEvents(artist, minDate, maxDate, location)).Keys - {BaseKey}
         == UpcomingEventsKeys
    ensures var t := Target(SongkickDefaults(apiKey), UpcomingEvents(artist, minDate, maxDate, location), order);
      && t.Success?
      && t.value.base == Str(EventsURL)
      && |t.value.pairs| == 5
      && (forall j :: 0 <= j < 5 ==> t.value.pairs[j].0 == order[j])
      && (forall j :: 0 <= j < 5 && order[j] == "apikey" ==> t.value.pairs[j].1 == apiKey)
      && (forall j :: 0 <= j < 5 && order[j] == "artist_name" ==> t.value.pairs[j].1 == Render(artist))
      && (forall j :: 0 <= j < 5 && order[j] == "location" ==> t.value.pairs[j].1 == Render(location))
      && (forall j :: 0 <= j < 5 && order[j] == "min_date" ==> t.value.pairs[j].1 == Render(minDate))
      && (forall j :: 0 <= j < 5 && order[j] == "max_date" ==> t.value.pairs[j].1 == Render(maxDate))
  {
    UpcomingEventsMergedKeys(apiKey, artist, minDate, maxDate, location);
    EnumerationLength(order, UpcomingEventsKeys);
    KeysCount();
  }

  /**
   * A location query replaces the events endpoint with the location search
   * and carries exactly the name and the key.
   */
  lemma LocationByNameTarget(apiKey: string, name: Value, order: seq<string>)
    requires IsEnumeration(order, LocationKeys)
    ensures MergeParams(SongkickDefaults(apiKey), LocationByName(name)).Keys - {BaseKey} == LocationKeys
    ensures var t := Target(SongkickDefaults(apiKey), LocationByName(name), order);
      && t.Success?
      && t.value.base == Str(LocationsURL)
      && |t.value.pairs| == 2
      && (forall j :: 0 <= j < 2 && order[j] == "query" ==> t.value.pairs[j] == ("query", Render(name)))
      && (forall j :: 0 <= j < 2 && order[j] == "apikey" ==> t.value.pairs[j] == ("apikey", apiKey))
  {
    LocationMergedKeys(apiKey, name);
    EnumerationLength(order, LocationKeys);
    KeysCount();
  }

  /** The sizes of the two literal key sets. */
  lemma KeysCount()
    ensures |UpcomingEventsKeys| == 5 && |LocationKeys| == 2
  {
  }

  /**
   * The location query for "los angeles" with key "hijklmn", with the name
   * enumerated first, is
   * `.../search/locations.json?query=los+angeles&apikey=hijklmn`.
   */
  lemma LocationQueryString(apiKey: string, name: string, order: seq<string>)
    requires apiKey == "hijklmn" && name == "los angeles" && order == ["query", "apikey"]
    ensures MergeParams(SongkickDefaults(apiKey), LocationByName(Str(name))).Keys - {BaseKey} == LocationKeys
    ensures IsEnumeration(order, LocationKeys)
    ensures BuildQuerySpec(SongkickDefaults(apiKey), LocationByName(Str(name)), order)
         == Wrappers.Success(LocationsURL + "query=los+angeles&apikey=hijklmn")
  {
    LocationMergedKeys(apiKey, Str(name));
    LocationByNameTarget(apiKey, Str(name), order);
    var t := Target(SongkickDefaults(apiKey), LocationByName(Str(name)), order).value;
    assert t.pairs == [("query", name), ("apikey", apiKey)];
    SpaceEscapeExample(name);
    LocationLiterals("query", "los+angeles", "apikey", apiKey);
    EncodeTwoPairs("query", name, "los+angeles", "apikey", apiKey);
  }

  /** Two pairs whose only escaped text is the first value, `e0`, encode as `k0=e0&k1=v1`. */
  lemma EncodeTwoPairs(k0: string, v0: string, e0: string, k1: string, v1: string)
    requires Plain(k0) && Plain(k1) && Plain(v1) && IsByteString(v0) && QuotePlus(v0) == e0
    ensures UrlEncode([(k0, v0), (k1, v1)]) == Wrappers.Success(k0 + "=" + e0 + "&" + (k1 + "=" + v1))
  {
    QuotePlusSafe(k0);
    QuotePlusSafe(k1);
    QuotePlusSafe(v1);
    UrlEncodeSingle((k1, v1));
    UrlEncodeCons((k0, v0), [(k1, v1)]);
    assert [(k0, v0)] + [(k1, v1)] == [(k0, v0), (k1, v1)];
  }

  /**
   * The literal pieces of the location query of the test suite, proved on
   * their own so that `LocationQueryString` does not unfold the literals.
   */
  lemma LocationLiterals(k0: string, e0: string, k1: string, v1: string)
    requires k0 == "query" && e0 == "los+angeles" && k1 == "apikey" && v1 == "hijklmn"
    ensures Plain(k0) && Plain(k1) && Plain(v1)
    ensures k0 + "=" + e0 + "&" + (k1 + "=" + v1) == "query=los+angeles&apikey=hijklmn"
  {
  }

  /** Every character of `s` is one that `quote_plus` leaves alone. */
  predicate Plain(s: string)
  {
    forall i :: 0 <= i < |s| ==> AlwaysSafe(s[i])
  }

  /**
   * An upcoming-events query at the default location whose key, artist and
   * dates need no escaping, with the key enumerated first (as in
   * `apikey=hijklmn&max_date=2014-07-29&min_date=2014-03-31&artist_name=Tiga&location=sk%3A26330`),
   * is the events endpoint followed by the five pairs, the location's colon
   * escaped as `%3A`.
   */
  lemma UpcomingEventsQueryString(apiKey: string, artist: string, minDate: string, maxDate: string,
                                  order: seq<string>)
    requires Plain(apiKey) && Plain(artist) && Plain(minDate) && Plain(maxDate)
    requires order == ["apikey", "max_date", "min_date", "artist_name", "location"]
    ensures MergeParams(SongkickDefaults(apiKey), UpcomingEvents(Str(artist), Str(minDate), Str(maxDate))).Keys
            - {BaseKey} == UpcomingEventsKeys
    ensures IsEnumeration(order, UpcomingEventsKeys)
    ensures BuildQuerySpec(SongkickDefaults(apiKey), UpcomingEvents(Str(artist), Str(minDate), Str(maxDate)), order)
         == Wrappers.Success(EventsURL + Join(["apikey=" + apiKey, "max_date=" + maxDate, "min_date=" + minDate,
                                               "artist_name=" + artist, "location=sk%3A26330"], '&'))
  {
    UpcomingEventsMergedKeys(apiKey, Str(artist), Str(minDate), Str(maxDate), Str(DefaultLocation));
    EventsOrderEnumerates(order);
    EventsPairsInOrder(apiKey, artist, minDate, maxDate, order);
    var pairs := [("apikey", apiKey), ("max_date", maxDate), ("min_date", minDate), ("artist_name", artist),
                  ("location", DefaultLocation)];
    EncodeEventsPairs(pairs, apiKey, artist, minDate, maxDate);
    BuiltFromTarget(SongkickDefaults(apiKey), UpcomingEvents(Str(artist), Str(minDate), Str(maxDate)), order,
                    EventsURL, pairs, Join(["apikey=" + apiKey, "max_date=" + maxDate, "min_date=" + minDate,
                                            "artist_name=" + artist, "location=sk%3A26330"], '&'));
  }

  /** A query whose target is `base` with `pairs`, and whose pairs encode as `text`, is `base + text`. */
  lemma BuiltFromTarget(defaults: ParamDict, params: ParamDict, order: seq<string>, base: string,
                        pairs: seq<(string, string)>, text: string)
    requires IsEnumeration(order, MergeParams(defaults, params).Keys - {BaseKey})
    requires Target(defaults, params, order) == Wrappers.Success(QueryTarget(Str(base), pairs))
    requires UrlEncode(pairs) == Wrappers.Success(text)
    ensures BuildQuerySpec(defaults, params, order) == Wrappers.Success(base + text)
  {
  }

  /** The order `apikey`, `max_date`, `min_date`, `artist_name`, `location` enumerates the five keys. */
  lemma EventsOrderEnumerates(order: seq<string>)
    requires order == ["apikey", "max_date", "min_date", "artist_name", "location"]
    ensures IsEnumeration(order, UpcomingEventsKeys)
  {
  }

  /** The pairs of the upcoming-events query, with the key enumerated first. */
  lemma EventsPairsInOrder(apiKey: string, artist: string, minDate: string, maxDate: string, order: seq<string>)
    requires order == ["apikey", "max_date", "min_date", "artist_name", "location"]
    ensures MergeParams(SongkickDefaults(apiKey), UpcomingEvents(Str(artist), Str(minDate), Str(maxDate))).Keys
            - {BaseKey} == UpcomingEventsKeys
    ensures Target(SongkickDefaults(apiKey), UpcomingEvents(Str(artist), Str(minDate), Str(maxDate)), order)
         == Wrappers.Success(QueryTarget(Str(EventsURL), [("apikey", apiKey), ("max_date", maxDate), ("min_date", minDate),
                                                          ("artist_name", artist), ("location", DefaultLocation)]))
  {
    var merged := MergeParams(SongkickDefaults(apiKey), UpcomingEvents(Str(artist), Str(minDate), Str(maxDate)));
    UpcomingEventsMergedKeys(apiKey, Str(artist), Str(minDate), Str(maxDate), Str(DefaultLocation));
    EventsMergedValues(apiKey, artist, minDate, maxDate);
    var m := merged - {BaseKey};
    assert forall j :: 0 <= j < |order| ==> order[j] in m;
    var r := RenderedPairs(m, order);
    PairAt(m, order, 0, "apikey", apiKey);
    PairAt(m, order, 1, "max_date", maxDate);
    PairAt(m, order, 2, "min_date", minDate);
    PairAt(m, order, 3, "artist_name", artist);
    PairAt(m, order, 4, "location", DefaultLocation);
    assert r == [("apikey", apiKey), ("max_date", maxDate), ("min_date", minDate),
                 ("artist_name", artist), ("location", DefaultLocation)];
  }

  /** The merged values of an upcoming-events query at the default location. */
  lemma EventsMergedValues(apiKey: string, artist: string, minDate: string, maxDate: string)
    ensures var merged := MergeParams(SongkickDefaults(apiKey), UpcomingEvents(Str(artist), Str(minDate), Str(maxDate)));
      && BaseKey in merged && merged[BaseKey] == Str(EventsURL)
      && var m := merged - {BaseKey};
      && "apikey" in m && m["apikey"] == Str(apiKey)
      && "max_date" in m && m["max_date"] == Str(maxDate)
      && "min_date" in m && m["min_date"] == Str(minDate)
      && "artist_name" in m && m["artist_name"] == Str(artist)
      && "location" in m && m["location"] == Str(DefaultLocation)
  {
  }

  /** The `j`-th rendered pair is the `j`-th key with its string value. */
  lemma PairAt(m: ParamDict, order: seq<string>, j: nat, k: string, v: string)
    requires forall i :: 0 <= i < |order| ==> order[i] in m
    requires j < |order| && order[j] == k && k in m && m[k] == Str(v)
    ensures RenderedPairs(m, order)[j] == (k, v)
  {
  }

  /** The five encoded pairs of an upcoming-events query whose values need no escaping. */
  lemma {:induction false} EncodeEventsPairs(pairs: seq<(string, string)>, apiKey: string, artist: string, minDate: string,
                          maxDate: string)
    requires Plain(apiKey) && Plain(artist) && Plain(minDate) && Plain(maxDate)
    requires pairs == [("apikey", apiKey), ("max_date", maxDate), ("min_date", minDate),
                       ("artist_name", artist), ("location", DefaultLocation)]
    ensures UrlEncode(pairs) == Wrappers.Success(Join(["apikey=" + apiKey, "max_date=" + maxDate,
                                                       "min_date=" + minDate, "artist_name=" + artist,
                                                       "location=sk%3A26330"], '&'))
  {
    EventsLiterals();
    ColonEscapeExample(DefaultLocation);
    EncodeFivePairs(pairs, "apikey", apiKey, "max_date", maxDate, "min_date", minDate, "artist_name", artist,
                    "location", DefaultLocation, "sk%3A26330");
    assert ["apikey" + "=" + apiKey, "max_date" + "=" + maxDate, "min_date" + "=" + minDate,
            "artist_name" + "=" + artist, "location" + "=" + "sk%3A26330"]
        == ["apikey=" + apiKey, "max_date=" + maxDate, "min_date=" + minDate, "artist_name=" + artist,
            "location=sk%3A26330"];
  }

  /** Five pairs whose keys and first four values need no escaping encode as `k=v`, joined by `&`. */
  lemma {:induction false} EncodeFivePairs(pairs: seq<(string, string)>, k0: string, v0: string, k1: string,
                                           v1: string, k2: string, v2: string, k3: string, v3: string,
                                           k4: string, v4: string, e4: string)
    requires Plain(k0) && Plain(k1) && Plain(k2) && Plain(k3) && Plain(k4)
    requires Plain(v0) && Plain(v1) && Plain(v2) && Plain(v3) && IsByteString(v4) && QuotePlus(v4) == e4
    requires pairs == [(k0, v0), (k1, v1), (k2, v2), (k3, v3), (k4, v4)]
    ensures UrlEncode(pairs)
         == Wrappers.Success(Join([k0 + "=" + v0, k1 + "=" + v1, k2 + "=" + v2, k3 + "=" + v3, k4 + "=" + e4], '&'))
  {
    var texts := [k0 + "=" + v0, k1 + "=" + v1, k2 + "=" + v2, k3 + "=" + v3, k4 + "=" + e4];
    PlainPairText(k0, v0);
    PlainPairText(k1, v1);
    PlainPairText(k2, v2);
    PlainPairText(k3, v3);
    QuotePlusSafe(k4);
    forall j | 0 <= j < |pairs|
      ensures BytePair(pairs[j]) && QuotePlus(pairs[j].0) + "=" + QuotePlus(pairs[j].1) == texts[j]
    {
      if j == 0 {} else if j == 1 {} else if j == 2 {} else if j == 3 {} else {}
    }
    EncodedPairsAre(pairs, texts);
  }

  /**
   * Facts about the literal keys of the upcoming-events query: each needs
   * no escaping, and its text followed by `=` is the literal prefix. They
   * are proved here on their own so that the lemmas about whole query
   * strings do not unfold the literals themselves.
   */
  lemma EventsLiterals()
    ensures Plain("apikey") && "apikey=" == "apikey" + "="
    ensures Plain("max_date") && "max_date=" == "max_date" + "="
    ensures Plain("min_date") && "min_date=" == "min_date" + "="
    ensures Plain("artist_name") && "artist_name=" == "artist_name" + "="
    ensures Plain("location") && "location" + "=" + "sk%3A26330" == "location=sk%3A26330"
  {
  }

  /** A key and a value that need no escaping encode as `k=v`. */
  lemma PlainPairText(k: string, v: string)
    requires Plain(k) && Plain(v)
    ensures IsByteString(k) && IsByteString(v) && QuotePlus(k) + "=" + QuotePlus(v) == k + "=" + v
  {
    QuotePlusSafe(k);
    QuotePlusSafe(v);
  }

  /** Pairs whose encodings are `texts`, one by one, encode to `texts`. */
  lemma {:induction false} EncodedPairsAre(pairs: seq<(string, string)>, texts: seq<string>)
    requires |texts| == |pairs|
    requires forall j :: 0 <= j < |pairs| ==>
      BytePair(pairs[j]) && QuotePlus(pairs[j].0) + "=" + QuotePlus(pairs[j].1) == texts[j]
    ensures EncodedPairs(pairs) == texts
  {
    forall j | 0 <= j < |pairs| ensures EncodedPairs(pairs)[j] == texts[j] {
      EncodedPairAt(pairs, j);
    }
  }

  /** `SongkickAPIService`: an `APIService` whose defaults are the Songkick key and endpoint. */
  class SongkickAPIService {
    const apiKey: string
    const service: APIService

    ghost predicate Valid()
      reads this, service
    {
      service.Valid() && service.defaults == SongkickDefaults(apiKey)
    }

    constructor (apiKey: string, memcacheClient: DictionaryCache?)
      ensures Valid() && fresh(service)
      ensures this.apiKey == apiKey && service.cache == memcacheClient
    {
      this.apiKey := apiKey;
      var s := new APIService(memcacheClient);
      s.defaults := SongkickDefaults(apiKey);
      service := s;
    }

    /** `songkickUpcomingEvents(...)`: the deferred lookup of `upcomingEvents(...)`. */
    method SongkickUpcomingEvents(artist: Value, minDate: Value, maxDate: Value, location: Value, order: seq<string>,
                                  fetch: string -> FetchResult, parse: string -> Option<Json>)
      returns (outcome: Outcome, fetched: bool)
      requires Valid() && IsEnumeration(order, UpcomingEventsKeys)
      modifies service.cache
      ensures Valid()
      ensures QueryStep(outcome, fetched, service.Stored())
           == QuerySpec(service.defaults, UpcomingEvents(artist, minDate, maxDate, location), order,
                        service.enableMemcache, old(service.Stored()), fetch, parse)
    {
      UpcomingEventsMergedKeys(apiKey, artist, minDate, maxDate, location);
      outcome, fetched := service.DeferredQuery(UpcomingEvents(artist, minDate, maxDate, location), order, fetch, parse);
    }

    /** `songkickLocationByName(name)`: the deferred lookup of `locationByName(name)`. */
    method SongkickLocationByName(name: Value, order: seq<string>,
                                  fetch: string -> FetchResult, parse: string -> Option<Json>)
      returns (outcome: Outcome, fetched: bool)
      requires Valid() && IsEnumeration(order, LocationKeys)
      modifies service.cache
      ensures Valid()
      ensures QueryStep(outcome, fetched, service.Stored())
           == QuerySpec(service.defaults, LocationByName(name), order,
                        service.enableMemcache, old(service.Stored()), fetch, parse)
    {
      LocationMergedKeys(apiKey, name);
      outcome, fetched := service.DeferredQuery(LocationByName(name), order, fetch, parse);
    }
  }
}
