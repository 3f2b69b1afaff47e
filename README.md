# capoeira: query building, response cache and event merge

capoeira is a small concert-aggregation service. It asks Last.fm for the
artists similar to a given one. It asks Songkick for the upcoming events of
each of those artists. It caches the raw replies and merges the events into
one dictionary keyed by event id.

This project models the sequential core of that service in Dafny:

- **Query building.** There are two query builders:
  - `APIService._buildQuery`. It copies the defaults, lets the call's parameters win, takes the endpoint out of the reserved `_baseURL` key and `urlencode`s the rest.
  - The older `APIInterface.buildQuery`. It writes unescaped `k=v` pairs joined with `&` after `baseURL`.

  Both Songkick and both Last.fm services supply their defaults and parameter builders. Python 2 dictionary iteration order is a parameter (`order`, which must list every key once). The model makes no claim about pair order.
- **`urlencode` / `quote_plus`.** These are modelled concretely on byte strings, together with their inverse. Every successful encoding decodes back to its pairs.
- **The two response caches:**
  - The memcache-backed path of `APIService._deferredQuery`: get, then fetch if the cached value is falsy, then parse, then add. A failed fetch returns `{}`. A body that is not JSON returns None. A missing `enableMemcache` attribute or a miss on the dictionary cache raises before the `try`.
  - The TTL cache of `CapoeiraService`: `addToCache` deletes the old entry and then inserts the new one. `deferredQuery` serves an entry while `timestamp + 24h > now` and otherwise fetches, parses, caches and consumes.
- **The merge reducer.** `mergeResults` drops failed batch entries, skips results without `event`, and folds events into a dictionary keyed by `id`.
- **The response classifier.** `SongkickResponse` reads the status, message and results.
- **Argument unwrapping.** `unwrapArgs` / `_unwrapArgs` take the first element of each list. `MockRequest` is the inverse wrapping.

The remote fetch (`getPage`) and `json.loads` are function parameters (`fetch`, `parse`). Time is a parameter in integer seconds (`now` when the cache is read, `arrival` when the page arrives). Python exceptions are `Failure(Error)` values, or the `Raised` / `RaisedNow` outcomes of a lookup.

`mergeResults` builds a dictionary with `dict.update`, so the **last** event with a given id is the one kept, and the result is an unordered dictionary, not a list in first-seen order (`Merge.MergeKeysAreLastEvents`).

Files:

- `wrappers.dfy`: Option and Result.
- `data.dfy`: JSON values, parameter dictionaries, Python exceptions, `copy` + `update`.
- `urlencode.dfy`: `quote_plus`, `urlencode` and their inverses.
- `util.dfy`, `mocks.dfy`.
- `api.dfy`, `legacy_lastfm.dfy`, `legacy_songkick.dfy`: `api.py`, `lastfm.py`, `songkick.py`.
- `apiservice.dfy`, `songkick.dfy`, `lastfm.dfy`: `apiservice.py`, `capoeira/songkick.py`, `capoeira/lastfm.py`.
- `merge.dfy`: the specification of `mergeResults`.
- `capoeira.dfy`: `capoeira.py`.

## Model

| member | source | states |
|---|---|---|
| Data.Index | capoeira.py:119 | `j[key]` succeeds exactly when `j` is an object holding `key`. Otherwise it raises KeyError(key) on an object and TypeError on anything else. |
| Data.NatToDecimal | apiservice.py:33 | `str(n)` of a natural number is a non-empty string of digits, with a leading `0` only for zero. |
| Data.DecimalRoundTrip | apiservice.py:33 | Reading the decimal digits of `str(n)` back gives `n`, so distinct numbers render differently. |
| Data.RenderInt | apiservice.py:33 | `str(i)` begins with `-` exactly when `i` is negative, and the digits after the sign read back as the absolute value of `i`. |
| Data.MergeParams | apiservice.py:29-30 | The merged keys are the defaults' keys plus the call's keys. A key of the call keeps the call's value. Any other default keeps its default value. |
| UrlEncoding.QuotePlusNoSeparators | apiservice.py:33 | An escaped string never contains `&` or `=`, so pairs and their separators cannot be confused. |
| UrlEncoding.UrlEncode | apiservice.py:33 | `urlencode` fails, with UnicodeEncodeError, exactly when some key or value is not a byte string. |
| UrlEncoding.UnquoteQuote | apiservice.py:33 | `unquote_plus(quote_plus(s)) == s` for every byte string `s`. |
| UrlEncoding.SplitJoin | apiservice.py:33 | Splitting a `&`-join of pieces that contain no `&` gives back the pieces. |
| UrlEncoding.UrlEncodeRoundTrip | apiservice.py:33 | Every query string `urlencode` produces decodes back to exactly the pairs it encoded, in order. |
| UrlEncoding.UrlEncodeInjective | apiservice.py:33 | Two pair lists with the same encoding are equal. |
| UrlEncoding.QuotePlusSafe | apiservice.py:33 | Letters, digits and `_.-` pass through `quote_plus` unchanged. |
| UrlEncoding.QuoteBetweenSafe | apiservice.py:33 | In a string whose characters are all safe but one, `quote_plus` escapes only that character and leaves the rest in place. |
| UrlEncoding.SpaceEscapeExample | tests.py:48 | `quote_plus("los angeles") == "los+angeles"`. |
| UrlEncoding.ColonEscapeExample | tests.py:114-115 | `quote_plus("sk:26330") == "sk%3A26330"`. |
| Util.Pipe | util.py:23-25 | `pipe` returns its argument unchanged. |
| Util.Tee | util.py:18-20 | `tee` returns its argument unchanged. |
| Util.Null | util.py:28-29 | `null` returns None whatever it is given. |
| Util.Wrap | util.py:32-33 | `wrap(d)` is a function that returns `d` for every argument. |
| Util.UnwrapArgs | util.py:36-40 | Succeeds exactly when every list is non-empty; otherwise it raises IndexError. On success it has the same keys, each mapped to the first element of its list. |
| Mocks.DictionaryCache.constructor | capoeira/mocks.py:3-4 | A new dictionary cache is empty. |
| Mocks.DictionaryCache.Add | capoeira/mocks.py:6-7 | After `add(k, v)`, `get(k)` returns `v`, replacing any earlier value. Every other key reads as before. |
| Mocks.DictionaryCache.Get | capoeira/mocks.py:9-10 | `get(k)` returns the stored value. On an absent key it raises KeyError(k) and does not return a default. |
| Mocks.MockRequest.constructor | capoeira/mocks.py:15-18 | `args` has the same keys as the given dictionary, each mapped to the one-element list of its value. |
| Mocks.UnwrapWrapped | util.py:36-40 | Unwrapping the arguments of `MockRequest(a)` gives back exactly `a`. |
| Api.NewAPIInterface | api.py:5-7 | A fresh `APIInterface` has an empty `defaultDict` and no API key. |
| Api.PairStrings | api.py:12 | One `key=value` piece per enumerated key, in iteration order, with the merged value rendered by `str`. |
| Api.BuildQuery | api.py:9-13 | The method that works on a copy of the defaults computes `LegacyQuery`. Since it modifies nothing, `defaultDict` is left alone. |
| Api.LegacyQueryNeedsBaseURL | api.py:13 | `buildQuery` raises KeyError('baseURL') exactly when neither the defaults nor the call supply `baseURL`. |
| Api.LegacyQueryShape | api.py:12-13 | A built query is the merged `baseURL` followed by the `&`-joined pieces. `baseURL` is not among the enumerated keys. |
| Api.LegacyQueryParamsWin | api.py:10-12 | Each key of the call appears as `key=<call's value>`. Each default the call does not override appears with the default value. |
| Api.LegacyQuerySeparators | api.py:12-13 | When no key, value or base URL contains `&`, a query over n ≥ 1 non-`baseURL` keys holds exactly n − 1 `&`. |
| LegacyLastFM.NewLastFMInterface | lastfm.py:5-9 | `defaultDict` is exactly `api_key` and `format=json`. The audioscrobbler URL is kept apart, not in the dictionary. |
| LegacyLastFM.ArtistGetSimilar | lastfm.py:11-16 | Exactly the keys `method`, `artist`, `limit` and `autocorrect`. `method` is `artist.getsimilar`, and the arguments are unchanged. |
| LegacyLastFM.BindArtistGetSimilar | capoeira.py:113 | `artistGetSimilar(**args)` succeeds exactly when `args` holds `artist` and no keyword other than `artist`, `limit` and `autocorrect`; otherwise it raises TypeError. Each given keyword keeps its value, and a missing `limit` or `autocorrect` takes -1 or 0. |
| LegacyLastFM.TrackGetSimilar | lastfm.py:18-24 | Exactly `method` = `track.getsimilar`, `track`, `artist`, `limit` and `autocorrect`, with the arguments unchanged. |
| LegacyLastFM.TagGetSimilar | lastfm.py:26-29 | Exactly `method` = `tag.getsimilar` and `tag`. |
| LegacyLastFM.ArtistGetSimilarDefaults | lastfm.py:11 | Without the optional arguments, `limit` is -1 and `autocorrect` is 0, and -1 renders as `"-1"`. |
| LegacySongkick.NewSongkickInterface | songkick.py:7-10 | `defaultDict` is exactly `baseURL` = the events.json endpoint and `apikey` = the key. |
| LegacySongkick.UpcomingEvents | songkick.py:12-21 | Exactly the four keys, with the arguments unchanged. `location` defaults to `sk:26330`. |
| LegacySongkick.UpcomingEventsQuery | songkick.py:9-21 | Through `buildQuery`, an upcoming-events lookup always succeeds, starts with the events.json endpoint, and carries five pairs. |
| ApiService.RenderedPairs | apiservice.py:33 | One `(key, str(value))` pair per enumerated key, in iteration order. |
| ApiService.APIService.constructor | apiservice.py:13-18 | The defaults are empty and the cache is the given client. `enableMemcache` is set, to True, exactly when a client was given. |
| ApiService.APIService.AddToCache | apiservice.py:20-26 | Stores the raw response under the query and returns it unchanged. |
| ApiService.APIService.BuildQuery | apiservice.py:28-33 | Computes `BuildQuerySpec` without modifying anything, so `self.defaults` is left alone. |
| ApiService.APIService.UnwrapArgs | apiservice.py:35-42 | Succeeds exactly when every list in `request.args` is non-empty (IndexError otherwise). On success it has the same keys, each mapped to its list's first element. |
| ApiService.APIService.DeferredQuery | apiservice.py:45-66 | Outcome, fetch and new cache contents are those of `QuerySpec` on the old cache contents. |
| ApiService.TargetBase | apiservice.py:29-32 | Building succeeds exactly when one side supplies `_baseURL`, and raises KeyError('_baseURL') otherwise. The endpoint is the call's if it has one, else the default's. The pairs never include `_baseURL`. |
| ApiService.TargetParamsWin | apiservice.py:29-30 | A key of the call is encoded with the call's value. A default the call does not override is encoded with the default value. |
| ApiService.BuildQueryDecodes | apiservice.py:31-33 | A built query starts with the merged `_baseURL` string. The rest decodes to exactly the rendered pairs of the other merged keys. |
| ApiService.NoClientAlwaysRaises | apiservice.py:52 | Without a cache client, `enableMemcache` was never assigned (only `enableCache` exists). Every buildable lookup raises AttributeError, fetches nothing and stores nothing. |
| ApiService.DictionaryCacheMissRaises | apiservice.py:52-53 | With the dictionary cache, a query not yet stored raises KeyError(query) before any fetch. |
| ApiService.TruthyCachedResponseNotFetched | apiservice.py:52-60 | A non-empty cached response is not fetched again. It yields the parsed value, or None when it is not JSON. The cache keeps the same contents. |
| ApiService.FetchedResponseOutcomes | apiservice.py:55-66 | When the page is fetched, a failed fetch yields `{}` and a body that is not JSON yields None, and neither changes the cache. A parsed body is returned, and with caching on the raw body is stored under the query. |
| Songkick.SongkickResponse.constructor | capoeira/songkick.py:7-14 | The object's status, message and results are what `Classify` reads from the reply. |
| Songkick.SongkickResponse.Success | capoeira/songkick.py:16-18 | `success` holds exactly when the status read is "ok". For an object built from a reply, that is exactly when the reply's `resultsPage.status` is "ok". |
| Songkick.SongkickResponse.Results | capoeira/songkick.py:24-26 | `results` raises AttributeError('_results') exactly when the object is not successful. Otherwise it is the reply's `resultsPage.results`. |
| Songkick.ClassifySuccessIffResults | capoeira/songkick.py:9-18 | The status read is the reply's `resultsPage.status`. A reply is successful exactly when it carries results. Then the results are `resultsPage.results` and the message is empty. Otherwise the message is `resultsPage.error.message`. |
| Songkick.ClassifyMissingKeys | capoeira/songkick.py:9-14 | A non-"ok" status without `error` raises KeyError('error'). An "ok" status without `results` raises KeyError('results'). |
| Songkick.ErrorReplyMessage | capoeira/songkick.py:10-11 | An error reply is classified as unsuccessful, with its message and no results. |
| Songkick.BuildersShape | capoeira/songkick.py:31-53 | The defaults are exactly `apikey` and the events endpoint. `upcomingEvents` carries exactly the artist, the location (`sk:26330` by default) and both dates. `locationByName` carries exactly the locations endpoint and the name. |
| Songkick.UpcomingEventsMergedKeys | capoeira/songkick.py:39-48 | An upcoming-events query carries exactly `apikey`, `artist_name`, `location`, `min_date` and `max_date`. |
| Songkick.LocationMergedKeys | capoeira/songkick.py:50-53 | A location query carries exactly `query` and `apikey`. |
| Songkick.UpcomingEventsTarget | capoeira/songkick.py:39-48 | An upcoming-events query goes to the events endpoint with exactly five pairs, in the enumeration order. The `apikey`, `artist_name`, `location`, `min_date` and `max_date` pairs carry the key and `str()` of the given values. |
| Songkick.LocationByNameTarget | capoeira/songkick.py:50-53 | A location query goes to the locations endpoint, not the defaults' one, with the name and the key. |
| Songkick.LocationQueryString | tests.py:48 | Key `hijklmn`, name `los angeles`, name enumerated first: the query is `.../search/locations.json?query=los+angeles&apikey=hijklmn`. |
| Songkick.UpcomingEventsQueryString | tests.py:114-115 | For a key, artist and dates that need no escaping, at the default location, with the key first: the query is the events endpoint followed by `apikey=…&max_date=…&min_date=…&artist_name=…&location=sk%3A26330`. |
| Songkick.SongkickAPIService.constructor | capoeira/songkick.py:31-35 | The service's defaults are the Songkick defaults for the key. The cache client is the one given. |
| Songkick.SongkickAPIService.SongkickUpcomingEvents | capoeira/songkick.py:58-60 | The lookup of `upcomingEvents(...)` behaves as `QuerySpec` on those parameters. |
| Songkick.SongkickAPIService.SongkickLocationByName | capoeira/songkick.py:63-65 | The lookup of `locationByName(name)` behaves as `QuerySpec` on those parameters. |
| LastFM.DefaultKeysShape | capoeira/lastfm.py:9-11 | The defaults are exactly `api_key`, `format` and `_baseURL`. |
| LastFM.LastFMMergedKeys | capoeira/lastfm.py:9-11 | When the call does not name the endpoint, the key or the format, the encoded keys are the call's plus `api_key` and `format`. |
| LastFM.LastFMTarget | capoeira/lastfm.py:9-33 | Every Last.fm query is built, goes to the audioscrobbler endpoint, and carries the call's pairs plus two. |
| LastFM.LastFMTargetPair | capoeira/lastfm.py:9-11 | Each query carries `api_key=<key>`, `format=json` and each of the call's parameters with its value. |
| LastFM.CallsLeaveDefaultsAlone | capoeira/lastfm.py:15-33 | No builder sets `_baseURL`, `api_key` or `format`. |
| LastFM.BuildersShape | capoeira/lastfm.py:15-33 | The builders' exact keys and `method` values. `limit` defaults to 1000 and `autocorrect` to 0. |
| LastFM.LastFMAPIService.constructor | capoeira/lastfm.py:6-11 | The service's defaults are the Last.fm defaults for the key. The cache client is the one given. |
| LastFM.LastFMAPIService.Lookup | capoeira/lastfm.py:38-50 | The lookup of built parameters behaves as `QuerySpec`. |
| LastFM.LastFMAPIService.LastFMArtistSimilar | capoeira/lastfm.py:38-40 | The lookup of `_artistGetSimilar(...)` behaves as `QuerySpec`. |
| LastFM.LastFMAPIService.LastFMTrackSimilar | capoeira/lastfm.py:43-45 | The lookup of `_trackGetSimilar(...)` behaves as `QuerySpec`. |
| LastFM.LastFMAPIService.LastFMTagSimilar | capoeira/lastfm.py:48-50 | The lookup of `_tagGetSimilar(tag)` behaves as `QuerySpec`. |
| Merge.SuccessfulResults | capoeira.py:129 | The comprehension keeps at most one result per batch entry. |
| Merge.FoldEventsAppend | capoeira.py:133-134 | Folding two runs of events is folding the first, then the second. The first error wins. |
| Merge.FoldEventsSucceeds | capoeira.py:133-134 | The event loop succeeds exactly when every event has a hashable `id`. |
| Merge.FoldEventsValue | capoeira.py:133-134 | After the loop, the keys are the earlier keys plus the events' ids. Each id maps to the last event carrying it. |
| Merge.FoldResultsFlat | capoeira.py:131-134 | The nested loops equal one fold over all events of all results, in order. |
| Merge.FoldResultsSkips | capoeira.py:132 | A result without `event` contributes nothing. |
| Merge.SuccessfulResultsSkipFailures | capoeira.py:129 | An entry whose flag is not True contributes nothing to the collected results. |
| Merge.SuccessfulResultsAppend | capoeira.py:129 | Collecting two runs of entries collects each in turn. The first failure wins. |
| Merge.MergeIgnoresFailedEntries | capoeira.py:129 | Inserting a failed entry anywhere in the batch does not change the merge. |
| Merge.MergeIgnoresResultsWithoutEvents | capoeira.py:132 | Inserting a successful result without `event` anywhere in the batch does not change the merge. |
| Merge.MergeKeysAreLastEvents | capoeira.py:130-135 | The merged keys are exactly the ids of the successful results' events. Each id maps to the last such event (batch order, then event order). |
| Merge.MergeValuesCarryTheirId | capoeira.py:133-134 | Every merged value is an event whose `id` is its key. |
| Capoeira.CapoeiraService.constructor | capoeira.py:34-46 | Keeps both interfaces. The cache is the persisted one if it exists, else empty. |
| Capoeira.CapoeiraService.AddToCache | capoeira.py:48-60 | The entry for the query becomes `CacheEntry(response, interface, now)`, replacing any earlier one. Every other key keeps its entry. The response is returned unchanged. |
| Capoeira.CapoeiraService.DeferredQuery | capoeira.py:62-85 | Delivery, fetch and new cache are those of `DeferredQuerySpec` on the old cache. |
| Capoeira.CapoeiraService.SongkickQuery | capoeira.py:105-109 | If `call(**args)` raises, that exception is raised with no fetch and the cache unchanged. Otherwise the Songkick lookup of the built parameters, consumed by `pipe`, behaves as `DeferredQuerySpec`. |
| Capoeira.CapoeiraService.LastFMQuery | capoeira.py:99-103 | Raises the exception of `call(**args)` if the binding fails, and AttributeError('buildQuery') otherwise. It never fetches and leaves the cache unchanged. |
| Capoeira.CapoeiraService.CombineQuery | capoeira.py:111-116 | Raises TypeError when `args` lacks `artist` or holds a keyword `artistGetSimilar` does not take, and AttributeError('buildQuery') otherwise. It never fetches and leaves the cache unchanged. |
| Capoeira.CapoeiraService.MergeResults | capoeira.py:127-135 | The comprehension and the two nested loops compute `MergeSpec(batch)`, raising where it raises. |
| Capoeira.FreshnessWindow | capoeira.py:71-72 | An entry is fresh exactly while `now < timestamp + 24h`. At exactly 24 hours it is stale. |
| Capoeira.FreshHitServedFromCache | capoeira.py:71-75 | A buildable query is served without a fetch exactly when its entry is fresh. It then delivers the consumed stored response and leaves the cache unchanged. |
| Capoeira.MissCachesParsedResponse | capoeira.py:78-85 | On a miss whose fetch and parse succeed, the cache maps the query to the parsed response, the interface and the arrival time. The parsed response is consumed. |
| Capoeira.FailureLeavesCache | capoeira.py:78-85 | A failed fetch, or a body that is not JSON, fails the deferred and leaves the cache unchanged. |
| Capoeira.LastFMInterfaceRaises | capoeira.py:68 | `LastFMInterface` has no `buildQuery`. A lookup through it raises AttributeError, fetches nothing and leaves the cache unchanged. |
| Capoeira.NamesOfArtists | capoeira.py:119-120 | Names are extracted exactly when every artist has a `name`: one cleaned name per artist, in list order. |
| Capoeira.OneQueryPerSimilarArtist | capoeira.py:118-124 | Exactly one secondary query per similar artist, in list order. Each is `upcomingEvents(cleaned name)` at the default location. |

## Left out

- Twisted machinery is not modelled: Deferreds, `DeferredList` concurrency, `inlineCallbacks`, `reactor.callWhenRunning` and `query()`. A settled DeferredList is a sequence of (flag, payload) pairs. `similarArtistsDeferredList` is modelled up to the parameter dictionaries of the lookups it would issue.
- `getPage` and `json.loads` are the parameters `fetch` and `parse`. JSON floating-point numbers are not modelled.
- `datetime.now()` is a parameter: `now` when the cache is read, `arrival` when the page arrives and is cached. The import-time date defaults of `upcomingEvents` are parameters too.
- Cache persistence is not modelled (`pickle`, `open`, `atexit`, `os.path.exists`). The unpickled cache is the constructor's `persisted` argument.
- The real memcache client is not modelled, only `DictionaryCache`.
- Logging and printing are not modelled (`log.msg`, `log.err`, `print`, `printSize`, `printMessage`). The consuming callback is the parameter `consume`, and `pipe`/`tee` are the identity.
- The HTTP front-end is not part of this model: `CapoeiraAPI` routes, `formatOutput`, `main`, `formatHTMLResponse`, `formatJSONResponse` and capoeira/util.py are I/O and rendering.
- `cleanString` is not defined in any shown file. It is the uninterpreted parameter `clean`.
- `locationQuery` and its `sk:26330` fallback are not part of this model.
- Python's equality of `True` and `1` as dictionary keys is not modelled: `JBool(true)` and `JInt(1)` are distinct event ids.
- Strings are sequences of characters treated as byte strings. A character above U+00FF stands for a unicode value that `str()` cannot encode (UnicodeEncodeError in `urlencode`). Python 2's distinction between `str` and `unicode` for characters 128–255 is not modelled.
- Api.BuildQuery: `'{}={}'.format` on unicode values is not modelled; every value is rendered by `str`.
- Capoeira.ArtistList: indexing a non-empty JSON object with the integer 0 raises `KeyError(0)`, written here as `KeyError("0")`.
- Mocks.MockRequest.constructor: takes a dictionary. `MockRequest()` with the default `args=None` raises AttributeError on `None.iteritems()`, and that call is not modelled.
- Capoeira.CapoeiraService.SongkickQuery, Capoeira.CapoeiraService.LastFMQuery: the method passed as `call` is the parameter `call`, a function from the keyword arguments to the built parameters or the exception the binding raises. Only `artistGetSimilar`'s binding is written out (`LegacyLastFM.BindArtistGetSimilar`).
- The service subclasses `SongkickAPIService(APIService)` and `LastFMAPIService(APIService)` hold their `APIService` as a field rather than inheriting from it.
- Songkick.SongkickResponse.constructor: requires a reply that `Classify` accepts. The exceptions the Python constructor raises on other replies are stated by `Songkick.Classify` and `Songkick.ClassifyMissingKeys`.
- The `stderr.write` errbacks in `deferredQuery` receive a Failure object and raise, so a failed fetch or parse is modelled as a deferred that ends in failure (`FailedDeferred`), with nothing cached.
