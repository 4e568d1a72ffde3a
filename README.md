# Soundify reconciliation core in Dafny

Soundify copies a SoundCloud user's liked tracks into a Spotify playlist. This project models that pipeline and proves properties of the model. The pipeline has four stages:

1. Ingest the likes page by page, retrying failed page fetches.
2. Match each like to a Spotify track. The matcher first tries a search by ISRC. Failing that, it generates a query, runs that search and a title search, merges the results without duplicate URIs, and asks a validator.
3. Keep the matches that were found.
4. Resolve or create the playlist by name, add the tracks in batches of at most 100, and report the playlist id, its URL and the track count.

Modules, one per concern of the source:

| file | module | models |
|---|---|---|
| `outcome.dfy` | `Outcome` | `Optional`, a call that may raise, Python truthiness of an optional string |
| `decimal.dfy` | `Decimal` | decimal rendering of integers for f-strings |
| `soundcloud.dfy` | `SoundCloud` | the SoundCloud records, `_add_default_params`, `get_likes` |
| `spotify.dfy` | `Spotify` | `SearchResult`, `search_tracks`, and the remote account as class `Account` (`get_or_create_playlist`, `add_tracks_to_playlist`) |
| `records.dfy` | `SoundifyRecords` | `SoundifyConfig`, `PlaylistCreationResult` |
| `ingestion.dfy` | `LikesIngestion` | the `get_all_likes` loop |
| `matching.dfy` | `TrackMatching` | `find_spotify_match` and its merge loop |
| `pipeline.dfy` | `Soundify` | `process_likes`, `create_playlist_from_matches`, `process_likes_to_playlist` |

External services are modelled as follows:

- **The likes gateway** is a finite script of page outcomes. Call `k` gets `script[k]`, which is a page or a failure, and every call beyond the script fails. The loop's postcondition `IngestPost` describes the calls made and the result. `IngestDeterministic` proves that this postcondition determines both.
- **Spotify search, the query generator and the validator** are function-valued oracles that may raise (`Outcome.Raised`). Ghost logs record each call made to them.
- **The Spotify account** is a class. It holds:
  - the user's playlists in listing order;
  - the page size of the listing;
  - the log of `playlist_add_items` calls.

  The id of a newly created playlist is a parameter. A new playlist is appended to the end of the listing.

Behaviours of the code worth noting:

- **Limit truncation.** The loop truncates to `limit` only at its head. When the last page overshoots the limit and has no next link, the result is returned untruncated (`LikesIngestion.LimitOvershoot`). A `limit` of 0 means "no limit".
- **Page size.** The size the loop computes (`min(limit - len(likes), batch_size)`) reaches SoundCloud only on the first request. A later call carries a next link, which is fetched with only the defaults added: the size it computed is dropped, and the page length is whatever `limit` the server wrote into the link (`LikesIngestion.SizeSentOnlyWithoutToken`).
- **User id.** `SoundCloudClient` annotates `user_id` as an `int`, but the command line passes the settings string, and the f-string inserts it as written. The model's user id is that text (`SoundCloud.Client`), so an id such as `0042` keeps its leading zeros.
- **Retry exhaustion.** A gateway that always fails is called `max(1, max_retries)` times, not `max_retries` times.
- **Validator result.** The validator's answer is returned without checking that it names one of the candidates. The model assumes nothing about it.
- **Failure counter.** Only a non-empty page resets the consecutive-failure counter. An empty page ends the loop anyway.

## Model

| member | source | states |
|---|---|---|
| SoundCloud.WithDefaultsKeys | soundify/soundcloud.py:64-70 | overwriting keeps every query key and adds the default keys; keys no default names keep their value lists |
| SoundCloud.WithDefaultsLastWins | soundify/soundcloud.py:67-68 | the last pair for a key decides its value: exactly the one-element list of that value |
| SoundCloud.AddDefaultParams | soundify/soundcloud.py:62-71 | the loop over the defaults yields the URL's scheme, netloc and path with the defaults written over its query |
| SoundCloud.DefaultsPinned | soundify/soundcloud.py:51-70 | after adding defaults, `client_id`, `app_version`, `app_locale` each map to exactly their one configured value and every other key keeps its values |
| SoundCloud.AddDefaultsIdempotent | soundify/soundcloud.py:67-68 | adding the defaults twice gives the same parameters as once |
| SoundCloud.Render | soundify/soundcloud.py:70-71 | the rebuilt URL is the scheme, `://`, the netloc and the path unchanged, then always `?`, then the encoded query, and nothing else (no fragment) |
| SoundCloud.FirstPageParams | soundify/soundcloud.py:93-97 | the first-page parameters are exactly the three defaults with their configured values, plus `limit` with the given limit and `linked_partitioning` with 1 |
| SoundCloud.LikesRequestFor | soundify/soundcloud.py:88-98 | a next-page request exactly when `next_href` is truthy, to that URL with the defaults added; otherwise a first-page request to the track-likes URL with the first-page parameters |
| SoundCloud.FirstPageRequest | soundify/soundcloud.py:91-98 | without a truthy `next_href` the request goes to the user's track-likes URL with `client_id`, `app_version`, `app_locale` at their configured values, the given limit and `linked_partitioning=1` |
| SoundCloud.NextPageIgnoresLimit | soundify/soundcloud.py:88-90 | with a truthy `next_href` the request is that URL with defaults added and does not depend on `limit` |
| SoundCloud.GetLikes | soundify/soundcloud.py:100-103 | a raising request raises; otherwise the result is exactly the response's collection and next link |
| Decimal.NatToString | soundify/soundify.py:357 | the count is rendered as a non-empty string of decimal digits without a leading zero |
| Decimal.NatToStringInjective | soundify/soundify.py:357 | different counts render differently |
| Decimal.NatToStringRoundTrip | soundify/soundify.py:355-358 | the decimal rendering of a count parses back to the count |
| Spotify.ClampLimit | soundify/spotify.py:55 | the limit sent is always in 1..50, equals the request inside that range, and is 1 below it and 50 above it |
| Spotify.ArtistNames | soundify/spotify.py:67 | one name per artist, in order |
| Spotify.ArtworkUrl | soundify/spotify.py:70-72 | no artwork exactly when the album has no images, otherwise the first image's URL |
| Spotify.ToSearchResult | soundify/spotify.py:74-88 | each field of the record comes from its API source: uri, name, popularity, explicit flag, ISRC, duration, album name, label, release date, the artist names in order, and the first image's URL or none without images |
| Spotify.ResultsOf | soundify/spotify.py:66-88 | exactly one result per returned track, in the same order |
| Spotify.SearchTracks | soundify/spotify.py:38-90 | the loop builds the same results as the specification `Search`: the API asked with the clamped limit, one mapped result per track |
| Spotify.SearchResultFields | soundify/spotify.py:74-88 | each result carries the track's uri, name, popularity, explicit flag, ISRC and duration, the album's name, label and release date, and the artist names in order |
| Spotify.FirstNamed | soundify/spotify.py:106-110 | the position found is the first playlist whose name equals the name exactly; none is found exactly when no playlist has that name |
| Spotify.Resolve | soundify/spotify.py:92-117 | an existing playlist is reused (the first of that name) and nothing changes; a playlist is created exactly when none has the name |
| Spotify.ResolveIdempotent | soundify/spotify.py:105-117 | resolving the same name again finds the playlist the first resolution returned and creates nothing |
| Spotify.Account.GetOrCreatePlaylist | soundify/spotify.py:92-117 | walking the listing page by page returns and creates exactly what `Resolve` says |
| Spotify.Batches | soundify/spotify.py:135-137 | the batches are non-empty, hold at most 100 uris, and concatenate back to the uris in order |
| Spotify.BatchCount | soundify/spotify.py:135-137 | there are ceil(n/100) batches and all but the last are full |
| Spotify.TwoHundredFiftyUris | soundify/spotify.py:135-137 | 250 uris give batches of 100, 100 and 50 |
| Spotify.NoUrisNoBatches | soundify/spotify.py:133-137 | zero uris give no add call |
| Spotify.Sends | soundify/spotify.py:137 | one add call per batch, in order, to the given playlist |
| Spotify.Account.SendBatches | soundify/spotify.py:135-137 | the loop over `range(0, n, 100)` extends the add-call log by exactly one call per batch, in order, to the given playlist |
| Spotify.Account.AddTracksToPlaylist | soundify/spotify.py:119-137 | the playlist is resolved as `Resolve` says (so even with no uris), and the add-call log grows by exactly one call per batch, in order |
| SoundifyRecords.ConfigOrDefault | soundify/soundify.py:24-46 | a given configuration is used; otherwise batch size 50, 5 candidates and 3 retries |
| LikesIngestion.PyPrefix | soundify/soundify.py:65 | Python's `likes[:limit]`: the first `limit` items, everything when `limit` exceeds the length |
| LikesIngestion.RequestSize | soundify/soundify.py:69-74 | the page size asked for never exceeds `batch_size`; with a limit it is the smaller of `limit - len(likes)` and `batch_size`, without one it is `batch_size` |
| LikesIngestion.GetAllLikes | soundify/soundify.py:48-104 | the loop's calls and result satisfy `IngestPost`: each call carries the last page's token and the size `min(limit - len(likes), batch_size)` (or `batch_size`), every call but the last continued, and the result is what was received, cut to `limit` when the head test fired |
| LikesIngestion.IngestDeterministic | soundify/soundify.py:60-101 | the postcondition of the loop fixes both the calls made and the result |
| LikesIngestion.NoPageSkipped | soundify/soundify.py:58-78 | the first call has no token, a failed call is retried with the same token, and a page's next link is the token of the next call |
| LikesIngestion.NoFailureNoLimit | soundify/soundify.py:63-89 | with no failure and no limit, the result is the concatenation in order of the pages up to the first empty page or page without a next link |
| LikesIngestion.AlwaysFailing | soundify/soundify.py:91-101 | a gateway that always fails is called exactly `max(1, max_retries)` times, always without a token, and yields no likes |
| LikesIngestion.RetriesExhausted | soundify/soundify.py:80-101 | the failure counter stays below the budget while the loop runs; a run ending on a failure ends exactly when the counter reaches the budget, returning all likes received |
| LikesIngestion.LimitOvershoot | soundify/soundify.py:64-89 | a result longer than the limit comes only from a last, non-empty page without a next link, requested while under the limit |
| LikesIngestion.LimitRespected | soundify/soundify.py:69-78 | when pages are no longer than the size passed to `get_likes`, the result holds at most `limit` likes |
| LikesIngestion.SizeSentOnlyWithoutToken | soundify/soundcloud.py:88-98 | a call without a token sends its size as the first-page `limit`; a call with a token sends the next link with the defaults, for any size; every call after a page has a token |
| LikesIngestion.HeadTruncation | soundify/soundify.py:64-66 | when the head-of-loop test ends the loop, the result is exactly the first `limit` likes received |
| LikesIngestion.NegativeLimit | soundify/soundify.py:64-66 | a negative limit stops at the first test: no call, no like |
| LikesIngestion.ZeroLimitIsNoLimit | soundify/soundify.py:64-74 | `limit=0` behaves exactly like no limit |
| TrackMatching.FirstIndex | soundify/soundify.py:309-312 | the position of the first result carrying a URI |
| TrackMatching.DedupUris | soundify/soundify.py:306-312 | the merge has exactly the URIs of `primary + backup` |
| TrackMatching.DedupFirst | soundify/soundify.py:309-312 | each kept result is the first result with its URI |
| TrackMatching.DedupOrder | soundify/soundify.py:309-312 | kept results appear in the order of their URIs' first occurrences |
| TrackMatching.DedupNoDuplicates | soundify/soundify.py:307-312 | no URI is kept twice |
| TrackMatching.DedupKeepsPrimary | soundify/soundify.py:306-312 | the merge starts with the merge of the primary results, and what follows has URIs the primary results lack |
| TrackMatching.MergeCandidates | soundify/soundify.py:306-312 | the loop with the `seen_uris` set computes exactly the deduplicating merge |
| TrackMatching.FindSpotifyMatch | soundify/soundify.py:282-323 | the method returns the URI of the specification `Match` and makes exactly its calls, in order |
| TrackMatching.QueryMatch | soundify/soundify.py:292-323 | the part after the ISRC search computes `QueryAndValidate` |
| TrackMatching.IsrcShortCircuit | soundify/soundify.py:285-290 | a non-empty ISRC and an `isrc:` search (limit 1) whose first result has a URI return that URI after that single call |
| TrackMatching.QueryGeneratedUnlessIsrcSettles | soundify/soundify.py:285-292 | a query is generated exactly when the ISRC search neither raised nor found a first result with a URI |
| TrackMatching.DecisionSource | soundify/soundify.py:282-323 | a match comes only from the ISRC search's first result or from the validator's verdict on a non-empty list; every exception gives no match |
| TrackMatching.ValidatorOnlyOnCandidates | soundify/soundify.py:314-317 | an empty merge gives no match without calling the validator; otherwise the validator sees the merge and its verdict is returned unchecked |
| Soundify.KeptAppend | soundify/soundify.py:330-338 | keeping the matches of a concatenation of results gives the concatenation of the kept matches, in order |
| Soundify.KeptBound | soundify/soundify.py:330-338 | never more matches than results, and no kept match is empty |
| Soundify.KeptAll | soundify/soundify.py:330-338 | as many matches as results exactly when every result is a match, and then the i-th match is the i-th result |
| Soundify.NoneKept | soundify/soundify.py:330-338 | results none of which is a match give no uris |
| Soundify.ProcessLikes | soundify/soundify.py:325-340 | the likes are ingested as `IngestPost` says, and the result is exactly the truthy results of matching each like, in like order |
| Soundify.PlaylistName | soundify/soundify.py:349-351 | the name is never empty; a non-empty name is kept, otherwise it is `SoundCloud Likes - ` followed by the date |
| Soundify.DefaultDescription | soundify/soundify.py:355-358 | the default description is the fixed opening text, the timestamp, the fixed middle text, the decimal digits of the count and the fixed closing text |
| Soundify.PlaylistDescription | soundify/soundify.py:353-358 | the description is never empty; a non-empty description is kept, and a missing or empty one becomes the default description for the timestamp and count |
| Soundify.DefaultDescriptionCount | soundify/soundify.py:355-358 | the default description starts and ends with its fixed text, and the track count can be read back from it |
| Soundify.DefaultDescriptionsDiffer | soundify/soundify.py:355-358 | with the same timestamp, different track counts give different default descriptions |
| Soundify.PlaylistUrl | soundify/soundify.py:367 | the URL is the `https://open.spotify.com/playlist/` prefix followed by exactly the id |
| Soundify.UrlNamesPlaylist | soundify/soundify.py:367 | the id is recovered from the URL, so two playlists have the same URL exactly when they have the same id |
| Soundify.CreatePlaylistFromMatches | soundify/soundify.py:342-374 | the playlist is resolved once by name, every batch goes to the reported playlist, at most one playlist is created, and the result holds the id, its URL and `len(track_uris)` |
| Soundify.ProcessLikesToPlaylist | soundify/soundify.py:376-399 | the matches of the ingested likes become the playlist's tracks and the reported count |

## Left out

- The query generator and the validator (soundify/soundify.py:106-280) are oracles that may raise. The prompts, the model name and the JSON parsing are not modelled.
- HTTP and SDK plumbing is abstracted:
  - `httpx` requests, `raise_for_status` and the pydantic validation of JSON bodies become the `http` oracle of `SoundCloud.GetLikes`;
  - spotipy search becomes the `SearchApi` oracle;
  - `current_user`, `user_playlists`/`next`, `user_playlist_create` and `playlist_add_items` become the `Spotify.Account` class;
  - OAuth is not modelled.
- Exceptions raised by the playlist calls in `create_playlist_from_matches` are not modelled: the source lets them propagate, and the model treats those calls as always succeeding.
- The script of page outcomes is finite: every call past its end fails. This bounds the run, where the real gateway might answer successfully forever.
- `asyncio.sleep(retry_delay)` and the float `retry_delay` only affect timing. The sleep is not modelled.
- `datetime.now()` is not modelled: its formatted date and timestamp are parameters.
- `urlparse`, `parse_qs` and `urlencode` are not modelled in detail. Instead:
  - a URL is given already parsed, its query as a map from key to list of values;
  - the `params` part of a parsed URL (`;...` after the last path segment) is not represented: the rebuilt URL drops it;
  - percent-encoding and key order are the `encode` parameter of `SoundCloud.Render`;
  - blank-value dropping is not modelled.
- `SoundCloudClient.close`, `SoundCloudClient.__init__` (apart from its constants) and the spotipy client construction are not modelled.
- The listing position of a newly created playlist is not modelled: the model appends it to the end.
- The model makes a newly created playlist visible to the very next listing. The second resolution inside `add_tracks_to_playlist` relies on this to find the playlist `create_playlist_from_matches` just resolved. The claim that at most one playlist is created rests on it too. A listing that lags behind a creation is not modelled.
- Logging calls are not modelled.
- `main.py` (the command line, settings loading and progress display) is not part of this model.
- pydantic's `HttpUrl` check on `artwork_url` is not modelled; a URL is plain text.
- The id a new playlist receives is chosen by the service; the model takes it as the parameter `newId`.
