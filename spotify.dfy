/**
 * The Spotify side: track search with its result records, and the user's playlists, which
 * the client resolves by name and fills in batches of at most 100 tracks.
 * The Web API calls (search, listing, creation, adding items) are oracles or the state of
 * an `Account`.
 */
module Spotify {
  import opened Outcome

  /** A search result as the client builds it from one track of the API's answer. */
  datatype SearchResult = SearchResult(
    artists: seq<string>,
    title: string,
    album: string,
    popularity: int,
    isrc: Option<string>,
    explicit: bool,
    artworkUrl: Option<string>,
    uri: string,
    duration: int,
    recordLabel: Option<string>,
    releaseDate: Option<string>)

  /** The parts of an API track object that the client reads; `.get` fields are optional. */
  datatype ApiArtist = ApiArtist(name: string)
  datatype ApiImage = ApiImage(url: string)
  datatype ApiAlbum = ApiAlbum(name: string, images: seq<ApiImage>, recordLabel: Option<string>, releaseDate: Option<string>)
  datatype ApiTrack = ApiTrack(
    artists: seq<ApiArtist>,
    name: string,
    album: ApiAlbum,
    popularity: int,
    externalIsrc: Option<string>,
    explicit: bool,
    uri: string,
    durationMs: int)

  /** The search endpoint: query, limit and market to the items of the answer, or an exception. */
  type SearchApi = (string, int, Option<string>) -> Outcome<seq<ApiTrack>>

  const MaxSearchLimit: int := 50

  /** `min(50, max(1, limit))`: the limit actually sent to the search endpoint. */
  function ClampLimit(limit: int): (r: int)
    ensures 1 <= r <= MaxSearchLimit
    ensures 1 <= limit <= MaxSearchLimit ==> r == limit
    ensures limit < 1 ==> r == 1
    ensures limit > MaxSearchLimit ==> r == MaxSearchLimit
  {
    Min(MaxSearchLimit, Max(1, limit))
  }

  /** The artists' names, in the order the API lists the artists. */
  function ArtistNames(artists: seq<ApiArtist>): (names: seq<string>)
    ensures |names| == |artists|
    ensures forall i | 0 <= i < |artists| :: names[i] == artists[i].name
  {
    seq(|artists|, i requires 0 <= i < |artists| => artists[i].name)
  }

  /** The URL of the album's first image, or `None` when the album has no image. */
  function ArtworkUrl(album: ApiAlbum): (r: Option<string>)
    ensures r.None? <==> album.images == []
    ensures r.Some? ==> r.value == album.images[0].url
  {
    if album.images != [] then Some(album.images[0].url) else None
  }

  /** The `SearchResult` built from one API track. */
  function ToSearchResult(t: ApiTrack): (r: SearchResult)
    ensures r.uri == t.uri && r.title == t.name && r.popularity == t.popularity && r.explicit == t.explicit
    ensures r.isrc == t.externalIsrc && r.duration == t.durationMs
    ensures r.album == t.album.name && r.recordLabel == t.album.recordLabel && r.releaseDate == t.album.releaseDate
    ensures |r.artists| == |t.artists| && forall j | 0 <= j < |t.artists| :: r.artists[j] == t.artists[j].name
    ensures r.artworkUrl.None? <==> t.album.images == []
    ensures r.artworkUrl.Some? ==> r.artworkUrl.value == t.album.images[0].url
  {
    SearchResult(ArtistNames(t.artists), t.name, t.album.name, t.popularity, t.externalIsrc, t.explicit,
                 ArtworkUrl(t.album), t.uri, t.durationMs, t.album.recordLabel, t.album.releaseDate)
  }

  /** One result per track, in the order of the tracks. */
  function ResultsOf(tracks: seq<ApiTrack>): (rs: seq<SearchResult>)
    ensures |rs| == |tracks|
    ensures forall i | 0 <= i < |tracks| :: rs[i] == ToSearchResult(tracks[i])
  {
    seq(|tracks|, i requires 0 <= i < |tracks| => ToSearchResult(tracks[i]))
  }

  /** `search_tracks` as a value: the endpoint is asked with the clamped limit. */
  function Search(api: SearchApi, query: string, limit: int, market: Option<string>): Outcome<seq<SearchResult>> {
    match api(query, ClampLimit(limit), market)
    case Raised => Raised
    case Ok(tracks) => Ok(ResultsOf(tracks))
  }

  /** `search_tracks`: the request with the clamped limit, then one appended result per track. */
  method SearchTracks(api: SearchApi, query: string, limit: int, market: Option<string>)
    returns (r: Outcome<seq<SearchResult>>)
    ensures r == Search(api, query, limit, market)
  {
    var sent := ClampLimit(limit);
    var answer := api(query, sent, market);
    if answer.Raised? {
      return Raised;
    }
    var tracks := answer.value;
    var results: seq<SearchResult> := [];
    for i := 0 to |tracks|
      invariant |results| == i
      invariant forall j | 0 <= j < i :: results[j] == ToSearchResult(tracks[j])
    {
      var track := tracks[i];
      results := results + [ToSearchResult(track)];
    }
    assert results == ResultsOf(tracks);
    r := Ok(results);
  }

  /**
   * A search result carries the track's uri, name, popularity, explicit flag, ISRC and
   * duration, the album's name, label and release date, and the artist names in order.
   */
  lemma SearchResultFields(api: SearchApi, query: string, limit: int, market: Option<string>, i: nat)
    requires api(query, ClampLimit(limit), market).Ok?
    requires i < |api(query, ClampLimit(limit), market).value|
    ensures var t := api(query, ClampLimit(limit), market).value[i];
            var rs := Search(api, query, limit, market).value;
            && |rs| == |api(query, ClampLimit(limit), market).value|
            && rs[i].uri == t.uri && rs[i].title == t.name && rs[i].album == t.album.name
            && rs[i].recordLabel == t.album.recordLabel && rs[i].releaseDate == t.album.releaseDate
            && rs[i].isrc == t.externalIsrc && rs[i].duration == t.durationMs
            && rs[i].popularity == t.popularity && rs[i].explicit == t.explicit
            && |rs[i].artists| == |t.artists|
            && (forall j | 0 <= j < |t.artists| :: rs[i].artists[j] == t.artists[j].name)
            && (rs[i].artworkUrl.None? <==> t.album.images == [])
  {
  }

  // ---------------------------------------------------------------------------------------
  // Playlists

  datatype Playlist = Playlist(id: string, name: string, description: Option<string>)

  /** One `playlist_add_items` call. */
  datatype AddCall = AddCall(playlistId: string, uris: seq<string>)

  /** The index of the first playlist named exactly `name`, if any. */
  function FirstNamed(playlists: seq<Playlist>, name: string): (r: Option<nat>)
    ensures r.Some? ==> r.value < |playlists| && playlists[r.value].name == name
    ensures r.Some? ==> forall j | 0 <= j < r.value :: playlists[j].name != name
    ensures r.None? <==> forall j | 0 <= j < |playlists| :: playlists[j].name != name
  {
    if playlists == [] then None
    else if playlists[0].name == name then Some(0)
    else match FirstNamed(playlists[1..], name)
      case None => None
      case Some(k) => Some(k + 1)
  }

  /** The outcome of resolving a playlist by name: its id and the user's playlists afterwards. */
  datatype Resolution = Resolution(id: string, playlists: seq<Playlist>, created: bool)

  /**
   * `get_or_create_playlist` as a value: the id of the first playlist named `name`, or
   * else a new playlist with the id `newId` chosen by the service.
   */
  function Resolve(playlists: seq<Playlist>, name: string, description: Option<string>, newId: string): (r: Resolution)
    ensures !r.created ==> r.playlists == playlists
    ensures !r.created ==> exists k | 0 <= k < |playlists| ::
              playlists[k].id == r.id && playlists[k].name == name && forall j | 0 <= j < k :: playlists[j].name != name
    ensures r.created <==> forall j | 0 <= j < |playlists| :: playlists[j].name != name
    ensures r.created ==> r.id == newId && r.playlists == playlists + [Playlist(newId, name, description)]
  {
    match FirstNamed(playlists, name)
    case Some(k) => Resolution(playlists[k].id, playlists, false)
    case None => Resolution(newId, playlists + [Playlist(newId, name, description)], true)
  }

  /**
   * Resolving the same name again finds the playlist the first call returned and creates
   * nothing, whatever description or new id the second call is given.
   */
  lemma {:induction false} ResolveIdempotent(playlists: seq<Playlist>, name: string, d1: Option<string>, id1: string,
                                            d2: Option<string>, id2: string)
    ensures var r1 := Resolve(playlists, name, d1, id1);
            var r2 := Resolve(r1.playlists, name, d2, id2);
            !r2.created && r2.id == r1.id && r2.playlists == r1.playlists
  {
    var r1 := Resolve(playlists, name, d1, id1);
    var ps := r1.playlists;
    if r1.created {
      assert ps[|playlists|].name == name;
      var k := FirstNamed(ps, name).value;
      assert k == |playlists|;
    } else {
      var k :| 0 <= k < |playlists| && playlists[k].id == r1.id && playlists[k].name == name
               && forall j | 0 <= j < k :: playlists[j].name != name;
      assert FirstNamed(ps, name) == Some(k);
    }
  }

  /** The 100-item batches of `for i in range(0, len(uris), 100): uris[i:i + 100]`. */
  const BatchCeiling: nat := 100

  function Flatten(batches: seq<seq<string>>): seq<string> {
    if batches == [] then [] else batches[0] + Flatten(batches[1..])
  }

  /** The batches are non-empty, hold at most 100 uris each, and concatenate back to the uris in their order. */
  function Batches(uris: seq<string>): (bs: seq<seq<string>>)
    ensures Flatten(bs) == uris
    ensures forall k | 0 <= k < |bs| :: 0 < |bs[k]| <= BatchCeiling
    decreases |uris|
  {
    if uris == [] then []
    else
      var n := Min(BatchCeiling, |uris|);
      var rest := Batches(uris[n..]);
      assert uris[..n] + uris[n..] == uris;
      assert ([uris[..n]] + rest)[1..] == rest;
      [uris[..n]] + rest
  }

  /** There are ceil(n / 100) batches, and all but the last are full. */
  lemma {:induction false} BatchCount(uris: seq<string>)
    ensures |Batches(uris)| == (|uris| + BatchCeiling - 1) / BatchCeiling
    ensures forall k | 0 <= k < |Batches(uris)| - 1 :: |Batches(uris)[k]| == BatchCeiling
    decreases |uris|
  {
    if uris != [] {
      var n := Min(BatchCeiling, |uris|);
      BatchCount(uris[n..]);
      var bs := Batches(uris);
      var rest := Batches(uris[n..]);
      assert bs == [uris[..n]] + rest;
      if |uris| > BatchCeiling {
        assert |uris[n..]| == |uris| - BatchCeiling;
        assert (|uris| - BatchCeiling + BatchCeiling - 1) / BatchCeiling + 1 == (|uris| + BatchCeiling - 1) / BatchCeiling;
      } else {
        assert rest == [];
      }
    }
  }

  /** No uri, no batch: an empty track list leads to no add call. */
  lemma NoUrisNoBatches(id: string)
    ensures Sends(id, Batches([])) == []
  {
  }

  /** 250 uris go out as batches of 100, 100 and 50, in order. */
  lemma TwoHundredFiftyUris(uris: seq<string>)
    requires |uris| == 250
    ensures Batches(uris) == [uris[..100], uris[100..200], uris[200..]]
  {
    var rest := uris[100..];
    var last := rest[100..];
    assert Batches(last) == [last] by {
      assert last[..50] == last && last[50..] == [];
    }
    assert rest[..100] == uris[100..200];
    assert last == uris[200..];
  }

  /** Sending the uris from position `i` on starts with the batch at `i`. */
  lemma BatchesFrom(uris: seq<string>, i: nat)
    requires i < |uris|
    ensures Batches(uris[i..]) == [uris[i..Min(i + BatchCeiling, |uris|)]] + Batches(uris[Min(i + BatchCeiling, |uris|)..])
  {
    var j := Min(i + BatchCeiling, |uris|);
    assert uris[i..][..j - i] == uris[i..j];
    assert uris[i..][j - i..] == uris[j..];
  }

  function Sends(id: string, batches: seq<seq<string>>): (calls: seq<AddCall>)
    ensures |calls| == |batches|
    ensures forall k | 0 <= k < |batches| :: calls[k] == AddCall(id, batches[k])
  {
    if batches == [] then [] else [AddCall(id, batches[0])] + Sends(id, batches[1..])
  }

  /** The add calls for the uris from position `i` on start with the call for the batch at `i`. */
  lemma SendsFrom(id: string, uris: seq<string>, i: nat)
    requires i < |uris|
    ensures Sends(id, Batches(uris[i..])) ==
            [AddCall(id, uris[i..Min(i + BatchCeiling, |uris|)])] + Sends(id, Batches(uris[Min(i + BatchCeiling, |uris|)..]))
  {
    BatchesFrom(uris, i);
    var later := Batches(uris[Min(i + BatchCeiling, |uris|)..]);
    assert ([uris[i..Min(i + BatchCeiling, |uris|)]] + later)[1..] == later;
  }

  /**
   * The remote account of one user: their playlists in listing order, the page size of the
   * listing, and the `playlist_add_items` calls made so far.
   */
  class Account {
    var playlists: seq<Playlist>
    var pageSize: nat
    var added: seq<AddCall>

    ghost predicate Valid()
      reads this
    {
      pageSize > 0
    }

    constructor (playlists: seq<Playlist>, pageSize: nat)
      requires pageSize > 0
      ensures Valid()
      ensures this.playlists == playlists && this.pageSize == pageSize && added == []
    {
      this.playlists := playlists;
      this.pageSize := pageSize;
      added := [];
    }

    /**
     * `get_or_create_playlist`: walk the listing page by page, return the id of the first
     * playlist named `name`; if no page holds one, create it with the id `newId`.
     */
    method GetOrCreatePlaylist(name: string, description: Option<string>, newId: string) returns (id: string)
      requires Valid()
      modifies this`playlists
      ensures Valid()
      ensures id == Resolve(old(playlists), name, description, newId).id
      ensures playlists == Resolve(old(playlists), name, description, newId).playlists
    {
      var listing: Option<nat> := Some(0);
      while listing.Some?
        invariant listing.Some? ==> listing.value <= |playlists|
        invariant forall k | 0 <= k < (if listing.Some? then listing.value else |playlists|) :: playlists[k].name != name
        decreases if listing.Some? then |playlists| - listing.value + 1 else 0
      {
        var start := listing.value;
        var end := Min(start + pageSize, |playlists|);
        var items := playlists[start..end];
        for j := 0 to |items|
          invariant forall k | 0 <= k < start + j :: playlists[k].name != name
        {
          if items[j].name == name {
            assert playlists[start + j] == items[j];
            assert FirstNamed(playlists, name) == Some(start + j);
            return items[j].id;
          }
        }
        listing := if start + pageSize < |playlists| then Some(start + pageSize) else None;
      }
      id := newId;
      playlists := playlists + [Playlist(newId, name, description)];
    }

    /**
     * `add_tracks_to_playlist`: resolve the playlist by name, then send the uris in
     * consecutive batches of at most 100.
     */
    method AddTracksToPlaylist(name: string, uris: seq<string>, description: Option<string>, newId: string)
      returns (ghost id: string)
      requires Valid()
      modifies this`playlists, this`added
      ensures Valid()
      ensures id == Resolve(old(playlists), name, description, newId).id
      ensures playlists == Resolve(old(playlists), name, description, newId).playlists
      ensures added == old(added) + Sends(id, Batches(uris))
    {
      var playlistId := GetOrCreatePlaylist(name, description, newId);
      id := playlistId;
      SendBatches(playlistId, uris);
    }

    /** The `for i in range(0, len(uris), 100)` loop: one `playlist_add_items` call per batch. */
    method SendBatches(playlistId: string, uris: seq<string>)
      modifies this`added
      ensures added == old(added) + Sends(playlistId, Batches(uris))
    {
      var i := 0;
      while i < |uris|
        invariant 0 <= i <= |uris|
        invariant added + Sends(playlistId, Batches(uris[i..])) == old(added) + Sends(playlistId, Batches(uris))
        decreases |uris| - i
      {
        var j := Min(i + BatchCeiling, |uris|);
        var batch := uris[i..j];
        ghost var rest := Sends(playlistId, Batches(uris[j..]));
        SendsFrom(playlistId, uris, i);
        assert added + Sends(playlistId, Batches(uris[i..])) == (added + [AddCall(playlistId, batch)]) + rest;
        added := added + [AddCall(playlistId, batch)];
        i := j;
      }
      assert uris[|uris|..] == [];
    }
  }
}
