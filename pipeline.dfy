/**
 * The orchestration of `Soundify`: ingest the likes, match each of them, keep the matches
 * found, and put them in a playlist whose name, description and URL are derived here.
 * The clock is not modelled: the date and the timestamp are parameters.
 */
module Soundify {
  import opened Outcome
  import Decimal
  import opened SoundCloud
  import opened Spotify
  import opened SoundifyRecords
  import opened LikesIngestion
  import opened TrackMatching

  // ---------------------------------------------------------------------------------------
  // process_likes

  /** The result of matching each like, in like order. */
  function MatchResults(o: Oracles, candidates: int, likes: seq<Like>): seq<Option<string>> {
    seq(|likes|, i requires 0 <= i < |likes| => Match(o, candidates, likes[i]).uri)
  }

  /** The truthy results, in order. */
  function Kept(results: seq<Option<string>>): seq<string> {
    if results == [] then []
    else
      var last := results[|results| - 1];
      Kept(results[..|results| - 1]) + (if Truthy(last) then [last.value] else [])
  }

  /** Keeping the matches of a concatenation keeps those of each part, in order. */
  lemma {:induction false} KeptAppend(a: seq<Option<string>>, b: seq<Option<string>>)
    ensures Kept(a + b) == Kept(a) + Kept(b)
    decreases |b|
  {
    if b == [] {
      assert a + b == a;
    } else {
      var b0 := b[..|b| - 1];
      KeptAppend(a, b0);
      assert (a + b)[..|a + b| - 1] == a + b0;
      assert (a + b)[|a + b| - 1] == b[|b| - 1];
    }
  }

  /** There are never more matches than results, and no kept match is empty. */
  lemma {:induction false} KeptBound(results: seq<Option<string>>)
    ensures |Kept(results)| <= |results|
    ensures forall i | 0 <= i < |Kept(results)| :: Kept(results)[i] != ""
  {
    if results != [] {
      KeptBound(results[..|results| - 1]);
    }
  }

  /**
   * All results are kept exactly when every one is a match; then the i-th kept match is
   * the i-th result.
   */
  lemma {:induction false} KeptAll(results: seq<Option<string>>)
    ensures |Kept(results)| == |results| <==> forall i | 0 <= i < |results| :: Truthy(results[i])
    ensures (forall i | 0 <= i < |results| :: Truthy(results[i])) ==>
            forall i | 0 <= i < |results| :: Kept(results)[i] == results[i].value
  {
    if results != [] {
      var init := results[..|results| - 1];
      KeptAll(init);
      KeptBound(init);
      assert forall i | 0 <= i < |init| :: init[i] == results[i];
      if !(forall i | 0 <= i < |init| :: Truthy(init[i])) {
        var i :| 0 <= i < |init| && !Truthy(init[i]);
        assert !Truthy(results[i]);
      }
    }
  }

  /** Results none of which is a match keep nothing. */
  lemma NoneKept(results: seq<Option<string>>)
    requires forall i | 0 <= i < |results| :: !Truthy(results[i])
    ensures Kept(results) == []
  {
    if results != [] {
      NoneKept(results[..|results| - 1]);
    }
  }

  /**
   * `process_likes`: ingest the likes (the gateway answering from `script`), then keep the
   * truthy result of matching each of them, in order.
   */
  method ProcessLikes(cfg: SoundifyConfig, limit: Option<int>, script: seq<PageOutcome>, o: Oracles)
    returns (matches: seq<string>, ghost likes: seq<Like>, ghost calls: seq<Request>)
    ensures IngestPost(cfg, limit, script, likes, calls)
    ensures matches == Kept(MatchResults(o, cfg.searchCandidates, likes))
  {
    var all;
    all, calls := GetAllLikes(cfg, limit, script);
    likes := all;
    ghost var results := MatchResults(o, cfg.searchCandidates, all);
    matches := [];
    for i := 0 to |all|
      invariant matches == Kept(results[..i])
    {
      assert results[..i + 1][..i] == results[..i];
      var uri, matchCalls := FindSpotifyMatch(o, cfg.searchCandidates, all[i]);
      assert results[i] == uri;
      if Truthy(uri) {
        matches := matches + [uri.value];
      }
    }
    assert results[..|all|] == results;
  }

  // ---------------------------------------------------------------------------------------
  // create_playlist_from_matches

  const NamePrefix: string := "SoundCloud Likes - "
  const DescriptionPrefix: string := "Imported from SoundCloud likes on "
  const DescriptionMiddle: string := ". Contains "
  const DescriptionSuffix: string := " matched tracks."
  const PlaylistUrlPrefix: string := "https://open.spotify.com/playlist/"

  /** A given non-empty name is kept; otherwise the name is the prefix followed by the date. */
  function PlaylistName(name: Option<string>, date: string): (r: string)
    ensures r != ""
    ensures Truthy(name) ==> r == name.value
    ensures !Truthy(name) ==> |r| == |NamePrefix| + |date| && r[..|NamePrefix|] == NamePrefix && r[|NamePrefix|..] == date
  {
    if Truthy(name) then name.value else NamePrefix + date
  }

  /** The default description: the timestamp and the number of matched tracks. */
  function DefaultDescription(timestamp: string, count: nat): (d: string)
    ensures |d| == |DescriptionPrefix| + |timestamp| + |DescriptionMiddle| + |Decimal.NatToString(count)| + |DescriptionSuffix|
    ensures d[..|DescriptionPrefix|] == DescriptionPrefix
    ensures d[|DescriptionPrefix|..|DescriptionPrefix| + |timestamp|] == timestamp
    ensures d[|DescriptionPrefix| + |timestamp| + |DescriptionMiddle|..|d| - |DescriptionSuffix|] == Decimal.NatToString(count)
    ensures d[|d| - |DescriptionSuffix|..] == DescriptionSuffix
  {
    DescriptionPrefix + timestamp + DescriptionMiddle + Decimal.NatToString(count) + DescriptionSuffix
  }

  /** A given non-empty description is kept; otherwise the default description is used. */
  function PlaylistDescription(description: Option<string>, timestamp: string, count: nat): (r: string)
    ensures r != ""
    ensures Truthy(description) ==> r == description.value
    ensures !Truthy(description) ==> r == DefaultDescription(timestamp, count)
  {
    if Truthy(description) then description.value else DefaultDescription(timestamp, count)
  }

  /** The number of tracks can be read back from the default description. */
  lemma DefaultDescriptionCount(timestamp: string, count: nat)
    ensures var d := DefaultDescription(timestamp, count);
            var start := |DescriptionPrefix| + |timestamp| + |DescriptionMiddle|;
            && start <= |d| - |DescriptionSuffix|
            && d[..|DescriptionPrefix|] == DescriptionPrefix
            && d[|d| - |DescriptionSuffix|..] == DescriptionSuffix
            && Decimal.ParseDigits(d[start..|d| - |DescriptionSuffix|]) == count
  {
    var d := DefaultDescription(timestamp, count);
    var digits := Decimal.NatToString(count);
    var start := |DescriptionPrefix| + |timestamp| + |DescriptionMiddle|;
    assert d == (DescriptionPrefix + timestamp + DescriptionMiddle) + digits + DescriptionSuffix;
    assert d[start..|d| - |DescriptionSuffix|] == digits;
    Decimal.NatToStringRoundTrip(count);
  }

  /** Default descriptions with the same timestamp and different track counts differ. */
  lemma DefaultDescriptionsDiffer(timestamp: string, m: nat, n: nat)
    requires m != n
    ensures DefaultDescription(timestamp, m) != DefaultDescription(timestamp, n)
  {
    if DefaultDescription(timestamp, m) == DefaultDescription(timestamp, n) {
      var start := |DescriptionPrefix| + |timestamp| + |DescriptionMiddle|;
      var d := DefaultDescription(timestamp, m);
      assert Decimal.NatToString(m) == d[start..|d| - |DescriptionSuffix|] == Decimal.NatToString(n);
      Decimal.NatToStringInjective(m, n);
    }
  }

  /** The public URL of a playlist. */
  function PlaylistUrl(id: string): (url: string)
    ensures |url| == |PlaylistUrlPrefix| + |id| && url[..|PlaylistUrlPrefix|] == PlaylistUrlPrefix
    ensures url[|PlaylistUrlPrefix|..] == id
  {
    PlaylistUrlPrefix + id
  }

  /** The playlist id a playlist URL names. */
  function IdOfUrl(url: string): string
    requires |url| >= |PlaylistUrlPrefix|
  {
    url[|PlaylistUrlPrefix|..]
  }

  /** The id is recovered from the URL, so distinct playlists have distinct URLs. */
  lemma UrlNamesPlaylist(id1: string, id2: string)
    ensures IdOfUrl(PlaylistUrl(id1)) == id1
    ensures PlaylistUrl(id1) == PlaylistUrl(id2) <==> id1 == id2
  {
    assert IdOfUrl(PlaylistUrl(id2)) == id2;
  }

  /**
   * `create_playlist_from_matches`: derive a name and a description, resolve the playlist,
   * add the tracks, and report its id, its URL and the number of tracks. The second
   * resolution inside `add_tracks_to_playlist` finds the playlist the first one returned,
   * so every batch goes to the reported playlist and at most one playlist is created.
   */
  method CreatePlaylistFromMatches(account: Account, trackUris: seq<string>, playlistName: Option<string>,
                                   description: Option<string>, date: string, timestamp: string, newId: string)
    returns (result: PlaylistCreationResult)
    requires account.Valid()
    modifies account`playlists, account`added
    ensures account.Valid()
    ensures var name := PlaylistName(playlistName, date);
            var r := Resolve(old(account.playlists), name, Some(PlaylistDescription(description, timestamp, |trackUris|)), newId);
            && result == PlaylistCreationResult(r.id, PlaylistUrl(r.id), |trackUris|)
            && account.playlists == r.playlists
            && account.added == old(account.added) + Sends(r.id, Batches(trackUris))
  {
    var name := PlaylistName(playlistName, date);
    var desc := PlaylistDescription(description, timestamp, |trackUris|);
    ghost var before := account.playlists;
    var playlistId := account.GetOrCreatePlaylist(name, Some(desc), newId);
    ResolveIdempotent(before, name, Some(desc), newId, Some(desc), newId);
    ghost var target := account.AddTracksToPlaylist(name, trackUris, Some(desc), newId);
    result := PlaylistCreationResult(playlistId, PlaylistUrl(playlistId), |trackUris|);
  }

  /**
   * `process_likes_to_playlist`: the matches of the ingested likes become the tracks of the
   * playlist.
   */
  method ProcessLikesToPlaylist(cfg: SoundifyConfig, limit: Option<int>, script: seq<PageOutcome>, o: Oracles,
                                account: Account, playlistName: Option<string>, description: Option<string>,
                                date: string, timestamp: string, newId: string)
    returns (result: PlaylistCreationResult, ghost likes: seq<Like>, ghost calls: seq<Request>)
    requires account.Valid()
    modifies account`playlists, account`added
    ensures account.Valid()
    ensures IngestPost(cfg, limit, script, likes, calls)
    ensures var uris := Kept(MatchResults(o, cfg.searchCandidates, likes));
            var name := PlaylistName(playlistName, date);
            var r := Resolve(old(account.playlists), name, Some(PlaylistDescription(description, timestamp, |uris|)), newId);
            && result == PlaylistCreationResult(r.id, PlaylistUrl(r.id), |uris|)
            && account.playlists == r.playlists
            && account.added == old(account.added) + Sends(r.id, Batches(uris))
  {
    var trackUris;
    trackUris, likes, calls := ProcessLikes(cfg, limit, script, o);
    result := CreatePlaylistFromMatches(account, trackUris, playlistName, description, date, timestamp, newId);
  }
}
