/**
 * `find_spotify_match`: the three strategies for one like, tried in order — a search by
 * ISRC, then a generated query and a title search whose results are merged without
 * duplicate URIs, then the validator's verdict on the merged candidates. Every exception
 * on the way gives "no match".
 *
 * The query generator and the validator are oracles that may raise; nothing is assumed
 * about the URI the validator returns. The calls made are recorded in a ghost log.
 */
module TrackMatching {
  import opened Outcome
  import opened SoundCloud
  import opened Spotify

  /** One call to a collaborator: a track search, the query generator, or the validator. */
  datatype Call = SearchCall(query: string, limit: int) | GenerateQueryCall | ValidateCall(candidates: seq<SearchResult>)

  /** The collaborators of the matcher. */
  datatype Oracles = Oracles(
    search: SearchApi,
    generateQuery: Like -> Outcome<string>,
    validate: (Like, seq<SearchResult>) -> Outcome<Option<string>>)

  /** The URI chosen for one like, if any, and the calls made to choose it. */
  datatype Decision = Decision(uri: Option<string>, calls: seq<Call>)

  // ---------------------------------------------------------------------------------------
  // Merging the two candidate lists

  function Uris(rs: seq<SearchResult>): set<string> {
    set i | 0 <= i < |rs| :: rs[i].uri
  }

  lemma UrisSnoc(rs: seq<SearchResult>, x: SearchResult)
    ensures Uris(rs + [x]) == Uris(rs) + {x.uri}
  {
    var rs' := rs + [x];
    forall u | u in Uris(rs') ensures u in Uris(rs) + {x.uri} {
      var i :| 0 <= i < |rs'| && rs'[i].uri == u;
      if i < |rs| { assert rs[i].uri == u; }
    }
    forall u | u in Uris(rs) ensures u in Uris(rs') {
      var i :| 0 <= i < |rs| && rs[i].uri == u;
      assert rs'[i].uri == u;
    }
    assert rs'[|rs|].uri == x.uri;
  }

  /** The results in order, each kept only if no earlier kept result has its URI. */
  function Dedup(rs: seq<SearchResult>): seq<SearchResult> {
    if rs == [] then []
    else
      var kept := Dedup(rs[..|rs| - 1]);
      if rs[|rs| - 1].uri in Uris(kept) then kept else kept + [rs[|rs| - 1]]
  }

  /** The position of the first result with URI `u`. */
  function FirstIndex(rs: seq<SearchResult>, u: string): (k: nat)
    requires u in Uris(rs)
    ensures k < |rs| && rs[k].uri == u && u !in Uris(rs[..k])
  {
    var init := rs[..|rs| - 1];
    UrisSnoc(init, rs[|rs| - 1]);
    assert init + [rs[|rs| - 1]] == rs;
    if u in Uris(init) then
      var k := FirstIndex(init, u);
      assert init[..k] == rs[..k];
      k
    else
      assert init == rs[..|rs| - 1];
      |rs| - 1
  }

  /** Appending a result keeps the first positions of the URIs already present, and the new URI is first at the end. */
  lemma FirstIndexSnoc(rs: seq<SearchResult>, x: SearchResult)
    ensures Uris(rs + [x]) == Uris(rs) + {x.uri}
    ensures forall u | u in Uris(rs) :: FirstIndex(rs + [x], u) == FirstIndex(rs, u)
    ensures x.uri !in Uris(rs) ==> FirstIndex(rs + [x], x.uri) == |rs|
  {
    UrisSnoc(rs, x);
    assert (rs + [x])[..|rs|] == rs;
  }

  /** The merge keeps exactly the URIs of its input. */
  lemma {:induction false} DedupUris(rs: seq<SearchResult>)
    ensures Uris(Dedup(rs)) == Uris(rs)
  {
    if rs != [] {
      var init := rs[..|rs| - 1];
      var x := rs[|rs| - 1];
      assert rs == init + [x];
      DedupUris(init);
      UrisSnoc(init, x);
      UrisSnoc(Dedup(init), x);
    }
  }

  /** Each kept result is the first result with its URI. */
  lemma {:induction false} DedupFirst(rs: seq<SearchResult>)
    ensures forall j | 0 <= j < |Dedup(rs)| :: Dedup(rs)[j].uri in Uris(rs) && Dedup(rs)[j] == rs[FirstIndex(rs, Dedup(rs)[j].uri)]
  {
    if rs != [] {
      var init := rs[..|rs| - 1];
      var x := rs[|rs| - 1];
      assert rs == init + [x];
      DedupFirst(init);
      DedupUris(init);
      FirstIndexSnoc(init, x);
      var kept := Dedup(init);
      if x.uri !in Uris(kept) {
        var d := Dedup(rs);
        assert d == kept + [x];
        forall j | 0 <= j < |d| ensures d[j].uri in Uris(rs) && d[j] == rs[FirstIndex(rs, d[j].uri)] {
          if j < |kept| {
            assert d[j] == kept[j];
          }
        }
      }
    }
  }

  /** Kept results appear in the order of the first occurrences of their URIs. */
  lemma {:induction false} DedupOrder(rs: seq<SearchResult>)
    ensures forall j | 0 <= j < |Dedup(rs)| :: Dedup(rs)[j].uri in Uris(rs)
    ensures forall j1, j2 | 0 <= j1 < j2 < |Dedup(rs)| ::
              FirstIndex(rs, Dedup(rs)[j1].uri) < FirstIndex(rs, Dedup(rs)[j2].uri)
  {
    DedupFirst(rs);
    if rs != [] {
      var init := rs[..|rs| - 1];
      var x := rs[|rs| - 1];
      assert rs == init + [x];
      DedupOrder(init);
      DedupUris(init);
      FirstIndexSnoc(init, x);
      var kept := Dedup(init);
      if x.uri !in Uris(kept) {
        var d := Dedup(rs);
        assert d == kept + [x];
        forall j1, j2 | 0 <= j1 < j2 < |d|
          ensures FirstIndex(rs, d[j1].uri) < FirstIndex(rs, d[j2].uri)
        {
          assert d[j1] == kept[j1];
          if j2 < |kept| {
            assert d[j2] == kept[j2];
          }
        }
      }
    }
  }

  /** No URI is kept twice. */
  lemma DedupNoDuplicates(rs: seq<SearchResult>)
    ensures forall j1, j2 | 0 <= j1 < j2 < |Dedup(rs)| :: Dedup(rs)[j1].uri != Dedup(rs)[j2].uri
  {
    DedupOrder(rs);
  }

  /**
   * The merge of `primary ++ backup` starts with the merge of `primary` alone, and what
   * follows has URIs that `primary` does not have: a URI found by both searches keeps its
   * primary position and its primary record.
   */
  lemma {:induction false} DedupKeepsPrimary(primary: seq<SearchResult>, backup: seq<SearchResult>)
    ensures |Dedup(primary)| <= |Dedup(primary + backup)|
    ensures Dedup(primary + backup)[..|Dedup(primary)|] == Dedup(primary)
    ensures forall j | |Dedup(primary)| <= j < |Dedup(primary + backup)| :: Dedup(primary + backup)[j].uri !in Uris(primary)
    decreases |backup|
  {
    if backup == [] {
      assert primary + backup == primary;
    } else {
      var b0 := backup[..|backup| - 1];
      var y := backup[|backup| - 1];
      DedupKeepsPrimary(primary, b0);
      assert primary + backup == (primary + b0) + [y];
      assert (primary + backup)[..|primary + backup| - 1] == primary + b0;
      DedupUris(primary + b0);
      assert Uris(primary) <= Uris(primary + b0) by {
        forall u | u in Uris(primary) ensures u in Uris(primary + b0) {
          var i :| 0 <= i < |primary| && primary[i].uri == u;
          assert (primary + b0)[i].uri == u;
        }
      }
    }
  }

  /** The `for` loop that appends each result whose URI is not yet in `seen_uris`. */
  method MergeCandidates(primary: seq<SearchResult>, backup: seq<SearchResult>) returns (combined: seq<SearchResult>)
    ensures combined == Dedup(primary + backup)
  {
    var all := primary + backup;
    combined := [];
    var seenUris: set<string> := {};
    for i := 0 to |all|
      invariant combined == Dedup(all[..i])
      invariant seenUris == Uris(combined)
    {
      var result := all[i];
      assert all[..i + 1][..i] == all[..i];
      if result.uri !in seenUris {
        UrisSnoc(combined, result);
        combined := combined + [result];
        seenUris := seenUris + {result.uri};
      }
    }
    assert all[..|all|] == all;
  }

  // ---------------------------------------------------------------------------------------
  // The strategies

  /** The like's ISRC, when it has publisher metadata with a non-empty ISRC. */
  function IsrcOf(like: Like): Option<string> {
    var pm := like.track.publisherMetadata;
    if pm.Some? && Truthy(pm.value.isrc) then pm.value.isrc else None
  }

  function IsrcQuery(isrc: string): string {
    "isrc:" + isrc
  }

  /**
   * The ISRC search settles the like: it raised (no match) or its first result has a
   * non-empty URI (that match).
   */
  predicate IsrcSettles(o: Oracles, like: Like) {
    && IsrcOf(like).Some?
    && var hits := Search(o.search, IsrcQuery(IsrcOf(like).value), 1, None);
       hits.Raised? || (|hits.value| > 0 && hits.value[0].uri != "")
  }

  /** Strategies two and three: generated query and title searches, merge, validation. */
  function QueryAndValidate(o: Oracles, candidates: int, like: Like, before: seq<Call>): Decision {
    match o.generateQuery(like)
    case Raised => Decision(None, before + [GenerateQueryCall])
    case Ok(query) =>
      var afterPrimary := before + [GenerateQueryCall, SearchCall(query, candidates)];
      match Search(o.search, query, candidates, None)
      case Raised => Decision(None, afterPrimary)
      case Ok(primary) =>
        var afterBackup := afterPrimary + [SearchCall(like.track.title, candidates)];
        match Search(o.search, like.track.title, candidates, None)
        case Raised => Decision(None, afterBackup)
        case Ok(backup) =>
          var merged := Dedup(primary + backup);
          if merged == [] then Decision(None, afterBackup)
          else match o.validate(like, merged)
            case Raised => Decision(None, afterBackup + [ValidateCall(merged)])
            case Ok(verdict) => Decision(verdict, afterBackup + [ValidateCall(merged)])
  }

  /** `find_spotify_match` as a value. */
  function Match(o: Oracles, candidates: int, like: Like): Decision {
    if IsrcOf(like).Some? then
      var query := IsrcQuery(IsrcOf(like).value);
      match Search(o.search, query, 1, None)
      case Raised => Decision(None, [SearchCall(query, 1)])
      case Ok(hits) =>
        if |hits| > 0 && hits[0].uri != "" then Decision(Some(hits[0].uri), [SearchCall(query, 1)])
        else QueryAndValidate(o, candidates, like, [SearchCall(query, 1)])
    else QueryAndValidate(o, candidates, like, [])
  }

  /** `find_spotify_match`, its `try` block returning `None` from every exception. */
  method FindSpotifyMatch(o: Oracles, candidates: int, like: Like) returns (uri: Option<string>, ghost calls: seq<Call>)
    ensures uri == Match(o, candidates, like).uri
    ensures Decision(uri, calls) == Match(o, candidates, like)
  {
    var pm := like.track.publisherMetadata;
    if pm.Some? && Truthy(pm.value.isrc) {
      var query := IsrcQuery(pm.value.isrc.value);
      var isrcResults := SearchTracks(o.search, query, 1, None);
      if isrcResults.Raised? {
        return None, [SearchCall(query, 1)];
      }
      if |isrcResults.value| > 0 && isrcResults.value[0].uri != "" {
        return Some(isrcResults.value[0].uri), [SearchCall(query, 1)];
      }
      uri, calls := QueryMatch(o, candidates, like, [SearchCall(query, 1)]);
    } else {
      uri, calls := QueryMatch(o, candidates, like, []);
    }
  }

  /** The part of `find_spotify_match` after the ISRC search, `before` being the calls made so far. */
  method QueryMatch(o: Oracles, candidates: int, like: Like, ghost before: seq<Call>) returns (uri: Option<string>, ghost calls: seq<Call>)
    ensures uri == QueryAndValidate(o, candidates, like, before).uri
    ensures Decision(uri, calls) == QueryAndValidate(o, candidates, like, before)
  {
    var llmQuery := o.generateQuery(like);
    calls := before + [GenerateQueryCall];
    if llmQuery.Raised? {
      return None, calls;
    }
    var primaryResults := SearchTracks(o.search, llmQuery.value, candidates, None);
    calls := calls + [SearchCall(llmQuery.value, candidates)];
    if primaryResults.Raised? {
      return None, calls;
    }
    var backupResults := SearchTracks(o.search, like.track.title, candidates, None);
    calls := calls + [SearchCall(like.track.title, candidates)];
    if backupResults.Raised? {
      return None, calls;
    }
    var combinedResults := MergeCandidates(primaryResults.value, backupResults.value);
    if combinedResults == [] {
      return None, calls;
    }
    var verdict := o.validate(like, combinedResults);
    calls := calls + [ValidateCall(combinedResults)];
    if verdict.Raised? {
      return None, calls;
    }
    return verdict.value, calls;
  }

  // ---------------------------------------------------------------------------------------
  // What the strategies guarantee

  /**
   * An ISRC search whose first result has a URI decides the match: its URI is returned after
   * that one search, asked for one result, and no query is generated.
   */
  lemma IsrcShortCircuit(o: Oracles, candidates: int, like: Like)
    requires IsrcOf(like).Some?
    requires o.search(IsrcQuery(IsrcOf(like).value), 1, None).Ok?
    requires |o.search(IsrcQuery(IsrcOf(like).value), 1, None).value| > 0
    requires o.search(IsrcQuery(IsrcOf(like).value), 1, None).value[0].uri != ""
    ensures Match(o, candidates, like) ==
            Decision(Some(o.search(IsrcQuery(IsrcOf(like).value), 1, None).value[0].uri),
                     [SearchCall(IsrcQuery(IsrcOf(like).value), 1)])
  {
  }

  lemma QueryAndValidateCalls(o: Oracles, candidates: int, like: Like, before: seq<Call>)
    ensures |QueryAndValidate(o, candidates, like, before).calls| > |before|
    ensures QueryAndValidate(o, candidates, like, before).calls[..|before|] == before
    ensures QueryAndValidate(o, candidates, like, before).calls[|before|] == GenerateQueryCall
  {
  }

  /** A query is generated exactly when the ISRC search does not settle the like. */
  lemma QueryGeneratedUnlessIsrcSettles(o: Oracles, candidates: int, like: Like)
    ensures GenerateQueryCall in Match(o, candidates, like).calls <==> !IsrcSettles(o, like)
  {
    if IsrcOf(like).Some? {
      QueryAndValidateCalls(o, candidates, like, [SearchCall(IsrcQuery(IsrcOf(like).value), 1)]);
    } else {
      QueryAndValidateCalls(o, candidates, like, []);
    }
  }

  /**
   * A match comes only from the ISRC search's first result or from the validator's verdict
   * on a non-empty candidate list; every exception on the way gives "no match".
   */
  lemma DecisionSource(o: Oracles, candidates: int, like: Like)
    requires Match(o, candidates, like).uri.Some?
    ensures var d := Match(o, candidates, like);
            || (IsrcOf(like).Some? && d.calls == [SearchCall(IsrcQuery(IsrcOf(like).value), 1)] &&
                Search(o.search, IsrcQuery(IsrcOf(like).value), 1, None).Ok? &&
                |Search(o.search, IsrcQuery(IsrcOf(like).value), 1, None).value| > 0 &&
                d.uri.value == Search(o.search, IsrcQuery(IsrcOf(like).value), 1, None).value[0].uri)
            || (&& |d.calls| > 0 && d.calls[|d.calls| - 1].ValidateCall?
                && d.calls[|d.calls| - 1].candidates != []
                && o.validate(like, d.calls[|d.calls| - 1].candidates) == Ok(d.uri))
  {
  }

  /**
   * When both searches of strategy two succeed: an empty merge gives "no match" without
   * asking the validator; otherwise the validator is asked about the merged list and its
   * verdict is the result, whatever URI it names.
   */
  lemma ValidatorOnlyOnCandidates(o: Oracles, candidates: int, like: Like)
    requires !IsrcSettles(o, like)
    requires o.generateQuery(like).Ok?
    requires Search(o.search, o.generateQuery(like).value, candidates, None).Ok?
    requires Search(o.search, like.track.title, candidates, None).Ok?
    ensures var merged := Dedup(Search(o.search, o.generateQuery(like).value, candidates, None).value +
                                Search(o.search, like.track.title, candidates, None).value);
            var d := Match(o, candidates, like);
            && (merged == [] ==> d.uri == None && forall c | c in d.calls :: !c.ValidateCall?)
            && (merged != [] ==> d.calls[|d.calls| - 1] == ValidateCall(merged) &&
                                 d.uri == (if o.validate(like, merged).Ok? then o.validate(like, merged).value else None))
  {
  }
}
