/**
 * The SoundCloud side: the records a likes page is made of, the client's default query
 * parameters and the choice between the first-page and the next-page request.
 * The HTTP exchange itself (`httpx`, `raise_for_status`, JSON validation) is an oracle.
 */
module SoundCloud {
  import opened Outcome

  datatype User = User(fullName: string, username: string)

  datatype PublisherMetadata = PublisherMetadata(
    id: Option<int>,
    artist: Option<string>,
    releaseTitle: Option<string>,
    albumTitle: Option<string>,
    isrc: Option<string>,
    explicit: Option<bool>,
    writerComposer: Option<string>,
    publisher: Option<string>)

  datatype Track = Track(
    id: int,
    artworkUrl: Option<string>,
    title: string,
    description: Option<string>,
    duration: Option<int>,
    user: User,
    labelName: Option<string>,
    publisherMetadata: Option<PublisherMetadata>,
    releaseDate: Option<string>)

  datatype Like = Like(track: Track)

  datatype LikesResponse = LikesResponse(
    collection: seq<Like>,
    nextHref: Option<string>,
    queryUrn: Option<string>)

  const BaseUrl: string := "https://api-v2.soundcloud.com"
  const AppVersion: string := "1736508062"
  const AppLocale: string := "en"

  /**
   * A client is configured by the API client id and the id of the user whose likes it reads.
   * The user id is the text the settings hold; it is inserted into the URL as written.
   */
  datatype Client = Client(clientId: string, userId: string)

  /** The client's default parameters, in the order the client defines them. */
  function DefaultParams(c: Client): seq<(string, string)> {
    [("client_id", c.clientId), ("app_version", AppVersion), ("app_locale", AppLocale)]
  }

  /** A parsed query string: each key with the list of its values. */
  type Query = map<string, seq<string>>

  /**
   * The parts of a URL as `urlparse` splits it that the rebuilt URL can use, with the query
   * already read into a `Query`; the `params` part (`;...` after the last path segment) is
   * not represented, as the rebuilt URL drops it.
   */
  datatype ParsedUrl = ParsedUrl(scheme: string, netloc: string, path: string, query: Query, fragment: string)

  /** A rebuilt request URL `scheme://netloc path ? query`; it has no fragment part. */
  datatype RequestUrl = RequestUrl(scheme: string, netloc: string, path: string, query: Query)

  function KeysOf(d: seq<(string, string)>): set<string> {
    set i | 0 <= i < |d| :: d[i].0
  }

  /** The query after each pair of `d`, in order, has overwritten its key with the one-element list of its value. */
  function WithDefaults(q: Query, d: seq<(string, string)>): Query {
    if d == [] then q else WithDefaults(q, d[..|d| - 1])[d[|d| - 1].0 := [d[|d| - 1].1]]
  }

  lemma KeysOfSnoc(d: seq<(string, string)>)
    requires |d| > 0
    ensures KeysOf(d) == KeysOf(d[..|d| - 1]) + {d[|d| - 1].0}
  {
    forall x | x in KeysOf(d) ensures x in KeysOf(d[..|d| - 1]) + {d[|d| - 1].0} {
      var i :| 0 <= i < |d| && d[i].0 == x;
      if i < |d| - 1 { assert d[..|d| - 1][i].0 == x; }
    }
    forall x | x in KeysOf(d[..|d| - 1]) ensures x in KeysOf(d) {
      var i :| 0 <= i < |d| - 1 && d[..|d| - 1][i].0 == x;
      assert d[i].0 == x;
    }
  }

  /** Overwriting keeps every key of the query and adds those of the pairs; keys that no pair names keep their lists. */
  lemma {:induction false} WithDefaultsKeys(q: Query, d: seq<(string, string)>)
    ensures WithDefaults(q, d).Keys == q.Keys + KeysOf(d)
    ensures forall k | k in q && k !in KeysOf(d) :: WithDefaults(q, d)[k] == q[k]
  {
    if d != [] {
      WithDefaultsKeys(q, d[..|d| - 1]);
      KeysOfSnoc(d);
    }
  }

  /** The last pair for a key decides its value. */
  lemma {:induction false} WithDefaultsLastWins(q: Query, d: seq<(string, string)>, i: nat)
    requires i < |d|
    requires forall j | i < j < |d| :: d[j].0 != d[i].0
    ensures d[i].0 in WithDefaults(q, d) && WithDefaults(q, d)[d[i].0] == [d[i].1]
  {
    var init := d[..|d| - 1];
    if i < |d| - 1 {
      assert d[|d| - 1].0 != d[i].0;
      assert init[i] == d[i];
      forall j | i < j < |init| ensures init[j].0 != init[i].0 {
        assert init[j] == d[j];
      }
      WithDefaultsLastWins(q, init, i);
    }
  }

  /** `_add_default_params`: the URL with the client's defaults written over its query. */
  function AddedDefaults(c: Client, url: ParsedUrl): RequestUrl {
    RequestUrl(url.scheme, url.netloc, url.path, WithDefaults(url.query, DefaultParams(c)))
  }

  /** The loop of `_add_default_params`, overwriting one default key after another. */
  method AddDefaultParams(c: Client, url: ParsedUrl) returns (r: RequestUrl)
    ensures r == AddedDefaults(c, url)
  {
    var params := url.query;
    var defaults := DefaultParams(c);
    for i := 0 to |defaults|
      invariant params == WithDefaults(url.query, defaults[..i])
    {
      var (key, value) := defaults[i];
      assert defaults[..i + 1][..i] == defaults[..i];
      params := params[key := [value]];
    }
    assert defaults[..|defaults|] == defaults;
    r := RequestUrl(url.scheme, url.netloc, url.path, params);
  }

  /**
   * After the defaults are added, each default key holds exactly its configured value, and
   * every other key keeps the values it had.
   */
  lemma DefaultsPinned(c: Client, url: ParsedUrl)
    ensures AddedDefaults(c, url).query.Keys == url.query.Keys + {"client_id", "app_version", "app_locale"}
    ensures AddedDefaults(c, url).query["client_id"] == [c.clientId]
    ensures AddedDefaults(c, url).query["app_version"] == [AppVersion]
    ensures AddedDefaults(c, url).query["app_locale"] == [AppLocale]
    ensures forall k | k in url.query && k !in {"client_id", "app_version", "app_locale"} ::
              AddedDefaults(c, url).query[k] == url.query[k]
  {
    var d := DefaultParams(c);
    WithDefaultsKeys(url.query, d);
    assert KeysOf(d) == {"client_id", "app_version", "app_locale"} by {
      assert d[0].0 == "client_id" && d[1].0 == "app_version" && d[2].0 == "app_locale";
    }
    WithDefaultsLastWins(url.query, d, 0);
    WithDefaultsLastWins(url.query, d, 1);
    WithDefaultsLastWins(url.query, d, 2);
  }

  /** Adding the defaults twice gives the same parameters as adding them once. */
  lemma AddDefaultsIdempotent(c: Client, url: ParsedUrl)
    ensures WithDefaults(AddedDefaults(c, url).query, DefaultParams(c)) == AddedDefaults(c, url).query
  {
    var d := DefaultParams(c);
    var once := AddedDefaults(c, url).query;
    var twice := WithDefaults(once, d);
    DefaultsPinned(c, url);
    DefaultsPinned(c, ParsedUrl(url.scheme, url.netloc, url.path, once, url.fragment));
    assert twice.Keys == once.Keys;
    forall k | k in once ensures twice[k] == once[k] {
      if k !in {"client_id", "app_version", "app_locale"} {
        assert k in once && twice[k] == once[k];
      }
    }
  }

  /**
   * The rebuilt URL as text, `encode` standing for `urlencode(params, doseq=True)`: scheme,
   * network location and path come first unchanged, then always a `?`, then the query.
   */
  function Render(u: RequestUrl, encode: Query -> string): (s: string)
    ensures |s| == |u.scheme| + 4 + |u.netloc| + |u.path| + |encode(u.query)|
    ensures s[..|u.scheme|] == u.scheme
    ensures s[|u.scheme|..|u.scheme| + 3] == "://"
    ensures s[|u.scheme| + 3..|u.scheme| + 3 + |u.netloc|] == u.netloc
    ensures s[|u.scheme| + 3 + |u.netloc|..|u.scheme| + 3 + |u.netloc| + |u.path|] == u.path
    ensures s[|u.scheme| + 3 + |u.netloc| + |u.path|] == '?'
    ensures s[|u.scheme| + 4 + |u.netloc| + |u.path|..] == encode(u.query)
  {
    u.scheme + "://" + u.netloc + u.path + "?" + encode(u.query)
  }

  /** A value of a first-page query parameter. */
  datatype ParamValue = Text(text: string) | Number(number: int)

  /** What `get_likes` asks of the HTTP client. */
  datatype LikesRequest =
    | FirstPage(url: string, params: map<string, ParamValue>)
    | NextPage(target: RequestUrl)

  function TrackLikesUrl(c: Client): string {
    BaseUrl + "/users/" + c.userId + "/track_likes"
  }

  /** `{**default_params, "limit": limit, "linked_partitioning": 1}`. */
  function FirstPageParams(c: Client, limit: int): (p: map<string, ParamValue>)
    ensures p.Keys == {"client_id", "app_version", "app_locale", "limit", "linked_partitioning"}
    ensures p["client_id"] == Text(c.clientId) && p["app_version"] == Text(AppVersion) && p["app_locale"] == Text(AppLocale)
    ensures p["limit"] == Number(limit) && p["linked_partitioning"] == Number(1)
  {
    map["client_id" := Text(c.clientId), "app_version" := Text(AppVersion), "app_locale" := Text(AppLocale),
        "limit" := Number(limit), "linked_partitioning" := Number(1)]
  }

  /**
   * The request `get_likes` sends: with a (truthy) `next_href`, that URL with the defaults
   * added; without one, the user's track-likes URL with the defaults, `limit` and
   * `linked_partitioning=1`. `parse` stands for `urlparse` followed by `parse_qs`.
   */
  function LikesRequestFor(c: Client, nextHref: Option<string>, limit: int, parse: string -> ParsedUrl): (r: LikesRequest)
    ensures r.NextPage? <==> Truthy(nextHref)
    ensures r.NextPage? ==> r.target == AddedDefaults(c, parse(nextHref.value))
    ensures r.FirstPage? ==> r.url == TrackLikesUrl(c) && r.params == FirstPageParams(c, limit)
  {
    if Truthy(nextHref) then NextPage(AddedDefaults(c, parse(nextHref.value)))
    else FirstPage(TrackLikesUrl(c), FirstPageParams(c, limit))
  }

  /**
   * `get_likes`: one page of likes and the link to the next one. `http` stands for the GET
   * request, the status check and the validation of the JSON body, any of which may raise.
   */
  function GetLikes(c: Client, nextHref: Option<string>, limit: int, parse: string -> ParsedUrl,
                    http: LikesRequest -> Outcome<LikesResponse>): (r: Outcome<(seq<Like>, Option<string>)>)
    ensures http(LikesRequestFor(c, nextHref, limit, parse)).Raised? <==> r.Raised?
    ensures r.Ok? ==> r.value == (http(LikesRequestFor(c, nextHref, limit, parse)).value.collection,
                                  http(LikesRequestFor(c, nextHref, limit, parse)).value.nextHref)
  {
    match http(LikesRequestFor(c, nextHref, limit, parse))
    case Raised => Raised
    case Ok(response) => Ok((response.collection, response.nextHref))
  }

  /**
   * The first page is requested from the user's track-likes URL with the defaults, the
   * requested `limit` and `linked_partitioning=1`.
   */
  lemma FirstPageRequest(c: Client, nextHref: Option<string>, limit: int, parse: string -> ParsedUrl)
    requires !Truthy(nextHref)
    ensures LikesRequestFor(c, nextHref, limit, parse).FirstPage?
    ensures LikesRequestFor(c, nextHref, limit, parse).url == BaseUrl + "/users/" + c.userId + "/track_likes"
    ensures LikesRequestFor(c, nextHref, limit, parse).params["limit"] == Number(limit)
    ensures LikesRequestFor(c, nextHref, limit, parse).params["linked_partitioning"] == Number(1)
    ensures LikesRequestFor(c, nextHref, limit, parse).params["client_id"] == Text(c.clientId)
    ensures LikesRequestFor(c, nextHref, limit, parse).params["app_version"] == Text(AppVersion)
    ensures LikesRequestFor(c, nextHref, limit, parse).params["app_locale"] == Text(AppLocale)
  {
  }

  /**
   * A next-page request goes to `next_href` with the defaults added, and does not depend on
   * the `limit` argument.
   */
  lemma NextPageIgnoresLimit(c: Client, nextHref: Option<string>, limit1: int, limit2: int, parse: string -> ParsedUrl)
    requires Truthy(nextHref)
    ensures LikesRequestFor(c, nextHref, limit1, parse) == NextPage(AddedDefaults(c, parse(nextHref.value)))
    ensures LikesRequestFor(c, nextHref, limit1, parse) == LikesRequestFor(c, nextHref, limit2, parse)
  {
  }
}
