/**
 * `get_all_likes`: paginated retrieval of the user's likes with retries.
 *
 * The likes gateway is a script of outcomes: the k-th call (counting from 0) is answered by
 * `script[k]`, a page or a failure, and every call beyond the script fails. What the calls
 * asked for is recorded in a ghost trace of requests.
 */
module LikesIngestion {
  import opened Outcome
  import opened SoundifyRecords
  import opened SoundCloud

  /** One answer of the gateway: a page of likes with its continuation link, or an exception. */
  datatype PageOutcome = Page(items: seq<Like>, next: Option<string>) | Failed

  /** One call `get_likes(next_href=token, limit=size)`. */
  datatype Request = Request(token: Option<string>, size: int)

  /** The answer to call `k`. */
  function Answer(script: seq<PageOutcome>, k: nat): PageOutcome {
    if k < |script| then script[k] else Failed
  }

  function ItemsOf(o: PageOutcome): seq<Like> {
    if o.Page? then o.items else []
  }

  /** `limit` counts only when it is truthy: `None` and `0` both mean "no limit". */
  predicate LimitSet(limit: Option<int>) {
    limit.Some? && limit.value != 0
  }

  /** The head-of-loop test `limit and len(likes) >= limit`. */
  predicate LimitReached(limit: Option<int>, count: int) {
    LimitSet(limit) && count >= limit.value
  }

  /** The page size asked for when `count` likes are in hand. */
  function RequestSize(cfg: SoundifyConfig, limit: Option<int>, count: int): (size: int)
    ensures size <= cfg.batchSize
    ensures LimitSet(limit) ==> size <= limit.value - count && (size == limit.value - count || size == cfg.batchSize)
    ensures !LimitSet(limit) ==> size == cfg.batchSize
  {
    if LimitSet(limit) then Min(limit.value - count, cfg.batchSize) else cfg.batchSize
  }

  /** Python's `s[:n]`, a negative `n` counting from the end. */
  function PyPrefix<T>(s: seq<T>, n: int): (r: seq<T>)
    ensures 0 <= n <= |s| ==> r == s[..n]
    ensures n > |s| ==> r == s
    ensures |r| <= |s| && r == s[..|r|]
  {
    if n >= 0 then s[..Min(n, |s|)] else s[..Max(0, |s| + n)]
  }

  /** The likes received in the first `k` answers, in arrival order. */
  function Received(script: seq<PageOutcome>, k: nat): seq<Like> {
    if k == 0 then [] else Received(script, k - 1) + ItemsOf(Answer(script, k - 1))
  }

  /** The continuation token of the last page among the first `k` answers; failures leave it unchanged. */
  function TokenAt(script: seq<PageOutcome>, k: nat): Option<string> {
    if k == 0 then None
    else match Answer(script, k - 1)
      case Page(_, next) => next
      case Failed => TokenAt(script, k - 1)
  }

  /** The consecutive-failure counter after `k` answers: a failure adds one, a non-empty page resets it. */
  function FailureRun(script: seq<PageOutcome>, k: nat): nat {
    if k == 0 then 0
    else match Answer(script, k - 1)
      case Failed => FailureRun(script, k - 1) + 1
      case Page(items, _) => if items != [] then 0 else FailureRun(script, k - 1)
  }

  /** After answer `i` the loop goes on: a non-empty page with a next link, or a failure within the retry budget. */
  predicate Continues(cfg: SoundifyConfig, script: seq<PageOutcome>, i: nat) {
    match Answer(script, i)
    case Page(items, next) => items != [] && Truthy(next)
    case Failed => FailureRun(script, i + 1) < cfg.maxRetries
  }

  /**
   * Call `i` passes the head-of-loop test, carries the token of the last page received before
   * it, and asks for `min(limit - received, batch_size)` items, or `batch_size` without a limit.
   */
  ghost predicate Requested(cfg: SoundifyConfig, limit: Option<int>, script: seq<PageOutcome>, calls: seq<Request>) {
    forall i | 0 <= i < |calls| ::
      && !LimitReached(limit, |Received(script, i)|)
      && calls[i] == Request(TokenAt(script, i), RequestSize(cfg, limit, |Received(script, i)|))
  }

  /**
   * What `get_all_likes` does, as a property of its calls and its result: every call but the
   * last was followed by another; then either the last answer stopped the loop (a page that
   * is empty or has no next link, or the failure that used up the retries) and the result is
   * everything received, or the head-of-loop test fired and the result is the received likes
   * cut to `limit`.
   */
  ghost predicate IngestPost(cfg: SoundifyConfig, limit: Option<int>, script: seq<PageOutcome>,
                             likes: seq<Like>, calls: seq<Request>) {
    && Requested(cfg, limit, script, calls)
    && (forall i | 0 <= i < |calls| - 1 :: Continues(cfg, script, i))
    && if |calls| > 0 && !Continues(cfg, script, |calls| - 1) then
         likes == Received(script, |calls|)
       else
         LimitReached(limit, |Received(script, |calls|)|) && likes == PyPrefix(Received(script, |calls|), limit.value)
  }

  /** A call that passes the head-of-loop test and carries the expected token and size extends the trace. */
  lemma RequestedSnoc(cfg: SoundifyConfig, limit: Option<int>, script: seq<PageOutcome>, calls: seq<Request>, size: int)
    requires Requested(cfg, limit, script, calls)
    requires !LimitReached(limit, |Received(script, |calls|)|)
    requires size == RequestSize(cfg, limit, |Received(script, |calls|)|)
    ensures Requested(cfg, limit, script, calls + [Request(TokenAt(script, |calls|), size)])
  {
    var calls' := calls + [Request(TokenAt(script, |calls|), size)];
    forall i | 0 <= i < |calls'|
      ensures !LimitReached(limit, |Received(script, i)|)
      ensures calls'[i] == Request(TokenAt(script, i), RequestSize(cfg, limit, |Received(script, i)|))
    {
      if i < |calls| { assert calls'[i] == calls[i]; }
    }
  }

  /** The loop stops after the answer to its last call: the result is everything received. */
  lemma PostAtStop(cfg: SoundifyConfig, limit: Option<int>, script: seq<PageOutcome>, likes: seq<Like>, calls: seq<Request>)
    requires Requested(cfg, limit, script, calls)
    requires |calls| > 0 && forall i | 0 <= i < |calls| - 1 :: Continues(cfg, script, i)
    requires !Continues(cfg, script, |calls| - 1) && likes == Received(script, |calls|)
    ensures IngestPost(cfg, limit, script, likes, calls)
  {
  }

  /** The loop stops at its head test: the result is what was received, cut to `limit`. */
  lemma PostAtHead(cfg: SoundifyConfig, limit: Option<int>, script: seq<PageOutcome>, likes: seq<Like>, calls: seq<Request>)
    requires Requested(cfg, limit, script, calls)
    requires forall i | 0 <= i < |calls| :: Continues(cfg, script, i)
    requires LimitReached(limit, |Received(script, |calls|)|)
    requires likes == PyPrefix(Received(script, |calls|), limit.value)
    ensures IngestPost(cfg, limit, script, likes, calls)
  {
  }

  /** How one more answer extends what was received, the token and the failure counter. */
  lemma StepFacts(script: seq<PageOutcome>, k: nat)
    ensures Received(script, k + 1) == Received(script, k) + ItemsOf(Answer(script, k))
    ensures Answer(script, k).Page? ==> TokenAt(script, k + 1) == Answer(script, k).next
    ensures Answer(script, k).Failed? ==> TokenAt(script, k + 1) == TokenAt(script, k)
    ensures Answer(script, k).Failed? ==> FailureRun(script, k + 1) == FailureRun(script, k) + 1
    ensures Answer(script, k).Page? && Answer(script, k).items != [] ==> FailureRun(script, k + 1) == 0
    ensures Answer(script, k).Page? && Answer(script, k).items == [] ==> FailureRun(script, k + 1) == FailureRun(script, k)
  {
  }

  /** The `while True` loop of `get_all_likes`; `retry_delay` sleeps are not modelled. */
  method GetAllLikes(cfg: SoundifyConfig, limit: Option<int>, script: seq<PageOutcome>)
    returns (likes: seq<Like>, ghost calls: seq<Request>)
    ensures IngestPost(cfg, limit, script, likes, calls)
  {
    likes := [];
    var nextHref: Option<string> := None;
    var retryCount := 0;
    var k: nat := 0;
    calls := [];
    while true
      invariant |calls| == k
      invariant likes == Received(script, k)
      invariant nextHref == TokenAt(script, k)
      invariant retryCount == FailureRun(script, k)
      invariant Requested(cfg, limit, script, calls)
      invariant forall i | 0 <= i < k :: Continues(cfg, script, i)
      decreases if k < |script| then |script| - k else 0, cfg.maxRetries - retryCount
    {
      if LimitSet(limit) && |likes| >= limit.value {
        PostAtHead(cfg, limit, script, PyPrefix(likes, limit.value), calls);
        likes := PyPrefix(likes, limit.value);
        break;
      }
      var batchSize := if LimitSet(limit) then Min(limit.value - |likes|, cfg.batchSize) else cfg.batchSize;
      var outcome := Answer(script, k);
      RequestedSnoc(cfg, limit, script, calls, batchSize);
      calls := calls + [Request(nextHref, batchSize)];
      StepFacts(script, k);
      k := k + 1;
      match outcome
      case Page(batchLikes, next) =>
        nextHref := next;
        if batchLikes != [] {
          likes := likes + batchLikes;
          retryCount := 0;
        }
        if !Truthy(next) || batchLikes == [] {
          PostAtStop(cfg, limit, script, likes, calls);
          break;
        }
        assert Continues(cfg, script, k - 1);
      case Failed =>
        retryCount := retryCount + 1;
        if retryCount >= cfg.maxRetries {
          PostAtStop(cfg, limit, script, likes, calls);
          break;
        }
        assert Continues(cfg, script, k - 1);
    }
  }

  // ---------------------------------------------------------------------------------------
  // What the loop guarantees, derived from its postcondition

  /** A trace that is followed to its end cannot be longer than the one the loop produced. */
  lemma NotLonger(cfg: SoundifyConfig, limit: Option<int>, script: seq<PageOutcome>,
                  likes: seq<Like>, calls: seq<Request>, other: seq<Request>)
    requires IngestPost(cfg, limit, script, likes, calls)
    requires Requested(cfg, limit, script, other)
    requires forall i | 0 <= i < |other| - 1 :: Continues(cfg, script, i)
    ensures |other| <= |calls|
  {
  }

  /** The postcondition of `GetAllLikes` determines both the result and the calls made. */
  lemma IngestDeterministic(cfg: SoundifyConfig, limit: Option<int>, script: seq<PageOutcome>,
                            likes1: seq<Like>, calls1: seq<Request>, likes2: seq<Like>, calls2: seq<Request>)
    requires IngestPost(cfg, limit, script, likes1, calls1)
    requires IngestPost(cfg, limit, script, likes2, calls2)
    ensures likes1 == likes2 && calls1 == calls2
  {
    NotLonger(cfg, limit, script, likes1, calls1, calls2);
    NotLonger(cfg, limit, script, likes2, calls2, calls1);
    assert forall i | 0 <= i < |calls1| :: calls1[i] == calls2[i];
  }

  /**
   * No page is skipped: the first call carries no token, a failed call is retried with the
   * same token, and the next link of a page is the token of the call after it.
   */
  lemma NoPageSkipped(cfg: SoundifyConfig, limit: Option<int>, script: seq<PageOutcome>,
                      likes: seq<Like>, calls: seq<Request>)
    requires IngestPost(cfg, limit, script, likes, calls)
    ensures |calls| > 0 ==> calls[0].token == None
    ensures forall i | 0 < i < |calls| && Answer(script, i - 1).Failed? :: calls[i].token == calls[i - 1].token
    ensures forall i | 0 < i < |calls| && Answer(script, i - 1).Page? :: calls[i].token == Answer(script, i - 1).next
  {
  }

  /**
   * The pages up to and including the first that stops the loop (empty, or without a next
   * link), concatenated in order; failures contribute nothing.
   */
  function UntilStop(script: seq<PageOutcome>): seq<Like> {
    if script == [] then []
    else match script[0]
      case Failed => UntilStop(script[1..])
      case Page(items, next) => if items == [] || !Truthy(next) then items else items + UntilStop(script[1..])
  }

  lemma {:induction false} UntilStopSplit(cfg: SoundifyConfig, script: seq<PageOutcome>, j: nat)
    requires j <= |script|
    requires forall i | 0 <= i < j :: script[i].Page? && Continues(cfg, script, i)
    ensures UntilStop(script) == Received(script, j) + UntilStop(script[j..])
  {
    if j > 0 {
      UntilStopSplit(cfg, script, j - 1);
      assert script[j - 1].Page? && Continues(cfg, script, j - 1);
      assert script[j - 1..][1..] == script[j..];
    }
  }

  lemma {:induction false} ReceivedPastScript(script: seq<PageOutcome>, k: nat)
    requires k >= |script|
    ensures Received(script, k) == Received(script, |script|)
  {
    if k > |script| {
      ReceivedPastScript(script, k - 1);
    }
  }

  /** The page that stops the loop is the last one `UntilStop` takes. */
  lemma StopPageTail(cfg: SoundifyConfig, script: seq<PageOutcome>, j: nat)
    requires j < |script| && script[j].Page? && !Continues(cfg, script, j)
    ensures UntilStop(script[j..]) == script[j].items
  {
    assert script[j..][0] == script[j];
  }

  /** Likes received up to a stop after pages only are the likes `UntilStop` takes. */
  lemma StoppedAfterPages(cfg: SoundifyConfig, script: seq<PageOutcome>, k: nat)
    requires forall i | 0 <= i < |script| :: script[i].Page?
    requires k > 0 && !Continues(cfg, script, k - 1)
    requires forall i | 0 <= i < k - 1 :: Continues(cfg, script, i)
    ensures Received(script, k) == UntilStop(script)
  {
    var j := Min(k - 1, |script|);
    UntilStopSplit(cfg, script, j);
    if k - 1 < |script| {
      StopPageTail(cfg, script, k - 1);
      assert Received(script, k) == Received(script, k - 1) + script[k - 1].items;
    } else {
      assert script[|script|..] == [];
      ReceivedPastScript(script, k);
    }
  }

  /** Without a limit the loop ends only by a stopping answer, and returns everything received. */
  lemma UnlimitedStop(cfg: SoundifyConfig, limit: Option<int>, script: seq<PageOutcome>,
                      likes: seq<Like>, calls: seq<Request>)
    requires IngestPost(cfg, limit, script, likes, calls)
    requires !LimitSet(limit)
    ensures |calls| > 0 && !Continues(cfg, script, |calls| - 1)
    ensures likes == Received(script, |calls|)
    ensures forall i | 0 <= i < |calls| - 1 :: Continues(cfg, script, i)
  {
  }

  /**
   * With no limit and no failed request, the result is the concatenation, in arrival order,
   * of the pages up to and including the first one that is empty or has no next link.
   */
  lemma NoFailureNoLimit(cfg: SoundifyConfig, limit: Option<int>, script: seq<PageOutcome>,
                         likes: seq<Like>, calls: seq<Request>)
    requires IngestPost(cfg, limit, script, likes, calls)
    requires !LimitSet(limit)
    requires forall i | 0 <= i < |script| :: script[i].Page?
    ensures likes == UntilStop(script)
  {
    UnlimitedStop(cfg, limit, script, likes, calls);
    StoppedAfterPages(cfg, script, |calls|);
  }

  lemma {:induction false} AllFailedFacts(script: seq<PageOutcome>, k: nat)
    requires forall i | 0 <= i < |script| :: script[i].Failed?
    ensures Received(script, k) == [] && FailureRun(script, k) == k && TokenAt(script, k) == None
  {
    if k > 0 {
      AllFailedFacts(script, k - 1);
      assert Answer(script, k - 1).Failed?;
    }
  }

  /**
   * A gateway that always fails is called exactly `max(1, max_retries)` times, always with
   * no token, and the result is empty (a negative limit stops before any call).
   */
  lemma AlwaysFailing(cfg: SoundifyConfig, limit: Option<int>, script: seq<PageOutcome>,
                      likes: seq<Like>, calls: seq<Request>)
    requires IngestPost(cfg, limit, script, likes, calls)
    requires forall i | 0 <= i < |script| :: script[i].Failed?
    requires !LimitSet(limit) || limit.value > 0
    ensures likes == []
    ensures |calls| == Max(1, cfg.maxRetries)
    ensures forall i | 0 <= i < |calls| :: calls[i].token == None
  {
    var k := |calls|;
    AllFailedFacts(script, k);
    assert k > 0 && !Continues(cfg, script, k - 1);
    assert Answer(script, k - 1).Failed?;
    if k >= 2 {
      assert Continues(cfg, script, k - 2);
      assert Answer(script, k - 2).Failed?;
      AllFailedFacts(script, k - 1);
    }
    forall i | 0 <= i < k ensures calls[i].token == None {
      AllFailedFacts(script, i);
    }
  }

  /**
   * The failure counter stays below the retry budget while the loop runs, and a run that
   * ends on a failure ends exactly when the counter reaches `max(1, max_retries)`, with
   * everything received so far as its result.
   */
  lemma RetriesExhausted(cfg: SoundifyConfig, limit: Option<int>, script: seq<PageOutcome>,
                         likes: seq<Like>, calls: seq<Request>)
    requires IngestPost(cfg, limit, script, likes, calls)
    ensures forall i | 0 <= i < |calls| :: FailureRun(script, i) < Max(1, cfg.maxRetries)
    ensures |calls| > 0 && Answer(script, |calls| - 1).Failed? ==>
              FailureRun(script, |calls|) == Max(1, cfg.maxRetries) && likes == Received(script, |calls|)
  {
    var k := |calls|;
    forall i | 0 <= i < k ensures FailureRun(script, i) < Max(1, cfg.maxRetries) {
      if i > 0 {
        assert Continues(cfg, script, i - 1);
      }
    }
    if k > 0 && Answer(script, k - 1).Failed? {
      assert Received(script, k) == Received(script, k - 1);
      assert !LimitReached(limit, |Received(script, k - 1)|);
      assert !Continues(cfg, script, k - 1);
    }
  }

  /**
   * The limit is overshot only by the last page, one that had no next link: truncation
   * happens only at the head of the loop.
   */
  lemma LimitOvershoot(cfg: SoundifyConfig, limit: Option<int>, script: seq<PageOutcome>,
                       likes: seq<Like>, calls: seq<Request>)
    requires IngestPost(cfg, limit, script, likes, calls)
    requires LimitSet(limit) && limit.value > 0
    requires |likes| > limit.value
    ensures |calls| > 0 && likes == Received(script, |calls|)
    ensures |Received(script, |calls| - 1)| < limit.value
    ensures Answer(script, |calls| - 1).Page?
    ensures Answer(script, |calls| - 1).items != [] && !Truthy(Answer(script, |calls| - 1).next)
  {
    var k := |calls|;
    assert k > 0 && !Continues(cfg, script, k - 1);
    assert !LimitReached(limit, |Received(script, k - 1)|);
  }

  /**
   * What each call sends: a call without a (truthy) token requests the first page with its
   * size as `limit`; a call with a token requests the next link with the defaults added,
   * so its size is never sent. Every call after a page carries a token.
   */
  lemma SizeSentOnlyWithoutToken(cfg: SoundifyConfig, limit: Option<int>, script: seq<PageOutcome>,
                                 likes: seq<Like>, calls: seq<Request>, c: Client, parse: string -> ParsedUrl)
    requires IngestPost(cfg, limit, script, likes, calls)
    ensures forall i | 0 <= i < |calls| && !Truthy(calls[i].token) ::
              LikesRequestFor(c, calls[i].token, calls[i].size, parse) == FirstPage(TrackLikesUrl(c), FirstPageParams(c, calls[i].size))
    ensures forall i, size | 0 <= i < |calls| && Truthy(calls[i].token) ::
              LikesRequestFor(c, calls[i].token, size, parse) == NextPage(AddedDefaults(c, parse(calls[i].token.value)))
    ensures forall i | 0 < i < |calls| && Answer(script, i - 1).Page? :: Truthy(calls[i].token)
  {
    forall i | 0 < i < |calls| && Answer(script, i - 1).Page?
      ensures Truthy(calls[i].token)
    {
      assert Continues(cfg, script, i - 1);
      assert calls[i].token == TokenAt(script, i) == Answer(script, i - 1).next;
    }
  }

  /**
   * When every page holds no more likes than the size its call passed to `get_likes`, the
   * result holds at most `limit` likes. Only a first-page request sends that size
   * (`SizeSentOnlyWithoutToken`); later pages are as long as the server's next link says.
   */
  lemma LimitRespected(cfg: SoundifyConfig, limit: Option<int>, script: seq<PageOutcome>,
                       likes: seq<Like>, calls: seq<Request>)
    requires IngestPost(cfg, limit, script, likes, calls)
    requires LimitSet(limit) && limit.value > 0
    requires forall i | 0 <= i < |calls| :: |ItemsOf(Answer(script, i))| <= calls[i].size
    ensures |likes| <= limit.value
  {
    var k := |calls|;
    if k > 0 && !Continues(cfg, script, k - 1) {
      assert |ItemsOf(Answer(script, k - 1))| <= calls[k - 1].size;
      assert Received(script, k) == Received(script, k - 1) + ItemsOf(Answer(script, k - 1));
    }
  }

  /**
   * When the head-of-loop test ends the loop, the result is exactly the first `limit` likes
   * received.
   */
  lemma HeadTruncation(cfg: SoundifyConfig, limit: Option<int>, script: seq<PageOutcome>,
                       likes: seq<Like>, calls: seq<Request>)
    requires IngestPost(cfg, limit, script, likes, calls)
    requires LimitSet(limit) && limit.value > 0
    requires |calls| > 0 && Continues(cfg, script, |calls| - 1)
    ensures |likes| == limit.value
    ensures likes == Received(script, |calls|)[..limit.value]
  {
  }

  /** A negative limit ends the loop at its first test: no call, no like. */
  lemma NegativeLimit(cfg: SoundifyConfig, limit: Option<int>, script: seq<PageOutcome>,
                      likes: seq<Like>, calls: seq<Request>)
    requires IngestPost(cfg, limit, script, likes, calls)
    requires limit.Some? && limit.value < 0
    ensures likes == [] && calls == []
  {
    if |calls| > 0 {
      assert !LimitReached(limit, |Received(script, 0)|);
    }
  }

  /** `limit=0` behaves exactly like no limit. */
  lemma ZeroLimitIsNoLimit(cfg: SoundifyConfig, script: seq<PageOutcome>, likes: seq<Like>, calls: seq<Request>)
    ensures IngestPost(cfg, Some(0), script, likes, calls) <==> IngestPost(cfg, None, script, likes, calls)
  {
  }
}
