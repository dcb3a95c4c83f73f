/**
 * The `/api/game/:name` handler: run the four adapters, wait for all of them
 * to settle, and build a response with all four keys, putting a source's
 * empty default in place of any outcome that was rejected.
 */
module Aggregator {
  import opened Outcomes
  import opened Reddit
  import opened Adapters

  /** The JSON body `{ratings, reddit, youtube, twitch}`; every key is always present. */
  datatype GameResponse = GameResponse(ratings: Ratings, reddit: seq<PostRecord>, youtube: seq<Video>, twitch: seq<Stream>)

  /** Status 200 with the aggregate, or status 500 with `{error}`. */
  datatype HttpResponse = Ok(body: GameResponse) | ServerError(error: string)

  /** The fixed message of the 500 answer. */
  const ServerErrorMessage: string := "Sunucu hatası"

  /** The response with every source degraded to its default. */
  const EmptyResponse: GameResponse := GameResponse(map[], [], [], [])

  /**
   * The response object built from the four settled outcomes, in the
   * positional order of the `Promise.allSettled` array: a fulfilled outcome
   * gives its value, a rejected one `{}` for ratings and `[]` for each list.
   */
  function Merge(ratings: Settled<Ratings>, reddit: Settled<seq<PostRecord>>,
                 youtube: Settled<seq<Video>>, twitch: Settled<seq<Stream>>): (response: GameResponse)
    ensures ratings.Fulfilled? ==> response.ratings == ratings.value
    ensures ratings.Rejected? ==> response.ratings == map[]
    ensures reddit.Fulfilled? ==> response.reddit == reddit.value
    ensures reddit.Rejected? ==> response.reddit == []
    ensures youtube.Fulfilled? ==> response.youtube == youtube.value
    ensures youtube.Rejected? ==> response.youtube == []
    ensures twitch.Fulfilled? ==> response.twitch == twitch.value
    ensures twitch.Rejected? ==> response.twitch == []
  {
    GameResponse(ValueOr(ratings, map[]), ValueOr(reddit, []), ValueOr(youtube, []), ValueOr(twitch, []))
  }

  /** Each field of the merged response depends on its own outcome only. */
  lemma MergeFieldsIndependent(r1: Settled<Ratings>, d1: Settled<seq<PostRecord>>,
                               y1: Settled<seq<Video>>, t1: Settled<seq<Stream>>,
                               r2: Settled<Ratings>, d2: Settled<seq<PostRecord>>,
                               y2: Settled<seq<Video>>, t2: Settled<seq<Stream>>)
    ensures r1 == r2 ==> Merge(r1, d1, y1, t1).ratings == Merge(r2, d2, y2, t2).ratings
    ensures d1 == d2 ==> Merge(r1, d1, y1, t1).reddit == Merge(r2, d2, y2, t2).reddit
    ensures y1 == y2 ==> Merge(r1, d1, y1, t1).youtube == Merge(r2, d2, y2, t2).youtube
    ensures t1 == t2 ==> Merge(r1, d1, y1, t1).twitch == Merge(r2, d2, y2, t2).twitch
  {
  }

  /** When every outcome is rejected the answer is still complete, with every field empty. */
  lemma MergeAllRejected()
    ensures Merge(Rejected, Rejected, Rejected, Rejected) == EmptyResponse
  {
  }

  /**
   * The handler. `name` is the decoded path parameter, `None` when
   * `decodeURIComponent` throws, which is the one failure that escapes to the
   * 500 answer. `redditPayload` and `youtubePage` are what the two outbound
   * requests brought back, `None` when one failed. Each adapter catches its
   * own errors, so all four outcomes are fulfilled and the response carries
   * exactly what the adapters returned.
   */
  function HandleGame(name: Option<string>, redditPayload: Option<seq<Post>>,
                      youtubePage: Option<string>): (response: HttpResponse)
    ensures name.None? ==> response == ServerError(ServerErrorMessage)
    ensures name.Some? ==> response.Ok?
    ensures response.Ok? ==>
              response.body.ratings == FetchRatings(name.value) &&
              response.body.reddit == FetchReddit(name.value, redditPayload) &&
              response.body.youtube == FetchYouTube(name.value, youtubePage) &&
              response.body.twitch == TwitchStreams(name.value)
    ensures response.Ok? ==>
              |response.body.ratings| == 4 && |response.body.reddit| <= MaxRecords &&
              |response.body.youtube| == (if youtubePage.Some? then 3 else 0) &&
              |response.body.twitch| == 3
  {
    match name
    case None => ServerError(ServerErrorMessage)
    case Some(q) =>
      Ok(Merge(Fulfilled(FetchRatings(q)), Fulfilled(FetchReddit(q, redditPayload)),
               Fulfilled(FetchYouTube(q, youtubePage)), Fulfilled(TwitchStreams(q))))
  }

  /** A failed Reddit request empties the `reddit` field and leaves the other three as they were. */
  lemma RedditFailureIsolated(name: string, posts: seq<Post>, youtubePage: Option<string>)
    ensures HandleGame(Some(name), None, youtubePage)
         == Ok(HandleGame(Some(name), Some(posts), youtubePage).body.(reddit := []))
  {
  }

  /** A failed video search empties the `youtube` field and leaves the other three as they were. */
  lemma YouTubeFailureIsolated(name: string, redditPayload: Option<seq<Post>>, page: string)
    ensures HandleGame(Some(name), redditPayload, None)
         == Ok(HandleGame(Some(name), redditPayload, Some(page)).body.(youtube := []))
  {
  }
}
