/**
 * The three placeholder adapters: `fetchYouTube` (its returned literal),
 * `fetchTwitch` and `fetchRatings`. Each answers with fixed data, with the
 * query spliced into the titles where the source does so.
 */
module Adapters {
  import opened Text
  import opened Outcomes

  /** One entry of the video list. */
  datatype Video = Video(videoId: string, title: string, views: string, rating: string)

  /** One entry of the live-stream list. */
  datatype Stream = Stream(broadcaster: string, title: string, viewers: string, url: string)

  /** Provider name to a human-readable score. */
  type Ratings = map<string, string>

  /** The channel URL prefix of every stream record. */
  const TwitchHost: string := "https://twitch.tv/"

  /** The three video records that `fetchYouTube` returns once its request has succeeded. */
  function YouTubeVideos(query: string): (videos: seq<Video>)
    ensures |videos| == 3
    ensures forall v :: v in videos ==> Contains(v.title, query)
    ensures videos[0].title == query + " Full Review"
    ensures videos[1].title == query + " Gameplay"
    ensures videos[2].title == query + " Tips & Tricks"
    ensures forall i, j :: 0 <= i < j < |videos| ==> videos[i].videoId != videos[j].videoId
  {
    ContainsInfix([], query, " Full Review");
    ContainsInfix([], query, " Gameplay");
    ContainsInfix([], query, " Tips & Tricks");
    assert [] + query == query;
    [ Video("dQw4w9WgXcQ", query + " Full Review", "1.2M", "4.8/5"),
      Video("jNQXAC9IVRw", query + " Gameplay", "850K", "4.7/5"),
      Video("9bZkp7q19f0", query + " Tips & Tricks", "520K", "4.9/5") ]
  }

  /** Only the titles of the video records depend on the query. */
  lemma {:induction false} YouTubeOnlyTitlesVary(q1: string, q2: string)
    ensures forall i :: 0 <= i < 3 ==>
              var a, b := YouTubeVideos(q1)[i], YouTubeVideos(q2)[i];
              a.videoId == b.videoId && a.views == b.views && a.rating == b.rating
  {
  }

  /**
   * `fetchYouTube`: `page` is the body of the search request, `None` when the
   * request failed or timed out. The page is scanned and the matches thrown
   * away, so the answer is the placeholder list whatever the page holds.
   */
  function FetchYouTube(query: string, page: Option<string>): (videos: seq<Video>)
    ensures page.None? ==> videos == []
    ensures page.Some? ==> |videos| == 3 && videos == YouTubeVideos(query)
  {
    match page
    case None => []
    case Some(_) => YouTubeVideos(query)
  }

  /** `fetchTwitch`: three stream records, each linking to its broadcaster's channel. */
  function TwitchStreams(query: string): (streams: seq<Stream>)
    ensures |streams| == 3
    ensures forall s :: s in streams ==> Contains(s.title, query)
    ensures forall s :: s in streams ==> s.url == TwitchHost + s.broadcaster
    ensures streams[0].title == "Playing " + query
    ensures streams[1].title == query + " Chill Stream"
    ensures streams[2].title == query + " Tournament"
  {
    ContainsInfix("Playing ", query, []);
    ContainsInfix([], query, " Chill Stream");
    ContainsInfix([], query, " Tournament");
    assert [] + query == query;
    assert "Playing " + query + [] == "Playing " + query;
    assert TwitchHost + "pro_gamer_1" == "https://twitch.tv/pro_gamer_1";
    assert TwitchHost + "streamer_pro" == "https://twitch.tv/streamer_pro";
    assert TwitchHost + "gaming_channel" == "https://twitch.tv/gaming_channel";
    [ Stream("pro_gamer_1", "Playing " + query, "15,000", "https://twitch.tv/pro_gamer_1"),
      Stream("streamer_pro", query + " Chill Stream", "8,500", "https://twitch.tv/streamer_pro"),
      Stream("gaming_channel", query + " Tournament", "22,000", "https://twitch.tv/gaming_channel") ]
  }

  /** Only the titles of the stream records depend on the query. */
  lemma {:induction false} TwitchOnlyTitlesVary(q1: string, q2: string)
    ensures forall i :: 0 <= i < 3 ==>
              var a, b := TwitchStreams(q1)[i], TwitchStreams(q2)[i];
              a.broadcaster == b.broadcaster && a.viewers == b.viewers && a.url == b.url
  {
  }

  /** Different queries give different stream lists: the query can be read back from the first title. */
  lemma {:induction false} TwitchStreamsInjective(q1: string, q2: string)
    requires TwitchStreams(q1) == TwitchStreams(q2)
    ensures q1 == q2
  {
    var prefix := "Playing ";
    assert (prefix + q1)[|prefix|..] == q1;
    assert (prefix + q2)[|prefix|..] == q2;
  }

  /** `fetchRatings`: four fixed provider scores, whatever the query. */
  function FetchRatings(query: string): (ratings: Ratings)
    ensures ratings.Keys == {"Metacritic", "IMDb", "Steam", "OpenCritic"}
    ensures |ratings| == 4
  {
    map["Metacritic" := "85/100", "IMDb" := "8.2/10", "Steam" := "4.5/5", "OpenCritic" := "82"]
  }

  /** The ratings do not depend on the query. */
  lemma RatingsIgnoreQuery(q1: string, q2: string)
    ensures FetchRatings(q1) == FetchRatings(q2)
  {
  }
}
