# Game statistics backend: the aggregation core

A model of the logic inside the single Express file of this backend. `GET /api/game/:name`
fans out to four sources: Reddit search, a YouTube-shaped video search, a Twitch-shaped stream list and a ratings table.
It waits for all four to settle and answers with one JSON object, `{ratings, reddit, youtube, twitch}`.
Only the Reddit adapter does real work. It filters the upstream posts, keeps the first ten and maps each one to a record.
The other three adapters return fixed placeholder data, with the query spliced into the titles.

The model is functional, like the source's expression chains:

- `Text` (`text.dfy`): ASCII lowercasing and substring containment (`toLowerCase`, `includes`).
  `ContainsIff` ties the recursive `Contains` to an independent definition: some position of `s` starts a copy of `sub`.
- `Outcomes` (`outcomes.dfy`): `Option` for an input that may be missing, and `Settled` (`Fulfilled(v) | Rejected`) for one entry of `Promise.allSettled`.
- `Reddit` (`reddit.dfy`): the filter / slice / map chain. `MatchingIndices` is an independent reference for the filter: the increasing positions of the matching posts.
  The contract of `ProcessPosts` states that the output is the first min(10, k) matching posts, mapped field by field. The lemmas add that no matching post is skipped.
- `Adapters` (`adapters.dfy`): the video, stream and ratings placeholders.
- `Aggregator` (`aggregator.dfy`): the merge of the four settled outcomes with per-source defaults, and the handler with its 500 path.

I/O enters as parameters:

- the parsed Reddit payload is `Option<seq<Post>>`, where `None` is a failed request;
- the YouTube page body is `Option<string>`;
- the decoded path parameter is `Option<string>`, where `None` is a `decodeURIComponent` that threw.

Facts about the code that the model keeps as they are:

- each video record carries its identifier in a field named `videoId`;
- the Reddit URL is `"https://reddit.com"` followed by the upstream permalink exactly as given. The code does not check that the permalink starts with a single `/`, so the URL is well-formed only when the upstream permalink is;
- `fetchRatings` cannot fail, so its `{}` default is unreachable inside the adapter;
- every adapter catches its own errors, so in the handler all four outcomes are fulfilled (`HandleGame`), and the `Rejected` defaults of `Merge` are never used.

## Model

| member | source | states |
|---|---|---|
| Text.LowerChar | api.js:54-56 | an upper-case ASCII letter becomes its lower-case letter; every other character is left unchanged; the result is never an upper-case ASCII letter |
| Text.Lower | api.js:54-56 | lowercasing keeps the length, lowers each character on its own, and leaves no upper-case ASCII letter |
| Text.Contains | api.js:54-56 | a contained string is no longer than its container; the empty string is contained in every string |
| Text.ContainsIff | api.js:54-56 | `includes` holds exactly when some position of the string starts a copy of the searched string (both directions) |
| Text.ContainsLower | api.js:56 | verbatim containment implies containment after lowercasing both sides |
| Text.ContainsInfix | api.js:93-105 | a string spliced between two others is contained in the result |
| Outcomes.ValueOr | api.js:27-30 | a fulfilled outcome gives its value, a rejected one the given default |
| Reddit.KeepsOccurrence | api.js:54-56 | the subreddit test (`IsGamingSubreddit`) holds exactly when "gaming" or "games" occurs at some position of the lowercased subreddit; the filter callback (`Keeps`) holds exactly when that test holds or the lowercased query occurs at some position of the lowercased title |
| Reddit.KeepMatching | api.js:53-56 | the filter never grows the list; every kept post comes from the input and passes the OR test |
| Reddit.MatchingIndices | api.js:54-56 | strictly increasing in-range positions, and a position is listed exactly when its post passes the test |
| Reddit.Take | api.js:57 | `slice(0, n)` gives a prefix of length min(n, length) |
| Reddit.ToRecord | api.js:58-64 | title, upvotes (`ups`), comments (`num_comments`) and subreddit are copied; the URL is the Reddit host followed by the permalink, which can be read back from it |
| Reddit.RecordMatchesIffKeeps | api.js:54-64 | a record passes the filter test, read from its copied subreddit and title, exactly when the post it was built from does |
| Reddit.ToRecords | api.js:58-64 | `.map` gives one record per post, record i built from post i |
| Reddit.ProcessPosts | api.js:53-64 | at most 10 records, exactly min(10, k) for k matching posts; record j comes from the j-th matching post, with title, upvotes (`ups`), comments (`num_comments`) and subreddit copied and URL = host + permalink; each record passes the OR test on its copied subreddit and title |
| Reddit.FetchReddit | api.js:41-69 | a failed request gives `[]`; a successful one gives the processed payload, never more than 10 records |
| Reddit.KeepMatchingSelects | api.js:53-56 | the filter output is the posts at the matching positions, in upstream order |
| Reddit.NoEarlierMatchSkipped | api.js:54-57 | every matching post before the source of a record is the source of an earlier record |
| Reddit.ShortResultUsesEveryMatch | api.js:54-57 | with fewer than 10 records every matching post is the source of one of them |
| Reddit.EmptyQueryKeepsAll | api.js:56 | with the empty query the filter keeps every post |
| Reddit.EmptyQueryFirstTen | api.js:56-64 | with the empty query the result is the first 10 posts mapped |
| Reddit.SinglePost | api.js:53-64 | a one-post payload gives that post's record exactly when the post passes the test |
| Reddit.TitleContainingQueryKept | api.js:56 | a title containing the query verbatim passes, whatever the subreddit |
| Reddit.GamingSubredditKept | api.js:54 | a subreddit containing "gaming" in any capitalisation passes, whatever the title |
| Reddit.UnrelatedPostDropped | api.js:54-56 | a post that fails all three tests never appears in the result |
| Reddit.HaloExample | api.js:53-64 | query "Halo" and one r/halo post titled "Halo Infinite review" give its record with URL `https://reddit.com/r/halo/1` |
| Adapters.YouTubeVideos | api.js:90-109 | three records with distinct video ids; the titles are query + " Full Review", " Gameplay" and " Tips & Tricks", each containing the query |
| Adapters.YouTubeOnlyTitlesVary | api.js:90-109 | video id, views and rating of every video record are the same for all queries |
| Adapters.FetchYouTube | api.js:72-114 | a failed request gives `[]`; a successful one gives the three placeholder records, whatever the page holds |
| Adapters.TwitchStreams | api.js:117-144 | three records; the titles are "Playing " + query, query + " Chill Stream" and query + " Tournament", each containing the query; each URL is the channel host + broadcaster |
| Adapters.TwitchOnlyTitlesVary | api.js:120-139 | broadcaster, viewers and URL of every stream record are the same for all queries |
| Adapters.TwitchStreamsInjective | api.js:123 | two queries with the same stream list are equal |
| Adapters.FetchRatings | api.js:147-160 | exactly the four providers Metacritic, IMDb, Steam and OpenCritic |
| Adapters.RatingsIgnoreQuery | api.js:150-155 | the ratings are the same for every query |
| Aggregator.Merge | api.js:26-31 | each field is its outcome's value when fulfilled, and `{}` (ratings) or `[]` (lists) when rejected |
| Aggregator.MergeFieldsIndependent | api.js:26-31 | each field depends on its own outcome only, so a rejection in one position changes no other field |
| Aggregator.MergeAllRejected | api.js:26-31 | with every outcome rejected the response still has all four fields, each empty |
| Aggregator.HandleGame | api.js:12-38 | a failed decode gives the 500 answer with its fixed message; otherwise 200 with exactly the four adapters' results (4 ratings, at most 10 posts, 3 or 0 videos, 3 streams) |
| Aggregator.RedditFailureIsolated | api.js:18-31 | a failed Reddit request empties only the `reddit` field |
| Aggregator.YouTubeFailureIsolated | api.js:18-31 | a failed video search empties only the `youtube` field |

## Left out

- Text.Lower: only ASCII letters are lowered. JavaScript's `toLowerCase` also lowers non-ASCII letters and can change a string's length, and neither is modelled.
- Reddit.FetchReddit: the `None` payload covers a network error, a timeout and a malformed response alike. The model does not capture a post with a missing field. A missing `subreddit`, or a missing `title` on a post the subreddit test rejects, makes the filter throw, so the adapter returns `[]`. A missing `title`, `ups` or `num_comments` on a kept post gives a record without that field. A missing `permalink` gives the URL `"https://reddit.comundefined"`.
- Adapters.FetchRatings: `ratings` is a map, so the key order of the JSON object (Metacritic, IMDb, Steam, OpenCritic) is not modelled.
- The Express app, CORS and JSON middleware, route registration, the health endpoint `GET /` and the port taken from the environment: server plumbing, not logic.
- The outbound `axios.get` calls, their URLs, headers and 5-second timeouts: network I/O. Their results are parameters of the model.
- The concurrency of `Promise.allSettled`: the model only sees the four settled outcomes, in their fixed positional order. The rejection reason is never read by the source, so it is not modelled.
- The two regex scans of the YouTube page: their results are discarded by the source.
- `decodeURIComponent` and `encodeURIComponent` (percent-encoding, section 2.1 of RFC 3986): library calls. Only the decode's failure is modelled, as `None`.
- Console logging and the JSON serialisation of the response.
