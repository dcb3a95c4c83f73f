/**
 * The post-processing half of `fetchReddit`: the parsed search payload
 * (`response.data.data.children`, each child's `data` object) is filtered,
 * cut to the first ten survivors and mapped to result records.
 */
module Reddit {
  import opened Text
  import opened Outcomes

  /** The fields of one upstream post (`child.data`) that the adapter reads. */
  datatype Post = Post(subreddit: string, title: string, ups: int, numComments: int, permalink: string)

  /** One record of the adapter's result. */
  datatype PostRecord = PostRecord(title: string, url: string, upvotes: int, comments: int, subreddit: string)

  /** The host prefixed to every relative permalink. */
  const RedditHost: string := "https://reddit.com"

  /** The adapter keeps at most this many posts (`slice(0, 10)`). */
  const MaxRecords: nat := 10

  /** The subreddit test: its lowercased name contains "gaming" or "games". */
  predicate IsGamingSubreddit(subreddit: string) {
    Contains(Lower(subreddit), "gaming") || Contains(Lower(subreddit), "games")
  }

  /** The filter callback: a gaming subreddit, or a title containing the query, both ignoring case. */
  predicate Keeps(query: string, post: Post) {
    IsGamingSubreddit(post.subreddit) || Contains(Lower(post.title), Lower(query))
  }

  /**
   * The filter test in terms of occurrences: "gaming" or "games" occurs in the
   * lowercased subreddit, or the lowercased query occurs in the lowercased title.
   */
  lemma KeepsOccurrence(query: string, post: Post)
    ensures IsGamingSubreddit(post.subreddit) <==>
              (exists i :: OccursAt(Lower(post.subreddit), "gaming", i)) ||
              (exists i :: OccursAt(Lower(post.subreddit), "games", i))
    ensures Keeps(query, post) <==>
              IsGamingSubreddit(post.subreddit) ||
              exists i :: OccursAt(Lower(post.title), Lower(query), i)
  {
    ContainsIff(Lower(post.subreddit), "gaming");
    ContainsIff(Lower(post.subreddit), "games");
    ContainsIff(Lower(post.title), Lower(query));
  }

  /**
   * `Keeps` read back through `ToRecord`: the same test on the subreddit and
   * title a record copies from its post.
   */
  predicate RecordMatches(query: string, rec: PostRecord) {
    IsGamingSubreddit(rec.subreddit) || Contains(Lower(rec.title), Lower(query))
  }

  /** `posts.filter(post => Keeps(query, post))`. */
  function KeepMatching(query: string, posts: seq<Post>): (kept: seq<Post>)
    ensures |kept| <= |posts|
    ensures forall p :: p in kept ==> p in posts && Keeps(query, p)
  {
    if posts == [] then []
    else
      var init := KeepMatching(query, posts[..|posts| - 1]);
      var last := posts[|posts| - 1];
      if Keeps(query, last) then init + [last] else init
  }

  /** The positions, in increasing order, of the posts the filter keeps. */
  function MatchingIndices(query: string, posts: seq<Post>): (idx: seq<nat>)
    ensures forall j :: 0 <= j < |idx| ==> idx[j] < |posts|
    ensures forall j, k :: 0 <= j < k < |idx| ==> idx[j] < idx[k]
    ensures forall i :: 0 <= i < |posts| ==> (i in idx <==> Keeps(query, posts[i]))
  {
    if posts == [] then []
    else
      var n := |posts| - 1;
      var init := MatchingIndices(query, posts[..n]);
      assert forall i :: 0 <= i < n ==> posts[..n][i] == posts[i];
      if Keeps(query, posts[n]) then init + [n] else init
  }

  /** `array.slice(0, n)`: the first `n` elements, or all of them when there are fewer. */
  function Take<T>(s: seq<T>, n: nat): (t: seq<T>)
    ensures |t| == if |s| <= n then |s| else n
    ensures forall i :: 0 <= i < |t| ==> t[i] == s[i]
  {
    if |s| <= n then s else s[..n]
  }

  /**
   * The `map` callback: copy four fields and make the permalink absolute. The
   * permalink can be read back from the URL.
   */
  function ToRecord(post: Post): (r: PostRecord)
    ensures r.title == post.title && r.upvotes == post.ups &&
            r.comments == post.numComments && r.subreddit == post.subreddit
    ensures RedditHost <= r.url && r.url[|RedditHost|..] == post.permalink
  {
    PostRecord(post.title, RedditHost + post.permalink, post.ups, post.numComments, post.subreddit)
  }

  /** A record passes the filter test exactly when the post it was built from does. */
  lemma RecordMatchesIffKeeps(query: string, post: Post)
    ensures RecordMatches(query, ToRecord(post)) <==> Keeps(query, post)
  {
  }

  /** `.map(ToRecord)`: one record per post, in the same order. */
  function ToRecords(posts: seq<Post>): (records: seq<PostRecord>)
    ensures |records| == |posts|
    ensures forall i :: 0 <= i < |posts| ==> records[i] == ToRecord(posts[i])
  {
    seq(|posts|, i requires 0 <= i < |posts| => ToRecord(posts[i]))
  }

  /**
   * The filter / slice / map chain of `fetchReddit` on an already parsed
   * payload: the first min(10, k) of the k matching posts, in upstream order.
   * Record j comes from the j-th matching post: title, counters and subreddit
   * are copied and the URL is the host followed by the permalink.
   */
  function ProcessPosts(query: string, posts: seq<Post>): (records: seq<PostRecord>)
    ensures |records| <= MaxRecords
    ensures |records| == if |MatchingIndices(query, posts)| <= MaxRecords
                         then |MatchingIndices(query, posts)| else MaxRecords
    ensures forall r :: r in records ==> RecordMatches(query, r)
    ensures forall r :: r in records ==> RedditHost <= r.url
    ensures forall j :: 0 <= j < |records| ==>
              var p := posts[MatchingIndices(query, posts)[j]];
              records[j].title == p.title && records[j].url == RedditHost + p.permalink &&
              records[j].upvotes == p.ups && records[j].comments == p.numComments &&
              records[j].subreddit == p.subreddit
  {
    KeepMatchingSelects(query, posts);
    var kept := Take(KeepMatching(query, posts), MaxRecords);
    assert forall i :: 0 <= i < |kept| ==> kept[i] in KeepMatching(query, posts);
    ToRecords(kept)
  }

  /**
   * `fetchReddit`: `None` stands for every way the request can fail (network
   * error, timeout, a payload that is not the expected shape); the adapter
   * then answers with the empty list.
   */
  function FetchReddit(query: string, payload: Option<seq<Post>>): (records: seq<PostRecord>)
    ensures payload.None? ==> records == []
    ensures |records| <= MaxRecords
    ensures payload.Some? ==> records == ProcessPosts(query, payload.value)
  {
    match payload
    case None => []
    case Some(posts) => ProcessPosts(query, posts)
  }

  /** The filter keeps exactly the posts at the matching positions, in upstream order. */
  lemma {:induction false} KeepMatchingSelects(query: string, posts: seq<Post>)
    ensures |KeepMatching(query, posts)| == |MatchingIndices(query, posts)|
    ensures forall j :: 0 <= j < |KeepMatching(query, posts)| ==>
              KeepMatching(query, posts)[j] == posts[MatchingIndices(query, posts)[j]]
  {
    if posts != [] {
      var n := |posts| - 1;
      KeepMatchingSelects(query, posts[..n]);
    }
  }

  /**
   * No matching post is skipped: every matching post that comes before the
   * source of some result record is itself the source of an earlier record.
   */
  lemma {:induction false} NoEarlierMatchSkipped(query: string, posts: seq<Post>, i: int, j: int)
    requires 0 <= j < |ProcessPosts(query, posts)|
    requires 0 <= i < MatchingIndices(query, posts)[j]
    requires Keeps(query, posts[i])
    ensures exists k :: 0 <= k < j && MatchingIndices(query, posts)[k] == i
  {
    var idx := MatchingIndices(query, posts);
    var k :| 0 <= k < |idx| && idx[k] == i;
    assert k < j;
  }

  /** When fewer than ten records come out, every matching post is the source of one of them. */
  lemma {:induction false} ShortResultUsesEveryMatch(query: string, posts: seq<Post>, i: int)
    requires |ProcessPosts(query, posts)| < MaxRecords
    requires 0 <= i < |posts| && Keeps(query, posts[i])
    ensures exists k :: 0 <= k < |ProcessPosts(query, posts)| && MatchingIndices(query, posts)[k] == i
  {
    var idx := MatchingIndices(query, posts);
    var k :| 0 <= k < |idx| && idx[k] == i;
    assert k < |ProcessPosts(query, posts)|;
  }

  /** With the empty query every title contains the query, so the filter keeps every post. */
  lemma {:induction false} EmptyQueryKeepsAll(posts: seq<Post>)
    ensures KeepMatching([], posts) == posts
  {
    if posts != [] {
      var n := |posts| - 1;
      EmptyQueryKeepsAll(posts[..n]);
      assert Lower([]) == [];
      assert Keeps([], posts[n]);
      assert posts[..n] + [posts[n]] == posts;
    }
  }

  /** With the empty query the result is simply the first ten posts, mapped. */
  lemma {:induction false} EmptyQueryFirstTen(posts: seq<Post>)
    ensures ProcessPosts([], posts) == ToRecords(Take(posts, MaxRecords))
  {
    EmptyQueryKeepsAll(posts);
  }

  /** A payload of one post yields that post's record exactly when the post passes the filter. */
  lemma {:induction false} SinglePost(query: string, post: Post)
    ensures ProcessPosts(query, [post]) == if Keeps(query, post) then [ToRecord(post)] else []
  {
    assert [post][..0] == [];
  }

  /** A post whose title contains the query verbatim passes, whatever its subreddit. */
  lemma {:induction false} TitleContainingQueryKept(query: string, post: Post)
    requires Contains(post.title, query)
    ensures Keeps(query, post)
  {
    ContainsLower(post.title, query);
  }

  /**
   * A subreddit containing "gaming" in any capitalisation (say "PCGaming")
   * passes, whatever the title.
   */
  lemma {:induction false} GamingSubredditKept(query: string, post: Post, word: string)
    requires Lower(word) == "gaming"
    requires Contains(post.subreddit, word)
    ensures Keeps(query, post)
  {
    ContainsLower(post.subreddit, word);
  }

  /** A post with neither a gaming subreddit nor the query in its title produces no record. */
  lemma {:induction false} UnrelatedPostDropped(query: string, posts: seq<Post>, post: Post)
    requires !Keeps(query, post)
    ensures ToRecord(post) !in ProcessPosts(query, posts)
  {
  }

  /** The worked example: query "Halo" and one post from r/halo whose title names the game. */
  lemma HaloExample()
    ensures ProcessPosts("Halo", [Post("halo", "Halo Infinite review", 500, 20, "/r/halo/1")])
         == [PostRecord("Halo Infinite review", "https://reddit.com/r/halo/1", 500, 20, "halo")]
  {
    var post := Post("halo", "Halo Infinite review", 500, 20, "/r/halo/1");
    assert OccursAt(post.title, "Halo", 0) by {
      assert post.title[..4] == "Halo";
    }
    ContainsAt(post.title, "Halo", 0);
    TitleContainingQueryKept("Halo", post);
    SinglePost("Halo", post);
    assert ToRecord(post) == PostRecord("Halo Infinite review", "https://reddit.com/r/halo/1", 500, 20, "halo") by {
      assert RedditHost + post.permalink == "https://reddit.com/r/halo/1";
    }
  }
}
