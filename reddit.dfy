/** The Reddit tool: hot posts of a subreddit with their leading comments,
    shaped into plain records. The Reddit API is a parameter that gives the
    listing of a subreddit, or the exception it raised. */
module RedditServer {
  import opened Wrappers
  import opened Builtins

  /** A comment as the API yields it; an absent author is a deleted account. */
  datatype RawComment = RawComment(author: Option<string>, body: Option<string>, score: int)

  /** A submission as the API yields it. `createdUtc` is kept as the text of the
      float the tool copies. */
  datatype RawPost = RawPost(
    id: string,
    title: string,
    author: Option<string>,
    permalink: string,
    score: int,
    numComments: int,
    createdUtc: string,
    comments: seq<RawComment>)

  datatype CommentInfo = CommentInfo(author: string, body: string, score: int)

  datatype PostInfo = PostInfo(
    id: string,
    title: string,
    author: string,
    url: string,
    score: int,
    numComments: int,
    createdUtc: string,
    comments: seq<CommentInfo>)

  /** `{"posts": [...]}` or `{"error": str(e), "posts": []}`. */
  datatype FetchResult = Posts(posts: seq<PostInfo>) | Failed(error: string)

  /** `reddit.subreddit(name).hot(limit=n)`, iterated. */
  type HotListing = (string, int) -> Result<seq<RawPost>, string>

  const DeletedAuthor := "deleted"
  const RedditOrigin := "https://reddit.com"

  /** `str(author) if author else "deleted"`. */
  function AuthorName(author: Option<string>): (r: string)
    ensures author.Some? ==> r == author.value
    ensures author.None? ==> r == "deleted"
  {
    if author.Some? then author.value else DeletedAuthor
  }

  /** One comment record: an absent body becomes the empty string. */
  function CommentRecord(c: RawComment): (r: CommentInfo)
    ensures r.author == AuthorName(c.author) && r.score == c.score
    ensures r.body == if c.body.Some? then c.body.value else ""
  {
    CommentInfo(AuthorName(c.author), if c.body.Some? then c.body.value else "", c.score)
  }

  /** The comment records of `comments[:cap]`. */
  function CommentRecords(comments: seq<RawComment>, cap: int): (r: seq<CommentInfo>)
    ensures |r| == |SliceTo(comments, cap)|
    ensures forall i :: 0 <= i < |r| ==> r[i] == CommentRecord(comments[i])
  {
    var kept := SliceTo(comments, cap);
    seq(|kept|, i requires 0 <= i < |kept| => CommentRecord(kept[i]))
  }

  /** The fields of one post record, before its comments are added. */
  function PostHeader(p: RawPost): PostInfo
  {
    PostInfo(p.id, p.title, AuthorName(p.author), RedditOrigin + p.permalink,
             p.score, p.numComments, p.createdUtc, [])
  }

  /** One post record with its comments. */
  function PostRecord(p: RawPost, cap: int): PostInfo
  {
    PostHeader(p).(comments := CommentRecords(p.comments, cap))
  }

  /** One record per submission, in listing order. */
  function PostRecords(raw: seq<RawPost>, cap: int): (r: seq<PostInfo>)
    ensures |r| == |raw|
    ensures forall i :: 0 <= i < |raw| ==> r[i] == PostRecord(raw[i], cap)
  {
    seq(|raw|, i requires 0 <= i < |raw| => PostRecord(raw[i], cap))
  }

  /** The result the tool computes: both counts parsed in order, then the listing. */
  function FetchSpec(hot: HotListing, subreddit: string, limit: IntArg, commentsPerPost: IntArg): (r: FetchResult)
  {
    match ParseInt(limit)
    case Err(e) => Failed(e)
    case Ok(n) =>
      match ParseInt(commentsPerPost)
      case Err(e) => Failed(e)
      case Ok(cap) =>
        match hot(subreddit, n)
        case Err(e) => Failed(e)
        case Ok(raw) => Posts(PostRecords(raw, cap))
  }

  /** The comments of one post, `post.comments[:comments_per_post]`, appended one by one. */
  method CollectComments(p: RawPost, cap: int) returns (out: seq<CommentInfo>)
    ensures out == CommentRecords(p.comments, cap)
  {
    var kept := SliceTo(p.comments, cap);
    out := [];
    var j := 0;
    while j < |kept|
      invariant 0 <= j <= |kept|
      invariant |out| == j
      invariant forall i :: 0 <= i < j ==> out[i] == CommentRecord(kept[i])
    {
      out := out + [CommentRecord(kept[j])];
      j := j + 1;
    }
  }

  /** `fetch_reddit_posts_with_comments(subreddit="all", limit="5", comments_per_post="15")`. */
  method FetchRedditPostsWithComments(hot: HotListing, subreddit: string := "all",
                                      limit: IntArg := TextValue("5"),
                                      commentsPerPost: IntArg := TextValue("15"))
    returns (r: FetchResult)
    ensures r == FetchSpec(hot, subreddit, limit, commentsPerPost)
  {
    var n := ParseInt(limit);
    if n.Err? {
      return Failed(n.error);
    }
    var cap := ParseInt(commentsPerPost);
    if cap.Err? {
      return Failed(cap.error);
    }
    var submissions := hot(subreddit, n.value);
    if submissions.Err? {
      return Failed(submissions.error);
    }
    var postsData := CollectPosts(submissions.value, cap.value);
    r := Posts(postsData);
  }

  /** The outer loop: one record per submission, appended in listing order. */
  method CollectPosts(raw: seq<RawPost>, cap: int) returns (postsData: seq<PostInfo>)
    ensures postsData == PostRecords(raw, cap)
  {
    postsData := [];
    var k := 0;
    while k < |raw|
      invariant 0 <= k <= |raw|
      invariant |postsData| == k
      invariant forall i :: 0 <= i < k ==> postsData[i] == PostRecord(raw[i], cap)
    {
      var post := raw[k];
      var postInfo := PostHeader(post);
      var comments := CollectComments(post, cap);
      postInfo := postInfo.(comments := comments);
      postsData := postsData + [postInfo];
      k := k + 1;
    }
  }

  /** On success there is one record per submission, in listing order, each
      with the author fallback, the absolute url and the identity fields. */
  lemma PostsFollowListing(hot: HotListing, subreddit: string, n: int, cap: int, raw: seq<RawPost>)
    requires hot(subreddit, n) == Ok(raw)
    ensures var r := FetchSpec(hot, subreddit, IntValue(n), IntValue(cap));
            && r.Posts?
            && |r.posts| == |raw|
            && forall i :: 0 <= i < |raw| ==>
                 && r.posts[i].id == raw[i].id && r.posts[i].title == raw[i].title
                 && r.posts[i].author == AuthorName(raw[i].author)
                 && r.posts[i].url == "https://reddit.com" + raw[i].permalink
                 && r.posts[i].score == raw[i].score && r.posts[i].numComments == raw[i].numComments
  {
  }

  /** A post keeps exactly its first `min(cap, n)` comments, in order, when the
      cap is not negative. */
  lemma CommentCap(p: RawPost, cap: int)
    requires cap >= 0
    ensures |PostRecord(p, cap).comments| == Min(cap, |p.comments|)
    ensures forall i :: 0 <= i < |PostRecord(p, cap).comments| ==>
              PostRecord(p, cap).comments[i] == CommentRecord(p.comments[i])
  {
  }

  /** A negative cap drops that many comments from the end, as a Python slice does. */
  lemma NegativeCommentCap(p: RawPost, cap: int)
    requires cap < 0
    ensures |PostRecord(p, cap).comments| == Max(0, |p.comments| + cap)
  {
  }

  /** With the defaults the tool asks for five hot posts of r/all and keeps
      fifteen comments per post. */
  lemma DefaultArguments(hot: HotListing)
    ensures FetchSpec(hot, "all", TextValue("5"), TextValue("15")) == FetchSpec(hot, "all", IntValue(5), IntValue(15))
  {
    ParseFive();
    ParseFifteen();
  }

  /** `int("5")` and `int("15")`, the default counts. */
  lemma ParseFive()
    ensures ParseInt(TextValue("5")) == Ok(5)
  {
    assert IntToString(5) == [DigitChar(5)] == "5";
    ParseIntToString(5);
  }

  lemma ParseFifteen()
    ensures ParseInt(TextValue("15")) == Ok(15)
  {
    assert NatToString(1) == [DigitChar(1)] == "1";
    assert NatToString(15) == NatToString(1) + [DigitChar(5)];
    assert IntToString(15) == "15";
    ParseIntToString(15);
  }

  /** A limit that is not a literal gives the error record and no posts; the
      comment count and the listing are never looked at. */
  lemma NonNumericLimit(hot: HotListing, subreddit: string, t: string, cpp: IntArg)
    requires ParseInt(TextValue(t)).Err?
    ensures FetchSpec(hot, subreddit, TextValue(t), cpp) == Failed(InvalidLiteral(t))
  {
  }

  /** After a valid limit, a comment count that is not a literal gives its own
      error record; the listing is never asked for. */
  lemma NonNumericCommentCount(hot: HotListing, subreddit: string, limit: IntArg, t: string)
    requires ParseInt(limit).Ok? && ParseInt(TextValue(t)).Err?
    ensures FetchSpec(hot, subreddit, limit, TextValue(t)) == Failed(InvalidLiteral(t))
  {
  }

  /** "five" is one such text: `int("five")` fails, quoting the text whole. */
  lemma FiveIsNotALiteral()
    ensures ParseInt(TextValue("five")) == Err(InvalidLiteralPrefix() + "'five'")
  {
    FiveFails();
    FiveMessage();
  }

  lemma FiveFails()
    ensures ParseInt(TextValue("five")) == Err(InvalidLiteral("five"))
  {
    assert !IsDigit("five"[0]);
    assert StripLeft("five") == "five";
    assert Strip("five") == "five";
  }

  lemma FiveMessage()
    ensures InvalidLiteral("five") == InvalidLiteralPrefix() + "'five'"
  {
    assert forall i :: 0 <= i < 4 ==> PlainChar("five"[i]);
    PlainLiteralMessage("five");
    assert QuotedText("five") == "'five'";
  }

  /** A JSON `null` limit raises the TypeError of `int(None)`; the listing is
      never asked for. */
  lemma NullLimitRaises(hot: HotListing, subreddit: string, cpp: IntArg)
    ensures FetchSpec(hot, subreddit, OtherValue("NoneType"), cpp)
            == Failed("int() argument must be a string, a bytes-like object or a real number, not 'NoneType'")
  {
    assert ParseInt(OtherValue("NoneType")) == Err(NotANumber("NoneType"));
    assert NotANumber("NoneType") == "int() argument must be a string, a bytes-like object or a real number, not 'NoneType'";
  }

  /** A float count is truncated toward zero and a boolean count is 0 or 1:
      `limit=2.9` asks for two posts, `comments_per_post=true` keeps one comment. */
  lemma FloatAndBoolCounts(hot: HotListing, subreddit: string)
    ensures FetchSpec(hot, subreddit, FloatValue(2.9), BoolValue(true)) == FetchSpec(hot, subreddit, IntValue(2), IntValue(1))
    ensures FetchSpec(hot, subreddit, FloatValue(-2.9), BoolValue(false)) == FetchSpec(hot, subreddit, IntValue(-2), IntValue(0))
  {
    assert TruncateReal(2.9) == 2;
    assert TruncateReal(-2.9) == -2;
  }

  /** A failing listing gives its message and no posts. */
  lemma ListingFailure(hot: HotListing, subreddit: string, n: int, cap: int, e: string)
    requires hot(subreddit, n) == Err(e)
    ensures FetchSpec(hot, subreddit, IntValue(n), IntValue(cap)) == Failed(e)
  {
  }
}
