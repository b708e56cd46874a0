/** The Medium tool: a search-page url, a status check, and the article links
    of the page shaped into title/link records. The page fetch is a parameter;
    the HTML parsing is done before the model sees the page, which arrives as
    its status and its selected read-more anchors in document order. */
module MediumServer {
  import opened Wrappers
  import opened Builtins

  const SearchBase := "https://medium.com/search?q="
  const SourceMarker := "?source"
  const UntitledArticle := "Untitled"

  /** One selected anchor: its `aria-label` and `href` attributes, if present. */
  datatype Anchor = Anchor(ariaLabel: Option<string>, href: Option<string>)

  /** The fetched page: the status and the anchors `soup.select` finds. */
  datatype SearchPage = SearchPage(status: int, anchors: seq<Anchor>)

  /** `requests.get(url, headers=...)`. */
  type PageFetch = string -> Result<SearchPage, string>

  datatype Article = Article(title: string, link: Option<string>)

  /** The list of articles, or `{"error": ...}`. */
  datatype MediumResult = Articles(articles: seq<Article>) | FetchError(error: string)

  /** The search url: each space of the query becomes `%20`, nothing else is encoded. */
  function SearchUrl(query: string): (url: string)
    ensures |url| >= |SearchBase| && url[..|SearchBase|] == SearchBase
    ensures url[|SearchBase|..] == ReplaceChar(query, ' ', "%20")
  {
    ConcatParts(SearchBase, ReplaceChar(query, ' ', "%20"));
    SearchBase + ReplaceChar(query, ' ', "%20")
  }

  /** The encoded query has no space, grows by two characters per space, and
      is the query itself when it has no space. */
  lemma SearchUrlEncoding(query: string)
    ensures var q := SearchUrl(query)[|SearchBase|..];
            && ' ' !in q
            && |q| == |query| + 2 * Count(query, ' ')
            && (' ' !in query ==> q == query)
  {
    ReplaceCharLength(query, ' ', "%20");
  }

  /** `link.get("aria-label") or "Untitled"`. */
  function ArticleTitle(ariaLabel: Option<string>): (t: string)
    ensures ariaLabel.Some? && ariaLabel.value != "" ==> t == ariaLabel.value
    ensures ariaLabel.None? || ariaLabel.value == "" ==> t == "Untitled"
  {
    if ariaLabel.Some? && ariaLabel.value != "" then ariaLabel.value else UntitledArticle
  }

  /** `href.split("?source")[0]` when the href holds `?source`; any other href,
      an absent one included, is kept. */
  function StripSource(href: Option<string>): (r: Option<string>)
    ensures r.Some? <==> href.Some?
    ensures r.Some? ==> |r.value| <= |href.value| && r.value == href.value[..|r.value|]
  {
    if href.Some? && href.value != [] && Contains(href.value, SourceMarker)
    then Some(href.value[..Find(href.value, SourceMarker)])
    else href
  }

  /** A prefix cut before the first occurrence holds no occurrence. */
  lemma PrefixBeforeFirst(h: string, sub: string)
    requires |sub| > 0 && Find(h, sub) != -1
    ensures !Contains(h[..Find(h, sub)], sub)
  {
    var f := Find(h, sub);
    var p := h[..f];
    forall j: nat | j <= |p| ensures !OccursAt(p, sub, j) {
      if OccursAt(p, sub, j) {
        assert j < f;
        assert p[j..j + |sub|] == h[j..j + |sub|];
        assert OccursAt(h, sub, j);
        assert false;
      }
    }
  }

  /** The stripped href is a prefix of the href with no `?source` left in it;
      an href without the marker is unchanged; and stripping twice is stripping once. */
  lemma StripSourceProperties(href: Option<string>)
    ensures StripSource(href).Some? <==> href.Some?
    ensures href.Some? ==> var h := StripSource(href).value;
              && |h| <= |href.value| && h == href.value[..|h|]
              && (href.value != [] ==> !Contains(h, "?source"))
    ensures href.Some? && !Contains(href.value, "?source") ==> StripSource(href) == href
    ensures StripSource(StripSource(href)) == StripSource(href)
  {
    if href.Some? && href.value != [] && Contains(href.value, SourceMarker) {
      PrefixBeforeFirst(href.value, SourceMarker);
    }
  }

  /** One article record. */
  function ArticleOf(a: Anchor): Article
  {
    Article(ArticleTitle(a.ariaLabel), StripSource(a.href))
  }

  /** The records of the first `num_results` anchors, in document order. */
  function ArticlesOf(anchors: seq<Anchor>, numResults: int): (r: seq<Article>)
    ensures |r| == |SliceTo(anchors, numResults)|
    ensures forall i :: 0 <= i < |r| ==> r[i] == ArticleOf(anchors[i])
  {
    var kept := SliceTo(anchors, numResults);
    seq(|kept|, i requires 0 <= i < |kept| => ArticleOf(kept[i]))
  }

  function StatusError(status: int): string
  {
    "Failed to fetch Medium results. " + IntToString(status)
  }

  /** What `search_medium` returns; an exception raised by the fetch leaves the tool. */
  function SearchSpec(fetch: PageFetch, query: string, numResults: int): Result<MediumResult, string>
  {
    match fetch(SearchUrl(query))
    case Err(e) => Err(e)
    case Ok(page) =>
      if page.status != 200 then Ok(FetchError(StatusError(page.status)))
      else Ok(Articles(ArticlesOf(page.anchors, numResults)))
  }

  /** `search_medium(query, num_results=5)`: the articles are appended one anchor at a time. */
  method SearchMedium(fetch: PageFetch, query: string, numResults: int := 5)
    returns (r: Result<MediumResult, string>)
    ensures r == SearchSpec(fetch, query, numResults)
  {
    var url := SearchUrl(query);
    var response := fetch(url);
    if response.Err? {
      return Err(response.error);
    }
    var page := response.value;
    if page.status != 200 {
      return Ok(FetchError("Failed to fetch Medium results. " + IntToString(page.status)));
    }
    var kept := SliceTo(page.anchors, numResults);
    var articles: seq<Article> := [];
    var k := 0;
    while k < |kept|
      invariant 0 <= k <= |kept|
      invariant |articles| == k
      invariant forall i :: 0 <= i < k ==> articles[i] == ArticleOf(kept[i])
    {
      var link := kept[k];
      var title := if link.ariaLabel.Some? && link.ariaLabel.value != "" then link.ariaLabel.value else UntitledArticle;
      var href := link.href;
      if href.Some? && href.value != [] && Contains(href.value, SourceMarker) {
        href := Some(href.value[..Find(href.value, SourceMarker)]);
      }
      articles := articles + [Article(title, href)];
      k := k + 1;
    }
    assert articles == ArticlesOf(page.anchors, numResults);
    return Ok(Articles(articles));
  }

  /** At most `num_results` articles, the leading anchors in document order. */
  lemma ResultCap(fetch: PageFetch, query: string, numResults: int, page: SearchPage)
    requires fetch(SearchUrl(query)) == Ok(page) && page.status == 200
    requires numResults >= 0
    ensures var r := SearchSpec(fetch, query, numResults);
            && r.Ok? && r.value.Articles?
            && |r.value.articles| == Min(numResults, |page.anchors|)
            && forall i :: 0 <= i < |r.value.articles| ==> r.value.articles[i] == ArticleOf(page.anchors[i])
  {
  }

  /** A status other than 200 gives the error record with the status written out. */
  lemma StatusFailure(fetch: PageFetch, query: string, numResults: int, page: SearchPage)
    requires fetch(SearchUrl(query)) == Ok(page) && page.status != 200
    ensures SearchSpec(fetch, query, numResults) ==
            Ok(FetchError("Failed to fetch Medium results. " + IntToString(page.status)))
  {
  }
}
