/** The Wikipedia tool: a search that pairs each hit with a short summary and an
    article url, a page lookup and a health check. The Wikipedia library is a
    pair of parameters: the title search, and the summary of a title (or the
    exception it raised). */
module WikiServer {
  import opened Wrappers
  import opened Builtins

  /** `wikipedia.search(query, results=limit)`. */
  type TitleSearch = (string, int) -> Result<seq<string>, string>

  /** `wikipedia.summary(title, ...)`, with the sentence count the caller passes fixed. */
  type SummaryLookup = string -> Result<string, string>

  datatype WikiRecord = WikiRecord(title: string, summary: string, url: string)

  /** `get_page`: the page record, or `{"error": str(e)}`. */
  datatype PageResult = Page(title: string, summary: string, url: string) | PageError(error: string)

  const ArticleBase := "https://en.wikipedia.org/wiki/"
  const SummaryFallback := "Summary not available"

  /** `ping()`. */
  function Ping(): (r: string)
    ensures r == "Wikipedia MCP is running!"
  {
    "Wikipedia MCP is running!"
  }

  /** The article url of a title: every space becomes an underscore. */
  function ArticleUrl(title: string): (url: string)
    ensures |url| == |ArticleBase| + |title|
    ensures url[..|ArticleBase|] == ArticleBase
    ensures forall i :: 0 <= i < |title| ==>
              url[|ArticleBase| + i] == if title[i] == ' ' then '_' else title[i]
  {
    ReplaceCharAt(title, ' ', '_');
    ArticleBase + ReplaceChar(title, ' ', "_")
  }

  /** The slug holds no space, and a title with no underscore is read back from
      its slug by turning underscores into spaces. */
  lemma {:induction false} SlugRoundTrip(title: string)
    requires '_' !in title
    ensures ' ' !in ReplaceChar(title, ' ', "_")
    ensures ReplaceChar(ReplaceChar(title, ' ', "_"), '_', " ") == title
  {
    if title != [] {
      SlugRoundTrip(title[1..]);
      var head := if title[0] == ' ' then "_" else [title[0]];
      var rest := ReplaceChar(title[1..], ' ', "_");
      calc {
        ReplaceChar(head + rest, '_', " ");
        { ReplaceCharConcat(head, rest, '_', " "); }
        ReplaceChar(head, '_', " ") + ReplaceChar(rest, '_', " ");
        [title[0]] + title[1..];
      }
    }
  }

  /** One search record; a summary lookup that raises gives the fallback text. */
  function SearchRecord(title: string, summary: SummaryLookup): (r: WikiRecord)
    ensures r.title == title && r.url == ArticleUrl(title)
    ensures r.summary == match summary(title) case Ok(s) => s case Err(_) => "Summary not available"
  {
    WikiRecord(title, match summary(title) case Ok(s) => s case Err(_) => SummaryFallback, ArticleUrl(title))
  }

  /** What `search` returns: a failing title search propagates; otherwise one
      record per title, in order. */
  function SearchSpec(titles: TitleSearch, summary: SummaryLookup, query: string, limit: int): Result<seq<WikiRecord>, string>
  {
    match titles(query, limit)
    case Err(e) => Err(e)
    case Ok(ts) => Ok(SearchRecords(ts, summary))
  }

  /** One record per title, in order. */
  function SearchRecords(ts: seq<string>, summary: SummaryLookup): (r: seq<WikiRecord>)
    ensures |r| == |ts|
    ensures forall i :: 0 <= i < |ts| ==> r[i] == SearchRecord(ts[i], summary)
  {
    seq(|ts|, i requires 0 <= i < |ts| => SearchRecord(ts[i], summary))
  }

  /** `search(query, limit=5)`: the records are appended one title at a time. */
  method Search(titles: TitleSearch, summary: SummaryLookup, query: string, limit: int := 5)
    returns (r: Result<seq<WikiRecord>, string>)
    ensures r == SearchSpec(titles, summary, query, limit)
  {
    var results := titles(query, limit);
    if results.Err? {
      return Err(results.error);
    }
    var data := SearchLoop(results.value, summary);
    return Ok(data);
  }

  /** The loop of `search`: one record per title, appended in order. */
  method SearchLoop(ts: seq<string>, summary: SummaryLookup) returns (data: seq<WikiRecord>)
    ensures data == SearchRecords(ts, summary)
  {
    data := [];
    var k := 0;
    while k < |ts|
      invariant 0 <= k <= |ts|
      invariant |data| == k
      invariant forall i :: 0 <= i < k ==> data[i] == SearchRecord(ts[i], summary)
    {
      var t := ts[k];
      var s := summary(t);
      var text := if s.Ok? then s.value else SummaryFallback;
      var record := WikiRecord(t, text, ArticleUrl(t));
      assert record == SearchRecord(t, summary);
      assert (data + [record])[k] == record;
      data := data + [record];
      k := k + 1;
    }
  }

  /** Records follow the titles one for one; a failing summary touches only its
      own record, and the other records get their own summaries. */
  lemma SearchRecordsFollowTitles(titles: TitleSearch, summary: SummaryLookup, query: string, limit: int, ts: seq<string>)
    requires titles(query, limit) == Ok(ts)
    ensures var r := SearchSpec(titles, summary, query, limit);
            && r.Ok? && |r.value| == |ts|
            && forall i :: 0 <= i < |ts| ==>
                 && r.value[i].title == ts[i]
                 && r.value[i].url == ArticleUrl(ts[i])
                 && r.value[i].summary == if summary(ts[i]).Ok? then summary(ts[i]).value else "Summary not available"
  {
  }

  /** Two summary lookups that agree on one title give the same record for it,
      whatever they give for the other titles. */
  lemma SummaryFailureIsLocal(title: string, s1: SummaryLookup, s2: SummaryLookup)
    requires s1(title) == s2(title)
    ensures SearchRecord(title, s1) == SearchRecord(title, s2)
  {
  }

  /** `get_page(title)`. */
  function GetPage(summary: SummaryLookup, title: string): (r: PageResult)
    ensures r.PageError? <==> summary(title).Err?
    ensures r.PageError? ==> r.error == summary(title).error
    ensures r.Page? ==> r.title == title && r.summary == summary(title).value && r.url == ArticleUrl(title)
  {
    match summary(title)
    case Ok(s) => Page(title, s, ArticleUrl(title))
    case Err(e) => PageError(e)
  }

  /** The page record and the search record of a title share the title and the url. */
  lemma PageMatchesSearch(summary: SummaryLookup, full: SummaryLookup, title: string)
    requires full(title).Ok?
    ensures GetPage(full, title).url == SearchRecord(title, summary).url
    ensures GetPage(full, title).title == SearchRecord(title, summary).title
  {
  }
}
