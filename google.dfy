/** The Google tool: one Custom Search request, a status check, and the mapping
    of the returned items to title/snippet/link records. The HTTP client is a
    parameter that answers a request with a response or raises. */
module GoogleServer {
  import opened Wrappers
  import opened Builtins

  const SearchEndpoint := "https://www.googleapis.com/customsearch/v1"

  /** The url and the query parameters of the request. An unset key or engine
      id is `None`. */
  datatype Request = Request(url: string, key: Option<string>, cx: Option<string>, q: string, num: int)

  /** One item of the JSON body: its string-valued fields. */
  type Item = map<string, string>

  /** The `items` member of the parsed body: absent when the search found
      nothing, JSON `null`, or a list. */
  datatype ItemsField = Missing | Null | Listed(list: seq<Item>)

  /** The parsed body. */
  datatype Body = Body(items: ItemsField)

  /** The TypeError of iterating over `None`. */
  const NoneNotIterable := "'NoneType' object is not iterable"

  /** A response: the status, the raw text, and the body as `response.json()`
      gives it (or the exception of a body that is not JSON). */
  datatype Response = Response(status: int, text: string, json: Result<Body, string>)

  /** `requests.get(url, params=...)`. */
  type HttpGet = Request -> Result<Response, string>

  datatype SearchHit = SearchHit(title: string, snippet: string, link: string)

  /** What the tool returns: the list of hits, or `{"error": response.text}`. */
  datatype SearchResult = Hits(hits: seq<SearchHit>) | ErrorText(error: string)

  /** The request `google_search` sends. */
  function SearchRequest(apiKey: Option<string>, engineId: Option<string>, query: string, numResults: int): (r: Request)
    ensures r.url == "https://www.googleapis.com/customsearch/v1"
    ensures r.key == apiKey && r.cx == engineId && r.q == query && r.num == numResults
  {
    Request(SearchEndpoint, apiKey, engineId, query, numResults)
  }

  /** `item[name]`: a missing field raises a KeyError whose text is the quoted name. */
  function Field(item: Item, name: string): (r: Result<string, string>)
    ensures name in item ==> r == Ok(item[name])
    ensures name !in item ==> r == Err(QuotedText(name))
  {
    if name in item then Ok(item[name]) else Err(QuotedText(name))
  }

  /** One hit; the fields are read in the order title, snippet, link. */
  function HitOf(item: Item): Result<SearchHit, string>
  {
    match Field(item, "title")
    case Err(e) => Err(e)
    case Ok(title) =>
      match Field(item, "snippet")
      case Err(e) => Err(e)
      case Ok(snippet) =>
        match Field(item, "link")
        case Err(e) => Err(e)
        case Ok(link) => Ok(SearchHit(title, snippet, link))
  }

  predicate Complete(item: Item)
  {
    "title" in item && "snippet" in item && "link" in item
  }

  /** The list comprehension over the items; the first item that lacks a field
      raises, and the exception leaves the tool. */
  function HitsOf(items: seq<Item>): (r: Result<seq<SearchHit>, string>)
    ensures r.Ok? ==> |r.value| == |items|
  {
    if items == [] then Ok([])
    else match HitOf(items[0])
      case Err(e) => Err(e)
      case Ok(h) =>
        match HitsOf(items[1..])
        case Err(e) => Err(e)
        case Ok(hs) => Ok([h] + hs)
  }

  /** The comprehension's list returned as the tool's result, or its exception. */
  function ResultOf(hits: Result<seq<SearchHit>, string>): (r: Result<SearchResult, string>)
    ensures hits.Ok? <==> r.Ok?
    ensures hits.Ok? ==> r.value == Hits(hits.value)
  {
    match hits
    case Err(e) => Err(e)
    case Ok(hs) => Ok(Hits(hs))
  }

  /** `google_search(query, num_results=5)`. An exception raised by the request,
      by the JSON decoding or by a missing field is the `Err` of the outer result. */
  function GoogleSearch(get: HttpGet, apiKey: Option<string>, engineId: Option<string>,
                        query: string, numResults: int := 5): (r: Result<SearchResult, string>)
    ensures r.Ok? ==> get(SearchRequest(apiKey, engineId, query, numResults)).Ok?
    ensures r.Ok? && r.value.Hits? ==> get(SearchRequest(apiKey, engineId, query, numResults)).value.status == 200
    ensures r.Ok? && r.value.ErrorText? ==> get(SearchRequest(apiKey, engineId, query, numResults)).value.status != 200
    ensures var response := get(SearchRequest(apiKey, engineId, query, numResults));
            response.Ok? && response.value.status == 200 && response.value.json.Ok? &&
            response.value.json.value.items.Listed? ==>
              var items := response.value.json.value.items.list;
              && (r.Ok? <==> forall i :: 0 <= i < |items| ==> Complete(items[i]))
              && (r.Ok? ==> r.value.Hits? && |r.value.hits| == |items| &&
                            forall i :: 0 <= i < |items| ==>
                              r.value.hits[i] == SearchHit(items[i]["title"], items[i]["snippet"], items[i]["link"]))
  {
    match get(SearchRequest(apiKey, engineId, query, numResults))
    case Err(e) => Err(e)
    case Ok(response) =>
      if response.status != 200 then Ok(ErrorText(response.text))
      else match response.json
        case Err(e) => Err(e)
        case Ok(body) =>
          match body.items
          case Missing => ResultOf(HitsOf([]))
          case Null => Err(NoneNotIterable)
          case Listed(items) =>
            HitsFollowItems(items);
            ResultOf(HitsOf(items))
  }

  /** The items map to hits exactly when every item has the three fields, and
      then one for one and in order. */
  lemma {:induction false} HitsFollowItems(items: seq<Item>)
    ensures HitsOf(items).Ok? <==> forall i :: 0 <= i < |items| ==> Complete(items[i])
    ensures HitsOf(items).Ok? ==>
              && |HitsOf(items).value| == |items|
              && forall i :: 0 <= i < |items| ==>
                   HitsOf(items).value[i] == SearchHit(items[i]["title"], items[i]["snippet"], items[i]["link"])
  {
    if items != [] {
      HitsFollowItems(items[1..]);
      assert forall i :: 1 <= i < |items| ==> items[i] == items[1..][i - 1];
      if HitsOf(items).Ok? {
        var hs := HitsOf(items).value;
        assert hs[0] == SearchHit(items[0]["title"], items[0]["snippet"], items[0]["link"]);
        assert forall i :: 1 <= i < |items| ==> hs[i] == HitsOf(items[1..]).value[i - 1];
      }
    }
  }

  /** A status other than 200 gives the response text as the error, whatever the body. */
  lemma StatusCheck(get: HttpGet, apiKey: Option<string>, engineId: Option<string>, query: string, numResults: int,
                    response: Response)
    requires get(SearchRequest(apiKey, engineId, query, numResults)) == Ok(response)
    requires response.status != 200
    ensures GoogleSearch(get, apiKey, engineId, query, numResults) == Ok(ErrorText(response.text))
  {
  }

  /** A 200 response without `items` gives no hits. */
  lemma NoItemsNoHits(get: HttpGet, apiKey: Option<string>, engineId: Option<string>, query: string, numResults: int,
                      text: string)
    requires get(SearchRequest(apiKey, engineId, query, numResults)) == Ok(Response(200, text, Ok(Body(Missing))))
    ensures GoogleSearch(get, apiKey, engineId, query, numResults) == Ok(Hits([]))
  {
  }

  /** A 200 response whose `items` is `null` raises: `.get` gives `None`, which
      the comprehension cannot iterate over. */
  lemma NullItemsRaise(get: HttpGet, apiKey: Option<string>, engineId: Option<string>, query: string, numResults: int,
                       text: string)
    requires get(SearchRequest(apiKey, engineId, query, numResults)) == Ok(Response(200, text, Ok(Body(Null))))
    ensures GoogleSearch(get, apiKey, engineId, query, numResults) == Err("'NoneType' object is not iterable")
  {
  }

  /** An item without a title raises the KeyError `'title'`. */
  lemma MissingTitle(item: Item, rest: seq<Item>)
    requires "title" !in item
    ensures HitsOf([item] + rest) == Err("'title'")
  {
    assert ([item] + rest)[0] == item;
    assert HitOf(item) == Err(QuotedText("title"));
    assert QuotedText("title") == "'title'";
  }

  /** Without `num_results` the request asks for five results. */
  lemma DefaultResultCount(get: HttpGet, apiKey: Option<string>, engineId: Option<string>, query: string)
    ensures GoogleSearch(get, apiKey, engineId, query) == GoogleSearch(get, apiKey, engineId, query, 5)
    ensures SearchRequest(apiKey, engineId, query, 5).num == 5
  {
  }
}
