# HatchUp VC: a verified model of the research and export core

HatchUp is a venture-capital assistant. It has two parts. The analysis page turns a pitch deck into extracted data, an investment memo and an executive summary, and exports them. The research chat answers questions using context gathered from four tool servers: Reddit, Wikipedia, Google and Medium. This project models the deterministic core around those features in Dafny and proves properties of it:

- **Research chat** (module `HatchUpChat`):
  - the layered secret lookup;
  - the export of secrets into the process environment;
  - the session cache;
  - the four isolated tool calls and the fail strings;
  - the bounded context string;
  - the last-five-messages history;
  - one chat turn.
- **Exporter** (module `Exporter`):
  - the 13 spreadsheet rows;
  - the latin-1 sanitiser;
  - the plain-text memo;
  - the text cells given to the PDF memo.
- **Records** (module `Models`): the four data records with their declared defaults.
- **Tool servers** (modules `RedditServer`, `WikiServer`, `GoogleServer`, `MediumServer`). Each one maps the answers of an outside service to result records.
- **View helpers** (module `App`): the outlook colour and the 500-character description preview.

The Python built-ins the code relies on live in `Builtins`, written out on Dafny values:
- slicing;
- `join`, `split` and one-character `replace`;
- `in` on strings and `find`;
- `lower` and `upper`;
- `str()` of an integer, `int()` of a JSON value and `repr()` of a string.

`Option` and `Result` live in `Wrappers`. An exception that the Python code raises or catches is an `Err` that carries the exception's text.

Outside services are parameters of the operations:
- the MCP sessions and `call_tool`;
- `create_all_sessions`;
- the chat model;
- praw's `hot` listing;
- `wikipedia.search` and `wikipedia.summary`;
- `requests.get`;
- the anchors BeautifulSoup selects.

Each parameter is a function from its request to the value it gives back, or to the exception it raises. The model reasons only about how the core shapes those answers.

Modelling choices:
- **Session map and result dictionary.** Both are keyed by the enumerated `Source` (`Reddit`, `Wiki`, `Google`, `Medium`). Python keys them by the server-name strings and by the strings `"reddit"`, `"wiki"`, `"google"` and `"medium"`; `ServerName` and `ResultKey` give those strings. The `KeyError` of a missing session is still reported with the quoted server name, as Python does.
- **Payloads.** A tool result that is not an error is kept as its `str()` text.
- **`int()`.** The argument is an `IntArg`: an integer, a string, a float, a boolean, or any other JSON value (`None`, a list, an object) known by its Python type name, since a tool call may pass any of them.
  - An integer is kept, a float is truncated toward zero and a boolean is 0 or 1.
  - Any other value raises "int() argument must be a string, a bytes-like object or a real number, not '<type>'".
  - A string may hold ASCII whitespace around an optional sign and decimal digits, with single underscores allowed between digits.
  - The error message of a rejected string holds `repr()` of the string, cut to its first 200 characters as CPython's `%.200R` does. `Repr` uses single quotes, or double quotes when the text holds `'` and no `"`. It escapes the backslash and the chosen quote, writes tab, newline and carriage return as `\t`, `\n` and `\r`, and writes other ASCII control characters as `\xhh`.
- **`lower()` and `upper()`.** They map ASCII letters only.
  - For `lower()` this changes no colour decision. Only two non-ASCII characters, U+0130 and U+212A, have a lower case that contains an ASCII letter. U+0130 lowers to `i` followed by U+0307, which cannot complete `positive` or `negative`. U+212A lowers to `k`, which appears in neither word.
  - For `upper()` the difference is real: Python maps U+017F to `S`, U+0131 to `I` and ligatures such as U+FB05 to `ST`. The model applies `upper()` only to the chat roles `user` and `assistant`, and its case-insensitivity claim about colours is made for ASCII outlooks only.
- **Secret values.** A value in the secrets store is a `SecretValue`: a string, a table, a scalar (a TOML number or boolean, with its `str()` text and its Python type name) or an array. `key in value` on a section follows Python's `in` for each kind. On a table it tests the keys. On a string it tests for a substring. On an array it compares the key with each element. On a scalar it raises `TypeError: argument of type 'int' is not iterable` (or `'float'`, `'bool'`). Reading a key from a string or an array section raises the matching `TypeError`.

## Model

| member | source | states |
|---|---|---|
| HatchUpChat.GetSecret | pages/HatchUp_chat.py:28-35 | The loop with early return computes the layered lookup: an unreadable store raises; a top-level key gives `str()` of its value; otherwise the first of general/env/credentials whose membership test holds or raises decides; otherwise nothing is found |
| HatchUpChat.TopLevelWins | pages/HatchUp_chat.py:29-30 | A key held at the top level is returned whatever the sections hold |
| HatchUpChat.FirstAnsweringSectionDecides | pages/HatchUp_chat.py:32-34 | When section j holds the key and every earlier section was passed over without raising, its value (or the TypeError of indexing a string or list section) is the answer, whatever later sections hold |
| HatchUpChat.MembershipErrorStops | pages/HatchUp_chat.py:32-34 | When the membership test of section j raises and every earlier section was passed over, the lookup raises that exception, whatever later sections hold |
| HatchUpChat.NoSectionAnswers | pages/HatchUp_chat.py:32-35 | Nothing is found exactly when every section is passed over: it is absent, or its membership test is false without raising (both directions) |
| HatchUpChat.SecretLookupCases | pages/HatchUp_chat.py:28-35 | Without a top-level key, the lookup is the value of the first section that holds the key |
| HatchUpChat.ScalarSectionRaises | pages/HatchUp_chat.py:32-33 | A number or boolean stored under `general` makes every lookup of a key not held at the top level raise "argument of type '<type>' is not iterable" |
| HatchUpChat.ExportStep | pages/HatchUp_chat.py:38-40 | One pass of the page's loop: a found non-empty secret without U+0000 is exported; a missing or empty one is skipped; a lookup that raises, or a value holding U+0000 ("embedded null byte"), stops the loop |
| HatchUpChat.ProcessEnvironment.InjectSecrets | pages/HatchUp_chat.py:19-44 | The page's loop sets the environment to the key-by-key export of non-empty secrets, stopping at the first pass that raises (a lookup, or a value holding U+0000); the report is "Error loading secrets: " plus that exception, or none |
| HatchUpChat.InjectedKeepsOtherKeys | pages/HatchUp_chat.py:37-40 | The page's loop neither adds, removes nor changes variables other than the six listed keys |
| HatchUpChat.InjectedSetsFoundSecrets | pages/HatchUp_chat.py:37-40 | When no pass of the page's loop raises, a listed key is set to its secret exactly when the secret is a non-empty string, and keeps its old value otherwise |
| HatchUpChat.InjectedStopsAtError | pages/HatchUp_chat.py:37-44 | In the page's loop, keys after the pass that raised keep their old values |
| HatchUpChat.EmbeddedNullStops | pages/HatchUp_chat.py:37-44 | A found secret holding U+0000 ends the page's loop with "embedded null byte" when every earlier pass succeeded, and its key keeps its old value |
| HatchUpChat.Fail | pages/HatchUp_chat.py:147-148 | The fail string is "[" + name + " MCP Error: " + message + "]": its length, its prefix, the message in the middle and the closing bracket |
| HatchUpChat.FailRoundTrip | pages/HatchUp_chat.py:147-148 | The message is read back unchanged from a fail string of the same tool |
| HatchUpChat.IsolatedCall | pages/HatchUp_chat.py:150-181 | A missing session gives the fail string of the quoted server name; a returned result is kept; a raised call gives the fail string of its message |
| HatchUpChat.ResearchBundle | pages/HatchUp_chat.py:150-183 | The dictionary has exactly the four sources as keys, and each key holds the isolated call of its own source: Reddit with subreddit "startups" and limit 1, the other three with the query |
| HatchUpChat.EntryIsolated | pages/HatchUp_chat.py:150-181 | An entry depends on its own call alone: callers that agree on that call give the same entry, whatever the other three calls do |
| HatchUpChat.FailuresStayLocal | pages/HatchUp_chat.py:150-181 | An entry is a fail string exactly when its session is missing or its call raised, and that fail string names its own tool |
| HatchUpChat.Truncate | pages/HatchUp_chat.py:190-192 | Text within the limit is unchanged; longer text is its first `limit` characters followed by "... [TRUNCATED]" |
| HatchUpChat.TruncateDefaultBound | pages/HatchUp_chat.py:190-192 | With the default limit, a cut text is exactly 2015 characters, starts with the original's first 2000, and no result exceeds 2015 |
| HatchUpChat.BuildContextString | pages/HatchUp_chat.py:186-201 | The context is at most its fixed frame plus 4 × 2015 characters |
| HatchUpChat.ContextReadsFourEntries | pages/HatchUp_chat.py:194-201 | The context depends only on the four entries: maps that agree on which sources are present and on their entries give the same context; a missing entry is `str(None)`, the text "None", which truncation leaves unchanged |
| HatchUpChat.ContextSegmentsInOrder | pages/HatchUp_chat.py:194-201 | The context is exactly nine consecutive pieces, located by their offsets: the header with the Reddit label, the truncated Reddit entry, the Wikipedia label, the truncated Wikipedia entry, the Google label, the truncated Google entry, the Medium label, the truncated Medium entry, and the closing rule |
| HatchUpChat.TwoFailuresScenario | pages/HatchUp_chat.py:150-201 | When Reddit and Medium raise and Wikipedia and Google answer, the context is the fixed frame around the Reddit fail string, the two answers and the Medium fail string, in that order |
| HatchUpChat.RecentMessages | pages/HatchUp_chat.py:237 | The window holds min(5, n) messages and is the tail of the history |
| HatchUpChat.HistoryLines | pages/HatchUp_chat.py:237 | One "ROLE: content" line per message, with the role upper-cased |
| HatchUpChat.HistoryText | pages/HatchUp_chat.py:237 | An empty history gives the empty text |
| HatchUpChat.HistoryIsLastFiveLines | pages/HatchUp_chat.py:237 | When no role or content holds a newline, the history text splits back into the lines of the last min(5, n) messages, oldest first |
| HatchUpChat.HistorySlides | pages/HatchUp_chat.py:237 | Once five messages exist, the oldest message no longer affects the history text |
| HatchUpChat.ChatState.EnsureSessions | pages/HatchUp_chat.py:142-145 | Sessions are launched only when none are stored; a stored map is returned unchanged; a failed launch stores nothing and raises |
| HatchUpChat.ChatState.RunSearches | pages/HatchUp_chat.py:137-183 | The result is the bundle over the stored or newly launched sessions, or the launch's exception; the session state and the launch count change accordingly |
| HatchUpChat.ChatState.StartChat | pages/HatchUp_chat.py:208-211 | An absent history starts with the greeting; an existing one is kept |
| HatchUpChat.ChatState.HandlePrompt | pages/HatchUp_chat.py:219-257 | A turn appends the user's prompt, then the model's answer or "⚠️ An error occurred: " plus the exception; the model sees the context and the history that ends with the prompt |
| HatchUpChat.ErrorReply | pages/HatchUp_chat.py:253 | The error reply is the warning prefix followed by the exception text, unchanged |
| HatchUpChat.ReplyFor | pages/HatchUp_chat.py:230-257 | A failed research gives "⚠️ An error occurred: " followed by the research exception; otherwise the model is asked with exactly the context string of the results, the history text and the prompt, and its answer is the reply, or its exception follows the same prefix |
| HatchUpChat.Answer | pages/HatchUp_chat.py:230-257 | A failed research gives the error reply at once; otherwise the model is asked with the context string and the history text, and its answer or its exception's error reply is the reply |
| HatchUpChat.SessionsAreReused | pages/HatchUp_chat.py:142-145 | Over two turns with their own queries and callers, the servers are launched once and the first sessions stay stored; the second turn's results are its own query's calls over those sessions, whatever a second launch would give |
| Exporter.ListCell | src/exporter.py:44-46 | An empty list is "None"; otherwise the items are joined by ", " |
| Exporter.ExcelColumns | src/exporter.py:14-46 | Exactly 13 Field and 13 Value entries: the ten core fields in the listed order, then Missing Sections, Weak Signals and Red Flags as list cells |
| Exporter.ReplacementTableShape | src/exporter.py:61-68 | Every key of the replacement table is above 255 and every stand-in is ASCII |
| Exporter.ReplacedStep | src/exporter.py:69-70 | Each replace step of the loop takes one more table entry into account |
| Exporter.Latin1OfReplaced | src/exporter.py:69-73 | The replacement loop followed by the latin-1 round trip equals the character-by-character sanitiser |
| Exporter.SanitizeText | src/exporter.py:56-73 | The method's result is the sanitised text |
| Exporter.SanitizedConcat | src/exporter.py:61-73 | Sanitising distributes over concatenation |
| Exporter.SanitizedIsLatin1 | src/exporter.py:73 | Every code point of the output is at most 255 |
| Exporter.SanitizedKeepsLatin1 | src/exporter.py:61-73 | A latin-1 text is unchanged |
| Exporter.SanitizeIdempotent | src/exporter.py:61-73 | Sanitising twice is sanitising once |
| Exporter.SanitizedLength | src/exporter.py:61-73 | Output length is input length plus 2 per U+2026 |
| Exporter.SanitizeCharLength | src/exporter.py:61-73 | Every character becomes one character, except U+2026, which becomes three |
| Exporter.SanitizeCharCases | src/exporter.py:61-73 | Each mapped typographic character becomes its stand-in; a latin-1 character stays; any other character above 255 becomes "?" |
| Exporter.MemoSections | src/exporter.py:130-140 | Nine sections, titled in the fixed order |
| Exporter.BulletLines | src/exporter.py:146-147 | One "- item" line per item, in order |
| Exporter.AppendSection | src/exporter.py:143-151 | One section appends its "## title" line, its content lines and an empty line |
| Exporter.AppendSections | src/exporter.py:142-151 | The loop appends the blocks of all sections in order |
| Exporter.ToTextMemo | src/exporter.py:124-153 | The text memo is its header lines and the nine section blocks, joined by newlines |
| Exporter.BlocksConcat | src/exporter.py:142-151 | The blocks of two runs of sections are the blocks of the first run followed by those of the second |
| Exporter.MemoSectionOrder | src/exporter.py:130-153 | The block of the k-th section comes right after the blocks of the sections before it |
| Exporter.BlocksLength | src/exporter.py:142-151 | Each section contributes its header, its content lines and one empty line: items give one line each and none when empty, text gives one line, null gives an empty line |
| Exporter.TextMemoStart | src/exporter.py:128 | The memo starts with "Investment Memo: " + name, a line of 40 "=", and an empty line |
| Exporter.FormatContentIsJoinedLines | src/exporter.py:110-114 | The text of a PDF cell is the text memo's lines of the same content joined by newlines: bullet lines for a list, the text itself, "" for null |
| Exporter.FormatContentLines | src/exporter.py:110-112 | A list is rendered as its "- item" lines joined by newlines, and splits back into them |
| Exporter.PdfCellIsLatin1 | src/exporter.py:105-117 | The PDF title and content cells hold only code points at most 255 |
| Exporter.PdfCells | src/exporter.py:103-118 | The loop gives one cell per section, in order, each the sanitised title over the sanitised formatted content |
| Exporter.PdfMemoText | src/exporter.py:76-119 | The heading is "Investment Memo: " plus the sanitised name, and there are nine cells holding the sanitised titles and contents in order (null as "") |
| Models.NewInvestmentMemo | src/models.py:26-35 | A memo keeps each of its six text fields, its two lists and its verdict, which is optional |
| Models.NewExecutiveSummary | src/models.py:37-41 | Only the bullet points are required; the other fields are optional and may be left at their defaults |
| Models.MemoVerdictDefault | src/models.py:35 | A memo built without a verdict carries "No specific assessment provided." |
| Models.SummaryDefaults | src/models.py:39-41 | A summary built from bullet points alone has outlook "Neutral", score 50 and the default market-alignment text |
| RedditServer.AuthorName | mcp_reddit/server.py:34 | An author is kept; an absent author is "deleted" |
| RedditServer.CommentRecord | mcp_reddit/server.py:44-48 | A comment keeps its author (or "deleted") and score; an absent body is "" |
| RedditServer.CommentRecords | mcp_reddit/server.py:43-48 | The comment records are those of `comments[:cap]`, in order |
| RedditServer.PostRecords | mcp_reddit/server.py:30-50 | One post record per submission, in listing order |
| RedditServer.CollectPosts | mcp_reddit/server.py:30-50 | The outer loop builds one post record per submission, in listing order |
| RedditServer.CollectComments | mcp_reddit/server.py:42-48 | The inner loop builds the comment records of the kept comments |
| RedditServer.FetchRedditPostsWithComments | mcp_reddit/server.py:17-56 | The nested loops compute the specification: parse both counts, then the listing, then one record per post; every exception becomes the error result |
| RedditServer.PostsFollowListing | mcp_reddit/server.py:26-53 | On success there is one record per submission, in order, with the author fallback and url "https://reddit.com" + permalink |
| RedditServer.CommentCap | mcp_reddit/server.py:43 | With a non-negative cap a post keeps exactly its first min(cap, n) comments, in order |
| RedditServer.NegativeCommentCap | mcp_reddit/server.py:43 | A negative cap drops that many comments from the end |
| RedditServer.DefaultArguments | mcp_reddit/server.py:17-24 | The default "5" and "15" parse to 5 and 15 |
| Builtins.ParseInt | mcp_reddit/server.py:23-24 | An integer is kept, a float truncated, a boolean is 0 or 1, a value of another type raises the TypeError naming its type, and a rejected string raises the ValueError of `InvalidLiteral` |
| Builtins.TruncateReal | mcp_reddit/server.py:23-24 | `int()` of a float is its integer part toward zero: within 1 below a non-negative value, within 1 above a negative one |
| Builtins.Repr | mcp_reddit/server.py:23-24 | `repr()` of a text starts and ends with its chosen quote |
| Builtins.PlainRepr | mcp_reddit/server.py:23-24 | A text with no `'`, no backslash and no control character is shown as itself between single quotes |
| Builtins.ApostropheRepr | mcp_reddit/server.py:23-24 | `repr("it's")` uses double quotes |
| Builtins.TabRepr | mcp_reddit/server.py:23-24 | A tab is shown as a backslash and `t` |
| Builtins.InvalidLiteralShape | mcp_reddit/server.py:23-24 | The ValueError text is "invalid literal for int() with base 10: " followed by the first min(200, n) characters of the n-character `repr()` |
| Builtins.PlainLiteralMessage | mcp_reddit/server.py:23-24 | For a plain text the message quotes it whole when the quoted text fits in 200 characters, else the opening quote and the first 199 characters, with no closing quote |
| RedditServer.NonNumericLimit | mcp_reddit/server.py:23 | Any limit text that `int()` rejects gives its ValueError text as the error, whatever the comment count, without asking for the listing |
| RedditServer.NonNumericCommentCount | mcp_reddit/server.py:23-24 | After a valid limit, any comment-count text that `int()` rejects gives its own ValueError text as the error, without asking for the listing |
| RedditServer.FiveIsNotALiteral | mcp_reddit/server.py:23 | `int("five")` raises "invalid literal for int() with base 10: 'five'" |
| RedditServer.NullLimitRaises | mcp_reddit/server.py:23 | A `null` limit gives the error "int() argument must be a string, a bytes-like object or a real number, not 'NoneType'", without asking for the listing |
| RedditServer.FloatAndBoolCounts | mcp_reddit/server.py:23-24 | A limit of 2.9 or -2.9 counts as 2 or -2, and a comment count of true or false as 1 or 0 |
| RedditServer.ListingFailure | mcp_reddit/server.py:27-56 | A failing listing gives its message as the error |
| Builtins.ParseIntToString | mcp_reddit/server.py:23-24 | `int(str(n)) == n` for every integer, so integer counts survive being passed as text |
| WikiServer.Ping | mcp_wiki/server.py:9-10 | The health check answers "Wikipedia MCP is running!" |
| WikiServer.ArticleUrl | mcp_wiki/server.py:25 | The url is "https://en.wikipedia.org/wiki/" followed by the title with every space made an underscore, position by position |
| WikiServer.SlugRoundTrip | mcp_wiki/server.py:25 | The slug holds no space, and a title with no underscore is recovered from its slug |
| WikiServer.SearchRecord | mcp_wiki/server.py:18-26 | A record keeps the title and its url; a failing summary gives "Summary not available" |
| WikiServer.SearchRecords | mcp_wiki/server.py:17-26 | One record per title, in order |
| WikiServer.SearchLoop | mcp_wiki/server.py:17-26 | The loop builds one record per title, in order |
| WikiServer.Search | mcp_wiki/server.py:14-27 | The loop computes the specification: a failing title search propagates, otherwise the records of the titles |
| WikiServer.SearchRecordsFollowTitles | mcp_wiki/server.py:15-27 | The records follow the titles one for one, each with its own summary or the fallback |
| WikiServer.SummaryFailureIsLocal | mcp_wiki/server.py:18-21 | A title's record depends only on that title's summary lookup |
| WikiServer.GetPage | mcp_wiki/server.py:31-40 | An error record exactly when the summary lookup raises (with its text); otherwise title, summary and the slugged url |
| WikiServer.PageMatchesSearch | mcp_wiki/server.py:25-37 | The page record and the search record of a title share title and url |
| GoogleServer.SearchRequest | mcp_google/server.py:17-23 | The request goes to the Custom Search endpoint with key, cx, q = query and num = num_results |
| GoogleServer.Field | mcp_google/server.py:32-34 | A present field is read; a missing one raises the KeyError of its quoted name |
| GoogleServer.HitsOf | mcp_google/server.py:30-37 | A successful comprehension gives one hit per item |
| GoogleServer.GoogleSearch | mcp_google/server.py:14-38 | A result needs the request to have answered; hits come only with status 200 and the error text only with another status; for a 200 body with a list of items, the call succeeds exactly when every item has title, snippet and link, and then gives one hit per item, in order, with those fields |
| GoogleServer.NullItemsRaise | mcp_google/server.py:29-36 | A 200 body whose `items` is `null` raises "'NoneType' object is not iterable" |
| GoogleServer.HitsFollowItems | mcp_google/server.py:29-37 | The items map to hits exactly when each item has title, snippet and link, and then one for one, in order |
| GoogleServer.StatusCheck | mcp_google/server.py:25-27 | A status other than 200 gives the response text as the error |
| GoogleServer.NoItemsNoHits | mcp_google/server.py:36 | A body without "items" gives an empty list |
| GoogleServer.MissingTitle | mcp_google/server.py:32 | An item without a title raises KeyError 'title' |
| GoogleServer.DefaultResultCount | mcp_google/server.py:15 | num_results defaults to 5 |
| MediumServer.SearchUrl | mcp_medium/server.py:13 | The url is "https://medium.com/search?q=" followed by the query with spaces replaced by "%20" |
| MediumServer.SearchUrlEncoding | mcp_medium/server.py:13 | The encoded query holds no space, grows by 2 per space, and is the query itself when it has no space |
| MediumServer.ArticleTitle | mcp_medium/server.py:24 | The aria-label, or "Untitled" when it is missing or empty |
| MediumServer.PrefixBeforeFirst | mcp_medium/server.py:26-27 | Cutting before the first occurrence of a non-empty marker leaves no occurrence |
| MediumServer.StripSource | mcp_medium/server.py:25-27 | An href stays present or absent, and a present one is cut to a prefix of itself |
| MediumServer.StripSourceProperties | mcp_medium/server.py:25-27 | A stripped href is a prefix with no "?source"; an href without the marker, or an absent href, is kept; stripping is idempotent |
| MediumServer.ArticlesOf | mcp_medium/server.py:23-28 | The records of the first num_results anchors, in document order |
| MediumServer.SearchMedium | mcp_medium/server.py:8-30 | The loop computes the specification: a failing fetch propagates, a non-200 status gives the error record, otherwise the article records |
| MediumServer.ResultCap | mcp_medium/server.py:23 | With a non-negative num_results, exactly min(num_results, anchors) articles, the leading ones in order |
| MediumServer.StatusFailure | mcp_medium/server.py:17-18 | A non-200 status gives "Failed to fetch Medium results. " followed by the status |
| App.ColorOf | app.py:97-100 | Green exactly when the lower-cased outlook contains "positive"; red exactly when it contains "negative" but not "positive"; gray otherwise |
| App.OutlookColorAsWritten | app.py:97-100 | As written: a None outlook raises AttributeError; a string gets the colour rule |
| App.NoneOutlookRaises | app.py:97 | The None outlook the summary record permits stops the page |
| App.OutlookColor | app.py:97-100 | Corrected: a None outlook is gray; a string gets the colour rule |
| App.ColorIgnoresCase | app.py:97 | An outlook and its lower-cased form get the same colour |
| App.AsciiColorIgnoresUpperCase | app.py:97 | An ASCII outlook and its upper-cased form get the same colour |
| App.MixedOutlookIsGreen | app.py:99 | An outlook that mentions both "Positive" and "negative" is green |
| App.DescriptionPreview | app.py:55 | Text of at most 500 characters is unchanged; longer text is its first 500 characters + "...", 503 in all |
| App.PreviewBound | app.py:55 | The preview is at most 503 characters and starts with the leading min(500, n) characters of the text |

## Left out

- The chat model and the prompt templates (`llm.invoke`, `ChatPromptTemplate`) are outside calls, so the model's answer is a parameter of `HandlePrompt`. The analysis agents in src/memo_generator.py and the Research Engine page are left out for the same reason.
- Streamlit rendering (page setup, widgets, tabs, download buttons, placeholders) is left out. Only the session-state fields the page reads and writes are modelled.
- MCP plumbing is I/O: the server configuration, the temporary `config_dynamic.json`, `MCPClient`, subprocess transport and `mcp.run`. Sessions are opaque handles and `call_tool` is a parameter. `Path` is used at pages/HatchUp_chat.py:94 without being imported; that line is part of this plumbing and is not modelled.
- Line 12 of pages/HatchUp_chat.py copies `GROQ_API_KEY` from the environment before the secrets are injected, which raises when the variable is unset. It is left out with the rest of the module-level setup.
- `hasattr(st, "secrets")` always holds in Streamlit, so the model starts directly at the lookups. An unreadable secrets store is `Secrets.Unavailable`.
- The `print` of the search query at mcp_medium/server.py:12 is console output, and it is left out.
- asyncio is left out: the four tool calls are awaited one after another, and they are modelled in that order with no concurrency.
- The libraries behind the tool servers are inputs: praw, `wikipedia`, `requests` and BeautifulSoup. Nothing is claimed about them, for instance that `hot(limit)` returns at most `limit` posts or which anchors the CSS selector finds. Each server's module-level client setup and `__main__` block are left out as I/O.
- `str()` of dictionaries and lists, and JSON transport of tool results, are opaque: a payload is kept as its text.
- RedditServer.FetchRedditPostsWithComments: `created_utc` is kept as opaque text, because floating point is not modelled. A post whose comments listing raises partway through is modelled as a failing listing.
- The workbook bytes (pandas and openpyxl) and the PDF layout and encoding (FPDF) are library output. Only the rows, lines and cells given to them are modelled.
- WikiServer.Search: the `sentences=2` argument is folded into the summary parameter. `get_page` takes a separate summary parameter for the full summary.
- Models.NewExecutiveSummary: the 0-100 range of the confidence score is only described in the source, so it is not checked here either.
- HatchUpChat.ProcessEnvironment.InjectSecrets, HatchUpChat.InjectedKeepsOtherKeys, HatchUpChat.InjectedSetsFoundSecrets, HatchUpChat.InjectedStopsAtError: these state what the page's own loop does. The first `key in st.secrets` also makes Streamlit parse the secrets file, and Streamlit itself then copies every top-level string, integer and float secret into `os.environ` as `str(value)`. That copy is library code outside this repository. So the model does not claim that variables other than the six keys stay unchanged over the whole block, nor which of them Streamlit sets.
- Builtins.ParseInt: a float is a finite real. Python's `int()` raises ValueError for NaN and OverflowError for an infinity, and neither is modelled. The TypeError text is the one of Python 3.10 and later.
- Builtins.InvalidLiteral: `Repr` escapes ASCII characters only. Python's `repr()` also escapes non-ASCII characters that are not printable (by their Unicode category), as `\xhh`, `\uhhhh` or `\Uhhhhhhhh`; the model keeps them as they are. The quote choice is modelled, so `int("it's")` quotes `"it's"` in double quotes.
- Builtins.ParseInt: only ASCII digits and ASCII whitespace are accepted. Python's `int()` also accepts other Unicode decimal digits and whitespace. The limit on the length of integer strings is not modelled either. Since the CPython security releases of September 2022 (3.11 and later, 3.10.7, 3.9.14, 3.8.14), `int()` of a text with more than 4300 digits raises "Exceeds the limit (4300 digits) for integer string conversion", unless `sys.set_int_max_str_digits` or `PYTHONINTMAXSTRDIGITS` changes the limit. The model parses such a text, because the limit depends on the interpreter's version and settings, which the repository does not fix.
- RedditServer.NonNumericLimit, RedditServer.NonNumericCommentCount: a count text of more than 4300 digits is accepted by the model, while Python 3.11 and later raise the digit-limit ValueError at mcp_reddit/server.py:23-24 (see Builtins.ParseInt).
- Builtins.ParseIntToString: `int(str(n)) == n` is claimed for every integer. Under Python 3.11 and later, `str(n)` itself raises for `|n| >= 10^4300` with the default digit limit (see Builtins.ParseInt).
- App.AsciiColorIgnoresUpperCase: stated for ASCII outlooks only. Python's `upper()` maps some non-ASCII letters to ASCII ones, so `"poſitive"` is gray while its upper-cased form is green.
- GoogleServer.GoogleSearch: only the `items` member of the body is modelled. It can be absent, `null` or a list of string-valued items; items whose fields hold other JSON values are not represented.

## Findings

| source | as written | input that shows it | evidently intended | confidence | as-written member | corrected member |
|---|---|---|---|---|---|---|
| app.py:97 | `summary.decision_outlook.lower()` is called on a field that src/models.py:39 declares `Optional[str]` | an executive summary whose `decision_outlook` is `None` (the parser accepts null for an optional field) raises `'NoneType' object has no attribute 'lower'` and the results page stops | a missing outlook is shown as neutral, the gray colour | medium; not executed | App.OutlookColorAsWritten | App.OutlookColor |
