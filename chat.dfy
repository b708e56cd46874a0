/** The research chat page: the layered secret lookup and the injection of the
    secrets into the process environment, the cached tool sessions, the four
    isolated tool calls, the bounded context string, the conversation history
    handed to the model, and one chat turn. The tool processes, the session
    setup and the model are parameters. */
module HatchUpChat {
  import opened Wrappers
  import opened Builtins

  // ---------------------------------------------------------------------------
  // Secrets (get_secret and the loop that fills the environment)
  // ---------------------------------------------------------------------------

  /** A value in the secrets store, each kind with its `str()`: a string, a
      section (a table) given with `str()` of each of its entries, a number or
      boolean together with the name of its Python type, or an array of values. */
  datatype SecretValue =
    | Text(text: string)
    | Table(entries: map<string, string>, shown: string)
    | Scalar(shown: string, typeName: string)
    | Array(items: seq<SecretValue>, shown: string)

  /** The secrets store; reading an unavailable store raises `error`. */
  datatype Secrets = Unavailable(error: string) | Loaded(top: map<string, SecretValue>)

  const SecretSections: seq<string> := ["general", "env", "credentials"]

  const SecretKeys: seq<string> := [
    "REDDIT_CLIENT_ID", "REDDIT_CLIENT_SECRET", "USER_AGENT",
    "GOOGLE_API_KEY", "SEARCH_ENGINE_ID", "GROQ_API_KEY"]

  /** The TypeError raised by indexing a string with a string. */
  const StringIndexError := "string indices must be integers, not 'str'"

  /** The TypeError raised by indexing a list with a string. */
  const ListIndexError := "list indices must be integers or slices, not str"

  /** The TypeError raised by `in` on a number or a boolean. */
  function NotIterable(typeName: string): string
  {
    "argument of type '" + typeName + "' is not iterable"
  }

  /** `str(v)`. */
  function Shown(v: SecretValue): string
  {
    match v
    case Text(t) => t
    case Table(_, s) => s
    case Scalar(s, _) => s
    case Array(_, s) => s
  }

  /** `section in st.secrets and key in st.secrets[section]`: on a string value
      `in` is a substring test, on an array it compares the key with each item,
      and on a number or a boolean it raises. */
  function Member(top: map<string, SecretValue>, section: string, key: string): Result<bool, string>
  {
    if section !in top then Ok(false)
    else match top[section]
      case Table(entries, _) => Ok(key in entries)
      case Text(t) => Ok(Contains(t, key))
      case Scalar(_, typeName) => Err(NotIterable(typeName))
      case Array(items, _) => Ok(Text(key) in items)
  }

  /** The section holds the key, so `get_secret` returns from it. */
  predicate Answers(top: map<string, SecretValue>, section: string, key: string)
  {
    Member(top, section, key) == Ok(true)
  }

  /** The section does not hold the key and the test did not raise: the loop moves on. */
  predicate Passes(top: map<string, SecretValue>, section: string, key: string)
  {
    Member(top, section, key) == Ok(false)
  }

  /** What the section that answers gives: the entry, or the TypeError of
      indexing a string or a list with a string. */
  function SectionValue(top: map<string, SecretValue>, section: string, key: string): Result<Option<string>, string>
    requires Answers(top, section, key)
  {
    match top[section]
    case Table(entries, _) => Ok(Some(entries[key]))
    case Text(_) => Err(StringIndexError)
    case Array(_, _) => Err(ListIndexError)
  }

  /** The sections tried in order; the first that answers, or whose membership
      test raises, decides. */
  function SectionLookup(top: map<string, SecretValue>, key: string, sections: seq<string>): Result<Option<string>, string>
  {
    if sections == [] then Ok(None)
    else match Member(top, sections[0], key)
      case Err(e) => Err(e)
      case Ok(found) =>
        if found then SectionValue(top, sections[0], key)
        else SectionLookup(top, key, sections[1..])
  }

  /** The specification of `get_secret`. */
  function SecretLookup(secrets: Secrets, key: string): Result<Option<string>, string>
  {
    match secrets
    case Unavailable(e) => Err(e)
    case Loaded(top) =>
      if key in top then Ok(Some(Shown(top[key]))) else SectionLookup(top, key, SecretSections)
  }

  /** `get_secret(key)`: the top level first, then each section in order, with an early return. */
  method GetSecret(secrets: Secrets, key: string) returns (r: Result<Option<string>, string>)
    ensures r == SecretLookup(secrets, key)
  {
    if secrets.Unavailable? {
      return Err(secrets.error);
    }
    var top := secrets.top;
    if key in top {
      return Ok(Some(Shown(top[key])));
    }
    var i := 0;
    while i < |SecretSections|
      invariant 0 <= i <= |SecretSections|
      invariant SecretLookup(secrets, key) == SectionLookup(top, key, SecretSections[i..])
    {
      var section := SecretSections[i];
      if section in top {
        match top[section] {
          case Table(entries, _) =>
            if key in entries {
              return Ok(Some(entries[key]));
            }
          case Text(t) =>
            if Contains(t, key) {
              return Err(StringIndexError);
            }
          case Scalar(_, typeName) =>
            return Err(NotIterable(typeName));
          case Array(items, _) =>
            if Text(key) in items {
              return Err(ListIndexError);
            }
        }
      }
      i := i + 1;
    }
    return Ok(None);
  }

  /** A key held at the top level wins over every section. */
  lemma TopLevelWins(top: map<string, SecretValue>, key: string)
    requires key in top
    ensures SecretLookup(Loaded(top), key) == Ok(Some(Shown(top[key])))
  {
  }

  /** The first section that answers decides, whatever the later sections hold. */
  lemma {:induction false} FirstAnsweringSectionDecides(top: map<string, SecretValue>, key: string,
                                                         sections: seq<string>, j: nat)
    requires j < |sections| && Answers(top, sections[j], key)
    requires forall i :: 0 <= i < j ==> Passes(top, sections[i], key)
    ensures SectionLookup(top, key, sections) == SectionValue(top, sections[j], key)
  {
    if j > 0 {
      FirstAnsweringSectionDecides(top, key, sections[1..], j - 1);
    }
  }

  /** A membership test that raises before any section answers ends the lookup
      with that exception, whatever the later sections hold. */
  lemma {:induction false} MembershipErrorStops(top: map<string, SecretValue>, key: string,
                                                 sections: seq<string>, j: nat)
    requires j < |sections| && Member(top, sections[j], key).Err?
    requires forall i :: 0 <= i < j ==> Passes(top, sections[i], key)
    ensures SectionLookup(top, key, sections) == Err(Member(top, sections[j], key).error)
  {
    if j > 0 {
      MembershipErrorStops(top, key, sections[1..], j - 1);
    }
  }

  /** No value is found exactly when every section is passed over. */
  lemma {:induction false} NoSectionAnswers(top: map<string, SecretValue>, key: string, sections: seq<string>)
    ensures SectionLookup(top, key, sections) == Ok(None) <==>
            forall i :: 0 <= i < |sections| ==> Passes(top, sections[i], key)
  {
    if sections != [] {
      NoSectionAnswers(top, key, sections[1..]);
      if Passes(top, sections[0], key) {
        assert forall i :: 1 <= i < |sections| ==> sections[i] == sections[1..][i - 1];
      } else if Answers(top, sections[0], key) {
        assert SectionValue(top, sections[0], key) != Ok(None);
      }
    }
  }

  /** `get_secret` without a top-level key: the first of general/env/credentials
      that holds the key gives the value (the other two cases are `TopLevelWins`
      and `NoSectionAnswers`). */
  lemma SecretLookupCases(top: map<string, SecretValue>, key: string, j: nat)
    requires key !in top
    requires j < |SecretSections| && Answers(top, SecretSections[j], key)
    requires forall i :: 0 <= i < j ==> Passes(top, SecretSections[i], key)
    ensures SecretLookup(Loaded(top), key) == SectionValue(top, SecretSections[j], key)
  {
    FirstAnsweringSectionDecides(top, key, SecretSections, j);
  }

  /** A number or a boolean under `general` makes every lookup that reaches the
      sections raise, so the injection loop stops at the first key not held at
      the top level. */
  lemma ScalarSectionRaises(top: map<string, SecretValue>, key: string, shown: string, typeName: string)
    requires key !in top
    requires "general" in top && top["general"] == Scalar(shown, typeName)
    ensures SecretLookup(Loaded(top), key) == Err("argument of type '" + typeName + "' is not iterable")
  {
    MembershipErrorStops(top, key, SecretSections, 0);
  }

  /** The ValueError of `os.environ[key] = val` when `val` holds U+0000. */
  const EmbeddedNull := "embedded null byte"

  /** One pass of the loop at lines 37-40: the value exported for `key`, `None`
      when nothing is set (no secret, or an empty one), or the exception that
      ends the loop (the lookup's, or the environment's refusal of a NUL). */
  function ExportStep(secrets: Secrets, key: string): (r: Result<Option<string>, string>)
    ensures r.Ok? && r.value.Some? ==> SecretLookup(secrets, key) == Ok(r.value) && r.value.value != [] && '\0' !in r.value.value
    ensures r.Ok? && r.value.None? ==> SecretLookup(secrets, key) == Ok(None) || SecretLookup(secrets, key) == Ok(Some(""))
    ensures r.Err? ==> SecretLookup(secrets, key).Err? || r.error == EmbeddedNull
  {
    match SecretLookup(secrets, key)
    case Err(e) => Err(e)
    case Ok(None) => Ok(None)
    case Ok(Some(v)) =>
      if v == "" then Ok(None)
      else if '\0' in v then Err(EmbeddedNull)
      else Ok(Some(v))
  }

  /** The environment after the loop over `keys`: each key whose secret is a
      non-empty string is set; the first pass that raises ends the loop. */
  function Injected(env: map<string, string>, secrets: Secrets, keys: seq<string>): map<string, string>
    decreases |keys|
  {
    if keys == [] then env
    else match ExportStep(secrets, keys[0])
      case Err(_) => env
      case Ok(None) => Injected(env, secrets, keys[1..])
      case Ok(Some(v)) => Injected(env[keys[0] := v], secrets, keys[1..])
  }

  /** The exception that ends the loop, if any. */
  function FirstPassError(secrets: Secrets, keys: seq<string>): Option<string>
    decreases |keys|
  {
    if keys == [] then None
    else match ExportStep(secrets, keys[0])
      case Err(e) => Some(e)
      case Ok(_) => FirstPassError(secrets, keys[1..])
  }

  /** `os.environ`, the one piece of process state the page writes. */
  class ProcessEnvironment {
    var vars: map<string, string>

    constructor (initial: map<string, string>)
      ensures vars == initial
    {
      vars := initial;
    }

    /** Lines 19-44: every listed key whose secret is found and non-empty is
        exported; an exception (of a lookup, or of setting a value that holds
        U+0000) stops the loop and is reported. */
    method InjectSecrets(secrets: Secrets) returns (report: Option<string>)
      modifies this
      ensures vars == Injected(old(vars), secrets, SecretKeys)
      ensures report == match FirstPassError(secrets, SecretKeys)
                        case None => None
                        case Some(e) => Some("Error loading secrets: " + e)
    {
      var i := 0;
      while i < |SecretKeys|
        invariant 0 <= i <= |SecretKeys|
        invariant Injected(old(vars), secrets, SecretKeys) == Injected(vars, secrets, SecretKeys[i..])
        invariant FirstPassError(secrets, SecretKeys) == FirstPassError(secrets, SecretKeys[i..])
      {
        var key := SecretKeys[i];
        var val := GetSecret(secrets, key);
        assert SecretKeys[i..][1..] == SecretKeys[i + 1..];
        if val.Err? {
          return Some("Error loading secrets: " + val.error);
        }
        if val.value.Some? && val.value.value != "" {
          if '\0' in val.value.value {
            return Some("Error loading secrets: " + EmbeddedNull);
          }
          vars := vars[key := val.value.value];
        }
        i := i + 1;
      }
      return None;
    }
  }

  /** Keys outside the list are never touched. */
  lemma {:induction false} InjectedKeepsOtherKeys(env: map<string, string>, secrets: Secrets, keys: seq<string>, k: string)
    requires k !in keys
    ensures k in Injected(env, secrets, keys) <==> k in env
    ensures k in env ==> Injected(env, secrets, keys)[k] == env[k]
    decreases |keys|
  {
    if keys != [] {
      InjectedKeepsOtherKeys(env, secrets, keys[1..], k);
      var env' := match ExportStep(secrets, keys[0]) case Ok(Some(v)) => env[keys[0] := v] case _ => env;
      InjectedKeepsOtherKeys(env', secrets, keys[1..], k);
    }
  }

  /** When no pass raises, a key is set to its secret exactly when the secret
      is a non-empty string, and is left as it was otherwise. */
  lemma {:induction false} InjectedSetsFoundSecrets(env: map<string, string>, secrets: Secrets, keys: seq<string>, k: string)
    requires forall i :: 0 <= i < |keys| ==> ExportStep(secrets, keys[i]).Ok?
    requires k in keys
    ensures SecretLookup(secrets, k).Ok?
    ensures var r := SecretLookup(secrets, k).value;
            var out := Injected(env, secrets, keys);
            if r.Some? && r.value != "" then k in out && out[k] == r.value
            else (k in out <==> k in env) && (k in env ==> out[k] == env[k])
    decreases |keys|
  {
    var r := SecretLookup(secrets, keys[0]).value;
    var env' := if r.Some? && r.value != "" then env[keys[0] := r.value] else env;
    assert Injected(env, secrets, keys) == Injected(env', secrets, keys[1..]);
    if k in keys[1..] {
      InjectedSetsFoundSecrets(env', secrets, keys[1..], k);
    } else {
      assert k == keys[0];
      InjectedKeepsOtherKeys(env', secrets, keys[1..], k);
    }
  }

  /** After a pass raises, the key it failed on and the keys not reached keep
      their old values. */
  lemma {:induction false} InjectedStopsAtError(env: map<string, string>, secrets: Secrets, keys: seq<string>, j: nat, k: string)
    requires j < |keys| && ExportStep(secrets, keys[j]).Err?
    requires k !in keys[..j]
    ensures k in Injected(env, secrets, keys) <==> k in env
    ensures k in env ==> Injected(env, secrets, keys)[k] == env[k]
    decreases j
  {
    if j > 0 {
      var env' := match ExportStep(secrets, keys[0]) case Ok(Some(v)) => env[keys[0] := v] case _ => env;
      assert k != keys[0] by { assert keys[..j][0] == keys[0]; }
      assert keys[1..][..j - 1] == keys[..j][1..];
      if ExportStep(secrets, keys[0]).Ok? {
        InjectedStopsAtError(env', secrets, keys[1..], j - 1, k);
      }
    }
  }

  /** A found secret that holds U+0000 cannot be exported: when every earlier
      pass succeeds, the loop ends at that key with "embedded null byte", and
      the key keeps its old value. */
  lemma {:induction false} EmbeddedNullStops(env: map<string, string>, secrets: Secrets, keys: seq<string>, j: nat, v: string)
    requires j < |keys| && SecretLookup(secrets, keys[j]) == Ok(Some(v)) && '\0' in v
    requires forall i :: 0 <= i < j ==> ExportStep(secrets, keys[i]).Ok?
    ensures FirstPassError(secrets, keys) == Some("embedded null byte")
    ensures keys[j] !in keys[..j] ==>
              (keys[j] in Injected(env, secrets, keys) <==> keys[j] in env) &&
              (keys[j] in env ==> Injected(env, secrets, keys)[keys[j]] == env[keys[j]])
    decreases j
  {
    if j > 0 {
      assert ExportStep(secrets, keys[0]).Ok?;
      assert keys[1..][j - 1] == keys[j];
      EmbeddedNullStops(env, secrets, keys[1..], j - 1, v);
    }
    if keys[j] !in keys[..j] {
      InjectedStopsAtError(env, secrets, keys, j, keys[j]);
    }
  }

  // ---------------------------------------------------------------------------
  // Sessions and the four isolated tool calls (run_searches)
  // ---------------------------------------------------------------------------

  /** The four live sources. Each has a key in the result dictionary, a server
      in the session map, a display name for its fail string, a tool and the
      arguments of that tool. */
  datatype Source = Reddit | Wiki | Google | Medium

  const AllSources: set<Source> := {Reddit, Wiki, Google, Medium}

  /** The key of the source in the dictionary `run_searches` returns. */
  function ResultKey(s: Source): string
  {
    match s
    case Reddit => "reddit"
    case Wiki => "wiki"
    case Google => "google"
    case Medium => "medium"
  }

  /** The server a source is fetched from, as named in the server configuration. */
  function ServerName(s: Source): string
  {
    match s
    case Reddit => "@echolab/mcp-reddit"
    case Wiki => "@echolab/mcp-wikipedia"
    case Google => "@echolab/mcp-google"
    case Medium => "@echolab/mcp-medium"
  }

  function DisplayName(s: Source): string
  {
    match s
    case Reddit => "Reddit"
    case Wiki => "Wikipedia"
    case Google => "Google"
    case Medium => "Medium"
  }

  function ToolName(s: Source): string
  {
    match s
    case Reddit => "fetch_reddit_posts_with_comments"
    case Wiki => "search"
    case Google => "google_search"
    case Medium => "search_medium"
  }

  /** The argument mapping of a tool call. */
  datatype ToolArgs = SubredditArgs(subreddit: string, limit: int) | QueryArgs(query: string)

  /** Reddit is asked for one post of r/startups; the other tools get the query. */
  function ToolArguments(s: Source, query: string): ToolArgs
  {
    if s == Reddit then SubredditArgs("startups", 1) else QueryArgs(query)
  }

  /** A live connection to one tool process; `handle` tells connections apart. */
  datatype Session = Session(handle: nat)

  /** What `create_all_sessions` gives, looked up by the server of each source. */
  type SessionMap = map<Source, Session>

  /** What awaiting `call_tool` gives: a result (kept as its `str()`), or an exception. */
  datatype CallOutcome = Returned(shown: string) | Raised(message: string)

  /** `session.call_tool(name, args)`, supplied from outside. */
  type ToolCaller = (Session, string, ToolArgs) -> CallOutcome

  /** One value of the dictionary `run_searches` returns: a tool result, or a fail string. */
  datatype Entry = Payload(shown: string) | Failure(text: string)

  /** `fail(name, e)`. */
  function Fail(name: string, message: string): (r: string)
    ensures |r| == |name| + |message| + 14
    ensures r[..|name| + 13] == "[" + name + " MCP Error: "
    ensures r[|name| + 13..|r| - 1] == message && r[|r| - 1] == ']'
  {
    "[" + name + " MCP Error: " + message + "]"
  }

  /** Reads the message back out of a fail string of tool `name`. */
  function FailMessage(name: string, text: string): Option<string>
  {
    var prefix := "[" + name + " MCP Error: ";
    if |text| > |prefix| && text[..|prefix|] == prefix && text[|text| - 1] == ']'
    then Some(text[|prefix|..|text| - 1]) else None
  }

  /** A fail string names its tool and carries the message unchanged. */
  lemma FailRoundTrip(name: string, message: string)
    ensures FailMessage(name, Fail(name, message)) == Some(message)
  {
  }

  /** One `try: ... except Exception as e: fail(...)` block: a missing session
      is a KeyError, whose text is the quoted server name. */
  function IsolatedCall(sessions: SessionMap, s: Source, query: string, call: ToolCaller): (e: Entry)
    ensures s !in sessions ==> e == Failure(Fail(DisplayName(s), QuotedText(ServerName(s))))
    ensures s in sessions ==>
              match call(sessions[s], ToolName(s), ToolArguments(s, query))
              case Returned(r) => e == Payload(r)
              case Raised(m) => e == Failure(Fail(DisplayName(s), m))
  {
    if s !in sessions then Failure(Fail(DisplayName(s), QuotedText(ServerName(s))))
    else match call(sessions[s], ToolName(s), ToolArguments(s, query))
      case Returned(r) => Payload(r)
      case Raised(m) => Failure(Fail(DisplayName(s), m))
  }

  /** The dictionary of the four entries, keyed by source. */
  function BundleOf(reddit: Entry, wiki: Entry, google: Entry, medium: Entry): map<Source, Entry>
  {
    map[Reddit := reddit, Wiki := wiki, Google := google, Medium := medium]
  }

  /** The entry a source's key holds. */
  function Pick(s: Source, reddit: Entry, wiki: Entry, google: Entry, medium: Entry): Entry
  {
    match s
    case Reddit => reddit
    case Wiki => wiki
    case Google => google
    case Medium => medium
  }

  lemma BundleOfAt(reddit: Entry, wiki: Entry, google: Entry, medium: Entry, s: Source)
    ensures BundleOf(reddit, wiki, google, medium).Keys == AllSources
    ensures s in BundleOf(reddit, wiki, google, medium)
    ensures BundleOf(reddit, wiki, google, medium)[s] == Pick(s, reddit, wiki, google, medium)
  {
    match s
    case Reddit =>
    case Wiki =>
    case Google =>
    case Medium =>
  }

  /** The dictionary returned by `run_searches` once the sessions exist: every
      source has its entry, and the entry is that source's isolated call. */
  function ResearchBundle(sessions: SessionMap, query: string, call: ToolCaller): (r: map<Source, Entry>)
    ensures r.Keys == AllSources
    ensures forall s :: s in r ==> r[s] == IsolatedCall(sessions, s, query, call)
  {
    var reddit := IsolatedCall(sessions, Reddit, query, call);
    var wiki := IsolatedCall(sessions, Wiki, query, call);
    var google := IsolatedCall(sessions, Google, query, call);
    var medium := IsolatedCall(sessions, Medium, query, call);
    var r := BundleOf(reddit, wiki, google, medium);
    assert forall s :: s in r ==> r[s] == IsolatedCall(sessions, s, query, call) by {
      forall s | s in r ensures r[s] == IsolatedCall(sessions, s, query, call) {
        BundleOfAt(reddit, wiki, google, medium, s);
        PickIsolated(sessions, query, call, s);
      }
    }
    BundleOfAt(reddit, wiki, google, medium, Reddit);
    r
  }

  lemma PickIsolated(sessions: SessionMap, query: string, call: ToolCaller, s: Source)
    ensures Pick(s, IsolatedCall(sessions, Reddit, query, call), IsolatedCall(sessions, Wiki, query, call),
                 IsolatedCall(sessions, Google, query, call), IsolatedCall(sessions, Medium, query, call))
            == IsolatedCall(sessions, s, query, call)
  {
  }

  /** An entry depends on its own source's call alone: two callers that agree on
      that session give the same entry, whatever they do with the other three. */
  lemma EntryIsolated(sessions: SessionMap, query: string, call1: ToolCaller, call2: ToolCaller, s: Source)
    requires s in sessions ==> call1(sessions[s], ToolName(s), ToolArguments(s, query)) ==
                               call2(sessions[s], ToolName(s), ToolArguments(s, query))
    ensures ResearchBundle(sessions, query, call1)[s] == ResearchBundle(sessions, query, call2)[s]
  {
  }

  /** An entry is a fail string exactly when its session is missing or its call
      raises, and a fail string names the source it came from. */
  lemma FailuresStayLocal(sessions: SessionMap, query: string, call: ToolCaller, s: Source)
    ensures ResearchBundle(sessions, query, call)[s].Failure? <==>
            s !in sessions || call(sessions[s], ToolName(s), ToolArguments(s, query)).Raised?
    ensures ResearchBundle(sessions, query, call)[s].Failure? ==>
            FailMessage(DisplayName(s), ResearchBundle(sessions, query, call)[s].text).Some?
  {
    var name := DisplayName(s);
    if s !in sessions {
      FailRoundTrip(name, QuotedText(ServerName(s)));
    } else {
      var outcome := call(sessions[s], ToolName(s), ToolArguments(s, query));
      if outcome.Raised? {
        FailRoundTrip(name, outcome.message);
      }
    }
  }

  // ---------------------------------------------------------------------------
  // The context string (truncate and build_context_string)
  // ---------------------------------------------------------------------------

  const TruncationMarker := "... [TRUNCATED]"

  /** `truncate(content, limit=2000)` applied to `str(content)`. */
  function Truncate(s: string, limit: nat := 2000): (r: string)
    ensures |s| <= limit ==> r == s
    ensures |s| > limit ==> |r| == limit + 15 && r[..limit] == s[..limit] && r[limit..] == "... [TRUNCATED]"
  {
    CutWithMarker(s, limit, TruncationMarker)
  }

  /** With the default budget a truncated payload is exactly 2015 characters. */
  lemma TruncateDefaultBound(s: string)
    ensures |s| <= 2000 ==> Truncate(s) == s
    ensures |s| > 2000 ==> |Truncate(s)| == 2015 && Truncate(s)[..2000] == s[..2000]
    ensures |Truncate(s)| <= 2015
  {
  }

  /** `str(results.get(key))`: a missing key renders as `None`. */
  function Rendered(results: map<Source, Entry>, s: Source): string
  {
    if s !in results then "None" else EntryText(results[s])
  }

  /** `str()` of one entry. */
  function EntryText(e: Entry): string
  {
    match e
    case Payload(r) => r
    case Failure(t) => t
  }

  const ContextOpen := "\n    --- SEARCH RESULTS ---\n    [Reddit]: "
  const WikiLabel := "\n    [Wikipedia]: "
  const GoogleLabel := "\n    [Google]: "
  const MediumLabel := "\n    [Medium]: "
  const ContextClose := "\n    ----------------------\n    "

  /** The nine pieces of the context: the header with the Reddit label, then each
      truncated result after its label, in the order Reddit, Wikipedia, Google,
      Medium, then the closing rule. */
  function ContextParts(reddit: string, wiki: string, google: string, medium: string): seq<string>
  {
    [ContextOpen, Truncate(reddit), WikiLabel, Truncate(wiki), GoogleLabel, Truncate(google),
     MediumLabel, Truncate(medium), ContextClose]
  }

  /** The context around four rendered results. */
  function ContextText(reddit: string, wiki: string, google: string, medium: string): (ctx: string)
    ensures ctx == Concat(ContextParts(reddit, wiki, google, medium))
  {
    ConcatNine(ContextOpen, Truncate(reddit), WikiLabel, Truncate(wiki), GoogleLabel, Truncate(google),
               MediumLabel, Truncate(medium), ContextClose);
    ContextOpen + (Truncate(reddit) + (WikiLabel + (Truncate(wiki) + (GoogleLabel + (Truncate(google)
    + (MediumLabel + (Truncate(medium) + ContextClose)))))))
  }

  /** The pieces of the context of `results`. */
  function ContextPartsOf(results: map<Source, Entry>): seq<string>
  {
    ContextParts(Rendered(results, Reddit), Rendered(results, Wiki), Rendered(results, Google), Rendered(results, Medium))
  }

  /** `build_context_string(results)`. The context is bounded: its fixed frame
      plus at most 2015 characters per source. */
  function BuildContextString(results: map<Source, Entry>): (ctx: string)
    ensures |ctx| <= |ContextOpen| + |WikiLabel| + |GoogleLabel| + |MediumLabel| + |ContextClose| + 4 * 2015
  {
    TruncateDefaultBound(Rendered(results, Reddit));
    TruncateDefaultBound(Rendered(results, Wiki));
    TruncateDefaultBound(Rendered(results, Google));
    TruncateDefaultBound(Rendered(results, Medium));
    ContextText(Rendered(results, Reddit), Rendered(results, Wiki), Rendered(results, Google), Rendered(results, Medium))
  }

  /** Only the four entries matter, however the map was built, and a missing
      entry is rendered as `None`. */
  lemma ContextReadsFourEntries(r1: map<Source, Entry>, r2: map<Source, Entry>)
    requires forall s: Source :: (s in r1 <==> s in r2) && (s in r1 ==> r1[s] == r2[s])
    ensures BuildContextString(r1) == BuildContextString(r2)
    ensures forall s: Source :: s !in r1 ==> Rendered(r1, s) == "None" && Truncate(Rendered(r1, s)) == "None"
  {
    assert Rendered(r1, Reddit) == Rendered(r2, Reddit);
    assert Rendered(r1, Wiki) == Rendered(r2, Wiki);
    assert Rendered(r1, Google) == Rendered(r2, Google);
    assert Rendered(r1, Medium) == Rendered(r2, Medium);
  }

  /** The frame is fixed: the context is its nine pieces in order, each one at
      its offset, from the header and the Reddit segment through the Wikipedia,
      Google and Medium labels and segments to the closing rule. */
  lemma ContextSegmentsInOrder(results: map<Source, Entry>)
    ensures var ctx := BuildContextString(results);
            var parts := ContextPartsOf(results);
            && |parts| == 9
            && parts[0] == ContextOpen && parts[1] == Truncate(Rendered(results, Reddit))
            && parts[2] == WikiLabel && parts[3] == Truncate(Rendered(results, Wiki))
            && parts[4] == GoogleLabel && parts[5] == Truncate(Rendered(results, Google))
            && parts[6] == MediumLabel && parts[7] == Truncate(Rendered(results, Medium))
            && parts[8] == ContextClose
            && Offset(parts, 0) == 0 && Offset(parts, 9) == |ctx|
            && forall k :: 0 <= k < 9 ==>
                 Offset(parts, k + 1) == Offset(parts, k) + |parts[k]| <= |ctx|
                 && ctx[Offset(parts, k)..Offset(parts, k + 1)] == parts[k]
  {
    AllPieces(ContextPartsOf(results));
  }

  /** The context of a four-entry dictionary, segment by segment. */
  lemma ContextOfBundle(reddit: Entry, wiki: Entry, google: Entry, medium: Entry)
    ensures BuildContextString(BundleOf(reddit, wiki, google, medium)) ==
            ContextText(EntryText(reddit), EntryText(wiki), EntryText(google), EntryText(medium))
  {
    RenderedBundle(reddit, wiki, google, medium);
  }

  lemma RenderedBundle(reddit: Entry, wiki: Entry, google: Entry, medium: Entry)
    ensures Rendered(BundleOf(reddit, wiki, google, medium), Reddit) == EntryText(reddit)
    ensures Rendered(BundleOf(reddit, wiki, google, medium), Wiki) == EntryText(wiki)
    ensures Rendered(BundleOf(reddit, wiki, google, medium), Google) == EntryText(google)
    ensures Rendered(BundleOf(reddit, wiki, google, medium), Medium) == EntryText(medium)
  {
    BundleOfAt(reddit, wiki, google, medium, Reddit);
    BundleOfAt(reddit, wiki, google, medium, Wiki);
    BundleOfAt(reddit, wiki, google, medium, Google);
    BundleOfAt(reddit, wiki, google, medium, Medium);
  }

  /** The end-to-end case: Reddit and Medium raise, Wikipedia and Google answer.
      All four segments are still present, two of them as fail strings. */
  lemma TwoFailuresScenario(sessions: SessionMap, query: string, call: ToolCaller,
                            e1: string, w: string, g: string, e4: string)
    requires forall s: Source :: s in sessions
    requires call(sessions[Reddit], ToolName(Reddit), ToolArguments(Reddit, query)) == Raised(e1)
    requires call(sessions[Wiki], ToolName(Wiki), ToolArguments(Wiki, query)) == Returned(w)
    requires call(sessions[Google], ToolName(Google), ToolArguments(Google, query)) == Returned(g)
    requires call(sessions[Medium], ToolName(Medium), ToolArguments(Medium, query)) == Raised(e4)
    ensures BuildContextString(ResearchBundle(sessions, query, call)) ==
            ContextText(Fail("Reddit", e1), w, g, Fail("Medium", e4))
  {
    assert Reddit in sessions && Wiki in sessions && Google in sessions && Medium in sessions;
    var r := IsolatedCall(sessions, Reddit, query, call);
    var wk := IsolatedCall(sessions, Wiki, query, call);
    var gg := IsolatedCall(sessions, Google, query, call);
    var m := IsolatedCall(sessions, Medium, query, call);
    assert EntryText(r) == Fail("Reddit", e1);
    assert EntryText(wk) == w;
    assert EntryText(gg) == g;
    assert EntryText(m) == Fail("Medium", e4);
    ContextOfBundle(r, wk, gg, m);
  }

  // ---------------------------------------------------------------------------
  // The conversation history (line 237)
  // ---------------------------------------------------------------------------

  datatype Message = Message(role: string, content: string)

  /** `messages[-5:]`. */
  function RecentMessages(msgs: seq<Message>): (r: seq<Message>)
    ensures |r| == Min(5, |msgs|) && r == msgs[|msgs| - |r|..]
  {
    msgs[|msgs| - Min(5, |msgs|)..]
  }

  function HistoryLine(m: Message): string
  {
    Upper(m.role) + ": " + m.content
  }

  function HistoryLines(msgs: seq<Message>): (lines: seq<string>)
    ensures |lines| == |msgs|
    ensures forall i :: 0 <= i < |msgs| ==> lines[i] == HistoryLine(msgs[i])
  {
    seq(|msgs|, i requires 0 <= i < |msgs| => HistoryLine(msgs[i]))
  }

  /** The history text: the last five messages, one `ROLE: content` line each. */
  function HistoryText(msgs: seq<Message>): (h: string)
    ensures msgs == [] ==> h == ""
  {
    Join(HistoryLines(RecentMessages(msgs)), "\n")
  }

  /** When no role or content holds a newline, the history splits back into
      exactly the lines of the last five messages, oldest first. */
  lemma HistoryIsLastFiveLines(msgs: seq<Message>)
    requires |msgs| > 0
    requires forall i :: 0 <= i < |msgs| ==> '\n' !in msgs[i].role && '\n' !in msgs[i].content
    ensures var lines := Split(HistoryText(msgs), '\n');
            && |lines| == Min(5, |msgs|)
            && forall i :: 0 <= i < |lines| ==>
                 lines[i] == Upper(msgs[|msgs| - |lines| + i].role) + ": " + msgs[|msgs| - |lines| + i].content
  {
    var recent := RecentMessages(msgs);
    var lines := HistoryLines(recent);
    forall i | 0 <= i < |lines| ensures '\n' !in lines[i] {
      var m := recent[i];
      assert m == msgs[|msgs| - |recent| + i];
      assert lines[i] == Upper(m.role) + ": " + m.content;
      assert forall k :: 0 <= k < |m.role| ==> Upper(m.role)[k] != '\n';
    }
    SplitJoin(lines, '\n');
  }

  /** Only the last five messages matter: older ones drop out of the window. */
  lemma HistorySlides(msgs: seq<Message>, m: Message)
    requires |msgs| >= 5
    ensures HistoryText(msgs + [m]) == HistoryText(msgs[1..] + [m])
  {
    assert RecentMessages(msgs + [m]) == RecentMessages(msgs[1..] + [m]);
  }

  // ---------------------------------------------------------------------------
  // The page state: cached sessions and the chat messages
  // ---------------------------------------------------------------------------

  const Greeting := "Hello! I'm your research assistant. Ask me about a market, startup, or trend, and I'll find live data for you."
  const ErrorPrefix := "\U{26A0}\U{FE0F} An error occurred: "

  /** `st.error(f"...: {e}")`: the text of the error reply. */
  function ErrorReply(e: string): (r: string)
    ensures |r| == |ErrorPrefix| + |e|
    ensures r[..|ErrorPrefix|] == ErrorPrefix && r[|ErrorPrefix|..] == e
  {
    ConcatParts(ErrorPrefix, e);
    ErrorPrefix + e
  }

  /** The model call, supplied from outside: (context, history, question) to an answer or an exception. */
  type Responder = (string, string, string) -> Result<string, string>

  /** The assistant's reply to a turn whose research gave `research`. */
  function ReplyFor(research: Result<map<Source, Entry>, string>, history: seq<Message>,
                    prompt: string, respond: Responder): (reply: string)
    ensures research.Err? ==>
              |reply| == |ErrorPrefix| + |research.error| &&
              reply[..|ErrorPrefix|] == ErrorPrefix && reply[|ErrorPrefix|..] == research.error
    ensures research.Ok? ==>
              var answer := respond(BuildContextString(research.value), HistoryText(history), prompt);
              && (answer.Ok? ==> reply == answer.value)
              && (answer.Err? ==> |reply| == |ErrorPrefix| + |answer.error| && reply[..|ErrorPrefix|] == ErrorPrefix && reply[|ErrorPrefix|..] == answer.error)
  {
    match research
    case Err(e) => ErrorReply(e)
    case Ok(bundle) =>
      match respond(BuildContextString(bundle), HistoryText(history), prompt)
      case Ok(answer) => answer
      case Err(e) => ErrorReply(e)
  }

  /** Lines 241-257 as the statements the try block runs: the model is asked
      with the context and the history, and an exception from the research or
      from the model becomes the error reply. `ReplyFor` is the value these
      statements compute, the form the state's contracts are stated in. */
  method Answer(research: Result<map<Source, Entry>, string>, history: seq<Message>,
                prompt: string, respond: Responder) returns (reply: string)
    ensures reply == ReplyFor(research, history, prompt, respond)
  {
    match research {
      case Err(e) =>
        reply := ErrorReply(e);
      case Ok(bundle) =>
        match respond(BuildContextString(bundle), HistoryText(history), prompt) {
          case Ok(answer) => reply := answer;
          case Err(e) => reply := ErrorReply(e);
        }
    }
  }

  /** The sessions held after a turn: a stored map is kept, otherwise the
      launch's map is stored if the launch succeeded. */
  function SessionsAfter(stored: Option<SessionMap>, create: Result<SessionMap, string>): Option<SessionMap>
  {
    if stored.Some? then stored else if create.Ok? then Some(create.value) else None
  }

  /** What `run_searches` gives: the bundle over the sessions in use, or the
      exception of a failed launch. */
  function Research(stored: Option<SessionMap>, create: Result<SessionMap, string>,
                    query: string, call: ToolCaller): Result<map<Source, Entry>, string>
  {
    match SessionsAfter(stored, create)
    case Some(sessions) => Ok(ResearchBundle(sessions, query, call))
    case None => Err(create.error)
  }

  /** `st.session_state` as far as the page uses it. `launches` counts the
      calls of `create_all_sessions`. */
  class ChatState {
    var mcpSessions: Option<SessionMap>
    var chatMessages: Option<seq<Message>>
    ghost var launches: nat

    constructor ()
      ensures mcpSessions == None && chatMessages == None && launches == 0
    {
      mcpSessions := None;
      chatMessages := None;
      launches := 0;
    }

    /** Lines 142-145: sessions are created only when none are stored; a stored
        map is returned unchanged. `create` is what `create_all_sessions` gives. */
    method EnsureSessions(create: Result<SessionMap, string>) returns (r: Result<SessionMap, string>)
      modifies this
      ensures chatMessages == old(chatMessages)
      ensures mcpSessions == SessionsAfter(old(mcpSessions), create)
      ensures launches == if old(mcpSessions).Some? then old(launches) else old(launches) + 1
      ensures r == if old(mcpSessions).Some? then Ok(old(mcpSessions).value) else create
    {
      if mcpSessions.None? {
        launches := launches + 1;
        if create.Err? {
          return Err(create.error);
        }
        mcpSessions := Some(create.value);
      }
      r := Ok(mcpSessions.value);
    }

    /** `run_searches(query)`: the four calls in turn, each in its own try block. */
    method RunSearches(query: string, create: Result<SessionMap, string>, call: ToolCaller)
      returns (r: Result<map<Source, Entry>, string>)
      modifies this
      ensures chatMessages == old(chatMessages)
      ensures mcpSessions == SessionsAfter(old(mcpSessions), create)
      ensures launches == if old(mcpSessions).Some? then old(launches) else old(launches) + 1
      ensures r == Research(old(mcpSessions), create, query, call)
    {
      var ensured := EnsureSessions(create);
      if ensured.Err? {
        return Err(ensured.error);
      }
      var sessions := ensured.value;
      var reddit := IsolatedCall(sessions, Reddit, query, call);
      var wiki := IsolatedCall(sessions, Wiki, query, call);
      var google := IsolatedCall(sessions, Google, query, call);
      var medium := IsolatedCall(sessions, Medium, query, call);
      r := Ok(BundleOf(reddit, wiki, google, medium));
    }

    /** Lines 208-211: the history starts with the greeting. */
    method StartChat()
      modifies this
      ensures mcpSessions == old(mcpSessions) && launches == old(launches)
      ensures chatMessages == if old(chatMessages).None? then Some([Message("assistant", Greeting)]) else old(chatMessages)
    {
      if chatMessages.None? {
        chatMessages := Some([Message("assistant", Greeting)]);
      }
    }

    /** Lines 219-257: one turn. The prompt is recorded, the research is run, and
        the model's answer (or the error) is recorded; the model sees the history
        that ends with the prompt. Only a non-empty prompt starts a turn. */
    method HandlePrompt(prompt: string, create: Result<SessionMap, string>, call: ToolCaller, respond: Responder)
      requires chatMessages.Some?
      requires prompt != []
      modifies this
      ensures var history := old(chatMessages).value + [Message("user", prompt)];
              var reply := ReplyFor(Research(old(mcpSessions), create, prompt, call), history, prompt, respond);
              chatMessages == Some(history + [Message("assistant", reply)])
      ensures mcpSessions == SessionsAfter(old(mcpSessions), create)
      ensures launches == if old(mcpSessions).Some? then old(launches) else old(launches) + 1
    {
      var history := chatMessages.value + [Message("user", prompt)];
      chatMessages := Some(history);
      var research := RunSearches(prompt, create, call);
      var reply := Answer(research, history, prompt, respond);
      chatMessages := Some(history + [Message("assistant", reply)]);
    }
  }

  /** Two searches in one session: the second reuses the sessions the first
      launched, so whatever a second launch would give is ignored, the servers
      are launched once, and the second turn's results are its own query's
      calls over the first turn's sessions. */
  method SessionsAreReused(query1: string, query2: string, first: SessionMap,
                           second: Result<SessionMap, string>, call1: ToolCaller, call2: ToolCaller)
    returns (r1: Result<map<Source, Entry>, string>, r2: Result<map<Source, Entry>, string>,
             stored: Option<SessionMap>, ghost launches: nat)
    ensures r1 == Ok(ResearchBundle(first, query1, call1))
    ensures r2 == Ok(ResearchBundle(first, query2, call2))
    ensures stored == Some(first) && launches == 1
  {
    var state := new ChatState();
    r1 := state.RunSearches(query1, Ok(first), call1);
    r2 := state.RunSearches(query2, second, call2);
    stored := state.mcpSessions;
    launches := state.launches;
  }
}
