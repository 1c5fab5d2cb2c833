/** The `match args.retriever` block of the command-line driver: a retriever
    name selects a search backend and the arguments it is constructed with. */
module Retrievers {
  import opened Common

  /** The search-backend classes the driver can construct. */
  datatype Backend =
    | BingSearch
    | YouRM
    | BraveRM
    | DuckDuckGoSearchRM
    | SerperRM
    | TavilySearchRM
    | SearXNG

  /** A Python literal passed as a constructor argument. */
  datatype Value = Flag(b: bool) | Number(n: int) | Text(s: string)

  /** The API-key argument: the keyword it is passed under, the environment
      variable it is read from, and what `os.getenv` returned (`None` when unset). */
  datatype Credential =
    | NoCredential
    | FromEnv(keyword: string, variable: string, value: Option<string>)

  /** A backend together with the arguments the driver constructs it with:
      `k` when `k=search_top_k` is passed, `queryParams` when `query_params=`
      is passed, and any other fixed keyword arguments in `options`. */
  datatype RetrieverConfig = RetrieverConfig(
    backend: Backend,
    credential: Credential,
    k: Option<int>,
    queryParams: Option<map<string, Value>>,
    options: map<string, Value>)

  /** The accepted retriever names, in the order the `match` tests them. */
  const AcceptedNames: seq<string> := ["bing", "you", "brave", "duckduckgo", "serper", "tavily", "searxng"]

  const MessagePrefix: string := "Invalid retriever: "

  /** The name in double quotes, as the error message lists it. */
  function Quote(name: string): string
  {
    "\"" + name + "\""
  }

  /** The names in double quotes, separated by commas, the last after "or":
      `"a", "b", or "c"`. */
  function ChoiceList(names: seq<string>): string
    requires names != []
  {
    if |names| == 1 then Quote(names[0])
    else if |names| == 2 then Quote(names[0]) + ", or " + Quote(names[1])
    else Quote(names[0]) + ", " + ChoiceList(names[1..])
  }

  /** The `ValueError` message for a name outside the accepted ones. */
  function InvalidRetrieverMessage(name: string): string
  {
    MessagePrefix + name + ". Choose either " + ChoiceList(AcceptedNames)
  }

  /** `os.getenv(variable)` over an environment given as a map. */
  function Getenv(env: map<string, string>, variable: string): Option<string>
  {
    if variable in env then Some(env[variable]) else None
  }

  /** The name that selects each backend. */
  function NameOf(b: Backend): string
  {
    match b
    case BingSearch => "bing"
    case YouRM => "you"
    case BraveRM => "brave"
    case DuckDuckGoSearchRM => "duckduckgo"
    case SerperRM => "serper"
    case TavilySearchRM => "tavily"
    case SearXNG => "searxng"
  }

  /** The `match args.retriever` statement, with `search_top_k` and the process
      environment as parameters. A key that is not set is passed on as `None`. */
  function Dispatch(name: string, searchTopK: int, env: map<string, string>): (r: Result<RetrieverConfig>)
    ensures r.Success? <==> name in AcceptedNames
    ensures r.Failure? ==> r.error == ValueError(InvalidRetrieverMessage(name))
    ensures r.Success? ==> NameOf(r.value.backend) == name
  {
    match name
    case "bing" =>
      Success(RetrieverConfig(BingSearch,
        FromEnv("bing_search_api", "BING_SEARCH_API_KEY", Getenv(env, "BING_SEARCH_API_KEY")),
        Some(searchTopK), None, map[]))
    case "you" =>
      Success(RetrieverConfig(YouRM,
        FromEnv("ydc_api_key", "YDC_API_KEY", Getenv(env, "YDC_API_KEY")),
        Some(searchTopK), None, map[]))
    case "brave" =>
      Success(RetrieverConfig(BraveRM,
        FromEnv("brave_search_api_key", "BRAVE_API_KEY", Getenv(env, "BRAVE_API_KEY")),
        Some(searchTopK), None, map[]))
    case "duckduckgo" =>
      Success(RetrieverConfig(DuckDuckGoSearchRM, NoCredential, Some(searchTopK), None,
        map["safe_search" := Text("On"), "region" := Text("us-en")]))
    case "serper" =>
      Success(RetrieverConfig(SerperRM,
        FromEnv("serper_search_api_key", "SERPER_API_KEY", Getenv(env, "SERPER_API_KEY")),
        None, Some(map["autocorrect" := Flag(true), "num" := Number(10), "page" := Number(1)]), map[]))
    case "tavily" =>
      Success(RetrieverConfig(TavilySearchRM,
        FromEnv("tavily_search_api_key", "TAVILY_API_KEY", Getenv(env, "TAVILY_API_KEY")),
        Some(searchTopK), None, map["include_raw_content" := Flag(true)]))
    case "searxng" =>
      Success(RetrieverConfig(SearXNG,
        FromEnv("searxng_api_key", "SEARXNG_API_KEY", Getenv(env, "SEARXNG_API_KEY")),
        Some(searchTopK), None, map[]))
    case _ =>
      Failure(ValueError(InvalidRetrieverMessage(name)))
  }

  /** Every backend is reached by its own name: `NameOf` and `Dispatch` are inverse. */
  lemma DispatchNameOf(b: Backend, searchTopK: int, env: map<string, string>)
    ensures Dispatch(NameOf(b), searchTopK, env).Success?
    ensures Dispatch(NameOf(b), searchTopK, env).value.backend == b
  {
  }

  /** `k=search_top_k` is passed to every backend but Serper, which gets the
      fixed query parameters instead. */
  lemma TopKUnlessSerper(name: string, searchTopK: int, env: map<string, string>)
    requires name in AcceptedNames
    ensures var c := Dispatch(name, searchTopK, env).value;
      (c.backend == SerperRM ==>
         c.k == None &&
         c.queryParams == Some(map["autocorrect" := Flag(true), "num" := Number(10), "page" := Number(1)])) &&
      (c.backend != SerperRM ==> c.k == Some(searchTopK) && c.queryParams == None)
  {
  }

  /** DuckDuckGo reads no key and searches with safe search on in the us-en
      region; Tavily asks for raw page content; the others take no extra options. */
  lemma FixedOptions(name: string, searchTopK: int, env: map<string, string>)
    requires name in AcceptedNames
    ensures var c := Dispatch(name, searchTopK, env).value;
      (c.backend == DuckDuckGoSearchRM ==>
         c.credential == NoCredential && c.options == map["safe_search" := Text("On"), "region" := Text("us-en")]) &&
      (c.backend == TavilySearchRM ==> c.options == map["include_raw_content" := Flag(true)]) &&
      (c.backend !in {DuckDuckGoSearchRM, TavilySearchRM} ==> c.options == map[])
  {
  }

  /** The environment variable each backend's key is read from; DuckDuckGo reads none. */
  function KeyVariable(b: Backend): Option<string>
  {
    match b
    case BingSearch => Some("BING_SEARCH_API_KEY")
    case YouRM => Some("YDC_API_KEY")
    case BraveRM => Some("BRAVE_API_KEY")
    case DuckDuckGoSearchRM => None
    case SerperRM => Some("SERPER_API_KEY")
    case TavilySearchRM => Some("TAVILY_API_KEY")
    case SearXNG => Some("SEARXNG_API_KEY")
  }

  /** Every backend but DuckDuckGo is handed whatever `os.getenv` returns for
      its own variable, unset or not; no two backends read the same variable. */
  lemma CredentialsFromEnvironment(name1: string, name2: string, searchTopK: int, env: map<string, string>)
    requires name1 in AcceptedNames && name2 in AcceptedNames
    ensures var cfg := Dispatch(name1, searchTopK, env).value;
      (cfg.credential.NoCredential? <==> KeyVariable(cfg.backend) == None) &&
      (cfg.credential.NoCredential? <==> name1 == "duckduckgo") &&
      (cfg.credential.FromEnv? ==>
         KeyVariable(cfg.backend) == Some(cfg.credential.variable) &&
         cfg.credential.value == Getenv(env, cfg.credential.variable))
    ensures var c1, c2 := Dispatch(name1, searchTopK, env).value.credential, Dispatch(name2, searchTopK, env).value.credential;
      c1.FromEnv? && c2.FromEnv? && c1.variable == c2.variable ==> name1 == name2
  {
  }

  /** The error message quotes the rejected name right after its prefix. */
  lemma InvalidMessageNamesValue(name: string)
    ensures OccursAt(InvalidRetrieverMessage(name), name, |MessagePrefix|)
  {
  }

  /** The first name opens the rendering. */
  lemma QuotedFirst(names: seq<string>)
    requires names != []
    ensures OccursAt(ChoiceList(names), Quote(names[0]), 0)
  {
    var q := Quote(names[0]);
    var rest := if |names| == 1 then "" else if |names| == 2 then ", or " + Quote(names[1]) else ", " + ChoiceList(names[1..]);
    assert ChoiceList(names) == q + rest;
    OccursInContext("", q, rest, q, 0);
  }

  /** Of two names, the second closes the rendering, after "or". */
  lemma QuotedSecondOfTwo(names: seq<string>)
    requires |names| == 2
    ensures OccursAt(ChoiceList(names), Quote(names[1]), |Quote(names[0]) + ", or "|)
  {
    var q := Quote(names[1]);
    assert ChoiceList(names) == Quote(names[0]) + ", or " + q;
    OccursInContext(Quote(names[0]) + ", or ", q, "", q, 0);
  }

  /** Of three or more names, an occurrence in the rendering of all but the
      first is one in the rendering of the whole list. */
  lemma QuotedInTail(names: seq<string>, q: string, i: int)
    requires |names| > 2 && OccursAt(ChoiceList(names[1..]), q, i)
    ensures OccursAt(ChoiceList(names), q, |Quote(names[0]) + ", "| + i)
  {
    assert ChoiceList(names) == Quote(names[0]) + ", " + ChoiceList(names[1..]) + "";
    OccursInContext(Quote(names[0]) + ", ", ChoiceList(names[1..]), "", q, i);
  }

  /** Every name of a list occurs, quoted, in its rendering. */
  lemma {:induction false} QuotedInChoiceList(names: seq<string>, n: nat)
    requires n < |names|
    ensures Contains(ChoiceList(names), Quote(names[n]))
  {
    if n == 0 {
      QuotedFirst(names);
    } else if |names| == 2 {
      QuotedSecondOfTwo(names);
    } else {
      var tail := names[1..];
      assert tail[n - 1] == names[n];
      QuotedInChoiceList(tail, n - 1);
      var i :| OccursAt(ChoiceList(tail), Quote(names[n]), i);
      QuotedInTail(names, Quote(names[n]), i);
    }
  }

  /** The error message lists every accepted name, in double quotes. */
  lemma InvalidMessageListsChoices(name: string)
    ensures forall a :: a in AcceptedNames ==> Contains(InvalidRetrieverMessage(name), Quote(a))
  {
    var before := MessagePrefix + name + ". Choose either ";
    assert InvalidRetrieverMessage(name) == before + ChoiceList(AcceptedNames) + "";
    forall n | 0 <= n < |AcceptedNames|
      ensures Contains(InvalidRetrieverMessage(name), Quote(AcceptedNames[n]))
    {
      QuotedInChoiceList(AcceptedNames, n);
      var i :| OccursAt(ChoiceList(AcceptedNames), Quote(AcceptedNames[n]), i);
      OccursInContext(before, ChoiceList(AcceptedNames), "", Quote(AcceptedNames[n]), i);
    }
  }
}
