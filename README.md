# Kamiwaza endpoint resolution and run setup for the STORM pipeline

This project models, in Dafny, the part of the STORM knowledge-curation drivers
that decides *where* the language models run and *which* search backend feeds
them:

- **Deployment resolver** (`get_kamiwaza_endpoint`, in two copies). It takes the
  deployments that the Kamiwaza control plane lists. It keeps each deployment
  whose status is `"DEPLOYED"` and that has at least one `"DEPLOYED"` instance,
  and pairs it with its first such instance. It raises `RuntimeError` when no
  deployment is kept. Otherwise it sorts the pairs by `vram_allocation or 0`,
  descending, and takes the first. Python's sort is stable even with
  `reverse=True`, so among equal largest values the earliest deployment in the
  input wins. It then formats `http://{host_name}:{lb_port}/v1/`. The
  command-line copy returns that string. The web front-end copy drops the
  trailing slash and also returns the deployment's `m_name`.
- **Retriever dispatch** (the `match args.retriever` block). Seven names each
  select a search backend. The model records, for each backend, which
  environment variable supplies its key, whether `k = search_top_k` is passed,
  and any fixed arguments. Any other name raises `ValueError`.
- **Stage model bank**. Five `KamiwazaModel` handles share the resolved
  `api_base` and get budgets of 500, 500, 400, 700 and 4000 tokens. Setter
  calls register them in the LM configuration object.
- **Run setup** (`main` up to the runner). It resolves the endpoint, registers
  the models, fills the engine arguments and builds the retriever, in the
  source's order.

Modules: `Common` (Option, Result, the two Python exceptions, substring
occurrence), `Decimal` (Python `str()` on an `int` and its inverse),
`Endpoint` (URL formatting and parsing), `Deployments` (data model, the filter
loop, the stable descending sort, the choice rule and its lemmas),
`KamiwazaCli` and `DemoLight` (the two resolver copies), `Retrievers`,
`StageModels`, and `CliMain`.

The choice rule is stated once, as `Deployments.IsChoice(ds, i)`. Deployment
`i` is eligible, no eligible deployment has more vram, and every earlier
eligible deployment has strictly less. Both resolvers are proved to return the
endpoint of the deployment that satisfies `IsChoice`, and `ChoiceUnique` shows
that at most one deployment does.

Inputs that the Python code fetches are parameters of the model:

- the result of `client.serving.list_deployments()` is a `seq<Deployment>`;
- the process environment read by `os.getenv` is a `map<string, string>`. This is the environment after `load_api_key(toml_file_path='secrets.toml')` has copied the secrets file into it (line 64 of the command-line driver);
- the parsed command-line options are an `Args` value.

## Model

| member | source | states |
|---|---|---|
| `Deployments.RunningInstances` | examples/storm_examples/run_storm_wiki_kamiwaza.py:44 | the comprehension keeps exactly the instances whose status is `"DEPLOYED"` (both directions of membership) and never grows the list |
| `Deployments.FirstRunningInstance` | examples/storm_examples/run_storm_wiki_kamiwaza.py:44-46 | `running_instances[0]` is the instance at the first position whose status is `"DEPLOYED"`; every earlier instance is not deployed |
| `Deployments.CollectValid` | examples/storm_examples/run_storm_wiki_kamiwaza.py:41-46 | the loop that appends `(deployment, running_instances[0])` builds exactly `ValidCandidates` of the input, in input order |
| `Deployments.ValidCandidatesMembers` | examples/storm_examples/run_storm_wiki_kamiwaza.py:41-46 | a pair is in `valid_deployments` iff some input deployment is `"DEPLOYED"` with a running instance and the pair is that deployment with its first running instance |
| `Deployments.ValidCandidatesEmpty` | examples/storm_examples/run_storm_wiki_kamiwaza.py:41-49 | `valid_deployments` is empty exactly when no deployment is eligible, which is the condition for the `RuntimeError` |
| `Deployments.InsertByVram` | examples/storm_examples/run_storm_wiki_kamiwaza.py:52-56 | one insertion step of the stable sort adds exactly the inserted pair (length and multiset) |
| `Deployments.SortByVramDesc` | examples/storm_examples/run_storm_wiki_kamiwaza.py:52-56 | `sorted(..., reverse=True)` returns a permutation of its input (same length, same multiset) |
| `Deployments.SortByVramDescSorted` | examples/storm_examples/run_storm_wiki_kamiwaza.py:52-56 | the sorted list is in non-increasing order of `vram_allocation or 0` |
| `Deployments.SortHeadIsFirstMax` | examples/storm_examples/run_storm_wiki_kamiwaza.py:52-56 | element `[0]` of the stable descending sort is the earliest candidate whose vram is the largest |
| `Deployments.FirstMaxUnique` | examples/storm_examples/run_storm_wiki_kamiwaza.py:52-56 | the "largest, earliest among ties" position of a candidate list is unique |
| `Deployments.PickLargest` | examples/storm_examples/run_storm_wiki_kamiwaza.py:52-56 | the picked pair has vram at least that of every candidate, and every earlier candidate has strictly less |
| `Deployments.ChosenDeployment` | examples/storm_examples/run_storm_wiki_kamiwaza.py:41-56 | when some deployment is eligible, filtering then picking yields `PairOf(ds[i])` for the `i` with `IsChoice(ds, i)`: eligible, maximal vram, and the earliest among ties |
| `Deployments.ChoiceUnique` | examples/storm_examples/run_storm_wiki_kamiwaza.py:51-56 | the choice rule determines a single deployment, so the result is deterministic |
| `Deployments.ChoiceVramOrderIndependent` | examples/storm_examples/run_storm_wiki_kamiwaza.py:51-56 | for two orderings of the same deployments, the chosen deployments have the same vram: the largest among eligible ones |
| `KamiwazaCli.GetKamiwazaEndpoint` | examples/storm_examples/run_storm_wiki_kamiwaza.py:32-60 | fails with `RuntimeError("No valid running Kamiwaza deployments found")` iff no deployment is eligible; otherwise returns `http://host:port/v1/` for the `IsChoice` deployment and its first running instance, and parsing the result gives back that host and port |
| `DemoLight.GetKamiwazaEndpoint` | frontend/demo_light/storm.py:15-46 | the same failure condition and choice; the endpoint ends in `/v1`, and the returned model name is the `m_name` of the deployment whose port the endpoint carries |
| `Endpoint.ParseFormat` | examples/storm_examples/run_storm_wiki_kamiwaza.py:59 | parsing `http://{host}:{port}{path}` (splitting at the last colon) gives back host and port, for any host, even one containing colons |
| `Endpoint.FormatInjective` | examples/storm_examples/run_storm_wiki_kamiwaza.py:59 | two endpoints with the same path are equal only when host and port are equal |
| `Endpoint.CliEndpointAddsSlash` | frontend/demo_light/storm.py:45 | for the same host and port, the command-line endpoint is the web endpoint plus `/`, and both parse to the same host and port |
| `Decimal.NatToString` | examples/storm_examples/run_storm_wiki_kamiwaza.py:59 | `str()` of a non-negative port is a non-empty string of digits with no leading zero |
| `Decimal.IntToString` | examples/storm_examples/run_storm_wiki_kamiwaza.py:59 | `str()` of an `int` starts with `-` exactly for negative values; the rest is digits |
| `Decimal.ParseNatToString` | examples/storm_examples/run_storm_wiki_kamiwaza.py:59 | reading the digits of `str(n)` gives back `n` |
| `Decimal.IntStringRoundTrip` | examples/storm_examples/run_storm_wiki_kamiwaza.py:59 | `int(str(n)) == n` for every integer |
| `Decimal.IntToStringInjective` | examples/storm_examples/run_storm_wiki_kamiwaza.py:59 | distinct ports print differently |
| `Retrievers.Dispatch` | examples/storm_examples/run_storm_wiki_kamiwaza.py:95-111 | succeeds iff the name is one of the seven accepted names, and the backend it selects is the one carrying that name; otherwise raises `ValueError` with the invalid-retriever message |
| `Retrievers.DispatchNameOf` | examples/storm_examples/run_storm_wiki_kamiwaza.py:95-109 | every backend is reached, by its own name (`NameOf` and `Dispatch` are inverse) |
| `Retrievers.TopKUnlessSerper` | examples/storm_examples/run_storm_wiki_kamiwaza.py:97-109 | `k = search_top_k` is passed to every backend except Serper; Serper alone gets `query_params = {autocorrect: True, num: 10, page: 1}` |
| `Retrievers.FixedOptions` | examples/storm_examples/run_storm_wiki_kamiwaza.py:102-107 | DuckDuckGo reads no key and uses `safe_search='On'`, `region='us-en'`; Tavily sets `include_raw_content=True`; no other backend gets extra options |
| `Retrievers.CredentialsFromEnvironment` | examples/storm_examples/run_storm_wiki_kamiwaza.py:97-109 | every backend except DuckDuckGo reads the variable `KeyVariable` names for it (`BING_SEARCH_API_KEY`, `YDC_API_KEY`, `BRAVE_API_KEY`, `SERPER_API_KEY`, `TAVILY_API_KEY`, `SEARXNG_API_KEY`) and gets exactly what `os.getenv` returns for it, `None` included; no two backends read the same variable |
| `Retrievers.InvalidMessageNamesValue` | examples/storm_examples/run_storm_wiki_kamiwaza.py:110-111 | the error message contains the rejected name, right after `Invalid retriever: ` |
| `Retrievers.QuotedInChoiceList` | examples/storm_examples/run_storm_wiki_kamiwaza.py:111 | every name of a list appears in double quotes in the rendered `"a", "b", or "c"` list |
| `Retrievers.InvalidMessageListsChoices` | examples/storm_examples/run_storm_wiki_kamiwaza.py:111 | the error message lists every accepted retriever name in double quotes |
| `StageModels.StageModelsShareEndpoint` | examples/storm_examples/run_storm_wiki_kamiwaza.py:73-77 | the five handles share `api_base` and the model name; the polish budget (4000) is the largest; two handles are equal only for the same stage or for the two 500-token research roles |
| `StageModels.LMConfigs.constructor` | examples/storm_examples/run_storm_wiki_kamiwaza.py:65 | a fresh LM configuration has no model in any slot |
| `StageModels.LMConfigs.SetConvSimulatorLm` | examples/storm_examples/run_storm_wiki_kamiwaza.py:79 | sets the conversation-simulator slot and leaves the other four unchanged |
| `StageModels.LMConfigs.SetQuestionAskerLm` | examples/storm_examples/run_storm_wiki_kamiwaza.py:80 | sets the question-asker slot and leaves the other four unchanged |
| `StageModels.LMConfigs.SetOutlineGenLm` | examples/storm_examples/run_storm_wiki_kamiwaza.py:81 | sets the outline slot and leaves the other four unchanged |
| `StageModels.LMConfigs.SetArticleGenLm` | examples/storm_examples/run_storm_wiki_kamiwaza.py:82 | sets the article slot and leaves the other four unchanged |
| `StageModels.LMConfigs.SetArticlePolishLm` | examples/storm_examples/run_storm_wiki_kamiwaza.py:83 | sets the polish slot and leaves the other four unchanged |
| `StageModels.ConfigureStageModels` | examples/storm_examples/run_storm_wiki_kamiwaza.py:73-83 | after the five constructions and setter calls, every slot holds `KamiwazaModel('model', budget, api_base)` with budgets 500/500/400/700/4000 |
| `CliMain.PrepareRun` | examples/storm_examples/run_storm_wiki_kamiwaza.py:63-111 | fails iff no deployment is eligible or the retriever name is unknown, an omitted `--retriever` (`None`) included; a missing deployment is reported first; on success the LM configuration is set up at the chosen endpoint, the engine arguments copy the options, and the retriever is the dispatch result for `search_top_k` |

## Left out

- The `KamiwazaClient` construction and the `list_deployments()` network call: the deployment list is a parameter.
- `load_api_key`, `secrets.toml`, `input('Topic: ')` and the argparse definitions: the parsed options are a parameter. argparse's `choices` list rejects unknown names given with `--retriever`. The flag has no default and is not required, though. When it is left out, `args.retriever` is `None`, which matches no case, so the default branch raises `ValueError("Invalid retriever: None. ...")`. The model holds the option as `Option<string>`, and `CliMain.PrepareRun` dispatches `None` as the name `"None"`.
- `--temperature`, `--top_p`, `--retrieve-top-k`, `--remove-duplicate` and the four `--do-*` stage toggles: none of them reaches the code modelled here. The first four are floats or are never passed on. The toggles go only to `runner.run`.
- `STORMWikiRunner` with `run`, `post_run` and `summary`: stage sequencing, resumption from stored artifacts and topic-directory naming all happen inside the external `knowledge_storm` library, whose source is not part of this model.
- The search-backend classes and how they search: the model records only the arguments they are constructed with.
- Missing credentials: the code passes `os.getenv(...)` through even when it is `None`, so the model raises no missing-credential error.
- The web front end beyond `get_kamiwaza_endpoint`: Streamlit pages, session state, copying secrets into the environment and the fallback to OpenAI on failure are UI and ambient state.
- `Retrievers.InvalidRetrieverMessage`: the list of choices is produced by `ChoiceList` over the seven names in match order, giving `"bing", "you", ..., "tavily", or "searxng"`. The model does not prove this equal to the Python literal character by character.
- `vram_allocation` and `lb_port` are modelled as unbounded integers. The source gives no type for them. `or 0` maps both `None` and `0` to `0`; the model treats `None` as `0` and keeps every integer, including `0`, as itself, which gives the same key.
- `Deployments.SortByVramDesc`: its stability is proved only through the property that matters here: its first element is the earliest maximal candidate (`SortHeadIsFirstMax`). The general "equal keys keep their relative order" statement is not proved.
