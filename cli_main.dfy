/** `main` of the command-line driver up to the construction of the runner:
    resolve the endpoint, register the five stage models, gather the engine
    arguments and build the retriever. */
module CliMain {
  import opened Common
  import opened Deployments
  import opened Endpoint
  import KamiwazaCli
  import opened StageModels
  import opened Retrievers

  /** The parsed command-line options that reach the code shown. */
  datatype Args = Args(
    outputDir: string,
    maxThreadNum: int,
    retriever: Option<string>,
    maxConvTurn: int,
    maxPerspective: int,
    searchTopK: int)

  /** `STORMWikiRunnerArguments` as the driver fills it. */
  datatype EngineArgs = EngineArgs(
    outputDir: string,
    maxConvTurn: int,
    maxPerspective: int,
    searchTopK: int,
    maxThreadNum: int)

  /** The text `args.retriever` takes in the f-string of the error message:
      an omitted `--retriever` flag leaves it `None`, which matches no case. */
  function RetrieverName(retriever: Option<string>): string
  {
    match retriever
    case None => "None"
    case Some(name) => name
  }

  /** What the runner is constructed from. */
  datatype RunSetup = RunSetup(lmConfigs: LMConfigs, engineArgs: EngineArgs, retriever: RetrieverConfig)

  /** Lines 65-111, with the control plane's deployment list and the process
      environment as parameters. The endpoint is resolved before the retriever
      name is looked at, so a missing deployment is reported first. */
  method PrepareRun(args: Args, deployments: seq<Deployment>, env: map<string, string>) returns (r: Result<RunSetup>)
    ensures r.Failure? <==> !HasEligible(deployments) || RetrieverName(args.retriever) !in AcceptedNames
    ensures !HasEligible(deployments) ==> r == Failure(RuntimeError(NoDeploymentMessage))
    ensures HasEligible(deployments) && RetrieverName(args.retriever) !in AcceptedNames ==>
      r == Failure(ValueError(InvalidRetrieverMessage(RetrieverName(args.retriever))))
    ensures r.Success? ==>
      exists i :: IsChoice(deployments, i) &&
        r.value.lmConfigs.ConfiguredFor(Format(PairOf(deployments[i]).instance.hostName, deployments[i].lbPort, CliPath))
    ensures r.Success? ==>
      r.value.engineArgs == EngineArgs(args.outputDir, args.maxConvTurn, args.maxPerspective, args.searchTopK, args.maxThreadNum) &&
      Dispatch(RetrieverName(args.retriever), args.searchTopK, env) == Success(r.value.retriever)
    ensures r.Success? ==> fresh(r.value.lmConfigs)
  {
    var lmConfigs := new LMConfigs();
    var endpoint := KamiwazaCli.GetKamiwazaEndpoint(deployments);
    if endpoint.Failure? {
      return Failure(endpoint.error);
    }
    var apiBase := endpoint.value;
    ConfigureStageModels(lmConfigs, apiBase);
    var engineArgs := EngineArgs(args.outputDir, args.maxConvTurn, args.maxPerspective, args.searchTopK, args.maxThreadNum);
    var rm := Dispatch(RetrieverName(args.retriever), engineArgs.searchTopK, env);
    if rm.Failure? {
      return Failure(rm.error);
    }
    r := Success(RunSetup(lmConfigs, engineArgs, rm.value));
  }
}
