/** `get_kamiwaza_endpoint` of the command-line driver: the endpoint of the
    largest running deployment, ending in `/v1/`. The control plane's
    `list_deployments()` answer is the parameter. */
module KamiwazaCli {
  import opened Common
  import opened Deployments
  import opened Endpoint

  method GetKamiwazaEndpoint(deployments: seq<Deployment>) returns (r: Result<string>)
    ensures r.Failure? <==> !HasEligible(deployments)
    ensures r.Failure? ==> r.error == RuntimeError(NoDeploymentMessage)
    ensures r.Success? ==>
      exists i :: IsChoice(deployments, i) &&
        r.value == Format(PairOf(deployments[i]).instance.hostName, deployments[i].lbPort, CliPath)
    ensures r.Success? ==>
      exists i :: IsChoice(deployments, i) &&
        Parse(r.value, CliPath) == Some((PairOf(deployments[i]).instance.hostName, deployments[i].lbPort))
  {
    var valid := CollectValid(deployments);
    ValidCandidatesEmpty(deployments);
    if valid == [] {
      return Failure(RuntimeError(NoDeploymentMessage));
    }
    ChosenDeployment(deployments);
    var chosen := PickLargest(valid);
    ParseFormat(chosen.instance.hostName, chosen.deployment.lbPort, CliPath);
    r := Success(Format(chosen.instance.hostName, chosen.deployment.lbPort, CliPath));
  }
}
