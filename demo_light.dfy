/** `get_kamiwaza_endpoint` of the web front end: the same choice as the
    command-line driver, but the endpoint ends in `/v1` and the chosen
    deployment's model name is returned with it. */
module DemoLight {
  import opened Common
  import opened Deployments
  import opened Endpoint

  method GetKamiwazaEndpoint(deployments: seq<Deployment>) returns (r: Result<(string, string)>)
    ensures r.Failure? <==> !HasEligible(deployments)
    ensures r.Failure? ==> r.error == RuntimeError(NoDeploymentMessage)
    ensures r.Success? ==>
      exists i :: IsChoice(deployments, i) &&
        r.value.0 == Format(PairOf(deployments[i]).instance.hostName, deployments[i].lbPort, UiPath) &&
        r.value.1 == deployments[i].mName
    ensures r.Success? ==>
      exists i :: IsChoice(deployments, i) &&
        Parse(r.value.0, UiPath) == Some((PairOf(deployments[i]).instance.hostName, deployments[i].lbPort)) &&
        r.value.1 == deployments[i].mName
  {
    var valid := CollectValid(deployments);
    ValidCandidatesEmpty(deployments);
    if valid == [] {
      return Failure(RuntimeError(NoDeploymentMessage));
    }
    ChosenDeployment(deployments);
    var chosen := PickLargest(valid);
    ParseFormat(chosen.instance.hostName, chosen.deployment.lbPort, UiPath);
    r := Success((Format(chosen.instance.hostName, chosen.deployment.lbPort, UiPath), chosen.deployment.mName));
  }
}
