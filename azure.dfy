/** The Azure controller's service dispatch. */
module Azure {
  import opened Errors
  import opened CloudResource

  /** `GetSupportedSvcs`: the Azure services a search may name. */
  function GetSupportedSvcs(): (svcs: seq<string>)
    ensures svcs == ["virtual_machines"]
  {
    ["virtual_machines"]
  }

  function UnknownSvcMsg(cloudSvc: string): string
  {
    "unknown Azure service provided: '" + cloudSvc + "'"
  }

  /**
   * `SearchAzureSvc`: the resource passed in always comes back unchanged;
   * the service name, compared exactly, decides only whether an error comes
   * with it.
   */
  function SearchAzureSvc(subscriptionID: string, ipAddr: string, cloudSvc: string, matchingResource: Resource)
    : (o: Outcome)
    ensures o.res == matchingResource
    ensures o.err == Nil <==> cloudSvc in GetSupportedSvcs()
    ensures o.err != Nil ==> o.err == Error(UnknownSvcMsg(cloudSvc))
  {
    match cloudSvc
    case "virtual_machines" => Outcome(matchingResource, Nil)
    case _ => Outcome(matchingResource, Error(UnknownSvcMsg(cloudSvc)))
  }

  /** Every service the controller advertises is one it accepts. */
  lemma SupportedSvcsAccepted(subscriptionID: string, ipAddr: string, matchingResource: Resource)
    ensures forall svc :: svc in GetSupportedSvcs() ==>
      SearchAzureSvc(subscriptionID, ipAddr, svc, matchingResource).err == Nil
  {
  }

  /** The comparison is case-sensitive: another spelling of the one supported service is refused. */
  lemma SvcMatchIsCaseSensitive(subscriptionID: string, ipAddr: string, matchingResource: Resource)
    ensures SearchAzureSvc(subscriptionID, ipAddr, "Virtual_Machines", matchingResource).err
            == Error("unknown Azure service provided: 'Virtual_Machines'")
  {
  }
}
