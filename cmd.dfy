/**
 * The root command: the flag variables, their defaults, and the validation and
 * normalisation `RunE` applies to them before starting a search.
 */
module Cmd {
  import opened Errors
  import opened StringUtil

  const IPRequiredMsg := "IP address is required"

  /** The package-level flag variables, which `RunE` overwrites in place. */
  class RootCmd {
    // output flags
    var silentOutput: bool
    var jsonOutput: bool
    var verboseOutput: bool
    // base flags
    var platform: string
    var ipAddr: string
    var cloudSvc: string
    var tenantID: string
    // feature flags
    var ipFuzzing: bool
    var advIPFuzzing: bool
    var orgSearch: bool
    var networkMapping: bool
    // AWS Organizations flags
    var orgSearchXaccountRoleARN: string
    var orgSearchRoleName: string
    var orgSearchOrgUnitID: string

    /** The defaults registered for each flag in `init`. */
    constructor ()
      ensures !silentOutput && !jsonOutput && !verboseOutput
      ensures platform == "aws" && ipAddr == "" && cloudSvc == "all" && tenantID == ""
      ensures ipFuzzing && advIPFuzzing && !orgSearch && !networkMapping
      ensures orgSearchXaccountRoleARN == "" && orgSearchRoleName == "ip2cr" && orgSearchOrgUnitID == ""
    {
      silentOutput, jsonOutput, verboseOutput := false, false, false;
      platform, ipAddr, cloudSvc, tenantID := "aws", "", "all", "";
      ipFuzzing, advIPFuzzing, orgSearch, networkMapping := true, true, false, false;
      orgSearchXaccountRoleARN, orgSearchRoleName, orgSearchOrgUnitID := "", "ip2cr", "";
    }

    /**
     * The validation and flag normalisation of `RunE`, up to the hand-off to
     * the search. An empty IP address is the only error; `--json` implies
     * `--silent`; a specific service selector turns both fuzzing flags off;
     * any platform other than exactly "aws" turns every AWS-only feature off.
     */
    method RunE() returns (err: Error)
      modifies this
      ensures old(ipAddr) == "" ==> err == Error(IPRequiredMsg) && unchanged(this)
      ensures old(ipAddr) != "" ==> err == Nil
      ensures err.Error? ==> err.msg == IPRequiredMsg
      ensures old(ipAddr) != "" ==>
        && silentOutput == (old(silentOutput) || old(jsonOutput))
        && ipFuzzing == (old(ipFuzzing) && old(cloudSvc) == "all" && old(platform) == "aws")
        && advIPFuzzing == (old(advIPFuzzing) && old(cloudSvc) == "all" && old(platform) == "aws")
        && orgSearch == (old(orgSearch) && old(platform) == "aws")
        && networkMapping == (old(networkMapping) && old(platform) == "aws")
      // the flags RunE reads but never writes
      ensures jsonOutput == old(jsonOutput) && verboseOutput == old(verboseOutput)
      ensures platform == old(platform) && ipAddr == old(ipAddr) && cloudSvc == old(cloudSvc)
      ensures tenantID == old(tenantID)
      ensures orgSearchXaccountRoleARN == old(orgSearchXaccountRoleARN)
      ensures orgSearchRoleName == old(orgSearchRoleName) && orgSearchOrgUnitID == old(orgSearchOrgUnitID)
    {
      if ipAddr == "" {
        return Error(IPRequiredMsg);
      }

      if jsonOutput {
        silentOutput := true;
      }

      // a specific service selection makes fuzzing the IP pointless
      if cloudSvc != "all" {
        ipFuzzing := false;
        advIPFuzzing := false;
      }

      // restrict the features to those the platform supports
      if platform != "aws" {
        ipFuzzing := false;
        advIPFuzzing := false;
        orgSearch := false;
        networkMapping := false;
      } else if platform == "gcp" || platform == "azure" {
        // the tenant-ID check: "gcp" and "azure" were already taken by the first case
        assert false;
      }

      return Nil;
    }

    /**
     * `RunE` as its tenant check evidently intends: a platform other than "aws"
     * still loses the AWS-only features, and "gcp" or "azure" without a tenant
     * id is then refused.
     */
    method RunEWithTenantCheck() returns (err: Error)
      modifies this
      ensures old(ipAddr) == "" ==> err == Error(IPRequiredMsg) && unchanged(this)
      ensures old(ipAddr) != "" && NeedsTenant(old(platform)) && old(tenantID) == "" ==>
        err == Error(TenantRequiredMsg(old(platform)))
      ensures old(ipAddr) != "" && !(NeedsTenant(old(platform)) && old(tenantID) == "") ==> err == Nil
      ensures old(ipAddr) != "" ==>
        && silentOutput == (old(silentOutput) || old(jsonOutput))
        && ipFuzzing == (old(ipFuzzing) && old(cloudSvc) == "all" && old(platform) == "aws")
        && advIPFuzzing == (old(advIPFuzzing) && old(cloudSvc) == "all" && old(platform) == "aws")
        && orgSearch == (old(orgSearch) && old(platform) == "aws")
        && networkMapping == (old(networkMapping) && old(platform) == "aws")
      ensures jsonOutput == old(jsonOutput) && verboseOutput == old(verboseOutput)
      ensures platform == old(platform) && ipAddr == old(ipAddr) && cloudSvc == old(cloudSvc)
      ensures tenantID == old(tenantID)
      ensures orgSearchXaccountRoleARN == old(orgSearchXaccountRoleARN)
      ensures orgSearchRoleName == old(orgSearchRoleName) && orgSearchOrgUnitID == old(orgSearchOrgUnitID)
    {
      if ipAddr == "" {
        return Error(IPRequiredMsg);
      }

      if jsonOutput {
        silentOutput := true;
      }

      if cloudSvc != "all" {
        ipFuzzing := false;
        advIPFuzzing := false;
      }

      if platform != "aws" {
        ipFuzzing := false;
        advIPFuzzing := false;
        orgSearch := false;
        networkMapping := false;
      }
      if NeedsTenant(platform) && tenantID == "" {
        return Error(TenantRequiredMsg(platform));
      }

      return Nil;
    }
  }

  /** The platforms whose searches are scoped by a tenant (project or subscription). */
  predicate NeedsTenant(platform: string)
  {
    platform == "gcp" || platform == "azure"
  }

  function TenantRequiredMsg(platform: string): string
  {
    "tenant ID is required for searching " + ToUpper(platform)
  }

  /** As written, a GCP search without a tenant id passes validation. */
  method GcpWithoutTenantAccepted() returns (err: Error)
    ensures err == Nil
  {
    var cmd := new RootCmd();
    cmd.ipAddr, cmd.platform := "10.0.0.1", "gcp";
    err := cmd.RunE();
  }

  /** With the tenant check in force, the same invocation is refused. */
  method GcpWithoutTenantRejected() returns (err: Error)
    ensures err == Error("tenant ID is required for searching GCP")
  {
    var cmd := new RootCmd();
    cmd.ipAddr, cmd.platform := "10.0.0.1", "gcp";
    err := cmd.RunEWithTenantCheck();
    assert ToUpper("gcp") == "GCP";
  }
}
