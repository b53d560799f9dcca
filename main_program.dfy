/**
 * The older standalone entry point: flag parsing with its defaults, the
 * adjustments `main` makes to the parsed flags in place, and its own rendering
 * of the search result.
 */
module LegacyMain {
  import opened StringUtil
  import opened CloudResource
  import App

  const AppVer := "v1.2.0"

  /** How `main` ends: exit status 1, the version banner, or a search with the adjusted flags. */
  datatype Exit = ExitFailure(code: int) | PrintVersion(banner: string) | StartSearch

  /** The flag values `flag.Parse` fills in; `main` then overwrites some of them in place. */
  class Flags {
    var version: bool
    // output
    var silentOutput: bool
    var jsonOutput: bool
    var verboseOutput: bool
    // base
    var ipAddr: string
    var cloudSvc: string
    // feature flags
    var ipFuzzing: bool
    var advIPFuzzing: bool
    var orgSearch: bool
    var orgSearchXaccountRoleARN: string
    var orgSearchRoleName: string
    var orgSearchOrgUnitID: string
    var networkMapping: bool

    /** The default registered with each flag. */
    constructor ()
      ensures !version && !silentOutput && !jsonOutput && !verboseOutput
      ensures ipAddr == "" && cloudSvc == "all"
      ensures ipFuzzing && advIPFuzzing && !orgSearch && !networkMapping
      ensures orgSearchXaccountRoleARN == "" && orgSearchRoleName == "ip2cr" && orgSearchOrgUnitID == ""
    {
      version := false;
      silentOutput, jsonOutput, verboseOutput := false, false, false;
      ipAddr, cloudSvc := "", "all";
      ipFuzzing, advIPFuzzing := true, true;
      orgSearch := false;
      orgSearchXaccountRoleARN, orgSearchRoleName, orgSearchOrgUnitID := "", "ip2cr", "";
      networkMapping := false;
    }

    /**
     * The checks and adjustments of `main` after parsing. An empty IP address
     * fails with status 1 before `--version` is looked at; `--version` prints
     * the banner and stops; otherwise `--json` forces `--silent`, and a
     * specific service selector switches both fuzzing flags off.
     */
    method Launch() returns (exit: Exit)
      modifies this
      ensures old(ipAddr) == "" ==> exit == ExitFailure(1) && unchanged(this)
      ensures old(ipAddr) != "" && old(version) ==>
        exit == PrintVersion("ip-2-cloudresource " + AppVer + "\n") && unchanged(this)
      ensures old(ipAddr) != "" && !old(version) ==>
        && exit == StartSearch
        && silentOutput == (old(silentOutput) || old(jsonOutput))
        && ipFuzzing == (old(ipFuzzing) && old(cloudSvc) == "all")
        && advIPFuzzing == (old(advIPFuzzing) && old(cloudSvc) == "all")
      // the flags main reads but never writes
      ensures version == old(version) && jsonOutput == old(jsonOutput) && verboseOutput == old(verboseOutput)
      ensures ipAddr == old(ipAddr) && cloudSvc == old(cloudSvc)
      ensures orgSearch == old(orgSearch) && networkMapping == old(networkMapping)
      ensures orgSearchXaccountRoleARN == old(orgSearchXaccountRoleARN)
      ensures orgSearchRoleName == old(orgSearchRoleName) && orgSearchOrgUnitID == old(orgSearchOrgUnitID)
    {
      if ipAddr == "" {
        return ExitFailure(1);
      }

      if version {
        return PrintVersion("ip-2-cloudresource " + AppVer + "\n");
      }

      if jsonOutput {
        silentOutput := true;
      }

      // a specific service selection makes fuzzing the IP pointless
      if cloudSvc != "all" {
        ipFuzzing := false;
        advIPFuzzing := false;
      }

      return StartSearch;
    }
  }

  /** The log record announcing a match; this entry point does not name the service. */
  function FoundLog(r: Resource): string
  {
    "resource found -> [ " + r.RID + " ] in " + App.AccountLabel(r)
  }

  /**
   * `outputResults` of the standalone entry point: the same branches as the
   * application's renderer, with its own wording of the found message.
   */
  method OutputResults(matchedResource: Resource, networkMapping: bool, silent: bool, jsonOutput: bool)
    returns (lines: seq<App.Line>)
    ensures !silent && matchedResource.RID == "" ==> lines == [App.Log(App.NotFoundLog)]
    ensures !silent && matchedResource.RID != "" ==>
      && |lines| == (if networkMapping then 2 else 1)
      && lines[0] == App.Log(FoundLog(matchedResource))
      && (networkMapping ==> lines[1] == App.Log(App.NetworkMapLog(matchedResource.NetworkMap)))
    ensures silent && jsonOutput ==> lines == [App.Json(matchedResource)]
    ensures silent && !jsonOutput ==> lines == App.PlainLines(matchedResource)
    ensures !silent ==> forall i :: 0 <= i < |lines| ==> lines[i].Log?
  {
    var acctAliasFmted := Join(matchedResource.AccountAliases, ", ");
    if !silent {
      if matchedResource.RID != "" {
        var acctStr := App.AccountLabel(matchedResource);
        lines := [App.Log("resource found -> [ " + matchedResource.RID + " ] in " + acctStr)];
        if networkMapping {
          var networkMapGraph := App.NetworkMapGraph(matchedResource.NetworkMap);
          lines := lines + [App.Log("network map: [ " + networkMapGraph + " ]")];
        }
      } else {
        lines := [App.Log(App.NotFoundLog)];
      }
    } else {
      if jsonOutput {
        lines := [App.Json(matchedResource)];
      } else if matchedResource.RID != "" {
        lines := [App.Stdout(matchedResource.RID + "\n"), App.Stdout(matchedResource.AccountID + " (" + acctAliasFmted + ")")];
      } else {
        lines := [App.Stdout("not found\n")];
      }
    }
  }
}
