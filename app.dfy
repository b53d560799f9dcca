/**
 * The application layer: the supported-platform check that guards a search,
 * and the rendering of a search result for the user.
 */
module App {
  import opened StringUtil
  import opened CloudResource

  /** `GetSupportedPlatforms`: the platforms a search may target, in this order. */
  function GetSupportedPlatforms(): (platforms: seq<string>)
    ensures platforms == ["aws", "gcp", "azure"]
    ensures forall i :: 0 <= i < |platforms| ==> ToLower(platforms[i]) == platforms[i]
  {
    ["aws", "gcp", "azure"]
  }

  /**
   * The platform check at the start of `RunCloudSearch`: the platform is
   * lower-cased, then looked up among the supported ones; anything else is
   * rejected before a search starts.
   */
  method CheckPlatform(platform: string) returns (supported: bool, normalized: string)
    ensures normalized == ToLower(platform)
    ensures supported <==> (normalized == "aws" || normalized == "gcp" || normalized == "azure")
  {
    normalized := ToLower(platform);
    supported := normalized in GetSupportedPlatforms();
  }

  /**
   * Acceptance ignores case: two platform names that agree letter by letter
   * once lower-cased get the same verdict, so "AWS" is accepted like "aws".
   */
  lemma {:induction false} PlatformCheckIgnoresCase(p: string, q: string)
    requires |p| == |q| && forall i :: 0 <= i < |p| ==> LowerChar(p[i]) == LowerChar(q[i])
    ensures ToLower(p) in GetSupportedPlatforms() <==> ToLower(q) in GetSupportedPlatforms()
    ensures ToLower(p) == "aws" ==> ToLower(q) in GetSupportedPlatforms()
  {
    assert forall i :: 0 <= i < |p| ==> ToLower(p)[i] == ToLower(q)[i];
    assert ToLower(p) == ToLower(q);
  }

  const NetworkMapArrow := " -> "

  /**
   * The network-map graph of `OutputResults`: each element followed by an
   * arrow, except the last.
   */
  method NetworkMapGraph(networkMap: seq<string>) returns (graph: string)
    ensures graph == Join(networkMap, NetworkMapArrow)
    ensures networkMap == [] ==> graph == ""
    ensures |networkMap| == 1 ==> graph == networkMap[0]
  {
    graph := "";
    var networkMapResourceCnt := |networkMap|;
    for i := 0 to networkMapResourceCnt
      invariant graph == Join(networkMap[..i], NetworkMapArrow) + (if 0 < i < networkMapResourceCnt then NetworkMapArrow else "")
    {
      var networkResourceElmnt := networkMap[i];
      if i != networkMapResourceCnt - 1 {
        networkResourceElmnt := networkResourceElmnt + NetworkMapArrow;
      }
      assert networkMap[..i + 1] == networkMap[..i] + [networkMap[i]];
      if i > 0 {
        JoinSnoc(networkMap[..i], networkMap[i], NetworkMapArrow);
      } else {
        assert networkMap[..i + 1] == [networkMap[0]];
      }
      graph := graph + networkResourceElmnt;
    }
    assert networkMap[..networkMapResourceCnt] == networkMap;
  }

  /** How the matched account is described: the caller's own account, or the id with its aliases. */
  function AccountLabel(r: Resource): (text: string)
    ensures text == "current account" <==> r.AccountID == "current"
    ensures r.AccountID != "current" ==>
      text == "account [ " + r.AccountID + " ( " + Join(r.AccountAliases, ", ") + " ) ]"
  {
    if r.AccountID == "current" then "current account"
    else
      var text := "account [ " + r.AccountID + " ( " + Join(r.AccountAliases, ", ") + " ) ]";
      assert text[0] == 'a';
      text
  }

  /** One line of output: a log record, text on standard output, or a JSON document of a resource. */
  datatype Line = Log(text: string) | Stdout(text: string) | Json(resource: Resource)

  const NotFoundLog := "resource not found :( better luck next time!"

  /** The log record announcing a match. */
  function FoundLog(r: Resource): string
  {
    "resource found -> [ " + r.RID + " ] within " + r.CloudSvc + " service running in " + AccountLabel(r)
  }

  /** The log record carrying the network map. */
  function NetworkMapLog(networkMap: seq<string>): string
  {
    "network map: [ " + Join(networkMap, NetworkMapArrow) + " ]"
  }

  /** Silent plaintext output: the id, then the account and its aliases; or "not found". */
  function PlainLines(r: Resource): seq<Line>
  {
    if r.RID != "" then [Stdout(r.RID + "\n"), Stdout(r.AccountID + " (" + Join(r.AccountAliases, ", ") + ")")]
    else [Stdout("not found\n")]
  }

  /**
   * `OutputResults`: without `silent`, log the match (and the network map when
   * asked for), or only the not-found message; with `silent`, print the JSON
   * document or the plaintext lines. `jsonOutput` only matters when silent.
   */
  method OutputResults(matchedResource: Resource, networkMapping: bool, silent: bool, jsonOutput: bool)
    returns (lines: seq<Line>)
    ensures !silent && matchedResource.RID == "" ==> lines == [Log(NotFoundLog)]
    ensures !silent && matchedResource.RID != "" ==>
      && |lines| == (if networkMapping then 2 else 1)
      && lines[0] == Log(FoundLog(matchedResource))
      && (networkMapping ==> lines[1] == Log(NetworkMapLog(matchedResource.NetworkMap)))
    ensures silent && jsonOutput ==> lines == [Json(matchedResource)]
    ensures silent && !jsonOutput ==> lines == PlainLines(matchedResource)
    ensures !silent ==> forall i :: 0 <= i < |lines| ==> lines[i].Log?
  {
    var acctAliasFmted := Join(matchedResource.AccountAliases, ", ");
    if !silent {
      if matchedResource.RID != "" {
        var acctStr := AccountLabel(matchedResource);
        lines := [Log("resource found -> [ " + matchedResource.RID + " ] within " + matchedResource.CloudSvc
                      + " service running in " + acctStr)];
        if networkMapping {
          var networkMapGraph := NetworkMapGraph(matchedResource.NetworkMap);
          lines := lines + [Log("network map: [ " + networkMapGraph + " ]")];
        }
      } else {
        lines := [Log(NotFoundLog)];
      }
    } else {
      if jsonOutput {
        lines := [Json(matchedResource)];
      } else if matchedResource.RID != "" {
        lines := [Stdout(matchedResource.RID + "\n"), Stdout(matchedResource.AccountID + " (" + acctAliasFmted + ")")];
      } else {
        lines := [Stdout("not found\n")];
      }
    }
  }
}
