/**
 * The AWS search orchestrator: normalises the service selector, optionally
 * narrows it from an IP-fuzzing guess, builds the list of accounts, and probes
 * every service of every account in order until one reports a resource.
 *
 * Everything the orchestrator asks of the outside world is a field of `Cloud`;
 * the imperative members also return the sequence of those requests, so that
 * what was (and was not) asked can be stated.
 */
module Search {
  import opened Errors
  import opened StringUtil
  import opened CloudResource
  import opened Util

  /** The credentials a plugin call runs under. */
  datatype Connector = Primary | AssumedRole(roleArn: string)

  /** `Search{ac, ipAddr}`; Go passes it by value, so a swapped connector stays local to one call. */
  datatype Search = Search(ac: Connector, ipAddr: string)

  /** One account of an AWS Organizations listing. */
  datatype OrgAccount = OrgAccount(Id: string, Name: string, Status: string)

  /** The external collaborators, as oracles. */
  datatype Cloud = Cloud(
    // `SearchResources(ipAddr)` of the plugin for a canonical service name
    plugin: (Connector, string, string) -> Result<Resource>,
    // the organizations plugin's `GetResources`
    orgAccounts: Connector -> Result<seq<OrgAccount>>,
    // `NewAWSConnectorAssumeRole(arn)`: its error, if any
    assumeRole: string -> Error,
    // the IAM plugin's `GetResources`: the aliases of the connector's account
    accountAliases: Connector -> Result<seq<string>>,
    // `ipfuzzing.FuzzIP(ipAddr, advanced)`
    fuzzIP: (string, bool) -> Result<string>)

  /** One request made to an oracle. */
  datatype Call =
    | FuzzIP(ipAddr: string, advanced: bool)
    | ListOrgAccounts(ac: Connector)
    | AssumeRole(roleArn: string)
    | ListAliases(ac: Connector)
    | Probe(ac: Connector, svc: string)

  /** Every AWS service, in probe order. */
  const AllAwsSvcs: seq<string> := ["cloudfront", "ec2", "elbv1", "elbv2"]

  const InvalidSvcMsg := "invalid cloud service provided for AWS search"

  /** The sentinel account id of the caller's own account. */
  const CurrentAcct := "current"

  /** `reconcileCloudSvcParam`: the `--svc` selector as an ordered list of service names. */
  function ReconcileCloudSvcParam(cloudSvc: string): (svcs: seq<string>)
    ensures cloudSvc == "all" ==> svcs == ["cloudfront", "ec2", "elbv1", "elbv2"]
    ensures cloudSvc != "all" ==> |svcs| >= 1 && Join(svcs, ",") == cloudSvc
    ensures cloudSvc != "all" ==> forall k :: 0 <= k < |svcs| ==> ',' !in svcs[k]
    ensures cloudSvc != "all" && ',' !in cloudSvc ==> svcs == [cloudSvc]
  {
    if cloudSvc == "all" then AllAwsSvcs
    else if ',' in cloudSvc then Split(cloudSvc, ',')
    else [cloudSvc]
  }

  /** Any list that joins back to a non-"all" selector without commas in its parts is the reconciled list. */
  lemma ReconcileIsLiteralSplit(cloudSvc: string, svcs: seq<string>)
    requires cloudSvc != "all" && |svcs| >= 1 && Join(svcs, ",") == cloudSvc
    requires forall k :: 0 <= k < |svcs| ==> ',' !in svcs[k]
    ensures ReconcileCloudSvcParam(cloudSvc) == svcs
  {
    SplitJoin(svcs, ',');
    assert Split(cloudSvc, ',') == svcs;
    if ',' !in cloudSvc {
      assert Split(cloudSvc, ',') == [cloudSvc];
    }
  }

  /** `SearchAWS`: dispatch one service name, lower-cased, to its plugin. */
  function SearchAWS(search: Search, cloud: Cloud, cloudSvc: string): (o: Outcome)
    ensures o.err.Error? ==> o.res == ZeroResource
    ensures ToLower(cloudSvc) !in AllAwsSvcs ==> o.err == Error(InvalidSvcMsg)
    ensures ToLower(cloudSvc) in AllAwsSvcs ==>
      match cloud.plugin(search.ac, ToLower(cloudSvc), search.ipAddr)
      case Ok(r) => o == Outcome(r, Nil)
      case Fail(e) => o.err == Error(e)
  {
    var svc := ToLower(cloudSvc);
    // the four `case` arms differ only in which plugin they construct
    if svc in AllAwsSvcs then
      match cloud.plugin(search.ac, svc, search.ipAddr)
      case Ok(r) => Outcome(r, Nil)
      case Fail(e) => Outcome(ZeroResource, Error(e))
    else Outcome(ZeroResource, Error(InvalidSvcMsg))
  }

  /** Dispatch ignores the case of the service name. */
  lemma SearchAWSCaseInsensitive(search: Search, cloud: Cloud, cloudSvc: string)
    ensures SearchAWS(search, cloud, cloudSvc) == SearchAWS(search, cloud, ToLower(cloudSvc))
  {
    ToLowerIdempotent(cloudSvc);
  }

  /** The plugin request `SearchAWS` makes for a name: one probe for a known service, none otherwise. */
  function ProbeCalls(search: Search, cloudSvc: string): seq<Call>
  {
    if ToLower(cloudSvc) in AllAwsSvcs then [Probe(search.ac, ToLower(cloudSvc))] else []
  }

  /** `RunIPFuzzing`: the fuzzing oracle for this search's IP. */
  function RunIPFuzzing(search: Search, cloud: Cloud, doAdvIPFuzzing: bool): Result<string>
  {
    cloud.fuzzIP(search.ipAddr, doAdvIPFuzzing)
  }

  /** The guesses that `RunIPFuzzing` logs as "could not determine service". */
  predicate FuzzUndetermined(guess: string)
  {
    guess == "" || guess == "UNKNOWN"
  }

  /** How a successful fuzzing guess rewrites the service list. */
  function NarrowByFuzz(svcs: seq<string>, guess: string): (r: seq<string>)
    ensures ToLower(guess) == "unknown" ==> r == svcs
    ensures ToLower(guess) == "ec2" ==> r == ["ec2", "elbv1", "elbv2"]
    ensures ToLower(guess) != "unknown" && ToLower(guess) != "ec2" ==> r == [ToLower(guess)]
  {
    var normalized := ToLower(guess);
    if normalized == "unknown" then svcs
    else if normalized == "ec2" then [normalized, "elbv1", "elbv2"]
    else [normalized]
  }

  /** An empty guess counts as undetermined for logging but still replaces the list, with `[""]`. */
  lemma EmptyGuessNarrowsToEmptyName(svcs: seq<string>)
    ensures FuzzUndetermined("") && NarrowByFuzz(svcs, "") == [""]
  {
  }

  /** The account ids of an organization listing, in listing order. */
  function OrgIds(accts: seq<OrgAccount>): seq<string>
  {
    seq(|accts|, i requires 0 <= i < |accts| => accts[i].Id)
  }

  /** `fetchOrgAcctIds`: the ids of the organization's accounts, or the listing's error. */
  method FetchOrgAcctIds(search: Search, cloud: Cloud) returns (acctIds: seq<string>, err: Error)
    ensures cloud.orgAccounts(search.ac).Fail? ==>
      acctIds == [] && err == Error(cloud.orgAccounts(search.ac).msg)
    ensures cloud.orgAccounts(search.ac).Ok? ==>
      var accts := cloud.orgAccounts(search.ac).value;
      err == Nil && |acctIds| == |accts| &&
      forall i :: 0 <= i < |accts| ==> acctIds[i] == accts[i].Id
  {
    acctIds := [];
    var listed := cloud.orgAccounts(search.ac);
    if listed.Fail? {
      return acctIds, Error(listed.msg);
    }
    var orgAccts := listed.value;
    for k := 0 to |orgAccts|
      invariant |acctIds| == k
      invariant forall i :: 0 <= i < k ==> acctIds[i] == orgAccts[i].Id
    {
      acctIds := acctIds + [orgAccts[k].Id];
    }
    err := Nil;
  }

  /** The role ARN assumed in an organization member account. */
  function RoleArn(acctID: string, roleName: string): string
  {
    "arn:aws:iam::" + acctID + ":role/" + roleName
  }

  /** The layout of a role ARN: the IAM prefix, the account id, ":role/", the role name, and nothing else. */
  lemma RoleArnLayout(acctID: string, roleName: string)
    ensures var arn := RoleArn(acctID, roleName);
            && |arn| == |ArnPrefix| + |acctID| + |RoleInfix| + |roleName|
            && arn[..|ArnPrefix|] == ArnPrefix
            && arn[|ArnPrefix|..|ArnPrefix| + |acctID|] == acctID
            && arn[|ArnPrefix| + |acctID|..|arn| - |roleName|] == RoleInfix
            && arn[|arn| - |roleName|..] == roleName
  {
  }

  const ArnPrefix := "arn:aws:iam::"
  const RoleInfix := ":role/"

  /** Reads an account id and a role name back out of a role ARN. */
  function ParseRoleArn(arn: string): Option<(string, string)>
  {
    if |arn| < |ArnPrefix| || arn[..|ArnPrefix|] != ArnPrefix then None
    else
      var rest := arn[|ArnPrefix|..];
      if ':' !in rest then None
      else
        var i := IndexOf(rest, ':');
        var tail := rest[i..];
        if |tail| < |RoleInfix| || tail[..|RoleInfix|] != RoleInfix then None
        else Some((rest[..i], tail[|RoleInfix|..]))
  }

  /** The ARN names exactly the account and the role it was built from. */
  lemma RoleArnRoundTrip(acctID: string, roleName: string)
    requires ':' !in acctID
    ensures ParseRoleArn(RoleArn(acctID, roleName)) == Some((acctID, roleName))
  {
    var arn := RoleArn(acctID, roleName);
    assert arn[..|ArnPrefix|] == ArnPrefix;
    var rest := arn[|ArnPrefix|..];
    assert rest == acctID + RoleInfix + roleName;
    assert rest[|acctID|] == ':';
    var i := IndexOf(rest, ':');
    assert i == |acctID|;
    assert rest[..i] == acctID;
    assert rest[i..] == RoleInfix + roleName;
  }

  /** Distinct accounts (or roles) never share a role ARN. */
  lemma RoleArnInjective(a1: string, r1: string, a2: string, r2: string)
    requires ':' !in a1 && ':' !in a2
    requires RoleArn(a1, r1) == RoleArn(a2, r2)
    ensures a1 == a2 && r1 == r2
  {
    RoleArnRoundTrip(a1, r1);
    RoleArnRoundTrip(a2, r2);
  }

  /** Prefix a trace onto a search's outcome and trace. */
  function Prepend(calls: seq<Call>, run: (Outcome, seq<Call>)): (Outcome, seq<Call>)
  {
    (run.0, calls + run.1)
  }

  /** The service loop of `runSearch`: `last` is the most recent plugin result. */
  function ScanServices(search: Search, cloud: Cloud, svcs: seq<string>, acctID: string,
                        aliases: seq<string>, last: Resource): (run: (Outcome, seq<Call>))
    requires last.RID == ""
    ensures run.0.err.Error? ==> run.0.res == ZeroResource
    ensures run.0.err.Nil? && run.0.res.RID != "" ==>
      run.0.res.AccountID == acctID && run.0.res.AccountAliases == aliases
    decreases |svcs|
  {
    if svcs == [] then (Outcome(last, Nil), [])
    else
      var o := SearchAWS(search, cloud, svcs[0]);
      var c := ProbeCalls(search, svcs[0]);
      if o.err.Error? then (o, c)
      else if o.res.RID != "" then
        (Outcome(o.res.(AccountID := acctID, AccountAliases := aliases), Nil), c)
      else Prepend(c, ScanServices(search, cloud, svcs[1..], acctID, aliases, o.res))
  }

  /** A service whose probe neither fails nor finds anything. */
  predicate Quiet(search: Search, cloud: Cloud, svc: string)
  {
    var o := SearchAWS(search, cloud, svc);
    o.err.Nil? && o.res.RID == ""
  }

  /** The index of the first service whose probe fails or finds a resource (`|svcs|` if none). */
  function FirstStop(search: Search, cloud: Cloud, svcs: seq<string>): (k: nat)
    ensures k <= |svcs|
    ensures forall j :: 0 <= j < k ==> Quiet(search, cloud, svcs[j])
    ensures k < |svcs| ==> !Quiet(search, cloud, svcs[k])
  {
    if svcs == [] then 0
    else if !Quiet(search, cloud, svcs[0]) then 0
    else 1 + FirstStop(search, cloud, svcs[1..])
  }

  /** The probes made for a list of service names. */
  function ProbesOf(search: Search, svcs: seq<string>): seq<Call>
  {
    if svcs == [] then [] else ProbeCalls(search, svcs[0]) + ProbesOf(search, svcs[1..])
  }

  /**
   * First match wins: the service loop probes the services up to and including
   * the first that fails or finds a resource, and nothing after it; the
   * outcome is that service's, stamped with the account; with no such service
   * the outcome is "not found" without error.
   */
  lemma {:induction false} ScanServicesFirstStop(search: Search, cloud: Cloud, svcs: seq<string>,
                                                 acctID: string, aliases: seq<string>, last: Resource)
    requires last.RID == ""
    ensures var k := FirstStop(search, cloud, svcs);
            var run := ScanServices(search, cloud, svcs, acctID, aliases, last);
            && (k == |svcs| ==> run.0.err == Nil && run.0.res.RID == "" && run.1 == ProbesOf(search, svcs))
            && (k < |svcs| ==>
                  run.1 == ProbesOf(search, svcs[..k + 1]) &&
                  var o := SearchAWS(search, cloud, svcs[k]);
                  run.0 == if o.err.Error? then o
                           else Outcome(o.res.(AccountID := acctID, AccountAliases := aliases), Nil))
    decreases |svcs|
  {
    if svcs != [] {
      var k := FirstStop(search, cloud, svcs);
      if k > 0 {
        ScanServicesFirstStop(search, cloud, svcs[1..], acctID, aliases, SearchAWS(search, cloud, svcs[0]).res);
        assert FirstStop(search, cloud, svcs[1..]) == k - 1;
        if k < |svcs| {
          assert svcs[1..][k - 1] == svcs[k];
          assert svcs[..k + 1][1..] == svcs[1..][..k];
        }
      } else {
        assert svcs[..1][1..] == [];
      }
    }
  }

  /** `runSearch`'s specification: alias lookup for a non-"current" account, then the service loop. */
  function RunSearchSpec(search: Search, cloud: Cloud, svcs: seq<string>, acctID: string): (Outcome, seq<Call>)
  {
    if acctID != CurrentAcct then
      match cloud.accountAliases(search.ac)
      case Fail(e) => (Outcome(ZeroResource, Error(e)), [ListAliases(search.ac)])
      case Ok(aliases) => Prepend([ListAliases(search.ac)], ScanServices(search, cloud, svcs, acctID, aliases, ZeroResource))
    else ScanServices(search, cloud, svcs, acctID, [], ZeroResource)
  }

  /**
   * The service loop of `runSearch`: probe each service in order until one
   * fails or finds, stamping a match with the account.
   */
  method ProbeServices(search: Search, cloud: Cloud, cloudSvcs: seq<string>, acctID: string,
                       acctAliases: seq<string>)
    returns (res: Resource, err: Error, calls: seq<Call>)
    ensures (Outcome(res, err), calls) == ScanServices(search, cloud, cloudSvcs, acctID, acctAliases, ZeroResource)
  {
    calls := [];
    res := ZeroResource;
    assert cloudSvcs[0..] == cloudSvcs;
    ghost var scan := ScanServices(search, cloud, cloudSvcs, acctID, acctAliases, res);
    assert [] + scan.1 == scan.1;
    var i := 0;
    while i < |cloudSvcs|
      invariant 0 <= i <= |cloudSvcs|
      invariant res.RID == ""
      invariant ScanServices(search, cloud, cloudSvcs, acctID, acctAliases, ZeroResource)
                == Prepend(calls, ScanServices(search, cloud, cloudSvcs[i..], acctID, acctAliases, res))
    {
      assert cloudSvcs[i..][1..] == cloudSvcs[i + 1..];
      ghost var before := calls;
      var o := SearchAWS(search, cloud, cloudSvcs[i]);
      calls := calls + ProbeCalls(search, cloudSvcs[i]);
      res, err := o.res, o.err;
      if err.Error? {
        return;
      } else if res.RID != "" {
        res := res.(AccountID := acctID, AccountAliases := acctAliases);
        return;
      }
      ghost var next := ScanServices(search, cloud, cloudSvcs[i + 1..], acctID, acctAliases, res);
      assert before + (ProbeCalls(search, cloudSvcs[i]) + next.1) == calls + next.1;
      i := i + 1;
    }
    assert cloudSvcs[i..] == [];
    assert calls + [] == calls;
    err := Nil;
  }

  /** `runSearch`: resolve the account's aliases, then probe each service in order until one fails or finds. */
  method RunSearch(search: Search, cloud: Cloud, cloudSvcs: seq<string>, acctID: string)
    returns (res: Resource, err: Error, calls: seq<Call>)
    ensures (Outcome(res, err), calls) == RunSearchSpec(search, cloud, cloudSvcs, acctID)
  {
    var acctAliases: seq<string> := [];
    calls := [];
    if acctID != CurrentAcct {
      calls := [ListAliases(search.ac)];
      var listed := cloud.accountAliases(search.ac);
      if listed.Fail? {
        return ZeroResource, Error(listed.msg), calls;
      }
      acctAliases := listed.value;
    }
    var scanCalls;
    res, err, scanCalls := ProbeServices(search, cloud, cloudSvcs, acctID, acctAliases);
    calls := calls + scanCalls;
    if acctID == CurrentAcct {
      assert calls == scanCalls;
    }
  }

  /**
   * A match found in an account carries that account's id and the aliases the
   * IAM lookup returned for it; the caller's own account gets no aliases.
   */
  lemma RunSearchStampsAccount(search: Search, cloud: Cloud, svcs: seq<string>, acctID: string)
    ensures var run := RunSearchSpec(search, cloud, svcs, acctID);
            run.0.err.Nil? && run.0.res.RID != "" ==>
              && run.0.res.AccountID == acctID
              && (acctID == CurrentAcct ==> run.0.res.AccountAliases == [])
              && (acctID != CurrentAcct ==>
                    cloud.accountAliases(search.ac).Ok? &&
                    run.0.res.AccountAliases == cloud.accountAliases(search.ac).value)
    ensures acctID != CurrentAcct ==> RunSearchSpec(search, cloud, svcs, acctID).1[0] == ListAliases(search.ac)
  {
  }

  /** The connector in force after visiting `accts` (the last assumed role, or the one we started with). */
  function ConnectorAfter(search: Search, accts: seq<string>, roleName: string): Search
    decreases |accts|
  {
    if accts == [] then search
    else
      var next := if accts[0] != CurrentAcct then search.(ac := AssumedRole(RoleArn(accts[0], roleName))) else search;
      ConnectorAfter(next, accts[1..], roleName)
  }

  /** The account loop of `InitSearch`. */
  function ScanAccounts(search: Search, cloud: Cloud, svcs: seq<string>, accts: seq<string>,
                        roleName: string): (run: (Outcome, seq<Call>))
    ensures run.0.err.Error? ==> run.0.res == ZeroResource
    ensures run.0.err.Nil? && run.0.res.RID == "" ==> run.0.res == ZeroResource
    ensures run.0.err.Nil? && run.0.res.RID != "" ==> run.0.res.AccountID in accts
    decreases |accts|
  {
    if accts == [] then (Outcome(ZeroResource, Nil), [])
    else
      var acctID := accts[0];
      var arn := RoleArn(acctID, roleName);
      if acctID != CurrentAcct && cloud.assumeRole(arn).Error? then
        (Outcome(ZeroResource, cloud.assumeRole(arn)), [AssumeRole(arn)])
      else
        var pre := if acctID != CurrentAcct then [AssumeRole(arn)] else [];
        var search' := if acctID != CurrentAcct then search.(ac := AssumedRole(arn)) else search;
        var run := RunSearchSpec(search', cloud, svcs, acctID);
        if run.0.err.Error? then (Outcome(ZeroResource, run.0.err), pre + run.1)
        else if run.0.res.RID != "" then (run.0, pre + run.1)
        else Prepend(pre + run.1, ScanAccounts(search', cloud, svcs, accts[1..], roleName))
  }

  /** A role that cannot be assumed ends the account loop there: no alias lookup and no probe in that account. */
  lemma AssumeFailureStopsBeforeSearch(search: Search, cloud: Cloud, svcs: seq<string>, acctID: string,
                                       rest: seq<string>, roleName: string)
    requires acctID != CurrentAcct && cloud.assumeRole(RoleArn(acctID, roleName)).Error?
    ensures ScanAccounts(search, cloud, svcs, [acctID] + rest, roleName)
            == (Outcome(ZeroResource, cloud.assumeRole(RoleArn(acctID, roleName))), [AssumeRole(RoleArn(acctID, roleName))])
  {
    assert ([acctID] + rest)[0] == acctID;
  }

  /** A search that ended in an error or a match. */
  predicate Stopped(run: (Outcome, seq<Call>))
  {
    run.0.err.Error? || run.0.res.RID != ""
  }

  /**
   * No later account is searched: once the accounts in `a1` stop the search,
   * appending more accounts changes neither the outcome nor the requests made;
   * if they do not, the remaining accounts are searched with the connector
   * left in force by `a1`.
   */
  lemma {:induction false} ScanAccountsAppend(search: Search, cloud: Cloud, svcs: seq<string>,
                                              a1: seq<string>, a2: seq<string>, roleName: string)
    ensures Stopped(ScanAccounts(search, cloud, svcs, a1, roleName)) ==>
      ScanAccounts(search, cloud, svcs, a1 + a2, roleName) == ScanAccounts(search, cloud, svcs, a1, roleName)
    ensures !Stopped(ScanAccounts(search, cloud, svcs, a1, roleName)) ==>
      ScanAccounts(search, cloud, svcs, a1 + a2, roleName)
      == Prepend(ScanAccounts(search, cloud, svcs, a1, roleName).1,
                 ScanAccounts(ConnectorAfter(search, a1, roleName), cloud, svcs, a2, roleName))
    decreases |a1|
  {
    if a1 == [] {
      assert a1 + a2 == a2;
      var r := ScanAccounts(search, cloud, svcs, a2, roleName);
      assert [] + r.1 == r.1;
    } else {
      var acctID := a1[0];
      var arn := RoleArn(acctID, roleName);
      assert (a1 + a2)[0] == acctID;
      assert (a1 + a2)[1..] == a1[1..] + a2;
      if !(acctID != CurrentAcct && cloud.assumeRole(arn).Error?) {
        var pre := if acctID != CurrentAcct then [AssumeRole(arn)] else [];
        var search' := if acctID != CurrentAcct then search.(ac := AssumedRole(arn)) else search;
        var run := RunSearchSpec(search', cloud, svcs, acctID);
        if !Stopped(run) {
          ScanAccountsAppend(search', cloud, svcs, a1[1..], a2, roleName);
          var r1 := ScanAccounts(search', cloud, svcs, a1[1..], roleName);
          assert ConnectorAfter(search, a1, roleName) == ConnectorAfter(search', a1[1..], roleName);
          if !Stopped(r1) {
            var r2 := ScanAccounts(ConnectorAfter(search', a1[1..], roleName), cloud, svcs, a2, roleName);
            assert (pre + run.1) + (r1.1 + r2.1) == ((pre + run.1) + r1.1) + r2.1;
          }
        }
      }
    }
  }

  /** The service list after optional fuzz narrowing, or the fuzzing error. */
  function EffectiveSvcs(search: Search, cloud: Cloud, cloudSvc: string, doIPFuzzing: bool,
                         doAdvIPFuzzing: bool): Result<seq<string>>
  {
    var svcs := ReconcileCloudSvcParam(cloudSvc);
    if doIPFuzzing || doAdvIPFuzzing then
      match RunIPFuzzing(search, cloud, doAdvIPFuzzing)
      case Fail(e) => Fail(e)
      case Ok(guess) => Ok(NarrowByFuzz(svcs, guess))
    else Ok(svcs)
  }

  /** `InitSearch`'s specification: fuzzing, account enumeration, then the account loop. */
  function InitSearchSpec(search: Search, cloud: Cloud, cloudSvc: string, doIPFuzzing: bool,
                          doAdvIPFuzzing: bool, doOrgSearch: bool, roleName: string): (Outcome, seq<Call>)
  {
    var fuzzCalls := if doIPFuzzing || doAdvIPFuzzing then [FuzzIP(search.ipAddr, doAdvIPFuzzing)] else [];
    match EffectiveSvcs(search, cloud, cloudSvc, doIPFuzzing, doAdvIPFuzzing)
    case Fail(e) => (Outcome(ZeroResource, Error(e)), fuzzCalls)
    case Ok(svcs) =>
      if doOrgSearch then
        var listCalls := fuzzCalls + [ListOrgAccounts(search.ac)];
        match cloud.orgAccounts(search.ac)
        case Fail(e) => (Outcome(ZeroResource, Error(e)), listCalls)
        case Ok(accts) => Prepend(listCalls, ScanAccounts(search, cloud, svcs, OrgIds(accts), roleName))
      else Prepend(fuzzCalls, ScanAccounts(search, cloud, svcs, [CurrentAcct], roleName))
  }

  /**
   * The account loop of `InitSearch`: for each account, assume its role unless
   * it is "current", then run the service loop; stop at the first error or match.
   * The connector swapped in for one account stays in force for the next.
   */
  method SearchAccounts(search: Search, cloud: Cloud, cloudSvcs: seq<string>, acctsToSearch: seq<string>,
                        orgSearchRoleName: string)
    returns (res: Resource, err: Error, calls: seq<Call>)
    ensures (Outcome(res, err), calls) == ScanAccounts(search, cloud, cloudSvcs, acctsToSearch, orgSearchRoleName)
  {
    // Go passes `search` by value: the connector is swapped on this copy only
    var scoped := search;
    calls := [];
    res := ZeroResource;
    assert acctsToSearch[0..] == acctsToSearch;
    ghost var all := ScanAccounts(search, cloud, cloudSvcs, acctsToSearch, orgSearchRoleName);
    assert [] + all.1 == all.1;
    var i := 0;
    while i < |acctsToSearch|
      invariant 0 <= i <= |acctsToSearch|
      invariant ScanAccounts(search, cloud, cloudSvcs, acctsToSearch, orgSearchRoleName)
                == Prepend(calls, ScanAccounts(scoped, cloud, cloudSvcs, acctsToSearch[i..], orgSearchRoleName))
    {
      ghost var before := calls;
      ghost var rest := ScanAccounts(scoped, cloud, cloudSvcs, acctsToSearch[i..], orgSearchRoleName);
      assert acctsToSearch[i..][0] == acctsToSearch[i];
      assert acctsToSearch[i..][1..] == acctsToSearch[i + 1..];
      var acctID := acctsToSearch[i];
      ghost var pre: seq<Call> := [];
      if acctID != CurrentAcct {
        // replace the connector with one for the role assumed in this account
        var acctRoleArn := RoleArn(acctID, orgSearchRoleName);
        calls := calls + [AssumeRole(acctRoleArn)];
        pre := [AssumeRole(acctRoleArn)];
        var assumeErr := cloud.assumeRole(acctRoleArn);
        if assumeErr.Error? {
          return ZeroResource, assumeErr, calls;
        }
        scoped := scoped.(ac := AssumedRole(acctRoleArn));
      } else {
        assert before + [] == before;
      }
      assert calls == before + pre;
      var resultResource, runErr, runCalls := RunSearch(scoped, cloud, cloudSvcs, acctID);
      calls := calls + runCalls;
      AppendAssoc(before, pre, runCalls);
      assert (Outcome(resultResource, runErr), runCalls) == RunSearchSpec(scoped, cloud, cloudSvcs, acctID);
      if runErr.Error? {
        assert rest == (Outcome(ZeroResource, runErr), pre + runCalls);
        return ZeroResource, runErr, calls;
      } else if resultResource.RID != "" {
        res, err := resultResource, Nil;
        return;
      }
      ghost var next := ScanAccounts(scoped, cloud, cloudSvcs, acctsToSearch[i + 1..], orgSearchRoleName);
      assert rest == Prepend(pre + runCalls, next);
      AppendAssoc(before, pre + runCalls, next.1);
      i := i + 1;
    }
    assert acctsToSearch[i..] == [];
    assert calls + [] == calls;
    err := Nil;
  }

  /** `InitSearch`: the whole search for one IP. */
  method InitSearch(search: Search, cloud: Cloud, cloudSvc: string, doIPFuzzing: bool, doAdvIPFuzzing: bool,
                    doOrgSearch: bool, orgSearchRoleName: string)
    returns (res: Resource, err: Error, calls: seq<Call>)
    ensures (Outcome(res, err), calls)
            == InitSearchSpec(search, cloud, cloudSvc, doIPFuzzing, doAdvIPFuzzing, doOrgSearch, orgSearchRoleName)
    ensures err.Error? ==> res == ZeroResource
    ensures err.Nil? && res.RID == "" ==> res == ZeroResource
  {
    calls := [];
    var cloudSvcs := ReconcileCloudSvcParam(cloudSvc);
    if doIPFuzzing || doAdvIPFuzzing {
      calls := [FuzzIP(search.ipAddr, doAdvIPFuzzing)];
      var fuzzed := RunIPFuzzing(search, cloud, doAdvIPFuzzing);
      if fuzzed.Fail? {
        return ZeroResource, Error(fuzzed.msg), calls;
      }
      var normalizedSvcName := ToLower(fuzzed.value);
      if normalizedSvcName != "unknown" {
        cloudSvcs := [normalizedSvcName];
        // every ELB runs on EC2 infrastructure, so an EC2 guess also covers both ELB services
        if normalizedSvcName == "ec2" {
          cloudSvcs := [normalizedSvcName, "elbv1", "elbv2"];
        }
      }
    }
    assert EffectiveSvcs(search, cloud, cloudSvc, doIPFuzzing, doAdvIPFuzzing) == Ok(cloudSvcs);

    var acctsToSearch: seq<string> := [];
    if doOrgSearch {
      calls := calls + [ListOrgAccounts(search.ac)];
      acctsToSearch, err := FetchOrgAcctIds(search, cloud);
      if err.Error? {
        return ZeroResource, err, calls;
      }
      assert acctsToSearch == OrgIds(cloud.orgAccounts(search.ac).value);
    } else {
      acctsToSearch := acctsToSearch + [CurrentAcct];
      assert acctsToSearch == [CurrentAcct];
    }

    assert InitSearchSpec(search, cloud, cloudSvc, doIPFuzzing, doAdvIPFuzzing, doOrgSearch, orgSearchRoleName)
           == Prepend(calls, ScanAccounts(search, cloud, cloudSvcs, acctsToSearch, orgSearchRoleName));
    var acctCalls;
    res, err, acctCalls := SearchAccounts(search, cloud, cloudSvcs, acctsToSearch, orgSearchRoleName);
    calls := calls + acctCalls;
  }

  /** Searching only "current" assumes no role, looks up no aliases, and yields the service loop's verdict. */
  lemma CurrentAccountOnly(search: Search, cloud: Cloud, svcs: seq<string>, roleName: string)
    ensures var scan := ScanServices(search, cloud, svcs, CurrentAcct, [], ZeroResource);
            ScanAccounts(search, cloud, svcs, [CurrentAcct], roleName)
            == (if scan.0.err.Nil? && scan.0.res.RID == "" then Outcome(ZeroResource, Nil) else scan.0, scan.1)
  {
    var scan := ScanServices(search, cloud, svcs, CurrentAcct, [], ZeroResource);
    assert RunSearchSpec(search, cloud, svcs, CurrentAcct) == scan;
    assert [CurrentAcct][1..] == [];
    assert ScanAccounts(search, cloud, svcs, [], roleName) == (Outcome(ZeroResource, Nil), []);
    assert [] + scan.1 == scan.1;
    assert scan.1 + [] == scan.1;
  }

  /**
   * As written, an empty fuzzing guess is not treated as "unknown": without
   * org search it makes the whole search fail with the invalid-service error,
   * after the fuzzing call and no plugin probe.
   */
  lemma EmptyGuessFailsSearch(search: Search, cloud: Cloud, cloudSvc: string, doAdvIPFuzzing: bool, roleName: string)
    requires cloud.fuzzIP(search.ipAddr, doAdvIPFuzzing) == Ok("")
    ensures InitSearchSpec(search, cloud, cloudSvc, true, doAdvIPFuzzing, false, roleName)
            == (Outcome(ZeroResource, Error(InvalidSvcMsg)), [FuzzIP(search.ipAddr, doAdvIPFuzzing)])
  {
    assert ToLower("") == "";
    assert EffectiveSvcs(search, cloud, cloudSvc, true, doAdvIPFuzzing) == Ok([""]);
    assert SearchAWS(search, cloud, "") == Outcome(ZeroResource, Error(InvalidSvcMsg));
    assert ProbeCalls(search, "") == [];
    var scan := ScanServices(search, cloud, [""], CurrentAcct, [], ZeroResource);
    assert scan == (Outcome(ZeroResource, Error(InvalidSvcMsg)), []);
    CurrentAccountOnly(search, cloud, [""], roleName);
    assert ScanAccounts(search, cloud, [""], [CurrentAcct], roleName) == (Outcome(ZeroResource, Error(InvalidSvcMsg)), []);
    assert [FuzzIP(search.ipAddr, doAdvIPFuzzing)] + [] == [FuzzIP(search.ipAddr, doAdvIPFuzzing)];
  }

  /**
   * The accounts searched: without org search only "current"; with it exactly
   * the listed accounts, so a match names one of them and never "current"
   * unless the organization lists an account with that id.
   */
  lemma InitSearchMatchAccount(search: Search, cloud: Cloud, cloudSvc: string, doIPFuzzing: bool,
                               doAdvIPFuzzing: bool, doOrgSearch: bool, roleName: string)
    ensures var run := InitSearchSpec(search, cloud, cloudSvc, doIPFuzzing, doAdvIPFuzzing, doOrgSearch, roleName);
            run.0.err.Nil? && run.0.res.RID != "" ==>
              && (!doOrgSearch ==> run.0.res.AccountID == CurrentAcct)
              && (doOrgSearch ==> cloud.orgAccounts(search.ac).Ok? &&
                                  run.0.res.AccountID in OrgIds(cloud.orgAccounts(search.ac).value))
  {
  }

  /** A fuzzing guess of "ec2" makes the search probe exactly ec2, elbv1 and elbv2. */
  lemma Ec2GuessProbesLoadBalancers(search: Search, cloud: Cloud, cloudSvc: string, doIPFuzzing: bool,
                                    doAdvIPFuzzing: bool, guess: string)
    requires doIPFuzzing || doAdvIPFuzzing
    requires cloud.fuzzIP(search.ipAddr, doAdvIPFuzzing) == Ok(guess) && ToLower(guess) == "ec2"
    ensures EffectiveSvcs(search, cloud, cloudSvc, doIPFuzzing, doAdvIPFuzzing) == Ok(["ec2", "elbv1", "elbv2"])
  {
  }
}
