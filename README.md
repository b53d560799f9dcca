# ip-2-cloudresource in Dafny

A model of the decision logic of ip-2-cloudresource, a command-line tool that,
given an IP address, finds the cloud resource (CloudFront distribution, EC2
instance, classic or v2 load balancer, Azure VM) that owns it.

The model covers:

- **The AWS search orchestrator** (`Search`, from `src/search/search.go`). It
  normalises the `--svc` selector into an ordered service list, and optionally
  narrows that list from an IP-fuzzing guess. It then builds the list of
  accounts: the caller's own account `"current"`, or every account of an AWS
  Organizations listing. For each account other than `"current"` it assumes
  a role and looks up the account's aliases. In every account it then probes
  the services in order. The first resource with a non-empty `RID` is
  returned, stamped with the account id and aliases.
- **The ELBv2 plugin** (`Elb`, from `src/plugin/elb/elb.go`). It reads the
  paginated listing of load balancers and scans for a balancer whose DNS name
  resolves to the target IP.
- **The root command's flag handling** (`Cmd`, from `cmd/root.go`): the flag
  defaults and the validation and normalisation in `RunE`.
- **Result rendering and the platform check** (`App`, from `app/app.go`), and
  the older standalone entry point (`LegacyMain`, from `main.go`).
- **The Azure service dispatch** (`Azure`, from `azure/azure.go`).

Everything the orchestrator asks of the outside world is an oracle: a function
field of the `Search.Cloud` value passed in. There are five: the plugin result
per connector and service, the organization listing, role assumption per ARN,
the alias lookup per connector, and the IP-fuzzing guess.

The orchestrator's methods also return the sequence of oracle requests they
made (`Search.Call`). This makes it possible to state what was asked and what
was not: no probe after a match, and no search in an account whose role could
not be assumed.

Each imperative Go function is a Dafny method with its loop, proved equal to a
recursive specification function. The properties the tool promises are lemmas
about those functions. Go's `(value, error)` pairs are `CloudResource.Outcome`
values, with `Errors.Error` standing for a Go `error` (`Nil` or a message).

The `Resource` type (`src/resource`) is not part of this model. Its fields are
taken from their uses in the modelled files.

## Model

| member | source | states |
|---|---|---|
| Search.ReconcileCloudSvcParam | src/search/search.go:31-44 | "all" (lower case only) becomes cloudfront, ec2, elbv1, elbv2 in that order. Any other selector becomes a non-empty list that joins back on "," to the selector, with no commas in any element. Without a comma, the list is the selector unchanged. |
| Search.ReconcileIsLiteralSplit | src/search/search.go:36-38 | The list is the literal split on ",": any comma-free list that joins back to the selector is the one produced. Order, duplicates and empty segments are kept. |
| StringUtil.SplitJoin | src/search/search.go:38 | Splitting the join of comma-free parts gives back exactly those parts. |
| Search.SearchAWS | src/search/search.go:78-119 | An error always comes with the zero resource. A name whose lower-case form is not one of the four services gives "invalid cloud service provided for AWS search". A known service returns the plugin's resource unchanged, or passes its error on. |
| Search.SearchAWSCaseInsensitive | src/search/search.go:83-87 | Dispatching a name gives the same outcome as dispatching its lower-case form. |
| Search.NarrowByFuzz | src/search/search.go:168-177 | A guess of "unknown" (any case) keeps the list. "ec2" gives [ec2, elbv1, elbv2]. Any other guess gives the one-element list of its lower-case form. |
| Search.EmptyGuessNarrowsToEmptyName | src/search/search.go:168-171 | An empty guess, though logged as undetermined, replaces the list with [""]. |
| Search.Ec2GuessProbesLoadBalancers | src/search/search.go:174-176 | With fuzzing on, a guess of "ec2" searches exactly ec2, elbv1 and elbv2. |
| Search.EmptyGuessFailsSearch | src/search/search.go:168-171 | Without org search, an empty guess ends the search with the invalid-service error. Only the fuzzing request is made, and no probe. |
| Search.FetchOrgAcctIds | src/search/search.go:61-76 | On a listing error, returns no ids and that error. Otherwise returns the accounts' ids elementwise in listing order, with no error. |
| Search.RoleArnLayout | src/search/search.go:198 | `RoleArn` gives exactly "arn:aws:iam::", then the account id, then ":role/", then the role name, with nothing before, between or after. |
| Search.RoleArnRoundTrip | src/search/search.go:198 | The role ARN "arn:aws:iam::" + id + ":role/" + role parses back to exactly that id and role, for any colon-free id. |
| Search.RoleArnInjective | src/search/search.go:198 | Two colon-free accounts, or two roles, never share a role ARN. |
| Search.ScanServices | src/search/search.go:139-152 | An error comes with the zero resource. A match carries the account id and aliases passed in. |
| Search.ScanServicesFirstStop | src/search/search.go:139-150 | First match wins. Services are probed up to and including the first that fails or finds a resource, and none after it. The outcome is that service's error, or its resource stamped with the account. If every probe is quiet, the result is "not found" with no error and one probe per known service name. |
| Search.ProbeServices | src/search/search.go:139-152 | The service loop, whose outcome and request trace equal the service-scan specification: the first service that fails or finds ends it, and a match is stamped with the account. |
| Search.RunSearch | src/search/search.go:121-153 | The method's outcome and request trace equal its specification. For an account other than "current", aliases are looked up first, and a lookup error is returned with the zero resource. Then comes the service scan above. |
| Search.RunSearchStampsAccount | src/search/search.go:126-148 | A match carries the searched account's id. It carries the IAM aliases for a named account, and no aliases for "current". A named account's first request is the alias lookup. |
| Search.ScanAccounts | src/search/search.go:193-216 | An error comes with the zero resource. Not found means exactly the zero resource. A match names one of the searched accounts. |
| Search.AssumeFailureStopsBeforeSearch | src/search/search.go:196-202 | A role that cannot be assumed ends the search with that error and the zero resource. The only request is the assume-role request: no alias lookup and no probe in that account or any later one. |
| Search.ScanAccountsAppend | src/search/search.go:195-214 | Once some accounts stop the search (error or match), appending more accounts changes neither the outcome nor the requests made. Otherwise the rest are searched in order, with the connector the earlier accounts left in force. |
| Search.CurrentAccountOnly | src/search/search.go:189-191 | Searching only "current" assumes no role and looks up no aliases. The verdict is the service scan's, with a quiet scan reported as the zero resource. |
| Search.SearchAccounts | src/search/search.go:193-216 | The account loop's outcome and request trace equal the account-scan specification. The connector swapped in for one account stays in force for the next. |
| Search.InitSearch | src/search/search.go:155-217 | The outcome and trace equal the specification of fuzzing, then account enumeration, then the account loop. Every error comes with the zero resource, and "not found" is exactly the zero resource. |
| Search.InitSearchMatchAccount | src/search/search.go:180-191 | Without org search, a match is in "current". With org search, a match is in one of the listed accounts. |
| Elb.ConcatContains | src/plugin/elb/elb.go:38 | Every balancer of every successful page is in the accumulated list. |
| Elb.ConcatFrom | src/plugin/elb/elb.go:38 | Every balancer of the accumulated list comes from some successful page. |
| Elb.GetResources | src/plugin/elb/elb.go:26-42 | Returns the pages' balancers concatenated in page order, up to the first failed page. That page's error is returned with what was gathered before it, and there is no error when no page fails. |
| Elb.LastMatch | src/plugin/elb/elb.go:53-61 | Gives the index of the last balancer one of whose resolved addresses equals the target string, or -1 when none does. No balancer after it matches. |
| Elb.LastMatchedSnoc | src/plugin/elb/elb.go:53-61 | Scanning one more balancer replaces the match exactly when that balancer matches. |
| Elb.SearchResources | src/plugin/elb/elb.go:44-64 | A listing error is returned with the zero balancer. Otherwise the result is the last matching balancer over all pages, or the zero balancer with no error when none matches. |
| Cmd.RootCmd.constructor | cmd/root.go:96-117 | The flag defaults. Platform is "aws" and svc is "all". Both fuzzing flags are on; org search and network mapping are off. The role name is "ip2cr", and the other strings are empty. |
| Cmd.RootCmd.RunE | cmd/root.go:38-70 | An empty IP address gives "IP address is required" with no flag changed, and that is the only error. `--json` forces `--silent`. A selector other than "all" turns both fuzzing flags off. A platform other than exactly "aws" turns off fuzzing, org search and network mapping. No other flag is written. |
| Cmd.GcpWithoutTenantAccepted | cmd/root.go:60-70 | As written, "gcp" with no tenant id passes validation. |
| Cmd.RootCmd.RunEWithTenantCheck | cmd/root.go:60-70 | Corrected: "gcp" or "azure" without a tenant id gives "tenant ID is required for searching " plus the upper-cased platform. Every other rule is the same as `RunE`. |
| Cmd.GcpWithoutTenantRejected | cmd/root.go:66-69 | Corrected: "gcp" with no tenant id is refused with "tenant ID is required for searching GCP". |
| App.GetSupportedPlatforms | app/app.go:20-22 | Exactly aws, gcp, azure in that order, each already in lower case. |
| App.CheckPlatform | app/app.go:83-88 | The platform is lower-cased, then accepted iff it is aws, gcp or azure. |
| App.PlatformCheckIgnoresCase | app/app.go:83-85 | Two platform names whose letters agree once lower-cased get the same verdict, so acceptance does not depend on case ("AWS" is accepted like "aws"). |
| App.NetworkMapGraph | app/app.go:38-53 | The graph is the network map joined by " -> ", with no trailing arrow. An empty map gives "", and a single element is unchanged. |
| StringUtil.JoinSnoc | app/app.go:43-50 | Appending one element to a non-empty join adds exactly one separator and that element. |
| App.AccountLabel | app/app.go:29-34 | The label is "current account" iff the account id is "current". Otherwise it is "account [ id ( aliases joined by ', ' ) ]". |
| App.OutputResults | app/app.go:24-78 | Not silent, no match: only the not-found log line, whatever the network-mapping flag. Not silent, match: the found line, then the network-map line only when asked. Silent: the JSON document when asked, else the id line then "account (aliases)", or "not found". Non-silent output is logs only. |
| LegacyMain.Flags.constructor | main.go:100-123 | The older entry point's flag defaults, with the same values. |
| LegacyMain.Flags.Launch | main.go:127-151 | An empty IP address exits with status 1 before `--version` is looked at. `--version` prints the banner "ip-2-cloudresource v1.2.0" with its newline and stops with no flag changed. Otherwise `--json` forces `--silent`, and a selector other than "all" turns both fuzzing flags off. |
| LegacyMain.OutputResults | main.go:22-76 | The same branches as the application's renderer. The found line names only the resource and the account label. |
| Azure.GetSupportedSvcs | azure/azure.go:36-40 | Exactly ["virtual_machines"]. |
| Azure.SearchAzureSvc | azure/azure.go:42-63 | The resource passed in comes back unchanged. There is no error iff the name is one of the supported services, compared exactly. Otherwise the error is "unknown Azure service provided: '<name>'". |
| Azure.SupportedSvcsAccepted | azure/azure.go:36-48 | Every advertised service is accepted without error. |
| Azure.SvcMatchIsCaseSensitive | azure/azure.go:47-59 | "Virtual_Machines" is refused with the unknown-service error. |

## Findings

| source | as written | input that shows it | evidently intended | confidence | as-written member | corrected member |
|---|---|---|---|---|---|---|
| cmd/root.go:60-70 | The `switch` tests `platform != "aws"` first. So "gcp" and "azure" always take that arm, and the tenant-ID check in the next arm never runs. | `--ipaddr 10.0.0.1 --platform gcp` with no `--tenant-id` | The search is refused with "tenant ID is required for searching GCP". | high (not executed) | Cmd.GcpWithoutTenantAccepted | Cmd.RootCmd.RunEWithTenantCheck |

`Cmd.RootCmd.RunE` keeps the code as written: its tenant arm is proved unreachable.

## Left out

- **Logging and crash reporting.** Logging (logrus levels, `SetOutput(io.Discard)` under `--silent`) and Rollbar reporting are not modelled. Log records appear only as `App.Line.Log` values.
- **The SDKs and the network.** The AWS SDK clients, paginators and STS, and the Azure credential (`New`, `ConnectToAzure`), are not modelled. Their results are oracle inputs: `Cloud` fields, and `Elb.Page` sequences.
- **Unseen source.** `aws_connector` is reduced to "assuming this role ARN succeeds or fails". The cloudfront, ec2, elbv1, iam and organizations plugins, `ipfuzzing.FuzzIP` and `utils.LookupFQDN` are not part of this model; they are uninterpreted oracle functions.
- **Resolved addresses.** These are the strings of `net.IP.String()`, so IP parsing and formatting are not modelled.
- **Command dispatch and JSON.** cobra command registration, `Execute` and `flag.Parse` are not modelled. `encoding/json` marshalling is opaque: the JSON output is the resource itself (`App.Line.Json`).
- App.OutputResults: the JSON document and its marshalling-error fallback are not rendered as text, because `encoding/json` is left out.
- LegacyMain.OutputResults: the same applies to the JSON document.
- **Platform check outcome.** `app.RunCloudSearch` is modelled only up to the platform check (`App.CheckPlatform`). Its `StartSearch` call targets a version of the search package that is not part of this model.
- **`main.go`'s search call.** `runCloudSearch` calls `InitSearch` with an argument list that does not match the `InitSearch` in `src/search/search.go`, so that call is not modelled.
- **`Cmd.RootCmd.RunE` after validation.** The method ends where `RunE` hands the flags to `RunCloudSearch`. The platform check and the output that follow are `App.CheckPlatform` and `App.OutputResults`; the search itself (`StartSearch`) is not modelled, see above.
- **Case conversion.** `StringUtil.ToLower` and `StringUtil.ToUpper` convert ASCII letters only; Go's Unicode case mapping is not modelled.
- **`RunIPFuzzing`.** It is a shim over the fuzzing oracle; its log messages are left out (`Search.FuzzUndetermined` names the guesses it logs as undetermined).
- **The swapped connector.** `search.ac` is reassigned on the method's own copy of `Search`, which Go passes by value. The model keeps that copy local, so the caller never sees the swap.
- **Where the code differs from its description**, the model follows the code:
  - an empty fuzzing guess is narrowed to `[""]` and not treated as "unknown";
  - `runSearch` reports "not found" with the last probe's result rather than a zero resource (`InitSearch` discards it);
  - a connector assumed for one organization account stays in force for the next. A literal "current" id in an organization listing is therefore searched with the previous account's role;
  - the ELBv2 scan does not stop at a match, so when several balancers match, the last one in listing order is returned rather than the first (`Elb.LastMatch`);
  - the organization listing is read with the search's own connector: `InitSearch` takes neither a cross-account role ARN nor an organizational-unit id, so `--org-search-xaccount-role-arn` and `--org-search-ou-id` have no effect on it (`Search.InitSearchSpec` lists with `search.ac`, unfiltered).
