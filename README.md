# Invicti Enterprise scanner for secureCodeBox — a Dafny model

The scanner is a command-line job that secureCodeBox runs against an Invicti
Enterprise (DAST) server. A run does the following:

1. It reads its options from the command line (`--key value`, `--key=value`,
   bare `--flag`), then the environment, then the settings.
2. It picks a duration profile (short, medium or long). The profile bounds the
   issue count, the runtime and the minimum severity.
3. It then takes one of two paths:
   - **Issues-only** ("Option B", called back by the secureCodeBox webhook): it
     fetches the existing issues page by page.
   - **Scan** ("Option A"): it launches a scan by one of three routes
     (incremental, named profile, ad hoc). It then either returns at once
     (fire-and-forget) or polls the scan status until the scan reaches a
     terminal state or the deadline passes. After that it fetches the scan's
     issues.
4. It writes `findings.json` (one secureCodeBox finding per issue) and
   `scan-metadata.json`, and exits with one of these codes:
   - 0: success;
   - 2: the launch returned no scan;
   - 3: the scan was not completed;
   - 130: the run was cancelled.

There is one module per source file:

| module | file |
|---|---|
| `Orchestrator` | ScanOrchestrator |
| `ApiClient` | InvictiApiClient |
| `ResultWriter` | ScanResultWriter |
| `Settings` | AppSettings |
| `CommandLine` | CommandLineArguments |
| `QueryBuilder` | HttpQueryBuilder |
| `Severities` | IssueSeverity |
| `ScannerActions` | ScannerAction |
| `Dtos` | InvictiDtos and SecureCodeBoxFinding, shapes only |

Two more modules support them:

- `DotNet` writes out the .NET library behaviour the code relies on: nullable
  values, `IsNullOrWhiteSpace`, `Trim`, `ToLowerInvariant`, ordinal
  ignore-case comparison, `bool.TryParse`, `Enum.TryParse(ignoreCase)` name
  matching, and `int.ToString`.
- `Effects` holds the outside world:
  - the replies of the service (`Ok`, `NotFound`, `Failed(status)` and the
    client's own `TimedOut`);
  - the uncaught errors;
  - the cancellation token and the clock;
  - the platform functions (GUID parsing and text, absolute-URI host,
    `EscapeDataString`), passed as parameters.

**Observation points.** A run is a sequence of observation points: every
service call (request and body read together), every serialisation and every
token test. Cancellation is
requested just before one point, and every later point sees it. Each point
advances the clock.

**The service as an oracle.** The service is modelled as fixed replies:

- one reply to the launch;
- a status reply for each poll number;
- a finite list of issue pages, with an empty list past the end.

**Imperative code stays imperative.** Code that is imperative in the source
(the parse loop, the query builder loop, the issue paging loop, the wait loop
and the run) is written as methods with loops and invariants. Each is proved
against a specification function (`Parsed`, `Joined`, `Collected`, `Poll`) or
a predicate (`FetchBehaves`, `RunEnds`, `IssuesOnlyEnds`, `ScanEnds`, and the
exact `IssuesOnlyRun`, `ScanRun` and `BlockingRun`). Pure
decision code is written as functions and lemmas.

**Where the code's behaviour is easy to misread, the model follows the
code:**

- **Cancellation during the wait.** When the wait loop sees cancellation at
  its test, it returns the last status normally (`Orchestrator.PollProgress`).
  The run still ends with 130, because the next awaited call (the issue
  fetch) sees the cancelled token.
- **A 404 on an issue page** ends the fetch with the issues collected so
  far, not with an empty list.
- **Cancellation while writing** leaves a file emptied. `File.Create`
  creates or truncates each file before the cancellable serialisation into
  it. A write cancelled at the start leaves an empty `findings.json` (any
  earlier one is lost) and no new `scan-metadata.json`. A write cancelled
  after the findings leaves them and an empty `scan-metadata.json`
  (`ResultWriter.WriteOutcome`, `ResultWriter.FileState`).
- **A missing target URI** (named-profile and ad-hoc routes) is thrown and not
  caught by `RunAsync`. The process then crashes rather than returning an exit
  code (`Crashed(ConfigurationError)`). A failure status of the service is
  likewise not caught.

## Model

| member | source | states |
|---|---|---|
| CommandLine.Parse | src/InvictiScanner/Services/CommandLineArguments.cs:25-61 | the dictionary the loop builds is the one obtained by performing, in order, every assignment the token list makes (`Parsed`) |
| CommandLine.ParseOption | src/InvictiScanner/Services/CommandLineArguments.cs:31-57 | one loop turn consumes one or two tokens and performs exactly the assignments of that step, so the loop invariant is kept |
| CommandLine.Step | src/InvictiScanner/Services/CommandLineArguments.cs:31-57 | a token is handled by consuming at least one token and never more than remain, making at most one assignment |
| CommandLine.SplitTwo | src/InvictiScanner/Services/CommandLineArguments.cs:41-42 | a successful split yields a non-empty key without '=' and a non-empty value not starting with '=' |
| CommandLine.SplitTwoOfShape | src/InvictiScanner/Services/CommandLineArguments.cs:41-45 | every string `=…= key =…= value` splits into exactly that key and value |
| CommandLine.SplitTwoHasShape | src/InvictiScanner/Services/CommandLineArguments.cs:41-42 | conversely, whatever splits has that shape, so the two lemmas characterise the split |
| CommandLine.ParseLookup | src/InvictiScanner/Services/CommandLineArguments.cs:12-23 | the indexer returns null for a blank key, otherwise the value of the last assignment to the trimmed, lower-cased key, and null when there is none |
| CommandLine.AssignmentsSplitAtOption | src/InvictiScanner/Services/CommandLineArguments.cs:49-53 | a token starting with "--" is never consumed as a value, so the tokens before and after it are parsed independently |
| CommandLine.LaterOccurrenceWins | src/InvictiScanner/Services/CommandLineArguments.cs:44-56 | a later occurrence of a key overrides every earlier one |
| CommandLine.KeyValueForm | src/InvictiScanner/Services/CommandLineArguments.cs:49-53 | in `--k v`, v is taken verbatim when it does not start with "--", wherever the pair stands |
| CommandLine.BareFlagIsTrue | src/InvictiScanner/Services/CommandLineArguments.cs:54-57 | a bare `--k`, at the end or before another option, is "true" |
| CommandLine.EqualsForm | src/InvictiScanner/Services/CommandLineArguments.cs:37-46 | `--k=v` stores the value lower-cased under the key, because the whole token is normalised before the split |
| CommandLine.IncompleteEqualsFormIgnored | src/InvictiScanner/Services/CommandLineArguments.cs:39-46 | a `--k=` or `--=v` token with fewer than two non-empty parts stores nothing |
| CommandLine.KeysAreLowerCase | src/InvictiScanner/Services/CommandLineArguments.cs:37-56 | every stored key is lower-case |
| CommandLine.NormalizeIdempotent | src/InvictiScanner/Services/CommandLineArguments.cs:63 | normalising twice is normalising once |
| QueryBuilder.WithQuery | src/InvictiScanner/Services/HttpQueryBuilder.cs:7-28 | the path itself when no parameter has a value; otherwise the path, '?' and the included pairs joined by '&', in enumeration order |
| QueryBuilder.Included | src/InvictiScanner/Services/HttpQueryBuilder.cs:13-18 | the parameters kept never outnumber the given ones |
| QueryBuilder.AppendedIsJoined | src/InvictiScanner/Services/HttpQueryBuilder.cs:20-24 | appending pair by pair ('?' before the first, '&' before each later one) equals '?' followed by the '&'-join of the pairs |
| QueryBuilder.IncludedMembers | src/InvictiScanner/Services/HttpQueryBuilder.cs:13-18 | a pair is rendered if and only if it is a parameter with a non-null value |
| QueryBuilder.IncludedEmpty | src/InvictiScanner/Services/HttpQueryBuilder.cs:27 | nothing is rendered if and only if every value is null |
| QueryBuilder.IncludedConcat | src/InvictiScanner/Services/HttpQueryBuilder.cs:13-18 | the filter distributes over concatenation, so the enumeration order is kept |
| QueryBuilder.JoinedCounts | src/InvictiScanner/Services/HttpQueryBuilder.cs:20-24 | with an escape that encodes the delimiters, the joined pairs hold no '?', one '&' between neighbours and one '=' per pair |
| QueryBuilder.QuerySeparators | src/InvictiScanner/Services/HttpQueryBuilder.cs:20-24 | the appended query holds exactly one '?', (included − 1) '&' and one '=' per included pair |
| Severities.Ordinal | src/InvictiScanner/Models/IssueSeverity.cs:3-11 | the declared values lie in 0..5 |
| Severities.OrdinalInjective | src/InvictiScanner/Models/IssueSeverity.cs:5-10 | distinct members have distinct values |
| Severities.IsAtLeastTotalOrder | src/InvictiScanner/Models/IssueSeverity.cs:15 | `IsAtLeast` is reflexive, antisymmetric, transitive and total |
| Severities.ThresholdMonotonic | src/InvictiScanner/Models/IssueSeverity.cs:15 | raising the threshold never admits more issues |
| Severities.Parse | src/InvictiScanner/Models/IssueSeverity.cs:17-27 | null or blank gives Medium; a case-insensitive name match gives that member; any other result came from a match |
| Severities.NameMatchUnique | src/InvictiScanner/Models/IssueSeverity.cs:24-26 | at most one member name matches any string, so the parse is well defined |
| Severities.ParseName | src/InvictiScanner/Models/IssueSeverity.cs:24-26 | parsing a member's name, as declared or lower-cased, gives the member back |
| ScannerActions.Parse | src/InvictiScanner/Models/ScannerAction.cs:11-21 | the result is Issues exactly when the value is not blank and names Issues in any case; a name match of Scan gives Scan; everything else (null, blank, unrecognised) gives Scan |
| ScannerActions.ParseLowerName | src/InvictiScanner/Models/ScannerAction.cs:18-20 | parsing a member's name, lower-cased (the form recorded as the run mode) or as declared, gives it back |
| ScannerActions.ParseAnyCase | src/InvictiScanner/Models/ScannerAction.cs:18-20 | "scan" and "issues" in any case give Scan and Issues |
| Settings.ParseDuration | src/InvictiScanner/Configuration/AppSettings.cs:103-111 | null or blank gives Short; a case-insensitive name match gives that tier; any other result came from a match |
| Settings.NameMatchUnique | src/InvictiScanner/Configuration/AppSettings.cs:110 | at most one tier name matches any string |
| Settings.DurationNameIsTrimmed | src/InvictiScanner/Configuration/AppSettings.cs:114-119 | every tier name is non-blank and free of surrounding white space |
| Settings.ResolveTotal | src/InvictiScanner/Configuration/AppSettings.cs:44-53 | every input yields the configured profile of the parsed tier, or its built-in when the slot is null; blank and unrecognised input select the short slot |
| Settings.BuiltInName | src/InvictiScanner/Configuration/AppSettings.cs:68-101 | each built-in profile is named by its tier's lower-cased name |
| Settings.ParseLowerName | src/InvictiScanner/Configuration/AppSettings.cs:103-111 | a tier's lower-cased name parses back to that tier |
| Settings.ResolveBuiltInName | src/InvictiScanner/Configuration/AppSettings.cs:44-111 | a built-in profile's name resolves back to its own tier's slot, and with the default slots to the built-in itself |
| Settings.BuiltInPolicies | src/InvictiScanner/Configuration/AppSettings.cs:68-101 | the short, medium and long tables: issue caps, runtimes, severity floors, incremental and full-scan flags, endpoint tags |
| Settings.TiersMonotonic | src/InvictiScanner/Configuration/AppSettings.cs:68-101 | a longer tier allows strictly more issues and runtime and never a higher severity floor |
| Settings.BuiltInBounds | src/InvictiScanner/Configuration/AppSettings.cs:68-101 | every built-in allows at least one issue and one minute |
| Orchestrator.DefaultWaitPolicy | src/InvictiScanner/Configuration/AppSettings.cs:30-36 | the default action parses to Scan, the default poll interval is 15 s, and the default wait is 15 min for short and 30 min for medium and long |
| Dtos.StateNameComplete | src/InvictiScanner/Models/InvictiDtos.cs:56-69 | only the Complete state is written as "Complete" |
| Effects.Await | src/InvictiScanner/Services/InvictiApiClient.cs:48-50 | an awaited call completes exactly when it is not cancelled and the reply succeeds, and is interrupted by cancellation or the client timeout; otherwise a failure status faults with RemoteServiceError of that status, and a 404 with RemoteServiceError(404) |
| ApiClient.NullIfEmpty | src/InvictiScanner/Services/InvictiApiClient.cs:237 | null exactly for a null or blank value, the value itself otherwise |
| ApiClient.ResolveTargetUri | src/InvictiScanner/Services/InvictiApiClient.cs:180-188 | the target URI when it is not blank, otherwise the configuration error with its message |
| ApiClient.EnsureBaseUri | src/InvictiScanner/Services/InvictiApiClient.cs:231-235 | the result ends with '/', extends the value by at most that one character, and equals it when it already ends with '/' |
| ApiClient.EnsureBaseUriIdempotent | src/InvictiScanner/Services/InvictiApiClient.cs:233 | applying it twice is applying it once |
| ApiClient.XAuthHeader | src/InvictiScanner/Services/InvictiApiClient.cs:203-209 | no header exactly when token and id are both blank; "id:token" when an id is set, else the token |
| ApiClient.XAuthHeaderSplits | src/InvictiScanner/Services/InvictiApiClient.cs:205-207 | an id without ':' and the token can be read back from the header value |
| ApiClient.ConfigureHttpClient | src/InvictiScanner/Services/InvictiApiClient.cs:190-216 | a blank base URL is the configuration error; otherwise the base address gets its '/', the timeout is 10 minutes, the X-Auth choice as above, and Basic credentials exactly when user name and password are set |
| ApiClient.CeilingOfHours | src/InvictiScanner/Services/InvictiApiClient.cs:45 | the integer ceiling of minutes / 60 |
| ApiClient.MaxScanDuration | src/InvictiScanner/Services/InvictiApiClient.cs:45 | at least one hour; for a positive runtime, the fewest whole hours covering it |
| ApiClient.MaxScanDurationExamples | src/InvictiScanner/Services/InvictiApiClient.cs:77 | 15→1, 120→2, 480→8, 61→2, 0→1, −30→1 |
| ApiClient.MaxScanDurationMonotonic | src/InvictiScanner/Services/InvictiApiClient.cs:45 | a longer runtime never asks for fewer hours |
| ApiClient.PlanLaunch | src/InvictiScanner/Services/InvictiApiClient.cs:34-84 | incremental exactly when the profile asks for it and the base scan id is a GUID; else the named profile when the profile or settings name one (the profile's name preferred); else ad hoc. The named and ad-hoc routes fail exactly on a blank target URI. Every field of each request body is given |
| ApiClient.FirstOrNull | src/InvictiScanner/Services/InvictiApiClient.cs:83-84 | the first scan record, or null for a null or empty list |
| ApiClient.LaunchScan | src/InvictiScanner/Services/InvictiApiClient.cs:34-85 | a configuration error is raised before anything is sent; the launch completes only for a successful reply that is not cancelled; the ad-hoc route returns the first record of the list, the others the record itself; a failure status faults with RemoteServiceError of that status, a 404 with RemoteServiceError(404), and a body of the wrong shape with MalformedResponse |
| ApiClient.GetScanStatus | src/InvictiScanner/Services/InvictiApiClient.cs:87-97 | a 404 reads as no status; a success gives the body; it faults exactly on a failure status, with that status; it is interrupted exactly by cancellation or timeout |
| ApiClient.Target | src/InvictiScanner/Services/InvictiApiClient.cs:114 | the fetch target is maxIssues, or 1 when maxIssues is below 1 (Math.Max(1, maxIssues)) |
| ApiClient.PageParametersAt | src/InvictiScanner/Services/InvictiApiClient.cs:121-138 | each parameter of a page request by position: the five fixed ones, then the website name and group when present |
| ApiClient.PageParametersShape | src/InvictiScanner/Services/InvictiApiClient.cs:121-138 | severity, page, pageSize, sortType=Descending and sourceType=InvictiDast always come first; `webSiteName` and `websiteGroupName` are present exactly when not blank, with their values; no value is null |
| ApiClient.PageParametersDistinct | src/InvictiScanner/Services/InvictiApiClient.cs:121-138 | no key occurs twice |
| ApiClient.FetchIssues | src/InvictiScanner/Services/InvictiApiClient.cs:111-178 | the loop behaves as `FetchBehaves`: every request sent is the expected one; every request but the last got a full page; the last reply decides between interruption, a fault with its status, and completion with the collected issues |
| ApiClient.FetchPage | src/InvictiScanner/Services/InvictiApiClient.cs:118-173 | one loop turn sends exactly one request and either ends the fetch as `FetchBehaves` says or keeps the loop invariant |
| ApiClient.ReadPage | src/InvictiScanner/Services/InvictiApiClient.cs:141-152 | cancellation or timeout interrupts, a failure status faults, and a 404, null body or empty list completes with what was collected |
| ApiClient.ReadListedPage | src/InvictiScanner/Services/InvictiApiClient.cs:154-173 | a listed page adds its qualifying issues up to the target; a short page or the target ends the fetch; a full page continues it |
| ApiClient.BuildRequest | src/InvictiScanner/Services/InvictiApiClient.cs:120-140 | the request carries its page number and size, the query built for them and the path built from that query |
| ApiClient.AddQualifying | src/InvictiScanner/Services/InvictiApiClient.cs:154-166 | the foreach leaves the first `target` qualifying issues of everything received, stopping as soon as the target is reached |
| ApiClient.QualifyingIsFilter | src/InvictiScanner/Services/InvictiApiClient.cs:154-161 | an issue is kept if and only if it was received and reaches the minimum severity |
| ApiClient.QualifyingConcat | src/InvictiScanner/Services/InvictiApiClient.cs:154-161 | the filter distributes over the pages, keeping the service's order |
| ApiClient.ReadShortPage | src/InvictiScanner/Services/InvictiApiClient.cs:168-171 | a page shorter than requested ends the fetch with the issues collected |
| ApiClient.EndsAtTarget | src/InvictiScanner/Services/InvictiApiClient.cs:118 | reaching the target ends the fetch with the collected issues |
| ApiClient.FetchGuarantees | src/InvictiScanner/Services/InvictiApiClient.cs:114-173 | at most max(1, maxIssues) issues, all at or above the minimum severity, forming a prefix of the qualifying issues received in the service's order; request i asks for page i + 1 with size min(200, target − collected) in [1, 200], and its query and path are built from them |
| ApiClient.FetchEnds | src/InvictiScanner/Services/InvictiApiClient.cs:141-147 | cancellation before the first request interrupts the fetch; the only error it raises is a failure status; the clock does not move back |
| ApiClient.NoRequestAfterEnd | src/InvictiScanner/Services/InvictiApiClient.cs:118-173 | once the fetch ends, no further request is possible: a longer run of expected requests on full pages contradicts the reply that ended it |
| ApiClient.FetchDeterministic | src/InvictiScanner/Services/InvictiApiClient.cs:111-177 | `FetchBehaves` pins the fetch: the same replies, cancellation and clock give the same requests, end point and outcome |
| ApiClient.IssuesWebsiteName | src/InvictiScanner/Services/InvictiApiClient.cs:101-103 | the scan record's website name when set, else the configured one or null; never blank |
| ApiClient.ProfileQuery | src/InvictiScanner/Services/InvictiApiClient.cs:105-109 | the fetch uses the profile's minimum severity and issue cap, the given website name and the non-blank configured website group |
| ApiClient.GetIssuesForScan | src/InvictiScanner/Services/InvictiApiClient.cs:99-106 | the fetch for a launched scan behaves as `FetchBehaves` with that query |
| ResultWriter.AttributeKeysDistinct | src/InvictiScanner/Services/ScanResultWriter.cs:90-100 | the eight attribute keys are distinct |
| ResultWriter.AttributesOfIssue | src/InvictiScanner/Services/ScanResultWriter.cs:90-100 | the attributes hold exactly the eight keys, in order, each looking up the issue's own value; any other key is absent |
| ResultWriter.WebsiteLabelChoice | src/InvictiScanner/Services/ScanResultWriter.cs:99 | the website attribute is the website's name, else its root URL, and null without a website |
| ResultWriter.ToFindingFields | src/InvictiScanner/Services/ScanResultWriter.cs:102-111 | the name is the title, else the id's text (an empty title stays empty); the category is "Invicti Issue"; the severity is the lower-cased name and parses back to the issue's severity; the description carries the title or "Unknown" and the declared name; location and classifier pass through |
| ResultWriter.Findings | src/InvictiScanner/Services/ScanResultWriter.cs:32 | one finding per issue, the i-th from the i-th issue |
| ResultWriter.FindingsConcat | src/InvictiScanner/Services/ScanResultWriter.cs:32 | the findings of concatenated issue lists are the concatenated findings |
| ResultWriter.WriteOutcome | src/InvictiScanner/Services/ScanResultWriter.cs:27-45 | unless cancelled, both files are written with the issues' findings and the metadata unchanged; the findings go first; a write cancelled from the start leaves findings.json emptied and scan-metadata.json untouched, one cancelled after the findings leaves them and scan-metadata.json emptied |
| ResultWriter.WriteMetadataOnlyOutcome | src/InvictiScanner/Services/ScanResultWriter.cs:60-85 | an empty findings array and then the metadata; cancelled from the start, findings.json is emptied and the metadata untouched; cancelled after the findings, scan-metadata.json is emptied |
| Orchestrator.FlagValueMeaning | src/InvictiScanner/Services/ScanOrchestrator.cs:117-128 | a flag value is true exactly for "true", "1" or "yes" in any case |
| Orchestrator.ActionSelection | src/InvictiScanner/Services/ScanOrchestrator.cs:114-138 | the environment's issues flag is read only without a command-line one; a truthy flag selects Issues; otherwise the action is the first non-null of command line, SCB_ACTION and settings, and the run fetches issues exactly when it names Issues in any case |
| Orchestrator.FireAndForgetSelection | src/InvictiScanner/Services/ScanOrchestrator.cs:154-192 | a non-blank command-line value decides and the environment is then irrelevant; otherwise a non-blank environment value decides; the default is blocking |
| Orchestrator.ResolveTargetDescription | src/InvictiScanner/Services/ScanOrchestrator.cs:225-233 | the configured website name when it is not blank, and the target URI exactly when it is |
| Orchestrator.ResolveWebsiteName | src/InvictiScanner/Services/ScanOrchestrator.cs:235-248 | the configured website name when set, else the host of an absolute target URI, else null |
| Orchestrator.PollInterval | src/InvictiScanner/Services/ScanOrchestrator.cs:197 | the configured interval when it is at least 5 s, and 5 s otherwise (Math.Max(5, interval)) |
| Orchestrator.TimeoutSeconds | src/InvictiScanner/Services/ScanOrchestrator.cs:198 | the smaller of the maximum wait and the profile's runtime |
| Orchestrator.Sleep | src/InvictiScanner/Services/ScanOrchestrator.cs:218 | a sleep passes one observation point and exactly the interval on the clock |
| Orchestrator.WaitForCompletion | src/InvictiScanner/Services/ScanOrchestrator.cs:195-223 | the wait loop's result is `Poll` from the start, with the deadline and interval above |
| Orchestrator.PollContinues | src/InvictiScanner/Services/ScanOrchestrator.cs:203-219 | a running status before the deadline, without cancellation, continues the wait after one sleep |
| Orchestrator.PollProgress | src/InvictiScanner/Services/ScanOrchestrator.cs:203-219 | the wait never moves the clock back and faults only on a failure status; cancellation at the first test returns the last status seen |
| Orchestrator.PollStops | src/InvictiScanner/Services/ScanOrchestrator.cs:213-216 | every poll but the last saw a running status, so the first terminal status ends the wait |
| Orchestrator.PollLastReply | src/InvictiScanner/Services/ScanOrchestrator.cs:205-216 | a status returned is the reply to the last poll |
| Orchestrator.PollNoStatus | src/InvictiScanner/Services/ScanOrchestrator.cs:206-210 | a null result means no poll ran, or the last reply was a 404 or an empty body |
| Orchestrator.PollTurnEnds | src/InvictiScanner/Services/ScanOrchestrator.cs:203-216 | a turn that does not continue ends the wait before its request with the last status, or with the reply to its request |
| Orchestrator.PollGivesUp | src/InvictiScanner/Services/ScanOrchestrator.cs:203-222 | a non-terminal status is returned only once the clock reached the deadline or the loop test saw cancellation |
| Orchestrator.PollTimesOut | src/InvictiScanner/Services/ScanOrchestrator.cs:200-222 | a scan that keeps running is waited for until the deadline, and the last status seen (null without a poll) is returned |
| Orchestrator.CompleteOnThirdPoll | src/InvictiScanner/Services/ScanOrchestrator.cs:203-216 | Scanning, Scanning, Complete: the wait returns Complete after exactly three polls |
| Orchestrator.WaitStatusAgrees | src/InvictiScanner/Services/ScanOrchestrator.cs:98-105 | the blocking mode exits with 0 exactly when the status it records is "Complete", and with 3 otherwise |
| Orchestrator.Run | src/InvictiScanner/Services/ScanOrchestrator.cs:27-112 | every run ends with 0, 2, 3 or 130 or crashes. Cancellation before the first call gives 130 unless a configuration error comes first. An interrupted run writes no metadata and a crashed one touches no file; only an interrupted run leaves a file emptied by a cancelled write. The metadata keeps mode, duration and start. In issues mode the run is exactly `IssuesOnlyRun` for its fetch, in scan mode exactly `ScanRun` for the launch reply; the issues recorded are the fetch's |
| Orchestrator.ResolveRun | src/InvictiScanner/Services/ScanOrchestrator.cs:31-50 | the profile, action, fire-and-forget flag and initial metadata are those the resolvers give |
| Orchestrator.RunIssuesOnly | src/InvictiScanner/Services/ScanOrchestrator.cs:53-61 | the fetch is FetchIssuesAsync from the start of the run (`FetchBehaves`). An interrupted fetch gives 130 and no file, a failure status a crash with it. A completed fetch writes exactly its issues with "Fetched n issue(s)" and gives 0, or 130 when the write is cancelled. The issues are at most the target, each at or above the minimum severity |
| Orchestrator.RunScan | src/InvictiScanner/Services/ScanOrchestrator.cs:64-105 | the scan launched is exactly the launch reply's. An interrupted launch gives 130 and a failure status a crash. No scan writes empty findings and "LaunchFailed" and gives 2. After a launch, ScanId and Target (the scan's URI, else the description) are recorded. Fire-and-forget never waits and writes "Launched" with the four notes, giving 0. Blocking waits as `Poll` says, then goes on as `BlockingRun`. Each write cancelled gives 130 |
| Orchestrator.RunLaunchFailed | src/InvictiScanner/Services/ScanOrchestrator.cs:65-72 | the files are exactly what writing empty findings and the metadata marked "LaunchFailed" leaves; the exit is 130 exactly when that write is cancelled, else 2 |
| Orchestrator.RunFireAndForget | src/InvictiScanner/Services/ScanOrchestrator.cs:78-93 | the files are exactly what the metadata-only write of "Launched" with the profile description and the three notes leaves; the exit is 130 exactly when that write is cancelled, else 0 |
| Orchestrator.RunBlocking | src/InvictiScanner/Services/ScanOrchestrator.cs:96-105 | the wait is `Poll` from the launch, and the rest is `BlockingRun`: unless the wait is interrupted or faults, the scan's issues are always fetched and written after it, also on timeout, Failed or Cancelled. The status is the state's name or "Unknown", with exit 0 exactly for Complete, else 3 |
| Orchestrator.AfterWait | src/InvictiScanner/Services/ScanOrchestrator.cs:97-105 | an interrupted wait gives 130 and a faulted one a crash, without a fetch. After a wait that returned, the fetch is FetchIssuesAsync for the scan; an interrupted fetch gives 130, a failure status a crash, and a completed one writes exactly its issues with the final state |
| Orchestrator.FetchForRun | src/InvictiScanner/Services/ScanOrchestrator.cs:55 | the issues-only fetch behaves as `FetchBehaves` says; it is bounded by the target, filtered by severity, interrupted by early cancellation, and faults only on a failure status |
| Orchestrator.GetIssuesForRun | src/InvictiScanner/Services/ScanOrchestrator.cs:100 | the same for the fetch after a scan, with the scan's website name |
| Orchestrator.IssuesOnlyRunDetermined | src/InvictiScanner/Services/ScanOrchestrator.cs:53-61 | the issues-only mode has one outcome: the same replies, cancellation and clock give the same fetch, exit code and files |
| Orchestrator.ScanRunDetermined | src/InvictiScanner/Services/ScanOrchestrator.cs:64-105 | the scan mode has one outcome: the same launch, wait, fetch, exit code and files |

## Left out

- **Program.cs.** The host bootstrap (dependency injection, configuration
  binding, logging set-up, the Ctrl+C handler) is not part of this model.
- **HTTP transport and JSON.** A reply is one of `Ok(body)`, `NotFound`,
  `Failed(status)` or `TimedOut`, carrying an already deserialised body. Two
  things are therefore not modelled:
  - serialisation;
  - header and URL formatting beyond the query string.
  A launch body that does not have the expected shape is `MalformedResponse`;
  status and issue-page bodies are always well formed (see below).
- **BuildHandler and TLS settings.** These are library configuration only.
  `ConfigureHttpClient` is modelled as the record of what it sets. The Basic
  credentials are given before their Base64 encoding.
- **File I/O.** The output is the state of each of the two files: untouched,
  emptied by `File.Create`, or written with its contents. The output
  directory, file paths, `Directory.CreateDirectory` and JSON formatting are
  not modelled.
- **Logging** everywhere.
- **Time and cancellation.** These are modelled as observation points, a
  per-point elapsed time and one cancellation point. Two things are not
  modelled:
  - threads;
  - a cancellation that lands in the middle of a call rather than at its
    await.
  `DateTimeOffset.UtcNow` is a reading of that clock. A `Task.Delay` takes
  exactly its interval (`Orchestrator.Sleep`); a delay that overruns it is not
  modelled.
- **Platform functions.** `Guid.TryParse`, `Guid.ToString`, `Uri.TryCreate`
  with `Uri.Host` and `Uri.EscapeDataString` are uninterpreted parameters. The
  query lemmas assume only that the escape encodes '?', '&' and '='. The base
  URI is not parsed.
- **.NET parsing quirks.** `Enum.TryParse` also accepts numeric strings and
  comma-separated lists, and `bool.TryParse` also trims '\0'. Neither is
  modelled: the model matches member names after trimming white space.
  - Case mapping covers ASCII letters only.
  - White space is a fixed set of characters.
  - `Split('=', 2, RemoveEmptyEntries)` is written out for the two-part case
    the parser uses.
- **Issue pages are a finite list, empty past its end.** The source loop does
  not end if the service keeps returning full pages whose issues are all below
  the minimum severity. That server behaviour cannot be expressed here, and
  every fetch in the model terminates.
- **The metadata object.** It is a value updated step by step inside the run
  rather than a mutable object. Nothing else holds a reference to it, so no
  aliasing is lost.
- **Unused settings.** `EndpointTags` is carried but never used, as in the
  source. `WebsiteId`, `OutputPath` and `VerifyTls` are carried as settings
  only.
- **Runtime faults.** Exceptions other than cancellation, a configuration
  error, a failure status and a malformed launch body are not modelled, for
  example I/O errors while writing.
- **Malformed status and issue-page bodies.** A status or issue-page reply
  carries an already deserialised body. The `JsonException` that
  `ReadFromJsonAsync` throws on a body that does not parse is not modelled;
  in the source it is not caught and crashes the process. Only the launch
  reply models a body of the wrong shape (`MalformedResponse`).
- FetchEnds: "the only error it raises is a failure status" holds for the
  modelled replies only; a malformed issue page would also crash the run.
  The same holds for `FetchSummary`, `IssuesOnlyEnds`, `BlockingEnds` and
  the crash clause of `RunEnds`.
- PollProgress: "faults only on a failure status" holds for the modelled
  replies only; a malformed status body would also crash the run.
- **Enum values outside the declared members.** JSON enums are read as
  numbers without a range check. A severity such as 9 or a scan state such as
  42 deserialises in the source. The model's `IssueSeverity` and `ScanState`
  hold only the declared members. In the source such a severity passes every
  minimum-severity filter and is written as "9". Such a state is not
  terminal, so polling goes on. The severity and state lemmas
  (`Severities.IsAtLeastTotalOrder`, `ResultWriter.ToFindingFields`,
  `Orchestrator.PollStops`) are about the declared members only.
