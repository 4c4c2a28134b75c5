/**
 * The decision logic of InvictiApiClient (Services/InvictiApiClient.cs): which
 * launch request is sent, how a status reply is read, and the paged issue
 * fetch. Every service call is one observation point of the run; the service
 * itself is an oracle of replies.
 */
module ApiClient {
  import opened DotNet
  import opened Effects
  import Dtos
  import Severities
  import Settings
  import QueryBuilder

  // Small helpers.

  /** NullIfEmpty: null for a null or blank value, the value itself otherwise. */
  function NullIfEmpty(value: Option<string>): (r: Option<string>)
    ensures r.None? <==> IsNullOrWhiteSpace(value)
    ensures r.Some? ==> r == value && !IsBlank(r.value)
  {
    if IsNullOrWhiteSpace(value) then None else value
  }

  const TargetUriMissing: string :=
    "Invicti:TargetUri must be provided either via configuration or SCB_INVICTI__TARGETURI environment variable."
  const BaseUrlMissing: string := "Invicti:BaseUrl is missing."

  /** ResolveTargetUri: the configured target, or the configuration error it throws. */
  function ResolveTargetUri(settings: Settings.InvictiSettings): (r: Outcome<string>)
    ensures r.Completed? <==> !IsBlank(settings.targetUri)
    ensures r.Completed? ==> r.value == settings.targetUri
    ensures !r.Completed? ==> r == Faulted(ConfigurationError(TargetUriMissing))
  {
    if !IsBlank(settings.targetUri) then Completed(settings.targetUri)
    else Faulted(ConfigurationError(TargetUriMissing))
  }

  /** EnsureBaseUri before the Uri is built: a trailing '/' is added only when missing. */
  function EnsureBaseUri(value: string): (r: string)
    ensures EndsWith(r, '/')
    ensures value <= r && |r| <= |value| + 1
    ensures EndsWith(value, '/') ==> r == value
  {
    if EndsWith(value, '/') then value else value + "/"
  }

  lemma EnsureBaseUriIdempotent(value: string)
    ensures EnsureBaseUri(EnsureBaseUri(value)) == EnsureBaseUri(value)
  {
  }

  /** The X-Auth header value of ConfigureHttpClient: "ApiId:ApiToken" when an id is set, else the token. */
  function XAuthHeader(settings: Settings.InvictiSettings): (r: Option<string>)
    ensures r.None? <==> IsBlank(settings.apiToken) && IsBlank(settings.apiId)
    ensures !IsBlank(settings.apiId) ==> r == Some(settings.apiId + ":" + settings.apiToken)
    ensures IsBlank(settings.apiId) && !IsBlank(settings.apiToken) ==> r == Some(settings.apiToken)
  {
    if !IsBlank(settings.apiToken) || !IsBlank(settings.apiId) then
      Some(if !IsBlank(settings.apiId) then settings.apiId + ":" + settings.apiToken else settings.apiToken)
    else None
  }

  /** The text before the first ':' of a header value, and the rest after it. */
  function SplitAtColon(s: string): (string, string) {
    if s == [] then ("", "")
    else if s[0] == ':' then ("", s[1..])
    else var rest := SplitAtColon(s[1..]); ([s[0]] + rest.0, rest.1)
  }

  /** An id without ':' can be read back from the X-Auth value together with the token. */
  lemma {:induction false} XAuthHeaderSplits(settings: Settings.InvictiSettings)
    requires !IsBlank(settings.apiId) && ':' !in settings.apiId
    ensures XAuthHeader(settings).Some?
    ensures SplitAtColon(XAuthHeader(settings).value) == (settings.apiId, settings.apiToken)
  {
    SplitAtColonOfPair(settings.apiId, settings.apiToken);
  }

  lemma {:induction false} SplitAtColonOfPair(id: string, token: string)
    requires ':' !in id
    ensures SplitAtColon(id + ":" + token) == (id, token)
    decreases |id|
  {
    if id == [] {
      assert id + ":" + token == [':'] + token;
    } else {
      assert (id + ":" + token)[1..] == id[1..] + ":" + token;
      assert ':' !in id[1..] by {
        forall i | 0 <= i < |id[1..]| ensures id[1..][i] != ':' {
          assert id[1..][i] == id[i + 1];
        }
      }
      SplitAtColonOfPair(id[1..], token);
      assert [id[0]] + id[1..] == id;
    }
  }

  /** What ConfigureHttpClient sets on the client; the Basic credentials are given before Base64 encoding. */
  datatype ClientConfiguration = ClientConfiguration(
    baseAddress: string,
    timeoutMinutes: int,
    accept: string,
    userAgent: string,
    xAuth: Option<string>,
    basicCredentials: Option<string>)

  function ConfigureHttpClient(settings: Settings.InvictiSettings): (r: Outcome<ClientConfiguration>)
    ensures r.Faulted? <==> IsBlank(settings.baseUrl)
    ensures r.Faulted? ==> r.error == ConfigurationError(BaseUrlMissing)
    ensures r.Completed? ==> r.value.baseAddress == EnsureBaseUri(settings.baseUrl) && r.value.timeoutMinutes == 10
    ensures r.Completed? ==> r.value.xAuth == XAuthHeader(settings)
    ensures r.Completed? ==> (r.value.basicCredentials.Some? <==> !IsBlank(settings.username) && !IsBlank(settings.password))
    ensures !r.Interrupted?
  {
    if IsBlank(settings.baseUrl) then Faulted(ConfigurationError(BaseUrlMissing))
    else
      Completed(ClientConfiguration(
        baseAddress := EnsureBaseUri(settings.baseUrl),
        timeoutMinutes := 10,
        accept := "application/json",
        userAgent := "securecodebox-invicti-scanner/1.0",
        xAuth := XAuthHeader(settings),
        basicCredentials :=
          if !IsBlank(settings.username) && !IsBlank(settings.password)
          then Some(settings.username + ":" + settings.password) else None))
  }

  // The scan duration sent with a launch.

  /** Math.Ceiling(m / 60d) for an int m, without floating point. */
  function CeilingOfHours(minutes: int): (h: int)
    ensures (h - 1) * 60 < minutes <= h * 60
  {
    if minutes >= 0 then (minutes + 59) / 60 else -((-minutes) / 60)
  }

  /** Math.Max(1, (int)Math.Ceiling(minutes / 60d)): whole hours covering the runtime, at least one. */
  function MaxScanDuration(minutes: int): (hours: int)
    ensures hours >= 1
    ensures minutes > 0 ==> (hours - 1) * 60 < minutes <= hours * 60
    ensures minutes <= 60 ==> hours == 1
  {
    Max(1, CeilingOfHours(minutes))
  }

  lemma MaxScanDurationExamples()
    ensures MaxScanDuration(15) == 1 && MaxScanDuration(120) == 2 && MaxScanDuration(480) == 8
    ensures MaxScanDuration(61) == 2 && MaxScanDuration(0) == 1 && MaxScanDuration(-30) == 1
  {
  }

  lemma MaxScanDurationMonotonic(a: int, b: int)
    requires a <= b
    ensures MaxScanDuration(a) <= MaxScanDuration(b)
  {
  }

  // Launching a scan.

  datatype LaunchRequest =
    | IncrementalScan(incremental: Dtos.IncrementalApiModel)
    | ProfileScan(withProfile: Dtos.NewScanTaskWithProfileApiModel)
    | AdHocScan(adHoc: Dtos.NewScanTaskApiModel)

  function Endpoint(request: LaunchRequest): string {
    match request
    case IncrementalScan(_) => "/api/1.0/scans/incremental"
    case ProfileScan(_) => "/api/1.0/scans/newwithprofile"
    case AdHocScan(_) => "/api/1.0/scans/new"
  }

  /** The incremental route is taken when the profile asks for it and the base scan id is a GUID. */
  predicate UsesIncremental(platform: Platform, settings: Settings.InvictiSettings, profile: Settings.DurationProfile) {
    profile.useIncremental && platform.parseGuid(settings.incrementalBaseScanId).Some?
  }

  /** The named-profile route is taken when the duration profile or the settings name a scan profile. */
  predicate UsesProfile(settings: Settings.InvictiSettings, profile: Settings.DurationProfile) {
    !IsNullOrWhiteSpace(profile.profileName) || !IsBlank(settings.scanProfileId)
  }

  /** The request LaunchScanAsync sends, or the configuration error thrown before sending. */
  function PlanLaunch(platform: Platform, settings: Settings.InvictiSettings, profile: Settings.DurationProfile)
    : (r: Outcome<LaunchRequest>)
    ensures !r.Interrupted?
    ensures (r.Completed? && r.value.IncrementalScan?) <==> UsesIncremental(platform, settings, profile)
    ensures (r.Completed? && r.value.ProfileScan?) <==>
      !UsesIncremental(platform, settings, profile) && UsesProfile(settings, profile) && !IsBlank(settings.targetUri)
    ensures (r.Completed? && r.value.AdHocScan?) <==>
      !UsesIncremental(platform, settings, profile) && !UsesProfile(settings, profile) && !IsBlank(settings.targetUri)
    ensures r.Faulted? <==> !UsesIncremental(platform, settings, profile) && IsBlank(settings.targetUri)
    ensures r.Faulted? ==> r.error == ConfigurationError(TargetUriMissing)
    ensures r.Completed? && r.value.IncrementalScan? ==>
      var m := r.value.incremental;
      Some(m.baseScanId) == platform.parseGuid(settings.incrementalBaseScanId)
      && m.isMaxScanDurationEnabled && m.maxScanDuration == MaxScanDuration(profile.maxRuntimeMinutes)
      && m.agentGroupName == NullIfEmpty(Some(settings.defaultAgentGroup))
      && m.agentName == NullIfEmpty(Some(settings.agentName))
    ensures r.Completed? && r.value.ProfileScan? ==>
      var m := r.value.withProfile;
      m.targetUri == settings.targetUri
      && m.profileName == (if !IsNullOrWhiteSpace(profile.profileName) then profile.profileName.value else settings.scanProfileId)
    ensures r.Completed? && r.value.AdHocScan? ==>
      var m := r.value.adHoc;
      m.targetUri == settings.targetUri && m.createType == "Website"
      && m.crawlAndAttack == profile.allowFullScan && m.reportPolicyFailingUrls == profile.allowFullScan
      && m.isMaxScanDurationEnabled && m.maxScanDuration == MaxScanDuration(profile.maxRuntimeMinutes)
      && m.agentGroupName == NullIfEmpty(Some(settings.defaultAgentGroup))
      && m.agentName == NullIfEmpty(Some(settings.agentName))
  {
    var baseScanId := platform.parseGuid(settings.incrementalBaseScanId);
    if profile.useIncremental && baseScanId.Some? then
      Completed(IncrementalScan(Dtos.IncrementalApiModel(
        isMaxScanDurationEnabled := true,
        maxScanDuration := MaxScanDuration(profile.maxRuntimeMinutes),
        agentGroupName := NullIfEmpty(Some(settings.defaultAgentGroup)),
        agentName := NullIfEmpty(Some(settings.agentName)),
        baseScanId := baseScanId.value)))
    else if !IsNullOrWhiteSpace(profile.profileName) || !IsBlank(settings.scanProfileId) then
      var profileName := if !IsNullOrWhiteSpace(profile.profileName) then profile.profileName.value else settings.scanProfileId;
      match ResolveTargetUri(settings)
      case Completed(uri) => Completed(ProfileScan(Dtos.NewScanTaskWithProfileApiModel(profileName, uri)))
      case Faulted(e) => Faulted(e)
      case Interrupted => Interrupted
    else
      match ResolveTargetUri(settings)
      case Completed(uri) =>
        Completed(AdHocScan(Dtos.NewScanTaskApiModel(
          targetUri := uri,
          createType := "Website",
          websiteGroupId := None,
          agentGroupName := NullIfEmpty(Some(settings.defaultAgentGroup)),
          agentName := NullIfEmpty(Some(settings.agentName)),
          crawlAndAttack := profile.allowFullScan,
          isMaxScanDurationEnabled := true,
          maxScanDuration := MaxScanDuration(profile.maxRuntimeMinutes),
          reportPolicyFailingUrls := profile.allowFullScan)))
      case Faulted(e) => Faulted(e)
      case Interrupted => Interrupted
  }

  /**
   * The deserialised body of a launch reply: one scan record (incremental and
   * profile routes) or a list of them (ad-hoc route); null bodies are None.
   */
  datatype LaunchResponse =
    | SingleTask(task: Option<Dtos.ScanTaskModel>)
    | TaskList(tasks: Option<seq<Dtos.ScanTaskModel>>)

  /** List.FirstOrDefault on a nullable list. */
  function FirstOrNull(tasks: Option<seq<Dtos.ScanTaskModel>>): (r: Option<Dtos.ScanTaskModel>)
    ensures r.Some? <==> tasks.Some? && tasks.value != []
    ensures r.Some? ==> r.value == tasks.value[0]
  {
    if tasks.Some? && tasks.value != [] then Some(tasks.value[0]) else None
  }

  /** The scan record a successful reply yields for the request that was sent. */
  function ScanOfResponse(request: LaunchRequest, response: LaunchResponse): Outcome<Option<Dtos.ScanTaskModel>> {
    if request.AdHocScan? then
      (if response.TaskList? then Completed(FirstOrNull(response.tasks)) else Faulted(MalformedResponse))
    else
      (if response.SingleTask? then Completed(response.task) else Faulted(MalformedResponse))
  }

  /**
   * LaunchScanAsync at observation point `point`: a configuration error is
   * thrown before anything is sent; otherwise the request is sent and the
   * reply read.
   */
  function LaunchScan(rt: Runtime, point: nat, platform: Platform, settings: Settings.InvictiSettings,
                      profile: Settings.DurationProfile, reply: HttpReply<LaunchResponse>)
    : (r: Outcome<Option<Dtos.ScanTaskModel>>)
    ensures PlanLaunch(platform, settings, profile).Faulted? ==> r == Faulted(PlanLaunch(platform, settings, profile).error)
    ensures r.Completed? ==>
      PlanLaunch(platform, settings, profile).Completed? && !CancellationRequested(rt, point) && reply.Ok?
    ensures PlanLaunch(platform, settings, profile).Completed? ==>
      (r.Interrupted? <==> CancellationRequested(rt, point) || reply.TimedOut?)
    ensures PlanLaunch(platform, settings, profile).Completed? && PlanLaunch(platform, settings, profile).value.AdHocScan?
      && !CancellationRequested(rt, point) && reply.Ok? && reply.body.TaskList?
      ==> r == Completed(FirstOrNull(reply.body.tasks))
    ensures PlanLaunch(platform, settings, profile).Completed? && !PlanLaunch(platform, settings, profile).value.AdHocScan?
      && !CancellationRequested(rt, point) && reply.Ok? && reply.body.SingleTask?
      ==> r == Completed(reply.body.task)
    ensures PlanLaunch(platform, settings, profile).Completed? && !CancellationRequested(rt, point) && reply.Failed?
      ==> r == Faulted(RemoteServiceError(reply.statusCode))
    ensures PlanLaunch(platform, settings, profile).Completed? && !CancellationRequested(rt, point) && reply.NotFound?
      ==> r == Faulted(RemoteServiceError(404))
    ensures PlanLaunch(platform, settings, profile).Completed? && !CancellationRequested(rt, point) && reply.Ok?
      && (PlanLaunch(platform, settings, profile).value.AdHocScan? <==> reply.body.SingleTask?)
      ==> r == Faulted(MalformedResponse)
  {
    match PlanLaunch(platform, settings, profile)
    case Faulted(e) => Faulted(e)
    case Interrupted => Interrupted
    case Completed(request) =>
      match Await(rt, point, reply)
      case Completed(response) => ScanOfResponse(request, response)
      case Faulted(e) => Faulted(e)
      case Interrupted => Interrupted
  }

  // Polling the scan status.

  /** GetScanStatusAsync: a 404 reads as "no status" (null); other failures throw. */
  function GetScanStatus(rt: Runtime, point: nat, reply: HttpReply<Option<Dtos.ApiScanStatusModel>>)
    : (r: Outcome<Option<Dtos.ApiScanStatusModel>>)
    ensures r.Interrupted? <==> CancellationRequested(rt, point) || reply.TimedOut?
    ensures !CancellationRequested(rt, point) && reply.NotFound? ==> r == Completed(None)
    ensures !CancellationRequested(rt, point) && reply.Ok? ==> r == Completed(reply.body)
    ensures r.Faulted? <==> !CancellationRequested(rt, point) && reply.Failed?
    ensures r.Faulted? ==> r.error == RemoteServiceError(reply.statusCode)
  {
    if !CancellationRequested(rt, point) && reply.NotFound? then Completed(None)
    else Await(rt, point, reply)
  }

  // Fetching issues page by page.

  /** The arguments of FetchIssuesAsync other than the cancellation token. */
  datatype IssueQuery = IssueQuery(
    minimumSeverity: Severities.IssueSeverity,
    maxIssues: int,
    websiteName: Option<string>,
    websiteGroupName: Option<string>)

  /** Math.Max(1, maxIssues): how many issues the fetch collects at most. */
  function Target(query: IssueQuery): (n: nat)
    ensures n >= 1 && n >= query.maxIssues
    ensures n == 1 || n == query.maxIssues
  {
    Max(1, query.maxIssues)
  }

  /** The five parameters every page request carries, in insertion order. */
  function FixedParameters(query: IssueQuery, page: nat, pageSize: nat): seq<(string, Option<string>)> {
    [ ("severity", Some(Severities.Name(query.minimumSeverity))),
      ("page", Some(NatToString(page))),
      ("pageSize", Some(NatToString(pageSize))),
      ("sortType", Some("Descending")),
      ("sourceType", Some("InvictiDast")) ]
  }

  /** A parameter that is added only when its value is not blank. */
  function OptionalParameter(key: string, value: Option<string>): seq<(string, Option<string>)> {
    if IsNullOrWhiteSpace(value) then [] else [(key, value)]
  }

  /** The query dictionary of one page request, in insertion order. */
  function PageParameters(query: IssueQuery, page: nat, pageSize: nat): seq<(string, Option<string>)> {
    FixedParameters(query, page, pageSize)
    + OptionalParameter("webSiteName", query.websiteName)
    + OptionalParameter("websiteGroupName", query.websiteGroupName)
  }

  predicate HasKey(parameters: seq<(string, Option<string>)>, key: string) {
    exists i :: 0 <= i < |parameters| && parameters[i].0 == key
  }

  /** Each parameter of a page request: the five fixed ones, then the website name and group when present. */
  lemma PageParametersAt(query: IssueQuery, page: nat, pageSize: nat)
    ensures var p := PageParameters(query, page, pageSize);
      var site := OptionalParameter("webSiteName", query.websiteName);
      var group := OptionalParameter("websiteGroupName", query.websiteGroupName);
      && |p| == 5 + |site| + |group|
      && forall i :: 0 <= i < |p| ==>
           p[i] == (if i < 5 then FixedParameters(query, page, pageSize)[i]
                    else if i < 5 + |site| then site[i - 5] else group[i - 5 - |site|])
  {
  }

  /**
   * The five fixed parameters always come first; the website name and group
   * are present exactly when they are not blank, with their own values; no
   * value is null.
   */
  lemma PageParametersShape(query: IssueQuery, page: nat, pageSize: nat)
    ensures var p := PageParameters(query, page, pageSize);
      |p| >= 5 && p[..5] == FixedParameters(query, page, pageSize)
    ensures var p := PageParameters(query, page, pageSize);
      (HasKey(p, "webSiteName") <==> !IsNullOrWhiteSpace(query.websiteName))
      && (HasKey(p, "websiteGroupName") <==> !IsNullOrWhiteSpace(query.websiteGroupName))
    ensures var p := PageParameters(query, page, pageSize);
      (!IsNullOrWhiteSpace(query.websiteName) ==> ("webSiteName", query.websiteName) in p)
      && (!IsNullOrWhiteSpace(query.websiteGroupName) ==> ("websiteGroupName", query.websiteGroupName) in p)
    ensures var p := PageParameters(query, page, pageSize);
      forall i :: 0 <= i < |p| ==> p[i].1.Some?
  {
    var p := PageParameters(query, page, pageSize);
    PageParametersAt(query, page, pageSize);
    assert p[..5] == FixedParameters(query, page, pageSize);
    if !IsNullOrWhiteSpace(query.websiteName) {
      assert p[5] == ("webSiteName", query.websiteName);
    }
    if !IsNullOrWhiteSpace(query.websiteGroupName) {
      assert p[|p| - 1] == ("websiteGroupName", query.websiteGroupName);
    }
  }

  /** No key occurs twice among the parameters of a page request. */
  lemma PageParametersDistinct(query: IssueQuery, page: nat, pageSize: nat)
    ensures var p := PageParameters(query, page, pageSize);
      forall i, j :: 0 <= i < j < |p| ==> p[i].0 != p[j].0
  {
    PageParametersAt(query, page, pageSize);
  }

  /** The path WithQuery builds for a page request. */
  function PagePath(escape: string -> string, parameters: seq<(string, Option<string>)>): string {
    if QueryBuilder.Included(parameters) == [] then "/api/1.0/issues"
    else "/api/1.0/issues" + "?" + QueryBuilder.Joined(escape, QueryBuilder.Included(parameters))
  }

  type IssueReply = HttpReply<Option<seq<Dtos.BasicIssueDto>>>

  /** The service's reply for page p (1-based): the given replies, then empty lists. */
  function PageReply(pages: seq<IssueReply>, p: nat): IssueReply {
    if 1 <= p <= |pages| then pages[p - 1] else Ok(Some([]))
  }

  /** The issues a reply lists (none unless it is a non-null list). */
  function Listed(reply: IssueReply): seq<Dtos.BasicIssueDto> {
    if reply.Ok? && reply.body.Some? then reply.body.value else []
  }

  /** Every issue listed in the replies to pages 1..k, in order. */
  function Received(pages: seq<IssueReply>, k: nat): seq<Dtos.BasicIssueDto> {
    if k == 0 then [] else Received(pages, k - 1) + Listed(PageReply(pages, k))
  }

  /** The issues of `issues` whose severity reaches `minimum`, in order. */
  function Qualifying(issues: seq<Dtos.BasicIssueDto>, minimum: Severities.IssueSeverity): (r: seq<Dtos.BasicIssueDto>)
    ensures |r| <= |issues|
  {
    if issues == [] then []
    else
      var last := issues[|issues| - 1];
      Qualifying(issues[..|issues| - 1], minimum) + (if Severities.IsAtLeast(last.severity, minimum) then [last] else [])
  }

  function Take<T>(s: seq<T>, n: nat): (r: seq<T>)
    ensures |r| == Min(|s|, n) && r <= s
  {
    if |s| <= n then s else s[..n]
  }

  /** A reply that makes the loop ask for the next page: a non-empty list of at least the requested size. */
  predicate FullPage(reply: IssueReply, pageSize: int) {
    reply.Ok? && reply.body.Some? && |reply.body.value| != 0 && |reply.body.value| >= pageSize
  }

  /** One page request: its number, its size and the path sent. */
  datatype PageRequest = PageRequest(page: nat, pageSize: int, parameters: seq<(string, Option<string>)>, path: string)

  /** The issues FetchIssuesAsync returns after k requests: the first Target() qualifying ones received. */
  function Collected(query: IssueQuery, pages: seq<IssueReply>, k: nat): seq<Dtos.BasicIssueDto> {
    Take(Qualifying(Received(pages, k), query.minimumSeverity), Target(query))
  }

  /**
   * Request i asked for page i + 1 with what was still missing, at most 200,
   * as its size; its query and path were built from those; and it was sent
   * while fewer than Target() issues were collected.
   */
  ghost predicate RequestExpected(escape: string -> string, query: IssueQuery, pages: seq<IssueReply>,
                                  request: PageRequest, i: nat) {
    request.page == i + 1 && request.pageSize == ExpectedSize(query, pages, i) && RequestBuilt(escape, query, request)
    && |Qualifying(Received(pages, i), query.minimumSeverity)| < Target(query)
  }

  /** A request whose parameters and path are the ones built for its page number and size. */
  predicate RequestBuilt(escape: string -> string, query: IssueQuery, request: PageRequest) {
    && request.pageSize >= 0
    && request.parameters == PageParameters(query, request.page, request.pageSize)
    && request.path == PagePath(escape, request.parameters)
  }

  /** Every request sent is the expected one, and each was sent while fewer than Target() issues were collected. */
  ghost predicate RequestsExpected(escape: string -> string, query: IssueQuery, pages: seq<IssueReply>, sent: seq<PageRequest>) {
    forall i :: 0 <= i < |sent| ==> RequestExpected(escape, query, pages, sent[i], i)
  }

  /** The page size requested for page i + 1: what is still missing, at most 200. */
  function ExpectedSize(query: IssueQuery, pages: seq<IssueReply>, i: nat): int {
    Min(200, Target(query) - |Qualifying(Received(pages, i), query.minimumSeverity)|)
  }

  /** The request for page i + 1 was not cancelled and got a full page, so the loop went on. */
  ghost predicate Continued(rt: Runtime, start: Progress, query: IssueQuery, pages: seq<IssueReply>, i: nat) {
    !CancellationRequested(rt, start.point + i) && FullPage(PageReply(pages, i + 1), ExpectedSize(query, pages, i))
  }

  /** The first n requests were not cancelled and each got a full page. */
  ghost predicate PagesFull(rt: Runtime, start: Progress, query: IssueQuery, pages: seq<IssueReply>, n: nat) {
    forall i :: 0 <= i < n ==> Continued(rt, start, query, pages, i)
  }

  /**
   * How the reply to the last request ends the fetch: cancellation or a client
   * timeout interrupts it, a failure status faults it; otherwise it completes
   * with the collected issues, because the reply was not a full page or the
   * target was reached.
   */
  ghost predicate LastReplyDecides(rt: Runtime, start: Progress, query: IssueQuery, pages: seq<IssueReply>,
                                   sent: seq<PageRequest>, r: Outcome<seq<Dtos.BasicIssueDto>>)
    requires |sent| >= 1
  {
    var last := PageReply(pages, |sent|);
    var cancelled := CancellationRequested(rt, start.point + |sent| - 1);
    && (r.Interrupted? <==> cancelled || last.TimedOut?)
    && (r.Faulted? <==> !cancelled && last.Failed?)
    && (r.Faulted? ==> r.error == RemoteServiceError(last.statusCode))
    && (r.Completed? ==>
          r.value == Collected(query, pages, |sent|)
          && (!FullPage(last, sent[|sent| - 1].pageSize) || |r.value| == Target(query)))
  }

  /**
   * What FetchIssuesAsync does, request by request: the requests sent are the
   * expected ones; every request but the last got a full page while fewer than
   * Target() issues had been collected; the last reply decides the outcome.
   */
  ghost predicate FetchBehaves(rt: Runtime, start: Progress, escape: string -> string, query: IssueQuery,
                               pages: seq<IssueReply>, r: Outcome<seq<Dtos.BasicIssueDto>>, finish: Progress,
                               sent: seq<PageRequest>)
  {
    && |sent| >= 1
    && finish == Elapse(rt, start, |sent|)
    && RequestsExpected(escape, query, pages, sent)
    && PagesFull(rt, start, query, pages, |sent| - 1)
    && LastReplyDecides(rt, start, query, pages, sent, r)
  }

  /** The state of the fetch loop after |sent| requests that all got a full page. */
  ghost predicate Fetching(rt: Runtime, start: Progress, escape: string -> string, query: IssueQuery,
                           pages: seq<IssueReply>, results: seq<Dtos.BasicIssueDto>, sent: seq<PageRequest>,
                           finish: Progress) {
    && |sent| <= |pages|
    && finish == Elapse(rt, start, |sent|)
    && results == Collected(query, pages, |sent|)
    && RequestsExpected(escape, query, pages, sent)
    && PagesFull(rt, start, query, pages, |sent|)
    && (|sent| == 0 ==> results == [])
  }

  /** FetchIssuesAsync over the page oracle `pages`, starting at observation point `start`. */
  method FetchIssues(rt: Runtime, start: Progress, escape: string -> string, query: IssueQuery, pages: seq<IssueReply>)
    returns (r: Outcome<seq<Dtos.BasicIssueDto>>, finish: Progress, sent: seq<PageRequest>)
    ensures FetchBehaves(rt, start, escape, query, pages, r, finish, sent)
  {
    var target := Max(1, query.maxIssues);
    var results: seq<Dtos.BasicIssueDto> := [];
    finish := start;
    sent := [];
    while |results| < target
      invariant Fetching(rt, start, escape, query, pages, results, sent, finish)
      decreases |pages| - |sent|
    {
      var ended: Option<Outcome<seq<Dtos.BasicIssueDto>>>;
      ended, results, sent, finish := FetchPage(rt, start, escape, query, pages, results, sent, finish);
      if ended.Some? {
        r := ended.value;
        return;
      }
    }
    r := Completed(results);
    EndsAtTarget(rt, start, escape, query, pages, results, sent, finish);
  }

  /**
   * One turn of the fetch loop: request page |sent| + 1 and add its qualifying
   * issues. Returns the outcome of the fetch when this page ends it, and None
   * when the loop goes on to the next page.
   */
  method FetchPage(rt: Runtime, start: Progress, escape: string -> string, query: IssueQuery, pages: seq<IssueReply>,
                   results: seq<Dtos.BasicIssueDto>, sent: seq<PageRequest>, finish: Progress)
    returns (ended: Option<Outcome<seq<Dtos.BasicIssueDto>>>, results': seq<Dtos.BasicIssueDto>,
             sent': seq<PageRequest>, finish': Progress)
    requires Fetching(rt, start, escape, query, pages, results, sent, finish) && |results| < Target(query)
    ensures |sent'| == |sent| + 1
    ensures ended.Some? ==> FetchBehaves(rt, start, escape, query, pages, ended.value, finish', sent')
    ensures ended.None? ==> Fetching(rt, start, escape, query, pages, results', sent', finish')
  {
    var target := Max(1, query.maxIssues);
    var remaining := Min(200, target - |results|);
    var request := BuildRequest(escape, query, |sent| + 1, remaining);
    RequestsExtend(escape, query, pages, sent, request);
    sent' := sent + [request];
    finish' := Advance(rt, finish);
    ended, results' := ReadPage(rt, start, escape, query, pages, results, sent', finish');
  }

  /** The fetch after request |sent| went out: |sent| - 1 full pages before it, and the results so far. */
  ghost predicate Sent(rt: Runtime, start: Progress, escape: string -> string, query: IssueQuery,
                       pages: seq<IssueReply>, results: seq<Dtos.BasicIssueDto>, sent: seq<PageRequest>,
                       finish: Progress) {
    && 1 <= |sent| <= |pages| + 1
    && finish == Elapse(rt, start, |sent|)
    && RequestsExpected(escape, query, pages, sent)
    && PagesFull(rt, start, query, pages, |sent| - 1)
    && results == Qualifying(Received(pages, |sent| - 1), query.minimumSeverity)
    && |results| < Target(query)
    && sent[|sent| - 1].pageSize == Min(200, Target(query) - |results|)
  }

  /** The rest of the loop turn: read the reply to the last request sent. */
  method ReadPage(rt: Runtime, start: Progress, escape: string -> string, query: IssueQuery, pages: seq<IssueReply>,
                  results: seq<Dtos.BasicIssueDto>, sent: seq<PageRequest>, finish: Progress)
    returns (ended: Option<Outcome<seq<Dtos.BasicIssueDto>>>, results': seq<Dtos.BasicIssueDto>)
    requires Sent(rt, start, escape, query, pages, results, sent, finish)
    ensures ended.Some? ==> FetchBehaves(rt, start, escape, query, pages, ended.value, finish, sent)
    ensures ended.None? ==> Fetching(rt, start, escape, query, pages, results', sent, finish)
  {
    results' := results;
    var reply := PageReply(pages, |sent|);
    assert finish.point - 1 == start.point + |sent| - 1;
    if CancellationRequested(rt, finish.point - 1) || reply.TimedOut? {
      ended := Some(Interrupted);
      EndsInterrupted(rt, start, query, pages, sent);
      SentEnds(rt, start, escape, query, pages, results, sent, finish, ended.value);
      return;
    }
    if reply.Failed? {
      ended := Some(Faulted(RemoteServiceError(reply.statusCode)));
      EndsFaulted(rt, start, query, pages, sent);
      SentEnds(rt, start, escape, query, pages, results, sent, finish, ended.value);
      return;
    }
    if reply.NotFound? || reply.body.None? || |reply.body.value| == 0 {
      ended := Some(Completed(results));
      ReadEmptyPage(rt, start, query, pages, results, sent);
      SentEnds(rt, start, escape, query, pages, results, sent, finish, ended.value);
      return;
    }
    ended, results' := ReadListedPage(rt, start, escape, query, pages, results, sent, finish);
  }

  /** The rest of a loop turn, once the page came back with issues listed. */
  method ReadListedPage(rt: Runtime, start: Progress, escape: string -> string, query: IssueQuery,
                        pages: seq<IssueReply>, results: seq<Dtos.BasicIssueDto>, sent: seq<PageRequest>,
                        finish: Progress)
    returns (ended: Option<Outcome<seq<Dtos.BasicIssueDto>>>, results': seq<Dtos.BasicIssueDto>)
    requires Sent(rt, start, escape, query, pages, results, sent, finish)
    requires !CancellationRequested(rt, start.point + |sent| - 1)
    requires PageReply(pages, |sent|).Ok? && PageReply(pages, |sent|).body.Some?
    requires |PageReply(pages, |sent|).body.value| > 0
    ensures ended.Some? ==> FetchBehaves(rt, start, escape, query, pages, ended.value, finish, sent)
    ensures ended.None? ==> Fetching(rt, start, escape, query, pages, results', sent, finish)
  {
    var minimum := query.minimumSeverity;
    var target := Max(1, query.maxIssues);
    var remaining := Min(200, target - |results|);
    var list := PageReply(pages, |sent|).body.value;
    ghost var before := Received(pages, |sent| - 1);
    ReceivedPage(pages, |sent|);
    results' := AddQualifying(results, before, list, minimum, target);
    assert results' == Collected(query, pages, |sent|);
    if |list| < remaining {
      ended := Some(Completed(results'));
      ListedShort(rt, start, escape, query, pages, results, sent, finish, results');
      return;
    }
    ExpectedSizeOf(query, pages, |sent| - 1, results);
    FullPageContinues(rt, start, query, pages, sent);
    ReadFullPage(rt, start, escape, query, pages, sent, finish, results');
    ended := None;
  }

  // How each way out of a loop turn meets FetchBehaves, or Fetching for the next turn.

  /** Reaching Target() issues ends the fetch after a full page. */
  lemma EndsAtTarget(rt: Runtime, start: Progress, escape: string -> string, query: IssueQuery,
                     pages: seq<IssueReply>, results: seq<Dtos.BasicIssueDto>, sent: seq<PageRequest>,
                     finish: Progress)
    requires Fetching(rt, start, escape, query, pages, results, sent, finish) && |results| >= Target(query)
    ensures FetchBehaves(rt, start, escape, query, pages, Completed(results), finish, sent)
  {
    assert |sent| >= 1 && Continued(rt, start, query, pages, |sent| - 1);
  }

  /** Once the reply to the last request sent decides the outcome, the fetch behaves as FetchBehaves says. */
  lemma SentEnds(rt: Runtime, start: Progress, escape: string -> string, query: IssueQuery,
                 pages: seq<IssueReply>, results: seq<Dtos.BasicIssueDto>, sent: seq<PageRequest>,
                 finish: Progress, r: Outcome<seq<Dtos.BasicIssueDto>>)
    requires Sent(rt, start, escape, query, pages, results, sent, finish)
    requires LastReplyDecides(rt, start, query, pages, sent, r)
    ensures FetchBehaves(rt, start, escape, query, pages, r, finish, sent)
  {
  }

  /** A short page ends the fetch with what was collected. */
  lemma ListedShort(rt: Runtime, start: Progress, escape: string -> string, query: IssueQuery,
                    pages: seq<IssueReply>, results: seq<Dtos.BasicIssueDto>, sent: seq<PageRequest>,
                    finish: Progress, results': seq<Dtos.BasicIssueDto>)
    requires Sent(rt, start, escape, query, pages, results, sent, finish)
    requires !CancellationRequested(rt, start.point + |sent| - 1) && PageReply(pages, |sent|).Ok?
    requires |Listed(PageReply(pages, |sent|))| < sent[|sent| - 1].pageSize
    requires results' == Collected(query, pages, |sent|)
    ensures FetchBehaves(rt, start, escape, query, pages, Completed(results'), finish, sent)
  {
    ReadShortPage(rt, start, query, pages, sent, results');
    SentEnds(rt, start, escape, query, pages, results, sent, finish, Completed(results'));
  }

  /** Cancellation or a client timeout interrupts the fetch. */
  lemma EndsInterrupted(rt: Runtime, start: Progress, query: IssueQuery, pages: seq<IssueReply>, sent: seq<PageRequest>)
    requires |sent| >= 1
    requires CancellationRequested(rt, start.point + |sent| - 1) || PageReply(pages, |sent|).TimedOut?
    ensures LastReplyDecides(rt, start, query, pages, sent, Interrupted)
  {
  }

  /** A failure status, not cancelled, faults the fetch with that status. */
  lemma EndsFaulted(rt: Runtime, start: Progress, query: IssueQuery, pages: seq<IssueReply>, sent: seq<PageRequest>)
    requires |sent| >= 1
    requires !CancellationRequested(rt, start.point + |sent| - 1) && PageReply(pages, |sent|).Failed?
    ensures LastReplyDecides(rt, start, query, pages, sent, Faulted(RemoteServiceError(PageReply(pages, |sent|).statusCode)))
  {
  }

  /** A 404, a null body or an empty list ends the fetch with what was collected before. */
  lemma ReadEmptyPage(rt: Runtime, start: Progress, query: IssueQuery, pages: seq<IssueReply>,
                      results: seq<Dtos.BasicIssueDto>, sent: seq<PageRequest>)
    requires |sent| >= 1
    requires results == Qualifying(Received(pages, |sent| - 1), query.minimumSeverity) && |results| < Target(query)
    requires !CancellationRequested(rt, start.point + |sent| - 1)
    requires PageReply(pages, |sent|).Ok? || PageReply(pages, |sent|).NotFound?
    requires Listed(PageReply(pages, |sent|)) == []
    ensures LastReplyDecides(rt, start, query, pages, sent, Completed(results))
  {
    ReceivedNothing(query, pages, |sent|);
    assert Collected(query, pages, |sent|) == Take(results, Target(query)) == results;
  }

  /** A page shorter than requested ends the fetch with the issues collected so far. */
  lemma ReadShortPage(rt: Runtime, start: Progress, query: IssueQuery, pages: seq<IssueReply>,
                      sent: seq<PageRequest>, results': seq<Dtos.BasicIssueDto>)
    requires |sent| >= 1
    requires !CancellationRequested(rt, start.point + |sent| - 1) && PageReply(pages, |sent|).Ok?
    requires |Listed(PageReply(pages, |sent|))| < sent[|sent| - 1].pageSize
    requires results' == Collected(query, pages, |sent|)
    ensures LastReplyDecides(rt, start, query, pages, sent, Completed(results'))
  {
  }

  /** A full page, not cancelled, asked for with the expected size: the loop went on past it. */
  lemma FullPageContinues(rt: Runtime, start: Progress, query: IssueQuery, pages: seq<IssueReply>, sent: seq<PageRequest>)
    requires |sent| >= 1
    requires sent[|sent| - 1].pageSize == ExpectedSize(query, pages, |sent| - 1)
    requires !CancellationRequested(rt, start.point + |sent| - 1)
    requires FullPage(PageReply(pages, |sent|), sent[|sent| - 1].pageSize)
    ensures |sent| <= |pages| && Continued(rt, start, query, pages, |sent| - 1)
  {
    FullPageInRange(pages, |sent|, sent[|sent| - 1].pageSize);
  }

  /** Only a page the service has can be full: past the last one the list is empty. */
  lemma FullPageInRange(pages: seq<IssueReply>, k: nat, pageSize: int)
    requires FullPage(PageReply(pages, k), pageSize)
    ensures 1 <= k <= |pages|
  {
  }

  /** The size expected of request i + 1, from the issues collected before it. */
  lemma ExpectedSizeOf(query: IssueQuery, pages: seq<IssueReply>, i: nat, results: seq<Dtos.BasicIssueDto>)
    requires results == Qualifying(Received(pages, i), query.minimumSeverity)
    ensures ExpectedSize(query, pages, i) == Min(200, Target(query) - |results|)
  {
  }

  /** A full page, not cancelled, lets the loop go on to the next page. */
  lemma ReadFullPage(rt: Runtime, start: Progress, escape: string -> string, query: IssueQuery,
                     pages: seq<IssueReply>, sent: seq<PageRequest>, finish: Progress,
                     results': seq<Dtos.BasicIssueDto>)
    requires 1 <= |sent| <= |pages|
    requires finish == Elapse(rt, start, |sent|)
    requires RequestsExpected(escape, query, pages, sent)
    requires PagesFull(rt, start, query, pages, |sent| - 1) && Continued(rt, start, query, pages, |sent| - 1)
    requires results' == Collected(query, pages, |sent|)
    ensures Fetching(rt, start, escape, query, pages, results', sent, finish)
  {
    PagesFullExtend(rt, start, query, pages, |sent|);
  }

  /** The query dictionary and path of one page request. */
  method BuildRequest(escape: string -> string, query: IssueQuery, page: nat, pageSize: int) returns (request: PageRequest)
    requires pageSize >= 0
    ensures request.page == page && request.pageSize == pageSize
    ensures request.parameters == PageParameters(query, page, pageSize)
    ensures request.path == PagePath(escape, request.parameters)
  {
    var parameters := PageParameters(query, page, pageSize);
    var path := QueryBuilder.WithQuery("/api/1.0/issues", parameters, escape);
    request := PageRequest(page, pageSize, parameters, path);
  }

  /** The foreach over one page: qualifying issues are appended until the target is reached. */
  method AddQualifying(results: seq<Dtos.BasicIssueDto>, ghost before: seq<Dtos.BasicIssueDto>,
                       list: seq<Dtos.BasicIssueDto>, minimum: Severities.IssueSeverity, target: nat)
    returns (collected: seq<Dtos.BasicIssueDto>)
    requires results == Qualifying(before, minimum) && |results| < target
    ensures collected == Take(Qualifying(before + list, minimum), target)
  {
    collected := results;
    QualifyingNone(before, list, minimum);
    for j := 0 to |list|
      invariant collected == Qualifying(before + list[..j], minimum) && |collected| < target
    {
      var issue := list[j];
      QualifyingSnoc(before, list, j, minimum);
      if !Severities.IsAtLeast(issue.severity, minimum) {
        continue;
      }
      collected := collected + [issue];
      if |collected| >= target {
        QualifyingStopsAtTarget(before, list, j + 1, minimum, target);
        return;
      }
    }
    QualifyingAll(before, list, minimum, target, collected);
  }

  /** Before the first issue of the page, the qualifying issues are those received before it. */
  lemma QualifyingNone(before: seq<Dtos.BasicIssueDto>, list: seq<Dtos.BasicIssueDto>, minimum: Severities.IssueSeverity)
    ensures Qualifying(before + list[..0], minimum) == Qualifying(before, minimum)
  {
    assert before + list[..0] == before;
  }

  /** A whole page that leaves the target unreached adds all its qualifying issues. */
  lemma QualifyingAll(before: seq<Dtos.BasicIssueDto>, list: seq<Dtos.BasicIssueDto>, minimum: Severities.IssueSeverity,
                      target: nat, collected: seq<Dtos.BasicIssueDto>)
    requires collected == Qualifying(before + list[..|list|], minimum) && |collected| < target
    ensures collected == Take(Qualifying(before + list, minimum), target)
  {
    assert list[..|list|] == list;
  }

  lemma RequestsExtend(escape: string -> string, query: IssueQuery, pages: seq<IssueReply>,
                       sent: seq<PageRequest>, request: PageRequest)
    requires RequestsExpected(escape, query, pages, sent)
    requires RequestExpected(escape, query, pages, request, |sent|)
    ensures RequestsExpected(escape, query, pages, sent + [request])
  {
    var longer := sent + [request];
    forall i | 0 <= i < |longer|
      ensures RequestExpected(escape, query, pages, longer[i], i)
    {
      if i < |sent| {
        assert longer[i] == sent[i];
      }
    }
  }

  lemma PagesFullExtend(rt: Runtime, start: Progress, query: IssueQuery, pages: seq<IssueReply>, n: nat)
    requires n >= 1 && PagesFull(rt, start, query, pages, n - 1) && Continued(rt, start, query, pages, n - 1)
    ensures PagesFull(rt, start, query, pages, n)
  {
  }

  /** The issues received after page k are those received before it and then the ones it lists. */
  lemma ReceivedPage(pages: seq<IssueReply>, k: nat)
    requires k >= 1
    ensures Received(pages, k) == Received(pages, k - 1) + Listed(PageReply(pages, k))
  {
  }

  /** A reply without issues adds nothing to what was received. */
  lemma ReceivedNothing(query: IssueQuery, pages: seq<IssueReply>, k: nat)
    requires k >= 1 && Listed(PageReply(pages, k)) == []
    ensures Received(pages, k) == Received(pages, k - 1)
  {
    assert Received(pages, k - 1) + [] == Received(pages, k - 1);
  }

  lemma QualifyingSnoc(before: seq<Dtos.BasicIssueDto>, list: seq<Dtos.BasicIssueDto>, j: nat,
                       minimum: Severities.IssueSeverity)
    requires j < |list|
    ensures Qualifying(before + list[..j + 1], minimum)
      == Qualifying(before + list[..j], minimum) + (if Severities.IsAtLeast(list[j].severity, minimum) then [list[j]] else [])
  {
    assert (before + list[..j + 1])[..|before| + j] == before + list[..j];
  }

  /** Once the target is reached, the rest of the list does not change the collected issues. */
  lemma QualifyingStopsAtTarget(before: seq<Dtos.BasicIssueDto>, list: seq<Dtos.BasicIssueDto>, j: nat,
                                minimum: Severities.IssueSeverity, target: nat)
    requires j <= |list| && |Qualifying(before + list[..j], minimum)| == target
    ensures Take(Qualifying(before + list, minimum), target) == Qualifying(before + list[..j], minimum)
  {
    assert before + list == (before + list[..j]) + list[j..];
    QualifyingConcat(before + list[..j], list[j..], minimum);
  }

  lemma {:induction false} QualifyingConcat(a: seq<Dtos.BasicIssueDto>, b: seq<Dtos.BasicIssueDto>,
                                            minimum: Severities.IssueSeverity)
    ensures Qualifying(a + b, minimum) == Qualifying(a, minimum) + Qualifying(b, minimum)
    decreases |b|
  {
    if b == [] {
      assert a + b == a;
    } else {
      var n := |b| - 1;
      assert (a + b)[..|a + b| - 1] == a + b[..n];
      QualifyingConcat(a, b[..n], minimum);
    }
  }

  // What the fetch guarantees.

  /** Every issue Qualifying keeps is one of its input and reaches the threshold; it keeps all that do. */
  lemma {:induction false} QualifyingIsFilter(issues: seq<Dtos.BasicIssueDto>, minimum: Severities.IssueSeverity)
    ensures forall x :: x in Qualifying(issues, minimum) <==> x in issues && Severities.IsAtLeast(x.severity, minimum)
    decreases |issues|
  {
    if issues != [] {
      var n := |issues| - 1;
      QualifyingIsFilter(issues[..n], minimum);
      assert issues == issues[..n] + [issues[n]];
    }
  }

  /**
   * Whatever FetchIssuesAsync returns holds at most Target() = max(1, maxIssues)
   * issues, all at or above the minimum severity, and is a prefix of the
   * qualifying issues of the pages received, in the service's order. Page i + 1
   * was requested with page number i + 1 and a size in [1, 200] equal to
   * min(200, what is still missing), and only while fewer than Target() issues
   * had been collected; its query carries that page number and size, and its
   * path is built from that query.
   */
  lemma FetchGuarantees(rt: Runtime, start: Progress, escape: string -> string, query: IssueQuery,
                        pages: seq<IssueReply>, r: Outcome<seq<Dtos.BasicIssueDto>>, finish: Progress,
                        sent: seq<PageRequest>)
    requires FetchBehaves(rt, start, escape, query, pages, r, finish, sent)
    ensures r.Completed? ==> |r.value| <= Target(query)
    ensures r.Completed? ==> r.value <= Qualifying(Received(pages, |sent|), query.minimumSeverity)
    ensures r.Completed? ==> forall x :: x in r.value ==>
      x in Received(pages, |sent|) && Severities.IsAtLeast(x.severity, query.minimumSeverity)
    ensures forall i :: 0 <= i < |sent| ==>
      sent[i].page == i + 1 && 1 <= sent[i].pageSize <= 200
      && sent[i].pageSize == Min(200, Target(query) - |Collected(query, pages, i)|)
      && sent[i].parameters == PageParameters(query, i + 1, sent[i].pageSize)
      && sent[i].path == PagePath(escape, sent[i].parameters)
  {
    if r.Completed? {
      QualifyingIsFilter(Received(pages, |sent|), query.minimumSeverity);
    }
    forall i | 0 <= i < |sent|
      ensures sent[i].page == i + 1 && 1 <= sent[i].pageSize <= 200
      ensures sent[i].pageSize == Min(200, Target(query) - |Collected(query, pages, i)|)
    {
      assert RequestExpected(escape, query, pages, sent[i], i);
    }
  }

  /**
   * How a fetch can end, seen from its caller: cancellation before the first
   * request interrupts it, and the only error it throws is a failure status of
   * the service.
   */
  lemma FetchEnds(rt: Runtime, start: Progress, escape: string -> string, query: IssueQuery,
                  pages: seq<IssueReply>, r: Outcome<seq<Dtos.BasicIssueDto>>, finish: Progress,
                  sent: seq<PageRequest>)
    requires FetchBehaves(rt, start, escape, query, pages, r, finish, sent)
    ensures CancellationRequested(rt, start.point) ==> r.Interrupted?
    ensures r.Faulted? ==> r.error.RemoteServiceError?
    ensures finish.now >= start.now
  {
    if |sent| > 1 {
      assert Continued(rt, start, query, pages, 0);
    }
  }

  /** A fetch whose last request got a full page without cancellation ended because it reached Target(). */
  lemma LastFullPageReachedTarget(rt: Runtime, start: Progress, escape: string -> string, query: IssueQuery,
                                  pages: seq<IssueReply>, r: Outcome<seq<Dtos.BasicIssueDto>>, finish: Progress,
                                  sent: seq<PageRequest>)
    requires FetchBehaves(rt, start, escape, query, pages, r, finish, sent)
    ensures Continued(rt, start, query, pages, |sent| - 1) ==>
      |Qualifying(Received(pages, |sent|), query.minimumSeverity)| >= Target(query)
  {
    assert RequestExpected(escape, query, pages, sent[|sent| - 1], |sent| - 1);
  }

  /** Request i of a run of expected requests was sent while fewer than Target() issues were collected. */
  lemma SentBelowTarget(escape: string -> string, query: IssueQuery, pages: seq<IssueReply>,
                        sent: seq<PageRequest>, i: nat)
    requires RequestsExpected(escape, query, pages, sent)
    ensures i < |sent| ==> |Qualifying(Received(pages, i), query.minimumSeverity)| < Target(query)
  {
    if i < |sent| {
      assert RequestExpected(escape, query, pages, sent[i], i);
    }
  }

  /**
   * A fetch that FetchBehaves describes sent no request past its last one: no
   * longer run of expected requests, all but the last of them on full pages,
   * is possible with the same replies and cancellation.
   */
  lemma NoRequestAfterEnd(rt: Runtime, start: Progress, escape: string -> string, query: IssueQuery,
                          pages: seq<IssueReply>, r: Outcome<seq<Dtos.BasicIssueDto>>, finish: Progress,
                          sent: seq<PageRequest>, longer: seq<PageRequest>)
    requires FetchBehaves(rt, start, escape, query, pages, r, finish, sent)
    requires |longer| >= 1 && RequestsExpected(escape, query, pages, longer)
    requires PagesFull(rt, start, query, pages, |longer| - 1)
    ensures |longer| <= |sent|
  {
    LastFullPageReachedTarget(rt, start, escape, query, pages, r, finish, sent);
    SentBelowTarget(escape, query, pages, longer, |sent|);
  }

  /**
   * FetchBehaves pins the fetch down: with the same replies and cancellation,
   * two fetches send the same requests, end at the same point and time, and
   * return the same outcome.
   */
  lemma FetchDeterministic(rt: Runtime, start: Progress, escape: string -> string, query: IssueQuery,
                           pages: seq<IssueReply>, r: Outcome<seq<Dtos.BasicIssueDto>>, finish: Progress,
                           sent: seq<PageRequest>, r': Outcome<seq<Dtos.BasicIssueDto>>, finish': Progress,
                           sent': seq<PageRequest>)
    requires FetchBehaves(rt, start, escape, query, pages, r, finish, sent)
    requires FetchBehaves(rt, start, escape, query, pages, r', finish', sent')
    ensures sent == sent' && finish == finish' && r == r'
  {
    NoRequestAfterEnd(rt, start, escape, query, pages, r, finish, sent, sent');
    NoRequestAfterEnd(rt, start, escape, query, pages, r', finish', sent', sent);
    forall i | 0 <= i < |sent|
      ensures sent[i] == sent'[i]
    {
      assert RequestExpected(escape, query, pages, sent[i], i);
      assert RequestExpected(escape, query, pages, sent'[i], i);
    }
  }

  /** GetIssuesForScanAsync: the scan record's website name when set, else the configured one. */
  function IssuesWebsiteName(scan: Option<Dtos.ScanTaskModel>, settings: Settings.InvictiSettings): (r: Option<string>)
    ensures scan.Some? && !IsNullOrWhiteSpace(scan.value.websiteName) ==> r == scan.value.websiteName
    ensures !(scan.Some? && !IsNullOrWhiteSpace(scan.value.websiteName)) ==> r == NullIfEmpty(Some(settings.websiteName))
    ensures r.Some? ==> !IsBlank(r.value)
  {
    if scan.Some? && !IsNullOrWhiteSpace(scan.value.websiteName) then scan.value.websiteName
    else NullIfEmpty(Some(settings.websiteName))
  }

  /** The FetchIssuesAsync arguments used with a duration profile and a website name. */
  function ProfileQuery(profile: Settings.DurationProfile, websiteName: Option<string>, settings: Settings.InvictiSettings)
    : (q: IssueQuery)
    ensures q.minimumSeverity == profile.minimumSeverity && q.maxIssues == profile.maxIssues
    ensures q.websiteName == websiteName && q.websiteGroupName == NullIfEmpty(Some(settings.websiteGroupName))
  {
    IssueQuery(profile.minimumSeverity, profile.maxIssues, websiteName, NullIfEmpty(Some(settings.websiteGroupName)))
  }

  /** GetIssuesForScanAsync. */
  method GetIssuesForScan(rt: Runtime, start: Progress, escape: string -> string, settings: Settings.InvictiSettings,
                          profile: Settings.DurationProfile, scan: Option<Dtos.ScanTaskModel>, pages: seq<IssueReply>)
    returns (r: Outcome<seq<Dtos.BasicIssueDto>>, finish: Progress, sent: seq<PageRequest>)
    ensures FetchBehaves(rt, start, escape, ProfileQuery(profile, IssuesWebsiteName(scan, settings), settings),
                         pages, r, finish, sent)
  {
    r, finish, sent := FetchIssues(rt, start, escape, ProfileQuery(profile, IssuesWebsiteName(scan, settings), settings), pages);
  }
}
