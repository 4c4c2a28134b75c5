/**
 * ScanOrchestrator (Services/ScanOrchestrator.cs): the run's state machine.
 * It resolves the mode, the duration profile and the fire-and-forget flag from
 * the command line, the environment and the settings. It then either fetches
 * the existing issues, or launches a scan and either returns at once or polls
 * until the scan reaches a terminal state or the deadline passes. It writes
 * the output files and chooses the exit code.
 */
module Orchestrator {
  import opened DotNet
  import opened Effects
  import Dtos
  import Severities
  import ScannerActions
  import Settings
  import CommandLine
  import ApiClient
  import ResultWriter

  /** Environment.GetEnvironmentVariable. */
  type Environment = string -> Option<string>

  // ---------------------------------------------------------------------------
  // Resolving the inputs
  // ---------------------------------------------------------------------------

  /**
   * How the issues flag and the fire-and-forget flag read a non-blank value:
   * its bool.TryParse value, and otherwise true exactly for "1" and "yes" in
   * any case.
   */
  function FlagValue(value: string): bool {
    match TryParseBool(value)
    case Some(b) => b
    case None => EqualsIgnoreCase(value, "1") || EqualsIgnoreCase(value, "yes")
  }

  /** A flag is set by "true", "1" or "yes" in any case, and by nothing else. */
  lemma FlagValueMeaning(value: string)
    ensures FlagValue(value) <==> NameMatches(value, "true") || EqualsIgnoreCase(value, "1") || EqualsIgnoreCase(value, "yes")
  {
    if EqualsIgnoreCase(value, "1") || EqualsIgnoreCase(value, "yes") {
      assert !NameMatches(value, "false") by {
        assert |Trim(value)| <= |value| < 5;
      }
    }
  }

  /** The issues flag: the command line's `issues`, else SCB_FETCH_ISSUES_ONLY. */
  function IssuesFlag(args: CommandLine.CommandLineArguments, env: Environment): Option<string> {
    args.Get("issues").OrElse(env("SCB_FETCH_ISSUES_ONLY"))
  }

  /** The action value: the command line's `action`, else SCB_ACTION, else the configured action. */
  function ActionValue(args: CommandLine.CommandLineArguments, env: Environment, scanner: Settings.ScannerSettings): string {
    args.Get("action").OrElse(env("SCB_ACTION")).GetOr(scanner.action)
  }

  /** ResolveAction: the text handed to ScannerActionExtensions.Parse. */
  function ResolveAction(args: CommandLine.CommandLineArguments, env: Environment, scanner: Settings.ScannerSettings)
    : string
  {
    var issuesFlag := IssuesFlag(args, env);
    if !IsNullOrWhiteSpace(issuesFlag) && FlagValue(issuesFlag.value) then ScannerActions.Name(ScannerActions.Issues)
    else
      var actionValue := ActionValue(args, env, scanner);
      if EqualsIgnoreCase(actionValue, "issues") then ScannerActions.Name(ScannerActions.Issues)
      else actionValue
  }

  /** The action the run takes. */
  function SelectedAction(args: CommandLine.CommandLineArguments, env: Environment, scanner: Settings.ScannerSettings)
    : ScannerActions.ScannerAction
  {
    ScannerActions.Parse(Some(ResolveAction(args, env, scanner)))
  }

  /**
   * Mode selection. The environment's issues flag is consulted only when the
   * command line has none. A truthy flag selects Issues. Otherwise the first
   * non-null of the command line's action, SCB_ACTION and the settings decides,
   * and the run fetches issues exactly when that value names the Issues action
   * in any case.
   */
  lemma {:induction false} ActionSelection(args: CommandLine.CommandLineArguments, env: Environment,
                                           scanner: Settings.ScannerSettings)
    ensures args.Get("issues").Some? ==> IssuesFlag(args, env) == args.Get("issues")
    ensures args.Get("action").Some? ==> ActionValue(args, env, scanner) == args.Get("action").value
    ensures args.Get("action").None? && env("SCB_ACTION").Some? ==> ActionValue(args, env, scanner) == env("SCB_ACTION").value
    ensures args.Get("action").None? && env("SCB_ACTION").None? ==> ActionValue(args, env, scanner) == scanner.action
    ensures var flag := IssuesFlag(args, env);
      !IsNullOrWhiteSpace(flag) && FlagValue(flag.value) ==> SelectedAction(args, env, scanner) == ScannerActions.Issues
    ensures var flag := IssuesFlag(args, env);
      var value := ActionValue(args, env, scanner);
      !(!IsNullOrWhiteSpace(flag) && FlagValue(flag.value)) ==>
        (SelectedAction(args, env, scanner) == ScannerActions.Issues <==> !IsBlank(value) && NameMatches(value, "Issues"))
  {
    ScannerActions.ParseLowerName(ScannerActions.Issues);
    ScannerActions.ParseAnyCase(ActionValue(args, env, scanner));
  }

  /** ResolveFireAndForgetMode. */
  function ResolveFireAndForgetMode(args: CommandLine.CommandLineArguments, env: Environment): bool {
    var fireAndForgetArg := args.Get("fireAndForget").OrElse(args.Get("fire-and-forget"));
    if !IsNullOrWhiteSpace(fireAndForgetArg) then FlagValue(fireAndForgetArg.value)
    else
      var envValue := env("SCB_SCANNER__FIREANDFORGET").OrElse(env("SCB_FIRE_AND_FORGET"));
      if !IsNullOrWhiteSpace(envValue) then FlagValue(envValue.value)
      else false
  }

  /**
   * Fire-and-forget resolution. A non-blank command-line value decides and the
   * environment is ignored. Otherwise a non-blank environment value decides.
   * The default is the blocking mode.
   */
  lemma FireAndForgetSelection(args: CommandLine.CommandLineArguments, env: Environment, other: Environment)
    ensures var arg := args.Get("fireAndForget").OrElse(args.Get("fire-and-forget"));
      !IsNullOrWhiteSpace(arg) ==>
        ResolveFireAndForgetMode(args, env) == FlagValue(arg.value)
        && ResolveFireAndForgetMode(args, env) == ResolveFireAndForgetMode(args, other)
    ensures var arg := args.Get("fireAndForget").OrElse(args.Get("fire-and-forget"));
      var envValue := env("SCB_SCANNER__FIREANDFORGET").OrElse(env("SCB_FIRE_AND_FORGET"));
      IsNullOrWhiteSpace(arg) ==>
        (ResolveFireAndForgetMode(args, env) <==> !IsNullOrWhiteSpace(envValue) && FlagValue(envValue.value))
  {
  }

  /** The duration value: the command line's `duration`, else SCB_SCAN_DURATION. */
  function DurationValue(args: CommandLine.CommandLineArguments, env: Environment): Option<string> {
    args.Get("duration").OrElse(env("SCB_SCAN_DURATION"))
  }

  /** ResolveTargetDescription: the configured website name when set, else the target URI. */
  function ResolveTargetDescription(settings: Settings.InvictiSettings): (r: string)
    ensures r == settings.websiteName || r == settings.targetUri
    ensures IsBlank(r) ==> IsBlank(settings.websiteName)
    ensures !IsBlank(settings.websiteName) ==> r == settings.websiteName
    ensures IsBlank(settings.websiteName) ==> r == settings.targetUri
  {
    if !IsBlank(settings.websiteName) then settings.websiteName else settings.targetUri
  }

  /**
   * ResolveWebsiteName for the issues-only mode: the configured website name
   * when set, else the host of an absolute target URI, else null.
   */
  function ResolveWebsiteName(platform: Platform, settings: Settings.InvictiSettings): (r: Option<string>)
    ensures !IsBlank(settings.websiteName) ==> r == Some(settings.websiteName)
    ensures IsBlank(settings.websiteName) ==> r == platform.absoluteUriHost(settings.targetUri)
  {
    if !IsBlank(settings.websiteName) then Some(settings.websiteName)
    else platform.absoluteUriHost(settings.targetUri)
  }

  // ---------------------------------------------------------------------------
  // Waiting for completion
  // ---------------------------------------------------------------------------

  /** The states after which a scan does not change any more. */
  predicate IsTerminal(state: Dtos.ScanState) {
    state == Dtos.Complete || state == Dtos.Cancelled || state == Dtos.Failed
  }

  /** The poll interval in seconds: the configured one, at least 5. */
  function PollInterval(scanner: Settings.ScannerSettings): (seconds: nat)
    ensures seconds >= 5 && seconds >= scanner.pollingIntervalSeconds
    ensures scanner.pollingIntervalSeconds >= 5 ==> seconds == scanner.pollingIntervalSeconds
    ensures scanner.pollingIntervalSeconds < 5 ==> seconds == 5
  {
    Max(5, scanner.pollingIntervalSeconds)
  }

  /** The wait timeout in seconds: the smaller of the configured maximum wait and the profile's runtime. */
  function TimeoutSeconds(scanner: Settings.ScannerSettings, profile: Settings.DurationProfile): (seconds: int)
    ensures seconds <= 60 * scanner.maximumWaitMinutes && seconds <= 60 * profile.maxRuntimeMinutes
    ensures seconds == 60 * scanner.maximumWaitMinutes || seconds == 60 * profile.maxRuntimeMinutes
  {
    60 * Min(scanner.maximumWaitMinutes, profile.maxRuntimeMinutes)
  }

  /**
   * With the default scanner settings a run scans unless told otherwise, polls
   * every 15 seconds, and waits 15 minutes for a short scan and 30 minutes for
   * a medium or long one.
   */
  lemma DefaultWaitPolicy()
    ensures ScannerActions.Parse(Some(Settings.DefaultScannerSettings().action)) == ScannerActions.Scan
    ensures PollInterval(Settings.DefaultScannerSettings()) == 15
    ensures TimeoutSeconds(Settings.DefaultScannerSettings(), Settings.CreateShort()) == 15 * 60
    ensures TimeoutSeconds(Settings.DefaultScannerSettings(), Settings.CreateMedium()) == 30 * 60
    ensures TimeoutSeconds(Settings.DefaultScannerSettings(), Settings.CreateLong()) == 30 * 60
  {
    ScannerActions.ParseLowerName(ScannerActions.Scan);
  }

  /** The status replies of the service, one per poll, by poll number. */
  type StatusReplies = nat -> HttpReply<Option<Dtos.ApiScanStatusModel>>

  /** How the wait ends, where the run is afterwards, and how many status requests were sent. */
  datatype PollResult = PollResult(outcome: Outcome<Option<Dtos.ApiScanStatusModel>>, finish: Progress, polls: nat)

  /**
   * Task.Delay(interval) that was not cancelled: one observation point that
   * takes exactly `seconds`, the interval, rather than the point's elapsed
   * time; a delay never overruns its interval.
   */
  function Sleep(p: Progress, seconds: nat): (q: Progress)
    ensures q.point == p.point + 1 && q.now == p.now + seconds
  {
    Progress(p.point + 1, p.now + seconds)
  }

  /**
   * The wait loop from progress `p`, with `latest` the last status seen and
   * `polls` requests sent so far. Each turn tests the deadline and the token,
   * requests the status, stops at an absent or terminal status, and otherwise
   * sleeps for the interval.
   */
  function Poll(rt: Runtime, replies: StatusReplies, deadline: int, interval: nat, p: Progress,
                latest: Option<Dtos.ApiScanStatusModel>, polls: nat): PollResult
    requires interval >= 5
    decreases deadline - p.now
  {
    if !(p.now < deadline) || CancellationRequested(rt, p.point) then PollResult(Completed(latest), Advance(rt, p), polls)
    else
      var tested := Advance(rt, p);
      var polled := Advance(rt, tested);
      match ApiClient.GetScanStatus(rt, tested.point, replies(polls))
      case Interrupted => PollResult(Interrupted, polled, polls + 1)
      case Faulted(e) => PollResult(Faulted(e), polled, polls + 1)
      case Completed(status) =>
        if status.None? || IsTerminal(status.value.state) then PollResult(Completed(status), polled, polls + 1)
        else if CancellationRequested(rt, polled.point) then PollResult(Interrupted, Advance(rt, polled), polls + 1)
        else Poll(rt, replies, deadline, interval, Sleep(polled, interval), status, polls + 1)
  }

  /** WaitForCompletionAsync, starting at `start`. */
  method WaitForCompletion(rt: Runtime, replies: StatusReplies, scanner: Settings.ScannerSettings,
                           profile: Settings.DurationProfile, start: Progress)
    returns (result: PollResult)
    ensures result == Poll(rt, replies, start.now + TimeoutSeconds(scanner, profile), PollInterval(scanner), start, None, 0)
  {
    var pollInterval := Max(5, scanner.pollingIntervalSeconds);
    var timeout := 60 * Min(scanner.maximumWaitMinutes, profile.maxRuntimeMinutes);
    var deadline := start.now + timeout;
    var latest: Option<Dtos.ApiScanStatusModel> := None;
    var p := start;
    var polls := 0;
    while p.now < deadline && !CancellationRequested(rt, p.point)
      invariant Poll(rt, replies, deadline, pollInterval, p, latest, polls)
        == Poll(rt, replies, deadline, pollInterval, start, None, 0)
      decreases deadline - p.now
    {
      p := Advance(rt, p);
      var reply := ApiClient.GetScanStatus(rt, p.point, replies(polls));
      p := Advance(rt, p);
      polls := polls + 1;
      if !reply.Completed? {
        result := PollResult(if reply.Interrupted? then Interrupted else Faulted(reply.error), p, polls);
        return;
      }
      latest := reply.value;
      if latest.None? || IsTerminal(latest.value.state) {
        result := PollResult(Completed(latest), p, polls);
        return;
      }
      if CancellationRequested(rt, p.point) {
        result := PollResult(Interrupted, Advance(rt, p), polls);
        return;
      }
      p := Sleep(p, pollInterval);
    }
    result := PollResult(Completed(latest), Advance(rt, p), polls);
  }

  /** Reply number j was a status that is not terminal. */
  predicate RunningReply(reply: HttpReply<Option<Dtos.ApiScanStatusModel>>) {
    reply.Ok? && reply.body.Some? && !IsTerminal(reply.body.value.state)
  }

  /** One turn of the wait that neither stops nor is interrupted: Poll continues from after the sleep. */
  lemma PollContinues(rt: Runtime, replies: StatusReplies, deadline: int, interval: nat, p: Progress,
                      latest: Option<Dtos.ApiScanStatusModel>, polls: nat)
    requires interval >= 5 && p.now < deadline && !CancellationRequested(rt, p.point)
    requires RunningReply(replies(polls)) && !CancellationRequested(rt, p.point + 2)
    ensures Poll(rt, replies, deadline, interval, p, latest, polls)
      == Poll(rt, replies, deadline, interval, Sleep(Advance(rt, Advance(rt, p)), interval), replies(polls).body, polls + 1)
  {
  }

  /**
   * The wait moves forward: it sends no fewer requests than before, passes at
   * least one observation point, never moves the clock back, and the only
   * error it throws is a failure status of the service. Cancellation seen at
   * the first loop test ends it at once with the status seen last.
   */
  lemma {:induction false} PollProgress(rt: Runtime, replies: StatusReplies, deadline: int, interval: nat, p: Progress,
                                        latest: Option<Dtos.ApiScanStatusModel>, polls: nat)
    requires interval >= 5
    ensures var r := Poll(rt, replies, deadline, interval, p, latest, polls);
      && r.polls >= polls
      && r.finish.point > p.point && r.finish.now >= p.now
      && (r.outcome.Faulted? ==> r.outcome.error.RemoteServiceError?)
      && (CancellationRequested(rt, p.point) ==> r.outcome == Completed(latest))
    decreases deadline - p.now
  {
    if p.now < deadline && !CancellationRequested(rt, p.point) && RunningReply(replies(polls))
      && !CancellationRequested(rt, p.point + 2) {
      PollContinues(rt, replies, deadline, interval, p, latest, polls);
      PollProgress(rt, replies, deadline, interval, Sleep(Advance(rt, Advance(rt, p)), interval),
                   replies(polls).body, polls + 1);
    }
  }

  /** The first terminal status ends the wait: every poll but the last saw a non-terminal status. */
  lemma {:induction false} PollStops(rt: Runtime, replies: StatusReplies, deadline: int, interval: nat, p: Progress,
                                     latest: Option<Dtos.ApiScanStatusModel>, polls: nat)
    requires interval >= 5
    ensures var r := Poll(rt, replies, deadline, interval, p, latest, polls);
      forall j :: polls <= j < r.polls - 1 ==> RunningReply(replies(j))
    decreases deadline - p.now
  {
    if p.now < deadline && !CancellationRequested(rt, p.point) && RunningReply(replies(polls))
      && !CancellationRequested(rt, p.point + 2) {
      PollContinues(rt, replies, deadline, interval, p, latest, polls);
      PollStops(rt, replies, deadline, interval, Sleep(Advance(rt, Advance(rt, p)), interval),
                replies(polls).body, polls + 1);
    }
  }

  /** A status returned is the reply to the last poll. */
  lemma {:induction false} PollLastReply(rt: Runtime, replies: StatusReplies, deadline: int, interval: nat, p: Progress,
                                         latest: Option<Dtos.ApiScanStatusModel>, polls: nat)
    requires interval >= 5
    requires polls > 0 && latest.Some? ==> replies(polls - 1) == Ok(latest)
    requires polls == 0 ==> latest.None?
    ensures var r := Poll(rt, replies, deadline, interval, p, latest, polls);
      r.outcome.Completed? && r.outcome.value.Some? ==> r.polls >= 1 && replies(r.polls - 1) == Ok(r.outcome.value)
    decreases deadline - p.now
  {
    if p.now < deadline && !CancellationRequested(rt, p.point) && RunningReply(replies(polls))
      && !CancellationRequested(rt, p.point + 2) {
      PollContinues(rt, replies, deadline, interval, p, latest, polls);
      PollLastReply(rt, replies, deadline, interval, Sleep(Advance(rt, Advance(rt, p)), interval),
                    replies(polls).body, polls + 1);
    } else {
      PollTurnEnds(rt, replies, deadline, interval, p, latest, polls);
    }
  }

  /** A null result means no poll ran, or the last reply was a 404 or an empty body. */
  lemma {:induction false} PollNoStatus(rt: Runtime, replies: StatusReplies, deadline: int, interval: nat, p: Progress,
                                        latest: Option<Dtos.ApiScanStatusModel>, polls: nat)
    requires interval >= 5
    ensures var r := Poll(rt, replies, deadline, interval, p, latest, polls);
      r.outcome == Completed(None) ==>
        (r.polls == polls && latest.None?)
        || (r.polls >= 1 && (replies(r.polls - 1).NotFound? || replies(r.polls - 1) == Ok(None)))
    decreases deadline - p.now
  {
    if p.now < deadline && !CancellationRequested(rt, p.point) && RunningReply(replies(polls))
      && !CancellationRequested(rt, p.point + 2) {
      PollContinues(rt, replies, deadline, interval, p, latest, polls);
      PollNoStatus(rt, replies, deadline, interval, Sleep(Advance(rt, Advance(rt, p)), interval),
                   replies(polls).body, polls + 1);
    } else {
      PollTurnEnds(rt, replies, deadline, interval, p, latest, polls);
    }
  }

  /**
   * A turn that does not continue the wait ends it: either before any request,
   * with the status seen last, or with the reply to this turn's request.
   */
  lemma PollTurnEnds(rt: Runtime, replies: StatusReplies, deadline: int, interval: nat, p: Progress,
                     latest: Option<Dtos.ApiScanStatusModel>, polls: nat)
    requires interval >= 5
    requires !(p.now < deadline && !CancellationRequested(rt, p.point) && RunningReply(replies(polls))
               && !CancellationRequested(rt, p.point + 2))
    ensures var r := Poll(rt, replies, deadline, interval, p, latest, polls);
      || (r.polls == polls && r.outcome == Completed(latest))
      || (r.polls == polls + 1 && (r.outcome.Completed? ==>
            (replies(polls).NotFound? && r.outcome.value.None?) || (replies(polls).Ok? && r.outcome.value == replies(polls).body)))
  {
  }

  /**
   * A non-terminal status is returned only when the wait gave up: the clock
   * reached the deadline, or the last loop test saw cancellation.
   */
  lemma {:induction false} PollGivesUp(rt: Runtime, replies: StatusReplies, deadline: int, interval: nat, p: Progress,
                                       latest: Option<Dtos.ApiScanStatusModel>, polls: nat)
    requires interval >= 5
    requires latest.Some? ==> !IsTerminal(latest.value.state)
    ensures var r := Poll(rt, replies, deadline, interval, p, latest, polls);
      r.outcome.Completed? && r.outcome.value.Some? && !IsTerminal(r.outcome.value.value.state) ==>
        r.finish.point >= 1 && (deadline <= r.finish.now - rt.elapsed(r.finish.point - 1)
                                || CancellationRequested(rt, r.finish.point - 1))
    decreases deadline - p.now
  {
    if p.now < deadline && !CancellationRequested(rt, p.point) && RunningReply(replies(polls))
      && !CancellationRequested(rt, p.point + 2) {
      PollContinues(rt, replies, deadline, interval, p, latest, polls);
      PollGivesUp(rt, replies, deadline, interval, Sleep(Advance(rt, Advance(rt, p)), interval),
                  replies(polls).body, polls + 1);
    }
  }

  /**
   * A scan that keeps running is waited for until the deadline: with no
   * cancellation and only non-terminal replies, the wait returns the last
   * status seen (null when no poll ran) once the clock reaches the deadline.
   */
  lemma {:induction false} PollTimesOut(rt: Runtime, replies: StatusReplies, deadline: int, interval: nat, p: Progress,
                                        latest: Option<Dtos.ApiScanStatusModel>, polls: nat)
    requires interval >= 5 && rt.cancelAt.None?
    requires forall j :: j >= polls ==> RunningReply(replies(j))
    requires polls > 0 ==> replies(polls - 1).Ok? && latest == replies(polls - 1).body
    requires polls == 0 ==> latest.None?
    ensures var r := Poll(rt, replies, deadline, interval, p, latest, polls);
      && r.outcome.Completed?
      && (r.polls == 0 ==> r.outcome.value.None?)
      && (r.polls > 0 ==> replies(r.polls - 1).Ok? && r.outcome.value == replies(r.polls - 1).body)
      && r.finish.now >= deadline
    decreases deadline - p.now
  {
    if p.now < deadline {
      var tested := Advance(rt, p);
      var polled := Advance(rt, tested);
      assert RunningReply(replies(polls));
      PollTimesOut(rt, replies, deadline, interval, Sleep(polled, interval), replies(polls).body, polls + 1);
    }
  }

  /**
   * The scenario of a scan that is Scanning on the first two polls and
   * Complete on the third: with no cancellation and the deadline not reached
   * before the third poll, the wait returns the Complete status after exactly
   * three polls.
   */
  lemma CompleteOnThirdPoll(rt: Runtime, replies: StatusReplies, deadline: int, interval: nat, start: Progress,
                            scanning: Dtos.ApiScanStatusModel, complete: Dtos.ApiScanStatusModel)
    requires interval >= 5 && rt.cancelAt.None? && (forall n :: rt.elapsed(n) == 0)
    requires scanning.state == Dtos.Scanning && complete.state == Dtos.Complete
    requires replies(0) == Ok(Some(scanning)) && replies(1) == Ok(Some(scanning)) && replies(2) == Ok(Some(complete))
    requires start.now + 2 * interval < deadline
    ensures Poll(rt, replies, deadline, interval, start, None, 0).outcome == Completed(Some(complete))
    ensures Poll(rt, replies, deadline, interval, start, None, 0).polls == 3
  {
    var p1 := Sleep(Advance(rt, Advance(rt, start)), interval);
    var p2 := Sleep(Advance(rt, Advance(rt, p1)), interval);
    assert p1.now == start.now + interval;
    assert p2.now == start.now + 2 * interval;
    assert Poll(rt, replies, deadline, interval, p2, Some(scanning), 2).polls == 3;
  }

  // ---------------------------------------------------------------------------
  // The run
  // ---------------------------------------------------------------------------

  /** The service as an oracle: its reply to the launch, to each status poll, and to each issues page. */
  datatype Service = Service(
    launchReply: HttpReply<ApiClient.LaunchResponse>,
    statusReplies: StatusReplies,
    issuePages: seq<ApiClient.IssueReply>)

  /** Everything a run reads besides its arguments. */
  datatype Host = Host(
    settings: Settings.AppSettings,
    env: Environment,
    platform: Platform,
    rt: Runtime,
    startTime: int,
    service: Service)

  /**
   * How the process ends: RunAsync's exit code, or an exception RunAsync does
   * not catch (a missing target URI, a failure status of the service).
   */
  datatype RunExit = Exited(code: int) | Crashed(error: ScanError)

  /** The metadata status of the issues-only mode. */
  function FetchedStatus(count: nat): string {
    "Fetched " + NatToString(count) + " issue(s)"
  }

  /** The metadata status after waiting: the final state's name, or "Unknown" without a status. */
  function WaitStatus(result: Option<Dtos.ApiScanStatusModel>): string {
    if result.Some? then Dtos.StateName(result.value.state) else "Unknown"
  }

  /** The exit code after waiting: 0 for a completed scan, 3 otherwise. */
  function WaitExitCode(result: Option<Dtos.ApiScanStatusModel>): int {
    if result.Some? && result.value.state == Dtos.Complete then 0 else 3
  }

  /** The blocking mode succeeds exactly when the status it records is "Complete". */
  lemma WaitStatusAgrees(result: Option<Dtos.ApiScanStatusModel>)
    ensures WaitExitCode(result) == 0 <==> WaitStatus(result) == "Complete"
    ensures WaitExitCode(result) == 3 <==> WaitStatus(result) != "Complete"
  {
    if result.Some? {
      Dtos.StateNameComplete(result.value.state);
    }
  }

  const FireAndForgetNotes: seq<string> := [
    "Fire-and-forget mode enabled. Scan is running asynchronously.",
    "SecureCodeBox will receive completion webhook from Invicti Enterprise.",
    "Webhook will trigger Option B (Issues fetch) to collect results."]

  /** The parsed command line of a run. */
  function Arguments(args: seq<string>): CommandLine.CommandLineArguments {
    CommandLine.Parsed(args)
  }

  /** The duration profile of a run. */
  function Profile(host: Host, args: seq<string>): Settings.DurationProfile {
    Settings.Resolve(host.settings.duration, DurationValue(Arguments(args), host.env))
  }

  /** The action of a run. */
  function Action(host: Host, args: seq<string>): ScannerActions.ScannerAction {
    SelectedAction(Arguments(args), host.env, host.settings.scanner)
  }

  /** The fire-and-forget flag of a run. */
  function FireAndForget(host: Host, args: seq<string>): bool {
    ResolveFireAndForgetMode(Arguments(args), host.env)
  }

  /** The metadata a run starts with. */
  function InitialMetadata(host: Host, args: seq<string>): Dtos.ScanMetadata {
    Dtos.ScanMetadata(
      scanId := None,
      mode := Lower(ScannerActions.Name(Action(host, args))),
      duration := Profile(host, args).name,
      target := Some(ResolveTargetDescription(host.settings.invicti)),
      startedAt := host.startTime,
      completedAt := None,
      status := None,
      notes := [Profile(host, args).description])
  }

  /** The fetch arguments of the issues-only mode. */
  function IssuesOnlyQuery(host: Host, args: seq<string>): ApiClient.IssueQuery {
    ApiClient.ProfileQuery(Profile(host, args), ResolveWebsiteName(host.platform, host.settings.invicti),
                           host.settings.invicti)
  }

  /**
   * What every run ends with. The exit code is 0, 2, 3 or 130, or the process
   * crashes. An interrupted run leaves no written metadata file and a crashed
   * run touches no file; any other run writes both files. Only an interrupted
   * run leaves a file emptied by a cancelled write. Cancellation requested
   * before the first awaited call ends the run with 130, unless the
   * configuration was incomplete. A metadata file keeps the run's mode,
   * duration and start time, and records a completion time no earlier than
   * the start.
   */
  predicate RunEnds(rt: Runtime, metadata: Dtos.ScanMetadata, exit: RunExit, files: ResultWriter.OutputFiles) {
    && (exit.Exited? ==> exit.code in {0, 2, 3, 130})
    && (exit == Exited(130) ==> !files.metadata.Written?)
    && (exit.Crashed? ==> files == ResultWriter.NoFiles)
    && (exit.Exited? && exit.code != 130 ==> files.findings.Written? && files.metadata.Written?)
    && (files.findings.Emptied? || files.metadata.Emptied? ==> exit == Exited(130))
    && (CancellationRequested(rt, 0) ==> exit == Exited(130) || (exit.Crashed? && exit.error.ConfigurationError?))
    && (files.metadata.Written? ==>
          var m := files.metadata.contents;
          && m.mode == metadata.mode && m.duration == metadata.duration && m.startedAt == metadata.startedAt
          && m.completedAt.Some? && m.completedAt.value >= metadata.startedAt)
  }

  /**
   * How the issues-only mode ends. It exits with 0 or 130 or crashes on a
   * failure status of the service. On success, findings.json holds one
   * finding per issue fetched. The metadata is the initial one with a
   * completion time and "Fetched n issue(s)" as its status. At most Target()
   * issues are fetched, each of at least the minimum severity.
   */
  predicate IssuesOnlyEnds(platform: Platform, query: ApiClient.IssueQuery, metadata: Dtos.ScanMetadata,
                           exit: RunExit, files: ResultWriter.OutputFiles, issues: seq<Dtos.BasicIssueDto>) {
    && (exit == Exited(0) || exit == Exited(130) || (exit.Crashed? && exit.error.RemoteServiceError?))
    && (exit == Exited(0) ==>
          && files.findings == ResultWriter.Written(ResultWriter.Findings(platform.guidText, issues))
          && files.metadata.Written?
          && var m := files.metadata.contents;
          && m == metadata.(completedAt := m.completedAt, status := Some(FetchedStatus(|issues|)))
          && |issues| <= ApiClient.Target(query)
          && (forall x :: x in issues ==> Severities.IsAtLeast(x.severity, query.minimumSeverity)))
  }

  /**
   * How the scan mode ends. The scan launched is the one the launch request
   * returns. When the service returns no scan, the run exits with 2. It then
   * writes an empty findings array and the initial metadata marked
   * "LaunchFailed". After a launch, the metadata records the scan's id
   * and its target URI, falling back to the configured target. In
   * fire-and-forget mode the run does not wait. On success it writes an empty
   * findings array and the metadata marked "Launched" with the four notes. In
   * blocking mode the run waits as Poll describes, from the launch on. Once the
   * metadata is written, its status is the final state, the exit code is 0
   * exactly for a completed scan and 3 otherwise, and the findings are those of
   * the scan's issues.
   */
  predicate ScanEnds(rt: Runtime, platform: Platform, settings: Settings.AppSettings, profile: Settings.DurationProfile,
                     fireAndForget: bool, service: Service, metadata: Dtos.ScanMetadata,
                     exit: RunExit, files: ResultWriter.OutputFiles, issues: seq<Dtos.BasicIssueDto>,
                     launched: Option<Dtos.ScanTaskModel>, waited: Option<PollResult>) {
    && (launched.Some? ==>
          ApiClient.LaunchScan(rt, 0, platform, settings.invicti, profile, service.launchReply) == Completed(launched))
    && (exit == Exited(2) ==>
          && ApiClient.LaunchScan(rt, 0, platform, settings.invicti, profile, service.launchReply) == Completed(None)
          && launched.None? && waited.None? && files.findings == ResultWriter.Written([]) && files.metadata.Written?
          && var m := files.metadata.contents;
          && m == metadata.(completedAt := m.completedAt, status := Some("LaunchFailed")))
    && (launched.Some? && files.metadata.Written? ==>
          && files.metadata.contents.scanId == Some(launched.value.id)
          && files.metadata.contents.target == launched.value.targetUri.OrElse(metadata.target))
    && (fireAndForget ==> waited.None?)
    && (fireAndForget && exit == Exited(0) ==>
          && launched.Some? && files.findings == ResultWriter.Written([]) && files.metadata.Written?
          && files.metadata.contents.status == Some("Launched")
          && files.metadata.contents.notes == [profile.description] + FireAndForgetNotes)
    && (!fireAndForget && launched.Some? ==>
          var start := Advance(rt, Progress(0, metadata.startedAt));
          waited == Some(Poll(rt, service.statusReplies, start.now + TimeoutSeconds(settings.scanner, profile),
                              PollInterval(settings.scanner), start, None, 0)))
    && (!fireAndForget && launched.Some? && files.metadata.Written? ==>
          && waited.value.outcome.Completed?
          && files.metadata.contents.status == Some(WaitStatus(waited.value.outcome.value))
          && exit == Exited(WaitExitCode(waited.value.outcome.value))
          && files.findings == ResultWriter.Written(ResultWriter.Findings(platform.guidText, issues))
          && var q := ApiClient.ProfileQuery(profile, ApiClient.IssuesWebsiteName(launched, settings.invicti), settings.invicti);
          && |issues| <= ApiClient.Target(q)
          && (forall x :: x in issues ==> Severities.IsAtLeast(x.severity, q.minimumSeverity)))
  }

  /** A fetch of issues as it happened: its outcome, where it ended and the requests it sent. */
  datatype Fetched = Fetched(outcome: Outcome<seq<Dtos.BasicIssueDto>>, finish: Progress,
                             sent: seq<ApiClient.PageRequest>)

  /** `fetched` is what FetchIssuesAsync does with `query`, from `start`. */
  ghost predicate FetchedAs(rt: Runtime, start: Progress, escape: string -> string, query: ApiClient.IssueQuery,
                            pages: seq<ApiClient.IssueReply>, fetched: Fetched) {
    ApiClient.FetchBehaves(rt, start, escape, query, pages, fetched.outcome, fetched.finish, fetched.sent)
  }

  /** The issues a fetch returned; none when it did not complete. */
  function IssuesOf(fetched: Fetched): seq<Dtos.BasicIssueDto> {
    if fetched.outcome.Completed? then fetched.outcome.value else []
  }

  /** A write ends the run with the files it left, and with `code` unless cancellation interrupted it. */
  predicate WriteEnds(w: ResultWriter.WriteResult, code: int, exit: RunExit, files: ResultWriter.OutputFiles) {
    files == w.files && exit == (if w.interrupted then Exited(130) else Exited(code))
  }

  /**
   * How a run ends after its fetch of issues: cancellation or the client
   * timeout ends it with 130 and no file, a failure status crashes it with
   * that status, and a completed fetch is written with `completed` as the
   * metadata and ends the run with `code`.
   */
  predicate EndsAfterFetch(rt: Runtime, guidText: Dtos.Guid -> string, fetched: Fetched, completed: Dtos.ScanMetadata,
                           code: int, exit: RunExit, files: ResultWriter.OutputFiles) {
    && (fetched.outcome.Interrupted? ==> exit == Exited(130) && files == ResultWriter.NoFiles)
    && (fetched.outcome.Faulted? ==> exit == Crashed(fetched.outcome.error) && files == ResultWriter.NoFiles)
    && (fetched.outcome.Completed? ==>
          WriteEnds(ResultWriter.Write(rt, fetched.finish, guidText, fetched.outcome.value, completed), code, exit, files))
  }

  /**
   * The issues-only mode, exactly: the fetch from the start of the run, then
   * the issues written with "Fetched n issue(s)" and exit 0.
   */
  ghost predicate IssuesOnlyRun(rt: Runtime, platform: Platform, query: ApiClient.IssueQuery,
                                pages: seq<ApiClient.IssueReply>, metadata: Dtos.ScanMetadata,
                                exit: RunExit, files: ResultWriter.OutputFiles, fetched: Fetched) {
    && FetchedAs(rt, Progress(0, metadata.startedAt), platform.escapeDataString, query, pages, fetched)
    && EndsAfterFetch(rt, platform.guidText, fetched,
                      metadata.(completedAt := Some(fetched.finish.now), status := Some(FetchedStatus(|IssuesOf(fetched)|))),
                      0, exit, files)
  }

  /** The issue query of the blocking mode for the launched scan `task`. */
  function ScanQuery(settings: Settings.InvictiSettings, profile: Settings.DurationProfile, task: Dtos.ScanTaskModel)
    : ApiClient.IssueQuery
  {
    ApiClient.ProfileQuery(profile, ApiClient.IssuesWebsiteName(Some(task), settings), settings)
  }

  /**
   * The blocking mode after the wait, exactly. A wait interrupted or faulted
   * ends the run with 130 or that error and fetches nothing. A wait that
   * returned a status is followed by the fetch for the scan, and the issues
   * are written with the final state as the status and its exit code.
   */
  ghost predicate BlockingRun(rt: Runtime, platform: Platform, settings: Settings.AppSettings,
                              profile: Settings.DurationProfile, task: Dtos.ScanTaskModel,
                              pages: seq<ApiClient.IssueReply>, metadata: Dtos.ScanMetadata, waited: PollResult,
                              exit: RunExit, files: ResultWriter.OutputFiles, fetched: Option<Fetched>) {
    && (waited.outcome.Interrupted? ==> exit == Exited(130) && files == ResultWriter.NoFiles && fetched.None?)
    && (waited.outcome.Faulted? ==>
          exit == Crashed(waited.outcome.error) && files == ResultWriter.NoFiles && fetched.None?)
    && (waited.outcome.Completed? ==>
          && fetched.Some?
          && FetchedAs(rt, waited.finish, platform.escapeDataString, ScanQuery(settings.invicti, profile, task), pages,
                       fetched.value)
          && EndsAfterFetch(rt, platform.guidText, fetched.value,
                            metadata.(completedAt := Some(waited.finish.now), status := Some(WaitStatus(waited.outcome.value))),
                            WaitExitCode(waited.outcome.value), exit, files))
  }

  /**
   * The scan mode, exactly, from the launch reply. An interrupted or faulted
   * launch ends the run with 130 or that error. No scan writes the
   * "LaunchFailed" metadata and exits with 2. A launched scan in
   * fire-and-forget mode writes the "Launched" metadata and exits with 0; in
   * blocking mode the run waits and goes on as BlockingRun says.
   */
  ghost predicate ScanRun(rt: Runtime, platform: Platform, settings: Settings.AppSettings,
                          profile: Settings.DurationProfile, fireAndForget: bool, service: Service,
                          metadata: Dtos.ScanMetadata, exit: RunExit, files: ResultWriter.OutputFiles,
                          launched: Option<Dtos.ScanTaskModel>, waited: Option<PollResult>, fetched: Option<Fetched>) {
    var launch := ApiClient.LaunchScan(rt, 0, platform, settings.invicti, profile, service.launchReply);
    var p := Advance(rt, Progress(0, metadata.startedAt));
    && launched == (if launch.Completed? then launch.value else None)
    && (launch.Interrupted? ==> exit == Exited(130) && files == ResultWriter.NoFiles)
    && (launch.Faulted? ==> exit == Crashed(launch.error) && files == ResultWriter.NoFiles)
    && (launch == Completed(None) ==>
          WriteEnds(ResultWriter.Write(rt, p, platform.guidText, [],
                                       metadata.(completedAt := Some(p.now), status := Some("LaunchFailed"))),
                    2, exit, files))
    && (waited.Some? <==> !fireAndForget && launched.Some?)
    && (fetched.Some? ==> waited.Some?)
    && (launched.Some? ==>
          var started := metadata.(scanId := Some(launched.value.id),
                                   target := launched.value.targetUri.OrElse(metadata.target));
          && (fireAndForget ==>
                WriteEnds(ResultWriter.WriteMetadataOnly(rt, p, started.(completedAt := Some(p.now), status := Some("Launched"),
                                                                         notes := [profile.description] + FireAndForgetNotes)),
                          0, exit, files))
          && (!fireAndForget ==>
                && waited == Some(Poll(rt, service.statusReplies, p.now + TimeoutSeconds(settings.scanner, profile),
                                       PollInterval(settings.scanner), p, None, 0))
                && BlockingRun(rt, platform, settings, profile, launched.value, service.issuePages, started, waited.value,
                            exit, files, fetched)))
  }

  /**
   * The issues-only mode has one outcome: with the same replies, cancellation
   * and clock, two runs make the same fetch and end with the same exit code
   * and files.
   */
  lemma IssuesOnlyRunDetermined(rt: Runtime, platform: Platform, query: ApiClient.IssueQuery,
                                pages: seq<ApiClient.IssueReply>, metadata: Dtos.ScanMetadata,
                                exit: RunExit, files: ResultWriter.OutputFiles, fetched: Fetched,
                                exit': RunExit, files': ResultWriter.OutputFiles, fetched': Fetched)
    requires IssuesOnlyRun(rt, platform, query, pages, metadata, exit, files, fetched)
    requires IssuesOnlyRun(rt, platform, query, pages, metadata, exit', files', fetched')
    ensures fetched == fetched' && exit == exit' && files == files'
  {
    ApiClient.FetchDeterministic(rt, Progress(0, metadata.startedAt), platform.escapeDataString, query, pages,
                                 fetched.outcome, fetched.finish, fetched.sent,
                                 fetched'.outcome, fetched'.finish, fetched'.sent);
  }

  /**
   * The scan mode has one outcome: with the same replies, cancellation and
   * clock, two runs launch the same scan, wait the same way, make the same
   * fetch and end with the same exit code and files.
   */
  lemma ScanRunDetermined(rt: Runtime, platform: Platform, settings: Settings.AppSettings,
                          profile: Settings.DurationProfile, fireAndForget: bool, service: Service,
                          metadata: Dtos.ScanMetadata,
                          exit: RunExit, files: ResultWriter.OutputFiles, launched: Option<Dtos.ScanTaskModel>,
                          waited: Option<PollResult>, fetched: Option<Fetched>,
                          exit': RunExit, files': ResultWriter.OutputFiles, launched': Option<Dtos.ScanTaskModel>,
                          waited': Option<PollResult>, fetched': Option<Fetched>)
    requires ScanRun(rt, platform, settings, profile, fireAndForget, service, metadata, exit, files, launched, waited, fetched)
    requires ScanRun(rt, platform, settings, profile, fireAndForget, service, metadata, exit', files', launched', waited',
                     fetched')
    ensures launched == launched' && waited == waited' && fetched == fetched' && exit == exit' && files == files'
  {
    if fetched.Some? && fetched'.Some? {
      var task := launched.value;
      ApiClient.FetchDeterministic(rt, waited.value.finish, platform.escapeDataString,
                                   ScanQuery(settings.invicti, profile, task), service.issuePages,
                                   fetched.value.outcome, fetched.value.finish, fetched.value.sent,
                                   fetched'.value.outcome, fetched'.value.finish, fetched'.value.sent);
    }
  }

  /**
   * RunAsync. The ghost results say what happened on the way: the issues
   * fetched, the scan launched, the result of the wait and the fetch.
   */
  method Run(host: Host, args: seq<string>)
    returns (exit: RunExit, files: ResultWriter.OutputFiles,
             ghost issues: seq<Dtos.BasicIssueDto>, ghost launched: Option<Dtos.ScanTaskModel>,
             ghost waited: Option<PollResult>, ghost fetched: Option<Fetched>)
    ensures RunEnds(host.rt, InitialMetadata(host, args), exit, files)
    ensures issues == (if fetched.Some? then IssuesOf(fetched.value) else [])
    ensures Action(host, args) == ScannerActions.Issues ==>
      && launched.None? && waited.None?
      && IssuesOnlyEnds(host.platform, IssuesOnlyQuery(host, args), InitialMetadata(host, args), exit, files, issues)
    ensures Action(host, args) == ScannerActions.Scan ==>
      ScanEnds(host.rt, host.platform, host.settings, Profile(host, args), FireAndForget(host, args), host.service,
               InitialMetadata(host, args), exit, files, issues, launched, waited)
    ensures Action(host, args) == ScannerActions.Issues ==>
      fetched.Some? && IssuesOnlyRun(host.rt, host.platform, IssuesOnlyQuery(host, args), host.service.issuePages,
                                     InitialMetadata(host, args), exit, files, fetched.value)
    ensures Action(host, args) == ScannerActions.Scan ==>
      ScanRun(host.rt, host.platform, host.settings, Profile(host, args), FireAndForget(host, args), host.service,
              InitialMetadata(host, args), exit, files, launched, waited, fetched)
  {
    var profile, action, fireAndForget, metadata := ResolveRun(host, args);
    if action == ScannerActions.Issues {
      var query := ApiClient.ProfileQuery(profile, ResolveWebsiteName(host.platform, host.settings.invicti),
                                          host.settings.invicti);
      ghost var fetchedIssues;
      exit, files, issues, fetchedIssues := RunIssuesOnly(host.rt, host.platform, query, host.service.issuePages, metadata);
      launched, waited, fetched := None, None, Some(fetchedIssues);
    } else {
      exit, files, issues, launched, waited, fetched :=
        RunScan(host.rt, host.platform, host.settings, profile, fireAndForget, host.service, metadata);
    }
  }

  /** The start of RunAsync: the arguments, the profile, the action, the mode and the initial metadata. */
  method ResolveRun(host: Host, args: seq<string>)
    returns (profile: Settings.DurationProfile, action: ScannerActions.ScannerAction, fireAndForget: bool,
             metadata: Dtos.ScanMetadata)
    ensures profile == Profile(host, args) && action == Action(host, args) && fireAndForget == FireAndForget(host, args)
    ensures metadata == InitialMetadata(host, args)
  {
    var commandLine := CommandLine.Parse(args);
    var durationValue := commandLine.Get("duration").OrElse(host.env("SCB_SCAN_DURATION"));
    profile := Settings.Resolve(host.settings.duration, durationValue);
    var actionValue := ResolveAction(commandLine, host.env, host.settings.scanner);
    action := ScannerActions.Parse(Some(actionValue));
    fireAndForget := ResolveFireAndForgetMode(commandLine, host.env);
    metadata := Dtos.ScanMetadata(
      scanId := None,
      mode := Lower(ScannerActions.Name(action)),
      duration := profile.name,
      target := Some(ResolveTargetDescription(host.settings.invicti)),
      startedAt := host.startTime,
      completedAt := None,
      status := None,
      notes := [profile.description]);
    assert commandLine == Arguments(args);
  }

  /** The issues-only branch of RunAsync (Option B), from the start of the run. */
  method RunIssuesOnly(rt: Runtime, platform: Platform, query: ApiClient.IssueQuery, pages: seq<ApiClient.IssueReply>,
                       metadata: Dtos.ScanMetadata)
    returns (exit: RunExit, files: ResultWriter.OutputFiles, ghost issues: seq<Dtos.BasicIssueDto>,
             ghost fetchedAs: Fetched)
    ensures RunEnds(rt, metadata, exit, files)
    ensures IssuesOnlyEnds(platform, query, metadata, exit, files, issues)
    ensures issues == IssuesOf(fetchedAs)
    ensures IssuesOnlyRun(rt, platform, query, pages, metadata, exit, files, fetchedAs)
  {
    var start := Progress(0, metadata.startedAt);
    var fetched, finish;
    ghost var sent;
    fetched, finish, sent := FetchForRun(rt, start, platform.escapeDataString, query, pages);
    fetchedAs := Fetched(fetched, finish, sent);
    issues := [];
    if fetched.Interrupted? {
      exit, files := Exited(130), ResultWriter.NoFiles;
      return;
    }
    if fetched.Faulted? {
      exit, files := Crashed(fetched.error), ResultWriter.NoFiles;
      return;
    }
    var fetchedIssues := fetched.value;
    issues := fetchedIssues;
    var completed := metadata.(completedAt := Some(finish.now), status := Some(FetchedStatus(|fetchedIssues|)));
    var written := ResultWriter.Write(rt, finish, platform.guidText, fetchedIssues, completed);
    ResultWriter.WriteOutcome(rt, finish, platform.guidText, fetchedIssues, completed);
    files := written.files;
    exit := if written.interrupted then Exited(130) else Exited(0);
  }

  /** The scan branch of RunAsync (Option A), from the start of the run. */
  method RunScan(rt: Runtime, platform: Platform, settings: Settings.AppSettings, profile: Settings.DurationProfile,
                 fireAndForget: bool, service: Service, metadata: Dtos.ScanMetadata)
    returns (exit: RunExit, files: ResultWriter.OutputFiles, ghost issues: seq<Dtos.BasicIssueDto>,
             ghost launched: Option<Dtos.ScanTaskModel>, ghost waited: Option<PollResult>,
             ghost fetched: Option<Fetched>)
    ensures RunEnds(rt, metadata, exit, files)
    ensures ScanEnds(rt, platform, settings, profile, fireAndForget, service, metadata, exit, files, issues, launched, waited)
    ensures issues == (if fetched.Some? then IssuesOf(fetched.value) else [])
    ensures ScanRun(rt, platform, settings, profile, fireAndForget, service, metadata, exit, files, launched, waited, fetched)
  {
    issues, launched, waited, fetched := [], None, None, None;
    var p := Progress(0, metadata.startedAt);
    var scan := ApiClient.LaunchScan(rt, p.point, platform, settings.invicti, profile, service.launchReply);
    p := Advance(rt, p);
    if scan.Interrupted? {
      exit, files := Exited(130), ResultWriter.NoFiles;
      return;
    }
    if scan.Faulted? {
      exit, files := Crashed(scan.error), ResultWriter.NoFiles;
      return;
    }
    if scan.value.None? {
      exit, files := RunLaunchFailed(rt, p, platform, metadata);
      return;
    }

    var task := scan.value.value;
    launched := Some(task);
    var started := metadata.(scanId := Some(task.id), target := task.targetUri.OrElse(metadata.target));

    if fireAndForget {
      exit, files := RunFireAndForget(rt, p, profile, started);
      return;
    }

    var result;
    exit, files, issues, result, fetched := RunBlocking(rt, p, platform, settings, profile, task, service, started);
    waited := Some(result);
  }

  /** The launch returned no scan: an empty findings array and the metadata marked "LaunchFailed", then exit 2. */
  method RunLaunchFailed(rt: Runtime, p: Progress, platform: Platform, metadata: Dtos.ScanMetadata)
    returns (exit: RunExit, files: ResultWriter.OutputFiles)
    ensures exit == Exited(2) || exit == Exited(130)
    ensures exit == Exited(130) ==> !files.metadata.Written?
    ensures exit == Exited(2) ==>
      files == ResultWriter.OutputFiles(ResultWriter.Written([]),
                                        ResultWriter.Written(metadata.(completedAt := Some(p.now), status := Some("LaunchFailed"))))
    ensures exit == Exited(130) <==> CancellationRequested(rt, p.point + 1)
    ensures WriteEnds(ResultWriter.Write(rt, p, platform.guidText, [],
                                         metadata.(completedAt := Some(p.now), status := Some("LaunchFailed"))),
                      2, exit, files)
  {
    var failed := metadata.(completedAt := Some(p.now), status := Some("LaunchFailed"));
    var written := ResultWriter.Write(rt, p, platform.guidText, [], failed);
    ResultWriter.WriteOutcome(rt, p, platform.guidText, [], failed);
    files := written.files;
    exit := if written.interrupted then Exited(130) else Exited(2);
  }

  /**
   * Fire-and-forget mode after a launch: the metadata marked "Launched" with
   * the four notes and an empty findings array, then exit 0.
   */
  method RunFireAndForget(rt: Runtime, p: Progress, profile: Settings.DurationProfile, metadata: Dtos.ScanMetadata)
    returns (exit: RunExit, files: ResultWriter.OutputFiles)
    ensures exit == Exited(0) || exit == Exited(130)
    ensures exit == Exited(130) ==> !files.metadata.Written?
    ensures exit == Exited(0) ==>
      files == ResultWriter.OutputFiles(ResultWriter.Written([]),
                                        ResultWriter.Written(metadata.(completedAt := Some(p.now), status := Some("Launched"),
                                                                       notes := [profile.description] + FireAndForgetNotes)))
    ensures exit == Exited(130) <==> CancellationRequested(rt, p.point + 1)
    ensures WriteEnds(ResultWriter.WriteMetadataOnly(rt, p, metadata.(completedAt := Some(p.now), status := Some("Launched"),
                                                                      notes := [profile.description] + FireAndForgetNotes)),
                      0, exit, files)
  {
    var launchedMetadata := metadata.(completedAt := Some(p.now), status := Some("Launched"),
                                      notes := [profile.description] + FireAndForgetNotes);
    var written := ResultWriter.WriteMetadataOnly(rt, p, launchedMetadata);
    ResultWriter.WriteMetadataOnlyOutcome(rt, p, launchedMetadata);
    files := written.files;
    exit := if written.interrupted then Exited(130) else Exited(0);
  }

  /**
   * How the blocking mode ends after a wait that ended with `waited`, from the
   * launch at progress `p`. The exit code is 0, 3 or 130, or the run crashes on
   * a failure status of the service; cancellation at the launch ends it with
   * 130. Once the metadata is written, it is the launched scan's metadata with
   * the final state as its status and a completion time no earlier than the
   * launch; the exit code is that of the state and the findings are those of
   * the scan's issues, at most Target() of them and each of at least the
   * minimum severity.
   */
  predicate BlockingEnds(rt: Runtime, p: Progress, platform: Platform, settings: Settings.AppSettings,
                         profile: Settings.DurationProfile, task: Dtos.ScanTaskModel, metadata: Dtos.ScanMetadata,
                         exit: RunExit, files: ResultWriter.OutputFiles, issues: seq<Dtos.BasicIssueDto>,
                         waited: PollResult) {
    && (exit.Exited? ==> exit.code in {0, 3, 130})
    && (exit == Exited(130) ==> !files.metadata.Written?)
    && (exit.Crashed? ==> files == ResultWriter.NoFiles && exit.error.RemoteServiceError?)
    && (exit.Exited? && exit.code != 130 ==> files.findings.Written? && files.metadata.Written?)
    && (CancellationRequested(rt, p.point) ==> exit == Exited(130))
    && (files.metadata.Written? ==>
          && waited.outcome.Completed?
          && var m := files.metadata.contents;
          && m == metadata.(completedAt := m.completedAt, status := Some(WaitStatus(waited.outcome.value)))
          && m.completedAt.Some? && m.completedAt.value >= p.now
          && exit == Exited(WaitExitCode(waited.outcome.value))
          && files.findings == ResultWriter.Written(ResultWriter.Findings(platform.guidText, issues))
          && var q := ApiClient.ProfileQuery(profile, ApiClient.IssuesWebsiteName(Some(task), settings.invicti), settings.invicti);
          && |issues| <= ApiClient.Target(q)
          && (forall x :: x in issues ==> Severities.IsAtLeast(x.severity, q.minimumSeverity)))
  }

  /** The blocking mode of RunAsync, from the launch of scan `task` at progress `p`. */
  method RunBlocking(rt: Runtime, p: Progress, platform: Platform, settings: Settings.AppSettings,
                     profile: Settings.DurationProfile, task: Dtos.ScanTaskModel, service: Service,
                     metadata: Dtos.ScanMetadata)
    returns (exit: RunExit, files: ResultWriter.OutputFiles, ghost issues: seq<Dtos.BasicIssueDto>,
             waited: PollResult, ghost fetched: Option<Fetched>)
    ensures waited == Poll(rt, service.statusReplies, p.now + TimeoutSeconds(settings.scanner, profile),
                           PollInterval(settings.scanner), p, None, 0)
    ensures BlockingEnds(rt, p, platform, settings, profile, task, metadata, exit, files, issues, waited)
    ensures issues == (if fetched.Some? then IssuesOf(fetched.value) else [])
    ensures BlockingRun(rt, platform, settings, profile, task, service.issuePages, metadata, waited, exit, files, fetched)
  {
    waited := WaitForCompletion(rt, service.statusReplies, settings.scanner, profile, p);
    PollProgress(rt, service.statusReplies, p.now + TimeoutSeconds(settings.scanner, profile),
                 PollInterval(settings.scanner), p, None, 0);
    exit, files, issues, fetched := AfterWait(rt, p, platform, settings, profile, task, service.issuePages, metadata, waited);
  }

  /** The rest of the blocking mode once the wait has ended with `waited`: the status, the issues and the files. */
  method AfterWait(rt: Runtime, p: Progress, platform: Platform, settings: Settings.AppSettings,
                   profile: Settings.DurationProfile, task: Dtos.ScanTaskModel, pages: seq<ApiClient.IssueReply>,
                   metadata: Dtos.ScanMetadata, waited: PollResult)
    returns (exit: RunExit, files: ResultWriter.OutputFiles, ghost issues: seq<Dtos.BasicIssueDto>,
             ghost fetchedAs: Option<Fetched>)
    requires waited.finish.point > p.point && waited.finish.now >= p.now
    requires waited.outcome.Faulted? ==> waited.outcome.error.RemoteServiceError?
    requires CancellationRequested(rt, p.point) ==> waited.outcome.Completed?
    ensures BlockingEnds(rt, p, platform, settings, profile, task, metadata, exit, files, issues, waited)
    ensures issues == (if fetchedAs.Some? then IssuesOf(fetchedAs.value) else [])
    ensures BlockingRun(rt, platform, settings, profile, task, pages, metadata, waited, exit, files, fetchedAs)
  {
    issues, fetchedAs := [], None;
    if waited.outcome.Interrupted? {
      exit, files := Exited(130), ResultWriter.NoFiles;
      return;
    }
    if waited.outcome.Faulted? {
      exit, files := Crashed(waited.outcome.error), ResultWriter.NoFiles;
      return;
    }
    var completed := metadata.(completedAt := Some(waited.finish.now), status := Some(WaitStatus(waited.outcome.value)));
    var fetched, afterFetch;
    ghost var sent;
    fetched, afterFetch, sent := GetIssuesForRun(rt, waited.finish, platform.escapeDataString, settings.invicti,
                                                 profile, task, pages);
    fetchedAs := Some(Fetched(fetched, afterFetch, sent));
    if fetched.Interrupted? {
      exit, files := Exited(130), ResultWriter.NoFiles;
      return;
    }
    if fetched.Faulted? {
      exit, files := Crashed(fetched.error), ResultWriter.NoFiles;
      return;
    }
    var issuesAfterScan := fetched.value;
    issues := issuesAfterScan;
    var written := ResultWriter.Write(rt, afterFetch, platform.guidText, issuesAfterScan, completed);
    ResultWriter.WriteOutcome(rt, afterFetch, platform.guidText, issuesAfterScan, completed);
    files := written.files;
    exit := if written.interrupted then Exited(130) else Exited(WaitExitCode(waited.outcome.value));
  }

  /**
   * What a run relies on about a fetch of issues: cancellation before the
   * first request interrupts it, it throws only on a failure status of the
   * service, and the issues it returns are at most Target() of the received
   * ones, each of at least the minimum severity.
   */
  predicate FetchSummary(rt: Runtime, start: Progress, query: ApiClient.IssueQuery,
                         r: Outcome<seq<Dtos.BasicIssueDto>>, finish: Progress) {
    && (CancellationRequested(rt, start.point) ==> r.Interrupted?)
    && (r.Faulted? ==> r.error.RemoteServiceError?)
    && finish.now >= start.now
    && (r.Completed? ==> |r.value| <= ApiClient.Target(query))
    && (r.Completed? ==> forall x :: x in r.value ==> Severities.IsAtLeast(x.severity, query.minimumSeverity))
  }

  /** The fetch of the issues-only mode (FetchIssuesAsync). */
  method FetchForRun(rt: Runtime, start: Progress, escape: string -> string, query: ApiClient.IssueQuery,
                     pages: seq<ApiClient.IssueReply>)
    returns (r: Outcome<seq<Dtos.BasicIssueDto>>, finish: Progress, ghost sent: seq<ApiClient.PageRequest>)
    ensures ApiClient.FetchBehaves(rt, start, escape, query, pages, r, finish, sent)
    ensures FetchSummary(rt, start, query, r, finish)
  {
    r, finish, sent := ApiClient.FetchIssues(rt, start, escape, query, pages);
    ApiClient.FetchGuarantees(rt, start, escape, query, pages, r, finish, sent);
    ApiClient.FetchEnds(rt, start, escape, query, pages, r, finish, sent);
  }

  /** The fetch of the blocking mode (GetIssuesForScanAsync for the launched scan). */
  method GetIssuesForRun(rt: Runtime, start: Progress, escape: string -> string, settings: Settings.InvictiSettings,
                         profile: Settings.DurationProfile, scan: Dtos.ScanTaskModel, pages: seq<ApiClient.IssueReply>)
    returns (r: Outcome<seq<Dtos.BasicIssueDto>>, finish: Progress, ghost sent: seq<ApiClient.PageRequest>)
    ensures ApiClient.FetchBehaves(rt, start, escape, ScanQuery(settings, profile, scan), pages, r, finish, sent)
    ensures FetchSummary(rt, start, ScanQuery(settings, profile, scan), r, finish)
  {
    var query := ApiClient.ProfileQuery(profile, ApiClient.IssuesWebsiteName(Some(scan), settings), settings);
    r, finish, sent := ApiClient.GetIssuesForScan(rt, start, escape, settings, profile, Some(scan), pages);
    ApiClient.FetchGuarantees(rt, start, escape, query, pages, r, finish, sent);
    ApiClient.FetchEnds(rt, start, escape, query, pages, r, finish, sent);
  }

}
