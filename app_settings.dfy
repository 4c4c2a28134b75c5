/**
 * The configuration records, the built-in duration policies and the duration
 * resolver (Configuration/AppSettings.cs).
 */
module Settings {
  import opened DotNet
  import Severities
  import ScannerActions

  datatype ScanDuration = Short | Medium | Long

  /** Enum.ToString() of a duration tier. */
  function DurationName(d: ScanDuration): string {
    match d
    case Short => "Short"
    case Medium => "Medium"
    case Long => "Long"
  }

  /** An immutable scan policy. */
  datatype DurationProfile = DurationProfile(
    name: string,
    description: string,
    maxIssues: int,
    maxRuntimeMinutes: int,
    minimumSeverity: Severities.IssueSeverity,
    useIncremental: bool,
    allowFullScan: bool,
    profileName: Option<string>,
    endpointTags: seq<string>)

  /** `new DurationProfile()`: the property initialisers. */
  function DefaultProfile(): DurationProfile {
    DurationProfile(
      name := "short",
      description := "",
      maxIssues := 50,
      maxRuntimeMinutes := 15,
      minimumSeverity := Severities.Medium,
      useIncremental := false,
      allowFullScan := true,
      profileName := None,
      endpointTags := [])
  }

  function CreateShort(): DurationProfile {
    DefaultProfile().(
      name := Lower(DurationName(Short)),
      description := "Optimized for CI/CD feedback in minutes.",
      maxIssues := 25,
      maxRuntimeMinutes := 15,
      minimumSeverity := Severities.High,
      useIncremental := true,
      allowFullScan := false,
      endpointTags := ["login", "health", "api-priority"])
  }

  function CreateMedium(): DurationProfile {
    DefaultProfile().(
      name := Lower(DurationName(Medium)),
      description := "Balanced coverage for nightly builds.",
      maxIssues := 200,
      maxRuntimeMinutes := 120,
      minimumSeverity := Severities.Medium,
      useIncremental := false,
      allowFullScan := true,
      endpointTags := ["core", "authenticated"])
  }

  function CreateLong(): DurationProfile {
    DefaultProfile().(
      name := Lower(DurationName(Long)),
      description := "Full assessment for deep-dive testing.",
      maxIssues := 1000,
      maxRuntimeMinutes := 480,
      minimumSeverity := Severities.BestPractice,
      useIncremental := false,
      allowFullScan := true)
  }

  /** The built-in profile of a tier. */
  function BuiltIn(d: ScanDuration): DurationProfile {
    match d
    case Short => CreateShort()
    case Medium => CreateMedium()
    case Long => CreateLong()
  }

  /**
   * DurationProfile.ParseDuration: null or blank gives Short; otherwise the tier
   * whose name matches case-insensitively, and Short when none does.
   */
  function ParseDuration(value: Option<string>): (r: ScanDuration)
    ensures IsNullOrWhiteSpace(value) ==> r == Short
    ensures forall d :: !IsNullOrWhiteSpace(value) && NameMatches(value.value, DurationName(d)) ==> r == d
    ensures r != Short ==> NameMatches(value.value, DurationName(r))
  {
    NameMatchUnique(value);
    if IsNullOrWhiteSpace(value) then Short
    else if NameMatches(value.value, DurationName(Short)) then Short
    else if NameMatches(value.value, DurationName(Medium)) then Medium
    else if NameMatches(value.value, DurationName(Long)) then Long
    else Short
  }

  /** At most one tier name matches a given string: the names differ in length. */
  lemma NameMatchUnique(value: Option<string>)
    ensures forall a, b :: value.Some? && NameMatches(value.value, DurationName(a)) && NameMatches(value.value, DurationName(b)) ==> a == b
  {
    forall a, b | value.Some? && NameMatches(value.value, DurationName(a)) && NameMatches(value.value, DurationName(b))
      ensures a == b
    {
      assert |Lower(DurationName(a))| == |Lower(DurationName(b))|;
    }
  }

  /** The configured profiles; a slot the configuration sets to null is None. */
  datatype DurationProfiles = DurationProfiles(
    short: Option<DurationProfile>,
    medium: Option<DurationProfile>,
    long: Option<DurationProfile>)

  function DefaultDurationProfiles(): DurationProfiles {
    DurationProfiles(Some(CreateShort()), Some(CreateMedium()), Some(CreateLong()))
  }

  /** The configured slot of a tier. */
  function Slot(profiles: DurationProfiles, d: ScanDuration): Option<DurationProfile> {
    match d
    case Short => profiles.short
    case Medium => profiles.medium
    case Long => profiles.long
  }

  /** DurationProfiles.Resolve. */
  function Resolve(profiles: DurationProfiles, value: Option<string>): DurationProfile {
    match ParseDuration(value)
    case Long => profiles.long.GetOr(CreateLong())
    case Medium => profiles.medium.GetOr(CreateMedium())
    case Short => profiles.short.GetOr(CreateShort())
  }

  /**
   * Resolve never fails: every input, recognised or not, yields the configured
   * profile of the parsed tier, or that tier's built-in when the slot is null;
   * blank and unrecognised input select the short tier.
   */
  lemma ResolveTotal(profiles: DurationProfiles, value: Option<string>)
    ensures Slot(profiles, ParseDuration(value)).Some? ==>
      Resolve(profiles, value) == Slot(profiles, ParseDuration(value)).value
    ensures Slot(profiles, ParseDuration(value)).None? ==>
      Resolve(profiles, value) == BuiltIn(ParseDuration(value))
    ensures IsNullOrWhiteSpace(value) || (forall d :: !NameMatches(value.value, DurationName(d))) ==>
      Resolve(profiles, value) == profiles.short.GetOr(CreateShort())
  {
  }

  /** Every tier name is free of white space at both ends and not blank. */
  lemma DurationNameIsTrimmed(d: ScanDuration)
    ensures |DurationName(d)| > 0
    ensures !IsWhiteSpace(DurationName(d)[0]) && !IsWhiteSpace(DurationName(d)[|DurationName(d)| - 1])
  {
  }

  lemma BuiltInName(d: ScanDuration)
    ensures BuiltIn(d).name == Lower(DurationName(d))
  {
  }

  /** A tier's name in lower case parses back to that tier. */
  lemma ParseLowerName(d: ScanDuration)
    ensures ParseDuration(Some(Lower(DurationName(d)))) == d
  {
    DurationNameIsTrimmed(d);
    NameMatchesItself(DurationName(d));
  }

  /** A built-in profile's name resolves back to its own tier. */
  lemma ResolveBuiltInName(profiles: DurationProfiles, d: ScanDuration)
    ensures ParseDuration(Some(BuiltIn(d).name)) == d
    ensures Resolve(profiles, Some(BuiltIn(d).name)) == Slot(profiles, d).GetOr(BuiltIn(d))
    ensures Resolve(DefaultDurationProfiles(), Some(BuiltIn(d).name)) == BuiltIn(d)
  {
    BuiltInName(d);
    ParseLowerName(d);
  }

  /** The built-in policy tables. */
  lemma BuiltInPolicies()
    ensures var s := CreateShort();
      s.maxIssues == 25 && s.maxRuntimeMinutes == 15 && s.minimumSeverity == Severities.High
      && s.useIncremental && !s.allowFullScan && s.profileName.None?
      && s.endpointTags == ["login", "health", "api-priority"]
    ensures var m := CreateMedium();
      m.maxIssues == 200 && m.maxRuntimeMinutes == 120 && m.minimumSeverity == Severities.Medium
      && !m.useIncremental && m.allowFullScan && m.profileName.None?
      && m.endpointTags == ["core", "authenticated"]
    ensures var l := CreateLong();
      l.maxIssues == 1000 && l.maxRuntimeMinutes == 480 && l.minimumSeverity == Severities.BestPractice
      && !l.useIncremental && l.allowFullScan && l.profileName.None? && l.endpointTags == []
  {
  }

  /** The order of the tiers: a longer tier allows more issues and runtime and never a higher severity floor. */
  function TierRank(d: ScanDuration): nat {
    match d
    case Short => 0
    case Medium => 1
    case Long => 2
  }

  lemma TiersMonotonic(a: ScanDuration, b: ScanDuration)
    requires TierRank(a) < TierRank(b)
    ensures BuiltIn(a).maxIssues < BuiltIn(b).maxIssues
    ensures BuiltIn(a).maxRuntimeMinutes < BuiltIn(b).maxRuntimeMinutes
    ensures Severities.IsAtLeast(BuiltIn(a).minimumSeverity, BuiltIn(b).minimumSeverity)
  {
  }

  /** Every built-in profile satisfies the bounds the rest of the scanner relies on. */
  lemma BuiltInBounds(d: ScanDuration)
    ensures BuiltIn(d).maxIssues >= 1 && BuiltIn(d).maxRuntimeMinutes >= 1
  {
  }

  datatype ScannerSettings = ScannerSettings(
    action: string,
    outputPath: string,
    pollingIntervalSeconds: int,
    maximumWaitMinutes: int)

  /** `new ScannerSettings()`. */
  function DefaultScannerSettings(): ScannerSettings {
    ScannerSettings(
      action := Lower(ScannerActions.Name(ScannerActions.Scan)),
      outputPath := "/home/scanner/results",
      pollingIntervalSeconds := 15,
      maximumWaitMinutes := 30)
  }

  datatype InvictiSettings = InvictiSettings(
    baseUrl: string,
    apiToken: string,
    apiId: string,
    username: string,
    password: string,
    verifyTls: bool,
    defaultAgentGroup: string,
    agentName: string,
    websiteId: string,
    websiteName: string,
    websiteGroupName: string,
    targetUri: string,
    scanProfileId: string,
    incrementalBaseScanId: string)

  /** `new InvictiSettings()`: every string empty, certificates verified. */
  function DefaultInvictiSettings(): InvictiSettings {
    InvictiSettings("", "", "", "", "", true, "", "", "", "", "", "", "", "")
  }

  datatype AppSettings = AppSettings(
    invicti: InvictiSettings,
    scanner: ScannerSettings,
    duration: DurationProfiles)

  function DefaultAppSettings(): AppSettings {
    AppSettings(DefaultInvictiSettings(), DefaultScannerSettings(), DefaultDurationProfiles())
  }
}
