/**
 * The records exchanged with the scanning service and written as run metadata
 * (Models/InvictiDtos.cs). Shapes only; serializer attributes are not modelled.
 */
module Dtos {
  import opened DotNet
  import Severities

  /** A 128-bit identifier; its text form is supplied by the platform. */
  datatype Guid = Guid(bits: nat)

  datatype WebsiteInfo = WebsiteInfo(id: Guid, name: Option<string>, rootUrl: Option<string>)

  /** One issue as listed by the service. */
  datatype BasicIssueDto = BasicIssueDto(
    id: Guid,
    title: Option<string>,
    url: Option<string>,
    severity: Severities.IssueSeverity,
    state: Option<string>,
    isConfirmed: bool,
    isAddressed: bool,
    firstSeenDate: Option<string>,
    lastSeenDate: Option<string>,
    cwe: Option<string>,
    website: Option<WebsiteInfo>)

  /** The scan record returned by a launch. */
  datatype ScanTaskModel = ScanTaskModel(
    id: Guid,
    targetUri: Option<string>,
    name: Option<string>,
    websiteId: Option<Guid>,
    websiteName: Option<string>,
    state: Option<string>,
    crawlAndAttack: bool)

  datatype ScanState =
    | Queued | Scanning | Archiving | Complete | Failed | Cancelled
    | Delayed | Pausing | Paused | Resuming | AsyncArchiving

  /** Enum.ToString() of a scan state. */
  function StateName(s: ScanState): string {
    match s
    case Queued => "Queued"
    case Scanning => "Scanning"
    case Archiving => "Archiving"
    case Complete => "Complete"
    case Failed => "Failed"
    case Cancelled => "Cancelled"
    case Delayed => "Delayed"
    case Pausing => "Pausing"
    case Paused => "Paused"
    case Resuming => "Resuming"
    case AsyncArchiving => "AsyncArchiving"
  }

  /** Only the Complete state is written as "Complete". */
  lemma StateNameComplete(s: ScanState)
    ensures StateName(s) == "Complete" <==> s == Complete
  {
  }

  /** A point-in-time snapshot of a scan's progress. */
  datatype ApiScanStatusModel = ApiScanStatusModel(
    completedSteps: int,
    estimatedSteps: int,
    estimatedLaunchTime: int,
    state: ScanState)

  /** Body of POST /api/1.0/scans/new. */
  datatype NewScanTaskApiModel = NewScanTaskApiModel(
    targetUri: string,
    createType: string,
    websiteGroupId: Option<Guid>,
    agentGroupName: Option<string>,
    agentName: Option<string>,
    crawlAndAttack: bool,
    isMaxScanDurationEnabled: bool,
    maxScanDuration: int,
    reportPolicyFailingUrls: bool)

  /** Body of POST /api/1.0/scans/newwithprofile. */
  datatype NewScanTaskWithProfileApiModel = NewScanTaskWithProfileApiModel(
    profileName: string,
    targetUri: string)

  /** Body of POST /api/1.0/scans/incremental. */
  datatype IncrementalApiModel = IncrementalApiModel(
    isMaxScanDurationEnabled: bool,
    maxScanDuration: int,
    agentGroupName: Option<string>,
    agentName: Option<string>,
    baseScanId: Guid)

  /**
   * The run metadata written to scan-metadata.json. Timestamps are readings
   * of the run's clock, in seconds.
   */
  datatype ScanMetadata = ScanMetadata(
    scanId: Option<Guid>,
    mode: string,
    duration: string,
    target: Option<string>,
    startedAt: int,
    completedAt: Option<int>,
    status: Option<string>,
    notes: seq<string>)
}
