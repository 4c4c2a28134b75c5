/**
 * ScanResultWriter (Services/ScanResultWriter.cs): the translation of an issue
 * into a secureCodeBox finding, and the two output files a run writes. The
 * files are modelled as values; JSON formatting is not modelled.
 */
module ResultWriter {
  import opened DotNet
  import opened Effects
  import Dtos
  import Severities

  /** A value of the open attribute dictionary (`object?` in the source). */
  datatype AttributeValue = GuidValue(guid: Dtos.Guid) | TextValue(text: Option<string>) | FlagValue(flag: bool)

  /** SecureCodeBoxFinding (Models/SecureCodeBoxFinding.cs); the attributes in insertion order. */
  datatype SecureCodeBoxFinding = SecureCodeBoxFinding(
    name: string,
    category: string,
    severity: string,
    description: string,
    location: Option<string>,
    attributeIdentifier: Option<string>,
    attributes: seq<(string, AttributeValue)>)

  const FindingCategory: string := "Invicti Issue"

  /** The attribute keys every finding carries, in insertion order. */
  const AttributeKeys: seq<string> :=
    ["id", "state", "isConfirmed", "isAddressed", "firstSeenDate", "lastSeenDate", "cwe", "website"]

  /** `issue.Website?.Name ?? issue.Website?.RootUrl`. */
  function WebsiteLabel(website: Option<Dtos.WebsiteInfo>): Option<string> {
    if website.None? then None else website.value.name.OrElse(website.value.rootUrl)
  }

  /** The attribute dictionary of ToFinding. */
  function Attributes(issue: Dtos.BasicIssueDto): seq<(string, AttributeValue)> {
    [ ("id", GuidValue(issue.id)),
      ("state", TextValue(issue.state)),
      ("isConfirmed", FlagValue(issue.isConfirmed)),
      ("isAddressed", FlagValue(issue.isAddressed)),
      ("firstSeenDate", TextValue(issue.firstSeenDate)),
      ("lastSeenDate", TextValue(issue.lastSeenDate)),
      ("cwe", TextValue(issue.cwe)),
      ("website", TextValue(WebsiteLabel(issue.website))) ]
  }

  /** ToFinding; `guidText` is Guid.ToString. */
  function ToFinding(guidText: Dtos.Guid -> string, issue: Dtos.BasicIssueDto): SecureCodeBoxFinding {
    SecureCodeBoxFinding(
      name := issue.title.GetOr(guidText(issue.id)),
      category := FindingCategory,
      severity := Lower(Severities.Name(issue.severity)),
      description := issue.title.GetOr("Unknown") + " (Severity: " + Severities.Name(issue.severity) + ")",
      location := issue.url,
      attributeIdentifier := issue.cwe,
      attributes := Attributes(issue))
  }

  /** The value stored under `key`, if any (the dictionary's lookup). */
  function Lookup(attributes: seq<(string, AttributeValue)>, key: string): Option<AttributeValue> {
    if attributes == [] then None
    else if attributes[0].0 == key then Some(attributes[0].1)
    else Lookup(attributes[1..], key)
  }

  /** A key found at position i, and at no earlier one, looks up the value stored there. */
  lemma {:induction false} LookupAt(attributes: seq<(string, AttributeValue)>, i: nat, key: string)
    requires i < |attributes| && attributes[i].0 == key
    requires forall j :: 0 <= j < i ==> attributes[j].0 != key
    ensures Lookup(attributes, key) == Some(attributes[i].1)
    decreases i
  {
    if i > 0 {
      LookupAt(attributes[1..], i - 1, key);
    }
  }

  /** A key at no position is not found. */
  lemma {:induction false} LookupAbsent(attributes: seq<(string, AttributeValue)>, key: string)
    requires forall j :: 0 <= j < |attributes| ==> attributes[j].0 != key
    ensures Lookup(attributes, key).None?
    decreases |attributes|
  {
    if attributes != [] {
      LookupAbsent(attributes[1..], key);
    }
  }

  /** The attribute keys are distinct. */
  lemma AttributeKeysDistinct()
    ensures forall i, j :: 0 <= i < j < |AttributeKeys| ==> AttributeKeys[i] != AttributeKeys[j]
  {
  }

  /**
   * The attribute dictionary holds exactly the eight keys, in order, each with
   * the issue's own value; any other key is absent.
   */
  lemma AttributesOfIssue(issue: Dtos.BasicIssueDto, key: string)
    ensures var a := Attributes(issue);
      && |a| == 8
      && (forall i :: 0 <= i < |a| ==> a[i].0 == AttributeKeys[i])
      && Lookup(a, "id") == Some(GuidValue(issue.id))
      && Lookup(a, "state") == Some(TextValue(issue.state))
      && Lookup(a, "isConfirmed") == Some(FlagValue(issue.isConfirmed))
      && Lookup(a, "isAddressed") == Some(FlagValue(issue.isAddressed))
      && Lookup(a, "firstSeenDate") == Some(TextValue(issue.firstSeenDate))
      && Lookup(a, "lastSeenDate") == Some(TextValue(issue.lastSeenDate))
      && Lookup(a, "cwe") == Some(TextValue(issue.cwe))
      && Lookup(a, "website") == Some(TextValue(WebsiteLabel(issue.website)))
    ensures Lookup(Attributes(issue), key).Some? <==> key in AttributeKeys
  {
    var a := Attributes(issue);
    AttributeKeysDistinct();
    assert forall i :: 0 <= i < |a| ==> a[i].0 == AttributeKeys[i];
    LookupAt(a, 0, "id");
    LookupAt(a, 1, "state");
    LookupAt(a, 2, "isConfirmed");
    LookupAt(a, 3, "isAddressed");
    LookupAt(a, 4, "firstSeenDate");
    LookupAt(a, 5, "lastSeenDate");
    LookupAt(a, 6, "cwe");
    LookupAt(a, 7, "website");
    if key !in AttributeKeys {
      LookupAbsent(a, key);
    } else {
      var i :| 0 <= i < 8 && AttributeKeys[i] == key;
      LookupAt(a, i, key);
    }
  }

  /**
   * The fields of a finding, read back against the issue: the name is the
   * title or, without one, the id's text (an empty title stays empty); the
   * severity is the lower-cased member name and parses back to the issue's
   * severity; the description carries the title or "Unknown" and the severity
   * name as declared; location and classifier pass through unchanged.
   */
  lemma ToFindingFields(guidText: Dtos.Guid -> string, issue: Dtos.BasicIssueDto)
    ensures var f := ToFinding(guidText, issue);
      && (issue.title.Some? ==> f.name == issue.title.value)
      && (issue.title.None? ==> f.name == guidText(issue.id))
      && f.category == "Invicti Issue"
      && f.severity == Lower(Severities.Name(issue.severity))
      && Severities.Parse(Some(f.severity)) == issue.severity
      && f.description == issue.title.GetOr("Unknown") + " (Severity: " + Severities.Name(issue.severity) + ")"
      && f.location == issue.url && f.attributeIdentifier == issue.cwe
      && f.attributes == Attributes(issue)
  {
    Severities.ParseName(issue.severity);
  }

  /** The website label prefers the website's name to its root URL and is null without a website. */
  lemma WebsiteLabelChoice(website: Option<Dtos.WebsiteInfo>)
    ensures website.None? ==> WebsiteLabel(website).None?
    ensures website.Some? && website.value.name.Some? ==> WebsiteLabel(website) == website.value.name
    ensures website.Some? && website.value.name.None? ==> WebsiteLabel(website) == website.value.rootUrl
  {
  }

  /** `issues.Select(ToFinding).ToArray()`: one finding per issue, in order. */
  function Findings(guidText: Dtos.Guid -> string, issues: seq<Dtos.BasicIssueDto>): (r: seq<SecureCodeBoxFinding>)
    ensures |r| == |issues|
    ensures forall i :: 0 <= i < |issues| ==> r[i] == ToFinding(guidText, issues[i])
    decreases |issues|
  {
    if issues == [] then [] else [ToFinding(guidText, issues[0])] + Findings(guidText, issues[1..])
  }

  lemma {:induction false} FindingsConcat(guidText: Dtos.Guid -> string, a: seq<Dtos.BasicIssueDto>, b: seq<Dtos.BasicIssueDto>)
    ensures Findings(guidText, a + b) == Findings(guidText, a) + Findings(guidText, b)
  {
    var l, r := Findings(guidText, a + b), Findings(guidText, a) + Findings(guidText, b);
    assert |l| == |r|;
    forall i | 0 <= i < |l| ensures l[i] == r[i] {
      if i < |a| {
        assert (a + b)[i] == a[i];
      } else {
        assert (a + b)[i] == b[i - |a|];
      }
    }
  }

  // The two output files.

  /**
   * One output file after a run: not opened, opened by File.Create (which
   * creates or truncates it) but left empty because the serialisation into
   * it was cancelled, or written with its contents.
   */
  datatype FileState<+T> = Untouched | Emptied | Written(contents: T)

  /** findings.json and scan-metadata.json after a run. */
  datatype OutputFiles = OutputFiles(findings: FileState<seq<SecureCodeBoxFinding>>, metadata: FileState<Dtos.ScanMetadata>)

  const NoFiles: OutputFiles := OutputFiles(Untouched, Untouched)

  /**
   * What writing ends with: the files on disk, whether the write was
   * interrupted, and where the run is afterwards.
   */
  datatype WriteResult = WriteResult(files: OutputFiles, interrupted: bool, finish: Progress)

  /**
   * Writes findings.json and then scan-metadata.json. Each file is first
   * created or truncated, then filled by an awaited serialisation that
   * observes the cancellation token.
   */
  function WriteFiles(rt: Runtime, start: Progress, findings: seq<SecureCodeBoxFinding>, metadata: Dtos.ScanMetadata)
    : WriteResult
  {
    var afterFindings := Advance(rt, start);
    if CancellationRequested(rt, start.point) then WriteResult(OutputFiles(Emptied, Untouched), true, afterFindings)
    else
      var afterMetadata := Advance(rt, afterFindings);
      if CancellationRequested(rt, afterFindings.point) then WriteResult(OutputFiles(Written(findings), Emptied), true, afterMetadata)
      else WriteResult(OutputFiles(Written(findings), Written(metadata)), false, afterMetadata)
  }

  /** WriteAsync: the issues' findings and the metadata. */
  function Write(rt: Runtime, start: Progress, guidText: Dtos.Guid -> string, issues: seq<Dtos.BasicIssueDto>,
                 metadata: Dtos.ScanMetadata): WriteResult {
    WriteFiles(rt, start, Findings(guidText, issues), metadata)
  }

  /** WriteMetadataOnlyAsync: an empty findings array and the metadata. */
  function WriteMetadataOnly(rt: Runtime, start: Progress, metadata: Dtos.ScanMetadata): WriteResult {
    WriteFiles(rt, start, [], metadata)
  }

  /**
   * Unless cancellation interrupts it, writing leaves both files: the findings
   * of the issues in order and the metadata unchanged. Findings are always
   * written before the metadata. A write cancelled from the start leaves an
   * emptied findings.json and does not touch scan-metadata.json; one
   * cancelled after the findings leaves them and an emptied
   * scan-metadata.json.
   */
  lemma WriteOutcome(rt: Runtime, start: Progress, guidText: Dtos.Guid -> string, issues: seq<Dtos.BasicIssueDto>,
                     metadata: Dtos.ScanMetadata)
    ensures var w := Write(rt, start, guidText, issues, metadata);
      && (!w.interrupted <==> !CancellationRequested(rt, start.point + 1))
      && (!w.interrupted ==> w.files == OutputFiles(Written(Findings(guidText, issues)), Written(metadata)))
      && (w.interrupted ==> !w.files.metadata.Written?)
      && (w.files.metadata.Written? ==> w.files.findings.Written?)
      && (CancellationRequested(rt, start.point) ==> w.files == OutputFiles(Emptied, Untouched))
      && (w.interrupted && !CancellationRequested(rt, start.point) ==>
            w.files == OutputFiles(Written(Findings(guidText, issues)), Emptied))
      && w.finish.point <= start.point + 2
  {
  }

  /**
   * The metadata-only path writes an empty findings array and then the
   * metadata, under the same rules for cancellation.
   */
  lemma WriteMetadataOnlyOutcome(rt: Runtime, start: Progress, metadata: Dtos.ScanMetadata)
    ensures var w := WriteMetadataOnly(rt, start, metadata);
      && (!w.interrupted <==> !CancellationRequested(rt, start.point + 1))
      && (!w.interrupted ==> w.files == OutputFiles(Written([]), Written(metadata)))
      && (w.interrupted ==> !w.files.metadata.Written?)
      && (CancellationRequested(rt, start.point) ==> w.files == OutputFiles(Emptied, Untouched))
      && (w.interrupted && !CancellationRequested(rt, start.point) ==> w.files == OutputFiles(Written([]), Emptied))
  {
  }
}
