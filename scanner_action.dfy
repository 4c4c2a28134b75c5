/** The two run actions and their parser (Models/ScannerAction.cs). */
module ScannerActions {
  import opened DotNet

  datatype ScannerAction = Scan | Issues

  /** Enum.ToString(): the member's declared name. */
  function Name(a: ScannerAction): string {
    match a
    case Scan => "Scan"
    case Issues => "Issues"
  }

  /**
   * ScannerActionExtensions.Parse: null or blank gives Scan; otherwise the
   * member whose name matches case-insensitively, and Scan when none does.
   */
  function Parse(value: Option<string>): (r: ScannerAction)
    ensures r == Issues <==> !IsNullOrWhiteSpace(value) && NameMatches(value.value, Name(Issues))
    ensures !IsNullOrWhiteSpace(value) && NameMatches(value.value, Name(Scan)) ==> r == Scan
  {
    assert |Name(Scan)| != |Name(Issues)|;
    if IsNullOrWhiteSpace(value) then Scan
    else if NameMatches(value.value, Name(Scan)) then Scan
    else if NameMatches(value.value, Name(Issues)) then Issues
    else Scan
  }

  /**
   * Parsing a member's lower-cased name gives that member back: this is the
   * form in which the run mode is recorded in the scan metadata.
   */
  lemma {:induction false} ParseLowerName(a: ScannerAction)
    ensures Parse(Some(Lower(Name(a)))) == a
    ensures Parse(Some(Name(a))) == a
  {
    assert Name(a) != [] && !IsWhiteSpace(Name(a)[0]) && !IsWhiteSpace(Name(a)[|Name(a)| - 1]);
    NameMatchesItself(Name(a));
  }

  /** Any case of "scan" and "issues" is recognised. */
  lemma {:induction false} ParseAnyCase(value: string)
    ensures EqualsIgnoreCase(value, "issues") ==> Parse(Some(value)) == Issues
    ensures EqualsIgnoreCase(value, "scan") ==> Parse(Some(value)) == Scan
  {
    if EqualsIgnoreCase(value, "issues") {
      EqualsIgnoreCaseTrimmed(value, "issues");
      assert EqualsIgnoreCase(value, Name(Issues));
    }
    if EqualsIgnoreCase(value, "scan") {
      EqualsIgnoreCaseTrimmed(value, "scan");
      assert EqualsIgnoreCase(value, Name(Scan));
    }
  }
}
