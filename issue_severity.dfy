/** The issue severity enumeration, its order and its parser (Models/IssueSeverity.cs). */
module Severities {
  import opened DotNet

  datatype IssueSeverity = BestPractice | Information | Low | Medium | High | Critical

  /** The numeric value the enumeration declares for each member. */
  function Ordinal(s: IssueSeverity): (n: nat)
    ensures n <= 5
  {
    match s
    case BestPractice => 0
    case Information => 1
    case Low => 2
    case Medium => 3
    case High => 4
    case Critical => 5
  }

  /** Enum.ToString(): the member's declared name. */
  function Name(s: IssueSeverity): string {
    match s
    case BestPractice => "BestPractice"
    case Information => "Information"
    case Low => "Low"
    case Medium => "Medium"
    case High => "High"
    case Critical => "Critical"
  }

  /** `severity >= minimum` on the underlying values. */
  predicate IsAtLeast(severity: IssueSeverity, minimum: IssueSeverity) {
    Ordinal(severity) >= Ordinal(minimum)
  }

  /**
   * IssueSeverityExtensions.Parse: null or blank gives Medium; otherwise the
   * member whose name matches case-insensitively, and Medium when none does.
   */
  function Parse(value: Option<string>): (r: IssueSeverity)
    ensures IsNullOrWhiteSpace(value) ==> r == Medium
    ensures forall s :: !IsNullOrWhiteSpace(value) && NameMatches(value.value, Name(s)) ==> r == s
    ensures r != Medium ==> NameMatches(value.value, Name(r))
  {
    NameMatchUnique(value);
    if IsNullOrWhiteSpace(value) then Medium
    else if NameMatches(value.value, Name(BestPractice)) then BestPractice
    else if NameMatches(value.value, Name(Information)) then Information
    else if NameMatches(value.value, Name(Low)) then Low
    else if NameMatches(value.value, Name(Medium)) then Medium
    else if NameMatches(value.value, Name(High)) then High
    else if NameMatches(value.value, Name(Critical)) then Critical
    else Medium
  }

  /** At most one member name matches a given string: the names differ even in length. */
  lemma NameMatchUnique(value: Option<string>)
    ensures forall a, b :: value.Some? && NameMatches(value.value, Name(a)) && NameMatches(value.value, Name(b)) ==> a == b
  {
    forall a, b | value.Some? && NameMatches(value.value, Name(a)) && NameMatches(value.value, Name(b))
      ensures a == b
    {
      assert |Lower(Name(a))| == |Lower(Name(b))|;
    }
  }

  /** Ordinals are the declared 0..5, one per member. */
  lemma OrdinalInjective(a: IssueSeverity, b: IssueSeverity)
    ensures Ordinal(a) == Ordinal(b) ==> a == b
  {
  }

  /** IsAtLeast is a total order: reflexive, antisymmetric, transitive, total. */
  lemma IsAtLeastTotalOrder(a: IssueSeverity, b: IssueSeverity, c: IssueSeverity)
    ensures IsAtLeast(a, a)
    ensures IsAtLeast(a, b) && IsAtLeast(b, a) ==> a == b
    ensures IsAtLeast(a, b) && IsAtLeast(b, c) ==> IsAtLeast(a, c)
    ensures IsAtLeast(a, b) || IsAtLeast(b, a)
  {
    OrdinalInjective(a, b);
  }

  /** Raising the threshold never admits more: m1 <= m2 and x >= m2 give x >= m1. */
  lemma ThresholdMonotonic(x: IssueSeverity, m1: IssueSeverity, m2: IssueSeverity)
    requires IsAtLeast(m2, m1)
    ensures IsAtLeast(x, m2) ==> IsAtLeast(x, m1)
  {
  }

  /** Every member name starts and ends with a letter and has no white space. */
  lemma NameIsTrimmed(s: IssueSeverity)
    ensures |Name(s)| > 0 && !IsWhiteSpace(Name(s)[0]) && !IsWhiteSpace(Name(s)[|Name(s)| - 1])
  {
  }

  /** Parsing a member's name, as written or lower-cased, gives that member back. */
  lemma {:induction false} ParseName(s: IssueSeverity)
    ensures Parse(Some(Name(s))) == s
    ensures Parse(Some(Lower(Name(s)))) == s
  {
    NameIsTrimmed(s);
    NameMatchesItself(Name(s));
  }
}
