/**
 * The few .NET base-library behaviours the scanner relies on, written out:
 * nullable references, string.IsNullOrWhiteSpace, Trim, ToLowerInvariant,
 * StringComparison.OrdinalIgnoreCase, StartsWith/EndsWith, bool.TryParse,
 * the name matching of Enum.TryParse(ignoreCase: true) and int.ToString for
 * non-negative numbers. Case mapping is ASCII only.
 */
module DotNet {

  /** A nullable reference: None stands for C#'s null. */
  datatype Option<+T> = None | Some(value: T) {
    /** The C# `??` operator. */
    function OrElse(other: Option<T>): Option<T> {
      if Some? then this else other
    }

    function GetOr(default: T): T {
      if Some? then value else default
    }
  }

  /** char.IsWhiteSpace for the characters a configuration value can realistically hold. */
  predicate IsWhiteSpace(c: char) {
    c == ' ' || c == '\t' || c == '\n' || c == '\r' || c == '\U{000B}' || c == '\U{000C}'
    || c == '\U{0085}' || c == '\U{00A0}'
  }

  /** string.IsNullOrWhiteSpace on a non-null string. */
  predicate IsBlank(s: string) {
    forall i :: 0 <= i < |s| ==> IsWhiteSpace(s[i])
  }

  /** string.IsNullOrWhiteSpace. */
  predicate IsNullOrWhiteSpace(s: Option<string>) {
    s.None? || IsBlank(s.value)
  }

  /** The first position at or after `from` that holds no white space (|s| if none). */
  function SkipWhiteSpace(s: string, from: nat): (j: nat)
    requires from <= |s|
    ensures from <= j <= |s|
    ensures forall i :: from <= i < j ==> IsWhiteSpace(s[i])
    ensures j < |s| ==> !IsWhiteSpace(s[j])
    decreases |s| - from
  {
    if from < |s| && IsWhiteSpace(s[from]) then SkipWhiteSpace(s, from + 1) else from
  }

  /** The end of `s[..until]` once its trailing white space is removed. */
  function TrimmedEnd(s: string, until: nat): (j: nat)
    requires until <= |s|
    ensures j <= until
    ensures forall i :: j <= i < until ==> IsWhiteSpace(s[i])
    ensures j > 0 ==> !IsWhiteSpace(s[j - 1])
    decreases until
  {
    if until > 0 && IsWhiteSpace(s[until - 1]) then TrimmedEnd(s, until - 1) else until
  }

  /** string.Trim: removes leading and trailing white space. */
  function Trim(s: string): (r: string)
    ensures |r| <= |s|
    ensures r == [] || (!IsWhiteSpace(r[0]) && !IsWhiteSpace(r[|r| - 1]))
    ensures r == [] <==> IsBlank(s)
  {
    var a := SkipWhiteSpace(s, 0);
    if a == |s| then []
    else
      var b := TrimmedEnd(s, |s|);
      assert a < b by {
        assert !IsWhiteSpace(s[a]);
      }
      assert !IsBlank(s) by {
        assert !IsWhiteSpace(s[a]);
      }
      s[a..b]
  }

  function LowerChar(c: char): char {
    if 'A' <= c <= 'Z' then (c as int + 32) as char else c
  }

  /** string.ToLowerInvariant (ASCII letters only). */
  function Lower(s: string): (r: string)
    ensures |r| == |s|
    ensures forall i :: 0 <= i < |s| ==> r[i] == LowerChar(s[i])
  {
    if s == [] then [] else [LowerChar(s[0])] + Lower(s[1..])
  }

  /** string.Equals(a, b, StringComparison.OrdinalIgnoreCase). */
  predicate EqualsIgnoreCase(a: string, b: string) {
    |a| == |b| && forall i :: 0 <= i < |a| ==> LowerChar(a[i]) == LowerChar(b[i])
  }

  predicate StartsWith(s: string, prefix: string) {
    prefix <= s
  }

  predicate EndsWith(s: string, c: char) {
    |s| > 0 && s[|s| - 1] == c
  }

  /** The name matching of Enum.TryParse(value, ignoreCase: true) for one member name. */
  predicate NameMatches(value: string, name: string) {
    EqualsIgnoreCase(Trim(value), name)
  }

  /** bool.TryParse: "true" or "false" in any case, surrounding white space ignored. */
  function TryParseBool(s: string): (r: Option<bool>)
    ensures r == Some(true) <==> NameMatches(s, "true")
    ensures r == Some(false) <==> NameMatches(s, "false")
  {
    if NameMatches(s, "true") then Some(true)
    else if NameMatches(s, "false") then Some(false)
    else None
  }

  function DigitChar(d: nat): char
    requires d < 10
  {
    "0123456789"[d]
  }

  /** int.ToString(CultureInfo.InvariantCulture) for a non-negative value. */
  function NatToString(n: nat): (r: string)
    ensures |r| > 0
    ensures forall i :: 0 <= i < |r| ==> '0' <= r[i] <= '9'
  {
    if n < 10 then [DigitChar(n)] else NatToString(n / 10) + [DigitChar(n % 10)]
  }

  function Min(a: int, b: int): (r: int)
    ensures r <= a && r <= b && (r == a || r == b)
  {
    if a <= b then a else b
  }

  function Max(a: int, b: int): (r: int)
    ensures r >= a && r >= b && (r == a || r == b)
  {
    if a >= b then a else b
  }

  // Facts about the helpers that several modules use.

  lemma LowerIdempotent(s: string)
    ensures Lower(Lower(s)) == Lower(s)
  {
  }

  lemma LowerConcat(a: string, b: string)
    ensures Lower(a + b) == Lower(a) + Lower(b)
  {
  }

  lemma LowerOfSlice(s: string, i: nat, j: nat)
    requires i <= j <= |s| && Lower(s) == s
    ensures Lower(s[i..j]) == s[i..j]
  {
    forall n | 0 <= n < j - i
      ensures Lower(s[i..j])[n] == s[i..j][n]
    {
      assert s[i..j][n] == s[i + n] == Lower(s)[i + n];
    }
  }

  lemma LowerKeepsWhiteSpace(c: char)
    ensures IsWhiteSpace(LowerChar(c)) <==> IsWhiteSpace(c)
  {
  }

  /** A string that neither starts nor ends with white space is its own Trim. */
  lemma TrimOfTrimmed(s: string)
    requires s == [] || (!IsWhiteSpace(s[0]) && !IsWhiteSpace(s[|s| - 1]))
    ensures Trim(s) == s
  {
  }

  /**
   * A name free of surrounding white space is not blank and matches itself,
   * as written and lower-cased.
   */
  lemma NameMatchesItself(n: string)
    requires n != [] && !IsWhiteSpace(n[0]) && !IsWhiteSpace(n[|n| - 1])
    ensures !IsBlank(n) && !IsBlank(Lower(n))
    ensures NameMatches(n, n) && NameMatches(Lower(n), n)
  {
    TrimmedMatchesItself(n);
    LowerKeepsEnds(n);
    TrimOfTrimmed(Lower(n));
    NotBlankHasNonWhiteSpace(Lower(n), 0);
    EqualsIgnoreCaseLower(n);
  }

  lemma TrimmedMatchesItself(n: string)
    requires n != [] && !IsWhiteSpace(n[0]) && !IsWhiteSpace(n[|n| - 1])
    ensures !IsBlank(n) && NameMatches(n, n)
  {
    TrimOfTrimmed(n);
    NotBlankHasNonWhiteSpace(n, 0);
  }

  lemma LowerKeepsEnds(n: string)
    requires n != []
    ensures IsWhiteSpace(Lower(n)[0]) <==> IsWhiteSpace(n[0])
    ensures IsWhiteSpace(Lower(n)[|n| - 1]) <==> IsWhiteSpace(n[|n| - 1])
  {
    LowerKeepsWhiteSpace(n[0]);
    LowerKeepsWhiteSpace(n[|n| - 1]);
  }

  lemma EqualsIgnoreCaseLower(n: string)
    ensures EqualsIgnoreCase(Lower(n), n)
  {
    var l := Lower(n);
    forall i | 0 <= i < |n|
      ensures LowerChar(l[i]) == LowerChar(n[i])
    {
      assert l[i] == LowerChar(n[i]);
    }
  }

  /** Equal ignoring case to a string free of surrounding white space means trimmed already. */
  lemma EqualsIgnoreCaseTrimmed(value: string, n: string)
    requires n != [] && !IsWhiteSpace(n[0]) && !IsWhiteSpace(n[|n| - 1])
    requires EqualsIgnoreCase(value, n)
    ensures Trim(value) == value && !IsBlank(value)
  {
    assert LowerChar(value[0]) == LowerChar(n[0]);
    assert LowerChar(value[|value| - 1]) == LowerChar(n[|n| - 1]);
    LowerKeepsWhiteSpace(value[0]);
    LowerKeepsWhiteSpace(n[0]);
    LowerKeepsWhiteSpace(value[|value| - 1]);
    LowerKeepsWhiteSpace(n[|n| - 1]);
    TrimOfTrimmed(value);
    NotBlankHasNonWhiteSpace(value, 0);
  }

  lemma {:induction false} NotBlankHasNonWhiteSpace(s: string, i: nat)
    requires i < |s| && !IsWhiteSpace(s[i])
    ensures !IsBlank(s)
  {
  }
}
