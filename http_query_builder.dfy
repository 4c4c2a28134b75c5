/**
 * HttpQueryBuilder.WithQuery: appends the non-null parameters of a request to
 * a path as an escaped query string. The parameter dictionary is given as the
 * sequence of its entries in enumeration order.
 */
module QueryBuilder {
  import opened DotNet

  /** One parameter as the builder renders it: escape(key) '=' escape(value). */
  function Pair(escape: string -> string, p: (string, string)): string {
    escape(p.0) + "=" + escape(p.1)
  }

  /** The parameters whose value is not null, in enumeration order. */
  function Included(parameters: seq<(string, Option<string>)>): (r: seq<(string, string)>)
    ensures |r| <= |parameters|
  {
    if parameters == [] then []
    else
      var last := parameters[|parameters| - 1];
      Included(parameters[..|parameters| - 1])
      + (if last.1.Some? then [(last.0, last.1.value)] else [])
  }

  /**
   * The text the builder appends after the path, pair by pair: the first pair
   * preceded by '?', every later one by '&'.
   */
  function Appended(escape: string -> string, pairs: seq<(string, string)>): string {
    if pairs == [] then []
    else
      var n := |pairs| - 1;
      Appended(escape, pairs[..n]) + [if n == 0 then '?' else '&'] + Pair(escape, pairs[n])
  }

  /** The rendered pairs joined with '&' (an independent definition of the query text). */
  function Joined(escape: string -> string, pairs: seq<(string, string)>): string
    requires pairs != []
  {
    if |pairs| == 1 then Pair(escape, pairs[0])
    else Pair(escape, pairs[0]) + "&" + Joined(escape, pairs[1..])
  }

  /**
   * WithQuery: `path` itself when no parameter has a value, otherwise `path`,
   * '?' and the included pairs joined by '&', in enumeration order.
   */
  method WithQuery(path: string, parameters: seq<(string, Option<string>)>, escape: string -> string)
    returns (r: string)
    ensures Included(parameters) == [] ==> r == path
    ensures Included(parameters) != [] ==> r == path + "?" + Joined(escape, Included(parameters))
  {
    var builder := path;
    var idx := 0;
    for n := 0 to |parameters|
      invariant idx == |Included(parameters[..n])|
      invariant builder == path + Appended(escape, Included(parameters[..n]))
    {
      var (key, value) := parameters[n];
      ghost var before := Included(parameters[..n]);
      IncludedStep(parameters, n);
      if value.None? {
        continue;
      }
      ghost var pair := (key, value.value);
      AppendedSnoc(escape, before, pair);
      builder := builder + [if idx == 0 then '?' else '&'] + escape(key) + "=" + escape(value.value);
      AppendRegroup(path, Appended(escape, before), [if idx == 0 then '?' else '&'], escape(key), escape(value.value));
      idx := idx + 1;
    }
    assert parameters[..|parameters|] == parameters;
    if idx == 0 {
      r := path;
    } else {
      AppendedIsJoined(escape, Included(parameters));
      r := builder;
    }
  }

  lemma IncludedStep(parameters: seq<(string, Option<string>)>, n: nat)
    requires n < |parameters|
    ensures parameters[n].1.None? ==> Included(parameters[..n + 1]) == Included(parameters[..n])
    ensures parameters[n].1.Some? ==>
      Included(parameters[..n + 1]) == Included(parameters[..n]) + [(parameters[n].0, parameters[n].1.value)]
  {
    assert parameters[..n + 1][..n] == parameters[..n];
  }

  lemma AppendRegroup(path: string, query: string, sep: string, key: string, value: string)
    ensures path + query + sep + key + "=" + value == path + (query + sep + key + "=" + value)
  {
  }

  /** Appending one more pair to the query text. */
  lemma AppendedSnoc(escape: string -> string, pairs: seq<(string, string)>, p: (string, string))
    ensures Appended(escape, pairs + [p])
      == Appended(escape, pairs) + [if pairs == [] then '?' else '&'] + escape(p.0) + "=" + escape(p.1)
  {
    assert (pairs + [p])[..|pairs|] == pairs;
  }

  /** Building pair by pair and joining with '&' give the same query text. */
  lemma {:induction false} AppendedIsJoined(escape: string -> string, pairs: seq<(string, string)>)
    requires pairs != []
    ensures Appended(escape, pairs) == "?" + Joined(escape, pairs)
    decreases |pairs|
  {
    var n := |pairs| - 1;
    if n == 0 {
      assert pairs[..0] == [];
    } else {
      var front := pairs[..n];
      assert front + [pairs[n]] == pairs;
      AppendedIsJoined(escape, front);
      JoinedSnoc(escape, front, pairs[n]);
      calc {
        Appended(escape, pairs);
        Appended(escape, front) + "&" + Pair(escape, pairs[n]);
        "?" + Joined(escape, front) + "&" + Pair(escape, pairs[n]);
        "?" + (Joined(escape, front) + "&" + Pair(escape, pairs[n]));
        "?" + Joined(escape, pairs);
      }
    }
  }

  lemma {:induction false} JoinedSnoc(escape: string -> string, pairs: seq<(string, string)>, p: (string, string))
    requires pairs != []
    ensures Joined(escape, pairs + [p]) == Joined(escape, pairs) + "&" + Pair(escape, p)
    decreases |pairs|
  {
    if |pairs| == 1 {
      assert (pairs + [p])[1..] == [p];
    } else {
      assert (pairs + [p])[1..] == pairs[1..] + [p];
      JoinedSnoc(escape, pairs[1..], p);
    }
  }

  // What Included keeps and drops.

  lemma {:induction false} IncludedConcat(a: seq<(string, Option<string>)>, b: seq<(string, Option<string>)>)
    ensures Included(a + b) == Included(a) + Included(b)
    decreases |b|
  {
    if b == [] {
      assert a + b == a;
    } else {
      var n := |b| - 1;
      assert (a + b)[..|a + b| - 1] == a + b[..n];
      IncludedConcat(a, b[..n]);
    }
  }

  /** A null-valued parameter contributes nothing; any other contributes exactly its own pair. */
  lemma IncludedSingle(key: string, value: Option<string>)
    ensures value.None? ==> Included([(key, value)]) == []
    ensures value.Some? ==> Included([(key, value)]) == [(key, value.value)]
  {
    assert [(key, value)][..0] == [];
  }

  /** Exactly the parameters with a value are rendered. */
  lemma {:induction false} IncludedMembers(parameters: seq<(string, Option<string>)>, key: string, value: string)
    ensures (key, value) in Included(parameters) <==> (key, Some(value)) in parameters
    decreases |parameters|
  {
    if parameters != [] {
      var n := |parameters| - 1;
      IncludedMembers(parameters[..n], key, value);
      assert parameters == parameters[..n] + [parameters[n]];
    }
  }

  /** No included parameter means every value is null, and then the path is returned as it is. */
  lemma {:induction false} IncludedEmpty(parameters: seq<(string, Option<string>)>)
    ensures Included(parameters) == [] <==> forall i :: 0 <= i < |parameters| ==> parameters[i].1.None?
    decreases |parameters|
  {
    if parameters != [] {
      var n := |parameters| - 1;
      IncludedEmpty(parameters[..n]);
      assert forall i :: 0 <= i < n ==> parameters[..n][i] == parameters[i];
    }
  }

  // Counting the separators.

  function Occurrences(s: string, c: char): nat {
    if s == [] then 0 else (if s[0] == c then 1 else 0) + Occurrences(s[1..], c)
  }

  lemma {:induction false} OccurrencesConcat(a: string, b: string, c: char)
    ensures Occurrences(a + b, c) == Occurrences(a, c) + Occurrences(b, c)
    decreases |a|
  {
    if a == [] {
      assert a + b == b;
    } else {
      assert (a + b)[1..] == a[1..] + b;
      OccurrencesConcat(a[1..], b, c);
    }
  }

  /** Uri.EscapeDataString percent-encodes the query's own delimiters. */
  ghost predicate EscapesDelimiters(escape: string -> string) {
    forall s :: '?' !in escape(s) && '&' !in escape(s) && '=' !in escape(s)
  }

  lemma {:induction false} OccurrencesAbsent(s: string, c: char)
    requires c !in s
    ensures Occurrences(s, c) == 0
    decreases |s|
  {
    if s != [] {
      assert s[1..][..] == s[1..];
      assert c !in s[1..] by {
        forall i | 0 <= i < |s[1..]| ensures s[1..][i] != c {
          assert s[1..][i] == s[i + 1];
        }
      }
      OccurrencesAbsent(s[1..], c);
    }
  }

  lemma PairCounts(escape: string -> string, p: (string, string))
    requires EscapesDelimiters(escape)
    ensures Occurrences(Pair(escape, p), '?') == 0
    ensures Occurrences(Pair(escape, p), '&') == 0
    ensures Occurrences(Pair(escape, p), '=') == 1
  {
    var k, v := escape(p.0), escape(p.1);
    assert Pair(escape, p) == k + ("=" + v);
    OccurrencesConcat(k, "=" + v, '?');
    OccurrencesConcat(k, "=" + v, '&');
    OccurrencesConcat(k, "=" + v, '=');
    OccurrencesConcat("=", v, '?');
    OccurrencesConcat("=", v, '&');
    OccurrencesConcat("=", v, '=');
    OccurrencesAbsent(k, '?');
    OccurrencesAbsent(k, '&');
    OccurrencesAbsent(k, '=');
    OccurrencesAbsent(v, '?');
    OccurrencesAbsent(v, '&');
    OccurrencesAbsent(v, '=');
  }

  /** The joined pairs hold no '?', one '&' between neighbours and one '=' per pair. */
  lemma {:induction false} JoinedCounts(escape: string -> string, pairs: seq<(string, string)>)
    requires EscapesDelimiters(escape) && pairs != []
    ensures Occurrences(Joined(escape, pairs), '?') == 0
    ensures Occurrences(Joined(escape, pairs), '&') == |pairs| - 1
    ensures Occurrences(Joined(escape, pairs), '=') == |pairs|
    decreases |pairs|
  {
    PairCounts(escape, pairs[0]);
    if |pairs| > 1 {
      var head, tail := Pair(escape, pairs[0]), Joined(escape, pairs[1..]);
      JoinedCounts(escape, pairs[1..]);
      assert Joined(escape, pairs) == head + ("&" + tail);
      OccurrencesConcat(head, "&" + tail, '?');
      OccurrencesConcat(head, "&" + tail, '&');
      OccurrencesConcat(head, "&" + tail, '=');
      OccurrencesConcat("&", tail, '?');
      OccurrencesConcat("&", tail, '&');
      OccurrencesConcat("&", tail, '=');
    }
  }

  /**
   * The query the builder appends holds exactly one '?', one '&' fewer than
   * included parameters, and one '=' per included parameter.
   */
  lemma QuerySeparators(escape: string -> string, pairs: seq<(string, string)>)
    requires EscapesDelimiters(escape) && pairs != []
    ensures Occurrences("?" + Joined(escape, pairs), '?') == 1
    ensures Occurrences("?" + Joined(escape, pairs), '&') == |pairs| - 1
    ensures Occurrences("?" + Joined(escape, pairs), '=') == |pairs|
  {
    JoinedCounts(escape, pairs);
    OccurrencesConcat("?", Joined(escape, pairs), '?');
    OccurrencesConcat("?", Joined(escape, pairs), '&');
    OccurrencesConcat("?", Joined(escape, pairs), '=');
  }
}
