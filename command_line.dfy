/**
 * The command-line parser (Services/CommandLineArguments.cs): `--key value`,
 * `--key=value` and bare `--flag` tokens collected into a dictionary whose keys
 * are trimmed and lower-cased.
 */
module CommandLine {
  import opened DotNet

  /** Trim followed by ToLowerInvariant, as the parser normalises keys. */
  function Normalize(value: string): string {
    Lower(Trim(value))
  }

  /** The parsed arguments: a dictionary from normalised key to value. */
  datatype CommandLineArguments = CommandLineArguments(entries: map<string, string>) {
    /** The indexer: null for a blank key and for a key never given. */
    function Get(key: string): Option<string> {
      if IsBlank(key) then None
      else if Normalize(key) in entries then Some(entries[Normalize(key)])
      else None
    }
  }

  // ---------------------------------------------------------------------------
  // string.Split('=', 2, StringSplitOptions.RemoveEmptyEntries)
  // ---------------------------------------------------------------------------

  /** A run of n separators. */
  function Separators(n: nat): (r: string)
    ensures |r| == n && forall i :: 0 <= i < n ==> r[i] == '='
  {
    seq(n, _ => '=')
  }

  /** The first position at or after `from` that holds no separator (|s| if none). */
  function SkipSeparators(s: string, from: nat): (j: nat)
    requires from <= |s|
    ensures from <= j <= |s|
    ensures forall i :: from <= i < j ==> s[i] == '='
    ensures j < |s| ==> s[j] != '='
    decreases |s| - from
  {
    if from < |s| && s[from] == '=' then SkipSeparators(s, from + 1) else from
  }

  /** The first separator at or after `from` (|s| if none). */
  function NextSeparator(s: string, from: nat): (j: nat)
    requires from <= |s|
    ensures from <= j <= |s|
    ensures forall i :: from <= i < j ==> s[i] != '='
    ensures j < |s| ==> s[j] == '='
    decreases |s| - from
  {
    if from < |s| && s[from] != '=' then NextSeparator(s, from + 1) else from
  }

  /**
   * Split with a count of 2 and empty entries removed, reduced to the two-part
   * case the parser accepts. Empty entries in front of the first part are
   * skipped, the first part ends at the next separator, the separators after it
   * are skipped and the second part is the whole remainder. None when fewer than
   * two non-empty parts exist.
   */
  function SplitTwo(s: string): (r: Option<(string, string)>)
    ensures r.Some? ==> r.value.0 != [] && '=' !in r.value.0
    ensures r.Some? ==> r.value.1 != [] && r.value.1[0] != '='
  {
    var start := SkipSeparators(s, 0);
    var end := NextSeparator(s, start);
    if end == |s| then None
    else
      var rest := SkipSeparators(s, end + 1);
      if rest == |s| then None
      else
        assert forall i :: 0 <= i < end - start ==> s[start..end][i] == s[start + i];
        Some((s[start..end], s[rest..]))
  }

  lemma {:induction false} SkipSeparatorsTo(s: string, from: nat, target: nat)
    requires from <= target <= |s|
    requires forall i :: from <= i < target ==> s[i] == '='
    requires target == |s| || s[target] != '='
    ensures SkipSeparators(s, from) == target
    decreases |s| - from
  {
    if from < target {
      SkipSeparatorsTo(s, from + 1, target);
    }
  }

  lemma {:induction false} NextSeparatorAt(s: string, from: nat, target: nat)
    requires from <= target <= |s|
    requires forall i :: from <= i < target ==> s[i] != '='
    requires target == |s| || s[target] == '='
    ensures NextSeparator(s, from) == target
    decreases |s| - from
  {
    if from < target {
      NextSeparatorAt(s, from + 1, target);
    }
  }

  /**
   * Every string of the shape `=…= key =…= value` (a >= 0 leading separators,
   * b >= 1 separators between a key without '=' and a value not starting with
   * '=') splits into exactly that key and value.
   */
  lemma SplitTwoOfShape(a: nat, k: string, b: nat, v: string)
    requires k != [] && '=' !in k && b >= 1 && v != [] && v[0] != '='
    ensures SplitTwo(Separators(a) + k + Separators(b) + v) == Some((k, v))
  {
    var s := Separators(a) + k + Separators(b) + v;
    var e := a + |k|;
    var r := e + b;
    assert forall i :: 0 <= i < a ==> s[i] == '=';
    assert forall i :: a <= i < e ==> s[i] == k[i - a];
    assert forall i :: e <= i < r ==> s[i] == '=';
    assert s[r] == v[0];
    SkipSeparatorsTo(s, 0, a);
    NextSeparatorAt(s, a, e);
    SkipSeparatorsTo(s, e + 1, r);
    assert s[a..e] == k;
    assert s[r..] == v;
  }

  /** Conversely, whatever splits has that shape. */
  lemma SplitTwoHasShape(s: string)
    ensures SplitTwo(s).Some? ==>
      (exists a: nat, b: nat :: b >= 1 && s == Separators(a) + SplitTwo(s).value.0 + Separators(b) + SplitTwo(s).value.1)
  {
    if SplitTwo(s).Some? {
      var start := SkipSeparators(s, 0);
      var end := NextSeparator(s, start);
      var rest := SkipSeparators(s, end + 1);
      assert s[..start] == Separators(start);
      assert s[end..rest] == Separators(rest - end);
      assert s == s[..start] + s[start..end] + s[end..rest] + s[rest..];
    }
  }

  // ---------------------------------------------------------------------------
  // The assignments the token list makes, and the dictionary they build
  // ---------------------------------------------------------------------------

  /**
   * What the parse loop does with the token at the front of `args`: the
   * assignments it makes (none or one) and how many tokens it consumes. A token
   * not starting with "--" is skipped; `--k=v` assigns the split parts when
   * there are two; `--k v` assigns the next token and consumes it when that one
   * does not start with "--"; any other `--k` assigns "true".
   */
  function Step(args: seq<string>): (r: (seq<(string, string)>, nat))
    requires |args| > 0
    ensures 1 <= r.1 <= |args| && |r.0| <= 1
  {
    if !StartsWith(args[0], "--") then ([], 1)
    else
      var key := Normalize(args[0][2..]);
      if '=' in key then
        (if SplitTwo(key).Some? then [SplitTwo(key).value] else [], 1)
      else if |args| > 1 && !StartsWith(args[1], "--") then
        ([(key, args[1])], 2)
      else
        ([(key, "true")], 1)
  }

  /** The (key, value) assignments the parse loop performs, in order. */
  function Assignments(args: seq<string>): seq<(string, string)>
    decreases |args|
  {
    if |args| == 0 then [] else Step(args).0 + Assignments(args[Step(args).1..])
  }

  /** The dictionary after performing the assignments in order (`dictionary[k] = v`). */
  function Apply(m: map<string, string>, pairs: seq<(string, string)>): map<string, string>
    decreases |pairs|
  {
    if pairs == [] then m else Apply(m[pairs[0].0 := pairs[0].1], pairs[1..])
  }

  /** The value of the last assignment to k, if any. */
  function LastValue(pairs: seq<(string, string)>, k: string): Option<string>
    decreases |pairs|
  {
    if pairs == [] then None
    else LastValue(pairs[1..], k).OrElse(if pairs[0].0 == k then Some(pairs[0].1) else None)
  }

  /** The arguments Parse builds. */
  function Parsed(args: seq<string>): CommandLineArguments {
    CommandLineArguments(Apply(map[], Assignments(args)))
  }

  /** CommandLineArguments.Parse: one pass over the tokens with an index. */
  method Parse(args: seq<string>) returns (r: CommandLineArguments)
    ensures r == Parsed(args)
  {
    var dictionary: map<string, string> := map[];
    var i := 0;
    while i < |args|
      invariant 0 <= i <= |args|
      invariant Apply(dictionary, Assignments(args[i..])) == Apply(map[], Assignments(args))
      decreases |args| - i
    {
      i, dictionary := ParseOption(args, i, dictionary);
    }
    assert args[i..] == [];
    r := CommandLineArguments(dictionary);
  }

  /**
   * One turn of Parse's loop: the token at position i, with the value that
   * may follow it, is stored in the dictionary, and the position moves past
   * what was read.
   */
  method ParseOption(args: seq<string>, i: nat, dictionary: map<string, string>)
    returns (next: nat, updated: map<string, string>)
    requires i < |args|
    ensures i < next <= |args|
    ensures Apply(updated, Assignments(args[next..])) == Apply(dictionary, Assignments(args[i..]))
  {
    ghost var pairs: seq<(string, string)> := [];
    updated, next := dictionary, i + 1;
    var current := args[i];
    if !StartsWith(current, "--") {
      StepOfPlain(args[i..]);
      ApplyStep(dictionary, args, i);
      ParseTurn(dictionary, updated, pairs, args[i..], args[next..]);
      return;
    }
    var key := Normalize(current[2..]);
    if '=' in key {
      StepOfAssignment(args[i..]);
      var parts := SplitTwo(key);
      if parts.Some? {
        pairs := [parts.value];
        ApplyOne(dictionary, parts.value);
        updated := dictionary[parts.value.0 := parts.value.1];
      }
    } else if i + 1 < |args| && !StartsWith(args[i + 1], "--") {
      StepOfValue(args[i..]);
      pairs := [(key, args[i + 1])];
      ApplyOne(dictionary, (key, args[i + 1]));
      updated, next := dictionary[key := args[i + 1]], i + 2;
    } else {
      StepOfFlag(args[i..]);
      pairs := [(key, "true")];
      ApplyOne(dictionary, (key, "true"));
      updated := dictionary[key := "true"];
    }
    ApplyStep(dictionary, args, i);
    ParseTurn(dictionary, updated, pairs, args[i..], args[next..]);
  }

  // The four shapes of a step, one lemma each.

  lemma StepOfPlain(args: seq<string>)
    requires |args| > 0 && !StartsWith(args[0], "--")
    ensures Step(args) == ([], 1)
  {
  }

  lemma StepOfAssignment(args: seq<string>)
    requires |args| > 0 && StartsWith(args[0], "--") && '=' in Normalize(args[0][2..])
    ensures var parts := SplitTwo(Normalize(args[0][2..]));
      Step(args) == (if parts.Some? then [parts.value] else [], 1)
  {
  }

  lemma StepOfValue(args: seq<string>)
    requires |args| > 1 && StartsWith(args[0], "--") && '=' !in Normalize(args[0][2..])
    requires !StartsWith(args[1], "--")
    ensures Step(args) == ([(Normalize(args[0][2..]), args[1])], 2)
  {
  }

  lemma StepOfFlag(args: seq<string>)
    requires |args| > 0 && StartsWith(args[0], "--") && '=' !in Normalize(args[0][2..])
    requires |args| == 1 || StartsWith(args[1], "--")
    ensures Step(args) == ([(Normalize(args[0][2..]), "true")], 1)
  {
  }

  /** One turn of the loop: the step at position i, then the assignments after it. */
  lemma ApplyStep(d: map<string, string>, args: seq<string>, i: nat)
    requires i < |args|
    ensures Apply(d, Assignments(args[i..]))
      == Apply(Apply(d, Step(args[i..]).0), Assignments(args[i + Step(args[i..]).1..]))
  {
    var tail := args[i..];
    var w := Step(tail).1;
    assert tail[w..] == args[i + w..];
    ApplyConcat(d, Step(tail).0, Assignments(tail[w..]));
  }

  /** Performing the step's assignments and then the rest's is performing them all. */
  lemma ParseTurn(d: map<string, string>, d': map<string, string>, pairs: seq<(string, string)>,
                  now: seq<string>, next: seq<string>)
    requires d' == Apply(d, pairs)
    requires Apply(d, Assignments(now)) == Apply(Apply(d, pairs), Assignments(next))
    ensures Apply(d', Assignments(next)) == Apply(d, Assignments(now))
  {
  }

  /** A single assignment stores its value under its key. */
  lemma ApplyOne(m: map<string, string>, pair: (string, string))
    ensures Apply(m, [pair]) == m[pair.0 := pair.1]
  {
  }

  lemma {:induction false} ApplyConcat(m: map<string, string>, p: seq<(string, string)>, q: seq<(string, string)>)
    ensures Apply(m, p + q) == Apply(Apply(m, p), q)
    decreases |p|
  {
    if p == [] {
      assert p + q == q;
    } else {
      assert (p + q)[0] == p[0] && (p + q)[1..] == p[1..] + q;
      ApplyConcat(m[p[0].0 := p[0].1], p[1..], q);
    }
  }

  // ---------------------------------------------------------------------------
  // What a lookup returns
  // ---------------------------------------------------------------------------

  lemma {:induction false} ApplyLookup(m: map<string, string>, pairs: seq<(string, string)>, k: string)
    ensures k in Apply(m, pairs) <==> LastValue(pairs, k).Some? || k in m
    ensures LastValue(pairs, k).Some? ==> Apply(m, pairs)[k] == LastValue(pairs, k).value
    ensures LastValue(pairs, k).None? && k in m ==> Apply(m, pairs)[k] == m[k]
    decreases |pairs|
  {
    if pairs != [] {
      ApplyLookup(m[pairs[0].0 := pairs[0].1], pairs[1..], k);
    }
  }

  /**
   * The indexer returns null for a blank key; otherwise the value of the last
   * assignment to the normalised key, and null when there is none.
   */
  lemma ParseLookup(args: seq<string>, key: string)
    ensures IsBlank(key) ==> Parsed(args).Get(key) == None
    ensures !IsBlank(key) ==> Parsed(args).Get(key) == LastValue(Assignments(args), Normalize(key))
  {
    ApplyLookup(map[], Assignments(args), Normalize(key));
  }

  lemma {:induction false} LastValueAppend(p: seq<(string, string)>, q: seq<(string, string)>, k: string)
    ensures LastValue(p + q, k) == LastValue(q, k).OrElse(LastValue(p, k))
    decreases |p|
  {
    if p == [] {
      assert p + q == q;
    } else {
      assert (p + q)[1..] == p[1..] + q;
      LastValueAppend(p[1..], q, k);
    }
  }

  /** The front token is handled alike whatever follows, as long as it is an option or nothing. */
  lemma StepOfPrefix(pre: seq<string>, rest: seq<string>)
    requires |pre| > 0 && (rest == [] || StartsWith(rest[0], "--"))
    ensures Step(pre + rest) == Step(pre)
  {
    var all := pre + rest;
    assert all[0] == pre[0];
    if |pre| > 1 {
      assert all[1] == pre[1];
    } else if rest != [] {
      assert all[1] == rest[0];
    }
  }

  /**
   * A token starting with "--" is never consumed as a value, so the tokens in
   * front of it and the tokens from it on are parsed independently.
   */
  lemma {:induction false} AssignmentsSplitAtOption(pre: seq<string>, rest: seq<string>)
    requires rest == [] || StartsWith(rest[0], "--")
    ensures Assignments(pre + rest) == Assignments(pre) + Assignments(rest)
    decreases |pre|
  {
    if pre == [] {
      assert pre + rest == rest;
    } else {
      StepOfPrefix(pre, rest);
      var w := Step(pre).1;
      SliceOfConcat(pre, rest, w);
      AssignmentsSplitAtOption(pre[w..], rest);
    }
  }

  /** Dropping a prefix of the left operand of a concatenation. */
  lemma SliceOfConcat(a: seq<string>, b: seq<string>, w: nat)
    requires w <= |a|
    ensures (a + b)[w..] == a[w..] + b
  {
  }

  /** A segment the loop handles in one step contributes that step's assignments. */
  lemma AssignmentsOfSegment(segment: seq<string>, post: seq<string>)
    requires |segment| > 0 && Step(segment + post).1 == |segment|
    ensures Assignments(segment + post) == Step(segment + post).0 + Assignments(post)
  {
    assert (segment + post)[|segment|..] == post;
  }

  /** Lookup of a key whose last assignment comes from the option token at the front of `rest`. */
  lemma LookupFromSegment(pre: seq<string>, rest: seq<string>, key: string)
    requires rest != [] && StartsWith(rest[0], "--") && !IsBlank(key)
    requires LastValue(Assignments(rest), Normalize(key)).Some?
    ensures Parsed(pre + rest).Get(key) == LastValue(Assignments(rest), Normalize(key))
  {
    AssignmentsSplitAtOption(pre, rest);
    LastValueAppend(Assignments(pre), Assignments(rest), Normalize(key));
    ParseLookup(pre + rest, key);
  }

  /** Lookup of the key assigned by the one-step segment at the front of `rest`. */
  lemma LookupOfStep(pre: seq<string>, segment: seq<string>, post: seq<string>, key: string, value: string)
    requires |segment| > 0 && StartsWith(segment[0], "--") && !IsBlank(key)
    requires Step(segment + post) == ([(Normalize(key), value)], |segment|)
    requires LastValue(Assignments(post), Normalize(key)).None?
    ensures Parsed(pre + segment + post).Get(key) == Some(value)
  {
    var rest := segment + post;
    assert rest[0] == segment[0];
    AssignmentsOfSegment(segment, post);
    LastValueAppend([(Normalize(key), value)], Assignments(post), Normalize(key));
    assert pre + segment + post == pre + rest;
    LookupFromSegment(pre, rest, key);
  }

  /** A later occurrence of a key overrides every earlier one. */
  lemma LaterOccurrenceWins(pre: seq<string>, rest: seq<string>, key: string)
    requires rest != [] && StartsWith(rest[0], "--") && !IsBlank(key)
    requires Parsed(rest).Get(key).Some?
    ensures Parsed(pre + rest).Get(key) == Parsed(rest).Get(key)
  {
    ParseLookup(rest, key);
    LookupFromSegment(pre, rest, key);
  }

  /**
   * `--k v`: the next token is taken verbatim as the value when it does not
   * start with "--", wherever the pair stands, unless the key is given again later.
   */
  lemma KeyValueForm(pre: seq<string>, k: string, v: string, post: seq<string>)
    requires !IsBlank(k) && '=' !in Normalize(k) && !StartsWith(v, "--")
    requires LastValue(Assignments(post), Normalize(k)).None?
    ensures Parsed(pre + ["--" + k, v] + post).Get(k) == Some(v)
  {
    var segment := ["--" + k, v];
    var all := segment + post;
    assert all[0] == "--" + k && all[0][2..] == k && all[1] == v;
    LookupOfStep(pre, segment, post, k, v);
  }

  /** A bare `--k` at the end, or followed by another option, is "true". */
  lemma BareFlagIsTrue(pre: seq<string>, k: string, post: seq<string>)
    requires !IsBlank(k) && '=' !in Normalize(k)
    requires post == [] || StartsWith(post[0], "--")
    requires LastValue(Assignments(post), Normalize(k)).None?
    ensures Parsed(pre + ["--" + k] + post).Get(k) == Some("true")
  {
    var segment := ["--" + k];
    var all := segment + post;
    assert all[0] == "--" + k && all[0][2..] == k;
    assert |all| > 1 ==> all[1] == post[0];
    LookupOfStep(pre, segment, post, k, "true");
  }

  /** Lower-casing neither creates nor removes a separator. */
  lemma LowerKeepsSeparators(s: string)
    ensures '=' in Lower(s) <==> '=' in s
  {
    if '=' in s {
      var i :| 0 <= i < |s| && s[i] == '=';
      assert Lower(s)[i] == '=';
    }
    if '=' in Lower(s) {
      var i :| 0 <= i < |s| && Lower(s)[i] == '=';
      assert s[i] == '=';
    }
  }

  /** A key and value free of surrounding white space survive normalisation of `k=v` lower-cased. */
  lemma NormalizeAssignment(k: string, v: string)
    requires k != [] && !IsWhiteSpace(k[0]) && !IsWhiteSpace(k[|k| - 1])
    requires v != [] && !IsWhiteSpace(v[|v| - 1])
    ensures Normalize(k + "=" + v) == Lower(k) + "=" + Lower(v)
    ensures Normalize(k) == Lower(k)
  {
    var body := k + "=" + v;
    assert body[0] == k[0] && body[|body| - 1] == v[|v| - 1];
    TrimOfTrimmed(body);
    TrimOfTrimmed(k);
    LowerOfAssignment(k, v);
  }

  /** Lower-casing `k=v` lower-cases both sides and keeps the separator. */
  lemma LowerOfAssignment(k: string, v: string)
    ensures Lower(k + "=" + v) == Lower(k) + "=" + Lower(v)
  {
    LowerConcat(k + "=", v);
    LowerConcat(k, "=");
    assert Lower("=") == "=";
  }

  /**
   * `--k=v` with a key free of separators and of surrounding white space and a
   * non-empty value not starting with '=' stores the value lower-cased under
   * the key, since the whole token is normalised before it is split.
   */
  lemma EqualsForm(pre: seq<string>, k: string, v: string, post: seq<string>)
    requires k != [] && '=' !in k && !IsWhiteSpace(k[0]) && !IsWhiteSpace(k[|k| - 1])
    requires v != [] && v[0] != '=' && !IsWhiteSpace(v[|v| - 1])
    requires LastValue(Assignments(post), Lower(k)).None?
    ensures Parsed(pre + ["--" + k + "=" + v] + post).Get(k) == Some(Lower(v))
  {
    EqualsTokenStep(k, v, post);
    NormalizeAssignment(k, v);
    NotBlankHasNonWhiteSpace(k, 0);
    LookupOfStep(pre, ["--" + k + "=" + v], post, k, Lower(v));
  }

  /** The step the loop takes on such a `--k=v` token. */
  lemma EqualsTokenStep(k: string, v: string, post: seq<string>)
    requires k != [] && '=' !in k && !IsWhiteSpace(k[0]) && !IsWhiteSpace(k[|k| - 1])
    requires v != [] && v[0] != '=' && !IsWhiteSpace(v[|v| - 1])
    ensures Step(["--" + k + "=" + v] + post) == ([(Lower(k), Lower(v))], 1)
  {
    var token := "--" + k + "=" + v;
    var args := [token] + post;
    assert args[0] == token && token[2..] == k + "=" + v && StartsWith(token, "--");
    NormalizeAssignment(k, v);
    SplitOfAssignment(k, v);
    StepOfEqualsToken(args, Lower(k) + "=" + Lower(v));
  }

  lemma StepOfEqualsToken(args: seq<string>, key: string)
    requires |args| > 0 && StartsWith(args[0], "--") && Normalize(args[0][2..]) == key && '=' in key
    ensures Step(args) == (if SplitTwo(key).Some? then [SplitTwo(key).value] else [], 1)
  {
  }

  /** A `k=v` with a key free of '=' and a value not starting with one splits into that key and value. */
  lemma SplitTwoOfAssignment(k: string, v: string)
    requires k != [] && '=' !in k && v != [] && v[0] != '='
    ensures SplitTwo(k + "=" + v) == Some((k, v))
  {
    assert Separators(0) + k + Separators(1) + v == k + "=" + v by {
      assert Separators(0) == [] && Separators(1) == "=";
    }
    SplitTwoOfShape(0, k, 1, v);
  }

  /** The lower-cased `k=v` splits back into the lower-cased key and value. */
  lemma SplitOfAssignment(k: string, v: string)
    requires k != [] && '=' !in k && v != [] && v[0] != '='
    ensures '=' in Lower(k) + "=" + Lower(v)
    ensures SplitTwo(Lower(k) + "=" + Lower(v)) == Some((Lower(k), Lower(v)))
  {
    var lk, lv := Lower(k), Lower(v);
    assert (lk + "=" + lv)[|lk|] == '=';
    LowerKeepsSeparators(k);
    assert lv[0] == LowerChar(v[0]);
    SplitTwoOfAssignment(lk, lv);
  }

  /** `--k=` and `--=v` (fewer than two non-empty parts) store nothing. */
  lemma IncompleteEqualsFormIgnored(token: string, post: seq<string>)
    requires StartsWith(token, "--") && '=' in Normalize(token[2..])
    requires SplitTwo(Normalize(token[2..])).None?
    ensures Assignments([token] + post) == Assignments(post)
  {
    assert ([token] + post)[0] == token;
    AssignmentsOfSegment([token], post);
  }

  /** The keys a step assigns are lower-case. */
  lemma StepKeysAreLowerCase(args: seq<string>)
    requires |args| > 0
    ensures forall p :: p in Step(args).0 ==> Lower(p.0) == p.0
  {
    if StartsWith(args[0], "--") {
      var key := Normalize(args[0][2..]);
      LowerOfNormalized(args[0][2..]);
      SplitKeyIsLowerCase(key);
    }
  }

  /** The key split off a lower-case token is lower-case. */
  lemma SplitKeyIsLowerCase(key: string)
    requires Lower(key) == key
    ensures SplitTwo(key).Some? ==> Lower(SplitTwo(key).value.0) == SplitTwo(key).value.0
  {
    if SplitTwo(key).Some? {
      var start := SkipSeparators(key, 0);
      var end := NextSeparator(key, start);
      assert SplitTwo(key).value.0 == key[start..end];
      LowerOfSlice(key, start, end);
    }
  }

  /** Every stored key is lower-case. */
  lemma {:induction false} KeysAreLowerCase(args: seq<string>)
    ensures forall p :: p in Assignments(args) ==> Lower(p.0) == p.0
    decreases |args|
  {
    if |args| > 0 {
      StepKeysAreLowerCase(args);
      KeysAreLowerCase(args[Step(args).1..]);
    }
  }

  /** A normalised string holds no upper-case letter. */
  lemma LowerOfNormalized(s: string)
    ensures Lower(Normalize(s)) == Normalize(s)
  {
    LowerIdempotent(Trim(s));
  }

  /** Normalising twice is normalising once. */
  lemma NormalizeIdempotent(s: string)
    ensures Normalize(Normalize(s)) == Normalize(s)
  {
    var n := Normalize(s);
    LowerOfNormalized(s);
    TrimOfTrimmed(n);
  }
}
