/**
 * The JavaScript string primitives the bridge relies on, as functions on
 * `seq<char>`: a global one-character `replace`, `replace` with a string
 * pattern (first occurrence only), `split` on one character, `join`, and
 * `trim`.
 */
module Text {

  /** `s.replace(/[targets]/g, rep)`: every character of `s` that is in `targets` replaced by `rep`. */
  function Substitute(s: string, targets: set<char>, rep: string): string
    decreases |s|
  {
    if s == [] then []
    else (if s[0] in targets then rep else [s[0]]) + Substitute(s[1..], targets, rep)
  }

  /** How many characters of `s` are in `targets`. */
  function Occurrences(s: string, targets: set<char>): nat
    decreases |s|
  {
    if s == [] then 0
    else (if s[0] in targets then 1 else 0) + Occurrences(s[1..], targets)
  }

  /** Each replaced character costs `|rep| - 1` characters more. */
  lemma {:induction false} SubstituteLength(s: string, targets: set<char>, rep: string)
    ensures |Substitute(s, targets, rep)| == |s| + Occurrences(s, targets) * (|rep| - 1)
    decreases |s|
  {
    if s != [] {
      SubstituteLength(s[1..], targets, rep);
    }
  }

  lemma {:induction false} SubstituteAppend(a: string, b: string, targets: set<char>, rep: string)
    ensures Substitute(a + b, targets, rep) == Substitute(a, targets, rep) + Substitute(b, targets, rep)
    decreases |a|
  {
    if a == [] {
      assert a + b == b;
    } else {
      assert (a + b)[1..] == a[1..] + b;
      SubstituteAppend(a[1..], b, targets, rep);
    }
  }

  /** A replacement that holds none of the targets leaves none of them behind. */
  lemma {:induction false} SubstituteRemoves(s: string, targets: set<char>, rep: string, c: char)
    requires c in targets && c !in rep
    ensures c !in Substitute(s, targets, rep)
    decreases |s|
  {
    if s != [] {
      SubstituteRemoves(s[1..], targets, rep, c);
    }
  }

  /** A character that is neither a target nor in the replacement is not introduced, and survives. */
  lemma {:induction false} SubstituteKeeps(s: string, targets: set<char>, rep: string, c: char)
    requires c !in targets && c !in rep
    ensures c in Substitute(s, targets, rep) <==> c in s
    decreases |s|
  {
    if s != [] {
      SubstituteKeeps(s[1..], targets, rep, c);
      assert s == [s[0]] + s[1..];
    }
  }

  /** A one-character replacement works position by position. */
  lemma {:induction false} SubstitutePointwise(s: string, targets: set<char>, c: char)
    ensures |Substitute(s, targets, [c])| == |s|
    ensures forall i | 0 <= i < |s| :: Substitute(s, targets, [c])[i] == (if s[i] in targets then c else s[i])
    decreases |s|
  {
    if s != [] {
      SubstitutePointwise(s[1..], targets, c);
      var r := Substitute(s, targets, [c]);
      assert forall i | 1 <= i < |s| :: r[i] == Substitute(s[1..], targets, [c])[i - 1];
    }
  }

  /** Text with no target in it comes back unchanged. */
  lemma {:induction false} SubstituteUnchanged(s: string, targets: set<char>, rep: string)
    requires forall i | 0 <= i < |s| :: s[i] !in targets
    ensures Substitute(s, targets, rep) == s
    decreases |s|
  {
    if s != [] {
      SubstituteUnchanged(s[1..], targets, rep);
    }
  }

  /** `s.replace(pat, rep)` with a string pattern: only the first occurrence is replaced. */
  function ReplaceFirst(s: string, pat: string, rep: string): string
    decreases |s|
  {
    if |s| < |pat| then s
    else if s[..|pat|] == pat then rep + s[|pat|..]
    else [s[0]] + ReplaceFirst(s[1..], pat, rep)
  }

  lemma ReplaceFirstAtStart(pat: string, u: string, rep: string)
    ensures ReplaceFirst(pat + u, pat, rep) == rep + u
  {
    assert (pat + u)[..|pat|] == pat;
    assert (pat + u)[|pat|..] == u;
  }

  /** `s.split(sep)` for a one-character separator: the maximal runs between separators. */
  function Split(s: string, sep: char): (parts: seq<string>)
    ensures |parts| > 0
    decreases |s|
  {
    if s == [] then [[]]
    else if s[0] == sep then [[]] + Split(s[1..], sep)
    else
      var rest := Split(s[1..], sep);
      [[s[0]] + rest[0]] + rest[1..]
  }

  /** `parts.join(sep)`. */
  function Join(parts: seq<string>, sep: string): string
    decreases |parts|
  {
    if |parts| == 0 then []
    else if |parts| == 1 then parts[0]
    else parts[0] + sep + Join(parts[1..], sep)
  }

  /** The first line of `s`: `s.split('\n')[0]`. */
  function FirstLine(s: string): string {
    Split(s, '\n')[0]
  }

  lemma JoinConsHead(x: string, y: string, rest: seq<string>, sep: string)
    ensures Join([x + y] + rest, sep) == x + Join([y] + rest, sep)
  {
    if |rest| > 0 {
      assert ([x + y] + rest)[1..] == rest;
      assert ([y] + rest)[1..] == rest;
    }
  }

  lemma {:induction false} SplitNoSeparator(p: string, tail: string, sep: char)
    requires sep !in p
    ensures Split(p + tail, sep) == [p + Split(tail, sep)[0]] + Split(tail, sep)[1..]
    decreases |p|
  {
    if p == [] {
      var r := Split(tail, sep);
      assert p + tail == tail;
      assert p + r[0] == r[0];
      assert [r[0]] + r[1..] == r;
    } else {
      assert (p + tail)[1..] == p[1..] + tail;
      SplitNoSeparator(p[1..], tail, sep);
      assert [p[0]] + (p[1..] + Split(tail, sep)[0]) == p + Split(tail, sep)[0];
    }
  }

  /** Splitting and joining with the same separator gives back the text. */
  lemma {:induction false} JoinSplit(s: string, sep: char)
    ensures Join(Split(s, sep), [sep]) == s
    decreases |s|
  {
    if s != [] {
      JoinSplit(s[1..], sep);
      var rest := Split(s[1..], sep);
      if s[0] == sep {
        assert ([[]] + rest)[1..] == rest;
      } else {
        JoinConsHead([s[0]], rest[0], rest[1..], [sep]);
        assert [rest[0]] + rest[1..] == rest;
      }
    }
  }

  /** Joining parts free of the separator and splitting again gives back the parts. */
  lemma {:induction false} SplitJoin(parts: seq<string>, sep: char)
    requires |parts| > 0
    requires forall i | 0 <= i < |parts| :: sep !in parts[i]
    ensures Split(Join(parts, [sep]), sep) == parts
    decreases |parts|
  {
    if |parts| == 1 {
      SplitNoSeparator(parts[0], [], sep);
      assert parts[0] + [] == parts[0];
    } else {
      var rest := Join(parts[1..], [sep]);
      SplitJoin(parts[1..], sep);
      assert Join(parts, [sep]) == parts[0] + ([sep] + rest);
      SplitNoSeparator(parts[0], [sep] + rest, sep);
      assert ([sep] + rest)[1..] == rest;
      assert Split([sep] + rest, sep) == [[]] + Split(rest, sep);
      assert parts[0] + [] == parts[0];
      assert [parts[0]] + parts[1..] == parts;
    }
  }

  lemma FirstLineOf(line: string, rest: string)
    requires '\n' !in line
    ensures FirstLine(line + "\n" + rest) == line
  {
    assert line + "\n" + rest == line + ("\n" + rest);
    SplitNoSeparator(line, "\n" + rest, '\n');
    assert ("\n" + rest)[1..] == rest;
  }

  /**
   * WhiteSpace and LineTerminator of ECMAScript: what `String.prototype.trim`
   * strips. Below U+00A0 that is the space and U+0009 to U+000D; above, the
   * characters of `WideWhitespace`.
   */
  predicate IsJsWhitespace(c: char) {
    c == ' ' || ('\t' <= c <= '\r') || ('\U{00A0}' <= c && InChars(c, WideWhitespace))
  }

  const WideWhitespace: seq<char> :=
    [ '\U{00A0}', '\U{1680}', '\U{2000}', '\U{2001}', '\U{2002}', '\U{2003}', '\U{2004}', '\U{2005}',
      '\U{2006}', '\U{2007}', '\U{2008}', '\U{2009}', '\U{200A}', '\U{2028}', '\U{2029}', '\U{202F}',
      '\U{205F}', '\U{3000}', '\U{FEFF}' ]

  /** `c` is one of `cs`. */
  predicate InChars(c: char, cs: seq<char>)
    decreases |cs|
  {
    cs != [] && (c == cs[0] || InChars(c, cs[1..]))
  }

  /** `s` with its leading whitespace removed: a suffix of `s`. */
  function TrimStart(s: string): (r: string)
    ensures |r| <= |s| && r == s[|s| - |r|..]
    ensures r != [] ==> !IsJsWhitespace(r[0])
    decreases |s|
  {
    if s != [] && IsJsWhitespace(s[0]) then TrimStart(s[1..]) else s
  }

  /** Only whitespace is cut from the front. */
  lemma {:induction false} TrimStartCuts(s: string)
    ensures forall k | 0 <= k < |s| - |TrimStart(s)| :: IsJsWhitespace(s[k])
    decreases |s|
  {
    if s != [] && IsJsWhitespace(s[0]) {
      TrimStartCuts(s[1..]);
      forall k | 0 < k < |s| - |TrimStart(s)|
        ensures IsJsWhitespace(s[k])
      {
        assert s[k] == s[1..][k - 1];
      }
    }
  }

  /** `s` with its trailing whitespace removed: a prefix of `s`. */
  function TrimEnd(s: string): (r: string)
    ensures |r| <= |s| && r == s[..|r|]
    ensures r != [] ==> !IsJsWhitespace(r[|r| - 1])
    decreases |s|
  {
    if s != [] && IsJsWhitespace(s[|s| - 1]) then TrimEnd(s[..|s| - 1]) else s
  }

  /** Only whitespace is cut from the back. */
  lemma {:induction false} TrimEndCuts(s: string)
    ensures forall k | |TrimEnd(s)| <= k < |s| :: IsJsWhitespace(s[k])
    decreases |s|
  {
    if s != [] && IsJsWhitespace(s[|s| - 1]) {
      TrimEndCuts(s[..|s| - 1]);
      forall k | |TrimEnd(s)| <= k < |s| - 1
        ensures IsJsWhitespace(s[k])
      {
        assert s[k] == s[..|s| - 1][k];
      }
    }
  }

  /** `s.trim()`: neither starting nor ending with whitespace. */
  function Trim(s: string): (r: string)
    ensures |r| <= |s|
    ensures r != [] ==> !IsJsWhitespace(r[0]) && !IsJsWhitespace(r[|r| - 1])
  {
    TrimEnd(TrimStart(s))
  }

  /** How many characters trimming cuts from the front. */
  function TrimOffset(s: string): (i: nat)
    ensures i + |Trim(s)| <= |s|
  {
    |s| - |TrimStart(s)|
  }

  /** Trimming keeps a contiguous slice of `s`. */
  lemma TrimSlice(s: string)
    ensures Trim(s) == s[TrimOffset(s)..TrimOffset(s) + |Trim(s)|]
  {
    var t := TrimStart(s);
    var r := TrimEnd(t);
    SliceOfSuffix(s, |s| - |t|, |r|);
  }

  lemma SliceOfSuffix(s: string, i: nat, n: nat)
    requires i + n <= |s|
    ensures s[i..][..n] == s[i..i + n]
  {
  }

  /** What trimming cuts, before and after that slice, is whitespace. */
  lemma TrimCuts(s: string)
    ensures forall k | 0 <= k < TrimOffset(s) :: IsJsWhitespace(s[k])
    ensures forall k | TrimOffset(s) + |Trim(s)| <= k < |s| :: IsJsWhitespace(s[k])
  {
    var t := TrimStart(s);
    var i := |s| - |t|;
    assert TrimOffset(s) == i && Trim(s) == TrimEnd(t);
    TrimStartCuts(s);
    TrimEndCuts(t);
    forall k | i + |TrimEnd(t)| <= k < |s|
      ensures IsJsWhitespace(s[k])
    {
      assert s[k] == t[k - i];
    }
  }

  /** Trimming leaves nothing exactly when every character is whitespace. */
  lemma TrimEmpty(s: string)
    ensures Trim(s) == [] <==> forall k | 0 <= k < |s| :: IsJsWhitespace(s[k])
  {
    var t := TrimStart(s);
    var r := TrimEnd(t);
    TrimStartCuts(s);
    TrimEndCuts(t);
    if r != [] {
      assert r[0] == s[|s| - |t|];
    } else {
      forall k | 0 <= k < |s|
        ensures IsJsWhitespace(s[k])
      {
        if k >= |s| - |t| {
          assert s[k] == t[k - (|s| - |t|)];
        }
      }
    }
  }

  /** Trimming twice is trimming once. */
  lemma TrimIdempotent(s: string)
    ensures Trim(Trim(s)) == Trim(s)
  {
    var r := Trim(s);
    assert TrimStart(r) == r;
    assert TrimEnd(r) == r;
  }

  /** Text that neither starts nor ends with whitespace is its own trim. */
  lemma TrimUnchanged(s: string)
    requires s != [] && !IsJsWhitespace(s[0]) && !IsJsWhitespace(s[|s| - 1])
    ensures Trim(s) == s
  {
    assert TrimStart(s) == s;
    assert TrimEnd(s) == s;
  }
}
