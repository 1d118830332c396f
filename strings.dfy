/**
 * String primitives of the two host languages, on strings of Unicode scalar
 * values: Python's argument-less `str.strip()`, `str.split()`, `str.join`
 * and `str.replace`, and JavaScript's `String.prototype.trim` and
 * `startsWith`. The two languages disagree on what whitespace is, so each
 * has its own character set.
 */
module Strings {

  /** The characters Python's `str.isspace()` accepts; `strip()` and `split()` use them. */
  const PyWhitespace: set<char> := {
    '\U{9}', '\U{A}', '\U{B}', '\U{C}', '\U{D}',
    '\U{1C}', '\U{1D}', '\U{1E}', '\U{1F}', ' ',
    '\U{85}', '\U{A0}', '\U{1680}',
    '\U{2000}', '\U{2001}', '\U{2002}', '\U{2003}', '\U{2004}', '\U{2005}',
    '\U{2006}', '\U{2007}', '\U{2008}', '\U{2009}', '\U{200A}',
    '\U{2028}', '\U{2029}', '\U{202F}', '\U{205F}', '\U{3000}'
  }

  /** ECMAScript WhiteSpace and LineTerminator code points, which `trim()` removes. */
  const JsWhitespace: set<char> := {
    '\U{9}', '\U{A}', '\U{B}', '\U{C}', '\U{D}', ' ',
    '\U{A0}', '\U{1680}',
    '\U{2000}', '\U{2001}', '\U{2002}', '\U{2003}', '\U{2004}', '\U{2005}',
    '\U{2006}', '\U{2007}', '\U{2008}', '\U{2009}', '\U{200A}',
    '\U{2028}', '\U{2029}', '\U{202F}', '\U{205F}', '\U{3000}', '\U{FEFF}'
  }

  /** No character of `s` is in `ws`. */
  predicate NoneIn(s: string, ws: set<char>) {
    forall i :: 0 <= i < |s| ==> s[i] !in ws
  }

  /** Every character of `s` is in `ws` (so the empty string qualifies). */
  predicate AllIn(s: string, ws: set<char>) {
    forall i :: 0 <= i < |s| ==> s[i] in ws
  }

  /** A non-empty run of characters outside `ws`: what `split()` returns as parts. */
  predicate IsWord(s: string, ws: set<char>) {
    s != [] && NoneIn(s, ws)
  }

  /** `s` neither starts nor ends with a character of `ws`. */
  predicate Trimmed(s: string, ws: set<char>) {
    s == [] || (s[0] !in ws && s[|s| - 1] !in ws)
  }

  function TrimStart(s: string, ws: set<char>): (r: string)
    ensures |r| <= |s|
    ensures r != [] ==> r[0] !in ws
    ensures forall i :: 0 <= i < |s| - |r| ==> s[i] in ws
    ensures r == [] <==> AllIn(s, ws)
  {
    if s != [] && s[0] in ws then TrimStart(s[1..], ws) else s
  }

  /** What `TrimStart` leaves is a suffix of its input. */
  lemma {:induction false} TrimStartIsSuffix(s: string, ws: set<char>)
    ensures TrimStart(s, ws) == s[|s| - |TrimStart(s, ws)|..]
  {
    if s != [] && s[0] in ws {
      TrimStartIsSuffix(s[1..], ws);
      assert s[1..][|s| - 1 - |TrimStart(s, ws)|..] == s[|s| - |TrimStart(s, ws)|..];
    }
  }

  function TrimEnd(s: string, ws: set<char>): (r: string)
    ensures |r| <= |s| && r == s[..|r|]
    ensures r != [] ==> r[|r| - 1] !in ws
    ensures forall i :: |r| <= i < |s| ==> s[i] in ws
  {
    if s != [] && s[|s| - 1] in ws then TrimEnd(s[..|s| - 1], ws) else s
  }

  /**
   * Removes the leading and trailing characters of `ws`: Python's
   * `s.strip()` with `ws == PyWhitespace`, JavaScript's `s.trim()` with
   * `ws == JsWhitespace`.
   */
  function Strip(s: string, ws: set<char>): (r: string)
    ensures |r| <= |s| && Trimmed(r, ws)
    ensures r == [] <==> AllIn(s, ws)
    ensures Trimmed(s, ws) ==> r == s
    ensures exists i, j :: 0 <= i <= j <= |s| && r == s[i..j] && AllIn(s[..i], ws) && AllIn(s[j..], ws)
  {
    var t := TrimStart(s, ws);
    var r := TrimEnd(t, ws);
    TrimStartIsSuffix(s, ws);
    var i := |s| - |t|;
    assert r == s[i..i + |r|];
    assert AllIn(s[..i], ws);
    var u := s[i + |r|..];
    assert AllIn(u, ws) by {
      forall k | 0 <= k < |u| ensures u[k] in ws {
        assert u[k] == t[|r| + k];
      }
    }
    assert r != [] ==> r[0] == t[0];
    assert t != [] ==> r != [];
    assert Trimmed(s, ws) ==> r == s by {
      if Trimmed(s, ws) && s != [] {
        assert t == s;
        assert TrimEnd(s, ws) == s;
      }
    }
    r
  }

  function PyStrip(s: string): string { Strip(s, PyWhitespace) }

  function JsTrim(s: string): string { Strip(s, JsWhitespace) }

  lemma StripIdempotent(s: string, ws: set<char>)
    ensures Strip(Strip(s, ws), ws) == Strip(s, ws)
  {
  }

  predicate StartsWith(s: string, prefix: string) {
    |prefix| <= |s| && s[..|prefix|] == prefix
  }

  predicate EndsWith(s: string, suffix: string) {
    |suffix| <= |s| && s[|s| - |suffix|..] == suffix
  }

  /** The longest prefix of `s` without a character of `ws`. */
  function Word(s: string, ws: set<char>): (w: string)
    ensures |w| <= |s| && w == s[..|w|] && NoneIn(w, ws)
    ensures |w| < |s| ==> s[|w|] in ws
    ensures s != [] && s[0] !in ws ==> w != []
  {
    if s == [] || s[0] in ws then [] else [s[0]] + Word(s[1..], ws)
  }

  /**
   * Python's argument-less `s.split()`: the maximal runs of characters
   * outside `ws`, in order; leading, trailing and repeated whitespace
   * produce no empty parts.
   */
  function Split(s: string, ws: set<char>): (parts: seq<string>)
    decreases |s|
    ensures forall p :: p in parts ==> IsWord(p, ws)
    ensures parts == [] <==> AllIn(s, ws)
  {
    if s == [] then []
    else if s[0] in ws then
      assert AllIn(s, ws) <==> AllIn(s[1..], ws) by {
        assert forall i :: 1 <= i < |s| ==> s[i] == s[1..][i - 1];
      }
      Split(s[1..], ws)
    else
      var w := Word(s, ws);
      [w] + Split(s[|w|..], ws)
  }

  /** `''.join(parts)`: the parts one after another. */
  function Concat(parts: seq<string>): string
    decreases |parts|
  {
    if parts == [] then [] else parts[0] + Concat(parts[1..])
  }

  /** `s` with every character of `ws` deleted, the others in order. */
  function Removed(s: string, ws: set<char>): string {
    if s == [] then []
    else (if s[0] in ws then [] else [s[0]]) + Removed(s[1..], ws)
  }

  lemma {:induction false} RemovedAppend(a: string, b: string, ws: set<char>)
    ensures Removed(a + b, ws) == Removed(a, ws) + Removed(b, ws)
  {
    if a != [] {
      assert (a + b)[1..] == a[1..] + b;
      RemovedAppend(a[1..], b, ws);
    } else {
      assert a + b == b;
    }
  }

  lemma {:induction false} RemovedWord(w: string, ws: set<char>)
    requires NoneIn(w, ws)
    ensures Removed(w, ws) == w
  {
    if w != [] {
      RemovedWord(w[1..], ws);
    }
  }

  /**
   * The parts of `split()` are exactly the characters of `s` outside `ws`,
   * in their order: concatenating them deletes the whitespace and nothing else.
   */
  lemma {:induction false} SplitConcat(s: string, ws: set<char>)
    decreases |s|
    ensures Concat(Split(s, ws)) == Removed(s, ws)
  {
    if s != [] {
      if s[0] in ws {
        SplitConcat(s[1..], ws);
      } else {
        var w := Word(s, ws);
        var rest := s[|w|..];
        assert s == w + rest;
        RemovedAppend(w, rest, ws);
        RemovedWord(w, ws);
        SplitConcat(rest, ws);
        assert Split(s, ws) == [w] + Split(rest, ws);
        assert ([w] + Split(rest, ws))[1..] == Split(rest, ws);
      }
    }
  }

  /** `sep.join(parts)` */
  function Join(sep: string, parts: seq<string>): string {
    if |parts| == 0 then []
    else if |parts| == 1 then parts[0]
    else parts[0] + sep + Join(sep, parts[1..])
  }

  /** A non-empty string without whitespace splits into itself alone. */
  lemma SplitOfWord(t: string, ws: set<char>)
    requires t != [] && NoneIn(t, ws)
    ensures Split(t, ws) == [t]
  {
    assert Word(t, ws) == t;
    assert t[|t|..] == [];
  }

  /** A trimmed string that contains whitespace splits into at least two parts. */
  lemma SplitOfSpaced(t: string, ws: set<char>)
    requires t != [] && Trimmed(t, ws) && !NoneIn(t, ws)
    ensures |Split(t, ws)| >= 2
  {
    var w := Word(t, ws);
    assert |w| < |t|;
    var rest := t[|w|..];
    assert rest[|rest| - 1] == t[|t| - 1];
    assert !AllIn(rest, ws);
  }

  /** A trimmed string splits into exactly one part iff it is non-empty and has no whitespace. */
  lemma SplitOneIff(t: string, ws: set<char>)
    requires Trimmed(t, ws)
    ensures |Split(t, ws)| == 1 <==> t != [] && NoneIn(t, ws)
  {
    if t != [] {
      if NoneIn(t, ws) { SplitOfWord(t, ws); } else { SplitOfSpaced(t, ws); }
    }
  }

  lemma {:induction false} WordBeforeSpace(w: string, u: string, ws: set<char>)
    requires NoneIn(w, ws) && u != [] && u[0] in ws
    ensures Word(w + u, ws) == w
  {
    if w != [] {
      assert (w + u)[1..] == w[1..] + u;
      WordBeforeSpace(w[1..], u, ws);
    }
  }

  /** Leading whitespace does not change the parts. */
  lemma SplitAfterSpace(c: char, u: string, ws: set<char>)
    requires c in ws
    ensures Split([c] + u, ws) == Split(u, ws)
  {
    assert ([c] + u)[1..] == u;
  }

  /** A word followed by whitespace is the first part. */
  lemma SplitCons(p: string, u: string, ws: set<char>)
    requires IsWord(p, ws) && u != [] && u[0] in ws
    ensures Split(p + u, ws) == [p] + Split(u, ws)
  {
    WordBeforeSpace(p, u, ws);
    assert (p + u)[0] == p[0];
    assert (p + u)[|p|..] == u;
  }

  /**
   * Splitting undoes joining with a whitespace separator, provided every
   * part is a non-empty run without whitespace.
   */
  lemma {:induction false} SplitJoin(parts: seq<string>, sep: char, ws: set<char>)
    requires sep in ws
    requires forall p :: p in parts ==> IsWord(p, ws)
    ensures Split(Join([sep], parts), ws) == parts
  {
    if |parts| == 1 {
      assert parts[0] in parts;
      SplitOfWord(parts[0], ws);
    } else if |parts| > 1 {
      var p := parts[0];
      assert p in parts;
      assert forall q :: q in parts[1..] ==> q in parts;
      var tail := Join([sep], parts[1..]);
      assert Join([sep], parts) == p + ([sep] + tail);
      SplitCons(p, [sep] + tail, ws);
      SplitAfterSpace(sep, tail, ws);
      SplitJoin(parts[1..], sep, ws);
    }
  }

  /**
   * Python's `s.replace(pat, rep)`: every occurrence of `pat`, scanning left
   * to right without overlaps, becomes `rep`.
   */
  function ReplaceAll(s: string, pat: string, rep: string): string
    requires pat != []
    decreases |s|
  {
    if |s| < |pat| then s
    else if s[..|pat|] == pat then rep + ReplaceAll(s[|pat|..], pat, rep)
    else [s[0]] + ReplaceAll(s[1..], pat, rep)
  }

  /**
   * When the replacement begins with the same character as the pattern,
   * replacing keeps a non-empty string non-empty and keeps its first character.
   */
  lemma ReplaceKeepsHead(s: string, pat: string, rep: string)
    requires pat != [] && rep != [] && rep[0] == pat[0] && s != []
    ensures ReplaceAll(s, pat, rep) != [] && ReplaceAll(s, pat, rep)[0] == s[0]
  {
  }
}
