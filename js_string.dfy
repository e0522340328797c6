/**
 * The JavaScript string operations the route handlers rely on:
 * `trim`, `toLowerCase`, `startsWith`, `indexOf`, `replace` with a string
 * pattern, and `split('/').pop()`.
 */
module JsString {
  import opened Wrappers

  /**
   * The WhiteSpace and LineTerminator code points of ECMA-262 (sections
   * 12.2 and 12.3), which `String.prototype.trim` strips from both ends.
   */
  predicate IsWhitespace(c: char) {
    || c == '\t' || c == '\n' || c == '\U{000B}' || c == '\U{000C}' || c == '\r'
    || c == ' ' || c == '\U{00A0}' || c == '\U{1680}'
    || ('\U{2000}' <= c <= '\U{200A}')
    || c == '\U{2028}' || c == '\U{2029}' || c == '\U{202F}' || c == '\U{205F}'
    || c == '\U{3000}' || c == '\U{FEFF}'
  }

  /** Every character is whitespace (the empty string included). */
  predicate Blank(s: string) {
    forall i :: 0 <= i < |s| ==> IsWhitespace(s[i])
  }

  /** `s` without its leading whitespace: the longest suffix starting with a non-blank. */
  function TrimStart(s: string): (r: string)
    ensures |r| <= |s| && r == s[|s| - |r|..]
    ensures Blank(s[..|s| - |r|])
    ensures r == [] || !IsWhitespace(r[0])
    decreases |s|
  {
    if s != [] && IsWhitespace(s[0]) then
      var r := TrimStart(s[1..]);
      BlankHeadStep(s, |s| - |r|);
      r
    else s
  }

  /** A blank prefix of the tail of `s`, with the blank head of `s` put back, is a blank prefix of `s`. */
  lemma BlankHeadStep(s: string, n: nat)
    requires 1 <= n <= |s| && IsWhitespace(s[0]) && Blank(s[1..][..n - 1])
    ensures Blank(s[..n]) && s[n..] == s[1..][n - 1..]
  {
    assert s[..n] == [s[0]] + s[1..][..n - 1];
  }

  /** `s` without its trailing whitespace: the longest prefix ending with a non-blank. */
  function TrimEnd(s: string): (r: string)
    ensures |r| <= |s| && r == s[..|r|]
    ensures Blank(s[|r|..])
    ensures r == [] || !IsWhitespace(r[|r| - 1])
    decreases |s|
  {
    if s != [] && IsWhitespace(s[|s| - 1]) then
      var front := s[..|s| - 1];
      var r := TrimEnd(front);
      assert s[|r|..] == front[|r|..] + [s[|s| - 1]];
      r
    else s
  }

  /** `s.trim()`: neither end of the result is whitespace. */
  function Trim(s: string): (r: string)
    ensures r == [] || (!IsWhitespace(r[0]) && !IsWhitespace(r[|r| - 1]))
    ensures |r| <= |s|
  {
    var t := TrimStart(s);
    var e := TrimEnd(t);
    assert e != [] ==> e[0] == t[0];
    e
  }

  /** `s.trim()` is `s` with a blank prefix and a blank suffix cut off. */
  lemma TrimIsInfix(s: string)
    ensures exists i, j :: 0 <= i <= j <= |s| && Trim(s) == s[i..j] && Blank(s[..i]) && Blank(s[j..])
  {
    var t := TrimStart(s);
    var e := TrimEnd(t);
    assert Trim(s) == e;
    BlankCuts(s, t, e);
    var i := |s| - |t|;
    assert 0 <= i <= i + |e| <= |s| && e == s[i..i + |e|] && Blank(s[..i]) && Blank(s[i + |e|..]);
  }

  /** Cutting a blank prefix and then a blank suffix leaves an infix, between a blank prefix and a blank suffix. */
  lemma BlankCuts(s: string, t: string, e: string)
    requires |t| <= |s| && t == s[|s| - |t|..] && Blank(s[..|s| - |t|])
    requires |e| <= |t| && e == t[..|e|] && Blank(t[|e|..])
    ensures var i := |s| - |t|; e == s[i..i + |e|] && Blank(s[i + |e|..])
  {
    var i := |s| - |t|;
    assert t[|e|..] == s[i + |e|..];
  }

  /** Trimming the front leaves nothing exactly when the whole string is blank. */
  lemma {:induction false} TrimStartEmptyIffBlank(s: string)
    ensures TrimStart(s) == [] <==> Blank(s)
    decreases |s|
  {
    if s != [] && IsWhitespace(s[0]) {
      TrimStartEmptyIffBlank(s[1..]);
      assert Blank(s) <==> Blank(s[1..]) by {
        assert forall k :: 0 < k < |s| ==> s[k] == s[1..][k - 1];
      }
    }
  }

  /** `!s.trim()` holds exactly when every character of `s` is whitespace. */
  lemma TrimEmptyIffBlank(s: string)
    ensures Trim(s) == "" <==> Blank(s)
  {
    var t := TrimStart(s);
    TrimStartEmptyIffBlank(s);
    assert TrimEnd(t) == [] ==> t[|TrimEnd(t)|..] == t;
  }

  /** A string that neither begins nor ends with whitespace is its own trim. */
  lemma TrimKeepsTrimmed(s: string)
    requires s == [] || (!IsWhitespace(s[0]) && !IsWhitespace(s[|s| - 1]))
    ensures Trim(s) == s
  {
  }

  /** Trailing whitespace after a trimmed string is all that `trim` removes. */
  lemma TrimDropsTrailingSpace(s: string)
    requires s != [] && !IsWhitespace(s[0]) && !IsWhitespace(s[|s| - 1])
    ensures Trim(s + " ") == s
  {
    var t := s + " ";
    assert t[0] == s[0];
    assert TrimStart(t) == t;
    assert t[..|t| - 1] == s;
  }

  /** Leading whitespace before a trimmed string is all that `trim` removes. */
  lemma TrimDropsLeadingSpace(s: string)
    requires s != [] && !IsWhitespace(s[0]) && !IsWhitespace(s[|s| - 1])
    ensures Trim(" " + s) == s
  {
    var t := " " + s;
    assert t[1..] == s;
    assert TrimStart(t) == TrimStart(s) == s;
  }

  function ToLowerChar(c: char): char {
    if 'A' <= c <= 'Z' then (c as int + 32) as char else c
  }

  /** `s.toLowerCase()`, restricted to the ASCII letters A-Z. */
  function ToLower(s: string): (r: string)
    ensures |r| == |s|
    ensures forall i :: 0 <= i < |s| ==> r[i] == ToLowerChar(s[i])
  {
    if s == [] then [] else [ToLowerChar(s[0])] + ToLower(s[1..])
  }

  /** Lower-casing is idempotent, so any spelling and its lower-case form look up the same key. */
  lemma ToLowerIdempotent(s: string)
    ensures ToLower(ToLower(s)) == ToLower(s)
  {
  }

  /** `s.startsWith(p)` */
  predicate StartsWith(s: string, p: string) {
    p <= s
  }

  /** `pat` occurs in `s` at index `i`. */
  predicate OccursAt(s: string, pat: string, i: nat) {
    i + |pat| <= |s| && s[i..i + |pat|] == pat
  }

  /** `s.indexOf(pat)`, with -1 as `None`: the first index at which `pat` occurs. */
  function IndexOf(s: string, pat: string): (r: Option<nat>)
    ensures r.Some? ==> OccursAt(s, pat, r.value)
    ensures r.Some? ==> forall j: nat :: j < r.value ==> !OccursAt(s, pat, j)
    ensures r.None? ==> forall j: nat :: j <= |s| ==> !OccursAt(s, pat, j)
    decreases |s|
  {
    if pat <= s then Some(0)
    else if s == [] then None
    else
      var k := IndexOf(s[1..], pat);
      ShiftOccurrence(s, pat);
      if k.None? then None else Some(k.value + 1)
  }

  /** An occurrence at `m > 0` in `s` is an occurrence at `m - 1` in its tail. */
  lemma ShiftOccurrence(s: string, pat: string)
    requires s != [] && !(pat <= s)
    ensures !OccursAt(s, pat, 0)
    ensures forall m: nat :: 1 <= m <= |s| ==> (OccursAt(s, pat, m) <==> OccursAt(s[1..], pat, m - 1))
  {
    forall m: nat | 1 <= m <= |s| ensures OccursAt(s, pat, m) <==> OccursAt(s[1..], pat, m - 1) {
      if m + |pat| <= |s| {
        TailSlice(s, m, |pat|);
      }
    }
  }

  /** A slice of `s` that skips its head is the same slice of its tail, one position earlier. */
  lemma TailSlice(s: string, m: nat, len: nat)
    requires 1 <= m && m + len <= |s|
    ensures s[m..m + len] == s[1..][m - 1..m - 1 + len]
  {
    var a, b := s[m..m + len], s[1..][m - 1..m - 1 + len];
    forall k | 0 <= k < len ensures a[k] == b[k] {
      assert a[k] == s[m + k];
    }
  }

  /**
   * `s.replace(pat, rep)` with a string pattern: the first occurrence of
   * `pat` is replaced, scanning from the left (`rep` holds no `$` pattern).
   */
  function ReplaceFirst(s: string, pat: string, rep: string): string
    decreases |s|
  {
    if pat <= s then rep + s[|pat|..]
    else if s == [] then s
    else [s[0]] + ReplaceFirst(s[1..], pat, rep)
  }

  /** Replacing is splicing `rep` in at `s.indexOf(pat)`; without an occurrence `s` is returned unchanged. */
  lemma {:induction false} ReplaceFirstAtIndexOf(s: string, pat: string, rep: string)
    ensures IndexOf(s, pat).None? ==> ReplaceFirst(s, pat, rep) == s
    ensures IndexOf(s, pat).Some? ==>
      ReplaceFirst(s, pat, rep) == s[..IndexOf(s, pat).value] + rep + s[IndexOf(s, pat).value + |pat|..]
    decreases |s|
  {
    match IndexOf(s, pat)
    case None => ReplaceFirstAbsent(s, pat, rep);
    case Some(i) => ReplaceFirstPresent(s, pat, rep, i);
  }

  /** Without an occurrence, replacing changes nothing. */
  lemma {:induction false} ReplaceFirstAbsent(s: string, pat: string, rep: string)
    requires IndexOf(s, pat) == None
    ensures ReplaceFirst(s, pat, rep) == s
    decreases |s|
  {
    if s != [] {
      assert IndexOf(s[1..], pat) == None;
      ReplaceFirstAbsent(s[1..], pat, rep);
      assert ReplaceFirst(s, pat, rep) == [s[0]] + s[1..];
    }
  }

  /** With its first occurrence at `i`, replacing splices `rep` in at `i`. */
  lemma {:induction false} ReplaceFirstPresent(s: string, pat: string, rep: string, i: nat)
    requires IndexOf(s, pat) == Some(i)
    ensures i + |pat| <= |s|
    ensures ReplaceFirst(s, pat, rep) == s[..i] + rep + s[i + |pat|..]
    decreases |s|
  {
    if pat <= s {
      assert s[..0] == [];
    } else {
      PresentInTail(s, pat, i);
      ReplaceFirstPresent(s[1..], pat, rep, i - 1);
      ReplaceAfterHead(s, pat, rep, i - 1);
    }
  }

  /** Past a head where `pat` does not start, its first occurrence in `s` is one position later than in the tail. */
  lemma PresentInTail(s: string, pat: string, i: nat)
    requires IndexOf(s, pat) == Some(i) && !(pat <= s)
    ensures s != [] && 1 <= i && IndexOf(s[1..], pat) == Some(i - 1)
  {
  }

  /** One step of the induction above: a splice into the tail of `s` is a splice into `s` one position later. */
  lemma ReplaceAfterHead(s: string, pat: string, rep: string, k: nat)
    requires s != [] && !(pat <= s) && k + |pat| <= |s| - 1
    requires ReplaceFirst(s[1..], pat, rep) == s[1..][..k] + rep + s[1..][k + |pat|..]
    ensures ReplaceFirst(s, pat, rep) == s[..k + 1] + rep + s[k + 1 + |pat|..]
  {
    assert ReplaceFirst(s, pat, rep) == [s[0]] + ReplaceFirst(s[1..], pat, rep);
    SpliceAfterHead(s, k, |pat|, rep);
  }

  /** A replacement as long as the pattern keeps the length. */
  lemma ReplaceFirstKeepsLength(s: string, pat: string, rep: string)
    requires |pat| == |rep|
    ensures |ReplaceFirst(s, pat, rep)| == |s|
  {
    ReplaceFirstAtIndexOf(s, pat, rep);
  }

  /** Splicing into the tail of `s` and putting its head back is splicing into `s` one position later. */
  lemma SpliceAfterHead(s: string, k: nat, len: nat, rep: string)
    requires s != [] && k + len <= |s| - 1
    ensures [s[0]] + (s[1..][..k] + rep + s[1..][k + len..]) == s[..k + 1] + rep + s[k + 1 + len..]
  {
    assert s[..k + 1] == [s[0]] + s[1..][..k];
    assert s[k + 1 + len..] == s[1..][k + len..];
  }

  /** A string that begins with the pattern has it replaced right there. */
  lemma ReplaceFirstAtStart(pat: string, rest: string, rep: string)
    ensures ReplaceFirst(pat + rest, pat, rep) == rep + rest
  {
    assert pat <= pat + rest;
    assert (pat + rest)[|pat|..] == rest;
  }

  /** Text in which the pattern's first character never appears is passed over unchanged. */
  lemma {:induction false} ReplaceFirstSkips(skipped: string, rest: string, pat: string, rep: string)
    requires pat != [] && pat[0] !in skipped
    ensures ReplaceFirst(skipped + rest, pat, rep) == skipped + ReplaceFirst(rest, pat, rep)
    decreases |skipped|
  {
    if skipped == [] {
      assert skipped + rest == rest;
    } else {
      var s := skipped + rest;
      assert s[0] == skipped[0] != pat[0];
      assert !(pat <= s);
      assert s[1..] == skipped[1..] + rest;
      assert ReplaceFirst(s, pat, rep) == [s[0]] + ReplaceFirst(s[1..], pat, rep);
      ReplaceFirstSkips(skipped[1..], rest, pat, rep);
      assert [s[0]] + (skipped[1..] + ReplaceFirst(rest, pat, rep)) == skipped + ReplaceFirst(rest, pat, rep);
    }
  }

  /**
   * `s.split('/').pop()`: the text after the last `/`, or all of `s` when it
   * has no `/`.
   */
  function LastSegment(s: string): (r: string)
    ensures '/' !in r
    ensures |r| <= |s| && r == s[|s| - |r|..]
    ensures |r| < |s| ==> s[|s| - |r| - 1] == '/'
    decreases |s|
  {
    if s == [] then []
    else if s[|s| - 1] == '/' then []
    else
      var front := s[..|s| - 1];
      var r := LastSegment(front) + [s[|s| - 1]];
      assert s[|s| - |r|..] == front[|front| - |r| + 1..] + [s[|s| - 1]];
      r
  }

  /** The segment after the last `/` is the id a URL ends with, whatever precedes it. */
  lemma LastSegmentAfterSlash(prefix: string, id: string)
    requires '/' !in id
    ensures LastSegment(prefix + "/" + id) == id
  {
    var s := prefix + "/" + id;
    var r := LastSegment(s);
    var cut := |prefix|;
    assert s[cut] == '/';
    assert s[cut + 1..] == id;
  }
}
