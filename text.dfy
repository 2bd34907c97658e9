/** The JavaScript string operations the installer relies on, over `seq<char>`:
    `startsWith`/`endsWith`, `includes`, ASCII `toLowerCase`, `split(',')`,
    `trim()` and `replace(pattern, '')` with a string pattern. */
module Text {

  predicate StartsWith(s: string, prefix: string) {
    |prefix| <= |s| && s[..|prefix|] == prefix
  }

  predicate EndsWith(s: string, suffix: string) {
    |suffix| <= |s| && s[|s| - |suffix|..] == suffix
  }

  /** `sub` occurs in `s` starting at index `i`. */
  ghost predicate OccursAt(s: string, sub: string, i: int) {
    0 <= i && i + |sub| <= |s| && s[i..i + |sub|] == sub
  }

  /** `String.prototype.includes`: a plain substring search (the empty string
      is found everywhere). */
  function Includes(s: string, sub: string): bool
    decreases |s|
  {
    StartsWith(s, sub) || (|s| > 0 && Includes(s[1..], sub))
  }

  lemma {:induction false} IncludesIff(s: string, sub: string)
    ensures Includes(s, sub) <==> exists i :: OccursAt(s, sub, i)
    decreases |s|
  {
    if StartsWith(s, sub) {
      assert OccursAt(s, sub, 0);
    } else if |s| > 0 {
      IncludesIff(s[1..], sub);
      if Includes(s[1..], sub) {
        var i :| OccursAt(s[1..], sub, i);
        assert s[1..][i..i + |sub|] == s[i + 1..i + 1 + |sub|];
        assert OccursAt(s, sub, i + 1);
      }
      if exists i :: OccursAt(s, sub, i) {
        var i :| OccursAt(s, sub, i);
        assert i != 0;
        assert s[1..][i - 1..i - 1 + |sub|] == s[i..i + |sub|];
        assert OccursAt(s[1..], sub, i - 1);
      }
    }
  }

  /** Every character of a string that is found is a character of the text. */
  lemma {:induction false} IncludesChars(s: string, sub: string, k: int)
    requires Includes(s, sub)
    requires 0 <= k < |sub|
    ensures sub[k] in s
  {
    IncludesIff(s, sub);
    var i :| OccursAt(s, sub, i);
    assert s[i + k] == s[i..i + |sub|][k];
  }

  /** A string with a character the text lacks is not found in it. */
  lemma NotIncluded(s: string, sub: string, k: int)
    requires 0 <= k < |sub| && sub[k] !in s
    ensures !Includes(s, sub)
  {
    if Includes(s, sub) {
      IncludesChars(s, sub, k);
    }
  }

  /** A text holding `sub` holds every part of `sub`. */
  lemma IncludesPart(s: string, sub: string, part: string, k: int)
    requires Includes(s, sub) && OccursAt(sub, part, k)
    ensures Includes(s, part)
  {
    IncludesIff(s, sub);
    var i :| OccursAt(s, sub, i);
    forall t | 0 <= t < |part|
      ensures s[i + k + t] == part[t]
    {
      assert s[i + k + t] == s[i..i + |sub|][k + t] == sub[k..k + |part|][t];
    }
    assert s[i + k..i + k + |part|] == part;
    assert OccursAt(s, part, i + k);
    IncludesIff(s, part);
  }

  /** A string found at a given index is found. */
  lemma IncludedAt(s: string, sub: string, i: int)
    requires OccursAt(s, sub, i)
    ensures Includes(s, sub)
  {
    IncludesIff(s, sub);
  }

  /** `toLowerCase` restricted to ASCII letters. */
  function LowerChar(c: char): (r: char)
    ensures 'A' <= c <= 'Z' ==> 'a' <= r <= 'z' && r as int == c as int + 32
    ensures !('A' <= c <= 'Z') ==> r == c
  {
    if 'A' <= c <= 'Z' then (c as int + 32) as char else c
  }

  function Lower(s: string): (r: string)
    ensures |r| == |s|
    ensures forall i :: 0 <= i < |s| ==> r[i] == LowerChar(s[i])
  {
    seq(|s|, i requires 0 <= i < |s| => LowerChar(s[i]))
  }

  /** A string without upper-case ASCII letters is its own lower case. */
  lemma LowerOfLower(s: string)
    requires forall c :: c in s ==> !('A' <= c <= 'Z')
    ensures Lower(s) == s
  {
    assert forall i :: 0 <= i < |s| ==> s[i] in s;
  }

  /** `s.split(sep)` for a one-character separator: empty pieces are kept, so
      `"a,"` splits into `["a", ""]` and the empty string into `[""]`. */
  function Split(s: string, sep: char): (r: seq<string>)
    ensures |r| >= 1
    ensures forall i :: 0 <= i < |r| ==> sep !in r[i]
    decreases |s|
  {
    if s == [] then [""]
    else
      var rest := Split(s[1..], sep);
      if s[0] == sep then [""] + rest
      else [[s[0]] + rest[0]] + rest[1..]
  }

  /** `parts.join(sep)`. */
  function Join(parts: seq<string>, sep: char): string
    decreases |parts|
  {
    if parts == [] then ""
    else if |parts| == 1 then parts[0]
    else parts[0] + [sep] + Join(parts[1..], sep)
  }

  /** Splitting loses nothing: joining the pieces restores the text. */
  lemma {:induction false} JoinSplit(s: string, sep: char)
    ensures Join(Split(s, sep), sep) == s
    decreases |s|
  {
    if s != [] {
      var rest := Split(s[1..], sep);
      JoinSplit(s[1..], sep);
      if s[0] == sep {
        assert Split(s, sep)[1..] == rest;
      } else if |rest| == 1 {
        assert Join(Split(s, sep), sep) == [s[0]] + rest[0];
      } else {
        var parts := Split(s, sep);
        assert parts[1..] == rest[1..];
        assert Join(rest, sep) == rest[0] + [sep] + Join(rest[1..], sep);
      }
    }
  }

  /** The characters `String.prototype.trim` removes: ECMAScript WhiteSpace and
      LineTerminator. */
  predicate IsJsWhitespace(c: char) {
    c == ' ' || c == '\t' || c == '\n' || c == '\r' || c == '\U{000B}' || c == '\U{000C}'
    || c == '\U{00A0}' || c == '\U{1680}' || '\U{2000}' <= c <= '\U{200A}'
    || c == '\U{2028}' || c == '\U{2029}' || c == '\U{202F}' || c == '\U{205F}'
    || c == '\U{3000}' || c == '\U{FEFF}'
  }

  /** Number of whitespace characters at the start of `s`. */
  function LeadingWhitespace(s: string): (n: nat)
    ensures n <= |s|
    ensures forall j :: 0 <= j < n ==> IsJsWhitespace(s[j])
    ensures n < |s| ==> !IsJsWhitespace(s[n])
    decreases |s|
  {
    if s != [] && IsJsWhitespace(s[0]) then 1 + LeadingWhitespace(s[1..]) else 0
  }

  /** Number of whitespace characters at the end of `s`. */
  function TrailingWhitespace(s: string): (n: nat)
    ensures n <= |s|
    ensures forall j :: |s| - n <= j < |s| ==> IsJsWhitespace(s[j])
    ensures n < |s| ==> !IsJsWhitespace(s[|s| - n - 1])
    decreases |s|
  {
    if s != [] && IsJsWhitespace(s[|s| - 1]) then 1 + TrailingWhitespace(s[..|s| - 1]) else 0
  }

  /** `r` sits at index `i` of `s` with only whitespace around it. */
  ghost predicate PaddedAt(s: string, r: string, i: int) {
    && 0 <= i <= |s| - |r|
    && s[i..i + |r|] == r
    && (forall j :: 0 <= j < i ==> IsJsWhitespace(s[j]))
    && (forall j :: i + |r| <= j < |s| ==> IsJsWhitespace(s[j]))
  }

  /** `s.trim()`: `s` is the result with whitespace before and after it, and
      the result neither starts nor ends with whitespace. */
  function Trim(s: string): (r: string)
    ensures exists i :: PaddedAt(s, r, i)
    ensures r != [] ==> !IsJsWhitespace(r[0]) && !IsJsWhitespace(r[|r| - 1])
  {
    var front := LeadingWhitespace(s);
    var rest := s[front..];
    var back := TrailingWhitespace(rest);
    var r := rest[..|rest| - back];
    assert s[front..front + |r|] == r;
    assert forall j :: front + |r| <= j < |s| ==> s[j] == rest[j - front];
    assert PaddedAt(s, r, front);
    r
  }

  /** `s.replace(pattern, replacement)` with a string pattern: only the FIRST occurrence
      is replaced; a string without the pattern is returned unchanged. */
  function ReplaceFirst(s: string, pattern: string, replacement: string): string
    decreases |s|
  {
    if StartsWith(s, pattern) then replacement + s[|pattern|..]
    else if s == [] then s
    else [s[0]] + ReplaceFirst(s[1..], pattern, replacement)
  }

  /** When the pattern's first character does not occur before it, the
      occurrence right after `a` is the one replaced. */
  lemma {:induction false} ReplaceFirstAfter(a: string, pattern: string, b: string, replacement: string)
    requires pattern != [] && pattern[0] !in a
    ensures ReplaceFirst(a + pattern + b, pattern, replacement) == a + replacement + b
    decreases |a|
  {
    var s := a + pattern + b;
    if a == [] {
      assert s == pattern + b;
      assert s[..|pattern|] == pattern;
      assert s[|pattern|..] == b;
    } else {
      assert s[0] == a[0] != pattern[0];
      assert !StartsWith(s, pattern);
      assert s[1..] == a[1..] + pattern + b;
      ReplaceFirstAfter(a[1..], pattern, b, replacement);
      assert ReplaceFirst(s, pattern, replacement) == [s[0]] + ReplaceFirst(s[1..], pattern, replacement);
      assert [a[0]] + (a[1..] + replacement + b) == a + replacement + b;
    }
  }

  /** A name that starts and ends with ".md" is ".md" itself, or keeps a '.'
      after its first three characters. */
  lemma DotAfterPrefix(f: string)
    requires StartsWith(f, ".md") && EndsWith(f, ".md")
    ensures |f| == 3 || '.' in f[3..]
  {
    assert f[1] == f[..3][1] == 'm' && f[2] == f[..3][2] == 'd';
    assert f[|f| - 3] == f[|f| - 3..][0] == '.';
    if |f| >= 6 {
      assert f[3..][|f| - 6] == f[|f| - 3];
    }
  }

  /** Removing the first ".md" from a name that ends in ".md" leaves a
      dot-free stem only when that ".md" was the final suffix. */
  lemma {:induction false} StripMdStem(f: string)
    requires EndsWith(f, ".md")
    requires '.' !in ReplaceFirst(f, ".md", "")
    ensures f == ReplaceFirst(f, ".md", "") + ".md"
    decreases |f|
  {
    var r := ReplaceFirst(f, ".md", "");
    if StartsWith(f, ".md") {
      // the final ".md" is this one: any later one would leave a '.' in `r`
      assert r == f[3..];
      DotAfterPrefix(f);
    } else {
      assert f != [] && |f| > 3;
      assert r == [f[0]] + ReplaceFirst(f[1..], ".md", "");
      assert f[1..][|f| - 4..] == f[|f| - 3..];
      StripMdStem(f[1..]);
    }
  }

  /** `part` occurs somewhere in `doc`; used to state that a document contains
      several pieces one after the other. */
  ghost predicate InOrder(doc: string, parts: seq<string>)
    decreases |parts|
  {
    parts == [] || exists i :: OccursAt(doc, parts[0], i) && InOrder(doc[i + |parts[0]|..], parts[1..])
  }

  lemma InOrderCons(pre: string, part: string, rest: string, parts: seq<string>)
    requires InOrder(rest, parts)
    ensures InOrder(pre + part + rest, [part] + parts)
  {
    var doc := pre + part + rest;
    var all := [part] + parts;
    assert doc[|pre|..|pre| + |part|] == part;
    assert doc[|pre| + |part|..] == rest;
    assert all[0] == part && all[1..] == parts;
    assert OccursAt(doc, all[0], |pre|) && InOrder(doc[|pre| + |all[0]|..], all[1..]);
  }
}
