/** String helpers shared by the page scripts (JavaScript `String.prototype`)
    and the backend (Rust `str`). Strings are sequences of Unicode scalar
    values; whitespace covers ASCII and U+00A0, case mapping ASCII and
    Latin-1 only. */
module Text {

  /** Whitespace removed by `trim` in both languages: the ASCII set and
      U+00A0. Rust also removes U+0085, JavaScript does not; neither that nor
      the wider Unicode spaces are included. */
  predicate IsSpace(c: char) {
    c == ' ' || c == '\t' || c == '\n' || c == '\r' || c == '\U{000B}' || c == '\U{000C}' || c == '\U{00A0}'
  }

  /** Neither end of `s` is whitespace. */
  predicate IsTrimmed(s: string) {
    s == [] || (!IsSpace(s[0]) && !IsSpace(s[|s| - 1]))
  }

  /** Number of whitespace characters at the start of `s`. */
  function LeadingSpaces(s: string): (k: nat)
    ensures k <= |s|
    ensures k < |s| ==> !IsSpace(s[k])
  {
    if s != [] && IsSpace(s[0]) then 1 + LeadingSpaces(s[1..]) else 0
  }

  /** What `LeadingSpaces` counts is all whitespace. */
  lemma {:induction false} LeadingSpacesAreSpaces(s: string)
    ensures forall i :: 0 <= i < LeadingSpaces(s) ==> IsSpace(s[i])
    decreases |s|
  {
    if s != [] && IsSpace(s[0]) {
      LeadingSpacesAreSpaces(s[1..]);
    }
  }

  /** Number of whitespace characters at the end of `s`. */
  function TrailingSpaces(s: string): (k: nat)
    ensures k <= |s|
    ensures k < |s| ==> !IsSpace(s[|s| - k - 1])
  {
    if s != [] && IsSpace(s[|s| - 1]) then 1 + TrailingSpaces(s[..|s| - 1]) else 0
  }

  /** What `TrailingSpaces` counts is all whitespace. */
  lemma {:induction false} TrailingSpacesAreSpaces(s: string)
    ensures forall i :: |s| - TrailingSpaces(s) <= i < |s| ==> IsSpace(s[i])
    decreases |s|
  {
    if s != [] && IsSpace(s[|s| - 1]) {
      TrailingSpacesAreSpaces(s[..|s| - 1]);
    }
  }

  /** `trimStart()` / `str::trim_start`. */
  function TrimStart(s: string): string {
    s[LeadingSpaces(s)..]
  }

  /** `trimEnd()` / `str::trim_end`. */
  function TrimEnd(s: string): string {
    s[..|s| - TrailingSpaces(s)]
  }

  /** `trim()` / `str::trim`: the longest middle part of `s` whose ends are not
      whitespace; everything removed is whitespace. */
  function Trim(s: string): (r: string)
    ensures IsTrimmed(r)
    ensures Contains(s, r)
  {
    var t := TrimStart(s);
    var r := TrimEnd(t);
    assert OccursAt(s, r, |s| - |t|);
    r
  }

  lemma TrimOfTrimmed(s: string)
    requires IsTrimmed(s)
    ensures Trim(s) == s
  {
  }

  /** Applying trim twice gives the same as once. */
  lemma TrimIdempotent(s: string)
    ensures Trim(Trim(s)) == Trim(s)
  {
    TrimOfTrimmed(Trim(s));
  }

  /** A string of whitespace only trims to the empty string. */
  lemma {:induction false} AllSpacesTrimToEmpty(s: string)
    requires forall i :: 0 <= i < |s| ==> IsSpace(s[i])
    ensures Trim(s) == []
    decreases |s|
  {
    if s != [] {
      AllSpacesTrimToEmpty(s[1..]);
      assert LeadingSpaces(s) == |s|;
    }
  }

  predicate StartsWith(s: string, prefix: string) {
    |prefix| <= |s| && s[..|prefix|] == prefix
  }

  /** `sub` occurs in `s` starting at index `i`. */
  predicate OccursAt(s: string, sub: string, i: int) {
    0 <= i <= |s| - |sub| && s[i..i + |sub|] == sub
  }

  /** `includes` / `str::contains`. */
  predicate Contains(s: string, sub: string) {
    exists i :: 0 <= i <= |s| && OccursAt(s, sub, i)
  }

  /** A string occurs in any text built around it. */
  lemma ContainsMiddle(a: string, b: string, c: string)
    ensures Contains(a + b + c, b)
  {
    assert OccursAt(a + b + c, b, |a|);
  }

  /** Text added at either end keeps every occurrence. */
  lemma ContainsExtend(a: string, b: string, c: string)
    requires Contains(a, b)
    ensures Contains(a + c, b) && Contains(c + a, b)
  {
    var i :| 0 <= i <= |a| && OccursAt(a, b, i);
    assert (a + c)[i..i + |b|] == a[i..i + |b|];
    assert OccursAt(a + c, b, i);
    assert (c + a)[|c| + i..|c| + i + |b|] == a[i..i + |b|];
    assert OccursAt(c + a, b, |c| + i);
  }

  /** The largest start index `i <= k` of an occurrence of `sub`, or -1. */
  function LastIndexAtOrBefore(s: string, sub: string, k: int): (r: int)
    requires k <= |s| - |sub|
    ensures r == -1 || 0 <= r <= k
    ensures r >= 0 ==> OccursAt(s, sub, r)
    ensures forall j :: r < j <= k ==> !OccursAt(s, sub, j)
    decreases k + 1
  {
    if k < 0 then -1
    else if s[k..k + |sub|] == sub then k
    else LastIndexAtOrBefore(s, sub, k - 1)
  }

  /** `lastIndexOf`: the start of the last occurrence of `sub`, or -1. */
  function LastIndexOf(s: string, sub: string): (r: int)
    ensures r == -1 || 0 <= r <= |s| - |sub|
    ensures r >= 0 ==> OccursAt(s, sub, r)
    ensures forall j :: r < j ==> !OccursAt(s, sub, j)
    ensures r == -1 <==> !Contains(s, sub)
  {
    LastIndexAtOrBefore(s, sub, |s| - |sub|)
  }

  /** Split at every `sep`; there is always one more part than separators. */
  function SplitOn(s: string, sep: char): (parts: seq<string>)
    ensures |parts| >= 1
    ensures forall i :: 0 <= i < |parts| ==> sep !in parts[i]
    decreases |s|
  {
    if s == [] then [[]]
    else
      var rest := SplitOn(s[1..], sep);
      if s[0] == sep then [[]] + rest
      else [[s[0]] + rest[0]] + rest[1..]
  }

  /** `parts.join(sep)` / `Vec::join`. */
  function Join(parts: seq<string>, sep: string): string {
    if |parts| == 0 then []
    else if |parts| == 1 then parts[0]
    else parts[0] + sep + Join(parts[1..], sep)
  }

  /** Joining what was split gives back the original string. */
  lemma {:induction false} JoinSplit(s: string, sep: char)
    ensures Join(SplitOn(s, sep), [sep]) == s
    decreases |s|
  {
    if s != [] {
      var rest := SplitOn(s[1..], sep);
      JoinSplit(s[1..], sep);
      if s[0] == sep {
        assert SplitOn(s, sep) == [[]] + rest;
        assert Join([[]] + rest, [sep]) == [] + [sep] + Join(rest, [sep]);
      } else {
        var parts := [[s[0]] + rest[0]] + rest[1..];
        assert SplitOn(s, sep) == parts;
        if |rest| == 1 {
          assert Join(parts, [sep]) == [s[0]] + rest[0];
        } else {
          assert parts[1..] == rest[1..];
          assert Join(rest, [sep]) == rest[0] + [sep] + Join(rest[1..], [sep]);
          assert Join(parts, [sep]) == [s[0]] + rest[0] + [sep] + Join(rest[1..], [sep]);
        }
      }
    }
  }

  /** A string that contains `sep` splits into at least two parts. */
  lemma {:induction false} SplitOnContaining(s: string, sep: char)
    requires sep in s
    ensures |SplitOn(s, sep)| >= 2
    decreases |s|
  {
    if s[0] != sep {
      assert sep in s[1..];
      SplitOnContaining(s[1..], sep);
    }
  }

  function DropCarriageReturn(line: string): string {
    if line != [] && line[|line| - 1] == '\r' then line[..|line| - 1] else line
  }

  /** Rust's `str::lines`: split at '\n', strip one '\r' before each '\n',
      and produce no final empty line after a trailing '\n'. */
  function Lines(s: string): (lines: seq<string>)
    ensures forall i :: 0 <= i < |lines| ==> '\n' !in lines[i]
  {
    if s == [] then []
    else
      var parts := SplitOn(s, '\n');
      var ended := seq(|parts| - 1, i requires 0 <= i < |parts| - 1 => DropCarriageReturn(parts[i]));
      if parts[|parts| - 1] == [] then ended else ended + [parts[|parts| - 1]]
  }

  /** Rust's `str::replace(char, &str)`: every occurrence of `c` is replaced. */
  function ReplaceAll(s: string, c: char, repl: string): (r: string)
    ensures c !in s ==> r == s
  {
    if s == [] then []
    else (if s[0] == c then repl else [s[0]]) + ReplaceAll(s[1..], c, repl)
  }

  /** `indexOf` for one character: the first index of `c`, or -1. */
  function IndexOfChar(s: string, c: char): (r: int)
    ensures -1 <= r < |s|
    ensures r >= 0 ==> s[r] == c && c !in s[..r]
    ensures r == -1 <==> c !in s
  {
    if s == [] then -1
    else if s[0] == c then 0
    else
      var k := IndexOfChar(s[1..], c);
      assert k >= 0 ==> s[..k + 1] == [s[0]] + s[1..][..k];
      if k < 0 then -1 else k + 1
  }

  /** Splitting peels off the text before the first separator: without a
      separator the whole string is the one part; otherwise the first part
      ends at the first separator and the rest is the split of what follows. */
  lemma {:induction false} SplitOnFirst(s: string, sep: char)
    ensures IndexOfChar(s, sep) < 0 ==> SplitOn(s, sep) == [s]
    ensures IndexOfChar(s, sep) >= 0 ==>
      SplitOn(s, sep) == [s[..IndexOfChar(s, sep)]] + SplitOn(s[IndexOfChar(s, sep) + 1..], sep)
    decreases |s|
  {
    if s != [] && s[0] != sep {
      SplitOnFirst(s[1..], sep);
      var k := IndexOfChar(s[1..], sep);
      if k >= 0 {
        assert s[k + 2..] == s[1..][k + 1..];
        assert s[..k + 1] == [s[0]] + s[1..][..k];
      } else {
        assert [s[0]] + s[1..] == s;
      }
    }
  }

  /** JavaScript's `String.prototype.replace` with a one-character string
      pattern: only the first occurrence is replaced. */
  function ReplaceFirst(s: string, c: char, repl: string): string {
    var i := IndexOfChar(s, c);
    if i < 0 then s else s[..i] + repl + s[i + 1..]
  }

  /** Lower-case mapping of `toLowerCase` / `to_lowercase` for ASCII and
      Latin-1 capitals (and U+0178, whose lower case is U+00FF). */
  function LowerChar(c: char): char {
    if 'A' <= c <= 'Z' then (c as int + 32) as char
    else if '\U{00C0}' <= c <= '\U{00DE}' && c != '\U{00D7}' then (c as int + 32) as char
    else if c == '\U{0178}' then '\U{00FF}'
    else c
  }

  predicate IsUpper(c: char) {
    ('A' <= c <= 'Z') || ('\U{00C0}' <= c <= '\U{00DE}' && c != '\U{00D7}') || c == '\U{0178}'
  }

  function ToLower(s: string): (r: string)
    ensures |r| == |s|
    ensures forall i :: 0 <= i < |s| ==> r[i] == LowerChar(s[i])
  {
    seq(|s|, i requires 0 <= i < |s| => LowerChar(s[i]))
  }

  /** Lower-casing never produces an upper-case letter or whitespace from a
      non-whitespace character. */
  lemma LowerCharFacts(c: char)
    ensures !IsUpper(LowerChar(c))
    ensures IsSpace(LowerChar(c)) <==> IsSpace(c)
    ensures LowerChar(LowerChar(c)) == LowerChar(c)
    ensures !IsUpper(c) ==> LowerChar(c) == c
  {
  }
}
