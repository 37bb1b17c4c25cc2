/** String helpers of the backend (`src-tauri/src/utils.rs`): the
    normalisation behind every cache key, the title cleaner and the
    line-trimming fallback for scraped lyrics. */
module Utils {
  import opened Text

  /** The accent table of `normalize_string`, applied after lower-casing:
      the lower-case Latin-1 vowels with diacritics, `ñ` and `ç` become
      their ASCII base letter; every other character is kept. */
  function FoldAccent(c: char): char {
    if c == '\U{00E4}' || c == '\U{00E1}' || c == '\U{00E0}' || c == '\U{00E2}' || c == '\U{00E3}' || c == '\U{00E5}' then 'a'
    else if c == '\U{00EB}' || c == '\U{00E9}' || c == '\U{00E8}' || c == '\U{00EA}' then 'e'
    else if c == '\U{00EF}' || c == '\U{00ED}' || c == '\U{00EC}' || c == '\U{00EE}' then 'i'
    else if c == '\U{00F6}' || c == '\U{00F3}' || c == '\U{00F2}' || c == '\U{00F4}' || c == '\U{00F5}' then 'o'
    else if c == '\U{00FC}' || c == '\U{00FA}' || c == '\U{00F9}' || c == '\U{00FB}' then 'u'
    else if c == '\U{00FF}' || c == '\U{00FD}' then 'y'
    else if c == '\U{00F1}' then 'n'
    else if c == '\U{00E7}' then 'c'
    else c
  }

  /** A character `normalize_string` can produce from a non-blank one:
      not upper-case and not in the accent table. */
  predicate IsNormalChar(c: char) {
    !IsUpper(c) && FoldAccent(c) == c
  }

  /** What one character becomes: lower-cased, then folded. */
  function NormalChar(c: char): (r: char)
    ensures IsNormalChar(r)
    ensures IsSpace(r) <==> IsSpace(c)
    ensures IsNormalChar(c) ==> r == c
  {
    LowerCharFacts(c);
    FoldAccentFacts(LowerChar(c));
    FoldAccent(LowerChar(c))
  }

  /** Folding keeps a character that is not upper-case so, is done after
      one application, and neither makes nor removes whitespace. */
  lemma FoldAccentFacts(c: char)
    ensures !IsUpper(c) ==> !IsUpper(FoldAccent(c))
    ensures FoldAccent(FoldAccent(c)) == FoldAccent(c)
    ensures IsSpace(FoldAccent(c)) <==> IsSpace(c)
  {
  }

  /** `normalize_string`: trimmed, lower-cased, accents folded. */
  function NormalizeString(s: string): (r: string)
    ensures |r| == |Trim(s)|
    ensures IsTrimmed(r)
    ensures forall i :: 0 <= i < |r| ==> IsNormalChar(r[i]) && r[i] == NormalChar(Trim(s)[i])
  {
    var t := Trim(s);
    var r := seq(|t|, i requires 0 <= i < |t| => NormalChar(t[i]));
    EachCharNormal(t, r);
    r
  }

  lemma EachCharNormal(t: string, r: string)
    requires |r| == |t| && forall i :: 0 <= i < |t| ==> r[i] == NormalChar(t[i])
    ensures forall i :: 0 <= i < |r| ==> IsNormalChar(r[i])
    ensures IsTrimmed(t) ==> IsTrimmed(r)
  {
    forall i | 0 <= i < |r|
      ensures IsNormalChar(r[i])
    {
      assert r[i] == NormalChar(t[i]);
    }
  }

  /** Normalising a normalised string changes nothing, so a cache key
      built from stored keys is the key itself. */
  lemma NormalizeIdempotent(s: string)
    ensures NormalizeString(NormalizeString(s)) == NormalizeString(s)
  {
    var n := NormalizeString(s);
    TrimOfTrimmed(n);
  }

  /** Letter case does not matter: a name and its lower-cased form give
      the same key. */
  lemma NormalizeIgnoresCase(s: string)
    ensures NormalizeString(ToLower(s)) == NormalizeString(s)
  {
    var u := Trim(s);
    TrimOfLower(s);
    var a, b := NormalizeString(ToLower(s)), NormalizeString(s);
    forall i | 0 <= i < |a|
      ensures a[i] == b[i]
    {
      assert a[i] == NormalChar(ToLower(u)[i]) && b[i] == NormalChar(u[i]);
      LowerCharFacts(u[i]);
    }
  }

  /** Trimming commutes with lower-casing, which neither makes nor removes
      whitespace. */
  lemma TrimOfLower(s: string)
    ensures Trim(ToLower(s)) == ToLower(Trim(s))
  {
    TrimStartLower(s);
    TrimEndLower(TrimStart(s));
  }

  lemma TrimStartLower(s: string)
    ensures TrimStart(ToLower(s)) == ToLower(TrimStart(s))
  {
    LeadingSpacesLower(s);
  }

  lemma TrimEndLower(s: string)
    ensures TrimEnd(ToLower(s)) == ToLower(TrimEnd(s))
  {
    TrailingSpacesLower(s);
  }

  lemma {:induction false} LeadingSpacesLower(s: string)
    ensures LeadingSpaces(ToLower(s)) == LeadingSpaces(s)
    decreases |s|
  {
    if s != [] {
      LowerCharFacts(s[0]);
      assert ToLower(s)[1..] == ToLower(s[1..]);
      LeadingSpacesLower(s[1..]);
    }
  }

  lemma {:induction false} TrailingSpacesLower(s: string)
    ensures TrailingSpaces(ToLower(s)) == TrailingSpaces(s)
    decreases |s|
  {
    if s != [] {
      LowerCharFacts(s[|s| - 1]);
      assert ToLower(s)[..|s| - 1] == ToLower(s[..|s| - 1]);
      TrailingSpacesLower(s[..|s| - 1]);
    }
  }

  /** The number of bytes of `s` in UTF-8 (Rust's `str::len`). */
  function Utf8Length(s: string): (n: nat)
    ensures n >= |s|
  {
    if s == [] then 0
    else
      var c := s[0] as int;
      (if c < 0x80 then 1 else if c < 0x800 then 2 else if c < 0x10000 then 3 else 4) + Utf8Length(s[1..])
  }

  /** A string of fewer than two bytes is empty or one ASCII character. */
  lemma ShortIsAscii(s: string)
    ensures Utf8Length(s) < 2 <==> s == [] || (|s| == 1 && s[0] as int < 0x80)
  {
    if |s| >= 2 {
      assert Utf8Length(s[1..]) >= 1;
    }
  }

  /** A first line `clean_lyrics_with_regex` drops: after trimming it is
      empty, mentions page furniture, is a link or is under two bytes. */
  predicate LeadingJunk(line: string) {
    var t := Trim(line);
    t == [] || Contains(t, "Contributors") || Contains(t, "Embed") || Contains(t, "Share")
    || Contains(t, "URL") || Contains(t, "Genius") || StartsWith(t, "http") || Utf8Length(t) < 2
  }

  /** A last line it drops: the same test without "Contributors",
      "Genius" and links. */
  predicate TrailingJunk(line: string) {
    var t := Trim(line);
    t == [] || Contains(t, "Embed") || Contains(t, "Share") || Contains(t, "URL") || Utf8Length(t) < 2
  }

  /** A line dropped at the end is one that would also be dropped at the
      start. */
  lemma TrailingJunkIsLeadingJunk(line: string)
    ensures TrailingJunk(line) ==> LeadingJunk(line)
  {
  }

  /** The converse fails: a line mentioning "Genius" is dropped only at
      the start. */
  lemma GeniusLineKeptAtEnd()
    ensures !TrailingJunk("Genius Lyrics") && LeadingJunk("Genius Lyrics")
  {
    GeniusLineNotTrailing("Genius Lyrics");
    GeniusLineLeading("Genius Lyrics");
  }

  lemma GeniusLineLeading(g: string)
    requires g == "Genius Lyrics"
    ensures LeadingJunk(g)
  {
    TrimOfTrimmed(g);
    assert OccursAt(g, "Genius", 0);
  }

  lemma GeniusLineNotTrailing(g: string)
    requires g == "Genius Lyrics"
    ensures !TrailingJunk(g)
  {
    TrimOfTrimmed(g);
    assert forall i :: 0 <= i < |g| ==> g[i] != 'E' && g[i] != 'S' && g[i] != 'U';
    FirstLetterAbsent(g, "Embed");
    FirstLetterAbsent(g, "Share");
    FirstLetterAbsent(g, "URL");
    assert Utf8Length(g) >= |g|;
  }

  /** A word whose first letter does not occur in `s` does not occur in `s`. */
  lemma FirstLetterAbsent(s: string, word: string)
    requires word != [] && forall i :: 0 <= i < |s| ==> s[i] != word[0]
    ensures !Contains(s, word)
  {
    forall i | 0 <= i <= |s|
      ensures !OccursAt(s, word, i)
    {
      if i + |word| <= |s| {
        assert s[i..i + |word|][0] == s[i];
      }
    }
  }

  /** The length of the longest prefix of `lines` whose every line is
      `junk`: how many lines a `remove(0)` loop drops. */
  function JunkPrefix(lines: seq<string>, junk: string -> bool): (k: nat)
    ensures k <= |lines|
    ensures forall i :: 0 <= i < k ==> junk(lines[i])
    ensures k < |lines| ==> !junk(lines[k])
    decreases |lines|
  {
    if lines != [] && junk(lines[0]) then 1 + JunkPrefix(lines[1..], junk) else 0
  }

  /** The length of the longest suffix of `lines` whose every line is
      `junk`: how many lines a `pop()` loop drops. */
  function JunkSuffix(lines: seq<string>, junk: string -> bool): (k: nat)
    ensures k <= |lines|
    ensures forall i :: |lines| - k <= i < |lines| ==> junk(lines[i])
    ensures k < |lines| ==> !junk(lines[|lines| - 1 - k])
    decreases |lines|
  {
    if lines != [] && junk(lines[|lines| - 1]) then 1 + JunkSuffix(lines[..|lines| - 1], junk) else 0
  }

  /** The lines left once the leading `lead` lines are removed and then
      the trailing `trail` lines of what is left. */
  function KeptLinesOf(all: seq<string>, lead: string -> bool, trail: string -> bool): seq<string> {
    var rest := all[JunkPrefix(all, lead)..];
    rest[..|rest| - JunkSuffix(rest, trail)]
  }

  /** The lines `clean_lyrics_with_regex` keeps: leading junk removed
      first, then trailing junk from what is left. */
  function KeptLines(all: seq<string>): seq<string> {
    KeptLinesOf(all, LeadingJunk, TrailingJunk)
  }

  /** What `clean_lyrics_with_regex` returns. */
  function CleanedLyrics(lyrics: string): string {
    Trim(Join(KeptLines(Lines(lyrics)), "\n"))
  }

  /** `all[lo..hi]` is a run whose every line before `lo` is `lead` junk
      and the line at `lo` is not, and whose every line from `hi` on is
      `trail` junk and the line before `hi` is not. */
  predicate KeptRun(all: seq<string>, lo: int, hi: int, lead: string -> bool, trail: string -> bool) {
    && 0 <= lo <= hi <= |all|
    && (forall i :: 0 <= i < lo ==> lead(all[i]))
    && (lo < |all| ==> !lead(all[lo]))
    && (forall i :: hi <= i < |all| ==> trail(all[i]))
    && (lo < hi ==> !trail(all[hi - 1]))
  }

  /** The kept lines are one contiguous run of the input's lines, cut
      exactly at the first line that is not leading junk and after the last
      one that is not trailing junk. */
  lemma KeptLinesAreRun(all: seq<string>, lead: string -> bool, trail: string -> bool)
    ensures exists lo, hi :: KeptRun(all, lo, hi, lead, trail) && KeptLinesOf(all, lead, trail) == all[lo..hi]
  {
    var lo := JunkPrefix(all, lead);
    var rest := all[lo..];
    var k := JunkSuffix(rest, trail);
    TrimmedRun(all, rest, trail, lo, k);
    assert KeptLinesOf(all, lead, trail) == all[lo..|all| - k];
    assert KeptRun(all, lo, |all| - k, lead, trail);
  }

  /** Text whose every line is junk is cleaned to "". */
  lemma AllJunkKeepsNothing(all: seq<string>)
    requires forall i :: 0 <= i < |all| ==> LeadingJunk(all[i])
    ensures KeptLines(all) == []
  {
    assert JunkPrefix(all, LeadingJunk) == |all|;
  }

  /** The trailing-junk facts about `rest`, the lines from `lo` on, carried
      over to the indices of `all`. */
  lemma TrimmedRun(all: seq<string>, rest: seq<string>, trail: string -> bool, lo: nat, k: nat)
    requires lo <= |all| && rest == all[lo..] && k <= |rest|
    requires forall i :: |rest| - k <= i < |rest| ==> trail(rest[i])
    requires k < |rest| ==> !trail(rest[|rest| - 1 - k])
    ensures forall i :: |all| - k <= i < |all| ==> trail(all[i])
    ensures lo < |all| - k ==> !trail(all[|all| - k - 1])
  {
    forall i | |all| - k <= i < |all|
      ensures trail(all[i])
    {
      assert all[i] == rest[i - lo];
    }
    if k < |rest| {
      assert all[|all| - 1 - k] == rest[|rest| - 1 - k];
    }
  }

  /** `clean_lyrics_with_regex`: split into lines, `remove(0)` while the
      first line is junk, `pop()` while the last one is, join and trim. */
  method CleanLyricsWithRegex(lyrics: string) returns (r: string)
    ensures r == CleanedLyrics(lyrics)
  {
    var all := Lines(lyrics);
    var rest := DropLeadingJunk(all, LeadingJunk);
    var lines := DropTrailingJunk(rest, TrailingJunk);
    KeptByLoops(all, rest, lines, LeadingJunk, TrailingJunk);
    r := Trim(Join(lines, "\n"));
  }

  lemma KeptByLoops(all: seq<string>, rest: seq<string>, lines: seq<string>, lead: string -> bool, trail: string -> bool)
    requires rest == all[JunkPrefix(all, lead)..] && lines == rest[..|rest| - JunkSuffix(rest, trail)]
    ensures lines == KeptLinesOf(all, lead, trail)
  {
  }

  /** The `remove(0)` loop, for the junk test `junk`. */
  method DropLeadingJunk(all: seq<string>, junk: string -> bool) returns (lines: seq<string>)
    ensures lines == all[JunkPrefix(all, junk)..]
  {
    lines := all;
    ghost var lo := 0;
    while lines != [] && junk(lines[0])
      invariant 0 <= lo <= |all| && lines == all[lo..]
      invariant JunkPrefix(all, junk) == lo + JunkPrefix(lines, junk)
      decreases |lines|
    {
      SliceFront(all, lo);
      lines := lines[1..];
      lo := lo + 1;
    }
  }

  /** The `pop()` loop, for the junk test `junk`. */
  method DropTrailingJunk(start: seq<string>, junk: string -> bool) returns (lines: seq<string>)
    ensures lines == start[..|start| - JunkSuffix(start, junk)]
  {
    lines := start;
    ghost var hi := |start|;
    while lines != [] && junk(lines[|lines| - 1])
      invariant 0 <= hi <= |start| && lines == start[..hi]
      invariant JunkSuffix(start, junk) == |start| - hi + JunkSuffix(lines, junk)
      decreases |lines|
    {
      SliceBack(start, hi);
      lines := lines[..|lines| - 1];
      hi := hi - 1;
    }
  }

  lemma SliceFront(all: seq<string>, lo: nat)
    requires lo < |all|
    ensures all[lo..][1..] == all[lo + 1..] && all[lo..][0] == all[lo]
  {
  }

  lemma SliceBack(all: seq<string>, hi: nat)
    requires 0 < hi <= |all|
    ensures all[..hi][..hi - 1] == all[..hi - 1] && all[..hi][hi - 1] == all[hi - 1]
  {
  }

  /** `clean_song_title`: the edition tags ("(Remastered 2003)", "[Live]",
      "- 2003 Remaster", ...) are removed by a fixed list of regular
      expressions, here the opaque `stripEditionTags`, and the rest is
      trimmed. */
  function CleanSongTitle(title: string, stripEditionTags: string -> string): (r: string)
    ensures IsTrimmed(r)
    ensures Contains(stripEditionTags(title), r)
  {
    Trim(stripEditionTags(title))
  }
}
