/** The release script `scripts/set-build-version.js`: which version a
    build gets, and how it is written into `package.json`,
    `src-tauri/tauri.conf.json` and `src-tauri/Cargo.toml`. The environment,
    the output of `git rev-list --count HEAD` and the clock are parameters;
    the JSON files are given as their parsed top-level objects. */
module BuildVersion {
  import opened Wrappers
  import opened Text
  import opened JsNumber

  const TagPrefix := "refs/tags/v"
  const FallbackPrefix := "0.1."

  /** `getBuildNumber`: `GITHUB_RUN_NUMBER` when set and non-empty; else
      the trimmed output of `git rev-list --count HEAD` when the command
      succeeded and printed something; else the current Unix time in whole
      seconds. */
  function BuildNumber(runNumber: Option<string>, revListOutput: Option<string>, nowMillis: nat): (b: string)
    ensures runNumber.Some? && runNumber.value != [] ==> b == runNumber.value
    ensures (runNumber.None? || runNumber.value == []) && revListOutput.Some? && Trim(revListOutput.value) != [] ==>
      b == Trim(revListOutput.value)
    ensures (runNumber.None? || runNumber.value == []) && (revListOutput.None? || Trim(revListOutput.value) == []) ==>
      ParseInt(b, 10) == Some(nowMillis / 1000)
    ensures b != []
  {
    if runNumber.Some? && runNumber.value != [] then runNumber.value
    else if revListOutput.Some? && Trim(revListOutput.value) != [] then Trim(revListOutput.value)
    else
      ParseIntDecimal(nowMillis / 1000);
      IntToString(nowMillis / 1000)
  }

  /** The version of `main`: `BASITUNE_VERSION` when set and non-empty;
      else, for a `GITHUB_REF` starting with `refs/tags/v`, what follows
      that prefix (the first occurrence, which `replace` removes, is the
      prefix itself) when it is non-empty; else "0.1." and the build
      number. A ref that is exactly `refs/tags/v` thus falls through to the
      build number. */
  function SelectVersion(basituneVersion: Option<string>, githubRef: Option<string>, buildNumber: string): (v: string)
    ensures basituneVersion.Some? && basituneVersion.value != [] ==> v == basituneVersion.value
    ensures (basituneVersion.None? || basituneVersion.value == []) && githubRef.Some?
            && StartsWith(githubRef.value, TagPrefix) && |githubRef.value| > |TagPrefix| ==>
      v == githubRef.value[|TagPrefix|..]
    ensures (basituneVersion.None? || basituneVersion.value == [])
            && (githubRef.None? || !StartsWith(githubRef.value, TagPrefix) || |githubRef.value| == |TagPrefix|) ==>
      v == FallbackPrefix + buildNumber
  {
    var tagRef := githubRef.GetOr([]);
    var fromTag := if StartsWith(tagRef, TagPrefix) then tagRef[|TagPrefix|..] else [];
    if basituneVersion.Some? && basituneVersion.value != [] then basituneVersion.value
    else if fromTag != [] then fromTag
    else FallbackPrefix + buildNumber
  }

  /** The version is never empty, whatever the environment. */
  lemma VersionNeverEmpty(basituneVersion: Option<string>, githubRef: Option<string>,
                          runNumber: Option<string>, revListOutput: Option<string>, nowMillis: nat)
    ensures SelectVersion(basituneVersion, githubRef, BuildNumber(runNumber, revListOutput, nowMillis)) != []
  {
  }

  /** A JSON value. Objects are maps: the key order of the written file is
      not modelled. */
  datatype Json =
    | JNull
    | JBool(b: bool)
    | JNumber(n: real)
    | JString(s: string)
    | JArray(items: seq<Json>)
    | JObject(fields: map<string, Json>)

  /** The update of `package.json`: its `version` is set. */
  function UpdatePackageJson(pkg: map<string, Json>, version: string): (r: map<string, Json>)
    ensures "version" in r && r["version"] == JString(version)
    ensures r.Keys == pkg.Keys + {"version"}
    ensures forall k :: k in pkg && k != "version" ==> r[k] == pkg[k]
  {
    pkg["version" := JString(version)]
  }

  /** The update of `tauri.conf.json`: the top-level `version` is always
      set; `package.version` is set only when `package` is an object (an
      array passes the script's test too, but a property set on it does not
      appear in the written JSON, so it is left as it is). Every other
      entry is kept. */
  function UpdateTauriConf(cfg: map<string, Json>, version: string): (r: map<string, Json>)
    ensures "version" in r && r["version"] == JString(version)
    ensures r.Keys == cfg.Keys + {"version"}
    ensures forall k :: k in cfg && k != "version" && k != "package" ==> r[k] == cfg[k]
    ensures "package" in cfg && cfg["package"].JObject? ==>
      r["package"] == JObject(cfg["package"].fields["version" := JString(version)])
    ensures "package" in cfg && !cfg["package"].JObject? ==> r["package"] == cfg["package"]
  {
    var withVersion := cfg["version" := JString(version)];
    if "package" in cfg && cfg["package"].JObject? then
      withVersion["package" := JObject(cfg["package"].fields["version" := JString(version)])]
    else withVersion
  }

  /** Whitespace for `\s` in a script regular expression. */
  predicate IsJsSpace(c: char) {
    c == '\t' || c == '\n' || c == '\U{0B}' || c == '\U{0C}' || c == '\r' || c == ' '
    || c == '\U{A0}' || c == '\U{1680}' || ('\U{2000}' <= c <= '\U{200A}') || c == '\U{2028}' || c == '\U{2029}'
    || c == '\U{202F}' || c == '\U{205F}' || c == '\U{3000}' || c == '\U{FEFF}'
  }

  /** The characters after which `^` matches in multiline mode. */
  predicate IsLineTerminator(c: char) {
    c == '\n' || c == '\r' || c == '\U{2028}' || c == '\U{2029}'
  }

  /** `^` in multiline mode matches at `i`. */
  predicate LineStart(s: string, i: nat) {
    i == 0 || (i <= |s| && IsLineTerminator(s[i - 1]))
  }

  /** The end of the longest run of whitespace from `i`. */
  function SkipSpaces(s: string, i: nat): (j: nat)
    requires i <= |s|
    ensures i <= j <= |s| && (j == |s| || !IsJsSpace(s[j]))
    ensures forall p :: i <= p < j ==> IsJsSpace(s[p])
    decreases |s| - i
  {
    if i < |s| && IsJsSpace(s[i]) then SkipSpaces(s, i + 1) else i
  }

  /** The end of the longest run of characters other than `"` from `i`. */
  function SkipToQuote(s: string, i: nat): (j: nat)
    requires i <= |s|
    ensures i <= j <= |s| && (j == |s| || s[j] == '"')
    ensures forall p :: i <= p < j ==> s[p] != '"'
    decreases |s| - i
  {
    if i < |s| && s[i] != '"' then SkipToQuote(s, i + 1) else i
  }

  /** Where a match of `^version\s*=\s*"[^"]*"` (multiline) starting at
      `i` ends, if there is one. Each run is greedy and cannot give back
      characters (the character that ends it is the one the pattern needs
      next), so the match is unique. */
  function VersionMatchAt(s: string, i: nat): (m: Option<nat>)
    requires i <= |s|
    ensures m.Some? ==> i + 7 < m.value <= |s| && LineStart(s, i) && s[i..i + 7] == "version" && s[m.value - 1] == '"'
  {
    if LineStart(s, i) && i + 7 <= |s| && s[i..i + 7] == "version" then
      var eq := SkipSpaces(s, i + 7);
      if eq < |s| && s[eq] == '=' then
        var open := SkipSpaces(s, eq + 1);
        if open < |s| && s[open] == '"' then
          var close := SkipToQuote(s, open + 1);
          if close < |s| then Some(close + 1) else None
        else None
      else None
    else None
  }

  /** The leftmost match at or after `i`, as its start and end. */
  function FirstVersionMatch(s: string, i: nat): (m: Option<(nat, nat)>)
    requires i <= |s|
    ensures m.Some? ==> i <= m.value.0 < m.value.1 <= |s| && VersionMatchAt(s, m.value.0) == Some(m.value.1)
    ensures m.Some? ==> forall p :: i <= p < m.value.0 ==> VersionMatchAt(s, p).None?
    ensures m.None? ==> forall p :: i <= p <= |s| ==> VersionMatchAt(s, p).None?
    decreases |s| - i
  {
    match VersionMatchAt(s, i)
    case Some(e) => Some((i, e))
    case None => if i == |s| then None else FirstVersionMatch(s, i + 1)
  }

  /** The line written into `Cargo.toml`. */
  function WrittenLine(version: string): string {
    "version = \"" + version + "\""
  }

  /** The update of `Cargo.toml`: only the first `version = "..."` that
      starts a line is replaced, by `version = "{version}"`; the rest of
      the text is kept. With no such line the text is unchanged. */
  function UpdateCargoToml(content: string, version: string): (r: string)
    ensures FirstVersionMatch(content, 0).None? ==> r == content
    ensures FirstVersionMatch(content, 0).Some? ==>
      var (start, end) := FirstVersionMatch(content, 0).value;
      && r == content[..start] + WrittenLine(version) + content[end..]
      && LineStart(content, start)
      && forall p :: 0 <= p < start ==> VersionMatchAt(content, p).None?
  {
    match FirstVersionMatch(content, 0)
    case None => content
    case Some((start, end)) => content[..start] + WrittenLine(version) + content[end..]
  }

  /** The written line is itself a version line: put after a line break
      (or at the very start), as `UpdateCargoToml` puts it, and free of
      double quotes, it is matched where it was put, up to its closing
      quote. */
  lemma SplicedLineMatches(s: string, before: string, after: string, version: string)
    requires '"' !in version
    requires before == [] || IsLineTerminator(before[|before| - 1])
    requires s == before + WrittenLine(version) + after
    ensures VersionMatchAt(s, |before|) == Some(|before| + |WrittenLine(version)|)
  {
    var line := WrittenLine(version);
    assert s[|before|..|before| + |line|] == line;
    assert LineStart(s, |before|) by {
      if before != [] {
        assert s[|before| - 1] == before[|before| - 1];
      }
    }
    LiteralLineMatches(s, |before|, version);
  }

  /** A line start followed by `version = "{run}"`, with no quote in the
      run, is a match ending after the closing quote. */
  lemma LiteralLineMatches(s: string, i: nat, run: string)
    requires '"' !in run && LineStart(s, i)
    requires i + |WrittenLine(run)| <= |s| && s[i..i + |WrittenLine(run)|] == WrittenLine(run)
    ensures VersionMatchAt(s, i) == Some(i + |WrittenLine(run)|)
  {
    LiteralLineChars(s, i, run);
    assert SkipSpaces(s, i + 8) == i + 8;
    assert SkipSpaces(s, i + 7) == i + 8;
    assert SkipSpaces(s, i + 10) == i + 10;
    assert SkipSpaces(s, i + 9) == i + 10;
    SkipToQuoteOver(s, i + 11, run);
  }

  /** The characters of a written line, position by position. */
  lemma LiteralLineChars(s: string, i: nat, run: string)
    requires i + |WrittenLine(run)| <= |s| && s[i..i + |WrittenLine(run)|] == WrittenLine(run)
    ensures |WrittenLine(run)| == 12 + |run|
    ensures s[i..i + 7] == "version"
    ensures s[i + 7] == ' ' && s[i + 8] == '=' && s[i + 9] == ' ' && s[i + 10] == '"'
    ensures s[i + 11..i + 11 + |run|] == run && s[i + 11 + |run|] == '"'
  {
    var line := WrittenLine(run);
    forall k | 0 <= k < |line|
      ensures s[i + k] == line[k]
    {
      assert s[i..i + |line|][k] == s[i + k];
    }
    assert s[i..i + 7] == line[..7];
    assert s[i + 11..i + 11 + |run|] == run by {
      forall k | 0 <= k < |run|
        ensures s[i + 11 + k] == run[k]
      {
        assert line[11 + k] == run[k];
      }
    }
    assert s[i + 11 + |run|] == line[11 + |run|];
  }

  /** Over a run free of `"` followed by one, the skip lands on that
      quote. */
  lemma {:induction false} SkipToQuoteOver(s: string, i: nat, run: string)
    requires i + |run| < |s| && s[i..i + |run|] == run && '"' !in run && s[i + |run|] == '"'
    ensures SkipToQuote(s, i) == i + |run|
    decreases |run|
  {
    if run != [] {
      assert s[i] == run[0];
      assert s[i + 1..i + 1 + |run[1..]|] == run[1..];
      SkipToQuoteOver(s, i + 1, run[1..]);
    }
  }
}
