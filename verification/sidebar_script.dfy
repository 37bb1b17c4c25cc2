/** The decisions of the injected sidebar (`src/scripts/sidebar.js`): the
    drag-resized width, bounded font-size steps, adoption of the persisted
    state, tab switching, the song monitor, the "read more" truncation, the
    lyrics-error classification, the visualizer control table and the
    defaults of the visualizer settings it saves. DOM construction and
    styling are left out; backend calls are returned as values. */
module SidebarScript {
  import opened Wrappers
  import opened Text
  import opened JsNumber
  import Visualizer

  const MinWidth: int := 280
  const MaxWidth: int := 800
  const DefaultWidth: int := 760
  const MinFontSize: int := 10
  const MaxFontSize: int := 24
  const DefaultFontSize: int := 14
  const FontStep: int := 2

  /** The width set while dragging the handle: the start width plus how far
      the pointer moved left, clamped to [280, 800]. */
  function ResizeWidth(startWidth: int, startX: int, clientX: int): (w: int)
    ensures MinWidth <= w <= MaxWidth
    ensures MinWidth <= startWidth + (startX - clientX) <= MaxWidth ==> w == startWidth + (startX - clientX)
    ensures startWidth + (startX - clientX) < MinWidth ==> w == MinWidth
    ensures startWidth + (startX - clientX) > MaxWidth ==> w == MaxWidth
  {
    var wanted := startWidth + (startX - clientX);
    if wanted > MaxWidth then MaxWidth else if wanted < MinWidth then MinWidth else wanted
  }

  /** A persisted value is adopted only when it is truthy (not 0) and in
      range; otherwise the current value stays. */
  function Adopt(saved: int, lo: int, hi: int, current: int): (r: int)
    requires 0 < lo
    ensures lo <= saved <= hi ==> r == saved
    ensures !(lo <= saved <= hi) ==> r == current
  {
    if saved != 0 && lo <= saved && saved <= hi then saved else current
  }

  /** The three values `init` asks the backend for. */
  datatype SavedState = SavedState(visible: bool, width: int, fontSize: int)

  /** The backend commands the sidebar invokes, and the fetches it starts. */
  datatype Effect =
    | SetSidebarWidth(width: int)
    | SetSidebarFontSize(fontSize: int)
    | SetSidebarVisible(visible: bool)
    | FetchArtistInfo(artist: string)
    | FetchSongContext(title: string, artist: string)
    | FetchLyrics(title: string, artist: string)
    | UpdateDiscordPresence(title: string, artist: string)
    | InitializeVisualizer
    | LoadSettings
    | LoadAboutInfo

  /** The player bar's artist and title (trimmed), when both exist. */
  datatype Song = Song(artist: string, title: string)

  /** The sidebar's module state. `cssWidth` is the `--sidebar-width`
      property the page layout follows. */
  class Sidebar {
    var currentArtist: string
    var currentTitle: string
    var sidebarVisible: bool
    var activeTab: string
    var sidebarWidth: int
    var sidebarFontSize: int
    var isResizing: bool
    var startX: int
    var startWidth: int
    var cssWidth: int

    /** Width and font size stay within their ranges, and so does the width
        a drag started from. */
    predicate Valid()
      reads this
    {
      MinWidth <= sidebarWidth <= MaxWidth && MinWidth <= startWidth <= MaxWidth
      && MinFontSize <= sidebarFontSize <= MaxFontSize
    }

    constructor ()
      ensures Valid()
      ensures currentArtist == "" && currentTitle == "" && !sidebarVisible && activeTab == "artist"
      ensures sidebarWidth == DefaultWidth && sidebarFontSize == DefaultFontSize && !isResizing
    {
      currentArtist, currentTitle := "", "";
      sidebarVisible := false;
      activeTab := "artist";
      sidebarWidth, sidebarFontSize := DefaultWidth, DefaultFontSize;
      isResizing := false;
      startX, startWidth := 0, DefaultWidth;
      cssWidth := DefaultWidth;
    }

    /** The pre-load in `init`: on any failed call nothing changes;
        otherwise width and font size are adopted when in range and the
        visibility always. */
    method LoadSavedState(saved: Result<SavedState, string>)
      requires Valid()
      modifies this`sidebarWidth, this`sidebarFontSize, this`sidebarVisible
      ensures Valid()
      ensures saved.Err? ==> sidebarWidth == old(sidebarWidth) && sidebarFontSize == old(sidebarFontSize)
                             && sidebarVisible == old(sidebarVisible)
      ensures saved.Ok? ==>
        && sidebarWidth == Adopt(saved.value.width, MinWidth, MaxWidth, old(sidebarWidth))
        && sidebarFontSize == Adopt(saved.value.fontSize, MinFontSize, MaxFontSize, old(sidebarFontSize))
        && sidebarVisible == saved.value.visible
    {
      if saved.Ok? {
        sidebarWidth := Adopt(saved.value.width, MinWidth, MaxWidth, sidebarWidth);
        sidebarFontSize := Adopt(saved.value.fontSize, MinFontSize, MaxFontSize, sidebarFontSize);
        sidebarVisible := saved.value.visible;
      }
    }

    /** `mousedown` on the handle: a drag starts from the current width. */
    method MouseDown(clientX: int)
      requires Valid()
      modifies this`isResizing, this`startX, this`startWidth
      ensures Valid()
      ensures isResizing && startX == clientX && startWidth == sidebarWidth
    {
      isResizing := true;
      startX := clientX;
      startWidth := sidebarWidth;
    }

    /** `mousemove`: while dragging, the width follows the pointer within
        [280, 800]. */
    method MouseMove(clientX: int)
      requires Valid()
      modifies this`sidebarWidth, this`cssWidth
      ensures Valid()
      ensures isResizing ==> sidebarWidth == ResizeWidth(startWidth, startX, clientX) && cssWidth == sidebarWidth
      ensures !isResizing ==> sidebarWidth == old(sidebarWidth) && cssWidth == old(cssWidth)
    {
      if isResizing {
        sidebarWidth := ResizeWidth(startWidth, startX, clientX);
        cssWidth := sidebarWidth;
      }
    }

    /** `mouseup`: a drag ends and the width is saved. */
    method MouseUp() returns (effects: seq<Effect>)
      modifies this`isResizing
      ensures !isResizing
      ensures effects == if old(isResizing) then [SetSidebarWidth(sidebarWidth)] else []
    {
      effects := [];
      if isResizing {
        isResizing := false;
        effects := [SetSidebarWidth(sidebarWidth)];
      }
    }

    /** `decreaseFontSize`: two points smaller, not below 10; at 10 nothing
        changes and nothing is saved. */
    method DecreaseFontSize() returns (effects: seq<Effect>)
      requires Valid()
      modifies this`sidebarFontSize
      ensures Valid()
      ensures old(sidebarFontSize) > MinFontSize ==>
        sidebarFontSize == (if old(sidebarFontSize) - FontStep < MinFontSize then MinFontSize else old(sidebarFontSize) - FontStep)
        && effects == [SetSidebarFontSize(sidebarFontSize)]
      ensures old(sidebarFontSize) <= MinFontSize ==> sidebarFontSize == old(sidebarFontSize) && effects == []
    {
      effects := [];
      if sidebarFontSize > MinFontSize {
        sidebarFontSize := if sidebarFontSize - FontStep < MinFontSize then MinFontSize else sidebarFontSize - FontStep;
        effects := [SetSidebarFontSize(sidebarFontSize)];
      }
    }

    /** `increaseFontSize`: two points larger, not above 24; at 24 nothing
        changes and nothing is saved. */
    method IncreaseFontSize() returns (effects: seq<Effect>)
      requires Valid()
      modifies this`sidebarFontSize
      ensures Valid()
      ensures old(sidebarFontSize) < MaxFontSize ==>
        sidebarFontSize == (if old(sidebarFontSize) + FontStep > MaxFontSize then MaxFontSize else old(sidebarFontSize) + FontStep)
        && effects == [SetSidebarFontSize(sidebarFontSize)]
      ensures old(sidebarFontSize) >= MaxFontSize ==> sidebarFontSize == old(sidebarFontSize) && effects == []
    {
      effects := [];
      if sidebarFontSize < MaxFontSize {
        sidebarFontSize := if sidebarFontSize + FontStep > MaxFontSize then MaxFontSize else sidebarFontSize + FontStep;
        effects := [SetSidebarFontSize(sidebarFontSize)];
      }
    }

    /** `toggleSidebar`: visibility flips, the layout width becomes the
        sidebar width or 0, and the new visibility is saved. */
    method ToggleSidebar() returns (effects: seq<Effect>)
      modifies this`sidebarVisible, this`cssWidth
      ensures sidebarVisible == !old(sidebarVisible)
      ensures cssWidth == (if sidebarVisible then sidebarWidth else 0)
      ensures effects == [SetSidebarVisible(sidebarVisible)]
    {
      sidebarVisible := !sidebarVisible;
      cssWidth := if sidebarVisible then sidebarWidth else 0;
      effects := [SetSidebarVisible(sidebarVisible)];
    }

    /** `switchTab`: the tab becomes active and starts its loader. The
        lyrics tab fetches lyrics for the known song, or for the song now
        shown (`shown`) when none is known yet. */
    method SwitchTab(tabName: string, shown: Option<Song>) returns (effects: seq<Effect>)
      modifies this`activeTab, this`currentTitle, this`currentArtist
      ensures activeTab == tabName
      ensures tabName != "lyrics" ==> currentTitle == old(currentTitle) && currentArtist == old(currentArtist)
      ensures tabName == "lyrics" && old(currentTitle) != "" && old(currentArtist) != "" ==>
        currentTitle == old(currentTitle) && currentArtist == old(currentArtist)
        && effects == [FetchLyrics(currentTitle, currentArtist)]
      ensures tabName == "lyrics" && (old(currentTitle) == "" || old(currentArtist) == "") ==>
        if shown.Some? then
          currentTitle == shown.value.title && currentArtist == shown.value.artist
          && effects == [FetchLyrics(currentTitle, currentArtist)]
        else currentTitle == old(currentTitle) && currentArtist == old(currentArtist) && effects == []
      ensures tabName != "lyrics" ==> effects == TabLoader(tabName)
    {
      activeTab := tabName;
      effects := TabLoader(tabName);
      if tabName == "lyrics" {
        if currentTitle != "" && currentArtist != "" {
          effects := [FetchLyrics(currentTitle, currentArtist)];
        } else if shown.Some? {
          currentTitle := shown.value.title;
          currentArtist := shown.value.artist;
          effects := [FetchLyrics(currentTitle, currentArtist)];
        }
      }
    }

    /** The player bar changed: artist information is refetched only when
        the artist differs, and the song context, lyrics and presence only
        when the title differs (with the already updated artist). */
    method OnPlayerBarMutation(shown: Option<Song>) returns (effects: seq<Effect>)
      modifies this`currentArtist, this`currentTitle
      ensures shown.None? ==> effects == [] && currentArtist == old(currentArtist) && currentTitle == old(currentTitle)
      ensures shown.Some? ==> currentArtist == shown.value.artist && currentTitle == shown.value.title
      ensures shown.Some? ==> (effects ==
        (if shown.value.artist != old(currentArtist) then [FetchArtistInfo(shown.value.artist)] else [])
        + (if shown.value.title != old(currentTitle) then SongFetches(shown.value) else []))
    {
      effects := [];
      if shown.Some? {
        var song := shown.value;
        if song.artist != currentArtist {
          currentArtist := song.artist;
          effects := effects + [FetchArtistInfo(currentArtist)];
        }
        if song.title != currentTitle {
          currentTitle := song.title;
          effects := effects + SongFetches(Song(currentArtist, currentTitle));
        }
      }
    }

    /** The immediate check when the monitor starts: a song already shown
        is fetched in full. */
    method InitialSongCheck(shown: Option<Song>) returns (effects: seq<Effect>)
      modifies this`currentArtist, this`currentTitle
      ensures shown.None? ==> effects == [] && currentArtist == old(currentArtist) && currentTitle == old(currentTitle)
      ensures shown.Some? ==> (currentArtist == shown.value.artist && currentTitle == shown.value.title
        && effects == [FetchArtistInfo(shown.value.artist)] + SongFetches(shown.value))
    {
      effects := [];
      if shown.Some? {
        currentArtist := shown.value.artist;
        currentTitle := shown.value.title;
        effects := [FetchArtistInfo(currentArtist)] + SongFetches(shown.value);
      }
    }
  }

  /** What a new title starts: context, lyrics, Discord presence. */
  function SongFetches(song: Song): (r: seq<Effect>)
    ensures |r| == 3 && r[1] == FetchLyrics(song.title, song.artist)
  {
    [FetchSongContext(song.title, song.artist), FetchLyrics(song.title, song.artist),
     UpdateDiscordPresence(song.title, song.artist)]
  }

  /** The loader a tab other than lyrics starts when it is selected; the
      artist tab and unknown names start none. */
  function TabLoader(tabName: string): (r: seq<Effect>)
    ensures |r| <= 1
    ensures tabName !in {"visualizer", "settings", "about"} ==> r == []
  {
    if tabName == "visualizer" then [InitializeVisualizer]
    else if tabName == "settings" then [LoadSettings]
    else if tabName == "about" then [LoadAboutInfo]
    else []
  }

  /** A second mutation showing the same song starts nothing. */
  lemma SameSongNoRefetch(song: Song, artist: string, title: string)
    requires song.artist == artist && song.title == title
    ensures (if song.artist != artist then [FetchArtistInfo(song.artist)] else [])
      + (if song.title != title then SongFetches(song) else []) == []
  {
  }

  // ---- "Read more" ----

  /** The start of the last ". " in `s`, or -1. */
  function LastSentenceEnd(s: string): int {
    LastIndexOf(s, ". ")
  }

  /** The text has a ". " starting at or after 70% of `maxLength`. */
  predicate LateSentenceEnd(truncated: string, maxLength: nat) {
    exists p :: 0 <= p <= |truncated| && OccursAt(truncated, ". ", p) && 10 * p >= 7 * maxLength
  }

  /** Where the visible part of a long text is cut: the last ". " when
      there is one at or after 70% of `maxLength`, else the last space (-1
      when there is none). */
  function BreakPoint(truncated: string, maxLength: nat): (b: int)
    ensures -1 <= b < |truncated|
    ensures LateSentenceEnd(truncated, maxLength) ==>
      && OccursAt(truncated, ". ", b) && 10 * b >= 7 * maxLength
      && forall p :: b < p ==> !OccursAt(truncated, ". ", p)
    ensures !LateSentenceEnd(truncated, maxLength) ==>
      && (b == -1 <==> ' ' !in truncated)
      && (b >= 0 ==> truncated[b] == ' ')
      && forall p :: b < p < |truncated| ==> truncated[p] != ' '
  {
    var sentence := LastSentenceEnd(truncated);
    var space := LastIndexOf(truncated, " ");
    SpaceOccurrences(truncated);
    LateSentenceIsLast(truncated, maxLength);
    if sentence == -1 || 10 * sentence < 7 * maxLength then space
    else sentence
  }

  /** A late ". " exists exactly when the last one is late. */
  lemma LateSentenceIsLast(truncated: string, maxLength: nat)
    ensures LateSentenceEnd(truncated, maxLength) <==>
      LastSentenceEnd(truncated) != -1 && 10 * LastSentenceEnd(truncated) >= 7 * maxLength
  {
    var sentence := LastSentenceEnd(truncated);
    if LateSentenceEnd(truncated, maxLength) {
      var p :| 0 <= p <= |truncated| && OccursAt(truncated, ". ", p) && 10 * p >= 7 * maxLength;
      assert p <= sentence;
    }
    if sentence != -1 && 10 * sentence >= 7 * maxLength {
      assert OccursAt(truncated, ". ", sentence);
    }
  }

  /** A one-space string occurs exactly where the text has a space. */
  lemma SpaceOccurrences(s: string)
    ensures forall p :: 0 <= p < |s| ==> (OccursAt(s, " ", p) <==> s[p] == ' ')
    ensures Contains(s, " ") <==> ' ' in s
  {
    forall p | 0 <= p < |s|
      ensures OccursAt(s, " ", p) <==> s[p] == ' '
    {
      if s[p] == ' ' {
        assert s[p..p + 1] == " ";
      }
      if OccursAt(s, " ", p) {
        assert s[p..p + 1][0] == s[p];
      }
    }
    if ' ' in s {
      var p :| 0 <= p < |s| && s[p] == ' ';
      assert OccursAt(s, " ", p);
    }
  }

  /** `substring(0, end)`: a negative end reads as 0 and an end past the
      text as its length. */
  function Prefix(s: string, end: int): (r: string)
    ensures |r| == (if end <= 0 then 0 else if end >= |s| then |s| else end)
    ensures r == s[..|r|]
  {
    if end <= 0 then [] else if end >= |s| then s else s[..end]
  }

  /** The text shown before "Read more": the trimmed first `maxLength`
      characters cut at the break point, followed by "...". */
  function VisibleText(content: string, maxLength: nat): (r: string)
    requires |content| > maxLength
    ensures |r| >= 3 && r[|r| - 3..] == "..."
    ensures var shown := r[..|r| - 3];
      var truncated := Trim(content[..maxLength]);
      && shown == Prefix(truncated, BreakPoint(truncated, maxLength))
      && |shown| == (if BreakPoint(truncated, maxLength) < 0 then 0 else BreakPoint(truncated, maxLength))
      && |shown| <= maxLength && Contains(content[..maxLength], shown)
  {
    var truncated := Trim(content[..maxLength]);
    var shown := Prefix(truncated, BreakPoint(truncated, maxLength));
    assert OccursAt(truncated, shown, 0);
    ContainsTransitive(content[..maxLength], truncated, shown);
    var r := shown + "...";
    assert r[..|r| - 3] == shown;
    r
  }

  lemma ContainsTransitive(s: string, mid: string, sub: string)
    requires Contains(s, mid) && Contains(mid, sub)
    ensures Contains(s, sub) && |sub| <= |s|
  {
    var i :| 0 <= i <= |s| && OccursAt(s, mid, i);
    var j :| 0 <= j <= |mid| && OccursAt(mid, sub, j);
    forall k | 0 <= k < |sub|
      ensures s[i + j + k] == sub[k]
    {
      assert mid[j + k] == sub[k];
      assert s[i + (j + k)] == mid[j + k];
    }
    assert s[i + j..i + j + |sub|] == sub;
    assert OccursAt(s, sub, i + j);
  }

  /** `makeExpandable` with the element id it generates: short content is
      returned unchanged; long content becomes a span with the visible text
      followed by a "Read more" span. */
  function MakeExpandable(content: string, maxLength: nat, contentId: string): (r: string)
    ensures |content| <= maxLength ==> r == content
    ensures |content| > maxLength ==> Contains(r, VisibleText(content, maxLength))
  {
    if |content| <= maxLength then content
    else
      var prefix := "<span id=\"" + contentId + "\" class=\"basitune-truncated\">";
      var visible := VisibleText(content, maxLength);
      var r := prefix + visible + "</span><span class=\"basitune-read-more\">Read more</span>";
      assert OccursAt(r, visible, |prefix|);
      r
  }

  /** The default `maxLength` of `makeExpandable`. */
  const ReadMoreLength: nat := 300

  // ---- Lyrics errors ----

  /** The title and icon `showLyricsError` shows for an error message. */
  datatype ErrorView = ErrorView(title: string, icon: string)

  const FallbackErrorView := ErrorView("Error Loading Lyrics", "⚠️")

  /** The classification as the script writes it: an if-chain over
      substrings of the message. */
  function LyricsErrorView(error: string): ErrorView {
    if Contains(error, "Genius API token not configured") then ErrorView("API Not Configured", "🔑")
    else if Contains(error, "No results found") then ErrorView("No Results Found", "❌")
    else if Contains(error, "Could not extract lyrics") then ErrorView("Extraction Failed", "⚠️")
    else if Contains(error, "timeout") || Contains(error, "network") then ErrorView("Connection Error", "📡")
    else if Contains(error, "rate limit") then ErrorView("Rate Limited", "⏳")
    else FallbackErrorView
  }

  /** One classification rule: any of the substrings selects the view. */
  datatype ErrorRule = ErrorRule(patterns: seq<string>, view: ErrorView)

  /** The rules in the order they are tried. */
  const ErrorRules: seq<ErrorRule> := [
    ErrorRule(["Genius API token not configured"], ErrorView("API Not Configured", "🔑")),
    ErrorRule(["No results found"], ErrorView("No Results Found", "❌")),
    ErrorRule(["Could not extract lyrics"], ErrorView("Extraction Failed", "⚠️")),
    ErrorRule(["timeout", "network"], ErrorView("Connection Error", "📡")),
    ErrorRule(["rate limit"], ErrorView("Rate Limited", "⏳"))
  ]

  predicate RuleMatches(rule: ErrorRule, error: string) {
    ContainsAny(error, rule.patterns)
  }

  /** Some pattern occurs in `error`. */
  predicate ContainsAny(error: string, patterns: seq<string>) {
    patterns != [] && (Contains(error, patterns[0]) || ContainsAny(error, patterns[1..]))
  }

  lemma ContainsAnyCons(error: string, p: string, rest: seq<string>)
    ensures ContainsAny(error, [p] + rest) <==> Contains(error, p) || ContainsAny(error, rest)
    ensures !ContainsAny(error, [])
  {
    assert ([p] + rest)[1..] == rest;
  }

  /** The view of the first rule that matches, or the fallback. */
  function FirstMatch(rules: seq<ErrorRule>, error: string): (v: ErrorView)
    ensures v == FallbackErrorView || exists k :: 0 <= k < |rules| && rules[k].view == v
  {
    if rules == [] then FallbackErrorView
    else if RuleMatches(rules[0], error) then rules[0].view
    else FirstMatch(rules[1..], error)
  }

  /** The first matching rule decides: every earlier rule fails. */
  lemma {:induction false} FirstMatchIsFirst(rules: seq<ErrorRule>, error: string, k: nat)
    requires k < |rules| && RuleMatches(rules[k], error)
    requires forall j :: 0 <= j < k ==> !RuleMatches(rules[j], error)
    ensures FirstMatch(rules, error) == rules[k].view
    decreases k
  {
    if k > 0 {
      assert !RuleMatches(rules[0], error);
      FirstMatchIsFirst(rules[1..], error, k - 1);
    }
  }

  /** The script's if-chain is the ordered rule table. */
  lemma LyricsErrorViewIsFirstMatch(error: string)
    ensures LyricsErrorView(error) == FirstMatch(ErrorRules, error)
  {
    var r := ErrorRules;
    var r1 := r[1..];
    var r2 := r1[1..];
    var r3 := r2[1..];
    var r4 := r3[1..];
    assert r1[0] == r[1] && r2[0] == r[2] && r3[0] == r[3] && r4[0] == r[4] && r4[1..] == [];
    RuleOfOne(r[0], error);
    RuleOfOne(r[1], error);
    RuleOfOne(r[2], error);
    RuleOfOne(r[4], error);
    assert RuleMatches(r[3], error) <==> Contains(error, "timeout") || Contains(error, "network") by {
      ContainsAnyCons(error, "timeout", ["network"]);
      ContainsAnyCons(error, "network", []);
      assert ["timeout"] + ["network"] == r[3].patterns;
      assert ["network"] + [] == ["network"];
    }
    assert FirstMatch(r4, error) == if RuleMatches(r[4], error) then r[4].view else FallbackErrorView;
    assert FirstMatch(r3, error) == if RuleMatches(r[3], error) then r[3].view else FirstMatch(r4, error);
    assert FirstMatch(r2, error) == if RuleMatches(r[2], error) then r[2].view else FirstMatch(r3, error);
    assert FirstMatch(r1, error) == if RuleMatches(r[1], error) then r[1].view else FirstMatch(r2, error);
  }

  lemma RuleOfOne(rule: ErrorRule, error: string)
    requires |rule.patterns| == 1
    ensures RuleMatches(rule, error) <==> Contains(error, rule.patterns[0])
  {
    ContainsAnyCons(error, rule.patterns[0], []);
    assert [rule.patterns[0]] + [] == rule.patterns;
  }

  /** A token error wins over everything; e.g. a message mentioning both a
      timeout and a rate limit is a connection error. */
  lemma LyricsErrorOrder(error: string)
    ensures Contains(error, "Genius API token not configured") ==> LyricsErrorView(error).title == "API Not Configured"
    ensures !Contains(error, "Genius API token not configured") && !Contains(error, "No results found")
      && !Contains(error, "Could not extract lyrics") && Contains(error, "timeout")
      ==> LyricsErrorView(error).title == "Connection Error"
  {
  }

  // ---- Visualizer controls ----

  /** Which optional visualizer controls are displayed. */
  datatype ControlVisibility = ControlVisibility(speed: bool, barSpacing: bool, particleCount: bool, lineThickness: bool)

  /** `updateControlVisibility`. */
  function UpdateControlVisibility(style: string): (c: ControlVisibility)
    ensures c.speed <==> style in ["spiral", "blob", "particles"]
    ensures c.barSpacing <==> style in ["bars", "spectrum", "symmetrical"]
    ensures c.particleCount <==> style == "particles"
    ensures c.lineThickness <==> style in ["wave", "circular", "radial", "spiral", "blob", "line", "dual"]
  {
    ControlVisibility(
      style in ["spiral", "blob", "particles"],
      style in ["bars", "spectrum", "symmetrical"],
      style == "particles",
      style in ["wave", "circular", "radial", "spiral", "blob", "line", "dual"])
  }

  /** Every style the visualizer draws shows either the bar-spacing or the
      line-thickness control, never both, except the particle style, which
      shows the particle count; a style with a particle count also shows
      the speed control. */
  lemma ControlsCoverRenderers(k: Visualizer.Renderer)
    ensures var c := UpdateControlVisibility(Visualizer.StyleName(k));
      && !(c.barSpacing && c.lineThickness)
      && (c.barSpacing || c.lineThickness || (k == Visualizer.Particles && c.particleCount))
      && (c.particleCount ==> c.speed)
  {
  }

  // ---- Saved visualizer settings ----

  /** The payload of `save_visualizer_settings`. */
  datatype VisualizerSettings = VisualizerSettings(
    style: string, color: string, sensitivity: JsNum, colorPalette: string, animationSpeed: JsNum,
    glowEnabled: bool, glowIntensity: JsNum, barSpacing: JsNum, particleCount: Option<int>, lineThickness: JsNum)

  /** The form controls' values (`None` when the element is missing). */
  datatype SettingsForm = SettingsForm(
    style: Option<string>, color: Option<string>, sensitivity: Option<string>, palette: Option<string>,
    speed: Option<string>, glow: Option<bool>, glowIntensity: Option<string>, barSpacing: Option<string>,
    particleCount: Option<string>, lineThickness: Option<string>)

  /** `element?.value || fallback`: a missing element or an empty value
      gives the fallback. */
  function ValueOr(value: Option<string>, fallback: string): (r: string)
    ensures value.Some? && value.value != "" ==> r == value.value
    ensures value.None? || value.value == "" ==> r == fallback
  {
    if value.Some? && value.value != "" then value.value else fallback
  }

  /** `saveVisualizerSettings`: each missing or empty control is replaced
      by its default before conversion. */
  function SaveVisualizerSettings(f: SettingsForm): (s: VisualizerSettings)
    ensures s.style == ValueOr(f.style, "bars") && s.color == ValueOr(f.color, "#ff0000")
    ensures s.colorPalette == ValueOr(f.palette, "single")
    ensures s.glowEnabled == (f.glow == Some(true))
    ensures Blank(f.sensitivity) ==> s.sensitivity == Finite(1.0)
    ensures Blank(f.speed) ==> s.animationSpeed == Finite(1.0)
    ensures Blank(f.glowIntensity) ==> s.glowIntensity == Finite(10.0)
    ensures Blank(f.barSpacing) ==> s.barSpacing == Finite(1.0)
    ensures Blank(f.lineThickness) ==> s.lineThickness == Finite(2.0)
    ensures Blank(f.particleCount) ==> s.particleCount == Some(80)
    ensures !Blank(f.sensitivity) ==> s.sensitivity == StringToNumber(f.sensitivity.value)
    ensures !Blank(f.speed) ==> s.animationSpeed == StringToNumber(f.speed.value)
    ensures !Blank(f.glowIntensity) ==> s.glowIntensity == StringToNumber(f.glowIntensity.value)
    ensures !Blank(f.barSpacing) ==> s.barSpacing == StringToNumber(f.barSpacing.value)
    ensures !Blank(f.lineThickness) ==> s.lineThickness == StringToNumber(f.lineThickness.value)
    ensures !Blank(f.particleCount) ==> s.particleCount == ParseInt(f.particleCount.value, 0)
  {
    OnePointZero();
    TwoPointZero();
    TenPointZero();
    DefaultParticleCount();
    VisualizerSettings(
      ValueOr(f.style, "bars"),
      ValueOr(f.color, "#ff0000"),
      StringToNumber(ValueOr(f.sensitivity, "1.0")),
      ValueOr(f.palette, "single"),
      StringToNumber(ValueOr(f.speed, "1.0")),
      f.glow == Some(true),
      StringToNumber(ValueOr(f.glowIntensity, "10.0")),
      StringToNumber(ValueOr(f.barSpacing, "1.0")),
      ParseInt(ValueOr(f.particleCount, "80"), 0),
      StringToNumber(ValueOr(f.lineThickness, "2.0")))
  }

  /** A control that is missing or holds the empty string. */
  predicate Blank(value: Option<string>) {
    value.None? || value.value == ""
  }

  /** Numeric controls holding decimal numerals are saved as the numbers
      they spell. */
  lemma SaveVisualizerNumerals(f: SettingsForm, sensitivity: nat, particles: nat)
    requires f.sensitivity == Some(Decimal(sensitivity)) && f.particleCount == Some(IntToString(particles))
    ensures SaveVisualizerSettings(f).sensitivity == Finite(sensitivity as real)
    ensures SaveVisualizerSettings(f).particleCount == Some(particles)
  {
    StringToNumberDecimal(sensitivity);
    ParseIntDecimal(particles);
  }

  /** With no controls at all the saved settings are the defaults: bars,
      red, sensitivity 1, single palette, speed 1, no glow, glow 10, bar
      spacing 1, 80 particles, line thickness 2. */
  lemma SaveVisualizerDefaults()
    ensures SaveVisualizerSettings(SettingsForm(None, None, None, None, None, None, None, None, None, None)) ==
      VisualizerSettings("bars", "#ff0000", Finite(1.0), "single", Finite(1.0), false, Finite(10.0),
                         Finite(1.0), Some(80), Finite(2.0))
  {
    var form := SettingsForm(None, None, None, None, None, None, None, None, None, None);
    var saved := SaveVisualizerSettings(form);
    OnePointZero();
    TwoPointZero();
    TenPointZero();
    DefaultParticleCount();
    assert saved.sensitivity == Finite(1.0) && saved.animationSpeed == Finite(1.0) && saved.barSpacing == Finite(1.0);
    assert saved.glowIntensity == Finite(10.0) && saved.lineThickness == Finite(2.0);
    assert saved.particleCount == Some(80);
  }

  /** The numeric defaults read back as the numbers they spell. */
  lemma OnePointZero()
    ensures StringToNumber("1.0") == Finite(1.0)
  {
    PointZeroText(1, "1.0");
  }

  lemma TwoPointZero()
    ensures StringToNumber("2.0") == Finite(2.0)
  {
    PointZeroText(2, "2.0");
  }

  lemma TenPointZero()
    ensures StringToNumber("10.0") == Finite(10.0)
  {
    PointZeroText(10, "10.0");
  }

  /** The default particle count reads back as 80. */
  lemma DefaultParticleCount()
    ensures ParseInt("80", 0) == Some(80)
  {
    assert IntToString(80) == "80" by {
      assert ToRadix(80, 10) == ToRadix(8, 10) + [DigitChar(0)];
    }
    ParseIntDecimal(80);
  }

  lemma PointZeroText(n: nat, text: string)
    requires n in {1, 2, 10} && text == (if n == 10 then "10.0" else [DigitChar(n)] + ".0")
    ensures StringToNumber(text) == Finite(n as real)
  {
    assert Decimal(10) == "10" by {
      assert ToRadix(10, 10) == ToRadix(1, 10) + [DigitChar(0)];
    }
    assert Decimal(n) + ".0" == text;
    StringToNumberPointZero(n);
  }
}
