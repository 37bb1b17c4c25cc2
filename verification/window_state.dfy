/** The window-state manager and the sidebar window commands
    (`src-tauri/src/sidebar.rs`). The manager keeps the `WindowState` in
    memory; only `save_silent` writes it to `window-state.json`. The
    window handles are oracles: whether each window exists and the YouTube
    window's outer geometry; the window calls a command makes are
    returned in order. */
module SidebarBackend {
  import opened Wrappers
  import opened Config

  /** `a.saturating_sub(b)` on `u32`. */
  function SaturatingSub(a: U32, b: U32): (r: U32)
    ensures r <= a
    ensures b <= a ==> r as int + b as int == a as int
    ensures b > a ==> r == 0
  {
    if b <= a then a - b else 0
  }

  /** `a + b` on `u32` in a release build: the sum modulo 2^32. */
  function WrappingAdd(a: U32, b: U32): (r: U32)
    ensures a as int + b as int < 0x1_0000_0000 ==> r as int == a as int + b as int
    ensures a as int + b as int >= 0x1_0000_0000 ==> r as int == a as int + b as int - 0x1_0000_0000
  {
    ((a as int + b as int) % 0x1_0000_0000) as U32
  }

  /** The window state read at start-up: the stored one, or the default
      (1280 x 720 at (100, 100), not maximised, no monitor, sidebar hidden,
      400 wide, font size 14) when the file is missing or does not parse. */
  function LoadWindowState(file: FileState<WindowState>): (s: WindowState)
    ensures file.Holds? ==> s == file.contents
    ensures !file.Holds? ==> s.width == 1280 && s.height == 720 && s.x == 100 && s.y == 100
    ensures !file.Holds? ==> !s.maximized && s.monitorIndex.None? && !s.sidebarVisible
    ensures !file.Holds? ==> s.sidebarWidth == 400 && s.sidebarFontSize == 14
  {
    if file.Holds? then file.contents else DefaultWindowState
  }

  /** A window's outer geometry. */
  datatype Geometry = Geometry(width: U32, height: U32, x: I32, y: I32)

  /** What the window lookups give: whether the "youtube" and "sidebar"
      windows exist, and the YouTube window's size and position (or the
      error reading them). */
  datatype Windows = Windows(youtubeFound: bool, sidebarFound: bool, youtube: Result<Geometry, string>)

  /** A call on a window. */
  datatype WindowCall =
    | SetYoutubeSize(width: U32, height: U32)
    | SetSidebarPosition(x: int, y: int)
    | SetSidebarSize(width: U32, height: U32)
    | ShowSidebar
    | HideSidebar

  /** The calls of `toggle_sidebar`. Showing narrows the YouTube window by
      the sidebar's width (to 0 at worst, never below), puts the sidebar
      against its right edge with the same height, and shows it; the two
      then fill the old width exactly when the sidebar fits. Hiding hides
      the sidebar and restores the YouTube window's size. */
  function ToggleCalls(visible: bool, sidebarWidth: U32, main: Geometry): (calls: seq<WindowCall>)
    ensures visible ==> |calls| == 4 && calls[0].SetYoutubeSize? && calls[3] == ShowSidebar
    ensures visible ==> calls[0].width <= main.width && calls[0].height == main.height
    ensures visible && sidebarWidth <= main.width ==> calls[0].width as int + sidebarWidth as int == main.width as int
    ensures visible && sidebarWidth > main.width ==> calls[0].width == 0
    ensures visible ==> calls[1] == SetSidebarPosition(main.x as int + calls[0].width as int, main.y as int)
    ensures visible ==> calls[2] == SetSidebarSize(sidebarWidth, main.height)
    ensures !visible ==> calls == [HideSidebar, SetYoutubeSize(main.width, main.height)]
  {
    if visible then
      var youtubeWidth := SaturatingSub(main.width, sidebarWidth);
      [SetYoutubeSize(youtubeWidth, main.height),
       SetSidebarPosition(main.x as int + youtubeWidth as int, main.y as int),
       SetSidebarSize(sidebarWidth, main.height),
       ShowSidebar]
    else
      [HideSidebar, SetYoutubeSize(main.width, main.height)]
  }

  /** The YouTube width `resize_sidebar` computes, as written: the sum of
      the YouTube width and the new sidebar width, wrapped to `u32`, less
      the sidebar width (saturating). */
  function ResizedYoutubeWidthAsWritten(youtubeWidth: U32, width: U32): U32 {
    SaturatingSub(WrappingAdd(youtubeWidth, width), width)
  }

  /** Without overflow the computation gives the YouTube width back. */
  lemma ResizedWidthWithoutOverflow(youtubeWidth: U32, width: U32)
    requires youtubeWidth as int + width as int < 0x1_0000_0000
    ensures ResizedYoutubeWidthAsWritten(youtubeWidth, width) == youtubeWidth
  {
  }

  /** With overflow it does not: a 1280-pixel YouTube window and a sidebar
      width of 2^32 - 1 give a YouTube width of 0. */
  lemma ResizedWidthOverflows()
    ensures ResizedYoutubeWidthAsWritten(1280, 0xFFFF_FFFF) == 0
  {
    assert WrappingAdd(1280, 0xFFFF_FFFF) == 1279;
  }

  /** The calls of `resize_sidebar` as evidently intended: the YouTube
      window keeps its size (the sum-then-subtract of the source is the
      identity whenever it does not overflow), and the sidebar goes
      against its right edge with the new width and the same height. */
  function ResizeCalls(width: U32, youtube: Geometry): (calls: seq<WindowCall>)
    ensures |calls| == 3
    ensures calls[0] == SetYoutubeSize(youtube.width, youtube.height)
    ensures calls[1] == SetSidebarPosition(youtube.x as int + youtube.width as int, youtube.y as int)
    ensures calls[2] == SetSidebarSize(width, youtube.height)
  {
    [SetYoutubeSize(youtube.width, youtube.height),
     SetSidebarPosition(youtube.x as int + youtube.width as int, youtube.y as int),
     SetSidebarSize(width, youtube.height)]
  }

  /** The failures of the window lookups, in the order they are tried. */
  function LookupError(windows: Windows): (e: Option<string>)
    ensures e.None? <==> windows.youtubeFound && windows.sidebarFound && windows.youtube.Ok?
    ensures !windows.youtubeFound ==> e == Some("YouTube window not found")
    ensures windows.youtubeFound && !windows.sidebarFound ==> e == Some("Sidebar window not found")
  {
    if !windows.youtubeFound then Some("YouTube window not found")
    else if !windows.sidebarFound then Some("Sidebar window not found")
    else if windows.youtube.Err? then Some(windows.youtube.error)
    else None
  }

  /** The calls a command makes from its planned sequence when every call
      ends the command on error (`?`): with `failure` = (k, message), the
      k-th planned call fails with that message, and it is the last call
      made; with no failure, or k past the end, every call is made. */
  function Attempted(planned: seq<WindowCall>, failure: Option<(nat, string)>): (made: seq<WindowCall>)
    ensures made <= planned
    ensures failure.Some? && failure.value.0 < |planned| ==> |made| == failure.value.0 + 1
    ensures failure.None? || failure.value.0 >= |planned| ==> made == planned
  {
    if failure.Some? && failure.value.0 < |planned| then planned[..failure.value.0 + 1] else planned
  }

  /** The error a failing window call gives the command, if any. */
  function CallError(planned: seq<WindowCall>, failure: Option<(nat, string)>): (e: Option<string>)
    ensures e.Some? <==> failure.Some? && failure.value.0 < |planned|
    ensures e.Some? ==> e.value == failure.value.1
  {
    if failure.Some? && failure.value.0 < |planned| then Some(failure.value.1) else None
  }

  /** `WindowStateManager`: the in-memory state and its file. */
  class WindowStateManager {
    var state: WindowState
    var file: FileState<WindowState>

    /** `new`: the state is read from the file, or is the default. */
    constructor (file: FileState<WindowState>)
      ensures state == LoadWindowState(file) && this.file == file
    {
      state := LoadWindowState(file);
      this.file := file;
    }

    /** `get`. */
    function Get(): (r: WindowState)
      reads this
      ensures r == state
    {
      state
    }

    /** `set_sidebar_visible`: in memory only. */
    method SetSidebarVisible(visible: bool)
      modifies this`state
      ensures state == old(state).(sidebarVisible := visible)
      ensures Get().sidebarVisible == visible
    {
      state := state.(sidebarVisible := visible);
    }

    /** `set_sidebar_width`: in memory only. */
    method SetSidebarWidth(width: U32)
      modifies this`state
      ensures state == old(state).(sidebarWidth := width)
      ensures Get().sidebarWidth == width
    {
      state := state.(sidebarWidth := width);
    }

    /** `set_sidebar_font_size` and `save_sidebar_font_size` (the same
        body): in memory only, despite the second one's name. */
    method SetSidebarFontSize(fontSize: U32)
      modifies this`state
      ensures state == old(state).(sidebarFontSize := fontSize)
      ensures Get().sidebarFontSize == fontSize
    {
      state := state.(sidebarFontSize := fontSize);
    }

    /** `save_silent`: the file holds the current state when the write
        succeeds; a failure is only logged, and leaves the file as it was
        or, when it failed after truncating, unparsable. */
    method SaveSilent(write: WriteOutcome)
      modifies this`file
      ensures write.Written? ==> file == Holds(state)
      ensures write.WriteFailed? ==> file == if write.truncated then Unparsable else old(file)
    {
      file := AfterWrite(file, state, write);
    }

    /** `toggle_sidebar`: the visibility is recorded first, so it holds even
        when a window is missing or a call fails; then the window calls,
        with the sidebar width read before the update, until one fails
        (`failure`, as in `Attempted`). */
    method ToggleSidebar(visible: bool, windows: Windows, failure: Option<(nat, string)>)
      returns (r: Result<(), string>, calls: seq<WindowCall>)
      modifies this`state
      ensures state == old(state).(sidebarVisible := visible)
      ensures LookupError(windows).Some? ==> r == Err(LookupError(windows).value) && calls == []
      ensures LookupError(windows).None? ==>
        var planned := ToggleCalls(visible, old(state).sidebarWidth, windows.youtube.value);
        && calls == Attempted(planned, failure)
        && r == if CallError(planned, failure).Some? then Err(CallError(planned, failure).value) else Ok(())
    {
      var sidebarWidth := state.sidebarWidth;
      SetSidebarVisible(visible);
      var lookup := LookupError(windows);
      if lookup.Some? {
        return Err(lookup.value), [];
      }
      var planned := ToggleCalls(visible, sidebarWidth, windows.youtube.value);
      calls := Attempted(planned, failure);
      var callError := CallError(planned, failure);
      r := if callError.Some? then Err(callError.value) else Ok(());
    }

    /** `resize_sidebar`: the width is recorded first, then the window
        calls until one fails. */
    method ResizeSidebar(width: U32, windows: Windows, failure: Option<(nat, string)>)
      returns (r: Result<(), string>, calls: seq<WindowCall>)
      modifies this`state
      ensures state == old(state).(sidebarWidth := width)
      ensures LookupError(windows).Some? ==> r == Err(LookupError(windows).value) && calls == []
      ensures LookupError(windows).None? ==>
        var planned := ResizeCalls(width, windows.youtube.value);
        && calls == Attempted(planned, failure)
        && r == if CallError(planned, failure).Some? then Err(CallError(planned, failure).value) else Ok(())
    {
      SetSidebarWidth(width);
      var lookup := LookupError(windows);
      if lookup.Some? {
        return Err(lookup.value), [];
      }
      var planned := ResizeCalls(width, windows.youtube.value);
      calls := Attempted(planned, failure);
      var callError := CallError(planned, failure);
      r := if callError.Some? then Err(callError.value) else Ok(());
    }
  }
}
