/** The decisions of the application's entry point
    (`src-tauri/src/main.rs`): how a saved song's names are put into the
    playback-restore script, when that script restores (its localStorage
    throttle), how the saved window geometry is applied at start-up, and
    what a close request does. */
module MainApp {
  import opened Wrappers
  import opened Text
  import opened JsNumber
  import opened Config
  import opened SidebarBackend

  /** One character of a name as written into a double-quoted script
      literal: a backslash and a double quote get a backslash in front. */
  function EscapeChar(c: char): string {
    if c == '\\' then "\\\\" else if c == '"' then "\\\"" else [c]
  }

  /** Character-by-character escaping, the reference for the two passes of
      the source. */
  function EscapeEach(s: string): string {
    if s == [] then [] else EscapeChar(s[0]) + EscapeEach(s[1..])
  }

  /** The escaping of the restore script: backslashes are doubled first,
      then double quotes get a backslash. Because the quotes come second,
      the backslashes they get are not doubled again, and the two passes
      escape each character exactly once. */
  function EscapeForScript(s: string): (r: string)
    ensures r == EscapeEach(s)
    ensures '\\' !in s && '"' !in s ==> r == s
  {
    TwoPassesEscapeEachCharacter(s);
    ReplaceAll(ReplaceAll(s, '\\', "\\\\"), '"', "\\\"")
  }

  lemma {:induction false} TwoPassesEscapeEachCharacter(s: string)
    ensures ReplaceAll(ReplaceAll(s, '\\', "\\\\"), '"', "\\\"") == EscapeEach(s)
    ensures '\\' !in s && '"' !in s ==> EscapeEach(s) == s
  {
    if s != [] {
      var first := if s[0] == '\\' then "\\\\" else [s[0]];
      var rest := ReplaceAll(s[1..], '\\', "\\\\");
      assert ReplaceAll(s, '\\', "\\\\") == first + rest;
      ReplaceAllAppend(first, rest, '"', "\\\"");
      TwoPassesEscapeEachCharacter(s[1..]);
      if s[0] == '"' {
        assert ReplaceAll(first, '"', "\\\"") == "\\\"" + ReplaceAll([], '"', "\\\"");
      } else {
        assert '"' !in first;
      }
      if '\\' !in s && '"' !in s {
        assert s == [s[0]] + s[1..];
      }
    }
  }

  lemma {:induction false} ReplaceAllAppend(a: string, b: string, c: char, repl: string)
    ensures ReplaceAll(a + b, c, repl) == ReplaceAll(a, c, repl) + ReplaceAll(b, c, repl)
  {
    if a == [] {
      assert a + b == b;
    } else {
      assert (a + b)[1..] == a[1..] + b;
      ReplaceAllAppend(a[1..], b, c, repl);
    }
  }

  /** How a script reads the inside of a double-quoted string literal made
      of plain characters and the escapes `\\` and `\"`: the characters it
      denotes, or `None` when an unescaped quote or a line break ends the
      literal early, or an escape of another kind appears (those are
      outside this model). */
  function ReadLiteral(s: string): Option<string> {
    if s == [] then Some([])
    else if s[0] == '"' || s[0] == '\n' || s[0] == '\r' then None
    else if s[0] == '\\' then
      if |s| >= 2 && (s[1] == '\\' || s[1] == '"') then
        match ReadLiteral(s[2..])
        case Some(t) => Some([s[1]] + t)
        case None => None
      else None
    else
      match ReadLiteral(s[1..])
      case Some(t) => Some([s[0]] + t)
      case None => None
  }

  /** The string holds no line feed and no carriage return. */
  predicate NoLineBreak(s: string) {
    forall i :: 0 <= i < |s| ==> s[i] != '\n' && s[i] != '\r'
  }

  /** A name without line breaks, escaped and put between double quotes,
      reads back as the name itself. */
  lemma {:induction false} EscapeReadsBack(s: string)
    ensures NoLineBreak(s) ==> ReadLiteral(EscapeForScript(s)) == Some(s)
  {
    if s != [] && NoLineBreak(s) {
      var e := EscapeEach(s);
      EscapeReadsBack(s[1..]);
      assert s == [s[0]] + s[1..];
      if s[0] == '\\' || s[0] == '"' {
        assert e[0] == '\\' && e[1] == s[0] && e[2..] == EscapeEach(s[1..]);
      } else {
        assert e[0] == s[0] && e[1..] == EscapeEach(s[1..]);
      }
    }
  }

  /** The call the restore script makes: the escaped artist and title as
      string literals, the position, and "true" or "false". */
  datatype RestoreCall = RestoreCall(artistLiteral: string, titleLiteral: string, positionSeconds: real, wasPlaying: string)

  /** On page load: a restore script is made exactly when a full playback
      position is saved in the configuration, and it carries the saved
      names, escaped so that they read back unchanged. */
  function RestoreCallOf(config: FileState<ApiConfig>): (call: Option<RestoreCall>)
    ensures call.Some? <==> PlaybackPositionOf(LoadConfig(config)).Some?
    ensures call.Some? ==>
      var saved := PlaybackPositionOf(LoadConfig(config)).value;
      && call.value.positionSeconds == saved.positionSeconds
      && (call.value.wasPlaying == "true" <==> saved.wasPlaying)
      && (call.value.wasPlaying != "true" ==> call.value.wasPlaying == "false")
      && (NoLineBreak(saved.artist) ==> ReadLiteral(call.value.artistLiteral) == Some(saved.artist))
      && (NoLineBreak(saved.title) ==> ReadLiteral(call.value.titleLiteral) == Some(saved.title))
  {
    match PlaybackPositionOf(LoadConfig(config))
    case None => None
    case Some(saved) =>
      EscapeReadsBack(saved.artist);
      EscapeReadsBack(saved.title);
      Some(RestoreCall(EscapeForScript(saved.artist), EscapeForScript(saved.title), saved.positionSeconds,
                       if saved.wasPlaying then "true" else "false"))
  }

  /** The restore script's throttle: skip, or restore after storing the
      current time (as `now.toString()`) under the restoration key. */
  datatype RestoreStep = SkipRestore | RestoreNow(stamp: string)

  /** Five minutes, in milliseconds. */
  const MinRestoreGap := 5 * 60 * 1000

  /** The throttle on the stored timestamp `last` (absent when the key is
      not set) at time `now` in milliseconds. A non-empty stored value that
      parses as an integer and lies less than five minutes back skips the
      restore; anything else (no value, an empty one, one that does not
      parse) restores and stores `now`. */
  function RestoreThrottle(last: Option<string>, now: int): (step: RestoreStep)
    ensures step.SkipRestore? <==>
      last.Some? && last.value != [] && ParseInt(last.value, 10).Some? && now - ParseInt(last.value, 10).value < MinRestoreGap
    ensures step.RestoreNow? ==> step.stamp == IntToString(now)
  {
    if last.Some? && last.value != [] then
      match ParseInt(last.value, 10)
      case Some(t) =>
        var minutes := (now - t) as real / 1000.0 / 60.0;
        if minutes < 5.0 then SkipRestore else RestoreNow(IntToString(now))
      case None => RestoreNow(IntToString(now))
    else RestoreNow(IntToString(now))
  }

  /** A restore at `now` blocks every restore in the next five minutes and
      none after. */
  lemma RestoreBlocksFiveMinutes(now: int, later: int)
    requires now <= later
    ensures RestoreThrottle(Some(IntToString(now)), later).SkipRestore? <==> later < now + MinRestoreGap
  {
    ParseIntDecimal(now);
  }

  /** A call on the main window at start-up. */
  datatype PlacementCall = Unmaximize | SetSize(width: U32, height: U32) | SetPosition(x: I32, y: I32) | Maximize | Show

  /** How the saved window state is applied: the size always; the position
      only when both coordinates are non-negative, whether or not the
      window was maximised; a maximised window is unmaximised first and
      maximised again after; then the window is shown. */
  function PlacementCalls(s: WindowState): (calls: seq<PlacementCall>)
    ensures |calls| >= 2 && calls[|calls| - 1] == Show
    ensures SetSize(s.width, s.height) in calls
    ensures SetPosition(s.x, s.y) in calls <==> s.x >= 0 && s.y >= 0
    ensures forall c :: c in calls && c.SetPosition? ==> c == SetPosition(s.x, s.y)
    ensures Maximize in calls <==> s.maximized
    ensures s.maximized ==> calls[0] == Unmaximize && calls[|calls| - 2] == Maximize
    ensures !s.maximized ==> calls[0] == SetSize(s.width, s.height) && Unmaximize !in calls
  {
    var position := if s.x >= 0 && s.y >= 0 then [SetPosition(s.x, s.y)] else [];
    if s.maximized then [Unmaximize, SetSize(s.width, s.height)] + position + [Maximize, Show]
    else [SetSize(s.width, s.height)] + position + [Show]
  }

  /** What a close request ends in. */
  datatype CloseAction = HideToTray | CloseWindow

  /** The close handler. With `close_to_tray` set to true in the loaded
      configuration (unset counts as false) the close is prevented and the
      window hidden; nothing is saved. Otherwise, when the window's size and
      position can be read, they and the maximised flag (false when it
      cannot be read) replace those of the window state, which is then
      saved; the rest of the state is kept. */
  method OnCloseRequested(manager: WindowStateManager, config: FileState<ApiConfig>,
                          size: Option<(U32, U32)>, position: Option<(I32, I32)>, maximized: Option<bool>,
                          write: WriteOutcome)
    returns (action: CloseAction)
    modifies manager
    ensures action == HideToTray <==> LoadConfig(config).closeToTray == Some(true)
    ensures action == HideToTray || size.None? || position.None? ==>
      manager.state == old(manager.state) && manager.file == old(manager.file)
    ensures action == CloseWindow && size.Some? && position.Some? ==>
      && manager.state == old(manager.state).(width := size.value.0, height := size.value.1,
                                              x := position.value.0, y := position.value.1,
                                              maximized := maximized.GetOr(false))
      && manager.file == AfterWrite(old(manager.file), manager.state, write)
  {
    var closeToTray := LoadConfig(config).closeToTray.GetOr(false);
    if closeToTray {
      return HideToTray;
    }
    action := CloseWindow;
    if size.Some? && position.Some? {
      manager.state := manager.state.(width := size.value.0, height := size.value.1,
                                      x := position.value.0, y := position.value.1,
                                      maximized := maximized.GetOr(false));
      manager.SaveSilent(write);
    }
  }
}
