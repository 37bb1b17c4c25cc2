/** The backend's playback state (`src-tauri/src/playback.rs`): the
    playback state string and the current song, both overwritten by the
    commands the page scripts send, and the tray menu rebuilt from them. The
    tray is an oracle: whether the tray "main-tray" exists. */
module PlaybackBackend {
  import opened Wrappers
  import opened Tray

  /** `PlaybackState`: "none", "paused" or "playing" (any string is
      accepted), and the current song as (title, artist). */
  class PlaybackState {
    var state: string
    var currentSong: Option<(string, string)>

    /** `new` / `default`: state "none", no song. */
    constructor ()
      ensures state == "none" && currentSong.None?
    {
      state := "none";
      currentSong := None;
    }

    /** `get_state`. */
    function GetState(): (r: string)
      reads this
      ensures r == state
    {
      state
    }

    /** `get_current_song`. */
    function GetCurrentSong(): (r: Option<(string, string)>)
      reads this
      ensures r == currentSong
    {
      currentSong
    }

    /** `set_state`: the next `get_state` gives the value set. */
    method SetState(newState: string)
      modifies this`state
      ensures GetState() == newState
    {
      state := newState;
    }

    /** `set_current_song`. */
    method SetCurrentSong(title: string, artist: string)
      modifies this`currentSong
      ensures GetCurrentSong() == Some((title, artist))
    {
      currentSong := Some((title, artist));
    }

    /** `clear_current_song`. */
    method ClearCurrentSong()
      modifies this`currentSong
      ensures GetCurrentSong().None?
    {
      currentSong := None;
    }

    /** `playback_is_playing`: whether the stored state is exactly
        "playing". */
    function IsPlaying(): (r: bool)
      reads this
      ensures r <==> state == "playing"
    {
      state == "playing"
    }

    /** `update_playback_state`: the state is stored first, then the tray
        menu is rebuilt from it and the current song; the menu offers
        "pause" exactly when the new state is "playing". */
    method UpdatePlaybackState(newState: string, trayFound: bool) returns (r: Result<seq<MenuEntry>, string>)
      modifies this`state
      ensures state == newState && IsPlaying() == (newState == "playing")
      ensures r == RebuildTrayMenu(trayFound, currentSong, newState)
      ensures r.Ok? ==> (HasItem(r.value, "pause") <==> IsPlaying())
    {
      SetState(newState);
      r := RebuildTrayMenu(trayFound, currentSong, state);
      TrayMenuItems(currentSong, state);
    }

    /** `update_tray_tooltip`: the song is recorded when both title and
        artist are non-empty and cleared otherwise; the rebuilt menu then
        opens with the disabled song entry exactly in the first case. */
    method UpdateTrayTooltip(title: string, artist: string, trayFound: bool) returns (r: Result<seq<MenuEntry>, string>)
      modifies this`currentSong
      ensures currentSong == if title != [] && artist != [] then Some((title, artist)) else None
      ensures r == RebuildTrayMenu(trayFound, currentSong, state)
      ensures r.Ok? ==> (r.value[0] == NowPlaying(title, artist) <==> title != [] && artist != [])
    {
      if title != [] && artist != [] {
        SetCurrentSong(title, artist);
      } else {
        ClearCurrentSong();
      }
      r := RebuildTrayMenu(trayFound, currentSong, state);
      TrayMenuEnds(currentSong, state);
    }
  }

  /** `audio_context_ready`: only logged; it never fails. */
  method AudioContextReady() returns (r: Result<(), string>)
    ensures r == Ok(())
  {
    r := Ok(());
  }
}
