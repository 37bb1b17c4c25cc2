/** The tray menu (`src-tauri/src/tray.rs`): which items
    `rebuild_tray_menu` lists for the current song and playback state. */
module Tray {
  import opened Wrappers

  /** One menu entry: an item with its id, its text and whether it can be
      clicked, or a separator. */
  datatype MenuEntry = Item(id: string, text: string, enabled: bool) | Separator

  const ShowHide := Item("show_hide", "Show/Hide", true)
  const Quit := Item("quit", "Quit", true)
  const PreviousTrack := Item("previous_track", "Previous Track", true)
  const NextTrack := Item("next_track", "Next Track", true)
  const PlayItem := Item("play", "Play", true)
  const PauseItem := Item("pause", "Pause", true)
  const StopItem := Item("stop", "Stop", true)

  /** The disabled entry naming the song: a note sign, the title, a dash,
      the artist. */
  function NowPlaying(title: string, artist: string): MenuEntry {
    Item("now_playing", "\U{266A} " + title + " - " + artist, false)
  }

  /** The transport items of a playback state. */
  function TransportItems(state: string): seq<MenuEntry> {
    if state == "playing" then [PauseItem, StopItem]
    else if state == "paused" then [PlayItem, StopItem]
    else [PlayItem]
  }

  /** The song header: the song entry and a separator, when there is a
      song. */
  function SongHeader(song: Option<(string, string)>): seq<MenuEntry> {
    match song
    case Some((title, artist)) => [NowPlaying(title, artist), Separator]
    case None => []
  }

  /** The menu of `rebuild_tray_menu`, one literal list per case as in the
      source. It is the song header, then show/hide, a separator,
      previous-track, the transport items of the state, next-track, a
      separator and quit. */
  function TrayMenu(song: Option<(string, string)>, state: string): (menu: seq<MenuEntry>)
    ensures menu == SongHeader(song) + [ShowHide, Separator, PreviousTrack] + TransportItems(state) + [NextTrack, Separator, Quit]
  {
    match song
    case Some((title, artist)) =>
      var nowPlaying := NowPlaying(title, artist);
      if state == "playing" then
        [nowPlaying, Separator, ShowHide, Separator, PreviousTrack, PauseItem, StopItem, NextTrack, Separator, Quit]
      else if state == "paused" then
        [nowPlaying, Separator, ShowHide, Separator, PreviousTrack, PlayItem, StopItem, NextTrack, Separator, Quit]
      else
        [nowPlaying, Separator, ShowHide, Separator, PreviousTrack, PlayItem, NextTrack, Separator, Quit]
    case None =>
      if state == "playing" then
        [ShowHide, Separator, PreviousTrack, PauseItem, StopItem, NextTrack, Separator, Quit]
      else if state == "paused" then
        [ShowHide, Separator, PreviousTrack, PlayItem, StopItem, NextTrack, Separator, Quit]
      else
        [ShowHide, Separator, PreviousTrack, PlayItem, NextTrack, Separator, Quit]
  }

  /** The menu has an item with this id. */
  predicate HasItem(menu: seq<MenuEntry>, id: string) {
    exists i :: 0 <= i < |menu| && menu[i].Item? && menu[i].id == id
  }

  /** "pause" appears iff the state is "playing", "play" iff it is not,
      and "stop" iff the state is "playing" or "paused"; show/hide,
      previous, next and quit are always there. */
  lemma TrayMenuItems(song: Option<(string, string)>, state: string)
    ensures HasItem(TrayMenu(song, state), "pause") <==> state == "playing"
    ensures HasItem(TrayMenu(song, state), "play") <==> state != "playing"
    ensures HasItem(TrayMenu(song, state), "stop") <==> state == "playing" || state == "paused"
    ensures HasItem(TrayMenu(song, state), "show_hide") && HasItem(TrayMenu(song, state), "quit")
    ensures HasItem(TrayMenu(song, state), "previous_track") && HasItem(TrayMenu(song, state), "next_track")
  {
    var t := TransportItems(state);
    MenuParts(SongHeader(song), t);
    if state == "playing" {
      assert t[0].id == "pause" && t[1].id == "stop";
    } else if state == "paused" {
      assert t[0].id == "play" && t[1].id == "stop";
    } else {
      assert t[0].id == "play";
    }
  }

  /** Which ids a menu built around a header and transport items has. */
  lemma MenuParts(head: seq<MenuEntry>, t: seq<MenuEntry>)
    requires forall i :: 0 <= i < |head| && head[i].Item? ==> head[i].id == "now_playing"
    ensures forall id :: id != "now_playing" ==>
      (HasItem(head + [ShowHide, Separator, PreviousTrack] + t + [NextTrack, Separator, Quit], id) <==>
       id in {"show_hide", "previous_track", "next_track", "quit"} || HasItem(t, id))
  {
    var fixed, tail := [ShowHide, Separator, PreviousTrack], [NextTrack, Separator, Quit];
    forall id | id != "now_playing"
      ensures HasItem(head + fixed + t + tail, id) <==> id in {"show_hide", "previous_track", "next_track", "quit"} || HasItem(t, id)
    {
      HasItemConcat(head + fixed + t, tail, id);
      HasItemConcat(head + fixed, t, id);
      HasItemConcat(head, fixed, id);
      assert HasItem(fixed, id) <==> id == "show_hide" || id == "previous_track" by {
        if id == "show_hide" { assert fixed[0].id == id; }
        if id == "previous_track" { assert fixed[2].id == id; }
      }
      assert HasItem(tail, id) <==> id == "next_track" || id == "quit" by {
        if id == "next_track" { assert tail[0].id == id; }
        if id == "quit" { assert tail[2].id == id; }
      }
    }
  }

  /** An item is in a concatenation iff it is in one of the parts. */
  lemma HasItemConcat(a: seq<MenuEntry>, b: seq<MenuEntry>, id: string)
    ensures HasItem(a + b, id) <==> HasItem(a, id) || HasItem(b, id)
  {
    if HasItem(a + b, id) {
      var i :| 0 <= i < |a + b| && (a + b)[i].Item? && (a + b)[i].id == id;
      if i >= |a| {
        assert b[i - |a|] == (a + b)[i];
      }
    }
    if HasItem(a, id) {
      var i :| 0 <= i < |a| && a[i].Item? && a[i].id == id;
      assert (a + b)[i] == a[i];
    }
    if HasItem(b, id) {
      var i :| 0 <= i < |b| && b[i].Item? && b[i].id == id;
      assert (a + b)[|a| + i] == b[i];
    }
  }

  /** With a song the menu opens with the disabled song entry and a
      separator; without one it opens with show/hide; it always ends with a
      separator and quit. */
  lemma TrayMenuEnds(song: Option<(string, string)>, state: string)
    ensures song.Some? ==> TrayMenu(song, state)[0] == NowPlaying(song.value.0, song.value.1) && TrayMenu(song, state)[1] == Separator
    ensures song.None? ==> TrayMenu(song, state)[0] == ShowHide
    ensures TrayMenu(song, state)[|TrayMenu(song, state)| - 2..] == [Separator, Quit]
  {
  }

  /** `rebuild_tray_menu`: the menu installed on the tray "main-tray", or an
      error when there is no such tray. */
  function RebuildTrayMenu(trayFound: bool, song: Option<(string, string)>, state: string): (r: Result<seq<MenuEntry>, string>)
    ensures !trayFound ==> r == Err("Tray not found")
    ensures trayFound ==> r == Ok(TrayMenu(song, state))
  {
    if trayFound then Ok(TrayMenu(song, state)) else Err("Tray not found")
  }
}
