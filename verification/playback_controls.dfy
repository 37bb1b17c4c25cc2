/** The playback bridge (`playback-controls.js`): it classifies the
    `<video>` element's state, tells the backend when that state or the
    current song changes, exposes guarded play/pause/stop/skip controls and
    restores a saved position with a bounded retry loop. DOM reads are
    parameters (snapshots of the element and of the player-bar text); IPC
    calls are returned as values; timers are explicit steps. */
module PlaybackControls {
  import opened Wrappers
  import opened Text
  import opened JsNumber

  /** The three states reported to the backend. */
  datatype PlayState = NoSong | Paused | Playing {
    function Name(): (s: string)
      ensures s in {"none", "paused", "playing"}
    {
      match this
      case NoSong => "none"
      case Paused => "paused"
      case Playing => "playing"
    }
  }

  type Seconds = r: real | r >= 0.0

  /** `video.duration`: NaN before metadata is known, `Infinity` for a
      stream, otherwise a non-negative number of seconds. */
  datatype MediaDuration = Unknown | Unbounded | Known(seconds: Seconds)

  /** A snapshot of the `<video>` element; `src` is "" when unset. */
  datatype Video = Video(src: string, duration: MediaDuration, currentTime: Seconds, paused: bool, ended: bool)

  /** `video.duration && !isNaN(video.duration) && video.duration > 0`. */
  predicate HasValidDuration(d: MediaDuration) {
    d.Unbounded? || (d.Known? && d.seconds > 0.0)
  }

  /** A source is set and its duration is usable. */
  predicate Loaded(v: Video) {
    v.src != "" && v.src != "about:blank" && HasValidDuration(v.duration)
  }

  /** `getPlaybackState`. "none" without a loaded video or before the first
      play (time 0 and paused); "paused" when paused or ended; otherwise
      "playing". */
  function GetPlaybackState(video: Option<Video>): (r: PlayState)
    ensures r == Playing <==> video.Some? && Loaded(video.value) && !video.value.paused && !video.value.ended
    ensures r == Paused <==> video.Some? && Loaded(video.value) && !(video.value.currentTime == 0.0 && video.value.paused)
                                && (video.value.paused || video.value.ended)
    ensures r == NoSong <==> video.None? || !Loaded(video.value) || (video.value.currentTime == 0.0 && video.value.paused)
  {
    match video
    case None => NoSong
    case Some(v) =>
      if v.src == "" || v.src == "about:blank" then NoSong
      else if !HasValidDuration(v.duration) then NoSong
      else if v.currentTime == 0.0 && v.paused then NoSong
      else if v.paused || v.ended then Paused
      else Playing
  }

  /** `isPlaying`. */
  function IsPlaying(video: Option<Video>): (b: bool)
    ensures b <==> video.Some? && !video.value.paused && !video.value.ended && video.value.currentTime > 0.0
  {
    match video
    case None => false
    case Some(v) => !v.paused && !v.ended && v.currentTime > 0.0
  }

  /** The two checks agree on a loaded video that has advanced past 0; at
      time 0 an unpaused element is reported "playing" though `isPlaying`
      is false. */
  lemma IsPlayingAgrees(v: Video)
    ensures Loaded(v) && IsPlaying(Some(v)) ==> GetPlaybackState(Some(v)) == Playing
    ensures GetPlaybackState(Some(v)) == Playing && v.currentTime > 0.0 ==> IsPlaying(Some(v))
    ensures Loaded(v) && v.currentTime == 0.0 && !v.paused && !v.ended ==>
      GetPlaybackState(Some(v)) == Playing && !IsPlaying(Some(v))
  {
  }

  // ---- Song information ----

  /** The song as read from the player bar. */
  datatype SongInfo = SongInfo(artist: string, title: string, duration: Option<string>, album: Option<string>)

  /** Two decimal digits of `n < 100`; `TwoDigitsIsPadded` shows this is
      `n.toString().padStart(2, '0')`. */
  function TwoDigits(n: nat): (r: string)
    requires n < 100
    ensures |r| == 2 && AllDigits(r, 10) && FromDigits(r, 10) == n
  {
    var r := [DigitChar(n / 10), DigitChar(n % 10)];
    assert r[..1] == [r[0]] && [r[0]][..0] == [];
    assert FromDigits(r[..1], 10) == n / 10;
    DivMod(n, 10);
    r
  }

  lemma TwoDigitsIsPadded(n: nat)
    requires n < 100
    ensures TwoDigits(n) == PadStart(Decimal(n), 2, '0')
  {
    if n < 10 {
      assert Decimal(n) == [DigitChar(n)];
      assert DigitChar(0) == '0';
    } else {
      assert ToRadix(n, 10) == ToRadix(n / 10, 10) + [DigitChar(n % 10)];
      assert ToRadix(n / 10, 10) == [DigitChar(n / 10)];
    }
  }

  /** Whole minutes and the remaining whole seconds of a duration. */
  function MinutesSeconds(d: Seconds): (ms: (nat, nat))
    ensures ms.1 < 60 && 60 * ms.0 + ms.1 == d.Floor
  {
    var whole: nat := d.Floor;
    (whole / 60, whole % 60)
  }

  /** The `m:ss` text of a known duration. */
  function DurationText(d: Seconds): string {
    var (m, s) := MinutesSeconds(d);
    Decimal(m) + ":" + TwoDigits(s)
  }

  /** Reading the `m:ss` text back gives the whole seconds of the duration:
      the part before ':' is the minutes, the two digits after it are the
      seconds, below 60. */
  lemma DurationTextReadsBack(d: Seconds)
    ensures var r := DurationText(d);
      var m := r[..|r| - 3];
      var s := r[|r| - 2..];
      && |r| >= 4 && r[|r| - 3] == ':'
      && AllDigits(m, 10) && AllDigits(s, 10)
      && FromDigits(s, 10) < 60
      && 60 * FromDigits(m, 10) + FromDigits(s, 10) == d.Floor
  {
    var (mins, secs) := MinutesSeconds(d);
    var r := DurationText(d);
    assert r[..|r| - 3] == Decimal(mins);
    assert r[|r| - 2..] == TwoDigits(secs);
    FromToRadix(mins, 10);
  }

  /** The text of `video.duration` when it is truthy and not NaN:
      `Infinity / 60` floors to Infinity and `Infinity % 60` is NaN. */
  function DurationOf(video: Option<Video>): (r: Option<string>)
    ensures r.Some? <==> video.Some? && HasValidDuration(video.value.duration)
  {
    match video
    case Some(Video(_, Known(d), _, _, _)) => if d > 0.0 then Some(DurationText(d)) else None
    case Some(Video(_, Unbounded, _, _, _)) => Some("Infinity:NaN")
    case _ => None
  }

  /** The album: the trimmed second '•'-separated part of the trimmed
      subtitle, only when the subtitle contains '•'. */
  function AlbumOf(subtitle: Option<string>): (r: Option<string>)
    ensures r.Some? <==> subtitle.Some? && '•' in Trim(subtitle.value)
    ensures r.Some? ==> IsTrimmed(r.value) && '•' !in r.value
    ensures r.Some? ==>
      var t := Trim(subtitle.value);
      var rest := t[IndexOfChar(t, '•') + 1..];
      var j := IndexOfChar(rest, '•');
      r.value == Trim(if j < 0 then rest else rest[..j])
  {
    match subtitle
    case None => None
    case Some(text) =>
      var t := Trim(text);
      if '•' in t then
        var parts := SplitOn(t, '•');
        SplitOnContaining(t, '•');
        SplitOnFirst(t, '•');
        SplitOnFirst(t[IndexOfChar(t, '•') + 1..], '•');
        Some(Trim(parts[1]))
      else None
  }

  /** `getCurrentSongInfo`: present only when both the artist link and the
      title element exist; their texts are trimmed. */
  function GetCurrentSongInfo(artistText: Option<string>, titleText: Option<string>, video: Option<Video>,
                              subtitle: Option<string>): (r: Option<SongInfo>)
    ensures r.Some? <==> artistText.Some? && titleText.Some?
    ensures r.Some? ==> r.value.artist == Trim(artistText.value) && r.value.title == Trim(titleText.value)
                        && r.value.duration == DurationOf(video) && r.value.album == AlbumOf(subtitle)
  {
    if artistText.Some? && titleText.Some? then
      Some(SongInfo(Trim(artistText.value), Trim(titleText.value), DurationOf(video), AlbumOf(subtitle)))
    else None
  }

  /** What `getCurrentPlaybackState` reports for saving: the song, the
      position (`currentTime || 0`), the duration (`duration || 0`, so an
      unknown duration reads 0) and `isPlaying`. */
  datatype PlaybackSnapshot = PlaybackSnapshot(artist: string, title: string, position: Seconds,
                                               duration: MediaDuration, isPlaying: bool)

  /** `getCurrentPlaybackState`: nothing without both a song and a video. */
  function GetCurrentPlaybackState(info: Option<SongInfo>, video: Option<Video>): (r: Option<PlaybackSnapshot>)
    ensures r.Some? <==> info.Some? && video.Some?
    ensures r.Some? ==> r.value.artist == info.value.artist && r.value.title == info.value.title
                        && r.value.position == video.value.currentTime && r.value.isPlaying == IsPlaying(video)
    ensures r.Some? ==> !r.value.duration.Unknown? && (video.value.duration.Unknown? || r.value.duration == video.value.duration)
  {
    if info.Some? && video.Some? then
      var v := video.value;
      var duration := if v.duration.Unknown? then Known(0.0) else v.duration;
      Some(PlaybackSnapshot(info.value.artist, info.value.title, v.currentTime, duration, IsPlaying(video)))
    else None
  }

  /** A saved snapshot names the song it was taken from, so a later
      restore recognises that song, and a position strictly inside a known
      duration is one the restore seeks to. */
  lemma SnapshotRestores(info: Option<SongInfo>, video: Option<Video>)
    requires GetCurrentPlaybackState(info, video).Some?
    ensures var s := GetCurrentPlaybackState(info, video).value;
      && MatchesSong(info, s.artist, s.title)
      && (HasValidDuration(video.value.duration) && s.position > 0.0
          && (video.value.duration.Known? ==> s.position < video.value.duration.seconds)
          ==> PositionFits(s.position, s.duration))
  {
  }

  // ---- Backend notifications ----

  /** The backend commands the script invokes. */
  datatype Call =
    | SendPlaybackState(state: string)
    | SendTooltip(title: string, artist: string)
    | SendNotification(title: string, artist: string, duration: Option<string>, album: Option<string>)

  /** `value || null` for an optional string. */
  function OrNull(o: Option<string>): (r: Option<string>)
    ensures r.Some? <==> o.Some? && o.value != ""
    ensures r.Some? ==> r == o
  {
    if o.Some? && o.value != "" then o else None
  }

  /** The same song: equal titles and artists (duration and album may differ). */
  predicate SameSong(a: SongInfo, b: SongInfo) {
    a.title == b.title && a.artist == b.artist
  }

  /** The script's memory between polls: `lastPlaybackState` and
      `lastSongInfo`. `invokeAvailable` is whether a Tauri `invoke` exists;
      without it calls are dropped but the memory is still updated. */
  class Monitor {
    var lastPlaybackState: PlayState
    var lastSongInfo: Option<SongInfo>

    constructor ()
      ensures lastPlaybackState == NoSong && lastSongInfo == None
    {
      lastPlaybackState := NoSong;
      lastSongInfo := None;
    }

    /** `updatePlaybackState`: the backend hears of the state only when it
        differs from the last one recorded, which it then becomes. */
    method UpdatePlaybackState(video: Option<Video>, invokeAvailable: bool) returns (calls: seq<Call>)
      modifies this`lastPlaybackState
      ensures lastPlaybackState == GetPlaybackState(video)
      ensures GetPlaybackState(video) == old(lastPlaybackState) ==> calls == []
      ensures GetPlaybackState(video) != old(lastPlaybackState) ==>
        calls == (if invokeAvailable then [SendPlaybackState(GetPlaybackState(video).Name())] else [])
    {
      var current := GetPlaybackState(video);
      calls := [];
      if current != lastPlaybackState {
        lastPlaybackState := current;
        calls := Notify(current, invokeAvailable);
      }
    }

    /** The delayed half of `play`, `pause`, `stop` and `togglePlayPause`:
        the expected state is recorded and sent without looking at the
        video. */
    method ApplyExpectedState(state: PlayState, invokeAvailable: bool) returns (calls: seq<Call>)
      modifies this`lastPlaybackState
      ensures lastPlaybackState == state
      ensures calls == (if invokeAvailable then [SendPlaybackState(state.Name())] else [])
    {
      lastPlaybackState := state;
      calls := Notify(state, invokeAvailable);
    }

    /** `updateTrayTooltip` with the song currently shown (`None` when the
        player bar has no artist or title). A vanished song clears the
        tooltip once. A changed song (or the first one) updates it; a
        notification is shown only when there was a previous song. */
    method UpdateTrayTooltip(info: Option<SongInfo>, invokeAvailable: bool) returns (calls: seq<Call>)
      modifies this`lastSongInfo
      ensures info.None? ==> lastSongInfo == None
      ensures info.None? && old(lastSongInfo).Some? ==> calls == (if invokeAvailable then [SendTooltip("", "")] else [])
      ensures info.None? && old(lastSongInfo).None? ==> calls == []
      ensures info.Some? && old(lastSongInfo).Some? && SameSong(info.value, old(lastSongInfo).value) ==>
        calls == [] && lastSongInfo == old(lastSongInfo)
      ensures info.Some? && old(lastSongInfo).None? ==>
        lastSongInfo == info && calls == (if invokeAvailable then [SendTooltip(info.value.title, info.value.artist)] else [])
      ensures info.Some? && old(lastSongInfo).Some? && !SameSong(info.value, old(lastSongInfo).value) ==>
        lastSongInfo == info &&
        calls == (if invokeAvailable then
          [SendTooltip(info.value.title, info.value.artist),
           SendNotification(info.value.title, info.value.artist, OrNull(info.value.duration), OrNull(info.value.album))]
          else [])
    {
      calls := [];
      match info {
        case None =>
          if lastSongInfo.Some? {
            lastSongInfo := None;
            if invokeAvailable {
              calls := [SendTooltip("", "")];
            }
          }
        case Some(song) =>
          if lastSongInfo.None? || !SameSong(song, lastSongInfo.value) {
            var isNewSong := lastSongInfo.Some?;
            lastSongInfo := info;
            if invokeAvailable {
              calls := [SendTooltip(song.title, song.artist)];
              if isNewSong {
                calls := calls + [SendNotification(song.title, song.artist, OrNull(song.duration), OrNull(song.album))];
              }
            }
          }
      }
    }
  }

  /** `notifyPlaybackState`. */
  function Notify(state: PlayState, invokeAvailable: bool): (calls: seq<Call>)
    ensures |calls| <= 1
    ensures invokeAvailable <==> calls == [SendPlaybackState(state.Name())]
  {
    if invokeAvailable then [SendPlaybackState(state.Name())] else []
  }

  // ---- Controls ----

  /** What a control does to the page right away. */
  datatype Action = NoAction | ClickPlayPause | ClickNext | ClickPrevious | VideoPlay | VideoPause | VideoStop

  /** What a control schedules: nothing, recording an expected state, or
      re-reading the video's state. */
  datatype FollowUp = NoFollowUp | Expect(state: PlayState) | Recheck

  datatype ControlResult = ControlResult(ok: bool, action: Action, followUp: FollowUp)

  /** `play`: acts only on a paused video, through the play/pause button
      when there is one. */
  function Play(video: Option<Video>, hasButton: bool): (r: ControlResult)
    ensures r.ok <==> video.Some? && video.value.paused
    ensures r.ok ==> r.followUp == Expect(Playing) && r.action == (if hasButton then ClickPlayPause else VideoPlay)
    ensures !r.ok ==> r.action == NoAction && r.followUp == NoFollowUp
  {
    if video.Some? && video.value.paused then
      ControlResult(true, if hasButton then ClickPlayPause else VideoPlay, Expect(Playing))
    else ControlResult(false, NoAction, NoFollowUp)
  }

  /** `pause`: acts only on a video that is not paused. */
  function Pause(video: Option<Video>, hasButton: bool): (r: ControlResult)
    ensures r.ok <==> video.Some? && !video.value.paused
    ensures r.ok ==> r.followUp == Expect(Paused) && r.action == (if hasButton then ClickPlayPause else VideoPause)
    ensures !r.ok ==> r.action == NoAction && r.followUp == NoFollowUp
  {
    if video.Some? && !video.value.paused then
      ControlResult(true, if hasButton then ClickPlayPause else VideoPause, Expect(Paused))
    else ControlResult(false, NoAction, NoFollowUp)
  }

  /** Play and pause never both act on the same snapshot, and on a present
      video exactly one of them does. */
  lemma PlayPauseExclusive(video: Option<Video>, hasButton: bool)
    ensures !(Play(video, hasButton).ok && Pause(video, hasButton).ok)
    ensures video.Some? ==> Play(video, hasButton).ok || Pause(video, hasButton).ok
  {
  }

  /** `togglePlayPause`: the button when present (state re-read later),
      otherwise the video directly with the expected state. */
  function TogglePlayPause(video: Option<Video>, hasButton: bool): (r: ControlResult)
    ensures r.ok <==> hasButton || video.Some?
    ensures hasButton ==> r == ControlResult(true, ClickPlayPause, Recheck)
    ensures !hasButton && video.Some? ==>
      r.followUp == Expect(if video.value.paused then Playing else Paused)
    ensures !hasButton && video.Some? ==> r.action == (if video.value.paused then VideoPlay else VideoPause)
    ensures !hasButton && video.None? ==> r == ControlResult(false, NoAction, NoFollowUp)
  {
    if hasButton then ControlResult(true, ClickPlayPause, Recheck)
    else match video
      case Some(v) =>
        if v.paused then ControlResult(true, VideoPlay, Expect(Playing))
        else ControlResult(true, VideoPause, Expect(Paused))
      case None => ControlResult(false, NoAction, NoFollowUp)
  }

  /** Without the button, toggling a video is playing it when paused and
      pausing it otherwise. */
  lemma ToggleIsPlayOrPause(video: Option<Video>)
    requires video.Some?
    ensures TogglePlayPause(video, false) == (if video.value.paused then Play(video, false) else Pause(video, false))
  {
  }

  /** `stop`: pause and rewind to 0, then report "none". */
  function Stop(video: Option<Video>): (r: ControlResult)
    ensures r.ok <==> video.Some?
    ensures r.ok ==> r.action == VideoStop && r.followUp == Expect(NoSong)
    ensures !r.ok ==> r.action == NoAction && r.followUp == NoFollowUp
  {
    if video.Some? then ControlResult(true, VideoStop, Expect(NoSong))
    else ControlResult(false, NoAction, NoFollowUp)
  }

  /** `next` and `previous`: a click when the button exists, then a
      re-read of the state. */
  function Skip(forward: bool, hasButton: bool): (r: ControlResult)
    ensures r.ok <==> hasButton
    ensures r.ok ==> r.action == (if forward then ClickNext else ClickPrevious) && r.followUp == Recheck
    ensures !r.ok ==> r.action == NoAction && r.followUp == NoFollowUp
  {
    if hasButton then ControlResult(true, if forward then ClickNext else ClickPrevious, Recheck)
    else ControlResult(false, NoAction, NoFollowUp)
  }

  // ---- Restoring a saved position ----

  /** `maxAttempts`: 50 tries, 100 ms apart. */
  const MaxRestoreAttempts: nat := 50

  /** What one try of `tryRestore` sees. */
  datatype Observation = Observation(info: Option<SongInfo>, video: Option<Video>)

  /** The song shown is the saved one, compared case-insensitively. */
  predicate MatchesSong(info: Option<SongInfo>, artist: string, title: string) {
    info.Some? && ToLower(info.value.artist) == ToLower(artist) && ToLower(info.value.title) == ToLower(title)
  }

  /** The saved song is showing and its video has a usable duration. */
  predicate Ready(o: Observation, artist: string, title: string) {
    MatchesSong(o.info, artist, title) && o.video.Some? && HasValidDuration(o.video.value.duration)
  }

  /** `0 < position < video.duration`. */
  predicate PositionFits(position: real, d: MediaDuration) {
    position > 0.0 && (d.Unbounded? || (d.Known? && position < d.seconds))
  }

  datatype RestoreOutcome =
    | GaveUp
    | Settled(attempt: nat, seek: bool, resume: bool)

  /** `restorePlaybackPosition`: try up to 50 times (`observe(k)` is what
      try `k` sees) until the saved song is ready; then seek only if the
      position lies strictly inside the video, and schedule a resume click
      only if it should play and the video is paused. */
  method RestorePlaybackPosition(artist: string, title: string, position: real, shouldPlay: bool,
                                 observe: nat -> Observation) returns (outcome: RestoreOutcome)
    ensures outcome.GaveUp? <==> forall k :: 0 <= k < MaxRestoreAttempts ==> !Ready(observe(k), artist, title)
    ensures outcome.Settled? ==>
      var o := observe(outcome.attempt);
      && outcome.attempt < MaxRestoreAttempts
      && Ready(o, artist, title)
      && (forall k :: 0 <= k < outcome.attempt ==> !Ready(observe(k), artist, title))
      && (outcome.seek <==> PositionFits(position, o.video.value.duration))
      && (outcome.resume <==> outcome.seek && shouldPlay && o.video.value.paused)
  {
    var attempts := 0;
    outcome := GaveUp;
    var done := false;
    while !done
      invariant 0 <= attempts <= MaxRestoreAttempts
      invariant forall k :: 0 <= k < attempts ==> !Ready(observe(k), artist, title)
      invariant !done ==> attempts < MaxRestoreAttempts && outcome.GaveUp?
      invariant done && outcome.GaveUp? ==> attempts == MaxRestoreAttempts
      invariant outcome.Settled? ==>
        (&& done && outcome.attempt == attempts && attempts < MaxRestoreAttempts
         && Ready(observe(attempts), artist, title)
         && (outcome.seek <==> PositionFits(position, observe(attempts).video.value.duration))
         && (outcome.resume <==> outcome.seek && shouldPlay && observe(attempts).video.value.paused))
      decreases MaxRestoreAttempts - attempts, !done
    {
      var o := observe(attempts);
      if Ready(o, artist, title) {
        var seek := PositionFits(position, o.video.value.duration);
        outcome := Settled(attempts, seek, seek && shouldPlay && o.video.value.paused);
        done := true;
      } else {
        attempts := attempts + 1;
        done := attempts >= MaxRestoreAttempts;
      }
    }
  }
}
