/** The settings file of the backend (`src-tauri/src/config.rs`): one record
    of optional fields in `config.json`, read whole and rewritten whole by
    each command. The file is an abstract store holding the last value
    written; environment variables are parameters. Floating-point fields
    are reals. */
module Config {
  import opened Wrappers

  /** Rust's `i32` and `u32`. */
  newtype I32 = n: int | -0x8000_0000 <= n < 0x8000_0000
  newtype U32 = n: int | 0 <= n < 0x1_0000_0000

  /** `ApiConfig`: credentials, three switches, the last playback position
      and the visualizer settings, each possibly absent. */
  datatype ApiConfig = ApiConfig(
    openaiApiKey: Option<string>,
    geniusAccessToken: Option<string>,
    closeToTray: Option<bool>,
    enableNotifications: Option<bool>,
    resumePlaybackOnStartup: Option<bool>,
    lastSongArtist: Option<string>,
    lastSongTitle: Option<string>,
    lastPositionSeconds: Option<real>,
    wasPlaying: Option<bool>,
    visualizerStyle: Option<string>,
    visualizerColor: Option<string>,
    visualizerSensitivity: Option<real>,
    colorPalette: Option<string>,
    animationSpeed: Option<real>,
    glowEnabled: Option<bool>,
    glowIntensity: Option<real>,
    barSpacing: Option<real>,
    particleCount: Option<I32>,
    lineThickness: Option<real>)

  /** `ApiConfig::default()`: every field absent. */
  const DefaultConfig := ApiConfig(None, None, None, None, None, None, None, None, None,
    None, None, None, None, None, None, None, None, None, None)

  /** `VisualizerSettings` as the page sends it. */
  datatype VisualizerSettings = VisualizerSettings(
    style: string, color: string, sensitivity: real, colorPalette: string, animationSpeed: real,
    glowEnabled: bool, glowIntensity: real, barSpacing: real, particleCount: I32, lineThickness: real)

  /** `PlaybackPosition`. */
  datatype PlaybackPosition = PlaybackPosition(artist: string, title: string, positionSeconds: real, wasPlaying: bool)

  /** `WindowState`: the main window's geometry and the sidebar's state. */
  datatype WindowState = WindowState(
    width: U32, height: U32, x: I32, y: I32, maximized: bool, monitorIndex: Option<nat>,
    sidebarVisible: bool, sidebarWidth: U32, sidebarFontSize: U32)

  /** `WindowState::default()`. */
  const DefaultWindowState := WindowState(1280, 720, 100, 100, false, None, false, 400, 14)

  /** `load_config`: the stored record, or the all-absent default when the
      file is missing or does not parse (`get_config` returns the same). */
  function LoadConfig(file: FileState<ApiConfig>): (c: ApiConfig)
    ensures file.Holds? ==> c == file.contents
    ensures !file.Holds? ==> c == DefaultConfig
    ensures !file.Holds? ==>
      && c.openaiApiKey.None? && c.geniusAccessToken.None? && c.enableNotifications.None?
      && c.closeToTray.None? && PlaybackPositionOf(c).None?
  {
    if file.Holds? then file.contents else DefaultConfig
  }

  /** `get_genius_token`: the `GENIUS_ACCESS_TOKEN` variable when set,
      otherwise the token in the settings file. */
  function GeniusToken(env: Option<string>, file: FileState<ApiConfig>): (t: Option<string>)
    ensures env.Some? ==> t == env
    ensures env.None? ==> t == LoadConfig(file).geniusAccessToken
  {
    if env.Some? then env else LoadConfig(file).geniusAccessToken
  }

  /** `get_openai_key`: the `OPENAI_API_KEY` variable when set, otherwise
      the key in the settings file. */
  function OpenAiKey(env: Option<string>, file: FileState<ApiConfig>): (k: Option<string>)
    ensures env.Some? ==> k == env
    ensures env.None? ==> k == LoadConfig(file).openaiApiKey
  {
    if env.Some? then env else LoadConfig(file).openaiApiKey
  }

  /** An empty string from the settings form means "not configured". */
  function NonEmpty(s: string): (r: Option<string>)
    ensures r.None? <==> s == []
    ensures r.Some? ==> r.value == s
  {
    if s == [] then None else Some(s)
  }

  /** The record `save_config` writes: the two credentials (absent when
      empty) and the three switches from the form, everything else from
      the existing record. */
  function WithCredentials(existing: ApiConfig, openaiApiKey: string, geniusAccessToken: string,
                           closeToTray: bool, enableNotifications: bool, resumePlaybackOnStartup: bool): (c: ApiConfig)
    ensures c.openaiApiKey == NonEmpty(openaiApiKey) && c.geniusAccessToken == NonEmpty(geniusAccessToken)
    ensures c.closeToTray == Some(closeToTray) && c.enableNotifications == Some(enableNotifications)
    ensures c.resumePlaybackOnStartup == Some(resumePlaybackOnStartup)
    ensures c.(openaiApiKey := existing.openaiApiKey, geniusAccessToken := existing.geniusAccessToken,
               closeToTray := existing.closeToTray, enableNotifications := existing.enableNotifications,
               resumePlaybackOnStartup := existing.resumePlaybackOnStartup) == existing
  {
    ApiConfig(
      NonEmpty(openaiApiKey), NonEmpty(geniusAccessToken),
      Some(closeToTray), Some(enableNotifications), Some(resumePlaybackOnStartup),
      existing.lastSongArtist, existing.lastSongTitle, existing.lastPositionSeconds, existing.wasPlaying,
      existing.visualizerStyle, existing.visualizerColor, existing.visualizerSensitivity,
      existing.colorPalette, existing.animationSpeed, existing.glowEnabled, existing.glowIntensity,
      existing.barSpacing, existing.particleCount, existing.lineThickness)
  }

  /** The record `save_visualizer_settings` writes: the ten visualizer
      fields set, every other field as it was. */
  function WithVisualizer(c: ApiConfig, s: VisualizerSettings): (r: ApiConfig)
    ensures r.visualizerStyle == Some(s.style) && r.visualizerColor == Some(s.color)
    ensures r.visualizerSensitivity == Some(s.sensitivity) && r.colorPalette == Some(s.colorPalette)
    ensures r.animationSpeed == Some(s.animationSpeed) && r.glowEnabled == Some(s.glowEnabled)
    ensures r.glowIntensity == Some(s.glowIntensity) && r.barSpacing == Some(s.barSpacing)
    ensures r.particleCount == Some(s.particleCount) && r.lineThickness == Some(s.lineThickness)
    ensures r.(visualizerStyle := c.visualizerStyle, visualizerColor := c.visualizerColor,
               visualizerSensitivity := c.visualizerSensitivity, colorPalette := c.colorPalette,
               animationSpeed := c.animationSpeed, glowEnabled := c.glowEnabled,
               glowIntensity := c.glowIntensity, barSpacing := c.barSpacing,
               particleCount := c.particleCount, lineThickness := c.lineThickness) == c
  {
    c.(visualizerStyle := Some(s.style), visualizerColor := Some(s.color),
       visualizerSensitivity := Some(s.sensitivity), colorPalette := Some(s.colorPalette),
       animationSpeed := Some(s.animationSpeed), glowEnabled := Some(s.glowEnabled),
       glowIntensity := Some(s.glowIntensity), barSpacing := Some(s.barSpacing),
       particleCount := Some(s.particleCount), lineThickness := Some(s.lineThickness))
  }

  /** The record `save_playback_position` writes: the four playback fields
      set, every other field as it was. */
  function WithPlayback(c: ApiConfig, artist: string, title: string, positionSeconds: real, wasPlaying: bool): (r: ApiConfig)
    ensures r.lastSongArtist == Some(artist) && r.lastSongTitle == Some(title)
    ensures r.lastPositionSeconds == Some(positionSeconds) && r.wasPlaying == Some(wasPlaying)
    ensures r.(lastSongArtist := c.lastSongArtist, lastSongTitle := c.lastSongTitle,
               lastPositionSeconds := c.lastPositionSeconds, wasPlaying := c.wasPlaying) == c
  {
    c.(lastSongArtist := Some(artist), lastSongTitle := Some(title),
       lastPositionSeconds := Some(positionSeconds), wasPlaying := Some(wasPlaying))
  }

  /** `get_playback_position`: present iff all four playback fields are. */
  function PlaybackPositionOf(c: ApiConfig): (p: Option<PlaybackPosition>)
    ensures p.Some? <==> c.lastSongArtist.Some? && c.lastSongTitle.Some? && c.lastPositionSeconds.Some? && c.wasPlaying.Some?
    ensures p.Some? ==> p.value.artist == c.lastSongArtist.value && p.value.title == c.lastSongTitle.value
    ensures p.Some? ==> p.value.positionSeconds == c.lastPositionSeconds.value && p.value.wasPlaying == c.wasPlaying.value
  {
    match (c.lastSongArtist, c.lastSongTitle, c.lastPositionSeconds, c.wasPlaying)
    case (Some(artist), Some(title), Some(position), Some(wasPlaying)) =>
      Some(PlaybackPosition(artist, title, position, wasPlaying))
    case _ => None
  }

  /** A saved position reads back as saved. */
  lemma PlaybackRoundTrip(c: ApiConfig, artist: string, title: string, positionSeconds: real, wasPlaying: bool)
    ensures PlaybackPositionOf(WithPlayback(c, artist, title, positionSeconds, wasPlaying))
      == Some(PlaybackPosition(artist, title, positionSeconds, wasPlaying))
  {
  }

  /** Saving the settings form or the visualizer settings keeps the saved
      playback position; saving the playback position keeps the
      credentials and the visualizer settings. */
  lemma SavesPreserveEachOther(c: ApiConfig, key: string, token: string, tray: bool, notify: bool, resume: bool,
                               s: VisualizerSettings, artist: string, title: string, position: real, playing: bool)
    ensures PlaybackPositionOf(WithCredentials(c, key, token, tray, notify, resume)) == PlaybackPositionOf(c)
    ensures PlaybackPositionOf(WithVisualizer(c, s)) == PlaybackPositionOf(c)
    ensures WithPlayback(c, artist, title, position, playing).openaiApiKey == c.openaiApiKey
    ensures WithPlayback(c, artist, title, position, playing).geniusAccessToken == c.geniusAccessToken
    ensures WithPlayback(WithVisualizer(c, s), artist, title, position, playing)
      == WithVisualizer(WithPlayback(c, artist, title, position, playing), s)
  {
  }

  /** Clearing a credential in the form makes it unconfigured, unless the
      environment supplies it. */
  lemma EmptyCredentialIsUnset(c: ApiConfig, tray: bool, notify: bool, resume: bool)
    ensures OpenAiKey(None, Holds(WithCredentials(c, "", "", tray, notify, resume))) == None
    ensures GeniusToken(None, Holds(WithCredentials(c, "", "", tray, notify, resume))) == None
  {
  }

  /** The file `config.json`. */
  class ConfigFile {
    var file: FileState<ApiConfig>

    constructor (file: FileState<ApiConfig>)
      ensures this.file == file
    {
      this.file := file;
    }

    function Load(): (c: ApiConfig)
      reads this
      ensures file.Holds? ==> c == file.contents
      ensures !file.Holds? ==> c == DefaultConfig
    {
      LoadConfig(file)
    }

    /** The common tail of the three save commands: create the directory,
        then write; the first failure is reported with its message. A failed
        directory creation leaves the file as it was; a failed write leaves
        it as it was or, when it failed after truncating, unparsable. */
    method Store(c: ApiConfig, mkdir: Result<(), string>, write: WriteOutcome) returns (r: Result<(), string>)
      modifies this
      ensures r.Ok? <==> mkdir.Ok? && write.Written?
      ensures mkdir.Err? ==> r == Err("Failed to create config directory: " + mkdir.error)
      ensures mkdir.Ok? && write.WriteFailed? ==> r == Err("Failed to write config file: " + write.reason)
      ensures file == if mkdir.Err? then old(file) else AfterWrite(old(file), c, write)
    {
      if mkdir.Err? {
        return Err("Failed to create config directory: " + mkdir.error);
      }
      file := AfterWrite(file, c, write);
      if write.WriteFailed? {
        return Err("Failed to write config file: " + write.reason);
      }
      r := Ok(());
    }

    /** `save_config`. */
    method SaveConfig(openaiApiKey: string, geniusAccessToken: string, closeToTray: bool,
                      enableNotifications: bool, resumePlaybackOnStartup: bool,
                      mkdir: Result<(), string>, write: WriteOutcome) returns (r: Result<(), string>)
      modifies this
      ensures r.Ok? <==> mkdir.Ok? && write.Written?
      ensures file == if mkdir.Err? then old(file)
                      else AfterWrite(old(file), WithCredentials(old(Load()), openaiApiKey, geniusAccessToken,
                                                                 closeToTray, enableNotifications, resumePlaybackOnStartup), write)
    {
      var existing := Load();
      var config := WithCredentials(existing, openaiApiKey, geniusAccessToken, closeToTray, enableNotifications, resumePlaybackOnStartup);
      r := Store(config, mkdir, write);
    }

    /** `save_visualizer_settings`. */
    method SaveVisualizerSettings(settings: VisualizerSettings, mkdir: Result<(), string>, write: WriteOutcome)
      returns (r: Result<(), string>)
      modifies this
      ensures r.Ok? <==> mkdir.Ok? && write.Written?
      ensures file == if mkdir.Err? then old(file) else AfterWrite(old(file), WithVisualizer(old(Load()), settings), write)
    {
      var config := Load();
      config := config.(visualizerStyle := Some(settings.style));
      config := config.(visualizerColor := Some(settings.color));
      config := config.(visualizerSensitivity := Some(settings.sensitivity));
      config := config.(colorPalette := Some(settings.colorPalette));
      config := config.(animationSpeed := Some(settings.animationSpeed));
      config := config.(glowEnabled := Some(settings.glowEnabled));
      config := config.(glowIntensity := Some(settings.glowIntensity));
      config := config.(barSpacing := Some(settings.barSpacing));
      config := config.(particleCount := Some(settings.particleCount));
      config := config.(lineThickness := Some(settings.lineThickness));
      r := Store(config, mkdir, write);
    }

    /** `save_playback_position`. */
    method SavePlaybackPosition(artist: string, title: string, positionSeconds: real, wasPlaying: bool,
                                mkdir: Result<(), string>, write: WriteOutcome) returns (r: Result<(), string>)
      modifies this
      ensures r.Ok? <==> mkdir.Ok? && write.Written?
      ensures file == if mkdir.Err? then old(file) else AfterWrite(old(file), WithPlayback(old(Load()), artist, title, positionSeconds, wasPlaying), write)
    {
      var config := Load();
      config := config.(lastSongArtist := Some(artist));
      config := config.(lastSongTitle := Some(title));
      config := config.(lastPositionSeconds := Some(positionSeconds));
      config := config.(wasPlaying := Some(wasPlaying));
      r := Store(config, mkdir, write);
    }
  }
}
