# Basitune, modelled in Dafny

Basitune is a desktop wrapper around YouTube Music. It has two halves:

- **Page scripts.** These are injected into the YouTube Music page: an audio visualizer, a bridge from the player bar's volume slider to the `<video>` element, a playback bridge that reports state to the backend and restores a saved position, an audio diagnostics log and a sidebar with lyrics, artist information and visualizer settings.
- **A Tauri backend in Rust.** It holds the settings file, the content cache, the window-state manager and the sidebar window commands. It also covers the playback state and tray menu, desktop notifications, Discord rich presence, the Genius and OpenAI clients, and the start-up and close handling of the main window.

The project also models two small programs: the release script that stamps a build version into the manifests, and the idle-detection probe.

Each source file is one Dafny module:

- **Values and pure decisions** are datatypes and functions. Examples: cache keys, menu layouts, the chosen lyrics, escaping, index arithmetic.
- **Objects whose fields the source updates in place** are classes with `modifies` clauses. Examples: the visualizer engine, the diagnostics log, the sidebar's state, the cache, the configuration and window-state files, the playback state and the Discord client slot.
- **Loops of the source** are methods with loop invariants. Examples: the event buffer, the idle probe's maximum, the lyrics line trimming, the position-restore retries.

Everything outside the program's own logic is a parameter (an oracle): the DOM, the clock, timers, the network, the file system, environment variables, the window system and IPC. Files on disk are a `FileState` (missing, unparsable, or holding a value), and each write has an outcome that the caller supplies. Effects on the outside world are returned as sequences of calls.

Four modules model built-ins that the source relies on:

- `Wrappers`: Option and Result.
- `Text`: JavaScript `String.prototype` and Rust `str` helpers such as trim, split, join, replace and lower-casing.
- `JsNumber`: JavaScript `parseInt`, `Number(string)`, `toString(radix)` and `padStart`.
- `VisualizerGeometry`: the renderers' index and layout arithmetic.

Helper members of these modules that only serve proofs have no row below.

Three behaviours of the code are worth knowing before reading the table:

- The visualizer does no value clamping and has no colour palettes. Its ended handler makes a single `play()` attempt, with no retry loop.
- Cached lyrics are served even when they are blank (`Genius.BlankLyricsAreServed`).
- `save_sidebar_font_size` changes the font size in memory only. Like the other sidebar setters, it does not write the window-state file.

## Model

| member | source | states |
|---|---|---|
| VolumeFix.Clamp01 | volume-fix.js:10 | the result lies in [0, 1], equals the input inside that range, and is 0 below it and 1 above it |
| VolumeFix.ReadSliderVolume | volume-fix.js:17-25 | a reading exists exactly when there is a slider and `Number` of its first present source is finite; the reading is that number divided by 100 and clamped to [0, 1] |
| VolumeFix.RawNumberPrecedence | volume-fix.js:20 | `aria-valuenow` wins over the `value` attribute, which wins over the `value` property; with none of them there is no reading |
| VolumeFix.ReadSliderPercent | volume-fix.js:20-24 | a slider whose `aria-valuenow` is the decimal text of n ≤ 100 reads as n / 100 |
| VolumeFix.ShouldMute | volume-fix.js:37-38 | mute is asked for exactly when the reading is 0 or the lower-cased `aria-valuetext` contains "muted" (both directions) |
| VolumeFix.SyncVolume | volume-fix.js:27-42 | without a video or a slider nothing is written; otherwise the volume is written exactly when it is more than 0.01 from the reading and `muted` exactly when it differs from the asked value, and afterwards both agree with the slider |
| IdleDetection.MostRecentActivity | test_idle_detection/src/main.rs:18-32 | the loop computes `LatestAccess` of the listing (0 when the directory cannot be read): at least every readable access time and either 0 or one of them |
| IdleDetection.LatestAccess | test_idle_detection/src/main.rs:18-32 | the maximum of the readable access times: at least every one of them, and 0 or one of them |
| IdleDetection.IdleSeconds | test_idle_detection/src/main.rs:35 | the saturating difference: never above `now`, the exact gap when the activity is not in the future, 0 otherwise |
| IdleDetection.IdleMinutes | test_idle_detection/src/main.rs:36 | whole minutes rounded down: minutes·60 ≤ idle < (minutes+1)·60 |
| IdleDetection.CheckIdle | test_idle_detection/src/main.rs:18-46 | the idle time is `IdleSeconds(now, m)` for the maximum access time m, so at most `now`, and `now` when no time is readable; the verdict blocks exactly above 1800 seconds |
| IdleDetection.BlockIsMonotone | test_idle_detection/src/main.rs:42 | with no new activity, a blocking verdict stays blocking at every later time |
| PlaybackControls.PlayState.Name | playback-controls.js:192 | the reported name is one of "none", "paused", "playing" |
| PlaybackControls.GetPlaybackState | playback-controls.js:193-208 | "playing" iff a loaded video is neither paused nor ended; "paused" iff a loaded video that is not at time 0 while paused is paused or ended; "none" iff no video, no usable source or duration, or paused at time 0 |
| PlaybackControls.IsPlaying | playback-controls.js:176-181 | true iff a video exists, is neither paused nor ended and its time is past 0 |
| PlaybackControls.IsPlayingAgrees | playback-controls.js:193-208 | the two checks agree on a loaded video past time 0; an unpaused video at time 0 is reported "playing" although `isPlaying` is false |
| PlaybackControls.TwoDigits | playback-controls.js:33 | two decimal digits whose value is n |
| PlaybackControls.TwoDigitsIsPadded | playback-controls.js:33 | the two digits are `n.toString().padStart(2, '0')` |
| PlaybackControls.MinutesSeconds | playback-controls.js:31-32 | seconds below 60 and 60·minutes + seconds is the whole part of the duration |
| PlaybackControls.DurationTextReadsBack | playback-controls.js:30-34 | the `m:ss` text splits at its ':' into digits whose values give back the whole seconds of the duration |
| PlaybackControls.DurationOf | playback-controls.js:30-34 | a duration text exists exactly when the video's duration is usable (truthy and not NaN) |
| PlaybackControls.AlbumOf | playback-controls.js:37-47 | an album exists exactly when the trimmed subtitle contains '•'; it is the trimmed text between the first '•' and the next one (or the end) |
| PlaybackControls.GetCurrentSongInfo | playback-controls.js:18-53 | present exactly when both the artist link and the title exist; artist and title are their trimmed texts, with the duration and album rules above |
| PlaybackControls.GetCurrentPlaybackState | playback-controls.js:343-358 | present exactly when there is song information and a video; carries that song, the video's time, `isPlaying`, and a duration that is never unknown (NaN reads as 0) |
| PlaybackControls.SnapshotRestores | playback-controls.js:370-378 | a saved snapshot names the song it came from, so the restore matches it, and a position strictly inside the duration is one the restore seeks to |
| PlaybackControls.OrNull | playback-controls.js:93-94 | JavaScript's "value or null": present exactly for a non-empty string, and then unchanged |
| PlaybackControls.Monitor.constructor | playback-controls.js:13-16 | the script starts with state "none" and no song |
| PlaybackControls.Monitor.UpdatePlaybackState | playback-controls.js:125-132 | the recorded state becomes the current one; the backend is told only when it changed, and only when `invoke` exists |
| PlaybackControls.Monitor.ApplyExpectedState | playback-controls.js:224-227 | the delayed half of a control records the expected state and sends it without looking at the video |
| PlaybackControls.Monitor.UpdateTrayTooltip | playback-controls.js:55-100 | a vanished song clears the tooltip once; an unchanged title and artist send nothing; a first song updates the tooltip only; a changed song updates it and asks for a notification with empty duration or album sent as null |
| PlaybackControls.Notify | playback-controls.js:107-123 | exactly one state message when an `invoke` exists, none otherwise |
| PlaybackControls.Play | playback-controls.js:212-232 | acts exactly on a present, paused video, through the button when there is one, and expects "playing" |
| PlaybackControls.Pause | playback-controls.js:234-254 | acts exactly on a present video that is not paused and expects "paused" |
| PlaybackControls.PlayPauseExclusive | playback-controls.js:216 | play and pause never both act on one snapshot, and on a present video exactly one of them does |
| PlaybackControls.TogglePlayPause | playback-controls.js:256-287 | succeeds exactly with a button or a video; the button path clicks and re-reads the state; the video path plays a paused video and pauses a playing one, expecting the opposite state; with neither nothing happens |
| PlaybackControls.ToggleIsPlayOrPause | playback-controls.js:256-287 | without the button, toggling a video is exactly `play` when it is paused and `pause` otherwise |
| PlaybackControls.Stop | playback-controls.js:289-301 | succeeds exactly with a video, pausing and rewinding it and expecting "none"; without one nothing is done and nothing is expected |
| PlaybackControls.Skip | playback-controls.js:303-327 | next and previous succeed exactly when their button exists, click it and re-read the state; without it nothing is clicked or re-read |
| PlaybackControls.RestorePlaybackPosition | playback-controls.js:361-406 | gives up exactly when none of the 50 tries sees the saved song (case-insensitively) with a usable video; otherwise settles at the first such try, seeks exactly when 0 < position < duration, and resumes exactly when it seeks, should play and the video is paused |
| Visualizer.RendererFor | visualizer.js:214-239 | the renderer chosen for a style has that style's name; a style matching no name selects no renderer |
| Visualizer.RendererForStyleName | visualizer.js:214-239 | each of the eleven renderers is selected by its own style name and by no other string |
| Visualizer.InitialGainOfNumeral | visualizer.js:82-92 | a slider showing the numeral of n gives the gain n / 100 |
| Visualizer.InitialGainFallback | visualizer.js:83-87 | no slider, or an empty slider value, gives 0.7; a non-empty value without leading digits gives NaN |
| Visualizer.EndedPlayCalls | visualizer.js:106-120 | at most one play() call, made exactly when a next button exists and the element is paused 500 ms later |
| Visualizer.VisualizerEngine.constructor | visualizer.js:28-46 | nothing connected, no canvas, inactive; style "bars", colours #ff0000 and #0a0a0a, sensitivity 1 |
| Visualizer.VisualizerEngine.InitializeAudioContext | visualizer.js:55-135 | an element is wrapped at most once and stays wrapped; the gain is written only when the context is first created; success means connected |
| Visualizer.VisualizerEngine.CreateAudioGraph | visualizer.js:69-92 | the context exists unless its constructor fails; the gain is the slider's gain, and a NaN gain fails after the nodes exist |
| Visualizer.VisualizerEngine.SetCanvas | visualizer.js:138-144 | the canvas is replaced; the drawing context changes only with a present element |
| Visualizer.VisualizerEngine.ResizeCanvas | visualizer.js:147-158 | the canvas takes its container's size in whole pixels; without canvas or container nothing changes |
| Visualizer.VisualizerEngine.Render | visualizer.js:208-240 | an inactive loop does nothing; an active one schedules the next frame, then fails without analyser or canvas, else draws the style's renderer |
| Visualizer.VisualizerEngine.Start | visualizer.js:161-185 | no effect when active or without canvas and context; otherwise an unconnected tap is set up as `initializeAudioContext` does (wrapped at most once, gain set only on first creation, connected exactly when creation and wrapping succeed), the loop becomes active with the next frame handle, and the first frame draws the style's renderer, or throws without an audio context |
| Visualizer.VisualizerEngine.Stop | visualizer.js:188-205 | an active loop becomes inactive with no pending frame, and the canvas is cleared with the background colour exactly when it can be |
| Visualizer.VisualizerEngine.UpdateSettings | visualizer.js:697-704 | each supplied field replaces its setting, the string fields only when non-empty, with no range check |
| Visualizer.Clamp255 | visualizer.js:686-688 | the result lies in [0, 255], is the input inside that range and the nearer bound outside it |
| Visualizer.ParseHexPair | visualizer.js:686-688 | parseInt of two hex digits in radix 16 is the value they denote |
| Visualizer.Hex2IsPaddedRadix | visualizer.js:691-693 | the two-digit writer equals toString(16) padded to two with '0' |
| Visualizer.Hex2Value | visualizer.js:691-693 | the two digits written for a channel are lower-case hex and read back as that channel |
| Visualizer.ChannelText | visualizer.js:686-693 | a channel is written as "NaN" or as two lower-case hex digits |
| Visualizer.AdjustColorBrightness | visualizer.js:683-694 | the result starts with '#' and has at least seven characters, whatever the input |
| Visualizer.AdjustHexColor | visualizer.js:685-688 | on a #rrggbb colour the three substr pairs are the colour's three channels |
| Visualizer.AdjustColorChannels | visualizer.js:683-694 | a #rrggbb colour gives a lower-case #rrggbb colour whose every channel is the input channel plus amount, clamped to [0, 255] |
| Visualizer.AdjustColorIdentity | visualizer.js:683-694 | amount 0 returns a lower-case #rrggbb colour unchanged |
| VisualizerGeometry.Spread | visualizer.js:424 | floor((i / count) * n) stays below n for i below count and is n at i = count |
| VisualizerGeometry.BlobIndicesAsWritten | visualizer.js:550-553 | the blob reads 33 samples, one per vertex 0..32 |
| VisualizerGeometry.BlobIndices | visualizer.js:550-553 | the corrected blob reads 33 samples, the closing vertex wrapping round |
| VisualizerGeometry.WaveformIndices | visualizer.js:279-290 | the waveform reads only indices of its 256-sample time-domain buffer |
| VisualizerGeometry.SampleIndicesInBounds | visualizer.js:243-680 | with at least 127 bins, every style (the blob corrected) reads only samples that exist |
| VisualizerGeometry.BlobAsWrittenReadsPastEnd | visualizer.js:550-553 | the closing vertex of the blob as written reads index bufferLength, one past the end |
| VisualizerGeometry.BlobIndicesAgree | visualizer.js:550-553 | the corrected blob differs from the written one only at the closing vertex |
| VisualizerGeometry.BlobCloses | visualizer.js:550-553 | the corrected closing vertex reads the same sample as the first vertex |
| VisualizerGeometry.BarLayout | visualizer.js:243-267 | one rectangle per sample; bar i starts i steps of barWidth + 1 from the left and rises from the bottom by its scaled height |
| VisualizerGeometry.BarHeightBounds | visualizer.js:255 | a byte sample's bar is between 0 and height times sensitivity |
| VisualizerGeometry.BarsPastRightEdge | visualizer.js:251-265 | every bar from index 2n/5 on starts at or past the right edge |
| VisualizerGeometry.WaveformPoints | visualizer.js:270-304 | one vertex per time-domain sample at i slices from the left, then a last vertex at the middle of the right edge |
| VisualizerGeometry.SilenceIsFlat | visualizer.js:289-292 | at sensitivity 1, silence draws at half the height, every byte sample stays on the canvas, and a louder sample is never drawn higher up |
| AudioDiagnostics.Pushed | src/scripts/audio-diagnostics.js:34-37 | the buffer never exceeds 1000 events and ends with the new one; below the bound nothing is lost, at the bound exactly the oldest is dropped |
| AudioDiagnostics.Newest | src/scripts/audio-diagnostics.js:15 | the newest k events, or all of them when there are fewer |
| AudioDiagnostics.PushAll | src/scripts/audio-diagnostics.js:34-37 | logging any number of events keeps the buffer within 1000 |
| AudioDiagnostics.PushAllKeepsNewest | src/scripts/audio-diagnostics.js:34-37 | after any sequence of logged events the buffer is exactly the newest 1000 of all events, in logging order |
| AudioDiagnostics.Diagnostics.constructor | src/scripts/audio-diagnostics.js:12-23 | empty event and mark lists, zero counters, start time and watchdog references at their first readings |
| AudioDiagnostics.Diagnostics.LogEvent | src/scripts/audio-diagnostics.js:26-41 | the returned event carries the time since start; it is appended to the bounded buffer |
| AudioDiagnostics.Diagnostics.MarkPerformance | src/scripts/audio-diagnostics.js:44-57 | the new mark is appended to the mark list and returned |
| AudioDiagnostics.Diagnostics.OnVolumeChange | src/scripts/audio-diagnostics.js:107-114 | the volume-change count grows by one and an entry carrying it is logged |
| AudioDiagnostics.Diagnostics.OnAudioContextCreated | src/scripts/audio-diagnostics.js:146-149 | the creation count grows by one, one entry is logged and one mark recorded |
| AudioDiagnostics.Diagnostics.OnTimeUpdate | src/scripts/audio-diagnostics.js:124-140 | a gap is logged exactly when more than 500 ms of wall-clock time passed and the video plays, as an entry stamped with the page clock relative to the start time; the references move on to the wall-clock reading and the video time either way |
| AudioDiagnostics.Diagnostics.CheckFrameRate | src/scripts/audio-diagnostics.js:195-209 | a frame drop is logged exactly when the frame took more than 32 ms; the reference moves on |
| AudioDiagnostics.Diagnostics.OnPerformanceEntry | src/scripts/audio-diagnostics.js:177-185 | an entry is logged exactly when it lasted more than 50 ms |
| AudioDiagnostics.Diagnostics.Clear | src/scripts/audio-diagnostics.js:223-230 | events and marks emptied and the three counters zeroed |
| AudioDiagnostics.Diagnostics.GetStats | src/scripts/audio-diagnostics.js:215-221 | the counters as kept, the buffer's length (at most 1000) and the uptime in seconds |
| SidebarScript.ResizeWidth | src/scripts/sidebar.js:1408-1410 | the dragged width always lies in [280, 800]; inside that range it is the start width plus the leftward pointer travel, outside it the nearer bound |
| SidebarScript.Adopt | src/scripts/sidebar.js:2849-2856 | a persisted value in range is adopted; anything else (0 included) keeps the current value |
| SidebarScript.Sidebar.constructor | src/scripts/sidebar.js:15-21 | no song, hidden, artist tab, width 760, font size 14, not resizing; the state is valid |
| SidebarScript.Sidebar.LoadSavedState | src/scripts/sidebar.js:2846-2863 | a failed load changes nothing; otherwise width and font size are adopted only in range, and visibility always |
| SidebarScript.Sidebar.MouseDown | src/scripts/sidebar.js:1396-1404 | a drag starts at the pointer from the current width |
| SidebarScript.Sidebar.MouseMove | src/scripts/sidebar.js:1406-1413 | while dragging, the width and the layout width follow the pointer within [280, 800]; otherwise nothing changes |
| SidebarScript.Sidebar.MouseUp | src/scripts/sidebar.js:1415-1423 | a drag ends, and the width is saved exactly when one was in progress |
| SidebarScript.Sidebar.DecreaseFontSize | src/scripts/sidebar.js:1443-1450 | two points smaller but not below 10, and saved; at 10 nothing changes and nothing is saved |
| SidebarScript.Sidebar.IncreaseFontSize | src/scripts/sidebar.js:1452-1459 | two points larger but not above 24, and saved; at 24 nothing changes and nothing is saved |
| SidebarScript.Sidebar.ToggleSidebar | src/scripts/sidebar.js:2214-2238 | visibility flips, the layout width is the sidebar width or 0, and the new visibility is saved |
| SidebarScript.Sidebar.SwitchTab | src/scripts/sidebar.js:1785-1829 | the tab becomes active; the lyrics tab fetches lyrics for the known song, else for the shown song, else nothing; other tabs start their loader |
| SidebarScript.Sidebar.OnPlayerBarMutation | src/scripts/sidebar.js:2776-2797 | the song becomes the shown one; artist info is fetched only for a new artist, and context, lyrics and presence only for a new title |
| SidebarScript.Sidebar.InitialSongCheck | src/scripts/sidebar.js:2804-2815 | a song already shown becomes current and every fetch is started for it |
| SidebarScript.SongFetches | src/scripts/sidebar.js:2789-2794 | a new title starts three requests, the lyrics fetch among them |
| SidebarScript.TabLoader | src/scripts/sidebar.js:1820-1828 | at most one loader; the artist tab and unknown tabs start none |
| SidebarScript.SameSongNoRefetch | src/scripts/sidebar.js:2780-2795 | a mutation showing the song already current starts nothing |
| SidebarScript.BreakPoint | src/scripts/sidebar.js:2267-2271 | when a ". " starts at or beyond 70% of maxLength, the cut is the last ". "; otherwise it is the last space, and -1 exactly when the text has no space |
| SidebarScript.LateSentenceIsLast | src/scripts/sidebar.js:2267-2268 | some ". " lies at or beyond 70% of maxLength exactly when the last one does |
| SidebarScript.Prefix | src/scripts/sidebar.js:2273 | substring(0, end): its length is end clamped to [0, \|s\|] and it is the prefix of that length |
| SidebarScript.VisibleText | src/scripts/sidebar.js:2264-2273 | the visible text is the prefix, up to the break point, of the trimmed first maxLength characters, followed by "..." |
| SidebarScript.MakeExpandable | src/scripts/sidebar.js:2259-2294 | content of at most maxLength is returned unchanged; longer content is replaced by markup holding the visible text |
| SidebarScript.FirstMatch | src/scripts/sidebar.js:2683-2710 | the view chosen is the fallback or the view of some rule |
| SidebarScript.FirstMatchIsFirst | src/scripts/sidebar.js:2683-2710 | the first rule that matches decides the view |
| SidebarScript.LyricsErrorViewIsFirstMatch | src/scripts/sidebar.js:2683-2710 | the if-chain over substrings equals the ordered rule table |
| SidebarScript.LyricsErrorOrder | src/scripts/sidebar.js:2683-2701 | a token error wins over all others; a timeout with no earlier match is a connection error |
| SidebarScript.UpdateControlVisibility | src/scripts/sidebar.js:1854-1881 | each optional control is shown exactly for its listed styles |
| SidebarScript.ControlsCoverRenderers | src/scripts/sidebar.js:1854-1881 | every style the visualizer draws shows bar spacing or line thickness, never both, except particles, which shows its count and speed |
| SidebarScript.ValueOr | src/scripts/sidebar.js:2158 | a missing or empty value gives the fallback, any other value itself |
| SidebarScript.SaveVisualizerSettings | src/scripts/sidebar.js:2143-2173 | each missing or empty control takes its default (bars, red, single, 1, 1, 10, 1, 80, 2); a filled numeric control is its `Number` (particles: `parseInt`); glow is on only when checked |
| SidebarScript.SaveVisualizerNumerals | src/scripts/sidebar.js:2143-2173 | a sensitivity and a particle count written as decimal numerals are saved as the numbers they spell |
| SidebarScript.SaveVisualizerDefaults | src/scripts/sidebar.js:2156-2169 | with no controls the saved settings are bars, red, 1, single, 1, no glow, 10, 1, 80 and 2 |
| Utils.NormalChar | src-tauri/src/utils.rs:7-22 | each character becomes a normal one (not upper-case, not in the accent table); whitespace is kept as whitespace, and a normal character is kept as is |
| Utils.FoldAccentFacts | src-tauri/src/utils.rs:11-21 | folding keeps a non-upper-case character non-upper-case, is idempotent and neither makes nor removes whitespace |
| Utils.NormalizeString | src-tauri/src/utils.rs:3-24 | the key has the trimmed input's length, is itself trimmed, and every character is the normal form of the trimmed input's character |
| Utils.NormalizeIdempotent | src-tauri/src/utils.rs:3-24 | normalising a key again gives the same key |
| Utils.NormalizeIgnoresCase | src-tauri/src/utils.rs:6-7 | a name and its lower-cased form give the same key |
| Utils.TrimOfLower | src-tauri/src/utils.rs:6-7 | trimming and lower-casing commute |
| Utils.Utf8Length | src-tauri/src/utils.rs:64 | the byte length is at least the character count |
| Utils.ShortIsAscii | src-tauri/src/utils.rs:64 | a line of fewer than two bytes is empty or one ASCII character |
| Utils.TrailingJunkIsLeadingJunk | src-tauri/src/utils.rs:57-79 | a line dropped at the end would also be dropped at the start |
| Utils.GeniusLineKeptAtEnd | src-tauri/src/utils.rs:62 | a line mentioning "Genius" is dropped at the start but kept at the end |
| Utils.JunkPrefix | src-tauri/src/utils.rs:55-70 | the count of leading junk lines: all counted lines are junk and the next is not |
| Utils.JunkSuffix | src-tauri/src/utils.rs:73-85 | the count of trailing junk lines: all counted lines are junk and the one before is not |
| Utils.KeptLinesAreRun | src-tauri/src/utils.rs:52-87 | the kept lines are one contiguous run of the input, cut at the first non-junk line and after the last non-junk line |
| Utils.AllJunkKeepsNothing | src-tauri/src/utils.rs:55-70 | text whose every line is leading junk keeps no line |
| Utils.CleanLyricsWithRegex | src-tauri/src/utils.rs:51-88 | the two loops return exactly the trimmed join of the kept run of lines |
| Utils.DropLeadingJunk | src-tauri/src/utils.rs:55-70 | the remove(0) loop drops exactly the leading junk lines |
| Utils.DropTrailingJunk | src-tauri/src/utils.rs:73-85 | the pop() loop drops exactly the trailing junk lines |
| Utils.CleanSongTitle | src-tauri/src/utils.rs:26-49 | the title is trimmed and is a substring of what the tag patterns leave |
| Cache.LoadCache | src-tauri/src/cache.rs:26-38 | the stored contents when the file holds a cache, otherwise three empty tables |
| Cache.WithEntry | src-tauri/src/cache.rs:61 | the key maps to the new value in its table; every other key of that table and both other tables are unchanged |
| Cache.WithEntryIdempotent | src-tauri/src/cache.rs:58-63 | inserting the same entry twice equals inserting it once |
| Cache.WithEntryCommutes | src-tauri/src/cache.rs:57-79 | inserts into different tables commute |
| Cache.CacheStore.constructor | src-tauri/src/cache.rs:18-24 | the store reads the given cache file |
| Cache.CacheStore.Load | src-tauri/src/cache.rs:26-38 | the stored cache when the file parses, otherwise the empty cache |
| Cache.CacheStore.Save | src-tauri/src/cache.rs:40-55 | a successful write leaves the file holding the cache; a failed one leaves it as it was, or unparsable when it truncated the file |
| Cache.CacheStore.UpdateArtistInfo | src-tauri/src/cache.rs:58-63 | the file afterwards holds the loaded cache with the artist entry inserted; a failed write leaves it unchanged or, when it truncated the file, unparsable |
| Cache.CacheStore.UpdateSongContext | src-tauri/src/cache.rs:66-71 | the same for the song-context table |
| Cache.CacheStore.UpdateLyrics | src-tauri/src/cache.rs:74-79 | the same for the lyrics table |
| Cache.UpdateOfUnparsableFile | src-tauri/src/cache.rs:29-37 | an update over an unreadable file writes a cache holding only the new entry |
| OpenAi.ReplyResult | src-tauri/src/ai/openai.rs:45-67 | success exactly when the reply has a choice, and then the first choice's content; no choice and an error status give their messages |
| OpenAi.CallOpenAi | src-tauri/src/ai/openai.rs:27-68 | nothing is sent without a key, and the call then fails with the configuration message; with a key one request (gpt-4o-mini, one user message holding the prompt, the given token limit) is sent and its reply decides |
| OpenAi.CacheKeysIgnoreCase | src-tauri/src/ai/openai.rs:76 | artist and song keys do not change with letter case or surrounding whitespace |
| OpenAi.CachedAnswer | src-tauri/src/ai/openai.rs:81-86 | a stored answer is served exactly when present and not blank after trimming |
| OpenAi.StoredAnswerIsServed | src-tauri/src/ai/openai.rs:81-96 | a non-blank answer stored under a key is served for it afterwards, and what other keys serve is unchanged |
| OpenAi.FormatLyricsWithAi | src-tauri/src/ai/openai.rs:135-145 | one request carrying the formatting prompt with a limit of 500 tokens, or the missing-key error |
| OpenAi.GetArtistInfo | src-tauri/src/ai/openai.rs:70-99 | a non-blank cached summary is returned with no request and no write; otherwise the API decides, and only a success is written under the artist's key, with the cache's write outcome |
| OpenAi.GetSongContext | src-tauri/src/ai/openai.rs:101-133 | the same rule for a song under its artist-and-title key |
| Genius.ProseNeedsOnlyHe | src-tauri/src/ai/genius.rs:53-57 | the prose test holds exactly when the "he" tests or the long-text test hold; the "she" tests add nothing |
| Genius.CachedLyrics | src-tauri/src/ai/genius.rs:50-63 | cached lyrics are served exactly when present and not prose, and then unchanged |
| Genius.BlankLyricsAreServed | src-tauri/src/ai/genius.rs:50-61 | an empty cached lyrics entry is served as it is |
| Genius.FirstPrimary | src-tauri/src/ai/genius.rs:100-132 | the index of the first hit that passes the song filter and matches artist and title; none when no hit does |
| Genius.FirstSong | src-tauri/src/ai/genius.rs:133-140 | the index of the first hit typed "song"; none when no hit is |
| Genius.SelectHit | src-tauri/src/ai/genius.rs:100-141 | the first primary match, else the first song-typed hit, else "No results found"; a chosen hit is one of the hits and passes the song filter |
| Genius.TopResults | src-tauri/src/ai/genius.rs:221-225 | the first ten hits, unfiltered and in order |
| Genius.SearchHits | src-tauri/src/ai/genius.rs:203-217 | the hits exactly when the reply has them; each failure gives its message |
| Genius.SearchLyrics | src-tauri/src/ai/genius.rs:183-226 | no token gives the token error; a reply with hits gives its first ten results; any other reply gives its error unchanged |
| Genius.RawLyrics | src-tauri/src/ai/genius.rs:252-258 | an error exactly when the page text is blank after trimming; otherwise non-empty trimmed text taken from the page |
| Genius.ExtractRawLyrics | src-tauri/src/ai/genius.rs:228-259 | the nested loops compute exactly the trimmed page text, or the extraction error |
| Genius.AppendContainer | src-tauri/src/ai/genius.rs:239-248 | the inner loop appends exactly the container's text |
| Genius.ContainerTextKeeps | src-tauri/src/ai/genius.rs:239-241 | every text node of a container reaches the container's text |
| Genius.PageTextKeeps | src-tauri/src/ai/genius.rs:237-250 | every text node of every container reaches the page text |
| Genius.NoTextNoLyrics | src-tauri/src/ai/genius.rs:237-256 | a page whose containers hold no text node gives the extraction error |
| Genius.ChooseLyrics | src-tauri/src/ai/genius.rs:161-175 | the AI answer unless the call failed or refused, otherwise the regex clean-up of the raw text |
| Genius.RefusalNeverKept | src-tauri/src/ai/genius.rs:164-167 | a refusal is never kept, unless the regex clean-up itself reads as one |
| Genius.LyricsOfPage | src-tauri/src/ai/genius.rs:146-175 | lyrics exactly when the page downloads and has text, and then the chosen clean-up of its raw text |
| Genius.FetchLyrics | src-tauri/src/ai/genius.rs:65-175 | no token gives the token error; a failed search or hit selection passes its error through; otherwise the result is what the selected hit's page yields |
| Genius.GetLyrics | src-tauri/src/ai/genius.rs:34-181 | cached non-prose lyrics are returned with nothing fetched; otherwise the fetch decides, and only a success is written under the song's key, with the cache's write outcome |
| Genius.LyricsFromPage | src-tauri/src/ai/genius.rs:146-175 | the steps after the download compute exactly the page's lyrics |
| Config.LoadConfig | src-tauri/src/config.rs:90-100 | the stored record when the file holds one; otherwise the default, with no credentials and no saved position |
| Config.GeniusToken | src-tauri/src/config.rs:102-111 | the environment variable wins; otherwise the file's token |
| Config.OpenAiKey | src-tauri/src/config.rs:113-122 | the environment variable wins; otherwise the file's key |
| Config.NonEmpty | src-tauri/src/config.rs:135-136 | an empty form value is absent, any other value is kept |
| Config.WithCredentials | src-tauri/src/config.rs:130-156 | the credentials and three switches come from the form; every other field is the existing one |
| Config.WithVisualizer | src-tauri/src/config.rs:176-190 | the ten visualizer fields are set; every other field is unchanged |
| Config.WithPlayback | src-tauri/src/config.rs:210-218 | the four playback fields are set; every other field is unchanged |
| Config.PlaybackPositionOf | src-tauri/src/config.rs:242-261 | a position exactly when all four playback fields are present, holding their values |
| Config.PlaybackRoundTrip | src-tauri/src/config.rs:209-261 | a saved position reads back exactly as saved |
| Config.SavesPreserveEachOther | src-tauri/src/config.rs:130-218 | saving the form or the visualizer settings keeps the saved position; saving a position keeps the credentials and commutes with saving visualizer settings |
| Config.EmptyCredentialIsUnset | src-tauri/src/config.rs:102-136 | clearing a credential in the form leaves it unconfigured unless the environment supplies it |
| Config.ConfigFile.constructor | src-tauri/src/config.rs:82-88 | the store reads the given settings file |
| Config.ConfigFile.Load | src-tauri/src/config.rs:90-100 | the stored record when the file parses, otherwise the default |
| Config.ConfigFile.Store | src-tauri/src/config.rs:158-172 | success exactly when both the directory and the write succeed; a directory failure is reported with its message and leaves the file unchanged; a write failure is reported and leaves the file unchanged or, when it truncated the file, unparsable |
| Config.ConfigFile.SaveConfig | src-tauri/src/config.rs:129-173 | on success the file holds the loaded record with the form's fields; a directory failure leaves it unchanged; a write failure leaves it unchanged or, when it truncated the file, unparsable |
| Config.ConfigFile.SaveVisualizerSettings | src-tauri/src/config.rs:175-207 | on success the file holds the loaded record with the visualizer fields set; a directory failure leaves it unchanged; a write failure leaves it unchanged or, when it truncated the file, unparsable |
| Config.ConfigFile.SavePlaybackPosition | src-tauri/src/config.rs:209-240 | on success the file holds the loaded record with the position set; a directory failure leaves it unchanged; a write failure leaves it unchanged or, when it truncated the file, unparsable |
| SidebarBackend.SaturatingSub | src-tauri/src/sidebar.rs:144 | never above the minuend; the exact difference when it is not negative, else 0 |
| SidebarBackend.WrappingAdd | src-tauri/src/sidebar.rs:188 | the exact sum below 2^32, the sum less 2^32 above it |
| SidebarBackend.LoadWindowState | src-tauri/src/sidebar.rs:12-34 | the stored state, or 1280 x 720 at (100, 100), not maximised, no monitor, sidebar hidden, 400 wide, font size 14 |
| SidebarBackend.ToggleCalls | src-tauri/src/sidebar.rs:142-163 | showing narrows the YouTube window by the sidebar width (never below 0), puts the sidebar at its right edge with the same height and shows it, the two filling the old width when the sidebar fits; hiding hides it and restores the YouTube size |
| SidebarBackend.ResizedWidthWithoutOverflow | src-tauri/src/sidebar.rs:188-189 | without overflow the sum-then-subtract gives the YouTube width back |
| SidebarBackend.ResizedWidthOverflows | src-tauri/src/sidebar.rs:188-189 | a sidebar width of 2^32 - 1 with a 1280-pixel window gives a YouTube width of 0 |
| SidebarBackend.ResizeCalls | src-tauri/src/sidebar.rs:191-202 | the YouTube window keeps its size and the sidebar goes at its right edge with the new width and the same height |
| SidebarBackend.LookupError | src-tauri/src/sidebar.rs:133-140 | no error exactly when both windows exist and the geometry reads; the missing YouTube window is reported before the missing sidebar |
| SidebarBackend.WindowStateManager.constructor | src-tauri/src/sidebar.rs:12-34 | the state is the loaded one |
| SidebarBackend.WindowStateManager.Get | src-tauri/src/sidebar.rs:42-44 | the current window state |
| SidebarBackend.WindowStateManager.SetSidebarVisible | src-tauri/src/sidebar.rs:85-89 | only the visibility changes, in memory |
| SidebarBackend.WindowStateManager.SetSidebarWidth | src-tauri/src/sidebar.rs:97-101 | only the width changes, in memory |
| SidebarBackend.WindowStateManager.SetSidebarFontSize | src-tauri/src/sidebar.rs:109-120 | only the font size changes, in memory, for both commands |
| SidebarBackend.WindowStateManager.SaveSilent | src-tauri/src/sidebar.rs:56-76 | a successful write leaves the file holding the current state; a failed one leaves it as it was, or unparsable when it truncated the file; the state is unchanged |
| SidebarBackend.WindowStateManager.ToggleSidebar | src-tauri/src/sidebar.rs:122-166 | the visibility is recorded even when a lookup fails; otherwise the planned calls, with the width read before the update, are made up to and including the first that fails, whose message is the error |
| SidebarBackend.WindowStateManager.ResizeSidebar | src-tauri/src/sidebar.rs:168-205 | the width is recorded even when a lookup fails; otherwise the intended resize calls are made up to and including the first that fails, whose message is the error |
| SidebarBackend.Attempted | src-tauri/src/sidebar.rs:145-162 | the calls made are a prefix of the planned ones: all of them, or those up to and including the failing one |
| SidebarBackend.CallError | src-tauri/src/sidebar.rs:192-202 | an error exactly when a planned call fails, carrying that call's message |
| PlaybackBackend.PlaybackState.constructor | src-tauri/src/playback.rs:9-21 | the state starts as "none" with no song |
| PlaybackBackend.PlaybackState.GetState | src-tauri/src/playback.rs:27-29 | the stored state |
| PlaybackBackend.PlaybackState.GetCurrentSong | src-tauri/src/playback.rs:39-41 | the stored song |
| PlaybackBackend.PlaybackState.SetState | src-tauri/src/playback.rs:23-29 | the next read gives the state just set |
| PlaybackBackend.PlaybackState.SetCurrentSong | src-tauri/src/playback.rs:31-33 | the next read gives the (title, artist) just set |
| PlaybackBackend.PlaybackState.ClearCurrentSong | src-tauri/src/playback.rs:35-41 | the next read gives no song |
| PlaybackBackend.PlaybackState.IsPlaying | src-tauri/src/playback.rs:111-114 | `playback_is_playing`: true exactly when the stored state is "playing" |
| PlaybackBackend.PlaybackState.UpdatePlaybackState | src-tauri/src/playback.rs:111-124 | the state is stored before the menu is rebuilt, so `playback_is_playing` then holds exactly for "playing"; the rebuilt menu offers pause exactly then; a missing tray is an error after the state changed |
| PlaybackBackend.PlaybackState.UpdateTrayTooltip | src-tauri/src/playback.rs:127-145 | the song is recorded exactly when title and artist are both non-empty, else cleared; the rebuilt menu opens with the song entry exactly in the first case |
| PlaybackBackend.AudioContextReady | src-tauri/src/playback.rs:147-151 | the command always succeeds |
| Tray.TrayMenu | src-tauri/src/tray.rs:23-141 | each of the six literal menus is the song header, show/hide, a separator, previous, the transport items of the state, next, a separator and quit |
| Tray.TrayMenuItems | src-tauri/src/tray.rs:34-141 | pause appears iff the state is "playing", play iff it is not, stop iff it is "playing" or "paused"; show/hide, previous, next and quit always appear |
| Tray.TrayMenuEnds | src-tauri/src/tray.rs:24-32 | with a song the menu opens with the disabled song entry and a separator, without one with show/hide; it always ends with a separator and quit |
| Tray.RebuildTrayMenu | src-tauri/src/tray.rs:143-151 | the menu is installed when the tray "main-tray" exists, otherwise the error "Tray not found" |
| Notifications.BodyParts | src-tauri/src/notifications.rs:22-34 | "by {artist}" first, then "from {album}" only for a non-empty album, then the duration only when non-empty |
| Notifications.ShowNotification | src-tauri/src/notifications.rs:5-120 | a notification is shown exactly when notifications are enabled (unset counts as off); the command fails only outside Linux when the service fails, with the service's message after "Failed to show notification: " |
| Notifications.BodyLayout | src-tauri/src/notifications.rs:22-47 | the summary is the title after the note sign; the body opens with "by {artist}", is exactly that with no album or duration, and is the three parts joined by " • " with both |
| Discord.DiscordState.constructor | src-tauri/src/discord.rs:11-17 | the client slot starts empty |
| Discord.DiscordState.UpdateDiscordPresence | src-tauri/src/discord.rs:19-100 | the command never fails; a kept client is tried first and dropped when it refuses; the slot ends holding a client only when that client accepted the presence, and is empty exactly when both the old client and the new one failed |
| Discord.DiscordState.ClearDiscordPresence | src-tauri/src/discord.rs:102-119 | a connected client is asked to clear, nothing is asked otherwise, and the command never fails |
| MainApp.EscapeForScript | src-tauri/src/main.rs:97-98 | the two passes escape each backslash and each double quote exactly once, and leave a name without either unchanged |
| MainApp.TwoPassesEscapeEachCharacter | src-tauri/src/main.rs:97-98 | doubling backslashes before escaping quotes equals character-by-character escaping |
| MainApp.EscapeReadsBack | src-tauri/src/main.rs:84-98 | a name without line breaks, escaped and put between double quotes, reads back as the name |
| MainApp.RestoreCallOf | src-tauri/src/main.rs:58-101 | the restore script is made exactly when a playback position is saved, with its position, "true" exactly when it was playing, and names that read back unchanged |
| MainApp.RestoreThrottle | src-tauri/src/main.rs:69-81 | the restore is skipped exactly when a non-empty stored time parses and lies less than five minutes back; otherwise the current time is stored |
| MainApp.RestoreBlocksFiveMinutes | src-tauri/src/main.rs:69-81 | after a restore at a given time, a later restore is skipped exactly within the next five minutes |
| MainApp.PlacementCalls | src-tauri/src/main.rs:376-395 | the size is always set, the position exactly when both coordinates are non-negative, a maximised window is unmaximised first and maximised last before it is shown |
| MainApp.OnCloseRequested | src-tauri/src/main.rs:398-431 | with close-to-tray on, the window hides and nothing changes; otherwise a readable size and position replace those of the state with the maximised flag (false when unreadable), and the file is the outcome of writing that state |
| BuildVersion.BuildNumber | scripts/set-build-version.js:10-20 | the run number when set, else the trimmed output of the rev-list count when non-empty, else the Unix time in whole seconds; never empty |
| BuildVersion.SelectVersion | scripts/set-build-version.js:43-52 | an explicit version wins, then the text after "refs/tags/v" when non-empty, then "0.1." and the build number |
| BuildVersion.VersionNeverEmpty | scripts/set-build-version.js:43-52 | whatever the environment, the selected version is non-empty |
| BuildVersion.UpdatePackageJson | scripts/set-build-version.js:61-64 | the version is set and every other key is kept |
| BuildVersion.UpdateTauriConf | scripts/set-build-version.js:66-72 | the top-level version is set; the version of an object "package" is set; everything else is kept |
| BuildVersion.VersionMatchAt | scripts/set-build-version.js:75 | a match begins at a line start with "version" and ends on a closing double quote |
| BuildVersion.FirstVersionMatch | scripts/set-build-version.js:75 | the leftmost match: no match starts before it, and none at all when it is absent |
| BuildVersion.UpdateCargoToml | scripts/set-build-version.js:74-76 | only the first version line is replaced by the new line, the rest of the text is kept, and a text with no version line is unchanged |
| BuildVersion.SplicedLineMatches | scripts/set-build-version.js:74-76 | the written line is itself matched where it was put, when the version holds no double quote |

## Left out

- I/O of every kind is a parameter or a returned call list. This covers canvas drawing, DOM queries and element construction, styling, timers (`setInterval`, `setTimeout`, `requestAnimationFrame`), console logging, `println!`/`eprintln!`, the file system, HTTP, IPC and the window system.
- Floating point: numbers are reals or unbounded integers. Rounding to double precision, NaN propagation inside arithmetic and `toFixed` formatting are not modelled.
- The sidebar's `parseFloat` of a settings input is modelled by `Number(string)`. The two differ only on text with trailing characters after the numeral, which a range input's value never has.
- SidebarScript.MakeExpandable, SidebarScript.VisibleText, SidebarScript.BreakPoint, SidebarScript.Prefix: lengths and indices count characters (Unicode scalar values), not the UTF-16 code units that JavaScript's `length`, `substring` and `lastIndexOf` count. Text with characters outside the Basic Multilingual Plane, such as emoji, is cut at a different place than in the source, and the source can split a surrogate pair, which the model cannot.
- Unicode whitespace: trimming covers the ASCII whitespace and U+00A0 only. Rust's `trim` also removes U+0085, which JavaScript's does not, and both remove further Unicode spaces such as U+2000 to U+200A. Inputs holding those characters are not modelled. Lower-casing covers ASCII and Latin-1. JavaScript's `\s` is listed explicitly.
- Utils.NormalizeString: the accented letters in the source's table are UTF-8 bytes re-read as single-byte characters (two characters per literal). The model uses the Latin-1 table they evidently spell (ä to a, and so on).
- Utils.CleanSongTitle: the regular expressions that strip edition tags are one opaque step. The contract states only that the result is trimmed and lies inside what that step leaves, not which tags go.
- Utils.Utf8Length: the contract gives only the lower bound of one byte per character. What `len() < 2` means is stated by `Utils.ShortIsAscii`.
- Tray.TrayMenu: the note sign of the song entry is written in the source as three mis-decoded characters of its UTF-8 encoding. The model uses the intended U+266A.
- Tray.RebuildTrayMenu: failures to construct a menu item or a separator, and of `set_menu`, are not modelled. Only the missing tray is an error.
- SidebarBackend.ToggleCalls: the sidebar's x coordinate is computed on unbounded integers. The source's `as i32` cast and `i32` addition would wrap or panic beyond 2^31.
- SidebarBackend.ResizeCalls: the sidebar's x coordinate is likewise computed on unbounded integers, without the `as i32` cast of the YouTube width and the `i32` addition.
- SidebarBackend.ResizeCalls: models the resize as evidently intended. The as-written overflow is under Findings. In a debug build the overflowing `u32` add panics instead of wrapping.
- In `src-tauri/src/main.rs` the placement and close calls discard their failures (`let _ =`), so the model does not model them there. The sidebar commands do model them: a failure is the index of the failing planned call with its message. Which call fails is a parameter.
- SidebarBackend.WindowStateManager.SaveSilent, Cache.CacheStore.Save, Config.ConfigFile.Store: a failed `fs::write` either leaves the old file or truncates it. A truncated or partly written file is modelled as one that no longer parses. The model assumes such a file never happens to parse as a valid record.
- JSON: key order, indentation, serialization failures and a top-level value that is not an object are not modelled. BuildVersion.UpdatePackageJson and BuildVersion.UpdateTauriConf take already-parsed objects: the release script's exit with status 1 on a manifest that does not parse, before anything is written, is not modelled.
- BuildVersion.UpdateTauriConf: an array-valued `package` passes the script's object test but gains no visible field, and is kept as it is.
- MainApp.EscapeReadsBack: holds only for names without line feeds or carriage returns. The source does not escape those, and the script literal would then break.
- MainApp.RestoreCallOf: the `{}` formatting of the `f64` position is not modelled. The position is passed as a number.
- Concurrency: the mutexes of the backend state, the async runtime, the Linux notification thread and its action buttons are out of scope. Each command is one atomic step.
- The playback transport commands in `src-tauri/src/playback.rs` (play, pause, toggle, stop, next, previous) only evaluate a JavaScript snippet in the page and are not modelled.
- The tray menu-event handlers, the tray icon click and the quit handler's save script in `src-tauri/src/main.rs` are not modelled.
- The updater (`src-tauri/src/updater.rs`), `src-tauri/src/lib.rs` and the top-level `sidebar.js` and `volume-normalizer.js` are not part of this model.
- `localStorage` exceptions, and `$` patterns in the replacement string of JavaScript `replace`, are not modelled.
- Idle probe: the `/proc/uptime` read and the printed report are not modelled.
- `playback-controls.js`: `getStatus`, `debug`, `hasSongLoaded`, the button finders, `attachVideoListeners` and the `setInterval` scheduling are not modelled. The button clicks are returned as calls.
- `audio-diagnostics.js`: `exportLog`, `getEvents`, `getPerformanceMarks`, the retry in `monitorVideo`, the video listeners other than `volumechange` and `timeupdate`, and the audio context's `statechange` listener are not modelled.
- SidebarScript.Sidebar.constructor: `startWidth` starts at 760 rather than 0. It is only read after a mousedown has set it, so the difference cannot be observed.
- Visualizer: resuming a suspended audio context, the per-style canvas drawing and the `Date.now()` wobble of the blob and particles are not modelled.
- The lyrics search UI of the sidebar, URL encoding of the Genius query and a failure of the `reqwest` client builder are not modelled.

## Findings

| source | as written | input that shows it | evidently intended | confidence | as-written member | corrected member |
|---|---|---|---|---|---|---|
| visualizer.js:550-553 | the blob's closing vertex (i = 32 of 32) reads `dataArray[Math.floor(bufferLength)]`, one past the end, so its radius is NaN | any `bufferLength`, e.g. 1024: vertex 32 reads index 1024 | the closing vertex reads the first vertex's sample (index 0), which closes the outline | high, not executed | VisualizerGeometry.BlobAsWrittenReadsPastEnd | VisualizerGeometry.SampleIndicesInBounds |
| src-tauri/src/sidebar.rs:188-189 | `youtube_size.width + width` is a `u32` add that wraps (in release), then `saturating_sub(width)` | YouTube width 1280 and sidebar width 2^32 - 1 give a YouTube width of 0 | the YouTube window keeps its width | medium, not executed | SidebarBackend.ResizedWidthOverflows | SidebarBackend.ResizeCalls |
