/** Song notifications (`src-tauri/src/notifications.rs`): the enabled
    gate and the summary and body of `show_notification`. The desktop
    notification service is an oracle: the error it reports, if any. */
module Notifications {
  import opened Wrappers
  import opened Text
  import opened Config

  /** The separator between body parts: a bullet between two spaces. */
  const BodySeparator := " • "
  /** The summary's lead: a musical-notes sign and a space. */
  const SummaryLead := "\U{1F3B5} "
  const ShowError := "Failed to show notification: "

  datatype Notification = Notification(summary: string, body: string)

  /** On Linux the notification is shown from a thread of its own, so a
      failure is only logged; elsewhere it is returned. */
  datatype Platform = Linux | OtherPlatform

  /** What `show_notification` does: the notification it asks the
      service to show, if any, and its result. */
  datatype NotifyOutcome = NotifyOutcome(shown: Option<Notification>, result: Result<(), string>)

  /** The body parts: "by {artist}", then "from {album}" for a non-empty
      album, then the duration when it is non-empty. */
  function BodyParts(artist: string, album: Option<string>, duration: Option<string>): (parts: seq<string>)
    ensures |parts| == 1 + (if album.Some? && album.value != [] then 1 else 0)
                         + (if duration.Some? && duration.value != [] then 1 else 0)
    ensures parts[0] == "by " + artist
    ensures album.Some? && album.value != [] ==> parts[1] == "from " + album.value
    ensures duration.Some? && duration.value != [] ==> parts[|parts| - 1] == duration.value
  {
    var parts := ["by " + artist];
    var parts := if album.Some? && album.value != [] then parts + ["from " + album.value] else parts;
    if duration.Some? && duration.value != [] then parts + [duration.value] else parts
  }

  /** The notification for a song. */
  function SongNotification(title: string, artist: string, album: Option<string>, duration: Option<string>): Notification {
    Notification(SummaryLead + title, Join(BodyParts(artist, album, duration), BodySeparator))
  }

  /** `show_notification`. Nothing is shown unless `enable_notifications`
      is set to true in the loaded configuration (unset counts as false),
      and then the result is `Ok`. When enabled, one notification is
      shown; only outside Linux can its failure make the command fail. */
  function ShowNotification(config: FileState<ApiConfig>, title: string, artist: string,
                            duration: Option<string>, album: Option<string>,
                            platform: Platform, serviceError: Option<string>): (o: NotifyOutcome)
    ensures o.shown.Some? <==> LoadConfig(config).enableNotifications == Some(true)
    ensures o.shown.Some? ==> o.shown.value == SongNotification(title, artist, album, duration)
    ensures o.result.Err? <==> o.shown.Some? && platform == OtherPlatform && serviceError.Some?
    ensures o.result.Err? ==> o.result.error == ShowError + serviceError.value
  {
    var enabled := LoadConfig(config).enableNotifications.GetOr(false);
    if !enabled then NotifyOutcome(None, Ok(()))
    else
      var n := SongNotification(title, artist, album, duration);
      if platform == OtherPlatform && serviceError.Some? then NotifyOutcome(Some(n), Err(ShowError + serviceError.value))
      else NotifyOutcome(Some(n), Ok(()))
  }

  /** The summary is the title after the lead. The body always opens with
      "by {artist}"; with no album and no duration it is exactly that, and
      with both it is the three parts in order. */
  lemma BodyLayout(title: string, artist: string, album: Option<string>, duration: Option<string>)
    ensures SongNotification(title, artist, album, duration).summary[|SummaryLead|..] == title
    ensures StartsWith(SongNotification(title, artist, album, duration).body, "by " + artist)
    ensures (album.None? || album == Some([])) && (duration.None? || duration == Some([])) ==>
      SongNotification(title, artist, album, duration).body == "by " + artist
    ensures album.Some? && album.value != [] && duration.Some? && duration.value != [] ==>
      SongNotification(title, artist, album, duration).body
        == "by " + artist + BodySeparator + "from " + album.value + BodySeparator + duration.value
  {
    var parts := BodyParts(artist, album, duration);
    var body := Join(parts, BodySeparator);
    if |parts| == 1 {
      assert body == parts[0];
    } else {
      assert body == parts[0] + BodySeparator + Join(parts[1..], BodySeparator);
      assert body[..|parts[0]|] == parts[0];
      if |parts| == 3 {
        assert Join(parts[1..], BodySeparator) == parts[1] + BodySeparator + Join(parts[2..], BodySeparator);
        assert Join(parts[2..], BodySeparator) == parts[2];
      }
    }
  }
}
