/** Discord rich presence (`src-tauri/src/discord.rs`): the slot holding
    the connected IPC client, and how a presence update fills, keeps or
    empties it. The IPC library is an oracle: the client
    `DiscordIpcClient::new` creates (or its failure) and whether each call
    on a client succeeds. The calls made are returned in order. */
module Discord {
  import opened Wrappers

  /** The application id the client registers with. */
  const AppId := "1438326240997281943"

  /** A client handle of the IPC library. */
  datatype Client = Client(handle: nat)

  /** The presence shown: the song title, "by {artist}", and the logo
      image with the text "Basitune". */
  datatype Activity = Activity(details: string, state: string, largeImage: string, largeText: string)

  /** A call on a client. */
  datatype IpcCall =
    | SetActivity(client: Client, activity: Activity)
    | Connect(client: Client)
    | ClearActivity(client: Client)

  function PresenceActivity(title: string, artist: string): Activity {
    Activity(title, "by " + artist, "logo", "Basitune")
  }

  /** `DiscordState`: the client slot, empty at start-up. */
  class DiscordState {
    var client: Option<Client>

    constructor ()
      ensures client.None?
    {
      client := None;
    }

    /** `update_discord_presence`. The client in the slot, if any, is
        asked to show the presence; if it refuses it is dropped. Then, with
        no client left, a new one is created, connected and asked; it is
        kept only when that succeeds. The command never fails, and the slot
        holds a client only after that client accepted the presence. */
    method UpdateDiscordPresence(title: string, artist: string, created: Option<Client>, succeeds: IpcCall -> bool)
      returns (r: Result<(), string>, calls: seq<IpcCall>)
      modifies this`client
      ensures r == Ok(())
      ensures client.Some? ==>
        calls != [] && calls[|calls| - 1] == SetActivity(client.value, PresenceActivity(title, artist))
        && succeeds(calls[|calls| - 1])
      ensures old(client).Some? ==> calls != [] && calls[0] == SetActivity(old(client).value, PresenceActivity(title, artist))
      ensures old(client).Some? && succeeds(SetActivity(old(client).value, PresenceActivity(title, artist))) ==>
        client == old(client) && |calls| == 1
      ensures client.Some? && client != old(client) ==> client == created && Connect(created.value) in calls
      ensures client.None? <==>
        (old(client).None? || !succeeds(SetActivity(old(client).value, PresenceActivity(title, artist))))
        && (created.None? || !succeeds(Connect(created.value))
            || !succeeds(SetActivity(created.value, PresenceActivity(title, artist))))
    {
      var activity := PresenceActivity(title, artist);
      calls := [];
      if client.Some? {
        var current := client.value;
        calls := [SetActivity(current, activity)];
        if succeeds(SetActivity(current, activity)) {
          return Ok(()), calls;
        }
        client := None;
      }
      if created.Some? {
        var newClient := created.value;
        calls := calls + [Connect(newClient)];
        if succeeds(Connect(newClient)) {
          calls := calls + [SetActivity(newClient, activity)];
          if succeeds(SetActivity(newClient, activity)) {
            client := Some(newClient);
          }
        }
      }
      r := Ok(());
    }

    /** `clear_discord_presence`: the client in the slot, if any, is asked
        to clear the presence; whatever it answers, the slot is left as it
        is and the command does not fail. */
    method ClearDiscordPresence() returns (r: Result<(), string>, calls: seq<IpcCall>)
      ensures r == Ok(())
      ensures calls == if client.Some? then [ClearActivity(client.value)] else []
    {
      if client.Some? {
        r, calls := Ok(()), [ClearActivity(client.value)];
      } else {
        r, calls := Ok(()), [];
      }
    }
  }
}
