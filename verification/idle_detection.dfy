/** The idle-detection probe (`test_idle_detection/src/main.rs`): the
    latest access time over the input devices, the idle time it gives and
    the 30-minute verdict. The directory listing is a parameter: `None`
    when `/dev/input/by-path` cannot be read, otherwise one entry per
    device, `None` when its access time cannot be read, else that time in
    whole seconds since the epoch. The clock is a parameter too. */
module IdleDetection {
  import opened Wrappers

  /** Idle for longer than this many seconds would block playback. */
  const BlockAfterSeconds := 1800

  /** The latest readable access time of the listed devices, 0 when none
      can be read: the reference the probe's loop is proved against. */
  function LatestAccess(entries: seq<Option<nat>>): (latest: nat)
    ensures forall i :: 0 <= i < |entries| && entries[i].Some? ==> entries[i].value <= latest
    ensures latest == 0 || Some(latest) in entries
  {
    if entries == [] then 0
    else
      var front := entries[..|entries| - 1];
      var rest := LatestAccess(front);
      var last := entries[|entries| - 1];
      assert entries == front + [last];
      if last.Some? && last.value > rest then last.value else rest
  }

  /** The time the probe measures from: the latest access, or 0 when the
      directory cannot be read. */
  function LastActivity(listing: Option<seq<Option<nat>>>): nat {
    if listing.None? then 0 else LatestAccess(listing.value)
  }

  /** The running maximum, from 0: the latest access time, or 0 when no
      time could be read. */
  method MostRecentActivity(listing: Option<seq<Option<nat>>>) returns (latest: nat)
    ensures latest == LastActivity(listing)
  {
    latest := 0;
    if listing.None? {
      return;
    }
    var entries := listing.value;
    for k := 0 to |entries|
      invariant latest == LatestAccess(entries[..k])
    {
      assert entries[..k + 1][..k] == entries[..k];
      if entries[k].Some? && entries[k].value > latest {
        latest := entries[k].value;
      }
    }
    assert entries[..|entries|] == entries;
  }

  /** `now.saturating_sub(most_recent)`: never negative and never above
      `now`; the plain difference when the activity is not in the future. */
  function IdleSeconds(now: nat, mostRecent: nat): (idle: nat)
    ensures idle <= now
    ensures mostRecent <= now ==> idle + mostRecent == now
    ensures mostRecent > now ==> idle == 0
  {
    if mostRecent <= now then now - mostRecent else 0
  }

  /** Whole minutes, rounded down. */
  function IdleMinutes(idle: nat): (minutes: nat)
    ensures minutes * 60 <= idle < (minutes + 1) * 60
  {
    idle / 60
  }

  /** The verdict: playback would be blocked after more than 30 minutes. */
  predicate WouldBlock(idle: nat) {
    idle > BlockAfterSeconds
  }

  /** The probe: the idle seconds, the idle minutes, and the verdict. */
  method CheckIdle(listing: Option<seq<Option<nat>>>, now: nat) returns (idle: nat, minutes: nat, block: bool)
    ensures idle <= now
    ensures listing.Some? ==> forall i :: 0 <= i < |listing.value| && listing.value[i].Some? ==>
      idle + listing.value[i].value <= now || idle == 0
    ensures (listing.None? || forall i :: 0 <= i < |listing.value| ==> listing.value[i].None?) ==> idle == now
    ensures idle == IdleSeconds(now, LastActivity(listing))
    ensures minutes == IdleMinutes(idle)
    ensures block <==> idle > BlockAfterSeconds
  {
    var latest := MostRecentActivity(listing);
    idle := IdleSeconds(now, latest);
    minutes := IdleMinutes(idle);
    block := WouldBlock(idle);
  }

  /** The verdict only gets stronger with time: once blocked, a later
      check with no new activity is blocked too. */
  lemma BlockIsMonotone(mostRecent: nat, now: nat, later: nat)
    requires now <= later && WouldBlock(IdleSeconds(now, mostRecent))
    ensures WouldBlock(IdleSeconds(later, mostRecent))
  {
  }
}
