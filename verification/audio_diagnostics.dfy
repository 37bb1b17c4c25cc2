/** The audio diagnostics log (`src/scripts/audio-diagnostics.js`): a bounded
    buffer of timestamped events, three counters, performance marks and the
    two watchdogs (frame drops and gaps between `timeupdate` events). Clock
    readings are parameters; each event handler is one method call. */
module AudioDiagnostics {

  /** `maxEvents`: the buffer keeps at most this many events. */
  const MaxEvents: nat := 1000
  /** A frame slower than this many milliseconds (under 30 fps) is a drop. */
  const FrameDropMs: real := 32.0
  /** A pause between `timeupdate` events longer than this is a gap. */
  const TimeUpdateGapMs: real := 500.0
  /** A long task is one over this many milliseconds. */
  const LongTaskMs: real := 50.0

  /** One logged event: its clock reading, the time since start-up, its type
      and its payload as key/value pairs. */
  datatype Event = Event(timestamp: real, relativeTime: real, kind: string, data: seq<(string, string)>)

  /** A performance mark; `memory` is absent where the browser has no
      `performance.memory`. */
  datatype Mark = Mark(name: string, timestamp: real, memory: seq<nat>)

  /** What `getStats` reports. */
  datatype Stats = Stats(audioContextCreations: nat, gainChanges: nat, volumeChanges: nat, totalEvents: nat, uptimeSeconds: real)

  /** The buffer after pushing `e` onto `events` and, when that makes it
      longer than `MaxEvents`, shifting off the first element. */
  function Pushed(events: seq<Event>, e: Event): (r: seq<Event>)
    requires |events| <= MaxEvents
    ensures |r| <= MaxEvents && r != [] && r[|r| - 1] == e
    ensures |events| < MaxEvents ==> r == events + [e]
    ensures |events| == MaxEvents ==> r == events[1..] + [e] && |r| == MaxEvents
  {
    var grown := events + [e];
    if |grown| > MaxEvents then grown[1..] else grown
  }

  /** The last `k` elements of `s` (all of `s` when it is shorter). */
  function Newest(s: seq<Event>, k: nat): (r: seq<Event>)
    ensures |r| == if |s| < k then |s| else k
  {
    if |s| <= k then s else s[|s| - k..]
  }

  /** Pushing the events `es` one by one. */
  function PushAll(events: seq<Event>, es: seq<Event>): (r: seq<Event>)
    requires |events| <= MaxEvents
    ensures |r| <= MaxEvents
    decreases |es|
  {
    if es == [] then events else PushAll(Pushed(events, es[0]), es[1..])
  }

  /** Whatever was logged, the buffer holds exactly the newest `MaxEvents`
      events in the order they were logged. */
  lemma {:induction false} PushAllKeepsNewest(events: seq<Event>, es: seq<Event>)
    requires |events| <= MaxEvents
    ensures PushAll(events, es) == Newest(events + es, MaxEvents)
    decreases |es|
  {
    if es == [] {
      assert events + es == events;
    } else {
      var next := Pushed(events, es[0]);
      assert PushAll(events, es) == PushAll(next, es[1..]);
      PushAllKeepsNewest(next, es[1..]);
      NewestStep(events, es[0], es[1..]);
      assert [es[0]] + es[1..] == es;
    }
  }

  lemma NewestStep(events: seq<Event>, e: Event, rest: seq<Event>)
    requires |events| <= MaxEvents
    ensures Newest(Pushed(events, e) + rest, MaxEvents) == Newest(events + ([e] + rest), MaxEvents)
  {
    var all := events + ([e] + rest);
    if |events| == MaxEvents {
      var p := events[1..] + [e] + rest;
      assert all == [events[0]] + p;
      assert all[|all| - MaxEvents..] == p[|p| - MaxEvents..];
    } else {
      assert Pushed(events, e) + rest == all;
    }
  }

  class Diagnostics {
    var startTime: real
    var events: seq<Event>
    var audioContextCreations: nat
    var gainChanges: nat
    var volumeChanges: nat
    var performanceMarks: seq<Mark>
    /** Closure state of the watchdogs: the last `timeupdate` clock
        reading and video position, and the last animation-frame time. */
    var lastTimeUpdate: real
    var lastCurrentTime: real
    var lastFrameTime: real

    predicate Valid()
      reads this
    {
      |events| <= MaxEvents
    }

    /** The initial `diagnostics` object, created at clock reading `now`. */
    constructor (now: real, wallClock: real, currentTime: real)
      ensures Valid()
      ensures startTime == now && events == [] && performanceMarks == []
      ensures audioContextCreations == 0 && gainChanges == 0 && volumeChanges == 0
      ensures lastFrameTime == now && lastTimeUpdate == wallClock && lastCurrentTime == currentTime
    {
      startTime := now;
      events := [];
      audioContextCreations, gainChanges, volumeChanges := 0, 0, 0;
      performanceMarks := [];
      lastTimeUpdate := wallClock;
      lastCurrentTime := currentTime;
      lastFrameTime := now;
    }

    /** `logEvent`: the new event goes last; on overflow exactly the oldest
        event is dropped; the event is returned. */
    method LogEvent(kind: string, data: seq<(string, string)>, now: real) returns (e: Event)
      requires Valid()
      modifies this`events
      ensures Valid()
      ensures e == Event(now, now - startTime, kind, data)
      ensures events == Pushed(old(events), e)
      ensures events[|events| - 1] == e
    {
      e := Event(now, now - startTime, kind, data);
      events := events + [e];
      if |events| > MaxEvents {
        events := events[1..];
      }
    }

    /** `markPerformance`. */
    method MarkPerformance(name: string, now: real, memory: seq<nat>) returns (m: Mark)
      modifies this`performanceMarks
      ensures m == Mark(name, now, memory)
      ensures performanceMarks == old(performanceMarks) + [m]
    {
      m := Mark(name, now, memory);
      performanceMarks := performanceMarks + [m];
    }

    /** The `volumechange` listener: one more volume change, then a log entry
        carrying the new count. */
    method OnVolumeChange(volume: string, muted: string, count: string, now: real)
      requires Valid()
      modifies this`volumeChanges, this`events
      ensures Valid()
      ensures volumeChanges == old(volumeChanges) + 1
      ensures events == Pushed(old(events), Event(now, now - startTime, "VIDEO_VOLUME_CHANGE",
        [("volume", volume), ("muted", muted), ("changeCount", count)]))
    {
      volumeChanges := volumeChanges + 1;
      var _ := LogEvent("VIDEO_VOLUME_CHANGE", [("volume", volume), ("muted", muted), ("changeCount", count)], now);
    }

    /** The wrapped `AudioContext` constructor: one more creation, a log
        entry and a performance mark. */
    method OnAudioContextCreated(count: string, now: real, memory: seq<nat>)
      requires Valid()
      modifies this`audioContextCreations, this`events, this`performanceMarks
      ensures Valid()
      ensures audioContextCreations == old(audioContextCreations) + 1
      ensures events == Pushed(old(events), Event(now, now - startTime, "AUDIOCONTEXT_CREATED", [("count", count)]))
      ensures performanceMarks == old(performanceMarks) + [Mark("audiocontext-create", now, memory)]
    {
      audioContextCreations := audioContextCreations + 1;
      var _ := LogEvent("AUDIOCONTEXT_CREATED", [("count", count)], now);
      var _ := MarkPerformance("audiocontext-create", now, memory);
    }

    /** The `timeupdate` listener at wall-clock `now` (`Date.now()`): a gap
        is logged iff more than 500 ms passed since the previous event and the
        video is playing; the reference point moves to `now` either way. The
        log entry itself is stamped by `logEvent` with the page clock
        `perfNow` (`performance.now()`), the clock `startTime` was read on. */
    method OnTimeUpdate(now: real, perfNow: real, currentTime: real, paused: bool, data: seq<(string, string)>)
      returns (logged: bool)
      requires Valid()
      modifies this`events, this`lastTimeUpdate, this`lastCurrentTime
      ensures Valid()
      ensures logged <==> now - old(lastTimeUpdate) > TimeUpdateGapMs && !paused
      ensures logged ==> events == Pushed(old(events), Event(perfNow, perfNow - startTime, "TIMEUPDATE_GAP", data))
      ensures !logged ==> events == old(events)
      ensures lastTimeUpdate == now && lastCurrentTime == currentTime
    {
      var delta := now - lastTimeUpdate;
      logged := delta > TimeUpdateGapMs && !paused;
      if logged {
        var _ := LogEvent("TIMEUPDATE_GAP", data, perfNow);
      }
      lastTimeUpdate := now;
      lastCurrentTime := currentTime;
    }

    /** `checkFrameRate` at clock reading `now`: a drop is logged iff the
        frame took more than 32 ms. */
    method CheckFrameRate(now: real, data: seq<(string, string)>) returns (logged: bool)
      requires Valid()
      modifies this`events, this`lastFrameTime
      ensures Valid()
      ensures logged <==> now - old(lastFrameTime) > FrameDropMs
      ensures logged ==> events == Pushed(old(events), Event(now, now - startTime, "FRAME_DROP", data))
      ensures !logged ==> events == old(events)
      ensures lastFrameTime == now
    {
      logged := now - lastFrameTime > FrameDropMs;
      if logged {
        var _ := LogEvent("FRAME_DROP", data, now);
      }
      lastFrameTime := now;
    }

    /** The performance observer's body for one entry (it visits the
        entries of a batch in order): the entry is logged iff it lasted more
        than 50 ms. */
    method OnPerformanceEntry(duration: real, now: real, data: seq<(string, string)>) returns (logged: bool)
      requires Valid()
      modifies this`events
      ensures Valid()
      ensures logged <==> duration > LongTaskMs
      ensures logged ==> events == Pushed(old(events), Event(now, now - startTime, "LONG_TASK", data))
      ensures !logged ==> events == old(events)
    {
      logged := duration > LongTaskMs;
      if logged {
        var _ := LogEvent("LONG_TASK", data, now);
      }
    }

    /** `basituneDiagnostics.clear`: events and marks emptied, counters
        zeroed; the start time and the watchdogs' state stay. */
    method Clear()
      modifies this`events, this`audioContextCreations, this`gainChanges, this`volumeChanges, this`performanceMarks
      ensures Valid()
      ensures events == [] && performanceMarks == []
      ensures audioContextCreations == 0 && gainChanges == 0 && volumeChanges == 0
    {
      events := [];
      audioContextCreations, gainChanges, volumeChanges := 0, 0, 0;
      performanceMarks := [];
    }

    /** `basituneDiagnostics.getStats` at clock reading `now`. */
    function GetStats(now: real): (s: Stats)
      reads this
      ensures s.totalEvents == |events| && (Valid() ==> s.totalEvents <= MaxEvents)
      ensures s.volumeChanges == volumeChanges && s.audioContextCreations == audioContextCreations && s.gainChanges == gainChanges
      ensures s.uptimeSeconds * 1000.0 == now - startTime
    {
      Stats(audioContextCreations, gainChanges, volumeChanges, |events|, (now - startTime) / 1000.0)
    }
  }
}
