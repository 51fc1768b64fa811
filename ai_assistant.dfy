/** The live voice session of geminisocial/components/AIAssistant.tsx: its
    status, the playback cursor that lays inbound audio chunks end to end,
    and the set of playback sources still in flight. Each callback of the
    session is one atomic step; the device clock reading `now` and each
    chunk's duration are parameters. Sources are numbered in creation order. */
module Assistant {
  import opened Wrappers
  import GeminiService

  /** The status shown by the widget. */
  datatype Status = Idle | Connecting | Listening | Speaking

  /** Where a chunk plays: from `start` for `duration` seconds. */
  datatype Slot = Slot(start: real, duration: real) {
    function End(): real { start + duration }
  }

  /** An inbound audio chunk: the device time it was scheduled at and how
      long it plays. */
  datatype Arrival = Arrival(now: real, duration: real)

  /** A chunk handed to a playback source. */
  datatype Playback = Playback(source: nat, slot: Slot)

  /** A chunk starts at the cursor or, if the device clock has passed the
      cursor, at the clock: the later of the two. */
  function Schedule(cursor: real, now: real, duration: real): (s: Slot)
    ensures s.start >= cursor && s.start >= now
    ensures s.start == cursor || s.start == now
    ensures s.duration == duration
  {
    Slot(if cursor >= now then cursor else now, duration)
  }

  predicate NonNegativeDurations(arrivals: seq<Arrival>) {
    forall k :: 0 <= k < |arrivals| ==> arrivals[k].duration >= 0.0
  }

  /** The cursor after scheduling `arrivals` in order from `cursor`: past
      the end of the last chunk, and never behind where it started while
      durations are not negative. */
  function CursorAfter(cursor: real, arrivals: seq<Arrival>): (c: real)
    ensures arrivals == [] ==> c == cursor
    ensures arrivals != [] ==>
              c >= arrivals[|arrivals| - 1].now + arrivals[|arrivals| - 1].duration
    ensures NonNegativeDurations(arrivals) ==> c >= cursor
  {
    if arrivals == [] then cursor
    else
      var prefix := arrivals[..|arrivals| - 1];
      var last := arrivals[|arrivals| - 1];
      assert NonNegativeDurations(arrivals) ==> NonNegativeDurations(prefix);
      Schedule(CursorAfter(cursor, prefix), last.now, last.duration).End()
  }

  /** Where each of `arrivals` plays when scheduled in order from `cursor`. */
  function ScheduleRun(cursor: real, arrivals: seq<Arrival>): (slots: seq<Slot>)
    ensures |slots| == |arrivals|
    ensures forall k :: 0 <= k < |arrivals| ==>
              slots[k].start >= arrivals[k].now && slots[k].duration == arrivals[k].duration
  {
    if arrivals == [] then []
    else
      var prefix := arrivals[..|arrivals| - 1];
      var last := arrivals[|arrivals| - 1];
      ScheduleRun(cursor, prefix) + [Schedule(CursorAfter(cursor, prefix), last.now, last.duration)]
  }

  /** The durations of `arrivals`, added up. */
  function TotalDuration(arrivals: seq<Arrival>): real {
    if arrivals == [] then 0.0
    else TotalDuration(arrivals[..|arrivals| - 1]) + arrivals[|arrivals| - 1].duration
  }

  /** The cursor moves on by at least the audio scheduled. */
  lemma {:induction false} CursorAdvances(cursor: real, arrivals: seq<Arrival>)
    requires NonNegativeDurations(arrivals)
    ensures CursorAfter(cursor, arrivals) >= cursor + TotalDuration(arrivals)
  {
    if arrivals != [] {
      CursorAdvances(cursor, arrivals[..|arrivals| - 1]);
    }
  }

  /** The cursor ends where the last scheduled chunk ends. */
  lemma {:induction false} CursorEndsLastSlot(cursor: real, arrivals: seq<Arrival>)
    requires arrivals != []
    ensures CursorAfter(cursor, arrivals) == ScheduleRun(cursor, arrivals)[|arrivals| - 1].End()
  {
  }

  /** Chunks never overlap: each starts no earlier than the one before ends,
      and the first no earlier than the cursor. */
  lemma {:induction false} ScheduleRunNoOverlap(cursor: real, arrivals: seq<Arrival>)
    ensures forall k :: 0 < k < |arrivals| ==>
              ScheduleRun(cursor, arrivals)[k - 1].End() <= ScheduleRun(cursor, arrivals)[k].start
    ensures arrivals != [] ==> ScheduleRun(cursor, arrivals)[0].start >= cursor
  {
    if arrivals != [] {
      var prefix := arrivals[..|arrivals| - 1];
      ScheduleRunNoOverlap(cursor, prefix);
      if prefix != [] {
        CursorEndsLastSlot(cursor, prefix);
      }
    }
  }

  /** Every chunk is scheduled no later than the cursor it meets: it arrives
      before the audio scheduled ahead of it has run out. */
  predicate ArrivesInTime(cursor: real, arrivals: seq<Arrival>) {
    forall k :: 0 <= k < |arrivals| ==> arrivals[k].now <= CursorAfter(cursor, arrivals[..k])
  }

  /** Gapless playback: when every chunk arrives in time, the chunks play
      back to back from the first cursor, chunk k starting after the
      durations of the chunks before it. */
  lemma ScheduleRunGapless(cursor: real, arrivals: seq<Arrival>)
    requires ArrivesInTime(cursor, arrivals)
    ensures forall k :: 0 <= k < |arrivals| ==>
              ScheduleRun(cursor, arrivals)[k].start == cursor + TotalDuration(arrivals[..k])
    ensures CursorAfter(cursor, arrivals) == cursor + TotalDuration(arrivals)
  {
    forall k | 0 <= k < |arrivals|
      ensures ScheduleRun(cursor, arrivals)[k].start == cursor + TotalDuration(arrivals[..k])
    {
      GaplessStart(cursor, arrivals, k);
    }
    GaplessCursor(cursor, arrivals);
  }

  lemma ArrivesInTimePrefix(cursor: real, arrivals: seq<Arrival>, n: nat)
    requires ArrivesInTime(cursor, arrivals) && n <= |arrivals|
    ensures ArrivesInTime(cursor, arrivals[..n])
  {
    forall k | 0 <= k < n
      ensures arrivals[..n][k].now <= CursorAfter(cursor, arrivals[..n][..k])
    {
      assert arrivals[..n][..k] == arrivals[..k];
    }
  }

  lemma {:induction false} GaplessCursor(cursor: real, arrivals: seq<Arrival>)
    requires ArrivesInTime(cursor, arrivals)
    ensures CursorAfter(cursor, arrivals) == cursor + TotalDuration(arrivals)
  {
    if arrivals != [] {
      var n := |arrivals| - 1;
      ArrivesInTimePrefix(cursor, arrivals, n);
      GaplessCursor(cursor, arrivals[..n]);
      assert arrivals[n].now <= CursorAfter(cursor, arrivals[..n]);
    }
  }

  lemma {:induction false} GaplessStart(cursor: real, arrivals: seq<Arrival>, k: nat)
    requires ArrivesInTime(cursor, arrivals)
    requires k < |arrivals|
    ensures ScheduleRun(cursor, arrivals)[k].start == cursor + TotalDuration(arrivals[..k])
  {
    var n := |arrivals| - 1;
    var prefix := arrivals[..n];
    var last := arrivals[n];
    var c := CursorAfter(cursor, prefix);
    ArrivesInTimePrefix(cursor, arrivals, n);
    assert ScheduleRun(cursor, arrivals) == ScheduleRun(cursor, prefix) + [Schedule(c, last.now, last.duration)];
    if k < n {
      GaplessStart(cursor, prefix, k);
      assert arrivals[..k] == prefix[..k];
    } else {
      assert arrivals[..k] == prefix;
      assert last.now <= c;
      GaplessCursor(cursor, prefix);
    }
  }

  /** Half-second chunks that arrive at 0, 0.1 and 0.2, each while audio is
      still queued, play at 0, 0.5 and 1.0 with no gap. */
  lemma StaggeredChunksBackToBack()
    ensures var arrivals := [Arrival(0.0, 0.5), Arrival(0.1, 0.5), Arrival(0.2, 0.5)];
      ArrivesInTime(0.0, arrivals)
      && ScheduleRun(0.0, arrivals) == [Slot(0.0, 0.5), Slot(0.5, 0.5), Slot(1.0, 0.5)]
  {
    var arrivals := [Arrival(0.0, 0.5), Arrival(0.1, 0.5), Arrival(0.2, 0.5)];
    assert arrivals[..0] == [];
    assert arrivals[..1] == [Arrival(0.0, 0.5)];
    assert arrivals[..2] == [Arrival(0.0, 0.5), Arrival(0.1, 0.5)];
    assert arrivals[..2][..1] == [Arrival(0.0, 0.5)];
    assert CursorAfter(0.0, arrivals[..1]) == 0.5;
    assert CursorAfter(0.0, arrivals[..2]) == 1.0;
  }

  /** Three half-second chunks that all arrive at time 0 play at 0, 0.5 and
      1.0, and leave the cursor at 1.5. */
  lemma ThreeChunksBackToBack()
    ensures var arrivals := [Arrival(0.0, 0.5), Arrival(0.0, 0.5), Arrival(0.0, 0.5)];
      ScheduleRun(0.0, arrivals) == [Slot(0.0, 0.5), Slot(0.5, 0.5), Slot(1.0, 0.5)]
      && CursorAfter(0.0, arrivals) == 1.5
  {
    var arrivals := [Arrival(0.0, 0.5), Arrival(0.0, 0.5), Arrival(0.0, 0.5)];
    assert arrivals[..2] == [Arrival(0.0, 0.5), Arrival(0.0, 0.5)];
    assert arrivals[..2][..1] == [Arrival(0.0, 0.5)];
  }

  /** A chunk that arrives at 2.0, after the cursor (0.5), starts at 2.0:
      a gap, and the cursor becomes 2.5. */
  lemma StalledChunkStartsAtClock()
    ensures var arrivals := [Arrival(0.0, 0.5), Arrival(2.0, 0.5)];
      ScheduleRun(0.0, arrivals) == [Slot(0.0, 0.5), Slot(2.0, 0.5)]
      && CursorAfter(0.0, arrivals) == 2.5
  {
    var arrivals := [Arrival(0.0, 0.5), Arrival(2.0, 0.5)];
    assert arrivals[..1] == [Arrival(0.0, 0.5)];
  }

  /** What an inbound message carries, once its audio has gone through
      `decode` and `decodeAudioData`: no audio data, a chunk that plays for
      `duration` seconds, or data that fails to decode. */
  datatype Audio = NoAudio | Chunk(duration: real) | Undecodable

  /** The rate of the output audio context and of the chunks it plays. */
  const OutputSampleRate: int := 24000

  /** The outcome of decoding the base64 audio of a message: empty data is no
      audio; `atob` throwing, an odd byte count or a chunk without a single
      frame fails; otherwise the chunk lasts its samples over 24000. */
  function InboundAudio(b64: GeminiService.Base64, base64: string): (a: Audio)
    ensures a.NoAudio? <==> base64 == []
    ensures a.Undecodable? <==>
              base64 != [] &&
              match GeminiService.DecodedBytes(b64, base64)
              case None => true
              case Some(bytes) => |bytes| % 2 != 0 || |bytes| < 2
    ensures a.Chunk? ==>
              GeminiService.DecodedBytes(b64, base64).Some?
              && a.duration > 0.0
              && a.duration * OutputSampleRate as real
                 == (|GeminiService.DecodedBytes(b64, base64).value| / 2) as real
  {
    if base64 == [] then NoAudio
    else
      match GeminiService.DecodedBytes(b64, base64)
      case None => Undecodable
      case Some(bytes) =>
        if |bytes| % 2 != 0 || GeminiService.FrameCount(|bytes|, 1) == 0 then Undecodable
        else Chunk(GeminiService.FrameCount(|bytes|, 1) as real / OutputSampleRate as real)
  }

  /** The decoding half of onmessage: `decode` the base64 data, then
      `decodeAudioData` at 24000 Hz on one channel, and read the buffer's
      duration. */
  method DecodeChunk(b64: GeminiService.Base64, base64: string) returns (audio: Audio)
    ensures audio == InboundAudio(b64, base64)
  {
    if base64 == [] {
      return NoAudio;
    }
    var bytes := GeminiService.Decode(b64, base64);
    if bytes.None? {
      return Undecodable;
    }
    assert bytes.value[..] == GeminiService.DecodedBytes(b64, base64).value;
    var buffer := GeminiService.DecodeAudioData(bytes.value, OutputSampleRate, 1);
    match buffer {
      case Err(OddByteLength) =>
        audio := Undecodable;
      case Err(NoFrames) =>
        audio := Undecodable;
      case Ok(b) =>
        audio := Chunk(b.Duration());
    }
  }

  /** The state of the widget's voice session: the React state `status` and
      `isActive`, the refs `nextStartTimeRef` and `sourcesRef`, and what has
      happened to the playback sources. */
  class LiveSession {
    var status: Status
    var isActive: bool
    /** nextStartTimeRef: the device time the next chunk may start at. */
    var nextStartTime: real
    /** sourcesRef: the playback sources not yet reported ended. */
    var sources: set<nat>
    /** The sources on which `stop()` has been called. */
    var stopped: set<nat>
    /** How many playback sources have been created; the next one's number. */
    var createdSources: nat
    /** The chunks scheduled since the cursor was last reset to 0. */
    ghost var arrivals: seq<Arrival>

    ghost predicate Valid()
      reads this
    {
      && NonNegativeDurations(arrivals)
      && nextStartTime == CursorAfter(0.0, arrivals)
      && (forall s :: s in sources ==> s < createdSources)
      && (forall s :: s in stopped ==> s < createdSources)
    }

    /** The widget when it mounts: idle, cursor at 0, no sources. */
    constructor ()
      ensures Valid()
      ensures status == Idle && !isActive && nextStartTime == 0.0
      ensures sources == {} && stopped == {} && createdSources == 0 && arrivals == []
    {
      status := Idle;
      isActive := false;
      nextStartTime := 0.0;
      sources := {};
      stopped := {};
      createdSources := 0;
      arrivals := [];
    }

    /** startLiveChat: shows `connecting` at once, whatever the session is
        doing; nothing guards against a session already running. */
    method Start()
      requires Valid()
      modifies this`status
      ensures Valid()
      ensures status == Connecting
    {
      status := Connecting;
    }

    /** The catch of startLiveChat: device or connection setup failed. */
    method StartFailed()
      requires Valid()
      modifies this`status
      ensures Valid()
      ensures status == Idle
    {
      status := Idle;
    }

    /** onopen: the channel is open and the microphone is streaming. */
    method OnOpen()
      requires Valid()
      modifies this`status, this`isActive
      ensures Valid()
      ensures status == Listening && isActive
    {
      status := Listening;
      isActive := true;
    }

    /** onmessage. A message with a decoded chunk plays it (PlayChunk);
        then, if the message says so, the playback is interrupted
        (Interrupt). The interruption comes second, so it also stops the
        chunk of the same message. Audio that fails to decode ends the
        callback after `speaking` is shown and the cursor is moved up to the
        clock (DropChunk): no source is made and the interruption is skipped. */
    method OnMessage(audio: Audio, now: real, interrupted: bool)
      returns (played: Option<Playback>)
      requires Valid()
      requires audio.Chunk? ==> audio.duration >= 0.0
      modifies this`status, this`nextStartTime, this`sources, this`stopped, this`createdSources, this`arrivals
      ensures Valid()
      ensures played.Some? <==> audio.Chunk?
      ensures audio.Chunk? ==>
                played.value == Playback(old(createdSources), Schedule(old(nextStartTime), now, audio.duration))
                && status == Speaking && createdSources == old(createdSources) + 1
      ensures audio.NoAudio? ==> status == old(status) && createdSources == old(createdSources)
      ensures audio.Undecodable? ==>
                status == Speaking && createdSources == old(createdSources)
                && sources == old(sources) && stopped == old(stopped)
                && nextStartTime == Schedule(old(nextStartTime), now, 0.0).start
                && arrivals == old(arrivals) + [Arrival(now, 0.0)]
      ensures interrupted && !audio.Undecodable? ==>
                sources == {} && nextStartTime == 0.0 && arrivals == []
                && stopped == old(stopped) + old(sources) + (if audio.Chunk? then {played.value.source} else {})
      ensures !interrupted && audio.Chunk? ==>
                sources == old(sources) + {played.value.source} && stopped == old(stopped)
                && nextStartTime == played.value.slot.End()
                && arrivals == old(arrivals) + [Arrival(now, audio.duration)]
      ensures !interrupted && audio.NoAudio? ==>
                sources == old(sources) && stopped == old(stopped)
                && nextStartTime == old(nextStartTime) && arrivals == old(arrivals)
    {
      played := None;
      match audio {
        case NoAudio =>
        case Chunk(duration) =>
          var p := PlayChunk(duration, now);
          played := Some(p);
        case Undecodable =>
          DropChunk(now);
          return;
      }
      if interrupted {
        Interrupt();
      }
    }

    /** The audio branch of onmessage when decoding throws: `speaking` and
        the cursor at the later of itself and the clock, as set before the
        decode; the history records a chunk of no length at `now`. */
    method DropChunk(now: real)
      requires Valid()
      modifies this`status, this`nextStartTime, this`arrivals
      ensures Valid()
      ensures status == Speaking
      ensures nextStartTime == Schedule(old(nextStartTime), now, 0.0).start
      ensures nextStartTime >= now && nextStartTime >= old(nextStartTime)
      ensures arrivals == old(arrivals) + [Arrival(now, 0.0)]
    {
      status := Speaking;
      nextStartTime := Schedule(nextStartTime, now, 0.0).start;
      ghost var before := arrivals;
      arrivals := arrivals + [Arrival(now, 0.0)];
      assert arrivals[..|arrivals| - 1] == before;
    }

    /** The audio branch of onmessage: show `speaking`, start a new source
        at the later of the cursor and the clock, move the cursor to the
        chunk's end and add the source to the set. */
    method PlayChunk(duration: real, now: real) returns (played: Playback)
      requires Valid()
      requires duration >= 0.0
      modifies this`status, this`nextStartTime, this`sources, this`createdSources, this`arrivals
      ensures Valid()
      ensures played == Playback(old(createdSources), Schedule(old(nextStartTime), now, duration))
      ensures played.slot.start >= now && played.slot.start >= old(nextStartTime)
      ensures status == Speaking && createdSources == old(createdSources) + 1
      ensures sources == old(sources) + {played.source}
      ensures nextStartTime == played.slot.End()
      ensures arrivals == old(arrivals) + [Arrival(now, duration)]
    {
      status := Speaking;
      var slot := Schedule(nextStartTime, now, duration);
      nextStartTime := slot.start;
      var source := createdSources;
      createdSources := createdSources + 1;
      nextStartTime := nextStartTime + duration;
      sources := sources + {source};
      ghost var before := arrivals;
      arrivals := arrivals + [Arrival(now, duration)];
      assert arrivals[..|arrivals| - 1] == before;
      played := Playback(source, slot);
    }

    /** The interruption branch of onmessage: stop every source, empty the
        set and put the cursor back to 0. */
    method Interrupt()
      requires Valid()
      modifies this`nextStartTime, this`sources, this`stopped, this`arrivals
      ensures Valid()
      ensures sources == {} && nextStartTime == 0.0 && arrivals == []
      ensures stopped == old(stopped) + old(sources)
    {
      StopAll();
      sources := {};
      nextStartTime := 0.0;
      arrivals := [];
    }

    /** The `forEach(s => s.stop())` of an interruption. */
    method StopAll()
      modifies this`stopped
      ensures stopped == old(stopped) + sources
    {
      var pending := sources;
      while pending != {}
        invariant pending <= sources
        invariant stopped == old(stopped) + (sources - pending)
        decreases pending
      {
        var s :| s in pending;
        stopped := stopped + {s};
        pending := pending - {s};
      }
    }

    /** onended of a source, whether it finished or was stopped: it leaves
        the set, and the status becomes `listening` exactly when the set is
        then empty. */
    method OnEnded(source: nat)
      requires Valid()
      modifies this`sources, this`status
      ensures Valid()
      ensures sources == old(sources) - {source}
      ensures status == if sources == {} then Listening else old(status)
    {
      sources := sources - {source};
      if |sources| == 0 {
        status := Listening;
      }
    }

    /** stopLiveChat: idle and inactive. The sources and the cursor are left
        as they are. */
    method Stop()
      requires Valid()
      modifies this`status, this`isActive
      ensures Valid()
      ensures status == Idle && !isActive
    {
      isActive := false;
      status := Idle;
    }

    /** onerror: hands over to stopLiveChat. */
    method OnError()
      requires Valid()
      modifies this`status, this`isActive
      ensures Valid()
      ensures status == Idle && !isActive
    {
      Stop();
    }

    /** onclose: idle and inactive. */
    method OnClose()
      requires Valid()
      modifies this`status, this`isActive
      ensures Valid()
      ensures status == Idle && !isActive
    {
      isActive := false;
      status := Idle;
    }

    /** The cursor is never negative. */
    lemma CursorNonNegative()
      requires Valid()
      ensures nextStartTime >= 0.0
    {
      CursorAdvances(0.0, arrivals);
      TotalDurationNonNegative(arrivals);
    }
  }

  lemma {:induction false} TotalDurationNonNegative(arrivals: seq<Arrival>)
    requires NonNegativeDurations(arrivals)
    ensures TotalDuration(arrivals) >= 0.0
  {
    if arrivals != [] {
      TotalDurationNonNegative(arrivals[..|arrivals| - 1]);
    }
  }

  /** A session that played two seconds of audio and was stopped keeps its
      cursor: after a restart, a chunk arriving at device time 0 waits two
      seconds. */
  method RestartKeepsCursor() returns (second: Option<Playback>)
    ensures second == Some(Playback(1, Slot(2.0, 0.5)))
  {
    var session := new LiveSession();
    session.Start();
    session.OnOpen();
    var first := session.OnMessage(Chunk(2.0), 0.0, false);
    assert session.createdSources == 1 && session.nextStartTime == 2.0;
    session.Stop();
    assert session.status == Idle && session.nextStartTime == 2.0 && session.sources == {0};
    session.Start();
    session.OnOpen();
    second := session.OnMessage(Chunk(0.5), 0.0, false);
  }

  /** An interruption in the middle of speech: both sources are stopped, the
      cursor is back at 0, and the status stays `speaking` until a stopped
      source reports its end. */
  method InterruptionScenario() returns (stopped: set<nat>, cursor: real, before: Status, after: Status)
    ensures stopped == {0, 1} && cursor == 0.0
    ensures before == Speaking && after == Listening
  {
    var session := new LiveSession();
    session.Start();
    session.OnOpen();
    var a := session.OnMessage(Chunk(0.5), 0.0, false);
    var b := session.OnMessage(Chunk(0.5), 0.1, true);
    stopped, cursor, before := session.stopped, session.nextStartTime, session.status;
    session.OnEnded(0);
    after := session.status;
  }

  /** Audio that fails to decode after all earlier audio has ended leaves
      the widget `speaking` with no source left to end, and skips the
      interruption the same message carried. */
  method UndecodableAudioScenario() returns (status: Status, sources: set<nat>, cursor: real)
    ensures status == Speaking && sources == {} && cursor == 2.0
  {
    var session := new LiveSession();
    session.Start();
    session.OnOpen();
    var a := session.OnMessage(Chunk(0.5), 0.0, false);
    session.OnEnded(0);
    assert session.status == Listening;
    var b := session.OnMessage(Undecodable, 2.0, true);
    status, sources, cursor := session.status, session.sources, session.nextStartTime;
  }
}
