/** `AudioRecorder` (src/audio/recorder.py) as a sequential event machine.
    The keyboard listener thread, the input stream and the polling loops are
    replaced by one sequence of events fed to the handlers in arrival order. */
module Recorder {
  import opened Outcomes
  import opened Stats
  import Settings

  /** One frame of the input stream: one sample per channel. */
  type Frame = seq<real>

  /** One `indata` block handed to `_audio_callback`. */
  type Chunk = seq<Frame>

  datatype Key = Space | OtherKey(name: string)

  /** What can happen while `record_push_to_talk` runs. */
  datatype Event =
    | Press(key: Key)       // the keyboard listener calls `on_press`
    | Release(key: Key)     // the keyboard listener calls `on_release`
    | Block(chunk: Chunk)   // the input stream has a block for `_audio_callback`
    | Tick(now: real)       // a polling step reads the clock, `time.time()`

  /** Every frame of the block has `channels` samples, as the input stream delivers them. */
  predicate WellShaped(c: Chunk, channels: nat)
  {
    forall i :: 0 <= i < |c| ==> |c[i]| == channels
  }

  predicate AllWellShaped(chunks: seq<Chunk>, channels: nat)
  {
    forall j :: 0 <= j < |chunks| ==> WellShaped(chunks[j], channels)
  }

  /** `np.concatenate(chunks, axis=0)`: the frames of all blocks, block after block. */
  function Frames(chunks: seq<Chunk>): seq<Frame>
  {
    if chunks == [] then [] else Frames(chunks[..|chunks| - 1]) + chunks[|chunks| - 1]
  }

  /** The mono sample of one frame: the channel mean when there is more than one channel. */
  function MonoSample(f: Frame, channels: nat): real
    requires |f| == channels >= 1
  {
    if channels > 1 then Mean(f) else f[0]
  }

  /** The array `record_push_to_talk` returns for the recorded blocks `chunks`. */
  function Assemble(chunks: seq<Chunk>, channels: nat): (audio: seq<real>)
    requires channels >= 1 && AllWellShaped(chunks, channels)
    ensures |audio| == |Frames(chunks)|
  {
    FramesShape(chunks, channels);
    var frames := Frames(chunks);
    seq(|frames|, i requires 0 <= i < |frames| => MonoSample(frames[i], channels))
  }

  lemma {:induction false} FramesShape(chunks: seq<Chunk>, channels: nat)
    requires AllWellShaped(chunks, channels)
    ensures forall i :: 0 <= i < |Frames(chunks)| ==> |Frames(chunks)[i]| == channels
    decreases |chunks|
  {
    if chunks != [] {
      FramesShape(chunks[..|chunks| - 1], channels);
    }
  }

  /** Concatenation keeps arrival order. */
  lemma {:induction false} FramesConcat(a: seq<Chunk>, b: seq<Chunk>)
    ensures Frames(a + b) == Frames(a) + Frames(b)
    decreases |b|
  {
    if b == [] {
      assert a + b == a;
    } else {
      var b' := b[..|b| - 1];
      assert (a + b)[..|a + b| - 1] == a + b';
      FramesConcat(a, b');
    }
  }

  /** The audio of blocks recorded one after the other is the audio of the
      first blocks followed by the audio of the later ones. */
  lemma AssembleConcat(a: seq<Chunk>, b: seq<Chunk>, channels: nat)
    requires channels >= 1 && AllWellShaped(a, channels) && AllWellShaped(b, channels)
    ensures AllWellShaped(a + b, channels)
    ensures Assemble(a + b, channels) == Assemble(a, channels) + Assemble(b, channels)
  {
    assert AllWellShaped(a + b, channels) by {
      forall j | 0 <= j < |a + b| ensures WellShaped((a + b)[j], channels) {
        if j >= |a| { assert (a + b)[j] == b[j - |a|]; }
      }
    }
    FramesConcat(a, b);
    FramesShape(a, channels);
    FramesShape(b, channels);
  }

  /** With one channel the samples are the frames' single samples in order;
      with several, each is the mean of its frame's channels. */
  lemma AssembleSamples(chunks: seq<Chunk>, channels: nat, i: nat)
    requires channels >= 1 && AllWellShaped(chunks, channels)
    requires i < |Frames(chunks)|
    ensures |Frames(chunks)[i]| == channels
    ensures channels == 1 ==> Assemble(chunks, channels)[i] == Frames(chunks)[i][0]
    ensures channels > 1 ==> Assemble(chunks, channels)[i] == Mean(Frames(chunks)[i])
  {
    FramesShape(chunks, channels);
  }

  /** Samples in [-1, 1] (the float32 range of the stream) stay in [-1, 1]
      after the down-mix. */
  lemma AssembleInRange(chunks: seq<Chunk>, channels: nat)
    requires channels >= 1 && AllWellShaped(chunks, channels)
    requires forall i, c :: 0 <= i < |Frames(chunks)| && 0 <= c < |Frames(chunks)[i]| ==>
               -1.0 <= Frames(chunks)[i][c] <= 1.0
    ensures forall i :: 0 <= i < |Assemble(chunks, channels)| ==> -1.0 <= Assemble(chunks, channels)[i] <= 1.0
  {
    FramesShape(chunks, channels);
    var frames := Frames(chunks);
    forall i | 0 <= i < |frames| ensures -1.0 <= Assemble(chunks, channels)[i] <= 1.0 {
      if channels > 1 {
        MeanBounds(frames[i], -1.0, 1.0);
      }
    }
  }

  /** The squares of the samples. */
  function Squares(data: seq<real>): (r: seq<real>)
    ensures |r| == |data| && forall i :: 0 <= i < |data| ==> r[i] == data[i] * data[i]
  {
    seq(|data|, i requires 0 <= i < |data| => data[i] * data[i])
  }

  /** The square of `get_audio_level(data)`: 0.0 for no data, else the mean square. */
  function MeanSquareLevel(data: seq<real>): real
  {
    if |data| == 0 then 0.0 else Mean(Squares(data))
  }

  /** The level of samples in [-1, 1] lies in [0, 1]; empty data has level 0. */
  lemma LevelInRange(data: seq<real>)
    requires forall i :: 0 <= i < |data| ==> -1.0 <= data[i] <= 1.0
    ensures 0.0 <= MeanSquareLevel(data) <= 1.0
    ensures |data| == 0 ==> MeanSquareLevel(data) == 0.0
  {
    if |data| > 0 {
      var sq := Squares(data);
      forall i | 0 <= i < |data| ensures 0.0 <= sq[i] <= 1.0 {
        var x := data[i];
        if x < 0.0 {
          assert x * x == (-x) * (-x);
          assert (-x) * (-x) <= 1.0 * (-x);
        } else {
          assert x * x <= 1.0 * x;
        }
      }
      MeanBounds(sq, 0.0, 1.0);
    }
  }

  // ---------------------------------------------------------------------
  // What one `record_push_to_talk` call records, stated over its events.

  /** The first press of space: recording starts there. */
  function FirstPress(events: seq<Event>): (r: Option<nat>)
    ensures r.Some? ==> r.value < |events| && events[r.value] == Press(Space)
    ensures r.Some? ==> forall k :: 0 <= k < r.value ==> events[k] != Press(Space)
    ensures r.None? ==> forall k :: 0 <= k < |events| ==> events[k] != Press(Space)
  {
    if events == [] then None
    else if events[0] == Press(Space) then Some(0)
    else match FirstPress(events[1..])
      case None => None
      case Some(k) => Some(k + 1)
  }

  /** The clock after `events`: the reading of the last tick, or `now0` before any tick. */
  function LastTick(events: seq<Event>, now0: real): real
  {
    if events == [] then now0
    else if events[|events| - 1].Tick? then events[|events| - 1].now
    else LastTick(events[..|events| - 1], now0)
  }

  /** An event that ends a recording started at `startTime`: releasing space, or
      a poll at which the elapsed time has reached `RECORD_MAX_SECONDS`. */
  predicate EndsRecording(e: Event, startTime: real)
  {
    e == Release(Space) || (e.Tick? && e.now - startTime >= Settings.RECORD_MAX_SECONDS)
  }

  /** The first event at or after `from` that ends the recording. */
  function FirstStop(events: seq<Event>, from: nat, startTime: real): (r: Option<nat>)
    requires from <= |events|
    ensures r.Some? ==> from <= r.value < |events| && EndsRecording(events[r.value], startTime)
    ensures r.Some? ==> forall k :: from <= k < r.value ==> !EndsRecording(events[k], startTime)
    ensures r.None? ==> forall k :: from <= k < |events| ==> !EndsRecording(events[k], startTime)
    decreases |events| - from
  {
    if from == |events| then None
    else if EndsRecording(events[from], startTime) then Some(from)
    else FirstStop(events, from + 1, startTime)
  }

  /** The blocks the input stream delivered during `events`, in order. */
  function BlocksOf(events: seq<Event>): seq<Chunk>
  {
    if events == [] then []
    else BlocksOf(events[..|events| - 1]) +
         if events[|events| - 1].Block? then [events[|events| - 1].chunk] else []
  }

  /** Where a capture starts and stops, and its start time. */
  datatype Session = Session(start: nat, stop: nat, startTime: real)

  /** The session of a call that receives `events` with the clock at `now0`;
      `None` when the call has not returned by the end of the events. */
  function Capture(events: seq<Event>, now0: real): (r: Option<Session>)
    ensures r.Some? ==> r.value.start < r.value.stop < |events|
  {
    match FirstPress(events)
    case None => None
    case Some(s) =>
      var t0 := LastTick(events[..s], now0);
      match FirstStop(events, s + 1, t0)
      case None => None
      case Some(j) => Some(Session(s, j, t0))
  }

  /** The blocks a session records: those that arrive strictly between its start and its stop. */
  function Recorded(events: seq<Event>, session: Session): seq<Chunk>
    requires session.start < session.stop <= |events|
  {
    BlocksOf(events[session.start + 1..session.stop])
  }

  lemma LastTickStep(events: seq<Event>, i: nat, now0: real)
    requires i < |events|
    ensures LastTick(events[..i + 1], now0) ==
              if events[i].Tick? then events[i].now else LastTick(events[..i], now0)
  {
    assert events[..i + 1][..i] == events[..i];
  }

  lemma BlocksOfStep(events: seq<Event>, s: nat, i: nat)
    requires s <= i < |events|
    ensures BlocksOf(events[s..i + 1]) ==
              BlocksOf(events[s..i]) + if events[i].Block? then [events[i].chunk] else []
  {
    assert events[s..i + 1][..i - s] == events[s..i];
  }

  lemma FirstPressAt(events: seq<Event>, j: nat)
    requires j < |events| && events[j] == Press(Space)
    requires forall k :: 0 <= k < j ==> events[k] != Press(Space)
    ensures FirstPress(events) == Some(j)
  {
  }

  lemma {:induction false} FirstStopAt(events: seq<Event>, from: nat, startTime: real, j: nat)
    requires from <= j < |events| && EndsRecording(events[j], startTime)
    requires forall k :: from <= k < j ==> !EndsRecording(events[k], startTime)
    ensures FirstStop(events, from, startTime) == Some(j)
    decreases j - from
  {
    if from < j {
      FirstStopAt(events, from + 1, startTime, j);
    }
  }

  /** Every block the events deliver is well shaped. */
  predicate BlocksWellShaped(events: seq<Event>, channels: nat)
  {
    forall k :: 0 <= k < |events| && events[k].Block? ==> WellShaped(events[k].chunk, channels)
  }

  /** A poll past the time bound after the start forces the capture to stop
      no later than that poll, and inside a session every poll is below the bound. */
  lemma MaxDurationForcesStop(events: seq<Event>, now0: real, k: nat)
    requires FirstPress(events).Some? && FirstPress(events).value < k < |events|
    requires events[k].Tick?
    requires events[k].now - LastTick(events[..FirstPress(events).value], now0) >= Settings.RECORD_MAX_SECONDS
    ensures Capture(events, now0).Some? && Capture(events, now0).value.stop <= k
  {
    var s := FirstPress(events).value;
    var t0 := LastTick(events[..s], now0);
    assert EndsRecording(events[k], t0);
  }

  /** Inside a session no poll has reached the bound and space was never released. */
  lemma SessionIsBelowBound(events: seq<Event>, now0: real, k: nat)
    requires Capture(events, now0).Some?
    requires Capture(events, now0).value.start < k < Capture(events, now0).value.stop
    ensures events[k] != Release(Space)
    ensures events[k].Tick? ==> events[k].now - Capture(events, now0).value.startTime < Settings.RECORD_MAX_SECONDS
  {
    var s := FirstPress(events).value;
    assert !EndsRecording(events[k], LastTick(events[..s], now0));
  }

  /** A call in which space is never pressed never returns. */
  lemma NoPressNoCapture(events: seq<Event>, now0: real)
    requires forall k :: 0 <= k < |events| ==> events[k] != Press(Space)
    ensures Capture(events, now0).None?
  {
  }

  class AudioRecorder {
    const sampleRate: nat
    const channels: nat
    var isRecording: bool
    var audioData: seq<Chunk>
    var startTime: Option<real>

    ghost predicate Valid()
      reads this
    {
      channels >= 1 && AllWellShaped(audioData, channels)
    }

    /** `__init__(sample_rate=SAMPLE_RATE, channels=CHANNELS)`. */
    constructor Init(sampleRate: nat, channels: nat)
      requires channels >= 1
      ensures Valid()
      ensures this.sampleRate == sampleRate && this.channels == channels
      ensures !isRecording && audioData == [] && startTime == None
    {
      this.sampleRate := sampleRate;
      this.channels := channels;
      isRecording := false;
      audioData := [];
      startTime := None;
    }

    /** `on_press`: space starts a recording unless one is running; any other key does nothing. */
    method OnPress(key: Key, now: real)
      requires Valid()
      modifies this
      ensures Valid()
      ensures key == Space && !old(isRecording) ==> isRecording && startTime == Some(now) && audioData == []
      ensures !(key == Space && !old(isRecording)) ==>
                isRecording == old(isRecording) && startTime == old(startTime) && audioData == old(audioData)
    {
      if key == Space && !isRecording {
        isRecording := true;
        startTime := Some(now);
        audioData := [];
      }
    }

    /** `on_release`: releasing space during a recording ends it and stops the
        listener (`stopListener`); any other release does nothing. */
    method OnRelease(key: Key) returns (stopListener: bool)
      requires Valid()
      modifies this
      ensures Valid()
      ensures stopListener == (key == Space && old(isRecording))
      ensures isRecording == (old(isRecording) && !stopListener)
      ensures startTime == old(startTime) && audioData == old(audioData)
    {
      stopListener := false;
      if key == Space && isRecording {
        isRecording := false;
        stopListener := true;
      }
    }

    /** `_audio_callback`: keeps a copy of the block only while recording. */
    method AudioCallback(chunk: Chunk)
      requires Valid() && WellShaped(chunk, channels)
      modifies this
      ensures Valid()
      ensures audioData == if old(isRecording) then old(audioData) + [chunk] else old(audioData)
      ensures isRecording == old(isRecording) && startTime == old(startTime)
    {
      if isRecording {
        audioData := audioData + [chunk];
      }
    }

    /** `record_push_to_talk` fed with `events`, the clock reading `now0` when it
        is called. `None` means the call is still waiting when the events run out. */
    method RecordPushToTalk(events: seq<Event>, now0: real) returns (audio: Option<seq<real>>)
      requires Valid() && BlocksWellShaped(events, channels)
      modifies this
      ensures Valid()
      ensures Capture(events, now0).None? ==> audio.None?
      ensures Capture(events, now0).Some? ==>
        var session := Capture(events, now0).value;
        && AllWellShaped(Recorded(events, session), channels)
        && audio == Some(Assemble(Recorded(events, session), channels))
        && !isRecording
        && audioData == Recorded(events, session)
        && startTime == Some(session.startTime)
    {
      audioData := [];
      isRecording := false;
      var i, clock := WaitForPress(events, now0);
      if !isRecording {
        return None;
      }
      var stopped := RecordWhileHeld(events, i, clock);
      if !stopped {
        return None;
      }
      audio := Some(Assemble(audioData, channels));
    }

    /** The first wait loop: the listener runs until space is pressed; blocks
        are not delivered because the input stream is not open yet. On return
        `events[i - 1]` is the press, and `clock` is the last clock reading. */
    method WaitForPress(events: seq<Event>, now0: real) returns (i: nat, clock: real)
      requires Valid() && !isRecording && audioData == []
      modifies this
      ensures Valid() && i <= |events|
      ensures isRecording ==> 0 < i && FirstPress(events) == Some(i - 1) && audioData == []
      ensures isRecording ==> startTime == Some(LastTick(events[..i - 1], now0))
      ensures !isRecording ==> FirstPress(events).None?
    {
      clock := now0;
      i := 0;
      while i < |events| && !isRecording
        invariant 0 <= i <= |events|
        invariant Valid()
        invariant !isRecording ==> audioData == [] && clock == LastTick(events[..i], now0)
        invariant !isRecording ==> forall k :: 0 <= k < i ==> events[k] != Press(Space)
        invariant isRecording ==> 0 < i && events[i - 1] == Press(Space) && audioData == []
        invariant isRecording ==> forall k :: 0 <= k < i - 1 ==> events[k] != Press(Space)
        invariant isRecording ==> startTime == Some(LastTick(events[..i - 1], now0))
        decreases |events| - i
      {
        LastTickStep(events, i, now0);
        match events[i] {
          case Press(k) => OnPress(k, clock);
          case Release(k) => var _ := OnRelease(k);
          case Block(_) =>
          case Tick(t) => clock := t;
        }
        i := i + 1;
      }
      if isRecording {
        FirstPressAt(events, i - 1);
      }
    }

    /** The second wait loop, with the input stream open from `events[s + 1]`:
        blocks are kept until space is released or a poll finds that
        `RECORD_MAX_SECONDS` have passed. `stopped` tells that one of them happened. */
    method RecordWhileHeld(events: seq<Event>, s: nat, clock0: real) returns (stopped: bool)
      requires Valid() && BlocksWellShaped(events, channels)
      requires isRecording && audioData == [] && startTime.Some? && s <= |events|
      modifies this
      ensures Valid() && startTime == old(startTime) && stopped == !isRecording
      ensures stopped ==>
        && FirstStop(events, s, startTime.value).Some?
        && audioData == BlocksOf(events[s..FirstStop(events, s, startTime.value).value])
      ensures !stopped ==> FirstStop(events, s, startTime.value).None?
    {
      var t0 := startTime.value;
      var clock := clock0;
      var i := s;
      while i < |events| && isRecording
        invariant s <= i <= |events|
        invariant Valid() && startTime == Some(t0)
        invariant isRecording ==> forall k :: s <= k < i ==> !EndsRecording(events[k], t0)
        invariant isRecording ==> audioData == BlocksOf(events[s..i])
        invariant !isRecording ==> s < i && EndsRecording(events[i - 1], t0)
        invariant !isRecording ==> forall k :: s <= k < i - 1 ==> !EndsRecording(events[k], t0)
        invariant !isRecording ==> audioData == BlocksOf(events[s..i - 1])
        decreases |events| - i
      {
        BlocksOfStep(events, s, i);
        match events[i] {
          case Press(k) => OnPress(k, clock);
          case Release(k) => var _ := OnRelease(k);
          case Block(c) => AudioCallback(c);
          case Tick(t) =>
            clock := t;
            if t - t0 >= Settings.RECORD_MAX_SECONDS {
              isRecording := false;
            }
        }
        i := i + 1;
      }
      stopped := !isRecording;
      if stopped {
        FirstStopAt(events, s, t0, i - 1);
      }
    }

    /** `cleanup`: drops the buffer and clears the recording flag. */
    method Cleanup()
      modifies this
      ensures audioData == [] && !isRecording && startTime == old(startTime)
      ensures channels >= 1 ==> Valid()
    {
      audioData := [];
      isRecording := false;
    }
  }
}
