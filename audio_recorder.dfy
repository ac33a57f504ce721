/** The recorder: a component that records from the microphone or takes an
    uploaded file, shows a running clock while recording, and reports the file
    it holds to its parent. The recording plugin, the timers and the clock are
    outside the model: their events are methods, their readings parameters. */
module AudioRecorder {
  import opened Wrappers
  import opened Media
  import opened TimeFormat

  // ---------------------------------------------------------------------
  // Pure parts

  /** The seconds shown while recording: `Math.floor((now - start) / 1000)`. */
  function Elapsed(start: int, now: int): int {
    (now - start) / 1000
  }

  lemma ElapsedBounds(start: int, now: int)
    requires start <= now
    ensures 0 <= Elapsed(start, now)
    ensures 1000 * Elapsed(start, now) <= now - start < 1000 * (Elapsed(start, now) + 1)
  {
  }

  /** A later clock reading never shows fewer seconds. */
  lemma ElapsedMonotone(start: int, now: int, later: int)
    requires now <= later
    ensures Elapsed(start, now) <= Elapsed(start, later)
  {
    var a, b := now - start, later - start;
    assert 1000 * (a / 1000) <= a <= b < 1000 * (b / 1000 + 1);
  }

  /** The JavaScript `%` on integers: the remainder carries the dividend's sign. */
  function JsIntRemainder(t: int, m: int): int
    requires m > 0
  {
    if t >= 0 then t % m else -((-t) % m)
  }

  /** `formatTime`: minutes floored, seconds as the plain remainder. */
  function FormatTime(t: int): string {
    PadStart(ShowInt(t / 60), 2, '0') + ":" + PadStart(ShowInt(JsIntRemainder(t, 60)), 2, '0')
  }

  /** For a non-negative count of seconds the label is its clock, which reads
      back to the same count. */
  lemma FormatTimeIsClock(t: int)
    requires t >= 0
    ensures FormatTime(t) == Clock(t / 60, t % 60)
    ensures ParseClock(FormatTime(t)) == Some((t / 60, t % 60))
    ensures t % 60 < 60 && 60 * (t / 60) + t % 60 == t
  {
    ClockRoundTrip(t / 60, t % 60);
  }

  /** The types the upload handler accepts. */
  predicate UploadTypeAccepted(mime: string) {
    mime == "audio/mp3" || mime == "audio/wav" || mime == "audio/mpeg" || mime == "audio/ogg"
  }

  /** The upload test and the forms' type test accept the same types. */
  lemma UploadTypesAreFormTypes(mime: string)
    ensures UploadTypeAccepted(mime) <==> MimeAllowed(mime)
  {
  }

  const RecordedName: string := "recorded_audio.wav"
  const RecordedType: string := "audio/wav"
  const UploadAlert: string := "Please select a valid audio file (MP3, OGG, MPEG, or WAV)."
  const MicrophoneAlert: string := "Unable to access the microphone. Please check your browser permissions and make sure a microphone is connected."

  /** The controls the component renders. */
  datatype Control = RecordButton | StopButton | RecordingClock | PlayButton | PlaybackClock | DeleteButton | UploadInput

  function Visible(isRecording: bool, hasFile: bool): set<Control> {
    (if !isRecording && !hasFile then {RecordButton} else {})
    + (if isRecording then {StopButton, RecordingClock} else {})
    + (if hasFile && !isRecording then {PlayButton, PlaybackClock, DeleteButton} else {})
    + (if !hasFile && !isRecording then {UploadInput} else {})
  }

  /** Exactly one of the three groups is on screen: record or upload when idle
      and empty, stop while recording, play and delete once a file is held. */
  lemma ControlGroups(isRecording: bool, hasFile: bool)
    ensures var v := Visible(isRecording, hasFile);
      && (RecordButton in v <==> UploadInput in v)
      && (StopButton in v <==> RecordingClock in v)
      && (PlayButton in v <==> DeleteButton in v)
      && (RecordButton in v <==> !isRecording && !hasFile)
      && (StopButton in v <==> isRecording)
      && (PlayButton in v <==> hasFile && !isRecording)
      && |v * {RecordButton, StopButton, PlayButton}| == 1
  {
    var v := Visible(isRecording, hasFile);
    if isRecording {
      assert v * {RecordButton, StopButton, PlayButton} == {StopButton};
    } else if hasFile {
      assert v * {RecordButton, StopButton, PlayButton} == {PlayButton};
    } else {
      assert v * {RecordButton, StopButton, PlayButton} == {RecordButton};
    }
  }

  /** What the microphone request ends in: granted, or an error with its name. */
  datatype Microphone = Granted | Refused(errorName: string)

  /** What the waveform shows. */
  datatype Waveform = Blank | Loaded(file: AudioFile) | LiveInput

  // ---------------------------------------------------------------------
  // The component

  class Recorder {
    // state cells
    var isRecording: bool
    var isPlaying: bool
    var recordingTime: int
    var playbackTime: int
    var audioFile: Option<AudioFile>
    var fileName: string
    var audioFileError: bool
    // refs
    var timerRef: Option<nat>
    var recordingStartTime: int
    var currentRecordingTime: int
    // the outside
    var capturing: bool
    var waveform: Waveform
    var running: set<nat>
    var nextTimer: nat
    var notified: seq<Option<AudioFile>>
    var alerts: seq<string>

    /** At most one interval runs, and it is the one the ref holds; the file
        name shown is the held file's; a held file has an accepted type; and
        the parent's last notification is the held file. */
    predicate Valid()
      reads this
    {
      && running <= (if timerRef.Some? then {timerRef.value} else {})
      && (forall t :: t in running ==> t < nextTimer)
      && (timerRef.Some? ==> timerRef.value < nextTimer)
      && fileName == (if audioFile.Some? then audioFile.value.name else "")
      && (audioFile.Some? ==> MimeAllowed(audioFile.value.mime))
      && (if notified == [] then audioFile.None? else notified[|notified| - 1] == audioFile)
    }

    function Shown(): set<Control>
      reads this
    {
      Visible(isRecording, audioFile.Some?)
    }

    /** Mounting; with `shouldReset`, the reset effect deletes the (empty) audio. */
    constructor (shouldReset: bool)
      ensures Valid()
      ensures !isRecording && !isPlaying && recordingTime == 0 && playbackTime == 0
      ensures audioFile.None? && fileName == "" && !audioFileError && running == {}
      ensures notified == (if shouldReset then [None] else [])
    {
      isRecording := false;
      isPlaying := false;
      recordingTime := 0;
      playbackTime := 0;
      audioFile := None;
      fileName := "";
      audioFileError := false;
      timerRef := None;
      recordingStartTime := 0;
      currentRecordingTime := 0;
      capturing := false;
      waveform := Blank;
      running := {};
      nextTimer := 0;
      notified := [];
      alerts := [];
      new;
      if shouldReset {
        DeleteAudio();
      }
    }

    /** `resetTimers`: both clocks to 0 and the interval in the ref cleared. */
    method ResetTimers()
      requires Valid()
      modifies this
      ensures Valid()
      ensures recordingTime == 0 && playbackTime == 0 && currentRecordingTime == 0
      ensures timerRef.None? && running == {}
      ensures isRecording == old(isRecording) && isPlaying == old(isPlaying) && audioFile == old(audioFile)
      ensures fileName == old(fileName) && audioFileError == old(audioFileError) && capturing == old(capturing)
      ensures waveform == old(waveform) && notified == old(notified) && alerts == old(alerts)
      ensures recordingStartTime == old(recordingStartTime) && nextTimer == old(nextTimer)
    {
      recordingTime := 0;
      playbackTime := 0;
      currentRecordingTime := 0;
      if timerRef.Some? {
        running := running - {timerRef.value};
        timerRef := None;
      }
    }

    /** `record-start`: timers reset, recording on, the start time stored and a
        fresh one-second interval in the ref. */
    method OnRecordStart(now: int)
      requires Valid()
      modifies this
      ensures Valid()
      ensures isRecording && recordingTime == 0 && playbackTime == 0
      ensures recordingStartTime == now && currentRecordingTime == 0
      ensures timerRef == Some(old(nextTimer)) && running == {old(nextTimer)}
      ensures isPlaying == old(isPlaying) && audioFile == old(audioFile) && fileName == old(fileName)
      ensures audioFileError == old(audioFileError) && notified == old(notified) && alerts == old(alerts)
    {
      ResetTimers();
      isRecording := true;
      recordingStartTime := now;
      currentRecordingTime := 0;
      timerRef := Some(nextTimer);
      running := {nextTimer};
      nextTimer := nextTimer + 1;
    }

    /** A tick of the running interval: the elapsed seconds, stored in the ref and shown. */
    method OnTick(now: int)
      requires Valid() && timerRef.Some? && timerRef.value in running
      modifies this
      ensures Valid()
      ensures currentRecordingTime == Elapsed(recordingStartTime, now) && recordingTime == currentRecordingTime
      ensures now >= recordingStartTime ==> recordingTime >= 0
      ensures isRecording == old(isRecording) && playbackTime == old(playbackTime) && audioFile == old(audioFile)
      ensures timerRef == old(timerRef) && running == old(running) && notified == old(notified)
      ensures recordingStartTime == old(recordingStartTime)
    {
      var newTime := Elapsed(recordingStartTime, now);
      currentRecordingTime := newTime;
      recordingTime := newTime;
    }

    /** `record-end`: the recording becomes the held file, is reported to the
        parent and loaded; the interval stops; both clocks show the last
        elapsed value. The ref keeps the stopped interval's id. */
    method OnRecordEnd(blobSize: nat)
      requires Valid()
      modifies this
      ensures Valid()
      ensures audioFile == Some(AudioFile(RecordedName, RecordedType, blobSize)) && fileName == RecordedName
      ensures notified == old(notified) + [audioFile]
      ensures !isRecording && running == {} && timerRef == old(timerRef)
      ensures playbackTime == old(currentRecordingTime) && recordingTime == old(currentRecordingTime)
      ensures waveform == Loaded(audioFile.value)
      ensures isPlaying == old(isPlaying) && audioFileError == old(audioFileError) && alerts == old(alerts)
    {
      var file := AudioFile(RecordedName, RecordedType, blobSize);
      if timerRef.Some? {
        running := running - {timerRef.value};
      }
      var finalTime := currentRecordingTime;
      audioFile, fileName, notified := Some(file), RecordedName, notified + [Some(file)];
      isRecording, playbackTime, recordingTime := false, finalTime, finalTime;
      waveform := Loaded(file);
    }

    /** The file input. `chosen` is the first selected file, if any. Only the
        type is checked: the size is left to the form. */
    method HandleFileUpload(chosen: Option<AudioFile>)
      requires Valid()
      modifies this
      ensures Valid()
      ensures chosen.Some? && UploadTypeAccepted(chosen.value.mime) ==>
        && audioFile == chosen && fileName == chosen.value.name && !audioFileError
        && notified == old(notified) + [chosen] && waveform == Loaded(chosen.value)
        && recordingTime == 0 && playbackTime == 0 && running == {} && alerts == old(alerts)
      ensures !(chosen.Some? && UploadTypeAccepted(chosen.value.mime)) ==>
        && audioFileError && audioFile == old(audioFile) && fileName == old(fileName)
        && notified == old(notified) && alerts == old(alerts) + [UploadAlert]
        && recordingTime == old(recordingTime) && playbackTime == old(playbackTime) && running == old(running)
      ensures isRecording == old(isRecording) && isPlaying == old(isPlaying)
    {
      if chosen.Some? && UploadTypeAccepted(chosen.value.mime) {
        var file := chosen.value;
        ResetTimers();
        audioFile := chosen;
        fileName := file.name;
        audioFileError := false;
        notified := notified + [chosen];
        waveform := Loaded(file);
      } else {
        audioFileError := true;
        alerts := alerts + [UploadAlert];
      }
    }

    /** The uploaded file's metadata: its duration in whole seconds on both clocks. */
    method OnUploadMetadata(duration: real)
      requires Valid()
      modifies this
      ensures Valid()
      ensures recordingTime == duration.Floor && playbackTime == duration.Floor
      ensures isRecording == old(isRecording) && audioFile == old(audioFile) && running == old(running)
      ensures notified == old(notified)
    {
      recordingTime := duration.Floor;
      playbackTime := duration.Floor;
    }

    /** The record/stop button. Starting empties the waveform and asks for the
        microphone; recording itself begins only with the `record-start` event.
        Stopping ends the capture and clears the interval. */
    method ToggleRecording(mic: Microphone)
      requires Valid()
      modifies this
      ensures Valid()
      ensures !isPlaying && isRecording == old(isRecording)
      ensures !old(isRecording) ==> waveform == (if mic.Granted? then LiveInput else Blank)
      ensures !old(isRecording) ==> capturing == (mic.Granted? || old(capturing))
      ensures !old(isRecording) ==>
        alerts == old(alerts) + (if mic.Refused? && mic.errorName in {"NotAllowedError", "NotFoundError"} then [MicrophoneAlert] else [])
      ensures !old(isRecording) ==> running == old(running)
      ensures old(isRecording) ==> !capturing && alerts == old(alerts) && running == {} && waveform == old(waveform)
      ensures audioFile == old(audioFile) && notified == old(notified) && recordingTime == old(recordingTime)
      ensures timerRef == old(timerRef) && currentRecordingTime == old(currentRecordingTime)
      ensures fileName == old(fileName) && playbackTime == old(playbackTime) && audioFileError == old(audioFileError)
      ensures recordingStartTime == old(recordingStartTime) && nextTimer == old(nextTimer)
    {
      isPlaying := false;
      if !isRecording {
        waveform := Blank;
        match mic
        case Granted =>
          capturing := true;
          waveform := LiveInput;
        case Refused(name) =>
          if name == "NotAllowedError" || name == "NotFoundError" {
            alerts := alerts + [MicrophoneAlert];
          }
      } else {
        capturing := false;
        if timerRef.Some? {
          running := running - {timerRef.value};
        }
      }
    }

    /** The delete button (and the reset on mount). */
    method DeleteAudio()
      requires Valid()
      modifies this
      ensures Valid()
      ensures audioFile.None? && fileName == "" && notified == old(notified) + [None]
      ensures !isPlaying && recordingTime == 0 && playbackTime == 0 && !audioFileError
      ensures waveform == Blank && !capturing && timerRef.None? && running == {}
      ensures isRecording == old(isRecording) && alerts == old(alerts)
    {
      ResetTimers();
      audioFile, fileName, notified := None, "", notified + [None];
      isPlaying, audioFileError := false, false;
      waveform, capturing := Blank, false;
    }

    /** The play/pause button flips the shown state. */
    method PlayPause()
      requires Valid()
      modifies this
      ensures Valid()
      ensures isPlaying == !old(isPlaying)
      ensures audioFile == old(audioFile) && isRecording == old(isRecording) && notified == old(notified)
      ensures playbackTime == old(playbackTime) && recordingTime == old(recordingTime)
    {
      isPlaying := !isPlaying;
    }

    /** The engine's `play`, `pause` and `finish` events. */
    method OnPlaybackEvent(playing: bool)
      requires Valid()
      modifies this
      ensures Valid() && isPlaying == playing
      ensures audioFile == old(audioFile) && isRecording == old(isRecording) && notified == old(notified)
      ensures playbackTime == old(playbackTime) && recordingTime == old(recordingTime)
    {
      isPlaying := playing;
    }

    /** `audioprocess`: the playback clock follows the engine in whole seconds. */
    method OnAudioprocess(position: real)
      requires Valid()
      modifies this
      ensures Valid() && playbackTime == position.Floor
      ensures audioFile == old(audioFile) && isRecording == old(isRecording) && recordingTime == old(recordingTime)
    {
      playbackTime := position.Floor;
    }

    /** Unmounting clears the interval the ref holds. */
    method Unmount()
      requires Valid()
      modifies this
      ensures Valid() && running == {}
    {
      if timerRef.Some? {
        running := running - {timerRef.value};
      }
    }
  }

  /** A full recording: start, ticks on a clock that does not go back, stop and
      the end event. The held file is the recording and both clocks show the
      seconds of the last tick. */
  method RecordSession(r: Recorder, start: int, tick1: int, tick2: int, size: nat)
    requires r.Valid() && !r.isRecording && r.audioFile.None?
    requires start <= tick1 <= tick2
    modifies r
    ensures r.Valid() && !r.isRecording && r.running == {}
    ensures r.audioFile == Some(AudioFile(RecordedName, RecordedType, size))
    ensures r.recordingTime == r.playbackTime == Elapsed(start, tick2) >= Elapsed(start, tick1) >= 0
    ensures r.Shown() == {PlayButton, PlaybackClock, DeleteButton}
  {
    r.ToggleRecording(Granted);
    r.OnRecordStart(start);
    assert r.Shown() == {StopButton, RecordingClock};
    r.OnTick(tick1);
    r.OnTick(tick2);
    ElapsedMonotone(start, tick1, tick2);
    ElapsedBounds(start, tick1);
    r.ToggleRecording(Granted);
    r.OnRecordEnd(size);
  }
}
