/**
 * The playback state machine of `AudioPlayer` (internal/audio/audio.go).
 *
 * PortAudio calls (`Initialize`, `OpenDefaultStream`, `Start`, `Stop`,
 * `Close`, `Terminate`) are foreign: their success or failure is an input
 * to each operation. The `done` channel is two flags: whether it exists
 * (`hasDone`, the nil check of WaitForCompletion) and whether it has been
 * closed (`doneClosed`, the completion signal). The pure step functions
 * below say what each operation does to a `PlayerState`; the class
 * `AudioPlayer` holds the same fields, updates them in place, and each of
 * its methods is proved to follow its step function.
 */
module Audio {
  import opened Wrappers
  import opened Mp3Pcm

  /** The sample rate a new player starts with. */
  const DefaultSampleRate := 44100

  /** An open PortAudio output stream. */
  datatype Stream = Stream(handle: nat)

  /** The outcome of `portaudio.OpenDefaultStream`. */
  datatype StreamOpen = OpenFailed(reason: string) | Opened(stream: Stream)

  datatype AudioError =
    | InitializeFailed        // "failed to initialize PortAudio"
    | ReadAudioFailed         // "failed to read audio data"
    | DecodeFailed(cause: DecodeError)  // "failed to decode MP3"
    | OpenStreamFailed(reason: string)  // "failed to open audio stream"
    | StartStreamFailed       // "failed to start audio stream"
    | NoActivePlayback        // "no active playback" (WaitForCompletion)
    | NoActiveAudioPlayback   // "no active audio playback" (Pause)
    | PauseFailed             // "failed to pause audio"
    | NoPausedPlayback        // "no paused audio playback" (Resume)
    | ResumeFailed            // "failed to resume audio"
    | StopFailed              // "failed to stop audio"
    | CloseStreamFailed       // "failed to close audio stream"
    | TerminateFailed         // the error of portaudio.Terminate

  /** What an operation returns: nil, an error, or a run-time panic (closing a closed or nil channel). */
  datatype Outcome = Succeeded | Failed(error: AudioError) | Panicked

  /** The fields of an AudioPlayer, other than its lock. */
  datatype PlayerState = PlayerState(
    stream: Option<Stream>,
    buffer: seq<real>,
    playing: bool,
    paused: bool,
    hasDone: bool,
    doneClosed: bool,
    sampleRate: int)

  /** The state after an operation, and what the operation returned. */
  datatype Step = Step(next: PlayerState, outcome: Outcome)

  /** The player NewAudioPlayer builds: no stream, not playing, a fresh open `done` channel, 44100 Hz. */
  function NewPlayerState(): PlayerState
  {
    PlayerState(None, [], false, false, true, false, DefaultSampleRate)
  }

  /**
   * What every operation keeps true: `done` exists; a paused player is
   * playing and holds a stream; while a stream is held, `done` is open.
   */
  predicate Consistent(s: PlayerState)
  {
    && s.hasDone
    && (s.paused ==> s.playing && s.stream.Some?)
    && (s.stream.Some? ==> !s.doneClosed)
  }

  /** IsPlaying: playing and not paused. */
  predicate IsPlayingIn(s: PlayerState)
  {
    s.playing && !s.paused
  }

  /**
   * PlayMP3Stream. Reading and decoding come first and change nothing when
   * they fail. After a successful decode the buffer, sample rate and flags
   * are set and `done` is replaced, before the stream is opened; a stream
   * that then fails to start is closed but stays recorded.
   */
  function PlayStep(s: PlayerState, readOk: bool, audio: DecoderOpen, device: StreamOpen, startOk: bool): Step
  {
    if !readOk then Step(s, Failed(ReadAudioFailed))
    else match Mp3ToPcm(audio)
      case Err(e) => Step(s, Failed(DecodeFailed(e)))
      case Ok(pcm) =>
        var armed := s.(buffer := pcm.samples, playing := true, paused := false,
                        sampleRate := pcm.sampleRate, hasDone := true, doneClosed := false);
        match device
        case OpenFailed(reason) => Step(armed, Failed(OpenStreamFailed(reason)))
        case Opened(stream) =>
          var bound := armed.(stream := Some(stream));
          if startOk then Step(bound, Succeeded) else Step(bound, Failed(StartStreamFailed))
  }

  /** Pause: needs a stream and `playing`; does not look at `paused`. */
  function PauseStep(s: PlayerState, stopOk: bool): Step
  {
    if s.stream.None? || !s.playing then Step(s, Failed(NoActiveAudioPlayback))
    else if !stopOk then Step(s, Failed(PauseFailed))
    else Step(s.(paused := true), Succeeded)
  }

  /** Resume: needs a stream, `playing` and `paused`. */
  function ResumeStep(s: PlayerState, startOk: bool): Step
  {
    if s.stream.None? || !s.playing || !s.paused then Step(s, Failed(NoPausedPlayback))
    else if !startOk then Step(s, Failed(ResumeFailed))
    else Step(s.(paused := false), Succeeded)
  }

  /**
   * Stop: nothing to do without a stream; otherwise stop and close the
   * device, clear the fields and close `done` (a panic if it is nil or
   * already closed).
   */
  function StopStep(s: PlayerState, stopOk: bool, closeOk: bool): Step
  {
    if s.stream.None? then Step(s, Succeeded)
    else if !stopOk then Step(s, Failed(StopFailed))
    else if !closeOk then Step(s, Failed(CloseStreamFailed))
    else
      var cleared := s.(stream := None, playing := false, paused := false);
      if !s.hasDone || s.doneClosed then Step(cleared, Panicked)
      else Step(cleared.(doneClosed := true), Succeeded)
  }

  /** Close: Stop, then release PortAudio unless Stop returned an error. */
  function CloseStep(s: PlayerState, stopOk: bool, closeOk: bool, terminateOk: bool): Step
  {
    var stopped := StopStep(s, stopOk, closeOk);
    if stopped.outcome != Succeeded then stopped
    else if terminateOk then stopped
    else Step(stopped.next, Failed(TerminateFailed))
  }

  /** WaitForCompletion's answer, once `done` is closed (the blocking itself is not modelled). */
  function WaitOutcome(s: PlayerState): Outcome
  {
    if !s.hasDone then Failed(NoActivePlayback) else Succeeded
  }

  // ---------------------------------------------------------------------
  // Properties of the step functions

  /** A new player is consistent, idle, holds no stream and runs at 44100 Hz. */
  lemma NewPlayerIsIdle()
    ensures Consistent(NewPlayerState())
    ensures !IsPlayingIn(NewPlayerState())
    ensures NewPlayerState().stream.None? && !NewPlayerState().playing && !NewPlayerState().paused
    ensures NewPlayerState().sampleRate == 44100
  {
  }

  /** Every operation keeps the player consistent, whatever the device does. */
  lemma StepsKeepConsistency(s: PlayerState, readOk: bool, audio: DecoderOpen, device: StreamOpen, a: bool, b: bool, c: bool)
    requires Consistent(s)
    ensures Consistent(PlayStep(s, readOk, audio, device, a).next)
    ensures Consistent(PauseStep(s, a).next)
    ensures Consistent(ResumeStep(s, a).next)
    ensures Consistent(StopStep(s, a, b).next)
    ensures Consistent(CloseStep(s, a, b, c).next)
  {
  }

  /** IsPlaying is false while paused. */
  lemma PausedIsNotPlaying(s: PlayerState)
    requires s.paused
    ensures !IsPlayingIn(s)
  {
  }

  /** Pause succeeds exactly when a stream is held, `playing` is set and the device stops; it then sets only `paused`. */
  lemma PauseContract(s: PlayerState, stopOk: bool)
    ensures PauseStep(s, stopOk).outcome == Succeeded <==> s.stream.Some? && s.playing && stopOk
    ensures PauseStep(s, stopOk).outcome == Succeeded ==> PauseStep(s, stopOk).next == s.(paused := true)
    ensures PauseStep(s, stopOk).outcome != Succeeded ==> PauseStep(s, stopOk).next == s
  {
  }

  /** Pausing an already paused player stops the device again and succeeds. */
  lemma PauseTwiceSucceeds(s: PlayerState)
    requires s.stream.Some? && s.playing && s.paused
    ensures PauseStep(s, true) == Step(s, Succeeded)
  {
  }

  /** Resume succeeds exactly when a stream is held, `playing` and `paused` are set and the device starts. */
  lemma ResumeContract(s: PlayerState, startOk: bool)
    ensures ResumeStep(s, startOk).outcome == Succeeded <==> s.stream.Some? && s.playing && s.paused && startOk
    ensures ResumeStep(s, startOk).outcome == Succeeded ==> ResumeStep(s, startOk).next == s.(paused := false)
    ensures ResumeStep(s, startOk).outcome != Succeeded ==> ResumeStep(s, startOk).next == s
  {
  }

  /** Resume undoes a successful Pause of a running player. */
  lemma ResumeUndoesPause(s: PlayerState)
    requires !s.paused && PauseStep(s, true).outcome == Succeeded
    ensures ResumeStep(PauseStep(s, true).next, true) == Step(s, Succeeded)
    ensures IsPlayingIn(s) && !IsPlayingIn(PauseStep(s, true).next)
  {
  }

  /** Pause undoes a successful Resume. */
  lemma PauseUndoesResume(s: PlayerState)
    requires ResumeStep(s, true).outcome == Succeeded
    ensures PauseStep(ResumeStep(s, true).next, true) == Step(s, Succeeded)
    ensures IsPlayingIn(ResumeStep(s, true).next)
  {
  }

  /** Stop without a stream succeeds and changes nothing. */
  lemma StopWithoutStream(s: PlayerState, stopOk: bool, closeOk: bool)
    requires s.stream.None?
    ensures StopStep(s, stopOk, closeOk) == Step(s, Succeeded)
  {
  }

  /** A successful Stop clears the stream and the flags and fires the completion signal. */
  lemma StopSignalsCompletion(s: PlayerState)
    requires Consistent(s) && s.stream.Some?
    ensures StopStep(s, true, true)
            == Step(s.(stream := None, playing := false, paused := false, doneClosed := true), Succeeded)
    ensures !IsPlayingIn(StopStep(s, true, true).next)
  {
  }

  /**
   * Stop on a player that never started playback returns at once and does
   * not close `done`: a caller blocked in WaitForCompletion is not released.
   */
  lemma StopOnIdlePlayerKeepsWaiting(stopOk: bool, closeOk: bool)
    ensures StopStep(NewPlayerState(), stopOk, closeOk) == Step(NewPlayerState(), Succeeded)
    ensures !StopStep(NewPlayerState(), stopOk, closeOk).next.doneClosed
  {
  }

  /** A failing device call leaves Stop's state untouched. */
  lemma StopDeviceFailure(s: PlayerState, stopOk: bool, closeOk: bool)
    requires s.stream.Some? && !(stopOk && closeOk)
    ensures StopStep(s, stopOk, closeOk).next == s && StopStep(s, stopOk, closeOk).outcome.Failed?
  {
  }

  /** Stop is idempotent: after a successful Stop, another Stop is a successful no-op. */
  lemma StopIdempotent(s: PlayerState, stopOk: bool, closeOk: bool, stopOk': bool, closeOk': bool)
    requires Consistent(s) && StopStep(s, stopOk, closeOk).outcome == Succeeded
    ensures StopStep(StopStep(s, stopOk, closeOk).next, stopOk', closeOk')
            == Step(StopStep(s, stopOk, closeOk).next, Succeeded)
  {
  }

  /** On a consistent player Stop never panics. */
  lemma StopNeverPanics(s: PlayerState, stopOk: bool, closeOk: bool)
    requires Consistent(s)
    ensures StopStep(s, stopOk, closeOk).outcome != Panicked
  {
  }

  /** A second Close only repeats the release of PortAudio. */
  lemma CloseTwice(s: PlayerState, a: bool, b: bool, c: bool, a': bool, b': bool, c': bool)
    requires Consistent(s) && CloseStep(s, a, b, c).outcome == Succeeded
    ensures CloseStep(CloseStep(s, a, b, c).next, a', b', c')
            == Step(CloseStep(s, a, b, c).next, if c' then Succeeded else Failed(TerminateFailed))
  {
  }

  /** A failed read or decode returns before any field is touched. */
  lemma PlayDecodeFailureChangesNothing(s: PlayerState, readOk: bool, audio: DecoderOpen, device: StreamOpen, startOk: bool)
    requires !readOk || Mp3ToPcm(audio).Err?
    ensures PlayStep(s, readOk, audio, device, startOk).next == s
    ensures PlayStep(s, readOk, audio, device, startOk).outcome.Failed?
  {
  }

  /**
   * After a successful decode the buffer and sample rate are replaced,
   * `playing` is set, `paused` cleared and `done` re-armed, whatever the
   * device does afterwards.
   */
  lemma PlayInstallsSession(s: PlayerState, audio: DecoderOpen, device: StreamOpen, startOk: bool)
    requires Mp3ToPcm(audio).Ok?
    ensures var t := PlayStep(s, true, audio, device, startOk).next;
            && t.buffer == Mp3ToPcm(audio).value.samples
            && t.sampleRate == Mp3ToPcm(audio).value.sampleRate
            && t.playing && !t.paused && t.hasDone && !t.doneClosed
  {
  }

  /** Play succeeds exactly when reading, decoding, opening and starting all succeed; the new stream is then held. */
  lemma PlaySucceedsIff(s: PlayerState, readOk: bool, audio: DecoderOpen, device: StreamOpen, startOk: bool)
    ensures PlayStep(s, readOk, audio, device, startOk).outcome == Succeeded
            <==> readOk && Mp3ToPcm(audio).Ok? && device.Opened? && startOk
    ensures PlayStep(s, readOk, audio, device, startOk).outcome == Succeeded
            ==> PlayStep(s, readOk, audio, device, startOk).next.stream == Some(device.stream)
                && IsPlayingIn(PlayStep(s, readOk, audio, device, startOk).next)
  {
  }

  /**
   * `playing` is set before the stream is opened: when opening fails the
   * player still reports IsPlaying, and the earlier stream (if any) is kept.
   */
  lemma OpenFailureLeavesPlaying(s: PlayerState, audio: DecoderOpen, reason: string, startOk: bool)
    requires Mp3ToPcm(audio).Ok?
    ensures PlayStep(s, true, audio, OpenFailed(reason), startOk).outcome == Failed(OpenStreamFailed(reason))
    ensures IsPlayingIn(PlayStep(s, true, audio, OpenFailed(reason), startOk).next)
    ensures PlayStep(s, true, audio, OpenFailed(reason), startOk).next.stream == s.stream
  {
  }

  /** WaitForCompletion's "no active playback" error can never occur once the player is built. */
  lemma WaitNeverReportsNoPlayback(s: PlayerState)
    requires Consistent(s)
    ensures WaitOutcome(s) == Succeeded
  {
  }

  /** After a successful Stop the completion signal has fired, so a waiter returns at once. */
  lemma WaitReturnsAfterStop(s: PlayerState, stopOk: bool, closeOk: bool)
    requires Consistent(s) && s.stream.Some? && StopStep(s, stopOk, closeOk).outcome == Succeeded
    ensures StopStep(s, stopOk, closeOk).next.doneClosed
    ensures WaitOutcome(StopStep(s, stopOk, closeOk).next) == Succeeded
  {
  }

  // ---------------------------------------------------------------------
  // The player object

  class AudioPlayer {
    var stream: Option<Stream>
    var buffer: seq<real>
    var playing: bool
    var paused: bool
    var hasDone: bool
    var doneClosed: bool
    var sampleRate: int

    /** The player's fields as a value. */
    ghost function State(): PlayerState
      reads this
    {
      PlayerState(stream, buffer, playing, paused, hasDone, doneClosed, sampleRate)
    }

    ghost predicate Valid()
      reads this
    {
      Consistent(State())
    }

    /** The AudioPlayer literal of NewAudioPlayer. */
    constructor ()
      ensures State() == NewPlayerState() && Valid()
    {
      stream := None;
      buffer := [];
      playing := false;
      paused := false;
      hasDone := true;
      doneClosed := false;
      sampleRate := DefaultSampleRate;
    }

    /** NewAudioPlayer: initialise PortAudio, then build the player. */
    static method NewAudioPlayer(initOk: bool) returns (p: AudioPlayer?, outcome: Outcome)
      ensures initOk <==> p != null
      ensures p != null ==> fresh(p) && p.State() == NewPlayerState() && p.Valid()
      ensures outcome == if initOk then Succeeded else Failed(InitializeFailed)
    {
      if !initOk {
        return null, Failed(InitializeFailed);
      }
      p := new AudioPlayer();
      outcome := Succeeded;
    }

    /** IsPlaying, read under the lock. */
    function IsPlaying(): (b: bool)
      reads this
      ensures b <==> IsPlayingIn(State())
    {
      playing && !paused
    }

    /** WaitForCompletion once `done` is closed: an error only when `done` is nil. */
    function WaitForCompletion(): (outcome: Outcome)
      reads this
      ensures outcome == WaitOutcome(State())
      ensures Valid() ==> outcome == Succeeded
    {
      if !hasDone then Failed(NoActivePlayback) else Succeeded
    }

    /** PlayMP3Stream, up to launching the writer. */
    method PlayMp3Stream(readOk: bool, audio: DecoderOpen, device: StreamOpen, startOk: bool) returns (outcome: Outcome)
      requires Valid()
      requires audio.DecoderReady? ==> HonoursBuffer(audio.decoder)
      modifies this
      ensures Valid()
      ensures State() == PlayStep(old(State()), readOk, audio, device, startOk).next
      ensures outcome == PlayStep(old(State()), readOk, audio, device, startOk).outcome
    {
      if !readOk {
        return Failed(ReadAudioFailed);
      }
      var decoded := DecodeToPcm(audio);
      if decoded.Err? {
        return Failed(DecodeFailed(decoded.error));
      }
      buffer := decoded.value.samples;
      playing := true;
      paused := false;
      sampleRate := decoded.value.sampleRate;
      // the old channel is drained if closed, then replaced by a new one
      hasDone, doneClosed := true, false;
      if device.OpenFailed? {
        return Failed(OpenStreamFailed(device.reason));
      }
      stream := Some(device.stream);
      if !startOk {
        // stream.Close() is called; its result is ignored and the field keeps the stream
        return Failed(StartStreamFailed);
      }
      outcome := Succeeded;
    }

    method Pause(stopOk: bool) returns (outcome: Outcome)
      requires Valid()
      modifies this
      ensures Valid()
      ensures State() == PauseStep(old(State()), stopOk).next
      ensures outcome == PauseStep(old(State()), stopOk).outcome
    {
      if stream.None? || !playing {
        return Failed(NoActiveAudioPlayback);
      }
      if !stopOk {
        return Failed(PauseFailed);
      }
      paused := true;
      outcome := Succeeded;
    }

    method Resume(startOk: bool) returns (outcome: Outcome)
      requires Valid()
      modifies this
      ensures Valid()
      ensures State() == ResumeStep(old(State()), startOk).next
      ensures outcome == ResumeStep(old(State()), startOk).outcome
    {
      if stream.None? || !playing || !paused {
        return Failed(NoPausedPlayback);
      }
      if !startOk {
        return Failed(ResumeFailed);
      }
      paused := false;
      outcome := Succeeded;
    }

    method Stop(stopOk: bool, closeOk: bool) returns (outcome: Outcome)
      requires Valid()
      modifies this
      ensures Valid()
      ensures State() == StopStep(old(State()), stopOk, closeOk).next
      ensures outcome == StopStep(old(State()), stopOk, closeOk).outcome
    {
      if stream.None? {
        return Succeeded;
      }
      if !stopOk {
        return Failed(StopFailed);
      }
      if !closeOk {
        return Failed(CloseStreamFailed);
      }
      stream := None;
      playing := false;
      paused := false;
      // close(ap.done): Valid() keeps `done` open while a stream is held, so this cannot panic
      doneClosed := true;
      outcome := Succeeded;
    }

    method Close(stopOk: bool, closeOk: bool, terminateOk: bool) returns (outcome: Outcome)
      requires Valid()
      modifies this
      ensures Valid()
      ensures State() == CloseStep(old(State()), stopOk, closeOk, terminateOk).next
      ensures outcome == CloseStep(old(State()), stopOk, closeOk, terminateOk).outcome
    {
      outcome := Stop(stopOk, closeOk);
      if outcome != Succeeded {
        return;
      }
      if !terminateOk {
        outcome := Failed(TerminateFailed);
      }
    }
  }
}
