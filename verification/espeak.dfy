/**
 * The eSpeak-NG adapter (pkg/tts/providers/local/espeak.go): parsing of
 * the `espeak-ng --voices` listing, the argument list of a synthesis run,
 * and Speak/SpeakSSML, which validate, synthesise and hand the audio to
 * the player. Running the subprocess is an input: its failure text, or
 * its standard output as the MP3 decoder will see it.
 */
module ESpeak {
  import opened Wrappers
  import opened GoStrings
  import opened Tts
  import opened Mp3Pcm
  import Audio

  /** The Provider field of every eSpeak voice. */
  const ProviderName := "eSpeak-NG"

  // ---------------------------------------------------------------------
  // GetVoices

  /** The voice described by the fields of one listing line (at least four). */
  function VoiceOf(fields: seq<string>): Voice
    requires |fields| >= 4
  {
    Voice(fields[1], Join(fields[4..], " "), fields[2], fields[3], ProviderName, NoNativeVoice)
  }

  /** The voices one line contributes: none when it has fewer than four fields. */
  function LineVoices(line: string): seq<Voice>
  {
    var fields := Fields(line);
    if |fields| < 4 then [] else [VoiceOf(fields)]
  }

  /** A voice as the parser builds it: non-empty ID, Language and Gender without spaces, provider eSpeak-NG. */
  predicate WellFormedVoice(v: Voice)
  {
    IsWord(v.id) && IsWord(v.language) && IsWord(v.gender) && v.provider == ProviderName
  }

  /** The voices of a run of lines, line by line, in order. */
  function VoicesOfLines(lines: seq<string>): (voices: seq<Voice>)
    ensures |voices| <= |lines|
    ensures forall i :: 0 <= i < |voices| ==> WellFormedVoice(voices[i])
    decreases |lines|
  {
    if lines == [] then []
    else VoicesOfLines(lines[..|lines| - 1]) + LineVoices(lines[|lines| - 1])
  }

  /** The voices of a whole listing: every line after the first. */
  function VoiceListing(output: string): (voices: seq<Voice>)
    ensures |voices| <= |SplitLines(output)| - 1
  {
    VoicesOfLines(SplitLines(output)[1..])
  }

  /** The voices of consecutive line runs are the voices of each run, in order. */
  lemma {:induction false} VoicesOfLinesAppend(a: seq<string>, b: seq<string>)
    ensures VoicesOfLines(a + b) == VoicesOfLines(a) + VoicesOfLines(b)
    decreases |b|
  {
    if b == [] {
      assert a + b == a;
    } else {
      var init := b[..|b| - 1];
      assert (a + b)[..|a + b| - 1] == a + init;
      VoicesOfLinesAppend(a, init);
    }
  }

  /** The first line is a header: whatever it holds, the voices come from the lines after it. */
  lemma HeaderSkipped(header: string, body: string)
    requires '\n' !in header
    ensures VoiceListing(header + "\n" + body) == VoicesOfLines(SplitLines(body))
  {
    SplitLinesAfterHeader(header, body);
    assert ([header] + SplitLines(body))[1..] == SplitLines(body);
  }

  /**
   * Any line with at least four fields gives one voice: ID, Language and
   * Gender are fields 1, 2 and 3, Name is the rest joined by single spaces
   * and is empty exactly when there are four fields.
   */
  lemma VoiceOfLine(line: string)
    requires |Fields(line)| >= 4
    ensures LineVoices(line) == [VoiceOf(Fields(line))]
    ensures var f, v := Fields(line), VoiceOf(Fields(line));
            v.id == f[1] && v.language == f[2] && v.gender == f[3]
            && v.name == Join(f[4..], " ") && v.provider == "eSpeak-NG"
            && (v.name == "" <==> |f| == 4)
  {
    JoinWordsEmpty(Fields(line)[4..]);
  }

  /**
   * A column-padded listing line (leading blanks, columns separated by runs
   * of blanks) with at least four columns gives the voice of its columns:
   * ID column 1, Language column 2, Gender column 3.
   */
  lemma VoiceOfPaddedLine(lead: string, columns: seq<string>, gaps: seq<string>)
    requires |columns| >= 4 && AllSpace(lead) && |gaps| == |columns|
    requires forall i :: 0 <= i < |columns| ==> IsWord(columns[i]) && AllSpace(gaps[i])
    requires forall i :: 0 <= i < |columns| - 1 ==> gaps[i] != []
    ensures LineVoices(lead + Padded(columns, gaps)) == [VoiceOf(columns)]
    ensures VoiceOf(columns).id == columns[1] && VoiceOf(columns).language == columns[2]
            && VoiceOf(columns).gender == columns[3]
  {
    FieldsOfPadded(lead, columns, gaps);
  }

  /** A line of words separated by single spaces gives the voice of its words. */
  lemma VoiceOfJoinedLine(fields: seq<string>)
    requires |fields| >= 4
    requires forall i :: 0 <= i < |fields| ==> IsWord(fields[i])
    ensures LineVoices(Join(fields, " ")) == [VoiceOf(fields)]
  {
    FieldsOfJoin(fields);
  }

  /** A line with fewer than four fields gives no voice. */
  lemma ShortLineSkipped(line: string)
    requires |Fields(line)| < 4
    ensures LineVoices(line) == []
  {
  }

  /** GetVoices: the listing's lines after the header, each parsed on its own. */
  method GetVoices(command: Result<string, string>) returns (r: Result<seq<Voice>, string>)
    ensures command.Err? ==> r == Err("failed to get voices: " + command.error)
    ensures command.Ok? ==> r == Ok(VoiceListing(command.value))
  {
    if command.Err? {
      return Err("failed to get voices: " + command.error);
    }
    // the header line is skipped
    var body := SplitLines(command.value)[1..];
    var voices: seq<Voice> := [];
    var j := 0;
    while j < |body|
      invariant 0 <= j <= |body|
      invariant voices == VoicesOfLines(body[..j])
    {
      var fields := Fields(body[j]);
      if |fields| >= 4 {
        voices := voices + [Voice(fields[1], Join(fields[4..], " "), fields[2], fields[3], "eSpeak-NG", NoNativeVoice)];
      }
      assert body[..j + 1][..j] == body[..j];
      j := j + 1;
    }
    assert body[..j] == body;
    return Ok(voices);
  }

  // ---------------------------------------------------------------------
  // synthesize: the argument list

  /** Go's int(x) on a float: the integer part, rounding toward zero. */
  function Truncate(x: real): (n: int)
    ensures x >= 0.0 ==> n as real <= x < n as real + 1.0
    ensures x < 0.0 ==> n as real - 1.0 < x <= n as real
  {
    if x >= 0.0 then x.Floor else -((-x).Floor)
  }

  /** The settings of an unmodified configuration are espeak-ng's own defaults: 175, 50 and 100. */
  lemma DefaultSettings()
    ensures Itoa(Truncate(DefaultAudioConfig().rate * 175.0)) == "175"
    ensures Itoa(Truncate(DefaultAudioConfig().pitch * 50.0)) == "50"
    ensures Itoa(Truncate(DefaultAudioConfig().volume * 100.0)) == "100"
  {
    assert Digits(175) == Digits(17) + [DigitChar(5)];
    assert Digits(17) == Digits(1) + [DigitChar(7)];
  }

  /**
   * The arguments synthesize gives espeak-ng: --stdout, the voice, rate,
   * pitch and volume scaled by 175, 50 and 100 and truncated, "-m" for
   * markup, then the text.
   */
  method SynthesisArgs(config: TtsConfig, audio: AudioConfig, text: string, isSsml: bool)
    returns (args: seq<string>)
    ensures |args| == if isSsml then 7 else 6
    ensures args[0] == "--stdout"
    ensures args[1] == "--voice=" + config.voiceId
    ensures args[2] == "--rate=" + Itoa(Truncate(audio.rate * 175.0))
    ensures args[3] == "--pitch=" + Itoa(Truncate(audio.pitch * 50.0))
    ensures args[4] == "--volume=" + Itoa(Truncate(audio.volume * 100.0))
    ensures isSsml ==> args[5] == "-m"
    ensures args[|args| - 1] == text
    ensures ("-m" in args[..|args| - 1]) <==> isSsml
  {
    args := ["--stdout", "--voice=" + config.voiceId,
             "--rate=" + Itoa(Truncate(audio.rate * 175.0)),
             "--pitch=" + Itoa(Truncate(audio.pitch * 50.0)),
             "--volume=" + Itoa(Truncate(audio.volume * 100.0))];
    if isSsml {
      args := args + ["-m"];
    }
    args := args + [text];
    // each of the first five is longer than "-m"
    assert |args[1]| > 2 && |args[2]| > 2 && |args[3]| > 2 && |args[4]| > 2;
  }

  // ---------------------------------------------------------------------
  // The provider: construction, Speak and SpeakSSML

  /** What running espeak-ng gave: the failure and its standard error, or its output as the MP3 decoder reads it. */
  datatype Synthesis = RunFailed(cause: string, stderr: string) | RunSucceeded(audio: DecoderOpen)

  /** The errors of the eSpeak provider. */
  datatype ESpeakError =
    | NotInstalled(message: string)
    | PlayerError(outcome: Audio.Outcome)
    | InvalidSsml(message: string)
    | SynthesisFailed(message: string)

  /** The error text synthesize returns for a failed run. */
  function RunFailureMessage(cause: string, stderr: string): string
  {
    "espeak-ng failed: " + cause + ": " + stderr
  }

  /** The device's answers during one playback: opening the stream, then starting it. */
  datatype DeviceAnswers = DeviceAnswers(open: Audio.StreamOpen, startOk: bool)

  /** The audio of a successful run is read in chunks of at most the decoder's buffer size. */
  predicate DecodableRun(run: Synthesis)
  {
    run.RunSucceeded? && run.audio.DecoderReady? ==> HonoursBuffer(run.audio.decoder)
  }

  /** The error, if any, of playing the output of a successful run. */
  function PlaybackError(outcome: Audio.Outcome): Option<ESpeakError>
  {
    if outcome == Audio.Succeeded then None else Some(PlayerError(outcome))
  }

  class ESpeakProvider {
    const base: BaseProvider
    const player: Audio.AudioPlayer

    constructor (base: BaseProvider, player: Audio.AudioPlayer)
      ensures this.base == base && this.player == player
    {
      this.base := base;
      this.player := player;
    }

    /**
     * NewESpeakProvider: fails when espeak-ng is not on the path (the
     * lookup's error is given), then when the audio player cannot start;
     * otherwise a base provider with the default audio settings and a new
     * idle player.
     */
    static method NewESpeakProvider(config: TtsConfig, lookPathError: Option<string>, initOk: bool)
      returns (p: ESpeakProvider?, err: Option<ESpeakError>)
      ensures p != null <==> err.None?
      ensures lookPathError.Some? ==> err == Some(NotInstalled("espeak-ng not found: " + lookPathError.value))
      ensures lookPathError.None? && !initOk ==> err == Some(PlayerError(Audio.Failed(Audio.InitializeFailed)))
      ensures lookPathError.None? && initOk ==> p != null
      ensures p != null ==>
                && fresh(p) && fresh(p.base) && fresh(p.player)
                && p.base.config == config && p.base.audioConfig == DefaultAudioConfig()
                && p.player.State() == Audio.NewPlayerState() && p.player.Valid()
    {
      if lookPathError.Some? {
        return null, Some(NotInstalled("espeak-ng not found: " + lookPathError.value));
      }
      var player, outcome := Audio.AudioPlayer.NewAudioPlayer(initOk);
      if player == null {
        return null, Some(PlayerError(outcome));
      }
      var base := new BaseProvider(config);
      p := new ESpeakProvider(base, player);
      err := None;
    }

    /**
     * synthesize, then PlayMP3Stream on its output. `launched` is the
     * argument list espeak-ng was started with; reading the output back
     * from memory never fails.
     */
    method SynthesizeAndPlay(text: string, isSsml: bool, run: Synthesis, device: DeviceAnswers)
      returns (err: Option<ESpeakError>, launched: seq<string>)
      requires player.Valid() && DecodableRun(run)
      modifies player
      ensures player.Valid()
      ensures |launched| == (if isSsml then 7 else 6) && launched[|launched| - 1] == text
      ensures isSsml ==> launched[5] == "-m"
      ensures launched[0] == "--stdout" && launched[1] == "--voice=" + base.config.voiceId
      ensures ("-m" in launched[..|launched| - 1]) <==> isSsml
      ensures run.RunFailed? ==>
                err == Some(SynthesisFailed(RunFailureMessage(run.cause, run.stderr)))
                && player.State() == old(player.State())
      ensures run.RunSucceeded? ==>
                var step := Audio.PlayStep(old(player.State()), true, run.audio, device.open, device.startOk);
                player.State() == step.next && err == PlaybackError(step.outcome)
    {
      launched := SynthesisArgs(base.config, base.audioConfig, text, isSsml);
      if run.RunFailed? {
        return Some(SynthesisFailed("espeak-ng failed: " + run.cause + ": " + run.stderr)), launched;
      }
      var outcome := player.PlayMp3Stream(true, run.audio, device.open, device.startOk);
      err := if outcome == Audio.Succeeded then None else Some(PlayerError(outcome));
    }

    /** Speak: synthesise the plain text and play it. */
    method Speak(text: string, run: Synthesis, device: DeviceAnswers)
      returns (err: Option<ESpeakError>, launched: seq<string>)
      requires player.Valid() && DecodableRun(run)
      modifies player
      ensures player.Valid()
      ensures |launched| == 6 && launched[5] == text && "-m" !in launched[..5]
      ensures run.RunFailed? ==>
                err == Some(SynthesisFailed(RunFailureMessage(run.cause, run.stderr)))
                && player.State() == old(player.State())
      ensures run.RunSucceeded? ==>
                var step := Audio.PlayStep(old(player.State()), true, run.audio, device.open, device.startOk);
                player.State() == step.next && err == PlaybackError(step.outcome)
    {
      err, launched := SynthesizeAndPlay(text, false, run, device);
    }

    /**
     * SpeakSSML: a document the validator rejects is answered with the
     * validator's error before espeak-ng is launched, and the player is
     * left alone; otherwise synthesise with "-m" and play. `validation` is
     * the error ValidateSSML returns, if any.
     */
    method SpeakSsml(ssml: string, validation: Option<string>, run: Synthesis, device: DeviceAnswers)
      returns (err: Option<ESpeakError>, launched: Option<seq<string>>)
      requires player.Valid() && DecodableRun(run)
      modifies player
      ensures player.Valid()
      ensures validation.Some? ==>
                err == Some(InvalidSsml(validation.value)) && launched == None
                && player.State() == old(player.State())
      ensures validation.None? ==>
                launched.Some? && |launched.value| == 7 && launched.value[5] == "-m" && launched.value[6] == ssml
      ensures validation.None? && run.RunFailed? ==>
                err == Some(SynthesisFailed(RunFailureMessage(run.cause, run.stderr)))
                && player.State() == old(player.State())
      ensures validation.None? && run.RunSucceeded? ==>
                var step := Audio.PlayStep(old(player.State()), true, run.audio, device.open, device.startOk);
                player.State() == step.next && err == PlaybackError(step.outcome)
    {
      if validation.Some? {
        return Some(InvalidSsml(validation.value)), None;
      }
      var args;
      err, args := SynthesizeAndPlay(ssml, true, run, device);
      launched := Some(args);
    }

    /** PauseAudio: the player's Pause. */
    method PauseAudio(stopOk: bool) returns (outcome: Audio.Outcome)
      requires player.Valid()
      modifies player
      ensures player.Valid()
      ensures player.State() == Audio.PauseStep(old(player.State()), stopOk).next
      ensures outcome == Audio.PauseStep(old(player.State()), stopOk).outcome
    {
      outcome := player.Pause(stopOk);
    }

    /** ResumeAudio: the player's Resume. */
    method ResumeAudio(startOk: bool) returns (outcome: Audio.Outcome)
      requires player.Valid()
      modifies player
      ensures player.Valid()
      ensures player.State() == Audio.ResumeStep(old(player.State()), startOk).next
      ensures outcome == Audio.ResumeStep(old(player.State()), startOk).outcome
    {
      outcome := player.Resume(startOk);
    }

    /** StopAudio: the player's Stop. */
    method StopAudio(stopOk: bool, closeOk: bool) returns (outcome: Audio.Outcome)
      requires player.Valid()
      modifies player
      ensures player.Valid()
      ensures player.State() == Audio.StopStep(old(player.State()), stopOk, closeOk).next
      ensures outcome == Audio.StopStep(old(player.State()), stopOk, closeOk).outcome
    {
      outcome := player.Stop(stopOk, closeOk);
    }
  }
}
