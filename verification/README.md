# go-tts-wrapper core in Dafny

This project models the core of go-tts-wrapper, a Go library that puts one
interface in front of several text-to-speech engines and plays their audio
through PortAudio. The model covers these parts:

- **Audio player** (`audio.dfy`, module `Audio`): the `AudioPlayer` object
  of `internal/audio/audio.go`. It keeps a stream, a sample buffer, the
  `playing` and `paused` flags, a `done` completion channel and a sample
  rate. `NewAudioPlayer`, `PlayMP3Stream`, `IsPlaying`, `Pause`, `Resume`,
  `Stop`, `Close` and `WaitForCompletion` are modelled.
  - Each operation is a pure step function on a `PlayerState` value.
  - The `AudioPlayer` class holds the same fields and updates them in
    place. Each of its methods is proved to follow its step function and
    to keep the invariant `Consistent`.
  - PortAudio's calls are foreign, so each call's success or failure is an
    input to the operation.
- **MP3 to PCM conversion** (`pcm.dfy`, module `Mp3Pcm`): the loop of
  `mp3ToPCM`.
  - The decoder is given as the sequence of answers its `Read` calls return.
  - Each chunk is read into a reused 4096-byte array. Each pair of bytes
    becomes a signed little-endian 16-bit sample divided by 32768.
  - The method is proved equal to a recursive specification. Lemmas give
    the range of the samples, the pair layout and the error paths.
- **Base provider** (`tts.dfy`, module `Tts`): the configuration records,
  `NewBaseProvider`, and `SetProperty`, which mutates the rate, pitch or
  volume in place.
- **Provider registry** (`registry.dfy`, module `Registry`): the map from
  provider type to constructor, with `RegisterProvider` and `NewTTSProvider`.
  - The repository defines it twice with identical behaviour:
    `pkg/tts/provider.go`, and `pkg/tts/registry.go` together with
    `pkg/tts/factory.go`. One class models both copies.
- **eSpeak-NG adapter** (`espeak.dfy`, module `ESpeak`):
  - the parsing of the `espeak-ng --voices` listing in `GetVoices`;
  - the argument list built by `synthesize`;
  - `Speak` and `SpeakSSML`, where SSML is validated before anything runs;
  - the constructor and the three playback delegations.
  - The Go string functions the adapter relies on (`strings.Split`,
    `strings.Fields`, `strings.Join`, `strconv.Itoa`) are in `gostrings.dfy`
    (module `GoStrings`), together with their round-trip lemmas.
- **Output devices** (`devices.dfy`, module `Devices`): the filter loop of
  `ListAudioDevices` and the search loop of `SetDefaultDevice`. PortAudio's
  device list is given as an input.
- **Error text** (`errors.dfy`, module `Errors`): `TTSError.Error`.

`wrappers.dfy` holds the `Option` and `Result` types.

Some of the code's behaviour differs from what a caller might expect. The
model follows the code:

- **PlayMP3Stream open failure.** `PlayMP3Stream` sets `playing` before it
  opens the stream. So when opening fails, the player still reports
  `IsPlaying`, and the previous stream, if any, is kept
  (`OpenFailureLeavesPlaying`). A caller might expect a failed call to
  leave the player as it was; the code does not.
- **Pause.** `Pause` does not look at `paused`. Pausing a paused player
  stops the device again and succeeds (`PauseTwiceSucceeds`).
- **WaitForCompletion.** The constructor already creates the `done`
  channel, so `WaitForCompletion`'s nil check can never fire
  (`WaitNeverReportsNoPlayback`). The test at
  `internal/audio/audio_test.go:71-75` expects that error from a fresh
  player. The model says it is never returned.
- **Stop on an idle player.** The "Stop during wait" test
  (`internal/audio/audio_test.go:77-95`) expects `Stop` on a fresh player
  to release a caller waiting in `WaitForCompletion`. `Stop` returns early
  when there is no stream (`internal/audio/audio.go:143-145`) and never
  closes `done`, so the waiter stays blocked (`StopOnIdlePlayerKeepsWaiting`).
- **eSpeak voice columns.** `GetVoices` takes fields 1, 2 and 3 of each
  listing line as ID, Language and Gender. espeak-ng's own listing has the
  columns Pty, Language, Age/Gender, VoiceName, File. The model keeps the
  code's mapping; it does not encode espeak-ng's output format.

## Model

| member | source | states |
|---|---|---|
| Mp3Pcm.Int16 | internal/audio/audio.go:196 | the int16 conversion gives a value in [-32768, 32767] congruent to its argument modulo 2^16 |
| Mp3Pcm.SampleValue | internal/audio/audio.go:196 | a byte pair gives a signed 16-bit value |
| Mp3Pcm.SampleOf | internal/audio/audio.go:196 | every sample lies in [-1.0, 1.0) |
| Mp3Pcm.SampleValueLittleEndian | internal/audio/audio.go:196 | the first byte is the low byte and the second the high byte, in two's complement |
| Mp3Pcm.DecodeEncode | internal/audio/audio.go:196 | every 16-bit value is the sample of exactly one byte pair (encoding, then decoding, gives it back) |
| Mp3Pcm.EncodeDecode | internal/audio/audio.go:196 | decoding a byte pair, then encoding it, gives the pair back, so distinct pairs give distinct samples |
| Mp3Pcm.ChunkSamples | internal/audio/audio.go:191-198 | the inner loop as a function: the samples of one read, pair by pair |
| Mp3Pcm.ChunkSamplesAt | internal/audio/audio.go:191-198 | a chunk of n bytes gives n/2 samples, sample k built from bytes 2k and 2k+1 |
| Mp3Pcm.ChunkSamplesByPairs | internal/audio/audio.go:191-198 | a chunk's samples depend only on its complete byte pairs |
| Mp3Pcm.OddTrailingByteDropped | internal/audio/audio.go:192-194 | an odd trailing byte of a chunk is dropped |
| Mp3Pcm.ChunkSamplesExtend | internal/audio/audio.go:191-198 | one more pair appends exactly its sample (the step of the inner loop) |
| Mp3Pcm.PrependNothing | internal/audio/audio.go:178 | proof step for the read loop's invariant, not a behaviour of the code: prepending no samples leaves a read result unchanged |
| Mp3Pcm.PrependTwice | internal/audio/audio.go:197 | proof step for the read loop's invariant, not a behaviour of the code: two prepends are one prepend of the concatenation |
| Mp3Pcm.Gather | internal/audio/audio.go:181-199 | the outer loop as a function: the samples of every read before the first EOF, or the first read error |
| Mp3Pcm.Mp3ToPcm | internal/audio/audio.go:171-206 | a decoder that cannot be created gives its error; a success holds at least one sample, every sample in [-1.0, 1.0), at the decoder's sample rate |
| Mp3Pcm.GatherInRange | internal/audio/audio.go:181-203 | every gathered sample lies in [-1.0, 1.0) |
| Mp3Pcm.ReadErrorAborts | internal/audio/audio.go:186-188 | a failing read discards everything gathered before it and gives the read error |
| Mp3Pcm.EofEndsStream | internal/audio/audio.go:183-185 | nothing after the end of the stream is read |
| Mp3Pcm.OddByteNotCarried | internal/audio/audio.go:182-198 | for any odd-length read followed by any read, the samples are the first read's complete pairs then the second read's; the odd byte is not paired with the next read's first byte, so two odd reads give one sample fewer than their bytes as one chunk |
| Mp3Pcm.DecodeToPcm | internal/audio/audio.go:171-206 | the loop over a reused 4096-byte buffer computes exactly the specification `Mp3ToPcm` |
| Audio.NewPlayerState | internal/audio/audio.go:31-34 | the fields NewAudioPlayer builds |
| Audio.PlayStep | internal/audio/audio.go:38-88 | PlayMP3Stream's new state and result: read and decode first, then the fields, then the device |
| Audio.PauseStep | internal/audio/audio.go:107-120 | Pause's new state and result |
| Audio.ResumeStep | internal/audio/audio.go:123-136 | Resume's new state and result |
| Audio.StopStep | internal/audio/audio.go:139-160 | Stop's new state and result, including the panic of closing a nil or closed `done` |
| Audio.CloseStep | internal/audio/audio.go:163-168 | Close's new state and result |
| Audio.WaitOutcome | internal/audio/audio.go:91-97 | WaitForCompletion's answer |
| Audio.NewPlayerIsIdle | internal/audio/audio.go:31-34 | a new player has no stream, is neither playing nor paused, reports not playing and runs at 44100 Hz |
| Audio.StepsKeepConsistency | internal/audio/audio.go:38-168 | every operation keeps the player consistent: `done` exists, a paused player is playing and has a stream, `done` is open while a stream is held |
| Audio.PausedIsNotPlaying | internal/audio/audio.go:100-104 | a paused player never reports playing |
| Audio.PauseContract | internal/audio/audio.go:107-120 | Pause succeeds exactly with a stream, `playing` and a working device stop; it then sets `paused` and nothing else, and otherwise changes nothing |
| Audio.PauseTwiceSucceeds | internal/audio/audio.go:111-119 | Pause on an already paused player succeeds again |
| Audio.ResumeContract | internal/audio/audio.go:123-136 | Resume succeeds exactly with a stream, `playing`, `paused` and a working device start; it then clears `paused` only, and otherwise changes nothing |
| Audio.ResumeUndoesPause | internal/audio/audio.go:107-136 | a successful Pause followed by Resume restores the state exactly |
| Audio.PauseUndoesResume | internal/audio/audio.go:107-136 | a successful Resume followed by Pause restores the state exactly |
| Audio.StopWithoutStream | internal/audio/audio.go:143-145 | Stop with no stream succeeds and changes nothing |
| Audio.StopSignalsCompletion | internal/audio/audio.go:147-159 | a successful Stop clears the stream, `playing` and `paused` and closes `done` |
| Audio.StopOnIdlePlayerKeepsWaiting | internal/audio/audio.go:143-145 | Stop on a new player succeeds, changes nothing and leaves `done` open, so a waiter is not released |
| Audio.StopDeviceFailure | internal/audio/audio.go:147-153 | a failing device stop or close returns an error and changes nothing |
| Audio.StopIdempotent | internal/audio/audio.go:139-160 | after a successful Stop, another Stop is a successful no-op |
| Audio.StopNeverPanics | internal/audio/audio.go:158 | on a consistent player Stop never closes a closed or nil `done` |
| Audio.CloseTwice | internal/audio/audio.go:163-168 | after a successful Close, a second Close only repeats the PortAudio release |
| Audio.PlayDecodeFailureChangesNothing | internal/audio/audio.go:40-49 | a read or decode failure returns an error before any field changes |
| Audio.PlayInstallsSession | internal/audio/audio.go:51-63 | after a successful decode the buffer and sample rate are the decoded ones, `playing` is set, `paused` cleared and `done` re-armed |
| Audio.PlaySucceedsIff | internal/audio/audio.go:38-88 | play succeeds exactly when reading, decoding, opening and starting all succeed, and the new stream is then held and playing |
| Audio.OpenFailureLeavesPlaying | internal/audio/audio.go:51-70 | when opening the stream fails, the error is returned but the player reports playing and keeps its old stream |
| Audio.WaitNeverReportsNoPlayback | internal/audio/audio.go:91-97 | the "no active playback" error is unreachable once the player is built |
| Audio.WaitReturnsAfterStop | internal/audio/audio.go:155-158 | after a successful Stop with a stream, `done` is closed and waiting succeeds |
| Audio.AudioPlayer.constructor | internal/audio/audio.go:31-34 | the fields of a new player |
| Audio.AudioPlayer.NewAudioPlayer | internal/audio/audio.go:26-35 | a player exactly when PortAudio initialises, otherwise the initialisation error |
| Audio.AudioPlayer.IsPlaying | internal/audio/audio.go:100-104 | true exactly when playing and not paused |
| Audio.AudioPlayer.WaitForCompletion | internal/audio/audio.go:91-97 | an error only when `done` is nil, so on every valid player it succeeds |
| Audio.AudioPlayer.PlayMp3Stream | internal/audio/audio.go:38-88 | updates the fields in place as `PlayStep` says and keeps the player consistent |
| Audio.AudioPlayer.Pause | internal/audio/audio.go:107-120 | updates the fields in place as `PauseStep` says and keeps the player consistent |
| Audio.AudioPlayer.Resume | internal/audio/audio.go:123-136 | updates the fields in place as `ResumeStep` says and keeps the player consistent |
| Audio.AudioPlayer.Stop | internal/audio/audio.go:139-160 | updates the fields in place as `StopStep` says and keeps the player consistent |
| Audio.AudioPlayer.Close | internal/audio/audio.go:163-168 | Stop, then the PortAudio release unless Stop failed, as `CloseStep` says |
| Tts.ParseProperty | pkg/tts/tts.go:85-101 | a recognised name selects the property of that name; an unrecognised one matches no property |
| Tts.ParsePropertyName | pkg/tts/tts.go:85-101 | each of rate, pitch and volume is recognised |
| Tts.SetPropertyResult | pkg/tts/tts.go:84-103 | the audio configuration after SetProperty, or its error |
| Tts.SetPropertyAccepts | pkg/tts/tts.go:84-103 | SetProperty succeeds exactly for rate, pitch or volume with a float64 value; otherwise the error is "invalid property or value type: " and the name |
| Tts.SetThenGet | pkg/tts/tts.go:86-100 | after setting a property it reads back the value set, and the other two and the device id are unchanged |
| Tts.NonFloat64Rejected | pkg/tts/tts.go:86-102 | int, float32, string, bool and nil values are rejected for every name |
| Tts.SetPropertyIdempotent | pkg/tts/tts.go:84-103 | setting the same property to the same value twice equals setting it once |
| Tts.SetPropertiesCommute | pkg/tts/tts.go:84-103 | setting two different properties gives the same configuration in either order |
| Tts.BaseProvider.constructor | pkg/tts/tts.go:72-81 | the config is stored; rate, pitch and volume are 1.0 and there is no device id |
| Tts.BaseProvider.SetProperty | pkg/tts/tts.go:84-103 | on success the audio configuration becomes the `SetPropertyResult`; on error it and the config are unchanged and the error text is returned |
| Registry.KnownProviderTypes | pkg/tts/provider.go:8-17 | eight distinct provider tags |
| Registry.Lookup | pkg/tts/provider.go:31-37 | NewTTSProvider over a given table |
| Registry.CreateAfterRegister | pkg/tts/provider.go:26-37 | after registering a constructor, creating that type returns its result, provider or error alike |
| Registry.RegisterLeavesOthers | pkg/tts/registry.go:13-17 | registering one type leaves the creation of every other type unchanged |
| Registry.CreateUnregistered | pkg/tts/provider.go:32-35 | an unregistered type gives "unsupported provider type: " and the type, with no provider |
| Registry.LookupIsLocal | pkg/tts/factory.go:6-13 | creation depends only on the entry for the requested type |
| Registry.RegisterIdempotent | pkg/tts/provider.go:26-28 | registering the same pair twice equals registering it once |
| Registry.RegisterGrowsByAtMostOne | pkg/tts/registry.go:13-17 | a registration adds at most the one type and removes none |
| Registry.ProviderRegistry.constructor | pkg/tts/provider.go:23 | the registry starts empty |
| Registry.ProviderRegistry.RegisterProvider | pkg/tts/provider.go:26-28 | inserts or overwrites the entry for the type and touches no other |
| Registry.ProviderRegistry.NewTtsProvider | pkg/tts/factory.go:6-13 | the unsupported-type error when no constructor is registered, otherwise the constructor's own result for the config |
| Errors.ErrorText | pkg/tts/errors.go:12-17 | the text starts with "[provider] " and is at least as long as the tag and the message |
| Errors.ErrorTextWithoutCause | pkg/tts/errors.go:16 | without a wrapped error: "[provider] message" |
| Errors.ErrorTextWithCause | pkg/tts/errors.go:13-15 | with a wrapped error: "[provider] message: cause" |
| Errors.CauseExtendsText | pkg/tts/errors.go:12-17 | the text without a cause is a strict prefix of the text with one |
| Errors.CodeNotShown | pkg/tts/errors.go:12-17 | the code never shows in the text |
| Devices.OutputDevices | pkg/tts/devices.go:29-39 | no more devices are listed than given |
| Devices.OutputDevicesAppend | pkg/tts/devices.go:30-39 | each device is judged alone and the order is kept |
| Devices.ListedAreDescribedOutputs | pkg/tts/devices.go:31-37 | every listed device has ID = Name = the name of a device with an output channel, IsDefault exactly when it is the default output's name, and sample rates 44100 and 48000 |
| Devices.OutputIsListed | pkg/tts/devices.go:30-38 | every device with an output channel appears in the listing under its name |
| Devices.ListedIffOutput | pkg/tts/devices.go:30-39 | a name is listed exactly when some device of that name has an output channel |
| Devices.Listing | pkg/tts/devices.go:17-41 | ListAudioDevices as a value: the two error texts or the listing |
| Devices.ListAudioDevices | pkg/tts/devices.go:17-41 | the initialisation or device-list error with its prefix, or the listing of the output devices in order |
| Devices.SetDefaultDevice | pkg/tts/devices.go:43-55 | a listing error is passed on unchanged; otherwise success exactly when a listed device has the id, and "device not found: " with the id when none has |
| Devices.SetDefaultDeviceFindsOutputs | pkg/tts/devices.go:43-55 | an id is found exactly when some device of that name has an output channel |
| GoStrings.IsSpace | pkg/tts/providers/local/espeak.go:92 | the white space of unicode.IsSpace, on which strings.Fields splits |
| GoStrings.Join | pkg/tts/providers/local/espeak.go:101 | strings.Join: the parts with the separator between each two |
| GoStrings.SplitLines | pkg/tts/providers/local/espeak.go:87 | at least one line, none containing a newline |
| GoStrings.JoinSplitLines | pkg/tts/providers/local/espeak.go:87 | joining the lines with newlines gives the text back |
| GoStrings.SplitLinesAfterHeader | pkg/tts/providers/local/espeak.go:87-91 | a header line, a newline and a body split into the header followed by the body's lines |
| GoStrings.WordLength | pkg/tts/providers/local/espeak.go:92 | the length of the leading run of non-space characters |
| GoStrings.Fields | pkg/tts/providers/local/espeak.go:92 | every field is non-empty and contains no white space |
| GoStrings.WordLengthOfWord | pkg/tts/providers/local/espeak.go:92 | a word followed by nothing or by white space is read as one run |
| GoStrings.FieldsAfterSpaces | pkg/tts/providers/local/espeak.go:92 | leading white space of any length is skipped |
| GoStrings.FieldsOfWordThenSpaces | pkg/tts/providers/local/espeak.go:92 | a word, a run of white space of any length and more text split into the word followed by the text's fields |
| GoStrings.FieldsOfPadded | pkg/tts/providers/local/espeak.go:92 | a column-padded line (leading blanks, words separated by blank runs of any length, trailing blanks) splits into exactly its words |
| GoStrings.FieldsOfJoin | pkg/tts/providers/local/espeak.go:92-101 | splitting space-joined words into fields gives the words back |
| GoStrings.JoinWordsEmpty | pkg/tts/providers/local/espeak.go:101 | space-joined words are empty exactly when there are none |
| GoStrings.Digits | pkg/tts/providers/local/espeak.go:40-42 | at least one character, all decimal digits |
| GoStrings.Itoa | pkg/tts/providers/local/espeak.go:40-42 | non-empty, with a leading minus sign exactly for negative numbers |
| GoStrings.DigitsRoundTrip | pkg/tts/providers/local/espeak.go:40-42 | the digits written read back as the number |
| ESpeak.VoiceOf | pkg/tts/providers/local/espeak.go:97-103 | the Voice literal built from a line's fields |
| ESpeak.LineVoices | pkg/tts/providers/local/espeak.go:92-103 | one line's voices: none below four fields, otherwise the voice of its fields |
| ESpeak.VoicesOfLines | pkg/tts/providers/local/espeak.go:91-104 | at most one voice per line; every voice has a non-empty ID, Language and Gender without white space and provider "eSpeak-NG" |
| ESpeak.VoiceListing | pkg/tts/providers/local/espeak.go:87-106 | at most one voice per line after the header |
| ESpeak.VoicesOfLinesAppend | pkg/tts/providers/local/espeak.go:91-104 | the voices follow the order of the lines |
| ESpeak.HeaderSkipped | pkg/tts/providers/local/espeak.go:87-91 | the first line is skipped whatever it holds |
| ESpeak.VoiceOfLine | pkg/tts/providers/local/espeak.go:92-103 | any line of at least four fields gives one voice: ID, Language and Gender are fields 1, 2 and 3, Name is the rest joined by single spaces and is empty exactly for four fields |
| ESpeak.VoiceOfPaddedLine | pkg/tts/providers/local/espeak.go:92-103 | a column-padded listing line of at least four columns gives the voice whose ID, Language and Gender are columns 1, 2 and 3 |
| ESpeak.VoiceOfJoinedLine | pkg/tts/providers/local/espeak.go:92-103 | a line of single-space-separated words gives the voice of those words |
| ESpeak.ShortLineSkipped | pkg/tts/providers/local/espeak.go:92-95 | a line with fewer than four fields gives no voice |
| ESpeak.GetVoices | pkg/tts/providers/local/espeak.go:80-107 | the command's error with "failed to get voices: ", or the voices of the listing's lines after the header, in order |
| ESpeak.Truncate | pkg/tts/providers/local/espeak.go:40-42 | Go's float-to-int conversion rounds toward zero |
| ESpeak.DefaultSettings | pkg/tts/providers/local/espeak.go:40-42 | with the default configuration the rate, pitch and volume arguments are 175, 50 and 100 |
| ESpeak.SynthesisArgs | pkg/tts/providers/local/espeak.go:37-49 | "--stdout", then the voice, rate, pitch and volume arguments, "-m" exactly for markup, and the text last |
| ESpeak.ESpeakProvider.constructor | pkg/tts/providers/local/espeak.go:30-33 | the provider holds the given base provider and player |
| ESpeak.ESpeakProvider.NewESpeakProvider | pkg/tts/providers/local/espeak.go:19-34 | the not-found error when espeak-ng is missing, the player's error when audio cannot start, otherwise a provider with default settings and an idle player |
| ESpeak.ESpeakProvider.SynthesizeAndPlay | pkg/tts/providers/local/espeak.go:36-66 | a failed run returns "espeak-ng failed: " with its cause and standard error and leaves the player alone; otherwise the player plays the output |
| ESpeak.ESpeakProvider.Speak | pkg/tts/providers/local/espeak.go:61-67 | runs espeak-ng without "-m" on the text and plays the output |
| ESpeak.ESpeakProvider.SpeakSsml | pkg/tts/providers/local/espeak.go:69-78 | a rejected document returns the validator's error without launching espeak-ng or touching the player; otherwise runs with "-m" and plays |
| ESpeak.ESpeakProvider.PauseAudio | pkg/tts/providers/local/espeak.go:110-112 | the player's Pause |
| ESpeak.ESpeakProvider.ResumeAudio | pkg/tts/providers/local/espeak.go:114-116 | the player's Resume |
| ESpeak.ESpeakProvider.StopAudio | pkg/tts/providers/local/espeak.go:118-120 | the player's Stop |

## Left out

- Audio.StopNeverPanics, Audio.StepsKeepConsistency: these hold because the writer goroutine of `PlayMP3Stream` (`internal/audio/audio.go:79-85`) is not modelled. It writes the buffer to the device, clears `playing` and closes `done` when playback ends. In the model only Stop clears `playing` and closes `done`. So the model does not show the panic of a Stop that follows a natural end of playback, which closes `done` a second time.
- Audio.AudioPlayer.WaitForCompletion: the blocking receive on `done` is not modelled; the function gives the answer after the wait.
- The lock (`pauseLock`) and every race between the goroutine and the other methods are left out. The model is sequential.
- PortAudio (`Initialize`, `OpenDefaultStream`, `Start`, `Stop`, `Close`, `Write`, `Terminate`, `Devices`, the default output device) is foreign. Each call's outcome is an input, and a device list is a sequence value.
- The go-mp3 decoder is foreign. A decoder is the sequence of answers of its `Read` calls plus its sample rate. MP3 decoding itself is not part of this model.
- Device errors are reduced to success or failure: the error that `%w` wraps in `internal/audio/audio.go` lines 28, 42, 75, 116, 132, 148 and 152 is dropped, and only the open-stream failure keeps its text.
- Samples are real numbers v/32768. These are exact in float32, because every 16-bit value divided by 2^15 is representable.
- ESpeak.SynthesisArgs: the float64 rounding of `Rate*175`, `Pitch*50` and `Volume*100` is not modelled; the products are exact reals, and only the truncation toward zero is modelled.
- Running the espeak-ng subprocess (`exec.LookPath`, `exec.CommandContext`, `cmd.Run`, `cmd.Output`) is I/O. Its outcome is an input: the lookup's error, the run's error and standard error, or its output as the decoder reads it.
- `ValidateSSML` is not part of this model; its answer is an input of SpeakSsml.
- `CheckCredentials` (a path lookup) and `SetOutputDevice` (always `ErrNotImplemented`) of the eSpeak adapter are left out: neither has logic beyond one foreign call or one constant.
- The `context.Context` arguments are left out; cancellation only reaches the subprocess.
- Registry: the process-wide map becomes a field of one registry object, and `providersMu` is left out. Constructors are pure functions of the configuration, so the model does not count how often a constructor is called.
- Devices.ListAudioDevices: the deferred `portaudio.Terminate` and its error, which the code ignores, are left out.
- The cloud and engine adapters (AWS Polly, Google, Microsoft, IBM, ElevenLabs, Sherpa-ONNX, the Wit.ai file) are not part of this model. They wrap network services, SDKs or native code.
- Configuration loading (`pkg/tts/config/config.go`), the demo programs and the type-only files (`pkg/tts/types.go`, `pkg/tts/config.go`) are not part of this model.
