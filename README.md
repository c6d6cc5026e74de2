# Vox core in Dafny

Vox is a macOS menu-bar dictation tool. It records the microphone to a WAV file, decodes the file into float samples, runs a speech-recognition library on them, and puts the trimmed text on the clipboard, optionally pasting it. This project models the four sequential pieces of its core and proves properties about them:

- `WaveDecoder` (WaveDecoder.dfy) models `decodeWaveFile`. It checks the canonical 44-byte RIFF/WAVE header and reads the channel count, sample rate and bit depth as little-endian fields. It then turns the 16-bit payload into one float per frame, taken from the first channel. `Decode` is the specification. `DecodeWaveFile` is the source's function: it preallocates zeros and fills them in place with `FillFirstChannel`, and it is proved equal to `Decode`. `EncodeWave` is a reference encoder of canonical files, and `DecodeEncodedWave` proves that decoding one returns the first channel of every frame.
- `AudioRecorder` (AudioRecorder.dfy) is the recorder class. It has two optional fields, the device and the output URL, and the device's answers (creation throws, `record()` returns true or false) come in as a parameter. A ghost history of created devices lets `Valid()` state when the URL is nil, and a ghost log of stopped devices records each `stop()`.
- `WhisperContext` (WhisperContext.dfy) models the library wrapper: the thread-count clamp, the fixed decode parameters, the failure of context creation, and the in-order concatenation of segment texts. Library calls are function parameters, and the segments are an abstract `seq<string>`.
- `VoxEngine` (VoxEngine.dfy) is the coordinator class. Each step of the source is a method that updates the fields. Background work is a pending `Job` that a later completion method applies. File existence is a set of paths, and the clipboard and paste keystroke are entries of an effect log.
- `Text` (Text.dfy) models `trimmingCharacters(in: .whitespacesAndNewlines)`. `Optional` (Optional.dfy) holds `Option` and `Result`.

Choices the model makes:

- A header whose channel count is 0 (with 16 bits per sample) makes the integer division at Vox/Core/WaveDecoder.swift:23 trap. The model gives that case its own outcome, `DivideByZeroTrap`, distinct from the thrown errors. The engine's transcription completion requires that its job does not end there, because the process would crash.
- The engine's `Valid()` proves two branches of the source unreachable. First, `isRecording` always mirrors the recorder, and a recording recorder always has a URL. So `toggleRecording` never reaches the "No recording" branch. Second, a transcription is only started after some model context was stored, and a stored context is never cleared, since a failed reload keeps the old one. So the "No model loaded" branch of the transcription completion (Vox/Core/VoxEngine.swift:111-116) cannot be taken, and `CompleteTranscription` proves it.
- The engine does not ignore a toggle while a transcription runs: `startRecording` only checks `isModelLoaded` (Vox/Core/VoxEngine.swift:79-83). The only guard is the menu button's `.disabled`, which lies outside the engine. `RecordWhileTranscribing` shows an engine that ends up recording and transcribing at once.
- A recording with no PCM bytes does not end in "No recording": the file exists, `decodeWaveFile` throws `invalidFile`, and the status becomes "Transcription error" (`EmptyRecordingFails`).
- There is no resampling and no channel averaging: the decoder keeps the first channel (`FirstChannelNotAverage`) and ignores the sample rate (`SampleRateIgnored`). A non-zero `whisper_full` result is only printed, so `FullTranscribe` returns the call it made and no error.
- The decoder assumes the payload starts at byte 44. A file with extra chunks before `data` has those bytes decoded as samples, and the model does the same.

## Model

| member | source | states |
|---|---|---|
| `WaveDecoder.DecodeWaveFile` | Vox/Core/WaveDecoder.swift:4-39 | the decoder, which preallocates zeros and then fills them, returns exactly `Decode(data)`, including the thrown errors and the zero-channel trap |
| `WaveDecoder.FillFirstChannel` | Vox/Core/WaveDecoder.swift:28-36 | the closure's loop, filling each frame behind the bounds guard, leaves the output equal to the first channel of every whole frame |
| `WaveDecoder.Decode` | Vox/Core/WaveDecoder.swift:8-36 | the decoder's outcome in the source's check order: too short (44 bytes or fewer), then a bit depth other than 16, then the zero-channel division trap, then the first channel of every whole frame of the payload after byte 44 |
| `WaveDecoder.U16` | Vox/Core/WaveDecoder.swift:13 | an unsigned 16-bit little-endian field, below 65536 |
| `WaveDecoder.U32` | Vox/Core/WaveDecoder.swift:14 | an unsigned 32-bit little-endian field, below 2^32 |
| `WaveDecoder.ReadHeader` | Vox/Core/WaveDecoder.swift:13-15 | the channel count at bytes 22-23, the sample rate at 24-27 and the bit depth at 34-35 |
| `WaveDecoder.Decimal` | Vox/Core/WaveDecoder.swift:18 | the interpolation of an unsigned integer: a non-empty string of decimal digits with no leading zero (it starts with '0' only for 0); `DecimalRoundTrip` proves it parses back |
| `WaveDecoder.DecimalRoundTrip` | Vox/Core/WaveDecoder.swift:18 | the decimal rendering of every natural number parses back to that number |
| `WaveDecoder.UnsupportedMessage` | Vox/Core/WaveDecoder.swift:18 | the message "Expected 16-bit PCM, got <bits>-bit" |
| `WaveDecoder.FrameCount` | Vox/Core/WaveDecoder.swift:23 | `sampleCount`: the payload length divided by `channels * 2`, rounded down |
| `WaveDecoder.DecodeOutcomes` | Vox/Core/WaveDecoder.swift:8-23 | `invalidFile` exactly when the input has 44 bytes or fewer (a header with an empty payload included); `unsupportedFormat` exactly when it is longer and the bit depth is not 16; the trap exactly for 16 bits and 0 channels; samples otherwise |
| `WaveDecoder.UnsupportedFormatCarriesBitDepth` | Vox/Core/WaveDecoder.swift:17-19 | the `unsupportedFormat` message holds the actual bit depth, which can be read back from it exactly |
| `WaveDecoder.MessageNamesBitDepth` | Vox/Core/WaveDecoder.swift:18 | the decimal rendering of the bit depth in the message parses back to that bit depth |
| `WaveDecoder.CanonicalHeader` | Vox/Core/WaveDecoder.swift:13-15 | the header fields read back as written: channels at bytes 22-23, sample rate at 24-27, bit depth at 34-35, all little-endian unsigned |
| `WaveDecoder.I16` | Vox/Core/WaveDecoder.swift:29-33 | a payload sample is the two's-complement reading of its little-endian 16 bits, in [-32768, 32767] |
| `WaveDecoder.EncodeSample` | Vox/Core/WaveDecoder.swift:29-33 | every signed 16-bit value survives its little-endian encoding and the decoder's read |
| `WaveDecoder.FrameIndexInBounds` | Vox/Core/WaveDecoder.swift:26-34 | the guard `sampleIndex < int16Buffer.count` holds for every frame below `sampleCount`, so no output slot keeps its 0 placeholder |
| `WaveDecoder.FirstChannelAt` | Vox/Core/WaveDecoder.swift:31-33 | element i of the first channel is the signed 16-bit value at payload byte `2 * (i * channels)`, which lies inside the payload, divided by 32768 |
| `WaveDecoder.DecodedFrames` | Vox/Core/WaveDecoder.swift:22-35 | output length is `(len - 44) / (channels * 2)`, and `output[i]` is the signed 16-bit value at payload byte `2 * i * channels` divided by 32768 |
| `WaveDecoder.DecodedSample` | Vox/Core/WaveDecoder.swift:31-33 | one output value is the first-channel sample of its frame, read at its offset in the file |
| `WaveDecoder.SamplesInUnitRange` | Vox/Core/WaveDecoder.swift:33 | every output value lies in [-1, 1) |
| `WaveDecoder.MonoKeepsEverySample` | Vox/Core/WaveDecoder.swift:23 | for mono input the output length is `(len - 44) / 2`, and a 64000-byte payload gives 32000 samples |
| `WaveDecoder.SampleRateIgnored` | Vox/Core/WaveDecoder.swift:14 | two files that differ only in the sample-rate field decode identically: there is no resampling |
| `WaveDecoder.TrailingPartialFrameDropped` | Vox/Core/WaveDecoder.swift:23 | bytes after the last whole frame do not change the output |
| `WaveDecoder.FirstChannelOfExtended` | Vox/Core/WaveDecoder.swift:30-34 | bytes appended to a payload do not change the sample of any frame that was already whole |
| `WaveDecoder.FirstChannelNotAverage` | Vox/Core/WaveDecoder.swift:31-33 | a stereo frame (0, 16384) decodes to 0.0, the first channel, not the average 0.25 |
| `WaveDecoder.DecodeEncodedWave` | Vox/Core/WaveDecoder.swift:8-36 | decoding a canonical 16-bit file with at least one frame returns the first channel of each frame divided by 32768, whatever the sample rate and the other channels |
| `WaveDecoder.EmptyRecordingIsInvalid` | Vox/Core/WaveDecoder.swift:8-10 | a canonical file with no frames is rejected with `invalidFile` |
| `Text.IsWhitespace` | Vox/Core/VoxEngine.swift:123 | membership in `CharacterSet.whitespacesAndNewlines`: U+0009 to U+000D, U+0020, U+0085, U+00A0, U+1680, U+2000 to U+200A, U+2028, U+2029, U+202F, U+205F and U+3000 |
| `Text.Trim` | Vox/Core/VoxEngine.swift:123 | `trimmingCharacters(in: .whitespacesAndNewlines)`: leading whitespace dropped, then trailing whitespace dropped |
| `Text.TrimStartIsSuffix` | Vox/Core/VoxEngine.swift:123 | dropping leading whitespace leaves a suffix whose dropped head is all whitespace and which is empty or starts with non-whitespace |
| `Text.TrimEndIsPrefix` | Vox/Core/VoxEngine.swift:123 | dropping trailing whitespace leaves a prefix whose dropped tail is all whitespace and which is empty or ends with non-whitespace |
| `Text.TrimSlice` | Vox/Core/VoxEngine.swift:123 | the trimmed text is the slice of the input that starts where the leading whitespace ends |
| `Text.TrimTailBlank` | Vox/Core/VoxEngine.swift:123 | everything after the trimmed text is whitespace |
| `Text.TrimIsInnerSlice` | Vox/Core/VoxEngine.swift:123 | the trimmed text is the slice of the input between an all-whitespace head and tail, and it neither starts nor ends with whitespace |
| `Text.TrimEmptyIffBlank` | Vox/Core/VoxEngine.swift:123 | the trimmed text is empty exactly when the input is all whitespace |
| `Text.TrimKeepsTrimmedText` | Vox/Core/VoxEngine.swift:123 | text without whitespace at either end is unchanged |
| `Text.TrimIdempotent` | Vox/Core/VoxEngine.swift:123 | trimming twice equals trimming once |
| `WhisperContext.MaxThreads` | Vox/Core/WhisperContext.swift:23 | the thread count lies in [1, 8]; it is `cpu - 2` for 3 <= cpu <= 10, 1 for cpu <= 3 and 8 for cpu >= 10 |
| `WhisperContext.MaxThreadsIsNearestInRange` | Vox/Core/WhisperContext.swift:23 | the thread count is the value of [1, 8] nearest to `cpu - 2` |
| `WhisperContext.FullTranscribe` | Vox/Core/WhisperContext.swift:22-46 | the call uses greedy defaults with printing off, language "en", translate off, the clamped thread count, offset 0, `no_context` on and `single_segment` off; a non-zero return changes nothing the caller sees |
| `WhisperContext.Concat` | Vox/Core/WhisperContext.swift:49-55 | the segment texts joined in index order with nothing in between |
| `WhisperContext.GetTranscription` | Vox/Core/WhisperContext.swift:49-55 | the loop returns the concatenation of the segment texts of indices 0 to n-1 |
| `WhisperContext.ConcatAppend` | Vox/Core/WhisperContext.swift:49-55 | concatenating two runs of segments concatenates their texts |
| `WhisperContext.ConcatLength` | Vox/Core/WhisperContext.swift:52 | no separator is inserted: the length is the sum of the segment lengths |
| `WhisperContext.SegmentInPlace` | Vox/Core/WhisperContext.swift:51-53 | segment i appears unchanged right after the text of segments 0 to i-1 |
| `WhisperContext.TwoSegments` | Vox/Core/WhisperContext.swift:50-54 | segments "hello " and "world" give "hello world"; zero segments give "" |
| `WhisperContext.CreateContext` | Vox/Core/WhisperContext.swift:58-68 | initialisation asks for the model path with flash attention on; it throws `couldNotInitializeContext` exactly when the library returns null, and otherwise wraps the handle |
| `AudioRecorder.AudioRecorder.constructor` | Vox/Core/AudioRecorder.swift:6-8 | a new recorder has no device and no output URL |
| `AudioRecorder.Stopping` | Vox/Core/AudioRecorder.swift:17 | the devices `recorder?.stop()` stops: the stored one if there is one, else none |
| `AudioRecorder.AudioRecorder.Valid` | Vox/Core/AudioRecorder.swift:30-31 | the recorder's invariant: the URL is nil exactly when no device was ever created, it is otherwise the URL of the last device created (line 31 sets it right after creation, and lines 39-43 never clear it), and a stored device writes to that URL with the fixed capture settings |
| `AudioRecorder.AudioRecorder.IsRecording` | Vox/Core/AudioRecorder.swift:45-47 | `isRecording` is false whenever no device is stored |
| `AudioRecorder.AudioRecorder.StartRecording` | Vox/Core/AudioRecorder.swift:15-36 | any previous device is sent `stop()` (logged in `stopped`) and dropped, before creation is attempted; if creation throws, no device is stored and the URL keeps its old value; otherwise the URL is set before `record()`, the new device has the fixed 16 kHz mono 16-bit little-endian PCM settings, and `record()` returning false throws `couldNotStartRecording` with that device left in place |
| `AudioRecorder.AudioRecorder.StopRecording` | Vox/Core/AudioRecorder.swift:39-43 | the stored device, if any, is sent `stop()` (logged in `stopped`) and cleared, the URL is returned and kept, and it is nil exactly when no device was ever created |
| `AudioRecorder.StopTwice` | Vox/Core/AudioRecorder.swift:39-47 | stopping twice returns the same URL both times, sends `stop()` to the device once (the second call finds none) and leaves nothing recording |
| `VoxEngine.PrimaryModelPath` | Vox/Core/VoxEngine.swift:22-28 | `<application support>/Vox/Models/<model>` |
| `VoxEngine.FallbackModelPath` | Vox/Core/VoxEngine.swift:39-42 | `<home>/Development/whisper.cpp/models/<model>` |
| `VoxEngine.ModelPathToUse` | Vox/Core/VoxEngine.swift:37-52 | the primary path when the file exists there, otherwise the fallback when it exists there, and nothing when neither exists |
| `VoxEngine.StoredOr` | Vox/Core/VoxEngine.swift:18-19 | an `@AppStorage` read: the stored value, or the declared default (`ggml-large-v3-turbo.bin`, auto-paste on) when nothing is stored |
| `VoxEngine.VoxEngine.Valid` | Vox/Core/VoxEngine.swift:71-117 | the engine's invariant: `isRecording` mirrors the recorder, a loaded model has a context, and before any context exists no recording file and no transcription job exist; it makes the "No recording" branch (lines 97-101) and the "No model loaded" branch (lines 111-116) unreachable |
| `VoxEngine.VoxEngine.constructor` | Vox/Core/VoxEngine.swift:8-32 | the initial field values, the preferences from their stored values or defaults, then both outcomes of `loadModel()` |
| `VoxEngine.VoxEngine.LoadModel` | Vox/Core/VoxEngine.swift:34-53 | the status becomes "Loading model..." and a load job starts for the chosen path; if neither path exists, the status becomes "Model not found: <name>", no model is loaded and no job starts |
| `VoxEngine.VoxEngine.CompleteLoad` | Vox/Core/VoxEngine.swift:54-67 | on success the context is stored, the model is loaded and the status becomes "Ready"; on failure no model is loaded, the status becomes "Failed to load model" and the old context stays |
| `VoxEngine.VoxEngine.StartRecording` | Vox/Core/VoxEngine.swift:79-94 | with no model, only the status changes ("No model loaded") and the recorder is untouched; otherwise any previous device is stopped, and when the recorder starts, the engine records and the status becomes "Listening..."; when the recorder throws, the status becomes "Mic error: <description>" and `isRecording` is unchanged |
| `VoxEngine.VoxEngine.StopAndTranscribe` | Vox/Core/VoxEngine.swift:96-105 | the recorder's device, if any, is stopped; with no URL, recording stops and the status becomes "No recording"; with a URL, recording stops, transcribing starts, the status becomes "Transcribing..." and a job is started for that URL |
| `VoxEngine.VoxEngine.ToggleRecording` | Vox/Core/VoxEngine.swift:71-77 | stops and transcribes while recording, starts otherwise; the stop branch always finds a URL |
| `VoxEngine.VoxEngine.CompleteTranscription` | Vox/Core/VoxEngine.swift:107-143 | the missing-context branch is never taken; on a read or decode error, transcribing ends with "Transcription error" and `lastTranscription` is unchanged; on success `lastTranscription` becomes the trimmed text, transcribing ends with "Done", and the delivery effects are logged |
| `VoxEngine.TranscriptionJob` | Vox/Core/VoxEngine.swift:107-124 | the detached task's branches in order: no context, then an unreadable file, then a decoder error or trap, then the joined segment text, trimmed |
| `VoxEngine.Delivery` | Vox/Core/VoxEngine.swift:130-135 | no effect for empty text; otherwise a clipboard write of the text, followed by a paste only with auto-paste on |
| `VoxEngine.VoxEngine.Deliver` | Vox/Core/VoxEngine.swift:125-135 | stores the trimmed text, ends transcribing with "Done", writes the clipboard only for non-empty text and pastes only then and with auto-paste on |
| `VoxEngine.VoxEngine.CopyToClipboard` | Vox/Core/VoxEngine.swift:146-150 | one clipboard write of the text is logged, nothing else changes |
| `VoxEngine.VoxEngine.PasteFromClipboard` | Vox/Core/VoxEngine.swift:152-164 | one paste keystroke is logged, nothing else changes |
| `VoxEngine.DeliveryIffVisibleText` | Vox/Core/VoxEngine.swift:123-135 | text is delivered exactly when the transcription holds a non-whitespace character; the clipboard receives the trimmed text, and a paste follows exactly when auto-paste is on |
| `VoxEngine.TwoSecondRecordingDeliversSegments` | Vox/Core/VoxEngine.swift:119-128 | a two-second recording in the capture format decodes to 32000 samples, and segments "hello " and "world" deliver "hello world" |
| `VoxEngine.EmptyRecordingFails` | Vox/Core/VoxEngine.swift:119-141 | a recording file with no frames makes the transcription job fail ("Transcription error"), not report that nothing was recorded |
| `VoxEngine.RecordWhileTranscribing` | Vox/Core/VoxEngine.swift:71-105 | the engine does not refuse a recording while a transcription is in flight: three toggles from a ready, idle engine end with both flags set |

## Left out

- SwiftUI presentation (menu, settings window, app entry) is not modelled. This includes the button's `.disabled` guard, which is the only thing that keeps a recording from starting during a transcription.
- Concurrency is not modelled: actor isolation, `Task.detached`, `MainActor.run` and `[weak self]`. Background work is a pending job applied by a later completion call, whole and in any order.
- The library's inference, segment accessors and `whisper_free` are not modelled. A replaced context is not shown as released, and `whisper_reset_timings` is not modelled.
- AVAudioRecorder is not modelled beyond creation, `record()`, `stop()` and `isRecording`. `stop()` appears only as an entry of the recorder's ghost `stopped` log, since a stopped device is dropped at once. A device that stops on its own (an interruption, for instance) is not modelled.
- File I/O is not modelled. `Data(contentsOf:)` becomes an optional byte sequence, `FileManager.fileExists` becomes a set of paths, and directory creation in `modelsDirectory` is left out. The home, application-support and temporary directories are parameters.
- Clipboard and keystroke posting are not modelled: they appear only as effect-log entries, without the key codes and modifier flags.
- `silenceThreshold` is not modelled: it is a stored preference that nothing reads.
- Float32 rounding is not modelled. Samples are reals, and a 16-bit value divided by 32768 is exact in float32.
- Host byte order is not modelled: `load(as:)` is read as little-endian, as on macOS targets. Memory alignment of the payload is not modelled.
- The decoding of C strings into segment text is not modelled: segments are given as strings.
- `CompleteTranscription`: does not call `FullTranscribe`, because the library state it changes is represented only by the `segments` parameter.
- `CompleteTranscription`: requires that the job does not end in the zero-channel trap, because the process would crash there.
- `VoxEngine.VoxEngine.StartRecording`: requires that the engine is not recording, which its only caller `toggleRecording` guarantees.
- `FullTranscribe`: requires fewer than 2^31 samples, because `Int32(samples.count)` traps beyond that.
