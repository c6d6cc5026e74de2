/**
 * The session coordinator (class `VoxEngine` in Vox/Core/VoxEngine.swift).
 *
 * The engine is a state machine over its published fields. Its background
 * work (`Task.detached` followed by `MainActor.run`) is modelled as a pending
 * job recorded when the work is started and a completion event that applies
 * the job's outcome later; jobs may complete in any order, and nothing
 * interleaves inside one. The file system is a set of existing paths, the
 * clipboard write and the paste keystroke are entries of an effect log, and
 * the library and the microphone answer through parameters.
 */
module VoxEngine {
  import opened Optional
  import opened Text
  import W = WaveDecoder
  import WC = WhisperContext
  import AR = AudioRecorder

  type Path = string

  /** The values `@AppStorage` gives the preferences when nothing is stored under their keys. */
  const DefaultModel: string := "ggml-large-v3-turbo.bin"
  const DefaultAutoPaste: bool := true

  /** An `@AppStorage` read: the stored value if there is one, the declared default otherwise. */
  function StoredOr<T>(stored: Option<T>, default: T): T {
    if stored.Some? then stored.value else default
  }

  /** The directories the engine asks the system for. */
  datatype Directories = Directories(applicationSupport: Path, home: Path, temporary: Path)

  /** What the microphone does when asked to record, and the text of each error it throws. */
  datatype Microphone = Microphone(response: AR.DeviceResponse, describe: AR.RecorderError -> string)

  /** Background work started and not yet completed. */
  datatype Job = LoadJob(path: Path) | TranscribeJob(recording: AR.Url)

  /** Side effects on the rest of the system. */
  datatype Effect = CopiedToClipboard(text: string) | PastedFromClipboard

  /** How a transcription job ends. */
  datatype JobResult = NoContext | TranscriptionFailed | Transcribed(text: string) | Trapped

  /** All fields of the engine but the recorder. */
  datatype EngineState = EngineState(
    isRecording: bool, isTranscribing: bool, lastTranscription: string,
    statusMessage: string, isModelLoaded: bool, whisperContext: Option<WC.Context>,
    selectedModel: string, autoPaste: bool, pending: seq<Job>, effects: seq<Effect>)

  // ---------------------------------------------------------------------
  // Model path resolution

  /** `appendingPathComponent` on a directory path without a trailing slash. */
  function AppendingPathComponent(base: Path, component: string): Path {
    base + "/" + component
  }

  function PrimaryModelPath(dirs: Directories, model: string): Path {
    AppendingPathComponent(AppendingPathComponent(dirs.applicationSupport, "Vox/Models"), model)
  }

  function FallbackModelPath(dirs: Directories, model: string): Path {
    AppendingPathComponent(AppendingPathComponent(dirs.home, "Development/whisper.cpp/models"), model)
  }

  /**
   * The primary path when the file exists there, otherwise the fallback; and
   * nothing when the chosen path does not exist.
   */
  function ModelPathToUse(primary: Path, fallback: Path, existing: set<Path>): (r: Option<Path>)
    ensures r.Some? ==> r.value in existing && (r.value == primary || r.value == fallback)
    ensures primary in existing ==> r == Some(primary)
    ensures primary !in existing && fallback in existing ==> r == Some(fallback)
    ensures r.None? <==> primary !in existing && fallback !in existing
  {
    var pathToUse := if primary in existing then primary else fallback;
    if pathToUse in existing then Some(pathToUse) else None
  }

  // ---------------------------------------------------------------------
  // The transcription job and delivery

  /**
   * The detached transcription work: with no context it reports so; a file
   * that cannot be read or decoded is an error; otherwise the text of the
   * segments the library produced is joined and trimmed. `Trapped` is the
   * decoder's division by zero, which ends the process.
   */
  function TranscriptionJob(context: Option<WC.Context>, file: Option<seq<W.Byte>>,
                            segments: seq<string>): JobResult
  {
    if context.None? then NoContext
    else if file.None? then TranscriptionFailed
    else match W.Decode(file.value)
      case Thrown(_) => TranscriptionFailed
      case DivideByZeroTrap => Trapped
      case Decoded(_) => Transcribed(Trim(WC.Concat(segments)))
  }

  /** What a successful transcription delivers: the clipboard only for non-empty text, the paste only with auto-paste on. */
  function Delivery(trimmed: string, autoPaste: bool): seq<Effect> {
    if trimmed == "" then []
    else [CopiedToClipboard(trimmed)] + (if autoPaste then [PastedFromClipboard] else [])
  }

  /**
   * Text is delivered exactly when the transcription holds a non-whitespace
   * character; the clipboard then receives the trimmed text, and a paste
   * follows exactly when auto-paste is on.
   */
  lemma DeliveryIffVisibleText(text: string, autoPaste: bool)
    ensures var d := Delivery(Trim(text), autoPaste);
      (d != [] <==> exists i :: 0 <= i < |text| && !IsWhitespace(text[i])) &&
      (d != [] ==> d[0] == CopiedToClipboard(Trim(text)) && (PastedFromClipboard in d <==> autoPaste))
  {
    TrimEmptyIffBlank(text);
  }

  /**
   * A two-second 16 kHz recording in the capture format decodes to 32000
   * samples, and two segments "hello " and "world" deliver "hello world".
   */
  lemma TwoSecondRecordingDeliversSegments(context: WC.Context, frames: seq<seq<int>>)
    requires |frames| == 32000 && W.WellFormedFrames(frames, AR.Settings.channels)
    ensures var file := W.EncodeWave(AR.Settings.channels, 16000, frames);
      W.Decode(file).Decoded? && |W.Decode(file).samples| == 32000 &&
      TranscriptionJob(Some(context), Some(file), ["hello ", "world"]) == Transcribed("hello world")
  {
    W.DecodeEncodedWave(AR.Settings.channels, 16000, frames);
    WC.TwoSegments();
    TrimKeepsTrimmedText("hello world");
  }

  /** A recording with no frame at all is a bare header: the job fails, no text is produced. */
  lemma EmptyRecordingFails(context: WC.Context, segments: seq<string>)
    ensures TranscriptionJob(Some(context), Some(W.EncodeWave(AR.Settings.channels, 16000, [])), segments)
            == TranscriptionFailed
  {
    W.EmptyRecordingIsInvalid(AR.Settings.channels, 16000);
  }

  // ---------------------------------------------------------------------
  // The engine

  class VoxEngine {
    var isRecording: bool
    var isTranscribing: bool
    var lastTranscription: string
    var statusMessage: string
    var isModelLoaded: bool
    var whisperContext: Option<WC.Context>
    const recorder: AR.AudioRecorder
    var selectedModel: string
    var autoPaste: bool
    /** Background work started and not yet completed. */
    var pending: seq<Job>
    /** Clipboard writes and paste keystrokes, oldest first. */
    var effects: seq<Effect>

    function State(): EngineState
      reads this
    {
      EngineState(isRecording, isTranscribing, lastTranscription, statusMessage, isModelLoaded,
                  whisperContext, selectedModel, autoPaste, pending, effects)
    }

    /**
     * The engine's flag mirrors the recorder; a loaded model has a context;
     * and before any context exists no recorder was created and no
     * transcription was started.
     */
    ghost predicate Valid()
      reads this, recorder
    {
      recorder.Valid() &&
      isRecording == recorder.IsRecording() &&
      (isModelLoaded ==> whisperContext.Some?) &&
      (whisperContext.None? ==>
        recorder.outputURL.None? && forall k :: 0 <= k < |pending| ==> pending[k].LoadJob?)
    }

    /**
     * `init()`: the initial field values, the preferences read from the
     * values stored under "selectedModel" and "autoPaste" (or their defaults
     * when none is stored), then `loadModel()`.
     */
    constructor (storedModel: Option<string>, storedAutoPaste: Option<bool>,
                 dirs: Directories, existing: set<Path>)
      ensures Valid() && fresh(recorder)
      ensures recorder.recorder.None? && recorder.outputURL.None?
      ensures var model := StoredOr(storedModel, DefaultModel);
        var path := ModelPathToUse(PrimaryModelPath(dirs, model), FallbackModelPath(dirs, model), existing);
        State() == EngineState(false, false, "",
          if path.Some? then "Loading model..." else "Model not found: " + model,
          false, None, model, StoredOr(storedAutoPaste, DefaultAutoPaste),
          if path.Some? then [LoadJob(path.value)] else [], [])
    {
      isRecording, isTranscribing, lastTranscription := false, false, "";
      statusMessage, isModelLoaded, whisperContext := "Ready", false, None;
      selectedModel := StoredOr(storedModel, DefaultModel);
      autoPaste := StoredOr(storedAutoPaste, DefaultAutoPaste);
      pending, effects := [], [];
      recorder := new AR.AudioRecorder();
      new;
      LoadModel(dirs, existing);
    }

    /**
     * `loadModel`: "Loading model...", then the primary or fallback path; if
     * neither file exists, "Model not found: <name>" and no model; otherwise a
     * load job is started.
     */
    method LoadModel(dirs: Directories, existing: set<Path>)
      requires Valid()
      modifies this
      ensures Valid()
      ensures var path := ModelPathToUse(PrimaryModelPath(dirs, selectedModel),
                                         FallbackModelPath(dirs, selectedModel), existing);
        match path
        case None =>
          State() == old(State()).(statusMessage := "Model not found: " + selectedModel, isModelLoaded := false)
        case Some(p) =>
          State() == old(State()).(statusMessage := "Loading model...", pending := old(pending) + [LoadJob(p)])
    {
      statusMessage := "Loading model...";
      var modelPath := PrimaryModelPath(dirs, selectedModel);
      var fallbackPath := FallbackModelPath(dirs, selectedModel);
      var pathToUse := if modelPath in existing then modelPath else fallbackPath;
      if pathToUse !in existing {
        statusMessage := "Model not found: " + selectedModel;
        isModelLoaded := false;
        return;
      }
      pending := pending + [LoadJob(pathToUse)];
    }

    /**
     * Completion of load job `k`: the library's answer for the job's path
     * either becomes the context ("Ready") or leaves the old context in place
     * with no model loaded ("Failed to load model").
     */
    method CompleteLoad(k: nat, defaultParams: WC.ContextParams,
                        initFromFile: WC.InitCall -> Option<WC.Handle>)
      requires Valid() && k < |pending| && pending[k].LoadJob?
      modifies this
      ensures Valid()
      ensures var answer := initFromFile(WC.InitCall(old(pending[k].path), defaultParams.(flashAttn := true)));
        var rest := old(pending[..k] + pending[k + 1..]);
        match answer
        case Some(handle) =>
          State() == old(State()).(whisperContext := Some(WC.Context(handle)), isModelLoaded := true,
                                   statusMessage := "Ready", pending := rest)
        case None =>
          State() == old(State()).(isModelLoaded := false, statusMessage := "Failed to load model",
                                   pending := rest)
    {
      var path := pending[k].path;
      pending := pending[..k] + pending[k + 1..];
      var context := WC.CreateContext(path, defaultParams, initFromFile);
      match context {
        case Success(c) =>
          whisperContext := Some(c);
          isModelLoaded := true;
          statusMessage := "Ready";
        case Failure(_) =>
          statusMessage := "Failed to load model";
          isModelLoaded := false;
      }
    }

    /** The outcome of `startRecording`, on the engine and on its recorder. */
    twostate predicate StartedRecording(dirs: Directories, mic: Microphone)
      reads this, recorder
    {
      var url := AppendingPathComponent(dirs.temporary, "vox-recording.wav");
      if !old(isModelLoaded) then
        State() == old(State()).(statusMessage := "No model loaded") &&
        recorder.recorder == old(recorder.recorder) && recorder.outputURL == old(recorder.outputURL) &&
        recorder.stopped == old(recorder.stopped)
      else
        recorder.stopped == old(recorder.stopped) + AR.Stopping(old(recorder.recorder)) &&
        match mic.response
        case CreationThrows(description) =>
          State() == old(State()).(statusMessage := "Mic error: " + mic.describe(AR.CreationFailed(description))) &&
          recorder.recorder.None? && recorder.outputURL == old(recorder.outputURL)
        case Created(recordReturns) =>
          recorder.recorder == Some(AR.Device(url, AR.Settings, recordReturns)) &&
          recorder.outputURL == Some(url) &&
          if recordReturns then
            State() == old(State()).(isRecording := true, statusMessage := "Listening...")
          else
            State() == old(State()).(statusMessage := "Mic error: " + mic.describe(AR.CouldNotStartRecording))
    }

    /**
     * `startRecording`: with no model loaded only the status changes; otherwise
     * the recorder is started on the temporary file and the engine listens, or
     * reports the microphone error without changing `isRecording`.
     */
    method StartRecording(dirs: Directories, mic: Microphone)
      requires Valid() && !isRecording  // its one caller starts only when not recording
      modifies this, recorder
      ensures Valid() && StartedRecording(dirs, mic)
    {
      if !isModelLoaded {
        statusMessage := "No model loaded";
        return;
      }
      var outputURL := AppendingPathComponent(dirs.temporary, "vox-recording.wav");
      var thrown := recorder.StartRecording(outputURL, mic.response);
      match thrown {
        case None =>
          isRecording := true;
          statusMessage := "Listening...";
        case Some(error) =>
          statusMessage := "Mic error: " + mic.describe(error);
      }
    }

    /** The outcome of `stopAndTranscribe`, on the engine and on its recorder. */
    twostate predicate StoppedRecording()
      reads this, recorder
    {
      recorder.recorder.None? && recorder.outputURL == old(recorder.outputURL) &&
      recorder.stopped == old(recorder.stopped) + AR.Stopping(old(recorder.recorder)) &&
      match old(recorder.outputURL)
      case None =>
        State() == old(State()).(isRecording := false, statusMessage := "No recording")
      case Some(url) =>
        State() == old(State()).(isRecording := false, isTranscribing := true,
                                 statusMessage := "Transcribing...",
                                 pending := old(pending) + [TranscribeJob(url)])
    }

    /**
     * `stopAndTranscribe`: stops the recorder; with no URL, "No recording";
     * otherwise "Transcribing..." and a transcription job is started.
     */
    method StopAndTranscribe()
      requires Valid()
      modifies this, recorder
      ensures Valid() && StoppedRecording()
    {
      var recordingURL := recorder.StopRecording();
      if recordingURL.None? {
        isRecording := false;
        statusMessage := "No recording";
        return;
      }
      isRecording := false;
      isTranscribing := true;
      statusMessage := "Transcribing...";
      pending := pending + [TranscribeJob(recordingURL.value)];
    }

    /**
     * `toggleRecording`: stops and transcribes while recording, starts
     * otherwise. A recording engine always has a recording URL, so the
     * "No recording" branch is never taken from here.
     */
    method ToggleRecording(dirs: Directories, mic: Microphone)
      requires Valid()
      modifies this, recorder
      ensures Valid()
      ensures old(isRecording) ==> StoppedRecording() && old(recorder.outputURL).Some?
      ensures !old(isRecording) ==> StartedRecording(dirs, mic)
      ensures old(isRecording) ==> statusMessage == "Transcribing..."
    {
      if isRecording {
        StopAndTranscribe();
      } else {
        StartRecording(dirs, mic);
      }
    }

    method CopyToClipboard(text: string)
      modifies this
      ensures State() == old(State()).(effects := old(effects) + [CopiedToClipboard(text)])
    {
      effects := effects + [CopiedToClipboard(text)];
    }

    method PasteFromClipboard()
      modifies this
      ensures State() == old(State()).(effects := old(effects) + [PastedFromClipboard])
    {
      effects := effects + [PastedFromClipboard];
    }

    /**
     * Completion of transcription job `k`, given the bytes of its file (or
     * none if the file cannot be read) and the segments the library produced.
     * The context is always there: a transcription job is only started once
     * a context exists, and a context is never removed.
     */
    method CompleteTranscription(k: nat, file: Option<seq<W.Byte>>, segments: seq<string>)
      requires Valid() && k < |pending| && pending[k].TranscribeJob?
      requires TranscriptionJob(whisperContext, file, segments) != Trapped
      modifies this
      ensures Valid()
      ensures var result := TranscriptionJob(old(whisperContext), file, segments);
        var rest := old(pending[..k] + pending[k + 1..]);
        !result.NoContext? &&
        (result.TranscriptionFailed? ==>
          State() == old(State()).(isTranscribing := false, statusMessage := "Transcription error",
                                   pending := rest)) &&
        (result.Transcribed? ==>
          State() == old(State()).(lastTranscription := result.text, isTranscribing := false,
                                   statusMessage := "Done", pending := rest,
                                   effects := old(effects) + Delivery(result.text, old(autoPaste))))
    {
      ghost var result := TranscriptionJob(whisperContext, file, segments);
      pending := pending[..k] + pending[k + 1..];
      var context := whisperContext;
      if context.None? {
        // The source sets isTranscribing to false and the status to
        // "No model loaded" here; Valid() rules this branch out.
        assert false;
      }
      if file.None? {
        isTranscribing := false;
        statusMessage := "Transcription error";
        return;
      }
      var samples := W.DecodeWaveFile(file.value);
      if samples.Thrown? {
        assert result == TranscriptionFailed;
        isTranscribing := false;
        statusMessage := "Transcription error";
        return;
      }
      var text := WC.GetTranscription(segments);
      var trimmed := Trim(text);
      assert result == Transcribed(trimmed);
      Deliver(trimmed);
    }

    /** The main-actor part of a successful transcription. */
    method Deliver(trimmed: string)
      modifies this
      ensures State() == old(State()).(lastTranscription := trimmed, isTranscribing := false,
                                       statusMessage := "Done",
                                       effects := old(effects) + Delivery(trimmed, old(autoPaste)))
    {
      lastTranscription := trimmed;
      isTranscribing := false;
      statusMessage := "Done";
      if trimmed != "" {
        CopyToClipboard(trimmed);
        if autoPaste {
          PasteFromClipboard();
        }
      }
    }
  }

  /**
   * The engine itself does not refuse to record while a transcription runs:
   * from a ready, idle engine, toggling three times with a working microphone
   * ends recording and transcribing at once.
   */
  method RecordWhileTranscribing(engine: VoxEngine, dirs: Directories, describe: AR.RecorderError -> string)
    requires engine.Valid() && engine.isModelLoaded && !engine.isRecording && !engine.isTranscribing
    modifies engine, engine.recorder
    ensures engine.Valid() && engine.isRecording && engine.isTranscribing
  {
    var mic := Microphone(AR.Created(true), describe);
    engine.ToggleRecording(dirs, mic);
    engine.ToggleRecording(dirs, mic);
    engine.ToggleRecording(dirs, mic);
  }
}
