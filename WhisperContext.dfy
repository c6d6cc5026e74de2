/**
 * The wrapper around the speech-recognition library (Vox/Core/WhisperContext.swift).
 *
 * The library is not modelled: its handle is an opaque value, its context
 * initialisation and its `whisper_full` entry point are function parameters
 * whose answers the model does not interpret, and the segment texts it
 * produces are an abstract `seq<string>`. What is modelled is the wrapper's own
 * logic: the thread-count clamp, the fixed decode parameters, the failure of
 * context creation and the in-order concatenation of segments.
 */
module WhisperContext {
  import opened Optional

  /** The library's opaque context pointer. */
  datatype Handle = Handle(address: nat)

  /** `WhisperError`. */
  datatype WhisperError = CouldNotInitializeContext

  /** The `WhisperContext` actor: it wraps one handle, never reassigned. */
  datatype Context = Context(handle: Handle)

  /** The fields of `whisper_context_params` this model keeps. */
  datatype ContextParams = ContextParams(useGpu: bool, flashAttn: bool, gpuDevice: int)

  /** The arguments of `whisper_init_from_file_with_params`. */
  datatype InitCall = InitCall(path: string, params: ContextParams)

  datatype Sampling = Greedy | BeamSearch

  /** The fields of `whisper_full_params` the wrapper sets, and the sampling strategy. */
  datatype FullParams = FullParams(
    strategy: Sampling,
    printRealtime: bool, printProgress: bool, printTimestamps: bool, printSpecial: bool,
    translate: bool, language: string, nThreads: int, offsetMs: int,
    noContext: bool, singleSegment: bool)

  /**
   * The arguments of one `whisper_full` call: the handle, the parameters, the
   * samples, their count as passed, and the strategy whose defaults the
   * parameters were started from.
   */
  datatype FullCall = FullCall(
    handle: Handle, defaultsFor: Sampling, params: FullParams,
    samples: seq<real>, sampleCount: int)

  // ---------------------------------------------------------------------
  // Thread count

  /** `max(1, min(8, cpuCount() - 2))`. */
  function MaxThreads(cpuCount: int): (n: int)
    ensures 1 <= n <= 8
    ensures 3 <= cpuCount <= 10 ==> n == cpuCount - 2
    ensures cpuCount <= 3 ==> n == 1
    ensures cpuCount >= 10 ==> n == 8
  {
    var upper := if 8 < cpuCount - 2 then 8 else cpuCount - 2;
    if 1 < upper then upper else 1
  }

  function Distance(x: int, y: int): nat {
    if x < y then y - x else x - y
  }

  /** The thread count is the value in [1, 8] nearest to two fewer than the processor count. */
  lemma MaxThreadsIsNearestInRange(cpuCount: int, m: int)
    requires 1 <= m <= 8
    ensures Distance(MaxThreads(cpuCount), cpuCount - 2) <= Distance(m, cpuCount - 2)
  {
  }

  // ---------------------------------------------------------------------
  // Transcription

  /**
   * `fullTranscribe`: starts from the library's defaults for greedy sampling,
   * sets the decode parameters field by field and calls `whisper_full`. A
   * non-zero return is only logged; the caller cannot observe it, so the
   * result is the call made and nothing the library answered.
   */
  method FullTranscribe(context: Context, samples: seq<real>, cpuCount: int,
                        defaultParams: Sampling -> FullParams,
                        whisperFull: FullCall -> int)
    returns (call: FullCall)
    requires |samples| < 0x8000_0000  // Int32(samples.count) traps beyond this
    ensures call.handle == context.handle && call.defaultsFor == Greedy
    ensures call.samples == samples && call.sampleCount == |samples|
    ensures call.params.strategy == defaultParams(Greedy).strategy
    ensures !call.params.printRealtime && !call.params.printProgress
    ensures !call.params.printTimestamps && !call.params.printSpecial
    ensures !call.params.translate && call.params.language == "en"
    ensures 1 <= call.params.nThreads <= 8 && call.params.nThreads == MaxThreads(cpuCount)
    ensures call.params.offsetMs == 0
    ensures call.params.noContext && !call.params.singleSegment
  {
    var maxThreads := MaxThreads(cpuCount);
    var params := defaultParams(Greedy);
    params := params.(printRealtime := false);
    params := params.(printProgress := false);
    params := params.(printTimestamps := false);
    params := params.(printSpecial := false);
    params := params.(translate := false);
    params := params.(language := "en");
    params := params.(nThreads := maxThreads);
    params := params.(offsetMs := 0);
    params := params.(noContext := true);
    params := params.(singleSegment := false);
    call := FullCall(context.handle, Greedy, params, samples, |samples|);
    var code := whisperFull(call);
    if code != 0 {
      // "[Vox] Failed to run whisper_full" is printed; nothing else happens.
    }
  }

  /** The segment texts joined in order, with nothing in between. */
  function Concat(segments: seq<string>): string {
    if segments == [] then ""
    else Concat(segments[..|segments| - 1]) + segments[|segments| - 1]
  }

  /** `getTranscription`: appends the text of segments 0 to n-1 to an initially empty string. */
  method GetTranscription(segments: seq<string>) returns (transcription: string)
    ensures transcription == Concat(segments)
  {
    transcription := "";
    for i := 0 to |segments|
      invariant transcription == Concat(segments[..i])
    {
      assert segments[..i + 1][..i] == segments[..i];
      transcription := transcription + segments[i];
    }
    assert segments[..|segments|] == segments;
  }

  /** The total number of characters in the segments. */
  function TotalLength(segments: seq<string>): nat {
    if segments == [] then 0 else |segments[0]| + TotalLength(segments[1..])
  }

  /** Concatenating two runs of segments concatenates their texts. */
  lemma {:induction false} ConcatAppend(a: seq<string>, b: seq<string>)
    ensures Concat(a + b) == Concat(a) + Concat(b)
  {
    if b == [] {
      assert a + b == a;
    } else {
      var b' := b[..|b| - 1];
      assert (a + b)[..|a + b| - 1] == a + b';
      ConcatAppend(a, b');
    }
  }

  /** No separator is inserted: the length is the sum of the segment lengths. */
  lemma {:induction false} ConcatLength(segments: seq<string>)
    ensures |Concat(segments)| == TotalLength(segments)
  {
    if segments != [] {
      ConcatAppend([segments[0]], segments[1..]);
      assert [segments[0]] + segments[1..] == segments;
      assert Concat([segments[0]]) == segments[0] by {
        assert [segments[0]][..0] == [];
      }
      ConcatLength(segments[1..]);
    }
  }

  /** Segment `i` appears, unchanged, right after the text of segments 0 to i-1. */
  lemma SegmentInPlace(segments: seq<string>, i: nat)
    requires i < |segments|
    ensures var at := TotalLength(segments[..i]);
      at + |segments[i]| <= |Concat(segments)| &&
      Concat(segments)[at..at + |segments[i]|] == segments[i]
  {
    var before, after := segments[..i], segments[i + 1..];
    assert segments == before + [segments[i]] + after;
    ConcatAppend(before + [segments[i]], after);
    ConcatAppend(before, [segments[i]]);
    assert Concat([segments[i]]) == segments[i] by {
      assert [segments[i]][..0] == [];
    }
    ConcatLength(before);
  }

  /** Two segments "hello " and "world" give "hello world"; no segments give "". */
  lemma TwoSegments()
    ensures Concat(["hello ", "world"]) == "hello world"
    ensures Concat([]) == ""
  {
    assert ["hello ", "world"][..1] == ["hello "];
    assert ["hello "][..0] == [];
  }

  // ---------------------------------------------------------------------
  // Context creation

  /**
   * `createContext`: starts from the library's default context parameters,
   * turns flash attention on and asks the library to load the model file. A
   * null answer throws `couldNotInitializeContext`; otherwise the handle is
   * wrapped.
   */
  method CreateContext(path: string, defaultParams: ContextParams,
                       initFromFile: InitCall -> Option<Handle>)
    returns (result: Result<Context, WhisperError>)
    ensures var request := InitCall(path, defaultParams.(flashAttn := true));
      (result == Failure(CouldNotInitializeContext) <==> initFromFile(request).None?) &&
      (result.Success? <==> initFromFile(request).Some?) &&
      (result.Success? ==> result.value.handle == initFromFile(request).value)
  {
    var params := defaultParams;
    params := params.(flashAttn := true);
    var handle := initFromFile(InitCall(path, params));
    if handle.None? {
      // "[Vox] Could not load model at <path>" is printed.
      return Failure(CouldNotInitializeContext);
    }
    return Success(Context(handle.value));
  }
}
