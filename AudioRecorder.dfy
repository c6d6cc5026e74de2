/**
 * The microphone recorder (class `AudioRecorder` in Vox/Core/AudioRecorder.swift).
 *
 * The class keeps two optional fields, the current capture device and the URL
 * of the last file a device was created for. The device itself
 * (`AVAudioRecorder`) is not modelled beyond what the class observes of it: its
 * creation may throw, `record()` may return false, `stop()` ends capture and
 * `isRecording` reports whether it is capturing.
 */
module AudioRecorder {
  import opened Optional

  type Url = string

  datatype FormatId = LinearPCM
  datatype AudioQuality = Min | Low | Medium | High | Max

  /** The settings dictionary passed to `AVAudioRecorder`. */
  datatype CaptureSettings = CaptureSettings(
    format: FormatId, sampleRate: real, channels: nat, bitDepth: nat,
    isFloat: bool, isBigEndian: bool, quality: AudioQuality)

  /** The fixed capture settings: linear PCM, 16000 Hz, mono, 16-bit integer, little-endian. */
  const Settings: CaptureSettings := CaptureSettings(LinearPCM, 16000.0, 1, 16, false, false, High)

  /** An `AVAudioRecorder`: where it writes, with which settings, and whether it is capturing. */
  datatype Device = Device(url: Url, settings: CaptureSettings, capturing: bool)

  /** What the system does when asked for a device: creation throws, or `record()` answers. */
  datatype DeviceResponse = CreationThrows(description: string) | Created(recordReturns: bool)

  /**
   * What `startRecording` throws: the device-creation error, or
   * `couldNotStartRecording`. (`noOutputFile` is declared in the source and
   * never thrown.)
   */
  datatype RecorderError = CreationFailed(description: string) | CouldNotStartRecording | NoOutputFile

  /** The devices `recorder?.stop()` stops: the stored one, if any. */
  function Stopping(recorder: Option<Device>): seq<Device> {
    if recorder.Some? then [recorder.value] else []
  }

  class AudioRecorder {
    var recorder: Option<Device>
    var outputURL: Option<Url>
    /** The URLs of every device created so far, oldest first. */
    ghost var created: seq<Url>
    /** Every device sent `stop()`, oldest first, as it was when stopped. */
    ghost var stopped: seq<Device>

    ghost predicate Valid()
      reads this
    {
      (outputURL.None? <==> created == []) &&
      (created != [] ==> outputURL == Some(created[|created| - 1])) &&
      (recorder.Some? ==> outputURL == Some(recorder.value.url) && recorder.value.settings == Settings)
    }

    constructor ()
      ensures Valid() && recorder.None? && outputURL.None? && created == [] && stopped == []
    {
      recorder, outputURL := None, None;
      created, stopped := [], [];
    }

    /** `isRecording`: false when no device is stored. */
    function IsRecording(): (b: bool)
      reads this
      ensures b ==> recorder.Some?
    {
      match recorder
      case Some(device) => device.capturing
      case None => false
    }

    /**
     * `startRecording(to:)`: stops and discards any previous device, creates a
     * new one for `url`, records `url` as the output as soon as creation
     * succeeds, and only then asks the device to record.
     */
    method StartRecording(url: Url, response: DeviceResponse) returns (thrown: Option<RecorderError>)
      requires Valid()
      modifies this
      ensures Valid()
      ensures stopped == old(stopped) + Stopping(old(recorder))
      ensures response.CreationThrows? ==>
        recorder.None? && outputURL == old(outputURL) && created == old(created) &&
        thrown == Some(CreationFailed(response.description))
      ensures response.Created? ==>
        recorder == Some(Device(url, Settings, response.recordReturns)) &&
        outputURL == Some(url) && created == old(created) + [url] &&
        thrown == (if response.recordReturns then None else Some(CouldNotStartRecording))
      ensures IsRecording() <==> thrown.None?
    {
      if recorder.Some? {
        stopped := stopped + [recorder.value];
      }
      recorder := None;

      match response {
        case CreationThrows(description) =>
          return Some(CreationFailed(description));
        case Created(recordReturns) =>
          recorder := Some(Device(url, Settings, false));
          outputURL := Some(url);
          created := created + [url];
          if !recordReturns {
            return Some(CouldNotStartRecording);
          }
          recorder := Some(recorder.value.(capturing := true));
          return None;
      }
    }

    /**
     * `stopRecording`: stops and clears the device and returns the output URL,
     * which is never cleared; it is nil only if no device was ever created.
     */
    method StopRecording() returns (url: Option<Url>)
      requires Valid()
      modifies this
      ensures Valid()
      ensures recorder.None? && !IsRecording()
      ensures stopped == old(stopped) + Stopping(old(recorder))
      ensures outputURL == old(outputURL) && created == old(created)
      ensures url == outputURL
      ensures url.None? <==> created == []
    {
      if recorder.Some? {
        stopped := stopped + [recorder.value];
      }
      recorder := None;
      return outputURL;
    }
  }

  /** Stopping twice gives the same URL both times, stops the device once and leaves nothing recording. */
  method StopTwice(r: AudioRecorder) returns (first: Option<Url>, second: Option<Url>)
    requires r.Valid()
    modifies r
    ensures r.Valid() && first == second && !r.IsRecording()
    ensures r.stopped == old(r.stopped) + Stopping(old(r.recorder))
  {
    first := r.StopRecording();
    second := r.StopRecording();
  }
}
