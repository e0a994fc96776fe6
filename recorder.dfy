/**
 * Microphone selection and the recording hand-off (AudioRecorder).  The
 * AVAudioRecorder is a value: the file URL it writes to and whether it is
 * recording.  A file URL is a sequence of path components.  What the system
 * supplies (the temporary directory, a fresh UUID string, whether creating a
 * recorder throws, the metered power) comes in as parameters.
 */
module Recorder {
  import opened Wrappers
  import Settings
  import Waveform

  type FileUrl = seq<string>

  const MicrophoneKey: string := "selectedMicrophoneID"

  /** An `AVAudioRecorder` bound to its file. */
  datatype Handle = Handle(url: FileUrl, recording: bool)

  /** `getSelectedMicrophoneID` given the field and the stored settings. */
  function SelectedIn(field: Option<string>, store: map<string, string>): (r: Option<string>)
    ensures field.Some? ==> r == field
    ensures field.None? ==> r == Settings.StringFor(store, MicrophoneKey)
  {
    match field
    case Some(id) => Some(id)
    case None => Settings.StringFor(store, MicrophoneKey)
  }

  /** The settings after `setMicrophone(deviceID:)`: the key is written or removed. */
  function StoredSelection(store: map<string, string>, deviceID: Option<string>): (r: map<string, string>)
    ensures forall k :: k != MicrophoneKey ==> (k in r <==> k in store)
    ensures forall k :: k != MicrophoneKey && k in r ==> r[k] == store[k]
  {
    match deviceID
    case Some(id) => store[MicrophoneKey := id]
    case None => store - {MicrophoneKey}
  }

  /** After `setMicrophone(id)` the getter answers `id`, and a cleared selection answers nil. */
  lemma SelectionRoundTrip(store: map<string, string>, deviceID: Option<string>)
    ensures SelectedIn(deviceID, StoredSelection(store, deviceID)) == deviceID
  {
    if deviceID.None? {
      assert MicrophoneKey !in StoredSelection(store, deviceID);
    }
  }

  /** The choice survives a restart: a fresh field falls back to what `setMicrophone` stored. */
  lemma SelectionPersists(store: map<string, string>, deviceID: Option<string>)
    ensures SelectedIn(None, StoredSelection(store, deviceID)) == deviceID
  {
    SelectionRoundTrip(store, deviceID);
  }

  /** The file `prepareNextRecorder` records into: the UUID plus ".wav" in the temporary directory. */
  function RecordingUrl(tempDir: FileUrl, uuid: string): (r: FileUrl)
    ensures |r| == |tempDir| + 1 && r[..|tempDir|] == tempDir
    ensures var name := r[|tempDir|]; |name| == |uuid| + 4 && name[..|uuid|] == uuid && name[|uuid|..] == ".wav"
  {
    tempDir + [uuid + ".wav"]
  }

  /** Distinct UUIDs give distinct files, so a recording is never overwritten by the next one. */
  lemma RecordingUrlsDistinct(tempDir: FileUrl, u: string, v: string)
    requires u != v
    ensures RecordingUrl(tempDir, u) != RecordingUrl(tempDir, v)
  {
    var a := RecordingUrl(tempDir, u);
    var b := RecordingUrl(tempDir, v);
    if |u| == |v| {
      assert a[|tempDir|][..|u|] == u && b[|tempDir|][..|v|] == v;
    }
    assert a[|tempDir|] != b[|tempDir|];
  }

  /** `max(0, min(1, (averagePower + 50) / 50))`: -50 dB and below is silence, 0 dB and above is full scale. */
  function NormalizedLevel(averagePower: real): (r: real)
    ensures 0.0 <= r <= 1.0
    ensures averagePower <= -50.0 ==> r == 0.0
    ensures averagePower >= 0.0 ==> r == 1.0
    ensures -50.0 <= averagePower <= 0.0 ==> r == (averagePower + 50.0) / 50.0
  {
    Waveform.Clamp01((averagePower + 50.0) / 50.0)
  }

  /** A louder reading never gives a lower level. */
  lemma NormalizedLevelMonotone(p: real, q: real)
    requires p <= q
    ensures NormalizedLevel(p) <= NormalizedLevel(q)
  {
  }

  class AudioRecorder {
    var audioRecorder: Option<Handle>
    var recordingURL: Option<FileUrl>
    var selectedDeviceID: Option<string>
    /** Whether the level timer is scheduled. */
    var monitoring: bool
    const defaults: Settings.UserDefaults

    /** The prepared recorder, if any, writes to the file `recordingURL` names. */
    predicate Bound()
      reads this
    {
      audioRecorder.Some? ==> recordingURL == Some(audioRecorder.value.url)
    }

    /** `getSelectedMicrophoneID`. */
    function SelectedMicrophoneID(): Option<string>
      reads this, defaults
    {
      SelectedIn(selectedDeviceID, defaults.store)
    }

    /** `init`: prepares the first recorder at once. */
    constructor (defaults: Settings.UserDefaults, tempDir: FileUrl, uuid: string, created: bool)
      ensures this.defaults == defaults
      ensures selectedDeviceID == None && !monitoring
      ensures recordingURL == Some(RecordingUrl(tempDir, uuid))
      ensures audioRecorder == if created then Some(Handle(RecordingUrl(tempDir, uuid), false)) else None
      ensures Bound()
    {
      this.defaults := defaults;
      audioRecorder := None;
      recordingURL := None;
      selectedDeviceID := None;
      monitoring := false;
      new;
      PrepareNextRecorder(tempDir, uuid, created);
    }

    /** `setMicrophone(deviceID:)`: the field and the stored key both follow the argument. */
    method SetMicrophone(deviceID: Option<string>)
      modifies this`selectedDeviceID, defaults
      ensures selectedDeviceID == deviceID
      ensures defaults.store == StoredSelection(old(defaults.store), deviceID)
      ensures SelectedMicrophoneID() == deviceID
    {
      selectedDeviceID := deviceID;
      if deviceID.Some? {
        defaults.Set(deviceID.value, MicrophoneKey);
      } else {
        defaults.Remove(MicrophoneKey);
      }
      SelectionRoundTrip(old(defaults.store), deviceID);
    }

    /**
     * `prepareNextRecorder`: a fresh file URL, then a new recorder for it.  When
     * creating the recorder throws, the error is only logged and the previous
     * recorder, if any, stays in place.
     */
    method PrepareNextRecorder(tempDir: FileUrl, uuid: string, created: bool)
      modifies this`recordingURL, this`audioRecorder
      ensures recordingURL == Some(RecordingUrl(tempDir, uuid))
      ensures audioRecorder == if created then Some(Handle(RecordingUrl(tempDir, uuid), false)) else old(audioRecorder)
      ensures created || old(audioRecorder).None? ==> Bound()
    {
      recordingURL := Some(RecordingUrl(tempDir, uuid));
      if created {
        audioRecorder := Some(Handle(recordingURL.value, false));
      }
    }

    /**
     * `startRecording`: reports true exactly when a recorder exists, preparing
     * one more time first if there was none; on success that recorder is
     * recording and the level timer runs.
     */
    method StartRecording(tempDir: FileUrl, uuid: string, created: bool) returns (success: bool)
      modifies this`recordingURL, this`audioRecorder, this`monitoring
      ensures success <==> old(audioRecorder).Some? || created
      ensures success <==> audioRecorder.Some?
      ensures old(audioRecorder).Some? ==>
                recordingURL == old(recordingURL) && audioRecorder == Some(old(audioRecorder).value.(recording := true))
      ensures old(audioRecorder).None? ==> recordingURL == Some(RecordingUrl(tempDir, uuid))
      ensures success ==> audioRecorder.value.recording && monitoring
      ensures !success ==> monitoring == old(monitoring)
      ensures old(Bound()) ==> Bound()
    {
      if audioRecorder.None? {
        PrepareNextRecorder(tempDir, uuid, created);
        if audioRecorder.None? {
          return false;
        }
      }
      audioRecorder := Some(audioRecorder.value.(recording := true));
      monitoring := true;
      return true;
    }

    /**
     * `stopRecording`: stops the timer and the recorder, and hands over
     * `recordingURL` as it was before the next recorder is prepared.  While
     * the recorder is bound to that URL, this is the file the stopped recorder
     * wrote; a successful creation binds the next recorder again.
     */
    method StopRecording(tempDir: FileUrl, uuid: string, created: bool) returns (url: Option<FileUrl>)
      modifies this`recordingURL, this`audioRecorder, this`monitoring
      ensures url == old(recordingURL)
      ensures old(Bound()) && old(audioRecorder).Some? ==> url == Some(old(audioRecorder).value.url)
      ensures created ==> Bound()
      ensures !monitoring
      ensures recordingURL == Some(RecordingUrl(tempDir, uuid))
      ensures audioRecorder == if created then Some(Handle(RecordingUrl(tempDir, uuid), false))
                               else if old(audioRecorder).Some? then Some(old(audioRecorder).value.(recording := false))
                               else None
    {
      monitoring := false;
      if audioRecorder.Some? {
        audioRecorder := Some(audioRecorder.value.(recording := false));
      }
      url := recordingURL;
      PrepareNextRecorder(tempDir, uuid, created);
    }

    /** `updateAudioLevel`: the level passed to the callback, if the recorder is recording. */
    method UpdateAudioLevel(averagePower: real) returns (level: Option<real>)
      ensures level.Some? <==> audioRecorder.Some? && audioRecorder.value.recording
      ensures level.Some? ==> level.value == NormalizedLevel(averagePower) && 0.0 <= level.value <= 1.0
    {
      if audioRecorder.None? || !audioRecorder.value.recording {
        return None;
      }
      var normalized := Waveform.Clamp01((averagePower + 50.0) / 50.0);
      level := Some(normalized);
    }
  }

  /**
   * A failed creation unbinds the recorder: the next recording goes into the
   * previous file while `stopRecording` hands over the new, never-written one.
   * Returns the file written and the URL handed over.
   */
  method StaleRecorderTrace(tempDir: FileUrl) returns (written: FileUrl, handedOver: Option<FileUrl>)
    ensures written == RecordingUrl(tempDir, "a") && handedOver == Some(RecordingUrl(tempDir, "c"))
    ensures handedOver != Some(written)
  {
    var defaults := new Settings.UserDefaults(map[]);
    var recorder := new AudioRecorder(defaults, tempDir, "a", true);
    var ok := recorder.StartRecording(tempDir, "b", true);
    var first := recorder.StopRecording(tempDir, "c", false);
    ok := recorder.StartRecording(tempDir, "d", true);
    written := recorder.audioRecorder.value.url;
    handedOver := recorder.StopRecording(tempDir, "e", true);
    RecordingUrlsDistinct(tempDir, "a", "c");
  }
}
