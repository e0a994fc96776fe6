# Whisper dictation app: a verified model of its core

WhisperTranscribe is a macOS dictation app. A double tap of Control starts and
stops a microphone recording. A floating window shows a timer and a scrolling
level meter while it records. When the recording ends, the app runs a Python
script that transcribes the audio with whisper.cpp, and the app types or pastes
the text. The repository also ships a persistent worker (`transcribe_daemon.py`)
that answers newline-delimited JSON requests.

This project models, in Dafny:

- the worker's request handler, its model cache and its stdin/stdout loop, down to
  how `json.dumps` escapes strings (`daemon.dfy`, `json.dfy`);
- the one-shot transcription script: argument defaults, the language mapping,
  segment-text extraction and its exit policy (`cli.dfy`, `whisper.dfy`);
- the double-tap detector (`hotkey.dfy`);
- the waveform's 40-sample FIFO and bar geometry (`waveform.dfy`);
- the key-code table and the typing loop (`keyboard.dfy`);
- the engine that finds and launches the script and interprets its result
  (`engine.dfy`);
- microphone selection and the recording hand-off (`recorder.dfy`);
- the overlay window's states and timer text (`overlay.dfy`).

Shared pieces:

- `text.dfy`: Python's `str.strip` and Foundation's `.whitespacesAndNewlines` trimming,
  `str.join`, substring search, decimal digits and line splitting.
- `settings.dfy`: the `UserDefaults` store, as a class over a string map.
- `wrappers.dfy`: `Option` and `Result`.

Classes model the objects whose fields the source updates in place:
`TranscriptionDaemon`, `HotkeyManager`, `ScrollingWaveformView`,
`UserDefaults`, `TranscriptionEngine`, `AudioRecorder` and
`RecordingFloatingWindow`. Each method is specified by pure functions, and the
lemmas prove the source's promises about those functions.

Inputs from the outside world become parameters:

- the JSON parser (`Env.decode`) and the speech library (`Backend`: which model
  names fail to load, and what a transcription yields);
- the file system, as a set of existing paths;
- the process runner (`Runner`: exit status and standard output, or a launch
  failure);
- the clock, the temporary directory, fresh UUIDs, whether creating an
  `AVAudioRecorder` throws, and the metered power.

## Model

| member | source | states |
|---|---|---|
| Whisper.LangParamRoundTrip | transcribe.py:33 | reading a missing language parameter as "auto" gives back the argument, so two different arguments never reach the model as the same parameter |
| Whisper.AfterMarker | transcribe_daemon.py:97-101 | absent exactly when "text=" does not occur; otherwise the suffix after the first occurrence, with no earlier occurrence |
| Whisper.PartsAppend | transcribe_daemon.py:89-101 | extraction over two runs of segments is the two extractions concatenated: segment order is kept |
| Whisper.PartsFromSegments | transcribe.py:37-49 | never more parts than segments, and every part is the text of some segment |
| Whisper.ExtractTextParts | transcribe_daemon.py:89-101 | the loop appends exactly the texts of the segments that have one (attribute, dict key or "text=" suffix), in order |
| Whisper.Transcript | transcribe.py:51 | the joined-and-stripped text has no leading or trailing Python whitespace, and is empty when no segment had text |
| Whisper.TranscriptOfTexts | transcribe_daemon.py:104 | segments carrying texts yield those texts joined by single spaces, then stripped |
| Whisper.TextsParts | transcribe_daemon.py:92-93 | attribute-text segments contribute exactly their texts, in order |
| Text.FoundationSpaceIsPythonSpace | Sources/TranscriptionEngine.swift:79 | every Foundation whitespace-or-newline is Python whitespace; the two differ exactly on U+001C..U+001F |
| Text.TrimStartSlice | transcribe.py:51 | trimming the start removes a whitespace-only prefix and keeps the rest as a suffix of the input |
| Text.TrimEndSlice | transcribe.py:51 | trimming the end removes a whitespace-only suffix and keeps the rest as a prefix of the input |
| Text.Strip | transcribe_daemon.py:104 | the result has no whitespace at either end and is no longer than the input |
| Text.StripSlice | transcribe_daemon.py:252 | the result is a slice of the input with only whitespace around it, and it is empty iff the input is all whitespace |
| Text.StripPadded | Sources/TranscriptionEngine.swift:79 | stripping whitespace from both sides of a trimmed text gives that text back |
| Text.StripIdempotent | transcribe_daemon.py:252 | stripping twice is stripping once |
| Text.JoinLength | transcribe.py:51 | a join has the parts' total length plus one separator between each pair |
| Text.JoinSnoc | transcribe.py:51 | joining with one more part appends the separator and that part |
| Text.IndexOf | transcribe_daemon.py:99-100 | the first occurrence of the pattern, or none exactly when the pattern does not occur |
| Text.DecimalRoundTrip | Sources/RecordingFloatingWindow.swift:222 | the digits `%d` writes for a natural number read back as that number |
| Text.SplitLinesOfLines | transcribe_daemon.py:266 | lines printed one after another and split on newlines give back the lines, when none holds a newline |
| Json.Hex4RoundTrip | transcribe_daemon.py:175-178 | the four hex digits of a UTF-16 code unit parse back to it |
| Json.EscapeChar | transcribe_daemon.py:175-178 | each character's escape is non-empty printable ASCII |
| Json.Quote | transcribe_daemon.py:175-178 | a JSON string literal is quoted, printable ASCII, and has no raw newline (section 7 of RFC 8259) |
| Json.UnescapeEscapeChar | transcribe_daemon.py:175-178 | decoding one character's escape gives back that character, for short escapes, \uXXXX and surrogate pairs alike |
| Json.UnescapeEscape | transcribe_daemon.py:175-178 | decoding an escaped string body gives back the original string |
| Daemon.Encode | transcribe_daemon.py:143-229 | every response is one line of printable ASCII between braces |
| Daemon.StatusFirst | transcribe_daemon.py:143-229 | every response starts with its `status` member; status is "success" for a transcript or an acknowledgement and "error" otherwise |
| Daemon.Load | transcribe_daemon.py:20-56 | load succeeds iff the requested name is already loaded or construction does not raise; success leaves that name loaded, failure leaves the state as it was |
| Daemon.TranscribeAudio | transcribe_daemon.py:59-118 | "Model not loaded" exactly when no model is loaded; otherwise the stripped transcript of the segments inference returns, or "Transcription error: ..." when it raises |
| Daemon.TranscriptionDaemon.constructor | transcribe_daemon.py:16-17 | no model loaded and no request counted |
| Daemon.TranscriptionDaemon.LoadModel | transcribe_daemon.py:20-56 | the success flag and new loaded name are those of `Load` |
| Daemon.TranscriptionDaemon.HandleRequest | transcribe_daemon.py:121-230 | the response and new loaded model are those of the dispatch function `Handle` |
| Daemon.TranscriptionDaemon.Answer | transcribe_daemon.py:256-263 | counts the request and answers it as the handler does |
| Daemon.TranscriptionDaemon.Serve | transcribe_daemon.py:251-277 | writes exactly the encoded responses of `Run`, in order, counts one request per response, and ends in `Run`'s model state |
| Daemon.RunStep | transcribe_daemon.py:251-277 | one loop step: a blank line is skipped uncounted, another is answered and the loop stops iff the reply acknowledges shutdown |
| Daemon.MissingAudioPathRejected | transcribe_daemon.py:142-146 | a transcribe request with a missing or empty `audio_path` gets "Missing audio_path parameter" and the model state is untouched |
| Daemon.TranscribeDefaults | transcribe_daemon.py:134-135 | a transcribe request without `language` and `model` behaves as one with "auto" and "small" |
| Daemon.LoadModelDefault | transcribe_daemon.py:181 | a load_model request without `model` behaves as one naming "small" |
| Daemon.LoadModelIdempotent | transcribe_daemon.py:29-50 | requesting the loaded model succeeds with "Model 'm' loaded" and leaves the state unchanged, so repeating a load_model request changes nothing |
| Daemon.HandleChangesModelOnlyByLoading | transcribe_daemon.py:29-37 | the loaded model changes only to the model a transcribe or load_model request names (default "small"), and only when it loads |
| Daemon.TranscribedMeansText | transcribe_daemon.py:158-178 | a success with text carries non-empty stripped text from the requested model, path and language |
| Daemon.TranscribeReplies | transcribe_daemon.py:121-178 | for a transcribe request with an audio path: "Failed to load model" when the model does not load, "Transcription error: ..." when inference raises, "Empty transcription" for an empty transcript, and otherwise the transcript; a transcript exactly in the last case |
| Daemon.LoadModelReplies | transcribe_daemon.py:180-192 | a load_model request is acknowledged with "Model 'm' loaded" and m loaded when loading succeeds, and gets "Failed to load model" with the state unchanged otherwise |
| Daemon.ModelNotLoadedUnreachable | transcribe_daemon.py:73-74 | no request is ever answered "Model not loaded", since transcribe loads a model first |
| Daemon.ErrorReplies | transcribe_daemon.py:214-224 | undecodable input gets "Invalid JSON: ..." and an unknown or missing action gets "Unknown action: ...", with the state unchanged |
| Daemon.ShutdownOnlyOnRequest | transcribe_daemon.py:204-212 | a reply ends the loop iff the request was a shutdown request |
| Daemon.RunOneResponsePerLine | transcribe_daemon.py:251-277 | a run that does not stop answers every non-blank line, none with a shutdown acknowledgement; a stopped run's last reply, and only that one, acknowledges shutdown |
| Daemon.RunStopsAtShutdownLine | transcribe_daemon.py:251-277 | a stopped run stops at a non-blank line k: it has one response per non-blank line up to and including k, and cutting the input after k gives the same run, so later lines are never read |
| Daemon.RunIgnoresBlankLines | transcribe_daemon.py:252-254 | deleting a blank line from the input changes nothing |
| Daemon.StdoutFraming | transcribe_daemon.py:266 | standard output, split into lines, is exactly the sequence of encoded responses |
| Cli.TranscribeAudio | transcribe.py:14-55 | a returned text is stripped and nothing was written to standard error |
| Cli.UsageWithoutAudioPath | transcribe.py:59-61 | without an audio path, usage goes to standard error and the exit status is 1 |
| Cli.ArgumentDefaults | transcribe.py:64-65 | an absent model means "base" and an absent language means "auto" |
| Cli.ExtraArgumentsIgnored | transcribe.py:63-65 | arguments after the language change nothing |
| Cli.ExitPolicy | transcribe.py:68-74 | exit 0 with the text and a newline exactly when the model loads, inference does not raise and the text is non-empty; otherwise exit 1 with empty standard output |
| Cli.OutputIsTrimmedTextAndNewline | transcribe.py:70-72 | on success standard output is a non-empty stripped text followed by one newline (the text may contain inner newlines) |
| Hotkey.FiresOnlyOnRisingEdge | Sources/HotkeyManager.swift:59-79 | the callback fires only on a not-pressed to pressed edge; any other event only records the flag |
| Hotkey.FiresIff | Sources/HotkeyManager.swift:62-64 | on a rising edge it fires iff a first tap is waiting and less than 0.4 s have passed since it |
| Hotkey.FiringStartsNewPair | Sources/HotkeyManager.swift:65-66 | after firing, waiting is cleared and the last press is reset to -999 s, so the next rising edge, after any releases and delayed resets, does not fire |
| Hotkey.IdleWithoutRisingEdge | Sources/HotkeyManager.swift:52-80 | a trace with no rising edge never starts waiting from an idle detector |
| Hotkey.FirstTapRecorded | Sources/HotkeyManager.swift:67-70 | a rising edge that does not fire starts waiting and records the current time |
| Hotkey.FirstPressNeverFires | Sources/HotkeyManager.swift:10-13 | from the initial state the first press never fires and becomes the first tap |
| Hotkey.PressedTracksFlag | Sources/HotkeyManager.swift:73-79 | the pressed flag is that of the latest event; the delayed reset clears only the waiting flag |
| Hotkey.TwoTapsPerCallback | Sources/HotkeyManager.swift:52-80 | over any trace, twice the callbacks plus a waiting tap never exceed the rising edges |
| Hotkey.AtMostHalfTheTapsFire | Sources/HotkeyManager.swift:52-80 | from the initial state at most one callback per two Control presses |
| Hotkey.HotkeyManager.constructor | Sources/HotkeyManager.swift:10-13 | the fields start at not pressed, not waiting, -999 s |
| Hotkey.HotkeyManager.HandleEvent | Sources/HotkeyManager.swift:52-80 | the new fields and whether the callback ran are those of `React` |
| Hotkey.HotkeyManager.ResetWaiting | Sources/HotkeyManager.swift:73-75 | the delayed block clears the waiting flag and nothing else |
| Waveform.Clamp01 | Sources/LiquidGlassScrollingWaveformView.swift:34 | the stored sample lies in [0, 1] and equals the level when the level is already there |
| Waveform.BarHeight | Sources/LiquidGlassScrollingWaveformView.swift:43 | bar heights lie in [8, 40], with 8 exactly for silence and 40 exactly for full scale |
| Waveform.BarHeightMonotone | Sources/LiquidGlassScrollingWaveformView.swift:43 | a louder sample never has a shorter bar |
| Waveform.PushFifo | Sources/LiquidGlassScrollingWaveformView.swift:37-61 | at most 40 entries, the newest last, and the oldest dropped only when the buffer was full |
| Waveform.FeedKeepsMostRecent | Sources/LiquidGlassScrollingWaveformView.swift:32-62 | after any sequence of samples the buffer holds the 40 most recent clamped samples, oldest first |
| Waveform.AfterReset | Sources/LiquidGlassScrollingWaveformView.swift:93-100 | after a reset the buffer holds the last 40 clamped samples fed since then |
| Waveform.Scrolled | Sources/LiquidGlassScrollingWaveformView.swift:71-91 | scrolling moves every bar left by one pitch (4 points) and changes nothing else |
| Waveform.LayoutOrder | Sources/LiquidGlassScrollingWaveformView.swift:106-114 | laid-out bars are one pitch apart, in order; the first starts n pitches and the last exactly one pitch from the right edge; each keeps its height, vertically centred |
| Waveform.NewBarGapAfterLayout | Sources/LiquidGlassScrollingWaveformView.swift:48-114 | after `layout`, the next `addSample` places the new bar 6 points after its neighbour instead of the usual 4, since it puts the bar at width - 2 while `layout` ends at width - 4 |
| Waveform.ScrollingWaveformView.constructor | Sources/LiquidGlassScrollingWaveformView.swift:5-6 | no samples and no bars |
| Waveform.ScrollingWaveformView.AddSample | Sources/LiquidGlassScrollingWaveformView.swift:32-62 | samples and bars are pushed in lock-step, the new bar at the right edge and the old bars scrolled; one bar per sample, at most 40, heights matching samples |
| Waveform.ScrollingWaveformView.Reset | Sources/LiquidGlassScrollingWaveformView.swift:93-100 | both sequences are emptied |
| Waveform.ScrollingWaveformView.Layout | Sources/LiquidGlassScrollingWaveformView.swift:102-115 | bar i of n moves to x = width - (n - i)·4, vertically centred, keeping its height |
| Keyboard.Lowercased | Sources/TextInserter.swift:53 | lower-casing gives a table letter exactly for ASCII letters and the Kelvin sign, and the space stays the space |
| Keyboard.CharMapKeys | Sources/TextInserter.swift:45-52 | the table's keys are exactly a-z and the space |
| Keyboard.KeyCodeDefined | Sources/TextInserter.swift:43-54 | a key code exists exactly for letters of either case, the space and the Kelvin sign |
| Keyboard.CaseInsensitive | Sources/TextInserter.swift:53 | an upper-case letter has a code, the same as its lower-case letter's |
| Keyboard.VIsPasteKey | Sources/TextInserter.swift:50-53 | 'v' and 'V' map to 0x09, the key pressed with Command to paste |
| Keyboard.CharFor | Sources/TextInserter.swift:45-52 | the inverse table: each code it knows maps back to the entry that has it |
| Keyboard.CodesDistinct | Sources/TextInserter.swift:45-52 | the 27 entries have pairwise distinct codes |
| Keyboard.SameKeySameLetter | Sources/TextInserter.swift:43-54 | two mappable characters type the same key iff they are the same letter up to case |
| Keyboard.TypedAppend | Sources/TextInserter.swift:29-41 | typing two texts one after the other posts the two event sequences concatenated |
| Keyboard.TypedPairs | Sources/TextInserter.swift:29-41 | event 2i is the key-down and event 2i+1 the key-up of the i-th mappable character; nothing else is posted |
| Keyboard.CodesOfTableText | Sources/TextInserter.swift:29-41 | text made only of mappable characters types one key per character |
| Keyboard.TypeText | Sources/TextInserter.swift:29-41 | the loop posts exactly `Typed(text)` |
| Settings.StringForUpdates | Sources/AudioRecorder.swift:42-53 | a written key reads back as the value written, a removed key reads back as nil, and every other key reads as before |
| Settings.UserDefaults.constructor | Sources/TranscriptionEngine.swift:7 | the store starts with the given contents |
| Settings.UserDefaults.Set | Sources/TranscriptionEngine.swift:10 | the key now holds the value and every other key is unchanged |
| Settings.UserDefaults.Remove | Sources/AudioRecorder.swift:45 | the key is gone and every other key is unchanged |
| Engine.LanguageSetting | Sources/TranscriptionEngine.swift:5-12 | the language is the stored value, "auto" when none is stored, and reads back whatever was last set |
| Engine.UpPrefix | Sources/TranscriptionEngine.swift:103-112 | climbing k levels drops the last k path components, and stays at the root once there |
| Engine.SearchNone | Sources/TranscriptionEngine.swift:106-112 | the bounded walk finds nothing iff none of the directories it visits holds `transcribe.py` |
| Engine.SearchNearest | Sources/TranscriptionEngine.swift:106-112 | a found directory is the nearest ancestor, within the bound, holding `transcribe.py` |
| Engine.ProjectPathChoice | Sources/TranscriptionEngine.swift:98-123 | a result holds the script; when one of the 5 candidates holds it, the result is the search's, the nearest of them; only when none does is the current directory tried, and otherwise nil |
| Engine.FindProjectPath | Sources/TranscriptionEngine.swift:98-123 | the loop returns `ProjectPath` |
| Engine.LaunchFor | Sources/TranscriptionEngine.swift:36-52 | with a venv interpreter the launch is as written |
| Engine.FallbackAsWrittenNeverRuns | Sources/TranscriptionEngine.swift:41-51 | as written, without a venv the executable is a file named "env python3" in /usr/bin, which does not exist, so the run fails |
| Engine.FallbackRunsScript | Sources/TranscriptionEngine.swift:41-52 | corrected: /usr/bin/env runs "python3" with the script's argument vector; with a venv, the venv interpreter runs it directly |
| Engine.ArgumentsReachScript | Sources/TranscriptionEngine.swift:52 | the arguments are script, audio path, "medium", language in that order; the script reads exactly these, and anything appended after them changes nothing |
| Engine.InterpretPadded | Sources/TranscriptionEngine.swift:78-90 | a trimmed text padded by whitespace is delivered iff the status is 0 and it is non-empty |
| Engine.InterpretNonEmpty | Sources/TranscriptionEngine.swift:78-90 | a text is delivered iff the status is 0 and the output is not all whitespace, and it is then non-empty and trimmed |
| Engine.PythonTrimmedIsFoundationTrimmed | Sources/TranscriptionEngine.swift:79 | text stripped by Python is already trimmed for Foundation |
| Engine.ScriptResultDelivered | Sources/TranscriptionEngine.swift:78-90 | what the script prints on success reaches the completion without its newline; a failing exit gives nil |
| Engine.PrintedTextDelivered | Sources/TranscriptionEngine.swift:79-82 | a non-empty stripped text printed with its newline is delivered as that text |
| Engine.OutcomeDelivered | Sources/TranscriptionEngine.swift:18-96 | a delivered text is non-empty and trimmed, from a found project and the as-written launch exiting with status 0 |
| Engine.NoVenvNoTranscript | Sources/TranscriptionEngine.swift:36-62 | as written, when the project has no `venv/bin/python3` the completion always gets nil |
| Engine.CorrectedFallbackDelivers | Sources/TranscriptionEngine.swift:41-90 | corrected: with a venv nothing changes; without one the line the script prints through `/usr/bin/env python3` reaches the completion as the transcript |
| Engine.TranscriptionEngine.constructor | Sources/TranscriptionEngine.swift:3-4 | the engine uses the given settings store |
| Engine.TranscriptionEngine.SetLanguage | Sources/TranscriptionEngine.swift:14-16 | stores the language under "transcriptionLanguage", changes no other key, and reads back as set |
| Engine.TranscriptionEngine.Transcribe | Sources/TranscriptionEngine.swift:18-96 | the completion is called exactly once, with `Outcome` (the launch as written), on every path |
| Recorder.StoredSelection | Sources/AudioRecorder.swift:42-46 | setting the microphone touches only the "selectedMicrophoneID" key |
| Recorder.SelectionRoundTrip | Sources/AudioRecorder.swift:40-54 | after `setMicrophone(id)` the getter returns `id`, and nil after clearing |
| Recorder.SelectionPersists | Sources/AudioRecorder.swift:43-53 | with the field unset, the getter still returns the device last set, through the store |
| Recorder.RecordingUrl | Sources/AudioRecorder.swift:174-175 | each recording file lies in the temporary directory and is named UUID + ".wav" |
| Recorder.RecordingUrlsDistinct | Sources/AudioRecorder.swift:175 | different UUIDs give different files |
| Recorder.NormalizedLevel | Sources/AudioRecorder.swift:222 | the level lies in [0, 1]: 0 at -50 dB and below, 1 at 0 dB and above, linear between |
| Recorder.NormalizedLevelMonotone | Sources/AudioRecorder.swift:222 | a louder reading never gives a lower level |
| Recorder.AudioRecorder.constructor | Sources/AudioRecorder.swift:13-17 | the first recorder is prepared at once, for a fresh URL, and bound to it when creation succeeds |
| Recorder.AudioRecorder.SetMicrophone | Sources/AudioRecorder.swift:40-47 | the field and the stored key follow the argument, and the getter returns it |
| Recorder.AudioRecorder.PrepareNextRecorder | Sources/AudioRecorder.swift:165-195 | a new URL always; a new idle recorder bound to it if creation succeeds, else the old recorder stays |
| Recorder.AudioRecorder.StartRecording | Sources/AudioRecorder.swift:56-75 | true iff a recorder exists after at most one re-prepare; on success it is recording and the level timer runs; a recorder bound to `recordingURL` stays bound |
| Recorder.AudioRecorder.StopRecording | Sources/AudioRecorder.swift:154-163 | hands over `recordingURL` as it was before the next recorder is prepared, which is the stopped recorder's file while the recorder is bound; the timer is stopped, and a successful creation binds the next recorder |
| Recorder.StaleRecorderTrace | Sources/AudioRecorder.swift:154-195 | after one failed creation, the next recording goes into the previous file while the URL handed over names another |
| Recorder.AudioRecorder.UpdateAudioLevel | Sources/AudioRecorder.swift:211-226 | a level is reported only while the recorder is recording, and it is the normalised power |
| Overlay.ViewFor | Sources/RecordingFloatingWindow.swift:229-243 | each state has its own content view |
| Overlay.TruncateToInt | Sources/RecordingFloatingWindow.swift:220-221 | Swift's `Int(duration)` drops the fraction, rounding toward zero |
| Overlay.QuotRem | Sources/RecordingFloatingWindow.swift:220-221 | Swift's `/` and `%`: quotient times divisor plus remainder is the dividend, and the remainder has the dividend's sign |
| Overlay.Pad2 | Sources/RecordingFloatingWindow.swift:222 | `%02d` of 0..99 is two digits |
| Overlay.Pad2Value | Sources/RecordingFloatingWindow.swift:222 | those two digits read back as the number |
| Overlay.TimerTextRoundTrip | Sources/RecordingFloatingWindow.swift:219-222 | for a non-negative duration the label parses back as m:ss with ss < 60 and 60·m + ss = ⌊duration⌋ |
| Overlay.ZeroDurationIsReset | Sources/RecordingFloatingWindow.swift:225-227 | a zero duration shows "0:00", the reset text |
| Overlay.RecordingFloatingWindow.constructor | Sources/RecordingFloatingWindow.swift:13-49 | starts hidden, recording, showing the recording view and "0:00" with an empty waveform |
| Overlay.RecordingFloatingWindow.Show | Sources/RecordingFloatingWindow.swift:144-188 | always ends recording, on the recording view, at "0:00", with the waveform emptied and the window visible |
| Overlay.RecordingFloatingWindow.Hide | Sources/RecordingFloatingWindow.swift:190-201 | the window is no longer visible |
| Overlay.RecordingFloatingWindow.UpdateAudioLevel | Sources/RecordingFloatingWindow.swift:203-217 | a level reaches the waveform only in the recording state, which pushes the clamped sample and, in lock-step, its bar at the right edge after scrolling the old bars; otherwise nothing changes |
| Overlay.RecordingFloatingWindow.UpdateDuration | Sources/RecordingFloatingWindow.swift:219-223 | the label becomes `TimerText(duration)` |
| Overlay.RecordingFloatingWindow.ResetTimer | Sources/RecordingFloatingWindow.swift:225-227 | the label becomes "0:00" |
| Overlay.RecordingFloatingWindow.ShowProcessing | Sources/RecordingFloatingWindow.swift:229-232 | the state becomes processing, on its view, with one swap unless that view was already shown |
| Overlay.RecordingFloatingWindow.ShowError | Sources/RecordingFloatingWindow.swift:234-238 | the state becomes error, on its view, showing the message |
| Overlay.RecordingFloatingWindow.ShowRecording | Sources/RecordingFloatingWindow.swift:240-243 | the state becomes recording, on its view |
| Overlay.RecordingFloatingWindow.TransitionToView | Sources/RecordingFloatingWindow.swift:245-278 | a no-op when the target is already shown; otherwise exactly one swap from the old view to the new one |

## Left out

- The worker's exits outside the request loop: an exception escaping the stdin loop (undecodable UTF-8 on standard input, a broken standard output pipe) ends it with exit status 1 after an error note on standard error, and KeyboardInterrupt ends it normally after an info note there. `Daemon.TranscriptionDaemon.Serve` and `Daemon.Run` model only reading decoded lines until the input ends or shutdown is acknowledged.
- Logging, the `info`/`ready` JSON diagnostics on the worker's standard error, and timing: they do not affect any result.
- JSON parsing (`json.loads`): it is the opaque `Env.decode`. Request members that are not strings are not modelled.
- `json.dumps` of non-string values: every response member is a string.
- The speech model: pywhispercpp is the `Backend` oracle. Its stderr output and thread count are not modelled.
- Process spawning, pipes and `String(data:encoding:)`: a `Runner` returns the exit status and the decoded output.
- Concurrency: `DispatchQueue` hops, `Task { @MainActor }`, timers and `asyncAfter` are not modelled. The hotkey's delayed reset is the explicit method `ResetWaiting`.
- The overlay's animations: a view swap completes at once. The fade of the old view and the deferred `currentContentView` update are not modelled.
- Window placement, sizes and colours, and the microphone view's level display.
- `AudioRecorder.getAvailableMicrophones` and `setDefaultInputDevice`: CoreAudio device enumeration with no state of the model's own.
- The recorder's audio settings, `record()`, `stop()` and metering: a recorder is its file URL and a recording flag.
- Floating point: levels, heights and geometry are exact reals, and times are integers.
  - Hotkey.React: times are whole milliseconds, not `TimeInterval` seconds (-999 s is -999000 ms, the 0.4 s threshold is 400 ms).
  - Waveform: CGFloat rounding and NaN are not modelled.
- Keyboard.Lowercased, Keyboard.TypeText: the model treats each Unicode scalar as a `Character`, whereas Swift iterates extended grapheme clusters. So for "e" followed by U+0301 COMBINING ACUTE ACCENT the source sees one `Character` that is no table key and types nothing, while `Keyboard.TypeText` types 'e'. Only the characters whose lower-case form is a table key are distinguished. These are ASCII capitals and U+212A KELVIN SIGN, which lower-cases to 'k'. So `keyCodeForCharacter` is defined for the Kelvin sign as well as for letters and space.
- Engine.Parent: paths are component sequences. The parent of the root is the root: `deletingLastPathComponent` on "/" gives "/../", which names the same directory, though not the same string. Symbolic links and relative paths are not modelled.
- Recorder.AudioRecorder.StopRecording: the URL handed over is the stopped recorder's file only while the recorder is bound to `recordingURL`. After a failed creation the source keeps the old recorder but replaces `recordingURL`, so the next recording goes into the old file while the new, never-written one is handed over; the model keeps this behaviour (`Recorder.StaleRecorderTrace`).
- Settings.UserDefaults: only string values are modelled. `string(forKey:)` on a non-string value is not.
- Overlay.TimerText: durations beyond the range of `Int`, where Swift traps, are not modelled. Negative durations follow Swift's truncating `/` and `%`.

## Findings

| source | as written | input that shows it | evidently intended | confidence | as-written member | corrected member |
|---|---|---|---|---|---|---|
| Sources/TranscriptionEngine.swift:41-51 | the fallback interpreter "/usr/bin/env python3" is passed to `URL(fileURLWithPath:)` as one path, so the executable is a file named "env python3" in /usr/bin | a project without `venv/bin/python3` | run `/usr/bin/env` with "python3" as its first argument, before the script's arguments | not executed | Engine.FallbackAsWrittenNeverRuns | Engine.FallbackRunsScript |

The as-written launch is `Engine.LaunchAsWritten`, and `Engine.Outcome` and `Engine.TranscriptionEngine.Transcribe` use it, as the source does; `Engine.NoVenvNoTranscript` shows that without a venv they never deliver a transcript. `Engine.LaunchFor` is the corrected launch, and `Engine.CorrectedOutcome` uses it; `Engine.CorrectedFallbackDelivers` proves that the correction changes nothing where a venv exists and delivers the script's line where none does.
