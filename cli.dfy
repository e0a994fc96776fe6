/**
 * The one-shot transcriber (transcribe.py): reads the audio path, model and
 * language from its arguments, prints the transcript on standard output and
 * reports failure through its exit status.  A run is a function of the
 * argument vector and the speech library; its observable result is the exit
 * status and what was written to the two output streams.
 */
module Cli {
  import opened Wrappers
  import opened Text
  import opened Whisper

  /** What the process leaves behind. */
  datatype Exit = Exit(code: int, stdout: string, stderr: string)

  const Usage: string := "Usage: transcribe.py <audio_file_path> [model_name] [language]"
  const DefaultModel: string := "base"
  const DefaultLanguage: string := "auto"

  /** What `transcribe_audio` returns, and what it wrote to standard error. */
  datatype Attempt = Attempt(text: Option<string>, stderr: string)

  /**
   * `transcribe_audio(path, model_name, language)`: constructing the model or
   * transcribing may raise; the exception is reported and the result is None.
   */
  function TranscribeAudio(path: string, modelName: string, language: string, b: Backend): (a: Attempt)
    ensures a.text.Some? ==> Trimmed(Python, a.text.value) && a.stderr == ""
  {
    match b.loadError(modelName)
    case Some(e) => Attempt(None, "Error during transcription: " + e + "\n")
    case None =>
      match b.infer(modelName, path, LangParam(language))
      case Raised(e) => Attempt(None, "Error during transcription: " + e + "\n")
      case Segments(segs) => Attempt(Some(Transcript(segs)), "")
  }

  /** `main()` run with `sys.argv == argv` (the script name first). */
  function Main(argv: seq<string>, b: Backend): Exit {
    if |argv| < 2 then Exit(1, "", Usage + "\n")
    else
      var audioFile := argv[1];
      var modelName := if |argv| > 2 then argv[2] else DefaultModel;
      var language := if |argv| > 3 then argv[3] else DefaultLanguage;
      var a := TranscribeAudio(audioFile, modelName, language, b);
      if a.text.Some? && a.text.value != "" then Exit(0, a.text.value + "\n", a.stderr)
      else Exit(1, "", a.stderr)
  }

  /** Without an audio path the script prints its usage line to standard error and exits 1. */
  lemma UsageWithoutAudioPath(argv: seq<string>, b: Backend)
    requires |argv| < 2
    ensures Main(argv, b) == Exit(1, "", Usage + "\n")
  {
  }

  /** A missing model means "base" and a missing language means "auto"; arguments after the language are ignored. */
  lemma ArgumentDefaults(script: string, audio: string, b: Backend)
    ensures Main([script, audio], b) == Main([script, audio, "base"], b)
    ensures Main([script, audio, "base"], b) == Main([script, audio, "base", "auto"], b)
  {
  }

  lemma ExtraArgumentsIgnored(argv: seq<string>, extra: seq<string>, b: Backend)
    requires |argv| >= 4
    ensures Main(argv + extra, b) == Main(argv, b)
  {
    assert (argv + extra)[1] == argv[1] && (argv + extra)[2] == argv[2] && (argv + extra)[3] == argv[3];
  }

  /**
   * The exit policy: status 0 with the transcript and a newline on standard
   * output exactly when the model loaded, transcription did not raise and the
   * joined, stripped text is non-empty; otherwise status 1 and nothing on
   * standard output.
   */
  lemma ExitPolicy(argv: seq<string>, b: Backend)
    requires |argv| >= 2
    ensures var e := Main(argv, b);
            var modelName := if |argv| > 2 then argv[2] else DefaultModel;
            var language := if |argv| > 3 then argv[3] else DefaultLanguage;
            var inferred := b.infer(modelName, argv[1], LangParam(language));
            && (e.code == 0 || e.code == 1)
            && (e.code == 0 <==> e.stdout != "")
            && (e.code == 0 <==> b.loadError(modelName).None? && inferred.Segments?
                                 && Transcript(inferred.segments) != "")
            && (e.code == 0 ==> e.stdout == Transcript(inferred.segments) + "\n" && e.stderr == "")
            && (b.loadError(modelName).Some? ==>
                  e == Exit(1, "", "Error during transcription: " + b.loadError(modelName).value + "\n"))
  {
    var e := Main(argv, b);
    if e.code == 0 {
      assert e.stdout[|e.stdout| - 1] == '\n';
    }
  }

  /**
   * What the script prints on success is a non-empty, stripped text followed
   * by one newline; the text may hold inner newlines, since `strip()` trims
   * only its ends.
   */
  lemma OutputIsTrimmedTextAndNewline(argv: seq<string>, b: Backend)
    ensures var e := Main(argv, b);
            e.code == 0 ==> exists t :: e.stdout == t + "\n" && t != "" && Trimmed(Python, t)
  {
    var e := Main(argv, b);
    if e.code == 0 {
      var a := TranscribeAudio(argv[1], if |argv| > 2 then argv[2] else DefaultModel,
                               if |argv| > 3 then argv[3] else DefaultLanguage, b);
      assert e.stdout == a.text.value + "\n";
    }
  }
}
