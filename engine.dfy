/**
 * The one-shot transcription driver (TranscriptionEngine): it finds the
 * directory holding `transcribe.py`, picks an interpreter, runs the script
 * on the recording and turns the exit status and output into the value it
 * hands its completion.  The file system is the set of paths that exist;
 * starting the process is an oracle that either fails to launch or yields an
 * exit status and the decoded standard output.
 */
module Engine {
  import opened Wrappers
  import opened Text
  import Settings
  import Cli
  import Whisper

  /** An absolute file path, as its components below "/". */
  type Path = seq<string>

  const ModelName: string := "medium"
  const LanguageKey: string := "transcriptionLanguage"
  const DefaultLanguage: string := "auto"
  const ScriptName: string := "transcribe.py"

  /** How many directories the search climbs through, the executable's own included. */
  const SearchDepth: nat := 5

  /** `URL.path` of an absolute path. */
  function PathString(p: Path): string { "/" + Join(p, "/") }

  /** `deletingLastPathComponent()`: "/" is its own parent as far as the file system goes. */
  function Parent(p: Path): (r: Path)
    ensures p != [] ==> |r| == |p| - 1 && r == p[..|p| - 1]
    ensures p == [] ==> r == []
  {
    if p == [] then [] else p[..|p| - 1]
  }

  /** The directory `k` levels above `p`. */
  function Up(p: Path, k: nat): Path
    decreases k
  {
    if k == 0 then p else Up(Parent(p), k - 1)
  }

  /**
   * Climbing `k` levels drops the last `k` components, and once the root is
   * reached further climbing stays there.
   */
  lemma {:induction false} UpPrefix(p: Path, k: nat)
    ensures k <= |p| ==> Up(p, k) == p[..|p| - k]
    ensures k >= |p| ==> Up(p, k) == []
    decreases k
  {
    if k > 0 {
      UpPrefix(Parent(p), k - 1);
      if p != [] && k <= |p| {
        assert Parent(p)[..|Parent(p)| - (k - 1)] == p[..|p| - k];
      }
    }
  }

  function Script(dir: Path): Path { dir + [ScriptName] }
  function Venv(dir: Path): Path { dir + ["venv", "bin", "python3"] }

  predicate HasScript(files: set<Path>, dir: Path) { Script(dir) in files }

  // ----- The language setting -----

  /** The `language` getter on a settings snapshot. */
  function LanguageIn(store: map<string, string>): string {
    Settings.StringFor(store, LanguageKey).GetOr(DefaultLanguage)
  }

  /** The getter reads the stored language, "auto" when none is stored, and returns what the setter stored. */
  lemma LanguageSetting(store: map<string, string>, lang: string)
    ensures LanguageKey !in store ==> LanguageIn(store) == "auto"
    ensures LanguageKey in store ==> LanguageIn(store) == store[LanguageKey]
    ensures LanguageIn(store[LanguageKey := lang]) == lang
  {
  }

  // ----- Finding the project directory -----

  /** The first of `n` directories, starting at `dir` and climbing, that holds the script. */
  function Search(dir: Path, files: set<Path>, n: nat): Option<Path>
    decreases n
  {
    if n == 0 then None
    else if HasScript(files, dir) then Some(dir)
    else Search(Parent(dir), files, n - 1)
  }

  /** `findProjectPath()`: the executable's directory and its ancestors, then the current directory. */
  function ProjectPath(executable: Option<Path>, cwd: Path, files: set<Path>): Option<Path> {
    var found := if executable.Some? then Search(Parent(executable.value), files, SearchDepth) else None;
    if found.Some? then found
    else if HasScript(files, cwd) then Some(cwd)
    else None
  }

  lemma UpStep(dir: Path, j: nat)
    requires j >= 1
    ensures Up(dir, j) == Up(Parent(dir), j - 1)
  {
  }

  /** The search comes back empty exactly when none of the `n` candidates holds the script. */
  lemma {:induction false} SearchNone(dir: Path, files: set<Path>, n: nat)
    ensures Search(dir, files, n).None? ==> forall j: nat :: j < n ==> !HasScript(files, Up(dir, j))
    ensures (forall j: nat :: j < n ==> !HasScript(files, Up(dir, j))) ==> Search(dir, files, n).None?
    decreases n
  {
    if n > 0 {
      assert Up(dir, 0) == dir;
      if !HasScript(files, dir) {
        var up := Parent(dir);
        SearchNone(up, files, n - 1);
        if Search(dir, files, n).None? {
          forall j: nat | j < n ensures !HasScript(files, Up(dir, j)) {
            if j > 0 {
              UpStep(dir, j);
              assert !HasScript(files, Up(up, j - 1));
            }
          }
        } else {
          var j: nat :| j < n - 1 && HasScript(files, Up(up, j));
          UpStep(dir, j + 1);
          assert HasScript(files, Up(dir, j + 1));
        }
      } else {
        assert HasScript(files, Up(dir, 0));
      }
    }
  }

  /** `Up(dir, j)` is the nearest directory from `dir` upwards that holds the script. */
  predicate IsNearest(files: set<Path>, dir: Path, j: nat) {
    HasScript(files, Up(dir, j)) && forall k :: 0 <= k < j ==> !HasScript(files, Up(dir, k))
  }

  /** A search that answers gives the nearest candidate holding the script. */
  lemma {:induction false} SearchNearest(dir: Path, files: set<Path>, n: nat)
    ensures Search(dir, files, n).Some? ==>
              exists j: nat :: j < n && Search(dir, files, n).value == Up(dir, j) && IsNearest(files, dir, j)
    decreases n
  {
    var r := Search(dir, files, n);
    if n > 0 {
      assert Up(dir, 0) == dir;
      if HasScript(files, dir) {
        assert IsNearest(files, dir, 0);
      } else if r.Some? {
        var up := Parent(dir);
        SearchNearest(up, files, n - 1);
        var j: nat :| j < n - 1 && r.value == Up(up, j) && IsNearest(files, up, j);
        UpStep(dir, j + 1);
        forall k | 1 <= k < j + 1 ensures !HasScript(files, Up(dir, k)) {
          UpStep(dir, k);
        }
        assert IsNearest(files, dir, j + 1);
      }
    }
  }

  /**
   * The project directory holds the script; it is the nearest of the five
   * candidates from the executable upwards when one matches, and otherwise the
   * current directory if that holds the script, and nothing if not.
   */
  lemma ProjectPathChoice(executable: Option<Path>, cwd: Path, files: set<Path>)
    ensures var r := ProjectPath(executable, cwd, files);
            && (r.Some? ==> HasScript(files, r.value))
            && (executable.Some? && r.Some? && r.value != cwd ==>
                  exists j: nat :: j < SearchDepth && r.value == Up(Parent(executable.value), j)
                                   && IsNearest(files, Parent(executable.value), j))
            && (executable.Some?
                && (exists j: nat :: j < SearchDepth && HasScript(files, Up(Parent(executable.value), j)))
                ==> r.Some? && r == Search(Parent(executable.value), files, SearchDepth))
            && ((executable.None?
                 || forall j: nat :: j < SearchDepth ==> !HasScript(files, Up(Parent(executable.value), j)))
                ==> r == (if HasScript(files, cwd) then Some(cwd) else None))
  {
    if executable.Some? {
      SearchNone(Parent(executable.value), files, SearchDepth);
      SearchNearest(Parent(executable.value), files, SearchDepth);
    }
  }

  /** The loop of `findProjectPath`, climbing one directory per iteration. */
  method FindProjectPath(executable: Option<Path>, cwd: Path, files: set<Path>) returns (r: Option<Path>)
    ensures r == ProjectPath(executable, cwd, files)
  {
    if executable.Some? {
      var currentPath := Parent(executable.value);
      for i := 0 to SearchDepth
        invariant Search(Parent(executable.value), files, SearchDepth) == Search(currentPath, files, SearchDepth - i)
      {
        if Script(currentPath) in files {
          return Some(currentPath);
        }
        currentPath := Parent(currentPath);
      }
    }
    if Script(cwd) in files {
      return Some(cwd);
    }
    return None;
  }

  // ----- Launching the script -----

  /** What `Process` is configured with. */
  datatype Launch = Launch(executable: Path, arguments: seq<string>)

  /** `process.arguments`: the script, the audio path, the model and the language, in that order. */
  function ScriptArguments(project: Path, audioPath: string, language: string): seq<string> {
    [PathString(Script(project)), audioPath, ModelName, language]
  }

  /** The fallback interpreter string, turned into a file path by `URL(fileURLWithPath:)`. */
  const EnvPython: Path := ["usr", "bin", "env python3"]
  const EnvTool: Path := ["usr", "bin", "env"]

  /** The launch as written: the venv interpreter if present, else a file named "env python3". */
  function LaunchAsWritten(project: Path, audioPath: string, language: string, files: set<Path>): Launch {
    var python := if Venv(project) in files then Venv(project) else EnvPython;
    Launch(python, ScriptArguments(project, audioPath, language))
  }

  /** The launch the fallback intends: `/usr/bin/env` looking up `python3`, then the same arguments. */
  function LaunchFor(project: Path, audioPath: string, language: string, files: set<Path>): (l: Launch)
    ensures Venv(project) in files ==> l == LaunchAsWritten(project, audioPath, language, files)
  {
    if Venv(project) in files then Launch(Venv(project), ScriptArguments(project, audioPath, language))
    else Launch(EnvTool, ["python3"] + ScriptArguments(project, audioPath, language))
  }

  /** Starting a process: None when `process.run()` throws, else the exit status and the decoded standard output. */
  type Runner = Launch -> Option<(int, string)>

  /** A process can only start from an executable file that exists. */
  ghost predicate RespectsFiles(run: Runner, files: set<Path>) {
    forall l :: run(l).Some? ==> l.executable in files
  }

  /**
   * As written, without a venv the launch names a file "/usr/bin/env python3",
   * which does not exist, so `process.run()` throws and the completion gets nil
   * whatever the script would have printed.
   */
  lemma FallbackAsWrittenNeverRuns(project: Path, audioPath: string, language: string,
                                   files: set<Path>, run: Runner)
    requires Venv(project) !in files && EnvPython !in files
    requires RespectsFiles(run, files)
    ensures run(LaunchAsWritten(project, audioPath, language, files)).None?
  {
  }

  /**
   * With the fallback corrected, `/usr/bin/env` is started with "python3"
   * first, so the script sees exactly the argument vector the venv launch gives it.
   */
  lemma FallbackRunsScript(project: Path, audioPath: string, language: string, files: set<Path>)
    ensures var l := LaunchFor(project, audioPath, language, files);
            && (Venv(project) in files ==>
                  l.executable == Venv(project) && l.arguments == ScriptArguments(project, audioPath, language))
            && (Venv(project) !in files ==>
                  && l.executable == EnvTool && l.arguments[0] == "python3"
                  && l.arguments[1..] == ScriptArguments(project, audioPath, language))
  {
  }

  /**
   * The script reads the audio path, the model and the language from the
   * arguments it is given; none of its defaults applies, and nothing appended
   * after them would change what it does.
   */
  lemma ArgumentsReachScript(project: Path, audioPath: string, language: string, b: Whisper.Backend)
    ensures var argv := ScriptArguments(project, audioPath, language);
            |argv| == 4 && argv[1] == audioPath && argv[2] == ModelName && argv[3] == language
            && forall extra :: Cli.Main(argv + extra, b) == Cli.Main(argv, b)
  {
    var argv := ScriptArguments(project, audioPath, language);
    forall extra
      ensures Cli.Main(argv + extra, b) == Cli.Main(argv, b)
    {
      Cli.ExtraArgumentsIgnored(argv, extra, b);
    }
  }

  // ----- Interpreting the result -----

  /** The value handed to the completion for an exit status and standard output. */
  function Interpret(status: int, output: string): Option<string> {
    if status == 0 then
      var transcription := Strip(Foundation, output);
      if transcription != [] then Some(transcription) else None
    else None
  }

  /**
   * The completion gets a text exactly when the status is 0 and the output is
   * not all whitespace, and then it is the output with surrounding whitespace
   * removed: a trimmed text between whitespace comes back unchanged.
   */
  lemma InterpretPadded(status: int, pre: string, t: string, post: string)
    requires AllSpace(Foundation, pre) && AllSpace(Foundation, post) && Trimmed(Foundation, t)
    ensures Interpret(status, pre + t + post) == if status == 0 && t != [] then Some(t) else None
  {
    StripPadded(Foundation, pre, t, post);
  }

  lemma InterpretNonEmpty(status: int, output: string)
    ensures var r := Interpret(status, output);
            && (r.Some? <==> status == 0 && !AllSpace(Foundation, output))
            && (r.Some? ==> r.value != [] && Trimmed(Foundation, r.value))
  {
    StripSlice(Foundation, output);
  }

  /** A text Python's `strip()` left trimmed is also trimmed for Foundation. */
  lemma PythonTrimmedIsFoundationTrimmed(t: string)
    requires Trimmed(Python, t)
    ensures Trimmed(Foundation, t)
  {
    if t != [] {
      FoundationSpaceIsPythonSpace(t[0]);
      FoundationSpaceIsPythonSpace(t[|t| - 1]);
    }
  }

  /**
   * End to end: whatever the script prints on success reaches the completion
   * as the transcript without its newline, and a failing exit gives nil.
   */
  lemma ScriptResultDelivered(argv: seq<string>, b: Whisper.Backend)
    ensures var e := Cli.Main(argv, b);
            e.code == 0 ==> |e.stdout| >= 1 && Interpret(e.code, e.stdout) == Some(e.stdout[..|e.stdout| - 1])
    ensures var e := Cli.Main(argv, b);
            e.code != 0 ==> Interpret(e.code, e.stdout) == None
  {
    var e := Cli.Main(argv, b);
    Cli.OutputIsTrimmedTextAndNewline(argv, b);
    if e.code == 0 {
      var t :| e.stdout == t + "\n" && t != "" && Trimmed(Python, t);
      PrintedTextDelivered(t);
      assert e.stdout[..|e.stdout| - 1] == t;
    }
  }

  /** A non-empty stripped text printed with its newline, read back by the engine, is that text. */
  lemma PrintedTextDelivered(t: string)
    requires t != "" && Trimmed(Python, t)
    ensures Interpret(0, t + "\n") == Some(t)
  {
    PythonTrimmedIsFoundationTrimmed(t);
    assert AllSpace(Foundation, "\n");
    InterpretPadded(0, [], t, "\n");
    assert [] + t + "\n" == t + "\n";
  }

  /** What the completion receives for one `transcribe` call, with the launch as written. */
  function Outcome(executable: Option<Path>, cwd: Path, files: set<Path>, audioPath: string,
                   language: string, run: Runner): Option<string>
  {
    match ProjectPath(executable, cwd, files)
    case None => None
    case Some(project) =>
      match run(LaunchAsWritten(project, audioPath, language, files))
      case None => None
      case Some(result) => Interpret(result.0, result.1)
  }

  /** A delivered transcript is non-empty, trimmed, and came from a script that exited with status 0. */
  lemma OutcomeDelivered(executable: Option<Path>, cwd: Path, files: set<Path>, audioPath: string,
                         language: string, run: Runner)
    ensures var r := Outcome(executable, cwd, files, audioPath, language, run);
            r.Some? ==>
              && r.value != [] && Trimmed(Foundation, r.value)
              && ProjectPath(executable, cwd, files).Some?
              && var l := LaunchAsWritten(ProjectPath(executable, cwd, files).value, audioPath, language, files);
                 run(l).Some? && run(l).value.0 == 0
  {
    var p := ProjectPath(executable, cwd, files);
    if p.Some? {
      var l := LaunchAsWritten(p.value, audioPath, language, files);
      if run(l).Some? {
        InterpretNonEmpty(run(l).value.0, run(l).value.1);
      }
    }
  }

  /**
   * As written, a project without `venv/bin/python3` never yields a
   * transcript: the completion gets nil whatever the script would print.
   */
  lemma NoVenvNoTranscript(executable: Option<Path>, cwd: Path, files: set<Path>, audioPath: string,
                           language: string, run: Runner)
    requires EnvPython !in files && RespectsFiles(run, files)
    requires ProjectPath(executable, cwd, files).Some? ==> Venv(ProjectPath(executable, cwd, files).value) !in files
    ensures Outcome(executable, cwd, files, audioPath, language, run) == None
  {
    var p := ProjectPath(executable, cwd, files);
    if p.Some? {
      FallbackAsWrittenNeverRuns(p.value, audioPath, language, files, run);
    }
  }

  /** What the completion would receive with the fallback launch corrected. */
  function CorrectedOutcome(executable: Option<Path>, cwd: Path, files: set<Path>, audioPath: string,
                            language: string, run: Runner): Option<string>
  {
    match ProjectPath(executable, cwd, files)
    case None => None
    case Some(project) =>
      match run(LaunchFor(project, audioPath, language, files))
      case None => None
      case Some(result) => Interpret(result.0, result.1)
  }

  /**
   * The correction changes nothing where a venv exists, and without one the
   * line the script prints through `/usr/bin/env python3` reaches the completion.
   */
  lemma CorrectedFallbackDelivers(executable: Option<Path>, cwd: Path, files: set<Path>, audioPath: string,
                                  language: string, run: Runner, t: string)
    ensures var p := ProjectPath(executable, cwd, files);
            p.Some? && Venv(p.value) in files ==>
              CorrectedOutcome(executable, cwd, files, audioPath, language, run)
                == Outcome(executable, cwd, files, audioPath, language, run)
    ensures var p := ProjectPath(executable, cwd, files);
            && p.Some? && Venv(p.value) !in files && t != "" && Trimmed(Python, t)
            && run(Launch(EnvTool, ["python3"] + ScriptArguments(p.value, audioPath, language))) == Some((0, t + "\n"))
            ==> CorrectedOutcome(executable, cwd, files, audioPath, language, run) == Some(t)
  {
    if t != "" && Trimmed(Python, t) {
      PrintedTextDelivered(t);
    }
  }

  /** The engine; its only state is the language in the shared settings store. */
  class TranscriptionEngine {
    const defaults: Settings.UserDefaults

    constructor (defaults: Settings.UserDefaults)
      ensures this.defaults == defaults
    {
      this.defaults := defaults;
    }

    /** The `language` property. */
    function Language(): string
      reads defaults
    {
      LanguageIn(defaults.store)
    }

    /** `setLanguage`: stores the language under "transcriptionLanguage" and touches nothing else. */
    method SetLanguage(lang: string)
      modifies defaults
      ensures defaults.store == old(defaults.store)[LanguageKey := lang]
      ensures Language() == lang
    {
      defaults.Set(lang, LanguageKey);
    }

    /**
     * `transcribe(audioURL:completion:)`: the sequence of completion calls it
     * makes, which is always exactly one, with the outcome above.
     */
    method Transcribe(audioPath: string, executable: Option<Path>, cwd: Path, files: set<Path>, run: Runner)
      returns (completions: seq<Option<string>>)
      ensures completions == [Outcome(executable, cwd, files, audioPath, Language(), run)]
    {
      var projectPath := FindProjectPath(executable, cwd, files);
      if projectPath.None? {
        completions := [None];
        return;
      }
      var project := projectPath.value;
      var python := if Venv(project) in files then Venv(project) else EnvPython;
      var launch := Launch(python, ScriptArguments(project, audioPath, Language()));
      var result := run(launch);
      if result.None? {
        completions := [None];
        return;
      }
      var (terminationStatus, output) := result.value;
      if terminationStatus == 0 {
        var transcription := Strip(Foundation, output);
        if transcription != [] {
          completions := [Some(transcription)];
        } else {
          completions := [None];
        }
      } else {
        completions := [None];
      }
    }
  }
}
