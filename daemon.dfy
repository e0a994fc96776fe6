/**
 * The persistent transcription worker (transcribe_daemon.py): the side of the
 * newline-delimited JSON channel that the worker owns.  It keeps at most one
 * loaded model, answers every non-blank input line with exactly one JSON
 * response line, and stops after acknowledging a shutdown request.
 *
 * JSON parsing is an opaque boundary (`Env.decode`); the response encoding is
 * modelled down to the escaping of string literals, which is what keeps each
 * response on one line.
 */
module Daemon {
  import opened Wrappers
  import opened Text
  import Json
  import opened Whisper

  /** What `json.loads` makes of a request line, as the handler can tell apart. */
  datatype Decoded =
    | Malformed(error: string)
      // json.JSONDecodeError, with its message
    | NotAnObject(typeName: string)
      // valid JSON that is not an object; `data.get` raises AttributeError
    | Object(fields: map<string, string>)
      // a JSON object; its string-valued members

  /** The world the worker runs in: the JSON parser, the speech library, a traceback text. */
  datatype Env = Env(decode: string -> Decoded, backend: Backend, traceback: string)

  /** The four response shapes `handle_request` writes. */
  datatype Response =
    | Transcribed(text: string)
      // {"status": "success", "text": ...}
    | Acknowledged(message: string)
      // {"status": "success", "message": ...}
    | Failed(message: string)
      // {"status": "error", "message": ...}
    | Crashed(message: string, traceback: string)
      // {"status": "error", "message": ..., "traceback": ...}

  function Status(r: Response): string {
    if r.Transcribed? || r.Acknowledged? then "success" else "error"
  }

  /** `response_data.get("message")`. */
  function Message(r: Response): Option<string> {
    match r
    case Transcribed(_) => None
    case Acknowledged(m) => Some(m)
    case Failed(m) => Some(m)
    case Crashed(m, _) => Some(m)
  }

  /** The test `main` applies to each response before reading the next line. */
  predicate ShutdownAcknowledged(r: Response) {
    Message(r) == Some("shutting down")
  }

  /** One `"key": "value"` member as `json.dumps` writes it (separator ": "). */
  function Member(key: string, value: string): (r: string)
    ensures Json.AllPrintable(r)
  {
    Json.PrintableConcat(Json.Quote(key), ": ");
    Json.PrintableConcat(Json.Quote(key) + ": ", Json.Quote(value));
    Json.Quote(key) + ": " + Json.Quote(value)
  }

  /** The members of an object, in insertion order, separated by ", ". */
  function Members(pairs: seq<(string, string)>): (r: string)
    ensures Json.AllPrintable(r)
  {
    if |pairs| == 0 then []
    else if |pairs| == 1 then Member(pairs[0].0, pairs[0].1)
    else
      var m := Member(pairs[0].0, pairs[0].1);
      Json.PrintableConcat(m, ", ");
      Json.PrintableConcat(m + ", ", Members(pairs[1..]));
      m + ", " + Members(pairs[1..])
  }

  /** The members `json.dumps` writes for a response, `status` first. */
  function Pairs(r: Response): seq<(string, string)> {
    [("status", Status(r))] +
    match r
    case Transcribed(t) => [("text", t)]
    case Acknowledged(m) => [("message", m)]
    case Failed(m) => [("message", m)]
    case Crashed(m, tb) => [("message", m), ("traceback", tb)]
  }

  /** `json.dumps(response)`: one line of printable ASCII holding a JSON object. */
  function Encode(r: Response): (line: string)
    ensures Json.AllPrintable(line) && '\n' !in line
    ensures |line| >= 2 && line[0] == '{' && line[|line| - 1] == '}'
  {
    var body := Members(Pairs(r));
    Json.PrintableConcat("{", body);
    Json.PrintableConcat("{" + body, "}");
    var line := "{" + body + "}";
    assert forall i :: 0 <= i < |line| ==> line[i] != '\n';
    line
  }

  /**
   * Every response line is a JSON object whose first member is `status`, and
   * the status is "success" for a transcript or an acknowledgement and "error"
   * for everything else.
   */
  lemma StatusFirst(r: Response)
    ensures Status(r) == "success" || Status(r) == "error"
    ensures Status(r) == "success" <==> r.Transcribed? || r.Acknowledged?
    ensures var head := "{" + Member("status", Status(r)) + ", ";
            |head| <= |Encode(r)| && Encode(r)[..|head|] == head
  {
    var ps := Pairs(r);
    var m := Member("status", Status(r));
    var rest := Members(ps[1..]);
    assert ps[0] == ("status", Status(r));
    MembersCons(ps);
    EncodeBraces(r);
    Regroup(m, rest);
  }

  /** The braces and the first separator regrouped around the first member. */
  lemma Regroup(m: string, rest: string)
    ensures var head := "{" + m + ", ";
            && "{" + (m + ", " + rest) + "}" == head + (rest + "}")
            && |head| <= |head + (rest + "}")| && (head + (rest + "}"))[..|head|] == head
  {
  }

  lemma MembersCons(ps: seq<(string, string)>)
    requires |ps| >= 2
    ensures Members(ps) == Member(ps[0].0, ps[0].1) + ", " + Members(ps[1..])
  {
  }

  lemma EncodeBraces(r: Response)
    ensures Encode(r) == "{" + Members(Pairs(r)) + "}"
  {
  }

  /** `f"{action}"` for the value of `data.get("action")`. */
  function ShowAction(action: Option<string>): string {
    match action
    case None => "None"
    case Some(a) => a
  }

  function Get(fields: map<string, string>, key: string): Option<string> {
    if key in fields then Some(fields[key]) else None
  }

  datatype LoadOutcome = LoadOutcome(ok: bool, loaded: Option<string>)

  /**
   * `load_model(name)` over the name of the loaded model (None while `model`
   * is None): reuse when that name is loaded, otherwise construct the model,
   * keeping the old state if construction raises.
   */
  function Load(loaded: Option<string>, name: string, b: Backend): (o: LoadOutcome)
    ensures o.ok ==> o.loaded == Some(name)
    ensures !o.ok ==> o.loaded == loaded
    ensures o.ok <==> loaded == Some(name) || b.loadError(name).None?
  {
    if loaded == Some(name) then LoadOutcome(true, loaded)
    else if b.loadError(name).Some? then LoadOutcome(false, loaded)
    else LoadOutcome(true, Some(name))
  }

  /** `transcribe_audio(path, language)`: the transcript, or the error text it returns. */
  function TranscribeAudio(loaded: Option<string>, path: string, language: string, b: Backend)
    : (r: Result<string, string>)
    ensures r.Err? ==> r.error != []
    ensures r.Ok? ==> Trimmed(Python, r.value)
    ensures loaded == None <==> r == Err("Model not loaded")
    ensures loaded.Some? && b.infer(loaded.value, path, LangParam(language)).Segments? ==>
              r == Ok(Transcript(b.infer(loaded.value, path, LangParam(language)).segments))
    ensures loaded.Some? && b.infer(loaded.value, path, LangParam(language)).Raised? ==>
              r == Err("Transcription error: " + b.infer(loaded.value, path, LangParam(language)).error)
  {
    if loaded == None then Err("Model not loaded")
    else
      match b.infer(loaded.value, path, LangParam(language))
      case Raised(e) => Err("Transcription error: " + e)
      case Segments(segs) => Ok(Transcript(segs))
  }

  /** A response and the loaded-model state after it. */
  datatype Outcome = Outcome(response: Response, loaded: Option<string>)

  /** The `transcribe` branch of `handle_request`. */
  function HandleTranscribe(loaded: Option<string>, fields: map<string, string>, b: Backend): Outcome {
    var path := Get(fields, "audio_path");
    var language := Get(fields, "language").GetOr("auto");
    var name := Get(fields, "model").GetOr("small");
    if path == None || path.value == "" then Outcome(Failed("Missing audio_path parameter"), loaded)
    else
      var l := Load(loaded, name, b);
      if !l.ok then Outcome(Failed("Failed to load model"), l.loaded)
      else
        match TranscribeAudio(l.loaded, path.value, language, b)
        case Err(e) => Outcome(Failed(e), l.loaded)
        case Ok(text) =>
          if text == "" then Outcome(Failed("Empty transcription"), l.loaded)
          else Outcome(Transcribed(text), l.loaded)
  }

  /** `handle_request(line)`: dispatch on the decoded request's `action`. */
  function Handle(loaded: Option<string>, input: Decoded, env: Env): Outcome {
    match input
    case Malformed(e) => Outcome(Failed("Invalid JSON: " + e), loaded)
    case NotAnObject(t) =>
      Outcome(Crashed("Request handling error: '" + t + "' object has no attribute 'get'", env.traceback), loaded)
    case Object(fields) =>
      var action := Get(fields, "action");
      if action == Some("transcribe") then HandleTranscribe(loaded, fields, env.backend)
      else if action == Some("load_model") then
        var name := Get(fields, "model").GetOr("small");
        var l := Load(loaded, name, env.backend);
        if l.ok then Outcome(Acknowledged("Model '" + name + "' loaded"), l.loaded)
        else Outcome(Failed("Failed to load model"), l.loaded)
      else if action == Some("ping") then Outcome(Acknowledged("pong"), loaded)
      else if action == Some("shutdown") then Outcome(Acknowledged("shutting down"), loaded)
      else Outcome(Failed("Unknown action: " + ShowAction(action)), loaded)
  }

  /** What `main` has written and where it stands after a run of input lines. */
  datatype RunResult = RunResult(responses: seq<Response>, loaded: Option<string>, stopped: bool)

  /** What one non-blank line gets: a response and the next loaded-model state. */
  type Handler = (Option<string>, string) -> Outcome

  /** The handler `main` uses: decode the stripped line, then `handle_request`. */
  function HandlerOf(env: Env): Handler {
    (loaded: Option<string>, line: string) => Handle(loaded, env.decode(line), env)
  }

  /** `main`'s loop over stdin, as a function of the input lines and the per-line handler. */
  function Run(loaded: Option<string>, lines: seq<string>, handler: Handler): RunResult
    decreases |lines|
  {
    if lines == [] then RunResult([], loaded, false)
    else
      var line := Strip(Python, lines[0]);
      if line == [] then Run(loaded, lines[1..], handler)
      else
        var o := handler(loaded, line);
        if ShutdownAcknowledged(o.response) then RunResult([o.response], o.loaded, true)
        else
          var rest := Run(o.loaded, lines[1..], handler);
          RunResult([o.response] + rest.responses, rest.loaded, rest.stopped)
  }

  predicate Blank(line: string) { Strip(Python, line) == [] }

  /** The number of lines that are not blank once stripped. */
  function NonBlankCount(lines: seq<string>): nat {
    if lines == [] then 0 else (if Blank(lines[0]) then 0 else 1) + NonBlankCount(lines[1..])
  }

  function EncodeAll(rs: seq<Response>): (ls: seq<string>)
    ensures |ls| == |rs| && forall k :: 0 <= k < |rs| ==> ls[k] == Encode(rs[k])
  {
    seq(|rs|, k requires 0 <= k < |rs| => Encode(rs[k]))
  }

  /** The worker process: the loaded model's name and the request counter. */
  class TranscriptionDaemon {
    var loadedModel: Option<string>
    var requestCount: nat

    constructor ()
      ensures loadedModel == None && requestCount == 0
    {
      loadedModel := None;
      requestCount := 0;
    }

    /** `load_model`: loads unless the requested model is the one already loaded. */
    method LoadModel(name: string, b: Backend) returns (ok: bool)
      modifies this`loadedModel
      ensures LoadOutcome(ok, loadedModel) == Load(old(loadedModel), name, b)
    {
      if loadedModel == None || loadedModel.value != name {
        if b.loadError(name).Some? {
          return false;
        }
        loadedModel := Some(name);
      }
      return true;
    }

    /** `handle_request`, updating the loaded model when a request loads one. */
    method HandleRequest(line: string, env: Env) returns (response: Response)
      modifies this`loadedModel
      ensures Outcome(response, loadedModel) == Handle(old(loadedModel), env.decode(line), env)
    {
      var input := env.decode(line);
      match input {
        case Malformed(e) =>
          return Failed("Invalid JSON: " + e);
        case NotAnObject(t) =>
          return Crashed("Request handling error: '" + t + "' object has no attribute 'get'", env.traceback);
        case Object(fields) =>
          var action := Get(fields, "action");
          if action == Some("transcribe") {
            var path := Get(fields, "audio_path");
            var language := Get(fields, "language").GetOr("auto");
            var name := Get(fields, "model").GetOr("small");
            if path == None || path.value == "" {
              return Failed("Missing audio_path parameter");
            }
            var ok := LoadModel(name, env.backend);
            if !ok {
              return Failed("Failed to load model");
            }
            var result := TranscribeAudio(loadedModel, path.value, language, env.backend);
            if result.Err? {
              return Failed(result.error);
            }
            if result.value == "" {
              return Failed("Empty transcription");
            }
            return Transcribed(result.value);
          } else if action == Some("load_model") {
            var name := Get(fields, "model").GetOr("small");
            var ok := LoadModel(name, env.backend);
            if ok {
              return Acknowledged("Model '" + name + "' loaded");
            }
            return Failed("Failed to load model");
          } else if action == Some("ping") {
            return Acknowledged("pong");
          } else if action == Some("shutdown") {
            return Acknowledged("shutting down");
          }
          return Failed("Unknown action: " + ShowAction(action));
      }
    }

    /** One counted request: `request_count += 1`, then `handle_request`. */
    method Answer(line: string, env: Env) returns (response: Response)
      modifies this
      ensures Outcome(response, loadedModel) == HandlerOf(env)(old(loadedModel), line)
      ensures requestCount == old(requestCount) + 1
    {
      requestCount := requestCount + 1;
      response := HandleRequest(line, env);
    }

    /**
     * `main`: strips each input line, skips blank ones, counts and answers
     * the rest one response line each, and stops after a shutdown reply.
     */
    method Serve(lines: seq<string>, env: Env) returns (out: seq<string>)
      modifies this
      ensures var r := Run(old(loadedModel), lines, HandlerOf(env));
              out == EncodeAll(r.responses) && loadedModel == r.loaded
              && requestCount == old(requestCount) + |r.responses|
    {
      out := [];
      ghost var done: seq<Response> := [];
      ghost var whole := Run(loadedModel, lines, HandlerOf(env));
      var i := 0;
      while i < |lines|
        invariant 0 <= i <= |lines|
        invariant out == EncodeAll(done)
        invariant requestCount == old(requestCount) + |done|
        invariant whole == Follow(done, Run(loadedModel, lines[i..], HandlerOf(env)))
      {
        RunStep(loadedModel, lines[i..], HandlerOf(env));
        assert lines[i..][1..] == lines[i + 1..];
        var line := Strip(Python, lines[i]);
        if line == [] {
          i := i + 1;
          continue;
        }
        var response := Answer(line, env);
        out := out + [Encode(response)];
        EncodeAllSnoc(done, response);
        FollowSnoc(done, response, Run(loadedModel, lines[i + 1..], HandlerOf(env)));
        done := done + [response];
        if ShutdownAcknowledged(response) {
          return;
        }
        i := i + 1;
      }
    }
  }

  lemma EncodeAllSnoc(rs: seq<Response>, r: Response)
    ensures EncodeAll(rs + [r]) == EncodeAll(rs) + [Encode(r)]
  {
    assert EncodeAll(rs + [r]) == EncodeAll(rs) + [Encode(r)];
  }

  /** `rest`, with `done` answered before it. */
  function Follow(done: seq<Response>, rest: RunResult): RunResult {
    RunResult(done + rest.responses, rest.loaded, rest.stopped)
  }

  lemma FollowSnoc(done: seq<Response>, r: Response, rest: RunResult)
    ensures Follow(done, RunResult([r] + rest.responses, rest.loaded, rest.stopped))
            == Follow(done + [r], rest)
    ensures Follow(done, RunResult([r], rest.loaded, true)) == RunResult(done + [r], rest.loaded, true)
  {
    assert done + ([r] + rest.responses) == done + [r] + rest.responses;
  }

  /** One step of `main`'s loop: a blank line is skipped, any other is answered. */
  lemma RunStep(loaded: Option<string>, lines: seq<string>, handler: Handler)
    requires lines != []
    ensures var line := Strip(Python, lines[0]);
            var o := handler(loaded, line);
            Run(loaded, lines, handler)
              == if line == [] then Run(loaded, lines[1..], handler)
                 else if ShutdownAcknowledged(o.response) then RunResult([o.response], o.loaded, true)
                 else Follow([o.response], Run(o.loaded, lines[1..], handler))
  {
  }

  // ----- Properties of the request handler -----

  /** A transcribe request without a usable `audio_path` is refused before any model is loaded. */
  lemma MissingAudioPathRejected(loaded: Option<string>, fields: map<string, string>, env: Env)
    requires Get(fields, "action") == Some("transcribe")
    requires "audio_path" !in fields || fields["audio_path"] == ""
    ensures Handle(loaded, Object(fields), env) == Outcome(Failed("Missing audio_path parameter"), loaded)
  {
  }

  /** A transcribe request without `language` or `model` behaves as one with "auto" and "small". */
  lemma TranscribeDefaults(loaded: Option<string>, fields: map<string, string>, env: Env)
    requires Get(fields, "action") == Some("transcribe")
    requires "language" !in fields && "model" !in fields
    ensures Handle(loaded, Object(fields), env)
         == Handle(loaded, Object(fields["language" := "auto"]["model" := "small"]), env)
  {
    var f2 := fields["language" := "auto"]["model" := "small"];
    assert Get(f2, "action") == Get(fields, "action");
    assert Get(f2, "audio_path") == Get(fields, "audio_path");
  }

  /** A load_model request without `model` loads "small". */
  lemma LoadModelDefault(loaded: Option<string>, fields: map<string, string>, env: Env)
    requires Get(fields, "action") == Some("load_model") && "model" !in fields
    ensures Handle(loaded, Object(fields), env) == Handle(loaded, Object(fields["model" := "small"]), env)
  {
    assert Get(fields["model" := "small"], "action") == Some("load_model");
  }

  /**
   * Requesting the loaded model again succeeds and changes nothing, so a
   * load_model request repeated after a successful one is answered the same way
   * and leaves the same state.
   */
  lemma LoadModelIdempotent(loaded: Option<string>, fields: map<string, string>, env: Env)
    requires Get(fields, "action") == Some("load_model")
    ensures var o := Handle(loaded, Object(fields), env);
            o.response.Acknowledged? ==> Handle(o.loaded, Object(fields), env) == o
    ensures var name := Get(fields, "model").GetOr("small");
            Handle(Some(name), Object(fields), env)
              == Outcome(Acknowledged("Model '" + name + "' loaded"), Some(name))
  {
  }

  /**
   * A request changes the loaded model only by loading the model it names
   * (or the default "small"), and only when it was not already loaded.
   */
  lemma HandleChangesModelOnlyByLoading(loaded: Option<string>, input: Decoded, env: Env)
    ensures var o := Handle(loaded, input, env);
            o.loaded == loaded
            || (input.Object? && o.loaded == Some(Get(input.fields, "model").GetOr("small"))
                && env.backend.loadError(o.loaded.value).None?
                && Get(input.fields, "action") in {Some("transcribe"), Some("load_model")})
  {
  }

  /**
   * A successful transcription carries non-empty stripped text, produced by the
   * requested model (default "small") from the requested audio path.
   */
  lemma TranscribedMeansText(loaded: Option<string>, input: Decoded, env: Env)
    ensures var o := Handle(loaded, input, env);
            o.response.Transcribed? ==>
              && o.response.text != [] && Trimmed(Python, o.response.text)
              && input.Object?
              && Get(input.fields, "action") == Some("transcribe")
              && var name := Get(input.fields, "model").GetOr("small");
                 var lang := Get(input.fields, "language").GetOr("auto");
                 o.loaded == Some(name)
                 && env.backend.infer(name, input.fields["audio_path"], LangParam(lang)).Segments?
                 && o.response.text
                    == Transcript(env.backend.infer(name, input.fields["audio_path"], LangParam(lang)).segments)
  {
  }

  /**
   * The whole reply to a transcribe request with a non-empty `audio_path`: the
   * model fails to load, inference raises, the transcript is empty, or the
   * reply carries the transcript; it is a transcript exactly when the model
   * loads, inference returns segments and their transcript is not empty.
   */
  lemma TranscribeReplies(loaded: Option<string>, fields: map<string, string>, env: Env)
    requires Get(fields, "action") == Some("transcribe")
    requires "audio_path" in fields && fields["audio_path"] != ""
    ensures var o := Handle(loaded, Object(fields), env);
            var name := Get(fields, "model").GetOr("small");
            var inferred := env.backend.infer(name, fields["audio_path"], LangParam(Get(fields, "language").GetOr("auto")));
            var loads := loaded == Some(name) || env.backend.loadError(name).None?;
            && (!loads ==> o == Outcome(Failed("Failed to load model"), loaded))
            && (loads && inferred.Raised? ==> o == Outcome(Failed("Transcription error: " + inferred.error), Some(name)))
            && (loads && inferred.Segments? && Transcript(inferred.segments) == "" ==>
                  o == Outcome(Failed("Empty transcription"), Some(name)))
            && (loads && inferred.Segments? && Transcript(inferred.segments) != "" ==>
                  o == Outcome(Transcribed(Transcript(inferred.segments)), Some(name)))
            && (o.response.Transcribed? ==> loads && inferred.Segments? && Transcript(inferred.segments) != "")
  {
  }

  /** The reply to a load_model request, for both outcomes of loading. */
  lemma LoadModelReplies(loaded: Option<string>, fields: map<string, string>, env: Env)
    requires Get(fields, "action") == Some("load_model")
    ensures var o := Handle(loaded, Object(fields), env);
            var name := Get(fields, "model").GetOr("small");
            var loads := loaded == Some(name) || env.backend.loadError(name).None?;
            && (loads ==> o == Outcome(Acknowledged("Model '" + name + "' loaded"), Some(name)))
            && (!loads ==> o == Outcome(Failed("Failed to load model"), loaded))
  {
  }

  /** "Model not loaded" can never reach a client: a transcribe request loads a model first. */
  lemma ModelNotLoadedUnreachable(loaded: Option<string>, input: Decoded, env: Env)
    ensures Handle(loaded, input, env).response != Failed("Model not loaded")
  {
    match input
    case Malformed(e) =>
      assert ("Invalid JSON: " + e)[0] == 'I';
    case NotAnObject(_) =>
    case Object(f) =>
      var action := Get(f, "action");
      if action == Some("transcribe") {
        var path := Get(f, "audio_path");
        if path != None && path.value != "" {
          var name := Get(f, "model").GetOr("small");
          var l := Load(loaded, name, env.backend);
          if l.ok {
            var lang := Get(f, "language").GetOr("auto");
            var t := TranscribeAudio(l.loaded, path.value, lang, env.backend);
            assert t != Err("Model not loaded");
          }
        }
      } else if action !in {Some("load_model"), Some("ping"), Some("shutdown")} {
        assert ("Unknown action: " + ShowAction(action))[0] == 'U';
      }
  }

  /** Undecodable input and unknown actions get the error messages the handler spells out. */
  lemma ErrorReplies(loaded: Option<string>, input: Decoded, env: Env)
    ensures input.Malformed? ==>
              Handle(loaded, input, env) == Outcome(Failed("Invalid JSON: " + input.error), loaded)
    ensures input.Object? && Get(input.fields, "action") !in
              {Some("transcribe"), Some("load_model"), Some("ping"), Some("shutdown")} ==>
              Handle(loaded, input, env)
                == Outcome(Failed("Unknown action: " + ShowAction(Get(input.fields, "action"))), loaded)
  {
  }

  /** The reply ends the loop exactly when the request was a shutdown request. */
  lemma ShutdownOnlyOnRequest(loaded: Option<string>, input: Decoded, env: Env)
    ensures ShutdownAcknowledged(Handle(loaded, input, env).response)
            <==> input.Object? && Get(input.fields, "action") == Some("shutdown")
  {
    var r := Handle(loaded, input, env).response;
    if r.Acknowledged? || r.Failed? || r.Crashed? {
      var m := Message(r).value;
      if m == "shutting down" {
        assert m[0] == 's' && m[1] == 'h';
      }
    }
  }

  // ----- Properties of the line loop -----

  /**
   * One response per counted line, in order: a run that does not stop answers
   * every non-blank line; a run that stops has answered at most that many,
   * and its last reply, and only its last, acknowledges the shutdown.
   */
  lemma {:induction false} RunOneResponsePerLine(loaded: Option<string>, lines: seq<string>, handler: Handler)
    ensures var r := Run(loaded, lines, handler);
            && (!r.stopped ==> |r.responses| == NonBlankCount(lines))
            && (r.stopped ==> 1 <= |r.responses| <= NonBlankCount(lines)
                              && ShutdownAcknowledged(r.responses[|r.responses| - 1]))
            && (forall k :: 0 <= k < |r.responses| - 1 ==> !ShutdownAcknowledged(r.responses[k]))
            && (!r.stopped ==> forall k :: 0 <= k < |r.responses| ==> !ShutdownAcknowledged(r.responses[k]))
    decreases |lines|
  {
    if lines != [] {
      RunStep(loaded, lines, handler);
      var line := Strip(Python, lines[0]);
      if line == [] {
        RunOneResponsePerLine(loaded, lines[1..], handler);
      } else {
        var o := handler(loaded, line);
        if !ShutdownAcknowledged(o.response) {
          RunOneResponsePerLine(o.loaded, lines[1..], handler);
        }
      }
    }
  }

  /**
   * A run that stops does so at a non-blank line `k` whose reply acknowledges
   * the shutdown: it has answered every non-blank line up to and including
   * that one, and the lines after it are never read, since the input cut
   * after line `k` gives the same run.
   */
  lemma {:induction false} RunStopsAtShutdownLine(loaded: Option<string>, lines: seq<string>, handler: Handler)
    ensures var r := Run(loaded, lines, handler);
            r.stopped ==>
              exists k :: 0 <= k < |lines| && !Blank(lines[k])
                          && |r.responses| == NonBlankCount(lines[..k + 1])
                          && Run(loaded, lines[..k + 1], handler) == r
    decreases |lines|
  {
    var r := Run(loaded, lines, handler);
    if lines != [] && r.stopped {
      RunStep(loaded, lines, handler);
      var line := Strip(Python, lines[0]);
      var o := handler(loaded, line);
      if line != [] && ShutdownAcknowledged(o.response) {
        StopsAtFirstLine(loaded, lines, handler);
      } else {
        var next := if line == [] then loaded else o.loaded;
        RunStopsAtShutdownLine(next, lines[1..], handler);
        var k' :| 0 <= k' < |lines| - 1 && !Blank(lines[1..][k'])
                  && |Run(next, lines[1..], handler).responses| == NonBlankCount(lines[1..][..k' + 1])
                  && Run(next, lines[1..][..k' + 1], handler) == Run(next, lines[1..], handler);
        CutAfter(loaded, lines, k', handler);
        assert !Blank(lines[k' + 1]);
      }
    }
  }

  /** A shutdown acknowledged on the first line: that line alone gives the same run. */
  lemma StopsAtFirstLine(loaded: Option<string>, lines: seq<string>, handler: Handler)
    requires lines != []
    requires var line := Strip(Python, lines[0]);
             line != [] && ShutdownAcknowledged(handler(loaded, line).response)
    ensures NonBlankCount(lines[..1]) == 1 && !Blank(lines[0])
    ensures Run(loaded, lines[..1], handler) == Run(loaded, lines, handler)
  {
    assert lines[..1][0] == lines[0] && lines[..1][1..] == [];
    RunStep(loaded, lines, handler);
    RunStep(loaded, lines[..1], handler);
  }

  /** Cutting after line `k' + 1` is the first line followed by the tail cut after line `k'`. */
  lemma CutAfter(loaded: Option<string>, lines: seq<string>, k': nat, handler: Handler)
    requires k' < |lines| - 1
    ensures var cut := lines[..k' + 2];
            && NonBlankCount(cut) == (if Blank(lines[0]) then 0 else 1) + NonBlankCount(lines[1..][..k' + 1])
            && var line := Strip(Python, lines[0]);
               var o := handler(loaded, line);
               Run(loaded, cut, handler)
                 == if line == [] then Run(loaded, lines[1..][..k' + 1], handler)
                    else if ShutdownAcknowledged(o.response) then RunResult([o.response], o.loaded, true)
                    else Follow([o.response], Run(o.loaded, lines[1..][..k' + 1], handler))
  {
    var cut := lines[..k' + 2];
    assert cut[0] == lines[0] && cut[1..] == lines[1..][..k' + 1];
    RunStep(loaded, cut, handler);
  }

  /** Blank lines change nothing: dropping them from the input gives the same run. */
  lemma {:induction false} RunIgnoresBlankLines(loaded: Option<string>, pre: seq<string>, blank: string,
                                               post: seq<string>, handler: Handler)
    requires Blank(blank)
    ensures Run(loaded, pre + [blank] + post, handler) == Run(loaded, pre + post, handler)
    decreases |pre|
  {
    if pre == [] {
      assert [blank] + post == pre + [blank] + post;
      assert ([blank] + post)[1..] == post;
      assert pre + post == post;
    } else {
      assert (pre + [blank] + post)[0] == pre[0] && (pre + post)[0] == pre[0];
      assert (pre + [blank] + post)[1..] == pre[1..] + [blank] + post;
      assert (pre + post)[1..] == pre[1..] + post;
      var line := Strip(Python, pre[0]);
      if line == [] {
        RunIgnoresBlankLines(loaded, pre[1..], blank, post, handler);
      } else {
        var o := handler(loaded, line);
        RunIgnoresBlankLines(o.loaded, pre[1..], blank, post, handler);
      }
    }
  }

  /**
   * The worker's standard output, read back line by line, is exactly the
   * sequence of responses: no response spills onto a second line.
   */
  lemma StdoutFraming(rs: seq<Response>)
    ensures SplitLines(Lines(EncodeAll(rs))) == EncodeAll(rs)
  {
    SplitLinesOfLines(EncodeAll(rs));
  }
}
