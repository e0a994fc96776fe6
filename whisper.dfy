/**
 * What both Python scripts do with the speech model's output: the
 * `language` argument becomes the model's language parameter, and the
 * returned segments become one transcript.  The model itself is an oracle
 * (`Backend`): which model names load, and what a transcription call yields.
 */
module Whisper {
  import opened Wrappers
  import opened Text

  /**
   * One element of what `model.transcribe` returns, by the three shapes the
   * extraction loop recognises: an object with a `text` attribute, a dict
   * (with the text `str()` would give it), or anything else, known only
   * through `str(seg)`.
   */
  datatype Segment =
    | WithText(text: string)
    | Dict(entries: map<string, string>, repr: string)
    | Opaque(repr: string)

  /** What a call to `model.transcribe` does: returns segments or raises. */
  datatype Inference = Segments(segments: seq<Segment>) | Raised(error: string)

  /**
   * The speech-recognition library as the scripts see it.  `loadError(m)` is
   * the message of the exception `Model(m, n_threads=4)` raises, if any;
   * `infer(m, path, lang)` is what model `m` does with the audio at `path`.
   */
  datatype Backend = Backend(
    loadError: string -> Option<string>,
    infer: (string, string, Option<string>) -> Inference)

  /** `None if language == "auto" else language`: the language handed to the model. */
  function LangParam(language: string): (r: Option<string>)
    ensures r == None <==> language == "auto"
    ensures r != None ==> r.value == language
  {
    if language == "auto" then None else Some(language)
  }

  /**
   * Reading a missing language parameter as "auto" gives back the argument,
   * so different arguments never reach the model as the same parameter.
   */
  lemma LangParamRoundTrip(a: string, b: string)
    ensures LangParam(a).GetOr("auto") == a
    ensures LangParam(a) == LangParam(b) ==> a == b
  {
  }

  const Marker: string := "text="

  /** `s.split('text=', 1)[1]` when `'text=' in s`: what follows the first marker. */
  function AfterMarker(s: string): (r: Option<string>)
    ensures r == None <==> forall i :: !OccursAt(s, Marker, i)
    ensures r != None ==>
              var i := |s| - |r.value| - |Marker|;
              OccursAt(s, Marker, i) && r.value == s[i + |Marker|..]
              && forall j :: 0 <= j < i ==> !OccursAt(s, Marker, j)
  {
    match IndexOf(s, Marker)
    case None => None
    case Some(i) => Some(s[i + |Marker|..])
  }

  /** The text one segment contributes, if it has one. */
  function SegmentText(seg: Segment): Option<string> {
    match seg
    case WithText(t) => Some(t)
    case Dict(entries, repr) => if "text" in entries then Some(entries["text"]) else AfterMarker(repr)
    case Opaque(repr) => AfterMarker(repr)
  }

  /** The `text_parts` list: one entry per segment that has text, in order. */
  function Parts(segs: seq<Segment>): seq<string> {
    if segs == [] then []
    else
      match SegmentText(segs[0])
      case Some(t) => [t] + Parts(segs[1..])
      case None => Parts(segs[1..])
  }

  /** Extraction distributes over concatenation: it keeps the segments' order. */
  lemma {:induction false} PartsAppend(a: seq<Segment>, b: seq<Segment>)
    ensures Parts(a + b) == Parts(a) + Parts(b)
  {
    if a == [] {
      assert a + b == b;
    } else {
      assert (a + b)[0] == a[0];
      assert (a + b)[1..] == a[1..] + b;
      PartsAppend(a[1..], b);
    }
  }

  /** There are never more parts than segments, and every part is some segment's text. */
  lemma {:induction false} PartsFromSegments(segs: seq<Segment>)
    ensures |Parts(segs)| <= |segs|
    ensures forall p :: p in Parts(segs) ==> exists k :: 0 <= k < |segs| && SegmentText(segs[k]) == Some(p)
  {
    if segs != [] {
      PartsFromSegments(segs[1..]);
      forall p | p in Parts(segs)
        ensures exists k :: 0 <= k < |segs| && SegmentText(segs[k]) == Some(p)
      {
        if p in Parts(segs[1..]) {
          var k :| 0 <= k < |segs[1..]| && SegmentText(segs[1..][k]) == Some(p);
          assert SegmentText(segs[k + 1]) == Some(p);
        } else {
          assert SegmentText(segs[0]) == Some(p);
        }
      }
    }
  }

  /** The extraction loop: walks the segments and appends each one's text. */
  method ExtractTextParts(segs: seq<Segment>) returns (parts: seq<string>)
    ensures parts == Parts(segs)
  {
    parts := [];
    var i := 0;
    while i < |segs|
      invariant 0 <= i <= |segs|
      invariant parts == Parts(segs[..i])
    {
      var seg := segs[i];
      PartsAppend(segs[..i], [seg]);
      assert segs[..i + 1] == segs[..i] + [seg];
      assert Parts([seg]) == (match SegmentText(seg) case Some(t) => [t] case None => []);
      match seg {
        case WithText(t) =>
          parts := parts + [t];
        case Dict(entries, repr) =>
          if "text" in entries {
            parts := parts + [entries["text"]];
          } else {
            var t := AfterMarker(repr);
            if t.Some? { parts := parts + [t.value]; }
          }
        case Opaque(repr) =>
          var t := AfterMarker(repr);
          if t.Some? { parts := parts + [t.value]; }
      }
      i := i + 1;
    }
    assert segs[..i] == segs;
  }

  /** `" ".join(text_parts).strip()`: the transcript the segments make. */
  function Transcript(segs: seq<Segment>): (r: string)
    ensures Trimmed(Python, r)
    ensures r != [] ==> Parts(segs) != []
  {
    Strip(Python, Join(Parts(segs), " "))
  }

  /** Segments that only carry `text` attributes yield their texts, space-separated and stripped. */
  lemma TranscriptOfTexts(texts: seq<string>)
    ensures Transcript(seq(|texts|, k requires 0 <= k < |texts| => WithText(texts[k])))
            == Strip(Python, Join(texts, " "))
  {
    TextsParts(texts);
  }

  lemma {:induction false} TextsParts(texts: seq<string>)
    ensures Parts(seq(|texts|, k requires 0 <= k < |texts| => WithText(texts[k]))) == texts
  {
    var segs := seq(|texts|, k requires 0 <= k < |texts| => WithText(texts[k]));
    if texts != [] {
      assert segs[1..] == seq(|texts[1..]|, k requires 0 <= k < |texts[1..]| => WithText(texts[1..][k]));
      TextsParts(texts[1..]);
    }
  }
}
