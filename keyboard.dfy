/**
 * Key synthesis (TextInserter): the character-to-virtual-key table behind
 * `keyCodeForCharacter`, and the key events `typeText` posts.  A Swift
 * `Character` is modelled as one Unicode scalar; posting an event is
 * appending it to a log.
 */
module Keyboard {
  import opened Wrappers

  /** A posted keyboard event for a virtual key code. */
  datatype KeyEvent = KeyDown(code: nat) | KeyUp(code: nat)

  /** The virtual key `insertText` sends with the Command modifier to paste. */
  const CommandV: nat := 0x09

  /** U+212A KELVIN SIGN, the one character outside ASCII whose lower-case form is a table key ('k'). */
  const KelvinSign: char := '\U{212a}'

  /** `charMap`: its 27 entries. */
  function CharMap(c: char): Option<nat> {
    match c
    case 'a' => Some(0x00) case 'b' => Some(0x0B) case 'c' => Some(0x08)
    case 'd' => Some(0x02) case 'e' => Some(0x0E) case 'f' => Some(0x03)
    case 'g' => Some(0x05) case 'h' => Some(0x04) case 'i' => Some(0x22)
    case 'j' => Some(0x26) case 'k' => Some(0x28) case 'l' => Some(0x25)
    case 'm' => Some(0x2E) case 'n' => Some(0x2D) case 'o' => Some(0x1F)
    case 'p' => Some(0x23) case 'q' => Some(0x0C) case 'r' => Some(0x0F)
    case 's' => Some(0x01) case 't' => Some(0x11) case 'u' => Some(0x20)
    case 'v' => Some(0x09) case 'w' => Some(0x0D) case 'x' => Some(0x07)
    case 'y' => Some(0x10) case 'z' => Some(0x06) case ' ' => Some(0x31)
    case _ => None
  }

  predicate IsLower(c: char) { 'a' <= c <= 'z' }
  predicate IsUpper(c: char) { 'A' <= c <= 'Z' }

  /**
   * `Character(c.lowercased())` as far as the table can tell: ASCII capitals
   * and the Kelvin sign become table letters; every other character's lower-case
   * form is not a table key, and is represented by the character itself.
   */
  function Lowercased(c: char): (r: char)
    ensures IsLower(r) <==> IsLower(c) || IsUpper(c) || c == KelvinSign
    ensures r == ' ' <==> c == ' '
  {
    if IsUpper(c) then (c as int + 32) as char
    else if c == KelvinSign then 'k'
    else c
  }

  /** `keyCodeForCharacter`. */
  function KeyCode(c: char): Option<nat> {
    CharMap(Lowercased(c))
  }

  /** The table's keys are the 26 lower-case letters and the space. */
  lemma CharMapKeys(c: char)
    ensures CharMap(c).Some? <==> IsLower(c) || c == ' '
  {
  }

  /** A code is defined exactly for letters of either case, the space, and the Kelvin sign. */
  lemma KeyCodeDefined(c: char)
    ensures KeyCode(c).Some? <==> IsLower(c) || IsUpper(c) || c == ' ' || c == KelvinSign
  {
    CharMapKeys(Lowercased(c));
  }

  /** An upper-case letter types the same key as its lower-case form. */
  lemma CaseInsensitive(c: char)
    requires IsUpper(c)
    ensures KeyCode(c) == KeyCode((c as int + 32) as char)
    ensures KeyCode(c).Some?
  {
    KeyCodeDefined(c);
  }

  /** 'v' is the key `insertText` presses with Command to paste. */
  lemma VIsPasteKey()
    ensures KeyCode('v') == KeyCode('V') == Some(CommandV)
  {
  }

  /** The inverse table: which entry a key code belongs to. */
  function CharFor(code: nat): (r: Option<char>)
    ensures r.Some? ==> CharMap(r.value) == Some(code)
  {
    match code
    case 0x00 => Some('a') case 0x0B => Some('b') case 0x08 => Some('c')
    case 0x02 => Some('d') case 0x0E => Some('e') case 0x03 => Some('f')
    case 0x05 => Some('g') case 0x04 => Some('h') case 0x22 => Some('i')
    case 0x26 => Some('j') case 0x28 => Some('k') case 0x25 => Some('l')
    case 0x2E => Some('m') case 0x2D => Some('n') case 0x1F => Some('o')
    case 0x23 => Some('p') case 0x0C => Some('q') case 0x0F => Some('r')
    case 0x01 => Some('s') case 0x11 => Some('t') case 0x20 => Some('u')
    case 0x09 => Some('v') case 0x0D => Some('w') case 0x07 => Some('x')
    case 0x10 => Some('y') case 0x06 => Some('z') case 0x31 => Some(' ')
    case _ => None
  }

  /** Every table entry is recovered from its code, so the 27 codes are pairwise distinct. */
  lemma CodesDistinct(a: char, b: char)
    requires CharMap(a).Some? && CharMap(b).Some?
    ensures CharFor(CharMap(a).value) == Some(a)
    ensures CharMap(a) == CharMap(b) ==> a == b
  {
  }

  /** Two letters type the same key exactly when they are the same letter up to case. */
  lemma SameKeySameLetter(a: char, b: char)
    requires KeyCode(a).Some? && KeyCode(b).Some?
    ensures KeyCode(a) == KeyCode(b) <==> Lowercased(a) == Lowercased(b)
  {
    KeyCodeDefined(a);
    KeyCodeDefined(b);
    CharMapKeys(Lowercased(a));
    CharMapKeys(Lowercased(b));
    if KeyCode(a) == KeyCode(b) {
      CodesDistinct(Lowercased(a), Lowercased(b));
    }
  }

  /** The events `typeText` posts for `text`: a key-down then a key-up per mappable character. */
  function Typed(text: string): seq<KeyEvent> {
    if text == [] then []
    else
      match KeyCode(text[0])
      case Some(k) => [KeyDown(k), KeyUp(k)] + Typed(text[1..])
      case None => Typed(text[1..])
  }

  /** The codes of the mappable characters of `text`, in order. */
  function Codes(text: string): seq<nat> {
    if text == [] then []
    else
      match KeyCode(text[0])
      case Some(k) => [k] + Codes(text[1..])
      case None => Codes(text[1..])
  }

  lemma {:induction false} TypedAppend(a: string, b: string)
    ensures Typed(a + b) == Typed(a) + Typed(b)
  {
    if a == [] {
      assert a + b == b;
    } else {
      assert (a + b)[0] == a[0];
      assert (a + b)[1..] == a[1..] + b;
      TypedAppend(a[1..], b);
    }
  }

  /** A key-down then a key-up for each code, in order. */
  function Strokes(codes: seq<nat>): seq<KeyEvent> {
    if codes == [] then [] else [KeyDown(codes[0]), KeyUp(codes[0])] + Strokes(codes[1..])
  }

  /** Typing posts exactly the strokes of the mappable characters' codes. */
  lemma {:induction false} TypedIsStrokes(text: string)
    ensures Typed(text) == Strokes(Codes(text))
  {
    if text != [] {
      TypedIsStrokes(text[1..]);
      match KeyCode(text[0])
      case None =>
      case Some(k) =>
        assert Codes(text)[1..] == Codes(text[1..]);
    }
  }

  lemma {:induction false} StrokesPair(codes: seq<nat>)
    ensures |Strokes(codes)| == 2 * |codes|
    ensures forall i :: 0 <= i < |codes| ==>
              Strokes(codes)[2 * i] == KeyDown(codes[i]) && Strokes(codes)[2 * i + 1] == KeyUp(codes[i])
  {
    if codes != [] {
      StrokesPair(codes[1..]);
      var s := Strokes(codes);
      forall i | 1 <= i < |codes|
        ensures s[2 * i] == KeyDown(codes[i]) && s[2 * i + 1] == KeyUp(codes[i])
      {
        assert s[2 * i] == Strokes(codes[1..])[2 * (i - 1)];
        assert s[2 * i + 1] == Strokes(codes[1..])[2 * (i - 1) + 1];
      }
    }
  }

  /**
   * The posted events pair up: for the i-th mappable character, event 2i is
   * its key-down and event 2i+1 its key-up; unmappable characters post nothing.
   */
  lemma TypedPairs(text: string)
    ensures |Typed(text)| == 2 * |Codes(text)|
    ensures forall i :: 0 <= i < |Codes(text)| ==>
              Typed(text)[2 * i] == KeyDown(Codes(text)[i]) && Typed(text)[2 * i + 1] == KeyUp(Codes(text)[i])
  {
    TypedIsStrokes(text);
    StrokesPair(Codes(text));
  }

  /** Text made of table characters alone types one key per character. */
  lemma {:induction false} CodesOfTableText(text: string)
    requires forall i :: 0 <= i < |text| ==> KeyCode(text[i]).Some?
    ensures |Codes(text)| == |text|
  {
    if text != [] {
      CodesOfTableText(text[1..]);
    }
  }

  /** `typeText`: walks the characters, posting key-down and key-up for each one with a code. */
  method TypeText(text: string) returns (events: seq<KeyEvent>)
    ensures events == Typed(text)
  {
    events := [];
    for i := 0 to |text|
      invariant events == Typed(text[..i])
    {
      var ch := text[i];
      TypedAppend(text[..i], [ch]);
      assert text[..i + 1] == text[..i] + [ch];
      var keyCode := KeyCode(ch);
      if keyCode.Some? {
        events := events + [KeyDown(keyCode.value)];
        events := events + [KeyUp(keyCode.value)];
      }
    }
    assert text[..|text|] == text;
  }
}
