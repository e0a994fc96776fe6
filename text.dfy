/**
 * String helpers shared by the Python worker scripts and the Swift app:
 * the two whitespace classes that `str.strip()` and
 * `trimmingCharacters(in: .whitespacesAndNewlines)` remove, trimming,
 * `" ".join`, substring search, decimal rendering and newline framing.
 */
module Text {
  import opened Wrappers

  /** Which runtime's notion of whitespace a trim uses. */
  datatype Charset = Python | Foundation

  /** Python's `str.isspace()`: the characters `str.strip()` removes. */
  predicate IsPythonSpace(c: char) {
    ('\t' <= c <= '\r') || ('\U{1c}' <= c <= ' ') || c == '\U{85}' || c == '\U{a0}'
    || c == '\U{1680}' || ('\U{2000}' <= c <= '\U{200a}') || c == '\U{2028}' || c == '\U{2029}'
    || c == '\U{202f}' || c == '\U{205f}' || c == '\U{3000}'
  }

  /**
   * Foundation's `CharacterSet.whitespacesAndNewlines`: Unicode category Z*,
   * U+0009..U+000D and U+0085.  Unlike Python it does not hold U+001C..U+001F.
   */
  predicate IsFoundationSpace(c: char) {
    ('\t' <= c <= '\r') || c == ' ' || c == '\U{85}' || c == '\U{a0}'
    || c == '\U{1680}' || ('\U{2000}' <= c <= '\U{200a}') || c == '\U{2028}' || c == '\U{2029}'
    || c == '\U{202f}' || c == '\U{205f}' || c == '\U{3000}'
  }

  predicate IsSpace(cs: Charset, c: char) {
    match cs
    case Python => IsPythonSpace(c)
    case Foundation => IsFoundationSpace(c)
  }

  lemma FoundationSpaceIsPythonSpace(c: char)
    ensures IsFoundationSpace(c) ==> IsPythonSpace(c)
    ensures IsPythonSpace(c) && !IsFoundationSpace(c) <==> '\U{1c}' <= c <= '\U{1f}'
  {
  }

  predicate AllSpace(cs: Charset, s: string) {
    forall i :: 0 <= i < |s| ==> IsSpace(cs, s[i])
  }

  /** Neither end of `s` is whitespace: `s` is what a trim produces. */
  predicate Trimmed(cs: Charset, s: string) {
    s == [] || (!IsSpace(cs, s[0]) && !IsSpace(cs, s[|s| - 1]))
  }

  /** `s` without its leading whitespace. */
  function TrimStart(cs: Charset, s: string): (r: string)
    ensures |r| <= |s|
    ensures r == [] || !IsSpace(cs, r[0])
  {
    if s != [] && IsSpace(cs, s[0]) then TrimStart(cs, s[1..]) else s
  }

  /** `s` without its trailing whitespace. */
  function TrimEnd(cs: Charset, s: string): (r: string)
    ensures |r| <= |s|
    ensures r == [] || !IsSpace(cs, r[|r| - 1])
  {
    if s != [] && IsSpace(cs, s[|s| - 1]) then TrimEnd(cs, s[..|s| - 1]) else s
  }

  /** TrimStart removes a prefix, and only whitespace. */
  lemma {:induction false} TrimStartSlice(cs: Charset, s: string)
    ensures var r := TrimStart(cs, s);
            r == s[|s| - |r|..] && AllSpace(cs, s[..|s| - |r|])
  {
    if s != [] && IsSpace(cs, s[0]) {
      TrimStartSlice(cs, s[1..]);
      var r := TrimStart(cs, s);
      assert s[1..][..|s[1..]| - |r|] == s[1..|s| - |r|];
    }
  }

  /** TrimEnd removes a suffix, and only whitespace. */
  lemma {:induction false} TrimEndSlice(cs: Charset, s: string)
    ensures var r := TrimEnd(cs, s);
            r == s[..|r|] && AllSpace(cs, s[|r|..])
  {
    if s != [] && IsSpace(cs, s[|s| - 1]) {
      TrimEndSlice(cs, s[..|s| - 1]);
      var r := TrimEnd(cs, s);
      assert s[..|s| - 1][|r|..] == s[|r|..|s| - 1];
    }
  }

  /**
   * Python's `s.strip()` (charset Python) or Swift's
   * `s.trimmingCharacters(in: .whitespacesAndNewlines)` (charset Foundation):
   * the slice of `s` left after removing whitespace from both ends.
   */
  function Strip(cs: Charset, s: string): (r: string)
    ensures Trimmed(cs, r) && |r| <= |s|
  {
    TrimStartSlice(cs, TrimEnd(cs, s));
    TrimStart(cs, TrimEnd(cs, s))
  }

  /**
   * What a strip removes is whitespace on both ends and nothing else: the result
   * is a slice of `s`, and it is empty exactly when `s` is all whitespace.
   */
  lemma StripSlice(cs: Charset, s: string)
    ensures var r := Strip(cs, s);
            exists i :: 0 <= i <= |s| - |r| && r == s[i..i + |r|]
                        && AllSpace(cs, s[..i]) && AllSpace(cs, s[i + |r|..])
    ensures Strip(cs, s) == [] <==> AllSpace(cs, s)
  {
    var e := TrimEnd(cs, s);
    var r := TrimStart(cs, e);
    TrimEndSlice(cs, s);
    TrimStartSlice(cs, e);
    var i := |e| - |r|;
    assert r == s[i..i + |r|];
    assert s[i + |r|..] == s[|e|..];
    assert s[..i] == e[..i];
    assert r == [] ==> e == [] && s[|e|..] == s;
  }

  lemma {:induction false} TrimEndPadded(cs: Charset, u: string, post: string)
    requires AllSpace(cs, post) && (u == [] || !IsSpace(cs, u[|u| - 1]))
    ensures TrimEnd(cs, u + post) == u
    decreases |post|
  {
    if post == [] {
      assert u + post == u;
    } else {
      var s := u + post;
      assert s[|s| - 1] == post[|post| - 1];
      assert s[..|s| - 1] == u + post[..|post| - 1];
      TrimEndPadded(cs, u, post[..|post| - 1]);
    }
  }

  lemma {:induction false} TrimStartPadded(cs: Charset, pre: string, u: string)
    requires AllSpace(cs, pre) && (u == [] || !IsSpace(cs, u[0]))
    ensures TrimStart(cs, pre + u) == u
    decreases |pre|
  {
    if pre == [] {
      assert pre + u == u;
    } else {
      var s := pre + u;
      assert s[0] == pre[0];
      assert s[1..] == pre[1..] + u;
      TrimStartPadded(cs, pre[1..], u);
    }
  }

  /** Whitespace around an already-trimmed text is exactly what a strip removes. */
  lemma {:induction false} StripPadded(cs: Charset, pre: string, t: string, post: string)
    requires AllSpace(cs, pre) && AllSpace(cs, post) && Trimmed(cs, t)
    ensures Strip(cs, pre + t + post) == t
  {
    var s := pre + t + post;
    if t == [] {
      assert AllSpace(cs, s) by {
        forall k | 0 <= k < |s| ensures IsSpace(cs, s[k]) {
          if k < |pre| { assert s[k] == pre[k]; } else { assert s[k] == post[k - |pre|]; }
        }
      }
      StripSlice(cs, s);
    } else {
      assert (pre + t)[|pre + t| - 1] == t[|t| - 1];
      TrimEndPadded(cs, pre + t, post);
      TrimStartPadded(cs, pre, t);
    }
  }

  lemma StripIdempotent(cs: Charset, s: string)
    ensures Strip(cs, Strip(cs, s)) == Strip(cs, s)
  {
    StripPadded(cs, [], Strip(cs, s), []);
    assert [] + Strip(cs, s) + [] == Strip(cs, s);
  }

  /** Python's `sep.join(parts)`. */
  function Join(parts: seq<string>, sep: string): (r: string)
  {
    if |parts| == 0 then []
    else if |parts| == 1 then parts[0]
    else parts[0] + sep + Join(parts[1..], sep)
  }

  function TotalLength(parts: seq<string>): nat {
    if parts == [] then 0 else |parts[0]| + TotalLength(parts[1..])
  }

  /** A join holds every part and one separator between each neighbouring pair. */
  lemma {:induction false} JoinLength(parts: seq<string>, sep: string)
    ensures |parts| > 0 ==> |Join(parts, sep)| == TotalLength(parts) + (|parts| - 1) * |sep|
    ensures |parts| == 0 ==> Join(parts, sep) == []
  {
    if |parts| > 1 {
      JoinLength(parts[1..], sep);
    }
  }

  /** Joining one more part appends one separator and the part. */
  lemma {:induction false} JoinSnoc(parts: seq<string>, p: string, sep: string)
    requires parts != []
    ensures Join(parts + [p], sep) == Join(parts, sep) + sep + p
  {
    if |parts| == 1 {
      assert (parts + [p])[1..] == [p];
    } else {
      assert (parts + [p])[1..] == parts[1..] + [p];
      JoinSnoc(parts[1..], p, sep);
    }
  }

  predicate OccursAt(s: string, pat: string, i: int) {
    0 <= i && i + |pat| <= |s| && s[i..i + |pat|] == pat
  }

  /** The first index at or after `from` where `pat` occurs in `s`. */
  function IndexFrom(s: string, pat: string, from: nat): (r: Option<nat>)
    ensures r.Some? ==> from <= r.value && OccursAt(s, pat, r.value)
    ensures r.Some? ==> forall i :: from <= i < r.value ==> !OccursAt(s, pat, i)
    ensures r.None? ==> forall i :: from <= i ==> !OccursAt(s, pat, i)
    decreases |s| - from
  {
    if from + |pat| > |s| then None
    else if s[from..from + |pat|] == pat then Some(from)
    else IndexFrom(s, pat, from + 1)
  }

  /** Python's `s.find(pat)` as an Option: the first occurrence, if any. */
  function IndexOf(s: string, pat: string): (r: Option<nat>)
    ensures r.Some? ==> OccursAt(s, pat, r.value)
                        && forall i :: 0 <= i < r.value ==> !OccursAt(s, pat, i)
    ensures r.None? <==> forall i :: !OccursAt(s, pat, i)
  {
    IndexFrom(s, pat, 0)
  }

  predicate IsDigit(c: char) { '0' <= c <= '9' }

  function DigitChar(d: nat): (c: char)
    requires d < 10
    ensures IsDigit(c)
  {
    ('0' as int + d) as char
  }

  /** The decimal digits of `n`, most significant first, no leading zeros. */
  function DecimalNat(n: nat): (r: string)
    ensures |r| >= 1 && forall i :: 0 <= i < |r| ==> IsDigit(r[i])
    ensures n < 10 <==> |r| == 1
  {
    if n < 10 then [DigitChar(n)] else DecimalNat(n / 10) + [DigitChar(n % 10)]
  }

  /** C's `%d`: a minus sign for negatives, then the digits. */
  function Decimal(n: int): string {
    if n < 0 then "-" + DecimalNat(-n) else DecimalNat(n)
  }

  /** The value of a digit string (the inverse of DecimalNat). */
  function DigitsValue(s: string): nat
    requires forall i :: 0 <= i < |s| ==> IsDigit(s[i])
  {
    if s == [] then 0
    else
      assert IsDigit(s[|s| - 1]);
      DigitsValue(s[..|s| - 1]) * 10 + (s[|s| - 1] as int - '0' as int)
  }

  lemma {:induction false} DecimalRoundTrip(n: nat)
    ensures DigitsValue(DecimalNat(n)) == n
  {
    if n >= 10 {
      var s := DecimalNat(n);
      assert s[..|s| - 1] == DecimalNat(n / 10);
      DecimalRoundTrip(n / 10);
    }
  }

  /** What `print(x)` for each x writes: every line followed by a newline. */
  function Lines(ls: seq<string>): string {
    if ls == [] then [] else ls[0] + "\n" + Lines(ls[1..])
  }

  /** Splits text into its newline-terminated lines (a last unterminated piece counts too). */
  function SplitLines(s: string): seq<string>
    decreases |s|
  {
    match IndexOf(s, "\n")
    case None => if s == [] then [] else [s]
    case Some(i) => [s[..i]] + SplitLines(s[i + 1..])
  }

  /** Reading back what was printed line by line gives the lines, when none holds a newline. */
  lemma {:induction false} SplitLinesOfLines(ls: seq<string>)
    requires forall k :: 0 <= k < |ls| ==> '\n' !in ls[k]
    ensures SplitLines(Lines(ls)) == ls
  {
    if ls != [] {
      var s := Lines(ls);
      var l := ls[0];
      assert s == l + "\n" + Lines(ls[1..]);
      assert OccursAt(s, "\n", |l|);
      forall i | 0 <= i < |l| ensures !OccursAt(s, "\n", i) {
        assert s[i] == l[i];
      }
      assert IndexOf(s, "\n") == Some(|l|);
      assert s[..|l|] == l;
      assert s[|l| + 1..] == Lines(ls[1..]);
      SplitLinesOfLines(ls[1..]);
    }
  }
}
