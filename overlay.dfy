/**
 * The floating recording indicator (RecordingFloatingWindow): which of its
 * three states it is in, which content view it shows, the timer label and the
 * scrolling waveform it feeds.  View swaps are modelled as completed at once;
 * each animated swap is logged as an (old view, new view) pair.
 */
module Overlay {
  import opened Wrappers
  import opened Text
  import Waveform

  datatype State = Recording | Processing | Error

  /** The three content views the window owns. */
  datatype View = RecordingView | ProcessingView | ErrorView

  /** The view that belongs to each state. */
  function ViewFor(s: State): (v: View)
    ensures s == Recording <==> v == RecordingView
    ensures s == Processing <==> v == ProcessingView
    ensures s == Error <==> v == ErrorView
  {
    match s
    case Recording => RecordingView
    case Processing => ProcessingView
    case Error => ErrorView
  }

  /** What `resetTimer` writes. */
  const ResetText: string := "0:00"

  /** Swift's `Int(duration)`: the fraction is dropped, rounding toward zero. */
  function TruncateToInt(d: real): (r: int)
    ensures d >= 0.0 ==> 0 <= r && r as real <= d < r as real + 1.0
    ensures d < 0.0 ==> r <= 0 && r as real - 1.0 < d <= r as real
  {
    if d >= 0.0 then d.Floor else -((-d).Floor)
  }

  /** Swift's `Int` division by a positive divisor, truncating toward zero, with its remainder. */
  function QuotRem(a: int, b: int): (qr: (int, int))
    requires b > 0
    ensures a == b * qr.0 + qr.1
    ensures a >= 0 ==> 0 <= qr.1 < b
    ensures a < 0 ==> -b < qr.1 <= 0
  {
    if a >= 0 then (a / b, a % b) else (-((-a) / b), -((-a) % b))
  }

  /** C's `%02d`: at least two characters, zero-padded after any sign. */
  function Pad2(n: int): (r: string)
    ensures 0 <= n < 100 ==> |r| == 2 && IsDigit(r[0]) && IsDigit(r[1])
  {
    if 0 <= n < 10 then ['0', DigitChar(n)] else Decimal(n)
  }

  /** `String(format: "%d:%02d", mins, secs)` for the duration in seconds. */
  function TimerText(duration: real): string {
    var (mins, secs) := QuotRem(TruncateToInt(duration), 60);
    Decimal(mins) + ":" + Pad2(secs)
  }

  /** Reads "m:ss" back as (minutes, seconds). */
  function ParseTimer(s: string): Option<(nat, nat)> {
    if |s| >= 4 && s[|s| - 3] == ':'
       && (forall i :: 0 <= i < |s| - 3 ==> IsDigit(s[i]))
       && IsDigit(s[|s| - 2]) && IsDigit(s[|s| - 1])
    then Some((DigitsValue(s[..|s| - 3]), DigitsValue(s[|s| - 2..])))
    else None
  }

  /** The two digits `%02d` writes for a number under 100 read back as that number. */
  lemma Pad2Value(n: nat)
    requires n < 100
    ensures DigitsValue(Pad2(n)) == n
  {
    if n < 10 {
      assert Pad2(n)[..1] == "0";
      assert DigitsValue("0") == DigitsValue("0"[..0]) * 10 + 0;
    } else {
      DecimalRoundTrip(n);
    }
  }

  /**
   * For a non-negative duration the label reads back as whole minutes and
   * seconds under 60 that add up to the whole seconds elapsed.
   */
  lemma TimerTextRoundTrip(duration: real)
    requires duration >= 0.0
    ensures var p := ParseTimer(TimerText(duration));
            p.Some? && p.value.1 < 60 && p.value.0 * 60 + p.value.1 == duration.Floor
  {
    var t := TruncateToInt(duration);
    var (mins, secs) := QuotRem(t, 60);
    var m := DecimalNat(mins);
    var ss := Pad2(secs);
    var s := TimerText(duration);
    assert s == m + ":" + ss;
    assert s[..|s| - 3] == m;
    assert s[|s| - 2..] == ss;
    DecimalRoundTrip(mins);
    Pad2Value(secs);
  }

  /** A zero duration shows what `resetTimer` shows. */
  lemma ZeroDurationIsReset()
    ensures TimerText(0.0) == ResetText
  {
    assert QuotRem(0, 60) == (0, 0);
  }

  class RecordingFloatingWindow {
    var currentState: State
    var currentContentView: View
    var timerText: string
    var errorMessage: string
    var visible: bool
    /** The view swaps animated so far, oldest first. */
    var transitions: seq<(View, View)>
    const waveform: Waveform.ScrollingWaveformView

    /** The view on screen is the one for the current state, and the waveform is consistent. */
    predicate Valid()
      reads this, waveform
    {
      currentContentView == ViewFor(currentState) && waveform.Valid()
    }

    /** `init`: starts hidden, in the recording state, showing the recording view and "0:00". */
    constructor ()
      ensures Valid() && fresh(waveform)
      ensures currentState == Recording && timerText == ResetText && !visible && transitions == []
      ensures waveform.samples == [] && waveform.barLayers == []
    {
      currentState := Recording;
      currentContentView := RecordingView;
      timerText := ResetText;
      errorMessage := "";
      visible := false;
      transitions := [];
      waveform := new Waveform.ScrollingWaveformView(122.0, 40.0);
    }

    /**
     * `show`: back to the recording state (switching views without an
     * animation), timer reset, waveform emptied, window on screen.
     */
    method Show()
      requires Valid()
      modifies this, waveform`samples, waveform`barLayers
      ensures Valid()
      ensures currentState == Recording && timerText == ResetText && visible
      ensures waveform.samples == [] && waveform.barLayers == []
      ensures errorMessage == old(errorMessage) && transitions == old(transitions)
    {
      if currentState != Recording {
        currentState := Recording;
        currentContentView := RecordingView;
      }
      ResetTimer();
      waveform.Reset();
      visible := true;
    }

    /** `hide`, once its fade-out has finished. */
    method Hide()
      modifies this`visible
      ensures !visible
    {
      visible := false;
    }

    /** `updateAudioLevel`: a sample reaches the waveform only in the recording state. */
    method UpdateAudioLevel(level: real)
      requires Valid()
      modifies waveform`samples, waveform`barLayers
      ensures Valid()
      ensures currentState == Recording ==> waveform.samples == Waveform.Push(old(waveform.samples), Waveform.Clamp01(level))
      ensures currentState == Recording ==>
                var h := Waveform.BarHeight(Waveform.Clamp01(level));
                waveform.barLayers == Waveform.Push(Waveform.Scrolled(old(waveform.barLayers)),
                                                    Waveform.Bar(waveform.width - Waveform.BarWidth, (waveform.height - h) / 2.0, h))
      ensures currentState != Recording ==>
                waveform.samples == old(waveform.samples) && waveform.barLayers == old(waveform.barLayers)
    {
      if currentState != Recording {
        return;
      }
      waveform.AddSample(level);
    }

    /** `updateDuration`. */
    method UpdateDuration(duration: real)
      modifies this`timerText
      ensures timerText == TimerText(duration)
    {
      var total := TruncateToInt(duration);
      var (mins, secs) := QuotRem(total, 60);
      timerText := Decimal(mins) + ":" + Pad2(secs);
    }

    /** `resetTimer`. */
    method ResetTimer()
      modifies this`timerText
      ensures timerText == ResetText
    {
      timerText := ResetText;
    }

    /** `showProcessing`. */
    method ShowProcessing()
      requires Valid()
      modifies this`currentState, this`currentContentView, this`transitions
      ensures Valid() && currentState == Processing
      ensures transitions == old(transitions) + if old(currentContentView) == ProcessingView then [] else [(old(currentContentView), ProcessingView)]
    {
      currentState := Processing;
      TransitionToView(ProcessingView);
    }

    /** `showError(message:onRetry:onCancel:)`: the error view shows `message`. */
    method ShowError(message: string)
      requires Valid()
      modifies this`currentState, this`currentContentView, this`transitions, this`errorMessage
      ensures Valid() && currentState == Error && errorMessage == message
      ensures transitions == old(transitions) + if old(currentContentView) == ErrorView then [] else [(old(currentContentView), ErrorView)]
    {
      currentState := Error;
      errorMessage := message;
      TransitionToView(ErrorView);
    }

    /** `showRecording`. */
    method ShowRecording()
      requires Valid()
      modifies this`currentState, this`currentContentView, this`transitions
      ensures Valid() && currentState == Recording
      ensures transitions == old(transitions) + if old(currentContentView) == RecordingView then [] else [(old(currentContentView), RecordingView)]
    {
      currentState := Recording;
      TransitionToView(RecordingView);
    }

    /** `transitionToView`: nothing happens when `newView` is already on screen; otherwise one animated swap. */
    method TransitionToView(newView: View)
      modifies this`currentContentView, this`transitions
      ensures currentContentView == newView
      ensures old(currentContentView) == newView ==> transitions == old(transitions)
      ensures old(currentContentView) != newView ==> transitions == old(transitions) + [(old(currentContentView), newView)]
    {
      var oldView := currentContentView;
      if oldView == newView {
        return;
      }
      transitions := transitions + [(oldView, newView)];
      currentContentView := newView;
    }
  }
}
