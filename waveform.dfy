/**
 * The scrolling level meter (LiquidGlassScrollingWaveformView): a FIFO of at
 * most 40 clamped level samples, kept in lock-step with one bar per sample.
 * A bar is its frame; its width is always `BarWidth`.  Geometry is real
 * arithmetic; CGFloat rounding and NaN are not modelled.
 */
module Waveform {

  const MaxBars: nat := 40
  const BarWidth: real := 2.0
  const BarSpacing: real := 2.0
  const MinBarHeight: real := 8.0
  const MaxBarHeight: real := 40.0

  /** How far every bar moves left when a sample arrives, and the pitch `layout` uses. */
  const Pitch: real := BarWidth + BarSpacing

  /** A bar layer's frame origin and height. */
  datatype Bar = Bar(x: real, y: real, height: real)

  /** `max(0.0, min(1.0, level))`. */
  function Clamp01(level: real): (r: real)
    ensures 0.0 <= r <= 1.0
    ensures 0.0 <= level <= 1.0 ==> r == level
    ensures level < 0.0 ==> r == 0.0
    ensures level > 1.0 ==> r == 1.0
  {
    if level < 0.0 then 0.0 else if level > 1.0 then 1.0 else level
  }

  /** The height of the bar for a normalised level. */
  function BarHeight(level: real): (h: real)
    requires 0.0 <= level <= 1.0
    ensures MinBarHeight <= h <= MaxBarHeight
    ensures level == 0.0 <==> h == MinBarHeight
    ensures level == 1.0 <==> h == MaxBarHeight
  {
    MinBarHeight + level * (MaxBarHeight - MinBarHeight)
  }

  /** Louder samples never get shorter bars. */
  lemma BarHeightMonotone(a: real, b: real)
    requires 0.0 <= a <= b <= 1.0
    ensures BarHeight(a) <= BarHeight(b)
  {
  }

  /** Appending to a FIFO of capacity `MaxBars`: the oldest entry goes when it overflows. */
  function Push<T>(s: seq<T>, x: T): seq<T> {
    if |s + [x]| > MaxBars then (s + [x])[1..] else s + [x]
  }

  /** The last `n` elements of `s` (all of them when there are fewer). */
  function LastN<T>(s: seq<T>, n: nat): (r: seq<T>)
    ensures |r| == if |s| <= n then |s| else n
  {
    if |s| <= n then s else s[|s| - n..]
  }

  /**
   * One push keeps the bound, puts the new entry last and drops exactly the
   * oldest entry when, and only when, the FIFO was full.
   */
  lemma PushFifo<T>(s: seq<T>, x: T)
    requires |s| <= MaxBars
    ensures |Push(s, x)| <= MaxBars
    ensures Push(s, x)[|Push(s, x)| - 1] == x
    ensures |s| < MaxBars ==> Push(s, x) == s + [x]
    ensures |s| == MaxBars ==> Push(s, x) == s[1..] + [x]
  {
  }

  /** The levels as `addSample` stores them. */
  function ClampAll(levels: seq<real>): seq<real> {
    if levels == [] then [] else [Clamp01(levels[0])] + ClampAll(levels[1..])
  }

  /** The samples after feeding `levels`, one `addSample` call each, to a buffer holding `s`. */
  function Feed(s: seq<real>, levels: seq<real>): seq<real>
    decreases |levels|
  {
    if levels == [] then s else Feed(Push(s, Clamp01(levels[0])), levels[1..])
  }

  /** Dropping the first of more than `n` elements does not change the last `n`. */
  lemma LastNDropFirst<T>(s: seq<T>, n: nat)
    requires |s| > n
    ensures LastN(s[1..], n) == LastN(s, n)
  {
  }

  /** Pushing into the FIFO first and taking the last 40 later agree. */
  lemma PushThenLastN(s: seq<real>, c: real, rest: seq<real>)
    requires |s| <= MaxBars
    ensures LastN(Push(s, c) + rest, MaxBars) == LastN(s + [c] + rest, MaxBars)
  {
    var all := s + [c] + rest;
    PushFifo(s, c);
    if |s| == MaxBars {
      assert Push(s, c) + rest == all[1..];
      LastNDropFirst(all, MaxBars);
    } else {
      assert Push(s, c) + rest == all;
    }
  }

  /** The buffer always holds the 40 most recent clamped samples, oldest first. */
  lemma {:induction false} FeedKeepsMostRecent(s: seq<real>, levels: seq<real>)
    requires |s| <= MaxBars
    ensures Feed(s, levels) == LastN(s + ClampAll(levels), MaxBars)
    decreases |levels|
  {
    if levels == [] {
      assert s + ClampAll(levels) == s;
    } else {
      var c := Clamp01(levels[0]);
      var t := Push(s, c);
      var rest := ClampAll(levels[1..]);
      assert |t| <= MaxBars;
      calc {
        Feed(s, levels);
        Feed(t, levels[1..]);
        { FeedKeepsMostRecent(t, levels[1..]); }
        LastN(t + rest, MaxBars);
        { PushThenLastN(s, c, rest); }
        LastN(s + [c] + rest, MaxBars);
        { assert s + ClampAll(levels) == s + [c] + rest; }
        LastN(s + ClampAll(levels), MaxBars);
      }
    }
  }

  /** After a reset, the samples are exactly the last 40 levels fed, clamped. */
  lemma AfterReset(levels: seq<real>)
    ensures Feed([], levels) == LastN(ClampAll(levels), MaxBars)
  {
    FeedKeepsMostRecent([], levels);
    assert [] + ClampAll(levels) == ClampAll(levels);
  }

  /** `animateScroll`: every bar moves left by one pitch, nothing else changes. */
  function Scrolled(bars: seq<Bar>): (r: seq<Bar>)
    ensures |r| == |bars|
    ensures forall i :: 0 <= i < |bars| ==> r[i] == bars[i].(x := bars[i].x - Pitch)
  {
    seq(|bars|, i requires 0 <= i < |bars| => bars[i].(x := bars[i].x - Pitch))
  }

  /** The frame `layout` gives bar `i` of `n` bars in a view of the given size. */
  function LaidOutBar(bar: Bar, i: nat, n: nat, width: real, height: real): Bar {
    Bar(width - (n - i) as real * Pitch, (height - bar.height) / 2.0, bar.height)
  }

  /**
   * Bars after `layout`: one pitch apart in the same order, the first as many
   * pitches from the right edge as there are bars, the last exactly one pitch
   * from it, and each bar vertically centred at its own height.
   */
  lemma LayoutOrder(bars: seq<Bar>, width: real, height: real, i: nat, j: nat)
    requires i <= j < |bars|
    ensures LaidOutBar(bars[i], i, |bars|, width, height).x
            + (j - i) as real * Pitch == LaidOutBar(bars[j], j, |bars|, width, height).x
    ensures LaidOutBar(bars[0], 0, |bars|, width, height).x == width - |bars| as real * Pitch
    ensures LaidOutBar(bars[|bars| - 1], |bars| - 1, |bars|, width, height).x == width - Pitch
    ensures var b := LaidOutBar(bars[j], j, |bars|, width, height);
            b.height == bars[j].height && b.y + b.height + b.y == height
  {
  }

  /**
   * `layout` leaves the newest bar one pitch from the right edge, but the next
   * `addSample` scrolls it one more pitch left and puts the new bar one bar
   * width from the edge: those two bars are a pitch plus a spacing apart,
   * where every other neighbouring pair is one pitch apart.
   */
  lemma NewBarGapAfterLayout(bars: seq<Bar>, width: real, height: real)
    requires |bars| > 0
    ensures var last := LaidOutBar(bars[|bars| - 1], |bars| - 1, |bars|, width, height);
            var scrolled := Scrolled([last])[0];
            (width - BarWidth) - scrolled.x == Pitch + BarSpacing
            && Pitch + BarSpacing != Pitch
  {
  }

  class ScrollingWaveformView {
    var samples: seq<real>
    var barLayers: seq<Bar>
    var width: real
    var height: real

    /** One bar per sample, at most 40, each sample normalised and each bar as tall as its sample says. */
    predicate Valid()
      reads this
    {
      && |samples| == |barLayers| <= MaxBars
      && (forall i :: 0 <= i < |samples| ==> 0.0 <= samples[i] <= 1.0)
      && (forall i :: 0 <= i < |samples| ==> barLayers[i].height == BarHeight(samples[i]))
    }

    constructor (width: real, height: real)
      ensures Valid() && samples == [] && barLayers == []
      ensures this.width == width && this.height == height
    {
      samples := [];
      barLayers := [];
      this.width := width;
      this.height := height;
    }

    /** `addSample`: scroll, append the clamped sample and its bar at the right edge, drop the oldest on overflow. */
    method AddSample(level: real)
      requires Valid()
      modifies this`samples, this`barLayers
      ensures Valid()
      ensures samples == Push(old(samples), Clamp01(level))
      ensures var l := Clamp01(level);
              var h := BarHeight(l);
              barLayers == Push(Scrolled(old(barLayers)), Bar(width - BarWidth, (height - h) / 2.0, h))
    {
      var normalizedLevel := Clamp01(level);
      samples := samples + [normalizedLevel];
      barLayers := Scrolled(barLayers);
      var barHeight := MinBarHeight + normalizedLevel * (MaxBarHeight - MinBarHeight);
      var newBar := Bar(width - BarWidth, (height - barHeight) / 2.0, barHeight);
      barLayers := barLayers + [newBar];
      if |barLayers| > MaxBars {
        barLayers := barLayers[1..];
        samples := samples[1..];
      }
    }

    /** `reset`: both sequences empty. */
    method Reset()
      modifies this`samples, this`barLayers
      ensures Valid() && samples == [] && barLayers == []
    {
      barLayers := [];
      samples := [];
    }

    /** `layout`: walks the bars left to right, advancing the x position by one pitch per bar. */
    method Layout()
      requires Valid()
      modifies this`barLayers
      ensures Valid()
      ensures |barLayers| == |old(barLayers)|
      ensures forall i :: 0 <= i < |barLayers| ==>
                barLayers[i] == LaidOutBar(old(barLayers)[i], i, |barLayers|, width, height)
    {
      var n := |barLayers|;
      var xPosition := width - n as real * Pitch;
      var i := 0;
      while i < n
        invariant 0 <= i <= n == |barLayers| == |samples|
        invariant xPosition == width - (n - i) as real * Pitch
        invariant forall k :: 0 <= k < n ==> barLayers[k].height == old(barLayers)[k].height
        invariant forall k :: 0 <= k < i ==> barLayers[k] == LaidOutBar(old(barLayers)[k], k, n, width, height)
        invariant forall k :: i <= k < n ==> barLayers[k] == old(barLayers)[k]
      {
        var barHeight := barLayers[i].height;
        var yPosition := (height - barHeight) / 2.0;
        barLayers := barLayers[i := Bar(xPosition, yPosition, barHeight)];
        xPosition := xPosition + Pitch;
        i := i + 1;
      }
    }
  }
}
