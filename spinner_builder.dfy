/** The fluent builder of components/.../spinner/SpinnerBuilder.kt. */
module SpinnerBuilders {
  import opened Wrappers
  import opened Spinners

  class SpinnerBuilder {
    var caption: string
    var style: SpinnerStyle
    var updateIntervalMs: Option<int>

    /** Defaults: no label, the braille style, the style's own interval. */
    constructor ()
      ensures caption == "" && style == BRAILLE && updateIntervalMs == None
    {
      caption := "";
      style := BRAILLE;
      updateIntervalMs := None;
    }

    method WithLabel(caption: string) returns (b: SpinnerBuilder)
      modifies this`caption
      ensures b == this && this.caption == caption
    {
      this.caption := caption;
      b := this;
    }

    method WithStyle(style: SpinnerStyle) returns (b: SpinnerBuilder)
      modifies this`style
      ensures b == this && this.style == style
    {
      this.style := style;
      b := this;
    }

    method WithUpdateInterval(intervalMs: int) returns (b: SpinnerBuilder)
      modifies this`updateIntervalMs
      ensures b == this && updateIntervalMs == Some(intervalMs)
    {
      updateIntervalMs := Some(intervalMs);
      b := this;
    }

    /** The interval `build` uses: the explicit one if set, else the style's. */
    function Interval(): (ms: int)
      reads this
      ensures updateIntervalMs.Some? ==> ms == updateIntervalMs.value
      ensures updateIntervalMs.None? ==> ms == style.interval
    {
      if updateIntervalMs.Some? then updateIntervalMs.value else style.interval
    }

    /** `build()`: label and style unchanged, the interval as above. */
    method Build() returns (spinner: Spinner)
      requires |style.frames| > 0
      ensures fresh(spinner) && spinner.Valid() && !spinner.closed
      ensures spinner.caption == caption && spinner.style == style && spinner.updateIntervalMs == Interval()
    {
      spinner := new Spinner(caption, style, Interval());
    }
  }

  /** A default spinner ticks every 80 ms; an explicit interval overrides the style's. */
  method IntervalFallback() returns (plain: SpinnerBuilder, tuned: SpinnerBuilder)
    ensures plain.Interval() == 80
    ensures tuned.Interval() == 250
  {
    plain := new SpinnerBuilder();
    tuned := new SpinnerBuilder();
    var _ := tuned.WithStyle(LINE);
    var _ := tuned.WithUpdateInterval(250);
  }
}
