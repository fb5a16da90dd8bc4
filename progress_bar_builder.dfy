/** The fluent builder of components/.../ProgressBarBuilder.kt. */
module ProgressBarBuilders {
  import opened Wrappers
  import opened ProgressRendering
  import opened ProgressBars

  class ProgressBarBuilder {
    var total: int
    var caption: string
    var width: Option<int>
    var style: ProgressBarStyle
    var indeterminate: bool
    var showRate: bool
    var showEta: bool
    var showPercentage: bool
    var showCount: bool
    var unit: string
    var updateIntervalMs: int

    /** Defaults: a total of 100, no label, auto width, the Unicode style,
        percentage and count shown, rate and ETA hidden, unit "items", 100 ms. */
    constructor ()
      ensures total == 100 && caption == "" && width == None && style == UNICODE && !indeterminate
      ensures !showRate && !showEta && showPercentage && showCount && unit == "items" && updateIntervalMs == 100
    {
      total := 100;
      caption := "";
      width := None;
      style := UNICODE;
      indeterminate := false;
      showRate := false;
      showEta := false;
      showPercentage := true;
      showCount := true;
      unit := "items";
      updateIntervalMs := 100;
    }

    /** `withTotal(n)` sets the total and makes the bar determinate again. */
    method WithTotal(total: int) returns (b: ProgressBarBuilder)
      modifies this`total, this`indeterminate
      ensures b == this && this.total == total && !indeterminate
    {
      this.total := total;
      indeterminate := false;
      b := this;
    }

    method WithLabel(caption: string) returns (b: ProgressBarBuilder)
      modifies this`caption
      ensures b == this && this.caption == caption
    {
      this.caption := caption;
      b := this;
    }

    method WithWidth(width: Option<int>) returns (b: ProgressBarBuilder)
      modifies this`width
      ensures b == this && this.width == width
    {
      this.width := width;
      b := this;
    }

    method WithStyle(style: ProgressBarStyle) returns (b: ProgressBarBuilder)
      modifies this`style
      ensures b == this && this.style == style
    {
      this.style := style;
      b := this;
    }

    /** `indeterminate()` switches the bar to indeterminate mode (keeping the total). */
    method Indeterminate() returns (b: ProgressBarBuilder)
      modifies this`indeterminate
      ensures b == this && indeterminate
    {
      indeterminate := true;
      b := this;
    }

    /** `showRate()` and `showEta()` can only switch their part on. */
    method ShowRate() returns (b: ProgressBarBuilder)
      modifies this`showRate
      ensures b == this && showRate
    {
      showRate := true;
      b := this;
    }

    method ShowEta() returns (b: ProgressBarBuilder)
      modifies this`showEta
      ensures b == this && showEta
    {
      showEta := true;
      b := this;
    }

    /** `showPercentage(show)` and `showCount(show)` set their flag either way. */
    method ShowPercentage(show: bool) returns (b: ProgressBarBuilder)
      modifies this`showPercentage
      ensures b == this && showPercentage == show
    {
      showPercentage := show;
      b := this;
    }

    method ShowCount(show: bool) returns (b: ProgressBarBuilder)
      modifies this`showCount
      ensures b == this && showCount == show
    {
      showCount := show;
      b := this;
    }

    method WithUnit(unit: string) returns (b: ProgressBarBuilder)
      modifies this`unit
      ensures b == this && this.unit == unit
    {
      this.unit := unit;
      b := this;
    }

    method WithUpdateInterval(intervalMs: int) returns (b: ProgressBarBuilder)
      modifies this`updateIntervalMs
      ensures b == this && updateIntervalMs == intervalMs
    {
      updateIntervalMs := intervalMs;
      b := this;
    }

    /** `build()` hands every setting to the bar unchanged; `detected` is what
        `tput cols` printed, used only without a fixed width. */
    method Build(detected: Option<int>, timed: seq<string>) returns (bar: ProgressBar)
      requires indeterminate ==> |style.indeterminateChars| > 0
      ensures fresh(bar) && bar.Valid() && !bar.closed && bar.current == 0 && |bar.lines| == 1
      ensures bar.total == total && bar.caption == caption && bar.fixedWidth == width && bar.style == style
      ensures bar.indeterminate == indeterminate && bar.showRate == showRate && bar.showEta == showEta
      ensures bar.showPercentage == showPercentage && bar.showCount == showCount && bar.unit == unit
      ensures bar.updateIntervalMs == updateIntervalMs
      ensures bar.Width() == if width.Some? then width.value else TerminalWidth(true, detected)
    {
      bar := new ProgressBar(total, caption, width, TerminalWidth(width.None?, detected), style, indeterminate,
                             showRate, showEta, showPercentage, showCount, unit, updateIntervalMs, timed);
    }
  }

  /** Of `withTotal` and `indeterminate()` the last call wins. */
  method LastModeWins() returns (determinate: ProgressBarBuilder, indefinite: ProgressBarBuilder)
    ensures !determinate.indeterminate && determinate.total == 50
    ensures indefinite.indeterminate && indefinite.total == 50
  {
    determinate := new ProgressBarBuilder();
    var _ := determinate.Indeterminate();
    var _ := determinate.WithTotal(50);
    indefinite := new ProgressBarBuilder();
    var _ := indefinite.WithTotal(50);
    var _ := indefinite.Indeterminate();
  }
}
