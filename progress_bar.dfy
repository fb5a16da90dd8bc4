/** The progress bar of components/.../ProgressBar.kt: its clamped counter,
    its message, the `closed` guard, the suffix and the assembled line.
    Each render appends its line to `lines` instead of writing it. Whether
    the update interval has elapsed is the `due` parameter of the
    throttled operations, and the rate and ETA parts that depend on the
    clock come in already formatted as `timed`. */
module ProgressBars {
  import opened Wrappers
  import opened Text
  import opened ProgressRendering

  const PART_SEPARATOR: string := " | "

  /** `current * 100 / total` with Kotlin's truncating division, or 0 without a total. */
  function Percentage(current: int, total: int): (p: int)
    ensures total <= 0 ==> p == 0
    ensures total > 0 && 0 <= current <= total ==> 0 <= p <= 100
    ensures total > 0 && current == total ==> p == 100
  {
    if total <= 0 then 0
    else if 0 <= current <= total then
      MulMonotone(current, total, 100);
      QuotientAtMost(current * 100, total, 100);
      if current == total then QuotientAtLeast(current * 100, total, 100); TruncDiv(current * 100, total)
      else TruncDiv(current * 100, total)
    else TruncDiv(current * 100, total)
  }

  /** `String.format("%3d%%", p)`. */
  function PercentText(p: int): (s: string)
    ensures |s| >= 4
    ensures s[|s| - 1] == '%' && s[..|s| - 1] == PadStart(IntToString(p), 3)
  {
    PadStart(IntToString(p), 3) + "%"
  }

  lemma {:induction false} ShortNumbers(n: nat)
    requires n <= 999
    ensures |NatToString(n)| <= 3
  {
    if n >= 10 {
      assert n / 10 < 100;
      if n / 10 >= 10 {
        assert NatToString(n / 10) == NatToString(n / 100) + [DigitChar(n / 10 % 10)];
      }
    }
  }

  /** A percentage between 0 and 100 always takes exactly four characters. */
  lemma PercentWidth(p: int)
    requires 0 <= p <= 100
    ensures |PercentText(p)| == 4
  {
    ShortNumbers(p);
  }

  /** `"$current/$total"`. */
  function CountText(current: int, total: int): (s: string)
    ensures s == IntToString(current) + "/" + IntToString(total)
    ensures '/' in s
  {
    IntToString(current) + "/" + IntToString(total)
  }

  /** The parts of `buildSuffix`, in order: percentage, count, the timed
      parts (rate, ETA), message. */
  function SuffixParts(showPercentage: bool, showCount: bool, indeterminate: bool, current: int, total: int,
                       timed: seq<string>, message: string): (parts: seq<string>)
    ensures var np := if showPercentage && !indeterminate then 1 else 0;
      var nc := if showCount && !indeterminate then 1 else 0;
      var nm := if message != "" then 1 else 0;
      |parts| == np + nc + |timed| + nm
    ensures showPercentage && !indeterminate ==> parts[0] == PercentText(Percentage(current, total))
    ensures showCount && !indeterminate ==>
      parts[if showPercentage then 1 else 0] == CountText(current, total)
    ensures var k := if indeterminate then 0 else (if showPercentage then 1 else 0) + (if showCount then 1 else 0);
      parts[k..k + |timed|] == timed
    ensures message != "" ==> parts[|parts| - 1] == message
  {
    var percent := if showPercentage && !indeterminate then [PercentText(Percentage(current, total))] else [];
    var count := if showCount && !indeterminate then [CountText(current, total)] else [];
    var last := if message != "" then [message] else [];
    FourPartLayout(percent, count, timed, last);
    percent + count + timed + last
  }

  /** Where each of four concatenated groups of parts ends up. */
  lemma FourPartLayout(a: seq<string>, b: seq<string>, c: seq<string>, d: seq<string>)
    ensures |a + b + c + d| == |a| + |b| + |c| + |d|
    ensures |a| == 1 ==> (a + b + c + d)[0] == a[0]
    ensures |b| == 1 ==> (a + b + c + d)[|a|] == b[0]
    ensures (a + b + c + d)[|a| + |b|..|a| + |b| + |c|] == c
    ensures |d| == 1 ==> (a + b + c + d)[|a| + |b| + |c|] == d[0]
  {
    assert (a + b + c + d)[|a| + |b|..|a| + |b| + |c|] == c;
  }

  /** `buildProgressLine`'s assembly: label and a space, the bar, a space and the suffix. */
  function Line(caption: string, bar: string, suffix: string): (line: string)
    ensures |line| == |caption| + |bar| + |suffix| + (if caption == "" then 0 else 1) + (if suffix == "" then 0 else 1)
    ensures caption != "" ==> line[..|caption| + 1] == caption + " "
    ensures var start := if caption == "" then 0 else |caption| + 1;
      line[start..start + |bar|] == bar
    ensures suffix != "" ==> line[|line| - |suffix| - 1..] == " " + suffix
  {
    (if caption != "" then caption + " " else "") + bar + (if suffix != "" then " " + suffix else "")
  }

  /** The whole line of a bar of the given options. */
  function ProgressLine(terminalWidth: int, caption: string, style: ProgressBarStyle, indeterminate: bool,
                        current: int, total: int, frame: nat, suffix: string): string
    requires indeterminate ==> |style.indeterminateChars| > 0
  {
    var barWidth := BarWidth(terminalWidth, caption, |suffix|, |style.leftBracket| + |style.rightBracket|);
    Line(caption, Bar(current, total, barWidth, style, indeterminate, frame), suffix)
  }

  /** With one-character glyphs, a label, a suffix and room for at least ten
      cells, a determinate line is exactly as wide as the terminal. */
  lemma LineFillsTerminal(terminalWidth: int, caption: string, style: ProgressBarStyle,
                          current: int, total: int, frame: nat, suffix: string)
    requires |style.filledChar| == 1 && |style.unfilledChar| == 1
    requires caption != "" && suffix != ""
    requires terminalWidth - (|caption| + |suffix| + |style.leftBracket| + |style.rightBracket| + 2) >= MIN_BAR_WIDTH
    ensures |ProgressLine(terminalWidth, caption, style, false, current, total, frame, suffix)| == terminalWidth
  {
    var barWidth := BarWidth(terminalWidth, caption, |suffix|, |style.leftBracket| + |style.rightBracket|);
    DeterminateBarLength(style, FilledWidth(current, total, barWidth), barWidth);
  }

  datatype StepError = EmptyRange(total: int)

  class ProgressBar {
    const total: int
    const caption: string
    const fixedWidth: Option<int>
    /** What `getTerminalWidth` yields when there is no fixed width. */
    const terminalWidth: int
    const style: ProgressBarStyle
    const indeterminate: bool
    const showRate: bool
    const showEta: bool
    const showPercentage: bool
    const showCount: bool
    const unit: string
    const updateIntervalMs: int

    var current: int
    var message: string
    var closed: bool
    var spinnerFrame: nat
    /** The lines rendered so far, oldest first. */
    var lines: seq<string>

    /** The counter never passes the total (once there is one). */
    predicate Valid()
      reads this
    {
      (indeterminate ==> |style.indeterminateChars| > 0) && current <= Max(0, total)
    }

    function Width(): int
    {
      if fixedWidth.Some? then fixedWidth.value else terminalWidth
    }

    function Suffix(timed: seq<string>): string
      reads this`current, this`message
    {
      JoinWith(SuffixParts(showPercentage, showCount, indeterminate, current, total, timed, message), PART_SEPARATOR)
    }

    /** The line a render would produce now. */
    function CurrentLine(timed: seq<string>): string
      reads this`current, this`message, this`spinnerFrame
      requires indeterminate ==> |style.indeterminateChars| > 0
    {
      ProgressLine(Width(), caption, style, indeterminate, current, total, spinnerFrame, Suffix(timed))
    }

    /** The constructor renders the first line. */
    constructor (total: int, caption: string, fixedWidth: Option<int>, terminalWidth: int, style: ProgressBarStyle,
                 indeterminate: bool, showRate: bool, showEta: bool, showPercentage: bool, showCount: bool,
                 unit: string, updateIntervalMs: int, timed: seq<string>)
      requires indeterminate ==> |style.indeterminateChars| > 0
      ensures this.total == total && this.caption == caption && this.fixedWidth == fixedWidth
      ensures this.terminalWidth == terminalWidth && this.style == style && this.indeterminate == indeterminate
      ensures this.showRate == showRate && this.showEta == showEta && this.showPercentage == showPercentage
      ensures this.showCount == showCount && this.unit == unit && this.updateIntervalMs == updateIntervalMs
      ensures Valid() && current == 0 && message == "" && !closed
      ensures spinnerFrame == (if indeterminate then 1 else 0) && lines == [CurrentLine(timed)]
    {
      this.total := total;
      this.caption := caption;
      this.fixedWidth := fixedWidth;
      this.terminalWidth := terminalWidth;
      this.style := style;
      this.indeterminate := indeterminate;
      this.showRate := showRate;
      this.showEta := showEta;
      this.showPercentage := showPercentage;
      this.showCount := showCount;
      this.unit := unit;
      this.updateIntervalMs := updateIntervalMs;
      current := 0;
      message := "";
      closed := false;
      spinnerFrame := if indeterminate then 1 else 0;
      new;
      lines := [CurrentLine(timed)];
    }

    /** `render(force = true)`: advances the frame of an indeterminate bar and renders. */
    method RenderNow(timed: seq<string>)
      requires Valid()
      modifies this`spinnerFrame, this`lines
      ensures old(closed) ==> spinnerFrame == old(spinnerFrame) && lines == old(lines)
      ensures !old(closed) ==> spinnerFrame == old(spinnerFrame) + (if indeterminate then 1 else 0)
      ensures !old(closed) ==> lines == old(lines) + [CurrentLine(timed)]
    {
      if closed {
        return;
      }
      if indeterminate {
        spinnerFrame := spinnerFrame + 1;
      }
      lines := lines + [CurrentLine(timed)];
    }

    /** `maybeRender`: renders only when the update interval has elapsed. */
    method MaybeRender(due: bool, timed: seq<string>)
      requires Valid()
      modifies this`spinnerFrame, this`lines
      ensures !due || closed ==> spinnerFrame == old(spinnerFrame) && lines == old(lines)
      ensures due && !closed ==> spinnerFrame == old(spinnerFrame) + (if indeterminate then 1 else 0)
      ensures due && !closed ==> lines == old(lines) + [CurrentLine(timed)]
    {
      if due {
        RenderNow(timed);
      }
    }

    /** `step(amount)`: adds to the counter but never past the total; there is
        no lower bound, so a negative amount can take it below 0. */
    method Step(amount: int, due: bool, timed: seq<string>)
      requires Valid()
      modifies this`current, this`spinnerFrame, this`lines
      ensures Valid()
      ensures old(closed) ==> current == old(current) && lines == old(lines) && spinnerFrame == old(spinnerFrame)
      ensures !old(closed) ==> current == Min(old(current) + amount, total)
      ensures !old(closed) ==> spinnerFrame == old(spinnerFrame) + (if due && indeterminate then 1 else 0)
      ensures !old(closed) ==> lines == old(lines) + (if due then [CurrentLine(timed)] else [])
    {
      if closed {
        return;
      }
      current := Min(current + amount, total);
      MaybeRender(due, timed);
    }

    /** `stepTo(value)`: sets the counter to value clamped into [0, total];
        with a negative total the clamp range is empty and the call fails. */
    method StepTo(value: int, due: bool, timed: seq<string>) returns (r: Result<(), StepError>)
      requires Valid()
      modifies this`current, this`spinnerFrame, this`lines
      ensures Valid()
      ensures r.Failure? <==> !old(closed) && total < 0
      ensures old(closed) || total < 0 ==>
        current == old(current) && lines == old(lines) && spinnerFrame == old(spinnerFrame)
      ensures !old(closed) && total >= 0 ==> 0 <= current <= total
      ensures !old(closed) && 0 <= value <= total ==> current == value
      ensures !old(closed) && total >= 0 ==> spinnerFrame == old(spinnerFrame) + (if due && indeterminate then 1 else 0)
      ensures !old(closed) && total >= 0 ==> lines == old(lines) + (if due then [CurrentLine(timed)] else [])
    {
      if closed {
        return Success(());
      }
      if total < 0 {
        return Failure(EmptyRange(total));
      }
      current := Clamp(value, 0, total);
      MaybeRender(due, timed);
      r := Success(());
    }

    /** `message(text)`. */
    method Message(text: string, due: bool, timed: seq<string>)
      requires Valid()
      modifies this`message, this`spinnerFrame, this`lines
      ensures Valid()
      ensures old(closed) ==> message == old(message) && lines == old(lines) && spinnerFrame == old(spinnerFrame)
      ensures !old(closed) ==> message == text
      ensures !old(closed) ==> spinnerFrame == old(spinnerFrame) + (if due && indeterminate then 1 else 0)
      ensures !old(closed) ==> lines == old(lines) + (if due then [CurrentLine(timed)] else [])
    {
      if closed {
        return;
      }
      message := text;
      MaybeRender(due, timed);
    }

    /** `finish()`: completes a determinate bar, renders a last line and closes. */
    method Finish(timed: seq<string>)
      requires Valid()
      modifies this`current, this`spinnerFrame, this`lines, this`closed
      ensures Valid() && closed
      ensures old(closed) ==> current == old(current) && lines == old(lines) && spinnerFrame == old(spinnerFrame)
      ensures !old(closed) ==> current == (if indeterminate then old(current) else total)
      ensures !old(closed) ==> spinnerFrame == old(spinnerFrame) + (if indeterminate then 1 else 0)
      ensures !old(closed) ==> lines == old(lines) + [CurrentLine(timed)]
      ensures !old(closed) && !indeterminate && total > 0 ==>
        Percentage(current, total) == 100
    {
      if closed {
        return;
      }
      if !indeterminate {
        current := total;
      }
      RenderNow(timed);
      closed := true;
    }

    /** `close()` is `finish()`. */
    method Close(timed: seq<string>)
      requires Valid()
      modifies this`current, this`spinnerFrame, this`lines, this`closed
      ensures Valid() && closed
      ensures old(closed) ==> current == old(current) && lines == old(lines) && spinnerFrame == old(spinnerFrame)
      ensures !old(closed) ==> current == (if indeterminate then old(current) else total)
      ensures !old(closed) ==> spinnerFrame == old(spinnerFrame) + (if indeterminate then 1 else 0)
      ensures !old(closed) ==> lines == old(lines) + [CurrentLine(timed)]
    {
      Finish(timed);
    }
  }
}
