/** The text side of components/.../ProgressRenderer.kt: the terminal width
    fallback, the bar width, the determinate and indeterminate bars and the
    duration format. Writing to the terminal is left out. */
module ProgressRendering {
  import opened Wrappers
  import opened Text

  const DEFAULT_WIDTH: int := 80
  const MIN_BAR_WIDTH: int := 10

  /** The glyphs of a bar (ProgressBarStyle.kt). */
  datatype ProgressBarStyle = ProgressBarStyle(
    leftBracket: string,
    rightBracket: string,
    filledChar: string,
    unfilledChar: string,
    indeterminateChars: seq<string>)

  const BRAILLE_FRAMES: seq<string> := ["⠋", "⠙", "⠹", "⠸", "⠼", "⠴", "⠦", "⠧", "⠇", "⠏"]
  const UNICODE := ProgressBarStyle("[", "]", "█", "░", BRAILLE_FRAMES)
  const ASCII := ProgressBarStyle("[", "]", "#", "-", ["|", "/", "-", "\\"])
  const MINIMAL := ProgressBarStyle("", "", "=", " ", BRAILLE_FRAMES)
  const DOTS := ProgressBarStyle("[", "]", "●", "○", BRAILLE_FRAMES)

  /** `getTerminalWidth`: 80 unless auto-detection is on and `tput cols`
      printed a number (`detected`). */
  function TerminalWidth(autoDetect: bool, detected: Option<int>): (w: int)
    ensures !autoDetect || detected.None? ==> w == DEFAULT_WIDTH
    ensures autoDetect && detected.Some? ==> w == detected.value
  {
    if autoDetect && detected.Some? then detected.value else DEFAULT_WIDTH
  }

  /** `calculateBarWidth`: what is left of the terminal after the label, the
      suffix, the brackets and two spaces, but never less than 10. */
  function BarWidth(terminalWidth: int, caption: string, suffixLength: int, bracketLength: int): (w: int)
    ensures w >= MIN_BAR_WIDTH
    ensures w >= terminalWidth - (|caption| + suffixLength + bracketLength + 2)
    ensures w == MIN_BAR_WIDTH || w == terminalWidth - (|caption| + suffixLength + bracketLength + 2)
  {
    Max(MIN_BAR_WIDTH, terminalWidth - (|caption| + suffixLength + bracketLength + 2))
  }

  /** The filled cells of a determinate bar: barWidth * current / total,
      truncated and clamped to [0, barWidth]; none when total <= 0. */
  function FilledWidth(current: int, total: int, barWidth: nat): (f: nat)
    ensures f <= barWidth
    ensures total <= 0 || current <= 0 ==> f == 0
    ensures 0 < total <= current ==> f == barWidth
    ensures 0 < total && 0 <= current <= total ==> f * total <= barWidth * current < (f + 1) * total
  {
    if total <= 0 then 0
    else
      var q := TruncDiv(barWidth * current, total);
      FilledBounds(current, total, barWidth);
      Clamp(q, 0, barWidth)
  }

  lemma FilledBounds(current: int, total: int, barWidth: nat)
    requires total > 0
    ensures current <= 0 ==> TruncDiv(barWidth * current, total) <= 0
    ensures 0 < total <= current ==> TruncDiv(barWidth * current, total) >= barWidth
    ensures 0 <= current <= total ==>
      var q := TruncDiv(barWidth * current, total);
      0 <= q <= barWidth && q * total <= barWidth * current < (q + 1) * total
  {
    var n := barWidth * current;
    if current <= 0 {
      MulMonotone(current, 0, barWidth);
    } else if current >= total {
      MulMonotone(total, current, barWidth);
      QuotientAtLeast(n, total, barWidth);
    } else {
      MulMonotone(current, total, barWidth);
      QuotientAtMost(n, total, barWidth);
    }
  }

  /** More progress never fills fewer cells. */
  lemma FilledMonotone(c1: int, c2: int, total: int, barWidth: nat)
    requires c1 <= c2
    ensures FilledWidth(c1, total, barWidth) <= FilledWidth(c2, total, barWidth)
  {
    if total > 0 && c1 > 0 && c2 < total {
      var f1, f2 := FilledWidth(c1, total, barWidth), FilledWidth(c2, total, barWidth);
      MulMonotone(c1, c2, barWidth);
      assert f1 * total <= barWidth * c1 <= barWidth * c2 < (f2 + 1) * total;
      MulCancel(f1, f2 + 1, total);
    }
  }

  /** A determinate bar: brackets around `filled` filled glyphs and the rest unfilled. */
  function DeterminateBar(style: ProgressBarStyle, filled: nat, barWidth: nat): string
  {
    style.leftBracket + Repeat(style.filledChar, filled) + Repeat(style.unfilledChar, barWidth - filled) +
      style.rightBracket
  }

  /** The first n cells of an indeterminate bar whose glyph sits at `position`. */
  function IndeterminateCells(n: nat, position: int, glyph: string, unfilled: string): string
  {
    if n == 0 then []
    else IndeterminateCells(n - 1, position, glyph, unfilled) + (if n - 1 == position then glyph else unfilled)
  }

  /** The indeterminate glyph of a frame, and where it sits. */
  function Glyph(style: ProgressBarStyle, frame: nat): string
    requires |style.indeterminateChars| > 0
  {
    style.indeterminateChars[frame % |style.indeterminateChars|]
  }

  function GlyphPosition(barWidth: nat, frame: nat): (p: nat)
    ensures p <= barWidth
  {
    frame % (barWidth + 1)
  }

  function IndeterminateBar(style: ProgressBarStyle, barWidth: nat, frame: nat): string
    requires |style.indeterminateChars| > 0
  {
    style.leftBracket +
      IndeterminateCells(barWidth, GlyphPosition(barWidth, frame), Glyph(style, frame), style.unfilledChar) +
      style.rightBracket
  }

  /** `buildBar`; an indeterminate bar does not depend on current or total. */
  function Bar(current: int, total: int, barWidth: nat, style: ProgressBarStyle, indeterminate: bool, frame: nat): string
    requires indeterminate ==> |style.indeterminateChars| > 0
  {
    if indeterminate then IndeterminateBar(style, barWidth, frame)
    else DeterminateBar(style, FilledWidth(current, total, barWidth), barWidth)
  }

  /** The cells before the glyph are unfilled, then comes the glyph, then unfilled cells. */
  lemma {:induction false} IndeterminateCellsShape(n: nat, position: nat, glyph: string, unfilled: string)
    ensures n <= position ==> IndeterminateCells(n, position, glyph, unfilled) == Repeat(unfilled, n)
    ensures position < n ==>
      IndeterminateCells(n, position, glyph, unfilled) == Repeat(unfilled, position) + glyph + Repeat(unfilled, n - position - 1)
  {
    if n > 0 {
      IndeterminateCellsShape(n - 1, position, glyph, unfilled);
      if position < n - 1 {
        assert Repeat(unfilled, n - position - 1) == Repeat(unfilled, n - position - 2) + unfilled;
      }
    }
  }

  /** The glyph shows at position frame % (barWidth + 1), so every
      (barWidth + 1)-th frame shows no glyph at all. */
  lemma IndeterminateBarShape(style: ProgressBarStyle, barWidth: nat, frame: nat)
    requires |style.indeterminateChars| > 0
    ensures var p := frame % (barWidth + 1);
      p == barWidth ==>
        IndeterminateBar(style, barWidth, frame) ==
          style.leftBracket + Repeat(style.unfilledChar, barWidth) + style.rightBracket
    ensures var p := frame % (barWidth + 1);
      p < barWidth ==>
        IndeterminateBar(style, barWidth, frame) ==
          style.leftBracket + Repeat(style.unfilledChar, p) +
          style.indeterminateChars[frame % |style.indeterminateChars|] +
          Repeat(style.unfilledChar, barWidth - p - 1) + style.rightBracket
  {
    IndeterminateCellsShape(barWidth, GlyphPosition(barWidth, frame), Glyph(style, frame), style.unfilledChar);
  }

  /** With one-character glyphs a bar is as wide as its brackets plus barWidth. */
  lemma DeterminateBarLength(style: ProgressBarStyle, filled: nat, barWidth: nat)
    requires filled <= barWidth && |style.filledChar| == 1 && |style.unfilledChar| == 1
    ensures |DeterminateBar(style, filled, barWidth)| == |style.leftBracket| + barWidth + |style.rightBracket|
  {
    RepeatLength(style.filledChar, filled);
    RepeatLength(style.unfilledChar, barWidth - filled);
  }

  /** `repeat(n) { append(glyph) }` on a string being built. */
  method AppendRepeated(s: string, glyph: string, n: nat) returns (r: string)
    ensures r == s + Repeat(glyph, n)
  {
    r := s;
    var i := 0;
    while i < n
      invariant 0 <= i <= n
      invariant r == s + Repeat(glyph, i)
    {
      r := r + glyph;
      i := i + 1;
    }
  }

  /** `buildBar`. */
  method BuildBar(current: int, total: int, barWidth: nat, style: ProgressBarStyle, indeterminate: bool, frame: nat)
    returns (bar: string)
    requires indeterminate ==> |style.indeterminateChars| > 0
    ensures bar == Bar(current, total, barWidth, style, indeterminate, frame)
  {
    if indeterminate {
      bar := BuildIndeterminateBar(barWidth, style, frame);
      return;
    }
    var filled := FilledWidth(current, total, barWidth);
    bar := AppendRepeated(style.leftBracket, style.filledChar, filled);
    bar := AppendRepeated(bar, style.unfilledChar, barWidth - filled);
    bar := bar + style.rightBracket;
  }

  /** `buildIndeterminateBar`. */
  method BuildIndeterminateBar(barWidth: nat, style: ProgressBarStyle, frame: nat) returns (bar: string)
    requires |style.indeterminateChars| > 0
    ensures bar == IndeterminateBar(style, barWidth, frame)
  {
    var spinnerChar := style.indeterminateChars[frame % |style.indeterminateChars|];
    var position := frame % (barWidth + 1);
    var cells := "";
    var i := 0;
    while i < barWidth
      invariant 0 <= i <= barWidth
      invariant cells == IndeterminateCells(i, position, spinnerChar, style.unfilledChar)
    {
      if i == position {
        cells := cells + spinnerChar;
      } else {
        cells := cells + style.unfilledChar;
      }
      i := i + 1;
    }
    bar := style.leftBracket + cells + style.rightBracket;
  }

  /** `formatDuration`: seconds under a minute as "Ns", under an hour as
      "Mm Ss", otherwise as "Hh Mm" with the seconds dropped. */
  function FormatDuration(seconds: int): (r: string)
    ensures seconds < 60 ==> r == IntToString(seconds) + "s"
    ensures 60 <= seconds < 3600 ==>
      var m, s := seconds / 60, seconds % 60;
      r == NatToString(m) + "m " + NatToString(s) + "s" && 1 <= m < 60 && s < 60 && m * 60 + s == seconds
    ensures seconds >= 3600 ==>
      var h, m := seconds / 3600, (seconds % 3600) / 60;
      r == NatToString(h) + "h " + NatToString(m) + "m" && h >= 1 && m < 60 &&
      h * 3600 + m * 60 <= seconds < h * 3600 + m * 60 + 60
  {
    if seconds < 60 then IntToString(seconds) + "s"
    else if seconds < 3600 then NatToString(seconds / 60) + "m " + NatToString(seconds % 60) + "s"
    else NatToString(seconds / 3600) + "h " + NatToString((seconds % 3600) / 60) + "m"
  }

  lemma FormatDurationExamples()
    ensures FormatDuration(59) == "59s"
    ensures FormatDuration(61) == "1m 1s"
    ensures FormatDuration(3725) == "1h 2m"
  {
  }
}
