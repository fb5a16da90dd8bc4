/** The spinner of components/.../spinner/Spinner.kt: its frame counter, its
    message, the `closed` guard and the line it shows. Each render appends
    its line to `lines`; whether the update interval has elapsed is the
    `due` parameter of the throttled operations. */
module Spinners {
  import opened Text

  /** The animation of a spinner (SpinnerStyle.kt). */
  datatype SpinnerStyle = SpinnerStyle(frames: seq<string>, interval: int)

  const BRAILLE := SpinnerStyle(["⠋", "⠙", "⠹", "⠸", "⠼", "⠴", "⠦", "⠧", "⠇", "⠏"], 80)
  const LINE := SpinnerStyle(["-", "\\", "|", "/"], 100)
  const CIRCLE := SpinnerStyle(["◐", "◓", "◑", "◒"], 120)

  /** `buildSpinnerLine`: the glyph of the frame, then the label and the
      message, each after a space and only when non-empty. */
  function SpinnerLine(frames: seq<string>, frame: nat, caption: string, message: string): (line: string)
    requires |frames| > 0
    ensures var g := frames[frame % |frames|];
      |line| == |g| + (if caption == "" then 0 else |caption| + 1) + (if message == "" then 0 else |message| + 1) &&
      line[..|g|] == g &&
      (caption != "" ==> line[|g|..|g| + |caption| + 1] == " " + caption) &&
      (message != "" ==> line[|line| - |message| - 1..] == " " + message)
  {
    frames[frame % |frames|] + (if caption != "" then " " + caption else "") + (if message != "" then " " + message else "")
  }

  /** The animation repeats after as many renders as there are frames. */
  lemma SpinnerCycles(frames: seq<string>, frame: nat, caption: string, message: string)
    requires |frames| > 0
    ensures SpinnerLine(frames, frame + |frames|, caption, message) == SpinnerLine(frames, frame, caption, message)
  {
    ModShift(frame, |frames|);
  }

  lemma ModShift(k: nat, n: nat)
    requires n > 0
    ensures (k + n) % n == k % n
  {
    var q, r := k / n, k % n;
    var q', r' := (k + n) / n, (k + n) % n;
    assert (q' - q - 1) * n == r - r';
    assert (q + 1 - q') * n == r' - r;
    MulCancel(q' - q - 1, 1, n);
    MulCancel(q + 1 - q', 1, n);
  }

  class Spinner {
    const caption: string
    const style: SpinnerStyle
    const updateIntervalMs: int
    var message: string
    var closed: bool
    var frame: nat
    /** The lines rendered so far, oldest first. */
    var lines: seq<string>

    predicate Valid()
      reads this
    {
      |style.frames| > 0
    }

    function CurrentLine(): string
      reads this
      requires Valid()
    {
      SpinnerLine(style.frames, frame, caption, message)
    }

    /** The constructor renders the first frame. */
    constructor (caption: string, style: SpinnerStyle, updateIntervalMs: int)
      requires |style.frames| > 0
      ensures this.caption == caption && this.style == style && this.updateIntervalMs == updateIntervalMs
      ensures Valid() && message == "" && !closed && frame == 1
      ensures lines == [SpinnerLine(style.frames, 1, caption, "")]
    {
      this.caption := caption;
      this.style := style;
      this.updateIntervalMs := updateIntervalMs;
      message := "";
      closed := false;
      frame := 1;
      lines := [SpinnerLine(style.frames, 1, caption, "")];
    }

    /** `render(force = true)`: advances the frame and renders. */
    method RenderNow()
      requires Valid()
      modifies this`frame, this`lines
      ensures old(closed) ==> frame == old(frame) && lines == old(lines)
      ensures !old(closed) ==> frame == old(frame) + 1 && lines == old(lines) + [CurrentLine()]
    {
      if closed {
        return;
      }
      frame := frame + 1;
      lines := lines + [CurrentLine()];
    }

    /** `message(text)`. */
    method Message(text: string, due: bool)
      requires Valid()
      modifies this`message, this`frame, this`lines
      ensures old(closed) ==> message == old(message) && frame == old(frame) && lines == old(lines)
      ensures !old(closed) ==> message == text
      ensures !old(closed) && due ==> frame == old(frame) + 1 && lines == old(lines) + [CurrentLine()]
      ensures !old(closed) && !due ==> frame == old(frame) && lines == old(lines)
    {
      if closed {
        return;
      }
      message := text;
      if due {
        RenderNow();
      }
    }

    /** `update()`: renders the next frame when the interval has elapsed. */
    method Update(due: bool)
      requires Valid()
      modifies this`frame, this`lines
      ensures old(closed) || !due ==> frame == old(frame) && lines == old(lines)
      ensures !old(closed) && due ==> frame == old(frame) + 1 && lines == old(lines) + [CurrentLine()]
    {
      if closed {
        return;
      }
      if due {
        RenderNow();
      }
    }

    /** `finish(finalMessage)`: a non-empty final message replaces the
        message; a last frame is rendered and the spinner closes. */
    method Finish(finalMessage: string)
      requires Valid()
      modifies this`message, this`frame, this`lines, this`closed
      ensures closed
      ensures old(closed) ==> message == old(message) && frame == old(frame) && lines == old(lines)
      ensures !old(closed) ==> message == (if finalMessage != "" then finalMessage else old(message))
      ensures !old(closed) ==> frame == old(frame) + 1 && lines == old(lines) + [CurrentLine()]
    {
      if closed {
        return;
      }
      if finalMessage != "" {
        message := finalMessage;
      }
      RenderNow();
      closed := true;
    }

    /** `close()` is `finish("")`: it keeps the message, and closing twice
        changes nothing the second time. */
    method Close()
      requires Valid()
      modifies this`message, this`frame, this`lines, this`closed
      ensures closed && message == old(message)
      ensures old(closed) ==> frame == old(frame) && lines == old(lines)
      ensures !old(closed) ==> frame == old(frame) + 1 && lines == old(lines) + [CurrentLine()]
    {
      Finish("");
    }
  }
}
