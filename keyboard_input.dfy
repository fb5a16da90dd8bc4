/** The raw-mode keyboard decoder `KeyboardInput`
    (components/.../input/KeyboardInput.kt). The terminal's timed reader is
    a sequence of read outcomes plus a position: every read consumes one
    item, and reading past the end times out (`READ_EXPIRED`). */
module Keyboard {
  import opened Wrappers
  import opened KeyEvents

  /** What one `reader.read(READ_TIMEOUT_MS)` call gives: a character code,
      `READ_EXPIRED`, `EOF`, or an exception. */
  datatype ReadResult = Code(c: nat) | Expired | EndOfInput | Failure

  /** Longest run of digits the numbered-sequence buffer may hold. */
  const MAX_NUMBER_DIGITS: nat := 5

  function At(input: seq<ReadResult>, i: nat): ReadResult {
    if i < |input| then input[i] else Expired
  }

  /** A decoding step: the event (None when a read threw) and the next position. */
  datatype Decoded = Decoded(event: Option<KeyEvent>, next: nat)

  /** `parseNumberedSequence`, with `buf` the digits read so far. */
  function NumberedFrom(input: seq<ReadResult>, p: nat, buf: seq<int>): (d: Decoded)
    requires 1 <= |buf| <= MAX_NUMBER_DIGITS && AllDigits(buf)
    ensures p + 1 <= d.next || |buf| == MAX_NUMBER_DIGITS
    ensures p <= d.next <= p + (MAX_NUMBER_DIGITS - |buf|)
    ensures d.event.Some? ==> d.event.value in {Unknown, Home, Delete, End, PageUp, PageDown}
    decreases MAX_NUMBER_DIGITS - |buf|
  {
    if |buf| >= MAX_NUMBER_DIGITS then Decoded(Some(Unknown), p)
    else
      match At(input, p)
      case Failure => Decoded(None, p + 1)
      case Code(c) =>
        if c == TILDE then Decoded(Some(TildeKey(DigitsValue(buf))), p + 1)
        else if IsAsciiDigit(c) then NumberedFrom(input, p + 1, buf + [c])
        else Decoded(Some(Unknown), p + 1)
      case _ => Decoded(Some(Unknown), p + 1)
  }

  /** `parseCsiSequence`, p being the position after `ESC '['`. */
  function CsiFrom(input: seq<ReadResult>, p: nat): (d: Decoded)
    ensures p + 1 <= d.next <= p + MAX_NUMBER_DIGITS
  {
    match At(input, p)
    case Failure => Decoded(None, p + 1)
    case Code(c) =>
      if IsAsciiDigit(c) then NumberedFrom(input, p + 1, [c])
      else Decoded(Some(FinalKey(c)), p + 1)
    case _ => Decoded(Some(Unknown), p + 1)
  }

  /** `parseSs3Sequence`, p being the position after `ESC 'O'`. */
  function Ss3From(input: seq<ReadResult>, p: nat): (d: Decoded)
    ensures d.next == p + 1
  {
    match At(input, p)
    case Failure => Decoded(None, p + 1)
    case Code(c) => Decoded(Some(FinalKey(c)), p + 1)
    case _ => Decoded(Some(Unknown), p + 1)
  }

  /** `parseEscapeSequence`, p being the position after ESC. A timeout, or
      any byte but `'['` and `'O'`, gives ESCAPE, and that byte is consumed. */
  function EscapeFrom(input: seq<ReadResult>, p: nat): (d: Decoded)
    ensures p + 1 <= d.next <= p + 1 + MAX_NUMBER_DIGITS
  {
    match At(input, p)
    case Failure => Decoded(None, p + 1)
    case Code(c) =>
      if c == LEFT_BRACKET then CsiFrom(input, p + 1)
      else if c == LETTER_O then Ss3From(input, p + 1)
      else Decoded(Some(Escape), p + 1)
    case _ => Decoded(Some(Escape), p + 1)
  }

  /** The single-byte table of `readKey`. */
  function SingleKey(c: nat): (e: KeyEvent)
    requires c != ESC
  {
    if c == 13 || c == 10 then Enter
    else if c == 9 then Tab
    else if c == 127 then Backspace
    else if 1 <= c <= 26 then Ctrl(('a' as int + c - 1) as char)
    else if 32 <= c <= 126 then Char(c as char)
    else Unknown
  }

  /** `readKey` with raw mode on and a reader present: None stands for null
      (timeout, end of input, or a read that threw). */
  function ReadKeyFrom(input: seq<ReadResult>, pos: nat): (d: Decoded)
    ensures pos + 1 <= d.next <= pos + 7
  {
    match At(input, pos)
    case Code(c) =>
      if c == ESC then EscapeFrom(input, pos + 1)
      else Decoded(Some(SingleKey(c)), pos + 1)
    case _ => Decoded(None, pos + 1)
  }

  /** The keyboard object: the reader's stream and the raw-mode flag. The
      JLine terminal itself is not modelled; `hasReader` says whether the
      `reader` field is non-null. */
  class KeyboardInput {
    const input: seq<ReadResult>
    var pos: nat
    var rawModeEnabled: bool
    var hasReader: bool

    constructor (input: seq<ReadResult>)
      ensures this.input == input && pos == 0
      ensures !rawModeEnabled && !hasReader
    {
      this.input := input;
      pos := 0;
      rawModeEnabled := false;
      hasReader := false;
    }

    function IsRawModeEnabled(): bool
      reads this
    {
      rawModeEnabled
    }

    /** `enableRawMode`; `succeeds` says whether JLine built the terminal. */
    method EnableRawMode(succeeds: bool) returns (ok: bool)
      modifies this`rawModeEnabled, this`hasReader
      ensures ok == succeeds
      ensures succeeds ==> rawModeEnabled && hasReader
      ensures !succeeds ==> rawModeEnabled == old(rawModeEnabled) && hasReader == old(hasReader)
    {
      if succeeds {
        hasReader := true;
        rawModeEnabled := true;
      }
      ok := succeeds;
    }

    /** `disableRawMode`; `restoreFails` says whether restoring the terminal
        threw, in which case the flag stays set but the reader is dropped. */
    method DisableRawMode(restoreFails: bool)
      modifies this`rawModeEnabled, this`hasReader
      ensures !old(rawModeEnabled) ==> rawModeEnabled == old(rawModeEnabled) && hasReader == old(hasReader)
      ensures old(rawModeEnabled) ==> !hasReader && rawModeEnabled == restoreFails
    {
      if !rawModeEnabled {
        return;
      }
      if !restoreFails {
        rawModeEnabled := false;
      }
      hasReader := false;
    }

    method Read() returns (r: ReadResult)
      modifies this`pos
      ensures r == At(input, old(pos)) && pos == old(pos) + 1
    {
      r := if pos < |input| then input[pos] else Expired;
      pos := pos + 1;
    }

    /** `readKey`. */
    method ReadKey() returns (event: Option<KeyEvent>)
      modifies this`pos
      ensures !rawModeEnabled || !hasReader ==> event == None && pos == old(pos)
      ensures rawModeEnabled && hasReader ==> Decoded(event, pos) == ReadKeyFrom(input, old(pos))
    {
      if !rawModeEnabled || !hasReader {
        return None;
      }
      var c := Read();
      match c
      case Code(code) =>
        if code == ESC {
          event := ParseEscapeSequence();
        } else {
          event := Some(SingleKey(code));
        }
      case _ =>
        event := None;
    }

    method ParseEscapeSequence() returns (event: Option<KeyEvent>)
      modifies this`pos
      ensures Decoded(event, pos) == EscapeFrom(input, old(pos))
    {
      var next := Read();
      match next
      case Failure => event := None;
      case Code(c) =>
        if c == LEFT_BRACKET {
          event := ParseCsiSequence();
        } else if c == LETTER_O {
          event := ParseSs3Sequence();
        } else {
          event := Some(Escape);
        }
      case _ => event := Some(Escape);
    }

    method ParseCsiSequence() returns (event: Option<KeyEvent>)
      modifies this`pos
      ensures Decoded(event, pos) == CsiFrom(input, old(pos))
    {
      var third := Read();
      match third
      case Failure => event := None;
      case Code(c) =>
        if IsAsciiDigit(c) {
          event := ParseNumberedSequence(c);
        } else {
          event := Some(FinalKey(c));
        }
      case _ => event := Some(Unknown);
    }

    method ParseSs3Sequence() returns (event: Option<KeyEvent>)
      modifies this`pos
      ensures Decoded(event, pos) == Ss3From(input, old(pos))
    {
      var next := Read();
      match next
      case Failure => event := None;
      case Code(c) => event := Some(FinalKey(c));
      case _ => event := Some(Unknown);
    }

    /** `parseNumberedSequence`: reads digits into a buffer of at most five
        characters until `'~'`, a timeout or any other byte. */
    method ParseNumberedSequence(first: nat) returns (event: Option<KeyEvent>)
      requires IsAsciiDigit(first)
      modifies this`pos
      ensures Decoded(event, pos) == NumberedFrom(input, old(pos), [first])
    {
      var buffer: seq<int> := [first];
      while |buffer| < MAX_NUMBER_DIGITS
        invariant 1 <= |buffer| <= MAX_NUMBER_DIGITS && AllDigits(buffer)
        invariant NumberedFrom(input, pos, buffer) == NumberedFrom(input, old(pos), [first])
        decreases MAX_NUMBER_DIGITS - |buffer|
      {
        var c := Read();
        match c
        case Failure =>
          return None;
        case Code(code) =>
          if code == TILDE {
            return Some(TildeKey(DigitsValue(buffer)));
          } else if IsAsciiDigit(code) {
            buffer := buffer + [code];
          } else {
            return Some(Unknown);
          }
        case _ =>
          return Some(Unknown);
      }
      event := Some(Unknown);
    }
  }

  // ---------------------------------------------------------------------------
  // Properties of the decoder

  /** One `readKey` consumes at least one and at most seven reads: ESC, `'['`,
      the first digit, and four more reads of the numbered-sequence loop. */
  lemma ReadKeyConsumption(input: seq<ReadResult>, pos: nat)
    ensures pos + 1 <= ReadKeyFrom(input, pos).next <= pos + 7
  {
  }

  /** readKey is null on a timeout, at end of input and when the read throws. */
  lemma ReadKeyNull(input: seq<ReadResult>, pos: nat)
    requires !At(input, pos).Code?
    ensures ReadKeyFrom(input, pos) == Decoded(None, pos + 1)
  {
  }

  /** The single-byte table of readKey: 9, 10 and 13 are tested before the
      control range, so the remaining bytes 1..26 are Ctrl chords. */
  lemma ReadKeySingleByte(c: nat, rest: seq<ReadResult>)
    requires c != ESC
    ensures ReadKeyFrom([Code(c)] + rest, 0) == Decoded(Some(SingleKey(c)), 1)
    ensures SingleKey(c) == Enter <==> c == 13 || c == 10
    ensures SingleKey(c) == Tab <==> c == 9
    ensures SingleKey(c) == Backspace <==> c == 127
    ensures SingleKey(c).Ctrl? <==> 1 <= c <= 26 && c !in {9, 10, 13}
    ensures SingleKey(c).Ctrl? ==> SingleKey(c).c as int == 'a' as int + c - 1
    ensures SingleKey(c).Char? <==> 32 <= c <= 126
    ensures SingleKey(c) == Unknown <==> (c == 0 || 27 < c < 32 || c > 127)
  {
  }

  /** ESC followed by a timeout or by any item other than `'['`, `'O'` or a
      failing read gives ESCAPE and consumes exactly that one item. */
  lemma EscapeAlone(input: seq<ReadResult>, pos: nat)
    requires At(input, pos) == Code(ESC)
    requires At(input, pos + 1) != ReadResult.Failure
    requires At(input, pos + 1) !in {Code(LEFT_BRACKET), Code(LETTER_O)}
    ensures ReadKeyFrom(input, pos) == Decoded(Some(Escape), pos + 2)
  {
  }

  /** After `ESC '['` (when the next byte is not a digit) or `ESC 'O'`, the
      final byte decodes by the cursor-key table; a timeout gives Unknown. */
  lemma CursorKeySequences(input: seq<ReadResult>, pos: nat, prefix: nat)
    requires At(input, pos) == Code(ESC) && At(input, pos + 1) == Code(prefix)
    requires prefix == LEFT_BRACKET || prefix == LETTER_O
    requires At(input, pos + 2) != ReadResult.Failure
    requires At(input, pos + 2).Code? ==> !IsAsciiDigit(At(input, pos + 2).c)
    ensures ReadKeyFrom(input, pos).next == pos + 3
    ensures ReadKeyFrom(input, pos).event ==
      Some(if At(input, pos + 2).Code? then FinalKey(At(input, pos + 2).c) else Unknown)
  {
  }

  lemma {:induction false} NumberedDigitsThenTilde(input: seq<ReadResult>, p: nat, buf: seq<int>, more: seq<int>)
    requires 1 <= |buf| && |buf| + |more| <= 4 && AllDigits(buf) && AllDigits(more)
    requires forall i :: 0 <= i < |more| ==> At(input, p + i) == Code(more[i])
    requires At(input, p + |more|) == Code(TILDE)
    ensures AllDigits(buf + more)
    ensures NumberedFrom(input, p, buf) == Decoded(Some(TildeKey(DigitsValue(buf + more))), p + |more| + 1)
    decreases |more|
  {
    assert AllDigits(buf + more);
    if |more| == 0 {
      assert buf + more == buf;
    } else {
      assert At(input, p) == Code(more[0]);
      forall i | 0 <= i < |more[1..]|
        ensures At(input, p + 1 + i) == Code(more[1..][i])
      {
        assert At(input, p + (i + 1)) == Code(more[i + 1]);
      }
      NumberedDigitsThenTilde(input, p + 1, buf + [more[0]], more[1..]);
      assert buf + [more[0]] + more[1..] == buf + more;
    }
  }

  /** `ESC '[' d1..dk '~'` with one to four digits decodes by the VT220 table
      (1 HOME, 3 DELETE, 4 END, 5 PAGE_UP, 6 PAGE_DOWN, anything else
      Unknown) and consumes exactly the sequence. */
  lemma NumberedSequence(input: seq<ReadResult>, pos: nat, digits: seq<int>)
    requires 1 <= |digits| <= 4 && AllDigits(digits)
    requires At(input, pos) == Code(ESC) && At(input, pos + 1) == Code(LEFT_BRACKET)
    requires forall i :: 0 <= i < |digits| ==> At(input, pos + 2 + i) == Code(digits[i])
    requires At(input, pos + 2 + |digits|) == Code(TILDE)
    ensures ReadKeyFrom(input, pos) == Decoded(Some(TildeKey(DigitsValue(digits))), pos + |digits| + 3)
  {
    assert At(input, pos + 2) == Code(digits[0]);
    forall i | 0 <= i < |digits[1..]|
      ensures At(input, pos + 3 + i) == Code(digits[1..][i])
    {
      assert At(input, pos + 2 + (i + 1)) == Code(digits[i + 1]);
    }
    assert pos + 3 + |digits[1..]| == pos + 2 + |digits|;
    NumberedDigitsThenTilde(input, pos + 3, [digits[0]], digits[1..]);
    assert [digits[0]] + digits[1..] == digits;
  }

  lemma {:induction false} NumberedOverflow(input: seq<ReadResult>, p: nat, buf: seq<int>, more: seq<int>)
    requires 1 <= |buf| && |buf| + |more| == MAX_NUMBER_DIGITS && AllDigits(buf) && AllDigits(more)
    requires forall i :: 0 <= i < |more| ==> At(input, p + i) == Code(more[i])
    ensures NumberedFrom(input, p, buf) == Decoded(Some(Unknown), p + |more|)
    decreases |more|
  {
    if |more| > 0 {
      assert At(input, p) == Code(more[0]);
      forall i | 0 <= i < |more[1..]|
        ensures At(input, p + 1 + i) == Code(more[1..][i])
      {
        assert At(input, p + (i + 1)) == Code(more[i + 1]);
      }
      NumberedOverflow(input, p + 1, buf + [more[0]], more[1..]);
    }
  }

  /** Five digits in a row fill the buffer: the sequence is Unknown, and
      whatever follows the fifth digit (a '~' included) is left unread. */
  lemma FiveDigitsGiveUnknown(input: seq<ReadResult>, pos: nat, digits: seq<int>)
    requires |digits| == MAX_NUMBER_DIGITS && AllDigits(digits)
    requires At(input, pos) == Code(ESC) && At(input, pos + 1) == Code(LEFT_BRACKET)
    requires forall i :: 0 <= i < |digits| ==> At(input, pos + 2 + i) == Code(digits[i])
    ensures ReadKeyFrom(input, pos) == Decoded(Some(Unknown), pos + 7)
  {
    assert At(input, pos + 2) == Code(digits[0]);
    forall i | 0 <= i < |digits[1..]|
      ensures At(input, pos + 3 + i) == Code(digits[1..][i])
    {
      assert At(input, pos + 2 + (i + 1)) == Code(digits[i + 1]);
    }
    NumberedOverflow(input, pos + 3, [digits[0]], digits[1..]);
  }

  /** The two decoders disagree: for a lone control byte and for the SS3
      form, `readKey` yields a key where `KeyEvent.parse` yields Unknown. */
  lemma DecodersDisagree(c: nat, x: nat)
    requires 1 <= c <= 26 && c !in {9, 10, 13}
    requires x in {65, 66, 67, 68, 70, 72}
    ensures Parse([c as Byte]) == Unknown
    ensures ReadKeyFrom([Code(c)], 0).event == Some(Ctrl(('a' as int + c - 1) as char))
    ensures Parse([ESC as Byte, LETTER_O as Byte, x as Byte]) == Unknown
    ensures ReadKeyFrom([Code(ESC), Code(LETTER_O), Code(x)], 0).event == Some(FinalKey(x))
    ensures FinalKey(x) != Unknown
  {
  }
}
