/** Key events and the byte-array decoder `KeyEvent.parse`
    (components/.../input/KeyEvent.kt). The `ESC '['` prefix is the Control
    Sequence Introducer of ECMA-48 section 5.4; the numeric `ESC '[' n '~'`
    codes follow the DEC VT220 keyboard convention. */
module KeyEvents {
  import opened Wrappers
  import Text

  /** A signed JVM byte. */
  type Byte = b: int | -128 <= b < 128

  /** The closed set of events the decoders produce. */
  datatype KeyEvent =
    | Up | Down | Left | Right
    | PageUp | PageDown | Home | End
    | Enter | Escape | Tab | Backspace | Delete
    | Char(c: char)
    | Ctrl(c: char)
    | Unknown

  const ESC: int := 27
  const LEFT_BRACKET: int := 91   // '['
  const LETTER_O: int := 79       // 'O'
  const TILDE: int := 126         // '~'
  const INT_MIN: int := -0x8000_0000
  const INT_MAX: int := 0x7FFF_FFFF

  predicate IsAsciiDigit(c: int) { 48 <= c <= 57 }

  predicate AllDigits(s: seq<int>) { forall i :: 0 <= i < |s| ==> IsAsciiDigit(s[i]) }

  /** The final byte of a three-byte cursor-key sequence: A/B/C/D/H/F. */
  function FinalKey(c: int): (e: KeyEvent)
    ensures e != Unknown <==> c in {65, 66, 67, 68, 70, 72}
    ensures e in {Unknown, Up, Down, Right, Left, Home, End}
  {
    if c == 65 then Up          // 'A'
    else if c == 66 then Down   // 'B'
    else if c == 67 then Right  // 'C'
    else if c == 68 then Left   // 'D'
    else if c == 72 then Home   // 'H'
    else if c == 70 then End    // 'F'
    else Unknown
  }

  /** The key of a numbered `ESC '[' n '~'` sequence. */
  function TildeKey(n: int): (e: KeyEvent)
    ensures e != Unknown <==> n in {1, 3, 4, 5, 6}
    ensures e in {Unknown, Home, Delete, End, PageUp, PageDown}
  {
    if n == 1 then Home
    else if n == 3 then Delete
    else if n == 4 then End
    else if n == 5 then PageUp
    else if n == 6 then PageDown
    else Unknown
  }

  /** Value of a string of ASCII digits, most significant first. */
  function DigitsValue(s: seq<int>): (v: nat)
    requires AllDigits(s)
  {
    if |s| == 0 then 0 else DigitsValue(s[..|s| - 1]) * 10 + (s[|s| - 1] - 48)
  }

  /** Kotlin `String.toIntOrNull()` over ASCII text: an optional `+` or `-`,
      then one or more digits, with a value inside the 32-bit range. */
  function ToIntOrNull(s: seq<Byte>): (r: Option<int>)
    ensures r.Some? ==> INT_MIN <= r.value <= INT_MAX
    ensures |s| == 0 ==> r == None
  {
    if |s| == 0 then None
    else if s[0] == 45 || s[0] == 43 then
      if |s| == 1 || !AllDigits(s[1..]) then None
      else
        var v: int := if s[0] == 45 then 0 - (DigitsValue(s[1..]) as int) else DigitsValue(s[1..]);
        if INT_MIN <= v <= INT_MAX then Some(v) else None
    else if AllDigits(s) && DigitsValue(s) <= INT_MAX then Some(DigitsValue(s))
    else None
  }

  /** The ASCII bytes of the decimal text of n. */
  function DecimalBytes(n: nat): (b: seq<Byte>)
    ensures |b| >= 1 && AllDigits(b)
  {
    var s := Text.NatToString(n);
    seq(|s|, i requires 0 <= i < |s| => s[i] as int)
  }

  lemma {:induction false} DigitsValueOfDecimal(n: nat)
    ensures DigitsValue(DecimalBytes(n)) == n
  {
    var b := DecimalBytes(n);
    if n >= 10 {
      DigitsValueOfDecimal(n / 10);
      assert b[..|b| - 1] == DecimalBytes(n / 10);
    }
  }

  /** Round trip: the decoder of `ESC '[' n '~'` reads back every number
      written in decimal that fits in an Int. */
  lemma ToIntOrNullOfDecimal(n: nat)
    requires n <= INT_MAX
    ensures ToIntOrNull(DecimalBytes(n)) == Some(n)
  {
    DigitsValueOfDecimal(n);
  }

  /** Round trip with a sign: `-` then m in decimal reads back as -m for
      every m down to Int.MIN_VALUE, and `+` then n as n up to Int.MAX_VALUE. */
  lemma ToIntOrNullOfSigned(m: nat, n: nat)
    requires m <= -INT_MIN && n <= INT_MAX
    ensures ToIntOrNull([45 as Byte] + DecimalBytes(m)) == Some(-(m as int))
    ensures ToIntOrNull([43 as Byte] + DecimalBytes(n)) == Some(n)
  {
    DigitsValueOfDecimal(m);
    DigitsValueOfDecimal(n);
    assert ([45 as Byte] + DecimalBytes(m))[1..] == DecimalBytes(m);
    assert ([43 as Byte] + DecimalBytes(n))[1..] == DecimalBytes(n);
  }

  function ParseSingleByte(b: Byte): (e: KeyEvent)
    ensures !e.Ctrl?
  {
    if b == 27 then Escape
    else if b == 13 || b == 10 then Enter
    else if b == 9 then Tab
    else if b == 127 then Backspace
    else if 32 <= b <= 126 then Char(b as char)
    else Unknown
  }

  function ParseEscapeSequence(bytes: seq<Byte>): (e: KeyEvent)
    requires |bytes| >= 3
    ensures !e.Ctrl?
  {
    if |bytes| == 3 && bytes[1] == LEFT_BRACKET then FinalKey(bytes[2])
    else if |bytes| >= 4 && bytes[1] == LEFT_BRACKET && bytes[|bytes| - 1] == TILDE then
      var number := ToIntOrNull(bytes[2..|bytes| - 1]);
      if number.Some? then TildeKey(number.value) else Unknown
    else Unknown
  }

  /** `KeyEvent.parse`. The source's third branch (a single byte 1..26 giving
      `Ctrl`) can never be taken, because every one-byte input is already
      handled by the first branch; the model leaves it out and the last
      ensures records the consequence. */
  function Parse(bytes: seq<Byte>): (e: KeyEvent)
    ensures |bytes| == 0 ==> e == Unknown
    ensures |bytes| >= 2 && !(bytes[0] == ESC && bytes[1] == LEFT_BRACKET) ==> e == Unknown
    ensures |bytes| == 2 ==> e == Unknown
    ensures |bytes| >= 4 && bytes[|bytes| - 1] != TILDE ==> e == Unknown
    ensures !e.Ctrl?
  {
    if |bytes| == 0 then Unknown
    else if |bytes| == 1 then ParseSingleByte(bytes[0])
    else if |bytes| >= 3 && bytes[0] == ESC && bytes[1] == LEFT_BRACKET then ParseEscapeSequence(bytes)
    else Unknown
  }

  /** The one-byte table of `parse`: control bytes other than TAB, LF, CR
      and ESC decode to Unknown, never to a Ctrl chord. */
  lemma ParseOneByte(b: Byte)
    ensures Parse([b]) == Escape <==> b == 27
    ensures Parse([b]) == Enter <==> b == 13 || b == 10
    ensures Parse([b]) == Tab <==> b == 9
    ensures Parse([b]) == Backspace <==> b == 127
    ensures Parse([b]).Char? <==> 32 <= b <= 126
    ensures Parse([b]).Char? ==> Parse([b]).c as int == b
    ensures Parse([b]) == Unknown <==> b !in {9, 10, 13, 27, 127} && !(32 <= b <= 126)
  {
  }

  /** `ESC '[' x` decodes by the cursor-key table, anything else being Unknown. */
  lemma ParseCsiLetter(x: Byte)
    ensures Parse([ESC as Byte, LEFT_BRACKET as Byte, x]) == FinalKey(x)
  {
  }

  /** `ESC '[' n '~'` with n written in decimal decodes by the VT220 table. */
  lemma ParseNumbered(n: nat)
    requires n <= INT_MAX
    ensures Parse([ESC as Byte, LEFT_BRACKET as Byte] + DecimalBytes(n) + [TILDE as Byte]) == TildeKey(n)
  {
    var bytes := [ESC as Byte, LEFT_BRACKET as Byte] + DecimalBytes(n) + [TILDE as Byte];
    assert bytes[2..|bytes| - 1] == DecimalBytes(n);
    ToIntOrNullOfDecimal(n);
  }

  /** `ESC '[' '-' m '~'` gives the numbered key -m (which the VT220 table
      maps to Unknown) for every m down to Int.MIN_VALUE. */
  lemma ParseNumberedNegative(m: nat)
    requires m <= -INT_MIN
    ensures Parse([ESC as Byte, LEFT_BRACKET as Byte, 45 as Byte] + DecimalBytes(m) + [TILDE as Byte]) == TildeKey(-(m as int))
  {
    var bytes := [ESC as Byte, LEFT_BRACKET as Byte, 45 as Byte] + DecimalBytes(m) + [TILDE as Byte];
    assert bytes[2..|bytes| - 1] == [45 as Byte] + DecimalBytes(m);
    ToIntOrNullOfSigned(m, 0);
  }

  /** `parse` knows nothing of the SS3 prefix `ESC 'O'`. */
  lemma ParseIgnoresSs3(x: Byte)
    ensures Parse([ESC as Byte, LETTER_O as Byte, x]) == Unknown
  {
  }
}
