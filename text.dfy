/** String and integer helpers that stand for the Kotlin standard-library
    calls the components use: `repeat`, `joinToString`, `Int.toString`,
    `padStart` (the `%3d` format), `coerceIn`, and the truncating `/`. */
module Text {

  function Max(a: int, b: int): int { if a >= b then a else b }

  function Min(a: int, b: int): int { if a <= b then a else b }

  /** Kotlin `v.coerceIn(lo, hi)` for a non-empty range. */
  function Clamp(v: int, lo: int, hi: int): (r: int)
    requires lo <= hi
    ensures lo <= r <= hi
    ensures lo <= v <= hi ==> r == v
  {
    if v < lo then lo else if v > hi then hi else v
  }

  /** Kotlin (and JVM) integer division, which truncates toward zero. */
  function TruncDiv(a: int, b: int): (q: int)
    requires b != 0
    ensures a >= 0 && b > 0 ==> q == a / b
    ensures (a >= 0) == (b > 0) || q <= 0
  {
    if a >= 0 then (if b > 0 then a / b else -(a / -b))
    else (if b > 0 then -((-a) / b) else (-a) / (-b))
  }

  /** `s` repeated `n` times; Kotlin's `repeat(n) { append(s) }` does nothing for n <= 0. */
  function Repeat(s: string, n: int): (r: string)
    ensures n <= 0 ==> r == []
    decreases n
  {
    if n <= 0 then [] else Repeat(s, n - 1) + s
  }

  /** A repetition is n copies long. */
  lemma {:induction false} RepeatLength(s: string, n: int)
    ensures |Repeat(s, n)| == Max(0, n) * |s|
    decreases Max(0, n)
  {
    if n > 0 {
      RepeatLength(s, n - 1);
    }
  }

  /** `" ".repeat(n)`. */
  function Spaces(n: nat): (r: string)
    ensures |r| == n
    ensures forall i :: 0 <= i < n ==> r[i] == ' '
  {
    seq(n, _ => ' ')
  }

  lemma {:induction false} RepeatSingle(c: char, n: nat)
    ensures Repeat([c], n) == seq(n, _ => c)
  {
    if n > 0 {
      RepeatSingle(c, n - 1);
    }
  }

  /** Kotlin `parts.joinToString(sep)`. */
  function JoinWith(parts: seq<string>, sep: string): (r: string)
    ensures |parts| == 1 ==> r == parts[0]
    ensures |parts| == 0 ==> r == []
  {
    if |parts| == 0 then []
    else if |parts| == 1 then parts[0]
    else JoinWith(parts[..|parts| - 1], sep) + sep + parts[|parts| - 1]
  }

  /** The ASCII decimal digit for d. */
  function DigitChar(d: nat): (c: char)
    requires d < 10
    ensures '0' <= c <= '9'
    ensures c as int - '0' as int == d
  {
    ('0' as int + d) as char
  }

  /** Kotlin `n.toString()` for a non-negative number. */
  function NatToString(n: nat): (s: string)
    ensures |s| >= 1
    ensures forall i :: 0 <= i < |s| ==> '0' <= s[i] <= '9'
  {
    if n < 10 then [DigitChar(n)] else NatToString(n / 10) + [DigitChar(n % 10)]
  }

  /** Kotlin `i.toString()`: a minus sign, then the digits of |i|. */
  function IntToString(i: int): (s: string)
    ensures |s| >= 1
    ensures i >= 0 ==> s == NatToString(i)
    ensures i < 0 ==> s == "-" + NatToString(-i)
  {
    if i >= 0 then NatToString(i) else "-" + NatToString(-i)
  }

  /** Right-aligns s in a field of at least `width` characters, as `%<width>d` does. */
  function PadStart(s: string, width: nat): (r: string)
    ensures |r| == Max(width, |s|)
    ensures r[|r| - |s|..] == s
    ensures forall i :: 0 <= i < |r| - |s| ==> r[i] == ' '
  {
    if |s| >= width then s else Spaces(width - |s|) + s
  }

  lemma MulMonotone(a: int, b: int, t: int)
    requires t >= 0 && a <= b
    ensures a * t <= b * t
  {
    assert (b - a) * t >= 0;
  }

  lemma MulCancel(a: int, b: int, t: int)
    requires t > 0 && a * t < b * t
    ensures a < b
  {
    assert (b - a) * t > 0;
  }

  lemma QuotientAtLeast(n: int, t: int, w: int)
    requires t > 0 && n >= w * t
    ensures n / t >= w
  {
    var q := n / t;
    assert n < (q + 1) * t;
    MulCancel(w, q + 1, t);
  }

  lemma QuotientAtMost(n: int, t: int, w: int)
    requires t > 0 && 0 <= n <= w * t
    ensures 0 <= n / t <= w
  {
    var q := n / t;
    assert q * t <= n;
    assert (w + 1) * t == w * t + t;
    MulCancel(q, w + 1, t);
  }
}
