/** Small helpers shared by the modules of the model: an option type, integer
    clamps, Python's truncating int() on reals, string repetition and sums. */
module Basics {

  datatype Option<+T> = None | Some(value: T)

  function Max(a: int, b: int): (r: int)
    ensures r >= a && r >= b && (r == a || r == b)
  {
    if a >= b then a else b
  }

  function Min(a: int, b: int): (r: int)
    ensures r <= a && r <= b && (r == a || r == b)
  {
    if a <= b then a else b
  }

  /** Python's `int(x)` on a number: truncation toward zero. */
  function Trunc(x: real): (r: int)
    ensures 0.0 <= x ==> r as real <= x < r as real + 1.0
    ensures x < 0.0 ==> r as real - 1.0 < x <= r as real
  {
    if x >= 0.0 then x.Floor else -((-x).Floor)
  }

  /** Python's `s * n` on a string: n copies, none when n is not positive. */
  function Repeat<T>(s: seq<T>, n: int): (r: seq<T>)
    ensures |r| == Max(n, 0) * |s|
    decreases Max(n, 0)
  {
    if n <= 0 then [] else s + Repeat(s, n - 1)
  }

  /** Each of the `n` copies of a one-element sequence is that element. */
  lemma {:induction false} RepeatOne<T>(x: T, n: int, i: int)
    requires 0 <= i < n
    ensures |Repeat([x], n)| == n && Repeat([x], n)[i] == x
    decreases n
  {
    if i > 0 {
      RepeatOne(x, n - 1, i - 1);
    }
  }

  /** The `i`-th block of `w` elements of a sequence. */
  function Block<T>(s: seq<T>, w: nat, i: nat): seq<T>
    requires w * i + w <= |s|
  {
    s[w * i .. w * i + w]
  }

  /** Block `i` of `s * n` is `s` itself. */
  lemma {:induction false} RepeatBlock<T>(s: seq<T>, n: int, i: nat)
    requires i < n
    ensures |s| * i + |s| <= |Repeat(s, n)| && Block(Repeat(s, n), |s|, i) == s
    decreases n
  {
    var w := |s|;
    var r := Repeat(s, n);
    assert r == s + Repeat(s, n - 1);
    if i == 0 {
      assert w * 0 == 0;
      assert r[0..w] == s;
    } else {
      RepeatBlock(s, n - 1, i - 1);
      var t := Repeat(s, n - 1);
      assert w * i == w * (i - 1) + w;
      assert r[w * i .. w * i + w] == t[w * (i - 1) .. w * (i - 1) + w];
    }
  }

  /** Sum of a sequence of reals, left to right. */
  function SumReals(s: seq<real>): real
  {
    if s == [] then 0.0 else SumReals(s[..|s| - 1]) + s[|s| - 1]
  }

  /** The number a string of decimal digits denotes, most significant first. */
  function DigitsValue(s: string): int
  {
    if s == [] then 0 else DigitsValue(s[..|s| - 1]) * 10 + (s[|s| - 1] as int - '0' as int)
  }

  predicate AllDigits(s: string)
  {
    forall i :: 0 <= i < |s| ==> '0' <= s[i] <= '9'
  }

  /** Decimal digits of a natural number, as Python's `str` prints it: the
      digits denote `n` and there is no leading zero. */
  function NatToString(n: nat): (r: string)
    ensures |r| >= 1 && AllDigits(r)
    ensures DigitsValue(r) == n
    ensures r[0] == '0' <==> n == 0
    ensures |r| > 1 ==> r[0] != '0'
  {
    if n < 10 then
      [DigitChar(n)]
    else
      var r := NatToString(n / 10) + [DigitChar(n % 10)];
      assert r[..|r| - 1] == NatToString(n / 10);
      r
  }

  function DigitChar(d: nat): (c: char)
    requires d < 10
    ensures '0' <= c <= '9' && c as int - '0' as int == d
  {
    ('0' as int + d) as char
  }

  /** Python's `str` of an integer: a minus sign exactly for a negative
      number, followed by the digits of its magnitude. */
  function IntToString(n: int): (r: string)
    ensures |r| >= 1
    ensures r[0] == '-' <==> n < 0
    ensures n >= 0 ==> AllDigits(r) && DigitsValue(r) == n
    ensures n < 0 ==> AllDigits(r[1..]) && DigitsValue(r[1..]) == -n
    ensures n >= 0 && |r| > 1 ==> r[0] != '0'
    ensures n < 0 ==> |r| >= 2 && r[1] != '0'
  {
    if n >= 0 then NatToString(n)
    else
      var r := "-" + NatToString(-n);
      assert r[1..] == NatToString(-n);
      r
  }

  /** The colour a terminal bar is drawn in; `Plain` means no colour code. */
  datatype Color = Plain | Green | Yellow | Red

  /** A terminal bar of `filled` full cells followed by `empty` empty ones. */
  datatype Bar = Bar(color: Color, filled: nat, empty: nat)

  /** ASCII lower-casing of one character. */
  function LowerChar(c: char): char
  {
    if 'A' <= c <= 'Z' then (c as int + 32) as char else c
  }

  /** Lower-casing of a string: the same length, each character lower-cased
      in place, and no upper-case ASCII letter left. */
  function Lower(s: string): (r: string)
    ensures |r| == |s| && forall i :: 0 <= i < |s| ==> r[i] == LowerChar(s[i])
    ensures forall i :: 0 <= i < |r| ==> !('A' <= r[i] <= 'Z')
  {
    if s == [] then [] else [LowerChar(s[0])] + Lower(s[1..])
  }

  /** A string without ASCII capitals is its own lower-casing. */
  lemma LowerKeeps(s: string)
    requires forall i :: 0 <= i < |s| ==> !('A' <= s[i] <= 'Z')
    ensures Lower(s) == s
  {
    assert forall i :: 0 <= i < |s| ==> LowerChar(s[i]) == s[i];
  }

  /** Lower-casing twice is lower-casing once. */
  lemma LowerIdempotent(s: string)
    ensures Lower(Lower(s)) == Lower(s)
  {
    LowerKeeps(Lower(s));
  }

  /** Comparing `value / maxValue` with a constant is comparing `value` with
      that multiple of a positive maximum. */
  lemma RatioCompare(value: real, maxValue: real, c: real)
    requires maxValue != 0.0
    ensures maxValue > 0.0 ==> (value / maxValue < c <==> value < c * maxValue)
    ensures maxValue > 0.0 ==> (value / maxValue > c <==> value > c * maxValue)
  {
    assert value / maxValue * maxValue == value;
  }

  /** Bounds of a quotient by a positive divisor. */
  lemma QuotientBounds(a: real, d: real)
    requires d > 0.0
    ensures 0.0 <= a ==> 0.0 <= a / d
    ensures a <= d ==> a / d <= 1.0
    ensures a == d ==> a / d == 1.0
    ensures a / d == 0.0 <==> a == 0.0
  {
    assert a / d * d == a;
    if a <= d && a / d > 1.0 {
      assert a / d * d > d;
    }
  }

  lemma ScaleFacts(ratio: real, width: int)
    requires width >= 0
    ensures ratio >= 0.0 ==> ratio * width as real >= 0.0
    ensures ratio >= 1.0 ==> ratio * width as real >= width as real
  {
    if ratio >= 1.0 {
      assert ratio * width as real == width as real + (ratio - 1.0) * width as real;
    }
  }

  /** `min(int(value / max_value * width), width)`, the full cells of a bar. */
  function ScaledCells(value: real, maxValue: real, width: int): (n: int)
    requires maxValue != 0.0
    ensures n <= width
    ensures maxValue > 0.0 && value >= 0.0 && width >= 0 ==>
      0 <= n && n == Min((value / maxValue * width as real).Floor, width)
    ensures maxValue > 0.0 && value >= maxValue && width >= 0 ==> n == width
  {
    var ratio := value / maxValue;
    RatioCompare(value, maxValue, 0.0);
    RatioCompare(value, maxValue, 1.0);
    assert maxValue > 0.0 && value >= maxValue ==> ratio >= 1.0;
    if width >= 0 then
      ScaleFacts(ratio, width);
      Min(Trunc(ratio * width as real), width)
    else
      Min(Trunc(ratio * width as real), width)
  }

  /** The prefix of length `i + 1` is the prefix of length `i` and `s[i]`. */
  lemma TakeSnoc<T>(s: seq<T>, i: nat)
    requires i < |s|
    ensures s[..i + 1] == s[..i] + [s[i]]
  {
  }
}
