/** The zero-padded decimal numbers that name the deps directories
    (`fmt.Sprintf("%0<w>d", i)`), and their order as text. */
module Decimal {

  function Pow10(n: nat): (p: nat)
    ensures p >= 1
  {
    if n == 0 then 1 else 10 * Pow10(n - 1)
  }

  function Digit(d: nat): char
    requires d < 10
  {
    "0123456789"[d]
  }

  function Decimal(n: nat): (s: string)
    ensures |s| >= 1
  {
    if n < 10 then [Digit(n)] else Decimal(n / 10) + [Digit(n % 10)]
  }

  function Zeros(n: nat): (s: string)
    ensures |s| == n
  {
    if n == 0 then "" else Zeros(n - 1) + "0"
  }

  /** `fmt.Sprintf("%0<width>d", i)`: pads to the width, never truncates. */
  function ZeroPad(i: nat, width: nat): string {
    var digits := Decimal(i);
    if |digits| >= width then digits else Zeros(width - |digits|) + digits
  }

  /** Order of strings as a directory listing sorts them. */
  predicate LexLess(a: string, b: string) {
    b != [] && (a == [] || a[0] < b[0] || (a[0] == b[0] && LexLess(a[1..], b[1..])))
  }

  /** The last digit splits off, so every fact below is an induction on the width. */
  lemma PadSnoc(i: nat, width: nat)
    requires width >= 2
    ensures ZeroPad(i, width) == ZeroPad(i / 10, width - 1) + [Digit(i % 10)]
  {
    if i < 10 {
      assert Decimal(i) == [Digit(i)];
      assert Decimal(0) == "0";
      assert ZeroPad(0, width - 1) == Zeros(width - 1);
    } else {
      var front := Decimal(i / 10);
      assert Decimal(i) == front + [Digit(i % 10)];
      if |front| < width - 1 {
        assert Zeros(width - 1 - |front|) + (front + [Digit(i % 10)])
            == (Zeros(width - 1 - |front|) + front) + [Digit(i % 10)];
      }
    }
  }

  lemma {:induction false} DecimalLength(i: nat, width: nat)
    requires width >= 1
    ensures |Decimal(i)| <= width <==> i < Pow10(width)
  {
    if width == 1 {
      assert Pow10(1) == 10 * Pow10(0) == 10;
    } else if i >= 10 {
      DecimalLength(i / 10, width - 1);
      assert |Decimal(i)| == |Decimal(i / 10)| + 1;
      assert Pow10(width) == 10 * Pow10(width - 1);
    } else {
      assert Pow10(width) == 10 * Pow10(width - 1);
    }
  }

  /** All indices up to `last` have one width exactly when `last` fits in it. */
  lemma UniformWidth(last: nat, width: nat)
    requires width >= 1
    ensures (forall i: nat :: i <= last ==> |ZeroPad(i, width)| == width) <==> last < Pow10(width)
  {
    DecimalLength(last, width);
    if last < Pow10(width) {
      forall i: nat | i <= last
        ensures |ZeroPad(i, width)| == width
      {
        DecimalLength(i, width);
      }
    } else {
      assert |ZeroPad(last, width)| > width;
    }
  }

  lemma {:induction false} LexSnoc(a: string, x: char, b: string, y: char)
    requires |a| == |b|
    ensures LexLess(a + [x], b + [y]) <==> LexLess(a, b) || (a == b && x < y)
    ensures a + [x] == b + [y] <==> a == b && x == y
  {
    assert (a + [x])[..|a|] == a && (b + [y])[..|b|] == b;
    assert (a + [x])[|a|] == x && (b + [y])[|b|] == y;
    if a != [] {
      assert (a + [x])[1..] == a[1..] + [x] && (b + [y])[1..] == b[1..] + [y];
      LexSnoc(a[1..], x, b[1..], y);
      assert a == [a[0]] + a[1..] && b == [b[0]] + b[1..];
    }
  }

  lemma DigitOrder(x: nat, y: nat)
    requires x < 10 && y < 10
    ensures Digit(x) < Digit(y) <==> x < y
    ensures Digit(x) == Digit(y) <==> x == y
  {
  }

  /** Order and equality of the last digits decide where the leading digits agree. */
  lemma PadOrderStep(i: nat, j: nat, width: nat)
    requires width >= 2
    requires |ZeroPad(i / 10, width - 1)| == |ZeroPad(j / 10, width - 1)|
    requires LexLess(ZeroPad(i / 10, width - 1), ZeroPad(j / 10, width - 1)) <==> i / 10 < j / 10
    requires ZeroPad(i / 10, width - 1) == ZeroPad(j / 10, width - 1) <==> i / 10 == j / 10
    ensures LexLess(ZeroPad(i, width), ZeroPad(j, width)) <==> i < j
    ensures ZeroPad(i, width) == ZeroPad(j, width) <==> i == j
  {
    var a, b := ZeroPad(i / 10, width - 1), ZeroPad(j / 10, width - 1);
    PadSnoc(i, width);
    PadSnoc(j, width);
    DigitOrder(i % 10, j % 10);
    LexSnoc(a, Digit(i % 10), b, Digit(j % 10));
  }

  /** At one width the text order is the numeric order, and no two numbers share a text. */
  lemma {:induction false} PadOrder(i: nat, j: nat, width: nat)
    requires width >= 1 && i < Pow10(width) && j < Pow10(width)
    ensures |ZeroPad(i, width)| == width == |ZeroPad(j, width)|
    ensures LexLess(ZeroPad(i, width), ZeroPad(j, width)) <==> i < j
    ensures ZeroPad(i, width) == ZeroPad(j, width) <==> i == j
  {
    UniformWidth(i, width);
    UniformWidth(j, width);
    if width == 1 {
      assert Pow10(1) == 10 * Pow10(0) == 10;
      DigitOrder(i, j);
      assert ZeroPad(i, 1) == [Digit(i)] && ZeroPad(j, 1) == [Digit(j)];
      assert LexLess([Digit(i)], [Digit(j)]) <==> Digit(i) < Digit(j);
    } else {
      assert Pow10(width) == 10 * Pow10(width - 1);
      PadOrder(i / 10, j / 10, width - 1);
      PadOrderStep(i, j, width);
    }
  }

  predicate Digits(text: string) {
    forall i :: 0 <= i < |text| ==> '0' <= text[i] <= '9'
  }

  /** The number a decimal text stands for. */
  function DecimalValue(text: string): nat
    requires Digits(text)
  {
    if text == "" then 0
    else 10 * DecimalValue(text[..|text| - 1]) + (text[|text| - 1] as int - '0' as int)
  }

  lemma DigitText(d: nat)
    requires d < 10
    ensures '0' <= Digit(d) <= '9' && Digit(d) as int - '0' as int == d
  {
  }

  lemma {:induction false} DecimalText(i: nat)
    ensures Digits(Decimal(i)) && DecimalValue(Decimal(i)) == i
  {
    DigitText(i % 10);
    if i >= 10 {
      DecimalText(i / 10);
      assert Decimal(i)[..|Decimal(i)| - 1] == Decimal(i / 10);
    } else {
      assert Decimal(i) == [Digit(i)] && [Digit(i)][..0] == "";
    }
  }

  lemma {:induction false} ZerosText(n: nat, text: string)
    requires Digits(text)
    ensures Digits(Zeros(n) + text) && DecimalValue(Zeros(n) + text) == DecimalValue(text)
    decreases |text|, n
  {
    if text != "" {
      ZerosText(n, text[..|text| - 1]);
      assert (Zeros(n) + text)[..|Zeros(n) + text| - 1] == Zeros(n) + text[..|text| - 1];
    } else if n > 0 {
      ZerosText(n - 1, "");
      assert Zeros(n) + "" == Zeros(n) && Zeros(n - 1) + "" == Zeros(n - 1);
      assert Zeros(n)[..n - 1] == Zeros(n - 1);
    }
  }

  /** A padded number is a decimal text for that number. */
  lemma PadText(i: nat, width: nat)
    ensures Digits(ZeroPad(i, width)) && DecimalValue(ZeroPad(i, width)) == i
  {
    DecimalText(i);
    if |Decimal(i)| < width {
      ZerosText(width - |Decimal(i)|, Decimal(i));
    }
  }

  /** `int(math.Log10(float64(n)))` as exact arithmetic would give it. */
  function FloorLog10(n: nat): nat {
    if n < 10 then 0 else 1 + FloorLog10(n / 10)
  }

  /** The same where the floating-point logarithm of an exact power of ten lands just below the
      integer, as Go's does for 1000. */
  function ShortLog10(n: nat): nat {
    var floor := FloorLog10(n);
    if floor > 0 && n == Pow10(floor) then floor - 1 else floor
  }

  /** All that the width computation needs of a truncated logarithm. */
  ghost predicate SaneLog10(log10: nat -> nat) {
    forall n: nat :: n >= 1 ==> n <= Pow10(log10(n) + 1)
  }

  lemma {:induction false} FloorLog10Bounds(n: nat)
    requires n >= 1
    ensures Pow10(FloorLog10(n)) <= n < Pow10(FloorLog10(n) + 1)
  {
    if n < 10 {
      assert Pow10(1) == 10 * Pow10(0) == 10;
    } else {
      FloorLog10Bounds(n / 10);
    }
  }

  /** Both the exact and the slightly short logarithm are good enough. */
  lemma LogsAreSane()
    ensures SaneLog10(FloorLog10) && SaneLog10(ShortLog10)
  {
    forall n: nat | n >= 1
      ensures n <= Pow10(FloorLog10(n) + 1) && n <= Pow10(ShortLog10(n) + 1)
    {
      FloorLog10Bounds(n);
    }
  }
}
