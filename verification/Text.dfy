/** Strings as Go's `strings`, `fmt` and `strconv` treat them, as far as the operator uses them. */
module Text {
  datatype Option<+T> = None | Some(value: T)

  predicate HasPrefix(s: string, prefix: string) {
    |prefix| <= |s| && s[..|prefix|] == prefix
  }

  /** A slice expression `s[:n]` guarded by `len(s) > n`. */
  function Truncate(s: string, n: nat): string {
    if |s| > n then s[..n] else s
  }

  function Pow10(n: nat): (p: nat)
    ensures p >= 1
  {
    if n == 0 then 1 else 10 * Pow10(n - 1)
  }

  predicate IsDigit(c: char) { '0' <= c <= '9' }

  /** `%d` of a non-negative number. */
  function Decimal(n: nat): (s: string)
    ensures |s| >= 1
    ensures forall i :: 0 <= i < |s| ==> IsDigit(s[i])
  {
    var digit := '0' + (n % 10) as char;
    if n < 10 then [digit] else Decimal(n / 10) + [digit]
  }

  function DigitValue(c: char): nat
    requires IsDigit(c)
  {
    (c - '0') as int
  }

  /** The number a digit string denotes. */
  function Value(s: string): nat
    requires forall i :: 0 <= i < |s| ==> IsDigit(s[i])
  {
    if s == [] then 0 else 10 * Value(s[..|s| - 1]) + DigitValue(s[|s| - 1])
  }

  lemma {:induction false} ValueOfDecimal(n: nat)
    ensures Value(Decimal(n)) == n
  {
    if n >= 10 {
      ValueOfDecimal(n / 10);
      assert Decimal(n)[..|Decimal(n)| - 1] == Decimal(n / 10);
    } else {
      assert Decimal(n)[..0] == [];
    }
  }

  lemma {:induction false} DecimalLength(n: nat, d: nat)
    requires d >= 1 && n < Pow10(d)
    requires d == 1 || Pow10(d - 1) <= n
    ensures |Decimal(n)| == d
  {
    if d > 1 {
      assert n >= 10;
      DecimalLength(n / 10, d - 1);
    } else {
      assert Pow10(1) == 10 * Pow10(0) == 10;
    }
  }

  /** n without its last d decimal digits. */
  function DropDigits(n: nat, d: nat): nat {
    if d == 0 then n else DropDigits(n / 10, d - 1)
  }

  lemma {:induction false} DropDigitsDivides(n: nat, d: nat)
    ensures DropDigits(n, d) == n / Pow10(d)
  {
    if d > 0 {
      DropDigitsDivides(n / 10, d - 1);
      DivDiv(n, 10, Pow10(d - 1));
    }
  }

  lemma {:induction false} DecimalPrefix(n: nat, d: nat)
    requires d < |Decimal(n)|
    ensures Decimal(n)[..|Decimal(n)| - d] == Decimal(DropDigits(n, d))
  {
    if d > 0 {
      assert Decimal(n) == Decimal(n / 10) + [Decimal(n)[|Decimal(n)| - 1]];
      DecimalPrefix(n / 10, d - 1);
    }
  }

  lemma DivDiv(n: nat, a: nat, b: nat)
    requires a >= 1 && b >= 1
    ensures a * b >= 1
    ensures (n / a) / b == n / (a * b)
  {
    var q := (n / a) / b;
    var r := n - a * (n / a);
    var s := n / a - b * q;
    assert 0 <= r < a && 0 <= s <= b - 1;
    MulBound(a, b, r, s);
    assert n == a * b * q + (a * s + r) by {
      assert n == a * (b * q + s) + r;
      assert a * (b * q + s) == a * (b * q) + a * s;
      assert a * (b * q) == a * b * q;
    }
    QuotientUnique(n, a * b, q, a * s + r);
  }

  lemma MulBound(a: nat, b: nat, r: int, s: int)
    requires a >= 1 && b >= 1 && 0 <= r < a && 0 <= s <= b - 1
    ensures a * b >= 1
    ensures 0 <= a * s + r < a * b
  {
    assert a * s <= a * (b - 1);
    assert a * (b - 1) == a * b - a;
    assert a * s >= 0;
  }

  lemma QuotientUnique(n: int, m: int, q: int, rem: int)
    requires m >= 1 && n == m * q + rem && 0 <= rem < m
    ensures n / m == q
  {
    SameQuotient(m, q, rem, n / m, n % m);
  }

  lemma SameQuotient(m: int, q: int, r: int, q': int, r': int)
    requires m >= 1 && m * q + r == m * q' + r' && 0 <= r < m && 0 <= r' < m
    ensures q == q'
  {
    assert m * (q - q') == r' - r;
    assert m * (q' - q) == r - r';
    if q > q' {
      AtLeast(m, q - q');
    } else if q < q' {
      AtLeast(m, q' - q);
    }
  }

  lemma AtLeast(m: int, k: int)
    requires m >= 1 && k >= 1
    ensures m * k >= m
  {
  }

  function ToLowerChar(c: char): char {
    if 'A' <= c <= 'Z' then c - 'A' + 'a' else c
  }

  function ToLower(s: string): (t: string)
    ensures |t| == |s|
    ensures forall i :: 0 <= i < |s| ==> t[i] == ToLowerChar(s[i])
  {
    seq(|s|, i requires 0 <= i < |s| => ToLowerChar(s[i]))
  }

  predicate EqualFold(a: string, b: string) {
    ToLower(a) == ToLower(b)
  }

  /** Position of the first '/' at or after `from`, or |s|. */
  function SlashFrom(s: string, from: nat): (i: nat)
    requires from <= |s|
    ensures from <= i <= |s|
    ensures forall j :: from <= j < i ==> s[j] != '/'
    ensures i < |s| ==> s[i] == '/'
    decreases |s| - from
  {
    if from == |s| || s[from] == '/' then from else SlashFrom(s, from + 1)
  }
}
