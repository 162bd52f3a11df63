/**
 * Decimal digit strings: the value of a digit string, the shortest decimal
 * rendering of a natural number, zero padding to a width (Python's `02d`
 * format and strftime's `%Y`, `%m`, `%d`), and Python's lexicographic string
 * order, with the facts that tie them together.
 */
module Digits {

  predicate IsDigit(c: char) { '0' <= c <= '9' }

  predicate IsDigits(s: string) { forall i :: 0 <= i < |s| ==> IsDigit(s[i]) }

  function DigitValue(c: char): (d: nat)
    requires IsDigit(c)
    ensures d < 10
  {
    c as int - '0' as int
  }

  function DigitChar(d: nat): (c: char)
    requires d < 10
    ensures IsDigit(c) && DigitValue(c) == d
  {
    ('0' as int + d) as char
  }

  function Pow10(n: nat): (p: nat)
    ensures p >= 1
  {
    if n == 0 then 1 else 10 * Pow10(n - 1)
  }

  /** The number a digit string denotes, most significant digit first. */
  function Value(s: string): nat
    requires IsDigits(s)
  {
    if s == [] then 0 else Value(s[..|s| - 1]) * 10 + DigitValue(s[|s| - 1])
  }

  /** The shortest decimal rendering of `n` (Python's `str(n)`). */
  function Decimal(n: nat): string
  {
    if n < 10 then [DigitChar(n)] else Decimal(n / 10) + [DigitChar(n % 10)]
  }

  function Zeros(k: nat): string
  {
    if k == 0 then [] else Zeros(k - 1) + ['0']
  }

  /** The rendering of `n` is a non-empty digit string that denotes `n`. */
  lemma {:induction false} DecimalDenotes(n: nat)
    ensures IsDigits(Decimal(n)) && 1 <= |Decimal(n)| && Value(Decimal(n)) == n
  {
    if n >= 10 {
      DecimalDenotes(n / 10);
      ValueSnoc(Decimal(n / 10), DigitChar(n % 10));
    }
  }

  lemma {:induction false} ZerosDigits(k: nat)
    ensures |Zeros(k)| == k && IsDigits(Zeros(k)) && Value(Zeros(k)) == 0
  {
    if k > 0 {
      ZerosDigits(k - 1);
      ValueSnoc(Zeros(k - 1), '0');
    }
  }

  /**
   * `n` rendered in decimal and left-padded with '0' to at least `width`
   * characters, as Python's format spec `0<width>d` does for a natural number.
   */
  function ZeroPad(n: nat, width: nat): string
  {
    var d := Decimal(n);
    if |d| < width then Zeros(width - |d|) + d else d
  }

  /** The padded rendering is a digit string of at least `width` characters denoting `n`. */
  lemma ZeroPadDenotes(n: nat, width: nat)
    ensures IsDigits(ZeroPad(n, width)) && Value(ZeroPad(n, width)) == n
    ensures |ZeroPad(n, width)| >= width
    ensures 1 <= width && n < Pow10(width) ==> |ZeroPad(n, width)| == width
  {
    var d := Decimal(n);
    DecimalDenotes(n);
    DecimalLength(n, width);
    if |d| < width {
      ZerosDigits(width - |d|);
      ValueSplit(Zeros(width - |d|), d);
    }
  }

  /** Python's `<` on strings: lexicographic order by code point. */
  predicate LexLess(a: string, b: string)
  {
    if a == [] then b != []
    else b != [] && (a[0] < b[0] || (a[0] == b[0] && LexLess(a[1..], b[1..])))
  }

  /** A digit string is always below the next power of ten of its length. */
  lemma {:induction false} ValueBound(s: string)
    requires IsDigits(s)
    ensures Value(s) < Pow10(|s|)
  {
    if s != [] {
      var init := s[..|s| - 1];
      ValueBound(init);
      assert Value(init) + 1 <= Pow10(|init|);
      assert Value(s) < (Value(init) + 1) * 10;
    }
  }

  /** Appending one digit shifts the value by one decimal place. */
  lemma ValueSnoc(s: string, c: char)
    requires IsDigits(s) && IsDigit(c)
    ensures IsDigits(s + [c])
    ensures Value(s + [c]) == Value(s) * 10 + DigitValue(c)
  {
    assert (s + [c])[..|s|] == s;
  }

  lemma MulRegroup(x: int, k: int, y: int, d: int)
    ensures (x * k + y) * 10 + d == x * (10 * k) + (y * 10 + d)
  {
  }

  /** The value of a concatenation: the high part shifted by the low part's length. */
  lemma {:induction false} ValueSplit(p: string, q: string)
    requires IsDigits(p) && IsDigits(q)
    ensures IsDigits(p + q)
    ensures Value(p + q) == Value(p) * Pow10(|q|) + Value(q)
  {
    if q == [] {
      assert p + q == p;
    } else {
      var q', c := q[..|q| - 1], q[|q| - 1];
      assert q == q' + [c];
      assert p + q == (p + q') + [c];
      ValueSplit(p, q');
      ValueSnoc(p + q', c);
      ValueSnoc(q', c);
      MulRegroup(Value(p), Pow10(|q'|), Value(q'), DigitValue(c));
    }
  }

  /** The value of a non-empty digit string, split at its leading digit. */
  lemma ValueHead(s: string)
    requires IsDigits(s) && s != []
    ensures Value(s) == DigitValue(s[0]) * Pow10(|s| - 1) + Value(s[1..])
  {
    var head, tail := [s[0]], s[1..];
    assert s == head + tail;
    assert Value(head) == DigitValue(s[0]) by {
      ValueSnoc([], s[0]);
      assert [] + [s[0]] == head;
    }
    ValueSplit(head, tail);
  }

  /** The rendering of `n` is no longer than `width` once `n` is below 10^width. */
  lemma {:induction false} DecimalLength(n: nat, width: nat)
    ensures 1 <= width && n < Pow10(width) ==> |Decimal(n)| <= width
  {
    if n >= 10 && n < Pow10(width) {
      assert width >= 1;
      assert n / 10 < Pow10(width - 1);
      DecimalLength(n / 10, width - 1);
    }
  }

  /** Two digit strings of the same length and the same value are the same string. */
  lemma {:induction false} ValueInjective(a: string, b: string)
    requires IsDigits(a) && IsDigits(b) && |a| == |b|
    requires Value(a) == Value(b)
    ensures a == b
  {
    if a != [] {
      var n := |a|;
      var da, db := DigitValue(a[n - 1]), DigitValue(b[n - 1]);
      var va, vb := Value(a[..n - 1]), Value(b[..n - 1]);
      assert va * 10 + da == vb * 10 + db;
      assert da == db && va == vb by {
        assert (va * 10 + da) % 10 == da && (vb * 10 + db) % 10 == db;
      }
      ValueInjective(a[..n - 1], b[..n - 1]);
      assert a[n - 1] == b[n - 1];
      assert a == a[..n - 1] + [a[n - 1]] && b == b[..n - 1] + [b[n - 1]];
    }
  }

  /** A padded rendering read back at its full width gives the original string. */
  lemma ZeroPadValue(t: string)
    requires IsDigits(t) && t != []
    ensures ZeroPad(Value(t), |t|) == t
  {
    ValueBound(t);
    ZeroPadDenotes(Value(t), |t|);
    ValueInjective(ZeroPad(Value(t), |t|), t);
  }

  lemma LeadingDigitDominates(da: nat, db: nat, k: nat, x: nat, y: nat)
    requires db < da && y < k
    ensures db * k + y < da * k + x
  {
    assert da * k >= (db + 1) * k;
  }

  /** On digit strings of one width, a smaller number is a smaller string in Python's order. */
  lemma {:induction false} LexLessOfValue(a: string, b: string)
    requires IsDigits(a) && IsDigits(b) && |a| == |b|
    requires Value(a) < Value(b)
    ensures LexLess(a, b)
  {
    if a != [] {
      ValueHead(a);
      ValueHead(b);
      var k := Pow10(|a| - 1);
      var da, db := DigitValue(a[0]), DigitValue(b[0]);
      if a[0] == b[0] {
        assert da * k == db * k;
        LexLessOfValue(a[1..], b[1..]);
      } else if a[0] > b[0] {
        ValueBound(b[1..]);
        LeadingDigitDominates(da, db, k, Value(a[1..]), Value(b[1..]));
        assert false;
      }
    }
  }

  lemma {:induction false} LexLessCommonPrefix(p: string, a: string, b: string)
    requires LexLess(a, b)
    ensures LexLess(p + a, p + b)
  {
    if p != [] {
      assert (p + a)[0] == p[0] == (p + b)[0];
      assert (p + a)[1..] == p[1..] + a && (p + b)[1..] == p[1..] + b;
      LexLessCommonPrefix(p[1..], a, b);
    } else {
      assert p + a == a && p + b == b;
    }
  }

  lemma {:induction false} LexLessIrreflexive(a: string)
    ensures !LexLess(a, a)
  {
    if a != [] {
      LexLessIrreflexive(a[1..]);
    }
  }

  lemma {:induction false} LexLessTransitive(a: string, b: string, c: string)
    requires LexLess(a, b) && LexLess(b, c)
    ensures LexLess(a, c)
  {
    if a != [] && a[0] == b[0] && b[0] == c[0] {
      LexLessTransitive(a[1..], b[1..], c[1..]);
    }
  }

  /** The converse: on digit strings of one width, a smaller string denotes a smaller number. */
  lemma ValueOfLexLess(a: string, b: string)
    requires IsDigits(a) && IsDigits(b) && |a| == |b|
    requires LexLess(a, b)
    ensures Value(a) < Value(b)
  {
    if Value(a) == Value(b) {
      ValueInjective(a, b);
      LexLessIrreflexive(a);
    } else if Value(b) < Value(a) {
      LexLessOfValue(b, a);
      LexLessTransitive(a, b, a);
      LexLessIrreflexive(a);
    }
  }

  /** Hence on digit strings of one width, numeric order and string order coincide. */
  lemma OrderAgrees(a: string, b: string)
    requires IsDigits(a) && IsDigits(b) && |a| == |b|
    ensures Value(a) < Value(b) <==> LexLess(a, b)
  {
    if Value(a) < Value(b) {
      LexLessOfValue(a, b);
    }
    if LexLess(a, b) {
      ValueOfLexLess(a, b);
    }
  }
}
