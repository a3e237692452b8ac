/**
 * `format_decimal`: Python's `,.{pre}f` format of a fixed-point amount,
 * followed by the clean-up that swaps the thousands separator for a
 * delimiter, strips trailing zeros and then a bare trailing point.
 *
 * An amount is given as an integer number of units of 10^-pre, so the
 * format needs no rounding.
 */
module Decimals {
  import opened Strings

  function Pow10(n: nat): (r: nat)
    ensures r >= 1
  {
    if n == 0 then 1 else 10 * Pow10(n - 1)
  }

  function Abs(v: int): nat { if v < 0 then -v else v }

  /** A run of digits with ',' inserted between groups of three, counted from the right. */
  function Group(d: string): (r: string)
    ensures |d| > 0 ==> |r| > 0 && r[|r| - 1] == d[|d| - 1]
    decreases |d|
  {
    if |d| <= 3 then d else Group(d[..|d| - 3]) + "," + d[|d| - 3..]
  }

  /** The last three digits of a long run are its last group. */
  lemma {:induction false} GroupSplit(d: string)
    requires |d| > 3 && ',' !in d
    ensures Group(d) == Group(d[..|d| - 3]) + "," + d[|d| - 3..]
    ensures ',' !in d[..|d| - 3] && ',' !in d[|d| - 3..]
  {
    var head, tail := d[..|d| - 3], d[|d| - 3..];
    forall i | 0 <= i < |head| ensures head[i] == d[i] { }
    forall i | 0 <= i < |tail| ensures tail[i] == d[|d| - 3 + i] { }
  }

  /** Deleting separators around one separator before a run without any. */
  lemma {:induction false} DropSeparator(g: string, tail: string)
    requires ',' !in tail
    ensures Replace(g + "," + tail, ',', "") == Replace(g, ',', "") + tail
  {
    ReplaceAppend(g + ",", tail, ',', "");
    ReplaceAppend(g, ",", ',', "");
    ReplaceSame(',', "");
    ReplaceAbsent(tail, ',', "");
    assert Replace(g, ',', "") + "" == Replace(g, ',', "");
  }

  /** Deleting the separators from a grouped run of digits gives the run back. */
  lemma {:induction false} GroupUngroup(d: string)
    requires ',' !in d
    ensures Replace(Group(d), ',', "") == d
    decreases |d|
  {
    if |d| <= 3 {
      ReplaceAbsent(d, ',', "");
    } else {
      var head, tail := d[..|d| - 3], d[|d| - 3..];
      GroupSplit(d);
      GroupUngroup(head);
      DropSeparator(Group(head), tail);
      assert head + tail == d;
    }
  }

  /** A run of n digits gets (n - 1) / 3 separators: one per complete group of three but the first. */
  lemma {:induction false} GroupSeparators(d: string)
    requires |d| >= 1 && ',' !in d
    ensures Count(Group(d), ',') == (|d| - 1) / 3
    decreases |d|
  {
    if |d| <= 3 {
      CountZero(d, ',');
    } else {
      var head, tail := d[..|d| - 3], d[|d| - 3..];
      assert ',' !in head && ',' !in tail by {
        forall i | 0 <= i < |head| ensures head[i] == d[i] { }
        forall i | 0 <= i < |tail| ensures tail[i] == d[|d| - 3 + i] { }
      }
      GroupSeparators(head);
      CountAppend(Group(head) + ",", tail, ',');
      CountAppend(Group(head), ",", ',');
      CountZero(tail, ',');
      assert Count(",", ',') == 1;
    }
  }

  /** The `width` lowest decimal digits of `n`, zero-padded on the left. */
  function Digits(n: nat, width: nat): (r: string)
    ensures |r| == width && AllDigits(r, 10)
  {
    if width == 0 then "" else Digits(n / 10, width - 1) + [DigitChar(n % 10)]
  }

  lemma MulAtLeast(m: int, k: int)
    requires m > 0 && k >= 1
    ensures m * k >= m
  {
    if k > 1 {
      MulAtLeast(m, k - 1);
      assert m * k == m * (k - 1) + m;
    }
  }

  /** Euclidean division has one quotient and one remainder. */
  lemma DivModUnique(n: int, m: int, a: int, s: int)
    requires m > 0 && n == m * a + s && 0 <= s < m
    ensures n % m == s && n / m == a
  {
    var q, r := n / m, n % m;
    assert n == m * q + r;
    assert m * a - m * q == r - s;
    if a > q {
      assert m * (a - q) == m * a - m * q;
      MulAtLeast(m, a - q);
    } else if a < q {
      assert m * (q - a) == m * q - m * a;
      MulAtLeast(m, q - a);
    }
  }

  lemma ModStep(n: nat, p: nat)
    requires p >= 1
    ensures (n / 10 % p) * 10 + n % 10 == n % (10 * p)
  {
    var q, r := n / 10, n % 10;
    var a, b := q / p, q % p;
    assert n == 10 * q + r;
    assert q == p * a + b;
    assert 10 * q == (10 * p) * a + 10 * b;
    assert 10 * b + r < 10 * p;
    DivModUnique(n, 10 * p, a, 10 * b + r);
  }

  /** The padded digits spell the amount modulo 10^width. */
  lemma {:induction false} DigitsValueOfDigits(n: nat, width: nat)
    ensures DigitsValue(Digits(n, width), 10) == n % Pow10(width)
  {
    var s := Digits(n, width);
    if width > 0 {
      DigitsValueOfDigits(n / 10, width - 1);
      assert s[..|s| - 1] == Digits(n / 10, width - 1);
      assert DigitValue(s[|s| - 1]) == n % 10;
      ModStep(n, Pow10(width - 1));
    }
  }

  lemma DivNonNegative(n: nat, p: nat)
    requires p >= 1
    ensures n / p >= 0
  {
    assert n == p * (n / p) + n % p;
  }

  /** The integer digits of the amount `v * 10^-pre`, without sign. */
  function IntegerDigits(v: int, pre: nat): string
  {
    DivNonNegative(Abs(v), Pow10(pre));
    NatToString(Abs(v) / Pow10(pre), 10)
  }

  /** The sign and the grouped integer digits. */
  function IntegerPart(v: int, pre: nat): string
  {
    (if v < 0 then "-" else "") + Group(IntegerDigits(v, pre))
  }

  /** The integer part ends in a digit and holds no point. */
  lemma IntegerPartShape(v: int, pre: nat)
    ensures var r := IntegerPart(v, pre); r != [] && IsDigit(r[|r| - 1], 10) && '.' !in r
  {
    var d := IntegerDigits(v, pre);
    GroupChars(d);
    assert '.' !in d by {
      forall i | 0 <= i < |d| ensures d[i] != '.' {
        assert IsDigit(d[i], 10);
      }
    }
  }

  lemma {:induction false} GroupChars(d: string)
    ensures forall c :: c in Group(d) ==> c in d || c == ','
    decreases |d|
  {
    if |d| > 3 {
      GroupChars(d[..|d| - 3]);
      forall c | c in d[..|d| - 3] || c in d[|d| - 3..] ensures c in d { }
    }
  }

  /** `f"{value:,.{pre}f}"` for the amount `v * 10^-pre`. */
  function FormatFixed(v: int, pre: nat): string
  {
    IntegerPart(v, pre) + (if pre == 0 then "" else "." + Digits(Abs(v), pre))
  }

  /** `format_decimal(value, delimiter, pre)`. */
  function FormatDecimal(v: int, pre: nat, delimiter: string): (r: string)
    ensures r == [] || r[|r| - 1] != '.'
  {
    var s := FormatFixed(v, pre);
    if '.' in s then RStrip(RStrip(Replace(s, ',', delimiter), '0'), '.')
    else
      assert s[|s| - 1] in s;
      s
  }

  /** Stripping the tail of a concatenation only reaches into the head when the tail strips away. */
  lemma {:induction false} RStripAppend(a: string, b: string, c: char)
    ensures RStrip(a + b, c) == if RStrip(b, c) == [] then RStrip(a, c) else a + RStrip(b, c)
    decreases |b|
  {
    if b == [] {
      assert a + b == a;
    } else if b[|b| - 1] == c {
      var b' := b[..|b| - 1];
      assert (a + b)[..|a + b| - 1] == a + b';
      RStripAppend(a, b', c);
    }
  }

  /** Without fractional digits the formatted string has no point and is returned as it is. */
  lemma NoFractionUnchanged(v: int, delimiter: string)
    ensures FormatDecimal(v, 0, delimiter) == FormatFixed(v, 0)
    ensures FormatFixed(v, 0) == IntegerPart(v, 0)
  {
    IntegerPartShape(v, 0);
    assert FormatFixed(v, 0) == IntegerPart(v, 0);
  }

  lemma ReplaceLastDigit(a: string, delimiter: string)
    requires a != [] && IsDigit(a[|a| - 1], 10)
    ensures var r := Replace(a, ',', delimiter); r != [] && r[|r| - 1] == a[|a| - 1]
  {
    var x := a[..|a| - 1];
    assert a == x + [a[|a| - 1]];
    ReplaceAppend(x, [a[|a| - 1]], ',', delimiter);
    ReplaceOther(a[|a| - 1], ',', delimiter);
  }

  lemma ReplaceAroundPoint(a: string, f: string, delimiter: string)
    requires AllDigits(f, 10)
    ensures Replace(a + "." + f, ',', delimiter) == Replace(a, ',', delimiter) + "." + f
  {
    ReplaceAppend(a + ".", f, ',', delimiter);
    ReplaceAppend(a, ".", ',', delimiter);
    ReplaceOther('.', ',', delimiter);
    assert ',' !in f by {
      forall i | 0 <= i < |f| ensures f[i] != ',' {
        assert IsDigit(f[i], 10);
      }
    }
    ReplaceAbsent(f, ',', delimiter);
  }

  /** The first strip on `a.f`: trailing zeros of `f` go, the point stops it. */
  lemma StripZeros(a: string, f: string)
    ensures var g := RStrip(f, '0');
      RStrip(a + "." + f, '0') == if g == [] then a + "." else a + "." + g
  {
    RStripAppend(a + ".", f, '0');
    var p := a + ".";
    assert p[|p| - 1] == '.';
  }

  /** The second strip: a point left last goes, a digit left last stays. */
  lemma {:induction false} StripPoint(a: string, g: string)
    requires a != [] && IsDigit(a[|a| - 1], 10)
    requires g == [] || IsDigit(g[|g| - 1], 10)
    ensures RStrip(if g == [] then a + "." else a + "." + g, '.') == a + (if g == [] then "" else "." + g)
  {
    if g == [] {
      var t := a + ".";
      assert t[|t| - 1] == '.' && t[..|t| - 1] == a;
      assert RStrip(t, '.') == RStrip(a, '.');
      assert a[|a| - 1] != '.';
      assert RStrip(a, '.') == a;
    } else {
      var t := a + "." + g;
      assert t[|t| - 1] == g[|g| - 1];
      assert t[|t| - 1] != '.';
      assert RStrip(t, '.') == t;
    }
  }

  /** The two strips on `a.f` when `a` ends in a digit and `f` is all digits. */
  lemma StripAroundPoint(a: string, f: string)
    requires a != [] && IsDigit(a[|a| - 1], 10) && AllDigits(f, 10)
    ensures var g := RStrip(f, '0');
      RStrip(RStrip(a + "." + f, '0'), '.') == a + (if g == [] then "" else "." + g)
  {
    StripZeros(a, f);
    var g := RStrip(f, '0');
    if g != [] {
      assert g[|g| - 1] == f[|g| - 1];
      assert IsDigit(f[|g| - 1], 10);
    }
    StripPoint(a, g);
  }

  /**
   * With fractional digits: separators become the delimiter, the integer part
   * is kept whole, trailing zeros of the fraction go, and so does the point
   * when the whole fraction was zeros.
   */
  lemma FractionShape(v: int, pre: nat, delimiter: string)
    requires pre > 0
    ensures var frac := RStrip(Digits(Abs(v), pre), '0');
      FormatDecimal(v, pre, delimiter)
        == Replace(IntegerPart(v, pre), ',', delimiter) + (if frac == [] then "" else "." + frac)
  {
    var a, f := IntegerPart(v, pre), Digits(Abs(v), pre);
    IntegerPartShape(v, pre);
    var s := FormatFixed(v, pre);
    assert s == a + "." + f;
    assert s[|a|] == '.';
    ReplaceAroundPoint(a, f, delimiter);
    ReplaceLastDigit(a, delimiter);
    StripAroundPoint(Replace(a, ',', delimiter), f);
  }

  /** The integer digits, separators removed, spell `|v| / 10^pre`; the fraction spells `|v| mod 10^pre`. */
  lemma FormatFixedDigits(v: int, pre: nat)
    ensures var digits := IntegerDigits(v, pre);
      Replace(IntegerPart(v, pre), ',', "") == (if v < 0 then "-" else "") + digits
      && Count(IntegerPart(v, pre), ',') == (|digits| - 1) / 3
      && DigitsValue(digits, 10) == Abs(v) / Pow10(pre)
      && DigitsValue(Digits(Abs(v), pre), 10) == Abs(v) % Pow10(pre)
  {
    var digits := IntegerDigits(v, pre);
    assert ',' !in digits by {
      forall i | 0 <= i < |digits| ensures digits[i] != ',' {
        assert IsDigit(digits[i], 10);
      }
    }
    var sign: string := if v < 0 then "-" else "";
    GroupUngroup(digits);
    GroupSeparators(digits);
    ReplaceAppend(sign, Group(digits), ',', "");
    if v < 0 {
      ReplaceOther('-', ',', "");
    }
    CountAppend(sign, Group(digits), ',');
    DivNonNegative(Abs(v), Pow10(pre));
    DigitsValueOfNatToString(Abs(v) / Pow10(pre), 10);
    DigitsValueOfDigits(Abs(v), pre);
  }
}
