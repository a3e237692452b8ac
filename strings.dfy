/**
 * The string operations of Python's `str` and `int` that the source relies on:
 * `split` on a one-character separator and `join`, `rstrip`, `replace`,
 * ASCII `lower`, decimal and hexadecimal numerals.
 */
module Strings {
  import opened Wrappers

  /** Number of occurrences of `c` in `s` (`s.count(c)`). */
  function Count(s: string, c: char): nat
  {
    if s == [] then 0 else (if s[0] == c then 1 else 0) + Count(s[1..], c)
  }

  lemma {:induction false} CountZero(s: string, c: char)
    ensures Count(s, c) == 0 <==> c !in s
  {
    if s != [] {
      CountZero(s[1..], c);
      assert s == [s[0]] + s[1..];
    }
  }

  /** Occurrences in a concatenation add up. */
  lemma {:induction false} CountAppend(a: string, b: string, c: char)
    ensures Count(a + b, c) == Count(a, c) + Count(b, c)
  {
    if a != [] {
      assert (a + b)[1..] == a[1..] + b;
      CountAppend(a[1..], b, c);
    } else {
      assert a + b == b;
    }
  }

  /** `s.split(sep)`: always at least one piece, the pieces never hold `sep`. */
  function Split(s: string, sep: char): (pieces: seq<string>)
    ensures |pieces| == Count(s, sep) + 1
    ensures forall i :: 0 <= i < |pieces| ==> sep !in pieces[i]
  {
    if s == [] then [""]
    else
      var rest := Split(s[1..], sep);
      if s[0] == sep then [""] + rest
      else [[s[0]] + rest[0]] + rest[1..]
  }

  /** `sep.join(pieces)`. */
  function Join(pieces: seq<string>, sep: char): string
  {
    if |pieces| == 0 then ""
    else if |pieces| == 1 then pieces[0]
    else pieces[0] + [sep] + Join(pieces[1..], sep)
  }

  lemma JoinConsHead(c: char, pieces: seq<string>, sep: char)
    requires |pieces| >= 1
    ensures Join([[c] + pieces[0]] + pieces[1..], sep) == [c] + Join(pieces, sep)
  {
    var p := [[c] + pieces[0]] + pieces[1..];
    if |pieces| > 1 {
      assert p[1..] == pieces[1..];
    }
  }

  /** Joining the pieces of a split restores the original string. */
  lemma {:induction false} JoinSplit(s: string, sep: char)
    ensures Join(Split(s, sep), sep) == s
  {
    if s != [] {
      var rest := Split(s[1..], sep);
      JoinSplit(s[1..], sep);
      if s[0] == sep {
        var p := [""] + rest;
        assert p[1..] == rest;
        assert s == [sep] + s[1..];
      } else {
        JoinConsHead(s[0], rest, sep);
        assert s == [s[0]] + s[1..];
      }
    }
  }

  lemma {:induction false} SplitNoSepPrefix(a: string, t: string, sep: char)
    requires sep !in a
    ensures Split(a + t, sep) == [a + Split(t, sep)[0]] + Split(t, sep)[1..]
  {
    if a != [] {
      SplitNoSepPrefix(a[1..], t, sep);
      assert (a + t)[1..] == a[1..] + t;
      assert (a + t)[0] == a[0];
      assert [a[0]] + (a[1..] + Split(t, sep)[0]) == a + Split(t, sep)[0];
    } else {
      var rest := Split(t, sep);
      assert a + t == t;
      assert a + rest[0] == rest[0];
      assert rest == [rest[0]] + rest[1..];
    }
  }

  /** Splitting a join of separator-free pieces gives the pieces back. */
  lemma {:induction false} SplitJoin(pieces: seq<string>, sep: char)
    requires |pieces| >= 1
    requires forall i :: 0 <= i < |pieces| ==> sep !in pieces[i]
    ensures Split(Join(pieces, sep), sep) == pieces
  {
    if |pieces| == 1 {
      SplitNoSepPrefix(pieces[0], "", sep);
      assert Split("", sep) == [""];
      assert pieces[0] + "" == pieces[0];
      assert pieces == [pieces[0]];
    } else {
      var rest := pieces[1..];
      SplitJoin(rest, sep);
      var t := [sep] + Join(rest, sep);
      assert pieces[0] + [sep] + Join(rest, sep) == pieces[0] + t;
      SplitNoSepPrefix(pieces[0], t, sep);
      assert t[1..] == Join(rest, sep);
      assert Split(t, sep) == [""] + rest;
      assert Split(t, sep)[0] == "" && Split(t, sep)[1..] == rest;
      assert pieces[0] + "" == pieces[0];
      assert Join(pieces, sep) == pieces[0] + t;
      assert pieces == [pieces[0]] + rest;
    }
  }

  /** `s.rstrip(c)` for a one-character argument. */
  function RStrip(s: string, c: char): (r: string)
    ensures |r| <= |s| && r == s[..|r|]
    ensures r == [] || r[|r| - 1] != c
    ensures forall i :: |r| <= i < |s| ==> s[i] == c
  {
    if s != [] && s[|s| - 1] == c then RStrip(s[..|s| - 1], c) else s
  }

  /** `s.replace(c, by)` for a one-character pattern. */
  function Replace(s: string, c: char, d: string): (r: string)
    ensures c !in d ==> c !in r
  {
    if s == [] then [] else (if s[0] == c then d else [s[0]]) + Replace(s[1..], c, d)
  }

  lemma {:induction false} ReplaceAppend(s: string, t: string, c: char, d: string)
    ensures Replace(s + t, c, d) == Replace(s, c, d) + Replace(t, c, d)
  {
    if s == [] {
      assert s + t == t;
    } else {
      assert (s + t)[1..] == s[1..] + t;
      ReplaceAppend(s[1..], t, c, d);
    }
  }

  lemma ReplaceOther(x: char, c: char, d: string)
    requires x != c
    ensures Replace([x], c, d) == [x]
  {
    assert [x][1..] == [];
  }

  lemma ReplaceSame(c: char, d: string)
    ensures Replace([c], c, d) == d
  {
    assert [c][1..] == [];
  }

  /** A string that does not contain `c` is left as it is. */
  lemma {:induction false} ReplaceAbsent(s: string, c: char, d: string)
    requires c !in s
    ensures Replace(s, c, d) == s
  {
    if s != [] {
      ReplaceAbsent(s[1..], c, d);
      assert s == [s[0]] + s[1..];
    }
  }

  predicate StartsWith(s: string, prefix: string)
  {
    |prefix| <= |s| && s[..|prefix|] == prefix
  }

  /** ASCII case folding, as Python's `str.lower` does on ASCII text. */
  function LowerChar(c: char): char
  {
    if 'A' <= c <= 'Z' then (c as int + 32) as char else c
  }

  function Lower(s: string): (r: string)
    ensures |r| == |s|
    ensures forall i :: 0 <= i < |s| ==> r[i] == LowerChar(s[i])
  {
    seq(|s|, i requires 0 <= i < |s| => LowerChar(s[i]))
  }

  /** Lower-casing twice is lower-casing once. */
  lemma LowerIdempotent(s: string)
    ensures Lower(Lower(s)) == Lower(s)
  {
  }

  // ---------------------------------------------------------------------------
  // Numerals in base 10 and 16.

  predicate IsBase(base: nat) { base == 10 || base == 16 }

  /** The digit character Python's `str(n)` and `hex(n)` print (lower-case). */
  function DigitChar(d: nat): char
    requires d < 16
  {
    if d < 10 then ('0' as int + d) as char else ('a' as int + d - 10) as char
  }

  /** The value of a digit character in any case, 16 for a non-digit. */
  function DigitValue(c: char): nat
  {
    if '0' <= c <= '9' then c as int - '0' as int
    else if 'a' <= c <= 'f' then c as int - 'a' as int + 10
    else if 'A' <= c <= 'F' then c as int - 'A' as int + 10
    else 16
  }

  predicate IsDigit(c: char, base: nat) { DigitValue(c) < base }

  predicate AllDigits(s: string, base: nat)
  {
    forall i :: 0 <= i < |s| ==> IsDigit(s[i], base)
  }

  /** The numeral of `n` in `base`, without leading zeros. */
  function NatToString(n: nat, base: nat): (r: string)
    requires IsBase(base)
    ensures |r| >= 1 && AllDigits(r, base)
    decreases n
  {
    if n < base then [DigitChar(n)]
    else NatToString(n / base, base) + [DigitChar(n % base)]
  }

  /** The value of a string of digits, most significant first. */
  function DigitsValue(s: string, base: nat): nat
    requires AllDigits(s, base)
  {
    if s == [] then 0 else DigitsValue(s[..|s| - 1], base) * base + DigitValue(s[|s| - 1])
  }

  lemma {:induction false} DigitsValueOfNatToString(n: nat, base: nat)
    requires IsBase(base)
    ensures DigitsValue(NatToString(n, base), base) == n
    decreases n
  {
    var s := NatToString(n, base);
    if n < base {
      assert s[..0] == [];
    } else {
      DigitsValueOfNatToString(n / base, base);
      assert s[..|s| - 1] == NatToString(n / base, base);
    }
  }

  /** A non-empty run of digits, or `None`. */
  function ParseDigits(s: string, base: nat): (r: Option<nat>)
    ensures r.Some? <==> s != [] && AllDigits(s, base)
  {
    if s != [] && AllDigits(s, base) then Some(DigitsValue(s, base)) else None
  }

  /** `int(s)` for an optionally signed decimal numeral. */
  function ParseInt(s: string): Option<int>
  {
    if s != [] && (s[0] == '-' || s[0] == '+') then
      match ParseDigits(s[1..], 10)
      case Some(n) => Some(if s[0] == '-' then -(n as int) else n as int)
      case None => None
    else
      match ParseDigits(s, 10)
      case Some(n) => Some(n)
      case None => None
  }

  /** `str(i)`. */
  function IntToString(i: int): string
  {
    if i < 0 then "-" + NatToString(-i, 10) else NatToString(i, 10)
  }

  /** `int(str(i)) == i`. */
  lemma ParseIntToString(i: int)
    ensures ParseInt(IntToString(i)) == Some(i)
  {
    var s := IntToString(i);
    if i < 0 {
      DigitsValueOfNatToString(-i, 10);
      assert s[1..] == NatToString(-i, 10);
    } else {
      DigitsValueOfNatToString(i, 10);
      assert DigitValue(s[0]) < 10;
    }
  }
}
